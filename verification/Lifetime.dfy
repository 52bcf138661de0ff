/**
A room's life: events are ordered, turns sealed, saves taken, and the server
crashes and comes back, in any order and any number of times. What every such
run keeps is what clients rely on.
*/
module Lifetime {
  import opened Protocol
  import opened Sequencer
  import opened Sealing
  import opened Recovery
  import opened Server
  import Streams

  /** A room with its log and, for every history it had, the log when that history
      last grew; and the points of the saves it sealed. */
  datatype Life<S> = Life(room: RoomState<S>, records: seq<Record>, lines: map<nat, seq<Turn>>, points: seq<SavePoint>)

  datatype LifeStep =
    | Order(body: EventBody)
    | SetSpeed(speed: nat)
    | SealTo(frontier: nat)
    | SealASave
    | Crash(kept: nat, id: nat)

  // ----- the table

  /** Ownership is the earliest seat. */
  predicate OwnerFirst<S>(t: Table<S>) {
    t.seated != [] ==> t.seated[0].player == t.owner
  }

  /** A table as a room keeps it: the owner first, and no more than fit. */
  predicate Seating<S>(t: Table<S>, max: nat) {
    OwnerFirst(t) && |t.seated| <= max
  }

  /** Only players who are not seated join, while there is a seat, and the owner is
      the first to. */
  predicate Admits<S>(t: Table<S>, body: EventBody, max: nat) {
    body.PlayerJoined?
    ==> && (forall i | 0 <= i < |t.seated| :: t.seated[i].player != body.player) && |t.seated| < max
        && (t.seated == [] ==> body.player == t.owner)
  }

  lemma {:induction false} UnseatOthers(seated: seq<Seat>, player: PlayerId)
    ensures (forall i | 0 <= i < |seated| :: seated[i].player != player) ==> Unseat(seated, player) == seated
    ensures seated != [] && seated[0].player != player
            ==> Unseat(seated, player) != [] && Unseat(seated, player)[0] == seated[0]
    ensures |Unseat(seated, player)| <= |seated|
  {
    if seated != [] {
      UnseatOthers(seated[1..], player);
      if forall i | 0 <= i < |seated| :: seated[i].player != player {
        assert forall i | 0 <= i < |seated[1..]| :: seated[1..][i] == seated[i + 1];
      }
    }
  }

  lemma WitnessSeats<S>(rules: Rules<S>, t: Table<S>, event: Event, max: nat)
    requires Seating(t, max) && Admits(t, event.body, max)
    ensures Seating(Witness(rules, t, event), max)
  {
    if event.body.PlayerJoined? || event.body.PlayerLeft? { UnseatOthers(t.seated, event.body.player); }
  }

  /** The table was as a room keeps it after each of `events`. */
  ghost predicate OwnedThrough<S>(rules: Rules<S>, t: Table<S>, events: seq<Event>, max: nat)
    decreases |events|
  {
    && Seating(WitnessAll(rules, t, events), max)
    && (events != [] ==> OwnedThrough(rules, t, Init(events), max))
  }

  lemma {:induction false} OwnedCut<S>(rules: Rules<S>, t: Table<S>, events: seq<Event>, k: nat, max: nat)
    requires OwnedThrough(rules, t, events, max) && k <= |events|
    ensures OwnedThrough(rules, t, events[..k], max)
    decreases |events|
  {
    if k == |events| {
      assert events[..k] == events;
    } else {
      OwnedCut(rules, t, Init(events), k, max);
      assert Init(events)[..k] == events[..k];
    }
  }

  /** A recovered room's owner: one who is still seated. */
  function Settled<S>(room: RoomState<S>): RoomState<S>
    requires room.game.seated != []
  {
    if exists i | 0 <= i < |room.game.seated| :: room.game.seated[i].player == room.owner then room
    else room.(owner := room.game.seated[0].player)
  }

  // ----- steps

  function Ordering<S>(rules: Rules<S>, room: RoomState<S>, body: EventBody): RoomState<S> {
    var t := Witness(rules, TableOf(room), Ordered(room.game, body));
    RoomState(Append(room.game, body), t.rules, t.owner)
  }

  function Seals(turns: seq<Turn>): seq<Record>
    decreases |turns|
  {
    if turns == [] then [] else Seals(Init(turns)) + [Record.Sealed(Last(turns))]
  }

  function SealUp<S>(l: Life<S>, frontier: nat, length: FrameLength): Life<S> {
    var records := l.records + Seals(Published(l.room.game, frontier));
    l.(room := l.room.(game := Seal(l.room.game, frontier, length)), records := records,
       lines := l.lines[CurrentHistory(l.room.game) := TurnsIn(records)])
  }

  /** The room with its pending save sealed, and the save's point. */
  function SaveUp<S>(rules: Rules<S>, l: Life<S>, length: FrameLength): Life<S> {
    var ordered := l.(room := Ordering(rules, l.room, Save));
    SealUp(ordered, l.room.game.sealedThrough, length)
    .(points := l.points + [SealSave(l.room.game, length).1])
  }

  /** A log that no longer seats anyone is deleted. */
  function ComeBack<S>(rules: Rules<S>, start: StartRecord, l: Life<S>, kept: nat, id: nat, length: FrameLength)
    : Option<Life<S>>
  {
    if kept > |l.records| || id in l.lines then None
    else
      match Recover(rules, start, l.records[..kept], length)
      case Err(_) => None
      case Ok(room) => Restored(l, room, kept, id)
  }

  /** The room read back from what a crash left of the log begins a new history. */
  function Restored<S>(l: Life<S>, room: RoomState<S>, kept: nat, id: nat): Option<Life<S>>
    requires kept <= |l.records|
  {
    if room.game.seated == [] then None
    else
      var marker := Marker(id, room.game.nextTurn, room.game.nextEvent);
      Some(l.(room := Settled(room).(game := BeginHistory(room.game, id)), records := l.records[..kept] + [marker],
              lines := l.lines[id := TurnsIn(l.records[..kept])]))
  }

  /** One step, if it can happen. A seal never moves the frontier back. */
  function Live<S>(rules: Rules<S>, start: StartRecord, l: Life<S>, step: LifeStep,
                   length: FrameLength): Option<Life<S>>
  {
    var g := l.room.game;
    match step
    case Order(body) =>
      if Admits(TableOf(l.room), body, start.maxPlayers) then Some(l.(room := Ordering(rules, l.room, body))) else None
    case SetSpeed(speed) => Some(l.(room := l.room.(game := g.(speed := speed))))
    case SealTo(frontier) =>
      if g.sealedThrough <= frontier <= MAX_FRONTIER then Some(SealUp(l, frontier, length)) else None
    case SealASave => Some(SaveUp(rules, l, length))
    case Crash(kept, id) => ComeBack(rules, start, l, kept, id, length)
  }

  function Birth<S>(rules: Rules<S>, start: StartRecord): Life<S> {
    Life(RoomState(NewGame(start.history), rules.initial, start.owner), [], map[start.history := []], [])
  }

  // ----- what every run keeps

  ghost predicate RoomKept<S>(rules: Rules<S>, start: StartRecord, l: Life<S>, length: FrameLength) {
    && WellFormed(l.records) && Image(rules, start, l.records, l.room, length)
    && OwnedThrough(rules, Empty(rules, start), EventsOf(TurnsIn(l.records)) + l.room.game.pending,
                    start.maxPlayers)
    && l.room.game.sealedThrough <= MAX_FRONTIER
  }

  predicate LinesKept(lines: map<nat, seq<Turn>>, first: nat, records: seq<Record>) {
    var histories := HistoriesIn(first, records);
    && Lined(lines, histories, TurnsIn(records))
    && lines[Last(histories).id] == TurnsIn(records)
    && forall h | h in lines :: Chain(Origin, lines[h]) && Run(Origin, lines[h]).sealed <= MAX_FRONTIER
  }

  predicate PointsKept(points: seq<SavePoint>, lines: map<nat, seq<Turn>>) {
    forall i | 0 <= i < |points| ::
      points[i].history in lines && Streams.PointAt(points[i], lines[points[i].history])
  }

  ghost predicate LifeInv<S>(rules: Rules<S>, start: StartRecord, l: Life<S>, length: FrameLength) {
    && start.base.None? && RoomKept(rules, start, l, length)
    && LinesKept(l.lines, start.history, l.records)
    && PointsKept(l.points, l.lines)
  }

  lemma BirthKeeps<S>(rules: Rules<S>, start: StartRecord, length: FrameLength)
    requires start.base.None?
    ensures LifeInv(rules, start, Birth(rules, start), length)
  {
    NewGameSealed(start.history, length);
    assert EventsOf(TurnsIn([])) + [] == [];
  }

  lemma OrderKeeps<S>(rules: Rules<S>, start: StartRecord, l: Life<S>, body: EventBody, length: FrameLength)
    requires LifeInv(rules, start, l, length) && Admits(TableOf(l.room), body, start.maxPlayers)
    ensures LifeInv(rules, start, l.(room := Ordering(rules, l.room, body)), length)
  {
    var g, event := l.room.game, Ordered(l.room.game, body);
    AppendKeeps(g, TurnsIn(l.records), body, length);
    var t, seen := Empty(rules, start), EventsOf(TurnsIn(l.records));
    WitnessAppend(rules, t, seen, g.pending);
    WitnessSeats(rules, TableOf(l.room), event, start.maxPlayers);
    assert Init(g.pending + [event]) == g.pending;
    Assoc(seen, g.pending, [event]);
    assert Init(seen + g.pending + [event]) == seen + g.pending;
    assert OwnedThrough(rules, t, seen + g.pending + [event], start.maxPlayers);
  }

  /** No more players sit in a room than it has seats. */
  lemma SeatsFit<S>(rules: Rules<S>, start: StartRecord, l: Life<S>, length: FrameLength)
    requires RoomKept(rules, start, l, length)
    ensures |l.room.game.seated| <= start.maxPlayers
  {
    WitnessAppend(rules, Empty(rules, start), EventsOf(TurnsIn(l.records)), l.room.game.pending);
  }

  lemma SpeedImage(start: StartRecord, records: seq<Record>, g: GameState, speed: nat, length: FrameLength)
    requires GameImage(start, records, g, length)
    ensures GameImage(start, records, g.(speed := speed), length)
  {
  }

  lemma SpeedKeeps<S>(rules: Rules<S>, start: StartRecord, l: Life<S>, speed: nat, length: FrameLength)
    requires LifeInv(rules, start, l, length)
    ensures LifeInv(rules, start, l.(room := l.room.(game := l.room.game.(speed := speed))), length)
  {
    SpeedImage(start, l.records, l.room.game, speed, length);
  }

  // ----- sealing

  lemma {:induction false} SealsLog(first: nat, records: seq<Record>, turns: seq<Turn>)
    ensures TurnsIn(records + Seals(turns)) == TurnsIn(records) + turns
    ensures HistoriesIn(first, records + Seals(turns)) == HistoriesIn(first, records)
    ensures SpeedIn(records + Seals(turns)) == if turns == [] then SpeedIn(records) else Last(turns).speed
    decreases |turns|
  {
    if turns == [] {
      assert records + [] == records;
    } else {
      SealsLog(first, records, Init(turns));
      LogsTurn(records + Seals(Init(turns)), Last(turns));
      Assoc(records, Seals(Init(turns)), [Record.Sealed(Last(turns))]);
      Assoc(TurnsIn(records), Init(turns), [Last(turns)]);
      assert Init(turns) + [Last(turns)] == turns;
    }
  }

  predicate BelowLimit(turns: seq<Turn>) {
    forall i | 0 <= i < |turns| :: turns[i].sealedThrough <= MAX_FRONTIER
  }

  lemma {:induction false} SealsWellFormed(records: seq<Record>, turns: seq<Turn>)
    requires WellFormed(records) && Chain(Run(Origin, TurnsIn(records)), turns) && BelowLimit(turns)
    ensures WellFormed(records + Seals(turns))
    decreases |turns|
  {
    if turns == [] {
      assert records + [] == records;
    } else {
      var before := records + Seals(Init(turns));
      SealsWellFormed(records, Init(turns));
      SealsLog(0, records, Init(turns));
      RunAppend(Origin, TurnsIn(records), Init(turns));
      Assoc(records, Seals(Init(turns)), [Record.Sealed(Last(turns))]);
      assert Init(before + [Record.Sealed(Last(turns))]) == before;
    }
  }

  lemma {:induction false} ChainBelow(at: Cursor, turns: seq<Turn>, limit: nat)
    requires Chain(at, turns) && Run(at, turns).sealed <= limit
    ensures forall i | 0 <= i < |turns| :: turns[i].sealedThrough <= limit
    decreases |turns|
  {
    if turns != [] { ChainBelow(at, Init(turns), limit); }
  }

  lemma {:induction false} SpeedPublished(number: nat, speed: nat, sealed: nat, batches: seq<seq<Event>>, frontier: nat)
    ensures forall i | 0 <= i < |TurnsFor(number, speed, sealed, batches, frontier)| ::
              TurnsFor(number, speed, sealed, batches, frontier)[i].speed == speed
    decreases |batches|
  {
    if batches != [] { SpeedPublished(number + 1, speed, sealed, batches[1..], frontier); }
  }

  /** The room still holds what its log says once its turns are in the log. */
  lemma SealImage<S>(rules: Rules<S>, start: StartRecord, l: Life<S>, frontier: nat, length: FrameLength)
    requires start.base.None? && RoomKept(rules, start, l, length)
    requires l.room.game.sealedThrough <= frontier <= MAX_FRONTIER
    ensures RoomKept(rules, start, SealUp(l, frontier, length), length)
    ensures SealUp(l, frontier, length).room.game.pending == []
    ensures SealUp(l, frontier, length).room.game.speed == SealUp(l, frontier, length).room.game.announced
    ensures TurnsIn(SealUp(l, frontier, length).records) == TurnsIn(l.records) + Published(l.room.game, frontier)
  {
    var g, s := l.room.game, SealUp(l, frontier, length);
    var all, turns := TurnsIn(l.records), Published(g, frontier);
    SealKeeps(g, all, frontier, length);
    PublishedChain(g, all, frontier);
    ChainBelow(Run(Origin, all), turns, frontier);
    SealsWellFormed(l.records, turns);
    SealsLog(start.history, l.records, turns);
    SpeedPublished(g.nextTurn, g.speed, g.sealedThrough, Batches(g.pending), frontier);
    assert GameImage(start, s.records, s.room.game, length);
    EventsOfAppend(all, turns);
    assert EventsOf(all + turns) == EventsOf(all) + g.pending;
    WitnessAppend(rules, Empty(rules, start), EventsOf(all), g.pending);
    assert EventsOf(all + turns) + [] == EventsOf(all) + g.pending;
  }

  lemma {:induction false} GrownLines(lines: map<nat, seq<Turn>>, first: nat, records: seq<Record>, turns: seq<Turn>)
    requires LinesKept(lines, first, records) && WellFormed(records + Seals(turns))
    ensures var more := records + Seals(turns);
            LinesKept(lines[Last(HistoriesIn(first, records)).id := TurnsIn(more)], first, more)
  {
    var histories, all := HistoriesIn(first, records), TurnsIn(records);
    SealsLog(first, records, turns);
    HistoriesReach(first, records);
    LinedGrow(lines, histories, all, turns);
    WellFormedChain(records + Seals(turns));
  }

  /** A history's turns only ever grow. */
  lemma GrownPoints(points: seq<SavePoint>, lines: map<nat, seq<Turn>>, id: nat, line: seq<Turn>)
    requires PointsKept(points, lines) && (id in lines ==> lines[id] <= line)
    ensures PointsKept(points, lines[id := line])
  {
    var grown := lines[id := line];
    forall i | 0 <= i < |points|
      ensures points[i].history in grown && Streams.PointAt(points[i], grown[points[i].history])
    {
      var h, n := points[i].history, points[i].afterTurn;
      assert lines[h][..n] == grown[h][..n];
      Streams.PointStays(points[i], lines[h], grown[h]);
    }
  }

  lemma SealUpKeeps<S>(rules: Rules<S>, start: StartRecord, l: Life<S>, frontier: nat, length: FrameLength)
    requires LifeInv(rules, start, l, length) && l.room.game.sealedThrough <= frontier <= MAX_FRONTIER
    ensures LifeInv(rules, start, SealUp(l, frontier, length), length)
  {
    var s, turns := SealUp(l, frontier, length), Published(l.room.game, frontier);
    SealImage(rules, start, l, frontier, length);
    GrownLines(l.lines, start.history, l.records, turns);
    GrownPoints(l.points, l.lines, CurrentHistory(l.room.game), TurnsIn(s.records));
  }

  /** The point of a save describes it in the log it was sealed into. */
  lemma SavedPoint<S>(rules: Rules<S>, start: StartRecord, l: Life<S>, length: FrameLength)
    requires start.base.None? && RoomKept(rules, start, l, length)
    ensures var s, point := SaveUp(rules, l, length), SealSave(l.room.game, length).1;
            && point.history == CurrentHistory(l.room.game)
            && TurnsIn(s.records)
               == TurnsIn(l.records) + Published(Append(l.room.game, Save), l.room.game.sealedThrough)
            && Streams.PointAt(point, TurnsIn(s.records))
  {
    var g := l.room.game;
    SealsLog(start.history, l.records, Published(Append(g, Save), g.sealedThrough));
    Streams.SaveEndsItsTurn(g, TurnsIn(l.records), length);
  }

  lemma SaveUpKeeps<S>(rules: Rules<S>, start: StartRecord, l: Life<S>, length: FrameLength)
    requires LifeInv(rules, start, l, length)
    ensures LifeInv(rules, start, SaveUp(rules, l, length), length)
  {
    var g, ordered := l.room.game, l.(room := Ordering(rules, l.room, Save));
    OrderKeeps(rules, start, l, Save, length);
    SealUpKeeps(rules, start, ordered, g.sealedThrough, length);
    SavedPoint(rules, start, l, length);
    PointAdded(SealUp(ordered, g.sealedThrough, length), SealSave(g, length).1);
  }

  lemma PointAdded<S>(s: Life<S>, point: SavePoint)
    requires PointsKept(s.points, s.lines) && point.history in s.lines
    requires Streams.PointAt(point, s.lines[point.history])
    ensures PointsKept(s.points + [point], s.lines)
  {
  }

  // ----- crashes

  lemma {:induction false} TurnsPrefix(records: seq<Record>, k: nat)
    requires k <= |records|
    ensures TurnsIn(records[..k]) <= TurnsIn(records)
    ensures EventsOf(TurnsIn(records[..k])) <= EventsOf(TurnsIn(records))
    decreases |records|
  {
    if k == |records| {
      assert records[..k] == records;
    } else {
      TurnsPrefix(Init(records), k);
      assert Init(records)[..k] == records[..k];
      if Last(records).Sealed? {
        ChainPush(Origin, TurnsIn(Init(records)), Last(records).turn);
      } else {
        assert TurnsIn(records) == TurnsIn(Init(records));
      }
    }
  }

  /** What is left of the log recovers to a room that holds it, under the owner the
      live room had then. */
  lemma {:induction false} CrashRecovers<S>(rules: Rules<S>, start: StartRecord, l: Life<S>, kept: nat,
                                             length: FrameLength)
    requires start.base.None? && RoomKept(rules, start, l, length) && kept <= |l.records|
    ensures Recover(rules, start, l.records[..kept], length).Ok?
    ensures var r, left := Recover(rules, start, l.records[..kept], length).value, l.records[..kept];
            && WellFormed(left) && Image(rules, start, left, r, length) && r.game.pending == []
            && OwnedThrough(rules, Empty(rules, start), EventsOf(TurnsIn(left)), start.maxPlayers)
            && Seating(TableOf(r), start.maxPlayers)
            && r.game.sealedThrough <= MAX_FRONTIER
  {
    var left := l.records[..kept];
    WellFormedCut(l.records, kept);
    RecoverImage(rules, start, left, length);
    OwnedLeft(rules, start, l.records, kept, l.room.game.pending);
    LeftSealed(l.records, kept);
  }

  lemma {:induction false} OwnedLeft<S>(rules: Rules<S>, start: StartRecord, records: seq<Record>, kept: nat,
                                         pending: seq<Event>)
    requires OwnedThrough(rules, Empty(rules, start), EventsOf(TurnsIn(records)) + pending, start.maxPlayers)
    requires kept <= |records|
    ensures OwnedThrough(rules, Empty(rules, start), EventsOf(TurnsIn(records[..kept])), start.maxPlayers)
    ensures Seating(TableIn(rules, start, records[..kept]), start.maxPlayers)
  {
    TurnsPrefix(records, kept);
    var events, n := EventsOf(TurnsIn(records)) + pending, |EventsOf(TurnsIn(records[..kept]))|;
    assert events[..n] == EventsOf(TurnsIn(records[..kept]));
    OwnedCut(rules, Empty(rules, start), events, n, start.maxPlayers);
  }

  lemma {:induction false} LeftSealed(records: seq<Record>, kept: nat)
    requires WellFormed(records) && kept <= |records|
    ensures Run(Origin, TurnsIn(records[..kept])).sealed <= Run(Origin, TurnsIn(records)).sealed
  {
    var left, all := TurnsIn(records[..kept]), TurnsIn(records);
    TurnsPrefix(records, kept);
    WellFormedChain(records);
    assert all[..|left|] == left;
    ChainCut(Origin, all, |left|);
    ChainNumbers(Run(Origin, left), all[|left|..]);
  }

  lemma CrashLines(lines: map<nat, seq<Turn>>, first: nat, records: seq<Record>, kept: nat, marker: Record)
    requires LinesKept(lines, first, records) && kept <= |records| && marker.Marker? && marker.history !in lines
    requires WellFormed(records[..kept])
    ensures LinesKept(lines[marker.history := TurnsIn(records[..kept])], first, records[..kept] + [marker])
  {
    var left := records[..kept];
    LinedCut(lines, first, records, kept);
    LinedFresh(lines, HistoriesIn(first, left), TurnsIn(left), marker.history);
    assert Init(left + [marker]) == left;
    assert TurnsIn(left + [marker]) == TurnsIn(left);
    WellFormedChain(left);
  }

  lemma ComeBackKeeps<S>(rules: Rules<S>, start: StartRecord, l: Life<S>, kept: nat, id: nat, length: FrameLength)
    requires LifeInv(rules, start, l, length) && ComeBack(rules, start, l, kept, id, length).Some?
    ensures var b := ComeBack(rules, start, l, kept, id, length).value;
            && LifeInv(rules, start, b, length)
            && b.room == Recover(rules, start, l.records[..kept], length).value.(game := b.room.game)
  {
    var left := l.records[..kept];
    CrashRecovers(rules, start, l, kept, length);
    var r := Recover(rules, start, left, length).value;
    assert Settled(r) == r;
    var marker := Marker(id, r.game.nextTurn, r.game.nextEvent);
    MarkedImage(rules, start, left, r, marker, length);
    assert Init(left + [marker]) == left;
    assert TurnsIn(left + [marker]) == TurnsIn(left);
    assert EventsOf(TurnsIn(left)) + [] == EventsOf(TurnsIn(left));
    CrashLines(l.lines, start.history, l.records, kept, marker);
    GrownPoints(l.points, l.lines, id, TurnsIn(left));
  }

  /** Every step of a room's life keeps all of it. */
  lemma LiveKeeps<S>(rules: Rules<S>, start: StartRecord, l: Life<S>, step: LifeStep, length: FrameLength)
    requires LifeInv(rules, start, l, length) && Live(rules, start, l, step, length).Some?
    ensures LifeInv(rules, start, Live(rules, start, l, step, length).value, length)
  {
    match step
    case Order(body) => OrderKeeps(rules, start, l, body, length);
    case SetSpeed(speed) => SpeedKeeps(rules, start, l, speed, length);
    case SealTo(frontier) => SealUpKeeps(rules, start, l, frontier, length);
    case SealASave => SaveUpKeeps(rules, start, l, length);
    case Crash(kept, id) => ComeBackKeeps(rules, start, l, kept, id, length);
  }
}

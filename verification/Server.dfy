/**
A room over any number of crashes: what it holds is always what its log says,
and its histories always tell which turns a client may have seen.

A crash keeps any number of the log's records and loses the rest, with every
event not yet sealed; the room is rebuilt from what is left and begins a new
history. Beside the room stands, for every history it ever had, the log as it
was when that history last grew.
*/
module Server {
  import opened Protocol
  import opened Sequencer
  import opened Sealing
  import opened Recovery
  import C = Compaction
  import F = Follower

  // ----- what a log says

  function TurnsIn(records: seq<Record>): seq<Turn>
    decreases |records|
  {
    if records == [] then []
    else TurnsIn(Init(records)) + if Last(records).Sealed? then [Last(records).turn] else []
  }

  function HistoriesIn(first: nat, records: seq<Record>): seq<History>
    decreases |records|
  {
    if records == [] then [History(first, 0)]
    else
      HistoriesIn(first, Init(records))
      + if Last(records).Marker? then [History(Last(records).history, |TurnsIn(Init(records))|)] else []
  }

  /** A turn continues the ones before it, and a marker stands where it says. */
  predicate Logs(at: Cursor, record: Record) {
    match record
    case Sealed(turn) => Fits(at, turn) && turn.sealedThrough <= MAX_FRONTIER
    case Marker(_, nextTurn, nextEvent) => nextTurn == at.turn && nextEvent == at.event
  }

  predicate WellFormed(records: seq<Record>)
    decreases |records|
  {
    records == [] || (WellFormed(Init(records)) && Logs(Run(Origin, TurnsIn(Init(records))), Last(records)))
  }

  function SpeedIn(records: seq<Record>): nat
    decreases |records|
  {
    if records == [] then F.NORMAL_SPEED
    else if Last(records).Sealed? then Last(records).turn.speed
    else SpeedIn(Init(records))
  }

  function Empty<S>(rules: Rules<S>, start: StartRecord): Table<S> {
    Table(rules.initial, [], start.owner)
  }

  /** The game holds what `records` say, and its pending events besides. */
  ghost predicate GameImage(start: StartRecord, records: seq<Record>, g: GameState, length: FrameLength) {
    && Sealing.Sealed(g, TurnsIn(records), length)
    && g.resumeWindow == RESUME_WINDOW
    && g.histories == HistoriesIn(start.history, records)
    && g.announced == SpeedIn(records)
  }

  function TableIn<S>(rules: Rules<S>, start: StartRecord, records: seq<Record>): Table<S> {
    WitnessAll(rules, Empty(rules, start), EventsOf(TurnsIn(records)))
  }

  /** So does the whole room. */
  ghost predicate Image<S>(rules: Rules<S>, start: StartRecord, records: seq<Record>, room: RoomState<S>,
                           length: FrameLength)
  {
    && GameImage(start, records, room.game, length)
    && TableOf(room) == WitnessAll(rules, TableIn(rules, start, records), room.game.pending)
  }

  /** A log leaves nothing open: the window is the one longest suffix. */
  lemma WindowUnique(g: GameState, h: GameState, whole: seq<LoggedTurn>)
    requires Windowed(g, whole) && Windowed(h, whole) && g.resumeWindow == h.resumeWindow
    ensures g.log == h.log && g.logFirstTurn == h.logFirstTurn && g.logBytes == h.logBytes
    ensures g.sealedBeforeLog == h.sealedBeforeLog
  {
    var j, k := g.logFirstTurn - 1, h.logFirstTurn - 1;
    assert HoldsFrom(whole, j, g.resumeWindow) && HoldsFrom(whole, k, g.resumeWindow);
  }

  lemma ImageUnique<S>(rules: Rules<S>, start: StartRecord, records: seq<Record>, a: RoomState<S>, b: RoomState<S>,
                       length: FrameLength)
    requires Image(rules, start, records, a, length) && Image(rules, start, records, b, length)
    requires a.game.pending == b.game.pending && a.game.speed == b.game.speed
    ensures a == b
  {
    WindowUnique(a.game, b.game, Logged(Origin, TurnsIn(records), length));
  }

  lemma {:induction false} WellFormedChain(records: seq<Record>)
    requires WellFormed(records)
    ensures Chain(Origin, TurnsIn(records)) && Run(Origin, TurnsIn(records)).sealed <= MAX_FRONTIER
    decreases |records|
  {
    if records != [] {
      WellFormedChain(Init(records));
      if Last(records).Sealed? {
        ChainPush(Origin, TurnsIn(Init(records)), Last(records).turn);
      } else {
        assert TurnsIn(records) == TurnsIn(Init(records));
      }
    }
  }

  lemma {:induction false} WellFormedCut(records: seq<Record>, k: nat)
    requires WellFormed(records) && k <= |records|
    ensures WellFormed(records[..k])
    decreases |records|
  {
    if k == |records| {
      assert records[..k] == records;
    } else {
      WellFormedCut(Init(records), k);
      assert Init(records)[..k] == records[..k];
    }
  }

  // ----- recovery restores the image

  lemma {:induction false} WitnessAppend<S>(rules: Rules<S>, t: Table<S>, a: seq<Event>, b: seq<Event>)
    ensures WitnessAll(rules, t, a + b) == WitnessAll(rules, WitnessAll(rules, t, a), b)
    decreases |b|
  {
    if b == [] {
      assert a + b == a;
    } else {
      WitnessAppend(rules, t, a, Init(b));
      assert Init(a + b) == a + Init(b) && Last(a + b) == Last(b);
    }
  }

  lemma {:induction false} LoggedPush(g: GameState, all: seq<Turn>, turn: Turn, length: FrameLength)
    requires Standing(g, all) && g.pending == [] && Fits(Run(Origin, all), turn)
    ensures Logged(Origin, all + [turn], length) == Logged(Origin, all, length) + [Entry(turn, g.nextEvent, length)]
  {
    assert Init(all + [turn]) == all;
  }

  lemma {:induction false} RelogSealed(g: GameState, all: seq<Turn>, turn: Turn, length: FrameLength)
    requires Sealing.Sealed(g, all, length) && g.pending == [] && Fits(Run(Origin, all), turn)
    ensures Sealing.Sealed(Relog(g, turn, length), all + [turn], length)
    ensures Relog(g, turn, length).pending == [] && Relog(g, turn, length).resumeWindow == g.resumeWindow
    ensures Relog(g, turn, length).histories == g.histories
  {
    var entry := Entry(turn, g.nextEvent, length);
    LoggedPush(g, all, turn, length);
    RememberLongest(g, Logged(Origin, all, length), entry);
    ChainPush(Origin, all, turn);
    RelogWindow(g, Remember(g, entry), turn, Logged(Origin, all + [turn], length), length);
  }

  /** Moving the counters on does not touch the window. */
  lemma RelogWindow(g: GameState, r: GameState, turn: Turn, whole: seq<LoggedTurn>, length: FrameLength)
    requires r == Remember(g, Entry(turn, g.nextEvent, length)) && Windowed(r, whole)
    ensures Windowed(Relog(g, turn, length), whole)
  {
  }

  lemma {:induction false} LogsTurn(records: seq<Record>, turn: Turn)
    ensures TurnsIn(records + [Record.Sealed(turn)]) == TurnsIn(records) + [turn]
    ensures SpeedIn(records + [Record.Sealed(turn)]) == turn.speed
    ensures forall first :: HistoriesIn(first, records + [Record.Sealed(turn)]) == HistoriesIn(first, records)
  {
    assert Init(records + [Record.Sealed(turn)]) == records;
  }

  lemma {:induction false} RelogImage(start: StartRecord, records: seq<Record>, g: GameState, turn: Turn,
                                       seated: seq<Seat>, length: FrameLength)
    requires GameImage(start, records, g, length) && g.pending == []
    requires Fits(Run(Origin, TurnsIn(records)), turn)
    ensures GameImage(start, records + [Record.Sealed(turn)], Relog(g, turn, length).(seated := seated), length)
  {
    LogsTurn(records, turn);
    RelogSealed(g, TurnsIn(records), turn, length);
    var r := Relog(g, turn, length);
    assert r.announced == turn.speed;
    SeatedAside(r, seated, TurnsIn(records) + [turn], length);
  }

  lemma SeatedAside(g: GameState, seated: seq<Seat>, all: seq<Turn>, length: FrameLength)
    requires Sealing.Sealed(g, all, length)
    ensures Sealing.Sealed(g.(seated := seated), all, length)
  {
  }

  lemma {:induction false} TableGrows<S>(rules: Rules<S>, start: StartRecord, records: seq<Record>, turn: Turn)
    ensures TableIn(rules, start, records + [Record.Sealed(turn)])
            == WitnessAll(rules, TableIn(rules, start, records), turn.events)
  {
    LogsTurn(records, turn);
    ChainPush(Origin, TurnsIn(records), turn);
    WitnessAppend(rules, Empty(rules, start), EventsOf(TurnsIn(records)), turn.events);
  }

  /** A turn of the log is read back, and the room holds it. */
  lemma {:induction false} RereadImage<S>(rules: Rules<S>, start: StartRecord, records: seq<Record>,
                                           room: RoomState<S>, turn: Turn, length: FrameLength)
    requires Image(rules, start, records, room, length) && room.game.pending == []
    requires Logs(Run(Origin, TurnsIn(records)), Record.Sealed(turn))
    ensures var r := Reread(rules, room, turn, true, length);
            && Image(rules, start, records + [Record.Sealed(turn)], r, length)
            && r.game.pending == [] && r.game.speed == r.game.announced
  {
    var t := WitnessAll(rules, TableOf(room), turn.events);
    RelogImage(start, records, room.game, turn, t.seated, length);
    TableGrows(rules, start, records, turn);
    RelogSealed(room.game, TurnsIn(records), turn, length);
  }

  lemma {:induction false} RereadAccepted<S>(rules: Rules<S>, room: RoomState<S>, all: seq<Turn>, turn: Turn,
                                              index: nat, length: FrameLength)
    requires Standing(room.game, all) && room.game.pending == [] && Logs(Run(Origin, all), Record.Sealed(turn))
    ensures ReplayTurn(rules, room, turn, true, index, length) == F.Ok(Reread(rules, room, turn, true, length))
  {
  }

  lemma MarkedImage<S>(rules: Rules<S>, start: StartRecord, records: seq<Record>, room: RoomState<S>, record: Record,
                       length: FrameLength)
    requires Image(rules, start, records, room, length) && record.Marker?
    ensures Image(rules, start, records + [record], room.(game := BeginHistory(room.game, record.history)), length)
  {
    assert Init(records + [record]) == records;
    ChainNumbers(Origin, TurnsIn(records));
    assert TurnsIn(records + [record]) == TurnsIn(records);
  }

  lemma OpenImage<S>(rules: Rules<S>, start: StartRecord, length: FrameLength)
    requires start.base.None?
    ensures Image(rules, start, [], Open(rules, start).value, length)
  {
    NewGameSealed(start.history, length);
  }

  /** A log as a room writes it is never refused, and recovers to a room that holds
      exactly what it says. */
  lemma {:induction false} RecoverImage<S>(rules: Rules<S>, start: StartRecord, records: seq<Record>,
                                           length: FrameLength)
    requires start.base.None? && WellFormed(records)
    ensures Recover(rules, start, records, length).Ok?
    ensures var room := Recover(rules, start, records, length).value;
            && Image(rules, start, records, room, length)
            && room.game.pending == [] && room.game.speed == room.game.announced
    decreases |records|
  {
    if records == [] {
      OpenImage(rules, start, length);
    } else {
      RecoverImage(rules, start, Init(records), length);
      RecoverOne(rules, start, Init(records), Last(records), length);
      assert records == Init(records) + [Last(records)];
    }
  }

  /** A recovered room: it holds what the log says, and nothing is pending. */
  ghost predicate Rebuilt<S>(rules: Rules<S>, start: StartRecord, records: seq<Record>, room: RoomState<S>,
                             length: FrameLength)
  {
    Image(rules, start, records, room, length) && room.game.pending == [] && room.game.speed == room.game.announced
  }

  lemma {:induction false} ReplayOne<S>(rules: Rules<S>, start: StartRecord, records: seq<Record>,
                                         room: RoomState<S>, record: Record, length: FrameLength)
    requires Rebuilt(rules, start, records, room, length) && Logs(Run(Origin, TurnsIn(records)), record)
    ensures Replay(rules, room, [record], None, true, |records|, length).Ok?
    ensures Rebuilt(rules, start, records + [record], Replay(rules, room, [record], None, true, |records|, length).value,
                    length)
  {
    match record
    case Sealed(turn) =>
      RereadAccepted(rules, room, TurnsIn(records), turn, |records|, length);
      RereadImage(rules, start, records, room, turn, length);
      assert Replay(rules, room, [record], None, true, |records|, length)
          == F.Ok(Reread(rules, room, turn, true, length));
    case Marker(history, _, _) =>
      MarkedImage(rules, start, records, room, record, length);
      assert Replay(rules, room, [record], None, true, |records|, length)
          == F.Ok(room.(game := BeginHistory(room.game, history)));
  }

  lemma {:induction false} RecoverOne<S>(rules: Rules<S>, start: StartRecord, records: seq<Record>, record: Record,
                                          length: FrameLength)
    requires start.base.None? && Logs(Run(Origin, TurnsIn(records)), record)
    requires Recover(rules, start, records, length).Ok?
    requires Rebuilt(rules, start, records, Recover(rules, start, records, length).value, length)
    ensures Recover(rules, start, records + [record], length).Ok?
    ensures Rebuilt(rules, start, records + [record], Recover(rules, start, records + [record], length).value, length)
  {
    var room := Recover(rules, start, records, length).value;
    C.ReplayAppend(rules, Open(rules, start).value, records, [record], None, true, 0, length);
    ReplayOne(rules, start, records, room, record, length);
  }

  /** Between turns the live room is the very room its log recovers to. */
  lemma {:induction false} LiveIsRecovered<S>(rules: Rules<S>, start: StartRecord, records: seq<Record>,
                                               room: RoomState<S>, length: FrameLength)
    requires start.base.None? && WellFormed(records) && Image(rules, start, records, room, length)
    requires room.game.pending == [] && room.game.speed == room.game.announced
    ensures Recover(rules, start, records, length) == F.Ok(room)
  {
    RecoverImage(rules, start, records, length);
    ImageUnique(rules, start, records, room, Recover(rules, start, records, length).value, length);
  }

  // ----- histories

  /** Both have the first `n` turns, and the same. */
  predicate Agree(a: seq<Turn>, b: seq<Turn>, n: nat) {
    n <= |a| && n <= |b| && a[..n] == b[..n]
  }

  /** Up to where the game still has the turns of its `i`th history. */
  function Reach(histories: seq<History>, turns: seq<Turn>, i: nat): nat
    requires i < |histories|
  {
    if i + 1 < |histories| then histories[i + 1].afterTurn else |turns|
  }

  predicate DistinctIds(histories: seq<History>) {
    forall i, j | 0 <= i < j < |histories| :: histories[i].id != histories[j].id
  }

  /** Each history's turns are the log's, as far as the log still has them. */
  predicate Lined(lines: map<nat, seq<Turn>>, histories: seq<History>, turns: seq<Turn>) {
    && histories != [] && DistinctIds(histories)
    && forall i: nat | i < |histories| ::
         histories[i].id in lines && Agree(lines[histories[i].id], turns, Reach(histories, turns, i))
  }

  lemma AgreeLess(a: seq<Turn>, b: seq<Turn>, n: nat, less: seq<Turn>, m: nat)
    requires Agree(a, b, n) && m <= n && m <= |less| && less <= b
    ensures Agree(a, less, m)
  {
    assert a[..m] == a[..n][..m] && b[..m] == b[..n][..m] && less[..m] == b[..m];
  }

  lemma {:induction false} LinedShort(lines: map<nat, seq<Turn>>, first: nat, records: seq<Record>)
    requires records != [] && Lined(lines, HistoriesIn(first, records), TurnsIn(records))
    ensures Lined(lines, HistoriesIn(first, Init(records)), TurnsIn(Init(records)))
  {
    var histories, turns := HistoriesIn(first, records), TurnsIn(records);
    var fewer, less := HistoriesIn(first, Init(records)), TurnsIn(Init(records));
    HistoriesReach(first, Init(records));
    assert fewer <= histories && less <= turns;
    forall i: nat | i < |fewer|
      ensures fewer[i].id in lines && Agree(lines[fewer[i].id], less, Reach(fewer, less, i))
    {
      assert fewer[i] == histories[i];
      AgreeLess(lines[histories[i].id], turns, Reach(histories, turns, i), less, Reach(fewer, less, i));
    }
  }

  lemma {:induction false} HistoriesReach(first: nat, records: seq<Record>)
    ensures HistoriesIn(first, records) != []
    ensures forall i | 0 <= i < |HistoriesIn(first, records)| :: HistoriesIn(first, records)[i].afterTurn <= |TurnsIn(records)|
    decreases |records|
  {
    if records != [] { HistoriesReach(first, Init(records)); }
  }

  lemma {:induction false} LinedCut(lines: map<nat, seq<Turn>>, first: nat, records: seq<Record>, k: nat)
    requires Lined(lines, HistoriesIn(first, records), TurnsIn(records)) && k <= |records|
    ensures Lined(lines, HistoriesIn(first, records[..k]), TurnsIn(records[..k]))
    decreases |records|
  {
    if k == |records| {
      assert records[..k] == records;
    } else {
      LinedShort(lines, first, records);
      LinedCut(lines, first, Init(records), k);
      assert Init(records)[..k] == records[..k];
    }
  }

  /** A new history starts with what is left. */
  lemma LinedFresh(lines: map<nat, seq<Turn>>, histories: seq<History>, turns: seq<Turn>, id: nat)
    requires Lined(lines, histories, turns) && id !in lines
    ensures Lined(lines[id := turns], histories + [History(id, |turns|)], turns)
  {
    var more, grown := histories + [History(id, |turns|)], lines[id := turns];
    forall i: nat | i < |more|
      ensures more[i].id in grown && Agree(grown[more[i].id], turns, Reach(more, turns, i))
    {
      if i < |histories| { assert Reach(more, turns, i) == Reach(histories, turns, i); }
    }
  }

  lemma LinedGrow(lines: map<nat, seq<Turn>>, histories: seq<History>, turns: seq<Turn>, more: seq<Turn>)
    requires Lined(lines, histories, turns)
    requires forall i | 0 <= i < |histories| :: histories[i].afterTurn <= |turns|
    ensures Lined(lines[Last(histories).id := turns + more], histories, turns + more)
  {
    var grown := lines[Last(histories).id := turns + more];
    forall i: nat | i < |histories|
      ensures histories[i].id in grown && Agree(grown[histories[i].id], turns + more, Reach(histories, turns + more, i))
    {
      if i + 1 < |histories| {
        assert grown[histories[i].id] == lines[histories[i].id];
        var n := histories[i + 1].afterTurn;
        assert Agree(lines[histories[i].id], turns, n);
        assert (turns + more)[..n] == turns[..n];
      }
    }
  }

  lemma {:induction false} IndexOfIs(histories: seq<History>, id: nat)
    ensures match IndexOf(histories, id)
            case Some(i) => i < |histories| && histories[i].id == id
            case None => forall i | 0 <= i < |histories| :: histories[i].id != id
  {
    if histories != [] && histories[0].id != id { IndexOfIs(histories[1..], id); }
  }

  /** Resuming is safe: where the room lets a client on this history resume, the
      turns the client may have seen are the turns of the log, although others
      were sealed under the same numbers and lost. */
  lemma SharedTurns(lines: map<nat, seq<Turn>>, histories: seq<History>, turns: seq<Turn>, resume: F.Resume)
    requires Lined(lines, histories, turns) && Shares(histories, resume)
    requires resume.history in lines && resume.afterTurn <= |lines[resume.history]|
    requires lines[Last(histories).id] == turns
    ensures Agree(lines[resume.history], turns, resume.afterTurn)
  {
    IndexOfIs(histories, resume.history);
    var i, n, line := IndexOf(histories, resume.history).value, resume.afterTurn, lines[resume.history];
    var reach := Reach(histories, turns, i);
    assert Agree(line, turns, reach);
    if n <= reach { assert line[..n] == line[..reach][..n] == turns[..reach][..n] == turns[..n]; }
  }
}

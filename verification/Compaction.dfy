/**
Compaction preserves recovery: a log rewritten as a base, the turns of the
resume window and everything logged since recovers to the very room the whole
log recovers to, wherever the rewrite began and however often it happens.
*/
module Compaction {
  import opened Protocol
  import opened Sequencer
  import opened Recovery
  import F = Follower

  // ----- what a window keeps

  /** Where the stream stands before the `k`th kept turn. */
  function EventAt(g: GameState, k: nat): nat
    requires k <= |g.log|
  {
    if k == 0 then FirstEvent(g) else g.log[k - 1].firstEvent + |g.log[k - 1].turn.events|
  }

  function SealedAt(g: GameState, k: nat): nat
    requires k <= |g.log|
  {
    if k == 0 then g.sealedBeforeLog else g.log[k - 1].sealedThrough
  }

  function SpeedAt(g: GameState, k: nat): nat
    requires k <= |g.log|
  {
    if k == 0 then g.speed else g.log[k - 1].turn.speed
  }

  /** The `k`th kept turn continues the ones before it and is logged right. */
  predicate Linked(g: GameState, k: nat, length: FrameLength) {
    && k < |g.log|
    && var entry := g.log[k];
       && entry.turn.number == g.logFirstTurn + k
       && entry.firstEvent == EventAt(g, k) && InSequence(entry.turn.events, EventAt(g, k))
       && entry.sealedThrough == entry.turn.sealedThrough
       && SealedAt(g, k) <= entry.sealedThrough <= MAX_FRONTIER
       && entry.length == length(entry.turn)
  }

  /** The kept turns link up and end where the game stands. */
  predicate Joined(g: GameState, length: FrameLength) {
    && g.logFirstTurn >= 1 && FirstEvent(g) >= 1 && g.resumeWindow >= 1
    && (forall k: nat | k < |g.log| :: Linked(g, k, length))
    && g.nextTurn == g.logFirstTurn + |g.log|
    && g.nextEvent == EventAt(g, |g.log|) && g.sealedThrough == SealedAt(g, |g.log|)
    && g.speed == SpeedAt(g, |g.log|)
    && g.logBytes == LogBytes(g.log)
  }

  /** Histories in order, none past the last turn. */
  predicate Ordered(g: GameState) {
    && g.histories != [] && g.histories[0].afterTurn == 0 && g.nextTurn >= 1
    && (forall i | 0 <= i < |g.histories| - 1 :: g.histories[i].afterTurn <= g.histories[i + 1].afterTurn)
    && Last(g.histories).afterTurn < g.nextTurn
  }

  /** What every game between two turns keeps, whatever its histories. */
  predicate Steady(g: GameState, length: FrameLength) {
    && Joined(g, length) && Holds(g.log, g.resumeWindow) && Distinct(g.seated) && g.sealedThrough <= MAX_FRONTIER
    && g.pending == [] && g.announced == g.speed && g.resumeWindow == RESUME_WINDOW
  }

  predicate Sound(g: GameState, length: FrameLength) {
    Steady(g, length) && Ordered(g)
  }

  // ----- the window while it moves

  lemma DropOldest(g: GameState, length: FrameLength)
    requires Joined(g, length) && |g.log| > 1
    ensures Joined(g.(log := g.log[1..], logBytes := g.logBytes - g.log[0].length,
                      logFirstTurn := g.logFirstTurn + 1, sealedBeforeLog := g.log[0].sealedThrough), length)
  {
    var h := g.(log := g.log[1..], logBytes := g.logBytes - g.log[0].length,
                logFirstTurn := g.logFirstTurn + 1, sealedBeforeLog := g.log[0].sealedThrough);
    assert Linked(g, 0, length) && Linked(g, 1, length);
    forall k: nat | k < |h.log| ensures Linked(h, k, length) {
      assert Linked(g, k + 1, length);
    }
  }

  lemma {:induction false} TrimJoined(g: GameState, length: FrameLength)
    requires Joined(g, length)
    ensures var t := Trim(g);
            && Joined(t, length) && Holds(t.log, t.resumeWindow)
            && t == g.(log := t.log, logBytes := t.logBytes, logFirstTurn := t.logFirstTurn,
                       sealedBeforeLog := t.sealedBeforeLog)
    decreases |g.log|
  {
    if |g.log| > 1 && !Holds(g.log, g.resumeWindow) {
      DropOldest(g, length);
      TrimJoined(g.(log := g.log[1..], logBytes := g.logBytes - g.log[0].length,
                    logFirstTurn := g.logFirstTurn + 1, sealedBeforeLog := g.log[0].sealedThrough), length);
    }
  }

  /** Whether recovery accepts `turn` next. */
  predicate Follows(g: GameState, turn: Turn) {
    && turn.number == g.nextTurn && g.sealedThrough <= turn.sealedThrough <= MAX_FRONTIER
    && InSequence(turn.events, g.nextEvent)
  }

  /** The game once `turn` is kept too, before anything is dropped. */
  function Pushed(g: GameState, turn: Turn, length: FrameLength): GameState {
    g.(log := g.log + [Entry(turn, g.nextEvent, length)], logBytes := g.logBytes + length(turn),
       nextTurn := g.nextTurn + 1, nextEvent := g.nextEvent + |turn.events|, sealedThrough := turn.sealedThrough,
       speed := turn.speed, announced := turn.speed)
  }

  lemma {:induction false} TrimSetsOnlyTheWindow(g: GameState, h: GameState)
    requires h == g.(nextTurn := h.nextTurn, nextEvent := h.nextEvent, sealedThrough := h.sealedThrough,
                     speed := h.speed, announced := h.announced)
    ensures Trim(h) == Trim(g).(nextTurn := h.nextTurn, nextEvent := h.nextEvent, sealedThrough := h.sealedThrough,
                                speed := h.speed, announced := h.announced)
    decreases |g.log|
  {
    if g.log != [] {
      var bytes := if g.logBytes < g.log[0].length then 0 else g.logBytes - g.log[0].length;
      TrimSetsOnlyTheWindow(g.(log := g.log[1..], logBytes := bytes, logFirstTurn := g.logFirstTurn + 1,
                               sealedBeforeLog := g.log[0].sealedThrough),
                            h.(log := h.log[1..], logBytes := bytes, logFirstTurn := h.logFirstTurn + 1,
                               sealedBeforeLog := h.log[0].sealedThrough));
    }
  }

  lemma RelogTrims(g: GameState, turn: Turn, length: FrameLength)
    ensures Relog(g, turn, length) == Trim(Pushed(g, turn, length))
  {
    var entry := Entry(turn, g.nextEvent, length);
    TrimSetsOnlyTheWindow(g.(log := g.log + [entry], logBytes := g.logBytes + entry.length), Pushed(g, turn, length));
  }

  lemma PushJoined(g: GameState, turn: Turn, length: FrameLength)
    requires Joined(g, length) && Follows(g, turn)
    ensures Joined(Pushed(g, turn, length), length)
  {
    var h, n := Pushed(g, turn, length), |g.log|;
    LogBytesPush(g.log, h.log[n]);
    forall k: nat | k < |h.log| ensures Linked(h, k, length) {
      if k < n {
        assert Linked(g, k, length);
        assert EventAt(h, k) == EventAt(g, k) && SealedAt(h, k) == SealedAt(g, k);
      }
    }
  }

  lemma RelogJoined(g: GameState, turn: Turn, length: FrameLength)
    requires Joined(g, length) && Follows(g, turn)
    ensures var h := Relog(g, turn, length);
            && Joined(h, length) && Holds(h.log, h.resumeWindow)
            && h == Pushed(g, turn, length).(log := h.log, logBytes := h.logBytes, logFirstTurn := h.logFirstTurn,
                                             sealedBeforeLog := h.sealedBeforeLog)
  {
    PushJoined(g, turn, length);
    RelogTrims(g, turn, length);
    TrimJoined(Pushed(g, turn, length), length);
  }

  // ----- the table

  lemma {:induction false} UnseatKeeps(seated: seq<Seat>, player: PlayerId)
    requires Distinct(seated)
    ensures Distinct(Unseat(seated, player))
    ensures forall s :: s in Unseat(seated, player) <==> s in seated && s.player != player
  {
    if seated != [] {
      assert Distinct(seated[1..]);
      UnseatKeeps(seated[1..], player);
      var rest := Unseat(seated[1..], player);
      assert forall s :: s in seated[1..] ==> s.player != seated[0].player;
      if seated[0].player != player {
        forall i, j | 0 <= i < j < |[seated[0]] + rest|
          ensures ([seated[0]] + rest)[i].player != ([seated[0]] + rest)[j].player
        {
          if i == 0 { assert rest[j - 1] in rest; }
        }
      }
      assert forall s :: s in seated <==> s == seated[0] || s in seated[1..];
    }
  }

  lemma SeatByKeeps(seated: seq<Seat>, event: Event)
    requires Distinct(seated)
    ensures Distinct(SeatBy(seated, event))
  {
    if event.body.PlayerLeft? || event.body.PlayerJoined? {
      var rest := Unseat(seated, event.body.player);
      UnseatKeeps(seated, event.body.player);
      forall i | 0 <= i < |rest| ensures rest[i].player != event.body.player { assert rest[i] in rest; }
    }
  }

  lemma {:induction false} WitnessKeeps<S>(rules: Rules<S>, t: Table<S>, events: seq<Event>)
    requires Distinct(t.seated)
    ensures Distinct(WitnessAll(rules, t, events).seated)
    decreases |events|
  {
    if events != [] {
      WitnessKeeps(rules, t, Init(events));
      SeatByKeeps(WitnessAll(rules, t, Init(events)).seated, Last(events));
    }
  }

  // ----- recovery keeps it all

  lemma SeatedAside(g: GameState, seated: seq<Seat>, length: FrameLength)
    requires Joined(g, length)
    ensures Joined(g.(seated := seated), length)
  {
    var h := g.(seated := seated);
    forall k: nat | k < |h.log| ensures Linked(h, k, length) { assert Linked(g, k, length); }
  }

  lemma RereadSound<S>(rules: Rules<S>, room: RoomState<S>, turn: Turn, based: bool, length: FrameLength)
    requires Steady(room.game, length) && Follows(room.game, turn)
    ensures Steady(Reread(rules, room, turn, based, length).game, length)
  {
    var g, h := room.game, Relog(room.game, turn, length);
    RelogJoined(g, turn, length);
    WitnessKeeps(rules, TableOf(room), turn.events);
    var r := Reread(rules, room, turn, based, length).game;
    assert r == h.(seated := r.seated);
    SeatedAside(h, r.seated, length);
  }

  lemma BeginHistorySound(g: GameState, id: nat, length: FrameLength)
    requires Sound(g, length)
    ensures Sound(BeginHistory(g, id), length)
  {
    var h := BeginHistory(g, id);
    forall k: nat | k < |h.log| ensures Linked(h, k, length) { assert Linked(g, k, length); }
  }

  /** A log being read back has its base's histories until it passes the base. */
  predicate Sofar(g: GameState, base: Option<Base>, based: bool) {
    if based then Ordered(g)
    else base.Some? && Consistent(base.value) && g.histories == base.value.histories && g.nextTurn >= 1
  }

  /** Whatever a log recovers to is sound. */
  lemma {:induction false} ReplaySound<S>(rules: Rules<S>, room: RoomState<S>, records: seq<Record>, base: Option<Base>,
                                          based: bool, index: nat, length: FrameLength)
    requires Steady(room.game, length) && Sofar(room.game, base, based)
    requires Replay(rules, room, records, base, based, index, length).Ok?
    ensures Sound(Replay(rules, room, records, base, based, index, length).value.game, length)
    decreases |records|
  {
    var now := based || Past(room.game, base);
    assert now ==> Ordered(room.game);
    if records != [] {
      match records[0]
      case Marker(history, _, _) =>
        BeginHistorySound(room.game, history, length);
        ReplaySound(rules, room.(game := BeginHistory(room.game, history)), records[1..], base, now, index + 1, length);
      case Sealed(turn) =>
        RereadSound(rules, room, turn, now, length);
        var next := Reread(rules, room, turn, now, length);
        RelogJoined(room.game, turn, length);
        assert next.game.histories == room.game.histories && next.game.nextTurn == room.game.nextTurn + 1;
        ReplaySound(rules, next, records[1..], base, now, index + 1, length);
    }
  }

  lemma RecoverSound<S>(rules: Rules<S>, start: StartRecord, records: seq<Record>, length: FrameLength)
    requires Recover(rules, start, records, length).Ok?
    ensures Sound(Recover(rules, start, records, length).value.game, length)
  {
    var room := Open(rules, start).value;
    assert Steady(room.game, length);
    ReplaySound(rules, room, records, start.base, start.base.None?, 0, length);
  }

  // ----- reading a compacted log

  /** The game once a compacted log's first `k` kept turns are read. */
  function Partway(g: GameState, k: nat): GameState
    requires k <= |g.log|
  {
    g.(log := g.log[..k], logBytes := LogBytes(g.log[..k]), nextTurn := g.logFirstTurn + k, nextEvent := EventAt(g, k),
       sealedThrough := SealedAt(g, k), speed := SpeedAt(g, k), announced := SpeedAt(g, k))
  }

  lemma {:induction false} LogBytesCut(log: seq<LoggedTurn>, k: nat)
    requires k <= |log|
    ensures LogBytes(log[..k]) <= LogBytes(log)
    decreases |log| - k
  {
    if k < |log| {
      LogBytesCut(log, k + 1);
      assert log[..k + 1] == log[..k] + [log[k]];
      LogBytesPush(log[..k], log[k]);
    } else {
      assert log[..k] == log;
    }
  }

  lemma {:induction false} TrimNothing(g: GameState)
    requires Holds(g.log, g.resumeWindow) && g.logBytes == LogBytes(g.log)
    ensures Trim(g) == g
  {
  }

  lemma PartwayOn(g: GameState, k: nat, length: FrameLength)
    requires Sound(g, length) && k < |g.log|
    ensures Follows(Partway(g, k), g.log[k].turn)
    ensures Relog(Partway(g, k), g.log[k].turn, length) == Partway(g, k + 1)
  {
    var p, entry := Partway(g, k), g.log[k];
    assert Linked(g, k, length);
    assert Entry(entry.turn, p.nextEvent, length) == entry;
    assert g.log[..k + 1] == g.log[..k] + [entry];
    LogBytesPush(g.log[..k], entry);
    LogBytesCut(g.log, k + 1);
    RelogTrims(p, entry.turn, length);
    assert Pushed(p, entry.turn, length) == Partway(g, k + 1);
    TrimNothing(Partway(g, k + 1));
  }

  lemma PartwayEnds(g: GameState, length: FrameLength)
    requires Sound(g, length)
    ensures Partway(g, |g.log|) == g
  {
    assert g.log[..|g.log|] == g.log;
  }

  /** Reading the kept turns back takes the room to where it was compacted, table
      untouched, and on from there. */
  lemma {:induction false} KeptReplay<S>(rules: Rules<S>, room: RoomState<S>, base: Base, k: nat, tail: seq<Record>,
                                         length: FrameLength)
    requires Sound(room.game, length) && k <= |room.game.log|
    requires base == BaseOf(room.game, base.rules)
    ensures Replay(rules, room.(game := Partway(room.game, k)), Kept(room.game.log[k..]) + tail, Some(base), false, k,
                   length)
            == Replay(rules, room, tail, Some(base), true, |room.game.log|, length)
    decreases |room.game.log| - k
  {
    var g, part := room.game, room.(game := Partway(room.game, k));
    var records := Kept(g.log[k..]) + tail;
    if k == |g.log| {
      PartwayEnds(g, length);
      assert records == tail;
    } else {
      PartwayOn(g, k, length);
      assert !Past(part.game, Some(base));
      assert records[0] == Sealed(g.log[k].turn);
      assert records[1..] == Kept(g.log[k + 1..]) + tail;
      assert Reread(rules, part, g.log[k].turn, false, length) == room.(game := Partway(g, k + 1));
      KeptReplay(rules, room, base, k + 1, tail, length);
    }
  }

  /** Counters and seats as the code itself expects of any base. */
  predicate Plausible<S>(room: RoomState<S>, maxPlayers: nat) {
    && room.game.nextTurn <= MAX_COUNT && room.game.nextEvent < MAX_COUNT
    && |room.game.seated| <= maxPlayers
  }

  lemma {:induction false} Rising(g: GameState, k: nat, length: FrameLength)
    requires Joined(g, length) && k <= |g.log|
    ensures FirstEvent(g) <= EventAt(g, k) && g.sealedBeforeLog <= SealedAt(g, k)
  {
    if k > 0 {
      Rising(g, k - 1, length);
      assert Linked(g, k - 1, length);
    }
  }

  lemma OpenCompacted<S(!new)>(rules: Rules<S>, room: RoomState<S>, saved: Bytes, maxPlayers: nat, length: FrameLength)
    requires Lawful(rules) && Sound(room.game, length) && rules.save(room.rules) == Some(saved)
    ensures var begun := Open(rules, CompactStart(room, saved, maxPlayers));
            if Plausible(room, maxPlayers) then begun == F.Ok(room.(game := Partway(room.game, 0)))
            else begun == F.Err(BadBase)
  {
    var g := room.game;
    Rising(g, |g.log|, length);
    assert g.log[..0] == [];
  }

  /** The same room, or no room. */
  predicate Same<S(==)>(a: F.Result<RoomState<S>, RecoverError>, b: F.Result<RoomState<S>, RecoverError>) {
    (a.Ok? <==> b.Ok?) && (a.Ok? ==> a.value == b.value)
  }

  /** Once past its base, a log is read the same whatever its base and however many
      records came before. */
  lemma {:induction false} ReplayOn<S>(rules: Rules<S>, room: RoomState<S>, records: seq<Record>, base: Option<Base>,
                                       other: Option<Base>, index: nat, from: nat, length: FrameLength)
    ensures Same(Replay(rules, room, records, base, true, index, length),
                 Replay(rules, room, records, other, true, from, length))
    decreases |records|
  {
    if records != [] {
      match records[0]
      case Marker(history, _, _) =>
        ReplayOn(rules, room.(game := BeginHistory(room.game, history)), records[1..], base, other, index + 1, from + 1,
                 length);
      case Sealed(turn) =>
        ReplayOn(rules, Reread(rules, room, turn, true, length), records[1..], base, other, index + 1, from + 1, length);
    }
  }

  lemma {:induction false} ReplayAppend<S>(rules: Rules<S>, room: RoomState<S>, a: seq<Record>, b: seq<Record>,
                                           base: Option<Base>, based: bool, index: nat, length: FrameLength)
    requires Replay(rules, room, a, base, based, index, length).Ok?
    ensures Replay(rules, room, a + b, base, based, index, length)
            == Replay(rules, Replay(rules, room, a, base, based, index, length).value, b, base, true, index + |a|, length)
    decreases |a|
  {
    if a == [] {
      assert a + b == b;
    } else {
      var now := based || Past(room.game, base);
      assert (a + b)[0] == a[0] && (a + b)[1..] == a[1..] + b;
      match a[0]
      case Marker(history, _, _) =>
        ReplayAppend(rules, room.(game := BeginHistory(room.game, history)), a[1..], b, base, now, index + 1, length);
      case Sealed(turn) =>
        ReplayAppend(rules, Reread(rules, room, turn, now, length), a[1..], b, base, now, index + 1, length);
    }
  }

  /** Reading on from a recovered room. */
  lemma {:induction false} RecoverOn<S>(rules: Rules<S>, start: StartRecord, a: seq<Record>, b: seq<Record>,
                                         room: RoomState<S>, length: FrameLength)
    requires Recover(rules, start, a, length) == F.Ok(room)
    ensures Same(Recover(rules, start, a + b, length), Replay(rules, room, b, None, true, 0, length))
  {
    ReplayAppend(rules, Open(rules, start).value, a, b, start.base, start.base.None?, 0, length);
    ReplayOn(rules, room, b, start.base, None, |a|, 0, length);
  }

  /** A log compacted after `records` and continued with `tail` recovers to the
      room the whole log recovers to, and is refused only with it; the one
      exception is a base with more turns, events or players than the code
      believes, which is always refused. */
  lemma CompactionPreserves<S(!new)>(rules: Rules<S>, start: StartRecord, records: seq<Record>, tail: seq<Record>,
                                     room: RoomState<S>, saved: Bytes, maxPlayers: nat, length: FrameLength)
    requires Lawful(rules) && Recover(rules, start, records, length) == F.Ok(room)
    requires rules.save(room.rules) == Some(saved)
    ensures var compacted := Recover(rules, CompactStart(room, saved, maxPlayers), Kept(room.game.log) + tail, length);
            if Plausible(room, maxPlayers) then Same(compacted, Recover(rules, start, records + tail, length))
            else compacted == F.Err(BadBase)
  {
    RecoverSound(rules, start, records, length);
    OpenCompacted(rules, room, saved, maxPlayers, length);
    if Plausible(room, maxPlayers) {
      var base := BaseOf(room.game, saved);
      assert room.game.log[0..] == room.game.log;
      KeptReplay(rules, room, base, 0, tail, length);
      ReplayOn(rules, room, tail, Some(base), None, |room.game.log|, 0, length);
      RecoverOn(rules, start, records, tail, room, length);
    }
  }

  // ----- any number of compactions

  datatype Log = Log(start: StartRecord, records: seq<Record>)

  /** A room's log, and how many of its records a running rewrite covers. */
  datatype Logging = Logging(log: Log, covers: Option<nat>)

  /** What happens to a log: a record is added; a rewrite begins from the room as
      it stands, unless one runs; its result takes the log's place; it fails. */
  datatype LogStep = Add(record: Record) | BeginRewrite | Install | Fail

  /** The rewrite of a log's first `covered` records, continued with the rest. A
      room whose rules cannot save keeps its log. */
  function Compacted<S(!new)>(rules: Rules<S>, log: Log, covered: nat, maxPlayers: nat, length: FrameLength): Log
    requires covered <= |log.records|
  {
    match Recover(rules, log.start, log.records[..covered], length)
    case Err(_) => log
    case Ok(room) =>
      var saved := rules.save(room.rules);
      if saved.None? then log
      else Log(CompactStart(room, saved.value, maxPlayers), Kept(room.game.log) + log.records[covered..])
  }

  function LogStepped<S(!new)>(rules: Rules<S>, l: Logging, step: LogStep, maxPlayers: nat,
                               length: FrameLength): Logging
  {
    match step
    case Add(record) => l.(log := l.log.(records := l.log.records + [record]))
    case BeginRewrite => if l.covers.Some? then l else l.(covers := Some(|l.log.records|))
    case Fail => l.(covers := None)
    case Install =>
      // Nothing drops records while a rewrite runs, so it never covers more.
      if l.covers.None? || l.covers.value > |l.log.records| then l
      else Logging(Compacted(rules, l.log, l.covers.value, maxPlayers, length), None)
  }

  function LogAfter<S(!new)>(rules: Rules<S>, start: StartRecord, steps: seq<LogStep>, maxPlayers: nat,
                             length: FrameLength): Logging
    decreases |steps|
  {
    if steps == [] then Logging(Log(start, []), None)
    else LogStepped(rules, LogAfter(rules, start, Init(steps), maxPlayers, length), Last(steps), maxPlayers, length)
  }

  /** Every record ever added. */
  function Added(steps: seq<LogStep>): seq<Record>
    decreases |steps|
  {
    if steps == [] then []
    else Added(Init(steps)) + if Last(steps).Add? then [Last(steps).record] else []
  }

  /** The two logs end alike, and recover alike before that. */
  ghost predicate Alike<S(!new)>(rules: Rules<S>, log: Log, start: StartRecord, all: seq<Record>, a: nat, b: nat,
                                 length: FrameLength)
  {
    && a <= |log.records| && b <= |all| && log.records[a..] == all[b..]
    && Recover(rules, log.start, log.records[..a], length).Ok?
    && Recover(rules, log.start, log.records[..a], length) == Recover(rules, start, all[..b], length)
  }

  lemma Halves(records: seq<Record>, k: nat)
    requires k <= |records|
    ensures records == records[..k] + records[k..]
  {
  }

  lemma AlikeRecovers<S(!new)>(rules: Rules<S>, log: Log, start: StartRecord, all: seq<Record>, a: nat, b: nat,
                               length: FrameLength)
    requires Alike(rules, log, start, all, a, b, length)
    ensures Same(Recover(rules, log.start, log.records, length), Recover(rules, start, all, length))
  {
    var room := Recover(rules, start, all[..b], length).value;
    Halves(log.records, a);
    Halves(all, b);
    RecoverOn(rules, log.start, log.records[..a], log.records[a..], room, length);
    RecoverOn(rules, start, all[..b], all[b..], room, length);
  }

  lemma AlikeAdd<S(!new)>(rules: Rules<S>, log: Log, start: StartRecord, all: seq<Record>, a: nat, b: nat,
                          record: Record, length: FrameLength)
    requires Alike(rules, log, start, all, a, b, length)
    ensures Alike(rules, log.(records := log.records + [record]), start, all + [record], a, b, length)
  {
    assert (log.records + [record])[..a] == log.records[..a] && (all + [record])[..b] == all[..b];
    assert (log.records + [record])[a..] == log.records[a..] + [record];
    assert (all + [record])[b..] == all[b..] + [record];
  }

  lemma AlikeCut<S(!new)>(rules: Rules<S>, log: Log, start: StartRecord, all: seq<Record>, a: nat, b: nat, more: nat,
                          length: FrameLength)
    requires Alike(rules, log, start, all, a, b, length) && a + more <= |log.records|
    ensures b + more <= |all| && log.records[a + more..] == all[b + more..]
    ensures Same(Recover(rules, log.start, log.records[..a + more], length), Recover(rules, start, all[..b + more], length))
  {
    assert log.records[a..][..more] == log.records[a..a + more] && all[b..][..more] == all[b..b + more];
    assert log.records[a..][more..] == log.records[a + more..] && all[b..][more..] == all[b + more..];
    var cut, whole := log.records[..a + more], all[..b + more];
    assert cut[..a] == log.records[..a] && whole[..b] == all[..b];
    assert cut[a..] == log.records[a..a + more] && whole[b..] == all[b..b + more];
    AlikeRecovers(rules, Log(log.start, cut), start, whole, a, b, length);
  }

  lemma AlikeInstall<S(!new)>(rules: Rules<S>, log: Log, start: StartRecord, all: seq<Record>, a: nat, b: nat,
                              covered: nat, maxPlayers: nat, length: FrameLength) returns (c: nat, d: nat)
    requires Lawful(rules) && Alike(rules, log, start, all, a, b, length) && a <= covered <= |log.records|
    requires PlausibleAt(rules, log, covered, maxPlayers, length)
    ensures Alike(rules, Compacted(rules, log, covered, maxPlayers, length), start, all, c, d, length)
  {
    c, d := a, b;
    AlikeCut(rules, log, start, all, a, b, covered - a, length);
    var before, rest := log.records[..covered], log.records[covered..];
    var recovered := Recover(rules, log.start, before, length);
    if recovered.Ok? && rules.save(recovered.value.rules).Some? {
      var room := recovered.value;
      var saved, kept := rules.save(room.rules).value, Kept(room.game.log);
      CompactionPreserves(rules, log.start, before, [], room, saved, maxPlayers, length);
      assert before + [] == before && kept + [] == kept;
      c, d := |kept|, b + (covered - a);
      assert (kept + rest)[..c] == kept && (kept + rest)[c..] == rest;
    }
  }

  /** What a rewrite of the first `covered` records would start from is plausible. */
  ghost predicate PlausibleAt<S(!new)>(rules: Rules<S>, log: Log, covered: nat, maxPlayers: nat, length: FrameLength) {
    covered <= |log.records| && Recover(rules, log.start, log.records[..covered], length).Ok?
    ==> Plausible(Recover(rules, log.start, log.records[..covered], length).value, maxPlayers)
  }

  /** Every rewrite put in place was of a plausible room. */
  ghost predicate PlausibleRun<S(!new)>(rules: Rules<S>, start: StartRecord, steps: seq<LogStep>, maxPlayers: nat,
                                        length: FrameLength)
    decreases |steps|
  {
    steps == []
    || var l := LogAfter(rules, start, Init(steps), maxPlayers, length);
       && PlausibleRun(rules, start, Init(steps), maxPlayers, length)
       && (Last(steps).Install? && l.covers.Some? ==> PlausibleAt(rules, l.log, l.covers.value, maxPlayers, length))
  }

  lemma {:induction false} RunAlike<S(!new)>(rules: Rules<S>, start: StartRecord, steps: seq<LogStep>, maxPlayers: nat,
                                             length: FrameLength) returns (a: nat, b: nat)
    requires Lawful(rules) && Open(rules, start).Ok? && start.base.None?
    requires PlausibleRun(rules, start, steps, maxPlayers, length)
    ensures var l := LogAfter(rules, start, steps, maxPlayers, length);
            && Alike(rules, l.log, start, Added(steps), a, b, length)
            && (l.covers.Some? ==> a <= l.covers.value <= |l.log.records|)
    decreases |steps|
  {
    if steps == [] {
      a, b := 0, 0;
    } else {
      a, b := RunAlike(rules, start, Init(steps), maxPlayers, length);
      var l, all := LogAfter(rules, start, Init(steps), maxPlayers, length), Added(Init(steps));
      match Last(steps) {
        case Add(record) => AlikeAdd(rules, l.log, start, all, a, b, record, length);
        case Install =>
          assert Added(steps) == all;
          if l.covers.Some? {
            a, b := AlikeInstall(rules, l.log, start, all, a, b, l.covers.value, maxPlayers, length);
          }
        case _ => assert Added(steps) == all;
      }
    }
  }

  /** However often a game's log is rewritten, and wherever each rewrite begins and
      ends, it recovers to exactly the room its whole log recovers to. */
  lemma {:induction false} CompactionsPreserve<S(!new)>(rules: Rules<S>, start: StartRecord, steps: seq<LogStep>,
                                                        maxPlayers: nat, length: FrameLength)
    requires Lawful(rules) && start.base.None?
    requires PlausibleRun(rules, start, steps, maxPlayers, length)
    ensures var log := LogAfter(rules, start, steps, maxPlayers, length).log;
            Same(Recover(rules, log.start, log.records, length), Recover(rules, start, Added(steps), length))
  {
    var a, b := RunAlike(rules, start, steps, maxPlayers, length);
    AlikeRecovers(rules, LogAfter(rules, start, steps, maxPlayers, length).log, start, Added(steps), a, b, length);
  }
}

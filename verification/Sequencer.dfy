/**
A running game's sequencer and its resume window (`Game` in
crates/tpf3mp-server/src/room.rs): ordering events, sealing turns, keeping the
newest turns for players who resume, and building streams from them.

A frame is the turn it encodes and its length; the encoding itself is a
parameter that says how long a turn's frame is.
*/
module Sequencer {
  import opened Protocol
  import F = Follower

  const TURN_PAYLOAD_BUDGET: nat := 512 * 1024
  const RESUME_WINDOW: nat := 36_000
  const RESUME_WINDOW_BYTES: nat := 64 * 1024 * 1024

  type FrameLength = Turn -> nat

  datatype Seat = Seat(player: PlayerId, name: string, platform: nat)

  /** A stretch of a game's turns: the last turn it shares with the one before. */
  datatype History = History(id: nat, afterTurn: nat)

  datatype LoggedTurn = LoggedTurn(firstEvent: nat, sealedThrough: nat, turn: Turn, length: nat)

  datatype GameState = GameState(
    speed: nat, announced: nat, sealedThrough: nat, nextTurn: nat, nextEvent: nat, pending: seq<Event>,
    log: seq<LoggedTurn>, logFirstTurn: nat, sealedBeforeLog: nat, logBytes: nat, resumeWindow: nat,
    histories: seq<History>, seated: seq<Seat>)

  function NewGame(history: nat): GameState {
    GameState(F.NORMAL_SPEED, F.NORMAL_SPEED, 0, 1, 1, [], [], 1, 0, 0, RESUME_WINDOW, [History(history, 0)], [])
  }

  function Unseat(seated: seq<Seat>, player: PlayerId): seq<Seat> {
    if seated == [] then []
    else (if seated[0].player == player then [] else [seated[0]]) + Unseat(seated[1..], player)
  }

  /** Keeps the table as the events say. */
  function SeatBy(seated: seq<Seat>, event: Event): seq<Seat> {
    match event.body
    case PlayerLeft(player, _) => Unseat(seated, player)
    case PlayerJoined(player, name, platform) => Unseat(seated, player) + [Seat(player, name, platform)]
    case _ => seated
  }

  /** Orders an event: the next number, for the first step nobody can have run. */
  function Ordered(g: GameState, body: EventBody): Event {
    Event(g.nextEvent, g.sealedThrough + 1, body)
  }

  function Append(g: GameState, body: EventBody): GameState {
    g.(nextEvent := g.nextEvent + 1, seated := SeatBy(g.seated, Ordered(g, body)),
       pending := g.pending + [Ordered(g, body)])
  }

  function PayloadSize(event: Event): nat {
    if event.body.Command? then |event.body.payload| else 0
  }

  /** Spreads events over batches, a new one whenever the last would outgrow the
      payload budget. */
  function Spread(events: seq<Event>, batches: seq<seq<Event>>, budget: nat): seq<seq<Event>>
    requires batches != []
    decreases |events|
  {
    if events == [] then batches
    else
      var size := PayloadSize(events[0]);
      if budget + size > TURN_PAYLOAD_BUDGET && Last(batches) != []
      then Spread(events[1..], batches + [[events[0]]], size)
      else Spread(events[1..], Init(batches) + [Last(batches) + [events[0]]], budget + size)
  }

  function Batches(pending: seq<Event>): seq<seq<Event>> {
    Spread(pending, [[]], 0)
  }

  function LogBytes(log: seq<LoggedTurn>): nat {
    if log == [] then 0 else log[0].length + LogBytes(log[1..])
  }

  /** Whether the window holds `log` without dropping anything. */
  predicate Holds(log: seq<LoggedTurn>, window: nat) {
    |log| <= window && (LogBytes(log) <= RESUME_WINDOW_BYTES || |log| <= 1)
  }

  function Trim(g: GameState): GameState
    decreases |g.log|
  {
    if g.log == [] || !(|g.log| > g.resumeWindow || (g.logBytes > RESUME_WINDOW_BYTES && |g.log| > 1)) then g
    else
      Trim(g.(log := g.log[1..], logBytes := if g.logBytes < g.log[0].length then 0 else g.logBytes - g.log[0].length,
              logFirstTurn := g.logFirstTurn + 1, sealedBeforeLog := g.log[0].sealedThrough))
  }

  function Remember(g: GameState, turn: LoggedTurn): GameState {
    Trim(g.(log := g.log + [turn], logBytes := g.logBytes + turn.length))
  }

  function RememberAll(g: GameState, turns: seq<LoggedTurn>): GameState
    decreases |turns|
  {
    if turns == [] then g else RememberAll(Remember(g, turns[0]), turns[1..])
  }

  /** One turn for each batch, from number `number`. Only the last moves the
      frontier, from `sealed` to `frontier`. */
  function TurnsFor(number: nat, speed: nat, sealed: nat, batches: seq<seq<Event>>, frontier: nat): seq<Turn>
    decreases |batches|
  {
    if batches == [] then []
    else
      [Turn(number, if |batches| == 1 then frontier else sealed, speed, batches[0])]
      + TurnsFor(number + 1, speed, sealed, batches[1..], frontier)
  }

  /** The turns sealing publishes. */
  function Published(g: GameState, frontier: nat): seq<Turn> {
    TurnsFor(g.nextTurn, g.speed, g.sealedThrough, Batches(g.pending), frontier)
  }

  /** What the window keeps of a turn, of a game whose next event is `nextEvent`. */
  function Entry(turn: Turn, nextEvent: nat, length: FrameLength): LoggedTurn {
    LoggedTurn(if turn.events == [] then nextEvent else turn.events[0].seqNo, turn.sealedThrough, turn, length(turn))
  }

  function Entries(turns: seq<Turn>, nextEvent: nat, length: FrameLength): seq<LoggedTurn> {
    seq(|turns|, i requires 0 <= i < |turns| => Entry(turns[i], nextEvent, length))
  }

  /** The game once `count` turns carry its pending events up to `frontier`. */
  function Closed(g: GameState, count: nat, frontier: nat): GameState {
    g.(pending := [], nextTurn := g.nextTurn + count, sealedThrough := frontier, announced := g.speed)
  }

  function Seal(g: GameState, frontier: nat, length: FrameLength): GameState {
    var turns := Published(g, frontier);
    RememberAll(Closed(g, |turns|, frontier), Entries(turns, g.nextEvent, length))
  }

  // ----- streams

  datatype Stream = Stream(at: Cursor, backlog: seq<Turn>)

  function IndexOf(histories: seq<History>, id: nat): Option<nat> {
    if histories == [] then None
    else if histories[0].id == id then Some(0)
    else
      match IndexOf(histories[1..], id)
      case None => None
      case Some(i) => Some(i + 1)
  }

  /** Whether a client on this history may resume after this turn: its history is
      one of the game's, and the game still had that turn when the next began. */
  predicate Shares(histories: seq<History>, resume: F.Resume) {
    match IndexOf(histories, resume.history)
    case None => false
    case Some(i) => i + 1 < |histories| ==> resume.afterTurn <= histories[i + 1].afterTurn
  }

  /** The stream that starts with turn `from`: where it stands and the turns it
      starts with. */
  function StreamAt(g: GameState, from: nat): Stream
    requires g.logFirstTurn <= from <= g.logFirstTurn + |g.log|
  {
    var skip := from - g.logFirstTurn;
    var backlog := g.log[skip..];
    var nextEvent := if backlog != [] then backlog[0].firstEvent
                     else if g.pending != [] then g.pending[0].seqNo
                     else g.nextEvent;
    var sealed := if skip == 0 then g.sealedBeforeLog else g.log[skip - 1].sealedThrough;
    Stream(Cursor(from, nextEvent, sealed), Frames(backlog))
  }

  /** The stream after `resume`, or from the first turn. `None` refuses. */
  function StreamAfter(g: GameState, resume: Option<F.Resume>): Option<Stream> {
    if resume.Some? && !Shares(g.histories, resume.value) then None
    else
      var from := if resume.None? then 1 else resume.value.afterTurn + 1;
      // The log reaches the next turn, so its length never decides.
      if from > g.nextTurn || from < g.logFirstTurn || from > g.logFirstTurn + |g.log| then None
      else Some(StreamAt(g, from))
  }

  function Frames(log: seq<LoggedTurn>): seq<Turn> {
    seq(|log|, i requires 0 <= i < |log| => log[i].turn)
  }

  function CurrentHistory(g: GameState): nat {
    if g.histories == [] then 0 else Last(g.histories).id
  }

  /** Where a save stands: the save event, the turn it ends, the history and the
      frontier there. */
  datatype SavePoint = SavePoint(event: nat, afterTurn: nat, history: nat, sealedThrough: nat)

  function StreamFromSave(g: GameState, point: SavePoint): Option<Stream> {
    match StreamAfter(g, Some(F.Resume(point.afterTurn, point.history)))
    case None => None
    case Some(stream) =>
      if stream.at.event != point.event + 1 || stream.at.sealed != point.sealedThrough then None else Some(stream)
  }

  /** Seals a save: the save event at the end of a turn that runs no new steps. */
  function SealSave(g: GameState, length: FrameLength): (GameState, SavePoint) {
    var sealed := Seal(Append(g, Save), g.sealedThrough, length);
    var lastTurn := if sealed.nextTurn == 0 then 0 else sealed.nextTurn - 1;
    (sealed, SavePoint(g.nextEvent, lastTurn, CurrentHistory(sealed), g.sealedThrough))
  }

  // ----- in place

  /** `g` as it will stand when its turn is sealed: only the window still moves. */
  function Aim(g: GameState, nextTurn: nat, frontier: nat): GameState {
    g.(pending := [], nextTurn := nextTurn, sealedThrough := frontier, announced := g.speed)
  }

  /** The window does not look at the rest of the game. */
  lemma {:induction false} TrimAims(g: GameState, nextTurn: nat, frontier: nat)
    ensures Trim(Aim(g, nextTurn, frontier)) == Aim(Trim(g), nextTurn, frontier)
    decreases |g.log|
  {
    if g.log != [] {
      TrimAims(g.(log := g.log[1..],
                  logBytes := if g.logBytes < g.log[0].length then 0 else g.logBytes - g.log[0].length,
                  logFirstTurn := g.logFirstTurn + 1, sealedBeforeLog := g.log[0].sealedThrough), nextTurn, frontier);
    }
  }

  ghost function SealOne(g: GameState, events: seq<Event>, through: nat, length: FrameLength): GameState {
    Remember(g, Entry(Turn(g.nextTurn, through, g.speed, events), g.nextEvent, length)).(nextTurn := g.nextTurn + 1)
  }

  /** The loop of sealing: one turn for each batch. */
  ghost function SealBatches(g: GameState, batches: seq<seq<Event>>, frontier: nat, length: FrameLength): GameState
    decreases |batches|
  {
    if batches == [] then g
    else
      SealBatches(SealOne(g, batches[0], if |batches| == 1 then frontier else g.sealedThrough, length), batches[1..],
                  frontier, length)
  }

  lemma {:induction false} SealBatchesOn(g: GameState, batches: seq<seq<Event>>, i: nat, frontier: nat,
                                          length: FrameLength)
    requires i < |batches|
    ensures SealBatches(g, batches[i..], frontier, length)
            == SealBatches(SealOne(g, batches[i], if i == |batches| - 1 then frontier else g.sealedThrough, length),
                           batches[i + 1..], frontier, length)
  {
    assert batches[i..][1..] == batches[i + 1..];
  }

  lemma {:induction false} TrimKeeps(g: GameState)
    ensures var t := Trim(g);
            t == g.(log := t.log, logBytes := t.logBytes, logFirstTurn := t.logFirstTurn,
                    sealedBeforeLog := t.sealedBeforeLog)
    decreases |g.log|
  {
    if g.log != [] {
      TrimKeeps(g.(log := g.log[1..],
                   logBytes := if g.logBytes < g.log[0].length then 0 else g.logBytes - g.log[0].length,
                   logFirstTurn := g.logFirstTurn + 1, sealedBeforeLog := g.log[0].sealedThrough));
    }
  }

  lemma RememberAims(g: GameState, entry: LoggedTurn, nextTurn: nat, frontier: nat, n: nat)
    ensures Remember(Aim(g, nextTurn, frontier), entry) == Aim(Remember(g, entry).(nextTurn := n), nextTurn, frontier)
  {
    TrimAims(g.(log := g.log + [entry], logBytes := g.logBytes + entry.length), nextTurn, frontier);
  }

  /** Sealing turn by turn logs what sealing publishes. */
  lemma {:induction false} SealBatchesLog(g: GameState, batches: seq<seq<Event>>, frontier: nat, length: FrameLength,
                                          nextTurn: nat)
    ensures var turns := TurnsFor(g.nextTurn, g.speed, g.sealedThrough, batches, frontier);
            && |turns| == |batches|
            && Aim(SealBatches(g, batches, frontier, length), nextTurn, frontier)
               == RememberAll(Aim(g, nextTurn, frontier), Entries(turns, g.nextEvent, length))
            && SealBatches(g, batches, frontier, length).nextTurn == g.nextTurn + |batches|
    decreases |batches|
  {
    if batches != [] {
      var turns := TurnsFor(g.nextTurn, g.speed, g.sealedThrough, batches, frontier);
      var entry := Entry(turns[0], g.nextEvent, length);
      TrimKeeps(g.(log := g.log + [entry], logBytes := g.logBytes + entry.length));
      RememberAims(g, entry, nextTurn, frontier, g.nextTurn + 1);
      var next := Remember(g, entry).(nextTurn := g.nextTurn + 1);
      SealBatchesLog(next, batches[1..], frontier, length, nextTurn);
      assert Entries(turns, g.nextEvent, length)[1..] == Entries(turns[1..], g.nextEvent, length);
    }
  }

  class Game {
    var speed: nat
    var announced: nat
    var sealedThrough: nat
    var nextTurn: nat
    var nextEvent: nat
    var pending: seq<Event>
    var log: seq<LoggedTurn>
    var logFirstTurn: nat
    var sealedBeforeLog: nat
    var logBytes: nat
    var resumeWindow: nat
    var histories: seq<History>
    var seated: seq<Seat>

    ghost function State(): GameState
      reads this
    {
      GameState(speed, announced, sealedThrough, nextTurn, nextEvent, pending, log, logFirstTurn, sealedBeforeLog,
                logBytes, resumeWindow, histories, seated)
    }

    /** The byte count is that of the turns kept. */
    ghost predicate Valid()
      reads this
    {
      logBytes == LogBytes(log)
    }

    constructor (history: nat)
      ensures Valid() && State() == NewGame(history)
    {
      speed, announced, sealedThrough, nextTurn, nextEvent := F.NORMAL_SPEED, F.NORMAL_SPEED, 0, 1, 1;
      pending, log, logFirstTurn, sealedBeforeLog, logBytes := [], [], 1, 0, 0;
      resumeWindow, histories, seated := RESUME_WINDOW, [History(history, 0)], [];
    }

    method AppendEvent(body: EventBody)
      requires Valid()
      modifies this
      ensures Valid() && State() == Append(old(State()), body)
    {
      var event := Event(nextEvent, sealedThrough + 1, body);
      nextEvent := nextEvent + 1;
      match event.body {
        case PlayerLeft(player, _) =>
          seated := Unseat(seated, player);
        case PlayerJoined(player, name, platform) =>
          seated := Unseat(seated, player);
          seated := seated + [Seat(player, name, platform)];
        case _ =>
      }
      pending := pending + [event];
    }

    /** Spreads the pending events over batches and forgets them. */
    method TakeBatches() returns (batches: seq<seq<Event>>)
      requires Valid()
      modifies this`pending
      ensures batches == Batches(old(pending)) && batches != [] && pending == []
    {
      batches := [[]];
      var budget, i := 0, 0;
      while i < |pending|
        invariant 0 <= i <= |pending| && batches != [] && budget >= 0
        invariant Spread(pending[i..], batches, budget) == Batches(pending)
      {
        var event := pending[i];
        var size := if event.body.Command? then |event.body.payload| else 0;
        if budget + size > TURN_PAYLOAD_BUDGET && batches[|batches| - 1] != [] {
          ghost var full := batches;
          batches := batches + [[]];
          budget := 0;
          assert batches[..|batches| - 1] == full && batches[|batches| - 1] + [event] == [event];
        }
        budget := budget + size;
        batches := batches[..|batches| - 1] + [batches[|batches| - 1] + [event]];
        assert pending[i..][1..] == pending[i + 1..];
        i := i + 1;
      }
      pending := [];
    }

    /** Seals up to `frontier` and returns the turns to publish. */
    method SealTurns(frontier: nat, length: FrameLength) returns (frames: seq<Turn>)
      requires Valid()
      modifies this
      ensures Valid() && State() == Seal(old(State()), frontier, length)
      ensures frames == Published(old(State()), frontier)
    {
      var batches := TakeBatches();
      ghost var g := State();
      frames := SealEach(batches, frontier, length);
      SealBatchesLog(g, batches, frontier, length, g.nextTurn + |batches|);
      assert Aim(g, g.nextTurn + |batches|, frontier) == Closed(old(State()), |batches|, frontier);
    }

    /** Seals one turn for each batch; only the last moves the frontier. */
    method SealEach(batches: seq<seq<Event>>, frontier: nat, length: FrameLength) returns (frames: seq<Turn>)
      requires Valid() && batches != [] && pending == []
      modifies this
      ensures Valid() && frames == TurnsFor(old(nextTurn), old(speed), old(sealedThrough), batches, frontier)
      ensures State() == Aim(SealBatches(old(State()), batches, frontier, length), nextTurn, frontier)
      ensures nextTurn == SealBatches(old(State()), batches, frontier, length).nextTurn
    {
      frames := [];
      var i := 0;
      while i < |batches|
        invariant 0 <= i <= |batches| && Valid()
        invariant SealBatches(State(), batches[i..], frontier, length)
               == SealBatches(old(State()), batches, frontier, length)
        invariant frames + TurnsFor(nextTurn, speed, sealedThrough, batches[i..], frontier)
               == TurnsFor(old(nextTurn), old(speed), old(sealedThrough), batches, frontier)
        modifies this`nextTurn, this`log, this`logBytes, this`logFirstTurn, this`sealedBeforeLog
      {
        assert batches[i..][1..] == batches[i + 1..];
        var turn := SealBatch(batches, i, frontier, length);
        Assoc(frames, [turn], TurnsFor(nextTurn, speed, sealedThrough, batches[i + 1..], frontier));
        frames := frames + [turn];
        i := i + 1;
      }
      sealedThrough := frontier;
      announced := speed;
    }

    method SealBatch(batches: seq<seq<Event>>, i: nat, frontier: nat, length: FrameLength) returns (turn: Turn)
      requires Valid() && i < |batches|
      modifies this`nextTurn, this`log, this`logBytes, this`logFirstTurn, this`sealedBeforeLog
      ensures Valid() && nextTurn == old(nextTurn) + 1
      ensures turn == Turn(old(nextTurn), if i == |batches| - 1 then frontier else sealedThrough, speed, batches[i])
      ensures SealBatches(State(), batches[i + 1..], frontier, length)
           == SealBatches(old(State()), batches[i..], frontier, length)
    {
      var events := batches[i];
      var firstEvent := if events == [] then nextEvent else events[0].seqNo;
      var through := if i == |batches| - 1 then frontier else sealedThrough;
      turn := Turn(nextTurn, through, speed, events);
      RememberTurn(LoggedTurn(firstEvent, through, turn, length(turn)));
      nextTurn := nextTurn + 1;
      assert State() == SealOne(old(State()), events, through, length);
      SealBatchesOn(old(State()), batches, i, frontier, length);
    }

    method RememberTurn(turn: LoggedTurn)
      requires Valid()
      modifies this`log, this`logBytes, this`logFirstTurn, this`sealedBeforeLog
      ensures Valid() && State() == Remember(old(State()), turn)
    {
      assert LogBytes(log + [turn]) == LogBytes(log) + turn.length by { LogBytesPush(log, turn); }
      logBytes := logBytes + turn.length;
      log := log + [turn];
      TrimLog();
    }

    method TrimLog()
      requires Valid()
      modifies this`log, this`logBytes, this`logFirstTurn, this`sealedBeforeLog
      ensures Valid() && State() == Trim(old(State()))
    {
      while |log| > resumeWindow || (logBytes > RESUME_WINDOW_BYTES && |log| > 1)
        invariant Valid() && Trim(State()) == Trim(old(State()))
        decreases |log|
      {
        var oldest := log[0];
        log := log[1..];
        logBytes := logBytes - oldest.length;
        logFirstTurn := logFirstTurn + 1;
        sealedBeforeLog := oldest.sealedThrough;
      }
    }
  }

  lemma {:induction false} LogBytesPush(log: seq<LoggedTurn>, turn: LoggedTurn)
    ensures LogBytes(log + [turn]) == LogBytes(log) + turn.length
  {
    if log != [] {
      LogBytesPush(log[1..], turn);
      assert (log + [turn])[1..] == log[1..] + [turn];
    }
  }
}

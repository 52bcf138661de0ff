/**
Rebuilding a room from its log, and compacting that log
(`Room::recover`, `start_compaction` and `finish_compaction` in
crates/tpf3mp-server/src/room.rs, `Base` and `StartRecord` in
crates/tpf3mp-server/src/persist.rs).

The canonical rules are any state with an application, a save and a restore.
*/
module Recovery {
  import opened Protocol
  import opened Sequencer
  import F = Follower

  const MAX_FRONTIER: nat := 0x1_0000_0000_0000
  const MAX_COUNT: nat := 0x100_0000_0000_0000

  datatype Rules<!S> = Rules(initial: S, apply: (S, Event) -> S, save: S -> Option<Bytes>, restore: Bytes -> Option<S>)

  /** What a ruleset promises: a fresh one that restores a save stands where the
      saved one stood. */
  ghost predicate Lawful<S(!new)>(rules: Rules<S>) {
    forall s: S :: rules.save(s).Some? ==> rules.restore(rules.save(s).value) == Some(s)
  }

  datatype Record = Sealed(turn: Turn) | Marker(history: nat, nextTurn: nat, nextEvent: nat)

  datatype Base = Base(
    firstTurn: nat, firstEvent: nat, sealedBefore: nat, afterTurn: nat, nextEvent: nat, sealedThrough: nat,
    speed: nat, histories: seq<History>, seated: seq<Seat>, rules: Bytes)

  datatype StartRecord = StartRecord(history: nat, owner: PlayerId, maxPlayers: nat, base: Option<Base>)

  datatype RecoverError = BadBase | BadRules | Continuity(index: nat) | Frontier(index: nat)

  /** What the events decide: the rules' state, who sits where, and who owns. */
  datatype Table<S> = Table(rules: S, seated: seq<Seat>, owner: PlayerId)

  datatype RoomState<S> = RoomState(game: GameState, rules: S, owner: PlayerId)

  function TableOf<S>(room: RoomState<S>): Table<S> {
    Table(room.rules, room.game.seated, room.owner)
  }

  /** One event at the table: ownership passes to the earliest remaining player
      when the owner leaves. */
  function Witness<S>(rules: Rules<S>, t: Table<S>, event: Event): Table<S> {
    var seated := SeatBy(t.seated, event);
    Table(rules.apply(t.rules, event), seated,
          if event.body.PlayerLeft? && event.body.player == t.owner && seated != [] then seated[0].player else t.owner)
  }

  function WitnessAll<S>(rules: Rules<S>, t: Table<S>, events: seq<Event>): Table<S>
    decreases |events|
  {
    if events == [] then t else Witness(rules, WitnessAll(rules, t, Init(events)), Last(events))
  }

  /** Consecutive event numbers, which is all recovery asks of events. */
  predicate InSequence(events: seq<Event>, first: nat) {
    forall i | 0 <= i < |events| :: events[i].seqNo == first + i
  }

  /** The game after a turn read back, its table aside. */
  function Relog(g: GameState, turn: Turn, length: FrameLength): GameState {
    Remember(g, Entry(turn, g.nextEvent, length))
    .(nextTurn := g.nextTurn + 1, nextEvent := g.nextEvent + |turn.events|, sealedThrough := turn.sealedThrough,
      speed := turn.speed, announced := turn.speed)
  }

  /** The room after a turn read back. The turns a base covers change no table. */
  function Reread<S>(rules: Rules<S>, room: RoomState<S>, turn: Turn, based: bool, length: FrameLength)
    : RoomState<S>
  {
    var t := if based then WitnessAll(rules, TableOf(room), turn.events) else TableOf(room);
    RoomState(Relog(room.game, turn, length).(seated := t.seated), t.rules, t.owner)
  }

  function ReplayTurn<S>(rules: Rules<S>, room: RoomState<S>, turn: Turn, based: bool, index: nat, length: FrameLength)
    : F.Result<RoomState<S>, RecoverError>
  {
    if turn.number != room.game.nextTurn || turn.sealedThrough < room.game.sealedThrough then F.Err(Continuity(index))
    else if turn.sealedThrough > MAX_FRONTIER then F.Err(Frontier(index))
    else if !InSequence(turn.events, room.game.nextEvent) then F.Err(Continuity(index))
    else F.Ok(Reread(rules, room, turn, based, length))
  }

  function BeginHistory(g: GameState, id: nat): GameState {
    g.(histories := g.histories + [History(id, if g.nextTurn == 0 then 0 else g.nextTurn - 1)])
  }

  predicate Meets(g: GameState, base: Base) {
    g.nextTurn == base.afterTurn + 1 && g.nextEvent == base.nextEvent && g.sealedThrough == base.sealedThrough
  }

  /** Whether the turns read so far reach past what the base covers. */
  predicate Past(g: GameState, base: Option<Base>) {
    g.nextTurn > if base.Some? then base.value.afterTurn else 0
  }

  function Replay<S>(rules: Rules<S>, room: RoomState<S>, records: seq<Record>, base: Option<Base>, based: bool,
                     index: nat, length: FrameLength): F.Result<RoomState<S>, RecoverError>
    decreases |records|
  {
    if !based && Past(room.game, base) && !(base.Some? && Meets(room.game, base.value)) then F.Err(Continuity(index))
    else
      var now := based || Past(room.game, base);
      if records == [] then if now then F.Ok(room) else F.Err(Continuity(index))
      else
        match records[0]
        case Marker(history, nextTurn, nextEvent) =>
          if !now || nextTurn != room.game.nextTurn || nextEvent != room.game.nextEvent then F.Err(Continuity(index))
          else Replay(rules, room.(game := BeginHistory(room.game, history)), records[1..], base, now, index + 1, length)
        case Sealed(turn) =>
          match ReplayTurn(rules, room, turn, now, index, length)
          case Err(error) => F.Err(error)
          case Ok(next) => Replay(rules, next, records[1..], base, now, index + 1, length)
  }

  /** A base that could have been written by a room. */
  predicate Consistent(base: Base) {
    && base.afterTurn < MAX_COUNT && base.nextEvent < MAX_COUNT
    && 1 <= base.firstTurn <= base.afterTurn + 1
    && 1 <= base.firstEvent <= base.nextEvent
    && base.sealedBefore <= base.sealedThrough <= MAX_FRONTIER
    && base.histories != [] && base.histories[0].afterTurn == 0
    && (forall i | 0 <= i < |base.histories| - 1 :: base.histories[i].afterTurn <= base.histories[i + 1].afterTurn)
    && Last(base.histories).afterTurn <= base.afterTurn
  }

  predicate Distinct(seated: seq<Seat>) {
    forall i, j | 0 <= i < j < |seated| :: seated[i].player != seated[j].player
  }

  function Rebase(g: GameState, base: Base): GameState {
    g.(nextTurn := base.firstTurn, logFirstTurn := base.firstTurn, nextEvent := base.firstEvent,
       sealedThrough := base.sealedBefore, sealedBeforeLog := base.sealedBefore, speed := base.speed,
       announced := base.speed, histories := base.histories, seated := base.seated)
  }

  /** The room before the first turn of its log. */
  function Open<S>(rules: Rules<S>, start: StartRecord): F.Result<RoomState<S>, RecoverError> {
    match start.base
    case None => F.Ok(RoomState(NewGame(start.history), rules.initial, start.owner))
    case Some(base) =>
      if !Consistent(base) || !Distinct(base.seated) || |base.seated| > start.maxPlayers then F.Err(BadBase)
      else
        match rules.restore(base.rules)
        case None => F.Err(BadRules)
        case Some(state) => F.Ok(RoomState(Rebase(NewGame(start.history), base), state, start.owner))
  }

  function Recover<S>(rules: Rules<S>, start: StartRecord, records: seq<Record>, length: FrameLength)
    : F.Result<RoomState<S>, RecoverError>
  {
    match Open(rules, start)
    case Err(error) => F.Err(error)
    case Ok(room) => Replay(rules, room, records, start.base, start.base.None?, 0, length)
  }

  // ----- compaction

  function FirstEvent(g: GameState): nat {
    if g.log == [] then g.nextEvent else g.log[0].firstEvent
  }

  function BaseOf(g: GameState, rules: Bytes): Base {
    Base(g.logFirstTurn, FirstEvent(g), g.sealedBeforeLog, if g.nextTurn == 0 then 0 else g.nextTurn - 1, g.nextEvent,
         g.sealedThrough, g.speed, g.histories, g.seated, rules)
  }

  function CompactStart<S>(room: RoomState<S>, saved: Bytes, maxPlayers: nat): StartRecord {
    StartRecord(if room.game.histories == [] then 0 else room.game.histories[0].id, room.owner, maxPlayers,
                Some(BaseOf(room.game, saved)))
  }

  /** The turns a compacted log keeps. */
  function Kept(log: seq<LoggedTurn>): seq<Record> {
    seq(|log|, i requires 0 <= i < |log| => Sealed(log[i].turn))
  }

  // ----- in place

  /** Whether `events` carry consecutive numbers from `first`, checked one by one. */
  method CheckSequence(events: seq<Event>, first: nat) returns (ok: bool)
    ensures ok <==> InSequence(events, first)
  {
    var i := 0;
    while i < |events|
      invariant 0 <= i <= |events| && InSequence(events[..i], first)
    {
      if events[i].seqNo != first + i { return false; }
      i := i + 1;
    }
    assert events[..i] == events;
    return true;
  }

  method Rebuild<S>(rules: Rules<S>, start: StartRecord, records: seq<Record>, length: FrameLength)
    returns (result: F.Result<RoomState<S>, RecoverError>)
    ensures result == Recover(rules, start, records, length)
  {
    var begun := Open(rules, start);
    if begun.Err? { return F.Err(begun.error); }
    var room, based, index := begun.value, start.base.None?, 0;
    assert records[0..] == records;
    while true
      invariant 0 <= index <= |records|
      invariant Replay(rules, room, records[index..], start.base, based, index, length)
             == Recover(rules, start, records, length)
      decreases |records| - index
    {
      if !based && Past(room.game, start.base) {
        if !(start.base.Some? && Meets(room.game, start.base.value)) { return F.Err(Continuity(index)); }
        based := true;
      }
      if index == |records| { break; }
      var record := records[index];
      assert records[index..][1..] == records[index + 1..];
      match record {
        case Marker(history, nextTurn, nextEvent) =>
          if !based || nextTurn != room.game.nextTurn || nextEvent != room.game.nextEvent {
            return F.Err(Continuity(index));
          }
          room := room.(game := BeginHistory(room.game, history));
        case Sealed(turn) =>
          if turn.number != room.game.nextTurn || turn.sealedThrough < room.game.sealedThrough {
            return F.Err(Continuity(index));
          }
          if turn.sealedThrough > MAX_FRONTIER { return F.Err(Frontier(index)); }
          var inSequence := CheckSequence(turn.events, room.game.nextEvent);
          if !inSequence { return F.Err(Continuity(index)); }
          room := Reread(rules, room, turn, based, length);
      }
      index := index + 1;
    }
    if !based { return F.Err(Continuity(index)); }
    return F.Ok(room);
  }
}

/**
The client's follower of a turn stream (crates/tpf3mp-agent/src/follower.rs).

`FollowerState` and the functions on it say what the follower does; the class
`TurnFollower` does it in place. The follower turns a stream into the canonical
order and into nothing else: what it has handed out and what it still holds are
together exactly what the turns it accepted perform.
*/
module Follower {
  import opened Protocol

  /** Bytes of events a follower holds before it refuses more. */
  const MAX_QUEUED_BYTES: nat := 256 * 1024 * 1024
  const EVENT_OVERHEAD: nat := 64
  const NORMAL_SPEED: nat := 100

  datatype FollowError =
    | TurnGap(expected: nat, got: nat)
    | EventGap(expected: nat, got: nat)
    | EventStep(seqNo: nat, step: nat, expected: nat)
    | FrontierRegressed(from: nat, got: nat)
    | RestartMismatch(expected: nat, got: nat)
    | RestartFrontier(expected: nat, got: nat)
    | Overflow
    | Backlog

  datatype Result<+T, +E> = Ok(value: T) | Err(error: E)

  /** The first message of a stream: where it continues, and on which history. */
  datatype TurnStart = TurnStart(at: Cursor, history: nat)

  datatype Resume = Resume(afterTurn: nat, history: nat)

  datatype FollowerState = FollowerState(
    nextTurn: nat, nextEvent: nat, sealedThrough: nat, speed: nat,
    executed: nat, queue: seq<Event>, queuedBytes: nat, history: nat)

  function At(f: FollowerState): Cursor {
    Cursor(f.nextTurn, f.nextEvent, f.sealedThrough)
  }

  function EventSize(event: Event): nat {
    EVENT_OVERHEAD + if event.body.Command? then |event.body.payload| else 0
  }

  function Weigh(events: seq<Event>): nat {
    if events == [] then 0 else EventSize(events[0]) + Weigh(events[1..])
  }

  function Begin(start: TurnStart): FollowerState {
    FollowerState(start.at.turn, start.at.event, start.at.sealed, NORMAL_SPEED,
                  start.at.sealed, [], 0, start.history)
  }

  function Continue(f: FollowerState, start: TurnStart): Result<FollowerState, FollowError> {
    if start.at.turn != f.nextTurn then Err(RestartMismatch(f.nextTurn, start.at.turn))
    else if start.at.event != f.nextEvent then Err(EventGap(f.nextEvent, start.at.event))
    else if start.at.sealed != f.sealedThrough then Err(RestartFrontier(f.sealedThrough, start.at.sealed))
    else Ok(f.(history := start.history))
  }

  function ResumePoint(f: FollowerState): Resume {
    Resume(if f.nextTurn == 0 then 0 else f.nextTurn - 1, f.history)
  }

  /** The event number after `events`, each checked in turn. */
  function CheckEvents(events: seq<Event>, expected: nat, step: nat): Result<nat, FollowError> {
    if events == [] then Ok(expected)
    else if events[0].seqNo != expected then Err(EventGap(expected, events[0].seqNo))
    else if events[0].step != step then Err(EventStep(events[0].seqNo, events[0].step, step))
    else if expected >= U64_MAX then Err(Overflow)
    else CheckEvents(events[1..], expected + 1, step)
  }

  function Accepting(f: FollowerState, turn: Turn): Result<FollowerState, FollowError> {
    if turn.number != f.nextTurn then Err(TurnGap(f.nextTurn, turn.number))
    else if turn.sealedThrough < f.sealedThrough then Err(FrontierRegressed(f.sealedThrough, turn.sealedThrough))
    else if f.nextTurn >= U64_MAX || f.sealedThrough >= U64_MAX then Err(Overflow)
    else
      match CheckEvents(turn.events, f.nextEvent, f.sealedThrough + 1)
      case Err(error) => Err(error)
      case Ok(next) =>
        if f.queuedBytes + Weigh(turn.events) > MAX_QUEUED_BYTES then Err(Backlog)
        else Ok(f.(nextTurn := f.nextTurn + 1, nextEvent := next, sealedThrough := turn.sealedThrough,
                   speed := turn.speed, queue := f.queue + turn.events,
                   queuedBytes := f.queuedBytes + Weigh(turn.events)))
  }

  /** What the game may do next, and the follower after it. */
  function Next(f: FollowerState): (FollowerState, Option<Action>) {
    if f.queue != [] && f.queue[0].step == f.executed + 1 then
      var size := EventSize(f.queue[0]);
      (f.(queue := f.queue[1..], queuedBytes := if f.queuedBytes < size then 0 else f.queuedBytes - size),
       Some(Apply(f.queue[0])))
    else if f.executed + 1 <= f.sealedThrough then
      (f.(executed := f.executed + 1), Some(Execute(f.executed + 1)))
    else
      (f, None)
  }

  /** The step `Next` would run, if running a step comes next. */
  function NextStep(f: FollowerState): Option<nat> {
    if !(f.queue != [] && f.queue[0].step == f.executed + 1) && f.executed + 1 <= f.sealedThrough
    then Some(f.executed + 1) else None
  }

  /** A follower never rejects the turn its cursor expects, but for the ends of
      the counters and the bytes it holds. */
  predicate Room(f: FollowerState, turn: Turn) {
    && f.nextTurn < U64_MAX && f.sealedThrough < U64_MAX
    && (turn.events == [] || f.nextEvent + |turn.events| <= U64_MAX)
    && f.queuedBytes + Weigh(turn.events) <= MAX_QUEUED_BYTES
  }

  predicate Ascending(events: seq<Event>) {
    forall i, j | 0 <= i < j < |events| :: events[i].step <= events[j].step
  }

  /** Waiting events are in step order, none for a step already run. */
  predicate Queued(queue: seq<Event>, executed: nat, sealed: nat) {
    && executed <= sealed
    && Ascending(queue)
    && (forall i | 0 <= i < |queue| :: executed < queue[i].step <= sealed + 1)
  }

  /** `f` started at `at`, has accepted `taken` and handed out `done`. */
  ghost predicate Following(f: FollowerState, at: Cursor, taken: seq<Turn>, done: seq<Action>) {
    && Chain(at, taken)
    && At(f) == Run(at, taken)
    && at.sealed <= f.executed
    && Queued(f.queue, f.executed, f.sealedThrough)
    && f.queuedBytes == Weigh(f.queue)
    && Perform(at, taken) == done + Canon(f.queue, f.executed, f.sealedThrough)
  }

  lemma {:induction false} CheckEventsIff(events: seq<Event>, expected: nat, step: nat)
    ensures CheckEvents(events, expected, step).Ok?
            <==> Numbered(events, expected, step) && (events == [] || expected + |events| <= U64_MAX)
    ensures CheckEvents(events, expected, step).Ok?
            ==> CheckEvents(events, expected, step).value == expected + |events|
  {
    if events != [] && events[0].seqNo == expected && events[0].step == step && expected < U64_MAX {
      CheckEventsIff(events[1..], expected + 1, step);
      assert Numbered(events, expected, step) <==> Numbered(events[1..], expected + 1, step) by {
        if Numbered(events[1..], expected + 1, step) {
          forall i | 0 <= i < |events|
            ensures events[i].seqNo == expected + i && events[i].step == step
          {
            if i > 0 { assert events[i] == events[1..][i - 1]; }
          }
        }
        if Numbered(events, expected, step) {
          forall i | 0 <= i < |events[1..]|
            ensures events[1..][i].seqNo == expected + 1 + i && events[1..][i].step == step
          {
            assert events[1..][i] == events[i + 1];
          }
        }
      }
    }
  }

  /** A turn is accepted exactly when it continues the stream and there is room,
      and then the follower stands right after it. */
  lemma AcceptsExactly(f: FollowerState, turn: Turn)
    ensures Accepting(f, turn).Ok? <==> Fits(At(f), turn) && Room(f, turn)
    ensures Accepting(f, turn).Ok? ==> At(Accepting(f, turn).value) == After(At(f), turn)
    ensures Accepting(f, turn).Ok? ==> Accepting(f, turn).value.speed == turn.speed
  {
    CheckEventsIff(turn.events, f.nextEvent, f.sealedThrough + 1);
  }

  lemma {:induction false} WeighAppend(a: seq<Event>, b: seq<Event>)
    ensures Weigh(a + b) == Weigh(a) + Weigh(b)
  {
    if a == [] {
      assert a + b == b;
    } else {
      WeighAppend(a[1..], b);
      assert (a + b)[1..] == a[1..] + b;
    }
  }

  lemma BeginFollows(start: TurnStart)
    ensures Following(Begin(start), start.at, [], [])
  {
    CanonNoEvents([], start.at.sealed, start.at.sealed);
  }

  lemma QueueGrows(queue: seq<Event>, more: seq<Event>, executed: nat, sealed: nat, further: nat)
    requires Queued(queue, executed, sealed) && sealed <= further
    requires forall i | 0 <= i < |more| :: more[i].step == sealed + 1
    ensures Queued(queue + more, executed, further)
  {
  }

  lemma {:induction false} AcceptPerforms(f: FollowerState, at: Cursor, taken: seq<Turn>, done: seq<Action>, turn: Turn)
    requires Following(f, at, taken, done) && Fits(At(f), turn)
    ensures Perform(at, taken + [turn])
            == done + Canon(f.queue + turn.events, f.executed, turn.sealedThrough)
  {
    ChainPush(at, taken, turn);
    CanonExtend(f.queue, turn.events, f.executed, f.sealedThrough, turn.sealedThrough);
    var held := Canon(f.queue, f.executed, f.sealedThrough);
    Assoc(done, held, Applies(turn.events));
    Assoc(done, held + Applies(turn.events), Steps(f.sealedThrough, turn.sealedThrough));
  }

  /** Accepting a turn extends what the follower will hand out, at the end. */
  lemma AcceptFollows(f: FollowerState, at: Cursor, taken: seq<Turn>, done: seq<Action>, turn: Turn)
    requires Following(f, at, taken, done)
    requires Accepting(f, turn).Ok?
    ensures Following(Accepting(f, turn).value, at, taken + [turn], done)
  {
    AcceptsExactly(f, turn);
    var g := Accepting(f, turn).value;
    ChainPush(at, taken, turn);
    WeighAppend(f.queue, turn.events);
    QueueGrows(f.queue, turn.events, f.executed, f.sealedThrough, turn.sealedThrough);
    AcceptPerforms(f, at, taken, done, turn);
  }

  /** What the follower hands out is the next action of the canonical order; it
      holds back only when nothing is left of the turns it accepted. */
  lemma {:induction false} NextFollows(f: FollowerState, at: Cursor, taken: seq<Turn>, done: seq<Action>)
    requires Following(f, at, taken, done)
    ensures Next(f).1.Some? ==> Following(Next(f).0, at, taken, done + [Next(f).1.value])
    ensures Next(f).1.None? ==> Next(f).0 == f && f.queue == [] && Perform(at, taken) == done
    ensures NextStep(f) == if Next(f).1.Some? && Next(f).1.value.Execute? then Some(f.executed + 1) else None
  {
    if f.queue != [] && f.queue[0].step == f.executed + 1 {
      NextApplies(f, at, taken, done);
    } else {
      NothingDue(f, at, taken, done);
    }
  }

  lemma NextApplies(f: FollowerState, at: Cursor, taken: seq<Turn>, done: seq<Action>)
    requires Following(f, at, taken, done)
    requires f.queue != [] && f.queue[0].step == f.executed + 1
    ensures Following(Next(f).0, at, taken, done + [Apply(f.queue[0])])
  {
    PopCanon(f.queue, f.executed, f.sealedThrough);
    Assoc(done, [Apply(f.queue[0])], Canon(f.queue[1..], f.executed, f.sealedThrough));
  }

  lemma {:induction false} NothingDue(f: FollowerState, at: Cursor, taken: seq<Turn>, done: seq<Action>)
    requires Following(f, at, taken, done)
    requires f.queue == [] || f.queue[0].step != f.executed + 1
    ensures f.executed < f.sealedThrough ==> Following(Next(f).0, at, taken, done + [Execute(f.executed + 1)])
    ensures f.executed == f.sealedThrough ==> f.queue == [] && Perform(at, taken) == done
  {
    NoneOfNextStep(f.queue, f.executed, f.sealedThrough);
    if f.executed < f.sealedThrough {
      Assoc(done, [Execute(f.executed + 1)], Canon(f.queue, f.executed + 1, f.sealedThrough));
    } else {
      assert done + [] == done;
    }
  }

  lemma NoneOfNextStep(queue: seq<Event>, executed: nat, sealed: nat)
    requires Queued(queue, executed, sealed)
    requires queue == [] || queue[0].step != executed + 1
    ensures Canon(queue, executed, sealed)
            == if executed < sealed then [Execute(executed + 1)] + Canon(queue, executed + 1, sealed) else []
    ensures if executed < sealed then Queued(queue, executed + 1, sealed) else queue == []
  {
    forall i | 0 <= i < |queue| ensures executed + 1 < queue[i].step {
      if i > 0 { assert queue[0].step <= queue[i].step; }
    }
    OfStepNone(queue, executed + 1);
  }

  lemma {:induction false} PopCanon(queue: seq<Event>, executed: nat, sealed: nat)
    requires queue != [] && queue[0].step == executed + 1 && executed <= sealed
    ensures Canon(queue, executed, sealed) == [Apply(queue[0])] + Canon(queue[1..], executed, sealed)
  {
    assert OfStep(queue, executed + 1) == [queue[0]] + OfStep(queue[1..], executed + 1);
    assert Applies(OfStep(queue, executed + 1)) == [Apply(queue[0])] + Applies(OfStep(queue[1..], executed + 1));
    if executed < sealed { PopLater(queue, executed + 1, sealed); }
    Assoc([Apply(queue[0])], Applies(OfStep(queue[1..], executed + 1)),
          if executed < sealed then [Execute(executed + 1)] + Canon(queue[1..], executed + 1, sealed) else []);
  }

  lemma {:induction false} PopLater(queue: seq<Event>, low: nat, high: nat)
    requires queue != [] && queue[0].step <= low <= high
    ensures Canon(queue, low, high) == Canon(queue[1..], low, high)
    decreases high - low
  {
    assert OfStep(queue, low + 1) == OfStep(queue[1..], low + 1);
    if low < high { PopLater(queue, low + 1, high); }
  }

  /** A stream that starts at the follower's own cursor is taken up without any
      change but the history's name; any other is refused. */
  lemma ContinuesExactly(f: FollowerState, start: TurnStart)
    ensures Continue(f, start).Ok? <==> start.at == At(f)
    ensures Continue(f, start).Ok? ==> Continue(f, start).value == f.(history := start.history)
  {
  }

  /** Follows a room's turn stream. */
  class TurnFollower {
    var nextTurn: nat
    var nextEvent: nat
    var sealedThrough: nat
    var speed: nat
    var executed: nat
    var queue: seq<Event>
    var queuedBytes: nat
    var history: nat

    ghost function State(): FollowerState
      reads this
    {
      FollowerState(nextTurn, nextEvent, sealedThrough, speed, executed, queue, queuedBytes, history)
    }

    constructor (start: TurnStart)
      ensures State() == Begin(start)
    {
      nextTurn, nextEvent, sealedThrough := start.at.turn, start.at.event, start.at.sealed;
      speed, executed, queue := NORMAL_SPEED, start.at.sealed, [];
      queuedBytes, history := 0, start.history;
    }

    method Restart(start: TurnStart) returns (error: Option<FollowError>)
      modifies this
      ensures match Continue(old(State()), start)
              case Ok(next) => error == None && State() == next
              case Err(why) => error == Some(why) && State() == old(State())
    {
      if start.at.turn != nextTurn {
        return Some(RestartMismatch(nextTurn, start.at.turn));
      }
      if start.at.event != nextEvent {
        return Some(EventGap(nextEvent, start.at.event));
      }
      if start.at.sealed != sealedThrough {
        return Some(RestartFrontier(sealedThrough, start.at.sealed));
      }
      history := start.history;
      error := None;
    }

    /** On error nothing of the turn is kept. */
    method Accept(turn: Turn) returns (error: Option<FollowError>)
      modifies this
      ensures match Accepting(old(State()), turn)
              case Ok(next) => error == None && State() == next
              case Err(why) => error == Some(why) && State() == old(State())
    {
      if turn.number != nextTurn {
        return Some(TurnGap(nextTurn, turn.number));
      }
      if turn.sealedThrough < sealedThrough {
        return Some(FrontierRegressed(sealedThrough, turn.sealedThrough));
      }
      if nextTurn >= U64_MAX || sealedThrough >= U64_MAX {
        return Some(Overflow);
      }
      var expected: nat, bytes: nat, i: nat := nextEvent, 0, 0;
      assert turn.events[0..] == turn.events;
      while i < |turn.events|
        invariant 0 <= i <= |turn.events|
        invariant CheckEvents(turn.events, nextEvent, sealedThrough + 1)
                  == CheckEvents(turn.events[i..], expected, sealedThrough + 1)
        invariant Weigh(turn.events) == bytes + Weigh(turn.events[i..])
      {
        var event := turn.events[i];
        assert turn.events[i..][0] == event;
        assert turn.events[i..][1..] == turn.events[i + 1..];
        if event.seqNo != expected {
          return Some(EventGap(expected, event.seqNo));
        }
        if event.step != sealedThrough + 1 {
          return Some(EventStep(event.seqNo, event.step, sealedThrough + 1));
        }
        if expected >= U64_MAX {
          return Some(Overflow);
        }
        expected, bytes, i := expected + 1, bytes + EventSize(event), i + 1;
      }
      if queuedBytes + bytes > MAX_QUEUED_BYTES {
        return Some(Backlog);
      }
      nextTurn, nextEvent, sealedThrough := nextTurn + 1, expected, turn.sealedThrough;
      speed, queuedBytes, queue := turn.speed, queuedBytes + bytes, queue + turn.events;
      error := None;
    }

    /** The step to run next, if one comes next; nothing is taken. */
    method PeekStep() returns (step: Option<nat>)
      ensures step == NextStep(State())
    {
      var next := executed + 1;
      if queue != [] && queue[0].step == next {
        return None;
      }
      step := if next <= sealedThrough then Some(next) else None;
    }

    method NextAction() returns (action: Option<Action>)
      modifies this
      ensures (State(), action) == Next(old(State()))
    {
      var step := executed + 1;
      if queue != [] && queue[0].step == step {
        var event := queue[0];
        var size := EventSize(event);
        queue := queue[1..];
        queuedBytes := if queuedBytes < size then 0 else queuedBytes - size;
        return Some(Apply(event));
      }
      if step <= sealedThrough {
        executed := step;
        return Some(Execute(step));
      }
      action := None;
    }
  }
}

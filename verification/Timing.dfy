/**
The playout of a running client: its schedule starts with its stream and learns
from every turn the client accepts, so that the steps a turn seals are never let
go sooner than the margin after it arrived.
*/
module Timing {
  import opened Protocol
  import opened Gate
  import opened Sequencer
  import opened Recovery
  import opened Pipeline
  import opened Lockstep
  import O = Overtaking
  import E = Evenness
  import B = Bridge
  import F = Follower
  import P = Playout

  /** The schedule's arrivals are in order and none is later than `now`. */
  predicate InOrder(p: P.PlayoutState, now: nat) {
    P.Falling(p.recent) && forall k | 0 <= k < |p.recent| :: p.recent[k].time <= now
  }

  predicate Timed(client: Pipe, now: nat) {
    && (client.bridge.playout.Some? ==> InOrder(client.bridge.playout.value, now))
    && (client.bridge.follower.Some? ==> client.bridge.playout.Some?)
  }

  // ----- the schedule keeps its arrivals in order

  lemma RememberInOrder(p: P.PlayoutState, arrival: P.Arrival)
    requires InOrder(p, arrival.time)
    ensures InOrder(p.(recent := P.Remember(p.recent, arrival, p.memory)), arrival.time)
  {
    var kept := P.DropOvertaken(p.recent, arrival.implied) + [arrival];
    P.DropOvertakenIsPrefix(p.recent, arrival.implied);
    DropOldInOrder(p, kept, arrival.time);
  }

  lemma {:induction false} DropOldInOrder(p: P.PlayoutState, kept: seq<P.Arrival>, now: nat)
    requires InOrder(p.(recent := kept), now)
    ensures InOrder(p.(recent := P.DropOld(kept, now, p.memory)), now)
    decreases |kept|
  {
    if |kept| > 1 && now - kept[0].time > p.memory { DropOldInOrder(p, kept[1..], now); }
  }

  lemma RebaseInOrder(p: P.PlayoutState, now: nat)
    ensures InOrder(P.Rebase(p, now), now)
  {
    P.RebaseHolds(p, now);
  }

  lemma RepaceInOrder(p: P.PlayoutState, speed: nat, now: nat, later: nat)
    requires InOrder(p, now) && now <= later
    ensures InOrder(P.Repace(p, speed, later), later)
  {
    RebaseInOrder(p.(paused := false, pace := speed), later);
  }

  lemma OnTurnInOrder(p: P.PlayoutState, sealed: nat, speed: nat, now: nat, later: nat)
    requires InOrder(p, now) && now <= later
    ensures InOrder(P.OnTurn(p, sealed, speed, later), later)
  {
    RepaceInOrder(p, speed, now, later);
    var r := P.Repace(p, speed, later);
    if sealed > r.frontier { RememberInOrder(r, P.ArrivalOf(r, sealed, later)); }
  }

  // ----- every step of a client

  /** When a step happens, if it looks at the clock. */
  function ClockOf(step: PipeStep, now: nat): nat {
    match step
    case TurnArrives(_, at) => at
    case PumpRuns(at, _) => at
    case _ => now
  }

  lemma {:induction false} PumpKeepsRecent(f: F.FollowerState, p: P.PlayoutState, now: nat, out: seq<ToHook>,
                                           released: Option<nat>, pace: B.Pacing)
    ensures B.Pump(f, p, now, out, released, pace).playout.recent == p.recent
    decreases B.Left(f)
  {
    var once := B.PumpOnce(f, p, now, out, released, pace);
    if once.More? { PumpKeepsRecent(once.follower, once.playout, now, once.out, once.released, pace); }
  }

  lemma PumpTimed(client: Pipe, at: nat, pace: B.Pacing, now: nat)
    requires Timed(client, now) && now <= at
    ensures Timed(TakePump(client, at, pace).pipe, at)
  {
    var b := client.bridge;
    if !(b.world.Fetching? || b.follower.None? || b.playout.None?) {
      PumpKeepsRecent(b.follower.value, b.playout.value, at, b.outbox, None, pace);
    }
  }

  lemma TurnTimed(client: Pipe, turn: Turn, at: nat, now: nat)
    requires Timed(client, now) && now <= at && TakeTurn(client, turn, at).On?
    ensures Timed(TakeTurn(client, turn, at).pipe, at)
  {
    var f := F.Accepting(client.bridge.follower.value, turn).value;
    OnTurnInOrder(client.bridge.playout.value, f.sealedThrough, f.speed, now, at);
  }

  lemma TakeTimed(client: Pipe, step: PipeStep, now: nat)
    requires Timed(client, now) && now <= ClockOf(step, now) && Take(client, step).On?
    ensures Timed(Take(client, step).pipe, ClockOf(step, now))
  {
    match step
    case TurnArrives(turn, at) => TurnTimed(client, turn, at, now);
    case PumpRuns(at, pace) => PumpTimed(client, at, pace, now);
    case _ =>
  }

  // ----- what that gives

  /** A stream starts a schedule of its own, which knows nothing yet. */
  lemma OpeningIsTimed(client: Pipe, o: B.StreamStart, margin: nat, memory: nat, step: nat)
    requires TakeStream(client, o, margin, memory).On?
    ensures TakeStream(client, o, margin, memory).pipe.bridge.playout.Some?
    ensures var p := TakeStream(client, o, margin, memory).pipe.bridge.playout.value;
            p.margin == margin && p.memory == memory && p.frontier == 0 && P.Ideal(p, step) == None
  {
  }

  /** A turn the client accepts tells its schedule how far it may play, and no step it
      newly seals up to is ideally played before the margin has passed. */
  lemma TurnIsTimed(client: Pipe, turn: Turn, at: nat, now: nat, step: nat)
    requires Timed(client, now) && now <= at && TakeTurn(client, turn, at).On?
    ensures TakeTurn(client, turn, at).pipe.bridge.playout.Some?
    ensures var p, q := client.bridge.playout.value, TakeTurn(client, turn, at).pipe.bridge.playout.value;
            && q.frontier == P.Max(p.frontier, turn.sealedThrough)
            && (turn.speed != 0 ==> q.pace == turn.speed)
            && (p.frontier < turn.sealedThrough <= step && q.base.value <= step
                ==> P.Ideal(q, step).Some? && P.Ideal(q, step).value >= at + p.margin)
  {
    var p := client.bridge.playout.value;
    var r := P.Repace(p, turn.speed, at);
    F.AcceptsExactly(client.bridge.follower.value, turn);
    RepaceInOrder(p, turn.speed, now, at);
    RepaceKeeps(p, turn.speed, at);
    if p.frontier < turn.sealedThrough <= step && (r.base.Some? ==> r.base.value <= step) {
      E.NotBeforeItArrives(r, turn.sealedThrough, at, step);
    }
  }

  lemma RepaceKeeps(p: P.PlayoutState, speed: nat, now: nat)
    ensures var r := P.Repace(p, speed, now);
            r.frontier == p.frontier && r.margin == p.margin && (speed != 0 ==> r.pace == speed)
  {
  }

  // ----- every run


  /** What the clock last showed. */
  function Clock(steps: seq<SystemStep>): nat
    decreases |steps|
  {
    if steps == [] then 0
    else
      match Last(steps)
      case Delivers(now, _, _) => now
      case ClientSteps(PumpRuns(at, _)) => at
      case _ => Clock(Init(steps))
  }

  lemma NextTimed<S>(rules: Rules<S>, start: StartRecord, s: System<S>, step: SystemStep, now: nat, later: nat,
                     length: FrameLength)
    requires Timed(s.client, now) && now <= later && Next(rules, start, s, step, length).Going?
    requires O.ForClient(s, step).Some? ==> ClockOf(O.ForClient(s, step).value, now) <= later
    requires O.ForClient(s, step).Some? ==> now <= ClockOf(O.ForClient(s, step).value, now)
    ensures Timed(Next(rules, start, s, step, length).system.client, later)
  {
    O.NextForClient(rules, start, s, step, length);
    if O.ForClient(s, step).Some? { TakeTimed(s.client, O.ForClient(s, step).value, now); }
  }

  lemma ClockFits<S>(s: System<S>, steps: seq<SystemStep>)
    requires steps != [] && Clock(Init(steps)) <= Clock(steps) && O.ForClient(s, Last(steps)).Some?
    ensures var at := ClockOf(O.ForClient(s, Last(steps)).value, Clock(Init(steps)));
            Clock(Init(steps)) <= at <= Clock(steps)
  {
  }

  /** Over every run whose clock does not go back, the client's schedule stays in
      order, so that `TurnIsTimed` holds of every turn it accepts. */
  lemma {:induction false} EveryRunIsTimed<S>(rules: Rules<S>, start: StartRecord, steps: seq<SystemStep>,
                                              s: System<S>, length: FrameLength)
    requires Reached(rules, start, steps, length) == Going(s)
    requires forall i, j | 0 <= i <= j <= |steps| :: Clock(steps[..i]) <= Clock(steps[..j])
    ensures Timed(s.client, Clock(steps))
    decreases |steps|
  {
    if steps != [] {
      var before, init := Reached(rules, start, Init(steps), length).system, Init(steps);
      assert steps[..|steps| - 1] == init && steps[..|steps|] == steps;
      forall i, j | 0 <= i <= j <= |init| ensures Clock(init[..i]) <= Clock(init[..j]) {
        assert init[..i] == steps[..i] && init[..j] == steps[..j];
      }
      EveryRunIsTimed(rules, start, init, before, length);
      assert Clock(steps[..|steps| - 1]) <= Clock(steps[..|steps|]);
      if Next(rules, start, before, Last(steps), length).Going? {
        if O.ForClient(before, Last(steps)).Some? { ClockFits(before, steps); }
        NextTimed(rules, start, before, Last(steps), Clock(init), Clock(steps), length);
      }
    }
  }
}

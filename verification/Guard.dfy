/**
What the hook's gate guards against (crates/tpf3mp-bridge/src/gate.rs,
crates/tpf3mp-bridge/src/session.rs): whatever messages come over the link, from
whatever agent and in whatever order, the game runs consecutive steps from where
its world was loaded, no step that was not released, and every event just before
the step it is for.
*/
module Guard {
  import opened Protocol
  import opened Gate

  /** What happens at the hook: it polls a link with anything on it, the game runs a
      step it was let run, or it finishes the load it was told to do. */
  datatype HookStep = Polls(link: seq<ToHook>) | Runs | Loads

  function Executes(world: seq<Action>): nat
    decreases |world|
  {
    if world == [] then 0 else Executes(Init(world)) + if Last(world).Execute? then 1 else 0
  }

  /** The step of an action: the one run, or the one an event is for. */
  function StepOf(action: Action): nat {
    match action
    case Execute(step) => step
    case Apply(event) => event.step
  }

  /** Each action is for the step after those already run. */
  predicate Orderly(from: nat, world: seq<Action>) {
    forall i | 0 <= i < |world| :: StepOf(world[i]) == from + Executes(world[..i])
  }

  /** The world was loaded to go on at step `from`, all it did since was in order, and
      it ran only what was released. */
  predicate Guarded(s: SessionState, from: nat) {
    && Orderly(from, s.world) && s.gate.nextStep == from + Executes(s.world)
    && s.gate.nextStep <= s.gate.released + 1 && s.pending.Some? == s.gate.loading
  }

  lemma OrderlyPush(from: nat, world: seq<Action>, action: Action)
    requires Orderly(from, world) && StepOf(action) == from + Executes(world)
    ensures Orderly(from, world + [action])
    ensures Executes(world + [action]) == Executes(world) + if action.Execute? then 1 else 0
  {
    var more := world + [action];
    assert Init(more) == world;
    forall i | 0 <= i < |more| ensures StepOf(more[i]) == from + Executes(more[..i]) {
      if i < |world| { assert more[..i] == world[..i]; } else { assert more[..i] == world; }
    }
  }

  /** A message the gate takes keeps it so; an event it takes is for a step not yet
      released. */
  lemma HandleGuards(s: SessionState, message: ToHook, from: nat)
    requires Guarded(s, from) && Reads(s) && Handle(s, message).Fine?
    ensures Guarded(Handle(s, message).session, from)
    ensures message.ApplyEvent? ==> message.event.step > s.gate.released
    ensures Handle(s, message).session.gate.released >= s.gate.released
  {
    if message.ApplyEvent? { OrderlyPush(from, s.world, Apply(message.event)); }
  }

  lemma PollOnce(s: SessionState, link: seq<ToHook>)
    ensures Poll(s, link).0
            == if Reads(s) && link != [] && Handle(s, link[0]).Fine? then Poll(Handle(s, link[0]).session, link[1..]).0
               else s
  {
  }

  lemma {:induction false} PollGuards(s: SessionState, link: seq<ToHook>, from: nat)
    requires Guarded(s, from)
    ensures Guarded(Poll(s, link).0, from)
    decreases |link|
  {
    PollOnce(s, link);
    if Reads(s) && link != [] && Handle(s, link[0]).Fine? {
      var next := Handle(s, link[0]).session;
      assert Guarded(next, from) by { HandleGuards(s, link[0], from); }
      PollGuards(next, link[1..], from);
    }
  }

  /** The session after a step, and where the world it is in was loaded; a step that
      cannot happen changes nothing. */
  function Taking(s: SessionState, from: nat, step: HookStep): (SessionState, nat) {
    match step
    case Polls(link) => (Poll(s, link).0, from)
    case Runs =>
      if s.pending.None? && MayRun(s.gate) && AfterStep(s).Fine? then (AfterStep(s).session, from) else (s, from)
    case Loads => if s.pending.Some? then (FinishLoad(s), s.pending.value) else (s, from)
  }

  function TakingAll(s: SessionState, from: nat, steps: seq<HookStep>): (SessionState, nat)
    decreases |steps|
  {
    if steps == [] then (s, from)
    else var (t, at) := TakingAll(s, from, Init(steps)); Taking(t, at, Last(steps))
  }

  lemma TakingGuards(s: SessionState, from: nat, step: HookStep)
    requires Guarded(s, from)
    ensures Guarded(Taking(s, from, step).0, Taking(s, from, step).1)
  {
    match step
    case Polls(link) => PollGuards(s, link, from);
    case Runs => OrderlyPush(from, s.world, Execute(s.gate.nextStep));
    case Loads =>
  }

  /** For every run, with any messages at all: the game's world is in order since it
      was loaded, and nothing ran that was not released. */
  lemma {:induction false} EveryRunIsGuarded(nextStep: nat, speed: nat, steps: seq<HookStep>)
    ensures var (s, from) := TakingAll(SessionState(Before(nextStep), None, [], None, speed), nextStep, steps);
            Guarded(s, from)
    decreases |steps|
  {
    if steps != [] {
      EveryRunIsGuarded(nextStep, speed, Init(steps));
      var (s, from) := TakingAll(SessionState(Before(nextStep), None, [], None, speed), nextStep, Init(steps));
      TakingGuards(s, from, Last(steps));
    }
  }
}

/**
When the whole system stops over a load report
(crates/tpf3mp-agent/src/bridge.rs:477-489): never, in a run in which no stream
that needs another world reaches the client over a load still unanswered. Once
one does, the run fails if nothing happens but that the client works off what is
on its way; and a run that does is shown.
*/
module Overtaking {
  import opened Protocol
  import opened Sequencer
  import opened Recovery
  import opened Server
  import opened Lifetime
  import opened Pipeline
  import opened Lockstep
  import B = Bridge
  import L = Loads

  /** What a step of the system is for the client, if anything. */
  function ForClient<S>(s: System<S>, step: SystemStep): Option<PipeStep> {
    match step
    case Delivers(now, margin, memory) =>
      if s.wire == [] then None
      else
        match s.wire[0] {
          case Opening(stream) => Some(StreamArrives(stream, margin, memory))
          case Frame(turn) => Some(TurnArrives(turn, now))
        }
    case ClientSteps(local) => if local.StreamArrives? || local.TurnArrives? then None else Some(local)
    case _ => None
  }

  /** The step brings the client a stream that overtakes a load it has not answered. */
  predicate Overtakes<S>(s: System<S>, step: SystemStep) {
    ForClient(s, step).Some? && L.Supersedes(s.client, ForClient(s, step).value)
  }

  predicate NeverOvertakes<S>(rules: Rules<S>, start: StartRecord, steps: seq<SystemStep>, length: FrameLength)
    decreases |steps|
  {
    steps == []
    || (&& NeverOvertakes(rules, start, Init(steps), length)
        && var before := Reached(rules, start, Init(steps), length);
           before.Going? ==> !Overtakes(before.system, Last(steps)))
  }

  lemma NextForClient<S>(rules: Rules<S>, start: StartRecord, s: System<S>, step: SystemStep, length: FrameLength)
    ensures var next, mine := Next(rules, start, s, step, length), ForClient(s, step);
            if mine.Some? then exists wire :: next == Took(s, Take(s.client, mine.value), wire)
            else next.Idle? || (next.Going? && next.system.client == s.client)
  {
    if step.Delivers? && s.wire != [] {
      assert Next(rules, start, s, step, length)
          == Took(s, Take(s.client, ForClient(s, step).value), s.wire[1..]);
    } else if ForClient(s, step).Some? {
      assert Next(rules, start, s, step, length) == Took(s, Take(s.client, step.local), s.wire);
    }
  }

  /** Only a report can be about a world nobody waits for. */
  lemma ReportFaults(p: Pipe, step: PipeStep)
    requires Take(p, step).BridgeBroke? && !step.AgentHears?
    ensures !Take(p, step).fault.NobodyOrdered? && !Take(p, step).fault.LoadedElsewhere?
  {
    if !step.StreamArrives? && !step.TurnArrives? { LocalFaults(p, step); }
  }

  /** Such a run stops only for want of room. */
  lemma {:induction false} EveryRunUnovertaken<S>(rules: Rules<S>, start: StartRecord, steps: seq<SystemStep>,
                                                  length: FrameLength)
    requires start.base.None? && NeverOvertakes(rules, start, steps, length)
    ensures match Reached(rules, start, steps, length)
            case Going(s) => L.Clean(s.client)
            case BridgeFails(fault) => fault.Follow? && (fault.error.Overflow? || fault.error.Backlog?)
            case _ => false
    decreases |steps|
  {
    EveryRun(rules, start, steps, length);
    if steps != [] {
      var before := Reached(rules, start, Init(steps), length);
      EveryRunUnovertaken(rules, start, Init(steps), length);
      EveryRun(rules, start, Init(steps), length);
      if before.Going? { StepFits(rules, start, before.system, Last(steps), length); }
    }
  }

  lemma StepFits<S>(rules: Rules<S>, start: StartRecord, s: System<S>, step: SystemStep, length: FrameLength)
    requires Inv(s.client) && L.Clean(s.client) && !Overtakes(s, step)
    ensures match Next(rules, start, s, step, length)
            case Going(t) => L.Clean(t.client)
            case BridgeFails(fault) => !fault.NobodyOrdered? && !fault.LoadedElsewhere?
            case _ => true
  {
    NextForClient(rules, start, s, step, length);
    if ForClient(s, step).Some? { TakeFits(s.client, ForClient(s, step).value); }
  }

  lemma TakeFits(p: Pipe, step: PipeStep)
    requires Inv(p) && L.Clean(p) && !L.Supersedes(p, step)
    ensures match Take(p, step)
            case On(q) => L.Clean(q)
            case BridgeBroke(fault) => !fault.NobodyOrdered? && !fault.LoadedElsewhere?
            case _ => true
  {
    L.InvOrderly(p);
    L.ReportsFit(p, step);
    if Take(p, step).BridgeBroke? { ReportFaults(p, step); }
  }

  // ----- after a load was overtaken

  function Proceed<S>(rules: Rules<S>, start: StartRecord, o: Outcome<S>, step: SystemStep, length: FrameLength)
    : Outcome<S>
  {
    match o
    case Going(s) => var next := Next(rules, start, s, step, length); if next.Idle? then o else next
    case stopped => stopped
  }

  /** What becomes of a run that goes on with `steps`. */
  function Onward<S>(rules: Rules<S>, start: StartRecord, o: Outcome<S>, steps: seq<SystemStep>, length: FrameLength)
    : Outcome<S>
    decreases |steps|
  {
    if steps == [] then o else Onward(rules, start, Proceed(rules, start, o, steps[0], length), steps[1..], length)
  }

  lemma {:induction false} ReachedOn<S>(rules: Rules<S>, start: StartRecord, a: seq<SystemStep>, b: seq<SystemStep>,
                                        length: FrameLength)
    ensures Reached(rules, start, a + b, length) == Onward(rules, start, Reached(rules, start, a, length), b, length)
    decreases |b|
  {
    if b == [] {
      assert a + b == a;
    } else {
      ReachedOn(rules, start, a + [b[0]], b[1..], length);
      ReachedNext(rules, start, a, b[0], length);
      Assoc(a, [b[0]], b[1..]);
      assert [b[0]] + b[1..] == b;
    }
  }

  lemma {:induction false} ReachedNext<S>(rules: Rules<S>, start: StartRecord, a: seq<SystemStep>, step: SystemStep,
                                          length: FrameLength)
    ensures Reached(rules, start, a + [step], length)
            == Proceed(rules, start, Reached(rules, start, a, length), step, length)
  {
    assert Init(a + [step]) == a && Last(a + [step]) == step;
  }

  predicate LoadFault(fault: B.BridgeFault) {
    fault.NobodyOrdered? || fault.LoadedElsewhere?
  }

  /** Nothing happens but that the client works off what is on its way. */
  predicate OnlyDrains(locals: seq<PipeStep>) {
    forall i | 0 <= i < |locals| :: L.Drains(locals[i])
  }

  function Drain(p: Pipe, locals: seq<PipeStep>): Stepped
    decreases |locals|
  {
    if locals == [] then On(p)
    else
      match Take(p, locals[0])
      case Disabled => Drain(p, locals[1..])
      case On(q) => Drain(q, locals[1..])
      case broken => broken
  }

  /** A client of the system, and what the system keeps of it. */
  datatype Place = Place(lines: map<nat, seq<Turn>>, wire: seq<Feed>, connected: bool, current: nat)

  ghost predicate At(p: Pipe, place: Place) {
    Bounded(place.lines) && ClientInv(p, place.lines, place.wire, place.connected, place.current)
  }

  /** One such step: it fails over a report that is overdue, or goes on and neither
      adds nor settles any. */
  lemma DrainOne(p: Pipe, place: Place, local: PipeStep)
    requires At(p, place) && L.Open(p) && L.Drains(local)
    ensures match Take(p, local)
            case On(q) =>
              && At(q, place) && L.Open(q) && L.Work(q) < L.Work(p) && (L.Overdue(q) <==> L.Overdue(p))
              && (p.bridge.world.Fetching? ==> q.bridge.world.Fetching?)
            case BridgeBroke(fault) =>
              L.Overdue(p) && LoadFault(fault) && (p.bridge.world.Fetching? ==> fault.NobodyOrdered?)
            case GateBroke(_) => false
            case Disabled => true
  {
    LocalTaken(p, place.lines, place.wire, place.connected, place.current, local);
    L.DrainKeeps(p, local);
  }

  /** Nothing on its way is left to work off. */
  ghost predicate Drained(p: Pipe) {
    forall s | L.Drains(s) :: Take(p, s).Disabled?
  }

  /** How many of the steps did anything. */
  function Moved(p: Pipe, locals: seq<PipeStep>): nat
    decreases |locals|
  {
    if locals == [] then 0
    else
      match Take(p, locals[0])
      case Disabled => Moved(p, locals[1..])
      case On(q) => 1 + Moved(q, locals[1..])
      case _ => 1
  }

  /** Working off what is on its way, in whatever order: it fails only over a report
      that is overdue; and if one is, it fails before everything is worked off, which
      is soon. */
  lemma {:induction false} EveryDrain(p: Pipe, place: Place, locals: seq<PipeStep>)
    requires At(p, place) && L.Open(p) && OnlyDrains(locals)
    ensures match Drain(p, locals)
            case On(q) =>
              (L.Overdue(q) <==> L.Overdue(p)) && Moved(p, locals) + L.Work(q) <= L.Work(p)
              && (L.Overdue(p) ==> !Drained(q))
            case BridgeBroke(fault) =>
              L.Overdue(p) && LoadFault(fault) && (p.bridge.world.Fetching? ==> fault.NobodyOrdered?)
            case _ => false
    decreases |locals|
  {
    if locals != [] {
      DrainOne(p, place, locals[0]);
      match Take(p, locals[0])
      case Disabled => EveryDrain(p, place, locals[1..]);
      case On(q) => EveryDrain(q, place, locals[1..]);
      case _ =>
    } else if L.Overdue(p) {
      var s := L.OverdueMoves(p);
      assert L.Drains(s) && !Take(p, s).Disabled?;
    }
  }

  /** And if one is, it does fail. */
  lemma {:induction false} DrainFails(p: Pipe, place: Place) returns (locals: seq<PipeStep>, fault: B.BridgeFault)
    requires At(p, place) && L.Open(p) && L.Overdue(p)
    ensures OnlyDrains(locals) && Drain(p, locals) == BridgeBroke(fault) && LoadFault(fault)
    ensures p.bridge.world.Fetching? ==> fault.NobodyOrdered?
    decreases L.Work(p)
  {
    var local := L.OverdueMoves(p);
    DrainOne(p, place, local);
    match Take(p, local) {
      case On(q) =>
        locals, fault := DrainFails(q, place);
        DrainsMore(p, local, q, locals, fault);
        locals := [local] + locals;
      case BridgeBroke(broken) => locals, fault := [local], broken;
    }
  }

  lemma {:induction false} DrainsMore(p: Pipe, local: PipeStep, q: Pipe, locals: seq<PipeStep>, fault: B.BridgeFault)
    requires L.Drains(local) && Take(p, local) == On(q) && OnlyDrains(locals) && Drain(q, locals) == BridgeBroke(fault)
    ensures OnlyDrains([local] + locals) && Drain(p, [local] + locals) == BridgeBroke(fault)
  {
    assert ([local] + locals)[0] == local && ([local] + locals)[1..] == locals;
  }

  function Locals(locals: seq<PipeStep>): seq<SystemStep> {
    seq(|locals|, i requires 0 <= i < |locals| => ClientSteps(locals[i]))
  }

  lemma {:induction false} Stopped<S>(rules: Rules<S>, start: StartRecord, o: Outcome<S>, steps: seq<SystemStep>,
                                      length: FrameLength)
    requires !o.Going?
    ensures Onward(rules, start, o, steps, length) == o
    decreases |steps|
  {
    if steps != [] { Stopped(rules, start, o, steps[1..], length); }
  }

  lemma LocalNext<S>(rules: Rules<S>, start: StartRecord, s: System<S>, local: PipeStep, length: FrameLength)
    requires L.Drains(local)
    ensures var taken, o := Take(s.client, local), Proceed(rules, start, Going(s), ClientSteps(local), length);
            o == match taken
                 case Disabled => Going(s)
                 case On(q) => Going(s.(client := q))
                 case BridgeBroke(fault) => BridgeFails(fault)
                 case GateBroke(_) => GateFails(s.client.hook.gate.nextStep)
  {
  }

  /** What the client does on its own it does in the system. */
  lemma {:induction false} DrainsOn<S>(rules: Rules<S>, start: StartRecord, s: System<S>, locals: seq<PipeStep>,
                                       length: FrameLength)
    requires OnlyDrains(locals) && !Drain(s.client, locals).GateBroke?
    ensures Drain(s.client, locals).On?
            ==> Onward(rules, start, Going(s), Locals(locals), length)
                == Going(s.(client := Drain(s.client, locals).pipe))
    ensures Drain(s.client, locals).BridgeBroke?
            ==> Onward(rules, start, Going(s), Locals(locals), length)
                == BridgeFails(Drain(s.client, locals).fault)
    decreases |locals|
  {
    if locals != [] {
      LocalNext(rules, start, s, locals[0], length);
      assert Locals(locals)[0] == ClientSteps(locals[0]) && Locals(locals)[1..] == Locals(locals[1..]);
      match Take(s.client, locals[0])
      case Disabled => DrainsOn(rules, start, s, locals[1..], length);
      case On(q) => DrainsOn(rules, start, s.(client := q), locals[1..], length);
      case BridgeBroke(fault) => Stopped(rules, start, BridgeFails(fault), Locals(locals[1..]), length);
      case GateBroke(_) =>
    }
  }

  lemma Overtaken<S>(rules: Rules<S>, start: StartRecord, s: System<S>, step: SystemStep, length: FrameLength)
    requires Inv(s.client) && Overtakes(s, step) && Next(rules, start, s, step, length).Going?
    ensures var t := Next(rules, start, s, step, length).system;
            && L.Overdue(t.client) && t.client.bridge.hookReady
            && (ForClient(s, step).value.opening.Offered() ==> t.client.bridge.world.Fetching?)
  {
    NextForClient(rules, start, s, step, length);
    L.SupersededIsOverdue(s.client, ForClient(s, step).value);
  }

  /** The converse of `EveryRunUnovertaken`: once a load was overtaken in a game that
      was not told to end, the run fails if only what is on its way is worked off. */
  lemma OvertakenFails<S>(rules: Rules<S>, start: StartRecord, s: System<S>, step: SystemStep, length: FrameLength)
    returns (locals: seq<PipeStep>, fault: B.BridgeFault)
    requires SystemInv(rules, start, s, length) && Overtakes(s, step) && Next(rules, start, s, step, length).Going?
    requires !L.Ending(Next(rules, start, s, step, length).system.client)
    ensures OnlyDrains(locals) && LoadFault(fault)
    ensures Onward(rules, start, Next(rules, start, s, step, length), Locals(locals), length) == BridgeFails(fault)
    ensures ForClient(s, step).value.opening.Offered() ==> fault.NobodyOrdered?
  {
    var t := Next(rules, start, s, step, length).system;
    Overtaken(rules, start, s, step, length);
    NextKeeps(rules, start, s, step, length);
    locals, fault :=
      DrainFails(t.client, Place(t.life.lines, t.wire, t.connected, CurrentHistory(t.life.room.game)));
    DrainsOn(rules, start, t, locals, length);
  }

  /** So for every run: it can go on to fail right after a load was overtaken. */
  lemma EveryOvertakenRun<S>(rules: Rules<S>, start: StartRecord, steps: seq<SystemStep>, s: System<S>,
                             step: SystemStep, t: System<S>, length: FrameLength)
    returns (locals: seq<PipeStep>, fault: B.BridgeFault)
    requires start.base.None? && Reached(rules, start, steps, length) == Going(s)
    requires Overtakes(s, step) && Next(rules, start, s, step, length) == Going(t) && !L.Ending(t.client)
    ensures OnlyDrains(locals) && LoadFault(fault)
    ensures Reached(rules, start, steps + [step] + Locals(locals), length) == BridgeFails(fault)
    ensures ForClient(s, step).value.opening.Offered() ==> fault.NobodyOrdered?
  {
    EveryRun(rules, start, steps, length);
    locals, fault := OvertakenFails(rules, start, s, step, length);
    ReachedNext(rules, start, steps, step, length);
    ReachedOn(rules, start, steps + [step], Locals(locals), length);
  }

  /** And in whatever order it goes on with what is on its way: it has failed, or there
      is something left to work off. */
  lemma {:induction false} EveryOvertakenDrain<S>(rules: Rules<S>, start: StartRecord, steps: seq<SystemStep>,
                                                  s: System<S>, step: SystemStep, t: System<S>,
                                                  locals: seq<PipeStep>, length: FrameLength)
    requires start.base.None? && Reached(rules, start, steps, length) == Going(s)
    requires Overtakes(s, step) && Next(rules, start, s, step, length) == Going(t) && !L.Ending(t.client)
    requires OnlyDrains(locals)
    ensures match Reached(rules, start, steps + [step] + Locals(locals), length)
            case BridgeFails(fault) => LoadFault(fault)
            case Going(u) => !Drained(u.client) && Moved(t.client, locals) <= L.Work(t.client)
            case _ => false
  {
    ReachedNext(rules, start, steps, step, length);
    ReachedOn(rules, start, steps + [step], Locals(locals), length);
    OvertakenDrains(rules, start, steps, s, step, t, locals, length);
    DrainsOn(rules, start, t, locals, length);
  }

  lemma {:induction false} OvertakenDrains<S>(rules: Rules<S>, start: StartRecord, steps: seq<SystemStep>, s: System<S>,
                           step: SystemStep, t: System<S>, locals: seq<PipeStep>, length: FrameLength)
    requires start.base.None? && Reached(rules, start, steps, length) == Going(s)
    requires Overtakes(s, step) && Next(rules, start, s, step, length) == Going(t) && !L.Ending(t.client)
    requires OnlyDrains(locals)
    ensures match Drain(t.client, locals)
            case On(q) => !Drained(q) && Moved(t.client, locals) <= L.Work(t.client)
            case BridgeBroke(fault) => LoadFault(fault)
            case _ => false
  {
    EveryRun(rules, start, steps, length);
    Overtaken(rules, start, s, step, length);
    NextKeeps(rules, start, s, step, length);
    EveryDrain(t.client, Place(t.life.lines, t.wire, t.connected, CurrentHistory(t.life.room.game)), locals);
  }
}

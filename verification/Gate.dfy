/**
The hook's side of a session: the gate before every step
(crates/tpf3mp-bridge/src/gate.rs) and the discipline in which the session
reads messages at it (crates/tpf3mp-bridge/src/session.rs).
*/
module Gate {
  import opened Protocol

  /** A file with a world, and the snapshot whose world it is. */
  datatype File = File(path: string, snapshot: nat)

  datatype ToHook =
    | Hello
    | BeginGame
    | ApplyEvent(event: Event)
    | Release(through: nat)
    | Load(file: Option<File>, nextStep: nat)
    | Speed(speed: nat)
    | Diverged(step: nat, lanes: seq<nat>)
    | Refused(command: nat, code: nat)
    | Chat(from: string, text: string)
    | End(reason: string)

  datatype GateError =
    | EventStep(expected: nat, got: nat)
    | EventAfterRelease(step: nat)
    | ReleaseBackwards(from: nat, got: nat)
    | Unexpected
    | Loading
    | Overflow

  datatype GateState = GateState(nextStep: nat, released: nat, ended: bool, loading: bool)

  datatype Gated = Failed(error: GateError) | Took(gate: GateState)

  function Before(nextStep: nat): GateState {
    GateState(nextStep, if nextStep == 0 then 0 else nextStep - 1, false, false)
  }

  predicate MayRun(g: GateState) {
    !g.ended && !g.loading && g.released >= g.nextStep
  }

  function OnMessage(g: GateState, message: ToHook): Gated {
    if g.loading && !message.End? then Failed(GateError.Loading)
    else
      match message
      case ApplyEvent(event) =>
        if event.step != g.nextStep then Failed(EventStep(g.nextStep, event.step))
        else if g.released >= g.nextStep then Failed(EventAfterRelease(event.step))
        else Took(g)
      case Release(through) =>
        if through < g.released then Failed(ReleaseBackwards(g.released, through)) else Took(g.(released := through))
      case End(_) => Took(g.(ended := true))
      case Load(_, _) => Took(g.(loading := true))
      case Hello => Failed(Unexpected)
      case BeginGame => Failed(Unexpected)
      case _ => Took(g)
  }

  function Loaded(g: GateState, nextStep: nat): GateState {
    g.(nextStep := nextStep, released := if nextStep == 0 then 0 else nextStep - 1, loading := false)
  }

  function Ran(g: GateState): Gated {
    if g.nextStep >= U64_MAX then Failed(GateError.Overflow) else Took(g.(nextStep := g.nextStep + 1))
  }

  /** The hook's end of a session: its gate, the load ordered and not finished, what
      the game has done in the world it last loaded, the file of the world it loads or
      has loaded, if not the first, and the speed it was last told. A save event
      counts as done like any other: the game saves its world there. */
  datatype SessionState = SessionState(
    gate: GateState, pending: Option<nat>, world: seq<Action>, file: Option<File>, speed: nat)

  const NORMAL: nat := 100

  datatype Handled = Broken(error: GateError) | Fine(session: SessionState)

  function Handle(s: SessionState, message: ToHook): Handled {
    match OnMessage(s.gate, message)
    case Failed(error) => Broken(error)
    case Took(gate) =>
      match message
      case ApplyEvent(event) => Fine(s.(gate := gate, world := s.world + [Apply(event)]))
      case Load(file, nextStep) => Fine(s.(gate := gate, pending := Some(nextStep), file := file))
      case Speed(speed) => Fine(s.(gate := gate, speed := speed))
      case _ => Fine(s.(gate := gate))
  }

  datatype StepGate = Running | Waiting | Ended | LoadWorld(file: Option<File>, nextStep: nat) | Fault(error: GateError)

  /** Whether the session reads another message now. */
  predicate Reads(s: SessionState) {
    !s.gate.ended && s.pending.None? && !MayRun(s.gate)
  }

  /** Handles waiting messages until the game has something to do. */
  function Poll(s: SessionState, link: seq<ToHook>): (SessionState, seq<ToHook>, StepGate)
    decreases |link|
  {
    if s.gate.ended then (s, link, Ended)
    else if s.pending.Some? then (s, link, LoadWorld(s.file, s.pending.value))
    else if MayRun(s.gate) then (s, link, Running)
    else if link == [] then (s, link, Waiting)
    else
      match Handle(s, link[0])
      case Broken(error) => (s, link[1..], Fault(error))
      case Fine(next) => Poll(next, link[1..])
  }

  /** The game ran the step the gate let through. */
  function AfterStep(s: SessionState): Handled {
    match Ran(s.gate)
    case Failed(error) => Broken(error)
    case Took(gate) => Fine(s.(gate := gate, world := s.world + [Execute(s.gate.nextStep)]))
  }

  /** The game loaded the world it was told to. */
  function FinishLoad(s: SessionState): SessionState
    requires s.pending.Some?
  {
    s.(gate := Loaded(s.gate, s.pending.value), pending := None, world := [])
  }

  datatype LoadError = NotLoading | LoadedElsewhere(expected: nat, got: nat)

  /** The hook's end of one session. The link's waiting messages are a field:
      reading takes the first. */
  class Session {
    var nextStep: nat
    var released: nat
    var ended: bool
    var loading: bool
    var pending: Option<nat>
    var file: Option<File>
    var speed: nat
    var link: seq<ToHook>
    ghost var world: seq<Action>

    ghost function State(): SessionState
      reads this
    {
      SessionState(GateState(nextStep, released, ended, loading), pending, world, file, speed)
    }

    constructor ()
      ensures State() == SessionState(Before(1), None, [], None, NORMAL) && link == []
    {
      nextStep, released, ended, loading := 1, 0, false, false;
      pending, file, speed, link, world := None, None, NORMAL, [], [];
    }

    /** The gate's part of handling one message, and the game's. */
    method Take(message: ToHook) returns (error: Option<GateError>)
      modifies this`nextStep, this`released, this`ended, this`loading, this`pending, this`file, this`speed,
               this`world
      ensures match Handle(old(State()), message)
              case Fine(next) => error == None && State() == next
              case Broken(why) => error == Some(why) && State() == old(State())
    {
      if loading && !message.End? {
        return Some(GateError.Loading);
      }
      match message {
        case ApplyEvent(event) =>
          if event.step != nextStep {
            return Some(EventStep(nextStep, event.step));
          }
          if released >= nextStep {
            return Some(EventAfterRelease(event.step));
          }
          world := world + [Apply(event)];
        case Release(through) =>
          if through < released {
            return Some(ReleaseBackwards(released, through));
          }
          released := through;
        case End(_) => ended := true;
        case Load(world, step) => loading, pending, file := true, Some(step), world;
        case Speed(told) => speed := told;
        case Hello => return Some(Unexpected);
        case BeginGame => return Some(Unexpected);
        case _ =>
      }
      error := None;
    }

    method PollStep() returns (gate: StepGate)
      modifies this
      ensures (State(), link, gate) == Poll(old(State()), old(link))
    {
      while true
        invariant Poll(State(), link) == Poll(old(State()), old(link))
        decreases |link|
      {
        if ended {
          return Ended;
        }
        if pending.Some? {
          return LoadWorld(file, pending.value);
        }
        if !ended && !loading && released >= nextStep {
          return Running;
        }
        if link == [] {
          return Waiting;
        }
        var message := link[0];
        link := link[1..];
        var error := Take(message);
        if error.Some? {
          return Fault(error.value);
        }
      }
    }

    method StepRan() returns (error: Option<GateError>)
      modifies this`nextStep, this`world
      ensures match AfterStep(old(State()))
              case Fine(next) => error == None && State() == next
              case Broken(why) => error == Some(why) && State() == old(State())
    {
      if nextStep >= U64_MAX {
        return Some(GateError.Overflow);
      }
      world := world + [Execute(nextStep)];
      nextStep := nextStep + 1;
      error := None;
    }

    method WorldLoaded(step: nat) returns (error: Option<LoadError>)
      modifies this
      ensures old(pending) == None ==> error == Some(NotLoading) && State() == old(State())
      ensures old(pending).Some? && old(pending).value != step
              ==> error == Some(LoadedElsewhere(old(pending).value, step)) && State() == old(State())
      ensures old(pending) == Some(step) ==> error == None && State() == FinishLoad(old(State()))
      ensures link == old(link)
    {
      if pending.None? {
        return Some(NotLoading);
      }
      if pending.value != step {
        return Some(LoadedElsewhere(pending.value, step));
      }
      pending := None;
      nextStep := step;
      released := if step == 0 then 0 else step - 1;
      loading := false;
      world := [];
      error := None;
    }
  }
}

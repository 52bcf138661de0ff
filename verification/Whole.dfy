/**
The whole system with a room that keeps its log on disk, rewrites it while the
game goes on and is read back from it after crashes. Whatever happens to the log,
the system is one whose room never rewrites its log, so all that is proved of
that system holds of this one.
*/
module Whole {
  import opened Protocol
  import opened Sequencer
  import opened Recovery
  import opened Lifetime
  import opened Lockstep
  import Pipeline
  import R = Rewrites

  /** The room's journal, and the system with the room's life in it. */
  datatype State<S> = State(journal: R.Journal<S>, system: System<S>)

  /** What happens to the room's log, or anything else in the system. */
  datatype WholeStep = Writes(write: R.JournalStep) | Happens(step: SystemStep)

  datatype Fate<S> = Idly | Lost(error: RecoverError) | Stops(outcome: Outcome<S>) | Goes(state: State<S>)

  /** What the room lives through when something happens to its log. */
  function InLife<S>(j: R.Journal<S>, step: R.JournalStep): Option<LifeStep> {
    match step
    case Lives(step) => if step.Crash? then None else Some(step)
    case Breaks(kept, id) => if j.firm <= kept then Some(Crash(j.base + kept - j.firm, id)) else None
    case _ => None
  }

  function Next<S>(rules: Rules<S>, start: StartRecord, s: State<S>, step: WholeStep, length: FrameLength): Fate<S> {
    match step
    case Writes(write) => Written(rules, start, s, write, R.Next(rules, start, s.journal, write, length), length)
    case Happens(step) =>
      if step.RoomSteps? then Idly else Happened(s, Lockstep.Next(rules, start, s.system, step, length))
  }

  function Written<S>(rules: Rules<S>, start: StartRecord, s: State<S>, write: R.JournalStep, next: R.Outcome<S>,
                      length: FrameLength): Fate<S>
  {
    match next
    case Off => Idly
    case Refused(error) => Lost(error)
    case Going(j) =>
      match InLife(s.journal, write)
      case None => Goes(State(j, s.system))
      case Some(life) => Happened(s.(journal := j), RoomTakes(rules, start, s.system, life, length))
  }

  function Happened<S>(s: State<S>, outcome: Outcome<S>): Fate<S> {
    match outcome
    case Idle => Idly
    case Going(system) => Goes(s.(system := system))
    case stopped => Stops(stopped)
  }

  // ----- every run

  ghost predicate WholeInv<S(!new)>(rules: Rules<S>, start: StartRecord, s: State<S>, length: FrameLength) {
    && R.JournalInv(rules, start, s.journal, length) && SystemInv(rules, start, s.system, length)
    && s.journal.life == s.system.life
  }

  ghost predicate Fares<S(!new)>(rules: Rules<S>, start: StartRecord, fate: Fate<S>, length: FrameLength) {
    match fate
    case Goes(s) => WholeInv(rules, start, s, length)
    case Stops(outcome) => MayStop(outcome)
    case Lost(_) => false
    case Idly => true
  }

  /** A write is a step of the room's life, or none. */
  lemma WritesLive<S(!new)>(rules: Rules<S>, start: StartRecord, j: R.Journal<S>, write: R.JournalStep,
                            next: R.Journal<S>, length: FrameLength)
    requires R.JournalInv(rules, start, j, length) && R.Next(rules, start, j, write, length) == R.Going(next)
    ensures match InLife(j, write)
            case None => next.life == j.life
            case Some(step) => Live(rules, start, j.life, step, length) == Some(next.life)
  {
    match write
    case Breaks(kept, id) => BreaksLive(rules, start, j, kept, id, next, length);
    case _ => QuietLives(rules, start, j, write, next, length);
  }

  lemma BreaksLive<S(!new)>(rules: Rules<S>, start: StartRecord, j: R.Journal<S>, kept: nat, id: nat,
                            next: R.Journal<S>, length: FrameLength)
    requires R.JournalInv(rules, start, j, length) && R.Broken(rules, j, kept, id, length) == R.Going(next)
    ensures j.firm <= kept && Live(rules, start, j.life, Crash(j.base + kept - j.firm, id), length) == Some(next.life)
  {
    R.BreakKeeps(rules, start, j, kept, id, length);
  }

  lemma QuietLives<S>(rules: Rules<S>, start: StartRecord, j: R.Journal<S>, write: R.JournalStep, next: R.Journal<S>,
                      length: FrameLength)
    requires R.Next(rules, start, j, write, length) == R.Going(next) && !write.Breaks?
    ensures match InLife(j, write)
            case None => next.life == j.life
            case Some(step) => Live(rules, start, j.life, step, length) == Some(next.life)
  {
  }

  lemma RoomLives<S>(rules: Rules<S>, start: StartRecord, s: System<S>, step: LifeStep, life: Life<S>,
                     length: FrameLength)
    requires Live(rules, start, s.life, step, length) == Some(life)
    ensures RoomTakes(rules, start, s, step, length).Going?
    ensures RoomTakes(rules, start, s, step, length).system.life == life
  {
  }

  lemma RoomHolds<S>(rules: Rules<S>, start: StartRecord, s: System<S>, step: LifeStep, length: FrameLength)
    requires SystemInv(rules, start, s, length)
    ensures Held(rules, start, RoomTakes(rules, start, s, step, length), length)
  {
    NextKeeps(rules, start, s, RoomSteps(step), length);
  }

  lemma HappenedFares<S(!new)>(rules: Rules<S>, start: StartRecord, s: State<S>, outcome: Outcome<S>,
                               length: FrameLength)
    requires R.JournalInv(rules, start, s.journal, length) && Held(rules, start, outcome, length)
    requires outcome.Going? ==> outcome.system.life == s.journal.life
    ensures Fares(rules, start, Happened(s, outcome), length)
  {
  }

  lemma LivedFares<S(!new)>(rules: Rules<S>, start: StartRecord, s: State<S>, step: LifeStep, length: FrameLength)
    requires R.JournalInv(rules, start, s.journal, length) && SystemInv(rules, start, s.system, length)
    requires Live(rules, start, s.system.life, step, length) == Some(s.journal.life)
    ensures Fares(rules, start, Happened(s, RoomTakes(rules, start, s.system, step, length)), length)
  {
    RoomLives(rules, start, s.system, step, s.journal.life, length);
    RoomHolds(rules, start, s.system, step, length);
    HappenedFares(rules, start, s, RoomTakes(rules, start, s.system, step, length), length);
  }

  lemma WrittenFares<S(!new)>(rules: Rules<S>, start: StartRecord, s: State<S>, write: R.JournalStep,
                              next: R.Journal<S>, length: FrameLength)
    requires WholeInv(rules, start, s, length) && R.JournalInv(rules, start, next, length)
    requires R.Next(rules, start, s.journal, write, length) == R.Going(next)
    ensures Fares(rules, start, Written(rules, start, s, write, R.Going(next), length), length)
  {
    WritesLive(rules, start, s.journal, write, next, length);
    if InLife(s.journal, write).Some? {
      LivedFares(rules, start, s.(journal := next), InLife(s.journal, write).value, length);
    }
  }

  lemma WritesFare<S(!new)>(rules: Rules<S>, start: StartRecord, s: State<S>, write: R.JournalStep, length: FrameLength)
    requires Lawful(rules) && WholeInv(rules, start, s, length)
    ensures Fares(rules, start, Next(rules, start, s, Writes(write), length), length)
  {
    R.NextKeeps(rules, start, s.journal, write, length);
    var next := R.Next(rules, start, s.journal, write, length);
    if next.Going? { WrittenFares(rules, start, s, write, next.journal, length); }
  }

  lemma OthersLeaveRoom<S>(rules: Rules<S>, start: StartRecord, s: System<S>, step: SystemStep, length: FrameLength)
    requires !step.RoomSteps? && Lockstep.Next(rules, start, s, step, length).Going?
    ensures Lockstep.Next(rules, start, s, step, length).system.life == s.life
  {
  }

  lemma OthersFare<S(!new)>(rules: Rules<S>, start: StartRecord, s: State<S>, step: SystemStep, length: FrameLength)
    requires R.JournalInv(rules, start, s.journal, length) && SystemInv(rules, start, s.system, length)
    requires s.journal.life == s.system.life && !step.RoomSteps?
    ensures Fares(rules, start, Happened(s, Lockstep.Next(rules, start, s.system, step, length)), length)
  {
    var outcome := Lockstep.Next(rules, start, s.system, step, length);
    Lockstep.NextKeeps(rules, start, s.system, step, length);
    if outcome.Going? { OthersLeaveRoom(rules, start, s.system, step, length); }
    HappenedFares(rules, start, s, outcome, length);
  }

  lemma HappensFares<S(!new)>(rules: Rules<S>, start: StartRecord, s: State<S>, step: SystemStep, length: FrameLength)
    requires WholeInv(rules, start, s, length)
    ensures Fares(rules, start, Next(rules, start, s, Happens(step), length), length)
  {
    if !step.RoomSteps? { OthersFare(rules, start, s, step, length); }
  }

  /** The system after `steps`; steps that cannot happen change nothing. */
  function Reached<S>(rules: Rules<S>, start: StartRecord, steps: seq<WholeStep>, length: FrameLength): Fate<S>
    decreases |steps|
  {
    if steps == [] then Goes(State(R.Opened(rules, start), Beginning(rules, start)))
    else
      match Reached(rules, start, Init(steps), length)
      case Goes(s) => var next := Next(rules, start, s, Last(steps), length); if next.Idly? then Goes(s) else next
      case fate => fate
  }

  lemma BeginningFares<S(!new)>(rules: Rules<S>, start: StartRecord, length: FrameLength)
    requires start.base.None?
    ensures WholeInv(rules, start, State(R.Opened(rules, start), Beginning(rules, start)), length)
  {
    R.OpenedKeeps(rules, start, length);
    Lockstep.EveryRun(rules, start, [], length);
  }

  /** Every run keeps all of it: no recovery is refused, and nothing stops the client
      but want of room or an overtaken load. */
  lemma {:induction false} EveryRun<S(!new)>(rules: Rules<S>, start: StartRecord, steps: seq<WholeStep>,
                                             length: FrameLength)
    requires Lawful(rules) && start.base.None?
    ensures Fares(rules, start, Reached(rules, start, steps, length), length)
    ensures !Reached(rules, start, steps, length).Idly?
    decreases |steps|
  {
    if steps == [] {
      BeginningFares(rules, start, length);
    } else {
      EveryRun(rules, start, Init(steps), length);
      var before := Reached(rules, start, Init(steps), length);
      if before.Goes? {
        match Last(steps)
        case Writes(write) => WritesFare(rules, start, before.state, write, length);
        case Happens(step) => HappensFares(rules, start, before.state, step, length);
      }
    }
  }

  /** Lockstep, for every run with rewrites and crashes: the game plays canonically. */
  lemma EveryRunIsCanonical<S(!new)>(rules: Rules<S>, start: StartRecord, steps: seq<WholeStep>, length: FrameLength)
    returns (h: nat, n: nat)
    requires Lawful(rules) && start.base.None? && Reached(rules, start, steps, length).Goes?
    ensures PlaysCanonically(Reached(rules, start, steps, length).state.system, h, n)
  {
    EveryRun(rules, start, steps, length);
    h, n := GameIsCanonical(rules, start, Reached(rules, start, steps, length).state.system, length);
  }

  /** And plays everything once nothing is left to do. */
  lemma {:induction false} EveryRunCatchesUp<S(!new)>(rules: Rules<S>, start: StartRecord, steps: seq<WholeStep>,
                                                      s: State<S>, length: FrameLength)
    requires Lawful(rules) && start.base.None? && Reached(rules, start, steps, length) == Goes(s)
    requires s.system.connected && s.system.wire == [] && Pipeline.AtRest(s.system.client)
    ensures s.system.client.playing.at.turn >= 1 && CaughtUp(s.system, s.system.client.playing.at.turn - 1)
  {
    HasSystem(rules, start, steps, s, length);
    CatchesUp(rules, start, s.system, length);
  }

  lemma {:induction false} HasSystem<S(!new)>(rules: Rules<S>, start: StartRecord, steps: seq<WholeStep>, s: State<S>,
                           length: FrameLength)
    requires Lawful(rules) && start.base.None? && Reached(rules, start, steps, length) == Goes(s)
    ensures SystemInv(rules, start, s.system, length)
  {
    EveryRun(rules, start, steps, length);
  }
}

/**
The room clock (crates/tpf3mp-server/src/pacing.rs): how far the sequencer may
seal. Durations are in nanoseconds, as the platform measures them; the clock
counts whole microseconds.
*/
module Pacing {
  import opened Protocol
  import F = Follower

  /** One step, in microseconds times speed percent. */
  const UNITS_PER_STEP: nat := 100_000_000

  datatype PacerState = PacerState(
    stepsPerSecond: nat, inputDelay: nat, maxAhead: nat, ideal: nat, remainder: nat)

  function Sat(n: nat): nat {
    if n > U64_MAX then U64_MAX else n
  }

  function Min(a: nat, b: nat): nat {
    if a < b then a else b
  }

  function Max(a: nat, b: nat): nat {
    if a < b then b else a
  }

  function Micros(duration: nat): nat {
    duration / 1000
  }

  /** What a duration is worth at a speed. */
  function Units(p: PacerState, duration: nat, speed: nat): nat {
    Micros(duration) * p.stepsPerSecond * speed
  }

  function CeilDiv(n: nat, d: nat): nat
    requires d > 0
  {
    n / d + if n % d > 0 then 1 else 0
  }

  function StepsIn(p: PacerState, duration: nat, speed: nat): nat {
    Sat(CeilDiv(Units(p, duration, speed), UNITS_PER_STEP))
  }

  function Lead(p: PacerState, speed: nat): nat {
    if speed == 0 then 0 else Max(StepsIn(p, p.inputDelay, speed), 1)
  }

  function Window(p: PacerState, speed: nat): nat {
    var pace := Max(speed, F.NORMAL_SPEED);
    Lead(p, pace) + StepsIn(p, p.maxAhead, pace)
  }

  function ResumeAt(p: PacerState, step: nat): PacerState {
    p.(ideal := step, remainder := 0)
  }

  /** The clock after `elapsed`, before anyone holds it back. */
  function Ticked(p: PacerState, elapsed: nat, speed: nat): PacerState {
    if speed == 0 then p
    else
      var units := p.remainder + Units(p, elapsed, speed);
      p.(ideal := Sat(p.ideal + Sat(units / UNITS_PER_STEP)), remainder := units % UNITS_PER_STEP)
  }

  /** How far the slowest follower lets the frontier run. */
  function Cap(p: PacerState, speed: nat, slowest: nat): nat {
    Sat(slowest + Window(p, speed))
  }

  /** The clock and the new frontier. */
  function Advance(p: PacerState, elapsed: nat, speed: nat, slowest: Option<nat>, sealed: nat): (PacerState, nat) {
    match slowest
    case None => (p, sealed)
    case Some(step) =>
      var t := Ticked(p, elapsed, speed);
      var lead, cap := Lead(p, speed), Cap(p, speed, step);
      if Sat(t.ideal + lead) > cap then
        (t.(ideal := Min(t.ideal, if cap < lead then 0 else cap - lead), remainder := 0), Max(cap, sealed))
      else (t, Max(Sat(t.ideal + lead), sealed))
  }

  // ----- arithmetic

  lemma MulMonotone(a: nat, b: nat, c: nat)
    requires b <= c
    ensures a * b <= a * c
  {
    assert a * (c - b) >= 0;
  }

  lemma CeilDivMonotone(a: nat, b: nat, d: nat)
    requires a <= b && d > 0
    ensures CeilDiv(a, d) <= CeilDiv(b, d)
  {
    DivMonotone(a, b, d);
    if a / d == b / d { assert a % d <= b % d; }
  }

  lemma DivMonotone(a: nat, b: nat, d: nat)
    requires a <= b && d > 0
    ensures a / d <= b / d
    ensures a / d == b / d ==> a % d <= b % d
  {
    var x, y := a / d, b / d;
    assert a == d * x + a % d && b == d * y + b % d;
    assert d * (y + 1) == d * y + d;
    if x > y { MulMonotone(d, y + 1, x); }
  }

  lemma StepsInMonotone(p: PacerState, duration: nat, slow: nat, fast: nat)
    requires slow <= fast
    ensures StepsIn(p, duration, slow) <= StepsIn(p, duration, fast)
  {
    MulMonotone(Micros(duration) * p.stepsPerSecond, slow, fast);
    CeilDivMonotone(Units(p, duration, slow), Units(p, duration, fast), UNITS_PER_STEP);
  }

  // ----- lead and window

  /** `steps` take at least the whole microseconds of `duration` at `speed` percent. */
  predicate Covers(p: PacerState, steps: nat, duration: nat, speed: nat) {
    steps * UNITS_PER_STEP >= Micros(duration) * p.stepsPerSecond * speed
  }

  lemma CeilIsLeast(n: nat, d: nat, k: nat)
    requires d > 0
    ensures CeilDiv(n, d) * d >= n && (k * d >= n ==> CeilDiv(n, d) <= k)
  {
    var q, r := n / d, n % d;
    assert n == q * d + r && (q + 1) * d == q * d + d;
    if k < CeilDiv(n, d) {
      if k <= q - 1 { MulMonotone(d, k, q - 1); assert (q - 1) * d == q * d - d; }
    }
  }

  /** The steps in a duration are the fewest that cover it, up to the last number. */
  lemma StepsAreLeast(p: PacerState, duration: nat, speed: nat, steps: nat)
    ensures StepsIn(p, duration, speed) <= U64_MAX
    ensures StepsIn(p, duration, speed) < U64_MAX ==> Covers(p, StepsIn(p, duration, speed), duration, speed)
    ensures steps <= U64_MAX && Covers(p, steps, duration, speed) ==> StepsIn(p, duration, speed) <= steps
  {
    CeilIsLeast(Units(p, duration, speed), UNITS_PER_STEP, steps);
  }

  /** The lead is the fewest steps that cover the input delay, and at least one; none
      in a pause. */
  lemma LeadIsLeast(p: PacerState, speed: nat, steps: nat)
    ensures speed == 0 ==> Lead(p, speed) == 0
    ensures speed > 0 ==> 1 <= Lead(p, speed) <= U64_MAX
    ensures speed > 0 && Lead(p, speed) < U64_MAX ==> Covers(p, Lead(p, speed), p.inputDelay, speed)
    ensures speed > 0 && 1 <= steps <= U64_MAX && Covers(p, steps, p.inputDelay, speed) ==> Lead(p, speed) <= steps
  {
    StepsAreLeast(p, p.inputDelay, speed, steps);
    if speed > 0 && StepsIn(p, p.inputDelay, speed) == 0 {
      assert Covers(p, 0, p.inputDelay, speed) && Micros(p.inputDelay) * p.stepsPerSecond * speed == 0;
    }
  }

  /** The window is the lead and the fewest steps that cover what a follower may be
      behind, at the room's pace or the normal one, whichever is faster. */
  lemma WindowIsLeast(p: PacerState, speed: nat, steps: nat)
    ensures var pace := if speed > F.NORMAL_SPEED then speed else F.NORMAL_SPEED;
            && Lead(p, pace) <= Window(p, speed)
            && (Window(p, speed) - Lead(p, pace) < U64_MAX
                ==> Covers(p, Window(p, speed) - Lead(p, pace), p.maxAhead, pace))
            && (steps <= U64_MAX && Covers(p, steps, p.maxAhead, pace) ==> Window(p, speed) - Lead(p, pace) <= steps)
  {
    StepsAreLeast(p, p.maxAhead, Max(speed, F.NORMAL_SPEED), steps);
  }

  /** The window always leaves room for the lead. */
  lemma WindowHoldsLead(p: PacerState, speed: nat)
    ensures Lead(p, speed) <= Window(p, speed)
  {
    StepsInMonotone(p, p.inputDelay, speed, Max(speed, F.NORMAL_SPEED));
  }

  /** What a remainder and some more make is at most the steps the more covers. */
  lemma CarryAtMostCeil(remainder: nat, units: nat)
    requires remainder < UNITS_PER_STEP
    ensures (remainder + units) / UNITS_PER_STEP <= CeilDiv(units, UNITS_PER_STEP)
  {
  }

  // ----- conservation

  /** The clock in units. */
  function Clock(p: PacerState): nat {
    p.ideal * UNITS_PER_STEP + p.remainder
  }

  /** Nobody holds the tick back and no counter ends. */
  predicate Free(p: PacerState, elapsed: nat, speed: nat, slowest: nat) {
    var whole := (p.remainder + Units(p, elapsed, speed)) / UNITS_PER_STEP;
    p.ideal + whole <= U64_MAX && Sat(p.ideal + whole + Lead(p, speed)) <= Cap(p, speed, slowest)
  }

  /** A free tick gains exactly the units of its whole microseconds. */
  lemma Conserves(p: PacerState, elapsed: nat, speed: nat, slowest: nat, sealed: nat)
    requires speed > 0 && p.remainder < UNITS_PER_STEP && Free(p, elapsed, speed, slowest)
    ensures var (q, frontier) := Advance(p, elapsed, speed, Some(slowest), sealed);
            && Clock(q) == Clock(p) + Units(p, elapsed, speed) && q.remainder < UNITS_PER_STEP
            && q == p.(ideal := q.ideal, remainder := q.remainder)
  {
  }

  datatype Tick = Tick(elapsed: nat, slowest: nat, sealed: nat)

  function Run(p: PacerState, speed: nat, ticks: seq<Tick>): PacerState
    decreases |ticks|
  {
    if ticks == [] then p
    else
      Advance(Run(p, speed, Init(ticks)), Last(ticks).elapsed, speed, Some(Last(ticks).slowest), Last(ticks).sealed).0
  }

  predicate FreeRun(p: PacerState, speed: nat, ticks: seq<Tick>)
    decreases |ticks|
  {
    ticks == []
    || (FreeRun(p, speed, Init(ticks))
        && Free(Run(p, speed, Init(ticks)), Last(ticks).elapsed, speed, Last(ticks).slowest))
  }

  /** Whole microseconds, tick by tick. */
  function MicrosIn(ticks: seq<Tick>): nat
    decreases |ticks|
  {
    if ticks == [] then 0 else MicrosIn(Init(ticks)) + Micros(Last(ticks).elapsed)
  }

  /** Over any run of free ticks at one speed the clock gains exactly what the whole
      microseconds of the ticks are worth, however they are spread. */
  lemma {:induction false} RunConserves(p: PacerState, speed: nat, ticks: seq<Tick>)
    requires speed > 0 && p.remainder < UNITS_PER_STEP && FreeRun(p, speed, ticks)
    ensures var q := Run(p, speed, ticks);
            && Clock(q) == Clock(p) + MicrosIn(ticks) * p.stepsPerSecond * speed
            && q.remainder < UNITS_PER_STEP && q == p.(ideal := q.ideal, remainder := q.remainder)
    decreases |ticks|
  {
    if ticks != [] {
      RunConserves(p, speed, Init(ticks));
      var r, last := Run(p, speed, Init(ticks)), Last(ticks);
      Conserves(r, last.elapsed, speed, last.slowest, last.sealed);
      Distribute(MicrosIn(Init(ticks)), Micros(last.elapsed), p.stepsPerSecond, speed);
    }
  }

  lemma Distribute(a: nat, b: nat, c: nat, d: nat)
    ensures (a + b) * c * d == a * c * d + b * c * d
  {
  }

  /** Splitting a tick in two loses nothing exactly when the parts' fractions of a
      microsecond do not make a whole one. */
  lemma SplitExactly(a: nat, b: nat)
    ensures Micros(a) + Micros(b) == Micros(a + b) <==> a % 1000 + b % 1000 < 1000
    ensures Micros(a + b) - 1 <= Micros(a) + Micros(b) <= Micros(a + b)
  {
  }

  /** Two ticks come to one longer tick exactly then, unless the clock stands. */
  lemma SplitTick(p: PacerState, a: nat, b: nat, speed: nat, slowest: nat, sealed: nat)
    requires speed > 0 && p.stepsPerSecond > 0 && p.remainder < UNITS_PER_STEP
    requires Free(p, a, speed, slowest) && Free(p, a + b, speed, slowest)
    requires Free(Advance(p, a, speed, Some(slowest), sealed).0, b, speed, slowest)
    ensures var once := Advance(p, a + b, speed, Some(slowest), sealed).0;
            var twice := Advance(Advance(p, a, speed, Some(slowest), sealed).0, b, speed, Some(slowest), sealed).0;
            once == twice <==> a % 1000 + b % 1000 < 1000
  {
    var first := Advance(p, a, speed, Some(slowest), sealed).0;
    Conserves(p, a, speed, slowest, sealed);
    Conserves(first, b, speed, slowest, sealed);
    Conserves(p, a + b, speed, slowest, sealed);
    SplitExactly(a, b);
    Distribute(Micros(a), Micros(b), p.stepsPerSecond, speed);
    if a % 1000 + b % 1000 >= 1000 {
      assert Micros(a + b) == Micros(a) + Micros(b) + 1;
      Distribute(Micros(a) + Micros(b), 1, p.stepsPerSecond, speed);
      assert 1 * p.stepsPerSecond * speed > 0;
    }
  }

  /** A microsecond in two ticks of half a microsecond is lost. */
  lemma SplittingLoses()
    ensures var p := PacerState(5, 0, 2_000_000_000, 0, 0);
            var half := Advance(p, 500, F.NORMAL_SPEED, Some(0), 0).0;
            && Clock(Advance(p, 1000, F.NORMAL_SPEED, Some(0), 0).0) == 500
            && Clock(Advance(half, 500, F.NORMAL_SPEED, Some(0), 0).0) == 0
  {
    var p := PacerState(5, 0, 2_000_000_000, 0, 0);
    assert Lead(p, F.NORMAL_SPEED) == 1 && Window(p, F.NORMAL_SPEED) == 11;
  }

  // ----- no debt

  /** The clock is not ahead of the frontier. */
  predicate NoDebt(p: PacerState, speed: nat, sealed: nat) {
    p.remainder < UNITS_PER_STEP && Sat(p.ideal + Lead(p, speed)) <= sealed
  }

  /** After any unheld tick, whatever debt the clock had, it has none. */
  lemma TickSettles(p: PacerState, elapsed: nat, speed: nat, slowest: nat, sealed: nat)
    requires p.remainder < UNITS_PER_STEP
    ensures var (q, frontier) := Advance(p, elapsed, speed, Some(slowest), sealed);
            NoDebt(q, speed, frontier) && sealed <= frontier && frontier <= Max(sealed, Cap(p, speed, slowest))
  {
    WindowHoldsLead(p, speed);
    var (q, frontier) := Advance(p, elapsed, speed, Some(slowest), sealed);
    assert Lead(q, speed) == Lead(p, speed);
  }

  /** A clock without debt gains at most the steps the elapsed time covers, and
      stays without debt. A held tick moves nothing. */
  lemma TickGains(p: PacerState, elapsed: nat, speed: nat, slowest: Option<nat>, sealed: nat)
    requires NoDebt(p, speed, sealed)
    ensures var (q, frontier) := Advance(p, elapsed, speed, slowest, sealed);
            && sealed <= frontier <= sealed + CeilDiv(Units(p, elapsed, speed), UNITS_PER_STEP)
            && NoDebt(q, speed, frontier) && q == p.(ideal := q.ideal, remainder := q.remainder)
            && (slowest.None? ==> q == p && frontier == sealed)
  {
    if slowest.Some? {
      CarryAtMostCeil(p.remainder, Units(p, elapsed, speed));
      TickSettles(p, elapsed, speed, slowest.value, sealed);
    }
  }

  datatype Held = Held(elapsed: nat, slowest: Option<nat>)

  function Frontier(p: PacerState, speed: nat, sealed: nat, ticks: seq<Held>): (PacerState, nat)
    decreases |ticks|
  {
    if ticks == [] then (p, sealed)
    else
      var (q, frontier) := Frontier(p, speed, sealed, Init(ticks));
      Advance(q, Last(ticks).elapsed, speed, Last(ticks).slowest, frontier)
  }

  function Covered(p: PacerState, speed: nat, ticks: seq<Held>): nat
    decreases |ticks|
  {
    if ticks == [] then 0
    else Covered(p, speed, Init(ticks))
         + if Last(ticks).slowest.None? then 0 else CeilDiv(Units(p, Last(ticks).elapsed, speed), UNITS_PER_STEP)
  }

  /** However long the room was held or capped, it never rushes: over any ticks at
      one speed the frontier gains at most what the unheld ticks cover. */
  lemma {:induction false} NeverRushes(p: PacerState, speed: nat, sealed: nat, ticks: seq<Held>)
    requires NoDebt(p, speed, sealed)
    ensures var (q, frontier) := Frontier(p, speed, sealed, ticks);
            && sealed <= frontier <= sealed + Covered(p, speed, ticks)
            && NoDebt(q, speed, frontier) && q == p.(ideal := q.ideal, remainder := q.remainder)
    decreases |ticks|
  {
    if ticks != [] {
      NeverRushes(p, speed, sealed, Init(ticks));
      var (q, frontier) := Frontier(p, speed, sealed, Init(ticks));
      TickGains(q, Last(ticks).elapsed, speed, Last(ticks).slowest, frontier);
    }
  }

  // ----- in place

  class Pacer {
    const stepsPerSecond: nat
    const inputDelay: nat
    const maxAhead: nat
    var ideal: nat
    var remainder: nat

    ghost function State(): PacerState
      reads this
    {
      PacerState(stepsPerSecond, inputDelay, maxAhead, ideal, remainder)
    }

    constructor (stepsPerSecond: nat, inputDelay: nat, maxAhead: nat)
      ensures State() == PacerState(stepsPerSecond, inputDelay, maxAhead, 0, 0)
    {
      this.stepsPerSecond, this.inputDelay, this.maxAhead := stepsPerSecond, inputDelay, maxAhead;
      ideal, remainder := 0, 0;
    }

    method Resume(step: nat)
      modifies this
      ensures State() == ResumeAt(old(State()), step)
    {
      ideal, remainder := step, 0;
    }

    method Tick(elapsed: nat, speed: nat, slowest: Option<nat>, sealed: nat) returns (frontier: nat)
      modifies this
      ensures (State(), frontier) == Advance(old(State()), elapsed, speed, slowest, sealed)
    {
      if slowest.None? {
        return sealed;
      }
      var p := PacerState(stepsPerSecond, inputDelay, maxAhead, ideal, remainder);
      if speed != 0 {
        var units := remainder + Units(p, elapsed, speed);
        ideal := Sat(ideal + Sat(units / UNITS_PER_STEP));
        remainder := units % UNITS_PER_STEP;
      }
      var lead := Lead(p, speed);
      var cap := Sat(slowest.value + Window(p, speed));
      frontier := Sat(ideal + lead);
      if frontier > cap {
        frontier := cap;
        ideal := Min(ideal, if cap < lead then 0 else cap - lead);
        remainder := 0;
      }
      frontier := Max(frontier, sealed);
    }
  }
}

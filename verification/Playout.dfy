/**
When a client plays each sealed step (crates/tpf3mp-agent/src/playout.rs): a
jitter buffer that plays a margin after the latest arrival seen recently.

The buffer keeps a queue of arrivals whose implied times only fall. It is
proved to be a sliding-window maximum: its front is the latest implied time of
every arrival, since the schedule last started over, no older than `memory`.

Times are nanoseconds on an unbounded clock that starts at zero, so adding to
a time never fails and moving before zero does.
*/
module Playout {
  import opened Protocol

  const NORMAL: nat := 100
  const CONVERGE_PERCENT: nat := 105
  const FAST_FORWARD: nat := 1_000_000_000

  /** When a turn arrived, and when the schedule's base step would have arrived
      had it come like this one. */
  datatype Arrival = Arrival(time: nat, implied: nat)

  type Positive = n: nat | n >= 1 witness 1

  datatype PlayoutState = PlayoutState(
    stepsPerSecond: Positive, margin: nat, memory: nat, pace: nat, paused: bool, frontier: nat,
    base: Option<nat>, recent: seq<Arrival>, played: Option<(nat, nat)>)

  function Start(stepsPerSecond: nat, margin: nat, memory: nat): PlayoutState {
    PlayoutState(if stepsPerSecond == 0 then 1 else stepsPerSecond, margin, memory, NORMAL, false, 0, None, [], None)
  }

  /** The time `steps` take at the pace, sped up to `percent`. */
  function Span(p: PlayoutState, steps: nat, percent: Positive): nat {
    var units := p.stepsPerSecond * (if p.pace == 0 then 1 else p.pace) * percent;
    var micros := steps * 10_000_000_000 / units;
    1000 * if micros <= U64_MAX then micros else U64_MAX
  }

  function Earlier(p: PlayoutState, at: nat, steps: nat): nat {
    if at >= Span(p, steps, 100) then at - Span(p, steps, 100) else at
  }

  function Ideal(p: PlayoutState, step: nat): Option<nat> {
    if p.base.None? || p.recent == [] then None
    else
      var base, implied := p.base.value, p.recent[0].implied;
      Some(p.margin + if step >= base then implied + Span(p, step - base, 100) else Earlier(p, implied, base - step))
  }

  function Due(p: PlayoutState, step: nat, now: nat): Option<nat> {
    if step > p.frontier then None
    else
      match Ideal(p, step)
      case None => Some(now)
      case Some(ideal) =>
        if p.played.Some? && ideal + FAST_FORWARD > now
        then Some(Max(ideal, p.played.value.1 + Span(p, 1, CONVERGE_PERCENT)))
        else Some(ideal)
  }

  function Max(a: nat, b: nat): nat {
    if a < b then b else a
  }

  function Played(p: PlayoutState, step: nat, due: nat): PlayoutState {
    p.(played := Some((step, due)))
  }

  /** The arrivals that still imply a later time than `implied`. */
  function DropOvertaken(recent: seq<Arrival>, implied: nat): seq<Arrival>
    decreases |recent|
  {
    if recent != [] && Last(recent).implied <= implied then DropOvertaken(Init(recent), implied) else recent
  }

  /** Forgets arrivals older than `memory`, but never the newest. */
  function DropOld(recent: seq<Arrival>, now: nat, memory: nat): seq<Arrival> {
    if |recent| > 1 && now - recent[0].time > memory then DropOld(recent[1..], now, memory) else recent
  }

  function Remember(recent: seq<Arrival>, arrival: Arrival, memory: nat): seq<Arrival> {
    DropOld(DropOvertaken(recent, arrival.implied) + [arrival], arrival.time, memory)
  }

  /** Starts a new schedule at the current pace. */
  function Rebase(p: PlayoutState, now: nat): PlayoutState {
    match p.played
    case None => p.(recent := [], base := None)
    case Some((step, last)) =>
      var next := Max(last + Span(p, 1, 100), now);
      var implied := if next >= p.margin then next - p.margin else next;
      p.(recent := Remember([], Arrival(now, implied), p.memory), base := Some(step + 1))
  }

  function Repace(p: PlayoutState, speed: nat, now: nat): PlayoutState {
    if speed == 0 then p.(paused := true)
    else if p.paused || speed != p.pace then Rebase(p.(paused := false, pace := speed), now)
    else p
  }

  /** Records a turn accepted at `now`. */
  function OnTurn(p: PlayoutState, sealed: nat, speed: nat, now: nat): PlayoutState {
    Arrive(Repace(p, speed, now), sealed, now)
  }

  function Arrive(p: PlayoutState, sealed: nat, now: nat): PlayoutState {
    if sealed <= p.frontier then p
    else
      p.(frontier := sealed, base := if p.base.Some? then p.base else Some(sealed),
         recent := Remember(p.recent, ArrivalOf(p, sealed, now), p.memory))
  }

  function ArrivalOf(p: PlayoutState, sealed: nat, now: nat): Arrival {
    Arrival(now, Earlier(p, now, if p.base.Some? && sealed >= p.base.value then sealed - p.base.value else 0))
  }

  // ----- the buffer is a sliding-window maximum

  predicate Timely(arrivals: seq<Arrival>) {
    forall i, j | 0 <= i < j < |arrivals| :: arrivals[i].time <= arrivals[j].time
  }

  predicate Falling(recent: seq<Arrival>) {
    forall i, j | 0 <= i < j < |recent| :: recent[i].implied > recent[j].implied
  }

  predicate Fresh(arrival: Arrival, now: nat, memory: nat) {
    now - arrival.time <= memory
  }

  /** Some remembered arrival came no earlier than `arrival` and implies no
      earlier a time. */
  predicate Covered(arrival: Arrival, recent: seq<Arrival>) {
    exists k :: 0 <= k < |recent| && recent[k].time >= arrival.time && recent[k].implied >= arrival.implied
  }

  /** `recent` summarises `arrivals` as of the newest of them. */
  ghost predicate Buffers(recent: seq<Arrival>, arrivals: seq<Arrival>, memory: nat) {
    && (arrivals == [] <==> recent == [])
    && Timely(recent) && Falling(recent)
    && (arrivals != [] ==>
          && Drawn(recent, arrivals, Last(arrivals).time, memory)
          && Covers(recent, arrivals, Last(arrivals).time, memory))
  }

  /** Every remembered arrival is one of `arrivals`, and fresh. */
  predicate Drawn(recent: seq<Arrival>, arrivals: seq<Arrival>, now: nat, memory: nat) {
    forall k | 0 <= k < |recent| :: recent[k] in arrivals && Fresh(recent[k], now, memory)
  }

  /** Every fresh arrival is covered. */
  predicate Covers(recent: seq<Arrival>, arrivals: seq<Arrival>, now: nat, memory: nat) {
    forall i {:trigger Covered(arrivals[i], recent)} | 0 <= i < |arrivals| && Fresh(arrivals[i], now, memory) ::
      Covered(arrivals[i], recent)
  }

  lemma {:induction false} DropOvertakenIsPrefix(recent: seq<Arrival>, implied: nat)
    requires Falling(recent)
    ensures DropOvertaken(recent, implied) <= recent
    ensures forall k | 0 <= k < |recent| ::
              recent[k].implied > implied <==> k < |DropOvertaken(recent, implied)|
    decreases |recent|
  {
    if recent != [] {
      if Last(recent).implied <= implied {
        DropOvertakenIsPrefix(Init(recent), implied);
      } else {
        forall k | 0 <= k < |recent| ensures recent[k].implied > implied {
          if k < |recent| - 1 { assert recent[k].implied > recent[|recent| - 1].implied; }
        }
      }
    }
  }

  lemma {:induction false} DropOldIsSuffix(recent: seq<Arrival>, now: nat, memory: nat) returns (k: nat)
    requires recent != [] && Timely(recent) && Last(recent).time == now
    ensures k < |recent| && DropOld(recent, now, memory) == recent[k..]
    ensures forall i | 0 <= i < |recent| :: Fresh(recent[i], now, memory) <==> k <= i
  {
    if |recent| > 1 && now - recent[0].time > memory {
      var j := DropOldIsSuffix(recent[1..], now, memory);
      k := j + 1;
      assert recent[1..][j..] == recent[k..];
      forall i | 0 <= i < |recent| ensures Fresh(recent[i], now, memory) <==> k <= i {
        if i > 0 { assert recent[i] == recent[1..][i - 1]; }
      }
    } else {
      k := 0;
      assert recent[0..] == recent;
      forall i | 0 <= i < |recent| ensures Fresh(recent[i], now, memory) {
        if i > 0 { assert recent[0].time <= recent[i].time; }
      }
    }
  }

  /** A summary that may still hold arrivals gone old. */
  ghost predicate Loose(recent: seq<Arrival>, arrivals: seq<Arrival>, now: nat, memory: nat) {
    && Timely(recent) && Falling(recent)
    && (forall k | 0 <= k < |recent| :: recent[k] in arrivals)
    && Covers(recent, arrivals, now, memory)
  }

  lemma {:induction false} OvertakeOrder(recent: seq<Arrival>, arrival: Arrival)
    requires Timely(recent) && Falling(recent)
    requires forall k | 0 <= k < |recent| :: recent[k].time <= arrival.time
    ensures var kept := DropOvertaken(recent, arrival.implied) + [arrival]; Timely(kept) && Falling(kept)
  {
    DropOvertakenIsPrefix(recent, arrival.implied);
  }

  lemma {:induction false} OvertakeCovers(recent: seq<Arrival>, arrival: Arrival, a: Arrival)
    requires Falling(recent) && Covered(a, recent)
    requires forall k | 0 <= k < |recent| :: recent[k].time <= arrival.time
    ensures Covered(a, DropOvertaken(recent, arrival.implied) + [arrival])
  {
    DropOvertakenIsPrefix(recent, arrival.implied);
    var left := DropOvertaken(recent, arrival.implied);
    var kept := left + [arrival];
    var k :| 0 <= k < |recent| && recent[k].time >= a.time && recent[k].implied >= a.implied;
    if k < |left| { assert kept[k] == recent[k]; } else { assert kept[|left|] == arrival; }
  }

  /** With the new arrival in place of those it overtakes, every fresh arrival is
      still covered. */
  lemma {:induction false} Overtake(recent: seq<Arrival>, arrivals: seq<Arrival>, arrival: Arrival, memory: nat)
    requires Buffers(recent, arrivals, memory)
    requires forall i | 0 <= i < |arrivals| :: arrivals[i].time <= arrival.time
    ensures Loose(DropOvertaken(recent, arrival.implied) + [arrival], arrivals + [arrival], arrival.time, memory)
  {
    var kept, all := DropOvertaken(recent, arrival.implied) + [arrival], arrivals + [arrival];
    assert forall k | 0 <= k < |recent| :: recent[k].time <= arrival.time && recent[k] in arrivals;
    assert Timely(kept) && Falling(kept) by { OvertakeOrder(recent, arrival); }
    assert forall k | 0 <= k < |kept| :: kept[k] in all by {
      DropOvertakenIsPrefix(recent, arrival.implied);
    }
    forall i | 0 <= i < |all| && Fresh(all[i], arrival.time, memory) ensures Covered(all[i], kept) {
      if i < |arrivals| {
        assert Covered(arrivals[i], recent);
        OvertakeCovers(recent, arrival, arrivals[i]);
      } else {
        assert kept[|kept| - 1] == arrival;
      }
    }
  }

  lemma {:induction false} Forget(kept: seq<Arrival>, arrivals: seq<Arrival>, now: nat, memory: nat)
    requires kept != [] && Last(kept).time == now && Loose(kept, arrivals, now, memory)
    ensures var after := DropOld(kept, now, memory);
            && after != [] && Timely(after) && Falling(after)
            && Drawn(after, arrivals, now, memory) && Covers(after, arrivals, now, memory)
  {
    var n := DropOldIsSuffix(kept, now, memory);
    var after := kept[n..];
    forall i | 0 <= i < |arrivals| && Fresh(arrivals[i], now, memory) ensures Covered(arrivals[i], after) {
      assert Covered(arrivals[i], kept);
      StaysCovered(arrivals[i], kept, n, now, memory);
    }
  }

  /** One more arrival keeps the summary. */
  lemma RememberBuffers(recent: seq<Arrival>, arrivals: seq<Arrival>, arrival: Arrival, memory: nat)
    requires Buffers(recent, arrivals, memory) && Timely(arrivals)
    requires forall i | 0 <= i < |arrivals| :: arrivals[i].time <= arrival.time
    ensures Timely(arrivals + [arrival])
    ensures Buffers(Remember(recent, arrival, memory), arrivals + [arrival], memory)
  {
    Overtake(recent, arrivals, arrival, memory);
    Forget(DropOvertaken(recent, arrival.implied) + [arrival], arrivals + [arrival], arrival.time, memory);
  }

  lemma StaysCovered(a: Arrival, kept: seq<Arrival>, n: nat, now: nat, memory: nat)
    requires Covered(a, kept) && Fresh(a, now, memory) && n <= |kept|
    requires forall i | 0 <= i < |kept| :: Fresh(kept[i], now, memory) <==> n <= i
    ensures Covered(a, kept[n..])
  {
    var k :| 0 <= k < |kept| && kept[k].time >= a.time && kept[k].implied >= a.implied;
    assert Fresh(kept[k], now, memory);
    assert kept[n..][k - n] == kept[k];
  }

  /** The front of the buffer is the maximum implied time over all arrivals no
      older than `memory` at the newest one, and it is one of theirs. */
  lemma FrontIsWindowMaximum(recent: seq<Arrival>, arrivals: seq<Arrival>, memory: nat)
    requires Buffers(recent, arrivals, memory) && arrivals != []
    ensures exists i :: 0 <= i < |arrivals| && Fresh(arrivals[i], Last(arrivals).time, memory)
                        && arrivals[i] == recent[0]
    ensures forall i | 0 <= i < |arrivals| && Fresh(arrivals[i], Last(arrivals).time, memory) ::
              arrivals[i].implied <= recent[0].implied
  {
    assert recent[0] in arrivals && Fresh(recent[0], Last(arrivals).time, memory);
    forall i | 0 <= i < |arrivals| && Fresh(arrivals[i], Last(arrivals).time, memory)
      ensures arrivals[i].implied <= recent[0].implied
    {
      assert Covered(arrivals[i], recent);
      var k :| 0 <= k < |recent| && recent[k].time >= arrivals[i].time && recent[k].implied >= arrivals[i].implied;
      if k > 0 { assert recent[0].implied > recent[k].implied; }
    }
  }

  /** A turn accepted at `now`, and the step last played by then, if any. */
  datatype TurnArrival = TurnArrival(sealed: nat, speed: nat, now: nat, played: Option<(nat, nat)>)

  /** The arrivals remembered since the schedule last started over. A schedule
      that starts over after a step was played begins with one arrival of its
      own. */
  function ArrivalsAfter(p: PlayoutState, arrivals: seq<Arrival>, t: TurnArrival): seq<Arrival> {
    var r := Repace(p, t.speed, t.now);
    var since := Since(p, arrivals, t);
    if t.sealed <= r.frontier then since else since + [ArrivalOf(r, t.sealed, t.now)]
  }

  function Since(p: PlayoutState, arrivals: seq<Arrival>, t: TurnArrival): seq<Arrival> {
    if t.speed != 0 && (p.paused || t.speed != p.pace) then Repace(p, t.speed, t.now).recent else arrivals
  }

  /** Every turn, with any change of speed, keeps the buffer a summary of the
      arrivals since the schedule last started over. */
  lemma OnTurnBuffers(p: PlayoutState, arrivals: seq<Arrival>, t: TurnArrival)
    requires Buffers(p.recent, arrivals, p.memory) && Timely(arrivals)
    requires forall i | 0 <= i < |arrivals| :: arrivals[i].time <= t.now
    ensures var q := OnTurn(p, t.sealed, t.speed, t.now);
            var all := ArrivalsAfter(p, arrivals, t);
            && q.memory == p.memory && Timely(all) && Buffers(q.recent, all, q.memory)
            && (forall i | 0 <= i < |all| :: all[i].time <= t.now)
  {
    var r := Repace(p, t.speed, t.now);
    RepaceBuffers(p, arrivals, t);
    ArriveBuffers(r, Since(p, arrivals, t), t.sealed, t.now);
  }

  lemma ArriveBuffers(r: PlayoutState, since: seq<Arrival>, sealed: nat, now: nat)
    requires Buffers(r.recent, since, r.memory) && Timely(since)
    requires forall i | 0 <= i < |since| :: since[i].time <= now
    ensures var q := Arrive(r, sealed, now);
            var all := if sealed <= r.frontier then since else since + [ArrivalOf(r, sealed, now)];
            && q.memory == r.memory && Timely(all) && Buffers(q.recent, all, q.memory)
            && (forall i | 0 <= i < |all| :: all[i].time <= now)
  {
    if sealed > r.frontier {
      RememberBuffers(r.recent, since, ArrivalOf(r, sealed, now), r.memory);
    }
  }

  /** A schedule that starts over holds at most its own first arrival. */
  lemma RepaceBuffers(p: PlayoutState, arrivals: seq<Arrival>, t: TurnArrival)
    requires Buffers(p.recent, arrivals, p.memory) && Timely(arrivals)
    requires forall i | 0 <= i < |arrivals| :: arrivals[i].time <= t.now
    ensures var r := Repace(p, t.speed, t.now);
            var since := Since(p, arrivals, t);
            && r.memory == p.memory && Buffers(r.recent, since, r.memory) && Timely(since)
            && (forall i | 0 <= i < |since| :: since[i].time <= t.now)
  {
    if t.speed != 0 && (p.paused || t.speed != p.pace) {
      var r := Repace(p, t.speed, t.now);
      RebaseHolds(p.(paused := false, pace := t.speed), t.now);
      if r.recent != [] { AloneBuffers(r.recent[0], r.memory); }
    }
  }

  lemma RebaseHolds(p: PlayoutState, now: nat)
    ensures var q := Rebase(p, now);
            q.memory == p.memory && (q.recent == [] || q.recent == [Arrival(now, q.recent[0].implied)])
  {
  }

  lemma AloneBuffers(arrival: Arrival, memory: nat)
    ensures Buffers([arrival], [arrival], memory)
  {
    assert Covered(arrival, [arrival]) by { assert [arrival][0] == arrival; }
  }

  /** Folds a whole run of turns into the buffer and the arrivals it stands for. */
  function AfterTurns(p: PlayoutState, arrivals: seq<Arrival>, turns: seq<TurnArrival>): (PlayoutState, seq<Arrival>)
    decreases |turns|
  {
    if turns == [] then (p, arrivals)
    else
      var (t, before) := (turns[0], p.(played := turns[0].played));
      AfterTurns(OnTurn(before, t.sealed, t.speed, t.now), ArrivalsAfter(before, arrivals, t), turns[1..])
  }

  /** For every run of turns whose times do not go back, and whatever steps were
      played between them, the buffer's implied
      times fall strictly and its front is the window maximum. */
  lemma {:induction false} JitterBuffer(p: PlayoutState, arrivals: seq<Arrival>, turns: seq<TurnArrival>)
    requires Buffers(p.recent, arrivals, p.memory) && Timely(arrivals)
    requires forall i, j | 0 <= i < j < |turns| :: turns[i].now <= turns[j].now
    requires turns != [] ==> forall i | 0 <= i < |arrivals| :: arrivals[i].time <= turns[0].now
    ensures var (q, all) := AfterTurns(p, arrivals, turns);
            && Falling(q.recent) && Buffers(q.recent, all, p.memory)
            && (all != [] ==>
                  && (exists i :: 0 <= i < |all| && Fresh(all[i], Last(all).time, p.memory) && all[i] == q.recent[0])
                  && (forall i | 0 <= i < |all| && Fresh(all[i], Last(all).time, p.memory) ::
                        all[i].implied <= q.recent[0].implied))
    decreases |turns|
  {
    if turns == [] {
      if arrivals != [] { FrontIsWindowMaximum(p.recent, arrivals, p.memory); }
    } else {
      var t, before := turns[0], p.(played := turns[0].played);
      OnTurnBuffers(before, arrivals, t);
      JitterBuffer(OnTurn(before, t.sealed, t.speed, t.now), ArrivalsAfter(before, arrivals, t), turns[1..]);
    }
  }

  /** Schedules the steps of one turn stream. */
  class Schedule {
    const stepsPerSecond: Positive
    const margin: nat
    const memory: nat
    var pace: nat
    var paused: bool
    var frontier: nat
    var base: Option<nat>
    var recent: seq<Arrival>
    var played: Option<(nat, nat)>

    function State(): PlayoutState
      reads this
    {
      PlayoutState(stepsPerSecond, margin, memory, pace, paused, frontier, base, recent, played)
    }

    constructor (stepsPerSecond: nat, margin: nat, memory: nat)
      ensures State() == Start(stepsPerSecond, margin, memory)
    {
      this.stepsPerSecond := if stepsPerSecond == 0 then 1 else stepsPerSecond;
      this.margin, this.memory := margin, memory;
      pace, paused, frontier := NORMAL, false, 0;
      base, recent, played := None, [], None;
    }

    method RememberArrival(now: nat, implied: nat)
      modifies this`recent
      ensures recent == Remember(old(recent), Arrival(now, implied), memory)
    {
      while recent != [] && Last(recent).implied <= implied
        invariant DropOvertaken(recent, implied) == DropOvertaken(old(recent), implied)
        decreases |recent|
      {
        recent := Init(recent);
      }
      recent := recent + [Arrival(now, implied)];
      while |recent| > 1 && now - recent[0].time > memory
        invariant DropOld(recent, now, memory) == Remember(old(recent), Arrival(now, implied), memory)
        decreases |recent|
      {
        recent := recent[1..];
      }
    }

    method RebaseAt(now: nat)
      modifies this`recent, this`base
      ensures State() == Rebase(old(State()), now)
    {
      recent := [];
      if played.None? {
        base := None;
        return;
      }
      var (step, last) := played.value;
      var next := Max(last + Span(State(), 1, 100), now);
      base := Some(step + 1);
      RememberArrival(now, if next >= margin then next - margin else next);
    }

    method TakePace(speed: nat, now: nat)
      modifies this
      ensures State() == Repace(old(State()), speed, now)
    {
      if speed == 0 {
        paused := true;
      } else if paused || speed != pace {
        paused, pace := false, speed;
        RebaseAt(now);
      }
    }

    method Turn(sealed: nat, speed: nat, now: nat)
      modifies this
      ensures State() == OnTurn(old(State()), sealed, speed, now)
    {
      TakePace(speed, now);
      if sealed <= frontier {
        return;
      }
      var arrival := ArrivalOf(State(), sealed, now);
      frontier := sealed;
      if base.None? {
        base := Some(sealed);
      }
      RememberArrival(arrival.time, arrival.implied);
    }

    method RecordPlayed(step: nat, due: nat)
      modifies this`played
      ensures State() == Played(old(State()), step, due)
    {
      played := Some((step, due));
    }
  }
}

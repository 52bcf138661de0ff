/**
What the playout's times mean (crates/tpf3mp-agent/src/playout.rs): a step is
ideally played a margin after the latest arrival remembered, carried forward at
the room's pace, and never before it arrived. While a client converges its steps
are never closer than the converging pace allows, and a change of speed goes on
evenly from the last step played.
*/
module Evenness {
  import opened Protocol
  import opened Playout
  import B = Bridge

  // ----- spans

  function Units(p: PlayoutState, percent: Positive): Positive {
    var pace := if p.pace == 0 then 1 else p.pace;
    MulPositive(p.stepsPerSecond, pace);
    MulPositive(p.stepsPerSecond * pace, percent);
    p.stepsPerSecond * pace * percent
  }

  lemma MulPositive(a: Positive, b: Positive)
    ensures a * b >= 1
  {
  }

  lemma Quotient(a: nat, unit: Positive, k: nat)
    ensures k * unit <= a <==> k <= a / unit
  {
    var q := a / unit;
    assert a == q * unit + a % unit;
    if k <= q {
      MulMonotone(k, q, unit);
    } else {
      MulMonotone(q + 1, k, unit);
    }
  }

  lemma MulMonotone(a: nat, b: nat, c: nat)
    requires a <= b
    ensures a * c <= b * c
  {
  }

  /** A span is the most whole microseconds, of those a 64-bit count holds, that the
      steps do not take longer than. */
  lemma SpanIs(p: PlayoutState, steps: nat, percent: Positive, k: nat)
    requires k <= U64_MAX
    ensures Span(p, steps, percent) % 1000 == 0 && Span(p, steps, percent) / 1000 <= U64_MAX
    ensures k * Units(p, percent) <= steps * 10_000_000_000 <==> 1000 * k <= Span(p, steps, percent)
  {
    Quotient(steps * 10_000_000_000, Units(p, percent), k);
  }

  lemma SpanGrows(p: PlayoutState, steps: nat, more: nat, percent: Positive)
    requires steps <= more
    ensures Span(p, steps, percent) <= Span(p, more, percent)
  {
    var k := Span(p, steps, percent) / 1000;
    SpanIs(p, steps, percent, k);
    SpanIs(p, more, percent, k);
    MulMonotone(steps, more, 10_000_000_000);
  }

  // ----- the ideal time

  /** `arrivals[i]` implies the latest time of those still fresh. */
  predicate Latest(arrivals: seq<Arrival>, memory: nat, i: nat) {
    && i < |arrivals| && Fresh(arrivals[i], Last(arrivals).time, memory)
    && forall j | 0 <= j < |arrivals| && Fresh(arrivals[j], Last(arrivals).time, memory) ::
         arrivals[j].implied <= arrivals[i].implied
  }

  /** `at` is `from`, moved by the time from step `base` to `step`. */
  predicate Carried(p: PlayoutState, from: nat, base: nat, step: nat, at: nat) {
    if step >= base then at == from + Span(p, step - base, 100)
    else if Span(p, base - step, 100) <= from then at + Span(p, base - step, 100) == from
    else at == from
  }

  /** A step is ideally played a margin after the latest fresh arrival, carried to
      that step at pace; nothing is known of it only while nothing arrived. */
  lemma IdealIs(p: PlayoutState, arrivals: seq<Arrival>, step: nat) returns (i: nat)
    requires Buffers(p.recent, arrivals, p.memory)
    ensures Ideal(p, step) == None <==> p.base == None || arrivals == []
    ensures Ideal(p, step).Some?
            ==> && Latest(arrivals, p.memory, i) && Ideal(p, step).value >= p.margin
                && Carried(p, arrivals[i].implied, p.base.value, step, Ideal(p, step).value - p.margin)
  {
    i := 0;
    if arrivals != [] {
      FrontIsWindowMaximum(p.recent, arrivals, p.memory);
      i :| 0 <= i < |arrivals| && Fresh(arrivals[i], Last(arrivals).time, p.memory) && arrivals[i] == p.recent[0];
    }
  }

  /** What an arrival implies: the base step would have come this one's distance
      before. */
  lemma ImpliedIs(p: PlayoutState, sealed: nat, now: nat)
    ensures var a := ArrivalOf(p, sealed, now);
            a.time == now && (p.base.None? || sealed < p.base.value ==> a.implied == now)
    ensures p.base.Some? && p.base.value <= sealed
            ==> var span := Span(p, sealed - p.base.value, 100);
                var implied := ArrivalOf(p, sealed, now).implied;
                if span <= now then implied + span == now else implied == now
  {
    if p.base.None? || sealed < p.base.value { NoSpan(p); }
  }

  lemma NoSpan(p: PlayoutState)
    ensures Span(p, 0, 100) == 0
  {
    SpanIs(p, 0, 100, 0);
    SpanIs(p, 0, 100, 1);
  }

  // ----- no step before it arrived

  /** The newest arrival is never later than the front. */
  lemma {:induction false} FrontCovers(recent: seq<Arrival>, arrival: Arrival, memory: nat)
    requires Falling(recent) && forall k | 0 <= k < |recent| :: recent[k].time <= arrival.time
    ensures Remember(recent, arrival, memory) != []
    ensures Remember(recent, arrival, memory)[0].implied >= arrival.implied
  {
    var kept := DropOvertaken(recent, arrival.implied) + [arrival];
    DropOvertakenIsPrefix(recent, arrival.implied);
    OldDropped(kept, arrival, memory);
  }

  lemma {:induction false} OldDropped(kept: seq<Arrival>, arrival: Arrival, memory: nat)
    requires kept != [] && forall k | 0 <= k < |kept| :: kept[k].implied >= arrival.implied
    ensures DropOld(kept, arrival.time, memory) != []
    ensures DropOld(kept, arrival.time, memory)[0].implied >= arrival.implied
  {
    if |kept| > 1 && arrival.time - kept[0].time > memory { OldDropped(kept[1..], arrival, memory); }
  }

  /** A turn that seals new steps leaves the last of them, and every one after it, an
      ideal time no sooner than the margin after it arrived. Steps before the one the
      schedule counts from were played. */
  lemma NotBeforeItArrives(p: PlayoutState, sealed: nat, now: nat, step: nat)
    requires Falling(p.recent) && p.frontier < sealed <= step && (p.base.Some? ==> p.base.value <= step)
    requires forall k | 0 <= k < |p.recent| :: p.recent[k].time <= now
    ensures Ideal(Arrive(p, sealed, now), step).Some?
    ensures Ideal(Arrive(p, sealed, now), step).value >= now + p.margin
  {
    FrontCovers(p.recent, ArrivalOf(p, sealed, now), p.memory);
    ImpliedIs(p, sealed, now);
    if p.base.Some? {
      assert Span(Arrive(p, sealed, now), step - p.base.value, 100) == Span(p, step - p.base.value, 100);
      if p.base.value <= sealed { SpanGrows(p, sealed - p.base.value, step - p.base.value, 100); }
    }
  }

  // ----- when a step is due

  predicate Converging(p: PlayoutState, step: nat, now: nat) {
    p.played.Some? && Ideal(p, step).Some? && Ideal(p, step).value + FAST_FORWARD > now
  }

  /** A step is due once it is sealed: at its ideal time, or at once where nothing is
      known of it, but for a client that converges, at the converging pace at the
      earliest. */
  lemma DueIs(p: PlayoutState, step: nat, now: nat)
    ensures Due(p, step, now).None? <==> p.frontier < step
    ensures Due(p, step, now).Some? && Ideal(p, step).None? ==> Due(p, step, now).value == now
    ensures Due(p, step, now).Some? && Ideal(p, step).Some? && !Converging(p, step, now)
            ==> Due(p, step, now) == Ideal(p, step)
    ensures Due(p, step, now).Some? && Converging(p, step, now)
            ==> var due, even := Due(p, step, now).value, p.played.value.1 + Span(p, 1, CONVERGE_PERCENT);
                due >= even && due >= Ideal(p, step).value && (due == even || due == Ideal(p, step).value)
  {
  }

  /** No sealed step is let go before its ideal time. */
  lemma PumpWaits(p: PlayoutState, executed: nat, dues: seq<nat>, now: nat, i: nat)
    requires B.OnTime(Due, p, executed, dues, now) && i < |dues| && executed + 1 + i <= p.frontier
    ensures Ideal(p, executed + 1 + i).Some? ==> Ideal(p, executed + 1 + i).value <= dues[i] <= now
  {
    assert B.DueBy(Due, p, executed, dues, now, i);
    if i > 0 { PlayedKeeps(p, executed, dues[..i], executed + 1 + i, now); } else { assert dues[..0] == []; }
    DueIs(B.PlayedAfter(p, executed, dues[..i]), executed + 1 + i, now);
  }

  /** Nothing a step was played at changes what is ideal. */
  lemma PlayedKeeps(p: PlayoutState, executed: nat, dues: seq<nat>, step: nat, now: nat)
    requires dues != []
    ensures var q := B.PlayedAfter(p, executed, dues);
            && Ideal(q, step) == Ideal(p, step) && q.frontier == p.frontier
            && Span(q, 1, CONVERGE_PERCENT) == Span(p, 1, CONVERGE_PERCENT)
            && (Converging(q, step, now) <==> Ideal(p, step).Some? && Ideal(p, step).value + FAST_FORWARD > now)
  {
  }

  /** However many steps one pump lets go, each sealed one that is less than a second
      behind its ideal time is due at least a converging step after the one before;
      one further behind is due at its ideal time. */
  lemma PumpIsEven(p: PlayoutState, executed: nat, dues: seq<nat>, now: nat, i: nat)
    requires B.OnTime(Due, p, executed, dues, now) && 0 < i < |dues| && executed + 1 + i <= p.frontier
    ensures Ideal(p, executed + 1 + i).Some?
            ==> var ideal := Ideal(p, executed + 1 + i).value;
                if ideal + FAST_FORWARD > now then dues[i] >= dues[i - 1] + Span(p, 1, CONVERGE_PERCENT)
                else dues[i] == ideal
  {
    assert B.DueBy(Due, p, executed, dues, now, i);
    PlayedKeeps(p, executed, dues[..i], executed + 1 + i, now);
    DueIs(B.PlayedAfter(p, executed, dues[..i]), executed + 1 + i, now);
  }

  // ----- a change of speed

  /** After a change of speed, steps go on from the last one played at the new pace,
      a step's time after it or at once, whichever is later. Only before the clock
      has run for a margin do they wait for one more. */
  lemma SpeedChangeIsEven(p: PlayoutState, now: nat, k: nat)
    requires p.played.Some?
    ensures var q, played := Rebase(p, now), p.played.value;
            var next := Max(played.1 + Span(p, 1, 100), now);
            Ideal(q, played.0 + 1 + k)
            == Some((if next >= p.margin then next else next + p.margin) + Span(p, k, 100))
  {
    var q := Rebase(p, now);
    assert Span(q, k, 100) == Span(p, k, 100);
  }
}

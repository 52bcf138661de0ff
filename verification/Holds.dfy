/**
Who keeps a snapshot (`Snapshots::hold`, `release` and `drop_unheld` in
crates/tpf3mp-server/src/snapshots.rs): holds are counted under one lock, and
letting go takes it twice, so other threads can come between.

A snapshot is retained by the store only while somebody holds it: whoever
receives one takes the hold first (crates/tpf3mp-server/src/connection.rs).
*/
module Holds {
  import opened Protocol

  type Id = nat

  /** `dropping` are the snapshots releases found unheld and have yet to drop;
      `owners` counts the holds taken and not given back. */
  datatype HoldsState = HoldsState(
    counts: map<Id, nat>, retained: set<Id>, dropping: seq<seq<Id>>, owners: multiset<Id>)

  function CountUp(counts: map<Id, nat>, id: Id): map<Id, nat> {
    counts[id := (if id in counts then counts[id] else 0) + 1]
  }

  datatype Counted = Counted(counts: map<Id, nat>, unheld: seq<Id>)

  /** The first part of a release: give up one hold on each. */
  function CountDown(counts: map<Id, nat>, ids: seq<Id>): Counted
    decreases |ids|
  {
    if ids == [] then Counted(counts, [])
    else
      var c, id := CountDown(counts, Init(ids)), Last(ids);
      if id in c.counts && c.counts[id] > 1 then c.(counts := c.counts[id := c.counts[id] - 1])
      else Counted(c.counts - {id}, c.unheld + [id])
  }

  /** The second part: the store lets go of those still unheld. */
  function Dropped(retained: set<Id>, counts: map<Id, nat>, ids: seq<Id>): set<Id> {
    set id | id in retained && (id in counts || id !in ids)
  }

  datatype HoldsStep = Hold(id: Id) | Retain(kept: Id) | Release(ids: seq<Id>) | Drop(which: nat)

  /** One step of one thread. Threads give back only what they hold, and retain only
      what they hold. */
  function Step(h: HoldsState, step: HoldsStep): Option<HoldsState> {
    match step
    case Hold(id) => Some(h.(counts := CountUp(h.counts, id), owners := h.owners + multiset{id}))
    case Retain(id) => if id in h.owners then Some(h.(retained := h.retained + {id})) else None
    case Release(ids) =>
      if multiset(ids) <= h.owners then
        var c := CountDown(h.counts, ids);
        Some(h.(counts := c.counts, dropping := h.dropping + [c.unheld], owners := h.owners - multiset(ids)))
      else None
    case Drop(k) =>
      if k < |h.dropping| then
        Some(h.(retained := Dropped(h.retained, h.counts, h.dropping[k]),
                dropping := h.dropping[..k] + h.dropping[k + 1..]))
      else None
  }

  // ----- what every interleaving keeps

  /** The counts are the holds. */
  ghost predicate Counts(counts: map<Id, nat>, owners: multiset<Id>) {
    && (forall id :: id in counts <==> id in owners)
    && (forall id | id in counts :: counts[id] == owners[id])
  }

  predicate Doomed(dropping: seq<seq<Id>>, id: Id) {
    exists k | 0 <= k < |dropping| :: id in dropping[k]
  }

  /** What is kept is held, or about to be looked at. */
  ghost predicate HoldsInv(h: HoldsState) {
    && Counts(h.counts, h.owners)
    && forall id | id in h.retained :: id in h.counts || Doomed(h.dropping, id)
  }

  lemma {:induction false} CountDownIs(counts: map<Id, nat>, owners: multiset<Id>, ids: seq<Id>)
    requires Counts(counts, owners) && multiset(ids) <= owners
    ensures var c := CountDown(counts, ids);
            && Counts(c.counts, owners - multiset(ids))
            && forall id | id in counts :: id in c.counts || id in c.unheld
    decreases |ids|
  {
    if ids != [] {
      var before, id := Init(ids), Last(ids);
      assert ids == before + [id];
      assert multiset(ids) == multiset(before) + multiset{id};
      CountDownIs(counts, owners, before);
      var left := owners - multiset(before);
      assert owners - multiset(ids) == left - multiset{id};
      assert id in left;
    }
  }

  lemma DropKeeps(h: HoldsState, k: nat)
    requires HoldsInv(h) && k < |h.dropping|
    ensures HoldsInv(Step(h, Drop(k)).value)
  {
    var next := Step(h, Drop(k)).value;
    forall id | id in next.retained ensures id in next.counts || Doomed(next.dropping, id) {
      if id !in h.counts {
        var j :| 0 <= j < |h.dropping| && id in h.dropping[j];
        assert j != k;
        assert h.dropping[j] == if j < k then next.dropping[j] else next.dropping[j - 1];
      }
    }
  }

  lemma ReleaseKeeps(h: HoldsState, ids: seq<Id>)
    requires HoldsInv(h) && multiset(ids) <= h.owners
    ensures HoldsInv(Step(h, Release(ids)).value)
  {
    CountDownIs(h.counts, h.owners, ids);
    var c, next := CountDown(h.counts, ids), Step(h, Release(ids)).value;
    forall id | id in next.retained ensures id in next.counts || Doomed(next.dropping, id) {
      if id in h.counts {
        if id !in next.counts { assert id in next.dropping[|h.dropping|]; }
      } else {
        var j :| 0 <= j < |h.dropping| && id in h.dropping[j];
        assert next.dropping[j] == h.dropping[j];
      }
    }
  }

  /** Every step keeps it, and never takes from the store a snapshot that is held
      once the step is done. */
  lemma StepKeeps(h: HoldsState, step: HoldsStep)
    requires HoldsInv(h) && Step(h, step).Some?
    ensures HoldsInv(Step(h, step).value)
    ensures forall id | id in h.retained && id in Step(h, step).value.owners :: id in Step(h, step).value.retained
  {
    match step
    case Hold(id) =>
      var next := Step(h, step).value;
      forall x ensures x in next.counts <==> x in next.owners {
        if x in next.owners && x != id { assert x in h.owners; }
      }
    case Retain(_) =>
    case Release(ids) => ReleaseKeeps(h, ids);
    case Drop(k) => DropKeeps(h, k);
  }

  function Run(h: HoldsState, steps: seq<HoldsStep>): HoldsState
    decreases |steps|
  {
    if steps == [] then h
    else
      var before := Run(h, Init(steps));
      match Step(before, Last(steps)) case None => before case Some(next) => next
  }

  /** In every interleaving: a snapshot that is retained and stays held stays
      retained; and once no release is under way, exactly held ones are. */
  lemma {:induction false} EveryInterleaving(steps: seq<HoldsStep>)
    ensures var h := Run(HoldsState(map[], {}, [], multiset{}), steps);
            && HoldsInv(h)
            && (h.dropping == [] ==> forall id | id in h.retained :: id in h.owners)
    decreases |steps|
  {
    if steps != [] {
      EveryInterleaving(Init(steps));
      var before := Run(HoldsState(map[], {}, [], multiset{}), Init(steps));
      if Step(before, Last(steps)).Some? { StepKeeps(before, Last(steps)); }
    }
  }

  /** A snapshot retained and held before some steps, through all of which somebody
      holds it, is retained after them. */
  lemma {:induction false} HeldIsKept(h: HoldsState, steps: seq<HoldsStep>, id: Id)
    requires HoldsInv(h) && id in h.retained
    requires forall k | 0 <= k <= |steps| :: id in Run(h, steps[..k]).owners
    ensures HoldsInv(Run(h, steps)) && id in Run(h, steps).retained
    decreases |steps|
  {
    if steps == [] {
    } else {
      var before := Init(steps);
      forall k | 0 <= k <= |before| ensures id in Run(h, before[..k]).owners {
        assert before[..k] == steps[..k];
      }
      HeldIsKept(h, before, id);
      assert steps[..|steps|] == steps;
      assert id in Run(h, steps[..|steps|]).owners;
      if Step(Run(h, before), Last(steps)).Some? { StepKeeps(Run(h, before), Last(steps)); }
    }
  }

  // ----- in place

  class Snapshots {
    var counts: map<Id, nat>
    var retained: set<Id>

    constructor ()
      ensures counts == map[] && retained == {}
    {
      counts, retained := map[], {};
    }

    method TakeHold(id: Id)
      modifies this`counts
      ensures counts == CountUp(old(counts), id)
    {
      if id !in counts {
        counts := counts[id := 0];
      }
      counts := counts[id := counts[id] + 1];
      assert counts == CountUp(old(counts), id);
    }

    /** The first lock of a release. */
    method GiveUp(ids: seq<Id>) returns (unheld: seq<Id>)
      modifies this`counts
      ensures Counted(counts, unheld) == CountDown(old(counts), ids)
    {
      unheld := [];
      var i := 0;
      while i < |ids|
        invariant 0 <= i <= |ids| && Counted(counts, unheld) == CountDown(old(counts), ids[..i])
      {
        var id := ids[i];
        assert Init(ids[..i + 1]) == ids[..i];
        if id in counts && counts[id] > 1 {
          counts := counts[id := counts[id] - 1];
        } else {
          counts := counts - {id};
          unheld := unheld + [id];
        }
        i := i + 1;
      }
      assert ids[..i] == ids;
    }

    /** The second lock of a release. */
    method DropUnheld(ids: seq<Id>)
      modifies this`retained
      ensures retained == Dropped(old(retained), counts, ids)
    {
      var i := 0;
      while i < |ids|
        invariant 0 <= i <= |ids| && retained == Dropped(old(retained), counts, ids[..i])
      {
        if ids[i] !in counts {
          retained := retained - {ids[i]};
        }
        assert ids[..i + 1] == ids[..i] + [ids[i]];
        i := i + 1;
      }
      assert ids[..i] == ids;
    }
  }
}

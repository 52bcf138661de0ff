/**
Checkpoint verdicts and save rounds: which lane digests are right when members
disagree (crates/tpf3mp-server/src/verdict.rs and `decide` in
crates/tpf3mp-server/src/snapshots.rs).

A report's lanes are sorted with one entry per lane, so they are a map; lists of
lanes are their sets.
*/
module Verdict {
  import opened Protocol

  type Lanes = map<nat, nat>

  datatype Report = Report(player: PlayerId, platform: nat, order: nat, lanes: Lanes)

  datatype Divergence = Divergence(player: PlayerId, lanes: set<nat>)

  datatype Decision = Decision(verdict: Lanes, diverged: seq<Divergence>)

  function DigestOf(lanes: Lanes, lane: nat): Option<nat> {
    if lane in lanes then Some(lanes[lane]) else None
  }

  /** What can be counted over reports. */
  datatype Trait = OnPlatform(platform: nat) | Says(lane: nat, digest: Option<nat>)

  predicate Has(report: Report, what: Trait) {
    match what
    case OnPlatform(platform) => report.platform == platform
    case Says(lane, digest) => DigestOf(report.lanes, lane) == digest
  }

  function Count(reports: seq<Report>, what: Trait): nat {
    if reports == [] then 0 else (if Has(reports[0], what) then 1 else 0) + Count(reports[1..], what)
  }

  function AllLanes(reports: seq<Report>): set<nat> {
    set i, lane | 0 <= i < |reports| && lane in reports[i].lanes :: lane
  }

  /** The first value that more than half the reports have. */
  function StrictMajority(reports: seq<Report>, lane: nat, from: nat): Option<Option<nat>>
    decreases |reports| - from
  {
    if from >= |reports| then None
    else if Count(reports, Says(lane, DigestOf(reports[from].lanes, lane))) * 2 > |reports|
    then Some(DigestOf(reports[from].lanes, lane))
    else StrictMajority(reports, lane, from + 1)
  }

  function Share(reports: seq<Report>, report: Report): nat {
    Count(reports, OnPlatform(report.platform))
  }

  /** `a` comes before `b` for anchor: a more common platform, then earlier. */
  predicate Before(reports: seq<Report>, a: Report, b: Report) {
    || Share(reports, a) > Share(reports, b)
    || (Share(reports, a) == Share(reports, b) && a.order < b.order)
  }

  /** The first report that none comes before, of those from `i` on and `best`. */
  function Anchor(reports: seq<Report>, i: nat, best: nat): (anchor: nat)
    requires best < |reports|
    ensures anchor < |reports|
    decreases |reports| - i
  {
    if i >= |reports| then best
    else Anchor(reports, i + 1, if Before(reports, reports[i], reports[best]) then i else best)
  }

  function Winner(reports: seq<Report>, anchor: nat, lane: nat): Option<nat>
    requires anchor < |reports|
  {
    match StrictMajority(reports, lane, 0)
    case Some(value) => value
    case None => DigestOf(reports[anchor].lanes, lane)
  }

  function VerdictOf(reports: seq<Report>, anchor: nat): Lanes
    requires anchor < |reports|
  {
    map lane | lane in AllLanes(reports) && Winner(reports, anchor, lane).Some? :: Winner(reports, anchor, lane).value
  }

  function DivergingLanes(lanes: Lanes, verdict: Lanes): set<nat> {
    set lane | lane in verdict.Keys + lanes.Keys && DigestOf(lanes, lane) != DigestOf(verdict, lane)
  }

  function Diverged(reports: seq<Report>, verdict: Lanes): seq<Divergence> {
    if reports == [] then []
    else
      var lanes := DivergingLanes(reports[0].lanes, verdict);
      (if lanes != {} then [Divergence(reports[0].player, lanes)] else []) + Diverged(reports[1..], verdict)
  }

  function Decide(reports: seq<Report>): Decision {
    if reports == [] then Decision(map[], [])
    else
      var verdict := VerdictOf(reports, Anchor(reports, 0, 0));
      Decision(verdict, Diverged(reports, verdict))
  }

  // ----- counting

  lemma {:induction false} CountSplit(a: seq<Report>, b: seq<Report>, what: Trait)
    ensures Count(a + b, what) == Count(a, what) + Count(b, what)
  {
    if a == [] {
      assert a + b == b;
    } else {
      CountSplit(a[1..], b, what);
      assert (a + b)[1..] == a[1..] + b;
    }
  }

  /** Counts do not depend on the order of reports. */
  lemma {:induction false} CountPermutes(a: seq<Report>, b: seq<Report>, what: Trait)
    requires multiset(a) == multiset(b)
    ensures Count(a, what) == Count(b, what) && |a| == |b|
    decreases |a|
  {
    SameSize(a, b);
    if a != [] {
      assert a[0] in multiset(b);
      var k :| 0 <= k < |b| && b[k] == a[0];
      var rest := b[..k] + b[k + 1..];
      Removed(a, b, k);
      CountPermutes(a[1..], rest, what);
      assert b == b[..k] + ([b[k]] + b[k + 1..]);
      CountSplit(b[..k], [b[k]] + b[k + 1..], what);
      CountSplit([b[k]], b[k + 1..], what);
      CountSplit(b[..k], b[k + 1..], what);
    }
  }

  lemma SameSize(a: seq<Report>, b: seq<Report>)
    requires multiset(a) == multiset(b)
    ensures |a| == |b|
  {
    assert |multiset(a)| == |a| && |multiset(b)| == |b|;
  }

  lemma Removed(a: seq<Report>, b: seq<Report>, k: nat)
    requires a != [] && k < |b| && b[k] == a[0] && multiset(a) == multiset(b)
    ensures multiset(a[1..]) == multiset(b[..k] + b[k + 1..])
  {
    assert a == [a[0]] + a[1..];
    assert b == b[..k] + [b[k]] + b[k + 1..];
    assert multiset(a[1..]) == multiset(a) - multiset{a[0]};
    assert multiset(b[..k] + b[k + 1..]) == multiset(b) - multiset{b[k]};
  }

  lemma {:induction false} CountExclusive(reports: seq<Report>, lane: nat, x: Option<nat>, y: Option<nat>)
    requires x != y
    ensures Count(reports, Says(lane, x)) + Count(reports, Says(lane, y)) <= |reports|
  {
    if reports != [] { CountExclusive(reports[1..], lane, x, y); }
  }

  lemma {:induction false} CountFinds(reports: seq<Report>, what: Trait)
    requires Count(reports, what) > 0
    ensures exists i | 0 <= i < |reports| :: Has(reports[i], what)
  {
    if !Has(reports[0], what) {
      CountFinds(reports[1..], what);
      var i :| 0 <= i < |reports[1..]| && Has(reports[1..][i], what);
      assert Has(reports[i + 1], what);
    }
  }

  // ----- majorities

  predicate IsMajority(reports: seq<Report>, lane: nat, value: Option<nat>) {
    Count(reports, Says(lane, value)) * 2 > |reports|
  }

  lemma {:induction false} MajorityIs(reports: seq<Report>, lane: nat, from: nat)
    ensures match StrictMajority(reports, lane, from)
            case Some(value) => IsMajority(reports, lane, value)
            case None => forall i | from <= i < |reports| :: !IsMajority(reports, lane, DigestOf(reports[i].lanes, lane))
    decreases |reports| - from
  {
    if from < |reports| { MajorityIs(reports, lane, from + 1); }
  }

  /** A value wins a lane outright exactly when more than half the reports say it. */
  lemma {:induction false} MajorityExactly(reports: seq<Report>, lane: nat, value: Option<nat>)
    ensures StrictMajority(reports, lane, 0) == Some(value) <==> IsMajority(reports, lane, value)
  {
    MajorityIs(reports, lane, 0);
    var found := StrictMajority(reports, lane, 0);
    if IsMajority(reports, lane, value) {
      CountFinds(reports, Says(lane, value));
      if found.Some? && found.value != value { CountExclusive(reports, lane, found.value, value); }
    }
  }

  // ----- the anchor

  /** None comes before the anchor, and none before it in the list is its equal. */
  predicate IsAnchor(reports: seq<Report>, a: nat) {
    && a < |reports|
    && forall i | 0 <= i < |reports| :: !Before(reports, reports[i], reports[a])
  }

  lemma {:induction false} AnchorIs(reports: seq<Report>, i: nat, best: nat)
    requires best < |reports| && i <= |reports|
    requires forall j | 0 <= j < i :: !Before(reports, reports[j], reports[best])
    ensures IsAnchor(reports, Anchor(reports, i, best))
    decreases |reports| - i
  {
    if i < |reports| {
      var next := if Before(reports, reports[i], reports[best]) then i else best;
      AnchorIs(reports, i + 1, next);
    }
  }

  /** Wherever no majority decides a lane, all reports that could be the anchor say
      the same on it. */
  ghost predicate AnchorsAgree(reports: seq<Report>) {
    forall i: nat, j: nat, lane | IsAnchor(reports, i) && IsAnchor(reports, j) && lane in AllLanes(reports)
                        && StrictMajority(reports, lane, 0).None? ::
      DigestOf(reports[i].lanes, lane) == DigestOf(reports[j].lanes, lane)
  }

  predicate DistinctOrders(reports: seq<Report>) {
    forall i, j | 0 <= i < |reports| && 0 <= j < |reports| && i != j :: reports[i].order != reports[j].order
  }

  /** Distinct join positions leave one report to be the anchor. */
  lemma DistinctOrdersAgree(reports: seq<Report>)
    requires DistinctOrders(reports)
    ensures AnchorsAgree(reports)
  {
    forall i: nat, j: nat | IsAnchor(reports, i) && IsAnchor(reports, j) ensures i == j {
      assert !Before(reports, reports[i], reports[j]) && !Before(reports, reports[j], reports[i]);
    }
  }

  // ----- the order of reports

  lemma LanesPermute(a: seq<Report>, b: seq<Report>)
    requires multiset(a) == multiset(b)
    ensures AllLanes(a) == AllLanes(b)
  {
    forall lane ensures lane in AllLanes(a) <==> lane in AllLanes(b) {
      if lane in AllLanes(a) {
        var i :| 0 <= i < |a| && lane in a[i].lanes;
        assert a[i] in multiset(b);
      }
      if lane in AllLanes(b) {
        var i :| 0 <= i < |b| && lane in b[i].lanes;
        assert b[i] in multiset(a);
      }
    }
  }

  lemma BeforePermutes(a: seq<Report>, b: seq<Report>, x: Report, y: Report)
    requires multiset(a) == multiset(b)
    ensures Before(a, x, y) <==> Before(b, x, y)
  {
    CountPermutes(a, b, OnPlatform(x.platform));
    CountPermutes(a, b, OnPlatform(y.platform));
  }

  /** Who can be the anchor does not depend on the order of reports. */
  lemma AnchorPermutes(a: seq<Report>, b: seq<Report>, j: nat, k: nat)
    requires multiset(a) == multiset(b) && IsAnchor(b, j) && k < |a| && a[k] == b[j]
    ensures IsAnchor(a, k)
  {
    forall i | 0 <= i < |a| ensures !Before(a, a[i], a[k]) {
      assert a[i] in multiset(b);
      var l :| 0 <= l < |b| && b[l] == a[i];
      assert !Before(b, b[l], b[j]);
      BeforePermutes(a, b, a[i], a[k]);
    }
  }

  lemma WinnerPermutes(a: seq<Report>, b: seq<Report>, i: nat, j: nat, lane: nat)
    requires multiset(a) == multiset(b) && i < |a| && j < |b| && a[i].lanes == b[j].lanes
    ensures Winner(a, i, lane) == Winner(b, j, lane)
  {
    MajorityIs(a, lane, 0);
    MajorityIs(b, lane, 0);
    var x, y := StrictMajority(a, lane, 0), StrictMajority(b, lane, 0);
    if x.Some? {
      CountPermutes(a, b, Says(lane, x.value));
      MajorityExactly(b, lane, x.value);
    }
    if y.Some? {
      CountPermutes(a, b, Says(lane, y.value));
      MajorityExactly(a, lane, y.value);
    }
  }

  lemma VerdictSays(reports: seq<Report>, anchor: nat, lane: nat)
    requires anchor < |reports| && lane in AllLanes(reports)
    ensures DigestOf(VerdictOf(reports, anchor), lane) == Winner(reports, anchor, lane)
  {
  }

  /** Where anchors agree the verdict does not depend on the order of reports. */
  lemma VerdictPermutes(a: seq<Report>, b: seq<Report>)
    requires multiset(a) == multiset(b) && AnchorsAgree(a)
    ensures Decide(a).verdict == Decide(b).verdict
    ensures multiset(Decide(a).diverged) == multiset(Decide(b).diverged)
  {
    SameSize(a, b);
    if a != [] {
      var i, j := Anchor(a, 0, 0), Anchor(b, 0, 0);
      AnchorIs(a, 0, 0);
      AnchorIs(b, 0, 0);
      assert b[j] in multiset(a);
      var k :| 0 <= k < |a| && a[k] == b[j];
      AnchorPermutes(a, b, j, k);
      LanesPermute(a, b);
      forall lane | lane in AllLanes(a) ensures Winner(a, i, lane) == Winner(b, j, lane) {
        WinnerPermutes(a, b, k, j, lane);
      }
      assert VerdictOf(a, i) == VerdictOf(b, j);
      DivergedPermutes(a, b, VerdictOf(a, i));
    }
  }

  lemma {:induction false} FirstStays(reports: seq<Report>, i: nat)
    requires IsAnchor(reports, 0)
    ensures Anchor(reports, i, 0) == 0
    decreases |reports| - i
  {
    if i < |reports| { FirstStays(reports, i + 1); }
  }

  /** Whoever can be the anchor is, if it reports first. */
  lemma ReportsFirst(a: seq<Report>, i: nat) returns (b: seq<Report>)
    requires IsAnchor(a, i)
    ensures multiset(b) == multiset(a)
    ensures forall lane | lane in AllLanes(a) :: DigestOf(Decide(b).verdict, lane) == Winner(a, i, lane)
  {
    b := [a[i]] + (a[..i] + a[i + 1..]);
    assert a == a[..i] + [a[i]] + a[i + 1..];
    assert multiset(b) == multiset(a);
    AnchorPermutes(b, a, i, 0);
    FirstStays(b, 0);
    LanesPermute(a, b);
    forall lane | lane in AllLanes(a) ensures DigestOf(Decide(b).verdict, lane) == Winner(a, i, lane) {
      VerdictSays(b, 0, lane);
      WinnerPermutes(a, b, i, 0, lane);
    }
  }

  /** The verdict is the same in whatever order the reports come in. */
  ghost predicate OrderFree(a: seq<Report>) {
    forall b | multiset(b) == multiset(a) :: Decide(b).verdict == Decide(a).verdict
  }

  lemma FirstsAgree(a: seq<Report>, i: nat, j: nat, lane: nat)
    requires OrderFree(a) && IsAnchor(a, i) && IsAnchor(a, j) && lane in AllLanes(a)
    ensures Winner(a, i, lane) == Winner(a, j, lane)
  {
    var b := ReportsFirst(a, i);
    var c := ReportsFirst(a, j);
    assert Decide(b).verdict == Decide(a).verdict == Decide(c).verdict;
  }

  /** That is so if and only if all that could be the anchor agree where no majority
      decides. */
  lemma OrderDecidesExactly(a: seq<Report>)
    ensures OrderFree(a) <==> AnchorsAgree(a)
  {
    if AnchorsAgree(a) {
      forall b | multiset(b) == multiset(a) ensures Decide(b).verdict == Decide(a).verdict { VerdictPermutes(a, b); }
    } else if OrderFree(a) {
      var i: nat, j: nat, lane :| IsAnchor(a, i) && IsAnchor(a, j) && lane in AllLanes(a)
        && StrictMajority(a, lane, 0).None? && DigestOf(a[i].lanes, lane) != DigestOf(a[j].lanes, lane);
      FirstsAgree(a, i, j, lane);
      assert false;
    }
  }

  lemma {:induction false} DivergedAppend(a: seq<Report>, b: seq<Report>, verdict: Lanes)
    ensures Diverged(a + b, verdict) == Diverged(a, verdict) + Diverged(b, verdict)
  {
    if a == [] {
      assert a + b == b;
    } else {
      DivergedAppend(a[1..], b, verdict);
      assert (a + b)[0] == a[0] && (a + b)[1..] == a[1..] + b;
      var lanes := DivergingLanes(a[0].lanes, verdict);
      Assoc(if lanes != {} then [Divergence(a[0].player, lanes)] else [], Diverged(a[1..], verdict),
            Diverged(b, verdict));
    }
  }

  lemma {:induction false} DivergedAround(b: seq<Report>, k: nat, verdict: Lanes)
    requires k < |b|
    ensures multiset(Diverged(b, verdict))
            == multiset(Diverged([b[k]], verdict)) + multiset(Diverged(b[..k] + b[k + 1..], verdict))
  {
    var p, q, f := b[..k], b[k + 1..], [b[k]];
    assert b == p + (f + q);
    DivergedAppend(p, f + q, verdict);
    DivergedAppend(f, q, verdict);
    DivergedAppend(p, q, verdict);
  }

  lemma {:induction false} DivergedPermutes(a: seq<Report>, b: seq<Report>, verdict: Lanes)
    requires multiset(a) == multiset(b)
    ensures multiset(Diverged(a, verdict)) == multiset(Diverged(b, verdict))
    decreases |a|
  {
    SameSize(a, b);
    if a != [] {
      assert a[0] in multiset(b);
      var k :| 0 <= k < |b| && b[k] == a[0];
      Removed(a, b, k);
      DivergedPermutes(a[1..], b[..k] + b[k + 1..], verdict);
      DivergedAround(b, k, verdict);
      DivergedAround(a, 0, verdict);
      assert a[..0] + a[1..] == a[1..];
    }
  }

  /** Join positions are those at the time of the report, so they can repeat once
      someone leaves in between; and then the order of reports can decide. */
  lemma RepeatedOrderCanDecide()
    ensures var a, b := Report(1, 0, 0, map[7 := 1]), Report(2, 0, 0, map[7 := 2]);
            multiset([a, b]) == multiset([b, a]) && Decide([a, b]).verdict != Decide([b, a]).verdict
  {
    var a, b := Report(1, 0, 0, map[7 := 1]), Report(2, 0, 0, map[7 := 2]);
    FirstOfTwo(a, b);
    FirstOfTwo(b, a);
  }

  lemma {:induction false} CountTwo(x: Report, y: Report, what: Trait)
    ensures Count([x, y], what) == (if Has(x, what) then 1 else 0) + if Has(y, what) then 1 else 0
  {
    assert [x, y][1..] == [y] && [y][1..] == [];
    assert Count([y], what) == if Has(y, what) then 1 else 0;
  }

  lemma FirstOfTwo(x: Report, y: Report)
    requires x.platform == y.platform && x.order == y.order && 7 in x.lanes && 7 in y.lanes && x.lanes[7] != y.lanes[7]
    ensures 7 in Decide([x, y]).verdict && Decide([x, y]).verdict[7] == x.lanes[7]
  {
    var r := [x, y];
    CountTwo(x, y, Says(7, Some(x.lanes[7])));
    CountTwo(x, y, Says(7, Some(y.lanes[7])));
    assert StrictMajority(r, 7, 2) == None && StrictMajority(r, 7, 1) == None;
    assert !Before(r, y, x);
    assert Anchor(r, 2, 0) == 0 && Anchor(r, 1, 0) == 0;
    assert 7 in r[0].lanes && 7 in AllLanes(r);
  }

  // ----- what a verdict says

  /** A report diverges exactly when its lanes are not the verdict's. */
  lemma DivergesExactly(lanes: Lanes, verdict: Lanes)
    ensures DivergingLanes(lanes, verdict) == {} <==> lanes == verdict
  {
    if lanes != verdict {
      if lane :| lane in lanes && lane !in verdict {
        assert lane in DivergingLanes(lanes, verdict);
      } else if lane :| lane in verdict && lane !in lanes {
        assert lane in DivergingLanes(lanes, verdict);
      } else {
        assert lanes.Keys == verdict.Keys;
        var lane :| lane in lanes && lanes[lane] != verdict[lane];
        assert lane in DivergingLanes(lanes, verdict);
      }
    }
  }

  lemma {:induction false} DivergedExactly(reports: seq<Report>, verdict: Lanes, player: PlayerId)
    ensures (exists d :: d in Diverged(reports, verdict) && d.player == player)
            <==> exists i | 0 <= i < |reports| :: reports[i].player == player && reports[i].lanes != verdict
  {
    if reports != [] {
      DivergedExactly(reports[1..], verdict, player);
      DivergesExactly(reports[0].lanes, verdict);
      var rest := Diverged(reports[1..], verdict);
      if i :| 0 <= i < |reports| && reports[i].player == player && reports[i].lanes != verdict {
        if i == 0 {
          assert Diverged(reports, verdict)[0].player == player;
          assert Diverged(reports, verdict)[0] in Diverged(reports, verdict);
        } else {
          assert reports[1..][i - 1] == reports[i];
          var d :| d in rest && d.player == player;
          assert d in Diverged(reports, verdict);
        }
      }
      if d :| d in Diverged(reports, verdict) && d.player == player {
        if d in rest {
          var i :| 0 <= i < |reports[1..]| && reports[1..][i].player == player && reports[1..][i].lanes != verdict;
          assert reports[i + 1].player == player;
        } else {
          assert reports[0].player == player && reports[0].lanes != verdict;
        }
      }
    }
  }

  /** Exactly these are accused, each of exactly the lanes that are not the verdict's. */
  lemma {:induction false} AccusedOf(reports: seq<Report>, verdict: Lanes, d: Divergence)
    ensures d in Diverged(reports, verdict)
            <==> d.lanes != {} && exists i | 0 <= i < |reports| ::
                   reports[i].player == d.player
                   && forall lane :: lane in d.lanes
                                     <==> DigestOf(reports[i].lanes, lane) != DigestOf(verdict, lane)
  {
    if reports != [] {
      AccusedOf(reports[1..], verdict, d);
      var lanes, rest := DivergingLanes(reports[0].lanes, verdict), Diverged(reports[1..], verdict);
      assert d in Diverged(reports, verdict)
        <==> (lanes != {} && d == Divergence(reports[0].player, lanes)) || d in rest;
      assert forall i | 0 <= i < |reports[1..]| :: reports[1..][i] == reports[i + 1];
      if i :| 0 <= i < |reports| && reports[i].player == d.player
              && forall lane :: lane in d.lanes <==> DigestOf(reports[i].lanes, lane) != DigestOf(verdict, lane) {
        if i == 0 { assert d.lanes == lanes; } else { assert reports[1..][i - 1] == reports[i]; }
      }
    }
  }

  // ----- the verdict, by how many said what

  /** Who reported from a platform, and who said what on a lane. */
  function On(reports: seq<Report>, platform: nat): set<nat> {
    set i: nat | i < |reports| && reports[i].platform == platform
  }

  function Saying(reports: seq<Report>, lane: nat, digest: Option<nat>): set<nat> {
    set i: nat | i < |reports| && DigestOf(reports[i].lanes, lane) == digest
  }

  /** No platform has more reports than this report's, and of the reports on platforms
      with as many it joined earliest; the first of them to report. */
  predicate Leads(reports: seq<Report>, k: nat) {
    && k < |reports|
    && (forall i: nat | i < |reports| :: |On(reports, reports[i].platform)| <= |On(reports, reports[k].platform)|)
    && (forall i: nat | i < |reports| && |On(reports, reports[i].platform)| == |On(reports, reports[k].platform)| ::
          reports[k].order <= reports[i].order && (reports[i].order == reports[k].order ==> k <= i))
  }

  function Having(reports: seq<Report>, n: nat, what: Trait): set<nat>
    requires n <= |reports|
  {
    set i: nat | i < n && Has(reports[i], what)
  }

  lemma {:induction false} CountTo(reports: seq<Report>, what: Trait, n: nat)
    requires n <= |reports|
    ensures Count(reports[..n], what) == |Having(reports, n, what)|
  {
    if n == 0 {
      assert reports[..0] == [];
    } else {
      CountTo(reports, what, n - 1);
      assert reports[..n] == reports[..n - 1] + [reports[n - 1]];
      CountSplit(reports[..n - 1], [reports[n - 1]], what);
      CountOne(reports[n - 1], what);
      HavingNext(reports, n - 1, what);
    }
  }

  lemma CountOne(report: Report, what: Trait)
    ensures Count([report], what) == if Has(report, what) then 1 else 0
  {
    assert [report][1..] == [];
  }

  lemma HavingNext(reports: seq<Report>, n: nat, what: Trait)
    requires n < |reports|
    ensures |Having(reports, n + 1, what)| == |Having(reports, n, what)| + if Has(reports[n], what) then 1 else 0
  {
    var more := if Has(reports[n], what) then {n} else {};
    assert Having(reports, n + 1, what) == Having(reports, n, what) + more && n !in Having(reports, n, what);
  }

  lemma CountsAre(reports: seq<Report>, platform: nat, lane: nat, digest: Option<nat>)
    ensures Count(reports, OnPlatform(platform)) == |On(reports, platform)|
    ensures Count(reports, Says(lane, digest)) == |Saying(reports, lane, digest)|
  {
    var n := |reports|;
    assert reports[..n] == reports;
    CountTo(reports, OnPlatform(platform), n);
    CountTo(reports, Says(lane, digest), n);
    assert Having(reports, n, OnPlatform(platform)) == On(reports, platform);
    assert Having(reports, n, Says(lane, digest)) == Saying(reports, lane, digest);
  }

  lemma {:induction false} AnchorIsFirst(reports: seq<Report>, i: nat, best: nat)
    requires best < |reports| && i <= |reports|
    requires forall j | 0 <= j < i :: !Before(reports, reports[j], reports[best])
    requires forall j | 0 <= j < best :: Before(reports, reports[best], reports[j])
    ensures forall j | 0 <= j < Anchor(reports, i, best) ::
              Before(reports, reports[Anchor(reports, i, best)], reports[j])
    decreases |reports| - i
  {
    if i < |reports| {
      AnchorIsFirst(reports, i + 1, if Before(reports, reports[i], reports[best]) then i else best);
    }
  }

  lemma AnchorLeads(reports: seq<Report>)
    requires reports != []
    ensures Leads(reports, Anchor(reports, 0, 0))
  {
    var k := Anchor(reports, 0, 0);
    AnchorIs(reports, 0, 0);
    AnchorIsFirst(reports, 0, 0);
    CountsAre(reports, reports[k].platform, 0, None);
    forall i: nat | i < |reports|
      ensures |On(reports, reports[i].platform)| <= |On(reports, reports[k].platform)|
      ensures |On(reports, reports[i].platform)| == |On(reports, reports[k].platform)|
              ==> reports[k].order <= reports[i].order && (reports[i].order == reports[k].order ==> k <= i)
    {
      CountsAre(reports, reports[i].platform, 0, None);
      assert !Before(reports, reports[i], reports[k]);
      if i < k { assert Before(reports, reports[k], reports[i]); }
    }
  }

  /** What a verdict says on a lane: what more than half the reports say, if anything;
      else what the report says that leads. */
  lemma VerdictIs(reports: seq<Report>, lane: nat) returns (k: nat)
    requires reports != []
    ensures Leads(reports, k)
    ensures forall digest | |Saying(reports, lane, digest)| * 2 > |reports| ::
              DigestOf(Decide(reports).verdict, lane) == digest
    ensures (forall digest :: |Saying(reports, lane, digest)| * 2 <= |reports|)
            ==> DigestOf(Decide(reports).verdict, lane) == DigestOf(reports[k].lanes, lane)
  {
    k := Anchor(reports, 0, 0);
    AnchorLeads(reports);
    MajorityIs(reports, lane, 0);
    NobodySays(reports, k, lane);
    forall digest | |Saying(reports, lane, digest)| * 2 > |reports|
      ensures DigestOf(Decide(reports).verdict, lane) == digest
    {
      CountsAre(reports, 0, lane, digest);
      MajorityExactly(reports, lane, digest);
    }
    if StrictMajority(reports, lane, 0).Some? {
      CountsAre(reports, 0, lane, StrictMajority(reports, lane, 0).value);
    }
  }

  /** The verdict has what won on every lane, and nothing on a lane nobody reported. */
  lemma NobodySays(reports: seq<Report>, k: nat, lane: nat)
    requires k < |reports|
    ensures DigestOf(VerdictOf(reports, k), lane) == Winner(reports, k, lane)
  {
    if lane !in AllLanes(reports) {
      forall i | 0 <= i < |reports| ensures lane !in reports[i].lanes {}
      MajorityIs(reports, lane, 0);
      if StrictMajority(reports, lane, 0).Some? {
        CountFinds(reports, Says(lane, StrictMajority(reports, lane, 0).value));
      }
    }
  }

  function CountSame(reports: seq<Report>, lanes: Lanes): nat {
    if reports == [] then 0 else (if reports[0].lanes == lanes then 1 else 0) + CountSame(reports[1..], lanes)
  }

  lemma {:induction false} SameSay(reports: seq<Report>, lanes: Lanes, lane: nat)
    ensures Count(reports, Says(lane, DigestOf(lanes, lane))) >= CountSame(reports, lanes)
  {
    if reports != [] { SameSay(reports[1..], lanes, lane); }
  }

  lemma {:induction false} SameFinds(reports: seq<Report>, lanes: Lanes)
    requires CountSame(reports, lanes) > 0
    ensures exists i | 0 <= i < |reports| :: reports[i].lanes == lanes
  {
    if reports[0].lanes != lanes {
      SameFinds(reports[1..], lanes);
      var i :| 0 <= i < |reports[1..]| && reports[1..][i].lanes == lanes;
      assert reports[i + 1].lanes == lanes;
    }
  }

  lemma {:induction false} SameWin(reports: seq<Report>, lanes: Lanes, anchor: nat, lane: nat)
    requires CountSame(reports, lanes) * 2 > |reports| && anchor < |reports|
    ensures Winner(reports, anchor, lane) == DigestOf(lanes, lane)
    ensures lane in lanes ==> lane in AllLanes(reports)
  {
    SameSay(reports, lanes, lane);
    MajorityExactly(reports, lane, DigestOf(lanes, lane));
    SameFinds(reports, lanes);
    var i :| 0 <= i < |reports| && reports[i].lanes == lanes;
    if lane in lanes { assert lane in reports[i].lanes; }
  }

  lemma {:induction false} SameVerdict(reports: seq<Report>, lanes: Lanes, anchor: nat)
    requires CountSame(reports, lanes) * 2 > |reports| && anchor < |reports|
    ensures VerdictOf(reports, anchor) == lanes
  {
    var verdict := VerdictOf(reports, anchor);
    forall lane ensures DigestOf(verdict, lane) == DigestOf(lanes, lane) {
      SameWin(reports, lanes, anchor, lane);
    }
    forall lane ensures lane in verdict <==> lane in lanes {
      assert DigestOf(verdict, lane) == DigestOf(lanes, lane);
    }
    forall lane | lane in lanes ensures verdict[lane] == lanes[lane] {
      assert DigestOf(verdict, lane) == DigestOf(lanes, lane);
    }
  }

  /** If more than half the reports carry the same lanes, those are the verdict, and
      exactly the players who reported others diverge. */
  lemma {:induction false} MajorityRules(reports: seq<Report>, lanes: Lanes, player: PlayerId)
    requires CountSame(reports, lanes) * 2 > |reports|
    ensures Decide(reports).verdict == lanes
    ensures (exists d :: d in Decide(reports).diverged && d.player == player)
            <==> exists i | 0 <= i < |reports| :: reports[i].player == player && reports[i].lanes != lanes
  {
    SameFinds(reports, lanes);
    SameVerdict(reports, lanes, Anchor(reports, 0, 0));
    DivergedExactly(reports, lanes, player);
  }

  // ----- saves

  datatype SaveReport = SaveReport(report: Report, world: Option<nat>)

  function Reports(saves: seq<SaveReport>): seq<Report> {
    seq(|saves|, i requires 0 <= i < |saves| => saves[i].report)
  }

  function SaveDiverged(saves: seq<SaveReport>): seq<Divergence> {
    if |saves| >= 2 then Decide(Reports(saves)).diverged else []
  }

  predicate Accused(diverged: seq<Divergence>, player: PlayerId) {
    exists i | 0 <= i < |diverged| :: diverged[i].player == player
  }

  /** The saves nobody found fault with, in the order they came. */
  function Agreeing(saves: seq<SaveReport>, diverged: seq<Divergence>): seq<SaveReport> {
    if saves == [] then []
    else (if Accused(diverged, saves[0].report.player) then [] else [saves[0]]) + Agreeing(saves[1..], diverged)
  }

  /** Puts a save among others already in join order, after its equals. */
  function Insert(sorted: seq<SaveReport>, save: SaveReport): seq<SaveReport> {
    if sorted == [] || Last(sorted).report.order <= save.report.order then sorted + [save]
    else Insert(Init(sorted), save) + [Last(sorted)]
  }

  function Sort(saves: seq<SaveReport>): seq<SaveReport>
    decreases |saves|
  {
    if saves == [] then [] else Insert(Sort(Init(saves)), Last(saves))
  }

  function WithWorlds(saves: seq<SaveReport>): seq<SaveReport> {
    if saves == [] then [] else (if saves[0].world.Some? then [saves[0]] else []) + WithWorlds(saves[1..])
  }

  /** Whose save may be uploaded, earliest joined first. */
  function Candidates(saves: seq<SaveReport>): seq<SaveReport> {
    WithWorlds(Sort(Agreeing(saves, SaveDiverged(saves))))
  }

  lemma {:induction false} AgreeingIs(saves: seq<SaveReport>, diverged: seq<Divergence>, save: SaveReport)
    ensures save in Agreeing(saves, diverged) <==> save in saves && !Accused(diverged, save.report.player)
  {
    if saves != [] {
      AgreeingIs(saves[1..], diverged, save);
      assert save in saves <==> save == saves[0] || save in saves[1..];
    }
  }

  predicate InOrder(saves: seq<SaveReport>) {
    forall i, j | 0 <= i <= j < |saves| :: saves[i].report.order <= saves[j].report.order
  }

  predicate AtMost(saves: seq<SaveReport>, order: nat) {
    forall i | 0 <= i < |saves| :: saves[i].report.order <= order
  }

  lemma PushInOrder(saves: seq<SaveReport>, save: SaveReport)
    requires InOrder(saves) && AtMost(saves, save.report.order)
    ensures InOrder(saves + [save])
  {
  }

  lemma {:induction false} InsertOrders(sorted: seq<SaveReport>, save: SaveReport, most: nat)
    requires InOrder(sorted) && AtMost(sorted, most) && save.report.order <= most
    ensures InOrder(Insert(sorted, save)) && AtMost(Insert(sorted, save), most)
    decreases |sorted|
  {
    if sorted == [] || Last(sorted).report.order <= save.report.order {
      PushInOrder(sorted, save);
    } else {
      InsertOrders(Init(sorted), save, Last(sorted).report.order);
      PushInOrder(Insert(Init(sorted), save), Last(sorted));
    }
  }

  lemma {:induction false} InsertIn(sorted: seq<SaveReport>, save: SaveReport, x: SaveReport)
    ensures x in Insert(sorted, save) <==> x in sorted || x == save
    decreases |sorted|
  {
    if sorted != [] && Last(sorted).report.order > save.report.order {
      InsertIn(Init(sorted), save, x);
      assert sorted == Init(sorted) + [Last(sorted)];
    }
  }

  function Most(saves: seq<SaveReport>): (most: nat)
    ensures AtMost(saves, most)
    decreases |saves|
  {
    if saves == [] then 0
    else
      var before := Most(Init(saves));
      assert saves == Init(saves) + [Last(saves)];
      if before < Last(saves).report.order then Last(saves).report.order else before
  }

  lemma {:induction false} SortIs(saves: seq<SaveReport>)
    ensures InOrder(Sort(saves))
    decreases |saves|
  {
    if saves != [] {
      var sorted, last := Sort(Init(saves)), Last(saves);
      SortIs(Init(saves));
      var most := if Most(sorted) < last.report.order then last.report.order else Most(sorted);
      InsertOrders(sorted, last, most);
    }
  }

  lemma {:induction false} SortIn(saves: seq<SaveReport>, x: SaveReport)
    ensures x in Sort(saves) <==> x in saves
    decreases |saves|
  {
    if saves != [] {
      var before, last := Init(saves), Last(saves);
      SortIn(before, x);
      InsertIn(Sort(before), last, x);
      InLast(saves, x);
    }
  }

  lemma InLast(saves: seq<SaveReport>, x: SaveReport)
    requires saves != []
    ensures x in saves <==> x in Init(saves) || x == Last(saves)
  {
    assert saves == Init(saves) + [Last(saves)];
  }

  lemma {:induction false} WithWorldsIn(saves: seq<SaveReport>, x: SaveReport)
    ensures x in WithWorlds(saves) <==> x in saves && x.world.Some?
  {
    if saves != [] {
      WithWorldsIn(saves[1..], x);
      assert x in saves <==> x == saves[0] || x in saves[1..];
    }
  }

  predicate AtLeast(saves: seq<SaveReport>, order: nat) {
    forall i | 0 <= i < |saves| :: saves[i].report.order >= order
  }

  lemma {:induction false} WithWorldsOrders(saves: seq<SaveReport>, least: nat)
    requires InOrder(saves) && AtLeast(saves, least)
    ensures InOrder(WithWorlds(saves)) && AtLeast(WithWorlds(saves), least)
  {
    if saves != [] {
      var rest := saves[1..];
      assert forall i | 0 <= i < |rest| :: rest[i] == saves[i + 1];
      WithWorldsOrders(rest, saves[0].report.order);
    }
  }

  /** The candidates are exactly the saves with a world whose player nobody
      accused, in join order. */
  lemma CandidatesAre(saves: seq<SaveReport>, save: SaveReport)
    ensures save in Candidates(saves)
            <==> save in saves && save.world.Some? && !Accused(SaveDiverged(saves), save.report.player)
    ensures InOrder(Candidates(saves))
  {
    var agreeing := Agreeing(saves, SaveDiverged(saves));
    AgreeingIs(saves, SaveDiverged(saves), save);
    SortIs(agreeing);
    SortIn(agreeing, save);
    WithWorldsIn(Sort(agreeing), save);
    WithWorldsOrders(Sort(agreeing), 0);
  }

  /** Everyone whose save may be uploaded reported the same lanes. */
  lemma CandidatesAgree(saves: seq<SaveReport>, a: SaveReport, b: SaveReport)
    requires a in Candidates(saves) && b in Candidates(saves)
    ensures a.report.lanes == b.report.lanes
  {
    CandidatesAre(saves, a);
    CandidatesAre(saves, b);
    if |saves| >= 2 {
      UnaccusedAgree(saves, a);
      UnaccusedAgree(saves, b);
    }
  }

  lemma UnaccusedAgree(saves: seq<SaveReport>, save: SaveReport)
    requires |saves| >= 2 && save in saves && !Accused(SaveDiverged(saves), save.report.player)
    ensures save.report.lanes == Decide(Reports(saves)).verdict
  {
    var reports := Reports(saves);
    var verdict := Decide(reports).verdict;
    DivergedExactly(reports, verdict, save.report.player);
    var i :| 0 <= i < |saves| && saves[i] == save;
    assert reports[i] == save.report;
    assert forall d :: d in Diverged(reports, verdict) ==> d.player != save.report.player;
  }

  // ----- in place

  /** The verdict, lane by lane. */
  method BuildVerdict(reports: seq<Report>) returns (decision: Decision)
    ensures decision == Decide(reports)
  {
    if reports == [] {
      return Decision(map[], []);
    }
    var anchor := Anchor(reports, 0, 0);
    var lanes := AllLanes(reports);
    var verdict: Lanes := map[];
    ghost var done := {};
    while lanes != {}
      invariant done + lanes == AllLanes(reports) && done !! lanes
      invariant verdict == map lane | lane in done && Winner(reports, anchor, lane).Some?
                             :: Winner(reports, anchor, lane).value
      decreases lanes
    {
      var lane :| lane in lanes;
      var winner := Winner(reports, anchor, lane);
      if winner.Some? {
        verdict := verdict[lane := winner.value];
      }
      lanes, done := lanes - {lane}, done + {lane};
    }
    assert done == AllLanes(reports);
    decision := Decision(verdict, Diverged(reports, verdict));
  }
}

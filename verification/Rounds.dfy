/**
Checkpoint rounds of a running game (`checkpoint`, `decide_waiting_rounds`,
`prune_rounds` and `close_round` in crates/tpf3mp-server/src/room.rs): members
report a step's digests, the round is decided once, and is then kept for late
reports until it closes for good.
*/
module Rounds {
  import opened Protocol
  import V = Verdict
  import W = Words

  const MAX_OPEN_ROUNDS: nat := 64
  const DECIDED_ROUNDS_KEPT: nat := 64
  const MIN_VERDICT_REPORTS: nat := 2
  const CHECKPOINT_DEADLINE: nat := 30_000_000_000

  datatype Round = Round(since: nat, reports: seq<V.Report>, verdict: Option<V.Lanes>)

  datatype RoundsState = RoundsState(rounds: map<nat, Round>, closedThrough: nat)

  /** A step's result: the rounds, and the verdicts it gave. */
  datatype Outcome = Outcome(state: RoundsState, given: map<nat, V.Lanes>)

  function Decided(s: RoundsState): set<nat> {
    set step | step in s.rounds && s.rounds[step].verdict.Some?
  }

  function Undecided(s: RoundsState): set<nat> {
    set step | step in s.rounds && s.rounds[step].verdict.None?
  }

  function Close(s: RoundsState, step: nat): RoundsState {
    RoundsState(s.rounds - {step}, if s.closedThrough < step then step else s.closedThrough)
  }

  predicate IsLowest(low: nat, steps: set<nat>) {
    low in steps && forall step | step in steps :: low <= step
  }

  /** The lowest of some steps. */
  function Lowest(steps: set<nat>): (low: nat)
    requires steps != {}
    ensures IsLowest(low, steps)
  {
    HasLowest(steps);
    var low :| IsLowest(low, steps);
    low
  }

  lemma {:induction false} HasLowest(steps: set<nat>)
    requires steps != {}
    ensures exists low :: IsLowest(low, steps)
    decreases steps
  {
    var any :| any in steps;
    if !IsLowest(any, steps) {
      var rest := steps - {any};
      var lower :| lower in steps && lower < any;
      assert lower in rest;
      HasLowest(rest);
      var low :| IsLowest(low, rest);
      assert low <= lower;
      forall step | step in steps ensures low <= step {
        if step != any { assert step in rest; }
      }
      assert IsLowest(low, steps);
    }
  }

  /** Keeps the newest decided rounds. */
  function Prune(s: RoundsState): RoundsState
    decreases |Decided(s)|
  {
    if |Decided(s)| <= DECIDED_ROUNDS_KEPT then s
    else
      var low := Lowest(Decided(s));
      assert Decided(Close(s, low)) == Decided(s) - {low};
      Prune(Close(s, low))
  }

  predicate Reported(reports: seq<V.Report>, player: PlayerId) {
    exists i | 0 <= i < |reports| :: reports[i].player == player
  }

  /** Whether every member pacing the room has reported. */
  predicate Complete(pacing: seq<PlayerId>, reports: seq<V.Report>) {
    forall i | 0 <= i < |pacing| :: Reported(reports, pacing[i])
  }

  function DecideRound(round: Round): Round {
    round.(verdict := Some(V.Decide(round.reports).verdict))
  }

  /** A round with one more report, decided if that completes it. */
  function WithReport(round: Round, report: V.Report, pacing: seq<PlayerId>): Round {
    var more := round.(reports := round.reports + [report]);
    if round.verdict.None? && |more.reports| >= MIN_VERDICT_REPORTS && Complete(pacing, more.reports)
    then DecideRound(more) else more
  }

  /** Whether a report for `step` is taken at all. */
  predicate Takes(s: RoundsState, step: nat, interval: nat, sealed: nat) {
    && step != 0 && (if interval == 0 then step == 0 else step % interval == 0) && step <= sealed
    && !(step <= s.closedThrough && step !in s.rounds)
    && !(step !in s.rounds && |Undecided(s)| >= MAX_OPEN_ROUNDS)
  }

  function Checkpoint(s: RoundsState, step: nat, report: V.Report, interval: nat, sealed: nat, pacing: seq<PlayerId>,
                      now: nat): Outcome
  {
    if !Takes(s, step, interval, sealed) then Outcome(s, map[])
    else
      var round := if step in s.rounds then s.rounds[step] else Round(now, [], None);
      if Reported(round.reports, report.player) then Outcome(s.(rounds := s.rounds[step := round]), map[])
      else
        var next := WithReport(round, report, pacing);
        Outcome(Prune(s.(rounds := s.rounds[step := next])),
                if round.verdict.None? && next.verdict.Some? then map[step := next.verdict.value] else map[])
  }

  predicate Overdue(round: Round, now: nat) {
    now >= round.since && now - round.since >= CHECKPOINT_DEADLINE
  }

  predicate Decides(round: Round, pacing: seq<PlayerId>, now: nat) {
    && round.verdict.None? && |round.reports| >= MIN_VERDICT_REPORTS
    && (Overdue(round, now) || Complete(pacing, round.reports))
  }

  /** A round too few members reported by its deadline closes without a verdict. */
  predicate Expires(round: Round, pacing: seq<PlayerId>, now: nat) {
    round.verdict.None? && !Decides(round, pacing, now) && Overdue(round, now)
  }

  function CloseAll(s: RoundsState, steps: set<nat>): RoundsState
    decreases steps
  {
    if steps == {} then s
    else var low := Lowest(steps); CloseAll(Close(s, low), steps - {low})
  }

  function Waiting(s: RoundsState, pacing: seq<PlayerId>, now: nat): set<nat> {
    set step | step in s.rounds && Decides(s.rounds[step], pacing, now)
  }

  function Expired(s: RoundsState, pacing: seq<PlayerId>, now: nat): set<nat> {
    set step | step in s.rounds && Expires(s.rounds[step], pacing, now)
  }

  /** The rounds once those that waited are decided. */
  function Judged(s: RoundsState, pacing: seq<PlayerId>, now: nat): map<nat, Round> {
    map step | step in s.rounds ::
      if step in Waiting(s, pacing, now) then DecideRound(s.rounds[step]) else s.rounds[step]
  }

  function Given(s: RoundsState, pacing: seq<PlayerId>, now: nat): map<nat, V.Lanes> {
    map step | step in Waiting(s, pacing, now) :: V.Decide(s.rounds[step].reports).verdict
  }

  function DecideWaiting(s: RoundsState, pacing: seq<PlayerId>, now: nat): Outcome {
    var closed := CloseAll(s.(rounds := Judged(s, pacing, now)), Expired(s, pacing, now));
    Outcome(if Waiting(s, pacing, now) == {} then closed else Prune(closed), Given(s, pacing, now))
  }

  // ----- what every run keeps

  predicate OncePerPlayer(reports: seq<V.Report>) {
    forall i, j | 0 <= i < |reports| && 0 <= j < |reports| && i != j :: reports[i].player != reports[j].player
  }

  /** The first `k` reports, two or more, decided the verdict. */
  predicate DecidedBy(round: Round, k: nat) {
    MIN_VERDICT_REPORTS <= k <= |round.reports| && round.verdict == Some(V.Decide(round.reports[..k]).verdict)
  }

  /** Each player once, and a verdict only as enough of the reports decide it. */
  ghost predicate Fair(round: Round) {
    OncePerPlayer(round.reports) && (round.verdict.Some? ==> exists k: nat :: DecidedBy(round, k))
  }

  ghost predicate AllFair(s: RoundsState) {
    forall step | step in s.rounds :: Fair(s.rounds[step])
  }

  /** A verdict that was given stands as long as its round is kept. */
  predicate Stand(s: RoundsState, given: map<nat, V.Lanes>) {
    forall step | step in s.rounds ::
      s.rounds[step].verdict == if step in given then Some(given[step]) else None
  }

  /** Every step that ever had a round has it still, or is below the mark. */
  predicate Known(s: RoundsState, ever: set<nat>) {
    && s.rounds.Keys <= ever
    && forall step | step in ever :: step in s.rounds || step <= s.closedThrough
  }

  /** `given` are all verdicts given so far, `ever` all steps that had a round. */
  ghost predicate RoundsInv(s: RoundsState, given: map<nat, V.Lanes>, ever: set<nat>) {
    && AllFair(s) && Stand(s, given) && Known(s, ever) && given.Keys <= ever
    && |Undecided(s)| <= MAX_OPEN_ROUNDS && |Decided(s)| <= DECIDED_ROUNDS_KEPT
  }

  /** Only rounds that were there are left, as they were, and whatever is gone is
      below the mark. */
  predicate Closes(s: RoundsState, t: RoundsState) {
    && (forall step | step in t.rounds :: step in s.rounds && t.rounds[step] == s.rounds[step])
    && (forall step | step in s.rounds && step !in t.rounds :: step <= t.closedThrough)
    && s.closedThrough <= t.closedThrough
  }

  lemma {:induction false} PruneCloses(s: RoundsState)
    ensures Closes(s, Prune(s)) && |Decided(Prune(s))| <= DECIDED_ROUNDS_KEPT
    ensures forall step | step in s.rounds && s.rounds[step].verdict.None? :: step in Prune(s).rounds
    decreases |Decided(s)|
  {
    if |Decided(s)| > DECIDED_ROUNDS_KEPT {
      var low := Lowest(Decided(s));
      assert Decided(Close(s, low)) == Decided(s) - {low};
      PruneCloses(Close(s, low));
    }
  }

  lemma {:induction false} CloseAllCloses(s: RoundsState, steps: set<nat>)
    ensures Closes(s, CloseAll(s, steps))
    ensures forall step | step in s.rounds :: step in CloseAll(s, steps).rounds <==> step !in steps
    decreases steps
  {
    if steps != {} {
      var low := Lowest(steps);
      CloseAllCloses(Close(s, low), steps - {low});
    }
  }

  lemma Smaller(a: set<nat>, b: set<nat>)
    requires a <= b
    ensures |a| <= |b|
  {
    assert b == a + (b - a);
  }

  /** Closing keeps all of it. */
  lemma ClosesKeeps(s: RoundsState, t: RoundsState, given: map<nat, V.Lanes>, ever: set<nat>)
    requires AllFair(s) && Stand(s, given) && Known(s, ever) && Closes(s, t)
    ensures AllFair(t) && Stand(t, given) && Known(t, ever)
    ensures |Undecided(t)| <= |Undecided(s)| && |Decided(t)| <= |Decided(s)|
  {
    Smaller(Undecided(t), Undecided(s));
    Smaller(Decided(t), Decided(s));
  }

  lemma WithReportFair(round: Round, report: V.Report, pacing: seq<PlayerId>)
    requires Fair(round) && !Reported(round.reports, report.player)
    ensures Fair(WithReport(round, report, pacing))
    ensures round.verdict.Some? ==> WithReport(round, report, pacing).verdict == round.verdict
  {
    var more := round.(reports := round.reports + [report]);
    if round.verdict.Some? {
      var k: nat :| DecidedBy(round, k);
      assert more.reports[..k] == round.reports[..k];
      assert DecidedBy(more, k);
    } else if WithReport(round, report, pacing).verdict.Some? {
      DecidedFair(more);
    }
  }

  lemma DecidedFair(round: Round)
    requires OncePerPlayer(round.reports) && |round.reports| >= MIN_VERDICT_REPORTS
    ensures Fair(DecideRound(round))
  {
    assert round.reports[..|round.reports|] == round.reports;
    assert DecidedBy(DecideRound(round), |round.reports|);
  }

  /** A report is taken exactly if it is for a due step of an open round by a player
      who has not reported; it gives a verdict exactly if there was none, two or more
      have now reported, and so has everyone who paces the room; and that verdict is
      what the reports decide. */
  lemma CheckpointGives(s: RoundsState, step: nat, report: V.Report, interval: nat, sealed: nat,
                        pacing: seq<PlayerId>, now: nat)
    ensures var o := Checkpoint(s, step, report, interval, sealed, pacing, now);
            var before := if step in s.rounds then s.rounds[step].reports else [];
            var undecided := step !in s.rounds || s.rounds[step].verdict.None?;
            && o.given.Keys <= {step}
            && (step in o.given
                <==> && Takes(s, step, interval, sealed) && undecided && |before| >= 1
                     && (forall i | 0 <= i < |before| :: before[i].player != report.player)
                     && forall i | 0 <= i < |pacing| ::
                          pacing[i] == report.player || exists j | 0 <= j < |before| :: before[j].player == pacing[i])
            && (step in o.given ==> o.given[step] == V.Decide(before + [report]).verdict)
  {
    var before := if step in s.rounds then s.rounds[step].reports else [];
    forall player ensures Reported(before + [report], player) <==> player == report.player || Reported(before, player) {
      ReportedPush(before, report, player);
    }
  }

  lemma ReportedPush(before: seq<V.Report>, report: V.Report, player: PlayerId)
    ensures Reported(before + [report], player) <==> player == report.player || Reported(before, player)
  {
    var more := before + [report];
    if player == report.player { assert more[|before|].player == player; }
    if Reported(before, player) {
      var i :| 0 <= i < |before| && before[i].player == player;
      assert more[i].player == player;
    }
  }

  /** A tick gives a verdict on exactly the undecided rounds with two or more reports
      that everyone who paces the room has reported or that have waited long enough;
      and it is what the reports decide. */
  lemma WaitingGives(s: RoundsState, pacing: seq<PlayerId>, now: nat, step: nat)
    ensures var o := DecideWaiting(s, pacing, now);
            && (step in o.given
                <==> && step in s.rounds && s.rounds[step].verdict.None? && |s.rounds[step].reports| >= 2
                     && (now >= s.rounds[step].since + 30_000_000_000
                         || forall i | 0 <= i < |pacing| ::
                              exists j | 0 <= j < |s.rounds[step].reports| ::
                                s.rounds[step].reports[j].player == pacing[i]))
            && (step in o.given ==> o.given[step] == V.Decide(s.rounds[step].reports).verdict)
  {
  }

  /** Reports count for sealed steps that are a whole number of intervals, in rounds
      that are open or may open; any other changes nothing. One that counts is added to
      its round unless its player had reported, and then only old rounds close. */
  lemma CheckpointTakes(s: RoundsState, step: nat, report: V.Report, interval: nat, sealed: nat,
                        pacing: seq<PlayerId>, now: nat)
    returns (round: Round)
    ensures var o := Checkpoint(s, step, report, interval, sealed, pacing, now);
            var before := if step in s.rounds then s.rounds[step].reports else [];
            if 0 < step <= sealed && (exists k: nat :: step == k * interval)
               && (step in s.rounds || (s.closedThrough < step && |Undecided(s)| < MAX_OPEN_ROUNDS))
            then && round.reports == (if Reported(before, report.player) then before else before + [report])
                 && round.since == (if step in s.rounds then s.rounds[step].since else now)
                 && Closes(s.(rounds := s.rounds[step := round]), o.state)
                 && (round.verdict.None? ==> step in o.state.rounds)
            else o == Outcome(s, map[])
  {
    if interval > 0 { WholeIntervals(step, interval); }
    round := if step in s.rounds then s.rounds[step] else Round(now, [], None);
    if !Reported(round.reports, report.player) { round := WithReport(round, report, pacing); }
    PruneCloses(s.(rounds := s.rounds[step := round]));
  }

  lemma WholeIntervals(step: nat, interval: nat)
    requires interval > 0
    ensures step % interval == 0 <==> exists k: nat :: step == k * interval
  {
    if step % interval == 0 { assert step == (step / interval) * interval; }
    if k: nat :| step == k * interval { W.RemainderIs(step, interval, k, 0); }
  }

  /** A tick leaves exactly those rounds undecided that wait for more reports and may
      wait longer, as they were. */
  lemma WaitingLeaves(s: RoundsState, pacing: seq<PlayerId>, now: nat, step: nat)
    ensures var o := DecideWaiting(s, pacing, now).state;
            && (step in o.rounds ==> step in s.rounds)
            && (step in s.rounds && s.rounds[step].verdict.None?
                ==> (step in o.rounds && o.rounds[step].verdict.None?
                     <==> && now < s.rounds[step].since + CHECKPOINT_DEADLINE
                          && (|s.rounds[step].reports| < 2 || !Complete(pacing, s.rounds[step].reports))))
            && (step in o.rounds && o.rounds[step].verdict.None? ==> o.rounds[step] == s.rounds[step])
  {
    var t := s.(rounds := Judged(s, pacing, now));
    var closed := CloseAll(t, Expired(s, pacing, now));
    CloseAllCloses(t, Expired(s, pacing, now));
    PruneCloses(closed);
  }

  /** A round that closed never opens again: no report for it is taken. */
  lemma ClosedStaysClosed(s: RoundsState, given: map<nat, V.Lanes>, ever: set<nat>, step: nat, interval: nat,
                          sealed: nat)
    requires RoundsInv(s, given, ever) && step in ever && step !in s.rounds
    ensures !Takes(s, step, interval, sealed)
  {
  }

  lemma PutBounded(s: RoundsState, step: nat, next: Round)
    requires |Undecided(s)| <= MAX_OPEN_ROUNDS
    requires if step in s.rounds then s.rounds[step].verdict.Some? ==> next.verdict.Some?
             else |Undecided(s)| < MAX_OPEN_ROUNDS
    ensures |Undecided(s.(rounds := s.rounds[step := next]))| <= MAX_OPEN_ROUNDS
  {
    var t := s.(rounds := s.rounds[step := next]);
    if step in s.rounds {
      Smaller(Undecided(t), Undecided(s));
    } else {
      var more := Undecided(s) + {step};
      Smaller(Undecided(t), more);
      assert |more| <= |Undecided(s)| + 1;
    }
  }

  /** The rounds with one changed or new, before anything is pruned. */
  lemma PutKeeps(s: RoundsState, given: map<nat, V.Lanes>, ever: set<nat>, step: nat, next: Round,
                 more: map<nat, V.Lanes>)
    requires RoundsInv(s, given, ever) && Fair(next)
    requires step in s.rounds || (step > s.closedThrough && |Undecided(s)| < MAX_OPEN_ROUNDS)
    requires if step in given then next.verdict == Some(given[step]) && more == map[]
             else if next.verdict.Some? then more == map[step := next.verdict.value] else more == map[]
    ensures var t := s.(rounds := s.rounds[step := next]);
            && AllFair(t) && Stand(t, given + more) && Known(t, ever + {step}) && more.Keys <= {step}
            && |Undecided(t)| <= MAX_OPEN_ROUNDS
  {
    PutBounded(s, step, next);
  }

  /** A report keeps it all, and gives a verdict only for a step that had none. */
  lemma CheckpointKeeps(s: RoundsState, given: map<nat, V.Lanes>, ever: set<nat>, step: nat, report: V.Report,
                        interval: nat, sealed: nat, pacing: seq<PlayerId>, now: nat)
    requires RoundsInv(s, given, ever)
    ensures var o := Checkpoint(s, step, report, interval, sealed, pacing, now);
            && o.given.Keys !! given.Keys
            && RoundsInv(o.state, given + o.given, if Takes(s, step, interval, sealed) then ever + {step} else ever)
  {
    var o := Checkpoint(s, step, report, interval, sealed, pacing, now);
    if !Takes(s, step, interval, sealed) {
      assert given + o.given == given;
    } else {
      var round := if step in s.rounds then s.rounds[step] else Round(now, [], None);
      if Reported(round.reports, report.player) {
        assert step in s.rounds && s.rounds[step := round] == s.rounds && given + o.given == given;
      } else {
        var next := WithReport(round, report, pacing);
        WithReportFair(round, report, pacing);
        PutKeeps(s, given, ever, step, next, o.given);
        var t := s.(rounds := s.rounds[step := next]);
        PruneCloses(t);
        ClosesKeeps(t, Prune(t), given + o.given, ever + {step});
      }
    }
  }

  lemma JudgedKeeps(s: RoundsState, given: map<nat, V.Lanes>, ever: set<nat>, pacing: seq<PlayerId>, now: nat)
    requires RoundsInv(s, given, ever)
    ensures var t, more := s.(rounds := Judged(s, pacing, now)), Given(s, pacing, now);
            && AllFair(t) && Stand(t, given + more) && Known(t, ever) && |Undecided(t)| <= |Undecided(s)|
            && more.Keys !! given.Keys && more.Keys <= ever
  {
    Smaller(Undecided(s.(rounds := Judged(s, pacing, now))), Undecided(s));
    JudgedFair(s, pacing, now);
  }

  lemma JudgedFair(s: RoundsState, pacing: seq<PlayerId>, now: nat)
    requires AllFair(s)
    ensures AllFair(s.(rounds := Judged(s, pacing, now)))
  {
    var judged := Judged(s, pacing, now);
    forall step | step in judged ensures Fair(judged[step]) {
      if step in Waiting(s, pacing, now) { DecidedFair(s.rounds[step]); }
    }
  }

  /** So does deciding what waited, with any number of verdicts at once. */
  lemma DecideWaitingKeeps(s: RoundsState, given: map<nat, V.Lanes>, ever: set<nat>, pacing: seq<PlayerId>, now: nat)
    requires RoundsInv(s, given, ever)
    ensures var o := DecideWaiting(s, pacing, now);
            && o.given.Keys !! given.Keys
            && RoundsInv(o.state, given + o.given, ever)
  {
    var t, more := s.(rounds := Judged(s, pacing, now)), Given(s, pacing, now);
    JudgedKeeps(s, given, ever, pacing, now);
    CloseAllCloses(t, Expired(s, pacing, now));
    var closed := CloseAll(t, Expired(s, pacing, now));
    ClosesKeeps(t, closed, given + more, ever);
    if Waiting(s, pacing, now) == {} {
      assert t.rounds == s.rounds;
    } else {
      PruneCloses(closed);
      ClosesKeeps(closed, Prune(closed), given + more, ever);
    }
  }

  // ----- every run

  datatype RoundsStep =
    | Report(step: nat, report: V.Report, interval: nat, sealed: nat, pacing: seq<PlayerId>, now: nat)
    | TicksBy(members: seq<PlayerId>, at: nat)

  function Take(s: RoundsState, step: RoundsStep): Outcome {
    match step
    case Report(at, report, interval, sealed, pacing, now) => Checkpoint(s, at, report, interval, sealed, pacing, now)
    case TicksBy(members, at) => DecideWaiting(s, members, at)
  }

  /** The rounds after `steps`, every verdict given, and every step that had a
      round. */
  datatype Trace = Trace(state: RoundsState, given: map<nat, V.Lanes>, ever: set<nat>)

  function Run(steps: seq<RoundsStep>): Trace
    decreases |steps|
  {
    if steps == [] then Trace(RoundsState(map[], 0), map[], {})
    else
      var before, last := Run(Init(steps)), Last(steps);
      var o := Take(before.state, last);
      Trace(o.state, before.given + o.given,
            before.ever + if last.Report? && Takes(before.state, last.step, last.interval, last.sealed) then {last.step}
                          else {})
  }

  /** Over any run: no step is given two verdicts, no closed round opens again, each
      player counts once, no verdict rests on one report, and both kinds of rounds
      are bounded. */
  lemma {:induction false} EveryRun(steps: seq<RoundsStep>)
    ensures var t := Run(steps); RoundsInv(t.state, t.given, t.ever)
    ensures steps != []
            ==> var before := Run(Init(steps));
                var o := Take(before.state, Last(steps));
                && o.given.Keys !! before.given.Keys
                && (forall step | step in before.ever && step !in before.state.rounds ::
                      step !in Run(steps).state.rounds)
    decreases |steps|
  {
    if steps == [] {
      var empty := RoundsState(map[], 0);
      assert Undecided(empty) == {} && Decided(empty) == {};
    } else {
      EveryRun(Init(steps));
      var before, last := Run(Init(steps)), Last(steps);
      match last
      case Report(step, report, interval, sealed, pacing, now) =>
        CheckpointKeeps(before.state, before.given, before.ever, step, report, interval, sealed, pacing, now);
        assert before.ever + {} == before.ever;
        OnlyTaken(before.state, step, report, interval, sealed, pacing, now);
        if step in before.ever && step !in before.state.rounds {
          ClosedStaysClosed(before.state, before.given, before.ever, step, interval, sealed);
        }
      case TicksBy(members, at) =>
        DecideWaitingKeeps(before.state, before.given, before.ever, members, at);
        assert before.ever + {} == before.ever;
        OnlyKept(before.state, members, at);
    }
  }

  lemma OnlyTaken(s: RoundsState, step: nat, report: V.Report, interval: nat, sealed: nat, pacing: seq<PlayerId>,
                  now: nat)
    ensures Checkpoint(s, step, report, interval, sealed, pacing, now).state.rounds.Keys
            <= s.rounds.Keys + if Takes(s, step, interval, sealed) then {step} else {}
  {
    if Takes(s, step, interval, sealed) {
      var round := if step in s.rounds then s.rounds[step] else Round(now, [], None);
      PruneCloses(s.(rounds := s.rounds[step := WithReport(round, report, pacing)]));
    }
  }

  lemma OnlyKept(s: RoundsState, pacing: seq<PlayerId>, now: nat)
    ensures DecideWaiting(s, pacing, now).state.rounds.Keys <= s.rounds.Keys
  {
    var expired := Expired(s, pacing, now);
    var t := s.(rounds := Judged(s, pacing, now));
    CloseAllCloses(t, expired);
    PruneCloses(CloseAll(t, expired));
  }

  // ----- in place

  class RoundTable {
    var rounds: map<nat, Round>
    var closedThrough: nat

    ghost function State(): RoundsState
      reads this
    {
      RoundsState(rounds, closedThrough)
    }

    constructor ()
      ensures State() == RoundsState(map[], 0)
    {
      rounds, closedThrough := map[], 0;
    }

    method CloseRound(step: nat)
      modifies this
      ensures State() == Close(old(State()), step)
    {
      rounds := rounds - {step};
      closedThrough := if closedThrough < step then step else closedThrough;
    }

    method PruneRounds()
      modifies this
      ensures State() == Prune(old(State()))
    {
      var decided := set step | step in rounds && rounds[step].verdict.Some?;
      while |decided| > DECIDED_ROUNDS_KEPT
        invariant decided == Decided(State()) && Prune(State()) == Prune(old(State()))
        decreases |decided|
      {
        var low := Lowest(decided);
        CloseRound(low);
        decided := decided - {low};
      }
    }

    /** A member's report for `step`; the verdict it brought, if any. */
    method TakeReport(step: nat, report: V.Report, interval: nat, sealed: nat, pacing: seq<PlayerId>, now: nat)
      returns (given: map<nat, V.Lanes>)
      modifies this
      ensures Outcome(State(), given) == Checkpoint(old(State()), step, report, interval, sealed, pacing, now)
    {
      given := map[];
      if !Takes(RoundsState(rounds, closedThrough), step, interval, sealed) {
        return;
      }
      var round := if step in rounds then rounds[step] else Round(now, [], None);
      rounds := rounds[step := round];
      if Reported(round.reports, report.player) {
        return;
      }
      var was := round.verdict;
      round := round.(reports := round.reports + [report]);
      if was.None? && |round.reports| >= MIN_VERDICT_REPORTS && Complete(pacing, round.reports) {
        var decision := V.BuildVerdict(round.reports);
        round := round.(verdict := Some(decision.verdict));
        given := map[step := decision.verdict];
      }
      rounds := rounds[step := round];
      assert rounds == old(rounds)[step := round];
      PruneRounds();
    }

    /** Decides every round that waited long enough or for everyone. */
    method DecideDue(pacing: seq<PlayerId>, now: nat) returns (given: map<nat, V.Lanes>)
      modifies this
      ensures Outcome(State(), given) == DecideWaiting(old(State()), pacing, now)
    {
      var expired;
      given, expired := JudgeAll(pacing, now);
      CloseExpired(expired);
      if given.Keys != {} {
        PruneRounds();
      }
    }

    /** Goes through the rounds: the verdicts due, and what ran out of time. */
    method JudgeAll(pacing: seq<PlayerId>, now: nat) returns (given: map<nat, V.Lanes>, expired: set<nat>)
      modifies this`rounds
      ensures rounds == Judged(old(State()), pacing, now) && given == Given(old(State()), pacing, now)
      ensures given.Keys == Waiting(old(State()), pacing, now)
      ensures expired == Expired(old(State()), pacing, now)
    {
      ghost var s := State();
      ghost var waiting := Waiting(s, pacing, now);
      given, expired := map[], {};
      var todo := rounds.Keys;
      while todo != {}
        invariant todo <= rounds.Keys == s.rounds.Keys
        invariant forall step | step in rounds ::
                    rounds[step] == if step in waiting && step !in todo then DecideRound(s.rounds[step])
                                    else s.rounds[step]
        invariant given.Keys == waiting - todo && expired == Expired(s, pacing, now) - todo
        invariant forall step | step in given :: given[step] == V.Decide(s.rounds[step].reports).verdict
        decreases todo
      {
        var step := Lowest(todo);
        var round := rounds[step];
        if Decides(round, pacing, now) {
          var decision := V.BuildVerdict(round.reports);
          rounds := rounds[step := round.(verdict := Some(decision.verdict))];
          given := given[step := decision.verdict];
        } else if Expires(round, pacing, now) {
          expired := expired + {step};
        }
        todo := todo - {step};
      }
    }

    method CloseExpired(expired: set<nat>)
      modifies this
      ensures State() == CloseAll(old(State()), expired)
    {
      var left := expired;
      while left != {}
        invariant CloseAll(State(), left) == CloseAll(old(State()), expired)
        decreases left
      {
        var step := Lowest(left);
        CloseRound(step);
        left := left - {step};
      }
    }
  }
}

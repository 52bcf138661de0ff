/**
Who holds a running room's clock (`progress`, `demote_stalled`, `slowest_pacer`
and `on_tick` in crates/tpf3mp-server/src/room.rs): members load, follow or
catch up, and the frontier waits for the slowest who follows.
*/
module RoomClock {
  import opened Protocol
  import opened Pacing

  datatype Pace = Loading | Following(step: nat) | CatchingUp(last: Option<nat>)

  datatype Member = Member(player: PlayerId, link: Option<nat>, streaming: bool, pace: Pace, advanced: nat)

  datatype ClockState = ClockState(
    members: seq<Member>, pacer: PacerState, speed: nat, sealed: nat, started: nat, lastTick: nat,
    stallTimeout: nat, loadTimeout: nat)

  /** A member with a stream, or one still waiting for the first world. */
  predicate HoldsClock(m: Member) {
    m.streaming || (m.pace.Loading? && m.link.Some?)
  }

  function Since(now: nat, start: nat): nat {
    if now < start then 0 else now - start
  }

  function Unlinked(m: Member): Member {
    m.(link := None, streaming := false, pace := CatchingUp(None))
  }

  // ----- progress

  /** The pace of a member that reports `step`. */
  function Repaced(pace: Pace, step: nat, window: nat, sealed: nat): Pace {
    match pace
    case Loading => Following(step)
    case Following(previous) => Following(Max(previous, step))
    case CatchingUp(_) => if Sat(step + window) >= sealed then Following(step) else CatchingUp(Some(step))
  }

  predicate Moved(before: Pace, after: Pace) {
    after.Following? && (before.Following? ==> after.step > before.step)
  }

  /** A member that runs past the frontier is disconnected. */
  function Progressed(c: ClockState, m: Member, step: nat, now: nat): Member {
    if step > c.sealed then Unlinked(m)
    else
      var pace := Repaced(m.pace, step, Window(c.pacer, c.speed), c.sealed);
      m.(pace := pace, advanced := if Moved(m.pace, pace) then now else m.advanced)
  }

  function Find(members: seq<Member>, player: PlayerId, link: nat): Option<nat> {
    if members == [] then None
    else if members[0].player == player && members[0].link == Some(link) then Some(0)
    else
      match Find(members[1..], player, link)
      case None => None
      case Some(i) => Some(i + 1)
  }

  // ----- ticks

  /** Whether a member that holds the clock has kept the room waiting too long. */
  predicate Stalled(c: ClockState, m: Member, now: nat) {
    match m.pace
    case Loading => Since(now, c.started) >= c.loadTimeout
    case Following(step) => step < c.sealed && Since(now, m.advanced) >= c.stallTimeout
    case CatchingUp(_) => false
  }

  function Demoted(c: ClockState, m: Member, now: nat): Member {
    if !HoldsClock(m) then m
    else if c.speed == 0 then m.(advanced := now)
    else if Stalled(c, m, now) then
      m.(pace := if m.pace.Following? then CatchingUp(Some(m.pace.step)) else CatchingUp(None))
    else m
  }

  function DemoteAll(c: ClockState, members: seq<Member>, now: nat): seq<Member> {
    seq(|members|, i requires 0 <= i < |members| => Demoted(c, members[i], now))
  }

  /** `slowest` is the least step of those who follow and hold the clock, unless
      someone who holds it is loading or nobody follows. */
  predicate IsSlowest(members: seq<Member>, slowest: Option<nat>) {
    match slowest
    case None =>
      || (exists i | 0 <= i < |members| :: HoldsClock(members[i]) && members[i].pace.Loading?)
      || (forall i | 0 <= i < |members| :: HoldsClock(members[i]) ==> !members[i].pace.Following?)
    case Some(step) =>
      && (forall i | 0 <= i < |members| :: HoldsClock(members[i]) ==> !members[i].pace.Loading?)
      && (forall i | 0 <= i < |members| :: HoldsClock(members[i]) && members[i].pace.Following?
                                           ==> step <= members[i].pace.step)
      && (exists i | 0 <= i < |members| :: HoldsClock(members[i]) && members[i].pace == Following(step))
  }

  function Slowest(members: seq<Member>, least: Option<nat>): Option<nat>
    decreases |members|
  {
    if members == [] then least
    else if !HoldsClock(members[0]) then Slowest(members[1..], least)
    else
      match members[0].pace
      case Loading => None
      case Following(step) => Slowest(members[1..], Some(if least.Some? then Min(least.value, step) else step))
      case CatchingUp(_) => Slowest(members[1..], least)
  }

  function DropAt(members: seq<Member>, i: Option<nat>): seq<Member> {
    if i.Some? && i.value < |members| && members[i.value].link.Some?
    then members[i.value := Unlinked(members[i.value])] else members
  }

  /** A tick: stalled members are demoted, a save's late uploader may lose its link,
      and then the frontier is computed. */
  function TickAt(c: ClockState, now: nat, uploader: Option<nat>): ClockState {
    var members := DropAt(DemoteAll(c, c.members, now), uploader);
    var (pacer, frontier) := Advance(c.pacer, Since(now, c.lastTick), c.speed, Slowest(members, None), c.sealed);
    c.(members := members, pacer := pacer, sealed := frontier, lastTick := now)
  }

  // ----- what a room does

  datatype ClockStep =
    | Progress(player: PlayerId, link: nat, step: nat, now: nat)
    | Ticks(now: nat, uploader: Option<nat>)
    | Joins(player: PlayerId, link: nat, now: nat)
    | Leaves(index: nat)
    | Drops(index: nat)
    | Rejoins(index: nat, link: nat, streaming: bool)
    | Offered(index: nat, streaming: bool)
    | SetSpeed(speed: nat)

  function Step(c: ClockState, step: ClockStep): ClockState {
    match step
    case Progress(player, link, reported, now) =>
      var i := Find(c.members, player, link);
      if i.None? || i.value >= |c.members| then c
      else c.(members := c.members[i.value := Progressed(c, c.members[i.value], reported, now)])
    case Ticks(now, uploader) => TickAt(c, now, uploader)
    case Joins(player, link, now) =>
      c.(members := c.members + [Member(player, Some(link), false, CatchingUp(None), now)])
    case Leaves(i) => if i < |c.members| then c.(members := c.members[..i] + c.members[i + 1..]) else c
    case Drops(i) => if i < |c.members| then c.(members := c.members[i := Unlinked(c.members[i])]) else c
    case Rejoins(i, link, streaming) =>
      if i < |c.members|
      then c.(members := c.members[i := c.members[i].(link := Some(link), streaming := streaming, pace := CatchingUp(None))])
      else c
    case Offered(i, streaming) =>
      // Whoever still loads the first world keeps holding the clock.
      if i < |c.members| && c.members[i].link.Some? then
        var m := c.members[i].(streaming := streaming);
        c.(members := c.members[i := if streaming && !m.pace.Loading? then m.(pace := CatchingUp(None)) else m])
      else c
    case SetSpeed(speed) => c.(speed := speed)
  }

  // ----- what every run keeps

  /** No member is known to have run past the frontier. */
  predicate Behind(m: Member, sealed: nat) {
    match m.pace
    case Loading => true
    case Following(step) => step <= sealed
    case CatchingUp(last) => last.Some? ==> last.value <= sealed
  }

  predicate AllBehind(members: seq<Member>, sealed: nat) {
    forall i | 0 <= i < |members| :: Behind(members[i], sealed)
  }

  predicate ClockInv(c: ClockState) {
    && AllBehind(c.members, c.sealed) && c.sealed <= U64_MAX
    && c.pacer.remainder < UNITS_PER_STEP && c.pacer.ideal <= c.sealed
  }

  lemma {:induction false} SlowestIs(members: seq<Member>, least: Option<nat>)
    ensures match Slowest(members, least)
            case None =>
              || (exists i | 0 <= i < |members| :: HoldsClock(members[i]) && members[i].pace.Loading?)
              || (least.None? && forall i | 0 <= i < |members| :: HoldsClock(members[i]) ==> !members[i].pace.Following?)
            case Some(step) =>
              && (forall i | 0 <= i < |members| :: HoldsClock(members[i]) ==> !members[i].pace.Loading?)
              && (forall i | 0 <= i < |members| :: HoldsClock(members[i]) && members[i].pace.Following?
                                                   ==> step <= members[i].pace.step)
              && (least.Some? ==> step <= least.value)
              && (least == Some(step)
                  || exists i | 0 <= i < |members| :: HoldsClock(members[i]) && members[i].pace == Following(step))
    decreases |members|
  {
    if members != [] {
      var rest, m := members[1..], members[0];
      assert forall i | 0 < i < |members| :: members[i] == rest[i - 1];
      if !HoldsClock(m) || m.pace.CatchingUp? {
        SlowestIs(rest, least);
      } else if m.pace.Following? {
        SlowestIs(rest, Some(if least.Some? then Min(least.value, m.pace.step) else m.pace.step));
      }
    }
  }

  /** What a tick does to the frontier. `waiting` is who the room waits for once the
      stalled were demoted. */
  lemma TickSafe(c: ClockState, now: nat, uploader: Option<nat>)
    requires ClockInv(c)
    ensures var t := TickAt(c, now, uploader);
            && c.sealed <= t.sealed
            && (t.sealed > c.sealed
                ==> && (forall i | 0 <= i < |t.members| :: HoldsClock(t.members[i]) ==> !t.members[i].pace.Loading?)
                    && (exists i | 0 <= i < |t.members| :: HoldsClock(t.members[i]) && t.members[i].pace.Following?)
                    && (forall i | 0 <= i < |t.members| :: HoldsClock(t.members[i]) && t.members[i].pace.Following?
                          ==> t.sealed <= t.members[i].pace.step + Window(c.pacer, c.speed)))
            && (c.speed == 0 ==> t.sealed == c.sealed)
            && t.pacer.ideal <= t.sealed <= U64_MAX && t.pacer.remainder < UNITS_PER_STEP
  {
    var t := TickAt(c, now, uploader);
    var slowest := Slowest(t.members, None);
    SlowestIs(t.members, None);
    if slowest.Some? { TickSettles(c.pacer, Since(now, c.lastTick), c.speed, slowest.value, c.sealed); }
  }

  predicate SameHold(a: Member, b: Member) {
    && (HoldsClock(a) <==> HoldsClock(b))
    && (HoldsClock(a) ==> a.pace == b.pace || (a.pace.CatchingUp? && b.pace.CatchingUp?))
  }

  lemma {:induction false} SlowestSame(a: seq<Member>, b: seq<Member>, least: Option<nat>)
    requires |a| == |b| && forall i | 0 <= i < |a| :: SameHold(a[i], b[i])
    ensures Slowest(a, least) == Slowest(b, least)
    decreases |a|
  {
    if a != [] {
      assert SameHold(a[0], b[0]);
      assert forall i | 0 <= i < |a[1..]| :: a[1..][i] == a[i + 1] && b[1..][i] == b[i + 1];
      var next := if HoldsClock(a[0]) && a[0].pace.Following?
                  then Some(if least.Some? then Min(least.value, a[0].pace.step) else a[0].pace.step) else least;
      SlowestSame(a[1..], b[1..], next);
    }
  }

  /** In a room that is not paused whoever stalled is catching up before the frontier
      is computed, and nobody else is; the frontier is as if they had been catching up
      all along, wherever they stood. */
  lemma StalledAreDemoted(c: ClockState, now: nat, uploader: Option<nat>, i: nat)
    requires i < |c.members| && c.speed > 0 && HoldsClock(c.members[i])
    ensures var t := TickAt(c, now, uploader);
            i < |t.members| && (Stalled(c, c.members[i], now) ==> t.members[i].pace.CatchingUp?)
    ensures !Stalled(c, c.members[i], now) && uploader != Some(i)
            ==> i < |TickAt(c, now, uploader).members| && TickAt(c, now, uploader).members[i] == c.members[i]
    ensures var aside := c.(members := c.members[i := c.members[i].(pace := CatchingUp(None))]);
            Stalled(c, c.members[i], now) ==> TickAt(c, now, uploader).sealed == TickAt(aside, now, uploader).sealed
  {
    var aside := c.(members := c.members[i := c.members[i].(pace := CatchingUp(None))]);
    if Stalled(c, c.members[i], now) {
      var a, b := TickAt(c, now, uploader).members, TickAt(aside, now, uploader).members;
      forall k | 0 <= k < |a| ensures SameHold(a[k], b[k]) {
        assert k != i ==> Demoted(c, c.members[k], now) == Demoted(aside, aside.members[k], now);
      }
      SlowestSame(a, b, None);
    }
  }

  /** Who is demoted in a room that is not paused: of those that stream, or wait for the
      first world, exactly one that loads past its deadline, and one that follows
      behind the frontier and got no further for the stall timeout. It catches up from
      where it stood. */
  lemma DemotionIs(c: ClockState, now: nat, i: nat)
    requires i < |c.members| && c.speed > 0
    ensures var was, m := c.members[i], TickAt(c, now, None).members[i];
            && (m != was
                <==> || (&& was.pace.Loading? && (was.streaming || was.link.Some?)
                         && (c.loadTimeout == 0 || now >= c.started + c.loadTimeout))
                     || (&& was.pace.Following? && was.streaming && was.pace.step < c.sealed
                         && (c.stallTimeout == 0 || now >= was.advanced + c.stallTimeout)))
            && m == was.(pace := m.pace)
            && (m != was ==> m.pace == CatchingUp(if was.pace.Following? then Some(was.pace.step) else None))
  {
  }

  /** In a paused room nobody is demoted, and every clock restarts. */
  lemma PausedRestarts(c: ClockState, now: nat, i: nat)
    requires i < |c.members| && c.speed == 0 && HoldsClock(c.members[i])
    ensures TickAt(c, now, None).members[i] == c.members[i].(advanced := now)
  {
  }

  lemma TickBehind(c: ClockState, now: nat, uploader: Option<nat>)
    requires ClockInv(c)
    ensures ClockInv(TickAt(c, now, uploader))
  {
    TickSafe(c, now, uploader);
    var d := DemoteAll(c, c.members, now);
    assert AllBehind(d, c.sealed) by {
      forall i | 0 <= i < |d| ensures Behind(d[i], c.sealed) { assert Behind(c.members[i], c.sealed); }
    }
    assert AllBehind(DropAt(d, uploader), c.sealed);
  }

  lemma {:induction false} FindIs(members: seq<Member>, player: PlayerId, link: nat)
    ensures match Find(members, player, link)
            case None => forall i | 0 <= i < |members| :: members[i].player != player || members[i].link != Some(link)
            case Some(i) => i < |members| && members[i].player == player && members[i].link == Some(link)
  {
    if members != [] { FindIs(members[1..], player, link); }
  }

  /** The member that reports: the first of that player on that connection. */
  predicate Reports(members: seq<Member>, i: nat, player: PlayerId, link: nat) {
    && i < |members| && members[i].player == player && members[i].link == Some(link)
    && forall j | 0 <= j < i :: members[j].player != player || members[j].link != Some(link)
  }

  lemma {:induction false} FindIsFirst(members: seq<Member>, i: nat, player: PlayerId, link: nat)
    requires Reports(members, i, player, link)
    ensures Find(members, player, link) == Some(i)
  {
    if i > 0 {
      assert members[0].player != player || members[0].link != Some(link);
      assert forall j | 0 <= j < i - 1 :: members[1..][j] == members[j + 1];
      FindIsFirst(members[1..], i - 1, player, link);
    }
  }

  /** What a report does. The member follows from then on if and only if it was
      loading or following, or is within the window of the frontier; a follower is
      where it got furthest; and its stall clock restarts exactly if it began to
      follow or got further. */
  lemma ProgressIs(c: ClockState, player: PlayerId, link: nat, step: nat, now: nat, i: nat)
    requires ClockInv(c) && Reports(c.members, i, player, link) && step <= c.sealed
    ensures var d, was := Step(c, Progress(player, link, step, now)), c.members[i];
            && |d.members| == |c.members| && d == c.(members := c.members[i := d.members[i]])
            && var m := d.members[i];
               && m == was.(pace := m.pace, advanced := m.advanced)
               && (m.pace.Following?
                   <==> !was.pace.CatchingUp? || c.sealed <= step + Window(c.pacer, c.speed))
               && (m.pace.Following? ==> step <= m.pace.step
                                          && (m.pace.step != step ==> was.pace == Following(m.pace.step)))
               && (m.pace.Following? && was.pace.Following? ==> was.pace.step <= m.pace.step)
               && (!m.pace.Following? ==> m.pace == CatchingUp(Some(step)))
               && m.advanced == if m.pace.Following? && (was.pace.Following? ==> step > was.pace.step)
                                 then now else was.advanced
  {
    FindIsFirst(c.members, i, player, link);
  }

  /** A member further behind than the window holds nobody up by reporting. */
  lemma FarBehindHoldsNobody(c: ClockState, player: PlayerId, link: nat, step: nat, now: nat, i: nat)
    requires ClockInv(c) && Reports(c.members, i, player, link) && c.members[i].pace.CatchingUp?
    requires step + Window(c.pacer, c.speed) < c.sealed
    ensures Slowest(Step(c, Progress(player, link, step, now)).members, None) == Slowest(c.members, None)
  {
    ProgressIs(c, player, link, step, now, i);
    SlowestSame(Step(c, Progress(player, link, step, now)).members, c.members, None);
  }

  /** Nothing but its own report has a member follow, or moves one that does. */
  lemma OnlyReportsMove(c: ClockState, step: ClockStep, k: nat)
    requires !step.Progress? && k < |Step(c, step).members| && Step(c, step).members[k].pace.Following?
    ensures exists j | 0 <= j < |c.members| ::
              c.members[j].player == Step(c, step).members[k].player
              && c.members[j].pace == Step(c, step).members[k].pace
  {
    var m := Step(c, step).members[k];
    if step.Ticks? {
      assert DropAt(DemoteAll(c, c.members, step.now), step.uploader)[k] == Demoted(c, c.members[k], step.now);
    }
    var j := if step.Leaves? && step.index < |c.members| && k >= step.index then k + 1 else k;
    assert c.members[j].player == m.player && c.members[j].pace == m.pace;
  }

  function Furthest(step: nat, reports: seq<nat>): nat
    decreases |reports|
  {
    if reports == [] then step else Max(Furthest(step, Init(reports)), Last(reports))
  }

  /** A member's pace after a run of reports, while the frontier stands. */
  function Reported(pace: Pace, reports: seq<nat>, window: nat, sealed: nat): Pace
    decreases |reports|
  {
    if reports == [] then pace else Repaced(Reported(pace, Init(reports), window, sealed), Last(reports), window, sealed)
  }

  /** A follower is at the furthest it reported since it began to follow. */
  lemma {:induction false} FollowsFurthest(step: nat, reports: seq<nat>, window: nat, sealed: nat)
    ensures Reported(Following(step), reports, window, sealed) == Following(Furthest(step, reports))
    ensures Furthest(step, reports) == step || Furthest(step, reports) in reports
    ensures step <= Furthest(step, reports) && forall i | 0 <= i < |reports| :: reports[i] <= Furthest(step, reports)
    decreases |reports|
  {
    if reports != [] { FollowsFurthest(step, Init(reports), window, sealed); }
  }

  /** Everything reported is sealed, whatever happens; and what runs past the
      frontier is cut off. */
  lemma StepKeeps(c: ClockState, step: ClockStep)
    requires ClockInv(c)
    ensures ClockInv(Step(c, step))
    ensures step.Progress? && step.step > c.sealed
            ==> match Find(c.members, step.player, step.link)
                case None => Step(c, step) == c
                case Some(i) => i < |c.members| && Step(c, step).members[i].link.None?
                                && !HoldsClock(Step(c, step).members[i])
  {
    match step
    case Ticks(now, uploader) => TickBehind(c, now, uploader);
    case Progress(player, link, _, _) => FindIs(c.members, player, link);
    case _ =>
  }

  function Run(c: ClockState, steps: seq<ClockStep>): ClockState
    decreases |steps|
  {
    if steps == [] then c else Step(Run(c, Init(steps)), Last(steps))
  }

  /** In every state of every run all reported progress is at most the frontier. */
  lemma {:induction false} EveryRunBehind(c: ClockState, steps: seq<ClockStep>)
    requires ClockInv(c)
    ensures ClockInv(Run(c, steps)) && c.sealed <= Run(c, steps).sealed
    decreases |steps|
  {
    if steps != [] {
      EveryRunBehind(c, Init(steps));
      var before := Run(c, Init(steps));
      StepKeeps(before, Last(steps));
      if Last(steps).Ticks? { TickSafe(before, Last(steps).now, Last(steps).uploader); }
    }
  }

  // ----- in place

  method SlowestPacer(members: seq<Member>) returns (slowest: Option<nat>)
    ensures slowest == Slowest(members, None) && IsSlowest(members, slowest)
  {
    SlowestIs(members, None);
    slowest := None;
    var i := 0;
    assert members[0..] == members;
    while i < |members|
      invariant 0 <= i <= |members| && Slowest(members[i..], slowest) == Slowest(members, None)
    {
      var m := members[i];
      assert members[i..][1..] == members[i + 1..];
      if HoldsClock(m) {
        match m.pace {
          case Loading => return None;
          case Following(step) => slowest := Some(if slowest.Some? then Min(slowest.value, step) else step);
          case CatchingUp(_) =>
        }
      }
      i := i + 1;
    }
  }

  class Clock {
    var members: seq<Member>
    var pacer: PacerState
    var speed: nat
    var sealed: nat
    var started: nat
    var lastTick: nat
    var stallTimeout: nat
    var loadTimeout: nat

    ghost function State(): ClockState
      reads this
    {
      ClockState(members, pacer, speed, sealed, started, lastTick, stallTimeout, loadTimeout)
    }

    constructor (c: ClockState)
      ensures State() == c
    {
      members, pacer, speed, sealed := c.members, c.pacer, c.speed, c.sealed;
      started, lastTick, stallTimeout, loadTimeout := c.started, c.lastTick, c.stallTimeout, c.loadTimeout;
    }

    method ReportProgress(player: PlayerId, link: nat, step: nat, now: nat)
      modifies this`members
      ensures State() == Step(old(State()), Progress(player, link, step, now))
    {
      FindIs(members, player, link);
      var i := Find(members, player, link);
      if i.None? {
        return;
      }
      var m := members[i.value];
      if step > sealed {
        members := members[i.value := m.(link := None, streaming := false, pace := CatchingUp(None))];
        return;
      }
      var pace := Repaced(m.pace, step, Window(pacer, speed), sealed);
      if Moved(m.pace, pace) {
        m := m.(advanced := now);
      }
      members := members[i.value := m.(pace := pace)];
    }

    method DemoteStalled(now: nat)
      modifies this`members
      ensures members == DemoteAll(old(State()), old(members), now)
    {
      ghost var c := State();
      var i := 0;
      while i < |members|
        invariant 0 <= i <= |members| == |c.members|
        invariant forall k | 0 <= k < i :: members[k] == Demoted(c, c.members[k], now)
        invariant forall k | i <= k < |members| :: members[k] == c.members[k]
      {
        var m := members[i];
        if HoldsClock(m) {
          var d := Demote(m, now, c);
          members := members[i := d];
        }
        i := i + 1;
      }
    }

    method Demote(m: Member, now: nat, ghost c: ClockState) returns (d: Member)
      requires HoldsClock(m) && State() == c.(members := members)
      ensures d == Demoted(c, m, now)
    {
      d := m;
      if speed == 0 {
        d := d.(advanced := now);
        return;
      }
      var stalled := match m.pace
                     case Loading => Since(now, started) >= loadTimeout
                     case Following(step) => step < sealed && Since(now, m.advanced) >= stallTimeout
                     case CatchingUp(_) => false;
      if stalled {
        d := d.(pace := if m.pace.Following? then CatchingUp(Some(m.pace.step)) else CatchingUp(None));
      }
    }

    method OnTick(now: nat, uploader: Option<nat>)
      modifies this
      ensures State() == TickAt(old(State()), now, uploader)
    {
      DemoteStalled(now);
      members := DropAt(members, uploader);
      var elapsed := Since(now, lastTick);
      lastTick := now;
      var slowest := SlowestPacer(members);
      var advanced := Advance(pacer, elapsed, speed, slowest, sealed);
      pacer, sealed := advanced.0, advanced.1;
    }
  }
}

/**
What the game reports of the loads it was ordered, and when that breaks the
bridge (crates/tpf3mp-agent/src/bridge.rs:477-489).

The bridge keeps one world at a time and faults when a report is not about it.
An honest game answers every load it was sent, in order. So no report breaks the
bridge as long as no stream that needs another world arrives while a load already
sent is unanswered. One that does leaves a report the bridge does not wait for:
unless yet another stream or fetch happens to order a world it fits, the bridge
faults once the game has answered, although neither game nor room did anything
wrong.
*/
module Loads {
  import opened Protocol
  import opened Gate
  import opened Tracks
  import opened Pipeline
  import B = Bridge
  import F = Follower

  function Answering(p: Pipe): seq<nat> {
    p.reports + if p.hook.pending.Some? then [p.hook.pending.value] else []
  }

  /** Loads sent to the hook whose report the agent has not read. */
  function SentLoads(p: Pipe): seq<nat> {
    Answering(p) + LoadsIn(p.link)
  }

  /** Every load ordered whose report the agent has not read, oldest first. */
  function Unanswered(p: Pipe): seq<nat> {
    SentLoads(p) + LoadsIn(p.bridge.outbox)
  }

  /** The only load unanswered is the one the bridge waits for. */
  predicate Clean(p: Pipe) {
    Unanswered(p) == if p.bridge.world.Loading? then [p.bridge.world.nextStep] else []
  }

  /** The stream needs another world than the one the game has or loads. */
  predicate NeedsWorld(p: Pipe, opening: B.StreamStart) {
    opening.Offered() || p.bridge.follower.None? || F.Continue(p.bridge.follower.value, opening.start).Err?
  }

  predicate Supersedes(p: Pipe, s: PipeStep) {
    s.StreamArrives? && NeedsWorld(p, s.opening) && SentLoads(p) != []
  }

  lemma {:induction false} LoadsInAppend(a: seq<ToHook>, b: seq<ToHook>)
    ensures LoadsIn(a + b) == LoadsIn(a) + LoadsIn(b)
  {
    if a == [] {
      assert a + b == b;
    } else {
      LoadsInAppend(a[1..], b);
      assert (a + b)[0] == a[0] && (a + b)[1..] == a[1..] + b;
      Assoc(if a[0].Load? then [a[0].nextStep] else [], LoadsIn(a[1..]), LoadsIn(b));
    }
  }

  lemma {:induction false} NoLoadPushed(out: seq<ToHook>, m: ToHook)
    requires !m.Load?
    ensures LoadsIn(out + [m]) == LoadsIn(out)
  {
    LoadsInAppend(out, [m]);
    assert [m][1..] == [];
    assert LoadsIn(out) + [] == LoadsIn(out);
  }

  lemma {:induction false} NoLoadsRetained(messages: seq<ToHook>)
    ensures LoadsIn(B.Retain(messages)) == []
  {
    if messages != [] {
      NoLoadsRetained(messages[1..]);
      LoadsInAppend(if B.OfWorld(messages[0]) then [] else [messages[0]], B.Retain(messages[1..]));
    }
  }

  lemma {:induction false} PumpOrdersNoLoad(f: F.FollowerState, p: B.P.PlayoutState, now: nat, out: seq<ToHook>,
                                            released: Option<nat>, pace: B.Pacing)
    ensures LoadsIn(B.Pump(f, p, now, out, released, pace).out) == LoadsIn(out)
    decreases B.Left(f)
  {
    var once := B.PumpOnce(f, p, now, out, released, pace);
    LoadsInAppend(out, [Release(if released.Some? then released.value else 0)]);
    if once.More? {
      if once.out != out { LoadsInAppend(B.Releasing(out, released), [ApplyEvent(f.queue[0])]); }
      PumpOrdersNoLoad(once.follower, once.playout, now, once.out, once.released, pace);
    }
  }

  /** What reports depend on, of all that is invariant. */
  predicate Orderly(p: Pipe) {
    && (p.bridge.begun <==> p.bridge.follower.Some?)
    && (!p.phase.Playing? ==> p.hook.pending.None?)
    && (!p.bridge.hookReady ==> p.link == [])
  }

  lemma InvOrderly(p: Pipe)
    requires Inv(p)
    ensures Orderly(p)
  {
  }

  /** What a stream that needs another world leaves of the outbox. */
  lemma VoidsOutbox(p: Pipe, opening: B.StreamStart, margin: nat, memory: nat)
    requires Orderly(p) && NeedsWorld(p, opening) && TakeStream(p, opening, margin, memory).On?
    ensures var q := TakeStream(p, opening, margin, memory).pipe;
            && SentLoads(q) == SentLoads(p)
            && LoadsIn(q.bridge.outbox) == (if opening.Offered() then [] else [opening.start.at.sealed + 1])
            && (if opening.Offered() then q.bridge.world.Fetching?
                else q.bridge.world == B.WorldState.Loading(opening.start.at.sealed + 1))
  {
    var b := B.Opened(p.bridge, opening, margin, memory);
    NoLoadsRetained(b.outbox);
    LoadsInAppend(B.Retain(b.outbox), [Load(None, opening.start.at.sealed + 1)]);
  }

  lemma StreamClean(p: Pipe, opening: B.StreamStart, margin: nat, memory: nat)
    requires Orderly(p) && Clean(p) && TakeStream(p, opening, margin, memory).On?
    requires !(NeedsWorld(p, opening) && SentLoads(p) != [])
    ensures Clean(TakeStream(p, opening, margin, memory).pipe)
  {
    if NeedsWorld(p, opening) { VoidsOutbox(p, opening, margin, memory); }
  }

  lemma TurnLoads(b: B.BridgeState, turn: Turn, now: nat)
    requires B.OnTurn(b, turn, now).Goes?
    ensures var next := B.OnTurn(b, turn, now).bridge;
            next.world == b.world && LoadsIn(next.outbox) == LoadsIn(b.outbox)
  {
    NoLoadPushed(b.outbox, ToHook.Speed(B.OnTurn(b, turn, now).bridge.speed));
  }

  lemma TurnClean(p: Pipe, turn: Turn, now: nat)
    requires Clean(p) && TakeTurn(p, turn, now).On?
    ensures Clean(TakeTurn(p, turn, now).pipe)
  {
    TurnLoads(p.bridge, turn, now);
    assert SentLoads(TakeTurn(p, turn, now).pipe) == SentLoads(p);
  }

  lemma PumpClean(p: Pipe, now: nat, pace: B.Pacing)
    requires Clean(p)
    ensures Clean(TakePump(p, now, pace).pipe)
  {
    var b := p.bridge;
    if !(b.world.Fetching? || b.follower.None? || b.playout.None?) {
      PumpOrdersNoLoad(b.follower.value, b.playout.value, now, b.outbox, None, pace);
    }
  }

  lemma FlushClean(p: Pipe, taken: nat)
    requires Clean(p) && TakeFlush(p, taken).On?
    ensures Clean(TakeFlush(p, taken).pipe)
  {
    if p.bridge.hookReady {
      var first, rest := p.bridge.outbox[..taken], p.bridge.outbox[taken..];
      assert p.bridge.outbox == first + rest;
      Passes(Answering(p), p.link, first, rest);
    } else {
      assert TakeFlush(p, taken).pipe == p;
    }
  }

  /** Passing messages on to the link leaves the loads in their order. */
  lemma Passes(a: seq<nat>, link: seq<ToHook>, first: seq<ToHook>, rest: seq<ToHook>)
    ensures a + LoadsIn(link) + LoadsIn(first + rest) == a + LoadsIn(link + first) + LoadsIn(rest)
  {
    LoadsInAppend(link, first);
    LoadsInAppend(first, rest);
    Moves(a, LoadsIn(link), LoadsIn(first), LoadsIn(rest));
  }

  lemma Moves(a: seq<nat>, b: seq<nat>, c: seq<nat>, d: seq<nat>)
    ensures a + b + (c + d) == a + (b + c) + d
  {
  }

  lemma FetchedClean(p: Pipe, attempt: nat, path: string)
    requires Clean(p) && TakeFetched(p, attempt, path).On?
    ensures Clean(TakeFetched(p, attempt, path).pipe)
  {
    if p.bridge.world.Fetching? && p.bridge.world.attempt == attempt {
      var file := Some(File(path, p.fetches[attempt - 1]));
      NoLoadsRetained(p.bridge.outbox);
      LoadsInAppend(B.Retain(p.bridge.outbox), [Load(file, p.bridge.world.nextStep)]);
    } else {
      OldFetchIsIgnored(p, attempt, path);
    }
  }

  lemma NoticeClean(p: Pipe, m: ToHook)
    requires Clean(p) && TakeNotice(p, m).On?
    ensures Clean(TakeNotice(p, m).pipe)
  {
    NoLoadPushed(p.bridge.outbox, m);
  }

  lemma HelloClean(p: Pipe)
    requires Clean(p) && TakeHello(p).On?
    ensures Clean(TakeHello(p).pipe)
  {
    NoLoadFirst(p.bridge.outbox, Hello);
  }

  lemma NoLoadFirst(out: seq<ToHook>, m: ToHook)
    requires !m.Load?
    ensures LoadsIn([m] + out) == LoadsIn(out)
  {
    assert ([m] + out)[1..] == out;
  }

  lemma ReadTakes(p: Pipe)
    requires Orderly(p) && TakeRead(p).On?
    ensures var q := TakeRead(p).pipe;
            && p.link != [] && q.bridge == p.bridge && q.reports == p.reports && q.link == p.link[1..]
            && p.hook.pending.None?
            && q.hook.pending == if p.link[0].Load? then Some(p.link[0].nextStep) else None
  {
  }

  lemma ReadClean(p: Pipe)
    requires Orderly(p) && Clean(p) && TakeRead(p).On?
    ensures Clean(TakeRead(p).pipe)
  {
    ReadTakes(p);
    var m := p.link[0];
    Assoc(p.reports, if m.Load? then [m.nextStep] else [], LoadsIn(p.link[1..]));
    assert SentLoads(TakeRead(p).pipe) == SentLoads(p);
  }

  lemma ReportClean(p: Pipe)
    requires Clean(p) && p.reports != []
    ensures TakeReport(p).On? && Clean(TakeReport(p).pipe)
  {
    assert Unanswered(p)[0] == p.reports[0];
    assert p.bridge.world.Loading? && |Unanswered(p)| == 1;
  }

  lemma StepClean(p: Pipe)
    requires Clean(p) && TakeStep(p).On?
    ensures Clean(TakeStep(p).pipe)
  {
    assert SentLoads(TakeStep(p).pipe) == SentLoads(p);
  }

  lemma LoadClean(p: Pipe)
    requires Clean(p) && TakeLoad(p).On?
    ensures Clean(TakeLoad(p).pipe)
  {
    assert Answering(TakeLoad(p).pipe) == Answering(p);
  }

  /** Without a superseded load, no report of the game breaks the bridge. */
  lemma ReportsFit(p: Pipe, s: PipeStep)
    requires Orderly(p) && Clean(p) && !Supersedes(p, s)
    ensures Take(p, s).On? ==> Clean(Take(p, s).pipe)
    ensures s.AgentHears? ==> !Take(p, s).BridgeBroke?
  {
    if Take(p, s).On? || s.AgentHears? {
      match s
      case StreamArrives(opening, margin, memory) => StreamClean(p, opening, margin, memory);
      case TurnArrives(turn, at) => TurnClean(p, turn, at);
      case PumpRuns(at, pace) => PumpClean(p, at, pace);
      case FlushRuns(taken) => FlushClean(p, taken);
      case WorldFetched(attempt, path) => FetchedClean(p, attempt, path);
      case NoticeArrives(m) => NoticeClean(p, m);
      case HookAttaches => HelloClean(p);
      case HookReads => ReadClean(p);
      case GameSteps => StepClean(p);
      case GameLoads => LoadClean(p);
      case AgentHears => if p.reports != [] { ReportClean(p); }
    }
  }

  // ----- loads overtaken

  /** The reports to come are the one the bridge waits for, or none. */
  predicate Fitting(world: B.WorldState, reports: seq<nat>) {
    reports == [] || (world.Loading? && reports == [world.nextStep])
  }

  /** More reports are to come than the bridge waits for, or others. */
  predicate Overdue(p: Pipe) {
    !Fitting(p.bridge.world, Unanswered(p))
  }

  predicate NoEnd(queue: seq<ToHook>) {
    forall i | 0 <= i < |queue| :: !queue[i].End?
  }

  /** The game was told to end, or will be. */
  predicate Ending(p: Pipe) {
    p.hook.gate.ended || !NoEnd(p.link) || !NoEnd(p.bridge.outbox)
  }

  predicate Open(p: Pipe) {
    p.bridge.hookReady && !Ending(p)
  }

  /** Steps that only work off what is on its way. */
  predicate Drains(s: PipeStep) {
    (s.FlushRuns? && s.taken > 0) || s.HookReads? || s.GameSteps? || s.GameLoads? || s.AgentHears?
  }

  /** A stream that overtakes a load leaves reports the bridge does not wait for. */
  lemma SupersededIsOverdue(p: Pipe, s: PipeStep)
    requires Inv(p) && Supersedes(p, s) && Take(p, s).On?
    ensures Overdue(Take(p, s).pipe) && Take(p, s).pipe.bridge.hookReady
    ensures s.opening.Offered() ==> Take(p, s).pipe.bridge.world.Fetching?
  {
    InvOrderly(p);
    SentToHook(p);
    VoidsOutbox(p, s.opening, s.margin, s.memory);
    StreamHook(p.bridge, s.opening, s.margin, s.memory);
  }

  lemma SentToHook(p: Pipe)
    requires Inv(p) && SentLoads(p) != []
    ensures p.bridge.hookReady
  {
  }

  lemma StreamHook(b: B.BridgeState, opening: B.StreamStart, margin: nat, memory: nat)
    requires B.OnStream(b, opening, margin, memory).Goes?
    ensures B.OnStream(b, opening, margin, memory).bridge.hookReady == b.hookReady
  {
  }

  function Cost(m: ToHook): nat {
    match m
    case Release(through) => through + 1
    case Load(_, _) => 4
    case _ => 1
  }

  function CostOf(queue: seq<ToHook>): nat {
    if queue == [] then 0 else Cost(queue[0]) + CostOf(queue[1..])
  }

  lemma {:induction false} CostAppend(a: seq<ToHook>, b: seq<ToHook>)
    ensures CostOf(a + b) == CostOf(a) + CostOf(b)
  {
    if a == [] {
      assert a + b == b;
    } else {
      CostAppend(a[1..], b);
      assert (a + b)[0] == a[0] && (a + b)[1..] == a[1..] + b;
    }
  }

  /** Steps the gate lets through without another message. */
  function StepsLeft(g: GateState): nat {
    if g.released >= g.nextStep then g.released + 1 - g.nextStep else 0
  }

  /** What is left to do of all that is on its way. */
  function Work(p: Pipe): nat {
    CostOf(p.bridge.outbox) + |p.bridge.outbox| + CostOf(p.link) + StepsLeft(p.hook.gate)
    + (if p.hook.pending.Some? then 2 else 0) + |p.reports|
  }

  /** A step that drains leaves less to do, keeps what is overdue and what is not,
      and can only fault over what is. */
  ghost predicate Drained(p: Pipe, taken: Stepped) {
    match taken
    case On(q) =>
      && Open(q) && Work(q) < Work(p) && (Overdue(q) <==> Overdue(p))
      && (p.bridge.world.Fetching? ==> q.bridge.world.Fetching?)
    case BridgeBroke(fault) =>
      Overdue(p) && if p.bridge.world.Loading? then fault.LoadedElsewhere? else fault.NobodyOrdered?
    case _ => true
  }

  lemma FlushDrains(p: Pipe, taken: nat)
    requires Open(p) && taken > 0
    ensures Drained(p, TakeFlush(p, taken))
  {
    if TakeFlush(p, taken).On? {
      var out, q := p.bridge.outbox, TakeFlush(p, taken).pipe;
      assert out == out[..taken] + out[taken..];
      CostAppend(out[..taken], out[taken..]);
      CostAppend(p.link, out[..taken]);
      LoadsInAppend(p.link, out[..taken]);
      LoadsInAppend(out[..taken], out[taken..]);
      Moves(Answering(p), LoadsIn(p.link), LoadsIn(out[..taken]), LoadsIn(out[taken..]));
      assert Unanswered(q) == Unanswered(p);
    }
  }

  lemma ReadDrains(p: Pipe)
    requires Inv(p) && Open(p)
    ensures Drained(p, TakeRead(p))
  {
    if TakeRead(p).On? {
      var m, q := p.link[0], TakeRead(p).pipe;
      InvOrderly(p);
      ReadTakes(p);
      Assoc(p.reports, if m.Load? then [m.nextStep] else [], LoadsIn(p.link[1..]));
      assert Unanswered(q) == Unanswered(p);
      ReadGate(p);
    }
  }

  /** What reading does to the gate. */
  lemma ReadGate(p: Pipe)
    requires Inv(p) && Open(p) && TakeRead(p).On?
    ensures var g, h, m := p.hook.gate, TakeRead(p).pipe.hook.gate, p.link[0];
            !h.ended && StepsLeft(g) == 0 && StepsLeft(h) <= if m.Release? then m.through else 0
  {
  }

  lemma StepDrains(p: Pipe)
    requires Open(p)
    ensures Drained(p, TakeStep(p))
  {
    if TakeStep(p).On? { assert Unanswered(TakeStep(p).pipe) == Unanswered(p); }
  }

  lemma LoadDrains(p: Pipe)
    requires Inv(p) && Open(p)
    ensures Drained(p, TakeLoad(p))
  {
    if TakeLoad(p).On? {
      assert Answering(TakeLoad(p).pipe) == Answering(p);
      assert Unanswered(TakeLoad(p).pipe) == Unanswered(p);
    }
  }

  lemma HearDrains(p: Pipe)
    requires Open(p)
    ensures Drained(p, TakeReport(p))
  {
    if p.reports != [] {
      var loading := if p.hook.pending.Some? then [p.hook.pending.value] else [];
      var rest := p.reports[1..] + loading + LoadsIn(p.link) + LoadsIn(p.bridge.outbox);
      FirstAnswered(p.reports, loading, LoadsIn(p.link), LoadsIn(p.bridge.outbox));
      assert Unanswered(p) == [p.reports[0]] + rest;
      assert TakeReport(p).On? ==> Unanswered(TakeReport(p).pipe) == rest;
      Only(p.reports[0], rest);
    }
  }

  lemma Only(first: nat, rest: seq<nat>)
    ensures [first] + rest == [first] <==> rest == []
    ensures forall n :: [first] + rest == [n] ==> n == first
  {
    assert |[first] + rest| == 1 + |rest| && ([first] + rest)[0] == first;
    if rest == [] { assert [first] + rest == [first]; }
  }

  lemma FirstAnswered(reports: seq<nat>, loading: seq<nat>, sent: seq<nat>, waiting: seq<nat>)
    requires reports != []
    ensures reports + loading + sent + waiting == [reports[0]] + (reports[1..] + loading + sent + waiting)
  {
  }

  lemma DrainKeeps(p: Pipe, s: PipeStep)
    requires Inv(p) && Open(p) && Drains(s)
    ensures Drained(p, Take(p, s))
  {
    match s
    case FlushRuns(taken) => FlushDrains(p, taken);
    case HookReads => ReadDrains(p);
    case GameSteps => StepDrains(p);
    case GameLoads => LoadDrains(p);
    case AgentHears => HearDrains(p);
  }

  /** While anything is overdue, something on its way can be worked off. */
  lemma OverdueMoves(p: Pipe) returns (s: PipeStep)
    requires Inv(p) && Open(p) && Overdue(p)
    ensures Drains(s) && !Take(p, s).Disabled?
  {
    if p.reports != [] {
      s := AgentHears;
    } else if p.hook.pending.Some? {
      s := GameLoads;
    } else if p.phase.Playing? && MayRun(p.hook.gate) {
      s := GameSteps;
    } else if p.link != [] {
      s := HookReads;
    } else {
      StillWaiting(p);
      s := FlushRuns(|p.bridge.outbox|);
    }
  }

  lemma StillWaiting(p: Pipe)
    requires Overdue(p) && p.reports == [] && p.hook.pending.None? && p.link == []
    ensures p.bridge.outbox != []
  {
  }
}

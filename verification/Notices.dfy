/**
What the agent tells the game besides its world: that it diverged, that a command
was refused, what was said, and that the session ends. Whatever is voided,
fetched, loaded or resumed in between, the hook reads exactly what it was told,
once and in order.
*/
module Notices {
  import opened Protocol
  import opened Gate
  import opened Sequencer
  import opened Recovery
  import opened Pipeline
  import opened Lockstep
  import O = Overtaking
  import B = Bridge
  import F = Follower
  import P = Playout

  predicate IsNotice(m: ToHook) {
    m.Diverged? || m.Refused? || m.Chat? || m.End?
  }

  function One(m: ToHook): seq<ToHook> {
    if IsNotice(m) then [m] else []
  }

  function NoticesIn(queue: seq<ToHook>): seq<ToHook>
    decreases |queue|
  {
    if queue == [] then [] else NoticesIn(Init(queue)) + One(Last(queue))
  }

  lemma {:induction false} NoticesAppend(a: seq<ToHook>, b: seq<ToHook>)
    ensures NoticesIn(a + b) == NoticesIn(a) + NoticesIn(b)
    decreases |b|
  {
    if b == [] {
      assert a + b == a;
    } else {
      assert Last(a + b) == Last(b) && Init(a + b) == a + Init(b);
      NoticesAppend(a, Init(b));
      Assoc(NoticesIn(a), NoticesIn(Init(b)), One(Last(b)));
    }
  }

  /** One more message, first or last. */
  lemma {:induction false} NoticesPush(queue: seq<ToHook>, m: ToHook)
    ensures NoticesIn(queue + [m]) == NoticesIn(queue) + One(m)
    ensures NoticesIn([m] + queue) == One(m) + NoticesIn(queue)
  {
    NoticesAppend([m], queue);
    assert Init([m]) == [] && Init(queue + [m]) == queue;
    assert NoticesIn([m]) == [] + One(m);
  }

  lemma {:induction false} OthersPush(queue: seq<ToHook>, m: ToHook)
    requires !IsNotice(m)
    ensures NoticesIn(queue + [m]) == NoticesIn(queue) && NoticesIn([m] + queue) == NoticesIn(queue)
  {
    NoticesPush(queue, m);
    assert NoticesIn(queue) + [] == NoticesIn(queue) && [] + NoticesIn(queue) == NoticesIn(queue);
  }

  /** Voiding a world voids no notice. */
  lemma {:induction false} NoticesRetained(queue: seq<ToHook>)
    ensures NoticesIn(B.Retain(queue)) == NoticesIn(queue)
    decreases |queue|
  {
    if queue != [] {
      var rest := queue[1..];
      assert queue == [queue[0]] + rest;
      NoticesPush(rest, queue[0]);
      NoticesPush(B.Retain(rest), queue[0]);
      NoticesRetained(rest);
      assert [] + B.Retain(rest) == B.Retain(rest);
    }
  }

  /** The notices the hook has yet to read. */
  function OnWay(p: Pipe): seq<ToHook> {
    NoticesIn(p.link) + NoticesIn(p.bridge.outbox)
  }

  /** A step adds the notice it is given, takes the one it reads, and leaves the rest
      on their way. */
  predicate Passes(p: Pipe, q: Pipe, step: PipeStep) {
    match step
    case NoticeArrives(m) => OnWay(q) == OnWay(p) + [m]
    case HookReads => p.link != [] && OnWay(p) == One(p.link[0]) + OnWay(q)
    case _ => OnWay(q) == OnWay(p)
  }

  // ----- every step of a client

  lemma OrderQuiet(b: B.BridgeState, file: Option<File>, nextStep: nat)
    ensures NoticesIn(B.OrderLoad(b, file, nextStep).outbox) == NoticesIn(b.outbox)
  {
    NoticesRetained(b.outbox);
    OthersPush(B.Retain(b.outbox), Load(file, nextStep));
  }

  lemma OpenedQuiet(b: B.BridgeState, o: B.StreamStart, margin: nat, memory: nat)
    ensures NoticesIn(B.Opened(b, o, margin, memory).outbox) == NoticesIn(b.outbox)
  {
    if !b.begun { OthersPush(b.outbox, BeginGame); }
  }

  /** What the outbox may become when another world is due. */
  predicate Follows(out: seq<ToHook>, after: seq<ToHook>, nextStep: nat) {
    after == out || after == B.Retain(out) || after == B.Retain(out) + [Load(None, nextStep)]
  }

  lemma FollowsQuiet(out: seq<ToHook>, after: seq<ToHook>, nextStep: nat)
    requires Follows(out, after, nextStep)
    ensures NoticesIn(after) == NoticesIn(out)
  {
    NoticesRetained(out);
    if after == B.Retain(out) + [Load(None, nextStep)] { OthersPush(B.Retain(out), Load(None, nextStep)); }
  }

  lemma OpenFollows(b: B.BridgeState, o: B.StreamStart, margin: nat, memory: nat)
    requires B.OnStream(b, o, margin, memory).Goes?
    ensures Follows(B.Opened(b, o, margin, memory).outbox, B.OnStream(b, o, margin, memory).bridge.outbox,
                    o.start.at.sealed + 1)
  {
  }

  lemma OpenQuiet(b: B.BridgeState, o: B.StreamStart, margin: nat, memory: nat)
    requires B.OnStream(b, o, margin, memory).Goes?
    ensures NoticesIn(B.OnStream(b, o, margin, memory).bridge.outbox) == NoticesIn(b.outbox)
  {
    OpenFollows(b, o, margin, memory);
    FollowsQuiet(B.Opened(b, o, margin, memory).outbox, B.OnStream(b, o, margin, memory).bridge.outbox,
                 o.start.at.sealed + 1);
    OpenedQuiet(b, o, margin, memory);
  }

  lemma OpenPasses(p: Pipe, o: B.StreamStart, margin: nat, memory: nat)
    requires TakeStream(p, o, margin, memory).On?
    ensures Passes(p, TakeStream(p, o, margin, memory).pipe, StreamArrives(o, margin, memory))
  {
    OpenLeaves(p, o, margin, memory);
    OpenQuiet(p.bridge, o, margin, memory);
  }

  lemma OpenLeaves(p: Pipe, o: B.StreamStart, margin: nat, memory: nat)
    requires TakeStream(p, o, margin, memory).On?
    ensures var q := TakeStream(p, o, margin, memory).pipe;
            q.link == p.link && B.OnStream(p.bridge, o, margin, memory) == B.Goes(q.bridge)
  {
  }

  lemma TurnPasses(p: Pipe, turn: Turn, now: nat)
    requires TakeTurn(p, turn, now).On?
    ensures Passes(p, TakeTurn(p, turn, now).pipe, TurnArrives(turn, now))
  {
    OthersPush(p.bridge.outbox, ToHook.Speed(F.Accepting(p.bridge.follower.value, turn).value.speed));
  }

  lemma OnceQuiet(f: F.FollowerState, p: P.PlayoutState, now: nat, out: seq<ToHook>, released: Option<nat>,
                  pace: B.Pacing)
    ensures NoticesIn(B.Releasing(out, released)) == NoticesIn(out)
    ensures var once := B.PumpOnce(f, p, now, out, released, pace);
            once.More? ==> NoticesIn(once.out) == NoticesIn(out)
  {
    if released.Some? { OthersPush(out, Release(released.value)); }
    if F.NextStep(f).None? && f.queue != [] {
      OthersPush(B.Releasing(out, released), ApplyEvent(f.queue[0]));
    }
  }

  lemma {:induction false} PumpQuiet(f: F.FollowerState, p: P.PlayoutState, now: nat, out: seq<ToHook>,
                                     released: Option<nat>, pace: B.Pacing)
    ensures NoticesIn(B.Pump(f, p, now, out, released, pace).out) == NoticesIn(out)
    decreases B.Left(f)
  {
    var once := B.PumpOnce(f, p, now, out, released, pace);
    OnceQuiet(f, p, now, out, released, pace);
    if once.More? { PumpQuiet(once.follower, once.playout, now, once.out, once.released, pace); }
  }

  lemma PumpPasses(p: Pipe, now: nat, pace: B.Pacing)
    ensures Passes(p, TakePump(p, now, pace).pipe, PumpRuns(now, pace))
  {
    var b := p.bridge;
    if !(b.world.Fetching? || b.follower.None? || b.playout.None?) {
      PumpQuiet(b.follower.value, b.playout.value, now, b.outbox, None, pace);
    }
  }

  lemma FlushPasses(p: Pipe, taken: nat)
    requires TakeFlush(p, taken).On?
    ensures Passes(p, TakeFlush(p, taken).pipe, FlushRuns(taken))
  {
    var q := TakeFlush(p, taken).pipe;
    if p.bridge.hookReady {
      var first, rest := p.bridge.outbox[..taken], p.bridge.outbox[taken..];
      assert p.bridge.outbox == first + rest;
      NoticesAppend(p.link, first);
      NoticesAppend(first, rest);
      Assoc(NoticesIn(p.link), NoticesIn(first), NoticesIn(rest));
      assert [] + OnWay(q) == OnWay(p) + [];
    } else {
      }
  }

  lemma FetchedPasses(p: Pipe, attempt: nat, path: string)
    requires TakeFetched(p, attempt, path).On?
    ensures Passes(p, TakeFetched(p, attempt, path).pipe, WorldFetched(attempt, path))
  {
    if p.bridge.world.Fetching? && p.bridge.world.attempt == attempt {
      OrderQuiet(p.bridge, Some(File(path, p.fetches[attempt - 1])), p.bridge.world.nextStep);
    }
  }

  lemma NoticePasses(p: Pipe, m: ToHook)
    requires TakeNotice(p, m).On?
    ensures Passes(p, TakeNotice(p, m).pipe, NoticeArrives(m))
  {
    NoticesPush(p.bridge.outbox, m);
    Assoc(NoticesIn(p.link), NoticesIn(p.bridge.outbox), [m]);
  }

  lemma HelloPasses(p: Pipe)
    requires TakeHello(p).On?
    ensures Passes(p, TakeHello(p).pipe, HookAttaches)
  {
    OthersPush(p.bridge.outbox, Hello);
  }

  lemma ReadPasses(p: Pipe)
    requires TakeRead(p).On?
    ensures Passes(p, TakeRead(p).pipe, HookReads)
  {
    var rest := p.link[1..];
    assert p.link == [p.link[0]] + rest;
    NoticesPush(rest, p.link[0]);
    Assoc(One(p.link[0]), NoticesIn(rest), NoticesIn(p.bridge.outbox));
  }

  lemma TakePasses(p: Pipe, step: PipeStep)
    requires Take(p, step).On?
    ensures Passes(p, Take(p, step).pipe, step)
  {
    match step
    case StreamArrives(o, margin, memory) => OpenPasses(p, o, margin, memory);
    case TurnArrives(turn, at) => TurnPasses(p, turn, at);
    case PumpRuns(at, pace) => PumpPasses(p, at, pace);
    case FlushRuns(taken) => FlushPasses(p, taken);
    case WorldFetched(attempt, path) => FetchedPasses(p, attempt, path);
    case NoticeArrives(m) => NoticePasses(p, m);
    case HookAttaches => HelloPasses(p);
    case HookReads => ReadPasses(p);
    case _ =>
  }

  // ----- every run

  /** What one step of the system tells the hook, or the hook reads. */
  function ToldBy<S>(s: System<S>, next: Outcome<S>, step: SystemStep): seq<ToHook> {
    match O.ForClient(s, step)
    case Some(NoticeArrives(m)) => if next.Going? then [m] else []
    case _ => []
  }

  function ReadBy<S>(s: System<S>, next: Outcome<S>, step: SystemStep): seq<ToHook> {
    match O.ForClient(s, step)
    case Some(HookReads) => if next.Going? && s.client.link != [] then One(s.client.link[0]) else []
    case _ => []
  }

  /** All notices the agent was given, and all the hook has read, in their order. */
  function AllTold<S>(rules: Rules<S>, start: StartRecord, steps: seq<SystemStep>, length: FrameLength): seq<ToHook>
    decreases |steps|
  {
    if steps == [] then []
    else
      var before := Reached(rules, start, Init(steps), length);
      AllTold(rules, start, Init(steps), length)
      + if before.Going? then ToldBy(before.system, Next(rules, start, before.system, Last(steps), length), Last(steps))
        else []
  }

  function AllRead<S>(rules: Rules<S>, start: StartRecord, steps: seq<SystemStep>, length: FrameLength): seq<ToHook>
    decreases |steps|
  {
    if steps == [] then []
    else
      var before := Reached(rules, start, Init(steps), length);
      AllRead(rules, start, Init(steps), length)
      + if before.Going? then ReadBy(before.system, Next(rules, start, before.system, Last(steps), length), Last(steps))
        else []
  }

  /** What was told is what was read and then what is on its way. */
  predicate Whole(told: seq<ToHook>, read: seq<ToHook>, way: seq<ToHook>) {
    told == read + way
  }

  lemma WholeTold(told: seq<ToHook>, read: seq<ToHook>, way: seq<ToHook>, m: ToHook)
    requires Whole(told, read, way)
    ensures Whole(told + [m], read + [], way + [m])
  {
    Assoc(read, way, [m]);
    assert read + [] == read;
  }

  lemma WholeRead(told: seq<ToHook>, read: seq<ToHook>, taken: seq<ToHook>, way: seq<ToHook>)
    requires Whole(told, read, taken + way)
    ensures Whole(told + [], read + taken, way)
  {
    Assoc(read, taken, way);
    assert told + [] == told;
  }

  /** One step, whatever was told and read before it. */
  lemma NextPasses<S>(rules: Rules<S>, start: StartRecord, s: System<S>, step: SystemStep, t: System<S>,
                      told: seq<ToHook>, read: seq<ToHook>, length: FrameLength)
    requires Next(rules, start, s, step, length) == Going(t) && Whole(told, read, OnWay(s.client))
    ensures Whole(told + ToldBy(s, Going(t), step), read + ReadBy(s, Going(t), step), OnWay(t.client))
  {
    O.NextForClient(rules, start, s, step, length);
    var mine := O.ForClient(s, step);
    if mine.Some? { TakePasses(s.client, mine.value); }
    if mine.Some? && mine.value.NoticeArrives? {
      WholeTold(told, read, OnWay(s.client), mine.value.message);
    } else if mine.Some? && mine.value.HookReads? {
      WholeRead(told, read, One(s.client.link[0]), OnWay(t.client));
    } else {
      assert told + [] == told && read + [] == read;
    }
  }

  /** For every run: the hook has read, in order, exactly what it was told, but for
      what is still on its way. */
  lemma {:induction false} EveryNoticeArrives<S>(rules: Rules<S>, start: StartRecord, steps: seq<SystemStep>,
                                                 s: System<S>, length: FrameLength)
    requires Reached(rules, start, steps, length) == Going(s)
    ensures Whole(AllTold(rules, start, steps, length), AllRead(rules, start, steps, length), OnWay(s.client))
    decreases |steps|
  {
    if steps != [] {
      var before := Reached(rules, start, Init(steps), length).system;
      var told, read := AllTold(rules, start, Init(steps), length), AllRead(rules, start, Init(steps), length);
      EveryNoticeArrives(rules, start, Init(steps), before, length);
      if Next(rules, start, before, Last(steps), length).Going? {
        NextPasses(rules, start, before, Last(steps), s, told, read, length);
      } else {
        assert told + [] == told && read + [] == read;
      }
    }
  }
}

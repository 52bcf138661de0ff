/**
The speed a game runs at. The room says it in every turn; the agent tells the
game when it changes. Whatever is voided, reloaded or resumed on the way, the
last speed the game was told or is about to be told is that of the last turn
its agent accepted.
*/
module Speeds {
  import opened Protocol
  import opened Gate
  import opened Sequencer
  import opened Recovery
  import opened Tracks
  import opened Pipeline
  import opened Lockstep
  import O = Overtaking
  import B = Bridge
  import F = Follower
  import P = Playout

  /** The speed after all of `queue`, from `speed`. */
  function Told(speed: nat, queue: seq<ToHook>): nat
    decreases |queue|
  {
    if queue == [] then speed else if Last(queue).Speed? then Last(queue).speed else Told(speed, Init(queue))
  }

  lemma {:induction false} ToldAppend(speed: nat, a: seq<ToHook>, b: seq<ToHook>)
    ensures Told(speed, a + b) == Told(Told(speed, a), b)
    decreases |b|
  {
    if b == [] {
      assert a + b == a;
    } else {
      assert Last(a + b) == Last(b) && Init(a + b) == a + Init(b);
      ToldAppend(speed, a, Init(b));
    }
  }

  lemma {:induction false} ToldOne(speed: nat, m: ToHook)
    ensures Told(speed, [m]) == if m.Speed? then m.speed else speed
  {
    assert Init([m]) == [];
  }

  /** One more message, first or last. */
  lemma {:induction false} ToldPush(speed: nat, queue: seq<ToHook>, m: ToHook)
    ensures Told(speed, queue + [m]) == if m.Speed? then m.speed else Told(speed, queue)
    ensures Told(speed, [m] + queue) == Told(if m.Speed? then m.speed else speed, queue)
  {
    ToldAppend(speed, queue, [m]);
    ToldAppend(speed, [m], queue);
    ToldOne(Told(speed, queue), m);
    ToldOne(speed, m);
  }

  /** A speed outlives the world it was told in. */
  lemma {:induction false} ToldRetain(speed: nat, queue: seq<ToHook>)
    ensures Told(speed, B.Retain(queue)) == Told(speed, queue)
    decreases |queue|
  {
    if queue != [] {
      assert queue == [queue[0]] + queue[1..];
      ToldPush(speed, queue[1..], queue[0]);
      ToldPush(speed, B.Retain(queue[1..]), queue[0]);
      ToldRetain(if queue[0].Speed? then queue[0].speed else speed, queue[1..]);
      assert [] + B.Retain(queue[1..]) == B.Retain(queue[1..]);
    }
  }

  /** The speed the game will have been told once it has read everything. */
  function Heard(p: Pipe): nat {
    Told(Told(p.hook.speed, p.link), p.bridge.outbox)
  }

  function SpeedOf(turns: seq<Turn>): nat {
    if turns == [] then NORMAL else Last(turns).speed
  }

  predicate FollowsSpeed(f: Option<F.FollowerState>, w: World) {
    f.Some? ==> f.value.speed == SpeedOf(w.taken)
  }

  /** The game will be told the speed the agent knows, and the follower has that of
      the last turn of its stream. */
  predicate InTime(p: Pipe) {
    && Heard(p) == p.bridge.speed
    && FollowsSpeed(p.bridge.follower, p.stream)
  }

  // ----- every step of a client

  /** What a step leaves of it. */
  predicate Paced(p: Pipe, q: Pipe, step: PipeStep) {
    InTime(q) && q.bridge.speed == if step.TurnArrives? then step.turn.speed else p.bridge.speed
  }

  lemma OrderTells(b: B.BridgeState, file: Option<File>, nextStep: nat, told: nat)
    ensures Told(told, B.OrderLoad(b, file, nextStep).outbox) == Told(told, b.outbox)
  {
    ToldRetain(told, b.outbox);
    ToldPush(told, B.Retain(b.outbox), Load(file, nextStep));
  }

  lemma FetchTells(b: B.BridgeState, nextStep: nat, told: nat)
    ensures Told(told, B.FetchWorld(b, nextStep).outbox) == Told(told, b.outbox)
  {
    ToldRetain(told, b.outbox);
  }

  lemma OpenTells(b: B.BridgeState, o: B.StreamStart, margin: nat, memory: nat, told: nat)
    requires B.OnStream(b, o, margin, memory).Goes?
    ensures var after := B.OnStream(b, o, margin, memory).bridge;
            after.speed == b.speed && Told(told, after.outbox) == Told(told, b.outbox)
  {
    var open, nextStep := B.Opened(b, o, margin, memory), o.start.at.sealed + 1;
    if !b.begun { ToldPush(told, b.outbox, BeginGame); }
    var begins := open.(follower := Some(F.Begin(o.start)));
    FetchTells(begins, nextStep, told);
    OrderTells(begins, None, nextStep, told);
  }

  /** Opening a stream touches neither the link nor the hook. */
  lemma OpenLeaves(p: Pipe, o: B.StreamStart, margin: nat, memory: nat)
    requires TakeStream(p, o, margin, memory).On?
    ensures var q := TakeStream(p, o, margin, memory).pipe;
            && q.hook == p.hook && q.link == p.link
            && B.OnStream(p.bridge, o, margin, memory) == B.Goes(q.bridge)
  {
  }

  lemma OpenFollows(p: Pipe, o: B.StreamStart, margin: nat, memory: nat)
    requires FollowsSpeed(p.bridge.follower, p.stream) && TakeStream(p, o, margin, memory).On?
    ensures var q := TakeStream(p, o, margin, memory).pipe; FollowsSpeed(q.bridge.follower, q.stream)
  {
  }

  lemma OpenPaced(p: Pipe, o: B.StreamStart, margin: nat, memory: nat)
    requires InTime(p) && TakeStream(p, o, margin, memory).On?
    ensures Paced(p, TakeStream(p, o, margin, memory).pipe, StreamArrives(o, margin, memory))
  {
    OpenLeaves(p, o, margin, memory);
    OpenFollows(p, o, margin, memory);
    OpenTells(p.bridge, o, margin, memory, Told(p.hook.speed, p.link));
  }

  lemma TurnPaced(p: Pipe, turn: Turn, now: nat)
    requires InTime(p) && TakeTurn(p, turn, now).On?
    ensures Paced(p, TakeTurn(p, turn, now).pipe, TurnArrives(turn, now))
  {
    F.AcceptsExactly(p.bridge.follower.value, turn);
    ToldPush(Told(p.hook.speed, p.link), p.bridge.outbox, ToHook.Speed(turn.speed));
  }

  lemma OnceTells(f: F.FollowerState, p: P.PlayoutState, now: nat, out: seq<ToHook>, released: Option<nat>,
                  pace: B.Pacing, speed: nat)
    ensures var once := B.PumpOnce(f, p, now, out, released, pace);
            once.More? ==> once.follower.speed == f.speed && Told(speed, once.out) == Told(speed, out)
    ensures Told(speed, B.Releasing(out, released)) == Told(speed, out)
  {
    if released.Some? { ToldPush(speed, out, Release(released.value)); }
    if F.NextStep(f).None? && f.queue != [] {
      ToldPush(speed, B.Releasing(out, released), ApplyEvent(f.queue[0]));
    }
  }

  lemma {:induction false} PumpTells(f: F.FollowerState, p: P.PlayoutState, now: nat, out: seq<ToHook>,
                                     released: Option<nat>, pace: B.Pacing, speed: nat)
    ensures var r := B.Pump(f, p, now, out, released, pace);
            r.follower.speed == f.speed && Told(speed, r.out) == Told(speed, out)
    decreases B.Left(f)
  {
    var once := B.PumpOnce(f, p, now, out, released, pace);
    OnceTells(f, p, now, out, released, pace, speed);
    if once.More? { PumpTells(once.follower, once.playout, now, once.out, once.released, pace, speed); }
  }

  lemma PumpPaced(p: Pipe, now: nat, pace: B.Pacing)
    requires InTime(p)
    ensures Paced(p, TakePump(p, now, pace).pipe, PumpRuns(now, pace))
  {
    var b := p.bridge;
    if !(b.world.Fetching? || b.follower.None? || b.playout.None?) {
      PumpTells(b.follower.value, b.playout.value, now, b.outbox, None, pace, Told(p.hook.speed, p.link));
    }
  }

  lemma FlushPaced(p: Pipe, taken: nat)
    requires InTime(p) && TakeFlush(p, taken).On?
    ensures Paced(p, TakeFlush(p, taken).pipe, FlushRuns(taken))
  {
    if p.bridge.hookReady {
      var first, rest := p.bridge.outbox[..taken], p.bridge.outbox[taken..];
      assert p.bridge.outbox == first + rest;
      ToldAppend(p.hook.speed, p.link, first);
      ToldAppend(Told(p.hook.speed, p.link), first, rest);
    }
  }

  lemma FetchedPaced(p: Pipe, attempt: nat, path: string)
    requires InTime(p) && TakeFetched(p, attempt, path).On?
    ensures Paced(p, TakeFetched(p, attempt, path).pipe, WorldFetched(attempt, path))
  {
    if p.bridge.world.Fetching? && p.bridge.world.attempt == attempt {
      OrderTells(p.bridge, Some(File(path, p.fetches[attempt - 1])), p.bridge.world.nextStep,
                 Told(p.hook.speed, p.link));
    }
  }

  lemma NoticePaced(p: Pipe, m: ToHook)
    requires InTime(p) && TakeNotice(p, m).On?
    ensures Paced(p, TakeNotice(p, m).pipe, NoticeArrives(m))
  {
    ToldPush(Told(p.hook.speed, p.link), p.bridge.outbox, m);
  }

  lemma HelloPaced(p: Pipe)
    requires InTime(p) && TakeHello(p).On?
    ensures Paced(p, TakeHello(p).pipe, HookAttaches)
  {
    ToldPush(Told(p.hook.speed, p.link), p.bridge.outbox, Hello);
  }

  lemma ReadPaced(p: Pipe)
    requires InTime(p) && TakeRead(p).On?
    ensures Paced(p, TakeRead(p).pipe, HookReads)
  {
    assert p.link == [p.link[0]] + p.link[1..];
    ToldPush(p.hook.speed, p.link[1..], p.link[0]);
  }

  lemma TakePaced(p: Pipe, step: PipeStep)
    requires InTime(p) && Take(p, step).On?
    ensures Paced(p, Take(p, step).pipe, step)
  {
    match step
    case StreamArrives(o, margin, memory) => OpenPaced(p, o, margin, memory);
    case TurnArrives(turn, at) => TurnPaced(p, turn, at);
    case PumpRuns(at, pace) => PumpPaced(p, at, pace);
    case FlushRuns(taken) => FlushPaced(p, taken);
    case WorldFetched(attempt, path) => FetchedPaced(p, attempt, path);
    case NoticeArrives(m) => NoticePaced(p, m);
    case HookAttaches => HelloPaced(p);
    case HookReads => ReadPaced(p);
    case _ =>
  }

  // ----- every run

  /** The turns the client accepted, on whatever streams. */
  function Accepted<S>(rules: Rules<S>, start: StartRecord, steps: seq<SystemStep>, length: FrameLength): seq<Turn>
    decreases |steps|
  {
    if steps == [] then []
    else
      var before := Reached(rules, start, Init(steps), length);
      Accepted(rules, start, Init(steps), length)
      + if before.Going? then TurnIn(before.system, Next(rules, start, before.system, Last(steps), length), Last(steps))
        else []
  }

  function TurnIn<S>(s: System<S>, next: Outcome<S>, step: SystemStep): seq<Turn> {
    match O.ForClient(s, step)
    case Some(TurnArrives(turn, _)) => if next.Going? then [turn] else []
    case _ => []
  }

  lemma NextPaced<S>(rules: Rules<S>, start: StartRecord, s: System<S>, step: SystemStep, length: FrameLength)
    requires InTime(s.client) && Next(rules, start, s, step, length).Going?
    ensures var t := Next(rules, start, s, step, length).system;
            var turns := TurnIn(s, Next(rules, start, s, step, length), step);
            InTime(t.client) && t.client.bridge.speed == if turns == [] then s.client.bridge.speed else SpeedOf(turns)
  {
    O.NextForClient(rules, start, s, step, length);
    if O.ForClient(s, step).Some? { TakePaced(s.client, O.ForClient(s, step).value); }
  }

  lemma SpeedOfAppend(a: seq<Turn>, b: seq<Turn>)
    ensures SpeedOf(a + b) == if b == [] then SpeedOf(a) else SpeedOf(b)
  {
    if b == [] { assert a + b == a; }
  }

  /** For every run: the speed the game has been told, or is about to be, is that of
      the last turn the client accepted, and so is the speed it plays out at. */
  lemma {:induction false} EveryRunTellsTheSpeed<S>(rules: Rules<S>, start: StartRecord, steps: seq<SystemStep>,
                                                    s: System<S>, length: FrameLength)
    requires Reached(rules, start, steps, length) == Going(s)
    ensures Heard(s.client) == SpeedOf(Accepted(rules, start, steps, length)) && InTime(s.client)
    decreases |steps|
  {
    if steps != [] {
      var before := Reached(rules, start, Init(steps), length).system;
      EveryRunTellsTheSpeed(rules, start, Init(steps), before, length);
      var next := Next(rules, start, before, Last(steps), length);
      SpeedOfAppend(Accepted(rules, start, Init(steps), length), TurnIn(before, next, Last(steps)));
      if next.Going? { NextPaced(rules, start, before, Last(steps), length); }
    }
  }
}

/**
A client from its turn stream to its game: the bridge, the link and the hook,
each running at its own time. A pipe is all of it, with the worlds its messages
lead through written down beside it.
*/
module Pipeline {
  import opened Protocol
  import opened Gate
  import opened Tracks
  import B = Bridge
  import F = Follower
  import P = Playout

  datatype Pipe = Pipe(
    bridge: B.BridgeState,
    link: seq<ToHook>,
    phase: Phase,
    hook: SessionState,
    /** Loads the game reported finished that the agent has not read. */
    reports: seq<nat>,
    /** The world the hook is in or loading, and those the queue leads to. */
    worlds: seq<World>,
    /** The world the game last finished loading. */
    playing: World,
    /** The world the stream continues, and what the follower handed out for it. */
    stream: World,
    done: seq<Action>,
    /** The snapshots whose worlds the agent set out to fetch, attempt by attempt. */
    fetches: seq<nat>)

  const NoWorld := World(Origin, [], None)
  const Unattached := SessionState(Before(1), None, [], None, NORMAL)
  const Attaching := Pipe(B.Fresh, [], AwaitHello, Unattached, [], [NoWorld], NoWorld, NoWorld, [], [])

  /** What the hook has yet to read before the outbox: the hello comes first, even
      before it was asked for. */
  function Sent(p: Pipe): seq<ToHook> {
    (if p.bridge.hookReady then [] else [Hello]) + p.link
  }

  function Queue(p: Pipe): seq<ToHook> {
    Sent(p) + p.bridge.outbox
  }

  /** The hook once it has run everything released to it, or loaded the world it
      was told to. */
  function HookTrack(phase: Phase, s: SessionState): Track {
    if s.pending.Some? then Track(Playing, if s.pending.value == 0 then 0 else s.pending.value - 1, [])
    else Track(phase, s.gate.released,
               s.world + Steps(if s.gate.nextStep == 0 then 0 else s.gate.nextStep - 1, s.gate.released))
  }

  function Ahead(p: Pipe): Track {
    Follow(HookTrack(p.phase, p.hook), Queue(p))
  }

  predicate HookOk(phase: Phase, s: SessionState) {
    && (if s.pending.Some? then s.gate.loading && phase.Playing? && s.pending.value >= 1
        else !s.gate.loading && 1 <= s.gate.nextStep <= s.gate.released + 1)
    && (!phase.Playing? ==> s == Attaching.hook)
  }

  /** The follower, the stream it follows and what is on its way agree. */
  ghost predicate Streaming(p: Pipe) {
    var b := p.bridge;
    b.follower.Some? &&
    var f := b.follower.value;
    && F.Following(f, p.stream.at, p.stream.taken, p.done)
    && if b.world.Fetching? then
         && b.world.nextStep == p.stream.at.sealed + 1 && p.done == [] && f.executed == p.stream.at.sealed
         && b.world.attempt == |p.fetches| && p.fetches != [] && p.stream.from == Some(Last(p.fetches))
       else
         && p.worlds != [] && Last(p.worlds) == p.stream
         && Ahead(p).world == p.done && Ahead(p).released == f.executed
  }

  /** The hook and its queue agree, whatever the stream does. */
  ghost predicate Attached(p: Pipe) {
    && HookOk(p.phase, p.hook)
    && (!p.bridge.hookReady ==> p.link == [] && p.phase.AwaitHello? && p.reports == [])
    && Sound(HookTrack(p.phase, p.hook), Queue(p), p.worlds)
    && p.hook.world <= Deeds(p.playing)
    && (if p.hook.pending.None? then p.playing == p.worlds[0]
        else p.hook.pending.value == p.worlds[0].at.sealed + 1)
    && Holding(p.hook.file) == p.worlds[0].from
  }

  ghost predicate Inv(p: Pipe) {
    && Attached(p) && p.bridge.attempts == |p.fetches|
    && Ahead(p).phase == (if p.bridge.begun then Playing else AwaitBegin)
    && (if p.bridge.begun then Streaming(p) else p.bridge.follower.None? && p.bridge.world.Ready?)
  }

  lemma AttachingInv()
    ensures Inv(Attaching)
  {
    assert Queue(Attaching) == [Hello];
    assert Follow(HookTrack(AwaitHello, Attaching.hook), [Hello]).phase == AwaitBegin;
  }

  // ----- the pump

  /** What the follower handed out is on its way once the steps still held back
      are released. */
  ghost predicate Flowing(tr: Track, queue: seq<ToHook>, released: Option<nat>, f: F.FollowerState, done: seq<Action>) {
    var end := Follow(tr, queue);
    && end.phase.Playing?
    && match released
       case None => end.world == done && end.released == f.executed
       case Some(r) => r == f.executed && end.released <= r && end.world + Steps(end.released, r) == done
  }

  ghost predicate Pumping(tr: Track, sent: seq<ToHook>, out: seq<ToHook>, released: Option<nat>,
                          f: F.FollowerState, done: seq<Action>, worlds: seq<World>)
  {
    && Sound(tr, sent + out, worlds)
    && F.Following(f, Last(worlds).at, Last(worlds).taken, done)
    && Flowing(tr, sent + out, released, f, done)
  }

  lemma ReleaseKeeps(tr: Track, sent: seq<ToHook>, out: seq<ToHook>, released: Option<nat>,
                     f: F.FollowerState, done: seq<Action>, worlds: seq<World>)
    requires Pumping(tr, sent, out, released, f, done, worlds)
    ensures Pumping(tr, sent, B.Releasing(out, released), None, f, done, worlds)
  {
    if released.Some? {
      var m := Release(released.value);
      assert done <= Deeds(Last(worlds));
      SoundPush(tr, sent + out, worlds, m);
      FollowPush(tr, sent + out, m);
      assert sent + (out + [m]) == sent + out + [m];
    }
  }

  lemma ApplyKeeps(tr: Track, sent: seq<ToHook>, out: seq<ToHook>, f: F.FollowerState, done: seq<Action>,
                   worlds: seq<World>)
    requires Pumping(tr, sent, out, None, f, done, worlds)
    requires f.queue != [] && f.queue[0].step == f.executed + 1
    ensures Pumping(tr, sent, out + [ApplyEvent(f.queue[0])], None, F.Next(f).0, done + [Apply(f.queue[0])], worlds)
  {
    var m := ApplyEvent(f.queue[0]);
    F.NextFollows(f, Last(worlds).at, Last(worlds).taken, done);
    assert done + [Apply(f.queue[0])] <= Deeds(Last(worlds));
    SoundPush(tr, sent + out, worlds, m);
    FollowPush(tr, sent + out, m);
    assert sent + (out + [m]) == sent + out + [m];
  }

  lemma StepKeeps(tr: Track, sent: seq<ToHook>, out: seq<ToHook>, released: Option<nat>,
                  f: F.FollowerState, done: seq<Action>, worlds: seq<World>)
    requires Pumping(tr, sent, out, released, f, done, worlds)
    requires F.NextStep(f).Some?
    ensures Pumping(tr, sent, out, Some(f.executed + 1), F.Next(f).0, done + [Execute(f.executed + 1)], worlds)
  {
    F.NextFollows(f, Last(worlds).at, Last(worlds).taken, done);
    var end := Follow(tr, sent + out);
    assert Steps(end.released, f.executed + 1) == Steps(end.released, f.executed) + [Execute(f.executed + 1)];
    Assoc(end.world, Steps(end.released, f.executed), [Execute(f.executed + 1)]);
  }

  lemma OnceKeeps(tr: Track, sent: seq<ToHook>, out: seq<ToHook>, released: Option<nat>, f: F.FollowerState,
                  p: P.PlayoutState, now: nat, pace: B.Pacing, done: seq<Action>, worlds: seq<World>)
    returns (after: seq<Action>)
    requires Pumping(tr, sent, out, released, f, done, worlds)
    ensures var once := B.PumpOnce(f, p, now, out, released, pace);
            once.More? ==> Pumping(tr, sent, once.out, once.released, once.follower, after, worlds)
  {
    after := done;
    var once := B.PumpOnce(f, p, now, out, released, pace);
    if once.More? {
      if F.NextStep(f).Some? {
        after := done + [Execute(f.executed + 1)];
        StepKeeps(tr, sent, out, released, f, done, worlds);
        assert once.out == out && once.released == Some(f.executed + 1) && once.follower == F.Next(f).0;
      } else {
        after := done + [Apply(f.queue[0])];
        var passed := B.Releasing(out, released);
        ReleaseKeeps(tr, sent, out, released, f, done, worlds);
        ApplyKeeps(tr, sent, passed, f, done, worlds);
        assert once.out == passed + [ApplyEvent(f.queue[0])] && once.released == None && once.follower == F.Next(f).0;
      }
    }
  }

  /** Whatever the playout lets through and however full the outbox is, the pump
      puts on the way exactly what it takes from the follower. */
  lemma {:induction false} PumpKeeps(tr: Track, sent: seq<ToHook>, out: seq<ToHook>, released: Option<nat>,
                                     f: F.FollowerState, p: P.PlayoutState, now: nat, pace: B.Pacing,
                                     done: seq<Action>, worlds: seq<World>)
    returns (after: seq<Action>)
    requires Pumping(tr, sent, out, released, f, done, worlds)
    ensures var r := B.Pump(f, p, now, out, released, pace);
            Pumping(tr, sent, r.out, None, r.follower, after, worlds)
    decreases B.Left(f)
  {
    var once := B.PumpOnce(f, p, now, out, released, pace);
    if once.More? {
      after := OnceKeeps(tr, sent, out, released, f, p, now, pace, done, worlds);
      after := PumpKeeps(tr, sent, once.out, once.released, once.follower, once.playout, now, pace, after, worlds);
    } else {
      after := done;
      ReleaseKeeps(tr, sent, out, released, f, done, worlds);
    }
  }

  // ----- the steps of a pipe

  datatype PipeStep =
    | StreamArrives(opening: B.StreamStart, margin: nat, memory: nat)
    | TurnArrives(turn: Turn, at: nat)
    | PumpRuns(at: nat, pace: B.Pacing)
    | FlushRuns(taken: nat)
    | WorldFetched(attempt: nat, path: string)
    | NoticeArrives(message: ToHook)
    | HookAttaches
    | HookReads
    | GameSteps
    | GameLoads
    | AgentHears

  datatype Stepped = Disabled | BridgeBroke(fault: B.BridgeFault) | GateBroke(error: GateError) | On(pipe: Pipe)

  /** Worlds that only messages still in the outbox lead to are gone. */
  function Voided(p: Pipe): Pipe {
    p.(bridge := B.VoidWorld(p.bridge),
       worlds := if |LoadsIn(Sent(p))| < |p.worlds| then p.worlds[..1 + |LoadsIn(Sent(p))|] else p.worlds)
  }

  function TakeStream(p: Pipe, opening: B.StreamStart, margin: nat, memory: nat): Stepped {
    match B.OnStream(p.bridge, opening, margin, memory)
    case Faulted(fault) => BridgeBroke(fault)
    case Goes(b) =>
      var o := B.Opened(p.bridge, opening, margin, memory);
      var w := World(opening.start.at, [], opening.offer);
      if opening.Offered() then
        On(Voided(p).(bridge := b, stream := w, done := [], fetches := p.fetches + [opening.offer.value]))
      else if o.follower.Some? && F.Continue(o.follower.value, opening.start).Ok? then On(p.(bridge := b))
      else On(Voided(p).(bridge := b, worlds := Voided(p).worlds + [w], stream := w, done := []))
  }

  function TakeTurn(p: Pipe, turn: Turn, now: nat): Stepped {
    match B.OnTurn(p.bridge, turn, now)
    case Faulted(fault) => BridgeBroke(fault)
    case Goes(b) => On(Carry(p, turn).(bridge := b))
  }

  /** The stream has carried one more turn, for the world it continues. */
  function Carry(p: Pipe, turn: Turn): Pipe {
    var worlds := if p.bridge.world.Fetching? || p.worlds == [] then p.worlds
                  else Init(p.worlds) + [Grown(Last(p.worlds), turn)];
    p.(stream := Grown(p.stream, turn), worlds := worlds,
       playing := if p.hook.pending.None? && worlds != [] then worlds[0] else p.playing)
  }

  /** The actions a track and a queue leave the last world with. */
  function TakePump(p: Pipe, now: nat, pace: B.Pacing): Stepped {
    var q := p.(bridge := B.PumpNow(p.bridge, now, pace));
    On(if p.bridge.world.Fetching? || p.bridge.follower.None? || p.bridge.playout.None? then q
       else q.(done := Ahead(q).world))
  }

  function TakeRead(p: Pipe): Stepped {
    if p.link == [] then Disabled
    else
      match p.phase
      case AwaitHello =>
        if p.link[0].Hello? then On(p.(phase := AwaitBegin, link := p.link[1..])) else GateBroke(Unexpected)
      case AwaitBegin =>
        if p.link[0].BeginGame? then On(p.(phase := Playing, link := p.link[1..]))
        else if p.link[0].Chat? then On(p.(link := p.link[1..]))
        else GateBroke(Unexpected)
      case Playing =>
        if !Reads(p.hook) then Disabled
        else
          match Handle(p.hook, p.link[0])
          case Broken(error) => GateBroke(error)
          case Fine(hook) =>
            On(p.(hook := hook, link := p.link[1..],
                  worlds := if p.link[0].Load? && p.worlds != [] then p.worlds[1..] else p.worlds))
  }

  function TakeFlush(p: Pipe, taken: nat): Stepped {
    if taken > |p.bridge.outbox| then Disabled
    else var (b, link) := B.Flush(p.bridge, p.link, taken); On(p.(bridge := b, link := link))
  }

  /** A fetch ends with a file of the snapshot it was of. */
  function TakeFetched(p: Pipe, attempt: nat, path: string): Stepped {
    if attempt == 0 || attempt > |p.fetches| then Disabled
    else
      var b := B.OnFetched(p.bridge, attempt, File(path, p.fetches[attempt - 1]));
      On(if p.bridge.world.Fetching? && p.bridge.world.attempt == attempt
         then Voided(p).(bridge := b, worlds := Voided(p).worlds + [p.stream])
         else p.(bridge := b))
  }

  /** The game is told nothing before it began. */
  function TakeNotice(p: Pipe, m: ToHook): Stepped {
    if p.bridge.begun && (m.Diverged? || m.Refused? || m.Chat? || m.End?)
    then On(p.(bridge := p.bridge.(outbox := p.bridge.outbox + [m]))) else Disabled
  }

  function TakeHello(p: Pipe): Stepped {
    match B.OnHello(p.bridge)
    case Faulted(_) => Disabled
    case Goes(b) => On(p.(bridge := b))
  }

  function TakeStep(p: Pipe): Stepped {
    if p.phase.Playing? && p.hook.pending.None? && MayRun(p.hook.gate) then
      match AfterStep(p.hook)
      case Broken(error) => GateBroke(error)
      case Fine(hook) => On(p.(hook := hook))
    else Disabled
  }

  function TakeLoad(p: Pipe): Stepped {
    if p.hook.pending.Some? && !p.hook.gate.ended && p.worlds != [] then
      On(p.(hook := FinishLoad(p.hook), playing := p.worlds[0], reports := p.reports + [p.hook.pending.value]))
    else Disabled
  }

  function TakeReport(p: Pipe): Stepped {
    if p.reports == [] then Disabled
    else
      match B.OnLoaded(p.bridge, p.reports[0])
      case Faulted(fault) => BridgeBroke(fault)
      case Goes(b) => On(p.(bridge := b, reports := p.reports[1..]))
  }

  function Take(p: Pipe, s: PipeStep): Stepped {
    match s
    case StreamArrives(opening, margin, memory) => TakeStream(p, opening, margin, memory)
    case TurnArrives(turn, at) => TakeTurn(p, turn, at)
    case PumpRuns(at, pace) => TakePump(p, at, pace)
    case FlushRuns(taken) => TakeFlush(p, taken)
    case WorldFetched(attempt, path) => TakeFetched(p, attempt, path)
    case NoticeArrives(m) => TakeNotice(p, m)
    case HookAttaches => TakeHello(p)
    case HookReads => TakeRead(p)
    case GameSteps => TakeStep(p)
    case GameLoads => TakeLoad(p)
    case AgentHears => TakeReport(p)
  }

  // ----- every step keeps the invariant

  lemma OpenKeeps(p: Pipe, opening: B.StreamStart, margin: nat, memory: nat)
    requires Inv(p)
    ensures var o := p.(bridge := B.Opened(p.bridge, opening, margin, memory));
            Attached(o) && Ahead(o).phase.Playing? && Sent(o) == Sent(p)
  {
    if !p.bridge.begun {
      var tr, q := HookTrack(p.phase, p.hook), Queue(p);
      PushNotice(tr, q, p.worlds, BeginGame);
      assert Sent(p) + (p.bridge.outbox + [BeginGame]) == q + [BeginGame];
    }
  }

  /** A message that acts on no world can be pushed wherever it is legal. */
  lemma {:induction false} PushNotice(tr: Track, queue: seq<ToHook>, worlds: seq<World>, m: ToHook)
    requires Sound(tr, queue, worlds) && !B.OfWorld(m) && Legal(Follow(tr, queue), m)
    ensures Sound(tr, queue + [m], worlds)
    ensures Follow(tr, queue + [m]) == Step(Follow(tr, queue), m)
    ensures Step(Follow(tr, queue), m).world == Follow(tr, queue).world
    ensures Step(Follow(tr, queue), m).released == Follow(tr, queue).released
  {
    EndsInLast(tr, queue, worlds);
    SoundPush(tr, queue, worlds, m);
    FollowPush(tr, queue, m);
  }

  lemma {:induction false} EndsInLast(tr: Track, queue: seq<ToHook>, worlds: seq<World>)
    requires Sound(tr, queue, worlds)
    ensures Follow(tr, queue).world <= Deeds(Last(worlds))
    decreases |queue|
  {
    if queue != [] {
      EndsInLast(Step(tr, queue[0]), queue[1..], if queue[0].Load? then worlds[1..] else worlds);
    }
  }

  lemma VoidKeeps(p: Pipe)
    requires Attached(p) && Ahead(p).phase.Playing?
    ensures Attached(Voided(p)) && Ahead(Voided(p)).phase.Playing? && Sent(Voided(p)) == Sent(p)
  {
    SoundVoid(HookTrack(p.phase, p.hook), Sent(p), p.bridge.outbox, p.worlds);
  }

  lemma LoadKeeps(p: Pipe, file: Option<File>, w: World)
    requires Attached(p) && Ahead(p).phase.Playing? && Holding(file) == w.from
    ensures var q := p.(bridge := p.bridge.(outbox := p.bridge.outbox + [Load(file, w.at.sealed + 1)]),
                        worlds := p.worlds + [w]);
            Attached(q) && Ahead(q) == Track(Playing, w.at.sealed, [])
  {
    var m := Load(file, w.at.sealed + 1);
    SoundLoad(HookTrack(p.phase, p.hook), Queue(p), p.worlds, file, w);
    FollowPush(HookTrack(p.phase, p.hook), Queue(p), m);
    assert Sent(p) + (p.bridge.outbox + [m]) == Queue(p) + [m];
  }

  /** Nothing about the hook changes when its queue stays the same. */
  lemma SameQueue(p: Pipe, q: Pipe)
    requires Attached(p)
    requires q.phase == p.phase && q.hook == p.hook && q.worlds == p.worlds && q.playing == p.playing
    requires Queue(q) == Queue(p)
    requires !q.bridge.hookReady ==> q.link == [] && q.phase.AwaitHello? && q.reports == []
    ensures Attached(q) && Ahead(q) == Ahead(p)
  {
  }

  lemma ContinueKeeps(p: Pipe, q: Pipe, history: nat)
    requires Inv(p) && p.bridge.begun
    requires q == p.(bridge := q.bridge)
    requires q.bridge == p.bridge.(playout := q.bridge.playout,
                                   follower := Some(p.bridge.follower.value.(history := history)))
    ensures Inv(q)
  {
    SameQueue(p, q);
  }

  lemma OfferKeeps(p: Pipe, q: Pipe, start: F.TurnStart, offer: nat)
    requires Attached(p) && Ahead(p).phase.Playing? && p.bridge.begun && p.bridge.attempts == |p.fetches|
    requires q == Voided(p).(bridge := q.bridge, stream := World(start.at, [], Some(offer)), done := [],
                             fetches := p.fetches + [offer])
    requires q.bridge == B.FetchWorld(p.bridge.(follower := Some(F.Begin(start))), start.at.sealed + 1)
    ensures Inv(q)
  {
    VoidKeeps(p);
    F.BeginFollows(start);
    SameQueue(Voided(p), q);
  }

  lemma RestartKeeps(p: Pipe, q: Pipe, start: F.TurnStart)
    requires Attached(p) && Ahead(p).phase.Playing? && p.bridge.begun && p.bridge.attempts == |p.fetches|
    requires q == Voided(p).(bridge := q.bridge, worlds := Voided(p).worlds + [World(start.at, [], None)],
                             stream := World(start.at, [], None), done := [])
    requires q.bridge == B.OrderLoad(p.bridge.(follower := Some(F.Begin(start))), None, start.at.sealed + 1)
    ensures Inv(q)
  {
    var w := World(start.at, [], None);
    VoidKeeps(p);
    F.BeginFollows(start);
    LoadKeeps(Voided(p), None, w);
    var l := Voided(p).(bridge := Voided(p).bridge.(outbox := Voided(p).bridge.outbox + [Load(None, w.at.sealed + 1)]),
                        worlds := Voided(p).worlds + [w]);
    SameQueue(l, q);
    assert Last(q.worlds) == w;
  }

  lemma OfferArrives(p: Pipe, opening: B.StreamStart, margin: nat, memory: nat)
    requires Inv(p) && opening.Offered()
    ensures TakeStream(p, opening, margin, memory).On? && Inv(TakeStream(p, opening, margin, memory).pipe)
  {
    OpenKeeps(p, opening, margin, memory);
    OfferKeeps(p.(bridge := B.Opened(p.bridge, opening, margin, memory)),
               TakeStream(p, opening, margin, memory).pipe, opening.start, opening.offer.value);
  }

  lemma ContinueArrives(p: Pipe, opening: B.StreamStart, margin: nat, memory: nat)
    requires Inv(p) && !opening.Offered()
    requires p.bridge.follower.Some? && F.Continue(p.bridge.follower.value, opening.start).Ok?
    ensures TakeStream(p, opening, margin, memory).On? && Inv(TakeStream(p, opening, margin, memory).pipe)
  {
    ContinueKeeps(p, TakeStream(p, opening, margin, memory).pipe, opening.start.history);
  }

  lemma RestartArrives(p: Pipe, opening: B.StreamStart, margin: nat, memory: nat)
    requires Inv(p) && !opening.Offered() && TakeStream(p, opening, margin, memory).On?
    requires p.bridge.follower.None? || F.Continue(p.bridge.follower.value, opening.start).Err?
    ensures Inv(TakeStream(p, opening, margin, memory).pipe)
  {
    OpenKeeps(p, opening, margin, memory);
    RestartKeeps(p.(bridge := B.Opened(p.bridge, opening, margin, memory)),
                 TakeStream(p, opening, margin, memory).pipe, opening.start);
  }

  lemma StreamKeeps(p: Pipe, opening: B.StreamStart, margin: nat, memory: nat)
    requires Inv(p) && TakeStream(p, opening, margin, memory).On?
    ensures Inv(TakeStream(p, opening, margin, memory).pipe)
  {
    if opening.Offered() {
      OfferArrives(p, opening, margin, memory);
    } else if p.bridge.follower.Some? && F.Continue(p.bridge.follower.value, opening.start).Ok? {
      ContinueArrives(p, opening, margin, memory);
    } else {
      RestartArrives(p, opening, margin, memory);
    }
  }

  lemma CarryKeeps(p: Pipe, turn: Turn)
    requires Inv(p) && p.bridge.begun
    ensures Attached(Carry(p, turn)) && Ahead(Carry(p, turn)) == Ahead(p)
  {
    if !p.bridge.world.Fetching? {
      SoundGrow(HookTrack(p.phase, p.hook), Queue(p), p.worlds, turn);
      if |p.worlds| == 1 { GrownDoesMore(p.worlds[0], turn); }
    }
  }

  lemma AcceptKeeps(p: Pipe, q: Pipe, f: F.FollowerState, turn: Turn)
    requires Inv(p) && p.bridge.begun && F.Accepting(p.bridge.follower.value, turn) == F.Ok(f)
    requires q == Carry(p, turn).(bridge := p.bridge.(follower := Some(f), playout := q.bridge.playout))
    ensures Inv(q)
  {
    CarryKeeps(p, turn);
    SameQueue(Carry(p, turn), q);
    F.AcceptFollows(p.bridge.follower.value, p.stream.at, p.stream.taken, p.done, turn);
  }

  /** A notice at the end of the outbox changes nothing of any world. */
  lemma SayKeeps(p: Pipe, q: Pipe, m: ToHook)
    requires Inv(p) && p.bridge.begun && !B.OfWorld(m) && !m.Hello? && !m.BeginGame?
    requires q == p.(bridge := p.bridge.(outbox := p.bridge.outbox + [m], speed := q.bridge.speed))
    ensures Inv(q)
  {
    SayAttached(p, q, m);
  }

  lemma SayAttached(p: Pipe, q: Pipe, m: ToHook)
    requires Attached(p) && Ahead(p).phase.Playing? && !B.OfWorld(m) && !m.Hello? && !m.BeginGame?
    requires q == p.(bridge := p.bridge.(outbox := p.bridge.outbox + [m], speed := q.bridge.speed))
    ensures Attached(q) && Ahead(q) == Ahead(p)
  {
    PushNotice(HookTrack(p.phase, p.hook), Queue(p), p.worlds, m);
    Assoc(Sent(p), p.bridge.outbox, [m]);
  }

  lemma TurnKeeps(p: Pipe, turn: Turn, now: nat)
    requires Inv(p) && TakeTurn(p, turn, now).On?
    ensures Inv(TakeTurn(p, turn, now).pipe)
  {
    var q := TakeTurn(p, turn, now).pipe;
    var f := F.Accepting(p.bridge.follower.value, turn).value;
    var quiet := Carry(p, turn).(bridge := p.bridge.(follower := Some(f), playout := q.bridge.playout));
    AcceptKeeps(p, quiet, f, turn);
    if f.speed == p.bridge.speed {
      assert q == quiet;
    } else {
      SayKeeps(quiet, q, ToHook.Speed(f.speed));
    }
  }

  lemma PumpStepKeeps(p: Pipe, now: nat, pace: B.Pacing)
    requires Inv(p)
    ensures Inv(TakePump(p, now, pace).pipe)
  {
    var b, q := p.bridge, TakePump(p, now, pace).pipe;
    if b.world.Fetching? || b.follower.None? || b.playout.None? {
      assert q == p;
    } else {
      var tr := HookTrack(p.phase, p.hook);
      assert Pumping(tr, Sent(p), b.outbox, None, b.follower.value, p.done, p.worlds);
      var after := PumpKeeps(tr, Sent(p), b.outbox, None, b.follower.value, b.playout.value, now, pace, p.done, p.worlds);
      PumpedKeeps(p, q, after);
    }
  }

  lemma PumpedKeeps(p: Pipe, q: Pipe, after: seq<Action>)
    requires Inv(p) && p.bridge.begun && !p.bridge.world.Fetching? && q.bridge.follower.Some?
    requires q == p.(bridge := p.bridge.(follower := q.bridge.follower, playout := q.bridge.playout,
                                         outbox := q.bridge.outbox),
                     done := Ahead(q).world)
    requires Pumping(HookTrack(p.phase, p.hook), Sent(p), q.bridge.outbox, None, q.bridge.follower.value, after, p.worlds)
    ensures Inv(q)
  {
    assert Queue(q) == Sent(p) + q.bridge.outbox;
    assert Ahead(q).world == after;
  }

  lemma FlushKeeps(p: Pipe, taken: nat)
    requires Inv(p) && TakeFlush(p, taken).On?
    ensures Inv(TakeFlush(p, taken).pipe)
  {
    var q := TakeFlush(p, taken).pipe;
    if p.bridge.hookReady {
      assert p.link + p.bridge.outbox == p.link + p.bridge.outbox[..taken] + p.bridge.outbox[taken..];
      assert Queue(q) == Queue(p);
      SameQueue(p, q);
    } else {
      assert q == p;
    }
  }

  lemma FetchedKeeps(p: Pipe, attempt: nat, path: string)
    requires Inv(p) && TakeFetched(p, attempt, path).On?
    ensures Inv(TakeFetched(p, attempt, path).pipe)
  {
    if p.bridge.world.Fetching? && p.bridge.world.attempt == attempt {
      FetchedStreams(p, TakeFetched(p, attempt, path).pipe, Some(File(path, p.fetches[attempt - 1])));
    } else {
      OldFetchIsIgnored(p, attempt, path);
    }
  }

  /** A fetch that a newer offer overtook, or that nothing waits for, changes nothing. */
  lemma OldFetchIsIgnored(p: Pipe, attempt: nat, path: string)
    requires !p.bridge.world.Fetching? || p.bridge.world.attempt != attempt
    ensures TakeFetched(p, attempt, path).On? ==> TakeFetched(p, attempt, path).pipe == p
  {
  }

  lemma FetchedStreams(p: Pipe, q: Pipe, file: Option<File>)
    requires Inv(p) && p.bridge.world.Fetching? && Holding(file) == p.stream.from
    requires q == Voided(p).(bridge := B.OrderLoad(p.bridge, file, p.bridge.world.nextStep),
                             worlds := Voided(p).worlds + [p.stream])
    ensures Inv(q)
  {
    FetchedAttached(p, q, file);
    assert Last(q.worlds) == p.stream;
  }

  lemma FetchedAttached(p: Pipe, q: Pipe, file: Option<File>)
    requires Attached(p) && Ahead(p).phase.Playing? && Holding(file) == p.stream.from
    requires q == Voided(p).(bridge := B.OrderLoad(p.bridge, file, p.stream.at.sealed + 1),
                             worlds := Voided(p).worlds + [p.stream])
    ensures Attached(q) && Ahead(q) == Track(Playing, p.stream.at.sealed, [])
  {
    var v := Voided(p);
    VoidKeeps(p);
    LoadKeeps(v, file, p.stream);
    SameQueue(v.(bridge := v.bridge.(outbox := v.bridge.outbox + [Load(file, p.stream.at.sealed + 1)]),
                 worlds := v.worlds + [p.stream]), q);
  }

  lemma HelloKeeps(p: Pipe)
    requires Inv(p) && TakeHello(p).On?
    ensures Inv(TakeHello(p).pipe)
  {
    var q := TakeHello(p).pipe;
    assert Queue(q) == Queue(p);
    SameQueue(p, q);
  }

  lemma ReportKeeps(p: Pipe)
    requires Inv(p) && TakeReport(p).On?
    ensures Inv(TakeReport(p).pipe)
  {
    SameQueue(p, TakeReport(p).pipe);
  }

  /** The hook is one message further along the same track. */
  lemma ReadAdvances(p: Pipe, q: Pipe)
    requires Inv(p) && p.bridge.hookReady && p.link != []
    requires q == p.(phase := q.phase, hook := q.hook, link := p.link[1..], worlds := q.worlds)
    requires q.worlds == if p.link[0].Load? then p.worlds[1..] else p.worlds
    requires HookTrack(q.phase, q.hook) == Step(HookTrack(p.phase, p.hook), p.link[0])
    requires HookOk(q.phase, q.hook)
    requires q.hook.world <= Deeds(p.playing)
    requires q.hook.pending == if p.link[0].Load? then Some(p.link[0].nextStep) else p.hook.pending
    requires q.hook.file == if p.link[0].Load? then p.link[0].file else p.hook.file
    ensures Inv(q)
  {
    assert Queue(p) == [p.link[0]] + Queue(q);
    assert Queue(p)[0] == p.link[0] && Queue(p)[1..] == Queue(q);
    assert Ahead(q) == Ahead(p);
    assert Last(q.worlds) == Last(p.worlds);
  }

  /** What the queue's first message must be like. */
  lemma FirstIsLegal(p: Pipe)
    requires Inv(p) && p.link != []
    ensures p.bridge.hookReady
    ensures var tr, m := HookTrack(p.phase, p.hook), p.link[0];
            && Legal(tr, m)
            && (m.Load? ==> |p.worlds| >= 2 && m.nextStep >= 1)
            && (!m.Load? ==> Step(tr, m).world <= Deeds(p.worlds[0]))
  {
    assert Queue(p)[0] == p.link[0];
    if !p.link[0].Load? {
      assert Sound(Step(HookTrack(p.phase, p.hook), p.link[0]), Queue(p)[1..], p.worlds);
    }
  }

  lemma ReadKeeps(p: Pipe)
    requires Inv(p)
    ensures !TakeRead(p).GateBroke?
    ensures TakeRead(p).On? ==> Inv(TakeRead(p).pipe)
  {
    if p.link != [] {
      FirstIsLegal(p);
      if !p.phase.Playing? {
        ReadAdvances(p, TakeRead(p).pipe);
      } else if Reads(p.hook) {
        ReadPlaying(p);
      }
    }
  }

  /** A session that reads only when its gate may not run has run every step
      released to it, so what it reads next is never out of order. */
  lemma ReadPlaying(p: Pipe)
    requires Inv(p) && p.link != [] && p.phase.Playing? && Reads(p.hook)
    ensures TakeRead(p).On? && Inv(TakeRead(p).pipe)
  {
    FirstIsLegal(p);
    var s, m := p.hook, p.link[0];
    assert s.gate.released == s.gate.nextStep - 1;
    assert HookTrack(p.phase, s) == Track(Playing, s.gate.released, s.world);
    assert Handle(s, m).Fine?;
    var q := TakeRead(p).pipe;
    assert HookTrack(q.phase, q.hook) == Step(HookTrack(p.phase, s), m);
    assert q.hook.world <= Deeds(p.playing);
    ReadAdvances(p, q);
  }

  lemma StepRunKeeps(p: Pipe)
    requires Inv(p)
    ensures TakeStep(p).GateBroke? ==> p.hook.gate.nextStep >= U64_MAX
    ensures TakeStep(p).On? ==> Inv(TakeStep(p).pipe)
  {
    if TakeStep(p).On? {
      var q, g := TakeStep(p).pipe, p.hook.gate;
      StepsFront(g.nextStep - 1, g.released);
      Assoc(p.hook.world, [Execute(g.nextStep)], Steps(g.nextStep, g.released));
      assert HookTrack(q.phase, q.hook) == HookTrack(p.phase, p.hook);
      assert q.hook.world <= HookTrack(p.phase, p.hook).world;
      SameTrack(p, q);
    }
  }

  lemma LoadRunKeeps(p: Pipe)
    requires Inv(p) && TakeLoad(p).On?
    ensures Inv(TakeLoad(p).pipe)
  {
    SameTrack(p, TakeLoad(p).pipe);
  }

  lemma SameTrack(p: Pipe, q: Pipe)
    requires Inv(p)
    requires q == p.(hook := q.hook, playing := q.playing, reports := q.reports)
    requires HookOk(q.phase, q.hook) && HookTrack(q.phase, q.hook) == HookTrack(p.phase, p.hook)
    requires q.hook.world <= Deeds(q.playing)
    requires if q.hook.pending.None? then q.playing == p.worlds[0] else q.hook.pending == p.hook.pending
    requires q.hook.file == p.hook.file
    requires !p.bridge.hookReady ==> q.reports == []
    ensures Inv(q)
  {
    assert Queue(q) == Queue(p) && Ahead(q) == Ahead(p);
  }

  /** The gate does not err, but at the last step number there is, and the rest
      stays as it should. */
  ghost predicate Safe(p: Pipe, s: PipeStep) {
    && (Take(p, s).GateBroke? ==> s.GameSteps? && p.hook.gate.nextStep >= U64_MAX)
    && (Take(p, s).On? ==> Inv(Take(p, s).pipe))
  }

  lemma StreamSafe(p: Pipe, s: PipeStep)
    requires Inv(p) && (s.StreamArrives? || s.TurnArrives?)
    ensures Safe(p, s)
  {
    if Take(p, s).On? {
      if s.StreamArrives? { StreamKeeps(p, s.opening, s.margin, s.memory); } else { TurnKeeps(p, s.turn, s.at); }
    }
  }

  lemma BridgeSafe(p: Pipe, s: PipeStep)
    requires Inv(p) && (s.PumpRuns? || s.FlushRuns? || s.WorldFetched?)
    ensures Safe(p, s)
  {
    if s.PumpRuns? {
      PumpStepKeeps(p, s.at, s.pace);
    } else if Take(p, s).On? {
      if s.FlushRuns? { FlushKeeps(p, s.taken); } else { FetchedKeeps(p, s.attempt, s.path); }
    }
  }

  lemma TalkSafe(p: Pipe, s: PipeStep)
    requires Inv(p) && (s.NoticeArrives? || s.HookAttaches? || s.AgentHears?)
    ensures Safe(p, s)
  {
    if Take(p, s).On? {
      match s {
        case NoticeArrives(m) => SayKeeps(p, TakeNotice(p, m).pipe, m);
        case HookAttaches => HelloKeeps(p);
        case _ => ReportKeeps(p);
      }
    }
  }

  lemma HookSafe(p: Pipe, s: PipeStep)
    requires Inv(p) && (s.HookReads? || s.GameSteps? || s.GameLoads?)
    ensures Safe(p, s)
  {
    match s {
      case HookReads => ReadKeeps(p);
      case GameSteps => StepRunKeeps(p);
      case _ => if TakeLoad(p).On? { LoadRunKeeps(p); }
    }
  }

  /** Whatever arrives and whenever anything runs, the gate never errs (but at
      the last step number there is), and what the game has done in its world is
      a prefix of what that world's stream performs. */
  lemma StepKeepsInv(p: Pipe, s: PipeStep)
    requires Inv(p)
    ensures Take(p, s).GateBroke? ==> s.GameSteps? && p.hook.gate.nextStep >= U64_MAX
    ensures Take(p, s).On? ==> Inv(Take(p, s).pipe)
  {
    match s
    case StreamArrives(_, _, _) => StreamSafe(p, s);
    case TurnArrives(_, _) => StreamSafe(p, s);
    case PumpRuns(_, _) => BridgeSafe(p, s);
    case FlushRuns(_) => BridgeSafe(p, s);
    case WorldFetched(_, _) => BridgeSafe(p, s);
    case NoticeArrives(_) => TalkSafe(p, s);
    case HookAttaches => TalkSafe(p, s);
    case AgentHears => TalkSafe(p, s);
    case HookReads => HookSafe(p, s);
    case GameSteps => HookSafe(p, s);
    case GameLoads => HookSafe(p, s);
  }

  // ----- a client with nothing left to do

  /** Nothing is on its way, nothing is let through, and the follower has handed out
      all it took. */
  predicate AtRest(p: Pipe) {
    && p.link == [] && p.bridge.outbox == [] && p.hook.pending.None? && p.hook.gate.released < p.hook.gate.nextStep
    && p.bridge.follower.Some? && !p.bridge.world.Fetching? && F.Next(p.bridge.follower.value).1.None?
  }

  /** Its game has done all that its stream performs. */
  lemma RestIsDone(p: Pipe)
    requires Inv(p) && AtRest(p)
    ensures p.hook.world == Deeds(p.stream) && p.playing == p.stream
  {
    RestIsHook(p);
    F.NextFollows(p.bridge.follower.value, p.stream.at, p.stream.taken, p.done);
  }

  /** With nothing on its way the hook is where it is headed. */
  lemma RestIsHook(p: Pipe)
    requires Attached(p) && Ahead(p).phase.Playing? && p.link == [] && p.bridge.outbox == []
    requires p.hook.pending.None? && p.hook.gate.released < p.hook.gate.nextStep
    ensures Ahead(p).world == p.hook.world && |p.worlds| == 1 && p.playing == p.worlds[0]
  {
    HelloAlone(HookTrack(p.phase, p.hook));
    assert Queue(p) == if p.bridge.hookReady then [] else [Hello];
  }

  lemma {:induction false} HelloAlone(tr: Track)
    ensures Follow(tr, [Hello]).phase.AwaitBegin?
  {
    assert [Hello][1..] == [];
  }
}

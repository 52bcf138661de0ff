/**
Which world a game is in. A stream that was offered a snapshot starts where that
snapshot was saved, and its world is loaded from a file of that snapshot and of
no other; a stream that was offered none starts at the beginning, and its world
is the first one. A fetch that a newer offer overtook is never loaded.
*/
module Snapshots {
  import opened Protocol
  import opened Gate
  import opened Sequencer
  import opened Recovery
  import opened Server
  import opened Lifetime
  import opened Tracks
  import opened Pipeline
  import opened Lockstep
  import Streams
  import B = Bridge
  import F = Follower

  /** Where a save leaves off. */
  function Place(point: SavePoint): Cursor {
    Cursor(point.afterTurn + 1, point.event + 1, point.sealedThrough)
  }

  /** Where the world in a snapshot stands: the first world, where every game begins. */
  predicate Stood(from: Option<nat>, at: Cursor, points: seq<SavePoint>) {
    match from
    case None => at == Origin
    case Some(k) => k < |points| && at == Place(points[k])
  }

  predicate Of(w: World, points: seq<SavePoint>) {
    Stood(w.from, w.at, points)
  }

  predicate AllOf(worlds: seq<World>, points: seq<SavePoint>) {
    forall i | 0 <= i < |worlds| :: Of(worlds[i], points)
  }

  predicate ClientOf(p: Pipe, points: seq<SavePoint>) {
    AllOf(p.worlds, points) && Of(p.playing, points) && Of(p.stream, points)
  }

  /** A stream on the wire is of the snapshot it offers; one that offers none to a
      client without a world starts at the beginning. */
  predicate WireOf(f: Option<F.FollowerState>, wire: seq<Feed>, points: seq<SavePoint>) {
    wire != [] && wire[0].Opening?
    ==> var o := wire[0].stream; (o.Offered() || f.None? ==> Stood(o.offer, o.start.at, points))
  }

  predicate SystemOf<S>(s: System<S>) {
    ClientOf(s.client, s.life.points) && WireOf(s.client.bridge.follower, s.wire, s.life.points)
  }

  // ----- the room

  lemma PointsGrow<S>(rules: Rules<S>, start: StartRecord, l: Life<S>, step: LifeStep, length: FrameLength)
    requires Live(rules, start, l, step, length).Some?
    ensures l.points <= Live(rules, start, l, step, length).value.points
  {
  }

  lemma OfGrows(p: Pipe, f: Option<F.FollowerState>, wire: seq<Feed>, points: seq<SavePoint>, more: seq<SavePoint>)
    requires ClientOf(p, points) && WireOf(f, wire, points) && points <= more
    ensures ClientOf(p, more) && WireOf(f, wire, more)
  {
    forall i | 0 <= i < |p.worlds| ensures Of(p.worlds[i], more) {
      assert Of(p.worlds[i], points);
    }
  }

  lemma RoomOf<S>(rules: Rules<S>, start: StartRecord, s: System<S>, step: LifeStep, length: FrameLength)
    requires SystemOf(s) && RoomTakes(rules, start, s, step, length).Going?
    ensures SystemOf(RoomTakes(rules, start, s, step, length).system)
  {
    PointsGrow(rules, start, s.life, step, length);
    OfGrows(s.client, s.client.bridge.follower, s.wire, s.life.points,
            Live(rules, start, s.life, step, length).value.points);
  }

  // ----- the connection

  lemma RejoinOf<S>(s: System<S>, afresh: bool, rate: nat)
    requires SystemOf(s)
    requires Streams.Window(s.life.room.game, TurnsIn(s.life.records))
    ensures var next := Feeds(s, StreamAfter(s.life.room.game, Asks(s.client, afresh)), None, rate);
            next.Going? ==> SystemOf(next.system)
  {
    if s.client.bridge.follower.None? {
      Streams.StreamAfterExactly(s.life.room.game, TurnsIn(s.life.records), None);
      assert TurnsIn(s.life.records)[..0] == [];
    }
  }

  lemma OfferOf<S>(s: System<S>, save: nat, rate: nat)
    requires SystemOf(s)
    requires Streams.Window(s.life.room.game, TurnsIn(s.life.records))
    ensures Offering(s, save, rate).Going? ==> SystemOf(Offering(s, save, rate).system)
  {
    if save < |s.life.points| {
      var point := s.life.points[save];
      Streams.StreamAfterExactly(s.life.room.game, TurnsIn(s.life.records),
                                 Some(F.Resume(point.afterTurn, point.history)));
    }
  }

  // ----- the client

  lemma OpenOf(p: Pipe, o: B.StreamStart, margin: nat, memory: nat, lines: map<nat, seq<Turn>>,
               points: seq<SavePoint>)
    requires ClientOf(p, points) && OpeningOk(p, o, lines)
    requires o.Offered() || p.bridge.follower.None? ==> Stood(o.offer, o.start.at, points)
    requires TakeStream(p, o, margin, memory).On?
    ensures ClientOf(TakeStream(p, o, margin, memory).pipe, points)
  {
    var f := p.bridge.follower;
    if !o.Offered() && f.Some? { F.ContinuesExactly(f.value, o.start); }
  }

  lemma TurnOf(p: Pipe, turn: Turn, now: nat, points: seq<SavePoint>)
    requires ClientOf(p, points) && TakeTurn(p, turn, now).On?
    ensures ClientOf(TakeTurn(p, turn, now).pipe, points)
  {
  }

  lemma LocalOf(p: Pipe, step: PipeStep, points: seq<SavePoint>)
    requires ClientOf(p, points) && !step.StreamArrives? && !step.TurnArrives? && Take(p, step).On?
    ensures ClientOf(Take(p, step).pipe, points)
    ensures Take(p, step).pipe.bridge.follower.Some? == p.bridge.follower.Some?
  {
    LocalMoves(p, step);
    var q := Take(p, step).pipe;
    forall i | 0 <= i < |q.worlds| ensures Of(q.worlds[i], points) {
      assert q.worlds[i] in p.worlds + [p.stream];
    }
  }

  // ----- every run

  lemma DeliverOf<S>(s: System<S>, now: nat, margin: nat, memory: nat, lines: map<nat, seq<Turn>>, current: nat)
    requires SystemOf(s) && Connection(s.client, lines, s.wire, s.connected, current)
    ensures Receives(s, now, margin, memory).Going? ==> SystemOf(Receives(s, now, margin, memory).system)
  {
    if Receives(s, now, margin, memory).Going? {
      WireBehind(s.client, s.wire, s.connected, lines, current);
      if s.wire[0].Opening? {
        OpenOf(s.client, s.wire[0].stream, margin, memory, lines, s.life.points);
      } else {
        TurnOf(s.client, s.wire[0].turn, now, s.life.points);
      }
    }
  }

  /** Only turns follow what is first on the wire. */
  lemma WireBehind(p: Pipe, wire: seq<Feed>, connected: bool, lines: map<nat, seq<Turn>>, current: nat)
    requires Connection(p, lines, wire, connected, current) && wire != []
    ensures wire[1..] != [] ==> wire[1..][0].Frame?
  {
  }

  /** A step of the system keeps every world to its snapshot. */
  predicate Keeps<S>(next: Outcome<S>) {
    next.Going? ==> SystemOf(next.system)
  }

  lemma FeedOf<S>(rules: Rules<S>, start: StartRecord, s: System<S>, step: SystemStep, length: FrameLength)
    requires Streams.Window(s.life.room.game, TurnsIn(s.life.records)) && SystemOf(s)
    requires step.Rejoins? || step.Offers?
    ensures Keeps(Next(rules, start, s, step, length))
  {
    if step.Rejoins? {
      RejoinOf(s, step.afresh, step.stepsPerSecond);
    } else {
      OfferOf(s, step.save, step.stepsPerSecond);
    }
  }

  lemma ReadOf<S>(rules: Rules<S>, start: StartRecord, s: System<S>, step: SystemStep, lines: map<nat, seq<Turn>>,
                  current: nat, length: FrameLength)
    requires Connection(s.client, lines, s.wire, s.connected, current) && SystemOf(s)
    requires step.Delivers? || step.ClientSteps?
    ensures Keeps(Next(rules, start, s, step, length))
  {
    if step.Delivers? {
      DeliverOf(s, step.now, step.margin, step.memory, lines, current);
    } else if Stepping(s, step.local).Going? {
      LocalOf(s.client, step.local, s.life.points);
    }
  }

  lemma OwnOf<S>(rules: Rules<S>, start: StartRecord, s: System<S>, step: SystemStep, length: FrameLength)
    requires SystemOf(s) && (step.RoomSteps? || step.Drops?)
    ensures Keeps(Next(rules, start, s, step, length))
  {
    if step.RoomSteps? && RoomTakes(rules, start, s, step.life, length).Going? {
      RoomOf(rules, start, s, step.life, length);
    }
  }

  lemma NextOf<S>(rules: Rules<S>, start: StartRecord, s: System<S>, step: SystemStep, length: FrameLength)
    requires SystemInv(rules, start, s, length) && SystemOf(s)
    ensures Keeps(Next(rules, start, s, step, length))
  {
    if step.RoomSteps? || step.Drops? {
      OwnOf(rules, start, s, step, length);
    } else if step.Rejoins? || step.Offers? {
      HasWindow(rules, start, s.life, length);
      FeedOf(rules, start, s, step, length);
    } else {
      ReadOf(rules, start, s, step, s.life.lines, CurrentHistory(s.life.room.game), length);
    }
  }

  lemma {:induction false} EveryRunIsOf<S>(rules: Rules<S>, start: StartRecord, steps: seq<SystemStep>, s: System<S>,
                                           length: FrameLength)
    requires start.base.None? && Reached(rules, start, steps, length) == Going(s)
    ensures SystemOf(s)
    decreases |steps|
  {
    if steps != [] {
      var before := Reached(rules, start, Init(steps), length).system;
      EveryRunIsOf(rules, start, Init(steps), before, length);
      EveryRun(rules, start, Init(steps), length);
      NextOf(rules, start, before, Last(steps), length);
    }
  }

  /** The file is one of a snapshot whose world goes on at `nextStep`, or it is the
      first world that does. */
  predicate Starts(file: Option<File>, nextStep: nat, points: seq<SavePoint>) {
    match file
    case None => nextStep == Origin.sealed + 1
    case Some(f) => f.snapshot < |points| && nextStep == points[f.snapshot].sealedThrough + 1
  }

  lemma {:induction false} QueuedLoads(tr: Track, queue: seq<ToHook>, worlds: seq<World>, i: nat,
                                       points: seq<SavePoint>)
    requires Sound(tr, queue, worlds) && AllOf(worlds, points) && i < |queue| && queue[i].Load?
    ensures Starts(queue[i].file, queue[i].nextStep, points)
    decreases |queue|
  {
    if queue[0].Load? {
      if i == 0 {
        assert Of(worlds[1], points);
      } else {
        QueuedLoads(Step(tr, queue[0]), queue[1..], worlds[1..], i - 1, points);
      }
    } else {
      QueuedLoads(Step(tr, queue[0]), queue[1..], worlds, i - 1, points);
    }
  }

  /** Every load on its way to the hook is of the world its stream was offered. */
  ghost predicate LoadsStart(queue: seq<ToHook>, points: seq<SavePoint>) {
    forall i | 0 <= i < |queue| && queue[i].Load? :: Starts(queue[i].file, queue[i].nextStep, points)
  }

  /** The turns a file's world had behind it. */
  function Behind(file: Option<File>, points: seq<SavePoint>): int {
    match file
    case None => 0
    case Some(f) => if f.snapshot < |points| then points[f.snapshot].afterTurn else 0
  }

  lemma QueueStarts(p: Pipe, points: seq<SavePoint>)
    requires Attached(p) && AllOf(p.worlds, points)
    ensures LoadsStart(p.link + p.bridge.outbox, points)
  {
    var queue := p.link + p.bridge.outbox;
    forall i | 0 <= i < |queue| && queue[i].Load? ensures Starts(queue[i].file, queue[i].nextStep, points) {
      var k := if p.bridge.hookReady then i else i + 1;
      assert Queue(p)[k] == queue[i];
      QueuedLoads(HookTrack(p.phase, p.hook), Queue(p), p.worlds, k, points);
    }
  }

  lemma HookStarts(p: Pipe, points: seq<SavePoint>)
    requires Attached(p) && AllOf(p.worlds, points)
    ensures p.hook.file.Some? ==> p.hook.file.value.snapshot < |points|
    ensures match p.hook.pending
            case Some(nextStep) => Starts(p.hook.file, nextStep, points)
            case None => p.playing.at.turn == Behind(p.hook.file, points) + 1
  {
    assert Of(p.worlds[0], points);
  }

  lemma PlaceIs(line: seq<Turn>, n: nat)
    requires n <= |line|
    ensures Run(Origin, line[..n]).turn == n + 1
  {
    Streams.RunEvents(Origin, line[..n]);
  }

  /** For every run: every load on its way is of the snapshot its stream was offered,
      and once the game has loaded what it was told to, the world it is in came from
      the file it loaded: it performs what follows that snapshot's turns in a history
      of the room's, and nothing else. */
  lemma EveryRunLoadsItsOffer<S>(rules: Rules<S>, start: StartRecord, steps: seq<SystemStep>, s: System<S>,
                                 length: FrameLength)
    returns (h: nat)
    requires start.base.None? && Reached(rules, start, steps, length) == Going(s)
    ensures LoadsStart(s.client.link + s.client.bridge.outbox, s.life.points)
    ensures s.client.hook.pending.None?
            ==> && (s.client.hook.file.Some? ==> s.client.hook.file.value.snapshot < |s.life.points|)
                && PlaysCanonically(s, h, Behind(s.client.hook.file, s.life.points))
    ensures s.client.hook.pending.Some?
            ==> Starts(s.client.hook.file, s.client.hook.pending.value, s.life.points)
  {
    EveryRun(rules, start, steps, length);
    EveryRunIsOf(rules, start, steps, s, length);
    QueueStarts(s.client, s.life.points);
    HookStarts(s.client, s.life.points);
    var n: nat;
    h, n := GameIsCanonical(rules, start, s, length);
    PlaceIs(s.life.lines[h], n);
  }
}

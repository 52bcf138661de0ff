/**
A run of the whole system that fails although nobody did anything wrong
(crates/tpf3mp-agent/src/bridge.rs:477-489).

A guest joins a running game, is offered the save the room takes for it, fetches
that world and has its game load it. While the game loads, the room seals a turn,
sends it and crashes before the turn is safe. The guest's history no longer
reaches as far as the guest does, so the room cannot resume it and offers the
save again; and then the game reports the load it finished.
*/
module Stalls {
  import opened Protocol
  import opened Sequencer
  import opened Sealing
  import opened Recovery
  import opened Server
  import opened Lifetime
  import opened Gate
  import opened Pipeline
  import opened Lockstep
  import opened Overtaking
  import Streams
  import Tracks
  import B = Bridge
  import F = Follower
  import L = Loads

  // ----- the room

  function Joins(player: PlayerId): EventBody {
    PlayerJoined(player, "", 0)
  }

  function Joined<S>(rules: Rules<S>, l: Life<S>, player: PlayerId): Life<S> {
    l.(room := Ordering(rules, l.room, Joins(player)))
  }

  lemma {:induction false} SpreadCounts(events: seq<Event>, batches: seq<seq<Event>>, budget: nat)
    requires batches != []
    ensures 0 < |Spread(events, batches, budget)| <= |batches| + |events|
    decreases |events|
  {
    if events != [] {
      var size := PayloadSize(events[0]);
      if budget + size > TURN_PAYLOAD_BUDGET && Last(batches) != [] {
        SpreadCounts(events[1..], batches + [[events[0]]], size);
      } else {
        SpreadCounts(events[1..], Init(batches) + [Last(batches) + [events[0]]], budget + size);
      }
    }
  }

  lemma {:induction false} TurnsCount(number: nat, speed: nat, sealed: nat, batches: seq<seq<Event>>, frontier: nat)
    ensures |TurnsFor(number, speed, sealed, batches, frontier)| == |batches|
    decreases |batches|
  {
    if batches != [] { TurnsCount(number + 1, speed, sealed, batches[1..], frontier); }
  }

  /** What a room is like that never crashed. */
  predicate Young<S>(start: StartRecord, l: Life<S>, frontier: nat, turns: nat) {
    && l.room.game.histories == [History(start.history, 0)] && l.room.game.sealedThrough == frontier
    && l.lines.Keys == {start.history} && |TurnsIn(l.records)| <= turns
  }

  /** Nothing waits to be sealed. */
  predicate Quiet<S>(l: Life<S>) {
    l.room.game.pending == [] && l.room.game.speed == l.room.game.announced
  }

  /** What sealing keeps, and how many turns it can take. */
  lemma SealsFew<S>(rules: Rules<S>, start: StartRecord, l: Life<S>, frontier: nat, sealed: nat, turns: nat,
                    length: FrameLength)
    requires LifeInv(rules, start, l, length) && Young(start, l, sealed, turns) && sealed <= frontier <= MAX_FRONTIER
    ensures var s := SealUp(l, frontier, length);
            && Live(rules, start, l, SealTo(frontier), length) == Some(s) && Quiet(s) && s.points == l.points
            && Young(start, s, frontier, turns + 1 + |l.room.game.pending|)
            && s.room.game.seated == l.room.game.seated
            && TurnsIn(s.records) == TurnsIn(l.records) + Published(l.room.game, frontier)
  {
    var g := l.room.game;
    SealImage(rules, start, l, frontier, length);
    SealKeeps(g, TurnsIn(l.records), frontier, length);
    SpreadCounts(g.pending, [[]], 0);
    TurnsCount(g.nextTurn, g.speed, g.sealedThrough, Batches(g.pending), frontier);
  }

  lemma OwnerJoins<S>(rules: Rules<S>, start: StartRecord, length: FrameLength)
    requires start.maxPlayers >= 2
    ensures var b := Birth(rules, start);
            var j := Joined(rules, b, start.owner);
            && Live(rules, start, b, Order(Joins(start.owner)), length) == Some(j)
            && Young(start, j, 0, 0) && |j.room.game.pending| == 1 && j.points == []
            && j.room.game.seated == [Seat(start.owner, "", 0)]
  {
  }

  lemma GuestJoins<S>(rules: Rules<S>, start: StartRecord, l: Life<S>, guest: PlayerId, length: FrameLength)
    requires Young(start, l, 1, 2) && l.room.game.pending == [] && l.points == []
    requires l.room.game.seated == [Seat(start.owner, "", 0)] && guest != start.owner && start.maxPlayers >= 2
    ensures var j := Joined(rules, l, guest);
            && Live(rules, start, l, Order(Joins(guest)), length) == Some(j)
            && Young(start, j, 1, 2) && |j.room.game.pending| == 1 && j.points == [] && j.room.game.seated != []
  {
  }

  /** The room's only save is its last turn's. */
  predicate OneSave<S>(start: StartRecord, l: Life<S>) {
    && |l.points| == 1 && l.points[0].history == start.history
    && l.points[0].afterTurn == |TurnsIn(l.records)| && l.points[0].sealedThrough == 1
  }

  lemma SavesOnce<S>(rules: Rules<S>, start: StartRecord, j: Life<S>, turns: nat, length: FrameLength)
    requires LifeInv(rules, start, j, length) && Young(start, j, 1, turns) && j.points == []
    ensures OneSave(start, SaveUp(rules, j, length))
  {
    Streams.SaveEndsItsTurn(j.room.game, TurnsIn(j.records), length);
    SavedPoint(rules, start, j, length);
  }

  lemma OrdersSave<S>(rules: Rules<S>, start: StartRecord, j: Life<S>, turns: nat)
    requires Young(start, j, 1, turns)
    ensures var o := j.(room := Ordering(rules, j.room, Save));
            && Young(start, o, 1, turns) && |o.room.game.pending| == |j.room.game.pending| + 1
            && o.room.game.seated == j.room.game.seated
  {
  }

  lemma SavesFew<S>(rules: Rules<S>, start: StartRecord, j: Life<S>, length: FrameLength)
    requires LifeInv(rules, start, j, length) && Young(start, j, 1, 2) && |j.room.game.pending| == 1
    ensures var l := SaveUp(rules, j, length);
            Young(start, l, 1, 5) && Quiet(l) && l.room.game.seated == j.room.game.seated
  {
    OrdersSave(rules, start, j, 2);
    OrderKeeps(rules, start, j, Save, length);
    SealsFew(rules, start, j.(room := Ordering(rules, j.room, Save)), 1, 1, 2, length);
  }

  /** What matters of a room that has just saved for a guest. */
  predicate Ready<S>(start: StartRecord, l: Life<S>) {
    Young(start, l, 1, 5) && Quiet(l) && l.room.game.seated != [] && OneSave(start, l)
  }

  lemma Saves<S>(rules: Rules<S>, start: StartRecord, j: Life<S>, length: FrameLength)
    requires LifeInv(rules, start, j, length) && Young(start, j, 1, 2) && |j.room.game.pending| == 1 && j.points == []
    requires j.room.game.seated != []
    ensures Live(rules, start, j, SealASave, length) == Some(SaveUp(rules, j, length))
    ensures Ready(start, SaveUp(rules, j, length))
  {
    SavesOnce(rules, start, j, 2, length);
    SavesFew(rules, start, j, length);
  }

  /** A turn without events, the only one to seal. */
  lemma SealsOne<S>(rules: Rules<S>, start: StartRecord, l: Life<S>, length: FrameLength) returns (turn: Turn)
    requires LifeInv(rules, start, l, length) && Ready(start, l)
    ensures Live(rules, start, l, SealTo(2), length) == Some(SealUp(l, 2, length))
    ensures turn == Turn(|TurnsIn(l.records)| + 1, 2, l.room.game.speed, [])
    ensures TurnsIn(SealUp(l, 2, length).records) == TurnsIn(l.records) + [turn]
    ensures SealUp(l, 2, length).points == l.points && SealUp(l, 2, length).lines.Keys == {start.history}
  {
    turn := Turn(|TurnsIn(l.records)| + 1, 2, l.room.game.speed, []);
    SealsFew(rules, start, l, 2, 1, 5, length);
    HasWindow(rules, start, l, length);
    OnePublished(l.room.game, 2);
  }

  lemma OnePublished(g: GameState, frontier: nat)
    requires g.pending == []
    ensures Published(g, frontier) == [Turn(g.nextTurn, frontier, g.speed, [])]
  {
    assert Batches(g.pending) == [[]];
    var batches: seq<seq<Event>> := [[]];
    assert batches[1..] == [];
  }

  /** The crash loses that turn: the room comes back as it was before it. */
  lemma ComesBack<S>(rules: Rules<S>, start: StartRecord, l: Life<S>, id: nat, length: FrameLength)
    returns (b: Life<S>)
    requires LifeInv(rules, start, l, length) && Ready(start, l) && id != start.history
    requires SealUp(l, 2, length).lines.Keys == {start.history} && SealUp(l, 2, length).points == l.points
    ensures Live(rules, start, SealUp(l, 2, length), Crash(|l.records|, id), length) == Some(b)
    ensures b.room.game == BeginHistory(l.room.game, id) && b.points == l.points
    ensures TurnsIn(b.records) == TurnsIn(l.records)
  {
    var s := SealUp(l, 2, length);
    assert s.records[..|l.records|] == l.records;
    LiveIsRecovered(rules, start, l.records, l.room, length);
    b := Restored(s, l.room, |l.records|, id).value;
    var marker := Marker(id, l.room.game.nextTurn, l.room.game.nextEvent);
    assert Init(l.records + [marker]) == l.records;
  }

  // ----- its streams

  /** The room still has its save to offer. */
  predicate Offering<S>(start: StartRecord, l: Life<S>) {
    var histories := l.room.game.histories;
    && OneSave(start, l) && histories != [] && histories[0].id == start.history
    && (|histories| > 1 ==> histories[1].afterTurn >= |TurnsIn(l.records)|)
  }

  /** The save can be offered as long as the room has not lost its turn. */
  lemma CanOffer<S>(rules: Rules<S>, start: StartRecord, l: Life<S>, length: FrameLength)
    requires LifeInv(rules, start, l, length) && Offering(start, l)
    ensures StreamFromSave(l.room.game, l.points[0])
            == Some(Stream(Cursor(|TurnsIn(l.records)| + 1, l.points[0].event + 1, 1), []))
  {
    var g, turns, point := l.room.game, TurnsIn(l.records), l.points[0];
    HasWindow(rules, start, l, length);
    IsServed(g, turns, start.history);
    SaveSafe(l.lines, g, turns, point);
    assert turns[|turns|..] == [];
  }

  lemma IsServed(g: GameState, turns: seq<Turn>, h: nat)
    requires Streams.Window(g, turns) && g.histories != [] && g.histories[0].id == h
    requires |g.histories| > 1 ==> g.histories[1].afterTurn >= |turns|
    ensures StreamAfter(g, Some(F.Resume(|turns|, h))).Some?
  {
    Streams.StreamAfterExactly(g, turns, Some(F.Resume(|turns|, h)));
  }

  /** A guest that took the lost turn cannot resume. */
  lemma CannotResume(g: GameState, start: StartRecord, id: nat, turns: nat)
    requires g.histories == [History(start.history, 0)] && g.nextTurn == turns + 1
    ensures StreamAfter(BeginHistory(g, id), Some(F.Resume(turns + 1, start.history))) == None
  {
  }

  // ----- the client

  const Greeted := Attaching.(bridge := B.Fresh.(hookReady := true, outbox := [Hello]))

  lemma {:induction false} NoEndRetained(queue: seq<ToHook>)
    requires L.NoEnd(queue)
    ensures L.NoEnd(B.Retain(queue))
  {
    if queue != [] { NoEndRetained(queue[1..]); }
  }

  predicate Attached(p: Pipe, f: F.FollowerState) {
    p.bridge.begun && p.bridge.hookReady && !L.Ending(p) && p.bridge.follower == Some(f)
  }

  /** The client has a load on the link that the game has not answered. */
  predicate Waits(p: Pipe, f: F.FollowerState) {
    Attached(p, f) && L.SentLoads(p) != [] && p.bridge.world.Loading?
  }

  lemma TakesOffer(o: B.StreamStart) returns (p: Pipe)
    requires o.Offered()
    ensures TakeStream(Greeted, o, 0, 0) == On(p) && Attached(p, F.Begin(o.start))
    ensures p.bridge.world == B.Fetching(o.start.at.sealed + 1, 1) && |p.fetches| == 1
  {
    p := TakeStream(Greeted, o, 0, 0).pipe;
    NoEndRetained([Hello] + [BeginGame]);
  }

  lemma Fetches(p: Pipe, f: F.FollowerState, nextStep: nat) returns (q: Pipe)
    requires Attached(p, f) && p.bridge.world == B.Fetching(nextStep, 1) && |p.fetches| == 1
    ensures TakeFetched(p, 1, "") == On(q) && Attached(q, f) && q.bridge.world.Loading?
    ensures Tracks.LoadsIn(q.bridge.outbox) != []
  {
    q := TakeFetched(p, 1, "").pipe;
    NoEndRetained(p.bridge.outbox);
    var load := Load(Some(File("", p.fetches[0])), nextStep);
    L.LoadsInAppend(B.Retain(p.bridge.outbox), [load]);
    assert Tracks.LoadsIn([load]) == [nextStep] + Tracks.LoadsIn([load][1..]);
  }

  lemma Flushes(p: Pipe, f: F.FollowerState) returns (q: Pipe)
    requires Attached(p, f) && p.bridge.world.Loading? && Tracks.LoadsIn(p.bridge.outbox) != []
    ensures TakeFlush(p, |p.bridge.outbox|) == On(q) && Waits(q, f)
  {
    q := TakeFlush(p, |p.bridge.outbox|).pipe;
    var out := p.bridge.outbox;
    assert out[..|out|] == out && out[|out|..] == [];
    L.LoadsInAppend(p.link, out);
  }

  lemma TakesTurn(p: Pipe, f: F.FollowerState, turn: Turn) returns (q: Pipe, next: F.FollowerState)
    requires Waits(p, f) && f.queuedBytes == 0 && f.nextTurn <= 6 && f.sealedThrough == 1
    requires turn == Turn(f.nextTurn, 2, turn.speed, [])
    ensures TakeTurn(p, turn, 0) == On(q) && Waits(q, next)
    ensures next.nextTurn == f.nextTurn + 1 && next.history == f.history
  {
    next := F.Accepting(f, turn).value;
    q := TakeTurn(p, turn, 0).pipe;
    assert L.SentLoads(q) == L.SentLoads(p);
  }

  /** The second offer overtakes the load. */
  lemma OfferOvertakes(p: Pipe, f: F.FollowerState, o: B.StreamStart) returns (q: Pipe)
    requires Waits(p, f) && o.Offered()
    ensures TakeStream(p, o, 0, 0) == On(q) && !L.Ending(q) && L.Supersedes(p, StreamArrives(o, 0, 0))
  {
    q := TakeStream(p, o, 0, 0).pipe;
    NoEndRetained(p.bridge.outbox);
  }

  // ----- the run

  /** A game runs, a guest joins and the room saves for it. */
  function ToSave(owner: PlayerId, guest: PlayerId): seq<SystemStep> {
    [RoomSteps(Order(Joins(owner)))] + [RoomSteps(SealTo(1))] + [RoomSteps(Order(Joins(guest)))]
    + [RoomSteps(SealASave)]
  }

  /** The guest attaches its hook, takes the offer and has its game load the save. */
  function ToLoading(owner: PlayerId, guest: PlayerId, taken: nat): seq<SystemStep> {
    ToSave(owner, guest) + [ClientSteps(HookAttaches)] + [Offers(0, 1)] + [Delivers(0, 0, 0)]
    + [ClientSteps(WorldFetched(1, ""))] + [ClientSteps(FlushRuns(taken))]
  }

  /** A turn is sealed and sent, and lost. */
  function ToCrash(owner: PlayerId, guest: PlayerId, taken: nat, kept: nat, id: nat): seq<SystemStep> {
    ToLoading(owner, guest, taken) + [RoomSteps(SealTo(2))] + [Delivers(0, 0, 0)] + [RoomSteps(Crash(kept, id))]
  }

  /** The save is offered again. */
  function Story(owner: PlayerId, guest: PlayerId, taken: nat, kept: nat, id: nat): seq<SystemStep> {
    ToCrash(owner, guest, taken, kept, id) + [Offers(0, 1)] + [Delivers(0, 0, 0)]
  }

  lemma {:induction false} RunsOn<S>(rules: Rules<S>, start: StartRecord, steps: seq<SystemStep>, s: System<S>,
                                     step: SystemStep, t: System<S>, length: FrameLength)
    requires Reached(rules, start, steps, length) == Going(s) && Next(rules, start, s, step, length) == Going(t)
    ensures Reached(rules, start, steps + [step], length) == Going(t)
  {
    ReachedNext(rules, start, steps, step, length);
  }

  lemma {:induction false} Lives<S>(rules: Rules<S>, start: StartRecord, steps: seq<SystemStep>, s: System<S>,
                                    length: FrameLength)
    requires start.base.None? && Reached(rules, start, steps, length) == Going(s)
    ensures LifeInv(rules, start, s.life, length)
  {
    EveryRun(rules, start, steps, length);
  }

  /** While nobody is connected only the room moves. */
  lemma RoomMoves<S>(rules: Rules<S>, start: StartRecord, s: System<S>, step: LifeStep, life: Life<S>,
                     length: FrameLength)
    requires Live(rules, start, s.life, step, length) == Some(life) && !s.connected && !step.Crash?
    ensures Next(rules, start, s, RoomSteps(step), length) == Going(s.(life := life))
  {
  }

  lemma RoomSends<S>(rules: Rules<S>, start: StartRecord, s: System<S>, step: LifeStep, life: Life<S>, turn: Turn,
                     length: FrameLength)
    requires Live(rules, start, s.life, step, length) == Some(life) && s.connected && !step.Crash?
    requires TurnsIn(life.records) == TurnsIn(s.life.records) + [turn]
    ensures Next(rules, start, s, RoomSteps(step), length) == Going(s.(life := life, wire := s.wire + [Frame(turn)]))
  {
    assert TurnsIn(life.records)[|TurnsIn(s.life.records)|..] == [turn];
    assert Lockstep.Frames([turn]) == [Frame(turn)];
  }

  lemma RoomBreaks<S>(rules: Rules<S>, start: StartRecord, s: System<S>, step: LifeStep, life: Life<S>,
                      length: FrameLength)
    requires Live(rules, start, s.life, step, length) == Some(life) && step.Crash?
    ensures Next(rules, start, s, RoomSteps(step), length) == Going(s.(life := life, connected := false))
  {
  }

  lemma ClientMoves<S>(rules: Rules<S>, start: StartRecord, s: System<S>, step: PipeStep, p: Pipe, length: FrameLength)
    requires Take(s.client, step) == On(p) && !step.StreamArrives? && !step.TurnArrives?
    ensures Next(rules, start, s, ClientSteps(step), length) == Going(s.(client := p))
  {
  }

  lemma Receives<S>(rules: Rules<S>, start: StartRecord, s: System<S>, p: Pipe, length: FrameLength)
    requires |s.wire| == 1
    requires match s.wire[0]
             case Opening(stream) => TakeStream(s.client, stream, 0, 0) == On(p)
             case Frame(turn) => TakeTurn(s.client, turn, 0) == On(p)
    ensures Next(rules, start, s, Delivers(0, 0, 0), length) == Going(s.(client := p, wire := []))
  {
  }

  lemma RoomOffers<S>(rules: Rules<S>, start: StartRecord, s: System<S>, at: Cursor, length: FrameLength)
    requires |s.life.points| == 1 && StreamFromSave(s.life.room.game, s.life.points[0]) == Some(Stream(at, []))
    ensures var o := B.StreamStart(F.TurnStart(at, CurrentHistory(s.life.room.game)), Some(0), 1);
            Next(rules, start, s, Offers(0, 1), length) == Going(s.(wire := [Opening(o)], connected := true))
  {
    assert Lockstep.Frames([]) == [];
    assert [Opening(B.StreamStart(F.TurnStart(at, CurrentHistory(s.life.room.game)), Some(0), 1))] + Lockstep.Frames([])
        == [Opening(B.StreamStart(F.TurnStart(at, CurrentHistory(s.life.room.game)), Some(0), 1))];
  }

  /** The guest's agent is not there yet. */
  predicate Alone<S>(s: System<S>) {
    s.client == Attaching && s.wire == [] && !s.connected
  }

  lemma OwnerStarts<S>(rules: Rules<S>, start: StartRecord, length: FrameLength) returns (t: System<S>)
    requires start.maxPlayers >= 2
    ensures Reached(rules, start, [RoomSteps(Order(Joins(start.owner)))], length) == Going(t) && Alone(t)
    ensures Young(start, t.life, 0, 0) && |t.life.room.game.pending| == 1 && t.life.points == []
    ensures t.life.room.game.seated == [Seat(start.owner, "", 0)]
  {
    var s := Beginning(rules, start);
    OwnerJoins(rules, start, length);
    t := s.(life := Joined(rules, s.life, start.owner));
    RoomMoves(rules, start, s, Order(Joins(start.owner)), t.life, length);
    RunsOn(rules, start, [], s, RoomSteps(Order(Joins(start.owner))), t, length);
    assert [] + [RoomSteps(Order(Joins(start.owner)))] == [RoomSteps(Order(Joins(start.owner)))];
  }

  lemma GameRuns<S>(rules: Rules<S>, start: StartRecord, steps: seq<SystemStep>, s: System<S>, length: FrameLength)
    returns (t: System<S>)
    requires start.base.None? && Reached(rules, start, steps, length) == Going(s) && Alone(s)
    requires Young(start, s.life, 0, 0) && |s.life.room.game.pending| == 1
    ensures Reached(rules, start, steps + [RoomSteps(SealTo(1))], length) == Going(t) && Alone(t)
    ensures Young(start, t.life, 1, 2) && t.life.room.game.pending == [] && t.life.points == s.life.points
    ensures t.life.room.game.seated == s.life.room.game.seated
  {
    Lives(rules, start, steps, s, length);
    SealsFew(rules, start, s.life, 1, 0, 0, length);
    t := s.(life := SealUp(s.life, 1, length));
    RoomMoves(rules, start, s, SealTo(1), t.life, length);
    RunsOn(rules, start, steps, s, RoomSteps(SealTo(1)), t, length);
  }

  lemma GuestArrives<S>(rules: Rules<S>, start: StartRecord, guest: PlayerId, steps: seq<SystemStep>, s: System<S>,
                        length: FrameLength) returns (t: System<S>)
    requires Reached(rules, start, steps, length) == Going(s) && Alone(s)
    requires Young(start, s.life, 1, 2) && s.life.room.game.pending == [] && s.life.points == []
    requires s.life.room.game.seated == [Seat(start.owner, "", 0)] && guest != start.owner && start.maxPlayers >= 2
    ensures Reached(rules, start, steps + [RoomSteps(Order(Joins(guest)))], length) == Going(t) && Alone(t)
    ensures Young(start, t.life, 1, 2) && |t.life.room.game.pending| == 1 && t.life.points == []
    ensures t.life.room.game.seated != []
  {
    GuestJoins(rules, start, s.life, guest, length);
    t := s.(life := Joined(rules, s.life, guest));
    RoomMoves(rules, start, s, Order(Joins(guest)), t.life, length);
    RunsOn(rules, start, steps, s, RoomSteps(Order(Joins(guest))), t, length);
  }

  lemma RoomSaves<S>(rules: Rules<S>, start: StartRecord, steps: seq<SystemStep>, s: System<S>, length: FrameLength)
    returns (t: System<S>)
    requires start.base.None? && Reached(rules, start, steps, length) == Going(s) && Alone(s)
    requires Young(start, s.life, 1, 2) && |s.life.room.game.pending| == 1 && s.life.points == []
    requires s.life.room.game.seated != []
    ensures Reached(rules, start, steps + [RoomSteps(SealASave)], length) == Going(t) && Alone(t) && Ready(start, t.life)
  {
    Lives(rules, start, steps, s, length);
    Saves(rules, start, s.life, length);
    t := s.(life := SaveUp(rules, s.life, length));
    RoomMoves(rules, start, s, SealASave, t.life, length);
    RunsOn(rules, start, steps, s, RoomSteps(SealASave), t, length);
  }

  lemma {:induction false} GuestAttaches<S>(rules: Rules<S>, start: StartRecord, steps: seq<SystemStep>, s: System<S>,
                         length: FrameLength)
    requires Reached(rules, start, steps, length) == Going(s) && Alone(s)
    ensures Reached(rules, start, steps + [ClientSteps(HookAttaches)], length) == Going(s.(client := Greeted))
  {
    assert [Hello] + [] == [Hello];
    ClientMoves(rules, start, s, HookAttaches, Greeted, length);
    RunsOn(rules, start, steps, s, ClientSteps(HookAttaches), s.(client := Greeted), length);
  }

  lemma {:induction false} SaveStands<S>(rules: Rules<S>, start: StartRecord, steps: seq<SystemStep>, s: System<S>,
                                         length: FrameLength)
    requires start.base.None? && Reached(rules, start, steps, length) == Going(s) && Offering(start, s.life)
    ensures StreamFromSave(s.life.room.game, s.life.points[0])
            == Some(Stream(Cursor(|TurnsIn(s.life.records)| + 1, s.life.points[0].event + 1, 1), []))
  {
    Lives(rules, start, steps, s, length);
    CanOffer(rules, start, s.life, length);
  }

  lemma GuestIsOffered<S>(rules: Rules<S>, start: StartRecord, steps: seq<SystemStep>, s: System<S>,
                          length: FrameLength) returns (t: System<S>, o: B.StreamStart)
    requires start.base.None? && Reached(rules, start, steps, length) == Going(s) && Offering(start, s.life)
    ensures Reached(rules, start, steps + [Offers(0, 1)], length) == Going(t)
    ensures t == s.(wire := [Opening(o)], connected := true)
    ensures o.Offered() && o.start.history == CurrentHistory(s.life.room.game)
    ensures o.start.at == Cursor(|TurnsIn(s.life.records)| + 1, s.life.points[0].event + 1, 1)
  {
    var at := Cursor(|TurnsIn(s.life.records)| + 1, s.life.points[0].event + 1, 1);
    o := B.StreamStart(F.TurnStart(at, CurrentHistory(s.life.room.game)), Some(0), 1);
    t := s.(wire := [Opening(o)], connected := true);
    SaveStands(rules, start, steps, s, length);
    RoomOffers(rules, start, s, at, length);
    RunsOn(rules, start, steps, s, Offers(0, 1), t, length);
  }

  /** It takes the offer, fetches the world and has the game load it. */
  lemma GuestLoads<S>(rules: Rules<S>, start: StartRecord, steps: seq<SystemStep>, s: System<S>, o: B.StreamStart,
                      length: FrameLength) returns (t: System<S>, taken: nat)
    requires Reached(rules, start, steps, length) == Going(s)
    requires s.client == Greeted && s.wire == [Opening(o)] && s.connected && o.Offered()
    ensures Reached(rules, start, steps + [Delivers(0, 0, 0)] + [ClientSteps(WorldFetched(1, ""))]
                                  + [ClientSteps(FlushRuns(taken))], length) == Going(t)
    ensures t == s.(client := t.client, wire := []) && Waits(t.client, F.Begin(o.start))
  {
    var f := F.Begin(o.start);
    var p := TakesOffer(o);
    var r := s.(client := p, wire := []);
    Receives(rules, start, s, p, length);
    RunsOn(rules, start, steps, s, Delivers(0, 0, 0), r, length);
    var q := Fetches(p, f, o.start.at.sealed + 1);
    ClientMoves(rules, start, r, WorldFetched(1, ""), q, length);
    RunsOn(rules, start, steps + [Delivers(0, 0, 0)], r, ClientSteps(WorldFetched(1, "")), r.(client := q), length);
    taken := |q.bridge.outbox|;
    var w := Flushes(q, f);
    t := r.(client := w);
    ClientMoves(rules, start, r.(client := q), FlushRuns(taken), w, length);
    RunsOn(rules, start, steps + [Delivers(0, 0, 0)] + [ClientSteps(WorldFetched(1, ""))], r.(client := q),
           ClientSteps(FlushRuns(taken)), t, length);
  }

  /** A turn is sealed and sent. */
  lemma TurnArrives<S>(rules: Rules<S>, start: StartRecord, steps: seq<SystemStep>, s: System<S>, f: F.FollowerState,
                       length: FrameLength) returns (t: System<S>, next: F.FollowerState)
    requires start.base.None? && Reached(rules, start, steps, length) == Going(s) && Ready(start, s.life)
    requires s.wire == [] && s.connected && Waits(s.client, f)
    requires f.queuedBytes == 0 && f.nextTurn == |TurnsIn(s.life.records)| + 1 && f.sealedThrough == 1
    ensures Reached(rules, start, steps + [RoomSteps(SealTo(2))] + [Delivers(0, 0, 0)], length) == Going(t)
    ensures t.life == SealUp(s.life, 2, length) && t.life.points == s.life.points
    ensures t.life.lines.Keys == {start.history} && Waits(t.client, next)
    ensures next.nextTurn == f.nextTurn + 1 && next.history == f.history
  {
    Lives(rules, start, steps, s, length);
    var turn := SealsOne(rules, start, s.life, length);
    var r := s.(life := SealUp(s.life, 2, length), wire := [Frame(turn)]);
    RoomSends(rules, start, s, SealTo(2), r.life, turn, length);
    assert [] + [Frame(turn)] == [Frame(turn)];
    RunsOn(rules, start, steps, s, RoomSteps(SealTo(2)), r, length);
    var q: Pipe;
    q, next := TakesTurn(s.client, f, turn);
    t := r.(client := q, wire := []);
    Receives(rules, start, r, q, length);
    RunsOn(rules, start, steps + [RoomSteps(SealTo(2))], r, Delivers(0, 0, 0), t, length);
  }

  lemma LostLife<S>(rules: Rules<S>, start: StartRecord, l: Life<S>, id: nat, length: FrameLength)
    returns (b: Life<S>)
    requires LifeInv(rules, start, l, length) && Ready(start, l) && id != start.history
    requires SealUp(l, 2, length).lines.Keys == {start.history} && SealUp(l, 2, length).points == l.points
    ensures Live(rules, start, SealUp(l, 2, length), Crash(|l.records|, id), length) == Some(b)
    ensures Offering(start, b)
    ensures StreamAfter(b.room.game, Some(F.Resume(|TurnsIn(l.records)| + 1, start.history))) == None
  {
    b := ComesBack(rules, start, l, id, length);
    HasWindow(rules, start, l, length);
    CannotResume(l.room.game, start, id, |TurnsIn(l.records)|);
  }

  /** The room crashes and comes back without that turn; the guest cannot resume. */
  lemma TurnIsLost<S>(rules: Rules<S>, start: StartRecord, before: seq<SystemStep>, was: System<S>, s: System<S>,
                      f: F.FollowerState, id: nat, length: FrameLength) returns (t: System<S>)
    requires start.base.None? && Reached(rules, start, before, length) == Going(was) && Ready(start, was.life)
    requires Reached(rules, start, before + [RoomSteps(SealTo(2))] + [Delivers(0, 0, 0)], length) == Going(s)
    requires s.life == SealUp(was.life, 2, length) && s.life.points == was.life.points
    requires s.life.lines.Keys == {start.history} && id != start.history && Waits(s.client, f)
    requires f.nextTurn == |TurnsIn(was.life.records)| + 2 && f.history == start.history
    ensures Reached(rules, start, before + [RoomSteps(SealTo(2))] + [Delivers(0, 0, 0)]
                                  + [RoomSteps(Crash(|was.life.records|, id))], length) == Going(t)
    ensures Offering(start, t.life) && Waits(t.client, f)
    ensures StreamAfter(t.life.room.game, Asks(t.client, false)) == None
  {
    Lives(rules, start, before, was, length);
    var b := LostLife(rules, start, was.life, id, length);
    t := s.(life := b, connected := false);
    RoomBreaks(rules, start, s, Crash(|was.life.records|, id), b, length);
    RunsOn(rules, start, before + [RoomSteps(SealTo(2))] + [Delivers(0, 0, 0)], s,
           RoomSteps(Crash(|was.life.records|, id)), t, length);
  }

  /** The save is offered again, over the load still unanswered. */
  lemma OfferedAgain<S>(rules: Rules<S>, start: StartRecord, steps: seq<SystemStep>, s: System<S>, f: F.FollowerState,
                        length: FrameLength) returns (t: System<S>, u: System<S>)
    requires start.base.None? && Reached(rules, start, steps, length) == Going(s)
    requires Offering(start, s.life) && Waits(s.client, f)
    ensures Reached(rules, start, steps + [Offers(0, 1)], length) == Going(t)
    ensures Overtakes(t, Delivers(0, 0, 0)) && ForClient(t, Delivers(0, 0, 0)).value.opening.Offered()
    ensures Next(rules, start, t, Delivers(0, 0, 0), length) == Going(u) && !L.Ending(u.client)
  {
    var o: B.StreamStart;
    t, o := GuestIsOffered(rules, start, steps, s, length);
    var q := OfferOvertakes(s.client, f, o);
    u := t.(client := q, wire := []);
    Receives(rules, start, t, q, length);
  }

  lemma UpToSave<S>(rules: Rules<S>, start: StartRecord, guest: PlayerId, length: FrameLength)
    returns (s: System<S>)
    requires start.base.None? && start.maxPlayers >= 2 && guest != start.owner
    ensures Reached(rules, start, ToSave(start.owner, guest), length) == Going(s) && Alone(s) && Ready(start, s.life)
  {
    var steps := [RoomSteps(Order(Joins(start.owner)))];
    s := OwnerStarts(rules, start, length);
    s := GameRuns(rules, start, steps, s, length);
    s := GuestArrives(rules, start, guest, steps + [RoomSteps(SealTo(1))], s, length);
    s := RoomSaves(rules, start, steps + [RoomSteps(SealTo(1))] + [RoomSteps(Order(Joins(guest)))], s, length);
  }

  lemma UpToLoading<S>(rules: Rules<S>, start: StartRecord, guest: PlayerId, length: FrameLength)
    returns (s: System<S>, taken: nat, f: F.FollowerState)
    requires start.base.None? && start.maxPlayers >= 2 && guest != start.owner
    ensures Reached(rules, start, ToLoading(start.owner, guest, taken), length) == Going(s)
    ensures Ready(start, s.life) && s.wire == [] && s.connected && Waits(s.client, f)
    ensures f.queuedBytes == 0 && f.nextTurn == |TurnsIn(s.life.records)| + 1 && f.sealedThrough == 1
    ensures f.history == start.history
  {
    var steps := ToSave(start.owner, guest);
    var o: B.StreamStart;
    s := UpToSave(rules, start, guest, length);
    GuestAttaches(rules, start, steps, s, length);
    s, o := GuestIsOffered(rules, start, steps + [ClientSteps(HookAttaches)], s.(client := Greeted), length);
    s, taken := GuestLoads(rules, start, steps + [ClientSteps(HookAttaches)] + [Offers(0, 1)], s, o, length);
    f := F.Begin(o.start);
  }

  /** The guest, with its load unanswered, cannot resume, and the save is still there. */
  lemma UpToCrash<S>(rules: Rules<S>, start: StartRecord, guest: PlayerId, id: nat, length: FrameLength)
    returns (s: System<S>, taken: nat, kept: nat, f: F.FollowerState)
    requires start.base.None? && start.maxPlayers >= 2 && guest != start.owner && id != start.history
    ensures Reached(rules, start, ToCrash(start.owner, guest, taken, kept, id), length) == Going(s)
    ensures Offering(start, s.life) && Waits(s.client, f)
    ensures StreamAfter(s.life.room.game, Asks(s.client, false)) == None
  {
    s, taken, f := UpToLoading(rules, start, guest, length);
    var steps, l := ToLoading(start.owner, guest, taken), s.life;
    kept := |l.records|;
    var r, next := TurnArrives(rules, start, steps, s, f, length);
    f := next;
    s := TurnIsLost(rules, start, steps, s, r, f, id, length);
  }

  /** Whatever the rules, this run ends in a fault over a world nobody ordered, once
      the guest's game has reported its load. */
  lemma HonestRunFails<S>(rules: Rules<S>, start: StartRecord, guest: PlayerId, id: nat, length: FrameLength)
    returns (taken: nat, kept: nat, s: System<S>, locals: seq<PipeStep>)
    requires start.base.None? && start.maxPlayers >= 2 && guest != start.owner && id != start.history
    ensures Reached(rules, start, ToCrash(start.owner, guest, taken, kept, id), length) == Going(s)
    ensures StreamAfter(s.life.room.game, Asks(s.client, false)) == None && OnlyDrains(locals)
    ensures Reached(rules, start, Story(start.owner, guest, taken, kept, id) + Locals(locals), length)
            == BridgeFails(B.NobodyOrdered)
  {
    var f: F.FollowerState, fault: B.BridgeFault;
    s, taken, kept, f := UpToCrash(rules, start, guest, id, length);
    var steps := ToCrash(start.owner, guest, taken, kept, id);
    var t, u := OfferedAgain(rules, start, steps, s, f, length);
    locals, fault := EveryOvertakenRun(rules, start, steps + [Offers(0, 1)], t, Delivers(0, 0, 0), u, length);
  }
}

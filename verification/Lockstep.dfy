/**
The whole system: a room that orders, seals, saves and crashes, a connection
that drops and resumes, and a client from its follower to its game. Whatever the
order of all their steps, the game performs the canonical order and nothing
else.
*/
module Lockstep {
  import opened Protocol
  import opened Sequencer
  import opened Recovery
  import opened Server
  import opened Lifetime
  import opened Pipeline
  import opened Tracks
  import Streams
  import B = Bridge
  import F = Follower
  import P = Playout

  datatype Feed = Opening(stream: B.StreamStart) | Frame(turn: Turn)

  /** `wire` is what the room sent on the client's stream and the client has not
      yet read. */
  datatype System<S> = System(life: Life<S>, client: Pipe, wire: seq<Feed>, connected: bool)

  datatype SystemStep =
    | RoomSteps(life: LifeStep)
    | Drops(left: nat)
    | Rejoins(afresh: bool, stepsPerSecond: nat)
    | Offers(save: nat, stepsPerSecond: nat)
    | Delivers(now: nat, margin: nat, memory: nat)
    | ClientSteps(local: PipeStep)

  datatype Outcome<S> =
    | Idle
    | BridgeFails(fault: B.BridgeFault)
    | GateFails(nextStep: nat)
    | Going(system: System<S>)

  function Frames(turns: seq<Turn>): seq<Feed> {
    seq(|turns|, i requires 0 <= i < |turns| => Frame(turns[i]))
  }

  /** A connection that breaks loses what is on it from some message on. */
  function Dropped<S>(s: System<S>, left: nat): System<S> {
    s.(wire := if left < |s.wire| then s.wire[..left] else s.wire, connected := false)
  }

  /** A room that crashed has no connections; one that seals sends what it seals. */
  function RoomTakes<S>(rules: Rules<S>, start: StartRecord, s: System<S>, step: LifeStep, length: FrameLength)
    : Outcome<S>
  {
    match Live(rules, start, s.life, step, length)
    case None => Idle
    case Some(life) =>
      if step.Crash? then Going(s.(life := life, connected := false))
      else
        var before, after := TurnsIn(s.life.records), TurnsIn(life.records);
        var sealed := if |before| <= |after| then after[|before|..] else [];
        Going(s.(life := life, wire := if s.connected then s.wire + Frames(sealed) else s.wire))
  }

  /** A new stream takes the place of the one before. */
  function Feeds<S>(s: System<S>, stream: Option<Stream>, offer: Option<nat>, stepsPerSecond: nat): Outcome<S> {
    match stream
    case None => Idle
    case Some(Stream(at, backlog)) =>
      var start := F.TurnStart(at, CurrentHistory(s.life.room.game));
      Going(s.(wire := [Opening(B.StreamStart(start, offer, stepsPerSecond))] + Frames(backlog), connected := true))
  }

  /** Where a client asks to go on. It may ask afresh, as it does once the room could
      not resume it. */
  function Asks(client: Pipe, afresh: bool): Option<F.Resume> {
    if afresh then None else B.ResumePoint(client.bridge)
  }

  /** A member is sent a save the room holds, and the stream after it. */
  function Offering<S>(s: System<S>, save: nat, rate: nat): Outcome<S> {
    if save >= |s.life.points| then Idle
    else Feeds(s, StreamFromSave(s.life.room.game, s.life.points[save]), Some(save), rate)
  }

  function Took<S>(s: System<S>, taken: Stepped, wire: seq<Feed>): Outcome<S> {
    match taken
    case Disabled => Idle
    case BridgeBroke(fault) => BridgeFails(fault)
    case GateBroke(_) => GateFails(s.client.hook.gate.nextStep)
    case On(client) => Going(s.(client := client, wire := wire))
  }

  function Receives<S>(s: System<S>, now: nat, margin: nat, memory: nat): Outcome<S> {
    if s.wire == [] then Idle
    else
      match s.wire[0]
      case Opening(stream) => Took(s, TakeStream(s.client, stream, margin, memory), s.wire[1..])
      case Frame(turn) => Took(s, TakeTurn(s.client, turn, now), s.wire[1..])
  }

  function Stepping<S>(s: System<S>, step: PipeStep): Outcome<S> {
    if step.StreamArrives? || step.TurnArrives? then Idle else Took(s, Take(s.client, step), s.wire)
  }

  function Next<S>(rules: Rules<S>, start: StartRecord, s: System<S>, step: SystemStep,
                   length: FrameLength): Outcome<S> {
    match step
    case RoomSteps(life) => RoomTakes(rules, start, s, life, length)
    case Drops(left) => Going(Dropped(s, left))
    case Rejoins(afresh, rate) => Feeds(s, StreamAfter(s.life.room.game, Asks(s.client, afresh)), None, rate)
    case Offers(save, rate) => Offering(s, save, rate)
    case Delivers(now, margin, memory) => Receives(s, now, margin, memory)
    case ClientSteps(local) => Stepping(s, local)
  }

  // ----- what every run keeps

  /** The world started where `line` stood after some turn, and took the turns that
      follow. */
  predicate OnLine(w: World, line: seq<Turn>) {
    && 1 <= w.at.turn && w.at.turn - 1 + |w.taken| <= |line|
    && w.at == Run(Origin, line[..w.at.turn - 1])
    && forall i | 0 <= i < |w.taken| :: w.taken[i] == line[w.at.turn - 1 + i]
  }

  predicate On(w: World, lines: map<nat, seq<Turn>>, h: nat) {
    h in lines && OnLine(w, lines[h])
  }

  ghost predicate OnSome(w: World, lines: map<nat, seq<Turn>>) {
    exists h :: On(w, lines, h)
  }

  ghost predicate AllOn(worlds: seq<World>, lines: map<nat, seq<Turn>>) {
    forall i | 0 <= i < |worlds| :: OnSome(worlds[i], lines)
  }

  /** `frames` are the turns of history `h` after its `n`th; all of them, and of the
      current history, for a client that is connected. */
  predicate Riding(lines: map<nat, seq<Turn>>, h: nat, n: int, frames: seq<Feed>, connected: bool, current: nat) {
    && h in lines && 0 <= n && n + |frames| <= |lines[h]|
    && (forall i | 0 <= i < |frames| :: frames[i] == Frame(lines[h][n + i]))
    && (connected ==> h == current && n + |frames| == |lines[h]|)
  }

  predicate FollowerOn(client: Pipe, lines: map<nat, seq<Turn>>) {
    client.bridge.follower.Some?
    ==> var h := client.bridge.follower.value.history;
        h in lines && OnLine(client.stream, lines[h])
  }

  /** Every world the client knows is one the room's log led to. */
  ghost predicate ClientOn(client: Pipe, lines: map<nat, seq<Turn>>) {
    && AllOn(client.worlds, lines) && OnSome(client.playing, lines) && OnSome(client.stream, lines)
    && FollowerOn(client, lines)
  }

  /** The stream on the wire starts where its history stood, and either continues
      what the client follows or starts over. */
  predicate OpeningOk(client: Pipe, stream: B.StreamStart, lines: map<nat, seq<Turn>>) {
    var start, f := stream.start, client.bridge.follower;
    && start.history in lines && OnLine(World(start.at, [], None), lines[start.history])
    && (!stream.Offered() && f.Some?
        ==> if F.At(f.value) == start.at then OnLine(client.stream, lines[start.history]) else start.at == Origin)
  }

  /** What the wire carries continues what the client has. */
  predicate Connection(client: Pipe, lines: map<nat, seq<Turn>>, wire: seq<Feed>, connected: bool, current: nat) {
    if wire != [] && wire[0].Opening? then
      var start := wire[0].stream.start;
      && OpeningOk(client, wire[0].stream, lines)
      && Riding(lines, start.history, start.at.turn - 1, wire[1..], connected, current)
    else if client.bridge.follower.Some? then
      var f := client.bridge.follower.value;
      Riding(lines, f.history, f.nextTurn - 1, wire, connected, current)
    else
      wire == [] && !connected
  }

  /** The client is sound, in worlds of the room's, and its wire goes on from there. */
  ghost predicate ClientInv(client: Pipe, lines: map<nat, seq<Turn>>, wire: seq<Feed>, connected: bool, current: nat) {
    Inv(client) && ClientOn(client, lines) && Connection(client, lines, wire, connected, current)
  }

  ghost predicate SystemInv<S>(rules: Rules<S>, start: StartRecord, s: System<S>, length: FrameLength) {
    && LifeInv(rules, start, s.life, length)
    && ClientInv(s.client, s.life.lines, s.wire, s.connected, CurrentHistory(s.life.room.game))
  }

  // ----- lines only grow

  predicate GrowsAt(lines: map<nat, seq<Turn>>, more: map<nat, seq<Turn>>, h: nat) {
    h in lines ==> h in more && lines[h] <= more[h]
  }

  ghost predicate Grows(lines: map<nat, seq<Turn>>, more: map<nat, seq<Turn>>) {
    forall h :: GrowsAt(lines, more, h)
  }

  lemma OnLineGrows(w: World, line: seq<Turn>, more: seq<Turn>)
    requires OnLine(w, line) && line <= more
    ensures OnLine(w, more)
  {
    assert more[..w.at.turn - 1] == line[..w.at.turn - 1];
  }

  lemma OnSomeGrows(w: World, lines: map<nat, seq<Turn>>, more: map<nat, seq<Turn>>)
    requires OnSome(w, lines) && Grows(lines, more)
    ensures OnSome(w, more)
  {
    var h :| On(w, lines, h);
    assert GrowsAt(lines, more, h);
    OnLineGrows(w, lines[h], more[h]);
    assert On(w, more, h);
  }

  lemma RidingGrows(lines: map<nat, seq<Turn>>, more: map<nat, seq<Turn>>, h: nat, n: int, frames: seq<Feed>,
                    connected: bool, current: nat, now: nat)
    requires Riding(lines, h, n, frames, connected, current) && Grows(lines, more)
    ensures Riding(more, h, n, frames, false, now)
  {
    assert GrowsAt(lines, more, h);
  }

  lemma WorldsStay(client: Pipe, lines: map<nat, seq<Turn>>, more: map<nat, seq<Turn>>)
    requires Grows(lines, more) && ClientOn(client, lines)
    ensures ClientOn(client, more)
  {
    forall i | 0 <= i < |client.worlds| ensures OnSome(client.worlds[i], more) {
      OnSomeGrows(client.worlds[i], lines, more);
    }
    OnSomeGrows(client.playing, lines, more);
    OnSomeGrows(client.stream, lines, more);
    var f := client.bridge.follower;
    if f.Some? {
      assert GrowsAt(lines, more, f.value.history);
      OnLineGrows(client.stream, lines[f.value.history], more[f.value.history]);
    }
  }

  lemma OpeningStays(client: Pipe, stream: B.StreamStart, lines: map<nat, seq<Turn>>, more: map<nat, seq<Turn>>)
    requires Grows(lines, more) && OpeningOk(client, stream, lines)
    ensures OpeningOk(client, stream, more)
  {
    var h, f := stream.start.history, client.bridge.follower;
    assert GrowsAt(lines, more, h);
    OnLineGrows(World(stream.start.at, [], None), lines[h], more[h]);
    if !stream.Offered() && f.Some? && F.At(f.value) == stream.start.at {
      OnLineGrows(client.stream, lines[h], more[h]);
    }
  }

  lemma OpenedStays(client: Pipe, lines: map<nat, seq<Turn>>, more: map<nat, seq<Turn>>, wire: seq<Feed>,
                    connected: bool, current: nat, now: nat)
    requires Grows(lines, more) && wire != [] && wire[0].Opening?
    requires Connection(client, lines, wire, connected, current)
    ensures Connection(client, more, wire, false, now)
  {
    var start := wire[0].stream.start;
    OpeningStays(client, wire[0].stream, lines, more);
    RidingGrows(lines, more, start.history, start.at.turn - 1, wire[1..], connected, current, now);
  }

  /** A room that goes on while nobody is sent anything keeps what was sent. */
  lemma ConnectionStays(client: Pipe, lines: map<nat, seq<Turn>>, more: map<nat, seq<Turn>>, wire: seq<Feed>,
                        connected: bool, current: nat, now: nat)
    requires Grows(lines, more) && Connection(client, lines, wire, connected, current)
    ensures Connection(client, more, wire, false, now)
  {
    var f := client.bridge.follower;
    if wire != [] && wire[0].Opening? {
      OpenedStays(client, lines, more, wire, connected, current, now);
    } else if f.Some? {
      RidingGrows(lines, more, f.value.history, f.value.nextTurn - 1, wire, connected, current, now);
    }
  }

  /** What a room seals goes to whoever is connected. */
  lemma RidingSealed(lines: map<nat, seq<Turn>>, h: nat, n: int, frames: seq<Feed>, line: seq<Turn>)
    requires Riding(lines, h, n, frames, true, h) && lines[h] <= line
    ensures Riding(lines[h := line], h, n, frames + Frames(line[|lines[h]|..]), true, h)
  {
    var sealed := line[|lines[h]|..];
    assert forall i | 0 <= i < |sealed| :: sealed[i] == line[|lines[h]| + i];
  }

  lemma ConnectionSealed(client: Pipe, lines: map<nat, seq<Turn>>, wire: seq<Feed>, h: nat, line: seq<Turn>)
    requires Connection(client, lines, wire, true, h) && h in lines && lines[h] <= line
    requires Connection(client, lines[h := line], wire, false, h)
    ensures Connection(client, lines[h := line], wire + Frames(line[|lines[h]|..]), true, h)
  {
    var more := wire + Frames(line[|lines[h]|..]);
    if wire != [] && wire[0].Opening? {
      var start := wire[0].stream.start;
      RidingSealed(lines, h, start.at.turn - 1, wire[1..], line);
      assert more[0] == wire[0] && more[1..] == wire[1..] + Frames(line[|lines[h]|..]);
    } else {
      RidingSealed(lines, h, client.bridge.follower.value.nextTurn - 1, wire, line);
      assert more != [] ==> more[0].Frame?;
    }
  }

  /** The log grew, in its current history alone. */
  predicate GrewOn<S>(l: Life<S>, m: Life<S>) {
    && TurnsIn(l.records) <= TurnsIn(m.records)
    && CurrentHistory(m.room.game) == CurrentHistory(l.room.game)
    && m.lines == l.lines[CurrentHistory(l.room.game) := TurnsIn(m.records)]
  }

  lemma SealGrows<S>(rules: Rules<S>, start: StartRecord, l: Life<S>, frontier: nat, length: FrameLength)
    requires LifeInv(rules, start, l, length) && l.room.game.sealedThrough <= frontier <= MAX_FRONTIER
    ensures GrewOn(l, SealUp(l, frontier, length))
  {
    SealImage(rules, start, l, frontier, length);
    SealsLog(start.history, l.records, Published(l.room.game, frontier));
  }

  lemma SaveGrows<S>(rules: Rules<S>, start: StartRecord, l: Life<S>, length: FrameLength)
    requires LifeInv(rules, start, l, length)
    ensures GrewOn(l, SaveUp(rules, l, length))
  {
    var ordered := l.(room := Ordering(rules, l.room, Save));
    OrderKeeps(rules, start, l, Save, length);
    SealGrows(rules, start, ordered, l.room.game.sealedThrough, length);
  }

  lemma QuietGrows<S>(rules: Rules<S>, start: StartRecord, l: Life<S>, m: Life<S>, length: FrameLength)
    requires LifeInv(rules, start, l, length)
    requires m.records == l.records && m.lines == l.lines && m.room.game.histories == l.room.game.histories
    ensures GrewOn(l, m)
  {
    assert l.lines[CurrentHistory(l.room.game)] == TurnsIn(l.records);
    assert l.lines == l.lines[CurrentHistory(l.room.game) := TurnsIn(l.records)];
  }

  lemma GrewGrows<S>(rules: Rules<S>, start: StartRecord, l: Life<S>, m: Life<S>, length: FrameLength)
    requires LifeInv(rules, start, l, length) && GrewOn(l, m)
    ensures Grows(l.lines, m.lines)
  {
    assert l.lines[CurrentHistory(l.room.game)] == TurnsIn(l.records);
  }

  /** What a step does to the log and its lines. */
  lemma LogGrows<S>(rules: Rules<S>, start: StartRecord, l: Life<S>, step: LifeStep, length: FrameLength)
    requires LifeInv(rules, start, l, length) && Live(rules, start, l, step, length).Some?
    ensures Grows(l.lines, Live(rules, start, l, step, length).value.lines)
    ensures !step.Crash? ==> GrewOn(l, Live(rules, start, l, step, length).value)
  {
    var m := Live(rules, start, l, step, length).value;
    if step.Crash? {
      assert m.lines == l.lines[step.id := m.lines[step.id]];
    } else {
      match step {
        case SealTo(frontier) => SealGrows(rules, start, l, frontier, length);
        case SealASave => SaveGrows(rules, start, l, length);
        case _ => QuietGrows(rules, start, l, m, length);
      }
      GrewGrows(rules, start, l, m, length);
    }
  }

  lemma RoomKeeps<S>(rules: Rules<S>, start: StartRecord, s: System<S>, step: LifeStep, length: FrameLength)
    requires SystemInv(rules, start, s, length) && RoomTakes(rules, start, s, step, length).Going?
    ensures SystemInv(rules, start, RoomTakes(rules, start, s, step, length).system, length)
  {
    var l, m := s.life, Live(rules, start, s.life, step, length).value;
    var h := CurrentHistory(l.room.game);
    LiveKeeps(rules, start, l, step, length);
    LogGrows(rules, start, l, step, length);
    WorldsStay(s.client, l.lines, m.lines);
    ConnectionStays(s.client, l.lines, m.lines, s.wire, s.connected, h, CurrentHistory(m.room.game));
    if !step.Crash? && s.connected {
      ConnectionSealed(s.client, l.lines, s.wire, h, TurnsIn(m.records));
    }
  }

  // ----- connections

  lemma RidingCut(lines: map<nat, seq<Turn>>, h: nat, n: int, frames: seq<Feed>, connected: bool, current: nat,
                  left: nat)
    requires Riding(lines, h, n, frames, connected, current) && left <= |frames|
    ensures Riding(lines, h, n, frames[..left], false, current)
  {
  }

  /** The follower stands after the turns its stream carried. */
  predicate Stands(client: Pipe) {
    client.bridge.follower.Some?
    ==> F.At(client.bridge.follower.value) == Run(client.stream.at, client.stream.taken)
  }

  lemma InvStands(client: Pipe)
    requires Inv(client)
    ensures Stands(client)
  {
  }

  /** The follower stands where its history stood after the turns it took. */
  lemma Following(client: Pipe, lines: map<nat, seq<Turn>>)
    requires Stands(client) && FollowerOn(client, lines) && client.bridge.follower.Some?
    ensures var f := client.bridge.follower.value;
            var line, n := lines[f.history], f.nextTurn - 1;
            && 0 <= n <= |line| && F.At(f) == Run(Origin, line[..n])
            && n == client.stream.at.turn - 1 + |client.stream.taken|
  {
    var w, f := client.stream, client.bridge.follower.value;
    var line, k := lines[f.history], w.at.turn - 1;
    Streams.RunEvents(w.at, w.taken);
    assert line[..k + |w.taken|] == line[..k] + w.taken;
    RunAppend(Origin, line[..k], w.taken);
  }

  lemma DropKeeps(client: Pipe, lines: map<nat, seq<Turn>>, wire: seq<Feed>, connected: bool, current: nat, left: nat)
    requires Stands(client) && FollowerOn(client, lines) && left <= |wire|
    requires Connection(client, lines, wire, connected, current)
    ensures Connection(client, lines, wire[..left], false, current)
  {
    var f, cut := client.bridge.follower, wire[..left];
    if wire != [] && wire[0].Opening? {
      var o := wire[0].stream.start;
      if left == 0 {
        if f.Some? { Following(client, lines); }
      } else {
        RidingCut(lines, o.history, o.at.turn - 1, wire[1..], connected, current, left - 1);
        assert cut[1..] == wire[1..][..left - 1];
      }
    } else if f.Some? {
      RidingCut(lines, f.value.history, f.value.nextTurn - 1, wire, connected, current, left);
    }
  }

  /** A stream that starts after the `n`th turn of the log rides its history. */
  lemma FeedConnects(client: Pipe, lines: map<nat, seq<Turn>>, h: nat, turns: seq<Turn>, n: nat, opening: B.StreamStart)
    requires h in lines && lines[h] == turns && n <= |turns|
    requires opening.start == F.TurnStart(Run(Origin, turns[..n]), h)
    requires var f := client.bridge.follower;
             !opening.Offered() && f.Some?
             ==> if F.At(f.value) == opening.start.at then OnLine(client.stream, turns) else opening.start.at == Origin
    ensures Connection(client, lines, [Opening(opening)] + Frames(turns[n..]), true, h)
  {
    var at, wire := Run(Origin, turns[..n]), [Opening(opening)] + Frames(turns[n..]);
    Streams.RunEvents(Origin, turns[..n]);
    assert wire[1..] == Frames(turns[n..]);
    assert OnLine(World(at, [], None), turns);
  }

  lemma HasWindow<S>(rules: Rules<S>, start: StartRecord, l: Life<S>, length: FrameLength)
    requires LifeInv(rules, start, l, length)
    ensures Streams.Window(l.room.game, TurnsIn(l.records))
    ensures l.lines[CurrentHistory(l.room.game)] == TurnsIn(l.records)
    ensures l.room.game.histories == HistoriesIn(start.history, l.records)
  {
    Streams.SealedWindow(l.room.game, TurnsIn(l.records), length);
  }

  lemma OnSame(w: World, line: seq<Turn>, turns: seq<Turn>, n: nat)
    requires OnLine(w, line) && Agree(line, turns, n) && w.at.turn - 1 + |w.taken| <= n
    ensures OnLine(w, turns)
  {
    var k := w.at.turn - 1;
    assert line[..k] == line[..n][..k] && turns[..k] == turns[..n][..k];
    forall i | 0 <= i < |w.taken| ensures w.taken[i] == turns[k + i] {
      assert line[k + i] == line[..n][k + i] && turns[k + i] == turns[..n][k + i];
    }
  }

  /** Where the room lets the client resume, the turns the client took are the
      first turns of the room's log, whatever crashes came between, and the stream
      it is given goes on from there. */
  lemma ResumeSafe(client: Pipe, lines: map<nat, seq<Turn>>, g: GameState, turns: seq<Turn>)
    requires Stands(client) && FollowerOn(client, lines) && client.bridge.follower.Some?
    requires Streams.Window(g, turns) && Lined(lines, g.histories, turns) && lines[Last(g.histories).id] == turns
    requires StreamAfter(g, Some(F.ResumePoint(client.bridge.follower.value))).Some?
    ensures var f := client.bridge.follower.value;
            var n := f.nextTurn - 1;
            && 0 <= n <= |turns|
            && Agree(lines[f.history], turns, n)
            && OnLine(client.stream, turns)
            && F.At(f) == Run(Origin, turns[..n])
            && StreamAfter(g, Some(F.ResumePoint(f))) == Some(Stream(F.At(f), turns[n..]))
  {
    var f := client.bridge.follower.value;
    var line, n := lines[f.history], f.nextTurn - 1;
    Following(client, lines);
    Streams.StreamAfterExactly(g, turns, Some(F.ResumePoint(f)));
    SharedTurns(lines, g.histories, turns, F.ResumePoint(f));
    OnSame(client.stream, line, turns, n);
  }

  /** A client without a world of its own starts over. */
  lemma StartConnects(client: Pipe, lines: map<nat, seq<Turn>>, h: nat, turns: seq<Turn>, rate: nat)
    requires Stands(client) && FollowerOn(client, lines) && h in lines && lines[h] == turns
    ensures Connection(client, lines,
                       [Opening(B.StreamStart(F.TurnStart(Origin, h), None, rate))] + Frames(turns[0..]), true, h)
  {
    var f := client.bridge.follower;
    assert turns[..0] == [];
    if f.Some? && F.At(f.value) == Origin {
      Following(client, lines);
      OnSame(client.stream, lines[f.value.history], turns, 0);
    }
    FeedConnects(client, lines, h, turns, 0, B.StreamStart(F.TurnStart(Origin, h), None, rate));
  }

  lemma ResumedFeed(client: Pipe, lines: map<nat, seq<Turn>>, h: nat, turns: seq<Turn>, n: nat, rate: nat)
    requires client.bridge.follower.Some? && h in lines && lines[h] == turns && n <= |turns|
    requires OnLine(client.stream, turns) && F.At(client.bridge.follower.value) == Run(Origin, turns[..n])
    ensures var at := F.At(client.bridge.follower.value);
            Connection(client, lines, [Opening(B.StreamStart(F.TurnStart(at, h), None, rate))] + Frames(turns[n..]),
                       true, h)
  {
    var at := F.At(client.bridge.follower.value);
    FeedConnects(client, lines, h, turns, n, B.StreamStart(F.TurnStart(at, h), None, rate));
  }

  /** A client that resumes goes on where it stood. */
  lemma ResumeConnects(client: Pipe, lines: map<nat, seq<Turn>>, g: GameState, turns: seq<Turn>, rate: nat,
                       stream: Stream)
    requires Stands(client) && FollowerOn(client, lines) && client.bridge.follower.Some?
    requires Streams.Window(g, turns) && Lined(lines, g.histories, turns) && lines[Last(g.histories).id] == turns
    requires StreamAfter(g, Some(F.ResumePoint(client.bridge.follower.value))) == Some(stream)
    ensures Connection(client, lines,
                       [Opening(B.StreamStart(F.TurnStart(stream.at, CurrentHistory(g)), None, rate))]
                       + Frames(stream.backlog), true, CurrentHistory(g))
  {
    var n := client.bridge.follower.value.nextTurn - 1;
    assert 0 <= n <= |turns| && stream == Stream(F.At(client.bridge.follower.value), turns[n..])
      && OnLine(client.stream, turns) && F.At(client.bridge.follower.value) == Run(Origin, turns[..n]) by {
      ResumeSafe(client, lines, g, turns);
    }
    ResumedFeed(client, lines, CurrentHistory(g), turns, n, rate);
  }

  /** However a client asks to rejoin, what it is sent continues what it has or
      starts over. */
  lemma RejoinConnects(client: Pipe, lines: map<nat, seq<Turn>>, g: GameState, turns: seq<Turn>, afresh: bool,
                       rate: nat)
    requires Stands(client) && FollowerOn(client, lines)
    requires Streams.Window(g, turns) && Lined(lines, g.histories, turns) && lines[Last(g.histories).id] == turns
    requires StreamAfter(g, Asks(client, afresh)).Some?
    ensures var stream := StreamAfter(g, Asks(client, afresh)).value;
            Connection(client, lines,
                       [Opening(B.StreamStart(F.TurnStart(stream.at, CurrentHistory(g)), None, rate))]
                       + Frames(stream.backlog), true, CurrentHistory(g))
  {
    var resume, f, h := Asks(client, afresh), client.bridge.follower, CurrentHistory(g);
    if resume.Some? {
      ResumeConnects(client, lines, g, turns, rate, StreamAfter(g, resume).value);
    } else {
      Streams.StreamAfterExactly(g, turns, None);
      assert turns[..0] == [];
      StartConnects(client, lines, h, turns, rate);
    }
  }

  /** Where the room lets a save be continued, even after crashes, the save's stream
      starts right after the save event, with the turns after it. */
  lemma SaveSafe(lines: map<nat, seq<Turn>>, g: GameState, turns: seq<Turn>, point: SavePoint)
    requires Streams.Window(g, turns) && Lined(lines, g.histories, turns) && lines[Last(g.histories).id] == turns
    requires point.history in lines && Streams.PointAt(point, lines[point.history])
    requires StreamAfter(g, Some(F.Resume(point.afterTurn, point.history))).Some?
    ensures Streams.PointAt(point, turns)
    ensures StreamFromSave(g, point)
            == Some(Stream(Cursor(point.afterTurn + 1, point.event + 1, point.sealedThrough), turns[point.afterTurn..]))
  {
    var resume := F.Resume(point.afterTurn, point.history);
    Streams.StreamAfterExactly(g, turns, Some(resume));
    SharedTurns(lines, g.histories, turns, resume);
    Streams.PointStays(point, lines[point.history], turns);
    Streams.SaveStream(g, turns, point);
  }

  lemma OfferConnects(client: Pipe, lines: map<nat, seq<Turn>>, g: GameState, turns: seq<Turn>, point: SavePoint,
                      save: nat, rate: nat)
    requires Streams.Window(g, turns) && Lined(lines, g.histories, turns) && lines[Last(g.histories).id] == turns
    requires point.history in lines && Streams.PointAt(point, lines[point.history])
    requires StreamFromSave(g, point).Some?
    ensures var stream := StreamFromSave(g, point).value;
            Connection(client, lines,
                       [Opening(B.StreamStart(F.TurnStart(stream.at, CurrentHistory(g)), Some(save), rate))]
                       + Frames(stream.backlog), true, CurrentHistory(g))
  {
    SaveSafe(lines, g, turns, point);
    FeedConnects(client, lines, CurrentHistory(g), turns, point.afterTurn,
                 B.StreamStart(F.TurnStart(StreamFromSave(g, point).value.at, CurrentHistory(g)), Some(save), rate));
  }

  // ----- delivery

  /** The client follows a stream from its start. */
  ghost predicate TookUp(q: Pipe, o: B.StreamStart, lines: map<nat, seq<Turn>>) {
    && ClientOn(q, lines) && q.bridge.follower.Some?
    && q.bridge.follower.value.history == o.start.history && q.bridge.follower.value.nextTurn == o.start.at.turn
  }

  lemma StartsOver(p: Pipe, q: Pipe, o: B.StreamStart, lines: map<nat, seq<Turn>>)
    requires ClientOn(p, lines) && OpeningOk(p, o, lines)
    requires q.stream == World(o.start.at, [], o.offer) && q.playing == p.playing
    requires q.bridge.follower == Some(F.Begin(o.start))
    requires forall i | 0 <= i < |q.worlds| :: q.worlds[i] == q.stream || q.worlds[i] in p.worlds
    ensures TookUp(q, o, lines)
  {
    assert On(q.stream, lines, o.start.history);
  }

  /** A client is never refused the stream it was opened. */
  lemma OpeningArrives(p: Pipe, o: B.StreamStart, margin: nat, memory: nat, lines: map<nat, seq<Turn>>)
    requires ClientOn(p, lines) && OpeningOk(p, o, lines)
    ensures TakeStream(p, o, margin, memory).On? && TookUp(TakeStream(p, o, margin, memory).pipe, o, lines)
  {
    var f := p.bridge.follower;
    if !o.Offered() && f.Some? { F.ContinuesExactly(f.value, o.start); }
    var q := TakeStream(p, o, margin, memory).pipe;
    if !o.Offered() && f.Some? && F.At(f.value) == o.start.at {
      assert q == p.(bridge := q.bridge) && q.bridge.follower == Some(f.value.(history := o.start.history));
    } else {
      StartsOver(p, q, o, lines);
    }
  }

  /** The turn a client expects is refused for want of room alone. */
  lemma {:induction false} ExpectedTurn(f: F.FollowerState, line: seq<Turn>)
    requires Chain(Origin, line) && 1 <= f.nextTurn <= |line| && F.At(f) == Run(Origin, line[..f.nextTurn - 1])
    ensures Fits(F.At(f), line[f.nextTurn - 1])
  {
    ChainAt(Origin, line, f.nextTurn - 1);
  }

  lemma RefusedForRoom(f: F.FollowerState, turn: Turn)
    requires Fits(F.At(f), turn) && F.Accepting(f, turn).Err?
    ensures F.Accepting(f, turn).error.Overflow? || F.Accepting(f, turn).error.Backlog?
  {
    if F.CheckEvents(turn.events, f.nextEvent, f.sealedThrough + 1).Err? {
      InRangeErrs(turn.events, f.nextEvent, f.sealedThrough + 1);
    }
  }

  lemma {:induction false} InRangeErrs(events: seq<Event>, expected: nat, step: nat)
    requires Numbered(events, expected, step) && F.CheckEvents(events, expected, step).Err?
    ensures F.CheckEvents(events, expected, step).error.Overflow?
  {
    if expected < U64_MAX {
      assert Numbered(events[1..], expected + 1, step) by {
        forall i | 0 <= i < |events[1..]|
          ensures events[1..][i].seqNo == expected + 1 + i && events[1..][i].step == step
        {
          assert events[1..][i] == events[i + 1];
        }
      }
      InRangeErrs(events[1..], expected + 1, step);
    }
  }

  lemma OnLineGrown(w: World, line: seq<Turn>)
    requires OnLine(w, line) && w.at.turn - 1 + |w.taken| < |line|
    ensures OnLine(Grown(w, line[w.at.turn - 1 + |w.taken|]), line)
  {
  }

  /** Outside a fetch the stream is for the last world on the way. */
  predicate StreamLast(p: Pipe) {
    p.bridge.follower.Some? && !p.bridge.world.Fetching? ==> p.worlds != [] && Last(p.worlds) == p.stream
  }

  lemma CarryOn(p: Pipe, turn: Turn, lines: map<nat, seq<Turn>>, h: nat)
    requires ClientOn(p, lines) && StreamLast(p) && p.bridge.follower.Some?
    requires h in lines && OnLine(Grown(p.stream, turn), lines[h])
    ensures AllOn(Carry(p, turn).worlds, lines) && OnSome(Carry(p, turn).playing, lines)
    ensures OnSome(Carry(p, turn).stream, lines)
    ensures Carry(p, turn).stream == Grown(p.stream, turn)
  {
    assert On(Grown(p.stream, turn), lines, h);
  }

  lemma FrameArrives(p: Pipe, turn: Turn, now: nat, lines: map<nat, seq<Turn>>)
    requires ClientOn(p, lines) && Stands(p) && StreamLast(p) && p.bridge.follower.Some?
    requires var f := p.bridge.follower.value;
             && Chain(Origin, lines[f.history])
             && 1 <= f.nextTurn <= |lines[f.history]| && turn == lines[f.history][f.nextTurn - 1]
    ensures var t := TakeTurn(p, turn, now);
            || (t.BridgeBroke? && t.fault.Follow? && (t.fault.error.Overflow? || t.fault.error.Backlog?))
            || (&& t.On? && ClientOn(t.pipe, lines) && t.pipe.bridge.follower.Some?
                && t.pipe.bridge.follower.value.history == p.bridge.follower.value.history
                && t.pipe.bridge.follower.value.nextTurn == p.bridge.follower.value.nextTurn + 1)
  {
    var f := p.bridge.follower.value;
    var line := lines[f.history];
    Following(p, lines);
    ExpectedTurn(f, line);
    if F.Accepting(f, turn).Err? {
      RefusedForRoom(f, turn);
    } else {
      F.AcceptsExactly(f, turn);
      OnLineGrown(p.stream, line);
      CarryOn(p, turn, lines, f.history);
    }
  }

  // ----- the client's own steps

  /** Playing turns out leaves the follower at the same place of its stream. */
  predicate SamePlace(f: Option<F.FollowerState>, g: Option<F.FollowerState>) {
    && f.Some? == g.Some?
    && (f.Some? ==> F.At(f.value) == F.At(g.value) && f.value.history == g.value.history)
  }

  lemma {:induction false} PumpStands(f: F.FollowerState, p: P.PlayoutState, now: nat, out: seq<Gate.ToHook>,
                                      released: Option<nat>, pace: B.Pacing)
    ensures SamePlace(Some(f), Some(B.Pump(f, p, now, out, released, pace).follower))
    decreases B.Left(f)
  {
    var once := B.PumpOnce(f, p, now, out, released, pace);
    if once.More? {
      assert SamePlace(Some(f), Some(once.follower));
      PumpStands(once.follower, once.playout, now, once.out, once.released, pace);
    }
  }

  /** The client is in the same place, in worlds it knew. */
  predicate Moved(p: Pipe, q: Pipe) {
    && q.stream == p.stream && SamePlace(p.bridge.follower, q.bridge.follower)
    && (forall i | 0 <= i < |q.worlds| :: q.worlds[i] in p.worlds + [p.stream])
    && (q.playing in p.worlds || q.playing == p.playing)
  }

  lemma LocalMoves(p: Pipe, step: PipeStep)
    requires !step.StreamArrives? && !step.TurnArrives? && Take(p, step).On?
    ensures Moved(p, Take(p, step).pipe)
  {
    match step
    case PumpRuns(at, pace) =>
      if !p.bridge.world.Fetching? && p.bridge.follower.Some? && p.bridge.playout.Some? {
        PumpStands(p.bridge.follower.value, p.bridge.playout.value, at, p.bridge.outbox, None, pace);
      }
    case _ =>
  }

  lemma MovedOn(p: Pipe, q: Pipe, lines: map<nat, seq<Turn>>)
    requires ClientOn(p, lines) && Moved(p, q)
    ensures ClientOn(q, lines)
  {
    forall i | 0 <= i < |q.worlds| ensures OnSome(q.worlds[i], lines) {
      assert q.worlds[i] in p.worlds + [p.stream];
    }
  }

  lemma MovedConnection(p: Pipe, q: Pipe, lines: map<nat, seq<Turn>>, wire: seq<Feed>, connected: bool, current: nat)
    requires Connection(p, lines, wire, connected, current)
    requires q.stream == p.stream && SamePlace(p.bridge.follower, q.bridge.follower)
    ensures Connection(q, lines, wire, connected, current)
  {
  }

  // ----- every step

  lemma InvStreamLast(p: Pipe)
    requires Inv(p)
    ensures StreamLast(p)
  {
  }

  /** The system goes on as it should, or stops only for want of room in the
      follower or its counters, or for a load report that a newer load overtook. */
  ghost predicate Held<S>(rules: Rules<S>, start: StartRecord, next: Outcome<S>, length: FrameLength) {
    match next
    case Going(s) => SystemInv(rules, start, s, length)
    case _ => next.Idle? || MayStop(next)
  }

  /** Why a run may stop. */
  predicate MayStop<S>(o: Outcome<S>) {
    match o
    case BridgeFails(fault) =>
      || (fault.Follow? && (fault.error.Overflow? || fault.error.Backlog?))
      || fault.NobodyOrdered? || fault.LoadedElsewhere?
    case _ => false
  }

  lemma OpeningTaken(p: Pipe, lines: map<nat, seq<Turn>>, wire: seq<Feed>, connected: bool, current: nat, margin: nat,
                     memory: nat)
    requires ClientInv(p, lines, wire, connected, current) && wire != [] && wire[0].Opening?
    ensures TakeStream(p, wire[0].stream, margin, memory).On?
    ensures Fair(p, TakeStream(p, wire[0].stream, margin, memory), lines, wire[1..], connected, current)
  {
    var o := wire[0].stream;
    OpeningArrives(p, o, margin, memory, lines);
    StreamKeeps(p, o, margin, memory);
    RidesOn(TakeStream(p, o, margin, memory).pipe, lines, wire[1..], o.start.history, o.start.at.turn - 1, connected,
            current);
  }

  lemma FrameTaken(p: Pipe, lines: map<nat, seq<Turn>>, wire: seq<Feed>, connected: bool, current: nat, now: nat)
    requires ClientInv(p, lines, wire, connected, current) && wire != [] && wire[0].Frame?
    requires forall h | h in lines :: Chain(Origin, lines[h])
    ensures Fair(p, TakeTurn(p, wire[0].turn, now), lines, wire[1..], connected, current)
  {
    var turn := wire[0].turn;
    InvStands(p);
    InvStreamLast(p);
    FrameExpected(p, lines, wire, connected, current);
    FrameArrives(p, turn, now, lines);
    if TakeTurn(p, turn, now).On? {
      TurnKeeps(p, turn, now);
      RidesOn(TakeTurn(p, turn, now).pipe, lines, wire[1..], p.bridge.follower.value.history,
              p.bridge.follower.value.nextTurn, connected, current);
    }
  }

  /** What the client may come to in a step. */
  ghost predicate Fair(p: Pipe, taken: Stepped, lines: map<nat, seq<Turn>>, wire: seq<Feed>, connected: bool,
                       current: nat)
  {
    match taken
    case Disabled => true
    case On(q) => ClientInv(q, lines, wire, connected, current)
    case GateBroke(_) => false
    case BridgeBroke(fault) =>
      || (fault.Follow? && (fault.error.Overflow? || fault.error.Backlog?))
      || fault.NobodyOrdered? || fault.LoadedElsewhere?
  }

  lemma TookKeeps<S>(rules: Rules<S>, start: StartRecord, s: System<S>, taken: Stepped, wire: seq<Feed>,
                     length: FrameLength)
    requires SystemInv(rules, start, s, length)
    requires Fair(s.client, taken, s.life.lines, wire, s.connected, CurrentHistory(s.life.room.game))
    ensures Held(rules, start, Took(s, taken, wire), length)
  {
  }

  lemma ReceivesKeeps<S>(rules: Rules<S>, start: StartRecord, s: System<S>, now: nat, margin: nat, memory: nat,
                         length: FrameLength)
    requires SystemInv(rules, start, s, length)
    ensures Held(rules, start, Receives(s, now, margin, memory), length)
  {
    if s.wire != [] {
      var lines, current := s.life.lines, CurrentHistory(s.life.room.game);
      if s.wire[0].Opening? {
        OpeningTaken(s.client, lines, s.wire, s.connected, current, margin, memory);
        TookKeeps(rules, start, s, TakeStream(s.client, s.wire[0].stream, margin, memory), s.wire[1..], length);
      } else {
        FrameTaken(s.client, lines, s.wire, s.connected, current, now);
        TookKeeps(rules, start, s, TakeTurn(s.client, s.wire[0].turn, now), s.wire[1..], length);
      }
    }
  }

  lemma RidesOn(q: Pipe, lines: map<nat, seq<Turn>>, wire: seq<Feed>, h: nat, n: int, connected: bool, current: nat)
    requires Riding(lines, h, n, wire, connected, current)
    requires q.bridge.follower.Some? && q.bridge.follower.value.history == h
    requires q.bridge.follower.value.nextTurn == n + 1
    ensures Connection(q, lines, wire, connected, current)
  {
  }

  lemma FrameExpected(p: Pipe, lines: map<nat, seq<Turn>>, wire: seq<Feed>, connected: bool, current: nat)
    requires Connection(p, lines, wire, connected, current) && wire != [] && wire[0].Frame?
    ensures p.bridge.follower.Some?
    ensures var f := p.bridge.follower.value;
            && f.history in lines && 1 <= f.nextTurn <= |lines[f.history]|
            && wire[0].turn == lines[f.history][f.nextTurn - 1]
            && Riding(lines, f.history, f.nextTurn, wire[1..], connected, current)
  {
    var f := p.bridge.follower.value;
    forall i | 0 <= i < |wire[1..]| ensures wire[1..][i] == Frame(lines[f.history][f.nextTurn + i]) {
      assert wire[1..][i] == wire[i + 1];
    }
  }

  lemma LocalFaults(p: Pipe, step: PipeStep)
    requires !step.StreamArrives? && !step.TurnArrives? && Take(p, step).BridgeBroke?
    ensures step.AgentHears? && (Take(p, step).fault.NobodyOrdered? || Take(p, step).fault.LoadedElsewhere?)
  {
  }

  /** Every history is a chain that stays within the frontiers there are. */
  predicate Bounded(lines: map<nat, seq<Turn>>) {
    forall h | h in lines :: Chain(Origin, lines[h]) && Run(Origin, lines[h]).sealed <= MAX_FRONTIER
  }

  lemma {:induction false} ExecutesBelow(at: Cursor, turns: seq<Turn>, i: nat)
    requires Chain(at, turns) && i < |Perform(at, turns)| && Perform(at, turns)[i].Execute?
    ensures Perform(at, turns)[i].step <= Run(at, turns).sealed
    decreases |turns|
  {
    if turns != [] {
      var before, events := Perform(at, Init(turns)), Applies(Last(turns).events);
      if i < |before| {
        ExecutesBelow(at, Init(turns), i);
      } else if i >= |before + events| {
        StepsEnd(Run(at, Init(turns)).sealed, Last(turns).sealedThrough, i - |before + events|);
      }
    }
  }

  lemma {:induction false} StepsEnd(from: nat, through: nat, i: nat)
    requires i < |Steps(from, through)|
    ensures Steps(from, through)[i].Execute? && Steps(from, through)[i].step <= through
    decreases through
  {
    if i < |Steps(from, through - 1)| { StepsEnd(from, through - 1, i); }
  }

  /** What a world performs is below the frontier of the history it is of. */
  lemma {:induction false} DeedsBelow(w: World, line: seq<Turn>, i: nat)
    requires OnLine(w, line) && Chain(Origin, line) && i < |Deeds(w)| && Deeds(w)[i].Execute?
    ensures Deeds(w)[i].step <= Run(Origin, line).sealed
  {
    var n, m := w.at.turn - 1, w.at.turn - 1 + |w.taken|;
    var later := CutAround(line, w.taken, n, m);
    ChainAppend(Origin, line[..m], later);
    ChainAppend(Origin, line[..n], w.taken);
    RunAppend(Origin, line[..n], w.taken);
    RunAppend(Origin, line[..m], later);
    ChainNumbers(Run(Origin, line[..m]), later);
    ExecutesBelow(w.at, w.taken, i);
  }

  /** The game only ever steps below the last frontier there is. */
  lemma StepsBelow(p: Pipe, lines: map<nat, seq<Turn>>)
    requires Inv(p) && ClientOn(p, lines) && Bounded(lines) && !TakeStep(p).Disabled?
    ensures p.hook.gate.nextStep <= MAX_FRONTIER
  {
    var g, done := p.hook.gate, p.hook.world;
    var h :| On(p.playing, lines, h);
    StepsFront(g.nextStep - 1, g.released);
    var tr := HookTrack(p.phase, p.hook);
    assert tr.world[|done|] == Execute(g.nextStep);
    assert tr.world <= Deeds(p.playing);
    DeedsBelow(p.playing, lines[h], |done|);
  }

  lemma LocalTaken(p: Pipe, lines: map<nat, seq<Turn>>, wire: seq<Feed>, connected: bool, current: nat, step: PipeStep)
    requires ClientInv(p, lines, wire, connected, current) && !step.StreamArrives? && !step.TurnArrives?
    requires Bounded(lines)
    ensures Fair(p, Take(p, step), lines, wire, connected, current)
  {
    StepKeepsInv(p, step);
    if step.GameSteps? && !TakeStep(p).Disabled? { StepsBelow(p, lines); }
    if Take(p, step).On? {
      LocalMoves(p, step);
      MovedOn(p, Take(p, step).pipe, lines);
      MovedConnection(p, Take(p, step).pipe, lines, wire, connected, current);
    } else if Take(p, step).BridgeBroke? {
      LocalFaults(p, step);
    }
  }

  lemma SteppingKeeps<S>(rules: Rules<S>, start: StartRecord, s: System<S>, step: PipeStep, length: FrameLength)
    requires SystemInv(rules, start, s, length)
    ensures Held(rules, start, Stepping(s, step), length)
  {
    if !step.StreamArrives? && !step.TurnArrives? {
      LocalTaken(s.client, s.life.lines, s.wire, s.connected, CurrentHistory(s.life.room.game), step);
      TookKeeps(rules, start, s, Take(s.client, step), s.wire, length);
    }
  }

  /** Every step of the system keeps it as it should be. */
  lemma NextKeeps<S>(rules: Rules<S>, start: StartRecord, s: System<S>, step: SystemStep, length: FrameLength)
    requires SystemInv(rules, start, s, length)
    ensures Held(rules, start, Next(rules, start, s, step, length), length)
  {
    if step.RoomSteps? || step.Drops? {
      OwnNext(rules, start, s, step, length);
    } else if step.Rejoins? || step.Offers? {
      FeedNext(rules, start, s, step, length);
    } else {
      ClientNext(rules, start, s, step, length);
    }
  }

  lemma OwnNext<S>(rules: Rules<S>, start: StartRecord, s: System<S>, step: SystemStep, length: FrameLength)
    requires SystemInv(rules, start, s, length) && (step.RoomSteps? || step.Drops?)
    ensures Held(rules, start, Next(rules, start, s, step, length), length)
  {
    if step.Drops? {
      DropNext(rules, start, s, step, length);
    } else {
      RoomNext(rules, start, s, step, length);
    }
  }

  lemma DropNext<S>(rules: Rules<S>, start: StartRecord, s: System<S>, step: SystemStep, length: FrameLength)
    requires SystemInv(rules, start, s, length) && step.Drops?
    ensures Held(rules, start, Next(rules, start, s, step, length), length)
  {
    DropsKeeps(rules, start, s, step.left, length);
  }

  lemma RoomNext<S>(rules: Rules<S>, start: StartRecord, s: System<S>, step: SystemStep, length: FrameLength)
    requires SystemInv(rules, start, s, length) && step.RoomSteps?
    ensures Held(rules, start, Next(rules, start, s, step, length), length)
  {
    var next := RoomTakes(rules, start, s, step.life, length);
    if next.Going? { RoomKeeps(rules, start, s, step.life, length); }
    assert Held(rules, start, next, length);
  }

  lemma FeedNext<S>(rules: Rules<S>, start: StartRecord, s: System<S>, step: SystemStep, length: FrameLength)
    requires SystemInv(rules, start, s, length) && (step.Rejoins? || step.Offers?)
    ensures Held(rules, start, Next(rules, start, s, step, length), length)
  {
    if step.Rejoins? {
      RejoinNext(rules, start, s, step, length);
    } else {
      OfferNext(rules, start, s, step, length);
    }
  }

  lemma RejoinNext<S>(rules: Rules<S>, start: StartRecord, s: System<S>, step: SystemStep, length: FrameLength)
    requires SystemInv(rules, start, s, length) && step.Rejoins?
    ensures Held(rules, start, Next(rules, start, s, step, length), length)
  {
    RejoinsKeeps(rules, start, s, step.afresh, step.stepsPerSecond, length);
  }

  lemma OfferNext<S>(rules: Rules<S>, start: StartRecord, s: System<S>, step: SystemStep, length: FrameLength)
    requires SystemInv(rules, start, s, length) && step.Offers?
    ensures Held(rules, start, Next(rules, start, s, step, length), length)
  {
    OffersKeeps(rules, start, s, step.save, step.stepsPerSecond, length);
  }

  lemma ClientNext<S>(rules: Rules<S>, start: StartRecord, s: System<S>, step: SystemStep, length: FrameLength)
    requires SystemInv(rules, start, s, length) && (step.Delivers? || step.ClientSteps?)
    ensures Held(rules, start, Next(rules, start, s, step, length), length)
  {
    if step.Delivers? {
      ReceivesKeeps(rules, start, s, step.now, step.margin, step.memory, length);
    } else {
      SteppingKeeps(rules, start, s, step.local, length);
    }
  }

  lemma DropsKeeps<S>(rules: Rules<S>, start: StartRecord, s: System<S>, left: nat, length: FrameLength)
    requires SystemInv(rules, start, s, length)
    ensures SystemInv(rules, start, Dropped(s, left), length)
  {
    var k := if left < |s.wire| then left else |s.wire|;
    InvStands(s.client);
    DropKeeps(s.client, s.life.lines, s.wire, s.connected, CurrentHistory(s.life.room.game), k);
    assert s.wire[..|s.wire|] == s.wire;
  }

  lemma RejoinsKeeps<S>(rules: Rules<S>, start: StartRecord, s: System<S>, afresh: bool, rate: nat,
                        length: FrameLength)
    requires SystemInv(rules, start, s, length)
    ensures Held(rules, start, Feeds(s, StreamAfter(s.life.room.game, Asks(s.client, afresh)), None, rate), length)
  {
    if StreamAfter(s.life.room.game, Asks(s.client, afresh)).Some? {
      InvStands(s.client);
      HasWindow(rules, start, s.life, length);
      RejoinConnects(s.client, s.life.lines, s.life.room.game, TurnsIn(s.life.records), afresh, rate);
    }
  }

  lemma OffersKeeps<S>(rules: Rules<S>, start: StartRecord, s: System<S>, save: nat, rate: nat, length: FrameLength)
    requires SystemInv(rules, start, s, length)
    ensures Held(rules, start, Offering(s, save, rate), length)
  {
    if save < |s.life.points| { SaveKeeps(rules, start, s, s.life.points[save], save, rate, length); }
  }

  lemma SaveKeeps<S>(rules: Rules<S>, start: StartRecord, s: System<S>, point: SavePoint, save: nat, rate: nat,
                     length: FrameLength)
    requires SystemInv(rules, start, s, length)
    requires point.history in s.life.lines && Streams.PointAt(point, s.life.lines[point.history])
    ensures Held(rules, start, Feeds(s, StreamFromSave(s.life.room.game, point), Some(save), rate), length)
  {
    var g := s.life.room.game;
    if StreamFromSave(g, point).Some? {
      HasWindow(rules, start, s.life, length);
      OfferConnects(s.client, s.life.lines, g, TurnsIn(s.life.records), point, save, rate);
    }
  }

  // ----- every run

  function Beginning<S>(rules: Rules<S>, start: StartRecord): System<S> {
    System(Birth(rules, start), Attaching, [], false)
  }

  /** The system after `steps`; steps that cannot happen change nothing. */
  function Reached<S>(rules: Rules<S>, start: StartRecord, steps: seq<SystemStep>, length: FrameLength): Outcome<S>
    decreases |steps|
  {
    if steps == [] then Going(Beginning(rules, start))
    else
      match Reached(rules, start, Init(steps), length)
      case Going(s) =>
        var next := Next(rules, start, s, Last(steps), length);
        if next.Idle? then Going(s) else next
      case stopped => stopped
  }

  /** After every run the system is as it should be, and it never stops but for
      want of room or an overtaken load. */
  lemma {:induction false} EveryRun<S>(rules: Rules<S>, start: StartRecord, steps: seq<SystemStep>, length: FrameLength)
    requires start.base.None?
    ensures match Reached(rules, start, steps, length)
            case Going(s) => SystemInv(rules, start, s, length)
            case stopped => MayStop(stopped)
    decreases |steps|
  {
    if steps == [] {
      BirthKeeps(rules, start, length);
      AttachingInv();
      var line: seq<Turn> := [];
      assert OnLine(NoWorld, line);
      assert On(NoWorld, Birth(rules, start).lines, start.history);
    } else {
      EveryRun(rules, start, Init(steps), length);
      var before := Reached(rules, start, Init(steps), length);
      if before.Going? { NextKeeps(rules, start, before.system, Last(steps), length); }
    }
  }

  /** In every state of every run: what the game has done in the world it is in,
      after what that world was saved with, is a prefix of the canonical order of
      the room's log as of some history the room had. */
  lemma GameIsCanonical<S>(rules: Rules<S>, start: StartRecord, s: System<S>, length: FrameLength)
    returns (h: nat, n: nat)
    requires SystemInv(rules, start, s, length)
    ensures h in s.life.lines && n <= |s.life.lines[h]|
    ensures var line := s.life.lines[h];
            var canonical := Canon(EventsOf(line), 0, Run(Origin, line).sealed);
            && s.client.playing.at == Run(Origin, line[..n])
            && Perform(Origin, line[..n]) + s.client.hook.world <= canonical
  {
    var w := s.client.playing;
    h :| On(w, s.life.lines, h);
    n := w.at.turn - 1;
    PrefixOfCanon(w, s.life.lines[h], s.client.hook.world);
  }

  /** The game's world was saved after `n` turns of history `h`, and what it did
      before and since is the beginning of that history's canonical order. */
  predicate PlaysCanonically<S>(s: System<S>, h: nat, n: nat) {
    && h in s.life.lines && n <= |s.life.lines[h]|
    && var line := s.life.lines[h];
       && s.client.playing.at == Run(Origin, line[..n])
       && Perform(Origin, line[..n]) + s.client.hook.world <= Canon(EventsOf(line), 0, Run(Origin, line).sealed)
  }

  /** Lockstep, for every run: whatever is ordered, sealed, saved, lost and sent,
      and whenever anything runs, the game plays canonically. */
  lemma {:induction false} EveryRunIsCanonical<S>(rules: Rules<S>, start: StartRecord, steps: seq<SystemStep>,
                                                  length: FrameLength)
    requires start.base.None? && Reached(rules, start, steps, length).Going?
    ensures var s := Reached(rules, start, steps, length).system; exists h, n :: PlaysCanonically(s, h, n)
  {
    EveryRun(rules, start, steps, length);
    var s := Reached(rules, start, steps, length).system;
    var h, n := GameIsCanonical(rules, start, s, length);
    assert PlaysCanonically(s, h, n);
  }

  /** Where the client may resume, it stands after the first turns of the log, has
      taken just those, and is sent the rest. */
  predicate ResumesRight(client: Pipe, f: F.FollowerState, g: GameState, turns: seq<Turn>) {
    var n := f.nextTurn - 1;
    StreamAfter(g, Some(F.ResumePoint(f))).Some?
    ==> && 0 <= n <= |turns| && OnLine(client.stream, turns) && F.At(f) == Run(Origin, turns[..n])
        && client.stream.at.turn - 1 + |client.stream.taken| == n
        && StreamAfter(g, Some(F.ResumePoint(f))) == Some(Stream(F.At(f), turns[n..]))
  }

  lemma Resumed(client: Pipe, lines: map<nat, seq<Turn>>, g: GameState, turns: seq<Turn>)
    requires Stands(client) && FollowerOn(client, lines) && client.bridge.follower.Some?
    requires Streams.Window(g, turns) && Lined(lines, g.histories, turns) && lines[Last(g.histories).id] == turns
    ensures ResumesRight(client, client.bridge.follower.value, g, turns)
  {
    Following(client, lines);
    if StreamAfter(g, Some(F.ResumePoint(client.bridge.follower.value))).Some? {
      ResumeSafe(client, lines, g, turns);
    }
  }

  /** Resume safety, for every run: however many crashes lost turns whose numbers
      were used again, a client is let on only where it has just the log's turns. */
  lemma {:induction false} EveryRunResumes<S>(rules: Rules<S>, start: StartRecord, steps: seq<SystemStep>,
                                              length: FrameLength)
    requires start.base.None? && Reached(rules, start, steps, length).Going?
    ensures var s := Reached(rules, start, steps, length).system;
            s.client.bridge.follower.Some?
            ==> ResumesRight(s.client, s.client.bridge.follower.value, s.life.room.game, TurnsIn(s.life.records))
  {
    EveryRun(rules, start, steps, length);
    var s := Reached(rules, start, steps, length).system;
    InvStands(s.client);
    HasWindow(rules, start, s.life, length);
    if s.client.bridge.follower.Some? {
      Resumed(s.client, s.life.lines, s.life.room.game, TurnsIn(s.life.records));
    }
  }

  /** The game's world was saved after `n` turns of the room's log, and what it did
      before and since is the canonical order of all of it. */
  predicate CaughtUp<S>(s: System<S>, n: nat) {
    var turns := TurnsIn(s.life.records);
    && n <= |turns| && s.client.playing.at == Run(Origin, turns[..n])
    && Perform(Origin, turns[..n]) + s.client.hook.world == Canon(EventsOf(turns), 0, Run(Origin, turns).sealed)
  }

  lemma {:induction false} AllPlayed(w: World, line: seq<Turn>)
    requires OnLine(w, line) && Chain(Origin, line) && w.at.turn - 1 + |w.taken| == |line|
    ensures Perform(Origin, line[..w.at.turn - 1]) + Deeds(w) == Canon(EventsOf(line), 0, Run(Origin, line).sealed)
  {
    var n := w.at.turn - 1;
    PerformIsCanonical(Origin, line);
    assert line == line[..n] + w.taken;
    PerformAppend(Origin, line[..n], w.taken);
  }

  /** A connected client with nothing on the wire and nothing left to do has played
      the room's whole log. */
  lemma RestIsCaughtUp(client: Pipe, lines: map<nat, seq<Turn>>, h: nat)
    requires ClientInv(client, lines, [], true, h) && Bounded(lines) && AtRest(client)
    ensures h in lines && OnLine(client.playing, lines[h])
    ensures var n := client.playing.at.turn - 1;
            Perform(Origin, lines[h][..n]) + client.hook.world
            == Canon(EventsOf(lines[h]), 0, Run(Origin, lines[h]).sealed)
  {
    RestIsDone(client);
    InvStands(client);
    Following(client, lines);
    AllPlayed(client.stream, lines[h]);
  }

  /** The other half of lockstep, for every run: the game does not only play in order,
      it plays everything, once nothing is left to do. */
  lemma {:induction false} EveryRunCatchesUp<S>(rules: Rules<S>, start: StartRecord, steps: seq<SystemStep>,
                                                s: System<S>, length: FrameLength)
    requires start.base.None? && Reached(rules, start, steps, length) == Going(s)
    requires s.connected && s.wire == [] && AtRest(s.client)
    ensures s.client.playing.at.turn >= 1 && CaughtUp(s, s.client.playing.at.turn - 1)
  {
    EveryRun(rules, start, steps, length);
    CatchesUp(rules, start, s, length);
  }

  lemma CatchesUp<S>(rules: Rules<S>, start: StartRecord, s: System<S>, length: FrameLength)
    requires SystemInv(rules, start, s, length) && s.connected && s.wire == [] && AtRest(s.client)
    ensures s.client.playing.at.turn >= 1 && CaughtUp(s, s.client.playing.at.turn - 1)
  {
    HasWindow(rules, start, s.life, length);
    assert Bounded(s.life.lines);
    CaughtUpOn(s);
  }

  lemma CaughtUpOn<S>(s: System<S>)
    requires ClientInv(s.client, s.life.lines, [], true, CurrentHistory(s.life.room.game)) && AtRest(s.client)
    requires Bounded(s.life.lines) && CurrentHistory(s.life.room.game) in s.life.lines
    requires s.life.lines[CurrentHistory(s.life.room.game)] == TurnsIn(s.life.records)
    ensures s.client.playing.at.turn >= 1 && CaughtUp(s, s.client.playing.at.turn - 1)
  {
    RestIsCaughtUp(s.client, s.life.lines, CurrentHistory(s.life.room.game));
  }

  lemma {:induction false} PrefixOfCanon(w: World, line: seq<Turn>, done: seq<Action>)
    requires OnLine(w, line) && Chain(Origin, line) && done <= Deeds(w)
    ensures Perform(Origin, line[..w.at.turn - 1]) + done <= Canon(EventsOf(line), 0, Run(Origin, line).sealed)
  {
    PerformIsCanonical(Origin, line);
    var rest := CutPerforms(w, line);
    Prefixes(Perform(Origin, line[..w.at.turn - 1]), done, Deeds(w), rest);
  }

  /** What a line performs: up to where a world started, in it, and after it. */
  lemma {:induction false} CutPerforms(w: World, line: seq<Turn>) returns (rest: seq<Action>)
    requires OnLine(w, line)
    ensures Perform(Origin, line) == Perform(Origin, line[..w.at.turn - 1]) + Deeds(w) + rest
  {
    var n, m := w.at.turn - 1, w.at.turn - 1 + |w.taken|;
    var later := CutAround(line, w.taken, n, m);
    PerformAppend(Origin, line[..n], w.taken);
    PerformAppend(Origin, line[..m], later);
    rest := Perform(Run(Origin, line[..m]), later);
  }

  lemma CutAround(line: seq<Turn>, taken: seq<Turn>, n: nat, m: nat) returns (later: seq<Turn>)
    requires m == n + |taken| <= |line| && forall i | 0 <= i < |taken| :: taken[i] == line[n + i]
    ensures line[..m] == line[..n] + taken && line == line[..m] + later
  {
    later := line[m..];
  }

  lemma Prefixes(before: seq<Action>, done: seq<Action>, all: seq<Action>, later: seq<Action>)
    requires done <= all
    ensures before + done <= before + all + later
  {
  }
}

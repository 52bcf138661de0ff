/**
Streams out of the resume window fit whoever asked for them: a follower that
stopped at any turn still in the window continues exactly where it stood, and a
save in the window continues into exactly the turns after it.
*/
module Streams {
  import opened Protocol
  import opened Sequencer
  import opened Sealing
  import F = Follower

  // ----- what the window offers

  /** Each logged turn says where the chain stood before and after it. */
  lemma {:induction false} LoggedAt(at: Cursor, turns: seq<Turn>, length: FrameLength, i: nat)
    requires i < |turns|
    ensures |Logged(at, turns, length)| == |turns|
    ensures var entry := Logged(at, turns, length)[i];
            && entry.turn == turns[i]
            && entry.firstEvent == Run(at, turns[..i]).event
            && entry.sealedThrough == turns[i].sealedThrough == Run(at, turns[..i + 1]).sealed
    decreases |turns|
  {
    if i == |turns| - 1 {
      if i > 0 { LoggedAt(at, Init(turns), length, i - 1); }
      assert turns[..i] == Init(turns) && turns[..i + 1] == turns;
      LoggedLength(at, turns, length);
    } else {
      LoggedAt(at, Init(turns), length, i);
      assert Init(turns)[..i] == turns[..i] && Init(turns)[..i + 1] == turns[..i + 1];
    }
  }

  lemma {:induction false} LoggedLength(at: Cursor, turns: seq<Turn>, length: FrameLength)
    ensures |Logged(at, turns, length)| == |turns|
    decreases |turns|
  {
    if turns != [] { LoggedLength(at, Init(turns), length); }
  }

  lemma {:induction false} RunEvents(at: Cursor, turns: seq<Turn>)
    ensures Run(at, turns).event == at.event + |EventsOf(turns)|
    ensures Run(at, turns).turn == at.turn + |turns|
    decreases |turns|
  {
    if turns != [] { RunEvents(at, Init(turns)); }
  }

  /** The turn a request resumes after. */
  function AfterTurn(resume: Option<F.Resume>): nat {
    if resume.None? then 0 else resume.value.afterTurn
  }

  /** Whether the game still has every turn after the `n`th. */
  predicate InWindow(g: GameState, n: nat) {
    g.logFirstTurn <= n + 1 <= g.nextTurn
  }

  /** The window's `i`th turn is the right one and says where the chain stood
      around it. */
  predicate Slot(g: GameState, all: seq<Turn>, i: nat) {
    var n := g.logFirstTurn + i;
    && i < |g.log| && 1 <= n <= |all| && g.log[i].turn == all[n - 1]
    && g.log[i].firstEvent == Run(Origin, all[..n - 1]).event
    && g.log[i].sealedThrough == Run(Origin, all[..n]).sealed
  }

  /** The number of the first event no sealed turn carries. */
  function FirstPending(g: GameState): nat {
    if g.pending != [] then g.pending[0].seqNo else g.nextEvent
  }

  /** The game has sealed `all`, and its window holds them from `logFirstTurn` on. */
  predicate Window(g: GameState, all: seq<Turn>) {
    && FirstPending(g) == Run(Origin, all).event
    && 1 <= g.logFirstTurn <= g.nextTurn == |all| + 1 && |g.log| == g.nextTurn - g.logFirstTurn
    && (forall i: nat | i < |g.log| :: Slot(g, all, i))
    && g.sealedBeforeLog == Run(Origin, all[..g.logFirstTurn - 1]).sealed
  }

  /** What the window's fields say of the turns it keeps. */
  predicate KeptFrom(g: GameState, all: seq<Turn>, whole: seq<LoggedTurn>) {
    && 1 <= g.logFirstTurn <= |whole| + 1 && |whole| == |all|
    && g.log == From(whole, g.logFirstTurn - 1)
    && g.sealedBeforeLog == SealedBefore(whole, g.logFirstTurn - 1)
  }

  lemma {:induction false} SealedKept(g: GameState, all: seq<Turn>, length: FrameLength)
    requires Sealed(g, all, length)
    ensures KeptFrom(g, all, Logged(Origin, all, length))
    ensures FirstPending(g) == Run(Origin, all).event && g.nextTurn == |all| + 1
  {
    ChainNumbers(Origin, all);
    LoggedLength(Origin, all, length);
  }

  lemma {:induction false} SlotKept(g: GameState, all: seq<Turn>, length: FrameLength, i: nat)
    requires KeptFrom(g, all, Logged(Origin, all, length)) && i < |g.log|
    ensures Slot(g, all, i)
  {
    var k := g.logFirstTurn - 1;
    LoggedAt(Origin, all, length, k + i);
    assert g.log[i] == Logged(Origin, all, length)[k + i];
  }

  lemma {:induction false} SealedBeforeIs(all: seq<Turn>, length: FrameLength, k: nat)
    requires k <= |all| == |Logged(Origin, all, length)|
    ensures SealedBefore(Logged(Origin, all, length), k) == Run(Origin, all[..k]).sealed
  {
    if k > 0 { LoggedAt(Origin, all, length, k - 1); } else { assert all[..0] == []; }
  }

  /** In every state a game reaches, its window says what it should. */
  lemma SealedWindow(g: GameState, all: seq<Turn>, length: FrameLength)
    requires Sealed(g, all, length)
    ensures Window(g, all)
  {
    SealedKept(g, all, length);
    KeptWindow(g, all, length);
  }

  lemma {:induction false} KeptWindow(g: GameState, all: seq<Turn>, length: FrameLength)
    requires KeptFrom(g, all, Logged(Origin, all, length))
    requires FirstPending(g) == Run(Origin, all).event && g.nextTurn == |all| + 1
    ensures Window(g, all)
  {
    forall i: nat | i < |g.log| ensures Slot(g, all, i) { SlotKept(g, all, length, i); }
    SealedBeforeIs(all, length, g.logFirstTurn - 1);
  }

  predicate Served(g: GameState, resume: Option<F.Resume>) {
    InWindow(g, AfterTurn(resume)) && (resume.Some? ==> Shares(g.histories, resume.value))
  }

  lemma WindowFrames(g: GameState, all: seq<Turn>, n: nat)
    requires Window(g, all) && InWindow(g, n)
    ensures Frames(g.log[n + 1 - g.logFirstTurn..]) == all[n..]
  {
    var k := g.logFirstTurn - 1;
    var backlog, rest := g.log[n - k..], all[n..];
    forall i | 0 <= i < |rest| ensures backlog[i].turn == rest[i] {
      assert Slot(g, all, n - k + i);
    }
  }

  lemma StreamAtTurn(g: GameState, all: seq<Turn>, n: nat)
    requires Window(g, all) && InWindow(g, n)
    ensures StreamAt(g, n + 1) == Stream(Run(Origin, all[..n]), all[n..])
  {
    var k := g.logFirstTurn - 1;
    WindowFrames(g, all, n);
    RunEvents(Origin, all[..n]);
    if n < |all| { assert Slot(g, all, n - k); } else { assert all[..n] == all; }
    if n > k { assert Slot(g, all, n - 1 - k); }
  }

  /** A request is served exactly when its history shares the turn and the window
      still holds the rest, and the stream then starts where the chain stands
      after that turn, with exactly the turns after it. */
  lemma StreamAfterExactly(g: GameState, all: seq<Turn>, resume: Option<F.Resume>)
    requires Window(g, all)
    ensures StreamAfter(g, resume)
            == if Served(g, resume) then Some(Stream(Run(Origin, all[..AfterTurn(resume)]), all[AfterTurn(resume)..]))
               else None
  {
    var n := AfterTurn(resume);
    if Served(g, resume) {
      StreamAtTurn(g, all, n);
      assert StreamAfter(g, resume) == Some(StreamAt(g, n + 1));
    } else {
      assert StreamAfter(g, resume) == None;
    }
  }

  // ----- followers that resume

  function AcceptAll(f: F.FollowerState, turns: seq<Turn>): F.Result<F.FollowerState, F.FollowError>
    decreases |turns|
  {
    if turns == [] then F.Ok(f)
    else
      match AcceptAll(f, Init(turns))
      case Err(error) => F.Err(error)
      case Ok(before) => F.Accepting(before, Last(turns))
  }

  /** Room for `turns` in the counters and in the bytes a follower may hold. */
  predicate RoomFor(f: F.FollowerState, turns: seq<Turn>) {
    turns == []
    || (&& f.nextTurn + |turns| <= U64_MAX
        && Run(F.At(f), Init(turns)).sealed < U64_MAX
        && (EventsOf(turns) == [] || f.nextEvent + |EventsOf(turns)| <= U64_MAX)
        && f.queuedBytes + F.Weigh(EventsOf(turns)) <= F.MAX_QUEUED_BYTES)
  }

  /** A follower accepts a run of turns exactly when they continue its stream and
      it has room for all of them, whatever it has run meanwhile. */
  lemma {:induction false} AcceptsAllExactly(f: F.FollowerState, turns: seq<Turn>)
    ensures AcceptAll(f, turns).Ok? <==> Chain(F.At(f), turns) && RoomFor(f, turns)
    ensures AcceptAll(f, turns).Ok?
            ==> var g := AcceptAll(f, turns).value;
                && F.At(g) == Run(F.At(f), turns)
                && g.queue == f.queue + EventsOf(turns) && g.executed == f.executed
                && g.queuedBytes == f.queuedBytes + F.Weigh(EventsOf(turns)) && g.history == f.history
    decreases |turns|
  {
    if turns != [] {
      var before, last := Init(turns), Last(turns);
      AcceptsAllExactly(f, before);
      RunEvents(F.At(f), before);
      F.WeighAppend(EventsOf(before), last.events);
      if Chain(F.At(f), turns) {
        if before != [] { ChainPush(F.At(f), Init(before), Last(before)); }
      }
      if AcceptAll(f, before).Ok? {
        var g := AcceptAll(f, before).value;
        F.AcceptsExactly(g, last);
        Assoc(f.queue, EventsOf(before), last.events);
      } else {
        assert !(Chain(F.At(f), turns) && RoomFor(f, turns));
      }
    }
  }

  /** The same outcome on another history. */
  function Renamed(outcome: F.Result<F.FollowerState, F.FollowError>, history: nat)
    : F.Result<F.FollowerState, F.FollowError>
  {
    match outcome
    case Err(error) => F.Err(error)
    case Ok(f) => F.Ok(f.(history := history))
  }

  /** Accepting never looks at the history. */
  lemma {:induction false} HistoryIsOnlyAName(f: F.FollowerState, turns: seq<Turn>, history: nat)
    ensures AcceptAll(f.(history := history), turns) == Renamed(AcceptAll(f, turns), history)
    decreases |turns|
  {
    if turns != [] { HistoryIsOnlyAName(f, Init(turns), history); }
  }

  /** A follower that stopped anywhere in the window and resumes is served the
      stream that continues it, and takes it. */
  lemma ResumeFits(g: GameState, all: seq<Turn>, f: F.FollowerState, n: nat)
    requires Window(g, all) && n <= |all| && F.At(f) == Run(Origin, all[..n])
    requires Served(g, Some(F.ResumePoint(f)))
    ensures StreamAfter(g, Some(F.ResumePoint(f))) == Some(Stream(F.At(f), all[n..]))
    ensures F.Continue(f, F.TurnStart(F.At(f), CurrentHistory(g))) == F.Ok(f.(history := CurrentHistory(g)))
  {
    RunEvents(Origin, all[..n]);
    StreamAfterExactly(g, all, Some(F.ResumePoint(f)));
    F.ContinuesExactly(f, F.TurnStart(F.At(f), CurrentHistory(g)));
  }

  /** It then does with the backlog and every later turn what it would have done
      had it never disconnected, and accepts them all exactly if it has room. */
  lemma {:induction false} ResumeCatchesUp(all: seq<Turn>, f: F.FollowerState, n: nat, later: seq<Turn>, history: nat)
    requires Chain(Origin, all + later)
    requires n <= |all| && F.At(f) == Run(Origin, all[..n])
    ensures AcceptAll(f.(history := history), all[n..] + later) == Renamed(AcceptAll(f, all[n..] + later), history)
    ensures AcceptAll(f, all[n..] + later).Ok? <==> RoomFor(f, all[n..] + later)
  {
    var seen, rest := all[..n], all[n..] + later;
    assert all + later == seen + rest;
    ChainAppend(Origin, seen, rest);
    HistoryIsOnlyAName(f, rest, history);
    AcceptsAllExactly(f, rest);
  }

  // ----- the bound on what a follower holds

  /** The largest payload there is. */
  const MAX_PAYLOAD: nat := 48 * 1024

  datatype Publishing = Publishing(game: GameState, turns: seq<Turn>)

  /** A game that orders a command and seals it while no step runs. */
  function Commands(p: Publishing, payload: Bytes, length: FrameLength): Publishing {
    var ordered := Append(p.game, Command(1, p.game.nextEvent, payload));
    Publishing(Seal(ordered, p.game.sealedThrough, length), p.turns + Published(ordered, p.game.sealedThrough))
  }

  function Commanded(count: nat, payload: Bytes, length: FrameLength): Publishing {
    if count == 0 then Publishing(NewGame(7), []) else Commands(Commanded(count - 1, payload, length), payload, length)
  }

  predicate Heavy(p: Publishing, weight: nat, length: FrameLength) {
    Sealed(p.game, p.turns, length) && p.game.pending == [] && F.Weigh(EventsOf(p.turns)) >= weight
  }

  lemma CommandSealed(p: Publishing, payload: Bytes, length: FrameLength)
    requires Sealed(p.game, p.turns, length)
    ensures var next := Commands(p, payload, length); Sealed(next.game, next.turns, length) && next.game.pending == []
  {
    var body := Command(1, p.game.nextEvent, payload);
    AppendKeeps(p.game, p.turns, body, length);
    SealKeeps(Append(p.game, body), p.turns, p.game.sealedThrough, length);
  }

  lemma {:induction false} CommandCarried(g: GameState, all: seq<Turn>, body: EventBody, length: FrameLength)
    requires Sealed(g, all, length) && g.pending == []
    ensures EventsOf(all + Published(Append(g, body), g.sealedThrough)) == EventsOf(all) + [Ordered(g, body)]
  {
    AppendKeeps(g, all, body, length);
    PublishedChain(Append(g, body), all, g.sealedThrough);
    EventsOfAppend(all, Published(Append(g, body), g.sealedThrough));
  }

  lemma {:induction false} CommandWeighs(p: Publishing, weight: nat, payload: Bytes, length: FrameLength)
    requires Heavy(p, weight, length)
    ensures Heavy(Commands(p, payload, length), weight + |payload|, length)
  {
    var event := Ordered(p.game, Command(1, p.game.nextEvent, payload));
    CommandSealed(p, payload, length);
    CommandCarried(p.game, p.turns, event.body, length);
    F.WeighAppend(EventsOf(p.turns), [event]);
    OneWeighs(event);
  }

  lemma OneWeighs(event: Event)
    ensures F.Weigh([event]) == F.EventSize(event)
  {
    assert [event][1..] == [];
  }

  lemma {:induction false} CommandsWeigh(count: nat, payload: Bytes, length: FrameLength)
    ensures Heavy(Commanded(count, payload, length), Times(count, |payload|), length)
  {
    if count == 0 {
      NewGameSealed(7, length);
    } else {
      CommandsWeigh(count - 1, payload, length);
      CommandWeighs(Commanded(count - 1, payload, length), Times(count - 1, |payload|), payload, length);
      TimesNext(count - 1, |payload|);
    }
  }

  function Times(a: nat, b: nat): nat {
    a * b
  }

  lemma TimesNext(a: nat, b: nat)
    ensures Times(a + 1, b) == Times(a, b) + b
  {
  }

  /** Room is a real condition: a follower that only accepts, as while its world
      is fetched, refuses a stream of the largest commands after 256 MiB. */
  lemma {:induction false} HonestBacklogCanBeRefused(payload: Bytes, count: nat, length: FrameLength)
    requires |payload| == MAX_PAYLOAD && count >= 5462
    ensures var all := Commanded(count, payload, length).turns;
            Chain(Origin, all) && AcceptAll(F.Begin(F.TurnStart(Origin, 7)), all).Err?
  {
    CommandsWeigh(count, payload, length);
    assert Times(count, |payload|) > F.MAX_QUEUED_BYTES;
    TooHeavy(Commanded(count, payload, length).turns);
  }

  lemma {:induction false} TooHeavy(turns: seq<Turn>)
    requires Chain(Origin, turns) && F.Weigh(EventsOf(turns)) > F.MAX_QUEUED_BYTES
    ensures AcceptAll(F.Begin(F.TurnStart(Origin, 7)), turns).Err?
  {
    AcceptsAllExactly(F.Begin(F.TurnStart(Origin, 7)), turns);
  }

  // ----- saves

  /** `point` describes a save event that ends the last of its turns, after which
      no step was sealed. */
  predicate PointAt(point: SavePoint, all: seq<Turn>) {
    var n := point.afterTurn;
    && 0 < n <= |all|
    && Run(Origin, all[..n]) == Cursor(n + 1, point.event + 1, point.sealedThrough)
    && Run(Origin, all[..n - 1]).sealed == point.sealedThrough
    && all[n - 1].events != []
    && Last(all[n - 1].events) == Event(point.event, point.sealedThrough + 1, Save)
  }

  /** Turns that carry `events` and move no frontier end with the last of them. */
  lemma {:induction false} EndsWith(at: Cursor, turns: seq<Turn>, events: seq<Event>)
    requires turns != [] && Chain(at, turns) && EventsOf(turns) == events != []
    requires Run(at, turns).sealed == at.sealed
    requires forall i | 0 <= i < |turns| :: turns[i].events == [] ==> |turns| == 1
    ensures Run(at, Init(turns)).sealed == at.sealed
    ensures Last(turns).events != [] && Last(Last(turns).events) == Last(events)
  {
    ChainNumbers(at, Init(turns));
    if |turns| == 1 {
      assert Init(turns) == [];
      assert EventsOf(turns) == Last(turns).events;
    }
  }

  lemma {:induction false} PointEnds(all: seq<Turn>, turns: seq<Turn>, event: nat, history: nat, sealed: nat)
    requires turns != [] && Run(Origin, all + Init(turns)).sealed == sealed
    requires Last(turns).events != [] && Last(Last(turns).events) == Event(event, sealed + 1, Save)
    requires Run(Origin, all + turns) == Cursor(|all + turns| + 1, event + 1, sealed)
    ensures PointAt(SavePoint(event, |all + turns|, history, sealed), all + turns)
  {
    var more := all + turns;
    assert more[..|more|] == more && more[..|more| - 1] == all + Init(turns);
  }

  /** Every save the room seals is the last event of its turn, moves no frontier,
      and is described by its point. */
  lemma SaveEndsItsTurn(g: GameState, all: seq<Turn>, length: FrameLength)
    requires Sealed(g, all, length)
    ensures var (s, point) := SealSave(g, length);
            var more := all + Published(Append(g, Save), g.sealedThrough);
            && Sealed(s, more, length) && PointAt(point, more)
            && point.afterTurn == |more| && s.sealedThrough == g.sealedThrough
            && point.history == CurrentHistory(g)
  {
    var a, sealed := Append(g, Save), g.sealedThrough;
    var turns := Published(a, sealed);
    AppendKeeps(g, all, Save, length);
    SealKeeps(a, all, sealed, length);
    PublishedChain(a, all, sealed);
    EndsWith(Run(Origin, all), turns, a.pending);
    RunAppend(Origin, all, Init(turns));
    RunEvents(Origin, all + turns);
    PointEnds(all, turns, g.nextEvent, CurrentHistory(g), sealed);
  }

  lemma PointStays(point: SavePoint, all: seq<Turn>, more: seq<Turn>)
    requires PointAt(point, all) && point.afterTurn <= |more|
    requires all[..point.afterTurn] == more[..point.afterTurn]
    ensures PointAt(point, more)
  {
    var n := point.afterTurn;
    assert all[..n - 1] == all[..n][..n - 1] == more[..n - 1];
    assert all[n - 1] == all[..n][n - 1] == more[n - 1];
  }

  /** While a save is in the window its stream starts right after it, at the
      frontier it was taken at. */
  lemma SaveStream(g: GameState, all: seq<Turn>, point: SavePoint)
    requires Window(g, all) && PointAt(point, all)
    ensures StreamFromSave(g, point)
            == if Served(g, Some(F.Resume(point.afterTurn, point.history)))
               then Some(Stream(Cursor(point.afterTurn + 1, point.event + 1, point.sealedThrough),
                                all[point.afterTurn..]))
               else None
  {
    StreamAfterExactly(g, all, Some(F.Resume(point.afterTurn, point.history)));
  }

  /** The world of a save holds what turn 1 up to the save event perform; followed
      by the save's stream it performs what following from turn 1 performs. */
  lemma {:induction false} SaveContinues(all: seq<Turn>, point: SavePoint)
    requires PointAt(point, all)
    ensures var n := point.afterTurn;
            && Perform(Origin, all)
               == Perform(Origin, all[..n])
                  + Perform(Cursor(n + 1, point.event + 1, point.sealedThrough), all[n..])
            && Perform(Origin, all[..n]) != []
            && Last(Perform(Origin, all[..n])) == Apply(Event(point.event, point.sealedThrough + 1, Save))
  {
    var n := point.afterTurn;
    var before, turn := all[..n - 1], all[n - 1];
    assert all[..n] == before + [turn];
    assert all == all[..n] + all[n..];
    PerformAppend(Origin, all[..n], all[n..]);
    ChainPush(Origin, before, turn);
    assert Steps(point.sealedThrough, turn.sealedThrough) == [];
    var done := Perform(Origin, before);
    assert Perform(Origin, all[..n]) == done + Applies(turn.events);
    assert Last(Applies(turn.events)) == Apply(Last(turn.events));
  }
}

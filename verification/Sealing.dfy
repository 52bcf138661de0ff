/**
What sealing keeps, over every run of a game: the published turns are one chain
that carries every ordered event once and in order, and the resume window is
always the longest suffix of them that its limits allow.
*/
module Sealing {
  import opened Protocol
  import opened Sequencer

  /** Every turn of a chain as the window would log it. */
  function Logged(at: Cursor, turns: seq<Turn>, length: FrameLength): seq<LoggedTurn>
    decreases |turns|
  {
    if turns == [] then []
    else
      Logged(at, Init(turns), length)
      + [LoggedTurn(Run(at, Init(turns)).event, Last(turns).sealedThrough, Last(turns), length(Last(turns)))]
  }

  predicate HoldsFrom(whole: seq<LoggedTurn>, j: nat, window: nat) {
    j <= |whole| && Holds(From(whole, j), window)
  }

  /** `log` is the longest suffix of `whole` the limits allow, and starts at `k`. */
  predicate LongestFrom(log: seq<LoggedTurn>, whole: seq<LoggedTurn>, k: nat, window: nat) {
    && k <= |whole| && log == From(whole, k)
    && Holds(log, window)
    && forall j: nat | j < k :: !HoldsFrom(whole, j, window)
  }

  function SealedBefore(whole: seq<LoggedTurn>, k: nat): nat
    requires k <= |whole|
  {
    if k == 0 then 0 else whole[k - 1].sealedThrough
  }

  /** The window's fields describe exactly the turns it keeps of `whole`. */
  predicate Windowed(g: GameState, whole: seq<LoggedTurn>) {
    && g.resumeWindow >= 1 && g.logFirstTurn >= 1
    && LongestFrom(g.log, whole, g.logFirstTurn - 1, g.resumeWindow)
    && g.logBytes == LogBytes(g.log)
    && g.sealedBeforeLog == SealedBefore(whole, g.logFirstTurn - 1)
  }

  /** Nothing but the window differs. */
  predicate SameBut(g: GameState, h: GameState) {
    h == g.(log := h.log, logBytes := h.logBytes, logFirstTurn := h.logFirstTurn, sealedBeforeLog := h.sealedBeforeLog)
  }

  /** The game stands where `all` ends, with the events since pending. */
  predicate Standing(g: GameState, all: seq<Turn>) {
    && Chain(Origin, all)
    && Run(Origin, all).turn == g.nextTurn && Run(Origin, all).sealed == g.sealedThrough
    && Run(Origin, all).event + |g.pending| == g.nextEvent
    && Numbered(g.pending, Run(Origin, all).event, g.sealedThrough + 1)
  }

  /** The game has sealed exactly `all`. */
  predicate Sealed(g: GameState, all: seq<Turn>, length: FrameLength) {
    Standing(g, all) && Windowed(g, Logged(Origin, all, length))
  }

  // ----- the window

  lemma {:induction false} LogBytesAppend(a: seq<LoggedTurn>, b: seq<LoggedTurn>)
    ensures LogBytes(a + b) == LogBytes(a) + LogBytes(b)
  {
    if a == [] {
      assert a + b == b;
    } else {
      LogBytesAppend(a[1..], b);
      assert (a + b)[1..] == a[1..] + b;
    }
  }

  lemma UnheldGrows(log: seq<LoggedTurn>, turn: LoggedTurn, window: nat)
    requires !Holds(log, window)
    ensures !Holds(log + [turn], window)
  {
    LogBytesAppend(log, [turn]);
  }

  lemma FromPush(whole: seq<LoggedTurn>, turn: LoggedTurn, k: nat)
    requires k <= |whole|
    ensures From(whole + [turn], k) == From(whole, k) + [turn]
  {
  }

  lemma UnheldFrom(whole: seq<LoggedTurn>, turn: LoggedTurn, j: nat, window: nat)
    requires j <= |whole| && !HoldsFrom(whole, j, window)
    ensures !HoldsFrom(whole + [turn], j, window)
  {
    FromPush(whole, turn, j);
    UnheldGrows(From(whole, j), turn, window);
  }

  lemma FromNext(log: seq<LoggedTurn>, whole: seq<LoggedTurn>, k: nat)
    requires k < |whole| && log == From(whole, k)
    ensures log != [] && log[1..] == From(whole, k + 1) && log[0].sealedThrough == SealedBefore(whole, k + 1)
    ensures LogBytes(log) == log[0].length + LogBytes(log[1..])
  {
  }

  /** The window starts at or before the longest suffix. */
  predicate Trimming(g: GameState, whole: seq<LoggedTurn>) {
    && g.resumeWindow >= 1 && 1 <= g.logFirstTurn <= |whole|
    && g.log == From(whole, g.logFirstTurn - 1) && g.logBytes == LogBytes(g.log)
    && g.sealedBeforeLog == SealedBefore(whole, g.logFirstTurn - 1)
    && forall j: nat | j < g.logFirstTurn - 1 :: !HoldsFrom(whole, j, g.resumeWindow)
  }

  /** The window without its oldest turn. */
  function Shorter(g: GameState): GameState
    requires g.log != [] && g.logBytes >= g.log[0].length
  {
    g.(log := g.log[1..], logBytes := g.logBytes - g.log[0].length, logFirstTurn := g.logFirstTurn + 1,
       sealedBeforeLog := g.log[0].sealedThrough)
  }

  lemma TrimOnce(g: GameState, whole: seq<LoggedTurn>)
    requires Trimming(g, whole) && !Holds(g.log, g.resumeWindow)
    ensures g.log != [] && g.logBytes >= g.log[0].length && Trimming(Shorter(g), whole)
  {
    FromNext(g.log, whole, g.logFirstTurn - 1);
    UnheldYet(g, whole);
  }

  lemma UnheldYet(g: GameState, whole: seq<LoggedTurn>)
    requires Trimming(g, whole) && !Holds(g.log, g.resumeWindow)
    ensures forall j: nat | j < g.logFirstTurn :: !HoldsFrom(whole, j, g.resumeWindow)
  {
  }

  /** Trimming from the front stops exactly at the longest suffix. */
  lemma {:induction false} TrimLongest(g: GameState, whole: seq<LoggedTurn>)
    requires Trimming(g, whole)
    ensures Windowed(Trim(g), whole) && SameBut(g, Trim(g))
    decreases |g.log|
  {
    if !Holds(g.log, g.resumeWindow) {
      TrimOnce(g, whole);
      TrimLongest(Shorter(g), whole);
    }
  }

  function Pushed(g: GameState, turn: LoggedTurn): GameState {
    g.(log := g.log + [turn], logBytes := g.logBytes + turn.length)
  }

  lemma PushTrims(g: GameState, whole: seq<LoggedTurn>, turn: LoggedTurn)
    requires Windowed(g, whole)
    ensures Trimming(Pushed(g, turn), whole + [turn])
  {
    LogBytesAppend(g.log, [turn]);
    FromPush(whole, turn, g.logFirstTurn - 1);
    forall j: nat | j < g.logFirstTurn - 1 ensures !HoldsFrom(whole + [turn], j, g.resumeWindow) {
      UnheldFrom(whole, turn, j, g.resumeWindow);
    }
  }

  /** One more turn: the window moves to the longest suffix with it. */
  lemma RememberLongest(g: GameState, whole: seq<LoggedTurn>, turn: LoggedTurn)
    requires Windowed(g, whole)
    ensures Windowed(Remember(g, turn), whole + [turn]) && SameBut(g, Remember(g, turn))
  {
    PushTrims(g, whole, turn);
    TrimLongest(Pushed(g, turn), whole + [turn]);
  }

  lemma {:induction false} RememberAllLongest(g: GameState, whole: seq<LoggedTurn>, turns: seq<LoggedTurn>)
    requires Windowed(g, whole)
    ensures Windowed(RememberAll(g, turns), whole + turns) && SameBut(g, RememberAll(g, turns))
    decreases |turns|
  {
    if turns == [] {
      assert whole + turns == whole;
    } else {
      RememberLongest(g, whole, turns[0]);
      var next := Remember(g, turns[0]);
      RememberAllLongest(next, whole + [turns[0]], turns[1..]);
      Assoc(whole, [turns[0]], turns[1..]);
      assert [turns[0]] + turns[1..] == turns;
    }
  }

  // ----- batches

  function Flat(batches: seq<seq<Event>>): seq<Event>
    decreases |batches|
  {
    if batches == [] then [] else Flat(Init(batches)) + Last(batches)
  }

  lemma {:induction false} FlatPush(batches: seq<seq<Event>>, batch: seq<Event>)
    ensures Flat(batches + [batch]) == Flat(batches) + batch
  {
    assert Init(batches + [batch]) == batches;
  }

  lemma {:induction false} FlatGrow(batches: seq<seq<Event>>, event: Event)
    requires batches != []
    ensures Flat(Init(batches) + [Last(batches) + [event]]) == Flat(batches) + [event]
  {
    FlatPush(Init(batches), Last(batches) + [event]);
    Assoc(Flat(Init(batches)), Last(batches), [event]);
  }

  lemma {:induction false} FlatFront(batches: seq<seq<Event>>)
    requires batches != []
    ensures Flat(batches) == batches[0] + Flat(batches[1..])
    decreases |batches|
  {
    if |batches| == 1 {
      assert Flat(Init(batches)) == [] && Flat(batches[1..]) == [];
    } else {
      FlatFront(Init(batches));
      assert Init(batches)[1..] == Init(batches[1..]);
      Assoc(batches[0], Flat(Init(batches[1..])), Last(batches));
    }
  }

  /** Every batch holds something, but for a lone empty one. */
  predicate Proper(batches: seq<seq<Event>>) {
    batches != [] && (batches == [[]] || forall i | 0 <= i < |batches| :: batches[i] != [])
  }

  /** Splitting loses nothing, reorders nothing and leaves no batch empty. */
  lemma {:induction false} SpreadKeeps(events: seq<Event>, batches: seq<seq<Event>>, budget: nat)
    requires Proper(batches)
    ensures Proper(Spread(events, batches, budget))
    ensures Flat(Spread(events, batches, budget)) == Flat(batches) + events
    decreases |events|
  {
    if events != [] {
      var event, rest := events[0], events[1..];
      assert events == [event] + rest;
      Assoc(Flat(batches), [event], rest);
      FlatPush(batches, [event]);
      FlatGrow(batches, event);
      if budget + PayloadSize(event) > TURN_PAYLOAD_BUDGET && Last(batches) != [] {
        SpreadKeeps(rest, batches + [[event]], PayloadSize(event));
      } else {
        SpreadKeeps(rest, Init(batches) + [Last(batches) + [event]], budget + PayloadSize(event));
      }
    }
  }

  lemma BatchesKeep(pending: seq<Event>)
    ensures Proper(Batches(pending)) && Flat(Batches(pending)) == pending
  {
    SpreadKeeps(pending, [[]], 0);
    assert Flat([[]]) == [];
  }

  // ----- sealing

  // ----- the payload budget

  function Payload(events: seq<Event>): nat
    decreases |events|
  {
    if events == [] then 0 else Payload(Init(events)) + PayloadSize(Last(events))
  }

  /** Several events together stay within the budget; one alone may be any size. */
  predicate Within(batch: seq<Event>) {
    |batch| > 1 ==> Payload(batch) <= TURN_PAYLOAD_BUDGET
  }

  /** Every batch is within the budget, and each was closed because the event that
      starts the next did not fit. */
  predicate Greedy(batches: seq<seq<Event>>) {
    && (forall i | 0 <= i < |batches| :: Within(batches[i]))
    && forall i | 0 < i < |batches| ::
         batches[i] != [] && Payload(batches[i - 1]) + PayloadSize(batches[i][0]) > TURN_PAYLOAD_BUDGET
  }

  lemma PayloadPush(events: seq<Event>, event: Event)
    ensures Payload(events + [event]) == Payload(events) + PayloadSize(event)
  {
    assert Init(events + [event]) == events;
  }

  /** Events are split as late as the budget allows, and no later. */
  lemma {:induction false} SpreadIsGreedy(events: seq<Event>, batches: seq<seq<Event>>, budget: nat)
    requires batches != [] && Greedy(batches) && budget == Payload(Last(batches))
    ensures Greedy(Spread(events, batches, budget))
    decreases |events|
  {
    if events != [] {
      var event, size, last := events[0], PayloadSize(events[0]), Last(batches);
      if budget + size > TURN_PAYLOAD_BUDGET && last != [] {
        GreedyNext(batches, event);
        SpreadIsGreedy(events[1..], batches + [[event]], size);
      } else {
        PayloadPush(last, event);
        GreedyGrow(batches, event);
        SpreadIsGreedy(events[1..], Init(batches) + [last + [event]], budget + size);
      }
    }
  }

  lemma GreedyNext(batches: seq<seq<Event>>, event: Event)
    requires batches != [] && Greedy(batches)
    requires Payload(Last(batches)) + PayloadSize(event) > TURN_PAYLOAD_BUDGET
    ensures Greedy(batches + [[event]]) && Payload([event]) == PayloadSize(event)
  {
    PayloadPush([], event);
    assert [] + [event] == [event];
  }

  lemma GreedyGrow(batches: seq<seq<Event>>, event: Event)
    requires batches != [] && Greedy(batches)
    requires Last(batches) == [] || Payload(Last(batches)) + PayloadSize(event) <= TURN_PAYLOAD_BUDGET
    ensures Greedy(Init(batches) + [Last(batches) + [event]])
  {
    var last, grown := Last(batches), Init(batches) + [Last(batches) + [event]];
    PayloadPush(last, event);
    forall i | 0 < i < |grown|
      ensures grown[i] != [] && Payload(grown[i - 1]) + PayloadSize(grown[i][0]) > TURN_PAYLOAD_BUDGET
    {
      assert batches[i] != [] && grown[i - 1] == batches[i - 1] && grown[i][0] == batches[i][0];
    }
  }

  lemma {:induction false} TurnsCarry(number: nat, speed: nat, sealed: nat, batches: seq<seq<Event>>, frontier: nat,
                                      i: nat)
    requires i < |batches|
    ensures i < |TurnsFor(number, speed, sealed, batches, frontier)|
    ensures TurnsFor(number, speed, sealed, batches, frontier)[i].events == batches[i]
    decreases |batches|
  {
    if i > 0 { TurnsCarry(number + 1, speed, sealed, batches[1..], frontier, i - 1); }
  }

  /** So of the turns a game publishes: several events in one turn are within the
      budget, and a turn ends early only before an event that does not fit. */
  lemma PublishedGreedy(g: GameState, frontier: nat, i: nat)
    requires i < |Batches(g.pending)|
    ensures var turns := Published(g, frontier);
            && i < |turns| && Within(turns[i].events)
            && (i > 0 ==> turns[i].events != []
                          && Payload(turns[i - 1].events) + PayloadSize(turns[i].events[0]) > TURN_PAYLOAD_BUDGET)
  {
    SpreadIsGreedy(g.pending, [[]], 0);
    TurnsCarry(g.nextTurn, g.speed, g.sealedThrough, Batches(g.pending), frontier, i);
    if i > 0 { TurnsCarry(g.nextTurn, g.speed, g.sealedThrough, Batches(g.pending), frontier, i - 1); }
  }

  lemma NumberedSplit(a: seq<Event>, b: seq<Event>, first: nat, step: nat)
    requires Numbered(a + b, first, step)
    ensures Numbered(a, first, step) && Numbered(b, first + |a|, step)
  {
    forall i | 0 <= i < |a| ensures a[i].seqNo == first + i && a[i].step == step {
      assert (a + b)[i] == a[i];
    }
    forall i | 0 <= i < |b| ensures b[i].seqNo == first + |a| + i && b[i].step == step {
      assert (a + b)[|a| + i] == b[i];
    }
  }

  lemma {:induction false} LoggedAppend(at: Cursor, a: seq<Turn>, b: seq<Turn>, length: FrameLength)
    ensures Logged(at, a + b, length) == Logged(at, a, length) + Logged(Run(at, a), b, length)
    decreases |b|
  {
    if b == [] {
      assert a + b == a;
    } else {
      LoggedAppend(at, a, Init(b), length);
      RunAppend(at, a, Init(b));
      assert Init(a + b) == a + Init(b) && Last(a + b) == Last(b);
    }
  }

  lemma {:induction false} RunOne(at: Cursor, turn: Turn)
    ensures Run(at, [turn]) == After(at, turn)
    ensures Chain(at, [turn]) <==> Fits(at, turn)
    ensures EventsOf([turn]) == turn.events
  {
    assert Init([turn]) == [];
    assert Run(at, Init([turn])) == at;
  }

  /** The turns for a list of batches continue the stream, carry their events in
      order and end at the frontier. */
  lemma {:induction false} TurnsForChain(at: Cursor, speed: nat, batches: seq<seq<Event>>, frontier: nat)
    requires at.sealed <= frontier && batches != []
    requires Numbered(Flat(batches), at.event, at.sealed + 1)
    ensures var turns := TurnsFor(at.turn, speed, at.sealed, batches, frontier);
            && |turns| == |batches| && Chain(at, turns)
            && Run(at, turns) == Cursor(at.turn + |batches|, at.event + |Flat(batches)|, frontier)
            && EventsOf(turns) == Flat(batches)
    decreases |batches|
  {
    FlatFront(batches);
    NumberedSplit(batches[0], Flat(batches[1..]), at.event, at.sealed + 1);
    var turn := Turn(at.turn, if |batches| == 1 then frontier else at.sealed, speed, batches[0]);
    RunOne(at, turn);
    if |batches| > 1 {
      TurnsForChain(After(at, turn), speed, batches[1..], frontier);
      TurnBefore(at, turn, TurnsFor(at.turn + 1, speed, at.sealed, batches[1..], frontier));
    } else {
      assert [turn] + [] == [turn];
      assert TurnsFor(at.turn + 1, speed, at.sealed, batches[1..], frontier) == [];
    }
  }

  lemma {:induction false} TurnBefore(at: Cursor, turn: Turn, rest: seq<Turn>)
    requires Fits(at, turn) && Chain(After(at, turn), rest)
    ensures Chain(at, [turn] + rest) && Run(at, [turn] + rest) == Run(After(at, turn), rest)
    ensures EventsOf([turn] + rest) == turn.events + EventsOf(rest)
  {
    RunOne(at, turn);
    ChainAppend(at, [turn], rest);
    RunAppend(at, [turn], rest);
    EventsOfAppend([turn], rest);
  }

  lemma {:induction false} EventsOfAppend(a: seq<Turn>, b: seq<Turn>)
    ensures EventsOf(a + b) == EventsOf(a) + EventsOf(b)
    decreases |b|
  {
    if b == [] {
      assert a + b == a;
    } else {
      EventsOfAppend(a, Init(b));
      assert Init(a + b) == a + Init(b) && Last(a + b) == Last(b);
      Assoc(EventsOf(a), EventsOf(Init(b)), Last(b).events);
    }
  }

  /** Logging turns with the event that follows them all records where each one
      started, as long as only the last is empty. */
  lemma {:induction false} EntriesLogged(at: Cursor, turns: seq<Turn>, nextEvent: nat, length: FrameLength)
    requires Chain(at, turns)
    requires forall i | 0 <= i < |turns| :: turns[i].events == [] ==> Run(at, turns[..i]).event == nextEvent
    ensures Entries(turns, nextEvent, length) == Logged(at, turns, length)
    decreases |turns|
  {
    if turns != [] {
      var before := Init(turns);
      assert forall i | 0 <= i < |before| :: before[..i] == turns[..i];
      EntriesLogged(at, before, nextEvent, length);
      assert turns[..|turns| - 1] == before;
      assert Entries(turns, nextEvent, length)
          == Entries(before, nextEvent, length) + [Entry(Last(turns), nextEvent, length)];
    }
  }

  lemma {:induction false} TurnsForEvents(number: nat, speed: nat, sealed: nat, batches: seq<seq<Event>>, frontier: nat)
    ensures var turns := TurnsFor(number, speed, sealed, batches, frontier);
            |turns| == |batches| && forall i | 0 <= i < |batches| :: turns[i].events == batches[i]
    decreases |batches|
  {
    if batches != [] { TurnsForEvents(number + 1, speed, sealed, batches[1..], frontier); }
  }

  /** A new game has sealed nothing. */
  lemma NewGameSealed(history: nat, length: FrameLength)
    ensures Sealed(NewGame(history), [], length)
  {
  }

  lemma AppendKeeps(g: GameState, all: seq<Turn>, body: EventBody, length: FrameLength)
    requires Sealed(g, all, length)
    ensures Sealed(Append(g, body), all, length)
  {
  }

  /** What sealing publishes continues the chain with exactly the pending events. */
  lemma {:induction false} PublishedChain(g: GameState, all: seq<Turn>, frontier: nat)
    requires Standing(g, all) && g.sealedThrough <= frontier
    ensures var turns := Published(g, frontier);
            && turns != [] && Chain(Run(Origin, all), turns) && EventsOf(turns) == g.pending
            && Run(Run(Origin, all), turns) == Cursor(g.nextTurn + |turns|, g.nextEvent, frontier)
            && forall i | 0 <= i < |turns| :: turns[i].events == [] ==> |turns| == 1
  {
    BatchesKeep(g.pending);
    TurnsForChain(Run(Origin, all), g.speed, Batches(g.pending), frontier);
    TurnsForEvents(g.nextTurn, g.speed, g.sealedThrough, Batches(g.pending), frontier);
  }

  lemma {:induction false} SealStanding(g: GameState, all: seq<Turn>, frontier: nat)
    requires Standing(g, all) && g.sealedThrough <= frontier
    ensures var turns := Published(g, frontier);
            && Standing(Closed(g, |turns|, frontier), all + turns)
            && Run(Origin, all + turns) == Cursor(g.nextTurn + |turns|, g.nextEvent, frontier)
  {
    var turns := Published(g, frontier);
    PublishedChain(g, all, frontier);
    ChainAppend(Origin, all, turns);
    RunAppend(Origin, all, turns);
  }

  lemma {:induction false} PublishedLogged(g: GameState, all: seq<Turn>, frontier: nat, length: FrameLength)
    requires Standing(g, all) && g.sealedThrough <= frontier
    ensures var turns := Published(g, frontier);
            Logged(Origin, all, length) + Entries(turns, g.nextEvent, length) == Logged(Origin, all + turns, length)
  {
    var at, turns := Run(Origin, all), Published(g, frontier);
    PublishedChain(g, all, frontier);
    forall i | 0 <= i < |turns| && turns[i].events == [] ensures Run(at, turns[..i]).event == g.nextEvent {
      assert turns == [turns[0]] && turns[..i] == [];
      RunOne(at, turns[0]);
    }
    EntriesLogged(at, turns, g.nextEvent, length);
    LoggedAppend(Origin, all, turns, length);
  }

  /** Sealing extends the one chain by turns that carry exactly the pending
      events, in order, and end at the new frontier; the window follows. */
  lemma {:induction false} SealKeeps(g: GameState, all: seq<Turn>, frontier: nat, length: FrameLength)
    requires Sealed(g, all, length) && g.sealedThrough <= frontier
    ensures var s := Seal(g, frontier, length);
            var turns := Published(g, frontier);
            && Sealed(s, all + turns, length)
            && Run(Origin, all + turns) == Cursor(g.nextTurn + |turns|, g.nextEvent, frontier)
            && SameBut(Closed(g, |turns|, frontier), s)
  {
    var turns := Published(g, frontier);
    SealStanding(g, all, frontier);
    PublishedLogged(g, all, frontier, length);
    ClosedWindow(g, |turns|, frontier, Logged(Origin, all, length));
    Extends(Closed(g, |turns|, frontier), all + turns, Logged(Origin, all, length),
            Entries(turns, g.nextEvent, length), length);
  }

  lemma ClosedWindow(g: GameState, count: nat, frontier: nat, whole: seq<LoggedTurn>)
    requires Windowed(g, whole)
    ensures Windowed(Closed(g, count, frontier), whole)
  {
  }

  lemma Extends(g: GameState, all: seq<Turn>, whole: seq<LoggedTurn>, entries: seq<LoggedTurn>, length: FrameLength)
    requires Standing(g, all) && Windowed(g, whole) && whole + entries == Logged(Origin, all, length)
    ensures Sealed(RememberAll(g, entries), all, length) && SameBut(g, RememberAll(g, entries))
  {
    RememberAllLongest(g, whole, entries);
  }
}

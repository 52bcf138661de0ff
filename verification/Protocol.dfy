/**
The turn stream of a running room: events, turns and the order in which a
world performs them.

A cursor says where a stream stands: the next turn, the next event and the
frontier, the last step sealed. The sequencer, the follower, the resume window
and recovery all move one cursor along one chain of turns, so what is proved
about chains here is shared by all of them.
*/
module Protocol {

  const U64_MAX: nat := 0xFFFF_FFFF_FFFF_FFFF

  type Byte = b: int | 0 <= b < 256
  type Bytes = seq<Byte>
  type PlayerId = nat

  datatype Option<+T> = None | Some(value: T)

  datatype EventBody =
    | Command(player: PlayerId, clientSeq: nat, payload: Bytes)
    | PlayerJoined(player: PlayerId, name: string, platform: nat)
    | PlayerLeft(player: PlayerId, kicked: bool)
    | Save

  datatype Event = Event(seqNo: nat, step: nat, body: EventBody)

  datatype Turn = Turn(number: nat, sealedThrough: nat, speed: nat, events: seq<Event>)

  /** What a world does: apply an event between two steps, or run a step. */
  datatype Action = Apply(event: Event) | Execute(step: nat)

  datatype Cursor = Cursor(turn: nat, event: nat, sealed: nat)

  /** Where every game starts: turn 1, event 1, no step sealed. */
  const Origin := Cursor(1, 1, 0)

  function Init<T>(s: seq<T>): seq<T>
    requires s != []
  {
    s[..|s| - 1]
  }

  function Last<T>(s: seq<T>): T
    requires s != []
  {
    s[|s| - 1]
  }

  /** What is left of `s` after `k` elements. Said without a slice when that is all
      of it, so that a proof never meets a sequence as a slice of itself. */
  function From<T>(s: seq<T>, k: nat): seq<T>
    requires k <= |s|
  {
    if k == 0 then s else s[k..]
  }

  /** Consecutive sequence numbers from `first`, all for `step`. */
  predicate Numbered(events: seq<Event>, first: nat, step: nat) {
    forall i | 0 <= i < |events| :: events[i].seqNo == first + i && events[i].step == step
  }

  /** `turn` continues a stream that stands at `at`. */
  predicate Fits(at: Cursor, turn: Turn) {
    && turn.number == at.turn
    && at.sealed <= turn.sealedThrough
    && Numbered(turn.events, at.event, at.sealed + 1)
  }

  function After(at: Cursor, turn: Turn): Cursor {
    Cursor(at.turn + 1, at.event + |turn.events|, turn.sealedThrough)
  }

  /** The cursor after `turns`. */
  function Run(at: Cursor, turns: seq<Turn>): Cursor
    decreases |turns|
  {
    if turns == [] then at else After(Run(at, Init(turns)), Last(turns))
  }

  /** `turns` continue one another, starting at `at`. */
  predicate Chain(at: Cursor, turns: seq<Turn>)
    decreases |turns|
  {
    turns == [] || (Chain(at, Init(turns)) && Fits(Run(at, Init(turns)), Last(turns)))
  }

  /** Runs the steps after `from` up to and including `through`. */
  function Steps(from: nat, through: nat): seq<Action>
    decreases through
  {
    if through <= from then [] else Steps(from, through - 1) + [Execute(through)]
  }

  function Applies(events: seq<Event>): seq<Action> {
    seq(|events|, i requires 0 <= i < |events| => Apply(events[i]))
  }

  /** What a world performs for `turns`, turn by turn: each turn's events, then
      the steps it seals. */
  function Perform(at: Cursor, turns: seq<Turn>): seq<Action>
    decreases |turns|
  {
    if turns == [] then []
    else
      Perform(at, Init(turns)) + Applies(Last(turns).events)
      + Steps(Run(at, Init(turns)).sealed, Last(turns).sealedThrough)
  }

  function EventsOf(turns: seq<Turn>): seq<Event>
    decreases |turns|
  {
    if turns == [] then [] else EventsOf(Init(turns)) + Last(turns).events
  }

  /** The events of one step, in order. */
  function OfStep(events: seq<Event>, step: nat): seq<Event> {
    if events == [] then []
    else (if events[0].step == step then [events[0]] else []) + OfStep(events[1..], step)
  }

  /** The canonical order, defined without turns: for every step after `low` up
      to `high`, its events in order and then the step; last, the events already
      ordered for the step after `high`. */
  function Canon(events: seq<Event>, low: nat, high: nat): seq<Action>
    decreases high - low
  {
    Applies(OfStep(events, low + 1))
    + if low < high then [Execute(low + 1)] + Canon(events, low + 1, high) else []
  }

  lemma Assoc<T>(a: seq<T>, b: seq<T>, c: seq<T>)
    ensures a + (b + c) == a + b + c
  {
  }

  // ----- chains

  lemma {:induction false} RunAppend(at: Cursor, a: seq<Turn>, b: seq<Turn>)
    ensures Run(at, a + b) == Run(Run(at, a), b)
    decreases |b|
  {
    if b == [] {
      assert a + b == a;
    } else {
      RunAppend(at, a, Init(b));
      assert Init(a + b) == a + Init(b);
    }
  }

  lemma {:induction false} ChainAppend(at: Cursor, a: seq<Turn>, b: seq<Turn>)
    ensures Chain(at, a + b) <==> Chain(at, a) && Chain(Run(at, a), b)
    decreases |b|
  {
    if b == [] {
      assert a + b == a;
    } else {
      ChainAppend(at, a, Init(b));
      RunAppend(at, a, Init(b));
      assert Init(a + b) == a + Init(b);
    }
  }

  lemma {:induction false} ChainPush(at: Cursor, turns: seq<Turn>, turn: Turn)
    ensures Chain(at, turns + [turn]) <==> Chain(at, turns) && Fits(Run(at, turns), turn)
    ensures Run(at, turns + [turn]) == After(Run(at, turns), turn)
    ensures Perform(at, turns + [turn])
            == Perform(at, turns) + Applies(turn.events) + Steps(Run(at, turns).sealed, turn.sealedThrough)
    ensures EventsOf(turns + [turn]) == EventsOf(turns) + turn.events
  {
    assert Init(turns + [turn]) == turns;
  }

  lemma {:induction false} ChainNumbers(at: Cursor, turns: seq<Turn>)
    requires Chain(at, turns)
    ensures Run(at, turns).turn == at.turn + |turns|
    ensures at.sealed <= Run(at, turns).sealed
    ensures at.event <= Run(at, turns).event
    decreases |turns|
  {
    if turns != [] { ChainNumbers(at, Init(turns)); }
  }

  /** Any cut of a chain is two chains, and they meet. */
  lemma {:induction false} ChainCut(at: Cursor, turns: seq<Turn>, k: nat)
    requires Chain(at, turns) && k <= |turns|
    ensures Chain(at, turns[..k]) && Chain(Run(at, turns[..k]), turns[k..])
    ensures Run(Run(at, turns[..k]), turns[k..]) == Run(at, turns)
    ensures Perform(at, turns) == Perform(at, turns[..k]) + Perform(Run(at, turns[..k]), turns[k..])
  {
    assert turns == turns[..k] + turns[k..];
    ChainAppend(at, turns[..k], turns[k..]);
    RunAppend(at, turns[..k], turns[k..]);
    PerformAppend(at, turns[..k], turns[k..]);
  }

  /** Every turn of a chain fits where the ones before it end. */
  lemma {:induction false} ChainAt(at: Cursor, turns: seq<Turn>, i: nat)
    requires Chain(at, turns) && i < |turns|
    ensures Fits(Run(at, turns[..i]), turns[i])
    decreases |turns|
  {
    if i == |turns| - 1 {
      assert turns[..i] == Init(turns);
    } else {
      ChainAt(at, Init(turns), i);
      assert Init(turns)[..i] == turns[..i];
    }
  }

  lemma {:induction false} PerformAppend(at: Cursor, a: seq<Turn>, b: seq<Turn>)
    ensures Perform(at, a + b) == Perform(at, a) + Perform(Run(at, a), b)
    decreases |b|
  {
    if b == [] {
      assert a + b == a;
    } else {
      PerformAppend(at, a, Init(b));
      RunAppend(at, a, Init(b));
      assert Init(a + b) == a + Init(b) && Last(a + b) == Last(b);
      var p, q := Perform(at, a), Perform(Run(at, a), Init(b));
      var r, s := Applies(Last(b).events), Steps(Run(Run(at, a), Init(b)).sealed, Last(b).sealedThrough);
      assert Perform(at, a + b) == p + q + r + s;
      assert Perform(Run(at, a), b) == q + r + s;
      Assoc(p, q, r);
      Assoc(p, q + r, s);
    }
  }

  // ----- the canonical order

  lemma {:induction false} OfStepAppend(a: seq<Event>, b: seq<Event>, step: nat)
    ensures OfStep(a + b, step) == OfStep(a, step) + OfStep(b, step)
  {
    if a == [] {
      assert a + b == b;
    } else {
      OfStepAppend(a[1..], b, step);
      assert (a + b)[0] == a[0] && (a + b)[1..] == a[1..] + b;
      Assoc(if a[0].step == step then [a[0]] else [], OfStep(a[1..], step), OfStep(b, step));
    }
  }

  lemma {:induction false} OfStepAll(events: seq<Event>, step: nat)
    requires forall i | 0 <= i < |events| :: events[i].step == step
    ensures OfStep(events, step) == events
  {
    if events != [] { OfStepAll(events[1..], step); }
  }

  lemma {:induction false} OfStepNone(events: seq<Event>, step: nat)
    requires forall i | 0 <= i < |events| :: events[i].step != step
    ensures OfStep(events, step) == []
  {
    if events != [] { OfStepNone(events[1..], step); }
  }

  lemma {:induction false} StepsFront(from: nat, through: nat)
    requires from < through
    ensures Steps(from, through) == [Execute(from + 1)] + Steps(from + 1, through)
    decreases through
  {
    if from + 1 < through { StepsFront(from, through - 1); }
  }

  lemma {:induction false} StepsAppend(a: nat, b: nat, c: nat)
    requires a <= b <= c
    ensures Steps(a, c) == Steps(a, b) + Steps(b, c)
    decreases c
  {
    if b < c { StepsAppend(a, b, c - 1); }
  }

  /** Steps that have no events leave only the steps. */
  lemma {:induction false} CanonNoEvents(events: seq<Event>, low: nat, high: nat)
    requires low <= high
    requires forall i | 0 <= i < |events| :: events[i].step <= low
    ensures Canon(events, low, high) == Steps(low, high)
    decreases high - low
  {
    OfStepNone(events, low + 1);
    if low < high {
      StepsFront(low, high);
      CanonNoEvents(events, low + 1, high);
    }
  }

  /** New events for the step after the frontier, and a further frontier, only
      add to the end of the canonical order. */
  lemma {:induction false} CanonExtend(events: seq<Event>, more: seq<Event>, low: nat, high: nat, further: nat)
    requires low <= high <= further
    requires forall i | 0 <= i < |events| :: events[i].step <= high + 1
    requires forall i | 0 <= i < |more| :: more[i].step == high + 1
    ensures Canon(events + more, low, further)
            == Canon(events, low, high) + Applies(more) + Steps(high, further)
    decreases high - low
  {
    OfStepAppend(events, more, low + 1);
    if low < high {
      OfStepNone(more, low + 1);
      assert OfStep(events + more, low + 1) == OfStep(events, low + 1);
      CanonExtend(events, more, low + 1, high, further);
      Regroup(Applies(OfStep(events, low + 1)), [Execute(low + 1)], Canon(events, low + 1, high),
              Applies(more), Steps(high, further));
    } else {
      OfStepAll(more, low + 1);
      assert Applies(OfStep(events + more, low + 1)) == Applies(OfStep(events, low + 1)) + Applies(more);
      if high < further {
        CanonNoEvents(events + more, high + 1, further);
        StepsFront(high, further);
      }
    }
  }

  lemma Regroup(a: seq<Action>, b: seq<Action>, c: seq<Action>, d: seq<Action>, e: seq<Action>)
    ensures a + (b + (c + d + e)) == a + (b + c) + d + e
  {
  }

  lemma {:induction false} ChainSteps(at: Cursor, turns: seq<Turn>)
    requires Chain(at, turns)
    ensures forall i | 0 <= i < |EventsOf(turns)| ::
              at.sealed < EventsOf(turns)[i].step <= Run(at, turns).sealed + 1
    decreases |turns|
  {
    if turns != [] {
      ChainSteps(at, Init(turns));
      ChainNumbers(at, Init(turns));
    }
  }

  /** However events were split over turns, a chain of turns performs the
      canonical order of its events: every event of a step in sequence order,
      then the step. */
  lemma {:induction false} PerformIsCanonical(at: Cursor, turns: seq<Turn>)
    requires Chain(at, turns)
    ensures Perform(at, turns) == Canon(EventsOf(turns), at.sealed, Run(at, turns).sealed)
    decreases |turns|
  {
    if turns != [] {
      var before := Init(turns);
      PerformIsCanonical(at, before);
      ChainSteps(at, before);
      ChainNumbers(at, before);
      CanonExtend(EventsOf(before), Last(turns).events, at.sealed,
                  Run(at, before).sealed, Last(turns).sealedThrough);
    }
  }
}

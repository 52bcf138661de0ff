/**
The agent's bridge between a turn stream and the hook
(crates/tpf3mp-agent/src/bridge.rs): `pump`, the outbox, and the order in which
worlds are fetched, loaded and voided.

The bridge owns its follower, playout and outbox, so they are values here. The
functions say what each event does to the bridge; the class `Outbox` and the
method `PumpInto` do it in place.
*/
module Bridge {
  import opened Protocol
  import opened Gate
  import F = Follower
  import P = Playout

  const OUTBOX_BYTES: nat := 16 * 1024 * 1024

  function Weight(message: ToHook): nat {
    64 + match message
         case ApplyEvent(event) => if event.body.Command? then |event.body.payload| else 0
         case Load(file, _) => if file.Some? then |file.value.path| else 0
         case Diverged(_, lanes) => 2 * |lanes|
         case Chat(from, text) => |from| + |text|
         case End(reason) => |reason|
         case _ => 0
  }

  function Total(messages: seq<ToHook>): nat {
    if messages == [] then 0 else Weight(messages[0]) + Total(messages[1..])
  }

  lemma {:induction false} TotalAppend(a: seq<ToHook>, b: seq<ToHook>)
    ensures Total(a + b) == Total(a) + Total(b)
  {
    if a == [] {
      assert a + b == b;
    } else {
      TotalAppend(a[1..], b);
      assert (a + b)[1..] == a[1..] + b;
    }
  }

  predicate Full(messages: seq<ToHook>) {
    Total(messages) >= OUTBOX_BYTES
  }

  /** What the game was sent for one world, void once another replaces it. */
  predicate OfWorld(message: ToHook) {
    message.ApplyEvent? || message.Release? || message.Load?
  }

  function Retain(messages: seq<ToHook>): seq<ToHook> {
    if messages == [] then []
    else (if OfWorld(messages[0]) then [] else [messages[0]]) + Retain(messages[1..])
  }

  datatype Pumped = Pumped(follower: F.FollowerState, playout: P.PlayoutState, out: seq<ToHook>, wait: Option<nat>)

  function Releasing(out: seq<ToHook>, released: Option<nat>): seq<ToHook> {
    if released.Some? then out + [Release(released.value)] else out
  }

  /** When a playout has a step due. `pump` asks `Playout::due`; what is proved
      of the pump holds for any pacing. */
  type Pacing = (P.PlayoutState, nat, nat) -> Option<nat>

  /** One turn of the pump's loop: it stops, perhaps until a step falls due, or
      goes on. `released` is the last step taken and not yet sent. */
  datatype Once =
    | Stop(wait: Option<nat>)
    | More(follower: F.FollowerState, playout: P.PlayoutState, out: seq<ToHook>, released: Option<nat>)

  function Left(f: F.FollowerState): nat {
    |f.queue| + if f.executed < f.sealedThrough then f.sealedThrough - f.executed else 0
  }

  function PumpOnce(f: F.FollowerState, p: P.PlayoutState, now: nat, out: seq<ToHook>, released: Option<nat>,
                    pace: Pacing): (once: Once)
    ensures once.More? ==> Left(once.follower) < Left(f)
  {
    if Full(out) then Stop(None)
    else if F.NextStep(f).Some? then
      var step := F.NextStep(f).value;
      var due := if pace(p, step, now).Some? then pace(p, step, now).value else now;
      if due > now then Stop(Some(due)) else More(F.Next(f).0, P.Played(p, step, due), out, Some(step))
    else
      // A step is never what comes next here: it was named by NextStep above.
      match F.Next(f)
      case (next, Some(Apply(event))) => More(next, p, Releasing(out, released) + [ApplyEvent(event)], None)
      case _ => Stop(None)
  }

  /** Moves what the follower allows, at the pace the playout sets, into messages
      for the hook. */
  function Pump(f: F.FollowerState, p: P.PlayoutState, now: nat, out: seq<ToHook>, released: Option<nat>,
                pace: Pacing): Pumped
    decreases Left(f)
  {
    match PumpOnce(f, p, now, out, released, pace)
    case Stop(wait) => Pumped(f, p, Releasing(out, released), wait)
    case More(f', p', out', released') => Pump(f', p', now, out', released', pace)
  }

  // ----- the pump keeps the playout's time

  /** When a step falls due; one the pace says nothing about falls due at once. */
  function FallsDue(pace: Pacing, p: P.PlayoutState, step: nat, now: nat): nat {
    match pace(p, step, now)
    case Some(due) => due
    case None => now
  }

  /** The playout once the steps after `executed` were played, due at `dues`. */
  function PlayedAfter(p: P.PlayoutState, executed: nat, dues: seq<nat>): P.PlayoutState {
    if dues == [] then p else P.Played(p, executed + |dues|, Last(dues))
  }

  /** The `i`th of these steps was due by `now`, on the playout as the steps before
      left it. */
  predicate DueBy(pace: Pacing, p: P.PlayoutState, executed: nat, dues: seq<nat>, now: nat, i: nat)
    requires i < |dues|
  {
    dues[i] == FallsDue(pace, PlayedAfter(p, executed, dues[..i]), executed + 1 + i, now) && dues[i] <= now
  }

  ghost predicate OnTime(pace: Pacing, p: P.PlayoutState, executed: nat, dues: seq<nat>, now: nat) {
    forall i: nat | i < |dues| :: DueBy(pace, p, executed, dues, now, i)
  }

  lemma OnTimeFirst(pace: Pacing, p: P.PlayoutState, executed: nat, due: nat, rest: seq<nat>, now: nat)
    requires due == FallsDue(pace, p, executed + 1, now) <= now
    requires OnTime(pace, P.Played(p, executed + 1, due), executed + 1, rest, now)
    ensures OnTime(pace, p, executed, [due] + rest, now)
    ensures PlayedAfter(p, executed, [due] + rest) == PlayedAfter(P.Played(p, executed + 1, due), executed + 1, rest)
  {
    var dues, next := [due] + rest, P.Played(p, executed + 1, due);
    forall i: nat | i < |dues| ensures DueBy(pace, p, executed, dues, now, i) {
      if i > 0 {
        assert DueBy(pace, next, executed + 1, rest, now, i - 1);
        assert dues[..i] == [due] + rest[..i - 1];
      }
    }
  }

  /** Why the pump stopped where it did: it waits for a step that is not due yet, or
      the outbox is full, or there is nothing left to hand out. */
  predicate StopsRightly(pace: Pacing, r: Pumped, now: nat) {
    match r.wait
    case Some(due) =>
      && due > now && F.NextStep(r.follower) == Some(r.follower.executed + 1)
      && pace(r.playout, r.follower.executed + 1, now) == Some(due)
    case None => Full(r.out) || F.Next(r.follower).1 == None
  }

  lemma FullStays(out: seq<ToHook>, message: ToHook)
    requires Full(out)
    ensures Full(out + [message])
  {
    TotalAppend(out, [message]);
  }

  /** For any pacing: the pump hands out steps one after the other, each only once it
      is due on the playout the steps before left, and it stops rightly. */
  lemma {:induction false} PumpPlays(f: F.FollowerState, p: P.PlayoutState, now: nat, out: seq<ToHook>,
                                     released: Option<nat>, pace: Pacing)
    returns (dues: seq<nat>)
    ensures var r := Pump(f, p, now, out, released, pace);
            && r.follower.executed == f.executed + |dues| && r.playout == PlayedAfter(p, f.executed, dues)
            && OnTime(pace, p, f.executed, dues, now) && StopsRightly(pace, r, now)
    decreases Left(f)
  {
    dues := [];
    var once := PumpOnce(f, p, now, out, released, pace);
    if once.More? {
      var rest := PumpPlays(once.follower, once.playout, now, once.out, once.released, pace);
      if F.NextStep(f).Some? {
        var due := FallsDue(pace, p, f.executed + 1, now);
        OnTimeFirst(pace, p, f.executed, due, rest, now);
        dues := [due] + rest;
      } else {
        dues := rest;
      }
    } else if Full(out) && released.Some? {
      FullStays(out, Release(released.value));
    }
  }

  /** Where the game's world stands with respect to the turn stream. */
  datatype WorldState = Ready | Fetching(nextStep: nat, attempt: nat) | Loading(nextStep: nat)

  datatype BridgeState = BridgeState(
    follower: Option<F.FollowerState>, playout: Option<P.PlayoutState>, outbox: seq<ToHook>,
    hookReady: bool, begun: bool, world: WorldState, speed: nat, attempts: nat)

  datatype BridgeFault =
    | Follow(error: F.FollowError)
    | TurnBeforeStream
    | SecondHello
    | NobodyOrdered
    | LoadedElsewhere(expected: nat, got: nat)

  datatype Outcome = Faulted(fault: BridgeFault) | Goes(bridge: BridgeState)

  const Fresh := BridgeState(None, None, [], false, false, Ready, F.NORMAL_SPEED, 0)

  /** A stream starts: where, from which snapshot's world if from one to fetch, and its
      pace. */
  datatype StreamStart = StreamStart(start: F.TurnStart, offer: Option<nat>, stepsPerSecond: nat) {
    predicate Offered() {
      offer.Some?
    }
  }

  function VoidWorld(b: BridgeState): BridgeState {
    b.(outbox := Retain(b.outbox))
  }

  function OrderLoad(b: BridgeState, file: Option<File>, nextStep: nat): BridgeState {
    var v := VoidWorld(b);
    v.(outbox := v.outbox + [Load(file, nextStep)], world := WorldState.Loading(nextStep))
  }

  function FetchWorld(b: BridgeState, nextStep: nat): BridgeState {
    VoidWorld(b).(attempts := b.attempts + 1, world := Fetching(nextStep, b.attempts + 1))
  }

  function Opened(b: BridgeState, stream: StreamStart, margin: nat, memory: nat): BridgeState {
    var o := b.(playout := Some(P.Start(stream.stepsPerSecond, margin, memory)));
    if o.begun then o else o.(begun := true, outbox := o.outbox + [BeginGame])
  }

  function OnStream(b: BridgeState, stream: StreamStart, margin: nat, memory: nat): Outcome {
    var o := Opened(b, stream, margin, memory);
    var nextStep := stream.start.at.sealed + 1;
    if stream.Offered() then
      Goes(FetchWorld(o.(follower := Some(F.Begin(stream.start))), nextStep))
    else if o.follower.None? then
      Goes(OrderLoad(o.(follower := Some(F.Begin(stream.start))), None, nextStep))
    else
      match F.Continue(o.follower.value, stream.start)
      case Ok(follower) => Goes(o.(follower := Some(follower)))
      case Err(error) =>
        if stream.start.at.event == 1 && stream.start.at.sealed == 0 then
          Goes(OrderLoad(o.(follower := Some(F.Begin(stream.start))), None, nextStep))
        else Faulted(Follow(error))
  }

  function OnTurn(b: BridgeState, turn: Turn, now: nat): Outcome {
    if b.follower.None? then Faulted(TurnBeforeStream)
    else
      match F.Accepting(b.follower.value, turn)
      case Err(error) => Faulted(Follow(error))
      case Ok(f) =>
        var t := b.(follower := Some(f),
                    playout := if b.playout.None? then None
                               else Some(P.OnTurn(b.playout.value, f.sealedThrough, f.speed, now)));
        Goes(if f.speed == t.speed then t else t.(speed := f.speed, outbox := t.outbox + [ToHook.Speed(f.speed)]))
  }

  /** A fetch ended with the world in `file`; one a newer offer overtook is
      ignored. */
  function OnFetched(b: BridgeState, attempt: nat, file: File): BridgeState {
    if b.world.Fetching? && b.world.attempt == attempt then OrderLoad(b, Some(file), b.world.nextStep) else b
  }

  function OnHello(b: BridgeState): Outcome {
    if b.hookReady then Faulted(SecondHello)
    else Goes(b.(hookReady := true, outbox := [Hello] + b.outbox))
  }

  function OnLoaded(b: BridgeState, nextStep: nat): Outcome {
    if !b.world.Loading? then Faulted(NobodyOrdered)
    else if b.world.nextStep != nextStep then Faulted(BridgeFault.LoadedElsewhere(b.world.nextStep, nextStep))
    else Goes(b.(world := Ready))
  }

  /** Turns wait while the world they continue is being fetched. */
  function PumpNow(b: BridgeState, now: nat, pace: Pacing): BridgeState {
    if b.world.Fetching? || b.follower.None? || b.playout.None? then b
    else
      var r := Pump(b.follower.value, b.playout.value, now, b.outbox, None, pace);
      b.(follower := Some(r.follower), playout := Some(r.playout), outbox := r.out)
  }

  /** Sends the first `taken` messages: as many as the link takes. */
  function Flush(b: BridgeState, link: seq<ToHook>, taken: nat): (BridgeState, seq<ToHook>)
    requires taken <= |b.outbox|
  {
    if !b.hookReady then (b, link) else (b.(outbox := b.outbox[taken..]), link + b.outbox[..taken])
  }

  function ResumePoint(b: BridgeState): Option<F.Resume> {
    if b.world.Fetching? || b.follower.None? then None else Some(F.ResumePoint(b.follower.value))
  }

  // ----- in place

  lemma RetainNext(kept: seq<ToHook>, messages: seq<ToHook>, i: nat)
    requires i < |messages|
    ensures kept + Retain(messages[i..])
            == (if OfWorld(messages[i]) then kept else kept + [messages[i]]) + Retain(messages[i + 1..])
  {
    assert messages[i..][1..] == messages[i + 1..];
    Assoc(kept, if OfWorld(messages[i]) then [] else [messages[i]], Retain(messages[i + 1..]));
    assert kept + [] == kept;
  }

  /** Messages waiting for the hook, and about how many bytes they hold. */
  class Outbox {
    var messages: seq<ToHook>
    var bytes: nat

    ghost predicate Valid()
      reads this
    {
      bytes == Total(messages)
    }

    constructor ()
      ensures Valid() && messages == []
    {
      messages, bytes := [], 0;
    }

    method PushBack(message: ToHook)
      requires Valid()
      modifies this
      ensures Valid() && messages == old(messages) + [message]
    {
      TotalAppend(messages, [message]);
      bytes := bytes + Weight(message);
      messages := messages + [message];
    }

    method PushFront(message: ToHook)
      requires Valid()
      modifies this
      ensures Valid() && messages == [message] + old(messages)
    {
      TotalAppend([message], messages);
      bytes := bytes + Weight(message);
      messages := [message] + messages;
    }

    method PopFront() returns (message: Option<ToHook>)
      requires Valid()
      modifies this
      ensures Valid()
      ensures if old(messages) == [] then message == None && messages == []
              else message == Some(old(messages)[0]) && messages == old(messages)[1..]
    {
      if messages == [] {
        return None;
      }
      message := Some(messages[0]);
      var weight := Weight(messages[0]);
      bytes := bytes - weight;
      messages := messages[1..];
    }

    /** Drops what was sent for a world that is being replaced. */
    method RetainNotices()
      requires Valid()
      modifies this
      ensures Valid() && messages == Retain(old(messages))
    {
      var kept, i := [], 0;
      bytes := 0;
      assert messages[0..] == messages;
      while i < |messages|
        invariant 0 <= i <= |messages| && messages == old(messages)
        invariant kept + Retain(messages[i..]) == Retain(messages)
        invariant bytes == Total(kept)
      {
        RetainNext(kept, messages, i);
        if !OfWorld(messages[i]) {
          TotalAppend(kept, [messages[i]]);
          kept, bytes := kept + [messages[i]], bytes + Weight(messages[i]);
        }
        i := i + 1;
      }
      messages := kept;
    }

    method IsFull() returns (full: bool)
      requires Valid()
      ensures full == Full(messages)
    {
      full := bytes >= OUTBOX_BYTES;
    }
  }

  /** An event goes out after the steps released before it. */
  method Send(out: Outbox, released: Option<nat>, event: Event)
    requires out.Valid()
    modifies out
    ensures out.Valid() && out.messages == Releasing(old(out.messages), released) + [ApplyEvent(event)]
  {
    if released.Some? {
      out.PushBack(Release(released.value));
    }
    out.PushBack(ApplyEvent(event));
  }

  /** Takes the step that comes next, as due at `due`. */
  method Play(follower: F.TurnFollower, playout: P.Schedule, step: nat, due: nat)
    modifies follower, playout`played
    ensures follower.State() == F.Next(old(follower.State())).0
    ensures playout.State() == P.Played(old(playout.State()), step, due)
  {
    playout.RecordPlayed(step, due);
    var _ := follower.NextAction();
  }

  /** The loop of `pump`, on a follower, a schedule and an outbox of its own. */
  method PumpInto(follower: F.TurnFollower, playout: P.Schedule, now: nat, out: Outbox) returns (wait: Option<nat>)
    requires out.Valid()
    modifies follower, playout`played, out
    ensures out.Valid()
    ensures Pumped(follower.State(), playout.State(), out.messages, wait)
            == Pump(old(follower.State()), old(playout.State()), now, old(out.messages), None, P.Due)
    ensures StopsRightly(P.Due, Pumped(follower.State(), playout.State(), out.messages, wait), now)
  {
    ghost var _ := PumpPlays(follower.State(), playout.State(), now, out.messages, None, P.Due);
    var released: Option<nat> := None;
    ghost var whole := Pump(follower.State(), playout.State(), now, out.messages, None, P.Due);
    while true
      invariant out.Valid()
      invariant Pump(follower.State(), playout.State(), now, out.messages, released, P.Due) == whole
      decreases Left(follower.State())
    {
      var full := out.IsFull();
      if full {
        wait := None;
        break;
      }
      var next := follower.PeekStep();
      if next.Some? {
        var at := P.Due(playout.State(), next.value, now);
        var due := if at.Some? then at.value else now;
        if due > now {
          wait := Some(due);
          break;
        }
        Play(follower, playout, next.value, due);
        released := next;
        continue;
      }
      var action := follower.NextAction();
      match action {
        case Some(Apply(event)) =>
          Send(out, released, event);
          released := None;
        case _ =>
          wait := None;
          break;
      }
    }
    if released.Some? {
      out.PushBack(Release(released.value));
    }
  }
}

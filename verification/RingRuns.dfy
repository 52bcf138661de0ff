/**
A ring shared by two processes, step by step. Either side can stop between any
two of its steps: loading a counter, moving one byte, publishing its counter.
Whatever the interleaving, what comes out is what went in, in order.
*/
module RingRuns {
  import opened Protocol
  import opened Words
  import opened Ring

  datatype Ask = Peek | Pop(have: nat)

  datatype Producer = Resting | Loaded(payload: Message, tail: nat) | Writing(payload: Message, tail: nat, done: nat)

  /** `seen` is how many messages had been published when the tail was loaded. */
  datatype Consumer =
    | Waiting
    | Asked(ask: Ask, tail: nat, seen: nat)
    | Sizing(ask: Ask, head: nat, available: nat, got: Bytes, seen: nat)
    | Copying(head: nat, length: nat, got: Bytes)

  datatype RingState = RingState(
    maxMessage: nat, data: Bytes, head: nat, tail: nat, producer: Producer, consumer: Consumer,
    /** Every message published, and every one taken out. */
    pushed: seq<Message>, popped: seq<Message>)

  datatype Report =
    | Quiet
    | Pushed(put: Message)
    | PushFailed(push: PushError)
    | Popped(message: Message)
    | Nothing
    | PopFailed(pop: PopError)
    | Peeked(length: Option<nat>)

  datatype RingStep = StartPush(payload: Message) | ProducerGoes | StartPop(ask: Ask) | ConsumerGoes

  function BeginPush(r: RingState, payload: Message): (RingState, Report) {
    if !r.producer.Resting? then (r, Quiet)
    else if |payload| > r.maxMessage then (r, PushFailed(TooLarge(|payload|, r.maxMessage)))
    else (r.(producer := Loaded(payload, r.tail)), Quiet)
  }

  function Produce(r: RingState): (RingState, Report)
    requires r.data != [] && r.head < WRAP
  {
    match r.producer
    case Resting => (r, Quiet)
    case Loaded(payload, tail) =>
      var used := WrappingSub(tail, r.head);
      if used > |r.data| then (r.(producer := Resting), PushFailed(PushCorrupt))
      else if LENGTH_PREFIX + |payload| > |r.data| - used then (r.(producer := Resting), PushFailed(Full))
      else (r.(producer := Writing(payload, tail, 0)), Quiet)
    case Writing(payload, tail, done) =>
      if done < |Frame(payload)| then
        var slot := Slot(WrappingAdd(tail, done), |r.data|);
        // A slot is always inside the buffer.
        if slot >= |r.data| then (r, Quiet)
        else (r.(data := r.data[slot := Frame(payload)[done]], producer := Writing(payload, tail, done + 1)), Quiet)
      else
        (r.(tail := WrappingAdd(tail, LENGTH_PREFIX + |payload|), producer := Resting, pushed := r.pushed + [payload]),
         Pushed(payload))
  }

  function BeginPop(r: RingState, ask: Ask): (RingState, Report) {
    if !r.consumer.Waiting? then (r, Quiet) else (r.(consumer := Asked(ask, r.tail, |r.pushed|)), Quiet)
  }

  /** The byte a counter points at. */
  function ByteAt(r: RingState, at: nat): Byte
    requires r.data != []
  {
    var slot := Slot(at % WRAP, |r.data|);
    if slot < |r.data| then r.data[slot] else 0
  }

  /** Both counters are loaded: is there a length to read? */
  function Look(r: RingState, ask: Ask, tail: nat, seen: nat): (RingState, Report)
    requires r.head < WRAP
  {
    var available := WrappingSub(tail, r.head);
    var idle := r.(consumer := Waiting);
    if ask.Peek? && (available < LENGTH_PREFIX || available > |r.data|) then (idle, Peeked(None))
    else if available == 0 then (idle, Nothing)
    else if available < LENGTH_PREFIX || available > |r.data| then (idle, PopFailed(PopCorrupt))
    else (r.(consumer := Sizing(ask, r.head, available, [], seen)), Quiet)
  }

  /** The length is read: is there a message to take? */
  function Decide(r: RingState, ask: Ask, head: nat, available: nat, length: nat): (RingState, Report) {
    var idle := r.(consumer := Waiting);
    match ask
    case Peek => (idle, Peeked(if length <= r.maxMessage then Some(length) else None))
    case Pop(have) =>
      if length > r.maxMessage || available < LENGTH_PREFIX + length then (idle, PopFailed(PopCorrupt))
      else if have < length then (idle, PopFailed(BufferTooSmall(have, length)))
      else (r.(consumer := Copying(head, length, [])), Quiet)
  }

  function Consume(r: RingState): (RingState, Report)
    requires r.data != [] && r.head < WRAP
  {
    match r.consumer
    case Waiting => (r, Quiet)
    case Asked(ask, tail, seen) => Look(r, ask, tail, seen)
    case Sizing(ask, head, available, got, seen) =>
      if |got| < LENGTH_PREFIX then
        (r.(consumer := Sizing(ask, head, available, got + [ByteAt(r, head + |got|)], seen)), Quiet)
      else Decide(r, ask, head, available, FromLe32(got[..LENGTH_PREFIX]))
    case Copying(head, length, got) =>
      if |got| < length then
        (r.(consumer := Copying(head, length, got + [ByteAt(r, head + LENGTH_PREFIX + |got|)])), Quiet)
      else
        // A length is read from four bytes.
        var message: Message := if |got| < WRAP then got else [];
        (r.(head := WrappingAdd(head, LENGTH_PREFIX + length), consumer := Waiting, popped := r.popped + [message]),
         Popped(message))
  }

  function Take(r: RingState, step: RingStep): (RingState, Report)
    requires r.data != [] && r.head < WRAP
  {
    match step
    case StartPush(payload) => BeginPush(r, payload)
    case ProducerGoes => Produce(r)
    case StartPop(ask) => BeginPop(r, ask)
    case ConsumerGoes => Consume(r)
  }

  // ----- what every run keeps

  /** How many bytes were ever taken out, and ever put in. */
  function Out(r: RingState): nat {
    |Stream(r.popped)|
  }

  function In(r: RingState): nat {
    |Stream(r.pushed)|
  }

  /** The buffer holds every byte that was put in and not taken out. */
  ghost predicate Stored(r: RingState) {
    && r.data != [] && Geometry(|r.data|, r.maxMessage)
    && r.popped <= r.pushed && Out(r) <= In(r) <= Out(r) + |r.data|
    && r.head == Out(r) % WRAP && r.tail == In(r) % WRAP
    && Holds(r.data, Out(r), Stream(r.pushed)[Out(r)..])
    && (forall i | 0 <= i < |r.pushed| :: |r.pushed[i]| <= r.maxMessage)
  }

  ghost predicate ProducerOk(r: RingState) {
    match r.producer
    case Resting => true
    case Loaded(payload, tail) => tail == r.tail && |payload| <= r.maxMessage
    case Writing(payload, tail, done) =>
      && tail == r.tail && |payload| <= r.maxMessage && done <= |Frame(payload)|
      && In(r) + |Frame(payload)| <= Out(r) + |r.data| && r.data != []
      && Holds(r.data, In(r), Frame(payload)[..done])
  }

  /** Messages published before the tail was loaded are whole. */
  ghost predicate ConsumerOk(r: RingState) {
    match r.consumer
    case Waiting => true
    case Asked(_, tail, seen) =>
      |r.popped| <= seen <= |r.pushed| && tail == |Stream(r.pushed[..seen])| % WRAP
    case Sizing(_, head, available, got, seen) =>
      && |r.popped| < seen <= |r.pushed| && head == r.head && |got| <= LENGTH_PREFIX
      && available == |Stream(r.pushed[..seen])| - Out(r)
      && got == Frame(r.pushed[|r.popped|])[..|got|]
    case Copying(head, length, got) =>
      && |r.popped| < |r.pushed| && head == r.head && length == |r.pushed[|r.popped|]|
      && |got| <= length && got == r.pushed[|r.popped|][..|got|]
  }

  ghost predicate RingInv(r: RingState) {
    Stored(r) && ProducerOk(r) && ConsumerOk(r)
  }

  // ----- the producer

  lemma InRange(r: RingState)
    requires Stored(r)
    ensures |r.data| < WRAP && r.head < WRAP && r.tail < WRAP
    ensures WrappingSub(r.tail, r.head) == In(r) - Out(r)
  {
    CapacityDivides(|r.data|, r.maxMessage);
    Distance(In(r), Out(r));
  }

  lemma {:induction false} StoredAside(r: RingState, at: nat, b: Byte)
    requires Stored(r) && In(r) <= at < Out(r) + |r.data|
    ensures Stored(r.(data := r.data[Place(at, |r.data|) := b]))
  {
    WriteAside(r.data, Out(r), Stream(r.pushed)[Out(r)..], at, b);
  }

  /** The byte the producer writes next goes to a slot nothing unread is in. */
  lemma WritesMissUnread(r: RingState, i: nat)
    requires RingInv(r) && r.producer.Writing? && r.producer.done < |Frame(r.producer.payload)|
    requires i < In(r) - Out(r)
    ensures Slot(WrappingAdd(r.producer.tail, r.producer.done), |r.data|) != Slot(WrappingAdd(r.head, i), |r.data|)
  {
    var at := In(r) + r.producer.done;
    AddWraps(In(r), r.producer.done);
    SlotOf(at, |r.data|, r.maxMessage);
    AddWraps(Out(r), i);
    SlotOf(Out(r) + i, |r.data|, r.maxMessage);
    Apart(at, Out(r) + i, |r.data|);
  }

  lemma HoldsPush(data: Bytes, from: nat, bytes: Bytes, b: Byte)
    requires data != [] && |bytes| < |data| && Holds(data, from, bytes)
    ensures Holds(data[Place(from + |bytes|, |data|) := b], from, bytes + [b])
  {
    WriteAside(data, from, bytes, from + |bytes|, b);
    var q := data[Place(from + |bytes|, |data|) := b];
    assert Has(q, from + |bytes|, [b], 0);
    HoldsAppend(q, from, bytes, [b]);
  }

  lemma FrameGrows(data: Bytes, at: nat, frame: Bytes, done: nat)
    requires data != [] && done < |frame| <= |data| && Holds(data, at, frame[..done])
    ensures Holds(data[Place(at + done, |data|) := frame[done]], at, frame[..done + 1])
  {
    HoldsPush(data, at, frame[..done], frame[done]);
    assert frame[..done] + [frame[done]] == frame[..done + 1];
  }

  lemma WriteKeeps(r: RingState)
    requires RingInv(r) && r.producer.Writing? && r.producer.done < |Frame(r.producer.payload)|
    ensures RingInv(Produce(r).0) && Produce(r).1 == Quiet && Produce(r).0.popped == r.popped
  {
    var frame, done := Frame(r.producer.payload), r.producer.done;
    var at := In(r) + done;
    AddWraps(In(r), done);
    SlotOf(at, |r.data|, r.maxMessage);
    StoredAside(r, at, frame[done]);
    FrameGrows(r.data, In(r), frame, done);
    var q := r.(data := r.data[Place(at, |r.data|) := frame[done]]);
    assert Produce(r).0 == q.(producer := Writing(r.producer.payload, r.producer.tail, done + 1));
  }

  lemma {:induction false} PushStream(pushed: seq<Message>, payload: Message)
    ensures Stream(pushed + [payload]) == Stream(pushed) + Frame(payload)
  {
    assert Init(pushed + [payload]) == pushed;
  }

  lemma ConsumerStays(r: RingState, q: RingState, payload: Message)
    requires ConsumerOk(r) && r.popped <= r.pushed
    requires q.consumer == r.consumer && q.popped == r.popped && q.head == r.head && q.pushed == r.pushed + [payload]
    ensures ConsumerOk(q)
  {
    match r.consumer
    case Asked(_, _, seen) => assert q.pushed[..seen] == r.pushed[..seen];
    case Sizing(_, _, _, _, seen) => assert q.pushed[..seen] == r.pushed[..seen];
    case _ =>
  }

  lemma PublishKeeps(r: RingState)
    requires RingInv(r) && r.producer.Writing? && r.producer.done == |Frame(r.producer.payload)|
    ensures RingInv(Produce(r).0) && Produce(r).1 == Pushed(r.producer.payload)
    ensures Produce(r).0.pushed == r.pushed + [r.producer.payload]
  {
    var payload, q := r.producer.payload, Produce(r).0;
    var frame := Frame(payload);
    PushStream(r.pushed, payload);
    AddWraps(In(r), |frame|);
    assert frame[..|frame|] == frame;
    var rest := Stream(r.pushed)[Out(r)..];
    HoldsAppend(r.data, Out(r), rest, frame);
    assert Stream(q.pushed)[Out(r)..] == rest + frame;
    assert r.popped <= q.pushed;
    ConsumerStays(r, q, payload);
  }

  /** Room is found exactly when there is room, whatever the consumer frees later. */
  lemma RoomKeeps(r: RingState)
    requires RingInv(r) && r.producer.Loaded?
    ensures var need := |Frame(r.producer.payload)|;
            && RingInv(Produce(r).0)
            && Produce(r).1 == if In(r) + need > Out(r) + |r.data| then PushFailed(Full) else Quiet
  {
    InRange(r);
  }

  lemma ProduceKeeps(r: RingState)
    requires RingInv(r)
    ensures r.data != [] && r.head < WRAP
    ensures RingInv(Produce(r).0) && Produce(r).1 != PushFailed(PushCorrupt)
    ensures Produce(r).0.popped == r.popped
    ensures Produce(r).1.Quiet? || Produce(r).1.Pushed? || Produce(r).1.PushFailed?
  {
    InRange(r);
    match r.producer
    case Resting =>
    case Loaded(_, _) => RoomKeeps(r);
    case Writing(payload, _, done) => if done < |Frame(payload)| { WriteKeeps(r); } else { PublishKeeps(r); }
  }

  // ----- the consumer

  /** The byte under a counter is the byte the stream has there. */
  lemma ByteRead(r: RingState, i: nat)
    requires Stored(r) && i < In(r) - Out(r)
    ensures ByteAt(r, r.head + i) == Stream(r.pushed)[Out(r) + i]
  {
    AddWraps(Out(r), i);
    SlotOf(Out(r) + i, |r.data|, r.maxMessage);
    assert Has(r.data, Out(r), Stream(r.pushed)[Out(r)..], i);
  }

  /** The next message's frame, byte by byte. */
  lemma FrameRead(r: RingState, i: nat)
    requires Stored(r) && |r.popped| < |r.pushed| && i < |Frame(r.pushed[|r.popped|])|
    ensures ByteAt(r, r.head + i) == Frame(r.pushed[|r.popped|])[i]
  {
    var n := |r.popped|;
    assert r.pushed[..n] == r.popped;
    StreamNext(r.pushed, n, |r.pushed|);
    assert r.pushed[..|r.pushed|] == r.pushed;
    var frame := Frame(r.pushed[n]);
    assert Stream(r.pushed)[Out(r)..Out(r) + |frame|][i] == Stream(r.pushed)[Out(r) + i];
    ByteRead(r, i);
  }

  lemma SeenBytes(r: RingState, seen: nat)
    requires Stored(r) && |r.popped| <= seen <= |r.pushed|
    ensures Out(r) <= |Stream(r.pushed[..seen])| <= In(r)
    ensures |r.popped| < seen
            ==> |Stream(r.pushed[..seen])| >= Out(r) + |Frame(r.pushed[|r.popped|])|
  {
    assert r.pushed[..|r.popped|] == r.popped && r.pushed[..|r.pushed|] == r.pushed;
    if |r.popped| < seen {
      StreamNext(r.pushed, |r.popped|, seen);
    } else if seen < |r.pushed| {
      StreamNext(r.pushed, seen, |r.pushed|);
    }
  }

  /** A tail loaded earlier still tells of whole messages. */
  lemma LookKeeps(r: RingState)
    requires RingInv(r) && r.consumer.Asked?
    ensures RingInv(Consume(r).0) && Consume(r).0.popped == r.popped
    ensures var c := r.consumer;
            Consume(r).1 == if c.seen > |r.popped| then Quiet
                            else if c.ask.Peek? then Peeked(None) else Nothing
  {
    var c := r.consumer;
    InRange(r);
    SeenBytes(r, c.seen);
    Distance(|Stream(r.pushed[..c.seen])|, Out(r));
    assert r.pushed[..|r.popped|] == r.popped;
  }

  lemma DecideKeeps(r: RingState)
    requires RingInv(r) && r.consumer.Sizing? && |r.consumer.got| == LENGTH_PREFIX
    ensures RingInv(Consume(r).0) && Consume(r).0.popped == r.popped
    ensures var length := |r.pushed[|r.popped|]|;
            Consume(r).1 == match r.consumer.ask
                            case Peek => Peeked(Some(length))
                            case Pop(have) => if have < length then PopFailed(BufferTooSmall(have, length)) else Quiet
  {
    var c := r.consumer;
    var next := r.pushed[|r.popped|];
    assert c.got[..LENGTH_PREFIX] == Le32(|next|);
    LittleEndianBack(|next|);
    SeenBytes(r, c.seen);
  }

  lemma SizingKeeps(r: RingState)
    requires RingInv(r) && r.consumer.Sizing? && |r.consumer.got| < LENGTH_PREFIX
    ensures RingInv(Consume(r).0) && Consume(r).1 == Quiet && Consume(r).0.popped == r.popped
  {
    var got, frame := r.consumer.got, Frame(r.pushed[|r.popped|]);
    FrameRead(r, |got|);
    assert got + [frame[|got|]] == frame[..|got| + 1];
  }

  lemma CopyingKeeps(r: RingState)
    requires RingInv(r) && r.consumer.Copying? && |r.consumer.got| < r.consumer.length
    ensures RingInv(Consume(r).0) && Consume(r).1 == Quiet && Consume(r).0.popped == r.popped
  {
    var got, next := r.consumer.got, r.pushed[|r.popped|];
    FrameRead(r, LENGTH_PREFIX + |got|);
    assert Frame(next)[LENGTH_PREFIX + |got|] == next[|got|];
    assert got + [next[|got|]] == next[..|got| + 1];
  }

  lemma LaterBytes(data: Bytes, o: nat, k: nat, all: Bytes)
    requires data != [] && o + k <= |all| && Holds(data, o, all[o..])
    ensures Holds(data, o + k, all[o + k..])
  {
    HoldsLater(data, o, all[o..], k);
    assert all[o..][k..] == all[o + k..];
  }

  lemma FinishKeeps(r: RingState)
    requires RingInv(r) && r.consumer.Copying? && |r.consumer.got| == r.consumer.length
    ensures RingInv(Consume(r).0) && Consume(r).1 == Popped(r.pushed[|r.popped|])
    ensures Consume(r).0.popped == r.popped + [r.pushed[|r.popped|]]
  {
    var next := r.pushed[|r.popped|];
    var k := |Frame(next)|;
    assert r.consumer.got == next;
    PushStream(r.popped, next);
    SeenBytes(r, |r.pushed|);
    assert r.pushed[..|r.pushed|] == r.pushed;
    LaterBytes(r.data, Out(r), k, Stream(r.pushed));
    AddWraps(Out(r), k);
    var q := r.(head := WrappingAdd(r.head, k), consumer := Waiting, popped := r.popped + [next]);
    assert q.popped <= q.pushed;
    assert Consume(r).0 == q;
  }

  lemma ConsumeKeeps(r: RingState)
    requires RingInv(r)
    ensures r.data != [] && r.head < WRAP
    ensures RingInv(Consume(r).0) && Consume(r).1 != PopFailed(PopCorrupt)
    ensures match Consume(r).1
            case Popped(m) => |r.popped| < |r.pushed| && m == r.pushed[|r.popped|] && Consume(r).0.popped == r.popped + [m]
            case Peeked(Some(length)) => |r.popped| < |r.pushed| && length == |r.pushed[|r.popped|]|
            case PopFailed(BufferTooSmall(have, needed)) =>
              |r.popped| < |r.pushed| && have < needed == |r.pushed[|r.popped|]| && Consume(r).0.popped == r.popped
            case _ => Consume(r).0.popped == r.popped
  {
    InRange(r);
    match r.consumer
    case Waiting =>
    case Asked(_, _, _) => LookKeeps(r);
    case Sizing(_, _, _, got, _) => if |got| < LENGTH_PREFIX { SizingKeeps(r); } else { DecideKeeps(r); }
    case Copying(_, length, got) => if |got| < length { CopyingKeeps(r); } else { FinishKeeps(r); }
  }

  // ----- every run

  function Empty(data: Bytes, maxMessage: nat): RingState {
    RingState(maxMessage, data, 0, 0, Resting, Waiting, [], [])
  }

  /** What one step may report. */
  predicate Honest(r: RingState, report: Report) {
    match report
    case PushFailed(error) => !error.PushCorrupt?
    case PopFailed(error) => !error.PopCorrupt?
    case Popped(m) => |r.popped| < |r.pushed| && m == r.pushed[|r.popped|]
    case _ => true
  }

  lemma BeginPushKeeps(r: RingState, payload: Message)
    requires RingInv(r)
    ensures RingInv(BeginPush(r, payload).0) && BeginPush(r, payload).0.popped == r.popped
    ensures BeginPush(r, payload).1 == Quiet
            || (|payload| > r.maxMessage && BeginPush(r, payload) == (r, PushFailed(TooLarge(|payload|, r.maxMessage))))
  {
  }

  lemma BeginPopKeeps(r: RingState, ask: Ask)
    requires RingInv(r)
    ensures RingInv(BeginPop(r, ask).0) && BeginPop(r, ask).1 == Quiet && BeginPop(r, ask).0.popped == r.popped
  {
    assert r.pushed[..|r.pushed|] == r.pushed;
  }

  lemma TakeKeeps(r: RingState, step: RingStep)
    requires RingInv(r)
    ensures r.data != [] && r.head < WRAP
    ensures RingInv(Take(r, step).0) && Honest(r, Take(r, step).1)
    ensures Take(r, step).0.popped
            == if Take(r, step).1.Popped? then r.popped + [Take(r, step).1.message] else r.popped
  {
    InRange(r);
    match step
    case StartPush(payload) => BeginPushKeeps(r, payload);
    case ProducerGoes => ProduceKeeps(r);
    case StartPop(ask) => BeginPopKeeps(r, ask);
    case ConsumerGoes => ConsumeKeeps(r);
  }

  lemma TakePushes(r: RingState, step: RingStep)
    requires r.data != [] && r.head < WRAP
    ensures Take(r, step).0.pushed == if Take(r, step).1.Pushed? then r.pushed + [Take(r, step).1.put] else r.pushed
  {
  }

  /** The ring after `steps`, and what both sides were told, in order. */
  ghost function After(data: Bytes, maxMessage: nat, steps: seq<RingStep>): (RingState, seq<Report>)
    requires data != []
    decreases |steps|
  {
    if steps == [] then (Empty(data, maxMessage), [])
    else
      var (r, reports) := After(data, maxMessage, Init(steps));
      if r.data == [] || r.head >= WRAP then (r, reports)
      else (Take(r, Last(steps)).0, reports + [Take(r, Last(steps)).1])
  }

  function MessagesIn(reports: seq<Report>): seq<Message>
    decreases |reports|
  {
    if reports == [] then []
    else MessagesIn(Init(reports)) + if Last(reports).Popped? then [Last(reports).message] else []
  }

  /** The messages whose sender was told they were put in. */
  function PutIn(reports: seq<Report>): seq<Message>
    decreases |reports|
  {
    if reports == [] then []
    else PutIn(Init(reports)) + if Last(reports).Pushed? then [Last(reports).put] else []
  }

  /** However the two sides interleave, the messages taken out are the messages put
      in, in order, and nobody is ever told the ring is corrupt. */
  lemma {:induction false} EveryInterleaving(data: Bytes, maxMessage: nat, steps: seq<RingStep>)
    requires data != [] && Geometry(|data|, maxMessage)
    ensures var (r, reports) := After(data, maxMessage, steps);
            && RingInv(r) && |reports| == |steps|
            && MessagesIn(reports) == r.popped <= r.pushed == PutIn(reports)
            && PushFailed(PushCorrupt) !in reports && PopFailed(PopCorrupt) !in reports
    decreases |steps|
  {
    if steps != [] {
      EveryInterleaving(data, maxMessage, Init(steps));
      var (r, reports) := After(data, maxMessage, Init(steps));
      TakeKeeps(r, Last(steps));
      TakePushes(r, Last(steps));
      var report := Take(r, Last(steps)).1;
      assert Init(reports + [report]) == reports;
    }
  }
}

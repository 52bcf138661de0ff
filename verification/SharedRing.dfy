/**
A ring's operations in place, each run by itself: two-part copies in and out of
the buffer, and `push`, `pop_into` and `peek_len` over them
(crates/tpf3mp-ipc/src/ring.rs).
*/
module SharedRing {
  import opened Protocol
  import opened Words
  import opened Ring
  import F = Follower

  /** `src` written at `start`, going on at the front where the buffer ends. */
  function Spliced(data: Bytes, start: nat, src: Bytes): Bytes
    requires start < |data| && |src| <= |data|
  {
    if start + |src| <= |data| then data[..start] + src + data[start + |src|..]
    else
      var first := |data| - start;
      src[first..] + data[|src| - first..start] + src[..first]
  }

  /** `count` bytes read from `start` on, wrapping. */
  function Around(data: Bytes, start: nat, count: nat): Bytes
    requires start < |data| && count <= |data|
  {
    if start + count <= |data| then data[start..start + count] else data[start..] + data[..start + count - |data|]
  }

  /** The front of `now` after one copy, or after two. */
  lemma TwoParts(was: Bytes, now: Bytes, data: Bytes, start: nat, first: nat, count: nat)
    requires start < |data| && count <= |data| && count <= |was|
    requires first == if count < |data| - start then count else |data| - start
    requires var once := [] + data[start..start + first] + was[first..];
             if first < count then now == once[..first] + data[..count - first] + once[count..] else now == once
    ensures |now| == |was| && now[..count] == Around(data, start, count) && now[count..] == was[count..]
  {
  }

  /** What is not in a stretch of `n` bytes from `at` on stays. */
  predicate Untouched(was: Bytes, now: Bytes, at: nat, n: nat)
    requires was != [] && |now| == |was|
  {
    forall i: nat | n <= i < |was| :: Stays(was, now, at, i)
  }

  predicate Stays(was: Bytes, now: Bytes, at: nat, i: nat)
    requires was != [] && |now| == |was|
  {
    now[Place(at + i, |was|)] == was[Place(at + i, |was|)]
  }

  /** `now` is `was` with `src` written where byte `at` of a stream goes. */
  predicate Wrote(was: Bytes, now: Bytes, at: nat, src: Bytes) {
    was != [] && |src| <= |was| && |now| == |was| && Holds(now, at, src) && Untouched(was, now, at, |src|)
  }

  /** A copy in two parts writes just that. */
  lemma {:induction false} SplicedWrote(was: Bytes, at: nat, src: Bytes)
    requires was != [] && |src| <= |was|
    ensures Wrote(was, Spliced(was, Place(at, |was|), src), at, src)
  {
    var start, c := Place(at, |was|), |was|;
    var now := Spliced(was, start, src);
    assert |now| == c;
    forall i: nat | i < |src| ensures Has(now, at, src, i) {
      PlaceOn(at, c, i);
      SplicedAt(was, start, src, i, Place(at + i, c));
    }
    forall i: nat | |src| <= i < c ensures Stays(was, now, at, i) {
      PlaceOn(at, c, i);
      SplicedAt(was, start, src, i, Place(at + i, c));
    }
  }

  lemma SplicedAt(was: Bytes, start: nat, src: Bytes, i: nat, p: nat)
    requires start < |was| && |src| <= |was| && i < |was|
    requires p == if start + i < |was| then start + i else start + i - |was|
    ensures |Spliced(was, start, src)| == |was|
    ensures Spliced(was, start, src)[p] == if i < |src| then src[i] else was[p]
  {
  }

  /** And one read in two parts is what is there. */
  lemma {:induction false} AroundHolds(data: Bytes, at: nat, count: nat)
    requires data != [] && count <= |data|
    ensures Holds(data, at, Around(data, Place(at, |data|), count))
  {
    var got := Around(data, Place(at, |data|), count);
    forall i: nat | i < |got| ensures Has(data, at, got, i) { PlaceOn(at, |data|, i); }
  }

  /** Bytes stored before the written ones, in the same round, stay. */
  lemma WroteAside(was: Bytes, now: Bytes, from: nat, bytes: Bytes, src: Bytes)
    requires Wrote(was, now, from + |bytes|, src) && |bytes| + |src| <= |was| && Holds(was, from, bytes)
    ensures Holds(now, from, bytes)
  {
    var c, at := |was|, from + |bytes|;
    forall i: nat | i < |bytes| ensures Has(now, from, bytes, i) {
      assert Has(was, from, bytes, i);
      var j := c - |bytes| + i;
      assert Stays(was, now, at, j);
      PlaceOn(from + i, c, c);
      assert at + j == from + i + c;
    }
  }

  lemma WroteAfter(was: Bytes, now: Bytes, from: nat, bytes: Bytes, src: Bytes)
    requires Wrote(was, now, from + |bytes|, src) && |bytes| + |src| <= |was| && Holds(was, from, bytes)
    ensures Holds(now, from, bytes + src)
  {
    WroteAside(was, now, from, bytes, src);
    HoldsAppend(now, from, bytes, src);
  }

  /** Where two counters point at the same slot they see the same bytes. */
  lemma {:induction false} HoldsFrom(data: Bytes, a: nat, b: nat, bytes: Bytes)
    requires data != [] && |bytes| <= |data| && Place(a, |data|) == Place(b, |data|) && Holds(data, a, bytes)
    ensures Holds(data, b, bytes)
  {
    forall i: nat | i < |bytes| ensures Has(data, b, bytes, i) {
      assert Has(data, a, bytes, i);
      PlaceOn(a, |data|, i);
      PlaceOn(b, |data|, i);
    }
  }

  lemma {:induction false} WroteFrom(was: Bytes, now: Bytes, a: nat, b: nat, src: Bytes)
    requires Wrote(was, now, a, src) && Place(a, |was|) == Place(b, |was|)
    ensures Wrote(was, now, b, src)
  {
    HoldsFrom(now, a, b, src);
    forall i: nat | |src| <= i < |was| ensures Stays(was, now, b, i) {
      assert Stays(was, now, a, i);
      PlaceOn(a, |was|, i);
      PlaceOn(b, |was|, i);
    }
  }

  /** What is held at a place is one thing. */
  lemma HoldsOnce(data: Bytes, at: nat, a: Bytes, b: Bytes)
    requires data != [] && Holds(data, at, a) && Holds(data, at, b) && |a| <= |b|
    ensures a == b[..|a|]
  {
    forall i: nat | i < |a| ensures a[i] == b[i] {
      assert Has(data, at, a, i) && Has(data, at, b, i);
    }
  }

  lemma {:induction false} StreamFront(contents: seq<Message>)
    requires contents != []
    ensures Stream(contents) == Frame(contents[0]) + Stream(contents[1..])
  {
    assert contents == [contents[0]] + contents[1..];
    StreamAppend([contents[0]], contents[1..]);
    StreamOne(contents[0]);
  }

  predicate AllWithin(contents: seq<Message>, max: nat) {
    forall i | 0 <= i < |contents| :: |contents[i]| <= max
  }

  /** The memory holds `contents`, after `base` bytes were ever taken out. */
  ghost predicate Laid(max: nat, data: Bytes, head: nat, tail: nat, base: nat, contents: seq<Message>) {
    && Geometry(|data|, max) && data != []
    && head == base % WRAP && tail == (base + |Stream(contents)|) % WRAP
    && |Stream(contents)| <= |data|
    && Holds(data, base, Stream(contents))
    && AllWithin(contents, max)
  }

  /** A counter points at its slot. */
  lemma {:induction false} CounterPlace(counter: nat, capacity: nat, max: nat)
    requires Geometry(capacity, max) && counter < WRAP
    ensures capacity > 0 && Slot(counter, capacity) == Place(counter, capacity)
  {
    SlotOf(counter, capacity, max);
    RemainderIs(counter, WRAP, 0, counter);
  }

  /** A counter that wrapped points where the byte it counts goes. */
  lemma {:induction false} SamePlace(counter: nat, a: nat, capacity: nat, max: nat)
    requires Geometry(capacity, max) && counter == a % WRAP
    ensures capacity > 0 && Place(counter, capacity) == Place(a, capacity)
  {
    SlotOf(a, capacity, max);
    CounterPlace(counter, capacity, max);
  }

  /** Both parts of a message are stored after what was stored before. */
  lemma BothWritten(max: nat, base: nat, bytes: Bytes, tail: nat, was: Bytes, once: Bytes, now: Bytes, length: Bytes,
                    payload: Bytes)
    requires Geometry(|was|, max) && was != [] && Holds(was, base, bytes) && |bytes| + |length| + |payload| <= |was|
    requires tail == (base + |bytes|) % WRAP
    requires Wrote(was, once, tail, length) && Wrote(once, now, WrappingAdd(tail, |length|), payload)
    ensures Holds(now, base, bytes + length + payload)
  {
    var end := base + |bytes|;
    AddWraps(end, |length|);
    SamePlace(tail, end, |was|, max);
    SamePlace(WrappingAdd(tail, |length|), end + |length|, |was|, max);
    WroteFrom(was, once, tail, end, length);
    WroteFrom(once, now, WrappingAdd(tail, |length|), end + |length|, payload);
    WroteAfter(was, once, base, bytes, length);
    WroteAfter(once, now, base, bytes + length, payload);
  }

  lemma {:induction false} Written(max: nat, head: nat, tail: nat, base: nat, contents: seq<Message>, was: Bytes,
                                    once: Bytes, now: Bytes, payload: Message)
    requires Laid(max, was, head, tail, base, contents) && |payload| <= max
    requires |Stream(contents)| + LENGTH_PREFIX + |payload| <= |was|
    requires Wrote(was, once, tail, Le32(|payload|))
    requires Wrote(once, now, WrappingAdd(tail, LENGTH_PREFIX), payload)
    ensures Laid(max, now, head, WrappingAdd(tail, LENGTH_PREFIX + |payload|), base, contents + [payload])
  {
    BothWritten(max, base, Stream(contents), tail, was, once, now, Le32(|payload|), payload);
    PushedStream(contents, payload);
    AddWraps(base + |Stream(contents)|, LENGTH_PREFIX + |payload|);
  }

  lemma {:induction false} PushedStream(contents: seq<Message>, payload: Message)
    ensures Stream(contents + [payload]) == Stream(contents) + Le32(|payload|) + payload
    ensures |Stream(contents + [payload])| == |Stream(contents)| + LENGTH_PREFIX + |payload|
  {
    assert Init(contents + [payload]) == contents;
    Assoc(Stream(contents), Le32(|payload|), payload);
  }

  /** The bytes after the next message's length are the message. */
  lemma {:induction false} MessageRead(data: Bytes, base: nat, contents: seq<Message>, got: Bytes)
    requires data != [] && contents != [] && Holds(data, base, Stream(contents)) && |got| == |contents[0]|
    requires Holds(data, base + LENGTH_PREFIX, got)
    ensures got == contents[0]
  {
    var bytes := Stream(contents);
    StreamFront(contents);
    HoldsLater(data, base, bytes, LENGTH_PREFIX);
    HoldsOnce(data, base + LENGTH_PREFIX, got, bytes[LENGTH_PREFIX..]);
    AfterFirst(Le32(|contents[0]|), contents[0], Stream(contents[1..]));
    assert (contents[0] + Stream(contents[1..]))[..|got|] == contents[0];
  }

  lemma AfterFirst(a: Bytes, b: Bytes, c: Bytes)
    ensures (a + b + c)[|a|..] == b + c
  {
  }

  /** Once it is taken, the rest is still stored. */
  lemma Taken(max: nat, data: Bytes, head: nat, tail: nat, base: nat, contents: seq<Message>, k: nat)
    requires Laid(max, data, head, tail, base, contents) && contents != [] && k == |Frame(contents[0])|
    ensures Laid(max, data, WrappingAdd(head, k), tail, base + k, contents[1..])
  {
    var bytes := Stream(contents);
    StreamFront(contents);
    AddWraps(base, k);
    HoldsLater(data, base, bytes, k);
    assert bytes[k..] == Stream(contents[1..]);
  }

  /** Copying from after the length takes the message out. */
  lemma TakenOut(max: nat, data: Bytes, head: nat, tail: nat, base: nat, contents: seq<Message>, got: Bytes)
    requires Laid(max, data, head, tail, base, contents) && contents != [] && |got| == |contents[0]| <= |data|
    requires Holds(data, WrappingAdd(head, LENGTH_PREFIX), got)
    ensures got == contents[0]
    ensures Laid(max, data, WrappingAdd(head, LENGTH_PREFIX + |got|), tail, base + LENGTH_PREFIX + |got|, contents[1..])
  {
    AddWraps(base, LENGTH_PREFIX);
    SamePlace(WrappingAdd(head, LENGTH_PREFIX), base + LENGTH_PREFIX, |data|, max);
    HoldsFrom(data, WrappingAdd(head, LENGTH_PREFIX), base + LENGTH_PREFIX, got);
    MessageRead(data, base, contents, got);
    Taken(max, data, head, tail, base, contents, LENGTH_PREFIX + |got|);
  }

  /** The first bytes are the length of the next message. */
  lemma Prefixed(max: nat, data: Bytes, head: nat, tail: nat, base: nat, contents: seq<Message>, got: Bytes)
    requires Laid(max, data, head, tail, base, contents) && contents != []
    requires |got| == LENGTH_PREFIX <= |data| && Holds(data, head, got)
    ensures FromLe32(got) == |contents[0]|
  {
    SamePlace(head, base, |data|, max);
    HoldsFrom(data, head, base, got);
    StreamFront(contents);
    HoldsOnce(data, base, got, Stream(contents));
    assert Stream(contents)[..LENGTH_PREFIX] == Le32(|contents[0]|);
    LittleEndianBack(|contents[0]|);
  }

  /** Why a message of `length` bytes cannot be pushed now, if it cannot. */
  function Refusal(max: nat, capacity: nat, head: nat, tail: nat, length: nat): Option<PushError>
    requires head < WRAP
  {
    var used := WrappingSub(tail, head);
    if length > max then Some(TooLarge(length, max))
    else if used > capacity then Some(PushCorrupt)
    else if LENGTH_PREFIX + length > capacity - used then Some(Full)
    else None
  }

  lemma {:induction false} UsedBytes(max: nat, data: Bytes, head: nat, tail: nat, base: nat, contents: seq<Message>)
    requires Laid(max, data, head, tail, base, contents)
    ensures head < WRAP && tail < WRAP && WrappingSub(tail, head) == |Stream(contents)| <= |data|
  {
    CapacityDivides(|data|, max);
    Distance(base + |Stream(contents)|, base);
  }

  /** What a sound ring says of a message it has not. */
  function PopSpec(contents: seq<Message>, have: nat): F.Result<Option<nat>, PopError> {
    if contents == [] then F.Ok(None)
    else if have < |contents[0]| then F.Err(BufferTooSmall(have, |contents[0]|))
    else F.Ok(Some(|contents[0]|))
  }

  /** What can be said before a message is copied, once its length is read. */
  function Verdict(max: nat, capacity: nat, available: nat, length: nat, have: nat): F.Result<Option<nat>, PopError> {
    if available == 0 then F.Ok(None)
    else if available < LENGTH_PREFIX || available > capacity then F.Err(PopCorrupt)
    else if length > max || available < LENGTH_PREFIX + length then F.Err(PopCorrupt)
    else if have < length then F.Err(BufferTooSmall(have, length))
    else F.Ok(Some(length))
  }

  lemma VerdictIs(max: nat, data: Bytes, head: nat, tail: nat, base: nat, contents: seq<Message>, length: nat,
                  have: nat)
    requires Laid(max, data, head, tail, base, contents) && (contents != [] ==> length == |contents[0]|)
    ensures head < WRAP
    ensures Verdict(max, |data|, WrappingSub(tail, head), length, have) == PopSpec(contents, have)
  {
    UsedBytes(max, data, head, tail, base, contents);
    if contents != [] { StreamFront(contents); }
  }

  class Buffer {
    const maxMessage: nat
    const data: array<Byte>
    var head: nat
    var tail: nat
    /** Bytes ever taken out, and the messages in the ring. */
    ghost var base: nat
    ghost var contents: seq<Message>

    ghost predicate Valid()
      reads this, data
    {
      Laid(maxMessage, data[..], head, tail, base, contents)
    }

    /** What `push` may take for granted, whatever the other side wrote. */
    ghost predicate Mapped()
      reads this
    {
      Geometry(data.Length, maxMessage) && data.Length > 0 && head < WRAP && tail < WRAP
    }

    constructor (capacity: nat, max: nat)
      requires Geometry(capacity, max)
      ensures Valid() && contents == [] && data.Length == capacity && maxMessage == max
    {
      CapacityDivides(capacity, max);
      data := new Byte[capacity];
      maxMessage, head, tail, base, contents := max, 0, 0, 0, [];
    }

    /** Copies `src` to where the buffer has room for it in one piece. */
    method CopyIn(start: nat, src: Bytes)
      requires start + |src| <= data.Length
      modifies data
      ensures data[..] == old(data[..start]) + src + old(data[start + |src|..])
    {
      var i := 0;
      while i < |src|
        invariant 0 <= i <= |src|
        invariant data[..start] == old(data[..start]) && data[start + i..] == old(data[start + i..])
        invariant data[start..start + i] == src[..i]
      {
        data[start + i] := src[i];
        i := i + 1;
        assert data[start..start + i] == data[start..start + i - 1] + [src[i - 1]];
        assert data[start + i..] == old(data[start + i - 1..])[1..];
      }
      assert data[..] == data[..start] + data[start..start + i] + data[start + i..];
    }

    /** Copies `src` in at counter `at`, in up to two parts. */
    method WriteWrapping(at: nat, src: Bytes)
      requires data.Length > 0 && |src| <= data.Length && Slot(at, data.Length) < data.Length
      modifies data
      ensures data[..] == Spliced(old(data[..]), Slot(at, data.Length), src)
    {
      var start: nat := Slot(at, data.Length);
      var first := if |src| < data.Length - start then |src| else data.Length - start;
      CopyIn(start, src[..first]);
      if first < |src| {
        CopyIn(0, src[first..]);
      }
    }

    /** Copies the `count` bytes from `start` on into `out` at `place`. */
    method CopyTo(start: nat, out: array<Byte>, place: nat, count: nat)
      requires start + count <= data.Length && place + count <= out.Length && out != data
      modifies out
      ensures out[..] == old(out[..place]) + data[start..start + count] + old(out[place + count..])
    {
      var i := 0;
      while i < count
        invariant 0 <= i <= count
        invariant out[..place] == old(out[..place]) && out[place + i..] == old(out[place + i..])
        invariant out[place..place + i] == data[start..start + i]
      {
        out[place + i] := data[start + i];
        i := i + 1;
        assert out[place..place + i] == out[place..place + i - 1] + [data[start + i - 1]];
        assert out[place + i..] == old(out[place + i - 1..])[1..];
      }
      assert out[..] == out[..place] + out[place..place + i] + out[place + i..];
    }

    /** Copies bytes out from counter `at` into the front of `out`, in up to two
        parts. */
    method ReadWrapping(at: nat, out: array<Byte>, count: nat)
      requires data.Length > 0 && count <= data.Length && Slot(at, data.Length) < data.Length
      requires count <= out.Length && out != data
      modifies out
      ensures out[..count] == Around(data[..], Slot(at, data.Length), count)
      ensures out[count..] == old(out[count..])
    {
      var start: nat := Slot(at, data.Length);
      var first := if count < data.Length - start then count else data.Length - start;
      CopyTo(start, out, 0, first);
      if first < count {
        CopyTo(0, out, first, count - first);
      }
      TwoParts(old(out[..]), out[..], data[..], start, first, count);
    }

    /** Appends one message. A counter that claims more than the ring holds is
        reported and nothing is written; a sound ring never reports one. */
    method Push(payload: Bytes) returns (error: Option<PushError>)
      requires Mapped()
      modifies this`tail, this`contents, data
      ensures error == Refusal(maxMessage, data.Length, head, old(tail), |payload|)
      ensures error.Some? ==> data[..] == old(data[..]) && tail == old(tail) && contents == old(contents)
      ensures error == None ==> |payload| <= maxMessage && contents == old(contents) + [payload]
      ensures old(Valid())
              ==> && Valid()
                  && error == if |payload| > maxMessage then Some(TooLarge(|payload|, maxMessage))
                              else if |Stream(old(contents))| + LENGTH_PREFIX + |payload| > data.Length then Some(Full)
                              else None
    {
      if Valid() { UsedBytes(maxMessage, data[..], head, tail, base, contents); }
      if |payload| > maxMessage {
        return Some(TooLarge(|payload|, maxMessage));
      }
      var need := LENGTH_PREFIX + |payload|;
      var used := WrappingSub(tail, head);
      if used > data.Length {
        return Some(PushCorrupt);
      }
      if need > data.Length - used {
        return Some(Full);
      }
      CapacityDivides(data.Length, maxMessage);
      Publish(payload);
      error := None;
    }

    /** Writes a message where there is room for it, and moves the tail past it. */
    method Publish(payload: Message)
      requires Mapped() && |payload| <= maxMessage
      modifies this`tail, this`contents, data
      ensures contents == old(contents) + [payload]
      ensures old(Valid()) && |Stream(old(contents))| + LENGTH_PREFIX + |payload| <= data.Length ==> Valid()
    {
      ghost var once := WriteFrame(payload);
      if old(Valid()) && |Stream(contents)| + LENGTH_PREFIX + |payload| <= data.Length {
        Written(maxMessage, head, tail, base, contents, old(data[..]), once, data[..], payload);
      }
      tail := WrappingAdd(tail, LENGTH_PREFIX + |payload|);
      contents := contents + [payload];
    }

    /** Writes a message's length and then the message. */
    method WriteFrame(payload: Message) returns (ghost once: Bytes)
      requires Mapped() && LENGTH_PREFIX + |payload| <= data.Length
      modifies data
      ensures Wrote(old(data[..]), once, tail, Le32(|payload|))
      ensures Wrote(once, data[..], WrappingAdd(tail, LENGTH_PREFIX), payload)
    {
      WriteAt(tail, Le32(|payload|));
      once := data[..];
      WriteAt(WrappingAdd(tail, LENGTH_PREFIX), payload);
    }

    /** Copies out `count` bytes from where the counter points. */
    method ReadAt(counter: nat, out: array<Byte>, count: nat)
      requires Mapped() && counter < WRAP && count <= data.Length && count <= out.Length && out != data
      modifies out
      ensures Holds(data[..], counter, out[..count]) && out[count..] == old(out[count..])
    {
      CounterPlace(counter, data.Length, maxMessage);
      ReadWrapping(counter, out, count);
      AroundHolds(data[..], counter, count);
    }

    /** Copies `src` to where the counter points. */
    method WriteAt(counter: nat, src: Bytes)
      requires Mapped() && counter < WRAP && |src| <= data.Length
      modifies data
      ensures Wrote(old(data[..]), data[..], counter, src)
    {
      CounterPlace(counter, data.Length, maxMessage);
      SplicedWrote(data[..], counter, src);
      WriteWrapping(counter, src);
    }

    /** The length of the next message, if there is one that makes sense. */
    method PeekLen() returns (length: Option<nat>)
      requires Mapped()
      ensures length.Some? ==> length.value <= maxMessage
      ensures Valid() ==> length == if contents == [] then None else Some(|contents[0]|)
    {
      CapacityDivides(data.Length, maxMessage);
      if Valid() { Distance(base + |Stream(contents)|, base); }
      var available := WrappingSub(tail, head);
      if available < LENGTH_PREFIX || available > data.Length {
        if Valid() && contents != [] { StreamFront(contents); }
        return None;
      }
      var len := ReadLength();
      return if len <= maxMessage then Some(len) else None;
    }

    method ReadLength() returns (len: nat)
      requires Mapped() && data.Length >= LENGTH_PREFIX
      ensures len < WRAP
      ensures Valid() && contents != [] ==> len == |contents[0]|
    {
      var prefix := new Byte[LENGTH_PREFIX];
      ReadAt(head, prefix, LENGTH_PREFIX);
      len := FromLe32(prefix[..LENGTH_PREFIX]);
      if Valid() && contents != [] {
        Prefixed(maxMessage, data[..], head, tail, base, contents, prefix[..LENGTH_PREFIX]);
      }
    }

    /** Takes the next message out into `out`. */
    method PopInto(out: array<Byte>) returns (result: F.Result<Option<nat>, PopError>)
      requires Mapped() && out != data
      modifies this`head, this`base, this`contents, out
      ensures !(result.Ok? && result.value.Some?)
              ==> head == old(head) && contents == old(contents) && out[..] == old(out[..]) && base == old(base)
      ensures old(Valid()) ==> Valid() && result == PopSpec(old(contents), out.Length)
      ensures old(Valid()) && result.Ok? && result.value.Some?
              ==> contents == old(contents)[1..] && out[..|old(contents)[0]|] == old(contents)[0]
    {
      var available := WrappingSub(tail, head);
      if available == 0 {
        if Valid() { VerdictIs(maxMessage, data[..], head, tail, base, contents, Next(), out.Length); }
        return F.Ok(None);
      }
      if available < LENGTH_PREFIX || available > data.Length {
        if Valid() { VerdictIs(maxMessage, data[..], head, tail, base, contents, Next(), out.Length); }
        return F.Err(PopCorrupt);
      }
      var len := ReadLength();
      if Valid() { VerdictIs(maxMessage, data[..], head, tail, base, contents, len, out.Length); }
      if len > maxMessage || available < LENGTH_PREFIX + len {
        return F.Err(PopCorrupt);
      }
      if out.Length < len {
        return F.Err(BufferTooSmall(out.Length, len));
      }
      CopyOut(out, len);
      result := F.Ok(Some(len));
    }

    /** The length of the first message, or nothing. */
    ghost function Next(): nat
      reads this
    {
      if contents == [] then 0 else |contents[0]|
    }

    /** Copies the next message out and moves the head past it. */
    method CopyOut(out: array<Byte>, len: nat)
      requires Mapped() && out != data && len <= out.Length && len <= data.Length
      requires Valid() && contents != [] ==> len == |contents[0]|
      modifies this`head, this`base, this`contents, out
      ensures old(Valid()) && old(contents) != []
              ==> Valid() && contents == old(contents)[1..] && out[..len] == old(contents)[0]
    {
      ReadAt(WrappingAdd(head, LENGTH_PREFIX), out, len);
      if old(Valid()) && contents != [] {
        TakenOut(maxMessage, data[..], head, tail, base, contents, out[..len]);
      }
      head := WrappingAdd(head, LENGTH_PREFIX + len);
      base := base + LENGTH_PREFIX + len;
      contents := if contents == [] then [] else contents[1..];
    }
  }
}

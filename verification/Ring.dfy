/**
The shared-memory ring (crates/tpf3mp-ipc/src/ring.rs): length-prefixed messages
in a byte buffer between one producer and one consumer, whose 32-bit counters
run freely and wrap.

What a ring holds is laid out over a stream that never wraps: byte `a` of
everything ever pushed is at slot `a % capacity`.
*/
module Ring {
  import opened Protocol
  import opened Words

  const LENGTH_PREFIX: nat := 4

  type Message = m: Bytes | |m| < 0x1_0000_0000 witness []

  datatype PushError = Full | TooLarge(len: nat, max: nat) | PushCorrupt

  datatype PopError = PopCorrupt | BufferTooSmall(have: nat, needed: nat)

  /** What the memory is made with: a power of two up to 2^31, with room for the
      largest message and its length. */
  ghost predicate Geometry(capacity: nat, maxMessage: nat) {
    (exists k: nat | k <= 31 :: capacity == Pow2(k)) && maxMessage + LENGTH_PREFIX <= capacity
  }

  function Frame(m: Message): Bytes {
    Le32(|m|) + m
  }

  /** Messages as the bytes they are sent as. */
  function Stream(messages: seq<Message>): Bytes
    decreases |messages|
  {
    if messages == [] then [] else Stream(Init(messages)) + Frame(Last(messages))
  }

  /** The slot a counter points at. */
  function Slot(at: nat, capacity: nat): nat
    requires capacity > 0
  {
    And(at, capacity - 1)
  }

  /** From byte `from` on, the buffer holds `bytes`, wrapping at its end. */
  predicate Holds(data: Bytes, from: nat, bytes: Bytes)
    requires data != []
  {
    forall i: nat | i < |bytes| :: Has(data, from, bytes, i)
  }

  predicate Has(data: Bytes, from: nat, bytes: Bytes, i: nat)
    requires data != [] && i < |bytes|
  {
    data[Place(from + i, |data|)] == bytes[i]
  }

  // ----- slots

  lemma CapacityDivides(capacity: nat, maxMessage: nat)
    requires Geometry(capacity, maxMessage)
    ensures 0 < capacity < WRAP && exists m: nat | m > 0 :: WRAP == capacity * m
  {
    var k: nat :| k <= 31 && capacity == Pow2(k);
    var m := Pow2(32 - k);
    Pow2Divides(k, 32);
    WrapIsPow2();
    Pow2Positive(k);
    Pow2Positive(31 - k);
    assert m >= 2;
    LessThanMultiple(capacity, m);
  }

  lemma LessThanMultiple(c: nat, m: nat)
    requires c > 0 && m >= 2
    ensures c < c * m
  {
    AtLeast(c, m - 1);
    assert c * m == c * (m - 1) + c;
  }

  lemma WrapIsPow2()
    ensures Pow2(32) == WRAP
  {
    assert Pow2(8) == 256;
    Pow2Divides(8, 16);
    Pow2Divides(16, 32);
  }

  /** A wrapped counter points at the slot of the byte it counts. */
  lemma {:induction false} SlotOf(a: nat, capacity: nat, maxMessage: nat)
    requires Geometry(capacity, maxMessage)
    ensures capacity > 0 && Slot(a % WRAP, capacity) == Place(a, capacity)
  {
    CapacityDivides(capacity, maxMessage);
    var k: nat :| k <= 31 && capacity == Pow2(k);
    MaskIsRemainder(a % WRAP, k);
    var m: nat :| m > 0 && WRAP == capacity * m;
    RemainderOfRemainder(a, capacity, m);
    PlaceIs(a, capacity);
  }

  lemma {:induction false} StreamAppend(a: seq<Message>, b: seq<Message>)
    ensures Stream(a + b) == Stream(a) + Stream(b)
    decreases |b|
  {
    if b == [] {
      assert a + b == a;
    } else {
      StreamAppend(a, Init(b));
      assert Init(a + b) == a + Init(b) && Last(a + b) == Last(b);
      Assoc(Stream(a), Stream(Init(b)), Frame(Last(b)));
    }
  }

  lemma StreamOne(m: Message)
    ensures Stream([m]) == Frame(m)
  {
    assert Init([m]) == [];
  }

  /** What follows the first `n` messages starts with the next one's frame. */
  lemma {:induction false} StreamNext(messages: seq<Message>, n: nat, seen: nat)
    requires n < seen <= |messages|
    ensures |Stream(messages[..n])| + |Frame(messages[n])| <= |Stream(messages[..seen])| <= |Stream(messages)|
    ensures Stream(messages)[|Stream(messages[..n])|..|Stream(messages[..n])| + |Frame(messages[n])|]
            == Frame(messages[n])
  {
    var before, m, between, rest := messages[..n], messages[n], messages[n + 1..seen], messages[seen..];
    assert messages[..seen] == before + ([m] + between);
    assert messages == before + ([m] + between) + rest;
    StreamOne(m);
    StreamAppend([m], between);
    StreamAppend(before, [m] + between);
    StreamAppend(messages[..seen], rest);
  }

  /** Writing where nothing is stored leaves what is stored. */
  lemma {:induction false} WriteAside(data: Bytes, from: nat, bytes: Bytes, at: nat, b: Byte)
    requires data != [] && from + |bytes| <= at < from + |data| && Holds(data, from, bytes)
    ensures Holds(data[Place(at, |data|) := b], from, bytes)
  {
    var q := data[Place(at, |data|) := b];
    forall i: nat | i < |bytes| ensures Has(q, from, bytes, i) {
      assert Has(data, from, bytes, i);
      Apart(at, from + i, |data|);
    }
  }

  lemma HoldsAppend(data: Bytes, from: nat, a: Bytes, b: Bytes)
    requires data != [] && Holds(data, from, a) && Holds(data, from + |a|, b)
    ensures Holds(data, from, a + b)
  {
    forall i: nat | i < |a + b| ensures Has(data, from, a + b, i) {
      if i < |a| {
        assert Has(data, from, a, i);
      } else {
        assert Has(data, from + |a|, b, i - |a|);
        assert from + i == from + |a| + (i - |a|);
      }
    }
  }

  lemma HoldsLater(data: Bytes, from: nat, bytes: Bytes, k: nat)
    requires data != [] && Holds(data, from, bytes) && k <= |bytes|
    ensures Holds(data, from + k, bytes[k..])
  {
    var later, at := bytes[k..], from + k;
    forall i: nat | i < |later| ensures Has(data, at, later, i) {
      assert Has(data, from, bytes, k + i);
      assert from + k + i == from + (k + i);
    }
  }
}

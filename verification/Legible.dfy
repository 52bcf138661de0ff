/**
Which logs a room can be rebuilt from, for any records whatever, not only those a
room writes (`Room::recover` in crates/tpf3mp-server/src/room.rs).

A log is read if and only if every record stands where the turns before it end:
turns, events and frontiers go on without a gap, markers name the place they
stand at, and the turns a compacted log repeats end exactly where its base says.
*/
module Legible {
  import opened Protocol
  import opened Sequencer
  import opened Recovery
  import opened Server
  import Streams

  /** Where a log's first record stands. */
  function Start(base: Option<Base>): Cursor {
    match base
    case None => Origin
    case Some(b) => Cursor(b.firstTurn, b.firstEvent, b.sealedBefore)
  }

  /** Where the record at `i` stands, of a log that starts at `at`. */
  function Place(at: Cursor, records: seq<Record>, i: nat): Cursor
    requires i <= |records|
  {
    Run(at, TurnsIn(records[..i]))
  }

  /** All the turns a base covers were read. */
  predicate Covered(at: Cursor, base: Option<Base>) {
    base.Some? ==> at.turn > base.value.afterTurn
  }

  /** A record that may stand at `at`. */
  predicate Belongs(at: Cursor, record: Record, base: Option<Base>) {
    match record
    case Sealed(turn) =>
      && turn.number == at.turn && InSequence(turn.events, at.event)
      && at.sealed <= turn.sealedThrough <= MAX_FRONTIER
    case Marker(_, nextTurn, nextEvent) => nextTurn == at.turn && nextEvent == at.event && Covered(at, base)
  }

  predicate BelongsAt(at: Cursor, records: seq<Record>, base: Option<Base>, i: nat)
    requires i < |records|
  {
    Belongs(Place(at, records, i), records[i], base)
  }

  ghost predicate AllBelong(at: Cursor, records: seq<Record>, base: Option<Base>) {
    forall i: nat | i < |records| :: BelongsAt(at, records, base, i)
  }

  /** The cursor at the `k`th record is the one the base was written at. */
  predicate MeetsAt(at: Cursor, records: seq<Record>, base: Base, k: nat) {
    k <= |records| && Place(at, records, k) == Cursor(base.afterTurn + 1, base.nextEvent, base.sealedThrough)
  }

  ghost predicate Met(at: Cursor, records: seq<Record>, base: Option<Base>) {
    base.Some? ==> exists k: nat :: MeetsAt(at, records, base.value, k)
  }

  ghost predicate Readable(at: Cursor, records: seq<Record>, base: Option<Base>) {
    AllBelong(at, records, base) && Covered(Place(at, records, |records|), base) && Met(at, records, base)
  }

  // ----- the records after the first

  function Turned(record: Record): seq<Turn> {
    if record.Sealed? then [record.turn] else []
  }

  lemma {:induction false} TurnsAfterFirst(record: Record, rest: seq<Record>)
    ensures TurnsIn([record] + rest) == Turned(record) + TurnsIn(rest)
    decreases |rest|
  {
    var all := [record] + rest;
    if rest == [] {
      assert Init(all) == [];
    } else {
      assert Init(all) == [record] + Init(rest) && Last(all) == Last(rest);
      TurnsAfterFirst(record, Init(rest));
      Assoc(Turned(record), TurnsIn(Init(rest)), Turned(Last(rest)));
    }
  }

  lemma {:induction false} PlaceLater(at: Cursor, records: seq<Record>, i: nat)
    requires records != [] && i < |records|
    ensures Place(at, records, i + 1) == Place(Run(at, Turned(records[0])), records[1..], i)
  {
    var rest := records[1..][..i];
    assert records[..i + 1] == [records[0]] + rest;
    TurnsAfterFirst(records[0], rest);
    RunAppend(at, Turned(records[0]), TurnsIn(rest));
  }

  lemma PlaceFirst(at: Cursor, records: seq<Record>)
    ensures Place(at, records, 0) == at
  {
    assert records[..0] == [];
  }

  lemma BelongLater(at: Cursor, records: seq<Record>, base: Option<Base>)
    requires records != []
    ensures AllBelong(at, records, base)
            <==> Belongs(at, records[0], base) && AllBelong(Run(at, Turned(records[0])), records[1..], base)
  {
    var next, rest := Run(at, Turned(records[0])), records[1..];
    PlaceFirst(at, records);
    assert BelongsAt(at, records, base, 0) <==> Belongs(at, records[0], base);
    forall i: nat | i < |rest| ensures BelongsAt(at, records, base, i + 1) <==> BelongsAt(next, rest, base, i) {
      PlaceLater(at, records, i);
    }
    if Belongs(at, records[0], base) && AllBelong(next, rest, base) {
      forall i: nat | i < |records| ensures BelongsAt(at, records, base, i) {
        if i > 0 { assert BelongsAt(next, rest, base, i - 1); }
      }
    }
    if AllBelong(at, records, base) {
      forall i: nat | i < |rest| ensures BelongsAt(next, rest, base, i) {
        assert BelongsAt(at, records, base, i + 1);
      }
    }
  }

  lemma MetLater(at: Cursor, records: seq<Record>, base: Base)
    requires records != [] && at.turn <= base.afterTurn
    ensures Met(at, records, Some(base)) <==> Met(Run(at, Turned(records[0])), records[1..], Some(base))
  {
    var next, rest := Run(at, Turned(records[0])), records[1..];
    PlaceFirst(at, records);
    if k: nat :| MeetsAt(at, records, base, k) {
      PlaceLater(at, records, k - 1);
      assert MeetsAt(next, rest, base, k - 1);
    }
    if k: nat :| MeetsAt(next, rest, base, k) {
      PlaceLater(at, records, k);
      assert MeetsAt(at, records, base, k + 1);
    }
  }

  /** Once past the base, only the place itself can be the base's. */
  lemma MetHere(at: Cursor, records: seq<Record>, base: Base)
    requires at.turn == base.afterTurn + 1
    ensures Met(at, records, Some(base)) <==> at == Cursor(base.afterTurn + 1, base.nextEvent, base.sealedThrough)
  {
    PlaceFirst(at, records);
    if at == Cursor(base.afterTurn + 1, base.nextEvent, base.sealedThrough) {
      assert MeetsAt(at, records, base, 0);
    }
    if k: nat :| MeetsAt(at, records, base, k) {
      Streams.RunEvents(at, TurnsIn(records[..k]));
    }
  }

  // ----- replaying

  function CursorOf(g: GameState): Cursor {
    Cursor(g.nextTurn, g.nextEvent, g.sealedThrough)
  }

  lemma Moves<S>(rules: Rules<S>, room: RoomState<S>, record: Record, based: bool, length: FrameLength)
    ensures var at := CursorOf(room.game);
            match record
            case Sealed(turn) => CursorOf(Reread(rules, room, turn, based, length).game) == Run(at, Turned(record))
            case Marker(id, _, _) => CursorOf(BeginHistory(room.game, id)) == Run(at, Turned(record))
  {
    if record.Sealed? { assert Init([record.turn]) == []; }
  }

  /** What is left of a log to read, `based` once the base's turns were. */
  ghost predicate Goes(at: Cursor, records: seq<Record>, base: Option<Base>, based: bool) {
    && AllBelong(at, records, base) && Covered(Place(at, records, |records|), base)
    && (!based ==> Met(at, records, base))
  }

  predicate Sensible(at: Cursor, base: Option<Base>, based: bool) {
    if based then Covered(at, base) else base.Some? && at.turn <= base.value.afterTurn + 1
  }

  lemma GoesEmpty(at: Cursor, base: Option<Base>, based: bool)
    requires Sensible(at, base, based)
    ensures var none: seq<Record> := [];
            Goes(at, none, base, based) <==> Covered(at, base) && (based || CursorMeets(at, base))
  {
    var none: seq<Record> := [];
    PlaceFirst(at, none);
    if !based && at.turn == base.value.afterTurn + 1 { MetHere(at, none, base.value); }
  }

  predicate CursorMeets(at: Cursor, base: Option<Base>) {
    base.Some? && at == Cursor(base.value.afterTurn + 1, base.value.nextEvent, base.value.sealedThrough)
  }

  /** One record further. */
  lemma GoesLater(at: Cursor, records: seq<Record>, base: Option<Base>, based: bool)
    requires records != [] && Sensible(at, base, based)
    ensures var now := based || Covered(at, base);
            var next := Run(at, Turned(records[0]));
            && (Belongs(at, records[0], base) ==> Sensible(next, base, now))
            && (Goes(at, records, base, based)
                <==> && (based || !Covered(at, base) || CursorMeets(at, base))
                     && Belongs(at, records[0], base) && Goes(next, records[1..], base, now))
  {
    BelongLater(at, records, base);
    PlaceLater(at, records, |records| - 1);
    Streams.RunEvents(at, Turned(records[0]));
    if !based {
      if Covered(at, base) { MetHere(at, records, base.value); } else { MetLater(at, records, base.value); }
    }
  }

  lemma {:induction false} ReplayExactly<S>(rules: Rules<S>, room: RoomState<S>, records: seq<Record>,
                                            base: Option<Base>, based: bool, index: nat, length: FrameLength)
    requires Sensible(CursorOf(room.game), base, based)
    ensures Replay(rules, room, records, base, based, index, length).Ok?
            <==> Goes(CursorOf(room.game), records, base, based)
    decreases |records|
  {
    var at := CursorOf(room.game);
    if records == [] {
      GoesEmpty(at, base, based);
    } else {
      var now := based || Past(room.game, base);
      GoesLater(at, records, base, based);
      if Belongs(at, records[0], base) {
        Moves(rules, room, records[0], now, length);
        match records[0]
        case Marker(id, _, _) =>
          ReplayExactly(rules, room.(game := BeginHistory(room.game, id)), records[1..], base, now, index + 1, length);
        case Sealed(turn) =>
          ReplayExactly(rules, Reread(rules, room, turn, now, length), records[1..], base, now, index + 1, length);
      }
    }
  }

  /** A log is read exactly if its base could have been written, the rules know its
      save, and every record stands where it belongs. */
  lemma RecoversExactly<S>(rules: Rules<S>, start: StartRecord, records: seq<Record>, length: FrameLength)
    ensures Recover(rules, start, records, length).Ok?
            <==> Open(rules, start).Ok? && Readable(Start(start.base), records, start.base)
  {
    if Open(rules, start).Ok? {
      var room := Open(rules, start).value;
      ReplayExactly(rules, room, records, start.base, start.base.None?, 0, length);
    }
  }
}

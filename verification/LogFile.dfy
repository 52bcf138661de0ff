/**
A room's log as bytes in a file (crates/tpf3mp-server/src/persist.rs): appending
records, reading them back, and what is left of them when a write was cut short.

The checksum is any function from a payload to a 32-bit word.
*/
module LogFile {
  import opened Protocol
  import opened Words
  import F = Follower

  const HEADER: nat := 8
  const MAX_START_RECORD: nat := 16 * 1024 * 1024
  const MAX_RECORD: nat := 1024 * 1024 + 64
  const LOG_LIMIT: nat := 1024 * 1024 * 1024

  type Payload = p: Bytes | |p| < 0x1_0000_0000 witness []
  type Word = w: nat | w < 0x1_0000_0000
  type Checksum = Bytes -> Word

  datatype LogError = Damaged(offset: nat)

  /** The largest payload of a record that starts at `offset`. */
  function Limit(offset: nat): nat {
    if offset == 0 then MAX_START_RECORD else MAX_RECORD
  }

  function Record(crc: Checksum, payload: Payload): Bytes {
    Le32(|payload|) + Le32(crc(payload)) + payload
  }

  /** Every record could have been appended where it stands. */
  predicate Loggable(payloads: seq<Payload>) {
    forall i | 0 <= i < |payloads| :: |payloads[i]| <= if i == 0 then MAX_START_RECORD else MAX_RECORD
  }

  /** The file that appending `payloads` writes. */
  function File(crc: Checksum, payloads: seq<Payload>): Bytes
    decreases |payloads|
  {
    if payloads == [] then [] else File(crc, Init(payloads)) + Record(crc, Last(payloads))
  }

  // ----- appending

  datatype LogState = LogState(file: Bytes, written: nat)

  datatype AppendError = TooLong | LogFull

  function Append(crc: Checksum, log: LogState, payload: Bytes): F.Result<LogState, AppendError> {
    if |payload| > Limit(log.written) then F.Err(TooLong)
    else if log.written + HEADER + |payload| > LOG_LIMIT then F.Err(LogFull)
    else F.Ok(LogState(log.file + Record(crc, payload), log.written + HEADER + |payload|))
  }

  // ----- reading

  datatype ReaderState = ReaderState(file: Bytes, offset: nat, tornAt: Option<nat>)

  function Torn(r: ReaderState): (ReaderState, F.Result<Option<Payload>, LogError>) {
    if r.offset == 0 then (r, F.Err(Damaged(0))) else (r.(tornAt := Some(r.offset)), F.Ok(None))
  }

  function NextRecord(crc: Checksum, r: ReaderState): (ReaderState, F.Result<Option<Payload>, LogError>)
    requires r.offset <= |r.file|
  {
    if r.tornAt.Some? || r.offset == |r.file| then (r, F.Ok(None))
    else if |r.file| - r.offset < HEADER then Torn(r)
    else
      var length := FromLe32(r.file[r.offset..r.offset + 4]);
      var sum := FromLe32(r.file[r.offset + 4..r.offset + HEADER]);
      var end := r.offset + HEADER + length;
      if length > Limit(r.offset) then (r, F.Err(Damaged(r.offset)))
      else if end > |r.file| then Torn(r)
      else
        var payload := r.file[r.offset + HEADER..end];
        if crc(payload) != sum then if end == |r.file| then Torn(r) else (r, F.Err(Damaged(r.offset)))
        else (r.(offset := end), F.Ok(Some(payload)))
  }

  /** Records read, where the reader then stands, and what stopped it. */
  datatype Reading = Reading(records: seq<Payload>, end: ReaderState, error: Option<LogError>)

  /** All records from here to the end. */
  function ReadAll(crc: Checksum, r: ReaderState): Reading
    requires r.offset <= |r.file|
    decreases |r.file| - r.offset
  {
    var (next, record) := NextRecord(crc, r);
    match record
    case Err(error) => Reading([], next, Some(error))
    case Ok(None) => Reading([], next, None)
    case Ok(Some(payload)) =>
      var rest := ReadAll(crc, next);
      rest.(records := [payload] + rest.records)
  }

  /** The log to continue: cut to its last whole record. */
  function IntoLog(r: ReaderState): Option<LogState>
    requires r.offset <= |r.file|
  {
    if r.tornAt.None? && r.offset != |r.file| then None
    else Some(LogState(if r.tornAt.Some? then r.file[..r.offset] else r.file, r.offset))
  }

  // ----- any file at all

  /** A record read is the very bytes of the file there. */
  lemma RecordRead(crc: Checksum, r: ReaderState)
    requires r.offset <= |r.file|
    ensures var (next, record) := NextRecord(crc, r);
            && next.file == r.file && r.offset <= next.offset <= |r.file|
            && match record
               case Ok(Some(payload)) =>
                 && |payload| <= Limit(r.offset) && next == r.(offset := r.offset + HEADER + |payload|)
                 && r.file[r.offset..next.offset] == Record(crc, payload)
               case _ => next.offset == r.offset
  {
    var (next, record) := NextRecord(crc, r);
    if record.Ok? && record.value.Some? {
      var o := r.offset;
      Reencoded(crc, r.file[o..o + 4], r.file[o + 4..o + HEADER], record.value.value);
      ThreeParts(r.file, o, next.offset);
    }
  }

  lemma Reencoded(crc: Checksum, length: Bytes, sum: Bytes, payload: Payload)
    requires |length| == 4 && |sum| == 4 && FromLe32(length) == |payload| && FromLe32(sum) == crc(payload)
    ensures Record(crc, payload) == length + sum + payload
  {
    LittleEndianForth(length);
    LittleEndianForth(sum);
  }

  lemma ThreeParts(file: Bytes, o: nat, end: nat)
    requires o + HEADER <= end <= |file|
    ensures file[o..end] == file[o..o + 4] + file[o + 4..o + HEADER] + file[o + HEADER..end]
  {
  }

  lemma {:induction false} FilePush(crc: Checksum, payloads: seq<Payload>, payload: Payload)
    ensures File(crc, payloads + [payload]) == File(crc, payloads) + Record(crc, payload)
    ensures Loggable(payloads) && |payload| <= Limit(|File(crc, payloads)|) ==> Loggable(payloads + [payload])
  {
    assert Init(payloads + [payload]) == payloads;
  }

  /** Whatever a file holds, the records read are its first bytes, and reading
      changes nothing. */
  lemma {:induction false} ReadIsPrefix(crc: Checksum, r: ReaderState, done: seq<Payload>)
    requires r.offset <= |r.file| && Loggable(done) && File(crc, done) == r.file[..r.offset]
    ensures var read := ReadAll(crc, r);
            && read.end.file == r.file && read.end.offset <= |r.file| && Loggable(done + read.records)
            && File(crc, done + read.records) == r.file[..read.end.offset]
    decreases |r.file| - r.offset
  {
    RecordRead(crc, r);
    var (next, record) := NextRecord(crc, r);
    if record.Ok? && record.value.Some? {
      var payload := record.value.value;
      FilePush(crc, done, payload);
      assert r.file[..next.offset] == r.file[..r.offset] + r.file[r.offset..next.offset];
      ReadIsPrefix(crc, next, done + [payload]);
      Assoc(done, [payload], ReadAll(crc, next).records);
    } else {
      assert done + [] == done;
    }
  }

  // ----- a log cut short

  /** How long the first `k` records are. */
  function Size(crc: Checksum, payloads: seq<Payload>, k: nat): nat
    requires k <= |payloads|
  {
    |File(crc, payloads[..k])|
  }

  /** How many whole records there are before byte `n`. */
  function Whole(crc: Checksum, payloads: seq<Payload>, n: nat): (k: nat)
    ensures k <= |payloads|
    decreases |payloads|
  {
    if |File(crc, payloads)| <= n then |payloads| else Whole(crc, Init(payloads), n)
  }

  lemma SizeNext(crc: Checksum, payloads: seq<Payload>, k: nat)
    requires k < |payloads|
    ensures Size(crc, payloads, k + 1) == Size(crc, payloads, k) + HEADER + |payloads[k]|
    ensures File(crc, payloads[..k + 1]) == File(crc, payloads[..k]) + Record(crc, payloads[k])
  {
    assert payloads[..k + 1] == payloads[..k] + [payloads[k]];
    FilePush(crc, payloads[..k], payloads[k]);
  }

  lemma {:induction false} FileCut(crc: Checksum, payloads: seq<Payload>, k: nat, j: nat)
    requires k <= j <= |payloads|
    ensures File(crc, payloads[..k]) <= File(crc, payloads[..j])
    ensures k < j ==> Size(crc, payloads, k) < Size(crc, payloads, j)
    decreases j
  {
    if k < j {
      FileCut(crc, payloads, k, j - 1);
      SizeNext(crc, payloads, j - 1);
    }
  }

  lemma {:induction false} WholeFile(crc: Checksum, payloads: seq<Payload>)
    ensures File(crc, payloads[..|payloads|]) == File(crc, payloads)
    ensures Size(crc, payloads, |payloads|) == |File(crc, payloads)|
  {
    assert payloads[..|payloads|] == payloads;
  }

  /** A record's bytes are in the file where they should be. */
  lemma {:induction false} RecordAt(crc: Checksum, payloads: seq<Payload>, j: nat)
    requires j < |payloads|
    ensures var o, end := Size(crc, payloads, j), Size(crc, payloads, j + 1);
            o <= end <= |File(crc, payloads)| && File(crc, payloads)[o..end] == Record(crc, payloads[j])
  {
    var o, end, whole := Size(crc, payloads, j), Size(crc, payloads, j + 1), File(crc, payloads);
    SizeNext(crc, payloads, j);
    FileCut(crc, payloads, j + 1, |payloads|);
    WholeFile(crc, payloads);
    assert whole[..end] == File(crc, payloads[..j + 1]);
    assert whole[o..end] == whole[..end][o..];
  }

  lemma LimitAt(crc: Checksum, payloads: seq<Payload>, j: nat)
    requires Loggable(payloads) && j < |payloads|
    ensures |payloads[j]| <= Limit(Size(crc, payloads, j)) && (j == 0 <==> Size(crc, payloads, j) == 0)
  {
    if j > 0 {
      FileCut(crc, payloads, 0, j);
    } else {
      assert payloads[..0] == [];
    }
  }

  lemma HeaderAt(crc: Checksum, record: Bytes, payload: Payload)
    requires record == Record(crc, payload)
    ensures |record| == HEADER + |payload|
    ensures FromLe32(record[..4]) == |payload| && FromLe32(record[4..HEADER]) == crc(payload)
    ensures record[HEADER..] == payload
  {
    assert record[..4] == Le32(|payload|) && record[4..HEADER] == Le32(crc(payload));
    LittleEndianBack(|payload|);
    LittleEndianBack(crc(payload));
  }

  /** Where a file goes on with a record, they have the record's parts in common. */
  lemma SharedPart(file: Bytes, o: nat, record: Bytes, i: nat, j: nat)
    requires o <= |file| && (file[o..] <= record || record <= file[o..])
    requires i <= j <= |record| && o + j <= |file|
    ensures file[o + i..o + j] == record[i..j]
  {
    forall k | i <= k < j ensures file[o + k] == record[k] {
      assert file[o..][k] == file[o + k];
    }
  }

  /** Reading a record whose bytes follow, whole or cut. */
  lemma ReadsRecord(crc: Checksum, r: ReaderState, record: Bytes, payload: Payload, end: nat)
    requires r.offset < |r.file| && r.tornAt.None? && record == Record(crc, payload) && |payload| <= Limit(r.offset)
    requires r.file[r.offset..] <= record || record <= r.file[r.offset..]
    requires end == r.offset + HEADER + |payload|
    ensures end <= |r.file| ==> NextRecord(crc, r) == (r.(offset := end), F.Ok(Some(payload)))
    ensures end > |r.file| ==> NextRecord(crc, r) == Torn(r)
  {
    var o, file := r.offset, r.file;
    HeaderAt(crc, record, payload);
    if |file| - o >= HEADER {
      assert record[..4] == record[0..4] && record[HEADER..] == record[HEADER..|record|];
      SharedPart(file, o, record, 0, 4);
      SharedPart(file, o, record, 4, HEADER);
      if o + |record| <= |file| { SharedPart(file, o, record, HEADER, |record|); }
    }
  }

  /** Reading record `j` of a log cut at byte `n`. */
  lemma {:induction false} CutRecord(crc: Checksum, payloads: seq<Payload>, n: nat, j: nat)
    requires Loggable(payloads) && n <= |File(crc, payloads)| && j < |payloads| && Size(crc, payloads, j) < n
    ensures var r := ReaderState(File(crc, payloads)[..n], Size(crc, payloads, j), None);
            var end := Size(crc, payloads, j + 1);
            && (end <= n ==> NextRecord(crc, r) == (r.(offset := end), F.Ok(Some(payloads[j]))))
            && (end > n ==> NextRecord(crc, r) == Torn(r))
  {
    var o, end, whole := Size(crc, payloads, j), Size(crc, payloads, j + 1), File(crc, payloads);
    RecordAt(crc, payloads, j);
    SizeNext(crc, payloads, j);
    LimitAt(crc, payloads, j);
    CutPart(whole, o, end, n);
    ReadsRecord(crc, ReaderState(whole[..n], o, None), whole[o..end], payloads[j], end);
  }

  lemma CutPart(whole: Bytes, o: nat, end: nat, n: nat)
    requires o <= n <= |whole| && o <= end <= |whole|
    ensures whole[..n][o..] <= whole[o..end] || whole[o..end] <= whole[..n][o..]
  {
    if end <= n {
      assert whole[..n][o..][..end - o] == whole[o..end];
    } else {
      assert whole[..n][o..] == whole[o..end][..n - o];
    }
  }

  lemma {:induction false} WholeIs(crc: Checksum, payloads: seq<Payload>, n: nat)
    ensures var k := Whole(crc, payloads, n);
            && Size(crc, payloads, k) <= n
            && (k < |payloads| ==> Size(crc, payloads, k + 1) > n)
    decreases |payloads|
  {
    if |File(crc, payloads)| <= n {
      WholeFile(crc, payloads);
    } else {
      WholeIs(crc, Init(payloads), n);
      var k := Whole(crc, Init(payloads), n);
      assert Init(payloads)[..k] == payloads[..k];
      if k + 1 < |payloads| { assert Init(payloads)[..k + 1] == payloads[..k + 1]; } else { WholeFile(crc, payloads); }
    }
  }

  lemma {:induction false} WholeUnique(crc: Checksum, payloads: seq<Payload>, n: nat, j: nat)
    requires j <= |payloads| && Size(crc, payloads, j) <= n
    requires j < |payloads| ==> Size(crc, payloads, j + 1) > n
    ensures Whole(crc, payloads, n) == j
  {
    WholeIs(crc, payloads, n);
    var k := Whole(crc, payloads, n);
    if k < j { FileCut(crc, payloads, k + 1, j); }
    if j < k { FileCut(crc, payloads, j + 1, k); }
  }

  lemma {:induction false} WholeAtLeast(crc: Checksum, payloads: seq<Payload>, n: nat, j: nat)
    requires j <= |payloads| && Size(crc, payloads, j) <= n
    ensures j <= Whole(crc, payloads, n)
  {
    WholeIs(crc, payloads, n);
    var k := Whole(crc, payloads, n);
    if k < j { FileCut(crc, payloads, k + 1, j); }
  }

  lemma SliceFront(payloads: seq<Payload>, j: nat, k: nat)
    requires j < k <= |payloads|
    ensures [payloads[j]] + payloads[j + 1..k] == payloads[j..k]
  {
  }

  /** What reading a log cut at byte `n` comes to, from record `j` on. */
  function CutReading(crc: Checksum, payloads: seq<Payload>, n: nat, j: nat): Reading
    requires j <= Whole(crc, payloads, n) && n <= |File(crc, payloads)|
  {
    var k := Whole(crc, payloads, n);
    var end := Size(crc, payloads, k);
    Reading(payloads[j..k], ReaderState(File(crc, payloads)[..n], end, if end == n then None else Some(end)), None)
  }

  /** A log cut anywhere past its start record reads back as exactly the whole
      records before the cut, and ends where they do. */
  lemma {:induction false} CutReads(crc: Checksum, payloads: seq<Payload>, n: nat, j: nat)
    requires Loggable(payloads) && n <= |File(crc, payloads)| && 1 <= j <= |payloads| && Size(crc, payloads, j) <= n
    ensures j <= Whole(crc, payloads, n)
    ensures ReadAll(crc, ReaderState(File(crc, payloads)[..n], Size(crc, payloads, j), None))
            == CutReading(crc, payloads, n, j)
    decreases |payloads| - j
  {
    WholeAtLeast(crc, payloads, n, j);
    var r := ReaderState(File(crc, payloads)[..n], Size(crc, payloads, j), None);
    if Size(crc, payloads, j) == n {
      if j < |payloads| { SizeNext(crc, payloads, j); }
      WholeUnique(crc, payloads, n, j);
      assert NextRecord(crc, r) == (r, F.Ok(None));
    } else if j == |payloads| {
      WholeFile(crc, payloads);
    } else {
      CutRecord(crc, payloads, n, j);
      if Size(crc, payloads, j + 1) <= n {
        CutReads(crc, payloads, n, j + 1);
        var k := Whole(crc, payloads, n);
        SliceFront(payloads, j, k);
      } else {
        WholeUnique(crc, payloads, n, j);
        LimitAt(crc, payloads, j);
      }
    }
  }

  lemma {:induction false} CutLog(crc: Checksum, payloads: seq<Payload>, n: nat)
    requires n <= |File(crc, payloads)|
    ensures var k := Whole(crc, payloads, n);
            var reading := CutReading(crc, payloads, n, 0);
            && reading.end.offset <= |reading.end.file|
            && IntoLog(reading.end) == Some(LogState(File(crc, payloads[..k]), Size(crc, payloads, k)))
  {
    WholeIs(crc, payloads, n);
    var k := Whole(crc, payloads, n);
    var end, whole := Size(crc, payloads, k), File(crc, payloads);
    FileCut(crc, payloads, k, |payloads|);
    WholeFile(crc, payloads);
    assert whole[..n][..end] == whole[..end] == File(crc, payloads[..k]);
    if end == n { assert whole[..n] == File(crc, payloads[..k]); }
  }

  /** A crash at any byte past the start record costs the record it tore and
      nothing else: reading gives every whole record, and the log goes on with
      exactly their bytes. A crash inside the start record is damage. */
  lemma {:induction false} CrashAtAnyByte(crc: Checksum, payloads: seq<Payload>, n: nat)
    requires Loggable(payloads) && payloads != [] && n <= |File(crc, payloads)|
    ensures var reading := ReadAll(crc, ReaderState(File(crc, payloads)[..n], 0, None));
            if Size(crc, payloads, 1) <= n then
              var k := Whole(crc, payloads, n);
              && reading == CutReading(crc, payloads, n, 0)
              && reading.records == payloads[..k] && reading.error == None && k >= 1
              && reading.end.offset <= |reading.end.file|
              && IntoLog(reading.end) == Some(LogState(File(crc, payloads[..k]), Size(crc, payloads, k)))
            else reading.records == [] && reading.error == if n == 0 then None else Some(Damaged(0))
  {
    assert payloads[..0] == [] && Size(crc, payloads, 0) == 0;
    var r := ReaderState(File(crc, payloads)[..n], 0, None);
    SizeNext(crc, payloads, 0);
    if n == 0 {
      assert NextRecord(crc, r) == (r, F.Ok(None));
    } else {
      CutRecord(crc, payloads, n, 0);
      if Size(crc, payloads, 1) <= n {
        CutReads(crc, payloads, n, 1);
        CutLog(crc, payloads, n);
        var k := Whole(crc, payloads, n);
        SliceFront(payloads, 0, k);
        assert payloads[..k] == payloads[0..k];
      }
    }
  }

  /** What is appended after a crash is read back after what survived. */
  lemma {:induction false} AppendAfterCrash(crc: Checksum, payloads: seq<Payload>, payload: Payload)
    requires Loggable(payloads) && payloads != []
    requires Append(crc, LogState(File(crc, payloads), |File(crc, payloads)|), payload).Ok?
    ensures var log := Append(crc, LogState(File(crc, payloads), |File(crc, payloads)|), payload).value;
            && Loggable(payloads + [payload])
            && log == LogState(File(crc, payloads + [payload]), |File(crc, payloads + [payload])|)
            && ReadAll(crc, ReaderState(log.file, 0, None)).records == payloads + [payload]
            && ReadAll(crc, ReaderState(log.file, 0, None)).error == None
  {
    FilePush(crc, payloads, payload);
    var more := payloads + [payload];
    var file := File(crc, more);
    WholeFile(crc, more);
    FileCut(crc, more, 1, |more|);
    CrashAtAnyByte(crc, more, |file|);
    assert file[..|file|] == file && more[..|more|] == more;
  }

  // ----- in place

  class RoomLog {
    var file: Bytes
    var written: nat

    constructor (log: LogState)
      ensures file == log.file && written == log.written
    {
      file, written := log.file, log.written;
    }

    method AppendRecord(crc: Checksum, payload: Bytes) returns (error: Option<AppendError>)
      modifies this
      ensures match Append(crc, LogState(old(file), old(written)), payload)
              case Ok(log) => error == None && LogState(file, written) == log
              case Err(e) => error == Some(e) && file == old(file) && written == old(written)
    {
      var limit := if written == 0 then MAX_START_RECORD else MAX_RECORD;
      if |payload| > limit {
        return Some(TooLong);
      }
      var size := HEADER + |payload|;
      if written + size > LOG_LIMIT {
        return Some(LogFull);
      }
      var record := Le32(|payload|);
      record := record + Le32(crc(payload));
      record := record + payload;
      file := file + record;
      written := written + size;
      error := None;
    }
  }

  class LogReader {
    const file: Bytes
    var offset: nat
    var tornAt: Option<nat>

    ghost predicate Valid()
      reads this
    {
      offset <= |file|
    }

    ghost function State(): ReaderState
      reads this
    {
      ReaderState(file, offset, tornAt)
    }

    constructor (file: Bytes)
      ensures Valid() && State() == ReaderState(file, 0, None)
    {
      this.file, offset, tornAt := file, 0, None;
    }

    method Next(crc: Checksum) returns (record: F.Result<Option<Payload>, LogError>)
      requires Valid()
      modifies this
      ensures Valid() && (State(), record) == NextRecord(crc, old(State()))
    {
      if tornAt.Some? || offset == |file| {
        return F.Ok(None);
      }
      if |file| - offset < HEADER {
        record := Tear();
        return;
      }
      var length := FromLe32(file[offset..offset + 4]);
      var sum := FromLe32(file[offset + 4..offset + HEADER]);
      if length > Limit(offset) {
        return F.Err(Damaged(offset));
      }
      var end := offset + HEADER + length;
      if end > |file| {
        record := Tear();
        return;
      }
      var payload := file[offset + HEADER..end];
      if crc(payload) != sum {
        if end == |file| {
          record := Tear();
          return;
        }
        return F.Err(Damaged(offset));
      }
      offset := end;
      return F.Ok(Some(payload));
    }

    method Tear() returns (record: F.Result<Option<Payload>, LogError>)
      requires Valid()
      modifies this`tornAt
      ensures (State(), record) == Torn(old(State()))
    {
      if offset == 0 {
        return F.Err(Damaged(0));
      }
      tornAt := Some(offset);
      return F.Ok(None);
    }

    /** Reads every record, as recovery does. */
    method ReadRecords(crc: Checksum) returns (records: seq<Payload>, error: Option<LogError>)
      requires Valid()
      modifies this
      ensures Valid() && Reading(records, State(), error) == ReadAll(crc, old(State()))
    {
      records := [];
      ghost var goal := ReadAll(crc, State());
      assert goal.records == [] + goal.records;
      while true
        invariant Valid() && goal.records == records + ReadAll(crc, State()).records
        invariant goal.end == ReadAll(crc, State()).end && goal.error == ReadAll(crc, State()).error
        decreases |file| - offset
      {
        ghost var before := State();
        RecordRead(crc, before);
        var record := Next(crc);
        match record {
          case Err(e) => return records, Some(e);
          case Ok(None) => return records, None;
          case Ok(Some(payload)) =>
            Assoc(records, [payload], ReadAll(crc, State()).records);
            records := records + [payload];
        }
      }
    }
  }
}

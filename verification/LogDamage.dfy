/**
What a reader makes of any bytes at all (crates/tpf3mp-server/src/persist.rs):
a record that is whole, the torn end of the file, or damage. Only what reaches the
end of the file is ever taken for a torn write and cut off; damage with anything
after it is reported.
*/
module LogDamage {
  import opened Protocol
  import opened Words
  import opened LogFile
  import F = Follower

  /** A whole record of that payload stands at `o`. */
  predicate IntactAt(crc: Checksum, file: Bytes, o: nat, payload: Payload) {
    o <= |file| && |payload| <= Limit(o) && Record(crc, payload) <= file[o..]
  }

  ghost predicate NoneIntact(crc: Checksum, file: Bytes, o: nat) {
    forall payload: Payload :: !IntactAt(crc, file, o, payload)
  }

  /** What stands at `o` says it is as long as a record may be, and is not followed by
      anything: it goes to the end of the file, or would go on past it. */
  predicate ReachesEnd(file: Bytes, o: nat) {
    && o <= |file|
    && (|file| - o < HEADER
        || (FromLe32(file[o..o + 4]) <= Limit(o) && o + HEADER + FromLe32(file[o..o + 4]) >= |file|))
  }

  lemma IntactIsRead(crc: Checksum, r: ReaderState, payload: Payload)
    requires r.offset < |r.file| && r.tornAt.None? && IntactAt(crc, r.file, r.offset, payload)
    ensures NextRecord(crc, r) == (r.(offset := r.offset + HEADER + |payload|), F.Ok(Some(payload)))
  {
    var record := Record(crc, payload);
    HeaderAt(crc, record, payload);
    assert |r.file[r.offset..]| == |r.file| - r.offset;
    ReadsRecord(crc, r, record, payload, r.offset + HEADER + |payload|);
  }

  lemma ReadIsIntact(crc: Checksum, r: ReaderState, payload: Payload)
    requires r.offset < |r.file| && NextRecord(crc, r).1 == F.Ok(Some(payload))
    ensures IntactAt(crc, r.file, r.offset, payload)
  {
    RecordRead(crc, r);
    var end := NextRecord(crc, r).0.offset;
    assert r.file[r.offset..][..end - r.offset] == r.file[r.offset..end];
  }

  /** Exactly whole records are read; what is none is a torn end exactly if it comes
      after the start record and reaches the end of the file, and damage otherwise. */
  lemma NextIs(crc: Checksum, r: ReaderState)
    requires r.offset < |r.file| && r.tornAt.None?
    ensures forall payload: Payload ::
              NextRecord(crc, r).1 == F.Ok(Some(payload)) <==> IntactAt(crc, r.file, r.offset, payload)
    ensures NoneIntact(crc, r.file, r.offset)
            ==> NextRecord(crc, r)
                == if r.offset > 0 && ReachesEnd(r.file, r.offset) then (r.(tornAt := Some(r.offset)), F.Ok(None))
                   else (r, F.Err(Damaged(r.offset)))
  {
    forall payload: Payload
      ensures NextRecord(crc, r).1 == F.Ok(Some(payload)) <==> IntactAt(crc, r.file, r.offset, payload)
    {
      if IntactAt(crc, r.file, r.offset, payload) { IntactIsRead(crc, r, payload); }
      if NextRecord(crc, r).1 == F.Ok(Some(payload)) { ReadIsIntact(crc, r, payload); }
    }
  }

  /** Where reading stops, in any file: at the end; before a torn end, which alone is
      cut off; or at damage, which is reported where it is. */
  lemma {:induction false} StopsAt(crc: Checksum, r: ReaderState)
    requires r.offset <= |r.file| && r.tornAt.None?
    ensures var read := ReadAll(crc, r);
            var e := read.end.offset;
            && r.offset <= e <= |r.file|
            && (e < |r.file| ==> NoneIntact(crc, r.file, e))
            && (read.error == None
                <==> e == |r.file| || (e > 0 && ReachesEnd(r.file, e)))
            && (read.error != None ==> read.error == Some(Damaged(e)))
            && read.end.tornAt == if read.error == None && e < |r.file| then Some(e) else None
    decreases |r.file| - r.offset
  {
    if r.offset < |r.file| {
      NextIs(crc, r);
      RecordRead(crc, r);
      var (next, record) := NextRecord(crc, r);
      if record.Ok? && record.value.Some? {
        StopsAt(crc, next);
      } else {
        assert NoneIntact(crc, r.file, r.offset);
      }
    }
  }

  /** So the log goes on with all of the file but a torn end, or not at all. */
  lemma OnlyTornEndsAreCut(crc: Checksum, file: Bytes)
    ensures var read := ReadAll(crc, ReaderState(file, 0, None));
            && read.end.offset <= |read.end.file|
            && match IntoLog(read.end)
               case None => read.error.Some?
               case Some(log) => log.file <= file && (log.file < file ==> 0 < |log.file| && ReachesEnd(file, |log.file|))
  {
    ReadIsPrefix(crc, ReaderState(file, 0, None), []);
    StopsAt(crc, ReaderState(file, 0, None));
  }

  // ----- damage in the middle

  lemma ReadOne(crc: Checksum, r: ReaderState, payload: Payload)
    requires r.offset < |r.file| && r.tornAt.None? && IntactAt(crc, r.file, r.offset, payload)
    ensures r.offset + HEADER + |payload| <= |r.file|
    ensures var rest := ReadAll(crc, r.(offset := r.offset + HEADER + |payload|));
            ReadAll(crc, r) == rest.(records := [payload] + rest.records)
  {
    IntactIsRead(crc, r, payload);
    RecordRead(crc, r);
  }

  lemma {:induction false} StandsThere(crc: Checksum, done: seq<Payload>, file: Bytes)
    requires Loggable(done) && done != [] && File(crc, done) <= file
    ensures var o := |File(crc, Init(done))|;
            && File(crc, Init(done)) <= file && o + HEADER + |Last(done)| == |File(crc, done)|
            && IntactAt(crc, file, o, Last(done))
  {
    var o, record := |File(crc, Init(done))|, Record(crc, Last(done));
    HeaderAt(crc, record, Last(done));
    assert file[o..][..|record|] == File(crc, done)[o..] == record;
    if |done| > 1 {
      assert Init(done) != [];
      FileCut(crc, Init(done), 0, |Init(done)|);
      WholeFile(crc, Init(done));
    }
  }

  /** Whole records are read whatever comes after them. */
  lemma {:induction false} ReadsThrough(crc: Checksum, done: seq<Payload>, file: Bytes)
    requires Loggable(done) && File(crc, done) <= file
    ensures var after := ReadAll(crc, ReaderState(file, |File(crc, done)|, None));
            ReadAll(crc, ReaderState(file, 0, None)) == after.(records := done + after.records)
    decreases |done|
  {
    var after := ReadAll(crc, ReaderState(file, |File(crc, done)|, None));
    if done == [] {
      assert done + after.records == after.records;
    } else {
      StandsThere(crc, done, file);
      ReadsThrough(crc, Init(done), file);
      ReadOne(crc, ReaderState(file, |File(crc, Init(done))|, None), Last(done));
      Regrouped(done, after.records);
    }
  }

  lemma Regrouped(done: seq<Payload>, more: seq<Payload>)
    requires done != []
    ensures done + more == Init(done) + ([Last(done)] + more)
  {
  }

  /** Good records followed by what is no whole record and does not reach the end of
      the file: the records are read, the damage is reported where it stands, and
      nothing is cut off. */
  lemma {:induction false} DamageIsReported(crc: Checksum, done: seq<Payload>, file: Bytes)
    requires Loggable(done) && File(crc, done) < file && NoneIntact(crc, file, |File(crc, done)|)
    requires done == [] || !ReachesEnd(file, |File(crc, done)|)
    ensures var read := ReadAll(crc, ReaderState(file, 0, None));
            && read.records == done && read.error == Some(Damaged(|File(crc, done)|))
            && read.end == ReaderState(file, |File(crc, done)|, None) && IntoLog(read.end) == None
  {
    var r := ReaderState(file, |File(crc, done)|, None);
    ReadsThrough(crc, done, file);
    if done != [] { FileCut(crc, done, 0, |done|); WholeFile(crc, done); }
    NextIs(crc, r);
    assert ReadAll(crc, r) == Reading([], r, Some(Damaged(r.offset)));
    assert done + [] == done;
  }

  /** For one, a record of a possible length whose bytes do not fit its checksum. */
  lemma MismatchIsNotIntact(crc: Checksum, file: Bytes, o: nat)
    requires o + HEADER <= |file|
    requires var n := FromLe32(file[o..o + 4]);
             o + HEADER + n <= |file| && crc(file[o + HEADER..o + HEADER + n]) != FromLe32(file[o + 4..o + HEADER])
    ensures NoneIntact(crc, file, o)
    ensures o + HEADER + FromLe32(file[o..o + 4]) < |file| ==> !ReachesEnd(file, o)
  {
    forall payload: Payload ensures !IntactAt(crc, file, o, payload) {
      if IntactAt(crc, file, o, payload) { IntactIsRead(crc, ReaderState(file, o, None), payload); }
    }
  }
}

/**
Exactly whom a room lets resume (`resume_feed` and `stream_after` in
crates/tpf3mp-server/src/room.rs): a client whose history is one of the log's
and that saw no turn a later crash lost, as long as the window reaches back to
it. Nobody else, and nobody of these is refused.
*/
module Resumes {
  import opened Protocol
  import opened Sequencer
  import opened Recovery
  import opened Server
  import opened Lockstep
  import Streams
  import F = Follower

  predicate Sorted(histories: seq<History>) {
    forall i, j | 0 <= i <= j < |histories| :: histories[i].afterTurn <= histories[j].afterTurn
  }

  /** `i` is where the history is first named, and every history begun since still had
      the turn. */
  predicate KeptSince(histories: seq<History>, resume: F.Resume, i: nat) {
    && i < |histories| && histories[i].id == resume.history
    && (forall j | 0 <= j < i :: histories[j].id != resume.history)
    && (forall j | i < j < |histories| :: resume.afterTurn <= histories[j].afterTurn)
  }

  ghost predicate Kept(histories: seq<History>, resume: F.Resume) {
    exists i: nat :: KeptSince(histories, resume, i)
  }

  lemma {:induction false} IndexIsFirst(histories: seq<History>, id: nat)
    ensures IndexOf(histories, id).Some?
            ==> && IndexOf(histories, id).value < |histories|
                && forall j | 0 <= j < IndexOf(histories, id).value :: histories[j].id != id
  {
    IndexOfIs(histories, id);
    if histories != [] && histories[0].id != id {
      IndexIsFirst(histories[1..], id);
      IndexOfIs(histories[1..], id);
    }
  }

  lemma SharesExactly(histories: seq<History>, resume: F.Resume)
    requires Sorted(histories)
    ensures Shares(histories, resume) <==> Kept(histories, resume)
  {
    IndexOfIs(histories, resume.history);
    IndexIsFirst(histories, resume.history);
    if Shares(histories, resume) {
      var i := IndexOf(histories, resume.history).value;
      assert KeptSince(histories, resume, i);
    }
    if i: nat :| KeptSince(histories, resume, i) {
      assert IndexOf(histories, resume.history) == Some(i);
    }
  }

  /** A log's histories began one after the other. */
  lemma {:induction false} HistoriesSorted(first: nat, records: seq<Record>)
    ensures Sorted(HistoriesIn(first, records))
    ensures forall i | 0 <= i < |HistoriesIn(first, records)| ::
              HistoriesIn(first, records)[i].afterTurn <= |TurnsIn(records)|
    decreases |records|
  {
    if records != [] { HistoriesSorted(first, Init(records)); }
  }

  /** In every state of every run, whatever crashes came before: a resume is served if
      and only if the window reaches back to it and nothing up to it was lost since its
      history began. */
  lemma EveryRunServes<S>(rules: Rules<S>, start: StartRecord, steps: seq<SystemStep>, s: System<S>, resume: F.Resume,
                          length: FrameLength)
    requires start.base.None? && Reached(rules, start, steps, length) == Going(s)
    ensures StreamAfter(s.life.room.game, Some(resume)).Some?
            <==> && s.life.room.game.logFirstTurn <= resume.afterTurn + 1 <= s.life.room.game.nextTurn
                 && Kept(HistoriesIn(start.history, s.life.records), resume)
  {
    EveryRun(rules, start, steps, length);
    HasWindow(rules, start, s.life, length);
    HistoriesSorted(start.history, s.life.records);
    SharesExactly(HistoriesIn(start.history, s.life.records), resume);
    Streams.StreamAfterExactly(s.life.room.game, TurnsIn(s.life.records), Some(resume));
  }
}

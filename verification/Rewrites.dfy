/**
A room's life with the log on its disk: turns are appended to it, a rewrite
takes its place while the game goes on (`start_compaction` and
`finish_compaction` in crates/tpf3mp-server/src/room.rs), and a crash leaves any
part of it past what a rewrite flushed (`RoomLog::compacted` in
crates/tpf3mp-server/src/persist.rs).

Such a room lives as one that never rewrites its log: it is never refused when
it comes back, and comes back as the same room.
*/
module Rewrites {
  import opened Protocol
  import opened Sequencer
  import opened Recovery
  import opened Server
  import opened Lifetime
  import Streams
  import C = Compaction
  import F = Follower

  /** A rewrite under way: the room it started from, and how many records the room
      had logged by then. */
  datatype Rewrite<S> = Rewrite(room: RoomState<S>, saved: Bytes, covers: nat)

  /** `life` is the room and all it ever logged and kept. The first `firm` records
      of `log` were flushed by a rewrite and stand for the first `base` of those. */
  datatype Journal<S> = Journal(life: Life<S>, log: C.Log, rewrite: Option<Rewrite<S>>, firm: nat, base: nat)

  datatype JournalStep =
    | Lives(step: LifeStep)
    | BeginRewrite
    | Install
    | Fail
    | Breaks(kept: nat, id: nat)

  datatype Outcome<S> = Off | Refused(error: RecoverError) | Going(journal: Journal<S>)

  /** Counters as recovery believes them of any room. */
  predicate Counted(g: GameState) {
    g.nextTurn <= MAX_COUNT && g.nextEvent < MAX_COUNT
  }

  function Lived<S>(j: Journal<S>, life: Life<S>): Journal<S>
    requires |j.life.records| <= |life.records|
  {
    j.(life := life, log := j.log.(records := j.log.records + life.records[|j.life.records|..]))
  }

  /** A rewrite starts between turns, when the rules can save. */
  function Begun<S>(rules: Rules<S>, j: Journal<S>): Outcome<S> {
    var room := j.life.room;
    var saved := rules.save(room.rules);
    if j.rewrite.Some? || room.game.pending != [] || room.game.speed != room.game.announced || saved.None? then Off
    else Going(j.(rewrite := Some(Rewrite(room, saved.value, |j.life.records|))))
  }

  /** The rewrite's log, with every turn sealed since, takes the log's place. */
  function Installed<S>(start: StartRecord, j: Journal<S>): Outcome<S> {
    if j.rewrite.None? || j.rewrite.value.covers > |j.life.records| then Off
    else
      var r := j.rewrite.value;
      var kept := Kept(r.room.game.log);
      Going(j.(log := C.Log(CompactStart(r.room, r.saved, start.maxPlayers), kept + j.life.records[r.covers..]),
               rewrite := None, firm := |kept|, base := r.covers))
  }

  /** A crash leaves `kept` records of the log; the room is read back from them. */
  function Broken<S>(rules: Rules<S>, j: Journal<S>, kept: nat, id: nat, length: FrameLength): Outcome<S> {
    if !(j.firm <= kept <= |j.log.records|) || id in j.life.lines || j.base + kept - j.firm > |j.life.records| then Off
    else
      var left := j.log.records[..kept];
      match Recover(rules, j.log.start, left, length)
      case Err(error) => Refused(error)
      case Ok(room) =>
        match Restored(j.life, room, j.base + kept - j.firm, id)
        case None => Off
        case Some(life) =>
          Going(j.(life := life, log := j.log.(records := left + [Last(life.records)]), rewrite := None))
  }

  function Next<S>(rules: Rules<S>, start: StartRecord, j: Journal<S>, step: JournalStep, length: FrameLength)
    : Outcome<S>
  {
    match step
    case Lives(step) =>
      if step.Crash? then Off
      else
        match Live(rules, start, j.life, step, length) {
          case None => Off
          case Some(life) =>
            if !Counted(life.room.game) || |life.records| < |j.life.records| then Off else Going(Lived(j, life))
        }
    case BeginRewrite => Begun(rules, j)
    case Install => Installed(start, j)
    case Fail => Going(j.(rewrite := None))
    case Breaks(kept, id) => Broken(rules, j, kept, id, length)
  }

  // ----- what every run keeps

  /** The rewrite starts from what the records it covers recover to. */
  ghost predicate RewriteOk<S(!new)>(rules: Rules<S>, start: StartRecord, r: Rewrite<S>, all: seq<Record>,
                                     length: FrameLength)
  {
    && r.covers <= |all| && C.Plausible(r.room, start.maxPlayers)
    && Recover(rules, start, all[..r.covers], length) == F.Ok(r.room)
    && rules.save(r.room.rules) == Some(r.saved)
  }

  /** The log on disk, and a rewrite of it, stand for all that was logged. */
  ghost predicate OnDisk<S(!new)>(rules: Rules<S>, start: StartRecord, j: Journal<S>, all: seq<Record>,
                                  length: FrameLength)
  {
    && C.Alike(rules, j.log, start, all, j.firm, j.base, length)
    && (j.rewrite.Some? ==> RewriteOk(rules, start, j.rewrite.value, all, length))
  }

  ghost predicate JournalInv<S(!new)>(rules: Rules<S>, start: StartRecord, j: Journal<S>, length: FrameLength) {
    && LifeInv(rules, start, j.life, length) && Counted(j.life.room.game)
    && OnDisk(rules, start, j, j.life.records, length)
  }

  lemma LivesOn<S>(rules: Rules<S>, start: StartRecord, l: Life<S>, step: LifeStep, length: FrameLength)
    requires Live(rules, start, l, step, length).Some? && !step.Crash?
    ensures l.records <= Live(rules, start, l, step, length).value.records
  {
  }

  lemma AlikeMore<S(!new)>(rules: Rules<S>, log: C.Log, start: StartRecord, all: seq<Record>, a: nat, b: nat,
                           more: seq<Record>, length: FrameLength)
    requires C.Alike(rules, log, start, all, a, b, length)
    ensures C.Alike(rules, log.(records := log.records + more), start, all + more, a, b, length)
  {
    assert (log.records + more)[..a] == log.records[..a] && (all + more)[..b] == all[..b];
    assert (log.records + more)[a..] == log.records[a..] + more && (all + more)[b..] == all[b..] + more;
  }

  lemma AlikeLess<S(!new)>(rules: Rules<S>, log: C.Log, start: StartRecord, all: seq<Record>, a: nat, b: nat,
                           more: nat, length: FrameLength)
    requires C.Alike(rules, log, start, all, a, b, length) && a + more <= |log.records|
    ensures b + more <= |all|
    ensures C.Alike(rules, log.(records := log.records[..a + more]), start, all[..b + more], a, b, length)
  {
    var cut, whole := log.records[..a + more], all[..b + more];
    assert log.records[a..][..more] == log.records[a..a + more] && all[b..][..more] == all[b..b + more];
    assert cut[..a] == log.records[..a] && whole[..b] == all[..b];
    assert cut[a..] == log.records[a..a + more] && whole[b..] == all[b..b + more];
  }

  lemma LoggedMore<S(!new)>(rules: Rules<S>, start: StartRecord, j: Journal<S>, all: seq<Record>, more: seq<Record>,
                            length: FrameLength)
    requires OnDisk(rules, start, j, all, length)
    ensures OnDisk(rules, start, j.(log := j.log.(records := j.log.records + more)), all + more, length)
  {
    AlikeMore(rules, j.log, start, all, j.firm, j.base, more, length);
    if j.rewrite.Some? {
      assert (all + more)[..j.rewrite.value.covers] == all[..j.rewrite.value.covers];
    }
  }

  lemma LivesKeeps<S(!new)>(rules: Rules<S>, start: StartRecord, j: Journal<S>, step: LifeStep, length: FrameLength)
    requires JournalInv(rules, start, j, length) && Next(rules, start, j, Lives(step), length).Going?
    ensures JournalInv(rules, start, Next(rules, start, j, Lives(step), length).journal, length)
  {
    var life := Live(rules, start, j.life, step, length).value;
    LiveKeeps(rules, start, j.life, step, length);
    LivesOn(rules, start, j.life, step, length);
    LivedOnDisk(rules, start, j, life, length);
  }

  lemma LivedOnDisk<S(!new)>(rules: Rules<S>, start: StartRecord, j: Journal<S>, life: Life<S>, length: FrameLength)
    requires OnDisk(rules, start, j, j.life.records, length) && j.life.records <= life.records
    ensures OnDisk(rules, start, Lived(j, life), life.records, length)
  {
    var more := life.records[|j.life.records|..];
    assert life.records == j.life.records + more;
    LoggedMore(rules, start, j, j.life.records, more, length);
  }

  /** Between turns the room is what the log on its disk recovers to. */
  lemma LiveIsOnDisk<S(!new)>(rules: Rules<S>, start: StartRecord, j: Journal<S>, length: FrameLength)
    requires JournalInv(rules, start, j, length)
    requires j.life.room.game.pending == [] && j.life.room.game.speed == j.life.room.game.announced
    ensures Recover(rules, start, j.life.records, length) == F.Ok(j.life.room)
    ensures Recover(rules, j.log.start, j.log.records, length) == F.Ok(j.life.room)
  {
    LiveIsRecovered(rules, start, j.life.records, j.life.room, length);
    C.AlikeRecovers(rules, j.log, start, j.life.records, j.firm, j.base, length);
  }

  lemma BeginKeeps<S(!new)>(rules: Rules<S>, start: StartRecord, j: Journal<S>, length: FrameLength)
    requires JournalInv(rules, start, j, length) && Begun(rules, j).Going?
    ensures JournalInv(rules, start, Begun(rules, j).journal, length)
  {
    LiveIsOnDisk(rules, start, j, length);
    SeatsFit(rules, start, j.life, length);
    assert j.life.records[..|j.life.records|] == j.life.records;
  }

  lemma InstallKeeps<S(!new)>(rules: Rules<S>, start: StartRecord, j: Journal<S>, length: FrameLength)
    requires Lawful(rules) && JournalInv(rules, start, j, length) && Installed(start, j).Going?
    ensures JournalInv(rules, start, Installed(start, j).journal, length)
  {
    var r, all := j.rewrite.value, j.life.records;
    var kept, rest := Kept(r.room.game.log), all[r.covers..];
    C.CompactionPreserves(rules, start, all[..r.covers], [], r.room, r.saved, start.maxPlayers, length);
    assert all[..r.covers] + [] == all[..r.covers] && kept + [] == kept;
    assert (kept + rest)[..|kept|] == kept && (kept + rest)[|kept|..] == rest;
  }

  /** What a crash leaves of the log is never refused, and recovers to the room the
      whole log recovers to at that point. */
  lemma BreakRecovers<S(!new)>(rules: Rules<S>, start: StartRecord, j: Journal<S>, kept: nat, length: FrameLength)
    requires JournalInv(rules, start, j, length) && j.firm <= kept <= |j.log.records|
    ensures j.base + kept - j.firm <= |j.life.records|
    ensures Recover(rules, start, j.life.records[..j.base + kept - j.firm], length).Ok?
    ensures Recover(rules, j.log.start, j.log.records[..kept], length)
            == Recover(rules, start, j.life.records[..j.base + kept - j.firm], length)
  {
    BreakAlike(rules, start, j, j.life.records, kept, length);
    CrashRecovers(rules, start, j.life, j.base + kept - j.firm, length);
  }

  lemma BreakAlike<S(!new)>(rules: Rules<S>, start: StartRecord, j: Journal<S>, all: seq<Record>, kept: nat,
                            length: FrameLength)
    requires OnDisk(rules, start, j, all, length) && j.firm <= kept <= |j.log.records|
    ensures j.base + kept - j.firm <= |all|
    ensures C.Same(Recover(rules, j.log.start, j.log.records[..kept], length),
                   Recover(rules, start, all[..j.base + kept - j.firm], length))
  {
    C.AlikeCut(rules, j.log, start, all, j.firm, j.base, kept - j.firm, length);
  }

  lemma BreakKeeps<S(!new)>(rules: Rules<S>, start: StartRecord, j: Journal<S>, kept: nat, id: nat, length: FrameLength)
    requires JournalInv(rules, start, j, length)
    ensures !Broken(rules, j, kept, id, length).Refused?
    ensures Broken(rules, j, kept, id, length).Going?
            ==> && j.firm <= kept <= |j.log.records|
                && Some(Broken(rules, j, kept, id, length).journal.life)
                   == Live(rules, start, j.life, Crash(j.base + kept - j.firm, id), length)
                && JournalInv(rules, start, Broken(rules, j, kept, id, length).journal, length)
  {
    if !Broken(rules, j, kept, id, length).Off? {
      BreakRecovers(rules, start, j, kept, length);
      BrokeKeeps(rules, start, j, kept, id, Broken(rules, j, kept, id, length).journal, length);
    }
  }

  lemma BrokeKeeps<S(!new)>(rules: Rules<S>, start: StartRecord, j: Journal<S>, kept: nat, id: nat, next: Journal<S>,
                            length: FrameLength)
    requires JournalInv(rules, start, j, length) && j.firm <= kept <= |j.log.records|
    requires j.base + kept - j.firm <= |j.life.records|
    requires Some(next.life) == ComeBack(rules, start, j.life, j.base + kept - j.firm, id, length)
    requires next == j.(life := next.life, rewrite := None,
                        log := j.log.(records := j.log.records[..kept] + [Last(next.life.records)]))
    ensures JournalInv(rules, start, next, length)
  {
    var at := j.base + kept - j.firm;
    BrokeLife(rules, start, j, at, id, next.life, length);
    MarkedLast(rules, start, j.life, at, id, next.life, length);
    BrokeOnDisk(rules, start, j, j.life.records, kept, Last(next.life.records), length);
  }

  lemma BrokeLife<S(!new)>(rules: Rules<S>, start: StartRecord, j: Journal<S>, at: nat, id: nat, life: Life<S>,
                           length: FrameLength)
    requires JournalInv(rules, start, j, length) && Some(life) == ComeBack(rules, start, j.life, at, id, length)
    ensures LifeInv(rules, start, life, length) && Counted(life.room.game)
  {
    ComeBackKeeps(rules, start, j.life, at, id, length);
    BreakCounts(rules, start, j, at, id, length);
  }

  lemma MarkedLast<S>(rules: Rules<S>, start: StartRecord, l: Life<S>, at: nat, id: nat, life: Life<S>,
                      length: FrameLength)
    requires Some(life) == ComeBack(rules, start, l, at, id, length)
    ensures at <= |l.records| && life.records != [] && life.records == l.records[..at] + [Last(life.records)]
  {
  }

  lemma BrokeOnDisk<S(!new)>(rules: Rules<S>, start: StartRecord, j: Journal<S>, all: seq<Record>, kept: nat,
                             marker: Record, length: FrameLength)
    requires OnDisk(rules, start, j, all, length) && j.firm <= kept <= |j.log.records|
    ensures j.base + kept - j.firm <= |all|
    ensures OnDisk(rules, start, j.(rewrite := None, log := j.log.(records := j.log.records[..kept] + [marker])),
                   all[..j.base + kept - j.firm] + [marker], length)
  {
    AlikeLess(rules, j.log, start, all, j.firm, j.base, kept - j.firm, length);
    AlikeMore(rules, j.log.(records := j.log.records[..kept]), start, all[..j.base + kept - j.firm], j.firm, j.base,
              [marker], length);
  }

  /** A room that comes back has counted no further than it had. */
  lemma BreakCounts<S(!new)>(rules: Rules<S>, start: StartRecord, j: Journal<S>, at: nat, id: nat, length: FrameLength)
    requires JournalInv(rules, start, j, length) && ComeBack(rules, start, j.life, at, id, length).Some?
    ensures Counted(ComeBack(rules, start, j.life, at, id, length).value.room.game)
  {
    var all, left := TurnsIn(j.life.records), TurnsIn(j.life.records[..at]);
    CrashRecovers(rules, start, j.life, at, length);
    TurnsPrefix(j.life.records, at);
    WellFormedChain(j.life.records);
    Streams.RunEvents(Origin, all);
    Streams.RunEvents(Origin, left);
  }

  // ----- runs

  function Opened<S>(rules: Rules<S>, start: StartRecord): Journal<S> {
    Journal(Birth(rules, start), C.Log(start, []), None, 0, 0)
  }

  lemma OpenedKeeps<S(!new)>(rules: Rules<S>, start: StartRecord, length: FrameLength)
    requires start.base.None?
    ensures JournalInv(rules, start, Opened(rules, start), length)
  {
    BirthKeeps(rules, start, length);
    var none: seq<Record> := [];
    assert none[..0] == none && none[0..] == none;
  }

  /** The same life, or one step of it. */
  ghost predicate Onward<S>(rules: Rules<S>, start: StartRecord, l: Life<S>, next: Life<S>, length: FrameLength) {
    next == l || exists step :: Live(rules, start, l, step, length) == Some(next)
  }

  /** Whatever happens to the log, no recovery is refused, and the room takes at most
      a step of a room that never rewrites its log. */
  lemma NextKeeps<S(!new)>(rules: Rules<S>, start: StartRecord, j: Journal<S>, step: JournalStep, length: FrameLength)
    requires Lawful(rules) && JournalInv(rules, start, j, length)
    ensures !Next(rules, start, j, step, length).Refused?
    ensures Next(rules, start, j, step, length).Going?
            ==> && JournalInv(rules, start, Next(rules, start, j, step, length).journal, length)
                && Onward(rules, start, j.life, Next(rules, start, j, step, length).journal.life, length)
  {
    if Next(rules, start, j, step, length).Going? || step.Breaks? {
      match step
      case Lives(step) => LivesKeeps(rules, start, j, step, length);
      case BeginRewrite => BeginKeeps(rules, start, j, length);
      case Install => InstallKeeps(rules, start, j, length);
      case Fail =>
      case Breaks(kept, id) => BreakKeeps(rules, start, j, kept, id, length);
    }
  }

  /** The journal after `steps`; steps that cannot happen change nothing. */
  function Reached<S>(rules: Rules<S>, start: StartRecord, steps: seq<JournalStep>, length: FrameLength): Outcome<S>
    decreases |steps|
  {
    if steps == [] then Going(Opened(rules, start))
    else
      match Reached(rules, start, Init(steps), length)
      case Going(j) =>
        var next := Next(rules, start, j, Last(steps), length);
        if next.Off? then Going(j) else next
      case stopped => stopped
  }

  /** Over any run of turns, rewrites and crashes no recovery is ever refused; and
      between turns the live room is what the log on its disk recovers to. */
  lemma {:induction false} EveryRun<S(!new)>(rules: Rules<S>, start: StartRecord, steps: seq<JournalStep>,
                                             length: FrameLength)
    requires Lawful(rules) && start.base.None?
    ensures Reached(rules, start, steps, length).Going?
    ensures var j := Reached(rules, start, steps, length).journal;
            && JournalInv(rules, start, j, length)
            && (j.life.room.game.pending == [] && j.life.room.game.speed == j.life.room.game.announced
                ==> Recover(rules, j.log.start, j.log.records, length) == F.Ok(j.life.room))
    decreases |steps|
  {
    if steps == [] {
      OpenedKeeps(rules, start, length);
    } else {
      EveryRun(rules, start, Init(steps), length);
      NextKeeps(rules, start, Reached(rules, start, Init(steps), length).journal, Last(steps), length);
    }
    var j := Reached(rules, start, steps, length).journal;
    if j.life.room.game.pending == [] && j.life.room.game.speed == j.life.room.game.announced {
      LiveIsOnDisk(rules, start, j, length);
    }
  }
}

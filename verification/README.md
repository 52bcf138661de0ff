# The lockstep core of TPF3-MP, verified

TPF3-MP keeps games in hard lockstep. A server orders events and seals steps into
turns; clients follow the turn stream; a gate inside each game lets a step run
only once everything before it has arrived. This project models that core in
Dafny and proves what it promises, over whole runs of several components.

`dafny verify dfyconfig.toml` checks all of it.

## How it is built

Code that changes state in place is a class or a method with loops, proved equal
to a function on values; what the system promises is proved of those functions.
`Follower.TurnFollower.Accept`, say, is `Follower.Accepting`, and
`Follower.AcceptsExactly`, `Follower.AcceptFollows` and everything above them are
about `Accepting`.

One idea runs through the turn protocol. A *cursor* is the next turn, the next
event and the frontier; a *chain* is turns that continue one another from a
cursor. Sequencer, resume window, follower, recovery and saves all move a cursor
along one chain. What a chain *performs* is defined turn by turn (`Perform`); the
*canonical order* is defined without turns (`Canon`): for each step its events in
sequence order, then the step. `Protocol.PerformIsCanonical` says they are equal.

| modules | what they model | main results |
|---|---|---|
| Protocol, Follower, Playout, Evenness, Gate, Guard, Bridge, Tracks, Pipeline, Loads | a client, from its turn stream to its game | whatever is delivered, loaded, paced or held back, the gate never errs and each world is played in order, evenly, and no step before it is due; whatever the link carries, the gate keeps the game in order |
| Sequencer, Sealing, Streams, Tables | a running game on the server | one chain, the longest window, resume streams that fit, sound saves; rules, seats and owner are what the ordered events say |
| Recovery, Compaction, Server, Legible, Lifetime, Rewrites | the room's log, crashes and rewrites | compaction preserves recovery; however its log is cut and rewritten, a room comes back as what it was; exactly which logs are read |
| Lockstep, Whole, Resumes, Snapshots, Speeds, Notices, Timing, Overtaking, Stalls | a room, its log, its connection and a client together | in every state of every run: lockstep, exactly who may resume, the world the stream was offered, the room's speed, every notice once and in order, no step before its margin; and exactly why a run can stop |
| Words, Ring, RingRuns, SharedRing | the shared-memory ring | every interleaving is a queue; the array code keeps it |
| LogFile, LogDamage | the log as bytes | a crash at any byte costs the torn record alone; damage is reported and never cut off |
| Pacing, RoomClock | the room's clock | conservation, no debt, nobody outrun |
| Verdict, Rounds, Holds | agreement on checkpoints and saves, and who keeps a snapshot | one fair verdict a step; nothing held is dropped |
| Doubles, LuaNumbers | exact Lua arithmetic | integer code equals rounded double arithmetic |
| LuaData, LuaText, LuaLexemes, LuaComments | the check of script data | accepts exactly its grammar, over the one division of the text into words, and when that is what Lua reads |

## What the code does not promise

Where a property one would expect fails, the project shows the failing case and
proves exactly when it holds.

- *Time split into ticks.* The pacer counts whole microseconds of each tick, so
  time is conserved however it is split if and only if the fractions cut off do
  not add up to a microsecond (`Pacing.SplitTick`, `Pacing.SplittingLoses`).
- *Resuming always catches up.* A follower refuses more than 256 MiB of waiting
  events, and one whose world is being fetched hands out nothing. An honest
  backlog is accepted if and only if it fits (`Streams.ResumeCatchesUp`,
  `Streams.HonestBacklogCanBeRefused`).
- *Load reports.* A stream that needs another world may arrive while a load
  already sent is unanswered. No report faults the bridge in a run without one
  (`Overtaking.EveryRunUnovertaken`). One that does arrive leaves a report that the
  bridge does not wait for. In whatever order what is on its way is then worked
  off, the bridge faults before all of it is (`Overtaking.EveryOvertakenDrain`), and
  it faults so only if a report is overdue (`Overtaking.EveryDrain`).
  `Stalls.HonestRunFails` is a run that ends there, in which a crash lost a turn. It
  need not end there: a further stream or a finished fetch may order a world that
  the late report happens to fit.
- *Verdicts do not depend on who reports first.* A report carries the member's
  position when it arrives, and positions repeat once somebody leaves in between
  (`Verdict.RepeatedOrderCanDecide`). The order does not matter if and only if all
  reports that could be the anchor agree on every lane without a majority
  (`Verdict.OrderDecidesExactly`).
- *Depth of script data.* The documentation says tables nest at most 128 deep; the
  code counts levels below the outermost table, so 129 tables one in another pass
  (`LuaData.DeepestAccepted`). The model follows the code.
- *Comments in script data.* The check ends every comment with its line; Lua ends
  one that opens with a long bracket at the closing bracket. The documentation says
  that nothing may follow the function, which holds of what the check reads. Lua
  reads the same in text without such comments (`LuaComments.NoneIsPlain`), and at
  one only if both find the same after it (`LuaComments.LongDecides`,
  `LuaComments.LongCanDiffer`).

## What is taken as given

- Histories and snapshots get fresh names; a checksum is any function from payload
  to word; how long a turn's frame is, and whether bytes are UTF-8, are parameters.
- A room's rules are any state with an application, a save and a restore that undoes
  it, as crates/tpf3mp-server/src/ruleset.rs:20-24 asks.
- Clients report honestly, and the game answers each load it was sent, in order.
- A ring's steps are sequentially consistent; its counters wrap at 2^32, and the mask
  is modelled bit by bit.
- A room seals no step past 2^48 and counts fewer than 2^56 turns and events, the
  bounds beyond which recovery believes no log.
- What a rewrite of the log flushed before it was put in place survives a crash;
  of what was appended since, any part may be lost.
- Integers are unbounded except where the code checks or wraps: turn, event and step
  numbers against 2^64, recovery's own bounds, the ring's counters, and 64-bit money.
- Durations are in nanoseconds.

## Model

| member | source | states |
|---|---|---|
| `Lockstep.EveryRunIsCanonical` | crates/tpf3mp-agent/src/bridge.rs:1169-1206 | in every state of every run of the system (any ordering, sealing, saving, crashing, dropping, resuming, joining afresh, delivery, back-pressure and pacing) what the game did in its world, put after what that world was saved with, is a prefix of the canonical order of the room's log in some history; that this world is the one the game loaded is `Snapshots.EveryRunLoadsItsOffer` |
| `Lockstep.EveryRunCatchesUp` | crates/tpf3mp-agent/src/bridge.rs:1169-1206 | the other half, for every run: a connected client with nothing on the wire and nothing left to do has played exactly the canonical order of the room's whole log |
| `Lockstep.EveryRun` | crates/tpf3mp-bridge/src/gate.rs:118-167 | every run keeps the whole system invariant, and stops only for a follower out of room or a load report the bridge did not expect; the gate never errs |
| `Lockstep.EveryRunResumes` | crates/tpf3mp-server/src/room.rs:2841-2862 | in every state of every run, over any number of crashes that lost turns: where the room lets the client resume, the client took exactly the first turns of the current log and is sent exactly the rest |
| `Resumes.EveryRunServes` | crates/tpf3mp-server/src/room.rs:2793-2862 | in every state of every run a resume is served if and only if the window reaches back to it and every history begun since the client's still had its turn: nobody who can go on is refused |
| `Resumes.SharesExactly` | crates/tpf3mp-server/src/room.rs:2841-2862 | comparing with the next history alone decides this for all later ones |
| `Lockstep.ResumeSafe` | crates/tpf3mp-server/src/room.rs:2841-2890 | for one resume: the turns of the client's history and of the log agree up to the resume point, the cursor is the log's there, and the stream is the rest of the log |
| `Lockstep.SaveSafe` | crates/tpf3mp-server/src/room.rs:2827-2838 | a save the room still offers, even after crashes, is in the current log, and its stream starts right after the save event at the frontier of the save |
| `Lockstep.RejoinConnects` | crates/tpf3mp-server/src/room.rs:2793-2823 | whether a client resumes or asks afresh, what it is sent continues what it has or starts it over |
| `Lockstep.OpeningArrives` | crates/tpf3mp-agent/src/bridge.rs:583-683 | a client is never refused the stream the room opened for it, and then follows that stream's history from its start |
| `Lockstep.FrameArrives` | crates/tpf3mp-agent/src/bridge.rs:583-683 | the next turn of the history a client follows is accepted, or refused for want of room alone |
| `Lockstep.NextKeeps` | crates/tpf3mp-server/src/room.rs:2301-2343 | one step of anything in the system keeps its invariant |
| `Lockstep.GameIsCanonical` | crates/tpf3mp-bridge/src/session.rs:221-263 | the invariant says the game plays a prefix of the canonical order, and names the history and the turn |
| `Lockstep.StepsBelow` | crates/tpf3mp-bridge/src/gate.rs:163-167 | the game never steps past the last frontier recovery admits, so the gate's counter never overflows |
| `Lockstep.DeedsBelow` | crates/tpf3mp-agent/src/follower.rs:171-183 | whatever a world performs is below the frontier of the history it is of |
| `Snapshots.EveryRunLoadsItsOffer` | crates/tpf3mp-agent/src/bridge.rs:713-801 | in every state of every run every load on its way is of the snapshot its stream was offered, at that snapshot's own step, and of no file exactly if its stream was offered none; and the world the game is in goes on in the canonical order exactly where the snapshot it was loaded from was saved, or at the beginning if it was loaded from none |
| `Snapshots.EveryRunIsOf` | crates/tpf3mp-server/src/room.rs:2827-2838 | in every state of every run each world a client is in, is on its way to, or is sent turns for started where the snapshot it is of was saved |
| `Snapshots.QueuedLoads` | crates/tpf3mp-agent/src/bridge.rs:791-801 | every load in a sound queue carries the file of the snapshot its stream was offered |
| `Pipeline.OldFetchIsIgnored` | crates/tpf3mp-agent/src/bridge.rs:713-724 | a fetch that a newer offer overtook, or that nothing waits for, changes nothing |
| `Speeds.EveryRunTellsTheSpeed` | crates/tpf3mp-agent/src/bridge.rs:583-683 | in every state of every run the last speed the game was told or is about to be told is that of the last turn its agent accepted, and the follower's is that of the last turn of its stream; voiding a world voids no speed |
| `Speeds.TakePaced` | crates/tpf3mp-agent/src/bridge.rs:583-683 | so for each step of a client, of which only a turn changes the speed |
| `Notices.EveryNoticeArrives` | crates/tpf3mp-agent/src/bridge.rs:853-866 | in every state of every run what the hook read of divergences, refusals, chat and the end, followed by what is on its way, is exactly what the agent was given to tell, in order: nothing is lost, repeated or overtaken, whatever worlds are voided in between |
| `Notices.NoticesRetained` | crates/tpf3mp-agent/src/bridge.rs:853-866 | voiding a world keeps every notice, in order |
| `Timing.EveryRunIsTimed` | crates/tpf3mp-agent/src/bridge.rs:583-683 | over every run whose clock does not go back, the client's schedule has its arrivals in order and none later than now |
| `Timing.TurnIsTimed` | crates/tpf3mp-agent/src/playout.rs:70-87 | a turn such a client accepts moves its schedule's frontier to the turn's and takes its speed, and leaves no step from the newly sealed one on an ideal time sooner than the margin after it arrived |
| `Timing.OpeningIsTimed` | crates/tpf3mp-agent/src/playout.rs:55-67 | a stream starts a schedule with its own margin and memory, which knows of no step yet |
| `Whole.EveryRun` | crates/tpf3mp-server/src/room.rs:1436-1509 | of the system with its room's log on disk, rewritten and read back in any order with everything else: no recovery is ever refused, and the client stops only as it does without rewrites |
| `Whole.EveryRunIsCanonical` | crates/tpf3mp-server/src/room.rs:1436-1509 | in every state of every such run the game plays a prefix of the canonical order |
| `Whole.EveryRunCatchesUp` | crates/tpf3mp-server/src/room.rs:1436-1509 | and with nothing left to do has played all of the room's log, rewrites and crashes or not |
| `Whole.WritesLive` | crates/tpf3mp-server/src/room.rs:649-776 | whatever happens to the log is to the room a step of a life without rewrites, or nothing |
| `Protocol.PerformIsCanonical` | crates/tpf3mp-server/src/room.rs:2721-2765 | however events were split over turns, performing a chain turn by turn is the canonical order, defined without turns: each step's events in order, then the step |
| `Protocol.ChainCut` | crates/tpf3mp-agent/src/follower.rs:120-167 | any cut of a chain of turns is two chains that meet, and performing the whole is performing the two |
| `Protocol.ChainNumbers` | crates/tpf3mp-server/src/room.rs:2721-2765 | along a chain turn numbers count up and the frontier never falls |
| `Follower.CheckEventsIff` | crates/tpf3mp-agent/src/follower.rs:120-167 | the event by event check passes exactly when numbers are consecutive from the expected one, all for the step after the frontier, and do not overflow |
| `Follower.AcceptsExactly` | crates/tpf3mp-agent/src/follower.rs:120-167 | a turn is accepted exactly when it continues the stream and there is room; the cursor then stands right after it, and the speed is the turn's |
| `Follower.BeginFollows` | crates/tpf3mp-agent/src/follower.rs:66-77 | a new follower has handed out exactly what its empty stream performs |
| `Follower.AcceptFollows` | crates/tpf3mp-agent/src/follower.rs:120-167 | accepting keeps: what was handed out followed by what is held is exactly what the accepted turns perform |
| `Follower.NextFollows` | crates/tpf3mp-agent/src/follower.rs:171-192 | what is handed out is always the next action of the canonical order; nothing comes only when all accepted turns were performed; `next_step` names the step exactly when a step comes next |
| `Follower.ContinuesExactly` | crates/tpf3mp-agent/src/follower.rs:82-112 | a restart is taken exactly at the follower's own cursor, and changes nothing but the history |
| `Follower.TurnFollower.constructor` | crates/tpf3mp-agent/src/follower.rs:66-77 | starts as the specification does |
| `Follower.TurnFollower.Restart` | crates/tpf3mp-agent/src/follower.rs:82-103 | in place what `ContinuesExactly` is about; a refusal changes nothing |
| `Follower.TurnFollower.Accept` | crates/tpf3mp-agent/src/follower.rs:120-167 | in place, event by event, what `AcceptsExactly` is about; a refusal changes nothing |
| `Follower.TurnFollower.PeekStep` | crates/tpf3mp-agent/src/follower.rs:188-192 | the step that comes next, if a step does |
| `Follower.TurnFollower.NextAction` | crates/tpf3mp-agent/src/follower.rs:171-183 | in place what `NextFollows` is about |
| `Playout.JitterBuffer` | crates/tpf3mp-agent/src/playout.rs:70-151 | for every run of turns whose times do not go back, with any speeds and any steps played between: implied times in the buffer fall strictly, and its front is the maximum over all arrivals since the schedule last started over that are no older than `memory` |
| `Playout.FrontIsWindowMaximum` | crates/tpf3mp-agent/src/playout.rs:90-121 | the front of a buffer is the window maximum and one of the window's arrivals |
| `Playout.RememberBuffers` | crates/tpf3mp-agent/src/playout.rs:137-151 | one more arrival keeps the queue a summary of all arrivals |
| `Playout.OnTurnBuffers` | crates/tpf3mp-agent/src/playout.rs:70-87 | so does a turn, whether or not it starts the schedule over |
| `Playout.ArriveBuffers` | crates/tpf3mp-agent/src/playout.rs:70-87 | so does a turn at an unchanged speed |
| `Playout.Schedule.constructor` | crates/tpf3mp-agent/src/playout.rs:55-67 | starts as the specification does |
| `Playout.Schedule.RememberArrival` | crates/tpf3mp-agent/src/playout.rs:137-151 | the two loops at the ends of the queue leave what `RememberBuffers` is about |
| `Playout.Schedule.RebaseAt` | crates/tpf3mp-agent/src/playout.rs:126-135 | starts the schedule over in place |
| `Playout.Schedule.TakePace` | crates/tpf3mp-agent/src/playout.rs:70-87 | a new speed starts the schedule over |
| `Playout.Schedule.Turn` | crates/tpf3mp-agent/src/playout.rs:70-87 | in place what `OnTurnBuffers` is about |
| `Playout.Schedule.RecordPlayed` | crates/tpf3mp-agent/src/playout.rs:106-108 | notes the last step played |
| `Evenness.IdealIs` | crates/tpf3mp-agent/src/playout.rs:110-121 | a step is ideally played the margin after the latest arrival no older than `memory`, carried to that step at pace; no ideal is known exactly while nothing arrived |
| `Evenness.SpanIs` | crates/tpf3mp-agent/src/playout.rs:153-160 | a span is the most whole microseconds, of those a 64-bit count holds, that do not exceed the time the steps take |
| `Evenness.ImpliedIs` | crates/tpf3mp-agent/src/playout.rs:162-165 | an arrival implies the base step came its distance earlier, or at the same time where the clock does not reach so far back |
| `Evenness.NotBeforeItArrives` | crates/tpf3mp-agent/src/playout.rs:80-86 | no step from the newly sealed one on is ideally played sooner than the margin after it arrived |
| `Evenness.DueIs` | crates/tpf3mp-agent/src/playout.rs:89-103 | nothing is due that is not sealed; a step is due at its ideal time, or at once where nothing is known of it, but no sooner than a converging step after the last one while the client converges |
| `Evenness.PumpIsEven` | crates/tpf3mp-agent/src/playout.rs:89-103 | however many steps one pump lets go, each less than a second behind its ideal time is due at least a step at 105 percent after the one before; one further behind is due at its ideal time |
| `Evenness.PumpWaits` | crates/tpf3mp-agent/src/playout.rs:89-103 | no sealed step is let go before its ideal time |
| `Evenness.SpeedChangeIsEven` | crates/tpf3mp-agent/src/playout.rs:123-135 | after a change of speed steps go on at the new pace from the last one played, a step's time after it or at once, whichever is later |
| `Gate.Session.constructor` | crates/tpf3mp-bridge/src/gate.rs:80-87 | a gate before step 1 |
| `Gate.Session.Take` | crates/tpf3mp-bridge/src/session.rs:296-318 | handles one message as the specification does, or errs and changes nothing |
| `Gate.Session.PollStep` | crates/tpf3mp-bridge/src/session.rs:221-239 | reads messages until the gate may run, a load waits or nothing is left, as the specification does |
| `Gate.Session.StepRan` | crates/tpf3mp-bridge/src/session.rs:255-263 | a step that ran moves the gate on, or errs and changes nothing |
| `Gate.Session.WorldLoaded` | crates/tpf3mp-bridge/src/session.rs:203-216 | a load report is taken only for the load that waits; both refusals change nothing |
| `Guard.EveryRunIsGuarded` | crates/tpf3mp-bridge/src/gate.rs:118-167 | for every run of polling, stepping and loading, with any messages at all on the link: the game ran consecutive steps from where its world was loaded, none that was not released, and applied each event right before the step it is for |
| `Guard.HandleGuards` | crates/tpf3mp-bridge/src/gate.rs:118-160 | a message the gate takes keeps that, an event it takes is for a step not yet released, and what was released stays so |
| `Guard.PollGuards` | crates/tpf3mp-bridge/src/session.rs:221-239 | so does polling a link with anything on it |
| `Bridge.Outbox.constructor` | crates/tpf3mp-agent/src/bridge.rs:952-995 | empty, with its byte count |
| `Bridge.Outbox.PushBack` | crates/tpf3mp-agent/src/bridge.rs:968-971 | appends and keeps the byte count exact |
| `Bridge.Outbox.PushFront` | crates/tpf3mp-agent/src/bridge.rs:973-976 | prepends and keeps the byte count exact |
| `Bridge.Outbox.PopFront` | crates/tpf3mp-agent/src/bridge.rs:982-986 | takes the first and keeps the byte count exact |
| `Bridge.Outbox.RetainNotices` | crates/tpf3mp-agent/src/bridge.rs:853-865 | drops exactly events, releases and loads, keeps the order of the rest and the byte count exact |
| `Bridge.Outbox.IsFull` | crates/tpf3mp-agent/src/bridge.rs:993-995 | decides from the count what the messages' total weight says |
| `Bridge.PumpInto` | crates/tpf3mp-agent/src/bridge.rs:1169-1206 | the loop of the pump in place, on a follower, a schedule and an outbox: it leaves what the specification says, and stops rightly, as `PumpPlays` says |
| `Bridge.PumpPlays` | crates/tpf3mp-agent/src/bridge.rs:1169-1206 | for any pacing: every step the pump hands out was due by now on the playout as the steps before left it; it waits exactly for the time the next step falls due, which is later than now; and it stops without waiting only with the outbox full or nothing left to hand out |
| `Pipeline.StepKeepsInv` | crates/tpf3mp-bridge/src/session.rs:221-239 | of a client alone: whatever arrives and whenever anything runs, the gate errs only past the last step number there is, and what the game did in each world is a prefix of what that world's stream performs |
| `Pipeline.PumpKeeps` | crates/tpf3mp-agent/src/bridge.rs:1169-1206 | for any pacing and however full the outbox: what the pump puts on the way is exactly what it takes from the follower, every event of step s after the release of s - 1 and before that of s |
| `Pipeline.StreamKeeps` | crates/tpf3mp-agent/src/bridge.rs:749-865 | a new stream that continues, restarts or offers a world keeps every world's messages apart |
| `Pipeline.ReadPlaying` | crates/tpf3mp-bridge/src/gate.rs:118-160 | a session that reads only when its gate may not run never reads a message out of order |
| `Pipeline.RestIsDone` | crates/tpf3mp-bridge/src/session.rs:221-239 | a client with nothing on its way, nothing let through and a follower that has handed out all it took: its game has done exactly what its stream performs |
| `Pipeline.AttachingInv` | crates/tpf3mp-bridge/src/session.rs:142-198 | the invariant holds when a hook attaches |
| `Loads.ReportsFit` | crates/tpf3mp-agent/src/bridge.rs:477-489 | while no stream needing another world arrives over a load already sent and unanswered, no report of an honest game breaks the bridge |
| `Loads.SupersededIsOverdue` | crates/tpf3mp-agent/src/bridge.rs:477-489 | a stream that overtakes an unanswered load leaves reports to come that the bridge does not wait for |
| `Loads.DrainKeeps` | crates/tpf3mp-agent/src/bridge.rs:453-520 | working off what is on its way (flushing, reading, stepping, loading, hearing) leaves less to do, keeps what is overdue and what is not, and faults only over what is |
| `Loads.OverdueMoves` | crates/tpf3mp-agent/src/bridge.rs:453-520 | while a report is overdue, something on its way can be worked off |
| `Overtaking.EveryRunUnovertaken` | crates/tpf3mp-agent/src/bridge.rs:477-489 | of the whole system: a run in which no stream overtakes an unanswered load stops only for want of room in the follower |
| `Overtaking.NextForClient` | crates/tpf3mp-agent/src/bridge.rs:583-683 | whatever step the system takes, the client changes only by the one step it is for the client |
| `Overtaking.ReportFaults` | crates/tpf3mp-agent/src/bridge.rs:477-489 | only a load report can be refused as ordered by nobody or for another world |
| `Overtaking.EveryDrain` | crates/tpf3mp-agent/src/bridge.rs:477-489 | working off what is on its way, in whatever order and however far: it faults only if a report is overdue, settles none, does no more than there is to do; and while one is overdue and it has not faulted, something is left to work off |
| `Overtaking.DrainFails` | crates/tpf3mp-agent/src/bridge.rs:477-489 | if a report is overdue there is such a drain that faults; over a world nobody ordered if one is being fetched |
| `Overtaking.EveryOvertakenRun` | crates/tpf3mp-agent/src/bridge.rs:477-489 | the converse for every run: right after a load was overtaken it can go on to a load fault with nothing but what is on its way |
| `Overtaking.EveryOvertakenDrain` | crates/tpf3mp-agent/src/bridge.rs:477-489 | and whichever way it goes on with what is on its way, it has ended in a load fault or has something left to work off, and only so much |
| `Stalls.HonestRunFails` | crates/tpf3mp-agent/src/bridge.rs:1124-1130 | a run of the system, whatever the rules: a guest joins a running game, fetches the save offered to it and has its game load it; a turn sealed and sent meanwhile is lost in a crash, so the room cannot resume the guest; the save is offered again, and the game's report ends the run in a fault over a world nobody ordered |
| `Sequencer.SealBatchesLog` | crates/tpf3mp-server/src/room.rs:2721-2765 | sealing turn by turn logs exactly the turns sealing publishes |
| `Sequencer.Game.constructor` | crates/tpf3mp-server/src/room.rs:2545-2574 | a game that sealed nothing |
| `Sequencer.Game.AppendEvent` | crates/tpf3mp-server/src/room.rs:2706-2716 | orders an event in place, with the next number, for the step after the frontier |
| `Sequencer.Game.TakeBatches` | crates/tpf3mp-server/src/room.rs:2721-2765 | the loop that splits pending events leaves the batches `SpreadKeeps` is about |
| `Sequencer.Game.SealTurns` | crates/tpf3mp-server/src/room.rs:2721-2765 | seals in place what `SealKeeps` is about and returns the turns it published |
| `Sequencer.Game.SealEach` | crates/tpf3mp-server/src/room.rs:2721-2765 | the loop over batches: only the last turn moves the frontier |
| `Sequencer.Game.SealBatch` | crates/tpf3mp-server/src/room.rs:2721-2765 | one turn of that loop |
| `Sequencer.Game.RememberTurn` | crates/tpf3mp-server/src/room.rs:2768-2772 | logs a turn and trims, in place |
| `Sequencer.Game.TrimLog` | crates/tpf3mp-server/src/room.rs:2776-2787 | the loop that trims leaves what `TrimLongest` is about |
| `Sealing.SpreadKeeps` | crates/tpf3mp-server/src/room.rs:2721-2765 | splitting loses nothing, reorders nothing and leaves no batch empty |
| `Sealing.BatchesKeep` | crates/tpf3mp-server/src/room.rs:2721-2765 | the batches of the pending events are at least one and carry exactly those events |
| `Sealing.PublishedGreedy` | crates/tpf3mp-server/src/room.rs:2721-2765 | of the turns sealing publishes each carries one event or at most the payload budget, and one was closed only because the next event did not fit |
| `Sealing.SpreadIsGreedy` | crates/tpf3mp-server/src/room.rs:2721-2765 | so while the batches are filled |
| `Sealing.TurnsForChain` | crates/tpf3mp-server/src/room.rs:2721-2765 | the turns of the batches continue the chain, carry their events in order and end at the frontier |
| `Sealing.PublishedChain` | crates/tpf3mp-server/src/room.rs:2721-2765 | what sealing publishes continues the chain with exactly the pending events; a turn without events is alone |
| `Sealing.EntriesLogged` | crates/tpf3mp-server/src/room.rs:2721-2765 | logging turns with the event that follows them all records where each one started |
| `Sealing.TrimLongest` | crates/tpf3mp-server/src/room.rs:2776-2787 | trimming stops exactly at the longest suffix within both limits, newest turn always kept |
| `Sealing.RememberLongest` | crates/tpf3mp-server/src/room.rs:2768-2787 | after one more turn the window is the longest suffix of all turns, and its first turn, frontier before it and byte count describe it |
| `Sealing.RememberAllLongest` | crates/tpf3mp-server/src/room.rs:2768-2787 | so after any number of turns |
| `Sealing.NewGameSealed` | crates/tpf3mp-server/src/room.rs:2545-2574 | a new game has sealed the empty chain |
| `Sealing.AppendKeeps` | crates/tpf3mp-server/src/room.rs:2706-2716 | ordering an event keeps the chain and the window |
| `Sealing.SealKeeps` | crates/tpf3mp-server/src/room.rs:2721-2787 | sealing extends the one chain by turns that carry exactly the pending events and end at the new frontier, and the window is again the longest suffix |
| `Streams.SealedWindow` | crates/tpf3mp-server/src/room.rs:2768-2787 | in every state sealing reaches, each kept turn records the cursor before and after it |
| `Streams.StreamAfterExactly` | crates/tpf3mp-server/src/room.rs:2841-2890 | a resume is served exactly when its history shares the turn and the window holds the rest; the stream starts at the chain's cursor there, with exactly the turns after it |
| `Streams.ResumeFits` | crates/tpf3mp-agent/src/follower.rs:82-112 | a follower that stopped anywhere in the window passes `restart` on the stream it is served |
| `Streams.AcceptsAllExactly` | crates/tpf3mp-agent/src/follower.rs:120-167 | a run of turns is accepted exactly when it continues the stream and fits in the follower's room, and is then held in full and in order |
| `Streams.ResumeCatchesUp` | crates/tpf3mp-agent/src/follower.rs:82-167 | it accepts the backlog and all later turns exactly if it has room for them, and does with them what a follower that never disconnected does |
| `Streams.HistoryIsOnlyAName` | crates/tpf3mp-agent/src/follower.rs:120-167 | accepting never looks at the history |
| `Streams.HonestBacklogCanBeRefused` | crates/tpf3mp-agent/src/follower.rs:120-167 | room is a real condition: a follower that only accepts, as while its world is fetched, refuses what a room publishes once it has ordered and sealed 5462 commands of the largest payload |
| `Streams.SaveEndsItsTurn` | crates/tpf3mp-server/src/room.rs:2152-2198 | every save is the last event of its turn, which moves no frontier, and its point describes it |
| `Streams.PointStays` | crates/tpf3mp-server/src/room.rs:2444-2470 | a point stays right in any log that shares its turns |
| `Streams.SaveStream` | crates/tpf3mp-server/src/room.rs:2827-2838 | a save's stream is served exactly while resuming there is, and starts at the event after the save and the save's frontier |
| `Streams.SaveContinues` | crates/tpf3mp-agent/src/follower.rs:66-77 | what turn 1 up to the save perform, which ends with the save, followed by what the save's stream performs is what following from turn 1 performs |
| `Recovery.CheckSequence` | crates/tpf3mp-server/src/room.rs:740-744 | the loop over a turn's events passes exactly consecutive numbers |
| `Recovery.Rebuild` | crates/tpf3mp-server/src/room.rs:676-776 | the loop over records does what the recursive `Recover` does, with every refusal |
| `Compaction.CompactionPreserves` | crates/tpf3mp-server/src/room.rs:1436-1509 | a log rewritten as base, kept turns and tail recovers to the same counters, frontier, speed, histories, seats, owner, window and rules state as the whole log and is refused with it; or is refused, if and only if its counters or seats are more than recovery believes of any room |
| `Compaction.CompactionsPreserve` | crates/tpf3mp-server/src/room.rs:1436-1509 | so for any records at all, over any run of records appended and rewrites begun, installed and failed, as long as what each rewrite starts from is believed; a room's own runs are, by `Rewrites.EveryRun` |
| `Rewrites.EveryRun` | crates/tpf3mp-server/src/room.rs:1436-1509 | a room's log on disk over any run of turns sealed, rewrites begun, installed and failed, and crashes that leave any part of it past what a rewrite flushed: no recovery is ever refused, and between turns the live room is what its log recovers to |
| `Rewrites.NextKeeps` | crates/tpf3mp-server/src/room.rs:1436-1509 | whatever happens to the log, the room takes at most a step of a room that never rewrites its log |
| `Rewrites.LiveIsOnDisk` | crates/tpf3mp-server/src/room.rs:1436-1468 | between turns a live room is what both its whole log and the rewritten one recover to |
| `Rewrites.InstallKeeps` | crates/tpf3mp-server/src/room.rs:1473-1509 | a rewrite put in place with every turn sealed since stands for all that was ever logged |
| `Rewrites.BreakRecovers` | crates/tpf3mp-server/src/room.rs:649-776 | what a crash leaves of the log is never refused and recovers to what the same turns of the whole log recover to |
| `Rewrites.BreakKeeps` | crates/tpf3mp-server/src/room.rs:812-837 | the room that comes back is the one that would have come back without rewrites |
| `Compaction.OpenCompacted` | crates/tpf3mp-server/src/room.rs:2578-2650 | a base just taken is restored to the room before its first kept turn, or refused exactly if implausible |
| `Compaction.KeptReplay` | crates/tpf3mp-server/src/room.rs:699-776 | reading the kept turns takes the room to where it was compacted, with seats, owner and rules untouched, and on from there |
| `Compaction.ReplayOn` | crates/tpf3mp-server/src/room.rs:699-776 | past its base, a log is read the same whatever its base |
| `Compaction.ReplayAppend` | crates/tpf3mp-server/src/room.rs:699-776 | reading a log in two parts is reading it in one |
| `Compaction.ReplaySound` | crates/tpf3mp-server/src/room.rs:699-776 | whatever a log recovers to has a window that joins up and fits its limits |
| `Compaction.RecoverSound` | crates/tpf3mp-server/src/room.rs:649-776 | so for every recovered room |
| `Server.RecoverImage` | crates/tpf3mp-server/src/room.rs:649-776 | a log as a room writes it is never refused, and recovers to a room that holds exactly what it says |
| `Legible.RecoversExactly` | crates/tpf3mp-server/src/room.rs:649-776 | of any records whatever: they are read if and only if the base could have been written and is restored, every turn, event number and frontier goes on where the records before it end, every marker names the place it stands at past the base, and the turns a compacted log repeats end exactly where its base says |
| `Server.LiveIsRecovered` | crates/tpf3mp-server/src/room.rs:649-776 | between turns the live room equals the room its log recovers to |
| `Server.ImageUnique` | crates/tpf3mp-server/src/room.rs:649-776 | a log leaves nothing of a room open |
| `Server.WindowUnique` | crates/tpf3mp-server/src/room.rs:2776-2787 | there is one longest suffix, so a window rebuilt from the log is the live one |
| `Server.LinedCut` | crates/tpf3mp-server/src/room.rs:819-837 | losing the end of the log keeps what every history shares with it |
| `Server.LinedFresh` | crates/tpf3mp-server/src/room.rs:2658-2661 | a new history starts with what is left |
| `Server.LinedGrow` | crates/tpf3mp-server/src/room.rs:2301-2321 | sealing grows the current history alone |
| `Server.SharedTurns` | crates/tpf3mp-server/src/room.rs:2841-2862 | a resume point the histories admit is within turns that history and the log have in common, although lost numbers were used again |
| `Lifetime.BirthKeeps` | crates/tpf3mp-server/src/room.rs:1308-1384 | a room that starts holds what its log says |
| `Lifetime.LiveKeeps` | crates/tpf3mp-server/src/room.rs:649-879 | every step of a room's life (ordering, changing speed, sealing, saving, crashing back to any prefix of the log) keeps all of it |
| `Lifetime.WitnessSeats` | crates/tpf3mp-server/src/room.rs:748-759 | ownership read from events passes to the earliest remaining player, as the live room passed it, and no more sit than the room admits |
| `Tables.RoomIs` | crates/tpf3mp-server/src/room.rs:748-759 | in every state the rules' state is the fold of `apply` over exactly the ordered events, those sit whose last coming or going was a joining, in the order of it, and the first of them owns the room |
| `Tables.RulesAre` | crates/tpf3mp-server/src/room.rs:748-759 | witnessing events applies the rules to each of them, once and in order |
| `Tables.SeatsAre` | crates/tpf3mp-server/src/room.rs:748-759 | and seats whoever's last event is a joining |
| `Lifetime.SeatsFit` | crates/tpf3mp-server/src/room.rs:1162-1171 | in every state no more players sit in a room than it has seats |
| `Lifetime.OrderKeeps` | crates/tpf3mp-server/src/room.rs:2706-2716 | ordering keeps it |
| `Lifetime.SealImage` | crates/tpf3mp-server/src/room.rs:2721-2765 | after sealing the room holds what its longer log says |
| `Lifetime.SealUpKeeps` | crates/tpf3mp-server/src/room.rs:2301-2321 | sealing and logging keep it |
| `Lifetime.SaveUpKeeps` | crates/tpf3mp-server/src/room.rs:2152-2198 | so does a save, whose point is then right for its history |
| `Lifetime.CrashRecovers` | crates/tpf3mp-server/src/room.rs:649-776 | any prefix of the log recovers to a room that holds exactly that prefix |
| `Lifetime.ComeBackKeeps` | crates/tpf3mp-server/src/room.rs:819-837 | the restored room, under a fresh history, keeps it |
| `Words.MaskIsRemainder` | crates/tpf3mp-ipc/src/ring.rs:196-241 | masking bit by bit with a power of two less one is the remainder |
| `Words.RemainderOfRemainder` | crates/tpf3mp-ipc/src/ring.rs:196-241 | the slot of a wrapped counter is the slot of the count |
| `Words.Distance` | crates/tpf3mp-ipc/src/ring.rs:99-147 | wrapping subtraction of free-running counters is their true distance |
| `Words.LittleEndianBack` | crates/tpf3mp-ipc/src/ring.rs:99-147 | a length prefix reads back |
| `Words.LittleEndianForth` | crates/tpf3mp-ipc/src/ring.rs:133-147 | and no two prefixes mean the same |
| `Ring.SlotOf` | crates/tpf3mp-ipc/src/ring.rs:196-241 | a counter that wrapped at 2^32 points at the slot of the byte it counts |
| `Ring.StreamNext` | crates/tpf3mp-ipc/src/ring.rs:152-189 | after the first n messages of a stream comes exactly the next one's frame |
| `Ring.WriteAside` | crates/tpf3mp-ipc/src/ring.rs:196-215 | writing where nothing is stored leaves what is stored, through the buffer's wrap |
| `RingRuns.EveryInterleaving` | crates/tpf3mp-ipc/src/ring.rs:99-241 | for every interleaving of the two sides' load, byte-copy and publish steps, through every wrap: messages taken out are a prefix of those whose push succeeded, in order, and neither side is ever told of corruption |
| `RingRuns.WritesMissUnread` | crates/tpf3mp-ipc/src/ring.rs:196-215 | no byte the producer writes is in a slot that holds unread bytes |
| `RingRuns.RoomKeeps` | crates/tpf3mp-ipc/src/ring.rs:99-128 | a push is refused exactly when the frame does not fit |
| `RingRuns.LookKeeps` | crates/tpf3mp-ipc/src/ring.rs:133-147 | a tail loaded earlier still tells of whole messages, and nothing is reported exactly when it shows none |
| `RingRuns.DecideKeeps` | crates/tpf3mp-ipc/src/ring.rs:133-189 | the length read is the next message's, and a buffer is too small exactly when it is shorter |
| `RingRuns.FinishKeeps` | crates/tpf3mp-ipc/src/ring.rs:152-189 | a pop takes exactly the oldest message |
| `RingRuns.TakeKeeps` | crates/tpf3mp-ipc/src/ring.rs:99-241 | any single step keeps the ring's invariant and reports the truth |
| `SharedRing.Buffer.constructor` | crates/tpf3mp-ipc/src/ring.rs:71-85 | an empty ring |
| `SharedRing.Buffer.Push` | crates/tpf3mp-ipc/src/ring.rs:99-128 | on the array: refuses exactly when too large, full or corrupt, and then changes nothing; otherwise the contents gain the message |
| `SharedRing.Buffer.PopInto` | crates/tpf3mp-ipc/src/ring.rs:152-189 | on the array: takes the oldest message into the caller's buffer, or says none, too small or corrupt, and then changes nothing |
| `SharedRing.Buffer.PeekLen` | crates/tpf3mp-ipc/src/ring.rs:133-147 | the length of the oldest message, if any |
| `SharedRing.Buffer.WriteWrapping` | crates/tpf3mp-ipc/src/ring.rs:196-215 | the two-part copy puts the bytes around the end of the buffer and touches no other |
| `SharedRing.Buffer.ReadWrapping` | crates/tpf3mp-ipc/src/ring.rs:222-241 | the two-part copy reads the bytes around the end |
| `LogFile.CrashAtAnyByte` | crates/tpf3mp-server/src/persist.rs:304-377 | a log cut at any byte: past the start record reading gives exactly the whole records before the cut and `into_log` leaves exactly their bytes; inside it, damage is reported; at byte 0, nothing is read |
| `LogFile.CutReads` | crates/tpf3mp-server/src/persist.rs:304-349 | so from any record on |
| `LogFile.ReadIsPrefix` | crates/tpf3mp-server/src/persist.rs:304-349 | whatever a file holds, reading changes nothing and the records read are its first bytes |
| `LogDamage.DamageIsReported` | crates/tpf3mp-server/src/persist.rs:304-349 | a file that goes on after its good records with something else that ends before the file does: the good records are read, the damage is reported where it starts, nothing is noted as torn and the file is never cut |
| `LogDamage.OnlyTornEndsAreCut` | crates/tpf3mp-server/src/persist.rs:353-377 | for any bytes whatever: a log is taken over only if reading met no damage, and then only a last record that reaches past the end of the file is cut off |
| `LogDamage.NextIs` | crates/tpf3mp-server/src/persist.rs:304-340 | a record is read exactly if an intact one stands there, described apart by length, size and checksum; otherwise it is torn exactly if it is not the first and reaches the end of the file, and damaged else |
| `LogDamage.StopsAt` | crates/tpf3mp-server/src/persist.rs:304-349 | reading on stops at the first place without an intact record, and errs exactly if that is not a torn end |
| `LogDamage.MismatchIsNotIntact` | crates/tpf3mp-server/src/persist.rs:331-337 | a checksum that does not fit is not an intact record |
| `LogFile.RecordRead` | crates/tpf3mp-server/src/persist.rs:304-340 | a record read is the very bytes there, within its size limit; otherwise the place does not move |
| `LogFile.AppendAfterCrash` | crates/tpf3mp-server/src/persist.rs:255-281 | what is appended to what a crash left is read back after it |
| `LogFile.RoomLog.constructor` | crates/tpf3mp-server/src/persist.rs:353-377 | takes over the bytes written so far |
| `LogFile.RoomLog.AppendRecord` | crates/tpf3mp-server/src/persist.rs:255-281 | appends a record in place, or refuses and leaves the file |
| `LogFile.LogReader.constructor` | crates/tpf3mp-server/src/persist.rs:233-250 | a reader at byte 0 |
| `LogFile.LogReader.Next` | crates/tpf3mp-server/src/persist.rs:304-340 | reads one record in place |
| `LogFile.LogReader.Tear` | crates/tpf3mp-server/src/persist.rs:342-349 | a torn end is noted, a torn start is damage |
| `LogFile.LogReader.ReadRecords` | crates/tpf3mp-server/src/persist.rs:304-349 | the loop over all records is what `CrashAtAnyByte` is about |
| `Pacing.RunConserves` | crates/tpf3mp-server/src/pacing.rs:70-98 | over any run of ticks the cap does not bind, at one speed, the clock gains exactly what the ticks' whole microseconds are worth |
| `Pacing.Conserves` | crates/tpf3mp-server/src/pacing.rs:70-98 | so for one tick |
| `Pacing.SplitTick` | crates/tpf3mp-server/src/pacing.rs:70-98 | two ticks come to the same as one of their joint length if and only if their fractions of a microsecond do not make a whole one |
| `Pacing.SplitExactly` | crates/tpf3mp-server/src/pacing.rs:70-98 | the microseconds lost by splitting: none exactly then, else one |
| `Pacing.SplittingLoses` | crates/tpf3mp-server/src/pacing.rs:70-98 | a microsecond in two halves is lost |
| `Pacing.TickSettles` | crates/tpf3mp-server/src/pacing.rs:70-98 | after any unheld tick the ideal clock plus lead is at most the frontier, whatever debt there was, and the frontier stays within the cap or where it was |
| `Pacing.TickGains` | crates/tpf3mp-server/src/pacing.rs:70-98 | without debt a tick gains at most the steps its time covers, and a held tick moves nothing |
| `Pacing.NeverRushes` | crates/tpf3mp-server/src/pacing.rs:70-98 | so over any ticks, however long held or capped |
| `Pacing.WindowHoldsLead` | crates/tpf3mp-server/src/pacing.rs:49-62 | the window always has room for the lead |
| `Pacing.LeadIsLeast` | crates/tpf3mp-server/src/pacing.rs:48-55 | the lead is the least whole number of steps that covers the input delay, and at least one; none in a pause |
| `Pacing.WindowIsLeast` | crates/tpf3mp-server/src/pacing.rs:57-62 | the window is that lead, at the normal speed or faster, and the least number of steps that covers how far ahead a client may be |
| `Pacing.StepsAreLeast` | crates/tpf3mp-server/src/pacing.rs:42-46 | the steps in a duration are the least that cover it |
| `Pacing.Pacer.constructor` | crates/tpf3mp-server/src/pacing.rs:25-33 | starts at step 0 |
| `Pacing.Pacer.Resume` | crates/tpf3mp-server/src/pacing.rs:37-40 | starts again at a step |
| `Pacing.Pacer.Tick` | crates/tpf3mp-server/src/pacing.rs:70-98 | advances in place as the lemmas above say |
| `RoomClock.EveryRunBehind` | crates/tpf3mp-server/src/room.rs:1574-1646 | in every state of every run all reported progress is at most the frontier, which never falls |
| `RoomClock.StepKeeps` | crates/tpf3mp-server/src/room.rs:1574-1613 | one event keeps it; a report past the frontier cuts its member off, and what another report does is `ProgressIs` |
| `RoomClock.ProgressIs` | crates/tpf3mp-server/src/room.rs:1591-1613 | after a report its member follows if and only if it was loading or following or the step is within the window of the frontier; it then follows at the step reported or further on if it was; the stall clock restarts exactly if it began to follow or got further; nobody else changes |
| `RoomClock.FollowsFurthest` | crates/tpf3mp-server/src/room.rs:1591-1613 | over any number of reports a follower stands at the furthest of them |
| `RoomClock.FarBehindHoldsNobody` | crates/tpf3mp-server/src/room.rs:1591-1613 | no report of a member further behind than the window moves the slowest follower |
| `RoomClock.OnlyReportsMove` | crates/tpf3mp-server/src/room.rs:1574-1646 | nothing but a report makes anybody follow or follow further |
| `RoomClock.TickSafe` | crates/tpf3mp-server/src/room.rs:2255-2298 | the frontier moves only when nobody who holds the clock loads and someone follows, and never past the slowest follower plus the window; never in a pause |
| `RoomClock.StalledAreDemoted` | crates/tpf3mp-server/src/room.rs:1619-1646 | in an unpaused room exactly whoever stalled is catching up before that tick's frontier is computed, and the frontier is as if they had been all along |
| `RoomClock.DemotionIs` | crates/tpf3mp-server/src/room.rs:1619-1646 | in an unpaused room exactly those are demoted that load past the deadline, and those that stream and follow behind the frontier and got no further for the stall timeout; each catches up from where it stood and nothing else of it changes |
| `RoomClock.PausedRestarts` | crates/tpf3mp-server/src/room.rs:1619-1646 | in a pause nobody is demoted and every stall clock restarts |
| `RoomClock.SlowestIs` | crates/tpf3mp-server/src/room.rs:2481-2493 | nothing if someone who holds the clock loads or nobody follows, else the minimum over followers, attained by one |
| `RoomClock.SlowestPacer` | crates/tpf3mp-server/src/room.rs:2481-2493 | the loop returns that |
| `RoomClock.Clock.constructor` | crates/tpf3mp-server/src/room.rs:2545-2574 | any clock state |
| `RoomClock.Clock.ReportProgress` | crates/tpf3mp-server/src/room.rs:1574-1613 | takes a report in place, as `ProgressIs` is about |
| `RoomClock.Clock.DemoteStalled` | crates/tpf3mp-server/src/room.rs:1619-1646 | the loop over members |
| `RoomClock.Clock.Demote` | crates/tpf3mp-server/src/room.rs:1619-1646 | one member of that loop |
| `RoomClock.Clock.OnTick` | crates/tpf3mp-server/src/room.rs:2255-2298 | demotes and then seals, in place |
| `Verdict.MajorityExactly` | crates/tpf3mp-server/src/verdict.rs:75-79 | a value wins a lane outright exactly when more than half the reports say it |
| `Verdict.VerdictIs` | crates/tpf3mp-server/src/verdict.rs:29-92 | on every lane the verdict is what more than half the reports say, counted as a set of reports, and where no value has more than half what the anchor says: the report whose platform no other outnumbers among the reports, and of those on platforms that common the first to have joined and then to have reported |
| `Verdict.AccusedOf` | crates/tpf3mp-server/src/verdict.rs:29-66 | exactly those are accused, with exactly those lanes, whose report says on them something else than the verdict |
| `Verdict.VerdictPermutes` | crates/tpf3mp-server/src/verdict.rs:29-92 | where all that could be the anchor agree on every lane without a majority, verdict and accused do not depend on the order of reports |
| `Verdict.OrderDecidesExactly` | crates/tpf3mp-server/src/verdict.rs:29-92 | the verdict is the same in every order of the reports if and only if they agree so |
| `Verdict.DistinctOrdersAgree` | crates/tpf3mp-server/src/verdict.rs:81-92 | with distinct join positions they do: one report alone can be the anchor, the one `VerdictIs` describes |
| `Verdict.RepeatedOrderCanDecide` | crates/tpf3mp-server/src/verdict.rs:81-92 | two reports with one position: their order decides |
| `Verdict.DivergesExactly` | crates/tpf3mp-server/src/verdict.rs:60-66 | a report has no diverging lane exactly when its lanes are the verdict |
| `Verdict.DivergedExactly` | crates/tpf3mp-server/src/verdict.rs:29-56 | exactly the players with another report than the verdict are accused |
| `Verdict.MajorityRules` | crates/tpf3mp-server/src/verdict.rs:29-92 | lanes that more than half report are the verdict, and exactly the players with others diverge |
| `Verdict.CandidatesAre` | crates/tpf3mp-server/src/snapshots.rs:366-387 | candidates for upload are exactly the saves with a world whose player nobody accused, in join order |
| `Verdict.CandidatesAgree` | crates/tpf3mp-server/src/snapshots.rs:366-387 | all of them reported the same lanes |
| `Verdict.BuildVerdict` | crates/tpf3mp-server/src/verdict.rs:29-56 | the loop over lanes builds the verdict `VerdictIs` describes |
| `Rounds.EveryRun` | crates/tpf3mp-server/src/room.rs:1648-1757 | over any run of reports, deadlines and departures: no step gets two verdicts, no closed round opens again, a player counts once a round, no verdict rests on fewer than two reports, at most 64 rounds are open and 64 decided ones kept; every verdict is what reports of its round decide, one from each player and at least two |
| `Rounds.CheckpointKeeps` | crates/tpf3mp-server/src/room.rs:1648-1723 | a report keeps all that, and gives a verdict only for a step without one |
| `Rounds.DecideWaitingKeeps` | crates/tpf3mp-server/src/room.rs:1729-1757 | so does deciding what waited, several at once |
| `Rounds.CheckpointGives` | crates/tpf3mp-server/src/room.rs:1648-1723 | a report gives a verdict exactly if it is taken, is its player's first in an undecided round, is not the only one, and everybody who paces the room has then reported; the verdict is what those reports decide |
| `Rounds.CheckpointTakes` | crates/tpf3mp-server/src/room.rs:1648-1723 | a report counts exactly if it is for a sealed step that is a whole number of intervals, in a round that is open or may open; it is then added unless its player had reported, and any other changes nothing |
| `Rounds.WaitingLeaves` | crates/tpf3mp-server/src/room.rs:1729-1757 | a tick leaves exactly those rounds undecided that are within the deadline and lack reports, unchanged |
| `Rounds.WaitingGives` | crates/tpf3mp-server/src/room.rs:1729-1757 | waiting gives a verdict exactly for undecided rounds of two or more reports that are past the deadline or complete, and it is what those reports decide |
| `Rounds.ClosedStaysClosed` | crates/tpf3mp-server/src/room.rs:2686-2702 | no report for a round that closed is taken |
| `Rounds.RoundTable.constructor` | crates/tpf3mp-server/src/room.rs:2545-2574 | no rounds |
| `Rounds.RoundTable.CloseRound` | crates/tpf3mp-server/src/room.rs:2699-2702 | closes in place |
| `Rounds.RoundTable.PruneRounds` | crates/tpf3mp-server/src/room.rs:2686-2697 | the loop that closes the oldest decided rounds |
| `Rounds.RoundTable.TakeReport` | crates/tpf3mp-server/src/room.rs:1648-1723 | takes a report in place, as `CheckpointKeeps` is about |
| `Rounds.RoundTable.DecideDue` | crates/tpf3mp-server/src/room.rs:1729-1757 | decides in place, as `DecideWaitingKeeps` is about |
| `Rounds.RoundTable.JudgeAll` | crates/tpf3mp-server/src/room.rs:1729-1757 | its loop over rounds |
| `Rounds.RoundTable.CloseExpired` | crates/tpf3mp-server/src/room.rs:1729-1757 | its loop over what ran out of time |
| `Holds.EveryInterleaving` | crates/tpf3mp-server/src/snapshots.rs:127-164 | for every interleaving of holds with the two locked phases of releases: counts are exactly the holds, and once no release is under way every retained snapshot is held |
| `Holds.HeldIsKept` | crates/tpf3mp-server/src/snapshots.rs:127-164 | a retained snapshot that somebody holds all the while stays retained |
| `Holds.StepKeeps` | crates/tpf3mp-server/src/snapshots.rs:127-164 | no step takes from the store what is held once the step is done |
| `Holds.Snapshots.constructor` | crates/tpf3mp-server/src/snapshots.rs:107-120 | nothing held, nothing retained |
| `Holds.Snapshots.TakeHold` | crates/tpf3mp-server/src/snapshots.rs:127-129 | counts a hold |
| `Holds.Snapshots.GiveUp` | crates/tpf3mp-server/src/snapshots.rs:134-149 | the first lock: counts down and finds what nobody holds |
| `Holds.Snapshots.DropUnheld` | crates/tpf3mp-server/src/snapshots.rs:153-164 | the second lock: drops what is still unheld |
| `LuaNumbers.FloorDivIsLua` | crates/tpf3mp-canon/src/lua.rs:41-50 | for all operands up to 2^53 - 1 and a divisor that is not zero, the integer answer is the floor of any nearest double of the quotient (section 4.3.1 of IEEE 754-2008) |
| `LuaNumbers.FloorDivIsLuaRounded` | crates/tpf3mp-canon/src/lua.rs:41-50 | so for rounding with ties to even, and the quotient is in the range of normal doubles |
| `LuaNumbers.ModuloIs` | crates/tpf3mp-canon/src/lua.rs:57-69 | a remainder is given exactly when the magnitudes together stay exact and the divisor is not zero; it is a - floor(a / b) * b with every intermediate exact |
| `LuaNumbers.ModuloIsLua` | crates/tpf3mp-canon/src/lua.rs:57-69 | rounding quotient, product and difference in any nearest way gives the same |
| `LuaNumbers.ExactIsLua` | crates/tpf3mp-canon/src/lua.rs:22-39 | sums, differences and products are given exactly when operands and result are exact, and rounding leaves them |
| `LuaNumbers.FloorDivAnyIs` | crates/tpf3mp-canon/src/lib.rs:66-74 | division is refused exactly for a zero divisor or an overflowing quotient, and else floors |
| `LuaNumbers.MulDivFloorIs` | crates/tpf3mp-canon/src/lib.rs:42-55 | amount times numerator over denominator is floored however large the product, and refused only for zero or a result that does not fit |
| `Doubles.RoundNearest` | crates/tpf3mp-canon/src/lua.rs:41-50 | rounding to even gives a nearest double, for zero and for magnitudes from 2^-54 up to 2^53, where quotients of exact integers lie |
| `Doubles.FloorStays` | crates/tpf3mp-canon/src/lua.rs:41-50 | a nearest double of a fraction with a denominator below 2^53 never reaches the next integer |
| `Doubles.DoubleStays` | crates/tpf3mp-canon/src/lua.rs:22-24 | what is a double rounds to itself |
| `Doubles.Between` | crates/tpf3mp-canon/src/lua.rs:41-50 | a nearest double lies between any two doubles around |
| `LuaData.AcceptsExactly` | crates/tpf3mp-agent/src/save_check.rs:243-302 | on any token sequence the parser accepts exactly the grammar: `function data() return TABLE end`, perhaps a semicolon, tables of literals, none more than 128 levels below the outermost |
| `LuaData.DataParses` | crates/tpf3mp-agent/src/save_check.rs:243-302 | what an otherwise good tree prints is accepted if and only if no table in it is too deep |
| `LuaData.DataSound` | crates/tpf3mp-agent/src/save_check.rs:243-302 | whatever is accepted was printed by a tree of the grammar |
| `LuaData.FieldsDepthDecides` | crates/tpf3mp-agent/src/save_check.rs:260-294 | of otherwise good trees the grammar has exactly those whose depth fits |
| `LuaData.DepthDecides` | crates/tpf3mp-agent/src/save_check.rs:260-294 | the parser refuses what an otherwise good tree prints exactly when some table is more than 128 levels below the outermost |
| `LuaData.DeepestAccepted` | crates/tpf3mp-agent/src/save_check.rs:260-294 | the parser accepts n + 1 tables one in another if and only if they are at most 129 |
| `LuaText.CheckLuaData` | crates/tpf3mp-agent/src/save_check.rs:40-47 | terminates on every input, and admits exactly text that is short enough and whose tokens are in the grammar; what the tokens are is `LuaLexemes.AdmittedIs` |
| `LuaLexemes.AdmittedIs` | crates/tpf3mp-agent/src/save_check.rs:40-47 | text has tokens in the grammar if and only if it divides to its very end into words, blanks and comments whose words are in the grammar |
| `LuaLexemes.TokensAreWords` | crates/tpf3mp-agent/src/save_check.rs:92-141 | the tokens of any text are the words of its division into words, blanks and comments, described by how they are written, and then its end or what is none of them |
| `LuaLexemes.OneDivision` | crates/tpf3mp-agent/src/save_check.rs:92-141 | every text divides in one way only |
| `LuaLexemes.EveryTextDivides` | crates/tpf3mp-agent/src/save_check.rs:92-141 | and every text does |
| `LuaLexemes.FirstStands` | crates/tpf3mp-agent/src/save_check.rs:92-141 | at most one word, blank or comment stands at any place: the one the lexer finds there |
| `LuaLexemes.StringIs` | crates/tpf3mp-agent/src/save_check.rs:145-165 | the lexer ends a string exactly where one ends: a quote, items that are each a plain character or a backslash with the character or line break it takes along, and the quote |
| `LuaLexemes.NumberIs` | crates/tpf3mp-agent/src/save_check.rs:168-227 | a number is found exactly if a numeral stands there, and it is the longest: `inf` and `nan` as whole words, hexadecimal, or decimal with perhaps a fraction and an exponent, each perhaps negative |
| `LuaLexemes.NameIs` | crates/tpf3mp-agent/src/save_check.rs:128-137 | a name is found whole |
| `LuaLexemes.CommentIs` | crates/tpf3mp-agent/src/save_check.rs:105-112 | a comment goes from two hyphens to the end of its line |
| `LuaComments.NoneIsPlain` | crates/tpf3mp-agent/src/save_check.rs:92-141 | in text in which a long bracket never follows two hyphens, the check reads exactly the tokens Lua reads (section 2.1 of the Lua 5.1 Reference Manual) |
| `LuaComments.PlainReadsAlike` | crates/tpf3mp-agent/src/save_check.rs:92-141 | so already if no comment the check meets opens with a long bracket |
| `LuaComments.AdmittedIsWhatLuaReads` | crates/tpf3mp-agent/src/save_check.rs:35-47 | what is admitted with no such comment is in the grammar as Lua reads it too |
| `LuaComments.LongDecides` | crates/tpf3mp-agent/src/save_check.rs:105-112 | at a comment that does, they read alike exactly if Lua finds after the closing bracket what the check finds after the line |
| `LuaComments.LongCanDiffer` | crates/tpf3mp-agent/src/save_check.rs:105-112 | and they need not |
| `LuaText.Parser.constructor` | crates/tpf3mp-agent/src/save_check.rs:67-76 | at the start of the text |
| `LuaText.Parser.Advance` | crates/tpf3mp-agent/src/save_check.rs:92-141 | yields the token the specification of the lexer yields, or refuses |
| `LuaText.Parser.TakeString` | crates/tpf3mp-agent/src/save_check.rs:145-165 | ends where the lexer's specification ends the string, which `LuaLexemes.StringIs` says is where a string ends |
| `LuaText.Parser.TakeNumber` | crates/tpf3mp-agent/src/save_check.rs:168-227 | ends where the number ends, or refuses it, as `LuaLexemes.NumberIs` is about |
| `LuaText.Parser.Expect` | crates/tpf3mp-agent/src/save_check.rs:229-241 | takes exactly the wanted token |
| `LuaText.Parser.Parse` | crates/tpf3mp-agent/src/save_check.rs:243-258 | accepts exactly what the recursive parser over tokens accepts |
| `LuaText.Parser.TakeTable` | crates/tpf3mp-agent/src/save_check.rs:260-294 | the loop over fields takes exactly a table of that parser |
| `LuaText.Parser.TakeField` | crates/tpf3mp-agent/src/save_check.rs:260-294 | exactly a field |
| `LuaText.Parser.TakeLiteral` | crates/tpf3mp-agent/src/save_check.rs:296-302 | exactly a value |

## Left out

- QUIC, TLS, tunnels, sockets, admin HTTP, launchers, command lines and metrics: plumbing around libraries.
- HMAC, Ed25519, BLAKE3, the strength of the checksum and random names: functions or freshness here.
- Memory ordering below atomic publish steps, the mapping of shared memory and the hook's entry points.
- The chunk store, manifests and transfers of worlds: a fetch is an event that ends with a file of the snapshot it was of, or does not.
- Lobby, joining, kicking, chat, passwords, intents and their rate limits: easy members around the sequencer; a running room orders any admissible event.
- The banned set: a kick in the lobby is in no event, so a log cannot restore it.
- Content fingerprints of members and of a compaction's base: copied, never computed with.
- The postcard encoding of records: a record decodes to what was encoded, and a failure to encode closes the room in the source.
- A recovered room nobody sits in, which the source deletes: it is modelled as one that does not come back.
- Streams of several clients at once: the system has one client, whose old stream ends when a new one opens; rooms serve each client from the same log.
- Uploads' deadlines, retries of uploaders and promotion of a save: of save rounds the model has the verdict and the candidates.
- File sizes, symbolic links and the renaming of logs: a log is its records or its bytes; a rewrite is put in place whole or not at all.
- Pipeline.StepKeepsInv: a session told to end, or sent a notice, before its game began is no step of the model; the hook refuses such a message before it ever waits at the gate.
- How a Lua interpreter reads script data beyond where its comments end: its strings, numbers and names are taken to be those of `LuaLexemes`.
- Compaction.CompactionsPreserve: says nothing of runs in which a rewrite starts from more turns, events or players than recovery believes; `Compaction.CompactionPreserves` says what becomes of one such rewrite, and no room makes one.
- Server.RecoverImage: is about logs without a base; `Rewrites.BreakRecovers` carries it over to rewritten ones.
- Server.LiveIsRecovered: is about logs without a base; `Rewrites.LiveIsOnDisk` carries it over to rewritten ones.
- Line numbers and texts of the errors of the script-data check: it says yes or no.
- Times that a clock cannot represent: an instant plus a duration never fails here; that moving before the clock's start does is modelled.
- Sequencer.StreamAfter: has one guard the source has not, against a window shorter than its counters say; `Streams.StreamAfterExactly` shows it never decides.
- Python tools, profiles, pattern scanning, the detour engine and the economy port: not part of this model.

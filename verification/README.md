# Groupmate: a verified model of its protocols and schedulers

Groupmate is a chat plugin whose own logic is a set of small protocols: reply lanes that
serialise the answers of a group, a durable scheduler of autonomous opportunities, a debounced
attention window per group, a runtime that starts, drains and closes, and an evaluation pipeline
that reviews, freezes and trusts decision records. This project models those parts in Dafny and
proves what they promise, over every input and, for the protocols, over every interleaving.

Each concurrent protocol is a transition system: `Apply` is one uninterrupted stretch of a
coroutine or one database statement, `Run` a sequence of such steps, and exceptions and
cancellations are steps of their own. Where the program updates objects in place there is also a
class with the same fields, whose methods are proved against the functions that the transition
system uses. Loops of the program are loops here, proved against a specification.

| file | component |
|---|---|
| `ReplyLanes.dfy`, `ReplyOrder.dfy`, `ReplyTails.dfy` | reply lanes per group: reserve, wait for the predecessor, lock, finish, prune; the order of service; left-over tails |
| `Autonomy.dfy`, `AutonomyRuns.dfy` | autonomous opportunities: workers that advance rows by compare-and-swap; early emissions |
| `Attention.dfy`, `AttentionRuns.dfy` | routing of events and the ambient window; its runs |
| `Lifecycle.dfy` | start, ingest, drain and close of the runtime manager over the actor registry |
| `Simulation.dfy` | the virtual-time server simulation with admission expiry |
| `Projection.dfy`, `Streaming.dfy` | the batch projector and the round-robin backlog of the load runner |
| `Shadow.dfy`, `ShadowRuns.dfy`, `ShadowOverlap.dfy` | record, review, freeze and trust of the shadow corpus; its runs; a run of two freeze calls |
| `ReviewQueue.dfy` | selection of focus points and scenes for review, without leaks between the splits |
| `Governor.dfy` | hard gates and choice of a social intention |
| `Dialogue.dfy` | canonical turns, session, ranking and text budget of the dialogue reader |
| `Basics.dfy`, `Sorting.dfy` | shared definitions |

`dafny verify dfyconfig.toml` checks everything.

## What does not hold, and when it does

* **Order of service after an abort.** A lane promises first reserved, first served. That holds in
  every run whose aborts leave behind no older reservation of the group that can still enter its
  critical section (`ReplyOrder.FirstReservedFirstServed`). The condition is exact: after any such
  run, an abort that meets it is followed by service in order whatever comes next, and an abort that
  does not meet it can be continued by a run that overtakes (`ReplyOrder.AbortKeepsOrderIff`; a
  concrete run is `AbortBreaksOrder`). Mutual exclusion, exact user counts and progress survive every
  abort.
* **Left-over tails.** No tail leaks as long as aborts come only after the predecessor has completed
  (`ReplyLanes.NoTailLeaks`). The condition is exact: after any such run, an abort that comes earlier
  can be continued, without any further abort, to a registry that is empty but for the tail entry
  (`ReplyTails.AbortKeepsTailsIff`, `SpoiltTail`). The step that leaves it is the last one of a lane,
  exactly when the reservation that finishes there is not the newest (`TailLeftBehind`).
* **Overlapping opportunity workers.** The due loop does not look at `earliest_at` of the record it
  has just read. A worker emits an opportunity early exactly when another call moved its earliest
  time between the worker's due query and its last read of the row, and the last such move was to a
  time after the query's (`EarlyIffPostponed`; a run is `OverlapEmitsEarly`). Attention drops the
  early ones (`EmissionsAreAttendedExactlyWhenDue`).
* **Cancelled close and drain calls.** A close call cancelled after it set `_closing`, or a drain
  cancelled while it waits for the lock to leave, means that no teardown ever happens again
  (`LostNeverTearsDown`; runs are `CancelledCloseBlocksClose` and `CancelledDrainBlocksClose`).
  Without such a loss every call can return and every close tears down (`CallsCanReturn`).
* **Overlapping freeze calls.** The manifest is looked for outside the transaction that commits, so
  a freeze call that overlaps another issues a second manifest. `ShadowOverlap.Overlap` is such a run
  from the empty repository, with any number of reviewed rows from 100 on. Three promises fail in it:
  * the frozen corpus changes (`OverlapBreaksCorpus`), exactly when the later commit selected a row
    that was not frozen yet (`OverlapChangesCorpusIff`); once no freeze call of the scope is under way
    the corpus is constant forever (`FrozenCorpusIsConstant`);
  * calibration no longer precedes holdout (`OverlapBreaksCorpus`). It does in every run while the
    latest manifest is the first (`FirstManifestIsInTime`), and a later commit keeps it exactly when
    each row it newly freezes lies on its side of the rows frozen before (`LaterCommitKeepsTimeIff`);
  * a read of the corpus, which takes the manifest and the rows one after the other, reports a
    mismatch (`OverlapFailsRead`), exactly when a commit in between froze a new row of the scope
    (`ReadFailsIffOvertaken`).
* **Overlapping record calls.** A capture that found no conflict is silently ignored, with another
  content left under its id, exactly when another call stored that content between its lookup and
  its insert (`IgnoredIffOvertaken`).

## Model

| member | source | states |
|---|---|---|
| ReplyLanes.MutualExclusion | groupmate/adapters/astrbot_bridge.py:1471-1547 | in every reachable state, aborts included: at most one critical section per group, all live reservations of a group share one lock, the lock and user maps have the same keys, user counts are exact, and the next reservation prunes no lane |
| ReplyOrder.FirstReservedFirstServed | groupmate/adapters/astrbot_bridge.py:1471-1516 | in every run whose aborts leave behind no older reservation of the group that can still enter, critical sections of a group run in reservation order |
| ReplyOrder.AbortFreeIsConsiderate | groupmate/adapters/astrbot_bridge.py:1471-1499 | abort-free runs are among them |
| ReplyOrder.AbortKeepsOrderIff | groupmate/adapters/astrbot_bridge.py:1485-1499 | after any such run, an abort keeps the order of service in every such continuation if and only if no older live reservation of its group can still enter |
| ReplyOrder.SpoiltOrder | groupmate/adapters/astrbot_bridge.py:1485-1499 | from any such abort in front of an older reservation a continuation without further aborts serves out of order |
| ReplyLanes.NoTailLeaks | groupmate/adapters/astrbot_bridge.py:1518-1537 | in every run whose aborts all come after their predecessor completed, tails and user counts belong to the same groups |
| ReplyLanes.AbortFreeIsPatient | groupmate/adapters/astrbot_bridge.py:1471-1499 | abort-free runs are among them |
| ReplyTails.AbortKeepsTailsIff | groupmate/adapters/astrbot_bridge.py:1485-1537 | after any such run, an abort leaves no tail behind in any such continuation, nor in any without further aborts, if and only if its predecessor's completion is already set |
| ReplyTails.SpoiltTail | groupmate/adapters/astrbot_bridge.py:1485-1537 | after any abort in front of an older reservation a continuation without further aborts ends with nobody live, no user count and the tail entry left |
| ReplyLanes.AbortBreaksOrder | groupmate/adapters/astrbot_bridge.py:1471-1537 | a concrete run in which an aborted second reservation lets the third overtake the first and a tail entry stays behind |
| ReplyLanes.TailLeftBehind | groupmate/adapters/astrbot_bridge.py:1518-1537 | the last reservation of a lane removes lock and user count, and leaves the tail if and only if a newer reservation finished earlier |
| ReplyLanes.TailIsNewest | groupmate/adapters/astrbot_bridge.py:1501-1516 | the predecessor a reservation finds is at least as new as every live reservation of the group |
| ReplyLanes.NoDeadlock | groupmate/adapters/astrbot_bridge.py:1471-1499 | while a reservation is live some coroutine can step without a new call or an abort |
| ReplyLanes.RunsAreBounded | groupmate/adapters/astrbot_bridge.py:1471-1537 | without new reservations every run is finite, with a bound on its length |
| ReplyLanes.LanesDrain | groupmate/adapters/astrbot_bridge.py:1518-1537 | every reachable state can drain to no live reservation, no lock and no user count |
| ReplyLanes.PruneSparesUsedLanes | groupmate/adapters/astrbot_bridge.py:1539-1547 | pruning removes only lanes without users whose lock is free, with their tails, and changes no other lane |
| ReplyLanes.PruneKeepsUsedRegistry | groupmate/adapters/astrbot_bridge.py:1539-1547 | when every lane has users pruning changes nothing, however many lanes there are |
| ReplyLanes.PruneStopsAtLimit | groupmate/adapters/astrbot_bridge.py:1539-1547 | pruning changes nothing within the limit and never leaves fewer lanes than it |
| ReplyLanes.ReservedLanes | groupmate/adapters/astrbot_bridge.py:1501-1516 | a reservation below 128 lanes prunes none, and none ever loses its user count |
| ReplyLanes.ReplyLaneRegistry.ReserveReplyLane | groupmate/adapters/astrbot_bridge.py:1501-1516 | the lock is the registered one or new, the predecessor is the old tail, and the maps become the enlisted registry after pruning |
| ReplyLanes.ReplyLaneRegistry.FinishReplyLane | groupmate/adapters/astrbot_bridge.py:1518-1537 | the completion is set and the maps become the discharged registry |
| ReplyLanes.ReplyLaneRegistry.PruneIdleReplyLanes | groupmate/adapters/astrbot_bridge.py:1539-1547 | visits the lanes in some order, stops at the limit, and above the limit only used or locked lanes remain |
| Autonomy.RowsAreAccounted | groupmate/social_runtime/autonomy.py:288-420 | under any interleaving and crash: identity kept, created_earliest_at <= earliest_at < expires_at, attempts agree with follow-ups and status, the last event id is the one of the last attempt |
| Autonomy.BoundedEvents | groupmate/social_runtime/autonomy.py:288-420 | at most max_attempts, so at most two, distinct event ids of an opportunity reach the sink |
| Autonomy.EmissionsAreGenuine | groupmate/social_runtime/autonomy.py:288-345 | every event in the sink belongs to a stored opportunity and tells its sources, reasons, subject, audience, kind and attempt, was made from an attempt already claimed and before the expiry; an attempt marked emitted was delivered |
| Autonomy.NeverGoesBack | groupmate/social_runtime/autonomy.py:307-453 | the phase of an opportunity only grows over any run, one write moves it one phase or expires it, and expired is absorbing |
| Autonomy.StaleClaimMarksNothing | groupmate/social_runtime/autonomy.py:338-345 | recording an emission changes a row if and only if it still is that very claim, never a later attempt |
| Autonomy.RewritesAreAccepted | groupmate/social_runtime/autonomy.py:89-166 | every record a worker builds passes the constructor's checks, in every reachable state |
| Autonomy.EmittedWasDelivered | groupmate/social_runtime/autonomy.py:338-345 | a row becomes emitted only by the final write of a worker whose event is already in the sink |
| Autonomy.AfterMeans | groupmate/social_runtime/autonomy.py:298-345 | one pass, field by field: expired, put off by quiet time, held back by a scene, relationship, boundary or budget gate with status, attempts and time unchanged, or emitted with the next attempt and the versions of the revalidation |
| Autonomy.DecideMeans | groupmate/social_runtime/autonomy.py:326-337 | a claim is sent if and only if nothing speaks against it and the row was still the one read; after a lost race the row is read again |
| Autonomy.RereadMeans | groupmate/social_runtime/autonomy.py:334-337 | whoever lost the race sends what the row has become if it is an attempt under way, and drops it otherwise |
| AutonomyRuns.EmissionsWereAllowed | groupmate/social_runtime/autonomy.py:316-340 | in every run each event that reaches the sink was preceded by a decision on its opportunity with all four gates open, out of quiet time and before the expiry |
| Autonomy.ProposedAdvances | groupmate/social_runtime/autonomy.py:298-345 | the record a pass writes is the next in the life of the one it read, and the attempts of a scheduled one are never used up |
| Autonomy.FollowedUpAdvances | groupmate/social_runtime/autonomy.py:347-376 | a follow-up re-schedules an emitted opportunity as the next record and passes the constructor |
| Autonomy.LoneWorkersEmitInWindow | groupmate/social_runtime/autonomy.py:298-345 | while workers never overlap, every emission lies in [earliest_at, expires_at) |
| AutonomyRuns.EarlyIffPostponed | groupmate/social_runtime/autonomy.py:288-345 | over every run, an emission is early if and only if another call moved the row between this worker's due query and its last read, and the last such move was to a time after the query's |
| AutonomyRuns.StepMoves | groupmate/social_runtime/autonomy.py:298-376 | only a postponement out of quiet time and a committed follow-up move the earliest time of a stored opportunity, to exactly their time |
| AutonomyRuns.RowFollowsOthers | groupmate/social_runtime/autonomy.py:288-345 | until a worker reads a row, its earliest time is that of the last move by another call, or unchanged |
| Autonomy.InWindowIffReadDue | groupmate/social_runtime/autonomy.py:298-345 | one step: the event carries the window of the record in hand |
| Autonomy.OverlapEmitsEarly | groupmate/social_runtime/autonomy.py:299-340 | for every opportunity that can be postponed, two overlapping workers emit it before its earliest time |
| Autonomy.ConstructedIsRegular | groupmate/social_runtime/autonomy.py:89-166 | the constructor yields normalised records that keep every rule, and is the identity on those |
| Autonomy.ConstructedIff | groupmate/social_runtime/autonomy.py:89-166 | which records the constructor accepts, in terms of the fields as given, and what it makes of them |
| Basics.DistinctIsDistinct | groupmate/social_runtime/autonomy.py:46-50 | the id lists are deduplicated without losing a value |
| Basics.DistinctKeepsOrder | groupmate/social_runtime/autonomy.py:46-50 | the values stand in the order in which they occur first |
| Autonomy.ProcessedRows | groupmate/social_runtime/autonomy.py:298-345 | an undisturbed due loop handles every due row once, by itself, and no other row |
| Autonomy.EmittedTogether | groupmate/social_runtime/autonomy.py:288-345 | the records an undisturbed loop returns are emitted, and match the events of the sink one by one |
| Autonomy.AutonomousOpportunityScheduler.Schedule | groupmate/social_runtime/autonomy.py:226-275 | inserts a fresh record, returns the stored one for the same specification, rejects everything else, a negative time included, without a change |
| Autonomy.AutonomousOpportunityScheduler.Persist | groupmate/social_runtime/autonomy.py:422-453 | compare-and-swap on the full row |
| Autonomy.AutonomousOpportunityScheduler.Claim | groupmate/social_runtime/autonomy.py:378-420 | swaps in the next attempt or returns the row that is there |
| Autonomy.AutonomousOpportunityScheduler.ScheduleFollowUp | groupmate/social_runtime/autonomy.py:347-376 | succeeds exactly for an emitted opportunity with budget left and a time inside its window; an id that is not there is an error |
| Autonomy.AutonomousOpportunityScheduler.ProcessDue | groupmate/social_runtime/autonomy.py:298-345 | one undisturbed pass: the row becomes its next record and exactly its event, if any, is emitted, as the fields of row and revalidation say |
| Autonomy.AutonomousOpportunityScheduler.DueIds | groupmate/social_runtime/autonomy.py:290-297 | exactly the due rows, each once, in the order of the query |
| Autonomy.AutonomousOpportunityScheduler.RunDue | groupmate/social_runtime/autonomy.py:288-345 | a negative time is an error; else the loop is the composition of its passes in due order and returns the emitted records in that order |
| Attention.BoundedListIsExact | groupmate/social_runtime/attention.py:428-435 | repeated bounded appends equal the last entries of the keep-last deduplication of everything appended |
| Attention.RecentFollowsKeepLast | groupmate/social_runtime/attention.py:428-435 | one bounded append follows the unbounded one |
| Attention.RecordedIsExact | groupmate/social_runtime/attention.py:341-346 | pruning only at the front keeps exactly the messages of the last 60 seconds |
| Attention.ClaimIsAdmissible | groupmate/social_runtime/attention.py:265-303 | the event of a claimed opportunity passes every guard if and only if earliest_at <= now < expires_at |
| Attention.AdmissibleIff | groupmate/social_runtime/attention.py:265-303 | which opportunity payloads pass the guards, in terms of the fields as received |
| Attention.EmissionsAreAttendedExactlyWhenDue | groupmate/social_runtime/attention.py:265-325 | whatever the scheduler emits yields one TEMPORAL frame with its own audience exactly while it is due, and none otherwise |
| Attention.RoutingMeans | groupmate/social_runtime/attention.py:67-179 | which frame, if any, an event yields at once and what that frame says, and which events are debounced: ineligible, opportunity, commitment, call, lease, message, in that order |
| Attention.AttentionScheduler.OnEvent | groupmate/social_runtime/attention.py:67-179 | routes an event in the order of the source and updates window and rate of its group as specified; a foreign or unprojected world is an error that changes nothing |
| Attention.AttentionScheduler.RecordMessageTime | groupmate/social_runtime/attention.py:341-354 | the deque becomes the recorded one and the delay is 2, 3 or 5 seconds by its length |
| Attention.AttentionScheduler.SortDue | groupmate/social_runtime/attention.py:181-190 | the due windows, by deadline and then group, each once |
| Attention.AttentionScheduler.FlushDue | groupmate/social_runtime/attention.py:181-194 | returns the frames of exactly the due windows in that order and removes exactly those |
| AttentionRuns.HistoryIsCutIntoWindows | groupmate/social_runtime/attention.py:134-194 | over any run the ambient messages of a group are its flushed windows followed by the pending one: nothing lost, repeated, reordered or moved to another group |
| AttentionRuns.WindowsAreExactAndPrompt | groupmate/social_runtime/attention.py:136-194 | each window shows the last 12 events, 4 topics and 8 audiences of its messages and is due at most 8 seconds after each of them |
| AttentionRuns.DeadlinesAreExact | groupmate/social_runtime/attention.py:136-179 | the debounce over every run: each pending and each closed window is due at the smaller of last + 2, 3 or 5 seconds and first + 8, by the number of messages of the group in the minute up to the last one; a pending window carries the versions of the last event |
| AttentionRuns.FlushMeans | groupmate/social_runtime/attention.py:181-194 | a flush yields the windows that are due as they stand, and no window that is due is left |
| AttentionRuns.RateIsExact | groupmate/social_runtime/attention.py:341-354 | the count behind the delay is the number of the group's messages in the last 60 seconds |
| AttentionRuns.AtMostOneFrame | groupmate/social_runtime/attention.py:134-194 | with distinct ids no event is shown in two frames, or in a frame and the pending window |
| AttentionRuns.ShownInItsWindowOnly | groupmate/social_runtime/attention.py:134-194 | in every run each message has exactly one window, closed or pending, which shows it if and only if fewer than 12 newer ones came after it there; no other window or frame shows it |
| AttentionRuns.ShownUnlessDisplaced | groupmate/social_runtime/attention.py:154-162 | one list of members: it shows a message if and only if fewer than 12 newer ones came after it there |
| AttentionRuns.ReceiveIsLocal | groupmate/social_runtime/attention.py:134-179 | an event of one group touches no other group's window or rate |
| Lifecycle.TeardownExcludesWork | groupmate/social_runtime/manager.py:1077-1102 | in every reachable state a teardown overlaps no counted drain or snapshot, no start, no ingest and no other teardown, and nobody is starting an actor |
| Lifecycle.IdleTellsDrains | groupmate/social_runtime/manager.py:1665-1675 | the idle event is set if and only if no drain is counted; the count is the number of drains inside the bracket plus those cancelled while leaving |
| Lifecycle.OneTeardownPerStart | groupmate/social_runtime/manager.py:1077-1102 | however many close calls run, starts and teardowns alternate and at most one call is the closer |
| Lifecycle.RegistryIsExact | groupmate/social_runtime/event_fabric.py:33-83 | at most one live actor per key apart from those a failed teardown left behind, a closed fabric registers none, and no caller that may ask for an actor meets a closed fabric |
| Lifecycle.TeardownNeverWaits | groupmate/social_runtime/manager.py:1093-1095 | a teardown always finds the fabric lock free |
| Lifecycle.ClosedUntilOpened | groupmate/social_runtime/manager.py:1093-1102 | in every run, from the end of any teardown until a start call opens the fabric again, the fabric is closed, its registry empty, no further teardown happens, and no call asks for an actor, drains or closes; actors still alive were left behind by a failed teardown |
| Lifecycle.ClosedUntilStartCall | groupmate/social_runtime/manager.py:1093-1102 | in particular until the next start call, when none was waiting for that teardown |
| Lifecycle.StoppedUntilStarted | groupmate/social_runtime/manager.py:1677-1679 | while stopped, be it after a teardown or a start that failed, and without a start call, the fabric is never touched and every work or close call ends without effect |
| Lifecycle.CloseReturnsAfterTeardown | groupmate/social_runtime/manager.py:1077-1102 | a close call that found the runtime started returns only after a teardown that ended after it was made, its own or another's |
| Lifecycle.CloseCallTearsDown | groupmate/social_runtime/manager.py:1077-1102 | a close call that finds the runtime started, whenever it gets to look, returns only after a further teardown |
| Lifecycle.FailedStartTearsDown | groupmate/social_runtime/manager.py:568-574 | a start call whose recovery fails returns only after the runtime it started was torn down |
| Lifecycle.StartReturnsStarted | groupmate/social_runtime/manager.py:551-580 | a start call returns without an error only if the runtime was started and not closing at some time during the call |
| Lifecycle.AskedForAll | groupmate/social_runtime/manager.py:551-568 | when a start, drain or ingest is done asking, each group it was made for has its actor |
| Lifecycle.FailedTeardownLeavesActors | groupmate/social_runtime/event_fabric.py:78-83 | when closing the actors fails, those that still live are out of reach for good |
| Lifecycle.NoDeadlock | groupmate/social_runtime/manager.py:551-1102 | unless a close was abandoned or a drain leaked, some call can always go on |
| Lifecycle.RunsAreBounded | groupmate/social_runtime/manager.py:551-1102 | without new calls every run is finite, failures included |
| Lifecycle.LostNeverTearsDown | groupmate/social_runtime/manager.py:1092-1102 | after such a loss no teardown ever happens and a closing runtime stays closing |
| Lifecycle.CallsCanReturn | groupmate/social_runtime/manager.py:551-1102 | without such a loss every call can return, and a runtime that is closing is torn down |
| Lifecycle.CancelledDrainBlocksClose | groupmate/social_runtime/manager.py:1671-1675 | a concrete run: a drain cancelled while an ingest holds the lock leaves the close call waiting with nobody able to step |
| Lifecycle.CancelledCloseBlocksClose | groupmate/social_runtime/manager.py:1077-1102 | a concrete run: a close call cancelled after it set the closing flag leaves the next close call waiting for a teardown that never comes, with no work under way |
| Lifecycle.SocialEventFabric.Open | groupmate/social_runtime/event_fabric.py:33-35 | opens and keeps the registry |
| Lifecycle.SocialEventFabric.Notify | groupmate/social_runtime/event_fabric.py:37-49 | rejects an empty group, then a closed fabric, else returns the registered actor or registers a new running one |
| Lifecycle.SocialEventFabric.Close | groupmate/social_runtime/event_fabric.py:78-83 | closes, empties the registry and stops every actor that was in it |
| Lifecycle.SocialRuntimeManager.BeginDrain | groupmate/social_runtime/manager.py:1665-1669 | enters the bracket exactly when started and not closing |
| Lifecycle.SocialRuntimeManager.EndDrain | groupmate/social_runtime/manager.py:1671-1675 | leaves the bracket and sets the idle event when the count reaches zero |
| Lifecycle.SocialRuntimeManager.BeginClose | groupmate/social_runtime/manager.py:1077-1088 | nothing to close, follow another closer, or become the closer |
| Lifecycle.SocialRuntimeManager.TearDown | groupmate/social_runtime/manager.py:1093-1102 | closes the fabric and resets the lifecycle fields |
| Lifecycle.SocialRuntimeManager.StartLocked | groupmate/social_runtime/manager.py:551-568 | waits while closing, does nothing when started, else opens the fabric and adds exactly the pending enabled groups |
| Simulation.Simulate | eval/load_runner.py:581-647 | the loop ends, and its figures are those of a schedule: never more than `limit` jobs at once, no idle server while a job waits, nobody overtaken out of lane order, ambient jobs start exactly when they can still make 8000 ms, the cost is that of exactly the started jobs, jobs are reported as they finish and of those that finish together the one started earlier first, the peak is the busiest moment, and the counter of fast jobs that went first is exact |
| Simulation.AllReported | eval/load_runner.py:602-610 | job by job: the latency reported at the place of the p-th fast or ambient job to leave is its start plus its duration less its arrival, and its completion is its finish |
| Simulation.LanesAreKept | groupmate/social_runtime/cognition/scheduling.py:29-67 | FAST before CONTINUATION before TEMPORAL before AMBIENT, and first come first served within a lane: no job starts while one that goes before it has arrived and waits |
| Simulation.JobsAreConserved | eval/load_runner.py:602-647 | fast, ambient and other completions and expiries add up to all jobs, and no ambient latency exceeds 8000 ms |
| Simulation.CompletionsAscend | eval/load_runner.py:602-610 | in a schedule reported in finish order the completion times ascend |
| Simulation.FastIsNeverOvertaken | groupmate/social_runtime/cognition/scheduling.py:29-67 | a fast job that has arrived starts no later than any ambient one started after that |
| Simulation.TimePasses | eval/load_runner.py:627-637 | moving the clock to the next event skips no finish and no arrival |
| Simulation.RoundKeepsInv | eval/load_runner.py:595-637 | one round keeps the schedule so far, never moves time back, and brings the end nearer |
| Simulation.EnqueueArrivals | eval/load_runner.py:598-601 | exactly the jobs that have arrived join the queue, and none that has is left |
| Simulation.RetireFinished | eval/load_runner.py:602-610 | exactly the finished jobs leave the servers, earliest finish first, and are reported; those left finish later |
| Simulation.HeadPasses | eval/load_runner.py:620-621 | the fast job at the head goes ahead of a waiting ambient one exactly when one has arrived and is not decided |
| Simulation.RoundKeepsPeak | eval/load_runner.py:623-626 | after every round the peak is the largest number of busy servers so far |
| Simulation.AdmitWaiting | eval/load_runner.py:611-626 | jobs are admitted or expire until the servers are full or nothing waits, and the figures and the peak follow |
| Simulation.EnqueuedOf | groupmate/social_runtime/cognition/scheduling.py:35-45 | enqueueing keeps lane priority and first-in-first-out order and adds exactly the job |
| Projection.ProjectionLatencies | eval/load_runner.py:650-670 | ends with one positive latency per completion, in completion order, each item leaving in its slot |
| Projection.SlotsAreFeasible | eval/load_runner.py:659-669 | the recurrence slot(i) = max(c(i) div 1000, slot(i - capacity) + 1) never projects an item early, out of order, or more than `capacity` in a second |
| Projection.SlotsAreLeast | eval/load_runner.py:659-669 | no assignment that does so projects any item earlier |
| Projection.SlotsAscend | eval/load_runner.py:665-668 | projection is first in, first out |
| Streaming.StreamWorkload | eval/load_runner.py:328-356 | ingested = committed + dropped with dropped = ingested div drop_every, backlog = committed - served, and if the capacity covers the rate nothing waits at the end of a second and the peak is at most the rate; under any load each backlog at the end is that of the rotation that starts one group further every second, and the peak is the largest load of a group in a second |
| Streaming.Serve | eval/load_runner.py:350-354 | each group is served exactly its turns: capacity div groups, and one more if the partial lap reaches it |
| Streaming.Arrive | eval/load_runner.py:340-349 | every group gains at most the rate, and exactly that when nothing is dropped; the peak follows |
| Streaming.TurnsNext | eval/load_runner.py:351-352 | the closed form of a group's turns follows the rotation slot by slot |
| Streaming.RotationIsFair | eval/load_runner.py:350-354 | over as many seconds as there are groups every group has exactly `capacity` turns |
| ShadowRuns.ReadFailsIffOvertaken | eval/shadow.py:756-775 | a read of the corpus reports a mismatch if and only if a commit between its look at the manifest and its fetch of the rows froze a new row of the scope; else it serves the corpus it began with |
| Shadow.DriftIsDetected | eval/shadow.py:756-775 | a corpus is served against a manifest if and only if it has its very content, and carries its version |
| ShadowRuns.FrozenCorpusIsConstant | eval/shadow.py:679-791 | once a scope is frozen and no freeze call on it is under way every read, overlapped or not, serves the same corpus forever, whatever is recorded, reviewed or frozen |
| ShadowRuns.FrozenRowsStay | eval/shadow.py:633-640 | a frozen row keeps its label and split for good |
| ShadowRuns.OnlyLiveIsFrozen | eval/shadow.py:692-703 | in every run each frozen row was captured by the installed program in SHADOW mode and judged reasonable or unreasonable |
| ShadowRuns.FrozenCorpusIsLarge | eval/shadow.py:692-706 | in every run a frozen corpus holds at least 100 records |
| ShadowRuns.FrozenRecordsTell | eval/shadow.py:1144-1200 | in every run a frozen record carries id, lane, body, time, group, categories, label, verdict and split of its row |
| Shadow.SelectedIff | eval/shadow.py:692-716 | a freeze takes exactly the live judged decisions of the scope; it refuses if and only if they are too few, or those of a required scene |
| ShadowRuns.SelectMeans | eval/shadow.py:692-716 | a freeze call that is refused ends without effect; otherwise it holds its selection until it commits |
| ShadowRuns.FrozenRecordsAreJudged | eval/shadow.py:641-677 | in every run each record of a frozen corpus has a label and known scene categories |
| Shadow.ReviewedMeans | eval/shadow.py:603-677 | a review changes exactly its row: verdict, categories without repetition or the suggested ones, and the label the verdict stands for; or it gives the first objection: frozen, reviewed, unknown category, none, correction missing or unexpected |
| Shadow.ReviewedMissingIff | eval/shadow.py:619-632 | a target is missing if and only if no row of the scope has its id |
| ShadowRuns.ReviewedOnlyOnce | eval/shadow.py:637-640 | after a successful review, whatever runs in between, every later review of the row fails |
| ShadowRuns.CalibrationShare | eval/shadow.py:717-718 | with at least 100 rows the calibration share is the fraction rounded down, at least one row, and never all |
| ShadowRuns.FirstFreezeSplitsByTime | eval/shadow.py:692-728 | the first freeze is exactly the selected rows in (occurred_at, decision_id) order, the oldest calibrate, all later ones are held out, and neither split is empty |
| ShadowRuns.FirstManifestIsInTime | eval/shadow.py:692-728 | in every run, while the latest manifest of a scope is the first, every calibration record precedes every holdout record and neither split is empty |
| ShadowRuns.LaterCommitKeepsTimeIff | eval/shadow.py:690-754 | after a further commit calibration precedes holdout if and only if it did before and each row it newly freezes lies on its side of the rows frozen before |
| ShadowRuns.OverlapChangesCorpusIff | eval/shadow.py:690-754 | a freeze committed after another of the scope raises the manifest version and changes the corpus if and only if it selected a row not yet frozen |
| ShadowOverlap.OverlapBreaksCorpus | eval/shadow.py:690-754 | a run from the empty repository, with any number of reviewed rows from 100 on, in which two freeze calls overlap: the frozen corpus changes, gets version 2 and is no longer in order of time |
| ShadowOverlap.OverlapFailsRead | eval/shadow.py:690-771 | a read around the second commit of that run reports a mismatch |
| ShadowRuns.IgnoredIffOvertaken | eval/shadow.py:409-436 | a record call that found no conflict is ignored, leaving another content under its id, if and only if another call stored that content between its lookup and its insert |
| ShadowRuns.ConflictIsRefused | eval/shadow.py:409-417 | a decision stored with another content is refused, after any run |
| ShadowRuns.ServedCorpusIsTrusted | eval/runner.py:325-358 | every corpus a read serves, in every run, counts as frozen_shadow, and the only other outcome of a read that found a manifest is the mismatch |
| Shadow.BindIsTrustedIff | eval/shadow.py:1453-1472 | records bound to their own digests are trusted if and only if they are frozen shadow records of both splits |
| Shadow.TrustNeedsAll | eval/runner.py:325-358 | one record that is not a frozen shadow record of the live program spoils the trust in all |
| Shadow.SubsetIsNeverTrusted | eval/shadow.py:1453-1472 | a single split, bound again by itself, is never trusted |
| Shadow.TamperedCorpusIsRejected | eval/runner.py:36-54 | records that carry the provenance of a trusted corpus are trusted only with the same content in the same order |
| Shadow.ShadowReviewRepository.Record | eval/shadow.py:395-436 | adds a pending row, repeats an identical one without effect, rejects another content for the same identity |
| Shadow.ShadowReviewRepository.Review | eval/shadow.py:603-677 | fills in the verdict, categories and label of a pending row once, or reports the first error of the source and changes nothing |
| Shadow.ShadowReviewRepository.Freeze | eval/shadow.py:679-754 | returns the existing corpus unchanged; refuses without a change exactly when the live judged decisions of the scope, or of a required scene, are too few; else freezes exactly those and serves them |
| Shadow.ShadowReviewRepository.MarkSelected | eval/shadow.py:721-727 | updating row by row is the whole marking and touches no frozen row |
| Governor.DecisionMeans | groupmate/social_runtime/governor.py:55-144 | the outcome is a function of the set of candidates, and an ACT selects the eligible candidate of maximal utility, ties by id |
| Governor.OrderDoesNotMatter | groupmate/social_runtime/governor.py:102-105 | outcome, selected id and reconsideration time do not depend on the order of candidates |
| Governor.ActPartitions | groupmate/social_runtime/governor.py:78-143 | on an ACT every candidate is exactly one of selected, rejected, or an observation that passed |
| Governor.RejectionsMean | groupmate/social_runtime/governor.py:78-143 | on an ACT the rejections are exactly: the candidates that fail a gate with all their reasons, and the other contenders with the one reason their target and topic give |
| Governor.GatesMean | groupmate/social_runtime/governor.py:170-193 | a candidate is told exactly the gates that are closed to it, each once and in order: only a boundary passes without privacy, an observation passes a boundary, only capabilities and tasks need the capability gate |
| Governor.UtilityMeans | groupmate/social_runtime/governor.py:148-168 | nine values raise the utility by what they are worth and five costs lower it |
| Governor.DeferMeans | groupmate/social_runtime/governor.py:100-108 | a decision is deferred exactly until the rate limit that is still in force ends |
| Governor.ForcedMeans | groupmate/social_runtime/governor.py:65-73 | a forced observation rejects everything but observations |
| Governor.GatedMeans | groupmate/social_runtime/governor.py:75-93 | when nobody passes the outcome is silence, with the reasons of all candidates together |
| Governor.BelowMeans | groupmate/social_runtime/governor.py:110-128 | silence although somebody passes means that nobody who may act is worth the minimum, and each is told so |
| Governor.GateRejectedStay | groupmate/social_runtime/governor.py:75-83 | whoever fails a gate is rejected with all its reasons in every outcome |
| Basics.TextLeqIff | groupmate/social_runtime/governor.py:110-113 | ties are broken by the first difference of the ids, a prefix before its extensions |
| Governor.TighteningNeverActs | groupmate/social_runtime/governor.py:170-193 | tightening gates or dropping candidates never turns another outcome into an ACT nor raises the utility acted on |
| Governor.Decide | groupmate/social_runtime/governor.py:55-144 | the loops compute the specified decision; ACT selects someone and DEFER alone carries a time |
| Governor.ExtendUnique | groupmate/social_runtime/governor.py:211-214 | adds exactly the new reasons, in order |
| ReviewQueue.BuildReviewQueue | eval/build_corpus.py:483-635 | refuses bad arguments; splits at the median focus point; fails exactly when there are fewer than two focus points or a half has too few that carry a signal; else twice per_split scenes, each half holding per_split / 2 spread points of either signal |
| ReviewQueue.QueueDoesNotLeak | eval/build_corpus.py:518-530 | focus points strictly ascend through the queue and every calibration scene ends before any holdout scene begins, so no event is in both |
| ReviewQueue.SelectHalf | eval/build_corpus.py:532-570 | a half spreads over all its focus points that carry a signal, and fails exactly when one signal has too few |
| ReviewQueue.ReviewFocusIndices | eval/build_corpus.py:348-365 | exactly the first eligible events of their ids, ascending |
| ReviewQueue.HistoricalBotAction | eval/build_corpus.py:368-387 | the scan finds what the specified search finds |
| ReviewQueue.ActionFromFirstStop | eval/build_corpus.py:368-387 | the first event that leaves the window, matches the policy or is the bot's own decides; without one the bot was silent |
| ReviewQueue.CarriesIgnoresLater | eval/build_corpus.py:536-561 | whether a point carries a signal depends on no event from the end of its half on |
| ReviewQueue.SceneContextStart | eval/build_corpus.py:390-419 | the longest unbroken scene within the bounds, extended to the reply target when that lies inside them |
| ReviewQueue.SpreadOf | eval/build_corpus.py:422-430 | evenly spaced picks strictly ascend and include both ends as soon as two are wanted |
| ReviewQueue.SpreadIsEven | eval/build_corpus.py:422-430 | the p-th pick stands at p of count - 1 even steps over the values, rounded down; a single pick in the middle |
| ReviewQueue.EvenlySpaced | eval/build_corpus.py:422-430 | picks the specified positions, and fails exactly when there are too few values |
| ReviewQueue.DirectInteractions | eval/build_corpus.py:446-468 | exactly the events that mention the bot, carry evidence of it, or answer an id whose latest earlier message is the bot's |
| Dialogue.CanonicalIsInScope | groupmate/social_runtime/dialogue.py:35-49 | every turn comes from an event of the persona and the group |
| Dialogue.SightingMeans | groupmate/social_runtime/dialogue.py:40-49 | which events are turns: eligible messages of others, and own texts whose receipt matches the outbox and names a platform message; and what a turn takes from where |
| Dialogue.CanonicalIsDistinct | groupmate/social_runtime/dialogue.py:50-64 | the canonical turns hold each event id once, placed by its first event |
| Dialogue.OwnOutputIsCanonical | groupmate/social_runtime/dialogue.py:37-53 | an event id is canonical if and only if one of its turns is confirmed own output or a message that is no echo of such output |
| Dialogue.ByIdOf | groupmate/social_runtime/dialogue.py:53 | each event id keeps the last turn met under it |
| Dialogue.RepliesReachTurns | groupmate/social_runtime/dialogue.py:54-64 | a reply that names a turn by its platform id, bare or with `qq:`, becomes the id of a canonical turn so named; any other stays as it is |
| Dialogue.NamedIsLatest | groupmate/social_runtime/dialogue.py:54-61 | a platform name stands for the latest turn known by it, with `qq:` in front for the name behind it first |
| Dialogue.AnswersOwnOutput | groupmate/social_runtime/dialogue.py:50-62 | who answers own output by its platform id is taken to answer confirmed own output, never its echo |
| Dialogue.SessionIsMaximalRun | groupmate/social_runtime/dialogue.py:65-79 | the flagged session is exactly the maximal run of turns that ends at the newest focus time with gaps of at most 300 seconds |
| Dialogue.NewestFocusIsNewest | groupmate/social_runtime/dialogue.py:65 | the session ends at the newest turn of the focus |
| Dialogue.TextsFitBudget | groupmate/social_runtime/dialogue.py:93-100 | all texts together stay within max_chars, and each is a prefix of at most 800 characters |
| Dialogue.EveryTurnKeepsItsShare | groupmate/social_runtime/dialogue.py:93-100 | with 80 characters per turn every turn keeps its first 80, whatever the lengths and the ranking |
| Dialogue.CutOnlyWhenSpent | groupmate/social_runtime/dialogue.py:93-100 | a text is cut below 800 only when all that is left is reserved for later turns |
| Dialogue.DefaultBudgetIsEnough | groupmate/social_runtime/dialogue.py:91-97 | with the reader's own limits the share is always there |
| Dialogue.BestOf | groupmate/social_runtime/dialogue.py:84-91 | at most 16 turns are taken and none left out is ahead of one taken |
| Dialogue.RanksMean | groupmate/social_runtime/dialogue.py:61-87 | focus and required turns come first, then what they answer, the bot's turns to them and what those answer, then other turns of the members of the focus, then the rest |
| Dialogue.TiesKeepOrder | groupmate/social_runtime/dialogue.py:83-89 | turns of equal rank and time keep their order |
| Sorting.SortedKeepsTies | groupmate/social_runtime/dialogue.py:89 | sorting is stable |
| Dialogue.FirstAreTaken | groupmate/social_runtime/dialogue.py:84-91 | while at most 16 of them exist, no focus or required turn is left out |
| Dialogue.CurrentSession | groupmate/social_runtime/dialogue.py:65-77 | the two loops compute the specified scan |
| Dialogue.Fill | groupmate/social_runtime/dialogue.py:92-101 | the budget loop computes the specified texts |
| Dialogue.RelatedOf | groupmate/social_runtime/dialogue.py:58-79 | the candidates are exactly the turns of the session, the focus and required turns, and those the focus replies to |
| Dialogue.Read | groupmate/social_runtime/dialogue.py:29-104 | for any events, hands out, for the persona and group only, exactly the selected canonical turns, each once, with texts within the budget, session flags as specified, in chronological order |

## Left out

- Simulation.Simulate: the clauses on idle servers, overtaking and the counter hold for jobs given in order of arrival, as the load runner gives them; that the peak is attained, for jobs that take time.
- Dialogue.Read: the outbox row and the plan of a sent part are part of the event; finding them in the database is not part of this model.
- AttentionRuns.AtMostOneFrame: needs event ids that are never reused and no restored windows; `restore_window` is not part of this model.
- Autonomy.AutonomousOpportunityScheduler.RunDue: is the loop of one worker that nothing overtakes; overlapping workers are covered by the transition system. Rows due at the same time are visited in an order left open, since their ids are digests.
- Shadow.ShadowReviewRepository.Record: the methods of the class are calls that nothing overtakes; overlapping calls are covered by the transition system.
- ReplyOrder.AbortKeepsOrderIff: speaks of runs whose earlier and later aborts meet the condition; what one abort spoilt, a later one may hide again.
- Governor.OrderDoesNotMatter: says nothing of the order of rejections and reasons, which follows the candidates; the set of rejections on an ACT is covered by `RejectionsMean`.
- Lifecycle.TeardownExcludesWork: does not cover the recovery drain of `start` or the drain of `record_usable_reply`, which run outside the bracket.
- SHA-256 digests and their truncated forms are modelled by the content they are computed from; opportunity and decision ids by the fields they name.
- A database statement or transaction is one step and a row is a value; SQL text, JSON encoding and schema migrations are not modelled.
- The registry lock of the reply lanes is not a step: no body under it awaits, so taking it never suspends.
- Order of dictionaries is left open where the source iterates over one (pruning of lanes).
- Fairness of asyncio locks: a free lock may be taken by any waiter, which allows more runs than the first-in-first-out queue of the library.
- A call waiting for a lock may fail at any time, also when the lock is free and asyncio would not suspend it; this allows more runs than the library.
- The inner states of an actor, of the persona supervisor and of recovery are not part of this model; closing all actors is one step, and a failing close is assumed to leave all of them behind.
- Heaps and deques are sequences in the order in which they are emptied.
- Utilities and fractions are reals; rounding of floating point is not modelled.
- Text normalisation (strip, case, Unicode) and regular expressions are parameters or already applied.
- The attention frame's id, urgency and requested workers, and the governor's constraint labels, are plain copies and left out.
- Percentiles, budgets, fault-profile validation, labels, reports and the identity mapping would only add easy members.
- Calibration approval rests on the configuration repository, which is not part of this model.
- Model, platform and HTTP adapters, prompts, media, rendering and the web API are input and output.

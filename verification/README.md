# Verified models of the reclamation schemes and of the actor runtime

The repository holds lock-free lists and queues with several memory reclamation
schemes, and a Pony/Encore actor runtime. This Dafny project models the parts
whose correctness is hardest to see, and proves what their code promises, for
every input, every interleaving and every run. `dafny verify dfyconfig.toml`
checks all of it.

Two forms of model are used.

- Code of one thread that changes things in place is a class with the source's
  fields, and methods with loops: the cycle detector's scan (`CycleDetector`,
  over the lemmas in `ViewGraph` and `TrialDeletion`), the hash map (`HashMap`,
  over `HashTable` and `ProbeArithmetic`) and the page allocator
  (`PageAllocator`).
- A protocol between threads, schedulers or actors is a state machine on values.
  One step is one read, write or compare-and-swap of shared memory, or the
  handling of one message. A run is a sequence of states that starts in `Init`
  and in which every two neighbours are a step apart; any thread may take any
  next step. Where the source has asserts, or where a node may already be freed
  or in use for something else, `Safe` says what the step needs, and a step that
  is not safe may lead to any state, so that "no step of any run is unsafe" is a
  theorem and not a convention. Some components of a state record history only
  (who took part in what, the contents after every step, how often a node was
  freed); no step reads them to decide anything.

| module | models |
|---|---|
| `Basics` | optional values and the sizes of sets |
| `GcCounts` | weighted reference counts of actors and objects, with FIFO message queues |
| `ViewGraph`, `TrialDeletion`, `CycleDetector` | the trial deletion of the cycle detector |
| `CycleConf` | the CONF/ACK protocol that confirms a perceived cycle |
| `Durations` | duration-based reclamation of a shared object, and the election of its collector |
| `HazardQueue`, `HazardReclaim`, `HazardProgress` | the Michael-Scott queue with hazard pointers and node reuse: what it does, what becomes of its nodes, and that it is lock-free |
| `LockFreeList`, `ListProgress` | the lock-free sorted list with marked pointers |
| `MsQueue`, `MsProgress` | the Michael-Scott queue without reuse, with and without helping |
| `History`, `FifoHistory` | what it means that a call takes effect at one moment, and that a run is one of a sequential queue |
| `Progress` | bounding the steps of one thread by a rank |
| `MpmcQueue` | the scheduler's multi-producer multi-consumer queue, with node reuse |
| `ScheduleToken` | the actor's message queue and the right to run the actor |
| `Termination`, `TerminationProgress` | how the schedulers agree to stop, and that they do not get stuck |
| `ActorWork` | where the actors are while the schedulers work |
| `Masks` | masking with a power of two less one |
| `ProbeArithmetic`, `HashTable`, `HashMap` | the open-addressing hash map |
| `PageAllocator` | the sorted list of free blocks |

All of it assumes sequentially consistent memory and unbounded counters, except
the reference counts of the cycle detector, which wrap at 2^64 as in the source.

## Model

| member | source | states |
|---|---|---|
| `GcCounts.AssertsHold` | encore-compiler/src/runtime/pony/libponyrt/gc/gc.c:526-577 | in every run, no RELEASE takes more than the owner has, no ACQUIRE is for an unknown object and no receive finds a count at zero |
| `GcCounts.Conservation` | encore-compiler/src/runtime/pony/libponyrt/gc/gc.c:192-359 | in every state of every run and for every actor and object, the owner's count is the sum of what others hold, what messages carry and what is queued as RELEASE, less what is queued or pending as ACQUIRE |
| `GcCounts.ReferencedIsCounted` | encore-compiler/src/runtime/pony/libponyrt/gc/gc.c:545-577 | while another actor holds a count on a target or a message under way contains it, the owner's count is positive |
| `GcCounts.FreedIsUnreferenced` | encore-compiler/src/runtime/pony/libponyrt/gc/gc.c:560-572 | a freed object is held by no actor, its owner included, and is in no message |
| `GcCounts.FreedExactly` | encore-compiler/src/runtime/pony/libponyrt/gc/gc.c:545-577 | in every run an object is freed by the RELEASE that takes its last counts when the owner did not reach it at the last sweep, receive or first send, or by a sweep when its count is zero and the owner does not reach it, and at no other step; a freed object has no entry, and a sweep leaves an entry exactly for the objects that have counts |
| `GcCounts.GarbageIsFreed` | encore-compiler/src/runtime/pony/libponyrt/gc/objectmap.c:163-201 | no garbage outlives a sweep: an object that its owner cannot reach and that no actor holds and no message names is freed by the next sweep of its owner |
| `GcCounts.FlagsAre` | encore-compiler/src/runtime/pony/libponyrt/gc/objectmap.c:163-201 | the stored flag of an object is what the last sweep, receive or first send of it found, and the objects that the owner reaches are those it allocated or received and has not dropped since |
| `GcCounts.ZeroIsFound` | encore-compiler/src/runtime/pony/libponyrt/gc/gc.c:560-572 | an entry at zero is kept only for an object that the owner reached when it last looked |
| `GcCounts.TopsUp` | encore-compiler/src/runtime/pony/libponyrt/gc/gc.c:431-455 | a sender gives one of its counts along while it keeps one, and otherwise asks the owner for 256 more |
| `GcCounts.ZeroIsFinal` | encore-compiler/src/runtime/pony/libponyrt/gc/gc.c:526-577 | a queue that is safe to read with a count of zero carries nothing for the target any more |
| `GcCounts.SendOneInv` | encore-compiler/src/runtime/pony/libponyrt/gc/gc.c:431-455 | tracing a target for sending keeps the balance, with the top-up of 256 counts when the holder is down to one |
| `GcCounts.RecvOneInv` | encore-compiler/src/runtime/pony/libponyrt/gc/gc.c:457-476 | tracing a received target moves one count from the message to the receiver, or off the owner's count |
| `GcCounts.TraceSendInv` | encore-compiler/src/runtime/pony/libponyrt/gc/gc.c:192-281 | sending an object sends its owner too, once per message, and keeps the invariant for every target |
| `GcCounts.TraceRecvInv` | encore-compiler/src/runtime/pony/libponyrt/gc/gc.c:283-359 | receiving an object receives its owner too, once per message, and keeps the invariant for every target |
| `GcCounts.PushAcquireInv` | encore-compiler/src/runtime/pony/libponyrt/gc/gc.c:591-604 | an ACQUIRE goes out while its sender still holds more than it asks for, so the owner is at one or more when it reads it |
| `GcCounts.PushAppInv` | encore-compiler/src/runtime/pony/libponyrt/gc/trace.c:86-90 | the message goes out behind its ACQUIREs and takes one count for every target in it |
| `GcCounts.SweepForeignInv` | encore-compiler/src/runtime/pony/libponyrt/gc/actormap.c:103-191 | a sweep sends the counts on what it drops back to the owner as a RELEASE |
| `GcCounts.SweepLocalInv` | encore-compiler/src/runtime/pony/libponyrt/gc/objectmap.c:163-201 | the owner's sweep keeps the invariant for every target: what it frees has no entry and is not reachable; `FreedExactly` says what it frees |
| `GcCounts.PopInv` | encore-compiler/src/runtime/pony/libponyrt/gc/gc.c:526-577 | handling the next message keeps the balance and leaves the rest of the queue safe to read; `FreedExactly` says what a RELEASE frees |
| `GcCounts.CreateInv` | encore-compiler/src/runtime/pony/libponyrt/gc/gc.c:497-505 | creating an actor keeps the invariant for every known target |
| `GcCounts.CreatedInv` | encore-compiler/src/runtime/pony/libponyrt/gc/gc.c:497-505 | a new actor starts balanced: its 256 counts are with its creator |
| `CycleDetector.Detector.Detect` | encore-compiler/src/runtime/pony/libponyrt/gc/cycle.c:438-466 | perceives exactly the garbage of the scanned region under a fresh token, or nothing; found if and only if the root is garbage if and only if there is any; the first group gets one CONF each; leaves every count, colour and reference as it was and takes the scanned views out of the deferred set |
| `CycleDetector.Detector.Trial` | encore-compiler/src/runtime/pony/libponyrt/gc/cycle.c:442-462 | the three scans together find the garbage and restore every count, whatever the order of the maps; the white scan in it is a run of the turns that `Turned` describes |
| `CycleDetector.Detector.CollectGarbage` | encore-compiler/src/runtime/pony/libponyrt/gc/cycle.c:443-462 | the number of white views, of collected views and of members of the map are the same, and everything is black with its count restored |
| `CycleDetector.Detector.Whiten` | encore-compiler/src/runtime/pony/libponyrt/gc/cycle.c:443-448 | after the white scan exactly the garbage is white, and it is empty or holds the root |
| `CycleDetector.Detector.ApplyDelta` | encore-compiler/src/runtime/pony/libponyrt/gc/cycle.c:187-240 | a reference that no change names stays as it was; one that some change names is there if and only if the last such change has a count above zero, and with that count; unknown actors that a change makes referenced get empty views, other views stay |
| `CycleDetector.FollowsOne` | encore-compiler/src/runtime/pony/libponyrt/gc/cycle.c:187-240 | the references that the last change for every actor determines are exactly those that applying the changes in order gives |
| `CycleDetector.DepictsChanges` | encore-compiler/src/runtime/pony/libponyrt/gc/cycle.c:242-266 | in the graph that a scan works on, a reference is the stored one unless a pending change names it, and else what the last such change says |
| `CycleDetector.Detector.MarkGrey` | encore-compiler/src/runtime/pony/libponyrt/gc/cycle.c:242-266 | an unblocked view is left alone; a blocked one gives up `rc` modulo 2^64, leaves the deferred set and is grey; the answer tells whether it was not grey before |
| `CycleDetector.Detector.ScanGrey` | encore-compiler/src/runtime/pony/libponyrt/gc/cycle.c:268-287 | on any graph it stops with every blocked view that the root reaches grey, and every count lowered by the references from grey views |
| `CycleDetector.Detector.MarkBlack` | encore-compiler/src/runtime/pony/libponyrt/gc/cycle.c:289-308 | gives `rc` back modulo 2^64, makes the view black and tells whether it was live and whether it was white |
| `CycleDetector.Detector.ScanBlack` | encore-compiler/src/runtime/pony/libponyrt/gc/cycle.c:310-333 | blackens all that the view reaches, gives back what it took off, and counts the white views it blackened |
| `CycleDetector.Detector.VisitWhite` | encore-compiler/src/runtime/pony/libponyrt/gc/cycle.c:335-379 | one turn: a grey view without counts from outside turns white, one with such counts is blackened with all it reaches, and the white views are counted right |
| `CycleDetector.Detector.ScanWhite` | encore-compiler/src/runtime/pony/libponyrt/gc/cycle.c:356-379 | stops with every scanned view white or black, returns the number of white ones, and went through a sequence of turns, each as `Turned` says |
| `CycleDetector.Detector.CollectWhite` | encore-compiler/src/runtime/pony/libponyrt/gc/cycle.c:381-418 | blackens the white views, gives their references back, and returns them and their number |
| `CycleDetector.Detector.SendConf` | encore-compiler/src/runtime/pony/libponyrt/gc/cycle.c:420-436 | sends one CONF each to a full group of the members not asked yet, or to all of them if there are fewer |
| `CycleDetector.Detector.Perceive` | encore-compiler/src/runtime/pony/libponyrt/gc/cycle.c:451-464 | the members, and no other views, point to the new cycle, the other cycles stay as they are, and the first group of the members, or all if they are fewer, is sent one CONF each with the new token |
| `CycleDetector.PushAll` | encore-compiler/src/runtime/pony/libponyrt/gc/cycle.c:278-285 | pushes every reference of a view exactly once, in whatever order |
| `TrialDeletion.GarbageCounts` | encore-compiler/src/runtime/pony/libponyrt/gc/cycle.c:438-466 | the count of a perceived member is what the members themselves hold on it |
| `TrialDeletion.TrialGreyed` | encore-compiler/src/runtime/pony/libponyrt/gc/cycle.c:268-287 | after the grey scan exactly the region is grey, and each count is the original less the references from the region |
| `TrialDeletion.TrialWhitened` | encore-compiler/src/runtime/pony/libponyrt/gc/cycle.c:356-379 | after the white scan exactly the garbage is white; it is empty if and only if the root is not in it, and then all counts are restored |
| `TrialDeletion.LiveCount` | encore-compiler/src/runtime/pony/libponyrt/gc/cycle.c:335-354 | the count of a view that is still live is zero if and only if the region explains its original count, modulo 2^64 |
| `TrialDeletion.WhiteDone` | encore-compiler/src/runtime/pony/libponyrt/gc/cycle.c:356-379 | what stays white is what no view with a count from outside reaches |
| `TrialDeletion.BlackToWhite` | encore-compiler/src/runtime/pony/libponyrt/gc/cycle.c:310-354 | blackening inside the white scan keeps the invariant of the white scan and makes progress |
| `TrialDeletion.NeverWhitens` | encore-compiler/src/runtime/pony/libponyrt/gc/cycle.c:335-379 | the white scan makes no view of a set white, not even for a while and whatever the order of the maps, if and only if the root reaches none of them through views whose count the region explains; so that is when the assert in `mark_white` cannot fail |
| `TrialDeletion.ExplainedIsWhitened` | encore-compiler/src/runtime/pony/libponyrt/gc/cycle.c:356-379 | every view that the root reaches through such views turns white in some order of the maps |
| `TrialDeletion.WhitenedIsExplained` | encore-compiler/src/runtime/pony/libponyrt/gc/cycle.c:356-379 | nothing else ever turns white, in any order |
| `TrialDeletion.BlackExact` | encore-compiler/src/runtime/pony/libponyrt/gc/cycle.c:310-333 | a blackening from a view takes away exactly what the view reaches |
| `TrialDeletion.CollectedAll` | encore-compiler/src/runtime/pony/libponyrt/gc/cycle.c:395-418 | blackening from the root leaves nothing live and every count as before the scan |
| `CycleConf.CollectedConfirmed` | encore-compiler/src/runtime/pony/libponyrt/gc/cycle.c:523-566 | a cycle is collected only when every member has answered its token, each when it had sent no BLOCK or UNBLOCK beyond those read before the cycle was perceived, with none of a member read since |
| `CycleConf.CollectsAll` | encore-compiler/src/runtime/pony/libponyrt/gc/cycle.c:523-566 | in every run the ACK that the detector reads when all other members have answered destroys all members of the cycle, and no other step destroys an actor |
| `CycleConf.CycleFate` | encore-compiler/src/runtime/pony/libponyrt/gc/cycle.c:505-655 | a cycle ends if and only if its last member answers or a BLOCK or UNBLOCK of a member is read; until then its members stay the same, and an answer is counted when it is read |
| `CycleConf.CycleBorn` | encore-compiler/src/runtime/pony/libponyrt/gc/cycle.c:420-466 | a step adds a cycle if and only if it perceives one: it has the next token and the perceived members, nobody has answered, and exactly the first group is asked |
| `CycleConf.AnswersWhenBlocked` | encore-compiler/src/runtime/pony/libponyrt/actor/actor.c:82-93 | an actor that reads a CONF sends an ACK if and only if the last it said was BLOCK and its count has not changed since, and it reads every CONF once |
| `CycleConf.AskedOnce` | encore-compiler/src/runtime/pony/libponyrt/gc/cycle.c:420-436 | in every state of every run, counting repetitions, an actor was sent at most one CONF per token, and for a cycle under way exactly the members that count as asked were sent one |
| `CycleConf.NeverStalls` | encore-compiler/src/runtime/pony/libponyrt/gc/cycle.c:635-655 | no deadlock: while a cycle is neither collected nor dropped, some member was asked and not counted, and a step is enabled: it reads its oldest CONF, or reports its change, or the detector reads a message while an ACK, BLOCK or UNBLOCK of the member is to be read |
| `CycleConf.SilentOwes` | encore-compiler/src/runtime/pony/libponyrt/actor/actor.c:82-93 | when a member of a live cycle that was asked and not counted is not blocked, its UNBLOCK is in the detector's queue, not read yet |
| `CycleConf.DestroyedIsDone` | encore-compiler/src/runtime/pony/libponyrt/gc/cycle.c:523-566 | in every state of every run, an actor that was destroyed is in no perceived cycle and has no CONF left to read, which the destruction of its queue needs |
| `CycleConf.AnsweredDone` | encore-compiler/src/runtime/pony/libponyrt/gc/cycle.c:420-436 | an actor that has answered the token of its cycle has read all CONFs that were sent to it, those of dropped cycles included |
| `CycleConf.QuotaStep` | encore-compiler/src/runtime/pony/libponyrt/gc/cycle.c:653-654 | one more group is due exactly when the number of answers becomes a multiple of the group size |
| `CycleConf.MaskTest` | encore-compiler/src/runtime/pony/libponyrt/gc/cycle.c:653-654 | for a group size 2^k the mask test of the number of answers is the test for a multiple of the group size |
| `CycleConf.AnsweredOk` | encore-compiler/src/runtime/pony/libponyrt/gc/cycle.c:635-655 | counting an answer that does not complete the cycle keeps the number of asked members at all answered groups and one more |
| `CycleConf.PerceivedOnce` | encore-compiler/src/runtime/pony/libponyrt/gc/cycle.c:505-521 | no view points to two cycles, so the cycle dropped by BLOCK or UNBLOCK is the only one of that actor |
| `CycleConf.NoteInv` | encore-compiler/src/runtime/pony/libponyrt/gc/cycle.c:568-633 | reading BLOCK or UNBLOCK drops the cycle of the actor and keeps the invariant of all others |
| `CycleConf.AckInv` | encore-compiler/src/runtime/pony/libponyrt/gc/cycle.c:635-655 | reading an ACK keeps the invariant, whether it is ignored, counted, followed by the next group or by the collection; `CollectsAll` and `CycleFate` say which |
| `CycleConf.AnswersInv` | encore-compiler/src/runtime/pony/libponyrt/actor/actor.c:82-93 | an actor answers a CONF only when it is blocked and unchanged since its last BLOCK; the ACK goes behind all it sent before |
| `CycleConf.PerceivesInv` | encore-compiler/src/runtime/pony/libponyrt/gc/cycle.c:451-465 | a newly perceived cycle starts with its first group asked and nothing of its members unread that was read |
| `Durations.CleanedAfterAllLeft` | encore-compiler/src/runtime/encore/dw.c:458-494 | when a duration is cleaned, every call that entered it or an earlier one, and every call that closed one of them, has made its exit increment |
| `Durations.ExitWithinEntry` | encore-compiler/src/runtime/encore/dw.c:497-514 | the exit counter of a duration counts different members and never exceeds the entry counter, which counts them all |
| `Durations.OneMarker` | encore-compiler/src/runtime/encore/dw.c:503-505 | only one call sets a duration collectible, and only once |
| `Durations.OneCollector` | encore-compiler/src/runtime/encore/dw.c:464-493 | at most one call holds the lock of the drain loop |
| `Durations.NoLostWakeUp` | encore-compiler/src/runtime/encore/dw.c:458-494 | when no call is between setting a duration collectible and returning from collect, the front of the queue is not collectible |
| `Durations.PendingCounts` | encore-compiler/src/runtime/encore/dw.c:458-494 | the pending counter is the number of announcements less the number of turns of the drain loop |
| `Durations.AllCleaned` | encore-compiler/src/runtime/encore/dw.c:677-688 | when all calls are over, the queue of durations is empty, as the finalizer asserts |
| `Durations.AssertsHold` | encore-compiler/src/runtime/encore/dw.c:458-633 | in every run a duration is closed and not collectible when a call leaves it, the pending counter is positive at the top of the drain loop, the queue yields what was peeked and the sequence number is odd while a duration is closed |
| `Durations.EnteredOk` | encore-compiler/src/runtime/encore/dw.c:529-559 | an entry that succeeds is counted in the duration that is current, although the duration and the counter were read at different times |
| `Durations.ClosedOk` | encore-compiler/src/runtime/encore/dw.c:613-620 | closing fixes the entry counter at the number of calls that entered, and one more if the closing call did not |
| `Durations.ExitedOk` | encore-compiler/src/runtime/encore/dw.c:497-514 | the increment that brings the exit counter to the entry counter is the one of the last member |
| `Durations.WakeStep` | encore-compiler/src/runtime/encore/dw.c:458-494 | every step keeps a witness for each pending wake-up: a holder of the lock, or a call about to take it or to announce itself |
| `Durations.StepInv` | encore-compiler/src/runtime/encore/dw.c:529-633 | every step is safe and keeps the invariant of durations, queue, lock and calls |
| `HazardQueue.NoUseAfterFree` | queue_lf_smr.c:59-177 | in every run with node reuse, a node that a statement dereferences or compares by a CAS is not freed, and was not freed and allocated again since the thread validated it; what a thread retires or frees was taken out by itself and is not freed yet |
| `HazardQueue.FreeCounts` | smr.c:139-151 | the generation of a node counts exactly how often it was freed |
| `HazardQueue.Linearizable` | queue_lf_smr.c:59-177 | with node reuse, every finished enqueue has appended its key and every finished dequeue has taken the first key by exactly one step of its own between begin and end, and one that answers EMPTY has changed nothing and the queue was empty at a moment of the call |
| `HazardQueue.OwnPoints` | queue_lf_smr.c:59-177 | no two calls, of one thread or of two, share a step that changed the contents |
| `HazardQueue.Fifo` | queue_lf_smr.c:59-177 | the steps of a run in their order are those of a sequential queue: the linking CAS appends the key of the enqueue, the CAS of head takes out the key that the dequeue returns, and no other step changes the contents |
| `HazardQueue.EmptyAnswer` | queue_lf_smr.c:135-146 | a dequeue that finds no second node and the head unmoved answers EMPTY, and saw an empty queue at some moment of the call |
| `HazardQueue.RetiredOnce` | smr.c:156-165 | a node is retired only by the thread that took it out, once, and no two threads have it in their lists; the tail is always a node of the queue |
| `HazardReclaim.ScanFrees` | smr.c:125-153 | a scan reads every hazard slot, frees exactly the retired nodes that it found in none of them and keeps the others |
| `HazardReclaim.NoLeak` | smr.c:125-165 | in every state of every run a node is in the queue, free, or with a thread that has yet to link it in, retire it or decide about it in a scan |
| `HazardReclaim.GarbageBounded` | smr.h:36-43 | with fewer hazard slots than retired nodes that start a scan, as R = 100 + 2H is chosen, no thread ever has more than that many retired nodes |
| `HazardReclaim.SlotsCleared` | queue_lf_smr.c:105-177 | a thread that retires a node or is between two calls has cleared its slots, unless its dequeue found the queue empty |
| `HazardReclaim.HelpMoves` | queue_lf_smr.c:90-151 | after a thread helped the tail on or swung it, the tail is not where the thread saw it |
| `HazardProgress.LockFree` | queue_lf_smr.c:59-177 | while no other thread links in a node or moves head or tail, a thread ends its call within 2n + r + 41 steps for n threads and r retired nodes, scan included |
| `HazardProgress.TailLags` | queue_lf_smr.c:81-106 | the tail is always the last node or the one before it |
| `HazardQueue.StepScanner` | smr.c:126-153 | a scan that reads the slots one at a time has seen every guarded node that it is about to free |
| `HazardQueue.StepScanned` | smr.c:126-153 | a node that another thread starts to guard during a scan is not one that the scan may free |
| `HazardQueue.StepRely` | queue_lf_smr.c:59-177 | whatever one thread does, what the others have validated stays true |
| `HazardQueue.StepMine` | queue_lf_smr.c:83-103 | after every statement a thread's slots guard the nodes that it has validated |
| `HazardQueue.TakeChain` | queue_lf_smr.c:163-164 | moving head drops the first node of the chain and leaves tail in it, because tail is not behind head |
| `LockFreeList.Linearizable` | list_lf_ebr.c:40-203 | every successful insert has added its key and every successful delete has removed it by exactly one step of its own between begin and end; every other call has changed nothing and its answer was right at a moment of the call |
| `LockFreeList.OwnPoints` | list_lf_ebr.c:84-158 | no two successful calls, of one thread or of two, share a change of the set |
| `LockFreeList.AlwaysSorted` | list_lf_ebr.c:40-82 | in every state the nodes met from the head on have growing keys, all unmarked nodes are among them and no retired one is |
| `LockFreeList.Sequential` | list_lf_ebr.c:84-158 | the steps of a run in their order are those of a sequential set: only the linking CAS and the marking CAS change it, each as its call says; keys never change and marks stay |
| `ListProgress.LockFree` | list_lf_ebr.c:40-203 | while no other thread links in, marks or unlinks a node, a thread ends its call within 10 n + 29 steps for n linked nodes |
| `LockFreeList.RetiredOnce` | list_lf_ebr.c:53-61 | a node is retired while it is linked, by the step that unlinks it, and so only once |
| `LockFreeList.Reachable` | list_lf_ebr.c:24-39 | from a location on, the pointers lead through exactly the linked nodes with larger keys, in order |
| `LockFreeList.SpliceAbs` | list_lf_ebr.c:109-115 | linking in a node between its neighbours adds a key that was not there |
| `LockFreeList.MarkedOk` | list_lf_ebr.c:137-143 | setting the mark takes the key out of the set and keeps the list in shape |
| `LockFreeList.BypassOk` | list_lf_ebr.c:54-61 | unlinking a marked node keeps the list in shape |
| `LockFreeList.Absent` | list_lf_ebr.c:63-81 | an unmarked link that leads past a key shows that the key is not in the set |
| `MsQueue.Linearizable` | queue_lf_ebr.c:59-170 | in the C and in the Java version, every finished enqueue has appended its key and every finished dequeue has taken the first key by exactly one step of its own between begin and end, and one that answers EMPTY has changed nothing and the queue was empty at a moment of the call |
| `MsQueue.OwnPoints` | queue_lf_ebr.c:59-170 | no two calls, of one thread or of two, share a step that changed the contents: two dequeues never take the same element |
| `MsQueue.Fifo` | MyQueue.java:14-52 | in both versions the steps of a run in their order are those of a sequential queue: only the linking CAS and the CAS of head change the contents, at the end and at the front |
| `MsProgress.LockFree` | queue_lf_ebr.c:59-170 | in both versions, while no other thread links in a node or moves head or tail, a thread ends its call within 23 steps |
| `MsProgress.TailLags` | queue_lf_ebr.c:86-109 | in both versions the tail is always the last node or the one before it |
| `MsQueue.HeadBehindTail` | queue_lf_ebr.c:141-145 | with helping, head never passes tail |
| `MsQueue.MovedOk` | queue_lf_ebr.c:157-158 | moving head takes the first key out |
| `MsQueue.LinkedOk` | queue_lf_ebr.c:100-102 | linking in a node behind the last one keeps the chain |
| `MpmcQueue.NoUseAfterFree` | encore-compiler/src/runtime/pony/libponyrt/sched/mpmcq.c:29-88 | with node reuse, the node that a statement of any run writes to, takes data from or frees is the node of the element that it means, never one that was freed or that is used for another element; a node is freed after its data was taken out |
| `MpmcQueue.FreedOnce` | encore-compiler/src/runtime/pony/libponyrt/sched/mpmcq.c:78-86 | a node goes back to the pool only by the pop that took the element behind it, after its data was taken out, and no element is freed twice |
| `MpmcQueue.StaleNeverSucceeds` | encore-compiler/src/runtime/pony/libponyrt/sched/mpmcq.c:56-73 | a CAS of the tail that succeeds was prepared by reading the node at the tail; a torn or stale read never leads to one |
| `MpmcQueue.PopsInOrder` | encore-compiler/src/runtime/pony/libponyrt/sched/mpmcq.c:51-88 | the last statement of a pop answers with the item of the place that its thread moved the tail to |
| `MpmcQueue.DeliveredOnce` | encore-compiler/src/runtime/pony/libponyrt/sched/mpmcq.c:51-88 | every element is delivered by at most one pop of the whole run: different pops, of one thread or of two, answer with different places |
| `MpmcQueue.NeverLost` | encore-compiler/src/runtime/pony/libponyrt/sched/mpmcq.c:51-88 | no element is lost: a place that the tail was moved to is answered by some pop, or a pop that is still running carries it |
| `MpmcQueue.ExactlyOnce` | encore-compiler/src/runtime/pony/libponyrt/sched/mpmcq.c:51-88 | in every state of every run, a place was taken if and only if it is delivered or carried, never both; exactly one pop has answered with it, or exactly one running pop carries it |
| `MpmcQueue.TakenOnce` | encore-compiler/src/runtime/pony/libponyrt/sched/mpmcq.c:51-88 | places are taken in the order of the exchanges of head, none is skipped, and who took one never changes |
| `MpmcQueue.NullAnswer` | encore-compiler/src/runtime/pony/libponyrt/sched/mpmcq.c:63-67 | as long as the tail has not moved, a pop finds no next node if and only if nothing is linked in behind the tail |
| `MpmcQueue.Unlinked` | encore-compiler/src/runtime/pony/libponyrt/sched/mpmcq.c:29-37 | no push ends without linking its element in: an element that is not linked in has its pusher between the exchange and the store |
| `MpmcQueue.NullIsEmpty` | encore-compiler/src/runtime/pony/libponyrt/sched/mpmcq.c:63-67 | when no push is between its exchange and its store, a pop that has read the current tail answers NULL if and only if every element was taken |
| `MpmcQueue.NullOnlyWhenRead` | encore-compiler/src/runtime/pony/libponyrt/sched/mpmcq.c:56-67 | a pop answers NULL exactly when it has read that the node it took for the tail has no successor |
| `MpmcQueue.PushEnters` | encore-compiler/src/runtime/pony/libponyrt/sched/mpmcq.c:29-37 | a push appends one element with its own item and links it in, and it stays linked in |
| `MpmcQueue.FreedIffDelivered` | encore-compiler/src/runtime/pony/libponyrt/sched/mpmcq.c:78-86 | no node leaks and none is freed early: the node of an element was freed if and only if a pop has answered with the element behind it |
| `MpmcQueue.WaitsForOne` | encore-compiler/src/runtime/pony/libponyrt/sched/mpmcq.c:82-83 | a pop waits only for the pop of the element before, which is about to take the data out and waits for nobody |
| `MpmcQueue.FreedOk` | encore-compiler/src/runtime/pony/libponyrt/sched/mpmcq.c:78-86 | the old tail is freed after its item was taken out, and nobody else relies on it |
| `MpmcQueue.LinkedOk` | encore-compiler/src/runtime/pony/libponyrt/sched/mpmcq.c:35-36 | the late write of the next field goes to a node that cannot have been freed |
| `ScheduleToken.OneToken` | encore-compiler/src/runtime/pony/libponyrt/actor/actor.c:388-408 | while the tag bit is not set there is exactly one right to run the actor: in one run queue, or with one thread that runs it or is about to add it |
| `ScheduleToken.TaggedIsIdle` | encore-compiler/src/runtime/pony/libponyrt/actor/messageq.c:48-90 | while the tag bit is set, the actor is in no run queue, no thread runs it or is about to add it, and every message was consumed |
| `ScheduleToken.NoUseAfterFree` | encore-compiler/src/runtime/pony/libponyrt/actor/messageq.c:48-74 | the node that a statement of any run reads, writes or frees is the node of the message that it means, never one that was freed or that is used for another message |
| `ScheduleToken.FreedOnce` | encore-compiler/src/runtime/pony/libponyrt/actor/messageq.c:62-74 | a node goes back to the pool only by the thread that has the right to run the actor, when the tail has just moved past it, and no message is freed twice |
| `ScheduleToken.HeadIsTail` | encore-compiler/src/runtime/pony/libponyrt/actor/messageq.c:76-90 | a markempty that succeeds finds every message ever pushed consumed |
| `ScheduleToken.MarkStep` | encore-compiler/src/runtime/pony/libponyrt/actor/actor.c:239-255 | marking the queue empty gives the right to run up, failing to keeps it |
| `ScheduleToken.SendStep` | encore-compiler/src/runtime/pony/libponyrt/actor/messageq.c:48-60 | the push that finds the tag bit gets the right to run, and only that one |
| `ScheduleToken.Unlinked` | encore-compiler/src/runtime/pony/libponyrt/actor/messageq.c:48-60 | no push ends without linking its message in: a message that is not linked in has its sender between the exchange and the store |
| `ScheduleToken.SendEnters` | encore-compiler/src/runtime/pony/libponyrt/actor/actor.c:388-408 | a send appends one message, links it in, and adds the actor to a run queue if and only if it found the tag bit set |
| `ScheduleToken.NullIsEmpty` | encore-compiler/src/runtime/pony/libponyrt/actor/messageq.c:62-74 | when no push is between its exchange and its store, a pop finds a message if and only if not every message was consumed |
| `ScheduleToken.ConsumedInOrder` | encore-compiler/src/runtime/pony/libponyrt/actor/messageq.c:62-74 | messages are consumed one after the other, each after it was linked in, by the thread with the right to run the actor |
| `ScheduleToken.FreedExactly` | encore-compiler/src/runtime/pony/libponyrt/actor/messageq.c:62-74 | no node leaks and none is freed early: the nodes before the tail are free, but for the last one while the tail has just moved |
| `ScheduleToken.MarksWhenEmpty` | encore-compiler/src/runtime/pony/libponyrt/actor/messageq.c:76-90 | markempty sets the tag bit if and only if every message was consumed by then |
| `ScheduleToken.DefersBlocking` | encore-compiler/src/runtime/pony/libponyrt/actor/actor.c:209-255 | a thread that finds no message goes on to mark the queue empty if and only if it handled no application message in this run |
| `ScheduleToken.RunsAgain` | encore-compiler/src/runtime/pony/libponyrt/sched/scheduler.c:292-303 | an actor that is to be run again goes back to a run queue or is run at once by the same thread |
| `Termination.TerminateWhenDead` | encore-compiler/src/runtime/pony/libponyrt/sched/scheduler.c:150-179 | TERMINATE is broadcast only when every scheduler is idle with an empty run queue, and was when the acknowledged CNF round was sent |
| `Termination.StoppedWhenDead` | encore-compiler/src/runtime/pony/libponyrt/sched/scheduler.c:262-276 | when a scheduler has stopped, every run queue is empty and no scheduler runs an actor or has one to run; `ActorWork.AllEnded` says that all have ended |
| `ActorWork.PresentStep` | encore-compiler/src/runtime/pony/libponyrt/sched/scheduler.c:218-331 | a step changes how often an actor is in the run queues and in the hands of the schedulers only by an actor that is added, one that ends its run for good, or the cycle detector that a scheduler kept and discards because it stops or has stolen it |
| `ActorWork.Conserved` | encore-compiler/src/runtime/pony/libponyrt/sched/scheduler.c:218-331 | in every run an actor is queued or in hand as often as at first and added since, less its runs that ended for good and the times it was discarded |
| `ActorWork.DiscardsCycle` | encore-compiler/src/runtime/pony/libponyrt/sched/scheduler.c:303-321 | nothing but the cycle detector is ever discarded |
| `ActorWork.AllEnded` | encore-compiler/src/runtime/pony/libponyrt/sched/scheduler.c:262-321 | when a scheduler has stopped, every actor but the cycle detector has ended its run for good as often as it was there at first or was added |
| `ActorWork.OneAtATime` | encore-compiler/src/runtime/pony/libponyrt/sched/scheduler.c:258-331 | if an actor is added only while it is nowhere, then at most one scheduler has it, once, and not while it is queued, and no scheduler steals the cycle detector that it kept |
| `ActorWork.QueueStep` | encore-compiler/src/runtime/pony/libponyrt/sched/scheduler.c:258-331 | run queues are first in, first out: a step adds one actor at the end, or takes the first, which the scheduler runs next |
| `ActorWork.PicksFirst` | encore-compiler/src/runtime/pony/libponyrt/sched/scheduler.c:224-321 | a scheduler picks the first actor of its own queue or of its victim's if there is one; with nothing queued it goes on with an actor that is to be run again, but keeps the cycle detector and looks for other work; what was picked is run |
| `TerminationProgress.BroadcastReachesAll` | encore-compiler/src/runtime/pony/libponyrt/sched/scheduler.c:103-104 | when a broadcast is over, its message was sent to every scheduler |
| `TerminationProgress.NothingLost` | encore-compiler/src/runtime/pony/libponyrt/sched/scheduler.c:96-132 | while a round is on, its CNF for a scheduler is yet to be sent or read, or the ACK of that scheduler is under way or counted |
| `TerminationProgress.NeverStuck` | encore-compiler/src/runtime/pony/libponyrt/sched/scheduler.c:88-179 | while quiescence is looked for, when all schedulers are idle with empty run queues and all messages are read, all were told to stop or scheduler 0 has all acknowledgements |
| `TerminationProgress.Decides` | encore-compiler/src/runtime/pony/libponyrt/sched/scheduler.c:150-179 | with all acknowledgements scheduler 0 starts a round with a new token once asio_stop has answered, and sends TERMINATE after that round; a scheduler stops if and only if it was told |
| `TerminationProgress.AllTold` | encore-compiler/src/runtime/pony/libponyrt/sched/scheduler.c:134-179 | from a broadcast of TERMINATE on, every scheduler that it has passed has the message or has read it |
| `TerminationProgress.MailStep` | encore-compiler/src/runtime/pony/libponyrt/sched/scheduler.c:79-92 | a message stays in its queue until it is the first one and its scheduler reads it |
| `TerminationProgress.ReadsAll` | encore-compiler/src/runtime/pony/libponyrt/sched/scheduler.c:88-143 | a scheduler goes on from reading messages only when its queue is empty |
| `Termination.AcksCount` | encore-compiler/src/runtime/pony/libponyrt/sched/scheduler.c:126-132 | counted acknowledgements are of different schedulers for the current token; stale ones never count |
| `Termination.AllAcked` | encore-compiler/src/runtime/pony/libponyrt/sched/scheduler.c:157-175 | all acknowledgements of a round together show that everyone was idle when it was sent, and still is |
| `Termination.FindBad` | encore-compiler/src/runtime/pony/libponyrt/sched/scheduler.c:96-107 | if not everyone is idle when all count as blocked, some scheduler has said so, or is about to, before it can acknowledge |
| `Termination.UnblockStep` | encore-compiler/src/runtime/pony/libponyrt/sched/scheduler.c:109-117 | an UNBLOCK calls the round off: the new token is in no message |
| `Termination.BlockStep` | encore-compiler/src/runtime/pony/libponyrt/sched/scheduler.c:96-107 | a round is started at most once per token, and only when all count as blocked |
| `Termination.TellStep` | encore-compiler/src/runtime/pony/libponyrt/sched/scheduler.c:218-253 | BLOCK and UNBLOCK of a scheduler alternate, and what scheduler 0 has still to read leads to what the scheduler last said |
| `ProbeArithmetic.DistinctProbes` | encore-compiler/src/runtime/pony/libponyrt/ds/hash.c:44-44 | in a table of 2^k slots no two of the first 2^k triangular offsets agree modulo the size |
| `Masks.MaskIsRemainder` | encore-compiler/src/runtime/pony/libponyrt/ds/hash.c:16-44 | masking with 2^k - 1 gives the remainder by 2^k, for every number |
| `HashTable.ProbesDistinct` | encore-compiler/src/runtime/pony/libponyrt/ds/hash.c:16-48 | the search loop visits n - 1 different slots of a table of n |
| `HashTable.PathNotFull` | encore-compiler/src/runtime/pony/libponyrt/ds/hash.c:23-48 | at load at most one half some slot of every probe path holds no entry |
| `HashTable.NotThere` | encore-compiler/src/runtime/pony/libponyrt/ds/hash.c:27-48 | a search that meets NULL, or ends, without meeting the key shows that the map does not have it |
| `HashTable.TablePut` | encore-compiler/src/runtime/pony/libponyrt/ds/hash.c:141-141 | writing an entry where the search says gives the buckets of the updated map |
| `HashTable.TableRemove` | encore-compiler/src/runtime/pony/libponyrt/ds/hash.c:164-164 | marking an entry removed gives the buckets of the map without it, and hides no other entry |
| `HashTable.VisitsOnce` | encore-compiler/src/runtime/pony/libponyrt/ds/hash.c:186-209 | going through the buckets meets no key twice |
| `HashTable.VisitsAll` | encore-compiler/src/runtime/pony/libponyrt/ds/hash.c:186-209 | going through the buckets meets the keys of the map and no others |
| `HashMap.Map.constructor` | encore-compiler/src/runtime/pony/libponyrt/ds/hash.c:75-98 | an empty map with room for the given number of entries at load one half: eight buckets or the smallest power of two that is enough |
| `HashMap.Map.Init` | encore-compiler/src/runtime/pony/libponyrt/ds/hash.c:75-98 | the same for a map that has no buckets yet |
| `HashMap.Map.Search` | encore-compiler/src/runtime/pony/libponyrt/ds/hash.c:13-49 | finds the slot of the key if and only if the map has it, and otherwise the first slot of its path without an entry |
| `HashMap.ProbeIndex` | encore-compiler/src/runtime/pony/libponyrt/ds/hash.c:19-44 | the slot that the search computes with the mask is the next one of the probe path |
| `HashMap.Map.Get` | encore-compiler/src/runtime/pony/libponyrt/ds/hash.c:123-130 | the value of the key in the abstract map, or nothing |
| `HashMap.Map.Put` | encore-compiler/src/runtime/pony/libponyrt/ds/hash.c:132-152 | the abstract map with the key set, and the value that it had before; the table stays the same, or becomes eight times as large exactly when a new key would bring the load above one half |
| `HashMap.Map.Resize` | encore-compiler/src/runtime/pony/libponyrt/ds/hash.c:51-73 | the same abstract map in a fresh table eight times as large |
| `HashMap.Map.Remove` | encore-compiler/src/runtime/pony/libponyrt/ds/hash.c:154-169 | the abstract map without the key, and the value that it had |
| `HashMap.Map.RemoveIndex` | encore-compiler/src/runtime/pony/libponyrt/ds/hash.c:171-184 | removes the entry in the bucket if there is one, and changes no other bucket |
| `HashMap.Map.Next` | encore-compiler/src/runtime/pony/libponyrt/ds/hash.c:186-209 | the first entry behind the given bucket, or none if there is none; where the index is left in either case |
| `HashMap.Map.Sweep` | encore-compiler/src/runtime/pony/libponyrt/gc/objectmap.c:163-201 | iterating and removing by index on the way visits every entry once and leaves exactly those not dropped |
| `PageAllocator.Pages.AllocPages` | encore-compiler/src/runtime/pony/libponyrt/mem/pool.c:403-459 | serves the request from the end of the smallest free block that fits, or else from fresh memory; the list stays sorted and linked, the total right and all regions disjoint |
| `PageAllocator.Pages.FreePages` | encore-compiler/src/runtime/pony/libponyrt/mem/pool.c:461-475 | the region is a free block again, and the invariant is kept |
| `PageAllocator.Pages.Insert` | encore-compiler/src/runtime/pony/libponyrt/mem/pool.c:377-401 | puts a block behind all that are not larger and before all that are, linked in both directions |
| `PageAllocator.Pages.Remove` | encore-compiler/src/runtime/pony/libponyrt/mem/pool.c:366-375 | takes a block out and leaves the others linked in both directions |
| `PageAllocator.Pages.Shrink` | encore-compiler/src/runtime/pony/libponyrt/mem/pool.c:415-429 | a block that became smaller is moved exactly when the list would not be sorted otherwise, and then goes behind all that are not larger; otherwise the list keeps its order |
| `PageAllocator.Pages.Grow` | encore-compiler/src/runtime/pony/libponyrt/mem/pool.c:445-458 | a large request gets fresh memory of its own, another one the end of a fresh block whose rest is free |
| `PageAllocator.FirstIsBest` | encore-compiler/src/runtime/pony/libponyrt/mem/pool.c:407-441 | the first block of the list that is large enough is the smallest such block |
| `PageAllocator.CutRegion` | encore-compiler/src/runtime/pony/libponyrt/mem/pool.c:411-431 | cutting the end off a free block keeps all regions apart |

## Left out

- CycleDetector.Detector.Detect: requires that no view of the garbage is perceived yet, which is what the assert in `collect_view` demands. The assert in `mark_white` also speaks of views that are white only for a while: `trace` gives the run of the scan, and `NeverWhitens` the exact condition under which no order of the maps makes it fail. That the detector as a whole always meets that condition is not proved.
- Fairness: nothing is said about how often a thread, scheduler or actor takes a step. Progress is stated as bounds on the steps of a call (`LockFree`), as the absence of stuck states (`NeverStuck`, `NeverStalls`) and as what a wait is for (`WaitsForOne`).
- Weak memory, barriers and the wrap-around of sequence numbers, tokens and ABA counters: every model is sequentially consistent with unbounded counters.
- `ebr.c`, `auto_ebr.c`, the root `dw.c`, `lfrc.c` and the `aoa` directory: other reclamation schemes of the benchmark; `list_lf_ebr.c` and `queue_lf_ebr.c` are modelled with nodes that are never used again.
- `MyList.java`: mark and pointer are separate there, so the argument for the marked-pointer list does not apply.
- The stop-the-world variant, the publish and link wrappers and the tracing of `encore/dw.c`: they depend on generated functions; cleaning a duration is one step.
- `mr_thread_exit` in `smr.c`, and the sort and binary search in `scan`, which are taken as a membership test.
- What a trace function visits in `gc.c`: the sender traces any set of targets, and the receiver of a message traces exactly the set that was sent. Addresses of objects are never used again after an object is freed, so a target has one life.
- The path of `gc.c` for futures, memory that the runtime did not allocate, tags traced through unions, finalisers and heap sizes: only counts, reachability and freeing are modelled.
- `deferred` and the dispatch of `block` in `cycle.c`: when a scan is started is left open; `CycleConf` perceives any set of blocked actors that are not perceived yet, `CycleDetector` says which set a scan perceives.
- The memory management of views (`view_rc`) and the overflow of the int counters in `cycle.c`: views live as long as they are needed.
- `FLAG_UNSCHEDULED`, tasks, continuations and contexts in `actor.c`, and `actor_destroy`: the actor is never unscheduled by itself.
- The inject queue and the time-out of the cycle detector in `scheduler.c`, and the order in which `choose_victim` tries victims: any victim may be tried.
- `mpmcq_push_single`: with its single producer its two statements are the exchange of `mpmcq_push`.
- The tests of `mpmcq_pop` for an empty queue through a stale node: such a pop may answer NULL although the queue is not empty, and only an answer read from the current tail is characterised.
- `next_pow2` in `ds/fun.c`: its meaning, the next power of two, is used instead of its bit operations; the square in the probe does not overflow. The sum of hash and offset may, which changes no slot, because the size of the table divides 2^64.
- `hashmap_destroy` and the pool's size classes, thread caches and central lists: easier members.
- Block headers in `pool.c`: sizes are any positive numbers, as if a block of any size could hold its header.

# Verification of the myframe runtime core

myframe is an actor framework. One main thread owns every routing decision; common worker threads run actors, user
worker threads run the application's own loops, and one timer worker emits time-outs. This project models that core
and proves what its parts promise together.

- **Timing wheel.** `TimerPlacement` is the digit arithmetic behind the five levels, `WordBits` ties it to the 32-bit
  masks and shifts, `WorkerTimer` is the wheel itself, a class whose slots are updated in place, and `FlatTimers` is
  the simple thing it stands for: one list of (due tick, timer). Every wheel tick is a tick of that list, and whole runs
  of the list are a schedule computed on unbounded tick numbers. The starting clock is arbitrary, because the program
  never sets `time_`, and every statement covers the wrap past 2^32. `ClockedTimers` drives it by readings of the clock.
- **Ring list.** `RingList` is the intrusive circular list, on real pointers, refining a sequence.
- **Mailboxes and scheduling.** `Mailboxes`, `ActorContexts`, `WorkerContexts` and `Scheduler` are the classes of the
  main thread, each method proved equal to a function of the old state. `Workers` is the worker's loop.
- **The protocol.** `Protocol` runs those same functions as a state machine: any number of worker threads, one step at
  a time, interleaved with the main thread's loop. `ProtocolWorkerSteps`, `ProtocolMainSteps` and `ProtocolEvents` show
  that every step keeps one invariant; `ProtocolGuarantees` says what it means in every reachable state. Routing results
  are arbitrary there, so the guarantees hold for every application.
  `ProtocolMoves` counts what wake-ups and assignments move, `ProtocolOrder` says who is served first, and
  `ProtocolExamples` gives two concrete runs. `ProtocolMail` ties reports to routing and the subscription table,
  follows mail from any sender to its receiver and says whom a publication in a run reaches.
- **Names, routing, subscriptions, start-up.** `Names` splits addresses, `Routing` chooses the receivers, `MsgManagers`
  keeps subscriptions, `Publications` follows a message from the subscription table to the mailboxes, `EventManagers`
  keeps the workers' handles and names, `StartUp` caches what is sent before its receiver exists, `StartUpRuns` and
  `StartUpCross` say what everybody has received when the program begins to run, and `StartUpAdmission` who is admitted.
  `Basics` and `Messages` hold what all of them share.

Actor contexts, worker contexts and timers are values held in the maps and sequences of their managers; the managers,
mailboxes, channels, pollers and lists are classes updated in place.

Where the code does not keep a promise one might expect, the model keeps the code and says exactly when it holds:

- A user worker whose run queue is limited can be left waiting with mail nobody will wake it for. A pass leaves mail
  behind exactly when there is more than the limit (`WorkerContexts.LimitedRunQueueStrands`), what a waiting worker has
  at the end of the main loop's round is exactly what its last wake-up left
  (`ProtocolGuarantees.NothingStranded`), and `ProtocolExamples.WaitsWithMail` is a run that ends there.
- `Mailbox::MoveToRun` with a limit splices at the front of the run queue. Every message stays in its place exactly when
  there is no limit, nothing in the run queue, or nothing to move (`Mailboxes.OrderKept`). For actors the scheduler
  always finds the run queue empty (`ProtocolGuarantees.TakenHasMail`). A user worker is served in order exactly when no
  wake-up with a limit has found something in its run queue (`ProtocolGuarantees.OrderIffNeverSpliced`), so always if it
  drains its run queue before every report that it waits (`ProtocolGuarantees.DrainingWorkerIsFifo`);
  `ProtocolExamples.OutOfOrder` is a run of one that does not. Out of order or not, no message is lost but the oldest of
  a full pending queue (`ProtocolGuarantees.BoundedUserWorker`).
- Only three-part addresses are ever routed to, so an actor whose type or instance name contains a dot never receives
  anything addressed to it (`StartUpRuns.FlushCompletes`, `StartUpRuns.DottedInstanceLosesMail`). The node's copies of
  messages that cross processes reach it all the same, if it is the node (`StartUpRuns.MisshapenGetsNodeCopies`).
- Adding a worker does not look at the cache, so a user worker receives what was sent to it before it was added last.
  Distinct messages arrive in the order of sending exactly when none was sent before, or none since
  (`StartUpRuns.WorkerOrderIff`, `StartUpRuns.WorkerOutOfOrder`).
- A message that crosses processes is handed to the node when the program begins to run, whenever the node was added,
  unless an actor of its address is added first: then the cache gives it up while there is nobody to take it to other
  processes (`StartUpCross.NodeGetsAllIff`, `StartUpCross.NodeMisses`).
- Topic names can collide (`MsgManagers.SameTopic`: exactly when).
- Looking up a topic leaves an empty entry behind, so a hybrid publication nobody subscribed to lets later publications
  within the process through (`MsgManagers.TurnedAwayIff`, `MsgManagers.HybridOpensTopic`). They still reach nobody
  who did not ask.
- An actor of type node whose Init fails has become the node all the same, and later nodes are turned away
  (`StartUpRuns.FailedNodeStays`). The node exists exactly when its address was not claimed by such an actor or a
  component of that name was accepted anyway (`StartUpRuns.NodeExistsIff`).
- A second worker of one name is accepted, because only handles are compared, and takes the name over: it stands for the
  worker accepted last (`StartUpRuns.NameStandsForLast`), and no name stands for the first any more
  (`StartUpRuns.TwinUnreachable`).
- The number of missed ticks is cut to 32 bits, and a clock that goes back is followed without a tick: the wheel is in
  step with the clock at every moment of a run exactly when no reading goes back or 2^32 ticks ahead
  (`ClockedTimers.InStepIffSteady`).
- A running actor that is passed over when another is handed out loses its place to everybody waiting behind
  (`ActorContexts.GetOrder`, `ActorContexts.PassedOverWaits`).

## Model

| member | source | states |
|---|---|---|
| WorkerTimer.TimerManager.constructor | myframe/worker_timer.cpp:25-32 | a new wheel is an empty flat list, whatever the starting clock |
| WorkerTimer.TimerManager.AddTimerNode | myframe/worker_timer.cpp:36-53 | exactly one slot changes, the canonical one for the expiry at this clock, and it gains the timer at its end |
| WorkerTimer.TimerManager.Timeout | myframe/worker_timer.cpp:55-69 | registering a positive int delay, wrapped to 32 bits, appends one entry to the flat list and keeps every slot canonical; other delays give -1 and change nothing |
| WorkerTimer.TimerManager.Dispatch | myframe/worker_timer.cpp:71-93 | one near slot leaves for the time-out list in order and becomes empty; no other slot changes |
| WorkerTimer.TimerManager.Execute | myframe/worker_timer.cpp:95-100 | the near slot of the current tick, and nothing else, is emitted |
| WorkerTimer.TimerManager.MoveList | myframe/worker_timer.cpp:101-117 | one far slot is emptied and each timer ends up at the tail of its canonical slot, in order, conserving the timers of every slot |
| WorkerTimer.TimerManager.Shift | myframe/worker_timer.cpp:118-138 | for every clock, the loop ends within three levels with the mask at most 2^26, and canonical placement for the old tick has become canonical placement for the new one |
| WorkerTimer.TimerManager.UpdateOneTick | myframe/worker_timer.cpp:139-145 | one wheel tick refines one flat tick: exactly the entries whose expiry equals the new time leave, in registration order |
| WorkerTimer.TimerManager.UpdateTime | myframe/worker_timer.cpp:146-159 | catching up is one flat tick for each tick the clock went forward, counted in 32 bits, and none when it went back; the reading is kept |
| WorkerTimer.TimerManager.TakeTimeouts | myframe/worker_timer.cpp:192-196 | handing the time-outs to the mailbox takes all of them once and no pending timer |
| WorkerTimer.Drive | myframe/worker_timer.cpp:25-159 | the wheel itself, driven through any run of registrations and ticks from any starting clock, has emitted exactly the schedule of the registrations, each at its tick and in registration order |
| WorkerTimer.DriveByClock | myframe/worker_timer.cpp:55-159 | the wheel itself, driven by any sequence of clock readings and registrations, has emitted exactly the schedule of the registrations up to the sum of the forward differences of the readings |
| ClockedTimers.RunByClock | myframe/worker_timer.cpp:146-159 | whatever the readings, what is emitted is the schedule up to that sum, and what is pending is the later registrations |
| ClockedTimers.InStepIffSteady | myframe/worker_timer.cpp:146-159 | at every moment of a run as many ticks have been counted as the clock has gone on, iff no reading goes back or 2^32 ticks or more ahead |
| ClockedTimers.FiresByClock | myframe/worker_timer.cpp:55-159 | with such a clock, a timer asked for with delay d has been emitted exactly once when the clock has been read d ticks or more after the reading before it was asked for, and not at all before |
| FlatTimers.RunOn | myframe/worker_timer.cpp:150-155 | running on from where a run has led is running both one after the other |
| WorkerTimer.SlotsPartition | myframe/worker_timer.cpp:36-53 | canonical slots partition the pending timers: each is in its own slot as often as it is pending, and in no other |
| WorkerTimer.CascadeMoves | myframe/worker_timer.cpp:101-138 | re-placing the one cascade slot turns every slot's content for the old tick into its content for the new tick, order included, and leaves the cascade slot empty |
| WorkerTimer.CascadeGoesDown | myframe/worker_timer.cpp:101-117 | each re-placed timer lands in a strictly finer level |
| WorkerTimer.NoCascadeMoves | myframe/worker_timer.cpp:127 | on all other ticks no slot changes |
| WorkerTimer.FirstNonZeroDigit | myframe/worker_timer.cpp:124-136 | the slot at which the digit loop stops is the cascade slot |
| WorkerTimer.ZeroDigit | myframe/worker_timer.cpp:127-136 | a non-zero clock never lets the loop reach a fifth level |
| WorkerTimer.MaskTest | myframe/worker_timer.cpp:40-50 | each mask test holds iff the timer belongs exactly on the level tested |
| WorkerTimer.DueIsNearSlot | myframe/worker_timer.cpp:95-100 | the near slot of a tick holds exactly the timers due then; every other slot holds the rest |
| WorkerTimer.NearSlotEmpty | myframe/worker_timer.cpp:139-145 | between ticks the near slot of the current tick is empty, so the first Execute emits nothing |
| WorkerTimer.MiddleSlotsEmpty | myframe/worker_timer.cpp:36-53 | slot 0 of each middle level is always empty |
| TimerPlacement.CascadeExact | myframe/worker_timer.cpp:118-138 | at every clock, a timer ahead changes its canonical place iff it is in the one slot the clock's digits name, and then to a strictly finer level |
| TimerPlacement.CascadeAt | myframe/worker_timer.cpp:124-136 | the same for clocks that do not wrap, by the digit that was carried into |
| TimerPlacement.CascadeWrap | myframe/worker_timer.cpp:121-122 | on wrap to 0 exactly the timers of slot 0 of the top level move |
| TimerPlacement.MiddleSlotZeroEmpty | myframe/worker_timer.cpp:36-53 | a timer ahead of the clock never belongs in slot 0 of a middle level |
| TimerPlacement.DueSlot | myframe/worker_timer.cpp:95-100 | a timer belongs in the near slot of the current tick iff it is due now |
| TimerPlacement.Registered | myframe/worker_timer.cpp:63-65 | the stored expiry is exactly the delay ahead of the clock, whether or not the 32-bit sum wraps |
| FlatTimers.NotDueStaysAhead | myframe/worker_timer.cpp:139-145 | what a tick leaves pending is still ahead of the clock by less than 2^31 |
| FlatTimers.TickSplits | myframe/worker_timer.cpp:139-145 | comparing 32-bit expiries separates due from pending exactly as unbounded due ticks would |
| FlatTimers.RunIsSchedule | myframe/worker_timer.cpp:36-145 | over every interleaving of registrations and ticks from every starting clock, the emitted messages are the batches due at ticks 1, 2, ..., each in registration order, and the pending timers are exactly the later registrations |
| FlatTimers.ScheduleCount | myframe/worker_timer.cpp:71-145 | that schedule holds every registration due so far exactly once |
| FlatTimers.RegisteredOnce | myframe/worker_timer.cpp:55-69 | a registration with delay d after k ticks is due at tick k + d, once, whatever else is registered around it |
| FlatTimers.FiresExactlyAfterDelay | myframe/worker_timer.cpp:36-145 | a timer registered with delay d anywhere in any run has been emitted exactly once when d or more ticks have followed, and not at all before |
| WordBits.PlacementBits | myframe/worker_timer.cpp:36-53 | for every pair of 32-bit words, the OR-mask tests and the shift-and-mask index choose the level and slot of the digit arithmetic |
| WordBits.PrefixBits | myframe/worker_timer.cpp:40-50 | two words agree after OR with each of the four masks iff their quotients by its unit agree |
| WordBits.SlotBits | myframe/worker_timer.cpp:51 | shifting and masking with 63 gives the six-bit digit of each level |
| WordBits.OrMeaning | myframe/worker_timer.cpp:40-46 | OR with k ones sets the last k binary digits and no other |
| WordBits.AndMeaning | myframe/worker_timer.cpp:41-51 | AND with k ones is the remainder by 2^k |
| WordBits.ShiftDivides | myframe/worker_timer.cpp:124-134 | a right shift is division, and what it drops is the remainder |
| WordBits.LowBitsClear | myframe/worker_timer.cpp:127 | the loop's mask test is divisibility by the mask |
| RingList.List.constructor | myframe/list.h:24-26 | a new list is an empty ring |
| RingList.List.BothWays | myframe/list.h:48-57 | reading `next` from the root gives the abstract sequence, reading `prev` its reverse, both close at the root, and the count is the length |
| RingList.List.Init | myframe/list.cpp:13-16 | the ring becomes empty |
| RingList.List.Add | myframe/list.cpp:19-26 | the node is inserted between the two neighbours, all other links intact |
| RingList.List.AddHead | myframe/list.cpp:28 | the node comes first; null changes nothing |
| RingList.List.AddTail | myframe/list.cpp:30 | the node comes last; null changes nothing |
| RingList.List.Unlink | myframe/list.cpp:33-38 | exactly the node between the two neighbours leaves |
| RingList.List.Del | myframe/list.cpp:40-43 | the node leaves and is linked to itself |
| RingList.List.DelHead | myframe/list.cpp:45-48 | the first node leaves, if there is one |
| RingList.List.DelTail | myframe/list.cpp:50-53 | the last node leaves, if there is one |
| RingList.List.GetData | myframe/list.cpp:90-118 | element i for every index in range, walking either way; null out of range, the root when empty |
| RingList.List.DelWithIndex | myframe/list.cpp:55-61 | element i leaves iff the index is in range |
| RingList.List.MoveHead | myframe/list.cpp:64-67 | the node moves to the front, the others keep their order |
| RingList.List.MoveTail | myframe/list.cpp:69-72 | the node moves to the end, the others keep their order |
| RingList.List.Append | myframe/list.cpp:74-88 | the other list's nodes follow this list's, and the other list is empty |
| RingList.List.Clear | myframe/list.cpp:120-125 | the list becomes empty |
| RingList.Spliced | myframe/list.cpp:76-83 | rewriting four pointers at the seam joins two rings into one |
| Mailboxes.Mailbox.Recv | myframe/mailbox.cpp:75-84 | only the oldest pending messages are dropped, and only as many as the bound needs |
| Mailboxes.Mailbox.MoveToRun | myframe/mailbox.cpp:95-107 | exactly the oldest messages move, as many as the limit of the run queue or all if that is not positive or they are fewer; with a limit they go to the front of the run queue, without to its end |
| Mailboxes.Mailbox.PopRun | myframe/mailbox.cpp:117-124 | the oldest message of the run queue is taken, null when there is none |
| Mailboxes.Mailbox.SendList | myframe/mailbox.cpp:55-57 | a whole list goes to the end of the send queue |
| Mailboxes.DeliverExplained | myframe/mailbox.cpp:75-84 | a delivery keeps the history of the mailbox exact, the order of handled and running messages included |
| Mailboxes.DeliverBooks | myframe/mailbox.cpp:75-84 | pending is the end of what was delivered, within the bound, and a message is lost only as the oldest pending one, to the delivery that finds the queue full; every delivery keeps it so |
| Mailboxes.DeliverAccounts | myframe/mailbox.cpp:75-84 | and it keeps handled and running messages together the survivors, each as often |
| Mailboxes.AssignExplained | myframe/mailbox.cpp:95-107 | assignment into an empty run queue, or without a limit, keeps handled and running messages in delivery order |
| Mailboxes.AssignBooks | myframe/mailbox.cpp:95-107 | assignment, whatever the run queue holds and its limit is, keeps pending the end of what was delivered and loses nothing |
| Mailboxes.AssignAccounts | myframe/mailbox.cpp:95-107 | and it keeps handled and running messages together the survivors, each as often, out of order or not |
| Mailboxes.MovesExactly | myframe/mailbox.cpp:95-107 | the least of limit and pending messages leave, oldest first, all without a limit, and where they go |
| Mailboxes.AssignedFates | myframe/mailbox.cpp:95-107 | exactly that many messages, those pending longest, get the fate of having been moved after so many deliveries |
| Mailboxes.HandleExplained | myframe/mailbox.cpp:117-124 | handling one message keeps the whole history consistent |
| Mailboxes.HandleAccounts | myframe/mailbox.cpp:117-124 | handling one message keeps the account of the survivors |
| Mailboxes.UnboundedIsFifo | myframe/mailbox.cpp:75-124 | without a bound, handled, running and pending messages together are everything delivered, in order |
| Mailboxes.UnboundedLosesNothing | myframe/mailbox.cpp:75-124 | without a bound they are everything delivered, each as often, whatever the run queue's limit |
| Mailboxes.NothingLostWithinBound | myframe/mailbox.cpp:75-84 | up to as many deliveries as the bound lose nothing |
| Mailboxes.MoveOrderIs | myframe/mailbox.cpp:95-107 | which position of the two queues each message comes from after moving |
| Mailboxes.OrderKept | myframe/mailbox.cpp:95-107 | every message keeps its place iff there is no limit, nothing in the run queue or nothing to move |
| Mailboxes.DistinctReordered | myframe/mailbox.cpp:95-107 | for distinct messages the lists themselves agree under the same condition and no other |
| Mailboxes.FrontSpliceReorders | myframe/mailbox.cpp:95-107 | for any messages, equal ones included, the list is unchanged iff there is no limit or the run queue and what moves give the same list either way round |
| Mailboxes.OrderedAssigned | myframe/mailbox.cpp:95-107 | numbered by delivery, every message is where its number says after a move, no number twice |
| Mailboxes.ReorderStays | myframe/mailbox.cpp:95-107 | numbers out of order stay out of order, whatever moves after them |
| Mailboxes.ReorderIff | myframe/mailbox.cpp:95-107 | numbers in order stay in order iff there is no limit, nothing in the run queue or nothing to move |
| ActorContexts.ActorContextManager.Add | myframe/actor_context_manager.cpp:42-51 | a name is taken once; a second actor of that name is refused and changes nothing |
| ActorContexts.ActorContextManager.PushContext | myframe/actor_context_manager.cpp:127-136 | an actor is queued at the back unless its flag says it is already |
| ActorContexts.ActorContextManager.DispatchMsg | myframe/actor_context_manager.cpp:28-40 | an addressed actor gets the message and is queued; an unknown address changes nothing |
| ActorContexts.ActorContextManager.GetContextWithMsg | myframe/actor_context_manager.cpp:95-125 | the first queued actor that is not running is taken and marked; running ones passed over go to the back in order, expired ones vanish |
| ActorContexts.GetOrder | myframe/actor_context_manager.cpp:95-125 | by positions: the first actor that can run is handed out, all behind it come first then, in order, and the running ones it was chosen over last, in order |
| ActorContexts.FrontGoesFirst | myframe/actor_context_manager.cpp:28-136 | an actor that can run is handed out before any that waits only behind it, whatever is interleaved |
| ActorContexts.PassedOverWaits | myframe/actor_context_manager.cpp:95-136 | whoever can run and waits behind the actor handed out is handed out before every running one that was passed over, whatever is interleaved |
| ActorContexts.ScanAdvances | myframe/actor_context_manager.cpp:102-123 | a call that hands out another actor brings every waiting actor that can run strictly nearer to the front |
| ActorContexts.StepKeepsPlace | myframe/actor_context_manager.cpp:28-136 | no message, push or completion moves a waiting actor back, and each call that passes it over moves it forward |
| ActorContexts.BoundedOvertaking | myframe/actor_context_manager.cpp:95-136 | a queued actor that can run, at distance k from the front, is handed out within the next k + 1 calls, whatever is interleaved |
| ActorContexts.ScanConserves | myframe/actor_context_manager.cpp:95-125 | only the actor handed out leaves the queue, and all those passed over are running |
| WorkerContexts.PollerGeneric.Notify | myframe/platform/poller_generic.h:63-69 | every notification is kept, repetitions included |
| WorkerContexts.PollerGeneric.Wait | myframe/platform/poller_generic.h:47-61 | everything notified so far is handed out once, in order |
| WorkerContexts.CmdChannelGeneric.SendToOwner | myframe/platform/cmd_channel_generic.h:65-72 | the command goes to the end of the owner's list |
| WorkerContexts.CmdChannelGeneric.RecvFromMain | myframe/platform/cmd_channel_generic.h:75-94 | the owner takes its oldest command |
| WorkerContexts.CmdChannelGeneric.SendToMain | myframe/platform/cmd_channel_generic.h:105-115 | the command goes to the end of the main list and the poller is notified once |
| WorkerContexts.CmdChannelGeneric.RecvFromOwner | myframe/platform/cmd_channel_generic.h:97-102 | the main thread takes the oldest report; there must be one |
| WorkerContexts.WorkerContextManager.FrontIdleWorker | myframe/worker_context_manager.cpp:61-69 | the first idle worker, null when there is none or it has expired |
| WorkerContexts.WorkerContextManager.PopFrontIdleWorker | myframe/worker_context_manager.cpp:71-77 | the first idle worker leaves the list, if there is one |
| WorkerContexts.WorkerContextManager.PushBackIdleWorker | myframe/worker_context_manager.cpp:79-83 | the worker joins the end of the idle list |
| WorkerContexts.WorkerContextManager.PushWaitWorker | myframe/worker_context_manager.cpp:129-132 | the main thread takes the control over the worker |
| WorkerContexts.WorkerContextManager.WeakupWorker | myframe/worker_context_manager.cpp:134-154 | erasing while iterating visits every listed worker once |
| WorkerContexts.WorkerContextManager.DispatchWorkerMsg | myframe/worker_context_manager.cpp:156-185 | a user worker gets the message and is listed once; other workers and unknown names change nothing |
| WorkerContexts.PostKeepsWakeInv | myframe/worker_context_manager.cpp:156-185 | delivering keeps list, flags and mail in step |
| WorkerContexts.WakeOneKeepsWakeInv | myframe/worker_context_manager.cpp:136-153 | each turn of the wake-up loop keeps them in step |
| WorkerContexts.PassWakesWaiters | myframe/worker_context_manager.cpp:134-154 | one pass gives the control, a command and the mail to every listed worker that was waiting, and touches no other |
| WorkerContexts.PassOnlyUnlists | myframe/worker_context_manager.cpp:134-154 | a worker stays listed iff it has the control |
| WorkerContexts.PassUnlistsExpired | myframe/worker_context_manager.cpp:134-154 | whatever the list, after a pass nobody is on it but workers that exist and have the control |
| WorkerContexts.WaiterWithMailRuns | myframe/worker_context_manager.cpp:134-154 | a waiting worker with mail and an unlimited run queue gets run-with-message and a non-empty run queue in the next pass |
| WorkerContexts.LimitedRunQueueStrands | myframe/worker_context_manager.cpp:134-154 | a pass leaves mail behind with neither flag nor listing iff the run queue is limited to less than the mail there is |
| Scheduler.App.HandOver | myframe/app.cpp:399-432 | routed messages reach the mailboxes of receivers that exist, in order |
| Scheduler.DeliveryLands | myframe/app.cpp:399-432 | a delivery goes behind the pending mail of the actor or user worker it names, at the cost of the oldest if that is full, and touches no other mailbox |
| Scheduler.App.DispatchTo | myframe/app.cpp:384-491 | one message to one address: exactly the deliveries of the routing table |
| Scheduler.App.DispatchCalls | myframe/app.cpp:500-510 | every call of a publication is dispatched, those without an address to the node |
| Scheduler.App.DispatchMsg | myframe/app.cpp:493-516 | a subscription, a publication or a plain message: the table afterwards and the deliveries it may lead to |
| Scheduler.App.DispatchList | myframe/app.cpp:518-523 | a send list is dispatched message by message, each against the table the earlier ones have left |
| Scheduler.App.Assign | myframe/app.cpp:558-568 | the actor's mail moves to its run queue, the actor is queued again iff mail is left, and the worker refers to it and gets a run command |
| Scheduler.App.CheckStopWorkers | myframe/app.cpp:537-573 | the pass ends, and is the wake-up pass followed by assignments until none is possible |
| Scheduler.TurnDecreases | myframe/app.cpp:545-572 | every turn of the assignment loop uses up a queued actor that can run: one queued again is running |
| Scheduler.TurnGivesMail | myframe/app.cpp:545-572 | a turn gives the idle worker at the front the actor taken, with a run command and some of its mail, and an actor without mail to nobody |
| Scheduler.AssignAllConserves | myframe/app.cpp:545-572 | when the loop stops no live idle worker is at the front, or every queued actor is running or gone |
| Scheduler.App.TakeSends | myframe/app.cpp:525-535 | exactly what the reporter has sent leaves its mailbox, and a common worker's actor stops running |
| Scheduler.App.Answer | myframe/app.cpp:592-673 | each kind of worker gets the reply, the idle listing or the loss of control its report asks for; a report its kind never makes changes nothing |
| Scheduler.App.ProcessEvent | myframe/app.cpp:585-674 | one report: what its sender has sent is dispatched, message by message, then exactly one command is taken and answered |
| Workers.WorkerCommon.Idle | myframe/worker_common.cpp:18-22 | the worker lets go of its actor |
| Workers.WorkerCommon.Work | myframe/worker_common.cpp:39-51 | the whole run queue is handled, front first, and what the actor sends is queued in that order; -1 without an actor |
| Workers.WorkedIs | myframe/worker_common.cpp:46-48 | afterwards nothing is left to handle and the pending mail is untouched |
| Workers.WorkIsRun | myframe/worker_common.cpp:24-51 | one call of Work is a run of protocol steps after which the worker may report idle, and not before |
| ProtocolWorkerSteps.ReportKeeps | myframe/worker.cpp:37-61 | queuing a report keeps the invariant of the running phase |
| ProtocolWorkerSteps.NotifyKeeps | myframe/platform/cmd_channel_generic.h:105-115 | notifying the poller, a separate step from queuing, keeps it |
| ProtocolWorkerSteps.ResumeKeeps | myframe/platform/cmd_channel_generic.h:75-94 | reading the reply keeps it |
| ProtocolWorkerSteps.HandleKeeps | myframe/worker_common.cpp:46-48 | handling one message of an actor keeps it |
| ProtocolWorkerSteps.UserPopKeeps | myframe/mailbox.cpp:117-124 | a user worker taking a message keeps it |
| ProtocolWorkerSteps.UserSendKeeps | myframe/mailbox.cpp:35-57 | a user or timer worker sending keeps it |
| ProtocolMainSteps.WakeKeeps | myframe/worker_context_manager.cpp:136-153 | one turn of the wake-up loop keeps it while the workers go on |
| ProtocolMainSteps.AssignKeeps | myframe/app.cpp:545-572 | one turn of the assignment loop keeps it |
| ProtocolMainSteps.PollKeeps | myframe/platform/poller_generic.h:47-61 | collecting events keeps it |
| ProtocolEvents.InjectKeeps | myframe/app.cpp:738-739 | delivering the start-up cache, or any other messages, keeps it |
| ProtocolEvents.ProcessKeeps | myframe/app.cpp:585-674 | processing one report keeps it |
| ProtocolEvents.AnsweredLink | myframe/app.cpp:592-673 | taking and answering a report keeps the worker's link consistent for each kind of worker |
| ProtocolEvents.StepKeeps | myframe/app.cpp:728-744 | every step of every thread keeps the invariant |
| ProtocolEvents.InitOk | myframe/app.cpp:728-739 | it holds when the main loop starts |
| ProtocolEvents.RunKeeps | myframe/app.cpp:740-747 | it holds after every run |
| ProtocolGuarantees.ReadyQueueExact | myframe/actor_context_manager.cpp:95-136 | in every reachable state an actor is queued exactly once if it has mail, not at all otherwise, and its flag says so |
| ProtocolGuarantees.TakenHasMail | myframe/app.cpp:552-571 | an actor taken from the queue has mail and an empty run queue, so the "has no msg" branch is never reached |
| ProtocolGuarantees.SerialActors | myframe/app.cpp:640-674 | an actor is marked running iff exactly one worker refers to it, a common one that is not idle |
| ProtocolGuarantees.ActorFifo | myframe/mailbox.cpp:75-124 | with an unlimited pending queue, in every reachable state handled, running and pending messages together are what was delivered, in order |
| ProtocolGuarantees.BoundedActor | myframe/mailbox.cpp:75-107 | with bound N, in every reachable state pending is the end of what was delivered, at most N messages; message p was lost only to delivery p + N, all older ones gone before it, or else moved before that delivery; and what is handled and running is what was moved, in order |
| ProtocolGuarantees.BoundedUserWorker | myframe/mailbox.cpp:75-107 | the same for every user worker with bound N, whatever its run queue's limit: pending, bound and the fate of each message; what is handled and running is what was moved, each as often, and in order unless a wake-up with a limit has found something in the run queue |
| ProtocolGuarantees.WithinBoundIsFifo | myframe/mailbox.cpp:75-107 | an actor given no more messages than its bound has lost none |
| ProtocolGuarantees.UserWorkerFifo | myframe/worker_context_manager.cpp:134-185 | with an unlimited pending queue, handled, running and pending are what was delivered, each as often, and in order unless a wake-up with a limit has found something in the run queue, which cannot happen without a limit or if it was drained before every report of waiting |
| ProtocolGuarantees.UserWorkerOrder | myframe/mailbox.cpp:95-107 | numbered by delivery, what is handled, running and pending is what the numbers say, no number twice, and the numbers increase iff no wake-up with a limit has found something in the run queue |
| ProtocolGuarantees.RunSplices | myframe/worker_context_manager.cpp:143-147 | that history flag is exactly what happened in the run |
| ProtocolGuarantees.OrderIffNeverSpliced | myframe/worker_context_manager.cpp:134-154 | over whole runs: a user worker's messages stay in order of delivery iff no wake-up with a limit finds something in its run queue |
| ProtocolGuarantees.RunDrains | myframe/worker.cpp:50-61 | the history flag of draining is exactly what the worker did in the run |
| ProtocolGuarantees.DrainingWorkerIsFifo | myframe/worker_context_manager.cpp:134-185 | over whole runs: a user worker that drains its run queue before it waits is served in order, whatever the limit |
| ProtocolGuarantees.WokenHasMail | myframe/worker_context_manager.cpp:147-152 | in every reachable state, whoever is told that there are messages has a non-empty run queue |
| ProtocolGuarantees.WakeListExact | myframe/worker_context_manager.cpp:134-185 | a user worker with an unlimited run queue is on the wake-up list exactly once iff its flag is set iff it has pending mail |
| ProtocolGuarantees.OneCommandInFlight | myframe/platform/cmd_channel_generic.h:64-115 | each channel holds at most one command over both directions, notifications never exceed queued reports, and reports and fitting replies alternate |
| ProtocolGuarantees.LinksNeverUnderflow | myframe/platform/cmd_channel_generic.h:97-102 | every event the main thread is handed has a report behind it |
| ProtocolGuarantees.BlockedForAReason | myframe/worker.cpp:37-61 | a waiting worker has a report on its way, a reply to read, a place in the idle list, or has given up the control |
| ProtocolGuarantees.NothingStranded | myframe/app.cpp:740-744 | when the main thread waits for events, a waiting user worker has exactly what its last wake-up found beyond the limit of its run queue, none without a limit, and either no common worker is idle or every actor with mail is running |
| ProtocolGuarantees.RunQueueBelongsToWorker | myframe/worker_context_manager.cpp:143-152 | no step of the main thread changes a user worker's run queue while that worker has the control |
| ProtocolMoves.MovesOfRun | myframe/mailbox.cpp:95-107 | over every run: the fates of the messages that were moved, in order, are one block for each wake-up or assignment of that mailbox, as long as the least of limit and pending messages then, and saying after how many deliveries |
| ProtocolMoves.RunWakes | myframe/worker_context_manager.cpp:143-152 | the same from any state for a user worker, with how many messages its last wake-up found |
| ProtocolMoves.RunAssigns | myframe/app.cpp:558-568 | the same from any state for an actor |
| ProtocolMoves.WaiterHasTheRest | myframe/worker_context_manager.cpp:134-154 | over every run that ends where the main thread waits: a waiting user worker has what the last wake-up in the run found less its limit |
| ProtocolOrder.IdleInOrder | myframe/worker_context_manager.cpp:61-83 | over every run, the idle worker at position k is given an actor within the next k + 1 assignments |
| ProtocolOrder.ActorsInOrder | myframe/app.cpp:545-572 | over every run, an actor that can run, at position k of the ready queue, is run within the next k + 1 assignments, those queued again for mail left notwithstanding |
| ProtocolOrder.ReportsInOrder | myframe/platform/poller_generic.h:47-69 | over every run, reports are answered in the order in which they were notified |
| ProtocolOrder.ProcessTakesFront | myframe/app.cpp:695-726 | a processing step takes one command, of the worker whose event is first |
| ProtocolOrder.ListedBehind | myframe/worker_context_manager.cpp:156-185 | whoever gets mail is listed behind those listed before, and only waking takes anybody from the list |
| ProtocolOrder.WokenInOrder | myframe/worker_context_manager.cpp:134-154 | in every reachable state, when a worker is woken everybody listed in front of it has the control already |
| ProtocolOrder.PassIsRun | myframe/app.cpp:537-573 | one call of CheckStopWorkers is a run of wake-up steps and then of assignment steps of the protocol, with the same result |
| ProtocolExamples.WaitsWithMail | myframe/worker_context_manager.cpp:134-154 | a reachable state in which a worker with run queue size 1 waits with mail, unlisted, with no event to come |
| ProtocolExamples.OutOfOrder | myframe/mailbox.cpp:96-105 | a reachable state in which a worker that did not drain has its mail out of order |
| ProtocolMail.SendsProcessed | myframe/app.cpp:525-535 | processing a report empties the reporter's send queue and no other |
| ProtocolMail.StepKeepsSent | myframe/app.cpp:518-674 | every step keeps: what an actor, user worker or timer worker has sent to a component is what was handed over, then what is still in its send queue |
| ProtocolMail.StepKeepsPosts | myframe/app.cpp:384-432 | every step keeps: a mailbox has been given exactly what was handed to it, in that order |
| ProtocolMail.ToActorInOrder | myframe/app.cpp:493-674 | over every run, the plain in-process messages that an actor, user worker or timer worker sends to actor b are delivered to b once each and in the sender's order, but for those still in its send queue |
| ProtocolMail.ToWorkerInOrder | myframe/app.cpp:493-674 | the same for a user worker that is sent to |
| ProtocolMail.ActorToActor | myframe/app.cpp:493-674 | the same between two actors, read off the sending actor's mailbox |
| ProtocolMail.ActorToWorker | myframe/app.cpp:493-674 | the same from an actor to a user worker |
| ProtocolMail.FromToIsMail | myframe/actor_context_manager.cpp:28-40 | what a has handed over is read off b's mail, in the order of that mail |
| ProtocolMail.HandledInOrder | myframe/app.cpp:493-674 | with an unlimited pending queue, what b has handled, has running and has pending is its mail, in order |
| ProtocolMail.StepKeepsTable | myframe/app.cpp:493-523 | every step keeps the subscription table what the subscriptions and publications dispatched so far leave |
| ProtocolMail.PublicationInRun | myframe/app.cpp:384-523 | over every run, a publication is handed once to each actor or user worker whose subscription was dispatched before it, once to the node if the mode crosses processes, once more where nameless calls end if a nameless component subscribed, and to nobody else |
| ProtocolMail.SubscriptionInRun | myframe/app.cpp:493-498 | over every run, a subscription is handed to the node, once, if its mode is DDS or it is hybrid and none of its sender to the topic was recorded before it, and to nobody else |
| ProtocolMail.DispatchedInRun | myframe/app.cpp:493-523 | over every run, each message is dealt with by the table that the subscriptions and publications before it have left |
| Names.SplitMsgName | myframe/common.cpp:188-206 | the loop computes the pieces between dots, none for the empty name |
| Names.JoinPieces | myframe/common.cpp:188-206 | joining the pieces with dots gives every name back |
| Names.PiecesDotFree | myframe/common.cpp:188-206 | no piece contains a dot |
| Names.SplitOfJoin | myframe/common.cpp:188-206 | splitting what was joined from dot-free tokens gives them back iff they are not the single empty token |
| Routing.Route | myframe/app.cpp:384-491 | the routing table chooses exactly the specified receivers |
| Routing.RouteReaches | myframe/app.cpp:384-491 | for every mode and address, an actor or worker is handed a message once for being addressed unless the mode is DDS, and once for being the node unless it is Intra; nobody is when the address is not actor, worker or event and two more parts |
| Routing.RoutedReceived | myframe/app.cpp:384-491 | a plain in-process message goes exactly to the three-part address it carries |
| Routing.KindsExact | myframe/app.cpp:392-486 | the addresses routed are exactly those made of actor, worker or event and two more parts without dots |
| MsgManagers.MsgManager.AddSubInfo | myframe/msg_manager.cpp:19-49 | a subscription within the process is recorded once, a repetition changes nothing, and it is passed on iff its mode is DDS, or hybrid and it is no repetition |
| MsgManagers.MsgManager.AddPubInfo | myframe/msg_manager.cpp:51-62 | a publication is turned away iff it stays within the process and its topic has no entry |
| MsgManagers.MsgManager.DispatchPubMsg | myframe/msg_manager.cpp:64-81 | one call per recorded component within the process, one without an address for the node; the look-up leaves an entry for the topic and changes no subscriber |
| MsgManagers.TopicInjective | myframe/msg_manager.cpp:83-100 | with three-part addresses, topics agree iff publisher and message name agree |
| MsgManagers.SameTopic | myframe/msg_manager.cpp:83-100 | for any two addresses and names, the empty ones included, exactly when their topics agree |
| MsgManagers.LongerAddressesCollide | myframe/msg_manager.cpp:83-100 | an address with a fourth part shares a topic with a three-part one |
| MsgManagers.Drive | myframe/msg_manager.cpp:19-81 | the manager itself, driven through any history, ends with the table of that history, and every answer and every list of calls on the way is that of the table left so far |
| MsgManagers.EntryOpened | myframe/msg_manager.cpp:19-81 | after any history a topic has an entry iff there was a subscription within the process to it or a hybrid publication on it |
| MsgManagers.TurnedAwayIff | myframe/msg_manager.cpp:51-62 | after any history a publication is turned away iff it stays within the process and there was neither |
| MsgManagers.HybridOpensTopic | myframe/msg_manager.cpp:51-81 | one hybrid publication nobody subscribed to lets the next in-process one through, to nobody |
| MsgManagers.SubscribersAsked | myframe/msg_manager.cpp:19-49 | after any history the components under a topic are exactly those that asked for it |
| MsgManagers.SubscribersSubscribed | myframe/msg_manager.cpp:19-49 | for addresses of any shape, recorded under a topic are exactly the components that subscribed to it within the process |
| MsgManagers.PassedOnIff | myframe/msg_manager.cpp:19-49 | after any history a subscription is passed on iff its mode is DDS, or it is hybrid and its component has not subscribed to the topic within the process before |
| MsgManagers.PublicationReaches | myframe/msg_manager.cpp:64-81 | a publication calls each component that asked once, no other, and the node once iff its mode crosses processes |
| MsgManagers.TurnedAwayReachesNobody | myframe/msg_manager.cpp:51-62 | a publication turned away had nobody to reach |
| Publications.DispatchReceived | myframe/app.cpp:493-516 | dispatching any message hands a plain in-process message to a component iff it is one for it, once |
| Publications.AllReceived | myframe/app.cpp:518-523 | dispatching a list hands a component its plain in-process messages, once each and in order |
| Publications.PlainDelivered | myframe/app.cpp:384-516 | a plain message of any mode is handed once to the actor or worker addressed unless the mode is DDS, and once to the node unless it is Intra or the address is of no known kind |
| Publications.SubscriptionDelivered | myframe/app.cpp:493-498 | after any history a subscription leads to one delivery, to the node, iff it is passed on and the node has an actor's or worker's address, and to no other |
| Publications.CountDeliveries | myframe/app.cpp:500-514 | how often an actor or user worker is handed a publication, over all calls made for it |
| Publications.PublicationDelivered | myframe/app.cpp:384-514 | after any history, whether or not it is turned away, a publication is handed once to each actor or user worker that asked, once to the node if the mode crosses processes, once more where nameless calls end if a nameless component asked, and to nobody else |
| EventManagers.EventManager.constructor | myframe/event_manager.cpp:16-18 | nothing is registered |
| EventManagers.EventManager.Add | myframe/event_manager.cpp:56-66 | refused iff the handle is taken; otherwise the name stands for the new event, even if it stood for another |
| EventManagers.EventManager.ToHandle | myframe/event_manager.cpp:27-34 | the handle the name stands for, if it stands for one |
| EventManagers.EventManager.Del | myframe/event_manager.cpp:68-78 | the event leaves and with it its name, whichever event that stands for by now |
| StartUp.App.HandOver | myframe/app.cpp:399-432 | of the routed messages exactly those whose receiver exists are delivered, in order |
| StartUp.App.DispatchMsg | myframe/app.cpp:384-516 | a plain message goes where its address, its mode and the node say, to receivers that exist; a malformed address goes nowhere |
| StartUp.App.FlushCacheFor | myframe/app.cpp:239-248 | a new actor's cached messages leave the cache, in order, and no others do |
| StartUp.App.HoldBack | myframe/app.cpp:251-265 | before the program runs, messages whose receiver does not exist yet, or that cross processes, go to the cache; the others stay, both in order; later all stay |
| StartUp.App.AddActor | myframe/app.cpp:208-271 | refused before initialisation, while quitting, as a second node or when Init fails; otherwise its cached messages are dispatched, then its own dispatched or cached |
| StartUp.App.AddWorker | myframe/app.cpp:273-311 | refused in the same cases, or if its handle is in use; never for its name, which stands for the new worker from then on; the cache stays untouched |
| StartUp.App.FlushCache | myframe/app.cpp:737-739 | the whole cache is dispatched and left empty |
| StartUp.JoinedIs | myframe/app.cpp:236-268 | an actor's joining is one list of dispatches, its cached messages and then its own ready ones, and one change of the cache |
| StartUp.DispatchGot | myframe/app.cpp:384-516 | dispatching a plain message of any mode hands a component one copy for being addressed unless the mode is DDS and one for being the node unless it is Intra, if it exists, and nothing else |
| StartUp.DispatchAllReceived | myframe/app.cpp:384-523 | a list of messages hands a component its plain in-process ones, once and in order, iff it exists under a three-part address |
| StartUpRuns.JoinedFor | myframe/app.cpp:236-268 | what one more actor means for any component: what it receives and what is cached for it |
| StartUpRuns.AddKeepsCacheInv | myframe/app.cpp:208-311 | adding any component keeps each plain in-process message for an actor cached or received, never both, in sending order |
| StartUpRuns.CacheInvAlways | myframe/app.cpp:208-311 | so it is at every moment of every start-up, for every actor |
| StartUpRuns.AddKeepsWorkerInv | myframe/app.cpp:208-311 | for a user worker, what was sent before it was added stays cached and what is sent since is received |
| StartUpRuns.WorkerInvAlways | myframe/app.cpp:208-311 | so it is at every moment of every start-up, for every user worker |
| StartUpRuns.FlushCompletes | myframe/app.cpp:738-739 | when the program begins to run nothing is cached, and an actor has received everything sent to it, once and in order, iff its address has three parts or nothing was sent |
| StartUpRuns.WorkerFlushCompletes | myframe/app.cpp:273-311 | a user worker has received what was sent since it was added, then what was sent before |
| StartUpRuns.WorkerLosesNothing | myframe/app.cpp:273-311 | nothing for a user worker is lost or doubled |
| StartUpRuns.WorkerOrderIff | myframe/app.cpp:273-311 | distinct messages reach it in the order of sending iff none was sent before it was added, or none since |
| StartUpRuns.WorkerOrderPerSender | myframe/app.cpp:273-311 | each sender's messages always reach it in the order of sending |
| StartUpRuns.WorkerOutOfOrder | myframe/app.cpp:273-311 | a start-up in which two messages arrive the other way round |
| StartUpRuns.DispatchedOrCached | myframe/app.cpp:208-311 | at every moment of every start-up each message sent, of any mode and kind, has been dispatched or is cached, exactly once altogether |
| StartUpCross.CachedExactly | myframe/app.cpp:236-268 | at every moment of every start-up any message is cached as often as it was sent since an actor of its address was added last, if it crosses processes or nobody of its address was there, and not otherwise |
| StartUpCross.CrossProcessGot | myframe/app.cpp:236-268 | when the program begins to run, every message that crosses processes has been handed to the node once for each time it was sent, but for those claimed from the cache before the node was there, and, if hybrid, as often to its addressee; and to nobody else |
| StartUpCross.NodeGetsAllIff | myframe/app.cpp:738-739 | the node, whenever it was added, has them all iff no actor of their address was added while they waited and the node was not there |
| StartUpCross.MissedIff | myframe/app.cpp:239-248 | some are missed iff there is such a step |
| StartUpCross.UnclaimedReachesNode | myframe/app.cpp:254-263 | if no actor of its address is added after it was first sent, the node has exactly one copy for each time it was sent |
| StartUpCross.NodeMisses | myframe/app.cpp:239-248 | a start-up in which such a message is claimed before there is a node, and lost to it |
| StartUpRuns.MisshapenNeverReceives | myframe/app.cpp:392-395 | a component whose address has not three parts never receives a plain in-process message during start-up |
| StartUpRuns.MisshapenGetsNodeCopies | myframe/app.cpp:419-432 | of plain messages of any mode it gets the node's copies if it is the node, and nothing otherwise |
| StartUpRuns.MisshapenGetsNothing | myframe/app.cpp:384-432 | so over whole start-ups, and after the flush with which the program begins to run, it has got nothing at all unless it is the node |
| StartUpRuns.KnownIff | myframe/app.cpp:208-311 | a component is known exactly if one of its name was accepted at some step of the start-up |
| StartUpRuns.NodeExistsIff | myframe/app.cpp:222-236 | the node exists iff its address was not claimed by an actor whose Init then failed, or a component of that name was accepted anyway |
| StartUpRuns.LostNodeGetsNothing | myframe/app.cpp:419-432 | copies for a node that does not exist go to nobody |
| StartUpRuns.FailedNodeStays | myframe/app.cpp:222-236 | a start-up in which the first node's Init fails: it stays the node, the second is turned away, and neither exists |
| StartUpAdmission.NodeIsFirst | myframe/app.cpp:222-297 | the node is the first component of type node, an actor before its Init and a worker after a successful one, whether or not it is admitted |
| StartUpAdmission.AdmittedIff | myframe/app.cpp:208-311 | a component is admitted iff its Init succeeds, it is not of type node or nobody stood for the node before, and it is no worker whose handle an admitted worker has |
| StartUpAdmission.AdmittedNode | myframe/app.cpp:222-297 | an admitted component of type node becomes the node and stays it |
| StartUpAdmission.NothingWaitsAnyMore | myframe/app.cpp:253-268 | from the flush on nothing is cached, and what a new actor sends is dispatched at once, in order |
| StartUpRuns.NameStandsForLast | myframe/event_manager.cpp:56-66 | after every start-up a worker's name stands for the handle of the last worker of that name that was accepted |
| StartUpRuns.TwinUnreachable | myframe/event_manager.cpp:56-66 | once a second worker of its name is accepted, no name stands for the first any more |
| StartUpRuns.DottedInstanceLosesMail | myframe/app.cpp:392-395 | a concrete actor that exists and never gets its mail |

## Left out

- Shutdown: `Quit`, `StopAllWorker` and the quit command. Commands can overlap there; all statements are about the
  running phase.
- Threads, locks and condition variables: each step of `Protocol` is atomic, as the locks make it. Time-outs of the two
  waits are left out; waiting for a command ends only when there is one, collecting events may find none.
- `Worker::DispatchMsg` and `DispatchAndWaitMsg` are three steps of `Protocol` (queue the report, notify, read the
  reply) and not one method, because other threads act between them.
- The clock: the current tick is a parameter of `UpdateTime`.
- The wheel's slots are sequences; `RingList` is proved separately against sequences. Deleting nodes through the list
  is memory management and left out.
- Actor and worker contexts are values in their managers' maps, reached by name, so sharing of one context object
  between the queue, a worker and the map is by name and not by reference. A name without an entry is an expired
  pointer.
- Connections (`EventConn`, `EventConnManager`): addresses of kind "event" are routed nowhere.
- What an actor does with a message is any list of messages it sends; request and response callbacks are not modelled.
- In `Protocol` the deliveries of a report are any list, so its guarantees hold for every routing; `ProtocolMail` takes
  them from the routing table and the subscription table, for any messages. What subscriptions sent from an actor's
  `Init` do to the subscription table is not part of `StartUp`.
- `Protocol` knows workers by name and has one worker to a name.
- Adding actors or workers while the main loop runs, and changing queue sizes at run time.
- Configuration, module loading, logging, and a poller that refuses a worker.
- WorkerContexts.CmdChannelGeneric.RecvFromMain: asks for a command to be there. The original can also be given a time
  limit, and then takes the front of a list that may be empty, which is undefined; nothing in the repository does so.
- MsgManagers.MsgManager.DispatchPubMsg: which subscriber is called first is left open, because the original iterates
  over an unordered set.
- RingList.List.Del: asks for a node of the list, as the original does without checking.
- StartUpRuns.WorkerFlushCompletes: takes it that names of actors begin with "actor" and names of workers with "worker",
  as the components' own naming functions make them.
- StartUp.App.DispatchMsg: gives no deliveries for subscriptions and publications. Those sent from `Init` wait in the
  cache, and the original delivers them to subscribers and the node when the program begins to run; whom such a
  delivery reaches, whatever the history, is Publications.PublicationDelivered.
- StartUp.DispatchGot: speaks of plain messages only, for the same reason.

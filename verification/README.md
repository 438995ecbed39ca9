# renderer-service-upnp: a verified model

renderer-service-upnp puts UPnP media renderers on D-Bus. This project models the parts of it that carry
state over time, and proves what they are for:

- **The task processor** (`TaskModel`, `QueueInvariant`, `ProcessorInvariant`, `ProcessorSteps`, `ProcessorRuns`,
  `ProcessorTheorems`, `ProcessorEffects`, `ProcessorPromises`, `ConstructionChain`, `ChainStages`, `ProcessorWitnesses`, `RequestOutcomes`, `TaskProcessor`). Queues of tasks keyed by source and sink, the idle
  sources they add, the UPnP actions in flight, cancelling, removal, and shutdown. `TaskModel` is the transition system; what
  GLib's main loop and GUPnP hold (idles added and not yet run, actions begun and not yet answered) is part of the
  state, and what they may do next is any of it, in any order. Cancelling a service task completes it from within, and that can remove the
  queue being cancelled; the transition system has that, and the invariant survives it. `TaskProcessor` is the
  same in the form of the code, objects changed in place, and `Handle` proves that it does what the transition system says for every
  event, so that the theorems about runs are theorems about it. A log in every queue records the callbacks made.
- **The registry of renderers and their subscriptions** (`Subscription`, `RegistryModel`, `RegistryTheorems`, `RegistryEffects`, `RegistryWitnesses`, `Upnp`). UDNs that move from "under construction" to
  known, FoundServer and LostServer, the network contexts of a device, which of them is preferred and subscribed to,
  and the timer that moves the subscription. How far the construction chain of a device has got is part of the registry's state, and
  `ChainStages` proves that a chain in the task processor goes through just the stages the registry expects.
- **The host service** (`HostModel`, `HostTheorems`, `HostAddresses`, `HostService`). Files served over HTTP to renderers, per interface, for as
  long as some client wants them, and the addresses handed out.
- **Positions and speeds** (`Text`, `Decimal`, `Duration`, `Speeds`). The H+:MM:SS times of section 2.2.14 of
  UPnP AVTransport:1, and play speeds given as fractions.
- **Player properties** (`PlayerModel`, `PlayerTheorems`, `PlayerEffects`, `PlayerProps`). What events change, and what PropertiesChanged tells clients.

Each imperative part comes twice: as functions on values, about which the theorems are, and as classes whose
methods change their fields, each proved to do to the value it stands for what the function does. What the functions
themselves come to is said without them in `ProcessorEffects`, `ProcessorPromises`, `RegistryEffects`, `HostAddresses` and
`PlayerEffects`: of the state before and after any event of any run, and of the texts that devices send and clients get.

Where the code does not do what one would expect, the exact condition is stated and an input or a run given that meets it:

- A service task that reports failure without having started an action is never completed. Its queue stays, and
  a shutdown then never ends (`ConstructionChain.FailingTaskSticks`, `ConstructionChain.StuckForever`; a run that gets there:
  `ProcessorWitnesses.StuckExists`).
- A device under construction can lose all its contexts while its resubscription timer is pending; the timer then
  finds no context. Either its object could not be registered, or its chain was cancelled and the finally callback has
  not come yet (`RegistryWitnesses.StuckOrphanExists`, `RegistryWitnesses.CancelledOrphanExists`). And if it loses the last one when the queue of its
  chain is gone already, a queue that is gone is cancelled (`RegistryWitnesses.LateExists`). Nothing else is unsafe
  (`RegistryTheorems.OnlyTwoAreUnsafe`).
- A device can be left with nothing subscribed to and no timer pending. `RegistryTheorems.WhatSilences` says exactly by which events: among them the second loss of the only subscription within ten
  seconds (`RegistryWitnesses.DeafByLossExists`), and the loss of the subscribed context when neither AV nor CM events came
  through it (`RegistryWitnesses.DeafByRemovalExists`).
- A file that cannot be hosted leaves a server without files behind (`HostTheorems.WhenServersIdle`, `HostTheorems.IdleServerExists`),
  although doc/API.txt:329-330 says that servers without files are shut down.
- Negative positions of a second and more, and positions of 2^32 seconds and more, do not survive being written and read
  (`Duration.RoundTrip`, `Duration.PositionsLost`).
- Two speeds are compared by a difference cut down to an int, and without regard to the signs of the denominators
  (`Speeds.CompareIsOrder`; inputs: `Speeds.CompareOverflows`, `Speeds.NegativeDenominatorMisleads`). The search for the
  least and the greatest speed starts from the first allowed value even if that is not a valid speed (`Speeds.RangeIsRight`, `Speeds.FirstEntryMatters`).
- A rate set by a client is not signalled (`PlayerTheorems.CopiesAreKnown`, `PlayerTheorems.RateSetIsUnheard`, `PlayerTheorems.WrongCopyExists`).
- Cancelling an idle queue that removes itself takes it out of the table, so that removing the queues of its source or sink would
  remove it twice (`ProcessorSteps.RemovedOnce`); the callers name sources and sinks of other queues only.

## Model

| member | source | states |
|---|---|---|
| ProcessorRuns.MayIsSafe | src/task-processor.c:359-463 | In every state the invariant allows, whatever callback or call can come finds its queue in the table, a task in the list it takes the first from, its task still current, and a counter it can decrement |
| ProcessorRuns.RunKeepsInv | src/task-processor.c:196-463 | The invariant (idle pending exactly when flagged, and only with pending tasks and no current one; callbacks only for current tasks; dead queues empty; log conserved and in order) holds in every state of every run |
| ProcessorRuns.StepKeepsInv | src/task-processor.c:196-463 | Each of the ten events keeps the invariant, including those whose callbacks re-enter the processor |
| ProcessorRuns.StepEffects | src/task-processor.c:239-251 | Only adding a task adds work, each dispatch and completion takes some away, and a quit idle is added only when quitting with nothing running |
| ProcessorInvariant.TaskCompletedCore | src/task-processor.c:430-463 | Completing the current task (delete, count down, then quit, remove, reschedule or rest) keeps the invariant and touches no other queue |
| ProcessorInvariant.CancelQueueCore | src/task-processor.c:196-218 | Cancelling a queue keeps the invariant, also when cancelling its current task completes it and removes the queue |
| ProcessorSteps.DispatchCore | src/task-processor.c:359-380 | The dispatch idle, with whatever the process callback does, keeps the invariant and leaves the new current task waiting for a callback or failed |
| ProcessorSteps.ActionReplyCore | src/service-task.c:77-87 | The end of an action keeps the invariant: a service task completes, a client's task gets its completion idle |
| ProcessorSteps.CompletionCore | src/async.c:36-50 | The completion idle of a client's task keeps the invariant: one completion per task |
| ProcessorSteps.RemoveForCore | src/task-processor.c:266-337 | Removing all queues of a source or a sink, in whatever order the table is walked and whatever kind they are of, keeps the invariant, unless one of them removes itself when cancelled |
| ProcessorSteps.RemovedOnce | src/task-processor.c:209-286 | When a walk removes a queue that is not at work, the cancel before has left it in the table exactly if it is not an auto-remove queue |
| ProcessorSteps.SetQuittingCore | src/task-processor.c:229-251 | Asking to quit keeps the invariant, also when the sweep over all queues ends the last running task |
| ProcessorTheorems.EveryTaskInOnePlace | src/task-processor.c:188-463 | In every state of every run each task ever added is in exactly one place: pending in one queue once, current in one queue, or deleted once |
| ProcessorTheorems.RunningIsExact | src/task-processor.c:374-445 | running_tasks is always the number of queues in the table with a current task |
| ProcessorTheorems.EveryRequestAnsweredOnce | src/task.c:292-372 | A client's request has exactly one reply once it is deleted or was answered while current, none before; Died only in a queue marked for removal; no replies to service tasks |
| ProcessorTheorems.QueuesAreSerial | src/task-processor.c:359-463 | The started tasks are a subsequence of the added ones, in order, a prefix if the queue was never cancelled, and each starts when the one before has ended |
| ProcessorTheorems.CancelledNeverStarts | src/task-processor.c:188-337 | What is pending when its queue is cancelled (alone, by source or sink, in a shutdown, or by the failure of the service task just started, src/service-task.c:96-97) is deleted and never starts later |
| ProcessorTheorems.NothingStalls | src/task-processor.c:382-463 | Outside shutdown a live queue due to run with pending tasks and no current one has its idle pending, and a current task that did not fail has a callback pending |
| ProcessorTheorems.IdlesFindWork | src/task-processor.c:205-460 | A dispatch idle is pending, once, exactly when the queue's flag says so, and then the queue is in the table with a task pending and none current; a queue that has left the table has neither tasks nor an idle |
| ProcessorTheorems.WorkRunsOut | src/task-processor.c:359-463 | Without new tasks, dispatches and completions between two states number at most what twice the pending plus the current tasks has fallen by: every queue drains |
| ProcessorTheorems.ShutdownIsNotLost | src/task-processor.c:239-251 | While quitting, something is running or the quit idle has been added |
| ProcessorTheorems.QuitOnlyWhenIdle | src/task-processor.c:445-448 | An event adds at most one quit idle, and only if it leaves the processor quitting with nothing running |
| ProcessorTheorems.NothingUnsafe | src/task-processor.c:359-463 | In every state of every run whatever can come next is safe to handle |
| ProcessorEffects.CancelEndsActions | src/task-processor.c:188-337 | Whatever event of whatever run cancels a queue (alone, by source, by sink, in a shutdown): its list is empty, every unanswered request is told Cancelled, no UPnP action of it is in flight any more, and a current request stays current with its cancellable fired, its error set exactly if its action was in flight, and its completion idle pending exactly once (src/task.c:330-351, src/async.c:52-70) |
| ProcessorEffects.RemovalIsExact | src/task-processor.c:266-337 | In any run, removing by source (sink) leaves every queue of another source (sink), and every marked one, as it is; an idle one that is named leaves the table and frees its key, and one at work is marked and its list emptied |
| ProcessorEffects.QueuesStay | src/task-processor.c:430-463 | A queue leaves the table only if it is removed by source or sink, marked, or removes itself and is cancelled or at its last task; and outside shutdown a marked one is at work and a started one that removes itself has work |
| ProcessorEffects.FlagIsRight | src/task-processor.c:94-104 | In every run the flag that the finally callback is told says exactly whether the queue was cancelled, by any event that does so, since a task of it last began |
| ProcessorPromises.QuitLasts | src/task-processor.c:239-251 | The processor is quitting exactly if it was asked to, ever, and then a task is current or the quit idle has been added |
| ProcessorPromises.NothingBeforeStart | src/task-processor.c:382-428 | Nothing of a queue without auto-start begins, and no idle is pending for it, before it is started |
| ProcessorPromises.StartedIsDue | src/task-processor.c:382-401 | A queue that is started has its one idle pending or is at work, unless it is marked for removal, and keeps its tasks |
| ProcessorPromises.QueuesAreAsAsked | src/task-processor.c:155-186 | A queue is found under its key when it has been added, and keeps its key and its flags for ever |
| ProcessorPromises.CommandsAreKept | src/task-processor.c:403-428 | A task is put at the end of its queue under the next number, and in any later state in which it waits or is current it is still the request for the command it was made for |
| ConstructionChain.ChainEndsOneWay | src/task-processor.c:94-121 | A chain of service tasks none of which failed, outside shutdown: once its queue is gone all its tasks are deleted, its finally callback is scheduled or made exactly once, and told "not cancelled" exactly if every task ran, in order |
| ConstructionChain.RecordOutlivesItsUse | src/device.c:759-768 | The record the first task uses and the last one frees is not freed while a task of the chain is left, and freed exactly once by the time the queue is gone |
| ConstructionChain.RunKeepsChains | src/service-task.c:89-114 | The chain property behind these two holds in every state of every run |
| ConstructionChain.FailingTaskSticks | src/service-task.c:89-100 | A dispatched service task is left current with no callback to come exactly if it fails and starts no action |
| ConstructionChain.StuckForever | src/service-task.c:96-106 | Such a task stays current whatever happens, so something is always running and no quit idle is ever added again |
| ProcessorWitnesses.StuckExists | src/service-task.c:89-100 | A run that gets there: a queue with one service task, started and dispatched, that fails without an action |
| ChainStages.ChainFollowsRegistry | src/device.c:759-768 | In any run of the processor, the queue of three tasks of which only the last may fail without an action goes, with every event outside shutdown, from a stage (running before or after its subscription task, stuck, gone cancelled, gone uncancelled) only to one the registry allows: it is never stuck, and never gone uncancelled, before the subscription task has ended, and stuck or gone it stays |
| ChainStages.FollowsIsEvent | src/upnp.c:137-160 | Each such step is an event the registry may take, with that stage as its result |
| RequestOutcomes.OutcomeIsReported | src/renderer-service-upnp.c:448-462 | Over any run, when an asynchronous request completes its client has been told that it was cancelled, or is told now Value or Error as the end of its action, or the call that started none, said |
| RequestOutcomes.SynchronousIsAnsweredAtOnce | src/renderer-service-upnp.c:421-446 | A synchronous request is answered, or refused if it is Raise or Quit, in the step that dispatches it |
| TaskProcessor.TaskQueue.CancelPending | src/task-processor.c:188-204 | The loop that cancels and deletes what is pending: the list is empty, all of it deleted in order, every request among it answered Cancelled |
| TaskProcessor.TaskQueue.FreePending | src/task-processor.c:106-121 | The loop that deletes what is pending when the queue is freed: every request among it dies |
| TaskProcessor.TaskQueue.Reply | src/task.c:292-328 | A reply is sent exactly if none was sent before, and then never again |
| TaskProcessor.TaskQueue.DeleteCurrent | src/task.c:353-372 | The current task is deleted; an unanswered request dies |
| TaskProcessor.TaskQueue.TakeFirst | src/task-processor.c:370-373 | The first pending task becomes the current one |
| TaskProcessor.Processor.AddQueue | src/task-processor.c:155-186 | The table gets a new, empty queue under the key |
| TaskProcessor.Processor.AddTask | src/task-processor.c:403-428 | The task goes to the end of its list, and an auto-start queue that is neither at work, due nor to be removed gets its idle |
| TaskProcessor.Processor.StartQueue | src/task-processor.c:382-401 | The queue gets its idle unless it is at work, has one, or is to be removed |
| TaskProcessor.Processor.RemoveQueue | src/task-processor.c:106-121 | The queue leaves the table, what is pending is deleted, the finally idle added |
| TaskProcessor.Processor.TaskCompleted | src/task-processor.c:430-463 | The new state is that of the transition system: exactly one of quit idle, removal, new dispatch idle or rest, in that order of preference |
| TaskProcessor.Processor.CancelQueue | src/task-processor.c:196-218 | The new state is that of the transition system, with the current task's cancel callback called back into the processor |
| TaskProcessor.Processor.CancelServiceTask | src/service-task.c:102-114 | An action in flight is cancelled and the task completed there and then; otherwise nothing happens |
| TaskProcessor.Processor.CancelClientTask | src/task.c:330-351 | The request stays current, answered, its cancellable is fired if it had one, and its action cancelled through it if it is connected |
| TaskProcessor.Processor.ActionCancelled | src/async.c:52-64 | The task's action is in flight no more, a completion idle is pending for it instead, its cancellable has fired and its error is set |
| TaskProcessor.Processor.ProcessTask | src/task-processor.c:359-380 | The new state is that of the transition system for whatever the process callback does |
| TaskProcessor.Processor.ProcessServiceTask | src/service-task.c:89-100 | Failure cancels the queue, no action completes the task, an action leaves it in flight |
| TaskProcessor.Processor.ProcessSyncTask | src/renderer-service-upnp.c:421-446 | The request is answered or refused and completed |
| TaskProcessor.Processor.ProcessAsyncTask | src/renderer-service-upnp.c:464-538 | The task gets its cancellable, and either an action in flight with the handler connected or its completion idle |
| TaskProcessor.Processor.ServiceActionEnds | src/service-task.c:77-87 | p_action is cleared and the task completed |
| TaskProcessor.Processor.ClientActionEnds | src/device.c:1865-1883 | The error is noted, the completion idle added, the cancel handler disconnected |
| TaskProcessor.Processor.CompletionIdle | src/renderer-service-upnp.c:448-462 | The request gets its value or its error unless it was answered, and is completed |
| TaskProcessor.Processor.FinallyIdle | src/task-processor.c:94-104 | The finally callback is told the cancelled flag |
| TaskProcessor.Processor.RemoveOne | src/task-processor.c:266-325 | A selected queue is cancelled and removed, or cancelled and marked if it is at work; one that is marked is left alone |
| TaskProcessor.Processor.RemoveQueuesFor | src/task-processor.c:290-337 | The new state is that of the transition system after the walk |
| TaskProcessor.Processor.SetQuitting | src/task-processor.c:239-251 | The flag is set, and all queues are cancelled if anything runs, else the quit idle added |
| TaskProcessor.Processor.CancelAllQueues | src/task-processor.c:220-237 | Every queue of the table is cancelled, whatever its callbacks remove |
| TaskProcessor.Processor.Handle | src/task-processor.c:155-463 | Every event that can come to a processor in a state the invariant allows is handled by the methods above with their preconditions met, and leaves it in the state the transition system says, with the invariant |
| Subscription.OneSubscription | src/device.c:294-341 | At most one context of a device is subscribed to: the preferred one |
| Subscription.SwitchedKeeps | src/device.c:324-341 | Moving the subscription leaves the preferred context, and no other, subscribed to; and then something is subscribed to or the timer pending exactly if the timer is or the preferred context has a service |
| Subscription.AppendedKeeps | src/device.c:343-350 | Adding a context keeps that, also when the new context becomes the preferred one, with the same condition on the context preferred then |
| Subscription.RemovedKeeps | src/upnp.c:245-270 | Removing a context keeps that, and something stays subscribed to or the timer pending exactly if the timer was, or nothing of the context was subscribed to while something else was, or AV or CM events came through it and others remain |
| Subscription.LostKeeps | src/device.c:399-487 | A lost subscription keeps that, and leaves something subscribed to or the timer pending exactly unless it is the second loss of the only subscription and the timer is not pending |
| Subscription.SecondLossEndsIt | src/device.c:399-487 | Over any row of losses and ten-second ends, a subscription survives exactly if it is never lost twice without ten seconds passing in between |
| RegistryModel.StepKeepsInv | src/upnp.c:68-276 | Every event keeps the registry invariant: numbers of their own, contexts distinct, signals in step with the known devices |
| RegistryModel.RunKeepsInv | src/upnp.c:68-276 | It holds in every state of every run |
| RegistryTheorems.OnePlacePerUdn | src/upnp.c:118-180 | A UDN is known or under construction, not both; a known device has a context, and contexts have different addresses |
| RegistryTheorems.PathsDiffer | src/device.c:738 | Devices that are there together have different object paths, unless the 32-bit counter has gone all the way round between them |
| RegistryTheorems.FoundThenLost | src/upnp.c:80-261 | FoundServer and LostServer are sent at most once each for a device, in that order; and for a path, until the counter wraps |
| RegistryTheorems.ClientsAreUpToDate | src/upnp.c:342-362 | A client that follows the two signals knows exactly the paths GetServers would return |
| RegistryTheorems.SubscribedIsPreferred | src/device.c:294-341 | In every run any subscribed context is the preferred one |
| RegistryTheorems.TimerRunsItsCourse | src/upnp.c:186-270 | Losing a context that AV or CM events came through while others remain starts the timer; it stays pending until it fires, and then every service of the preferred context is subscribed to |
| RegistryTheorems.WhatSilences | src/upnp.c:186-270 | After any event that leaves a device in place, something of it is subscribed to or its timer pending exactly if that was so before and the event is not one of five (the only subscription lost again, the subscribed context lost without AV or CM events, the last context lost, or the timer or a new interface leading to a preferred context without services), or the event is one that subscribes anew |
| RegistryTheorems.ServedStaysListening | src/upnp.c:186-270 | So over any stretch of a run without those events a device that listens goes on listening |
| RegistryTheorems.JoiningListens | src/device.c:667-684 | After the subscription task of the construction chain the device listens exactly if its timer is pending or its preferred context has a service |
| RegistryEffects.FinallyDecides | src/upnp.c:68-95 | In any run the finally callback takes the device out of those under construction; if its chain was not cancelled it is known, as it was, and found, and else there is no signal; nothing else changes |
| RegistryEffects.DevicesComeAndGo | src/upnp.c:97-276 | A device comes only by appearing on an interface, then with that one context, the next number and a chain at its start; it goes exactly when its last interface does while it is known, or at the end of a cancelled chain |
| RegistryEffects.WhoSignals | src/upnp.c:68-276 | Signals are sent by exactly two events, the end of an uncancelled chain and the loss of the last interface of a known device, one each, with that device's number |
| RegistryEffects.OthersStay | src/upnp.c:97-276 | An event leaves every device but the one it names where and as it is |
| RegistryEffects.ChainsFollow | src/upnp.c:245-264 | The stage of a chain after any event; losing the last interface cancels a chain that runs and nothing else |
| RegistryEffects.InterfacesFollow | src/upnp.c:160-262 | The addresses of a device are those it appeared on and has not left, in the order of appearing |
| RegistryEffects.FlagsFollow | src/device.c:103-546 | In any run, exactly which service on which interface is subscribed to after any event: a subscription that moves goes to every service of the preferred context and is taken away elsewhere, a second loss takes away that one flag, the timer sets all of the preferred context |
| RegistryEffects.WindowsFollow | src/device.c:399-487 | And exactly which ten-second windows are open |
| RegistryEffects.TimerIsExact | src/upnp.c:186-270 | The timer is pending exactly if it was and has not fired, or a context with AV or CM events has just gone and others are left |
| RegistryEffects.PreferredIs | src/device.c:794-813 | The preferred context is the first with a loopback address, or the first, and which addresses these are |
| RegistryEffects.PathText | src/device.c:738 | Until the counter wraps the path is the server path with the number in decimal |
| RegistryTheorems.OnlyTwoAreUnsafe | src/upnp.c:186-264 | In every state of every run whatever comes finds the context and the queue the code takes for granted, except, and always except, the timer of a device under construction without contexts, and the loss of the last context when the chain's queue is gone and its finally callback still to come |
| RegistryWitnesses.StuckOrphanExists | src/upnp.c:186-264 | A run to the first of these with a device whose object could not be registered |
| RegistryWitnesses.CancelledOrphanExists | src/upnp.c:186-264 | A run to it with a device whose chain was cancelled, before the finally callback |
| RegistryWitnesses.LateExists | src/upnp.c:255-264 | A run to the second |
| RegistryWitnesses.DeafByLossExists | src/device.c:436-452 | A run to a known device that the next loss of a subscription leaves with none and no timer |
| RegistryWitnesses.DeafByRemovalExists | src/upnp.c:245-270 | A run to a known device that the loss of one of its two contexts leaves so |
| Upnp.DeviceObject.GetContext | src/device.c:794-813 | Returns the first loopback context, or the first when there is none |
| Upnp.DeviceObject.GetSubscribedContext | src/device.c:294-312 | Returns the first context with a subscription |
| Upnp.DeviceObject.SubscribeToServiceChanges | src/device.c:489-546 | Every service of the preferred context becomes subscribed to |
| Upnp.DeviceObject.UnsubscribeContext | src/device.c:103-152 | The context loses its subscriptions and their timers |
| Upnp.DeviceObject.SubscribeContext | src/device.c:324-341 | The subscription moves to the preferred context unless it is there |
| Upnp.DeviceObject.AppendNewContext | src/device.c:343-350 | The context is added at the end and the subscription moved if need be |
| Upnp.DeviceObject.RemoveContext | src/upnp.c:245-270 | The context goes, and the timer is started if need be |
| Upnp.DeviceObject.TimerFires | src/upnp.c:186-194 | The timer is cleared and the preferred context subscribed to |
| Upnp.DeviceObject.SubscriptionLost | src/device.c:399-487 | The two-stage reaction to a lost subscription |
| Upnp.UpnpObject.ServerAvailable | src/upnp.c:97-184 | A new UDN is put under construction; one that is there gets the context unless it has it |
| Upnp.UpnpObject.ServerUnavailable | src/upnp.c:196-276 | The context goes; with the last one a known device is lost and signalled, and the chain of one under construction cancelled, which removes its queue unless it is stuck |
| Upnp.UpnpObject.ChainEnd | src/upnp.c:68-95 | The finally callback: the device leaves the map of those under construction, and enters that of the known ones, signalled, exactly if its chain was not cancelled |
| Upnp.UpnpObject.ChainSubscribes | src/device.c:667-684 | The chain's subscription task moves the subscription to the preferred context |
| Upnp.UpnpObject.DeviceChanges | src/device.c:390-487 | Timer and lost subscriptions change one device of the registry and no other |
| HostModel.RunKeepsInv | src/host-service.c:396-554 | In every run client lists are without duplicates and never empty, and files on a server have different numbers and the paths made from them |
| HostTheorems.AddingInserts | src/host-service.c:396-458 | Hosting succeeds exactly if there is or can be a server and the file is hosted already or usable; it then adds exactly the triple (interface, client, file), else none |
| HostTheorems.RemovingDeletes | src/host-service.c:486-518 | Removing takes away exactly the triple asked for |
| HostTheorems.LosingDeletesAll | src/host-service.c:520-554 | Losing a client takes away exactly its triples |
| HostTheorems.WhenServersIdle | src/host-service.c:443-453 | When a server is left without files: only by a failed add, never after a lost client |
| HostTheorems.IdleServerExists | src/host-service.c:443-453 | A run that leaves one: the first file to be hosted on an interface is not usable |
| HostTheorems.SamePath | src/host-service.c:211-213 | Two paths are equal exactly if the numbers agree as an int and the extensions agree |
| HostTheorems.PathsDiffer | src/host-service.c:211-213 | Files of one server have different paths until its counter wraps at 2^32 |
| HostTheorems.AddressesResolve | src/host-service.c:239-259 | In every run the address returned for a file leads back to it, in whatever order the table is walked |
| HostAddresses.AddressLeadsToFile | src/host-service.c:417-426 | In every run the address of a hosted file, taken apart by a reader of addresses, names the interface, the port of its server, and a path under the served directory on which the server finds the file |
| HostAddresses.ServersCome | src/host-service.c:434-458 | A server comes only by a file to be hosted, with the port it was given, keeps it, and counts every file not hosted yet, usable or not |
| HostAddresses.FirstAddress | src/host-service.c:396-432 | The address of the first file of a server, as text |
| HostTheorems.AddressStays | src/host-service.c:396-432 | While a file stays hosted its address stays the same |
| HostTheorems.NoAddressIsReused | src/host-service.c:396-432 | While a server runs, a path once handed out never comes to mean another file |
| HostService.FindClient | src/host-service.c:469-471 | Finds the client's place in the list, or that it is not there |
| HostService.Service.Add | src/host-service.c:434-458 | The new tables are those of the model, and the address returned is that of the file, or none; read by a reader of addresses it names the interface, the server's port and the file's path |
| HostService.Service.AddNewFile | src/host-service.c:396-432 | A new file takes the next number, used or not; a client is added once; the address returned names interface, port and path |
| HostService.Service.RemoveClient | src/host-service.c:460-484 | The client leaves the list if it was in it |
| HostService.Service.Remove | src/host-service.c:486-518 | Succeeds exactly if the triple was there; empty files and servers go |
| HostService.Service.LeaveServer | src/host-service.c:534-548 | The client leaves every file of the server, and files without clients go |
| HostService.Service.LostClient | src/host-service.c:520-554 | The same for every server, and servers without files go |
| HostService.Find | src/host-service.c:239-259 | Finds a file with the path, or that there is none |
| Decimal.DigitsPrefix | src/host-service.c:211-213 | A number written in decimal in front of something that does not start with a digit can be read off |
| Duration.DurationToInt64 | src/device.c:1066-1097 | The loop over the parts computes what `Parse` says: 0 unless there are three parts, else the sum of the products taken as unsigned ints, in microseconds |
| Duration.Int64ToDuration | src/device.c:1099-1120 | Writes what `Print` says, for every 64-bit value but the least |
| Duration.RoundTrip | src/device.c:1066-1120 | Reading what was written gives the position without its fraction of a second exactly if it lies above -1 second and below 2^32 seconds |
| Duration.PositionsLost | src/device.c:1066-1120 | One second before the start comes back as one second after it, and 2^32 seconds as none |
| Duration.RoundTripModulo | src/device.c:1113 | From there on the seconds come back modulo 2^32 |
| Duration.TimesAreRead | src/device.c:1066-1097 | Three numbers of however many digits, with a fraction or other text after the last, are read as hours, minutes and seconds, each modulo 2^32 seconds |
| Duration.ShortTimesAreRead | src/device.c:1066-1097 | So times below 2^32 seconds are read as they are |
| Duration.OthersAreZero | src/device.c:1072-1080 | Text with any other number of fields is read as 0 |
| Duration.NegativesAreRead | src/device.c:1066-1120 | What negative positions are written as, and read back as |
| Duration.PrintParse | src/device.c:1066-1120 | Writing what was read of an H+:MM:SS text in range gives the text back |
| Duration.CanonicalIsPrinted | src/device.c:1114-1117 | The texts written for positions from zero on are exactly those |
| Speeds.CompareIsOrder | src/device.c:1574-1582 | For any two speeds with denominators other than 0, comparing tells which number is greater exactly if cutting the difference down to an int keeps its sign, or turns it round when just one denominator is negative |
| Speeds.CompareOverflows | src/device.c:1581 | Where it does not, the comparison is wrong: 3000000000 is taken to be less than 1 |
| Speeds.NegativeDenominatorMisleads | src/device.c:1574-1582 | And so it is with a negative denominator: 1 is taken to be less than 1/-2 |
| Speeds.GetRatesValues | src/device.c:1584-1635 | The loop publishes the valid speeds in order, stores their texts in the same order, and finds what one pass from the first entry finds |
| Speeds.RangeIsRight | src/device.c:1603-1626 | What is found is the least (greatest) valid speed exactly if the first entry is valid or some valid speed compares below (above) it |
| Speeds.FirstEntryMatters | src/device.c:1603-1604 | With 0 as the first entry the least speed is missed |
| Speeds.RoundedMonotone | src/device.c:1559-1560 | Rounding to a hundredth keeps the order |
| Speeds.RoundedIsNearest | src/device.c:1559-1560 | What is rounded is the nearest whole number of hundredths, halves going away from zero |
| Speeds.UsableInOrder | src/device.c:1606-1626 | The valid values of a list are kept in order and as often as they occur |
| Speeds.PublishedInRange | src/device.c:1611-1631 | Every published speed lies between the least and the greatest found, after rounding, whenever those are right |
| Speeds.FindSpeed | src/device.c:1930-1943 | The loop finds the first published speed within 0.01 |
| Speeds.ChosenIsClose | src/device.c:1905-1958 | The UPnP speed at its index is within 0.015 of what was asked for |
| PlayerTheorems.SignalsCarryChanges | src/device.c:169-211 | The signals of any event but a client's setting of the rate turn a copy of the old properties into the new ones |
| PlayerTheorems.CopiesAreKnown | src/device.c:1269-1498 | Over any run, and from whatever state on a client listens, its copy is the properties with the rate last signalled in place of Rate; so it is right exactly while Rate is what was last signalled |
| PlayerTheorems.CopiesAreRight | src/device.c:1269-1498 | In particular it is right unless a client has set the rate and no event with the speed has come since |
| PlayerTheorems.RateSetIsUnheard | src/device.c:1960-1988 | Setting the rate leaves a right copy right exactly if it is refused or sets what was there |
| PlayerTheorems.WrongCopyExists | src/device.c:1960-1988 | A run after which a copy is wrong |
| PlayerTheorems.MergeSetsOneKey | src/device.c:213-253 | Merging into the metadata sets one key and leaves every other as it was |
| PlayerTheorems.EventsTouchTheirOwn | src/device.c:1269-1391 | A transport event leaves alone every property it says nothing about |
| PlayerEffects.TransportReads | src/device.c:1269-1391 | After a transport event Rate, PlaybackStatus, NumberOfTracks and CurrentTrack are those of the event, the speed is stored, and one signal is sent |
| PlayerEffects.SpeedsAreRead | src/device.c:926-956 | A whole number or a fraction is shown as its value, the one allowed speeds are compared by, and a fraction over zero as one |
| PlayerEffects.OtherSpeeds | src/device.c:926-956 | No text, or text with more than one slash, is shown as one |
| PlayerEffects.ActionsRead | src/device.c:958-1036 | Each of the five actions can be taken exactly if it is among the pieces between commas, spaces aside |
| PlayerEffects.MetadataReads | src/device.c:1218-1347 | What a reader of the metadata finds under any key after a transport event, with metadata in it, unreadable ones, or none |
| PlayerEffects.PositionReads | src/device.c:1457-1498 | After a position of h:mm:ss, with or without a fraction, Position is that many seconds in microseconds, and nothing else changes |
| PlayerEffects.VolumeReads | src/device.c:1393-1441 | Volume is the fraction of the greatest volume, if that is known |
| PlayerEffects.SyncReads | src/device.c:1764-1849 | Synchronising offers every action, takes over the greatest volume and the valid speeds, and is done once |
| PlayerTheorems.RunAligned | src/device.c:1764-1849 | In every run the published speeds and the stored UPnP speeds are the same list in the same order |
| PlayerTheorems.RateIsHonoured | src/device.c:1905-1988 | Setting the rate is accepted exactly if a published speed is within 0.01; the rate shown is such a speed and the UPnP speed chosen within 0.015; else nothing changes |
| PlayerTheorems.BoundsArePublished | src/device.c:1815-1838 | In every state of every run after synchronising, whatever events have come since, MinimumRate and MaximumRate are themselves in TransportPlaySpeeds and bound every entry of it, when the search is right and they do not round to zero |
| PlayerProps.PlayerObject.ChangeProps | src/device.c:169-177 | The property is set and collected for the signal |
| PlayerProps.PlayerObject.MergeMetaData | src/device.c:213-253 | The loop over the current metadata does what the model's merge says |
| PlayerProps.PlayerObject.AddTrackMetaData | src/device.c:1218-1267 | New metadata replace the old, unless they cannot be parsed |
| PlayerProps.ReadActions | src/device.c:980-996 | The loop over the actions finds which of the five are offered |
| PlayerProps.PlayerObject.LastChange | src/device.c:1269-1391 | The properties and the one signal are those of the model |
| PlayerProps.PlayerObject.PropsUpdate | src/device.c:1764-1849 | Speeds, bounds, volume scale and actions are set, and one signal sent |
| PlayerProps.PlayerObject.RcLastChange | src/device.c:1393-1441 | The volume is set and signalled after synchronising if need be; nothing if there is no volume scale |
| PlayerProps.PlayerObject.PositionInfo | src/device.c:1457-1498 | The position read is set and signalled |
| PlayerProps.PlayerObject.SetRate | src/device.c:1960-1988 | The rate is set without a signal, or refused |

## Left out

- TaskProcessor.Processor.AddQueue: requires a key that is not in the table, as its callers see to (they look it up first or make a new source); g_hash_table_insert would free the queue there and the very key that rsu_task_processor_add_queue returns.
- ProcessorSteps.RemoveForCore: excludes idle auto-remove queues, exactly those that a walk would remove a second time (`ProcessorSteps.RemovedOnce`).
- TaskProcessor.Processor.RemoveQueuesFor: the same; that prv_free_queue_for_source reads a flag of a queue its own cancel may have freed is not modelled.
- In runs, removing by source or sink names queues of client requests only, as the callers do: a client's name and a renderer's path are never the source or sink of a service queue.
- D-Bus, GUPnP, libsoup and GLib: their callbacks are events that may come in any order; a cancelled UPnP action is taken never to call back; hash tables are maps, and the order in which one is walked is a parameter.
- The walks of g_hash_table_foreach and g_hash_table_foreach_remove visit the queues that were in the table when the walk began, whatever the callbacks remove.
- rsu_task_queue_start on a queue without tasks: its only caller adds three first.
- The wrap of running_tasks when counting up beyond 2^32; counting down from zero is modelled and shown never to happen.
- rsu_task_queue_set_finally and rsu_task_queue_set_user_data are part of adding a queue.
- Tasks are values in their queue's list; the pointer from a task to its queue is the task's number and the queue it was added to.
- What happens inside the callbacks of a pending task that is cancelled: nothing but the reply, since it has neither an action nor a cancellable yet.
- Which proxy a subscription-lost callback hangs on (the one for RenderingControl is connected to the AVTransport proxy, src/device.c:541-544): such a callback may come for any context and service at any time.
- A device without a UDN, which the registry ignores.
- Whether a service task fails, and what GetProtocolInfo returns: parameters.
- Process teardown (rsu_task_processor_free and the end of main), which drops tasks at exit.
- HTTP serving, mapped files, MIME types and DLNA headers of hosted files: whether a file is usable is a parameter.
- Floating point: speeds and volumes are exact reals, and rounding is to exact hundredths.
- strtol on text that does not fit a long is cut off at its limits, as C has it; characters are those of a C locale.
- DIDL-Lite and LastChange parsing: events come as the fields found in them.
- Root and device properties, protocol information, and the per-command wrappers around UPnP actions.
- Settings, logging, signal handling, introspection data and the main loop.

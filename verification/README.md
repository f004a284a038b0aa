# event-manager, modelled and proved in Dafny

event-manager is an epoll event loop for virtual machine monitors. Subscribers register file
descriptors with it; the loop polls the kernel and calls `process` on the subscriber that owns
each ready descriptor; and other threads, holding a remote endpoint, have closures executed on
the loop's thread. This project models the crate with its `remote_endpoint` feature on.

What makes it delicate:

- A callback may add, modify and remove registrations while the loop is walking the buffer of
  ready events, and the loop copes by overwriting entries of that buffer in place.
- Four structures have to agree: the kernel's interest set, `fd_dispatch`, the watch lists and
  the table of subscribers. Two `unreachable!`s and an `unwrap` rely on it.
- Senders push a message and then bump an eventfd, while the manager reads the eventfd and
  then drains the queue, with every interleaving in between.

## How the model is laid out

| file | what it holds |
|---|---|
| `EventData.dfy` | events and the 64-bit packing of descriptor and datum |
| `Index.dfy` | kernel, maps and buffer as a value; the operations; what each preserves |
| `Dispatch.dfy` | callbacks as finite programs; the dispatch loop as a function; what a batch amounts to |
| `Generations.dfy` | a simpler machine, with generations and no buffer, that the loop refines |
| `Closures.dfy` | `SubscriberOps`, and closures over it |
| `Protocol.dfy` | manager and threads as one transition system, every operation a step of its own |
| `ProtocolSteps.dfy` | what each call of a remote endpoint gets, and runs of the loop and of calls from end to end |
| `ProtocolSafety.dfy` | panic freedom, routing, payloads, ids and index agreement in every run |
| `ProtocolWakeup.dfy` | no lost wake-up, termination of the drain, calls from the loop's own thread |
| `ProtocolHistory.dfy` | sequential equivalence, answers, quiescence |
| `ProtocolLiveness.dfy` | every message is handled and every call answered in fair endless runs |
| `Epoll.dfy`, `Subscribers.dfy`, `Endpoint.dfy`, `EventManager.dfy` | the crate's objects, changed in place, each method proved against the functions above |
| `CounterClient.dfy`, `CounterSubscriber.dfy` | `CounterSubscriberWithData`, as a program and as an object |
| `CounterRuns.dfy` | that subscriber in every run of the transition system |

Callbacks and closures are arbitrary: the next operation is any function of the results seen so
far, and a callback that returns makes finitely many operations, so it has some budget; every
budget is covered. State that the user shares between subscribers, or with other threads, is
the type parameter `W`; it can also stand for whatever a callback learns from outside. Sends
from the loop's own thread are steps of thread 0, possible whenever user code runs there.
Other threads may send, open and close descriptors and change shared state between any two
operations of a callback or closure. A callback reads the shared state when it starts and
writes it when it ends; what another thread makes of it is a step of that thread.

What is taken from the environment:

- The kernel's Add succeeds for an open descriptor that is not watched, Modify and Delete for
  one that is watched. Closing a descriptor drops it. `wait` delivers distinct watched
  descriptors with non-empty masks and their registered data, no more than fit the buffer, and
  reports the channel's eventfd, as readable, only while its counter is positive.
- An eventfd write fails exactly when the counter is saturated.
- User code does not modify, remove or close the manager's private channel descriptor. It may
  try to add it; the kernel refuses.
- Arithmetic overflow panics, as it does in a debug build.

## Where documentation and code differ

- `run` and `run_with_timeout` are documented to return the number of dispatched events
  (`src/manager.rs:122`, `src/manager.rs:130`). They return the number of polled events.
  `Dispatch.BatchConservation` gives the exact difference and when there is none;
  `ProtocolSteps.KickWakes` is an instance where nothing is dispatched and 1 is returned,
  and `Dispatch.CountIsDispatchedIffNoChannel` says what can be relied on beforehand.
- `docs/DESIGN.md:42` says that a descriptor is associated with one subscriber. `EventOps::remove`
  does not look at that association (`src/events.rs:258`), so a subscriber can take another's
  descriptor over. `Index.ApplyKeepsExactIff` says exactly when the two maps stay inverses, and
  `Index.UnownedRemovalBreaksFrame` shows a later removal silencing the wrong subscriber.

## A case to know about

After `add` is refused with `FdAlreadyRegistered`, the descriptor does belong to a registered
subscriber, as `src/lib.rs:51` says; but the kernel need not watch it. One that was closed while
registered is refused until its owner is removed, even after the number is in use again.
`Index.AlreadyRegisteredIffNotDropped` gives the exact condition and
`Index.ReopenedDescriptorIsRefused` a run that gets there.

## Model

| member | source | states |
|---|---|---|
| EventData.PackReadsBack | src/events.rs:173-188 | packing overflows exactly for a negative descriptor with positive datum; otherwise descriptor, mask and datum read back, except that datum 0 of a negative descriptor reads back as all ones |
| EventData.PackInjective | src/events.rs:173-178 | two packings that agree are packings of the same descriptor, datum and mask |
| EventData.UnpackRepacks | src/events.rs:180-188 | every event on a non-negative descriptor is the packing of what it reads as |
| EventData.EventsEquality | src/events.rs:23-29 | comparing descriptor, datum and mask is equality of kernel events |
| Index.KernelContract | src/events.rs:222-227 | when Add, Modify and Delete succeed, what they change, and that a refusal changes nothing |
| Index.AddDoes | src/events.rs:229-249 | when `add` succeeds and with which error it fails; on success the descriptor is watched, dispatched to the caller and last in its list, and nothing else is different; on failure nothing is |
| Index.ModifyDoes | src/events.rs:251-254 | `modify` succeeds iff the descriptor is watched, and changes only what it is watched for |
| Index.RemoveDoes | src/events.rs:256-272 | `remove` succeeds iff the descriptor is watched; then it is neither watched, dispatched nor pending, the caller's list has lost its first mention, and nothing else is different |
| Index.ApplyKeepsIndexed | src/events.rs:222-272 | whatever callbacks do, a dispatched descriptor stays in its owner's watch list and everything watched is dispatched or the channel |
| Index.ApplyKeepsExactIff | src/events.rs:257-272 | an operation keeps dispatch map and watch lists exact inverses iff it is not a `remove` of a descriptor that the kernel watches for another subscriber |
| Index.ApplyKeepsWatched | src/events.rs:230-260 | while registered descriptors are not closed, nothing dispatched goes unwatched |
| Index.AlreadyRegisteredIffCollision | src/events.rs:230-236 | `FdAlreadyRegistered` is returned exactly when the kernel's Add of a descriptor other than the channel would have collided |
| Index.AlreadyRegisteredIffNotDropped | src/events.rs:230-260 | in general that is so iff the descriptor is not registered while the kernel has dropped it; one that is can be neither added nor removed |
| Index.ReopenedDescriptorIsRefused | src/events.rs:230-236 | adding, closing and reopening a descriptor leads there: `add` refuses what the kernel would take |
| Index.RemoveAllIs | src/epoll.rs:57-77 | the removal loop drops exactly the listed descriptors from kernel and dispatch map and blanks exactly their pending events |
| Index.RemovalIsComplete | src/epoll.rs:52-77 | after a subscriber is removed no descriptor dispatches to it and none of its descriptors is watched, dispatched or pending |
| Index.RemovalSparesOthersIff | src/epoll.rs:52-65 | another subscriber's registration survives the removal iff the removed watch list does not name it |
| Index.RemovalFrame | src/manager.rs:51-58 | under the ownership discipline all other registrations, watch lists and pending events are unchanged |
| Index.UnownedRemovalBreaksFrame | src/events.rs:257-272 | a concrete takeover after which removing subscriber 1 silences subscriber 2 |
| Dispatch.ApplyKeepsPending | src/epoll.rs:68-77 | one operation of a callback changes the rest of the batch only by blanking what it removes |
| Dispatch.RunKeeps | src/manager.rs:156-161 | a whole callback, however long, does no more than that to the rest of the batch and keeps the index consistent |
| Dispatch.VisitKeeps | src/manager.rs:146-179 | one iteration of the loop treats its entry as the polled batch and the removals since demand |
| Dispatch.DispatchFollowsBatch | src/manager.rs:138-183 | for arbitrary callbacks: polled events in order, once each, to the owner at the poll, except those on descriptors removed since, even if added again; the channel set aside; no fault; the same subscribers throughout |
| Dispatch.BatchConservation | src/manager.rs:131-136 | the count returned is `process` calls plus discarded events plus one for the channel, and equals the `process` calls iff there are none of the latter two |
| Dispatch.CountIsDispatchedIffNoChannel | src/manager.rs:127-136 | if no `process` ever removes, the count is the number of dispatched events iff the channel is not in the batch |
| Dispatch.ChannelAloneIsCounted | src/manager.rs:127-136 | a batch that holds the channel alone counts 1 and dispatches nothing |
| Generations.RunRefines | src/events.rs:230-272 | a callback gets the same results from the buffer-editing index and from the generation table |
| Generations.DispatchRefinesGenerations | src/manager.rs:138-183 | walking the buffer while callbacks edit it makes the same calls with the same results, and ends in the same state, as serving tickets bound to registration generations |
| Generations.EveryBatchIsServed | src/manager.rs:138-183 | so, for every manager state, calls, subscribers, shared state, kernel and owners after a batch are those of the simpler machine |
| Generations.ReAddedIsAnotherRegistration | src/epoll.rs:67-77 | a descriptor removed and added again holds a new generation, so events polled before do not reach it |
| Closures.AnswerKeepsInv | src/manager.rs:40-76 | every call of `SubscriberOps`, with whatever `init` does, keeps index and subscriber table consistent |
| Closures.ClosureKeepsInv | src/manager.rs:213-223 | so does a whole closure, also one that panics half way |
| Closures.ClosureIsAConversation | src/manager.rs:213-223 | running a closure is a sequence of requests, each answered by the manager as the one before left it, ending with the result the replies lead to or in a panic |
| Closures.SubscriberIsAdded | src/manager.rs:40-48 | `add_subscriber` returns the fresh id under which the table now has the subscriber as `init` left it, with the registrations `init` made; no other entry changes |
| Closures.SubscriberIsRemoved | src/manager.rs:50-58 | `remove_subscriber` of a registered id returns the subscriber, takes exactly it out of the table, and leaves nothing of it in the index |
| Closures.SubscriberIsUpdated | src/manager.rs:60-66 | a write through the reference of `subscriber_mut` is in the table, and nothing else changes |
| Closures.RegisteredIsServed | src/manager.rs:68-76 | an operation through `event_ops` of a registered id is carried out for that id and never answered `InvalidId` |
| Closures.NewIdIsUnused | src/subscribers.rs:28-36 | a new id has no subscriber, watch list or dispatched descriptor |
| Closures.UnknownIdIsRefused | src/manager.rs:50-76 | a call with an unregistered id returns `InvalidId` and changes nothing |
| ProtocolSafety.StepIsSound | src/manager.rs:138-226 | every step of manager, threads and environment, also between two operations of a callback, keeps the invariant of the run |
| ProtocolSafety.NoPanic | src/manager.rs:146-204 | in every run the `unreachable!`s, the unwrap and an index out of bounds are never reached; only `next_id` can overflow |
| ProtocolSafety.EntryIsHandledAsPolled | src/manager.rs:142-179 | under any interleaving each entry is skipped, set aside or given to its owner at the poll as the batch and the removals since demand, and the subscriber table is that of the poll |
| ProtocolSafety.BufferKeepsItsLength | src/epoll.rs:32-38 | the ready buffer keeps its length in every run |
| ProtocolSafety.StartIs | src/manager.rs:94-117 | a new manager has a buffer of the capacity asked for, watches the channel alone, and has nothing registered or queued |
| ProtocolSafety.PollAcceptsUpToCapacity | src/epoll.rs:36-48 | in every run a poll can deliver any choice of at most `capacity` watched descriptors, which fill the front of the buffer and leave the rest |
| ProtocolSafety.DrainsIffReported | src/manager.rs:181-204 | in every run, after the last entry of a batch the manager goes on to the drain iff the channel was in the batch |
| ProtocolSafety.PayloadIsLastWrite | src/events.rs:222-254 | the event given to `process` has the descriptor and datum of the last successful `add` or `modify` of that descriptor before the poll |
| ProtocolSafety.SpentIdsStaySpent | src/subscribers.rs:28-46 | a removed id is never registered again in the run and every call with it is refused |
| ProtocolSafety.RemovedIdStaysGone | src/manager.rs:50-58 | after the step that removes a registered subscriber, its id is unregistered and every call with it refused for the rest of the run |
| ProtocolSafety.IssuedIdsAreDistinct | src/subscribers.rs:28-36 | no id is issued twice in a run |
| ProtocolSafety.MapsAreInverses | src/events.rs:238-271 | in runs where no `remove` takes a descriptor that is watched for another subscriber, the maps are exact inverses and watch lists are duplicate-free and disjoint |
| ProtocolSafety.KernelAgrees | src/manager.rs:106-115 | in every run the kernel watches only what is dispatched and the channel, exactly that if no registered descriptor is closed; and `FdAlreadyRegistered` means a collision iff the descriptor was not dropped |
| ProtocolSafety.ClosedDescriptorHeals | src/epoll.rs:57-64 | in every run, `remove` of a descriptor closed while registered fails without effect, and removing its owner clears every trace of it |
| ProtocolSteps.CallBlockingWaits | src/endpoint.rs:119-148 | at any time a thread's `call_blocking` queues its closure with a reply channel of its own and waits on it, unless the counter is saturated, when it returns |
| ProtocolSteps.FireQueues | src/endpoint.rs:161-180 | `fire` queues its closure without a reply channel, writes the eventfd and returns |
| ProtocolSteps.KickWritesOnly | src/endpoint.rs:182-188 | `kick` raises the counter, unless saturated, and does nothing else |
| ProtocolSteps.KickWakes | src/endpoint.rs:182-188 | kicking an idle manager lets a poll report the channel and leads to the drain; the poll counts one event and nothing is dispatched |
| ProtocolSteps.ReplyIsCollected | src/endpoint.rs:143-154 | a thread that waits returns once there is a reply on its channel |
| ProtocolSteps.RunOnce | src/manager.rs:131-183 | from an idle manager any batch that a poll can deliver can be worked off, and if nothing gets in between that is the dispatch loop |
| ProtocolSteps.CallRoundTrip | src/endpoint.rs:119-155 | from an idle manager a `call_blocking` can be completed by its own and the loop's steps alone, and brings back the result of its closure |
| ProtocolWakeup.StepIsWired | src/endpoint.rs:107-113 | every step keeps the wake-up, FIFO and reply-channel invariants |
| ProtocolWakeup.NoLostWakeup | src/endpoint.rs:106-113 | in every interleaving, also with failing eventfd writes, a queued message means a positive counter, a thread between push and write, or a drain under way |
| ProtocolWakeup.PositiveCounterWakes | src/manager.rs:206-213 | a positive counter lets the poll deliver the channel and leads the manager into the drain |
| ProtocolWakeup.RepliesOnlyToCalls | src/manager.rs:214-223 | replies are sent only for `call_blocking`, to a channel of its own, and never for `fire` |
| ProtocolWakeup.SelfCallNeverReturns | src/endpoint.rs:115-155 | once the loop's thread waits on its own channel no continuation by other threads answers it or moves the manager |
| ProtocolWakeup.FireFromLoopReturns | src/endpoint.rs:157-180 | `fire` from the same place completes and leaves its message queued |
| ProtocolWakeup.DrainStepDescends | src/manager.rs:213-225 | each step of the drain exits with everything received, or panics on id overflow, or decreases the measure |
| ProtocolWakeup.DrainEnds | src/manager.rs:213-225 | if all threads and closures push finitely many messages the `try_recv` loop ends, with the queue empty and everything pushed received, unless a closure panics or calls its own loop |
| ProtocolHistory.StepFinishes | src/manager.rs:206-226 | a step inside a callback or closure does not change how it ends, whatever other threads send in between |
| ProtocolHistory.InterruptionIsSequential | src/manager.rs:206-226 | an outside effect that hits a callback or closure is, in the sequential run, an effect at the same point of the same item |
| ProtocolHistory.ConcurrentRunIsSequential | src/manager.rs:138-226 | every interleaving is equivalent to a sequential run in which closures execute once each, in push order, with nothing in between but outside effects, and where one is executed no entry of a polled batch is outstanding |
| ProtocolHistory.QuietRunIsWhole | src/manager.rs:214-223 | if no outside effect falls inside a callback or closure, each item of that run is a whole iteration or closure, with the result of the whole |
| ProtocolHistory.CallGetsItsOwnAnswer | src/endpoint.rs:119-155 | the reply a blocked call receives is the result of its own closure at its place in the sequential run |
| ProtocolHistory.QuiescentMeansAllDone | src/endpoint.rs:107-188 | outside the drain, with counter zero and nobody mid-send, every message ever pushed is executed and every call answered |
| ProtocolLiveness.AimedGetsThere | src/manager.rs:142-213 | from a poll that reported the channel, whatever else it reported and whatever callbacks do, the manager gets to the drain |
| ProtocolLiveness.DrainHandles | src/manager.rs:213-225 | a drain gets to every queued message, even if closures push without end |
| ProtocolLiveness.EveryMessageIsHandled | src/endpoint.rs:107-188 | in every endless run where callbacks and closures return, the owner keeps polling or is left blocked in a poll, senders finish and the kernel does not pass over a positive counter for ever, each pushed message is executed, and answered with its own result if it asked, unless the manager panics or waits on itself |
| ProtocolLiveness.EveryBlockingCallReturns | src/endpoint.rs:119-155 | in such runs, from the act of calling `call_blocking`: if its write finds the counter below saturation the thread comes to wait, and in the end there is a reply for it, the result of the closure it called with |
| ProtocolLiveness.EveryCallIsAnswered | src/endpoint.rs:119-155 | under the same conditions each `call_blocking` whose write succeeded gets its reply |
| ProtocolLiveness.EveryRestingRunGoesOn | src/manager.rs:131-226 | these conditions can be met: every finite run that comes to rest, whatever happened in it, is the beginning of such an endless run |
| Epoll.EpollWrapper.Poll | src/epoll.rs:36-48 | the kernel's events overwrite a prefix of the buffer; the rest stays stale |
| Epoll.EpollWrapper.RemoveEvent | src/epoll.rs:67-77 | the in-place loop blanks exactly the entries of one descriptor |
| Epoll.EpollWrapper.Remove | src/epoll.rs:50-65 | the loop over the removed watch list has the effect that the removal lemmas describe |
| Epoll.Position | src/events.rs:267 | the first occurrence in the watch list, or none |
| Epoll.EventOps.Add | src/events.rs:229-249 | on success kernel, dispatch map and watch list all gain the descriptor; on failure nothing changes |
| Epoll.EventOps.Remove | src/events.rs:256-272 | on success the descriptor leaves kernel, dispatch map, buffer and the caller's watch list only |
| SubscriberTable.Subscribers.Add | src/subscribers.rs:28-36 | the id issued, and no insertion when the counter overflows |
| Endpoint.EventManagerChannel.Send | src/endpoint.rs:106-113 | the message is queued even when the notification fails |
| Endpoint.EventManagerChannel.CallBlocking | src/endpoint.rs:119-141 | a fresh reply channel travels with the message; an error is returned if the notification fails |
| EventLoop.EventManager.constructor | src/manager.rs:94-117 | a new manager has a default buffer of the capacity asked for, watches its channel and nothing else, and satisfies the invariant |
| EventLoop.EventManager.AddSubscriber | src/manager.rs:40-48 | the id issued is that of the new entry in the table; no other entry changes; whatever `init` registered is as the closure semantics say |
| EventLoop.EventManager.RemoveSubscriber | src/manager.rs:50-58 | the subscriber, now out of the table, with every trace of its registrations, or `InvalidId` |
| EventLoop.EventManager.SubscriberMut | src/manager.rs:60-66 | the subscriber, and what is written through the reference, or `InvalidId` |
| EventLoop.EventManager.DispatchEvents | src/manager.rs:138-183 | the loop over the buffer its callbacks edit makes the visits that the batch theorems describe; its `unreachable!` and unwrap are proved dead |
| EventLoop.EventManager.HandleEndpointCalls | src/manager.rs:206-226 | the drain handles what was queued and what arrives meanwhile, in order, replies to those that asked, and stops with the queue empty |
| EventLoop.EventManager.DispatchEndpointEvent | src/manager.rs:195-204 | the drain happens exactly when an event was set aside; what it handles is the old queue and the arrivals in order, the rest stays queued if a closure panics; the `unreachable!` is proved dead |
| EventLoop.EventManager.RunWithTimeout | src/manager.rs:131-136 | one run handles the batch as polled and then, if the channel was ready, every queued message and what arrives meanwhile, in order, with the replies; it resets the counter, is a stretch of the sequential history and leaves the invariant that the next run needs; the count is that of polled events |
| EventLoop.ReplayRun | src/manager.rs:131-136 | a run of the loop is one poll, its entries in order and then the closures handled, as the items of the sequential history |
| EventLoop.EndpointIsChannelEvent | src/manager.rs:163-173 | an event is left for the endpoint exactly when the channel was in the batch |
| CounterClient.InitRegisters | src/utilities/subscribers.rs:253-272 | `init` on three open, unused descriptors succeeds and registers exactly those |
| CounterClient.ToggleReRegisters | src/utilities/subscribers.rs:181-222 | with the flag set, removing and re-adding all three in mid-batch succeeds, and then the event is counted |
| CounterClient.FirstBatchCountsOnce | src/utilities/subscribers.rs:181-240 | with the flag set, of its IN events in a batch, in any order and among any others, exactly one is counted, the first, and all three are registered again; other subscribers are of any kind and do anything but touch its descriptors |
| CounterClient.SetToggleCountsOnce | tests/regressions.rs:13-27 | setting the flag through `subscriber_mut` makes the next batch count once |
| CounterClient.HangUpCleansUp | src/utilities/subscribers.rs:244-248 | a hang-up takes the descriptor out of the index and panics |
| CounterClient.FailedRemovalPanics | src/utilities/subscribers.rs:181-190 | if the first removal fails, `process` panics with nothing changed and nothing counted |
| CounterClient.LaterBatchCountsAll | src/utilities/subscribers.rs:223-251 | afterwards each counter rises by exactly the events polled on its descriptor, whatever else is in the batch, without underflow |
| CounterClient.LaterBatchesCountExactly | src/utilities/subscribers.rs:223-251 | even if others do remove, modify or close its descriptors in mid-batch, each counter rises by exactly the events of its descriptor that were dispatched |
| CounterClient.GentleClosureKeepsStanding | src/manager.rs:40-76 | a closure whose requests do not name the subscriber, nor touch its descriptors by an operation, an `init` or the removal of a subscriber whose list names them, leaves it and its registrations as they are |
| CounterClient.ManyBatchesCountExactly | src/utilities/subscribers.rs:223-251 | over any number of batches, with any such closures in between, no event is lost or counted twice, and it is still registered |
| CounterClient.ReusedDescriptorsCountOnce | tests/regressions.rs:13-27 | from a new manager, the scenario of descriptor reuse counts one event, whether or not the channel is ready too |
| CounterRuns.CountersAreExact | src/utilities/subscribers.rs:223-251 | in every interleaving of manager, threads, closures, other subscribers and outside effects that do not touch its descriptors, each counter has risen by exactly the events polled on its descriptor, but for those of the batch under way that are still to come |
| CounterSubscriber.CounterSubscriberWithData.Process | src/utilities/subscribers.rs:181-251 | the object's fields and the index end as the program of CounterClient says, including where an `expect` fails |
| CounterSubscriber.CounterSubscriberWithData.Init | src/utilities/subscribers.rs:253-272 | likewise for `init` |

## Left out

- System calls, errno values, timeouts and EINTR, beyond the kernel behaviour listed above; an interrupted poll is an empty batch.
- Failures of the kernel's Add for lack of memory or of watches: a descriptor that epoll cannot take counts as not open.
- Duplicated descriptors that keep a registration alive after a close.
- Which ready descriptors the kernel picks when more are ready than fit the buffer: the liveness results take as a hypothesis that a readable eventfd is not passed over for ever, and there is none for individual subscribers.
- The `InvalidCapacity` check of `new_with_capacity` and failures to create epoll or eventfd objects: single branches before any state exists.
- Panics inside user callbacks and closures, poisoning, and dropping the manager while callers wait. The counter subscriber's own panics are modelled as a flag.
- Results of `fire` that a callback reacts to are not fed back to it by the transition system; they are part of the outside world `W`.
- Wrap-around of `next_id` and of packed data in release builds, where overflow does not panic.
- Erasure of result types, `Send` bounds, and the forwarding implementations for `Arc`, `Rc`, `RefCell`, `Mutex` and `Box`.
- `Display` and `Error::source`, and the other counter subscribers: formatting, or single-event special cases of the one modelled.
- Overflow of the counters of the counter subscriber, which are unbounded here.

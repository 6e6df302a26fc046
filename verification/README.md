# A model of Oxbrook's hand-off, and of the algorithms around it

Oxbrook is an HTTP core in Rust that hands requests from many tokio threads to a few single-threaded
asyncio loops. This project models that hand-off and the self-contained algorithms beside it, and proves
what the source's comments promise of them. `dafny verify dfyconfig.toml` checks all of it.

## What is modelled

**The dispatch protocol.** `Dispatch.dfy` is a labelled transition system of one worker's queues: any
number of producers, each inside `try_push` or `wake`; one drain callback; the flag, the stamp, the bytes in
the wake socket. One atomic operation is one step, steps are sequentially consistent, and every interleaving
is a run. `DispatchWake.dfy` holds the invariants, `DispatchProgress.dfy` termination, `DispatchAdmission.dfy` the bound
on admitted requests. `DispatchLoop.dfy` adds what the surroundings allow: callbacks the loop left earlier,
notices of clients that left, slots of handlers that ran. `DispatchReach.dfy` and `DispatchFairness.dfy` bound
what an item waits; `DispatchForever.dfy` proves what is popped in executions that never end, under fair
scheduling. `WorkerQueue.dfy` holds the classes `WorkerQueue` and `Drainer` as the source writes them; each
method is proved to be a run of that system. `Enqueue.dfy` is the choice of a worker, alone;
`EnqueueRaced.dfy` the same with everyone else's steps between.

**A request's life.** `Lifecycle.dfy` is a second transition system, over any number of requests,
connections and workers: the per-connection count, the slot, the cancellation cell, the notice.
`LifecycleCounts.dfy` and `LifecycleCancel.dfy` hold its invariants; `Responder.dfy` the objects.

**The streaming body.** `Body.dfy` is the pump and a reader, one atomic operation or critical section a
step, so the store of `finished` and the append of the marker are separate steps. `BodyBytes.dfy`,
`BodyWake.dfy`, `BodyCallbacks.dfy` and `BodyProgress.dfy` prove what is delivered, who waits for whom, that no
callback is lost and how soon one comes; `BodyReader.dfy` is the class. `Sockets.dfy`, `SocketCallbacks.dfy` and `SocketShared.dfy` are the same
for a WebSocket.

**The rate limiter.** `Limit.dfy` is the sharded, sweeping map in wrapping u64 arithmetic beside a ledger of
unbounded numbers that never forgets; `LimitLaws.dfy` relates them.

**Four algorithms.** Static paths (`Segments.dfy`, `Contained.dfy`, on a file tree with links), content
codings (`Negotiation.dfy`, `Variants.dfy`), auth policies (`Policies.dfy`, `Gate.dfy`, `GateLaws.dfy`,
`Listing.dfy`) and dependency scopes (`Dependencies.dfy`, `DependencyLaws.dfy`). Each has an independent
reading: canonicalising, the ranking of codings, the policy tree, the exit stack.

## Assumptions

- Atomics are sequentially consistent; a critical section is one step and no lock is poisoned.
- The fallible interpreter calls in the drain callback's batch (src/worker.rs:129-178) succeed, and
  `create_task` does not run the coroutine before it returns.
- Handler code runs only while the drain callback does not, on its loop. So only then is a callback left with
  the tokio side (`notify`, `collect`, `on_close`, `notify_disconnect`) or a handler's end reached; the callbacks
  the drain runs only resolve a future (python/oxbrook/_runtime.py, python/oxbrook/_bodies.py,
  python/oxbrook/_websocket.py).
- `SegQueue` is a FIFO sequence, the wake pair a count of unread bytes, `Notify` one permit, `AsyncExitStack`
  a list of exits, `sorted` any listing of a set without omission.
- Schemes, checks, limiters, dependencies and handlers are arbitrary functions of a `World`; one that depends
  on more than its arguments is covered by the choice of that function, one that changes between two calls
  with equal arguments is not. Dependencies are told the number of the call, so they may change.
- A scheme that returns something other than a principal counts as one that raises.
- The file tree does not change during a call.

## Where the code and what is said of it differ

- *Everything pushed is popped under fair scheduling.* Every request is: in every execution in which the loop and
  each thread inside `wake` keep getting their turn (`FairlyPopped`), in this pass of the callback or the next
  (`PoppedByTheNextPass`). A callback or a notice that comes after its loop of the pass waits for the pass to end, and
  the loop over requests goes on as long as requests arrive whose clients leave while they are queued: dropping one
  never raises the in-flight count, so admission does not stop them. An item is never popped exactly if it is one of
  those and its pass never ends, which takes dropped requests for ever (`HeldUpForEverIff`); there is a fair
  execution in which that happens (`HeldUpForEver`).
- *END means the whole body.* `poll` keeps that. `take` can land between src/body.rs:139 and src/body.rs:142 of
  a failing push and answer END with a partial body (`PartialBodyCanEnd`); it is right exactly when it does not
  (`TakeEndIsCompleteIff`).
- *A handler still waiting is told* (src/body.rs:168-170). A pump dropped before its first poll has no guard yet;
  a reader left waiting then waits for ever (`UnpolledDropStrands`, `StrandedForEver`), and only then
  (`StrandedIffUnpolled`). That pump is polled in a `select!` that a reply already sent can win.
- *The queue is bound before the handler can register a waiter* (src/server.rs:1115-1117). It is bound after the
  push, so for every client a waiter may come first, of a body as of a WebSocket (`WaiterMayComeFirst`). What holds,
  and is enough, is that until then nobody calls anybody back: every callback left is still there
  (`NobodyWakesUnbound`).
- *Forgetting changes no answer.* It needs no call to be earlier than its shard's last sweep, which is weaker
  than a monotone clock. Without that a call is decided otherwise exactly when its key was dropped at a time
  still to come for it (`ForgettingMattersIff`), and an answer can change (`ClockMustNotGoBack`, for a limit of
  a million a second).
- *Every request spends from the limits exactly once* (python/oxbrook/_auth.py:119-123). A scheme that raises
  anything but `Unauthenticated` leaves before the caller's limits are spent; in every other case it holds
  (`Gate.Call`, `ChargedOnce`).
- *`permits` agrees with `__call__`*, exactly unless a check raises before the option that would have let the
  caller in (`PermitsAgreesIff`, `PermitsCanDisagree`).
- *OpenAPI alternatives* are exact for a set of scopes unless another described scheme of the same name is opened
  by those scopes where this one is not (`ListingIsExactIff`); so they are for a name only one has
  (`ListingIsExact`), and two of one name do mislead (`SharedNamesMislead`).
- *`contained`* lets out what canonicalising would refuse exactly for a path that meets no link and leads outside
  the root (`EscapesIff`); the segments of a request have no `..`, so for them it never does
  (`ServedLiesInside`). A mount's `fallback` may have one, as what is looked at when the mount is built is where
  it leads (python/oxbrook/_files.py:69-72): whatever leads inside is served, and as the same file, exactly if its
  path begins with the root's own (`InsideIsServedIff`). An absolute fallback through a link to the directory
  passes that look and is never served (`FallbackByAnotherName`).
- A WebSocket's waiter slot holds one callback: a second `notify` drops the first (`ReplacedIff`). The reader
  loop awaits each callback, so a single reader never does that.
- The comment at src/files.rs:235 says the set lists characters left as they are; it lists those encoded.

## Model

| member | source | states |
|---|---|---|
| DispatchWake.NoLostWakeup | src/queue.rs:175-259 | In every reachable state of P producers and the drain callback, a non-empty queue is one the callback still looks into, or the wake byte is written or about to be, or a producer is between its push and its swap |
| DispatchWake.AtMostOneByte | src/queue.rs:249-259 | Unread bytes plus threads between flip and write never exceed one, and are one exactly while a wake is set and not yet consumed |
| DispatchWake.ProbeIsCurrent | src/queue.rs:221-239 | Flag, stamp and clock read in three states: the probe times the episode unanswered at the stamp's load, for no longer than since it began, and is silent in one only before its stamp |
| DispatchWake.ClockNotRestarted | src/queue.rs:253-258 | Over any run within one episode the stamp stays as taken until the callback answers |
| DispatchWake.StepKeeps | src/queue.rs:175-259 | Every step of every thread keeps the invariant behind the four rows above |
| DispatchProgress.StepPays | src/worker.rs:76-184 | A potential falls with every step that is not an arrival or the passing of time |
| DispatchProgress.RunsAreBounded | src/worker.rs:76-184 | A run with k arrivals has at most Potential + 31 k steps, however the threads interleave |
| DispatchProgress.RestIsEmpty | src/worker.rs:76-184 | Where only arrivals remain possible, all three queues are empty, the flag is down and the loop asleep |
| DispatchReach.ItemIsReached | src/worker.rs:83-103 | While an item is queued the callback has taken at most Ahead - 2 steps and two per arrival on the other queues; its place only moves up, and arrivals behind it cost nothing |
| DispatchReach.StepApproaches | src/worker.rs:76-184 | Every step of every thread leaves an item's place, or moves it up, and pays for the callback's step |
| DispatchReach.StarvingTakesOthers | src/worker.rs:83-103 | Whatever the surroundings, a lap that leaves an item in place while the callback moves has arrivals on another queue |
| DispatchLoop.RunsProject | src/queue.rs:175-259 | With the surroundings' account kept, every run is still a run of the protocol |
| DispatchLoop.PoppedByTheNextPass | src/worker.rs:76-184 | Over any run no second pass begins while an item is queued: it is popped in this pass or the next |
| DispatchLoop.ItemIsDue | src/worker.rs:83-180 | Within a pass the callback takes at most Due steps before it pops a given item; two more per dropped request for a callback or notice it has passed, none for a request |
| DispatchForever.FairlyPopped | src/worker.rs:76-184 | In every endless execution fair to the loop and to each thread inside wake, every queued request is popped; so is a callback or notice the pass has not passed, and every one if from some time on none is dropped |
| DispatchForever.HeldUpForEverIff | src/worker.rs:83-111 | Under fair scheduling an item is never popped exactly if it is a callback or a notice the pass under way has passed and that pass never ends; such a pass drops requests for ever |
| DispatchForever.HeldUpForEver | src/worker.rs:83-111 | A fair execution from a reachable state in which a queued callback is never run |
| DispatchFairness.WaitShortens | src/worker.rs:76-184 | A well-founded measure of an item's wait that no step of anyone lengthens and the step waited for shortens; for a request without exception, else save steps that drop a request |
| DispatchFairness.SomeoneHelps | src/queue.rs:243-259 | While something is queued the step waited for can be taken: the callback's, or while it sleeps the furthest wake's |
| DispatchFairness.HeldUpByDropsAlone | src/worker.rs:103-111 | Within a pass the callback takes two steps for each request dropped, less one in hand at the start, and while a callback or notice waits at most a bound of where it began besides |
| DispatchFairness.DropsHoldUp | src/worker.rs:103-111 | For every n a reachable run of one pass drops n requests while a callback stays queued |
| DispatchAdmission.AdmissionIsBounded | src/queue.rs:145-187 | Queued, popped-unclaimed and in-flight requests never exceed limit + P although check and push are separate steps |
| DispatchAdmission.AdmissionBoundIsReached | src/queue.rs:145-187 | For every limit and number of producers some run reaches limit + P |
| WorkerQueues.WorkerQueue.TryPush | src/queue.rs:175-187 | Pushes and wakes if there is room, else changes nothing; a run of the transition system by one producer |
| WorkerQueues.WorkerQueue.PushWakeup | src/queue.rs:199-202 | Appends the callback and wakes; a run of the transition system |
| WorkerQueues.WorkerQueue.PushCancel | src/queue.rs:210-213 | Appends the notice and wakes; a run of the transition system |
| WorkerQueues.WorkerQueue.Wake | src/queue.rs:249-259 | Only the caller that turns the flag on stamps it and writes one byte |
| WorkerQueues.WorkerQueue.ClearNotified | src/queue.rs:221-226 | Leaves the stamp idle and the flag down |
| WorkerQueues.WorkerQueue.RewakeIfPending | src/queue.rs:243-247 | Re-arms exactly when some queue holds something |
| WorkerQueues.WorkerQueue.DrainSocket | src/wake.rs:91-98 | Reading until a short read leaves no byte unread |
| WorkerQueues.WorkerQueue.Load | src/queue.rs:145-147 | Zero exactly when nothing is queued or in flight |
| WorkerQueues.WorkerQueue.Claim | src/queue.rs:156-158 | One more in flight, nothing else moved |
| WorkerQueues.WorkerQueue.Release | src/queue.rs:162-164 | One fewer in flight, nothing else moved |
| WorkerQueues.Drainer.Call | src/worker.rs:76-184 | Runs every callback, handles every notice, starts every live request, each in order, leaves nothing armed; a run of the transition system |
| WorkerQueues.Drainer.Begin | src/worker.rs:77-81 | Empties the socket, then leaves flag and stamp down before anything is popped; a run |
| WorkerQueues.Drainer.RunCallbacks | src/worker.rs:86-90 | Runs every queued callback in order and touches nothing else; a run |
| WorkerQueues.Drainer.HandleNotices | src/worker.rs:94-98 | Handles every queued notice in order and touches nothing else; a run |
| WorkerQueues.Drainer.StartAll | src/worker.rs:103-180 | Claims and starts, in order, exactly the requests whose client has not left |
| Enqueueing.Lightest | src/server.rs:1086-1100 | The first, in rotation order, of the least loaded workers, the early stop at an idle one included |
| Enqueueing.Enqueue | src/server.rs:1085-1129 | Unraced, the request is on exactly one queue or none: the first least-loaded worker, else the next with room round from it; refused only when every worker is full |
| Enqueueing.LightestOrNone | src/server.rs:1102-1129 | With equal limits the spill-over never happens unraced: the least loaded worker takes it or nobody does |
| RacedEnqueue.OneQueueOrNone | src/server.rs:1102-1129 | With every other thread's steps between its own, the race is for each worker a run of its protocol; in those runs together the request is pushed once if taken, by the worker that took it, else never; it is shed only after each worker was found full at its own moment |
| LifecycleCounts.InflightIsClaimed | src/responder.rs:131-141 | In every reachable state a worker's in-flight count is its claimed requests whose Responder has not released |
| LifecycleCounts.ConnectionIsBounded | src/server.rs:1555-1581 | A connection's count is what it let in plus refusals in progress, and it never lets in more than MAX_STREAMS |
| LifecycleCounts.RefusalWasDue | src/server.rs:1559-1567 | A take is refused exactly when, refusals in progress counted, the connection is full |
| LifecycleCounts.NeverBack | src/responder.rs:131-195 | No step takes a request back, and each that moves a count moves the request on |
| LifecycleCounts.ReturnedExactlyOnce | src/responder.rs:131-195 | Over any run with any number of calls of release_once, whoever loses the swap, a slot and a place in the connection's count are given back once if the run passes their release, else never; a release is begun exactly if some call was made |
| LifecycleCounts.NothingLeaks | src/server.rs:1699-1787 | When every request is over every count is zero |
| LifecycleCounts.StepKeeps | src/server.rs:1699-1787 | Every step of any request keeps all counts equal to what they stand for |
| LifecycleCancel.CancelledAtMostOnce | src/cancel.rs:56-64 | Over every run a task is cancelled at most once, and never in an answered request |
| LifecycleCancel.AnsweredIsSafe | src/cancel.rs:66-72 | Once answered always answered, and no later step cancels the task |
| LifecycleCancel.AbandonedIsNoticed | src/cancel.rs:113-129 | An abandoned request with its task in the cell has a notice on its way, or the attaching callback is about to look again |
| LifecycleCancel.AbandonedIsCancelled | src/cancel.rs:43-64 | Once its notice has been handled an abandoned running request has been cancelled exactly once |
| LifecycleCancel.TaskHasItsResponder | src/cancel.rs:74-82 | A task in the cell implies an unreleased Responder, so no tokio thread drops the last reference to a task |
| LifecycleCancel.NeverStarted | src/worker.rs:104-111 | A request abandoned while queued is never started, whatever happens next |
| Responders.Take | src/server.rs:1559-1567 | Succeeds exactly below MAX_STREAMS and counts one; refused, it leaves the count as it was |
| Responders.Reservation.HandOver | src/server.rs:1570-1572 | The count moves out and the reservation holds nothing |
| Responders.Reservation.Drop | src/server.rs:1575-1581 | Gives the count back exactly if it was not handed over |
| Responders.Cancel.Attach | src/cancel.rs:46-54 | Stores the task, or cancels it at once if the client has gone; the transition system's three steps |
| Responders.Cancel.CancelTask | src/cancel.rs:58-64 | Takes the task out and cancels it; an empty slot cancels nothing |
| Responders.Cancel.Answer | src/cancel.rs:68-72 | ANSWERED if still RUNNING, else as it was |
| Responders.Cancel.Forget | src/cancel.rs:77-82 | Never RUNNING after, slot empty, an abandonment kept, nothing cancelled |
| Responders.Cancel.Abandon | src/cancel.rs:113-129 | A notice is due exactly when the request was still RUNNING |
| Responders.Responder.ReleaseOnce | src/responder.rs:131-141 | The first call returns both counts and empties the cell; a later one moves nothing |
| Responders.Responder.Deliver | src/responder.rs:166-195 | A refused reply changes nothing; a complete one with nothing kept releases before it can reach the client; any other keeps the slot |
| Responders.Responder.Finish | src/responder.rs:271-273 | Released once, whoever was first |
| Responders.Responder.FinishOrKeep | src/responder.rs:279-285 | Keeps the slot exactly when work was kept |
| Responders.Responder.Drop | src/responder.rs:122-128 | Released once, whoever was first |
| Responders.KeptWork | src/responder.rs:166-285 | Reply, finish-or-keep, finish and drop of a request with kept work release the slot once between them, after the reply |
| BodyBytes.DeliveryIsPrefix | src/body.rs:349-446 | Over every run what readers were handed is a prefix of the client's bytes and at most max_body long |
| BodyBytes.PollEndIsComplete | src/body.rs:377-384 | poll answers END only once the whole body was handed out |
| BodyBytes.TakeEndIsCompleteIff | src/body.rs:416-446 | take's END is complete exactly when it did not land between the two stores of a failing push |
| BodyBytes.PartialBodyCanEnd | src/body.rs:135-143 | A body over the limit can be answered END with its first byte for the whole |
| BodyBytes.TakeFailureIsTrue | src/body.rs:436-440 | take reports only the failure the pump found |
| BodyBytes.MarkIsSticky | src/body.rs:377-392 | Over any run the terminal marker never changes |
| BodyBytes.AnswerIsTheMark | src/body.rs:349-446 | Every answer at the end of a body says what its marker says, outside that window |
| BodyBytes.StepKeeps | src/body.rs:135-446 | Every step of pump and reader keeps the account of bytes accepted, stored, popped and handed out |
| BodyWake.NoDeadlock | src/body.rs:235-316 | In no reachable state do the pump and a reader wait for each other |
| BodyWake.ParkedReaderWaitsOnClient | src/body.rs:235-316 | A parked reader is kept waiting by the client alone, unless the pump was dropped before its first poll |
| BodyWake.EndWakesEveryone | src/body.rs:168-175 | The end of a pump that was polled leaves no reader waiting |
| BodyWake.StrandedForEver | src/body.rs:242-251 | After a drop before the first poll, nobody who waits is ever called back, whatever runs |
| BodyWake.StrandedIffUnpolled | src/body.rs:242-251 | Once the pump is gone, whoever left a callback is still waiting exactly if the pump was never polled |
| BodyWake.UnpolledDropStrands | src/server.rs:1052-1054 | For every client such a state is reached |
| BodyWake.BufferIsBounded | src/body.rs:269-274 | Outside whole-body mode at most HIGH_WATER plus one frame is buffered |
| BodyProgress.CalledBackWithin | src/body.rs:135-166 | On every run in which readers stay parked a waiting callback is scheduled within a bound of the pump's steps: eight for each frame still to come, one for each callback, and a few more |
| BodyProgress.SomeoneDrives | src/body.rs:235-316 | Until then the pump can step, or it waits for the client, for its first poll or for the worker to be known |
| BodyCallbacks.WaiterMayComeFirst | src/server.rs:1112-1123 | For every client a reader can leave a callback before the body is bound to its worker |
| BodyCallbacks.NobodyWakesUnbound | src/body.rs:155-166 | In every reachable state not yet bound, all callbacks made wait, none was scheduled or dropped |
| BodyCallbacks.InOnePlace | src/body.rs:155-166 | Every callback is at every moment in exactly one place and none is dropped for want of a queue |
| BodyCallbacks.ScheduledExactlyOnce | src/body.rs:399-465 | Once a polled pump is gone and the loop in no call, every callback has been scheduled exactly once |
| BodyReaders.BodyShared.Push | src/body.rs:135-152 | Counts or finishes, appends, wakes everyone unless collecting whole and not at the end; a run of the pump |
| BodyReaders.BodyShared.Wake | src/body.rs:155-166 | Takes the waiters and schedules each in order |
| BodyReaders.BodyShared.PollChunks | src/body.rs:349-394 | Pops data, leaves the marker, asks for more when empty or on falling to the high water |
| BodyReaders.BodyShared.Poll | src/body.rs:349-394 | That, as a run of the reader's side |
| BodyReaders.BodyShared.Notify | src/body.rs:450-465 | Leaves the callback waiting, or schedules it and all others if something came meanwhile; a run |
| BodyReaders.BodyShared.Collect | src/body.rs:399-411 | Whole-body mode, one more waiter, a demand, and a wake if already finished; a run |
| BodyReaders.BodyShared.Take | src/body.rs:416-446 | Nothing while unfinished, else all data up to the marker, which stays; a run |
| BodyReaders.BodyShared.TakeChunks | src/body.rs:423-446 | The loop collects the data before the marker and answers what the marker says |
| BodyReaders.BodyShared.Uncount | src/body.rs:367-374 | Asks for more exactly on falling to the high water |
| SocketCallbacks.CloseCallbacksOnce | src/websocket.rs:95-176 | A close callback is never scheduled before the close, never twice, and at rest has been scheduled exactly if the socket closed |
| SocketCallbacks.WaitersOnce | src/websocket.rs:81-159 | A waiter is scheduled at most once; at rest one neither scheduled nor replaced stands with no frame waiting and the socket open |
| SocketCallbacks.WaiterMayComeFirst | src/server.rs:1112-1123 | A handler can leave a waiter, and a close callback, before the socket is bound to its worker |
| SocketCallbacks.NobodyWakesUnbound | src/websocket.rs:67-79 | In every reachable state not yet bound nothing was scheduled or dropped, the last waiter stands and every close callback is in the list or being put there |
| SocketCallbacks.ReplacedIff | src/websocket.rs:138-141 | A run drops a waiter exactly when it leaves a second while one stands |
| SocketCallbacks.FramesInOrder | src/websocket.rs:88-134 | Frames received, then those queued, are those delivered, in order |
| SocketCallbacks.TokioKeeps | src/websocket.rs:81-106 | Every step of the tokio task keeps that no wakeup and no close is missed |
| SocketCallbacks.LoopKeeps | src/websocket.rs:138-176 | Every step of the loop keeps it, its own mark_closed included |
| SocketStates.SocketShared.Deliver | src/websocket.rs:88-93 | Queues the frame and schedules the waiter; a run of the tokio task |
| SocketStates.SocketShared.MarkClosed | src/websocket.rs:95-106 | Closes, schedules the waiter and every close callback; a run of either thread |
| SocketStates.SocketShared.TellAll | src/websocket.rs:98-105 | Takes the close waiters and schedules each in order |
| SocketStates.SocketShared.TryReceive | src/websocket.rs:127-134 | The oldest frame, or none |
| SocketStates.SocketShared.Notify | src/websocket.rs:138-159 | Leaves the waiter, or schedules it at once if a frame waits or the socket closed; a run |
| SocketStates.SocketShared.OnClose | src/websocket.rs:163-176 | Schedules at once on a closed socket, else leaves the callback; if the tokio task closes the socket between the two looks it is scheduled once all the same; a run |
| Limits.Limit.constructor | src/limit.rs:86-110 | Interval at least one, tolerance burst intervals saturated at 64 bits, every shard empty |
| Limits.Limit.Spend | src/limit.rs:164-186 | The answer and the shard after it are those of the run of calls that shard has seen, in wrapping u64 arithmetic |
| Limits.Limit.SpendHeld | src/limit.rs:170-185 | The critical section: refuse, or insert and sweep at the threshold |
| Limits.NoWrap | src/limit.rs:171-174 | Up to the horizon the u64 arithmetic is that of unbounded numbers, and an admission stores a time within the tolerance of now |
| Limits.PythonBoundsFit | python/oxbrook/_limits.py:99-121 | Every limit Python builds is unsaturated and its horizon at least 310 years |
| Limits.ForgettingIsHarmlessIff | src/limit.rs:178-182 | Dropping an entry leaves answer and state alike exactly when its time has passed by the next call |
| LimitLaws.ForgettingMattersIff | src/limit.rs:171-183 | After any run with the clock condition, the next call is decided as the ledger decides it exactly unless its key was dropped and its time is after the call |
| LimitLaws.ForgettingChangesNoAnswer | src/limit.rs:164-186 | The sweeping u64 shard answers every run as the unbounded ledger that never forgets, if no call precedes its shard's last sweep |
| LimitLaws.MonotoneIsEnough | src/limit.rs:165-170 | A non-decreasing clock short of the horizon meets that condition |
| LimitLaws.ClockMustNotGoBack | src/limit.rs:165-170 | At RateLimit("1000000/second", burst=1), without the condition an answer changes: forgetting turns a refusal into an admission |
| LimitLaws.WindowBound | src/limit.rs:7-11 | In every window of length W a key is admitted at most burst + W / interval times |
| LimitLaws.LedgerWindow | src/limit.rs:171-176 | Without forgetting that holds in calls of any order of times |
| LimitLaws.BoundIsReached | src/limit.rs:7-11 | For every burst and every number of intervals some run reaches the bound |
| LimitLaws.SpendIsATokenBucket | src/limit.rs:7-11 | A call is admitted exactly when a bucket of its key, full at first and refilled continuously, holds one interval |
| LimitLaws.LedgerIsBuckets | src/limit.rs:7-11 | After every run each entry is what is missing from that bucket |
| LimitLaws.WaitIsExact | src/limit.rs:173-175 | With no admission of the key between, whatever else and however many sweeps, a retry passes at now + wait and at no earlier instant |
| LimitLaws.RetryAfterSuffices | src/limit.rs:238-240 | The whole seconds told are the fewest, at least one, that cover the wait |
| LimitLaws.SweepsArePaidFor | src/limit.rs:33-36 | After every call a shard is below its sweep size, and all sweeps have visited at most twice the fresh inserts |
| Paths.Segments | src/files.rs:144-166 | The loop answers the non-empty segments of the decoded path, or nothing if the path is not UTF-8 or a segment is refused |
| Paths.SpellingDoesNotMatter | src/files.rs:141-148 | Any two spellings of a path, byte by byte plain or escaped in either case, mean the same |
| Paths.PartsAreNames | src/files.rs:150-165 | Every accepted part is one valid UTF-8 name without separator, never a dot segment, a hazard or an unwanted dotfile |
| Paths.Redirect | src/files.rs:380-389 | The loop builds prefix, slash, each part encoded and a slash |
| Paths.RedirectLands | src/files.rs:375-395 | The redirect's path, decoded and split, is the directory first asked for |
| Containment.Contained | src/files.rs:495-510 | The loop of one lstat a component computes the recursive fast form |
| Containment.ContainedIsSlow | src/files.rs:488-510 | On any tree with links, below a canonical root, for plain names, the fast form is canonicalise-and-test |
| Containment.ServedLiesInside | src/files.rs:365-418 | For every request path what is served is where its links lead, and that lies in the root |
| Containment.ResolvedIsCanonical | src/files.rs:66-69 | What following links finds is a place no link leads to |
| Containment.EscapesIff | src/files.rs:495-510 | For any components below the root, `contained` lets out what the slow form refuses exactly when the walk meets no link and the path leads outside |
| Containment.InsideIsServedIff | src/files.rs:408-419 | What leads inside the root is served exactly if its path begins with the root's own, and then it is the same file |
| Containment.FallbackByAnotherName | python/oxbrook/_files.py:69-72 | A path through a link to the root leads inside and is not served |
| Containment.DotDotEscapes | src/files.rs:150-155 | Why segments refuse `..`: with one, a file beside the root would be let out |
| Negotiation.Negotiate | src/compress.rs:170-211 | The first-preferred coding of the largest positive client weight, or none is acceptable |
| Negotiation.BestIsUnique | src/compress.rs:167-169 | That leaves one answer |
| Negotiation.ReadHeader | src/compress.rs:171-194 | Both loops: every coding's weight is the largest by name, else that of the last `*`, malformed items dropped |
| Negotiation.ReadWeight | src/compress.rs:179-186 | The last q parameter counts, well formed or not |
| Negotiation.HeaderIsRead | src/compress.rs:173-194 | A header written out from codings and weights is read as that list |
| Negotiation.QValueReadsDecimals | src/compress.rs:213-225 | Every weight from 0 to 1 in thousandths is read back as itself |
| Negotiation.QValueIsAWeight | src/compress.rs:213-225 | Nothing above 1 is read |
| Variants.Search | src/files.rs:462-485 | Tries the acceptable codings in rank order, each once, and answers the best-ranked usable one or that none is |
| Variants.Variant | src/files.rs:451-486 | That over brotli and gzip; nothing for a range, without the header, or for an original of unknown age |
| Variants.Sendable | src/files.rs:465-481 | For any original served, one whose path keeps a `..` included, accepts exactly a regular file, inside the root where its links lead, no older than the original |
| Variants.ServedIsOpened | src/files.rs:417-428 | Whatever is served, a fallback with `..` included, is an original as the search takes it: `contained` hands it back unchanged and it leads to the file |
| Variants.VariantIsServedIff | src/files.rs:465-475 | Beside any such original `contained` lets a variant out exactly if canonicalising finds it inside the root, and as the same file |
| Variants.TriedInOrder | src/files.rs:463-464 | Negotiating over what is left gives the next of the ranking over all |
| Policies.WaysAreThePaths | python/oxbrook/_auth.py:86-92 | The alternatives listed are the paths of the tree: one to a scheme has all requirements met exactly when the tree opens to it |
| Policies.WaysAreInWrittenOrder | python/oxbrook/_auth.py:86-92 | Their schemes are those written, in order |
| Policies.Plan | python/oxbrook/_auth.py:99-113 | Each scheme once, in first-written order, with all its options in order |
| Policies.OptionsAreWays | python/oxbrook/_auth.py:103-106 | Some option of a scheme is met exactly when some way to it is |
| Policies.PresentableKeepsWays | python/oxbrook/_auth.py:450-466 | The ways left are the policy's own, in order, save those of ticket schemes; none exactly when it is None |
| Gates.Gate.Call | python/oxbrook/_auth.py:150-194 | One pass over the first limits, then Authenticate; what is decided and charged is what the tree means |
| Gates.Gate.Authenticate | python/oxbrook/_auth.py:153-194 | Decides what the tree means and charges one pass over the caller's limits to the caller found, none if a scheme failed |
| Gates.Gate.Spend | python/oxbrook/_auth.py:140-148 | Takes from each limit in order, this process's and then the shared, up to the first that refuses, and passes exactly if all allow |
| Gates.Gate.TryOptions | python/oxbrook/_auth.py:183-189 | Met exactly if some option is, unless one raises before |
| Gates.Gate.Permits | python/oxbrook/_auth.py:239-273 | Answers from the tree without raising for checks, keeping the memo faithful to what each scheme found |
| Gates.OptionVerdict | python/oxbrook/auth.py:159-168 | Yes exactly if every requirement of the option is met |
| Gates.GroupIsSeen | python/oxbrook/_auth.py:154-166 | The first group to find something is the first written scheme that does, and its options are its ways |
| Gates.PermitsAgreesIff | python/oxbrook/_auth.py:239-273 | Within the limits permits and __call__ agree exactly unless a check raises before the option that would have let the caller in |
| Gates.PermitsAgreesWithoutRaising | python/oxbrook/_auth.py:239-273 | Where no check raises they always agree |
| Gates.PermitsCanDisagree | python/oxbrook/_auth.py:263-272 | A policy whose tool is listed and then fails |
| GateLaws.OnePass | python/oxbrook/_auth.py:119-123 | No limit is charged twice, each is charged exactly if all before it allowed, all if all allow |
| GateLaws.ChargedOnce | python/oxbrook/_auth.py:119-128 | No limit is charged twice by a request; where all allow, every limit is charged exactly unless a scheme failed |
| GateLaws.PresentableKeepsTheMeaning | python/oxbrook/_auth.py:450-466 | A socket is re-checked as the whole policy would decide without a ticket, same caller and charges; nothing to check exactly if all schemes are tickets' |
| Listing.Security | python/oxbrook/_auth.py:540-572 | Under each name some listed alternative fits a scope set exactly when the tree opens by scopes to a described scheme of that name; `{}` exactly if optional; no alternative twice |
| Listing.AlternativesOf | python/oxbrook/_auth.py:559-569 | One option's alternatives fit exactly the scope sets that meet all its requirements |
| Listing.ListingIsExactIff | python/oxbrook/_auth.py:540-572 | For a described scheme and a set of scopes, fitting an alternative listed under its name means opening the tree to it, exactly unless another scheme of that name is opened by those scopes where it is not; it never says too little |
| Listing.ListingIsExact | python/oxbrook/_auth.py:540-572 | For a described scheme of distinct name, listed alternatives are logically exact |
| Listing.SharedNamesMislead | python/oxbrook/_auth.py:557-569 | With a shared name scopes fit a listed alternative while the scheme refuses them |
| Dependencies.Scope.Resolve | python/oxbrook/_depends.py:163-204 | Always returns, with the result, cache, stack and calls of depth-first resolution |
| Dependencies.Scope.ResolveAll | python/oxbrook/_depends.py:176-178 | Left to right, up to the first failure |
| Dependencies.Scope.Call | python/oxbrook/_depends.py:180-204 | One call, one exit for a generator that yielded, one cached value for a caching marker |
| Dependencies.Scope.Unwind | python/oxbrook/_depends.py:237-241 | Every exit once, last set up first, each given the exception in flight by then |
| Dependencies.Scope.Serve | python/oxbrook/_depends.py:230-252 | The body is set-up, handler, and encoding where a teardown is open and it is no socket; a success is the handler's own result |
| DependencyLaws.ResolutionKeeps | python/oxbrook/_depends.py:163-204 | For every graph: each cached dependency set up once, exits in order made, and a success was in no cycle |
| DependencyLaws.OpeningKeeps | python/oxbrook/_depends.py:242-244 | The same of everything a handler declares |
| DependencyLaws.TooDeepIsTrue | python/oxbrook/_depends.py:166-170 | The nesting error means a chain of twenty-one declarations |
| Dependencies.ErrorsStand | python/oxbrook/_depends.py:110-160 | No exit turns an error into success |
| Dependencies.ResumedNormallyIff | python/oxbrook/_depends.py:101-160 | A generator is resumed normally exactly if the body succeeded and every inner teardown was clean; the request succeeds exactly if its body did and all were |
| Dependencies.LastRaisedLeaves | python/oxbrook/_depends.py:237-240 | The exception that leaves is that of the last unclean teardown, else the body's |

## Left out

- hyper, tokio, TLS, sockets, signals, the accept loop, refcounts and the interpreter lock: plumbing.
- Weak memory orderings: every atomic operation is sequentially consistent here, also the relaxed ones.
- The wait histogram, arrival stamps and progress timestamps of queues and bodies: observation only.
- Route matching, coercion of parameters, multipart, gzip and brotli encoding, cryptography, JWT, pydantic.
- How Redis keeps a shared limit: a shared limit here allows or refuses like any other; one that cannot be reached allows.
- How a limiter's key is hashed from an address, header or principal; the u64 key is taken as given.
- Parsing a rate's text: the count and unit arrive split.
- The wording of refusals, challenges and `forbidden`'s missing scopes; the gate's outcome names only the scheme.
- Range and conditional requests, MIME types and responses of static files; Windows path prefixes.
- Prefix and query of a redirect beyond the path that comes back as `file`.
- Login flow, JWKS, MCP, OpenAPI assembly beyond `security`, CLI, logging, metrics text.
- A reply's validity (`check`), its chunks and disconnect notice: `Deliver` takes whether the reply is valid and whole.
- A WebSocket's outgoing channel and framing.
- WorkerQueues.Drainer.Call: says what the callback does when no producer races it; with races, the transition system's lemmas apply.
- SocketStates.SocketShared.OnClose: the tokio task closes the socket wholly between the two looks or not at all; the transition system has every interleaving.
- Enqueueing.Enqueue: says what happens when nobody races it; with races, `RacedEnqueue.OneQueueOrNone` applies.
- Dependencies.Scope.Call: an awaited result is one call, so what other tasks do meanwhile to shared objects is not seen.

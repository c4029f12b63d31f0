# The two-lane work queue and its workers

A model of the "playboy" work queue of this repository and of the workers that drive it, with
proofs about every run and every interleaving.

The queue hands out items from two lanes, fresh before staled. An item is *dirty* from the moment an
add accepts it until a Get returns it, and *in process* from that Get to its Done; an item that becomes
dirty while in process is queued again by Done. Failing items come back after a delay, through a loop
that keeps them in a heap. Workers on the fresh-only interface see the fresh lane only.

| file | what it models |
|---|---|
| `Lanes.dfy` | the state under the queue's lock and what each critical section does to it |
| `Monitor.dfy` | any number of callers sharing that state through one lock and one condition variable |
| `Wakeups.dfy` | when a sleeping worker and available work can coexist |
| `Accounting.dfy` | conservation of work, lane order, what shutdown leaves to do |
| `Drain.dfy` | what `ShutDownWithDrain` promises and when it returns |
| `Protocol.dfy` | workers and waiting loop on top of the monitor, with counters, channel and clock, each access a step |
| `Retries.dfy` | the two counters, the lane Done picks, and that each failure is answered |
| `Histories.dfy` | whole runs from the start: where each delayed add comes from, the fresh budget, every way into a lane |
| `Returns.dfy` | that no retry is forgotten: what is sent comes back, and a failing item is always somewhere |
| `Requeues.dfy` | what becomes of an item its own worker adds again |
| `Endings.dfy` | how a turn of the waiting loop begins, and how the loop ends |
| `Departures.dfy` | runs, with lanes and delays as the code computes them, in which the queue does what its comments exclude |
| `Metrics.dfy` | the metrics as a second copy of the queue's bookkeeping |
| `QueueSpec.dfy` | each public operation on the whole state of the queue |
| `PlayboyQueue.dfy` | the queue itself, a class updating its fields, proved against `QueueSpec` |
| `DelayHeap.dfy`, `DelayedItems.dfy` | the heap of shared nodes, and heap and map together as one finite map |
| `LoopLog.dfy`, `WaitingLoop.dfy` | the waiting loop, its log and the contract of delayed adds |
| `Worker.dfy` | the worker's loop and what one turn of it means |
| `Turns.dfy`, `LoopTurns.dfy` | worker and waiting loop as methods, and as steps of the protocol, are the same |

## Where the code departs from what it says

The model follows the code. Each departure has an exact condition.

- `Done` compares the wrong way round (playboyqueue.go:223-227 against 212-214 and 447-451): for an item
  that is dirty again it always picks the lane `isFresh` would not (`Retries.DoneKeepsItsPromiseIff`).
- `Done` signals only for a dirty item, so `ShutDownWithDrain` can sleep for ever
  (`Drain.DrainerIsWokenIff`, `Drain.DrainersAreWokenIff`), and a later `ShutDown` does not end it, as the
  comment at 252-254 says it would (`Drain.SecondShutDownForcesNothing`).
- `ShutDownWithDrain` can return while accepted items still wait, which its comment excludes: exactly when
  something is dirty as it is called (`Drain.ReturnsWithWorkLeftIff`, `Drain.ReturnsBeforeWaitingItems`).
- `Get` and `GetFresh` callers share one condition variable, so a retry that comes back staled may wake a caller
  that cannot take it (`Departures.WakeupsAreSafeIffUniform`), and an accepted item may be left behind when all
  workers are gone (`Departures.NothingLeftIffGetOnly`).
- `RequeueAfter` also adds at once (`Workers.RequeueAfterWaitsIff`, and among other goroutines
  `Requeues.RequeueIsAtOnce`).
- `Add` is not always fresh (`Workers.AddIsFreshIff`, and for an item its own worker adds, among other goroutines,
  `Requeues.RequeuedItemIsStaled`).
- The depth gauge counts dirty items, not queued ones: it agrees with `Len` exactly when no item in process is
  dirty (`Lanes.DepthIsLenIff`), which is not always so (`Departures.DirtyWhileHeld`).
- The comment on the controller says its staled worker takes from the staled lane only
  (pkg/utils/controller/playboytype.go:52-53); it calls `Get` (line 138-140), which takes a staled item exactly when
  the fresh lane is empty (`Accounting.StaledOnlyWithoutFresh`, `Departures.StaledWorkerTakesFresh`).

## Reading the model

- A caller that waits is parked in `Monitor` until a signal picks it, and holds the lock again only in a later
  step, so that others can overtake it. Which parked caller a signal picks is left open. `AsWritten` is the code's `Done`;
  the other two policies are the repairs that `Drain` weighs.
- `Protocol` is the model of all goroutines together: outsiders call `Add`, `ShutDown` and `ShutDownWithDrain`, workers
  and waiting loop are cut wherever they take a lock or use the channel, and the lanes and delays are the ones the
  code computes. Its runs are runs of `Monitor` (`Protocol.RunsRefineTheMonitor`).
- The methods of the class run without interference except where the source gives up the lock or is busy elsewhere:
  there `rounds`, `others` and `Wait` say what the other goroutines do, and the contracts hold for all of it.
- Clock readings, the outcome of reconcile and the reason a select ends are parameters.
- A queue is built for the limiter `NewItemFastSlowRateLimiter` with the same threshold
  (pkg/utils/controller/playboytype.go:66-73). The limiter and `container/heap` are libraries: the limiter is modelled by its
  documented behaviour, the heap operations are written out on the repository's own five methods and proved.

## Model

| member | source | states |
|---|---|---|
| Lanes.AddKeepsValid | pkg/utils/workqueue/playboyqueue.go:327-350 | `add` keeps what the struct's comment promises: lanes without duplicates, disjoint, and together exactly the dirty items nobody processes |
| Lanes.TakeKeepsValid | pkg/utils/workqueue/playboyqueue.go:172-187 | taking a lane's head keeps that promise, and the item taken was dirty and in nobody's hands |
| Lanes.TakeMeans | pkg/utils/workqueue/playboyqueue.go:172-187 | what is taken is the first of the fresh lane, or with the fresh lane empty and staled items allowed the first of the staled lane; it leaves the lane, is in process and clean |
| Lanes.FinishKeepsValid | pkg/utils/workqueue/playboyqueue.go:215-230 | Done for a held item keeps that promise, whichever lane it picks |
| Lanes.FinishWithoutHolding | pkg/utils/workqueue/playboyqueue.go:162-164 | Done for an item nobody holds keeps the promise if and only if the item is not dirty; otherwise the item is queued twice |
| Lanes.LenCountsWaitingItems | pkg/utils/workqueue/playboyqueue.go:153-160 | both lane lengths add up to the number of dirty items not being processed |
| Lanes.DepthIsLenIff | pkg/utils/workqueue/metrics.go:117-140 | the depth the metrics count, the number of dirty items, is Len if and only if no item in process is dirty |
| Monitor.StepKeepsSafe | pkg/utils/workqueue/playboyqueue.go:166-259 | every step of any caller keeps mutual exclusion, the lane promise and the rules of who can sleep where |
| Monitor.ReachableIsSafe | pkg/utils/workqueue/playboyqueue.go:100-113 | in every state reachable by any Get, GetFresh and ShutDownWithDrain callers and any adders: no item is held twice, `processing` is exactly the held items, the lanes partition the dirty items nobody holds |
| Wakeups.SignalWakesOne | pkg/utils/workqueue/playboyqueue.go:349 | Signal raises the number of woken callers by one whenever anybody sleeps |
| Wakeups.SignalsIffItQueues | pkg/utils/workqueue/playboyqueue.go:222-229 | add and Done signal if and only if they put an item into a lane |
| Wakeups.StepKeepsCovered | pkg/utils/workqueue/playboyqueue.go:166-230 | each step, barging callers included, keeps the items that could be taken at most as many as the woken callers, as long as somebody sleeps |
| Wakeups.UniformWorkersAreCovered | pkg/utils/workqueue/playboyqueue.go:166-210 | where all workers call Get, or all call GetFresh, no reachable state has lost a wake-up |
| Accounting.WorkIsConserved | pkg/utils/workqueue/playboyqueue.go:327-343 | over any run, per item: acceptances are matched one to one by deliveries, except one still marked dirty |
| Accounting.DepthIsConserved | pkg/utils/workqueue/playboyqueue.go:182-185 | over any run: adds minus gets is the change of the number of dirty items |
| Accounting.ProcessingIsConserved | pkg/utils/workqueue/playboyqueue.go:215-221 | over any run: gets minus dones is the change of the number of items in process |
| Accounting.GetsPairWithDones | pkg/utils/controller/worker.go:78-83 | over any run, per caller: as many Dones as Gets, but for the item in hand |
| Accounting.NothingIsAcceptedAfterShutDown | pkg/utils/workqueue/playboyqueue.go:330-332 | once shut down, a queue stays so and accepts nothing in any run |
| Accounting.ShutDownBoundsTheWork | pkg/utils/workqueue/playboyqueue.go:232-244 | after shutdown deliveries use up exactly the items dirty then, and 2*dirty + processing pays for every delivery and Done still to come |
| Accounting.LanesAreFifo | pkg/utils/workqueue/playboyqueue.go:172-176 | per lane over any run: deliveries followed by the remaining contents are the first contents followed by everything appended, in order |
| Accounting.StaledOnlyWithoutFresh | pkg/utils/workqueue/playboyqueue.go:172-210 | a delivery takes a staled item if and only if the fresh lane is empty, never for GetFresh, and leaves the other lane alone |
| Accounting.GetOnlyWorkersLeaveNothing | pkg/utils/workqueue/playboyqueue.go:166-188 | if all workers use Get, nothing is dirty or in process once they have all exited |
| Drain.WhatReturningMeans | pkg/utils/workqueue/playboyqueue.go:354-366 | when ShutDownWithDrain returns, the queue is shut down and nothing is held |
| Drain.ReturnsWithWorkLeftIff | pkg/utils/workqueue/playboyqueue.go:246-259 | from any safe state: a call of ShutDownWithDrain can return with accepted items unfinished if and only if something is dirty when it is made |
| Drain.ReturnsBeforeWaitingItems | pkg/utils/workqueue/playboyqueue.go:246-259 | a run in which it returns while an accepted item still waits |
| Drain.DoomIsForever | pkg/utils/workqueue/playboyqueue.go:222-229 | a drainer asleep while no held item is dirty stays asleep in every continuation |
| Drain.SecondShutDownForcesNothing | pkg/utils/workqueue/playboyqueue.go:235-254 | a ShutDown after the first changes nothing, and with no held item dirty the drainer asleep before it stays asleep in every continuation |
| Drain.DrainerIsWokenIff | pkg/utils/workqueue/playboyqueue.go:215-230 | a sleeping drainer can still be woken if and only if some item in process is dirty again |
| Drain.WakesNeverStuck | pkg/utils/workqueue/playboyqueue.go:354-366 | with a signal in every Done and one drainer, or a broadcast and any number, no drainer ever sleeps with nothing in process |
| Drain.WakesReturn | pkg/utils/workqueue/playboyqueue.go:255-259 | in those cases each call under way returns by at most two steps of its own once nothing is in process |
| Drain.SleepersAreLeftBehind | pkg/utils/workqueue/playboyqueue.go:222-229 | in every other case with a worker, a run that leaves a drainer asleep with everything finished |
| Drain.DrainersAreWokenIff | pkg/utils/workqueue/playboyqueue.go:246-259 | the exact condition, over the way Done wakes others and the callers, for ShutDownWithDrain never to be left asleep; the code as written meets it only if nobody calls it |
| Protocol.RunsRefineTheMonitor | pkg/utils/controller/worker.go:73-103 | every run of workers and waiting loop, with their separate locks, is a run of the monitor |
| Retries.StepKeepsInv | pkg/utils/workqueue/playboyqueue.go:297-318 | every step keeps: counters equal outside their owner's update, the phase of each holder consistent with them, mutual exclusion |
| Retries.CountersStayEqual | pkg/utils/workqueue/playboyqueue.go:294-318 | in every run the queue's and the limiter's retry counts agree for each item not inside AddRateLimited or Forget |
| Retries.FailuresAreCounted | pkg/utils/workqueue/playboyqueue.go:297-312 | the count isFresh reads is the number of the item's failures since its last success, at every point of every run |
| Retries.DoneKeepsItsPromiseIff | pkg/utils/workqueue/playboyqueue.go:212-230 | in every reachable state Done does what its comment says if and only if the item is not dirty; a dirty item goes to the end of the fresh lane if it failed too often, else of the staled lane |
| Retries.FailuresAreRetriedOnce | pkg/utils/controller/worker.go:89-91 | over any run, per worker: failures are one for one requests sent, direct calls of q.add, or refusals, but for one still owed; a refusal happens only on a queue that is shutting down |
| Histories.FreshBudget | pkg/utils/workqueue/playboyqueue.go:388-442 | in every run each add of the waiting loop answers a request sent before, due when isFresh was called for it, and puts the item in the fresh lane if and only if its failures since its last success were then within the threshold; an item in process is only marked dirty |
| Histories.RetryIsRequested | pkg/utils/workqueue/playboyqueue.go:287-303 | in every run a rate limited retry sent has failed at least once and is due after the fast delay while its failures are within the threshold, else after the slow one |
| Histories.RetryComesBack | pkg/utils/workqueue/playboyqueue.go:119-121 | in every run, for every retry sent and every later add of its item by the loop: if the item is not tried again in between, the retry was sent for the fast delay and the item re-enters the fresh lane when it is one of the first `threshold` failures, else it was sent for the slow delay and the item re-enters the staled lane; the add is not early |
| Histories.EveryWayIntoALane | pkg/utils/workqueue/playboyqueue.go:215-230 | in every run, whatever enters a lane enters at its end: added from outside as fresh, by the loop to the lane of the budget, or by Done to the other lane; in no other way |
| Returns.PendingUntilAdded | pkg/utils/workqueue/playboyqueue.go:423-428 | in every run a request received stays on its way, no later than asked, until the loop adds its item |
| Returns.RequestIsNeverLost | pkg/utils/workqueue/playboyqueue.go:287-291 | in every run, at every point after a request is sent, it is in the channel, on its way with the loop no later than asked, or answered |
| Returns.DelayedAddsAreAnswered | pkg/utils/workqueue/playboyqueue.go:390-413 | in every run: when the loop goes to sleep each request it received that was due by its reading has been answered since |
| Returns.RetryIsAnswered | pkg/utils/workqueue/playboyqueue.go:390-428 | in every run, when the loop goes to sleep, each retry sent before is in the channel, not due by the reading, or answered by an add whose isFresh was read after the sending; an item not tried again was added to the lane of its failures at the sending |
| Returns.FailingItemsAreSomewhere | pkg/utils/controller/worker.go:89-91 | in every state of every run an item with failures since its last success is dirty, in the channel, waiting, in the loop's hand, or with a worker that has still to decide or owes it a retry, unless the queue is shutting down |
| Returns.AnsweredAtMostOnce | pkg/utils/workqueue/helper.go:87-101 | in every run the loop adds an item no oftener than it received requests for it |
| Requeues.RequeueIsAtOnce | pkg/utils/controller/worker.go:95-100 | in every run: after a worker's own add, its Done queues the item at once if and only if the queue was open at that add or the item dirty before |
| Requeues.RequeuedItemIsStaled | pkg/utils/controller/worker.go:95-100 | in every run an item its worker requeues after a success is put by that turn's Done at the end of the staled lane, whatever others do, unless the queue was shut down and the item clean |
| Endings.WakeLeadsToDrain | pkg/utils/workqueue/playboyqueue.go:413-421 | on an open queue timer or heartbeat lead the sleeping loop to a drain by the present reading of the clock |
| Endings.TurnsBeginOpen | pkg/utils/workqueue/playboyqueue.go:384-388 | in every run a turn drains by the reading at its beginning, none begins at a queue that is shut down, and a request received is delayed if and only if it is due later than now |
| Endings.EndedIsForever | pkg/utils/workqueue/playboyqueue.go:414-415 | in every run the loop ends only on a shut down queue and then does nothing more |
| Endings.LastTurn | pkg/utils/workqueue/playboyqueue.go:384-386 | in every run after a shutdown the loop finishes at most the drain it is in and goes to sleep at most once more |
| Endings.ShutDownEndsTheLoop | pkg/utils/workqueue/playboyqueue.go:384-415 | from its top and from its select the loop can end at once when the queue is shut down |
| Departures.StaledRetryWakesTheWrongWorker | pkg/utils/workqueue/playboyqueue.go:423-428 | for any threshold and delays with a slow delay, a run in which an item fails once too often and its staled return wakes a GetFresh worker beside a sleeping Get worker |
| Departures.StaleReadingWakesTheWrongWorker | pkg/utils/workqueue/playboyqueue.go:426-428 | the same for any delays, by an add whose isFresh was read before the item succeeded |
| Departures.WakeupsAreSafeIffUniform | pkg/utils/workqueue/playboyqueue.go:166-210 | for any threshold, delays and set of callers: no state reachable with the lanes the code computes has lost a wake-up if and only if the workers all use Get or all use GetFresh |
| Departures.DirtyWhileHeld | pkg/utils/workqueue/playboyqueue.go:339-342 | with any worker, a run to a state in which one item is dirty, counted by the depth gauge, and Len is 0 |
| Departures.StaledWorkerTakesFresh | pkg/utils/controller/playboytype.go:137-141 | with any Get worker, a reachable state in which it takes an item of the fresh lane |
| Departures.FreshWorkerLeavesWork | pkg/utils/workqueue/playboyqueue.go:190-230 | with any GetFresh worker, a run with the code's choice of lanes after which all workers are gone and an accepted item lies in the staled lane |
| Departures.NothingLeftIffGetOnly | pkg/utils/workqueue/playboyqueue.go:166-230 | for any callers with a worker among them: no state reachable with the lanes the code computes leaves anything accepted behind if and only if no worker uses GetFresh |
| Metrics.SumOfAgesFrom | pkg/utils/workqueue/metrics.go:158-160 | the sum is that of the times passed since each item's start, whichever item the map yields first |
| Metrics.OldestBoundsTotal | pkg/utils/workqueue/metrics.go:153-167 | with no negative age, oldest <= total <= number of items * oldest |
| Metrics.DefaultMetrics.Add | pkg/utils/workqueue/metrics.go:117-127 | counts the add and keeps the metrics in step with a queue that marks the item dirty |
| Metrics.DefaultMetrics.Get | pkg/utils/workqueue/metrics.go:129-140 | observes one latency for an item with an add time and keeps in step with a queue that hands the item out |
| Metrics.DefaultMetrics.Done | pkg/utils/workqueue/metrics.go:142-151 | observes one duration for an item with a start time and keeps in step with a queue that lets the item go |
| Metrics.DefaultMetrics.UpdateUnfinishedWork | pkg/utils/workqueue/metrics.go:153-167 | whatever the iteration order: the total of all ages, the largest age (at least 0), and the bounds between them |
| QueueSpec.OthersLeaveMine | pkg/utils/workqueue/playboyqueue.go:162-164 | whatever other goroutines do within the rule for Done, held items stay held and a shut down queue stays shut down |
| QueueSpec.OthersInOrder | pkg/utils/workqueue/playboyqueue.go:162-164 | what others do happens one after the other, and nothing is left out but a Done for an item not in process or in the caller's hands |
| QueueSpec.OpKeepsValid | pkg/utils/workqueue/playboyqueue.go:147-318 | each public operation keeps the lane promise |
| QueueSpec.OpIsMonitorStep | pkg/utils/workqueue/playboyqueue.go:147-244 | each public operation is one step of the monitor, or none: Get's caller ends up with the head, told of the shutdown, or parked; Done's idle; and a sleeper is woken if and only if the operation signals |
| QueueSpec.GetMeans | pkg/utils/workqueue/playboyqueue.go:162-210 | whatever happens during its waits: Get's item is in hand and no longer dirty, shutdown is reported only with nothing left to take, and a call on a shut down queue never sleeps |
| QueueSpec.GetTestsAgain | pkg/utils/workqueue/playboyqueue.go:169-187 | Get is asleep at the end if and only if after every wait there is neither anything to take nor a shutdown; otherwise it ends after the first wait of which that is not so, with the first fresh item, else the first staled one if allowed, else the shutdown |
| QueueSpec.SignalsIffItQueues | pkg/utils/workqueue/playboyqueue.go:340-349 | an operation signals if and only if an item enters a lane; ShutDown broadcasts if and only if it is the first |
| QueueSpec.OthersSignalIff | pkg/utils/workqueue/playboyqueue.go:349 | somebody wakes a sleeper if and only if one of the operations signals in the state it meets |
| QueueSpec.UnsignalledMissNothing | pkg/utils/workqueue/playboyqueue.go:169-171 | whatever others do without reaching a Signal, a Get asleep has nothing to take |
| QueueSpec.DrainMeans | pkg/utils/workqueue/playboyqueue.go:354-366 | ShutDownWithDrain returns only with nothing in process; called while items are in process and none of them is dirty, it never returns, whatever others do |
| QueueSpec.DrainTestsAgain | pkg/utils/workqueue/playboyqueue.go:255-259 | ShutDownWithDrain returns if and only if nothing is in process at the call or after one of its waits, each wait before having been ended by a signal; a wait without a signal does not end |
| PlayboyQueues.FastSlowRateLimiter.When | pkg/utils/workqueue/playboyqueue.go:303 | the limiter's contract: count the call, then fast up to the threshold, slow beyond |
| PlayboyQueues.PlayboyQueue.constructor | pkg/utils/workqueue/playboyqueue.go:60-73 | a new queue is empty, valid and in step with its metrics |
| PlayboyQueues.PlayboyQueue.Add | pkg/utils/workqueue/playboyqueue.go:147-151 | on an open queue an item neither dirty nor in process goes to the end of the fresh lane, one in process is marked dirty, and nothing else changes; its add time is the reading; otherwise nothing happens |
| PlayboyQueues.PlayboyQueue.AddTo | pkg/utils/workqueue/playboyqueue.go:327-350 | field by field: ignored when shut down or dirty, dirty only when in process, else appended to the chosen lane; add time and metrics kept in step |
| PlayboyQueues.PlayboyQueue.Len | pkg/utils/workqueue/playboyqueue.go:153-160 | the number of dirty items not being processed |
| PlayboyQueues.PlayboyQueue.AddAfter | pkg/utils/workqueue/playboyqueue.go:270-292 | field by field: nothing when shutting down; without delay added at once, fresh if and only if the count of failures is within freshThreshold; else one request due at now + duration |
| PlayboyQueues.PlayboyQueue.AddRateLimited | pkg/utils/workqueue/playboyqueue.go:294-304 | field by field: both counts go up by one; on an open queue one request after the limiter's fast delay for the first maxFastAttempts counts and its slow delay beyond, or an immediate add where that delay is not positive |
| PlayboyQueues.PlayboyQueue.Forget | pkg/utils/workqueue/playboyqueue.go:306-314 | clears both counts of the item and changes nothing else |
| PlayboyQueues.PlayboyQueue.TakeNext | pkg/utils/workqueue/playboyqueue.go:172-187 | removes the head of the fresh lane, or of the staled lane if allowed, marks it in process and not dirty, and observes as latency the time since it was added |
| PlayboyQueues.PlayboyQueue.Get | pkg/utils/workqueue/playboyqueue.go:166-210 | the loop around Wait: result and state are those of the specification for every sequence of things others do meanwhile; processing starts at the reading; with nothing to take on a shut down queue it returns at once |
| PlayboyQueues.PlayboyQueue.Done | pkg/utils/workqueue/playboyqueue.go:215-230 | field by field: the item is no longer in process, and if dirty is appended to the fresh lane when its count exceeds freshThreshold, else to the staled lane; its duration is the time since its Get |
| PlayboyQueues.PlayboyQueue.ShutDown | pkg/utils/workqueue/playboyqueue.go:235-244 | sets shuttingDown and nothing else |
| PlayboyQueues.PlayboyQueue.ShutDownWithDrain | pkg/utils/workqueue/playboyqueue.go:255-259 | shuts down, waits while something is in process, each wait ending only if somebody signals in it; result and state are those of the specification whatever others do meanwhile |
| PlayboyQueues.PlayboyQueue.UnfinishedWorkTick | pkg/utils/workqueue/playboyqueue.go:457-466 | reports the total and the largest age of exactly the items in process until the queue shuts down |
| PlayboyQueues.PlayboyQueue.Perform | pkg/utils/workqueue/playboyqueue.go:147-318 | any operation by anybody leaves the queue valid and the metrics in step with it: depth gauge = the number of dirty items, adds = latencies + the number of dirty items, latencies = durations + the number in process; and tells whether it reaches a Signal |
| PlayboyQueues.PlayboyQueue.Wait | pkg/utils/workqueue/playboyqueue.go:170 | any sequence of operations by others, Dones for items in other hands left out, and whether one of them signals; the items in hand keep their start times |
| PlayboyQueues.PlayboyQueue.Receive | pkg/utils/workqueue/playboyqueue.go:423 | the first request leaves the channel: exactly the log's Received |
| PlayboyQueues.PlayboyQueue.PassOn | pkg/utils/workqueue/playboyqueue.go:398 | q.add to the lane isFresh says: exactly the log's PassedOn |
| PlayboyQueues.PlayboyQueue.PerformLog | pkg/utils/workqueue/playboyqueue.go:383-445 | whatever log explains a state of the queue, the queue's own methods performing it reach that state |
| DelayHeap.SwapWithParent | pkg/utils/workqueue/helper.go:47-59 | swapping with a later parent moves the only disorder one level up |
| DelayHeap.SwapWithChild | pkg/utils/workqueue/helper.go:47-59 | swapping with the earlier child moves the only disorder one level down |
| DelayHeap.ChangeOneKey | pkg/utils/workqueue/helper.go:89-94 | after a key changes in place only the order around it is left to repair |
| DelayHeap.RootIsEarliest | pkg/utils/workqueue/helper.go:39-47 | heap order puts the earliest time at the root |
| DelayHeap.WaitForPriorityQueue.Swap | pkg/utils/workqueue/helper.go:55-59 | exchanges two nodes, keeps every back-pointer right |
| DelayHeap.WaitForPriorityQueue.Push | pkg/utils/workqueue/helper.go:63-68 | appends the node with its index |
| DelayHeap.WaitForPriorityQueue.Pop | pkg/utils/workqueue/helper.go:72-78 | removes the last node and sets its index to -1 |
| DelayHeap.WaitForPriorityQueue.Up | pkg/utils/workqueue/helper.go:41-46 | container/heap's up, on the five methods: restores heap order above a node, same nodes, back-pointers right |
| DelayHeap.WaitForPriorityQueue.Down | pkg/utils/workqueue/helper.go:41-46 | container/heap's down: restores heap order below a node among the first n, and tells whether anything moved |
| DelayHeap.WaitForPriorityQueue.HeapInit | pkg/utils/workqueue/playboyqueue.go:378-379 | container/heap's Init: orders any nodes |
| DelayHeap.WaitForPriorityQueue.HeapPush | pkg/utils/workqueue/helper.go:99 | container/heap's Push: a valid heap with one node more |
| DelayHeap.WaitForPriorityQueue.HeapPop | pkg/utils/workqueue/playboyqueue.go:397 | container/heap's Pop: an earliest node leaves with index -1, the rest is a valid heap |
| DelayHeap.WaitForPriorityQueue.HeapFix | pkg/utils/workqueue/helper.go:93 | container/heap's Fix: repairs the heap after one key changed in either direction |
| DelayHeap.WaitForPriorityQueue.Hasten | pkg/utils/workqueue/helper.go:91-93 | lowering the key of a shared node in place and fixing gives a valid heap of the same nodes |
| DelayedItems.Delayed.Insert | pkg/utils/workqueue/helper.go:87-101 | heap and map together become the pointwise minimum of the old map and the entry, and stay in step node by node |
| DelayedItems.Delayed.TakeEarliest | pkg/utils/workqueue/playboyqueue.go:397-399 | removes one earliest entry from heap and map |
| DelayedItems.Delayed.PeekShowsTheEarliest | pkg/utils/workqueue/playboyqueue.go:391-395 | Peek shows an earliest entry, and there is one if and only if anything is delayed |
| LoopLog.ReceiveLate | pkg/utils/workqueue/playboyqueue.go:423-425 | delaying a request keeps the contract of delayed adds |
| LoopLog.ReceiveDue | pkg/utils/workqueue/playboyqueue.go:426-428 | passing a due request on at once keeps it, also beside an entry waiting for the same item |
| LoopLog.PassOn | pkg/utils/workqueue/playboyqueue.go:397-399 | passing on an entry whose time has come keeps it |
| LoopLog.Quiet | pkg/utils/workqueue/playboyqueue.go:402-411 | going to sleep keeps it when nothing is due and the timer is set for the earliest entry |
| LoopLog.ExplainsMore | pkg/utils/workqueue/playboyqueue.go:383-444 | accounts of consecutive stretches of a log compose |
| WaitingLoops.DrainReady | pkg/utils/workqueue/playboyqueue.go:390-400 | passes on exactly the entries due at the reading, each once, in order of time, and keeps exactly the later ones |
| WaitingLoops.DrainedKeepsContract | pkg/utils/workqueue/playboyqueue.go:390-400 | such a drain keeps the contract of delayed adds |
| WaitingLoops.ReceiveOne | pkg/utils/workqueue/playboyqueue.go:423-428 | a request is inserted if due later than the reading, else passed on |
| WaitingLoops.ReceiveAll | pkg/utils/workqueue/playboyqueue.go:423-442 | requests are taken in channel order until the channel is empty, each delayed or passed on by its own reading of the clock; contract and account are kept |
| WaitingLoops.DrainAndSleep | pkg/utils/workqueue/playboyqueue.go:388-413 | the first part of a turn: exactly the due entries are passed on in order of time, then the timer, then sleep while others run |
| WaitingLoops.WaitingLoop | pkg/utils/workqueue/playboyqueue.go:369-445 | for every sequence of turns: each turn made is the one its round calls for (drain by its reading, earliest timer, others, channel emptied if a request woke it), none begins at a queue that is shut down, and started on such a queue it does nothing; each q.add answers an earlier request whose time had come; whenever the loop sleeps every request due by its reading has been passed on since received; no request is answered twice; the timer never overshoots; the log explains every change of the queue |
| Workers.Decide | pkg/utils/controller/worker.go:89-101 | AddRateLimited on error; Forget, AddAfter and Add on success as the result says, with others at work between the calls |
| Workers.ProcessItemFromQueue | pkg/utils/controller/worker.go:73-103 | one Get, the decision by the outcome for the item it returned, one Done, on the whole state, with others at work during the waits, the reconcile, and between any two calls; the duration observed is that from Get to Done |
| Workers.FailureContract | pkg/utils/controller/worker.go:89-91 | a failure raises both counts by one and asks for one re-add after the limiter's delay unless the queue is shutting down; whatever others do before Done, the request stands, the item stays dirty if it is, and Done lets go of it and queues it if and only if it is dirty |
| Workers.SuccessContract | pkg/utils/controller/worker.go:92-101 | whatever others do between the calls: Done lets go of the item and queues it if it was dirty or a requeue was asked for with the queue still open, and not if the queue was shut down before with the item clean; the delayed request is sent |
| Workers.QuietSuccess | pkg/utils/controller/worker.go:92-101 | undisturbed, a success clears both counts, and the item is queued again if and only if it was dirty or a requeue was asked for before shutdown |
| Workers.TurnLetsGo | pkg/utils/controller/worker.go:73-103 | a turn that got an item has let go of it; a worker is told to stop only with nothing left to take, and never sleeps at a queue shut down before |
| Workers.TurnGoesByTheOutcome | pkg/utils/controller/worker.go:78-94 | whatever others do: a turn handles the item its Get returned and goes by what reconcile says of that item; unless others touch its counts they end one higher after a failure, zero after a success |
| Workers.RequeueAfterWaitsIff | pkg/utils/controller/controller.go:37-39 | RequeueAfter waits as documented if and only if the queue is shutting down or the item is dirty anyway; otherwise the code also adds it at once |
| Workers.AddIsFreshIff | pkg/utils/workqueue/playboyqueue.go:147-151 | after an Add an item is fresh if and only if it was already, or the queue is open and the item neither dirty nor in process |
| Workers.RequeuedItemIsStaled | pkg/utils/controller/worker.go:95-100 | an item requeued by its own worker ends in the staled lane |
| Workers.RetryCycle | pkg/utils/workqueue/playboyqueue_test.go:210-235 | one failure in any open queue, for any delays: with a delay the item leaves and comes back fresh within the threshold, staled beyond; without one Done puts it at once in the other lane |
| Workers.WorkersLeaveNothingTheyCanTake | pkg/utils/controller/worker.go:63-67 | a worker stops only at a queue that is shut down with nothing left that it could take |
| Workers.WorkGoesOn | pkg/utils/controller/worker.go:63-67 | turns follow one another as long as each handles an item, in order; the worker ends in the first that does not, told to stop or asleep |
| Workers.Work | pkg/utils/controller/worker.go:60-68 | one goroutine of Run: turns are repeated until processItemFromQueue returns false |
| Turns.TurnIsARun | pkg/utils/controller/worker.go:73-103 | from any reachable state with failuresLock free, for any reconcile, an undisturbed turn of the class's worker is a run of the protocol: same queue, counters and channel, worker idle, told to stop or parked; the item is the first fresh one, else the first staled one, and its count goes by its own outcome |
| LoopTurns.DrainIsARun | pkg/utils/workqueue/playboyqueue.go:384-413 | from any reachable state with the loop at its top, failuresLock free and the queue open, what the drain over the heap is proved to do is a run of the protocol: same queue, same items left waiting |
| LoopTurns.ReceivingIsARun | pkg/utils/workqueue/playboyqueue.go:423-442 | from any reachable state with the loop in its select, failuresLock free and something in the channel, so is what emptying the channel is proved to do |
| LoopTurns.RoundIsARun | pkg/utils/workqueue/playboyqueue.go:383-444 | from any reachable state with the loop at its top and failuresLock free, a whole turn as WaitingLoop is proved to make it, with nobody at work in its sleep, is a run of the protocol back to the top |

## Left out

- Real time, tickers, timers and the heartbeat: clock readings are integers, one for each critical section (one for each item where ages are summed), and the waiting loop may be woken at any time.
- Reading the clock for a request and sending it are one step of `Protocol`, and so are receiving one and the reading that decides whether it is due.
- The capacity of `waitingForAddCh`: a send never blocks, and a request travels as a value, its heap node being made when it is received.
- WaitingLoops.WaitingLoop: others act while it sleeps, not between its other steps; `LoopTurns` makes each part a run of `Protocol`, where `Histories.FreshBudget`, `Returns.DelayedAddsAreAnswered` and `Returns.AnsweredAtMostOnce` state its contract with everybody acting between any two of them.
- WaitingLoops.ReceiveAll: nobody else acts while it empties the channel, which `Protocol` allows; like the rest of the loop it acts on the queue through functions, which `PlayboyQueues.PlayboyQueue.PerformLog` ties to the object.
- Workers.RequeuedItemIsStaled: undisturbed between the outcome and Done; `Requeues.RequeuedItemIsStaled` is the statement among other goroutines.
- Workers.RequeueAfterWaitsIff: undisturbed between the outcome and Done; `Requeues.RequeueIsAtOnce` is the statement among other goroutines.
- Workers.RetryCycle: nobody else acts; `Histories.RetryComesBack` and `Returns.RetryIsAnswered` are the statements over all runs.
- QueueSpec.OpIsMonitorStep: single critical sections; whole turns are in `Turns.TurnIsARun`.
- `AddAfter`, `AddRateLimited` and `Forget` called for an item by a goroutine other than the worker that holds it: nothing in the repository does so, and `Protocol` has no such step.
- Which goroutine a signal wakes first, fairness and progress in time: the theorems are about every run, not about when steps happen.
- PlayboyQueues.PlayboyQueue.Done: the class does not say whom a signal wakes; parking and waking are in `Monitor`, to whose steps `QueueSpec.OpIsMonitorStep` ties the operations.
- Metrics.DefaultMetrics.UpdateUnfinishedWork: ages are whole units and their sums exact, where the source adds floating-point seconds.
- A panic in reconcile, reconcile timeouts and contexts, and the pacing of `NonSlidingUntil`.
- `Run` with a concurrency below one, and starting the goroutines: `Monitor` has any number of workers, `Workers.Work` is one of them.
- `rateLimitingType` (a threshold below one), which hands everything to a library queue; `Departures.NothingLeftIffGetOnly` asks for a threshold that is not negative.
- The choice of a metrics provider, and `retry()`, which counts nothing in the metrics in use.
- Reconcilers, predicates, event handlers, informers, clients, leader election and command-line wiring.

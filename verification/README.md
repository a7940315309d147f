# A verified model of the SLEdge scheduling runtime

SLEdge runs WebAssembly functions ("sandboxes") on worker threads that are fed by one listener thread. This project
models the part of its runtime that decides what runs when, and proves what that part relies on:

| file | what it models |
|---|---|
| `Heap.dfy`, `PriorityQueue.dfy` | the 1-based array min-heap with a memoised head priority (`priority_queue.h`) |
| `Deque.dfy`, `DequeLaws.dfy` | the work-stealing deque, one owner and any number of thieves, split into atomic reads, writes and compare-and-swaps (`deque.h`) |
| `Edf.dfy` | earliest-deadline-first scheduling: a listener, a shared heap, any number of workers with local heaps, a decision split into its four steps |
| `Tenants.dfy`, `Ranks.dfy`, `LocalMtds.dfy`, `GlobalMtds.dfy`, `Mtds.dfy` | the multi-tenancy scheduler: tenant classes, budgets, replenishment timeouts, promotion and demotion, and the decision that joins the two levels |
| `MtdsRun.dfy` | runs of that scheduler: a listener and any number of workers with their decisions split into steps, class heaps, budgets, promotions and demotions on both levels |
| `PsList.dfy`, `Fifo.dfy` | the intrusive circular list relinked in place, and FIFO scheduling with its cleanup queue |
| `Accounting.dfy`, `Worker.dfy`, `WorkerLaws.dfy` | one worker: idle loop, cooperative and preemptive switches, sandbox states, context variants, deferred alarms, time and budget accounting, with a SIGALRM possible between any two steps |
| `PerfWindow.dfy`, `Admissions.dfy`, `AdmissionsLaws.dfy`, `AdmissionsExact.dfy`, `AdmissionsInfo.dfy` | the sorted circular window of execution times, admissions control with 64-bit wrap-around and when it is exact, and the estimate that joins them |
| `Options.dfy`, `Sets.dfy`, `Bags.dfy` | optional values, sizes of finite sets, sums of multisets |

Data structures that the C code updates in place are classes whose methods are proved against functions of the old
state; the multi-tenancy runs step through the very functions that the classes' contracts name (`AddSandbox`,
`RemoveSandbox`, `MoveTenant`, `AddRequest`, `RemoveRequest`, `PromoteRequest`). Protocols between threads, or between a thread and its signal handler, are step machines: `Next` is one atomic
step, `Run` any finite sequence of steps, and the main theorems speak of `Run(s, steps)` for every initial `s` and every
`steps`. Invariants say what no run does; beside them stand laws of what each enabled step and each undisturbed
operation does achieve. A panic or a failing `assert` of the modelled C code is a flag (`failed`, `assertFailed`, `fault`), a `Panic`
outcome, a result of its own (`panics`, `aborts`, `outcome`), a precondition where the assertion is about the caller, or
an `assert` in a method body, and is proved unreachable or is given its exact condition.

Some things the code does are worth knowing before reading the tables:

* `priority_queue_delete_nolock` percolates only down. Deleting slot `k` therefore keeps heap order if and only if the
  moved item is not earlier than `k`'s parent; the slots for which that holds whatever the priorities are exactly the
  root, the last slot, and the slots whose parent lies on the path to the last slot. Every slot of a heap of at most five
  is of this kind, and one of a heap of six is not. The EDF runs only ever delete roots, and so do the per-tenant queues
  of the multi-tenancy runs and the global timeout heap. Timeouts and tenants leave the other heaps from anywhere, so
  their order is an invariant with at most five tenants only (the global guaranteed heap aside, see the next point).
* `priority_queue_percolate_down` asserts that it is not run by the listener (`runtime/include/priority_queue.h:171`), but
  `global_request_scheduler_mtds_add`, which only the listener may call, reaches it. A build with assertions, which is
  the default (`runtime/Makefile:53`), aborts, as long as no request is due at ULONG_MAX, exactly when a request is
  earlier than the head request of its tenant (`GlobalMtds.ListenerAssertsIff`; two requests are enough). Such a build never deletes a guaranteed tenant from the
  middle of the global heap, so there that heap is always ordered.
* Deadlines of ULONG_MAX break the global request queues in two ways: as an idle tenant's first request they leave the
  tenant out of its class heap (`GlobalMtds.FirstRequestIsSeenIff`), and behind other requests they end up as a queue
  that is not empty but does not answer a dequeue, which the code asserts against (`GlobalMtds.DequeueIsStuckIff`).
* The admission check wraps on 64 bits. The admitted total is exact in every run, and the underflow panic unreachable,
  if and only if for every route (2^64 - 64) / deadline + capacity does not exceed 2^64
  (`AdmissionsExact.ExactInEveryRunIff`). For capacities from 65 to 2^63 that means: if and only if no relative deadline
  is a single cycle.

## Model

| member | source | states |
|---|---|---|
| `Heap.RootIsMinimum` | runtime/include/priority_queue.h:470-489 | in an ordered heap the first slot is no later than any slot, however deep |
| `Heap.SiftUpRestoresOrder` | runtime/include/priority_queue.h:98-124 | percolating up repairs a heap whose only violation is above the appended slot |
| `Heap.SiftDownRestoresOrder` | runtime/include/priority_queue.h:166-200 | percolating down repairs a heap whose only violations are below the vacated slot |
| `Heap.RemoveAtBag` | runtime/include/priority_queue.h:411-417 | vacating a slot removes exactly one occurrence of its item and nothing else |
| `Heap.DeleteKeepsOrderIff` | runtime/include/priority_queue.h:405-421 | on an ordered heap, deleting slot k leaves it ordered if and only if the moved last item fits under k's parent |
| `Heap.SafeSlotsExactly` | runtime/include/priority_queue.h:405-421 | the slots whose deletion is safe for all priorities are exactly the root, the last one and those whose parent is an ancestor of the last slot |
| `Heap.FiveItemsAlwaysSafe` | runtime/include/priority_queue.h:405-421 | with at most five items every deletion is safe |
| `Heap.SixItemWitness` | runtime/include/priority_queue.h:405-421 | with six items deleting the fifth can lose heap order |
| `PriorityQueues.ApplyIsBagStep` | runtime/include/priority_queue.h:213-240 | each operation is a step of a bounded bag and keeps order and memo: a dequeue answers with a minimum, and does so if and only if some member is strictly below the target |
| `PriorityQueues.EveryRunIsSound` | runtime/include/priority_queue.h:361-379 | after any sequence of enqueues, conditional dequeues and grows the heap is ordered and the memo is the minimum, or ULONG_MAX when empty |
| `PriorityQueues.EveryRunIsABag` | runtime/include/priority_queue.h:213-240 | every single step of every such run is a step of the bag |
| `PriorityQueues.NothingLostOrInvented` | runtime/include/priority_queue.h:299-314 | over any such run, what was accepted equals what was handed out plus what is held |
| `PriorityQueues.PriorityQueue.EnqueueNolock` | runtime/include/priority_queue.h:361-379 | the array code computes the enqueue function, or reports a full queue and changes nothing |
| `PriorityQueues.PriorityQueue.PercolateUp` | runtime/include/priority_queue.h:98-124 | the loop computes the recursive sift, and the memo changes exactly when the item is alone or reaches the root |
| `PriorityQueues.PriorityQueue.FindSmallestChild` | runtime/include/priority_queue.h:132-158 | the child slot chosen, the right one on ties |
| `PriorityQueues.PriorityQueue.PercolateDown` | runtime/include/priority_queue.h:166-200 | for a caller other than the listener, or in a build without assertions, the loop computes the recursive sift; from the root the memo becomes the new head priority |
| `PriorityQueues.PriorityQueue.DequeueIfEarlierNolock` | runtime/include/priority_queue.h:213-240 | for a caller other than the listener, or in a build without assertions, the array code computes the conditional dequeue |
| `PriorityQueues.PriorityQueue.DeleteNolock` | runtime/include/priority_queue.h:405-421 | the scan and the vacated slot compute the delete of the first occurrence, or report that there is none; the assertion of the percolation is reached if and only if there are assertions and the listener deletes an item that is there |
| `PriorityQueues.PriorityQueue.TopNolock` | runtime/include/priority_queue.h:470-489 | the head if there is one |
| `PriorityQueues.PriorityQueue.GrowNolock` | runtime/include/priority_queue.h:299-314 | contents and memo survive, the capacity doubles or becomes one |
| `Deque.EveryRunKeepsInv` | runtime/include/deque.h:51-117 | the invariant of every interleaving of owner and thief steps |
| `Deque.ReturnedAtMostOnce` | runtime/include/deque.h:68-117 | in every interleaving only pushed items are returned and none is returned twice, by pop or by steal |
| `Deque.StolenInPushOrder` | runtime/include/deque.h:97-117 | stolen items come out in push order |
| `Deque.RestIsInTheDeque` | runtime/include/deque.h:51-95 | between the owner's operations the slots from top to bottom hold exactly the pushed items not returned, each once and in push order |
| `Deque.EmptyPopIsTruthful` | runtime/include/deque.h:68-95 | a pop that reports empty does so only when every pushed item has been returned |
| `Deque.NoAssertFails` | runtime/include/deque.h:51-117 | no asserted compare-and-swap fails and no index leaves the array |
| `DequeLaws.EmptyStealIsTruthful` | runtime/include/deque.h:103-111 | in every interleaving a steal answers empty if and only if the top it read is not below bottom; unless the owner is in the middle of a pop, every pushed item has then been returned |
| `DequeLaws.StealTakesTheOldest` | runtime/include/deque.h:113-116 | a steal that reaches its swap takes the oldest item held if top is still what it read, and otherwise nothing |
| `DequeLaws.LostStealIsTruthful` | runtime/include/deque.h:114-114 | a steal that loses its swap lost to another take: an item was handed out since it read top |
| `DequeLaws.PushIsRefusedIff` | runtime/include/deque.h:51-59 | a push is refused if and only if bottom less the top it read is at least the size |
| `DequeLaws.SoloPush` | runtime/include/deque.h:51-66 | an undisturbed push is refused if and only if size items are held; otherwise the item is the newest held |
| `DequeLaws.SoloPop` | runtime/include/deque.h:69-96 | an undisturbed pop takes the newest item held, or finds nothing when all have been returned |
| `DequeLaws.SoloSteal` | runtime/include/deque.h:103-117 | an undisturbed steal takes the oldest item held, or finds nothing when all have been returned |
| `Edf.EveryRunKeepsInv` | runtime/include/scheduler.h:110-133 | the invariant of every run of listener and workers |
| `Edf.NoPanic` | runtime/include/scheduler.h:110-133 | no panic or assert of the decision, of the local add with its grow, or of the local delete is reached |
| `Edf.RunningIsLocalRoot` | runtime/src/local_runqueue_minheap.c:33-75 | the running sandbox is the local root, the local heap was pulled in strictly decreasing deadline order, and it is ordered with an exact memo |
| `Edf.FinishKeepsWorker` | runtime/include/sandbox_set_as_returned.h:33-38 | deleting the running sandbox is a root delete and keeps the worker's invariant |
| `Edf.DecisionIsEarliest` | runtime/include/scheduler.h:110-133 | the sandbox returned is no later than the whole local heap and than the global heap at the peek or removal that settled the decision |
| `Edf.SeenIsTheGlobalHeap` | runtime/src/global_request_scheduler_minheap.c:46-62 | that global heap is the one at the worker's own latest peek or removal in the run, and the worker has not changed since |
| `Edf.InExactlyOnePlace` | runtime/src/global_request_scheduler_minheap.c:18-62 | every admitted sandbox is in exactly one place, once: the global heap, one local heap, or done |
| `Edf.TriageIsExact` | runtime/include/scheduler.h:471-478 | if the would-preempt test is false a whole decision changes nothing at all; if true it changes the running sandbox |
| `Edf.ArriveIsExact` | runtime/src/global_request_scheduler_minheap.c:18-28 | an arrival is admitted to the global heap if and only if there is room |
| `Edf.FinishIsExact` | runtime/include/sandbox_set_as_returned.h:33-38 | the finishing sandbox leaves its local heap and is done; nothing else changes place |
| `Edf.LeaveIsExact` | runtime/include/scheduler.h:423-446 | a worker that leaves its finished sandbox has no current one, a cleared mirror, and decides anew |
| `Edf.SoloDecisionIsEarliest` | runtime/include/scheduler.h:110-133 | an undisturbed decision makes the earliest of the local and the global heap current, or nothing when the local heap is empty and nothing global is due before ULONG_MAX |
| `Edf.SoloDecisionAfterFinish` | runtime/include/scheduler.h:423-468 | so does the undisturbed decision after a sandbox has finished |
| `Tenants.NextTimeoutOnGrid` | runtime/include/tenant_functions.h:149-155 | the next timeout lies on the period grid from boot, later than the clock by at most one period |
| `Tenants.GridPointIsUnique` | runtime/include/tenant_functions.h:149-155 | there is only one such point, so the timeout is determined |
| `LocalMtds.LocalRunqueue.constructor` | runtime/include/tenant_functions.h:50-58 | every tenant starts idle, guaranteed if and only if paid, with all heaps exact and ordered |
| `LocalMtds.LocalRunqueue.Add` | runtime/src/local_runqueue_mtds.c:52-89 | panics if and only if the tenant's queue is full; otherwise each tenant is in the heap of its class exactly once iff busy, and in the timeout heap exactly once iff busy and paid; the first sandbox of a paid tenant starts its timeout at the next point of its grid, and no other timeout changes; one sandbox more is held, ordered queues and, with at most five tenants, ordered class heaps stay ordered, and no other panic is reachable |
| `LocalMtds.AddStartsTimeout` | runtime/src/local_runqueue_mtds.c:69-74 | an add changes a timeout only for an idle paid tenant, to the 64-bit word of the point of its grid from boot that follows the clock reading within one period |
| `LocalMtds.LocalRunqueue.Remove` | runtime/src/local_runqueue_mtds.c:96-124 | panics if and only if the sandbox is absent; otherwise exactly it is gone, membership stays exact, and a paid tenant that becomes idle is guaranteed again; removing a tenant's head sandbox keeps ordered what was ordered; an ordered timeout heap stays ordered if and only if no timeout is stopped or the one moved into its place fits below its parent |
| `LocalMtds.LocalRunqueue.GetNext` | runtime/src/local_runqueue_mtds.c:134-160 | nothing if and only if the worker holds no sandbox; otherwise the head sandbox of the head tenant, guaranteed with budget left at its last reading, or default with no guaranteed tenant busy; only tenants read as out of budget were demoted; from ordered queues it is the earliest of its tenant and, with at most five tenants, of its whole class |
| `LocalMtds.LocalRunqueue.Demote` | runtime/src/local_runqueue_mtds.c:210-225 | moves the tenant between the class heaps without reaching either panic |
| `LocalMtds.LocalRunqueue.Promote` | runtime/src/local_runqueue_mtds.c:188-203 | moves the tenant between the class heaps without reaching either panic |
| `LocalMtds.LocalRunqueue.ProcessPromotions` | runtime/src/local_runqueue_mtds.c:233-261 | terminates; each tenant is untouched, or was due and is now guaranteed with a timeout on its grid within a period of a clock reading; from an ordered timeout heap no timeout is left due; ordered queues and class heaps stay ordered |
| `LocalMtds.RetireKeeps` | runtime/src/local_runqueue_mtds.c:120-123 | stopping a timeout leaves an ordered heap ordered if and only if the one moved into its place fits below its parent, and with at most five paid tenants always |
| `Ranks.RekeyDeleteSound` | runtime/include/priority_queue.h:405-421 | deleting a tenant whose priority changed while it was in the heap keeps order and memo, from the root or from any slot of a heap of at most five |
| `Ranks.AddRanked` | runtime/src/local_runqueue_mtds.c:60-88 | after a sandbox is added to a tenant, inserting an idle tenant, re-adding one whose head drops and leaving any other alone keeps both class heaps ordered by the new head deadlines |
| `Ranks.TakeRanked` | runtime/src/local_runqueue_mtds.c:111-119 | after a sandbox leaves a tenant, deleting the tenant and re-adding it if still busy keeps both class heaps ordered by the new head deadlines |
| `Ranks.HeadIsEarliestOfClass` | runtime/src/local_runqueue_mtds.c:140-157 | the head sandbox of the head tenant of an ordered class heap is the earliest of all sandboxes of the class |
| `LocalMtds.TopsAreBusy` | runtime/src/local_runqueue_mtds.c:140-157 | the head tenants of the class heaps are busy and of that class, and both heaps are empty iff the worker holds nothing |
| `LocalMtds.AddSandboxKeeps` | runtime/src/local_runqueue_mtds.c:52-89 | as a function of the queues, an add keeps membership exact and what can be ordered ordered, and reaches no panic on a class heap |
| `LocalMtds.RemoveHeadKeeps` | runtime/src/local_runqueue_mtds.c:96-124 | so does the removal of a tenant's head sandbox |
| `GlobalMtds.GlobalQueues.Add` | runtime/src/global_request_scheduler_mtds.c:55-91 | panics if and only if the tenant's queue is full; aborts where the rekeying delete percolates on the listener, which in a build with assertions is if and only if the request overtakes its tenant's head; otherwise one request more is held and the class heaps fit the new queues if and only if the deadline is below ULONG_MAX or the tenant was busy; below ULONG_MAX the whole invariant holds |
| `GlobalMtds.GlobalQueues.RemoveWithMtClass` | runtime/src/global_request_scheduler_mtds.c:124-186 | hands out a request if and only if one is eligible; it is the earliest of the head tenant, guaranteed with positive budget, or default only if no guaranteed tenant has requests; it is the earliest of its whole class with at most five tenants, and for guaranteed tenants always in a build with assertions; nothing is lost or duplicated; the head tenant is demoted exactly when it is out of budget |
| `GlobalMtds.GlobalQueues.DemoteTop` | runtime/src/global_request_scheduler_mtds.c:30-47 | moves the tenant to the default heap and class without reaching either panic |
| `GlobalMtds.GlobalQueues.BecomeGuaranteed` | runtime/src/global_request_scheduler_mtds.c:264-289 | makes the tenant guaranteed, whether idle or busy, with exact heaps and no panic |
| `GlobalMtds.GlobalQueues.TimeoutQueueAdd` | runtime/src/global_request_scheduler_mtds.c:253-257 | tracks the tenant with its next replenishment as a 64-bit word; the invariant, an ordered heap that holds each tracked tenant once, is kept for a tenant not tracked yet and lost for one tracked already; a full heap is left as it is and keeps the invariant if and only if it is still ordered |
| `GlobalMtds.GlobalQueues.ProcessPromotions` | runtime/src/global_request_scheduler_mtds.c:296-333 | each tenant is untouched or guaranteed with full budget and its next replenishment, as a 64-bit word, for its timeout; when the loop ends by itself no tracked timeout is due at its last reading; it ends within one turn per tracked tenant if no replenishment passes meanwhile, and does not end if a period passes in every turn |
| `GlobalMtds.ListenerAssertsIff` | runtime/src/global_request_scheduler_mtds.c:80-81 | the delete of an add finds its tenant, and so percolates on the listener, if and only if the tenant has requests and the new one is earlier than their head |
| `GlobalMtds.TwoRequestsReachTheAssert` | runtime/src/global_request_scheduler_mtds.c:80-81 | a tenant with a request due at 200 that gets one due at 100 meets that condition |
| `GlobalMtds.FirstRequestIsSeenIff` | runtime/src/global_request_scheduler_mtds.c:71-86 | after an add the class heaps fit the new queues if and only if the deadline is below ULONG_MAX or the tenant was busy |
| `GlobalMtds.DequeueIsStuckIff` | runtime/src/global_request_scheduler_mtds.c:170-172 | the dequeue of a non-empty request queue finds nothing, against the assertion, if and only if all its requests are due at ULONG_MAX |
| `GlobalMtds.LateRequestSticks` | runtime/src/global_request_scheduler_mtds.c:170-172 | a request due at ULONG_MAX added to any queue becomes stuck once the others are taken |
| `GlobalMtds.AddKeepsRanks` | runtime/src/global_request_scheduler_mtds.c:77-86 | an add that does not abort keeps the class heaps ordered: with at most five tenants both, in a build with assertions the guaranteed one always |
| `GlobalMtds.RemoveRequestKeeps` | runtime/src/global_request_scheduler_mtds.c:124-186 | as a function of the queues, a removal reaches neither a panic nor a stuck dequeue and keeps everything exact; it hands out a request if and only if one is eligible, fairly, and the earliest of its class where that heap is kept ordered |
| `GlobalMtds.AddKeeps` | runtime/src/global_request_scheduler_mtds.c:71-86 | skipping the re-add when the head deadline did not drop leaves the class heaps exact, and the re-add always has room |
| `GlobalMtds.TakeKeeps` | runtime/src/global_request_scheduler_mtds.c:170-181 | the delete after a dequeue finds the tenant, and deleting or re-adding it leaves the class heaps exact |
| `Mtds.GetNext` | runtime/include/scheduler.h:72-107 | a decision moves at most one sandbox from global to local and loses none; it pulls if and only if the early test on the peeks passes and a request is eligible; what it returns is from a guaranteed tenant with budget left, or from a default one only when no guaranteed tenant is busy, earliest of its tenant and, with at most five tenants, of its class; with up-to-date peeks it returns nothing if and only if the worker is idle and there is nothing to hand out |
| `Mtds.Pull` | runtime/include/scheduler.h:97-102 | a request moves if and only if it is eligible; panics if and only if its tenant's queue on the worker is full |
| `Mtds.FreshPeeksAreExact` | runtime/include/scheduler.h:83-95 | the early test on up-to-date peeks rules out only pulls that would fail |
| `Mtds.IdleWorkerIsServedIff` | runtime/src/global_request_scheduler_mtds.c:132-166 | an idle worker is given a request unless there is none or the head guaranteed tenant has no budget left |
| `MtdsRuns.EveryRunKeepsInv` | runtime/include/scheduler.h:72-107 | the invariant of every run, with all other threads between any two steps of a decision: all tenant queues ordered with exact memos, class heaps exact on both levels, nothing lost |
| `MtdsRuns.FaultsAreExplained` | runtime/src/local_runqueue_mtds.c:96-160 | a run stops only on a full queue, on an add that overtakes its tenant's head in a build with assertions, or after a request due at ULONG_MAX; otherwise no panic on a class heap is reached, a delete always finds its sandbox and an interrupted worker something to run |
| `MtdsRuns.RunningIsTenantRoot` | runtime/src/local_runqueue_mtds.c:134-160 | on every worker each tenant's queue is ordered, and the running sandbox is the root of its tenant's queue and the earliest there |
| `MtdsRuns.FinishIsRootDelete` | runtime/include/sandbox_set_as_returned.h:33-38 | deleting the running sandbox is a root delete of its tenant's queue and keeps the worker's invariant |
| `MtdsRuns.InExactlyOnePlace` | runtime/src/global_request_scheduler_mtds.c:124-186 | every admitted sandbox is in exactly one place, once: the request queues, one worker's queues, or done |
| `MtdsRuns.TenantsAreInTheirHeaps` | runtime/src/local_runqueue_mtds.c:52-225 | in every run, on every worker and in the request queues, each tenant is in exactly the heap its class names, once, if and only if it is busy; for the request queues unless a request is due at ULONG_MAX |
| `MtdsRuns.PullIsFair` | runtime/src/global_request_scheduler_mtds.c:124-186 | at every point of every run a removal hands out a request if and only if one is eligible, from a guaranteed tenant with positive budget, or from a default one only if no guaranteed tenant has requests; it is the earliest of its class where that heap is kept ordered |
| `MtdsRuns.ChoiceIsFair` | runtime/src/local_runqueue_mtds.c:134-160 | in every run, what a worker makes current at the end of its second scan is nothing if and only if it is idle, and otherwise the earliest sandbox of a guaranteed tenant with budget left, or of a default one only if no guaranteed tenant is busy there; with at most five tenants it is the earliest of its class |
| `MtdsRuns.LookIsFair` | runtime/include/scheduler.h:75-81 | the first scan ends with such a pick too, and its deadline and class are what a request must beat |
| `MtdsRuns.SoloPeeksAreExact` | runtime/include/scheduler.h:83-97 | undisturbed peeks let the removal be tried whenever a request is eligible |
| `MtdsRuns.RemovalMovesARequest` | runtime/include/scheduler.h:97-102 | in every run a removal moves a request to its worker if and only if one is eligible, one that is taken fairly; it stops only on a full queue and otherwise moves nothing |
| `MtdsRuns.DemotionIsExact` | runtime/src/local_runqueue_mtds.c:140-147 | while the head of the guaranteed tenants is out of budget a scan demotes it and nobody else, and moves no sandbox |
| `MtdsRuns.PromotionIsExact` | runtime/src/local_runqueue_mtds.c:244-252 | a promotion makes a busy paid tenant guaranteed on its worker and changes nothing else |
| `MtdsRuns.ReplenishIsExact` | runtime/src/global_request_scheduler_mtds.c:309-323 | a replenishment restores the budget of its tenant, makes it guaranteed and changes nothing else |
| `MtdsRuns.ArriveIsExact` | runtime/src/global_request_scheduler_mtds.c:55-91 | an arrival stops on a full queue, on the assertion if and only if it overtakes its tenant's head in a build with assertions, and is otherwise admitted to the request queues |
| `MtdsRuns.FinishAndLeaveAreExact` | runtime/include/scheduler.h:423-446 | the finishing sandbox leaves its worker's queues and is done; a worker that leaves it decides anew with no current one |
| `MtdsRuns.BudgetsAreExact` | runtime/include/sandbox_functions.h:55-60 | along every run a paid tenant's budget is its maximum less the charges since its last replenishment, and a free tenant's never changes |
| `PsList.Add` | runtime/include/ps_list.h:103-110 | relinking inserts the node right after its predecessor in the ring |
| `PsList.Remove` | runtime/include/ps_list.h:112-118 | relinking takes exactly that node out of the ring and detaches it |
| `PsList.Append` | runtime/include/ps_list.h:152-152 | the node becomes the last of the list |
| `PsList.IsEmpty` | runtime/include/ps_list.h:79-83 | true if and only if the list is empty |
| `PsList.HasOneNode` | runtime/include/ps_list.h:85-89 | true if and only if the list has exactly one element |
| `PsList.Rotate` | runtime/src/local_runqueue_list.c:55-64 | the first element becomes the last and the others keep their order |
| `PsList.FreeAll` | runtime/src/local_cleanup_queue.c:27-51 | the deleting loop frees every element once and in order and leaves the list empty |
| `Fifo.EveryRunKeepsInv` | runtime/include/scheduler.h:136-156 | what was pulled is, in order, what was freed, what waits to be freed, and the active sandbox |
| `Fifo.AtMostOneQueued` | runtime/src/local_runqueue_list.c:47-76 | the runqueue holds at most one sandbox, so rotation takes its early return and no list assert fails |
| `Fifo.FreedOnceInOrder` | runtime/src/local_cleanup_queue.c:27-51 | no sandbox is on both queues, each is freed at most once and in order, and none is lost |
| `Fifo.IdleTurnRunsTheStolen` | runtime/include/scheduler.h:136-156 | an idle worker queues and runs a stolen sandbox at once; without one it frees what waits |
| `Fifo.AlarmChangesNothing` | runtime/include/scheduler.h:148-151 | an alarm changes nothing: the running sandbox is the only one queued and goes on |
| `Fifo.FinishEmptiesTheQueue` | runtime/src/local_runqueue_list.c:28-32 | a sandbox that finishes leaves the runqueue empty |
| `Fifo.LeaveQueuesTheExited` | runtime/include/scheduler.h:442-467 | a leaving sandbox is the next to be freed and those before it have been; a stolen one takes over, or the base context |
| `Fifo.ResumeFrees` | runtime/include/scheduler.h:408-409 | back at the base context what waits is freed |
| `Accounting.BookConserves` | runtime/include/sandbox_set_as_preempted.h:39-43 | booking a transition keeps the sum of durations equal to last change minus allocation |
| `Accounting.BookReturnConserves` | runtime/include/sandbox_set_as_interrupted.h:61-63 | so does returning from an interrupt |
| `Accounting.BookExecuted` | runtime/include/sandbox_set_as_running_user.h:37-41 | the executed time grows by the booked duration exactly when the state left is a running one |
| `Accounting.BookStays` | runtime/include/sandbox_set_as_running_sys.h:41-45 | booking the state that was entered last keeps each state's duration equal to the time of the stays in it, and the stays gapless and along legal transitions |
| `Accounting.PostChargeOk` | runtime/include/sandbox_functions.h:55-60 | a charge lowers the budget of its own paid tenant and no other, and keeps every remaining budget equal to its maximum less the charges since the last replenishment |
| `Accounting.PostRefillOk` | runtime/src/global_request_scheduler_mtds.c:320-323 | a replenishment restores the maximum of its own tenant and touches no other |
| `Worker.EveryRunKeepsInv` | runtime/include/scheduler.h:253-468 | every run, with alarms between any two steps, keeps the invariant and does not panic |
| `Worker.NoPanic` | runtime/include/scheduler.h:253-388 | no illegal transition panic and no context or state assert of the switch code is reached |
| `Worker.ContextsAreConsistent` | runtime/include/arch/x86_64/context.h:53-130 | the base context is Running exactly when it executes; the current sandbox has a Running context outside the switch window; every other queued sandbox is Runnable and Fast or Preempted and Slow |
| `Worker.SwitchToKeepsInv` | runtime/include/scheduler.h:254-277 | entering a waiting sandbox from the handler hits neither assert nor panic and keeps the invariant |
| `Worker.SwitchContextKeepsInv` | runtime/include/arch/x86_64/context.h:80-130 | a context switch hits no variant assert and keeps the invariant |
| `Worker.PreemptiveSchedKeepsInv` | runtime/include/scheduler.h:310-346 | a preemptive decision finds something to run, resumes or preempts, and keeps the invariant |
| `Worker.DeferredClearedAtScheduler` | runtime/include/scheduler.h:393-440 | at the asserts of the idle loop and the cooperative scheduler no alarm is deferred and no sandbox is current |
| `Worker.UserCodeOwesNothing` | runtime/include/sandbox_set_as_running_user.h:53-58 | user code past the replay point runs only when every deferred alarm has had its decision |
| `Worker.OnlyADecisionSettles` | runtime/src/software_interrupt.c:114-146 | an alarm on a sandbox that is not preemptable is owed a decision, and only a scheduling decision settles it |
| `Worker.DeferredAlarmIsDecided` | runtime/src/software_interrupt.c:134-143 | along every run, between an alarm that is deferred and user code past the replay point there is a scheduling decision |
| `Worker.TimeIsConserved` | runtime/include/sandbox_set_as_allocated.h:26-28 | along every run the durations of a sandbox's states sum to last change minus allocation |
| `Worker.BudgetIsExact` | runtime/include/sandbox_set_as_running_sys.h:55-62 | outside the gap between a booking and its charge, a paid tenant has been charged for a sandbox exactly its user plus system time, a free tenant nothing |
| `Worker.BudgetIsMaxMinusCharges` | runtime/include/sandbox_functions.h:55-60 | the remaining budget is the maximum less the charges since the last replenishment |
| `WorkerLaws.StateTimesAreExact` | runtime/include/sandbox_set_as_running_sys.h:15-53 | along every run each state's duration is exactly the time of the sandbox's stays in it; the stays follow one another without a gap from allocation to last change, along the transitions that the source allows; outside a transition the sandbox is in the state entered last |
| `WorkerLaws.SystemCallReturns` | runtime/include/sandbox_set_as_running_user.h:14-66 | an undisturbed system call comes back to user code, in user state and on the runqueue |
| `WorkerLaws.ProgramCompletes` | runtime/src/current_sandbox.c:49-198 | an undisturbed program that ends is complete, off the runqueue and in the cooperative scheduler |
| `WorkerLaws.TrapEndsInError` | runtime/include/sandbox_set_as_error.h:77-84 | an undisturbed trap ends in error, off the runqueue and in the cooperative scheduler |
| `WorkerLaws.ExitDecides` | runtime/include/scheduler.h:423-446 | an exiting sandbox reaches its decision with no current sandbox and no deferred alarm |
| `WorkerLaws.DecisionIsCarriedOut` | runtime/include/scheduler.h:354-380 | an undisturbed decision for a sandbox is carried out: a fresh one starts in system state, a preempted one goes on where it was in user state, each on its own running context |
| `WorkerLaws.NothingLeadsToBase` | runtime/include/scheduler.h:383-388 | a decision that finds nothing leads back to the base context, and the exiting context is saved |
| `WorkerLaws.PullAdopts` | runtime/include/sandbox_set_as_runnable.h:20-67 | a pulled sandbox joins the runqueue, runnable and with its own tenant and allocation time |
| `WorkerLaws.AlarmIsCarriedOut` | runtime/include/scheduler.h:310-346 | an alarm on user code carries its decision out at once: the chosen sandbox runs, and an interrupted one that lost is preempted and will go on where it was |
| `WorkerLaws.BudgetSteps` | runtime/include/sandbox_functions.h:55-60 | charges and replenishments by others reach the budget of their own tenant and no other |
| `PerfWindows.RingIsTheLastDurations` | runtime/include/perf_window.h:70-109 | read from the next slot, the circular buffer is exactly the last durations, the first one filling all slots |
| `PerfWindows.OldestIsReplaced` | runtime/include/perf_window.h:106-109 | the slot overwritten next always holds the oldest duration |
| `PerfWindows.SwapKeepsView` | runtime/include/perf_window.h:37-68 | swapping two nodes keeps the two indexes inverse and changes what no termination slot reads |
| `PerfWindows.SortedReadsOrderStatistic` | runtime/include/perf_window.h:155-171 | reading the sorted array at an index is the duration of that rank among the last durations |
| `PerfWindows.OrderStatisticIsUnique` | runtime/include/perf_window.h:155-171 | no two durations share a rank, so the percentile is determined by the last durations alone |
| `PerfWindows.PerfWindow.Swap` | runtime/include/perf_window.h:37-68 | exchanges the nodes and repairs the reverse index; its four asserts hold |
| `PerfWindows.PerfWindow.Add` | runtime/include/perf_window.h:88-145 | after any adds the array is sorted, the indexes are inverse permutations, and the view by termination is the ring of the last durations |
| `PerfWindows.PerfWindow.GetPercentile` | runtime/include/perf_window.h:155-171 | zero for an empty window, otherwise the order statistic at the control index |
| `AdmissionsInfos.Initialize` | runtime/src/admissions_info.c:11-33 | panics if and only if the scaled execution time, wrapped to 64 bits, is less than the relative deadline, or the percentile is not from 50 to 99; otherwise the control index lies inside the window and the first estimate is the one for the expected execution |
| `AdmissionsInfos.AdmissionsInfo.Update` | runtime/src/admissions_info.c:42-56 | the stored estimate is the one for the percentile of the last durations; panics if and only if that one is zero |
| `Admissions.DecisionIsExactIff` | runtime/src/admissions_control.c:107-127 | the 64-bit check agrees with exact arithmetic for every total below capacity if and only if estimate plus capacity does not exceed 2^64 |
| `Admissions.ComputedEstimatesFit` | runtime/src/admissions_control.c:69-82 | every estimate computed for a relative deadline that is long enough for the capacity is not zero and fits beside it in 64 bits |
| `Admissions.UsualRoutesFitIff` | runtime/src/admissions_control.c:69-82 | for capacities up to 2^63 a relative deadline is long enough if and only if it is two cycles or more or the capacity is at most 64 |
| `Admissions.EveryRunKeepsInv` | runtime/src/admissions_control.c:39-66 | the invariant of every interleaving of the listener's load, check and add with the workers' test and subtract in which no decision accepts past capacity |
| `Admissions.ExactAllAlongIff` | runtime/src/admissions_control.c:107-127 | for one run, whatever the estimates: the total is exact, below capacity and free of underflow all along if and only if no decision of it accepts past capacity |
| `Admissions.FittingRoutesNeverOverfill` | runtime/src/admissions_control.c:107-127 | with relative deadlines long enough for the capacity no decision of any run accepts past capacity, however the routes are re-estimated |
| `Admissions.ShortDeadlineUnderflows` | runtime/src/admissions_control.c:39-58 | with a relative deadline of one cycle and a capacity of two million there is a run that wraps the check and reaches the underflow panic |
| `Admissions.AdmittedIsExactAndBounded` | runtime/src/listener_thread.c:235-261 | with relative deadlines long enough for the capacity, the admitted total of every run stays below capacity, equals the stored estimates of unfinished sandboxes plus what the failed paths never give back, and the underflow panic is unreachable |
| `Admissions.AddNeverOverfills` | runtime/src/admissions_control.c:107-127 | though check and add are separate, an add never lifts the counter to capacity |
| `AdmissionsLaws.LeakedIsNotQueued` | runtime/src/listener_thread.c:243-261 | over every run, what is never given back is exactly the sum of the estimates of requests that were counted and not queued |
| `AdmissionsLaws.SubtractGivesBack` | runtime/src/admissions_control.c:52-66 | giving back lowers the counter by exactly the stored estimate and removes that sandbox only |
| `AdmissionsLaws.TestPasses` | runtime/src/admissions_control.c:56-57 | the underflow test passes in every run that is exact |
| `AdmissionsLaws.AllWorkIsGivenBack` | runtime/src/admissions_control.c:39-66 | when every counted request was queued and every queued one has finished, nothing is admitted |
| `AdmissionsLaws.LoadedWasRead` | runtime/src/listener_thread.c:235-235 | what a decision is made on is the route's estimate and the counter as they were at the listener's own load |
| `AdmissionsLaws.DecisionIsExact` | runtime/src/admissions_control.c:107-127 | a decision accepts if and only if the estimate on top of the loaded counter stays below capacity; then exactly it is counted, and otherwise nothing changes |
| `AdmissionsLaws.SoloRequest` | runtime/src/listener_thread.c:235-261 | an undisturbed request is admitted if and only if its route's estimate fits on top of the counter, and is then live with that estimate, or leaks it |
| `AdmissionsLaws.ReestimateIsExact` | runtime/src/admissions_control.c:69-82 | a re-estimate stores the scaled execution time divided by the route's own deadline, or panics if that is zero |
| `AdmissionsExact.UnfitRouteUnderflows` | runtime/src/admissions_control.c:39-127 | a route whose relative deadline is too short for the capacity has a run that reaches the underflow panic, whatever the capacity |
| `AdmissionsExact.ExactInEveryRunIff` | runtime/src/admissions_control.c:39-127 | the total is exact in every run, the underflow panic unreachable and no decision accepts past capacity, each if and only if every relative deadline is long enough for the capacity |
| `AdmissionsExact.UsualCapacityIff` | runtime/src/admissions_control.c:39-127 | for capacities up to 2^63: if and only if the capacity is at most 64 or no relative deadline is a single cycle |

## Left out

- Deque memory model: steps are sequentially consistent, and a push past `DEQUE_MAX_SZ` is not enabled, because the array index is never wrapped.
- In-place form of the protocols: the deque, EDF, FIFO, worker and admissions machines are values stepped by functions, because their theorems quantify over whole interleavings; aliasing of the C structures is not captured there.
- Priority queue: NULL stores into vacated slots, `int` indexes and the capacity's overflow are not modelled; a failing `realloc` in grow is not modelled.
- Locks: a locked region is one atomic step, and the assertions that a lock is held are not modelled. In the global multi-tenancy code `mt_class` is written after the lock is released (`runtime/src/global_request_scheduler_mtds.c:316`); the model makes it part of the promotion step.
- GlobalMtds.GlobalQueues.ProcessPromotions: states the outcome after at most `limit` turns for every `limit`, because the loop reads the clock again each turn and need not end; between the two cases of ending and not ending that are proved, it is left open which one occurs.
- GlobalMtds.GlobalQueues.TimeoutQueueAdd: `global_timeout_queue_add` has no caller in the repository; it is modelled as an operation that may happen at any time.
- GlobalMtds.GlobalQueues.Add: after a request due at ULONG_MAX the invariant is not claimed; the operations that follow ask for it.
- LocalMtds.LocalRunqueue.ProcessPromotions: asks for clock readings whose sum with a period fits in 64 bits, because a timeout that wraps around can be due again at once.
- Mtds.GetNext: does not claim that the earliest deadline of a class is picked with six or more tenants, because deletes at arbitrary slots of the tenant heaps can lose heap order there.
- MtdsRuns.EveryRunKeepsInv: leaves open when a tenant's replenishment falls, locally and globally; the timeout heaps are modelled per operation.
- AdmissionsInfos.Initialize: an execution time or relative deadline of zero is excluded, as the source asserts.
- PerfWindows.PerfWindow.Add: the 64-bit counter of executions does not overflow.
- Admissions: `ADMISSIONS_CONTROL` is taken as enabled and capacity as a positive parameter. On a full global queue the listener calls `sandbox_free`; only the work that is never given back is modelled.
- Worker: the policy is any one that returns a queued sandbox, or nothing exactly when the runqueue is empty, which the three schedulers do. Budgets and clocks are unbounded integers, and each clock reading is later than the one before.
- Worker: sleep and wakeup have no callers in the repository, so runs have none; preparing a sandbox's execution environment succeeds.
- Signals other than SIGALRM and SIGUSR1, signal delivery and masking, register contents, assembly, `setjmp` and memory protection.
- The MCS lock, `map.h`, the unimplemented MTDBF policy, HTTP and sockets, configuration, WASI, metrics and the floating-point capacity computation.

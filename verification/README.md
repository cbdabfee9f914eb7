# UCM cache store, verified models

UCM keeps the key-value cache of a language model server outside the accelerator: a scheduler-side
connector hashes prompt blocks and decides what to load and dump, a cache store moves blocks between
pinned buffers, devices and a backend, and sparse-attention code selects blocks and rearranges them. This
project models the parts where a mistake loses or mixes up data, and proves what the rest of the
system relies on.

| file | what it models |
|---|---|
| `BufferIndex.dfy` | intrusive doubly linked chains over an array of nodes, shared by the next two |
| `LocalTransBuffer.dfy` | `TransBuffer` in one process: classes for the buffer and for its counted handles |
| `SharedTransBuffer*.dfy` | the same buffer shared by threads and processes, as interleaved steps with bucket, node and header locks: state and invariant, preservation, theorems, and what callers get |
| `Latch.dfy` | the count-down latch, alone and under many callers |
| `LoadQueue.dfy`, `LoadQueueOwners.dfy`, `LoadQueueProgress.dfy`, `LoadQueueOutcome.dfy` | submitter, dispatcher and transfer thread of the load queue, with failure set and backend handles; who owns a buffer; that its threads come to rest, and which waits can end; how loads end |
| `TransferBytes.dfy`, `DumpQueue.dfy` | what the bytes behind a ready mark are worth while writes are in flight; the dump queue over it |
| `LoadBytes.dfy`, `LoadBytesSteps.dfy`, `LoadEscapes.dfy` | the load queue over the same bytes: each of its steps is one of their protocol; when it lets a handle go early |
| `BothQueues.dfy`, `BothQueuesRun.dfy` | both queues over the same buffers, and a run in which a skipped load spoils a ready node |
| `IndexPool.dfy` | the versioned lock-free free list, alone and contended, and the buffers carved from it |
| `BitMask.dfy`, `SpscRing.dfy` | power-of-two masks; the single-producer single-consumer ring, alone and interleaved |
| `HashSet.dfy` | the sharded linear-probing set |
| `TopNHeap.dfy`, `SpaceRecycle.dfy` | the indirect top-N heap; the recycling of the earliest files, which uses it |
| `LayerSkip.dfy` | the layer-skip dynamic program |
| `Attention.dfy`, `QueryTiling.dfy` | streaming and split attention over the reals; how programs and rows divide the queries |
| `Connector.dfy` | the prefix-hash chain and the dispatch of loads and dumps |
| `GsaMove.dfy`, `EsaDiff.dfy` | in-place compaction of selected blocks; minimal reload of selected blocks |
| `BufferManager.dfy` | cache-then-backend look-ups |
| `Wrappers.dfy`, `Arithmetic.dfy`, `Sequences.dfy` | options and results, quotients and rounding, sequences without repetition |

Code that updates fields is a class whose methods are proved against an abstract value (a map of
keys to nodes, a sequence of pending values, a multiset of kept values). Code that several threads run is a
state machine: a `Step` predicate with one atomic step per visible access, an invariant that every
step keeps, and theorems over all runs. In those modules the step predicates are the model
(`SharedTransBuffer.Step`, `Latch.Step`, `LoadQueue.Step`, `TransferBytes.Step`, `DumpQueue.Step`,
`LoadBytes.Step`, `BothQueues.Step`, `IndexPool.Step`, `SpscRing.Step`). Fields called history variables record what happened and influence no step.

## What is assumed

- Memory is sequentially consistent; the pool's version counter does not wrap; locks are mutual exclusion.
- A hash function is any function into the right range; the block hasher has no collisions, and no
  block hashes to the seed. The store answers a look-up only for keys that were dumped.
- Backend handles are positive and strictly increasing. A copy or load writes until the
  synchronisation or wait that ends it, and a failed one has stopped by then.
- In the models of the bytes a get finds a key that somebody holds at the node that holds it, as
  `SharedTransBufferTheorems` proves of the buffer itself.
- A task's entry stays in the failure set until its latch has fired.
- The exponential is any positive function that turns sums into products. Scores are given.
- The caller of the sparse code passes distinct block ids and distinct indices, as vLLM does.

## Properties that do not hold

Each is stated by a lemma with a concrete case or an exact condition.

- A submitted load need not count its latch down by itself. A shard whose buffer another, failed task owned
  waits until its own task times out: such a wait is reachable (`LoadQueue.StuckIsReachable`), it is one that no
  owner outside the queue can end (`LoadQueueProgress.StuckExact`), and those are the only waits that cannot
  end without the timeout (`LoadQueueProgress.WaitEndsExact`). A task without shards never counts
  down (`LoadQueue.EmptyTaskNeverFires`). At rest all other latches have fired exactly if the transfer
  thread does not wait (`LoadQueueProgress.AtRestExact`).
- A handle can be let go while something writes through it. The load queue does so exactly when it skips a failed
  task's shard whose backend load goes on (`LoadEscapes.EscapeExact`); the dump queue exactly when it drops a
  handle whose copy was never synchronised (`DumpQueue.EscapeExact`), which takes an enqueue that fails after an
  earlier one of the task (`DumpQueue.DirtyAbortExact`). Nothing else in a run of both queues does
  (`BothQueues.RunEscapesExact`). A late write through such a handle can leave a ready node with another
  key's bytes (`TransferBytes.EscapeBreaksReady`, `BothQueuesRun.SkippedLoadBreaksReady`).
- A caller of `Latch::Wait` can pass before the epilog has run (`Latch.WaitCanPassEpilog`).
- `HashSet::Remove` hides another key exactly when the emptied slot lies on that key's probe path
  (`HashSet.RemovalHides`, `HashSet.RemovalExact`, `HashSet.RemovalCanHide`).
- `TopNHeap::Push` after a `Pop` overwrites a live value unless the popped one lay in the last position
  (`TopNHeap.SafeAfterPop`, `TopNHeap.WriteExact`, `TopNHeap.LostValue`).
- The layer-skip program maximises the least entry, and its sum is the greatest among the paths with that least
  entry for every table exactly if one change is allowed at most or there are four columns at most
  (`LayerSkip.SumOptimalExact`); on any size it is where no reachable entry is below the first
  (`LayerSkip.FlatIsOptimal`).
- With blocks of one token the sparse scheduler keeps one block more than the worker compacts into
  (`GsaMove.SchedulerKeepsRemaining`).
- A query row is computed twice when the heads per group do not divide the 16 rows of a block
  (`QueryTiling.RowsOfAPosition`); both copies are the same value.

## Model

| member | source | states |
|---|---|---|
| LocalTransBuffer.TransBuffer.constructor | ucm/store/cache/cc/trans_buffer.cc:121-126 | after setup the index is exact, the map is empty and no handle is alive |
| LocalTransBuffer.TransBuffer.FetchNode | ucm/store/cache/cc/trans_buffer.cc:134-139 | the clock hand moves on by one, around the end |
| LocalTransBuffer.TransBuffer.FindAt | ucm/store/cache/cc/trans_buffer.cc:458-476 | pins the node of the key in the chain, owner exactly if nobody held it; NIL exactly if no node of the chain has the key |
| LocalTransBuffer.TransBuffer.ExistAt | ucm/store/cache/cc/trans_buffer.cc:441-456 | true exactly if a node of the bucket carries the key |
| LocalTransBuffer.TransBuffer.Exist | ucm/store/cache/cc/trans_buffer.cc:432-439 | agrees with the abstract map from keys to nodes |
| LocalTransBuffer.TransBuffer.SearchDecides | ucm/store/cache/cc/trans_buffer.cc:441-476 | a search of the key's own bucket decides whether any node at all stands for the key |
| LocalTransBuffer.TransBuffer.Remove | ucm/store/cache/cc/trans_buffer.cc:525-545 | unlinks a node from the middle, head or end of its chain |
| LocalTransBuffer.IndexCut | ucm/store/cache/cc/trans_buffer.cc:525-545 | cutting a node out keeps every bucket's chain exact, with prev inverse to next |
| LocalTransBuffer.TransBuffer.MoveTo | ucm/store/cache/cc/trans_buffer.cc:509-523 | links a detached node in at the head of a bucket |
| LocalTransBuffer.IndexLink | ucm/store/cache/cc/trans_buffer.cc:509-523 | linking a node in keeps every bucket's chain exact |
| LocalTransBuffer.TransBuffer.Rekey | ucm/store/cache/cc/trans_buffer.cc:488-505 | the map loses the victim's old key and gains the new one; the node is pinned once and unready; no other node changes but in its links |
| LocalTransBuffer.ContentsMoved | ucm/store/cache/cc/trans_buffer.cc:488-505 | what re-keying one node does to the abstract map |
| LocalTransBuffer.TransBuffer.Sweep | ucm/store/cache/cc/trans_buffer.cc:480-487 | so many turns of the allocation loop find a node if and only if some node that far under the hand is unpinned, and then the first such; with every node pinned no number of turns does |
| LocalTransBuffer.TransBuffer.Alloc | ucm/store/cache/cc/trans_buffer.cc:478-507 | with some node unpinned one round is enough, and the first unpinned node under the hand is taken |
| LocalTransBuffer.TransBuffer.Get | ucm/store/cache/cc/trans_buffer.cc:417-430 | a present key is pinned once more, owner exactly if nobody held it; an absent one takes over the first unpinned node; reference counts stay the numbers of live handles |
| LocalTransBuffer.TransBuffer.Acquire | ucm/store/cache/cc/trans_buffer.cc:549-554 | one count up, nothing else |
| LocalTransBuffer.TransBuffer.Release | ucm/store/cache/cc/trans_buffer.cc:556-561 | one count down, nothing else |
| LocalTransBuffer.TransBuffer.MarkReady | ucm/store/cache/cc/trans_buffer.cc:571-576 | sets one ready mark; index, map and handles stay right |
| LocalTransBuffer.Handle.Copy | ucm/store/cache/cc/trans_buffer.h:46-49 | one more live handle at the same node, counted |
| LocalTransBuffer.Handle.Move | ucm/store/cache/cc/trans_buffer.h:58-63 | the new handle takes the other's place among the live ones; the other is empty |
| LocalTransBuffer.Handle.Swap | ucm/store/cache/cc/trans_buffer.h:88-93 | two handles exchange nodes, of one buffer or of two, and the counts of both stay right |
| LocalTransBuffer.Handle.CopyAssign | ucm/store/cache/cc/trans_buffer.h:50-57 | the old node is let go, the other's gains a handle; self-assignment changes nothing |
| LocalTransBuffer.Handle.MoveAssign | ucm/store/cache/cc/trans_buffer.h:64-69 | the old node is let go and the other's place is taken |
| LocalTransBuffer.Handle.Destroy | ucm/store/cache/cc/trans_buffer.h:70-73 | the handle stops being live and its node is unpinned once |
| SharedTransBuffer.InitInv | ucm/store/cache/cc/trans_buffer.cc:262-280 | the invariant holds at the start |
| SharedTransBufferSteps.StepKeepsInv | ucm/store/cache/cc/trans_buffer.cc:348-361 | every single step of every thread keeps the invariant on locks, chain shapes, keys, thread positions and pins |
| SharedTransBufferTheorems.RunKeepsInv | ucm/store/cache/cc/trans_buffer.cc:417-576 | so does every interleaving of Get, Exist, handle and ready operations |
| SharedTransBufferTheorems.FreeBucketExact | ucm/store/cache/cc/trans_buffer.cc:441-545 | while a bucket's lock is free its chain visits exactly the nodes with its hash, once each, with prev inverse to next and different keys |
| SharedTransBufferTheorems.MissMeansAbsent | ucm/store/cache/cc/trans_buffer.cc:458-476 | a search that ends without a hit has established that no node stands for the key |
| SharedTransBufferTheorems.HitMeansPresent | ucm/store/cache/cc/trans_buffer.cc:465-469 | a hit is on the only node that stands for the key |
| SharedTransBufferTheorems.PinnedNodeKept | ucm/store/cache/cc/trans_buffer.cc:483-503 | no step of any thread re-keys, moves or un-readies a pinned node |
| SharedTransBufferTheorems.HandleSeesItsKey | ucm/store/cache/cc/trans_buffer.h:43-97 | a live handle's node carries its key, its count is the number of live handles, and one Get of this pin epoch was granted ownership |
| SharedTransBufferTheorems.WaitsDescend | ucm/store/cache/cc/trans_buffer.cc:417-545 | waiting goes down the order bucket, candidate, neighbour, running |
| SharedTransBufferTheorems.NoDeadlockCycle | ucm/store/cache/cc/trans_buffer.cc:417-545 | no reachable state has a cycle of threads blocked on each other |
| SharedTransBufferTheorems.UnblockedBehind | ucm/store/cache/cc/trans_buffer.cc:417-545 | behind every busy thread there is a busy thread that is not blocked |
| SharedTransBufferTheorems.SomeThreadRuns | ucm/store/cache/cc/trans_buffer.cc:417-545 | while some thread is busy, some busy thread can step |
| SharedTransBufferCalls.ReadyStep | ucm/store/cache/cc/trans_buffer.cc:478-576 | a ready mark appears by MarkReady and nothing else; an allocation takes it away, whatever it was, and nothing else does; only an allocation changes a key |
| SharedTransBufferCalls.ReadyExact | ucm/store/cache/cc/trans_buffer.cc:500-576 | in every run a node is ready if and only if a handle for its present key has marked it since its last allocation |
| SharedTransBufferCalls.AllocatedIsUnready | ucm/store/cache/cc/trans_buffer.cc:500-505 | what an allocation hands out stays unready until somebody marks it through a handle for the new key |
| SharedTransBufferCalls.GetGives | ucm/store/cache/cc/trans_buffer.cc:417-476 | the handle that a Get makes: for its key, owner exactly if nobody held the node, and counted as such; unready if it was allocated |
| SharedTransBufferCalls.OneOwner | ucm/store/cache/cc/trans_buffer.cc:458-476 | in every run all owner handles of a node come from one Get, the one that found nobody there; every other handle comes from a Get that found somebody |
| SharedTransBufferCalls.ExistExact | ucm/store/cache/cc/trans_buffer.cc:432-456 | when Exist is about to return, its answer is whether some node stands for the key |
| SharedTransBufferCalls.CallReturns | ucm/store/cache/cc/trans_buffer.cc:417-439 | a call that began returns for its own key: Get with a live handle that it was given in between, Exist with the right answer |
| SharedTransBufferCalls.HandVisits | ucm/store/cache/cc/trans_buffer.cc:354-361 | the k-th fetch of a run, by whichever thread, is of node k modulo the node count |
| SharedTransBufferCalls.OneAct | ucm/store/cache/cc/trans_buffer.cc:417-545 | where a thread stands settles its next act: no guard leaves a choice |
| Latch.Latch.Done | ucm/shared/infra/thread/latch.h:41-56 | one caller alone: counts down unless at zero and runs the epilog exactly on reaching zero |
| Latch.StepKeepsInv | ucm/shared/infra/thread/latch.h:40-56 | every load and compare-and-swap of every caller, and every raise, keeps the counts in balance |
| Latch.EpilogOnce | ucm/shared/infra/thread/latch.h:41-56 | in every interleaving the epilog of a latch that was set runs at most once; it has run exactly when the counter is at zero and nobody is about to run it |
| Latch.EpilogPerZero | ucm/shared/infra/thread/latch.h:40-56 | raised or not, the epilog runs once for every fall to zero |
| Latch.CallsAddUp | ucm/store/posix/cc/trans_queue.cc:63-115 | when all calls are over, counter and epilog are as after as many calls one by one |
| Latch.RetriesFall | ucm/shared/infra/thread/latch.h:44-46 | a failed swap leaves a lower value to try with |
| Latch.WaitCanPassEpilog | ucm/shared/infra/thread/latch.h:46-62 | a run in which the counter is zero and the epilog has not run |
| LoadQueue.StepKeepsInv | ucm/store/cache/cc/load_queue.cc:53-175 | every step of submitter, dispatcher, transfer thread, backend and other buffer users keeps the protocol's invariant |
| LoadQueue.RunKeepsInv | ucm/store/cache/cc/load_queue.cc:53-175 | so does every run |
| LoadQueue.EachLatchFiresOnce | ucm/store/cache/cc/load_queue.cc:53-153 | no latch fires twice; one that has not fired belongs to a task still in hand, or to one without shards |
| LoadQueue.FiredMeansSynced | ucm/store/cache/cc/load_queue.cc:123-153 | when a latch fires and the task is not in the failure set, every shard was copied and synchronised afterwards |
| LoadQueue.MarkedMeansLoaded | ucm/store/cache/cc/load_queue.cc:155-175 | a buffer is marked only after its own backend load succeeded and was waited for; the shortcut skips none |
| LoadQueue.CopiesStayHeld | ucm/store/cache/cc/load_queue.cc:133-146 | no buffer is let go between its copy and a later synchronisation, and it stays ready |
| LoadQueueOwners.StepKeepsOwners | ucm/store/cache/cc/load_queue.cc:82-146 | among the live handles of one key, on hold, current, queued or gathered, only the oldest can be the owner |
| LoadQueueOwners.RunKeepsOwners | ucm/store/cache/cc/load_queue.cc:53-175 | so it is in every run |
| LoadQueue.StuckStays | ucm/store/cache/cc/load_queue.cc:158-163 | a wait for a buffer without an owner ends only by the task's own timeout |
| LoadQueue.StuckIsReachable | ucm/store/cache/cc/load_queue.cc:82-105 | such a wait is reachable: a failed backend load and a second load of the same shard |
| LoadQueue.EmptyTaskNeverFires | ucm/store/cache/cc/load_queue.cc:77-107 | the latch of a task without shards stays up for ever once it is dispatched |
| LoadQueueProgress.DispatchUsesWork | ucm/store/cache/cc/load_queue.cc:65-111 | every step of the dispatcher uses up work |
| LoadQueueProgress.TransferUsesWork | ucm/store/cache/cc/load_queue.cc:123-175 | so does every step of the transfer thread but an idle poll |
| LoadQueueProgress.OutsideKeepsWork | ucm/store/cache/cc/load_queue.cc:65-175 | nothing that the backend, the waiting callers or other holders do adds work |
| LoadQueueProgress.BoundedWork | ucm/store/cache/cc/load_queue.cc:65-175 | between two submissions the two threads take no more steps than there was work, whatever happens around them |
| LoadQueueProgress.WorksUnlessWaiting | ucm/store/cache/cc/load_queue.cc:155-168 | while a task is in hand a thread can work, unless the transfer thread waits for a pending backend load or an unready buffer |
| LoadQueueProgress.AtRestExact | ucm/store/cache/cc/load_queue.cc:53-153 | at rest, every submitted task with shards has fired its latch exactly once if and only if the transfer thread does not so wait |
| LoadQueueProgress.StuckExact | ucm/store/cache/cc/load_queue.cc:158-163 | a wait for another's buffer is beyond any owner exactly when no handle outside the queue owns the buffer; none of the queue's own, behind it, does |
| LoadQueueProgress.WaitEndsExact | ucm/store/cache/cc/load_queue.cc:155-172 | some run without the task's own timeout ends the wait, if and only if it is not such a one |
| LoadQueueOutcome.StepBlames | ucm/store/cache/cc/load_queue.cc:53-153 | an id is recorded as failed, or about to be, by a fault of its own alone: a refused submission, a failed backend load or wait, copy or synchronisation, or its timeout |
| LoadQueueOutcome.BlamedExact | ucm/store/cache/cc/load_queue.cc:53-175 | in every run, until its outcome is collected, an id is so recorded if and only if such a fault has happened |
| LoadQueueOutcome.OutcomeExact | ucm/store/cache/cc/load_queue.cc:123-153 | when a task's latch fires, its id is in the failure set if and only if one of its own acts failed or it timed out; otherwise all its shards were copied and synchronised |
| LoadQueueOutcome.InOrder | ucm/store/cache/cc/load_queue.cc:53-111 | tasks are begun in the order in which they were accepted, shards taken in the order in which they were handed on |
| LoadQueueOutcome.FailedIsSkipped | ucm/store/cache/cc/load_queue.cc:69-128 | nothing more is pinned or copied for a task that is already recorded as failed |
| LoadQueueOutcome.WaitedOnce | ucm/store/cache/cc/load_queue.cc:165-167 | the backend is asked to wait for ever later handles, so for none twice |
| LoadQueueOutcome.WaitingBounded | ucm/store/cache/cc/load_queue.cc:53-61 | the waiting queue holds less than its depth in every run |
| TransferBytes.StepKeepsInv | ucm/store/cache/cc/load_queue.cc:165-174 | with no handle let go under a write, every step of the protocol keeps bytes, marks, writes and owners consistent |
| TransferBytes.ReadyMeansBytes | ucm/store/cache/cc/dump_queue.cc:97-117 | in every run a ready node holds the bytes of its (block, shard) and nothing writes to it |
| TransferBytes.EscapeBreaksReady | ucm/store/cache/cc/load_queue.cc:125-128 | in the protocol, once a handle is let go under its backend load, a late write can spoil a ready node |
| LoadBytes.OwnFollows | ucm/store/cache/cc/load_queue.cc:82-175 | every get, load, mark and release of the load queue is a step of the byte protocol through its own handles, and everything else it does leaves the buffers alone |
| LoadBytes.MarkFollows | ucm/store/cache/cc/load_queue.cc:165-174 | when it marks, the backend load that wrote through this very handle has succeeded |
| LoadBytesSteps.StepKeepsInv | ucm/store/cache/cc/load_queue.cc:53-175 | every step of the queue and of others keeps its picture of owners, ready keys and loads in agreement with the buffers, handle by handle |
| LoadBytesSteps.RunKeepsInv | ucm/store/cache/cc/load_queue.cc:53-175 | so does every run until a handle goes under a write |
| LoadEscapes.EscapeExact | ucm/store/cache/cc/load_queue.cc:125-128 | a step of the load queue lets a handle go under a backend load exactly when it skips a failed task's shard whose load is pending |
| DumpQueue.CopyFollows | ucm/store/cache/cc/dump_queue.cc:97-105 | between the look at the ready mark and the enqueue nobody else readies or writes the node |
| DumpQueue.MarkFollows | ucm/store/cache/cc/dump_queue.cc:111-117 | every mark set is of a copy followed by a good synchronisation, or of a node ready before |
| DumpQueue.StepFollows | ucm/store/cache/cc/dump_queue.cc:85-130 | every step of the dump queue is a step of the byte protocol, or leaves the buffers alone |
| DumpQueue.StepKeepsInv | ucm/store/cache/cc/dump_queue.cc:72-143 | every step keeps the dump queue's invariant |
| DumpQueue.DumpedBytesAreRight | ucm/store/cache/cc/dump_queue.cc:117-124 | ready nodes hold their bytes; what is handed to the backend is pinned, ready, holds the bytes of its key and is not written |
| DumpQueue.AllOwnedAreHanded | ucm/store/cache/cc/dump_queue.cc:92-124 | what goes to the backend is, of all shards of the task, exactly those whose node this queue owns, each of them ready |
| DumpQueue.TaskEnds | ucm/store/cache/cc/dump_queue.cc:85-130 | a task ends handed on, or with nothing of its own, or given up with all handles let go; it is given up exactly if an enqueue, the synchronisation or the backend fails |
| DumpQueue.LetGoAfterWait | ucm/store/cache/cc/dump_queue.cc:132-143 | a handle leaves the running queue only after its own backend job was waited for |
| DumpQueue.EveryJobIsWaitedFor | ucm/store/cache/cc/dump_queue.cc:135-137 | the shortcut by job number never skips a wait |
| DumpQueue.EscapeExact | ucm/store/cache/cc/dump_queue.cc:97-115 | a step lets a handle go under a copy exactly when it drops one whose copy was never synchronised |
| DumpQueue.DirtyAbortExact | ucm/store/cache/cc/dump_queue.cc:97-115 | a task is left with such copies exactly when an enqueue fails after an earlier one |
| DumpQueue.CleanRunsKeepBytes | ucm/store/cache/cc/dump_queue.cc:85-130 | without such a failure no handle escapes in any run, and ready means bytes |
| BothQueues.LoadIsOther | ucm/store/cache/cc/load_queue.cc:82-175 | to the dump queue every step of the load queue is one that others may take |
| BothQueues.DumpIsOther | ucm/store/cache/cc/dump_queue.cc:85-143 | to the load queue every step of the dump queue is one that others may take |
| BothQueues.DumpStepsGo | ucm/store/cache/cc/dump_queue.cc:72-143 | whatever the dump queue alone can do it can do beside the load queue |
| BothQueues.LoadStepsGo | ucm/store/cache/cc/load_queue.cc:53-175 | whatever the load queue alone can do next, but for finding a node, it can do to the shared buffers |
| BothQueues.StepKeepsInv | ucm/store/cache/cc/load_queue.cc:53-175 | every step of both queues, the backend and other holders keeps both queues' invariants, their handles apart, and backend writes within the load queue's handles |
| BothQueues.EscapeExact | ucm/store/cache/cc/load_queue.cc:125-128 | a step lets a handle go under a write exactly when one of the two queues takes its one such branch |
| BothQueues.RunEscapesExact | ucm/store/cache/cc/dump_queue.cc:97-115 | in every run of both queues a handle has gone under a write if and only if one of its acts was one of the two |
| BothQueues.ReadyMeansBytes | ucm/store/cache/cc/dump_queue.cc:97-117 | in every run of both queues without such an act a ready node holds the bytes of its (block, shard), and every write goes to a pinned node that is not ready |
| BothQueues.CalmRunsKeepBytes | ucm/store/cache/cc/load_queue.cc:123-128 | so it is when no loading shard is skipped and no enqueue of a copy fails after an earlier one |
| BothQueuesRun.SkippedLoadBreaksReady | ucm/store/cache/cc/load_queue.cc:123-128 | a run of both queues from the start: submit, dispatch, timeout, skip; the node goes to a dump, is marked ready, and ends with the late load's bytes |
| DumpQueue.DirtyAbortEscapes | ucm/store/cache/cc/dump_queue.cc:100-104 | with one, the next drop of a copied handle is an escape |
| IndexPool.Pool.constructor | ucm/shared/infra/thread/index_pool.h:51-61 | all indices are on the free list, in order |
| IndexPool.Pool.Acquire | ucm/shared/infra/thread/index_pool.h:62-74 | takes a free index, and none only if none is free |
| IndexPool.Pool.Release | ucm/shared/infra/thread/index_pool.h:75-88 | gives an index back; one out of range is ignored |
| IndexPool.SetupIsInit | ucm/shared/infra/thread/index_pool.h:51-61 | what setup builds is the start of the contended pool, for any number of idle threads |
| IndexPool.StepKeepsInv | ucm/shared/infra/thread/index_pool.h:62-88 | every load, read, write and compare-and-swap of every thread keeps the free list and the partition |
| IndexPool.RunKeepsInv | ucm/shared/infra/thread/index_pool.h:51-88 | in every run free, held and returning indices partition the range and the list is acyclic |
| IndexPool.AcquireTakesTheHead | ucm/shared/infra/thread/index_pool.h:65-72 | a successful swap installs the true successor of the present head: ABA safety |
| IndexPool.EmptyMeansNoneFree | ucm/shared/infra/thread/index_pool.h:66 | nothing is returned only if no index was free at the load |
| IndexPool.AcquireReturns | ucm/shared/infra/thread/index_pool.h:62-75 | a call of Acquire ends with the head's index, which nobody held, or with none if none was free, and in no other way |
| IndexPool.ReleaseReturns | ucm/shared/infra/thread/index_pool.h:76-88 | a call of Release ends with its index at the head of the free list, and in no other way |
| IndexPool.LiveBuffersDisjoint | ucm/shared/trans/detail/reserved_buffer.h:40-51 | buffers alive at the same time lie in the reservation and share no byte |
| BitMask.MaskIsRemainder | ucm/shared/infra/template/spsc_ring_queue.h:45 | the mask form of Mod is the remainder for powers of two |
| BitMask.PowerTest | ucm/shared/infra/template/spsc_ring_queue.h:50-52 | the setup's test finds exactly the powers of two |
| SpscRing.ModIsRemainder | ucm/shared/infra/template/spsc_ring_queue.h:45 | Mod is the remainder, in either form |
| SpscRing.Ring.TryPush | ucm/shared/infra/template/spsc_ring_queue.h:70-79 | appends unless capacity - 1 values are pending |
| SpscRing.Ring.TryPop | ucm/shared/infra/template/spsc_ring_queue.h:81-89 | removes the oldest pending value if there is one |
| SpscRing.ProducerKeepsInv | ucm/shared/infra/template/spsc_ring_queue.h:56-79 | every load and store of the producer keeps the invariant |
| SpscRing.ConsumerKeepsInv | ucm/shared/infra/template/spsc_ring_queue.h:81-89 | every load and store of the consumer keeps the invariant |
| SpscRing.RunKeepsInv | ucm/shared/infra/template/spsc_ring_queue.h:56-89 | in every interleaving the popped values are a prefix of the pushed ones and at most capacity - 1 are pending |
| SpscRing.NoRace | ucm/shared/infra/template/spsc_ring_queue.h:62-86 | no slot is written while it may be read |
| SpscRing.RefusedMeansFull | ucm/shared/infra/template/spsc_ring_queue.h:74-75 | a refused push saw the ring full |
| SpscRing.NothingMeansEmpty | ucm/shared/infra/template/spsc_ring_queue.h:83-85 | a pop that finds nothing saw the ring empty |
| SpscRing.PushReturns | ucm/shared/infra/template/spsc_ring_queue.h:56-79 | a push ends with its value in the ring, or, TryPush alone, refused by a full one |
| SpscRing.NothingLost | ucm/shared/infra/template/spsc_ring_queue.h:56-89 | in every interleaving the values handed to Push and to the TryPush calls that returned true are, in order, those that TryPop returned, those in the ring and the one in hand |
| HashSet.Seek | ucm/shared/infra/template/hashset.h:81-92 | the probe loop finds the key if its walk can meet it, and comes round only if no slot is empty |
| HashSet.SeekGap | ucm/shared/infra/template/hashset.h:62-64 | the rehash's probe loop ends at a gap its walk reaches |
| HashSet.ProbeWalks | ucm/shared/infra/template/hashset.h:50 | masked probing walks once around the slots |
| HashSet.RehashShard | ucm/shared/infra/template/hashset.h:52-67 | capacity 8 or doubled, the same keys, and afterwards every key can be reached |
| HashSet.Settle | ucm/shared/infra/template/hashset.h:81-94 | the key can be found afterwards, and is added exactly if it could not before; the recursive insert is unreachable |
| HashSet.InsertIn | ucm/shared/infra/template/hashset.h:70-95 | the same across the load-factor rehash; without one no other slot changes |
| HashSet.ContainsIn | ucm/shared/infra/template/hashset.h:96-111 | answers whether the key can be reached; where all keys are placed, whether it is there |
| HashSet.RemoveIn | ucm/shared/infra/template/hashset.h:112-131 | empties the slot its look-up meets and nothing else; the used count stays right |
| HashSet.GapRemains | ucm/shared/infra/template/hashset.h:75-80 | under inserts and removals an empty slot always remains |
| HashSet.FindsWhatIsPlaced | ucm/shared/infra/template/hashset.h:96-111 | a found key is there; where every key is placed, a key that is there is found |
| HashSet.RemovalHides | ucm/shared/infra/template/hashset.h:123-128 | another key is found after a removal exactly when the slot was not on its way |
| HashSet.RemovalExact | ucm/shared/infra/template/hashset.h:123-128 | the set stays exact exactly when the slot lies on no other key's way |
| HashSet.RemovalCanHide | ucm/shared/infra/template/hashset.h:70-131 | from an empty shard: two keys of one home are inserted and the first removed; the second is there, and is not found |
| HashSet.SizeCountsKeys | ucm/shared/infra/template/hashset.h:85-90 | under inserts and look-ups the size is the number of distinct keys |
| HashSet.HashSet.Insert | ucm/shared/infra/template/hashset.h:70-95 | the set gains the key, once; size follows |
| HashSet.HashSet.Contains | ucm/shared/infra/template/hashset.h:96-111 | exact under inserts; never reports a key that is not there |
| HashSet.HashSet.Remove | ucm/shared/infra/template/hashset.h:112-131 | removes at most one copy; from an exact set the key is gone |
| TopNHeap.PushKeepsGreatest | ucm/shared/infra/template/topn_heap.h:66-78 | a push keeps the greatest values seen |
| TopNHeap.PushPhase | ucm/shared/infra/template/topn_heap.h:66-78 | after any pushes from empty the heap holds the capacity greatest, as a multiset |
| TopNHeap.Drain | ucm/shared/infra/template/topn_heap.h:79-83 | draining yields every value once, none less than the one before |
| TopNHeap.RiseStep | ucm/shared/infra/template/topn_heap.h:89-97 | one turn of SiftUp |
| TopNHeap.SinkStep | ucm/shared/infra/template/topn_heap.h:98-110 | one turn of SiftDown |
| TopNHeap.TopNHeap.SiftUp | ucm/shared/infra/template/topn_heap.h:89-97 | restores the heap order by rearranging positions; from any state it keeps the values |
| TopNHeap.TopNHeap.SiftDown | ucm/shared/infra/template/topn_heap.h:98-110 | restores the heap order by rearranging positions; from any state it keeps the values |
| TopNHeap.TopNHeap.Push | ucm/shared/infra/template/topn_heap.h:66-78 | below capacity one value more, at capacity the least gives way to a greater one, and a push phase goes on; over a live position the new value takes the place of the one there as well |
| TopNHeap.TopNHeap.Top | ucm/shared/infra/template/topn_heap.h:79 | the least value kept |
| TopNHeap.TopNHeap.Pop | ucm/shared/infra/template/topn_heap.h:80-83 | removes the least value; in a push phase the next push is safe exactly if that one lay last |
| TopNHeap.TopNHeap.Clear | ucm/shared/infra/template/topn_heap.h:84 | empty, and ready for a new push phase |
| TopNHeap.WriteExact | ucm/shared/infra/template/topn_heap.h:67-69 | what a push writes loses nothing exactly when the position is free, or holds an equal value |
| TopNHeap.SafeAfterPop | ucm/shared/infra/template/topn_heap.h:66-83 | after a pop in the push phase the next push is safe exactly when the popped value lay last |
| TopNHeap.LostValue | ucm/shared/infra/template/topn_heap.h:66-83 | a run from empty: push 1, push 2, pop, push 3; the heap holds 3 twice and 2 is lost |
| SpaceRecycle.Collect | ucm/store/nfsstore/cc/domain/space/space_recycle.cc:62-70 | after the pushes the heap holds the earliest files |
| SpaceRecycle.DoRecycle | ucm/store/nfsstore/cc/domain/space/space_recycle.cc:60-76 | removes as many files as are to be recycled, or all; none left is earlier than one removed, and the latest goes first |
| LayerSkip.Candidate | ucm/sparse/gsa_on_device/tools/main.py:403-429 | the loops over stay and jump compute the recurrence |
| LayerSkip.FillTable | ucm/sparse/gsa_on_device/tools/main.py:392-429 | every cell of the table is the recurrence's value |
| LayerSkip.BestBeats | ucm/sparse/gsa_on_device/tools/main.py:398-429 | no path to a cell has a greater least entry than the table says, and every path has a cell |
| LayerSkip.TraceOk | ucm/sparse/gsa_on_device/tools/main.py:448-460 | the back pointers give a legal path with the cell's changes, least entry and sum |
| LayerSkip.Backtrack | ucm/sparse/gsa_on_device/tools/main.py:448-460 | the loop returns that path |
| LayerSkip.BestPathMinSum | ucm/sparse/gsa_on_device/tools/main.py:382-461 | a legal path with the reported changes; the least entry of all tables on it is the one reported, and every legal path has an entry in some table that is no greater; the sum is the sum of the tables' own sums along it; the values are those of the cell picked in the last column |
| LayerSkip.PathMinIs | ucm/sparse/gsa_on_device/tools/main.py:386-403 | the least value of a path is the least entry that any of the tables has on it |
| LayerSkip.PathSumIs | ucm/sparse/gsa_on_device/tools/main.py:386-403 | summed cell by cell over the tables or table by table, a path has one sum |
| LayerSkip.SumOptimalExact | ucm/sparse/gsa_on_device/tools/main.py:398-445 | the returned sum is the greatest among the legal paths with the returned least entry, for every table, if and only if maxChanges is 1 at most or there are 4 columns at most |
| LayerSkip.SmallIsOptimal | ucm/sparse/gsa_on_device/tools/main.py:398-445 | the one half: there a cell of the column before has one path |
| LayerSkip.SumIsNotOptimal | ucm/sparse/gsa_on_device/tools/main.py:412-445 | the other half: from 5 columns and 2 changes on, a table of each size on which the returned sum is missed |
| LayerSkip.FlatIsOptimal | ucm/sparse/gsa_on_device/tools/main.py:412-445 | where no reachable entry is below the first, the returned sum is the greatest at any size |
| Attention.Tile | ucm/sparse/rerope/triton_unified_attention_rerope.py:275-299 | after a tile M, L and acc are the sums at reference M over all keys so far; M bounds every score, and is one of them or zero |
| Attention.SumsScaled | ucm/sparse/rerope/triton_unified_attention_rerope.py:282-299 | sums at a reference times its exponential are the plain sums: L exp(M) = sum exp(S), acc exp(M) = sum exp(S) V |
| Attention.SumsMove | ucm/sparse/rerope/triton_unified_attention_rerope.py:288-296 | rescaling by exp(m - n) moves both sums from reference m to n |
| Attention.Stream | ucm/sparse/rerope/triton_unified_attention_rerope.py:156-299 | the loop over any range of key blocks of any size |
| Attention.StoredRowsAreDefined | ucm/sparse/rerope/triton_unified_attention_rerope.py:236-270 | a stored row always sees a key, so its quotient is defined |
| Attention.RowSees | ucm/sparse/rerope/triton_unified_attention_rerope.py:236-270 | a stored row sees its own key and those before it, of which a window keeps the latest; the nearest through the first query and key pair, the others through the second |
| Attention.SeenInAll | ucm/sparse/rerope/triton_unified_attention_rerope.py:236-270 | it sees as many keys as there are up to its own, or as the window holds |
| Attention.Attend2d | ucm/sparse/rerope/triton_unified_attention_rerope.py:156-314 | equals direct softmax attention; a row that sees no key has no value |
| Attention.ReadIsWritten | ucm/sparse/rerope/triton_unified_attention_rerope.py:390-395 | the segments that are reduced are exactly those written, at least one and at most those launched |
| Attention.SegmentsAbut | ucm/sparse/rerope/triton_unified_attention_rerope.py:450-453 | written segments are not empty, follow one another and end with the last key block |
| Attention.EachBlockOnce | ucm/sparse/rerope/triton_unified_attention_rerope.py:450-453 | every key block lies in exactly one of the segments that are read |
| Attention.Segment | ucm/sparse/rerope/triton_unified_attention_rerope.py:390-596 | writes its own entry exactly if it has keys, and no other |
| Attention.PartsAddUp | ucm/sparse/rerope/triton_unified_attention_rerope.py:646-668 | segments moved to one reference add up to the keys they cover |
| Attention.Reduce | ucm/sparse/rerope/triton_unified_attention_rerope.py:629-670 | equals direct softmax attention whatever the unwritten entries hold |
| Attention.Attend3d | ucm/sparse/rerope/triton_unified_attention_rerope.py:390-670 | so does the whole split form, for any segment count and order |
| QueryTiling.FindSeqIdx | ucm/sparse/rerope/triton_unified_attention_rerope.py:31-51 | the last sequence whose key is at most the target, or -1 |
| QueryTiling.TokenFound | ucm/sparse/rerope/triton_unified_attention_rerope.py:622-624 | in token mode the search finds the sequence that holds the token |
| QueryTiling.EachBlockByOneProgram | ucm/sparse/rerope/triton_unified_attention_rerope.py:105-119 | every (sequence, query block) is worked on by exactly one program, below shape[0] // BLOCK_Q + num_seqs |
| QueryTiling.ProgramHasOneSequence | ucm/sparse/rerope/triton_unified_attention_rerope.py:105-111 | a program finds one sequence, never -1 |
| QueryTiling.RowsOfAPosition | ucm/sparse/rerope/triton_unified_attention_rerope.py:121-126 | which blocks have a row for a (query, head): its own, and the one before exactly in the spare rows |
| QueryTiling.OneRowEach | ucm/sparse/rerope/triton_unified_attention_rerope.py:720-721 | exactly one when the group divides the rows |
| Connector.GenerateHash | ucm/integration/vllm/ucm_connector.py:175-193 | the keys of the full blocks, each chained to the one before |
| Connector.SameKeySamePrefix | ucm/integration/vllm/ucm_connector.py:184-191 | equal keys come from equal prefixes at the same position |
| Connector.SamePrefixSameKey | ucm/integration/vllm/ucm_connector.py:184-191 | equal prefixes have equal keys, whatever follows them and however long the requests are |
| Connector.KeysExact | ucm/integration/vllm/ucm_connector.py:184-191 | two keys are equal if and only if position and prefix are |
| Connector.CountHits | ucm/integration/vllm/ucm_connector.py:321-325 | the longest prefix of hits |
| Connector.HitWasDumped | ucm/integration/vllm/ucm_connector.py:313-325 | a hit at position i means that some request with the same first i + 1 blocks dumped it |
| Connector.DumpedIsGiven | ucm/integration/vllm/ucm_connector.py:313-325 | the key of a block that some request dumped is one that the store was given |
| Connector.Scheduler.GetNumNewMatchedTokens | ucm/integration/vllm/ucm_connector.py:301-356 | the recorded hit range, the returned token count (one less when everything is hit, never negative), that the whole range was dumped for the same tokens, and that no dumped range is longer if the store answers for all it was given |
| Connector.DispatchExtends | ucm/integration/vllm/ucm_connector.py:393-398 | a dispatch moves the end of the dumped positions from the old to the new count of full blocks |
| Connector.Scheduler.GenerateDispatchMeta | ucm/integration/vllm/ucm_connector.py:363-403 | loads only what was dumped for the same prefix; dumps continue where they stopped, hold no unfinished block, are nothing at all past the last token, and in the end tile [total_hit, num_tokens // block_size); the store is given exactly their keys |
| Connector.Scheduler.Finish | ucm/integration/vllm/ucm_connector.py:451-453 | the request is forgotten, the others stay as they are |
| GsaMove.RemainExact | ucm/sparse/gsa/gsa.py:801-805 | the remaining indices are k different ones exactly when the window is smaller than k |
| GsaMove.GetMvMap | ucm/sparse/gsa/gsa.py:832-864 | the moves are exactly those of the selected blocks that do not stay; the two maps split the selection |
| GsaMove.AssignedDistinct | ucm/sparse/gsa/gsa.py:840-856 | no physical block is given out twice |
| GsaMove.AssignedAreTheStaying | ucm/sparse/gsa/gsa.py:847-856 | the blocks given out are exactly those that stay |
| GsaMove.MovesAreApart | ucm/sparse/gsa/gsa.py:851-856 | no block is both read and written by the moves, and none is written twice |
| GsaMove.AnyOrder | ucm/sparse/gsa/gsa.py:827-830 | moves that are apart can be done in any order |
| GsaMove.MoveCache | ucm/sparse/gsa/gsa.py:827-830 | the in-place loop is those moves in sequence |
| GsaMove.SelectedKeepTheirData | ucm/sparse/gsa/gsa.py:792-864 | every selected logical block ends up with its own data in the staying block recorded for it |
| GsaMove.FirstDecodeBlocks | ucm/sparse/gsa/gsa.py:1051-1063 | how many blocks the first decode step needs |
| GsaMove.EveryDecodeStep | ucm/sparse/gsa/gsa.py:1043-1063 | at every decode step the slots come to the kept blocks and those decoding has begun, and end where the last block's tokens end; so many blocks are needed, one less exactly on a block's first token right after the prompt |
| GsaMove.OneSlotMore | ucm/sparse/gsa/gsa.py:1043-1063 | from one decode step to the next there is one slot more |
| GsaMove.SchedulerKeepsRemaining | ucm/sparse/gsa/gsa.py:1124-1150 | at that step the scheduler keeps exactly the blocks the worker compacts into, except with blocks of one token |
| EsaDiff.DiffTwoMap | ucm/sparse/esa/esa.py:150-165 | a pairing of target blocks and hashes, resident unchanged outside the diff, that needs no more loads than any other |
| EsaDiff.LoadsAtLeast | ucm/sparse/esa/esa.py:157-161 | which loads no pairing can avoid |
| EsaDiff.KeepPairs | ucm/sparse/esa/esa.py:157-161 | the first loop keeps exactly the old pairs still wanted |
| EsaDiff.PairRest | ucm/sparse/esa/esa.py:162-164 | the second loop pairs the rest one to one, in any order of the sets |
| EsaDiff.ReqState.StartLoad | ucm/sparse/esa/esa.py:317-337 | the record becomes such a pairing and exactly its missing blocks are loaded |
| EsaDiff.ReqState.WaitTransferTaskDone | ucm/sparse/esa/esa.py:284-293 | every recorded block holds its hash |
| EsaDiff.ReprePool.Allocate | ucm/sparse/esa/esa.py:42-47 | n different free slots become allocated; the two sets stay a partition |
| EsaDiff.ReprePool.Free | ucm/sparse/esa/esa.py:49-51 | the slots go back; the partition stays |
| BufferManager.LookupCache | ucm/store/cache/cc/buffer_manager.h:73-88 | pointwise cache answers and the ascending list of misses |
| BufferManager.LookupFast | ucm/store/cache/cc/buffer_manager.h:89-104 | pointwise presence in cache or backend, or the backend's error |
| BufferManager.LookupOnPrefixFast | ucm/store/cache/cc/buffer_manager.h:105-122 | the last index of the longest present prefix, -1 for none, or the backend's error |
| BufferManager.MissesDecide | ucm/store/cache/cc/buffer_manager.h:117-121 | the backend's prefix among the misses decides the whole prefix |
| BufferManager.LookupsAgree | ucm/store/cache/cc/buffer_manager.h:61-71 | the two look-ups agree on every prefix |

## Left out

- LocalTransBuffer.TransBuffer.Get: asks that the key is present or some node is unpinned; with every node pinned the source spins for ever, which LocalTransBuffer.TransBuffer.Sweep states of its loop.
- LocalTransBuffer.Handle.CopyAssign: asks that two buffers have different node arrays, which their constructors guarantee.
- LocalTransBuffer.TransBuffer.Alloc: asks that some node is unpinned, for the same reason.
- LoadQueue.EachLatchFiresOnce: says "at most once, and once unless still in hand"; that every latch fires is false, see above, and what keeps one up is stated by LoadQueueProgress.AtRestExact and LoadQueueProgress.WaitEndsExact.
- LoadQueueProgress.BoundedWork: fairness between the two threads is not modelled; the running queue's own bound is left out, since it only delays the dispatcher while the transfer thread has work.
- TransferBytes.ReadyMeansBytes: holds until a handle is let go under a write; which steps of the two queues do that is stated by BothQueues.EscapeExact.
- BothQueues.StepKeepsInv: one load queue and one dump queue; other processes that share the nodes pin and let go of them here, but run no queues of their own.
- DumpQueue.TaskEnds: the dump queue's own waiting queue, failure set and latch are left out; they work as the load queue's.
- Latch.CallsAddUp: a latch that is raised while it is counted down is covered by Latch.StepKeepsInv and Latch.EpilogPerZero only.
- SharedTransBufferTheorems.SomeThreadRuns: no thread is promised progress of its own; eviction by try-lock can retry for ever.
- Connector.Scheduler.GetNumNewMatchedTokens: the store is trusted to answer only for dumped keys, and eviction between look-up and load is not modelled.
- Reading file times and deleting files and empty directories in the recycling; a file is its path and its time.
- Shared-memory files, memory mapping, robust mutex recovery, header initialisation and device registration.
- Weak memory orderings, the 32-bit wrap of the pool's version, capacity 0 of the pool, the heap and the ring, and index arithmetic at the word size.
- The transfer manager, transfer tasks and the posix, ds3fs and lustre backends; a backend is its Load, Dump, Wait and Lookup.
- Clocks, sleeps, spin limits, logging, metrics, consumer loops and shutdown. A timeout is a step that may happen at any time.
- Floating-point rounding, fp8 and bf16 casts, soft cap, slopes and rotary tables; scores are given numbers. The strides passed for the second key cache.
- MD5, pickling and rank re-hashing of block ids; resuming after preemption; the batch loops of `build_connector_meta`.
- `compute_topk_len` (its result is a parameter), retrieval and prefetch of blocks, and block counts after the first decode step.
- A retrieval stride of 1 in the ESA steps, where loads are started and never waited for, and failed loads, whose results the source drops.
- Concurrent use of the local buffer strategy and of the hash set's shards, which their lock serialises.
- The vLLM scheduler and block pool, factories, configuration, patches, proxy, benchmarks and plots.

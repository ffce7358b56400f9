# Verified model of the kernel-module exercises

The repository holds small Linux kernel modules that synchronise threads by hand: producer/consumer
entries, a blocking FIFO, a timer pipeline and linked-list entries. This project models them in Dafny
and proves what they keep over every interleaving, and what their in-place data structures compute.

* `Rings.dfy`, `CBuffer.dfy`: the circular buffer. The class updates the array in place; a `Ring` is its
  state as a value, `Contents` the queue it means. Bulk operations work from `head <= max_size`,
  single-item ones from `head < max_size`.
* `Counting.dfy`, `Monitors.dfy`: the monitor that `prodcons2.c`, `fifoproc.c` and the readers of
  `modtimer.c` each build from a binary semaphore, queue semaphores and hand-kept counters. Every
  semaphore operation, counter update and interruption is a move of its own.
* `Runs.dfy`, `Scripts.dfy`, `Sides.dfy`: what every protocol module says about its runs: what a run
  keeps, which states can be reached, and what a run stands for; runs of a monitor in which one thread
  moves at a time; and threads that keep to one side each.
* `AtomicQueues.dfy`, `ProdCons1.dfy`, `ProdCons2.dfy`, `ProdCons1Runs.dfy`, `ProdCons2Runs.dfy`: the two
  producer/consumer protocols, the one atomic bounded queue both refine, and runs of both for every
  history of that queue.
* `WakeUps.dfy`, `Counters.dfy`: exactly when an interruption can lose a wake-up, and when the hand-kept
  counters can go below zero.
* `FifoProc.dfy`, `FifoStreams.dfy`, `FifoRecords.dfy`, `FifoLeaks.dfy`: the FIFO, the byte stream its
  calls make, records of one length on it, and what an interrupted `open` leaves behind.
* `FifoSides.dfy`, `FifoScripts.dfy`, `FifoCrowd.dfy`: whose waits are always justified; what whole calls
  do when one thread moves at a time; and exactly which sets of threads can leave one asleep wrongly.
* `Euclid.dfy`, `FifoLengths.dfy`: writes of one length and reads of another: exactly when a read can
  return bytes nobody wrote, and when the two sides can block each other.
* `Survivors.dfy`, `ModTimer.dfy`, `TimerScripts.dfy`, `TimerWakeUps.dfy`: the timer, work and list
  pipeline, exactly when it can flush and when a drain can outgrow the worker's array, and exactly when
  an interruption can make it forget a batch.
* `Sequences.dfy`, `ListHeads.dfy`, `ModList.dfy`, `Listing.dfy`: the pointer-level list, the integer list built on it, and
  its bounded text listing.
* `MultiList.dfy`, `MultiListRuns.dfy`: the list of lists with its mark-for-removal protocol, and runs
  that carry out any commands.

A protocol is a state machine over any number of threads. A run is a list of actions; an action its
thread cannot take changes nothing, so every list is a run and every interleaving is some list. A rule
about the actions of a run (nothing interrupted, calls of given lengths) is checked at each of its steps,
in the state the step is taken in. A property found false of the code is stated as an equivalence: it
holds on every run if and only if a condition on the number and sides of the threads, or on the lengths
and capacities, holds; where the condition fails, a run is constructed in which the property does.

Code inside a critical section is one step, which `Monitors.OnlyHolder` justifies: only the lock's holder
touches what it guards. Protocol states carry the buffer's contents and change them as the contracts of
`CBuffers.CBuffer` say. Fields called history (sequences inserted and removed, counts of overwrites, of
lost wake-ups, of touches of freed entries) influence no step; a failure is a step that raises such a
count, and the theorems say when it stays zero. What the histories hold of the callers' data is tied to
records folded over the actions alone (`Runs.Tally`): the arguments of the calls, the values of the timer's
firings, the entries that removals named.

Which theorems assume what about interruptions:

* Every run, interruptions included: all results but the following, among them the equivalences
  `WakeUps.NoLostWakeUp`, `WakeUps.NoLostWakeUpOnSides`, `TimerWakeUps.NoBatchForgotten`,
  `FifoCrowd.NobodyForgotten`, `FifoLengths.PhantomsPossible` and `FifoLengths.BlockingPossible`. The runs
  constructed for their other halves are uninterrupted in the FIFO, and elsewhere have one interruption, of
  a woken thread that waits for the lock while another holds it.
* Runs in which no thread is interrupted between taking its permit and retaking the lock:
  `ProdCons2.NoDeadlock`, `ModTimer.NoForgottenBatch`, for any number of threads.
* Runs without interruptions: `ProdCons2.InterruptFree`, `FifoProc.InterruptFree`.
* An interruption strikes a `down_interruptible` only where its semaphore has no permit, since otherwise
  the call takes the permit. A permit upped while threads sleep belongs at once to one of them; taking it
  is a move of the model, which can be made at once.
* The worker of the timer pipeline is a kernel thread and is not interrupted.

Where code and comments disagree, the model follows the code: `Pr3/ParteB/cbuffer.h` puts `head` below
`max_size`, but a bulk removal that ends at the last slot leaves `head == max_size`.

## Model

| member | source | states |
|---|---|---|
| Rings.InsertContents | Pr3/ParteB/cbuffer.c:88-108 | a single insertion appends, and drops the oldest item exactly when the buffer is full |
| Rings.RemoveContents | Pr3/ParteB/cbuffer.c:185-197 | a single removal takes the oldest item |
| Rings.InsertAllContents | Pr3/ParteB/cbuffer.c:88-108 | any number of insertions leaves the newest items, as many as fit, in order |
| Rings.BulkInsert | Pr3/ParteB/cbuffer.c:139-148 | size and head as the bulk insertion sets them give the state of that many single insertions, in the overwriting case too |
| Rings.BulkRemove | Pr3/ParteB/cbuffer.c:161-180 | size and head as the bulk removal sets them give that many single removals up to head modulo capacity |
| Rings.BulkRefines | Pr3/ParteB/cbuffer.c:111-203 | any sequence of bulk insertions, bulk removals and clears, from any head up to and including max_size, copies out and leaves what a queue keeping the newest max_size items does; refused counts change nothing |
| Rings.StreamPreserved | Pr3/ParteB/cbuffer.c:111-181 | so any chunking of non-overflowing insertions comes out unchanged through any chunking of removals |
| CBuffers.CBuffer.constructor | Pr3/ParteB/cbuffer.c:15-46 | a new buffer has head and size zero, and is empty with head inside the array when its capacity is not zero |
| CBuffers.CBuffer.Insert | Pr3/ParteB/cbuffer.c:88-108 | the array, head and size become those of the value-level insertion; contents are the newest max_size items |
| CBuffers.CBuffer.Remove | Pr3/ParteB/cbuffer.c:185-197 | returns and removes the oldest item; on an empty buffer returns the null item and changes nothing |
| CBuffers.CBuffer.Head | Pr4/Modtimer/cbuffer.c:206-213 | the oldest item, or the null item when empty |
| CBuffers.CBuffer.InsertItems | Pr3/ParteB/cbuffer.c:111-149 | for 0 <= n <= max_size the bulk step of the value level, the same state as n single insertions, contents the newest of old ++ items; refused and unchanged otherwise |
| CBuffers.CBuffer.RemoveItems | Pr3/ParteB/cbuffer.c:152-181 | for 0 <= n <= size copies out the oldest n and takes the bulk step, which leaves what n single removals leave up to head modulo max_size, head being past the array exactly when the removal ends at its last slot; otherwise changes and copies nothing |
| CBuffers.CBuffer.CopyIn | Pr3/ParteB/cbuffer.c:122-137 | the two wrapping block copies write the items to consecutive slots modulo the capacity and no others |
| CBuffers.CBuffer.CopyOut | Pr3/ParteB/cbuffer.c:161-177 | the two wrapping block copies read consecutive slots modulo the capacity, in bounds even from head == max_size |
| CBuffers.CBuffer.Clear | Pr3/ParteB/cbuffer.c:200-203 | the bulk step of the value level: empty, with head inside the array again |
| Monitors.OnlyHolder | Pr3/FicherosP3/ProdCons2/prodcons2.c:53-93 | mutual exclusion: two holders of the lock are one thread |
| Monitors.KeepsAccounts | Pr3/ParteB/fifoproc.c:44-67 | permits plus counter of a queue equal the threads owing to it, through every move |
| Monitors.KeepsInv | Pr3/FicherosP3/ProdCons2/prodcons2.c:53-93 | every move, interruptions included, keeps exclusion, accounting and the bound on the counters |
| Monitors.AtRest | Pr3/FicherosP3/ProdCons2/prodcons2.c:60-80 | when only sleepers are left, the lock is free and the counters count exactly the sleepers |
| Monitors.AnswerBalance | Pr3/FicherosP3/ProdCons2/prodcons2.c:85-90 | how permits, responding threads and lost wake-ups trade against each other in each move |
| AtomicQueues.HistoryOrder | Pr3/FicherosP3/ProdCons1/prodcons1.c:67-68 | any run of the atomic queue delivers first in first out and stays within capacity; both producer/consumer entries inherit it through RunRefinesAtomicQueue |
| ProdCons2.FirstInFirstOut | Pr3/FicherosP3/ProdCons2/prodcons2.c:82-96 | on every run removed is a prefix of inserted, the rest is in the buffer, nothing overwritten or taken from empty, and each completed call is one operation |
| ProdCons2.InterruptUndoes | Pr3/FicherosP3/ProdCons2/prodcons2.c:53-57 | a call interrupted before it gets the lock leaves everything as it was |
| ProdCons2.Accounting | Pr3/FicherosP3/ProdCons2/prodcons2.c:62-79 | lock permits plus holders make one, and queue permits plus counters equal the threads owing, on every run |
| ProdCons2.RefinesAtomicQueue | Pr3/FicherosP3/ProdCons2/prodcons2.c:82-93 | each step is invisible or, inside its critical section, one enqueue of the writer's item or one dequeue |
| ProdCons2.InsertsArguments | Pr3/FicherosP3/ProdCons2/prodcons2.c:44-83 | on every run what was removed followed by the buffer are the arguments of the writes whose insertions were made, in the order of the insertions |
| ProdCons2Runs.DoesEveryHistory | Pr3/FicherosP3/ProdCons2/prodcons2.c:53-149 | conversely, for every sequence of operations the atomic queue can do there is a run that does them and returns from every call |
| ProdCons2.RunRefinesAtomicQueue | Pr3/FicherosP3/ProdCons2/prodcons2.c:137-149 | every run is a run of the atomic queue, so between any two states of a run what was delivered, and that followed by the buffer, only grow at their ends |
| ProdCons2.RunAnswered | Pr3/FicherosP3/ProdCons2/prodcons2.c:115-135 | while a side's counter is positive, each item or gap it could use has a permit, a responding thread or a lost wake-up to answer for it |
| ProdCons2.StuckSleepers | Pr3/FicherosP3/ProdCons2/prodcons2.c:60-80 | when nothing can move, sleepers face at most as many usable items or gaps as wake-ups were lost |
| ProdCons2.NoDeadlock | Pr3/FicherosP3/ProdCons2/prodcons2.c:60-93 | any number of threads, none interrupted between permit and lock: if nothing can move the buffer is full for every sleeping producer and empty for every sleeping consumer, and sleepers are all on one side |
| ProdCons2.InterruptFree | Pr3/FicherosP3/ProdCons2/prodcons2.c:62-79 | without interruptions no wake-up is lost and the counters are never negative |
| WakeUps.NoLostWakeUp | Pr3/FicherosP3/ProdCons2/prodcons2.c:115-135 | threads that may both read and write, whatever is interrupted: nobody is ever left asleep before a buffer it could use, if and only if there are at most two threads |
| WakeUps.NoLostWakeUpOnSides | Pr3/FicherosP3/ProdCons2/prodcons2.c:60-80 | threads that keep to given sides: the same, if and only if there are at most two threads or all are on one side |
| WakeUps.OneForgotten | Pr3/FicherosP3/ProdCons2/prodcons2.c:132-134 | for two threads of one side and one of the other, among any number, a run in which a single interruption, of the woken thread while the signaller still holds the lock, leaves the other sleeper asleep for ever before a buffer it could use |
| Counters.NegativePossible | Pr3/FicherosP3/ProdCons2/prodcons2.c:122-130 | a counter can go below zero if and only if there are two threads or more: an interrupted sleeper takes itself off after a signaller did |
| ProdCons1.Conservation | Pr3/FicherosP3/ProdCons1/prodcons1.c:53-74 | gaps plus elements plus threads in flight equal the capacity, ring size equals elements plus unposted plus claimed, the stream is preserved, and each completed call is exactly one insertion or removal |
| ProdCons1.Room | Pr3/FicherosP3/ProdCons1/prodcons1.c:96-105 | insertion always finds a gap and removal an item |
| ProdCons1.RefinesAtomicQueue | Pr3/FicherosP3/ProdCons1/prodcons1.c:60-71 | each step is invisible, one enqueue or one dequeue of the same atomic queue |
| ProdCons1.RunRefinesAtomicQueue | Pr3/FicherosP3/ProdCons1/prodcons1.c:96-108 | every run is a run of the atomic queue, so delivery is in order between any two states of a run |
| ProdCons1.InsertsArguments | Pr3/FicherosP3/ProdCons1/prodcons1.c:40-68 | on every run what was removed followed by the buffer are the arguments of the writes whose insertions were made, in order |
| ProdCons1Runs.DoesEveryHistory | Pr3/FicherosP3/ProdCons1/prodcons1.c:53-111 | conversely, for every sequence of operations the atomic queue can do there is a run that does them and returns from every call |
| ProdCons1.InterruptUndoes | Pr3/FicherosP3/ProdCons1/prodcons1.c:53-65 | a call that took its token and is interrupted while it waits for the lock gives it back and leaves everything as it was |
| ProdCons1.NoDeadlock | Pr3/FicherosP3/ProdCons1/prodcons1.c:90-111 | on every run, if nothing can move, sleepers are all on one side and its condition holds |
| FifoProc.StreamSafety | Pr3/ParteB/fifoproc.c:198-219 | on every run accepted bytes are taken bytes followed by the buffer, and no bulk insertion lacks room |
| FifoProc.Accounting | Pr3/ParteB/fifoproc.c:150-164 | the semaphore accounting on every run |
| FifoProc.InterruptFree | Pr3/ParteB/fifoproc.c:113-128 | without interruptions the counters are never negative and no open count leaks |
| FifoProc.OpenCounts | Pr3/ParteB/fifoproc.c:40-96 | on every run the open counts are the descriptors held plus those leaked by interrupted opens and releases |
| FifoProc.ClearedOnlyWhenUnused | Pr3/ParteB/fifoproc.c:131-132 | the buffer is cleared only when every descriptor is closed and none leaked |
| FifoProc.ClearedWhenUnused | Pr3/ParteB/fifoproc.c:131-132 | the last one out does clear it: on every run with both open counts zero the buffer is empty, unless a release is between its discount and its test |
| FifoStreams.StreamsAsTold | Pr3/ParteB/fifoproc.c:149-226 | from the calls alone, on every run: the open counts are the opens less the releases run, and exceed the descriptors held by the calls lost to interruptions; the blocks accepted are the data of the writes run while a consumer was there, each read got the next bytes of that stream (zeros when some but too few were left without producers), and the buffer holds the rest |
| FifoStreams.TooLongIsRefused | Pr3/ParteB/fifoproc.c:140-192 | on every run no thread is in a read or write longer than the buffer |
| FifoLeaks.LeakingRun | Pr3/ParteB/fifoproc.c:54-67 | an open interrupted asleep, the only call of a run, leaves every descriptor closed and its side's count at one |
| FifoLeaks.LeaksForEver | Pr3/ParteB/fifoproc.c:131-132 | once a count has leaked the buffer is never cleared again |
| FifoProc.OnlyGrows | Pr3/ParteB/fifoproc.c:149-170 | between any two states of a run with no clearing in between, the accepted, taken and returned blocks only grow at their ends |
| FifoRecords.WholeRecordDelivery | Pr3/ParteB/fifoproc.c:149-170 | with one record length, readers get the written records whole, once and in order, and the buffer holds whole records |
| FifoRecords.ReadStep | Pr3/ParteB/fifoproc.c:168-170 | a read ends the stream exactly when the buffer is empty and no producer is left, else returns the next record |
| FifoLengths.PhantomsPossible | Pr3/ParteB/fifoproc.c:167-170 | with writes of w bytes and reads of l, two threads or more can bring about a read of bytes nobody wrote if and only if l does not divide w |
| FifoLengths.PhantomRun | Pr3/ParteB/cbuffer.c:157-159 | the run from the start: a block is written, read down to less than l, the producer releases, and one read returns zeros |
| FifoLengths.BlockingPossible | Pr3/ParteB/fifoproc.c:149-226 | a producer writing w bytes and a consumer reading l can be blocked on each other, in any of their waits and whatever is interrupted, if and only if w + l - gcd(w, l) exceeds the capacity |
| FifoLengths.DivisorSuffices | Pr3/ParteB/fifoproc.c:149-226 | so any common divisor d of w and l with w + l - d within the capacity rules it out |
| FifoLengths.NeverBothBlocked | Pr3/ParteB/fifoproc.c:149-226 | so with records of one length that fits they never are |
| FifoSides.PairJustified | Pr3/ParteB/fifoproc.c:40-97 | one producer and one consumer, blocks of any lengths, whatever is interrupted: in every state a sleeper without a permit has reason to wait (nobody on the other side, or too few bytes or gaps and the other side there) unless the other is at the test that signals it |
| FifoCrowd.NobodyForgotten | Pr3/ParteB/fifoproc.c:40-97 | for given sides of any number of threads, whatever is interrupted: nobody is ever left asleep without reason if and only if there are at most two threads or all are on one side |
| FifoCrowd.OneForgotten | Pr3/ParteB/fifoproc.c:73-77 | two threads of one side and one of the other, among any number: an uninterrupted run leaves one asleep in open though the other side is connected |
| Survivors.SurviveExactly | Pr4/Modtimer/modtimer.c:141-146 | the survivors are exactly the ticks not overwritten, each once, in order, with its number |
| Survivors.DropOne | Pr4/Modtimer/cbuffer.c:92-100 | overwriting one number removes just that one from the stream |
| ModTimer.PipelineConserves | Pr4/Modtimer/modtimer.c:157-171 | reader outputs, list, worker array and ring together are the values the timer fired with, as the run gives them, without exactly the overwritten ones |
| ModTimer.OverwritesOnlyWhenFull | Pr4/Modtimer/cbuffer.c:92-100 | a number is overwritten only by a firing that finds the ring full and leaves it full, and it is the oldest |
| ModTimer.FlushSize | Pr4/Modtimer/modtimer.c:148 | the largest size that is at most threshold percent of the capacity |
| ModTimer.DrainCount | Pr4/Modtimer/modtimer.c:158-168 | during a drain, count plus ring size is start size plus ticks less overwrites, so the array suffices when start size plus ticks fit |
| TimerScripts.ArrayOutgrown | Pr4/Modtimer/modtimer.c:157-171 | some run collects more numbers in one drain than an array of the buffer's capacity holds, if and only if a flush can ever happen |
| ModTimer.DrainsAsScheduled | Pr4/Modtimer/modtimer.c:148-159 | on every run each drain is that of one scheduling, made with the work not pending and the ring at exactly the flush size |
| ModTimer.FlushGuarantee | Pr4/Modtimer/modtimer.c:144-151 | a ring at or over the threshold size has its flush pending, draining, or the timer at its unlocked test, in every interleaving if and only if that size is not zero |
| TimerScripts.FlushPossible | Pr4/Modtimer/modtimer.c:148-149 | a flush can ever be scheduled if and only if the threshold size lies between one and the capacity |
| ModTimer.RunAnswered | Pr4/Modtimer/modtimer.c:275-286 | while a reader waits before a non-empty list, a permit, a responding thread or a lost wake-up answers for it |
| ModTimer.WakesOnlyForABatch | Pr4/Modtimer/modtimer.c:318-321 | readers are given a permit only before a list that is not empty, while one is counted |
| ModTimer.NoForgottenBatch | Pr4/Modtimer/modtimer.c:306-327 | any number of readers, none interrupted between permit and lock: when nothing can move in the monitor, any reader in it is asleep before an empty list |
| TimerWakeUps.NoBatchForgotten | Pr4/Modtimer/modtimer.c:306-327 | whatever is interrupted, the same holds on every run if and only if there is at most one reader or no flush can ever happen |
| TimerWakeUps.ReaderForgotten | Pr4/Modtimer/modtimer.c:275-286 | for two readers or more, a run in which a single interruption, of the woken reader while the worker still holds the lock, leaves another reader asleep before a batch |
| ListHeads.InitListHead | Pr1/borrar_para_entrega/list.h:69-71 | an initialised head is an empty list |
| ListHeads.ListAddBetween | Pr1/borrar_para_entrega/list.h:79-87 | a node enters the cycle between two neighbours, also when they are one node |
| ListHeads.ListAdd | Pr1/borrar_para_entrega/list.h:97-100 | the node becomes the first |
| ListHeads.ListAddTail | Pr1/borrar_para_entrega/list.h:110-113 | the node becomes the last |
| ListHeads.ListUnlink | Pr1/borrar_para_entrega/list.h:123-127 | the cycle closes over the removed node |
| ListHeads.ListDel | Pr1/borrar_para_entrega/list.h:135-140 | exactly that node leaves the list and its links are poisoned |
| ListHeads.ListDelInit | Pr1/borrar_para_entrega/list.h:148-152 | exactly that node leaves the list and becomes an empty list |
| ListHeads.ListMove | Pr1/borrar_para_entrega/list.h:159-163 | the node leaves one list and becomes the first of a disjoint one |
| ListHeads.ListMoveFirst | Pr1/borrar_para_entrega/list.h:159-163 | the same within one list, writing only the links at the places left and taken |
| ListHeads.ListMoveTail | Pr1/borrar_para_entrega/list.h:170-175 | the node leaves one list and becomes the last of a disjoint one |
| ListHeads.ListEmpty | Pr1/borrar_para_entrega/list.h:181-184 | true exactly when the list has no nodes |
| ListHeads.ListSpliceNodes | Pr1/borrar_para_entrega/list.h:186-198 | a non-empty list goes, in order, in front of a disjoint one |
| ListHeads.ListSpliceInit | Pr1/borrar_para_entrega/list.h:218-225 | (list, head) becomes (empty, list ++ head), writing only the nodes at the seams |
| ModLists.ModList.AddTail | Pr3/ParteA/modlist.c:138-146 | the number is appended in a fresh node |
| ModLists.ModList.Delete | Pr3/ParteA/modlist.c:157-160 | one node leaves the list and is freed, not having been freed before |
| ModLists.ModList.Visit | Pr3/ParteA/modlist.c:154-160 | one step of the deleting walk, following only the link saved before the deletion |
| ModLists.ModList.RemoveAll | Pr3/ParteA/modlist.c:148-163 | leaves exactly the elements different from num in order, and frees exactly the others |
| ModLists.ModList.VisitFirst | Pr3/ParteA/modlist.c:171-176 | one step of the clearing walk deletes and frees the first node, following only the saved link |
| ModLists.ModList.CleanUp | Pr3/ParteA/modlist.c:165-178 | empties the list and frees exactly its nodes |
| ModLists.ModList.Write | Pr3/ParteA/modlist.c:123-131 | a parsed command does to the heap list what it does to a plain sequence |
| ModLists.CommandsMeaning | Pr3/ParteA/modlist.c:138-178 | after any commands the list holds, in order, the numbers no later remove or cleanup took out |
| Listing.LineSpelled | PrFinal/modlist.c:219 | a line is a minus sign exactly for negative numbers, the decimal digits of the absolute value, each at its place, without zeros in front, and a newline |
| Listing.RoundTrip | PrFinal/modlist.c:219 | decoding a listing of decimal lines gives back the numbers |
| Listing.ListInto | PrFinal/modlist.c:218-233 | the walk stops at the first line that does not fit, which makes its output the longest listing within len |
| Listing.ModlistRead | PrFinal/modlist.c:202-241 | returns the longest prefix of the list whose lines fit in len, never more than len, and decodes to that prefix |
| MultiList.RemovedOnce | PrFinal/modlist.c:138-148 | no step touches a freed entry; each is marked, unlinked and freed at most once, by the thread that marked it, after every call on it has ended |
| MultiList.MarkedIsRemoved | PrFinal/modlist.c:139-148 | on every run a marked entry has been freed, or the thread that marked it is in the middle of removing it |
| MultiList.RemovesExactlyTheNamed | PrFinal/modlist.c:109-195 | when every command has returned there is an entry for each creation; those some removal named are unregistered, unlinked and freed, all others registered and in the list |
| MultiListRuns.CarriesOutCommands | PrFinal/modlist.c:99-260 | any creations, removals, reads and writes, each of an entry that is there, are carried out by some run to their end |
| MultiList.LockOrder | PrFinal/modlist.c:215-236 | locks exclude, and whoever waits for a lock holds no entry's lock |
| MultiList.NoDeadlock | PrFinal/modlist.c:181-199 | while some thread is in a call, some thread can take a step |

## Left out

- Copies to and from user space, their failures, `printk`, `/proc` registration, module loading and unloading, allocation failure: a call is its arguments and result.
- Command parsing with `sscanf`, including which buffer it reads: the parsed command is an input.
- C object sizes and fixed text buffers, and the 32-bit wrap of `head + size`, which no buffer that can be allocated reaches; a negative item count is modelled as the unsigned comparison treats it.
- Operations on buffers of capacity zero: the modules create theirs with positive constants.
- What a producer/consumer call returns after its critical section: a read with too small a user buffer has removed its item, counts as completed, and then fails with -ENOSPC.
- Memory ownership of items in the producer/consumer entries; items are their integer values.
- Descriptors opened for both reading and writing, or shared by threads, in the FIFO.
- ModTimer.PipelineConserves: covers one open session; closing, reopening, several simultaneous opens, changes of the threshold and a worker interrupted in `my_list_add` are not modelled.
- How the timer draws its numbers, and when it fires: the number is an argument of the firing, and a firing may come whenever the timer is ready.
- The return value and the `len < 1` check of the timer's `read`.
- The failure path of entry creation in `PrFinal/modlist.c` and its module exit; creation is taken to succeed, and the entry's items are not part of `MultiList`.
- `list_splice` without reinitialisation, `list_move_tail` within one list, the reverse iterations and the hash-list half of `list.h`.
- Modules that repeat a modelled one (`Pr1/modlist.c`, `Pr3/Opcional1/fifoproc.c`, `Pr4/modtimerJavi.c`, the other copies of `cbuffer.c`) and the device, LED and sample code.
- Fairness: the results say that a step is possible, not that the scheduler takes it.

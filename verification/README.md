# Concurrent algorithms of the repository, modelled and proved

The repository collects small concurrent programs in C++ headers, and a copy of the lint script
cpplint. This project models the hardest of them and proves what they are for.

Every concurrent program is a state machine: each thread has a program counter, and one step is one
access to a shared variable, one mutex operation, or one element of private work. `Next` says what a
step does, an invariant `Inv` (for the cash machine `Good`) is kept by every step from the first
state on, and the main results are about every state that any run reaches, for any number of
threads. Each program is also a class (`Sorter`, `SharedBarrier`, `Threads`, `Machines`,
`ReclaimingStack`, `List`, `NodeQueue`, `Mutexes`, `Chunks`, `Search`, `NestingState`) with a method
for every step of `Next`: those that begin a call, press a key or start a thread, and those that do a
thread's next access. Each is proved to do in place exactly what `Next` says and to keep the
invariant, so that an object carries the results from its constructor on. The two scanners of cpplint
are methods with loops, proved against recursive functions.

Some state fields are history: no step branches on them. They record, for example, in which order
nodes were born or what a call has done, and are named as history where they are declared.

| file | what it models |
|---|---|
| `HelpingSort.dfy`, `WorkQueues.dfy` | the quicksort whose waiting threads run other pending chunks, over a stack of chunks and over three thread pools; which chunk is taken from which queue |
| `Barrier.dfy` | the generation barrier whose participants drop out |
| `LockStepScan.dfy`, `PairwiseScan.dfy` | the pairwise partial sum: its kernel in lock step, and its threads over the barrier |
| `PartialSum.dfy` | the partial sum by chunks with promises |
| `ParallelFind.dfy` | the parallel search with a promise and a flag |
| `Messaging.dfy`, `Sessions.dfy`, `MessagingMachines.dfy` | the cash machine and the bank: their state machines and the money, what customer and bank see of them, and the objects with their waiting loop |
| `ReclaimStack.dfy` | the lock-free stack that frees nodes when nobody else is in `pop` |
| `DummyTailQueue.dfy`, `Wakeups.dfy` | the queue with two mutexes and the lock-free queue for one producer and one consumer; who wakes those that wait for a value |
| `HandOverHandList.dfy` | the list with a mutex in every node |
| `HierarchicalMutex.dfy` | mutexes with levels |
| `BracketMatch.dfy`, `AngleBrackets.dfy`, `Brackets.dfy` | cpplint's bracket scanners; what a scanner finds that takes `<` for a bracket; well-bracketed text |
| `PreprocessorStack.dfy` | cpplint's stack of open blocks across `#if` and `#else` |
| `Runs.dfy` | shared: runs of a state machine, what they keep, and how many of their steps change the state |
| `Histories.dfy`, `Sums.dfy`, `CharClasses.dfy`, `Options.dfy` | shared: linearizability, sums, character classes, optional values |

Some results are negative, and each of those has its exact condition or a run that shows it.

- The pairwise scan computes the prefix sum at an index for every input exactly if the binary digits of
  the index satisfy `Exact`; over a whole range that is so only for one or two elements.
- The partial sum by chunks is right exactly if there are at least two threads and no more than the
  block size and the remainder together; otherwise no schedule ends without a fault, whatever the range
  holds.
- Money is not always conserved at the cash machine: in every run the books are over by exactly what
  has been paid on requests that are not accepted, so they balance throughout exactly if every
  `withdraw_ok` that is taken finds the last request accepted already or for nothing. Never cancelling
  while a PIN is being verified is enough for that, and one such cancel is enough to break it. A reply
  answers the last request exactly if it is alone in line.
- The reclaiming stack is safe for k pops exactly if k <= 2^32, because its 32-bit counter wraps and
  `pop` does not decrement it when it finds it other than 1. Until it wraps, a single pop that finds
  another one on its way keeps the stack from ever freeing a node again.
- Hierarchical mutexes restore the thread's level exactly if the mutex locked last is unlocked first.
  From every state, unlocking another one makes a deadlock reachable, and unlocking the last one does not.
- The amount typed at the cash machine is appended to that of the withdrawal before, which nothing
  resets: it is the number typed exactly if the digits push the earlier one out of the 32-bit word.
- A push into the queue with two mutexes notifies without the head's mutex, so that the notification can
  come between a consumer's test and its sleep. As long as none does there is somebody awake for every
  value that a sleeper waits beside; one is enough to let a value and a waiting thread stay for ever, and
  some run gets there exactly if there are two threads or more.
- cpplint's scanners invert each other from round, square and curly brackets on all text, and from angle
  brackets where both take every angle bracket for one; on one line with others they do not. Asked about
  a `<` that is an operator, the forward scanner finds the end of the next expression instead of nothing.

Where code and documentation differ, the model follows the code. `parallel_partial_sum_pairwise` is
meant to compute prefix sums and does not; `try_reclaim` is meant to keep a list of nodes to delete
later, and that list is always empty; `cancel_withdrawal` reaches the bank and changes nothing there.

## Model

| member | source | states |
|---|---|---|
| HelpingSort.NextKeepsInv | cpp_concurrency_in_action/designing_concurrent_code.h:43-91 | Every step of every thread, with any of the four kinds of pool, keeps the links between frames, chunks, promises and queues; a claimed chunk's frame starts after the frame that created it. |
| HelpingSort.NewestWaitsForQueuedChunk | cpp_concurrency_in_action/designing_concurrent_code.h:73-77 | If the newest running call waits for an unset promise, the chunk is still queued where the waiting thread looks for work. |
| HelpingSort.NoDeadlock | cpp_concurrency_in_action/advanced_thread_management.h:248-276 | As long as any call of `do_sort` is running, the thread of the newest one makes progress within two of its own steps, for any number of workers, zero included, and any kind of pool. |
| HelpingSort.NothingOutlivesRoot | cpp_concurrency_in_action/designing_concurrent_code.h:93-101 | When the first call has returned, no call of the sort is running any more. |
| HelpingSort.SequentialQuickSort | cpp_concurrency_in_action/synchronizing_concurrent_operations.h:268-288 | The sequential version returns a sorted permutation of its input, whatever order `partition` leaves inside the two parts. |
| HelpingSort.SortedPermutationUnique | cpp_concurrency_in_action/synchronizing_concurrent_operations.h:268-288 | Two sorted sequences with the same elements are equal, so the parallel and the sequential results can be compared. |
| HelpingSort.RunKeepsInv | cpp_concurrency_in_action/designing_concurrent_code.h:43-91 | The invariant holds in every state of every run, and the first call keeps its input. |
| HelpingSort.InputsKept | cpp_concurrency_in_action/designing_concurrent_code.h:80-83 | A step changes no call's input and no promise that is set: each promise is set at most once. |
| HelpingSort.SortIsCorrect | cpp_concurrency_in_action/designing_concurrent_code.h:50-79 | Whoever runs when, the returned list is a sorted permutation of the input and equal to the sequential result; every chunk's promise has been set. |
| HelpingSort.NextUsesWork | cpp_concurrency_in_action/designing_concurrent_code.h:50-79 | Every productive step lowers a measure, and failed looks for work leave it as it is. |
| HelpingSort.ProductiveStepsBounded | cpp_concurrency_in_action/designing_concurrent_code.h:50-79 | No run has more than 16 n + 8 productive steps for n elements. |
| HelpingSort.Sorter.Step | cpp_concurrency_in_action/designing_concurrent_code.h:43-83 | The object's step changes its fields to exactly the state that `Next` gives. |
| WorkQueues.NextKeepsOrder | cpp_concurrency_in_action/advanced_thread_management.h:371-412 | Every step keeps every queue in the order in which its chunks were made. |
| WorkQueues.ClaimTakes | cpp_concurrency_in_action/advanced_thread_management.h:371-412 | A look for work takes the newest chunk of the stack, or of the thread's own queue with work stealing, and from every other queue the oldest, and it takes nothing else. |
| WorkQueues.CanTakeIffInReach | cpp_concurrency_in_action/advanced_thread_management.h:440-457 | A thread that looks for work can take from a queue that is not empty if and only if its pool lets it: the shared queue, its own, and with work stealing every other, whatever their number; its own comes first. |
| WorkQueues.HelpsOnlyIfMissing | cpp_concurrency_in_action/designing_concurrent_code.h:73-76 | A call goes off to help others only right after it has found its own result missing, each time anew. |
| WorkQueues.NextKeepsWorkers | cpp_concurrency_in_action/designing_concurrent_code.h:68-71 | Each call on a higher part starts one worker until there is the greatest number of them; a pool's workers stay as they are. |
| WorkQueues.RunKeepsQueuesAndWorkers | cpp_concurrency_in_action/designing_concurrent_code.h:50-79 | Both hold in every state of every run. |
| Barrier.NextKeepsInv | cpp_concurrency_in_action/designing_concurrent_code.h:555-574 | Every atomic access of `wait` and `done_waiting` keeps the relation between the three 32-bit counters, the participants and their phases. |
| Barrier.NobodyRunsAhead | cpp_concurrency_in_action/designing_concurrent_code.h:555-566 | A participant leaves its k-th generation only after every other has arrived k times or is done. |
| Barrier.SpacesCountsMissing | cpp_concurrency_in_action/designing_concurrent_code.h:557-571 | `uSpaces_a` is the number of participants yet to arrive, and its decrement never wraps. |
| Barrier.SomeoneCanMove | cpp_concurrency_in_action/designing_concurrent_code.h:555-574 | Unless all are done some participant is outside the barrier or has a step that is not a spin. |
| Barrier.SharedBarrier.Step | cpp_concurrency_in_action/designing_concurrent_code.h:555-574 | The object's step changes its counters to exactly what `Next` gives. |
| LockStepScan.Cells | cpp_concurrency_in_action/designing_concurrent_code.h:587-598 | In closed form, over which stretch of the input the range and the buffer hold the sum at each index after each lock-step iteration. |
| LockStepScan.FullWindow | cpp_concurrency_in_action/designing_concurrent_code.h:587-595 | After iteration s every thread i >= 2^(s+1) - 1 has the exact sum of the last 2^(s+1) elements in the array just written. |
| LockStepScan.ResultIsPartialSum | cpp_concurrency_in_action/designing_concurrent_code.h:587-598 | The final value at every index is the sum from `Low(i)` to i, for every input. |
| LockStepScan.PrefixSumIffExact | cpp_concurrency_in_action/designing_concurrent_code.h:587-598 | The final value at i is the prefix sum for every input of a length if and only if `Exact(i)`, a condition on the digits of i. |
| LockStepScan.PrefixSumsIffShort | cpp_concurrency_in_action/designing_concurrent_code.h:587-598 | All prefix sums are right for all inputs of length n if and only if n <= 2. |
| LockStepScan.IndexTwoMissesElementZero | cpp_concurrency_in_action/designing_concurrent_code.h:587-598 | With more than two elements the value at index 2 is x[1] + x[2]. |
| LockStepScan.PowersAreExact | cpp_concurrency_in_action/designing_concurrent_code.h:587-598 | Every index 2^k - 1 is exact, so its final value is the prefix sum. |
| PairwiseScan.NextKeepsInv | cpp_concurrency_in_action/designing_concurrent_code.h:581-617 | Every interleaved step keeps each thread's cells, registers and step number in agreement with the lock-step execution. |
| PairwiseScan.AccessDiscipline | cpp_concurrency_in_action/designing_concurrent_code.h:587-598 | Within a generation every thread reads one of the two arrays and writes only its own cell of the other. |
| PairwiseScan.NoRaces | cpp_concurrency_in_action/designing_concurrent_code.h:587-598 | Accesses of two threads in the same generation never conflict. |
| PairwiseScan.ScheduleIndependent | cpp_concurrency_in_action/designing_concurrent_code.h:578-617 | Whatever the interleaving, when all threads have finished the range equals the result of the lock-step execution, for up to 2^31 elements. |
| PairwiseScan.NeverStuck | cpp_concurrency_in_action/designing_concurrent_code.h:581-600 | Unless all threads have finished some thread has a step that is not a spin. |
| PairwiseScan.StepsUseWork | cpp_concurrency_in_action/designing_concurrent_code.h:587-599 | Every step but a spin lowers a measure, and a spin changes nothing. |
| PairwiseScan.MovesBounded | cpp_concurrency_in_action/designing_concurrent_code.h:587-599 | In no schedule of n threads are there more than n * (16 * l + 15) steps that are not spins, where l is the number of binary digits of n. |
| PairwiseScan.Threads.Step | cpp_concurrency_in_action/designing_concurrent_code.h:582-600 | The step on the array in place gives exactly the state of `Next`. |
| PairwiseScan.ParallelPartialSumPairwise | cpp_concurrency_in_action/designing_concurrent_code.h:578-617 | The whole call on an array: if the schedule lets all threads finish, the array holds the lock-step result. |
| PartialSum.FitsIffFewThreads | cpp_concurrency_in_action/designing_concurrent_code.h:497-523 | The last chunk is not empty if and only if the number of threads is at most the block size plus the remainder of the division. |
| PartialSum.UpTo25CoresFit | cpp_concurrency_in_action/designing_concurrent_code.h:497-500 | With at most 25 cores that holds for every length. |
| PartialSum.MoreCoresDoNotFit | cpp_concurrency_in_action/designing_concurrent_code.h:497-523 | With more than 25 cores 650 elements are cut into 26 blocks and the last chunk starts at the end. |
| PartialSum.PlanUsesCores | cpp_concurrency_in_action/designing_concurrent_code.h:497-500 | There are as many threads as cores if each then gets 25 elements or more, otherwise no more than it takes for all but one to have 25; the block is the quotient. |
| PartialSum.ChunksPartition | cpp_concurrency_in_action/designing_concurrent_code.h:510-523 | If the plan fits, every index is in exactly one of the chunks with inclusive ends. |
| PartialSum.NextKeepsInv | cpp_concurrency_in_action/designing_concurrent_code.h:464-490 | Every step of every thread keeps each chunk's cells equal to the original, the local or the whole prefix sums as its program counter says, and each set promise equal to the sum to its chunk's end. |
| PartialSum.EveryScheduleSums | cpp_concurrency_in_action/designing_concurrent_code.h:461-524 | With at least two threads and a plan that fits, every schedule that finishes leaves the prefix sums, without any access out of range. |
| PartialSum.PromisesSetOnce | cpp_concurrency_in_action/designing_concurrent_code.h:475-481 | A promise that is set stays as it is. |
| PartialSum.NeverStuck | cpp_concurrency_in_action/designing_concurrent_code.h:472-489 | Until all threads are done some step changes the state. |
| PartialSum.ChangesBounded | cpp_concurrency_in_action/designing_concurrent_code.h:464-490 | With a plan that fits and at least two threads, no schedule changes the state more than twice for each element and six times for each thread. |
| PartialSum.SumsIffPlanFits | cpp_concurrency_in_action/designing_concurrent_code.h:461-524 | For every range and number of cores: some schedule ends without a fault and with the prefix sums if and only if there are at least two threads and they are at most the block size plus the remainder. |
| PartialSum.BadPlanFails | cpp_concurrency_in_action/designing_concurrent_code.h:471-480 | Otherwise every schedule that finishes has faulted, whatever the range holds: a single thread sets a null promise, and a last chunk that starts beyond its end runs out of the range. |
| PartialSum.Chunks.Step | cpp_concurrency_in_action/designing_concurrent_code.h:465-489 | The step on the arrays in place gives exactly the state of `Next`, the loops that compare with `!=` included, and keeps the invariant. |
| ParallelFind.FinishedAnswer | cpp_concurrency_in_action/designing_concurrent_code.h:370-421 | When all threads are joined the answer is `last` if and only if nothing matches, otherwise the place of a match; the flag is set and the promise set exactly once if and only if there is a match. |
| ParallelFind.EveryScheduleFinds | cpp_concurrency_in_action/designing_concurrent_code.h:367-421 | The same for every input, the empty one included, every number of cores and every schedule that finishes. |
| ParallelFind.EveryStepAdvances | cpp_concurrency_in_action/designing_concurrent_code.h:374-381 | No thread waits: every step brings it closer to the end of its block. |
| ParallelFind.NeverStuck | cpp_concurrency_in_action/designing_concurrent_code.h:374-421 | Until all threads have finished some step changes the state. |
| ParallelFind.ChangesBounded | cpp_concurrency_in_action/designing_concurrent_code.h:367-421 | No schedule changes the state more than twice for each element and five times for each thread. |
| ParallelFind.SearchEndsOnceFound | cpp_concurrency_in_action/designing_concurrent_code.h:374-381 | Once the flag is set the threads take at most two further steps each, however much of the range is left. |
| ParallelFind.Search.Step | cpp_concurrency_in_action/designing_concurrent_code.h:370-389 | The step in place gives exactly the state of `Next` and keeps the invariant. |
| Messaging.OutstandingKept | cpp_concurrency_in_action/messaging.cpp:92-190 | Only the cash machine's taking a message changes the sequence of outstanding requests. |
| Messaging.DispatchOutstanding | cpp_concurrency_in_action/messaging.h:88-114 | A reply taken from the queue answers the oldest outstanding request, and what is outstanding changes by that reply and the new request. |
| Messaging.NextKeepsBase | cpp_concurrency_in_action/messaging.cpp:92-243 | Every step keeps messages and requests in agreement, the last request last in line, and the bank's books balanced. |
| Messaging.ReplyAnswersLastIffAlone | cpp_concurrency_in_action/messaging.cpp:106-155 | A withdrawal's reply answers the last request if and only if nothing else is outstanding, and a PIN's reply if and only if no other PIN is. |
| Messaging.NextKeepsGood | cpp_concurrency_in_action/messaging.cpp:92-243 | Every step keeps the invariant behind the results below. |
| Messaging.WithdrawalAnswerIsCurrent | cpp_concurrency_in_action/messaging.cpp:106-119 | If no PIN is sent while one is unanswered, every answer to a withdrawal that is consumed is the answer to the last withdrawal and for the amount shown. |
| Messaging.MoneyIsConserved | cpp_concurrency_in_action/messaging.cpp:221-243 | In such a run the balance, what has been issued and what was accepted but not paid are 199 together, and only a cancelled or the current withdrawal is accepted and unpaid. |
| Messaging.NextKeepsSteady | cpp_concurrency_in_action/messaging.cpp:92-243 | Every step of every run, late cancels included, keeps what is recorded as paid equal to what is issued, and the bank's books in agreement. |
| Messaging.EveryRunBalances | cpp_concurrency_in_action/messaging.cpp:107-118 | In every run the same three exceed 199 by exactly the amounts of the requests paid and not accepted. |
| Messaging.ConservedIffPaidAccepted | cpp_concurrency_in_action/messaging.cpp:107-118 | A run ends with money conserved if and only if every request paid is accepted or for nothing. |
| Messaging.OnlyWrongPaymentsAdd | cpp_concurrency_in_action/messaging.cpp:107-110 | Taking a `withdraw_ok` adds the amount shown to what is paid and not accepted, unless the last request is accepted or the amount is 0; no other step adds to it. |
| Messaging.PayingKeepsBooksIff | cpp_concurrency_in_action/messaging.cpp:107-110 | Taking a `withdraw_ok` keeps conserved books if and only if the last request is accepted already or the amount shown is 0. |
| Messaging.ConservedThroughoutIff | cpp_concurrency_in_action/messaging.cpp:107-110 | A run conserves money at every moment if and only if every `withdraw_ok` it takes finds the last request accepted or for nothing. |
| Messaging.NoLateCancelNoOverlap | cpp_concurrency_in_action/messaging.cpp:146-156 | If cancel is never consumed while a PIN is being verified, no PIN is sent while one is unanswered. |
| Messaging.LateCancelBreaksConservation | cpp_concurrency_in_action/messaging.cpp:146-156 | A run with one such cancel that ends with 149 on the account and 500 paid out. |
| Sessions.BankDecidesInOrder | cpp_concurrency_in_action/messaging.cpp:224-243 | In every run the bank decides in the order of the requests: a withdrawal is accepted if and only if what the accepted ones before it have left covers it, and a balance in a reply is what was left at its request. |
| Sessions.RightPinFirst | cpp_concurrency_in_action/messaging.cpp:146-156 | In every run a PIN request with the right PIN precedes every withdrawal and balance request, and whoever is past the PIN got there by one; without overlapping PINs the last PIN asked about is the right one. |
| Sessions.RunIsLawful | cpp_concurrency_in_action/messaging.cpp:92-243 | The invariant behind both holds in every state of every run. |
| Sessions.OutputsInOrder | cpp_concurrency_in_action/messaging.cpp:106-195 | In every run each message the machine sends is one that may follow the one before: after a wrong PIN the card is ejected before anything is asked of the bank, and money is issued only right after a withdrawal of that amount was requested. |
| Sessions.NewsIsShown | cpp_concurrency_in_action/messaging.cpp:106-155 | What is shown are the answers taken while they were waited for, each once and in order, with their amounts. |
| Sessions.BankIsToldRightly | cpp_concurrency_in_action/messaging.cpp:94-179 | What is sent to the bank names the account of the card inserted last, the PIN typed since and the amount chosen or typed, corrections included. |
| Sessions.DigitsAreAppended | cpp_concurrency_in_action/messaging.cpp:94-99 | Typing a number appends it to the amount there before, in a 32-bit word. |
| Sessions.AmountIsTypedIff | cpp_concurrency_in_action/messaging.cpp:94-99 | So the amount is the number typed if and only if what was there before is shifted out of the word. |
| Sessions.ClearTakesBackIff | cpp_concurrency_in_action/messaging.cpp:99-101 | Clearing takes back the last digit if and only if that digit did not overflow the word. |
| MessagingMachines.ServedDropsUnhandled | cpp_concurrency_in_action/messaging.h:88-114 | The waiting loop drops exactly the messages before the first one with a handler, and is a run of the cash machine's steps. |
| MessagingMachines.Machines.WaitAndDispatch | cpp_concurrency_in_action/messaging.h:88-105 | The loop over the queue in place comes to exactly what `Served` says, and keeps the invariant. |
| MessagingMachines.Machines.Offer | cpp_concurrency_in_action/messaging.cpp:92-190 | The handlers of the current state, assigning fields, do exactly what `Handle` says, about which `Sessions` and `Messaging` prove where each answer leads. |
| MessagingMachines.Machines.AnswerMessage | cpp_concurrency_in_action/messaging.cpp:224-243 | The bank's handlers in place do exactly what `Answer` says: they reply before they book. |
| MessagingMachines.Machines.Press | cpp_concurrency_in_action/messaging.cpp:341-364 | A key put into the cash machine's queue is the step of `Next`, and keeps the invariant. |
| MessagingMachines.Machines.SwitchOffBank | cpp_concurrency_in_action/messaging.cpp:244-247 | Closing the bank's queue is the step of `Next`, and keeps the invariant. |
| MessagingMachines.Machines.AtmStep | cpp_concurrency_in_action/messaging.cpp:201-214 | A step of the cash machine in place is the step of `Next`, and keeps the invariant. |
| MessagingMachines.Machines.BankStep | cpp_concurrency_in_action/messaging.cpp:248-261 | A step of the bank in place is the step of `Next`, and keeps the invariant. |
| ReclaimStack.NextKeepsInv | cpp_concurrency_in_action/lock_free_concurrent_data_structures.h:120-200 | Every atomic access of `push` and `pop` keeps the linked nodes, their owners, the counter and the log in agreement as long as at most 2^32 pops have begun. |
| ReclaimStack.CheckCounts | cpp_concurrency_in_action/lock_free_concurrent_data_structures.h:161-163 | A pop goes on to free its node if and only if it is the sole popper in flight and no pop before it has left the counter too high. |
| ReclaimStack.NoFreedNodeTouched | cpp_concurrency_in_action/lock_free_concurrent_data_structures.h:120-200 | With addresses reused after `delete`, no run of at most 2^32 pops touches a freed node; `m_pToBeDeleted_a` is always null and the counter is the poppers in flight plus the pops that found it other than 1. |
| ReclaimStack.NoStaleLink | cpp_concurrency_in_action/lock_free_concurrent_data_structures.h:186-193 | When a pop's exchange can succeed, the link it read earlier is the link of the top node. |
| ReclaimStack.FreedAlone | cpp_concurrency_in_action/lock_free_concurrent_data_structures.h:161-174 | A node about to be deleted is not linked and no other thread holds or watches it. |
| ReclaimStack.NodesAccounted | cpp_concurrency_in_action/lock_free_concurrent_data_structures.h:160-176 | When no call is under way the nodes in memory are those linked and, emptied, at most one for each pop that has left the counter too high. |
| ReclaimStack.Linearizable | cpp_concurrency_in_action/lock_free_concurrent_data_structures.h:177-200 | Every run of at most 2^32 pops is linearizable to a last-in first-out stack: the log replays to the linked values; every returned call took effect exactly once between its start and end, with the result it returned and as an answer to what it was called for; and effects and calls are one to one, so that every entry of the log belongs to exactly one call. |
| ReclaimStack.NextKeepsOneToOne | cpp_concurrency_in_action/lock_free_concurrent_data_structures.h:120-200 | Every step keeps effects and calls one to one: it logs no second effect of a call, none of a call that did not begin, and no call returns without its effect. |
| ReclaimStack.NothingLost | cpp_concurrency_in_action/lock_free_concurrent_data_structures.h:177-200 | When all calls have returned, what they have reported is the log, and the values pushed are, each as often, those popped and those still linked. |
| ReclaimStack.OnePopMoreFaults | cpp_concurrency_in_action/lock_free_concurrent_data_structures.h:161-174 | The bound is sharp: a run of two threads with 2^32 + 1 pops that reads a freed node. |
| ReclaimStack.SafeIffFewPops | cpp_concurrency_in_action/lock_free_concurrent_data_structures.h:120-200 | All runs of at most k pops, of any number of threads, are free of faults if and only if k <= 2^32. |
| ReclaimStack.ExchangeFailsOnlyAfterEffect | cpp_concurrency_in_action/lock_free_concurrent_data_structures.h:180-194 | However long after a thread has read the head, its exchange fails without being spurious only if some operation has taken effect in between. |
| ReclaimStack.LockFree | cpp_concurrency_in_action/lock_free_concurrent_data_structures.h:120-200 | Without spurious failures n threads make at most 13 n + 1 steps that change anything for each operation that takes effect, and 13 n more. |
| ReclaimStack.ReclaimingStack.StartPush | cpp_concurrency_in_action/lock_free_concurrent_data_structures.h:177-180 | Entering `push` is the step of `Next`, and keeps the invariant up to 2^32 pops. |
| ReclaimStack.ReclaimingStack.StartPop | cpp_concurrency_in_action/lock_free_concurrent_data_structures.h:186-188 | Entering `pop` is the step of `Next`, and keeps the invariant up to 2^32 pops. |
| ReclaimStack.ReclaimingStack.Step | cpp_concurrency_in_action/lock_free_concurrent_data_structures.h:120-200 | The object's step changes memory to exactly the state of `Next`, and keeps the invariant up to 2^32 pops. |
| Histories.InRealTime | cpp_concurrency_in_action/lock_free_concurrent_data_structures.h:177-200 | Calls that do not overlap take effect in their order. |
| Histories.MoveKeepsOneToOne | cpp_concurrency_in_action/lock_free_concurrent_data_structures.h:177-200 | Effects and calls stay one to one when a call begins, when one that has had no effect has it, and when one that has had its effect returns. |
| Histories.ReportsAreLog | cpp_concurrency_in_action/lock_free_concurrent_data_structures.h:177-200 | If they are one to one and no call that has had its effect is still to return, the results returned are exactly the log's events, each as often. |
| Histories.QueueInOrder | cpp_concurrency_in_action/lock_based_concurrent_data_structures.h:384-482 | In a legal log of a queue the values popped, and after them those in it, are the values pushed, in that order. |
| Histories.StackLosesNothing | cpp_concurrency_in_action/lock_free_concurrent_data_structures.h:177-200 | In a legal log of a stack the values popped and those in it are the values pushed, each as often. |
| DummyTailQueue.NextKeepsInv | cpp_concurrency_in_action/lock_based_concurrent_data_structures.h:384-478 | Every step of any number of producers and consumers, and of the single ones without mutexes, keeps the chain from the head to the dummy tail, the owners and the log in agreement. |
| DummyTailQueue.Linearizable | cpp_concurrency_in_action/lock_based_concurrent_data_structures.h:384-482 | Every run is linearizable to a first-in first-out queue and touches no freed node: the log replays to the linked values, every returned call took effect exactly once between its start and end, with the result it returned and as an answer to what it was called for, and every entry of the log belongs to exactly one call. |
| DummyTailQueue.CallsAnswered | cpp_concurrency_in_action/lock_based_concurrent_data_structures.h:391-465 | In every run each push takes effect with, and reports, the value it was called with, and a pop that waits never takes effect or returns without a value. |
| DummyTailQueue.FirstIsTaken | cpp_concurrency_in_action/lock_based_concurrent_data_structures.h:389-433 | A pop that tests a queue that is not empty goes on to unlink, and what it unlinks is the first node. |
| DummyTailQueue.NextKeepsOneToOne | cpp_concurrency_in_action/lock_based_concurrent_data_structures.h:384-478 | Every step keeps effects and calls one to one. |
| DummyTailQueue.PoppedInOrder | cpp_concurrency_in_action/lock_based_concurrent_data_structures.h:384-482 | So each value is popped at most once and in order: in every run the values popped, and after them those linked, are the values pushed; and when all calls have returned, what they have reported is the log. |
| DummyTailQueue.DeletedIsUnused | cpp_concurrency_in_action/lock_free_concurrent_data_structures.h:453-496 | The node a consumer deletes is never the dummy node, the producer's tail, or any node another thread is at work on. |
| DummyTailQueue.NoDeadlock | cpp_concurrency_in_action/lock_based_concurrent_data_structures.h:384-478 | As long as a call is under way, some thread in a call is not waiting for a held mutex. |
| DummyTailQueue.UnblockedAdvances | cpp_concurrency_in_action/lock_free_concurrent_data_structures.h:453-496 | A thread that is not waiting for a mutex comes closer to the end of its call, except that a pop that waits starts anew when the queue is empty; without mutexes none ever waits for one. |
| DummyTailQueue.NoLeak | cpp_concurrency_in_action/lock_free_concurrent_data_structures.h:446-496 | When no call is under way the allocated nodes are exactly those of the queue. |
| DummyTailQueue.NodeQueue.StartPush | cpp_concurrency_in_action/lock_based_concurrent_data_structures.h:466-478 | Entering `push` is the step of `Next`, and keeps all that every run keeps. |
| DummyTailQueue.NodeQueue.StartPop | cpp_concurrency_in_action/lock_based_concurrent_data_structures.h:435-465 | Entering a function that pops is the step of `Next`, and keeps all that every run keeps. |
| DummyTailQueue.NodeQueue.Step | cpp_concurrency_in_action/lock_free_concurrent_data_structures.h:453-496 | The object's step changes memory to exactly the state of `Next`, and keeps all that every run keeps. |
| DummyTailQueue.NodeQueue.Destroy | cpp_concurrency_in_action/lock_free_concurrent_data_structures.h:467-476 | The destructor deletes every node. |
| Wakeups.NextKeepsInv | cpp_concurrency_in_action/lock_based_concurrent_data_structures.h:395-478 | Every step of testing, sleeping, waking, taking and pushing keeps the mutex with its holder and somebody awake for every value while anyone waits and no notification has been missed. |
| Wakeups.SomebodyForEachValue | cpp_concurrency_in_action/lock_based_concurrent_data_structures.h:395-400 | In every run in which no notification has been missed there are, while anyone sleeps, no more values than threads on their way to one or about to notify; so nobody is left asleep beside a value. |
| Wakeups.MissedIsStuck | cpp_concurrency_in_action/lock_based_concurrent_data_structures.h:395-478 | A push that notifies between another thread's test and its sleep leaves that thread asleep beside the value if the others are idle. |
| Wakeups.StuckForEver | cpp_concurrency_in_action/lock_based_concurrent_data_structures.h:395-400 | From there no step of those that are in a call changes anything. |
| Wakeups.StuckIffTwoThreads | cpp_concurrency_in_action/lock_based_concurrent_data_structures.h:384-478 | Some run gets there if and only if there are two threads or more. |
| HandOverHandList.NextKeepsInv | cpp_concurrency_in_action/lock_based_concurrent_data_structures.h:661-714 | Every step of any number of pushes and traversals keeps the list linked and ordered by birth, every mutex held by the thread that should, and every traversal's account of what it has dealt with. |
| HandOverHandList.EveryRunIsSafe | cpp_concurrency_in_action/lock_based_concurrent_data_structures.h:661-714 | No run destroys a locked node, touches a destroyed one, or touches one that it has not locked. |
| HandOverHandList.DestroyedIsUnused | cpp_concurrency_in_action/lock_based_concurrent_data_structures.h:704-708 | When `remove_if` destroys a node no other thread holds or waits for its mutex. |
| HandOverHandList.OneIsAhead | cpp_concurrency_in_action/lock_based_concurrent_data_structures.h:669-714 | Of two traversals exactly one is ahead. |
| HandOverHandList.NoOvertaking | cpp_concurrency_in_action/lock_based_concurrent_data_structures.h:669-714 | Traversals never overtake one another. |
| HandOverHandList.NoDeadlock | cpp_concurrency_in_action/lock_based_concurrent_data_structures.h:661-714 | As long as a call is under way, some thread in a call is not waiting for a held mutex. |
| HandOverHandList.UnblockedAdvances | cpp_concurrency_in_action/lock_based_concurrent_data_structures.h:661-714 | A thread that is not waiting comes closer to the end of its call. |
| HandOverHandList.OthersNeverDelay | cpp_concurrency_in_action/lock_based_concurrent_data_structures.h:661-714 | What others do brings a traversal that has locked the head no further from its end, so that it takes no more steps than it had left then. |
| HandOverHandList.RemoveIfRemoves | cpp_concurrency_in_action/lock_based_concurrent_data_structures.h:698-714 | When `remove_if` ends, no node is left that was there when it locked the head and satisfies the predicate. |
| HandOverHandList.ForEachShowsAll | cpp_concurrency_in_action/lock_based_concurrent_data_structures.h:669-680 | `for_each` has shown, each once and in list order, all nodes that were there when it locked the head and are there when it ends. |
| HandOverHandList.FindFirstFinds | cpp_concurrency_in_action/lock_based_concurrent_data_structures.h:682-696 | `find_first_if` stops at a match with none before it among the nodes that were there at its start, or there is none among them. |
| HandOverHandList.ListChanges | cpp_concurrency_in_action/lock_based_concurrent_data_structures.h:661-714 | The list changes only by one node put in front, or one taken out that satisfies the predicate of a `remove_if`; the survivors keep their order. |
| HandOverHandList.NextKeepsBooks | cpp_concurrency_in_action/lock_based_concurrent_data_structures.h:661-714 | Every step keeps each node's value that of the push that made it, and the values pushed those linked and those removed. |
| HandOverHandList.ValuesAccounted | cpp_concurrency_in_action/lock_based_concurrent_data_structures.h:661-714 | In every run each node of the list holds the value with which the push that linked it was called, and the values pushed are, each as often, those in the list and those removed. |
| HandOverHandList.NoLeak | cpp_concurrency_in_action/lock_based_concurrent_data_structures.h:698-714 | When no call is under way the nodes in memory are exactly those of the list. |
| HandOverHandList.List.StartPush | cpp_concurrency_in_action/lock_based_concurrent_data_structures.h:661-667 | Entering `push_front` is the step of `Next`, and keeps the invariant. |
| HandOverHandList.List.StartTraverse | cpp_concurrency_in_action/lock_based_concurrent_data_structures.h:669-714 | Entering `for_each`, `find_first_if` or `remove_if` is the step of `Next`, and keeps the invariant. |
| HandOverHandList.List.Step | cpp_concurrency_in_action/lock_based_concurrent_data_structures.h:661-714 | The object's step changes the nodes to exactly the state of `Next`, and keeps the invariant and the account of the values. |
| HierarchicalMutex.AdmittedIff | cpp_concurrency_in_action/thread_sharing_data.h:212-219 | The check lets a lock through if and only if the mutex is below all those held and below the largest level. |
| HierarchicalMutex.TryLockTakesIff | cpp_concurrency_in_action/thread_sharing_data.h:244-252 | `try_lock` takes the mutex if and only if it is free and below the levels held, and otherwise changes nothing. |
| HierarchicalMutex.LockTakesIff | cpp_concurrency_in_action/thread_sharing_data.h:231-236 | `lock` takes it under the same condition; it throws if the mutex is not below the levels held, and waits if it is not free. |
| HierarchicalMutex.UnlockUndoesLock | cpp_concurrency_in_action/thread_sharing_data.h:231-243 | Unlocking the mutex just locked gives back the state before, but for the value that the mutex remembers. |
| HierarchicalMutex.NextKeepsInv | cpp_concurrency_in_action/thread_sharing_data.h:212-252 | With last-in first-out unlocking every step of every thread keeps the invariant below. |
| HierarchicalMutex.LevelsDecrease | cpp_concurrency_in_action/thread_sharing_data.h:221-252 | In every such run the levels a thread holds decrease strictly, and its thread-local value is the innermost one, or the largest value if it holds none. |
| HierarchicalMutex.WantedDecreases | cpp_concurrency_in_action/thread_sharing_data.h:231-236 | Along a chain of waiting threads the levels wanted decrease. |
| HierarchicalMutex.NoCycle | cpp_concurrency_in_action/thread_sharing_data.h:231-236 | No cycle of waiting threads is reachable, for any threads and mutexes. |
| HierarchicalMutex.SomeOwnerIsFree | cpp_concurrency_in_action/thread_sharing_data.h:231-236 | Following the owners from a waiting thread leads to one that does not wait. |
| HierarchicalMutex.RestoresIffLast | cpp_concurrency_in_action/thread_sharing_data.h:237-243 | Unlocking restores the value for the mutexes still held if and only if it unlocks the one locked last. |
| HierarchicalMutex.OtherOrderDeadlocks | cpp_concurrency_in_action/thread_sharing_data.h:237-243 | With unlocking in any order, whenever there are two threads or more and two mutexes of different levels below the largest value, some run makes two threads wait for one another. |
| HierarchicalMutex.DeadlockIffNotLast | cpp_concurrency_in_action/thread_sharing_data.h:231-243 | From every state that the invariant allows, unlocking a mutex makes a deadlock reachable, with all later unlocking last-in first-out, if and only if it is not the one the thread locked last; the thread may then wait for a mutex that it holds itself. |
| HierarchicalMutex.WaitForEachOther | cpp_concurrency_in_action/thread_sharing_data.h:231-243 | After such an unlocking every second idle thread that may lock the mutex set free can come to wait for the first one while that one waits for it. |
| HierarchicalMutex.DeadlocksIffTwoLevels | cpp_concurrency_in_action/thread_sharing_data.h:212-252 | With unlocking in any order, a run that ends in a cycle of waiting threads exists if and only if there are a thread and two mutexes of different levels, both below the largest value. |
| HierarchicalMutex.Mutexes.Step | cpp_concurrency_in_action/thread_sharing_data.h:212-252 | The object's step changes its fields to exactly the state of `Next`, and keeps the invariant if mutexes are unlocked in the reverse order. |
| BracketMatch.FindEndOfExpressionInLine | tools/ci/cpplint.py:1492-1567 | The loop over a line, all branches for angle brackets and semicolons included, comes to exactly what `FindEnd` says, which `CloseIff` and `CloseAnglesIff` characterise. |
| BracketMatch.FindStartOfExpressionInLine | tools/ci/cpplint.py:1614-1688 | The backward loop comes to exactly what `FindStart` says, which `ReverseIff` and `ReverseAnglesIff` characterise. |
| BracketMatch.CloseExpression | tools/ci/cpplint.py:1570-1611 | The loop over the lines comes to exactly what `Close` says, failures included. |
| BracketMatch.ReverseCloseExpression | tools/ci/cpplint.py:1691-1726 | The backward loop over the lines comes to exactly what `ReverseClose` says. |
| BracketMatch.OperatorIff | tools/ci/cpplint.py:1518-1520 | The regular expression `\boperator\s*$` accepts exactly the text that ends with the word and white space. |
| BracketMatch.CloseIff | tools/ci/cpplint.py:1570-1611 | From `(`, `[` or `{`, on all text: a place is found if and only if it is just after the partner and the text between is well bracketed, whatever stands there for comparisons, shifts, arrows and template arguments. |
| BracketMatch.CloseAnglesIff | tools/ci/cpplint.py:1510-1563 | From a `<` that may open template arguments: a place is found if and only if it is just after a `>` that may close some and the text between is nested, with brackets and angle brackets in pairs. |
| BracketMatch.CloseFindsPartnerOfFour | tools/ci/cpplint.py:1570-1611 | With `<` and `>` as a fourth pair: if a bracket, the text between and its partner are well bracketed and no sign is an operator's, the place after the partner is found. |
| BracketMatch.CloseFindsPartner | tools/ci/cpplint.py:1570-1611 | The character before the place that is found is the partner, with well-bracketed text before it; otherwise the failure is reported as the number of lines and -1. |
| BracketMatch.CloseIsBalanced | tools/ci/cpplint.py:1570-1611 | The text up to the place that is found is well bracketed. |
| BracketMatch.CloseIsShortest | tools/ci/cpplint.py:1570-1611 | If some text from the bracket on is well bracketed, a place is found no later than its end. |
| BracketMatch.CloseBeginsAt | tools/ci/cpplint.py:1592-1594 | A place is found only from an opening bracket or from a `<` that is not followed by `<` or `=`. |
| BracketMatch.CloseFromOperator | tools/ci/cpplint.py:1592-1599 | From a `<` that is the second one of a shift or belongs to an operator's name, what is found is the end of the next expression on the line. |
| BracketMatch.ReverseIff | tools/ci/cpplint.py:1691-1726 | From `)`, `]` or `}`, on all text: a place is found if and only if it is at the partner and the text between is well bracketed. |
| BracketMatch.ReverseAnglesIff | tools/ci/cpplint.py:1637-1661 | From a `>` that may close template arguments: a place is found if and only if it is at a `<` that may open some and the text between is nested as read from its end. |
| BracketMatch.RoundTrip | tools/ci/cpplint.py:1691-1726 | On all text the backward scanner returns from a closing bracket to an opening one if and only if the forward one comes from that to the place after the closing one. |
| BracketMatch.AnglesRoundTrip | tools/ci/cpplint.py:1691-1726 | The same from `<` and `>`, if both scanners take every angle bracket from the one to the other for one. |
| BracketMatch.AnglesDoNotRoundTrip | tools/ci/cpplint.py:1637-1650 | An example beside `AnglesRoundTrip`, not a result of its own: a line with `>=` on which the forward scanner finds a place and the backward one does not return. |
| AngleBrackets.TokensAreScan | tools/ci/cpplint.py:1510-1567 | Above a bracket, what is taken for an angle bracket makes no difference: the scanner for tokens does what a scanner for brackets alone does. |
| AngleBrackets.FoundIffNested | tools/ci/cpplint.py:1510-1567 | From `<` the scanner for tokens finds the end exactly at the `>` before which the text is nested. |
| AngleBrackets.MirrorNestedIff | tools/ci/cpplint.py:1614-1688 | Text without shifts is nested if and only if it is nested as read from its end. |
| Brackets.ScanFindsShortest | tools/ci/cpplint.py:1492-1567 | Scanning with a stack finds the shortest well-bracketed prefix, if there is one. |
| Brackets.ScanBack | tools/ci/cpplint.py:1614-1688 | Scanning backwards from the closing bracket ends at the opening one, whatever stands before it. |
| PreprocessorStack.FirstBranchesDecide | tools/ci/cpplint.py:2429-2483 | For any lines, balanced or not: outside later branches the stacks are those that the first branches alone would give. |
| PreprocessorStack.KindIsMatched | tools/ci/cpplint.py:2450-2469 | A line counts as `#if`, `#else` or `#endif` if and only if it matches that regular expression. |
| PreprocessorStack.RunIsStackAfter | tools/ci/cpplint.py:2429-2483 | For any lines, balanced or not, both stacks are those of a reference that looks back in the text: at `#else` and `#elif` the stack is that before the conditional's `#if`, at `#endif` that before its first `#else`. |
| PreprocessorStack.BranchStartsOver | tools/ci/cpplint.py:2450-2465 | From any state: an `#else` or `#elif` that belongs to an `#if` starts over, before its own edits, with the stack before that `#if`, whatever branches came between. |
| PreprocessorStack.LaterBranchAlone | tools/ci/cpplint.py:2450-2465 | So within each later branch the stack is what that branch alone makes of the stack before the `#if`. |
| PreprocessorStack.OuterBlocksKept | tools/ci/cpplint.py:2486-2514 | Blocks opened outside are kept by lines that close no more than they open. |
| PreprocessorStack.WellNestedRestores | tools/ci/cpplint.py:2429-2483 | Well-nested lines, to any depth and from any state, leave `pp_stack` as it was. |
| PreprocessorStack.WellNestedFirstBranches | tools/ci/cpplint.py:2429-2483 | And the nesting stack is what the first branch of each conditional with its `#if` and `#endif` gives. |
| PreprocessorStack.NestingState.UpdatePreprocessor | tools/ci/cpplint.py:2429-2483 | The update in place, with deep copies of blocks that are objects, does exactly what `UpdatePp` says, which `RunIsStackAfter` ties to the text, and no block comes to be shared between stacks. |
| PreprocessorStack.NestingState.UpdateLine | tools/ci/cpplint.py:2486-2514 | A line that then changes, opens or closes blocks in place does exactly what `Update` says: no saved stack sees the changes. |

## Left out

- Weak memory orders: all programs are modelled as sequentially consistent.
- Logging, sleeping, the console, the user-interface machine and the code that drives the examples.
- Exceptions thrown by user code, interruption, timed waits, `parallel_accumulate`, the `for_each` variants, and the stacks and queues with a single mutex: they would add only easy members.
- `parallel_find_async`: its early return makes the claim that it returns a match false under concurrency.
- `threadsafe_queue_fine_grained` with several consumers, which its own comment calls broken, and the disabled or unfinished reference-counting stacks and queues.
- Element types: the elements that are sorted, summed, searched, pushed and popped are integers without overflow; the barrier's and the stack's counters, the stride and the amounts of money do wrap.
- Sizes: `parallel_partial_sum` computes with lengths that do not overflow an `unsigned long`.
- HelpingSort.NextKeepsInv: creating a worker and growing the vector of workers is one step, the pools are fully built, and the flag that tells workers to stop is not set while the sort runs.
- HelpingSort.NoDeadlock: a failed look for work over several queues is allowed whenever there are several, which covers more interleavings than the code has.
- PairwiseScan.ScheduleIndependent: assumes at most 2^31 elements, so that `stride` does not wrap before it passes the index; the creation of the threads is not modelled.
- PartialSum.EveryScheduleSums: an empty range, on which the function returns at once, is not modelled.
- Messaging.MoneyIsConserved: the bank and one cash machine; a second account or machine would need account numbers in the bank, which it does not have.
- ReclaimStack.NoFreedNodeTouched: the read of the deleted node's value in a log line is not modelled.
- ReclaimStack.LockFree: an exchange may fail spuriously any number of times, and a run in which that happens is not bounded.
- DummyTailQueue.Linearizable: a wait on the condition variable is a new attempt at any time; who is woken is modelled in `Wakeups.dfy` alone.
- Wakeups.NextKeepsInv: the queue is the number of its values, with a node linked in one step, and nobody wakes up without being notified.
- HandOverHandList.NextKeepsInv: what a thread does to nodes whose mutexes it holds is one step; the model checks that it holds them. Functions passed to a traversal do not call the list.
- HierarchicalMutex.NextKeepsInv: a thread unlocks only mutexes that it has locked, as `std::mutex` demands.
- BracketMatch.AnglesRoundTrip: where the scanners take a sign differently (`->`, `>=`, `operator>` and shifts) there is only the condition of each, in `CloseAnglesIff` and `ReverseAnglesIff`.
- BracketMatch.CloseFromOperator: what is found beyond the end of the line is not stated.
- PreprocessorStack.FirstBranchesDecide: what a line does to the blocks otherwise is an arbitrary function of the line and the stack; the regular expressions that decide it are not modelled.

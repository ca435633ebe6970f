# The blocking and scheduling kernel of libfibre, in Dafny

This project models the synchronization and scheduling core of libfibre (`src/runtime`) and
proves properties of the model.  The concurrent protocols are state machines: a `State`, a
total function `Step(s, t, a)` that performs the next shared-memory access of thread `t`
(`a` resolves what the code leaves open: what an idle thread begins, a timer that fires, a
failed or spurious attempt), an invariant kept by every step of any thread, and theorems about
every schedule.  The sequential parts are classes with arrays or node objects, and methods with
the loops of the source.

| file | models |
|---|---|
| `NemesisDouble.dfy` | doubly linked Nemesis queue with push, pop and removal, used as untimed block and unblock use it (`src/runtime/ConditionalNemesisQueue.h`) |
| `NemesisQueue.dfy`, `StubQueue.dfy` | the two MPSC queues (`src/runtime/LockFreeQueues.h`) |
| `TimedSemaphore.dfy`, `TimerQueue.dfy` | blocking queue with timeouts, counting semaphore, timer queue (`src/runtime/BlockingSync.h`) |
| `FredMutex.dfy`, `FastMutex.dfy` | the default mutexes: `SpinCondMutex` over `ConditionalQueue`, and `SpinSemMutex` over a benaphore (`src/runtime/BlockingSync.h`, `src/runtime/Benaphore.h`) |
| `FastBarrier.dfy`, `RWLock.dfy` | barrier and readers-writer lock (`src/runtime/BlockingSync.h`) |
| `CancellingSemaphore.dfy` | counter protocol of the semaphore with cancellation (`src/runtime/MCSTimeoutSemaphore.h`) |
| `IdleManager.dfy`, `TokenIdleManager.dfy` | both idle managers with the idle loop, work stealing, halt and wake (`src/runtime/Scheduler.h`, `src/runtime/BaseProcessor.cc`, `src/runtime/BaseProcessor.h`) |
| `FredSwitch.dfy` | suspend, resume, yield and termination of freds on workers (`src/runtime/Fred.h`, `src/runtime/Fred.cc`) |
| `MCSLock.dfy` | the MCS spin lock (`src/runtime/SpinLocks.h`) |
| `Words.dfy`, `Bitmap.dfy`, `Hierarchy.dfy`, `HierarchicalBitmap.dfy` | word scans, bitmap, hierarchical bitmap (`src/runtime/Platform.h`, `src/runtime/Bitmap.h`) |
| `RingList.dfy`, `SentinelQueue.dfy` | intrusive ring, list, queue and stack (`src/runtime/Container.h`) |
| `Memory.dfy`, `Division.dfy`, `Wrappers.dfy` | what the others share |

How to read the models:

- Memory is sequentially consistent, counters and times are mathematical integers, and a thread
  is a number.  A map key that is absent stands for the initial value, so there is no bound on
  threads, freds or nodes.
- A spin loop is a step that changes nothing while its condition fails; spin counts are choices
  of the schedule.
- Fields marked as history record what has happened, for the statements.  A step depends on
  them only for the caller's obligations: a fred is resumed at most once for each suspension, a
  node is passed to a call only while no other call uses it.
- Three kinds of results are proved for every protocol: invariants over every run; what a call
  answers and when it can fail, as conditions on the state it meets; and progress, as the
  absence of deadlock in every run (for the readers-writer lock, in runs without timeouts) and
  as the outcome of calls that run undisturbed.
- In both idle managers an unblock may name a preferred worker, as with
  `TESTING_WAKE_FRED_WORKER`; without one the first of the list is woken.
- Where one protocol is built on another that is proved here, it uses the proved abstraction:
  the mutex, the barrier and the ready queues see a Nemesis queue as a sequence whose pop may
  miss elements that are not linked yet.
- `dafny verify dfyconfig.toml` checks everything.

Findings, each with the exact condition or a concrete run:

- `findnext` divides the bucket count without rounding up when it climbs
  (`src/runtime/Bitmap.h:243`): it is complete exactly for bucket counts `k * B^j` with `k < B`
  (`Hierarchy.CompleteIffAligned`).
- A timed-out writer's node still makes `bqW` non-empty, so a reader can go to sleep at an open
  readers-writer lock and stay there (`RWLock.TimedReaderStranded`); that reader's step is the
  only way to get there (`RWLock.StrandsIffBlocksOpen`), and a run is free of such waiters
  exactly when it has no such step (`RWLock.NeverOpenIffNeverBlocksOpen`).
- The Go-style idle manager covers the front of each ready queue and no other position
  (`IdleManager.CoveredIffFirst`).  A fred behind an enqueue that has exchanged `tail` and not
  linked yet can have a finished enqueuer while all workers sleep
  (`IdleManager.SettledBehindUnlinked`); then the front's enqueuer is still to call `unblock`
  (`IdleManager.UnattendedIsBehindOwed`).
- `List::remove(first, count)` and `Queue::pop(count)` remove one node for a count of 0 and
  report 0; `Queue::pop(count)` on an empty queue leaves the count as given;
  `Stack::pop(count)` looks for a null link where the stack ends in the sentinel, and
  is right exactly for counts up to the size.
- The length that `findrange` returns wraps when the first member at or after `start` lies
  beyond `max`, and is right in all other cases below 2^64 (`HierarchicalBitmaps.CountIsRight`,
  `HierarchicalBitmaps.RangeWraps`).

## Model

| member | source | states |
|---|---|---|
| `NemesisDouble.Refines` | src/runtime/ConditionalNemesisQueue.h:26-129 | every step of every thread is a step of a sequence with deletion: a push appends its whole segment at the tail exchange, a pop deletes the first node, a removal deletes exactly its node and keeps the order of the rest, and all other steps leave the sequence alone |
| `NemesisDouble.StepKeeps` | src/runtime/ConditionalNemesisQueue.h:26-129 | the link invariant survives every step: `tail` is the last node, neighbours are linked both ways unless the pusher is between exchange and link, and the first node is `head` or is about to be stored there |
| `NemesisDouble.EveryRun` | src/runtime/ConditionalNemesisQueue.h:22-190 | the invariant holds in every state of every interleaving of any number of pushers and lock holders |
| `NemesisDouble.MemoryIsChain` | src/runtime/ConditionalNemesisQueue.h:68-79 | whenever no push or removal is half done, following Next from `head` meets exactly the sequence, and following Prev from `tail` meets its reverse |
| `NemesisDouble.WaitHasPusher` | src/runtime/ConditionalNemesisQueue.h:33-54 | a remover that spins on a missing link waits for a pusher that has exchanged `tail` and is about to store that very link |
| `NemesisDouble.NoStrayWrite` | src/runtime/ConditionalNemesisQueue.h:37-59 | no thread writes a link of a node that is out of the queue, except its user: a removed node may be reused at once |
| `NemesisDouble.EmptyPop` | src/runtime/ConditionalNemesisQueue.h:91-102 | the answer of pop: it is nullptr exactly if pop meets an empty queue, a first node whose pusher is about to store `head`, or a first node that another thread has claimed and waits to remove; no removal ends with nothing |
| `NemesisDouble.TakesClaimed` | src/runtime/ConditionalNemesisQueue.h:26-59 | what is taken out and returned is the node that the call has claimed, until it is out of the queue |
| `NemesisDouble.PushReportsEmpty` | src/runtime/ConditionalNemesisQueue.h:68-79 | push takes the branch that returns true exactly if the queue was empty at its exchange |
| `NemesisDouble.NoDeadlock` | src/runtime/ConditionalNemesisQueue.h:26-129 | in every run, while a call is under way some thread's next step takes its call further |
| `NemesisDouble.PushesAlone` | src/runtime/ConditionalNemesisQueue.h:68-79 | an undisturbed push appends its segment and returns in four steps at most |
| `NemesisDouble.PopsAlone` | src/runtime/ConditionalNemesisQueue.h:91-102 | an undisturbed pop claims the first node, or returns nothing if `head` is null |
| `NemesisDouble.RemovesAlone` | src/runtime/ConditionalNemesisQueue.h:120-129 | an undisturbed removal of a queued node reaches removeHead or removeInternal for that node |
| `NemesisDouble.TakesHeadAlone` | src/runtime/ConditionalNemesisQueue.h:26-36 | undisturbed, removeHead takes the node out and moves `head`, and `tail` if it was the last |
| `NemesisDouble.TakesMidAlone` | src/runtime/ConditionalNemesisQueue.h:41-58 | undisturbed, removeInternal takes the node out, joins its neighbours, and moves `tail` if it was the last |
| `NemesisDouble.GivesBackAlone` | src/runtime/ConditionalNemesisQueue.h:36-37 | the node returned is the caller's, with its link cleared and the lock released |
| `NemesisQueue.FirstInFirstOut` | src/runtime/LockFreeQueues.h:42-98 | in every run the popped nodes, in the order of the head loads, are a prefix of the pushed nodes in the order of the tail exchanges; what is missing is in the queue, each node once |
| `NemesisQueue.CoreKeeps` | src/runtime/LockFreeQueues.h:42-98 | every step keeps the links, `tail`, `head` and the ownership of each node consistent, although poppers repair `head` and `tail` after releasing the lock |
| `NemesisQueue.FifoKeeps` | src/runtime/LockFreeQueues.h:42-98 | the content changes with a push's exchange and a pop's head load, and with no other step |
| `NemesisQueue.EveryRun` | src/runtime/LockFreeQueues.h:26-104 | both invariants hold in every run |
| `NemesisQueue.OneWriter` | src/runtime/LockFreeQueues.h:72-95 | at most one thread at a time owes the next store to `head`, and then `head` is null and the queue is not empty |
| `NemesisQueue.MissingHeadIsOwed` | src/runtime/LockFreeQueues.h:72-95 | a null `head` with a non-null `tail` always has a thread that will store `head` |
| `NemesisQueue.WaitHasPusher` | src/runtime/LockFreeQueues.h:52-59 | a popper that spins waits for a pusher about to store that link |
| `NemesisQueue.NoStrayWrite` | src/runtime/LockFreeQueues.h:46-57 | once push and pop are done with a node, only its user writes its link |
| `NemesisQueue.MemoryIsContent` | src/runtime/LockFreeQueues.h:80-98 | when nothing is under way the Next links from `head` meet exactly the content |
| `NemesisQueue.FindsNothingIff` | src/runtime/LockFreeQueues.h:80-98 | the answer of pop: it finds nothing exactly if everything pushed has been popped or some thread owes the store to `head`; otherwise it takes the next node in push order |
| `NemesisQueue.PushReportsEmpty` | src/runtime/LockFreeQueues.h:42-48 | push takes the branch that returns true exactly if the linked part of the queue was empty at its exchange |
| `NemesisQueue.ReturnsWhatItTook` | src/runtime/LockFreeQueues.h:80-98 | a pop ends by returning the node it took, which is the user's then, with its link cleared |
| `NemesisQueue.NoDeadlock` | src/runtime/LockFreeQueues.h:42-98 | in every run, while a call is under way some thread's next step takes its call further |
| `NemesisQueue.PushesAlone` | src/runtime/LockFreeQueues.h:65-78 | an undisturbed push appends its segment and returns in three steps |
| `NemesisQueue.PopsAlone` | src/runtime/LockFreeQueues.h:80-90 | an undisturbed pop loads the head node and its link, or returns nothing if `head` is null |
| `NemesisQueue.PoppedAlone` | src/runtime/LockFreeQueues.h:42-62 | undisturbed, it then moves `head`, and `tail` if that was the last node, and returns the node |
| `StubQueue.FirstInFirstOut` | src/runtime/LockFreeQueues.h:122-176 | in every run, blocking or not, what was popped is a prefix of what was pushed in exchange order, and the rest is the chain with the stub left out |
| `StubQueue.StubStays` | src/runtime/LockFreeQueues.h:122-139 | the stub is in the chain once, or on its way to the end in the hands of the lock holder, and no pop returns it |
| `StubQueue.EmptyIsEmpty` | src/runtime/LockFreeQueues.h:122-133 | a pop that reports empty found every pushed element popped, and in blocking mode leaves the queue marked |
| `StubQueue.MarksAlternate` | src/runtime/LockFreeQueues.h:124-129 | markings and pushes that return true alternate: exactly one push returns true between two markings, a marked queue is empty, and moving the stub never consumes a mark |
| `StubQueue.CoreKeeps` | src/runtime/LockFreeQueues.h:114-182 | every step keeps the chain, its links, `head`, `tail` and the stub consistent |
| `StubQueue.FifoKeeps` | src/runtime/LockFreeQueues.h:150-176 | every step keeps pushed = popped + chain without the stub |
| `StubQueue.EveryRun` | src/runtime/LockFreeQueues.h:114-182 | the invariants hold in every run of both modes |
| `StubQueue.WaitHasPusher` | src/runtime/LockFreeQueues.h:133-172 | a popper that spins on a link has a pusher that still has to store it |
| `StubQueue.EmptyIff` | src/runtime/LockFreeQueues.h:122-133 | a pop reports an empty queue exactly if everything pushed has been popped |
| `StubQueue.FetchesNext` | src/runtime/LockFreeQueues.h:133-172 | a pop that does not report empty takes the next element in push order |
| `StubQueue.ReturnsWhatItTook` | src/runtime/LockFreeQueues.h:163-176 | and returns it, with its link cleared and the lock released |
| `StubQueue.NoDeadlock` | src/runtime/LockFreeQueues.h:114-182 | in every run of both modes, while a call is under way some thread's next step takes its call further |
| `StubQueue.PushesAlone` | src/runtime/LockFreeQueues.h:150-160 | an undisturbed push appends its segment, and returns true exactly if the queue was marked empty |
| `StubQueue.PopsAlone` | src/runtime/LockFreeQueues.h:122-139 | an undisturbed pop of an empty queue returns nothing and marks it in blocking mode |
| `StubQueue.MovesStub` | src/runtime/LockFreeQueues.h:133-139 | undisturbed, a stub at the front goes to the end |
| `StubQueue.TakesFront` | src/runtime/LockFreeQueues.h:163-176 | undisturbed, an element at the front is taken and returned |
| `TimedSemaphore.StepKeeps` | src/runtime/BlockingSync.h:151-299 | every step keeps: initial value + V calls = counter + successful Ps + granted Ps; a positive counter means every queued node has already lost to its timer; each decided sleeper has exactly one resumer |
| `TimedSemaphore.EveryRun` | src/runtime/BlockingSync.h:151-299 | that holds in every run with P, timed P, tryP, V and tryV |
| `TimedSemaphore.TokensConserved` | src/runtime/BlockingSync.h:241-299 | when all calls have returned, tokens put in equal tokens taken out plus the counter, and the wait queue is empty |
| `TimedSemaphore.ReportIsTruth` | src/runtime/BlockingSync.h:165-182 | a P returns success exactly when it was given a token; a timed-out P never consumed one |
| `TimedSemaphore.NoSleepWithToken` | src/runtime/BlockingSync.h:218-232 | no fred sleeps undecided while a token is available |
| `TimedSemaphore.OneResume` | src/runtime/Fred.h:163-175 | a fred whose race is decided has been resumed, or exactly one thread is about to resume it |
| `TimedSemaphore.RemovesOwnNode` | src/runtime/BlockingSync.h:178-181 | a timed-out fred removes a node that is in the queue |
| `TimedSemaphore.FailsIff` | src/runtime/BlockingSync.h:194-235 | under the lock a P takes a token exactly if there is one; without one tryP and a late timed P fail, and every other P queues up |
| `TimedSemaphore.UntimedSucceeds` | src/runtime/BlockingSync.h:194-235 | a P without timeout never fails: whenever it returns it has a token |
| `TimedSemaphore.SleeperFailsIff` | src/runtime/BlockingSync.h:173-181 | a fred that slept fails exactly if its timer has won, which needs a timed P |
| `TimedSemaphore.GrantsFirst` | src/runtime/BlockingSync.h:218-235 | V and tryV grant the first fred of the queue whose race is open, and find none only if there is none |
| `TimedSemaphore.NoDeadlock` | src/runtime/BlockingSync.h:151-299 | in every run, unless all calls under way sleep undecided, some thread's next step takes its call further |
| `TimedSemaphore.TokenIsTaken` | src/runtime/BlockingSync.h:228-245 | an undisturbed P takes a token if there is one, whatever its mode |
| `TimedSemaphore.NoTokenTry` | src/runtime/BlockingSync.h:194-199 | an undisturbed tryP without token fails and changes nothing |
| `TimedSemaphore.NoTokenWait` | src/runtime/BlockingSync.h:165-176 | an undisturbed P without token puts the fred to sleep at the end of the queue |
| `TimedSemaphore.SleeperIsGranted` | src/runtime/BlockingSync.h:218-226 | undisturbed, V and tryV win the race of the first fred in the queue and take out its node |
| `TimedSemaphore.GrantedIsResumed` | src/runtime/BlockingSync.h:218-299 | and resume it after releasing the lock |
| `TimedSemaphore.GrantedSucceeds` | src/runtime/BlockingSync.h:173-177 | and its P succeeds |
| `TimedSemaphore.TokenIsAdded` | src/runtime/BlockingSync.h:250-299 | with nobody in the queue V adds a token and tryV does not |
| `TimedSemaphore.TimerWins` | src/runtime/BlockingSync.h:96-98 | a timer that wins the race of a sleeping fred resumes it |
| `TimedSemaphore.LoserLeaves` | src/runtime/BlockingSync.h:178-181 | that fred takes its node out of the queue and fails |
| `TimerQueue.StepKeeps` | src/runtime/BlockingSync.h:85-132 | every step of blockTimeout, checkExpiry and foreign resumes keeps entries, races and the armed timeout consistent |
| `TimerQueue.EveryRun` | src/runtime/BlockingSync.h:67-140 | that holds in every run |
| `TimerQueue.ErasedOnce` | src/runtime/BlockingSync.h:89-125 | each entry is erased at most once, and exactly once when its call has returned |
| `TimerQueue.ErasesPresent` | src/runtime/BlockingSync.h:120-125 | whoever erases an entry finds it in the queue |
| `TimerQueue.RaceIsCurrent` | src/runtime/BlockingSync.h:96-101 | the race that checkExpiry enters is the one of the suspension the entry was made for |
| `TimerQueue.WinsOwnSuspension` | src/runtime/BlockingSync.h:96-98 | a timer that wins, wins the suspension its entry was made for, after the deadline; it never acts on a later suspension of the fred |
| `TimerQueue.OverdueIsSeen` | src/runtime/BlockingSync.h:85-106 | an overdue entry has a timer that can fire, a pending expiry, or a run under way |
| `TimerQueue.ArmedInTime` | src/runtime/BlockingSync.h:90-131 | while entries remain, the armed timeout is at most the smallest key, or an expiry run is pending or under way |
| `TimerQueue.RunLeavesNoneDue` | src/runtime/BlockingSync.h:85-106 | a run of checkExpiry ends only when no entry is left that was due when it began, and arms the timer for the next one |
| `TimerQueue.DueIsHandled` | src/runtime/BlockingSync.h:96-101 | a due front entry has its race entered, and it is won exactly if nobody else has won it |
| `TimerQueue.HandledBeforeErased` | src/runtime/BlockingSync.h:96-101 | before a run erases an entry it has resumed the fred or marked its node expired |
| `TimerQueue.TimesOutIff` | src/runtime/BlockingSync.h:109-117 | blockTimeout reports a timeout exactly if the timer has won, and never before the deadline |
| `TimerQueue.NoDeadlock` | src/runtime/BlockingSync.h:67-140 | in every run, whoever is in a call and not asleep with an open race can go on, or the lock holder can |
| `TimerQueue.BlocksAlone` | src/runtime/BlockingSync.h:109-132 | an undisturbed blockTimeout enters its deadline, arms the timer exactly if it is the smallest, and sleeps |
| `TimerQueue.FiresOnlyDue` | src/runtime/BlockingSync.h:85-106 | the timer does not fire before its armed deadline |
| `TimerQueue.FiresAlone` | src/runtime/BlockingSync.h:85-106 | it fires when its deadline has passed |
| `TimerQueue.RunsAlone` | src/runtime/BlockingSync.h:85-88 | a run of checkExpiry looks at the clock and takes the lock |
| `TimerQueue.TurnAlone` | src/runtime/BlockingSync.h:89-102 | an undisturbed turn of the loop resumes the fred of a due front entry, or marks its node expired, and erases the entry |
| `TimerQueue.EndsAlone` | src/runtime/BlockingSync.h:89-106 | a run ends when no entry is left |
| `TimerQueue.WokenAlone` | src/runtime/BlockingSync.h:109-125 | a fred resumed by another waker erases its entry and returns |
| `FredMutex.StepKeeps` | src/runtime/BlockingSync.h:825-914 | every step keeps value, owner, wait queue and the set of threads that will carry a wakeup on consistent, with timed acquires |
| `FredMutex.EveryRun` | src/runtime/BlockingSync.h:825-914 | that holds in every run |
| `FredMutex.MutualExclusion` | src/runtime/BlockingSync.h:859-914 | at most one holder, and value is 0 exactly when there is none |
| `FredMutex.NoLostWakeup` | src/runtime/BlockingSync.h:829-913 | while a fred sleeps undecided, value is 2 and a holder will unblock, or a thread is already on its way to unblock or to try the lock again |
| `FredMutex.DecidedIsResumed` | src/runtime/BlockingSync.h:907-913 | a sleeping fred whose race is decided has been resumed, or exactly one thread, the winner, is still to resume it |
| `FredMutex.NoStuckSleeper` | src/runtime/BlockingSync.h:877-913 | it never happens that every fred is idle or asleep without having been resumed, and one is asleep |
| `FredMutex.FailsOnlyIfHeld` | src/runtime/BlockingSync.h:859-896 | tryAcquire fails exactly while somebody holds the mutex; acquire takes the mutex exactly when it looks at it free |
| `FredMutex.FailsOnlyTimedOut` | src/runtime/BlockingSync.h:881-896 | an acquire fails only with a timeout: late before it queues up, or with its race lost to the timer |
| `FredMutex.PatientAcquires` | src/runtime/BlockingSync.h:881-896 | an acquire without timeout ends in holding the mutex only |
| `FredMutex.KeepsUntilRelease` | src/runtime/BlockingSync.h:907-914 | nobody but the holder's own release ends a hold |
| `FredMutex.UnblocksFirst` | src/runtime/BlockingSync.h:218-229 | release unblocks the first fred of the queue whose race is open, and nobody only if there is none |
| `FredMutex.NoDeadlock` | src/runtime/BlockingSync.h:825-914 | in every run, while a call is under way somebody holds the mutex at leisure or some thread's next step takes its call further |
| `FredMutex.FreeIsTaken` | src/runtime/BlockingSync.h:881-887 | an undisturbed call of either kind acquires the free mutex |
| `FredMutex.HeldTry` | src/runtime/BlockingSync.h:883-883 | an undisturbed tryAcquire of a held mutex fails and changes nothing |
| `FredMutex.HeldIsMarked` | src/runtime/BlockingSync.h:885-894 | an undisturbed acquire of a held mutex sets value to 2 and locks the queue |
| `FredMutex.MarkedIsAwaited` | src/runtime/BlockingSync.h:165-176 | and sleeps at the end of the queue |
| `FredMutex.ReleaseFrees` | src/runtime/BlockingSync.h:907-912 | release frees the mutex, and goes on to unblock exactly if it was not uncontended |
| `FredMutex.SearchResumes` | src/runtime/BlockingSync.h:218-229 | undisturbed, it takes the first undecided fred out of the queue and resumes it |
| `FredMutex.ResumedAcquires` | src/runtime/BlockingSync.h:894-894 | that fred acquires the free mutex and marks it contended |
| `FredMutex.LoserLeaves` | src/runtime/BlockingSync.h:178-181 | a fred whose timer has won takes its node out of the queue |
| `FredMutex.LeaverFails` | src/runtime/BlockingSync.h:179-181 | and fails, with the lock released and the rest unchanged |
| `FredMutex.TimerWins` | src/runtime/BlockingSync.h:96-98 | a timer that wins the race of a sleeping fred resumes it |
| `FastMutex.StepKeeps` | src/runtime/BlockingSync.h:604-820 | every step keeps: sleepers less searching Vs = max(0, -counter), and a free mutex with counter below 1 has a fred that carries on |
| `FastMutex.EveryRun` | src/runtime/BlockingSync.h:776-821 | that holds in every run |
| `FastMutex.MutualExclusion` | src/runtime/BlockingSync.h:786-820 | at most one holder, and it is the owner |
| `FastMutex.NoLostWakeup` | src/runtime/BlockingSync.h:730-820 | at every state the counter is 1, or there is an owner, or a release has its V pending, or a fred holds a passed or granted P and will retry |
| `FastMutex.SearchCanFind` | src/runtime/BlockingSync.h:618-629 | every V that searches has a fred to find, which is in the queue or about to enter it |
| `FastMutex.TakenIsResumed` | src/runtime/BlockingSync.h:618-629 | a sleeping fred that was taken out of the queue has been resumed, or exactly one release is still to resume it |
| `FastMutex.NoStuckSleeper` | src/runtime/Benaphore.h:42-56 | if every fred is idle or asleep without having been resumed, all are idle and the counter is 1 |
| `FastMutex.FailsOnlyIfHeld` | src/runtime/BlockingSync.h:776-812 | tryAcquire fails only while another fred holds the mutex, and acquire ends in holding a mutex that was free |
| `FastMutex.KeepsUntilRelease` | src/runtime/BlockingSync.h:812-820 | nobody but the holder's own release ends a hold |
| `FastMutex.NoDeadlock` | src/runtime/BlockingSync.h:604-820 | in every run, while a call is under way somebody holds the mutex at leisure or some fred's next step takes its call further |
| `FastMutex.FreeIsTaken` | src/runtime/BlockingSync.h:786-812 | an undisturbed call of either kind acquires the free mutex and changes nothing else |
| `FastMutex.HeldIsAwaited` | src/runtime/BlockingSync.h:786-812 | an undisturbed acquire of a held mutex sleeps at the end of the queue, counted by the counter |
| `FastMutex.ReleaseOpens` | src/runtime/Benaphore.h:42-56 | an undisturbed release with nobody counted as sleeping leaves counter 1 and no owner |
| `FastMutex.ReleaseSearches` | src/runtime/Benaphore.h:42-56 | otherwise it counts one sleeper less and searches the queue |
| `FastMutex.SearchResumes` | src/runtime/BlockingSync.h:618-629 | and resumes the first fred there |
| `FastMutex.ResumedAcquires` | src/runtime/BlockingSync.h:786-812 | which acquires the free mutex |
| `FastBarrier.OneSerialPerGroup` | src/runtime/BlockingSync.h:677-712 | group g is the tickets g*target to (g+1)*target - 1 in queue order; of its wait calls, those that have returned (also before the group was complete) and those about to, the one of the winner returns true and no other |
| `FastBarrier.OwnTicket` | src/runtime/BlockingSync.h:684-697 | two waiting freds never share a place in the queue |
| `FastBarrier.ResumedOnce` | src/runtime/BlockingSync.h:693-707 | the fred being resumed is the one just popped, it is waiting, it is not the leader and no resume has reached it before |
| `FastBarrier.NoEarlyRelease` | src/runtime/BlockingSync.h:688-707 | groups released times target is at most the tickets popped, which are at most the arrivals already counted |
| `FastBarrier.NoUnderflow` | src/runtime/BlockingSync.h:688-699 | the subtraction of target never underflows and a leader never waits for an empty queue |
| `FastBarrier.NobodyLeftBehind` | src/runtime/BlockingSync.h:688-708 | with all arrivals counted and no leader at work, fewer than target freds are left waiting |
| `FastBarrier.StepKeeps` | src/runtime/BlockingSync.h:677-712 | every step keeps the tally of counter, queue and leaders, the tickets, the groups and their winners |
| `FastBarrier.EveryRun` | src/runtime/BlockingSync.h:667-713 | that holds in every run |
| `FastBarrier.GroupFull` | src/runtime/BlockingSync.h:688-688 | the addition that makes the counter a multiple of target is the one that completes a group, whatever subtractions are outstanding |
| `FastBarrier.ReleasedAreResumed` | src/runtime/BlockingSync.h:688-707 | whenever the lock is free, every waiting fred of a closed group has been resumed, or is the leader that has popped itself |
| `FastBarrier.NoDeadlock` | src/runtime/BlockingSync.h:677-712 | in every run, while a call is under way some fred's next step takes its call further, or all wait and target are not there yet |
| `FastBarrier.ArrivesAlone` | src/runtime/BlockingSync.h:684-688 | an undisturbed arrival that does not complete a group queues up, counts itself and waits |
| `FastBarrier.LeadsAlone` | src/runtime/BlockingSync.h:684-692 | one that does takes the group off the counter and begins to release it under the lock |
| `FastBarrier.TurnAlone` | src/runtime/BlockingSync.h:693-707 | an undisturbed turn of the release resumes the first fred of the queue |
| `FastBarrier.LastTurnAlone` | src/runtime/BlockingSync.h:704-706 | the last turn makes that fred the serial one if the leader is not among those released |
| `FastBarrier.SelfAlone` | src/runtime/BlockingSync.h:700-702 | a leader that pops itself does not resume itself and will not wait |
| `FastBarrier.LeavesAlone` | src/runtime/BlockingSync.h:709-711 | a leader that has popped itself returns true, any other waits |
| `FastBarrier.ReturnsAlone` | src/runtime/BlockingSync.h:709-709 | a resumed fred returns whether its race was entered |
| `RWLock.StateIsFaithful` | src/runtime/BlockingSync.h:424-498 | in every run, with timeouts and the readers' wake-up chain, state is the number of granted unreleased readers, or -1 for one writer, who is alone |
| `RWLock.WriterIsAlone` | src/runtime/BlockingSync.h:441-450 | a fred that holds the lock for writing excludes every other holder |
| `RWLock.StrandsIffBlocksOpen` | src/runtime/BlockingSync.h:426-430 | the exact condition: a step leads from a state in which no undecided fred waits at an open lock to one in which a fred does if and only if it is a reader that queues up at state 0 because bqW is not empty |
| `RWLock.NeverOpenIffNeverBlocksOpen` | src/runtime/BlockingSync.h:424-498 | the exact condition for runs: in no state of a run does an undecided fred wait at an open lock, if and only if no step of the run is such a reader |
| `RWLock.UntimedNotOpen` | src/runtime/BlockingSync.h:424-498 | when no timer wins, a non-empty bqR or bqW means that state is not 0 |
| `RWLock.NoStuckSleeper` | src/runtime/BlockingSync.h:424-498 | without timeouts it never happens that all freds are idle or asleep with no resume under way and one is asleep |
| `RWLock.TimedReaderStranded` | src/runtime/BlockingSync.h:426-430 | a concrete run with one timed writer that leaves a reader asleep at an open lock with nobody to wake it |
| `RWLock.StepKeeps` | src/runtime/BlockingSync.h:424-498 | every locked section, timeout and resume keeps state, both wait queues and the pending resumes consistent |
| `RWLock.EveryRun` | src/runtime/BlockingSync.h:416-499 | that holds in every run |
| `RWLock.EntersIff` | src/runtime/BlockingSync.h:424-450 | a reader gets in by its own acquire exactly if no writer is inside and bqW is empty, a writer exactly if the lock is open; otherwise a try or late acquire fails and any other queues up last |
| `RWLock.ReleaseAlternates` | src/runtime/BlockingSync.h:470-498 | a writer hands on to the readers and only then to the writers, the last reader to the writers and only then to the readers, other readers to nobody; and in each queue to the first fred that still waits |
| `RWLock.ReadersBarge` | src/runtime/BlockingSync.h:432-437 | a granted reader grants and wakes the first reader still waiting before it reads |
| `RWLock.PatientEnters` | src/runtime/BlockingSync.h:424-450 | an acquire without timeout ends in holding the lock only |
| `RWLock.FailsOnlyTimedOut` | src/runtime/BlockingSync.h:431-447 | a sleeping acquire fails only by its own timer; otherwise it returns when it is resumed |
| `RWLock.KeepsUntilRelease` | src/runtime/BlockingSync.h:470-498 | nobody but the holder's own release ends a hold |
| `RWLock.NoDeadlock` | src/runtime/BlockingSync.h:424-498 | in every run without timeouts, while a call is under way somebody holds the lock at leisure or some fred's next step takes its call further |
| `RWLock.OpenIsTaken` | src/runtime/BlockingSync.h:424-450 | an undisturbed acquire of any kind takes the open lock |
| `RWLock.LastOpens` | src/runtime/BlockingSync.h:470-498 | with nobody waiting the release of the only holder opens the lock |
| `RWLock.GrantedReturns` | src/runtime/BlockingSync.h:497-497 | a granted fred is resumed and returns holding the lock |
| `RWLock.LoserLeaves` | src/runtime/BlockingSync.h:178-181 | a fred whose timer wins leaves its queue and fails |
| `IdleManager.NoStrandedFred` | src/runtime/BaseProcessor.cc:79-99 | in every run a non-empty ready queue has a worker that is awake, being woken, or yet to search it, or a thread that will still call unblock for its first fred |
| `IdleManager.AllAsleepMeansEmpty` | src/runtime/Scheduler.h:45-69 | if every worker is halted without a wake and nobody is resuming, every ready queue is empty |
| `IdleManager.CoveredIffFirst` | src/runtime/BaseProcessor.h:70-78 | the exact condition, for any workers: in every run a fred at position i of a ready queue whose enqueuer has finished unblock has a worker that is awake, being woken, or yet to search, if and only if i is 0 |
| `IdleManager.UnattendedIsBehindOwed` | src/runtime/BaseProcessor.cc:79-99 | a fred whose enqueuer has finished unblock and that has no such worker stands behind the first one, for which an unblock is still to come |
| `IdleManager.SettledBehindUnlinked` | src/runtime/BaseProcessor.h:70-78 | for any workers, queue and position behind the first, a run in which a fred there has a finished enqueuer while every worker sleeps, because the first one is not linked yet |
| `IdleManager.CountersNeverUnderflow` | src/runtime/Scheduler.h:33-40 | waitCounter is the number of workers between incWaiting and the decrement done by or for them, and no decrement of either counter finds 0 |
| `IdleManager.OneWakePerBlock` | src/runtime/Scheduler.h:45-69 | a wake goes to a worker that is blocked, off the list and not yet woken, and no two threads wake the same worker |
| `IdleManager.UnblockLoopHasReason` | src/runtime/Scheduler.h:53-58 | when unblock finds waitCounter positive and the list empty, some worker is between announcing and listing itself, leaving its last search, or being taken off |
| `IdleManager.StepKeeps` | src/runtime/BaseProcessor.cc:79-153 | every step of enqueue, unblock, search, steal, spin, block and halt keeps the idle manager, the queues and the no-stranding property |
| `IdleManager.EveryRun` | src/runtime/BaseProcessor.cc:79-153 | that holds in every run |
| `IdleManager.LastSpinnerPassesOn` | src/runtime/Scheduler.h:38-40 | a spinner that finds a fred calls unblock exactly if it was the last one; otherwise another worker goes on spinning |
| `IdleManager.UnblockEndsIff` | src/runtime/Scheduler.h:53-54 | unblock ends without a wake exactly if no worker has announced that it waits |
| `IdleManager.UnblockWakes` | src/runtime/Scheduler.h:62-66 | a worker that unblock has taken off the list is woken |
| `IdleManager.FindsIff` | src/runtime/BaseProcessor.cc:83-96 | a look into a locked queue takes its first fred exactly if there is one and it is linked |
| `IdleManager.LockedIsPassedOver` | src/runtime/BaseProcessor.cc:90-96 | the last search does not wait for the lock of another worker's queue |
| `IdleManager.PassesOverOnlyIf` | src/runtime/BaseProcessor.cc:90-96 | the last search passes over a queue only if it is empty, its first fred is not linked yet, or another worker holds its lock; over the own queue not in the last case |
| `IdleManager.SleepsOnlyAfterSearch` | src/runtime/BaseProcessor.cc:90-96 | a worker goes to sleep exactly when it has passed over every queue |
| `IdleManager.NoDeadlock` | src/runtime/BaseProcessor.cc:79-153 | in every run, whoever neither sleeps nor runs a fred can go on, or the holder of the lock it waits for can |
| `IdleManager.ResumesAlone` | src/runtime/BaseProcessor.cc:148-153 | a resume enqueues its fred last and links it |
| `IdleManager.UnblocksAlone` | src/runtime/Scheduler.h:53-68 | undisturbed, unblock takes the preferred worker off the list if it is there, and the first one otherwise |
| `IdleManager.YieldsAlone` | src/runtime/Fred.cc:115-136 | a yield puts the fred last into the worker's own queue and wakes nobody |
| `IdleManager.GivesUpAlone` | src/runtime/BaseProcessor.cc:89-91 | a worker that spins in vain announces that it waits and searches once more |
| `IdleManager.SleepsAlone` | src/runtime/Scheduler.h:42-48 | a worker that searched in vain puts itself at the front of the list and sleeps |
| `IdleManager.WokenFinds` | src/runtime/BaseProcessor.cc:79-88 | a woken worker spins and takes the first fred of a queue |
| `TokenIdleManager.BooksBalance` | src/runtime/Scheduler.h:122-142 | always fredCounter = x - y, x = max(0, fredCounter), y = max(0, -fredCounter), with x the queued freds less the claimed tokens and y the waiting workers less the freds waiting for handover |
| `TokenIdleManager.NeverBothWait` | src/runtime/Scheduler.h:85-113 | waitingFreds and waitingProcs are never both non-empty |
| `TokenIdleManager.TokenIsBacked` | src/runtime/BaseProcessor.cc:57-75 | a worker with a token has a fred to find, queued or about to be |
| `TokenIdleManager.HandoverHasWorker` | src/runtime/Scheduler.h:99-113 | a fred waiting to be handed over has a worker committed to take it |
| `TokenIdleManager.HaltReturnsOwnFred` | src/runtime/BaseProcessor.h:150-164 | the fred that halt returns was handed to that worker, is in no queue and in no other hands |
| `TokenIdleManager.OnePlace` | src/runtime/BaseProcessor.cc:103-154 | a fred in a thread's hands is in no queue and in no other thread's hands |
| `TokenIdleManager.AllAsleepMeansEmpty` | src/runtime/BaseProcessor.cc:103-121 | if every worker is halted and nobody resumes, no fred is queued anywhere |
| `TokenIdleManager.StepKeeps` | src/runtime/Scheduler.h:85-142 | every step of addReadyFred, getReadyFred, tryGetReadyFred, yield, handover, halt and wake keeps the books and the places |
| `TokenIdleManager.EveryRun` | src/runtime/Scheduler.h:77-143 | that holds in every run |
| `TokenIdleManager.HandsOverIff` | src/runtime/Scheduler.h:138-142 | addReadyFred hands the fred over exactly if more workers wait than freds are coming to them |
| `TokenIdleManager.BlocksIff` | src/runtime/Scheduler.h:127-136 | getReadyFred gives a token exactly if more freds are queued than claimed; otherwise the worker blocks |
| `TokenIdleManager.TryFailsOnlyIf` | src/runtime/Scheduler.h:122-125 | tryGetReadyFred fails only if no fred is free to claim, or the counter has changed since it looked |
| `TokenIdleManager.MeetsOrWaits` | src/runtime/Scheduler.h:85-113 | a worker waits exactly if it meets no waiting fred and a fred exactly if it meets no waiting worker; a preferred worker in the list is chosen |
| `TokenIdleManager.NoDeadlock` | src/runtime/Scheduler.h:85-142 | in every run, whoever neither sleeps nor runs a fred can go on, or the thread it waits for can |
| `TokenIdleManager.QueuesAlone` | src/runtime/BaseProcessor.cc:151-151 | with no worker waiting a resumed fred is queued |
| `TokenIdleManager.ClaimsAlone` | src/runtime/Scheduler.h:122-132 | a worker claims a queued fred by either call and takes it |
| `TokenIdleManager.SleepsAlone` | src/runtime/Scheduler.h:85-92 | with nothing to claim a worker puts itself at the front of the list and sleeps |
| `TokenIdleManager.MatchesAlone` | src/runtime/Scheduler.h:99-111 | a fred resumed then goes to the preferred worker if that waits, and to the first one otherwise |
| `TokenIdleManager.WakesAlone` | src/runtime/BaseProcessor.h:150-164 | the worker is handed the fred and woken |
| `TokenIdleManager.RunsHandedAlone` | src/runtime/BaseProcessor.h:150-164 | and runs it |
| `TokenIdleManager.WaitsAlone` | src/runtime/Scheduler.h:99-104 | a fred resumed before the worker has listed itself waits in the other list |
| `TokenIdleManager.MeetsAlone` | src/runtime/Scheduler.h:93-97 | and is run by that worker without a sleep |
| `TokenIdleManager.YieldsAlone` | src/runtime/Fred.cc:115-136 | a yield exchanges the running fred for a queued one and leaves the counter alone |
| `FredSwitch.RunStateLegal` | src/runtime/Fred.h:137-159 | with at most one resume per suspension, runState is Parked, Running or ResumedEarly in every interleaving, and the assertions in resume, postSuspend and the destructor hold |
| `FredSwitch.OnePlace` | src/runtime/Fred.cc:29-72 | a stack is used by one worker only; a fred in a ready queue, in a resumer's hands or parked has its stack unused, and no fred is in two queues or twice in one |
| `FredSwitch.SwitchToIdleStack` | src/runtime/Fred.cc:29-47 | a worker never switches to the fred it leaves, nor to one running or being left elsewhere |
| `FredSwitch.ResumesReturnOnce` | src/runtime/Fred.h:137-159 | each resume leads to exactly one return from suspend, and until then the fred is not parked |
| `FredSwitch.WorkerKeeps` | src/runtime/Fred.cc:29-163 | every step of a worker (suspend, switch, post function, yield, direct switch, terminate) keeps runState, places and queues consistent |
| `FredSwitch.AgentKeeps` | src/runtime/Fred.h:150-159 | so does every step of a resumer |
| `FredSwitch.EveryRun` | src/runtime/Fred.cc:29-163 | that holds in every run |
| `FredSwitch.ParkedIffUnresumed` | src/runtime/Fred.h:137-159 | a suspended fred is parked exactly while its suspension has not been resumed, and after that it is in a queue, in somebody's hands or on a worker |
| `FredSwitch.SwitchGoesOn` | src/runtime/Fred.cc:29-72 | a worker in the middle of a switch can always go on |
| `FredSwitch.SuspendGoesOn` | src/runtime/Fred.h:137-148 | a fred in suspend returns exactly if it has been resumed, and switches to another otherwise |
| `FredSwitch.ResumeGoesOn` | src/runtime/Fred.cc:93-95 | a resumer with a fred in its hands puts it last into a queue |
| `FredSwitch.IdleTakes` | src/runtime/Fred.cc:145-150 | the idle fred switches to the first fred of a queue |
| `FredSwitch.YieldRotates` | src/runtime/Fred.cc:115-136 | a yield switches to the first fred of a queue, and the old one goes to the end of its own queue |
| `FredSwitch.SuspendParks` | src/runtime/Fred.cc:67-72 | a suspension that nobody has resumed parks the fred |
| `FredSwitch.EarlyIsEnqueued` | src/runtime/Fred.cc:67-72 | one that is resumed before the switch is over is enqueued by the post function |
| `FredSwitch.ResumeEnqueues` | src/runtime/Fred.h:150-159 | a resume enqueues a parked fred, and only marks one that is not parked yet |
| `FredSwitch.DirectSwitches` | src/runtime/Fred.cc:89-113 | a direct switch runs the resumed fred at once and enqueues the resumer |
| `FredSwitch.Suspends` | src/runtime/Fred.h:137-148 | a fred announces its suspension and enters suspend |
| `FredSwitch.TerminateEnds` | src/runtime/Fred.cc:159-163 | a fred that terminates leaves its worker to another and is destroyed after the switch |
| `FredSwitch.StartEnqueues` | src/runtime/Fred.h:124-128 | a new fred is enqueued |
| `CancellingSemaphore.EveryRun` | src/runtime/MCSTimeoutSemaphore.h:682-824 | in every run waiting Ps - searching Vs = -counter when counter is at most 0, and searching Vs - waiting Ps = counter - 1 when it is at least 1 |
| `CancellingSemaphore.StepKeeps` | src/runtime/MCSTimeoutSemaphore.h:682-824 | every step of P, timed P, tryP, timeout, V, pop and cancel keeps that |
| `CancellingSemaphore.SearchEnds` | src/runtime/MCSTimeoutSemaphore.h:804-812 | a V that searches with no waiter left finds a counter of at least 2, so its cancellation is there |
| `CancellingSemaphore.OpenMeansSearched` | src/runtime/MCSTimeoutSemaphore.h:682-695 | while the semaphore is open every waiting P has a V searching for it |
| `CancellingSemaphore.EveryVCounts` | src/runtime/MCSTimeoutSemaphore.h:779-824 | the step with which V ends grants a waiting P or leaves the semaphore open |
| `CancellingSemaphore.TakenIsOpened` | src/runtime/MCSTimeoutSemaphore.h:721-794 | the semaphore is taken open as often as it was opened, but for the current opening; V's assertion holds |
| `CancellingSemaphore.ResultIsTruth` | src/runtime/MCSTimeoutSemaphore.h:769-775 | a P succeeds only after a V took it out of the queue; a timed-out P left the queue itself |
| `CancellingSemaphore.PatientSucceeds` | src/runtime/MCSTimeoutSemaphore.h:721-741 | a P without timeout never fails |
| `CancellingSemaphore.TryFailsIff` | src/runtime/MCSTimeoutSemaphore.h:709-717 | tryP fails exactly if it looks at a counter other than 1: the token is taken, or Vs still search for waiters that have left |
| `CancellingSemaphore.FailsEarlyIffLate` | src/runtime/MCSTimeoutSemaphore.h:749-753 | before it has lowered the counter a P fails exactly if it is timed and late |
| `CancellingSemaphore.NoDeadlock` | src/runtime/MCSTimeoutSemaphore.h:682-824 | in every run, whoever is in a call and not waiting in the queue can go on, and while somebody waits there at an open semaphore some V can |
| `CancellingSemaphore.TakesAlone` | src/runtime/MCSTimeoutSemaphore.h:721-741 | an undisturbed P takes the token of an open semaphore, or is counted as a waiter and queues up |
| `CancellingSemaphore.LateFails` | src/runtime/MCSTimeoutSemaphore.h:749-753 | a timed P that finds its deadline passed fails and changes nothing |
| `CancellingSemaphore.TriesAlone` | src/runtime/MCSTimeoutSemaphore.h:709-717 | an undisturbed tryP takes the token of an open semaphore or changes nothing |
| `CancellingSemaphore.GivesAlone` | src/runtime/MCSTimeoutSemaphore.h:779-824 | an undisturbed V opens the semaphore, leaves it open, or grants the waiter it finds |
| `CancellingSemaphore.LeavesAlone` | src/runtime/MCSTimeoutSemaphore.h:682-695 | an undisturbed timed-out waiter leaves, and gives back what it was counted for |
| `CancellingSemaphore.StopsAlone` | src/runtime/MCSTimeoutSemaphore.h:804-812 | a V that finds nobody, while no P waits, is cancelled in three steps |
| `MCSLock.MutualExclusion` | src/runtime/SpinLocks.h:129-147 | at most one thread is between acquire and the end of release |
| `MCSLock.GrantedInOrder` | src/runtime/SpinLocks.h:133-147 | the holder is the first acquisition, in tail-exchange order, that has not been released |
| `MCSLock.NoMissedHandover` | src/runtime/SpinLocks.h:141-147 | while an acquisition is pending, the first one holds the lock or has been woken |
| `MCSLock.WaitHasLinker` | src/runtime/SpinLocks.h:145-145 | a releaser that waits for a link has a thread about to store it |
| `MCSLock.NoStrayWrite` | src/runtime/SpinLocks.h:133-147 | no thread writes a node that no call is using, so a node may be reused once its release has returned |
| `MCSLock.AcquireKeeps` | src/runtime/SpinLocks.h:129-140 | every step of acquire and tryAcquire keeps queue, links and wait flags consistent |
| `MCSLock.ReleaseKeeps` | src/runtime/SpinLocks.h:141-147 | so does every step of release |
| `MCSLock.EveryRun` | src/runtime/SpinLocks.h:119-148 | that holds in every run |
| `MCSLock.TryFailsOnlyIfTaken` | src/runtime/SpinLocks.h:130-133 | tryAcquire never waits, and fails only if another acquisition is pending |
| `MCSLock.AcquireNeverFails` | src/runtime/SpinLocks.h:134-141 | acquire ends in holding the lock only |
| `MCSLock.KeepsUntilRelease` | src/runtime/SpinLocks.h:142-148 | nobody but the holder's own release ends a hold |
| `MCSLock.NoDeadlock` | src/runtime/SpinLocks.h:130-148 | in every run, while a call is under way somebody holds the lock at leisure or some thread's next step takes its call further |
| `MCSLock.FreeIsTaken` | src/runtime/SpinLocks.h:134-141 | an undisturbed acquire takes the free lock |
| `MCSLock.FreeIsTried` | src/runtime/SpinLocks.h:130-133 | so does tryAcquire |
| `MCSLock.LastFrees` | src/runtime/SpinLocks.h:142-148 | an undisturbed release by the only user frees it |
| `Words.MultiscanNext` | src/runtime/Platform.h:178-194 | the result is the first sought bit from idx on, or the number of bits |
| `Words.Multiscan` | src/runtime/Platform.h:201-223 | the masked scan without early exit returns the first sought bit, or the number of bits |
| `Words.MultiscanRev` | src/runtime/Platform.h:228-249 | the downward scan returns the last sought bit, or 0 if there is none |
| `Words.LsbFrom` | src/runtime/Platform.h:94-112 | counting trailing zeros after masking with the complement of bitmask(idx) gives the first bit from idx on |
| `Bitmaps.CountIsSize` | src/runtime/Bitmap.h:38-44 | the recursive population count is the size of the flat set |
| `Bitmaps.EmptyWords` | src/runtime/Bitmap.h:22-28 | the recursive union is empty exactly when the flat set is |
| `Bitmaps.FullWords` | src/runtime/Bitmap.h:30-36 | the recursive intersection is full exactly when the flat set has every position |
| `Bitmaps.Bitmap.SetB` | src/runtime/Bitmap.h:81-81 | every position is set |
| `Bitmaps.Bitmap.ClrB` | src/runtime/Bitmap.h:82-82 | no position is set |
| `Bitmaps.Bitmap.FlpB` | src/runtime/Bitmap.h:83-83 | the complement |
| `Bitmaps.Bitmap.Set` | src/runtime/Bitmap.h:84-86 | adds one element to the flat set |
| `Bitmaps.Bitmap.Clr` | src/runtime/Bitmap.h:87-89 | removes one element |
| `Bitmaps.Bitmap.Flp` | src/runtime/Bitmap.h:90-92 | toggles one element |
| `Bitmaps.Bitmap.Test` | src/runtime/Bitmap.h:93-95 | membership |
| `Bitmaps.Bitmap.Empty` | src/runtime/Bitmap.h:96-96 | true exactly for the empty set |
| `Bitmaps.Bitmap.Full` | src/runtime/Bitmap.h:97-97 | true exactly when every position is a member |
| `Bitmaps.Bitmap.Count` | src/runtime/Bitmap.h:98-98 | the number of members |
| `Bitmaps.Bitmap.Find` | src/runtime/Bitmap.h:99-101 | the least element, or of the complement |
| `Bitmaps.Bitmap.FindNext` | src/runtime/Bitmap.h:102-104 | the least element from idx on, or of the complement |
| `HierarchicalBitmaps.HierarchicalBitmap.constructor` | src/runtime/Bitmap.h:166-174 | every level has the length of divup of the one below and is zero, and the top has one word |
| `HierarchicalBitmaps.HierarchicalBitmap.SetFrom` | src/runtime/Bitmap.h:176-184 | despite the early exit every summary bit is again set exactly when its word is non-empty; the bottom level gains one bit, or is left alone when the loop starts above it |
| `HierarchicalBitmaps.HierarchicalBitmap.ClrFrom` | src/runtime/Bitmap.h:186-194 | the same for removal |
| `HierarchicalBitmaps.HierarchicalBitmap.Set` | src/runtime/Bitmap.h:176-184 | the flat set gains idx, on a valid bitmap |
| `HierarchicalBitmaps.HierarchicalBitmap.Clr` | src/runtime/Bitmap.h:186-194 | the flat set loses idx |
| `HierarchicalBitmaps.HierarchicalBitmap.BlockSet` | src/runtime/Bitmap.h:196-199 | the flat set gains the whole bucket of idx |
| `HierarchicalBitmaps.HierarchicalBitmap.BlockClr` | src/runtime/Bitmap.h:201-204 | the flat set loses the whole bucket of idx |
| `HierarchicalBitmaps.HierarchicalBitmap.Test` | src/runtime/Bitmap.h:206-208 | membership in the flat set |
| `HierarchicalBitmaps.HierarchicalBitmap.Empty` | src/runtime/Bitmap.h:210-212 | the top word is empty exactly when the flat set is |
| `HierarchicalBitmaps.HierarchicalBitmap.BlockEmpty` | src/runtime/Bitmap.h:214-216 | no member in the bucket |
| `HierarchicalBitmaps.HierarchicalBitmap.BlockFull` | src/runtime/Bitmap.h:218-220 | every position of the bucket is a member |
| `HierarchicalBitmaps.HierarchicalBitmap.Find` | src/runtime/Bitmap.h:222-230 | the least member, or none exactly when the set is empty |
| `HierarchicalBitmaps.HierarchicalBitmap.NextFrom` | src/runtime/Bitmap.h:232-253 | the loop terminates (it climbs, then only descends) and computes the function FindNext of the levels |
| `HierarchicalBitmaps.HierarchicalBitmap.FindNextMember` | src/runtime/Bitmap.h:232-253 | an index returned is the least member from idx on; none is reported only if there is none, provided the bucket count is aligned |
| `HierarchicalBitmaps.HierarchicalBitmap.FindRange` | src/runtime/Bitmap.h:255-267 | the maximal run from the first member at or after start; the length is computed in words, and is the number of members of the run below max if and only if the run does not start beyond max |
| `HierarchicalBitmaps.CountIsRight` | src/runtime/Bitmap.h:264-266 | the exact condition: the length is the number of members from the first to the end of the run or max, if and only if the first is at most max |
| `HierarchicalBitmaps.RangeWraps` | src/runtime/Bitmap.h:264-266 | a concrete valid bitmap with the one member 5: findrange from 0 with max 3 reports a length of 2^64 - 2 |
| `Hierarchy.ReplaceAgrees` | src/runtime/Bitmap.h:176-194 | changing the bit whose link is open leaves at most the link of its word, one level up, open |
| `Hierarchy.FindDownLeast` | src/runtime/Bitmap.h:222-230 | descending by first bits from a non-empty word ends at the least member below it |
| `Hierarchy.FindNextIsLeast` | src/runtime/Bitmap.h:232-253 | findnext returns the least member from idx on, and for aligned bucket counts finds whatever there is |
| `Hierarchy.FindNextMisses` | src/runtime/Bitmap.h:243-243 | for every bucket count that is not aligned, a valid bitmap with a member that findnext misses |
| `Hierarchy.CompleteIffAligned` | src/runtime/Bitmap.h:243-243 | the exact condition: findnext finds whatever there is in every bitmap if and only if the bucket count is k * B^j with k < B |
| `RingList.CombineBefore` | src/runtime/Container.h:137-143 | read from next on, the ring is extended by exactly the segment |
| `RingList.CombineAfter` | src/runtime/Container.h:145-151 | read up to prev, the ring is extended by exactly the segment |
| `RingList.TakeOut` | src/runtime/Container.h:130-135 | the rest is a ring, the nodes taken out stay linked to each other |
| `RingList.InsertBefore` | src/runtime/Container.h:168-172 | splices a free segment in before next |
| `RingList.InsertAfter` | src/runtime/Container.h:179-183 | splices a free segment in after prev |
| `RingList.Remove` | src/runtime/Container.h:190-194 | the rest is a ring and the outer links of what is removed are null |
| `RingList.JoinBefore` | src/runtime/Container.h:200-204 | two rings become one |
| `RingList.JoinAfter` | src/runtime/Container.h:210-214 | two rings become one |
| `RingList.Split` | src/runtime/Container.h:220-224 | one ring becomes two, which undoes a join |
| `RingList.Close` | src/runtime/Container.h:159-162 | a chain becomes a ring |
| `RingList.Rotate` | src/runtime/Container.h:128-229 | Next and Prev being mutually inverse does not depend on the node a ring is read from |
| `RingList.List.constructor` | src/runtime/Container.h:239-241 | the empty list |
| `RingList.List.Front` | src/runtime/Container.h:247-247 | the first node, or the anchor |
| `RingList.List.Back` | src/runtime/Container.h:249-249 | the last node, or the anchor |
| `RingList.List.Empty` | src/runtime/Container.h:254-257 | no node |
| `RingList.List.InsertAt` | src/runtime/Container.h:168-183 | the node sequence gains the segment at that position |
| `RingList.List.PushFront` | src/runtime/Container.h:271-271 | prepends the node |
| `RingList.List.PushBack` | src/runtime/Container.h:272-272 | appends the node |
| `RingList.List.SpliceBack` | src/runtime/Container.h:273-273 | appends the segment |
| `RingList.List.PopFront` | src/runtime/Container.h:275-275 | removes the first node and nulls its links |
| `RingList.List.PopBack` | src/runtime/Container.h:276-276 | removes the last node and nulls its links |
| `RingList.List.RemoveRange` | src/runtime/Container.h:190-194 | removes exactly the nodes from first to last and nulls their outer links |
| `RingList.List.RemoveAll` | src/runtime/Container.h:269-269 | empties the list and leaves its nodes a free segment |
| `RingList.List.RemoveCounted` | src/runtime/Container.h:259-267 | removes and reports min(count, available) nodes; for a count of 0 it removes one and reports 0 |
| `SentinelQueue.Queue.Push` | src/runtime/Container.h:103-109 | appends the segment |
| `SentinelQueue.Queue.Pop` | src/runtime/Container.h:115-124 | removes the first node and nulls its link, or reports null |
| `SentinelQueue.Queue.PopCount` | src/runtime/Container.h:78-124 | removes and reports min(count, available) nodes, still linked to each other; for a count of 0 it removes one and reports 0; on an empty queue it returns null and leaves count as given |
| `SentinelQueue.Stack.Push` | src/runtime/Container.h:40-44 | puts the segment on top |
| `SentinelQueue.Stack.Pop` | src/runtime/Container.h:50-56 | removes the top node and nulls its link, or reports null |
| `SentinelQueue.Stack.PopCount` | src/runtime/Container.h:58-68 | follows the sentinel exactly when the stack is not empty and count exceeds its size; otherwise removes the top nodes asked for |

## Left out

- The link protocol of `MCSTimeoutQueue`: its queue is a bag of waiters here.
- Weak memory orders, machine overflow of counters, and the cost of spinning.
- Stack switching code, exceptions and floating point state: a switch is one step followed by its post function.
- I/O, event scopes, clusters, OS locks, semaphores and timers: the OS lock is atomic, the OS semaphore a counter, the OS timer one armed deadline.
- C wrappers, statistics, tracing, debug output, apps.
- Timed `block` on `ConditionalNemesisQueue` and the resume race inside its pop.
- `LockedBarrier`, `LockedSemaphore<Lock, true>` and its wait and waitV, `Condition`, `SynchronizedFlag`, `OwnerMutex`: they would add easier members beside those proved.
- Timed P of `FredBenaphore`: the default mutex never calls it, because `LimitedSemaphore0` has no timed P.
- The three priorities of `ReadyQueue`: merged into one queue for each worker in the idle manager models.
- The `TESTING_LOCKED_READYQUEUE` variant.
- A timer in `TimedSemaphore`, `FredMutex`, `RWLock` and `CancellingSemaphore` is a step that may decide a sleeping timed fred's race; `TimerQueue` proves when such steps happen.
- `RWLock`: a section under the internal lock is one step, and so are a timer's win and its resume; a grant and its resume are two.
- `NemesisDouble.Refines`: a removal is called, as `block` does, for a node whose push has returned and whose resume race the caller has won; the race itself is modelled in `TimedSemaphore`.
- `StubQueue` in blocking mode: which worker sleeps on an empty marking.
- Progress under fair scheduling: the no-lost-wakeup results say that somebody always carries on, not that it happens in bounded time.
- Words.LsbFrom: does not model the shifts of bitmask and the scan instruction, because a machine word is the set of its bit positions; they appear as their meaning on sets.
- `HierarchicalBitmaps.HierarchicalBitmap.Set`: a word of B bits is one value there; `Bitmaps` proves the operations on words.
- `Bitmap<64>`: the one-word specialization is the case of one word of `Bitmaps.Bitmap`.
- `HierarchicalBitmaps.HierarchicalBitmap.constructor`: the caller's memory counts as zeroed, which the source leaves to the caller.
- `Stack`, `Queue` and `List` on links shared by several structures: one link pair for each node here.
- `FredSwitch.OnePlace`: `preempt`, which switches to a fred that may be null, and `migrate`, which yields through the same switches.

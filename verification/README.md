# SUSE: a verified model

SUSE is a server that schedules the user-level threads of many programs. A thread
is in NEW, in its program's ready list, in its program's exec slot, in the queue
of a semaphore, in a join block, or in EXIT; six requests (create, schedule next,
join, close, wait, signal) move it. A global limit bounds how many threads may be
outside NEW and EXIT; a close admits the next one. Selection is shortest job
first on an exponential average of past bursts. A client library sends the
requests over a socket and reads one answer, or two when the first one says that
its caller has to wait.

## How the model is built

| file | contents |
|---|---|
| `Lists`, `Timespecs` | list operations; clock readings, the carry and borrow arithmetic and its accumulating loops |
| `Model` | threads, programs, semaphores, blocks; what it means for the lists to agree; the moves between them |
| `Ops` | each request as a function from state to state, events, legal runs |
| `Scheduler`, `Counting`, `Removal` | the server: a class whose methods update the global lists in place, with the source's loops, each proved to do what `Ops` says |
| `Invariant`, `Timeline`, `Runs` | what every request keeps, for the lists and for the interval lists, and that every reachable state has it |
| `Admissions`, `Joins`, `Semaphores`, `Sjf`, `Partition`, `OpenEnds`, `Reports` | results about runs |
| `Spent`, `Meanings` | every thread's record told from the places and the clock alone; what the value of each answer says |
| `Lockstep` | all clients and the server as one system |
| `Answering`, `Answerable`, `Overtaking` | exactly when a client that waits for a second answer gets it, which waiting clients still can, and runs at every limit in which one is overtaken or blocked by its own threads |
| `Codec`, `LibSuse` | the wire format; the client library as a class over byte streams |
| `Gaps`, `OwnerlessJoin` | where the code does less than it means to: the requests as they are written, exact conditions for what stops the server, and inputs that meet them |

A pointer to a thread is its (pid, tid) and a pointer to a program its pid; the
records are in maps, so that every list holding a thread sees its updates.
`Queues.place` says which list each thread is in. The server has no such field:
`Structure` states that every list holds exactly the threads that `place` puts
there, once, and that is what "the lists agree" means. `Suse` has the source's
globals as fields and `place` as a ghost field; its `Valid()` is the whole
invariant `Safe`, and each request method ensures `Valid()` and that the state is
`Step` of the old state. What is proved about `Step` and `Run` therefore holds of
the class.

A run is any sequence of events of any clients from the start of the server.
`Enabled` is what the server takes for granted: a connecting descriptor is not a
live program; thread ids are fresh and not negative; join, close and wait come
from a running thread; a join names a thread that the lookup finds and a wait or
signal a configured semaphore; a client that is owed an answer sends no create,
schedule or signal request. Schedule and signal requests may come at any other
time, also before the first create or after the last close. `GoodConfig` asks for a monotone clock,
0 <= alpha <= 1 and a limit that is not negative, `GoodSems` for 1 <= maximum and
0 <= initial <= maximum. In `Lockstep` the clause about waiting clients is no
longer assumed: it is derived from what the client library does.

## Results that say no

- `suse_wait` looks its caller up with `find_thread`, which looks in READY, EXIT
  and NEW but not at the thread in execution. As written, a wait of the running
  thread works if and only if the semaphore is positive, and otherwise follows a
  null pointer (`Gaps.WaitAsMeantIff`; `Gaps.WaitFaults` is a two-request run to
  it). Everywhere else wait is modelled as it is meant: it blocks the thread in
  execution.
- A join whose target `find_thread` does not find (the running thread itself, a
  blocked one, or none at all) stops the server at once if and only if EXIT is not
  empty (`OwnerlessJoin.JoinStopsAtOnce` is a run to it). With EXIT empty the null
  pointer is stored and the client is told that the join worked; the server then
  stops at the next close of a running thread of any program, or wait that would
  have to block, and at nothing before (`OwnerlessJoin.JoinNotFound`;
  `OwnerlessJoin.SelfJoinStops` has runs to both). Elsewhere a join names a thread
  that is found.
- Together: from its start the server as it is written follows a null pointer if and
  only if it comes to one of three requests, each of which can be told beforehand:
  a join not found with somebody in EXIT, a wait that would have to block, or the
  close of a running thread after a join not found (`OwnerlessJoin.StopsIff`).
- `Planificador/src/Suse/suse.h:80-82` says that a program without a thread is
  blocked until one is available. A thread that a signal makes available does not
  wake it: a program comes to ask while it has a ready thread if and only if the
  woken thread is of an asking program (`Gaps.AskingWithoutReadyIff`). Only a
  close wakes it. Over every run of the other programs it is answered if and only
  if it has a thread in NEW and more of their threads end than threads of
  executing programs stand before its own (`Answering.AskingAnsweredIff`). A
  client parked in its first create is answered if and only if more closes find no
  thread of an executing program in NEW than parked threads stand before its own
  (`Answering.ParkedAnsweredIff`); executing programs overtake it without bound, at
  every positive limit (`Overtaking.OvertakenForever`).
- So not every waiting client is answered in the end. One still can be if and only
  if it has a thread in NEW and another program, not itself asking, has a thread
  that runs, is ready, or waits on a semaphore; then requests that clients of the
  library can make bring it about (`Answerable.AnswerableIff`). Runs to both ways of
  failing: `Gaps.AskingForeverHappens`, with nothing in NEW, and
  `Overtaking.OwnThreadsInTheWay`, at every positive limit, with a thread in NEW
  behind the program's own blocked ones.
- A schedule request sent after the last close is answered -1, which for the
  client is the promise of a second answer. Client and server stay in step if and
  only if the program still exists (`Lockstep.ScheduleAfterLastClose`,
  `Lockstep.GoneNeverAnswered`; `Gaps.ScheduleAfterLastCloseHappens` is a run to
  it).

## Model

| member | source | states |
|---|---|---|
| `Runs.InitSafe` | Planificador/src/Suse/suse.c:40-122 | The lists and semaphores the server starts with satisfy the whole invariant, for any configured semaphores. |
| `Runs.StepSafe` | Planificador/src/Suse/suse.c:205-853 | Every request and every metrics report keeps the whole invariant: lists that agree, ordered join blocks, admission bound, semaphore values, live programs, well-formed interval lists, estimates within bursts. |
| `Runs.ReachableSafe` | Planificador/src/Suse/suse.c:205-853 | Every state reachable by any sequence of requests satisfies the invariant. |
| `Runs.AdmissionBound` | Planificador/src/Suse/suse.c:240-308 | Over every run the grade never exceeds the limit and equals it whenever NEW is not empty; every pid in any list names a live program; asking programs run nothing, ask once, and are executing if they have a thread; an executing program has a thread outside EXIT. |
| `Admissions.CreateAdmits` | Planificador/src/Suse/suse.c:240-308 | A create sends its thread to NEW exactly when the grade is at the limit; otherwise the grade grows by one, and the thread runs at once exactly when nothing of its program was running. |
| `Admissions.CloseAdmitsOne` | Planificador/src/Suse/suse.c:586-714 | A close that ends the running thread admits exactly one thread of NEW if there is one (the first whose program is executing, or else the head), leaving the grade at the limit; with NEW empty the grade drops by one; a close of another thread changes no list. |
| `Admissions.CloseAdmitsOneAlways` | Planificador/src/Suse/suse.c:586-714 | The same in every reachable state: NEW loses exactly the admitted thread and the grade stays at the limit, or NEW is empty and the grade drops by one. |
| `Partition.ExactlyOnce` | Planificador/src/Suse/suse.c:221-853 | Counting over all lists, each thread that exists occurs exactly once and no other thread occurs; ready and running threads are under their own program. |
| `Partition.PartitionAlways` | Planificador/src/Suse/suse.c:221-853 | Over every run the lists partition the threads that have a record, and every thread listed belongs to a program that still exists. |
| `Partition.ThreadsConserved` | Planificador/src/Suse/suse.c:221-853 | A request adds a thread only if it is a create, and removes threads only if it is a close that ends its program; then all of that program's. |
| `Partition.OnlyExitedDestroyed` | Planificador/src/Suse/suse.c:603-613 | A thread destroyed by a close belongs to the closing program and had exited, or is the one that is closed. |
| `Partition.ReapLeavesOthers` | Planificador/src/Suse/suse.c:1509-1537 | A program leaves exactly when all of its threads have exited, all of them with it; the other programs keep their order, their records and their exited threads. |
| `Joins.NoCycle` | Planificador/src/Suse/suse.c:501-561 | No chain of join waits leads back to where it started. |
| `Joins.ChainEnds` | Planificador/src/Suse/suse.c:501-561 | From every live thread the chain of join waits ends, inside its program, at a live thread that is not waiting on a join. |
| `Joins.JoinsAlwaysSafe` | Planificador/src/Suse/suse.c:501-561 | In every reachable state join waits form no cycle and never lead to an exited thread or another program, and an executing program with no thread on a semaphore has one in NEW, READY or EXEC. |
| `Joins.CloseReleases` | Planificador/src/Suse/suse.c:573-640 | A close that ends a thread puts exactly the threads joined on it, each once and in the order in which they blocked, at the tail of its program's ready list, and behind them at most the one thread it admits; nobody was joined on it if the program ends; the blocks left are exactly those of other holders, in the order they had. |
| `Joins.CloseReleasesAlways` | Planificador/src/Suse/suse.c:573-640 | The same in every reachable state. |
| `Joins.JoinBlocksIff` | Planificador/src/Suse/suse.c:523-561 | In every reachable state: a join on a thread that is found leaves a block of the running thread on it, at the tail of BLOCKED, if and only if it is not in EXIT; otherwise the running thread goes to the tail of its ready list. |
| `Semaphores.StepAccounts` | Planificador/src/Suse/suse.c:770-837 | One request moves a semaphore's positive part by signals minus clamped signals minus completed waits; its queue is first in, first out. |
| `Semaphores.SemaphoreAccounting` | Planificador/src/Suse/suse.c:770-837 | Over every run: the value stays within the maximum, exactly the threads it owes are blocked, initial value plus effective signals minus completed waits is what is left, and threads leave the queue in the order in which they entered it, whatever programs they belong to. |
| `Semaphores.SignalWakesHead` | Planificador/src/Suse/suse.c:818-837 | A signal on a negative semaphore moves the head of the queue to the tail of the ready list of that thread's own program, and touches no other program. |
| `Sjf.SelectionMoves` | Planificador/src/Suse/suse.c:345-406 | A selection runs the chosen thread, keeps the order of the other ready threads, puts the one that was running behind them, and answers the chosen tid. |
| `Sjf.SelectionIsArgmin` | Planificador/src/Suse/suse.c:458-496 | After one pass every ready thread has the exponential average of its last exec interval, end minus start in whole microseconds, and its old estimate, and no other estimate has changed; the chosen thread is the earliest with the least new estimate. |
| `Sjf.SelectionAlways` | Planificador/src/Suse/suse.c:458-496 | The same in every reachable state, where the last exec interval of every ready thread has an end. |
| `Sjf.ShortestBurstFirst` | Planificador/src/Suse/suse.c:467-496 | In every reachable state: among ready threads with the same old estimate a selection takes one whose last burst is shortest. |
| `Sjf.NeverRanGoesFirst` | Planificador/src/Suse/suse.c:458-496 | A selection never passes over a thread that has not run yet. |
| `Sjf.BoundedWaiting` | Planificador/src/Suse/suse.c:345-406 | A thread that never ran, at position p of its ready list, runs within p+1 selections from that list, whatever requests of any program come in between. |
| `Sjf.BoundedWaitingAlways` | Planificador/src/Suse/suse.c:345-406 | The bound from every reachable state, over every continuation of the run. |
| `Sjf.EstimatesWithinBursts` | Planificador/src/Suse/suse.c:467-481 | Over every run each estimate lies between 0 and the longest finished burst of its thread, and the end time that the estimate of a ready thread reads has been set. |
| `Sjf.EstimateDecays` | Planificador/src/Suse/suse.c:467-481 | While a thread waits, after n selections its estimate is its last burst (end minus start of the last exec interval, 0 without one) plus (1-alpha)^n times the initial distance to it. |
| `Sjf.EstimateApproaches` | Planificador/src/Suse/suse.c:467-481 | While a thread waits, its estimate never moves away from that last burst nor crosses it. |
| `Sjf.EstimateDecaysAlways` | Planificador/src/Suse/suse.c:467-481 | The closed form and the approach from every reachable state, over every continuation in which the thread goes on waiting. |
| `Reports.TimelineAlways` | Planificador/src/Suse/suse.c:356-427 | Over every run the exec and ready intervals of each thread are disjoint, ordered and after its creation, a ready or running thread is in the last interval of the right list and all others have ended, and run plus wait up to the next clock reading does not exceed the age. `Spent.RecordAlways` says which intervals they are. |
| `Spent.StepFollows` | Planificador/src/Suse/suse.c:260-427 | Every request changes the interval lists of each thread as it moves the thread: an interval begins at the reading at which the thread comes into its exec slot or a ready list and is ended at the one at which it leaves; a repeated schedule request splits the burst, a report writes the end of the interval that is under way, and nothing else changes a list or a creation time. |
| `Spent.MovedWithin` | Planificador/src/Suse/suse.c:573-796 | The reading at which a request moves a thread is one that the request itself takes; a close takes them in turn for the thread it ends, those joined on it, and the one it admits. |
| `Spent.RecordAlways` | Planificador/src/Suse/suse.c:221-837 | Over every run, from the places and the clock alone: a thread's creation time is the first reading of its create, its interval lists are exactly its visits to the exec slot and to a ready list, and their lengths, with the one it is in ended at any instant, add up to the readings at which it left minus those at which it came. |
| `Spent.ShownAlways` | Planificador/src/Suse/suse.c:1020-1037 | The times shown for a thread after any run are its age since its create and the time it was ready and ran according to its places, each rounded down once. |
| `OpenEnds.OpenExactly` | Planificador/src/Suse/suse.c:260-299 | Until a metrics report writes an end, a thread has an interval without end exactly when it is ready or runs: the last one of the right list and no other. |
| `Reports.ThreadTimes` | Planificador/src/Suse/suse.c:1020-1037 | The three times shown for a thread are the exact ones, with the interval it is in measured up to the report's reading, rounded down once in spite of rounding twice; waiting plus running never exceeds the total. |
| `Runs.RunPlusWaitWithinAge` | Planificador/src/Suse/suse.c:1028-1037 | With the open interval closed at any later reading, run time plus ready time is at most the time since creation. |
| `Timespecs.Accumulator.TimeDiff` | Planificador/src/Suse/suse.c:1704-1732 | In all four carry and borrow branches the accumulator stays normalised and grows by exactly end minus start. |
| `Timespecs.Accumulator.ToUs` | Planificador/src/Suse/suse.c:1659-1661 | The microseconds are the exact nanoseconds rounded down. |
| `Timespecs.Accumulator.AddIntervals` | Planificador/src/Suse/suse.c:1678-1702 | The loop over an interval list adds exactly the sum of its lengths. |
| `Timespecs.Accumulator.AddElapsed` | Planificador/src/Suse/suse.c:1663-1676 | The loop over a list of threads adds exactly the sum of their ages. |
| `Timespecs.SumElapsedAnyOrder` | Planificador/src/Suse/suse.c:1663-1669 | The total age of a group does not depend on the order in which it is listed. |
| `Timespecs.TotalExecTime` | Planificador/src/Suse/suse.c:1613-1657 | The result is the floor in microseconds of the exact total over all six groups, for any listing of the same threads. |
| `Scheduler.Suse.ProgramElapsed` | Planificador/src/Suse/suse.c:885-900 | For a live program the six groups hold each of its threads exactly once, so the result is the floor in microseconds of the summed ages of all its threads. |
| `Lockstep.Lockstep` | Planificador/src/libSuse/libSuse.c:41-119 | In every reachable state of server and clients, a client that has read its answers waits for a second create answer exactly when its program is not executing and has one thread, in NEW, and for a second schedule answer exactly when its program asks for a thread; a client between calls has nothing to read, and one that waits for a first answer will find it. |
| `Lockstep.DeferredToWaiting` | Planificador/src/Suse/suse.c:642-751 | Serving a request sends at most one answer to another client; that client was waiting for this header, and the value ends its wait. |
| `Lockstep.ActKeeps` | Planificador/src/libSuse/libSuse.c:41-119 | Connecting, sending, serving, receiving and reporting keep all clients in step; in particular a served client is never one that waits. |
| `Lockstep.SystemSafe` | Planificador/src/Suse/suse.c:124-203 | Every run of the whole system keeps the server's invariant and every client in step. |
| `Lockstep.RequestAnswers` | Planificador/src/Suse/suse.c:221-853 | A request is answered with its own header after at most one deferred answer; the first answer promises a second one exactly when the server then holds the program as waiting; other programs' waiting status changes only by the deferred answer. |
| `Meanings.AnswersMeanAlways` | Planificador/src/Suse/suse.c:309-751 | In every reachable state, for all answers a request sends: to a create 1 if the program executes and else -1; to a schedule request the tid of the thread that now runs and -1 if none does; to a close 1 if and only if it named the running thread and else -1; to the others 1. The last answer goes to the client that asked, with its own header. |
| `Meanings.CloseAnswerIff` | Planificador/src/Suse/suse.c:583-631 | In every reachable state the last answer to a close is 1 if and only if it named the running thread, which then is in EXIT or gone with its program; otherwise it is -1 and nothing has moved. |
| `Lockstep.ScheduleAfterLastClose` | Planificador/src/Suse/suse.c:324-337 | A schedule request leaves client and server in step if and only if the program still exists; if not, the client waits for a second answer while the server holds nobody as waiting. |
| `Lockstep.GoneNeverAnswered` | Planificador/src/Suse/suse.c:642-751 | After a program is gone no run of the other programs sends its descriptor an answer. |
| `Gaps.ScheduleAfterLastCloseHappens` | Planificador/src/Suse/suse.c:324-337 | A legal run after which a client in step asks for the next thread, is answered -1, waits for a second answer and is in step no longer. |
| `Gaps.WaitAsMeantIff` | Planificador/src/Suse/suse.c:753-796 | A wait of the running thread, as written, has the intended effect if and only if the semaphore is positive, and faults if and only if it is not. |
| `Gaps.WaitAsMeantAlways` | Planificador/src/Suse/suse.c:753-796 | The same condition in every reachable state. |
| `Gaps.WaitFaults` | Planificador/src/Suse/suse.c:1303-1335 | A legal run of two requests after which the wait of the only thread faults. |
| `OwnerlessJoin.JoinNotFound` | Planificador/src/Suse/suse.c:501-571 | In every reachable state, a join that the lookup does not find faults at once if and only if EXIT is not empty; otherwise it is answered 1, its thread leaves the exec slot, and every run from there, with waits as they are written, faults if and only if it comes to the close of a running thread or to a wait that would have to block. |
| `OwnerlessJoin.StopsIff` | Planificador/src/Suse/suse.c:319-853 | From its start the server as written follows a null pointer, of those kept in interval lists, semaphore queues, join blocks and lookups, if and only if it comes to a join not found with somebody in EXIT, to a wait of the running thread on a semaphore that is not positive, or to the close of a running thread with an ownerless block. |
| `OwnerlessJoin.FreeFaultsIff` | Planificador/src/Suse/suse.c:1547-1593 | Freeing join blocks, search by search, faults exactly when some block has no holder, wherever it stands and whoever closes. |
| `OwnerlessJoin.FaultsAtCloseOrWait` | Planificador/src/Suse/suse.c:1557-1563 | With an ownerless block and EXIT empty, a run of any requests, further joins of this kind included, faults if and only if it comes to the close of a running thread or to a wait that would have to block. |
| `OwnerlessJoin.SelfJoin` | Planificador/src/Suse/suse.c:1303-1335 | After two legal requests the only thread of a program can join itself and leaves an ownerless block. |
| `OwnerlessJoin.SelfJoinStops` | Planificador/src/Suse/suse.c:1547-1593 | From there the server stops when another program closes its first thread, and when that thread waits on a semaphore at 0. |
| `OwnerlessJoin.JoinStopsAtOnce` | Planificador/src/Suse/suse.c:1539-1545 | A legal run after which one thread has exited and another, joining itself, stops the server at once. |
| `Gaps.AskingWithoutReadyIff` | Planificador/src/Suse/suse.c:818-837 | From a state where no asking program has a ready thread, a request leads to one where some does if and only if it is a signal that wakes a thread of an asking program. |
| `Gaps.AskingForeverHappens` | Planificador/src/Suse/suse.c:437-446 | A legal run after which a program asks with a ready thread and none in NEW; the signal in it comes from a connected program that is not waiting. |
| `Answering.AskingAnsweredIff` | Planificador/src/Suse/suse.c:642-714 | From every reachable state and over every run of the others, an asking program gets exactly one answer, the tid of its first thread in NEW, if it has one and more threads of the others end than threads of executing programs stand before it in NEW, and no answer otherwise. |
| `Answering.ParkedAnsweredIff` | Planificador/src/Suse/suse.c:693-714 | Likewise a client waiting in its first create gets exactly one answer if more closes find no thread of an executing program in NEW than parked threads stand before its own, and no answer otherwise. |
| `Answerable.AnswerableIff` | Planificador/src/Suse/suse.c:642-714 | In every reachable state a waiting client can be answered by some run of the others if and only if it has a thread in NEW and another program that is not asking has a thread that runs, is ready, or waits on a semaphore that its name finds; the run can then be made of requests of known programs that are not waiting, each as the client library sends it. |
| `Overtaking.OwnThreadsInTheWay` | Planificador/src/Suse/suse.c:437-446 | At every positive limit a legal run after which a program asks with a thread in NEW and nobody can end a thread. |
| `Overtaking.OvertakenForever` | Planificador/src/Suse/suse.c:645-691 | At every positive limit and for every n a run in which n threads of another program end and a parked client stays where it is, without an answer. |
| `Scheduler.Suse.constructor` | Planificador/src/Suse/suse.c:40-122 | Starts with empty lists and one wrapper in BLOCKED per semaphore, and is valid. |
| `Scheduler.Suse.CreateNewProgram` | Planificador/src/Suse/suse.c:205-218 | In place, a new program with nothing in it; refines the connection event. |
| `Scheduler.Suse.SuseCreate` | Planificador/src/Suse/suse.c:221-317 | In place, with the counted grade; refines the create event and keeps the server valid. The thread's creation time is the first clock reading of the request. |
| `Scheduler.Suse.SuseScheduleNext` | Planificador/src/Suse/suse.c:319-343 | Refines the schedule event, also for a program that is gone. |
| `Scheduler.Suse.ScheduleNext` | Planificador/src/Suse/suse.c:345-456 | All four outcomes, with every interval stamp, refine the schedule function. |
| `Scheduler.Suse.ScheduleNewThread` | Planificador/src/Suse/suse.c:458-499 | The single pass with a remembered position computes the argmin of the new estimates and removes precisely that thread. |
| `Scheduler.Suse.NewEstimate` | Planificador/src/Suse/suse.c:467-481 | alpha times the length of the last burst, end minus start in whole microseconds, plus (1-alpha) times the old estimate; without a burst (1-alpha) times the old one. |
| `Scheduler.Suse.SuseJoin` | Planificador/src/Suse/suse.c:501-571 | Refines the join event, on a live and on a dead target. |
| `Scheduler.Suse.SuseClose` | Planificador/src/Suse/suse.c:573-640 | Refines the close event: exit, release, destruction of a finished program, admission, answer. The last answer is 1 exactly when the running thread was named, and else -1. |
| `Scheduler.Suse.ExitThread` | Planificador/src/Suse/suse.c:586-596 | Emptying the exec slot, ending the burst, appending to EXIT and releasing the joined threads, in that order, refine the exit step; EXIT grows at its tail. |
| `Scheduler.Suse.ReapProgram` | Planificador/src/Suse/suse.c:603-613 | A program with nothing left outside EXIT is destroyed with all its threads; any other is left as it is. |
| `Scheduler.Suse.FreeJoinBlocks` | Planificador/src/Suse/suse.c:1547-1593 | The loop ends, and what it leaves is the filtered BLOCKED list with all released threads at the tail of ready, one clock reading after the other. |
| `Scheduler.Suse.DestroyExitThreads` | Planificador/src/Suse/suse.c:1523-1537 | The loop ends and removes exactly the program's threads from EXIT, keeping the order of the rest. |
| `Scheduler.Suse.NoMoreThreads` | Planificador/src/Suse/suse.c:1409-1499 | The four counts add up to zero exactly when all threads of the program have exited. |
| `Scheduler.Suse.MultiprogrammingGrade` | Planificador/src/Suse/suse.c:1248-1284 | The three folds over the programs add up to the number of threads that are neither in NEW nor in EXIT. |
| `Scheduler.Suse.ThreadsInJoinBlockList` | Planificador/src/Suse/suse.c:1443-1461 | The program's threads among the join blocks, in order. |
| `Scheduler.Suse.ThreadsInSemaphoreBlockList` | Planificador/src/Suse/suse.c:1471-1492 | The program's threads in the semaphore queues, reached through the wrappers in BLOCKED. |
| `Scheduler.Suse.ThreadsInBlocked` | Planificador/src/Suse/suse.c:1432-1434 | The two lists together are as long as the program has blocked threads. |
| `Scheduler.Suse.DistributeNewThread` | Planificador/src/Suse/suse.c:642-714 | Refines the admission step: ready, exec with a schedule answer, or exec with a create answer. |
| `Scheduler.Suse.AssignThread` | Planificador/src/Suse/suse.c:716-751 | Puts the thread in the exec slot with an open interval and sends the answer the header asks for. |
| `Scheduler.Suse.SuseWait` | Planificador/src/Suse/suse.c:753-800 | Refines the wait event on the thread in execution. |
| `Scheduler.Suse.SuseSignal` | Planificador/src/Suse/suse.c:802-853 | Refines the signal event; taking the head of the queue never finds it empty. |
| `Scheduler.Suse.MetricsWrites` | Planificador/src/Suse/suse.c:885-971 | The walk over programs and ready lists writes the report's reading as the end of exactly the open intervals. |
| `Scheduler.LookupIs` | Planificador/src/Suse/suse.c:1303-1335 | Searching the ready list by tid alone, then EXIT and NEW by tid and pid, finds the thread with that pid and tid. |
| `Invariant.FoundIff` | Planificador/src/Suse/suse.c:1303-1335 | A thread of a live program is found if and only if it is in NEW, ready or in EXIT. |
| `Scheduler.BlockingThreadIsDead` | Planificador/src/Suse/suse.c:1539-1545 | Holds exactly for the threads in EXIT. |
| `Ops.Choose` | Planificador/src/Suse/suse.c:482-494 | The position of the earliest thread with the least estimate. |
| `Ops.FirstRunnable` | Planificador/src/Suse/suse.c:645-659 | The first thread whose program is executing, none before it being so. |
| `Ops.FindSem` | Planificador/src/Suse/suse.c:1337-1342 | The first semaphore with the given name; past the end exactly when there is none. |
| `Codec.DecodeEncode` | altaLibreria/connections.c:371-386 | Decoding an encoded 32-bit integer gives it back, for every int. |
| `Codec.EncodeDecode` | altaLibreria/connections.c:433-434 | Encoding a decoded integer gives back the four bytes, for all four bytes. |
| `Codec.EncodeInt` | altaLibreria/connections.c:380-409 | The four bytes are the value modulo 2^32, least significant byte first. |
| `Codec.ParseIff` | altaLibreria/connections.c:371-441 | A payload parses to a list of values if and only if it is what packing them gives. |
| `Codec.Package.constructor` | altaLibreria/connections.c:362-369 | An empty package of the given type. |
| `Codec.Package.Add` | altaLibreria/connections.c:371-387 | The buffer grows in place by the length of the value and the value, and is the packing of all values so far. |
| `Codec.Package.Serialize` | altaLibreria/connections.c:389-414 | The bytes sent are four for the type, four for the size, and the payload. |
| `Codec.ReceivePackage` | altaLibreria/connections.c:423-441 | The loop ends and collects exactly the values of the payload; where the source would copy past the buffer or with a negative length the result is none. |
| `Codec.ReadSerialized` | altaLibreria/connections.c:403-441 | The first package of a stream is read back and the rest of the stream is what follows it. |
| `Codec.SplitIff` | altaLibreria/connections.c:403-441 | A stream splits, by header sizes, into a sequence of packages if and only if it is their concatenation. |
| `LibSuse.DispatchRequest` | Planificador/src/Suse/suse.c:150-196 | The server dispatches each request package to the call that the client made, with the same tid and semaphore name. |
| `LibSuse.CallsArrive` | Planificador/src/Suse/suse.c:150-196 | Any sequence of calls of a client reaches the server as the same sequence of events. |
| `LibSuse.CallSucceeds` | Planificador/src/libSuse/libSuse.c:41-119 | For a client in step, a create or schedule call reads all its answers and no more, and succeeds. |
| `LibSuse.ReadsOnce` | Planificador/src/libSuse/libSuse.c:62-76 | A call reads two answers exactly when the first one promises a second. |
| `LibSuse.Connection.ConfirmAction` | Planificador/src/libSuse/libSuse.c:233-242 | Consumes exactly one answer from the stream and returns its value. |
| `LibSuse.Connection.Send` | altaLibreria/connections.c:389-401 | Sends the serialised package, or nothing if the socket fails. |
| `LibSuse.Connection.SuseCreate` | Planificador/src/libSuse/libSuse.c:41-81 | Connects if needed, sends its request and reads one answer, or two if the first is not 1; over a working connection returns 0 exactly when the last answer read is 1 and else -1; fails without effect if the connection does. |
| `LibSuse.Connection.SuseScheduleNext` | Planificador/src/libSuse/libSuse.c:83-119 | Sends its request and reads one answer, or two if the first is negative; over a working connection returns the last answer read if it is not negative and else -1. |
| `LibSuse.Connection.SuseJoin` | Planificador/src/libSuse/libSuse.c:121-144 | One request; over a working connection one answer is read and the result is 0 if it is 1 and else -1. |
| `LibSuse.Connection.SuseClose` | Planificador/src/libSuse/libSuse.c:146-168 | One request; over a working connection one answer is read and the result is 0 if it is 1 and else -1. |
| `LibSuse.Connection.SuseWait` | Planificador/src/libSuse/libSuse.c:170-193 | One request with tid and name; over a working connection one answer is read and the result is 0 if it is 1 and else -1. |
| `LibSuse.Connection.SuseSignal` | Planificador/src/libSuse/libSuse.c:195-218 | One request with tid and name; over a working connection one answer is read and the result is 0 if it is 1 and else -1. |

## Left out

- Scheduler.Suse.SuseWait: blocks the running thread, where the code looks it up with `find_thread`; `Gaps.WaitAsMeantIff` and `OwnerlessJoin.StopsIff` are about the code as written.
- Scheduler.Suse.SuseJoin: its target must be one that the lookup finds; `OwnerlessJoin.JoinNotFound` is about the others, and the class has no state for the null pointer they leave.
- Scheduler.Suse.SuseCreate: requires a thread id that the program does not already use, as the client library's caller ensures; the lookups by pid and tid rest on it.
- Scheduler.Suse.SuseClose: needs a thread in execution, as the source does; with none it follows a null pointer.
- LibSuse.Connection.SuseCreate: does not model a connection that fails between sending and receiving; it either works or does not.
- LibSuse.Connection.Send: before the connection is initialised the library sends on descriptor 0; the model takes that not to be a socket, so that the call fails.
- LibSuse.Connection.ConfirmAction: needs an answer on the stream; a call whose answer never comes does not return.
- Codec.Package.Add: needs the total size to stay within 32 bits; beyond that the source's sizes overflow.
- Heap objects for threads and programs: they are records in maps keyed by their ids, so freed memory and aliasing are not modelled.
- Lists are sequences; list internals are not part of this model.
- Integers other than those on the wire are unbounded; `double` estimates are reals, and the percentages of a report are left out.
- Integers on the wire are least significant byte first, as on the machines the program is built for.
- Answers are sent from detached threads; the model takes channels to be reliable and in order.
- Sockets, select and accept, partial sends and receives, lost connections and the reuse of descriptors after them.
- The metrics thread runs beside the server without a lock; here a report is one atomic step at a clock reading.
- Text of the metrics, logging, configuration files, allocation.
- The hilolay library, the memory and file system programs and the examples.

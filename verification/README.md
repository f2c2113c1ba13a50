# Verified models of rsyscall's runtime

rsyscall drives remote Linux processes from userspace. This project models the four parts of its
runtime that hold real protocol, ownership and allocation logic, and proves what they keep in every
run. `dafny verify dfyconfig.toml` checks all of it.

**Descriptor ownership** (`FdTables`, `FdInvariant`, `FdSteps`, `FdSafety`, `FdGuard`, `FdLive`,
`FdRuns`, `FdExact`, `FdRace`, `FdEffects`, `FdSets`, `FdRuntime`). Tasks share descriptor tables; handles are made, shared,
inherited, moved, borrowed, invalidated and dropped; garbage collection closes numbers without
handles; and `unshare_files` moves a task to a copied table in the middle of it. Every task has a pipe
of system calls that the kernel runs in order, and a close runs in whatever table its task is in by
then. The property everybody relies on, that a valid handle's number is open in its task's kernel
table and names the file it was made for, is **not** kept by the code in every interleaving: if a
table is garbage-collected while an unshare out of it has not run, a number whose handles went away in
that window is later closed a second time, possibly under somebody else's valid handle. The exact
condition is on the step that starts a close: the task that is to run it has lost its connection, or no
unshare out of the table that has still to run has the number in its new table. Under it the property
holds in every run (`FdRuns.HandlesStaySafe`); and in every run guarded so far, a step without it has a
continuation, by guarded steps alone, to a state with a bad handle (`FdExact.GuardIsExact`, an if and
only if over all such runs). The code does get there (`FdRace.UnguardedGcBreaksHandles`). A close that
ran, but whose result was lost with the connection, breaks the property too
(`FdRace.LostCloseBreaksHandles`); a close that did not run is put back safely.

**Event delivery** (`EpollStatus`, `EpolledFd`, `EpollDispatch`, `Sigchld`, `Pids`). Edge-triggered
readiness tracking loses no wakeup under any overlap of calls, EAGAINs, snapshots and events, except
that a call that fails otherwise may: it counts events as consumed though the flag can still be ready
(`EpollStatus.HangupIsLost` is such a run). Ending a failed call is harmless exactly if each of its
flags that is ready with no event coming passes a test on mask, counts and calls in progress
(`EpollStatus.FailedCallIsExact`), and runs whose failed calls pass that test on all flags lose
nothing. The event dispatcher never misses a continuation and never reuses a number; waitpid never
misses a SIGCHLD. A pid is never signalled or waited for after it was reaped, exactly as long as
siginfo buffers, other than those telling of a death, have one reader at a time, and the result of the
waitid that reaped the child is not lost (`Pids.GuardIsExact`).

**The pipelined protocol** (`Streams`, `Pipeline`, `PipelineSteps`, `PipelineRuns`, `Server`,
`ReadBuffer`, `RequestQueues`, `Persistent`). Requests are batched, written in pieces, cut out of the
byte stream by the C server, performed, and their responses matched to continuations. What
SyscallSendError promises, that the syscall was not executed, does not hold for a batch of which a part
was written; `PipelineRuns.SendErrorIsExact` says exactly when such a request is or can still be
performed. Also the request queue under re-entrant resumption, and the order of syscalls across a
reconnect.

**Memory** (`Allocator`, `Arenas`, `BulkMalloc`, `Pointers`, `PointerRuns`, `PointerObjects`,
`Stacks`, `Batches`, `BatchRuns`). First-fit arenas with split, merge and free; linear pointers on
top of them; stack preparation for clone; and batching, which runs a callable twice and must mean the
same as running it directly.

State machines are pure: a state datatype, `Can` and `Apply` (or one function per step), an
invariant, and theorems over sequences of states. Code that updates objects in place is a class whose
methods are proved to do what the functions say (`Arenas`, `BulkMalloc`, `PointerObjects`,
`BatchRuns`, `FdRuntime`, `EpolledFd`, `EpollDispatch`, `Sigchld`, `Pids`, `Server`, `ReadBuffer`,
`RequestQueues`, `Persistent`); where there is a state machine beside it, the object carries its state
and every method takes steps of it. The kernel, the transport and mmap are steps, parameters or methods
with a nondeterministic body. Identities that Python gets from object identity are numbers.

## Model

| member | source | states |
|---|---|---|
| `FdRuns.HandlesStaySafe` | python/rsyscall/handle/fd.py:234-416 | in every run whose closes start guarded, at every state, each valid handle's number is open in its task's kernel table and names the file the handle was made for |
| `FdRuns.EveryCloseIsItsOwn` | python/rsyscall/handle/fd.py:234-259 | in such a run every close that runs finds its number open, owned by that close and untracked, and leaves it closed: at most one executed close per opened number |
| `FdRuns.EveryOpenIsNew` | python/rsyscall/handle/fd.py:299-312 | in such a run make_fd_handle never finds the number of a finished open already known, and a handle of the opening task, for that number and file, is made |
| `FdExact.GuardIsExact` | python/rsyscall/handle/fd.py:249-259 | in every run guarded so far, a step is guarded if and only if every valid handle stays good in all continuations whose further closes start guarded |
| `FdExact.UnguardedEndsBadly` | python/rsyscall/handle/fd.py:249-416 | after every step that starts a close without the guard, from any state such runs reach, guarded steps lead to a valid handle whose number is closed |
| `FdRuns.StepSound` | python/rsyscall/handle/fd.py:29-416 | each of the nineteen steps, if guarded, keeps the whole invariant |
| `FdRuns.GuardIsCare` | python/rsyscall/handle/fd.py:249-259 | the guard stated on the tables' dictionaries and pending closes equals the guard stated on ownership, in every reachable state |
| `FdRuns.InitInv` | python/rsyscall/handle/fd.py:266-285 | the invariant holds for any number of tasks and tables before anything is opened through handles |
| `FdRace.UnguardedGcBreaksHandles` | python/rsyscall/handle/fd.py:249-259 | from every state such runs reach in which a number has one handle and its task shares the table with another, the code gets to an unguarded GC, and from there to a bad handle |
| `FdRace.LostCloseBreaksHandles` | python/rsyscall/handle/fd.py:240-247 | from every state such runs reach, putting back a closed number whose close's result was lost can end badly, if a task works in the table and nobody is unsharing out of it |
| `FdRace.PutBackOfLeakedKeeps` | python/rsyscall/handle/fd.py:240-247 | it is harmless if the number is open again without ever having got a handle: the invariant is kept |
| `FdSafety.InvIsSafe` | python/rsyscall/handle/fd.py:290-297 | the invariant implies that all valid handles are good |
| `FdSafety.OpenedIsNeverKnown` | python/rsyscall/handle/fd.py:310-312 | with the invariant, the "already known" exception does not fire for a task that is not unsharing |
| `FdSafety.CloseHitsItsOwn` | python/rsyscall/handle/fd.py:234-239 | with the invariant, a close about to run hits an open number that it owns, that nobody tracks and that no open has just returned |
| `FdSafety.ClosedOnce` | python/rsyscall/handle/fd.py:252-259 | two closes in progress never have the same number in the same table |
| `FdSafety.PutBackIsUnknown` | python/rsyscall/handle/fd.py:240-247 | the assertion on the hangup path holds: a number whose close did not run is not tracked again |
| `FdSafety.HandleIsWhereExpected` | python/rsyscall/handle/fd.py:184-195 | a valid handle is in its table's set for its number, and in the old table's set until its task's unshare is finished, so no lookup fails |
| `FdSafety.ShareKeeps` | python/rsyscall/handle/fd.py:104-126 | for_task, and inherit_fd of a number not closed since the clone, keep the invariant |
| `FdSafety.OnOpenedKeeps` | python/rsyscall/handle/fd.py:299-312 | handling the result of an open keeps the invariant whether or not a handle can be made |
| `FdSteps.RunCloseKeeps` | python/rsyscall/handle/fd.py:200-205 | a close run by the kernel in the task's current table keeps the invariant |
| `FdSteps.RunUnshareKeeps` | python/rsyscall/handle/fd.py:391-391 | copying the table in the kernel keeps the invariant |
| `FdSteps.StartUnshareKeeps` | python/rsyscall/handle/fd.py:340-352 | switching the task to a fresh table while its handles stay in the old one keeps the invariant |
| `FdSteps.OnUnsharedKeeps` | python/rsyscall/handle/fd.py:407-412 | taking the task's handles out of the old table after the unshare keeps the invariant |
| `FdSteps.HangCloseKeeps` | python/rsyscall/handle/fd.py:240-247 | putting back a number whose close did not run keeps the invariant |
| `FdSteps.UntrackKeeps` | python/rsyscall/handle/fd.py:164-182 | dropping a handle from tracking, as move and the exit from borrow do, keeps the invariant |
| `FdSteps.CollectKeeps` | python/rsyscall/handle/fd.py:208-218 | a handle object that vanishes from every weak set keeps the invariant |
| `FdSteps.HangKeeps` | python/rsyscall/handle/fd.py:234-247 | a broken connection keeps the invariant: an unshare that will never run stops mattering |
| `FdSteps.CloneCopiedKeeps` | python/rsyscall/handle/fd.py:208-218 | a child with a copied table, able to inherit the parent's handles, keeps the invariant |
| `FdGuard.GuardIsCloseSafe` | python/rsyscall/handle/fd.py:249-259 | "not in the new table of an unshare that has still to run" is exactly what the dictionaries and pending closes show |
| `FdGuard.ReservedStep` | python/rsyscall/handle/fd.py:340-416 | every step keeps: a number claimed in a table that does not exist yet is tracked there or in a close bound for it |
| `FdLive.StepLive` | python/rsyscall/handle/fd.py:340-391 | every step keeps: an unshare still to run belongs to a working task |
| `FdLive.StepSets` | python/rsyscall/handle/fd.py:340-352 | every step keeps: handles in a table still to be made are valid and of its task |
| `FdLive.StepQueued` | python/rsyscall/handle/fd.py:234-259 | every step keeps: a submitted close is in its task's pipe |
| `FdEffects.HandlesAfter` | python/rsyscall/handle/fd.py:29-416 | all handles are as before every step, but the one an open, for_task or inherit_fd makes, on the task that asked and for the number and file at hand, the one that is dropped, and the one that vanishes |
| `FdEffects.HandleIsForLife` | python/rsyscall/handle/fd.py:36-48 | in every guarded run a handle keeps its task, number and file for life, and is never valid again |
| `FdEffects.ClosesAfter` | python/rsyscall/handle/fd.py:234-259 | no step starts a close but dropping a last handle, through its own task, and GC, through the task that collects; no close changes its task, number or table to be put back in, and none is given up but by running or by a hangup |
| `FdEffects.TablesAfter` | python/rsyscall/handle/fd.py:340-391 | only its own unshare_files moves a task to another table |
| `FdEffects.ChildInherits` | python/rsyscall/handle/fd.py:208-218 | after a clone with a copied table, the child can inherit each valid handle tracked in the parent's table, and what the parent could inherit |
| `FdSets.SetsAfter` | python/rsyscall/handle/fd.py:29-416 | what every step does to the sets of handles: a made handle enters one set, a dropped one leaves one, a closed number is forgotten, a fresh table has exactly its task's handles, the end of an unshare takes out exactly those, a number put back has an empty set, and nothing else changes |
| `FdSets.KernelAfter` | python/rsyscall/handle/fd.py:200-205 | only calls that run change the kernel's tables: an open adds its number, a close removes its own in the table its task is in by then, unshare and clone copy all numbers and files of one table |
| `FdRuntime.Runtime.ForTask` | python/rsyscall/handle/fd.py:104-126 | says for which error it raises, changing nothing; otherwise the only change is a new handle of the task asked for, with the number and file of the given one, in its `fd_handles` and in its table's set |
| `FdRuntime.Runtime.InheritFd` | python/rsyscall/handle/fd.py:314-338 | the same for inherit_fd, which also takes handles of another table that its table inherited; the invariant is kept unless that table closed the number since the clone |
| `FdRuntime.Runtime.CloneTable` | python/rsyscall/handle/fd.py:208-218 | the child's table can inherit exactly what is tracked in the parent's table and what that could inherit |
| `FdRuntime.Runtime.Move` | python/rsyscall/handle/fd.py:164-182 | the only changes are a new handle of the task asked for, same number and file, and the old one made invalid; the "no handles left" exception is unreachable |
| `FdRuntime.Runtime.Invalidate` | python/rsyscall/handle/fd.py:46-76 | drops the handle, and starts a close, of that number in that task's table through the handle's own task, exactly if no other handle is in the set; invalid handles are ignored; the invariant is kept if the close is guarded |
| `FdRuntime.Runtime.GcUsingTask` | python/rsyscall/handle/fd.py:249-259 | the loop removes exactly the numbers of the table that have no handles, each with a new close of it through this task, and leaves all other closes alone; the invariant is kept if all of them are guarded |
| `FdRuntime.Runtime.MakeHandle` | python/rsyscall/handle/fd.py:290-297 | the new handle, of this task, number and file, is in the task's handles and in the table's set for its number; all other handles and sets are as before |
| `FdRuntime.Runtime.MakeFreshFdTable` | python/rsyscall/handle/fd.py:340-352 | the loop groups exactly the task's valid handles by number |
| `FdRuntime.Runtime.BeginUnshare` | python/rsyscall/handle/fd.py:387-391 | refused while unsharing; otherwise the task is in a fresh table whose sets are exactly its handles by number, and the sets of all other tables are as before |
| `FdRuntime.Runtime.FinishUnshare` | python/rsyscall/handle/fd.py:407-412 | the loop finds every handle in the old table and takes out exactly the task's; no other set, no handle and no close changes |
| `FdRuntime.MovedIsNotLast` | python/rsyscall/handle/fd.py:175-182 | after for_task, the moved handle is not the last one of its number |
| `EpollStatus.WakeupsAreNeverLost` | python/rsyscall/epoller.py:309-378 | in every run whose failed calls pass the test, whenever a coroutine is parked on a flag that is ready, an event for it is an unreported edge or waits to be dispatched |
| `EpollStatus.NobodySpins` | python/rsyscall/epoller.py:331-336 | in every run, whoever gets EAGAIN from a call, with no event for its flags dispatched since the call began, parks when it waits again, at every later point until there is news |
| `EpollStatus.EagainParks` | python/rsyscall/epoller.py:482-490 | after a call that got EAGAIN, wait_for parks if and only if each flag's events so far are those of the snapshot, or were consumed already |
| `EpollStatus.OnlyNewsUnparks` | python/rsyscall/epoller.py:309-336 | a dispatched event for the flags, or a failed call that sets one, keeps wait_for from parking; no other step does |
| `EpollStatus.SnapshotIsFresh` | python/rsyscall/epoller.py:338-378 | as long as no event for its flags is dispatched, a call's snapshot is the number of events so far |
| `EpollStatus.StepNoLostWakeup` | python/rsyscall/epoller.py:331-336 | each step keeps that, parking included: the test in wait_for is strong enough |
| `EpollStatus.StepAnnounced` | python/rsyscall/epoller.py:477-493 | each such step keeps: a ready flag with no event coming has an unconsumed event, or is in the mask to stay, and was announced beyond the snapshot of any call that got EAGAIN |
| `EpollStatus.StepKeeps` | python/rsyscall/epoller.py:262-378 | every step, failed calls ending under the test, keeps the invariant |
| `EpollStatus.FailedCallIsExact` | python/rsyscall/epoller.py:484-490 | ending a call that failed otherwise than with EAGAIN leads to no lost wakeup in any continuation if and only if each of its flags that is ready with no event coming passes the test |
| `EpollStatus.HangupIsLost` | python/rsyscall/epoller.py:473-490 | a run from a fresh registration in which a failed read fails the test and wait_for_rdhup then parks on a hangup that nobody will report |
| `EpollStatus.UntestedEndsBadly` | python/rsyscall/epoller.py:484-490 | wherever the test fails on such a flag, a continuation loses a wakeup |
| `EpolledFd.EpolledFileDescriptor.Dispatch` | python/rsyscall/epoller.py:309-329 | an event resumes everybody parked on one of its flags exactly once and nobody else, whatever the resumed coroutines wait for meanwhile; it is the dispatch step of the status model, followed by their waits |
| `EpolledFd.EpolledFileDescriptor.WaitFor` | python/rsyscall/epoller.py:331-336 | parks exactly when neither the mask nor an unconsumed event has one of the flags |
| `EpolledFd.EpolledFileDescriptor.EndCall` | python/rsyscall/epoller.py:482-493 | a success changes nothing; EAGAIN and other failures consume exactly the snapshot of exactly the flags, and clear or set the mask; after EAGAIN, nothing keeps wait_for from parking if and only if there is no event beyond the snapshot; it is the status model's step |
| `EpolledFd.EpolledFileDescriptor.BeginCall` | python/rsyscall/epoller.py:338-378 | the snapshot of a beginning call is the number of events so far |
| `EpolledFd.EpolledFileDescriptor.ResumeFor` | python/rsyscall/epoller.py:322-328 | resuming one flag's list takes each of its waiters off all lists, once, with re-entrant waits going to the queue |
| `EpolledFd.EpolledFileDescriptor.Fetch` | python/rsyscall/epoller.py:319-321 | everybody queued enters the list of each of its flags once |
| `EpollDispatch.EpollWaiter.AllocateNumber` | python/rsyscall/epoller.py:136-151 | terminates with the first unused number among request, request + 1000, and so on |
| `EpollDispatch.EpollWaiter.Register` | python/rsyscall/epoller.py:249-260 | the number was never used before, and its continuation is queued once |
| `EpollDispatch.EpollWaiter.Process` | python/rsyscall/epoller.py:195-204 | every event finds the continuation waiting for its number and resumes it once, and its number then waits with a new one; every deleted number is thrown once; all other numbers keep their continuation, and no registration is lost, whatever the resumed code registers |
| `EpollDispatch.EpollWaiter.RemovePending` | python/rsyscall/epoller.py:201-204 | exactly the deleted numbers are thrown, once each, and are never live again, whatever the code thrown into registers; all other continuations wait on |
| `EpollDispatch.EpollWaiter.WaitRuns` | python/rsyscall/epoller.py:153-160 | no event returned later carries a removed number |
| `EpollDispatch.EpollWaiter.Send` | python/rsyscall/epoller.py:197-199 | resuming one event takes its continuation and queues a new one for the same number; no other number's changes |
| `EpollDispatch.EpollWaiter.SendAll` | python/rsyscall/epoller.py:195-200 | all events of one epoll_wait find the continuations that waited when it returned, in order, with re-entrant registrations in between |
| `EpollDispatch.FewerAbove` | python/rsyscall/epoller.py:146-149 | the search for a free number has fewer used numbers ahead after every step |
| `Sigchld.SigchldIsNeverMissed` | python/rsyscall/monitor.py:162-193 | in every run, whoever waits on an unset saved Event for a child with an unreported change: SIGCHLD is pending or held by an unprocessed read, and processing it sets that very Event |
| `Sigchld.ReturnsIffReported` | python/rsyscall/monitor.py:162-193 | between saving the Event and handling the result of its waitid, a coroutine in waitpid returns if and only if waitid found a change, which then nobody else reports; otherwise it waits on the Event that was current when it saved it |
| `Sigchld.StepKeeps` | python/rsyscall/monitor.py:123-193 | each step keeps: all Events but the current one are set, and nobody relies on an Event without a signal on its way |
| `Sigchld.LateSaveMisses` | python/rsyscall/monitor.py:174-180 | saving the Event only after waitid would miss a signal, as the source's comment warns |
| `Sigchld.AsyncSignalfd.OnRead` | python/rsyscall/monitor.py:123-134 | exactly the current Event is set, with everybody waiting on it resumed, and a fresh one takes its place: the swap step of the protocol |
| `Sigchld.Event.Set` | python/dneio/concur.py:74-83 | everybody waiting is resumed once, in order |
| `Pids.PidIsSafe` | python/rsyscall/handle/process.py:84-163 | in every guarded run, once a waitid has reaped the child no kill or waitid runs or is begun |
| `Pids.GuardIsExact` | python/rsyscall/handle/process.py:84-163 | in a run guarded so far, a step is guarded (one reader of a siginfo that tells of no death; no lost result of the waitid that reaped) if and only if no continuation has a call under way on a reaped pid |
| `Pids.LostDeathIsForgotten` | python/rsyscall/handle/process.py:84-144 | when the result of the reaping waitid is lost, a kill begins on the reaped pid |
| `Pids.TwoReadersLoseADeath` | python/rsyscall/handle/process.py:146-163 | a second reader of a siginfo that tells of no death leads to a kill on a reaped pid |
| `Pids.StepKeeps` | python/rsyscall/handle/process.py:84-163 | each step keeps: a reaped child is known dead, or an unread or returning siginfo says so |
| `Pids.ChildProcess.Borrow` | python/rsyscall/handle/process.py:84-101 | refused exactly when dead, unread or in use, and never granted for a reaped pid |
| `Pids.ChildProcess.Release` | python/rsyscall/handle/process.py:131-144 | the pid is free for use again; after waitid, and only then, the buffer is unread and is the one waitid filled |
| `Pids.ChildProcess.ReleaseRaised` | python/rsyscall/handle/process.py:98-101 | after an exception the pid is free for use and no buffer is unread, whether or not the call ran |
| `Pids.ChildProcess.ParseSiginfo` | python/rsyscall/handle/process.py:146-156 | the buffer is read; a death, and nothing else, is recorded, and no event gives None |
| `PipelineRuns.PipeliningIsCorrect` | python/rsyscall/tasks/connection.py:138-180 | in every run the k-th request performed is the k-th accepted, and a continuation that gets a result gets that of its own request |
| `PipelineRuns.ExecutedInOrder` | c/src/rsyscall.c:82-93 | what the server performed is a prefix of what was accepted, even when a batch was cut off |
| `PipelineRuns.OutcomesAreFinal` | python/rsyscall/tasks/connection.py:138-180 | no step changes an outcome or takes back an execution: each continuation is resumed at most once |
| `PipelineRuns.PendingIsSomewhere` | python/rsyscall/tasks/connection.py:138-180 | a request without outcome is queued, in the batch, in the response queue or being read |
| `PipelineRuns.UnsentIsNotExecuted` | python/rsyscall/near/sysif.py:167-175 | a request of which not all 56 bytes were written has not been performed |
| `PipelineRuns.WrittenIsSettled` | python/rsyscall/tasks/connection.py:150-164 | what was written when a write fails is what was written in every later state |
| `PipelineRuns.SendErrorIsExact` | python/rsyscall/near/sysif.py:167-175 | in every run, a request that got SyscallSendError is or can still be performed if and only if it was performed already, or all its 56 bytes were written and the server has not stopped |
| `PipelineRuns.SentCanBeExecuted` | c/src/rsyscall.c:82-93 | whatever was completely written, a running server can go on to perform |
| `PipelineRuns.FirstOfBatchMisreported` | python/rsyscall/tasks/connection.py:156-164 | when a write fails after the first of several requests, that completely written request gets SyscallSendError |
| `PipelineSteps.StepKeeps` | python/rsyscall/tasks/connection.py:138-180 | every step keeps the invariant on queues, streams and outcomes |
| `PipelineSteps.NextResponse` | python/rsyscall/tasks/connection.py:174-174 | the next eight bytes the client has are the next result |
| `PipelineSteps.BatchBytes` | python/rsyscall/tasks/connection.py:144-145 | a batch goes on the wire right behind everything written before |
| `Streams.RecordsOfPrefix` | c/src/rsyscall.c:38-56 | if a stream of fixed-size records begins another, its records are the other's first |
| `Server.ReadRequest` | c/src/rsyscall.c:38-56 | returns 1 exactly with a whole record, 0 only at the end of the input, and an error only when a read failed; whatever the short reads and interrupts, no byte is lost or read twice |
| `Server.WriteResponse` | c/src/rsyscall.c:65-80 | returns 1 exactly when all eight bytes were written, in order, over partial and interrupted writes, and an error only when a write failed |
| `Server.RsyscallServer` | c/src/rsyscall.c:82-93 | records are cut off the input in order, performed once each on the history so far, and answered in order; it ends at the end of the input only when every whole request was performed and answered, and else only on a failed read or write; at most the last answer is incomplete |
| `Server.ServeOne` | c/src/rsyscall.c:87-91 | one turn: a request is performed exactly if it was read completely, and then answered unless the output broke |
| `Server.RequestLoop.SendBatch` | python/rsyscall/tasks/connection.py:138-166 | all requests of a batch are forwarded, or all get SyscallSendError, over any partial writes, by steps of the protocol |
| `Server.ResponseLoop.ReceiveOne` | python/rsyscall/tasks/connection.py:168-180 | the oldest request gets the next eight bytes, or SyscallHangup when they never come |
| `ReadBuffer.AsyncReadBuffer.ReadAll` | python/rsyscall/epoller.py:650-765 | any sequence of reads gives what it gives on the whole stream, for any split into chunks |
| `ReadBuffer.ValuesAreInTurn` | python/rsyscall/epoller.py:650-765 | these values are those of the reads one after another, each on what the one before has left |
| `ReadBuffer.AsyncReadBuffer.ReadLength` | python/rsyscall/epoller.py:680-688 | exactly the first n bytes, or EOF exactly when the stream is shorter |
| `ReadBuffer.AsyncReadBuffer.ReadUntilDelimiter` | python/rsyscall/epoller.py:749-765 | the bytes before the first occurrence of the delimiter, leaving those behind its first byte; EOF exactly when it never comes |
| `ReadBuffer.StripsSingleBytes` | python/rsyscall/epoller.py:755-759 | the whole delimiter is stripped if and only if it is one byte |
| `ReadBuffer.AsyncReadBuffer.ReadText` | python/rsyscall/epoller.py:715-722 | the string the size in front announces |
| `ReadBuffer.AsyncReadBuffer.ReadArray` | python/rsyscall/epoller.py:724-729 | that many length-prefixed strings in a row |
| `ReadBuffer.ArrayRoundTrip` | c/src/rsyscall_unix_stub.c:51-70 | parsing what the writer wrote gives the same list of strings and leaves what follows |
| `ReadBuffer.ReadBack` | python/rsyscall/epoller.py:724-729 | the reader gets the list back from any chunks of the written stream |
| `ReadBuffer.SizeRoundTrip` | c/src/rsyscall_unix_stub.c:56-57 | the native 64-bit size survives encoding and decoding |
| `ReadBuffer.WriteNullTerminatedArray` | c/src/rsyscall_unix_stub.c:51-70 | if it does not exit, exactly the encoded strings were written, over any partial writes; it exits only when a write failed, was interrupted, or cut a size short |
| `ReadBuffer.WriteText` | c/src/rsyscall_unix_stub.c:61-68 | the inner loop writes exactly the string, and gives up only when a write failed or was interrupted |
| `RequestQueues.RequestQueue.Arrive` | python/dneio/concur.py:28-39 | thrown when closed, handed to a waiting receiver, else queued last |
| `RequestQueues.RequestQueue.TakeOne` | python/dneio/concur.py:51-55 | the oldest request, or the consumer waits |
| `RequestQueues.RequestQueue.TakeAll` | python/dneio/concur.py:57-66 | everything queued, in order |
| `RequestQueues.RequestQueue.DoClose` | python/dneio/concur.py:22-26 | everything queued is thrown once, in order, whatever the thrown continuations do to the queue meanwhile |
| `RequestQueues.RequestQueue.Do` | python/dneio/concur.py:16-66 | any nesting of operations keeps: a waiting receiver means an empty queue, and accepted requests are handed out, thrown or queued in order, once each; each operation's own effect comes first, and every request made by resumed code is accepted or refused too |
| `RequestQueues.HandedInOrder` | python/dneio/concur.py:28-66 | from that, requests reach the consumer in order of acceptance and none is counted twice |
| `Persistent.PersistentSyscallConnection.SetNewConn` | python/rsyscall/tasks/persistent.py:133-143 | everything parked is sent on the new connection first, in order; then, in order of parking, everything parked during the drain, failed syscalls that park again included; and only then is the connection set, with nobody parked |
| `Persistent.RoundsAreFifo` | python/rsyscall/tasks/persistent.py:138-142 | draining in rounds is first come, first served, for any tree of syscalls issued while draining |
| `Persistent.FifoSendsAll` | python/rsyscall/tasks/persistent.py:138-142 | each time a syscall parks, it is sent exactly once |
| `Persistent.PersistentSyscallConnection.Syscall` | python/rsyscall/tasks/persistent.py:162-170 | parks last while disconnected, sends at once while connected |
| `Persistent.PersistentSyscallConnection.SendFailed` | python/rsyscall/tasks/persistent.py:170-177 | only the connection that failed is given up, and the syscall tries again |
| `Allocator.FirstFitIsLowest` | python/rsyscall/memory/allocator.py:151-163 | the range found is the lowest aligned one that overlaps nothing and straddles no empty allocation; none is found only if none exists |
| `Allocator.AllocateAdds` | python/rsyscall/memory/allocator.py:151-163 | exactly one allocation of that size, aligned and in bounds, is added, or nothing changes |
| `Allocator.AllocateKeepsLaid` | python/rsyscall/memory/allocator.py:151-163 | allocate keeps the list sorted, disjoint, in bounds and with unique identities |
| `Allocator.AlignIsLeastMultiple` | python/rsyscall/memory/allocator.py:180-194 | align gives the least multiple not below its argument |
| `Allocator.EmptyRequestGoesFirst` | python/rsyscall/memory/allocator.py:151-163 | an empty request is placed at offset 0, in front of the list |
| `Allocator.FreeKeepsLaid` | python/rsyscall/memory/allocator.py:63-66 | free keeps the layout, and the allocation is gone |
| `Allocator.FreeRemoves` | python/rsyscall/memory/allocator.py:63-66 | exactly this allocation is taken off |
| `Allocator.SplitKeepsLaid` | python/rsyscall/memory/allocator.py:71-82 | an in-range split keeps the layout |
| `Allocator.SplitIsExact` | python/rsyscall/memory/allocator.py:71-82 | a split of any size, which the code does not check, keeps the list in order and in bounds if and only if the size is in range |
| `Allocator.SplitReplaces` | python/rsyscall/memory/allocator.py:71-82 | exactly this allocation is replaced by its two parts |
| `Allocator.MergeKeepsLaid` | python/rsyscall/memory/allocator.py:84-107 | a merge that is not refused keeps the layout |
| `Allocator.MergeIsExact` | python/rsyscall/memory/allocator.py:84-107 | merge is accepted if and only if the two are live, next to each other in the list, and the first ends where the second starts |
| `Allocator.MergeReplaces` | python/rsyscall/memory/allocator.py:84-107 | exactly the two are replaced by one that starts with the first and ends with the second |
| `Allocator.BytesAreConserved` | python/rsyscall/memory/allocator.py:58-163 | allocate takes bytes that nobody had and no others, free gives back exactly those of its allocation, and split and merge neither take nor give back a byte |
| `Allocator.NeverBetween` | python/rsyscall/memory/allocator.py:151-163 | no allocation, even an empty one, is ever placed between two adjacent halves |
| `Allocator.HalvesRun` | python/rsyscall/memory/allocator.py:71-107 | adjacent halves stay adjacent through any operations on other allocations |
| `Allocator.SplitThenMerge` | python/rsyscall/memory/allocator.py:71-107 | after a split and any such operations, merge is accepted and rebuilds exactly the original range |
| `Arenas.Arena.Allocate` | python/rsyscall/memory/allocator.py:151-163 | the loop returns a new allocation in the lowest available range, and OutOfSpaceError exactly when there is none; no other allocation changes |
| `Arenas.Arena.Free` | python/rsyscall/memory/allocator.py:63-66 | removes exactly this allocation; a second call does nothing |
| `Arenas.Arena.Split` | python/rsyscall/memory/allocator.py:71-82 | exactly the allocation is replaced by two adjacent halves of the given sizes |
| `Arenas.Arena.Merge` | python/rsyscall/memory/allocator.py:84-107 | accepted exactly for two neighbours of which the first ends where the second starts, else nothing changes; what is returned has the range of both, is in the list in their place, and no other allocation changes |
| `BulkMalloc.UnlimitedAllocator.BulkMalloc` | python/rsyscall/memory/allocator.py:214-249 | one live allocation per request, in order, of the exact size, aligned, none given twice and none live before, each at the lowest place of the first arena with room behind the one that served the request before; whatever the outcome, every allocation made before is still there; it succeeds whenever each alignment divides the earlier ones, except that an empty list fails exactly if there is an arena |
| `BulkMalloc.UnlimitedAllocator.Malloc` | python/rsyscall/memory/allocator.py:254-256 | one request: the lowest place of the first arena with room, or a fresh arena exactly if none has any; fails exactly for alignments above 4096 |
| `BulkMalloc.UnlimitedAllocator.ServeRest` | python/rsyscall/memory/allocator.py:241-248 | the fresh arena serves all remaining requests under the same condition |
| `BulkMalloc.FreshArenaNeverRunsOut` | python/rsyscall/memory/allocator.py:231-248 | under that condition a mapping of the computed size never runs out |
| `BulkMalloc.FreshArenaCanRunOut` | python/rsyscall/memory/allocator.py:231-248 | without it, four requests make the "internal error" fire |
| `BulkMalloc.GrantsAreDisjoint` | python/rsyscall/memory/allocator.py:214-249 | two allocations granted from one arena do not overlap |
| `BulkMalloc.GrantsMissLive` | python/rsyscall/memory/allocator.py:214-249 | a granted range overlaps nothing that was allocated before |
| `PointerRuns.PointersStayLinear` | python/rsyscall/handle/pointer.py:102-136 | at every point of every run, two valid pointers hold different live allocations with disjoint ranges |
| `PointerRuns.ValidPointersAreAlive` | python/rsyscall/handle/pointer.py:154-171 | at every point of every run, a valid pointer holds a live allocation, in bounds |
| `PointerRuns.NothingIsFreedTwice` | python/rsyscall/handle/pointer.py:201-211 | at every point of every run, no allocation was freed twice, and no freed one is alive |
| `PointerRuns.StepKeeps` | python/rsyscall/handle/pointer.py:201-302 | malloc, split, merge (refused ones too), the conversions and free keep the invariant |
| `PointerRuns.MallocGives` | python/rsyscall/memory/ram.py:146-159 | malloc's pointer holds a new allocation of that size, at the lowest aligned available range, and it fails exactly if there is none; no other pointer or allocation changes |
| `PointerRuns.SplitGives` | python/rsyscall/handle/pointer.py:102-118 | two new pointers hold the two parts of the range, the old one is invalid, and no other pointer or allocation changes |
| `PointerRuns.MergeGives` | python/rsyscall/handle/pointer.py:120-136 | one new pointer holds exactly what both held if and only if the allocations are neighbours; else only the two pointers change, and are invalid |
| `PointerRuns.FreeGivesBack` | python/rsyscall/handle/pointer.py:201-211 | the pointer is invalid, exactly its allocation is off the arena's list, and no other pointer or allocation changes |
| `PointerRuns.ReholdKeeps` | python/rsyscall/handle/pointer.py:391-396 | linear_read's end keeps it if and only if its pointer is still valid, or the allocation is alive and held by nobody |
| `PointerRuns.OverlappingLinearReads` | python/rsyscall/handle/pointer.py:384-396 | two overlapping linear_reads of a pointer always break it |
| `PointerRuns.SplitThenMergePointers` | python/rsyscall/handle/pointer.py:102-136 | after a split and any use of other pointers, merging whoever holds the halves gives a pointer to exactly the original range |
| `PointerRuns.FreeKeeps` | python/rsyscall/handle/pointer.py:201-211 | a valid pointer's allocation had never been freed, and freeing it keeps the invariant |
| `PointerRuns.MergeKeeps` | python/rsyscall/handle/pointer.py:120-136 | merge keeps the invariant even when the allocations refuse after both pointers were invalidated |
| `PointerObjects.PointerTable.Allocate` | python/rsyscall/memory/ram.py:146-159 | a new pointer to a new allocation of that size, at the lowest aligned available range, or OutOfSpaceError, exactly if there is none, and no change |
| `PointerObjects.PointerTable.Split` | python/rsyscall/handle/pointer.py:102-118 | consumes a valid pointer and returns two that hold exactly its parts; an invalid one raises and nothing changes |
| `PointerObjects.PointerTable.Merge` | python/rsyscall/handle/pointer.py:120-136 | returns a pointer to exactly what both held, if and only if they are neighbours; raises without a change for an invalid pointer; a refused merge leaves both invalid and the arenas as they were |
| `PointerObjects.PointerTable.ConvertTo` | python/rsyscall/handle/pointer.py:272-302 | consumes a valid pointer and hands its allocation to one new pointer, changing nothing else |
| `PointerObjects.PointerTable.Free` | python/rsyscall/handle/pointer.py:201-211 | the pointer is invalid and exactly its allocation is off the list; an invalid pointer is ignored |
| `PointerObjects.PointerTable.FinishLinearRead` | python/rsyscall/handle/pointer.py:391-396 | keeps the invariant exactly when the pointer or its allocation was not given away during the read |
| `Stacks.RightPartAligned` | python/rsyscall/handle/pointer.py:222-229 | the right part is aligned, at any address, if and only if buffer size minus twice the value size is a multiple of the alignment |
| `Stacks.WriteToEndPair` | python/rsyscall/handle/pointer.py:222-242 | two adjacent valid pointers that together are the original range, the second written and at the split point |
| `Stacks.PreparedStackIsAccepted` | python/rsyscall/handle/process.py:249-257 | the pair passes both checks of clone if and only if the sizes fit 16-byte alignment |
| `Stacks.TrampolineStackFits` | python/rsyscall/tasks/clone.py:59-64 | a 4096-byte buffer and a 64-byte trampoline pass at every address |
| `Stacks.CloneRebuildsStack` | python/rsyscall/handle/process.py:266-269 | clone's merge rebuilds the original buffer whatever happened to other pointers meanwhile |
| `Batches.BatchMeansDirect` | python/rsyscall/memory/ram.py:238-291 | whatever the order of the deferred writes, memory and result are those of direct calls with the allocations at the same addresses |
| `Batches.PointersHoldTheirData` | python/rsyscall/memory/ram.py:105-132 | afterwards every pointer that ptr returned points to the data it was given, which may contain earlier addresses |
| `Batches.FinishesIffAgrees` | python/rsyscall/memory/ram.py:209-219 | the second run finishes if and only if the callable returns with every allocation, so far, of the size granted |
| `Batches.SecondFinishes` | python/rsyscall/memory/ram.py:221-236 | it then has collected exactly the callable's writes, in order |
| `Batches.ObliviousNeverRaises` | python/rsyscall/memory/ram.py:256-261 | a callable whose allocations do not depend on addresses never hits the non-determinism exception |
| `Batches.AnyOrder` | python/rsyscall/memory/ram.py:289-290 | writes that share no byte can run in any order |
| `Batches.WritesNowhereElse` | python/rsyscall/memory/ram.py:289-290 | a batch writes no byte outside its own allocations |
| `BatchRuns.Batcher.PerformBatch` | python/rsyscall/memory/ram.py:238-291 | two runs, one bulk allocation and the writes leave memory as direct calls would, or raise and leave it unchanged; every pointer is a live allocation inside its mapping, overlapping none made before, and the bytes of those are as they were; an address-oblivious callable with an allocation never raises |
| `BatchRuns.Batcher.Bulk` | python/rsyscall/memory/ram.py:284-285 | unaligned bulk requests never fail: each address range is a live allocation of the exact size, at its mapping's base plus its offset, inside the mapping, and disjoint from the others and from all allocations made before, which are all still there |
| `BatchRuns.FirstRun` | python/rsyscall/memory/ram.py:188-198 | the requests are the sizes the callable asks for on null pointers, in order |
| `BatchRuns.SecondRun` | python/rsyscall/memory/ram.py:209-236 | the loop over prefilled allocations is the second run's specification, errors included |
| `BatchRuns.WriteAll` | python/rsyscall/memory/ram.py:289-290 | every stored write is performed once, in some order |
| `BatchRuns.PlacedApart` | python/rsyscall/memory/allocator.py:214-249 | bulk allocations in mappings that do not overlap are disjoint in memory |
| `BatchRuns.PlacedIsLive` | python/rsyscall/memory/allocator.py:214-249 | each range is the mapping's base plus the range of a live allocation, and inside the mapping |
| `BatchRuns.PlacedMissesLive` | python/rsyscall/memory/allocator.py:214-249 | it overlaps no allocation, in any mapping, made before |

## Left out

- exec, exit, dup2 and do_cloexec_except: they close or replace descriptor numbers behind the tracked tables.
- FdRuns.HandlesStaySafe: holds for runs whose closes start guarded; the code itself does not check that guard, and `FdExact.GuardIsExact` says that it cannot be done without. Clone is one step that runs at once, inherit_fd is only used on numbers the child has not closed since the clone (the code does not check), unshare_files is not called twice at once on a task, and putting back a close whose result was lost is a step of its own, outside these runs.
- FdRace.LostCloseBreaksHandles: bad if the number is closed and somebody works in the table, harmless if it is open and leaked; the cases in between (being opened or closed again at that moment) are not settled.
- Weak-reference timing: a handle object may vanish at any time, except while its own close is awaited.
- EpollStatus.WakeupsAreNeverLost: runs in which a call that fails otherwise than with EAGAIN passes the test; the code does not test. Setting flags by connect is not modelled.
- Closing a registration: coroutines that an earlier event moved into the loop's own lists are not thrown RemovedFromEpollError by the code, only those still queued; the model stops at the removal of the number.
- The activity descriptor of the root epoller: another registration, whose number is never removed.
- Pids.PidIsSafe: guarded runs; the code checks neither part of the guard. WNOWAIT is not used.
- Errors that end an EpollWaiter, AsyncSignalfd or UnlimitedAllocator loop, and queue closing on them.
- ReadBuffer.AsyncReadBuffer.ReadUntilDelimiter: non-empty delimiters. At EOF it raises, where its description says that it returns None. A string cut off by EOF ends in an exception in the code as well, though not in EOFError.
- ReadBuffer.WriteNullTerminatedArray: strings shorter than 2^64 bytes; the return value of write is not narrowed to int.
- Server.RsyscallServer: runs on a whole, finite input, with finitely many interrupted reads and writes and empty writes; what it does on input that is still being written is the state machine's part.
- Server.ResponseLoop.ReceiveOne: on the whole stream of responses, for the same reason.
- Encodings of requests and responses as C structs: requests are 56 opaque bytes, responses eight.
- Allocator.AlignIsLeastMultiple: the description of align says "greater than"; the code returns its argument when that is a multiple already, and so does the model.
- BulkMalloc.UnlimitedAllocator.BulkMalloc: positive alignments, which the code leaves to its callers.
- Allocator.SplitKeepsLaid: in-range sizes, and so all results about runs of splits; `Allocator.SplitIsExact` says what other sizes do. Splits inside batched callables, whose null halves come in swapped order, are not modelled.
- BatchRuns.Batcher.PerformBatch: callables that finish on null pointers, and use malloc and ptr only; each deferred write is one step.
- Pointer.borrow, address-space checks, serializers, and values read from memory.
- Persistent.PersistentSyscallConnection.SetNewConn: finitely many syscalls are issued during a drain; the accept and descriptor-passing step of a reconnect is not modelled.
- Bootstrap, ssh, nix, stubs, environment lookup, the REPL, trio integration and cancellation: plumbing and user interface.

# RynorOS kernel protocols in Dafny

RynorOS keeps its kernel state in small static tables and changes them with interrupts off, so every
kernel operation is one atomic step. This project models the parts where that state carries a protocol,
and proves what the protocols promise over every run of steps:

- the **process table, the pipe and the workers** as one machine (`Kernel`, `KernelInv`, `Reap`,
  `ProcTable`, `Machine`, `MachineInv`, `Yielded`, `Runs`, `Theorems`, `Streams`, `Effects`, `Causes`, with the
  ring itself in `Pipe`);
- the **thread scheduler** (`Scheduler`), and **both together** (`WorkerThreads`, `Fairness`, `Progress`,
  `Endings`, `Seats`, `Halting`);
- the **keyboard stream** with its loss epochs and its scan-code decoder (`Keyboard`);
- **user-memory copies** (`UserCopy`), the **RNYX executable envelope** (`Rnyx`) and the **argument block**
  of a new process (`Argv`);
- **PCI discovery** (`PciScan`) and **BAR sizing** (`PciBar`, `PciDevice`, `PciProbe`), after section 6.2.5.1
  of the PCI Local Bus Specification 3.0;
- the **MADT parser** (`Madt`, `MadtEntries`), after section 5.2.12 of the ACPI Specification, and the **owner of
  a global system interrupt** (`Gsi`).

Table sizes (process slots, threads, pipe and keyboard capacity, BAR slots) are parameters, so the results
hold for every size; the sizes in the headers are one instance.

## How the model is built

Code that updates state in place is a class whose methods follow the code step by step: `Pipe.RingPipe`
(the ring bytes, indices and counters of pipe.c), `ProcTable.ProcTable` (the slot, context, worker and heap
tables of proc.c), `Scheduler.ThreadTable`, `Keyboard.KeyboardDriver`, `UserCopy.UserSpace`,
`PciScan.Pci`, `PciProbe.Function`, `Madt.Parser`. Each method is proved against a function on values (for
example `Pipe.Write`, `Kernel.SpawnPipe`, `Reap.Reaped`), and the promises are proved about those
functions: what each call answers and changes, slot by slot and error by error, in `Effects` and `Streams`;
what any step at all can do to a process in `Causes`; what holds over runs in the modules above.

`Machine.Do` gathers the operations of the process machine into one step function: spawn an image, spawn a
pipeline, enter, trap, gate exit or fault, a worker's turn, terminate, wait, pipe write, pipe read, and the
pieces of a wait that had to yield. Where the code runs an audit (proc_check, pipe_check, the closing check of
cleanup_owned, a refused second close, a ring that cannot be freed), the step function evaluates it and answers
`Panic` if it fails. A run (`Runs.IsRun`) is any sequence of enabled steps from boot up to one that halts;
`Kernel.Inv` is its invariant. What the kernel cannot know (whether memory, a file or a thread stack can be
had, whether a copy to user memory succeeds) is a parameter of the step, so every theorem covers every outcome.

`Fairness` runs this machine under the scheduler: only the running thread acts, every worker is a thread, and a
system call, a trap or an exit ends with a selection. What a call does to the threads is a sequence of the
scheduler's own events (`WorkerThreads.AdjustIsEvents`).

Findings stated as theorems:

- **A reap can meet a worker that has not exited.** `proc_wait` checks the worker of the process it was asked
  about, but not the workers of the terminal children it reaps along with it (`Theorems.WaitYieldsExactly`).
  The kernel's own wait then yields half way. It still ends where an uninterrupted reap would
  (`Yielded.ResumeReachesGoal`), after finitely many steps and few yields (`Yielded.ResumeShortens`,
  `Progress.JoinLoopConverges`); but while it is off the processor the half-reaped table fails proc_check, so
  another process's spawn, granted kill request or consuming wait halts the kernel. The wait of a process
  yields on its gate's exit stack, and the scheduler's next check halts, whichever entry point makes it
  (`Fairness.ProcessWaitFailsCheck`, `Scheduler.GateYieldFailsCheck`). Both halts are reached by runs of process
  table and scheduler from boot, in which every process enters before it calls and every selection is that of
  the scheduler: `Halting.ProcessWaitHalts` with three slots or more, `Halting.KernelWaitLetsSpawnHalt` with
  four or more.
- **A pipeline has one point of no return.** If the first worker was created and the second cannot be, the
  kernel halts. `MachineInv.OnlyHalts` gives all halts of the machine as an equivalence: this one and those of
  the yielding reap. No other audit of the process table or the pipe can fail.
- **A doomed process is soon gone.** Once killed, exited or faulted, a process is over within twice as many
  selections as there are threads, and two more, and no later wait says that it runs
  (`Progress.DoomedIsSoonOver`). So a kill request that was answered Done takes effect
  (`Endings.KilledIsSoonOver`), and no process outlives its owner for long (`Endings.OrphanIsSoonOver`).
- **Every end has its report and every report its end.** The exit code, or the fault's vector and error, that a
  wait reports is the one the process ended with, cut to 32 bits, and aborted is reported exactly of a process
  that met its kill request (`Causes.WaitReportsEnd`, `Causes.AnswerHasCause`).
- **A failed pipeline leaves its selectors behind** on the two FREE slots; everything else is as before
  (`KernelInv.SpawnPipeErrorChangesNothing`).
- **A handle carries 32 bits of a 64-bit generation.** A handle never names a wrong incarnation
  (`Theorems.HandleDenotesItsIncarnation`), but an incarnation beyond 2^32 has no handle that decodes.
  Runs stop short of a generation that wraps around 2^64; `Theorems.WrapRevivesFirstHandle` shows why.
- **Copying out and reading back is exact if and only if no two bytes of the range share a physical byte**
  (`UserCopy.ReadBackExactly`); distinct frames suffice.
- **Which BARs of a correct device are dropped**: I/O BARs that hardwire the upper sixteen address bits or lie
  outside the I/O space (`PciDevice.IoSeenExactly`), 32-bit BARs that read zero because they have no flags and
  no address yet, and those of 4 GiB (`PciDevice.Mem32SeenExactly`), 64-bit BARs whose upper half lies outside
  the layout or that end at the very top of the address space (`PciDevice.Mem64SeenExactly`).
- **A BAR at the top of the address space can make another one up.** Once such a 64-bit BAR is dropped, its upper
  half is decoded as a slot of its own, and a BAR that the device does not have is kept if and only if the size
  is at least 8 GiB and less than 2^64 bytes, at 16 GiB only if the next slot reads all ones when sized
  (`PciDevice.TopBarIsMisread`). The kept BARs of a device are its own if and only if no BAR of that kind comes
  before the record is full (`PciDevice.ScanFindsDevice`, `PciProbe.Function.ScanBars`).

## Model

| member | source | states |
|---|---|---|
| `Pipe.RingPipe.constructor` | kernel/core/pipe.c:25-35 | the static pipe before any attach: no ring, both ends closed, all counters zero, and the ring invariant holds |
| `Pipe.RingPipe.PipeCheck` | kernel/core/pipe.c:37-70 | the run-time audit, in any state whatever, passes exactly the sound registers: indices inside the ring, a ring exactly while live, two distinct owners, every open end backed by a live slot with the recorded generation and role; on a valid pipe it decides the check predicate |
| `Pipe.RingPipe.PipeAttach` | kernel/core/pipe.c:92-117 | attaching starts an empty live pipe on the given slots and generations, is refused exactly when a pipe is live or the two ends are not two valid incarnations, and halts exactly when its audit fails |
| `Pipe.RingPipe.PipeWrite` | kernel/core/pipe.c:119-152 | the ring code appends to the abstract queue exactly the prefix of the source that fits, reports a stall, a closed reader or a foreign caller as the abstract write does, and halts exactly when its audit fails after bytes moved |
| `Pipe.RingPipe.CopyIn` | kernel/core/pipe.c:140-147 | the byte loop leaves the ring holding the old queue followed by the new bytes, with write index and lap counter those of the new total |
| `Pipe.RingPipe.PipeReadStage` | kernel/core/pipe.c:154-185 | staging is the abstract stage: the oldest queued bytes, as many as `Pipe.StageTakes` says, end of stream or try-again, and no index moves |
| `Pipe.RingPipe.CopyOut` | kernel/core/pipe.c:175-184 | the copy loop reads exactly the first bytes of the queue out of the ring, across the wrap |
| `Pipe.RingPipe.PipeReadCommit` | kernel/core/pipe.c:187-203 | committing moves exactly that many oldest bytes from the queue to the delivered stream, and halts exactly when its audit fails |
| `Pipe.RingPipe.Advance` | kernel/core/pipe.c:193-198 | the index loop leaves read index and lap counter those of the new read total |
| `Pipe.RingPipe.PipeNoteTerminal` | kernel/core/pipe.c:205-240 | a terminal slot closes its own end only, a second close of an end is refused, the ring goes back exactly when the second end closes, and it halts exactly when its audit fails |
| `Pipe.StepKeepsOk` | kernel/core/pipe.c:92-240 | every pipe operation keeps: accepted = delivered + queued, the queue within capacity, live exactly while an end is open, one release per attach |
| `Pipe.RunOk` | kernel/core/pipe.c:92-240 | over every run of pipe operations the invariant holds, streams only grow within one attachment and a closed end never reopens |
| `Pipe.FifoOverRuns` | kernel/core/pipe.c:119-203 | in every state of every run the delivered bytes are a prefix of the accepted bytes and the rest is exactly the queue |
| `Pipe.PosLapsAreDivMod` | kernel/core/pipe.c:141-147 | the byte-by-byte index and lap counters are remainder and quotient of the totals by the capacity |
| `Pipe.StageThenCommit` | kernel/core/pipe.c:154-203 | staging again without a commit gives the same bytes; committing delivers exactly those, next in order |
| `Pipe.StageTakes` | kernel/core/pipe.c:154-185 | a stage by the open reader hands over the bytes that come next in the accepted stream: as many as were asked for, or all undelivered ones if they are fewer; with none it says end of stream exactly when the writer has closed, else try again, which is counted as a stall; nothing else moves |
| `Pipe.WriteTakes` | kernel/core/pipe.c:119-152 | a write of the open writer to an open reader is accepted as far as the capacity left by the undelivered bytes goes, the accepted stream grows by exactly that prefix, and a stall is counted exactly when nothing fits |
| `Pipe.EndOfStreamExactly` | kernel/core/pipe.c:164-174 | end of stream is reported if and only if the caller is the open reader, the writer has closed and everything accepted was delivered |
| `Pipe.EndOfStreamStays` | kernel/core/pipe.c:164-174 | once reported, end of stream is reported for as long as that reader stays open |
| `Pipe.BrokenReaderStays` | kernel/core/pipe.c:128-139 | from the reader's close on, every write of the open writer is refused and changes nothing |
| `Pipe.NeverBothStalled` | kernel/core/pipe.c:128-174 | with both ends open, writer and reader are never both told to wait in the same state |
| `Kernel.ChecksPass` | kernel/core/proc.c:141-187 | in every state of the invariant the pipe audit passes, and the process audit passes if and only if no reap has yielded |
| `KernelInv.GateTerminalKeeps` | kernel/core/proc.c:279-302 | a gate exit or fault of a running process always succeeds and keeps the invariant |
| `KernelInv.WorkerTurnKeeps` | kernel/core/proc.c:323-382 | every turn of the worker loop succeeds and keeps the invariant; its own terminal record for an exit or fault never fires, because the gate recorded first |
| `KernelInv.EnterKeeps` | kernel/core/proc.c:323-336 | the worker's first entry never meets a slot or context it has to refuse, and keeps the invariant |
| `KernelInv.TerminateKeeps` | kernel/core/proc.c:516-531 | a kill request, granted or refused, keeps the invariant; its audit fails if and only if it is granted while a reap has yielded |
| `KernelInv.WriteOutKeeps` | kernel/core/load.c:128-165 | a producer's write keeps the invariant and its audit never fails |
| `KernelInv.ReadInKeeps` | kernel/core/load.c:256-297 | a consumer's read, whether or not its copies to user memory succeed, keeps the invariant, and neither the commit nor its audit fails |
| `KernelInv.SpawnImageKeeps` | kernel/core/proc.c:389-459 | spawning an image keeps the invariant on success and on every error; of its two audits one fails if and only if it gets that far while a reap has yielded |
| `KernelInv.SpawnPipeErrorChangesNothing` | kernel/core/proc.c:721-951 | every error of spawn_pipe leaves contexts, workers, ids, heap and pipe equal to before, and every slot too, up to the selectors of FREE slots |
| `KernelInv.SpawnPipeSuccessAddsPipeline` | kernel/core/proc.c:801-951 | success turns exactly two FREE slots ACTIVE with two free contexts and two new workers, and adds one live empty pipe with both ends open on one new heap block; nothing else moves |
| `KernelInv.SpawnPipeKeeps` | kernel/core/proc.c:801-951 | spawn_pipe keeps the invariant; it halts if and only if everything up to the first audit succeeds and either a reap has yielded or the first worker is created and the second cannot be |
| `Effects.DecodesExactly` | kernel/core/proc.c:191-202 | a 64-bit handle decodes to a slot if and only if the slot is live and the handle is the slot number plus 2^32 times its whole generation |
| `Effects.SpawnImageAddsProcess` | kernel/core/proc.c:389-459 | a successful spawn turns the first FREE slot into an ACTIVE process of the given owner and input, with a free context, the next worker id and clean codes, and changes nothing else; the handle answered names and decodes to that slot, if its generation fits 32 bits |
| `Effects.SpawnImageRefuses` | kernel/core/proc.c:389-459 | every error of a spawn changes nothing, and each error is answered if and only if its cause is there and no earlier one: bad arguments, malformed image, no FREE slot, no memory, context, argument block or worker |
| `Effects.SpawnPipeAnswers` | kernel/core/proc.c:801-951 | of a successful pipeline the first handle names and decodes to the ACTIVE slot that holds the write end, with its output to the pipe and the input asked for, the second to the slot that holds the read end; both belong to the caller, and the ends carry their generations |
| `Effects.SpawnPipeRefuses` | kernel/core/proc.c:801-951 | which pipeline is refused, by its causes in order: bad arguments, fewer than two FREE slots, no room for two workers, a live pipe, then the first of ring, first image, first context and arguments, second image, second context and arguments that cannot be had, with the error of each; else it succeeds, or halts exactly when the second worker cannot be created |
| `Effects.FetchErrorByCause` | kernel/core/proc.c:740-778 | not found, malformed, no memory, I/O error and success of the image loader, each if and only if its cause is there |
| `Effects.TurnExactly` | kernel/core/proc.c:323-382 | a turn of the worker takes a process without a kill request back to user mode with nothing else changed, aborts one that has it, and after an exit or a fault only leaves the context and exits; no other slot, context or worker moves |
| `Effects.GateExactly` | kernel/core/proc.c:279-302 | an exit records its code, a fault its vector and error, in the process and in its context, and parks the worker; no other slot, context or worker moves |
| `Effects.EnterAndTrapExactly` | kernel/core/proc.c:323-336 | the first entry binds the context and goes to user mode, a trap parks the worker to be resumed; nothing else moves |
| `Effects.TerminateExactly` | kernel/core/proc.c:516-531 | a granted kill request sets the flag of the process the handle names and changes nothing else; each refusal changes nothing and names its cause: no such process, the caller itself, another owner, a process that is over |
| `Effects.WaitAnswersExactly` | kernel/core/proc.c:461-514 | which wait is refused, which is told that the process runs, both without any change, and which takes the process; only the last reports an end, yields or halts |
| `Effects.WaitReaps` | kernel/core/proc.c:229-274 | a wait that reports an end frees the slot it names and those of its terminal descendants, and no other, with the generation one higher; every live child of a freed slot belongs to the kernel and has a kill request; every other slot is as before, and so are heap, pipe and the contexts and workers that were not released |
| `Reap.ReleaseTwice` | kernel/core/proc.c:229-274 | releasing two disjoint groups of slots one after the other is releasing both at once |
| `Reap.TreeIsYounger` | kernel/core/proc.c:229-274 | everything below a slot in the terminal tree has a later worker id, so the recursion is well founded |
| `Reap.PartialReap` | kernel/core/proc.c:247-274 | reaping child i in the middle of the scan gives the table of the scan after i |
| `Reap.PartialEnd` | kernel/core/proc.c:259-274 | after the scan no live slot is owned by the reaped one: the closing check never fails |
| `Reap.FreeLast` | kernel/core/proc.c:229-244 | freeing the slot itself after its children completes the release of its whole terminal tree |
| `Reap.SettledAll` | kernel/core/proc.c:207-274 | the scan meets no unexited worker exactly when every terminal descendant's worker has exited |
| `ProcTable.ProcTable.constructor` | kernel/core/proc.c:45-54 | the table at boot: all slots FREE at generation one, owned by the kernel |
| `ProcTable.ProcTable.JoinWorker` | kernel/core/proc.c:207-222 | a join takes the worker out exactly when it has exited; otherwise nothing changes |
| `ProcTable.ProcTable.FreeJoined` | kernel/core/proc.c:229-244 | frees exactly the slot and its terminal descendants, sends their live children to the kernel with a kill request, bumps the generations and changes nothing else; succeeds exactly when no descendant's worker is still there |
| `ProcTable.ProcTable.ReapChild` | kernel/core/proc.c:247-252 | the same for a child whose worker is joined first |
| `ProcTable.ProcTable.ScanAll` | kernel/core/proc.c:259-270 | the loop over all slots leaves the table of the completed scan |
| `ProcTable.ProcTable.CleanupOwned` | kernel/core/proc.c:259-274 | the mutual recursion terminates, does the whole cleanup below one owner, and its closing check succeeds |
| `ProcTable.ProcTable.NoneOwned` | kernel/core/proc.c:270-274 | the closing loop answers whether no live slot is owned by the given one |
| `ProcTable.ProcTable.NoteGateTerminal` | kernel/core/proc.c:279-302 | the gate's record is the abstract one, including the close of the pipe end |
| `ProcTable.ProcTable.WorkerIteration` | kernel/core/proc.c:323-382 | one turn of the worker loop is the abstract turn |
| `ProcTable.ProcTable.CheckTable` | kernel/core/proc.c:141-187 | the audit loop accepts exactly the tables the check predicate describes |
| `ProcTable.ProcTable.DecodeHandle` | kernel/core/proc.c:191-202 | a handle decodes to a slot exactly when slot and generation match a live slot |
| `ProcTable.ProcTable.ProcSpawnImage` | kernel/core/proc.c:389-459 | the code with its rollbacks has exactly the effect of the abstract spawn, error by error |
| `ProcTable.ProcTable.FetchImage` | kernel/core/proc.c:740-778 | on every failure the staging block is back in the heap, on success it is held |
| `ProcTable.ProcTable.PrepareSide` | kernel/core/proc.c:782-799 | one side is built on the first free context, or the context is given back |
| `ProcTable.ProcTable.RollbackSlot` | kernel/core/proc.c:721-735 | a rolled back slot is FREE again with its context given back, its selectors left as they were |
| `ProcTable.ProcTable.ProcSpawnPipe` | kernel/core/proc.c:801-951 | the code, with its reservation, two builds, two workers, attach and rollbacks, has exactly the outcome of the abstract transaction, and unless it halts exactly its effect |
| `ProcTable.ProcTable.ProcTerminate` | kernel/core/proc.c:516-531 | the code, with its audit, has exactly the outcome and effect of the abstract terminate |
| `ProcTable.ProcTable.ProcWait` | kernel/core/proc.c:461-514 | the code's wait, with its audit, has exactly the outcome of the abstract wait and, unless it halts or has to yield, exactly its effect |
| `KernelInv.BuiltChecks` | kernel/core/proc.c:899-906 | in the middle of spawn_pipe, with both slots LOADING, the process audit passes if and only if no reap has yielded |
| `MachineInv.WaitKeeps` | kernel/core/proc.c:461-514 | a wait keeps the invariant unless it halts, also when it reaps a tree that owned a pipe end or yields half way; it halts if and only if it consumes or names a slot of a reap that has yielded, or a process would reap a descendant whose worker has not exited |
| `MachineInv.OnlyHalts` | kernel/core/proc.c:141-951 | a step halts if and only if a condition on the state before it holds, given for each kind of step: a spawn_pipe that strands its first worker, or one of the cases of the yielding reap; every other step passes all its audits and keeps the invariant |
| `MachineInv.ResumeKeeps` | kernel/core/proc.c:207-274 | no piece of the kernel's yielded reap halts: every join succeeds or yields, and yields exactly at a terminal child whose worker has not exited; closing check, context release and final audit succeed |
| `Yielded.ResumeReachesGoal` | kernel/core/proc.c:207-274 | whatever the processes did meanwhile, each piece of the yielded reap leaves its closed-form goal where it is, and the last one reaches it and reports the status taken at the start |
| `Yielded.ResumeShortens` | kernel/core/proc.c:207-274 | between two yields a well-founded measure falls with each piece, so the reap ends |
| `Yielded.HalfReapedFailsCheck` | kernel/core/proc.c:174-207 | at every point of its first scan the table of a reap that yields fails the process audit |
| `Runs.BootInv` | kernel/core/proc.c:45-54 | the boot state satisfies the invariant, for every table size |
| `Runs.StepOnward` | kernel/core/proc.c:229-531 | no step lowers a slot's generation; within a generation a slot keeps its worker, context and roles, stays terminal with its codes once it is, and keeps a kill request; within one attachment pipe streams only grow and closed ends stay closed |
| `Runs.RunLater` | kernel/core/proc.c:229-951 | every state of every run satisfies the invariant, and any two are so ordered |
| `Theorems.OpenEndsAreOwned` | kernel/core/pipe.c:37-70 | in every state of every run the pipe audit passes, the process audit passes unless a reap has yielded, and an open pipe end sits on an ACTIVE slot of the recorded generation with the matching role |
| `Theorems.RingFreedOnce` | kernel/core/pipe.c:205-240 | in every state of every run the ring is a heap block exactly while a pipe is live, and attaches and releases balance |
| `Theorems.TerminalClosesOwnEndOnly` | kernel/core/pipe.c:205-240 | a gate exit, a fault or a turn of the worker closes an end if and only if it makes a running process terminal whose very incarnation holds that end; a process without pipe ends leaves the pipe untouched |
| `Theorems.HandleRoundTrip` | kernel/core/proc.c:457 | slot and low 32 generation bits can be read back from a handle |
| `Theorems.HandleDenotesItsIncarnation` | kernel/core/proc.c:191-202 | over every run a handle decodes if and only if its slot still carries that generation and it fits 32 bits, and then names the same worker |
| `Theorems.ConsumedHandleIsDead` | kernel/core/proc.c:461-531 | after a wait has reported a terminal status, every later wait and terminate on the handle is refused and changes nothing, also after the slot is reused |
| `Theorems.AtMostOneConsume` | kernel/core/proc.c:461-514 | no run has two waits that report a terminal status for the same handle |
| `Theorems.WrapRevivesFirstHandle` | kernel/core/proc.c:229-244 | at the last generation a freed and reused slot answers to its very first handle |
| `Theorems.FirstRecordWins` | kernel/core/proc.c:279-302 | over every run a terminal slot keeps its state and codes until it is recycled |
| `Theorems.WaitReportsFirstRecord` | kernel/core/proc.c:461-514 | a terminal wait reports the record the slot carried when it first became terminal; which record that is, `Causes.WaitReportsEnd` says |
| `Causes.StepFate` | kernel/core/proc.c:229-531 | whatever step is taken, a live slot is unchanged, or gets a granted kill request, or loses its owner to the kernel with a kill request, or has its worker joined or is freed once it is over, or ends by its own exit, fault or killed turn with the codes of that step |
| `Causes.OwnerKillAndGeneration` | kernel/core/proc.c:229-274 | a process changes owner only to the kernel, while it runs and with a kill request; its generation moves only by one, when its slot is freed after its end; a kill request comes from a granted call or from the loss of the owner |
| `Causes.WaitReportsEnd` | kernel/core/proc.c:461-514 | over every run, what a wait reports of a process is how it ended, whatever lies between: exit code a % 2^32 after a gate exit with a, vector a % 2^32 and error b % 2^32 after a fault with a and b, aborted after the turn of its worker that found the kill request |
| `Causes.AnswerHasCause` | kernel/core/proc.c:279-302 | over every run, a wait that reports an end of a process that ran before comes after the very exit, fault or killed turn it reports |
| `Causes.HeapIsConserved` | kernel/core/proc.c:721-951 | over every run the heap is what it was at the start, and the ring while a pipe is live: no staging block or ring is leaked and none is freed that another holds |
| `Theorems.KillIsFinal` | kernel/core/proc.c:337-377 | over every run, any turn of the worker after a kill request ends the process and the worker, and never resumes the context |
| `Theorems.OwnerForest` | kernel/core/proc.c:141-150 | in every state of every run the owners of a live slot lead through live, pairwise different slots to the kernel |
| `Theorems.WaitYieldsExactly` | kernel/core/proc.c:490-513 | the kernel's wait yields half way if and only if it would reap a terminal descendant whose worker has not exited |
| `Streams.StreamsAddUp` | kernel/core/load.c:128-297 | over every stretch of a run with one attachment, the delivered and accepted streams grow by exactly what the reads and writes reported |
| `Streams.ReadAnswers` | kernel/core/load.c:256-297 | a read of a running consumer whose copies succeed returns the next bytes of the accepted stream, the smaller of what it asked for and what is undelivered; with none it is told to try again while the producer is open, and end of stream after that |
| `Streams.WriteAnswers` | kernel/core/load.c:128-165 | a write of a running producer that can be copied in is accepted as far as the undelivered bytes leave room, and the stream grows by that prefix; it is refused as broken exactly when the reader has closed |
| `Streams.TransfersBounded` | kernel/core/load.c:128-297 | no call returns more bytes than it asked for or is told that more were accepted than it gave |
| `Streams.PipelineIsLossless` | kernel/core/load.c:128-297 | from its spawn on, what the consumer's reads returned is a prefix of what the producer's writes were told was accepted, and the rest is in the ring while it lives |
| `Streams.EndOfStreamOverRuns` | kernel/core/load.c:279-294 | a read told end of stream comes after the producer terminated and every accepted byte was read; no later read of that consumer finds a byte, and each whose copies succeed is told the same |
| `Streams.BrokenReaderOverRuns` | kernel/core/load.c:146-156 | once the consumer has terminated, every later write of the running producer that is not empty and can be copied in is refused as broken |
| `Streams.EndpointsAlwaysAuthorised` | kernel/core/load.c:146-294 | a call of a running pipe end is invalid if and only if it is too long for the pipe or a copy it has to make fails |
| `Scheduler.ThreadTable.constructor` | kernel/core/thread.c:136-144 | the table after initialisation: the bootstrap thread runs, all else is free |
| `Scheduler.ThreadTable.SchedulerCheck` | kernel/core/thread.c:78-101 | the audit accepts exactly the invariant: one RUNNING thread and it is current, live ids unique and already issued, a valid saved frame for every READY thread, the bootstrap slot neither free nor exited |
| `Scheduler.ThreadTable.PickNext` | kernel/core/thread.c:110-118 | the loop returns the cyclically next READY thread, or none |
| `Scheduler.ThreadTable.SelectThread` | kernel/core/thread.c:119-125 | the switch changes exactly the two threads concerned |
| `Scheduler.ThreadTable.Yield` | kernel/core/thread.c:249-264 | a yield, tick or gate switch is the abstract switch and keeps the invariant |
| `Scheduler.ThreadTable.ThreadExit` | kernel/core/thread.c:265-275 | an exit always finds a successor and keeps the invariant |
| `Scheduler.ThreadTable.ThreadCreate` | kernel/core/thread.c:149-178 | creating a thread takes the first free slot and a fresh id, or changes nothing |
| `Scheduler.ThreadTable.ThreadJoin` | kernel/core/thread.c:179-189 | joining frees exactly an exited thread |
| `Scheduler.PickIsNearest` | kernel/core/thread.c:110-118 | if a READY thread exists at cyclic distance d, the pick is at distance at most d |
| `Scheduler.ExitFindsSuccessor` | kernel/core/thread.c:265-275 | when a worker exits the bootstrap thread is READY, so there is a successor |
| `Scheduler.RunOk` | kernel/core/thread.c:149-380 | over every run of create, join, yield, exit, tick and gate switch: exactly the current thread RUNNING and the bootstrap thread READY whenever a worker runs; the audit fails only after a yield on a gate's exit stack, which ends the run |
| `Scheduler.GateYieldFailsCheck` | kernel/core/thread.c:78-101 | a worker that yields inside a system call always leaves a table that every later entry point refuses |
| `Scheduler.IdsNeverReused` | kernel/core/thread.c:149-178 | over every run an id that is no longer in the table never comes back |
| `Scheduler.SelectionComesCloser` | kernel/core/thread.c:110-125 | each selection either picks a waiting READY thread or brings the current slot strictly closer to it |
| `Scheduler.BoundedWaiting` | kernel/core/thread.c:249-331 | over every run a READY thread at cyclic distance d is selected within d selections, whatever is created, exits or is joined meanwhile |
| `Scheduler.CreateByIds` | kernel/core/thread.c:149-178 | seen by ids, create adds exactly one new READY thread |
| `Scheduler.JoinByIds` | kernel/core/thread.c:179-197 | seen by ids, join succeeds exactly on an exited thread and removes only it |
| `Scheduler.ExitByIds` | kernel/core/thread.c:265-275 | seen by ids, exit marks exactly the current thread exited |
| `WorkerThreads.RoomForThread` | kernel/core/thread.c:149-178 | while fewer workers than threads are in use, thread creation finds a free thread |
| `WorkerThreads.CallStarts` | kernel/core/proc.c:207-951 | whatever call is made, the threads change by creations and joins alone, as many as the call admits or reaps |
| `WorkerThreads.SweepIsJoins` | kernel/core/thread.c:179-189 | exited threads can be joined in any order: no join is refused or halts, and together they take away exactly those threads |
| `WorkerThreads.AdjustIsEvents` | kernel/core/thread.c:149-189 | the threads after a call are those left by one creation for each process started, or by one join, in any order, for each process reaped; none of these events is refused or halts |
| `Fairness.BootLinked` | kernel/core/thread.c:136-144 | at boot process table and scheduler agree |
| `Fairness.MoveKeeps` | kernel/core/thread.c:78-380 | run together they stay in agreement, every worker a thread in the matching state, and halt if and only if the process table alone would: the scheduler's own checks always pass |
| `Fairness.ProcessWaitFailsCheck` | kernel/core/proc.c:207-222 | when a process waits for a child with a descendant whose worker has not exited, then whichever exited threads it has joined by the time it yields on its gate's exit stack, every entry point of the scheduler refuses the threads it leaves |
| `Progress.MoveFalls` | kernel/core/proc.c:323-382 | every act keeps the incarnation of a killed, exited or faulted process, and every selection takes one off the number it has left |
| `Progress.DoomedIsSoonOver` | kernel/core/proc.c:303-382 | over every run of both, a killed, exited or faulted process is over after at most twice as many selections as there are threads, and two more, and from then on no wait answers that it runs |
| `Endings.KilledIsSoonOver` | kernel/core/proc.c:516-531 | over every run of both, a process whose kill request was answered Done is over after at most twice as many selections as there are threads, and two more |
| `Endings.OrphanIsSoonOver` | kernel/core/proc.c:254-274 | over every run of both, a process that was alive when its owner was reaped belongs to the kernel with a kill request, and is over within the same number of selections |
| `Progress.JoinLoopConverges` | kernel/core/proc.c:207-222 | over every run of both, the join loop of a yielded reap sees at most one selection per thread, and one more, before the worker it waits for has exited, so its bound is never reached |
| `Halting.ProcessWaitHalts` | kernel/core/proc.c:207-222 | for every table of three slots or more, a run of process table and scheduler from boot to a state where the running process may wait for its exited child and the wait halts the kernel, and where the yield behind it fails the scheduler's next check |
| `Halting.KernelWaitLetsSpawnHalt` | kernel/core/proc.c:207-222 | for every table of four slots or more, a run of process table and scheduler from boot in which the kernel's wait yields, the worker it waits for leaves, and the spawn of the next process then halts the kernel |
| `Keyboard.KeyboardDriver.RingPut` | kernel/drivers/keyboard.c:25-35 | the ring code queues the byte with the current epoch, or when full drops it and opens a new epoch |
| `Keyboard.KeyboardDriver.DeliverByte` | kernel/drivers/keyboard.c:93-107 | status errors and the codes 0x00 and 0xFF are losses, auxiliary bytes are not input, all else arrives or is dropped when the ring is full; each is counted, and the driver halts exactly when a counter it needs is exhausted |
| `Keyboard.KeyboardDriver.Take` | kernel/drivers/keyboard.c:153-184 | a take is the abstract poll: a loss marker when the epoch moved, else the oldest byte, else nothing; a marker resets the decoder |
| `Keyboard.KeyboardDriver.StreamNext` | kernel/drivers/keyboard.c:119-133 | the same with the byte run through the decoder |
| `Keyboard.StreamOverRuns` | kernel/drivers/keyboard.c:25-184 | over every run, with adjacent losses merged, the consumer has seen a prefix of the arrival history, all of it when caught up, never more markers than losses, and none without a loss |
| `Keyboard.PollMakesProgress` | kernel/drivers/keyboard.c:119-133 | a poll returns nothing exactly when the consumer has caught up; any other poll shrinks the backlog |
| `Keyboard.OrderedBounds` | kernel/drivers/keyboard.c:25-43 | queued epochs never decrease and lie between the consumer's and the current epoch |
| `Keyboard.DecodeInvertsEncode` | kernel/drivers/keyboard.c:48-88 | any sequence of well-formed scan-code packets decodes to exactly the keys it encodes and leaves the decoder idle |
| `Keyboard.TypedIsHeard` | kernel/drivers/keyboard.c:48-88 | whatever is typed, with codes k for a key going down and k + 0x80 for it going up, E0 before those of the right Ctrl and of keys it does not know, and the six bytes of Pause, the decoder reports exactly the known keys, down and up, in order |
| `UserCopy.UserSpace.CheckReadable` | kernel/core/load.c:99-114 | the page-stepping check answers whether every byte of the range is user readable |
| `UserCopy.UserSpace.CopyFromUser` | kernel/core/load.c:99-126 | the chunked copy equals the bytewise copy through the page table, or no byte moves; it succeeds exactly when every byte is readable |
| `UserCopy.UserSpace.CopyDestOk` | kernel/core/load.c:172-190 | accepts exactly the empty range and the writable ranges that end below 2^64 |
| `UserCopy.UserSpace.CopyToUser` | kernel/core/load.c:192-223 | the chunked copy equals the bytewise writes through the page table, or memory is unchanged |
| `UserCopy.ReadBackExactly` | kernel/core/load.c:99-223 | what is copied out is read back for all contents if and only if no two bytes of the range share a physical byte |
| `UserCopy.DistinctFramesDoNotAlias` | kernel/core/load.c:192-223 | a page table with distinct frames never shares a physical byte |
| `Rnyx.PackedIsAccepted` | kernel/core/load.c:28-72 | every packed image is accepted and the returned layout cuts out its code and data |
| `Rnyx.AcceptedWasPacked` | kernel/core/load.c:28-72 | every accepted image is the packing of its own slices |
| `Rnyx.AcceptsExactlyPacked` | kernel/core/load.c:28-72 | the validator accepts exactly the images a packer can produce |
| `Rnyx.FirstFaultDecides` | kernel/core/load.c:28-72 | for any header fields, the first wrong one in the order magic, version, architecture, header, entry, code size, data size, file length decides the error |
| `Argv.MeasureStrings` | kernel/core/user.c:1086-1115 | the size loop, with the subtraction that wraps for a string of 256 bytes, accepts exactly at most 8 strings of at most 256 bytes with their terminators |
| `Argv.WriteWord` | kernel/core/user.c:1141-1144 | the byte loop stores a 64-bit word least significant byte first and nothing else |
| `Argv.WriteString` | kernel/core/user.c:1144-1151 | the byte loop stores string and terminator, and stops on an interior NUL |
| `Argv.PrepareArgv` | kernel/core/user.c:1086-1163 | succeeds exactly for NUL-free arguments within the budget; then the page holds the block and nothing else, and walking from the returned stack pointer gives the arguments back |
| `Argv.WalkInvertsBlock` | kernel/core/user.c:1117-1163 | from the stack pointer the process reads back exactly its arguments; the pointer is 16-aligned and inside the stack page |
| `PciScan.Pci.ScanFunction` | kernel/drivers/pci.c:290-358 | a present function is registered once, and a well-formed bridge queues its secondary bus once |
| `PciScan.Pci.ScanBus` | kernel/drivers/pci.c:382-420 | a bus scan handles every device and function of that bus or reports that the registry is full |
| `PciScan.Pci.Initialize` | kernel/drivers/pci.c:360-428 | the search terminates; on success the scanned buses are exactly those reachable from bus 0 through well-formed bridges, each scanned once, the registry holds exactly their present functions, once each, and the bus queue never filled; it fails only when more functions are present than the registry holds |
| `PciScan.ClosedHoldsPath` | kernel/drivers/pci.c:382-420 | a set of buses closed under bridges contains every bus a bridge path leads to |
| `PciBar.PowerOfTwoTest` | kernel/drivers/pci.c:181-184 | the bit test accepts exactly the powers of two |
| `PciProbe.Function.Probe` | kernel/drivers/pci.c:160-179 | the probe returns the slots' masks, touches no other slot, and slots and COMMAND end as before exactly if the hardware takes them back |
| `PciProbe.Function.Restored` | kernel/drivers/pci.c:189-198 | answers whether the BAR words and COMMAND read back what was saved |
| `PciProbe.Function.BarDecode` | kernel/drivers/pci.c:203-285 | on any hardware a BAR is kept exactly when the words read describe one and everything written was taken back, and then nothing has changed |
| `PciProbe.Function.ScanBars` | kernel/drivers/pci.c:330-350 | on a device that follows the specification in every slot, all BAR and COMMAND words end as they were, and the kept BARs are the device's own, with their addresses and sizes, in order, as many as the record holds, if and only if no upper half passes for a BAR before the record is full; on any hardware that takes back what it held the words are restored; on any hardware every kept BAR is sane |
| `PciBar.KeptIoIsSane` | kernel/drivers/pci.c:277-284 | an I/O BAR that is kept ends at or below 0x10000, though only base and size are checked |
| `PciDevice.IoSeenExactly` | kernel/drivers/pci.c:203-285 | an I/O BAR is kept, with the device's size and base, if and only if the device implements the upper address bits, asks for no more than the I/O space and sits inside it |
| `PciDevice.Mem32SeenExactly` | kernel/drivers/pci.c:203-275 | a 32-bit BAR is kept, with the device's size and base, if and only if the slot does not read zero and the device asks for less than 4 GiB; it reads zero exactly while it has neither flags nor an address |
| `PciDevice.Mem64SeenExactly` | kernel/drivers/pci.c:236-258 | a 64-bit BAR is kept, with the device's size and base, if and only if its upper half lies inside the layout and it ends below the last byte of the address space |
| `PciDevice.TopBarIsMisread` | kernel/drivers/pci.c:203-285 | a 64-bit BAR that reaches the top of the address space is dropped, and its upper half, decoded as a slot of its own, is kept as a BAR the device does not have if and only if the size is from 8 GiB up to but not 2^64, at 16 GiB only if the next slot reads all ones when sized; what is kept is given for every size, from 64 GiB on a 32-bit BAR of size / 2^32 bytes |
| `PciDevice.ScanFindsDevice` | kernel/drivers/pci.c:338-350 | on any device made of BARs that follow the specification, the scan finds exactly its BARs, in order, up to the room of the record, if and only if no upper half passes for a BAR before the room is used up |
| `PciBar.FollowingUndoes` | kernel/drivers/pci.c:160-179 | hardware that follows the PCI specification in every slot takes back all that the scan writes |
| `Madt.ChecksumOk` | kernel/acpi/acpi.c:33-39 | the 8-bit wrapping sum is zero exactly when the byte sum is a multiple of 256; an empty range is refused |
| `Madt.ChecksumCatchesOneByte` | kernel/acpi/acpi.c:33-39 | changing any single byte of a valid table is caught |
| `Madt.CheckHeader` | kernel/acpi/acpi.c:42-53 | header size, signature, table length and checksum are judged in that order, with the error each gives |
| `Madt.Parser.ParseMadt` | kernel/acpi/acpi.c:122-219 | on any bytes the parser ends, stays inside the table and leaves result and topology as specified, also the partial topology of an error |
| `Madt.Parser.ParseRecord` | kernel/acpi/acpi.c:146-214 | one record does to the topology what the record specification says; what that means entry by entry is in `MadtEntries.AcceptsExactlyEntries` |
| `Madt.AcceptsExactlyRecords` | kernel/acpi/acpi.c:122-219 | the parser accepts exactly the encodings of record lists that are long enough and within capacity, and leaves their summary: processors and controllers in order, the first override of each line, the first address override, counts of skipped and duplicate records |
| `Madt.FirstOverrideWins` | kernel/acpi/acpi.c:171-186 | an interrupt override is kept if and only if no earlier one names the same bus and source |
| `Madt.FirstsDistinct` | kernel/acpi/acpi.c:115-120 | kept overrides name different lines |
| `Madt.FirstsCover` | kernel/acpi/acpi.c:171-186 | no overridden line is lost and none is made up |
| `Madt.FirstFaultDecides` | kernel/acpi/acpi.c:139-219 | the first short or overflowing record decides the error, whatever follows it |
| `MadtEntries.AcceptsExactlyEntries` | kernel/acpi/acpi.c:139-219 | the parser accepts exactly the byte strings that are encodings of typed entries (local APIC, I/O APIC, override, NMI, address override, x2APIC, others), field by field at the offsets of the specification, that fit the topology, and leaves what those entries say |
| `MadtEntries.EntriesRoundTrip` | kernel/acpi/acpi.c:139-219 | entries written byte by byte with little-endian fields are read back as those entries |
| `MadtEntries.ParsesExactlyTables` | kernel/acpi/acpi.c:122-219 | the whole parser accepts exactly the tables with a good header, the address at offset 36, the flags at offset 40 and such entries, and leaves what address, flags and entries say |
| `MadtEntries.BadFrameIsLength` | kernel/acpi/acpi.c:139-146 | bytes after acceptable entries that do not frame another record are a length error, and what was read so far stays |
| `MadtEntries.HeaderByCause` | kernel/acpi/acpi.c:42-53 | a header is refused for the first of: fewer than 36 bytes, another signature, a length below 36 or beyond the bytes, a byte sum not a multiple of 256 |
| `Gsi.OwnerAt` | kernel/interrupts/apic.c:248-264 | the loop returns the first controller that covers the interrupt, and the pin |
| `Gsi.RangesOverlap` | kernel/interrupts/apic.c:275-287 | the double loop answers whether any two ranges share an interrupt |
| `Gsi.PinsReachedExactly` | kernel/interrupts/apic.c:248-287 | every pin is reached through its own interrupt number if and only if no two ranges overlap |
| `Gsi.AnswerUnique` | kernel/interrupts/apic.c:248-264 | an interrupt has one answer and two interrupts never share a pin |

## Left out

- ProcTable.ProcTable.ProcWait: the table in the middle of a reap that yields is not described by the method; the pieces that follow are steps of the machine (`Machine.Resume`), on values and not in place.
- ProcTable.ProcTable.JoinWorker: the bound of a million rounds of the join loop is not modelled; `Progress.JoinLoopConverges` bounds its yields by the number of threads.
- ProcTable.ProcTable.ProcSpawnPipe: the table after the halt is not described, because no step follows it.
- Pipe.RingPipe.PipeNoteTerminal: the heap refusing to free the ring is part of `Kernel.CloseEnd` and not of this method.
- ProcTable.ProcTable.CheckTable: the page-table queries of reserved_clear are not part of the modelled audit.
- Kernel.ChecksPass: the page-table queries of reserved_clear are not part of the modelled audit.
- Runs.RunLater: runs stop before a slot's 64-bit generation wraps around.
- Fairness.MoveKeeps: the yielding wait of a process ends the run at once, without the selection it makes on its exit stack (`Fairness.ProcessWaitFailsCheck` is about that selection); only the bootstrap thread and the workers of processes are threads; the kernel's test threads are not.
- PciProbe.Function.Probe: STATUS, which the COMMAND write also touches, is not modelled.
- PciScan.Pci.Initialize: bridge windows and identity fields of a device record are not modelled.
- Scheduler.ThreadTable.SchedulerCheck: a saved frame is either valid or not; stack bounds, code ranges and user links behind that verdict are not modelled.
- Scheduler.ThreadTable.Yield: quantum and statistics counters are not modelled.
- Argv.PrepareArgv: the check that the context is pristine and the page lookup are not modelled.
- The statistics counters of the pipe and the scheduler are unbounded; the kernel's are 64-bit.
- Locks, interrupt-context checks and page-table audits (user_check, user_sync_spaces and their helpers): each operation is one step with interrupts off, and these audits are taken to pass.
- System-call staging (sys_spawn, sys_spawn_pipe, sys_wait), path resolution and the file calls: they copy in arguments and call the operations modelled here.
- Frame allocation and address-space construction of user.c: whether they succeed is a parameter.
- Mapping a BAR, ACPI root-table discovery, the vector allocator and the interrupt routes: tables of their own that no operation modelled here reads or writes.
- Serial output, display, hardware bring-up, self-tests.

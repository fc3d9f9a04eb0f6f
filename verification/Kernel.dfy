/** The process table of kernel/core/proc.c with what it owns: user contexts, worker threads,
    the heap blocks of a pipe ring and of an image being loaded, and the pipe.

    Every entry point runs with interrupts off, so each is one atomic step, and a run is a sequence
    of steps in any order. This module holds the state, its invariant and what each step does.
 */
module Kernel {
  import opened Options
  import Pipe

  const GEN_LIMIT: nat := 0x1_0000_0000_0000_0000
  const HANDLE_LIMIT: nat := 0x1_0000_0000
  const ID_LIMIT: nat := 0x8000_0000_0000_0000
  const KERNEL_OWNER: int := -1
  const MAX_ARGC: nat := 8

  datatype Life = Free | Loading | Active | Exited | Faulted | Aborted

  datatype Slot = Slot(
    state: Life, gen: nat, owner: int,
    ctx: Option<nat>, worker: nat, workerValid: bool, killRequested: bool,
    stdin: Pipe.StdinSel, stdout: Pipe.StdoutSel,
    exitCode: nat, faultVector: nat, faultError: nat)

  datatype UserState = UFree | UActive | UExited | UFaulted | UAborted

  /** A user context: its run state, whether a thread is bound to it, whether it was ever entered. */
  datatype Ctx = Ctx(state: UserState, bound: bool, entered: bool,
                     exitCode: nat, faultVector: nat, faultError: nat)

  const NO_CTX := Ctx(UFree, false, false, 0, 0, 0)
  const NEW_CTX := Ctx(UActive, false, false, 0, 0, 0)

  /** What user_enter_image or user_resume hands back to the worker: all codes other than the two
      terminal ones are treated alike by the worker loop. */
  datatype RunCode = RunExited | RunFaulted | RunOther

  /** Where a worker thread is: not yet started, its context on the CPU, back in the worker loop
      with a run code, past thread_exit (THREAD_EXITED), or joined, so that the thread is gone and
      only the slot that it served is still to be freed. */
  datatype Phase = Fresh | InUser | Parked(rc: RunCode) | Gone | Joined

  datatype Worker = Worker(slot: nat, phase: Phase)

  datatype ProcStatus = Running | StExited(code: nat) | StFaulted(vector: nat, error: nat) | StAborted

  /** One activation of cleanup_owned: whose children it releases, and how far its scan has come. */
  datatype Frame = Frame(owner: nat, at: nat)

  /** The kernel's own proc_wait, when it has to yield inside the reap: the handle it consumes, the
      status it will report, its recursion, outermost first, and whether it is off the processor. */
  datatype Waiter = Idle | Reaping(handle: nat, status: ProcStatus, frames: seq<Frame>, resting: bool)

  /** `workers` holds the worker threads by thread id; `ring` is the heap block of the pipe. */
  datatype State = State(
    slots: seq<Slot>, ctxs: seq<Ctx>,
    workers: map<nat, Worker>, nextId: nat, threadCap: nat,
    heap: set<nat>, ring: Option<nat>,
    pipe: Pipe.PipeState, pipeCap: nat,
    waiter: Waiter)

  /** The thread ids in use. */
  function Threads(workers: map<nat, Worker>): set<nat> {
    set w | w in workers && workers[w].phase != Joined
  }

  predicate LiveState(l: Life) { l == Active || l == Loading }

  predicate Terminal(l: Life) { l == Exited || l == Faulted || l == Aborted }

  function UserStateOf(l: Life): UserState {
    match l
    case Exited => UExited
    case Faulted => UFaulted
    case Aborted => UAborted
    case _ => UActive
  }

  // ----- The invariant -----

  predicate FreeOk(s: Slot) {
    && s.owner == KERNEL_OWNER && s.ctx == None && !s.workerValid && !s.killRequested
    && s.exitCode == 0 && s.faultVector == 0 && s.faultError == 0
  }

  /** A live slot's record agrees with its context and with where its worker is. */
  predicate PhaseOk(s: Slot, c: Ctx, ph: Phase) {
    && (s.state == Active || Terminal(s.state))
    && c.state == UserStateOf(s.state)
    && (s.state == Exited ==> s.exitCode == c.exitCode)
    && (s.state == Faulted ==> s.faultVector == c.faultVector && s.faultError == c.faultError)
    && match ph
       case Fresh => s.state == Active && !c.bound && !c.entered
       case InUser => s.state == Active && c.bound && c.entered
       case Parked(RunExited) => s.state == Exited && c.bound
       case Parked(RunFaulted) => s.state == Faulted && c.bound
       case Parked(RunOther) => s.state == Active && c.bound && c.entered
       case Gone => Terminal(s.state) && !c.bound
       case Joined => Terminal(s.state) && !c.bound
  }

  predicate LiveOk(k: State, s: Slot, i: nat) {
    && s.ctx.Some? && s.ctx.value < |k.ctxs|
    && s.worker in k.workers && k.workers[s.worker].slot == i
    && (s.workerValid <==> k.workers[s.worker].phase != Joined)
    && PhaseOk(s, k.ctxs[s.ctx.value], k.workers[s.worker].phase)
  }

  /** A slot's owner is the kernel or a live slot whose worker is older: thread ids only grow, so
      ownership cannot run in a circle. */
  predicate OwnerOk(slots: seq<Slot>, s: Slot) {
    || s.owner == KERNEL_OWNER
    || (0 <= s.owner < |slots| && slots[s.owner].state != Free && slots[s.owner].worker < s.worker)
  }

  predicate SlotOk(k: State, i: nat)
    requires i < |k.slots|
  {
    var s := k.slots[i];
    && 0 < s.gen < GEN_LIMIT
    && s.stdin != Pipe.StdinFile && s.stdout != Pipe.StdoutFile
    && OwnerOk(k.slots, s)
    && (s.state == Free ==> FreeOk(s))
    && (s.state != Free ==> LiveOk(k, s, i))
  }

  predicate CtxsDistinct(slots: seq<Slot>) {
    forall i, j :: 0 <= i < j < |slots| && slots[i].state != Free && slots[j].state != Free ==>
      slots[i].ctx != slots[j].ctx
  }

  predicate WorkersOk(k: State) {
    && 0 < k.nextId
    && forall w :: w in k.workers ==>
      && 0 < w < k.nextId
      && k.workers[w].slot < |k.slots|
      && k.slots[k.workers[w].slot].state != Free
      && k.slots[k.workers[w].slot].worker == w
  }

  /** A free context is zeroed. */
  predicate CtxsClean(ctxs: seq<Ctx>) {
    forall c :: 0 <= c < |ctxs| && ctxs[c].state == UFree ==> ctxs[c] == NO_CTX
  }

  predicate TableInv(k: State) {
    && CtxsClean(k.ctxs)
    && (forall i :: 0 <= i < |k.slots| ==> SlotOk(k, i))
    && CtxsDistinct(k.slots)
    && WorkersOk(k)
  }

  /** A closed end belongs to an incarnation that is terminal or already recycled. */
  predicate Closed(s: Slot, gen: nat) {
    s.gen > gen || (s.gen == gen && Terminal(s.state))
  }

  predicate EndsOk(k: State)
    requires k.pipe.live ==> k.pipe.wslot < |k.slots| && k.pipe.rslot < |k.slots|
  {
    k.pipe.live ==>
      var w, r := k.slots[k.pipe.wslot], k.slots[k.pipe.rslot];
      && (k.pipe.writerOpen ==> w.state == Active && w.gen == k.pipe.wgen && w.stdout == Pipe.StdoutPipe)
      && (k.pipe.readerOpen ==> r.state == Active && r.gen == k.pipe.rgen && r.stdin == Pipe.StdinPipe)
      && (!k.pipe.writerOpen ==> Closed(w, k.pipe.wgen))
      && (!k.pipe.readerOpen ==> Closed(r, k.pipe.rgen))
  }

  /** A running producer or consumer owns the matching open end. */
  predicate RolesOk(k: State) {
    forall i :: 0 <= i < |k.slots| && k.slots[i].state == Active ==>
      && (k.slots[i].stdout == Pipe.StdoutPipe ==> k.pipe.live && k.pipe.writerOpen && k.pipe.wslot == i)
      && (k.slots[i].stdin == Pipe.StdinPipe ==> k.pipe.live && k.pipe.readerOpen && k.pipe.rslot == i)
  }

  predicate PipeInv(k: State) {
    && Pipe.Ok(k.pipe, k.pipeCap)
    && (k.pipe.live <==> k.ring.Some?)
    && (k.ring.Some? ==> k.ring.value in k.heap)
    && (k.pipe.live ==> k.pipe.wslot < |k.slots| && k.pipe.rslot < |k.slots|)
    && EndsOk(k)
    && RolesOk(k)
  }

  function Frames(w: Waiter): seq<Frame> {
    if w.Idle? then [] else w.frames
  }

  predicate InFrames(fs: seq<Frame>, i: nat) {
    exists n :: 0 <= n < |fs| && fs[n].owner == i
  }

  predicate ChildOf(s: Slot, o: nat) {
    s.state != Free && s.owner == o
  }

  /** The scan has left no child of its owner behind. */
  predicate Scanned(slots: seq<Slot>, f: Frame) {
    forall j :: 0 <= j < |slots| && j < f.at ==> !ChildOf(slots[j], f.owner)
  }

  predicate FrameOk(slots: seq<Slot>, f: Frame) {
    f.owner < |slots| && f.at <= |slots| && Terminal(slots[f.owner].state) && Scanned(slots, f)
  }

  /** Each frame below the top is waiting for the reap of the child it has come to. */
  predicate StackOk(slots: seq<Slot>, fs: seq<Frame>) {
    && (forall n :: 0 <= n < |fs| ==> FrameOk(slots, fs[n]))
    && (forall n :: 0 <= n < |fs| - 1 ==> fs[n].at == fs[n + 1].owner && slots[fs[n + 1].owner].owner == fs[n].owner)
    && (fs != [] ==> slots[fs[0].owner].owner == KERNEL_OWNER)
  }

  /** The joined slots are the owners of the frames, and the waiter knows what it will report. */
  predicate WaiterOk(k: State) {
    && (forall i :: 0 <= i < |k.slots| && k.slots[i].state != Free ==>
          (!k.slots[i].workerValid <==> InFrames(Frames(k.waiter), i)))
    && StackOk(k.slots, Frames(k.waiter))
    && (k.waiter.Reaping? ==>
          && k.waiter.frames != []
          && Decode(k, k.waiter.handle) == Some(k.waiter.frames[0].owner)
          && k.waiter.status == StatusOf(k.slots[k.waiter.frames[0].owner]))
  }

  predicate Inv(k: State) {
    TableInv(k) && PipeInv(k) && WaiterOk(k)
  }

  // ----- The checks the code itself runs -----

  function Info(slots: seq<Slot>): (info: seq<Pipe.SlotInfo>)
    ensures |info| == |slots|
    ensures forall i :: 0 <= i < |slots| ==>
      info[i] == Pipe.SlotInfo(slots[i].gen, slots[i].stdin, slots[i].stdout, slots[i].state != Free)
  {
    seq(|slots|, i requires 0 <= i < |slots| =>
      Pipe.SlotInfo(slots[i].gen, slots[i].stdin, slots[i].stdout, slots[i].state != Free))
  }

  /** What proc_check demands of one slot (the reserved address ranges are not modelled). */
  predicate CheckSlot(k: State, i: nat)
    requires i < |k.slots|
  {
    var s := k.slots[i];
    && s.gen != 0
    && (s.owner == KERNEL_OWNER || (0 <= s.owner < |k.slots| && k.slots[s.owner].state != Free))
    && (s.state == Free ==> s.ctx == None && !s.workerValid && !s.killRequested)
    && (s.state != Free ==>
          && s.ctx.Some? && s.ctx.value < |k.ctxs|
          && s.stdin != Pipe.StdinFile && s.stdout != Pipe.StdoutFile
          && (s.state == Loading ==> !s.workerValid && !s.killRequested)
          && (s.state != Loading ==> s.workerValid && k.ctxs[s.ctx.value].state == UserStateOf(s.state)))
  }

  predicate ProcCheck(k: State) {
    && (forall i :: 0 <= i < |k.slots| ==> CheckSlot(k, i))
    && CtxsDistinct(k.slots)
  }

  /** pipe_check on the table as it stands. */
  predicate PipeCheck(k: State) {
    Pipe.Check(k.pipe, Info(k.slots), k.pipeCap)
  }

  /** The pipe's audit passes in every state of the invariant, and proc_check exactly while no reap
      has yielded: a joined slot that is not yet free has lost its worker. */
  lemma ChecksPass(k: State)
    requires Inv(k)
    ensures ProcCheck(k) <==> k.waiter.Idle?
    ensures PipeCheck(k)
  {
    if k.waiter.Reaping? {
      assert InFrames(k.waiter.frames, k.waiter.frames[0].owner);
      assert !CheckSlot(k, k.waiter.frames[0].owner);
    } else {
      forall i | 0 <= i < |k.slots|
        ensures CheckSlot(k, i)
      {
        assert SlotOk(k, i);
      }
    }
  }

  // ----- Handles -----

  /** (u64)slot | gen << 32: only the low 32 bits of the generation survive the shift. */
  function HandleOf(slot: nat, gen: nat): nat {
    slot % HANDLE_LIMIT + (gen % HANDLE_LIMIT) * HANDLE_LIMIT
  }

  function Decode(k: State, handle: nat): (r: Option<nat>)
    ensures r.Some? ==> r.value < |k.slots| && k.slots[r.value].state != Free
  {
    var slot, gen := handle % HANDLE_LIMIT, handle / HANDLE_LIMIT;
    if slot >= |k.slots| || gen == 0 || k.slots[slot].state == Free || k.slots[slot].gen != gen then None
    else Some(slot)
  }

  /** user_destroy takes an unbound context that is terminal or was never entered. */
  predicate Destroyable(c: Ctx) {
    !c.bound && (c.state == UExited || c.state == UFaulted || c.state == UAborted || (c.state == UActive && !c.entered))
  }

  // ----- Steps on one live slot -----

  /** A live slot with a context and a worker thread. */
  predicate Seated(k: State, i: nat) {
    && i < |k.slots| && k.slots[i].state != Free
    && k.slots[i].ctx.Some? && k.slots[i].ctx.value < |k.ctxs|
    && k.slots[i].worker in k.workers
  }

  function CtxOf(k: State, i: nat): Ctx
    requires Seated(k, i)
  {
    k.ctxs[k.slots[i].ctx.value]
  }

  function PhaseOf(k: State, i: nat): Phase
    requires Seated(k, i)
  {
    k.workers[k.slots[i].worker].phase
  }

  /** Slot `i` gets a new record, context content and worker phase; nothing else moves. */
  function Put(k: State, i: nat, s: Slot, c: Ctx, ph: Phase): State
    requires Seated(k, i)
  {
    k.(slots := k.slots[i := s],
       ctxs := k.ctxs[k.slots[i].ctx.value := c],
       workers := k.workers[k.slots[i].worker := Worker(i, ph)])
  }

  /** pipe_note_terminal for slot `i`; the ring goes back to the heap with the last close. False is
      what makes the caller halt: a second close, a ring that is no heap block, a failed audit. */
  function CloseEnd(k: State, i: nat): (State, bool)
    requires i < |k.slots|
  {
    var (p, ok) := Pipe.NoteTerminal(k.pipe, i, k.slots[i].gen);
    if p.released == k.pipe.released then
      (k.(pipe := p), ok && (p == k.pipe || PipeCheck(k.(pipe := p))))
    else if k.ring.Some? && k.ring.value in k.heap then
      var k' := k.(pipe := p, heap := k.heap - {k.ring.value}, ring := None);
      (k', ok && PipeCheck(k'))
    else (k.(pipe := p), false)
  }

  datatype Outcome =
    | Done
    | Error(code: SysErr)
    | Handle(h: nat)
    | Handles(ha: nat, hb: nat)
    | Status(status: ProcStatus)
    | Wrote(w: Pipe.WriteResult)
    | Read(r: Pipe.StageResult)
    | Yields
    | Panic

  datatype SysErr = NotFound | Malformed | BadHandle | Busy | NoMem | BadArg | AlreadyGone | IoErr | Inval

  function StatusOf(s: Slot): ProcStatus {
    match s.state
    case Exited => StExited(s.exitCode % HANDLE_LIMIT)
    case Faulted => StFaulted(s.faultVector % HANDLE_LIMIT, s.faultError % HANDLE_LIMIT)
    case Aborted => StAborted
    case _ => Running
  }

  /** user_handle_exit / user_handle_fault up to user_schedule_next: context record, process
      record and endpoint close in one step, then the worker is parked with the run code. */
  function GateTerminal(k: State, i: nat, life: Life, a: nat, b: nat): (State, Outcome)
    requires Seated(k, i)
    requires life == Exited || life == Faulted
  {
    var s, c := k.slots[i], CtxOf(k, i);
    if s.state != Active || c.state != UActive then (k, Panic)
    else
      var (s', c', rc) :=
        if life == Exited then
          (s.(state := Exited, exitCode := a), c.(state := UExited, exitCode := a), RunExited)
        else
          (s.(state := Faulted, faultVector := a, faultError := b),
           c.(state := UFaulted, faultVector := a, faultError := b), RunFaulted);
      var (k', ok) := CloseEnd(Put(k, i, s', c', Parked(rc)), i);
      (k', if ok then Done else Panic)
  }

  /** One turn of the worker loop on the run code it was handed: break out to detach and
      thread_exit, abort on a kill request, or resume the context. */
  function WorkerTurn(k: State, i: nat): (State, Outcome)
    requires Seated(k, i)
  {
    var s, c := k.slots[i], CtxOf(k, i);
    match PhaseOf(k, i)
    case Parked(RunExited) =>
      if s.state == Active then
        Finish(k, i, s.(state := Exited, exitCode := c.exitCode), c)
      else (Put(k, i, s, c.(bound := false), Gone), Done)
    case Parked(RunFaulted) =>
      if s.state == Active then
        Finish(k, i, s.(state := Faulted, faultVector := c.faultVector, faultError := c.faultError), c)
      else (Put(k, i, s, c.(bound := false), Gone), Done)
    case Parked(RunOther) =>
      if s.killRequested && s.state == Active && c.state == UActive then
        Finish(k, i, s.(state := Aborted), c.(state := UAborted))
      else (Put(k, i, s, c, InUser), Done)
    case _ => (k, Panic)
  }

  /** Terminal record by the worker itself, endpoint close, detach and exit. */
  function Finish(k: State, i: nat, s: Slot, c: Ctx): (State, Outcome)
    requires Seated(k, i)
  {
    var (k', ok) := CloseEnd(Put(k, i, s, c.(bound := false), Gone), i);
    (k', if ok then Done else Panic)
  }

  /** The worker's first act, whatever kill request is pending. */
  function Enter(k: State, i: nat): (State, Outcome)
    requires Seated(k, i)
  {
    var s, c := k.slots[i], CtxOf(k, i);
    if s.state != Active || !s.workerValid || c.state != UActive || c.bound || c.entered then (k, Panic)
    else (Put(k, i, s, c.(bound := true, entered := true), InUser), Done)
  }

  /** A non-terminal trap or a tick: the worker is parked. */
  function Trap(k: State, i: nat): State
    requires Seated(k, i)
  {
    Put(k, i, k.slots[i], CtxOf(k, i), Parked(RunOther))
  }

  /** A kill request that is granted. */
  predicate Grants(k: State, handle: nat, owner: int, self: int) {
    var d := Decode(k, handle);
    && d.Some? && !(self >= 0 && d.value == self) && k.slots[d.value].owner == owner
    && LiveState(k.slots[d.value].state)
  }

  function Killed(k: State, i: nat): State
    requires i < |k.slots|
  {
    k.(slots := k.slots[i := k.slots[i].(killRequested := true)])
  }

  function Terminate(k: State, handle: nat, owner: int, self: int): (State, Outcome) {
    match Decode(k, handle)
    case None => (k, Error(BadHandle))
    case Some(i) =>
      if self >= 0 && i == self then (k, Error(Inval))
      else if k.slots[i].owner != owner then (k, Error(BadHandle))
      else if !LiveState(k.slots[i].state) then (k, Error(AlreadyGone))
      else (Killed(k, i), if ProcCheck(Killed(k, i)) then Done else Panic)
  }

  /** sys_write of a running producer, routed to the pipe; `copied` says whether the bytes could be
      copied in. An empty write is answered before the pipe is asked. */
  function WriteOut(k: State, i: nat, src: seq<Pipe.Byte>, copied: bool): (State, Outcome)
    requires i < |k.slots|
  {
    if |src| > k.pipeCap then (k, Wrote(Pipe.WriteInvalid))
    else if src == [] then (k, Wrote(Pipe.Accepted(0)))
    else if !copied then (k, Wrote(Pipe.WriteInvalid))
    else
      var (p, r) := Pipe.Write(k.pipe, i, k.slots[i].gen, src, k.pipeCap);
      (k.(pipe := p), if r.Accepted? && r.n > 0 && !PipeCheck(k.(pipe := p)) then Panic else Wrote(r))
  }

  /** sys_read of a running consumer: stage, copy out, and dequeue only if the copies succeeded.
      `destOk` says whether the destinations are writable, `copied` whether the copies went through.
      An empty read is answered before the pipe is asked. */
  function ReadIn(k: State, i: nat, len: nat, destOk: bool, copied: bool): (State, Outcome)
    requires i < |k.slots|
  {
    if len > k.pipeCap then (k, Error(Inval))
    else if len == 0 then (k, if copied then Done else Error(Inval))
    else if !destOk then (k, Error(Inval))
    else
      var (p, r) := Pipe.Stage(k.pipe, i, k.slots[i].gen, len, k.pipeCap);
      var k1 := k.(pipe := p);
      match r
      case StageInvalid => (k1, Error(Inval))
      case Again => (k1, Read(r))
      case EndOfStream => (k1, if copied then Read(r) else Error(Inval))
      case Staged(bytes) =>
        if !copied then (k1, Error(Inval))
        else
          var (q, ok) := Pipe.Commit(p, |bytes|);
          if !ok then (k1, Error(Inval))
          else (k.(pipe := q), if PipeCheck(k.(pipe := q)) then Read(r) else Panic)
  }

  // ----- Admission -----

  /** The first FREE slot at or after `from`, or the number of slots. */
  function FirstFree(slots: seq<Slot>, from: nat): (r: nat)
    requires from <= |slots|
    ensures from <= r <= |slots|
    ensures r < |slots| ==> slots[r].state == Free
    ensures forall i :: from <= i < r ==> slots[i].state != Free
    decreases |slots| - from
  {
    if from == |slots| || slots[from].state == Free then from else FirstFree(slots, from + 1)
  }

  function FirstFreeCtx(ctxs: seq<Ctx>, from: nat): (r: nat)
    requires from <= |ctxs|
    ensures from <= r <= |ctxs|
    ensures r < |ctxs| ==> ctxs[r].state == UFree
    ensures forall i :: from <= i < r ==> ctxs[i].state != UFree
    decreases |ctxs| - from
  {
    if from == |ctxs| || ctxs[from].state == UFree then from else FirstFreeCtx(ctxs, from + 1)
  }

  /** Slot `i` becomes ACTIVE on context `c` with a fresh worker; its generation is untouched. */
  function Admit(k: State, i: nat, c: nat, owner: int, stdin: Pipe.StdinSel, stdout: Pipe.StdoutSel): State
    requires i < |k.slots| && c < |k.ctxs|
  {
    k.(slots := k.slots[i := Slot(Active, k.slots[i].gen, owner, Some(c), k.nextId, true, false, stdin, stdout, 0, 0, 0)],
       ctxs := k.ctxs[c := NEW_CTX],
       workers := k.workers[k.nextId := Worker(i, Fresh)],
       nextId := k.nextId + 1)
  }

  predicate OwnerAdmitted(slots: seq<Slot>, owner: int) {
    owner == KERNEL_OWNER || (0 <= owner < |slots| && slots[owner].state != Free)
  }

  /** thread_create_with_flags finds a FREE thread, an id and (`stackOk`) a kernel stack. */
  predicate CanStart(k: State, stackOk: bool) {
    stackOk && |Threads(k.workers)| < k.threadCap && k.nextId < ID_LIMIT
  }

  /** Slot `i` LOADING on the first free context. */
  function Loaded(k: State, i: nat): State
    requires i < |k.slots| && FirstFreeCtx(k.ctxs, 0) < |k.ctxs|
  {
    var c := FirstFreeCtx(k.ctxs, 0);
    k.(slots := k.slots[i := k.slots[i].(state := Loading, ctx := Some(c))], ctxs := k.ctxs[c := NEW_CTX])
  }

  /** What the rest of the kernel answers during proc_spawn_image. */
  datatype ImageEnv = ImageEnv(imageOk: bool, createOk: bool, argvOk: bool, stackOk: bool)

  /** Refusals and failures of proc_spawn_image before its first audit. */
  function ImageFailure(k: State, nargs: nat, stdin: Pipe.StdinSel, owner: int, env: ImageEnv): Option<SysErr> {
    if nargs > MAX_ARGC || (stdin != Pipe.StdinClosed && stdin != Pipe.StdinKbd) || !OwnerAdmitted(k.slots, owner) then
      Some(BadArg)
    else if !env.imageOk then Some(Malformed)
    else if FirstFree(k.slots, 0) == |k.slots| then Some(Busy)
    else if !env.createOk || FirstFreeCtx(k.ctxs, 0) == |k.ctxs| || !env.argvOk then Some(NoMem)
    else None
  }

  /** The audits run while the slot is LOADING and again once it is ACTIVE. */
  function SpawnImage(k: State, nargs: nat, stdin: Pipe.StdinSel, owner: int, env: ImageEnv): (State, Outcome) {
    if ImageFailure(k, nargs, stdin, owner, env).Some? then (k, Error(ImageFailure(k, nargs, stdin, owner, env).value))
    else
      var i, c := FirstFree(k.slots, 0), FirstFreeCtx(k.ctxs, 0);
      if !ProcCheck(Loaded(k, i)) then (k, Panic)
      else if !CanStart(k, env.stackOk) then (k, Error(NoMem))
      else
        var k' := Admit(k, i, c, owner, stdin, Pipe.StdoutSerial);
        if ProcCheck(k') then (k', Handle(HandleOf(i, k.slots[i].gen))) else (k, Panic)
  }

  /** What stat, open, heap, read, close and the image validator answer during fetch_image. */
  datatype FetchEnv = FetchEnv(statOk: bool, isFile: bool, sizeOk: bool, openOk: bool, block: Option<nat>,
                               readOk: bool, closeOk: bool, valid: bool)

  predicate CanAlloc(heap: set<nat>, block: Option<nat>) {
    block.Some? && block.value !in heap
  }

  /** fetch_image: the error it returns, or None with the image in a new heap block. */
  function FetchError(heap: set<nat>, env: FetchEnv): Option<SysErr> {
    if !env.statOk then Some(NotFound)
    else if !env.isFile || !env.sizeOk then Some(Malformed)
    else if !env.openOk then Some(NotFound)
    else if !CanAlloc(heap, env.block) then Some(NoMem)
    else if !env.readOk || !env.closeOk then Some(IoErr)
    else if !env.valid then Some(Malformed)
    else None
  }

  datatype PipeEnv = PipeEnv(ring: Option<nat>, fetchA: FetchEnv, createA: bool, argvA: bool,
                             fetchB: FetchEnv, createB: bool, argvB: bool, stackA: bool, stackB: bool)

  datatype PipeReq = PipeReq(nargsA: nat, stdinA: Pipe.StdinSel, nargsB: nat, owner: int)

  /** Refusals before any state moves. */
  function PipeRefusal(k: State, req: PipeReq): Option<SysErr> {
    if req.nargsA > MAX_ARGC || req.nargsB > MAX_ARGC
       || (req.stdinA != Pipe.StdinClosed && req.stdinA != Pipe.StdinKbd)
       || !OwnerAdmitted(k.slots, req.owner) then Some(BadArg)
    else if SecondFree(k.slots) == |k.slots| then Some(Busy)
    else if |Threads(k.workers)| + 2 > k.threadCap then Some(NoMem)
    else if k.pipe.live then Some(Busy)
    else None
  }

  function SecondFree(slots: seq<Slot>): (b: nat)
    ensures b <= |slots|
    ensures b < |slots| ==> slots[b].state == Free && FirstFree(slots, 0) < b
  {
    var a := FirstFree(slots, 0);
    if a == |slots| then a else FirstFree(slots, a + 1)
  }

  /** The context the second side gets: the first free one once the first side holds `c`. */
  function SecondFreeCtx(ctxs: seq<Ctx>): (d: nat)
    ensures d <= |ctxs|
    ensures d < |ctxs| ==> ctxs[d].state == UFree && FirstFreeCtx(ctxs, 0) < d
  {
    var c := FirstFreeCtx(ctxs, 0);
    if c == |ctxs| then c else FirstFreeCtx(ctxs, c + 1)
  }

  /** Failures while the two contexts are built, in the order the code meets them; `h` is the heap
      with the ring in it. */
  function BuildFailure(ctxs: seq<Ctx>, h: set<nat>, env: PipeEnv): Option<SysErr> {
    if FetchError(h, env.fetchA).Some? then FetchError(h, env.fetchA)
    else if !env.createA || FirstFreeCtx(ctxs, 0) == |ctxs| || !env.argvA then Some(NoMem)
    else if FetchError(h, env.fetchB).Some? then FetchError(h, env.fetchB)
    else if !env.createB || SecondFreeCtx(ctxs) == |ctxs| || !env.argvB then Some(NoMem)
    else None
  }

  /** Failures after the two slots were reserved and before the first audit. */
  function ReserveFailure(k: State, env: PipeEnv): Option<SysErr> {
    if !CanAlloc(k.heap, env.ring) then Some(NoMem)
    else BuildFailure(k.ctxs, k.heap + {env.ring.value}, env)
  }

  /** The two slots reserved; each side's context built (`ca`, `cb`) or not yet. */
  function Midway(k: State, req: PipeReq, ring: nat, ca: Option<nat>, cb: Option<nat>): State
    requires PipeRefusal(k, req) == None
    requires (ca.Some? ==> ca.value < |k.ctxs|) && (cb.Some? ==> cb.value < |k.ctxs|)
  {
    var a, b := FirstFree(k.slots, 0), SecondFree(k.slots);
    var ctxs := if ca.Some? then k.ctxs[ca.value := NEW_CTX] else k.ctxs;
    k.(slots := k.slots
         [a := k.slots[a].(state := Loading, ctx := ca, owner := req.owner, workerValid := false, killRequested := false,
                           stdin := req.stdinA, stdout := Pipe.StdoutPipe)]
         [b := k.slots[b].(state := Loading, ctx := cb, owner := req.owner, workerValid := false, killRequested := false,
                           stdin := Pipe.StdinPipe, stdout := Pipe.StdoutSerial)],
       ctxs := if cb.Some? then ctxs[cb.value := NEW_CTX] else ctxs,
       heap := k.heap + {ring})
  }

  /** Both sides built, as the first audit finds the table. */
  function Built(k: State, req: PipeReq, env: PipeEnv): State
    requires PipeRefusal(k, req) == None && ReserveFailure(k, env) == None
  {
    Midway(k, req, env.ring.value, Some(FirstFreeCtx(k.ctxs, 0)), Some(SecondFreeCtx(k.ctxs)))
  }

  /** pipe_attach is accepted, and its audit passes, while both slots are still LOADING. */
  predicate Attaches(m: State, a: nat, b: nat)
    requires a < |m.slots| && b < |m.slots|
  {
    && Pipe.CanAttach(m.pipe, |m.slots|, a, m.slots[a].gen, b, m.slots[b].gen)
    && PipeCheck(m.(pipe := Pipe.Attach(m.pipe, a, m.slots[a].gen, b, m.slots[b].gen)))
  }

  /** Endpoint selectors that a failed admission leaves on the two FREE slots. */
  function StaleSelectors(k: State, req: PipeReq): State
    requires PipeRefusal(k, req) == None
  {
    var a, b := FirstFree(k.slots, 0), SecondFree(k.slots);
    k.(slots := k.slots[a := k.slots[a].(stdin := req.stdinA, stdout := Pipe.StdoutPipe)]
                       [b := k.slots[b].(stdin := Pipe.StdinPipe, stdout := Pipe.StdoutSerial)])
  }

  /** Both children ACTIVE and one live pipe between them. */
  function Admitted(k: State, req: PipeReq, env: PipeEnv): State
    requires PipeRefusal(k, req) == None && ReserveFailure(k, env) == None
  {
    var a, b := FirstFree(k.slots, 0), SecondFree(k.slots);
    var c, d := FirstFreeCtx(k.ctxs, 0), SecondFreeCtx(k.ctxs);
    var k1 := Admit(k, a, c, req.owner, req.stdinA, Pipe.StdoutPipe);
    var k2 := Admit(k1, b, d, req.owner, Pipe.StdinPipe, Pipe.StdoutSerial);
    k2.(heap := k.heap + {env.ring.value}, ring := env.ring,
        pipe := Pipe.Attach(k.pipe, a, k.slots[a].gen, b, k.slots[b].gen))
  }

  /** The second worker's creation is the one step of spawn_pipe whose failure has no way back. */
  predicate Strands(k: State, env: PipeEnv) {
    CanStart(k, env.stackA) && (!env.stackB || k.nextId + 1 >= ID_LIMIT)
  }

  /** The audits run with both slots LOADING, on the attached pipe, and at the end. */
  function SpawnPipe(k: State, req: PipeReq, env: PipeEnv): (State, Outcome) {
    if PipeRefusal(k, req).Some? then (k, Error(PipeRefusal(k, req).value))
    else if ReserveFailure(k, env).Some? then (StaleSelectors(k, req), Error(ReserveFailure(k, env).value))
    else if !ProcCheck(Built(k, req, env)) then (k, Panic)
    else if !CanStart(k, env.stackA) then (StaleSelectors(k, req), Error(NoMem))
    else if Strands(k, env) then (k, Panic)
    else
      var a, b := FirstFree(k.slots, 0), SecondFree(k.slots);
      var k' := Admitted(k, req, env);
      if !Attaches(Built(k, req, env), a, b) || !ProcCheck(k') || !PipeCheck(k') then (k, Panic)
      else (k', Handles(HandleOf(a, k.slots[a].gen), HandleOf(b, k.slots[b].gen)))
  }
}

/** The process table as a machine: its steps, which of them halt the kernel, and that all others
    keep the invariant. */
module Machine {
  import Pipe
  import opened Kernel
  import opened KernelInv
  import opened Reap

  predicate NoWrap(k: State) {
    forall i :: 0 <= i < |k.slots| ==> k.slots[i].gen + 1 < GEN_LIMIT
  }

  // ----- Waiting -----

  /** The caller may ask about the slot the handle names. */
  predicate Asks(k: State, handle: nat, owner: int, self: int) {
    var d := Decode(k, handle);
    d.Some? && !(self >= 0 && d.value == self) && k.slots[d.value].owner == owner
  }

  /** The call consumes the handle: the process is terminal and its worker has exited. */
  predicate Takes(k: State, handle: nat, owner: int, self: int) {
    Asks(k, handle, owner, self) && (var i := Decode(k, handle).value; Terminal(k.slots[i].state) && WorkerGone(k, i))
  }

  /** The slot belongs to a reap that has yielded: its worker is joined already. */
  predicate TakenAlready(k: State, handle: nat, owner: int, self: int) {
    Asks(k, handle, owner, self) && (var i := Decode(k, handle).value; Terminal(k.slots[i].state) && !k.slots[i].workerValid)
  }

  /** The end of proc_wait: join, reap, audit. */
  function Consume(k: State, handle: nat, i: nat, self: int): (State, Outcome)
    requires OwnersOk(k.slots) && i < |k.slots|
  {
    if Settled(k, i) then
      var k' := Reaped(k, i);
      (k', if ProcCheck(k') then Status(StatusOf(k.slots[i])) else Panic)
    else if self >= 0 then (k, Panic)
    else (AfterJoin(k, i).(waiter := Reaping(handle, StatusOf(k.slots[i]), [Frame(i, 0)], false)), Yields)
  }

  /** proc_wait. A live or not yet exited child reads Running and is not consumed; a terminal one is
      reported and, with its terminal descendants, reaped. If the worker of such a descendant has
      not exited, join_worker yields. The kernel's own wait then goes on in pieces (`Resume`). A wait
      from a process yields on its gate's exit stack, which leaves a READY thread whose saved frame
      is on no kernel stack; the next scheduler_check halts (`Fairness.ProcessWaitFailsCheck`). */
  function Wait(k: State, handle: nat, owner: int, self: int): (State, Outcome)
    requires TableInv(k)
  {
    match Decode(k, handle)
    case None => (k, Error(BadHandle))
    case Some(i) =>
      var s := k.slots[i];
      assert SlotOk(k, i);
      assert OwnersOk(k.slots) by { InvIsReapInv(k); }
      if self >= 0 && i == self then
        (k, if LiveState(s.state) then Status(Running) else Error(BadHandle))
      else if s.owner != owner then (k, Error(BadHandle))
      else if LiveState(s.state) then (k, Status(Running))
      else if PhaseOf(k, i) == Joined then (k, Panic)
      else if PhaseOf(k, i) != Gone then (k, Status(Running))
      else Consume(k, handle, i, self)
  }

  // ----- A reap that has yielded -----

  function TopFrame(k: State): Frame
    requires k.waiter.Reaping? && k.waiter.frames != []
  {
    k.waiter.frames[|k.waiter.frames| - 1]
  }

  /** The scan has come to a terminal child whose worker has not exited: join_worker yields. */
  predicate Stuck(k: State) {
    && k.waiter.Reaping? && k.waiter.frames != []
    && (var f := TopFrame(k);
        && f.at < |k.slots| && ChildOf(k.slots[f.at], f.owner)
        && Terminal(k.slots[f.at].state) && k.slots[f.at].workerValid && !WorkerGone(k, f.at))
  }

  /** The recursion with its top frame moved on by one slot. */
  function Onto(fs: seq<Frame>): seq<Frame>
    requires fs != []
  {
    fs[|fs| - 1 := Frame(fs[|fs| - 1].owner, fs[|fs| - 1].at + 1)]
  }

  function Stack(k: State, fs: seq<Frame>): State
    requires k.waiter.Reaping?
  {
    k.(waiter := k.waiter.(frames := fs, resting := false))
  }

  function Rest(k: State): State
    requires k.waiter.Reaping?
  {
    k.(waiter := k.waiter.(resting := true))
  }

  /** free_joined after the scan: the closing check of cleanup_owned, user_destroy, and the slot is
      FREE; the outermost one ends proc_wait with its audit. */
  function FreeTop(k: State): (State, Outcome)
    requires k.waiter.Reaping? && k.waiter.frames != [] && TopFrame(k).owner < |k.slots|
    requires k.slots[TopFrame(k).owner].ctx.Some? && k.slots[TopFrame(k).owner].ctx.value < |k.ctxs|
  {
    var fs, o := k.waiter.frames, TopFrame(k).owner;
    if exists j :: 0 <= j < |k.slots| && ChildOf(k.slots[j], o) then (k, Panic)
    else if !Destroyable(k.ctxs[k.slots[o].ctx.value]) then (k, Panic)
    else if |fs| > 1 then (Stack(FreedState(k, o), Onto(fs[..|fs| - 1])), Done)
    else
      var k' := FreedState(k, o).(waiter := Idle);
      (k', if ProcCheck(k') then Status(k.waiter.status) else Panic)
  }

  /** What the waiting kernel does next when it has the processor. */
  function Resume(k: State): (State, Outcome)
    requires Inv(k) && k.waiter.Reaping?
  {
    var fs, f := k.waiter.frames, TopFrame(k);
    assert FrameOk(k.slots, f) && SlotOk(k, f.owner);
    if f.at == |k.slots| then FreeTop(k)
    else
      var s := k.slots[f.at];
      if !ChildOf(s, f.owner) then (Stack(k, Onto(fs)), Done)
      else if LiveState(s.state) then
        (Stack(k.(slots := k.slots[f.at := OrphanSlot(s)]), Onto(fs)), Done)
      else if !s.workerValid then (k, Panic)
      else if WorkerGone(k, f.at) then (Stack(AfterJoin(k, f.at), fs + [Frame(f.at, 0)]), Done)
      else (Rest(k), Yields)
  }

  // ----- Steps -----

  datatype Step =
    | DoSpawnImage(nargs: nat, stdin: Pipe.StdinSel, owner: int, ienv: ImageEnv)
    | DoSpawnPipe(req: PipeReq, penv: PipeEnv)
    | DoEnter(i: nat)
    | DoTrap(i: nat)
    | DoGate(i: nat, life: Life, a: nat, b: nat)
    | DoTurn(i: nat)
    | DoTerminate(h: nat, towner: int, tself: int)
    | DoWait(h: nat, wowner: int, wself: int)
    | DoResume
    | DoWrite(i: nat, src: seq<Pipe.Byte>, copied: bool)
    | DoRead(i: nat, len: nat, destOk: bool, copied: bool)

  predicate AtPhase(k: State, i: nat, ph: Phase)
    requires Inv(k)
  {
    IsLive(k, i) && (assert SlotOk(k, i); PhaseOf(k, i) == ph)
  }

  /** A call that the kernel makes for itself. */
  predicate KernelCall(s: Step) {
    match s
    case DoSpawnImage(_, _, owner, _) => owner == KERNEL_OWNER
    case DoSpawnPipe(req, _) => req.owner == KERNEL_OWNER
    case DoTerminate(_, _, self) => self < 0
    case DoWait(_, _, self) => self < 0
    case _ => false
  }

  /** Whose turn it is: the kernel's reap runs on until it yields; from then until it has the
      processor again the processes run, and the kernel makes no other call. */
  predicate Scheduled(k: State, s: Step) {
    match k.waiter
    case Idle => !s.DoResume?
    case Reaping(_, _, _, resting) => s.DoResume? || (resting && !KernelCall(s))
  }

  /** Which steps can happen: spawn, wait and terminate at any time by any caller; the others when
      the slot's worker is at the right place. */
  predicate Enabled(k: State, s: Step)
    requires Inv(k)
  {
    && Scheduled(k, s)
    && match s
       case DoEnter(i) => AtPhase(k, i, Fresh)
       case DoTrap(i) => AtPhase(k, i, InUser)
       case DoGate(i, life, a, b) => AtPhase(k, i, InUser) && (life == Exited || life == Faulted)
       case DoTurn(i) => AtPhase(k, i, Parked(RunExited)) || AtPhase(k, i, Parked(RunFaulted)) || AtPhase(k, i, Parked(RunOther))
       case DoWait(_, owner, self) => self < 0 ==> owner == KERNEL_OWNER
       case DoWrite(i, _, _) => AtPhase(k, i, InUser) && k.slots[i].stdout == Pipe.StdoutPipe
       case DoRead(i, _, _, _) => AtPhase(k, i, InUser) && k.slots[i].stdin == Pipe.StdinPipe
       case _ => true
  }

  function Do(k: State, s: Step): (State, Outcome)
    requires Inv(k) && Enabled(k, s)
  {
    match s
    case DoSpawnImage(nargs, stdin, owner, env) => SpawnImage(k, nargs, stdin, owner, env)
    case DoSpawnPipe(req, env) => SpawnPipe(k, req, env)
    case DoEnter(i) => assert SlotOk(k, i); Enter(k, i)
    case DoTrap(i) => assert SlotOk(k, i); (Trap(k, i), Done)
    case DoGate(i, life, a, b) => assert SlotOk(k, i); GateTerminal(k, i, life, a, b)
    case DoTurn(i) => assert SlotOk(k, i); WorkerTurn(k, i)
    case DoTerminate(h, owner, self) => Terminate(k, h, owner, self)
    case DoWait(h, owner, self) => Wait(k, h, owner, self)
    case DoResume => Resume(k)
    case DoWrite(i, src, copied) => WriteOut(k, i, src, copied)
    case DoRead(i, len, destOk, copied) => ReadIn(k, i, len, destOk, copied)
  }
}

/** The process table and the scheduler together: the running thread decides who may act, and no act
    brings the two apart. */
module Fairness {
  import opened Options
  import Pipe
  import opened Kernel
  import opened KernelInv
  import opened Reap
  import opened Machine
  import opened MachineInv
  import opened WorkerThreads
  import Runs
  import S = Scheduler

  datatype World = World(k: State, s: S.Sched)

  /** Both parts are sound, every worker is a thread, and while the kernel's reap is on the processor
      the bootstrap thread runs. */
  ghost predicate Linked(w: World) {
    && Inv(w.k) && Tied(w.k.workers, w.s)
    && w.s.nextId == w.k.nextId && |w.s.threads| == w.k.threadCap + 1
    && (w.k.waiter.Reaping? && !w.k.waiter.resting ==> w.s.current == 0)
  }

  /** At boot, with a thread for every worker the table allows and the bootstrap thread. */
  lemma BootLinked(n: nat, contexts: nat, threadCap: nat, pipeCap: nat)
    ensures Linked(World(Runs.Boot(n, contexts, threadCap, pipeCap), S.Boot(threadCap + 1)))
  {
    Runs.BootInv(n, contexts, threadCap, pipeCap);
    S.BootOk(threadCap + 1);
  }

  // ----- Acts -----

  predicate OwnStep(s: Step) {
    s.DoEnter? || s.DoTrap? || s.DoGate? || s.DoTurn?
  }

  /** A system call of process `i`. */
  predicate UserCall(i: nat, s: Step) {
    match s
    case DoSpawnImage(_, _, owner, _) => owner == i
    case DoSpawnPipe(req, _) => req.owner == i
    case DoTerminate(_, owner, self) => owner == self == i
    case DoWait(_, owner, self) => owner == self == i
    case DoWrite(j, _, _) => j == i
    case DoRead(j, _, _, _) => j == i
    case _ => false
  }

  /** The running thread acts: the bootstrap thread makes a call, goes on with its reap or gives up
      the processor; a worker makes a system call, which ends with a selection, or takes a step of
      its own. */
  datatype Act = Calls(step: Step) | Yield | Asks(i: nat, step: Step) | Steps(step: Step)

  predicate OnCpu(w: World, i: nat) {
    && IsLive(w.k, i) && w.s.current < |w.s.threads|
    && w.s.threads[w.s.current].id == w.k.slots[i].worker
  }

  ghost predicate Can(w: World, a: Act)
    requires Linked(w)
  {
    match a
    case Calls(step) => w.s.current == 0 && (KernelCall(step) || step.DoResume?) && Enabled(w.k, step)
    case Yield => w.s.current == 0 && (w.k.waiter.Idle? || w.k.waiter.resting)
    case Asks(i, step) => OnCpu(w, i) && AtPhase(w.k, i, InUser) && UserCall(i, step) && Enabled(w.k, step)
    case Steps(step) => OwnStep(step) && OnCpu(w, step.i) && Enabled(w.k, step)
  }

  /** What the scheduler does when the running worker comes to `ph`: a parked one makes room for the
      next thread, a finished one exits. */
  function Dispatch(s: S.Sched, ph: Phase): Option<S.Sched>
    requires s.current < |s.threads|
  {
    match ph
    case Parked(_) => Some(S.Switch(s, true))
    case Gone => S.Exit(s)
    case _ => Some(s)
  }

  ghost function After(w: World, a: Act): (World, Outcome)
    requires Linked(w) && Can(w, a)
  {
    match a
    case Calls(step) =>
      var (k', out) := Do(w.k, step);
      (World(k', Adjust(w.s, w.k, k')), out)
    case Yield => (World(w.k, S.Switch(w.s, true)), Done)
    case Asks(i, step) =>
      var (k', out) := Do(w.k, step);
      if out == Panic || !Seated(k', i) then (w, Panic)
      else (World(Trap(k', i), S.Switch(Adjust(w.s, w.k, k'), true)), out)
    case Steps(step) =>
      assert SlotOk(w.k, step.i);
      var (k', out) := Do(w.k, step);
      match Dispatch(w.s, NextPhase(w.k, step))
      case None => (w, Panic)
      case Some(s') => (World(k', s'), out)
  }

  ghost predicate HaltsHere(w: World, a: Act)
    requires OwnersOk(w.k.slots)
  {
    match a
    case Calls(step) => Halts(w.k, step)
    case Asks(_, step) => Halts(w.k, step)
    case _ => false
  }

  // ----- Every act keeps the two parts together -----

  lemma CallKeeps(w: World, step: Step)
    requires Linked(w) && NoWrap(w.k) && Enabled(w.k, step) && !OwnStep(step) && Do(w.k, step).1 != Panic
    ensures var k' := Do(w.k, step).0;
            && Inv(k') && Tied(k'.workers, Adjust(w.s, w.k, k')) && Adjust(w.s, w.k, k').nextId == k'.nextId
            && k'.threadCap == w.k.threadCap && Starts(w.k, k')
  {
    OnlyHalts(w.k, step);
    CallStarts(w.k, step);
    AdjustTied(w.k, Do(w.k, step).0, w.s);
  }

  lemma OnCpuIsWorker(w: World, i: nat)
    requires Linked(w) && OnCpu(w, i)
    ensures w.s.current != 0 && SlotOk(w.k, i) && w.k.slots[i].worker in w.k.workers
    ensures w.s.threads[w.s.current].state == S.Running
  {
    assert SlotOk(w.k, i);
    assert S.ThreadOk(w.s, w.s.current);
  }

  lemma DispatchTied(workers: map<nat, Worker>, s: S.Sched, slot: nat, ph: Phase)
    requires Tied(workers, s) && s.current != 0 && (ph == InUser || ph.Parked? || ph == Gone)
    ensures Dispatch(s, ph).Some?
    ensures var s' := Dispatch(s, ph).value;
            && Tied(workers[s.threads[s.current].id := Worker(slot, ph)], s')
            && s'.nextId == s.nextId && |s'.threads| == |s.threads|
  {
    if ph == Gone {
      ExitTied(workers, s, slot);
    } else {
      PhaseTied(workers, s, slot, ph);
      if ph.Parked? {
        SwitchTied(workers[s.threads[s.current].id := Worker(slot, ph)], s);
      }
    }
  }

  lemma StepLinked(w: World, i: nat, ph: Phase, k': State, s': S.Sched)
    requires Linked(w) && w.s.current != 0 && Inv(k') && i < |w.k.slots| && MovesTo(w.k, k', i, ph)
    requires Tied(k'.workers, s') && s'.nextId == w.s.nextId && |s'.threads| == |w.s.threads|
    ensures Linked(World(k', s'))
  {
  }

  lemma StepsAfter(w: World, step: Step)
    requires Linked(w) && Can(w, Steps(step)) && Seated(w.k, step.i) && Dispatch(w.s, NextPhase(w.k, step)).Some?
    ensures After(w, Steps(step)) == (World(Do(w.k, step).0, Dispatch(w.s, NextPhase(w.k, step)).value), Do(w.k, step).1)
  {
  }

  lemma StepsKeep(w: World, step: Step)
    requires Linked(w) && NoWrap(w.k) && Can(w, Steps(step))
    ensures After(w, Steps(step)).1 != Panic && Linked(After(w, Steps(step)).0)
    ensures After(w, Steps(step)).0.k == Do(w.k, step).0
    ensures Seated(w.k, step.i) && Dispatch(w.s, NextPhase(w.k, step)) == Some(After(w, Steps(step)).0.s)
  {
    OnCpuIsWorker(w, step.i);
    OthersKeep(w.k, step);
    OwnStepMoves(w.k, step);
    DispatchTied(w.k.workers, w.s, step.i, NextPhase(w.k, step));
    StepsAfter(w, step);
    StepLinked(w, step.i, NextPhase(w.k, step), Do(w.k, step).0, Dispatch(w.s, NextPhase(w.k, step)).value);
  }

  lemma SpawnImageWaiter(k: State, nargs: nat, stdin: Pipe.StdinSel, owner: int, env: ImageEnv)
    ensures SpawnImage(k, nargs, stdin, owner, env).0.waiter == k.waiter
  {
  }

  lemma SpawnPipeWaiter(k: State, req: PipeReq, env: PipeEnv)
    ensures SpawnPipe(k, req, env).0.waiter == k.waiter
  {
  }

  lemma WaitWaiter(k: State, h: nat, i: nat)
    requires TableInv(k)
    ensures Wait(k, h, i, i).0.waiter == k.waiter
  {
    if Takes(k, h, i, i) {
      WaitTakes(k, h, i, i);
    } else {
      WaitLeaves(k, h, i, i);
    }
  }

  lemma UserCallWaiter(k: State, i: nat, s: Step)
    requires Inv(k) && Enabled(k, s) && UserCall(i, s)
    ensures Do(k, s).0.waiter == k.waiter
  {
    if s.DoSpawnImage? {
      SpawnImageWaiter(k, s.nargs, s.stdin, s.owner, s.ienv);
    } else if s.DoSpawnPipe? {
      SpawnPipeWaiter(k, s.req, s.penv);
    } else if s.DoWait? {
      WaitWaiter(k, s.h, i);
    } else if s.DoTerminate? {
      TerminateThreads(k, s.h, i, i);
    } else if s.DoWrite? {
      WriteThreads(k, i, s.src, s.copied);
    } else {
      ReadThreads(k, i, s.len, s.destOk, s.copied);
    }
  }

  /** Through a call, a worker that has not exited stays what it was. */
  lemma CallKeepsWorker(k: State, k': State, s: S.Sched, j: nat, i: nat)
    requires TableInv(k) && TableInv(k') && Starts(k, k') && Tied(k.workers, s) && s.nextId == k.nextId
    requires 1 <= j < |s.threads| && s.threads[j].state != S.Free && s.threads[j].state != S.Exited
    requires IsLive(k, i) && k.slots[i].worker == s.threads[j].id
    ensures IsLive(k', i) && k'.slots[i].worker == k.slots[i].worker
    ensures Seated(k, i) && Seated(k', i) && PhaseOf(k', i) == PhaseOf(k, i)
    ensures Adjust(s, k, k').threads[j] == s.threads[j]
  {
    StartsKeeps(k, k', s, j);
    assert SlotOk(k, i);
    assert k'.workers[k.slots[i].worker].slot == i;
    assert SlotOk(k', i);
  }

  lemma AskedLinked(w: World, i: nat, k': State)
    requires Linked(w) && OnCpu(w, i) && AtPhase(w.k, i, InUser) && (w.k.waiter.Idle? || w.k.waiter.resting)
    requires Inv(k') && Starts(w.k, k') && k'.waiter == w.k.waiter && k'.threadCap == w.k.threadCap
    requires Tied(k'.workers, Adjust(w.s, w.k, k')) && Adjust(w.s, w.k, k').nextId == k'.nextId
    ensures var w1 := World(k', Adjust(w.s, w.k, k'));
            && Linked(w1) && OnCpu(w1, i) && AtPhase(k', i, InUser)
            && w1.s.threads[w1.s.current] == w.s.threads[w.s.current]
  {
    OnCpuIsWorker(w, i);
    CallKeepsWorker(w.k, k', w.s, w.s.current, i);
  }

  /** A system call is the call itself followed by the worker's trap. */
  lemma AskSplits(w: World, i: nat, step: Step)
    requires Linked(w) && NoWrap(w.k) && Can(w, Asks(i, step)) && Do(w.k, step).1 != Panic
    ensures var k' := Do(w.k, step).0; var w1 := World(k', Adjust(w.s, w.k, k'));
            && Linked(w1) && Starts(w.k, k') && OnCpu(w1, i) && AtPhase(k', i, InUser)
            && (k'.waiter.Idle? || k'.waiter.resting)
            && w1.s.threads[w1.s.current] == w.s.threads[w.s.current]
  {
    CallKeeps(w, step);
    UserCallWaiter(w.k, i, step);
    AskedLinked(w, i, Do(w.k, step).0);
  }

  lemma TrapLinked(w: World, i: nat)
    requires Linked(w) && OnCpu(w, i) && AtPhase(w.k, i, InUser) && (w.k.waiter.Idle? || w.k.waiter.resting)
    ensures Seated(w.k, i) && Linked(World(Trap(w.k, i), S.Switch(w.s, true)))
  {
    OnCpuIsWorker(w, i);
    TrapKeeps(w.k, i);
    DispatchTied(w.k.workers, w.s, i, Parked(RunOther));
  }

  lemma AsksKeep(w: World, i: nat, step: Step)
    requires Linked(w) && NoWrap(w.k) && Can(w, Asks(i, step)) && Do(w.k, step).1 != Panic
    ensures After(w, Asks(i, step)).1 != Panic && Linked(After(w, Asks(i, step)).0)
  {
    var k' := Do(w.k, step).0;
    AskSplits(w, i, step);
    TrapLinked(World(k', Adjust(w.s, w.k, k')), i);
  }

  lemma YieldTied(w: World)
    requires Linked(w) && Can(w, Yield)
    ensures Linked(After(w, Yield).0)
  {
    SwitchTied(w.k.workers, w.s);
  }

  /** Together the two halt on nothing that the process table alone does not halt on, and stay
      together: the scheduler's own checks always pass. */
  lemma MoveKeeps(w: World, a: Act)
    requires Linked(w) && NoWrap(w.k) && Can(w, a)
    ensures OwnersOk(w.k.slots)
    ensures After(w, a).1 == Panic <==> HaltsHere(w, a)
    ensures After(w, a).1 != Panic ==> Linked(After(w, a).0)
  {
    InvIsReapInv(w.k);
    match a
    case Calls(step) =>
      OnlyHalts(w.k, step);
      if Do(w.k, step).1 != Panic {
        CallKeeps(w, step);
      }
    case Yield => YieldTied(w);
    case Asks(i, step) =>
      OnlyHalts(w.k, step);
      if Do(w.k, step).1 != Panic {
        AsksKeep(w, i, step);
      }
    case Steps(step) => StepsKeep(w, step);
  }

  /** After thread_join of `ids`, thread_yield on a gate's exit stack leaves threads that `e` refuses. */
  predicate GateYieldHalts(s: S.Sched, ids: seq<nat>, e: S.Event) {
    match JoinEach(s, ids)
    case None => false
    case Some(s1) =>
      s1.current < |s1.threads| &&
      match S.Step(s1, S.GateYields)
      case None => false
      case Some(s2) => s2.current < |s2.threads| && S.Step(s2, e) == None
  }

  /** The wait of a process that would reap a descendant whose worker has not exited: whichever exited
      threads it has joined by then, its yield on the gate's exit stack leaves threads that every
      entry point of the scheduler refuses. */
  lemma ProcessWaitFailsCheck(w: World, i: nat, h: nat, ids: seq<nat>, e: S.Event)
    requires Linked(w) && NoWrap(w.k) && Can(w, Asks(i, DoWait(h, i, i)))
    requires OwnersOk(w.k.slots) && Takes(w.k, h, i, i) && !Settled(w.k, Decode(w.k, h).value)
    requires Distinct(ids) && AllExited(w.s, ids)
    ensures After(w, Asks(i, DoWait(h, i, i))).1 == Panic && GateYieldHalts(w.s, ids, e)
  {
    OnCpuIsWorker(w, i);
    MoveKeeps(w, Asks(i, DoWait(h, i, i)));
    SweepIsJoins(w.s, ids);
    S.GateYieldFailsCheck(Sweep(w.s, Elements(ids)), e);
  }
}

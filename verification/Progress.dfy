/** A process that is killed, exits or faults is gone after a bounded number of selections. */
module Progress {
  import opened Options
  import Pipe
  import opened Kernel
  import opened KernelInv
  import opened Reap
  import opened Machine
  import opened MachineInv
  import opened WorkerThreads
  import opened Fairness
  import Runs
  import S = Scheduler

  // ----- The incarnation stays -----

  predicate KeepsGen(k: State, k': State, i: nat) {
    i < |k.slots| && i < |k'.slots| && k'.slots[i].gen == k.slots[i].gen
  }

  lemma ReapedGen(k: State, r: nat, i: nat)
    requires ReapInv(k) && r < |k.slots| && WorkerGone(k, r) && Settled(k, r)
    requires i < |k.slots| && !WorkerGone(k, i)
    ensures KeepsGen(k, Reaped(k, r), i)
  {
    assert !InTree(k.slots, r, i);
  }

  lemma WaitGen(k: State, h: nat, owner: int, self: int, i: nat)
    requires TableInv(k) && i < |k.slots| && !WorkerGone(k, i)
    ensures KeepsGen(k, Wait(k, h, owner, self).0, i)
  {
    if Takes(k, h, owner, self) {
      WaitTakes(k, h, owner, self);
      InvIsReapInv(k);
      if Settled(k, Decode(k, h).value) {
        ReapedGen(k, Decode(k, h).value, i);
      }
    } else {
      WaitLeaves(k, h, owner, self);
    }
  }

  /** The slots keep their generations, all but possibly the FREE ones. */
  predicate SameGens(k: State, k': State) {
    && |k'.slots| == |k.slots|
    && forall i :: 0 <= i < |k.slots| && k.slots[i].state != Free ==> k'.slots[i].gen == k.slots[i].gen
  }

  lemma FreeTopGen(k: State, i: nat)
    requires Inv(k) && k.waiter.Reaping? && IsLive(k, i) && k.slots[i].workerValid && TopFrame(k).at == |k.slots|
    ensures KeepsGen(k, Resume(k).0, i)
  {
    var f := TopFrame(k);
    assert FrameOk(k.slots, f) && SlotOk(k, f.owner);
    assert InFrames(k.waiter.frames, f.owner);
  }

  lemma ResumeGen(k: State, i: nat)
    requires Inv(k) && k.waiter.Reaping? && IsLive(k, i) && k.slots[i].workerValid
    ensures KeepsGen(k, Resume(k).0, i)
  {
    assert FrameOk(k.slots, TopFrame(k));
    if TopFrame(k).at == |k.slots| {
      FreeTopGen(k, i);
    }
  }

  lemma SpawnImageGens(k: State, nargs: nat, stdin: Pipe.StdinSel, owner: int, env: ImageEnv)
    ensures SameGens(k, SpawnImage(k, nargs, stdin, owner, env).0)
  {
  }

  lemma SpawnPipeGens(k: State, req: PipeReq, env: PipeEnv)
    ensures SameGens(k, SpawnPipe(k, req, env).0)
  {
  }

  lemma TerminateGens(k: State, h: nat, owner: int, self: int)
    ensures SameGens(k, Terminate(k, h, owner, self).0)
  {
  }

  lemma TransferGens(k: State, s: Step)
    requires (s.DoWrite? || s.DoRead?) && s.i < |k.slots|
    ensures s.DoWrite? ==> SameGens(k, WriteOut(k, s.i, s.src, s.copied).0)
    ensures s.DoRead? ==> SameGens(k, ReadIn(k, s.i, s.len, s.destOk, s.copied).0)
  {
  }

  lemma CallGens(k: State, s: Step)
    requires Inv(k) && Enabled(k, s) && !OwnStep(s) && !s.DoWait? && !s.DoResume?
    ensures SameGens(k, Do(k, s).0)
  {
    match s
    case DoSpawnImage(nargs, stdin, owner, env) => SpawnImageGens(k, nargs, stdin, owner, env);
    case DoSpawnPipe(req, env) => SpawnPipeGens(k, req, env);
    case DoTerminate(h, owner, self) => TerminateGens(k, h, owner, self);
    case _ => TransferGens(k, s);
  }

  /** No call frees a slot whose worker has not exited. */
  lemma CallGen(k: State, s: Step, i: nat)
    requires Inv(k) && Enabled(k, s) && !OwnStep(s)
    requires IsLive(k, i) && k.slots[i].workerValid && !WorkerGone(k, i)
    ensures KeepsGen(k, Do(k, s).0, i)
  {
    if s.DoWait? {
      WaitGen(k, s.h, s.wowner, s.wself, i);
    } else if s.DoResume? {
      ResumeGen(k, i);
    } else {
      CallGens(k, s);
    }
  }

  lemma GateGens(k: State, i: nat, life: Life, a: nat, b: nat)
    requires Seated(k, i) && (life == Exited || life == Faulted)
    ensures SameGens(k, GateTerminal(k, i, life, a, b).0)
  {
  }

  lemma FinishGens(k: State, i: nat, s: Slot, c: Ctx)
    requires Seated(k, i) && s.gen == k.slots[i].gen
    ensures SameGens(k, Finish(k, i, s, c).0)
  {
  }

  lemma TurnGens(k: State, i: nat)
    requires Seated(k, i)
    ensures SameGens(k, WorkerTurn(k, i).0)
  {
    var s, c := k.slots[i], CtxOf(k, i);
    match PhaseOf(k, i)
    case Parked(RunExited) => FinishGens(k, i, s.(state := Exited, exitCode := c.exitCode), c);
    case Parked(RunFaulted) => FinishGens(k, i, s.(state := Faulted, faultVector := c.faultVector, faultError := c.faultError), c);
    case _ => FinishGens(k, i, s.(state := Aborted), c.(state := UAborted));
  }

  lemma OwnGens(k: State, s: Step)
    requires Inv(k) && Enabled(k, s) && OwnStep(s)
    ensures SameGens(k, Do(k, s).0)
  {
    assert SlotOk(k, s.i);
    if s.DoGate? {
      GateGens(k, s.i, s.life, s.a, s.b);
    } else if s.DoTurn? {
      TurnGens(k, s.i);
    }
  }

  // ----- How far a process is from being gone -----

  predicate Doomed(s: Slot) {
    s.killRequested || Terminal(s.state)
  }

  /** Thread `j` is the worker of process `i`, has not exited, and the process is killed or over. */
  predicate Leaving(w: World, j: nat, i: nat) {
    && 1 <= j < |w.s.threads| && w.s.threads[j].state != S.Free && w.s.threads[j].state != S.Exited
    && IsLive(w.k, i) && w.k.slots[i].worker == w.s.threads[j].id
    && Doomed(w.k.slots[i])
  }

  function Gap(s: S.Sched, j: nat): nat
    requires s.current < |s.threads| && j < |s.threads|
  {
    if s.current == j then 0 else S.Distance(s, j)
  }

  /** Selections that a leaving process needs at most: from user mode one to be parked, then as many
      as threads lie before it, then its own exit. */
  function Bound(ph: Phase, gap: nat, n: nat): nat {
    match ph
    case Fresh => gap + n + 2
    case InUser => n + 2
    case Parked(_) => gap + 1
    case _ => 0
  }

  ghost function Left(w: World, j: nat, i: nat): nat
    requires Linked(w) && Leaving(w, j, i)
  {
    assert SlotOk(w.k, i);
    Bound(PhaseOf(w.k, i), Gap(w.s, j), |w.s.threads|)
  }

  /** The act ends with a selection. */
  ghost predicate Selects(w: World, a: Act)
    requires Linked(w) && Can(w, a)
  {
    match a
    case Calls(_) => false
    case Yield => true
    case Asks(_, _) => true
    case Steps(step) => assert SlotOk(w.k, step.i); NextPhase(w.k, step) != InUser
  }

  lemma SwitchCloser(s: S.Sched, j: nat)
    requires S.Ok(s) && 0 < s.nextId && j < |s.threads| && s.threads[j].state == S.Ready
    ensures var s' := S.Switch(s, true);
            && s'.current < |s'.threads| == |s.threads| && Gap(s', j) + 1 <= Gap(s, j)
            && s'.threads[j].id == s.threads[j].id && (s'.threads[j].state == S.Ready || s'.threads[j].state == S.Running)
  {
    assert S.ThreadOk(s, j);
    S.HaltsExactly(s, S.Switches);
    S.SelectionComesCloser(s, S.Switches, S.Switch(s, true), j);
  }

  lemma ExitCloser(s: S.Sched, j: nat)
    requires S.Ok(s) && 0 < s.nextId && j < |s.threads| && s.threads[j].state == S.Ready && s.current != 0
    ensures S.Exit(s).Some?
    ensures var s' := S.Exit(s).value;
            && s'.current < |s'.threads| == |s.threads| && Gap(s', j) + 1 <= Gap(s, j)
            && s'.threads[j].id == s.threads[j].id && (s'.threads[j].state == S.Ready || s'.threads[j].state == S.Running)
  {
    assert S.ThreadOk(s, j);
    S.HaltsExactly(s, S.Exits);
    S.SelectionComesCloser(s, S.Exits, S.Exit(s).value, j);
  }

  /** A leaving thread that does not run waits for its turn. */
  lemma LeavingWaits(w: World, j: nat, i: nat)
    requires Linked(w) && Leaving(w, j, i)
    ensures SlotOk(w.k, i) && PhaseOf(w.k, i) != Gone && PhaseOf(w.k, i) != Joined && w.k.slots[i].workerValid
    ensures w.s.current != j ==> w.s.threads[j].state == S.Ready && PhaseOf(w.k, i) != InUser
  {
    assert SlotOk(w.k, i);
    assert S.ThreadOk(w.s, j);
    assert ThreadTied(w.k.workers, w.s.threads[j]);
  }

  // ----- Every act brings a leaving process nearer to its end -----

  /** From `w` to `w'` the incarnation stays, and either its worker has exited or it has `c` fewer
      selections left at most. */
  ghost predicate Falls(w: World, w': World, j: nat, i: nat, c: nat)
    requires Linked(w) && Linked(w') && Leaving(w, j, i)
  {
    && IsLive(w'.k, i) && w'.k.slots[i].gen == w.k.slots[i].gen
    && (WorkerGone(w'.k, i) || (Leaving(w', j, i) && Left(w', j, i) + c <= Left(w, j, i)))
  }

  lemma CallLeaving(w: World, k': State, j: nat, i: nat)
    requires Linked(w) && Leaving(w, j, i) && Inv(k') && Starts(w.k, k') && Linked(World(k', Adjust(w.s, w.k, k')))
    requires i < |k'.slots| && Runs.Onward(w.k.slots[i], k'.slots[i]) && k'.slots[i].gen == w.k.slots[i].gen
    ensures Leaving(World(k', Adjust(w.s, w.k, k')), j, i) && Falls(w, World(k', Adjust(w.s, w.k, k')), j, i, 0)
  {
    LeavingWaits(w, j, i);
    CallKeepsWorker(w.k, k', w.s, j, i);
  }

  lemma CallFalls(w: World, step: Step, j: nat, i: nat)
    requires Linked(w) && NoWrap(w.k) && Enabled(w.k, step) && !OwnStep(step) && Do(w.k, step).1 != Panic
    requires Leaving(w, j, i) && Linked(World(Do(w.k, step).0, Adjust(w.s, w.k, Do(w.k, step).0)))
    ensures Leaving(World(Do(w.k, step).0, Adjust(w.s, w.k, Do(w.k, step).0)), j, i)
    ensures Falls(w, World(Do(w.k, step).0, Adjust(w.s, w.k, Do(w.k, step).0)), j, i, 0)
  {
    LeavingWaits(w, j, i);
    CallStarts(w.k, step);
    CallGen(w.k, step, i);
    Runs.StepOnward(w.k, step);
    CallLeaving(w, Do(w.k, step).0, j, i);
  }

  lemma YieldFalls(w: World, j: nat, i: nat)
    requires Linked(w) && w.s.current == 0 && Leaving(w, j, i)
    requires Linked(World(w.k, S.Switch(w.s, true)))
    ensures Falls(w, World(w.k, S.Switch(w.s, true)), j, i, 1)
  {
    LeavingWaits(w, j, i);
    SwitchCloser(w.s, j);
  }

  /** The step of another worker. */
  lemma OtherFalls(w: World, w': World, ph: Phase, j: nat, i: nat)
    requires Linked(w) && Linked(w') && Leaving(w, j, i) && w.s.current != j && w.s.current != 0
    requires Dispatch(w.s, ph) == Some(w'.s)
    requires IsLive(w'.k, i) && w'.k.slots[i].worker == w.k.slots[i].worker && Doomed(w'.k.slots[i])
    requires w'.k.slots[i].gen == w.k.slots[i].gen
    requires w.k.slots[i].worker in w.k.workers && w.k.slots[i].worker in w'.k.workers
    requires w'.k.workers[w.k.slots[i].worker] == w.k.workers[w.k.slots[i].worker]
    ensures Falls(w, w', j, i, if ph.Parked? || ph == Gone then 1 else 0)
  {
    LeavingWaits(w, j, i);
    if ph.Parked? {
      SwitchCloser(w.s, j);
    } else if ph == Gone {
      ExitCloser(w.s, j);
    }
  }

  lemma DispatchKeepsThread(s: S.Sched, ph: Phase)
    requires S.Ok(s) && (ph == InUser || ph.Parked?)
    ensures Dispatch(s, ph).Some?
    ensures var s' := Dispatch(s, ph).value;
            && s'.current < |s'.threads| == |s.threads| && s'.threads[s.current].id == s.threads[s.current].id
            && s'.threads[s.current].state != S.Free && s'.threads[s.current].state != S.Exited
  {
    assert S.ThreadOk(s, s.current);
  }

  /** Its own step: entering, being parked, or its last turn. */
  lemma RunningFalls(w: World, w': World, ph: Phase, i: nat)
    requires Linked(w) && Linked(w') && Leaving(w, w.s.current, i)
    requires Dispatch(w.s, ph) == Some(w'.s)
    requires IsLive(w'.k, i) && w'.k.slots[i].worker == w.k.slots[i].worker && Doomed(w'.k.slots[i])
    requires w'.k.slots[i].gen == w.k.slots[i].gen
    requires Seated(w.k, i) && w'.k.workers == w.k.workers[w.k.slots[i].worker := Worker(i, ph)]
    requires match PhaseOf(w.k, i) case Fresh => ph == InUser case InUser => ph.Parked? case _ => ph == Gone
    ensures Falls(w, w', w.s.current, i, if ph.Parked? || ph == Gone then 1 else 0)
  {
    LeavingWaits(w, w.s.current, i);
    if ph != Gone {
      DispatchKeepsThread(w.s, ph);
    }
  }

  /** The running thread is `j` exactly when the step is that of process `i`. */
  lemma WhoseStep(w: World, step: Step, j: nat, i: nat)
    requires Linked(w) && Leaving(w, j, i) && OwnStep(step) && OnCpu(w, step.i)
    ensures w.s.current == j <==> step.i == i
    ensures w.s.current == j <==> w.k.slots[step.i].worker == w.k.slots[i].worker
  {
    OnCpuIsWorker(w, step.i);
    LeavingWaits(w, j, i);
    assert S.ThreadOk(w.s, j) && S.ThreadOk(w.s, w.s.current);
  }

  lemma StepKeepsDoomed(k: State, step: Step, i: nat)
    requires Inv(k) && NoWrap(k) && Enabled(k, step) && OwnStep(step) && IsLive(k, i) && Doomed(k.slots[i])
    ensures IsLive(Do(k, step).0, i) && Doomed(Do(k, step).0.slots[i])
    ensures Do(k, step).0.slots[i].gen == k.slots[i].gen && Do(k, step).0.slots[i].worker == k.slots[i].worker
  {
    OwnGens(k, step);
    Runs.StepOnward(k, step);
    assert Runs.Onward(k.slots[i], Do(k, step).0.slots[i]);
  }

  /** Where a doomed process's own step leads. */
  lemma DoomedPhase(k: State, step: Step)
    requires Inv(k) && Enabled(k, step) && OwnStep(step) && Doomed(k.slots[step.i])
    ensures Seated(k, step.i)
    ensures var ph := NextPhase(k, step);
            match PhaseOf(k, step.i) case Fresh => ph == InUser case InUser => ph.Parked? case _ => ph == Gone
  {
    assert SlotOk(k, step.i);
  }

  /** What a worker's own step does to a doomed process, its own or another. */
  ghost predicate StepsTo(w: World, step: Step, w': World, i: nat) {
    && OwnStep(step) && Seated(w.k, step.i) && IsLive(w.k, i)
    && w.s.current < |w.s.threads| && Dispatch(w.s, NextPhase(w.k, step)) == Some(w'.s)
    && w'.k.workers == w.k.workers[w.k.slots[step.i].worker := Worker(step.i, NextPhase(w.k, step))]
    && IsLive(w'.k, i) && Doomed(w'.k.slots[i])
    && w'.k.slots[i].gen == w.k.slots[i].gen && w'.k.slots[i].worker == w.k.slots[i].worker
  }

  lemma StepsLead(w: World, step: Step, i: nat)
    requires Linked(w) && NoWrap(w.k) && Can(w, Steps(step)) && IsLive(w.k, i) && Doomed(w.k.slots[i])
    ensures Linked(After(w, Steps(step)).0) && StepsTo(w, step, After(w, Steps(step)).0, i)
  {
    StepsKeep(w, step);
    StepKeepsDoomed(w.k, step, i);
    OwnStepMoves(w.k, step);
  }

  lemma StepsToFalls(w: World, step: Step, w': World, j: nat, i: nat)
    requires Linked(w) && Linked(w') && Can(w, Steps(step)) && Leaving(w, j, i) && StepsTo(w, step, w', i)
    ensures Falls(w, w', j, i, if NextPhase(w.k, step) != InUser then 1 else 0)
  {
    WhoseStep(w, step, j, i);
    LeavingWaits(w, j, i);
    if step.i == i {
      DoomedPhase(w.k, step);
      RunningFalls(w, w', NextPhase(w.k, step), i);
    } else {
      OtherFalls(w, w', NextPhase(w.k, step), j, i);
    }
  }

  lemma StepsFall(w: World, step: Step, j: nat, i: nat)
    requires Linked(w) && NoWrap(w.k) && Can(w, Steps(step)) && Leaving(w, j, i)
    ensures Linked(After(w, Steps(step)).0)
    ensures Falls(w, After(w, Steps(step)).0, j, i, if Selects(w, Steps(step)) then 1 else 0)
  {
    StepsLead(w, step, i);
    StepsToFalls(w, step, After(w, Steps(step)).0, j, i);
  }

  /** The world after the call of a system call, before its trap. */
  ghost function Called(w: World, step: Step): World
    requires Linked(w) && Enabled(w.k, step)
  {
    World(Do(w.k, step).0, Adjust(w.s, w.k, Do(w.k, step).0))
  }

  lemma CanTrap(w: World, a: nat)
    requires Linked(w) && OnCpu(w, a) && AtPhase(w.k, a, InUser) && (w.k.waiter.Idle? || w.k.waiter.resting)
    ensures Can(w, Steps(DoTrap(a))) && Selects(w, Steps(DoTrap(a)))
  {
    assert SlotOk(w.k, a);
  }

  lemma CalledCanTrap(w: World, a: nat, step: Step)
    requires Linked(w) && NoWrap(w.k) && Can(w, Asks(a, step)) && Do(w.k, step).1 != Panic
    ensures Linked(Called(w, step)) && Can(Called(w, step), Steps(DoTrap(a)))
    ensures !OwnStep(step) && Selects(Called(w, step), Steps(DoTrap(a)))
  {
    AskSplits(w, a, step);
    CanTrap(Called(w, step), a);
  }

  lemma TrapAfter(w: World, a: nat)
    requires Linked(w) && Can(w, Steps(DoTrap(a)))
    ensures Seated(w.k, a) && After(w, Steps(DoTrap(a))).0 == World(Trap(w.k, a), S.Switch(w.s, true))
  {
    assert SlotOk(w.k, a);
  }

  lemma AskIsCallThenTrap(w: World, a: nat, step: Step)
    requires Linked(w) && Can(w, Asks(a, step)) && After(w, Asks(a, step)).1 != Panic
    requires Linked(Called(w, step)) && Can(Called(w, step), Steps(DoTrap(a)))
    ensures After(w, Asks(a, step)).0 == After(Called(w, step), Steps(DoTrap(a))).0
    ensures After(w, Asks(a, step)).0.k.slots == Called(w, step).k.slots
  {
    TrapAfter(Called(w, step), a);
  }

  lemma ThenTrapFalls(w: World, w1: World, w2: World, a: nat, j: nat, i: nat)
    requires Linked(w) && Leaving(w, j, i) && Linked(w1) && Leaving(w1, j, i) && Falls(w, w1, j, i, 0)
    requires NoWrap(w2.k) && w2.k.slots == w1.k.slots && Can(w1, Steps(DoTrap(a))) && Selects(w1, Steps(DoTrap(a))) && w2 == After(w1, Steps(DoTrap(a))).0
    ensures Linked(w2) && Falls(w, w2, j, i, 1)
  {
    LeavingWaits(w1, j, i);
    StepsFall(w1, DoTrap(a), j, i);
  }

  lemma AskCallFalls(w: World, a: nat, step: Step, j: nat, i: nat)
    requires Linked(w) && NoWrap(w.k) && Can(w, Asks(a, step)) && Leaving(w, j, i)
    requires Do(w.k, step).1 != Panic && !OwnStep(step) && Linked(Called(w, step))
    ensures Leaving(Called(w, step), j, i) && Falls(w, Called(w, step), j, i, 0)
  {
    CallFalls(w, step, j, i);
  }

  lemma AsksFall(w: World, a: nat, step: Step, w2: World, j: nat, i: nat)
    requires Linked(w) && NoWrap(w.k) && Can(w, Asks(a, step)) && Leaving(w, j, i)
    requires After(w, Asks(a, step)).1 != Panic && After(w, Asks(a, step)).0 == w2 && NoWrap(w2.k)
    ensures Linked(w2) && Falls(w, w2, j, i, 1)
  {
    CalledCanTrap(w, a, step);
    AskIsCallThenTrap(w, a, step);
    AskCallFalls(w, a, step, j, i);
    ThenTrapFalls(w, Called(w, step), w2, a, j, i);
  }

  /** Every act keeps the incarnation, and a selection takes one off what it has left. */
  lemma MoveFalls(w: World, a: Act, j: nat, i: nat)
    requires Linked(w) && NoWrap(w.k) && Can(w, a) && Leaving(w, j, i)
    requires After(w, a).1 != Panic && NoWrap(After(w, a).0.k)
    ensures Linked(After(w, a).0) && Falls(w, After(w, a).0, j, i, if Selects(w, a) then 1 else 0)
  {
    MoveKeeps(w, a);
    match a
    case Calls(step) => CallFalls(w, step, j, i);
    case Yield => YieldFalls(w, j, i);
    case Asks(p, step) => AsksFall(w, p, step, After(w, a).0, j, i);
    case Steps(step) => StepsFall(w, step, j, i);
  }

  // ----- Whole runs -----

  ghost predicate Goes(w: World, a: Act, w': World) {
    Linked(w) ==> Can(w, a) && After(w, a).0 == w' && After(w, a).1 != Panic
  }

  /** A run of process table and scheduler together, up to an act that halts. */
  ghost predicate IsWorldRun(worlds: seq<World>, acts: seq<Act>) {
    && |worlds| == |acts| + 1
    && Linked(worlds[0])
    && (forall t :: 0 <= t < |worlds| ==> NoWrap(worlds[t].k))
    && (forall t :: 0 <= t < |acts| ==> Goes(worlds[t], acts[t], worlds[t + 1]))
  }

  lemma {:induction false} RunLinked(worlds: seq<World>, acts: seq<Act>, t: nat)
    requires IsWorldRun(worlds, acts) && t < |worlds|
    ensures Linked(worlds[t])
    decreases t
  {
    if t > 0 {
      RunLinked(worlds, acts, t - 1);
      assert Goes(worlds[t - 1], acts[t - 1], worlds[t]);
      MoveKeeps(worlds[t - 1], acts[t - 1]);
    }
  }

  /** 1 for an act that ends with a selection. */
  ghost function Picks(w: World, a: Act): nat {
    if Linked(w) && Can(w, a) && Selects(w, a) then 1 else 0
  }

  /** How many of the acts from `t` to `u` ended with a selection. */
  ghost function Selections(worlds: seq<World>, acts: seq<Act>, t: nat, u: nat): nat
    requires t <= u <= |acts| < |worlds|
  {
    if t == u then 0 else Selections(worlds, acts, t, u - 1) + Picks(worlds[u - 1], acts[u - 1])
  }

  lemma SelectionsGrow(worlds: seq<World>, acts: seq<Act>, t: nat, v: nat, u: nat)
    requires t <= v < u == v + 1 <= |acts| < |worlds|
    ensures Selections(worlds, acts, t, u) == Selections(worlds, acts, t, v) + Picks(worlds[v], acts[v])
  {
  }

  // ----- Gone is for good -----

  predicate PastWork(ph: Phase) {
    ph == Gone || ph == Joined
  }

  /** The incarnation of slot `i` is over: its worker has exited or is joined, or the slot was recycled. */
  predicate Over(k: State, i: nat, gen: nat) {
    && i < |k.slots| && k.slots[i].gen >= gen
    && (k.slots[i].gen == gen ==> Seated(k, i) && PastWork(PhaseOf(k, i)))
  }

  lemma StartsKeepPast(k: State, k': State, w: nat)
    requires Starts(k, k') && w in k.workers && w < k.nextId && PastWork(k.workers[w].phase) && w in k'.workers
    ensures PastWork(k'.workers[w].phase)
  {
  }

  /** The same incarnation is over later if its worker is. */
  lemma OverLater(k: State, k': State, i: nat, gen: nat)
    requires Inv(k) && Inv(k') && Over(k, i, gen) && i < |k'.slots| && Runs.Onward(k.slots[i], k'.slots[i])
    requires k.slots[i].gen == gen ==>
               (k.slots[i].worker in k'.workers ==> PastWork(k'.workers[k.slots[i].worker].phase))
    ensures Over(k', i, gen)
  {
    assert SlotOk(k', i);
  }

  lemma StartsKeepOver(k: State, k': State, i: nat, gen: nat)
    requires Inv(k) && Inv(k') && Starts(k, k') && Over(k, i, gen)
    requires i < |k'.slots| && Runs.Onward(k.slots[i], k'.slots[i])
    ensures Over(k', i, gen)
  {
    assert SlotOk(k, i);
    var w := k.slots[i].worker;
    if k.slots[i].gen == gen && w in k'.workers {
      StartsKeepPast(k, k', w);
    }
    OverLater(k, k', i, gen);
  }

  lemma CallKeepsOver(w: World, step: Step, i: nat, gen: nat)
    requires Linked(w) && NoWrap(w.k) && Enabled(w.k, step) && !OwnStep(step) && Do(w.k, step).1 != Panic
    requires Over(w.k, i, gen)
    ensures Over(Do(w.k, step).0, i, gen)
  {
    CallKeeps(w, step);
    Runs.StepOnward(w.k, step);
    StartsKeepOver(w.k, Do(w.k, step).0, i, gen);
  }

  lemma OwnStepKeepsOver(k: State, step: Step, i: nat, gen: nat)
    requires Inv(k) && NoWrap(k) && Enabled(k, step) && OwnStep(step) && Over(k, i, gen)
    ensures Over(Do(k, step).0, i, gen)
  {
    OthersKeep(k, step);
    Runs.StepOnward(k, step);
    if k.slots[i].gen == gen {
      OwnStepKeepsPast(k, step, i);
    }
    OverLater(k, Do(k, step).0, i, gen);
  }

  lemma OwnStepKeepsPast(k: State, step: Step, i: nat)
    requires Inv(k) && NoWrap(k) && Enabled(k, step) && OwnStep(step) && Seated(k, i) && PastWork(PhaseOf(k, i))
    requires Do(k, step).1 != Panic
    ensures k.slots[i].worker in Do(k, step).0.workers
    ensures Do(k, step).0.workers[k.slots[i].worker] == k.workers[k.slots[i].worker]
  {
    assert SlotOk(k, step.i) && SlotOk(k, i);
    OwnStepMoves(k, step);
  }

  lemma MoveKeepsOver(w: World, a: Act, i: nat, gen: nat)
    requires Linked(w) && NoWrap(w.k) && Can(w, a) && After(w, a).1 != Panic && NoWrap(After(w, a).0.k)
    requires Over(w.k, i, gen)
    ensures Over(After(w, a).0.k, i, gen)
  {
    match a
    case Calls(step) => CallKeepsOver(w, step, i, gen);
    case Yield =>
    case Steps(step) => OwnStepKeepsOver(w.k, step, i, gen);
    case Asks(p, step) =>
      CalledCanTrap(w, p, step);
      AskIsCallThenTrap(w, p, step);
      CallKeepsOver(w, step, i, gen);
      OwnStepKeepsOver(Called(w, step).k, DoTrap(p), i, gen);
  }

  /** Once an incarnation is over, no wait on it answers that it runs. */
  lemma OverIsNotRunning(k: State, i: nat, gen: nat, h: nat, owner: int, self: int)
    requires Inv(k) && Over(k, i, gen) && k.slots[i].gen == gen && Decode(k, h) == Some(i)
    ensures Wait(k, h, owner, self).1 != Status(Running)
  {
    assert SlotOk(k, i);
  }

  // ----- The bound -----

  lemma LeavesOrIsOver(w: World, i: nat) returns (j: nat)
    requires Linked(w) && IsLive(w.k, i) && Doomed(w.k.slots[i])
    ensures Leaving(w, j, i) || Over(w.k, i, w.k.slots[i].gen)
  {
    j := 0;
    assert SlotOk(w.k, i);
    var id := w.k.slots[i].worker;
    if PhaseOf(w.k, i) != Gone && PhaseOf(w.k, i) != Joined {
      assert id in Threads(w.k.workers);
      j :| Holds(w.s, j, id);
      assert ThreadTied(w.k.workers, w.s.threads[j]);
    }
  }

  /** The incarnation is over, or its worker leaves within `b` selections. */
  ghost predicate Near(w: World, j: nat, i: nat, gen: nat, b: int)
    requires Linked(w)
  {
    Over(w.k, i, gen) || (Leaving(w, j, i) && w.k.slots[i].gen == gen && Left(w, j, i) <= b)
  }

  lemma FallsNear(w: World, w': World, j: nat, i: nat, c: nat, b: int)
    requires Linked(w) && Linked(w') && Leaving(w, j, i) && Left(w, j, i) <= b && Falls(w, w', j, i, c)
    ensures Near(w', j, i, w.k.slots[i].gen, b - c)
  {
    assert SlotOk(w'.k, i);
  }

  lemma GoNearer(w: World, a: Act, w': World, j: nat, i: nat, gen: nat, b: int)
    requires Linked(w) && NoWrap(w.k) && Goes(w, a, w') && NoWrap(w'.k) && Near(w, j, i, gen, b)
    ensures Linked(w') && Near(w', j, i, gen, b - Picks(w, a))
  {
    MoveKeeps(w, a);
    if Over(w.k, i, gen) {
      MoveKeepsOver(w, a, i, gen);
    } else {
      MoveFalls(w, a, j, i);
      FallsNear(w, w', j, i, if Selects(w, a) then 1 else 0, b);
    }
  }

  ghost predicate NearAt(w: World, j: nat, i: nat, gen: nat, b: int) {
    Linked(w) && Near(w, j, i, gen, b)
  }

  lemma RunGoesNearer(worlds: seq<World>, acts: seq<Act>, u: nat, j: nat, i: nat, gen: nat, b: int)
    requires IsWorldRun(worlds, acts) && u < |acts| && NearAt(worlds[u], j, i, gen, b)
    ensures NearAt(worlds[u + 1], j, i, gen, b - Picks(worlds[u], acts[u]))
  {
    assert Goes(worlds[u], acts[u], worlds[u + 1]);
    GoNearer(worlds[u], acts[u], worlds[u + 1], j, i, gen, b);
  }

  lemma {:induction false} RunNearer(worlds: seq<World>, acts: seq<Act>, t: nat, u: nat, j: nat, i: nat, gen: nat, b: int)
    requires IsWorldRun(worlds, acts) && t <= u <= |acts| && NearAt(worlds[t], j, i, gen, b)
    ensures NearAt(worlds[u], j, i, gen, b - Selections(worlds, acts, t, u))
    decreases u
  {
    if t < u {
      var v := u - 1;
      SelectionsGrow(worlds, acts, t, v, u);
      RunNearer(worlds, acts, t, v, j, i, gen, b);
      RunGoesNearer(worlds, acts, v, j, i, gen, b - Selections(worlds, acts, t, v));
    }
  }

  lemma DoomedIsNear(w: World, i: nat) returns (j: nat)
    requires Linked(w) && IsLive(w.k, i) && Doomed(w.k.slots[i])
    ensures NearAt(w, j, i, w.k.slots[i].gen, 2 * |w.s.threads| + 2)
  {
    j := LeavesOrIsOver(w, i);
  }

  lemma NearIsOver(w: World, j: nat, i: nat, gen: nat, b: int)
    requires NearAt(w, j, i, gen, b) && b < 0
    ensures Linked(w) && Over(w.k, i, gen)
  {
  }

  /** In every run of process table and scheduler: a process that has been killed, has exited or has
      faulted is over after at most twice as many selections as there are threads, and two more,
      whatever the other processes and the kernel do meanwhile; from then on no wait answers that
      it runs. */
  lemma DoomedIsSoonOver(worlds: seq<World>, acts: seq<Act>, t: nat, u: nat, i: nat)
    requires IsWorldRun(worlds, acts) && t <= u <= |acts|
    requires IsLive(worlds[t].k, i) && Doomed(worlds[t].k.slots[i])
    requires Selections(worlds, acts, t, u) > 2 * |worlds[t].s.threads| + 2
    ensures Linked(worlds[u]) && Over(worlds[u].k, i, worlds[t].k.slots[i].gen)
    ensures forall h, owner, self ::
              Decode(worlds[u].k, h) == Some(i) && worlds[u].k.slots[i].gen == worlds[t].k.slots[i].gen ==>
                Wait(worlds[u].k, h, owner, self).1 != Status(Running)
  {
    var gen, b := worlds[t].k.slots[i].gen, 2 * |worlds[t].s.threads| + 2;
    RunLinked(worlds, acts, t);
    var j := DoomedIsNear(worlds[t], i);
    RunNearer(worlds, acts, t, u, j, i, gen, b);
    NearIsOver(worlds[u], j, i, gen, b - Selections(worlds, acts, t, u));
    forall h, owner, self | Decode(worlds[u].k, h) == Some(i) && worlds[u].k.slots[i].gen == gen
      ensures Wait(worlds[u].k, h, owner, self).1 != Status(Running)
    {
      OverIsNotRunning(worlds[u].k, i, gen, h, owner, self);
    }
  }

  /** The join loop of a reap that has yielded gives up the processor at most as often as there are
      threads, and once more, before the worker it waits for has exited. */
  lemma JoinLoopConverges(worlds: seq<World>, acts: seq<Act>, t: nat, u: nat)
    requires IsWorldRun(worlds, acts) && t <= u <= |acts| && Stuck(worlds[t].k)
    requires var c := TopFrame(worlds[t].k).at; !Over(worlds[u].k, c, worlds[t].k.slots[c].gen)
    ensures Selections(worlds, acts, t, u) <= |worlds[t].s.threads| + 1
  {
    var w, c := worlds[t], TopFrame(worlds[t].k).at;
    RunLinked(worlds, acts, t);
    var j := LeavesOrIsOver(w, c);
    assert SlotOk(w.k, c);
    RunNearer(worlds, acts, t, u, j, c, w.k.slots[c].gen, |w.s.threads| + 1);
  }
}

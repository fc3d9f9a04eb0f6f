/** Small process tables under the scheduler, seat by seat, and the acts that lead from one to the next. */
module Seats {
  import opened Options
  import Pipe
  import opened Kernel
  import opened KernelInv
  import opened Machine
  import opened WorkerThreads
  import opened Fairness
  import Progress
  import Runs
  import S = Scheduler

  /** One process of a small table: slot `i` has context `i`, thread `i + 1` with id `i + 2`, and its
      first generation. */
  datatype Seat = Seat(owner: int, state: Life, ctx: Ctx, phase: Phase)

  const RUNNING_CTX := Ctx(UActive, true, true, 0, 0, 0)
  const EXITED_CTX := Ctx(UExited, true, true, 0, 0, 0)
  const SPAWN := ImageEnv(true, true, true, true)
  const UNUSED := Slot(Free, 1, KERNEL_OWNER, None, 0, false, false, Pipe.StdinClosed, Pipe.StdoutSerial, 0, 0, 0)

  function Spawned(owner: int): Seat { Seat(owner, Active, NEW_CTX, Fresh) }
  function Entered(owner: int): Seat { Seat(owner, Active, RUNNING_CTX, InUser) }
  function Paused(owner: int): Seat { Seat(owner, Active, RUNNING_CTX, Parked(RunOther)) }
  function Exiting(owner: int): Seat { Seat(owner, Exited, EXITED_CTX, Parked(RunExited)) }
  function Left(owner: int): Seat { Seat(owner, Exited, EXITED_CTX.(bound := false), Gone) }
  function Taken(owner: int): Seat { Left(owner).(phase := Joined) }

  function SlotOf(s: Seat, i: nat): Slot {
    Slot(s.state, 1, s.owner, Some(i), i + 2, s.phase != Joined, false, Pipe.StdinClosed, Pipe.StdoutSerial, 0, 0, 0)
  }

  /** Thread id `w` has gone to one of the first `n` seats. */
  predicate Given(w: nat, n: nat) { 2 <= w < n + 2 }

  /** `n` slots, the first of them taken by `ss`. */
  function Table(n: nat, ss: seq<Seat>, r: Waiter): State {
    Runs.Boot(n, n, n, 4096).(
      slots := seq(n, i requires 0 <= i < n => if i < |ss| then SlotOf(ss[i], i) else UNUSED),
      ctxs := seq(n, i requires 0 <= i < n => if i < |ss| then ss[i].ctx else NO_CTX),
      workers := map w | 2 <= w < |ss| + 2 && Given(w, |ss|) :: Worker(w - 2, ss[w - 2].phase),
      nextId := |ss| + 2, waiter := r)
  }

  function ThreadOf(s: Seat, j: nat, current: nat): S.Thread {
    if s.phase == Joined then S.NO_THREAD
    else S.Thread(j + 1, if j == current then S.Running else if s.phase == Gone then S.Exited else S.Ready, true)
  }

  function Sched(n: nat, ss: seq<Seat>, current: nat): S.Sched {
    S.Sched(seq(n + 1, j requires 0 <= j < n + 1 =>
              if j == 0 then S.Thread(1, if current == 0 then S.Running else S.Ready, true)
              else if j <= |ss| then ThreadOf(ss[j - 1], j, current) else S.NO_THREAD),
            current, |ss| + 2)
  }

  function Both(n: nat, ss: seq<Seat>, current: nat, r: Waiter): World {
    World(Table(n, ss, r), Sched(n, ss, current))
  }

  // ----- Reachability -----

  function BootWorld(n: nat): World {
    World(Runs.Boot(n, n, n, 4096), S.Boot(n + 1))
  }

  /** A run of process table and scheduler from boot ends in `w`. */
  ghost predicate Reachable(n: nat, w: World) {
    exists worlds: seq<World>, acts: seq<Act> ::
      Progress.IsWorldRun(worlds, acts) && worlds[0] == BootWorld(n) && worlds[|acts|] == w
  }

  lemma BootReachable(n: nat)
    ensures Reachable(n, BootWorld(n))
  {
    BootLinked(n, n, n, 4096);
    Runs.BootInv(n, n, n, 4096);
    assert Progress.IsWorldRun([BootWorld(n)], []);
  }

  lemma ReachableLinked(n: nat, w: World)
    requires Reachable(n, w)
    ensures Linked(w) && NoWrap(w.k)
  {
    var worlds: seq<World>, acts: seq<Act> :|
      Progress.IsWorldRun(worlds, acts) && worlds[0] == BootWorld(n) && worlds[|acts|] == w;
    Progress.RunLinked(worlds, acts, |acts|);
  }

  lemma ExtendRun(worlds: seq<World>, acts: seq<Act>, a: Act, w': World)
    requires Progress.IsWorldRun(worlds, acts) && Progress.Goes(worlds[|acts|], a, w') && NoWrap(w'.k)
    ensures Progress.IsWorldRun(worlds + [w'], acts + [a])
  {
    var worlds', acts' := worlds + [w'], acts + [a];
    forall t | 0 <= t < |acts'|
      ensures Progress.Goes(worlds'[t], acts'[t], worlds'[t + 1])
    {
      if t < |acts| {
        assert Progress.Goes(worlds[t], acts[t], worlds[t + 1]);
      } else {
        assert worlds'[t] == worlds[|acts|] && acts'[t] == a && worlds'[t + 1] == w';
      }
    }
  }

  lemma Extend(n: nat, w: World, a: Act, w': World)
    requires Reachable(n, w) && Progress.Goes(w, a, w') && NoWrap(w'.k)
    ensures Reachable(n, w')
  {
    var worlds: seq<World>, acts: seq<Act> :|
      Progress.IsWorldRun(worlds, acts) && worlds[0] == BootWorld(n) && worlds[|acts|] == w;
    ExtendRun(worlds, acts, a, w');
    assert (worlds + [w'])[0] == worlds[0] && (worlds + [w'])[|acts + [a]|] == w';
  }

  // ----- Selections -----

  predicate Waits(s: Seat) { s.phase != Gone && s.phase != Joined }

  /** The scan from thread `c` comes to thread `d` first. */
  predicate Next(ss: seq<Seat>, c: nat, d: nat) {
    && c <= |ss| && d <= |ss| && d != c
    && (d > 0 ==> c < d && Waits(ss[d - 1]))
    && (forall m :: c <= m < |ss| && (d == 0 || m + 1 < d) ==> !Waits(ss[m]))
  }

  lemma NextIsPicked(n: nat, ss: seq<Seat>, c: nat, d: nat)
    requires |ss| <= n && Next(ss, c, d)
    ensures S.Pick(Sched(n, ss, c), 1) == Some(d)
  {
    var s, e := Sched(n, ss, c), if d > 0 then d - c else n + 1 - c;
    S.PickIsNearest(s, 1, e);
  }

  lemma LeavingThreads(n: nat, ss: seq<Seat>, c: nat, t: Seat, d: nat)
    requires 1 <= c <= |ss| <= n && Next(ss, c, d) && Waits(ss[c - 1]) && (t.phase.Parked? || t.phase == Gone)
    ensures S.Select(Sched(n, ss, c), d, t.phase == Gone, true) == Sched(n, ss[c - 1 := t], d)
  {
    assert S.Select(Sched(n, ss, c), d, t.phase == Gone, true).threads == Sched(n, ss[c - 1 := t], d).threads;
  }

  /** The thread that runs after the worker on thread `c` has come to seat `t`. */
  predicate Hands(ss: seq<Seat>, c: nat, t: Seat, d: nat) {
    if t.phase == InUser then d == c else (t.phase.Parked? || t.phase == Gone) && Next(ss, c, d)
  }

  lemma WorkerLeaves(n: nat, ss: seq<Seat>, c: nat, t: Seat, d: nat)
    requires 1 <= c <= |ss| <= n && Waits(ss[c - 1]) && Hands(ss, c, t, d)
    ensures Dispatch(Sched(n, ss, c), t.phase) == Some(Sched(n, ss[c - 1 := t], d))
  {
    if t.phase == InUser {
      assert Sched(n, ss, c).threads == Sched(n, ss[c - 1 := t], c).threads;
    } else {
      NextIsPicked(n, ss, c, d);
      LeavingThreads(n, ss, c, t, d);
    }
  }

  lemma BootstrapLeaves(n: nat, ss: seq<Seat>, d: nat)
    requires |ss| <= n && Next(ss, 0, d)
    ensures S.Switch(Sched(n, ss, 0), true) == Sched(n, ss, d)
  {
    NextIsPicked(n, ss, 0, d);
    assert S.Select(Sched(n, ss, 0), d, false, true).threads == Sched(n, ss, d).threads;
  }

  // ----- Acts -----

  /** The worker of slot `step.i` takes `step`, comes to `ph` and leaves the table `k'`. */
  predicate StepDoes(k: State, step: Step, k': State, ph: Phase) {
    && OwnStep(step) && Seated(k, step.i) && NextPhase(k, step) == ph
    && (Inv(k) ==> Enabled(k, step) && Do(k, step) == (k', Done))
  }

  /** A call leads from `w` to `w1`. */
  ghost predicate CallDoes(w: World, step: Step, out: Outcome, w1: World) {
    && (Inv(w.k) ==> Enabled(w.k, step) && Do(w.k, step) == (w1.k, out)) && out != Panic
    && 1 <= |w.s.threads| && Adjust(w.s, w.k, w1.k) == w1.s
  }

  predicate Turns(k: State) { k.waiter.Idle? || k.waiter.resting }

  /** Process `i` is in user mode on the processor. */
  predicate Asking(w: World, i: nat) {
    OnCpu(w, i) && Seated(w.k, i) && PhaseOf(w.k, i) == InUser
  }

  /** The trap that ends a call of process `i` leads from `w` to `w'`. */
  predicate Traps(w: World, i: nat, w': World) {
    && Seated(w.k, i) && w.s.current < |w.s.threads|
    && Trap(w.k, i) == w'.k && S.Switch(w.s, true) == w'.s && NoWrap(w'.k)
  }

  /** A call of process `i` and the trap that ends it lead from `w` to `w'`. */
  ghost predicate Asked(w: World, i: nat, step: Step, w': World) {
    exists out, w1 :: CallDoes(w, step, out, w1) && Traps(w1, i, w')
  }

  ghost predicate Stepped(w: World, step: Step, ph: Phase, w': World) {
    StepDoes(w.k, step, w'.k, ph) && OnCpu(w, step.i) && Dispatch(w.s, ph) == Some(w'.s)
  }

  /** Act `a` leads from `w` to `w'`. */
  ghost predicate Leads(w: World, a: Act, w': World) {
    match a
    case Calls(step) =>
      w.s.current == 0 && (KernelCall(step) || step.DoResume?) && exists out :: CallDoes(w, step, out, w')
    case Yield => w.s.current == 0 < |w.s.threads| && Turns(w.k) && w'.k == w.k && w'.s == S.Switch(w.s, true)
    case Asks(i, step) => Asking(w, i) && UserCall(i, step) && Asked(w, i, step, w')
    case Steps(step) => exists ph :: Stepped(w, step, ph, w')
  }

  lemma AskGoes(w: World, i: nat, step: Step, out: Outcome, w1: World, w': World)
    requires Linked(w) && Asking(w, i) && UserCall(i, step) && CallDoes(w, step, out, w1) && Traps(w1, i, w')
    ensures Progress.Goes(w, Asks(i, step), w')
  {
  }

  lemma StepGoes(w: World, step: Step, ph: Phase, w': World)
    requires Linked(w) && Stepped(w, step, ph, w')
    ensures Progress.Goes(w, Steps(step), w')
  {
    StepsAfter(w, step);
  }

  lemma LeadsGoes(w: World, a: Act, w': World)
    requires Linked(w) && Leads(w, a, w')
    ensures Progress.Goes(w, a, w')
  {
    match a
    case Calls(step) =>
    case Yield =>
    case Asks(i, step) =>
      var out, w1 :| CallDoes(w, step, out, w1) && Traps(w1, i, w');
      AskGoes(w, i, step, out, w1, w');
    case Steps(step) =>
      var ph :| Stepped(w, step, ph, w');
      StepGoes(w, step, ph, w');
  }

  lemma Go(n: nat, w: World, a: Act, w': World)
    requires Reachable(n, w) && Leads(w, a, w') && NoWrap(w'.k)
    ensures Reachable(n, w')
  {
    ReachableLinked(n, w);
    LeadsGoes(w, a, w');
    Extend(n, w, a, w');
  }

  // ----- A worker's own steps -----

  /** A step on seat `i` alone. */
  lemma PutTable(n: nat, ss: seq<Seat>, r: Waiter, i: nat, t: Seat)
    requires i < |ss| <= n && t.owner == ss[i].owner && ss[i].state != Free
    ensures Seated(Table(n, ss, r), i) && PhaseOf(Table(n, ss, r), i) == ss[i].phase && CtxOf(Table(n, ss, r), i) == ss[i].ctx
    ensures Put(Table(n, ss, r), i, SlotOf(t, i), t.ctx, t.phase) == Table(n, ss[i := t], r)
  {
    var k, k' := Table(n, ss, r), Table(n, ss[i := t], r);
    assert i + 2 in k.workers;
    var after := Put(k, i, SlotOf(t, i), t.ctx, t.phase);
    assert after.slots == k'.slots;
    assert after.ctxs == k'.ctxs;
    assert after.workers == k'.workers;
  }

  /** The seat is where `step` can happen. */
  predicate AtStep(s: Seat, step: Step) {
    match step
    case DoEnter(_) => s == Spawned(s.owner)
    case DoTrap(_) => s == Entered(s.owner)
    case DoGate(_, life, a, b) => s == Entered(s.owner) && life == Exited && a == b == 0
    case DoTurn(_) => s == Exiting(s.owner) || s == Paused(s.owner)
    case _ => false
  }

  /** The seat after `step`. */
  function Moved(s: Seat, step: Step): Seat {
    match step
    case DoTrap(_) => Paused(s.owner)
    case DoGate(_, _, _, _) => Exiting(s.owner)
    case DoTurn(_) => if s.phase == Parked(RunExited) then Left(s.owner) else Entered(s.owner)
    case _ => Entered(s.owner)
  }

  /** The step on seat `i` does what `Moved` says. */
  ghost predicate Follows(n: nat, ss: seq<Seat>, r: Waiter, step: Step)
    requires OwnStep(step) && step.i < |ss|
  {
    var t := Moved(ss[step.i], step);
    StepDoes(Table(n, ss, r), step, Table(n, ss[step.i := t], r), t.phase)
  }

  lemma SeatEnters(n: nat, ss: seq<Seat>, r: Waiter, i: nat)
    requires i < |ss| <= n && ss[i] == Spawned(ss[i].owner) && (r.Idle? || r.resting)
    ensures Follows(n, ss, r, DoEnter(i))
  {
    PutTable(n, ss, r, i, Entered(ss[i].owner));
  }

  lemma SeatPauses(n: nat, ss: seq<Seat>, r: Waiter, i: nat)
    requires i < |ss| <= n && ss[i] == Entered(ss[i].owner) && (r.Idle? || r.resting)
    ensures Follows(n, ss, r, DoTrap(i))
  {
    PutTable(n, ss, r, i, Paused(ss[i].owner));
  }

  lemma GateDoes(k: State, i: nat, k': State)
    requires Seated(k, i) && PhaseOf(k, i) == InUser && Turns(k) && GateTerminal(k, i, Exited, 0, 0) == (k', Done)
    ensures StepDoes(k, DoGate(i, Exited, 0, 0), k', Parked(RunExited))
  {
  }

  lemma GateSeat(n: nat, ss: seq<Seat>, r: Waiter, i: nat)
    requires i < |ss| <= n && ss[i] == Entered(ss[i].owner)
    ensures Seated(Table(n, ss, r), i) && PhaseOf(Table(n, ss, r), i) == InUser
    ensures GateTerminal(Table(n, ss, r), i, Exited, 0, 0) == (Table(n, ss[i := Exiting(ss[i].owner)], r), Done)
  {
    PutTable(n, ss, r, i, Exiting(ss[i].owner));
  }

  lemma SeatExits(n: nat, ss: seq<Seat>, r: Waiter, i: nat)
    requires i < |ss| <= n && ss[i] == Entered(ss[i].owner) && (r.Idle? || r.resting)
    ensures Follows(n, ss, r, DoGate(i, Exited, 0, 0))
  {
    GateSeat(n, ss, r, i);
    GateDoes(Table(n, ss, r), i, Table(n, ss[i := Exiting(ss[i].owner)], r));
  }

  lemma SeatResumes(n: nat, ss: seq<Seat>, r: Waiter, i: nat)
    requires i < |ss| <= n && ss[i] == Paused(ss[i].owner) && (r.Idle? || r.resting)
    ensures Follows(n, ss, r, DoTurn(i))
  {
    PutTable(n, ss, r, i, Entered(ss[i].owner));
  }

  lemma SeatLeaves(n: nat, ss: seq<Seat>, r: Waiter, i: nat)
    requires i < |ss| <= n && ss[i] == Exiting(ss[i].owner) && (r.Idle? || r.resting)
    ensures Follows(n, ss, r, DoTurn(i))
  {
    PutTable(n, ss, r, i, Left(ss[i].owner));
  }

  lemma SeatSteps(n: nat, ss: seq<Seat>, r: Waiter, step: Step)
    requires OwnStep(step) && step.i < |ss| <= n && AtStep(ss[step.i], step) && (r.Idle? || r.resting)
    ensures Follows(n, ss, r, step)
  {
    match step
    case DoEnter(i) => SeatEnters(n, ss, r, i);
    case DoTrap(i) => SeatPauses(n, ss, r, i);
    case DoGate(i, _, _, _) => SeatExits(n, ss, r, i);
    case DoTurn(i) =>
      if ss[i].phase == Parked(RunExited) {
        SeatLeaves(n, ss, r, i);
      } else {
        SeatResumes(n, ss, r, i);
      }
  }

  lemma OnThread(n: nat, ss: seq<Seat>, c: nat, r: Waiter)
    requires 1 <= c <= |ss| <= n && ss[c - 1].state != Free && ss[c - 1].phase != Joined
    ensures OnCpu(Both(n, ss, c, r), c - 1)
  {
  }

  lemma StepSeats(n: nat, ss: seq<Seat>, c: nat, r: Waiter, t: Seat, d: nat)
    requires 1 <= c <= |ss| <= n && ss[c - 1].state != Free && Waits(ss[c - 1]) && Hands(ss, c, t, d)
    ensures var w, w' := Both(n, ss, c, r), Both(n, ss[c - 1 := t], d, r);
            && OnCpu(w, c - 1) && w.s.current < |w.s.threads| && Dispatch(w.s, t.phase) == Some(w'.s) && NoWrap(w'.k)
  {
    WorkerLeaves(n, ss, c, t, d);
    OnThread(n, ss, c, r);
  }

  /** The worker on the processor takes a step of its own and thread `d` runs next. */
  lemma StepNext(n: nat, ss: seq<Seat>, c: nat, r: Waiter, step: Step, d: nat)
    requires OwnStep(step) && step.i + 1 == c <= |ss| <= n && AtStep(ss[c - 1], step) && Hands(ss, c, Moved(ss[c - 1], step), d)
    requires Reachable(n, Both(n, ss, c, r)) && (r.Idle? || r.resting)
    ensures Reachable(n, Both(n, ss[c - 1 := Moved(ss[c - 1], step)], d, r))
  {
    var t := Moved(ss[c - 1], step);
    SeatSteps(n, ss, r, step);
    StepSeats(n, ss, c, r, t, d);
    assert Stepped(Both(n, ss, c, r), step, t.phase, Both(n, ss[c - 1 := t], d, r));
    Go(n, Both(n, ss, c, r), Steps(step), Both(n, ss[c - 1 := t], d, r));
  }

  lemma YieldNext(n: nat, ss: seq<Seat>, r: Waiter, d: nat)
    requires |ss| <= n && Next(ss, 0, d) && (r.Idle? || r.resting)
    requires Reachable(n, Both(n, ss, 0, r))
    ensures Reachable(n, Both(n, ss, d, r))
  {
    BootstrapLeaves(n, ss, d);
    Go(n, Both(n, ss, 0, r), Yield, Both(n, ss, d, r));
  }

  // ----- Calls -----

  lemma SeatAsks(n: nat, ss: seq<Seat>, c: nat, owner: int)
    requires 1 <= c <= |ss| <= n && ss[c - 1] == Entered(owner)
    ensures Asking(Both(n, ss, c, Idle), c - 1)
  {
    PutTable(n, ss, Idle, c - 1, Paused(owner));
    OnThread(n, ss, c, Idle);
  }

  lemma SeatTraps(n: nat, ss: seq<Seat>, c: nat, owner: int, d: nat)
    requires 1 <= c <= |ss| <= n && ss[c - 1] == Entered(owner) && Next(ss, c, d)
    ensures Traps(Both(n, ss, c, Idle), c - 1, Both(n, ss[c - 1 := Paused(owner)], d, Idle))
  {
    PutTable(n, ss, Idle, c - 1, Paused(owner));
    WorkerLeaves(n, ss, c, Paused(owner), d);
  }

  lemma {:induction false} FirstFreeIs(n: nat, ss: seq<Seat>, r: Waiter, from: nat)
    requires from <= |ss| < n && forall i :: 0 <= i < |ss| ==> ss[i].state != Free && ss[i].ctx.state != UFree
    ensures FirstFree(Table(n, ss, r).slots, from) == |ss| && FirstFreeCtx(Table(n, ss, r).ctxs, from) == |ss|
    decreases |ss| - from
  {
    if from < |ss| {
      FirstFreeIs(n, ss, r, from + 1);
    }
  }

  lemma {:induction false} FewThreads(n: nat, ss: seq<Seat>)
    requires |ss| <= n
    ensures |Threads(Table(n, ss, Idle).workers)| <= |ss|
  {
    var t := Threads(Table(n, ss, Idle).workers);
    if ss == [] {
      assert t == {};
    } else {
      var m := |ss| - 1;
      FewThreads(n, ss[..m]);
      var u := Threads(Table(n, ss[..m], Idle).workers);
      assert t - {m + 2} == u;
      assert t <= u + {m + 2};
    }
  }

  lemma SpawnTable(n: nat, ss: seq<Seat>, owner: int)
    requires |ss| < n
    ensures Admit(Table(n, ss, Idle), |ss|, |ss|, owner, Pipe.StdinClosed, Pipe.StdoutSerial) == Table(n, ss + [Spawned(owner)], Idle)
  {
    var after := Admit(Table(n, ss, Idle), |ss|, |ss|, owner, Pipe.StdinClosed, Pipe.StdoutSerial);
    var k' := Table(n, ss + [Spawned(owner)], Idle);
    assert after.slots == k'.slots;
    assert after.ctxs == k'.ctxs;
    assert after.workers == k'.workers;
  }

  lemma SpawnSucceeds(k: State, owner: int)
    requires Inv(k) && k.waiter.Idle? && OwnerAdmitted(k.slots, owner) && CanStart(k, true)
    requires FirstFree(k.slots, 0) < |k.slots| && FirstFreeCtx(k.ctxs, 0) < |k.ctxs|
    ensures var i := FirstFree(k.slots, 0);
            SpawnImage(k, 0, Pipe.StdinClosed, owner, SPAWN) ==
              (Admit(k, i, FirstFreeCtx(k.ctxs, 0), owner, Pipe.StdinClosed, Pipe.StdoutSerial), Handle(HandleOf(i, k.slots[i].gen)))
  {
    SpawnImageKeeps(k, 0, Pipe.StdinClosed, owner, SPAWN);
  }

  function Spawn(owner: int): Step {
    DoSpawnImage(0, Pipe.StdinClosed, owner, SPAWN)
  }

  /** A spawn for `owner` is granted and leads to `w1`. */
  predicate CanSpawn(w: World, owner: int, w1: World) {
    && w.k.waiter.Idle? && OwnerAdmitted(w.k.slots, owner) && CanStart(w.k, true)
    && FirstFree(w.k.slots, 0) < |w.k.slots| && FirstFreeCtx(w.k.ctxs, 0) < |w.k.ctxs|
    && w1.k == Admit(w.k, FirstFree(w.k.slots, 0), FirstFreeCtx(w.k.ctxs, 0), owner, Pipe.StdinClosed, Pipe.StdoutSerial)
    && 1 <= |w.s.threads| && w1.s == S.Create(w.s, true).0
  }

  lemma SpawnCalls(w: World, owner: int, w1: World)
    requires CanSpawn(w, owner, w1)
    ensures exists out :: CallDoes(w, Spawn(owner), out, w1)
  {
    var i := FirstFree(w.k.slots, 0);
    if Inv(w.k) {
      SpawnSucceeds(w.k, owner);
    }
    assert CallDoes(w, Spawn(owner), Handle(HandleOf(i, w.k.slots[i].gen)), w1);
  }

  /** A spawn by process `i` and the trap that ends it lead to `w'`. */
  ghost predicate CanFork(w: World, i: nat, w': World) {
    exists w1 :: CanSpawn(w, i, w1) && Traps(w1, i, w')
  }

  lemma ForkIsAsked(w: World, i: nat, w': World)
    requires CanFork(w, i, w')
    ensures Asked(w, i, Spawn(i), w')
  {
    var w1 :| CanSpawn(w, i, w1) && Traps(w1, i, w');
    SpawnCalls(w, i, w1);
  }

  /** No seat is free or joined. */
  predicate Full(ss: seq<Seat>) {
    forall i :: 0 <= i < |ss| ==> ss[i].state != Free && ss[i].ctx.state != UFree && ss[i].phase != Joined
  }

  lemma {:induction false} ThreadFreeIs(n: nat, ss: seq<Seat>, c: nat, from: nat)
    requires 1 <= from <= |ss| + 1 <= n && Full(ss)
    ensures S.FirstFree(Sched(n, ss, c), from) == |ss| + 1
    decreases |ss| + 1 - from
  {
    if from < |ss| + 1 {
      ThreadFreeIs(n, ss, c, from + 1);
    }
  }

  lemma SpawnThreads(n: nat, ss: seq<Seat>, c: nat, owner: int)
    requires c <= |ss| < n < ID_LIMIT - 2 && Full(ss)
    ensures S.Create(Sched(n, ss, c), true).0 == Sched(n, ss + [Spawned(owner)], c)
  {
    ThreadFreeIs(n, ss, c, 1);
    assert S.Create(Sched(n, ss, c), true).0.threads == Sched(n, ss + [Spawned(owner)], c).threads;
  }

  lemma SpawnSeats(n: nat, ss: seq<Seat>, c: nat, owner: int)
    requires c <= |ss| < n < ID_LIMIT - 2 && (owner == KERNEL_OWNER || 0 <= owner < |ss|) && Full(ss)
    ensures CanSpawn(Both(n, ss, c, Idle), owner, Both(n, ss + [Spawned(owner)], c, Idle))
  {
    FirstFreeIs(n, ss, Idle, 0);
    FewThreads(n, ss);
    SpawnTable(n, ss, owner);
    SpawnThreads(n, ss, c, owner);
  }

  lemma SpawnNext(n: nat, ss: seq<Seat>)
    requires |ss| < n < ID_LIMIT - 2 && Full(ss)
    requires Reachable(n, Both(n, ss, 0, Idle))
    ensures Reachable(n, Both(n, ss + [Spawned(KERNEL_OWNER)], 0, Idle))
  {
    SpawnSeats(n, ss, 0, KERNEL_OWNER);
    SpawnCalls(Both(n, ss, 0, Idle), KERNEL_OWNER, Both(n, ss + [Spawned(KERNEL_OWNER)], 0, Idle));
    Go(n, Both(n, ss, 0, Idle), Calls(Spawn(KERNEL_OWNER)), Both(n, ss + [Spawned(KERNEL_OWNER)], 0, Idle));
  }

  function Forked(ss: seq<Seat>, owner: int): seq<Seat>
    requires ss != []
  {
    ss[|ss| - 1 := Paused(owner)] + [Spawned(|ss| - 1)]
  }

  lemma ForkSeats(n: nat, ss: seq<Seat>, owner: int)
    requires 1 <= |ss| < n && ss[|ss| - 1] == Entered(owner)
    ensures Traps(Both(n, ss + [Spawned(|ss| - 1)], |ss|, Idle), |ss| - 1,
                  Both(n, Forked(ss, owner), |ss| + 1, Idle))
  {
    var c, ss' := |ss|, ss + [Spawned(|ss| - 1)];
    assert ss'[c - 1 := Paused(owner)] == Forked(ss, owner);
    SeatTraps(n, ss', c, owner, c + 1);
  }

  lemma SpawnForks(n: nat, ss: seq<Seat>, i: nat, w': World)
    requires i < |ss| < n < ID_LIMIT - 2 && Full(ss) && Traps(Both(n, ss + [Spawned(i)], |ss|, Idle), i, w')
    ensures CanFork(Both(n, ss, |ss|, Idle), i, w')
  {
    SpawnSeats(n, ss, |ss|, i);
  }

  lemma SeatForks(n: nat, ss: seq<Seat>, owner: int)
    requires 1 <= |ss| < n < ID_LIMIT - 2 && Full(ss) && ss[|ss| - 1] == Entered(owner)
    ensures CanFork(Both(n, ss, |ss|, Idle), |ss| - 1, Both(n, Forked(ss, owner), |ss| + 1, Idle))
  {
    ForkSeats(n, ss, owner);
    SpawnForks(n, ss, |ss| - 1, Both(n, Forked(ss, owner), |ss| + 1, Idle));
  }

  /** The running process spawns a child, which runs next. */
  lemma ForkNext(n: nat, ss: seq<Seat>, owner: int)
    requires 1 <= |ss| < n < ID_LIMIT - 2 && Full(ss) && ss[|ss| - 1] == Entered(owner)
    requires Reachable(n, Both(n, ss, |ss|, Idle))
    ensures Reachable(n, Both(n, Forked(ss, owner), |ss| + 1, Idle))
  {
    SeatAsks(n, ss, |ss|, owner);
    SeatForks(n, ss, owner);
    ForkIsAsked(Both(n, ss, |ss|, Idle), |ss| - 1, Both(n, Forked(ss, owner), |ss| + 1, Idle));
    Go(n, Both(n, ss, |ss|, Idle), Asks(|ss| - 1, Spawn(|ss| - 1)), Both(n, Forked(ss, owner), |ss| + 1, Idle));
  }

  // ----- The first process -----

  lemma BootIsTable(n: nat)
    ensures Runs.Boot(n, n, n, 4096) == Table(n, [], Idle)
  {
    assert Runs.Boot(n, n, n, 4096).slots == Table(n, [], Idle).slots;
    assert Runs.Boot(n, n, n, 4096).ctxs == Table(n, [], Idle).ctxs;
    assert Runs.Boot(n, n, n, 4096).workers == Table(n, [], Idle).workers;
  }

  lemma FirstSpawn(n: nat)
    requires 0 < n < ID_LIMIT - 2
    ensures CanSpawn(BootWorld(n), KERNEL_OWNER, World(Table(n, [Spawned(KERNEL_OWNER)], Idle), S.Create(S.Boot(n + 1), true).0))
  {
    BootIsTable(n);
    assert [] + [Spawned(KERNEL_OWNER)] == [Spawned(KERNEL_OWNER)];
    SpawnSeats(n, [], 0, KERNEL_OWNER);
  }

  /** The bootstrap thread has no saved frame until it first gives up the processor. */
  lemma FirstYield(n: nat)
    requires 0 < n < ID_LIMIT - 2
    ensures var s := S.Create(S.Boot(n + 1), true).0;
            s.current == 0 < |s.threads| && S.Switch(s, true) == Sched(n, [Spawned(KERNEL_OWNER)], 1)
  {
    var s := S.Create(S.Boot(n + 1), true).0;
    assert S.FirstFree(S.Boot(n + 1), 1) == 1;
    assert S.Pick(s, 1) == Some(1);
    assert S.Switch(s, true).threads == Sched(n, [Spawned(KERNEL_OWNER)], 1).threads;
  }

  lemma FirstProcess(n: nat)
    requires 0 < n < ID_LIMIT - 2
    ensures Reachable(n, Both(n, [Spawned(KERNEL_OWNER)], 1, Idle))
  {
    var w := World(Table(n, [Spawned(KERNEL_OWNER)], Idle), S.Create(S.Boot(n + 1), true).0);
    BootReachable(n);
    FirstSpawn(n);
    SpawnCalls(BootWorld(n), KERNEL_OWNER, w);
    FirstYield(n);
    Go(n, BootWorld(n), Calls(Spawn(KERNEL_OWNER)), w);
    Go(n, w, Yield, Both(n, [Spawned(KERNEL_OWNER)], 1, Idle));
  }
}

/** Runs of process table and scheduler together, from boot to the halts of a reap that has to yield. */
module Halting {
  import opened Options
  import Pipe
  import opened Kernel
  import opened Reap
  import opened Machine
  import opened MachineInv
  import opened WorkerThreads
  import opened Fairness
  import opened Seats
  import S = Scheduler
  import Theorems

  // ----- Turns -----

  /** The process on thread `c` in user mode. */
  function Running(ss: seq<Seat>, c: nat): seq<Seat>
    requires 1 <= c <= |ss|
  {
    ss[c - 1 := Entered(ss[c - 1].owner)]
  }

  lemma RunningSeats(ss: seq<Seat>, c: nat, d: nat, t: Seat)
    requires 1 <= c <= |ss| && ss[c - 1] == Paused(ss[c - 1].owner) && Next(ss, c, d)
    ensures AtStep(ss[c - 1], DoTurn(c - 1)) && Moved(ss[c - 1], DoTurn(c - 1)) == Entered(ss[c - 1].owner)
    ensures |Running(ss, c)| == |ss| && Next(Running(ss, c), c, d) && Running(ss, c)[c - 1] == Entered(ss[c - 1].owner)
    ensures Running(ss, c)[c - 1 := t] == ss[c - 1 := t]
  {
  }

  lemma PausedAgain(ss: seq<Seat>, c: nat)
    requires 1 <= c <= |ss| && ss[c - 1] == Paused(ss[c - 1].owner)
    ensures |Running(ss, c)| == |ss| && Running(ss, c)[c - 1 := Paused(ss[c - 1].owner)] == ss
  {
  }

  lemma TurnNext(n: nat, ss: seq<Seat>, c: nat)
    requires 1 <= c <= |ss| <= n && ss[c - 1] == Paused(ss[c - 1].owner) && Reachable(n, Both(n, ss, c, Idle))
    ensures Reachable(n, Both(n, Running(ss, c), c, Idle))
  {
    StepNext(n, ss, c, Idle, DoTurn(c - 1), c);
  }

  /** The process on thread `c` gets the processor, does nothing to the table and loses it again. */
  lemma IdleTurn(n: nat, ss: seq<Seat>, c: nat, d: nat)
    requires 1 <= c <= |ss| <= n && ss[c - 1] == Paused(ss[c - 1].owner) && Next(ss, c, d)
    requires Reachable(n, Both(n, ss, c, Idle))
    ensures Reachable(n, Both(n, ss, d, Idle))
  {
    RunningSeats(ss, c, d, ss[c - 1]);
    PausedAgain(ss, c);
    TurnNext(n, ss, c);
    StepNext(n, Running(ss, c), c, Idle, DoTrap(c - 1), d);
  }

  /** The process on thread `c` gets the processor and exits at the gate. */
  lemma ExitTurn(n: nat, ss: seq<Seat>, c: nat, d: nat)
    requires 1 <= c <= |ss| <= n && ss[c - 1] == Paused(ss[c - 1].owner) && Next(ss, c, d)
    requires Reachable(n, Both(n, ss, c, Idle))
    ensures Reachable(n, Both(n, ss[c - 1 := Exiting(ss[c - 1].owner)], d, Idle))
  {
    RunningSeats(ss, c, d, Exiting(ss[c - 1].owner));
    TurnNext(n, ss, c);
    StepNext(n, Running(ss, c), c, Idle, DoGate(c - 1, Exited, 0, 0), d);
  }

  /** The first process runs and spawns a child, which runs. */
  lemma ParentAndChild(n: nat)
    requires 2 <= n < ID_LIMIT - 2
    ensures Reachable(n, Both(n, [Paused(KERNEL_OWNER), Entered(0)], 2, Idle))
  {
    var o := KERNEL_OWNER;
    FirstProcess(n);
    StepNext(n, [Spawned(o)], 1, Idle, DoEnter(0), 1);
    assert [Spawned(o)][0 := Entered(o)] == [Entered(o)];
    ForkNext(n, [Entered(o)], o);
    assert Forked([Entered(o)], o) == [Paused(o), Spawned(0)];
    StepNext(n, [Paused(o), Spawned(0)], 2, Idle, DoEnter(1), 2);
    assert [Paused(o), Spawned(0)][1 := Entered(0)] == [Paused(o), Entered(0)];
  }

  // ----- A process waits -----

  lemma GrandchildSpawned(n: nat)
    requires 3 <= n < ID_LIMIT - 2
    ensures Reachable(n, Both(n, [Paused(KERNEL_OWNER), Paused(0), Spawned(1)], 3, Idle))
  {
    var p := Paused(KERNEL_OWNER);
    ParentAndChild(n);
    ForkNext(n, [p, Entered(0)], 0);
    assert Forked([p, Entered(0)], 0) == [p, Paused(0), Spawned(1)];
  }

  /** The child spawns a child of its own, and all three have run. */
  lemma ThreeGenerations(n: nat)
    requires 3 <= n < ID_LIMIT - 2
    ensures Reachable(n, Both(n, [Paused(KERNEL_OWNER), Paused(0), Paused(1)], 0, Idle))
  {
    var p := Paused(KERNEL_OWNER);
    GrandchildSpawned(n);
    StepNext(n, [p, Paused(0), Spawned(1)], 3, Idle, DoEnter(2), 3);
    assert [p, Paused(0), Spawned(1)][2 := Entered(1)] == [p, Paused(0), Entered(1)];
    StepNext(n, [p, Paused(0), Entered(1)], 3, Idle, DoTrap(2), 0);
    assert [p, Paused(0), Entered(1)][2 := Paused(1)] == [p, Paused(0), Paused(1)];
  }

  /** The child exits and its worker leaves. */
  lemma ChildLeaves(n: nat)
    requires 3 <= n < ID_LIMIT - 2
    ensures Reachable(n, Both(n, [Paused(KERNEL_OWNER), Left(0), Paused(1)], 3, Idle))
  {
    var p, q := Paused(KERNEL_OWNER), Paused(1);
    ThreeGenerations(n);
    YieldNext(n, [p, Paused(0), q], Idle, 1);
    IdleTurn(n, [p, Paused(0), q], 1, 2);
    ExitTurn(n, [p, Paused(0), q], 2, 3);
    assert [p, Paused(0), q][1 := Exiting(0)] == [p, Exiting(0), q];
    IdleTurn(n, [p, Exiting(0), q], 3, 0);
    YieldNext(n, [p, Exiting(0), q], Idle, 1);
    IdleTurn(n, [p, Exiting(0), q], 1, 2);
    StepNext(n, [p, Exiting(0), q], 2, Idle, DoTurn(1), 3);
    assert [p, Exiting(0), q][1 := Left(0)] == [p, Left(0), q];
  }

  /** The grandchild exits at the gate and no further, and the first process runs. */
  lemma GrandchildExits(n: nat)
    requires 3 <= n < ID_LIMIT - 2
    ensures Reachable(n, Both(n, [Entered(KERNEL_OWNER), Left(0), Exiting(1)], 1, Idle))
  {
    var p := Paused(KERNEL_OWNER);
    ChildLeaves(n);
    ExitTurn(n, [p, Left(0), Paused(1)], 3, 0);
    assert [p, Left(0), Paused(1)][2 := Exiting(1)] == [p, Left(0), Exiting(1)];
    YieldNext(n, [p, Left(0), Exiting(1)], Idle, 1);
    StepNext(n, [p, Left(0), Exiting(1)], 1, Idle, DoTurn(0), 1);
    assert [p, Left(0), Exiting(1)][0 := Entered(KERNEL_OWNER)] == [Entered(KERNEL_OWNER), Left(0), Exiting(1)];
  }

  lemma GrandchildParked(n: nat, k: State)
    requires 3 <= n && k == Table(n, [Entered(KERNEL_OWNER), Left(0), Exiting(1)], Idle) && OwnersOk(k.slots)
    ensures Takes(k, HandleOf(1, 1), 0, 0) && Decode(k, HandleOf(1, 1)) == Some(1) && !Settled(k, 1)
  {
    Theorems.HandleRoundTrip(1, 1);
    assert k.workers[3] == Worker(1, Gone) && k.workers[4] == Worker(2, Parked(RunExited));
    assert InTree(k.slots, 1, 1) && InTree(k.slots, 1, 2) && !WorkerGone(k, 2);
  }

  /** Some run from boot ends in `w`, and there the act `a` halts the kernel. */
  ghost predicate RunsInto(n: nat, w: World, a: Act) {
    Reachable(n, w) && Linked(w) && Can(w, a) && After(w, a).1 == Panic && OwnersOk(w.k.slots) && HaltsHere(w, a)
  }

  lemma ProcessWaitCan(n: nat, w: World)
    requires 3 <= n && w == Both(n, [Entered(KERNEL_OWNER), Left(0), Exiting(1)], 1, Idle) && Linked(w)
    ensures Can(w, Asks(0, DoWait(HandleOf(1, 1), 0, 0)))
  {
    SeatAsks(n, [Entered(KERNEL_OWNER), Left(0), Exiting(1)], 1, KERNEL_OWNER);
  }

  /** A process waits for its child, whose own child has exited at the gate and no further: the wait halts
      the kernel, because once it has joined the child (thread id 3) it yields on the exit stack.
      A run from boot leads there with three slots or more. */
  lemma ProcessWaitHalts(n: nat, e: S.Event)
    requires 3 <= n < ID_LIMIT - 2
    ensures var w := Both(n, [Entered(KERNEL_OWNER), Left(0), Exiting(1)], 1, Idle);
            RunsInto(n, w, Asks(0, DoWait(HandleOf(1, 1), 0, 0))) && GateYieldHalts(w.s, [3], e)
  {
    var w := Both(n, [Entered(KERNEL_OWNER), Left(0), Exiting(1)], 1, Idle);
    GrandchildExits(n);
    ReachableLinked(n, w);
    InvIsReapInv(w.k);
    ProcessWaitCan(n, w);
    GrandchildParked(n, w.k);
    ChildThreadExited(n);
    ProcessWaitFailsCheck(w, 0, HandleOf(1, 1), [3], e);
    MoveKeeps(w, Asks(0, DoWait(HandleOf(1, 1), 0, 0)));
  }

  lemma ChildThreadExited(n: nat)
    requires 3 <= n
    ensures AllExited(Sched(n, [Entered(KERNEL_OWNER), Left(0), Exiting(1)], 1), [3])
  {
    var s := Sched(n, [Entered(KERNEL_OWNER), Left(0), Exiting(1)], 1);
    assert s.threads[0].id == 1 && s.threads[1].id == 2 && s.threads[2] == S.Thread(3, S.Exited, true);
    assert S.Find(s, 3, 0) == S.Find(s, 3, 1) == S.Find(s, 3, 2) == Some(2);
  }

  // ----- The kernel waits -----

  /** The first process exits and its worker leaves. */
  lemma ParentLeaves(n: nat)
    requires 2 <= n < ID_LIMIT - 2
    ensures Reachable(n, Both(n, [Left(KERNEL_OWNER), Paused(0)], 2, Idle))
  {
    var o, q := KERNEL_OWNER, Paused(0);
    ParentAndChild(n);
    StepNext(n, [Paused(o), Entered(0)], 2, Idle, DoTrap(1), 0);
    assert [Paused(o), Entered(0)][1 := q] == [Paused(o), q];
    YieldNext(n, [Paused(o), q], Idle, 1);
    ExitTurn(n, [Paused(o), q], 1, 2);
    assert [Paused(o), q][0 := Exiting(o)] == [Exiting(o), q];
    IdleTurn(n, [Exiting(o), q], 2, 0);
    YieldNext(n, [Exiting(o), q], Idle, 1);
    StepNext(n, [Exiting(o), q], 1, Idle, DoTurn(0), 2);
    assert [Exiting(o), q][0 := Left(o)] == [Left(o), q];
  }

  /** Its child exits at the gate and no further, and the kernel spawns another process. */
  lemma ChildExits(n: nat)
    requires 3 <= n < ID_LIMIT - 2
    ensures Reachable(n, Both(n, [Left(KERNEL_OWNER), Exiting(0), Spawned(KERNEL_OWNER)], 0, Idle))
  {
    var o := KERNEL_OWNER;
    ParentLeaves(n);
    ExitTurn(n, [Left(o), Paused(0)], 2, 0);
    assert [Left(o), Paused(0)][1 := Exiting(0)] == [Left(o), Exiting(0)];
    SpawnNext(n, [Left(o), Exiting(0)]);
    assert [Left(o), Exiting(0)] + [Spawned(o)] == [Left(o), Exiting(0), Spawned(o)];
  }

  /** The kernel's own wait for the first process, when its scan has come to slot `at`, on the
      processor or off it. */
  function Reaps(at: nat, resting: bool): Waiter {
    Reaping(HandleOf(0, 1), StExited(0), [Frame(0, at)], resting)
  }

  lemma ChildParked(n: nat, k: State)
    requires 3 <= n && k == Table(n, [Left(KERNEL_OWNER), Exiting(0), Spawned(KERNEL_OWNER)], Idle) && OwnersOk(k.slots)
    ensures Takes(k, HandleOf(0, 1), KERNEL_OWNER, -1) && Decode(k, HandleOf(0, 1)) == Some(0) && !Settled(k, 0)
  {
    Theorems.HandleRoundTrip(0, 1);
    assert k.workers[2] == Worker(0, Gone) && k.workers[3] == Worker(1, Parked(RunExited));
    assert InTree(k.slots, 0, 0) && InTree(k.slots, 0, 1) && !WorkerGone(k, 1);
  }

  lemma JoinTable(n: nat, ss: seq<Seat>, r: Waiter)
    requires 1 <= |ss| <= n && ss[0] == Left(KERNEL_OWNER)
    ensures AfterJoin(Table(n, ss, Idle), 0).(waiter := r) == Table(n, ss[0 := Taken(KERNEL_OWNER)], r)
  {
    var k, k' := AfterJoin(Table(n, ss, Idle), 0), Table(n, ss[0 := Taken(KERNEL_OWNER)], r);
    assert k.slots == k'.slots;
    assert k.ctxs == k'.ctxs;
    assert k.workers == k'.workers;
  }

  lemma JoinThreads(n: nat, ss: seq<Seat>, r: Waiter)
    requires 1 <= |ss| <= n && ss[0] == Left(KERNEL_OWNER)
    ensures Adjust(Sched(n, ss, 0), Table(n, ss, Idle), Table(n, ss[0 := Taken(KERNEL_OWNER)], r)) == Sched(n, ss[0 := Taken(KERNEL_OWNER)], 0)
  {
    var ss' := ss[0 := Taken(KERNEL_OWNER)];
    assert Threads(Table(n, ss, Idle).workers) - Threads(Table(n, ss', r).workers) == {2};
    assert Sweep(Sched(n, ss, 0), {2}).threads == Sched(n, ss', 0).threads;
  }

  lemma WaitYields(k: State, h: nat, i: nat)
    requires Inv(k) && k.waiter.Idle? && OwnersOk(k.slots) && Takes(k, h, KERNEL_OWNER, -1) && Decode(k, h) == Some(i) && !Settled(k, i)
    ensures Enabled(k, DoWait(h, KERNEL_OWNER, -1))
    ensures Do(k, DoWait(h, KERNEL_OWNER, -1)) ==
              (AfterJoin(k, i).(waiter := Reaping(h, StatusOf(k.slots[i]), [Frame(i, 0)], false)), Yields)
  {
    WaitTakes(k, h, KERNEL_OWNER, -1);
  }

  lemma WaitDone(n: nat, ss: seq<Seat>)
    requires 3 <= n && ss == [Left(KERNEL_OWNER), Exiting(0), Spawned(KERNEL_OWNER)] && Inv(Table(n, ss, Idle))
    ensures Enabled(Table(n, ss, Idle), DoWait(HandleOf(0, 1), KERNEL_OWNER, -1))
    ensures Do(Table(n, ss, Idle), DoWait(HandleOf(0, 1), KERNEL_OWNER, -1)) ==
              (Table(n, ss[0 := Taken(KERNEL_OWNER)], Reaps(0, false)), Yields)
  {
    InvIsReapInv(Table(n, ss, Idle));
    ChildParked(n, Table(n, ss, Idle));
    WaitYields(Table(n, ss, Idle), HandleOf(0, 1), 0);
    JoinTable(n, ss, Reaps(0, false));
  }

  lemma WaitDoes(n: nat, ss: seq<Seat>)
    requires 3 <= n && ss == [Left(KERNEL_OWNER), Exiting(0), Spawned(KERNEL_OWNER)]
    ensures CallDoes(Both(n, ss, 0, Idle), DoWait(HandleOf(0, 1), KERNEL_OWNER, -1), Yields,
                     Both(n, ss[0 := Taken(KERNEL_OWNER)], 0, Reaps(0, false)))
  {
    if Inv(Table(n, ss, Idle)) {
      WaitDone(n, ss);
    }
    JoinThreads(n, ss, Reaps(0, false));
  }

  /** The kernel's wait joins the first process and yields. */
  lemma WaitNext(n: nat, ss: seq<Seat>)
    requires 3 <= n && ss == [Left(KERNEL_OWNER), Exiting(0), Spawned(KERNEL_OWNER)] && Reachable(n, Both(n, ss, 0, Idle))
    ensures Reachable(n, Both(n, ss[0 := Taken(KERNEL_OWNER)], 0, Reaps(0, false)))
  {
    WaitDoes(n, ss);
    Go(n, Both(n, ss, 0, Idle), Calls(DoWait(HandleOf(0, 1), KERNEL_OWNER, -1)), Both(n, ss[0 := Taken(KERNEL_OWNER)], 0, Reaps(0, false)));
  }

  lemma ScanStarts(n: nat, ss: seq<Seat>)
    requires 3 <= n && ss == [Taken(KERNEL_OWNER), Exiting(0), Spawned(KERNEL_OWNER)] && Inv(Table(n, ss, Reaps(0, false)))
    ensures Resume(Table(n, ss, Reaps(0, false))) == (Table(n, ss, Reaps(1, false)), Done)
  {
    assert Onto([Frame(0, 0)]) == [Frame(0, 1)];
  }

  lemma ScanRests(n: nat, ss: seq<Seat>)
    requires 3 <= n && ss == [Taken(KERNEL_OWNER), Exiting(0), Spawned(KERNEL_OWNER)] && Inv(Table(n, ss, Reaps(1, false)))
    ensures Resume(Table(n, ss, Reaps(1, false))) == (Table(n, ss, Reaps(1, true)), Yields)
  {
    assert Table(n, ss, Reaps(1, false)).workers[3] == Worker(1, Parked(RunExited));
  }

  lemma ResumeDoes(w: World, out: Outcome, w': World)
    requires w.k.waiter.Reaping? && out != Panic && (Inv(w.k) ==> Resume(w.k) == (w'.k, out))
    requires w'.k.workers == w.k.workers && w'.k.nextId == w.k.nextId && 1 <= |w.s.threads| && w'.s == w.s
    ensures CallDoes(w, DoResume, out, w')
  {
    assert Sweep(w.s, Threads(w.k.workers) - Threads(w'.k.workers)).threads == w.s.threads;
  }

  lemma ResumeNext(n: nat, ss: seq<Seat>, r: Waiter, r': Waiter, out: Outcome)
    requires r.Reaping? && Reachable(n, Both(n, ss, 0, r)) && out != Panic
    requires Inv(Table(n, ss, r)) ==> Resume(Table(n, ss, r)) == (Table(n, ss, r'), out)
    ensures Reachable(n, Both(n, ss, 0, r'))
  {
    ResumeDoes(Both(n, ss, 0, r), out, Both(n, ss, 0, r'));
    Go(n, Both(n, ss, 0, r), Calls(DoResume), Both(n, ss, 0, r'));
  }

  /** Its scan comes to the parked child and gives up the processor. */
  lemma WaiterRests(n: nat)
    requires 3 <= n < ID_LIMIT - 2
    ensures Reachable(n, Both(n, [Taken(KERNEL_OWNER), Exiting(0), Spawned(KERNEL_OWNER)], 0, Reaps(1, true)))
  {
    var o := KERNEL_OWNER;
    var ss := [Taken(o), Exiting(0), Spawned(o)];
    ChildExits(n);
    WaitNext(n, [Left(o), Exiting(0), Spawned(o)]);
    assert [Left(o), Exiting(0), Spawned(o)][0 := Taken(o)] == ss;
    if Inv(Table(n, ss, Reaps(0, false))) {
      ScanStarts(n, ss);
    }
    ResumeNext(n, ss, Reaps(0, false), Reaps(1, false), Done);
    if Inv(Table(n, ss, Reaps(1, false))) {
      ScanRests(n, ss);
    }
    ResumeNext(n, ss, Reaps(1, false), Reaps(1, true), Yields);
  }

  /** Meanwhile the worker of the child leaves and the other process enters. */
  lemma OtherEnters(n: nat)
    requires 3 <= n < ID_LIMIT - 2
    ensures Reachable(n, Both(n, [Taken(KERNEL_OWNER), Left(0), Entered(KERNEL_OWNER)], 3, Reaps(1, true)))
  {
    var o := KERNEL_OWNER;
    WaiterRests(n);
    YieldNext(n, [Taken(o), Exiting(0), Spawned(o)], Reaps(1, true), 2);
    StepNext(n, [Taken(o), Exiting(0), Spawned(o)], 2, Reaps(1, true), DoTurn(1), 3);
    assert [Taken(o), Exiting(0), Spawned(o)][1 := Left(0)] == [Taken(o), Left(0), Spawned(o)];
    StepNext(n, [Taken(o), Left(0), Spawned(o)], 3, Reaps(1, true), DoEnter(2), 3);
    assert [Taken(o), Left(0), Spawned(o)][2 := Entered(o)] == [Taken(o), Left(0), Entered(o)];
  }

  lemma LateSpawnFree(n: nat, ss: seq<Seat>, r: Waiter)
    requires 4 <= n && ss == [Taken(KERNEL_OWNER), Left(0), Entered(KERNEL_OWNER)]
    ensures ImageFailure(Table(n, ss, r), 0, Pipe.StdinClosed, 2, SPAWN) == None
    ensures OnCpu(Both(n, ss, 3, r), 2) && Seated(Table(n, ss, r), 2) && PhaseOf(Table(n, ss, r), 2) == InUser
  {
    OnThread(n, ss, 3, r);
    FirstFreeIs(n, ss, r, 0);
    PutTable(n, ss, r, 2, ss[2]);
  }

  lemma LateSpawnCan(w: World)
    requires Linked(w) && OnCpu(w, 2) && Seated(w.k, 2) && PhaseOf(w.k, 2) == InUser && w.k.waiter.Reaping? && w.k.waiter.resting
    ensures Can(w, Asks(2, Spawn(2)))
  {
  }

  /** The kernel waits for a process whose child has exited at the gate and no further, so it yields; the
      next process to spawn an image halts the kernel, though the child's worker has left by then.
      A run from boot leads there with four slots or more. */
  lemma KernelWaitLetsSpawnHalt(n: nat)
    requires 4 <= n < ID_LIMIT - 2
    ensures RunsInto(n, Both(n, [Taken(KERNEL_OWNER), Left(0), Entered(KERNEL_OWNER)], 3, Reaps(1, true)), Asks(2, Spawn(2)))
  {
    var w := Both(n, [Taken(KERNEL_OWNER), Left(0), Entered(KERNEL_OWNER)], 3, Reaps(1, true));
    OtherEnters(n);
    ReachableLinked(n, w);
    LateSpawnFree(n, [Taken(KERNEL_OWNER), Left(0), Entered(KERNEL_OWNER)], Reaps(1, true));
    LateSpawnCan(w);
    MoveKeeps(w, Asks(2, Spawn(2)));
  }
}

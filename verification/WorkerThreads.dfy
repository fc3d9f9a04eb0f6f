/** The workers of the process table as threads of the scheduler. */
module WorkerThreads {
  import opened Options
  import Pipe
  import opened Kernel
  import opened KernelInv
  import opened Reap
  import opened Machine
  import opened MachineInv
  import S = Scheduler

  // ----- Workers are threads -----

  /** The thread state of a worker that is at `ph`: only the running thread is in user mode. */
  predicate Matches(ph: Phase, l: S.Life) {
    match ph
    case Fresh => l == S.Ready || l == S.Running
    case InUser => l == S.Running
    case Parked(_) => l == S.Ready || l == S.Running
    case Gone => l == S.Exited
    case Joined => false
  }

  predicate ThreadTied(workers: map<nat, Worker>, t: S.Thread) {
    t.id in workers && Matches(workers[t.id].phase, t.state)
  }

  predicate Holds(s: S.Sched, j: nat, w: nat) {
    1 <= j < |s.threads| && s.threads[j].state != S.Free && s.threads[j].id == w
  }

  /** The threads after the bootstrap thread are the workers that are not joined. */
  ghost predicate Tied(workers: map<nat, Worker>, s: S.Sched) {
    && S.Ok(s)
    && (forall w :: w in workers ==> 0 < w < s.nextId)
    && s.threads[0].id !in workers
    && (forall j :: 1 <= j < |s.threads| && s.threads[j].state != S.Free ==> ThreadTied(workers, s.threads[j]))
    && (forall w :: w in Threads(workers) ==> exists j :: Holds(s, j, w))
  }

  function Elements(q: seq<nat>): set<nat> {
    set w | w in q
  }

  predicate Distinct(q: seq<nat>) {
    forall i, j :: 0 <= i < j < |q| ==> q[i] != q[j]
  }

  lemma {:induction false} DistinctCount(q: seq<nat>)
    requires Distinct(q)
    ensures |Elements(q)| == |q|
  {
    if q == [] {
      assert Elements(q) == {};
    } else {
      var n := |q| - 1;
      DistinctCount(q[..n]);
      assert Elements(q) == Elements(q[..n]) + {q[n]};
    }
  }

  /** While fewer workers than threads are in use, thread_create finds a FREE thread. */
  lemma RoomForThread(workers: map<nat, Worker>, s: S.Sched)
    requires Tied(workers, s) && |Threads(workers)| + 1 < |s.threads|
    ensures S.FirstFree(s, 1) < |s.threads|
  {
    var m := S.FirstFree(s, 1);
    var q := seq(m - 1, j requires 0 <= j < m - 1 => s.threads[j + 1].id);
    DistinctCount(q);
    forall w | w in Elements(q)
      ensures w in Threads(workers)
    {
      var j :| 0 <= j < |q| && q[j] == w;
      assert ThreadTied(workers, s.threads[j + 1]);
    }
    SubsetCount(Elements(q), Threads(workers));
  }

  lemma SubsetCount(a: set<nat>, b: set<nat>)
    requires a <= b
    ensures |a| <= |b|
  {
    assert b == a + (b - a);
  }

  lemma CreateTied(workers: map<nat, Worker>, s: S.Sched, slot: nat)
    requires Tied(workers, s) && |Threads(workers)| + 1 < |s.threads| && 0 < s.nextId < ID_LIMIT
    ensures S.Create(s, true).1 == Some(s.nextId)
    ensures Tied(workers[s.nextId := Worker(slot, Fresh)], S.Create(s, true).0)
  {
    RoomForThread(workers, s);
    S.CreateKeepsOk(s, true);
    var workers', s' := workers[s.nextId := Worker(slot, Fresh)], S.Create(s, true).0;
    assert S.ThreadOk(s, 0);
    forall w | w in Threads(workers')
      ensures exists j :: Holds(s', j, w)
    {
      if w == s.nextId {
        assert Holds(s', S.FirstFree(s, 1), w);
      } else {
        assert w in Threads(workers);
        var j :| Holds(s, j, w);
        assert Holds(s', j, w);
      }
    }
  }

  /** thread_join of every thread in `gone`. */
  function Sweep(s: S.Sched, gone: set<nat>): S.Sched {
    s.(threads := seq(|s.threads|, j requires 0 <= j < |s.threads| =>
      if s.threads[j].state != S.Free && s.threads[j].id in gone then S.NO_THREAD else s.threads[j]))
  }

  lemma JoinThenSweep(s: S.Sched, id: nat, gone: set<nat>)
    requires S.Ok(s) && S.StateOf(s, id) == Some(S.Exited)
    ensures Sweep(s, gone + {id}) == Sweep(S.Join(s, id).0, gone)
  {
    S.JoinByIds(s, id);
    assert Sweep(s, gone + {id}).threads == Sweep(S.Join(s, id).0, gone).threads;
  }

  predicate AllExited(s: S.Sched, ids: seq<nat>) {
    forall id :: id in ids ==> S.StateOf(s, id) == Some(S.Exited)
  }

  /** thread_join of each thread in turn, with its checks; None if one of them is refused or halts. */
  function JoinEach(s: S.Sched, ids: seq<nat>): Option<S.Sched>
    decreases |ids|
  {
    if ids == [] then Some(s)
    else if s.current >= |s.threads| || S.Step(s, S.Joins(ids[0])) == None || !S.Join(s, ids[0]).1 then None
    else JoinEach(S.Join(s, ids[0]).0, ids[1..])
  }

  lemma JoinKeepsExited(s: S.Sched, ids: seq<nat>)
    requires S.Ok(s) && ids != [] && Distinct(ids) && AllExited(s, ids)
    ensures var s' := S.Join(s, ids[0]).0;
            S.Ok(s') && S.Join(s, ids[0]).1 && Distinct(ids[1..]) && AllExited(s', ids[1..])
  {
    S.JoinByIds(s, ids[0]);
    S.JoinKeepsOk(s, ids[0]);
    forall id | id in ids[1..]
      ensures S.StateOf(S.Join(s, ids[0]).0, id) == Some(S.Exited)
    {
      assert id != ids[0];
      assert S.SameThread(S.StateOf(s, id), S.StateOf(S.Join(s, ids[0]).0, id));
    }
  }

  /** Exited threads can be joined in any order: none is refused, and together they are the sweep. */
  lemma {:induction false} SweepIsJoins(s: S.Sched, ids: seq<nat>)
    requires S.Ok(s) && Distinct(ids) && AllExited(s, ids)
    ensures JoinEach(s, ids) == Some(Sweep(s, Elements(ids))) && S.Ok(Sweep(s, Elements(ids)))
    decreases |ids|
  {
    if ids == [] {
      assert Sweep(s, Elements(ids)).threads == s.threads;
    } else {
      JoinKeepsExited(s, ids);
      SweepIsJoins(S.Join(s, ids[0]).0, ids[1..]);
      JoinThenSweep(s, ids[0], Elements(ids[1..]));
      assert Elements(ids) == Elements(ids[1..]) + {ids[0]};
    }
  }

  /** Some workers are joined; the others stay as they are. */
  predicate Joins(workers: map<nat, Worker>, workers': map<nat, Worker>) {
    && (forall w :: w in workers' ==> w in workers)
    && (forall w :: w in workers' && workers'[w].phase != Joined ==> workers'[w] == workers[w])
    && (forall w :: w in workers && workers[w].phase != Gone && workers[w].phase != Joined ==> w in workers' && workers'[w] == workers[w])
  }

  lemma SweepTied(workers: map<nat, Worker>, workers': map<nat, Worker>, s: S.Sched)
    requires Tied(workers, s) && Joins(workers, workers')
    ensures Tied(workers', Sweep(s, Threads(workers) - Threads(workers')))
  {
    var lost := Threads(workers) - Threads(workers');
    var s' := Sweep(s, lost);
    forall j | 0 <= j < |s.threads|
      ensures S.ThreadOk(s', j) && (j == 0 || j == s.current ==> s'.threads[j] == s.threads[j])
      ensures s.threads[j].state != S.Free && j > 0 && s.threads[j].id !in lost ==> ThreadTied(workers', s.threads[j])
    {
      assert S.ThreadOk(s, j);
    }
    forall w | w in Threads(workers')
      ensures exists j :: Holds(s', j, w)
    {
      assert w in Threads(workers);
      var j :| Holds(s, j, w);
      assert Holds(s', j, w);
    }
  }

  lemma PhaseTied(workers: map<nat, Worker>, s: S.Sched, slot: nat, ph: Phase)
    requires Tied(workers, s) && s.current != 0 && (ph == InUser || ph.Parked?)
    ensures Tied(workers[s.threads[s.current].id := Worker(slot, ph)], s)
  {
    var w := s.threads[s.current].id;
    var workers' := workers[w := Worker(slot, ph)];
    assert S.ThreadOk(s, s.current) && S.ThreadOk(s, 0);
    forall v | v in Threads(workers')
      ensures exists j :: Holds(s, j, v)
    {
      if v == w {
        assert Holds(s, s.current, v);
      } else {
        assert v in Threads(workers);
      }
    }
  }

  lemma SelectTied(workers: map<nat, Worker>, s: S.Sched, next: nat)
    requires Tied(workers, s) && next < |s.threads| && s.threads[next].state == S.Ready
    requires s.current == 0 || (s.threads[s.current].id in workers && workers[s.threads[s.current].id].phase.Parked?)
    ensures Tied(workers, S.Select(s, next, false, true))
  {
    S.SelectKeepsOk(s, next, false, true);
    var s' := S.Select(s, next, false, true);
    assert S.ThreadOk(s, s.current);
    forall w | w in Threads(workers)
      ensures exists j :: Holds(s', j, w)
    {
      var j :| Holds(s, j, w);
      assert Holds(s', j, w);
    }
  }

  lemma SwitchTied(workers: map<nat, Worker>, s: S.Sched)
    requires Tied(workers, s)
    requires s.current == 0 || (s.threads[s.current].id in workers && workers[s.threads[s.current].id].phase.Parked?)
    ensures Tied(workers, S.Switch(s, true))
  {
    if S.Pick(s, 1).Some? {
      SelectTied(workers, s, S.Pick(s, 1).value);
    }
  }

  lemma ExitTied(workers: map<nat, Worker>, s: S.Sched, slot: nat)
    requires Tied(workers, s) && s.current != 0
    ensures S.Exit(s).Some?
    ensures Tied(workers[s.threads[s.current].id := Worker(slot, Gone)], S.Exit(s).value)
  {
    S.ExitFindsSuccessor(s);
    var w, s' := s.threads[s.current].id, S.Exit(s).value;
    var workers' := workers[w := Worker(slot, Gone)];
    assert S.ThreadOk(s, s.current) && S.ThreadOk(s, 0);
    forall v | v in Threads(workers')
      ensures exists j :: Holds(s', j, v)
    {
      if v == w {
        assert Holds(s', s.current, v);
      } else {
        assert v in Threads(workers);
        var j :| Holds(s, j, v);
        assert Holds(s', j, v);
      }
    }
  }

  // ----- What a call does to the threads -----

  /** The threads after a call that led from `k` to `k'`: joined workers are gone, started ones new. */
  function Adjust(s: S.Sched, k: State, k': State): (r: S.Sched)
    requires 1 <= |s.threads|
    ensures |r.threads| == |s.threads| && r.current == s.current
  {
    if k'.nextId <= k.nextId then Sweep(s, Threads(k.workers) - Threads(k'.workers))
    else if k'.nextId == k.nextId + 1 then S.Create(s, true).0
    else S.Create(S.Create(s, true).0, true).0
  }

  predicate StartsNone(k: State, k': State) {
    k'.nextId == k.nextId && k'.threadCap == k.threadCap && Joins(k.workers, k'.workers)
  }

  predicate StartsOne(k: State, k': State, a: nat) {
    && k'.nextId == k.nextId + 1 && k'.threadCap == k.threadCap
    && k'.workers == k.workers[k.nextId := Worker(a, Fresh)]
    && |Threads(k.workers)| < k.threadCap && k.nextId < ID_LIMIT
  }

  predicate StartsTwo(k: State, k': State, a: nat, b: nat) {
    && k'.nextId == k.nextId + 2 && k'.threadCap == k.threadCap
    && k'.workers == k.workers[k.nextId := Worker(a, Fresh)][k.nextId + 1 := Worker(b, Fresh)]
    && |Threads(k.workers)| + 2 <= k.threadCap && k.nextId + 1 < ID_LIMIT
  }

  predicate Starts(k: State, k': State) {
    || StartsNone(k, k')
    || StartsOne(k, k', FirstFree(k.slots, 0))
    || StartsTwo(k, k', FirstFree(k.slots, 0), SecondFree(k.slots))
  }

  lemma CreateTwoTied(workers: map<nat, Worker>, s: S.Sched, a: nat, b: nat)
    requires Tied(workers, s) && |Threads(workers)| + 2 < |s.threads| && 0 < s.nextId < ID_LIMIT - 1
    ensures var s' := S.Create(S.Create(s, true).0, true).0;
            && Tied(workers[s.nextId := Worker(a, Fresh)][s.nextId + 1 := Worker(b, Fresh)], s')
            && s'.nextId == s.nextId + 2
  {
    CreateTied(workers, s, a);
    ThreadsGrow(workers, s.nextId, a);
    CreateTied(workers[s.nextId := Worker(a, Fresh)], S.Create(s, true).0, b);
  }

  lemma AdjustTied(k: State, k': State, s: S.Sched)
    requires Tied(k.workers, s) && s.nextId == k.nextId && |s.threads| == k.threadCap + 1 && 0 < k.nextId
    requires Starts(k, k')
    ensures Tied(k'.workers, Adjust(s, k, k')) && Adjust(s, k, k').nextId == k'.nextId
  {
    var a, b := FirstFree(k.slots, 0), SecondFree(k.slots);
    if StartsOne(k, k', a) {
      CreateTied(k.workers, s, a);
    } else if StartsTwo(k, k', a, b) {
      CreateTwoTied(k.workers, s, a, b);
    } else {
      SweepTied(k.workers, k'.workers, s);
    }
  }

  /** Only exited workers are joined. */
  lemma LostAreExited(k: State, k': State, s: S.Sched, ids: seq<nat>)
    requires Tied(k.workers, s) && StartsNone(k, k') && Elements(ids) == Threads(k.workers) - Threads(k'.workers)
    ensures AllExited(s, ids)
  {
    forall w | w in ids
      ensures S.StateOf(s, w) == Some(S.Exited)
    {
      assert w in Elements(ids) && w in Threads(k.workers);
      var j: nat :| Holds(s, j, w);
      assert ThreadTied(k.workers, s.threads[j]);
      S.FoundAt(s, j);
    }
  }

  /** The threads after a call are those that thread_create and thread_join, with their checks, leave: one
      creation for each process started, or one join, in any order, for each process reaped; none
      of them fails. */
  lemma AdjustIsEvents(k: State, k': State, s: S.Sched)
    requires Tied(k.workers, s) && s.nextId == k.nextId && |s.threads| == k.threadCap + 1 && 0 < k.nextId
    requires Starts(k, k')
    ensures k'.nextId == k.nextId ==>
              forall ids :: Distinct(ids) && Elements(ids) == Threads(k.workers) - Threads(k'.workers) ==>
                JoinEach(s, ids) == Some(Adjust(s, k, k'))
    ensures k'.nextId == k.nextId + 1 ==> S.Step(s, S.Creates(true)) == Some(Adjust(s, k, k')) && S.Create(s, true).1.Some?
    ensures k'.nextId == k.nextId + 2 ==>
              && S.Step(s, S.Creates(true)).Some? && S.Create(s, true).1.Some?
              && (var s1 := S.Step(s, S.Creates(true)).value;
                  s1.current < |s1.threads| && S.Create(s1, true).1.Some? && S.Step(s1, S.Creates(true)) == Some(Adjust(s, k, k')))
  {
    var a, b := FirstFree(k.slots, 0), SecondFree(k.slots);
    if StartsOne(k, k', a) {
      CreateTied(k.workers, s, a);
    } else if StartsTwo(k, k', a, b) {
      CreateTied(k.workers, s, a);
      ThreadsGrow(k.workers, s.nextId, a);
      CreateTied(k.workers[s.nextId := Worker(a, Fresh)], S.Create(s, true).0, b);
    } else {
      forall ids | Distinct(ids) && Elements(ids) == Threads(k.workers) - Threads(k'.workers)
        ensures JoinEach(s, ids) == Some(Adjust(s, k, k'))
      {
        LostAreExited(k, k', s, ids);
        SweepIsJoins(s, ids);
      }
    }
  }

  // ----- Which threads each call starts and joins -----

  lemma SpawnImageStarts(k: State, nargs: nat, stdin: Pipe.StdinSel, owner: int, env: ImageEnv)
    ensures Starts(k, SpawnImage(k, nargs, stdin, owner, env).0)
  {
  }

  lemma SpawnPipeStarts(k: State, req: PipeReq, env: PipeEnv)
    ensures Starts(k, SpawnPipe(k, req, env).0)
  {
  }

  lemma ReapedJoins(k: State, i: nat)
    requires ReapInv(k) && i < |k.slots| && Terminal(k.slots[i].state) && WorkerGone(k, i) && Settled(k, i)
    ensures Joins(k.workers, Reaped(k, i).workers)
  {
    forall w | w in k.workers && k.workers[w].slot in Tree(k.slots, i)
      ensures k.workers[w].phase == Gone
    {
      var j := k.workers[w].slot;
      assert InTree(k.slots, i, j);
      assert WorkerGone(k, j);
    }
  }

  lemma WaitStarts(k: State, h: nat, owner: int, self: int)
    requires TableInv(k)
    ensures Starts(k, Wait(k, h, owner, self).0)
  {
    if Takes(k, h, owner, self) {
      WaitTakes(k, h, owner, self);
      InvIsReapInv(k);
      var i := Decode(k, h).value;
      if Settled(k, i) {
        ReapedJoins(k, i);
      }
    } else {
      WaitLeaves(k, h, owner, self);
    }
  }

  lemma FreeStarts(k: State, o: nat)
    requires o < |k.slots| && k.slots[o].ctx.Some? && k.slots[o].ctx.value < |k.ctxs|
    requires k.slots[o].worker in k.workers && k.workers[k.slots[o].worker].phase == Joined
    ensures StartsNone(k, FreedState(k, o))
  {
  }

  lemma JoinStarts(k: State, i: nat)
    requires i < |k.slots| && WorkerGone(k, i)
    ensures StartsNone(k, AfterJoin(k, i))
  {
  }

  lemma FreeTopStarts(k: State)
    requires Inv(k) && k.waiter.Reaping? && TopFrame(k).at == |k.slots|
    ensures StartsNone(k, Resume(k).0)
  {
    var o := TopFrame(k).owner;
    assert FrameOk(k.slots, TopFrame(k)) && SlotOk(k, o);
    assert InFrames(k.waiter.frames, o);
    FreeStarts(k, o);
  }

  lemma ResumeStarts(k: State)
    requires Inv(k) && k.waiter.Reaping?
    ensures StartsNone(k, Resume(k).0)
  {
    var f := TopFrame(k);
    assert FrameOk(k.slots, f);
    if f.at == |k.slots| {
      FreeTopStarts(k);
    } else if WorkerGone(k, f.at) {
      JoinStarts(k, f.at);
    }
  }

  predicate SameThreads(k: State, k': State) {
    k'.workers == k.workers && k'.nextId == k.nextId && k'.threadCap == k.threadCap && k'.waiter == k.waiter
  }

  lemma TerminateThreads(k: State, h: nat, owner: int, self: int)
    ensures SameThreads(k, Terminate(k, h, owner, self).0)
  {
  }

  lemma WriteThreads(k: State, i: nat, src: seq<Pipe.Byte>, copied: bool)
    requires i < |k.slots|
    ensures SameThreads(k, WriteOut(k, i, src, copied).0)
  {
  }

  lemma ReadThreads(k: State, i: nat, len: nat, destOk: bool, copied: bool)
    requires i < |k.slots|
    ensures SameThreads(k, ReadIn(k, i, len, destOk, copied).0)
  {
  }

  /** Whatever call is made, the threads change by thread_create and thread_join alone. */
  lemma CallStarts(k: State, s: Step)
    requires Inv(k) && Enabled(k, s)
    requires !s.DoEnter? && !s.DoTrap? && !s.DoGate? && !s.DoTurn?
    ensures Starts(k, Do(k, s).0)
  {
    if s.DoSpawnImage? {
      SpawnImageStarts(k, s.nargs, s.stdin, s.owner, s.ienv);
    } else if s.DoSpawnPipe? {
      SpawnPipeStarts(k, s.req, s.penv);
    } else if s.DoWait? {
      WaitStarts(k, s.h, s.wowner, s.wself);
    } else if s.DoResume? {
      ResumeStarts(k);
    } else if s.DoTerminate? {
      TerminateThreads(k, s.h, s.towner, s.tself);
    } else if s.DoWrite? {
      WriteThreads(k, s.i, s.src, s.copied);
    } else {
      ReadThreads(k, s.i, s.len, s.destOk, s.copied);
    }
  }

  /** A worker that has not exited keeps its place, in the table of workers and among the threads. */
  lemma StartsKeeps(k: State, k': State, s: S.Sched, j: nat)
    requires Tied(k.workers, s) && s.nextId == k.nextId && Starts(k, k') && 1 <= j < |s.threads|
    requires s.threads[j].state != S.Free && s.threads[j].state != S.Exited
    ensures var w := s.threads[j].id;
            && w in k.workers && w in k'.workers && k'.workers[w] == k.workers[w]
            && Adjust(s, k, k').threads[j] == s.threads[j]
  {
    assert ThreadTied(k.workers, s.threads[j]);
  }

  /** The phase a worker's own step leads to. */
  function NextPhase(k: State, s: Step): Phase
    requires s.DoEnter? || s.DoTrap? || s.DoGate? || s.DoTurn?
    requires Seated(k, s.i)
  {
    match s
    case DoEnter(_) => InUser
    case DoTrap(_) => Parked(RunOther)
    case DoGate(_, life, _, _) => Parked(if life == Exited then RunExited else RunFaulted)
    case DoTurn(i) => if PhaseOf(k, i) == Parked(RunOther) && !k.slots[i].killRequested then InUser else Gone
  }

  predicate MovesTo(k: State, k': State, i: nat, ph: Phase)
    requires i < |k.slots|
  {
    && k'.workers == k.workers[k.slots[i].worker := Worker(i, ph)]
    && k'.nextId == k.nextId && k'.threadCap == k.threadCap && k'.waiter == k.waiter
  }

  lemma GateMoves(k: State, i: nat, life: Life, a: nat, b: nat)
    requires Seated(k, i) && (life == Exited || life == Faulted)
    ensures GateTerminal(k, i, life, a, b).1 != Panic ==>
              MovesTo(k, GateTerminal(k, i, life, a, b).0, i, Parked(if life == Exited then RunExited else RunFaulted))
  {
  }

  lemma TurnMoves(k: State, i: nat)
    requires Seated(k, i) && PhaseOf(k, i).Parked? && PhaseOk(k.slots[i], CtxOf(k, i), PhaseOf(k, i))
    ensures MovesTo(k, WorkerTurn(k, i).0, i, NextPhase(k, DoTurn(i)))
  {
  }

  lemma OwnStepMoves(k: State, s: Step)
    requires Inv(k) && Enabled(k, s) && (s.DoEnter? || s.DoTrap? || s.DoGate? || s.DoTurn?)
    requires Seated(k, s.i) && Do(k, s).1 != Panic
    ensures MovesTo(k, Do(k, s).0, s.i, NextPhase(k, s))
  {
    assert SlotOk(k, s.i);
    if s.DoGate? {
      GateMoves(k, s.i, s.life, s.a, s.b);
    } else if s.DoTurn? {
      TurnMoves(k, s.i);
    }
  }
}

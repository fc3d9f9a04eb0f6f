/** What can happen to a process in one step, and that every answer about its end has its cause in the run. */
module Causes {
  import opened Options
  import Pipe
  import opened Kernel
  import opened KernelInv
  import opened Reap
  import opened Machine
  import opened MachineInv
  import opened Runs
  import opened Theorems
  import opened Effects

  // ----- One step -----

  /** The process of slot `j` ends with step `s`: an exit with its code, a fault with its vector and error, or
      the turn of its worker that finds a kill request. */
  predicate EndsBy(k: State, s: Step, j: nat, status: ProcStatus) {
    match s
    case DoGate(i, life, a, b) =>
      i == j && status == (if life == Exited then StExited(a % 0x1_0000_0000) else StFaulted(a % 0x1_0000_0000, b % 0x1_0000_0000))
    case DoTurn(i) => i == j && Inv(k) && AtPhase(k, j, Parked(RunOther)) && k.slots[j].killRequested && status == StAborted
    case _ => false
  }

  /** Slot `j` holds the record of that end. */
  predicate Records(s: Slot, t: Slot, status: ProcStatus) {
    match status
    case StExited(code) => t == s.(state := Exited, exitCode := t.exitCode) && t.exitCode % 0x1_0000_0000 == code
    case StFaulted(vector, error) =>
      t == s.(state := Faulted, faultVector := t.faultVector, faultError := t.faultError)
      && t.faultVector % 0x1_0000_0000 == vector && t.faultError % 0x1_0000_0000 == error
    case StAborted => t == s.(state := Aborted)
    case Running => false
  }

  /** A granted kill request for slot `j`. */
  predicate Kills(k: State, s: Step, j: nat) {
    s.DoTerminate? && Grants(k, s.h, s.towner, s.tself) && Decode(k, s.h) == Some(j)
  }

  /** Everything that one step can do to the live slot `j`: nothing; a kill request that was granted; the loss
      of its owner, with a kill request; the join of its worker, or its release, once it is over; its end. */
  ghost predicate Fate(k: State, s: Step, j: nat, t: Slot)
    requires j < |k.slots|
  {
    var u := k.slots[j];
    || t == u
    || (Kills(k, s, j) && t == u.(killRequested := true))
    || ((s.DoWait? || s.DoResume?) && LiveState(u.state) && u.owner != KERNEL_OWNER && t == u.(owner := KERNEL_OWNER, killRequested := true))
    || ((s.DoWait? || s.DoResume?) && Terminal(u.state) && (t == u.(workerValid := false) || (t.state == Free && t.gen == u.gen + 1)))
    || (u.state == Active && exists status :: EndsBy(k, s, j, status) && Records(u, t, status))
  }

  lemma GateFate(k: State, i: nat, life: Life, a: nat, b: nat)
    requires Inv(k) && Enabled(k, DoGate(i, life, a, b))
    ensures var k' := Do(k, DoGate(i, life, a, b)).0;
            && |k'.slots| == |k.slots| && (forall j :: 0 <= j < |k.slots| && j != i ==> k'.slots[j] == k.slots[j])
            && k.slots[i].state == Active
            && Records(k.slots[i], k'.slots[i], if life == Exited then StExited(a % 0x1_0000_0000) else StFaulted(a % 0x1_0000_0000, b % 0x1_0000_0000))
  {
    assert SlotOk(k, i);
  }

  lemma TurnFate(k: State, i: nat)
    requires Inv(k) && Enabled(k, DoTurn(i))
    ensures var k' := Do(k, DoTurn(i)).0;
            && |k'.slots| == |k.slots| && (forall j :: 0 <= j < |k.slots| && j != i ==> k'.slots[j] == k.slots[j])
            && (if AtPhase(k, i, Parked(RunOther)) && k.slots[i].killRequested
                then k.slots[i].state == Active && Records(k.slots[i], k'.slots[i], StAborted)
                else k'.slots[i] == k.slots[i])
  {
    assert SlotOk(k, i);
  }

  lemma OwnStepFate(k: State, s: Step, j: nat)
    requires Inv(k) && Enabled(k, s) && (s.DoEnter? || s.DoTrap? || s.DoGate? || s.DoTurn?) && IsLive(k, j)
    ensures |Do(k, s).0.slots| == |k.slots| && Fate(k, s, j, Do(k, s).0.slots[j])
  {
    assert SlotOk(k, s.i);
    match s
    case DoEnter(i) =>
    case DoTrap(i) =>
    case DoGate(i, life, a, b) =>
      GateFate(k, i, life, a, b);
      var status := if life == Exited then StExited(a % 0x1_0000_0000) else StFaulted(a % 0x1_0000_0000, b % 0x1_0000_0000);
      assert EndsBy(k, s, i, status);
    case DoTurn(i) =>
      TurnFate(k, i);
      assert AtPhase(k, i, Parked(RunOther)) && k.slots[i].killRequested ==> EndsBy(k, s, i, StAborted);
  }

  lemma SpawnImageFate(k: State, nargs: nat, stdin: Pipe.StdinSel, owner: int, env: ImageEnv, j: nat)
    requires IsLive(k, j)
    ensures var k' := SpawnImage(k, nargs, stdin, owner, env).0; |k'.slots| == |k.slots| && k'.slots[j] == k.slots[j]
  {
  }

  lemma SpawnPipeFate(k: State, req: PipeReq, env: PipeEnv, j: nat)
    requires IsLive(k, j)
    ensures var k' := SpawnPipe(k, req, env).0; |k'.slots| == |k.slots| && k'.slots[j] == k.slots[j]
  {
    var out := SpawnPipe(k, req, env).1;
    if out.Error? {
      SpawnPipeErrorChangesNothing(k, req, env);
    } else if out.Handles? {
      SpawnPipeSuccessAddsPipeline(k, req, env);
    }
  }

  lemma ReapFate(k: State, s: Step, i: nat, j: nat)
    requires ReapInv(k) && NoWrap(k) && s.DoWait? && i < |k.slots| && Terminal(k.slots[i].state)
    requires IsLive(k, j) && (LiveState(k.slots[j].state) || Terminal(k.slots[j].state))
    ensures |Reaped(k, i).slots| == |k.slots| && Fate(k, s, j, Reaped(k, i).slots[j])
  {
    ReapedSlot(k, i, j);
    if Freed(k, Reaped(k, i), j) {
      TreeIsYounger(k.slots, i, j);
    }
  }

  lemma WaitFate(k: State, s: Step, j: nat)
    requires Inv(k) && NoWrap(k) && s.DoWait? && IsLive(k, j)
    ensures var t := Wait(k, s.h, s.wowner, s.wself).0.slots; |t| == |k.slots| && Fate(k, s, j, t[j])
  {
    InvIsReapInv(k);
    assert SlotOk(k, j);
    if Takes(k, s.h, s.wowner, s.wself) {
      WaitTakes(k, s.h, s.wowner, s.wself);
      ReapFate(k, s, Decode(k, s.h).value, j);
    } else {
      WaitLeaves(k, s.h, s.wowner, s.wself);
    }
  }

  lemma FreeTopFate(k: State, j: nat)
    requires k.waiter.Reaping? && k.waiter.frames != [] && TopFrame(k).owner < |k.slots| && j < |k.slots| && NoWrap(k)
    requires k.slots[TopFrame(k).owner].ctx.Some? && k.slots[TopFrame(k).owner].ctx.value < |k.ctxs|
    requires Terminal(k.slots[TopFrame(k).owner].state)
    ensures |FreeTop(k).0.slots| == |k.slots| && Fate(k, DoResume, j, FreeTop(k).0.slots[j])
  {
    var t := FreeTop(k).0.slots[j];
    assert t == k.slots[j] || (j == TopFrame(k).owner && t.state == Free && t.gen == k.slots[j].gen + 1);
  }

  lemma ScanFate(k: State, j: nat)
    requires Inv(k) && k.waiter.Reaping? && IsLive(k, j) && TopFrame(k).at < |k.slots|
    ensures var t := Resume(k).0.slots;
            && |t| == |k.slots|
            && (|| t[j] == k.slots[j]
                || (LiveState(k.slots[j].state) && k.slots[j].owner == TopFrame(k).owner
                    && t[j] == k.slots[j].(owner := KERNEL_OWNER, killRequested := true))
                || (Terminal(k.slots[j].state) && t[j] == k.slots[j].(workerValid := false)))
  {
    assert FrameOk(k.slots, TopFrame(k)) && SlotOk(k, TopFrame(k).at);
  }

  lemma ResumeFate(k: State, j: nat)
    requires Inv(k) && NoWrap(k) && k.waiter.Reaping? && IsLive(k, j)
    ensures |Resume(k).0.slots| == |k.slots| && Fate(k, DoResume, j, Resume(k).0.slots[j])
  {
    var f := TopFrame(k);
    assert FrameOk(k.slots, f) && SlotOk(k, f.owner);
    if f.at == |k.slots| {
      FreeTopFate(k, j);
    } else {
      ScanFate(k, j);
    }
  }

  lemma TerminateFate(k: State, s: Step, j: nat)
    requires Inv(k) && s.DoTerminate? && IsLive(k, j)
    ensures var t := Terminate(k, s.h, s.towner, s.tself).0.slots; |t| == |k.slots| && Fate(k, s, j, t[j])
  {
    TerminateExactly(k, s.h, s.towner, s.tself);
    if Decode(k, s.h).Some? {
      assert SlotOk(k, Decode(k, s.h).value);
    }
  }

  lemma TransferFate(k: State, s: Step)
    requires (s.DoWrite? || s.DoRead?) && s.i < |k.slots|
    ensures s.DoWrite? ==> WriteOut(k, s.i, s.src, s.copied).0.slots == k.slots
    ensures s.DoRead? ==> ReadIn(k, s.i, s.len, s.destOk, s.copied).0.slots == k.slots
  {
  }

  lemma CallFate(k: State, s: Step, j: nat)
    requires Inv(k) && NoWrap(k) && Enabled(k, s) && IsLive(k, j)
    requires s.DoSpawnImage? || s.DoSpawnPipe? || s.DoTerminate? || s.DoWrite? || s.DoRead?
    ensures |Do(k, s).0.slots| == |k.slots| && Fate(k, s, j, Do(k, s).0.slots[j])
  {
    if s.DoSpawnImage? {
      SpawnImageFate(k, s.nargs, s.stdin, s.owner, s.ienv, j);
    } else if s.DoSpawnPipe? {
      SpawnPipeFate(k, s.req, s.penv, j);
    } else if s.DoTerminate? {
      TerminateFate(k, s, j);
    } else {
      TransferFate(k, s);
    }
  }

  /** Whatever step is taken, a live slot meets one of these fates. */
  lemma StepFate(k: State, s: Step, j: nat)
    requires Inv(k) && NoWrap(k) && Enabled(k, s) && IsLive(k, j)
    ensures |Do(k, s).0.slots| == |k.slots| && Fate(k, s, j, Do(k, s).0.slots[j])
  {
    if s.DoWait? {
      WaitFate(k, s, j);
    } else if s.DoResume? {
      ResumeFate(k, j);
    } else if s.DoEnter? || s.DoTrap? || s.DoGate? || s.DoTurn? {
      OwnStepFate(k, s, j);
    } else {
      CallFate(k, s, j);
    }
  }

  /** A process changes owner only to the kernel, while it runs, and with a kill request; its generation
      changes only when its slot becomes FREE; and a kill request comes from a granted call or from
      the loss of its owner. */
  lemma OwnerKillAndGeneration(k: State, s: Step, j: nat)
    requires Inv(k) && NoWrap(k) && Enabled(k, s) && IsLive(k, j)
    ensures |Do(k, s).0.slots| == |k.slots|
    ensures var u, t := k.slots[j], Do(k, s).0.slots[j];
            && (t.gen != u.gen ==> t.state == Free && t.gen == u.gen + 1 && Terminal(u.state))
            && (t.gen == u.gen && t.owner != u.owner ==> t.owner == KERNEL_OWNER && t.killRequested && !Terminal(u.state))
            && (t.gen == u.gen && t.killRequested && !u.killRequested ==> Kills(k, s, j) || t.owner != u.owner)
  {
    StepFate(k, s, j);
  }

  // ----- The heap -----

  /** The heap without the ring of the pipe. */
  function Elsewhere(k: State): set<nat> {
    if k.ring.Some? then k.heap - {k.ring.value} else k.heap
  }

  lemma CloseHeap(k: State, i: nat)
    requires i < |k.slots|
    ensures Elsewhere(CloseEnd(k, i).0) == Elsewhere(k)
  {
  }

  lemma OwnStepHeap(k: State, s: Step)
    requires Inv(k) && Enabled(k, s) && (s.DoEnter? || s.DoTrap? || s.DoGate? || s.DoTurn?)
    ensures Elsewhere(Do(k, s).0) == Elsewhere(k)
  {
    var i := s.i;
    assert SlotOk(k, i);
    var t, c := k.slots[i], CtxOf(k, i);
    if s.DoGate? {
      CloseHeap(Put(k, i, t.(state := Exited, exitCode := s.a), c.(state := UExited, exitCode := s.a), Parked(RunExited)), i);
      CloseHeap(Put(k, i, t.(state := Faulted, faultVector := s.a, faultError := s.b),
                    c.(state := UFaulted, faultVector := s.a, faultError := s.b), Parked(RunFaulted)), i);
    } else if s.DoTurn? {
      CloseHeap(Put(k, i, t.(state := Aborted), c.(state := UAborted, bound := false), Gone), i);
    }
  }

  lemma SpawnPipeHeap(k: State, req: PipeReq, env: PipeEnv)
    requires Inv(k) && SpawnPipe(k, req, env).1 != Panic
    ensures Elsewhere(SpawnPipe(k, req, env).0) == Elsewhere(k)
  {
    if SpawnPipe(k, req, env).1.Error? {
      SpawnPipeErrorChangesNothing(k, req, env);
    } else {
      SpawnPipeSuccessAddsPipeline(k, req, env);
    }
  }

  lemma ResumeHeap(k: State)
    requires Inv(k) && k.waiter.Reaping?
    ensures Resume(k).0.heap == k.heap && Resume(k).0.ring == k.ring
  {
    assert FrameOk(k.slots, TopFrame(k)) && SlotOk(k, TopFrame(k).owner);
  }

  lemma OtherCallsHeap(k: State, s: Step)
    requires Inv(k) && Enabled(k, s) && (s.DoSpawnImage? || s.DoTerminate? || s.DoWait? || s.DoWrite? || s.DoRead?)
    ensures Do(k, s).0.heap == k.heap && Do(k, s).0.ring == k.ring
  {
  }

  lemma StepHeap(k: State, s: Step)
    requires Inv(k) && Enabled(k, s) && Do(k, s).1 != Panic
    ensures Elsewhere(Do(k, s).0) == Elsewhere(k)
  {
    if s.DoSpawnPipe? {
      SpawnPipeHeap(k, s.req, s.penv);
    } else if s.DoResume? {
      ResumeHeap(k);
    } else if s.DoEnter? || s.DoTrap? || s.DoGate? || s.DoTurn? {
      OwnStepHeap(k, s);
    } else {
      OtherCallsHeap(k, s);
    }
  }

  lemma RunStepHeap(states: seq<State>, steps: seq<Step>, outs: seq<Outcome>, t: nat)
    requires IsRun(states, steps, outs) && t < |steps|
    ensures Elsewhere(states[t + 1]) == Elsewhere(states[t])
  {
    RunLater(states, steps, outs, t, t);
    assert Follows(states[t], steps[t], states[t + 1], outs[t]);
    FollowedHeap(states[t], steps[t], states[t + 1], outs[t]);
  }

  lemma FollowedHeap(k: State, s: Step, k': State, out: Outcome)
    requires Inv(k) && Follows(k, s, k', out)
    ensures Elsewhere(k') == Elsewhere(k)
  {
    StepHeap(k, s);
  }

  lemma RingInHeap(states: seq<State>, steps: seq<Step>, outs: seq<Outcome>, j: nat)
    requires IsRun(states, steps, outs) && j < |states|
    ensures states[j].pipe.live <==> states[j].ring.Some?
    ensures states[j].ring.Some? ==> states[j].ring.value in states[j].heap
  {
    RunLater(states, steps, outs, j, j);
  }

  /** No step of a run leaks a heap block or takes one that is not its own: the heap is what it was, and the
      ring while a pipe is live. */
  lemma {:induction false} HeapIsConserved(states: seq<State>, steps: seq<Step>, outs: seq<Outcome>, i: nat, j: nat)
    requires IsRun(states, steps, outs) && i <= j < |states|
    ensures Elsewhere(states[j]) == Elsewhere(states[i])
    ensures states[j].pipe.live <==> states[j].ring.Some?
    ensures states[j].heap == Elsewhere(states[i]) + (if states[j].ring.Some? then {states[j].ring.value} else {})
    decreases j
  {
    RingInHeap(states, steps, outs, j);
    if i < j {
      HeapIsConserved(states, steps, outs, i, j - 1);
      RunStepHeap(states, steps, outs, j - 1);
    }
  }

  // ----- Whole runs -----

  lemma AnswerIsRecord(k: State, s: Step, h: nat)
    requires Inv(k) && NoWrap(k) && Enabled(k, s) && Answers(k, s) == Some(h) && Consumes(Do(k, s).1)
    ensures h % HANDLE_LIMIT < |k.slots| && Decode(k, h) == Some(h % HANDLE_LIMIT)
    ensures var t := k.slots[h % HANDLE_LIMIT];
            match t.state
            case Exited => Do(k, s).1 == Status(StExited(t.exitCode % 0x1_0000_0000))
            case Faulted => Do(k, s).1 == Status(StFaulted(t.faultVector % 0x1_0000_0000, t.faultError % 0x1_0000_0000))
            case Aborted => Do(k, s).1 == Status(StAborted)
            case _ => false
  {
    ConsumeBumpsGeneration(k, s, h);
    ReportsRecord(k, s, h);
  }

  lemma EndIsRecorded(k: State, s: Step, j: nat, status: ProcStatus)
    requires Inv(k) && Enabled(k, s) && j < |k.slots| && EndsBy(k, s, j, status)
    ensures |Do(k, s).0.slots| == |k.slots| && k.slots[j].state == Active && Records(k.slots[j], Do(k, s).0.slots[j], status)
  {
    if s.DoGate? {
      GateFate(k, s.i, s.life, s.a, s.b);
    } else {
      TurnFate(k, s.i);
    }
  }

  /** The end of a process is what a wait reports of it, whatever happens in between: the exit code, the fault's
      vector and error in this order, each cut to 32 bits, or that it was aborted. */
  lemma WaitReportsEnd(states: seq<State>, steps: seq<Step>, outs: seq<Outcome>, i: nat, j: nat, h: nat, status: ProcStatus)
    requires IsRun(states, steps, outs) && i < j < |steps|
    requires h % HANDLE_LIMIT < |states[i].slots| && states[i].slots[h % HANDLE_LIMIT].gen == h / HANDLE_LIMIT
    requires EndsBy(states[i], steps[i], h % HANDLE_LIMIT, status)
    requires Answers(states[j], steps[j]) == Some(h) && Consumes(outs[j])
    ensures outs[j] == Status(status)
  {
    var slot := h % HANDLE_LIMIT;
    RunLater(states, steps, outs, i, i);
    RunLater(states, steps, outs, j, j);
    assert Follows(states[i], steps[i], states[i + 1], outs[i]) && Follows(states[j], steps[j], states[j + 1], outs[j]);
    EndIsRecorded(states[i], steps[i], slot, status);
    AnswerIsRecord(states[j], steps[j], h);
    FirstRecordWins(states, steps, outs, i + 1, j, slot);
  }

  lemma EndingStep(k: State, s: Step, j: nat) returns (status: ProcStatus)
    requires Inv(k) && NoWrap(k) && Enabled(k, s) && j < |k.slots| && k.slots[j].state == Active
    requires |Do(k, s).0.slots| == |k.slots| && Do(k, s).0.slots[j].gen == k.slots[j].gen && Terminal(Do(k, s).0.slots[j].state)
    ensures EndsBy(k, s, j, status)
  {
    StepFate(k, s, j);
    status :| EndsBy(k, s, j, status) && Records(k.slots[j], Do(k, s).0.slots[j], status);
  }

  /** A running process that is over later has ended in between. */
  lemma {:induction false} EndIsFound(states: seq<State>, steps: seq<Step>, outs: seq<Outcome>, i: nat, j: nat, slot: nat) returns (t: nat, status: ProcStatus)
    requires IsRun(states, steps, outs) && i <= j < |states|
    requires slot < |states[i].slots| == |states[j].slots| && states[i].slots[slot].state == Active
    requires states[j].slots[slot].gen == states[i].slots[slot].gen && Terminal(states[j].slots[slot].state)
    ensures i <= t < j && |states[t].slots| == |states[i].slots| && states[t].slots[slot].gen == states[i].slots[slot].gen
    ensures EndsBy(states[t], steps[t], slot, status)
    decreases j - i
  {
    RunLater(states, steps, outs, i, i + 1);
    RunLater(states, steps, outs, i + 1, j);
    assert Follows(states[i], steps[i], states[i + 1], outs[i]);
    assert Onward(states[i].slots[slot], states[i + 1].slots[slot]) && Onward(states[i + 1].slots[slot], states[j].slots[slot]);
    if Terminal(states[i + 1].slots[slot].state) {
      t := i;
      status := EndingStep(states[i], steps[i], slot);
    } else {
      OnlySettledStates(states[i + 1]);
      t, status := EndIsFound(states, steps, outs, i + 1, j, slot);
    }
  }

  /** Every terminal answer has its cause: if the process ran before, the run holds the exit, the fault or the
      killed turn that the answer reports. */
  lemma AnswerHasCause(states: seq<State>, steps: seq<Step>, outs: seq<Outcome>, i: nat, j: nat, h: nat)
    requires IsRun(states, steps, outs) && i <= j < |steps|
    requires h % HANDLE_LIMIT < |states[i].slots| && states[i].slots[h % HANDLE_LIMIT].gen == h / HANDLE_LIMIT
    requires states[i].slots[h % HANDLE_LIMIT].state == Active
    requires Answers(states[j], steps[j]) == Some(h) && Consumes(outs[j])
    ensures exists t :: i <= t < j && EndsBy(states[t], steps[t], h % HANDLE_LIMIT, outs[j].status)
  {
    var slot := h % HANDLE_LIMIT;
    RunLater(states, steps, outs, i, j);
    assert Follows(states[j], steps[j], states[j + 1], outs[j]);
    AnswerIsRecord(states[j], steps[j], h);
    var t, status := EndIsFound(states, steps, outs, i, j, slot);
    WaitReportsEnd(states, steps, outs, t, j, h, status);
    assert EndsBy(states[t], steps[t], slot, outs[j].status);
  }
}

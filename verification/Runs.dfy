/** Whole runs of the process-table machine. */
module Runs {
  import opened Options
  import Pipe
  import opened Kernel
  import opened KernelInv
  import opened Reap
  import opened Machine
  import opened MachineInv

  /** `t` is the same slot later. Within one generation a slot goes FREE, ACTIVE, terminal and
      never back; what it runs on is fixed, a terminal record is final, a kill request stays. */
  predicate Onward(s: Slot, t: Slot) {
    && s.gen <= t.gen
    && (s.gen == t.gen && s.state != Free ==>
          && t.state != Free
          && t.worker == s.worker && t.ctx == s.ctx && t.stdin == s.stdin && t.stdout == s.stdout
          && (s.killRequested ==> t.killRequested)
          && (Terminal(s.state) ==>
                && t.state == s.state
                && t.exitCode == s.exitCode && t.faultVector == s.faultVector && t.faultError == s.faultError))
  }

  predicate Piped(s: Slot) {
    s.state == Active && (s.stdin == Pipe.StdinPipe || s.stdout == Pipe.StdoutPipe)
  }

  predicate Later(k: State, k': State) {
    && |k'.slots| == |k.slots|
    && k'.pipeCap == k.pipeCap
    && k.nextId <= k'.nextId
    && (forall i :: 0 <= i < |k.slots| ==> Onward(k.slots[i], k'.slots[i]))
    && Pipe.Later(k.pipe, k'.pipe)
    && (forall i :: 0 <= i < |k.slots| && Piped(k.slots[i]) && Piped(k'.slots[i]) && k.slots[i].gen == k'.slots[i].gen ==>
          k'.pipe.attached == k.pipe.attached)
  }

  lemma LaterTransitive(a: State, b: State, c: State)
    requires Later(a, b) && Later(b, c)
    requires forall i :: 0 <= i < |b.slots| && b.slots[i].state != Free ==> b.slots[i].state == Active || Terminal(b.slots[i].state)
    ensures Later(a, c)
  {
    Pipe.LaterTransitive(a.pipe, b.pipe, c.pipe);
    forall i | 0 <= i < |a.slots|
      ensures Onward(a.slots[i], c.slots[i])
      ensures Piped(a.slots[i]) && Piped(c.slots[i]) && a.slots[i].gen == c.slots[i].gen ==> c.pipe.attached == a.pipe.attached
    {
      assert Onward(a.slots[i], b.slots[i]) && Onward(b.slots[i], c.slots[i]);
    }
  }

  /** A step that leaves the pipe attached as it was, or attaches one where there was none. */
  lemma LaterBySlots(k: State, k': State)
    requires RolesOk(k)
    requires |k'.slots| == |k.slots| && k'.pipeCap == k.pipeCap && k.nextId <= k'.nextId
    requires forall i :: 0 <= i < |k.slots| ==> Onward(k.slots[i], k'.slots[i])
    requires Pipe.Later(k.pipe, k'.pipe)
    requires k'.pipe.attached == k.pipe.attached || !k.pipe.live
    ensures Later(k, k')
  {
  }

  lemma PutOnward(k: State, i: nat, s: Slot, c: Ctx, ph: Phase)
    requires RolesOk(k) && Seated(k, i)
    requires Onward(k.slots[i], s)
    ensures Later(k, Put(k, i, s, c, ph))
  {
    LaterBySlots(k, Put(k, i, s, c, ph));
  }

  lemma CloseOnward(k: State, i: nat, s: Slot, c: Ctx, ph: Phase)
    requires RolesOk(k) && Pipe.Ok(k.pipe, k.pipeCap) && Seated(k, i)
    requires Onward(k.slots[i], s)
    ensures Later(k, CloseEnd(Put(k, i, s, c, ph), i).0)
  {
    var k' := CloseEnd(Put(k, i, s, c, ph), i).0;
    CloseTouchesPipe(Put(k, i, s, c, ph), i);
    Pipe.StepLater(k.pipe, Pipe.OpTerminal(i, s.gen), 0, k.pipeCap);
    LaterBySlots(k, k');
  }

  lemma CloseTouchesPipe(k: State, i: nat)
    requires i < |k.slots|
    ensures var k' := CloseEnd(k, i).0;
            && k'.slots == k.slots && k'.nextId == k.nextId && k'.pipeCap == k.pipeCap
            && k'.pipe == Pipe.NoteTerminal(k.pipe, i, k.slots[i].gen).0
  {
  }

  lemma SlotStepOnward(k: State, s: Step)
    requires Inv(k) && Enabled(k, s)
    requires s.DoEnter? || s.DoTrap? || s.DoGate? || s.DoTurn?
    ensures Later(k, Do(k, s).0)
  {
    var i := s.i;
    assert SlotOk(k, i);
    var t, c := k.slots[i], CtxOf(k, i);
    match s
    case DoEnter(_) => PutOnward(k, i, t, c.(bound := true, entered := true), InUser);
    case DoTrap(_) => PutOnward(k, i, t, c, Parked(RunOther));
    case DoGate(_, life, a, b) =>
      if life == Exited {
        CloseOnward(k, i, t.(state := Exited, exitCode := a), c.(state := UExited, exitCode := a), Parked(RunExited));
      } else {
        CloseOnward(k, i, t.(state := Faulted, faultVector := a, faultError := b),
                    c.(state := UFaulted, faultVector := a, faultError := b), Parked(RunFaulted));
      }
    case DoTurn(_) =>
      if PhaseOf(k, i) == Parked(RunOther) {
        if t.killRequested {
          CloseOnward(k, i, t.(state := Aborted), c.(state := UAborted, bound := false), Gone);
        } else {
          PutOnward(k, i, t, c, InUser);
        }
      } else {
        PutOnward(k, i, t, c.(bound := false), Gone);
      }
  }

  lemma WriteOnward(k: State, i: nat, src: seq<Pipe.Byte>, copied: bool)
    requires Inv(k) && i < |k.slots|
    ensures Later(k, WriteOut(k, i, src, copied).0)
  {
    Pipe.StepLater(k.pipe, Pipe.OpWrite(i, k.slots[i].gen, src), 0, k.pipeCap);
    Pipe.LaterSelf(k.pipe);
    LaterBySlots(k, WriteOut(k, i, src, copied).0);
  }

  lemma ReadOnward(k: State, i: nat, len: nat, destOk: bool, copied: bool)
    requires Inv(k) && i < |k.slots|
    ensures Later(k, ReadIn(k, i, len, destOk, copied).0)
  {
    var k' := ReadIn(k, i, len, destOk, copied).0;
    var op := Pipe.OpStage(i, k.slots[i].gen, len);
    var (p, r) := Pipe.Stage(k.pipe, i, k.slots[i].gen, len, k.pipeCap);
    Pipe.LaterSelf(k.pipe);
    Pipe.StepLater(k.pipe, op, 0, k.pipeCap);
    Pipe.StepKeepsOk(k.pipe, op, 0, k.pipeCap);
    if r.Staged? {
      Pipe.StepLater(p, Pipe.OpCommit(|r.bytes|), 0, k.pipeCap);
      Pipe.LaterTransitive(k.pipe, p, Pipe.Commit(p, |r.bytes|).0);
    }
    LaterBySlots(k, k');
  }

  lemma ReapedOnward(k: State, i: nat)
    requires ReapInv(k) && NoWrap(k) && i < |k.slots| && Terminal(k.slots[i].state)
    ensures forall j :: 0 <= j < |k.slots| ==> Onward(k.slots[j], Reaped(k, i).slots[j])
  {
    TreeSealed(k, i);
  }

  lemma WaitOnward(k: State, h: nat, owner: int, self: int)
    requires Inv(k) && NoWrap(k)
    ensures Later(k, Wait(k, h, owner, self).0)
  {
    if Takes(k, h, owner, self) {
      WaitTakes(k, h, owner, self);
      ConsumeOnward(k, h, Decode(k, h).value, self);
    } else {
      WaitLeaves(k, h, owner, self);
      LaterSelf(k);
    }
  }

  lemma ConsumeOnward(k: State, h: nat, i: nat, self: int)
    requires Inv(k) && NoWrap(k) && i < |k.slots| && Terminal(k.slots[i].state) && OwnersOk(k.slots)
    ensures Later(k, Consume(k, h, i, self).0)
  {
    if Settled(k, i) {
      ReapedLater(k, i);
    } else if self < 0 {
      JoinLater(k, i, Reaping(h, StatusOf(k.slots[i]), [Frame(i, 0)], false));
    } else {
      LaterSelf(k);
    }
  }

  lemma ReapedLater(k: State, i: nat)
    requires Inv(k) && NoWrap(k) && i < |k.slots| && Terminal(k.slots[i].state) && OwnersOk(k.slots)
    ensures Later(k, Reaped(k, i))
  {
    InvIsReapInv(k);
    ReapedOnward(k, i);
    Pipe.LaterSelf(k.pipe);
    LaterBySlots(k, Reaped(k, i));
  }

  lemma JoinLater(k: State, i: nat, w: Waiter)
    requires Inv(k) && i < |k.slots|
    ensures Later(k, AfterJoin(k, i).(waiter := w))
  {
    Pipe.LaterSelf(k.pipe);
    LaterBySlots(k, AfterJoin(k, i).(waiter := w));
  }

  /** Each step of a yielded reap touches at most one slot. */
  predicate OneSlot(k: State, k': State) {
    && k'.pipe == k.pipe && k'.nextId == k.nextId && k'.pipeCap == k.pipeCap
    && (|| k'.slots == k.slots
        || (exists i :: 0 <= i < |k.slots| && k'.slots == k.slots[i := OrphanSlot(k.slots[i])])
        || (exists i :: 0 <= i < |k.slots| && k'.slots == k.slots[i := k.slots[i].(workerValid := false)])
        || (exists i :: 0 <= i < |k.slots| && k'.slots == k.slots[i := FreedSlot(k.slots[i])]))
  }

  lemma FreeTopTouchesOne(k: State)
    requires k.waiter.Reaping? && k.waiter.frames != [] && TopFrame(k).owner < |k.slots|
    requires k.slots[TopFrame(k).owner].ctx.Some? && k.slots[TopFrame(k).owner].ctx.value < |k.ctxs|
    ensures OneSlot(k, FreeTop(k).0)
  {
  }

  lemma ResumeTouchesOne(k: State)
    requires Inv(k) && k.waiter.Reaping?
    ensures OneSlot(k, Resume(k).0)
  {
    var f := TopFrame(k);
    assert FrameOk(k.slots, f) && SlotOk(k, f.owner);
    if f.at == |k.slots| {
      FreeTopTouchesOne(k);
    }
  }

  lemma OneSlotOnward(k: State, k': State)
    requires OneSlot(k, k') && NoWrap(k)
    ensures |k'.slots| == |k.slots| && forall i :: 0 <= i < |k.slots| ==> Onward(k.slots[i], k'.slots[i])
  {
  }

  lemma ResumeOnward(k: State)
    requires Inv(k) && NoWrap(k) && k.waiter.Reaping?
    ensures Later(k, Resume(k).0)
  {
    ResumeTouchesOne(k);
    OneSlotOnward(k, Resume(k).0);
    Pipe.LaterSelf(k.pipe);
    LaterBySlots(k, Resume(k).0);
  }

  lemma TerminateOnward(k: State, h: nat, owner: int, self: int)
    requires Inv(k)
    ensures Later(k, Terminate(k, h, owner, self).0)
  {
    LaterBySlots(k, Terminate(k, h, owner, self).0);
  }

  lemma SpawnImageOnward(k: State, nargs: nat, stdin: Pipe.StdinSel, owner: int, env: ImageEnv)
    requires Inv(k)
    ensures Later(k, SpawnImage(k, nargs, stdin, owner, env).0)
  {
    LaterBySlots(k, SpawnImage(k, nargs, stdin, owner, env).0);
  }

  lemma SpawnPipeOnward(k: State, req: PipeReq, env: PipeEnv)
    requires Inv(k)
    ensures Later(k, SpawnPipe(k, req, env).0)
  {
    var (k', out) := SpawnPipe(k, req, env);
    if out.Error? {
      SpawnPipeErrorChangesNothing(k, req, env);
    } else if out.Handles? {
      SpawnPipeSuccessAddsPipeline(k, req, env);
      assert k' == Admitted(k, req, env);
    }
    Pipe.LaterSelf(k.pipe);
    LaterBySlots(k, k');
  }

  lemma StepOnward(k: State, s: Step)
    requires Inv(k) && Enabled(k, s) && NoWrap(k)
    ensures Later(k, Do(k, s).0)
  {
    match s
    case DoSpawnImage(nargs, stdin, owner, env) => SpawnImageOnward(k, nargs, stdin, owner, env);
    case DoSpawnPipe(req, env) => SpawnPipeOnward(k, req, env);
    case DoTerminate(h, owner, self) => TerminateOnward(k, h, owner, self);
    case DoWait(h, owner, self) => WaitOnward(k, h, owner, self);
    case DoResume => ResumeOnward(k);
    case DoWrite(i, src, copied) => WriteOnward(k, i, src, copied);
    case DoRead(i, len, destOk, copied) => ReadOnward(k, i, len, destOk, copied);
    case _ => SlotStepOnward(k, s);
  }

  // ----- Runs -----

  /** A run: any number of steps in any order, up to one that halts the kernel (`MachineInv.Halts` says
      which do), and no slot recycled so often that its 64-bit generation wraps. A wait that yields
      in the middle of its reap is part of a run, with whatever the processes do meanwhile. */
  predicate IsRun(states: seq<State>, steps: seq<Step>, outs: seq<Outcome>) {
    && |states| == |steps| + 1 && |outs| == |steps|
    && Inv(states[0])
    && (forall i :: 0 <= i < |states| ==> NoWrap(states[i]))
    && (forall i :: 0 <= i < |steps| ==> Follows(states[i], steps[i], states[i + 1], outs[i]))
  }

  predicate Follows(k: State, s: Step, k': State, out: Outcome) {
    Inv(k) ==> Enabled(k, s) && Do(k, s) == (k', out) && out != Panic
  }

  lemma RunStep(states: seq<State>, steps: seq<Step>, outs: seq<Outcome>, t: nat)
    requires IsRun(states, steps, outs) && t < |steps| && Inv(states[t])
    ensures Inv(states[t + 1]) && Later(states[t], states[t + 1])
  {
    assert Follows(states[t], steps[t], states[t + 1], outs[t]);
    OnlyHalts(states[t], steps[t]);
    StepOnward(states[t], steps[t]);
  }

  lemma {:induction false} RunLater(states: seq<State>, steps: seq<Step>, outs: seq<Outcome>, i: nat, j: nat)
    requires IsRun(states, steps, outs) && i <= j < |states|
    ensures Inv(states[i]) && Inv(states[j]) && Later(states[i], states[j])
    decreases j
  {
    LaterSelf(states[j]);
    if j > 0 {
      var t := j - 1;
      RunLater(states, steps, outs, if i == j then t else i, t);
      RunStep(states, steps, outs, t);
      if i < j {
        OnlySettledStates(states[t]);
        LaterTransitive(states[i], states[t], states[j]);
      }
    }
  }

  lemma LaterSelf(k: State)
    ensures Later(k, k)
  {
  }

  lemma OnlySettledStates(k: State)
    requires Inv(k)
    ensures forall i :: 0 <= i < |k.slots| && k.slots[i].state != Free ==> k.slots[i].state == Active || Terminal(k.slots[i].state)
  {
    forall i | 0 <= i < |k.slots| && k.slots[i].state != Free
      ensures k.slots[i].state == Active || Terminal(k.slots[i].state)
    {
      assert SlotOk(k, i);
    }
  }

  /** After proc_initialize: every slot FREE with generation 1, no worker, no pipe. The bootstrap thread
      has taken the first thread id. */
  function Boot(n: nat, contexts: nat, threadCap: nat, pipeCap: nat): State {
    State(seq(n, _ => Slot(Free, 1, KERNEL_OWNER, None, 0, false, false, Pipe.StdinClosed, Pipe.StdoutSerial, 0, 0, 0)),
          seq(contexts, _ => NO_CTX), map[], 2, threadCap, {}, None, Pipe.NO_PIPE, pipeCap, Idle)
  }

  lemma BootInv(n: nat, contexts: nat, threadCap: nat, pipeCap: nat)
    ensures Inv(Boot(n, contexts, threadCap, pipeCap)) && NoWrap(Boot(n, contexts, threadCap, pipeCap))
  {
    var k := Boot(n, contexts, threadCap, pipeCap);
    forall i | 0 <= i < |k.slots|
      ensures SlotOk(k, i)
    {
    }
  }
}

/** Every step of the process table except waiting keeps the invariant, and which of the checks that
    halt the kernel can fail. */
module KernelInv {
  import opened Options
  import Pipe
  import opened Kernel

  predicate IsLive(k: State, i: nat) {
    i < |k.slots| && k.slots[i].state != Free
  }

  /** Same place in the table: only state, kill flag and codes may differ. */
  predicate SameSeat(s: Slot, t: Slot) {
    && s.gen == t.gen && s.owner == t.owner && s.ctx == t.ctx
    && s.worker == t.worker
    && s.stdin == t.stdin && s.stdout == t.stdout
  }

  lemma PutKeepsSlot(k: State, i: nat, s: Slot, c: Ctx, ph: Phase, j: nat)
    requires TableInv(k) && IsLive(k, i) && SlotOk(k, i)
    requires SameSeat(k.slots[i], s) && PhaseOk(s, c, ph) && (s.workerValid <==> ph != Joined)
    requires j < |k.slots|
    ensures SlotOk(Put(k, i, s, c, ph), j)
  {
    assert SlotOk(k, j);
    var k' := Put(k, i, s, c, ph);
    if j != i && k.slots[j].state != Free {
      assert k.slots[j].ctx != k.slots[i].ctx;
      assert k.slots[j].worker != k.slots[i].worker;
      assert LiveOk(k', k'.slots[j], j);
    }
  }

  lemma PutKeepsTable(k: State, i: nat, s: Slot, c: Ctx, ph: Phase)
    requires TableInv(k) && IsLive(k, i) && SlotOk(k, i)
    requires SameSeat(k.slots[i], s) && PhaseOk(s, c, ph) && (s.workerValid <==> ph != Joined)
    ensures TableInv(Put(k, i, s, c, ph))
  {
    var k' := Put(k, i, s, c, ph);
    forall j | 0 <= j < |k'.slots|
      ensures SlotOk(k', j)
    {
      PutKeepsSlot(k, i, s, c, ph, j);
    }
    assert CtxsDistinct(k'.slots);
    forall w | w in k'.workers
      ensures 0 < w < k'.nextId && k'.workers[w].slot < |k'.slots|
      ensures k'.slots[k'.workers[w].slot].state != Free && k'.slots[k'.workers[w].slot].worker == w
    {
    }
  }

  /** What the waiter's frames rest on: who owns whom, which slots are joined, and terminal records. */
  predicate Quiet(s: Slot, t: Slot) {
    && (s.state == Free <==> t.state == Free)
    && s.gen == t.gen && s.owner == t.owner && s.workerValid == t.workerValid
    && (Terminal(s.state) ==>
          && t.state == s.state && t.exitCode == s.exitCode
          && t.faultVector == s.faultVector && t.faultError == s.faultError)
  }

  lemma QuietKeepsWaiter(k: State, k': State)
    requires WaiterOk(k) && k'.waiter == k.waiter && |k'.slots| == |k.slots|
    requires forall i :: 0 <= i < |k.slots| ==> Quiet(k.slots[i], k'.slots[i])
    ensures WaiterOk(k')
  {
    var fs := Frames(k.waiter);
    forall n | 0 <= n < |fs|
      ensures FrameOk(k'.slots, fs[n])
    {
      assert FrameOk(k.slots, fs[n]);
    }
  }

  /** A joined slot that is still there fails proc_check, whatever else has changed. */
  lemma JoinedFailsCheck(k: State, k': State)
    requires Inv(k) && k.waiter.Reaping?
    requires |k'.slots| == |k.slots| && k'.slots[k.waiter.frames[0].owner] == k.slots[k.waiter.frames[0].owner]
    ensures !ProcCheck(k')
  {
    var root := k.waiter.frames[0].owner;
    assert FrameOk(k.slots, k.waiter.frames[0]);
    assert InFrames(k.waiter.frames, root);
    assert !CheckSlot(k', root);
  }

  lemma PipeInvChecks(k: State)
    requires PipeInv(k)
    ensures PipeCheck(k)
  {
  }

  /** The pipe invariant reads only states, generations and selectors. */
  predicate SameRoles(a: seq<Slot>, b: seq<Slot>) {
    && |a| == |b|
    && forall j :: 0 <= j < |a| ==>
         a[j].state == b[j].state && a[j].gen == b[j].gen && a[j].stdin == b[j].stdin && a[j].stdout == b[j].stdout
  }

  lemma SameRolesKeepsPipe(k: State, k': State)
    requires PipeInv(k) && SameRoles(k.slots, k'.slots)
    requires k'.pipe == k.pipe && k'.ring == k.ring && k'.heap == k.heap && k'.pipeCap == k.pipeCap
    ensures PipeInv(k')
  {
  }

  /** Slot `i` has just become terminal in `k1`, and its end is not yet closed. */
  predicate Recorded(k: State, k1: State, i: nat) {
    && k1.pipe == k.pipe && k1.ring == k.ring && k1.heap == k.heap && k1.pipeCap == k.pipeCap
    && i < |k1.slots| == |k.slots| && k.slots[i].state == Active && Terminal(k1.slots[i].state)
    && k1.slots[i].gen == k.slots[i].gen
    && forall j :: 0 <= j < |k.slots| && j != i ==> k1.slots[j] == k.slots[j]
  }

  /** The slot's own end is open exactly when its role says so, so the close cannot be refused. */
  lemma CloseEndEnds(k: State, k1: State, i: nat)
    requires PipeInv(k) && Recorded(k, k1, i)
    ensures Pipe.NoteTerminal(k.pipe, i, k.slots[i].gen).1
    ensures var k' := k1.(pipe := Pipe.NoteTerminal(k.pipe, i, k.slots[i].gen).0);
            && (k'.pipe.live ==> k'.pipe.wslot < |k'.slots| && k'.pipe.rslot < |k'.slots|) && EndsOk(k')
  {
  }

  lemma CloseEndRoles(k: State, k1: State, i: nat)
    requires PipeInv(k) && Recorded(k, k1, i)
    ensures RolesOk(k1.(pipe := Pipe.NoteTerminal(k.pipe, i, k.slots[i].gen).0))
  {
  }

  lemma CloseEndKeeps(k: State, k1: State, i: nat)
    requires PipeInv(k) && Recorded(k, k1, i)
    ensures CloseEnd(k1, i).1
    ensures PipeInv(CloseEnd(k1, i).0)
  {
    CloseEndEnds(k, k1, i);
    CloseEndRoles(k, k1, i);
    Pipe.StepKeepsOk(k.pipe, Pipe.OpTerminal(i, k.slots[i].gen), 0, k.pipeCap);
    PipeInvChecks(CloseEnd(k1, i).0);
  }

  lemma CloseEndKeepsTable(k: State, i: nat)
    requires TableInv(k) && i < |k.slots|
    ensures TableInv(CloseEnd(k, i).0)
  {
    var k' := CloseEnd(k, i).0;
    assert k'.slots == k.slots && k'.ctxs == k.ctxs && k'.workers == k.workers && k'.nextId == k.nextId;
    forall j | 0 <= j < |k'.slots|
      ensures SlotOk(k', j)
    {
      assert SlotOk(k, j);
    }
  }

  lemma RecordKeepsWaiter(k: State, i: nat, s: Slot, c: Ctx, ph: Phase)
    requires Inv(k) && IsLive(k, i) && SlotOk(k, i) && k.slots[i].state == Active
    requires SameSeat(k.slots[i], s) && s.workerValid == k.slots[i].workerValid && Terminal(s.state)
    ensures WaiterOk(CloseEnd(Put(k, i, s, c, ph), i).0)
  {
    QuietKeepsWaiter(k, CloseEnd(Put(k, i, s, c, ph), i).0);
  }

  /** A terminal record, the close of the endpoint, and the worker where it belongs. */
  lemma RecordKeeps(k: State, i: nat, s: Slot, c: Ctx, ph: Phase)
    requires Inv(k) && IsLive(k, i) && SlotOk(k, i) && k.slots[i].state == Active
    requires SameSeat(k.slots[i], s) && s.workerValid == k.slots[i].workerValid
    requires Terminal(s.state) && ph != Joined && PhaseOk(s, c, ph)
    ensures CloseEnd(Put(k, i, s, c, ph), i).1 && Inv(CloseEnd(Put(k, i, s, c, ph), i).0)
  {
    var k1 := Put(k, i, s, c, ph);
    PutKeepsTable(k, i, s, c, ph);
    CloseEndKeeps(k, k1, i);
    CloseEndKeepsTable(k1, i);
    RecordKeepsWaiter(k, i, s, c, ph);
  }

  lemma GateTerminalKeeps(k: State, i: nat, life: Life, a: nat, b: nat)
    requires Inv(k) && IsLive(k, i) && SlotOk(k, i) && PhaseOf(k, i) == InUser
    requires life == Exited || life == Faulted
    ensures GateTerminal(k, i, life, a, b).1 == Done
    ensures Inv(GateTerminal(k, i, life, a, b).0)
  {
    var s, c := k.slots[i], CtxOf(k, i);
    var s' := if life == Exited then s.(state := Exited, exitCode := a)
              else s.(state := Faulted, faultVector := a, faultError := b);
    var c' := if life == Exited then c.(state := UExited, exitCode := a)
              else c.(state := UFaulted, faultVector := a, faultError := b);
    var rc := if life == Exited then RunExited else RunFaulted;
    RecordKeeps(k, i, s', c', Parked(rc));
  }

  lemma FinishKeeps(k: State, i: nat, s: Slot, c: Ctx)
    requires Inv(k) && IsLive(k, i) && SlotOk(k, i) && k.slots[i].state == Active
    requires SameSeat(k.slots[i], s) && s.workerValid == k.slots[i].workerValid && PhaseOk(s, c.(bound := false), Gone)
    ensures Finish(k, i, s, c).1 == Done
    ensures Inv(Finish(k, i, s, c).0)
  {
    RecordKeeps(k, i, s, c.(bound := false), Gone);
  }

  lemma PutSameStateKeeps(k: State, i: nat, s: Slot, c: Ctx, ph: Phase)
    requires Inv(k) && IsLive(k, i) && SlotOk(k, i)
    requires SameSeat(k.slots[i], s) && Quiet(k.slots[i], s) && s.state == k.slots[i].state
    requires PhaseOk(s, c, ph) && (s.workerValid <==> ph != Joined)
    ensures Inv(Put(k, i, s, c, ph))
  {
    PutKeepsTable(k, i, s, c, ph);
    SameRolesKeepsPipe(k, Put(k, i, s, c, ph));
    QuietKeepsWaiter(k, Put(k, i, s, c, ph));
  }

  /** The worker's own terminal record for exits and faults is a backstop that never fires: the
      gate has always recorded first. */
  lemma WorkerTurnKeeps(k: State, i: nat)
    requires Inv(k) && IsLive(k, i) && SlotOk(k, i) && PhaseOf(k, i).Parked?
    ensures WorkerTurn(k, i).1 == Done
    ensures Inv(WorkerTurn(k, i).0)
    ensures PhaseOf(k, i).rc != RunOther ==> Terminal(k.slots[i].state)
  {
    var s, c := k.slots[i], CtxOf(k, i);
    match PhaseOf(k, i).rc
    case RunOther =>
      if s.killRequested {
        FinishKeeps(k, i, s.(state := Aborted), c.(state := UAborted));
      } else {
        PutSameStateKeeps(k, i, s, c, InUser);
      }
    case _ =>
      PutSameStateKeeps(k, i, s, c.(bound := false), Gone);
  }

  lemma EnterKeeps(k: State, i: nat)
    requires Inv(k) && IsLive(k, i) && SlotOk(k, i) && PhaseOf(k, i) == Fresh
    ensures Enter(k, i).1 == Done
    ensures Inv(Enter(k, i).0)
  {
    PutSameStateKeeps(k, i, k.slots[i], CtxOf(k, i).(bound := true, entered := true), InUser);
  }

  lemma TrapKeeps(k: State, i: nat)
    requires Inv(k) && IsLive(k, i) && SlotOk(k, i) && PhaseOf(k, i) == InUser
    ensures Inv(Trap(k, i))
  {
    PutSameStateKeeps(k, i, k.slots[i], CtxOf(k, i), Parked(RunOther));
  }

  lemma KilledKeeps(k: State, i: nat)
    requires Inv(k) && i < |k.slots| && k.slots[i].state != Free
    ensures Inv(Killed(k, i))
  {
    var s' := k.slots[i].(killRequested := true);
    assert SlotOk(k, i);
    assert Killed(k, i) == Put(k, i, s', CtxOf(k, i), PhaseOf(k, i));
    PutSameStateKeeps(k, i, s', CtxOf(k, i), PhaseOf(k, i));
  }

  /** A kill request keeps the invariant; it halts the kernel exactly when it is granted while a
      reap has yielded. */
  lemma TerminateKeeps(k: State, handle: nat, owner: int, self: int)
    requires Inv(k)
    ensures Inv(Terminate(k, handle, owner, self).0)
    ensures Terminate(k, handle, owner, self).1 == Panic <==> Grants(k, handle, owner, self) && k.waiter.Reaping?
  {
    if Grants(k, handle, owner, self) {
      var i := Decode(k, handle).value;
      KilledKeeps(k, i);
      ChecksPass(Killed(k, i));
    }
  }

  lemma PipeKeepsTable(k: State, p: Pipe.PipeState)
    requires TableInv(k)
    ensures TableInv(k.(pipe := p))
  {
    forall j | 0 <= j < |k.slots|
      ensures SlotOk(k.(pipe := p), j)
    {
      assert SlotOk(k, j);
    }
  }

  /** The same attachment with the same ends. */
  predicate SameEnds(p: Pipe.PipeState, q: Pipe.PipeState) {
    && p.live == q.live && p.writerOpen == q.writerOpen && p.readerOpen == q.readerOpen
    && p.wslot == q.wslot && p.rslot == q.rslot && p.wgen == q.wgen && p.rgen == q.rgen
  }

  lemma SameEndsKeeps(k: State, p: Pipe.PipeState)
    requires Inv(k) && SameEnds(k.pipe, p) && Pipe.Ok(p, k.pipeCap)
    ensures Inv(k.(pipe := p)) && PipeCheck(k.(pipe := p))
  {
    PipeKeepsTable(k, p);
    PipeInvChecks(k.(pipe := p));
  }

  /** Changing only the pipe's contents. */
  lemma PipeOpKeeps(k: State, op: Pipe.Op, p: Pipe.PipeState)
    requires Inv(k) && p == Pipe.Apply(k.pipe, op, |k.slots|, k.pipeCap)
    requires op.OpWrite? || op.OpStage? || op.OpCommit?
    ensures Inv(k.(pipe := p)) && PipeCheck(k.(pipe := p))
  {
    Pipe.StepKeepsOk(k.pipe, op, |k.slots|, k.pipeCap);
    SameEndsKeeps(k, p);
  }

  /** write_check never fails, and the invariant is kept. */
  lemma WriteOutKeeps(k: State, i: nat, src: seq<Pipe.Byte>, copied: bool)
    requires Inv(k) && i < |k.slots|
    ensures Inv(WriteOut(k, i, src, copied).0)
    ensures WriteOut(k, i, src, copied).1 != Panic
  {
    var op := Pipe.OpWrite(i, k.slots[i].gen, src);
    PipeOpKeeps(k, op, Pipe.Apply(k.pipe, op, |k.slots|, k.pipeCap));
  }

  /** Neither commit_check nor the commit itself fails, and the invariant is kept. */
  lemma ReadInKeeps(k: State, i: nat, len: nat, destOk: bool, copied: bool)
    requires Inv(k) && i < |k.slots|
    ensures Inv(ReadIn(k, i, len, destOk, copied).0)
    ensures ReadIn(k, i, len, destOk, copied).1 != Panic
  {
    var op := Pipe.OpStage(i, k.slots[i].gen, len);
    var (p, r) := Pipe.Stage(k.pipe, i, k.slots[i].gen, len, k.pipeCap);
    PipeOpKeeps(k, op, p);
    if r.Staged? {
      var k1 := k.(pipe := p);
      PipeOpKeeps(k1, Pipe.OpCommit(|r.bytes|), Pipe.Commit(p, |r.bytes|).0);
    }
  }

  // ----- Admission -----

  lemma AdmitKeepsTable(k: State, i: nat, c: nat, owner: int, stdin: Pipe.StdinSel, stdout: Pipe.StdoutSel)
    requires TableInv(k) && i < |k.slots| && k.slots[i].state == Free
    requires c < |k.ctxs| && k.ctxs[c].state == UFree
    requires OwnerAdmitted(k.slots, owner) && stdin != Pipe.StdinFile && stdout != Pipe.StdoutFile
    ensures TableInv(Admit(k, i, c, owner, stdin, stdout))
  {
    var k' := Admit(k, i, c, owner, stdin, stdout);
    forall j | 0 <= j < |k'.slots|
      ensures SlotOk(k', j)
    {
      assert SlotOk(k, j);
      if owner != KERNEL_OWNER { assert SlotOk(k, owner); }
    }
    forall j | 0 <= j < |k.slots| && k.slots[j].state != Free
      ensures k.slots[j].ctx != Some(c)
    {
      assert SlotOk(k, j);
    }
    assert CtxsDistinct(k'.slots);
    assert SlotOk(k, i);
  }

  /** proc_check with one slot still LOADING. */
  lemma LoadingChecks(k: State, i: nat)
    requires Inv(k) && i < |k.slots| && k.slots[i].state == Free && FirstFreeCtx(k.ctxs, 0) < |k.ctxs|
    ensures ProcCheck(Loaded(k, i)) <==> k.waiter.Idle?
  {
    var k', c := Loaded(k, i), FirstFreeCtx(k.ctxs, 0);
    if k.waiter.Reaping? {
      assert FrameOk(k.slots, k.waiter.frames[0]);
      JoinedFailsCheck(k, k');
    } else {
      forall j | 0 <= j < |k.slots|
        ensures CheckSlot(k', j)
        ensures k.slots[j].state != Free ==> k.slots[j].ctx != Some(c)
      {
        assert SlotOk(k, j);
      }
      assert CtxsDistinct(k'.slots);
    }
  }

  lemma AdmitKeepsWaiter(k: State, i: nat, c: nat, owner: int, stdin: Pipe.StdinSel, stdout: Pipe.StdoutSel)
    requires WaiterOk(k) && k.waiter.Idle? && i < |k.slots| && c < |k.ctxs|
    ensures WaiterOk(Admit(k, i, c, owner, stdin, stdout))
  {
  }

  lemma AdmitKeeps(k: State, i: nat, c: nat, owner: int, stdin: Pipe.StdinSel)
    requires Inv(k) && k.waiter.Idle? && i < |k.slots| && k.slots[i].state == Free
    requires c < |k.ctxs| && k.ctxs[c].state == UFree
    requires OwnerAdmitted(k.slots, owner) && (stdin == Pipe.StdinClosed || stdin == Pipe.StdinKbd)
    ensures Inv(Admit(k, i, c, owner, stdin, Pipe.StdoutSerial))
  {
    var k' := Admit(k, i, c, owner, stdin, Pipe.StdoutSerial);
    AdmitKeepsTable(k, i, c, owner, stdin, Pipe.StdoutSerial);
    AdmitKeepsWaiter(k, i, c, owner, stdin, Pipe.StdoutSerial);
    assert forall j :: 0 <= j < |k.slots| && j != i ==> k'.slots[j] == k.slots[j];
    assert k'.slots[i].gen == k.slots[i].gen;
    assert EndsOk(k');
  }

  /** Spawning an image keeps the invariant; it halts the kernel exactly when it comes as far as its
      first audit while a reap has yielded. */
  lemma SpawnImageKeeps(k: State, nargs: nat, stdin: Pipe.StdinSel, owner: int, env: ImageEnv)
    requires Inv(k)
    ensures Inv(SpawnImage(k, nargs, stdin, owner, env).0)
    ensures SpawnImage(k, nargs, stdin, owner, env).1 == Panic <==>
              ImageFailure(k, nargs, stdin, owner, env) == None && k.waiter.Reaping?
  {
    if ImageFailure(k, nargs, stdin, owner, env) == None {
      var i, c := FirstFree(k.slots, 0), FirstFreeCtx(k.ctxs, 0);
      LoadingChecks(k, i);
      if k.waiter.Idle? {
        AdmitKeeps(k, i, c, owner, stdin);
        ChecksPass(Admit(k, i, c, owner, stdin, Pipe.StdoutSerial));
      }
    }
  }

  lemma RelabelKeeps(k: State, i: nat, stdin: Pipe.StdinSel, stdout: Pipe.StdoutSel)
    requires Inv(k) && i < |k.slots| && k.slots[i].state == Free && !k.pipe.live
    requires stdin != Pipe.StdinFile && stdout != Pipe.StdoutFile
    ensures Inv(k.(slots := k.slots[i := k.slots[i].(stdin := stdin, stdout := stdout)]))
  {
    var k' := k.(slots := k.slots[i := k.slots[i].(stdin := stdin, stdout := stdout)]);
    forall j | 0 <= j < |k'.slots|
      ensures SlotOk(k', j)
    {
      assert SlotOk(k, j);
    }
    assert CtxsDistinct(k'.slots);
    assert WorkersOk(k');
    QuietKeepsWaiter(k, k');
  }

  lemma StaleSelectorsKeep(k: State, req: PipeReq)
    requires Inv(k) && PipeRefusal(k, req) == None
    ensures Inv(StaleSelectors(k, req))
  {
    var a, b := FirstFree(k.slots, 0), SecondFree(k.slots);
    var k1 := k.(slots := k.slots[a := k.slots[a].(stdin := req.stdinA, stdout := Pipe.StdoutPipe)]);
    RelabelKeeps(k, a, req.stdinA, Pipe.StdoutPipe);
    RelabelKeeps(k1, b, Pipe.StdinPipe, Pipe.StdoutSerial);
  }

  lemma AdmittedKeepsTable(k: State, req: PipeReq, env: PipeEnv)
    requires Inv(k) && k.waiter.Idle? && PipeRefusal(k, req) == None && ReserveFailure(k, env) == None
    ensures TableInv(Admitted(k, req, env)) && WaiterOk(Admitted(k, req, env))
  {
    var a, b := FirstFree(k.slots, 0), SecondFree(k.slots);
    var c, d := FirstFreeCtx(k.ctxs, 0), SecondFreeCtx(k.ctxs);
    var k1 := Admit(k, a, c, req.owner, req.stdinA, Pipe.StdoutPipe);
    AdmitKeepsTable(k, a, c, req.owner, req.stdinA, Pipe.StdoutPipe);
    AdmitKeepsWaiter(k, a, c, req.owner, req.stdinA, Pipe.StdoutPipe);
    var k2 := Admit(k1, b, d, req.owner, Pipe.StdinPipe, Pipe.StdoutSerial);
    AdmitKeepsTable(k1, b, d, req.owner, Pipe.StdinPipe, Pipe.StdoutSerial);
    AdmitKeepsWaiter(k1, b, d, req.owner, Pipe.StdinPipe, Pipe.StdoutSerial);
    var k' := Admitted(k, req, env);
    forall j | 0 <= j < |k'.slots|
      ensures SlotOk(k', j)
    {
      assert SlotOk(k2, j);
    }
  }

  lemma AdmittedKeeps(k: State, req: PipeReq, env: PipeEnv)
    requires Inv(k) && k.waiter.Idle? && PipeRefusal(k, req) == None && ReserveFailure(k, env) == None
    ensures Inv(Admitted(k, req, env))
  {
    var a, b := FirstFree(k.slots, 0), SecondFree(k.slots);
    AdmittedKeepsTable(k, req, env);
    var k' := Admitted(k, req, env);
    Pipe.StepKeepsOk(k.pipe, Pipe.OpAttach(a, k.slots[a].gen, b, k.slots[b].gen), |k.slots|, k.pipeCap);
    assert SlotOk(k, a) && SlotOk(k, b);
    assert forall j :: 0 <= j < |k.slots| && j != a && j != b ==> k'.slots[j] == k.slots[j];
  }

  // ----- The audits in the middle of spawn_pipe -----

  lemma BuiltSlot(k: State, req: PipeReq, env: PipeEnv, j: nat)
    requires Inv(k) && k.waiter.Idle? && PipeRefusal(k, req) == None && ReserveFailure(k, env) == None && j < |k.slots|
    ensures CheckSlot(Built(k, req, env), j)
  {
    assert SlotOk(k, j);
  }

  lemma BuiltCtxs(k: State, req: PipeReq, env: PipeEnv)
    requires Inv(k) && PipeRefusal(k, req) == None && ReserveFailure(k, env) == None
    ensures CtxsDistinct(Built(k, req, env).slots)
  {
    var c, d := FirstFreeCtx(k.ctxs, 0), SecondFreeCtx(k.ctxs);
    forall j | 0 <= j < |k.slots|
      ensures k.slots[j].state != Free ==> k.slots[j].ctx != Some(c) && k.slots[j].ctx != Some(d)
    {
      assert SlotOk(k, j);
    }
  }

  /** proc_check with both slots LOADING. */
  lemma BuiltChecks(k: State, req: PipeReq, env: PipeEnv)
    requires Inv(k) && PipeRefusal(k, req) == None && ReserveFailure(k, env) == None
    ensures ProcCheck(Built(k, req, env)) <==> k.waiter.Idle?
  {
    if k.waiter.Reaping? {
      assert FrameOk(k.slots, k.waiter.frames[0]);
      JoinedFailsCheck(k, Built(k, req, env));
    } else {
      forall j | 0 <= j < |k.slots|
        ensures CheckSlot(Built(k, req, env), j)
      {
        BuiltSlot(k, req, env, j);
      }
      BuiltCtxs(k, req, env);
    }
  }

  /** pipe_attach is accepted and attach_check passes. */
  lemma BuiltAttaches(k: State, req: PipeReq, env: PipeEnv)
    requires Inv(k) && PipeRefusal(k, req) == None && ReserveFailure(k, env) == None
    ensures Attaches(Built(k, req, env), FirstFree(k.slots, 0), SecondFree(k.slots))
  {
    assert SlotOk(k, FirstFree(k.slots, 0)) && SlotOk(k, SecondFree(k.slots));
  }

  /** The transaction, failing: a returned error leaves every slot, context, worker, heap block and
      the pipe as they were, except for the selectors of FREE slots. */
  lemma SpawnPipeErrorChangesNothing(k: State, req: PipeReq, env: PipeEnv)
    requires SpawnPipe(k, req, env).1.Error?
    ensures var k' := SpawnPipe(k, req, env).0;
            && k'.(slots := k.slots) == k
            && |k'.slots| == |k.slots|
            && forall j :: 0 <= j < |k.slots| ==>
                 || k'.slots[j] == k.slots[j]
                 || (k.slots[j].state == Free
                     && k'.slots[j].(stdin := k.slots[j].stdin, stdout := k.slots[j].stdout) == k.slots[j])
  {
  }

  /** Two FREE slots `a` and `b` have become ACTIVE, as the two ends of a pipe; no other slot moved. */
  predicate AddsPair(k: State, k': State, a: nat, b: nat) {
    && a < |k.slots| == |k'.slots| && b < |k.slots| && a != b
    && k.slots[a].state == Free && k.slots[b].state == Free
    && (forall j :: 0 <= j < |k.slots| && j != a && j != b ==> k'.slots[j] == k.slots[j])
    && k'.slots[a].state == Active && k'.slots[b].state == Active
    && k'.slots[a].gen == k.slots[a].gen && k'.slots[b].gen == k.slots[b].gen
    && k'.slots[a].stdout == Pipe.StdoutPipe && k'.slots[b].stdin == Pipe.StdinPipe
    && !k'.slots[a].killRequested && !k'.slots[b].killRequested
    && k'.slots[a].worker == k.nextId && k'.slots[b].worker == k.nextId + 1
  }

  /** Two new workers on slots `a` and `b`; the others are as they were. */
  predicate AddsWorkers(k: State, k': State, a: nat, b: nat) {
    k'.nextId == k.nextId + 2 && k'.workers == k.workers[k.nextId := Worker(a, Fresh)][k.nextId + 1 := Worker(b, Fresh)]
  }

  /** Two free contexts have become the new contexts of slots `a` and `b`. */
  predicate AddsContexts(k: State, k': State, a: nat, b: nat)
    requires a < |k'.slots| && b < |k'.slots|
  {
    && k'.slots[a].ctx.Some? && k'.slots[b].ctx.Some? && k'.slots[a].ctx != k'.slots[b].ctx
    && (var c, d := k'.slots[a].ctx.value, k'.slots[b].ctx.value;
        && c < |k.ctxs| && d < |k.ctxs| && k.ctxs[c].state == UFree && k.ctxs[d].state == UFree
        && k'.ctxs == k.ctxs[c := NEW_CTX][d := NEW_CTX])
  }

  /** A live, empty pipe from `a` to `b`, both ends open, on the new heap block `r`. */
  predicate AddsRing(k: State, k': State, a: nat, b: nat, r: nat)
    requires a < |k.slots| && b < |k.slots|
  {
    && !k.pipe.live && k'.pipe.live
    && k'.pipe.writerOpen && k'.pipe.readerOpen && k'.pipe.queue == []
    && k'.pipe.wslot == a && k'.pipe.rslot == b
    && k'.pipe.wgen == k.slots[a].gen && k'.pipe.rgen == k.slots[b].gen
    && r !in k.heap && k'.heap == k.heap + {r} && k'.ring == Some(r)
  }

  predicate AddsPipeline(k: State, k': State, a: nat, b: nat, r: nat) {
    AddsPair(k, k', a, b) && AddsContexts(k, k', a, b) && AddsWorkers(k, k', a, b) && AddsRing(k, k', a, b, r)
  }

  lemma AdmittedAddsPair(k: State, req: PipeReq, env: PipeEnv)
    requires PipeRefusal(k, req) == None && ReserveFailure(k, env) == None
    ensures AddsPair(k, Admitted(k, req, env), FirstFree(k.slots, 0), SecondFree(k.slots))
    ensures AddsContexts(k, Admitted(k, req, env), FirstFree(k.slots, 0), SecondFree(k.slots))
  {
  }

  lemma AdmittedAddsRest(k: State, req: PipeReq, env: PipeEnv)
    requires PipeRefusal(k, req) == None && ReserveFailure(k, env) == None
    ensures AddsWorkers(k, Admitted(k, req, env), FirstFree(k.slots, 0), SecondFree(k.slots))
    ensures AddsRing(k, Admitted(k, req, env), FirstFree(k.slots, 0), SecondFree(k.slots), env.ring.value)
  {
  }

  /** The transaction, succeeding: exactly two ACTIVE slots and one pipe are added. */
  lemma SpawnPipeSuccessAddsPipeline(k: State, req: PipeReq, env: PipeEnv)
    requires SpawnPipe(k, req, env).1.Handles?
    ensures env.ring.Some?
    ensures AddsPipeline(k, SpawnPipe(k, req, env).0, FirstFree(k.slots, 0), SecondFree(k.slots), env.ring.value)
  {
    AdmittedAddsPair(k, req, env);
    AdmittedAddsRest(k, req, env);
  }

  /** spawn_pipe keeps the invariant unless it halts. It halts exactly when it comes as far as its first
      audit while a reap has yielded, or as far as the second worker and cannot create it. */
  lemma SpawnPipeKeeps(k: State, req: PipeReq, env: PipeEnv)
    requires Inv(k)
    ensures Inv(SpawnPipe(k, req, env).0)
    ensures SpawnPipe(k, req, env).1 == Panic <==>
              PipeRefusal(k, req) == None && ReserveFailure(k, env) == None && (k.waiter.Reaping? || Strands(k, env))
  {
    if PipeRefusal(k, req) == None {
      StaleSelectorsKeep(k, req);
      if ReserveFailure(k, env) == None {
        BuiltChecks(k, req, env);
        if k.waiter.Idle? {
          AdmittedKeeps(k, req, env);
          ChecksPass(Admitted(k, req, env));
          BuiltAttaches(k, req, env);
        }
      }
    }
  }

  lemma ThreadsGrow(workers: map<nat, Worker>, w: nat, slot: nat)
    requires w !in workers
    ensures |Threads(workers[w := Worker(slot, Fresh)])| == |Threads(workers)| + 1
  {
    assert Threads(workers[w := Worker(slot, Fresh)]) == Threads(workers) + {w};
  }
}

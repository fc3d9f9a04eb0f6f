/** What the calls of the process table answer and change, said of the tables before and after. */
module Effects {
  import opened Options
  import Pipe
  import opened Kernel
  import opened KernelInv
  import opened Reap
  import opened Machine
  import opened MachineInv
  import Theorems

  // ----- Handles -----

  /** Handle `h` carries slot `i` in its low and generation `gen` in its high 32 bits. */
  predicate Names(h: nat, i: nat, gen: nat) {
    i < HANDLE_LIMIT && gen < HANDLE_LIMIT && h == i + gen * HANDLE_LIMIT
  }

  lemma NamesSplits(h: nat, i: nat, gen: nat)
    requires i < HANDLE_LIMIT && gen < HANDLE_LIMIT
    ensures Names(h, i, gen) <==> h % HANDLE_LIMIT == i && h / HANDLE_LIMIT == gen
  {
  }

  lemma HandleNames(i: nat, gen: nat)
    requires i < HANDLE_LIMIT && gen < HANDLE_LIMIT
    ensures Names(HandleOf(i, gen), i, gen)
  {
    Theorems.HandleRoundTrip(i, gen);
    NamesSplits(HandleOf(i, gen), i, gen);
  }

  /** A 64-bit handle decodes to slot `i` exactly when that slot is live and the handle carries it and its whole
      generation. */
  lemma DecodesExactly(k: State, h: nat, i: nat)
    requires Inv(k) && i < |k.slots| <= HANDLE_LIMIT && h < HANDLE_LIMIT * HANDLE_LIMIT
    ensures Decode(k, h) == Some(i) <==> k.slots[i].state != Free && Names(h, i, k.slots[i].gen)
  {
    assert SlotOk(k, i);
    HighBits(h);
    if k.slots[i].gen < HANDLE_LIMIT {
      NamesSplits(h, i, k.slots[i].gen);
    }
  }

  lemma HighBits(h: nat)
    requires h < HANDLE_LIMIT * HANDLE_LIMIT
    ensures h / HANDLE_LIMIT < HANDLE_LIMIT
  {
  }

  // ----- Spawning -----

  /** FREE slot `i`, the first, has become an ACTIVE process of `owner` with a new worker and one of the
      free contexts; nothing else moved. */
  predicate AddsProcess(k: State, k': State, i: nat, owner: int, stdin: Pipe.StdinSel) {
    && i < |k.slots| == |k'.slots| && k.slots[i].state == Free
    && (forall j :: 0 <= j < |k.slots| && j != i ==> k'.slots[j] == k.slots[j])
    && (forall j :: 0 <= j < i ==> k.slots[j].state != Free)
    && (var s := k'.slots[i];
        && s.state == Active && s.gen == k.slots[i].gen && s.owner == owner
        && s.stdin == stdin && s.stdout == Pipe.StdoutSerial
        && s.workerValid && s.worker == k.nextId && !s.killRequested
        && s.exitCode == s.faultVector == s.faultError == 0
        && s.ctx.Some? && s.ctx.value < |k.ctxs| && k.ctxs[s.ctx.value].state == UFree
        && k'.ctxs == k.ctxs[s.ctx.value := Ctx(UActive, false, false, 0, 0, 0)])
    && k'.workers == k.workers[k.nextId := Worker(i, Fresh)] && k'.nextId == k.nextId + 1
    && k'.(slots := k.slots, ctxs := k.ctxs, workers := k.workers, nextId := k.nextId) == k
  }

  /** A spawn that succeeds adds one process, and the handle it answers names that process, as long as the
      slot's generation fits a handle. */
  lemma SpawnImageAddsProcess(k: State, nargs: nat, stdin: Pipe.StdinSel, owner: int, env: ImageEnv)
    requires Inv(k) && |k.slots| <= HANDLE_LIMIT && SpawnImage(k, nargs, stdin, owner, env).1.Handle?
    ensures var (k', out) := SpawnImage(k, nargs, stdin, owner, env);
            exists i: nat :: AddsProcess(k, k', i, owner, stdin) &&
                        (k.slots[i].gen < HANDLE_LIMIT ==> Names(out.h, i, k.slots[i].gen) && Decode(k', out.h) == Some(i))
  {
    var (k', out) := SpawnImage(k, nargs, stdin, owner, env);
    var i := FirstFree(k.slots, 0);
    SpawnImageKeeps(k, nargs, stdin, owner, env);
    assert AddsProcess(k, k', i, owner, stdin);
    if k.slots[i].gen < HANDLE_LIMIT {
      HandleNames(i, k.slots[i].gen);
      DecodesExactly(k', out.h, i);
    }
  }

  /** Which spawn is refused, and how; a refusal changes nothing. */
  lemma SpawnImageRefuses(k: State, nargs: nat, stdin: Pipe.StdinSel, owner: int, env: ImageEnv)
    requires Inv(k) && k.waiter.Idle?
    ensures var (k', out) := SpawnImage(k, nargs, stdin, owner, env);
            var asked := nargs <= 8 && (stdin == Pipe.StdinClosed || stdin == Pipe.StdinKbd)
                         && (owner == -1 || (0 <= owner < |k.slots| && k.slots[owner].state != Free));
            var seat := exists i :: 0 <= i < |k.slots| && k.slots[i].state == Free;
            var ctx := exists c :: 0 <= c < |k.ctxs| && k.ctxs[c].state == UFree;
            && (out.Handle? || (out.Error? && k' == k))
            && (out == Error(BadArg) <==> !asked)
            && (out == Error(Malformed) <==> asked && !env.imageOk)
            && (out == Error(Busy) <==> asked && env.imageOk && !seat)
            && (out == Error(NoMem) <==> asked && env.imageOk && seat &&
                                         !(env.createOk && ctx && env.argvOk && CanStart(k, env.stackOk)))
  {
    SpawnImageKeeps(k, nargs, stdin, owner, env);
  }

  /** Slot `i` holds a running child of `owner` with these ends, and handle `h` names it if its generation
      fits. */
  predicate Answered(k: State, h: nat, i: nat, owner: int, stdin: Pipe.StdinSel, stdout: Pipe.StdoutSel) {
    && i < |k.slots| && k.slots[i].state == Active && k.slots[i].owner == owner
    && k.slots[i].stdin == stdin && k.slots[i].stdout == stdout
    && (k.slots[i].gen < HANDLE_LIMIT ==> Names(h, i, k.slots[i].gen) && Decode(k, h) == Some(i))
  }

  lemma PipelineSeats(k: State, req: PipeReq, env: PipeEnv)
    requires SpawnPipe(k, req, env).1.Handles?
    ensures var (k', out) := SpawnPipe(k, req, env);
            var a, b := k'.pipe.wslot, k'.pipe.rslot;
            && a < |k.slots| == |k'.slots| && b < |k.slots| && AddsPair(k, k', a, b)
            && k'.slots[a].owner == k'.slots[b].owner == req.owner
            && k'.slots[a].stdin == req.stdinA && k'.slots[b].stdout == Pipe.StdoutSerial
            && out == Handles(HandleOf(a, k'.slots[a].gen), HandleOf(b, k'.slots[b].gen))
  {
    SpawnPipeSuccessAddsPipeline(k, req, env);
  }

  /** The first handle of a pipeline names the producer, which holds the write end and the input asked for;
      the second the consumer, which holds the read end; both belong to the caller. */
  lemma SpawnPipeAnswers(k: State, req: PipeReq, env: PipeEnv)
    requires Inv(k) && |k.slots| <= HANDLE_LIMIT && SpawnPipe(k, req, env).1.Handles?
    ensures var (k', out) := SpawnPipe(k, req, env);
            && k'.pipe.live && k'.pipe.writerOpen && k'.pipe.readerOpen
            && Answered(k', out.ha, k'.pipe.wslot, req.owner, req.stdinA, Pipe.StdoutPipe)
            && Answered(k', out.hb, k'.pipe.rslot, req.owner, Pipe.StdinPipe, Pipe.StdoutSerial)
            && k'.slots[k'.pipe.wslot].gen == k'.pipe.wgen && k'.slots[k'.pipe.rslot].gen == k'.pipe.rgen
  {
    var (k', out) := SpawnPipe(k, req, env);
    PipelineSeats(k, req, env);
    SpawnPipeSuccessAddsPipeline(k, req, env);
    SpawnPipeKeeps(k, req, env);
    HandleAnswers(k', k'.pipe.wslot);
    HandleAnswers(k', k'.pipe.rslot);
  }

  lemma HandleAnswers(k: State, i: nat)
    requires Inv(k) && i < |k.slots| <= HANDLE_LIMIT && k.slots[i].state != Free
    ensures k.slots[i].gen < HANDLE_LIMIT ==>
              Names(HandleOf(i, k.slots[i].gen), i, k.slots[i].gen) && Decode(k, HandleOf(i, k.slots[i].gen)) == Some(i)
  {
    if k.slots[i].gen < HANDLE_LIMIT {
      HandleNames(i, k.slots[i].gen);
      DecodesExactly(k, HandleOf(i, k.slots[i].gen), i);
    }
  }

  predicate Fetched(heap: set<nat>, f: FetchEnv) {
    f.statOk && f.isFile && f.sizeOk && f.openOk && CanAlloc(heap, f.block) && f.readOk && f.closeOk && f.valid
  }

  /** Everything the pipeline needs from the rest of the kernel is there. */
  predicate Provided(k: State, env: PipeEnv) {
    && CanAlloc(k.heap, env.ring)
    && Fetched(k.heap + {env.ring.value}, env.fetchA) && Fetched(k.heap + {env.ring.value}, env.fetchB)
    && env.createA && env.argvA && env.createB && env.argvB
    && (exists c, d :: 0 <= c < d < |k.ctxs| && k.ctxs[c].state == k.ctxs[d].state == UFree)
  }

  predicate PipeAsked(k: State, req: PipeReq) {
    && req.nargsA <= 8 && req.nargsB <= 8 && (req.stdinA == Pipe.StdinClosed || req.stdinA == Pipe.StdinKbd)
    && (req.owner == -1 || (0 <= req.owner < |k.slots| && k.slots[req.owner].state != Free))
  }

  predicate TwoSeats(k: State) {
    exists i, j :: 0 <= i < j < |k.slots| && k.slots[i].state == k.slots[j].state == Free
  }

  lemma RefusalByCause(k: State, req: PipeReq)
    ensures PipeRefusal(k, req) ==
            if !PipeAsked(k, req) then Some(BadArg) else if !TwoSeats(k) then Some(Busy)
            else if |Threads(k.workers)| + 2 > k.threadCap then Some(NoMem) else if k.pipe.live then Some(Busy) else None
  {
    if SecondFree(k.slots) < |k.slots| {
      assert k.slots[FirstFree(k.slots, 0)].state == k.slots[SecondFree(k.slots)].state == Free;
    }
  }

  /** Error `e` has a reason: an image that the loader reports so, or no memory for the ring, a context or an
      argument block; what fails first is reported. */
  predicate FailsBy(k: State, env: PipeEnv, e: SysErr) {
    if !CanAlloc(k.heap, env.ring) then e == NoMem
    else
      var h := k.heap + {env.ring.value};
      if !Fetched(h, env.fetchA) then FetchError(h, env.fetchA) == Some(e)
      else if !(env.createA && env.argvA) || (forall c :: 0 <= c < |k.ctxs| ==> k.ctxs[c].state != UFree) then e == NoMem
      else if !Fetched(h, env.fetchB) then FetchError(h, env.fetchB) == Some(e)
      else e == NoMem
  }

  lemma ProvidedExactly(k: State, env: PipeEnv)
    ensures ReserveFailure(k, env) == None <==> Provided(k, env)
    ensures ReserveFailure(k, env).Some? ==> FailsBy(k, env, ReserveFailure(k, env).value)
  {
    if SecondFreeCtx(k.ctxs) < |k.ctxs| {
      assert k.ctxs[FirstFreeCtx(k.ctxs, 0)].state == k.ctxs[SecondFreeCtx(k.ctxs)].state == UFree;
    }
  }

  /** Which pipeline is refused before anything is built, and that after that nothing stands in its way but
      what the rest of the kernel provides. */
  lemma SpawnPipeRefuses(k: State, req: PipeReq, env: PipeEnv)
    requires Inv(k) && k.waiter.Idle?
    ensures var out := SpawnPipe(k, req, env).1;
            if !PipeAsked(k, req) then out == Error(BadArg)
            else if !TwoSeats(k) then out == Error(Busy)
            else if |Threads(k.workers)| + 2 > k.threadCap then out == Error(NoMem)
            else if k.pipe.live then out == Error(Busy)
            else if !Provided(k, env) then out.Error? && FailsBy(k, env, out.code)
            else if !CanStart(k, env.stackA) then out == Error(NoMem)
            else if env.stackB && k.nextId + 1 < ID_LIMIT then out.Handles? else out == Panic
  {
    SpawnPipeKeeps(k, req, env);
    RefusalByCause(k, req);
    ProvidedExactly(k, env);
    if PipeRefusal(k, req) == None && ReserveFailure(k, env) == None {
      BuiltChecks(k, req, env);
    }
  }

  /** What each failure of the image loader is reported as. */
  lemma FetchErrorByCause(heap: set<nat>, f: FetchEnv)
    ensures FetchError(heap, f) == None <==> Fetched(heap, f)
    ensures FetchError(heap, f) == Some(NotFound) <==> !f.statOk || (f.isFile && f.sizeOk && !f.openOk)
    ensures FetchError(heap, f) == Some(IoErr) <==>
              f.statOk && f.isFile && f.sizeOk && f.openOk && CanAlloc(heap, f.block) && !(f.readOk && f.closeOk)
    ensures FetchError(heap, f) == Some(NoMem) <==>
              f.statOk && f.isFile && f.sizeOk && f.openOk && !CanAlloc(heap, f.block)
    ensures FetchError(heap, f) == Some(Malformed) <==>
              || (f.statOk && !(f.isFile && f.sizeOk))
              || (f.openOk && CanAlloc(heap, f.block) && f.statOk && f.readOk && f.closeOk && !f.valid)
  {
  }

  // ----- A worker's own steps -----

  /** Slot `i`, its context and its worker are now these; nothing else moved, but for the pipe and its ring. */
  ghost predicate Moves(k: State, k': State, i: nat, s: Slot, c: Ctx, ph: Phase) {
    && i < |k.slots| == |k'.slots| && |k'.ctxs| == |k.ctxs|
    && k.slots[i].ctx.Some? && k.slots[i].ctx.value < |k.ctxs| && k.slots[i].worker in k.workers
    && k'.slots[i] == s && (forall j :: 0 <= j < |k.slots| && j != i ==> k'.slots[j] == k.slots[j])
    && k'.ctxs[k.slots[i].ctx.value] == c
    && (forall d :: 0 <= d < |k.ctxs| && k.slots[i].ctx != Some(d) ==> k'.ctxs[d] == k.ctxs[d])
    && k'.workers.Keys == k.workers.Keys && k'.workers[k.slots[i].worker] == Worker(i, ph)
    && (forall w :: w in k.workers && w != k.slots[i].worker ==> k'.workers[w] == k.workers[w])
    && k'.(slots := k.slots, ctxs := k.ctxs, workers := k.workers, pipe := k.pipe, ring := k.ring, heap := k.heap) == k
  }

  predicate SamePipe(k: State, k': State) {
    k'.pipe == k.pipe && k'.ring == k.ring && k'.heap == k.heap
  }

  lemma PutMoves(k: State, i: nat, s: Slot, c: Ctx, ph: Phase)
    requires Seated(k, i)
    ensures Moves(k, Put(k, i, s, c, ph), i, s, c, ph) && SamePipe(k, Put(k, i, s, c, ph))
  {
  }

  lemma PutClosedMoves(k: State, i: nat, s: Slot, c: Ctx, ph: Phase)
    requires Seated(k, i)
    ensures Moves(k, CloseEnd(Put(k, i, s, c, ph), i).0, i, s, c, ph)
  {
    PutMoves(k, i, s, c, ph);
  }

  /** A turn of the worker takes a process without a kill request back to user mode and aborts one that has
      it; after an exit or a fault it only leaves the context and exits. */
  lemma TurnExactly(k: State, i: nat)
    requires Inv(k) && IsLive(k, i) && SlotOk(k, i) && PhaseOf(k, i).Parked?
    ensures var k', s, c := WorkerTurn(k, i).0, k.slots[i], CtxOf(k, i);
            if PhaseOf(k, i).rc != RunOther then
              Terminal(s.state) && Moves(k, k', i, s, c.(bound := false), Gone) && SamePipe(k, k')
            else if s.killRequested then Moves(k, k', i, s.(state := Aborted), c.(state := UAborted, bound := false), Gone)
            else Moves(k, k', i, s, c, InUser) && SamePipe(k, k')
  {
    var s, c := k.slots[i], CtxOf(k, i);
    WorkerTurnKeeps(k, i);
    if PhaseOf(k, i).rc != RunOther {
      PutMoves(k, i, s, c.(bound := false), Gone);
    } else if s.killRequested {
      PutClosedMoves(k, i, s.(state := Aborted), c.(state := UAborted, bound := false), Gone);
    } else {
      PutMoves(k, i, s, c, InUser);
    }
  }

  /** An exit or a fault records its codes, in the process and in its context. */
  lemma GateExactly(k: State, i: nat, life: Life, a: nat, b: nat)
    requires Inv(k) && IsLive(k, i) && SlotOk(k, i) && PhaseOf(k, i) == InUser && (life == Exited || life == Faulted)
    ensures var k', s, c := GateTerminal(k, i, life, a, b).0, k.slots[i], CtxOf(k, i);
            if life == Exited then
              Moves(k, k', i, s.(state := Exited, exitCode := a), c.(state := UExited, exitCode := a), Parked(RunExited))
            else
              Moves(k, k', i, s.(state := Faulted, faultVector := a, faultError := b),
                    c.(state := UFaulted, faultVector := a, faultError := b), Parked(RunFaulted))
  {
    var s, c := k.slots[i], CtxOf(k, i);
    GateTerminalKeeps(k, i, life, a, b);
    if life == Exited {
      PutClosedMoves(k, i, s.(state := Exited, exitCode := a), c.(state := UExited, exitCode := a), Parked(RunExited));
    } else {
      PutClosedMoves(k, i, s.(state := Faulted, faultVector := a, faultError := b),
                     c.(state := UFaulted, faultVector := a, faultError := b), Parked(RunFaulted));
    }
  }

  /** The first entry binds the context, and a trap parks the worker. */
  lemma EnterAndTrapExactly(k: State, i: nat)
    requires Inv(k) && IsLive(k, i) && SlotOk(k, i)
    ensures PhaseOf(k, i) == Fresh ==>
              var k' := Enter(k, i).0;
              Moves(k, k', i, k.slots[i], CtxOf(k, i).(bound := true, entered := true), InUser) && SamePipe(k, k')
    ensures PhaseOf(k, i) == InUser ==>
              var k' := Trap(k, i);
              Moves(k, k', i, k.slots[i], CtxOf(k, i), Parked(RunOther)) && SamePipe(k, k')
  {
    if PhaseOf(k, i) == Fresh {
      EnterKeeps(k, i);
      PutMoves(k, i, k.slots[i], CtxOf(k, i).(bound := true, entered := true), InUser);
    } else if PhaseOf(k, i) == InUser {
      PutMoves(k, i, k.slots[i], CtxOf(k, i), Parked(RunOther));
    }
  }

  // ----- Kill requests -----

  /** Slot `i` has its kill request, and nothing else has changed. */
  predicate KillsOnly(k: State, k': State, i: nat) {
    && i < |k.slots| == |k'.slots| && k'.slots[i].killRequested
    && k'.slots[i].(killRequested := k.slots[i].killRequested) == k.slots[i]
    && (forall j :: 0 <= j < |k.slots| && j != i ==> k'.slots[j] == k.slots[j])
    && k'.(slots := k.slots) == k
  }

  /** A kill request that is answered Done is one that was granted while no reap had yielded; it marks the
      process the handle names and changes nothing else. Every refusal changes nothing and names
      its cause: no such process, the caller itself, another owner, a process that is over. */
  lemma TerminateExactly(k: State, h: nat, owner: int, self: int)
    requires Inv(k)
    ensures var (k', out) := Terminate(k, h, owner, self);
            match Decode(k, h)
            case None => k' == k && out == Error(BadHandle)
            case Some(i) =>
              if self >= 0 && i == self then k' == k && out == Error(Inval)
              else if k.slots[i].owner != owner then k' == k && out == Error(BadHandle)
              else if Terminal(k.slots[i].state) then k' == k && out == Error(AlreadyGone)
              else KillsOnly(k, k', i) && out == if k.waiter.Idle? then Done else Panic
  {
    TerminateKeeps(k, h, owner, self);
    if Decode(k, h).Some? {
      assert SlotOk(k, Decode(k, h).value);
    }
  }

  // ----- Waiting -----

  /** A wait that takes a process reports how it ended, or has to yield, or halts because it may not. */
  lemma TakingWait(k: State, h: nat, owner: int, self: int)
    requires Inv(k) && NoWrap(k) && k.waiter.Idle? && Takes(k, h, owner, self) && (self < 0 ==> owner == KERNEL_OWNER)
    ensures var out := Wait(k, h, owner, self).1; Theorems.Consumes(out) || (self < 0 && out == Yields) || (self >= 0 && out == Panic)
  {
    WaitTakes(k, h, owner, self);
    ConsumeKeeps(k, h, Decode(k, h).value, self);
  }

  /** Which wait is refused, which is told that the process runs, and which takes it. */
  lemma WaitAnswersExactly(k: State, h: nat, owner: int, self: int)
    requires Inv(k) && NoWrap(k) && k.waiter.Idle? && (self < 0 ==> owner == KERNEL_OWNER)
    ensures var (k', out) := Wait(k, h, owner, self);
            match Decode(k, h)
            case None => k' == k && out == Error(BadHandle)
            case Some(i) =>
              if self >= 0 && i == self then k' == k && out == if k.slots[i].state == Active then Status(Running) else Error(BadHandle)
              else if k.slots[i].owner != owner then k' == k && out == Error(BadHandle)
              else if k.slots[i].state == Active || !WorkerGone(k, i) then k' == k && out == Status(Running)
              else Theorems.Consumes(out) || (self < 0 && out == Yields) || (self >= 0 && out == Panic)
  {
    if Takes(k, h, owner, self) {
      TakingWait(k, h, owner, self);
    }
    if Decode(k, h).Some? {
      assert SlotOk(k, Decode(k, h).value);
    }
  }

  /** Slot `j` was live and is FREE. */
  predicate Freed(k: State, k': State, j: nat) {
    j < |k.slots| && j < |k'.slots| && k.slots[j].state != Free && k'.slots[j].state == Free
  }

  /** What a consuming wait frees: the process, its terminal children, their terminal children, and so on;
      what it hands to the kernel: their live children, with a kill request; what it leaves: all else. */
  ghost predicate ReapsFrom(k: State, k': State, i: nat) {
    && |k'.slots| == |k.slots| && Freed(k, k', i)
    && (forall j: nat :: Freed(k, k', j) && j != i ==> Terminal(k.slots[j].state) && k.slots[j].owner >= 0 && Freed(k, k', k.slots[j].owner))
    && (forall j :: 0 <= j < |k.slots| ==> SlotReaped(k, k', j))
  }

  predicate SlotReaped(k: State, k': State, j: nat)
    requires j < |k.slots| == |k'.slots|
  {
    var s, t := k.slots[j], k'.slots[j];
    if s.state == Free then t == s
    else if Freed(k, k', j) then t.gen == s.gen + 1
    else if s.owner >= 0 && Freed(k, k', s.owner) then
      && !Terminal(s.state) && t.owner == KERNEL_OWNER && t.killRequested
      && t.(owner := s.owner, killRequested := s.killRequested) == s
    else t == s
  }

  lemma ReapedSlot(k: State, i: nat, j: nat)
    requires ReapInv(k) && NoWrap(k) && i < |k.slots| && j < |k.slots| && Terminal(k.slots[i].state)
    ensures Freed(k, Reaped(k, i), j) <==> InTree(k.slots, i, j)
    ensures SlotReaped(k, Reaped(k, i), j)
  {
    var T := Tree(k.slots, i);
    TreeSealed(k, i);
    assert SeatOk(k, j);
    if InTree(k.slots, i, j) {
      TreeIsYounger(k.slots, i, j);
    }
  }

  lemma ReapedOwner(k: State, i: nat, j: nat)
    requires ReapInv(k) && NoWrap(k) && i < |k.slots| && j < |k.slots| && Terminal(k.slots[i].state)
    requires Freed(k, Reaped(k, i), j) && j != i
    ensures Terminal(k.slots[j].state) && k.slots[j].owner >= 0 && Freed(k, Reaped(k, i), k.slots[j].owner)
  {
    ReapedSlot(k, i, j);
    TreeIsYounger(k.slots, i, j);
    ReapedSlot(k, i, k.slots[j].owner);
  }

  lemma ReapedFrom(k: State, i: nat)
    requires ReapInv(k) && NoWrap(k) && i < |k.slots| && Terminal(k.slots[i].state)
    ensures ReapsFrom(k, Reaped(k, i), i)
  {
    var k' := Reaped(k, i);
    assert InTree(k.slots, i, i);
    ReapedSlot(k, i, i);
    forall j | 0 <= j < |k.slots|
      ensures SlotReaped(k, k', j)
    {
      ReapedSlot(k, i, j);
    }
    forall j: nat | Freed(k, k', j) && j != i
      ensures Terminal(k.slots[j].state) && k.slots[j].owner >= 0 && Freed(k, k', k.slots[j].owner)
    {
      ReapedOwner(k, i, j);
    }
  }

  /** What the reap does to contexts and workers: those of the freed slots are gone, the others stay, and
      pipe, heap and thread ids are as before. */
  ghost predicate ReleasesOnly(k: State, k': State) {
    && |k'.slots| == |k.slots| && |k'.ctxs| == |k.ctxs|
    && (forall j: nat :: j < |k.slots| && k.slots[j].state != Free && k.slots[j].ctx.Some? && k.slots[j].ctx.value < |k.ctxs| ==>
          k'.ctxs[k.slots[j].ctx.value] == if Freed(k, k', j) then Ctx(UFree, false, false, 0, 0, 0) else k.ctxs[k.slots[j].ctx.value])
    && (forall w: nat :: w in k'.workers <==> w in k.workers && !Freed(k, k', k.workers[w].slot))
    && (forall w: nat :: w in k'.workers ==> k'.workers[w] == k.workers[w])
    && k'.(slots := k.slots, ctxs := k.ctxs, workers := k.workers) == k
  }

  lemma FreedCtx(k: State, i: nat, j: nat)
    requires ReapInv(k) && NoWrap(k) && CtxsDistinct(k.slots) && i < |k.slots| && Terminal(k.slots[i].state)
    requires j < |k.slots| && k.slots[j].ctx.Some? && k.slots[j].ctx.value < |k.ctxs| && k.slots[j].state != Free
    ensures Reaped(k, i).ctxs[k.slots[j].ctx.value] ==
            if Freed(k, Reaped(k, i), j) then Ctx(UFree, false, false, 0, 0, 0) else k.ctxs[k.slots[j].ctx.value]
  {
    ReapedSlot(k, i, j);
    if !InTree(k.slots, i, j) {
      ForeignCtx(k, Tree(k.slots, i), j);
    }
  }

  lemma ReapedWorkers(k: State, i: nat, w: nat)
    requires ReapInv(k) && NoWrap(k) && WorkersOk(k) && i < |k.slots| && Terminal(k.slots[i].state)
    ensures w in Reaped(k, i).workers <==> w in k.workers && !Freed(k, Reaped(k, i), k.workers[w].slot)
    ensures w in Reaped(k, i).workers ==> Reaped(k, i).workers[w] == k.workers[w]
  {
    if w in k.workers {
      ReapedSlot(k, i, k.workers[w].slot);
    }
  }

  lemma ReapedReleases(k: State, i: nat)
    requires Inv(k) && NoWrap(k) && OwnersOk(k.slots) && i < |k.slots| && Terminal(k.slots[i].state)
    ensures ReleasesOnly(k, Reaped(k, i))
  {
    var k' := Reaped(k, i);
    InvIsReapInv(k);
    forall j: nat | j < |k.slots| && k.slots[j].state != Free && k.slots[j].ctx.Some? && k.slots[j].ctx.value < |k.ctxs|
      ensures k'.ctxs[k.slots[j].ctx.value] == if Freed(k, k', j) then Ctx(UFree, false, false, 0, 0, 0) else k.ctxs[k.slots[j].ctx.value]
    {
      FreedCtx(k, i, j);
    }
    forall w: nat
      ensures w in k'.workers <==> w in k.workers && !Freed(k, k', k.workers[w].slot)
      ensures w in k'.workers ==> k'.workers[w] == k.workers[w]
    {
      ReapedWorkers(k, i, w);
    }
  }

  /** A wait that reports a terminal status has reaped the process it was asked about, with its terminal
      descendants and no other, and sent their live children to the kernel to be killed. */
  lemma WaitReaps(k: State, h: nat, owner: int, self: int)
    requires Inv(k) && NoWrap(k) && Theorems.Consumes(Wait(k, h, owner, self).1)
    ensures Decode(k, h).Some? && ReapsFrom(k, Wait(k, h, owner, self).0, Decode(k, h).value)
    ensures ReleasesOnly(k, Wait(k, h, owner, self).0)
  {
    InvIsReapInv(k);
    if Takes(k, h, owner, self) {
      WaitTakes(k, h, owner, self);
      ReapedFrom(k, Decode(k, h).value);
      ReapedReleases(k, Decode(k, h).value);
    } else {
      WaitLeaves(k, h, owner, self);
    }
  }
}

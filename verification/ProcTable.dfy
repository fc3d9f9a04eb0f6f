/** proc.c in its own form: tables edited in place, early returns, rollback paths, and the mutual
    recursion of the reap. Each method is proved to have the effect that modules Kernel and Reap
    state in closed form. */
module ProcTable {
  import opened Options
  import Pipe
  import opened Kernel
  import opened Reap
  import opened KernelInv
  import opened Machine
  import Runs

  class ProcTable {
    const threadCap: nat
    const pipeCap: nat
    var slots: seq<Slot>
    var ctxs: seq<Ctx>
    var workers: map<nat, Worker>
    var nextId: nat
    var heap: set<nat>
    var ring: Option<nat>
    var pipe: Pipe.PipeState
    var waiter: Waiter

    function View(): State
      reads this
    {
      State(slots, ctxs, workers, nextId, threadCap, heap, ring, pipe, pipeCap, waiter)
    }

    /** proc_initialize. */
    constructor (n: nat, contexts: nat, threadCap: nat, pipeCap: nat)
      ensures View() == Runs.Boot(n, contexts, threadCap, pipeCap)
      ensures Inv(View())
    {
      this.threadCap, this.pipeCap := threadCap, pipeCap;
      slots := seq(n, _ => Slot(Free, 1, KERNEL_OWNER, None, 0, false, false, Pipe.StdinClosed, Pipe.StdoutSerial, 0, 0, 0));
      ctxs := seq(contexts, _ => NO_CTX);
      workers, nextId, heap, ring, pipe, waiter := map[], 2, {}, None, Pipe.NO_PIPE, Idle;
      new;
      Runs.BootInv(n, contexts, threadCap, pipeCap);
    }

    // ----- Consuming a terminal process -----

    /** join_worker, up to the point where it would yield: the join succeeds at once exactly when
        the worker thread has exited. */
    method JoinWorker(i: nat) returns (ok: bool)
      requires ReapInv(View()) && i < |slots| && slots[i].state != Free
      modifies this`slots, this`workers
      ensures ok == WorkerGone(old(View()), i)
      ensures View() == if ok then AfterJoin(old(View()), i) else old(View())
    {
      assert SeatOk(View(), i);
      if !slots[i].workerValid { return false; }
      if workers[slots[i].worker].phase != Gone { return false; }
      workers := workers[slots[i].worker := Worker(i, Joined)];
      slots := slots[i := slots[i].(workerValid := false)];
      return true;
    }

    /** user_destroy: only an unbound context that is terminal, or was never entered, can go. */
    method UserDestroy(c: nat) returns (ok: bool)
      requires c < |ctxs|
      modifies this`ctxs
      ensures ok == Destroyable(old(ctxs[c]))
      ensures ctxs == if ok then old(ctxs)[c := NO_CTX] else old(ctxs)
    {
      if ctxs[c].state != UExited && ctxs[c].state != UFaulted && ctxs[c].state != UAborted &&
         !(ctxs[c].state == UActive && !ctxs[c].bound && !ctxs[c].entered) {
        return false;
      }
      if ctxs[c].bound { return false; }
      ctxs := ctxs[c := NO_CTX];
      return true;
    }

    /** free_joined: children first, then the slot itself, the generation last. */
    method FreeJoined(i: nat) returns (ok: bool)
      requires ReapInv(View()) && i < |slots| && Terminal(slots[i].state) && !slots[i].workerValid
      modifies this`slots, this`ctxs, this`workers
      ensures ok <==> Settled(old(View()), i)
      ensures ok ==> View() == Reaped(old(View()), i)
      decreases nextId - slots[i].worker, 5
    {
      ghost var k := View();
      FreeLast(k, i);
      ok := CleanupOwned(i);
      if !ok { return; }
      assert SeatOk(k, i);
      ok := FreeSlot(i);
    }

    /** user_destroy, then the slot goes back, the generation last. */
    method FreeSlot(i: nat) returns (ok: bool)
      requires i < |slots| && 0 < slots[i].gen < GEN_LIMIT && slots[i].ctx.Some? && slots[i].ctx.value < |ctxs|
      modifies this`slots, this`ctxs, this`workers
      ensures ok == Destroyable(old(ctxs[slots[i].ctx.value]))
      ensures ok ==> View() == FreedState(old(View()), i)
    {
      ok := UserDestroy(slots[i].ctx.value);
      if !ok { return; }
      var gen := if slots[i].gen + 1 == GEN_LIMIT then 0 else slots[i].gen + 1;
      if gen == 0 {
        gen := gen + 1;
      }
      workers := workers - {slots[i].worker};
      slots := slots[i := slots[i].(ctx := None, state := Free, workerValid := false, killRequested := false,
                                    owner := KERNEL_OWNER, exitCode := 0, faultVector := 0, faultError := 0,
                                    gen := gen)];
    }

    method ReapChild(i: nat) returns (ok: bool)
      requires ReapInv(View()) && i < |slots| && Terminal(slots[i].state)
      modifies this`slots, this`ctxs, this`workers
      ensures ok <==> WorkerGone(old(View()), i) && Settled(old(View()), i)
      ensures ok ==> View() == Reaped(old(View()), i)
      decreases nextId - slots[i].worker, 6
    {
      ghost var k := View();
      ok := JoinWorker(i);
      if !ok { return; }
      JoinThenReap(k, i);
      ok := FreeJoined(i);
    }

    /** The body of cleanup_owned's scan, for slot `i` of the table that started as `k`. */
    method ScanSlot(o: nat, i: nat, ghost k: State, ghost d: int) returns (ok: bool)
      requires ReapInv(k) && o < |k.slots| && Terminal(k.slots[o].state) && i < |k.slots|
      requires d == nextId - k.slots[o].worker
      requires View() == Partial(k, o, i)
      modifies this`slots, this`ctxs, this`workers
      ensures ok ==> View() == Partial(k, o, i + 1)
      ensures ok <==> ChildSettled(k, o, i)
      decreases d, 1
    {
      PartialChild(k, o, i);
      assert SeatOk(k, i);
      if slots[i].state == Free || slots[i].owner != o {
        PartialSkip(k, o, i);
      } else if slots[i].state == Active || slots[i].state == Loading {
        PartialReparent(k, o, i);
        slots := slots[i := slots[i].(owner := KERNEL_OWNER, killRequested := true)];
      } else {
        ChildStable(k, o, i);
        PartialReap(k, o, i);
        ok := ReapChild(i);
        return;
      }
      return true;
    }

    method ScanNext(o: nat, i: nat, ghost k: State, ghost d: int) returns (ok: bool)
      requires ReapInv(k) && o < |k.slots| && Terminal(k.slots[o].state) && i < |k.slots|
      requires d == nextId - k.slots[o].worker
      requires View() == Partial(k, o, i) && ScanSettled(k, o, i)
      modifies this`slots, this`ctxs, this`workers
      ensures if ok then View() == Partial(k, o, i + 1) && ScanSettled(k, o, i + 1) else !ScanSettled(k, o, |k.slots|)
      decreases d, 2
    {
      ok := ScanSlot(o, i, k, d);
      if !ok {
        ScanStuck(k, o, i, |k.slots|);
      }
    }

    /** cleanup_owned's scan over the whole table. */
    method ScanAll(o: nat, ghost k: State, ghost d: int) returns (ok: bool)
      requires ReapInv(k) && o < |k.slots| && Terminal(k.slots[o].state)
      requires d == nextId - k.slots[o].worker
      requires View() == k && Partial(k, o, 0) == k
      modifies this`slots, this`ctxs, this`workers
      ensures ok <==> ScanSettled(k, o, |k.slots|)
      ensures ok ==> View() == Partial(k, o, |k.slots|)
      decreases d, 3
    {
      var n := |slots|;
      for i := 0 to n
        invariant n == |k.slots|
        invariant View() == Partial(k, o, i)
        invariant ScanSettled(k, o, i)
      {
        ok := ScanNext(o, i, k, d);
        if !ok { return; }
      }
      return true;
    }

    /** cleanup_owned: terminal children of `o` are reaped, live ones go to the kernel with a kill
        request, and the closing check never fails. */
    method CleanupOwned(o: nat) returns (ok: bool)
      requires ReapInv(View()) && o < |slots| && Terminal(slots[o].state)
      modifies this`slots, this`ctxs, this`workers
      ensures ok <==> Settled(old(View()), o)
      ensures ok ==> View() == Partial(old(View()), o, |old(slots)|)
      decreases nextId - slots[o].worker, 4
    {
      ghost var k := View();
      PartialStart(k, o);
      SettledAll(k, o);
      ok := ScanAll(o, k, nextId - slots[o].worker);
      if !ok { return; }
      PartialEnd(k, o);
      ok := NoneOwned(o);
    }

    /** The closing check of cleanup_owned. */
    method NoneOwned(o: nat) returns (ok: bool)
      ensures ok <==> forall j :: 0 <= j < |slots| ==> !ChildOf(slots[j], o)
    {
      var i := 0;
      while i < |slots|
        invariant 0 <= i <= |slots|
        invariant forall j :: 0 <= j < i ==> !ChildOf(slots[j], o)
      {
        if slots[i].state != Free && slots[i].owner == o { return false; }
        i := i + 1;
      }
      return true;
    }

    // ----- Loading images -----

    /** fetch_image: on every failure the staging block, if any, is back in the heap. */
    method FetchImage(env: FetchEnv) returns (err: Option<SysErr>)
      modifies this`heap
      ensures err == FetchError(old(heap), env)
      ensures heap == if err == None then old(heap) + {env.block.value} else old(heap)
    {
      if !env.statOk { return Some(NotFound); }
      if !env.isFile { return Some(Malformed); }
      if !env.sizeOk { return Some(Malformed); }
      if !env.openOk { return Some(NotFound); }
      if env.block == None || env.block.value in heap { return Some(NoMem); }
      heap := heap + {env.block.value};
      if !env.readOk {
        heap := heap - {env.block.value};
        return Some(IoErr);
      }
      if !env.closeOk {
        heap := heap - {env.block.value};
        return Some(IoErr);
      }
      if !env.valid {
        heap := heap - {env.block.value};
        return Some(Malformed);
      }
      return None;
    }

    /** user_create_loaded: the first free context, if memory allows. */
    method UserCreate(createOk: bool) returns (c: Option<nat>)
      modifies this`ctxs
      ensures c == if createOk && FirstFreeCtx(old(ctxs), 0) < |old(ctxs)| then Some(FirstFreeCtx(old(ctxs), 0)) else None
      ensures ctxs == if c.Some? then old(ctxs)[c.value := NEW_CTX] else old(ctxs)
    {
      var i := 0;
      while i < |ctxs| && ctxs[i].state != UFree
        invariant 0 <= i <= |ctxs| && FirstFreeCtx(ctxs, 0) == FirstFreeCtx(ctxs, i)
      {
        i := i + 1;
      }
      if !createOk || i == |ctxs| { return None; }
      ctxs := ctxs[i := NEW_CTX];
      return Some(i);
    }

    /** prepare_side: context and argument block for a reserved slot, or the slot as it was. */
    method PrepareSide(slot: nat, createOk: bool, argvOk: bool) returns (ok: bool)
      requires slot < |slots| && slots[slot].ctx == None && CtxsClean(ctxs)
      modifies this`slots, this`ctxs
      ensures ok == (createOk && FirstFreeCtx(old(ctxs), 0) < |old(ctxs)| && argvOk)
      ensures ctxs == if ok then old(ctxs)[FirstFreeCtx(old(ctxs), 0) := NEW_CTX] else old(ctxs)
      ensures slots == if ok then old(slots)[slot := old(slots[slot]).(ctx := Some(FirstFreeCtx(old(ctxs), 0)))] else old(slots)
    {
      var c := UserCreate(createOk);
      if c == None { return false; }
      slots := slots[slot := slots[slot].(ctx := c)];
      if !argvOk {
        var gone := UserDestroy(c.value);
        assert gone;
        slots := slots[slot := slots[slot].(ctx := None)];
        assert slots == old(slots);
        return false;
      }
      return true;
    }

    /** rollback_slot: a reserved slot back to FREE, generation and selectors untouched. */
    method RollbackSlot(slot: nat)
      requires slot < |slots|
      requires slots[slot].ctx.Some? ==> slots[slot].ctx.value < |ctxs| && ctxs[slots[slot].ctx.value] == NEW_CTX
      modifies this`slots, this`ctxs
      ensures slots == old(slots)[slot := old(slots[slot]).(ctx := None, state := Free, workerValid := false,
                killRequested := false, owner := KERNEL_OWNER, exitCode := 0, faultVector := 0, faultError := 0)]
      ensures ctxs == if old(slots[slot]).ctx.Some? then old(ctxs)[old(slots[slot]).ctx.value := NO_CTX] else old(ctxs)
    {
      if slots[slot].ctx.Some? {
        var gone := UserDestroy(slots[slot].ctx.value);
        assert gone;
      }
      slots := slots[slot := slots[slot].(ctx := None, state := Free, workerValid := false, killRequested := false,
                                          owner := KERNEL_OWNER, exitCode := 0, faultVector := 0, faultError := 0)];
    }

    // ----- Checks and small steps -----

    /** proc_check decides `Kernel.ProcCheck`. */
    method CheckTable() returns (ok: bool)
      ensures ok == ProcCheck(View())
    {
      for i := 0 to |slots|
        invariant forall j :: 0 <= j < i ==> CheckSlot(View(), j)
        invariant forall j, m :: 0 <= j < m < i && slots[j].state != Free && slots[m].state != Free ==> slots[j].ctx != slots[m].ctx
      {
        ok := CheckOne(i);
        if !ok { return; }
      }
      return true;
    }

    /** The body of proc_check's scan. */
    method CheckOne(i: nat) returns (ok: bool)
      requires i < |slots|
      ensures ok <==>
                && CheckSlot(View(), i)
                && (slots[i].state != Free ==> forall j :: 0 <= j < i && slots[j].state != Free ==> slots[j].ctx != slots[i].ctx)
    {
      var s := slots[i];
      if s.gen == 0 { return false; }
      if s.owner != KERNEL_OWNER && (s.owner < 0 || s.owner >= |slots| || slots[s.owner].state == Free) { return false; }
      if s.state == Free { return s.ctx == None && !s.workerValid && !s.killRequested; }
      if s.ctx == None || s.ctx.value >= |ctxs| { return false; }
      var alias := HasCtx(i, s.ctx);
      if alias { return false; }
      if s.stdin == Pipe.StdinFile || s.stdout == Pipe.StdoutFile { return false; }
      if s.state == Loading { return !s.workerValid && !s.killRequested; }
      return s.workerValid && ctxs[s.ctx.value].state == UserStateOf(s.state);
    }

    /** Whether a live slot before `i` holds context `c`. */
    method HasCtx(i: nat, c: Option<nat>) returns (found: bool)
      requires i <= |slots|
      ensures found <==> exists j :: 0 <= j < i && slots[j].state != Free && slots[j].ctx == c
    {
      for j := 0 to i
        invariant forall m :: 0 <= m < j ==> slots[m].state == Free || slots[m].ctx != c
      {
        if slots[j].state != Free && slots[j].ctx == c { return true; }
      }
      return false;
    }

    method FindFree(from: nat) returns (i: nat)
      requires from <= |slots|
      ensures i == FirstFree(slots, from)
    {
      i := from;
      while i < |slots| && slots[i].state != Free
        invariant from <= i <= |slots| && FirstFree(slots, from) == FirstFree(slots, i)
      {
        i := i + 1;
      }
    }

    /** thread_create_with_flags for a process worker. */
    method StartThread(slot: nat, stackOk: bool) returns (id: Option<nat>)
      modifies this`workers, this`nextId
      ensures id == if CanStart(old(View()), stackOk) then Some(old(nextId)) else None
      ensures workers == if id.Some? then old(workers)[old(nextId) := Worker(slot, Fresh)] else old(workers)
      ensures nextId == if id.Some? then old(nextId) + 1 else old(nextId)
    {
      if nextId >= ID_LIMIT || !stackOk || |Threads(workers)| >= threadCap { return None; }
      id := Some(nextId);
      workers := workers[nextId := Worker(slot, Fresh)];
      nextId := nextId + 1;
    }

    /** LOADING and user_create_loaded, user_prepare_argv: slot `i` loaded, or the table as it was. */
    method LoadImage(i: nat, createOk: bool, argvOk: bool, ghost k: State) returns (ok: bool)
      requires Inv(k) && View() == k && i < |slots| && slots[i].state == Free
      modifies this`slots, this`ctxs
      ensures ok == (createOk && FirstFreeCtx(k.ctxs, 0) < |k.ctxs| && argvOk)
      ensures View() == if ok then Loaded(k, i) else k
    {
      assert SlotOk(k, i);
      slots := slots[i := slots[i].(state := Loading)];
      var c := UserCreate(createOk);
      if c == None {
        slots := slots[i := slots[i].(state := Free)];
        assert slots == k.slots;
        return false;
      }
      slots := slots[i := slots[i].(ctx := c)];
      assert slots == Loaded(k, i).slots;
      if !argvOk {
        Undo(i, k);
        return false;
      }
      return true;
    }

    /** The worker and the ACTIVE record, or the table as it was. */
    method Launch(i: nat, stdin: Pipe.StdinSel, owner: int, stackOk: bool, ghost k: State) returns (ok: bool)
      requires Inv(k) && i < |k.slots| && k.slots[i].state == Free && FirstFreeCtx(k.ctxs, 0) < |k.ctxs|
      requires View() == Loaded(k, i)
      modifies this`slots, this`ctxs, this`workers, this`nextId
      ensures ok == CanStart(k, stackOk)
      ensures View() == if ok then Admit(k, i, FirstFreeCtx(k.ctxs, 0), owner, stdin, Pipe.StdoutSerial) else k
    {
      var id := StartThread(i, stackOk);
      if id == None {
        Undo(i, k);
        return false;
      }
      slots := slots[i := slots[i].(worker := id.value, workerValid := true, owner := owner, killRequested := false,
                                    stdin := stdin, stdout := Pipe.StdoutSerial, exitCode := 0, faultVector := 0,
                                    faultError := 0, state := Active)];
      assert slots == Admit(k, i, FirstFreeCtx(k.ctxs, 0), owner, stdin, Pipe.StdoutSerial).slots;
      return true;
    }

    /** The refusals of spawn_image before anything moves, and the slot it will take. */
    method RefuseImage(nargs: nat, stdin: Pipe.StdinSel, owner: int, env: ImageEnv) returns (err: Option<SysErr>, i: nat)
      ensures err.Some? ==> err == ImageFailure(View(), nargs, stdin, owner, env)
      ensures err == None ==>
        && i == FirstFree(slots, 0) < |slots|
        && ImageFailure(View(), nargs, stdin, owner, env) ==
             if env.createOk && FirstFreeCtx(ctxs, 0) < |ctxs| && env.argvOk then None else Some(NoMem)
    {
      i := 0;
      if nargs > MAX_ARGC { return Some(BadArg), i; }
      if stdin != Pipe.StdinClosed && stdin != Pipe.StdinKbd { return Some(BadArg), i; }
      if owner != KERNEL_OWNER && (owner < 0 || owner >= |slots| || slots[owner].state == Free) { return Some(BadArg), i; }
      if !env.imageOk { return Some(Malformed), i; }
      i := FindFree(0);
      return if i >= |slots| then Some(Busy) else None, i;
    }

    /** proc_spawn_image, with its two audits. */
    method ProcSpawnImage(nargs: nat, stdin: Pipe.StdinSel, owner: int, env: ImageEnv) returns (out: Outcome)
      requires Inv(View())
      modifies this`slots, this`ctxs, this`workers, this`nextId
      ensures out == SpawnImage(old(View()), nargs, stdin, owner, env).1
      ensures out != Panic ==> View() == SpawnImage(old(View()), nargs, stdin, owner, env).0
    {
      ghost var k := View();
      var err, i := RefuseImage(nargs, stdin, owner, env);
      if err.Some? { return Error(err.value); }
      var handle := HandleOf(i, slots[i].gen);
      var ok := LoadImage(i, env.createOk, env.argvOk, k);
      if !ok { return Error(NoMem); }
      ok := CheckTable();
      if !ok { return Panic; }
      ok := Launch(i, stdin, owner, env.stackOk, k);
      if !ok { return Error(NoMem); }
      ok := CheckTable();
      return if ok then Handle(handle) else Panic;
    }

    /** Undo of a half-loaded slot: the context destroyed, the slot FREE again. */
    method Undo(i: nat, ghost k: State)
      requires Inv(k) && i < |k.slots| && k.slots[i].state == Free && FirstFreeCtx(k.ctxs, 0) < |k.ctxs|
      requires View() == Loaded(k, i)
      modifies this`slots, this`ctxs
      ensures View() == k
    {
      var c := slots[i].ctx.value;
      var gone := UserDestroy(c);
      assert gone;
      slots := slots[i := slots[i].(ctx := None)];
      slots := slots[i := slots[i].(state := Free)];
      assert SlotOk(k, i);
      assert slots == k.slots && ctxs == k.ctxs;
    }

    // ----- spawn_pipe -----

    /** Fetch one image, build its side, release the image: the heap is as before either way. */
    method BuildSide(slot: nat, fetch: FetchEnv, createOk: bool, argvOk: bool) returns (err: Option<SysErr>)
      requires slot < |slots| && slots[slot].ctx == None && CtxsClean(ctxs)
      modifies this`slots, this`ctxs, this`heap
      ensures heap == old(heap)
      ensures err == if FetchError(old(heap), fetch).Some? then FetchError(old(heap), fetch)
                     else if createOk && FirstFreeCtx(old(ctxs), 0) < |old(ctxs)| && argvOk then None
                     else Some(NoMem)
      ensures ctxs == if err == None then old(ctxs)[FirstFreeCtx(old(ctxs), 0) := NEW_CTX] else old(ctxs)
      ensures slots == if err == None then old(slots)[slot := old(slots[slot]).(ctx := Some(FirstFreeCtx(old(ctxs), 0)))] else old(slots)
    {
      err := FetchImage(fetch);
      if err.Some? { return; }
      var ok := PrepareSide(slot, createOk, argvOk);
      heap := heap - {fetch.block.value};
      return if ok then None else Some(NoMem);
    }

    /** The failure path of spawn_pipe: ring freed, both slots rolled back. */
    method Abandon(a: nat, b: nat, ring: nat, ghost ca: Option<nat>, ghost cb: Option<nat>, ghost k: State, ghost req: PipeReq)
      requires Inv(k) && PipeRefusal(k, req) == None && ring !in k.heap
      requires a == FirstFree(k.slots, 0) && b == SecondFree(k.slots)
      requires ca.Some? ==> ca.value < |k.ctxs| && k.ctxs[ca.value].state == UFree
      requires cb.Some? ==> cb.value < |k.ctxs| && k.ctxs[cb.value].state == UFree && ca != cb
      requires View() == Midway(k, req, ring, ca, cb)
      modifies this`slots, this`ctxs, this`heap
      ensures View() == StaleSelectors(k, req)
    {
      assert SlotOk(k, a) && SlotOk(k, b);
      heap := heap - {ring};
      assert heap == k.heap;
      RollbackSlot(a);
      RollbackSlot(b);
      assert slots == StaleSelectors(k, req).slots;
      assert ctxs == k.ctxs;
    }

    /** Both sides built on the reserved slots, or everything rolled back. */
    method BuildBoth(a: nat, b: nat, ring: nat, env: PipeEnv, ghost k: State, ghost req: PipeReq) returns (err: Option<SysErr>)
      requires Inv(k) && PipeRefusal(k, req) == None && ring !in k.heap
      requires a == FirstFree(k.slots, 0) && b == SecondFree(k.slots)
      requires View() == Midway(k, req, ring, None, None)
      modifies this`slots, this`ctxs, this`heap
      ensures err == BuildFailure(k.ctxs, k.heap + {ring}, env)
      ensures err.Some? ==> View() == StaleSelectors(k, req)
      ensures err == None ==> View() == Midway(k, req, ring, Some(FirstFreeCtx(k.ctxs, 0)), Some(SecondFreeCtx(k.ctxs)))
    {
      ghost var c := FirstFreeCtx(k.ctxs, 0);
      err := BuildSide(a, env.fetchA, env.createA, env.argvA);
      if err.Some? {
        Abandon(a, b, ring, None, None, k, req);
        return;
      }
      assert slots == Midway(k, req, ring, Some(c), None).slots;
      err := BuildSecond(a, b, ring, env, k, req);
    }

    /** The second side, once the first is built. */
    method BuildSecond(a: nat, b: nat, ring: nat, env: PipeEnv, ghost k: State, ghost req: PipeReq) returns (err: Option<SysErr>)
      requires Inv(k) && PipeRefusal(k, req) == None && ring !in k.heap && FirstFreeCtx(k.ctxs, 0) < |k.ctxs|
      requires a == FirstFree(k.slots, 0) && b == SecondFree(k.slots)
      requires View() == Midway(k, req, ring, Some(FirstFreeCtx(k.ctxs, 0)), None)
      modifies this`slots, this`ctxs, this`heap
      ensures err == if FetchError(k.heap + {ring}, env.fetchB).Some? then FetchError(k.heap + {ring}, env.fetchB)
                     else if !env.createB || SecondFreeCtx(k.ctxs) == |k.ctxs| || !env.argvB then Some(NoMem) else None
      ensures err.Some? ==> View() == StaleSelectors(k, req)
      ensures err == None ==> View() == Midway(k, req, ring, Some(FirstFreeCtx(k.ctxs, 0)), Some(SecondFreeCtx(k.ctxs)))
    {
      ghost var c := FirstFreeCtx(k.ctxs, 0);
      NextCtx(k.ctxs);
      err := BuildSide(b, env.fetchB, env.createB, env.argvB);
      if err.Some? {
        Abandon(a, b, ring, Some(c), None, k, req);
        return;
      }
      assert slots == Midway(k, req, ring, Some(c), Some(SecondFreeCtx(k.ctxs))).slots;
    }

    /** Worker fields, pipe_attach with its audit, and the two ACTIVE states. */
    method ActivateBoth(a: nat, b: nat, ida: nat, idb: nat, ring: nat) returns (ok: bool)
      requires a < |slots| && b < |slots| && a != b
      modifies this`slots, this`ring, this`pipe
      ensures ok <==> Attaches(old(View()), a, b)
      ensures ok ==>
        && slots == old(slots)
             [a := old(slots[a]).(worker := ida, workerValid := true, exitCode := 0, faultVector := 0, faultError := 0, state := Active)]
             [b := old(slots[b]).(worker := idb, workerValid := true, exitCode := 0, faultVector := 0, faultError := 0, state := Active)]
        && pipe == Pipe.Attach(old(pipe), a, old(slots[a].gen), b, old(slots[b].gen))
        && this.ring == Some(ring)
    {
      slots := slots[a := slots[a].(worker := ida, workerValid := true)];
      slots := slots[b := slots[b].(worker := idb, workerValid := true)];
      slots := slots[a := slots[a].(exitCode := 0, faultVector := 0, faultError := 0)];
      slots := slots[b := slots[b].(exitCode := 0, faultVector := 0, faultError := 0)];
      if !Pipe.CanAttach(pipe, |slots|, a, slots[a].gen, b, slots[b].gen) { return false; }
      pipe := Pipe.Attach(pipe, a, slots[a].gen, b, slots[b].gen);
      this.ring := Some(ring);
      assert Info(slots) == Info(old(slots));
      if !Pipe.Check(pipe, Info(slots), pipeCap) { return false; }
      slots := slots[a := slots[a].(state := Active)];
      slots := slots[b := slots[b].(state := Active)];
      return true;
    }

    /** Both workers, or which one could not be created: the first costs nothing, the second leaves
        a worker behind. */
    method StartBoth(a: nat, b: nat, stackA: bool, stackB: bool) returns (ida: Option<nat>, idb: Option<nat>)
      requires nextId !in workers && |Threads(workers)| + 2 <= threadCap
      modifies this`workers, this`nextId
      ensures ida == if CanStart(old(View()), stackA) then Some(old(nextId)) else None
      ensures ida == None ==> workers == old(workers) && nextId == old(nextId)
      ensures ida.Some? ==> idb == if stackB && old(nextId) + 1 < ID_LIMIT then Some(old(nextId) + 1) else None
      ensures ida.Some? && idb.Some? ==>
                && workers == old(workers)[old(nextId) := Worker(a, Fresh)][old(nextId) + 1 := Worker(b, Fresh)]
                && nextId == old(nextId) + 2
    {
      ThreadsGrow(workers, nextId, a);
      idb := None;
      ida := StartThread(a, stackA);
      if ida == None { return; }
      idb := StartThread(b, stackB);
    }

    /** The two workers, then the admission. A failure of the second worker is the code's panic. */
    method LaunchBoth(a: nat, b: nat, ring: nat, env: PipeEnv, ghost k: State, ghost req: PipeReq) returns (out: Outcome)
      requires Inv(k) && PipeRefusal(k, req) == None && ReserveFailure(k, env) == None && env.ring == Some(ring)
      requires a == FirstFree(k.slots, 0) && b == SecondFree(k.slots)
      requires View() == Built(k, req, env)
      modifies this`slots, this`ctxs, this`workers, this`nextId, this`heap, this`ring, this`pipe
      ensures out == if !CanStart(k, env.stackA) then Error(NoMem)
                     else if Strands(k, env) || !Attaches(Built(k, req, env), a, b) then Panic
                     else Handles(HandleOf(a, k.slots[a].gen), HandleOf(b, k.slots[b].gen))
      ensures out == Error(NoMem) ==> View() == StaleSelectors(k, req)
      ensures out.Handles? ==> View() == Admitted(k, req, env)
    {
      out := FireBoth(a, b, ring, env);
      if out == Error(NoMem) {
        Abandon(a, b, ring, Some(FirstFreeCtx(k.ctxs, 0)), Some(SecondFreeCtx(k.ctxs)), k, req);
      } else if out != Panic {
        FiringIsAdmission(k, req, env);
      }
    }

    /** The two workers and the activation. */
    method FireBoth(a: nat, b: nat, ring: nat, env: PipeEnv) returns (out: Outcome)
      requires a < |slots| && b < |slots| && a != b
      requires nextId !in workers && |Threads(workers)| + 2 <= threadCap
      modifies this`slots, this`workers, this`nextId, this`heap, this`ring, this`pipe
      ensures out == if !CanStart(old(View()), env.stackA) then Error(NoMem)
                     else if Strands(old(View()), env) || !Attaches(old(View()), a, b) then Panic
                     else Handles(HandleOf(a, old(slots[a].gen)), HandleOf(b, old(slots[b].gen)))
      ensures out == Error(NoMem) ==> View() == old(View())
      ensures out.Handles? ==> View() == Fired(old(View()), a, b, ring)
    {
      var ida, idb := StartBoth(a, b, env.stackA, env.stackB);
      if ida == None { return Error(NoMem); }
      if idb == None {
        heap := heap - {ring};
        return Panic;
      }
      var ok := ActivateBoth(a, b, ida.value, idb.value, ring);
      return if ok then Handles(HandleOf(a, slots[a].gen), HandleOf(b, slots[b].gen)) else Panic;
    }

    /** The refusals of spawn_pipe before anything moves, and the two slots it will take. */
    method RefusePair(req: PipeReq) returns (err: Option<SysErr>, a: nat, b: nat)
      ensures err == PipeRefusal(View(), req)
      ensures err == None ==> a == FirstFree(slots, 0) && b == SecondFree(slots)
    {
      a, b := 0, 0;
      if req.nargsA > MAX_ARGC || req.nargsB > MAX_ARGC { return Some(BadArg), a, b; }
      if req.stdinA != Pipe.StdinClosed && req.stdinA != Pipe.StdinKbd { return Some(BadArg), a, b; }
      if req.owner != KERNEL_OWNER && (req.owner < 0 || req.owner >= |slots| || slots[req.owner].state == Free) {
        return Some(BadArg), a, b;
      }
      a := FindFree(0);
      if a >= |slots| { return Some(Busy), a, b; }
      b := FindFree(a + 1);
      if b >= |slots| { return Some(Busy), a, b; }
      if |Threads(workers)| + 2 > threadCap { return Some(NoMem), a, b; }
      if pipe.live { return Some(Busy), a, b; }
      return None, a, b;
    }

    /** Both slots reserved and the ring allocated, or rolled back. */
    method ReserveBoth(a: nat, b: nat, req: PipeReq, block: Option<nat>, ghost k: State) returns (ok: bool)
      requires Inv(k) && View() == k && PipeRefusal(k, req) == None
      requires a == FirstFree(slots, 0) && b == SecondFree(slots)
      modifies this`slots, this`ctxs, this`heap
      ensures ok == CanAlloc(k.heap, block)
      ensures View() == if ok then Midway(k, req, block.value, None, None) else StaleSelectors(k, req)
    {
      Reserve(a, b, req);
      if block == None || block.value in heap {
        assert SlotOk(k, a) && SlotOk(k, b);
        RollbackSlot(a);
        RollbackSlot(b);
        assert slots == StaleSelectors(k, req).slots;
        return false;
      }
      heap := heap + {block.value};
      return true;
    }

    /** proc_spawn_pipe, with its audits. */
    method ProcSpawnPipe(req: PipeReq, env: PipeEnv) returns (out: Outcome)
      requires Inv(View())
      modifies this`slots, this`ctxs, this`workers, this`nextId, this`heap, this`ring, this`pipe
      ensures out == SpawnPipe(old(View()), req, env).1
      ensures out != Panic ==> View() == SpawnPipe(old(View()), req, env).0
    {
      ghost var k := View();
      var err, a, b := RefusePair(req);
      if err.Some? { return Error(err.value); }
      err := PreparePair(a, b, req, env, k);
      if err.Some? { return Error(err.value); }
      var ok := CheckTable();
      if !ok { return Panic; }
      out := LaunchBoth(a, b, env.ring.value, env, k, req);
      if !out.Handles? { return; }
      ok := CheckBoth();
      if !ok { return Panic; }
    }

    /** The closing audits of spawn_pipe. */
    method CheckBoth() returns (ok: bool)
      ensures ok <==> ProcCheck(View()) && PipeCheck(View())
    {
      ok := CheckTable();
      return ok && Pipe.Check(pipe, Info(slots), pipeCap);
    }

    /** Both slots reserved, the ring allocated and both sides built, or everything rolled back. */
    method PreparePair(a: nat, b: nat, req: PipeReq, env: PipeEnv, ghost k: State) returns (err: Option<SysErr>)
      requires Inv(k) && View() == k && PipeRefusal(k, req) == None
      requires a == FirstFree(slots, 0) && b == SecondFree(slots)
      modifies this`slots, this`ctxs, this`heap
      ensures err == ReserveFailure(k, env)
      ensures View() == if err == None then Built(k, req, env) else StaleSelectors(k, req)
    {
      var ok := ReserveBoth(a, b, req, env.ring, k);
      if !ok { return Some(NoMem); }
      err := BuildBoth(a, b, env.ring.value, env, k, req);
    }

    method Reserve(a: nat, b: nat, req: PipeReq)
      requires a < b < |slots|
      modifies this`slots
      ensures slots == old(slots)
        [a := old(slots[a]).(state := Loading, ctx := None, owner := req.owner, workerValid := false, killRequested := false,
                             stdin := req.stdinA, stdout := Pipe.StdoutPipe)]
        [b := old(slots[b]).(state := Loading, ctx := None, owner := req.owner, workerValid := false, killRequested := false,
                             stdin := Pipe.StdinPipe, stdout := Pipe.StdoutSerial)]
    {
      slots := slots[a := slots[a].(state := Loading, ctx := None, owner := req.owner, workerValid := false,
                                    killRequested := false, stdin := req.stdinA, stdout := Pipe.StdoutPipe)];
      slots := slots[b := slots[b].(state := Loading, ctx := None, owner := req.owner, workerValid := false,
                                    killRequested := false, stdin := Pipe.StdinPipe, stdout := Pipe.StdoutSerial)];
    }

    // ----- Gates, the worker, and callers -----

    /** pipe_note_terminal, with the ring going back to the heap and its audit. */
    method NoteTerminal(i: nat) returns (ok: bool)
      requires i < |slots|
      modifies this`pipe, this`heap, this`ring
      ensures (View(), ok) == CloseEnd(old(View()), i)
    {
      var before := pipe;
      var (p, good) := Pipe.NoteTerminal(pipe, i, slots[i].gen);
      pipe := p;
      if p == before { return good; }
      if p.released != before.released {
        if ring == None || ring.value !in heap { return false; }
        heap := heap - {ring.value};
        ring := None;
      }
      return good && Pipe.Check(pipe, Info(slots), pipeCap);
    }

    /** The record of one live slot, its context and its worker's place, in one stroke. */
    method Record(i: nat, s: Slot, c: Ctx, ph: Phase)
      requires Seated(View(), i)
      modifies this`slots, this`ctxs, this`workers
      ensures View() == Put(old(View()), i, s, c, ph)
    {
      ctxs := ctxs[slots[i].ctx.value := c];
      workers := workers[slots[i].worker := Worker(i, ph)];
      slots := slots[i := s];
    }

    /** The gate's context record followed by note_gate_terminal, then the worker is parked. */
    method NoteGateTerminal(i: nat, life: Life, x: nat, y: nat) returns (out: Outcome)
      requires Seated(View(), i)
      requires life == Exited || life == Faulted
      modifies this`slots, this`ctxs, this`workers, this`pipe, this`heap, this`ring
      ensures (View(), out) == GateTerminal(old(View()), i, life, x, y)
    {
      var s := slots[i];
      var c := ctxs[s.ctx.value];
      if s.state != Active || c.state != UActive { return Panic; }
      if life == Exited {
        Record(i, s.(state := Exited, exitCode := x), c.(state := UExited, exitCode := x), Parked(RunExited));
      } else {
        Record(i, s.(state := Faulted, faultVector := x, faultError := y),
               c.(state := UFaulted, faultVector := x, faultError := y), Parked(RunFaulted));
      }
      var ok := NoteTerminal(i);
      return if ok then Done else Panic;
    }

    /** One iteration of proc_worker's loop, with detach and exit when it breaks. */
    method WorkerIteration(i: nat) returns (out: Outcome)
      requires Seated(View(), i)
      requires PhaseOf(View(), i).Parked?
      modifies this`slots, this`ctxs, this`workers, this`pipe, this`heap, this`ring
      ensures (View(), out) == WorkerTurn(old(View()), i)
    {
      var s := slots[i];
      var c := ctxs[s.ctx.value];
      var rc := workers[s.worker].phase.rc;
      if rc == RunExited {
        if s.state == Active {
          Record(i, s.(state := Exited, exitCode := c.exitCode), c.(bound := false), Gone);
          var ok := NoteTerminal(i);
          return if ok then Done else Panic;
        }
        Record(i, s, c.(bound := false), Gone);
        return Done;
      }
      if rc == RunFaulted {
        if s.state == Active {
          Record(i, s.(state := Faulted, faultVector := c.faultVector, faultError := c.faultError), c.(bound := false), Gone);
          var ok := NoteTerminal(i);
          return if ok then Done else Panic;
        }
        Record(i, s, c.(bound := false), Gone);
        return Done;
      }
      if s.killRequested && s.state == Active && c.state == UActive {
        Record(i, s.(state := Aborted), c.(state := UAborted, bound := false), Gone);
        var ok := NoteTerminal(i);
        return if ok then Done else Panic;
      }
      Record(i, s, c, InUser);
      return Done;
    }

    method DecodeHandle(handle: nat) returns (i: Option<nat>)
      ensures i == Decode(View(), handle)
    {
      var slot, gen := handle % HANDLE_LIMIT, handle / HANDLE_LIMIT;
      if slot >= |slots| || gen == 0 { return None; }
      if slots[slot].state == Free { return None; }
      if slots[slot].gen != gen { return None; }
      return Some(slot);
    }

    /** proc_terminate, with its audit. */
    method ProcTerminate(handle: nat, owner: int, self: int) returns (out: Outcome)
      modifies this`slots
      ensures (View(), out) == Terminate(old(View()), handle, owner, self)
    {
      var d := DecodeHandle(handle);
      if d == None { return Error(BadHandle); }
      var i := d.value;
      if self >= 0 && i == self { return Error(Inval); }
      if slots[i].owner != owner { return Error(BadHandle); }
      if slots[i].state != Active && slots[i].state != Loading { return Error(AlreadyGone); }
      slots := slots[i := slots[i].(killRequested := true)];
      var ok := CheckTable();
      return if ok then Done else Panic;
    }

    /** proc_wait: the status is taken before the slot is consumed, and consuming it is the whole
        recursive reap, with the audit after it. */
    method ProcWait(handle: nat, owner: int, self: int) returns (out: Outcome)
      requires Inv(View())
      modifies this`slots, this`ctxs, this`workers
      ensures out == Wait(old(View()), handle, owner, self).1
      ensures out != Yields && out != Panic ==> View() == Wait(old(View()), handle, owner, self).0
    {
      ghost var k := View();
      var d := DecodeHandle(handle);
      if d == None { return Error(BadHandle); }
      var i := d.value;
      assert SlotOk(k, i);
      if self >= 0 && i == self {
        return if slots[i].state == Active || slots[i].state == Loading then Status(Running) else Error(BadHandle);
      }
      if slots[i].owner != owner { return Error(BadHandle); }
      if slots[i].state == Active || slots[i].state == Loading { return Status(Running); }
      if workers[slots[i].worker].phase == Joined { return Panic; }
      if workers[slots[i].worker].phase != Gone { return Status(Running); }
      var status := StatusOf(slots[i]);
      InvIsReapInv(k);
      var ok := ReapChild(i);
      if !ok { return if self >= 0 then Panic else Yields; }
      ok := CheckTable();
      return if ok then Status(status) else Panic;
    }
  }

  /** Both workers started and both slots activated on the ring. */
  function Fired(m: State, a: nat, b: nat, ring: nat): State
    requires a < |m.slots| && b < |m.slots|
  {
    m.(slots := m.slots
         [a := m.slots[a].(worker := m.nextId, workerValid := true, exitCode := 0, faultVector := 0, faultError := 0, state := Active)]
         [b := m.slots[b].(worker := m.nextId + 1, workerValid := true, exitCode := 0, faultVector := 0, faultError := 0, state := Active)],
       workers := m.workers[m.nextId := Worker(a, Fresh)][m.nextId + 1 := Worker(b, Fresh)],
       nextId := m.nextId + 2,
       ring := Some(ring),
       pipe := Pipe.Attach(m.pipe, a, m.slots[a].gen, b, m.slots[b].gen))
  }

  lemma FiringIsAdmission(k: State, req: PipeReq, env: PipeEnv)
    requires PipeRefusal(k, req) == None && ReserveFailure(k, env) == None
    ensures Fired(Built(k, req, env), FirstFree(k.slots, 0), SecondFree(k.slots), env.ring.value) == Admitted(k, req, env)
  {
    assert Fired(Built(k, req, env), FirstFree(k.slots, 0), SecondFree(k.slots), env.ring.value).slots == Admitted(k, req, env).slots;
  }

  lemma NextCtx(ctxs: seq<Ctx>)
    requires FirstFreeCtx(ctxs, 0) < |ctxs|
    ensures FirstFreeCtx(ctxs[FirstFreeCtx(ctxs, 0) := NEW_CTX], 0) == SecondFreeCtx(ctxs)
  {
    FirstFreeCtxUnique(ctxs[FirstFreeCtx(ctxs, 0) := NEW_CTX], 0, SecondFreeCtx(ctxs));
  }

  lemma FirstFreeCtxUnique(ctxs: seq<Ctx>, from: nat, i: nat)
    requires from <= i <= |ctxs|
    requires forall j :: from <= j < i ==> ctxs[j].state != UFree
    requires i < |ctxs| ==> ctxs[i].state == UFree
    ensures FirstFreeCtx(ctxs, from) == i
  {
  }
}

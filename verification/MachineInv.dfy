/** What the steps of the machine keep, and exactly when one of them halts the kernel. */
module MachineInv {
  import opened Options
  import opened Kernel
  import opened KernelInv
  import opened Reap
  import opened Machine

  // ----- Releasing slots -----

  lemma TreeSealed(k: State, root: nat)
    requires ReapInv(k) && root < |k.slots| && Terminal(k.slots[root].state)
    ensures Sealed(k.slots, Tree(k.slots, root), Orphans(k.slots, Tree(k.slots, root)))
  {
    var T := Tree(k.slots, root);
    forall j | j in T
      ensures Terminal(k.slots[j].state)
    {
      TreeIsYounger(k.slots, root, j);
    }
    forall j | 0 <= j < |k.slots| && k.slots[j].state != Free && j !in T && k.slots[j].owner in T
      ensures j in Orphans(k.slots, T)
    {
      assert SeatOk(k, j);
    }
  }

  lemma ReleaseKeepsSlot(k: State, F: set<nat>, R: set<nat>, i: nat)
    requires TableInv(k) && Sealed(k.slots, F, R) && i < |k.slots|
    ensures SlotOk(Release(k, F, R), i)
  {
    var k' := Release(k, F, R);
    assert SlotOk(k, i);
    InvIsReapInv(k);
    if i !in F && k.slots[i].state != Free {
      ReleaseKeepsOwners(k, F, R);
      ForeignCtx(k, F, i);
      assert k'.ctxs[k.slots[i].ctx.value] == k.ctxs[k.slots[i].ctx.value];
    }
  }

  lemma ReleaseKeepsTable(k: State, F: set<nat>, R: set<nat>)
    requires TableInv(k) && Sealed(k.slots, F, R)
    ensures TableInv(Release(k, F, R))
  {
    var k' := Release(k, F, R);
    forall i | 0 <= i < |k'.slots|
      ensures SlotOk(k', i)
    {
      ReleaseKeepsSlot(k, F, R, i);
    }
    assert CtxsDistinct(k'.slots);
    assert WorkersOk(k');
  }

  lemma ReleaseKeepsPipe(k: State, F: set<nat>, R: set<nat>)
    requires PipeInv(k) && Sealed(k.slots, F, R) && NoWrap(k)
    ensures PipeInv(Release(k, F, R))
  {
    var k' := Release(k, F, R);
    assert EndsOk(k');
    assert RolesOk(k');
  }

  /** Only the waiter's own record changes. */
  lemma WaiterKeepsTable(k: State, w: Waiter)
    requires TableInv(k) && PipeInv(k)
    ensures TableInv(k.(waiter := w)) && PipeInv(k.(waiter := w))
  {
    var k' := k.(waiter := w);
    forall i | 0 <= i < |k'.slots|
      ensures SlotOk(k', i)
    {
      assert SlotOk(k, i);
    }
  }

  // ----- Waiting -----

  lemma ReapedKeeps(k: State, i: nat)
    requires Inv(k) && NoWrap(k) && k.waiter.Idle? && i < |k.slots| && Terminal(k.slots[i].state)
    ensures OwnersOk(k.slots) && Inv(Reaped(k, i))
  {
    InvIsReapInv(k);
    TreeSealed(k, i);
    var T := Tree(k.slots, i);
    ReleaseKeepsTable(k, T, Orphans(k.slots, T));
    ReleaseKeepsPipe(k, T, Orphans(k.slots, T));
  }

  /** A reap by a process cannot reach the slots of the kernel's own reap. */
  lemma ReapMissesWaiter(k: State, i: nat)
    requires Inv(k) && k.waiter.Reaping? && i < |k.slots| && Terminal(k.slots[i].state) && WorkerGone(k, i)
    ensures OwnersOk(k.slots)
    ensures Reaped(k, i).slots[k.waiter.frames[0].owner] == k.slots[k.waiter.frames[0].owner]
  {
    InvIsReapInv(k);
    var root := k.waiter.frames[0].owner;
    assert FrameOk(k.slots, k.waiter.frames[0]);
    assert InFrames(k.waiter.frames, root);
    assert SlotOk(k, i);
    assert !InTree(k.slots, i, root);
  }

  lemma JoinIsPut(k: State, i: nat)
    requires TableInv(k) && i < |k.slots| && k.slots[i].state != Free && SlotOk(k, i)
    ensures AfterJoin(k, i) == Put(k, i, k.slots[i].(workerValid := false), CtxOf(k, i), Joined)
  {
    assert k.ctxs[k.slots[i].ctx.value := CtxOf(k, i)] == k.ctxs;
  }

  lemma JoinKeeps(k: State, i: nat)
    requires Inv(k) && i < |k.slots| && Terminal(k.slots[i].state) && WorkerGone(k, i)
    ensures TableInv(AfterJoin(k, i)) && PipeInv(AfterJoin(k, i))
  {
    assert SlotOk(k, i);
    JoinIsPut(k, i);
    PutKeepsTable(k, i, k.slots[i].(workerValid := false), CtxOf(k, i), Joined);
    SameRolesKeepsPipe(k, AfterJoin(k, i));
  }

  lemma YieldKeeps(k: State, handle: nat, i: nat)
    requires Inv(k) && k.waiter.Idle? && Decode(k, handle) == Some(i)
    requires Terminal(k.slots[i].state) && WorkerGone(k, i) && k.slots[i].owner == KERNEL_OWNER
    ensures Inv(AfterJoin(k, i).(waiter := Reaping(handle, StatusOf(k.slots[i]), [Frame(i, 0)], false)))
  {
    var w := Reaping(handle, StatusOf(k.slots[i]), [Frame(i, 0)], false);
    JoinKeeps(k, i);
    WaiterKeepsTable(AfterJoin(k, i), w);
    var k' := AfterJoin(k, i).(waiter := w);
    assert w.frames[0].owner == i;
    assert FrameOk(k'.slots, w.frames[0]);
  }

  lemma ConsumeWhileReaping(k: State, handle: nat, i: nat, self: int)
    requires Inv(k) && k.waiter.Reaping? && i < |k.slots| && Terminal(k.slots[i].state) && WorkerGone(k, i) && self >= 0
    ensures OwnersOk(k.slots) && Consume(k, handle, i, self).1 == Panic
  {
    ReapMissesWaiter(k, i);
    JoinedFailsCheck(k, Reaped(k, i));
  }

  lemma ConsumeKeeps(k: State, handle: nat, i: nat, self: int)
    requires Inv(k) && NoWrap(k) && k.waiter.Idle? && Decode(k, handle) == Some(i)
    requires Terminal(k.slots[i].state) && WorkerGone(k, i) && (self < 0 ==> k.slots[i].owner == KERNEL_OWNER)
    ensures OwnersOk(k.slots)
    ensures Consume(k, handle, i, self).1 == Panic <==> self >= 0 && !Settled(k, i)
    ensures Consume(k, handle, i, self).1 != Panic ==> Inv(Consume(k, handle, i, self).0)
  {
    InvIsReapInv(k);
    if Settled(k, i) {
      ReapedKeeps(k, i);
      ChecksPass(Reaped(k, i));
    } else if self < 0 {
      YieldKeeps(k, handle, i);
    }
  }

  /** proc_wait keeps the invariant unless it halts, also when it yields half way. It halts exactly
      when it consumes while the kernel's reap has yielded, when it is asked about a slot of that
      reap, or when a process asks and a descendant's worker has not exited. */
  lemma WaitKeeps(k: State, handle: nat, owner: int, self: int)
    requires Inv(k) && NoWrap(k) && Enabled(k, DoWait(handle, owner, self))
    ensures OwnersOk(k.slots)
    ensures Wait(k, handle, owner, self).1 == Panic <==> WaitHalts(k, handle, owner, self)
    ensures Wait(k, handle, owner, self).1 != Panic ==> Inv(Wait(k, handle, owner, self).0)
  {
    InvIsReapInv(k);
    if Takes(k, handle, owner, self) {
      var i := Decode(k, handle).value;
      WaitTakes(k, handle, owner, self);
      if k.waiter.Reaping? {
        ConsumeWhileReaping(k, handle, i, self);
      } else {
        ConsumeKeeps(k, handle, i, self);
      }
    } else {
      WaitLeaves(k, handle, owner, self);
    }
  }

  lemma WaitTakes(k: State, handle: nat, owner: int, self: int)
    requires TableInv(k) && Takes(k, handle, owner, self)
    ensures OwnersOk(k.slots)
    ensures Wait(k, handle, owner, self) == Consume(k, handle, Decode(k, handle).value, self)
    ensures !TakenAlready(k, handle, owner, self)
  {
    InvIsReapInv(k);
    assert SlotOk(k, Decode(k, handle).value);
  }

  lemma WaitLeaves(k: State, handle: nat, owner: int, self: int)
    requires TableInv(k) && !Takes(k, handle, owner, self)
    ensures Wait(k, handle, owner, self).0 == k
    ensures Wait(k, handle, owner, self).1 == Panic <==> TakenAlready(k, handle, owner, self)
    ensures Wait(k, handle, owner, self).1 != Yields
  {
    if Asks(k, handle, owner, self) {
      assert SlotOk(k, Decode(k, handle).value);
    }
  }

  predicate WaitHalts(k: State, handle: nat, owner: int, self: int)
    requires OwnersOk(k.slots)
  {
    || TakenAlready(k, handle, owner, self)
    || (Takes(k, handle, owner, self)
        && (k.waiter.Reaping? || (self >= 0 && !Settled(k, Decode(k, handle).value))))
  }

  // ----- The yielded reap, step by step -----

  /** Deeper frames belong to younger workers, so no slot is in the recursion twice. */
  lemma {:induction false} StackYounger(slots: seq<Slot>, fs: seq<Frame>, n: nat, m: nat)
    requires OwnersOk(slots) && StackOk(slots, fs) && n < m < |fs|
    ensures fs[n].owner < |slots| && fs[m].owner < |slots|
    ensures slots[fs[n].owner].worker < slots[fs[m].owner].worker
    decreases m
  {
    assert FrameOk(slots, fs[n]) && FrameOk(slots, fs[m]) && FrameOk(slots, fs[m - 1]);
    assert OwnerOk(slots, slots[fs[m].owner]);
    assert slots[fs[m - 1 + 1].owner].owner == fs[m - 1].owner;
    if n < m - 1 {
      StackYounger(slots, fs, n, m - 1);
    }
  }

  lemma OntoOwners(fs: seq<Frame>)
    requires fs != []
    ensures |Onto(fs)| == |fs| && forall n :: 0 <= n < |fs| ==> Onto(fs)[n].owner == fs[n].owner
    ensures forall i :: InFrames(Onto(fs), i) <==> InFrames(fs, i)
  {
    forall i
      ensures InFrames(Onto(fs), i) <==> InFrames(fs, i)
    {
      if InFrames(fs, i) {
        var n :| 0 <= n < |fs| && fs[n].owner == i;
        assert Onto(fs)[n].owner == i;
      }
    }
  }

  lemma OntoStack(slots: seq<Slot>, fs: seq<Frame>)
    requires StackOk(slots, fs) && fs != [] && fs[|fs| - 1].at < |slots|
    requires !ChildOf(slots[fs[|fs| - 1].at], fs[|fs| - 1].owner)
    ensures StackOk(slots, Onto(fs))
  {
    forall n | 0 <= n < |fs|
      ensures FrameOk(slots, Onto(fs)[n])
    {
      assert FrameOk(slots, fs[n]);
    }
  }

  /** The table is fine and the frames fit it. */
  predicate Fits(k: State, fs: seq<Frame>) {
    && k.waiter.Reaping? && fs != [] && StackOk(k.slots, fs)
    && (forall i :: 0 <= i < |k.slots| && k.slots[i].state != Free ==> (!k.slots[i].workerValid <==> InFrames(fs, i)))
    && fs[0].owner < |k.slots|
    && Decode(k, k.waiter.handle) == Some(fs[0].owner)
    && k.waiter.status == StatusOf(k.slots[fs[0].owner])
  }

  lemma FittingStack(k: State, fs: seq<Frame>)
    requires TableInv(k) && PipeInv(k) && Fits(k, fs)
    ensures Inv(Stack(k, fs))
  {
    WaiterKeepsTable(k, k.waiter.(frames := fs, resting := false));
  }

  lemma RestKeeps(k: State)
    requires Inv(k) && k.waiter.Reaping?
    ensures Inv(Rest(k))
  {
    WaiterKeepsTable(k, k.waiter.(resting := true));
  }

  lemma AdvanceFits(k: State, fs: seq<Frame>)
    requires Fits(k, fs) && fs[|fs| - 1].at < |k.slots| && !ChildOf(k.slots[fs[|fs| - 1].at], fs[|fs| - 1].owner)
    ensures Fits(k, Onto(fs))
  {
    OntoOwners(fs);
    OntoStack(k.slots, fs);
  }

  lemma OrphanFits(k: State, j: nat)
    requires Inv(k) && k.waiter.Reaping? && j < |k.slots| && LiveState(k.slots[j].state)
    ensures Fits(k.(slots := k.slots[j := OrphanSlot(k.slots[j])]), k.waiter.frames)
  {
    var k', fs := k.(slots := k.slots[j := OrphanSlot(k.slots[j])]), k.waiter.frames;
    forall n | 0 <= n < |fs|
      ensures FrameOk(k'.slots, fs[n]) && fs[n].owner != j
    {
      assert FrameOk(k.slots, fs[n]);
    }
  }

  lemma OrphanKeepsTable(k: State, j: nat)
    requires Inv(k) && NoWrap(k) && j < |k.slots| && LiveState(k.slots[j].state)
    ensures TableInv(k.(slots := k.slots[j := OrphanSlot(k.slots[j])]))
    ensures PipeInv(k.(slots := k.slots[j := OrphanSlot(k.slots[j])]))
  {
    ReparentIsRelease(k, j);
    ReleaseKeepsTable(k, {}, {j});
    ReleaseKeepsPipe(k, {}, {j});
  }

  lemma PushStack(slots: seq<Slot>, fs: seq<Frame>, c: nat)
    requires StackOk(slots, fs) && fs != [] && fs[|fs| - 1].at == c < |slots|
    requires ChildOf(slots[c], fs[|fs| - 1].owner) && Terminal(slots[c].state)
    ensures StackOk(slots[c := slots[c].(workerValid := false)], fs + [Frame(c, 0)])
  {
    var gs, after := fs + [Frame(c, 0)], slots[c := slots[c].(workerValid := false)];
    forall n | 0 <= n < |gs|
      ensures FrameOk(after, gs[n])
    {
      if n < |fs| {
        assert FrameOk(slots, fs[n]);
      }
    }
    forall n | 0 <= n < |gs| - 1
      ensures gs[n].at == gs[n + 1].owner && after[gs[n + 1].owner].owner == gs[n].owner
    {
      if n < |fs| - 1 {
        assert fs[n].at == fs[n + 1].owner && FrameOk(slots, fs[n + 1]);
      }
    }
  }

  lemma PushFits(k: State, c: nat)
    requires WaiterOk(k) && k.waiter.Reaping? && TopFrame(k).at == c < |k.slots|
    requires ChildOf(k.slots[c], TopFrame(k).owner) && Terminal(k.slots[c].state)
    ensures Fits(AfterJoin(k, c), k.waiter.frames + [Frame(c, 0)])
  {
    PushStack(k.slots, k.waiter.frames, c);
    PushOwners(k.waiter.frames, c);
    assert FrameOk(k.slots, k.waiter.frames[0]);
  }

  lemma PushOwners(fs: seq<Frame>, c: nat)
    ensures forall i :: InFrames(fs + [Frame(c, 0)], i) <==> InFrames(fs, i) || i == c
  {
    var gs := fs + [Frame(c, 0)];
    forall i
      ensures InFrames(gs, i) <==> InFrames(fs, i) || i == c
    {
      if InFrames(fs, i) {
        var n :| 0 <= n < |fs| && fs[n].owner == i;
        assert gs[n].owner == i;
      }
      if i == c {
        assert gs[|fs|].owner == i;
      }
    }
  }

  /** Only the top frame belongs to its owner. */
  lemma TopOwnerOnce(slots: seq<Slot>, fs: seq<Frame>, n: nat)
    requires OwnersOk(slots) && StackOk(slots, fs) && n < |fs| - 1
    ensures fs[n].owner != fs[|fs| - 1].owner
  {
    StackYounger(slots, fs, n, |fs| - 1);
  }

  lemma PopStack(slots: seq<Slot>, fs: seq<Frame>, freed: Slot)
    requires OwnersOk(slots) && StackOk(slots, fs) && |fs| > 1 && freed.state == Free
    ensures fs[|fs| - 1].owner < |slots|
    ensures StackOk(slots[fs[|fs| - 1].owner := freed], Onto(fs[..|fs| - 1]))
  {
    var m := |fs| - 1;
    var o, gs := fs[m].owner, fs[..m];
    assert FrameOk(slots, fs[m]);
    var after := slots[o := freed];
    forall n | 0 <= n < m
      ensures FrameOk(after, gs[n]) && gs[n].owner != o
    {
      assert FrameOk(slots, fs[n]);
      TopOwnerOnce(slots, fs, n);
    }
    assert StackOk(after, gs);
    assert fs[m - 1].at == fs[m - 1 + 1].owner;
    OntoStack(after, gs);
  }

  lemma PopOwners(slots: seq<Slot>, fs: seq<Frame>)
    requires OwnersOk(slots) && StackOk(slots, fs) && |fs| > 1
    ensures forall i :: InFrames(Onto(fs[..|fs| - 1]), i) <==> InFrames(fs, i) && i != fs[|fs| - 1].owner
  {
    var m := |fs| - 1;
    var gs := fs[..m];
    OntoOwners(gs);
    forall i
      ensures InFrames(gs, i) <==> InFrames(fs, i) && i != fs[m].owner
    {
      if InFrames(gs, i) {
        var n :| 0 <= n < m && gs[n].owner == i;
        assert fs[n].owner == i;
        TopOwnerOnce(slots, fs, n);
      }
      if InFrames(fs, i) && i != fs[m].owner {
        var n :| 0 <= n < |fs| && fs[n].owner == i;
        assert gs[n].owner == i;
      }
    }
  }

  lemma PopFits(k: State)
    requires Inv(k) && k.waiter.Reaping? && |k.waiter.frames| > 1
    requires k.slots[TopFrame(k).owner].ctx.Some? && k.slots[TopFrame(k).owner].ctx.value < |k.ctxs|
    ensures Fits(FreedState(k, TopFrame(k).owner), Onto(k.waiter.frames[..|k.waiter.frames| - 1]))
  {
    var fs, o := k.waiter.frames, TopFrame(k).owner;
    InvIsReapInv(k);
    assert FrameOk(k.slots, fs[0]);
    PopStack(k.slots, fs, FreedSlot(k.slots[o]));
    PopOwners(k.slots, fs);
    TopOwnerOnce(k.slots, fs, 0);
    OntoOwners(fs[..|fs| - 1]);
  }

  /** At the end of its scan the top frame's slot can be freed: no child is left, and user_destroy will
      take the context. */
  lemma TopIsFree(k: State)
    requires TableInv(k) && WaiterOk(k) && k.waiter.Reaping? && TopFrame(k).at == |k.slots|
    ensures TopFrame(k).owner < |k.slots| && SlotOk(k, TopFrame(k).owner) && Terminal(k.slots[TopFrame(k).owner].state)
    ensures forall j :: 0 <= j < |k.slots| ==> !ChildOf(k.slots[j], TopFrame(k).owner)
    ensures Destroyable(CtxOf(k, TopFrame(k).owner))
  {
    var o := TopFrame(k).owner;
    assert FrameOk(k.slots, TopFrame(k));
    assert InFrames(k.waiter.frames, o);
    assert SlotOk(k, o);
  }

  lemma FreeTopKeepsTable(k: State, o: nat)
    requires TableInv(k) && PipeInv(k) && NoWrap(k) && o < |k.slots| && SlotOk(k, o) && Terminal(k.slots[o].state)
    requires forall j :: 0 <= j < |k.slots| ==> !ChildOf(k.slots[j], o)
    ensures TableInv(FreedState(k, o)) && PipeInv(FreedState(k, o))
  {
    InvIsReapInv(k);
    assert SeatOk(k, o);
    FreeIsRelease(k, o);
    assert Sealed(k.slots, {o}, {});
    ReleaseKeepsTable(k, {o}, {});
    ReleaseKeepsPipe(k, {o}, {});
  }

  /** The child the scan has come to is not in the recursion already. */
  lemma ChildNotInFrames(slots: seq<Slot>, fs: seq<Frame>, c: nat)
    requires OwnersOk(slots) && StackOk(slots, fs) && fs != [] && c < |slots| && ChildOf(slots[c], fs[|fs| - 1].owner)
    ensures !InFrames(fs, c)
  {
    if InFrames(fs, c) {
      var n :| 0 <= n < |fs| && fs[n].owner == c;
      if n > 0 {
        var m := n - 1;
        assert slots[fs[m + 1].owner].owner == fs[m].owner;
        TopOwnerOnce(slots, fs, m);
      }
    }
  }

  lemma PopKeeps(k: State)
    requires Inv(k) && NoWrap(k) && k.waiter.Reaping? && TopFrame(k).at == |k.slots|
    ensures TopFrame(k).owner < |k.slots| && SlotOk(k, TopFrame(k).owner) && k.slots[TopFrame(k).owner].state != Free
    ensures FreeTop(k).1 != Panic && Inv(FreeTop(k).0)
  {
    TopIsFree(k);
    if |k.waiter.frames| > 1 {
      InnerPopKeeps(k);
    } else {
      LastPopKeeps(k);
    }
  }

  lemma InnerPopKeeps(k: State)
    requires Inv(k) && NoWrap(k) && k.waiter.Reaping? && TopFrame(k).at == |k.slots| && |k.waiter.frames| > 1
    ensures TopFrame(k).owner < |k.slots| && SlotOk(k, TopFrame(k).owner) && k.slots[TopFrame(k).owner].state != Free
    ensures Inv(Stack(FreedState(k, TopFrame(k).owner), Onto(k.waiter.frames[..|k.waiter.frames| - 1])))
  {
    TopIsFree(k);
    FreeTopKeepsTable(k, TopFrame(k).owner);
    PopFits(k);
    FittingStack(FreedState(k, TopFrame(k).owner), Onto(k.waiter.frames[..|k.waiter.frames| - 1]));
  }

  lemma LastPopKeeps(k: State)
    requires Inv(k) && NoWrap(k) && k.waiter.Reaping? && TopFrame(k).at == |k.slots| && |k.waiter.frames| == 1
    ensures TopFrame(k).owner < |k.slots| && SlotOk(k, TopFrame(k).owner) && k.slots[TopFrame(k).owner].state != Free
    ensures Inv(FreedState(k, TopFrame(k).owner).(waiter := Idle))
    ensures ProcCheck(FreedState(k, TopFrame(k).owner).(waiter := Idle))
  {
    var fs, o := k.waiter.frames, TopFrame(k).owner;
    TopIsFree(k);
    FreeTopKeepsTable(k, o);
    WaiterKeepsTable(FreedState(k, o), Idle);
    forall i | InFrames(fs, i)
      ensures i == o
    {
    }
    ChecksPass(FreedState(k, o).(waiter := Idle));
  }

  /** No step of the kernel's own reap halts it: every join it makes succeeds or yields, every
      closing check and user_destroy succeeds, and so does the audit at the end. */
  lemma ResumeKeeps(k: State)
    requires Inv(k) && NoWrap(k) && k.waiter.Reaping?
    ensures Resume(k).1 != Panic && Inv(Resume(k).0)
    ensures Resume(k).1 == Yields <==> Stuck(k)
  {
    var fs, f := k.waiter.frames, TopFrame(k);
    assert FrameOk(k.slots, f);
    if f.at == |k.slots| {
      PopKeeps(k);
    } else if !ChildOf(k.slots[f.at], f.owner) {
      AdvanceFits(k, fs);
      FittingStack(k, Onto(fs));
    } else {
      ChildKeeps(k);
    }
  }

  lemma ChildKeeps(k: State)
    requires Inv(k) && NoWrap(k) && k.waiter.Reaping? && TopFrame(k).at < |k.slots|
    requires ChildOf(k.slots[TopFrame(k).at], TopFrame(k).owner)
    ensures Resume(k).1 != Panic && Inv(Resume(k).0)
    ensures Resume(k).1 == Yields <==> Stuck(k)
  {
    var fs, c := k.waiter.frames, TopFrame(k).at;
    InvIsReapInv(k);
    ChildNotInFrames(k.slots, fs, c);
    assert SlotOk(k, c);
    if LiveState(k.slots[c].state) {
      OrphanStep(k);
    } else if WorkerGone(k, c) {
      PushKeeps(k, c);
    } else {
      RestKeeps(k);
    }
  }

  lemma PushKeeps(k: State, c: nat)
    requires Inv(k) && NoWrap(k) && k.waiter.Reaping? && TopFrame(k).at == c < |k.slots|
    requires ChildOf(k.slots[c], TopFrame(k).owner) && Terminal(k.slots[c].state) && WorkerGone(k, c)
    ensures Inv(Stack(AfterJoin(k, c), k.waiter.frames + [Frame(c, 0)]))
  {
    assert SlotOk(k, c);
    JoinKeeps(k, c);
    PushFits(k, c);
    FittingStack(AfterJoin(k, c), k.waiter.frames + [Frame(c, 0)]);
  }

  lemma OrphanStep(k: State)
    requires Inv(k) && NoWrap(k) && k.waiter.Reaping? && TopFrame(k).at < |k.slots|
    requires LiveState(k.slots[TopFrame(k).at].state)
    ensures Inv(Stack(k.(slots := k.slots[TopFrame(k).at := OrphanSlot(k.slots[TopFrame(k).at])]), Onto(k.waiter.frames)))
  {
    var fs, j := k.waiter.frames, TopFrame(k).at;
    var k1 := k.(slots := k.slots[j := OrphanSlot(k.slots[j])]);
    OrphanFits(k, j);
    OrphanKeepsTable(k, j);
    AdvanceFits(k1, fs);
    FittingStack(k1, Onto(fs));
  }

  // ----- All steps -----

  /** The steps that halt the kernel, by what can be seen before the step: a spawn_pipe that comes to
      its second worker and cannot create it; a wait by a process that would reap a descendant whose
      worker has not exited; and, while the kernel's own reap has yielded, every spawn that comes to
      its first audit, every kill request that is granted and every wait that consumes. */
  predicate Halts(k: State, s: Step)
    requires OwnersOk(k.slots)
  {
    match s
    case DoSpawnImage(nargs, stdin, owner, env) =>
      k.waiter.Reaping? && ImageFailure(k, nargs, stdin, owner, env) == None
    case DoSpawnPipe(req, env) =>
      PipeRefusal(k, req) == None && ReserveFailure(k, env) == None && (k.waiter.Reaping? || Strands(k, env))
    case DoTerminate(h, owner, self) => k.waiter.Reaping? && Grants(k, h, owner, self)
    case DoWait(h, owner, self) => WaitHalts(k, h, owner, self)
    case _ => false
  }

  /** The calls: spawn, spawn_pipe, terminate and wait. */
  lemma CallHalts(k: State, s: Step)
    requires Inv(k) && Enabled(k, s) && NoWrap(k)
    requires s.DoSpawnImage? || s.DoSpawnPipe? || s.DoTerminate? || s.DoWait?
    ensures OwnersOk(k.slots)
    ensures Do(k, s).1 == Panic <==> Halts(k, s)
    ensures Do(k, s).1 != Panic ==> Inv(Do(k, s).0)
  {
    InvIsReapInv(k);
    match s
    case DoSpawnImage(nargs, stdin, owner, env) => SpawnImageKeeps(k, nargs, stdin, owner, env);
    case DoSpawnPipe(req, env) => SpawnPipeKeeps(k, req, env);
    case DoTerminate(h, owner, self) => TerminateKeeps(k, h, owner, self);
    case DoWait(h, owner, self) => WaitKeeps(k, h, owner, self);
  }

  /** The steps of workers, gates, the pipe and the kernel's reap. */
  lemma OthersKeep(k: State, s: Step)
    requires Inv(k) && Enabled(k, s) && NoWrap(k)
    requires !(s.DoSpawnImage? || s.DoSpawnPipe? || s.DoTerminate? || s.DoWait?)
    ensures Do(k, s).1 != Panic && Inv(Do(k, s).0)
  {
    match s
    case DoEnter(i) => assert SlotOk(k, i); EnterKeeps(k, i);
    case DoTrap(i) => assert SlotOk(k, i); TrapKeeps(k, i);
    case DoGate(i, life, a, b) => assert SlotOk(k, i); GateTerminalKeeps(k, i, life, a, b);
    case DoTurn(i) => assert SlotOk(k, i); WorkerTurnKeeps(k, i);
    case DoResume => ResumeKeeps(k);
    case DoWrite(i, src, copied) => WriteOutKeeps(k, i, src, copied);
    case DoRead(i, len, destOk, copied) => ReadInKeeps(k, i, len, destOk, copied);
  }

  /** A step halts exactly when `Halts` says so, and keeps the invariant otherwise. */
  lemma OnlyHalts(k: State, s: Step)
    requires Inv(k) && Enabled(k, s) && NoWrap(k)
    ensures OwnersOk(k.slots)
    ensures Do(k, s).1 == Panic <==> Halts(k, s)
    ensures Do(k, s).1 != Panic ==> Inv(Do(k, s).0)
  {
    InvIsReapInv(k);
    if s.DoSpawnImage? || s.DoSpawnPipe? || s.DoTerminate? || s.DoWait? {
      CallHalts(k, s);
    } else {
      OthersKeep(k, s);
    }
  }
}

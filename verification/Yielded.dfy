/** A reap that yielded comes to the same end: whatever the processes do while it waits, its steps
    lead to the closed form of the table they find, and only finitely many are left. */
module Yielded {
  import opened Kernel
  import opened Reap
  import opened Machine
  import opened MachineInv

  /** The table without the waiter's own record. */
  function Bare(k: State): State {
    k.(waiter := Idle)
  }

  /** What is left to be done for the process that is being consumed. */
  function Goal(k: State): State
    requires OwnersOk(k.slots) && k.waiter.Reaping? && k.waiter.frames != []
  {
    Bare(Reaped(k, k.waiter.frames[0].owner))
  }

  lemma {:induction false} StackInTree(slots: seq<Slot>, fs: seq<Frame>, n: nat)
    requires OwnersOk(slots) && StackOk(slots, fs) && n < |fs|
    ensures fs[0].owner < |slots| && fs[n].owner < |slots|
    ensures InTree(slots, fs[0].owner, fs[n].owner)
    decreases n
  {
    assert FrameOk(slots, fs[0]) && FrameOk(slots, fs[n]);
    if n > 0 {
      var m := n - 1;
      StackInTree(slots, fs, m);
      assert slots[fs[m + 1].owner].owner == fs[m].owner;
    }
  }

  // ----- Each step leaves the goal where it is -----

  /** One slot leaves or is handed over before the rest. */
  lemma ReleaseBefore(k: State, F: set<nat>, R: set<nat>, T: set<nat>, O: set<nat>)
    requires F !! T && F !! O && R !! T
    ensures Release(Release(k, F, R), T, O) == Release(k, F + T, R + O)
  {
    ReleaseTwice(k, F, R, T, O);
  }

  lemma OrphanTree(k: State, root: nat, j: nat)
    requires ReapInv(k) && root < |k.slots| && Terminal(k.slots[root].state) && j < |k.slots| && LiveState(k.slots[j].state)
    ensures OwnersOk(Release(k, {}, {j}).slots)
    ensures Tree(Release(k, {}, {j}).slots, root) == Tree(k.slots, root)
  {
    assert Sealed(k.slots, {}, {j});
    ReleaseKeepsOwners(k, {}, {j});
    forall i | 0 <= i < |k.slots|
      ensures InTree(Release(k, {}, {j}).slots, root, i) <==> InTree(k.slots, root, i)
    {
      TreeStableAt(k, {}, {j}, root, i);
    }
  }

  lemma OrphanKeepsGoal(k: State, root: nat, j: nat)
    requires ReapInv(k) && root < |k.slots| && Terminal(k.slots[root].state)
    requires j < |k.slots| && LiveState(k.slots[j].state)
    requires 0 <= k.slots[j].owner < |k.slots| && InTree(k.slots, root, k.slots[j].owner)
    ensures var k1 := k.(slots := k.slots[j := OrphanSlot(k.slots[j])]);
            OwnersOk(k1.slots) && Reaped(k1, root) == Reaped(k, root)
  {
    var T := Tree(k.slots, root);
    var O := Orphans(k.slots, T);
    ReparentIsRelease(k, j);
    OrphanTree(k, root, j);
    assert j in O;
    OrphansBut(k, T, j);
    TreeIsTerminal(k.slots, root, {j});
    ReleaseBefore(k, {}, {j}, T, O - {j});
    assert {} + T == T && {j} + (O - {j}) == O;
  }

  lemma OrphansBut(k: State, T: set<nat>, j: nat)
    requires j < |k.slots| && LiveState(k.slots[j].state)
    ensures Orphans(Release(k, {}, {j}).slots, T) == Orphans(k.slots, T) - {j}
  {
  }

  lemma JoinKeepsGoal(k: State, root: nat, c: nat)
    requires ReapInv(k) && root < |k.slots| && c < |k.slots| && InTree(k.slots, root, c)
    ensures OwnersOk(AfterJoin(k, c).slots) && Reaped(AfterJoin(k, c), root) == Reaped(k, root)
  {
    var k1, T := AfterJoin(k, c), Tree(k.slots, root);
    forall j | 0 <= j < |k.slots|
      ensures OwnersOk(k1.slots) && (InTree(k1.slots, root, j) <==> InTree(k.slots, root, j))
    {
      JoinKeepsTree(k, c, root, j);
    }
    assert OwnersOk(k1.slots);
    assert Tree(k1.slots, root) == T;
    assert Orphans(k1.slots, T) == Orphans(k.slots, T);
    assert SeatOk(k, c);
    JoinThenRelease(k, c, T, Orphans(k.slots, T));
  }

  lemma {:induction false} FreeKeepsTreeAt(k: State, root: nat, o: nat, j: nat)
    requires ReapInv(k) && o < |k.slots| && Terminal(k.slots[o].state) && j < |k.slots|
    requires forall i :: 0 <= i < |k.slots| ==> !ChildOf(k.slots[i], o)
    requires OwnersOk(Release(k, {o}, {}).slots)
    ensures InTree(Release(k, {o}, {}).slots, root, j) <==> j != o && InTree(k.slots, root, j)
    decreases k.slots[j].worker
  {
    if j != o && k.slots[j].state != Free && k.slots[j].owner != KERNEL_OWNER {
      FreeKeepsTreeAt(k, root, o, k.slots[j].owner);
    }
  }

  lemma FreeTree(k: State, root: nat, o: nat)
    requires ReapInv(k) && root < |k.slots| && o < |k.slots| && Terminal(k.slots[o].state)
    requires forall i :: 0 <= i < |k.slots| ==> !ChildOf(k.slots[i], o)
    ensures OwnersOk(Release(k, {o}, {}).slots)
    ensures Tree(Release(k, {o}, {}).slots, root) == Tree(k.slots, root) - {o}
  {
    assert Sealed(k.slots, {o}, {});
    ReleaseKeepsOwners(k, {o}, {});
    forall j | 0 <= j < |k.slots|
      ensures InTree(Release(k, {o}, {}).slots, root, j) <==> j != o && InTree(k.slots, root, j)
    {
      FreeKeepsTreeAt(k, root, o, j);
    }
  }

  lemma FreeOrphans(k: State, T: set<nat>, o: nat)
    requires o < |k.slots| && Terminal(k.slots[o].state)
    requires forall i :: 0 <= i < |k.slots| ==> !ChildOf(k.slots[i], o)
    ensures Orphans(Release(k, {o}, {}).slots, T - {o}) == Orphans(k.slots, T)
    ensures o !in Orphans(k.slots, T)
  {
  }

  lemma FreeKeepsGoal(k: State, root: nat, o: nat)
    requires ReapInv(k) && root < |k.slots| && o < |k.slots| && o != root
    requires Terminal(k.slots[o].state) && InTree(k.slots, root, o)
    requires forall i :: 0 <= i < |k.slots| ==> !ChildOf(k.slots[i], o)
    ensures SeatOk(k, o) && OwnersOk(FreedState(k, o).slots) && Reaped(FreedState(k, o), root) == Reaped(k, root)
  {
    var T := Tree(k.slots, root);
    var O := Orphans(k.slots, T);
    assert SeatOk(k, o);
    FreeIsRelease(k, o);
    FreeTree(k, root, o);
    FreeOrphans(k, T, o);
    ReleaseBefore(k, {o}, {}, T - {o}, O);
    assert {o} + (T - {o}) == T && {} + O == O;
  }

  /** A slot without children is all there is to reap. */
  lemma LastIsGoal(k: State, root: nat)
    requires ReapInv(k) && root < |k.slots| && Terminal(k.slots[root].state)
    requires forall i :: 0 <= i < |k.slots| ==> !ChildOf(k.slots[i], root)
    ensures SeatOk(k, root) && FreedState(k, root) == Reaped(k, root)
  {
    assert SeatOk(k, root);
    FreeIsRelease(k, root);
    assert InTree(k.slots, root, root);
    forall j | 0 <= j < |k.slots| && j != root
      ensures !InTree(k.slots, root, j)
    {
      NoChildNoTree(k.slots, root, j);
    }
    assert Tree(k.slots, root) == {root};
    assert Orphans(k.slots, {root}) == {};
  }

  lemma {:induction false} NoChildNoTree(slots: seq<Slot>, root: nat, j: nat)
    requires OwnersOk(slots) && root < |slots| && j < |slots| && j != root
    requires forall i :: 0 <= i < |slots| ==> !ChildOf(slots[i], root)
    ensures !InTree(slots, root, j)
    decreases slots[j].worker
  {
    if InTree(slots, root, j) && slots[j].owner != root {
      NoChildNoTree(slots, root, slots[j].owner);
    }
  }

  /** The goal depends on the table, not on how far the recursion has come. */
  lemma StackKeepsGoal(k: State, k1: State, root: nat, w: Waiter)
    requires OwnersOk(k.slots) && OwnersOk(k1.slots) && Reaped(k1, root) == Reaped(k, root)
    ensures Bare(Reaped(k1.(waiter := w), root)) == Bare(Reaped(k, root))
  {
  }

  /** The top frame is at a child: it is handed over, or joined. */
  lemma ChildKeepsGoal(k: State)
    requires Inv(k) && NoWrap(k) && k.waiter.Reaping? && !Stuck(k)
    requires TopFrame(k).at < |k.slots| && ChildOf(k.slots[TopFrame(k).at], TopFrame(k).owner)
    ensures OwnersOk(k.slots) && OwnersOk(Resume(k).0.slots)
    ensures Resume(k).0.waiter.Reaping? && Resume(k).0.waiter.frames != [] && Goal(Resume(k).0) == Goal(k)
  {
    var fs, c := k.waiter.frames, TopFrame(k).at;
    var root := fs[0].owner;
    InvIsReapInv(k);
    StackInTree(k.slots, fs, |fs| - 1);
    assert FrameOk(k.slots, fs[0]) && FrameOk(k.slots, TopFrame(k));
    ChildNotInFrames(k.slots, fs, c);
    assert SlotOk(k, c);
    if LiveState(k.slots[c].state) {
      OrphanKeepsGoal(k, root, c);
      StackKeepsGoal(k, k.(slots := k.slots[c := OrphanSlot(k.slots[c])]), root, k.waiter.(frames := Onto(fs)));
    } else {
      JoinKeepsGoal(k, root, c);
      StackKeepsGoal(k, AfterJoin(k, c), root, k.waiter.(frames := fs + [Frame(c, 0)]));
    }
  }

  lemma ResumePops(k: State)
    requires Inv(k) && k.waiter.Reaping? && TopFrame(k).at == |k.slots| && |k.waiter.frames| > 1
    ensures TopFrame(k).owner < |k.slots| && SlotOk(k, TopFrame(k).owner) && Terminal(k.slots[TopFrame(k).owner].state)
    ensures Resume(k) == (Stack(FreedState(k, TopFrame(k).owner), Onto(k.waiter.frames[..|k.waiter.frames| - 1])), Done)
  {
    TopIsFree(k);
  }

  lemma PopKeepsGoal(k: State)
    requires Inv(k) && NoWrap(k) && k.waiter.Reaping? && TopFrame(k).at == |k.slots| && |k.waiter.frames| > 1
    ensures OwnersOk(k.slots) && OwnersOk(Resume(k).0.slots)
    ensures Resume(k).0.waiter.Reaping? && Resume(k).0.waiter.frames != [] && Goal(Resume(k).0) == Goal(k)
  {
    var fs, o := k.waiter.frames, TopFrame(k).owner;
    InvIsReapInv(k);
    ResumePops(k);
    TopIsFree(k);
    StackInTree(k.slots, fs, |fs| - 1);
    TopOwnerOnce(k.slots, fs, 0);
    FreeKeepsGoal(k, fs[0].owner, o);
    StackKeepsGoal(k, FreedState(k, o), fs[0].owner, k.waiter.(frames := Onto(fs[..|fs| - 1])));
  }

  /** A yielded reap ends where an uninterrupted one would: each of its steps leaves the goal where it
      is, and the last one reaches it and reports the status taken at the start. So what is freed
      and what is handed over is exactly what belongs to the consumed process in the table as it is
      then, whatever ran in between. */
  lemma ResumeReachesGoal(k: State)
    requires Inv(k) && NoWrap(k) && k.waiter.Reaping? && !Stuck(k)
    ensures OwnersOk(k.slots) && OwnersOk(Resume(k).0.slots)
    ensures var (k', out) := Resume(k);
            if k'.waiter.Reaping? then out == Done && k'.waiter.frames != [] && Goal(k') == Goal(k)
            else out == Status(k.waiter.status) && Bare(k') == Goal(k)
  {
    InvIsReapInv(k);
    ResumeKeeps(k);
    InvIsReapInv(Resume(k).0);
    if TopFrame(k).at < |k.slots| {
      if ChildOf(k.slots[TopFrame(k).at], TopFrame(k).owner) {
        ChildKeepsGoal(k);
      } else {
        StackKeepsGoal(k, k, k.waiter.frames[0].owner, k.waiter.(frames := Onto(k.waiter.frames)));
      }
    } else {
      assert FrameOk(k.slots, TopFrame(k));
      TopIsFree(k);
      if |k.waiter.frames| > 1 {
        PopKeepsGoal(k);
      } else {
        LastIsGoal(k, TopFrame(k).owner);
      }
    }
  }

  // ----- Finitely many steps are left -----

  /** Two for a slot to be joined and freed, one for a slot to be freed. */
  function Weight(s: Slot): nat {
    if s.state == Free then 0 else if s.workerValid then 2 else 1
  }

  function Work(slots: seq<Slot>): nat {
    if slots == [] then 0 else Work(slots[..|slots| - 1]) + Weight(slots[|slots| - 1])
  }

  lemma {:induction false} WorkUpdate(slots: seq<Slot>, i: nat, s: Slot)
    requires i < |slots|
    ensures Work(slots[i := s]) + Weight(slots[i]) == Work(slots) + Weight(s)
  {
    var n := |slots| - 1;
    if i == n {
      assert slots[i := s][..n] == slots[..n];
    } else {
      WorkUpdate(slots[..n], i, s);
      assert slots[i := s][..n] == slots[..n][i := s];
    }
  }

  /** Less is left in `k'`: fewer joins and frees to come, or as many and less of the scan. Both are
      bounded below, so there is no endless descent. */
  predicate Shorter(k': State, k: State)
    requires k'.waiter.Reaping? && k'.waiter.frames != [] && k.waiter.Reaping? && k.waiter.frames != []
  {
    && |k'.slots| == |k.slots| && TopFrame(k').at <= |k'.slots|
    && (Work(k'.slots) < Work(k.slots) || (Work(k'.slots) == Work(k.slots) && TopFrame(k').at > TopFrame(k).at))
  }

  lemma ChildShortens(k: State)
    requires Inv(k) && k.waiter.Reaping? && !Stuck(k)
    requires TopFrame(k).at < |k.slots| && ChildOf(k.slots[TopFrame(k).at], TopFrame(k).owner)
    ensures Resume(k).0.waiter.Reaping? && Resume(k).0.waiter.frames != [] && Shorter(Resume(k).0, k)
  {
    var fs, c := k.waiter.frames, TopFrame(k).at;
    InvIsReapInv(k);
    ChildNotInFrames(k.slots, fs, c);
    assert SlotOk(k, c);
    if LiveState(k.slots[c].state) {
      WorkUpdate(k.slots, c, OrphanSlot(k.slots[c]));
    } else {
      WorkUpdate(k.slots, c, k.slots[c].(workerValid := false));
    }
  }

  /** Between two yields the reap takes only finitely many steps. */
  lemma ResumeShortens(k: State)
    requires Inv(k) && NoWrap(k) && k.waiter.Reaping? && !Stuck(k) && Resume(k).0.waiter.Reaping?
    ensures Resume(k).0.waiter.frames != [] && Shorter(Resume(k).0, k)
  {
    var fs, f := k.waiter.frames, TopFrame(k);
    assert FrameOk(k.slots, f);
    ResumeKeeps(k);
    assert FrameOk(Resume(k).0.slots, TopFrame(Resume(k).0));
    if f.at < |k.slots| {
      if ChildOf(k.slots[f.at], f.owner) {
        ChildShortens(k);
      }
    } else {
      TopIsFree(k);
      assert |fs| > 1;
      ResumePops(k);
      WorkUpdate(k.slots, f.owner, FreedSlot(k.slots[f.owner]));
    }
  }

  /** The table of a reap that has yielded fails proc_check at every point of its first scan. */
  lemma HalfReapedFailsCheck(k: State, h: nat, owner: int, self: int, n: nat)
    requires Inv(k) && Wait(k, h, owner, self).1 == Yields
    ensures Decode(k, h).Some? && OwnersOk(AfterJoin(k, Decode(k, h).value).slots)
    ensures !ProcCheck(Partial(AfterJoin(k, Decode(k, h).value), Decode(k, h).value, n))
  {
    var i := Decode(k, h).value;
    assert SlotOk(k, i);
    InvIsReapInv(k);
    JoinKeepsReapInv(k, i);
    PartialReapInv(AfterJoin(k, i), i, n);
    assert !CheckSlot(Partial(AfterJoin(k, i), i, n), i);
  }
}

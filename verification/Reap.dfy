/** Consuming a terminal process: join_worker, free_joined, reap_child and cleanup_owned of
    kernel/core/proc.c, a mutual recursion that edits the table as it walks it. The specification
    is one closed form: which slots are freed, which are reparented, and that nothing else moves.
 */
module Reap {
  import opened Kernel
  import opened Options

  function NextGen(g: nat): nat {
    if g + 1 == GEN_LIMIT then 1 else g + 1
  }

  function FreedSlot(s: Slot): Slot {
    s.(ctx := None, state := Free, workerValid := false, killRequested := false, owner := KERNEL_OWNER,
       exitCode := 0, faultVector := 0, faultError := 0, gen := NextGen(s.gen))
  }

  function OrphanSlot(s: Slot): Slot {
    s.(owner := KERNEL_OWNER, killRequested := true)
  }

  function CtxsOf(slots: seq<Slot>, F: set<nat>): set<nat> {
    set j | j in F && j < |slots| && slots[j].ctx.Some? :: slots[j].ctx.value
  }

  function FreedSlots(slots: seq<Slot>, F: set<nat>, R: set<nat>): seq<Slot> {
    seq(|slots|, j requires 0 <= j < |slots| =>
      if j in F then FreedSlot(slots[j]) else if j in R then OrphanSlot(slots[j]) else slots[j])
  }

  function FreedCtxs(ctxs: seq<Ctx>, C: set<nat>): seq<Ctx> {
    seq(|ctxs|, c requires 0 <= c < |ctxs| => if c in C then NO_CTX else ctxs[c])
  }

  function LeftWorkers(workers: map<nat, Worker>, F: set<nat>): map<nat, Worker> {
    map w | w in workers && workers[w].slot !in F :: workers[w]
  }

  /** Slots `F` are freed with their contexts and workers, slots `R` go to the kernel with a kill
      request, and nothing else changes. */
  function Release(k: State, F: set<nat>, R: set<nat>): State {
    k.(slots := FreedSlots(k.slots, F, R),
       ctxs := FreedCtxs(k.ctxs, CtxsOf(k.slots, F)),
       workers := LeftWorkers(k.workers, F))
  }

  predicate OwnersOk(slots: seq<Slot>) {
    forall i :: 0 <= i < |slots| && slots[i].state != Free ==> OwnerOk(slots, slots[i])
  }

  /** `j` is `root`, or a terminal slot whose chain of owners reaches `root` through terminal slots. */
  predicate InTree(slots: seq<Slot>, root: nat, j: nat)
    requires OwnersOk(slots) && j < |slots|
    decreases slots[j].worker
  {
    && slots[j].state != Free
    && (j == root || (Terminal(slots[j].state) && slots[j].owner != KERNEL_OWNER && InTree(slots, root, slots[j].owner)))
  }

  function Tree(slots: seq<Slot>, root: nat): set<nat>
    requires OwnersOk(slots)
  {
    set j | 0 <= j < |slots| && InTree(slots, root, j)
  }

  /** Live children of the slots in `F`. */
  function Orphans(slots: seq<Slot>, F: set<nat>): set<nat> {
    set j | 0 <= j < |slots| && LiveState(slots[j].state) && slots[j].owner in F
  }

  /** The whole effect of consuming `root`. */
  function Reaped(k: State, root: nat): State
    requires OwnersOk(k.slots)
  {
    var T := Tree(k.slots, root);
    Release(k, T, Orphans(k.slots, T))
  }

  predicate WorkerGone(k: State, j: nat)
    requires j < |k.slots|
  {
    k.slots[j].worker in k.workers && k.workers[k.slots[j].worker].phase == Gone
  }

  /** Every slot the recursion reaps below `root` has a worker that already exited, so no join has
      to yield. */
  predicate Settled(k: State, root: nat)
    requires OwnersOk(k.slots)
  {
    forall j :: 0 <= j < |k.slots| && j != root && InTree(k.slots, root, j) ==> WorkerGone(k, j)
  }

  // ----- Release as an algebra -----

  lemma ReleaseNothing(k: State)
    ensures Release(k, {}, {}) == k
  {
    var k' := Release(k, {}, {});
    assert CtxsOf(k.slots, {}) == {};
    assert k'.slots == k.slots && k'.ctxs == k.ctxs && k'.workers == k.workers;
  }

  lemma ReleaseTwice(k: State, F: set<nat>, R: set<nat>, F': set<nat>, R': set<nat>)
    requires F !! F' && F !! R' && R !! F'
    ensures Release(Release(k, F, R), F', R') == Release(k, F + F', R + R')
  {
    var k1 := Release(k, F, R);
    var k2, k3 := Release(k1, F', R'), Release(k, F + F', R + R');
    assert k2.slots == k3.slots;
    assert CtxsOf(k.slots, F + F') == CtxsOf(k.slots, F) + CtxsOf(k1.slots, F') by {
      forall j | j in F' && j < |k.slots|
        ensures k1.slots[j] == k.slots[j]
      {
      }
    }
    assert k2.ctxs == k3.ctxs;
    assert k2.workers == k3.workers;
  }

  // ----- Trees -----

  lemma {:induction false} TreeIsYounger(slots: seq<Slot>, root: nat, j: nat)
    requires OwnersOk(slots) && root < |slots| && j < |slots| && InTree(slots, root, j)
    ensures slots[root].worker <= slots[j].worker
    ensures j != root ==> slots[root].worker < slots[j].worker
    ensures j != root ==> Terminal(slots[j].state)
    decreases slots[j].worker
  {
    if j != root {
      TreeIsYounger(slots, root, slots[j].owner);
    }
  }

  /** The child of `root` above `j`. */
  function Top(slots: seq<Slot>, root: nat, j: nat): (t: nat)
    requires OwnersOk(slots) && root < |slots| && j < |slots| && j != root && InTree(slots, root, j)
    ensures t < |slots| && slots[t].owner == root && Terminal(slots[t].state) && slots[t].state != Free
    decreases slots[j].worker
  {
    if slots[j].owner == root then j else Top(slots, root, slots[j].owner)
  }

  /** The part of the tree below `root` that hangs under children with index less than `i`. */
  function Below(slots: seq<Slot>, root: nat, i: nat): set<nat>
    requires OwnersOk(slots) && root < |slots|
  {
    set j | 0 <= j < |slots| && j != root && InTree(slots, root, j) && Top(slots, root, j) < i
  }

  function BelowOrphans(slots: seq<Slot>, root: nat, i: nat): set<nat>
    requires OwnersOk(slots) && root < |slots|
  {
    set j | 0 <= j < |slots| && LiveState(slots[j].state) &&
            (slots[j].owner in Below(slots, root, i) || (slots[j].owner == root && j < i))
  }

  lemma {:induction false} ChildTree(slots: seq<Slot>, root: nat, c: nat, j: nat)
    requires OwnersOk(slots) && root < |slots| && c < |slots| && j < |slots|
    requires slots[c].state != Free && slots[c].owner == root && Terminal(slots[c].state)
    requires slots[root].state != Free
    ensures InTree(slots, c, j) <==> j != root && InTree(slots, root, j) && Top(slots, root, j) == c
    decreases slots[j].worker
  {
    if slots[j].state == Free {
    } else if j == c {
      assert slots[root].worker < slots[c].worker;
      assert InTree(slots, root, root);
    } else if j == root {
      if InTree(slots, c, root) {
        TreeIsYounger(slots, c, root);
      }
    } else if slots[j].owner != KERNEL_OWNER {
      ChildTree(slots, root, c, slots[j].owner);
    }
  }

  lemma BelowNext(slots: seq<Slot>, root: nat, i: nat)
    requires OwnersOk(slots) && root < |slots| && i < |slots| && slots[root].state != Free
    ensures slots[i].state != Free && slots[i].owner == root && Terminal(slots[i].state) ==>
              && Below(slots, root, i + 1) == Below(slots, root, i) + Tree(slots, i)
              && Below(slots, root, i) !! Tree(slots, i)
              && root !in Tree(slots, i)
    ensures !(slots[i].state != Free && slots[i].owner == root && Terminal(slots[i].state)) ==>
              Below(slots, root, i + 1) == Below(slots, root, i)
  {
    if slots[i].state != Free && slots[i].owner == root && Terminal(slots[i].state) {
      forall j | 0 <= j < |slots|
        ensures InTree(slots, i, j) <==> j != root && InTree(slots, root, j) && Top(slots, root, j) == i
      {
        ChildTree(slots, root, i, j);
      }
    }
  }

  lemma BelowAll(slots: seq<Slot>, root: nat)
    requires OwnersOk(slots) && root < |slots| && slots[root].state != Free
    ensures Below(slots, root, |slots|) == Tree(slots, root) - {root}
    ensures BelowOrphans(slots, root, |slots|) == Orphans(slots, Tree(slots, root))
  {
    assert InTree(slots, root, root);
    assert Below(slots, root, |slots|) == Tree(slots, root) - {root};
  }

  // ----- The table while a reap is under way -----

  /** What the reap needs of a slot. */
  predicate SeatOk(k: State, i: nat)
    requires i < |k.slots|
  {
    var s := k.slots[i];
    && 0 < s.gen < GEN_LIMIT
    && (s.state != Free ==>
          && s.ctx.Some? && s.ctx.value < |k.ctxs|
          && s.worker < k.nextId
          && s.worker in k.workers && k.workers[s.worker].slot == i
          && (s.workerValid <==> k.workers[s.worker].phase != Joined)
          && PhaseOk(s, k.ctxs[s.ctx.value], k.workers[s.worker].phase))
  }

  predicate ReapInv(k: State) {
    && OwnersOk(k.slots)
    && CtxsDistinct(k.slots)
    && WorkersOk(k)
    && forall i :: 0 <= i < |k.slots| ==> SeatOk(k, i)
  }

  lemma InvIsReapInv(k: State)
    requires TableInv(k)
    ensures ReapInv(k)
  {
    forall i | 0 <= i < |k.slots|
      ensures SeatOk(k, i) && (k.slots[i].state != Free ==> OwnerOk(k.slots, k.slots[i]))
    {
      assert SlotOk(k, i);
    }
  }

  /** No slot that stays is owned by a freed slot. */
  predicate Sealed(slots: seq<Slot>, F: set<nat>, R: set<nat>) {
    && (forall j :: j in F ==> j < |slots| && Terminal(slots[j].state))
    && (forall j :: j in R ==> j < |slots| && LiveState(slots[j].state) && j !in F)
    && (forall j :: 0 <= j < |slots| && slots[j].state != Free && j !in F && slots[j].owner in F ==> j in R)
  }

  lemma ReleaseKeepsOwners(k: State, F: set<nat>, R: set<nat>)
    requires OwnersOk(k.slots) && Sealed(k.slots, F, R)
    ensures OwnersOk(Release(k, F, R).slots)
  {
  }

  lemma ForeignCtx(k: State, F: set<nat>, i: nat)
    requires CtxsDistinct(k.slots) && i < |k.slots| && k.slots[i].state != Free && k.slots[i].ctx.Some? && i !in F
    requires forall j :: j in F ==> j < |k.slots| && k.slots[j].state != Free
    ensures k.slots[i].ctx.value !in CtxsOf(k.slots, F)
  {
    forall j | j in F && k.slots[j].ctx.Some?
      ensures k.slots[j].ctx.value != k.slots[i].ctx.value
    {
      assert k.slots[j].ctx != k.slots[i].ctx;
    }
  }

  lemma ReleaseKeepsSeat(k: State, F: set<nat>, R: set<nat>, i: nat)
    requires ReapInv(k) && Sealed(k.slots, F, R) && i < |k.slots|
    ensures SeatOk(Release(k, F, R), i)
  {
    var k' := Release(k, F, R);
    assert SeatOk(k, i);
    if i !in F && k.slots[i].state != Free {
      ForeignCtx(k, F, i);
      assert k'.ctxs[k.slots[i].ctx.value] == k.ctxs[k.slots[i].ctx.value];
    }
  }

  lemma ReleaseKeepsReapInv(k: State, F: set<nat>, R: set<nat>)
    requires ReapInv(k) && Sealed(k.slots, F, R)
    ensures ReapInv(Release(k, F, R))
  {
    var k' := Release(k, F, R);
    ReleaseKeepsOwners(k, F, R);
    forall i | 0 <= i < |k'.slots|
      ensures SeatOk(k', i)
    {
      ReleaseKeepsSeat(k, F, R, i);
    }
    assert CtxsDistinct(k'.slots);
    assert WorkersOk(k');
  }

  /** A reap that has not touched the tree of `root` has not changed it either. */
  lemma {:induction false} TreeStableAt(k: State, F: set<nat>, R: set<nat>, root: nat, j: nat)
    requires ReapInv(k) && Sealed(k.slots, F, R)
    requires root < |k.slots| && Terminal(k.slots[root].state) && j < |k.slots|
    requires F !! Tree(k.slots, root)
    requires OwnersOk(Release(k, F, R).slots)
    ensures InTree(Release(k, F, R).slots, root, j) <==> InTree(k.slots, root, j)
    decreases k.slots[j].worker
  {
    var k' := Release(k, F, R);
    if j in F {
      assert j !in Tree(k.slots, root);
    } else if k.slots[j].state != Free && j !in R && k.slots[j].owner != KERNEL_OWNER {
      TreeStableAt(k, F, R, root, k.slots[j].owner);
    }
  }

  lemma TreeStable(k: State, F: set<nat>, R: set<nat>, root: nat)
    requires ReapInv(k) && Sealed(k.slots, F, R)
    requires root < |k.slots| && Terminal(k.slots[root].state)
    requires F !! Tree(k.slots, root)
    requires forall j :: j in R ==> k.slots[j].owner !in Tree(k.slots, root)
    requires OwnersOk(Release(k, F, R).slots)
    ensures Tree(Release(k, F, R).slots, root) == Tree(k.slots, root)
    ensures Orphans(Release(k, F, R).slots, Tree(k.slots, root)) == Orphans(k.slots, Tree(k.slots, root))
    ensures Settled(Release(k, F, R), root) <==> Settled(k, root)
    ensures WorkerGone(Release(k, F, R), root) <==> WorkerGone(k, root)
  {
    var k' := Release(k, F, R);
    forall j | 0 <= j < |k.slots|
      ensures InTree(k'.slots, root, j) <==> InTree(k.slots, root, j)
    {
      TreeStableAt(k, F, R, root, j);
    }
    assert Tree(k'.slots, root) == Tree(k.slots, root);
    OrphansStable(k, F, R, Tree(k.slots, root));
    forall j | 0 <= j < |k.slots| && InTree(k.slots, root, j)
      ensures WorkerGone(k', j) <==> WorkerGone(k, j)
    {
      assert j in Tree(k.slots, root);
      WorkerStable(k, F, R, j);
    }
    assert InTree(k.slots, root, root);
  }

  lemma OrphansStable(k: State, F: set<nat>, R: set<nat>, T: set<nat>)
    requires Sealed(k.slots, F, R)
    requires forall j :: j in R ==> k.slots[j].owner !in T
    ensures Orphans(Release(k, F, R).slots, T) == Orphans(k.slots, T)
  {
  }

  lemma WorkerStable(k: State, F: set<nat>, R: set<nat>, j: nat)
    requires ReapInv(k) && j < |k.slots| && j !in F && k.slots[j].state != Free
    ensures WorkerGone(Release(k, F, R), j) <==> WorkerGone(k, j)
  {
    assert SeatOk(k, j);
  }

  // ----- The loop of cleanup_owned, one slot at a time -----

  /** The table after cleanup_owned(`o`) has scanned the slots below `i`. */
  function Partial(k: State, o: nat, i: nat): State
    requires OwnersOk(k.slots) && o < |k.slots|
  {
    Release(k, Below(k.slots, o, i), BelowOrphans(k.slots, o, i))
  }

  lemma PartialSealed(k: State, o: nat, i: nat)
    requires ReapInv(k) && o < |k.slots| && Terminal(k.slots[o].state)
    ensures Sealed(k.slots, Below(k.slots, o, i), BelowOrphans(k.slots, o, i))
    ensures o !in Below(k.slots, o, i) && o !in BelowOrphans(k.slots, o, i)
  {
    var F, R := Below(k.slots, o, i), BelowOrphans(k.slots, o, i);
    forall j | j in F
      ensures Terminal(k.slots[j].state)
    {
      TreeIsYounger(k.slots, o, j);
    }
    forall j | 0 <= j < |k.slots| && k.slots[j].state != Free && j !in F && k.slots[j].owner in F
      ensures j in R
    {
      assert SeatOk(k, j);
      TreeIsYounger(k.slots, o, k.slots[j].owner);
    }
  }

  lemma PartialReapInv(k: State, o: nat, i: nat)
    requires ReapInv(k) && o < |k.slots| && Terminal(k.slots[o].state)
    ensures ReapInv(Partial(k, o, i))
    ensures Partial(k, o, i).slots[o] == k.slots[o]
  {
    PartialSealed(k, o, i);
    ReleaseKeepsReapInv(k, Below(k.slots, o, i), BelowOrphans(k.slots, o, i));
  }

  /** A slot not yet scanned is a child of `o` now exactly when it was at the start, untouched. */
  lemma PartialChild(k: State, o: nat, i: nat)
    requires ReapInv(k) && o < |k.slots| && Terminal(k.slots[o].state) && i < |k.slots|
    ensures ChildOf(Partial(k, o, i).slots[i], o) <==> ChildOf(k.slots[i], o)
    ensures ChildOf(k.slots[i], o) ==> Partial(k, o, i).slots[i] == k.slots[i]
  {
    PartialSealed(k, o, i);
  }

  lemma PartialSkip(k: State, o: nat, i: nat)
    requires ReapInv(k) && o < |k.slots| && Terminal(k.slots[o].state) && i < |k.slots|
    requires !ChildOf(k.slots[i], o)
    ensures Partial(k, o, i + 1) == Partial(k, o, i)
  {
    BelowNext(k.slots, o, i);
    assert BelowOrphans(k.slots, o, i + 1) == BelowOrphans(k.slots, o, i);
  }

  lemma ReparentIsRelease(k: State, i: nat)
    requires i < |k.slots|
    ensures Release(k, {}, {i}) == k.(slots := k.slots[i := OrphanSlot(k.slots[i])])
  {
    var k' := Release(k, {}, {i});
    assert CtxsOf(k.slots, {}) == {};
    assert k'.slots == k.slots[i := OrphanSlot(k.slots[i])];
    assert k'.ctxs == k.ctxs && k'.workers == k.workers;
  }

  lemma PartialReparent(k: State, o: nat, i: nat)
    requires ReapInv(k) && o < |k.slots| && Terminal(k.slots[o].state) && i < |k.slots|
    requires ChildOf(k.slots[i], o) && LiveState(k.slots[i].state)
    ensures var cur := Partial(k, o, i);
            Partial(k, o, i + 1) == cur.(slots := cur.slots[i := OrphanSlot(cur.slots[i])])
  {
    var F, R := Below(k.slots, o, i), BelowOrphans(k.slots, o, i);
    PartialSealed(k, o, i);
    BelowNext(k.slots, o, i);
    assert BelowOrphans(k.slots, o, i + 1) == R + {i};
    assert i !in F;
    assert F + {} == F;
    ReleaseTwice(k, F, R, {}, {i});
    ReparentIsRelease(Release(k, F, R), i);
  }

  lemma ChildStable(k: State, o: nat, i: nat)
    requires ReapInv(k) && o < |k.slots| && Terminal(k.slots[o].state) && i < |k.slots|
    requires ChildOf(k.slots[i], o) && Terminal(k.slots[i].state)
    ensures ReapInv(Partial(k, o, i))
    ensures Tree(Partial(k, o, i).slots, i) == Tree(k.slots, i)
    ensures Orphans(Partial(k, o, i).slots, Tree(k.slots, i)) == Orphans(k.slots, Tree(k.slots, i))
    ensures Settled(Partial(k, o, i), i) <==> Settled(k, i)
    ensures WorkerGone(Partial(k, o, i), i) <==> WorkerGone(k, i)
  {
    PartialReapInv(k, o, i);
    PartialSealed(k, o, i);
    BelowNext(k.slots, o, i);
    TreeStable(k, Below(k.slots, o, i), BelowOrphans(k.slots, o, i), i);
  }

  lemma BelowOrphansNext(slots: seq<Slot>, o: nat, i: nat)
    requires OwnersOk(slots) && o < |slots| && i < |slots| && slots[o].state != Free
    requires ChildOf(slots[i], o) && Terminal(slots[i].state)
    ensures BelowOrphans(slots, o, i + 1) == BelowOrphans(slots, o, i) + Orphans(slots, Tree(slots, i))
  {
    BelowNext(slots, o, i);
  }

  lemma TreeIsTerminal(slots: seq<Slot>, root: nat, R: set<nat>)
    requires OwnersOk(slots) && root < |slots| && Terminal(slots[root].state)
    requires forall j :: j in R ==> j < |slots| && LiveState(slots[j].state)
    ensures R !! Tree(slots, root)
  {
    forall j | j in Tree(slots, root)
      ensures Terminal(slots[j].state)
    {
      TreeIsYounger(slots, root, j);
    }
  }

  lemma PartialReap(k: State, o: nat, i: nat)
    requires ReapInv(k) && o < |k.slots| && Terminal(k.slots[o].state) && i < |k.slots|
    requires ChildOf(k.slots[i], o) && Terminal(k.slots[i].state)
    ensures ReapInv(Partial(k, o, i))
    ensures Partial(k, o, i + 1) == Reaped(Partial(k, o, i), i)
  {
    var F, R, T := Below(k.slots, o, i), BelowOrphans(k.slots, o, i), Tree(k.slots, i);
    var O := Orphans(k.slots, T);
    ChildStable(k, o, i);
    assert F !! O by { PartialSealed(k, o, i); }
    assert R !! T by { TreeIsTerminal(k.slots, i, R); }
    BelowNext(k.slots, o, i);
    BelowOrphansNext(k.slots, o, i);
    ReleaseTwice(k, F, R, T, O);
  }

  /** What the scan has found so far about the workers below `o`. */
  predicate SettledBelow(k: State, o: nat, i: nat)
    requires OwnersOk(k.slots) && o < |k.slots|
  {
    forall j :: j in Below(k.slots, o, i) ==> WorkerGone(k, j)
  }

  /** The worker of child `i` of `o`, and all workers below it, have exited. */
  predicate ChildSettled(k: State, o: nat, i: nat)
    requires OwnersOk(k.slots) && i < |k.slots|
  {
    ChildOf(k.slots[i], o) && Terminal(k.slots[i].state) ==> WorkerGone(k, i) && Settled(k, i)
  }

  /** No child with index less than `i` stands in the way of the scan. */
  predicate ScanSettled(k: State, o: nat, i: nat)
    requires OwnersOk(k.slots) && i <= |k.slots|
  {
    i == 0 || (ScanSettled(k, o, i - 1) && ChildSettled(k, o, i - 1))
  }

  lemma {:induction false} ScanStuck(k: State, o: nat, i: nat, n: nat)
    requires OwnersOk(k.slots) && i < n <= |k.slots| && !ChildSettled(k, o, i)
    ensures !ScanSettled(k, o, n)
  {
    if i + 1 < n {
      ScanStuck(k, o, i, n - 1);
    }
  }

  lemma {:induction false} ScanIsBelow(k: State, o: nat, i: nat)
    requires ReapInv(k) && o < |k.slots| && Terminal(k.slots[o].state) && i <= |k.slots|
    ensures ScanSettled(k, o, i) <==> SettledBelow(k, o, i)
  {
    if i == 0 {
      PartialStart(k, o);
    } else {
      ScanIsBelow(k, o, i - 1);
      SettledNext(k, o, i - 1);
    }
  }

  lemma SettledNext(k: State, o: nat, i: nat)
    requires ReapInv(k) && o < |k.slots| && Terminal(k.slots[o].state) && i < |k.slots|
    ensures ChildOf(k.slots[i], o) && Terminal(k.slots[i].state) ==>
              (SettledBelow(k, o, i + 1) <==> SettledBelow(k, o, i) && WorkerGone(k, i) && Settled(k, i))
    ensures !(ChildOf(k.slots[i], o) && Terminal(k.slots[i].state)) ==>
              (SettledBelow(k, o, i + 1) <==> SettledBelow(k, o, i))
  {
    BelowNext(k.slots, o, i);
    if ChildOf(k.slots[i], o) && Terminal(k.slots[i].state) {
      assert InTree(k.slots, i, i);
      assert (forall j :: j in Tree(k.slots, i) ==> WorkerGone(k, j)) <==> WorkerGone(k, i) && Settled(k, i);
    }
  }

  lemma SettledAll(k: State, o: nat)
    requires ReapInv(k) && o < |k.slots| && Terminal(k.slots[o].state)
    ensures ScanSettled(k, o, |k.slots|) <==> Settled(k, o)
  {
    ScanIsBelow(k, o, |k.slots|);
    BelowAll(k.slots, o);
  }

  lemma PartialStart(k: State, o: nat)
    requires ReapInv(k) && o < |k.slots| && Terminal(k.slots[o].state)
    ensures Partial(k, o, 0) == k && SettledBelow(k, o, 0)
  {
    assert Below(k.slots, o, 0) == {} && BelowOrphans(k.slots, o, 0) == {};
    ReleaseNothing(k);
  }

  /** After the scan no live slot is owned by `o`: the closing check of cleanup_owned holds. */
  lemma PartialEnd(k: State, o: nat)
    requires ReapInv(k) && o < |k.slots| && Terminal(k.slots[o].state)
    ensures forall j :: 0 <= j < |k.slots| ==> !ChildOf(Partial(k, o, |k.slots|).slots[j], o)
  {
    forall j | 0 <= j < |k.slots|
      ensures !ChildOf(Partial(k, o, |k.slots|).slots[j], o)
    {
      PartialEndAt(k, o, j);
    }
  }

  lemma PartialEndAt(k: State, o: nat, j: nat)
    requires ReapInv(k) && o < |k.slots| && Terminal(k.slots[o].state) && j < |k.slots|
    ensures !ChildOf(Partial(k, o, |k.slots|).slots[j], o)
  {
    var n := |k.slots|;
    PartialSealed(k, o, n);
    assert SeatOk(k, j);
    if ChildOf(k.slots[j], o) {
      if Terminal(k.slots[j].state) {
        assert j in Below(k.slots, o, n) by {
          assert InTree(k.slots, o, o);
          assert InTree(k.slots, o, j);
        }
      } else {
        assert j in BelowOrphans(k.slots, o, n);
      }
    }
  }

  // ----- Joining and freeing one slot -----

  function AfterJoin(k: State, i: nat): State
    requires i < |k.slots|
  {
    k.(slots := k.slots[i := k.slots[i].(workerValid := false)], workers := k.workers[k.slots[i].worker := Worker(i, Joined)])
  }

  lemma {:induction false} JoinKeepsTree(k: State, i: nat, root: nat, j: nat)
    requires OwnersOk(k.slots) && i < |k.slots| && j < |k.slots|
    ensures OwnersOk(AfterJoin(k, i).slots)
    ensures InTree(AfterJoin(k, i).slots, root, j) <==> InTree(k.slots, root, j)
    decreases k.slots[j].worker
  {
    if k.slots[j].state != Free && k.slots[j].owner != KERNEL_OWNER {
      JoinKeepsTree(k, i, root, k.slots[j].owner);
    }
  }

  lemma JoinKeepsReapInv(k: State, i: nat)
    requires ReapInv(k) && i < |k.slots| && Terminal(k.slots[i].state) && WorkerGone(k, i)
    ensures ReapInv(AfterJoin(k, i))
  {
    var k' := AfterJoin(k, i);
    assert SeatOk(k, i);
    forall j | 0 <= j < |k'.slots|
      ensures SeatOk(k', j)
    {
      assert SeatOk(k, j);
    }
    assert CtxsDistinct(k'.slots);
    assert WorkersOk(k');
  }

  lemma JoinThenReap(k: State, i: nat)
    requires ReapInv(k) && i < |k.slots| && Terminal(k.slots[i].state) && WorkerGone(k, i)
    ensures ReapInv(AfterJoin(k, i))
    ensures Reaped(AfterJoin(k, i), i) == Reaped(k, i)
    ensures Settled(AfterJoin(k, i), i) <==> Settled(k, i)
  {
    var k' := AfterJoin(k, i);
    JoinKeepsReapInv(k, i);
    forall j | 0 <= j < |k.slots|
      ensures InTree(k'.slots, i, j) <==> InTree(k.slots, i, j)
    {
      JoinKeepsTree(k, i, i, j);
    }
    var T := Tree(k.slots, i);
    assert InTree(k.slots, i, i);
    assert Tree(k'.slots, i) == T;
    assert Orphans(k'.slots, T) == Orphans(k.slots, T);
    assert SeatOk(k, i);
    JoinThenRelease(k, i, T, Orphans(k.slots, T));
    forall j | 0 <= j < |k.slots| && j != i && k.slots[j].state != Free
      ensures WorkerGone(k', j) <==> WorkerGone(k, j)
    {
      assert SeatOk(k, j) && SeatOk(k, i);
    }
  }

  lemma JoinThenRelease(k: State, i: nat, F: set<nat>, R: set<nat>)
    requires WorkersOk(k) && i < |k.slots| && i in F
    requires k.slots[i].worker in k.workers && k.workers[k.slots[i].worker].slot == i
    ensures Release(AfterJoin(k, i), F, R) == Release(k, F, R)
  {
    assert Release(AfterJoin(k, i), F, R).slots == Release(k, F, R).slots;
    JoinFreesSameCtxs(k, i, F);
    assert Release(AfterJoin(k, i), F, R).ctxs == Release(k, F, R).ctxs;
    JoinFreesSameWorkers(k, i, F, R);
  }

  lemma JoinFreesSameCtxs(k: State, i: nat, F: set<nat>)
    requires i < |k.slots|
    ensures CtxsOf(AfterJoin(k, i).slots, F) == CtxsOf(k.slots, F)
  {
  }

  lemma JoinFreesSameWorkers(k: State, i: nat, F: set<nat>, R: set<nat>)
    requires i < |k.slots| && i in F
    requires k.slots[i].worker in k.workers && k.workers[k.slots[i].worker].slot == i
    ensures Release(AfterJoin(k, i), F, R).workers == Release(k, F, R).workers
  {
  }

  /** user_destroy and the reset of one joined slot. */
  function FreedState(k: State, i: nat): State
    requires i < |k.slots| && k.slots[i].ctx.Some? && k.slots[i].ctx.value < |k.ctxs|
  {
    k.(slots := k.slots[i := FreedSlot(k.slots[i])], ctxs := k.ctxs[k.slots[i].ctx.value := NO_CTX],
       workers := k.workers - {k.slots[i].worker})
  }

  lemma FreeIsRelease(k: State, i: nat)
    requires WorkersOk(k) && i < |k.slots| && k.slots[i].state != Free && SeatOk(k, i)
    ensures FreedState(k, i) == Release(k, {i}, {})
  {
    var k1, k2 := FreedState(k, i), Release(k, {i}, {});
    assert k1.slots == k2.slots;
    assert CtxsOf(k.slots, {i}) == {k.slots[i].ctx.value};
    assert k1.ctxs == k2.ctxs;
    OnlyItsWorker(k, i);
  }

  lemma OnlyItsWorker(k: State, i: nat)
    requires WorkersOk(k) && i < |k.slots| && k.slots[i].state != Free && SeatOk(k, i)
    ensures LeftWorkers(k.workers, {i}) == k.workers - {k.slots[i].worker}
  {
    forall w | w in k.workers
      ensures k.workers[w].slot == i <==> w == k.slots[i].worker
    {
    }
  }

  /** What freeing `o` after the slots `F` finds, and what it leaves. */
  lemma OutsideStays(k: State, F: set<nat>, R: set<nat>, o: nat)
    requires ReapInv(k) && o < |k.slots| && k.slots[o].state != Free
    requires Sealed(k.slots, F, R) && o !in F && o !in R
    ensures var cur := Release(k, F, R);
            && cur.slots[o] == k.slots[o]
            && k.slots[o].ctx.Some? && k.slots[o].ctx.value < |k.ctxs|
            && |cur.ctxs| == |k.ctxs|
            && cur.ctxs[k.slots[o].ctx.value] == k.ctxs[k.slots[o].ctx.value]
  {
    assert SeatOk(k, o);
    ForeignCtx(k, F, o);
  }

  lemma FreeAfter(k: State, F: set<nat>, R: set<nat>, o: nat)
    requires ReapInv(k) && o < |k.slots| && Terminal(k.slots[o].state) && !k.slots[o].workerValid
    requires Sealed(k.slots, F, R) && o !in F && o !in R && ReapInv(Release(k, F, R))
    ensures var cur := Release(k, F, R);
            && cur.slots[o] == k.slots[o]
            && k.slots[o].ctx.Some? && k.slots[o].ctx.value < |k.ctxs|
            && |cur.ctxs| == |k.ctxs|
            && cur.ctxs[k.slots[o].ctx.value] == k.ctxs[k.slots[o].ctx.value]
            && FreedState(cur, o) == Release(k, F + {o}, R)
  {
    var cur := Release(k, F, R);
    OutsideStays(k, F, R, o);
    assert SeatOk(cur, o);
    FreeIsRelease(cur, o);
    ReleaseTwice(k, F, R, {o}, {});
    assert R + {} == R;
  }

  /** Freeing `o` itself after its children completes the reap. */
  lemma FreeLast(k: State, o: nat)
    requires ReapInv(k) && o < |k.slots| && Terminal(k.slots[o].state) && !k.slots[o].workerValid
    ensures var cur := Partial(k, o, |k.slots|);
            && cur.slots[o] == k.slots[o]
            && k.slots[o].ctx.Some? && k.slots[o].ctx.value < |k.ctxs|
            && |cur.ctxs| == |k.ctxs|
            && cur.ctxs[k.slots[o].ctx.value] == k.ctxs[k.slots[o].ctx.value]
            && FreedState(cur, o) == Reaped(k, o)
  {
    var F, R := Below(k.slots, o, |k.slots|), BelowOrphans(k.slots, o, |k.slots|);
    PartialSealed(k, o, |k.slots|);
    PartialReapInv(k, o, |k.slots|);
    FreeAfter(k, F, R, o);
    TreeSplit(k.slots, o);
  }

  lemma TreeSplit(slots: seq<Slot>, o: nat)
    requires OwnersOk(slots) && o < |slots| && slots[o].state != Free
    ensures Below(slots, o, |slots|) + {o} == Tree(slots, o)
    ensures BelowOrphans(slots, o, |slots|) == Orphans(slots, Tree(slots, o))
  {
    BelowAll(slots, o);
    var T := Tree(slots, o);
    assert o in T by {
      assert InTree(slots, o, o);
    }
  }
}

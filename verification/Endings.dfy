/** What ends a process, followed through runs of process table and scheduler until it is over. */
module Endings {
  import opened Options
  import opened Kernel
  import opened KernelInv
  import opened Machine
  import opened MachineInv
  import opened WorkerThreads
  import opened Fairness
  import opened Progress
  import Runs
  import opened Effects
  import opened Causes

  // ----- One act -----

  /** The slots after an act are those after its step, or as before. */
  lemma ActSlots(w: World, a: Act)
    requires Linked(w) && NoWrap(w.k) && Can(w, a) && After(w, a).1 != Panic
    ensures a.Yield? ==> After(w, a).0.k == w.k
    ensures !a.Yield? ==> Enabled(w.k, a.step) && Do(w.k, a.step).1 == After(w, a).1 && After(w, a).0.k.slots == Do(w.k, a.step).0.slots
  {
    if a.Asks? {
      CalledCanTrap(w, a.i, a.step);
      AskIsCallThenTrap(w, a.i, a.step);
    } else if a.Steps? {
      StepsKeep(w, a.step);
    }
  }

  lemma ActOnward(w: World, a: Act, j: nat)
    requires Linked(w) && NoWrap(w.k) && Can(w, a) && After(w, a).1 != Panic && j < |w.k.slots|
    ensures |After(w, a).0.k.slots| == |w.k.slots| && Runs.Onward(w.k.slots[j], After(w, a).0.k.slots[j])
  {
    ActSlots(w, a);
    if !a.Yield? {
      Runs.StepOnward(w.k, a.step);
    }
  }

  /** An act takes a process from its owner only to kill it. */
  lemma ActOwner(w: World, a: Act, j: nat)
    requires Linked(w) && NoWrap(w.k) && Can(w, a) && After(w, a).1 != Panic && IsLive(w.k, j)
    ensures |After(w, a).0.k.slots| == |w.k.slots|
    ensures var u, t := w.k.slots[j], After(w, a).0.k.slots[j];
            && (t.gen != u.gen ==> t.state == Free)
            && (t.gen == u.gen && t.owner != u.owner ==> t.owner == KERNEL_OWNER && t.killRequested)
  {
    ActSlots(w, a);
    if !a.Yield? {
      OwnerKillAndGeneration(w.k, a.step, j);
    }
  }

  // ----- Kill requests -----

  /** The act is a kill request on `h` that was answered Done. */
  ghost predicate Terminates(w: World, a: Act, h: nat) {
    Linked(w) && Can(w, a) && (a.Calls? || a.Asks?) && a.step.DoTerminate? && a.step.h == h && After(w, a).1 == Done
  }

  lemma TerminateDooms(w: World, a: Act, h: nat)
    requires NoWrap(w.k) && Terminates(w, a, h)
    ensures Decode(w.k, h).Some?
    ensures var i, k' := Decode(w.k, h).value, After(w, a).0.k;
            IsLive(k', i) && k'.slots[i].killRequested && k'.slots[i].gen == w.k.slots[i].gen
  {
    ActSlots(w, a);
    TerminateExactly(w.k, h, a.step.towner, a.step.tself);
  }

  /** A process whose kill request was answered Done, by whomever it was made, is over after at most twice as
      many selections as there are threads, and two more. */
  lemma KilledIsSoonOver(worlds: seq<World>, acts: seq<Act>, t: nat, u: nat, h: nat)
    requires IsWorldRun(worlds, acts) && t < u <= |acts| && Terminates(worlds[t], acts[t], h)
    requires Selections(worlds, acts, t + 1, u) > 2 * |worlds[t + 1].s.threads| + 2
    ensures Decode(worlds[t].k, h).Some?
    ensures var i := Decode(worlds[t].k, h).value; i < |worlds[t].k.slots| && Over(worlds[u].k, i, worlds[t].k.slots[i].gen)
  {
    assert Goes(worlds[t], acts[t], worlds[t + 1]);
    TerminateDooms(worlds[t], acts[t], h);
    DoomedIsSoonOver(worlds, acts, t + 1, u, Decode(worlds[t].k, h).value);
  }

  // ----- Orphans -----

  /** Slot `j` later: its generation has not gone back, and the same incarnation is still there. */
  predicate StillThere(k: State, k': State, j: nat) {
    && j < |k.slots| == |k'.slots| && k.slots[j].gen <= k'.slots[j].gen
    && (IsLive(k, j) && k'.slots[j].gen == k.slots[j].gen ==> IsLive(k', j))
  }

  lemma GoesOnward(w: World, a: Act, w': World, j: nat)
    requires Linked(w) && NoWrap(w.k) && Goes(w, a, w') && j < |w.k.slots|
    ensures StillThere(w.k, w'.k, j)
  {
    ActOnward(w, a, j);
  }

  lemma RunStepOnward(worlds: seq<World>, acts: seq<Act>, v: nat, j: nat)
    requires IsWorldRun(worlds, acts) && v < |acts| && j < |worlds[v].k.slots|
    ensures StillThere(worlds[v].k, worlds[v + 1].k, j)
  {
    RunLinked(worlds, acts, v);
    assert Goes(worlds[v], acts[v], worlds[v + 1]);
    GoesOnward(worlds[v], acts[v], worlds[v + 1], j);
  }

  lemma StillThereLater(a: State, b: State, c: State, j: nat)
    requires StillThere(a, b, j) && StillThere(b, c, j)
    ensures StillThere(a, c, j)
  {
  }

  lemma {:induction false} RunOnward(worlds: seq<World>, acts: seq<Act>, t: nat, u: nat, j: nat)
    requires IsWorldRun(worlds, acts) && t <= u < |worlds| && j < |worlds[t].k.slots|
    ensures StillThere(worlds[t].k, worlds[u].k, j)
    decreases u
  {
    if t < u {
      var v := u - 1;
      RunOnward(worlds, acts, t, v, j);
      RunStepOnward(worlds, acts, v, j);
      StillThereLater(worlds[t].k, worlds[v].k, worlds[v + 1].k, j);
    }
  }

  /** Process `j` still has its owner `o`, of generation `gen`, or belongs to the kernel with a kill request. */
  predicate OwnedOrKilled(k: State, o: nat, gen: nat, j: nat) {
    && j < |k.slots|
    && (|| (k.slots[j].owner == o < |k.slots| && k.slots[o].gen == gen)
        || (k.slots[j].owner == KERNEL_OWNER && k.slots[j].killRequested))
  }

  lemma OwnedStep(w: World, a: Act, o: nat, gen: nat, j: nat)
    requires Linked(w) && NoWrap(w.k) && Can(w, a) && After(w, a).1 != Panic && Linked(After(w, a).0)
    requires IsLive(w.k, j) && OwnedOrKilled(w.k, o, gen, j)
    ensures j < |After(w, a).0.k.slots|
    ensures After(w, a).0.k.slots[j].gen == w.k.slots[j].gen ==> OwnedOrKilled(After(w, a).0.k, o, gen, j)
  {
    var k' := After(w, a).0.k;
    ActOwner(w, a, j);
    ActOnward(w, a, j);
    assert SlotOk(w.k, j) && SlotOk(k', j);
    if w.k.slots[j].owner == o {
      ActOwner(w, a, o);
    }
  }

  lemma {:induction false} OwnedRun(worlds: seq<World>, acts: seq<Act>, t: nat, u: nat, o: nat, j: nat)
    requires IsWorldRun(worlds, acts) && t <= u < |worlds| && IsLive(worlds[t].k, j)
    requires worlds[t].k.slots[j].owner == o < |worlds[t].k.slots|
    requires j < |worlds[u].k.slots| && worlds[u].k.slots[j].gen == worlds[t].k.slots[j].gen
    ensures OwnedOrKilled(worlds[u].k, o, worlds[t].k.slots[o].gen, j)
    decreases u
  {
    if t < u {
      var v := u - 1;
      RunOnward(worlds, acts, t, v, j);
      RunOnward(worlds, acts, v, u, j);
      OwnedRun(worlds, acts, t, v, o, j);
      RunLinked(worlds, acts, v);
      RunLinked(worlds, acts, u);
      assert Goes(worlds[v], acts[v], worlds[u]);
      OwnedStep(worlds[v], acts[v], o, worlds[t].k.slots[o].gen, j);
    }
  }

  /** No orphans: a process whose owner has been reaped while it was alive belongs to the kernel with a kill
      request, and is over after at most twice as many selections as there are threads, and two
      more. */
  lemma OrphanIsSoonOver(worlds: seq<World>, acts: seq<Act>, t: nat, u: nat, v: nat, o: nat, j: nat)
    requires IsWorldRun(worlds, acts) && t <= u <= v <= |acts| && IsLive(worlds[t].k, j)
    requires worlds[t].k.slots[j].owner == o < |worlds[t].k.slots|
    requires o < |worlds[u].k.slots| && worlds[u].k.slots[o].gen != worlds[t].k.slots[o].gen
    requires j < |worlds[u].k.slots| && worlds[u].k.slots[j].gen == worlds[t].k.slots[j].gen
    ensures worlds[u].k.slots[j].owner == KERNEL_OWNER && worlds[u].k.slots[j].killRequested
    ensures Selections(worlds, acts, u, v) > 2 * |worlds[u].s.threads| + 2 ==> Over(worlds[v].k, j, worlds[t].k.slots[j].gen)
  {
    OwnedRun(worlds, acts, t, u, o, j);
    RunOnward(worlds, acts, t, u, j);
    if Selections(worlds, acts, u, v) > 2 * |worlds[u].s.threads| + 2 {
      DoomedIsSoonOver(worlds, acts, u, v, j);
    }
  }
}

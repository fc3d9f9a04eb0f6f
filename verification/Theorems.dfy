/** What users of the process table rely on, over whole runs. */
module Theorems {
  import opened Options
  import Pipe
  import opened Kernel
  import opened Reap
  import opened Machine
  import opened MachineInv
  import opened Runs

  // ----- Checks and endpoints -----

  /** In every state of every run pipe_check passes, proc_check passes exactly while no reap has
      yielded, and an open pipe endpoint sits on an ACTIVE slot of the recorded generation and role. */
  lemma OpenEndsAreOwned(states: seq<State>, steps: seq<Step>, outs: seq<Outcome>, i: nat)
    requires IsRun(states, steps, outs) && i < |states|
    ensures var k := states[i];
            && PipeCheck(k)
            && (ProcCheck(k) <==> k.waiter.Idle?)
            && (k.pipe.writerOpen ==>
                  && k.pipe.wslot < |k.slots| && k.slots[k.pipe.wslot].state == Active
                  && k.slots[k.pipe.wslot].gen == k.pipe.wgen && k.slots[k.pipe.wslot].stdout == Pipe.StdoutPipe)
            && (k.pipe.readerOpen ==>
                  && k.pipe.rslot < |k.slots| && k.slots[k.pipe.rslot].state == Active
                  && k.slots[k.pipe.rslot].gen == k.pipe.rgen && k.slots[k.pipe.rslot].stdin == Pipe.StdinPipe)
  {
    RunLater(states, steps, outs, i, i);
    ChecksPass(states[i]);
  }

  /** The ring is in the heap exactly while a pipe is live, and every ring attached before has been
      freed exactly once. */
  lemma RingFreedOnce(states: seq<State>, steps: seq<Step>, outs: seq<Outcome>, i: nat)
    requires IsRun(states, steps, outs) && i < |states|
    ensures var k := states[i];
            && (k.pipe.live <==> k.ring.Some? && k.ring.value in k.heap)
            && k.pipe.attached == k.pipe.released + (if k.pipe.live then 1 else 0)
  {
    RunLater(states, steps, outs, i, i);
  }

  /** `q` is the pipe `p` after incarnation `gen` of slot `i` has closed what it holds, if `ends`. */
  predicate ClosedBy(p: Pipe.PipeState, q: Pipe.PipeState, i: nat, gen: nat, ends: bool) {
    && (p.writerOpen && !q.writerOpen <==> p.writerOpen && p.wslot == i && p.wgen == gen && ends)
    && (p.readerOpen && !q.readerOpen <==> p.readerOpen && p.rslot == i && p.rgen == gen && ends)
  }

  lemma CloseEndClosesOwn(k: State, i: nat)
    requires Pipe.Ok(k.pipe, k.pipeCap) && i < |k.slots|
    ensures ClosedBy(k.pipe, CloseEnd(k, i).0.pipe, i, k.slots[i].gen, true)
    ensures CloseEnd(k, i).0.slots == k.slots
  {
  }

  /** A process without a pipe end leaves the pipe as it is. */
  lemma NoRoleNoClose(k: State, i: nat)
    requires Inv(k) && i < |k.slots| && k.slots[i].stdout != Pipe.StdoutPipe && k.slots[i].stdin != Pipe.StdinPipe
    ensures Pipe.NoteTerminal(k.pipe, i, k.slots[i].gen).0 == k.pipe
  {
  }

  lemma GateClosesOwn(k: State, i: nat, life: Life, a: nat, b: nat)
    requires Inv(k) && Seated(k, i) && (life == Exited || life == Faulted) && k.slots[i].state == Active && CtxOf(k, i).state == UActive
    ensures var k' := GateTerminal(k, i, life, a, b).0;
            |k'.slots| == |k.slots| && Terminal(k'.slots[i].state) && ClosedBy(k.pipe, k'.pipe, i, k.slots[i].gen, true)
  {
    var s, c := k.slots[i], CtxOf(k, i);
    if life == Exited {
      CloseEndClosesOwn(Put(k, i, s.(state := Exited, exitCode := a), c.(state := UExited, exitCode := a), Parked(RunExited)), i);
    } else {
      CloseEndClosesOwn(Put(k, i, s.(state := Faulted, faultVector := a, faultError := b),
                            c.(state := UFaulted, faultVector := a, faultError := b), Parked(RunFaulted)), i);
    }
  }

  lemma TurnClosesOwn(k: State, i: nat)
    requires Inv(k) && Seated(k, i) && SlotOk(k, i) && PhaseOf(k, i).Parked?
    ensures var k' := WorkerTurn(k, i).0;
            && |k'.slots| == |k.slots|
            && ClosedBy(k.pipe, k'.pipe, i, k.slots[i].gen, k.slots[i].state == Active && Terminal(k'.slots[i].state))
  {
    var s, c := k.slots[i], CtxOf(k, i);
    CloseEndClosesOwn(Put(k, i, s.(state := Aborted), c.(state := UAborted, bound := false), Gone), i);
  }

  /** A recycled slot never touches an endpoint: a gate exit or fault, or a turn of the worker, closes an
      end exactly when it makes a running process terminal whose very incarnation holds that end. */
  lemma TerminalClosesOwnEndOnly(k: State, s: Step)
    requires Inv(k) && Enabled(k, s) && (s.DoGate? || s.DoTurn?)
    ensures var k' := Do(k, s).0;
            && s.i < |k.slots| == |k'.slots|
            && ClosedBy(k.pipe, k'.pipe, s.i, k.slots[s.i].gen, k.slots[s.i].state == Active && Terminal(k'.slots[s.i].state))
            && (k.slots[s.i].stdout != Pipe.StdoutPipe && k.slots[s.i].stdin != Pipe.StdinPipe ==> k'.pipe == k.pipe)
  {
    assert SlotOk(k, s.i);
    if k.slots[s.i].stdout != Pipe.StdoutPipe && k.slots[s.i].stdin != Pipe.StdinPipe {
      NoRoleNoClose(k, s.i);
    }
    if s.DoGate? {
      GateClosesOwn(k, s.i, s.life, s.a, s.b);
    } else {
      TurnClosesOwn(k, s.i);
    }
  }

  // ----- Handles -----

  /** A handle made for slot `i` at generation `gen` names that incarnation and no other, for ever:
      it decodes in a later state exactly when the slot still carries that generation and the
      generation fits the handle's 32 bits. */
  lemma HandleDenotesItsIncarnation(states: seq<State>, steps: seq<Step>, outs: seq<Outcome>, i: nat, j: nat, slot: nat)
    requires IsRun(states, steps, outs) && i <= j < |states|
    requires slot < |states[i].slots| <= HANDLE_LIMIT && states[i].slots[slot].state != Free
    ensures |states[j].slots| == |states[i].slots|
    ensures var gen := states[i].slots[slot].gen;
            var d := Decode(states[j], HandleOf(slot, gen));
            && (d.Some? <==> states[j].slots[slot].gen == gen < HANDLE_LIMIT)
            && (d.Some? ==> d.value == slot && states[j].slots[slot].worker == states[i].slots[slot].worker)
  {
    RunLater(states, steps, outs, i, j);
    assert Onward(states[i].slots[slot], states[j].slots[slot]);
    var gen := states[i].slots[slot].gen;
    HandleRoundTrip(slot, gen);
    assert SlotOk(states[i], slot);
    LowBits(gen);
  }

  lemma LowBits(gen: nat)
    ensures gen % HANDLE_LIMIT <= gen && (gen % HANDLE_LIMIT == gen <==> gen < HANDLE_LIMIT)
  {
  }

  lemma HandleRoundTrip(slot: nat, gen: nat)
    requires slot < HANDLE_LIMIT
    ensures HandleOf(slot, gen) % HANDLE_LIMIT == slot
    ensures HandleOf(slot, gen) / HANDLE_LIMIT == gen % HANDLE_LIMIT
  {
  }

  predicate Consumes(out: Outcome) {
    out.Status? && out.status != Running
  }

  /** The handle a step answers about: a wait its own, the end of a yielded reap the one it was for. */
  function Answers(k: State, s: Step): Option<nat> {
    if s.DoWait? then Some(s.h) else if s.DoResume? && k.waiter.Reaping? then Some(k.waiter.handle) else None
  }

  lemma ConsumedHandleGone(states: seq<State>, steps: seq<Step>, outs: seq<Outcome>, i: nat, j: nat, h: nat)
    requires IsRun(states, steps, outs) && i < j < |states|
    requires Answers(states[i], steps[i]) == Some(h) && Consumes(outs[i])
    ensures Inv(states[j]) && Decode(states[j], h) == None
  {
    RunLater(states, steps, outs, i, i);
    RunLater(states, steps, outs, i + 1, j);
    assert Follows(states[i], steps[i], states[i + 1], outs[i]);
    ConsumeBumpsGeneration(states[i], steps[i], h);
    var slot := h % HANDLE_LIMIT;
    assert Onward(states[i + 1].slots[slot], states[j].slots[slot]);
  }

  /** Once a wait on a handle has reported a terminal status, at once or after it had to yield, every
      later wait and terminate on it is BADHANDLE, whoever calls and whoever sits in the slot by then. */
  lemma ConsumedHandleIsDead(states: seq<State>, steps: seq<Step>, outs: seq<Outcome>, i: nat, j: nat, h: nat, owner: int, self: int)
    requires IsRun(states, steps, outs) && i < j < |states|
    requires Answers(states[i], steps[i]) == Some(h) && Consumes(outs[i])
    ensures Inv(states[j])
    ensures Wait(states[j], h, owner, self) == (states[j], Error(BadHandle))
    ensures Terminate(states[j], h, owner, self) == (states[j], Error(BadHandle))
  {
    ConsumedHandleGone(states, steps, outs, i, j, h);
  }

  lemma ConsumeBumpsGeneration(k: State, s: Step, h: nat)
    requires Inv(k) && NoWrap(k) && Enabled(k, s) && Answers(k, s) == Some(h) && Consumes(Do(k, s).1)
    ensures Decode(k, h) == Some(h % HANDLE_LIMIT)
    ensures var k' := Do(k, s).0;
            && |k'.slots| == |k.slots|
            && k'.slots[h % HANDLE_LIMIT].gen == h / HANDLE_LIMIT + 1
  {
    if s.DoWait? {
      WaitBumpsGeneration(k, h, s.wowner, s.wself);
    } else {
      ResumeBumpsGeneration(k);
    }
  }

  lemma WaitBumpsGeneration(k: State, h: nat, owner: int, self: int)
    requires Inv(k) && NoWrap(k) && Consumes(Wait(k, h, owner, self).1)
    ensures Decode(k, h) == Some(h % HANDLE_LIMIT)
    ensures var k' := Wait(k, h, owner, self).0;
            && |k'.slots| == |k.slots|
            && k'.slots[h % HANDLE_LIMIT].gen == h / HANDLE_LIMIT + 1
  {
    var i := h % HANDLE_LIMIT;
    if Takes(k, h, owner, self) {
      WaitTakes(k, h, owner, self);
    }
    assert SlotOk(k, i);
    InvIsReapInv(k);
    assert InTree(k.slots, i, i);
  }

  lemma ResumeBumpsGeneration(k: State)
    requires Inv(k) && NoWrap(k) && k.waiter.Reaping? && Consumes(Resume(k).1)
    ensures var h := k.waiter.handle;
            && Decode(k, h) == Some(h % HANDLE_LIMIT)
            && |Resume(k).0.slots| == |k.slots|
            && Resume(k).0.slots[h % HANDLE_LIMIT].gen == h / HANDLE_LIMIT + 1
  {
    assert FrameOk(k.slots, TopFrame(k));
  }

  /** At most one answer in a run reports a terminal status for a handle. */
  lemma AtMostOneConsume(states: seq<State>, steps: seq<Step>, outs: seq<Outcome>, i: nat, j: nat, h: nat)
    requires IsRun(states, steps, outs) && i < |steps| && j < |steps|
    requires Answers(states[i], steps[i]) == Some(h) && Answers(states[j], steps[j]) == Some(h)
    requires Consumes(outs[i]) && Consumes(outs[j])
    ensures i == j
  {
    var a, b := if i < j then i else j, if i < j then j else i;
    RunLater(states, steps, outs, a, b);
    assert Follows(states[b], steps[b], states[b + 1], outs[b]);
    ConsumeBumpsGeneration(states[b], steps[b], h);
    if i != j {
      ConsumedHandleGone(states, steps, outs, a, b, h);
    }
  }

  /** Why runs are limited to generations that do not wrap: free a slot at the last generation and
      admit a child there, and the handle of the slot's very first child names the new one. */
  lemma WrapRevivesFirstHandle(k: State, i: nat, c: nat, owner: int)
    requires i < |k.slots| <= HANDLE_LIMIT && c < |k.ctxs| && k.slots[i].gen == GEN_LIMIT - 1
    ensures var freed := k.(slots := k.slots[i := FreedSlot(k.slots[i])]);
            Decode(Admit(freed, i, c, owner, Pipe.StdinClosed, Pipe.StdoutSerial), HandleOf(i, 1)) == Some(i)
  {
    HandleRoundTrip(i, 1);
  }

  // ----- Terminal records and kills -----

  /** The first terminal record wins: until the slot is recycled its state and codes stay. */
  lemma FirstRecordWins(states: seq<State>, steps: seq<Step>, outs: seq<Outcome>, i: nat, j: nat, slot: nat)
    requires IsRun(states, steps, outs) && i <= j < |states|
    requires slot < |states[i].slots| && Terminal(states[i].slots[slot].state)
    ensures |states[j].slots| == |states[i].slots|
    ensures var s, t := states[i].slots[slot], states[j].slots[slot];
            || s.gen < t.gen
            || (s.gen == t.gen && t.state == s.state && t.exitCode == s.exitCode
                && t.faultVector == s.faultVector && t.faultError == s.faultError)
  {
    RunLater(states, steps, outs, i, j);
    assert Onward(states[i].slots[slot], states[j].slots[slot]);
  }

  /** What a terminal wait reports, at once or after it had to yield, is what the slot recorded when it
      first became terminal. */
  lemma WaitReportsFirstRecord(states: seq<State>, steps: seq<Step>, outs: seq<Outcome>, i: nat, j: nat, h: nat)
    requires IsRun(states, steps, outs) && i <= j < |steps|
    requires Answers(states[j], steps[j]) == Some(h) && Consumes(outs[j])
    requires h % HANDLE_LIMIT < |states[i].slots|
    requires Terminal(states[i].slots[h % HANDLE_LIMIT].state)
    requires states[i].slots[h % HANDLE_LIMIT].gen == h / HANDLE_LIMIT
    ensures outs[j] == Status(StatusOf(states[i].slots[h % HANDLE_LIMIT]))
  {
    var slot := h % HANDLE_LIMIT;
    FirstRecordWins(states, steps, outs, i, j, slot);
    RunLater(states, steps, outs, i, j);
    assert Follows(states[j], steps[j], states[j + 1], outs[j]);
    ConsumeBumpsGeneration(states[j], steps[j], h);
    ReportsRecord(states[j], steps[j], h);
  }

  lemma ReportsRecord(k: State, s: Step, h: nat)
    requires Inv(k) && NoWrap(k) && Enabled(k, s) && Answers(k, s) == Some(h) && Consumes(Do(k, s).1)
    ensures Decode(k, h).Some? && Do(k, s).1 == Status(StatusOf(k.slots[Decode(k, h).value]))
  {
    if s.DoWait? {
      WaitReportsRecord(k, h, s.wowner, s.wself);
    } else {
      assert FrameOk(k.slots, TopFrame(k));
    }
  }

  lemma WaitReportsRecord(k: State, h: nat, owner: int, self: int)
    requires Inv(k) && Consumes(Wait(k, h, owner, self).1)
    ensures Decode(k, h).Some? && Wait(k, h, owner, self).1 == Status(StatusOf(k.slots[Decode(k, h).value]))
  {
    assert SlotOk(k, Decode(k, h).value);
    InvIsReapInv(k);
  }

  lemma KilledTurnEnds(k: State, i: nat)
    requires Seated(k, i) && PhaseOf(k, i).Parked? && k.slots[i].killRequested
    requires PhaseOk(k.slots[i], CtxOf(k, i), PhaseOf(k, i))
    ensures var k' := WorkerTurn(k, i).0;
            && |k'.slots| == |k.slots| && Terminal(k'.slots[i].state)
            && k'.slots[i].worker in k'.workers && k'.workers[k'.slots[i].worker] == Worker(i, Gone)
  {
  }

  /** After a kill request the worker never resumes the context: its next turn ends the process. */
  lemma KillIsFinal(states: seq<State>, steps: seq<Step>, outs: seq<Outcome>, i: nat, j: nat, slot: nat)
    requires IsRun(states, steps, outs) && i <= j < |steps|
    requires slot < |states[i].slots| && states[i].slots[slot].state != Free && states[i].slots[slot].killRequested
    requires steps[j] == DoTurn(slot)
    ensures slot < |states[j].slots| == |states[j + 1].slots|
    ensures states[j].slots[slot].gen == states[i].slots[slot].gen ==>
              var s := states[j + 1].slots[slot];
              Terminal(s.state) && s.worker in states[j + 1].workers && states[j + 1].workers[s.worker] == Worker(slot, Gone)
  {
    RunLater(states, steps, outs, i, j);
    RunLater(states, steps, outs, j, j + 1);
    assert Follows(states[j], steps[j], states[j + 1], outs[j]);
    assert Onward(states[i].slots[slot], states[j].slots[slot]);
    if states[j].slots[slot].gen == states[i].slots[slot].gen {
      KilledStepEnds(states[j], slot);
    }
  }

  lemma KilledStepEnds(k: State, i: nat)
    requires Inv(k) && Enabled(k, DoTurn(i)) && k.slots[i].killRequested
    ensures var k' := Do(k, DoTurn(i)).0;
            && |k'.slots| == |k.slots| && Terminal(k'.slots[i].state)
            && k'.slots[i].worker in k'.workers && k'.workers[k'.slots[i].worker] == Worker(i, Gone)
  {
    assert SlotOk(k, i);
    KilledTurnEnds(k, i);
  }

  // ----- Ownership -----

  /** Slot `i` and its owners, up to the kernel. */
  function Owners(slots: seq<Slot>, i: nat): (chain: seq<nat>)
    requires OwnersOk(slots) && i < |slots| && slots[i].state != Free
    ensures chain != [] && chain[0] == i
    decreases slots[i].worker
  {
    if slots[i].owner == KERNEL_OWNER then [i] else [i] + Owners(slots, slots[i].owner)
  }

  lemma {:induction false} OwnersDescend(slots: seq<Slot>, i: nat)
    requires OwnersOk(slots) && i < |slots| && slots[i].state != Free
    ensures var chain := Owners(slots, i);
            && (forall n :: 0 <= n < |chain| ==> chain[n] < |slots| && slots[chain[n]].state != Free)
            && (forall n, m :: 0 <= n < m < |chain| ==> slots[chain[m]].worker < slots[chain[n]].worker)
            && (forall n :: 0 <= n < |chain| - 1 ==> slots[chain[n]].owner == chain[n + 1])
            && slots[chain[|chain| - 1]].owner == KERNEL_OWNER
    decreases slots[i].worker
  {
    if slots[i].owner != KERNEL_OWNER {
      OwnersDescend(slots, slots[i].owner);
      var chain, rest := Owners(slots, i), Owners(slots, slots[i].owner);
      assert forall n :: 0 < n < |chain| ==> chain[n] == rest[n - 1];
      forall n, m | 0 <= n < m < |chain|
        ensures slots[chain[m]].worker < slots[chain[n]].worker
      {
        assert chain[m] == rest[m - 1];
        assert slots[rest[0]].worker < slots[i].worker;
        assert m - 1 > 0 ==> slots[rest[m - 1]].worker < slots[rest[0]].worker;
      }
      forall n | 0 <= n < |chain| - 1
        ensures slots[chain[n]].owner == chain[n + 1]
      {
        assert chain[n + 1] == rest[n];
        if n > 0 {
          assert slots[rest[n - 1]].owner == rest[n];
        }
      }
    }
  }

  lemma {:induction false} DistinctBelow(s: seq<nat>, n: nat)
    requires forall i :: 0 <= i < |s| ==> s[i] < n
    requires forall i, j :: 0 <= i < j < |s| ==> s[i] != s[j]
    ensures |s| <= n
    decreases |s|
  {
    if |s| > 0 {
      var last := s[|s| - 1];
      var rest := seq(|s| - 1, i requires 0 <= i < |s| - 1 => if s[i] < last then s[i] else s[i] - 1);
      forall i, j | 0 <= i < j < |rest|
        ensures rest[i] != rest[j]
      {
        assert s[i] != last && s[j] != last && s[i] != s[j];
      }
      DistinctBelow(rest, n - 1);
    }
  }

  /** The owner relation is always a forest under the kernel: from every live slot the owners lead
      through live, pairwise different slots to the kernel, in at most as many steps as there are
      slots. */
  lemma OwnerForest(states: seq<State>, steps: seq<Step>, outs: seq<Outcome>, t: nat, i: nat)
    requires IsRun(states, steps, outs) && t < |states|
    requires i < |states[t].slots| && states[t].slots[i].state != Free
    ensures OwnersOk(states[t].slots)
    ensures var slots := states[t].slots;
            var chain := Owners(slots, i);
            && |chain| <= |slots|
            && (forall n :: 0 <= n < |chain| ==> chain[n] < |slots| && slots[chain[n]].state != Free)
            && (forall n, m :: 0 <= n < m < |chain| ==> chain[n] != chain[m])
            && (forall n :: 0 <= n < |chain| - 1 ==> slots[chain[n]].owner == chain[n + 1])
            && slots[chain[|chain| - 1]].owner == KERNEL_OWNER
  {
    RunLater(states, steps, outs, t, t);
    InvIsReapInv(states[t]);
    OwnersDescend(states[t].slots, i);
    DistinctBelow(Owners(states[t].slots, i), |states[t].slots|);
  }

  // ----- The reap that has to yield -----

  /** proc_wait checks the worker of the process it was asked about, but not the workers of the
      terminal children it reaps with it. Exactly then the kernel's own wait yields half way. */
  lemma WaitYieldsExactly(k: State, h: nat, owner: int, self: int)
    requires Inv(k)
    ensures OwnersOk(k.slots)
    ensures Wait(k, h, owner, self).1 == Yields <==>
              && self < 0 && Takes(k, h, owner, self)
              && exists j :: 0 <= j < |k.slots| && j != Decode(k, h).value && InTree(k.slots, Decode(k, h).value, j) && !WorkerGone(k, j)
  {
    InvIsReapInv(k);
    if Takes(k, h, owner, self) {
      WaitTakes(k, h, owner, self);
    } else {
      WaitLeaves(k, h, owner, self);
    }
  }
}

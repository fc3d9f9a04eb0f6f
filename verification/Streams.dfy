/** The bytes of a pipeline over whole runs, as the two processes see them. */
module Streams {
  import Pipe
  import opened Kernel
  import opened KernelInv
  import opened Machine
  import opened Runs

  /** The bytes a step handed to its reader, or accepted from its writer. */
  function Got(s: Step, out: Outcome): seq<Pipe.Byte> {
    if s.DoRead? && out.Read? && out.r.Staged? then out.r.bytes else []
  }

  function Sent(s: Step, out: Outcome): seq<Pipe.Byte> {
    if s.DoWrite? && out.Wrote? && out.w.Accepted? && out.w.n <= |s.src| then s.src[..out.w.n] else []
  }

  function AllGot(steps: seq<Step>, outs: seq<Outcome>, i: nat, j: nat): seq<Pipe.Byte>
    requires i <= j <= |steps| == |outs|
  {
    if i == j then [] else AllGot(steps, outs, i, j - 1) + Got(steps[j - 1], outs[j - 1])
  }

  function AllSent(steps: seq<Step>, outs: seq<Outcome>, i: nat, j: nat): seq<Pipe.Byte>
    requires i <= j <= |steps| == |outs|
  {
    if i == j then [] else AllSent(steps, outs, i, j - 1) + Sent(steps[j - 1], outs[j - 1])
  }

  lemma ReadStream(k: State, i: nat, len: nat, destOk: bool, copied: bool)
    requires Inv(k) && i < |k.slots|
    ensures var (k', out) := ReadIn(k, i, len, destOk, copied);
            && k'.pipe.delivered == k.pipe.delivered + Got(DoRead(i, len, destOk, copied), out)
            && k'.pipe.accepted == k.pipe.accepted
  {
    ReadInKeeps(k, i, len, destOk, copied);
  }

  lemma WriteStream(k: State, i: nat, src: seq<Pipe.Byte>, copied: bool)
    requires Inv(k) && i < |k.slots|
    ensures var (k', out) := WriteOut(k, i, src, copied);
            && k'.pipe.accepted == k.pipe.accepted + Sent(DoWrite(i, src, copied), out)
            && k'.pipe.delivered == k.pipe.delivered
  {
    WriteOutKeeps(k, i, src, copied);
  }

  lemma CloseEndStream(k: State, i: nat)
    requires i < |k.slots|
    ensures CloseEnd(k, i).0.pipe.delivered == k.pipe.delivered
    ensures CloseEnd(k, i).0.pipe.accepted == k.pipe.accepted
  {
  }

  lemma GateStream(k: State, i: nat, life: Life, a: nat, b: nat)
    requires Seated(k, i) && (life == Exited || life == Faulted)
    ensures GateTerminal(k, i, life, a, b).0.pipe.delivered == k.pipe.delivered
    ensures GateTerminal(k, i, life, a, b).0.pipe.accepted == k.pipe.accepted
  {
  }

  lemma FinishStream(k: State, i: nat, s: Slot, c: Ctx)
    requires Seated(k, i)
    ensures Finish(k, i, s, c).0.pipe.delivered == k.pipe.delivered
    ensures Finish(k, i, s, c).0.pipe.accepted == k.pipe.accepted
  {
    CloseEndStream(Put(k, i, s, c.(bound := false), Gone), i);
  }

  lemma TurnStream(k: State, i: nat)
    requires Seated(k, i)
    ensures WorkerTurn(k, i).0.pipe.delivered == k.pipe.delivered
    ensures WorkerTurn(k, i).0.pipe.accepted == k.pipe.accepted
  {
    var s, c := k.slots[i], CtxOf(k, i);
    FinishStream(k, i, s.(state := Exited, exitCode := c.exitCode), c);
    FinishStream(k, i, s.(state := Faulted, faultVector := c.faultVector, faultError := c.faultError), c);
    FinishStream(k, i, s.(state := Aborted), c.(state := UAborted));
  }

  lemma SpawnStream(k: State, s: Step)
    requires Inv(k) && Enabled(k, s) && (s.DoSpawnImage? || s.DoSpawnPipe? || s.DoTerminate?)
    requires Do(k, s).0.pipe.attached == k.pipe.attached
    ensures Do(k, s).0.pipe == k.pipe
  {
  }

  lemma ReapStream(k: State, s: Step)
    requires Inv(k) && Enabled(k, s) && (s.DoWait? || s.DoResume?)
    ensures Do(k, s).0.pipe == k.pipe
  {
  }

  lemma ProcessStream(k: State, s: Step)
    requires Inv(k) && Enabled(k, s) && (s.DoEnter? || s.DoTrap? || s.DoGate? || s.DoTurn?)
    ensures Do(k, s).0.pipe.delivered == k.pipe.delivered
    ensures Do(k, s).0.pipe.accepted == k.pipe.accepted
  {
    assert SlotOk(k, s.i);
    if s.DoGate? {
      GateStream(k, s.i, s.life, s.a, s.b);
    } else if s.DoTurn? {
      TurnStream(k, s.i);
    }
  }

  lemma TransferStream(k: State, s: Step)
    requires Inv(k) && Enabled(k, s) && (s.DoRead? || s.DoWrite?)
    ensures Do(k, s).0.pipe.delivered == k.pipe.delivered + Got(s, Do(k, s).1)
    ensures Do(k, s).0.pipe.accepted == k.pipe.accepted + Sent(s, Do(k, s).1)
  {
    assert SlotOk(k, s.i);
    if s.DoRead? {
      ReadStream(k, s.i, s.len, s.destOk, s.copied);
    } else {
      WriteStream(k, s.i, s.src, s.copied);
    }
  }

  lemma StepStream(k: State, s: Step)
    requires Inv(k) && Enabled(k, s) && Do(k, s).0.pipe.attached == k.pipe.attached
    ensures Do(k, s).0.pipe.delivered == k.pipe.delivered + Got(s, Do(k, s).1)
    ensures Do(k, s).0.pipe.accepted == k.pipe.accepted + Sent(s, Do(k, s).1)
  {
    if s.DoRead? || s.DoWrite? {
      TransferStream(k, s);
    } else if s.DoWait? || s.DoResume? {
      ReapStream(k, s);
    } else if s.DoSpawnImage? || s.DoSpawnPipe? || s.DoTerminate? {
      SpawnStream(k, s);
    } else {
      ProcessStream(k, s);
    }
  }

  lemma FollowedStream(k: State, s: Step, k': State, out: Outcome)
    requires Inv(k) && Follows(k, s, k', out) && k'.pipe.attached == k.pipe.attached
    ensures k'.pipe.delivered == k.pipe.delivered + Got(s, out)
    ensures k'.pipe.accepted == k.pipe.accepted + Sent(s, out)
  {
    StepStream(k, s);
  }

  lemma AttachedGrows(states: seq<State>, steps: seq<Step>, outs: seq<Outcome>, i: nat, j: nat)
    requires IsRun(states, steps, outs) && i <= j < |states|
    ensures states[i].pipe.attached <= states[j].pipe.attached
  {
    RunLater(states, steps, outs, i, j);
  }

  lemma RunStream(states: seq<State>, steps: seq<Step>, outs: seq<Outcome>, t: nat)
    requires IsRun(states, steps, outs) && t < |steps|
    requires states[t + 1].pipe.attached == states[t].pipe.attached
    ensures states[t + 1].pipe.delivered == states[t].pipe.delivered + Got(steps[t], outs[t])
    ensures states[t + 1].pipe.accepted == states[t].pipe.accepted + Sent(steps[t], outs[t])
  {
    RunLater(states, steps, outs, t, t);
    assert Follows(states[t], steps[t], states[t + 1], outs[t]);
    FollowedStream(states[t], steps[t], states[t + 1], outs[t]);
  }

  lemma {:induction false} StreamsAddUp(states: seq<State>, steps: seq<Step>, outs: seq<Outcome>, i: nat, j: nat)
    requires IsRun(states, steps, outs) && i <= j < |states|
    requires states[j].pipe.attached == states[i].pipe.attached
    ensures states[j].pipe.delivered == states[i].pipe.delivered + AllGot(steps, outs, i, j)
    ensures states[j].pipe.accepted == states[i].pipe.accepted + AllSent(steps, outs, i, j)
    decreases j
  {
    if i < j {
      var t := j - 1;
      AttachedGrows(states, steps, outs, i, t);
      AttachedGrows(states, steps, outs, t, j);
      RunStream(states, steps, outs, t);
      StreamsAddUp(states, steps, outs, i, t);
      Associate(states[i].pipe.delivered, AllGot(steps, outs, i, t), Got(steps[t], outs[t]));
      Associate(states[i].pipe.accepted, AllSent(steps, outs, i, t), Sent(steps[t], outs[t]));
    }
  }

  lemma Associate(a: seq<Pipe.Byte>, b: seq<Pipe.Byte>, c: seq<Pipe.Byte>)
    ensures (a + b) + c == a + (b + c)
  {
  }

  lemma FreshPipe(k: State, req: PipeReq, env: PipeEnv)
    requires SpawnPipe(k, req, env).1.Handles?
    ensures SpawnPipe(k, req, env).0.pipe.accepted == [] && SpawnPipe(k, req, env).0.pipe.delivered == []
  {
  }

  lemma SpawnedEmpty(k: State, s: Step, k': State, out: Outcome)
    requires Inv(k) && Follows(k, s, k', out) && s.DoSpawnPipe? && out.Handles?
    ensures k'.pipe.accepted == [] && k'.pipe.delivered == []
  {
    FreshPipe(k, s.req, s.penv);
  }

  lemma RunStartsEmpty(states: seq<State>, steps: seq<Step>, outs: seq<Outcome>, i: nat)
    requires IsRun(states, steps, outs) && i < |steps| && steps[i].DoSpawnPipe? && outs[i].Handles?
    ensures states[i + 1].pipe.accepted == [] && states[i + 1].pipe.delivered == []
  {
    RunLater(states, steps, outs, i, i);
    assert Follows(states[i], steps[i], states[i + 1], outs[i]);
    SpawnedEmpty(states[i], steps[i], states[i + 1], outs[i]);
  }

  lemma RunConserves(states: seq<State>, steps: seq<Step>, outs: seq<Outcome>, j: nat)
    requires IsRun(states, steps, outs) && j < |states|
    ensures states[j].pipe.delivered <= states[j].pipe.accepted
    ensures states[j].pipe.live ==> states[j].pipe.accepted == states[j].pipe.delivered + states[j].pipe.queue
  {
    RunLater(states, steps, outs, j, j);
    assert Pipe.Ok(states[j].pipe, states[j].pipeCap);
  }

  /** Lossless and in order, end to end: from the spawn_pipe that made it, for as long as no newer
      pipe exists, what the consumer read is a prefix of what the producer was told was accepted,
      whatever kills, faults, exits and reaps happen around it. */
  lemma PipelineIsLossless(states: seq<State>, steps: seq<Step>, outs: seq<Outcome>, i: nat, j: nat)
    requires IsRun(states, steps, outs) && i < j < |states|
    requires steps[i].DoSpawnPipe? && outs[i].Handles?
    requires states[j].pipe.attached == states[i + 1].pipe.attached
    ensures AllGot(steps, outs, i + 1, j) <= AllSent(steps, outs, i + 1, j)
    ensures states[j].pipe.live ==>
              AllSent(steps, outs, i + 1, j) == AllGot(steps, outs, i + 1, j) + states[j].pipe.queue
  {
    var got, sent := AllGot(steps, outs, i + 1, j), AllSent(steps, outs, i + 1, j);
    RunStartsEmpty(states, steps, outs, i);
    StreamsAddUp(states, steps, outs, i + 1, j);
    assert states[j].pipe.delivered == got && states[j].pipe.accepted == sent;
    RunConserves(states, steps, outs, j);
  }

  /** What a read of `len` bytes answers at end of stream: a copy that fails is invalid, and an empty
      read does not reach the pipe. */
  function EndAnswer(s: Step): Outcome
    requires s.DoRead?
  {
    if !s.copied || (s.len > 0 && !s.destOk) then Error(Inval)
    else if s.len == 0 then Done
    else Read(Pipe.EndOfStream)
  }

  /** A running consumer's read is told end of stream only when its producer has terminated and
      every accepted byte has been read; from then on no read of that consumer finds a byte, and each
      whose copies succeed is told the same. */
  lemma EndOfStreamOverRuns(states: seq<State>, steps: seq<Step>, outs: seq<Outcome>, i: nat, j: nat)
    requires IsRun(states, steps, outs) && i <= j < |steps|
    requires steps[i].DoRead? && outs[i] == Read(Pipe.EndOfStream)
    requires steps[j].DoRead? && steps[j].i == steps[i].i && steps[j].len <= states[j].pipeCap
    requires steps[i].i < |states[i].slots| && steps[j].i < |states[j].slots|
    requires states[j].slots[steps[j].i].gen == states[i].slots[steps[i].i].gen
    ensures var p := states[i].pipe;
            && p.delivered == p.accepted
            && p.wslot < |states[i].slots| && Closed(states[i].slots[p.wslot], p.wgen)
    ensures outs[j] == EndAnswer(steps[j])
  {
    RunLater(states, steps, outs, i, j);
    assert Follows(states[i], steps[i], states[i + 1], outs[i]);
    assert Follows(states[j], steps[j], states[j + 1], outs[j]);
    EndOfStreamFollows(states[i], steps[i], states[j], steps[j]);
  }

  lemma EndOfStreamFollows(k: State, s: Step, m: State, t: Step)
    requires Inv(k) && Inv(m) && Later(k, m) && s.DoRead? && t.DoRead? && t.i == s.i && t.len <= m.pipeCap
    requires Enabled(k, s) && Enabled(m, t) && Do(k, s).1 == Read(Pipe.EndOfStream)
    requires m.slots[t.i].gen == k.slots[s.i].gen
    ensures k.pipe.delivered == k.pipe.accepted
    ensures k.pipe.wslot < |k.slots| && Closed(k.slots[k.pipe.wslot], k.pipe.wgen)
    ensures Do(m, t).1 == EndAnswer(t)
  {
    var slot, gen, cap := s.i, k.slots[s.i].gen, k.pipeCap;
    assert SlotOk(k, slot) && SlotOk(m, slot);
    assert Piped(k.slots[slot]) && Piped(m.slots[slot]);
    Pipe.EndOfStreamExactly(k.pipe, slot, gen, s.len, cap);
    Pipe.EndOfStreamStays(k.pipe, m.pipe, cap, slot, gen, s.len, t.len);
  }

  /** Once the consumer has terminated, every write of the still running producer that reaches the
      pipe is refused as broken, and none is silently dropped. */
  lemma BrokenReaderOverRuns(states: seq<State>, steps: seq<Step>, outs: seq<Outcome>, i: nat, j: nat)
    requires IsRun(states, steps, outs) && i <= j < |steps|
    requires steps[j].DoWrite? && |steps[j].src| <= states[j].pipeCap
    requires steps[j].i < |states[i].slots| && steps[j].i < |states[j].slots|
    requires Piped(states[i].slots[steps[j].i]) && states[i].slots[steps[j].i].stdout == Pipe.StdoutPipe
    requires states[j].slots[steps[j].i].gen == states[i].slots[steps[j].i].gen
    requires !states[i].pipe.readerOpen
    ensures outs[j] == Wrote(if steps[j].src == [] then Pipe.Accepted(0)
                             else if !steps[j].copied then Pipe.WriteInvalid
                             else Pipe.BrokenReader)
  {
    RunLater(states, steps, outs, i, j);
    assert Follows(states[j], steps[j], states[j + 1], outs[j]);
    var slot := steps[j].i;
    assert SlotOk(states[j], slot);
    assert Piped(states[j].slots[slot]);
    Pipe.BrokenReaderStays(states[i].pipe, states[j].pipe, states[j].pipeCap, steps[j].src);
  }

  lemma WriteInvalidExactly(k: State, i: nat, src: seq<Pipe.Byte>, copied: bool)
    requires Inv(k) && AtPhase(k, i, InUser) && k.slots[i].stdout == Pipe.StdoutPipe
    ensures WriteOut(k, i, src, copied).1 == Wrote(Pipe.WriteInvalid) <==> |src| > k.pipeCap || (src != [] && !copied)
  {
    assert SlotOk(k, i);
    WriteOutKeeps(k, i, src, copied);
  }

  lemma ReadInvalidExactly(k: State, i: nat, len: nat, destOk: bool, copied: bool)
    requires Inv(k) && AtPhase(k, i, InUser) && k.slots[i].stdin == Pipe.StdinPipe
    ensures ReadIn(k, i, len, destOk, copied).1 == Error(Inval) <==>
            || len > k.pipeCap || (len > 0 && !destOk)
            || (!copied && (len == 0 || k.pipe.queue != [] || !k.pipe.writerOpen))
  {
    assert SlotOk(k, i);
    ReadInKeeps(k, i, len, destOk, copied);
  }

  /** A running endpoint always has authority over its pipe: a call is invalid exactly if it is too
      long for the pipe or the copy it has to make fails. A read that finds the pipe empty and its
      writer open makes no copy. */
  lemma EndpointsAlwaysAuthorised(k: State, s: Step)
    requires Inv(k) && Enabled(k, s)
    ensures s.DoWrite? ==>
              (Do(k, s).1 == Wrote(Pipe.WriteInvalid) <==> |s.src| > k.pipeCap || (s.src != [] && !s.copied))
    ensures s.DoRead? ==>
              (Do(k, s).1 == Error(Inval) <==>
               || s.len > k.pipeCap || (s.len > 0 && !s.destOk)
               || (!s.copied && (s.len == 0 || k.pipe.queue != [] || !k.pipe.writerOpen)))
  {
    if s.DoWrite? {
      assert SlotOk(k, s.i);
      WriteInvalidExactly(k, s.i, s.src, s.copied);
    } else if s.DoRead? {
      assert SlotOk(k, s.i);
      ReadInvalidExactly(k, s.i, s.len, s.destOk, s.copied);
    }
  }

  // ----- What one call moves -----

  lemma ReaderHolds(k: State, i: nat)
    requires Inv(k) && AtPhase(k, i, InUser) && k.slots[i].stdin == Pipe.StdinPipe
    ensures k.pipe.live && k.pipe.readerOpen && k.pipe.rslot == i && k.pipe.rgen == k.slots[i].gen
    ensures k.pipe.accepted == k.pipe.delivered + k.pipe.queue
  {
    assert SlotOk(k, i);
  }

  lemma WriterHolds(k: State, i: nat)
    requires Inv(k) && AtPhase(k, i, InUser) && k.slots[i].stdout == Pipe.StdoutPipe
    ensures k.pipe.live && k.pipe.writerOpen && k.pipe.wslot == i && k.pipe.wgen == k.slots[i].gen
  {
    assert SlotOk(k, i);
  }

  /** A read of `len` bytes whose copies succeed returns the next bytes of the accepted stream: `len` of them
      if that many are undelivered, else all there are; with none it is told to try again while its
      writer is open, and the end of the stream after that. */
  lemma ReadAnswers(k: State, i: nat, len: nat)
    requires Inv(k) && AtPhase(k, i, InUser) && k.slots[i].stdin == Pipe.StdinPipe && 0 < len <= k.pipeCap
    ensures var (k', out) := ReadIn(k, i, len, true, true);
            var p, n := k.pipe, Pipe.Min(len, Pipe.Undelivered(k.pipe));
            if 0 < n then
              var bytes := p.accepted[|p.delivered|..|p.delivered| + n];
              out == Read(Pipe.Staged(bytes)) && k'.pipe.delivered == p.delivered + bytes
            else out == Read(if p.writerOpen then Pipe.Again else Pipe.EndOfStream) && k'.pipe.delivered == p.delivered
  {
    ReaderHolds(k, i);
    Pipe.StageTakes(k.pipe, i, k.slots[i].gen, len, k.pipeCap);
    ReadInKeeps(k, i, len, true, true);
    ReadStream(k, i, len, true, true);
  }

  /** A write whose bytes can be copied in is accepted as far as the undelivered bytes leave room, or refused
      because the reader has closed. */
  lemma WriteAnswers(k: State, i: nat, src: seq<Pipe.Byte>)
    requires Inv(k) && AtPhase(k, i, InUser) && k.slots[i].stdout == Pipe.StdoutPipe && 0 < |src| <= k.pipeCap
    ensures Pipe.Undelivered(k.pipe) <= k.pipeCap
    ensures var (k', out) := WriteOut(k, i, src, true);
            var n := Pipe.Min(|src|, k.pipeCap - Pipe.Undelivered(k.pipe));
            if k.pipe.readerOpen then
              out == Wrote(Pipe.Accepted(n)) && k'.pipe.accepted == k.pipe.accepted + src[..n]
            else out == Wrote(Pipe.BrokenReader) && k'.pipe == k.pipe
  {
    WriterHolds(k, i);
    assert |k.pipe.accepted| == |k.pipe.delivered| + |k.pipe.queue|;
    if k.pipe.readerOpen {
      Pipe.WriteTakes(k.pipe, i, k.slots[i].gen, src, k.pipeCap);
    }
    WriteOutKeeps(k, i, src, true);
  }

  /** No call returns more bytes than it was asked for, or accepts more than it was given. */
  lemma TransfersBounded(k: State, s: Step)
    requires Inv(k) && Enabled(k, s)
    ensures s.DoRead? ==> |Got(s, Do(k, s).1)| <= s.len
    ensures s.DoWrite? && Do(k, s).1.Wrote? && Do(k, s).1.w.Accepted? ==> Do(k, s).1.w.n <= |s.src|
  {
    if s.DoRead? {
      ReaderHolds(k, s.i);
      if s.len <= k.pipeCap {
        Pipe.StageTakes(k.pipe, s.i, k.slots[s.i].gen, s.len, k.pipeCap);
      }
    } else if s.DoWrite? {
      WriterHolds(k, s.i);
    }
  }
}

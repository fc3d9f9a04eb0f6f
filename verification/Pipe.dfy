/** The kernel-owned pipe of kernel/core/pipe.c.

    `PipeState` is the meaning of a pipe: a FIFO queue between two (slot, generation) owners,
    with the bytes accepted and delivered so far. The functions on it say what each entry point
    does to that meaning. `RingPipe` is the code's own form, a ring buffer with two indices and
    counters, and each of its methods is proved to do to the meaning what the function says.
 */
module Pipe {
  import opened Ring

  type Byte = bv8

  datatype StdinSel = StdinClosed | StdinKbd | StdinPipe | StdinFile
  datatype StdoutSel = StdoutSerial | StdoutPipe | StdoutFile

  /** What proc_slot_info reports about a process slot. */
  datatype SlotInfo = SlotInfo(gen: nat, stdin: StdinSel, stdout: StdoutSel, live: bool)

  /** `attached` and `released` count the rings taken and freed since boot; `accepted` and
      `delivered` are the bytes that crossed the current (or last) pipe. */
  datatype PipeState = PipeState(
    live: bool,
    queue: seq<Byte>,
    wslot: nat, wgen: nat, rslot: nat, rgen: nat,
    writerOpen: bool, readerOpen: bool,
    fullStalls: nat, emptyStalls: nat,
    accepted: seq<Byte>, delivered: seq<Byte>,
    attached: nat, released: nat)

  const NO_PIPE := PipeState(false, [], 0, 0, 0, 0, false, false, 0, 0, [], [], 0, 0)

  datatype WriteResult = Accepted(n: nat) | BrokenReader | WriteInvalid
  datatype StageResult = Staged(bytes: seq<Byte>) | EndOfStream | Again | StageInvalid

  /** The structural invariant of the pipe alone. */
  predicate Ok(p: PipeState, cap: nat) {
    && |p.queue| <= cap
    && p.delivered <= p.accepted
    && p.attached == p.released + (if p.live then 1 else 0)
    && (p.live ==>
          && p.wslot != p.rslot
          && 0 < p.wgen && 0 < p.rgen
          && (p.writerOpen || p.readerOpen)
          && p.accepted == p.delivered + p.queue)
    && (!p.live ==>
          && p.queue == []
          && !p.writerOpen && !p.readerOpen
          && p.wgen == 0 && p.rgen == 0)
  }

  /** pipe_check: an open endpoint sits on a live slot of the recorded generation and role. */
  predicate Check(p: PipeState, info: seq<SlotInfo>, cap: nat) {
    && |p.queue| <= cap
    && (!p.live ==>
          && p.queue == []
          && !p.readerOpen && !p.writerOpen
          && p.rgen == 0 && p.wgen == 0)
    && (p.live ==>
          && p.rslot < |info| && p.wslot < |info|
          && p.rslot != p.wslot
          && (p.readerOpen ==> info[p.rslot].live && info[p.rslot].gen == p.rgen && info[p.rslot].stdin == StdinPipe)
          && (p.writerOpen ==> info[p.wslot].live && info[p.wslot].gen == p.wgen && info[p.wslot].stdout == StdoutPipe))
  }

  predicate CanAttach(p: PipeState, slots: nat, wslot: nat, wgen: nat, rslot: nat, rgen: nat) {
    !p.live && wslot < slots && rslot < slots && wslot != rslot && wgen != 0 && rgen != 0
  }

  function Attach(p: PipeState, wslot: nat, wgen: nat, rslot: nat, rgen: nat): PipeState {
    PipeState(true, [], wslot, wgen, rslot, rgen, true, true, 0, 0, [], [], p.attached + 1, p.released)
  }

  function Write(p: PipeState, slot: nat, gen: nat, src: seq<Byte>, cap: nat): (PipeState, WriteResult) {
    if !p.live || |src| > cap || slot != p.wslot || gen != p.wgen || !p.writerOpen then (p, WriteInvalid)
    else if !p.readerOpen then (p, BrokenReader)
    else if src == [] then (p, Accepted(0))
    else if |p.queue| >= cap then (p.(fullStalls := p.fullStalls + 1), Accepted(0))
    else
      var n := if |src| < cap - |p.queue| then |src| else cap - |p.queue|;
      (p.(queue := p.queue + src[..n], accepted := p.accepted + src[..n]), Accepted(n))
  }

  function Stage(p: PipeState, slot: nat, gen: nat, len: nat, cap: nat): (PipeState, StageResult) {
    if !p.live || len > cap || slot != p.rslot || gen != p.rgen || !p.readerOpen then (p, StageInvalid)
    else if p.queue == [] then
      if p.writerOpen then (p.(emptyStalls := p.emptyStalls + 1), Again) else (p, EndOfStream)
    else if len == 0 then (p.(emptyStalls := p.emptyStalls + 1), Again)
    else (p, Staged(p.queue[..if len < |p.queue| then len else |p.queue|]))
  }

  function Commit(p: PipeState, n: nat): (PipeState, bool) {
    if !p.live || n > |p.queue| then (p, false)
    else (p.(queue := p.queue[n..], delivered := p.delivered + p.queue[..n]), true)
  }

  /** pipe_note_terminal. The flag is false for a second close by the same incarnation. */
  function NoteTerminal(p: PipeState, slot: nat, gen: nat): (PipeState, bool) {
    if !p.live then (p, true)
    else if slot == p.wslot then
      if gen != p.wgen then (p, true)
      else if !p.writerOpen then (p, false)
      else (Release(p.(writerOpen := false)), true)
    else if slot == p.rslot then
      if gen != p.rgen then (p, true)
      else if !p.readerOpen then (p, false)
      else (Release(p.(readerOpen := false)), true)
    else (p, true)
  }

  /** Both endpoints closed: buffered bytes go with the ring. */
  function Release(p: PipeState): PipeState {
    if p.readerOpen || p.writerOpen then p
    else p.(live := false, queue := [], rgen := 0, wgen := 0, released := p.released + 1)
  }

  // ----- Properties of the meaning -----

  /** One pipe operation of some caller. */
  datatype Op =
    | OpAttach(wslot: nat, wgen: nat, rslot: nat, rgen: nat)
    | OpWrite(slot: nat, gen: nat, src: seq<Byte>)
    | OpStage(slot: nat, gen: nat, len: nat)
    | OpCommit(n: nat)
    | OpTerminal(slot: nat, gen: nat)

  function Apply(p: PipeState, op: Op, slots: nat, cap: nat): PipeState {
    match op
    case OpAttach(ws, wg, rs, rg) => if CanAttach(p, slots, ws, wg, rs, rg) then Attach(p, ws, wg, rs, rg) else p
    case OpWrite(s, g, src) => Write(p, s, g, src, cap).0
    case OpStage(s, g, len) => Stage(p, s, g, len, cap).0
    case OpCommit(n) => Commit(p, n).0
    case OpTerminal(s, g) => NoteTerminal(p, s, g).0
  }

  /** `q` is a later state of the pipe than `p`. While no new ring was attached the streams only
      grow, a closed end stays closed, and nothing is accepted after either end closed. */
  predicate Later(p: PipeState, q: PipeState) {
    && p.attached <= q.attached
    && p.released <= q.released
    && (p.attached == q.attached ==>
          && (q.live ==> p.live)
          && p.accepted <= q.accepted
          && p.delivered <= q.delivered
          && p.wslot == q.wslot && p.rslot == q.rslot
          && (p.live && q.live ==> p.wgen == q.wgen && p.rgen == q.rgen)
          && (!p.writerOpen ==> !q.writerOpen)
          && (!p.readerOpen ==> !q.readerOpen)
          && (!p.writerOpen || !p.readerOpen ==> q.accepted == p.accepted))
  }

  lemma LaterSelf(p: PipeState)
    ensures Later(p, p)
  {
  }

  lemma LaterTransitive(p: PipeState, q: PipeState, r: PipeState)
    requires Later(p, q) && Later(q, r)
    ensures Later(p, r)
  {
    if p.attached == r.attached {
      assert p.accepted <= q.accepted <= r.accepted;
      assert p.delivered <= q.delivered <= r.delivered;
    }
  }

  lemma StepKeepsOk(p: PipeState, op: Op, slots: nat, cap: nat)
    requires Ok(p, cap)
    ensures Ok(Apply(p, op, slots, cap), cap)
  {
    match op
    case OpWrite(s, g, src) =>
      var q := Apply(p, op, slots, cap);
      if q.accepted != p.accepted {
        var n := |q.accepted| - |p.accepted|;
        assert p.delivered + (p.queue + src[..n]) == (p.delivered + p.queue) + src[..n];
      }
    case OpCommit(n) =>
      if p.live && n <= |p.queue| {
        assert p.queue == p.queue[..n] + p.queue[n..];
        assert (p.delivered + p.queue[..n]) + p.queue[n..] == p.delivered + p.queue;
      }
    case _ =>
  }

  lemma StepLater(p: PipeState, op: Op, slots: nat, cap: nat)
    requires Ok(p, cap)
    ensures Later(p, Apply(p, op, slots, cap))
  {
  }

  /** A run of pipe operations, in any order and by any callers. */
  predicate IsRun(states: seq<PipeState>, ops: seq<Op>, slots: nat, cap: nat) {
    && |states| == |ops| + 1
    && Ok(states[0], cap)
    && forall i :: 0 <= i < |ops| ==> states[i + 1] == Apply(states[i], ops[i], slots, cap)
  }

  lemma {:induction false} RunOk(states: seq<PipeState>, ops: seq<Op>, slots: nat, cap: nat, i: nat, j: nat)
    requires IsRun(states, ops, slots, cap) && i <= j < |states|
    ensures Ok(states[i], cap) && Ok(states[j], cap)
    ensures Later(states[i], states[j])
    decreases j
  {
    if j == 0 {
    } else if i == j {
      RunOk(states, ops, slots, cap, j - 1, j - 1);
      StepKeepsOk(states[j - 1], ops[j - 1], slots, cap);
      StepLater(states[j - 1], ops[j - 1], slots, cap);
    } else {
      RunOk(states, ops, slots, cap, i, j - 1);
      StepKeepsOk(states[j - 1], ops[j - 1], slots, cap);
      StepLater(states[j - 1], ops[j - 1], slots, cap);
      LaterTransitive(states[i], states[j - 1], states[j]);
    }
  }

  /** Lossless FIFO over whole runs: what the reader has committed is a prefix of what the writer
      was told was accepted, and the missing part is exactly what is queued. */
  lemma FifoOverRuns(states: seq<PipeState>, ops: seq<Op>, slots: nat, cap: nat, i: nat)
    requires IsRun(states, ops, slots, cap) && i < |states|
    requires states[i].live
    ensures states[i].delivered <= states[i].accepted
    ensures states[i].queue == states[i].accepted[|states[i].delivered|..]
    ensures |states[i].accepted| == |states[i].delivered| + |states[i].queue|
  {
    RunOk(states, ops, slots, cap, i, i);
  }

  /** The bytes accepted and not yet delivered. */
  function Undelivered(p: PipeState): nat {
    if |p.delivered| <= |p.accepted| then |p.accepted| - |p.delivered| else 0
  }

  function Min(a: nat, b: nat): nat {
    if a < b then a else b
  }

  /** A stage hands over the bytes that come next in the accepted stream, as many as were asked for or as
      many as there are; it moves nothing, and counts a stall exactly when it answers try-again. */
  lemma StageTakes(p: PipeState, slot: nat, gen: nat, len: nat, cap: nat)
    requires Ok(p, cap) && p.live && p.readerOpen && slot == p.rslot && gen == p.rgen && len <= cap
    ensures var (q, r) := Stage(p, slot, gen, len, cap);
            var n := Min(len, Undelivered(p));
            && q.(emptyStalls := p.emptyStalls) == p && q.emptyStalls == p.emptyStalls + (if r == Again then 1 else 0)
            && (0 < n ==> r == Staged(p.accepted[|p.delivered|..|p.delivered| + n]))
            && (n == 0 ==> r == if Undelivered(p) == 0 && !p.writerOpen then EndOfStream else Again)
  {
    assert |p.accepted| == |p.delivered| + |p.queue|;
    var n := Min(len, Undelivered(p));
    assert p.queue[..n] == p.accepted[|p.delivered|..|p.delivered| + n];
  }

  /** A write is accepted as far as the capacity left by the undelivered bytes allows, and the accepted
      stream grows by exactly that prefix; a stall is counted exactly when nothing fits. */
  lemma WriteTakes(p: PipeState, slot: nat, gen: nat, src: seq<Byte>, cap: nat)
    requires Ok(p, cap) && p.live && p.writerOpen && slot == p.wslot && gen == p.wgen && |src| <= cap && p.readerOpen
    ensures Undelivered(p) <= cap
    ensures var (q, r) := Write(p, slot, gen, src, cap);
            var n := Min(|src|, cap - Undelivered(p));
            && r == Accepted(n) && q.accepted == p.accepted + src[..n] && q.delivered == p.delivered
            && q.(accepted := p.accepted, queue := p.queue, fullStalls := p.fullStalls) == p
            && q.fullStalls == p.fullStalls + (if src != [] && n == 0 then 1 else 0)
  {
    assert |p.accepted| == |p.delivered| + |p.queue|;
    assert p.accepted + src[..0] == p.accepted;
  }

  /** A stage that is not committed loses nothing: staging again gives the same bytes, and
      committing them delivers exactly those bytes, next in order. */
  lemma StageThenCommit(p: PipeState, slot: nat, gen: nat, len: nat, cap: nat)
    requires Ok(p, cap)
    requires Stage(p, slot, gen, len, cap).1.Staged?
    ensures var bytes := Stage(p, slot, gen, len, cap).1.bytes;
            var q := Stage(p, slot, gen, len, cap).0;
            && bytes != []
            && Stage(q, slot, gen, len, cap).1 == Staged(bytes)
            && Commit(q, |bytes|).1
            && Commit(q, |bytes|).0.delivered == p.delivered + bytes
            && p.accepted == p.delivered + bytes + Commit(q, |bytes|).0.queue
  {
    var bytes := Stage(p, slot, gen, len, cap).1.bytes;
    assert p.queue == bytes + p.queue[|bytes|..];
  }

  /** The reader is told end of stream exactly when its writer has closed and every accepted byte
      has been delivered. */
  lemma EndOfStreamExactly(p: PipeState, slot: nat, gen: nat, len: nat, cap: nat)
    requires Ok(p, cap)
    ensures Stage(p, slot, gen, len, cap).1 == EndOfStream <==>
            p.live && p.readerOpen && slot == p.rslot && gen == p.rgen && len <= cap &&
            !p.writerOpen && p.delivered == p.accepted
  {
    if p.live {
      assert p.delivered == p.accepted <==> p.queue == [] by {
        assert |p.accepted| == |p.delivered| + |p.queue|;
      }
    }
  }

  /** End of stream is final: once seen, every later stage of the same pipe by its open reader
      sees it again. */
  lemma EndOfStreamStays(p: PipeState, q: PipeState, cap: nat, slot: nat, gen: nat, len: nat, len': nat)
    requires Ok(p, cap) && Ok(q, cap) && Later(p, q) && q.attached == p.attached
    requires Stage(p, slot, gen, len, cap).1 == EndOfStream
    requires q.readerOpen && len' <= cap
    ensures Stage(q, slot, gen, len', cap).1 == EndOfStream
  {
    EndOfStreamExactly(p, slot, gen, len, cap);
    EndOfStreamExactly(q, slot, gen, len', cap);
    assert |q.accepted| == |q.delivered| + |q.queue|;
  }

  /** From the moment the reader has closed, every write of that pipe's open writer is refused as
      broken. */
  lemma BrokenReaderStays(p: PipeState, q: PipeState, cap: nat, src: seq<Byte>)
    requires Ok(p, cap) && Ok(q, cap) && Later(p, q) && q.attached == p.attached
    requires p.live && !p.readerOpen && q.writerOpen && |src| <= cap
    ensures Write(q, p.wslot, p.wgen, src, cap) == (q, BrokenReader)
  {
  }

  /** With both ends open a full stall and an empty stall never hold in the same state, so the
      two sides cannot wait for each other. */
  lemma NeverBothStalled(p: PipeState, cap: nat, src: seq<Byte>, len: nat)
    requires Ok(p, cap) && p.live && p.writerOpen && p.readerOpen
    requires 0 < |src| <= cap && 0 < len <= cap
    ensures !(Write(p, p.wslot, p.wgen, src, cap).1 == Accepted(0)
              && Stage(p, p.rslot, p.rgen, len, cap).1 == Again)
  {
    if Write(p, p.wslot, p.wgen, src, cap).1 == Accepted(0) {
      assert |p.queue| >= cap;
    }
  }

  // ----- The ring -----

  /** Ring index and number of laps after `n` bytes, advanced byte by byte as the code does. */
  function Pos(n: nat, cap: nat): nat {
    if n == 0 || Pos(n - 1, cap) + 1 == cap then 0 else Pos(n - 1, cap) + 1
  }

  function Laps(n: nat, cap: nat): nat {
    if n == 0 then 0
    else if Pos(n - 1, cap) + 1 == cap then Laps(n - 1, cap) + 1
    else Laps(n - 1, cap)
  }

  /** One place further on the ring and on the line. */
  lemma CursorStep(r: nat, c: nat, n: nat, cap: nat)
    requires r < cap && c < cap && At(r, c, cap) == Pos(n, cap)
    ensures var w, wraps := Pos(n, cap), Pos(n, cap) + 1 == cap;
            && w < cap
            && At(r, c + 1, cap) == Pos(n + 1, cap) == (if wraps then 0 else w + 1)
            && Laps(n + 1, cap) == Laps(n, cap) + (if wraps then 1 else 0)
  {
  }

  lemma {:induction false} PosLapsSplit(n: nat, cap: nat)
    requires 0 < cap
    ensures Pos(n, cap) < cap
    ensures n == Laps(n, cap) * cap + Pos(n, cap)
  {
    if n != 0 {
      PosLapsSplit(n - 1, cap);
      var l := Laps(n - 1, cap);
      assert (l + 1) * cap == l * cap + cap;
    }
  }

  /** The byte-by-byte wrap is division with remainder by the capacity. */
  lemma PosLapsAreDivMod(n: nat, cap: nat)
    requires 0 < cap
    ensures Pos(n, cap) == n % cap && Laps(n, cap) == n / cap
  {
    PosLapsSplit(n, cap);
    DivModIs(n, cap, Laps(n, cap), Pos(n, cap));
  }

  /** The globals of pipe.c other than the ring storage. */
  datatype Regs = Regs(
    live: bool, rpos: nat, wpos: nat, count: nat,
    rslot: nat, wslot: nat, rgen: nat, wgen: nat,
    readerOpen: bool, writerOpen: bool,
    fullStalls: nat, emptyStalls: nat, turns: nat,
    totalWritten: nat, totalRead: nat)

  /** The fields shared by the code and the meaning agree. */
  predicate Agree(g: Regs, p: PipeState) {
    && g.live == p.live && g.count == |p.queue|
    && g.rslot == p.rslot && g.wslot == p.wslot && g.rgen == p.rgen && g.wgen == p.wgen
    && g.readerOpen == p.readerOpen && g.writerOpen == p.writerOpen
    && g.fullStalls == p.fullStalls && g.emptyStalls == p.emptyStalls
    && g.totalWritten == |p.accepted| && g.totalRead == |p.delivered|
  }

  /** Indices and lap counter are what the byte counts say. */
  predicate Placed(g: Regs, cap: nat) {
    && g.rpos < cap && g.wpos < cap
    && (!g.live ==> g.rpos == 0 && g.wpos == 0)
    && (g.live ==>
          && g.count <= cap
          && g.rpos == Pos(g.totalRead, cap)
          && g.wpos == Pos(g.totalWritten, cap)
          && g.wpos == At(g.rpos, g.count, cap)
          && g.turns == Laps(g.totalWritten, cap) + Laps(g.totalRead, cap))
  }

  /** The ring holds `queue` from index `rpos` on. */
  predicate Holds(buf: seq<Byte>, rpos: nat, queue: seq<Byte>, cap: nat) {
    && |buf| == cap && rpos < cap && |queue| <= cap
    && forall i :: 0 <= i < |queue| ==> buf[At(rpos, i, cap)] == queue[i]
  }

  lemma HoldsPush(buf: seq<Byte>, rpos: nat, queue: seq<Byte>, cap: nat, b: Byte)
    requires Holds(buf, rpos, queue, cap) && |queue| < cap
    ensures Holds(buf[At(rpos, |queue|, cap) := b], rpos, queue + [b], cap)
  {
    var w := At(rpos, |queue|, cap);
    forall i | 0 <= i < |queue|
      ensures At(rpos, i, cap) != w
    {
    }
  }

  lemma HoldsPop(buf: seq<Byte>, rpos: nat, queue: seq<Byte>, cap: nat, n: nat)
    requires Holds(buf, rpos, queue, cap) && n <= |queue|
    ensures n < cap ==> Holds(buf, At(rpos, n, cap), queue[n..], cap)
    ensures n == cap ==> At(rpos, n, cap) == rpos && queue[n..] == []
  {
    if n < cap {
      forall i | 0 <= i < |queue| - n
        ensures At(At(rpos, n, cap), i, cap) == At(rpos, n + i, cap)
      {
      }
    }
  }

  /** The write cursor while bytes are copied in: the ring holds `queue`, and index and lap counter are
      those of its end. */
  ghost predicate Writing(buf: seq<Byte>, g: Regs, queue: seq<Byte>, w: nat, t: nat, cap: nat) {
    && Holds(buf, g.rpos, queue, cap) && g.count <= |queue|
    && w == At(g.rpos, |queue|, cap) == Pos(g.totalWritten + (|queue| - g.count), cap) < cap
    && t == Laps(g.totalWritten + (|queue| - g.count), cap) + Laps(g.totalRead, cap)
  }

  lemma WritingStep(buf: seq<Byte>, g: Regs, queue: seq<Byte>, w: nat, t: nat, cap: nat, b: Byte)
    requires Writing(buf, g, queue, w, t, cap) && |queue| < cap
    ensures if w + 1 == cap then Writing(buf[w := b], g, queue + [b], 0, t + 1, cap)
            else Writing(buf[w := b], g, queue + [b], w + 1, t, cap)
  {
    HoldsPush(buf, g.rpos, queue, cap, b);
    CursorStep(g.rpos, |queue|, g.totalWritten + (|queue| - g.count), cap);
  }

  /** An open end with this owner and role is backed by the process table. */
  predicate Reads(info: seq<SlotInfo>, slot: nat, gen: nat) {
    slot < |info| && info[slot].live && info[slot].gen == gen && info[slot].stdin == StdinPipe
  }

  predicate Writes(info: seq<SlotInfo>, slot: nat, gen: nat) {
    slot < |info| && info[slot].live && info[slot].gen == gen && info[slot].stdout == StdoutPipe
  }

  /** What pipe_check asks of the registers alone: indices inside the ring, a ring exactly while live,
      two distinct owners, every open end backed, and nothing retained by a free pipe. */
  predicate Sound(g: Regs, hasRing: bool, info: seq<SlotInfo>, cap: nat) {
    && g.rpos < cap && g.wpos < cap && g.count <= cap
    && (hasRing <==> g.live)
    && (g.live ==> g.rslot < |info| && g.wslot < |info| && g.rslot != g.wslot)
    && (g.readerOpen ==> g.live && Reads(info, g.rslot, g.rgen))
    && (g.writerOpen ==> g.live && Writes(info, g.wslot, g.wgen))
    && (!g.live ==> g.rpos == g.wpos == g.count == g.rgen == g.wgen == 0)
  }

  lemma Conserves(accepted: seq<Byte>, delivered: seq<Byte>, queue: seq<Byte>, more: seq<Byte>)
    requires accepted == delivered + queue
    ensures accepted + more == delivered + (queue + more) && delivered <= accepted + more
  {
  }

  lemma Delivers(accepted: seq<Byte>, delivered: seq<Byte>, queue: seq<Byte>, n: nat)
    requires accepted == delivered + queue && n <= |queue|
    ensures accepted == delivered + queue[..n] + queue[n..] && delivered + queue[..n] <= accepted
  {
  }

  class RingPipe {
    const cap: nat
    var g: Regs
    var ring: array?<Byte>
    ghost var meaning: PipeState

    /** The ring holds the queue, and every index and counter is what the byte streams say. */
    ghost predicate Valid()
      reads this, ring
    {
      && 0 < cap
      && Ok(meaning, cap)
      && Agree(g, meaning)
      && Placed(g, cap)
      && (g.live <==> ring != null)
      && (g.live ==> Holds(ring[..], g.rpos, meaning.queue, cap))
    }

    constructor (cap: nat)
      requires 0 < cap
      ensures Valid() && meaning == NO_PIPE && this.cap == cap
    {
      this.cap := cap;
      g := Regs(false, 0, 0, 0, 0, 0, 0, 0, false, false, 0, 0, 0, 0, 0);
      ring := null;
      meaning := NO_PIPE;
    }

    /** pipe_check, in any state whatever: it passes exactly the sound registers, and on a valid pipe
        it decides `Check`. */
    method PipeCheck(info: seq<SlotInfo>) returns (ok: bool)
      ensures ok <==> Sound(g, ring != null, info, cap)
      ensures Valid() ==> (ok <==> Check(meaning, info, cap))
    {
      if g.count > cap || g.rpos >= cap || g.wpos >= cap { return false; }
      if !g.live {
        return ring == null && g.count == 0 && g.rpos == 0 && g.wpos == 0 &&
               !g.readerOpen && !g.writerOpen && g.rgen == 0 && g.wgen == 0;
      }
      if ring == null || g.rslot >= |info| || g.wslot >= |info| || g.rslot == g.wslot { return false; }
      if g.readerOpen {
        var s := info[g.rslot];
        if !s.live || s.gen != g.rgen || s.stdin != StdinPipe { return false; }
      }
      if g.writerOpen {
        var s := info[g.wslot];
        if !s.live || s.gen != g.wgen || s.stdout != StdoutPipe { return false; }
      }
      return true;
    }

    /** pipe_attach. `halted`: attach_check failed. */
    method PipeAttach(r: array<Byte>, info: seq<SlotInfo>, ws: nat, wg: nat, rs: nat, rg: nat)
      returns (ok: bool, halted: bool)
      requires Valid() && r.Length == cap
      modifies this
      ensures Valid()
      ensures ok == CanAttach(old(meaning), |info|, ws, wg, rs, rg)
      ensures meaning == if ok then Attach(old(meaning), ws, wg, rs, rg) else old(meaning)
      ensures ring == if ok then r else old(ring)
      ensures halted <==> ok && !Check(meaning, info, cap)
    {
      if g.live || ring != null || ws >= |info| || rs >= |info| || ws == rs || wg == 0 || rg == 0 { return false, false; }
      StepKeepsOk(meaning, OpAttach(ws, wg, rs, rg), |info|, cap);
      ring := r;
      g := Regs(true, 0, 0, 0, rs, ws, rg, wg, true, true, 0, 0, 0, 0, 0);
      meaning := Attach(meaning, ws, wg, rs, rg);
      var passed := PipeCheck(info);
      return true, !passed;
    }

    /** pipe_write: bytes go to the ring one by one, wrapping at the end. `halted`: write_check failed. */
    method PipeWrite(slot: nat, gen: nat, src: seq<Byte>, info: seq<SlotInfo>)
      returns (r: WriteResult, halted: bool)
      requires Valid()
      modifies this, ring
      ensures Valid() && ring == old(ring)
      ensures (meaning, r) == Write(old(meaning), slot, gen, src, cap)
      ensures halted <==> r.Accepted? && r.n > 0 && !Check(meaning, info, cap)
    {
      if !g.live || |src| > cap || slot != g.wslot || gen != g.wgen || !g.writerOpen { return WriteInvalid, false; }
      if !g.readerOpen { return BrokenReader, false; }
      var space := cap - g.count;
      if space == 0 || src == [] {
        if src == [] { return Accepted(0), false; }
        g := g.(fullStalls := g.fullStalls + 1);
        meaning := meaning.(fullStalls := g.fullStalls);
        return Accepted(0), false;
      }
      var n := if |src| < space then |src| else space;
      Push(src, n);
      var passed := PipeCheck(info);
      return Accepted(n), !passed;
    }

    /** The effect of pipe_write once it knows how many bytes fit. */
    method Push(src: seq<Byte>, n: nat)
      requires Valid() && g.live && n <= |src| && n <= cap - g.count
      modifies this, ring
      ensures Valid() && ring == old(ring)
      ensures meaning == old(meaning).(queue := old(meaning).queue + src[..n], accepted := old(meaning).accepted + src[..n])
    {
      CopyIn(src, n, meaning.queue);
      g := g.(count := g.count + n, totalWritten := g.totalWritten + n);
      Conserves(meaning.accepted, meaning.delivered, meaning.queue, src[..n]);
      meaning := meaning.(queue := meaning.queue + src[..n], accepted := meaning.accepted + src[..n]);
    }

    /** The byte loop of pipe_write: only the ring, its write index and the lap counter move. */
    method CopyIn(src: seq<Byte>, n: nat, ghost queue: seq<Byte>)
      requires ring != null && g.live && Placed(g, cap) && |queue| == g.count && n <= |src| && n <= cap - g.count
      requires Holds(ring[..], g.rpos, queue, cap)
      modifies this`g, ring
      ensures Holds(ring[..], g.rpos, queue + src[..n], cap)
      ensures g == old(g).(wpos := At(g.rpos, g.count + n, cap), turns := Laps(g.totalWritten + n, cap) + Laps(g.totalRead, cap))
      ensures g.wpos == Pos(g.totalWritten + n, cap) < cap
    {
      var i: nat, w: nat, t: nat := 0, g.wpos, g.turns;
      assert queue + src[..0] == queue;
      while i < n
        invariant 0 <= i <= n && g == old(g)
        invariant Writing(ring[..], g, queue + src[..i], w, t, cap)
      {
        w, t := StoreByte(w, t, src[i], queue + src[..i]);
        assert queue + src[..i] + [src[i]] == queue + src[..i + 1];
        i := i + 1;
      }
      g := g.(wpos := w, turns := t);
    }

    /** One byte at the write cursor, which wraps at the end of the ring. */
    method StoreByte(w: nat, t: nat, b: Byte, ghost queue: seq<Byte>) returns (w': nat, t': nat)
      requires ring != null && Writing(ring[..], g, queue, w, t, cap) && |queue| < cap
      modifies ring
      ensures Writing(ring[..], g, queue + [b], w', t', cap)
    {
      WritingStep(ring[..], g, queue, w, t, cap, b);
      ghost var buf := ring[..];
      ring[w] := b;
      assert ring[..] == buf[w := b];
      w', t' := w + 1, t;
      if w' == cap {
        w', t' := 0, t + 1;
      }
    }

    /** pipe_read_stage: copies out of the ring without moving an index. */
    method PipeReadStage(slot: nat, gen: nat, len: nat) returns (r: StageResult)
      requires Valid()
      modifies this`g, this`meaning
      ensures Valid()
      ensures (meaning, r) == Stage(old(meaning), slot, gen, len, cap)
    {
      if !g.live || len > cap || slot != g.rslot || gen != g.rgen || !g.readerOpen { return StageInvalid; }
      if g.count == 0 {
        if g.writerOpen {
          g := g.(emptyStalls := g.emptyStalls + 1);
          meaning := meaning.(emptyStalls := g.emptyStalls);
          return Again;
        }
        return EndOfStream;
      }
      var take := if len < g.count then len else g.count;
      if take == 0 {
        g := g.(emptyStalls := g.emptyStalls + 1);
        meaning := meaning.(emptyStalls := g.emptyStalls);
        return Again;
      }
      var dst := CopyOut(take);
      return Staged(dst);
    }

    method CopyOut(take: nat) returns (dst: seq<Byte>)
      requires Valid() && g.live && take <= g.count
      ensures dst == meaning.queue[..take]
    {
      dst := [];
      var i := 0;
      while i < take
        invariant 0 <= i <= take && dst == meaning.queue[..i]
      {
        ModOnce(g.rpos, i, cap);
        assert ring[..][At(g.rpos, i, cap)] == meaning.queue[i];
        dst := dst + [ring[(g.rpos + i) % cap]];
        i := i + 1;
      }
    }

    /** pipe_read_commit. `halted`: commit_check failed. */
    method PipeReadCommit(n: nat, info: seq<SlotInfo>) returns (ok: bool, halted: bool)
      requires Valid()
      modifies this
      ensures Valid() && ring == old(ring)
      ensures (meaning, ok) == Commit(old(meaning), n)
      ensures halted <==> ok && !Check(meaning, info, cap)
    {
      if !g.live || n > g.count || n > cap || g.rpos >= cap { return false, false; }
      Drop(n);
      var passed := PipeCheck(info);
      return true, !passed;
    }

    /** The effect of pipe_read_commit. */
    method Drop(n: nat)
      requires Valid() && g.live && n <= g.count
      modifies this
      ensures Valid() && ring == old(ring)
      ensures meaning == old(meaning).(queue := old(meaning).queue[n..], delivered := old(meaning).delivered + old(meaning).queue[..n])
    {
      HoldsPop(ring[..], g.rpos, meaning.queue, cap, n);
      Delivers(meaning.accepted, meaning.delivered, meaning.queue, n);
      Advance(n);
      g := g.(count := g.count - n, totalRead := g.totalRead + n);
      meaning := meaning.(queue := meaning.queue[n..], delivered := meaning.delivered + meaning.queue[..n]);
    }

    /** The index loop of pipe_read_commit. */
    method Advance(n: nat)
      requires g.live && Placed(g, cap) && n <= g.count
      modifies this`g
      ensures g == old(g).(rpos := At(old(g.rpos), n, cap), turns := Laps(g.totalWritten, cap) + Laps(g.totalRead + n, cap))
      ensures g.rpos == Pos(g.totalRead + n, cap) < cap
    {
      var i, r, t := 0, g.rpos, g.turns;
      while i < n
        invariant 0 <= i <= n && g == old(g)
        invariant r == At(g.rpos, i, cap) == Pos(g.totalRead + i, cap) < cap
        invariant t == Laps(g.totalWritten, cap) + Laps(g.totalRead + i, cap)
      {
        CursorStep(g.rpos, i, g.totalRead + i, cap);
        r := r + 1;
        if r == cap {
          r, t := 0, t + 1;
        }
        i := i + 1;
      }
      g := g.(rpos := r, turns := t);
    }

    /** pipe_note_terminal: closes the owned end; the second close gives the ring back. `halted`:
        close_check failed. */
    method PipeNoteTerminal(slot: nat, gen: nat, info: seq<SlotInfo>) returns (ok: bool, halted: bool)
      requires Valid()
      modifies this
      ensures Valid()
      ensures (meaning, ok) == NoteTerminal(old(meaning), slot, gen)
      ensures ring == if meaning.released == old(meaning).released then old(ring) else null
      ensures halted <==> meaning != old(meaning) && !Check(meaning, info, cap)
    {
      if !g.live { return true, false; }
      StepKeepsOk(meaning, OpTerminal(slot, gen), 0, cap);
      if slot == g.wslot {
        if gen != g.wgen { return true, false; }
        if !g.writerOpen { return false, false; }
        g := g.(writerOpen := false);
      } else if slot == g.rslot {
        if gen != g.rgen { return true, false; }
        if !g.readerOpen { return false, false; }
        g := g.(readerOpen := false);
      } else {
        return true, false;
      }
      meaning := NoteTerminal(meaning, slot, gen).0;
      if !g.readerOpen && !g.writerOpen {
        ring := null;
        g := g.(rpos := 0, wpos := 0, count := 0, rgen := 0, wgen := 0, live := false);
      }
      var passed := PipeCheck(info);
      return true, !passed;
    }
  }
}

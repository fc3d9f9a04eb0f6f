/** The keyboard input stream of kernel/drivers/keyboard.c: an interrupt handler queues scan codes
    in a ring that drops the newest byte when full, every loss advances an epoch that is stamped on
    later samples, and the consumer reports one loss whenever the epoch it sees has moved. */
module Keyboard {
  import opened Ring

  type Scan = bv8

  const COUNTER_MAX: nat := 0xFFFF_FFFF_FFFF_FFFF

  datatype Sample = Sample(epoch: nat, scan: Scan)

  /** What arrived, and what the consumer was told: a byte, or a loss. */
  datatype Token = Byte(scan: Scan) | Lost

  // ----- Streams up to repeated losses -----

  function Append(c: seq<Token>, x: Token): seq<Token> {
    if x == Lost && c != [] && c[|c| - 1] == Lost then c else c + [x]
  }

  /** The stream with adjacent losses merged into one. */
  function Collapse(h: seq<Token>): seq<Token> {
    if h == [] then [] else Append(Collapse(h[..|h| - 1]), h[|h| - 1])
  }

  function Losses(h: seq<Token>): nat {
    if h == [] then 0 else Losses(h[..|h| - 1]) + (if h[|h| - 1] == Lost then 1 else 0)
  }

  function LostRun(n: nat): seq<Token> {
    if n == 0 then [] else LostRun(n - 1) + [Lost]
  }

  /** What of the history is still to be delivered: before each queued byte the losses between its
      epoch and the one before, and after the last the losses up to the current epoch. */
  function Pending(queue: seq<Sample>, seen: nat, epoch: nat): seq<Token>
    requires Ordered(queue, seen, epoch)
  {
    if queue == [] then LostRun(epoch - seen)
    else LostRun(queue[0].epoch - seen) + [Byte(queue[0].scan)] + Pending(queue[1..], queue[0].epoch, epoch)
  }

  /** Queued epochs never decrease, from the consumer's epoch to the current one. */
  predicate Ordered(queue: seq<Sample>, seen: nat, epoch: nat) {
    if queue == [] then seen <= epoch
    else seen <= queue[0].epoch && Ordered(queue[1..], queue[0].epoch, epoch)
  }

  lemma CollapseStep(h: seq<Token>, x: Token)
    ensures Collapse(h + [x]) == Append(Collapse(h), x)
  {
    assert (h + [x])[..|h|] == h;
  }

  lemma LossesStep(h: seq<Token>, x: Token)
    ensures Losses(h + [x]) == Losses(h) + (if x == Lost then 1 else 0)
  {
    assert (h + [x])[..|h|] == h;
  }

  lemma {:induction false} CollapseGrows(h: seq<Token>, r: seq<Token>)
    ensures Collapse(h) <= Collapse(h + r)
    decreases |r|
  {
    if r == [] {
      assert h + r == h;
    } else {
      var r' := r[..|r| - 1];
      CollapseGrows(h, r');
      assert h + r == (h + r') + [r[|r| - 1]];
      CollapseStep(h + r', r[|r| - 1]);
    }
  }

  lemma {:induction false} CollapseLostRun(h: seq<Token>, n: nat)
    requires 0 < n
    ensures Collapse(h + LostRun(n)) == Append(Collapse(h), Lost)
  {
    assert h + LostRun(n) == (h + LostRun(n - 1)) + [Lost];
    CollapseStep(h + LostRun(n - 1), Lost);
    if n == 1 {
      assert h + LostRun(0) == h;
    } else {
      CollapseLostRun(h, n - 1);
    }
  }

  lemma {:induction false} PendingByte(queue: seq<Sample>, seen: nat, epoch: nat, scan: Scan)
    requires Ordered(queue, seen, epoch)
    ensures Ordered(queue + [Sample(epoch, scan)], seen, epoch)
    ensures Pending(queue + [Sample(epoch, scan)], seen, epoch) == Pending(queue, seen, epoch) + [Byte(scan)]
    decreases |queue|
  {
    var q := queue + [Sample(epoch, scan)];
    if queue == [] {
      assert q == [Sample(epoch, scan)] && q[1..] == [];
      assert LostRun(epoch - epoch) == [];
    } else {
      var at, rest := queue[0].epoch, queue[1..];
      assert q[0] == queue[0] && q[1..] == rest + [Sample(epoch, scan)];
      PendingByte(rest, at, epoch, scan);
      AppendMore(LostRun(at - seen) + [Byte(queue[0].scan)], Pending(rest, at, epoch), [Byte(scan)]);
    }
  }

  lemma {:induction false} PendingLoss(queue: seq<Sample>, seen: nat, epoch: nat)
    requires Ordered(queue, seen, epoch)
    ensures Ordered(queue, seen, epoch + 1)
    ensures Pending(queue, seen, epoch + 1) == Pending(queue, seen, epoch) + [Lost]
    decreases |queue|
  {
    if queue != [] {
      PendingLoss(queue[1..], queue[0].epoch, epoch);
    }
  }

  /** The epoch the consumer compares with its own. */
  function HeadEpoch(queue: seq<Sample>, epoch: nat): nat {
    if queue == [] then epoch else queue[0].epoch
  }

  lemma PendingCatchUp(queue: seq<Sample>, seen: nat, epoch: nat)
    requires Ordered(queue, seen, epoch)
    ensures seen <= HeadEpoch(queue, epoch)
    ensures Ordered(queue, HeadEpoch(queue, epoch), epoch)
    ensures Pending(queue, seen, epoch) == LostRun(HeadEpoch(queue, epoch) - seen) + Pending(queue, HeadEpoch(queue, epoch), epoch)
  {
    assert LostRun(0) == [];
  }

  // ----- The meaning of the input stream -----

  /** `history` is what the hardware handed over, `done` the part of it already delivered, `output`
      what the consumer was told. */
  datatype Stream = Stream(queue: seq<Sample>, epoch: nat, seen: nat,
                           history: seq<Token>, done: seq<Token>, output: seq<Token>)

  predicate Ok(s: Stream) {
    && Ordered(s.queue, s.seen, s.epoch)
    && s.history == s.done + Pending(s.queue, s.seen, s.epoch)
    && Collapse(s.output) == Collapse(s.done)
    && Losses(s.output) <= s.seen
    && Losses(s.history) == s.epoch
  }

  const EMPTY := Stream([], 0, 0, [], [], [])

  function Arrive(s: Stream, scan: Scan): Stream {
    s.(queue := s.queue + [Sample(s.epoch, scan)], history := s.history + [Byte(scan)])
  }

  function Drop(s: Stream): Stream {
    s.(epoch := s.epoch + 1, history := s.history + [Lost])
  }

  /** The consumer is told of a loss and catches up with epoch `e`. */
  function Marked(s: Stream, e: nat): Stream {
    s.(seen := e, output := s.output + [Lost], done := s.done + LostRun(if e > s.seen then e - s.seen else 0))
  }

  /** One poll: a loss if the epoch moved, else the next byte, else nothing. */
  function Poll(s: Stream): (Stream, seq<Token>) {
    var e := HeadEpoch(s.queue, s.epoch);
    if e != s.seen then
      (Marked(s, e), [Lost])
    else if s.queue == [] then (s, [])
    else
      var b := Byte(s.queue[0].scan);
      (s.(queue := s.queue[1..], output := s.output + [b], done := s.done + [b]), [b])
  }

  lemma ArriveKeepsOk(s: Stream, scan: Scan)
    requires Ok(s)
    ensures Ok(Arrive(s, scan))
  {
    PendingByte(s.queue, s.seen, s.epoch, scan);
    LossesStep(s.history, Byte(scan));
  }

  lemma DropKeepsOk(s: Stream)
    requires Ok(s)
    ensures Ok(Drop(s))
  {
    PendingLoss(s.queue, s.seen, s.epoch);
    LossesStep(s.history, Lost);
  }

  /** A marker stands for all losses up to the next byte's epoch. */
  lemma CatchUpConserves(queue: seq<Sample>, seen: nat, epoch: nat, done: seq<Token>)
    requires Ordered(queue, seen, epoch)
    ensures var e := HeadEpoch(queue, epoch);
            && seen <= e && Ordered(queue, e, epoch)
            && done + Pending(queue, seen, epoch) == done + LostRun(e - seen) + Pending(queue, e, epoch)
  {
    var e := HeadEpoch(queue, epoch);
    PendingCatchUp(queue, seen, epoch);
    AppendMore(done, LostRun(e - seen), Pending(queue, e, epoch));
  }

  lemma PollLostKeepsOk(s: Stream)
    requires Ok(s) && HeadEpoch(s.queue, s.epoch) != s.seen
    ensures Ok(Poll(s).0)
  {
    var e := HeadEpoch(s.queue, s.epoch);
    CatchUpConserves(s.queue, s.seen, s.epoch, s.done);
    MarkedKeepsOk(s, e);
  }

  lemma MarkedKeepsOk(s: Stream, e: nat)
    requires Ok(s) && s.seen < e && Ordered(s.queue, e, s.epoch)
    requires s.history == s.done + LostRun(e - s.seen) + Pending(s.queue, e, s.epoch)
    ensures Ok(Marked(s, e))
  {
    var d, o := s.done + LostRun(e - s.seen), s.output + [Lost];
    MarkerCollapses(s.output, s.done, d, o, e - s.seen);
    MarkedIs(s, e, d, o);
    CaughtUpIsOk(s, e, d, o);
  }

  lemma MarkedIs(s: Stream, e: nat, d: seq<Token>, o: seq<Token>)
    requires s.seen < e && d == s.done + LostRun(e - s.seen) && o == s.output + [Lost]
    ensures Marked(s, e) == s.(seen := e, output := o, done := d)
  {
  }

  lemma CaughtUpIsOk(s: Stream, e: nat, d: seq<Token>, o: seq<Token>)
    requires Ordered(s.queue, e, s.epoch) && s.history == d + Pending(s.queue, e, s.epoch)
    requires Collapse(o) == Collapse(d) && Losses(o) <= e && Losses(s.history) == s.epoch
    ensures Ok(s.(seen := e, output := o, done := d))
  {
  }

  lemma MarkerCollapses(output: seq<Token>, done: seq<Token>, d: seq<Token>, o: seq<Token>, n: nat)
    requires Collapse(output) == Collapse(done) && 0 < n && d == done + LostRun(n) && o == output + [Lost]
    ensures Collapse(o) == Collapse(d)
    ensures Losses(o) == Losses(output) + 1
  {
    CollapseLostRun(done, n);
    CollapseStep(output, Lost);
    LossesStep(output, Lost);
  }

  lemma AppendMore(a: seq<Token>, b: seq<Token>, c: seq<Token>)
    ensures a + (b + c) == (a + b) + c
  {
  }

  lemma PollByteKeepsOk(s: Stream)
    requires Ok(s) && HeadEpoch(s.queue, s.epoch) == s.seen && s.queue != []
    ensures Ok(Poll(s).0)
  {
    var b := Byte(s.queue[0].scan);
    CollapseStep(s.output, b);
    CollapseStep(s.done, b);
    LossesStep(s.output, b);
    var rest := Pending(s.queue[1..], s.seen, s.epoch);
    assert Pending(s.queue, s.seen, s.epoch) == [b] + rest by {
      assert LostRun(0) == [];
    }
    assert s.done + ([b] + rest) == (s.done + [b]) + rest;
  }

  lemma PollKeepsOk(s: Stream)
    requires Ok(s)
    ensures Ok(Poll(s).0)
  {
    if HeadEpoch(s.queue, s.epoch) != s.seen {
      PollLostKeepsOk(s);
    } else if s.queue != [] {
      PollByteKeepsOk(s);
    }
  }

  // ----- What the consumer can rely on -----

  /** With adjacent losses merged, the consumer has seen a prefix of what arrived. */
  lemma OutputIsPrefixOfHistory(s: Stream)
    requires Ok(s)
    ensures Collapse(s.output) <= Collapse(s.history)
    ensures Losses(s.output) <= Losses(s.history)
  {
    CollapseGrows(s.done, Pending(s.queue, s.seen, s.epoch));
    OrderedBounds(s.queue, s.seen, s.epoch);
  }

  lemma {:induction false} OrderedBounds(queue: seq<Sample>, seen: nat, epoch: nat)
    requires Ordered(queue, seen, epoch)
    ensures seen <= epoch
    ensures forall i :: 0 <= i < |queue| ==> seen <= queue[i].epoch <= epoch
    ensures forall i, j :: 0 <= i < j < |queue| ==> queue[i].epoch <= queue[j].epoch
    decreases |queue|
  {
    if queue != [] {
      OrderedBounds(queue[1..], queue[0].epoch, epoch);
      forall i, j | 0 <= i < j < |queue|
        ensures queue[i].epoch <= queue[j].epoch
      {
        assert queue[j] == queue[1..][j - 1];
        if i > 0 { assert queue[i] == queue[1..][i - 1]; }
      }
    }
  }

  /** Caught up, the consumer has seen everything. */
  lemma CaughtUp(s: Stream)
    requires Ok(s) && s.queue == [] && s.seen == s.epoch
    ensures Collapse(s.output) == Collapse(s.history)
  {
    assert Pending(s.queue, s.seen, s.epoch) == [];
    assert s.done + [] == s.done;
  }

  lemma {:induction false} LosslessIsIdentity(h: seq<Token>)
    requires Losses(h) == 0
    ensures Collapse(h) == h
  {
    if h != [] {
      LosslessIsIdentity(h[..|h| - 1]);
    }
  }

  /** Without losses the consumer sees exactly the bytes, in order, and is never told of a loss. */
  lemma LosslessRunsReportNone(s: Stream)
    requires Ok(s) && Losses(s.history) == 0
    ensures Losses(s.output) == 0 && s.output <= s.history
  {
    OutputIsPrefixOfHistory(s);
    LosslessIsIdentity(s.output);
    LosslessIsIdentity(s.history);
  }

  /** Polling drains: as long as something is undelivered a poll reports something, and after at
      most two polls for each queued byte, plus one, the consumer is caught up. */
  lemma PollMakesProgress(s: Stream)
    requires Ok(s)
    ensures Poll(s).1 == [] <==> s.queue == [] && s.seen == s.epoch
    ensures Poll(s).1 != [] ==> Backlog(Poll(s).0) < Backlog(s)
  {
  }

  function Backlog(s: Stream): nat {
    2 * |s.queue| + (if HeadEpoch(s.queue, s.epoch) != s.seen then 1 else 0)
  }

  datatype Event = Arrives(scan: Scan) | Drops | Polls

  function Apply(s: Stream, e: Event): Stream {
    match e
    case Arrives(scan) => Arrive(s, scan)
    case Drops => Drop(s)
    case Polls => Poll(s).0
  }

  function After(events: seq<Event>): Stream {
    if events == [] then EMPTY else Apply(After(events[..|events| - 1]), events[|events| - 1])
  }

  /** Over every interleaving of arrivals, losses and polls: the merged output is a prefix of the
      merged history and equals it once caught up, losses are never over-reported, and a run
      without losses delivers the bytes themselves. */
  lemma {:induction false} StreamOverRuns(events: seq<Event>)
    ensures var s := After(events);
            && Ok(s)
            && Collapse(s.output) <= Collapse(s.history)
            && Losses(s.output) <= Losses(s.history)
            && (s.queue == [] && s.seen == s.epoch ==> Collapse(s.output) == Collapse(s.history))
            && (Losses(s.history) == 0 ==> Losses(s.output) == 0 && s.output <= s.history)
  {
    var s := After(events);
    if events == [] {
      assert s.done + Pending([], 0, 0) == [];
    } else {
      StreamOverRuns(events[..|events| - 1]);
      var before := After(events[..|events| - 1]);
      match events[|events| - 1]
      case Arrives(scan) => ArriveKeepsOk(before, scan);
      case Drops => DropKeepsOk(before);
      case Polls => PollKeepsOk(before);
    }
    OutputIsPrefixOfHistory(s);
    if s.queue == [] && s.seen == s.epoch { CaughtUp(s); }
    if Losses(s.history) == 0 { LosslessRunsReportNone(s); }
  }

  // ----- The decoder -----

  datatype Decoder = Decoder(extended: bool, pause: nat)

  const IDLE := Decoder(false, 0)

  datatype Key = NoKey | Press(key: Scan, ext: bool) | Release(key: Scan, ext: bool)

  const PAUSE_TAIL: seq<Scan> := [0x1d, 0x45, 0xe1, 0x9d, 0xc5]

  function KeyOf(scan: Scan, key: Scan, ext: bool): Key {
    if scan & 0x80 != 0 then Release(key, ext) else Press(key, ext)
  }

  predicate Supported(key: Scan) {
    key == 0x1e || key == 0x30 || key == 0x2e || key == 0x20 || key == 0x39 || key == 0x1c || key == 0x2a || key == 0x36
  }

  predicate IsCtrl(scan: Scan) { scan == 0x1d || scan == 0x9d }

  /** kbd_decode. */
  function Decode(d: Decoder, scan: Scan): (Decoder, Key) {
    if d.pause != 0 then
      var n := d.pause - 1;
      (d.(pause := if n < |PAUSE_TAIL| && scan == PAUSE_TAIL[n] && n + 1 < |PAUSE_TAIL| then d.pause + 1 else 0), NoKey)
    else if scan == 0xe1 then (Decoder(false, 1), NoKey)
    else if scan == 0xe0 then (d.(extended := true), NoKey)
    else if d.extended then
      (d.(extended := false), if IsCtrl(scan) then KeyOf(scan, 0x1d, true) else NoKey)
    else if IsCtrl(scan) then (d, KeyOf(scan, 0x1d, false))
    else if Supported(scan & 0x7f) then (d, KeyOf(scan, scan & 0x7f, false))
    else (d, NoKey)
  }

  function Emit(k: Key): seq<Key> {
    if k == NoKey then [] else [k]
  }

  function DecodeAll(d: Decoder, scans: seq<Scan>): (Decoder, seq<Key>)
    decreases |scans|
  {
    if scans == [] then (d, [])
    else
      var (d1, k) := Decode(d, scans[0]);
      var (d2, ks) := DecodeAll(d1, scans[1..]);
      (d2, Emit(k) + ks)
  }

  lemma DecodeFirst(d: Decoder, scan: Scan, rest: seq<Scan>)
    ensures DecodeAll(d, [scan] + rest)
            == (DecodeAll(Decode(d, scan).0, rest).0, Emit(Decode(d, scan).1) + DecodeAll(Decode(d, scan).0, rest).1)
  {
    assert ([scan] + rest)[1..] == rest;
  }

  lemma DecodeOne(d: Decoder, scan: Scan)
    ensures DecodeAll(d, [scan]) == (Decode(d, scan).0, Emit(Decode(d, scan).1))
  {
    DecodeFirst(d, scan, []);
    assert [scan] + [] == [scan];
    assert Emit(Decode(d, scan).1) + [] == Emit(Decode(d, scan).1);
  }

  lemma DecodeQuiet(d: Decoder, scan: Scan, rest: seq<Scan>)
    requires Decode(d, scan).1 == NoKey
    ensures DecodeAll(d, [scan] + rest) == DecodeAll(Decode(d, scan).0, rest)
  {
    DecodeFirst(d, scan, rest);
    var ks := DecodeAll(Decode(d, scan).0, rest).1;
    assert [] + ks == ks;
  }

  /** What a set-1 keyboard sends: a plain code, a code after one or more E0 prefixes, or Pause. */
  datatype Packet = Plain(scan: Scan) | Extended(more: nat, scan: Scan) | Pause

  predicate WellFormed(p: Packet) {
    !p.Pause? ==> p.scan != 0xe0 && p.scan != 0xe1
  }

  function Prefixes(n: nat): seq<Scan> {
    if n == 0 then [] else [0xe0] + Prefixes(n - 1)
  }

  function Encode(p: Packet): seq<Scan> {
    match p
    case Plain(scan) => [scan]
    case Extended(more, scan) => Prefixes(more + 1) + [scan]
    case Pause => [0xe1] + PAUSE_TAIL
  }

  /** The key events a packet stands for: Ctrl on either side, the eight supported keys, and
      nothing for any other packet, however many bytes it has. */
  function KeysOf(p: Packet): seq<Key> {
    match p
    case Plain(scan) =>
      if IsCtrl(scan) then [KeyOf(scan, 0x1d, false)]
      else if Supported(scan & 0x7f) then [KeyOf(scan, scan & 0x7f, false)]
      else []
    case Extended(_, scan) => if IsCtrl(scan) then [KeyOf(scan, 0x1d, true)] else []
    case Pause => []
  }

  function EncodeAll(ps: seq<Packet>): seq<Scan> {
    if ps == [] then [] else Encode(ps[0]) + EncodeAll(ps[1..])
  }

  function AllKeys(ps: seq<Packet>): seq<Key> {
    if ps == [] then [] else KeysOf(ps[0]) + AllKeys(ps[1..])
  }

  lemma {:induction false} DecodeConcat(d: Decoder, a: seq<Scan>, b: seq<Scan>)
    ensures var (d1, k1) := DecodeAll(d, a);
            var (d2, k2) := DecodeAll(d1, b);
            DecodeAll(d, a + b) == (d2, k1 + k2)
    decreases |a|
  {
    if a == [] {
      assert a + b == b;
      var ks := DecodeAll(d, b).1;
      assert [] + ks == ks;
    } else {
      var (d1, k) := Decode(d, a[0]);
      DecodeConcat(d1, a[1..], b);
      assert (a + b)[1..] == a[1..] + b;
      var ks, ks' := DecodeAll(d1, a[1..]).1, DecodeAll(DecodeAll(d1, a[1..]).0, b).1;
      assert (Emit(k) + ks) + ks' == Emit(k) + (ks + ks');
    }
  }

  lemma {:induction false} DecodePrefixes(ext: bool, n: nat, scan: Scan)
    requires scan != 0xe0 && scan != 0xe1 && (ext || 0 < n)
    ensures DecodeAll(Decoder(ext, 0), Prefixes(n) + [scan]) == (IDLE, KeysOf(Extended(0, scan)))
    decreases n
  {
    if n == 0 {
      assert Prefixes(0) + [scan] == [scan];
      DecodeOne(Decoder(true, 0), scan);
    } else {
      assert Prefixes(n) + [scan] == [0xe0] + (Prefixes(n - 1) + [scan]);
      DecodeQuiet(Decoder(ext, 0), 0xe0, Prefixes(n - 1) + [scan]);
      DecodePrefixes(true, n - 1, scan);
    }
  }

  lemma DecodePause()
    ensures DecodeAll(IDLE, Encode(Pause)) == (IDLE, [])
  {
    assert Encode(Pause) == [0xe1] + ([0x1d] + ([0x45] + ([0xe1] + ([0x9d] + [0xc5]))));
    DecodeOne(Decoder(false, 5), 0xc5);
    DecodeQuiet(Decoder(false, 4), 0x9d, [0xc5]);
    DecodeQuiet(Decoder(false, 3), 0xe1, [0x9d] + [0xc5]);
    DecodeQuiet(Decoder(false, 2), 0x45, [0xe1] + ([0x9d] + [0xc5]));
    DecodeQuiet(Decoder(false, 1), 0x1d, [0x45] + ([0xe1] + ([0x9d] + [0xc5])));
    DecodeQuiet(IDLE, 0xe1, [0x1d] + ([0x45] + ([0xe1] + ([0x9d] + [0xc5]))));
  }

  lemma DecodePacket(p: Packet)
    requires WellFormed(p)
    ensures DecodeAll(IDLE, Encode(p)) == (IDLE, KeysOf(p))
  {
    match p
    case Plain(scan) => DecodeOne(IDLE, scan);
    case Extended(more, scan) => DecodePrefixes(false, more + 1, scan);
    case Pause => DecodePause();
  }

  /** The decoder recovers exactly the key events of any stream of packets: no byte inside a Pause
      or an E0 packet is ever taken for a key of its own, and the decoder ends idle. */
  lemma {:induction false} DecodeInvertsEncode(ps: seq<Packet>)
    requires forall i :: 0 <= i < |ps| ==> WellFormed(ps[i])
    ensures DecodeAll(IDLE, EncodeAll(ps)) == (IDLE, AllKeys(ps))
  {
    if ps != [] {
      DecodePacket(ps[0]);
      DecodeInvertsEncode(ps[1..]);
      DecodeConcat(IDLE, Encode(ps[0]), EncodeAll(ps[1..]));
    }
  }

  // ----- From key to key event -----

  /** What happens on the keyboard: a known key goes down or up, Pause is hit, or another key sends a code of
      its own; `ext` for the keys whose codes follow an E0. */
  datatype Signal = Pressed(key: Scan, ext: bool) | Released(key: Scan, ext: bool) | PauseHit | OtherKey(scan: Scan, ext: bool)

  /** a, b, c, d, space, enter and the two shift keys. */
  predicate Plainly(key: Scan) {
    key in [0x1e, 0x30, 0x2e, 0x20, 0x39, 0x1c, 0x2a, 0x36]
  }

  /** Ctrl is known on both sides, the others on one; another key's code is none of theirs. */
  predicate Sendable(s: Signal) {
    match s
    case Pressed(key, ext) => key == 0x1d || (!ext && Plainly(key))
    case Released(key, ext) => key == 0x1d || (!ext && Plainly(key))
    case PauseHit => true
    case OtherKey(scan, ext) =>
      && scan != 0xe0 && scan != 0xe1 && scan != 0x1d && scan != 0x9d
      && (ext || (!Plainly(scan) && !Plainly(scan - 0x80)))
  }

  /** What the keyboard sends: the key's code when it goes down, the code with bit 7 set when it goes up. */
  function Codes(s: Signal): seq<Scan> {
    match s
    case Pressed(key, ext) => if ext then [0xe0, key] else [key]
    case Released(key, ext) => if ext then [0xe0, key + 0x80] else [key + 0x80]
    case PauseHit => [0xe1, 0x1d, 0x45, 0xe1, 0x9d, 0xc5]
    case OtherKey(scan, ext) => if ext then [0xe0, scan] else [scan]
  }

  function Heard(s: Signal): seq<Key> {
    match s
    case Pressed(key, ext) => [Press(key, ext)]
    case Released(key, ext) => [Release(key, ext)]
    case _ => []
  }

  function PacketOf(s: Signal): Packet {
    match s
    case Pressed(key, ext) => if ext then Extended(0, key) else Plain(key)
    case Released(key, ext) => if ext then Extended(0, key + 0x80) else Plain(key + 0x80)
    case PauseHit => Pause
    case OtherKey(scan, ext) => if ext then Extended(0, scan) else Plain(scan)
  }

  lemma OnePrefix()
    ensures Prefixes(1) == [0xe0]
  {
    assert Prefixes(1) == [0xe0] + Prefixes(0);
  }

  lemma KnownBits(key: Scan)
    requires key == 0x1d || Plainly(key)
    ensures key & 0x80 == 0 && key & 0x7f == key && (key + 0x80) & 0x80 != 0 && (key + 0x80) & 0x7f == key
    ensures key != 0xe0 && key != 0xe1 && key + 0x80 != 0xe0 && key + 0x80 != 0xe1
    ensures (key + 0x80 == 0x9d <==> key == 0x1d) && key != 0x9d && key + 0x80 != 0x1d
  {
  }

  lemma UnknownBits(scan: Scan)
    requires !Plainly(scan) && !Plainly(scan - 0x80)
    ensures !Supported(scan & 0x7f)
  {
    assert scan & 0x7f == scan || scan & 0x7f == scan - 0x80;
  }

  lemma PlainKeys(key: Scan)
    requires key == 0x1d || Plainly(key)
    ensures KeysOf(Plain(key)) == [Press(key, false)] && KeysOf(Plain(key + 0x80)) == [Release(key, false)]
    ensures WellFormed(Plain(key)) && WellFormed(Plain(key + 0x80))
  {
    KnownBits(key);
  }

  lemma CtrlKeys()
    ensures KeysOf(Extended(0, 0x1d)) == [Press(0x1d, true)] && KeysOf(Extended(0, 0x9d)) == [Release(0x1d, true)]
  {
    KnownBits(0x1d);
  }

  lemma OtherKeys(scan: Scan, ext: bool)
    requires Sendable(OtherKey(scan, ext))
    ensures KeysOf(if ext then Extended(0, scan) else Plain(scan)) == []
  {
    if !ext {
      UnknownBits(scan);
    }
  }

  lemma SignalCodes(s: Signal)
    ensures Encode(PacketOf(s)) == Codes(s)
  {
    OnePrefix();
  }

  lemma KnownIsPacket(key: Scan, ext: bool)
    requires key == 0x1d || (!ext && Plainly(key))
    ensures var down, up := PacketOf(Pressed(key, ext)), PacketOf(Released(key, ext));
            && WellFormed(down) && KeysOf(down) == [Press(key, ext)]
            && WellFormed(up) && KeysOf(up) == [Release(key, ext)]
  {
    if ext {
      CtrlKeys();
    } else {
      PlainKeys(key);
    }
  }

  lemma SignalIsPacket(s: Signal)
    requires Sendable(s)
    ensures WellFormed(PacketOf(s)) && KeysOf(PacketOf(s)) == Heard(s)
  {
    if s.Pressed? || s.Released? {
      KnownIsPacket(s.key, s.ext);
    } else if s.OtherKey? {
      OtherKeys(s.scan, s.ext);
    }
  }

  function AllCodes(ss: seq<Signal>): seq<Scan> {
    if ss == [] then [] else Codes(ss[0]) + AllCodes(ss[1..])
  }

  function AllHeard(ss: seq<Signal>): seq<Key> {
    if ss == [] then [] else Heard(ss[0]) + AllHeard(ss[1..])
  }

  /** Whatever is typed, the decoder reports every known key going down and up, in order, and nothing else. */
  lemma {:induction false} TypedIsHeard(ss: seq<Signal>)
    requires forall i :: 0 <= i < |ss| ==> Sendable(ss[i])
    ensures DecodeAll(IDLE, AllCodes(ss)) == (IDLE, AllHeard(ss))
  {
    if ss != [] {
      SignalIsPacket(ss[0]);
      SignalCodes(ss[0]);
      DecodePacket(PacketOf(ss[0]));
      TypedIsHeard(ss[1..]);
      DecodeConcat(IDLE, Codes(ss[0]), AllCodes(ss[1..]));
    }
  }

  // ----- The driver -----

  datatype Regs = Regs(head: nat, tail: nat, received: nat, dropped: nat, epoch: nat)

  /** The ring from `tail` up to `head` holds the queued samples. */
  predicate Holds(data: seq<Sample>, q: Regs, queue: seq<Sample>) {
    && 2 <= |data| && q.head < |data| && q.tail < |data|
    && |queue| < |data|
    && q.head == At(q.tail, |queue|, |data|)
    && forall i :: 0 <= i < |queue| ==> data[At(q.tail, i, |data|)] == queue[i]
  }

  lemma HoldsPut(data: seq<Sample>, q: Regs, queue: seq<Sample>, x: Sample)
    requires Holds(data, q, queue) && |queue| + 1 < |data|
    ensures Holds(data[q.head := x], q.(head := At(q.head, 1, |data|)), queue + [x])
  {
    var n := |data|;
    forall i | 0 <= i < |queue|
      ensures At(q.tail, i, n) != q.head
    {
    }
  }

  lemma HoldsGet(data: seq<Sample>, q: Regs, queue: seq<Sample>)
    requires Holds(data, q, queue) && queue != []
    ensures data[q.tail] == queue[0]
    ensures Holds(data, q.(tail := At(q.tail, 1, |data|)), queue[1..])
  {
    assert At(q.tail, 0, |data|) == q.tail;
    forall i | 0 <= i < |queue| - 1
      ensures At(At(q.tail, 1, |data|), i, |data|) == At(q.tail, i + 1, |data|)
    {
    }
  }

  /** The ring is full exactly when advancing the head would meet the tail. */
  lemma FullExactly(data: seq<Sample>, q: Regs, queue: seq<Sample>)
    requires Holds(data, q, queue)
    ensures At(q.head, 1, |data|) == q.tail <==> |queue| + 1 == |data|
    ensures q.head == q.tail <==> queue == []
  {
  }

  /** What a poll reads from the ring, and what it leaves there. */
  lemma PollHolds(data: seq<Sample>, q: Regs, s: Stream)
    requires Holds(data, q, s.queue) && q.epoch == s.epoch
    ensures q.head == q.tail <==> s.queue == []
    ensures HeadEpoch(s.queue, s.epoch) == if q.head == q.tail then q.epoch else data[q.tail].epoch
    ensures HeadEpoch(s.queue, s.epoch) != s.seen ==> Holds(data, q, Poll(s).0.queue)
    ensures HeadEpoch(s.queue, s.epoch) == s.seen && s.queue != [] ==>
              && data[q.tail] == s.queue[0]
              && Holds(data, q.(tail := At(q.tail, 1, |data|)), Poll(s).0.queue)
  {
    FullExactly(data, q, s.queue);
    if s.queue != [] {
      HoldsGet(data, q, s.queue);
    }
  }

  method NextIndex(i: nat, cap: nat) returns (next: nat)
    requires i < cap
    ensures next == At(i, 1, cap)
  {
    ModOnce(i, 1, cap);
    return (i + 1) % cap;
  }

  class KeyboardDriver {
    const data: array<Sample>
    var q: Regs
    var seen: nat
    var decoder: Decoder
    var taken: nat
    var errors: nat
    var auxiliary: nat
    ghost var stream: Stream

    /** The ring and the consumer's epoch are those of the stream, whose steps keep Ok. */
    ghost predicate Valid()
      reads this, data
    {
      Holds(data[..], q, stream.queue) && q.epoch == stream.epoch && seen == stream.seen
    }

    /** `storage` is KBD_STORAGE, a power of two, so masking an index is reducing it modulo `storage`. */
    constructor (storage: nat)
      requires 2 <= storage
      ensures Valid() && stream == EMPTY && data.Length == storage && fresh(data)
    {
      data := new Sample[storage](_ => Sample(0, 0));
      q := Regs(0, 0, 0, 0, 0);
      seen, decoder, taken, errors, auxiliary := 0, IDLE, 0, 0, 0;
      stream := EMPTY;
      new;
      StreamOverRuns([]);
    }

    /** kbd_ring_put: 1 queued, 0 dropped, -1 a counter would overflow. */
    method RingPut(scan: Scan) returns (r: int)
      requires Valid()
      modifies this`q, this`stream, data
      ensures Valid() && seen == old(seen)
      ensures r == -1 <==> old(q.received == COUNTER_MAX || q.dropped == COUNTER_MAX || q.epoch == COUNTER_MAX)
      ensures r == 1 ==> stream == Arrive(old(stream), scan) && |old(stream).queue| + 1 < data.Length
      ensures r == 0 ==> stream == Drop(old(stream)) && |old(stream).queue| + 1 == data.Length
      ensures r == -1 ==> stream == old(stream)
      ensures r != -1 ==> q.received == old(q.received) + r && q.dropped == old(q.dropped) + 1 - r
      ensures -1 <= r <= 1
    {
      if q.received == COUNTER_MAX || q.dropped == COUNTER_MAX || q.epoch == COUNTER_MAX { return -1; }
      FullExactly(data[..], q, stream.queue);
      var next := NextIndex(q.head, data.Length);
      if next == q.tail {
        q := q.(dropped := q.dropped + 1, epoch := q.epoch + 1);
        stream := Drop(stream);
        return 0;
      }
      HoldsPut(data[..], q, stream.queue, Sample(q.epoch, scan));
      ghost var was := data[..];
      data[q.head] := Sample(q.epoch, scan);
      assert data[..] == was[q.head := Sample(q.epoch, scan)];
      q := q.(head := next, received := q.received + 1);
      stream := Arrive(stream, scan);
      return 1;
    }

    /** deliver_byte: false is the halt on an exhausted counter. A byte with a status error, and the
        diagnostic codes 0x00 and 0xFF, count as losses; auxiliary bytes are not keyboard input. */
    method DeliverByte(aux: bool, statusError: bool, scan: Scan) returns (running: bool)
      requires Valid()
      modifies this`q, this`stream, this`taken, this`errors, this`auxiliary, data
      ensures Valid() && seen == old(seen)
      ensures var diagnostic := statusError || scan == 0x00 || scan == 0xff;
              && (running <==> old(taken != COUNTER_MAX &&
                                   if aux then auxiliary != COUNTER_MAX
                                   else q.epoch != COUNTER_MAX &&
                                        if diagnostic then errors != COUNTER_MAX
                                        else q.received != COUNTER_MAX && q.dropped != COUNTER_MAX))
              && (running ==>
                  && taken == old(taken) + 1
                  && auxiliary == old(auxiliary) + (if aux then 1 else 0)
                  && errors == old(errors) + (if !aux && diagnostic then 1 else 0)
                  && stream == if aux then old(stream)
                               else if diagnostic || |old(stream).queue| + 1 == data.Length then Drop(old(stream))
                               else Arrive(old(stream), scan))
      ensures !running ==> stream == old(stream)
    {
      if taken == COUNTER_MAX { return false; }
      taken := taken + 1;
      if aux {
        if auxiliary == COUNTER_MAX { return false; }
        auxiliary := auxiliary + 1;
        return true;
      }
      if statusError || scan == 0x00 || scan == 0xff {
        if errors == COUNTER_MAX { return false; }
        errors := errors + 1;
        if q.epoch == COUNTER_MAX { return false; }
        q := q.(epoch := q.epoch + 1);
        stream := Drop(stream);
        return true;
      }
      var r := RingPut(scan);
      return r != -1;
    }

    /** kbd_take: at most one token, and the raw byte; a loss also resets the decoder. */
    method Take() returns (token: seq<Token>)
      requires Valid()
      modifies this`q, this`seen, this`decoder, this`stream
      ensures Valid()
      ensures (stream, token) == Poll(old(stream))
      ensures decoder == if token == [Lost] then IDLE else old(decoder)
    {
      PollHolds(data[..], q, stream);
      var epoch := if q.head == q.tail then q.epoch else data[q.tail].epoch;
      if epoch != seen {
        seen, decoder := epoch, IDLE;
        stream := Poll(stream).0;
        return [Lost];
      }
      if q.head == q.tail { return []; }
      var sample := data[q.tail];
      var next := NextIndex(q.tail, data.Length);
      q := q.(tail := next);
      stream := Poll(stream).0;
      return [Byte(sample.scan)];
    }

    /** kbd_stream_next: as kbd_take, with the byte run through the decoder. */
    method StreamNext() returns (token: seq<Token>, key: Key)
      requires Valid()
      modifies this`q, this`seen, this`decoder, this`stream
      ensures Valid()
      ensures (stream, token) == Poll(old(stream))
      ensures token == [] ==> decoder == old(decoder) && key == NoKey
      ensures token == [Lost] ==> decoder == IDLE && key == NoKey
      ensures token != [] && token[0].Byte? ==> (decoder, key) == Decode(old(decoder), token[0].scan)
    {
      key := NoKey;
      token := Take();
      if token != [] && token[0].Byte? {
        var (d, k) := Decode(decoder, token[0].scan);
        decoder, key := d, k;
      }
    }
  }
}

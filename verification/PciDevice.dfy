/** What the BAR scan makes of a device that follows section 6.2.5.1 of the PCI Local Bus
    Specification 3.0 in every slot. */
module PciDevice {
  import opened PciBar
  import opened Ring

  // ----- One slot -----

  /** The slot behaves as register `r`, and holds a value that `r` can hold. */
  ghost predicate Behaves(answer: Answer, bars: seq<U32>, s: nat, r: Reg) {
    s < |bars| && RegOk(r) && Follows(answer, s, r) && Holds(r, bars[s])
  }

  function Address(v: nat, flags: nat): nat {
    if flags <= v then v - flags else 0
  }

  predicate IoReg(r: Reg) {
    4 <= r.gran && r.flags < 4 && r.flags % 2 == 1
  }

  predicate Mem32Reg(r: Reg) {
    16 <= r.gran && r.top == TWO32 && r.flags % 2 == 0 && r.flags / 2 % 4 != 2
  }

  predicate Mem64Flags(size: nat, flags: nat) {
    IsPow2(size) && 16 <= size <= TWO64 && flags < 16 && flags % 2 == 0 && flags / 2 % 4 == 2
  }

  /** An I/O BAR is kept, with the device's size and base, if and only if the device implements the upper
      sixteen address bits, asks for no more than the I/O space and sits inside it. */
  lemma IoSeenExactly(answer: Answer, bars: seq<U32>, s: nat, slots: nat, r: Reg)
    requires s < slots <= |bars| && Behaves(answer, bars, s, r) && IoReg(r)
    ensures var base := Address(bars[s], r.flags);
            Seen(answer, bars, s, slots) ==
            if r.top == TWO32 && r.gran <= TWO16 && base < TWO16
            then Found(Bar(s, Io, base, r.gran, false, bars[s], 0), 1) else NoBar
  {
    FollowingRestores(answer, s, r, bars[s]);
    Words(r, 4, bars[s], Mask(answer, bars, s));
    IoSizedExactly(s, r, bars[s], Mask(answer, bars, s));
  }

  /** A 32-bit memory BAR is kept, with the device's size and base, if and only if the slot does not read
      zero and the device asks for less than 4 GiB; it reads zero exactly while it has neither flags
      nor an address. */
  lemma Mem32SeenExactly(answer: Answer, bars: seq<U32>, s: nat, slots: nat, r: Reg)
    requires s < slots <= |bars| && Behaves(answer, bars, s, r) && Mem32Reg(r)
    ensures Seen(answer, bars, s, slots) ==
            if bars[s] != 0 && r.gran < TWO32
            then Found(Bar(s, Mem32, Address(bars[s], r.flags), r.gran, r.flags / 8 % 2 == 1, bars[s], 0), 1) else NoBar
    ensures bars[s] == 0 <==> r.flags == 0 && Address(bars[s], r.flags) == 0
  {
    FollowingRestores(answer, s, r, bars[s]);
    Words(r, 16, bars[s], Mask(answer, bars, s));
    Mem32SizedExactly(s, r, bars[s], Mask(answer, bars, s));
  }

  /** A 64-bit memory BAR is kept, with the device's size and base, if and only if its upper half lies
      inside the layout and it ends below the last byte of the address space. */
  lemma Mem64SeenExactly(answer: Answer, bars: seq<U32>, s: nat, slots: nat, size: nat, flags: nat)
    requires s < slots <= |bars| && s + 1 < |bars| && Mem64Flags(size, flags)
    requires Behaves(answer, bars, s, LowHalf(size, flags)) && Behaves(answer, bars, s + 1, HighHalf(size))
    ensures var base := bars[s + 1] * TWO32 + Address(bars[s], flags);
            Seen(answer, bars, s, slots) ==
            if s + 1 < slots && base + size < TWO64
            then Found(Bar(s, Mem64, base, size, flags / 8 % 2 == 1, bars[s], bars[s + 1]), 2) else NoBar
  {
    FollowingRestores(answer, s, LowHalf(size, flags), bars[s]);
    FollowingRestores(answer, s + 1, HighHalf(size), bars[s + 1]);
    Mem64SizedExactly(s, size, flags, bars[s], bars[s + 1], Mask(answer, bars, s), Mask(answer, bars, s + 1));
  }

  lemma EndsAtTop(size: nat, flags: nat, raw: U32, high: U32)
    requires Mem64Flags(size, flags) && RegOk(LowHalf(size, flags)) && RegOk(HighHalf(size))
    requires Holds(LowHalf(size, flags), raw) && Holds(HighHalf(size), high)
    requires high * TWO32 + Address(raw, flags) + size >= TWO64
    ensures high == TWO32 - HighHalf(size).gran
  {
    HeldIsMultiple(LowHalf(size, flags), raw);
    WideSplit(size);
  }

  /** The word after a BAR's upper half reads all ones when sized, and does not hold them. */
  predicate Swallows(answer: Answer, bars: seq<U32>, s: nat, slots: nat)
    requires slots <= |bars|
  {
    s < slots && Mask(answer, bars, s) == TWO32 - 1 && bars[s] < TWO32 - 1
  }

  /** The sizes at which the upper half, in slot `h`, of a 64-bit BAR that reaches the top of the address
      space passes for a BAR of its own: from 8 GiB on, short of the whole space, and at 16 GiB
      only together with the next slot. */
  predicate Misleads(answer: Answer, bars: seq<U32>, h: nat, slots: nat, size: nat)
    requires slots <= |bars|
  {
    2 * TWO32 <= size < TWO64 && (size == 4 * TWO32 ==> Swallows(answer, bars, h + 1, slots))
  }

  /** What it then passes for. */
  function MadeUp(bars: seq<U32>, h: nat, size: nat): Decoded
    requires h < |bars| && (size == 4 * TWO32 ==> h + 1 < |bars|)
  {
    if size == 4 * TWO32 then
      Found(Bar(h, Mem64, bars[h + 1] * TWO32 + (TWO32 - 16), 16, true, bars[h], bars[h + 1]), 2)
    else if size < 16 * TWO32 then Found(Bar(h, Mem32, TWO32 - 16, 16, true, bars[h], 0), 1)
    else if size < TWO64 then Found(Bar(h, Mem32, TWO32 - size / TWO32, size / TWO32, false, bars[h], 0), 1)
    else NoBar
  }

  lemma SmallPow2(g: nat)
    requires IsPow2(g) && g < 16
    ensures g == 1 || g == 2 || g == 4 || g == 8
  {
    assert IsPow2(g / 2) || g == 1;
    assert IsPow2(g / 2 / 2) || g <= 2;
  }

  /** The upper half of a small size, as a word and as its own mask. */
  lemma SmallHalf(slot: nat, slots: nat, g: nat, high: U32, maskHigh: U32)
    requires g == 1 || g == 2 || g == 8
    ensures !IsWide(TWO32 - g)
    ensures Decode(slot, slots, TWO32 - g, high, TWO32 - g, maskHigh) ==
            if g == 1 then NoBar else Found(Bar(slot, Mem32, TWO32 - 16, 16, true, TWO32 - g, 0), 1)
  {
    assert IsPow2(16) by { Consts(); }
    assert (TWO32 - g) % 16 == 16 - g;
    assert (TWO32 - 16) % 16 == 0;
  }

  lemma NotPow2(q: nat)
    requires 0 < q
    ensures !IsPow2(q * TWO32 + 16)
  {
    var v := q * TWO32 + 16;
    DivModIs(v, 32, q * (TWO32 / 32), 16);
    if IsPow2(v) {
      assert IsPow2(32) by { Consts(); Double(16); }
      Pow2Divides(32, v);
      var m: nat :| 0 < m && v == m * 32 && IsPow2(m);
      DivModIs(v, 32, m, 0);
    }
  }

  /** The upper half of a 16 GiB size, with the word after it. */
  lemma WideHalf(slot: nat, high: U32, maskHigh: U32)
    ensures IsWide(TWO32 - 4)
    ensures Mem64Bar(slot, TWO32 - 4, high, TWO32 - 4, maskHigh) ==
            if maskHigh == TWO32 - 1 && high < TWO32 - 1
            then Found(Bar(slot, Mem64, high * TWO32 + (TWO32 - 16), 16, true, TWO32 - 4, high), 2) else NoBar
  {
    var base, combined := high * TWO32 + (TWO32 - 16), maskHigh * TWO32 + (TWO32 - 16);
    assert Clear(TWO32 - 4, 16) == TWO32 - 16;
    assert IsPow2(16) by { Consts(); }
    assert Aligned(base, 16) by { assert base == (high * (TWO32 / 16) + (TWO32 / 16 - 1)) * 16; }
    if maskHigh < TWO32 - 1 {
      NotPow2(TWO32 - 1 - maskHigh);
      assert TWO64 - combined == (TWO32 - 1 - maskHigh) * TWO32 + 16;
    }
  }

  lemma HalfOf(size: nat)
    requires IsPow2(size) && 16 <= size
    ensures size >= 2 * TWO32 ==> size == HighHalf(size).gran * TWO32
    ensures size < 2 * TWO32 ==> HighHalf(size).gran == 1
  {
    if size >= TWO32 {
      Consts();
      Pow2Divides(TWO32, size);
      var m: nat :| 0 < m && size == m * TWO32 && IsPow2(m);
      DivModIs(size, TWO32, m, 0);
    }
  }

  /** The word and the mask of the upper half of a BAR that ends at the top. */
  lemma TopWords(answer: Answer, bars: seq<U32>, s: nat, size: nat, flags: nat)
    requires s + 1 < |bars| && Mem64Flags(size, flags)
    requires Behaves(answer, bars, s, LowHalf(size, flags)) && Behaves(answer, bars, s + 1, HighHalf(size))
    requires bars[s + 1] * TWO32 + Address(bars[s], flags) + size >= TWO64
    ensures bars[s + 1] == Mask(answer, bars, s + 1) == TWO32 - HighHalf(size).gran
  {
    EndsAtTop(size, flags, bars[s], bars[s + 1]);
    FollowingRestores(answer, s + 1, HighHalf(size), bars[s + 1]);
    WriteOnes(HighHalf(size), Mask(answer, bars, s + 1));
  }

  /** A 64-bit BAR that reaches the top of the address space is dropped, and its upper half is decoded as a
      slot of its own: the scan keeps a BAR that the device does not have exactly at the sizes of
      `Misleads`, from 64 GiB on one as large as the upper half says. */
  lemma TopBarIsMisread(answer: Answer, bars: seq<U32>, s: nat, slots: nat, size: nat, flags: nat)
    requires s + 1 < slots <= |bars| && Mem64Flags(size, flags)
    requires Behaves(answer, bars, s, LowHalf(size, flags)) && Behaves(answer, bars, s + 1, HighHalf(size))
    requires bars[s + 1] * TWO32 + Address(bars[s], flags) + size >= TWO64
    ensures Seen(answer, bars, s, slots) == NoBar
    ensures Seen(answer, bars, s + 1, slots) ==
            if Misleads(answer, bars, s + 1, slots, size) then MadeUp(bars, s + 1, size) else NoBar
  {
    var g := HighHalf(size).gran;
    Mem64SeenExactly(answer, bars, s, slots, size, flags);
    TopWords(answer, bars, s, size, flags);
    HalfOf(size);
    if g >= 16 {
      Mem32SeenExactly(answer, bars, s + 1, slots, HighHalf(size));
    } else {
      SmallPow2(g);
      if g == 4 {
        WideHalf(s + 1, if s + 2 < slots then bars[s + 2] else 0, if s + 2 < slots then Mask(answer, bars, s + 2) else 0);
      } else {
        SmallHalf(s + 1, slots, g, 0, 0);
      }
    }
  }

  // ----- A whole device -----

  /** One BAR of a device; a slot without a BAR is a 32-bit one that asks for 4 GiB. */
  datatype Part = IoPart(r: Reg) | Mem32Part(r: Reg) | Mem64Part(size: nat, flags: nat)

  predicate PartOk(p: Part) {
    match p
    case IoPart(r) => IoReg(r)
    case Mem32Part(r) => Mem32Reg(r)
    case Mem64Part(size, flags) => Mem64Flags(size, flags)
  }

  function Width(p: Part): nat {
    if p.Mem64Part? then 2 else 1
  }

  /** The slots from `s` on are those of part `p`. */
  ghost predicate Has(answer: Answer, bars: seq<U32>, s: nat, p: Part) {
    && PartOk(p)
    && match p
       case IoPart(r) => Behaves(answer, bars, s, r)
       case Mem32Part(r) => Behaves(answer, bars, s, r)
       case Mem64Part(size, flags) => Behaves(answer, bars, s, LowHalf(size, flags)) && Behaves(answer, bars, s + 1, HighHalf(size))
  }

  function Length(parts: seq<Part>): nat {
    if parts == [] then 0 else Width(parts[0]) + Length(parts[1..])
  }

  /** The slots from `s` on are those of `parts`. */
  ghost predicate Consists(answer: Answer, bars: seq<U32>, s: nat, parts: seq<Part>)
    decreases |parts|
  {
    parts == [] || (Has(answer, bars, s, parts[0]) && Consists(answer, bars, s + Width(parts[0]), parts[1..]))
  }

  /** A 64-bit BAR ends below the last byte of the address space. */
  predicate Fits(bars: seq<U32>, s: nat, p: Part) {
    p.Mem64Part? ==> s + 1 < |bars| && bars[s + 1] * TWO32 + Address(bars[s], p.flags) + p.size < TWO64
  }

  /** The part's upper half passes for a BAR of its own. */
  predicate PartMisleads(answer: Answer, bars: seq<U32>, s: nat, slots: nat, p: Part)
    requires slots <= |bars|
  {
    p.Mem64Part? && !Fits(bars, s, p) && Misleads(answer, bars, s + 1, slots, p.size)
  }

  /** What a driver should find of part `p`: its address and size, unless it is an I/O BAR outside the
      I/O space of 64 KiB, an unassigned BAR that reads zero, one of 4 GiB, or a 64-bit BAR that
      reaches the top of the address space. */
  function PartBars(bars: seq<U32>, s: nat, p: Part): seq<Bar>
    requires s + Width(p) <= |bars|
  {
    match p
    case IoPart(r) =>
      var base := Address(bars[s], r.flags);
      if r.top == TWO32 && r.gran <= TWO16 && base < TWO16 then [Bar(s, Io, base, r.gran, false, bars[s], 0)] else []
    case Mem32Part(r) =>
      if bars[s] != 0 && r.gran < TWO32
      then [Bar(s, Mem32, Address(bars[s], r.flags), r.gran, r.flags / 8 % 2 == 1, bars[s], 0)] else []
    case Mem64Part(size, flags) =>
      if Fits(bars, s, p)
      then [Bar(s, Mem64, bars[s + 1] * TWO32 + Address(bars[s], flags), size, flags / 8 % 2 == 1, bars[s], bars[s + 1])] else []
  }

  function DeviceBars(bars: seq<U32>, s: nat, parts: seq<Part>): seq<Bar>
    requires s + Length(parts) <= |bars|
    decreases |parts|
  {
    if parts == [] then []
    else PartBars(bars, s, parts[0]) + DeviceBars(bars, s + Width(parts[0]), parts[1..])
  }

  /** As long as the record has room, no upper half passes for a BAR. */
  predicate NoneMisleads(answer: Answer, bars: seq<U32>, s: nat, slots: nat, parts: seq<Part>, room: nat)
    requires s + Length(parts) == slots <= |bars|
    decreases |parts|
  {
    parts == [] || room == 0 ||
    (var found := PartBars(bars, s, parts[0]);
     && !PartMisleads(answer, bars, s, slots, parts[0])
     && |found| <= room && NoneMisleads(answer, bars, s + Width(parts[0]), slots, parts[1..], room - |found|))
  }

  function Prefix(kept: seq<Bar>, room: nat): seq<Bar> {
    if |kept| <= room then kept else kept[..room]
  }

  // ----- What the scan sees of it -----

  /** What the driver makes of the slots of part `p`: the part's own BAR, nothing, or a BAR made up from its
      upper half. */
  predicate SeenAs(answer: Answer, bars: seq<U32>, s: nat, slots: nat, p: Part)
    requires s + Width(p) <= slots <= |bars|
  {
    var found := PartBars(bars, s, p);
    if found != [] then |found| == 1 && Seen(answer, bars, s, slots) == Found(found[0], Width(p))
    else
      && Seen(answer, bars, s, slots) == NoBar
      && (Width(p) == 2 ==>
            if PartMisleads(answer, bars, s, slots, p) then Seen(answer, bars, s + 1, slots) == MadeUp(bars, s + 1, p.size)
            else Seen(answer, bars, s + 1, slots) == NoBar)
  }

  lemma PartSeen(answer: Answer, bars: seq<U32>, s: nat, slots: nat, p: Part)
    requires s + Width(p) <= slots <= |bars| && Has(answer, bars, s, p)
    ensures SeenAs(answer, bars, s, slots, p)
  {
    match p
    case IoPart(r) => IoSeenExactly(answer, bars, s, slots, r);
    case Mem32Part(r) => Mem32SeenExactly(answer, bars, s, slots, r);
    case Mem64Part(size, flags) =>
      Mem64SeenExactly(answer, bars, s, slots, size, flags);
      if !Fits(bars, s, p) {
        TopBarIsMisread(answer, bars, s, slots, size, flags);
      }
  }

  /** What a scan keeps from a slot on, with the room it has. */
  type Scan = (nat, nat) -> seq<Bar>

  function ScanOf(answer: Answer, bars: seq<U32>, slots: nat): Scan
    requires slots <= |bars|
  {
    (s: nat, room: nat) requires slots <= |bars| => BarsFrom(answer, bars, s, slots, room)
  }

  /** The scan keeps the part's own BAR, if it has one, and goes on behind it; or it is misled. */
  predicate Keeps(scan: Scan, answer: Answer, bars: seq<U32>, s: nat, slots: nat, p: Part, room: nat)
    requires s + Width(p) <= slots <= |bars|
  {
    var found := PartBars(bars, s, p);
    if PartMisleads(answer, bars, s, slots, p) then found == [] && scan(s, room) != [] && scan(s, room)[0].index == s + 1
    else |found| <= room && scan(s, room) == found + scan(s + Width(p), room - |found|)
  }

  ghost predicate KeepsAll(scan: Scan, answer: Answer, bars: seq<U32>, s: nat, slots: nat, parts: seq<Part>)
    requires s + Length(parts) == slots <= |bars|
    decreases |parts|
  {
    && (forall room :: (parts == [] || room == 0) ==> scan(s, room) == [])
    && (parts != [] ==>
          && (forall room :: 0 < room ==> Keeps(scan, answer, bars, s, slots, parts[0], room))
          && KeepsAll(scan, answer, bars, s + Width(parts[0]), slots, parts[1..]))
  }

  lemma SkipSlot(answer: Answer, bars: seq<U32>, s: nat, slots: nat, room: nat)
    requires s < slots <= |bars| && Seen(answer, bars, s, slots) == NoBar
    ensures BarsFrom(answer, bars, s, slots, room) == BarsFrom(answer, bars, s + 1, slots, room)
  {
  }

  lemma KeepSlot(answer: Answer, bars: seq<U32>, s: nat, slots: nat, room: nat, b: Bar, used: nat)
    requires s < slots <= |bars| && 0 < room && 1 <= used <= 2 && Seen(answer, bars, s, slots) == Found(b, used)
    ensures BarsFrom(answer, bars, s, slots, room) == [b] + BarsFrom(answer, bars, s + used, slots, room - 1)
  {
  }

  lemma KeepsOwn(answer: Answer, bars: seq<U32>, s: nat, slots: nat, p: Part, room: nat, b: Bar)
    requires s + Width(p) <= slots <= |bars| && 0 < room && !PartMisleads(answer, bars, s, slots, p)
    requires PartBars(bars, s, p) == [b] && Seen(answer, bars, s, slots) == Found(b, Width(p))
    ensures Keeps(ScanOf(answer, bars, slots), answer, bars, s, slots, p, room)
  {
    KeepSlot(answer, bars, s, slots, room, b, Width(p));
  }

  lemma KeepsNone(answer: Answer, bars: seq<U32>, s: nat, slots: nat, p: Part, room: nat)
    requires s + Width(p) <= slots <= |bars| && !PartMisleads(answer, bars, s, slots, p) && PartBars(bars, s, p) == []
    requires Seen(answer, bars, s, slots) == NoBar && (Width(p) == 2 ==> Seen(answer, bars, s + 1, slots) == NoBar)
    ensures Keeps(ScanOf(answer, bars, slots), answer, bars, s, slots, p, room)
  {
    SkipSlot(answer, bars, s, slots, room);
    if Width(p) == 2 {
      SkipSlot(answer, bars, s + 1, slots, room);
    }
  }

  lemma KeepsMadeUp(answer: Answer, bars: seq<U32>, s: nat, slots: nat, p: Part, room: nat, b: Bar, used: nat)
    requires s + 2 == s + Width(p) <= slots <= |bars| && 0 < room && PartMisleads(answer, bars, s, slots, p) && PartBars(bars, s, p) == []
    requires Seen(answer, bars, s, slots) == NoBar && Seen(answer, bars, s + 1, slots) == Found(b, used)
    requires b.index == s + 1 && 1 <= used <= 2
    ensures Keeps(ScanOf(answer, bars, slots), answer, bars, s, slots, p, room)
  {
    SkipSlot(answer, bars, s, slots, room);
    KeepSlot(answer, bars, s + 1, slots, room, b, used);
  }

  lemma ScanPart(answer: Answer, bars: seq<U32>, s: nat, slots: nat, p: Part, room: nat)
    requires s + Width(p) <= slots <= |bars| && SeenAs(answer, bars, s, slots, p) && 0 < room
    ensures Keeps(ScanOf(answer, bars, slots), answer, bars, s, slots, p, room)
  {
    var found := PartBars(bars, s, p);
    if found != [] {
      assert found == [found[0]];
      KeepsOwn(answer, bars, s, slots, p, room, found[0]);
    } else if PartMisleads(answer, bars, s, slots, p) {
      var d := MadeUp(bars, s + 1, p.size);
      KeepsMadeUp(answer, bars, s, slots, p, room, d.bar, d.slots);
    } else {
      KeepsNone(answer, bars, s, slots, p, room);
    }
  }

  /** The slots from `s` up to `slots` are those of `parts`. */
  ghost predicate Laid(answer: Answer, bars: seq<U32>, s: nat, slots: nat, parts: seq<Part>) {
    s + Length(parts) == slots <= |bars| && Consists(answer, bars, s, parts)
  }

  lemma {:induction false} DeviceScan(answer: Answer, bars: seq<U32>, s: nat, slots: nat, parts: seq<Part>)
    requires Laid(answer, bars, s, slots, parts)
    ensures KeepsAll(ScanOf(answer, bars, slots), answer, bars, s, slots, parts)
    decreases |parts|
  {
    if parts != [] {
      PartSeen(answer, bars, s, slots, parts[0]);
      forall room: nat | 0 < room
        ensures Keeps(ScanOf(answer, bars, slots), answer, bars, s, slots, parts[0], room)
      {
        ScanPart(answer, bars, s, slots, parts[0], room);
      }
      DeviceScan(answer, bars, s + Width(parts[0]), slots, parts[1..]);
    }
  }

  // ----- Whether that is right -----

  lemma PrefixAppend(kept: seq<Bar>, all: seq<Bar>, found: seq<Bar>, keptLater: seq<Bar>, later: seq<Bar>, room: nat)
    requires |found| <= room && kept == found + keptLater && all == found + later
    ensures keptLater == Prefix(later, room - |found|) <==> kept == Prefix(all, room)
  {
    var n := |found|;
    assert kept[n..] == keptLater && kept[..n] == found;
    assert all[n..] == later && all[..n] == found;
    if |all| <= room {
      assert kept == all <==> keptLater == later;
    } else {
      assert all[..room] == found + later[..room - n];
      assert kept == all[..room] <==> keptLater == later[..room - n];
    }
  }

  /** A device's BARs lie in its own slots. */
  lemma {:induction false} DeviceIndices(bars: seq<U32>, s: nat, parts: seq<Part>, n: nat)
    requires s + Length(parts) <= |bars| && n < |DeviceBars(bars, s, parts)|
    ensures s <= DeviceBars(bars, s, parts)[n].index
    decreases |parts|
  {
    var found := PartBars(bars, s, parts[0]);
    if n >= |found| {
      DeviceIndices(bars, s + Width(parts[0]), parts[1..], n - |found|);
    }
  }

  lemma NoneFound(bars: seq<U32>, s: nat, parts: seq<Part>)
    requires parts != [] && s + Length(parts) <= |bars| && PartBars(bars, s, parts[0]) == []
    ensures DeviceBars(bars, s, parts) == DeviceBars(bars, s + Width(parts[0]), parts[1..])
  {
  }

  lemma FirstDiffers(kept: seq<Bar>, all: seq<Bar>, room: nat)
    requires kept != [] && (all == [] || all[0] != kept[0])
    ensures kept != Prefix(all, room)
  {
  }

  lemma FirstBehind(bars: seq<U32>, s: nat, parts: seq<Part>)
    requires parts != [] && s + Length(parts) <= |bars| && PartBars(bars, s, parts[0]) == []
    ensures DeviceBars(bars, s, parts) != [] ==> s + Width(parts[0]) <= DeviceBars(bars, s, parts)[0].index
  {
    NoneFound(bars, s, parts);
    if DeviceBars(bars, s, parts) != [] {
      DeviceIndices(bars, s + Width(parts[0]), parts[1..], 0);
    }
  }

  /** A scan that goes from part to part finds the device's BARs exactly if nothing misleads it. */
  lemma {:induction false} KeepsExactly(scan: Scan, answer: Answer, bars: seq<U32>, s: nat, slots: nat, parts: seq<Part>, room: nat)
    requires s + Length(parts) == slots <= |bars| && KeepsAll(scan, answer, bars, s, slots, parts)
    ensures scan(s, room) == Prefix(DeviceBars(bars, s, parts), room) <==> NoneMisleads(answer, bars, s, slots, parts, room)
    decreases |parts|
  {
    if parts != [] && room > 0 {
      var p, t, rest := parts[0], s + Width(parts[0]), parts[1..];
      assert Keeps(scan, answer, bars, s, slots, p, room);
      if PartMisleads(answer, bars, s, slots, p) {
        FirstBehind(bars, s, parts);
        FirstDiffers(scan(s, room), DeviceBars(bars, s, parts), room);
      } else {
        var found := PartBars(bars, s, p);
        KeepsExactly(scan, answer, bars, t, slots, rest, room - |found|);
        PrefixAppend(scan(s, room), DeviceBars(bars, s, parts), found, scan(t, room - |found|), DeviceBars(bars, t, rest), room);
      }
    }
  }

  /** The scan finds the device's BARs, in order, as many as the record has room for, if and only if no
      upper half passes for a BAR before the room is used up. */
  lemma ScanFindsDevice(answer: Answer, bars: seq<U32>, s: nat, slots: nat, parts: seq<Part>, room: nat)
    requires Laid(answer, bars, s, slots, parts)
    ensures BarsFrom(answer, bars, s, slots, room) == Prefix(DeviceBars(bars, s, parts), room)
            <==> NoneMisleads(answer, bars, s, slots, parts, room)
  {
    DeviceScan(answer, bars, s, slots, parts);
    KeepsExactly(ScanOf(answer, bars, slots), answer, bars, s, slots, parts, room);
  }

  // ----- What it writes -----

  /** The device takes back all that the scan writes. */
  lemma {:induction false} DeviceUndoes(answer: Answer, bars: seq<U32>, s: nat, parts: seq<Part>, t: nat)
    requires s + Length(parts) <= |bars| && Consists(answer, bars, s, parts) && s <= t < s + Length(parts)
    ensures Restores(answer, bars, t)
    decreases |parts|
  {
    var p := parts[0];
    if t >= s + Width(p) {
      DeviceUndoes(answer, bars, s + Width(p), parts[1..], t);
    } else {
      PartUndoes(answer, bars, s, p, t);
    }
  }

  lemma PartUndoes(answer: Answer, bars: seq<U32>, s: nat, p: Part, t: nat)
    requires Has(answer, bars, s, p) && s <= t < s + Width(p)
    ensures t < |bars| && Restores(answer, bars, t)
  {
    match p
    case IoPart(r) => FollowingRestores(answer, s, r, bars[s]);
    case Mem32Part(r) => FollowingRestores(answer, s, r, bars[s]);
    case Mem64Part(size, flags) =>
      FollowingRestores(answer, s, LowHalf(size, flags), bars[s]);
      FollowingRestores(answer, s + 1, HighHalf(size), bars[s + 1]);
  }

  /** A device with the BARs `parts` behind the slots of a layout. */
  ghost predicate IsDevice(answer: Answer, command: AnswerCommand, bars: seq<U32>, cmd: U16, slots: nat, parts: seq<Part>) {
    Laid(answer, bars, 0, slots, parts) && RestoresCommand(command, cmd)
  }

  lemma DeviceRestores(answer: Answer, command: AnswerCommand, bars: seq<U32>, cmd: U16, slots: nat, parts: seq<Part>)
    requires IsDevice(answer, command, bars, cmd, slots, parts)
    ensures AllUndone(answer, command, bars, cmd, slots)
  {
    forall t | 0 <= t < slots
      ensures Restores(answer, bars, t)
    {
      DeviceUndoes(answer, bars, 0, parts, t);
    }
  }
}

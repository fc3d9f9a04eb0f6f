/** BAR sizing (bar_probe, bar_decode of kernel/drivers/pci.c) against registers that behave as
    section 6.2.5.1 of the PCI Local Bus Specification 3.0 says: the address bits below the size are
    hardwired, so writing all ones reads back the size. */
module PciBar {
  import opened Ring

  const TWO16: nat := 0x1_0000
  const TWO32: nat := 0x1_0000_0000
  const TWO64: nat := 0x1_0000_0000_0000_0000

  // ----- Powers of two -----

  predicate IsPow2(v: nat) {
    v == 1 || (v > 1 && v % 2 == 0 && IsPow2(v / 2))
  }

  /** Bitwise and. */
  function And(x: nat, y: nat): nat {
    if x == 0 || y == 0 then 0 else (if x % 2 == 1 && y % 2 == 1 then 1 else 0) + 2 * And(x / 2, y / 2)
  }

  /** The test v != 0 && (v & (v - 1)) == 0 accepts exactly the powers of two. */
  lemma {:induction false} PowerOfTwoTest(v: nat)
    requires 0 < v
    ensures And(v, v - 1) == 0 <==> IsPow2(v)
  {
    if v > 1 {
      if v % 2 == 0 {
        PowerOfTwoTest(v / 2);
        assert (v - 1) / 2 == v / 2 - 1 && (v - 1) % 2 == 1;
      } else {
        AndSelf(v / 2);
        assert (v - 1) / 2 == v / 2 && (v - 1) % 2 == 0;
      }
    }
  }

  lemma {:induction false} AndSelf(x: nat)
    ensures And(x, x) == x
  {
    if x > 0 {
      AndSelf(x / 2);
    }
  }

  lemma {:induction false} Pow2Divides(a: nat, b: nat)
    requires IsPow2(a) && IsPow2(b) && a <= b
    ensures exists m: nat :: 0 < m && b == m * a && IsPow2(m)
    decreases a
  {
    if a == 1 {
      assert b == b * 1 && 0 < b;
    } else {
      Pow2Divides(a / 2, b / 2);
      var m: nat :| 0 < m && b / 2 == m * (a / 2) && IsPow2(m);
      assert b == m * a by {
        assert b == 2 * (b / 2) && a == 2 * (a / 2);
        assert 2 * (m * (a / 2)) == m * (2 * (a / 2));
      }
    }
  }

  ghost predicate IsMultiple(v: int, d: nat) {
    exists q: nat :: v == q * d
  }

  lemma MultipleIsAligned(v: nat, d: nat)
    requires 0 < d
    ensures v % d == 0 <==> IsMultiple(v, d)
  {
    DivModDef(v, d);
    if IsMultiple(v, d) {
      var q: nat :| v == q * d;
      DivModIs(v, d, q, 0);
    }
  }

  /** An aligned block that starts below a power-of-two limit ends at or below it. */
  lemma AlignedFits(base: nat, size: nat, limit: nat)
    requires IsPow2(size) && IsPow2(limit) && size <= limit && base < limit && IsMultiple(base, size)
    ensures base + size <= limit
  {
    Pow2Divides(size, limit);
    var m: nat :| 0 < m && limit == m * size && IsPow2(m);
    var q: nat :| base == q * size;
    MultiplesGap(q, m, size);
  }

  lemma MultiplesGap(q: nat, m: nat, d: nat)
    requires q * d < m * d
    ensures q * d + d <= m * d
  {
    if q < m {
      MulGap(q, m, d);
    } else {
      MulMono(m, q, d);
    }
  }

  lemma MulMono(a: nat, b: nat, d: nat)
    requires a <= b
    ensures a * d <= b * d
  {
    assert b * d == a * d + (b - a) * d;
    assert 0 <= (b - a) * d;
  }

  lemma Consts()
    ensures IsPow2(4) && IsPow2(16) && IsPow2(TWO16) && IsPow2(TWO32 / 2) && IsPow2(TWO32)
  {
    assert IsPow2(1) && IsPow2(2) && IsPow2(4) && IsPow2(8) && IsPow2(16);
    assert IsPow2(0x100) by { Double4(16); }
    assert IsPow2(0x1000) by { Double4(0x100); }
    assert IsPow2(0x1_0000) by { Double4(0x1000); }
    assert IsPow2(0x10_0000) by { Double4(0x1_0000); }
    assert IsPow2(0x100_0000) by { Double4(0x10_0000); }
    assert IsPow2(0x1000_0000) by { Double4(0x100_0000); }
    assert IsPow2(0x8000_0000) by { assert IsPow2(0x2000_0000); assert IsPow2(0x4000_0000); }
  }

  lemma Double4(v: nat)
    requires IsPow2(v)
    ensures IsPow2(16 * v)
  {
    Double(v);
    Double(2 * v);
    Double(4 * v);
    Double(8 * v);
  }

  lemma Double(v: nat)
    requires IsPow2(v)
    ensures IsPow2(2 * v)
  {
    assert 2 * v % 2 == 0 && 2 * v / 2 == v;
  }

  // ----- The hardware -----

  type U16 = x: nat | x < TWO16
  type U32 = x: nat | x < TWO32

  /** One 32-bit register: the address bits from `gran` up to `top` are writable, the low bits are the
      type `flags`, everything else reads zero. */
  datatype Reg = Reg(gran: nat, top: nat, flags: nat)

  predicate RegOk(r: Reg) {
    IsPow2(r.gran) && (r.top == TWO16 || r.top == TWO32) && r.gran <= r.top && r.flags < 16 && r.flags < r.gran
  }

  /** What the register can read as. */
  ghost predicate Holds(r: Reg, v: nat) {
    IsMultiple(v - r.flags, r.gran) && v - r.flags + r.gran <= r.top
  }

  /** Register `r` reads `w` once `v` has been written: the writable bits of `v`, and the flags. */
  ghost predicate Shows(r: Reg, v: U32, w: nat) {
    && Holds(r, w)
    && (var kept := if r.top == TWO16 then v % TWO16 else v;
        w - r.flags <= kept < w - r.flags + r.gran)
  }

  lemma SameMultiple(a: int, b: int, d: nat, v: int)
    requires IsMultiple(a, d) && IsMultiple(b, d)
    requires a <= v < a + d && b <= v < b + d
    ensures a == b
  {
    var p: nat :| a == p * d;
    var q: nat :| b == q * d;
    if p < q {
      MulGap(p, q, d);
    } else if q < p {
      MulGap(q, p, d);
    }
  }

  /** Writing back what a register holds changes nothing. */
  lemma WriteBack(r: Reg, v: U32, w: nat)
    requires RegOk(r) && Holds(r, v) && Shows(r, v, w)
    ensures w == v
  {
    SameMultiple(v - r.flags, w - r.flags, r.gran, v);
  }

  lemma WritableIsMultiple(r: Reg)
    requires RegOk(r)
    ensures IsMultiple(r.top - r.gran, r.gran)
  {
    Consts();
    Pow2Divides(r.gran, r.top);
    var m: nat :| 0 < m && r.top == m * r.gran && IsPow2(m);
    assert r.top - r.gran == (m - 1) * r.gran;
  }

  /** After all ones the register shows its writable bits. */
  lemma WriteOnes(r: Reg, w: nat)
    requires RegOk(r) && Shows(r, TWO32 - 1, w)
    ensures w == r.top - r.gran + r.flags
  {
    WritableIsMultiple(r);
    OnesKept(r, w);
    SameMultiple(r.top - r.gran, w - r.flags, r.gran, r.top - 1);
  }

  lemma OnesKept(r: Reg, w: nat)
    requires (r.top == TWO16 || r.top == TWO32) && Shows(r, TWO32 - 1, w)
    ensures w - r.flags <= r.top - 1 < w - r.flags + r.gran
  {
    assert (TWO32 - 1) % TWO16 == TWO16 - 1;
  }

  // ----- What the driver makes of the words it read -----

  datatype Kind = Io | Mem32 | Mem64

  datatype Bar = Bar(index: nat, kind: Kind, base: nat, size: nat, prefetchable: bool, rawLow: U32, rawHigh: U32)

  datatype Decoded = NoBar | Found(bar: Bar, slots: nat)

  /** `v` with the bits below the power of two `g` cleared. */
  function Clear(v: nat, g: nat): nat
    requires g == 4 || g == 16
  {
    if g == 4 then v - v % 4 else v - v % 16
  }

  /** Two's complement in a word of `w` values. */
  function Negate(v: nat, w: nat): nat
    requires v < w
  {
    if v == 0 then 0 else w - v
  }

  predicate Aligned(base: nat, size: nat) {
    0 < size && base % size == 0
  }

  predicate PowerOfTwo(v: nat) {
    v != 0 && And(v, v - 1) == 0
  }

  predicate IsIo(raw: nat) {
    raw % 2 == 1
  }

  predicate IsWide(raw: nat) {
    !IsIo(raw) && raw / 2 % 4 == 2
  }

  function IoBar(slot: nat, raw: U32, mask: U32): Decoded {
    var base, size := Clear(raw, 4), Negate(Clear(mask, 4), TWO32);
    if IsPow2(size) && Aligned(base, size) && base <= 0xFFFF && size <= 0x10000
    then Found(Bar(slot, Io, base, size, false, raw, 0), 1) else NoBar
  }

  function Mem32Bar(slot: nat, raw: U32, mask: U32): Decoded {
    var base, size := Clear(raw, 16), Negate(Clear(mask, 16), TWO32);
    if IsPow2(size) && Aligned(base, size) && size <= TWO32 - base
    then Found(Bar(slot, Mem32, base, size, raw / 8 % 2 == 1, raw, 0), 1) else NoBar
  }

  function Mem64Bar(slot: nat, raw: U32, high: U32, maskLow: U32, maskHigh: U32): Decoded {
    var base, combined := high * TWO32 + Clear(raw, 16), maskHigh * TWO32 + Clear(maskLow, 16);
    var size := Negate(combined, TWO64);
    if IsPow2(size) && Aligned(base, size) && size <= TWO64 - 1 - base
    then Found(Bar(slot, Mem64, base, size, raw / 8 % 2 == 1, raw, high), 2) else NoBar
  }

  /** Whatever the hardware answered, a BAR that is kept is a power of two in size, aligned to it, and
      ends inside its address space. */
  ghost predicate Sane(b: Bar) {
    && IsPow2(b.size) && Aligned(b.base, b.size)
    && b.base + b.size <= (match b.kind case Io => TWO16 case Mem32 => TWO32 case Mem64 => TWO64 - 1)
  }

  lemma KeptIoIsSane(slot: nat, raw: U32, mask: U32)
    requires IoBar(slot, raw, mask).Found?
    ensures Sane(IoBar(slot, raw, mask).bar)
  {
    var b := IoBar(slot, raw, mask).bar;
    Consts();
    MultipleIsAligned(b.base, b.size);
    AlignedFits(b.base, b.size, TWO16);
  }

  // ----- On hardware that follows the specification -----

  lemma SmallPowers()
    ensures IsPow2(4) && IsPow2(16)
  {
    Consts();
  }

  lemma ClearFlags(gran: nat, g: nat, a: int, flags: nat)
    requires IsPow2(gran) && (g == 4 || g == 16) && g <= gran && IsMultiple(a, gran) && 0 <= a && flags < g
    ensures Clear(a + flags, g) == a && (a + flags) % g == flags
  {
    SmallPowers();
    Pow2Divides(g, gran);
    var m: nat :| 0 < m && gran == m * g && IsPow2(m);
    var q: nat :| a == q * gran;
    var n := q * m;
    assert a == n * g by {
      MulAssoc(q, m, g);
    }
    ClearMultiple(n, g, flags);
  }

  lemma MulAssoc(a: int, b: int, c: int)
    ensures a * (b * c) == (a * b) * c
  {
  }

  lemma ClearMultiple(q: nat, g: nat, flags: nat)
    requires (g == 4 || g == 16) && flags < g
    ensures Clear(q * g + flags, g) == q * g && (q * g + flags) % g == flags
  {
    if g == 4 {
      assert (q * 4 + flags) % 4 == flags;
    } else {
      assert (q * 16 + flags) % 16 == flags;
    }
  }

  /** No power of two lies strictly between one and its double. */
  lemma NoPowerBetween(a: nat, v: nat)
    requires IsPow2(a) && a < v < 2 * a
    ensures !IsPow2(v)
  {
    if IsPow2(v) {
      Pow2Divides(a, v);
      var m: nat :| 0 < m && v == m * a && IsPow2(m);
      if m >= 2 {
        MulMono(2, m, a);
      }
    }
  }

  lemma HeldIsMultiple(r: Reg, v: nat)
    requires RegOk(r) && Holds(r, v)
    ensures r.flags <= v && IsMultiple(v - r.flags, r.gran) && v - r.flags < r.top
  {
    var q: nat :| v - r.flags == q * r.gran;
    assert 0 <= q * r.gran;
  }

  /** The words the driver reads, without their flags: the base, and the writable bits. */
  lemma Words(r: Reg, g: nat, raw: U32, mask: U32)
    requires RegOk(r) && (g == 4 || g == 16) && g <= r.gran && r.flags < g
    requires Holds(r, raw) && Shows(r, TWO32 - 1, mask)
    ensures r.flags <= raw && Clear(raw, g) == raw - r.flags && raw % g == r.flags
    ensures IsMultiple(raw - r.flags, r.gran) && raw - r.flags < r.top
    ensures Clear(mask, g) == r.top - r.gran
  {
    WriteOnes(r, mask);
    HeldIsMultiple(r, raw);
    WritableIsMultiple(r);
    ClearFlags(r.gran, g, raw - r.flags, r.flags);
    ClearFlags(r.gran, g, r.top - r.gran, r.flags);
  }

  /** The words of an I/O BAR describe the device's size and base exactly when it implements the upper
      sixteen address bits, asks for no more than the I/O space and sits inside it. */
  lemma IoSizedExactly(slot: nat, r: Reg, raw: U32, mask: U32)
    requires RegOk(r) && 4 <= r.gran && r.flags < 4 && r.flags % 2 == 1
    requires Holds(r, raw) && Shows(r, TWO32 - 1, mask)
    ensures IsIo(raw)
    ensures IoBar(slot, raw, mask).Found? <==> r.top == TWO32 && r.gran <= TWO16 && raw - r.flags < TWO16
    ensures IoBar(slot, raw, mask).Found? ==>
              IoBar(slot, raw, mask).bar.size == r.gran && IoBar(slot, raw, mask).bar.base == raw - r.flags
  {
    Words(r, 4, raw, mask);
    LowBit(raw, r.flags);
    IoSize(r, Negate(Clear(mask, 4), TWO32));
    assert Aligned(raw - r.flags, r.gran) by {
      MultipleIsAligned(raw - r.flags, r.gran);
    }
  }

  lemma LowBit(v: nat, flags: nat)
    requires v % 4 == flags
    ensures v % 2 == flags % 2
  {
    DivModIs(v, 2, 2 * (v / 4) + flags / 2, flags % 2);
  }

  lemma HalfWord()
    ensures IsPow2(TWO32 / 2)
  {
    Consts();
  }

  lemma IoSize(r: Reg, size: nat)
    requires RegOk(r) && size == Negate(r.top - r.gran, TWO32)
    ensures IsPow2(size) <==> r.top == TWO32 && r.gran < TWO32
    ensures IsPow2(size) ==> size == r.gran
  {
    if r.top == TWO16 && r.gran < TWO16 {
      HalfWord();
      NoPowerBetween(TWO32 / 2, size);
    }
  }

  /** The words of a 32-bit memory BAR, nonzero or not, describe the device's size and base exactly when
      the device does not ask for the whole 4 GiB. */
  lemma Mem32SizedExactly(slot: nat, r: Reg, raw: U32, mask: U32)
    requires RegOk(r) && 16 <= r.gran && r.top == TWO32 && r.flags % 2 == 0 && r.flags / 2 % 4 != 2
    requires Holds(r, raw) && Shows(r, TWO32 - 1, mask)
    ensures !IsIo(raw) && !IsWide(raw)
    ensures Mem32Bar(slot, raw, mask).Found? <==> r.gran < TWO32
    ensures Mem32Bar(slot, raw, mask).Found? ==>
              && Mem32Bar(slot, raw, mask).bar.size == r.gran
              && Mem32Bar(slot, raw, mask).bar.base == raw - r.flags
              && (Mem32Bar(slot, raw, mask).bar.prefetchable <==> r.flags / 8 % 2 == 1)
  {
    Words(r, 16, raw, mask);
    LowBits(raw, r.flags);
    MultipleIsAligned(raw - r.flags, r.gran);
    assert Negate(Clear(mask, 16), TWO32) == if r.gran == TWO32 then 0 else r.gran;
  }

  lemma LowBits(v: nat, flags: nat)
    requires v % 16 == flags
    ensures v % 2 == flags % 2 && v / 2 % 4 == flags / 2 % 4 && v / 8 % 2 == flags / 8 % 2
  {
    var k := v / 16;
    DivModIs(v, 2, 8 * k + flags / 2, flags % 2);
    DivModIs(8 * k + flags / 2, 4, 2 * k + flags / 2 / 4, flags / 2 % 4);
    DivModIs(v, 8, 2 * k + flags / 8, flags % 8);
    DivModIs(2 * k + flags / 8, 2, k + flags / 8 / 2, flags / 8 % 2);
  }

  /** The two halves of a 64-bit BAR that asks for `size` bytes. */
  function LowHalf(size: nat, flags: nat): Reg {
    Reg(if size < TWO32 then size else TWO32, TWO32, flags)
  }

  function HighHalf(size: nat): Reg {
    Reg(if size < TWO32 then 1 else size / TWO32, TWO32, 0)
  }

  lemma WideMultiple(size: nat, flags: nat, raw: nat, high: nat)
    requires IsPow2(size) && 16 <= size && RegOk(LowHalf(size, flags)) && RegOk(HighHalf(size))
    requires Holds(LowHalf(size, flags), raw) && Holds(HighHalf(size), high)
    ensures flags <= raw && IsMultiple(high * TWO32 + (raw - flags), size)
  {
    HeldIsMultiple(LowHalf(size, flags), raw);
    if size < TWO32 {
      NarrowMultiple(size, raw - flags, high);
    } else {
      BroadMultiple(size, high);
    }
  }

  lemma NarrowMultiple(size: nat, low: nat, high: nat)
    requires IsPow2(size) && size < TWO32 && IsMultiple(low, size)
    ensures IsMultiple(high * TWO32 + low, size)
  {
    Consts();
    Pow2Divides(size, TWO32);
    var m: nat :| 0 < m && TWO32 == m * size && IsPow2(m);
    AddMultiple(high, m, low, size);
  }

  lemma BroadMultiple(size: nat, high: nat)
    requires IsPow2(size) && TWO32 <= size && IsMultiple(high, size / TWO32)
    ensures IsMultiple(high * TWO32, size)
  {
    Consts();
    Pow2Divides(TWO32, size);
    var m: nat :| 0 < m && size == m * TWO32 && IsPow2(m);
    assert size / TWO32 == m;
    ScaleMultiple(high, m, TWO32);
  }

  lemma AddMultiple(high: nat, m: nat, low: nat, size: nat)
    requires IsMultiple(low, size)
    ensures IsMultiple(high * (m * size) + low, size)
  {
    var p: nat :| low == p * size;
    var n := high * m;
    MulAssoc(high, m, size);
    assert n * size + p * size == (n + p) * size;
  }

  lemma ScaleMultiple(high: nat, m: nat, d: nat)
    requires IsMultiple(high, m)
    ensures IsMultiple(high * d, m * d)
  {
    var q: nat :| high == q * m;
    MulAssoc(q, m, d);
  }

  lemma WideSplit(size: nat)
    requires IsPow2(size) && 16 <= size
    ensures (TWO32 - HighHalf(size).gran) * TWO32 + (TWO32 - LowHalf(size, 0).gran) == TWO64 - size
  {
    if TWO32 <= size {
      Consts();
      Pow2Divides(TWO32, size);
      var m: nat :| 0 < m && size == m * TWO32 && IsPow2(m);
      assert size / TWO32 == m;
    }
  }

  lemma WideWords(size: nat, flags: nat, raw: U32, high: U32, maskLow: U32, maskHigh: U32)
    requires IsPow2(size) && 16 <= size && RegOk(LowHalf(size, flags)) && RegOk(HighHalf(size))
    requires Holds(LowHalf(size, flags), raw) && Shows(LowHalf(size, flags), TWO32 - 1, maskLow)
    requires Shows(HighHalf(size), TWO32 - 1, maskHigh)
    ensures raw >= flags && Clear(raw, 16) == raw - flags && raw % 16 == flags
    ensures maskHigh * TWO32 + Clear(maskLow, 16) == TWO64 - size
  {
    LowIsPow2(size);
    Words(LowHalf(size, flags), 16, raw, maskLow);
    WriteOnes(HighHalf(size), maskHigh);
    WideSplit(size);
  }

  /** The words of a 64-bit BAR describe the device's size and base exactly when it ends below the last
      byte of the address space. */
  lemma Mem64SizedExactly(slot: nat, size: nat, flags: nat, raw: U32, high: U32, maskLow: U32, maskHigh: U32)
    requires IsPow2(size) && 16 <= size && RegOk(LowHalf(size, flags)) && RegOk(HighHalf(size))
    requires flags % 2 == 0 && flags / 2 % 4 == 2
    requires Holds(LowHalf(size, flags), raw) && Shows(LowHalf(size, flags), TWO32 - 1, maskLow)
    requires Holds(HighHalf(size), high) && Shows(HighHalf(size), TWO32 - 1, maskHigh)
    ensures raw >= flags && raw != 0 && IsWide(raw)
    ensures var base := high * TWO32 + (raw - flags);
            Mem64Bar(slot, raw, high, maskLow, maskHigh) ==
            if base + size < TWO64 then Found(Bar(slot, Mem64, base, size, flags / 8 % 2 == 1, raw, high), 2) else NoBar
  {
    WideWords(size, flags, raw, high, maskLow, maskHigh);
    LowBits(raw, flags);
    WideAligned(size, flags, raw, high);
    WideVerdict(slot, size, flags, raw, high, maskLow, maskHigh);
  }

  lemma WideVerdict(slot: nat, size: nat, flags: nat, raw: U32, high: U32, maskLow: U32, maskHigh: U32)
    requires IsPow2(size) && flags <= raw && Clear(raw, 16) == raw - flags && raw / 8 % 2 == flags / 8 % 2
    requires maskHigh * TWO32 + Clear(maskLow, 16) == TWO64 - size && 16 <= size
    requires Aligned(high * TWO32 + (raw - flags), size)
    ensures var base := high * TWO32 + (raw - flags);
            Mem64Bar(slot, raw, high, maskLow, maskHigh) ==
            if base + size < TWO64 then Found(Bar(slot, Mem64, base, size, flags / 8 % 2 == 1, raw, high), 2) else NoBar
  {
  }

  lemma WideAligned(size: nat, flags: nat, raw: nat, high: nat)
    requires IsPow2(size) && 16 <= size && RegOk(LowHalf(size, flags)) && RegOk(HighHalf(size))
    requires flags <= raw && Holds(LowHalf(size, flags), raw) && Holds(HighHalf(size), high)
    ensures Aligned(high * TWO32 + (raw - flags), size)
  {
    WideMultiple(size, flags, raw, high);
    MultipleIsAligned(high * TWO32 + (raw - flags), size);
  }

  lemma LowIsPow2(size: nat)
    requires IsPow2(size) && 16 <= size
    ensures IsPow2(LowHalf(size, 0).gran) && 16 <= LowHalf(size, 0).gran
  {
    Consts();
  }

  ghost predicate Follows(answer: (nat, U32, U32) -> U32, s: nat, r: Reg) {
    forall v: U32, w: U32 :: Shows(r, w, answer(s, v, w))
  }

  /** Hardware that follows the specification shows its mask, and takes back what it held. */
  lemma FollowingRestores(answer: (nat, U32, U32) -> U32, s: nat, r: Reg, v: U32)
    requires RegOk(r) && Follows(answer, s, r) && Holds(r, v)
    ensures Shows(r, TWO32 - 1, answer(s, v, TWO32 - 1))
    ensures answer(s, answer(s, v, TWO32 - 1), v) == v
  {
    var mask := answer(s, v, TWO32 - 1);
    assert Shows(r, v, answer(s, mask, v));
    WriteBack(r, v, answer(s, mask, v));
  }

  // ----- The driver -----

  /** Everything the driver makes of one slot, from the words it reads there. */
  function Decode(slot: nat, slots: nat, raw: U32, high: U32, maskLow: U32, maskHigh: U32): Decoded {
    if raw == 0 then NoBar
    else if IsIo(raw) then IoBar(slot, raw, maskLow)
    else if !IsWide(raw) then Mem32Bar(slot, raw, maskLow)
    else if slot + 1 >= slots then NoBar
    else Mem64Bar(slot, raw, high, maskLow, maskHigh)
  }

  type Answer = (nat, U32, U32) -> U32
  type AnswerCommand = (U16, U16) -> U16

  /** What slot `s` shows after all ones, written over what it holds. */
  function Mask(answer: Answer, bars: seq<U32>, s: nat): U32
    requires s < |bars|
  {
    answer(s, bars[s], TWO32 - 1)
  }

  /** The hardware takes back what it held before all ones were written, and before decoding was
      switched off. */
  predicate Restores(answer: Answer, bars: seq<U32>, s: nat)
    requires s < |bars|
  {
    answer(s, Mask(answer, bars, s), bars[s]) == bars[s]
  }

  predicate RestoresCommand(answer: AnswerCommand, command: U16) {
    answer(answer(command, command - command % 4), command) == command
  }

  /** What slot `s` holds, and whether the hardware takes back all that is written to find out. */
  function Seen(answer: Answer, bars: seq<U32>, s: nat, slots: nat): Decoded
    requires s < slots <= |bars|
  {
    if IsWide(bars[s]) && s + 1 < slots
    then Decode(s, slots, bars[s], bars[s + 1], Mask(answer, bars, s), Mask(answer, bars, s + 1))
    else Decode(s, slots, bars[s], 0, Mask(answer, bars, s), 0)
  }

  predicate Undone(answer: Answer, command: AnswerCommand, bars: seq<U32>, cmd: U16, s: nat, slots: nat)
    requires s < slots <= |bars|
  {
    || bars[s] == 0
    || (IsWide(bars[s]) && s + 1 >= slots)
    || (Restores(answer, bars, s) && (IsWide(bars[s]) ==> Restores(answer, bars, s + 1)) && RestoresCommand(command, cmd))
  }

  /** The first `room` BARs from slot `s` on: a 64-bit BAR takes two slots, an unusable slot one. */
  function BarsFrom(answer: Answer, bars: seq<U32>, s: nat, slots: nat, room: nat): seq<Bar>
    requires slots <= |bars|
    decreases slots - s
  {
    if s >= slots || room == 0 then []
    else match Seen(answer, bars, s, slots)
      case NoBar => BarsFrom(answer, bars, s + 1, slots, room)
      case Found(b, used) => [b] + BarsFrom(answer, bars, s + (if used == 2 then 2 else 1), slots, room - 1)
  }

  /** One slot of the scan. */
  lemma BarsStep(answer: Answer, bars: seq<U32>, s: nat, slots: nat, room: nat, kept: seq<Bar>)
    requires s < slots <= |bars| && |kept| < room
    ensures match Seen(answer, bars, s, slots)
            case NoBar => BarsFrom(answer, bars, s, slots, room - |kept|) == BarsFrom(answer, bars, s + 1, slots, room - |kept|)
            case Found(b, used) =>
              && 1 <= used <= 2
              && kept + BarsFrom(answer, bars, s, slots, room - |kept|)
                 == (kept + [b]) + BarsFrom(answer, bars, s + used, slots, room - |kept + [b]|)
  {
  }

  predicate AllUndone(answer: Answer, command: AnswerCommand, bars: seq<U32>, cmd: U16, slots: nat)
    requires slots <= |bars|
  {
    forall s :: 0 <= s < slots ==> Undone(answer, command, bars, cmd, s, slots)
  }

  /** Hardware that follows the specification in every slot takes back all that the scan writes. */
  lemma FollowingUndoes(answer: Answer, command: AnswerCommand, bars: seq<U32>, cmd: U16, regs: seq<Reg>, slots: nat)
    requires slots <= |bars| == |regs| && RestoresCommand(command, cmd)
    requires forall s :: 0 <= s < |regs| ==> RegOk(regs[s]) && Follows(answer, s, regs[s]) && Holds(regs[s], bars[s])
    ensures AllUndone(answer, command, bars, cmd, slots)
  {
    forall s | 0 <= s < |bars|
      ensures Restores(answer, bars, s)
    {
      FollowingRestores(answer, s, regs[s], bars[s]);
    }
  }

  lemma TestIsPower(v: nat)
    ensures PowerOfTwo(v) <==> IsPow2(v)
  {
    if 0 < v {
      PowerOfTwoTest(v);
    }
  }
}

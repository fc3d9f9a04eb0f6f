/** Which I/O APIC pin a global system interrupt belongs to: apic_gsi_owner_at and apic_ranges_overlap
    of kernel/interrupts/apic.c. */
module Gsi {

  type U32 = x: nat | x < 0x1_0000_0000

  /** One I/O APIC: its first interrupt and the index of its last pin. */
  datatype IoApic = IoApic(base: U32, last: U32)

  datatype Owner = Pin(index: nat, pin: nat) | NotFound | Invalid

  predicate Covers(a: IoApic, gsi: nat) {
    a.base <= gsi <= a.base + a.last
  }

  /** The two share an interrupt number. */
  predicate Overlap(a: IoApic, b: IoApic) {
    a.base <= b.base + b.last && b.base <= a.base + a.last
  }

  predicate Disjoint(aps: seq<IoApic>) {
    forall i, j :: 0 <= i < j < |aps| ==> !Overlap(aps[i], aps[j])
  }

  /** `o` is the answer for `gsi`: the first controller that covers it. */
  predicate Answers(aps: seq<IoApic>, gsi: U32, o: Owner) {
    if aps == [] then o == Invalid
    else match o
      case Pin(i, pin) =>
        i < |aps| && Covers(aps[i], gsi) && pin == gsi - aps[i].base && forall k :: 0 <= k < i ==> !Covers(aps[k], gsi)
      case NotFound => forall k :: 0 <= k < |aps| ==> !Covers(aps[k], gsi)
      case Invalid => false
  }

  method OwnerAt(gsi: U32, aps: seq<IoApic>) returns (o: Owner)
    ensures Answers(aps, gsi, o)
  {
    if |aps| == 0 {
      return Invalid;
    }
    for i := 0 to |aps|
      invariant forall k :: 0 <= k < i ==> !Covers(aps[k], gsi)
    {
      var base := aps[i].base;
      var end := base + aps[i].last;
      if gsi >= base && gsi <= end {
        return Pin(i, gsi - base);
      }
    }
    return NotFound;
  }

  method RangesOverlap(aps: seq<IoApic>) returns (overlap: bool)
    ensures overlap <==> !Disjoint(aps)
  {
    for i := 0 to |aps|
      invariant forall k, j :: 0 <= k < i && k < j < |aps| ==> !Overlap(aps[k], aps[j])
    {
      for j := i + 1 to |aps|
        invariant forall k :: i < k < j ==> !Overlap(aps[i], aps[k])
      {
        var a0, b0 := aps[i].base, aps[j].base;
        var a1, b1 := a0 + aps[i].last, b0 + aps[j].last;
        if a0 <= b1 && b0 <= a1 {
          assert Overlap(aps[i], aps[j]);
          return true;
        }
      }
    }
    return false;
  }

  /** Pin `pin` of controller `i` has a number of its own, and asking for it gives the pin back. */
  predicate Reached(aps: seq<IoApic>, i: nat, pin: nat)
    requires i < |aps|
  {
    pin <= aps[i].last && aps[i].base + pin < 0x1_0000_0000 ==>
      Answers(aps, aps[i].base + pin, Pin(i, pin))
  }

  /** Every pin is reached through its number exactly when the ranges do not overlap. */
  lemma PinsReachedExactly(aps: seq<IoApic>)
    ensures Disjoint(aps) <==> forall i: nat, pin: nat :: i < |aps| ==> Reached(aps, i, pin)
  {
    if Disjoint(aps) {
      forall i: nat, pin: nat | i < |aps|
        ensures Reached(aps, i, pin)
      {
      }
    } else {
      var i, j :| 0 <= i < j < |aps| && Overlap(aps[i], aps[j]);
      var gsi := if aps[i].base < aps[j].base then aps[j].base else aps[i].base;
      assert Covers(aps[i], gsi) && Covers(aps[j], gsi);
      assert !Reached(aps, j, gsi - aps[j].base);
    }
  }

  /** The answer is unique, so two interrupts never share a pin and one never has two. */
  lemma AnswerUnique(aps: seq<IoApic>, gsi: U32, gsi': U32, o: Owner, o': Owner)
    requires Answers(aps, gsi, o) && Answers(aps, gsi', o')
    ensures gsi == gsi' ==> o == o'
    ensures o == o' && o.Pin? ==> gsi == gsi'
  {
    if gsi == gsi' && o.Pin? && o'.Pin? {
      assert o.index == o'.index;
    }
  }
}

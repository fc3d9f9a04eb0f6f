/** The MADT interrupt-topology table: acpi_parse_madt of kernel/acpi/acpi.c against a reading of the
    whole table, record list by record list. */
module Madt {
  import opened Bytes

  const MAX_CPUS: nat := 16
  const MAX_IOAPICS: nat := 8
  const MAX_ISOS: nat := 32
  const MAX_NMIS: nat := 16

  const APIC_SIGNATURE: seq<U8> := [0x41, 0x50, 0x49, 0x43]

  datatype Cpu = Cpu(uid: nat, apicId: nat, flags: nat)
  datatype IoApic = IoApic(id: nat, base: nat, gsiBase: nat)
  datatype Iso = Iso(bus: nat, source: nat, gsi: nat, flags: nat)
  datatype Nmi = Nmi(processor: nat, flags: nat, lint: nat)

  datatype Topology = Topology(
    lapicBase: nat, lapicOverride: bool, flags: nat,
    cpus: seq<Cpu>, ioapics: seq<IoApic>, isos: seq<Iso>, nmis: seq<Nmi>,
    skipped: nat, duplicates: nat)

  datatype Result = Ok | Invalid | Length | Checksum | Capacity

  // ----- The common table header -----

  function Sum(b: seq<U8>): nat {
    if b == [] then 0 else Sum(b[..|b| - 1]) + b[|b| - 1]
  }

  function HeaderVerdict(b: seq<U8>, sig: seq<U8>): Result
    requires |sig| == 4
  {
    if |b| < 36 then Length
    else if b[..4] != sig then Invalid
    else
      var len := Rd(b, 4, 4);
      if len < 36 || len > |b| then Length
      else if Sum(b[..len]) % 256 != 0 then Checksum
      else Ok
  }

  lemma {:induction false} SumUpdate(b: seq<U8>, i: nat, v: U8)
    requires i < |b|
    ensures Sum(b[i := v]) == Sum(b) - b[i] + v
  {
    var n := |b| - 1;
    if i == n {
      assert b[i := v][..n] == b[..n];
    } else {
      SumUpdate(b[..n], i, v);
      assert b[i := v][..n] == b[..n][i := v];
    }
  }

  /** A checksum catches every change of a single byte. */
  lemma ChecksumCatchesOneByte(b: seq<U8>, i: nat, v: U8)
    requires i < |b| && v != b[i] && Sum(b) % 256 == 0
    ensures Sum(b[i := v]) % 256 != 0
  {
    SumUpdate(b, i, v);
    var k := Sum(b) / 256;
    assert Sum(b[i := v]) == 256 * k + (v - b[i]);
  }

  method ChecksumOk(b: seq<U8>) returns (ok: bool)
    ensures ok <==> b != [] && Sum(b) % 256 == 0
  {
    if b == [] {
      return false;
    }
    var sum: U8 := 0;
    for i := 0 to |b|
      invariant sum == Sum(b[..i]) % 256
    {
      assert b[..i + 1][..i] == b[..i];
      sum := (sum + b[i]) % 256;
    }
    assert b[..|b|] == b;
    return sum == 0;
  }

  method CheckHeader(b: seq<U8>, sig: seq<U8>) returns (r: Result, len: nat)
    requires |sig| == 4
    ensures r == HeaderVerdict(b, sig)
    ensures r == Ok ==> len == Rd(b, 4, 4) && 36 <= len <= |b|
  {
    len := 0;
    if |b| < 36 {
      return Length, 0;
    }
    for i := 0 to 4
      invariant b[..i] == sig[..i]
    {
      if b[i] != sig[i] {
        assert b[..4][i] == b[i];
        return Invalid, 0;
      }
      assert b[..i + 1] == b[..i] + [b[i]] && sig[..i + 1] == sig[..i] + [sig[i]];
    }
    assert sig[..4] == sig;
    len := Rd(b, 4, 4);
    if len < 36 || len > |b| {
      return Length, 0;
    }
    var ok := ChecksumOk(b[..len]);
    return if ok then Ok else Checksum, len;
  }

  // ----- Records -----

  /** One record: its type and what follows the two framing bytes. */
  datatype Record = Record(kind: U8, body: seq<U8>)

  predicate Framed(f: Record) {
    |f.body| <= 253
  }

  function Encode(f: Record): seq<U8>
    requires Framed(f)
  {
    [f.kind, |f.body| + 2] + f.body
  }

  predicate AllFramed(fs: seq<Record>) {
    forall k :: 0 <= k < |fs| ==> Framed(fs[k])
  }

  function EncodeAll(fs: seq<Record>): seq<U8>
    requires AllFramed(fs)
  {
    if fs == [] then [] else Encode(fs[0]) + EncodeAll(fs[1..])
  }

  /** The fewest bytes a record of this type needs after its framing. */
  function Least(kind: U8): nat {
    match kind
    case 0 => 6
    case 1 => 10
    case 2 => 8
    case 4 => 4
    case 5 => 10
    case 9 => 14
    case _ => 0
  }

  predicate LongEnough(f: Record) {
    Least(f.kind) <= |f.body|
  }

  function CpuOf(f: Record): Cpu
    requires (f.kind == 0 || f.kind == 9) && LongEnough(f)
  {
    if f.kind == 0 then Cpu(f.body[0], f.body[1], Rd(f.body, 2, 4))
    else Cpu(Rd(f.body, 10, 4), Rd(f.body, 2, 4), Rd(f.body, 6, 4))
  }

  function IoApicOf(f: Record): IoApic
    requires f.kind == 1 && LongEnough(f)
  {
    IoApic(f.body[0], Rd(f.body, 2, 4), Rd(f.body, 6, 4))
  }

  function IsoOf(f: Record): Iso
    requires f.kind == 2 && LongEnough(f)
  {
    Iso(f.body[0], f.body[1], Rd(f.body, 2, 4), Rd(f.body, 6, 2))
  }

  function NmiOf(f: Record): Nmi
    requires f.kind == 4 && LongEnough(f)
  {
    Nmi(f.body[0], Rd(f.body, 1, 2), f.body[3])
  }

  predicate SameLine(a: Iso, b: Iso) {
    a.bus == b.bus && a.source == b.source
  }

  predicate SeenIso(isos: seq<Iso>, e: Iso) {
    exists k :: 0 <= k < |isos| && SameLine(isos[k], e)
  }

  // ----- The parser, one record at a time -----

  /** What one record does to the topology. */
  function Add(t: Topology, f: Record): (Result, Topology) {
    if !LongEnough(f) then (Length, t)
    else match f.kind
      case 0 => AddCpu(t, CpuOf(f))
      case 9 => AddCpu(t, CpuOf(f))
      case 1 => if |t.ioapics| >= MAX_IOAPICS then (Capacity, t) else (Ok, t.(ioapics := t.ioapics + [IoApicOf(f)]))
      case 2 => AddIso(t, IsoOf(f))
      case 4 => if |t.nmis| >= MAX_NMIS then (Capacity, t) else (Ok, t.(nmis := t.nmis + [NmiOf(f)]))
      case 5 => (Ok, if t.lapicOverride then t.(skipped := t.skipped + 1)
                     else t.(lapicBase := Rd(f.body, 2, 8), lapicOverride := true))
      case _ => (Ok, t.(skipped := t.skipped + 1))
  }

  function AddCpu(t: Topology, c: Cpu): (Result, Topology) {
    if |t.cpus| >= MAX_CPUS then (Capacity, t) else (Ok, t.(cpus := t.cpus + [c]))
  }

  function AddIso(t: Topology, e: Iso): (Result, Topology) {
    if SeenIso(t.isos, e) then (Ok, t.(duplicates := t.duplicates + 1))
    else if |t.isos| >= MAX_ISOS then (Capacity, t)
    else (Ok, t.(isos := t.isos + [e]))
  }

  /** What the record bytes `b` do to the topology. */
  function Scan(b: seq<U8>, t: Topology): (Result, Topology) {
    if b == [] then (Ok, t)
    else if |b| < 2 || b[1] < 2 || b[1] > |b| then (Length, t)
    else
      var next := Add(t, Record(b[0], b[2..b[1]]));
      if next.0 == Ok then Scan(b[b[1]..], next.1) else next
  }

  function Empty(base: nat, flags: nat): Topology {
    Topology(base, false, flags, [], [], [], [], 0, 0)
  }

  /** The whole table; when the header is refused the topology is left alone. */
  function Parse(b: seq<U8>, t: Topology): (Result, Topology) {
    var r := HeaderVerdict(b, APIC_SIGNATURE);
    if r != Ok then (r, t)
    else
      var len := Rd(b, 4, 4);
      if len < 44 then (Length, t) else Scan(b[44..len], Empty(Rd(b, 36, 4), Rd(b, 40, 4)))
  }

  class Parser {
    var out: Topology

    constructor (out: Topology)
      ensures this.out == out
    {
      this.out := out;
    }

    method IsoSeen(e: Iso) returns (seen: bool)
      ensures seen <==> SeenIso(out.isos, e)
    {
      for i := 0 to |out.isos|
        invariant forall k :: 0 <= k < i ==> !SameLine(out.isos[k], e)
      {
        if out.isos[i].bus == e.bus && out.isos[i].source == e.source {
          return true;
        }
      }
      return false;
    }

    method ParseIso(e: Iso) returns (r: Result)
      modifies this
      ensures (r, out) == AddIso(old(out), e)
    {
      var seen := IsoSeen(e);
      if seen {
        out := out.(duplicates := out.duplicates + 1);
        return Ok;
      }
      if |out.isos| >= MAX_ISOS {
        return Capacity;
      }
      out := out.(isos := out.isos + [e]);
      return Ok;
    }

    method ParseCpu(c: Cpu) returns (r: Result)
      modifies this
      ensures (r, out) == AddCpu(old(out), c)
    {
      if |out.cpus| >= MAX_CPUS {
        return Capacity;
      }
      out := out.(cpus := out.cpus + [c]);
      return Ok;
    }

    method ParseRecord(kind: U8, p: seq<U8>) returns (r: Result)
      modifies this
      ensures (r, out) == Add(old(out), Record(kind, p))
    {
      if |p| < Least(kind) {
        return Length;
      }
      match kind {
        case 0 =>
          r := ParseCpu(Cpu(p[0], p[1], Rd(p, 2, 4)));
          return;
        case 1 =>
          if |out.ioapics| >= MAX_IOAPICS {
            return Capacity;
          }
          out := out.(ioapics := out.ioapics + [IoApic(p[0], Rd(p, 2, 4), Rd(p, 6, 4))]);
        case 2 =>
          r := ParseIso(Iso(p[0], p[1], Rd(p, 2, 4), Rd(p, 6, 2)));
          return;
        case 4 =>
          if |out.nmis| >= MAX_NMIS {
            return Capacity;
          }
          out := out.(nmis := out.nmis + [Nmi(p[0], Rd(p, 1, 2), p[3])]);
        case 5 =>
          if !out.lapicOverride {
            out := out.(lapicBase := Rd(p, 2, 8), lapicOverride := true);
          } else {
            out := out.(skipped := out.skipped + 1);
          }
        case 9 =>
          r := ParseCpu(Cpu(Rd(p, 10, 4), Rd(p, 2, 4), Rd(p, 6, 4)));
          return;
        case _ =>
          out := out.(skipped := out.skipped + 1);
      }
      return Ok;
    }

    /** acpi_parse_madt on any bytes: it ends, stays in bounds and leaves what Parse says, also in the
        topology it abandons half way. */
    method ParseMadt(b: seq<U8>) returns (r: Result)
      modifies this
      ensures (r, out) == Parse(b, old(out))
    {
      var len;
      r, len := CheckHeader(b, APIC_SIGNATURE);
      if r != Ok {
        return;
      }
      if len < 44 {
        return Length;
      }
      out := Empty(Rd(b, 36, 4), Rd(b, 40, 4));
      r := ParseRecords(b, len);
    }

    method ParseRecords(b: seq<U8>, len: nat) returns (r: Result)
      requires 44 <= len <= |b|
      modifies this
      ensures (r, out) == Scan(b[44..len], old(out))
    {
      var off := 44;
      while off < len
        invariant 44 <= off <= len
        invariant Scan(b[off..len], out) == Scan(b[44..len], old(out))
        decreases len - off
      {
        ghost var rest := b[off..len];
        if off + 2 > len {
          return Length;
        }
        var rl := b[off + 1];
        assert rest[0] == b[off] && rest[1] == rl;
        if rl < 2 || off + rl > len {
          return Length;
        }
        RecordSlices(b, off, rl, len);
        r := ParseRecord(b[off], b[off + 2..off + rl]);
        if r != Ok {
          return;
        }
        off := off + rl;
      }
      assert b[off..len] == [];
      return Ok;
    }
  }

  lemma RecordSlices(b: seq<U8>, off: nat, rl: nat, len: nat)
    requires 2 <= rl && off + rl <= len <= |b|
    ensures b[off..len][2..rl] == b[off + 2..off + rl]
    ensures b[off..len][rl..] == b[off + rl..len]
  {
    SubSlice(b, off, len, 2, rl);
    SubSlice(b, off, len, rl, len - off);
  }

  // ----- The whole table at once -----

  function Cpus(fs: seq<Record>): seq<Cpu> {
    if fs == [] then [] else
      var rest, f := Cpus(fs[..|fs| - 1]), fs[|fs| - 1];
      if (f.kind == 0 || f.kind == 9) && LongEnough(f) then rest + [CpuOf(f)] else rest
  }

  function IoApics(fs: seq<Record>): seq<IoApic> {
    if fs == [] then [] else
      var rest, f := IoApics(fs[..|fs| - 1]), fs[|fs| - 1];
      if f.kind == 1 && LongEnough(f) then rest + [IoApicOf(f)] else rest
  }

  function AllIsos(fs: seq<Record>): seq<Iso> {
    if fs == [] then [] else
      var rest, f := AllIsos(fs[..|fs| - 1]), fs[|fs| - 1];
      if f.kind == 2 && LongEnough(f) then rest + [IsoOf(f)] else rest
  }

  function Nmis(fs: seq<Record>): seq<Nmi> {
    if fs == [] then [] else
      var rest, f := Nmis(fs[..|fs| - 1]), fs[|fs| - 1];
      if f.kind == 4 && LongEnough(f) then rest + [NmiOf(f)] else rest
  }

  function Addresses(fs: seq<Record>): seq<nat> {
    if fs == [] then [] else
      var rest, f := Addresses(fs[..|fs| - 1]), fs[|fs| - 1];
      if f.kind == 5 && LongEnough(f) then rest + [Rd(f.body, 2, 8)] else rest
  }

  /** Records of a type the kernel does not read. */
  function Others(fs: seq<Record>): nat {
    if fs == [] then 0 else
      Others(fs[..|fs| - 1]) + if fs[|fs| - 1].kind in {0, 1, 2, 4, 5, 9} then 0 else 1
  }

  /** The first override of each interrupt line, in table order. */
  function Firsts(isos: seq<Iso>): (r: seq<Iso>)
    ensures |r| <= |isos|
  {
    if isos == [] then [] else
      var r, e := Firsts(isos[..|isos| - 1]), isos[|isos| - 1];
      if SeenIso(r, e) then r else r + [e]
  }

  /** A record list, sorted by what the kernel reads of it. */
  datatype Lists = Lists(cpus: seq<Cpu>, ioapics: seq<IoApic>, isos: seq<Iso>, nmis: seq<Nmi>, addresses: seq<nat>, others: nat)

  function ListsOf(fs: seq<Record>): Lists {
    Lists(Cpus(fs), IoApics(fs), AllIsos(fs), Nmis(fs), Addresses(fs), Others(fs))
  }

  function Condense(base: nat, flags: nat, l: Lists): Topology {
    Topology(
      if l.addresses == [] then base else l.addresses[0], l.addresses != [], flags,
      l.cpus, l.ioapics, Firsts(l.isos), l.nmis,
      l.others + (if l.addresses == [] then 0 else |l.addresses| - 1), |l.isos| - |Firsts(l.isos)|)
  }

  function Summary(base: nat, flags: nat, fs: seq<Record>): Topology {
    Condense(base, flags, ListsOf(fs))
  }

  predicate Fit(l: Lists) {
    && |l.cpus| <= 16 && |l.ioapics| <= 8
    && |Firsts(l.isos)| <= 32 && |l.nmis| <= 16
  }

  predicate WithinCapacity(fs: seq<Record>) {
    Fit(ListsOf(fs))
  }

  predicate AllLong(fs: seq<Record>) {
    forall k :: 0 <= k < |fs| ==> LongEnough(fs[k])
  }

  predicate Acceptable(fs: seq<Record>) {
    AllLong(fs) && WithinCapacity(fs)
  }

  /** The lists with one more record that is long enough. */
  function With(l: Lists, f: Record): Lists
    requires LongEnough(f)
  {
    match f.kind
    case 0 => l.(cpus := l.cpus + [CpuOf(f)])
    case 9 => l.(cpus := l.cpus + [CpuOf(f)])
    case 1 => l.(ioapics := l.ioapics + [IoApicOf(f)])
    case 2 => l.(isos := l.isos + [IsoOf(f)])
    case 4 => l.(nmis := l.nmis + [NmiOf(f)])
    case 5 => l.(addresses := l.addresses + [Rd(f.body, 2, 8)])
    case _ => l.(others := l.others + 1)
  }

  lemma OneMore(fs: seq<Record>, f: Record)
    requires LongEnough(f)
    ensures ListsOf(fs + [f]) == With(ListsOf(fs), f)
  {
    var gs := fs + [f];
    assert gs[..|gs| - 1] == fs && gs[|gs| - 1] == f;
  }

  lemma MoreFirsts(isos: seq<Iso>, e: Iso)
    ensures Firsts(isos + [e]) == if SeenIso(Firsts(isos), e) then Firsts(isos) else Firsts(isos) + [e]
  {
    var more := isos + [e];
    assert more[..|more| - 1] == isos && more[|more| - 1] == e;
  }

  lemma AddIsoIsWith(base: nat, flags: nat, l: Lists, e: Iso)
    requires Fit(l)
    ensures var m := l.(isos := l.isos + [e]);
            AddIso(Condense(base, flags, l), e) ==
            if Fit(m) then (Ok, Condense(base, flags, m)) else (Capacity, Condense(base, flags, l))
  {
    MoreFirsts(l.isos, e);
  }

  lemma AddIsWith(base: nat, flags: nat, l: Lists, f: Record)
    requires Fit(l) && LongEnough(f)
    ensures Add(Condense(base, flags, l), f) ==
            if Fit(With(l, f)) then (Ok, Condense(base, flags, With(l, f))) else (Capacity, Condense(base, flags, l))
  {
    if f.kind == 2 {
      AddIsoIsWith(base, flags, l, IsoOf(f));
    }
  }

  /** One more record: the parser's step and the summary agree, and it stops exactly when the record is
      short or there is no room. */
  lemma AddIsSummary(base: nat, flags: nat, fs: seq<Record>, f: Record)
    requires WithinCapacity(fs)
    ensures Add(Summary(base, flags, fs), f) ==
            if !LongEnough(f) then (Length, Summary(base, flags, fs))
            else if !WithinCapacity(fs + [f]) then (Capacity, Summary(base, flags, fs))
            else (Ok, Summary(base, flags, fs + [f]))
  {
    if LongEnough(f) {
      OneMore(fs, f);
      AddIsWith(base, flags, ListsOf(fs), f);
    }
  }

  lemma SeenAppend(s: seq<Iso>, l: Iso, e: Iso)
    ensures SeenIso(s + [l], e) <==> SeenIso(s, e) || SameLine(l, e)
  {
    var t := s + [l];
    assert t[|s|] == l;
    if SeenIso(s, e) {
      var k :| 0 <= k < |s| && SameLine(s[k], e);
      assert t[k] == s[k];
    }
  }

  /** No interrupt line is lost, and none is made up. */
  lemma {:induction false} FirstsCover(isos: seq<Iso>, e: Iso)
    ensures SeenIso(Firsts(isos), e) <==> SeenIso(isos, e)
  {
    if isos != [] {
      var n := |isos| - 1;
      var pre, l := isos[..n], isos[n];
      assert isos == pre + [l];
      FirstsCover(pre, e);
      SeenAppend(pre, l, e);
      SeenAppend(Firsts(pre), l, e);
    }
  }

  /** The kept entries name different lines. */
  lemma {:induction false} FirstsDistinct(isos: seq<Iso>)
    ensures forall i, j :: 0 <= i < j < |Firsts(isos)| ==> !SameLine(Firsts(isos)[i], Firsts(isos)[j])
  {
    if isos != [] {
      FirstsDistinct(isos[..|isos| - 1]);
    }
  }

  /** First override wins: an entry is kept exactly when no earlier one in the table names its line. */
  lemma {:induction false} FirstOverrideWins(isos: seq<Iso>, e: Iso)
    ensures e in Firsts(isos) <==> exists k :: 0 <= k < |isos| && isos[k] == e && !SeenIso(isos[..k], e)
  {
    if isos != [] {
      var n := |isos| - 1;
      var pre, l := isos[..n], isos[n];
      FirstOverrideWins(pre, e);
      FirstsCover(pre, l);
      forall k | 0 <= k < n
        ensures isos[..k] == pre[..k] && isos[k] == pre[k]
      {
      }
    }
  }

  // ----- Bytes and records -----

  lemma {:induction false} CapacityMonotone(fs: seq<Record>, gs: seq<Record>)
    requires WithinCapacity(fs + gs)
    ensures WithinCapacity(fs)
  {
    if gs == [] {
      assert fs + gs == fs;
    } else {
      var n := |gs| - 1;
      var all := fs + gs;
      assert all[..|all| - 1] == fs + gs[..n];
      CapacityStep(all);
      CapacityMonotone(fs, gs[..n]);
    }
  }

  lemma CapacityStep(fs: seq<Record>)
    requires fs != [] && WithinCapacity(fs)
    ensures WithinCapacity(fs[..|fs| - 1])
  {
    var all := AllIsos(fs);
    if |all| > 0 {
      assert |Firsts(all[..|all| - 1])| <= |Firsts(all)|;
      var f := fs[|fs| - 1];
      if f.kind == 2 && LongEnough(f) {
        assert all[..|all| - 1] == AllIsos(fs[..|fs| - 1]);
      }
    }
  }

  /** One encoded record at the front of the bytes is one step of the parser. */
  lemma ScanStep(f: Record, rest: seq<U8>, t: Topology)
    requires Framed(f)
    ensures Scan(Encode(f) + rest, t) ==
            if Add(t, f).0 == Ok then Scan(rest, Add(t, f).1) else Add(t, f)
  {
    var b := Encode(f) + rest;
    assert b[0] == f.kind && b[1] == |f.body| + 2;
    assert b[2..b[1]] == f.body && b[b[1]..] == rest;
  }

  lemma Regroup(pre: seq<Record>, fs: seq<Record>)
    requires fs != []
    ensures pre + fs == (pre + [fs[0]]) + fs[1..]
  {
  }

  /** Acceptable records, encoded one after another, are taken in as their summary. */
  lemma {:induction false} ScanEncoded(base: nat, flags: nat, pre: seq<Record>, fs: seq<Record>, rest: seq<U8>)
    requires AllFramed(fs) && AllLong(fs) && WithinCapacity(pre + fs)
    ensures Scan(EncodeAll(fs) + rest, Summary(base, flags, pre)) == Scan(rest, Summary(base, flags, pre + fs))
    decreases |fs|
  {
    if fs == [] {
      assert EncodeAll(fs) + rest == rest && pre + fs == pre;
    } else {
      var f, more := fs[0], EncodeAll(fs[1..]);
      assert EncodeAll(fs) + rest == Encode(f) + (more + rest);
      ScanStep(f, more + rest, Summary(base, flags, pre));
      Regroup(pre, fs);
      CapacityMonotone(pre + [f], fs[1..]);
      CapacityMonotone(pre, [f]);
      AddIsSummary(base, flags, pre, f);
      ScanEncoded(base, flags, pre + [f], fs[1..], rest);
    }
  }

  /** The records the framing bytes cut `b` into, as far as the framing holds. */
  function Cut(b: seq<U8>): (fs: seq<Record>)
    ensures AllFramed(fs)
  {
    if |b| < 2 || b[1] < 2 || b[1] > |b| then [] else [Record(b[0], b[2..b[1]])] + Cut(b[b[1]..])
  }

  lemma CutStep(b: seq<U8>, f: Record, rest: seq<U8>)
    requires 2 <= |b| && 2 <= b[1] <= |b| && f == Record(b[0], b[2..b[1]]) && rest == b[b[1]..]
    ensures Framed(f) && b == Encode(f) + rest && Cut(b) == [f] + Cut(rest)
    ensures EncodeAll([f] + Cut(rest)) == Encode(f) + EncodeAll(Cut(rest))
    ensures LongEnough(f) && AllLong(Cut(rest)) ==> AllLong(Cut(b))
  {
    var fs := [f] + Cut(rest);
    assert fs[1..] == Cut(rest);
  }

  /** Whatever the parser takes in is the encoding of records, each long enough ... */
  lemma {:induction false} AcceptedWasEncoded(b: seq<U8>, t: Topology)
    requires Scan(b, t).0 == Ok
    ensures b == EncodeAll(Cut(b)) && AllLong(Cut(b))
    decreases |b|
  {
    if b != [] {
      var f, rest := Record(b[0], b[2..b[1]]), b[b[1]..];
      CutStep(b, f, rest);
      AcceptedWasEncoded(rest, Add(t, f).1);
    }
  }

  lemma AcceptedStep(base: nat, flags: nat, pre: seq<Record>, f: Record, rest: seq<U8>)
    requires WithinCapacity(pre) && Framed(f) && Scan(Encode(f) + rest, Summary(base, flags, pre)).0 == Ok
    ensures WithinCapacity(pre + [f]) && Scan(rest, Summary(base, flags, pre + [f])).0 == Ok
  {
    ScanStep(f, rest, Summary(base, flags, pre));
    AddIsSummary(base, flags, pre, f);
  }

  /** ... that fit together. */
  lemma {:induction false} AcceptedFits(base: nat, flags: nat, pre: seq<Record>, fs: seq<Record>)
    requires WithinCapacity(pre) && AllFramed(fs)
    requires Scan(EncodeAll(fs), Summary(base, flags, pre)).0 == Ok
    ensures WithinCapacity(pre + fs)
    decreases |fs|
  {
    if fs == [] {
      assert pre + fs == pre;
    } else {
      var f, more := fs[0], fs[1..];
      Regroup(pre, fs);
      AcceptedStep(base, flags, pre, f, EncodeAll(more));
      AcceptedFits(base, flags, pre + [f], more);
    }
  }

  /** The parser accepts exactly the encodings of acceptable record lists, and what it leaves is their
      summary. */
  lemma AcceptsExactlyRecords(b: seq<U8>, base: nat, flags: nat)
    ensures Scan(b, Empty(base, flags)).0 == Ok <==>
            exists fs: seq<Record> :: AllFramed(fs) && b == EncodeAll(fs) && Acceptable(fs)
    ensures forall fs: seq<Record> :: AllFramed(fs) && b == EncodeAll(fs) && Acceptable(fs) ==>
              Scan(b, Empty(base, flags)) == (Ok, Summary(base, flags, fs))
  {
    if Scan(b, Empty(base, flags)).0 == Ok {
      AcceptedWasEncoded(b, Empty(base, flags));
      AcceptedFits(base, flags, [], Cut(b));
      assert [] + Cut(b) == Cut(b);
    }
    forall fs: seq<Record> | AllFramed(fs) && b == EncodeAll(fs) && Acceptable(fs)
      ensures Scan(b, Empty(base, flags)) == (Ok, Summary(base, flags, fs))
    {
      assert [] + fs == fs && EncodeAll(fs) + [] == b;
      ScanEncoded(base, flags, [], fs, []);
    }
  }

  /** The first record that is short or does not fit decides the error, whatever follows it. */
  lemma FirstFaultDecides(base: nat, flags: nat, fs: seq<Record>, f: Record, rest: seq<U8>)
    requires AllFramed(fs) && Acceptable(fs) && Framed(f)
    requires !LongEnough(f) || !WithinCapacity(fs + [f])
    ensures Scan(EncodeAll(fs) + (Encode(f) + rest), Empty(base, flags)) ==
            (if !LongEnough(f) then Length else Capacity, Summary(base, flags, fs))
  {
    assert [] + fs == fs;
    ScanEncoded(base, flags, [], fs, Encode(f) + rest);
    ScanStep(f, rest, Summary(base, flags, fs));
    AddIsSummary(base, flags, fs, f);
  }
}

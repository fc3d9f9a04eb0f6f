/** The MADT by its entries: where section 5.2.12 of the ACPI Specification puts each field of a record, and
    that the parser reads exactly those. */
module MadtEntries {
  import opened Bytes
  import opened Madt

  /** What the table says, entry by entry; `Other` is a type the kernel does not read. */
  datatype Entry =
    | Lapic(uid: nat, id: nat, flags: nat)
    | IoApicAt(id: nat, base: nat, gsiBase: nat)
    | Override(bus: nat, source: nat, gsi: nat, flags: nat)
    | LocalNmi(processor: nat, flags: nat, lint: nat)
    | LapicAddress(address: nat)
    | X2Apic(uid: nat, id: nat, flags: nat)
    | Other(kind: nat)

  /** Record `f` holds `v` at offset `at` of the record, whose type and length are the first two bytes. */
  predicate Has(f: Record, at: nat, k: nat, v: nat)
    requires 2 <= at
  {
    Field(f.body, at - 2, k, v)
  }

  /** Record `f` is an encoding of `e`. Reserved bytes, and bytes beyond the last field, may be anything. */
  predicate Encodes(e: Entry, f: Record) {
    match e
    case Lapic(uid, id, flags) => f.kind == 0 && Has(f, 2, 1, uid) && Has(f, 3, 1, id) && Has(f, 4, 4, flags)
    case IoApicAt(id, base, gsiBase) => f.kind == 1 && Has(f, 2, 1, id) && Has(f, 4, 4, base) && Has(f, 8, 4, gsiBase)
    case Override(bus, source, gsi, flags) =>
      f.kind == 2 && Has(f, 2, 1, bus) && Has(f, 3, 1, source) && Has(f, 4, 4, gsi) && Has(f, 8, 2, flags)
    case LocalNmi(processor, flags, lint) =>
      f.kind == 4 && Has(f, 2, 1, processor) && Has(f, 3, 2, flags) && Has(f, 5, 1, lint)
    case LapicAddress(address) => f.kind == 5 && Has(f, 4, 8, address)
    case X2Apic(uid, id, flags) => f.kind == 9 && Has(f, 4, 4, id) && Has(f, 8, 4, flags) && Has(f, 12, 4, uid)
    case Other(kind) => f.kind == kind && kind !in {0, 1, 2, 4, 5, 9}
  }

  // ----- The encoder of the specification -----

  predicate InRange(e: Entry) {
    match e
    case Lapic(uid, id, flags) => uid < 256 && id < 256 && Fits(flags, 4)
    case IoApicAt(id, base, gsiBase) => id < 256 && Fits(base, 4) && Fits(gsiBase, 4)
    case Override(bus, source, gsi, flags) => bus < 256 && source < 256 && Fits(gsi, 4) && Fits(flags, 2)
    case LocalNmi(processor, flags, lint) => processor < 256 && Fits(flags, 2) && lint < 256
    case LapicAddress(address) => Fits(address, 8)
    case X2Apic(uid, id, flags) => Fits(uid, 4) && Fits(id, 4) && Fits(flags, 4)
    case Other(kind) => kind < 256 && kind !in {0, 1, 2, 4, 5, 9}
  }

  function EntryBytes(e: Entry): seq<U8>
    requires InRange(e)
  {
    match e
    case Lapic(uid, id, flags) => [0, 8, uid, id] + Le(flags, 4)
    case IoApicAt(id, base, gsiBase) => [1, 12, id, 0] + Le(base, 4) + Le(gsiBase, 4)
    case Override(bus, source, gsi, flags) => [2, 10, bus, source] + Le(gsi, 4) + Le(flags, 2)
    case LocalNmi(processor, flags, lint) => [4, 6, processor] + Le(flags, 2) + [lint]
    case LapicAddress(address) => [5, 12, 0, 0] + Le(address, 8)
    case X2Apic(uid, id, flags) => [9, 16, 0, 0] + Le(id, 4) + Le(flags, 4) + Le(uid, 4)
    case Other(kind) => [kind, 2]
  }

  lemma OneByte(v: nat)
    requires v < 256
    ensures Le(v, 1) == [v] && Fits(v, 1)
  {
    assert Le(v, 1) == [v % 256] + Le(v / 256, 0);
    assert Fits(v, 1) <==> Fits(v / 256, 0);
  }

  /** The entry's bytes, as a record. */
  function RecordOf(e: Entry): (f: Record)
    requires InRange(e)
  {
    Record(EntryBytes(e)[0], EntryBytes(e)[2..])
  }

  lemma EntryIsRecord(e: Entry)
    requires InRange(e)
    ensures Framed(RecordOf(e)) && Encode(RecordOf(e)) == EntryBytes(e)
  {
    var b := EntryBytes(e);
    assert b == [b[0], b[1]] + b[2..];
    assert |b| == b[1];
  }

  /** The pieces of a body are where the lengths before them say. */
  lemma Pieces(x: seq<U8>, y: seq<U8>, z: seq<U8>)
    ensures var d := x + y + z;
            d[..|x|] == x && d[|x|..|x| + |y|] == y && d[|x| + |y|..|x| + |y| + |z|] == z
  {
  }

  lemma FourPieces(w: seq<U8>, x: seq<U8>, y: seq<U8>, z: seq<U8>)
    requires |w| == 2 && |x| == |y| == |z| == 4
    ensures var d := w + x + y + z; d[2..6] == x && d[6..10] == y && d[10..14] == z
  {
  }

  lemma LapicEncodes(e: Entry)
    requires InRange(e) && e.Lapic?
    ensures Encodes(e, RecordOf(e))
  {
    var d := RecordOf(e).body;
    OneByte(e.uid);
    OneByte(e.id);
    assert d == [e.uid] + [e.id] + Le(e.flags, 4);
    Pieces([e.uid], [e.id], Le(e.flags, 4));
  }

  lemma X2ApicEncodes(e: Entry)
    requires InRange(e) && e.X2Apic?
    ensures Encodes(e, RecordOf(e))
  {
    var d, i, f, u := RecordOf(e).body, Le(e.id, 4), Le(e.flags, 4), Le(e.uid, 4);
    assert d == [0, 0] + i + f + u;
    FourPieces([0, 0], i, f, u);
  }

  lemma ControllerEncodes(e: Entry)
    requires InRange(e) && e.IoApicAt?
    ensures Encodes(e, RecordOf(e))
  {
    var d := RecordOf(e).body;
    OneByte(e.id);
    assert d == [e.id, 0] + Le(e.base, 4) + Le(e.gsiBase, 4);
    Pieces([e.id, 0], Le(e.base, 4), Le(e.gsiBase, 4));
    assert d[0..1] == [e.id];
  }

  lemma OverrideEncodes(e: Entry)
    requires InRange(e) && e.Override?
    ensures Encodes(e, RecordOf(e))
  {
    var d := RecordOf(e).body;
    OneByte(e.bus);
    OneByte(e.source);
    assert d == [e.bus, e.source] + Le(e.gsi, 4) + Le(e.flags, 2);
    Pieces([e.bus, e.source], Le(e.gsi, 4), Le(e.flags, 2));
    assert d[0..1] == [e.bus] && d[1..2] == [e.source];
  }

  lemma NmiEncodes(e: Entry)
    requires InRange(e) && e.LocalNmi?
    ensures Encodes(e, RecordOf(e))
  {
    var d := RecordOf(e).body;
    OneByte(e.processor);
    OneByte(e.lint);
    assert d == [e.processor] + Le(e.flags, 2) + [e.lint];
    Pieces([e.processor], Le(e.flags, 2), [e.lint]);
  }

  lemma EntryEncodes(e: Entry)
    requires InRange(e)
    ensures Encodes(e, RecordOf(e))
  {
    match e
    case Lapic(_, _, _) => LapicEncodes(e);
    case X2Apic(_, _, _) => X2ApicEncodes(e);
    case IoApicAt(_, _, _) => ControllerEncodes(e);
    case Override(_, _, _, _) => OverrideEncodes(e);
    case LocalNmi(_, _, _) => NmiEncodes(e);
    case LapicAddress(address) =>
      assert RecordOf(e).body == [0, 0] + Le(address, 8) + [];
      Pieces([0, 0], Le(address, 8), []);
    case Other(kind) =>
  }

  // ----- What the parser reads of a record -----

  /** The lists with one more entry. */
  function Enter(l: Lists, e: Entry): Lists {
    match e
    case Lapic(uid, id, flags) => l.(cpus := l.cpus + [Cpu(uid, id, flags)])
    case X2Apic(uid, id, flags) => l.(cpus := l.cpus + [Cpu(uid, id, flags)])
    case IoApicAt(id, base, gsiBase) => l.(ioapics := l.ioapics + [IoApic(id, base, gsiBase)])
    case Override(bus, source, gsi, flags) => l.(isos := l.isos + [Iso(bus, source, gsi, flags)])
    case LocalNmi(processor, flags, lint) => l.(nmis := l.nmis + [Nmi(processor, flags, lint)])
    case LapicAddress(address) => l.(addresses := l.addresses + [address])
    case Other(_) => l.(others := l.others + 1)
  }

  lemma ByteIsRead(f: Record, at: nat, v: nat)
    requires 2 <= at
    ensures Has(f, at, 1, v) <==> at - 2 < |f.body| && f.body[at - 2] == v
  {
    FieldIsRead(f.body, at - 2, 1, v);
    if at - 2 < |f.body| {
      var s := f.body[at - 2..at - 1];
      assert UnLe(s) == s[0] + 256 * UnLe(s[1..]) && s[1..] == [];
    }
  }

  lemma ReadProcessor(e: Entry, f: Record)
    requires Encodes(e, f) && (e.Lapic? || e.X2Apic?)
    ensures LongEnough(f) && CpuOf(f) == Cpu(e.uid, e.id, e.flags)
  {
    if e.Lapic? {
      ByteIsRead(f, 2, e.uid);
      ByteIsRead(f, 3, e.id);
      FieldIsRead(f.body, 2, 4, e.flags);
    } else {
      FieldIsRead(f.body, 2, 4, e.id);
      FieldIsRead(f.body, 6, 4, e.flags);
      FieldIsRead(f.body, 10, 4, e.uid);
    }
  }

  lemma ReadController(e: Entry, f: Record)
    requires Encodes(e, f) && e.IoApicAt?
    ensures LongEnough(f) && IoApicOf(f) == IoApic(e.id, e.base, e.gsiBase)
  {
    ByteIsRead(f, 2, e.id);
    FieldIsRead(f.body, 2, 4, e.base);
    FieldIsRead(f.body, 6, 4, e.gsiBase);
  }

  lemma ReadOverride(e: Entry, f: Record)
    requires Encodes(e, f) && e.Override?
    ensures LongEnough(f) && IsoOf(f) == Iso(e.bus, e.source, e.gsi, e.flags)
  {
    ByteIsRead(f, 2, e.bus);
    ByteIsRead(f, 3, e.source);
    FieldIsRead(f.body, 2, 4, e.gsi);
    FieldIsRead(f.body, 6, 2, e.flags);
  }

  lemma ReadNmi(e: Entry, f: Record)
    requires Encodes(e, f) && e.LocalNmi?
    ensures LongEnough(f) && NmiOf(f) == Nmi(e.processor, e.flags, e.lint)
  {
    ByteIsRead(f, 2, e.processor);
    FieldIsRead(f.body, 1, 2, e.flags);
    ByteIsRead(f, 5, e.lint);
  }

  /** A record that encodes an entry is long enough, and is read as that entry. */
  lemma EntryIsRead(l: Lists, e: Entry, f: Record)
    requires Encodes(e, f)
    ensures LongEnough(f) && With(l, f) == Enter(l, e)
  {
    match e
    case Lapic(_, _, _) => ReadProcessor(e, f);
    case X2Apic(_, _, _) => ReadProcessor(e, f);
    case IoApicAt(_, _, _) => ReadController(e, f);
    case Override(_, _, _, _) => ReadOverride(e, f);
    case LocalNmi(_, _, _) => ReadNmi(e, f);
    case LapicAddress(address) => FieldIsRead(f.body, 2, 8, address);
    case Other(_) =>
  }

  /** Every record that is long enough encodes an entry. */
  lemma RecordIsEntry(f: Record) returns (e: Entry)
    requires LongEnough(f)
    ensures Encodes(e, f)
  {
    match f.kind
    case 0 =>
      e := Lapic(f.body[0], f.body[1], Rd(f.body, 2, 4));
      ByteIsRead(f, 2, e.uid);
      ByteIsRead(f, 3, e.id);
      FieldIsRead(f.body, 2, 4, e.flags);
    case 1 =>
      e := IoApicAt(f.body[0], Rd(f.body, 2, 4), Rd(f.body, 6, 4));
      ByteIsRead(f, 2, e.id);
      FieldIsRead(f.body, 2, 4, e.base);
      FieldIsRead(f.body, 6, 4, e.gsiBase);
    case 2 =>
      e := Override(f.body[0], f.body[1], Rd(f.body, 2, 4), Rd(f.body, 6, 2));
      ByteIsRead(f, 2, e.bus);
      ByteIsRead(f, 3, e.source);
      FieldIsRead(f.body, 2, 4, e.gsi);
      FieldIsRead(f.body, 6, 2, e.flags);
    case 4 =>
      e := LocalNmi(f.body[0], Rd(f.body, 1, 2), f.body[3]);
      ByteIsRead(f, 2, e.processor);
      FieldIsRead(f.body, 1, 2, e.flags);
      ByteIsRead(f, 5, e.lint);
    case 5 =>
      e := LapicAddress(Rd(f.body, 2, 8));
      FieldIsRead(f.body, 2, 8, e.address);
    case 9 =>
      e := X2Apic(Rd(f.body, 10, 4), Rd(f.body, 2, 4), Rd(f.body, 6, 4));
      FieldIsRead(f.body, 2, 4, e.id);
      FieldIsRead(f.body, 6, 4, e.flags);
      FieldIsRead(f.body, 10, 4, e.uid);
    case _ =>
      e := Other(f.kind);
  }

  // ----- Whole tables -----

  function Listed(es: seq<Entry>): Lists {
    if es == [] then Lists([], [], [], [], [], 0) else Enter(Listed(es[..|es| - 1]), es[|es| - 1])
  }

  predicate AllEncode(es: seq<Entry>, fs: seq<Record>) {
    |es| == |fs| && forall k :: 0 <= k < |es| ==> Encodes(es[k], fs[k])
  }

  /** The bytes `b` are the records `fs`, which encode the entries `es`. */
  predicate Holds(b: seq<U8>, es: seq<Entry>, fs: seq<Record>) {
    AllFramed(fs) && b == EncodeAll(fs) && AllEncode(es, fs)
  }

  lemma {:induction false} EntriesAreRead(es: seq<Entry>, fs: seq<Record>)
    requires AllEncode(es, fs)
    ensures ListsOf(fs) == Listed(es) && AllLong(fs)
  {
    if es != [] {
      var n := |es| - 1;
      EntriesAreRead(es[..n], fs[..n]);
      EntryIsRead(Listed(es[..n]), es[n], fs[n]);
      OneMore(fs[..n], fs[n]);
      assert fs == fs[..n] + [fs[n]];
    }
  }

  lemma {:induction false} RecordsAreEntries(fs: seq<Record>) returns (es: seq<Entry>)
    requires AllLong(fs)
    ensures AllEncode(es, fs)
  {
    if fs == [] {
      es := [];
    } else {
      var n := |fs| - 1;
      var pre := RecordsAreEntries(fs[..n]);
      var e := RecordIsEntry(fs[n]);
      es := pre + [e];
    }
  }

  /** The topology that the entries describe. */
  function TopologyOf(base: nat, flags: nat, es: seq<Entry>): Topology {
    Condense(base, flags, Listed(es))
  }

  /** The parser accepts exactly the encodings of entries that fit the topology, and leaves what those entries
      say. */
  lemma AcceptsExactlyEntries(b: seq<U8>, base: nat, flags: nat)
    ensures Scan(b, Empty(base, flags)).0 == Ok <==> exists es, fs :: Holds(b, es, fs) && Fit(Listed(es))
    ensures forall es, fs :: Holds(b, es, fs) && Fit(Listed(es)) ==> Scan(b, Empty(base, flags)) == (Ok, TopologyOf(base, flags, es))
  {
    AcceptsExactlyRecords(b, base, flags);
    forall es, fs | Holds(b, es, fs) && Fit(Listed(es))
      ensures Scan(b, Empty(base, flags)) == (Ok, TopologyOf(base, flags, es))
    {
      EntriesAreRead(es, fs);
      assert AllFramed(fs) && b == EncodeAll(fs) && Acceptable(fs);
    }
    if Scan(b, Empty(base, flags)).0 == Ok {
      var fs: seq<Record> :| AllFramed(fs) && b == EncodeAll(fs) && Acceptable(fs);
      var es := RecordsAreEntries(fs);
      EntriesAreRead(es, fs);
      assert Holds(b, es, fs);
    }
  }

  function EntriesBytes(es: seq<Entry>): seq<U8>
    requires forall k :: 0 <= k < |es| ==> InRange(es[k])
  {
    if es == [] then [] else EntryBytes(es[0]) + EntriesBytes(es[1..])
  }

  lemma {:induction false} EntriesAreRecords(es: seq<Entry>) returns (fs: seq<Record>)
    requires forall k :: 0 <= k < |es| ==> InRange(es[k])
    ensures Holds(EntriesBytes(es), es, fs)
  {
    if es == [] {
      fs := [];
    } else {
      var more := EntriesAreRecords(es[1..]);
      EntryIsRecord(es[0]);
      EntryEncodes(es[0]);
      fs := [RecordOf(es[0])] + more;
      assert fs[1..] == more;
      assert forall k :: 0 < k < |es| ==> Encodes(es[k], fs[k]) by {
        forall k | 0 < k < |es| ensures Encodes(es[k], fs[k]) { assert es[k] == es[1..][k - 1] && fs[k] == more[k - 1]; }
      }
    }
  }

  /** Round trip: entries written as the specification says are read back as those entries. */
  lemma EntriesRoundTrip(es: seq<Entry>, base: nat, flags: nat)
    requires (forall k :: 0 <= k < |es| ==> InRange(es[k])) && Fit(Listed(es))
    ensures Scan(EntriesBytes(es), Empty(base, flags)) == (Ok, TopologyOf(base, flags, es))
  {
    var fs := EntriesAreRecords(es);
    AcceptsExactlyEntries(EntriesBytes(es), base, flags);
  }

  /** A whole table: signature, length and checksum of the common header, the address and flags of the MADT,
      and the entries. */
  predicate IsTable(b: seq<U8>, len: nat, base: nat, flags: nat, es: seq<Entry>, fs: seq<Record>) {
    && 44 <= len <= |b| && b[..4] == [0x41, 0x50, 0x49, 0x43]
    && Field(b, 4, 4, len) && Field(b, 36, 4, base) && Field(b, 40, 4, flags)
    && Sum(b[..len]) % 256 == 0
    && Holds(b[44..len], es, fs) && Fit(Listed(es))
  }

  lemma TableIsParsed(b: seq<U8>, t: Topology, len: nat, base: nat, flags: nat, es: seq<Entry>, fs: seq<Record>)
    requires IsTable(b, len, base, flags, es, fs)
    ensures Parse(b, t) == (Ok, TopologyOf(base, flags, es))
  {
    FieldIsRead(b, 4, 4, len);
    FieldIsRead(b, 36, 4, base);
    FieldIsRead(b, 40, 4, flags);
    AcceptsExactlyEntries(b[44..len], base, flags);
  }

  /** The parser accepts exactly the tables, and leaves what their address, flags and entries say. */
  lemma ParsesExactlyTables(b: seq<U8>, t: Topology)
    ensures Parse(b, t).0 == Ok <==> exists len: nat, base: nat, flags: nat, es, fs :: IsTable(b, len, base, flags, es, fs)
    ensures forall len: nat, base: nat, flags: nat, es, fs :: IsTable(b, len, base, flags, es, fs) ==>
              Parse(b, t) == (Ok, TopologyOf(base, flags, es))
  {
    forall len: nat, base: nat, flags: nat, es, fs | IsTable(b, len, base, flags, es, fs)
      ensures Parse(b, t) == (Ok, TopologyOf(base, flags, es))
    {
      TableIsParsed(b, t, len, base, flags, es, fs);
    }
    if Parse(b, t).0 == Ok {
      var len, base, flags := Rd(b, 4, 4), Rd(b, 36, 4), Rd(b, 40, 4);
      FieldIsRead(b, 4, 4, len);
      FieldIsRead(b, 36, 4, base);
      FieldIsRead(b, 40, 4, flags);
      AcceptsExactlyEntries(b[44..len], base, flags);
      var es, fs :| Holds(b[44..len], es, fs) && Fit(Listed(es));
      assert IsTable(b, len, base, flags, es, fs);
    }
  }

  /** The bytes do not frame a record. */
  predicate BadFrame(rest: seq<U8>) {
    |rest| == 1 || (1 < |rest| && (rest[1] < 2 || |rest| < rest[1]))
  }

  lemma BadFrameStops(rest: seq<U8>, t: Topology)
    requires BadFrame(rest)
    ensures Scan(rest, t) == (Length, t)
  {
  }

  /** Bytes after acceptable entries that do not frame another record are a length error, and what was read so
      far stays. */
  lemma BadFrameIsLength(base: nat, flags: nat, es: seq<Entry>, fs: seq<Record>, b: seq<U8>, rest: seq<U8>)
    requires Holds(b, es, fs) && Fit(Listed(es)) && BadFrame(rest)
    ensures Scan(b + rest, Empty(base, flags)) == (Length, TopologyOf(base, flags, es))
  {
    EntriesAreRead(es, fs);
    assert [] + fs == fs;
    ScanEncoded(base, flags, [], fs, rest);
    BadFrameStops(rest, TopologyOf(base, flags, es));
  }

  /** Why a header is refused, in this order: too short to hold one, another signature, a length below the
      header or beyond the bytes, a checksum that does not come out. */
  lemma HeaderByCause(b: seq<U8>, sig: seq<U8>, len: nat)
    requires |sig| == 4 && (36 <= |b| ==> Field(b, 4, 4, len))
    ensures var r := HeaderVerdict(b, sig);
            if |b| < 36 then r == Length
            else if b[0] != sig[0] || b[1] != sig[1] || b[2] != sig[2] || b[3] != sig[3] then r == Invalid
            else if len < 36 || |b| < len then r == Length
            else if Sum(b[..len]) % 256 != 0 then r == Checksum
            else r == Ok
  {
    if 36 <= |b| {
      FieldIsRead(b, 4, 4, len);
      assert b[..4] == [b[0], b[1], b[2], b[3]] && sig == [sig[0], sig[1], sig[2], sig[3]];
    }
  }
}

/** Copies between kernel buffers and user memory (kernel/core/load.c): page by page through the
    page table, after a pass that checks every page. The reference is byte by byte. */
module UserCopy {
  import opened Pipe

  const PAGE: nat := 4096
  const ADDR: nat := 0x1_0000_0000_0000_0000

  /** What vm_query reports for a mapped page: its frame and two of its permissions. */
  datatype Mapping = Mapping(frame: nat, user: bool, write: bool)

  /** Pages by number, and frames by number. */
  type Table = map<nat, Mapping>
  type Memory = map<nat, seq<Byte>>

  /** Every mapped frame is accessible, as vm_frame_access promises. */
  predicate Backed(table: Table, mem: Memory) {
    forall p :: p in table ==> table[p].frame in mem && |mem[table[p].frame]| == PAGE
  }

  // ----- The reference: one byte at a time -----

  /** The i-th address from `base`, in 64-bit arithmetic. */
  function Addr(base: nat, i: nat): nat { (base + i) % ADDR }

  predicate Readable(table: Table, a: nat) {
    a / PAGE in table && table[a / PAGE].user
  }

  predicate Writable(table: Table, a: nat) {
    a / PAGE in table && table[a / PAGE].user && table[a / PAGE].write
  }

  /** Where an address leads: frame and offset. */
  function Where(table: Table, a: nat): (nat, nat)
    requires a / PAGE in table
  {
    (table[a / PAGE].frame, a % PAGE)
  }

  function Load(table: Table, mem: Memory, a: nat): Byte
    requires Backed(table, mem) && a / PAGE in table
  {
    mem[table[a / PAGE].frame][a % PAGE]
  }

  function Store(table: Table, mem: Memory, a: nat, b: Byte): (m: Memory)
    requires Backed(table, mem) && a / PAGE in table
    ensures Backed(table, m) && m.Keys == mem.Keys
  {
    var f := table[a / PAGE].frame;
    mem[f := mem[f][a % PAGE := b]]
  }

  predicate AllReadable(table: Table, base: nat, n: nat) {
    forall i :: 0 <= i < n ==> Readable(table, Addr(base, i))
  }

  predicate AllWritable(table: Table, base: nat, n: nat) {
    forall i :: 0 <= i < n ==> Writable(table, Addr(base, i))
  }

  function ReadBytes(table: Table, mem: Memory, base: nat, n: nat): (r: seq<Byte>)
    requires Backed(table, mem) && AllReadable(table, base, n)
    ensures |r| == n && forall i :: 0 <= i < n ==> r[i] == Load(table, mem, Addr(base, i))
  {
    if n == 0 then [] else ReadBytes(table, mem, base, n - 1) + [Load(table, mem, Addr(base, n - 1))]
  }

  function WriteBytes(table: Table, mem: Memory, base: nat, src: seq<Byte>, n: nat): (m: Memory)
    requires Backed(table, mem) && n <= |src| && AllWritable(table, base, n)
    ensures Backed(table, m) && m.Keys == mem.Keys
  {
    if n == 0 then mem else Store(table, WriteBytes(table, mem, base, src, n - 1), Addr(base, n - 1), src[n - 1])
  }

  // ----- Writing and reading back -----

  /** No two of the addresses lead to the same byte. */
  predicate NoAlias(table: Table, base: nat, n: nat)
    requires AllWritable(table, base, n)
  {
    forall i, j :: 0 <= i < j < n ==> Where(table, Addr(base, i)) != Where(table, Addr(base, j))
  }

  lemma {:induction false} WriteElsewhere(table: Table, mem: Memory, base: nat, src: seq<Byte>, n: nat, a: nat)
    requires Backed(table, mem) && n <= |src| && AllWritable(table, base, n) && a / PAGE in table
    requires forall i :: 0 <= i < n ==> Where(table, Addr(base, i)) != Where(table, a)
    ensures Load(table, WriteBytes(table, mem, base, src, n), a) == Load(table, mem, a)
  {
    if n > 0 {
      WriteElsewhere(table, mem, base, src, n - 1, a);
    }
  }

  lemma {:induction false} WriteThere(table: Table, mem: Memory, base: nat, src: seq<Byte>, n: nat, i: nat)
    requires Backed(table, mem) && i < n <= |src| && AllWritable(table, base, n)
    requires forall j :: i < j < n ==> Where(table, Addr(base, i)) != Where(table, Addr(base, j))
    ensures Load(table, WriteBytes(table, mem, base, src, n), Addr(base, i)) == src[i]
  {
    if i < n - 1 {
      WriteThere(table, mem, base, src, n - 1, i);
    }
  }

  lemma ReadBackWithoutAlias(table: Table, mem: Memory, base: nat, src: seq<Byte>)
    requires Backed(table, mem) && AllWritable(table, base, |src|) && NoAlias(table, base, |src|)
    ensures AllReadable(table, base, |src|)
    ensures ReadBytes(table, WriteBytes(table, mem, base, src, |src|), base, |src|) == src
  {
    forall i | 0 <= i < |src|
      ensures Load(table, WriteBytes(table, mem, base, src, |src|), Addr(base, i)) == src[i]
    {
      WriteThere(table, mem, base, src, |src|, i);
    }
  }

  /** What was copied out is read back exactly, for every source, if and only if the range does not
      meet the same byte twice through two mappings. */
  lemma ReadBackExactly(table: Table, mem: Memory, base: nat, n: nat)
    requires Backed(table, mem) && AllWritable(table, base, n)
    ensures AllReadable(table, base, n)
    ensures NoAlias(table, base, n) <==>
              forall src :: |src| == n ==> ReadBytes(table, WriteBytes(table, mem, base, src, n), base, n) == src
  {
    if NoAlias(table, base, n) {
      forall src | |src| == n
        ensures ReadBytes(table, WriteBytes(table, mem, base, src, n), base, n) == src
      {
        ReadBackWithoutAlias(table, mem, base, src);
      }
    } else {
      var src := AliasLoses(table, mem, base, n);
    }
  }

  /** Two bytes that share a place cannot both be kept. */
  lemma AliasLoses(table: Table, mem: Memory, base: nat, n: nat) returns (src: seq<Byte>)
    requires Backed(table, mem) && AllWritable(table, base, n) && AllReadable(table, base, n) && !NoAlias(table, base, n)
    ensures |src| == n && ReadBytes(table, WriteBytes(table, mem, base, src, n), base, n) != src
  {
    var i, j :| 0 <= i < j < n && Where(table, Addr(base, i)) == Where(table, Addr(base, j));
    src := seq(n, k => if k == i then 1 else 0);
    AliasedBytesAgree(table, WriteBytes(table, mem, base, src, n), base, n, i, j);
    assert src[i] != src[j];
  }

  lemma AliasedBytesAgree(table: Table, mem: Memory, base: nat, n: nat, i: nat, j: nat)
    requires Backed(table, mem) && AllReadable(table, base, n) && i < n && j < n
    requires Where(table, Addr(base, i)) == Where(table, Addr(base, j))
    ensures ReadBytes(table, mem, base, n)[i] == ReadBytes(table, mem, base, n)[j]
  {
  }

  /** Distinct pages on distinct frames are enough, for every range that does not wrap. */
  lemma DistinctFramesDoNotAlias(table: Table, base: nat, n: nat)
    requires AllWritable(table, base, n) && base + n <= ADDR
    requires forall p, p' :: p in table && p' in table && p != p' ==> table[p].frame != table[p'].frame
    ensures NoAlias(table, base, n)
  {
    forall i, j | 0 <= i < j < n
      ensures Where(table, Addr(base, i)) != Where(table, Addr(base, j))
    {
      var a, b := Addr(base, i), Addr(base, j);
      assert a == base + i && b == base + j;
      if a / PAGE == b / PAGE {
        assert a % PAGE != b % PAGE;
      }
    }
  }

  lemma WriteNext(table: Table, mem: Memory, base: nat, src: seq<Byte>, n: nat)
    requires Backed(table, mem) && n < |src| && AllWritable(table, base, |src|)
    ensures Writable(table, Addr(base, n))
    ensures var a, m := Addr(base, n), WriteBytes(table, mem, base, src, n);
            var f := table[a / PAGE].frame;
            WriteBytes(table, mem, base, src, n + 1) == m[f := m[f][a % PAGE := src[n]]]
  {
  }

  // ----- Pages -----

  /** The bytes left on the page of address `a`. */
  function LeftOnPage(a: nat): (n: nat)
    ensures 1 <= n <= PAGE
  {
    PAGE - a % PAGE
  }

  /** Within one page, addresses advance without wrapping and stay on the page. */
  lemma SamePage(base: nat, off: nat, i: nat)
    requires i < LeftOnPage(Addr(base, off))
    ensures Addr(base, off + i) == Addr(base, off) + i
    ensures Addr(base, off + i) / PAGE == Addr(base, off) / PAGE
    ensures Addr(base, off + i) % PAGE == Addr(base, off) % PAGE + i
  {
    var a := Addr(base, off);
    assert a + i < ADDR by {
      assert ADDR % PAGE == 0;
      assert a < ADDR;
      assert a / PAGE * PAGE + PAGE <= ADDR;
    }
    assert (base + off + i) % ADDR == (base + off) % ADDR + i;
  }

  class UserSpace {
    const table: Table
    var mem: Memory

    constructor (table: Table, mem: Memory)
      requires Backed(table, mem)
      ensures this.table == table && this.mem == mem
    {
      this.table, this.mem := table, mem;
    }

    /** The first pass of copy_from_user: every page the range covers is mapped for the user. */
    method CheckReadable(base: nat, len: nat) returns (ok: bool)
      ensures ok == AllReadable(table, base, len)
    {
      var off := 0;
      while off < len
        invariant 0 <= off <= len && AllReadable(table, base, off)
        decreases len - off
      {
        var a := Addr(base, off);
        var chunk := if LeftOnPage(a) > len - off then len - off else LeftOnPage(a);
        if a / PAGE !in table || !table[a / PAGE].user {
          assert !Readable(table, Addr(base, off));
          return false;
        }
        forall i | off <= i < off + chunk
          ensures Readable(table, Addr(base, i))
        {
          SamePage(base, off, i - off);
        }
        off := off + chunk;
      }
      return true;
    }

    /** copy_from_user: all `len` bytes, as the byte-by-byte reference reads them, exactly when every
        covered page is mapped for the user; otherwise the buffer is untouched. */
    method CopyFromUser(dst: array<Byte>, base: nat, len: nat) returns (ok: bool)
      requires Backed(table, mem) && len <= dst.Length
      modifies dst
      ensures ok == AllReadable(table, base, len)
      ensures ok ==> dst[..len] == ReadBytes(table, mem, base, len) && dst[len..] == old(dst[len..])
      ensures !ok ==> dst[..] == old(dst[..])
    {
      ok := CheckReadable(base, len);
      if !ok { return; }
      var off := 0;
      while off < len
        invariant 0 <= off <= len
        invariant forall i :: 0 <= i < off ==> dst[i] == Load(table, mem, Addr(base, i))
        invariant dst[len..] == old(dst[len..])
        decreases len - off
      {
        var a := Addr(base, off);
        var chunk := if LeftOnPage(a) > len - off then len - off else LeftOnPage(a);
        assert Readable(table, Addr(base, off));
        var frame, start := table[a / PAGE].frame, a % PAGE;
        var i := 0;
        while i < chunk
          invariant 0 <= i <= chunk
          invariant forall k :: 0 <= k < off + i ==> dst[k] == Load(table, mem, Addr(base, k))
          invariant dst[len..] == old(dst[len..])
        {
          SamePage(base, off, i);
          dst[off + i] := mem[frame][start + i];
          i := i + 1;
        }
        off := off + chunk;
      }
    }

    /** copy_dest_ok: every covered page is mapped writable for the user; a range that reaches the
        end of the address space is refused. */
    method CopyDestOk(base: nat, len: nat) returns (ok: bool)
      requires base < ADDR
      ensures ok == (len == 0 || (base + len < ADDR && AllWritable(table, base, len)))
    {
      if len == 0 { return true; }
      if base + len >= ADDR { return false; }
      var off := 0;
      while off < len
        invariant 0 <= off <= len && AllWritable(table, base, off)
        decreases len - off
      {
        var a := Addr(base, off);
        var chunk := if LeftOnPage(a) > len - off then len - off else LeftOnPage(a);
        if a / PAGE !in table || !table[a / PAGE].user || !table[a / PAGE].write {
          assert !Writable(table, Addr(base, off));
          return false;
        }
        forall i | off <= i < off + chunk
          ensures Writable(table, Addr(base, i))
        {
          SamePage(base, off, i - off);
        }
        off := off + chunk;
      }
      return true;
    }

    /** copy_to_user: all bytes, as the byte-by-byte reference writes them, or none. */
    method CopyToUser(base: nat, src: seq<Byte>) returns (ok: bool)
      requires Backed(table, mem) && base < ADDR
      modifies this`mem
      ensures Backed(table, mem)
      ensures ok == (src == [] || (base + |src| < ADDR && AllWritable(table, base, |src|)))
      ensures ok ==> AllWritable(table, base, |src|) && mem == WriteBytes(table, old(mem), base, src, |src|)
      ensures !ok ==> mem == old(mem)
    {
      if src == [] { return true; }
      ok := CopyDestOk(base, |src|);
      if !ok { return; }
      var off := 0;
      while off < |src|
        invariant 0 <= off <= |src| && Backed(table, mem) && AllWritable(table, base, |src|)
        invariant mem == WriteBytes(table, old(mem), base, src, off)
        decreases |src| - off
      {
        off := WritePage(base, src, off, old(mem));
      }
    }

    /** The body of the page loop. */
    method WritePage(base: nat, src: seq<Byte>, off: nat, ghost start: Memory) returns (next: nat)
      requires Backed(table, mem) && Backed(table, start) && off < |src| && AllWritable(table, base, |src|)
      requires mem == WriteBytes(table, start, base, src, off)
      modifies this`mem
      ensures off < next <= |src| && Backed(table, mem) && mem == WriteBytes(table, start, base, src, next)
    {
      var a := Addr(base, off);
      var chunk := if LeftOnPage(a) > |src| - off then |src| - off else LeftOnPage(a);
      assert Writable(table, Addr(base, off));
      WriteChunk(base, src, off, chunk, start);
      next := off + chunk;
    }

    /** The byte loop on one page. */
    method WriteChunk(base: nat, src: seq<Byte>, off: nat, chunk: nat, ghost start: Memory)
      requires Backed(table, mem) && Backed(table, start)
      requires off + chunk <= |src| && chunk <= LeftOnPage(Addr(base, off)) && AllWritable(table, base, |src|)
      requires Addr(base, off) / PAGE in table
      requires mem == WriteBytes(table, start, base, src, off)
      modifies this`mem
      ensures Backed(table, mem) && mem == WriteBytes(table, start, base, src, off + chunk)
    {
      var a := Addr(base, off);
      var frame, at := table[a / PAGE].frame, a % PAGE;
      var i := 0;
      while i < chunk
        invariant 0 <= i <= chunk && Backed(table, mem)
        invariant mem == WriteBytes(table, start, base, src, off + i)
      {
        SamePage(base, off, i);
        WriteNext(table, start, base, src, off + i);
        mem := mem[frame := mem[frame][at + i := src[off + i]]];
        i := i + 1;
      }
    }
  }
}

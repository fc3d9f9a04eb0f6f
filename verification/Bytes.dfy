/** Little-endian integers as byte sequences. */
module Bytes {

  type U8 = b: int | 0 <= b < 256

  /** The low `k` bytes of `v`, least significant first. */
  function Le(v: nat, k: nat): (s: seq<U8>)
    ensures |s| == k
  {
    if k == 0 then [] else [v % 256] + Le(v / 256, k - 1)
  }

  function UnLe(s: seq<U8>): nat {
    if s == [] then 0 else s[0] + 256 * UnLe(s[1..])
  }

  /** `v` fits in `k` bytes. */
  predicate Fits(v: nat, k: nat) {
    if k == 0 then v == 0 else Fits(v / 256, k - 1)
  }

  lemma {:induction false} UnLeLe(v: nat, k: nat)
    requires Fits(v, k)
    ensures UnLe(Le(v, k)) == v
  {
    if k > 0 {
      UnLeLe(v / 256, k - 1);
      assert Le(v, k)[1..] == Le(v / 256, k - 1);
    }
  }

  lemma {:induction false} LeUnLe(s: seq<U8>)
    ensures Fits(UnLe(s), |s|) && Le(UnLe(s), |s|) == s
  {
    if s != [] {
      LeUnLe(s[1..]);
      assert UnLe(s) % 256 == s[0] && UnLe(s) / 256 == UnLe(s[1..]);
      assert s == [s[0]] + s[1..];
    }
  }

  lemma {:induction false} FitsMore(v: nat, k: nat, m: nat)
    requires Fits(v, k) && k <= m
    ensures Fits(v, m)
  {
    if k == 0 {
      if m > 0 { FitsMore(0, 0, m - 1); }
    } else {
      FitsMore(v / 256, k - 1, m - 1);
    }
  }

  lemma FitsSmall(v: nat, m: nat)
    requires v < 0x100_0000 && 3 <= m
    ensures Fits(v, m)
  {
    assert v / 256 / 256 / 256 == 0;
    assert Fits(v / 256 / 256 / 256, 0);
    assert Fits(v / 256 / 256, 1);
    assert Fits(v / 256, 2);
    FitsMore(v, 3, m);
  }

  lemma FitsBound(v: nat)
    ensures Fits(v, 2) <==> v < 0x1_0000
    ensures Fits(v, 4) <==> v < 0x1_0000_0000
  {
    var w := v / 256 / 256;
    assert Fits(v, 2) <==> Fits(v / 256, 1);
    assert Fits(v / 256, 1) <==> Fits(w, 0);
    assert Fits(v, 4) <==> Fits(v / 256, 3);
    assert Fits(v / 256, 3) <==> Fits(w, 2);
    assert Fits(w, 2) <==> Fits(w / 256, 1);
    assert Fits(w / 256, 1) <==> Fits(w / 256 / 256, 0);
  }

  /** Sixteen, thirty-two and sixty-four bit loads at an offset. */
  function Rd(s: seq<U8>, at: nat, k: nat): nat
    requires at + k <= |s|
  {
    UnLe(s[at..at + k])
  }

  lemma RdLe(s: seq<U8>, at: nat, k: nat, v: nat)
    requires at + k <= |s| && s[at..at + k] == Le(v, k) && Fits(v, k)
    ensures Rd(s, at, k) == v
  {
    UnLeLe(v, k);
  }

  lemma LeRd(s: seq<U8>, at: nat, k: nat)
    requires at + k <= |s|
    ensures Le(Rd(s, at, k), k) == s[at..at + k] && Fits(Rd(s, at, k), k)
  {
    LeUnLe(s[at..at + k]);
  }

  /** `b` holds the `k`-byte number `v` at offset `at`. */
  predicate Field(b: seq<U8>, at: nat, k: nat, v: nat) {
    at + k <= |b| && Fits(v, k) && b[at..at + k] == Le(v, k)
  }

  lemma FieldIsRead(b: seq<U8>, at: nat, k: nat, v: nat)
    ensures Field(b, at, k, v) <==> at + k <= |b| && Rd(b, at, k) == v
  {
    if Field(b, at, k, v) {
      RdLe(b, at, k, v);
    } else if at + k <= |b| {
      LeRd(b, at, k);
    }
  }

  // ----- Slices -----

  lemma SubSlice(s: seq<U8>, x: nat, y: nat, i: nat, j: nat)
    requires x <= y <= |s| && i <= j <= y - x
    ensures s[x..y][i..j] == s[x + i..x + j]
  {
    var l, r := s[x..y][i..j], s[x + i..x + j];
    assert forall k :: 0 <= k < j - i ==> l[k] == s[x + (i + k)] && r[k] == s[x + (i + k)];
  }

  lemma CutOff(s: seq<U8>, at: nat, x: seq<U8>, rest: seq<U8>)
    requires at <= |s| && s[at..] == x + rest
    ensures |s| == at + |x| + |rest|
    ensures s[at..at + |x|] == x && s[at + |x|..] == rest
  {
    assert s[at..at + |x|] == s[at..][..|x|];
    assert s[at + |x|..] == s[at..][|x|..];
  }
}

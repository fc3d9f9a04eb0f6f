/** user_prepare_argv of kernel/core/user.c: the argument block at the top of a new process's stack
    page, and the walk by which the process reads it back. */
module Argv {
  import opened Bytes
  import opened Options

  const PAGE: nat := 4096
  const STACK_TOP: nat := 0x80_0000
  const STACK_PAGE: nat := STACK_TOP - PAGE
  const WORD: nat := 0x1_0000_0000_0000_0000
  const MAX_ARGC: nat := 8
  const MAX_BYTES: nat := 256

  // ----- The block -----

  /** The strings, each with its NUL, one after the other. */
  function Strings(args: seq<seq<U8>>, n: nat): seq<U8>
    requires n <= |args|
  {
    if n == 0 then [] else Strings(args, n - 1) + args[n - 1] + [0]
  }

  /** Where string `i` starts, seen from the process: the strings end at the stack top. */
  function Va(args: seq<seq<U8>>, i: nat): nat
    requires i <= |args| && |Strings(args, |args|)| <= MAX_BYTES
  {
    STACK_TOP - |Strings(args, |args|)| + |Strings(args, i)|
  }

  function Pointers(args: seq<seq<U8>>, n: nat): (s: seq<U8>)
    requires n <= |args| && |Strings(args, |args|)| <= MAX_BYTES
    ensures |s| == 8 * n
  {
    if n == 0 then [] else Pointers(args, n - 1) + Le(Va(args, n - 1), 8)
  }

  function Zeros(n: nat): (s: seq<U8>)
    ensures |s| == n && forall i :: 0 <= i < n ==> s[i] == 0
  {
    seq(n, _ => 0)
  }

  predicate FitsBudget(args: seq<seq<U8>>) {
    |args| <= MAX_ARGC && |Strings(args, |args|)| <= MAX_BYTES
  }

  predicate NulFree(args: seq<seq<U8>>) {
    forall i :: 0 <= i < |args| ==> 0 !in args[i]
  }

  function Align16(n: nat): (r: nat)
    ensures n <= r < n + 16 && r % 16 == 0
  {
    (n + 15) / 16 * 16
  }

  function Total(args: seq<seq<U8>>): (r: nat)
    requires FitsBudget(args)
    ensures 8 + 8 * (|args| + 1) + |Strings(args, |args|)| <= r <= 352 && r % 16 == 0
  {
    Align16(8 + 8 * (|args| + 1) + |Strings(args, |args|)|)
  }

  /** argc, argv, NULL, padding, strings. */
  function Block(args: seq<seq<U8>>): (s: seq<U8>)
    requires FitsBudget(args)
    ensures |s| == Total(args)
  {
    var n := |args|;
    Le(n, 8) + Pointers(args, n) + Le(0, 8)
    + Zeros(Total(args) - (8 + 8 * (n + 1) + |Strings(args, n)|)) + Strings(args, n)
  }

  // ----- Reading it back -----

  function Word(page: seq<U8>, at: nat): nat
    requires at + 8 <= |page|
  {
    Rd(page, at, 8)
  }

  /** The C string at an offset, if it ends on the page. */
  function CString(page: seq<U8>, at: nat): Option<seq<U8>>
    requires at <= |page|
    decreases |page| - at
  {
    if at == |page| then None
    else if page[at] == 0 then Some([])
    else match CString(page, at + 1)
      case None => None
      case Some(rest) => Some([page[at]] + rest)
  }

  /** The walk of a C start routine from the stack pointer: argc, then argv[0..argc), each a pointer
      to a NUL-terminated string on the stack page, then a NULL pointer. */
  function Walk(page: seq<U8>, rsp: nat): Option<seq<seq<U8>>>
    requires |page| == PAGE
  {
    if rsp < STACK_PAGE || rsp + 16 > STACK_TOP then None
    else
      var at := rsp - STACK_PAGE;
      var argc := Word(page, at);
      if at + 8 + 8 * (argc + 1) > PAGE || Word(page, at + 8 + 8 * argc) != 0 then None
      else WalkArgs(page, at + 8, argc)
  }

  function WalkArgs(page: seq<U8>, at: nat, n: nat): Option<seq<seq<U8>>>
    requires |page| == PAGE && at + 8 * n <= PAGE
  {
    if n == 0 then Some([])
    else
      var p := Word(page, at + 8 * (n - 1));
      if p < STACK_PAGE || p > STACK_TOP then None
      else
        match (WalkArgs(page, at, n - 1), CString(page, p - STACK_PAGE))
        case (Some(init), Some(last)) => Some(init + [last])
        case _ => None
  }

  // ----- The walk inverts the block -----

  lemma {:induction false} StringsGrow(args: seq<seq<U8>>, i: nat, n: nat)
    requires i < n <= |args|
    ensures |Strings(args, i)| + |args[i]| + 1 <= |Strings(args, n)|
    ensures Strings(args, n)[|Strings(args, i)|..|Strings(args, i)| + |args[i]| + 1] == args[i] + [0]
  {
    if i < n - 1 {
      StringsGrow(args, i, n - 1);
      var a, b := |Strings(args, i)|, |Strings(args, i)| + |args[i]| + 1;
      assert Strings(args, n)[a..b] == Strings(args, n - 1)[a..b];
    }
  }

  lemma {:induction false} PointerAt(args: seq<seq<U8>>, i: nat, n: nat)
    requires i < n <= |args| && |Strings(args, |args|)| <= MAX_BYTES
    ensures Pointers(args, n)[8 * i..8 * i + 8] == Le(Va(args, i), 8)
  {
    if i < n - 1 {
      PointerAt(args, i, n - 1);
      assert Pointers(args, n)[8 * i..8 * i + 8] == Pointers(args, n - 1)[8 * i..8 * i + 8];
    }
  }

  lemma {:induction false} CStringIs(page: seq<U8>, at: nat, s: seq<U8>)
    requires at + |s| + 1 <= |page| && page[at..at + |s| + 1] == s + [0] && 0 !in s
    ensures CString(page, at) == Some(s)
    decreases |s|
  {
    assert page[at] == (s + [0])[0];
    if s != [] {
      assert s[0] in s;
      assert page[at + 1..at + 1 + |s[1..]| + 1] == s[1..] + [0] by {
        assert page[at + 1..at + |s| + 1] == page[at..at + |s| + 1][1..];
        assert (s + [0])[1..] == s[1..] + [0];
      }
      forall b | b in s[1..]
        ensures b != 0
      {
        assert b in s;
      }
      CStringIs(page, at + 1, s[1..]);
      assert [s[0]] + s[1..] == s;
    }
  }

  /** The page ends with the block of `args`. */
  predicate Holds(page: seq<U8>, args: seq<seq<U8>>)
    requires FitsBudget(args)
  {
    |page| == PAGE && page[PAGE - Total(args)..] == Block(args)
  }

  /** The parts of the block, from offset `at`, and the strings at the end of the page. */
  predicate Laid(page: seq<U8>, at: nat, args: seq<seq<U8>>)
    requires FitsBudget(args)
  {
    var n, m := |args|, |Strings(args, |args|)|;
    && |page| == PAGE && at + 16 + 8 * n + m <= PAGE
    && page[at..at + 8] == Le(n, 8)
    && page[at + 8..at + 8 + 8 * n] == Pointers(args, n)
    && page[at + 8 + 8 * n..at + 16 + 8 * n] == Le(0, 8)
    && page[PAGE - m..] == Strings(args, n)
  }

  lemma BlockIsLaid(page: seq<U8>, args: seq<seq<U8>>)
    requires FitsBudget(args) && Holds(page, args)
    ensures Laid(page, PAGE - Total(args), args)
  {
    FiveParts(page, PAGE - Total(args), Le(|args|, 8), Pointers(args, |args|), Le(0, 8),
              Zeros(Total(args) - (8 + 8 * (|args| + 1) + |Strings(args, |args|)|)), Strings(args, |args|));
  }

  lemma FiveParts(page: seq<U8>, at: nat, a: seq<U8>, b: seq<U8>, c: seq<U8>, d: seq<U8>, e: seq<U8>)
    requires at <= |page| && page[at..] == a + b + c + d + e
    ensures |page| == at + |a| + |b| + |c| + |d| + |e|
    ensures page[at..at + |a|] == a
    ensures page[at + |a|..at + |a| + |b|] == b
    ensures page[at + |a| + |b|..at + |a| + |b| + |c|] == c
    ensures page[|page| - |e|..] == e
  {
    var r3 := d + e;
    var r2 := c + r3;
    var r1 := b + r2;
    assert page[at..] == a + r1;
    CutOff(page, at, a, r1);
    CutOff(page, at + |a|, b, r2);
    CutOff(page, at + |a| + |b|, c, r3);
    CutOff(page, at + |a| + |b| + |c|, d, e);
  }

  lemma WordIs(page: seq<U8>, at: nat, v: nat)
    requires at + 8 <= |page| && page[at..at + 8] == Le(v, 8) && v < 0x100_0000
    ensures Word(page, at) == v
  {
    FitsSmall(v, 8);
    RdLe(page, at, 8, v);
  }

  /** Argument `i`: its pointer is on the page and leads to its string. */
  lemma WalkOne(page: seq<U8>, at: nat, args: seq<seq<U8>>, i: nat)
    requires FitsBudget(args) && NulFree(args) && Laid(page, at, args) && i < |args|
    ensures LeadsTo(page, at + 8 + 8 * i, args[i])
  {
    WalkPointer(page, at, args, i);
    WalkString(page, at, args, i);
  }

  lemma WalkPointer(page: seq<U8>, at: nat, args: seq<seq<U8>>, i: nat)
    requires FitsBudget(args) && Laid(page, at, args) && i < |args|
    ensures Word(page, at + 8 + 8 * i) == Va(args, i)
  {
    StringsGrow(args, i, |args|);
    PointerSlice(page, at, args, i);
    WordIs(page, at + 8 + 8 * i, Va(args, i));
  }

  lemma PointerSlice(page: seq<U8>, at: nat, args: seq<seq<U8>>, i: nat)
    requires FitsBudget(args) && Laid(page, at, args) && i < |args|
    ensures page[at + 8 + 8 * i..at + 8 + 8 * i + 8] == Le(Va(args, i), 8)
  {
    PointerAt(args, i, |args|);
    SlicePart(page, at + 8, Pointers(args, |args|), 8 * i, 8 * i + 8, at + 8 + 8 * i, Le(Va(args, i), 8));
  }

  lemma SlicePart(page: seq<U8>, lo: nat, part: seq<U8>, i: nat, j: nat, at: nat, word: seq<U8>)
    requires lo + |part| <= |page| && page[lo..lo + |part|] == part && i <= j <= |part|
    requires at == lo + i && part[i..j] == word
    ensures page[at..at + (j - i)] == word
  {
    SubSlice(page, lo, lo + |part|, i, j);
  }

  lemma WalkString(page: seq<U8>, at: nat, args: seq<seq<U8>>, i: nat)
    requires FitsBudget(args) && NulFree(args) && Laid(page, at, args) && i < |args|
    ensures STACK_PAGE <= Va(args, i) <= STACK_TOP
    ensures CString(page, Va(args, i) - STACK_PAGE) == Some(args[i])
  {
    StringsGrow(args, i, |args|);
    StringInTail(page, Strings(args, |args|), |Strings(args, i)|, args[i]);
  }

  lemma StringInTail(page: seq<U8>, tail: seq<U8>, from: nat, s: seq<U8>)
    requires |tail| <= |page| && page[|page| - |tail|..] == tail
    requires from + |s| + 1 <= |tail| && tail[from..from + |s| + 1] == s + [0] && 0 !in s
    ensures CString(page, |page| - |tail| + from) == Some(s)
  {
    var at := |page| - |tail|;
    assert page[at..] == page[at..|page|];
    SubSlice(page, at, |page|, from, from + |s| + 1);
    CStringIs(page, at + from, s);
  }

  /** The pointer at `at` is on the stack page and leads to the C string `s`. */
  predicate LeadsTo(page: seq<U8>, at: nat, s: seq<U8>)
    requires |page| == PAGE && at + 8 <= PAGE
  {
    var p := Word(page, at);
    STACK_PAGE <= p <= STACK_TOP && CString(page, p - STACK_PAGE) == Some(s)
  }

  /** The first `k` pointers from `at` lead to the first `k` arguments. */
  predicate PointTo(page: seq<U8>, at: nat, args: seq<seq<U8>>, k: nat)
    requires |page| == PAGE && at + 8 * k <= PAGE && k <= |args|
  {
    forall i :: 0 <= i < k ==> LeadsTo(page, at + 8 * i, args[i])
  }

  lemma {:induction false} WalkArgsIs(page: seq<U8>, at: nat, args: seq<seq<U8>>, k: nat)
    requires |page| == PAGE && at + 8 * k <= PAGE && k <= |args| && PointTo(page, at, args, k)
    ensures WalkArgs(page, at, k) == Some(args[..k])
  {
    if k > 0 {
      WalkArgsIs(page, at, args, k - 1);
      assert LeadsTo(page, at + 8 * (k - 1), args[k - 1]);
      assert args[..k] == args[..k - 1] + [args[k - 1]];
    }
  }

  lemma AllPointTo(page: seq<U8>, at: nat, args: seq<seq<U8>>)
    requires FitsBudget(args) && NulFree(args) && Laid(page, at, args)
    ensures PointTo(page, at + 8, args, |args|)
  {
    forall i | 0 <= i < |args|
      ensures LeadsTo(page, at + 8 + 8 * i, args[i])
    {
      WalkOne(page, at, args, i);
    }
  }

  /** The walk, from what the block has at each place. */
  lemma WalkFrom(page: seq<U8>, at: nat, args: seq<seq<U8>>)
    requires |page| == PAGE && at + 16 + 8 * |args| <= PAGE
    requires Word(page, at) == |args| && Word(page, at + 8 + 8 * |args|) == 0
    requires PointTo(page, at + 8, args, |args|)
    ensures Walk(page, STACK_PAGE + at) == Some(args)
  {
    WalkArgsIs(page, at + 8, args, |args|);
    assert args[..|args|] == args;
  }

  /** From the stack pointer the process reads back exactly the arguments it was given; the pointer
      is 16-aligned and inside the stack page. */
  lemma WalkInvertsBlock(page: seq<U8>, args: seq<seq<U8>>)
    requires FitsBudget(args) && NulFree(args) && Holds(page, args)
    ensures Walk(page, STACK_TOP - Total(args)) == Some(args)
    ensures (STACK_TOP - Total(args)) % 16 == 0
    ensures STACK_PAGE < STACK_TOP - Total(args) < STACK_TOP
  {
    BlockIsLaid(page, args);
    var t := Total(args);
    WalkLaid(page, PAGE - t, args);
    StackPointer(t);
  }

  lemma StackPointer(t: nat)
    requires 0 < t < PAGE && t % 16 == 0
    ensures STACK_PAGE + (PAGE - t) == STACK_TOP - t && (STACK_TOP - t) % 16 == 0 && STACK_PAGE < STACK_TOP - t < STACK_TOP
  {
  }

  lemma WalkLaid(page: seq<U8>, at: nat, args: seq<seq<U8>>)
    requires FitsBudget(args) && NulFree(args) && Laid(page, at, args)
    ensures Walk(page, STACK_PAGE + at) == Some(args)
  {
    CountLaid(page, at, args);
    NullLaid(page, at, args);
    AllPointTo(page, at, args);
    WalkFrom(page, at, args);
  }

  lemma CountLaid(page: seq<U8>, at: nat, args: seq<seq<U8>>)
    requires FitsBudget(args) && Laid(page, at, args)
    ensures Word(page, at) == |args|
  {
    WordIs(page, at, |args|);
  }

  lemma NullLaid(page: seq<U8>, at: nat, args: seq<seq<U8>>)
    requires FitsBudget(args) && Laid(page, at, args)
    ensures Word(page, at + 8 + 8 * |args|) == 0
  {
    WordIs(page, at + 8 + 8 * |args|, 0);
  }

  // ----- Building it -----

  /** The size loop of user_prepare_argv in 64-bit arithmetic: the bound `256 - (len + 1)` wraps
      around for a string of 256 bytes, and the sum is still accepted exactly when it fits. */
  method MeasureStrings(args: seq<seq<U8>>) returns (strings: Option<nat>)
    ensures strings == if FitsBudget(args) then Some(|Strings(args, |args|)|) else None
  {
    if |args| > MAX_ARGC { return None; }
    var sum := 0;
    for i := 0 to |args|
      invariant sum == |Strings(args, i)| && sum <= MAX_ARGC * (MAX_BYTES + 1)
      invariant sum <= 257 * i
    {
      var len := |args[i]|;
      StringsGrow(args, i, |args|);
      if len > MAX_BYTES { return None; }
      if sum > (WORD + MAX_BYTES - (len + 1)) % WORD {
        assert len < 256;
        return None;
      }
      sum := sum + len + 1;
    }
    if sum > MAX_BYTES { return None; }
    return Some(sum);
  }

  /** Eight bytes, least significant first. */
  method WriteWord(w: array<U8>, at: nat, v: nat)
    requires at + 8 <= w.Length
    modifies w
    ensures w[at..at + 8] == Le(v, 8)
    ensures forall k :: 0 <= k < w.Length && !(at <= k < at + 8) ==> w[k] == old(w[k])
  {
    var rest := v;
    for b := 0 to 8
      invariant rest == Shift(v, b)
      invariant forall k :: 0 <= k < b ==> w[at + k] == Shift(v, k) % 256
      invariant forall k :: 0 <= k < w.Length && !(at <= k < at + 8) ==> w[k] == old(w[k])
    {
      w[at + b] := rest % 256;
      rest := rest / 256;
    }
    LeDigits(v, w[at..at + 8]);
  }

  /** `v` without its `b` low bytes. */
  function Shift(v: nat, b: nat): nat {
    if b == 0 then v else Shift(v, b - 1) / 256
  }

  lemma {:induction false} ShiftFirst(v: nat, b: nat)
    ensures Shift(v, b + 1) == Shift(v / 256, b)
  {
    if b > 0 {
      ShiftFirst(v, b - 1);
    }
  }

  lemma {:induction false} LeAt(v: nat, k: nat, b: nat)
    requires b < k
    ensures Le(v, k)[b] == Shift(v, b) % 256
  {
    if b > 0 {
      LeAt(v / 256, k - 1, b - 1);
      ShiftFirst(v, b - 1);
    }
  }

  lemma LeDigits(v: nat, s: seq<U8>)
    requires forall k :: 0 <= k < |s| ==> s[k] == Shift(v, k) % 256
    ensures s == Le(v, |s|)
  {
    var word := Le(v, |s|);
    forall k | 0 <= k < |s|
      ensures s[k] == word[k]
    {
      LeAt(v, |s|, k);
    }
  }

  /** One string and its NUL; an interior NUL stops the copy. */
  method WriteString(w: array<U8>, at: nat, s: seq<U8>) returns (ok: bool)
    requires at + |s| + 1 <= w.Length
    modifies w
    ensures ok == (0 !in s)
    ensures ok ==> w[at..at + |s| + 1] == s + [0]
    ensures forall k :: 0 <= k < w.Length && !(at <= k < at + |s| + 1) ==> w[k] == old(w[k])
  {
    var i := 0;
    while i < |s|
      invariant 0 <= i <= |s| && w[at..at + i] == s[..i] && 0 !in s[..i]
      invariant forall k :: 0 <= k < w.Length && !(at <= k < at + |s| + 1) ==> w[k] == old(w[k])
    {
      if s[i] == 0 { return false; }
      w[at + i] := s[i];
      i := i + 1;
    }
    assert s[..|s|] == s;
    w[at + |s|] := 0;
    return true;
  }

  /** The page after `i` arguments: pointers from `argvOff`, strings from `strTop`, zeros elsewhere
      below the strings. */
  predicate Built(page: seq<U8>, args: seq<seq<U8>>, i: nat, argvOff: nat, strTop: nat)
    requires FitsBudget(args) && i <= |args|
  {
    && |page| == PAGE && strTop == PAGE - |Strings(args, |args|)|
    && argvOff + 8 * (|args| + 1) <= strTop
    && |Strings(args, i)| <= |Strings(args, |args|)|
    && page[argvOff..argvOff + 8 * i] == Pointers(args, i)
    && page[strTop..strTop + |Strings(args, i)|] == Strings(args, i)
    && forall k :: 0 <= k < strTop && !(argvOff <= k < argvOff + 8 * i) ==> page[k] == 0
  }

  /** The body of the argument loop. */
  method WriteArg(w: array<U8>, args: seq<seq<U8>>, i: nat, argvOff: nat, strTop: nat, cursor: nat) returns (ok: bool)
    requires FitsBudget(args) && i < |args| && w.Length == PAGE
    requires Built(w[..], args, i, argvOff, strTop) && cursor == |Strings(args, i)|
    modifies w
    ensures ok == (0 !in args[i])
    ensures ok ==> Built(w[..], args, i + 1, argvOff, strTop)
  {
    ghost var before := w[..];
    StringsGrow(args, i, |args|);
    var va := STACK_TOP - (PAGE - strTop) + cursor;
    WriteWord(w, argvOff + 8 * i, va);
    ghost var mid := w[..];
    ok := WriteString(w, strTop + cursor, args[i]);
    if ok {
      AddedBoth(before, mid, w[..], args, i, argvOff, strTop);
      BuiltStep(before, w[..], args, i, argvOff, strTop);
    }
  }

  /** `after` has the pointer and the string of argument `i`, and is `before` elsewhere. */
  predicate Added(before: seq<U8>, after: seq<U8>, args: seq<seq<U8>>, i: nat, argvOff: nat, strTop: nat)
    requires FitsBudget(args) && i < |args|
  {
    var p, q, len := argvOff + 8 * i, strTop + |Strings(args, i)|, |args[i]| + 1;
    && |before| == |after| == PAGE && p + 8 <= strTop && q + len <= PAGE
    && after[p..p + 8] == Le(Va(args, i), 8)
    && after[q..q + len] == args[i] + [0]
    && forall k :: 0 <= k < PAGE && !(p <= k < p + 8) && !(q <= k < q + len) ==> after[k] == before[k]
  }

  lemma AddedBoth(before: seq<U8>, mid: seq<U8>, after: seq<U8>, args: seq<seq<U8>>, i: nat, argvOff: nat, strTop: nat)
    requires FitsBudget(args) && i < |args| && |before| == |mid| == |after| == PAGE
    requires var p, q, len := argvOff + 8 * i, strTop + |Strings(args, i)|, |args[i]| + 1;
             && p + 8 <= strTop && q + len <= PAGE
             && mid[p..p + 8] == Le(Va(args, i), 8) && after[q..q + len] == args[i] + [0]
             && (forall k :: 0 <= k < PAGE && !(p <= k < p + 8) ==> mid[k] == before[k])
             && (forall k :: 0 <= k < PAGE && !(q <= k < q + len) ==> after[k] == mid[k])
    ensures Added(before, after, args, i, argvOff, strTop)
  {
    var p := argvOff + 8 * i;
    assert after[p..p + 8] == mid[p..p + 8];
  }

  lemma BuiltStep(before: seq<U8>, after: seq<U8>, args: seq<seq<U8>>, i: nat, argvOff: nat, strTop: nat)
    requires FitsBudget(args) && i < |args| && Built(before, args, i, argvOff, strTop)
    requires Added(before, after, args, i, argvOff, strTop)
    ensures Built(after, args, i + 1, argvOff, strTop)
  {
    StringsGrow(args, i, |args|);
    BuiltPointers(before, after, args, i, argvOff, strTop);
    BuiltStrings(before, after, args, i, argvOff, strTop);
  }

  lemma BuiltPointers(before: seq<U8>, after: seq<U8>, args: seq<seq<U8>>, i: nat, argvOff: nat, strTop: nat)
    requires FitsBudget(args) && i < |args| && Built(before, args, i, argvOff, strTop)
    requires Added(before, after, args, i, argvOff, strTop)
    ensures after[argvOff..argvOff + 8 * (i + 1)] == Pointers(args, i + 1)
  {
    Join(before, after, argvOff, argvOff + 8 * i, argvOff + 8 * i + 8);
  }

  lemma BuiltStrings(before: seq<U8>, after: seq<U8>, args: seq<seq<U8>>, i: nat, argvOff: nat, strTop: nat)
    requires FitsBudget(args) && i < |args| && Built(before, args, i, argvOff, strTop)
    requires Added(before, after, args, i, argvOff, strTop)
    ensures |Strings(args, i + 1)| <= PAGE - strTop
    ensures after[strTop..strTop + |Strings(args, i + 1)|] == Strings(args, i + 1)
  {
    var c := |Strings(args, i)|;
    StringsGrow(args, i, |args|);
    Join(before, after, strTop, strTop + c, strTop + c + |args[i]| + 1);
    assert Strings(args, i) + (args[i] + [0]) == Strings(args, i + 1);
  }

  /** A slice whose first part did not change. */
  lemma Join(before: seq<U8>, after: seq<U8>, x: nat, y: nat, z: nat)
    requires |before| == |after| && x <= y <= z <= |after|
    requires forall k :: x <= k < y ==> after[k] == before[k]
    ensures after[x..z] == before[x..y] + after[y..z]
  {
  }

  /** `after` is `before` except for the two words around the pointers. */
  predicate Ended(before: seq<U8>, after: seq<U8>, n: nat, at: nat) {
    && |before| == |after| == PAGE
    && forall k :: 0 <= k < PAGE && !(at <= k < at + 8) && !(at + 8 + 8 * n <= k < at + 16 + 8 * n) ==> after[k] == before[k]
  }

  lemma EndedPointers(before: seq<U8>, after: seq<U8>, n: nat, at: nat)
    requires Ended(before, after, n, at) && at + 16 + 8 * n <= PAGE
    ensures after[at + 8..at + 8 + 8 * n] == before[at + 8..at + 8 + 8 * n]
  {
    SameSlice(before, after, at + 8, at + 8 + 8 * n);
  }

  lemma EndedStrings(before: seq<U8>, after: seq<U8>, n: nat, at: nat, top: nat)
    requires Ended(before, after, n, at) && at + 16 + 8 * n <= top <= PAGE
    ensures after[top..] == before[top..PAGE]
  {
    SameEnd(before, after, top);
  }

  lemma EndedZeros(before: seq<U8>, after: seq<U8>, n: nat, at: nat, top: nat)
    requires Ended(before, after, n, at) && at + 16 + 8 * n <= top <= PAGE
    requires forall k :: 0 <= k < top && !(at + 8 <= k < at + 8 + 8 * n) ==> before[k] == 0
    ensures after[at + 16 + 8 * n..top] == Zeros(top - (at + 16 + 8 * n))
    ensures forall k :: 0 <= k < at ==> after[k] == 0
  {
    ZeroSlice(after, at + 16 + 8 * n, top);
  }

  /** All pointers and strings in place, then NULL and argc: the page ends with the block. */
  lemma BuiltIsBlock(before: seq<U8>, after: seq<U8>, args: seq<seq<U8>>, strTop: nat)
    requires FitsBudget(args)
    requires Built(before, args, |args|, PAGE - Total(args) + 8, strTop)
    requires var n, at := |args|, PAGE - Total(args);
             && |after| == PAGE && after[at..at + 8] == Le(n, 8)
             && after[at + 8 + 8 * n..at + 16 + 8 * n] == Le(0, 8)
             && Ended(before, after, n, at)
    ensures Holds(after, args)
    ensures forall k :: 0 <= k < PAGE - Total(args) ==> after[k] == 0
  {
    var n, at := |args|, PAGE - Total(args);
    var pad := strTop - (at + 16 + 8 * n);
    EndedPointers(before, after, n, at);
    EndedZeros(before, after, n, at, strTop);
    EndedStrings(before, after, n, at, strTop);
    FiveJoined(after, at, Le(n, 8), Pointers(args, n), Le(0, 8), Zeros(pad), Strings(args, n));
  }

  lemma FiveJoined(page: seq<U8>, at: nat, a: seq<U8>, b: seq<U8>, c: seq<U8>, d: seq<U8>, e: seq<U8>)
    requires at + |a| + |b| + |c| + |d| + |e| == |page|
    requires page[at..at + |a|] == a && page[at + |a|..at + |a| + |b|] == b
    requires page[at + |a| + |b|..at + |a| + |b| + |c|] == c
    requires page[at + |a| + |b| + |c|..at + |a| + |b| + |c| + |d|] == d
    requires page[at + |a| + |b| + |c| + |d|..|page|] == e
    ensures page[at..] == a + b + c + d + e
  {
    FiveSlices(page, at, at + |a|, at + |a| + |b|, at + |a| + |b| + |c|, at + |a| + |b| + |c| + |d|);
  }

  lemma SameSlice(a: seq<U8>, b: seq<U8>, i: nat, j: nat)
    requires i <= j <= |a| && j <= |b| && forall k :: i <= k < j ==> a[k] == b[k]
    ensures a[i..j] == b[i..j]
  {
  }

  lemma SameEnd(a: seq<U8>, b: seq<U8>, i: nat)
    requires i <= |a| == |b| && forall k :: i <= k < |a| ==> a[k] == b[k]
    ensures a[i..] == b[i..] && a[i..|a|] == a[i..]
  {
  }

  lemma ZeroSlice(a: seq<U8>, i: nat, j: nat)
    requires i <= j <= |a| && forall k :: i <= k < j ==> a[k] == 0
    ensures a[i..j] == Zeros(j - i)
  {
  }

  lemma FiveSlices(page: seq<U8>, a: nat, b: nat, c: nat, d: nat, e: nat)
    requires a <= b <= c <= d <= e <= |page|
    ensures page[a..] == page[a..b] + page[b..c] + page[c..d] + page[d..e] + page[e..]
  {
  }

  lemma BuiltStart(page: seq<U8>, args: seq<seq<U8>>)
    requires FitsBudget(args) && |page| == PAGE && forall k :: 0 <= k < PAGE ==> page[k] == 0
    ensures Built(page, args, 0, PAGE - Total(args) + 8, PAGE - |Strings(args, |args|)|)
  {
  }

  lemma NextString(args: seq<seq<U8>>, i: nat)
    requires i < |args|
    ensures |Strings(args, i + 1)| == |Strings(args, i)| + |args[i]| + 1
  {
  }

  /** The argument loop. */
  method WriteArgs(w: array<U8>, args: seq<seq<U8>>, argvOff: nat, strTop: nat) returns (ok: bool)
    requires FitsBudget(args) && w.Length == PAGE && Built(w[..], args, 0, argvOff, strTop)
    modifies w
    ensures ok == NulFree(args)
    ensures ok ==> Built(w[..], args, |args|, argvOff, strTop)
  {
    var cursor := 0;
    for i := 0 to |args|
      invariant Built(w[..], args, i, argvOff, strTop) && cursor == |Strings(args, i)|
      invariant forall j :: 0 <= j < i ==> 0 !in args[j]
    {
      ok := WriteArg(w, args, i, argvOff, strTop, cursor);
      if !ok { return; }
      NextString(args, i);
      cursor := cursor + |args[i]| + 1;
    }
    return true;
  }

  /** NULL after the pointers, argc before them. */
  method WriteEnds(w: array<U8>, args: seq<seq<U8>>, argcOff: nat, ghost strTop: nat)
    requires FitsBudget(args) && w.Length == PAGE && argcOff == PAGE - Total(args)
    requires Built(w[..], args, |args|, argcOff + 8, strTop)
    modifies w
    ensures Holds(w[..], args) && forall k :: 0 <= k < argcOff ==> w[k] == 0
  {
    var n := |args|;
    ghost var before := w[..];
    WriteWord(w, argcOff + 8 + 8 * n, 0);
    ghost var mid := w[..];
    WriteWord(w, argcOff, n);
    assert w[argcOff + 8 + 8 * n..argcOff + 16 + 8 * n] == mid[argcOff + 8 + 8 * n..argcOff + 16 + 8 * n];
    BuiltIsBlock(before, w[..], args, strTop);
  }

  /** user_prepare_argv on a zeroed stack page: it succeeds exactly for at most 8 arguments of at
      most 256 bytes with their NULs and no interior NUL, and then the process that starts at the
      returned stack pointer reads its arguments back. */
  method PrepareArgv(w: array<U8>, args: seq<seq<U8>>) returns (rsp: Option<nat>)
    requires w.Length == PAGE && forall k :: 0 <= k < PAGE ==> w[k] == 0
    modifies w
    ensures rsp.Some? <==> FitsBudget(args) && NulFree(args)
    ensures rsp.Some? ==>
              && rsp.value == STACK_TOP - Total(args)
              && Holds(w[..], args)
              && (forall k :: 0 <= k < PAGE - Total(args) ==> w[k] == 0)
              && Walk(w[..], rsp.value) == Some(args)
  {
    var strings := MeasureStrings(args);
    if strings == None { return None; }
    var n := |args|;
    var total := Align16(8 + 8 * (n + 1) + strings.value);
    var strTop, argcOff := PAGE - strings.value, PAGE - total;
    var argvOff := argcOff + 8;
    assert total == Total(args);
    if argvOff + 8 * (n + 1) > strTop {
      assert false;
      return None;
    }
    BuiltStart(w[..], args);
    var ok := WriteArgs(w, args, argvOff, strTop);
    if !ok { return None; }
    WriteEnds(w, args, argcOff, strTop);
    WalkInvertsBlock(w[..], args);
    return Some(STACK_TOP - total);
  }
}

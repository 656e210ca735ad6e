/** Sequence operations that the TypeScript code performs with `Array` methods. */
module Seqs {

  function Min(a: int, b: int): int { if a <= b then a else b }

  function Max(a: int, b: int): int { if a <= b then b else a }

  /** `[x, ...s].slice(0, cap)`: a newest-first log with `x` put in front and at most `cap` entries kept. */
  function PrependCapped<T>(x: T, s: seq<T>, cap: nat): (r: seq<T>)
    ensures |r| == Min(|s| + 1, cap)
    ensures cap >= 1 ==> r[0] == x && r[1..] == s[..Min(|s|, cap - 1)]
  {
    ([x] + s)[..Min(|s| + 1, cap)]
  }

  /** Two entries logged one after the other sit in front of what is left of the older log. */
  lemma PrependTwice<T>(x: T, y: T, s: seq<T>, cap: nat)
    requires cap >= 2
    ensures PrependCapped(y, PrependCapped(x, s, cap), cap) == [y, x] + s[..Min(|s|, cap - 2)]
  {
    var p := PrependCapped(x, s, cap);
    assert p == [x] + s[..Min(|s|, cap - 1)];
    assert p[..Min(|p|, cap - 1)] == [x] + s[..Min(|s|, cap - 2)];
  }

  /** Appending two entries one at a time appends the pair. */
  lemma AppendTwo<T>(s: seq<T>, x: T, y: T)
    ensures s + [x] + [y] == s + [x, y]
  {
    var l, r := s + [x] + [y], s + [x, y];
    assert |l| == |r|;
    forall i | 0 <= i < |l| ensures l[i] == r[i] {
      if i < |s| {
        assert l[i] == s[i] == r[i];
      }
    }
  }

  /** `s.slice(-n)`: the last `n` entries of `s` (JavaScript reads `-0` as `0`, so `n == 0` keeps everything). */
  function KeepLast<T>(s: seq<T>, n: nat): (r: seq<T>)
    ensures n > 0 ==> |r| == Min(|s|, n)
    ensures |r| <= |s| && r == s[|s| - |r|..]
  {
    if n == 0 then s else s[Max(0, |s| - n)..]
  }

  /** `s.slice(0, end)`: a negative `end` counts from the back, an `end` past the length is cut to it. */
  function SliceTo<T>(s: seq<T>, end: int): (r: seq<T>)
    ensures |r| <= |s| && r == s[..|r|]
    ensures end >= 0 ==> |r| == Min(end, |s|)
    ensures end < 0 ==> |r| == Max(0, |s| + end)
  {
    if end >= 0 then s[..Min(end, |s|)] else s[..Max(0, |s| + end)]
  }

  /** `s.filter(keep)`: the elements of `s` that satisfy `keep`, in their original order. */
  function Filter<T>(s: seq<T>, keep: T -> bool): (r: seq<T>)
    ensures |r| <= |s|
    ensures forall i :: 0 <= i < |r| ==> keep(r[i])
  {
    if s == [] then []
    else if keep(s[0]) then [s[0]] + Filter(s[1..], keep)
    else Filter(s[1..], keep)
  }

  /** An element survives `Filter` exactly when it was there and satisfies the predicate. */
  lemma {:induction false} FilterMembership<T>(s: seq<T>, keep: T -> bool, x: T)
    ensures x in Filter(s, keep) <==> x in s && keep(x)
  {
    if s != [] {
      FilterMembership(s[1..], keep, x);
      assert s == [s[0]] + s[1..];
    }
  }

  /** `Filter` distributes over concatenation, which pins down the order of what it keeps. */
  lemma {:induction false} FilterAppend<T>(a: seq<T>, b: seq<T>, keep: T -> bool)
    ensures Filter(a + b, keep) == Filter(a, keep) + Filter(b, keep)
  {
    if a == [] {
      assert a + b == b;
    } else {
      assert (a + b)[0] == a[0];
      assert (a + b)[1..] == a[1..] + b;
      FilterAppend(a[1..], b, keep);
    }
  }

  /** A sequence whose every element satisfies the predicate is left as it is. */
  lemma {:induction false} FilterKeepsAll<T>(s: seq<T>, keep: T -> bool)
    requires forall i :: 0 <= i < |s| ==> keep(s[i])
    ensures Filter(s, keep) == s
  {
    if s != [] {
      FilterKeepsAll(s[1..], keep);
    }
  }

  /** Filtering twice with the same predicate is filtering once. */
  lemma FilterIdempotent<T>(s: seq<T>, keep: T -> bool)
    ensures Filter(Filter(s, keep), keep) == Filter(s, keep)
  {
    FilterKeepsAll(Filter(s, keep), keep);
  }
}

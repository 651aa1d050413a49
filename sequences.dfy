/** `Array.prototype.filter` and `Array.prototype.slice` on sequences, with
    the facts the table and the pages rely on: a filter keeps exactly the
    elements that pass, in their original order, and a slice clamps its
    bounds to the length. */
module Sequences {

  import opened JsValues

  /** What a filter callback does with one element: keeps it, drops it, or
      throws (a TypeError from reading a property of null, or calling a
      string method on a non-string). */
  datatype Verdict = Keep | Drop | Throws

  function Min(a: int, b: int): int
  {
    if a <= b then a else b
  }

  /** `s.filter(p)`. */
  function Filter<T>(s: seq<T>, p: T -> bool): (r: seq<T>)
    ensures |r| <= |s|
    ensures forall x :: x in r ==> x in s && p(x)
  {
    if s == [] then []
    else if p(s[0]) then [s[0]] + Filter(s[1..], p)
    else Filter(s[1..], p)
  }

  /** Adds one to every index. */
  function Shift(xs: seq<nat>): (r: seq<nat>)
    ensures |r| == |xs|
    ensures forall k :: 0 <= k < |xs| ==> r[k] == xs[k] + 1
  {
    seq(|xs|, k requires 0 <= k < |xs| => xs[k] + 1)
  }

  /** The positions of `s` whose element passes `p`, in increasing order. */
  function KeptIndices<T>(s: seq<T>, p: T -> bool): seq<nat>
  {
    if s == [] then []
    else (if p(s[0]) then [0] else []) + Shift(KeptIndices(s[1..], p))
  }

  lemma {:induction false} KeptIndicesOrdered<T>(s: seq<T>, p: T -> bool)
    ensures forall k :: 0 <= k < |KeptIndices(s, p)| ==> KeptIndices(s, p)[k] < |s|
    ensures forall k, l :: 0 <= k < l < |KeptIndices(s, p)| ==>
      KeptIndices(s, p)[k] < KeptIndices(s, p)[l]
  {
    if s != [] {
      KeptIndicesOrdered(s[1..], p);
    }
  }

  lemma {:induction false} KeptIndicesSelect<T>(s: seq<T>, p: T -> bool)
    ensures |KeptIndices(s, p)| == |Filter(s, p)|
    ensures forall k :: 0 <= k < |KeptIndices(s, p)| ==>
      KeptIndices(s, p)[k] < |s| && Filter(s, p)[k] == s[KeptIndices(s, p)[k]]
  {
    if s != [] {
      var t := s[1..];
      KeptIndicesSelect(t, p);
      var rest := KeptIndices(t, p);
      var idx := KeptIndices(s, p);
      if p(s[0]) {
        assert idx == [0] + Shift(rest);
        assert Filter(s, p) == [s[0]] + Filter(t, p);
        forall k | 0 < k < |idx|
          ensures idx[k] < |s| && Filter(s, p)[k] == s[idx[k]]
        {
          assert idx[k] == rest[k - 1] + 1;
        }
      } else {
        assert idx == [] + Shift(rest);
      }
    }
  }

  lemma {:induction false} KeptIndicesComplete<T>(s: seq<T>, p: T -> bool)
    ensures forall i :: 0 <= i < |s| ==> (p(s[i]) <==> i in KeptIndices(s, p))
  {
    if s != [] {
      var t := s[1..];
      KeptIndicesComplete(t, p);
      var rest := KeptIndices(t, p);
      var sh := Shift(rest);
      var idx := KeptIndices(s, p);
      assert idx == (if p(s[0]) then [0] else []) + sh;
      assert forall k :: 0 <= k < |sh| ==> sh[k] > 0;
      forall i | 0 < i < |s|
        ensures p(s[i]) <==> i in idx
      {
        assert s[i] == t[i - 1];
        if p(s[i]) {
          var k :| 0 <= k < |rest| && rest[k] == i - 1;
          assert sh[k] == i;
        }
      }
    }
  }

  /** The filter, characterised by positions: its k-th element is the
      element of `s` at the k-th passing position, those positions increase
      strictly, and a position is among them exactly when its element
      passes. So nothing is added, nothing that passes is dropped, and the
      original order is kept. */
  lemma FilterPositions<T>(s: seq<T>, p: T -> bool)
    ensures |KeptIndices(s, p)| == |Filter(s, p)|
    ensures forall k :: 0 <= k < |KeptIndices(s, p)| ==>
      KeptIndices(s, p)[k] < |s| && Filter(s, p)[k] == s[KeptIndices(s, p)[k]]
    ensures forall k, l :: 0 <= k < l < |KeptIndices(s, p)| ==>
      KeptIndices(s, p)[k] < KeptIndices(s, p)[l]
    ensures forall i :: 0 <= i < |s| ==> (p(s[i]) <==> i in KeptIndices(s, p))
  {
    KeptIndicesOrdered(s, p);
    KeptIndicesSelect(s, p);
    KeptIndicesComplete(s, p);
  }

  /** Every element that passes is kept. */
  lemma {:induction false} FilterComplete<T>(s: seq<T>, p: T -> bool, x: T)
    requires x in s && p(x)
    ensures x in Filter(s, p)
  {
    if s[0] != x {
      FilterComplete(s[1..], p, x);
    }
  }

  /** When every element passes, the filter is the identity. */
  lemma {:induction false} FilterKeepsAll<T>(s: seq<T>, p: T -> bool)
    requires forall x :: x in s ==> p(x)
    ensures Filter(s, p) == s
  {
    if s != [] {
      FilterKeepsAll(s[1..], p);
    }
  }

  /** When no element passes, the filter is empty. */
  lemma {:induction false} FilterDropsAll<T>(s: seq<T>, p: T -> bool)
    requires forall x :: x in s ==> !p(x)
    ensures Filter(s, p) == []
  {
    if s != [] {
      FilterDropsAll(s[1..], p);
    }
  }

  /** Filtering twice with the same predicate changes nothing more. */
  lemma FilterIdempotent<T>(s: seq<T>, p: T -> bool)
    ensures Filter(Filter(s, p), p) == Filter(s, p)
  {
    FilterKeepsAll(Filter(s, p), p);
  }

  /** Filtering commutes with concatenation. */
  lemma {:induction false} FilterAppend<T>(a: seq<T>, b: seq<T>, p: T -> bool)
    ensures Filter(a + b, p) == Filter(a, p) + Filter(b, p)
  {
    if a != [] {
      assert (a + b)[1..] == a[1..] + b;
      FilterAppend(a[1..], b, p);
    } else {
      assert a + b == b;
    }
  }

  /** The elements a verdict-giving callback keeps. */
  function KeptBy<T>(v: T -> Verdict): T -> bool
  {
    x => v(x) == Keep
  }

  /** `s.filter(x => ...)` with a callback that may throw: the first throw
      aborts the whole call (None); otherwise the kept elements. */
  function FilterChecked<T>(s: seq<T>, v: T -> Verdict): (r: Option<seq<T>>)
    ensures r.None? <==> exists x :: x in s && v(x) == Throws
    ensures r.Some? ==> r.value == Filter(s, KeptBy(v))
  {
    if s == [] then Some([])
    else if v(s[0]) == Throws then None
    else
      match FilterChecked(s[1..], v)
      case None => None
      case Some(rest) => Some(if v(s[0]) == Keep then [s[0]] + rest else rest)
  }

  /** `s.slice(start, end)` for non-negative bounds: both are clamped to the
      length, and an empty range gives the empty sequence. */
  function Slice<T>(s: seq<T>, start: nat, end: nat): (r: seq<T>)
    ensures start >= |s| || end <= start ==> r == []
    ensures |r| == if end <= start || start >= |s| then 0 else Min(end, |s|) - start
    ensures forall k :: 0 <= k < |r| ==> start + k < |s| && r[k] == s[start + k]
  {
    var b := Min(start, |s|);
    var e := Min(end, |s|);
    if e <= b then [] else s[b..e]
  }
}

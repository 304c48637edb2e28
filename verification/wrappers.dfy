/** Rust's `Option` and the outcome of an operation that may panic. */
module Wrappers {

  /** Rust's `Option<T>`. */
  datatype Option<+T> = None | Some(value: T)

  /** A computation that either succeeds or stops with the reason a Rust
      `unwrap()` would panic with. */
  datatype Result<+R, +E> = Success(value: R) | Failure(error: E)
}

/** The fixed-width integer ranges the descriptor library uses (Rust's
    `u8`, `u16`, `u32`). */
module Ints {

  type u8 = x: int | 0 <= x < 0x100
  type u16 = x: int | 0 <= x < 0x1_0000
  type u32 = x: int | 0 <= x < 0x1_0000_0000
}

/** Sequence helpers that mirror the Rust iterator adaptors the core uses. */
module Seqs {
  import opened Wrappers

  /** Index of the first element satisfying `p`, as `Iterator::position`. */
  function FirstWhere<T>(xs: seq<T>, p: T -> bool): (r: Option<nat>)
    ensures r.Some? ==> r.value < |xs| && p(xs[r.value])
    ensures r.Some? ==> forall k :: 0 <= k < r.value ==> !p(xs[k])
    ensures r.None? <==> forall k :: 0 <= k < |xs| ==> !p(xs[k])
  {
    if |xs| == 0 then None
    else if p(xs[0]) then Some(0)
    else match FirstWhere(xs[1..], p)
      case None => None
      case Some(i) => Some(i + 1)
  }

  /** Length of the longest prefix of `xs` whose elements all satisfy `p`:
      what a greedy `[class]*` regex group captures at the start. */
  function SpanLength<T>(xs: seq<T>, p: T -> bool): (n: nat)
    ensures n <= |xs|
    ensures forall k :: 0 <= k < n ==> p(xs[k])
    ensures n < |xs| ==> !p(xs[n])
  {
    if |xs| == 0 || !p(xs[0]) then 0 else 1 + SpanLength(xs[1..], p)
  }

  /** A span stops exactly where its run of `p`-elements stops. */
  lemma {:induction false} SpanLengthOfConcat<T>(a: seq<T>, b: seq<T>, p: T -> bool)
    requires forall k :: 0 <= k < |a| ==> p(a[k])
    requires |b| == 0 || !p(b[0])
    ensures SpanLength(a + b, p) == |a|
    decreases |a|
  {
    if |a| == 0 {
      assert a + b == b;
    } else {
      assert (a + b)[0] == a[0];
      assert (a + b)[1..] == a[1..] + b;
      SpanLengthOfConcat(a[1..], b, p);
    }
  }

  /** Strictly increasing: each index appears at most once, in ascending order. */
  predicate StrictlyIncreasing(xs: seq<nat>) {
    forall k, l :: 0 <= k < l < |xs| ==> xs[k] < xs[l]
  }

  /** Two ascending index lists with the same members are the same list, so
      a search specified by membership and order has exactly one answer. */
  lemma {:induction false} StrictlyIncreasingUnique(xs: seq<nat>, ys: seq<nat>)
    requires StrictlyIncreasing(xs) && StrictlyIncreasing(ys)
    requires forall v :: v in xs <==> v in ys
    ensures xs == ys
    decreases |xs| + |ys|
  {
    assert |xs| == 0 <==> |ys| == 0 by {
      if |xs| > 0 {
        assert xs[0] in ys;
      }
      if |ys| > 0 {
        assert ys[0] in xs;
      }
    }
    if |xs| > 0 {
      assert xs[0] == ys[0] by {
        assert xs[0] in ys;
        assert ys[0] in xs;
        var i :| 0 <= i < |ys| && ys[i] == xs[0];
        var j :| 0 <= j < |xs| && xs[j] == ys[0];
        assert ys[0] <= ys[i] && xs[0] <= xs[j];
      }
      forall v ensures v in xs[1..] <==> v in ys[1..] {
        if v in xs[1..] {
          var j :| 1 <= j < |xs| && xs[j] == v;
          assert v in ys && v != ys[0];
        }
        if v in ys[1..] {
          var j :| 1 <= j < |ys| && ys[j] == v;
          assert v in xs && v != xs[0];
        }
      }
      StrictlyIncreasingUnique(xs[1..], ys[1..]);
      assert xs == [xs[0]] + xs[1..];
      assert ys == [ys[0]] + ys[1..];
    }
  }
}

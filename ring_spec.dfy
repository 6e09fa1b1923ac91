/**
 * Value-level specification of the ring buffer of buffer.go: the live
 * contents of a buffer, oldest first, after each Add.
 */
module RingSpec {

  type Pos = n: int | 0 < n witness 1

  /** The capacity policy a buffer is created with (buffer.go:125-139). */
  datatype Limit = Unbound | Bound(cap: Pos)

  /**
   * One Add: append, or, on a bound buffer that is full, drop the oldest
   * element and append (buffer.go:32-49).
   */
  function Push<T>(s: seq<T>, x: T, limit: Limit): (r: seq<T>)
    ensures |r| > 0 && r[|r| - 1] == x
    ensures limit.Bound? && |s| <= limit.cap ==> |r| <= limit.cap
  {
    if limit.Bound? && |s| >= limit.cap then s[1..] + [x] else s + [x]
  }

  /** A run of Adds, first element of `xs` first. */
  function PushAll<T>(s: seq<T>, xs: seq<T>, limit: Limit): seq<T>
    decreases |xs|
  {
    if xs == [] then s else PushAll(Push(s, xs[0], limit), xs[1..], limit)
  }

  /** The last `n` elements of `xs` (all of them when there are fewer). */
  function LastN<T>(xs: seq<T>, n: nat): (r: seq<T>)
    ensures |r| == if |xs| < n then |xs| else n
  {
    if |xs| <= n then xs else xs[|xs| - n..]
  }

  /** Left fold: the effect of visiting `xs` in order with a step function. */
  function FoldLeft<S, T>(f: (S, T) -> S, init: S, xs: seq<T>): S
    decreases |xs|
  {
    if xs == [] then init else FoldLeft(f, f(init, xs[0]), xs[1..])
  }

  lemma LastNOfLastN<T>(a: seq<T>, b: seq<T>, n: nat)
    ensures LastN(LastN(a, n) + b, n) == LastN(a + b, n)
  {
    var t := LastN(a, n);
    if |a| > n {
      assert a + b == a[..|a| - n] + (t + b);
      var k := |t + b| - |LastN(t + b, n)|;
      assert (a + b)[|a + b| - |LastN(a + b, n)|..] == (t + b)[k..];
    }
  }

  /** A bound Add keeps the last `cap` of the contents followed by the new element. */
  lemma PushIsLastN<T>(s: seq<T>, x: T, c: Pos)
    requires |s| <= c
    ensures Push(s, x, Bound(c)) == LastN(s + [x], c)
  {
    if |s| == c {
      assert (s + [x])[1..] == s[1..] + [x];
    }
  }

  /**
   * Drop-oldest FIFO: a run of Adds into a bound buffer holding `s` leaves
   * the last `c` elements of everything added, oldest first.
   */
  lemma {:induction false} PushAllBound<T>(s: seq<T>, xs: seq<T>, c: Pos)
    requires |s| <= c
    ensures PushAll(s, xs, Bound(c)) == LastN(s + xs, c)
    decreases |xs|
  {
    if xs == [] {
      assert s + xs == s;
    } else {
      var x, rest := xs[0], xs[1..];
      var s' := Push(s, x, Bound(c));
      assert PushAll(s, xs, Bound(c)) == PushAll(s', rest, Bound(c));
      PushIsLastN(s, x, c);
      assert s' == LastN(s + [x], c);
      PushAllBound(s', rest, c);
      assert PushAll(s', rest, Bound(c)) == LastN(LastN(s + [x], c) + rest, c);
      LastNOfLastN(s + [x], rest, c);
      assert xs == [x] + rest;
      assert (s + [x]) + rest == s + xs;
    }
  }

  /** An unbound buffer keeps everything, in insertion order. */
  lemma {:induction false} PushAllUnbound<T>(s: seq<T>, xs: seq<T>)
    ensures PushAll(s, xs, Unbound) == s + xs
    decreases |xs|
  {
    if xs != [] {
      PushAllUnbound(s + [xs[0]], xs[1..]);
      assert s + [xs[0]] + xs[1..] == s + xs;
    }
  }

  /**
   * From an empty bound buffer: after N Adds the contents are the last
   * min(N, C) elements, and the buffer is full exactly when N >= C.
   */
  lemma DropOldestFromEmpty<T>(xs: seq<T>, c: Pos)
    ensures PushAll([], xs, Bound(c)) == LastN(xs, c)
    ensures |PushAll([], xs, Bound(c))| == c <==> |xs| >= c
  {
    PushAllBound([], xs, c);
    assert [] + xs == xs;
  }
}

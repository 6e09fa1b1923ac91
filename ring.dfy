/**
 * The generic buffer of buffer.go: a Go slice `store` (its length `len`, its
 * capacity `store.Length`), the `bound` flag and `startIndex`, the slot of
 * the oldest element once a bound buffer has wrapped.
 */
module Ring {
  import opened Wrappers
  import opened RingSpec
  import opened Slog

  /** The `record` struct: a record with the context of the handler that buffered it. */
  datatype BufferedRecord = BufferedRecord(record: Record, attrs: Option<seq<Attr>>, groups: seq<string>)

  /** Capacity of a new unbound buffer (buffer.go:137). */
  const UnboundInitialCap := 16

  /** (a + b) % n for a slot a < n and an offset b <= n, without the division. */
  lemma WrapIndex(a: nat, b: nat, n: nat)
    requires a < n && b <= n
    ensures (a + b) % n == if a + b < n then a + b else a + b - n
  {
  }

  /**
   * Overwriting the oldest slot of a full ring and advancing the start by
   * one drops the oldest element and appends the new one.
   */
  lemma OverwriteOldest<T>(s: seq<T>, st: nat, x: T)
    requires st < |s|
    ensures var s', st' := s[st := x], if st + 1 < |s| then st + 1 else 0;
      s'[st'..] + s'[..st'] == (s[st..] + s[..st])[1..] + [x]
  {
    var s' := s[st := x];
    if st + 1 < |s| {
      assert s'[st + 1..] == s[st + 1..];
      assert s'[..st + 1] == s[..st] + [x];
      assert (s[st..] + s[..st])[1..] == s[st + 1..] + s[..st];
    } else {
      assert s'[0..] + s'[..0] == s[..st] + [x];
      assert (s[st..] + s[..st])[1..] == s[..st];
    }
  }

  class Buffer<T(0)> {
    var store: array<T>
    var len: nat
    const bound: bool
    var startIndex: nat
    /** The live elements, oldest first, as the Adds since the last Clear intend them. */
    ghost var Contents: seq<T>
    /** The bound on Contents: the capacity of a bound buffer; none for an unbound one. */
    ghost const Limit: RingSpec.Limit
    ghost var Repr: set<object>

    /** Shape of the fields: what every operation keeps, Clear included. */
    ghost predicate Wf()
      reads this, Repr
    {
      && Repr == {this, store}
      && 0 < store.Length
      && len <= store.Length
      && startIndex < store.Length
      && (!bound ==> startIndex == 0)
      && |Contents| == len
      && Limit == if bound then Bound(store.Length) else Unbound
    }

    /**
     * Every slot that All visits lies inside the slice, so the iteration of
     * buffer.go:67-73 reads no index at or past `len`.
     */
    predicate Readable()
      reads this
    {
      len == 0 || len == store.Length || startIndex == 0
    }

    /**
     * The invariant the source relies on: startIndex is 0 unless the buffer
     * is full. Then All reads back exactly the intended contents.
     */
    ghost predicate Valid()
      reads this, Repr
    {
      Wf() && (len < store.Length ==> startIndex == 0) && Items() == Contents
    }

    /** What All reads: the slots (startIndex + i) % cap for i below len. */
    ghost function Items(): (s: seq<T>)
      reads this, Repr
      requires Wf() && Readable()
      ensures |s| == len
    {
      if len == store.Length then store[startIndex..] + store[..startIndex] else store[..len]
    }

    /** The slot All reads for position i (buffer.go:69). */
    function Slot(i: nat): nat
      reads this
      requires 0 < store.Length
    {
      (startIndex + i) % store.Length
    }

    /** The i-th slot visited by All, `(startIndex + i) % cap`, holds the i-th live element. */
    lemma SlotHoldsItem(i: nat)
      requires Wf() && Readable() && i < len
      ensures (startIndex + i) % store.Length < len
      ensures store[(startIndex + i) % store.Length] == Items()[i]
    {
      WrapIndex(startIndex, i, store.Length);
      if len < store.Length {
        assert startIndex == 0;
      }
    }

    /**
     * Without Readable(), some slot All visits lies past `len`: the Go
     * iteration would index outside the slice.
     */
    lemma UnreadableIndexesPastLen()
      requires Wf() && !Readable()
      ensures exists i :: 0 <= i < len && Slot(i) >= len
    {
      var n := store.Length;
      if startIndex >= len {
        WrapIndex(startIndex, 0, n);
        assert Slot(0) >= len;
      } else if startIndex + len <= n {
        WrapIndex(startIndex, len - 1, n);
        assert Slot(len - 1) >= len;
      } else {
        var i := n - 1 - startIndex;
        WrapIndex(startIndex, i, n);
        assert Slot(i) >= len;
      }
    }

    /** newBuffer (buffer.go:125-139): bound with capacity n when n > 0, else unbound. */
    constructor (maxElements: int)
      ensures Valid() && fresh(Repr)
      ensures bound <==> maxElements > 0
      ensures Limit == if maxElements > 0 then Bound(maxElements) else Unbound
      ensures store.Length == if maxElements > 0 then maxElements else UnboundInitialCap
      ensures Contents == [] && startIndex == 0
    {
      if maxElements > 0 {
        store := new T[maxElements];
        bound := true;
      } else {
        store := new T[UnboundInitialCap];
        bound := false;
      }
      len := 0;
      startIndex := 0;
      Contents := [];
      Limit := if maxElements > 0 then Bound(maxElements) else Unbound;
      new;
      Repr := {this, store};
    }

    /**
     * The growth step of Go's append on a full unbound slice (buffer.go:38):
     * a larger backing array holding the same elements. Go's growth factor
     * is not modelled; the capacity doubles.
     */
    method Grow()
      requires Wf() && !bound && len == store.Length
      modifies Repr
      ensures Wf() && fresh(store) && Repr == {this, store}
      ensures len == old(len) < store.Length && startIndex == 0 && Contents == old(Contents)
      ensures store[..len] == old(store[..len])
      ensures old(Valid()) ==> Valid()
    {
      var grown := new T[2 * store.Length];
      var i := 0;
      while i < len
        invariant 0 <= i <= len == store.Length < grown.Length
        invariant grown[..i] == store[..i]
        modifies grown
      {
        grown[i] := store[i];
        i := i + 1;
      }
      ghost var was := store[..];
      assert was == store[..len];
      assert store[startIndex..] + store[..startIndex] == was;
      store := grown;
      Repr := {this, store};
    }

    /** The append branch of Add (buffer.go:37-39), once there is room in the backing array. */
    method Append(x: T)
      requires Wf() && len < store.Length
      modifies this, store
      ensures Wf() && store == old(store) && Repr == old(Repr)
      ensures len == old(len) + 1 && startIndex == old(startIndex)
      ensures store[..len] == old(store[..len]) + [x]
      ensures Contents == old(Contents) + [x]
      ensures old(Valid()) ==> Valid()
    {
      ghost var wasValid := Valid();
      ghost var before := store[..len];
      store[len] := x;
      len := len + 1;
      Contents := Contents + [x];
      assert store[..len] == before + [x];
      if wasValid {
        assert startIndex == 0;
        assert store[..] == store[..len] ==> store[startIndex..] + store[..startIndex] == store[..len];
      }
    }

    /**
     * The overwrite branch of Add (buffer.go:45-48): on a full bound buffer,
     * the oldest slot takes the new element and startIndex moves past it.
     */
    method Overwrite(x: T)
      requires Wf() && bound && len == store.Length
      modifies this, store
      ensures Wf() && store == old(store) && Repr == old(Repr)
      ensures len == old(len)
      ensures store[..] == old(store[..])[old(startIndex) := x]
      ensures startIndex == (old(startIndex) + 1) % store.Length
      ensures Contents == old(Contents)[1..] + [x]
      ensures old(Valid()) ==> Valid()
    {
      ghost var wasValid := Valid();
      ghost var before := store[..];
      ghost var st := startIndex;
      store[startIndex] := x;
      WrapIndex(startIndex, 1, store.Length);
      OverwriteOldest(before, startIndex, x);
      startIndex := (startIndex + 1) % store.Length;
      Contents := Contents[1..] + [x];
      if wasValid {
        assert before[st..] + before[..st] == old(Contents);
      }
    }

    /**
     * Add (buffer.go:32-49). Appends while unbound or below capacity (an
     * unbound slice grows first when full); on a full bound buffer it
     * overwrites the slot at startIndex and advances startIndex modulo cap.
     */
    method Add(x: T)
      requires Wf()
      modifies Repr
      ensures Wf() && fresh(Repr - old(Repr))
      ensures bound ==> store == old(store)
      ensures old(!bound || len < store.Length) ==>
                && len == old(len) + 1
                && startIndex == old(startIndex)
                && store[..len] == old(store[..len]) + [x]
      ensures old(bound && len == store.Length) ==>
                && len == old(len)
                && store[..] == old(store[..])[old(startIndex) := x]
                && startIndex == (old(startIndex) + 1) % store.Length
      ensures Contents == Push(old(Contents), x, Limit)
      ensures old(Valid()) ==> Valid()
    {
      if !bound || len < store.Length {
        if len == store.Length {
          Grow();
        }
        Append(x);
      } else {
        Overwrite(x);
      }
    }

    /**
     * All (buffer.go:57-75): the pairs (i, element) in iteration order,
     * reading slot (startIndex + i) % cap for i below len.
     */
    method All() returns (r: seq<(nat, T)>)
      requires Wf() && Readable()
      ensures |r| == len
      ensures forall i | 0 <= i < |r| :: r[i].0 == i && r[i].1 == Items()[i]
    {
      var maxCap := store.Length;
      r := [];
      for i := 0 to len
        invariant |r| == i
        invariant forall k | 0 <= k < i :: r[k].0 == k && r[k].1 == Items()[k]
      {
        var ix := (startIndex + i) % maxCap;
        SlotHoldsItem(i);
        r := r + [(i, store[ix])];
      }
    }

    /** Values (buffer.go:81-89): the elements of All, in the same order. */
    method Values() returns (r: seq<T>)
      requires Wf() && Readable()
      ensures r == Items()
      ensures Valid() ==> r == Contents
    {
      var all := All();
      r := [];
      for k := 0 to |all|
        invariant r == Items()[..k]
      {
        r := r + [all[k].1];
      }
    }

    /**
     * Do (buffer.go:92-96): runs `f` on every element in order; the effect of
     * the callback is threaded through as a state `acc`.
     */
    method Do<S>(f: (S, T) -> S, init: S) returns (acc: S)
      requires Wf() && Readable()
      ensures acc == FoldLeft(f, init, Items())
      ensures Valid() ==> acc == FoldLeft(f, init, Contents)
    {
      var vals := Values();
      acc := init;
      for k := 0 to |vals|
        invariant FoldLeft(f, acc, vals[k..]) == FoldLeft(f, init, vals)
      {
        assert vals[k..] == [vals[k]] + vals[k + 1..];
        acc := f(acc, vals[k]);
      }
      assert vals[|vals|..] == [];
    }

    /**
     * Clear (buffer.go:99-107): a fresh empty slice of the same capacity.
     * startIndex is left as it was, so the buffer stays Valid() only when
     * startIndex was already 0.
     */
    method Clear()
      requires Wf()
      modifies Repr
      ensures Wf() && fresh(store) && Repr == {this, store}
      ensures len == 0 && store.Length == old(store.Length)
      ensures startIndex == old(startIndex)
      ensures Contents == [] && Items() == []
      ensures Valid() <==> startIndex == 0
    {
      store := new T[store.Length];
      len := 0;
      Contents := [];
      Repr := {this, store};
    }

    /** Len (buffer.go:110): the number of live elements. */
    method Len() returns (n: nat)
      requires Wf()
      ensures n == len == |Contents|
    {
      n := len;
    }

    /** IsFull (buffer.go:113-118): never for an unbound buffer; else len == cap. */
    method IsFull() returns (full: bool)
      requires Wf()
      ensures !bound ==> !full
      ensures bound ==> (full <==> len == store.Length)
      ensures full <==> Limit.Bound? && |Contents| == Limit.cap
    {
      if !bound {
        return false;
      }
      return len == store.Length;
    }
  }
}

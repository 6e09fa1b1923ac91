/**
 * The behaviours exercised by buffer_test.go, and the effect of Clear on a
 * wrapped buffer, stated as methods whose postconditions give the exact
 * results of Len, IsFull, All and Do.
 */
module BufferScenarios {
  import opened RingSpec
  import opened Ring

  /** The integers 0 .. n-1, in order: what `for i := range n` visits. */
  function Range(n: nat): seq<int>
  {
    if n == 0 then [] else Range(n - 1) + [n - 1]
  }

  /** buffer_test.go:16-27: two elements into an unbound buffer. */
  method UnboundAddTwo() returns (n: nat, full: bool, all: seq<(nat, int)>)
    ensures n == 2 && !full
    ensures all == [(0, 1), (1, 2)]
  {
    var b := new Buffer<int>(0);
    b.Add(1);
    b.Add(2);
    n := b.Len();
    full := b.IsFull();
    all := b.All();
  }

  /** buffer_test.go:29-36: a third element goes last; an unbound buffer is still not full. */
  method UnboundAddThree() returns (all: seq<(nat, int)>, n: nat, full: bool)
    ensures all == [(0, 1), (1, 2), (2, 3)]
    ensures n == 3 && !full
  {
    var b := new Buffer<int>(0);
    b.Add(1);
    b.Add(2);
    b.Add(3);
    all := b.All();
    n := b.Len();
    full := b.IsFull();
  }

  /** buffer_test.go:38-42: Clear leaves an empty buffer that can still be read. */
  method UnboundClear() returns (n: nat, all: seq<(nat, int)>)
    ensures n == 0 && all == []
  {
    var b := new Buffer<int>(0);
    b.Add(1);
    b.Add(2);
    b.Add(3);
    b.Clear();
    n := b.Len();
    all := b.All();
  }

  /** buffer_test.go:45-55: Do visits 2, 3 and 4; summing them gives 9. */
  method BufferDo() returns (sum: int)
    ensures sum == 9
  {
    var b := new Buffer<int>(0);
    b.Add(2);
    b.Add(3);
    b.Add(4);
    var add := (acc: int, x: int) => acc + x;
    sum := b.Do(add, 0);
    assert [2, 3, 4][1..] == [3, 4] && [3, 4][1..] == [4] && [4][1..] == [];
    assert FoldLeft(add, 0, [2, 3, 4]) == FoldLeft(add, 2, [3, 4]) == FoldLeft(add, 5, [4]) == 9;
  }

  /** The first half of buffer_test.go:57-77: two elements into a buffer bound to 3 leave it not full. */
  method BoundBufferTwo() returns (b: Buffer<int>, n: nat, full: bool)
    ensures fresh(b.Repr) && b.Valid() && b.Limit == Bound(3) && b.Contents == [1, 2]
    ensures n == 2 && !full
  {
    b := new Buffer<int>(3);
    b.Add(1);
    b.Add(2);
    n := b.Len();
    full := b.IsFull();
  }

  /** buffer_test.go:57-77: a buffer bound to 3 is full after exactly three elements. */
  method BoundBuffer() returns (n: nat, fullAtTwo: bool, fullAtThree: bool, all: seq<(nat, int)>)
    ensures n == 2 && !fullAtTwo && fullAtThree
    ensures all == [(0, 1), (1, 2), (2, 3)]
  {
    var b;
    b, n, fullAtTwo := BoundBufferTwo();
    b.Add(3);
    fullAtThree := b.IsFull();
    all := b.All();
  }

  /**
   * buffer_test.go:79-94: five elements into a buffer bound to 3; All
   * yields the last three, numbered from 0, oldest first.
   */
  method BoundBufferOverCapacity() returns (all: seq<(nat, int)>, full: bool, n: nat)
    ensures all == [(0, 2), (1, 3), (2, 4)]
    ensures full && n == 3
  {
    var b := new Buffer<int>(3);
    for i := 0 to 5
      invariant b.Valid() && fresh(b.Repr) && b.Limit == Bound(3)
      invariant b.Contents == LastN(Range(i), 3)
    {
      b.Add(i);
      PushIsLastN(LastN(Range(i), 3), i, 3);
      LastNOfLastN(Range(i), [i], 3);
    }
    assert Range(5) == [0, 1, 2, 3, 4] by {
      assert Range(2) == [0, 1] by {
        assert Range(1) == [0];
      }
      assert Range(4) == [0, 1, 2, 3] by {
        assert Range(3) == [0, 1, 2];
      }
    }
    assert b.Contents == [2, 3, 4];
    all := b.All();
    full := b.IsFull();
    n := b.Len();
  }

  /**
   * A buffer bound to 3 that has wrapped once (startIndex 1) and then been
   * cleared: empty, with startIndex still 1.
   */
  method WrappedThenCleared() returns (b: Buffer<int>)
    ensures fresh(b.Repr) && b.Wf() && b.bound && b.store.Length == 3
    ensures b.Contents == [] && b.len == 0 && b.startIndex == 1
  {
    b := new Buffer<int>(3);
    b.Add(1);
    b.Add(2);
    b.Add(3);
    b.Add(4);
    b.Clear();
  }

  /**
   * Clear keeps startIndex (buffer.go:99-107). After a bound buffer of 3
   * has wrapped once and been cleared, one Add leaves startIndex at 1 with a
   * single live element: the first slot All would read, (startIndex + 0) %
   * cap, lies past the end of the slice, which Go reports as an index out
   * of range.
   */
  method ClearAfterWrap() returns (readable: bool, len: nat, firstSlot: nat)
    ensures !readable && len == 1 && firstSlot == 1
  {
    var b := WrappedThenCleared();
    b.Add(10);
    readable := b.Readable();
    len := b.Len();
    firstSlot := b.Slot(0);
  }
}

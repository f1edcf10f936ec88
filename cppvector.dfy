/**
 * `CppVector<T>`: a growable buffer laid out like the native dynamic array, three pointers
 * `start <= end <= eos` into one heap block. Here the block is `data` (from `start` to `eos`)
 * and `len` is the distance from `start` to `end`.
 */
module CppVectors {
  import opened Primitives

  function Pow2(k: nat): (p: nat)
    ensures p >= 1
  {
    if k == 0 then 1 else 2 * Pow2(k - 1)
  }

  lemma Pow2Step(cap: nat, k: nat)
    ensures 2 * cap * Pow2(k) == cap * Pow2(k + 1)
  {
  }

  /**
   * `reserve(additional)` reallocates once, doubling, exactly when `len + additional` exceeds
   * the capacity.
   */
  function ReserveCapacity(len: nat, cap: nat, additional: nat): (c: nat)
    ensures c == cap || c == 2 * cap
  {
    if len + additional > cap then 2 * cap else cap
  }

  /** After `reserve`, the requested room is there exactly when one doubling was enough. */
  lemma ReserveFitsIffOneDoublingSuffices(len: nat, cap: nat, additional: nat)
    ensures len + additional <= ReserveCapacity(len, cap, additional) <==> len + additional <= 2 * cap
  {
  }

  /** `reserve` need not make room: one element of capacity, three more requested. */
  lemma ReserveMayNotFit()
    ensures ReserveCapacity(0, 1, 3) == 2 < 0 + 3
  {
  }

  /**
   * How many times `extend_from_slice` doubles before `n` more elements fit: the least `k`
   * with `len + n <= cap * 2^k`. With capacity 0 and `n > 0` there is none.
   */
  function Doublings(len: nat, cap: nat, n: nat): (k: nat)
    requires cap > 0 || len + n <= cap
    ensures len + n <= cap * Pow2(k)
    ensures k > 0 ==> cap * Pow2(k - 1) < len + n
    decreases len + n - cap
  {
    if len + n > cap then
      var k := Doublings(len, 2 * cap, n);
      Pow2Step(cap, k);
      1 + k
    else 0
  }

  /**
   * The capacity `extend_from_slice` ends with: the old capacity doubled `Doublings` times,
   * the least such capacity that holds `len + n` elements.
   */
  function ExtendCapacity(len: nat, cap: nat, n: nat): (c: nat)
    requires cap > 0 || len + n <= cap
    ensures len + n <= c
    ensures c == cap || c < 2 * (len + n)
  {
    var k := Doublings(len, cap, n);
    if k == 0 then cap
    else
      Pow2Step(cap, k - 1);
      cap * Pow2(k)
  }

  /** One failed fit followed by a doubling leads to the same final capacity. */
  lemma ExtendCapacityStep(len: nat, cap: nat, n: nat)
    requires cap > 0 && len + n > cap
    ensures ExtendCapacity(len, cap, n) == ExtendCapacity(len, 2 * cap, n)
  {
    var k := Doublings(len, 2 * cap, n);
    assert Doublings(len, cap, n) == 1 + k;
    Pow2Step(cap, k);
  }

  /** Where a traversal step reads: a position of the live prefix, the end, or outside it. */
  datatype Read = At(pos: nat) | Done | OutOfBlock

  /** One iterator step: what it reads and the new shared `index`. */
  datatype Step = Step(read: Read, index: int)

  /**
   * `next`: stops when `start + index == end`; otherwise moves `index` forward and reads
   * the element before it, which is inside the live prefix only for `0 <= index < len`.
   */
  function NextStep(len: nat, index: int): (s: Step)
    ensures s.read == Done <==> index == len
    ensures s.read.At? <==> 0 <= index < len
    ensures s.read.At? ==> s.read.pos == index
    ensures s.read != Done ==> s.index == index + 1
    ensures s.read == Done ==> s.index == index
  {
    if index == len then Step(Done, index)
    else if 0 <= index < len then Step(At(index), index + 1)
    else Step(OutOfBlock, index + 1)
  }

  /**
   * `next_back`: stops when `end + index == start`; otherwise moves `index` back and reads
   * at `end + index`, which is inside the live prefix only for `-len < index <= 0`.
   */
  function NextBackStep(len: nat, index: int): (s: Step)
    ensures s.read == Done <==> len + index == 0
    ensures s.read.At? <==> -(len as int) < index <= 0
    ensures s.read.At? ==> s.read.pos == len + index - 1
    ensures s.read != Done ==> s.index == index - 1
    ensures s.read == Done ==> s.index == index
  {
    if len + index == 0 then Step(Done, index)
    else if -(len as int) < index <= 0 then Step(At(len + index - 1), index - 1)
    else Step(OutOfBlock, index - 1)
  }

  /** The positions repeated `next` calls read, from `index` until the end. */
  function Forward(len: nat, index: int): (r: seq<nat>)
    requires 0 <= index <= len
    ensures forall k :: 0 <= k < |r| ==> index <= r[k] < len
    decreases len - index
  {
    var s := NextStep(len, index);
    if s.read.At? then [s.read.pos] + Forward(len, s.index) else []
  }

  /** The positions repeated `next_back` calls read, from `index` until the start. */
  function Backward(len: nat, index: int): (r: seq<nat>)
    requires -(len as int) <= index <= 0
    ensures forall k :: 0 <= k < |r| ==> r[k] < len + index
    decreases len + index
  {
    var s := NextBackStep(len, index);
    if s.read.At? then [s.read.pos] + Backward(len, s.index) else []
  }

  /** Pure forward iteration reads positions `index`, `index + 1`, ..., `len - 1` in order. */
  lemma {:induction false} ForwardInOrder(len: nat, index: int)
    requires 0 <= index <= len
    ensures |Forward(len, index)| == len - index
    ensures forall k :: 0 <= k < len - index ==> Forward(len, index)[k] == index + k
    decreases len - index
  {
    if index < len {
      ForwardInOrder(len, index + 1);
    }
  }

  /** Pure backward iteration reads positions `len + index - 1` down to `0`. */
  lemma {:induction false} BackwardInOrder(len: nat, index: int)
    requires -(len as int) <= index <= 0
    ensures |Backward(len, index)| == len + index
    ensures forall k :: 0 <= k < len + index ==> Backward(len, index)[k] == len + index - 1 - k
    decreases len + index
  {
    if len + index > 0 {
      BackwardInOrder(len, index - 1);
    }
  }

  /** A fresh iterator driven only by `next` yields the slice; only by `next_back`, its reverse. */
  lemma Traversals<T>(s: seq<T>)
    ensures |Forward(|s|, 0)| == |s| && forall k :: 0 <= k < |s| ==> s[Forward(|s|, 0)[k]] == s[k]
    ensures |Backward(|s|, 0)| == |s| && forall k :: 0 <= k < |s| ==> s[Backward(|s|, 0)[k]] == s[|s| - 1 - k]
  {
    ForwardInOrder(|s|, 0);
    BackwardInOrder(|s|, 0);
  }

  /**
   * `next` and `next_back` share one `index`: after a `next` on a non-empty vector,
   * `next_back` reads one past the end; after a `next_back`, `next` reads one before the start.
   */
  lemma MixedStepsLeaveTheBlock(len: nat)
    requires len > 0
    ensures NextBackStep(len, NextStep(len, 0).index).read == OutOfBlock
    ensures NextStep(len, NextBackStep(len, 0).index).read == OutOfBlock
  {
  }

  /** The positions a traversal as written reads for a run of steps (`true` is `next`, `false` is `next_back`). */
  function DriveAsWritten(len: nat, index: int, dirs: seq<bool>): (r: seq<Read>)
    ensures |r| == |dirs|
    decreases |dirs|
  {
    if |dirs| == 0 then []
    else
      var s := if dirs[0] then NextStep(len, index) else NextBackStep(len, index);
      [s.read] + DriveAsWritten(len, s.index, dirs[1..])
  }

  /** On two elements, `next` then `next_back` reads the first element and then past the end. */
  lemma MixedRunAsWritten()
    ensures DriveAsWritten(2, 0, [true, false]) == [At(0), OutOfBlock]
  {
  }

  /**
   * The double-ended traversal `DoubleEndedIterator` calls for: the positions not yet
   * yielded are `front..back`; `next` takes the front one, `next_back` the back one.
   */
  datatype Cursor = Cursor(front: nat, back: nat)

  function CursorStep(c: Cursor, forward: bool): (r: (Read, Cursor))
    requires c.front <= c.back
    ensures r.1.front <= r.1.back
    ensures r.0 == Done <==> c.front == c.back
    ensures r.0 != Done ==> r.0.At? && r.1.back - r.1.front == c.back - c.front - 1
    ensures r.0 != Done && forward ==> r.0 == At(c.front) && r.1 == Cursor(c.front + 1, c.back)
    ensures r.0 != Done && !forward ==> r.0 == At(c.back - 1) && r.1 == Cursor(c.front, c.back - 1)
    ensures r.0 == Done ==> r.1 == c
  {
    if c.front == c.back then (Done, c)
    else if forward then (At(c.front), Cursor(c.front + 1, c.back))
    else (At(c.back - 1), Cursor(c.front, c.back - 1))
  }

  /**
   * Any run of `next` and `next_back` in any order: the first `back - front` reads are
   * elements, each a different position of `front..back`, and every later read is the end.
   */
  function Drive(c: Cursor, dirs: seq<bool>): (r: seq<Read>)
    requires c.front <= c.back
    ensures |r| == |dirs|
    ensures forall k :: 0 <= k < |r| ==> (r[k].At? <==> k < c.back - c.front)
    ensures forall k :: 0 <= k < |r| ==> r[k].At? || r[k] == Done
    ensures forall k :: 0 <= k < |r| && r[k].At? ==> c.front <= r[k].pos < c.back
    ensures forall k, l :: 0 <= k < l < |r| && r[k].At? && r[l].At? ==> r[k].pos != r[l].pos
    decreases |dirs|
  {
    if |dirs| == 0 then []
    else
      var (read, next) := CursorStep(c, dirs[0]);
      [read] + Drive(next, dirs[1..])
  }

  /** A run of at least `back - front` steps reads every position of `front..back`. */
  lemma {:induction false} DriveCoversAll(c: Cursor, dirs: seq<bool>, p: nat)
    requires c.front <= p < c.back && c.back - c.front <= |dirs|
    ensures exists k :: 0 <= k < |dirs| && Drive(c, dirs)[k] == At(p)
    decreases |dirs|
  {
    var (read, next) := CursorStep(c, dirs[0]);
    var r := Drive(c, dirs);
    assert r == [read] + Drive(next, dirs[1..]);
    if read == At(p) {
      assert r[0] == At(p);
    } else {
      assert next.front <= p < next.back;
      DriveCoversAll(next, dirs[1..], p);
      var k :| 0 <= k < |dirs| - 1 && Drive(next, dirs[1..])[k] == At(p);
      assert r[k + 1] == At(p);
    }
  }

  /** On two elements, `next` then `next_back` reads both elements, front first. */
  lemma MixedRunIntended()
    ensures Drive(Cursor(0, 2), [true, false]) == [At(0), At(1)]
  {
  }

  /**
   * `ptr::copy_nonoverlapping(src, block + at, |src|)`: the block's first `at` elements stay,
   * `src` follows them.
   */
  method CopyInto<T>(block: array<T>, at: nat, src: seq<T>)
    requires at + |src| <= block.Length
    modifies block
    ensures block[..at + |src|] == old(block[..at]) + src
  {
    var i := 0;
    while i < |src|
      invariant 0 <= i <= |src|
      invariant forall k :: 0 <= k < at ==> block[k] == old(block[k])
      invariant forall k :: 0 <= k < i ==> block[at + k] == src[k]
    {
      block[at + i] := src[i];
      i := i + 1;
    }
    assert block[..at + |src|] == old(block[..at]) + src;
  }

  class CppVector<T(0)> {
    var data: array<T>
    var len: nat

    /** `start <= end <= eos`. */
    ghost predicate Valid()
      reads this
    {
      len <= data.Length
    }

    /** `len`: the number of live elements, `end - start`. */
    function Len(): (n: nat)
      reads this
      ensures n == len
    {
      len
    }

    /** The capacity, `eos - start`. */
    function Capacity(): (n: nat)
      reads this
      ensures n == data.Length
    {
      data.Length
    }

    /** `as_slice`: the live elements from `start` to `end`. */
    function AsSlice(): (s: seq<T>)
      requires Valid()
      reads this, data
      ensures |s| == Len() <= Capacity()
      ensures forall i :: 0 <= i < |s| ==> s[i] == data[i]
    {
      data[..len]
    }

    /** `new`: three null pointers, so no elements and no capacity. */
    constructor New()
      ensures Valid() && fresh(data)
      ensures Len() == 0 && Capacity() == 0 && AsSlice() == []
    {
      data := new T[0];
      len := 0;
    }

    /** `with_capacity(cap)`: an uninitialised block of `cap` elements, none live. */
    constructor WithCapacity(cap: nat)
      ensures Valid() && fresh(data)
      ensures Len() == 0 && Capacity() == cap && AsSlice() == []
    {
      data := new T[cap];
      len := 0;
    }

    /** `from_slice`: a block exactly as long as `slice`, filled by a bitwise copy. */
    constructor FromSlice(slice: seq<T>)
      ensures Valid() && fresh(data)
      ensures Len() == |slice| && Capacity() == |slice| && AsSlice() == slice
    {
      var block := new T[|slice|](i requires 0 <= i < |slice| => slice[i]);
      assert block[..] == slice;
      data := block;
      len := |slice|;
    }

    /** `clone_from_slice`: a block exactly as long as `slice`, filled element by element. */
    constructor CloneFromSlice(slice: seq<T>)
      ensures Valid() && fresh(data)
      ensures Len() == |slice| && Capacity() == |slice| && AsSlice() == slice
    {
      var block := new T[|slice|];
      var i := 0;
      while i < |slice|
        invariant 0 <= i <= |slice|
        invariant forall k :: 0 <= k < i ==> block[k] == slice[k]
      {
        block[i] := slice[i];
        i := i + 1;
      }
      assert block[..] == slice;
      data := block;
      len := |slice|;
    }

    /**
     * `realloc`: move the live elements into a fresh block of exactly twice the capacity.
     * From capacity 0 the new block is empty again.
     */
    method Realloc()
      requires Valid()
      modifies this
      ensures Valid() && fresh(data)
      ensures Len() == old(Len()) && Capacity() == 2 * old(Capacity())
      ensures AsSlice() == old(AsSlice())
    {
      var block := new T[2 * data.Length];
      CopyInto(block, 0, data[..len]);
      data := block;
    }

    /**
     * `push(val)`: when the vector is full, reallocate first; then store `val` at `end` and
     * advance `end`. A full vector of capacity 0 is still full after reallocating and the
     * store has no room (`progressed` is false): no element is added.
     */
    method Push(val: T) returns (progressed: bool)
      requires Valid()
      modifies this, data
      ensures Valid()
      ensures progressed <==> old(Capacity()) > 0 || old(Len()) < old(Capacity())
      ensures progressed ==> AsSlice() == old(AsSlice()) + [val]
      ensures !progressed ==> Len() == 0 && Capacity() == 0
      ensures old(Len()) < old(Capacity()) ==> data == old(data)
      ensures old(Len()) == old(Capacity()) ==> fresh(data) && Capacity() == 2 * old(Capacity())
    {
      if len + 1 > data.Length {
        Realloc();
      }
      if len + 1 > data.Length {
        progressed := false;
        return;
      }
      data[len] := val;
      len := len + 1;
      progressed := true;
    }

    /**
     * `reserve(additional)`: reallocate once when `len + additional` exceeds the capacity.
     * The live elements never change, and the requested room need not be there afterwards.
     */
    method Reserve(additional: nat)
      requires Valid()
      modifies this
      ensures Valid()
      ensures AsSlice() == old(AsSlice())
      ensures Capacity() == ReserveCapacity(old(Len()), old(Capacity()), additional)
      ensures old(Len()) + additional <= old(Capacity()) ==> data == old(data)
    {
      if len + additional > data.Length {
        Realloc();
      }
    }

    /**
     * `extend_from_slice(slice)`: while `slice` does not fit, reallocate and retry; then copy
     * it after the live elements. With capacity 0 and a non-empty slice the retries never end
     * (`completed` is false).
     */
    method ExtendFromSlice(slice: seq<T>) returns (completed: bool)
      requires Valid()
      modifies this, data
      ensures Valid()
      ensures completed <==> old(Capacity()) > 0 || |slice| == 0
      ensures completed ==> AsSlice() == old(AsSlice()) + slice
      ensures completed ==> Capacity() == ExtendCapacity(old(Len()), old(Capacity()), |slice|)
      ensures !completed ==> Len() == 0 && Capacity() == 0
      decreases len + |slice| - data.Length
    {
      if len + |slice| > data.Length {
        if data.Length == 0 {
          completed := false;
          return;
        }
        ghost var len0, cap0 := len, data.Length;
        Realloc();
        assert len == len0 && data.Length == 2 * cap0;
        completed := ExtendFromSlice(slice);
        assert completed;
        assert data.Length == ExtendCapacity(len0, 2 * cap0, |slice|);
        ExtendCapacityStep(len0, cap0, |slice|);
      } else {
        assert ExtendCapacity(len, data.Length, |slice|) == data.Length;
        CopyInto(data, len, slice);
        len := len + |slice|;
        completed := true;
      }
    }

    /** `Index<usize>`: `as_slice()[index]`, panicking at or beyond `len`. */
    function Get(index: nat): (r: Outcome<T>)
      requires Valid()
      reads this, data
      ensures r.Returns? <==> index < Len()
      ensures r.Returns? ==> r.value == AsSlice()[index]
    {
      if index < len then Returns(data[index]) else Panics
    }

    /** `Index<Range<usize>>`: `as_slice()[lo..hi]`, panicking unless `lo <= hi <= len`. */
    function Slice(lo: nat, hi: nat): (r: Outcome<seq<T>>)
      requires Valid()
      reads this, data
      ensures r.Returns? <==> lo <= hi <= Len()
      ensures r.Returns? ==> |r.value| == hi - lo && forall k :: 0 <= k < hi - lo ==> r.value[k] == AsSlice()[lo + k]
    {
      if lo <= hi <= len then Returns(data[lo..hi]) else Panics
    }

    /** `IndexMut<usize>` followed by a store: replaces one live element, or panics. */
    method Set(index: nat, val: T) returns (r: Outcome<()>)
      requires Valid()
      modifies data
      ensures r.Returns? <==> index < Len()
      ensures r.Returns? ==> AsSlice() == old(AsSlice())[index := val]
      ensures r.Panics? ==> AsSlice() == old(AsSlice())
    {
      if index < len {
        data[index] := val;
        r := Returns(());
      } else {
        r := Panics;
      }
    }
  }

  /** What an iterator step yields: an element, the end of the traversal, or a read outside the live elements. */
  datatype Item<T> = Item(value: T) | End | Invalid

  /** `CppVectorIterator`: a shared reference to the vector and one signed `index`. */
  class CppVectorIterator<T(0)> {
    const vector: CppVector<T>
    var index: int

    /** `into_iter`/`iter`: starts at index 0. */
    constructor (vector: CppVector<T>)
      ensures this.vector == vector && index == 0
    {
      this.vector := vector;
      index := 0;
    }

    /** `next`. */
    method Next() returns (r: Item<T>)
      requires vector.Valid()
      modifies this
      ensures index == NextStep(vector.Len(), old(index)).index
      ensures var read := NextStep(vector.Len(), old(index)).read;
              && (read.At? ==> r == Item(vector.AsSlice()[read.pos]))
              && (read == Done ==> r == End)
              && (read == OutOfBlock ==> r == Invalid)
    {
      var step := NextStep(vector.len, index);
      index := step.index;
      match step.read
      case At(pos) => r := Item(vector.data[pos]);
      case Done => r := End;
      case OutOfBlock => r := Invalid;
    }

    /** `next_back`. */
    method NextBack() returns (r: Item<T>)
      requires vector.Valid()
      modifies this
      ensures index == NextBackStep(vector.Len(), old(index)).index
      ensures var read := NextBackStep(vector.Len(), old(index)).read;
              && (read.At? ==> r == Item(vector.AsSlice()[read.pos]))
              && (read == Done ==> r == End)
              && (read == OutOfBlock ==> r == Invalid)
    {
      var step := NextBackStep(vector.len, index);
      index := step.index;
      match step.read
      case At(pos) => r := Item(vector.data[pos]);
      case Done => r := End;
      case OutOfBlock => r := Invalid;
    }
  }

  /**
   * `CppVectorIteratorMut`: the same index arithmetic, yielding mutable references; a
   * reference is modelled by the position in the block it designates.
   */
  class CppVectorIteratorMut<T(0)> {
    const vector: CppVector<T>
    var index: int

    /** `into_iter`/`iter_mut`: starts at index 0. */
    constructor (vector: CppVector<T>)
      ensures this.vector == vector && index == 0
    {
      this.vector := vector;
      index := 0;
    }

    /** `next`: the position of the element it lends out. */
    method Next() returns (r: Read)
      modifies this
      ensures r == NextStep(vector.Len(), old(index)).read
      ensures index == NextStep(vector.Len(), old(index)).index
    {
      var step := NextStep(vector.len, index);
      r, index := step.read, step.index;
    }

    /** `next_back`: the position of the element it lends out. */
    method NextBack() returns (r: Read)
      modifies this
      ensures r == NextBackStep(vector.Len(), old(index)).read
      ensures index == NextBackStep(vector.Len(), old(index)).index
    {
      var step := NextBackStep(vector.len, index);
      r, index := step.read, step.index;
    }
  }
}

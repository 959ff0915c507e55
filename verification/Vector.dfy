/**
 The dynamic array. A memory cell is raw or holds a constructed object, so that constructing
 over an object, destroying twice, or overwriting an object by a block move would each break a
 precondition below.
 */
module Vector {

  const PAGE := 16

  datatype Cell<+T> = Raw | Obj(value: T)

  /** `calc_capacity`: whole pages, with room for at least one more item. */
  function CalcCapacity(size: nat): (cp: nat)
    ensures size < cp <= size + PAGE && cp % PAGE == 0
  {
    (size / PAGE + 1) * PAGE
  }

  class Vector<T(!new)> {
    var data: array<Cell<T>>
    var size: nat
    const maxSize: nat

    /** The cells below `size` are exactly the constructed ones. */
    ghost predicate Valid()
      reads this, data
    {
      && size <= data.Length
      && (forall k :: 0 <= k < size ==> data[k].Obj?)
      && (forall k :: size <= k < data.Length ==> data[k] == Raw)
    }

    ghost function Contents(): seq<T>
      reads this, data
      requires Valid()
    {
      seq(size, k requires 0 <= k < size reads this, data requires Valid() => data[k].value)
    }

    lemma ContentsAre(xs: seq<T>)
      requires Valid() && |xs| == size && forall k :: 0 <= k < size ==> data[k] == Obj(xs[k])
      ensures Contents() == xs
    {
    }

    constructor (maxSize: nat)
      ensures Valid() && Contents() == [] && data.Length == 0 && fresh(data)
      ensures this.maxSize == maxSize
    {
      data := new Cell<T>[0];
      size := 0;
      this.maxSize := maxSize;
    }

    // ---- memory ----

    /** Placement new. */
    method Construct(i: nat, x: T)
      requires i < data.Length && data[i] == Raw
      modifies data
      ensures forall k :: 0 <= k < data.Length ==> data[k] == if k == i then Obj(x) else old(data[k])
    {
      data[i] := Obj(x);
    }

    method DestroyAt(i: nat)
      requires i < data.Length && data[i].Obj?
      modifies data
      ensures forall k :: 0 <= k < data.Length ==> data[k] == if k == i then Raw else old(data[k])
    {
      data[i] := Raw;
    }

    method DestroyRange(lo: nat, hi: nat)
      requires lo <= hi <= data.Length && forall k :: lo <= k < hi ==> data[k].Obj?
      modifies data
      ensures forall k :: 0 <= k < data.Length ==> data[k] == if lo <= k < hi then Raw else old(data[k])
    {
      for i := lo to hi
        invariant forall k :: 0 <= k < data.Length ==> data[k] == if lo <= k < i then Raw else old(data[k])
      {
        DestroyAt(i);
      }
    }

    /** `memmove` of `n` cells: only raw memory may be overwritten, and what was left is raw. */
    method Move(dst: nat, src: nat, n: nat)
      requires dst + n <= data.Length && src + n <= data.Length
      requires forall k :: dst <= k < dst + n && !(src <= k < src + n) ==> data[k] == Raw
      modifies data
      ensures forall k :: 0 <= k < data.Length ==>
        data[k] == if dst <= k < dst + n then old(data[src + (k - dst)])
                   else if src <= k < src + n then Raw
                   else old(data[k])
    {
      forall k | 0 <= k < data.Length {
        data[k] := if dst <= k < dst + n then data[src + (k - dst)]
                   else if src <= k < src + n then Raw
                   else data[k];
      }
    }

    /** New memory of `cp` cells with the items moved into it; never fewer cells than items. */
    method SetCapacity(cp: nat)
      requires Valid()
      modifies this`data
      ensures Valid() && Contents() == old(Contents())
      ensures data.Length == if cp < size then size else cp
      ensures data == old(data) || fresh(data)
    {
      var cp := if cp < size then size else cp;
      if data.Length == cp {
        return;
      }
      var fresh' := new Cell<T>[cp](_ => Raw);
      forall k | 0 <= k < size {
        fresh'[k] := data[k];
      }
      data := fresh';
    }

    /** Room for `n` more items, or failure when the vector would exceed its maximal size. */
    method BeforeIncrease(n: nat) returns (ok: bool)
      requires Valid()
      modifies this`data
      ensures Valid() && Contents() == old(Contents())
      ensures data == old(data) || fresh(data)
      ensures ok == (size + n <= maxSize)
      ensures ok ==> data.Length - size >= n
      ensures !ok || old(data.Length) - size >= n ==> data == old(data)
    {
      if size + n > maxSize {
        return false;
      }
      if data.Length - size < n {
        SetCapacity(CalcCapacity(size + n));
      }
      return true;
    }

    /** More than four pages of slack shrink to one. */
    method AfterDecrease()
      requires Valid()
      modifies this`data
      ensures Valid() && Contents() == old(Contents())
      ensures data == old(data) || fresh(data)
      ensures data.Length - size <= 4 * PAGE
    {
      if data.Length - size > 4 * PAGE {
        SetCapacity(size + PAGE);
      }
    }

    // ---- operations ----

    method PushBack(x: T) returns (ok: bool)
      requires Valid()
      modifies this, data
      ensures Valid() && (data == old(data) || fresh(data))
      ensures ok == (old(size) < maxSize)
      ensures Contents() == if ok then old(Contents()) + [x] else old(Contents())
      ensures old(size) < old(data.Length) ==> data == old(data)
    {
      ok := BeforeIncrease(1);
      if ok {
        ghost var was := Contents();
        Construct(size, x);
        size := size + 1;
        assert Contents() == was + [x];
      }
    }

    method PopBack()
      requires Valid()
      modifies this, data
      ensures Valid() && (data == old(data) || fresh(data))
      ensures Contents() == if old(size) == 0 then [] else old(Contents())[..old(size) - 1]
      ensures old(size) > 0 ==> data.Length - size <= 4 * PAGE
    {
      if size > 0 {
        size := size - 1;
        DestroyAt(size);
        assert Contents() == old(Contents())[..size];
        AfterDecrease();
      }
    }

    method Clear()
      requires Valid()
      modifies this, data
      ensures Valid() && (data == old(data) || fresh(data))
      ensures Contents() == []
      ensures old(size) > 0 ==> data.Length <= 4 * PAGE
    {
      if size > 0 {
        var n := size;
        DestroyRange(0, n);
        size := 0;
        AfterDecrease();
      }
    }

    /** Moves the items from `i` on up by one. */
    method ShiftUp(i: nat)
      requires Valid() && i <= size < data.Length
      modifies data
      ensures data[i] == Raw
      ensures forall k :: 0 <= k < i || size < k < data.Length ==> data[k] == old(data[k])
      ensures forall k :: i < k <= size ==> data[k] == old(data[k - 1])
    {
      if i < size {
        Move(i + 1, i, size - i);
      }
    }

    /** The memory part of an insertion: the tail moves up by one, and the gap is filled. */
    method OpenGap(i: nat, x: T)
      requires Valid() && i <= size < data.Length
      modifies this`size, data
      ensures Valid() && size == old(size) + 1
      ensures Contents() == old(Contents())[..i] + [x] + old(Contents())[i..]
    {
      ghost var now := Contents()[..i] + [x] + Contents()[i..];
      ShiftUp(i);
      Construct(i, x);
      size := size + 1;
      forall k | 0 <= k < size
        ensures data[k] == Obj(now[k])
      {
        assert data[k] == if k < i then old(data[k]) else if k == i then Obj(x) else old(data[k - 1]);
      }
      ContentsAre(now);
    }

    /** Inserts before position `i`; a position behind the end is refused. */
    method Insert(i: nat, x: T) returns (ok: bool)
      requires Valid()
      modifies this, data
      ensures Valid() && (data == old(data) || fresh(data))
      ensures ok == (i <= old(size) && old(size) < maxSize)
      ensures Contents() == if ok then old(Contents())[..i] + [x] + old(Contents())[i..] else old(Contents())
    {
      if i > size {
        return false;
      }
      ok := BeforeIncrease(1);
      if ok {
        OpenGap(i, x);
      }
    }

    /** Destroys the items from `i` to `j` and moves what follows, up to `n`, into their place. */
    method ShiftDown(i: nat, j: nat, n: nat)
      requires i < j <= n <= data.Length
      requires forall k :: i <= k < j ==> data[k].Obj?
      modifies data
      ensures forall k :: 0 <= k < i || n <= k < data.Length ==> data[k] == old(data[k])
      ensures forall k :: j <= k < n ==> data[k - (j - i)] == old(data[k])
      ensures forall k :: n - (j - i) <= k < n ==> data[k] == Raw
    {
      DestroyRange(i, j);
      if j < n {
        Move(i, j, n - j);
      }
    }

    /** The memory part of an erasure. */
    method CloseGap(i: nat, j: nat)
      requires Valid() && i < j <= size
      modifies this`size, data
      ensures Valid()
      ensures Contents() == old(Contents())[..i] + old(Contents())[j..]
    {
      ghost var now, gap := Contents()[..i] + Contents()[j..], j - i;
      var n := size;
      size := size - (j - i);
      ShiftDown(i, j, n);
      forall k | 0 <= k < size
        ensures data[k] == Obj(now[k])
      {
        if k >= i {
          assert data[(k + gap) - (j - i)] == old(data[k + gap]);
        }
      }
      ContentsAre(now);
    }

    /** Erases positions `i` up to `j`; positions out of range or out of order are refused. */
    method EraseRange(i: nat, j: nat) returns (ok: bool)
      requires Valid()
      modifies this, data
      ensures Valid() && (data == old(data) || fresh(data))
      ensures ok == (i <= j <= old(size))
      ensures Contents() == if ok then old(Contents())[..i] + old(Contents())[j..] else old(Contents())
      ensures ok && i < j ==> data.Length - size <= 4 * PAGE
    {
      if i > size || j > size || j < i {
        return false;
      }
      if j > i {
        CloseGap(i, j);
        AfterDecrease();
      }
      return true;
    }

    /** Erases one item; the end position is left alone, and one behind it is refused. */
    method Erase(i: nat) returns (ok: bool)
      requires Valid()
      modifies this, data
      ensures Valid() && (data == old(data) || fresh(data))
      ensures ok == (i <= old(size))
      ensures Contents() == if i < old(size) then old(Contents())[..i] + old(Contents())[i + 1..] else old(Contents())
      ensures i < old(size) ==> data.Length - size <= 4 * PAGE
    {
      if i >= size {
        return i == size;
      }
      ok := EraseRange(i, i + 1);
    }

    /** Fills the raw memory behind the items with `n - size` copies of `x`. */
    method Fill(n: nat, x: T)
      requires Valid() && size <= n <= data.Length
      modifies this`size, data
      ensures Valid() && size == n
      ensures Contents() == old(Contents()) + seq(n - old(size), _ => x)
    {
      ghost var was := Contents();
      for i := size to n
        invariant size == old(size)
        invariant forall k :: 0 <= k < data.Length ==> data[k] == if size <= k < i then Obj(x) else old(data[k])
      {
        Construct(i, x);
      }
      size := n;
      assert Contents() == was + seq(n - old(size), _ => x);
    }

    /** Cuts the vector, or fills it up with copies of `x`; cutting does not give memory back. */
    method Resize(n: nat, x: T) returns (ok: bool)
      requires Valid()
      modifies this, data
      ensures Valid() && (data == old(data) || fresh(data))
      ensures ok == (n <= maxSize || n == old(size))
      ensures Contents() == if !ok then old(Contents())
                            else if n <= old(size) then old(Contents())[..n]
                            else old(Contents()) + seq(n - old(size), _ => x)
      ensures ok && n < old(size) ==> data == old(data)
    {
      if n == size {
        return true;
      }
      if n > maxSize {
        return false;
      }
      if n > size {
        var cp := CalcCapacity(n);
        if cp > data.Length {
          SetCapacity(cp);
        }
        Fill(n, x);
      } else {
        DestroyRange(n, size);
        size := n;
        assert Contents() == old(Contents())[..n];
      }
      return true;
    }

    /** The items of `src`, one by one, in new memory of the same capacity. */
    method Copied(src: Vector<T>) returns (tmp: Vector<T>, ok: bool)
      requires src.Valid()
      ensures fresh(tmp) && fresh(tmp.data) && tmp.Valid() && tmp.maxSize == maxSize
      ensures ok == (src.size <= maxSize)
      ensures ok ==> tmp.Contents() == src.Contents() && tmp.data.Length == src.data.Length
    {
      tmp := new Vector<T>(maxSize);
      tmp.SetCapacity(src.data.Length);
      for i := 0 to src.size
        invariant tmp.Valid() && fresh(tmp.data)
        invariant tmp.Contents() == src.Contents()[..i]
        invariant tmp.data.Length == src.data.Length
        invariant i <= maxSize
      {
        var done := tmp.PushBack(src.data[i].value);
        if !done {
          return tmp, false;
        }
      }
      ok := true;
    }

    method Swap(other: Vector<T>)
      modifies this`data, this`size, other`data, other`size
      ensures data == old(other.data) && size == old(other.size)
      ensures other.data == old(data) && other.size == old(size)
    {
      if other != this {
        var mine, n := data, size;
        data, size := other.data, other.size;
        other.data, other.size := mine, n;
      }
    }

    /** Copies `src` and takes the copy over; assigning a vector to itself does nothing. */
    method Assign(src: Vector<T>) returns (ok: bool)
      requires Valid() && src.Valid() && (src == this || src.data != data)
      modifies this`data, this`size
      ensures Valid() && src.Valid() && src.Contents() == old(src.Contents())
      ensures ok == (src == this || src.size <= maxSize)
      ensures Contents() == if ok then src.Contents() else old(Contents())
      ensures ok && src != this ==> fresh(data) && data.Length == src.data.Length
      ensures src == this || !ok ==> unchanged(this)
    {
      ok := true;
      if src != this {
        var tmp: Vector<T>;
        tmp, ok := Copied(src);
        if ok {
          Swap(tmp);
        }
      }
    }
  }
}

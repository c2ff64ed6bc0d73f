/** The generic growable array of `array.h`: a heap block `ptr` of `maxsize`
    slots of which the first `size` are in use.  Positions passed to `at`,
    `add`, `del`, `del_nomove` and `swap` may be negative, counting from the
    end. */
module DynArray {

  import opened Common

  const ARRAY_INIT_SIZE: nat := 16

  /** The capacity a resize to `requested` slots ends with: a request for 0
      slots becomes ARRAY_INIT_SIZE. */
  function ResizedCapacity(requested: nat): (c: nat)
    ensures c > 0
    ensures requested != 0 ==> c == requested
    ensures requested == 0 ==> c == ARRAY_INIT_SIZE
  {
    if requested == 0 then ARRAY_INIT_SIZE else requested
  }

  /** The capacity after `double_resize` of a block of `maxsize` slots. */
  function GrownCapacity(maxsize: nat): (c: nat)
    ensures c > maxsize
    ensures maxsize > 0 ==> c == 2 * maxsize
  {
    ResizedCapacity(2 * maxsize)
  }

  /** A position as the accessors read it: a negative one counts from the end. */
  function Resolve(pos: int, size: nat): int
  {
    if pos < 0 then pos + size else pos
  }

  /** `s` with `x` inserted before position `p`. */
  function Inserted<T>(s: seq<T>, p: nat, x: T): (r: seq<T>)
    requires p <= |s|
    ensures |r| == |s| + 1
    ensures r[p] == x
    ensures forall i :: 0 <= i < p ==> r[i] == s[i]
    ensures forall i :: p < i < |r| ==> r[i] == s[i - 1]
  {
    s[..p] + [x] + s[p..]
  }

  /** A sequence that agrees with `Inserted` everywhere is `Inserted`. */
  lemma InsertedPointwise<T>(s: seq<T>, r: seq<T>, p: nat, x: T)
    requires p <= |s| && |r| == |s| + 1 && r[p] == x
    requires forall i :: 0 <= i < p ==> r[i] == s[i]
    requires forall i :: p < i < |r| ==> r[i] == s[i - 1]
    ensures r == Inserted(s, p, x)
  {
  }

  /** `s` without the element at position `p`, the rest in order. */
  function Removed<T>(s: seq<T>, p: nat): (r: seq<T>)
    requires p < |s|
    ensures |r| == |s| - 1
    ensures forall i :: 0 <= i < p ==> r[i] == s[i]
    ensures forall i :: p <= i < |r| ==> r[i] == s[i + 1]
  {
    s[..p] + s[p + 1..]
  }

  /** `s` with the element at `p` overwritten by the last one, then the last
      slot dropped: what `del_nomove` leaves. */
  function SwapRemoved<T>(s: seq<T>, p: nat): (r: seq<T>)
    requires p < |s|
    ensures |r| == |s| - 1
    ensures p < |r| ==> r[p] == s[|s| - 1]
    ensures forall i :: 0 <= i < |r| && i != p ==> r[i] == s[i]
  {
    if p == |s| - 1 then s[..p] else s[..p] + [s[|s| - 1]] + s[p + 1..|s| - 1]
  }

  /** `s` with the elements at `i` and `j` exchanged. */
  function Swapped<T>(s: seq<T>, i: nat, j: nat): (r: seq<T>)
    requires i < |s| && j < |s|
    ensures |r| == |s|
    ensures r[i] == s[j] && r[j] == s[i]
    ensures forall k :: 0 <= k < |s| && k != i && k != j ==> r[k] == s[k]
  {
    s[i := s[j]][j := s[i]]
  }

  /** Deleting what was just inserted gives back the original sequence. */
  lemma InsertThenDelete<T>(s: seq<T>, p: nat, x: T)
    requires p <= |s|
    ensures Removed(Inserted(s, p, x), p) == s
  {
    var r := Removed(Inserted(s, p, x), p);
    assert |r| == |s|;
    forall i | 0 <= i < |s| ensures r[i] == s[i] {
      if i < p {
        assert r[i] == Inserted(s, p, x)[i];
      } else {
        assert r[i] == Inserted(s, p, x)[i + 1];
      }
    }
  }

  /** `del` keeps the relative order of the survivors: any two of them that
      stood at i < j still stand in that order. */
  lemma RemovedKeepsOrder<T>(s: seq<T>, p: nat, i: nat, j: nat)
    requires p < |s| && i < j < |s| - 1
    ensures exists a, b :: 0 <= a < b < |s| && a != p && b != p
                           && Removed(s, p)[i] == s[a] && Removed(s, p)[j] == s[b]
  {
    var a := if i < p then i else i + 1;
    var b := if j < p then j else j + 1;
    assert Removed(s, p)[i] == s[a] && Removed(s, p)[j] == s[b];
  }

  /** `del_nomove` loses exactly the deleted element: the remaining multiset
      is the original one minus that element. */
  lemma SwapRemovedMultiset<T>(s: seq<T>, p: nat)
    requires p < |s|
    ensures multiset(SwapRemoved(s, p)) + multiset{s[p]} == multiset(s)
  {
    var last := |s| - 1;
    if p == last {
      assert s == s[..last] + [s[last]];
    } else {
      var a, b := s[..p], s[p + 1..last];
      assert multiset(s) == multiset(a) + multiset{s[p]} + multiset(b) + multiset{s[last]} by {
        assert s == a + [s[p]] + b + [s[last]];
      }
      assert multiset(SwapRemoved(s, p)) == multiset(a) + multiset{s[last]} + multiset(b) by {
        assert SwapRemoved(s, p) == a + [s[last]] + b;
      }
    }
  }

  class Vec<T(0)> {
    var ptr: array<T>
    var size: nat
    var maxsize: nat

    ghost predicate Valid()
      reads this
    {
      size <= maxsize && ptr.Length == maxsize
    }

    /** The elements in use, in order. */
    ghost function Contents(): seq<T>
      reads this, ptr
      requires Valid()
    {
      ptr[..size]
    }

    /** `_init`: an empty array with room for `maxsize` elements. */
    constructor Init(maxsize: nat)
      ensures Valid() && fresh(ptr)
      ensures Contents() == [] && this.maxsize == maxsize
    {
      size := 0;
      this.maxsize := maxsize;
      ptr := new T[maxsize];
    }

    /** `_clear`: no element in use any more, the block is kept. */
    method Clear()
      requires Valid()
      modifies this
      ensures Valid() && Contents() == []
      ensures ptr == old(ptr) && maxsize == old(maxsize)
    {
      size := 0;
    }

    /** `_resize`: reallocate to the capacity `ResizedCapacity(requested)`,
        keeping the elements in use. */
    method Resize(requested: nat)
      requires Valid()
      requires size <= ResizedCapacity(requested)
      modifies this
      ensures Valid() && fresh(ptr)
      ensures maxsize == ResizedCapacity(requested) && size == old(size)
      ensures Contents() == old(Contents())
    {
      var newMax := if requested == 0 then ARRAY_INIT_SIZE else requested;
      var block := new T[newMax];
      var keep := if maxsize < newMax then maxsize else newMax;
      var i := 0;
      while i < keep
        invariant 0 <= i <= keep
        invariant ptr == old(ptr) && size == old(size) && maxsize == old(maxsize)
        invariant forall k :: 0 <= k < i ==> block[k] == ptr[k]
      {
        block[i] := ptr[i];
        i := i + 1;
      }
      assert block[..size] == ptr[..size];
      ptr := block;
      maxsize := newMax;
    }

    /** `_double_resize`. */
    method DoubleResize()
      requires Valid()
      modifies this
      ensures Valid() && fresh(ptr)
      ensures maxsize == GrownCapacity(old(maxsize)) && size == old(size)
      ensures Contents() == old(Contents())
    {
      Resize(maxsize * 2);
    }

    /** `_push_back`: append `x`, doubling the block first when it is full. */
    method PushBack(x: T)
      requires Valid()
      modifies this, ptr
      ensures Valid()
      ensures Contents() == old(Contents()) + [x]
      ensures maxsize == if old(size) == old(maxsize) then GrownCapacity(old(maxsize)) else old(maxsize)
    {
      if size == maxsize {
        DoubleResize();
      }
      ptr[size] := x;
      size := size + 1;
    }

    /** `_pop_back`: drop the last element. */
    method PopBack()
      requires Valid() && size > 0
      modifies this
      ensures Valid() && ptr == old(ptr) && maxsize == old(maxsize)
      ensures Contents() == old(Contents())[..old(size) - 1]
    {
      size := size - 1;
    }

    /** `_at`: the element at `pos`, a negative `pos` counting from the end. */
    function At(pos: int): (r: T)
      reads this, ptr
      requires Valid()
      requires -(size as int) <= pos < size
      ensures 0 <= Resolve(pos, size) < size
      ensures r == Contents()[Resolve(pos, size)]
      ensures pos < 0 ==> r == Contents()[size + pos]
    {
      ptr[Resolve(pos, size)]
    }

    /** `_front`: None exactly when the array is empty. */
    function Front(): (r: Option<T>)
      reads this, ptr
      requires Valid()
      ensures r.None? <==> Contents() == []
      ensures r.Some? ==> r.value == Contents()[0]
    {
      if size == 0 then None else Some(ptr[0])
    }

    /** `_back`: None exactly when the array is empty. */
    function Back(): (r: Option<T>)
      reads this, ptr
      requires Valid()
      ensures r.None? <==> Contents() == []
      ensures r.Some? ==> r.value == Contents()[|Contents()| - 1]
    {
      if size == 0 then None else Some(ptr[size - 1])
    }

    /** `_add`: insert `x` before position `pos`, shifting the tail right. */
    method Add(x: T, pos: int)
      requires Valid()
      requires -(size as int) <= pos <= size
      modifies this, ptr
      ensures Valid()
      ensures 0 <= Resolve(pos, old(size)) <= old(size)
      ensures Contents() == Inserted(old(Contents()), Resolve(pos, old(size)), x)
      ensures maxsize == if old(size) == old(maxsize) then GrownCapacity(old(maxsize)) else old(maxsize)
    {
      var p := Resolve(pos, size);
      ghost var before := Contents();
      if size == maxsize {
        DoubleResize();
      }
      OpenGap(p);
      ptr[p] := x;
      size := size + 1;
      InsertedPointwise(before, Contents(), p, x);
    }

    /** The shifting loop of `_add`: move `[p, size)` one slot right. */
    method OpenGap(p: nat)
      requires Valid() && size < maxsize && p <= size
      modifies ptr
      ensures forall i :: 0 <= i < p ==> ptr[i] == old(ptr[i])
      ensures forall i :: p < i <= size ==> ptr[i] == old(ptr[i - 1])
    {
      var k := size;
      while k > p
        invariant p <= k <= size
        invariant forall i :: 0 <= i < k ==> ptr[i] == old(ptr[i])
        invariant forall i :: k < i <= size ==> ptr[i] == old(ptr[i - 1])
      {
        ptr[k] := ptr[k - 1];
        k := k - 1;
      }
    }

    /** `_del`: remove the element at `pos`, shifting the tail left. */
    method Del(pos: int)
      requires Valid()
      requires -(size as int) <= pos < size
      modifies this, ptr
      ensures Valid() && ptr == old(ptr) && maxsize == old(maxsize)
      ensures 0 <= Resolve(pos, old(size)) < old(size)
      ensures Contents() == Removed(old(Contents()), Resolve(pos, old(size)))
    {
      var p := Resolve(pos, size);
      ghost var before := Contents();
      size := size - 1;
      var k := p;
      while k < size
        invariant p <= k <= size
        invariant ptr == old(ptr) && size + 1 == |before| && maxsize == old(maxsize)
        invariant forall i :: 0 <= i < p ==> ptr[i] == before[i]
        invariant forall i :: p <= i < k ==> ptr[i] == before[i + 1]
        invariant forall i :: k < i <= size ==> ptr[i] == before[i]
      {
        ptr[k] := ptr[k + 1];
        k := k + 1;
      }
      assert Contents() == Removed(before, p);
    }

    /** `_del_nomove`: remove the element at `pos` by moving the last element
        into its slot. */
    method DelNoMove(pos: int)
      requires Valid()
      requires -(size as int) <= pos < size
      modifies this, ptr
      ensures Valid() && ptr == old(ptr) && maxsize == old(maxsize)
      ensures 0 <= Resolve(pos, old(size)) < old(size)
      ensures Contents() == SwapRemoved(old(Contents()), Resolve(pos, old(size)))
    {
      var p := Resolve(pos, size);
      ghost var before := Contents();
      size := size - 1;
      if p < size {
        ptr[p] := ptr[size];
      }
      assert Contents() == SwapRemoved(before, p);
    }

    /** `_swap`: exchange two slots of the block.  The source checks no bound,
        so any two slots of the block may be named; when both are in use, the
        contents are swapped. */
    method Swap(pos1: int, pos2: int)
      requires Valid()
      requires 0 <= Resolve(pos1, size) < maxsize && 0 <= Resolve(pos2, size) < maxsize
      modifies ptr
      ensures Valid()
      ensures ptr[..] == Swapped(old(ptr[..]), Resolve(pos1, size), Resolve(pos2, size))
      ensures Resolve(pos1, size) < size && Resolve(pos2, size) < size ==>
                Contents() == Swapped(old(Contents()), Resolve(pos1, size), Resolve(pos2, size))
    {
      var p1 := Resolve(pos1, size);
      var p2 := Resolve(pos2, size);
      var tmp := ptr[p1];
      ptr[p1] := ptr[p2];
      ptr[p2] := tmp;
    }
  }
}

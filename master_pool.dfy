/** The master pool of `master_pool.h`: a capacity-bounded stack
    `available[0 .. len)` of reusable items shared by the workers.  `pop`
    hands out items from the top of the stack and creates the rest through
    the create callback; `reuse` stores items on top while there is room and
    destroys the rest through the destroy callback.

    The mutex and the atomic length of the source collapse to plain fields
    (one thread at a time).  Items are identified by numbers; the create
    callback hands out `nextItem`, `nextItem + 1`, ... and the destroy callback
    appends to the `destroyed` log. */
module MasterPool {

  import opened Common

  type Item = nat

  /** The items `pop(count)` takes from the stack `avail`: the top
      `Min(|avail|, count)` of them, bottom first. */
  function Taken(avail: seq<Item>, count: nat): (r: seq<Item>)
    ensures |r| == Min(|avail|, count)
    ensures r == avail[|avail| - |r|..]
  {
    avail[|avail| - Min(|avail|, count)..]
  }

  /** The stack `pop(count)` leaves behind. */
  function Kept(avail: seq<Item>, count: nat): (r: seq<Item>)
    ensures |r| == |avail| - Min(|avail|, count)
    ensures r + Taken(avail, count) == avail
  {
    avail[..|avail| - Min(|avail|, count)]
  }

  /** `n` items made by consecutive create calls starting at `first`. */
  function Created(first: Item, n: nat): (r: seq<Item>)
    ensures |r| == n
    ensures forall i :: 0 <= i < n ==> r[i] == first + i
  {
    seq(n, i => first + i)
  }

  /** The items `reuse` stores, given a stack of height `len` and capacity `cap`. */
  function Stored(len: nat, cap: nat, items: seq<Item>): (r: seq<Item>)
    requires len <= cap
    ensures |r| == Min(cap - len, |items|)
    ensures r == items[..|r|]
  {
    items[..Min(cap - len, |items|)]
  }

  /** The items `reuse` passes to the destroy callback. */
  function Dropped(len: nat, cap: nat, items: seq<Item>): (r: seq<Item>)
    requires len <= cap
    ensures Stored(len, cap, items) + r == items
    ensures |r| == |items| - Min(cap - len, |items|)
  {
    items[Min(cap - len, |items|)..]
  }

  /** Conservation of `reuse`: every passed item is stored or destroyed, and
      none is both (as multisets: stored + destroyed == passed). */
  lemma ReuseConserves(len: nat, cap: nat, items: seq<Item>)
    requires len <= cap
    ensures multiset(Stored(len, cap, items)) + multiset(Dropped(len, cap, items)) == multiset(items)
    ensures |Stored(len, cap, items)| + |Dropped(len, cap, items)| == |items|
  {
    assert Stored(len, cap, items) + Dropped(len, cap, items) == items;
  }

  /** Conservation of `pop`: the taken items and the stack left behind are
      exactly the old stack. */
  lemma PopConserves(avail: seq<Item>, count: nat)
    ensures multiset(Kept(avail, count)) + multiset(Taken(avail, count)) == multiset(avail)
  {
    assert Kept(avail, count) + Taken(avail, count) == avail;
  }

  /** Round trip: `reuse` of k items into a pool with room for all of them,
      then `pop` of k, returns the same items in the same order and leaves
      the stack as it was. */
  lemma ReuseThenPop(avail: seq<Item>, cap: nat, items: seq<Item>)
    requires |avail| + |items| <= cap
    ensures Taken(avail + Stored(|avail|, cap, items), |items|) == items
    ensures Kept(avail + Stored(|avail|, cap, items), |items|) == avail
  {
    var stored := Stored(|avail|, cap, items);
    assert stored == items;
    var s := avail + stored;
    assert Min(|s|, |items|) == |items|;
    assert s[|s| - |items|..] == items;
    assert s[..|s| - |items|] == avail;
  }

  class Pool {
    var available: array<Item>
    var len: nat
    /** The create callback's next fresh item. */
    var nextItem: Item
    /** Every item passed to the destroy callback, in call order. */
    var destroyed: seq<Item>

    ghost predicate Valid()
      reads this
    {
      len <= available.Length
    }

    function Cap(): nat
      reads this
    {
      available.Length
    }

    /** The stored items, bottom of the stack first. */
    ghost function Contents(): seq<Item>
      reads this, available
      requires Valid()
    {
      available[..len]
    }

    constructor (cap: nat, firstItem: Item)
      ensures Valid() && fresh(available)
      ensures Cap() == cap && Contents() == [] && nextItem == firstItem && destroyed == []
    {
      available := new Item[cap];
      len := 0;
      nextItem := firstItem;
      destroyed := [];
    }

    /** The create callback. */
    method CreateItem() returns (item: Item)
      modifies this
      ensures item == old(nextItem) && nextItem == old(nextItem) + 1
      ensures available == old(available) && len == old(len) && destroyed == old(destroyed)
    {
      item := nextItem;
      nextItem := nextItem + 1;
    }

    /** The destroy callback. */
    method DestroyItem(item: Item)
      modifies this
      ensures destroyed == old(destroyed) + [item]
      ensures available == old(available) && len == old(len) && nextItem == old(nextItem)
    {
      destroyed := destroyed + [item];
    }

    /** The create loop of `pop`: fill `iptr[from .. count)` with freshly
        created items, leaving the other slots alone. */
    method CreateInto(iptr: array<Item>, from: nat, count: nat)
      requires iptr != available && from <= count <= iptr.Length
      modifies this, iptr
      ensures available == old(available) && len == old(len) && destroyed == old(destroyed)
      ensures nextItem == old(nextItem) + (count - from)
      ensures iptr[..from] == old(iptr[..from])
      ensures iptr[from..count] == Created(old(nextItem), count - from)
      ensures iptr[count..] == old(iptr[count..])
    {
      var i := from;
      while i < count
        invariant from <= i <= count
        invariant available == old(available) && len == old(len) && destroyed == old(destroyed)
        invariant nextItem == old(nextItem) + (i - from)
        invariant iptr[..from] == old(iptr[..from])
        invariant iptr[from..i] == Created(old(nextItem), i - from)
        invariant iptr[count..] == old(iptr[count..])
      {
        var item := CreateItem();
        iptr[i] := item;
        i := i + 1;
      }
    }

    /** The copy loop of `pop`: `iptr[0 .. n)` receives the stored items
        `available[pbase .. pbase + n)`. */
    method TakeInto(iptr: array<Item>, pbase: nat, n: nat)
      requires iptr != available && pbase + n <= available.Length && n <= iptr.Length
      modifies iptr
      ensures iptr[..n] == available[pbase..pbase + n]
      ensures iptr[n..] == old(iptr[n..])
    {
      var i := 0;
      while i < n
        invariant 0 <= i <= n
        invariant iptr[..i] == available[pbase..pbase + i]
        invariant iptr[n..] == old(iptr[n..])
      {
        iptr[i] := available[pbase + i];
        i := i + 1;
      }
    }

    /** `popMasterPoolItems`: fill `iptr[0 .. count)` with the top
        `Min(len, count)` stored items (bottom first) followed by freshly
        created ones.  The pool shrinks by the number taken; nothing is
        destroyed. */
    method PopItems(iptr: array<Item>, count: nat)
      requires Valid() && iptr != available && count <= iptr.Length
      modifies this, iptr
      ensures Valid() && available == old(available) && destroyed == old(destroyed)
      ensures Contents() == Kept(old(Contents()), count)
      ensures nextItem == old(nextItem) + (count - Min(old(len), count))
      ensures iptr[..count] == Taken(old(Contents()), count)
                               + Created(old(nextItem), count - Min(old(len), count))
      ensures iptr[count..] == old(iptr[count..])
    {
      if len > 0 {
        var consumed := PopStack(iptr, count);
        if consumed > 0 {
          CreateInto(iptr, consumed, count);
          assert iptr[..count] == iptr[..consumed] + iptr[consumed..count];
        }
        return;
      }
      CreateInto(iptr, 0, count);
    }

    /** The locked part of `pop`: take the top `min(len, count)` items
        into the front of `iptr`, bottom first. */
    method PopStack(iptr: array<Item>, count: nat) returns (consumed: nat)
      requires Valid() && iptr != available && count <= iptr.Length && len > 0
      modifies this, iptr
      ensures Valid() && available == old(available) && destroyed == old(destroyed) && nextItem == old(nextItem)
      ensures consumed == Min(old(len), count)
      ensures Contents() == Kept(old(Contents()), count)
      ensures iptr[..consumed] == Taken(old(Contents()), count)
      ensures iptr[consumed..] == old(iptr[consumed..])
    {
      ghost var avail := Contents();
      var tmpLen := len;
      consumed := if tmpLen <= count then tmpLen else count;
      if consumed > 0 {
        len := tmpLen - consumed;
        var pbase := tmpLen - consumed;
        TakeInto(iptr, pbase, consumed);
        assert iptr[..consumed] == avail[pbase..];
      }
    }

    /** A destroy loop of `reuse`: pass `iptr[from .. to)` to the destroy
        callback in order. */
    method DestroyRange(iptr: array<Item>, from: nat, to: nat)
      requires from <= to <= iptr.Length
      modifies this
      ensures destroyed == old(destroyed) + iptr[from..to]
      ensures available == old(available) && len == old(len) && nextItem == old(nextItem)
    {
      var i := from;
      while i < to
        invariant from <= i <= to
        invariant available == old(available) && len == old(len) && nextItem == old(nextItem)
        invariant destroyed == old(destroyed) + iptr[from..i]
      {
        DestroyItem(iptr[i]);
        assert iptr[from..i + 1] == iptr[from..i] + [iptr[i]];
        i := i + 1;
      }
    }

    /** The store loop of `reuse`: `available[base .. base + n)` receives
        `iptr[0 .. n)`. */
    method StoreFrom(iptr: array<Item>, base: nat, n: nat)
      requires iptr != available && base + n <= available.Length && n <= iptr.Length
      modifies available
      ensures available[..base] == old(available[..base])
      ensures available[base..base + n] == iptr[..n]
    {
      var i := 0;
      while i < n
        invariant 0 <= i <= n
        invariant available[..base] == old(available[..base])
        invariant available[base..base + i] == iptr[..i]
      {
        available[i + base] := iptr[i];
        i := i + 1;
      }
    }

    /** `reuseMasterPoolItems`: store the first `Min(cap - len, count)`
        items of `iptr` on top of the stack and destroy the rest, in order.
        A full pool destroys them all. */
    method ReuseItems(iptr: array<Item>, count: nat)
      requires Valid() && iptr != available && count <= iptr.Length
      modifies this, available
      ensures Valid() && available == old(available) && nextItem == old(nextItem)
      ensures Contents() == old(Contents()) + Stored(old(len), Cap(), iptr[..count])
      ensures destroyed == old(destroyed) + Dropped(old(len), Cap(), iptr[..count])
    {
      ghost var items := iptr[..count];
      if available.Length - len == 0 {
        DestroyRange(iptr, 0, count);
        return;
      }
      var tmpLen := len;
      var consumed := if available.Length - tmpLen <= count then available.Length - tmpLen else count;
      len := tmpLen + consumed;
      if consumed > 0 {
        StoreFrom(iptr, tmpLen, consumed);
        DestroyRange(iptr, consumed, count);
      }
      assert available[..len] == available[..tmpLen] + available[tmpLen..tmpLen + consumed];
    }
  }
}

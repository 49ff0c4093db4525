/** The buddy memory manager: allocation by splitting, release by coalescing. */
module Buddy {
  import opened Bits
  import opened BuddyTheory
  import opened BuddyLists
  import opened Seqs

  const HEADER: nat := 8  // bytes of a block header, which precedes the payload

  /** `size` payload bytes and the header fit a block of order k but not a smaller one. */
  ghost predicate Fits(size: nat, k: nat) {
    && MIN_ORDER <= k <= MAX_ORDER && size + HEADER <= Pow2(k)
    && (k > MIN_ORDER ==> Pow2(k - 1) < size + HEADER)
  }

  /** All bytes of the aligned run are free. */
  ghost predicate FreeRun(h: Heap, run: Block) {
    WellFormed(run, h.limit) && forall x :: Holds(run, x) ==> Covers(h.free, x)
  }

  /** Some aligned run of free bytes is large enough for a request. */
  ghost predicate CanServe(h: Heap, size: nat) {
    exists run: Block :: Fits(size, run.order) && FreeRun(h, run)
  }

  lemma FitsUnique(size: nat, j: nat, k: nat)
    requires Fits(size, j) && Fits(size, k)
    ensures j == k
  {
    if j < k { Pow2Mono(j, k - 1); }
    if k < j { Pow2Mono(k, j - 1); }
  }

  /** A request can be served exactly when some free block is large enough. */
  lemma ServeIffBigFreeBlock(h: Heap, size: nat, k: nat)
    requires HeapInv(h) && Fits(size, k)
    ensures CanServe(h, size) <==> exists b :: b in h.free && b.order >= k
  {
    assert Packed(h.free, h.limit);
    if CanServe(h, size) {
      var run: Block :| Fits(size, run.order) && FreeRun(h, run);
      FitsUnique(size, run.order, k);
      var b := CoveredRun(h.free, h.limit, run);
      if b.order < run.order { SameSize(run, b); }
    }
    if b :| b in h.free && b.order >= k {
      var run := Block(b.off, k);
      AlignedWeaken(b.off, k, b.order);
      Pow2Mono(k, b.order);
      assert b in h.free + h.live;
      forall x | Holds(run, x) ensures Covers(h.free, x) { assert Holds(b, x); }
      assert FreeRun(h, run);
    }
  }

  /** Block b was cut off the front of the free block c, a smallest one that is large enough. */
  ghost predicate ServedFrom(before: Heap, after: Heap, b: Block, c: Block, size: nat) {
    && Fits(size, b.order)
    && c in before.free && c.off == b.off && c.order >= b.order
    && (forall d :: d in before.free && d.order >= b.order ==> d.order >= c.order)
    && after == Carved(before, c, b.order)
    && b !in before.live && after.live == before.live + {b} && after.limit == before.limit
  }

  ghost predicate Allocated(before: Heap, after: Heap, b: Block, size: nat) {
    exists c :: ServedFrom(before, after, b, c, size)
  }

  /** Block c is a smallest free block with room for a request, and its front of order k is allocated. */
  ghost predicate AllocStep(before: Heap, after: Heap, size: nat, c: Block, k: nat) {
    && Fits(size, k) && c in before.free && c.order >= k
    && (forall d :: d in before.free && d.order >= k ==> d.order >= c.order)
    && after == Carved(before, c, k)
  }

  /** One call of the allocator: it changes nothing, cuts a block off a free one, or gives one back. */
  ghost predicate HeapStep(before: Heap, after: Heap) {
    || after == before
    || (exists size, c, k :: AllocStep(before, after, size, c, k))
    || (exists b :: b in before.live && after == GivenBack(before, b))
  }

  lemma AllocatedIsStep(before: Heap, after: Heap, b: Block, size: nat)
    requires Allocated(before, after, b, size)
    ensures HeapStep(before, after)
  {
    var c :| ServedFrom(before, after, b, c, size);
    assert AllocStep(before, after, size, c, b.order);
  }

  lemma AllocatedHolds(before: Heap, after: Heap, b: Block, size: nat)
    requires Allocated(before, after, b, size)
    ensures size + HEADER <= Pow2(b.order)
  {
    var c :| ServedFrom(before, after, b, c, size);
  }

  lemma IdleIsStep(h: Heap)
    ensures HeapStep(h, h)
  {}

  lemma GivenBackIsStep(h: Heap, b: Block)
    requires b in h.live
    ensures HeapStep(h, GivenBack(h, b))
  {}

  lemma TooBig(h: Heap, size: nat)
    requires size + HEADER > Pow2(MAX_ORDER)
    ensures !CanServe(h, size)
  {
    forall k: nat | MIN_ORDER <= k <= MAX_ORDER ensures !Fits(size, k) { Pow2Mono(k, MAX_ORDER); }
  }

  /** No other live block has its header inside a live block. */
  lemma NoOtherHeader(h: Heap, b: Block, x: int)
    requires HeapInv(h) && b in h.live && Holds(b, x)
    ensures forall c :: c in h.live && c != b ==> c.off != x
  {
    forall c | c in h.live && c != b ensures c.off != x {
      assert b in h.free + h.live && c in h.free + h.live;
      assert Holds(c, c.off) && Apart(b, c);
    }
  }

  /** What pushing the second half of a live block does to the lists and the heap. */
  lemma SplitListed(lists: seq<seq<int>>, h: Heap, b: Block)
    requires Represents(lists, h.free) && HeapInv(h) && b in h.live && MIN_ORDER < b.order
    ensures b.order <= MAX_ORDER && b.off >= 0
    ensures var second, idx := b.off + Pow2(b.order - 1), b.order - 1 - MIN_ORDER;
            && Absent(lists, second)
            && HeapInv(Split(h, b))
            && Represents(lists[idx := [second] + lists[idx]], Split(h, b).free)
  {
    BlockWellFormed(h, b);
    var second := b.off + Pow2(b.order - 1);
    assert Holds(b, second);
    hide HeapInv, Represents, Absent, Xor, Aligned;
    AbsentIfLive(lists, h, b, second);
    SplitKeeps(h, b);
    RepresentsPush(lists, h.free, Block(second, b.order - 1));
  }

  /** The largest blocks have a megabyte. */
  lemma LargestBlock()
    ensures Pow2(MAX_ORDER) == 0x10_0000
  {
    assert Pow2(5) == 32;
    assert Pow2(10) == 32 * Pow2(5);
    assert Pow2(15) == 32 * Pow2(10);
    assert Pow2(20) == 32 * Pow2(15);
  }

  /** The least order of a block of at least `size` bytes, or -1 when there is none. */
  method OrderForSize(size: nat) returns (r: int)
    requires size <= 0x8000_0000_0000_0000  // the shift that computes 2^order stays within 64 bits
    ensures r == -1 <==> size > Pow2(MAX_ORDER)
    ensures r == -1 <==> size > 0x10_0000
    ensures r != -1 ==> MIN_ORDER <= r <= MAX_ORDER && size <= Pow2(r)
    ensures r > MIN_ORDER ==> Pow2(r - 1) < size
  {
    LargestBlock();
    hide Pow2;
    var order: nat := MIN_ORDER;
    while Pow2(order) < size
      invariant MIN_ORDER <= order
      invariant order > MIN_ORDER ==> Pow2(order - 1) < size
      decreases size - Pow2(order)
    {
      Pow2Mono(order, order + 1);
      order := order + 1;
    }
    if order > MAX_ORDER {
      Pow2Mono(MAX_ORDER, order - 1);
      return -1;
    }
    Pow2Mono(order, MAX_ORDER);
    r := order;
  }

  class BuddyHeap {
    var heapSize: nat
    const freeLists: array<int>    // head of the list of each order
    var order: map<int, nat>       // header fields, by offset of the block
    var next: map<int, int>
    var prev: map<int, int>
    ghost var lists: seq<seq<int>>
    ghost var h: Heap

    ghost predicate Linked()
      reads this, freeLists
    {
      && freeLists.Length == NUM_ORDERS
      && LinkedLists(lists, freeLists[..], next, prev)
    }

    /** The links represent a heap in which every free buddy pair has been merged. */
    ghost predicate Sound()
      reads this, freeLists
    {
      Linked() && HeapInv(h) && Represents(lists, h.free)
    }

    /** The header of every live block but `except` records its order. */
    ghost predicate Headers(except: set<Block>)
      reads this
    {
      forall b :: b in h.live - except ==> b.off in order && order[b.off] == b.order
    }

    ghost predicate Valid()
      reads this, freeLists
    {
      Sound() && Headers({}) && h.limit == heapSize - heapSize % 32
    }

    method ListPush(k: nat, block: int)
      requires Linked() && MIN_ORDER <= k <= MAX_ORDER && block >= 0 && Absent(lists, block)
      modifies this`next, this`prev, this`lists, freeLists
      ensures Linked()
      ensures lists == old(lists)[k - MIN_ORDER := [block] + old(lists)[k - MIN_ORDER]]
    {
      var idx := k - MIN_ORDER;
      next := next[block := freeLists[idx]];
      prev := prev[block := NULL];
      if freeLists[idx] != NULL {
        prev := prev[freeLists[idx] := block];
      }
      freeLists[idx] := block;

      PushLinked(lists, old(freeLists[..]), old(next), old(prev), idx, block);
      lists := lists[idx := [block] + lists[idx]];
      assert freeLists[..] == old(freeLists[..])[idx := block];
    }

    method ListRemove(k: nat, block: int)
      requires Linked() && MIN_ORDER <= k <= MAX_ORDER && block in lists[k - MIN_ORDER]
      modifies this`next, this`prev, this`lists, freeLists
      ensures Linked() && Absent(lists, block)
      ensures block in next && next[block] == NULL
      ensures var s := old(lists)[k - MIN_ORDER];
              lists == old(lists)[k - MIN_ORDER := Remove(s, block)]
    {
      var idx := k - MIN_ORDER;
      ghost var was, s := lists, lists[idx];
      ghost var j := IndexOf(s, block);
      LinksAt(lists, freeLists[..], next, prev, idx, j);
      if freeLists[idx] != NULL {
        if prev[block] != NULL {
          next := next[prev[block] := next[block]];
        } else {
          freeLists[idx] := next[block];
        }
        if next[block] != NULL {
          prev := prev[next[block] := prev[block]];
        }
      }
      next := next[block := NULL];
      prev := prev[block := NULL];

      assert freeLists[..] == if j == 0 then old(freeLists[..])[idx := At(s, 1)] else old(freeLists[..]);
      assert Unlinked(s, j, old(next), old(prev), next, prev);
      RemoveLinked(was, old(freeLists[..]), old(next), old(prev), idx, j, freeLists[..], next, prev);
      lists := was[idx := Without(s, j)];
    }

    /** Unlink the first block of a non-empty list. */
    method TakeFirst(k: nat) returns (block: int)
      requires Sound() && MIN_ORDER <= k <= MAX_ORDER && freeLists[k - MIN_ORDER] != NULL
      modifies this`next, this`prev, this`lists, this`h, freeLists
      ensures Sound()
      ensures Block(block, k) in old(h).free - old(h).live && h == Take(old(h), Block(block, k))
    {
      hide HeapInv, Represents, LinkedLists, Xor, Aligned;
      block := freeLists[k - MIN_ORDER];
      ghost var b := Block(block, k);
      HeadIsFree(lists, freeLists[..], next, prev, h, k);
      RepresentsRemove(lists, h.free, b);
      TakeKeeps(h, b);
      ListRemove(k, block);
      h := Take(h, b);
    }

    /** Give the second half of a block back to the lists. */
    method SplitOff(block: int, k: nat)
      requires Sound() && MIN_ORDER < k && Block(block, k) in h.live
      modifies this`order, this`next, this`prev, this`lists, this`h, freeLists
      ensures Sound()
      ensures h == Split(old(h), Block(block, k))
      ensures order == old(order)[block + Pow2(k - 1) := k - 1]
    {
      hide HeapInv, Represents, LinkedLists, Absent, Xor, Aligned;
      var second := block + Pow2(k - 1);
      SplitListed(lists, h, Block(block, k));
      order := order[second := k - 1];
      ListPush(k - 1, second);
      h := Split(h, Block(block, k));
    }

    /** Halve a live block until its order is `want`, giving the second halves back. */
    method SplitDown(block: int, found: nat, want: nat)
      requires Sound() && MIN_ORDER <= want <= found && Block(block, found) in h.live && Headers({Block(block, found)})
      modifies this`order, this`next, this`prev, this`lists, this`h, freeLists
      ensures Sound() && h.limit == old(h.limit)
      ensures h == Cut(old(h), Block(block, found), want)
      ensures Block(block, want) in h.live && h.live == old(h.live) - {Block(block, found)} + {Block(block, want)}
      ensures Headers({Block(block, want)})
    {
      hide HeapInv, Represents, LinkedLists, BuddyHeap.Linked, Xor, Aligned;
      ghost var others := h.live - {Block(block, found)};
      NoOtherHeader(h, Block(block, found), block);
      var f := found;
      while f > want
        invariant want <= f <= found
        invariant Sound() && h.limit == old(h.limit)
        invariant Cut(h, Block(block, f), want) == Cut(old(h), Block(block, found), want)
        invariant Block(block, f) in h.live && h.live == others + {Block(block, f)}
        invariant forall c :: c in others ==> c.off != block
        invariant Headers({Block(block, f)})
      {
        NoOtherHeader(h, Block(block, f), block + Pow2(f - 1));
        SplitOff(block, f);
        f := f - 1;
      }
    }

    /** Cut a block of order `want` off the front of the first free block of order `found`. */
    method Carve(size: nat, want: nat, found: nat) returns (r: int)
      requires Valid() && Fits(size, want) && want <= found <= MAX_ORDER && freeLists[found - MIN_ORDER] != NULL
      requires forall b :: b in h.free && b.order >= want ==> b.order >= found
      modifies this`order, this`next, this`prev, this`lists, this`h, freeLists
      ensures Valid() && r >= HEADER && r - HEADER in order
      ensures Allocated(old(h), h, Block(r - HEADER, order[r - HEADER]), size)
    {
      hide HeapInv, Represents, LinkedLists, Xor, Aligned;
      var block := TakeFirst(found);
      ghost var whole, part := Block(block, found), Block(block, want);
      NoOtherHeader(h, whole, block);
      SplitDown(block, found, want);
      order := order[block := want];
      NoOtherHeader(h, part, block);
      BlockWellFormed(h, part);
      r := block + HEADER;
      assert ServedFrom(old(h), h, part, whole, size);
    }

    /** The least order from `want` up that has a free block, or -1. */
    method FindOrder(want: nat) returns (found: int)
      requires Sound() && MIN_ORDER <= want <= MAX_ORDER
      ensures found == -1 <==> forall b :: b in h.free ==> b.order < want
      ensures found != -1 ==> want <= found <= MAX_ORDER && freeLists[found - MIN_ORDER] != NULL
      ensures found != -1 ==> forall b :: b in h.free && b.order >= want ==> b.order >= found
    {
      assert forall b :: b in h.free ==> b.order <= MAX_ORDER;
      hide HeapInv, Represents, LinkedLists, Xor, Aligned;
      found := -1;
      var i := want;
      while i <= MAX_ORDER && found == -1
        invariant want <= i <= MAX_ORDER + 1
        invariant forall b :: b in h.free && b.order >= want ==> b.order >= if found == -1 then i else found
        invariant found != -1 ==> want <= found <= MAX_ORDER && freeLists[found - MIN_ORDER] != NULL
        decreases MAX_ORDER + 1 - i
      {
        if freeLists[i - MIN_ORDER] != NULL {
          found := i;
        } else {
          NoHeadNoFree(lists, freeLists[..], next, prev, h, i);
        }
        i := i + 1;
      }
      if found != -1 {
        HeadIsFree(lists, freeLists[..], next, prev, h, found);
      }
    }

    /** Returns the offset of `size` fresh payload bytes, or NULL. */
    method Alloc(size: nat) returns (r: int)
      requires Valid() && size + HEADER <= 0x8000_0000_0000_0000
      modifies this`order, this`next, this`prev, this`lists, this`h, freeLists
      ensures Valid()
      ensures r == NULL <==> size == 0 || !CanServe(old(h), size)
      ensures HeapStep(old(h), h)
      ensures r == NULL ==> h == old(h)
      ensures r != NULL ==> r >= HEADER && r - HEADER in order
      ensures r != NULL ==> Allocated(old(h), h, Block(r - HEADER, order[r - HEADER]), size)
      ensures r != NULL ==> r - 8 in order && size + 8 <= Pow2(order[r - 8])
    {
      hide HeapInv, Represents, LinkedLists, CanServe, Xor, Aligned, HeapStep, Allocated;
      IdleIsStep(h);
      if size == 0 {
        return NULL;
      }
      var want := OrderForSize(size + HEADER);
      if want == -1 {
        TooBig(h, size);
        return NULL;
      }
      ServeIffBigFreeBlock(h, size, want);
      var found := FindOrder(want);
      if found == -1 {
        return NULL;
      }
      r := Carve(size, want, found);
      AllocatedIsStep(old(h), h, Block(r - HEADER, order[r - HEADER]), size);
      AllocatedHolds(old(h), h, Block(r - HEADER, order[r - HEADER]), size);
    }

    /** Walk the list of order k in search of a block. */
    method Listed(k: nat, block: int) returns (found: bool)
      requires Sound() && MIN_ORDER <= k <= MAX_ORDER
      ensures found == (Block(block, k) in h.free) == (block in lists[k - MIN_ORDER])
      ensures Distinct(lists)
    {
      ghost var s, p := lists[k - MIN_ORDER], 0;
      RepresentsRemoveIf(lists, h.free, Block(block, k));
      assert Chain(s, freeLists[k - MIN_ORDER], next, prev);
      hide HeapInv, Represents, LinkedLists, Xor, Aligned, Distinct, Chain;
      found := false;
      var current := freeLists[k - MIN_ORDER];
      ChainHead(s, current, next, prev);
      while current != NULL && !found
        invariant p <= |s|
        invariant if found then block in s else current == At(s, p) && block !in s[..p]
        decreases |s| - p
      {
        ChainStep(s, freeLists[k - MIN_ORDER], next, prev, p);
        found := current == block;
        current := next[current];
        p := p + 1;
      }
    }

    /** Merge with the buddy when that one is free. */
    method MergeOnce(block: nat, k: nat) returns (merged: bool, block': int)
      requires Sound() && MIN_ORDER <= k < MAX_ORDER && Block(block, k) in h.live
      modifies this`next, this`prev, this`lists, this`h, freeLists
      ensures Sound()
      ensures merged == (BuddyOf(Block(block, k)) in old(h).free)
      ensures !merged ==> h == old(h) && block' == block
      ensures merged ==> h == Merge(old(h), Block(block, k)) && Block(block', k + 1) == Parent(Block(block, k))
    {
      hide HeapInv, Represents, LinkedLists, Xor, Aligned;
      block' := block;
      var buddy := Xor(block, Pow2(k));
      merged := Listed(k, buddy);
      RepresentsRemoveIf(lists, h.free, Block(buddy, k));
      if merged {
        ListRemove(k, buddy);
        MergeKeeps(h, Block(block, k));
        h := Merge(h, Block(block, k));
        if buddy < block {
          block' := buddy;
        }
      }
    }

    /** Merge a live block upwards as far as its buddies are free. */
    method MergeUp(block: nat, k: nat) returns (block': nat, k': nat)
      requires Sound() && Block(block, k) in h.live && k <= MAX_ORDER && Headers({Block(block, k)})
      modifies this`next, this`prev, this`lists, this`h, freeLists
      ensures Sound() && h.limit == old(h.limit)
      ensures MIN_ORDER <= k' <= MAX_ORDER && Block(block', k') in h.live
      ensures h.live - {Block(block', k')} == old(h).live - {Block(block, k)} && Headers({Block(block', k')})
      ensures k' < MAX_ORDER ==> BuddyOf(Block(block', k')) !in h.free
      ensures GivenBack(old(h), Block(block, k)) == Release(h, Block(block', k'))
    {
      hide HeapInv, Represents, LinkedLists, BuddyHeap.Linked, Xor, Aligned;
      ghost var others := h.live - {Block(block, k)};
      BlockWellFormed(h, Block(block, k));
      block', k' := block, k;
      var canMerge := true;
      while k' < MAX_ORDER && canMerge
        invariant MIN_ORDER <= k' <= MAX_ORDER
        invariant Sound() && h.limit == old(h.limit)
        invariant Block(block', k') in h.live && h.live - {Block(block', k')} == others
        invariant Headers({Block(block', k')})
        invariant GivenBack(h, Block(block', k')) == GivenBack(old(h), Block(block, k))
        invariant !canMerge ==> BuddyOf(Block(block', k')) !in h.free
        decreases MAX_ORDER - k', canMerge
      {
        ghost var b := Block(block', k');
        if BuddyOf(b) in h.free { MergeKeeps(h, b); }
        var next: int;
        canMerge, next := MergeOnce(block', k');
        if canMerge {
          BlockWellFormed(h, Block(next, k' + 1));
          block', k' := next, k' + 1;
        }
      }
    }

    /** Put a live block whose buddy is not free on the list of its order. */
    method Insert(block: nat, k: nat)
      requires Sound() && MIN_ORDER <= k <= MAX_ORDER && Block(block, k) in h.live && Headers({Block(block, k)})
      requires k < MAX_ORDER ==> BuddyOf(Block(block, k)) !in h.free
      modifies this`order, this`next, this`prev, this`lists, this`h, freeLists
      ensures Sound() && Headers({}) && h == Release(old(h), Block(block, k))
    {
      ghost var b := Block(block, k);
      hide HeapInv, Represents, LinkedLists, Xor, Absent, Aligned;
      NoOtherHeader(h, b, block);
      AbsentIfLive(lists, h, b, block);
      ReleaseKeeps(h, b);
      RepresentsPush(lists, h.free, b);
      order := order[block := k];
      ListPush(k, block);
      h := Release(h, b);
    }

    /** Give a live block back, merging it with its buddy as long as that one is free. */
    method Free(ptr: int)
      requires Valid()
      requires ptr != NULL ==> exists b :: b in h.live && ptr == b.off + HEADER
      modifies this`order, this`next, this`prev, this`lists, this`h, freeLists
      ensures Valid() && h.limit == old(h.limit)
      ensures HeapStep(old(h), h)
      ensures ptr == NULL ==> h == old(h)
      ensures ptr != NULL ==> ptr - HEADER in old(order)
      ensures ptr != NULL ==> var b := Block(ptr - HEADER, old(order)[ptr - HEADER]);
                              b in old(h).live && h == GivenBack(old(h), b) && h.live == old(h).live - {b}
    {
      hide HeapInv, Represents, LinkedLists, BuddyHeap.Linked, Xor, Aligned, BuddyOf, GivenBack, HeapStep;
      IdleIsStep(h);
      if ptr == NULL {
        return;
      }
      ghost var b := Block(ptr - HEADER, order[ptr - HEADER]);
      assert b in h.live;
      BlockWellFormed(h, b);
      GivenBackIsStep(h, b);
      Reclaim(ptr - HEADER, order[ptr - HEADER]);
    }

    /** Merge a live block as far as possible and list the result. */
    method Reclaim(block: nat, k: nat)
      requires Sound() && Headers({}) && Block(block, k) in h.live && k <= MAX_ORDER
      modifies this`order, this`next, this`prev, this`lists, this`h, freeLists
      ensures Sound() && Headers({}) && h.limit == old(h.limit)
      ensures h == GivenBack(old(h), Block(block, k)) && h.live == old(h).live - {Block(block, k)}
    {
      hide HeapInv, Represents, LinkedLists, BuddyHeap.Linked, Xor, Aligned, BuddyOf, GivenBack;
      var block', k' := MergeUp(block, k);
      Insert(block', k');
    }

    /** Bytes on the list of one order. */
    method ListBytes(k: nat) returns (n: nat)
      requires Sound() && MIN_ORDER <= k <= MAX_ORDER
      ensures n == Bytes(OfOrder(h.free, k))
    {
      ghost var s, p := lists[k - MIN_ORDER], 0;
      ghost var seen: set<Block> := {};
      assert Chain(s, freeLists[k - MIN_ORDER], next, prev);
      var current := freeLists[k - MIN_ORDER];
      n := 0;
      hide HeapInv, LinkedLists;
      while current != NULL
        invariant p <= |s| && current == At(s, p)
        invariant forall b :: b in seen <==> b.order == k && b.off in s[..p]
        invariant n == Bytes(seen)
        decreases |s| - p
      {
        ghost var b := Block(current, k);
        NotBefore(lists, freeLists[..], next, prev, k - MIN_ORDER, p);
        BytesAdd(seen, b);
        seen := seen + {b};
        n := n + Pow2(k);
        current := next[current];
        p := p + 1;
      }
      ListIsOrder(lists, h.free, k, seen);
    }

    /** Total, used and available bytes. */
    method Info() returns (total: nat, used: int, available: nat)
      requires Valid()
      ensures total == heapSize && available == Bytes(h.free)
      ensures used == Bytes(h.live) + heapSize % 32
    {
      hide HeapInv, Represents, LinkedLists, Bytes;
      HeapBytes(h);
      available := 0;
      var k := MIN_ORDER;
      while k <= MAX_ORDER
        invariant MIN_ORDER <= k <= MAX_ORDER + 1
        invariant available == Bytes(BelowOrder(h.free, k))
      {
        var n := ListBytes(k);
        BytesUnion(BelowOrder(h.free, k), OfOrder(h.free, k));
        assert BelowOrder(h.free, k) + OfOrder(h.free, k) == BelowOrder(h.free, k + 1);
        available := available + n;
        k := k + 1;
      }
      total, used := heapSize, heapSize - available;
    }

    /** Extend the managed region by one free block at its end. */
    method PushNew(offset: nat, k: nat)
      requires Sound() && h.live == {} && h.limit == offset && Aligned(offset, k)
      requires MIN_ORDER <= k <= MAX_ORDER && (k < MAX_ORDER ==> forall b :: b in h.free ==> b.order != k)
      modifies this`order, this`next, this`prev, this`lists, this`h, freeLists
      ensures Sound() && h == Heap(offset + Pow2(k), old(h).free + {Block(offset, k)}, {})
    {
      hide HeapInv, Represents, LinkedLists, Xor, Aligned, Absent;
      GrowKeeps(h, k);
      AbsentAtEnd(lists, h);
      RepresentsPush(lists, h.free, Block(offset, k));
      order := order[offset := k];
      ListPush(k, offset);
      h := Heap(offset + Pow2(k), h.free + {Block(offset, k)}, {});
    }

    /** Push as many blocks of order k as fit the remaining bytes. */
    method FillOrder(k: nat, offset: nat, remaining: nat) returns (offset': nat, remaining': nat)
      requires Sound() && h.live == {} && h.limit == offset && Aligned(offset, k) && MIN_ORDER <= k <= MAX_ORDER
      requires k < MAX_ORDER ==> remaining < Pow2(k + 1)
      requires forall b :: b in h.free ==> b.order > k
      modifies this`order, this`next, this`prev, this`lists, this`h, freeLists
      ensures Sound() && h.live == {} && h.limit == offset' && Aligned(offset', k)
      ensures offset' + remaining' == offset + remaining && remaining' < Pow2(k)
      ensures forall b :: b in h.free ==> b.order >= k
    {
      hide HeapInv, Represents, BuddyHeap.Linked, Xor, Aligned;
      offset', remaining' := offset, remaining;
      while remaining' >= Pow2(k)
        invariant Sound() && h.live == {} && h.limit == offset' && Aligned(offset', k)
        invariant offset' + remaining' == offset + remaining
        invariant k < MAX_ORDER ==> remaining' < Pow2(k + 1)
        invariant forall b :: b in h.free ==> b.order >= k
        invariant k < MAX_ORDER && remaining' >= Pow2(k) ==> forall b :: b in h.free ==> b.order > k
      {
        PushNew(offset', k);
        AlignedAdd(offset', k);
        offset', remaining' := offset' + Pow2(k), remaining' - Pow2(k);
      }
    }

    /** Cut the heap greedily into aligned blocks, the largest first. */
    constructor (size: nat)
      ensures Valid() && fresh(freeLists) && heapSize == size && h.live == {}
    {
      heapSize := size;
      freeLists := new int[NUM_ORDERS](_ => NULL);
      order, next, prev := map[], map[], map[];
      lists := seq(NUM_ORDERS, _ => []);
      h := Heap(0, {}, {});
      new;
      EmptySound(lists, freeLists[..], next, prev, h);
      hide HeapInv, Represents, LinkedLists, Xor, Aligned;
      var remaining: nat, offset: nat := size, 0;
      var k: int := MAX_ORDER;
      while k >= MIN_ORDER && remaining > 0
        invariant MIN_ORDER - 1 <= k <= MAX_ORDER
        invariant Sound() && h.live == {} && h.limit == offset && offset + remaining == size
        invariant fresh(freeLists) && heapSize == size
        invariant Aligned(offset, MIN_ORDER) && Aligned(offset, k)
        invariant forall b :: b in h.free ==> b.order > k
        invariant k < MAX_ORDER ==> remaining < Pow2(k + 1)
      {
        offset, remaining := FillOrder(k, offset, remaining);
        AlignedWeaken(offset, MIN_ORDER, k);
        AlignedWeaken(offset, k - 1, k);
        k := k - 1;
      }
      Unmanaged(offset, remaining);
    }
  }

  lemma StepKeepsHeap(before: Heap, after: Heap)
    requires HeapInv(before) && HeapStep(before, after)
    ensures HeapInv(after) && after.limit == before.limit
  {
    hide HeapInv, Carved, GivenBack;
    if size, c, k :| AllocStep(before, after, size, c, k) {
      CarvedKeeps(before, c, k);
    } else if b :| b in before.live && after == GivenBack(before, b) {
      GivenBackKeeps(before, b);
    }
  }

  ghost predicate IsRun(run: seq<Heap>) {
    |run| > 0 && forall i :: 0 <= i < |run| - 1 ==> HeapStep(run[i], run[i + 1])
  }

  /** Every allocation and release keeps the tiling, its alignment and the absence of free buddies. */
  lemma {:induction false} RunKeepsHeap(run: seq<Heap>, n: nat)
    requires IsRun(run) && n < |run| && HeapInv(run[0])
    ensures HeapInv(run[n]) && run[n].limit == run[0].limit
  {
    hide HeapInv, HeapStep;
    if n > 0 {
      RunKeepsHeap(run, n - 1);
      assert HeapStep(run[n - 1], run[n - 1 + 1]);
      StepKeepsHeap(run[n - 1], run[n]);
    }
  }

  /** Whatever was allocated and in whatever order it was freed, once nothing is live the free
      blocks are again those that initialization made. */
  lemma AllFreedRestoresInitial(run: seq<Heap>)
    requires IsRun(run) && HeapInv(run[0]) && run[0].live == {} && run[|run| - 1].live == {}
    ensures run[|run| - 1] == run[0]
  {
    RunKeepsHeap(run, |run| - 1);
    FreeSetDetermined(run[0], run[|run| - 1]);
  }

  /** Payloads of live blocks lie inside the managed region and never overlap. */
  lemma PayloadsApart(h: Heap, b: Block, c: Block, x: int)
    requires HeapInv(h) && b in h.live && c in h.live
    requires b.off + HEADER <= x < End(b)
    ensures 0 <= x < h.limit && !Covers(h.free, x)
    ensures c.off <= x < End(c) ==> b == c
  {
    assert b in h.free + h.live && c in h.free + h.live;
    assert b != c ==> Apart(b, c);
    assert Holds(b, x);
    FreeBytes(h, x);
  }

  /** Allocating and freeing again leaves no trace. */
  method AllocThenFree(heap: BuddyHeap, size: nat)
    requires heap.Valid() && size + HEADER <= 0x8000_0000_0000_0000
    modifies heap, heap.freeLists
    ensures heap.Valid() && heap.h == old(heap.h)
  {
    var r := heap.Alloc(size);
    ghost var b := Block(r - HEADER, if r == NULL then 0 else heap.order[r - HEADER]);
    hide HeapInv, Represents, LinkedLists;
    if r != NULL {
      heap.Free(r);
    }
    FreeSetDetermined(heap.h, old(heap.h));
  }
}

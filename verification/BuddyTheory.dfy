/** Aligned power-of-two blocks and the tilings of a heap that they form. */
module BuddyTheory {
  import opened Bits

  const MIN_ORDER: nat := 5   // smallest block: 32 bytes
  const MAX_ORDER: nat := 20  // largest block: 1 megabyte

  /** The bytes off .. off + 2^order of the heap, as offsets from its base. */
  datatype Block = Block(off: int, order: nat)

  ghost function End(b: Block): int {
    b.off + Pow2(b.order)
  }

  ghost predicate WellFormed(b: Block, limit: int) {
    && MIN_ORDER <= b.order <= MAX_ORDER
    && 0 <= b.off && Aligned(b.off, b.order) && End(b) <= limit
  }

  ghost predicate Apart(a: Block, b: Block) {
    End(a) <= b.off || End(b) <= a.off
  }

  ghost predicate Inside(a: Block, b: Block) {
    b.off <= a.off && End(a) <= End(b)
  }

  ghost predicate Holds(b: Block, x: int) {
    b.off <= x < End(b)
  }

  /** Byte x belongs to some block of s. */
  ghost predicate Covers(s: set<Block>, x: int) {
    exists b :: b in s && Holds(b, x)
  }

  /** Well-formed blocks that do not overlap. */
  ghost predicate Packed(s: set<Block>, limit: int) {
    && (forall b :: b in s ==> WellFormed(b, limit))
    && (forall a, b :: a in s && b in s && a != b ==> Apart(a, b))
  }

  /** The blocks of s partition the offsets 0 .. limit. */
  ghost predicate Tiles(s: set<Block>, limit: int) {
    && Packed(s, limit)
    && (forall x :: 0 <= x < limit ==> Covers(s, x))
  }

  /** The other half of the parent of b, found by flipping one address bit. */
  function BuddyOf(b: Block): Block
    requires b.off >= 0
  {
    Block(Xor(b.off, Pow2(b.order)), b.order)
  }

  /** No two free buddies that could still be merged. */
  ghost predicate Coalesced(free: set<Block>)
    requires forall b :: b in free ==> b.off >= 0
  {
    forall a, b :: a in free && b in free && a.order < MAX_ORDER ==> b != BuddyOf(a)
  }

  /** What an allocator manages: `limit` bytes cut into free and live blocks. */
  datatype Heap = Heap(limit: nat, free: set<Block>, live: set<Block>)

  ghost predicate HeapInv(h: Heap) {
    && h.free !! h.live
    && Tiles(h.free + h.live, h.limit)
    && Coalesced(h.free)
  }

  // ---------------------------------------------------------------- alignment of blocks

  lemma BuddyIsNeighbour(b: Block)
    requires b.off >= 0 && Aligned(b.off, b.order)
    ensures BuddyOf(b).off == if Aligned(b.off, b.order + 1) then b.off + Pow2(b.order) else b.off - Pow2(b.order)
    ensures Aligned(BuddyOf(b).off, b.order)
    ensures Aligned(BuddyOf(b).off, b.order + 1) <==> !Aligned(b.off, b.order + 1)
    ensures BuddyOf(b).off >= 0 && BuddyOf(BuddyOf(b)) == b
  {
    XorFlips(b.off, b.order);
    AlignedAdd(b.off, b.order);
    AlignedUp(b.off, b.order);
    XorFlips(BuddyOf(b).off, b.order);
  }

  /** Aligned blocks are nested or apart. */
  lemma Nested(a: Block, b: Block, limit: int)
    requires WellFormed(a, limit) && WellFormed(b, limit) && a.order <= b.order
    ensures Apart(a, b) || Inside(a, b)
  {
    AlignedAdd(b.off, b.order);
    AlignedWeaken(b.off, a.order, b.order);
    AlignedWeaken(End(b), a.order, b.order);
    if a.off < b.off {
      AlignedApart(a.off, b.off, a.order);
    } else if a.off < End(b) {
      AlignedApart(a.off, End(b), a.order);
    }
  }

  // ---------------------------------------------------------------- coalescing

  /** In a coalesced free set every aligned run of free bytes lies inside one free block. */
  lemma {:induction false} CoveredRun(free: set<Block>, limit: int, run: Block) returns (b: Block)
    requires Packed(free, limit) && Coalesced(free)
    requires WellFormed(run, limit)
    requires forall x :: Holds(run, x) ==> Covers(free, x)
    ensures b in free && Inside(run, b)
    decreases run.order
  {
    hide Xor, Aligned;
    assert Holds(run, run.off);
    b :| b in free && Holds(b, run.off);
    if b.order >= run.order {
      Nested(run, b, limit);
    } else {
      var half := run.order - 1;
      var left, right := Block(run.off, half), Block(run.off + Pow2(half), half);
      Halves(run, limit);
      forall x | Holds(left, x) ensures Covers(free, x) { assert Holds(run, x); }
      forall x | Holds(right, x) ensures Covers(free, x) { assert Holds(run, x); }
      var l := CoveredRun(free, limit, left);
      var r := CoveredRun(free, limit, right);
      b := Around(run, left, right, l, r, limit, free);
    }
  }

  /** A block above the smallest order splits into two well-formed buddies. */
  lemma Halves(b: Block, limit: int)
    requires WellFormed(b, limit) && b.order > MIN_ORDER
    ensures var half := b.order - 1;
            var left, right := Block(b.off, half), Block(b.off + Pow2(half), half);
            && WellFormed(left, limit) && WellFormed(right, limit)
            && BuddyOf(left) == right && BuddyOf(right) == left
            && End(left) == right.off && End(right) == End(b)
  {
    var half := b.order - 1;
    AlignedWeaken(b.off, half, b.order);
    AlignedAdd(b.off, half);
    BuddyIsNeighbour(Block(b.off, half));
  }

  /** One of two free blocks that hold the halves of a run holds all of it, because they
      cannot both be just the halves. */
  lemma Around(run: Block, left: Block, right: Block, l: Block, r: Block, limit: int, free: set<Block>) returns (b: Block)
    requires Packed(free, limit) && Coalesced(free) && l in free && r in free
    requires WellFormed(run, limit) && run.order > MIN_ORDER
    requires left == Block(run.off, run.order - 1)
    requires right == Block(run.off + Pow2(run.order - 1), run.order - 1)
    requires Inside(left, l) && Inside(right, r)
    ensures b in free && Inside(run, b)
  {
    Halves(run, limit);
    if l.order >= run.order {
      Nested(run, l, limit);
      b := l;
    } else if r.order >= run.order {
      Nested(run, r, limit);
      b := r;
    } else {
      SameSize(left, l);
      SameSize(right, r);
      assert false;
    }
  }

  /** A block inside another of no larger order is that block. */
  lemma SameSize(a: Block, b: Block)
    requires Inside(a, b) && b.order <= a.order
    ensures a == b
  {
    Pow2Mono(b.order, a.order);
  }

  /** A coalesced free set is determined by the bytes it covers. */
  lemma CoalescedUnique(f: set<Block>, g: set<Block>, limit: int)
    requires Packed(f, limit) && Coalesced(f)
    requires Packed(g, limit) && Coalesced(g)
    requires forall x :: Covers(f, x) <==> Covers(g, x)
    ensures f == g
  {
    forall b | b in f ensures b in g { CoalescedSubset(f, g, limit, b); }
    forall b | b in g ensures b in f { CoalescedSubset(g, f, limit, b); }
  }

  lemma CoalescedSubset(f: set<Block>, g: set<Block>, limit: int, b: Block)
    requires Packed(f, limit) && Coalesced(f)
    requires Packed(g, limit) && Coalesced(g)
    requires forall x :: Covers(f, x) <==> Covers(g, x)
    requires b in f
    ensures b in g
  {
    forall x | Holds(b, x) ensures Covers(g, x) { assert Covers(f, x); }
    var c := CoveredRun(g, limit, b);
    forall x | Holds(c, x) ensures Covers(f, x) { assert Covers(g, x); }
    var d := CoveredRun(f, limit, c);
    assert Holds(b, b.off) && Holds(d, b.off);
    assert !Apart(b, d);
    assert b == d && b.off == c.off && End(b) == End(c);
    if b.order != c.order {
      Pow2Mono(if b.order < c.order then b.order else c.order, if b.order < c.order then c.order else b.order);
    }
  }

  /** Which blocks are free depends only on which blocks are live, not on the history. */
  lemma FreeSetDetermined(h: Heap, k: Heap)
    requires HeapInv(h) && HeapInv(k)
    requires h.limit == k.limit && h.live == k.live
    ensures h == k
  {
    assert Packed(h.free, h.limit) && Packed(k.free, k.limit);
    forall x ensures Covers(h.free, x) <==> Covers(k.free, x) {
      FreeBytes(h, x);
      FreeBytes(k, x);
    }
    CoalescedUnique(h.free, k.free, h.limit);
  }

  /** The free bytes are those of the managed region that no live block holds. */
  lemma FreeBytes(h: Heap, x: int)
    requires HeapInv(h)
    ensures Covers(h.free, x) <==> 0 <= x < h.limit && !Covers(h.live, x)
  {
    var all := h.free + h.live;
    if Covers(h.free, x) {
      var b :| b in h.free && Holds(b, x);
      assert b in all && WellFormed(b, h.limit);
      forall c | c in h.live ensures !Holds(c, x) { assert c in all && Apart(b, c); }
    } else if 0 <= x < h.limit {
      assert Covers(all, x);
      var b :| b in all && Holds(b, x);
    }
  }

  // ---------------------------------------------------------------- accounting

  /** Total number of bytes in a set of blocks. */
  ghost function Bytes(s: set<Block>): nat {
    if s == {} then 0
    else var b :| b in s; Pow2(b.order) + Bytes(s - {b})
  }

  /** Any element may be taken out first. */
  lemma {:induction false} BytesRemove(s: set<Block>, b: Block)
    requires b in s
    ensures Bytes(s) == Pow2(b.order) + Bytes(s - {b})
  {
    var c :| c in s && Bytes(s) == Pow2(c.order) + Bytes(s - {c});
    if c != b {
      BytesRemove(s - {c}, b);
      BytesRemove(s - {b}, c);
      assert s - {c} - {b} == s - {b} - {c};
    }
  }

  lemma BytesAdd(s: set<Block>, b: Block)
    requires b !in s
    ensures Bytes(s + {b}) == Bytes(s) + Pow2(b.order)
  {
    BytesRemove(s + {b}, b);
    assert s + {b} - {b} == s;
  }

  ghost function OfOrder(s: set<Block>, k: nat): set<Block> {
    set b | b in s && b.order == k
  }

  ghost function BelowOrder(s: set<Block>, k: nat): set<Block> {
    set b | b in s && b.order < k
  }

  lemma {:induction false} BytesUnion(s: set<Block>, t: set<Block>)
    requires s !! t
    ensures Bytes(s + t) == Bytes(s) + Bytes(t)
  {
    if s == {} {
      assert s + t == t;
    } else {
      var b :| b in s;
      BytesRemove(s, b);
      BytesRemove(s + t, b);
      assert (s + t) - {b} == (s - {b}) + t;
      BytesUnion(s - {b}, t);
    }
  }

  /** A tiling has exactly as many bytes as the region it tiles. */
  lemma {:induction false} TilingBytes(s: set<Block>, limit: int)
    requires Tiles(s, limit) && limit >= 0
    ensures Bytes(s) == limit
    decreases s
  {
    if limit == 0 {
      assert s == {};
    } else {
      assert Covers(s, limit - 1);
      var b :| b in s && Holds(b, limit - 1);
      var rest := s - {b};
      forall c | c in rest ensures WellFormed(c, b.off) { assert Apart(b, c); }
      forall x | 0 <= x < b.off ensures Covers(rest, x) { assert Covers(s, x); }
      BytesRemove(s, b);
      TilingBytes(rest, b.off);
    }
  }

  lemma HeapBytes(h: Heap)
    requires HeapInv(h)
    ensures Bytes(h.free) + Bytes(h.live) == h.limit
    ensures Bytes(BelowOrder(h.free, MIN_ORDER)) == 0 && BelowOrder(h.free, MAX_ORDER + 1) == h.free
  {
    assert BelowOrder(h.free, MIN_ORDER) == {};
    BytesUnion(h.free, h.live);
    TilingBytes(h.free + h.live, h.limit);
  }

  // ---------------------------------------------------------------- steps of the allocator

  function Take(h: Heap, b: Block): Heap {
    h.(free := h.free - {b}, live := h.live + {b})
  }

  function Split(h: Heap, b: Block): Heap
    requires b.order > 0
  {
    var half := b.order - 1;
    h.(free := h.free + {Block(b.off + Pow2(half), half)}, live := h.live - {b} + {Block(b.off, half)})
  }

  /** The block that b and its buddy make together. */
  function Parent(b: Block): Block
    requires b.off >= 0
  {
    Block(if BuddyOf(b).off < b.off then BuddyOf(b).off else b.off, b.order + 1)
  }

  function Merge(h: Heap, b: Block): Heap
    requires b.off >= 0
  {
    h.(free := h.free - {BuddyOf(b)}, live := h.live - {b} + {Parent(b)})
  }

  function Release(h: Heap, b: Block): Heap {
    h.(free := h.free + {b}, live := h.live - {b})
  }

  /** Halve b until its order is `want`; the second halves become free. */
  ghost function Cut(h: Heap, b: Block, want: nat): Heap
    decreases b.order
  {
    if b.order <= want then h else Cut(Split(h, b), Block(b.off, b.order - 1), want)
  }

  /** Allocate the front of the free block c. */
  ghost function Carved(h: Heap, c: Block, want: nat): Heap {
    Cut(Take(h, c), c, want)
  }

  /** Merge b with its buddy as long as that one is free, then list it. */
  ghost function GivenBack(h: Heap, b: Block): Heap
    decreases MAX_ORDER - b.order
  {
    if b.off >= 0 && b.order < MAX_ORDER && BuddyOf(b) in h.free then GivenBack(Merge(h, b), Parent(b)) else Release(h, b)
  }

  lemma BlockWellFormed(h: Heap, b: Block)
    requires HeapInv(h) && b in h.free + h.live
    ensures WellFormed(b, h.limit)
  {
  }

  lemma TakeKeeps(h: Heap, b: Block)
    requires HeapInv(h) && b in h.free
    ensures HeapInv(Take(h, b)) && b !in h.live
  {
    var k := Take(h, b);
    assert k.free + k.live == h.free + h.live;
  }

  /** Replacing blocks by others that cover the same bytes keeps a tiling. */
  lemma Recut(s: set<Block>, limit: int, out: set<Block>, into: set<Block>)
    requires Tiles(s, limit) && out <= s && Packed(into, limit)
    requires forall x :: Covers(out, x) <==> Covers(into, x)
    ensures Tiles(s - out + into, limit)
  {
    var t := s - out + into;
    forall a, b | a in t && b in t && a != b ensures Apart(a, b) {
      if a in into && b !in into {
        ApartFromRecut(s, limit, out, into, b, a);
      } else if b in into && a !in into {
        ApartFromRecut(s, limit, out, into, a, b);
      }
    }
    forall x | 0 <= x < limit ensures Covers(t, x) {
      assert Covers(s, x);
      var b :| b in s && Holds(b, x);
      if b in out {
        assert Covers(out, x);
        var c :| c in into && Holds(c, x);
        assert c in t;
      } else {
        assert b in t;
      }
    }
  }

  lemma ApartFromRecut(s: set<Block>, limit: int, out: set<Block>, into: set<Block>, a: Block, b: Block)
    requires Tiles(s, limit) && out <= s && Packed(into, limit)
    requires forall x :: Covers(out, x) <==> Covers(into, x)
    requires a in s - out && b in into
    ensures Apart(a, b)
  {
    if !Apart(a, b) {
      var x := if a.off < b.off then b.off else a.off;
      assert Holds(a, x) && Holds(b, x);
      assert Covers(into, x);
      var c :| c in out && Holds(c, x);
      assert Apart(a, c);
    }
  }

  lemma SplitKeeps(h: Heap, b: Block)
    requires HeapInv(h) && b in h.live && b.order > MIN_ORDER
    ensures HeapInv(Split(h, b))
    ensures Block(b.off, b.order - 1) in Split(h, b).live && Block(b.off, b.order - 1) !in h.live
    ensures Block(b.off + Pow2(b.order - 1), b.order - 1) !in h.free
  {
    hide Xor, Aligned;
    var k, half := Split(h, b), b.order - 1;
    var left, right := Block(b.off, half), Block(b.off + Pow2(half), half);
    var all := h.free + h.live;
    assert WellFormed(b, h.limit);
    Halves(b, h.limit);
    assert b in all && Holds(b, left.off) && Holds(b, right.off);
    assert left !in all && right !in all by {
      assert left in all ==> Apart(left, b);
      assert right in all ==> Apart(right, b);
    }
    forall x ensures Covers({b}, x) <==> Covers({left, right}, x) {
      assert Holds(b, x) <==> Holds(left, x) || Holds(right, x);
      assert b in {b} && left in {left, right} && right in {left, right};
    }
    Recut(all, h.limit, {b}, {left, right});
    assert k.free + k.live == all - {b} + {left, right};
    forall c | c in k.free && c.order < MAX_ORDER ensures BuddyOf(c) !in k.free {
      BuddyIsNeighbour(c);
    }
  }

  lemma MergeKeeps(h: Heap, b: Block)
    requires HeapInv(h) && b in h.live && b.order < MAX_ORDER && BuddyOf(b) in h.free
    ensures HeapInv(Merge(h, b))
    ensures Parent(b) in Merge(h, b).live
    ensures Parent(b) !in h.live
  {
    var k, c, p := Merge(h, b), BuddyOf(b), Parent(b);
    var all := h.free + h.live;
    assert WellFormed(b, h.limit) && WellFormed(c, h.limit);
    BuddyIsNeighbour(b);
    assert WellFormed(p, h.limit);
    assert p !in all by {
      assert Holds(p, b.off) && Holds(b, b.off);
      assert p in all ==> Apart(p, b);
    }
    forall x ensures Covers({b, c}, x) <==> Covers({p}, x) {
      assert Holds(p, x) <==> Holds(b, x) || Holds(c, x);
      assert p in {p} && b in {b, c} && c in {b, c};
    }
    Recut(all, h.limit, {b, c}, {p});
    assert k.free + k.live == all - {b, c} + {p};
  }

  lemma ReleaseKeeps(h: Heap, b: Block)
    requires HeapInv(h) && b in h.live
    requires b.order < MAX_ORDER ==> BuddyOf(b) !in h.free
    ensures HeapInv(Release(h, b))
  {
    var k := Release(h, b);
    assert k.free + k.live == h.free + h.live;
    BuddyIsNeighbour(b);
    forall c | c in k.free && c.order < MAX_ORDER ensures BuddyOf(c) !in k.free {
      BuddyIsNeighbour(c);
    }
  }

  lemma {:induction false} CutKeeps(h: Heap, b: Block, want: nat)
    requires HeapInv(h) && b in h.live && MIN_ORDER <= want <= b.order
    ensures HeapInv(Cut(h, b, want)) && Cut(h, b, want).limit == h.limit
    ensures Cut(h, b, want).live == h.live - {b} + {Block(b.off, want)}
    decreases b.order
  {
    hide HeapInv;
    if b.order > want {
      SplitKeeps(h, b);
      CutKeeps(Split(h, b), Block(b.off, b.order - 1), want);
    }
  }

  /** Allocation adds one block at the front of c to the live ones. */
  lemma CarvedKeeps(h: Heap, c: Block, want: nat)
    requires HeapInv(h) && c in h.free && MIN_ORDER <= want <= c.order
    ensures HeapInv(Carved(h, c, want)) && Carved(h, c, want).limit == h.limit
    ensures Carved(h, c, want).live == h.live + {Block(c.off, want)}
  {
    hide HeapInv, Cut;
    TakeKeeps(h, c);
    CutKeeps(Take(h, c), c, want);
  }

  /** Release takes exactly that block out of the live ones and leaves no free buddy pair. */
  lemma {:induction false} GivenBackKeeps(h: Heap, b: Block)
    requires HeapInv(h) && b in h.live
    ensures HeapInv(GivenBack(h, b)) && GivenBack(h, b).limit == h.limit
    ensures GivenBack(h, b).live == h.live - {b}
    decreases MAX_ORDER - b.order
  {
    BlockWellFormed(h, b);
    hide HeapInv, Xor, Aligned, BuddyOf;
    if b.order < MAX_ORDER && BuddyOf(b) in h.free {
      MergeKeeps(h, b);
      GivenBackKeeps(Merge(h, b), Parent(b));
    } else {
      ReleaseKeeps(h, b);
    }
  }

  /** A block that is the only one of its order has no free buddy. */
  lemma LonelyKeepsCoalesced(free: set<Block>, limit: int, b: Block)
    requires Packed(free, limit) && Coalesced(free) && WellFormed(b, limit)
    requires b.order < MAX_ORDER ==> forall c :: c in free ==> c.order != b.order
    ensures Coalesced(free + {b})
  {
    BuddyIsNeighbour(b);
    hide Xor, Aligned;
    assert BuddyOf(b) != b;
  }

  lemma TilesGrow(s: set<Block>, b: Block)
    requires Tiles(s, b.off) && WellFormed(b, End(b))
    ensures Tiles(s + {b}, End(b))
  {
    hide Aligned;
    forall x | 0 <= x < End(b) ensures Covers(s + {b}, x) {
      if x < b.off {
        assert Covers(s, x);
        var c :| c in s && Holds(c, x);
        assert c in s + {b};
      } else {
        assert b in s + {b} && Holds(b, x);
      }
    }
  }

  /** A wholly free heap grows by a block at its end, unless that would leave a buddy pair. */
  lemma GrowKeeps(h: Heap, k: nat)
    requires HeapInv(h) && h.live == {} && Aligned(h.limit, k) && MIN_ORDER <= k <= MAX_ORDER
    requires k < MAX_ORDER ==> forall b :: b in h.free ==> b.order != k
    ensures HeapInv(Heap(h.limit + Pow2(k), h.free + {Block(h.limit, k)}, {}))
  {
    var b := Block(h.limit, k);
    assert h.free + h.live == h.free && (h.free + {b}) + {} == h.free + {b};
    assert Packed(h.free, End(b)) by { hide Aligned, Covers; }
    hide Aligned, Coalesced, Packed, Covers;
    LonelyKeepsCoalesced(h.free, End(b), b);
    TilesGrow(h.free, b);
  }

  /** Fewer than 32 bytes behind an aligned region are what the heap size leaves modulo 32. */
  lemma Unmanaged(off: nat, rest: nat)
    requires Aligned(off, MIN_ORDER) && rest < Pow2(MIN_ORDER)
    ensures (off + rest) % 32 == rest
  {
    AlignedIsDivisible(off, MIN_ORDER);
    var i :| off == i * Pow2(MIN_ORDER);
    assert off == 32 * i;
  }
}

/** The doubly linked free lists of the buddy allocator, one per block order. */
module BuddyLists {
  import opened Bits
  import opened BuddyTheory
  import opened Seqs

  const NUM_ORDERS: nat := MAX_ORDER - MIN_ORDER + 1
  const NULL: int := -1

  /** s is a doubly linked list that starts at head. */
  ghost predicate Chain(s: seq<int>, head: int, next: map<int, int>, prev: map<int, int>) {
    && head == At(s, 0)
    && (forall j :: 0 <= j < |s| ==> s[j] >= 0)
    && (forall j :: 0 <= j < |s| ==> s[j] in next && next[s[j]] == At(s, j + 1))
    && (forall j :: 0 <= j < |s| ==> s[j] in prev && prev[s[j]] == At(s, j - 1))
  }

  ghost predicate OnList(lists: seq<seq<int>>, i: int, j: int, x: int) {
    0 <= i < |lists| && 0 <= j < |lists[i]| && lists[i][j] == x
  }

  /** No offset occurs twice in the lists. */
  ghost predicate Distinct(lists: seq<seq<int>>) {
    forall i, j, i', j', x :: OnList(lists, i, j, x) && OnList(lists, i', j', x) ==> i == i' && j == j'
  }

  ghost predicate Absent(lists: seq<seq<int>>, x: int) {
    forall i, j :: !OnList(lists, i, j, x)
  }

  lemma ChainHead(s: seq<int>, head: int, next: map<int, int>, prev: map<int, int>)
    requires Chain(s, head, next, prev)
    ensures head == At(s, 0)
  {}

  /** Following the link of element p leads to the next one. */
  lemma ChainStep(s: seq<int>, head: int, next: map<int, int>, prev: map<int, int>, p: nat)
    requires Chain(s, head, next, prev) && p < |s|
    ensures s[p] in next && next[s[p]] == At(s, p + 1) && s[..p + 1] == s[..p] + [s[p]]
  {}

  /** A chain depends only on the links of its own elements. */
  lemma ChainFrame(s: seq<int>, head: int, next: map<int, int>, prev: map<int, int>,
                   next': map<int, int>, prev': map<int, int>)
    requires Chain(s, head, next, prev)
    requires forall j :: 0 <= j < |s| ==> s[j] in next' && next'[s[j]] == next[s[j]]
    requires forall j :: 0 <= j < |s| ==> s[j] in prev' && prev'[s[j]] == prev[s[j]]
    ensures Chain(s, head, next', prev')
  {
  }

  lemma ChainPush(s: seq<int>, head: int, next: map<int, int>, prev: map<int, int>, block: int)
    requires Chain(s, head, next, prev) && block >= 0 && block !in s
    ensures var prev0 := prev[block := NULL];
            Chain([block] + s, block, next[block := head], if head != NULL then prev0[head := block] else prev0)
  {
    var t := [block] + s;
    assert forall j :: 0 < j < |t| ==> t[j] == s[j - 1];
  }

  /** Unlinking element j of a chain. */
  lemma ChainRemove(s: seq<int>, head: int, next: map<int, int>, prev: map<int, int>, j: nat,
                    next': map<int, int>, prev': map<int, int>)
    requires Chain(s, head, next, prev) && j < |s| && NoDuplicates(s)
    requires Unlinked(s, j, next, prev, next', prev')
    ensures Chain(Without(s, j), if j == 0 then At(s, 1) else head, next', prev')
  {
    var t := Without(s, j);
    forall i | 0 <= i < |t|
      ensures t[i] >= 0
      ensures t[i] in next' && next'[t[i]] == At(t, i + 1)
      ensures t[i] in prev' && prev'[t[i]] == At(t, i - 1)
    {
      NextAfterRemove(s, next, j, i);
      PrevAfterRemove(s, prev, j, i);
    }
  }

  lemma NextAfterRemove(s: seq<int>, next: map<int, int>, j: nat, i: nat)
    requires j < |s| && i < |s| - 1 && NoDuplicates(s)
    requires forall k :: 0 <= k < |s| ==> s[k] in next && next[s[k]] == At(s, k + 1)
    ensures var t := Without(s, j);
            var next' := (if j > 0 then next[s[j - 1] := At(s, j + 1)] else next)[s[j] := NULL];
            t[i] in next' && next'[t[i]] == At(t, i + 1)
  {
    var k := if i < j then i else i + 1;
    assert s[k] != s[j];
    if j > 0 && k != j - 1 { assert s[k] != s[j - 1]; }
  }

  lemma PrevAfterRemove(s: seq<int>, prev: map<int, int>, j: nat, i: nat)
    requires j < |s| && i < |s| - 1 && NoDuplicates(s)
    requires forall k :: 0 <= k < |s| ==> s[k] in prev && prev[s[k]] == At(s, k - 1)
    ensures var t := Without(s, j);
            var prev' := (if j + 1 < |s| then prev[s[j + 1] := At(s, j - 1)] else prev)[s[j] := NULL];
            t[i] in prev' && prev'[t[i]] == At(t, i - 1)
  {
    var k := if i < j then i else i + 1;
    assert s[k] != s[j];
    if j + 1 < |s| && k != j + 1 { assert s[k] != s[j + 1]; }
  }

  lemma Differ(lists: seq<seq<int>>, i: nat, j: nat, i': nat, j': nat)
    requires Distinct(lists) && i < |lists| && j < |lists[i]| && i' < |lists| && j' < |lists[i']|
    ensures lists[i][j] == lists[i'][j'] ==> i == i' && j == j'
  {
    assert OnList(lists, i, j, lists[i][j]) && OnList(lists, i', j', lists[i'][j']);
  }

  lemma DistinctPush(lists: seq<seq<int>>, idx: nat, block: int)
    requires Distinct(lists) && idx < |lists| && Absent(lists, block)
    ensures Distinct(lists[idx := [block] + lists[idx]])
  {
    var l := lists[idx := [block] + lists[idx]];
    forall i, j, x | OnList(l, i, j, x) ensures (x == block && i == idx && j == 0) || OnList(lists, i, if i == idx then j - 1 else j, x) {
      if i == idx && j > 0 { assert l[i][j] == lists[i][j - 1]; }
    }
  }

  lemma DistinctRemove(lists: seq<seq<int>>, idx: nat, j: nat)
    requires Distinct(lists) && idx < |lists| && j < |lists[idx]|
    ensures Distinct(lists[idx := Without(lists[idx], j)])
    ensures Absent(lists[idx := Without(lists[idx], j)], lists[idx][j])
  {
    var l := lists[idx := Without(lists[idx], j)];
    assert OnList(lists, idx, j, lists[idx][j]);
    forall i, k, x | OnList(l, i, k, x) ensures OnList(lists, i, if i == idx && k >= j then k + 1 else k, x) {
      if i == idx && k >= j { assert l[i][k] == lists[i][k + 1]; }
    }
  }

  /** Each list is a chain from its head, and the chains share no element. */
  ghost predicate LinkedLists(lists: seq<seq<int>>, heads: seq<int>, next: map<int, int>, prev: map<int, int>) {
    && |lists| == |heads|
    && (forall i :: 0 <= i < |lists| ==> Chain(lists[i], heads[i], next, prev))
    && Distinct(lists)
  }

  lemma PushLinked(lists: seq<seq<int>>, heads: seq<int>, next: map<int, int>, prev: map<int, int>, idx: nat, block: int)
    requires LinkedLists(lists, heads, next, prev) && idx < |lists| && block >= 0 && Absent(lists, block)
    ensures var prev0 := prev[block := NULL];
            LinkedLists(lists[idx := [block] + lists[idx]], heads[idx := block], next[block := heads[idx]],
                        if heads[idx] != NULL then prev0[heads[idx] := block] else prev0)
  {
    var prev0 := prev[block := NULL];
    var next', prev' := next[block := heads[idx]], if heads[idx] != NULL then prev0[heads[idx] := block] else prev0;
    forall i, j | 0 <= i < |lists| && 0 <= j < |lists[i]| ensures lists[i][j] != block {
      assert !OnList(lists, i, j, block);
    }
    ChainPush(lists[idx], heads[idx], next, prev, block);
    DistinctPush(lists, idx, block);
    forall i | 0 <= i < |lists| && i != idx ensures Chain(lists[i], heads[i], next', prev') {
      forall j | 0 <= j < |lists[i]| && lists[idx] != [] ensures lists[i][j] != lists[idx][0] { Differ(lists, i, j, idx, 0); }
      ChainFrame(lists[i], heads[i], next, prev, next', prev');
    }
  }

  /** The links after element j of s is unlinked. */
  ghost predicate Unlinked(s: seq<int>, j: nat, next: map<int, int>, prev: map<int, int>, next': map<int, int>, prev': map<int, int>)
    requires j < |s|
  {
    && next' == (if j > 0 then next[s[j - 1] := At(s, j + 1)] else next)[s[j] := NULL]
    && prev' == (if j + 1 < |s| then prev[s[j + 1] := At(s, j - 1)] else prev)[s[j] := NULL]
  }

  /** What list_remove reads, and that it never confuses a block with its neighbours. */
  lemma LinksAt(lists: seq<seq<int>>, heads: seq<int>, next: map<int, int>, prev: map<int, int>, idx: nat, j: nat)
    requires LinkedLists(lists, heads, next, prev) && idx < |lists| && j < |lists[idx]|
    ensures var s := lists[idx];
            && s[j] in next && next[s[j]] == At(s, j + 1) && s[j] in prev && prev[s[j]] == At(s, j - 1)
            && At(s, j + 1) != s[j] && At(s, j - 1) != s[j]
            && (j > 0 ==> s[j - 1] >= 0) && (j + 1 < |s| ==> s[j + 1] >= 0)
            && heads[idx] != NULL
  {
    var s := lists[idx];
    assert Chain(s, heads[idx], next, prev);
    if j > 0 { Differ(lists, idx, j - 1, idx, j); }
    if j + 1 < |s| { Differ(lists, idx, j + 1, idx, j); }
  }

  lemma RemoveElsewhere(s: seq<int>, j: nat, t: seq<int>, head: int,
                        next: map<int, int>, prev: map<int, int>, next': map<int, int>, prev': map<int, int>)
    requires j < |s| && Unlinked(s, j, next, prev, next', prev') && Chain(t, head, next, prev)
    requires forall m, n :: 0 <= m < |t| && 0 <= n < |s| ==> t[m] != s[n]
    ensures Chain(t, head, next', prev')
  {
    ChainFrame(t, head, next, prev, next', prev');
  }

  lemma RemoveLinked(lists: seq<seq<int>>, heads: seq<int>, next: map<int, int>, prev: map<int, int>, idx: nat, j: nat,
                     heads': seq<int>, next': map<int, int>, prev': map<int, int>)
    requires LinkedLists(lists, heads, next, prev) && idx < |lists| && j < |lists[idx]|
    requires heads' == if j == 0 then heads[idx := At(lists[idx], 1)] else heads
    requires Unlinked(lists[idx], j, next, prev, next', prev')
    ensures LinkedLists(lists[idx := Without(lists[idx], j)], heads', next', prev')
    ensures Absent(lists[idx := Without(lists[idx], j)], lists[idx][j])
  {
    var s := lists[idx];
    forall m, n | 0 <= m < n < |s| ensures s[m] != s[n] { Differ(lists, idx, m, idx, n); }
    ChainRemove(s, heads[idx], next, prev, j, next', prev');
    DistinctRemove(lists, idx, j);
    forall i | 0 <= i < |lists| && i != idx ensures Chain(lists[i], heads'[i], next', prev') {
      forall m, n | 0 <= m < |lists[i]| && 0 <= n < |s| ensures lists[i][m] != s[n] { Differ(lists, i, m, idx, n); }
      RemoveElsewhere(s, j, lists[i], heads[i], next, prev, next', prev');
    }
  }

  /** The lists hold exactly the free blocks, each in the list of its order. */
  ghost predicate Represents(lists: seq<seq<int>>, free: set<Block>) {
    && |lists| == NUM_ORDERS
    && (forall i, j, x :: OnList(lists, i, j, x) ==> Block(x, i + MIN_ORDER) in free)
    && (forall b :: b in free ==> MIN_ORDER <= b.order <= MAX_ORDER && b.off in lists[b.order - MIN_ORDER])
  }

  lemma RepresentsPush(lists: seq<seq<int>>, free: set<Block>, b: Block)
    requires Represents(lists, free) && MIN_ORDER <= b.order <= MAX_ORDER
    ensures var idx := b.order - MIN_ORDER;
            Represents(lists[idx := [b.off] + lists[idx]], free + {b})
  {
    var idx := b.order - MIN_ORDER;
    var l := lists[idx := [b.off] + lists[idx]];
    forall i, j, x | OnList(l, i, j, x) ensures Block(x, i + MIN_ORDER) in free + {b} {
      if i == idx && j > 0 { assert OnList(lists, i, j - 1, x); }
      if i != idx { assert OnList(lists, i, j, x); }
    }
  }

  lemma RepresentsRemove(lists: seq<seq<int>>, free: set<Block>, b: Block)
    requires Represents(lists, free) && Distinct(lists) && b in free
    ensures var idx := b.order - MIN_ORDER;
            Represents(lists[idx := Without(lists[idx], IndexOf(lists[idx], b.off))], free - {b})
  {
    var idx := b.order - MIN_ORDER;
    var s := lists[idx];
    var n := IndexOf(s, b.off);
    var l := lists[idx := Without(s, n)];
    DistinctRemove(lists, idx, n);
    forall i, j, x | OnList(l, i, j, x) ensures Block(x, i + MIN_ORDER) in free - {b} {
      assert OnList(lists, i, if i == idx && j >= n then j + 1 else j, x);
    }
    forall c | c in free - {b} ensures c.off in l[c.order - MIN_ORDER] {
      if c.order == b.order {
        var m := IndexOf(s, c.off);
        assert l[idx][if m < n then m else m - 1] == c.off;
      }
    }
  }

  lemma RepresentsRemoveIf(lists: seq<seq<int>>, free: set<Block>, b: Block)
    requires Represents(lists, free) && Distinct(lists) && MIN_ORDER <= b.order <= MAX_ORDER
    ensures b.off in lists[b.order - MIN_ORDER] <==> b in free
    ensures var idx := b.order - MIN_ORDER;
            b in free ==> Represents(lists[idx := Without(lists[idx], IndexOf(lists[idx], b.off))], free - {b})
  {
    var idx := b.order - MIN_ORDER;
    if b.off in lists[idx] {
      assert OnList(lists, idx, IndexOf(lists[idx], b.off), b.off);
      RepresentsRemove(lists, free, b);
    }
  }

  /** No free block starts inside a live one. */
  lemma AbsentIfLive(lists: seq<seq<int>>, h: Heap, b: Block, x: int)
    requires Represents(lists, h.free) && HeapInv(h) && b in h.live && Holds(b, x)
    ensures Absent(lists, x)
  {
    forall c | c in h.free ensures c.off != x {
      assert c in h.free + h.live && Holds(c, c.off) && Apart(b, c);
    }
    assert forall c :: c in h.free ==> c.off != x;
  }

  /** The head of a non-empty list is a free block of that order. */
  lemma HeadIsFree(lists: seq<seq<int>>, heads: seq<int>, next: map<int, int>, prev: map<int, int>, h: Heap, k: nat)
    requires LinkedLists(lists, heads, next, prev) && Represents(lists, h.free)
    requires MIN_ORDER <= k <= MAX_ORDER && heads[k - MIN_ORDER] != NULL
    ensures Block(heads[k - MIN_ORDER], k) in h.free && heads[k - MIN_ORDER] in lists[k - MIN_ORDER]
    ensures Distinct(lists)
  {
    var idx := k - MIN_ORDER;
    assert Chain(lists[idx], heads[idx], next, prev);
    assert OnList(lists, idx, 0, heads[idx]);
  }

  /** A list whose head is NULL holds no free block. */
  lemma NoHeadNoFree(lists: seq<seq<int>>, heads: seq<int>, next: map<int, int>, prev: map<int, int>, h: Heap, k: nat)
    requires LinkedLists(lists, heads, next, prev) && Represents(lists, h.free)
    requires MIN_ORDER <= k <= MAX_ORDER && heads[k - MIN_ORDER] == NULL
    ensures forall b :: b in h.free ==> b.order != k
  {
    assert Chain(lists[k - MIN_ORDER], heads[k - MIN_ORDER], next, prev);
  }

  /** Element p of a list is a free block and does not occur before p. */
  lemma NotBefore(lists: seq<seq<int>>, heads: seq<int>, next: map<int, int>, prev: map<int, int>, idx: nat, p: nat)
    requires LinkedLists(lists, heads, next, prev) && idx < |lists| && p < |lists[idx]|
    ensures lists[idx][p] !in lists[idx][..p]
  {
    forall q | 0 <= q < p ensures lists[idx][q] != lists[idx][p] { Differ(lists, idx, q, idx, p); }
  }

  lemma ListIsOrder(lists: seq<seq<int>>, free: set<Block>, k: nat, seen: set<Block>)
    requires Represents(lists, free) && MIN_ORDER <= k <= MAX_ORDER
    requires forall b :: b in seen <==> b.order == k && b.off in lists[k - MIN_ORDER]
    ensures seen == OfOrder(free, k)
  {
    var s := lists[k - MIN_ORDER];
    forall b | b in seen ensures b in free {
      assert OnList(lists, k - MIN_ORDER, IndexOf(s, b.off), b.off);
    }
  }

  /** No free block starts at the end of the managed region. */
  lemma AbsentAtEnd(lists: seq<seq<int>>, h: Heap)
    requires Represents(lists, h.free) && HeapInv(h)
    ensures Absent(lists, h.limit)
  {
    forall c | c in h.free ensures c.off != h.limit { assert c in h.free + h.live && End(c) <= h.limit; }
  }

  lemma EmptySound(lists: seq<seq<int>>, heads: seq<int>, next: map<int, int>, prev: map<int, int>, h: Heap)
    requires lists == seq(NUM_ORDERS, _ => []) && heads == seq(NUM_ORDERS, _ => NULL) && h == Heap(0, {}, {})
    ensures LinkedLists(lists, heads, next, prev) && Represents(lists, h.free) && HeapInv(h)
    ensures Aligned(0, MAX_ORDER) && Aligned(0, MIN_ORDER)
  {
    AlignedZero(MAX_ORDER);
    AlignedZero(MIN_ORDER);
  }
}

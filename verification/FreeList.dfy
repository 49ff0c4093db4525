/** The first-fit heap as the kernel keeps it: headers in the managed memory, linked by address. */
module FreeList {
  import opened FreeListSpec

  const NULL: int := -1

  datatype Header = Header(size: nat, free: bool, next: int)

  function NextOf(row: seq<Cell>, i: nat): int
    requires i < |row|
  {
    if i + 1 < |row| then Off(row, i + 1) else NULL
  }

  /** The headers written in memory spell out the row. Merged-away headers may linger. */
  ghost predicate Linked(row: seq<Cell>, h: map<int, Header>) {
    forall i :: 0 <= i < |row| ==> At(row, h, i)
  }

  ghost predicate At(row: seq<Cell>, h: map<int, Header>, i: nat)
    requires i < |row|
  {
    Off(row, i) in h && h[Off(row, i)] == Header(row[i].size, row[i].free, NextOf(row, i))
  }

  /** Following the links from the first header ends after visiting the blocks in w. */
  ghost predicate Walk(h: map<int, Header>, w: seq<int>) {
    && |w| > 0 && w[0] == 0
    && (forall k :: 0 <= k < |w| ==> w[k] in h)
    && (forall k :: 0 <= k < |w| - 1 ==> h[w[k]].next == w[k + 1])
    && h[w[|w| - 1]].next == NULL
  }

  ghost predicate NeverEnds(h: map<int, Header>) {
    forall w :: !Walk(h, w)
  }

  /** Giving back block i leaves a list with no end: it is the first of at least three, the last being free. */
  predicate Breaks(row: seq<Cell>, i: nat) {
    i == 0 && |row| >= 3 && row[|row| - 1].free
  }

  // ---------------------------------------------------------------- effect of each write

  lemma MarkLinked(row: seq<Cell>, h: map<int, Header>, i: nat, free: bool)
    requires Linked(row, h) && i < |row|
    ensures At(row, h, i)
    ensures Linked(row[i := row[i].(free := free)], h[Off(row, i) := h[Off(row, i)].(free := free)])
  {
    assert At(row, h, i);
    var t, g := row[i := row[i].(free := free)], h[Off(row, i) := h[Off(row, i)].(free := free)];
    SetOffs(row, i, free);
    forall j | 0 <= j < |t| ensures At(t, g, j) {
      assert At(row, h, j);
      if j < i { OffMono(row, j, i); }
      if i < j { OffMono(row, i, j); }
      assert NextOf(t, j) == NextOf(row, j);
    }
  }

  function Split(row: seq<Cell>, i: nat, c: Cell, d: Cell): seq<Cell>
    requires i < |row|
  {
    row[..i] + [c, d] + row[i + 1..]
  }

  /** The two header writes of a split. */
  function SplitHeaders(row: seq<Cell>, h: map<int, Header>, i: nat, c: Cell, d: Cell): map<int, Header>
    requires i < |row|
  {
    var o := Off(row, i);
    h[o + Extent(c) := Header(d.size, d.free, NextOf(row, i))][o := Header(c.size, c.free, o + Extent(c))]
  }

  lemma SplitLinked(row: seq<Cell>, h: map<int, Header>, i: nat, c: Cell, d: Cell)
    requires Linked(row, h) && i < |row| && Extent(c) + Extent(d) == Extent(row[i])
    ensures Linked(Split(row, i, c, d), SplitHeaders(row, h, i, c, d))
  {
    hide At, Split, SplitHeaders;
    var t, g := Split(row, i, c, d), SplitHeaders(row, h, i, c, d);
    forall j | 0 <= j < |t| ensures At(t, g, j) {
      if j < i {
        assert At(row, h, j);
        SplitBefore(row, h, i, c, d, j);
      } else if j > i + 1 {
        SplitLength(row, i, c, d);
        assert At(row, h, j - 1);
        SplitAfter(row, h, i, c, d, j - 1);
      } else {
        SplitHere(row, h, i, c, d);
      }
    }
  }

  lemma SplitLength(row: seq<Cell>, i: nat, c: Cell, d: Cell)
    requires i < |row|
    ensures |Split(row, i, c, d)| == |row| + 1
  {}

  lemma SplitBefore(row: seq<Cell>, h: map<int, Header>, i: nat, c: Cell, d: Cell, j: nat)
    requires j < i < |row| && At(row, h, j) && Extent(c) + Extent(d) == Extent(row[i])
    ensures |Split(row, i, c, d)| == |row| + 1 && At(Split(row, i, c, d), SplitHeaders(row, h, i, c, d), j)
  {
    assert Split(row, i, c, d)[j] == row[j];
    SplitOffs(row, i, c, d);
    OffMono(row, j, i);
  }

  lemma SplitHere(row: seq<Cell>, h: map<int, Header>, i: nat, c: Cell, d: Cell)
    requires i < |row| && Extent(c) + Extent(d) == Extent(row[i])
    ensures var t, g := Split(row, i, c, d), SplitHeaders(row, h, i, c, d);
            |t| == |row| + 1 && At(t, g, i) && At(t, g, i + 1)
  {
    var t := Split(row, i, c, d);
    assert t[i] == c && t[i + 1] == d;
    SplitOffs(row, i, c, d);
  }

  lemma SplitAfter(row: seq<Cell>, h: map<int, Header>, i: nat, c: Cell, d: Cell, j: nat)
    requires i < j < |row| && At(row, h, j) && Extent(c) + Extent(d) == Extent(row[i])
    ensures |Split(row, i, c, d)| == |row| + 1 && At(Split(row, i, c, d), SplitHeaders(row, h, i, c, d), j + 1)
  {
    assert Split(row, i, c, d)[j + 1] == row[j];
    SplitOffs(row, i, c, d);
    OffMono(row, i, j);
  }

  /** The header writes with which block i absorbs its successor. */
  function MergeHeaders(h: map<int, Header>, o: int, n: int): map<int, Header>
    requires o in h && n in h
  {
    h[o := Header(h[o].size + HEADER + h[n].size, h[o].free, h[n].next)]
  }

  lemma MergeLinked(row: seq<Cell>, h: map<int, Header>, i: nat)
    requires Linked(row, h) && i + 1 < |row|
    ensures Off(row, i) in h && Off(row, i + 1) in h
    ensures Linked(MergeNext(row, i), MergeHeaders(h, Off(row, i), Off(row, i + 1)))
  {
    hide MergeNext, MergeHeaders;
    assert At(row, h, i) && At(row, h, i + 1);
    hide At;
    MergeHere(row, h, i);
    var t, g := MergeNext(row, i), MergeHeaders(h, Off(row, i), Off(row, i + 1));
    forall j | 0 <= j < |t| ensures At(t, g, j) {
      if j < i {
        assert At(row, h, j);
        MergeBefore(row, h, i, j);
      } else if j > i {
        assert At(row, h, j + 1);
        MergeAfter(row, h, i, j);
      }
    }
  }

  lemma MergeHere(row: seq<Cell>, h: map<int, Header>, i: nat)
    requires i + 1 < |row| && At(row, h, i) && At(row, h, i + 1)
    ensures |MergeNext(row, i)| == |row| - 1
    ensures At(MergeNext(row, i), MergeHeaders(h, Off(row, i), Off(row, i + 1)), i)
  {
    MergeOffs(row, i);
  }

  lemma MergeBefore(row: seq<Cell>, h: map<int, Header>, i: nat, j: nat)
    requires j < i < |row| - 1 && At(row, h, i) && At(row, h, i + 1) && At(row, h, j)
    ensures |MergeNext(row, i)| == |row| - 1
    ensures At(MergeNext(row, i), MergeHeaders(h, Off(row, i), Off(row, i + 1)), j)
  {
    assert MergeNext(row, i)[j] == row[j];
    MergeOffs(row, i);
    OffMono(row, j, i);
  }

  lemma MergeAfter(row: seq<Cell>, h: map<int, Header>, i: nat, j: nat)
    requires i < j < |row| - 1 && At(row, h, i) && At(row, h, i + 1) && At(row, h, j + 1)
    ensures |MergeNext(row, i)| == |row| - 1
    ensures At(MergeNext(row, i), MergeHeaders(h, Off(row, i), Off(row, i + 1)), j)
  {
    assert MergeNext(row, i)[j] == row[j + 1];
    MergeOffs(row, i);
    OffMono(row, i, j + 1);
  }

  // ---------------------------------------------------------------- when the list has an end

  /** The offsets of the blocks, in order. */
  ghost function Offsets(row: seq<Cell>): seq<int> {
    seq(|row|, i requires 0 <= i < |row| => Off(row, i))
  }

  /** A list that spells out a row can be walked to its end, visiting the blocks in address order. */
  lemma LinkedWalks(row: seq<Cell>, h: map<int, Header>)
    requires Linked(row, h) && |row| > 0
    ensures Walk(h, Offsets(row))
  {
    var w := Offsets(row);
    forall k | 0 <= k < |w| ensures w[k] in h && h[w[k]].next == NextOf(row, k) {
      assert At(row, h, k);
    }
  }

  /** Every block of the row has a successor, and the successor is in the row. */
  ghost predicate Endless(row: seq<Cell>, h: map<int, Header>) {
    forall i :: 0 <= i < |row| ==> Off(row, i) in h && Starts(row, h[Off(row, i)].next)
  }

  ghost predicate Starts(row: seq<Cell>, o: int) {
    exists i :: 0 <= i < |row| && Off(row, i) == o
  }

  lemma {:induction false} EndlessWalk(row: seq<Cell>, h: map<int, Header>, w: seq<int>, k: nat)
    requires Endless(row, h) && |row| > 0 && k < |w| && w[0] == 0
    requires forall j :: 0 <= j < |w| ==> w[j] in h
    requires forall j :: 0 <= j < |w| - 1 ==> h[w[j]].next == w[j + 1]
    ensures Starts(row, w[k]) && h[w[k]].next >= 0
  {
    if k == 0 {
      assert Off(row, 0) == w[0];
    } else {
      EndlessWalk(row, h, w, k - 1);
      var i :| 0 <= i < |row| && Off(row, i) == w[k - 1];
      assert Starts(row, h[Off(row, i)].next);
    }
    var i :| 0 <= i < |row| && Off(row, i) == w[k];
    assert Starts(row, h[Off(row, i)].next);
  }

  lemma EndlessNeverEnds(row: seq<Cell>, h: map<int, Header>, w: seq<int>)
    requires Endless(row, h) && |row| > 0
    ensures !Walk(h, w)
  {
    if Walk(h, w) {
      EndlessWalk(row, h, w, |w| - 1);
      assert false;
    }
  }

  /** Linking the last block back to the second leaves a list without end. */
  lemma LoopIsEndless(row: seq<Cell>, h: map<int, Header>, size: nat)
    requires Linked(row, h) && |row| > 1
    ensures var last := Off(row, |row| - 1);
            Endless(row, h[last := Header(size, true, NextOf(row, 0))])
  {
    var z := |row| - 1;
    var last := Off(row, z);
    var g := h[last := Header(size, true, NextOf(row, 0))];
    forall i | 0 <= i < |row| ensures Off(row, i) in g && Starts(row, g[Off(row, i)].next) {
      assert At(row, h, i);
      if i < z {
        OffMono(row, i, z);
        assert Off(row, i + 1) == g[Off(row, i)].next;
      } else {
        assert Off(row, 1) == g[Off(row, i)].next;
      }
    }
  }

  lemma LoopNeverEnds(row: seq<Cell>, h: map<int, Header>, size: nat)
    requires Linked(row, h) && |row| > 1
    ensures NeverEnds(h[Off(row, |row| - 1) := Header(size, true, NextOf(row, 0))])
  {
    var g := h[Off(row, |row| - 1) := Header(size, true, NextOf(row, 0))];
    LoopIsEndless(row, h, size);
    forall w ensures !Walk(g, w) { EndlessNeverEnds(row, g, w); }
  }

  lemma LinkedAt(row: seq<Cell>, h: map<int, Header>, i: nat)
    requires Linked(row, h) && i < |row|
    ensures At(row, h, i)
  {}

  class FreeListHeap {
    const heapSize: nat
    var headers: map<int, Header>
    ghost var row: seq<Cell>

    ghost predicate Valid()
      reads this
    {
      && HEADER <= heapSize < WORD - HEADER - MIN_BLOCK_SIZE
      && RowOk(row, heapSize) && Linked(row, headers)
    }

    constructor (heapSize: nat)
      requires HEADER <= heapSize < WORD - HEADER - MIN_BLOCK_SIZE
      ensures Valid() && this.heapSize == heapSize
      ensures row == [Cell(heapSize - HEADER, true)]
    {
      this.heapSize := heapSize;
      headers := map[0 := Header(heapSize - HEADER, true, NULL)];
      row := [Cell(heapSize - HEADER, true)];
      assert Off([Cell(heapSize - HEADER, true)], 1) == heapSize;
    }

    method Alloc(request: nat) returns (p: int)
      requires Valid() && request < WORD
      modifies this
      ensures Valid()
      ensures p == NULL <==> request == 0 || !HasRoom(old(row), RoundUp(request))
      ensures p == NULL ==> row == old(row)
      ensures p != NULL ==>
                var i := FirstFit(old(row), RoundUp(request), 0);
                && i < |old(row)| && row == TakeAt(old(row), i, RoundUp(request))
                && p == Off(row, i) + HEADER
                && i < |row| && row[i].size == if old(row)[i].size >= RoundUp(request) + 32 then RoundUp(request) else old(row)[i].size
    {
      p := NULL;
      if request == 0 { return; }
      var size := RoundUp(request);
      FitIffRoom(row, heapSize, size);
      var current := 0;
      ghost var i: nat := 0;
      while current != NULL
        invariant headers == old(headers) && row == old(row)
        invariant i <= |row| && current == if i < |row| then Off(row, i) else NULL
        invariant FirstFit(row, size, 0) == FirstFit(row, size, i)
        decreases |row| - i
      {
        assert At(row, headers, i);
        if headers[current].free && headers[current].size >= size {
          TakeServes(row, i, size, 0, 0);
          p := Occupy(current, i, size);
          return;
        }
        current := headers[current].next;
        i := i + 1;
      }
    }

    /** Take the front of the free block at offset current, number i of the row. */
    method Occupy(current: int, ghost i: nat, size: nat) returns (p: int)
      requires Valid() && i < |row| && current == Off(row, i)
      requires row[i].free && row[i].size >= size
      modifies this
      ensures Valid() && row == TakeAt(old(row), i, size)
      ensures p == Off(row, i) + HEADER
    {
      assert At(row, headers, i);
      ghost var t := TakeAt(row, i, size);
      TakeKeeps(row, heapSize, i, size);
      if headers[current].size >= size + HEADER + MIN_BLOCK_SIZE {
        ghost var c, d := Cell(size, true), Cell(row[i].size - size - HEADER, true);
        SplitLinked(row, headers, i, c, d);
        SplitOffs(row, i, c, d);
        var second := current + HEADER + size;
        headers := headers[second := Header(headers[current].size - size - HEADER, true, headers[current].next)];
        headers := headers[current := Header(size, headers[current].free, second)];
        row := Split(row, i, c, d);
      }
      MarkLinked(row, headers, i, false);
      SetOffs(row, i, false);
      headers := headers[current := headers[current].(free := false)];
      row := row[i := row[i].(free := false)];
      assert row == t;
      p := current + HEADER;
    }

    /** Mark block i free and absorb its successor if that is free. */
    method JoinNext(block: int, ghost i: nat)
      requires Linked(row, headers) && i < |row| && block == Off(row, i)
      modifies this
      ensures row == MergeForward(old(row), i) && Linked(row, headers) && block == Off(row, i)
    {
      MarkLinked(row, headers, i, true);
      SetOffs(row, i, true);
      headers := headers[block := headers[block].(free := true)];
      row := row[i := row[i].(free := true)];
      assert At(row, headers, i);
      var next := headers[block].next;
      assert i + 1 < |row| ==> At(row, headers, i + 1);
      if next != NULL && headers[next].free {
        MergeLinked(row, headers, i);
        MergeOffs(row, i);
        OffMono(row, i, i + 1);
        ghost var h := headers;
        headers := headers[block := headers[block].(size := headers[block].size + HEADER + headers[next].size)];
        headers := headers[block := headers[block].(next := headers[next].next)];
        assert headers == h[block := Header(h[block].size + HEADER + h[next].size, h[block].free, h[next].next)];
        row := MergeNext(row, i);
      }
    }

    /** The block before block i or, when there is none, the last block. */
    method LastBefore(block: int, ghost i: nat) returns (prev: int, ghost k: nat)
      requires Linked(row, headers) && i < |row| && block == Off(row, i)
      ensures k == (if i > 0 then i - 1 else |row| - 1) && prev == Off(row, k)
    {
      prev, k := 0, 0;
      assert At(row, headers, 0);
      while headers[prev].next != NULL && headers[prev].next != block
        invariant k < |row| && prev == Off(row, k) && At(row, headers, k)
        invariant i > 0 ==> k < i
        decreases |row| - k
      {
        prev, k := headers[prev].next, k + 1;
        assert At(row, headers, k);
      }
      if k + 1 < |row| && k + 1 < i { OffMono(row, k + 1, i); }
    }

    /** Let the block at prev absorb the one at block, unless they are the same or prev is in use. */
    method JoinPrevious(prev: int, block: int, ghost k: nat, ghost i: nat)
      requires Linked(row, headers) && i < |row| && block == Off(row, i)
      requires k == (if i > 0 then i - 1 else |row| - 1) && prev == Off(row, k)
      modifies this
      ensures i > 0 ==> row == if old(row)[i - 1].free then MergeNext(old(row), i - 1) else old(row)
      ensures i == 0 ==> row == old(row)
      ensures if i == 0 && |row| > 1 && row[|row| - 1].free
              then NeverEnds(headers)
              else Linked(row, headers)
    {
      hide Linked, MergeNext, NeverEnds;
      LinkedAt(row, headers, i);
      LinkedAt(row, headers, k);
      if k < i { OffMono(row, k, i); }
      if i < k { OffMono(row, i, k); }
      if prev != block && headers[prev].free {
        ghost var h, size := headers, headers[prev].size + HEADER + headers[block].size;
        headers := headers[prev := headers[prev].(size := headers[prev].size + HEADER + headers[block].size)];
        headers := headers[prev := headers[prev].(next := headers[block].next)];
        assert headers == h[prev := Header(size, true, h[block].next)];
        if i > 0 {
          MergeLinked(row, h, k);
          row := MergeNext(row, k);
        } else {
          LoopNeverEnds(row, h, size);
        }
      }
    }

    /** Give back the block whose payload starts at p, number i of the row. */
    method Free(p: int, ghost i: nat)
      requires Valid()
      requires 0 <= p < heapSize ==> i < |row| && p == Off(row, i) + HEADER
      modifies this
      ensures !(0 <= p < heapSize) || old(row)[i].free ==> Valid() && row == old(row)
      ensures 0 <= p < heapSize && !old(row)[i].free ==>
                if Breaks(old(row), i)
                then NeverEnds(headers)
                else Valid() && row == FreeAt(old(row), i)
    {
      if p == NULL { return; }
      if p < 0 || p >= heapSize { return; }
      var block := p - HEADER;
      assert At(row, headers, i);
      if headers[block].free { return; }
      FreeKeeps(row, heapSize, i);
      LastAfterMerge(row);
      JoinNext(block, i);
      var prev, k := LastBefore(block, i);
      JoinPrevious(prev, block, k, i);
    }

    /** Total heap size, payload bytes in use and payload bytes free. */
    method Info() returns (total: nat, used: nat, available: nat)
      requires Valid()
      ensures total == heapSize && used == Used(row, |row|) && available == Available(row, |row|)
      ensures used + available + HEADER * |row| == total
    {
      total, used, available := heapSize, 0, 0;
      var current := 0;
      ghost var i: nat := 0;
      while current != NULL
        invariant i <= |row| && current == if i < |row| then Off(row, i) else NULL
        invariant used == Used(row, i) && available == Available(row, i)
        decreases |row| - i
      {
        assert At(row, headers, i);
        if headers[current].free {
          available := available + headers[current].size;
        } else {
          used := used + headers[current].size;
        }
        current := headers[current].next;
        i := i + 1;
      }
      BytesAddUp(row, |row|);
    }
  }

  /** Whether the search for a predecessor of the first block stops at another, free block. */
  lemma LastAfterMerge(row: seq<Cell>)
    requires |row| > 0
    ensures var a := MergeForward(row, 0);
            Breaks(row, 0) <==> |a| > 1 && a[|a| - 1].free
  {
    var b := row[0 := row[0].(free := true)];
    if |b| > 1 && b[1].free {
      assert |b| > 2 ==> MergeNext(b, 0)[|b| - 2] == row[|row| - 1];
    }
  }

  /** Two allocations from a fresh heap, then giving back the first. */
  lemma BreaksInThreeCalls(heapSize: nat)
    requires heapSize >= 3 * (HEADER + MIN_BLOCK_SIZE)
    ensures var one := TakeAt([Cell(heapSize - HEADER, true)], 0, MIN_BLOCK_SIZE);
            && |one| == 2 && FirstFit(one, MIN_BLOCK_SIZE, 0) == 1
            && var two := TakeAt(one, 1, MIN_BLOCK_SIZE);
               |two| == 3 && !two[0].free && !two[1].free && Breaks(two, 0)
  {
    var one := TakeAt([Cell(heapSize - HEADER, true)], 0, MIN_BLOCK_SIZE);
    assert one == [Cell(MIN_BLOCK_SIZE, false), Cell(heapSize - 2 * HEADER - MIN_BLOCK_SIZE, true)];
    assert FirstFit(one, MIN_BLOCK_SIZE, 0) == FirstFit(one, MIN_BLOCK_SIZE, 1) == 1;
    assert TakeAt(one, 1, MIN_BLOCK_SIZE)
        == [one[0], Cell(MIN_BLOCK_SIZE, false), Cell(heapSize - 3 * HEADER - 2 * MIN_BLOCK_SIZE, true)];
  }
}

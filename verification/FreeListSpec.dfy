/** The first-fit heap on values: the row of blocks that covers the heap. */
module FreeListSpec {

  const HEADER: nat := 24         // bytes of a block header
  const MIN_BLOCK_SIZE: nat := 8  // smallest payload worth splitting off

  const WORD: nat := 0x1_0000_0000_0000_0000

  datatype Cell = Cell(size: nat, free: bool)

  /** Bytes of a block, header included. */
  function Extent(c: Cell): nat {
    HEADER + c.size
  }

  /** Offset of block i, the blocks being laid out one after the other from offset 0. */
  function Off(row: seq<Cell>, i: nat): nat
    requires i <= |row|
  {
    if i == 0 then 0 else Off(row, i - 1) + Extent(row[i - 1])
  }

  /** No two neighbouring free blocks. */
  predicate Coalesced(row: seq<Cell>) {
    forall i :: 0 <= i < |row| - 1 ==> !(row[i].free && row[i + 1].free)
  }

  /** The row covers the heap exactly and is coalesced. */
  ghost predicate RowOk(row: seq<Cell>, heapSize: nat) {
    |row| > 0 && Off(row, |row|) == heapSize && Coalesced(row)
  }

  /** The request rounded up to a multiple of 8 in 64-bit arithmetic: it is the least such multiple,
      unless the addition wraps around to zero. */
  function RoundUp(size: nat): (r: nat)
    requires size < WORD
    ensures r % 8 == 0 && (r >= size <==> size <= WORD - 8) && r < size + 8
    ensures size > WORD - 8 ==> r == 0
  {
    (size + 7) % WORD / 8 * 8
  }

  function FirstFit(row: seq<Cell>, size: nat, from: nat): (i: nat)
    requires from <= |row|
    ensures from <= i <= |row|
    ensures i < |row| ==> row[i].free && row[i].size >= size
    ensures forall j :: from <= j < i ==> !(row[j].free && row[j].size >= size)
    decreases |row| - from
  {
    if from == |row| then from
    else if row[from].free && row[from].size >= size then from
    else FirstFit(row, size, from + 1)
  }

  /** Take the front of free block i, splitting off the rest when it is large enough. */
  function TakeAt(row: seq<Cell>, i: nat, size: nat): seq<Cell>
    requires i < |row| && row[i].size >= size
  {
    if row[i].size >= size + HEADER + MIN_BLOCK_SIZE
    then row[..i] + [Cell(size, false), Cell(row[i].size - size - HEADER, true)] + row[i + 1..]
    else row[i := Cell(row[i].size, false)]
  }

  function MergeNext(row: seq<Cell>, i: nat): seq<Cell>
    requires i + 1 < |row|
  {
    row[..i] + [Cell(row[i].size + Extent(row[i + 1]), row[i].free)] + row[i + 2..]
  }

  /** Give block i back and merge it with its free neighbours. */
  function FreeAt(row: seq<Cell>, i: nat): seq<Cell>
    requires i < |row|
  {
    var a := MergeForward(row, i);
    if i > 0 && a[i - 1].free then MergeNext(a, i - 1) else a
  }

  function MergeForward(row: seq<Cell>, i: nat): (r: seq<Cell>)
    requires i < |row|
    ensures i < |r|
  {
    var a := row[i := row[i].(free := true)];
    if i + 1 < |a| && a[i + 1].free then MergeNext(a, i) else a
  }

  // ---------------------------------------------------------------- offsets

  lemma {:induction false} OffPrefix(r: seq<Cell>, t: seq<Cell>, i: nat)
    requires i <= |r| && i <= |t| && r[..i] == t[..i]
    ensures Off(r, i) == Off(t, i)
  {
    if i > 0 {
      assert r[..i - 1] == r[..i][..i - 1] && t[..i - 1] == t[..i][..i - 1];
      assert r[i - 1] == r[..i][i - 1] && t[i - 1] == t[..i][i - 1];
      OffPrefix(r, t, i - 1);
    }
  }

  lemma {:induction false} OffShift(r: seq<Cell>, i: nat, t: seq<Cell>, j: nat, k: nat)
    requires i + k <= |r| && j + k <= |t| && Off(r, i) == Off(t, j)
    requires r[i..] == t[j..]
    ensures Off(r, i + k) == Off(t, j + k)
  {
    if k > 0 {
      var n := k - 1;
      assert r[i + n] == r[i..][n] && t[j + n] == t[j..][n];
      OffShift(r, i, t, j, n);
    }
  }

  lemma {:induction false} OffMono(row: seq<Cell>, i: nat, j: nat)
    requires i < j <= |row|
    ensures Off(row, i) + Extent(row[i]) <= Off(row, j)
  {
    if i + 1 < j { OffMono(row, i, j - 1); }
  }

  /** Replacing block i by two whose extents add up. */
  lemma SplitOffs(row: seq<Cell>, i: nat, c: Cell, d: Cell)
    requires i < |row| && Extent(c) + Extent(d) == Extent(row[i])
    ensures var t := row[..i] + [c, d] + row[i + 1..];
            && |t| == |row| + 1
            && (forall j :: 0 <= j <= i ==> Off(t, j) == Off(row, j))
            && Off(t, i + 1) == Off(row, i) + Extent(c)
            && (forall j :: i < j <= |row| ==> Off(t, j + 1) == Off(row, j))
  {
    var t := row[..i] + [c, d] + row[i + 1..];
    forall j | 0 <= j <= i ensures Off(t, j) == Off(row, j) {
      assert t[..j] == row[..j];
      OffPrefix(t, row, j);
    }
    assert t[i] == c && t[i + 1] == d;
    assert Off(t, i + 2) == Off(row, i + 1);
    assert t[i + 2..] == row[i + 1..];
    forall j | i < j <= |row| ensures Off(t, j + 1) == Off(row, j) {
      OffShift(row, i + 1, t, i + 2, j - i - 1);
    }
  }

  lemma MergeOffs(row: seq<Cell>, i: nat)
    requires i + 1 < |row|
    ensures var t := MergeNext(row, i);
            && |t| == |row| - 1
            && (forall j :: 0 <= j <= i ==> Off(t, j) == Off(row, j))
            && (forall j :: i < j <= |t| ==> Off(t, j) == Off(row, j + 1))
  {
    var t := MergeNext(row, i);
    forall j | 0 <= j <= i ensures Off(t, j) == Off(row, j) {
      assert t[..j] == row[..j];
      OffPrefix(t, row, j);
    }
    assert Off(t, i + 1) == Off(row, i + 2);
    assert t[i + 1..] == row[i + 2..];
    forall j | i < j <= |t| ensures Off(t, j) == Off(row, j + 1) {
      OffShift(t, i + 1, row, i + 2, j - i - 1);
    }
  }

  lemma SetOffs(row: seq<Cell>, i: nat, free: bool)
    requires i < |row|
    ensures var t := row[i := row[i].(free := free)];
            forall j :: 0 <= j <= |row| ==> Off(t, j) == Off(row, j)
  {
    var t := row[i := row[i].(free := free)];
    forall j | 0 <= j <= |row| ensures Off(t, j) == Off(row, j) { SameSizes(row, t, j); }
  }

  lemma {:induction false} SameSizes(row: seq<Cell>, t: seq<Cell>, j: nat)
    requires |t| == |row| && j <= |row| && forall k :: 0 <= k < |row| ==> t[k].size == row[k].size
    ensures Off(t, j) == Off(row, j)
  {
    if j > 0 { SameSizes(row, t, j - 1); }
  }

  // ---------------------------------------------------------------- what the operations keep

  lemma TakeKeeps(row: seq<Cell>, heapSize: nat, i: nat, size: nat)
    requires RowOk(row, heapSize) && i < |row| && row[i].free && row[i].size >= size
    ensures RowOk(TakeAt(row, i, size), heapSize)
  {
    if row[i].size >= size + HEADER + MIN_BLOCK_SIZE {
      var c, d := Cell(size, false), Cell(row[i].size - size - HEADER, true);
      SplitOffs(row, i, c, d);
      var t := row[..i] + [c, d] + row[i + 1..];
      forall j | 0 <= j < |t| - 1 ensures !(t[j].free && t[j + 1].free) {
        if j > i + 1 { assert t[j] == row[j - 1] && t[j + 1] == row[j]; }
        if j == i + 1 { assert t[j + 1] == row[i + 1]; }
      }
    } else {
      SetOffs(row, i, false);
    }
  }

  /** Apart from block i and its neighbours the row is coalesced. */
  ghost predicate CoalescedBut(row: seq<Cell>, i: nat) {
    forall j :: 0 <= j < |row| - 1 && j != i && j + 1 != i ==> !(row[j].free && row[j + 1].free)
  }

  lemma ForwardKeeps(row: seq<Cell>, heapSize: nat, i: nat)
    requires RowOk(row, heapSize) && i < |row|
    ensures var a := MergeForward(row, i);
            && 0 < |a| && Off(a, |a|) == heapSize && CoalescedBut(a, i) && a[i].free
            && (i + 1 < |a| ==> !a[i + 1].free)
            && a[..i] == row[..i]
  {
    var b := row[i := row[i].(free := true)];
    SetOffs(row, i, true);
    assert CoalescedBut(b, i);
    if i + 1 < |b| && b[i + 1].free {
      MergeOffs(b, i);
      var a := MergeNext(b, i);
      assert forall j :: i < j < |a| ==> a[j] == row[j + 1];
    }
  }

  lemma FreeKeeps(row: seq<Cell>, heapSize: nat, i: nat)
    requires RowOk(row, heapSize) && i < |row|
    ensures RowOk(FreeAt(row, i), heapSize)
  {
    hide MergeForward, MergeNext;
    var a := MergeForward(row, i);
    ForwardKeeps(row, heapSize, i);
    assert forall j :: 0 <= j < i ==> a[j] == a[..i][j] == row[j];
    if i > 0 && a[i - 1].free {
      MergeOffs(a, i - 1);
      BackwardKeeps(a, i);
    }
  }

  lemma BackwardKeeps(a: seq<Cell>, i: nat)
    requires 0 < i < |a| && CoalescedBut(a, i)
    requires i + 1 < |a| ==> !a[i + 1].free
    requires i >= 2 ==> !a[i - 2].free
    ensures Coalesced(MergeNext(a, i - 1))
  {
    var t := MergeNext(a, i - 1);
    forall j | 0 <= j < |t| - 1 ensures !(t[j].free && t[j + 1].free) {
      if j < i - 1 {
        assert t[j] == a[j] && (j + 1 < i - 1 ==> t[j + 1] == a[j + 1]);
      } else {
        assert t[j + 1] == a[j + 2] && (j > i - 1 ==> t[j] == a[j + 1]);
      }
    }
  }

  /** Allocating and freeing again restores the row. */
  lemma TakeThenFree(row: seq<Cell>, heapSize: nat, i: nat, size: nat)
    requires RowOk(row, heapSize) && i < |row| && row[i].free && row[i].size >= size
    ensures FreeAt(TakeAt(row, i, size), i) == row
  {
    var t := TakeAt(row, i, size);
    var a := MergeForward(t, i);
    if row[i].size >= size + HEADER + MIN_BLOCK_SIZE {
      assert t[i] == Cell(size, false) && t[i + 1] == Cell(row[i].size - size - HEADER, true);
      assert t[..i] == row[..i] && t[i + 2..] == row[i + 1..];
      assert a == row;
    } else {
      assert i + 1 < |row| ==> !row[i + 1].free;
      assert a == row;
    }
    assert i > 0 ==> !row[i - 1].free;
  }

  // ---------------------------------------------------------------- the blocks in use

  /** A block in use starts at offset o and has s payload bytes. */
  ghost predicate Live(row: seq<Cell>, o: int, s: nat) {
    exists i :: LiveAt(row, o, s, i)
  }

  ghost predicate LiveAt(row: seq<Cell>, o: int, s: nat, i: nat) {
    i < |row| && row[i] == Cell(s, false) && Off(row, i) == o
  }

  /** Marking block i changes the blocks in use by block i. */
  lemma MarkLive(row: seq<Cell>, i: nat, free: bool, o: int, s: nat)
    requires i < |row|
    ensures var t := row[i := row[i].(free := free)];
            if o == Off(row, i) then Live(t, o, s) <==> !free && s == row[i].size
            else Live(t, o, s) <==> Live(row, o, s)
  {
    var t := row[i := row[i].(free := free)];
    SetOffs(row, i, free);
    forall j: nat | j < |row| ensures Off(row, j) == Off(row, i) ==> j == i {
      if j < i { OffMono(row, j, i); }
      if i < j { OffMono(row, i, j); }
    }
    if Live(t, o, s) {
      var j: nat :| LiveAt(t, o, s, j);
      assert j != i ==> LiveAt(row, o, s, j);
    }
    if Live(row, o, s) && o != Off(row, i) {
      var j: nat :| LiveAt(row, o, s, j);
      assert LiveAt(t, o, s, j);
    }
    if o == Off(row, i) && !free && s == row[i].size { assert LiveAt(t, o, s, i); }
  }

  /** Splitting a free block into free blocks leaves the blocks in use alone. */
  lemma SplitLive(row: seq<Cell>, i: nat, c: Cell, d: Cell, o: int, s: nat)
    requires i < |row| && Extent(c) + Extent(d) == Extent(row[i]) && row[i].free && c.free && d.free
    ensures Live(row[..i] + [c, d] + row[i + 1..], o, s) <==> Live(row, o, s)
  {
    var t := row[..i] + [c, d] + row[i + 1..];
    SplitOffs(row, i, c, d);
    if Live(t, o, s) {
      var j: nat :| LiveAt(t, o, s, j);
      assert j != i && j != i + 1;
      assert LiveAt(row, o, s, if j < i then j else j - 1);
    }
    if Live(row, o, s) {
      var j: nat :| LiveAt(row, o, s, j);
      assert LiveAt(t, o, s, if j < i then j else j + 1);
    }
  }

  /** Merging two free blocks leaves the blocks in use alone. */
  lemma MergeLive(row: seq<Cell>, i: nat, o: int, s: nat)
    requires i + 1 < |row| && row[i].free && row[i + 1].free
    ensures Live(MergeNext(row, i), o, s) <==> Live(row, o, s)
  {
    var t := MergeNext(row, i);
    MergeOffs(row, i);
    if Live(t, o, s) {
      var j: nat :| LiveAt(t, o, s, j);
      assert LiveAt(row, o, s, if j < i then j else j + 1);
    }
    if Live(row, o, s) {
      var j: nat :| LiveAt(row, o, s, j);
      assert LiveAt(t, o, s, if j < i then j else j - 1);
    }
  }

  /** Allocation puts one block into use and disturbs no other: the front of the chosen block when at
      least 32 bytes are left for a new free one, the whole of it otherwise. */
  lemma TakeServes(row: seq<Cell>, i: nat, size: nat, o: int, s: nat)
    requires i < |row| && row[i].free && row[i].size >= size
    ensures var t, splits := TakeAt(row, i, size), row[i].size >= size + 32;
            && |t| == |row| + (if splits then 1 else 0)
            && t[i].size == (if splits then size else row[i].size)
            && (splits ==> t[i + 1] == Cell(row[i].size - size - 24, true))
            && (Live(t, o, s) <==> if o == Off(row, i) then s == t[i].size else Live(row, o, s))
  {
    var t := TakeAt(row, i, size);
    if row[i].size >= size + HEADER + MIN_BLOCK_SIZE {
      var c, d := Cell(size, true), Cell(row[i].size - size - HEADER, true);
      var u := row[..i] + [c, d] + row[i + 1..];
      SplitLive(row, i, c, d, o, s);
      SplitOffs(row, i, c, d);
      MarkLive(u, i, false, o, s);
      assert t == u[i := u[i].(free := false)];
    } else {
      MarkLive(row, i, false, o, s);
    }
  }

  /** Freeing removes that block from the blocks in use and disturbs no other. */
  lemma FreeReleases(row: seq<Cell>, i: nat, o: int, s: nat)
    requires i < |row|
    ensures Live(FreeAt(row, i), o, s) <==> Live(row, o, s) && o != Off(row, i)
  {
    var b := row[i := row[i].(free := true)];
    MarkLive(row, i, true, o, s);
    var a := MergeForward(row, i);
    if i + 1 < |b| && b[i + 1].free { MergeLive(b, i, o, s); }
    assert a[i].free;
    if i > 0 && a[i - 1].free { MergeLive(a, i - 1, o, s); }
  }

  // ---------------------------------------------------------------- sizes and alignment

  /** Every block has at least 8 payload bytes. */
  ghost predicate Roomy(row: seq<Cell>) {
    forall i :: 0 <= i < |row| ==> row[i].size >= 8
  }

  /** Allocation keeps blocks from getting too small exactly when the rounded request is not zero, as
      it is when the rounding wraps around, or the block is not split. */
  lemma TakeRoomyIff(row: seq<Cell>, i: nat, request: nat)
    requires request < WORD && i < |row| && row[i].free && row[i].size >= RoundUp(request) && Roomy(row) && request > 0
    ensures Roomy(TakeAt(row, i, RoundUp(request))) <==> request <= WORD - 8 || row[i].size < 32
  {
    var size := RoundUp(request);
    var t := TakeAt(row, i, size);
    if row[i].size >= size + 32 {
      assert t[i].size == size && t[i + 1].size == row[i].size - size - 24;
      assert forall j :: i + 1 < j < |t| ==> t[j] == row[j - 1];
    }
  }

  lemma MergeRoomy(row: seq<Cell>, i: nat)
    requires i + 1 < |row| && Roomy(row)
    ensures Roomy(MergeNext(row, i))
  {
  }

  lemma FreeRoomy(row: seq<Cell>, i: nat)
    requires i < |row| && Roomy(row)
    ensures Roomy(FreeAt(row, i))
  {
    var b := row[i := row[i].(free := true)];
    assert Roomy(b);
    if i + 1 < |b| { MergeRoomy(b, i); }
    var a := MergeForward(row, i);
    assert Roomy(a);
    if i > 0 { MergeRoomy(a, i - 1); }
  }

  /** Every block starts at a multiple of 8, and so does its payload. */
  ghost predicate Aligned(row: seq<Cell>) {
    forall i :: 0 <= i < |row| ==> Off(row, i) % 8 == 0
  }

  lemma TakeAligned(row: seq<Cell>, i: nat, size: nat)
    requires i < |row| && row[i].size >= size && size % 8 == 0 && Aligned(row)
    ensures Aligned(TakeAt(row, i, size))
  {
    var t := TakeAt(row, i, size);
    if row[i].size >= size + HEADER + MIN_BLOCK_SIZE {
      SplitOffs(row, i, Cell(size, false), Cell(row[i].size - size - HEADER, true));
      forall j | 0 <= j < |t| ensures Off(t, j) % 8 == 0 {
        if j > i + 1 { assert Off(t, j) == Off(row, j - 1); }
        if j == i + 1 { assert Off(t, j) == Off(row, i) + HEADER + size; }
      }
    } else {
      SetOffs(row, i, false);
    }
  }

  lemma MergeAligned(row: seq<Cell>, i: nat)
    requires i + 1 < |row| && Aligned(row)
    ensures Aligned(MergeNext(row, i))
  {
    MergeOffs(row, i);
  }

  lemma FreeAligned(row: seq<Cell>, i: nat)
    requires i < |row| && Aligned(row)
    ensures Aligned(FreeAt(row, i))
  {
    var b := row[i := row[i].(free := true)];
    SetOffs(row, i, true);
    assert Aligned(b);
    if i + 1 < |b| { MergeAligned(b, i); }
    var a := MergeForward(row, i);
    assert Aligned(a);
    if i > 0 { MergeAligned(a, i - 1); }
  }

  /** One call of the allocator: a refusal, an allocation whose rounding does not wrap around, or a
      release. */
  ghost predicate RowStep(before: seq<Cell>, after: seq<Cell>) {
    || after == before
    || (exists request :: Serves(before, after, request))
    || (exists i :: Releases(before, after, i))
  }

  ghost predicate Serves(before: seq<Cell>, after: seq<Cell>, request: nat) {
    && 0 < request <= WORD - 8
    && var size, i := RoundUp(request), FirstFit(before, RoundUp(request), 0);
       i < |before| && after == TakeAt(before, i, size)
  }

  ghost predicate Releases(before: seq<Cell>, after: seq<Cell>, i: nat) {
    i < |before| && !before[i].free && after == FreeAt(before, i)
  }

  ghost predicate RowGood(row: seq<Cell>, heapSize: nat) {
    RowOk(row, heapSize) && Roomy(row) && Aligned(row)
  }

  lemma StepGood(before: seq<Cell>, after: seq<Cell>, heapSize: nat)
    requires RowGood(before, heapSize) && RowStep(before, after)
    ensures RowGood(after, heapSize)
  {
    hide TakeAt, FreeAt, RowOk, Roomy, Aligned;
    if request :| Serves(before, after, request) {
      var size := RoundUp(request);
      var i := FirstFit(before, size, 0);
      TakeKeeps(before, heapSize, i, size);
      TakeRoomyIff(before, i, request);
      TakeAligned(before, i, size);
    } else if i :| Releases(before, after, i) {
      FreeKeeps(before, heapSize, i);
      FreeRoomy(before, i);
      FreeAligned(before, i);
    }
  }

  /** On every run from a fresh heap of at least 32 bytes the blocks cover the heap, no two free ones
      are neighbours, none has fewer than 8 payload bytes and all payloads are aligned to 8. */
  lemma {:induction false} RunGood(rows: seq<seq<Cell>>, heapSize: nat, n: nat)
    requires n < |rows| && heapSize >= 32 && rows[0] == [Cell(heapSize - 24, true)]
    requires forall k :: 0 <= k < |rows| - 1 ==> RowStep(rows[k], rows[k + 1])
    ensures RowGood(rows[n], heapSize)
  {
    if n == 0 {
      assert Off(rows[0], 1) == heapSize;
    } else {
      hide RowStep, RowGood;
      RunGood(rows, heapSize, n - 1);
      assert RowStep(rows[n - 1], rows[n - 1 + 1]);
      StepGood(rows[n - 1], rows[n], heapSize);
    }
  }

  // ---------------------------------------------------------------- completeness

  /** Byte x belongs to a free block, header included. */
  ghost predicate FreeByte(row: seq<Cell>, x: int) {
    exists i :: 0 <= i < |row| && row[i].free && Off(row, i) <= x < Off(row, i) + Extent(row[i])
  }

  /** Somewhere there is free room for a block with this payload. */
  ghost predicate HasRoom(row: seq<Cell>, size: nat) {
    var len := HEADER + size;
    exists a :: FreeRun(row, a, len)
  }

  ghost predicate FreeRun(row: seq<Cell>, a: int, len: nat) {
    forall x :: a <= x < a + len ==> FreeByte(row, x)
  }

  /** First fit fails exactly when no contiguous free run is long enough. */
  lemma FitIffRoom(row: seq<Cell>, heapSize: nat, size: nat)
    requires RowOk(row, heapSize)
    ensures FirstFit(row, size, 0) < |row| <==> HasRoom(row, size)
  {
    var i := FirstFit(row, size, 0);
    if i < |row| {
      assert FreeRun(row, Off(row, i), HEADER + size);
    }
    if HasRoom(row, size) {
      var a :| FreeRun(row, a, HEADER + size);
      RunInOneBlock(row, a, HEADER + size);
    }
  }

  /** A free run lies within one free block, since free blocks have no free neighbours. */
  lemma RunInOneBlock(row: seq<Cell>, a: int, len: nat)
    requires Coalesced(row) && len > 0 && FreeRun(row, a, len)
    ensures exists i :: 0 <= i < |row| && row[i].free && Extent(row[i]) >= len
  {
    assert FreeByte(row, a);
    var i :| 0 <= i < |row| && row[i].free && Off(row, i) <= a < Off(row, i) + Extent(row[i]);
    var e := Off(row, i) + Extent(row[i]);
    if a + len > e {
      assert FreeByte(row, e);
      var j :| 0 <= j < |row| && row[j].free && Off(row, j) <= e < Off(row, j) + Extent(row[j]);
      assert Off(row, i + 1) == e;
      if j > i + 1 {
        OffMono(row, i + 1, j);
        assert false;
      } else if j < i {
        OffMono(row, j, i);
        assert false;
      }
    }
  }

  /** Payloads of different blocks do not overlap and lie inside the heap. */
  lemma PayloadsApart(row: seq<Cell>, heapSize: nat, i: nat, j: nat)
    requires RowOk(row, heapSize) && i < j < |row|
    ensures Off(row, i) + HEADER + row[i].size <= Off(row, j) && Off(row, j) + HEADER + row[j].size <= heapSize
  {
    OffMono(row, i, j);
    OffMono(row, j, |row|);
  }

  // ---------------------------------------------------------------- accounting

  function Used(row: seq<Cell>, n: nat): nat
    requires n <= |row|
  {
    if n == 0 then 0 else Used(row, n - 1) + if row[n - 1].free then 0 else row[n - 1].size
  }

  function Available(row: seq<Cell>, n: nat): nat
    requires n <= |row|
  {
    if n == 0 then 0 else Available(row, n - 1) + if row[n - 1].free then row[n - 1].size else 0
  }

  lemma {:induction false} BytesAddUp(row: seq<Cell>, n: nat)
    requires n <= |row|
    ensures Used(row, n) + Available(row, n) + HEADER * n == Off(row, n)
  {
    if n > 0 { BytesAddUp(row, n - 1); }
  }

  lemma {:induction false} UsedPrefix(r: seq<Cell>, t: seq<Cell>, n: nat)
    requires n <= |r| && n <= |t| && r[..n] == t[..n]
    ensures Used(r, n) == Used(t, n)
  {
    if n > 0 {
      assert r[..n - 1] == r[..n][..n - 1] && t[..n - 1] == t[..n][..n - 1];
      assert r[n - 1] == r[..n][n - 1] && t[n - 1] == t[..n][n - 1];
      UsedPrefix(r, t, n - 1);
    }
  }

  lemma {:induction false} UsedShift(r: seq<Cell>, i: nat, t: seq<Cell>, j: nat, k: nat)
    requires i + k <= |r| && j + k <= |t| && r[i..] == t[j..]
    ensures Used(r, i + k) - Used(r, i) == Used(t, j + k) - Used(t, j)
  {
    if k > 0 {
      var n := k - 1;
      assert r[i + n] == r[i..][n] && t[j + n] == t[j..][n];
      UsedShift(r, i, t, j, n);
    }
  }

  /** Two rows that agree before and after a stretch differ in use as the stretches do. */
  lemma UsedStretch(r: seq<Cell>, t: seq<Cell>, i: nat, x: nat, y: nat)
    requires i + x <= |r| && i + y <= |t| && r[..i] == t[..i] && r[i + x..] == t[i + y..]
    ensures Used(t, |t|) - Used(r, |r|) == (Used(t, i + y) - Used(t, i)) - (Used(r, i + x) - Used(r, i))
  {
    UsedPrefix(r, t, i);
    assert |r| - i - x == |r[i + x..]| == |t[i + y..]|;
    UsedShift(r, i + x, t, i + y, |r| - i - x);
  }

  /** Allocation adds the payload of the new block to the bytes in use. */
  lemma UsedTake(row: seq<Cell>, i: nat, size: nat)
    requires i < |row| && row[i].free && row[i].size >= size
    ensures var t := TakeAt(row, i, size);
            i < |t| && Used(t, |t|) == Used(row, |row|) + t[i].size
  {
    var t := TakeAt(row, i, size);
    if row[i].size >= size + HEADER + MIN_BLOCK_SIZE {
      assert t[..i] == row[..i] && t[i + 2..] == row[i + 1..];
      assert t[i] == Cell(size, false) && t[i + 1].free;
      UsedStretch(row, t, i, 1, 2);
    } else {
      assert t[..i] == row[..i] && t[i + 1..] == row[i + 1..];
      UsedStretch(row, t, i, 1, 1);
    }
  }

  lemma UsedMerge(row: seq<Cell>, i: nat)
    requires i + 1 < |row| && row[i].free && row[i + 1].free
    ensures var t := MergeNext(row, i); Used(t, |t|) == Used(row, |row|)
  {
    var t := MergeNext(row, i);
    assert t[..i] == row[..i] && t[i + 1..] == row[i + 2..] && t[i].free;
    UsedStretch(row, t, i, 2, 1);
  }

  /** Release takes the payload of the block out of the bytes in use. */
  lemma UsedFree(row: seq<Cell>, i: nat)
    requires i < |row| && !row[i].free
    ensures var t := FreeAt(row, i); Used(t, |t|) == Used(row, |row|) - row[i].size
  {
    var b := row[i := row[i].(free := true)];
    assert b[..i] == row[..i] && b[i + 1..] == row[i + 1..];
    UsedStretch(row, b, i, 1, 1);
    if i + 1 < |b| && b[i + 1].free { UsedMerge(b, i); }
    var a := MergeForward(row, i);
    assert a[i].free;
    if i > 0 && a[i - 1].free { UsedMerge(a, i - 1); }
  }

  lemma NextInUse(row: seq<Cell>, i: nat)
    requires Coalesced(row) && i + 1 < |row| && row[i].free
    ensures !row[i + 1].free
  {}

  /** Once every block has been given back the heap is one free block again. */
  lemma AllFreedIsWhole(row: seq<Cell>, heapSize: nat)
    requires RowOk(row, heapSize) && forall i :: 0 <= i < |row| ==> row[i].free
    ensures row == [Cell(heapSize - HEADER, true)]
  {
    if |row| > 1 {
      NextInUse(row, 0);
      assert false;
    }
    assert Off(row, 1) == Extent(row[0]);
  }
}

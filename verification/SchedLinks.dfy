/** The intrusive ready lists: queues threaded through the process table by index. */
module SchedLinks {
  import opened Seqs
  import opened SchedSpec

  /** What the table and the queue heads store about the queues. */
  datatype Links = Links(heads: seq<int>, tails: seq<int>, next: seq<int>, inReady: seq<bool>)

  /** q is a singly linked list from head to tail. */
  ghost predicate Thread(q: seq<int>, head: int, tail: int, next: seq<int>) {
    && head == At(q, 0) && tail == At(q, |q| - 1) && NoDuplicates(q)
    && (forall j :: 0 <= j < |q| ==> 0 < q[j] < |next|)
    && (forall j :: 0 <= j < |q| ==> next[q[j]] == At(q, j + 1))
  }

  /** A slot is flagged exactly when it is in the queue of its priority. */
  ghost predicate Flags(s: Sched, inReady: seq<bool>) {
    && Shaped(s) && |inReady| == |s.procs|
    && (forall l, i {:trigger i in s.queues[l]} :: 0 <= l < LEVELS && i in s.queues[l] ==>
          0 < i < |s.procs| && inReady[i] && Level(s.procs[i].eff) == l)
    && (forall i :: 0 <= i < |s.procs| && inReady[i] ==> Queued(s, i))
  }

  ghost predicate Linked(s: Sched, k: Links) {
    && |s.queues| == LEVELS == |k.heads| == |k.tails| && |k.next| == |s.procs|
    && (forall l :: 0 <= l < LEVELS ==> Thread(s.queues[l], k.heads[l], k.tails[l], k.next))
  }

  ghost predicate Threads(s: Sched, k: Links) {
    Linked(s, k) && Flags(s, k.inReady)
  }

  lemma ThreadShape(s: Sched, k: Links)
    requires Threads(s, k)
    ensures |k.heads| == |k.tails| == LEVELS && |k.next| == |k.inReady| == |s.procs|
    ensures Shaped(s) && InRange(s)
  {
  }

  lemma FlagIsQueued(s: Sched, k: Links, i: int)
    requires Threads(s, k) && 0 <= i < |s.procs|
    ensures |k.heads| == |k.tails| == LEVELS && |k.next| == |k.inReady| == |s.procs|
    ensures Shaped(s) && InRange(s)
    ensures k.inReady[i] <==> Queued(s, i)
  {
  }

  lemma ThreadFrame(q: seq<int>, head: int, tail: int, next: seq<int>, next': seq<int>)
    requires Thread(q, head, tail, next) && |next'| == |next|
    requires forall j :: 0 <= j < |q| ==> next'[q[j]] == next[q[j]]
    ensures Thread(q, head, tail, next')
  {
  }

  // ---------------------------------------------------------------- appending

  lemma ThreadAppend(q: seq<int>, head: int, tail: int, next: seq<int>, i: int)
    requires Thread(q, head, tail, next) && 0 < i < |next| && i !in q
    ensures var cut := next[i := NONE];
            Thread(q + [i], if q == [] then i else head, i, if q == [] then cut else cut[tail := i])
  {
    AppendFacts(q, i);
    var t := q + [i];
    var cut := next[i := NONE];
    var next' := if q == [] then cut else cut[tail := i];
    forall j | 0 <= j < |t| ensures 0 < t[j] < |next'| && next'[t[j]] == At(t, j + 1) {
      if j < |q| - 1 { assert q[j] != q[|q| - 1] && q[j] != i; }
    }
    hide NoDuplicates;
  }

  ghost function Appended(k: Links, l: nat, i: int): Links
    requires l < |k.heads| && l < |k.tails| && 0 <= i < |k.next| && i < |k.inReady|
    requires k.tails[l] == NONE || 0 <= k.tails[l] < |k.next|
  {
    var cut := k.next[i := NONE];
    Links(if k.tails[l] == NONE then k.heads[l := i] else k.heads, k.tails[l := i],
          if k.tails[l] == NONE then cut else cut[k.tails[l] := i], k.inReady[i := true])
  }

  lemma TailInRange(s: Sched, k: Links, l: nat)
    requires Threads(s, k) && l < LEVELS
    ensures k.tails[l] == NONE || 0 < k.tails[l] < |s.procs|
    ensures k.tails[l] == NONE <==> s.queues[l] == []
    ensures k.heads[l] == NONE || 0 < k.heads[l] < |s.procs|
    ensures k.heads[l] == NONE <==> s.queues[l] == []
    ensures s.queues[l] != [] ==> k.heads[l] == s.queues[l][0]
  {
    assert Thread(s.queues[l], k.heads[l], k.tails[l], k.next);
  }

  lemma AppendElsewhere(s: Sched, k: Links, l: nat, i: int, m: nat)
    requires Threads(s, k) && l < LEVELS && m < LEVELS && m != l && 0 < i < |s.procs| && !k.inReady[i]
    requires k.tails[l] == NONE || 0 <= k.tails[l] < |k.next|
    ensures Thread(s.queues[m], Appended(k, l, i).heads[m], Appended(k, l, i).tails[m], Appended(k, l, i).next)
  {
    var q := s.queues[m];
    TailInRange(s, k, l);
    assert Thread(s.queues[l], k.heads[l], k.tails[l], k.next);
    forall j | 0 <= j < |q| ensures q[j] != i && (k.tails[l] != NONE ==> q[j] != k.tails[l]) {
      assert q[j] in q;
      if k.tails[l] != NONE { assert k.tails[l] in s.queues[l]; }
    }
    ThreadFrame(q, k.heads[m], k.tails[m], k.next, Appended(k, l, i).next);
  }

  lemma FlagsEnqueue(s: Sched, inReady: seq<bool>, i: int)
    requires Flags(s, inReady) && 0 < i < |s.procs|
    ensures Flags(Enqueue(s, i), inReady[i := true])
  {
    if !Queued(s, i) {
      var l := Level(s.procs[i].eff);
      var t := Enqueue(s, i);
      forall j | 0 <= j < |s.procs| && inReady[i := true][j] ensures Queued(t, j) {
        if j != i { assert j in s.queues[Level(s.procs[j].eff)]; }
      }
    }
  }

  lemma ThreadsEnqueue(s: Sched, k: Links, i: int)
    requires Threads(s, k) && 0 < i < |s.procs| && !k.inReady[i]
    ensures var l := Level(s.procs[i].eff);
            && (k.tails[l] == NONE || 0 <= k.tails[l] < |k.next|)
            && Threads(Enqueue(s, i), Appended(k, l, i))
  {
    var l := Level(s.procs[i].eff);
    TailInRange(s, k, l);
    assert !Queued(s, i);
    FlagsEnqueue(s, k.inReady, i);
    assert Thread(s.queues[l], k.heads[l], k.tails[l], k.next);
    ThreadAppend(s.queues[l], k.heads[l], k.tails[l], k.next, i);
    var t, k' := Enqueue(s, i), Appended(k, l, i);
    hide Thread, Flags;
    forall m | 0 <= m < LEVELS ensures Thread(t.queues[m], k'.heads[m], k'.tails[m], k'.next) {
      if m != l { AppendElsewhere(s, k, l, i, m); }
    }
  }

  // ---------------------------------------------------------------- removing

  lemma NextAfterRemove(q: seq<int>, next: seq<int>, j: nat, i: nat)
    requires j < |q| && i < |q| - 1 && NoDuplicates(q)
    requires forall m :: 0 <= m < |q| ==> 0 < q[m] < |next| && next[q[m]] == At(q, m + 1)
    ensures var t := Without(q, j);
            var next0 := if j > 0 then next[q[j - 1] := At(q, j + 1)] else next;
            0 < t[i] < |next| && next0[q[j] := -1][t[i]] == At(t, i + 1)
  {
    hide NoDuplicates, Without, At;
    var m := if i < j then i else i + 1;
    WithoutAt(q, j, i);
    Apart(q, m, j);
    if j > 0 && m != j - 1 { Apart(q, m, j - 1); }
  }

  lemma Apart(q: seq<int>, i: nat, j: nat)
    requires NoDuplicates(q) && i < |q| && j < |q| && i != j
    ensures q[i] != q[j]
  {
  }

  lemma WithoutAt(q: seq<int>, j: nat, i: nat)
    requires j < |q| && i < |q| - 1
    ensures |Without(q, j)| == |q| - 1 && Without(q, j)[i] == q[if i < j then i else i + 1]
    ensures At(Without(q, j), i + 1) == At(q, if i + 1 < j then i + 1 else i + 2)
  {
  }

  lemma ThreadRemove(q: seq<int>, head: int, tail: int, next: seq<int>, j: nat)
    requires Thread(q, head, tail, next) && j < |q|
    ensures var next0 := if j > 0 then next[q[j - 1] := At(q, j + 1)] else next;
            Thread(Without(q, j), if j == 0 then At(q, 1) else head, if j == |q| - 1 then At(q, j - 1) else tail, next0[q[j] := -1])
  {
    hide Without, NoDuplicates, At;
    WithoutFacts(q, j);
    var t := Without(q, j);
    var next' := (if j > 0 then next[q[j - 1] := At(q, j + 1)] else next)[q[j] := -1];
    forall i | 0 <= i < |t| ensures 0 < t[i] < |next'| && next'[t[i]] == At(t, i + 1) { NextAfterRemove(q, next, j, i); }
    EndsAfterRemove(q, j);
  }

  lemma EndsAfterRemove(q: seq<int>, j: nat)
    requires j < |q|
    ensures At(Without(q, j), 0) == if j == 0 then At(q, 1) else At(q, 0)
    ensures At(Without(q, j), |q| - 2) == if j == |q| - 1 then At(q, j - 1) else At(q, |q| - 1)
  {
  }

  ghost function Removed(k: Links, l: nat, q: seq<int>, j: nat): Links
    requires l < |k.heads| && l < |k.tails| && j < |q| && (forall i :: 0 <= i < |q| ==> 0 <= q[i] < |k.next| && q[i] < |k.inReady|)
  {
    var next0 := if j > 0 then k.next[q[j - 1] := At(q, j + 1)] else k.next;
    Links(if j == 0 then k.heads[l := At(q, 1)] else k.heads, if j == |q| - 1 then k.tails[l := At(q, j - 1)] else k.tails,
          next0[q[j] := NONE], k.inReady[q[j] := false])
  }

  lemma FlagsRemove(s: Sched, inReady: seq<bool>, i: int)
    requires Flags(s, inReady) && Queued(s, i) && NoDuplicates(s.queues[Level(s.procs[i].eff)])
    ensures Flags(Unqueue(s, i), inReady[i := false])
  {
    RemoveFacts(s.queues[Level(s.procs[i].eff)], i);
    forall j | 0 <= j < |s.procs| && inReady[i := false][j] ensures Queued(Unqueue(s, i), j) {
      assert Queued(s, j) && j != i;
    }
  }

  lemma RemoveElsewhere(s: Sched, k: Links, l: nat, j: nat, m: nat)
    requires Threads(s, k) && l < LEVELS && m < LEVELS && m != l && j < |s.queues[l]|
    requires forall i :: 0 <= i < |s.queues[l]| ==> 0 <= s.queues[l][i] < |k.next| && s.queues[l][i] < |k.inReady|
    ensures var k' := Removed(k, l, s.queues[l], j);
            Thread(s.queues[m], k'.heads[m], k'.tails[m], k'.next)
  {
    var q, r := s.queues[l], s.queues[m];
    forall n | 0 <= n < |r| ensures r[n] != q[j] && (j > 0 ==> r[n] != q[j - 1]) {
      assert r[n] in r && q[j] in q && (j > 0 ==> q[j - 1] in q);
    }
    ThreadFrame(r, k.heads[m], k.tails[m], k.next, Removed(k, l, q, j).next);
  }

  lemma ThreadsRemove(s: Sched, k: Links, i: int)
    requires Threads(s, k) && Queued(s, i)
    ensures var l := Level(s.procs[i].eff);
            var q := s.queues[l];
            && (forall m :: 0 <= m < |q| ==> 0 <= q[m] < |k.next| && q[m] < |k.inReady|)
            && Threads(Unqueue(s, i), Removed(k, l, q, IndexOf(q, i)))
  {
    var l := Level(s.procs[i].eff);
    var q := s.queues[l];
    var j := IndexOf(q, i);
    assert Thread(q, k.heads[l], k.tails[l], k.next);
    FlagsRemove(s, k.inReady, i);
    ThreadRemove(q, k.heads[l], k.tails[l], k.next, j);
    var t, k' := Unqueue(s, i), Removed(k, l, q, j);
    hide Thread, Flags;
    forall m | 0 <= m < LEVELS ensures Thread(t.queues[m], k'.heads[m], k'.tails[m], k'.next) {
      if m != l { RemoveElsewhere(s, k, l, j, m); }
    }
  }

  // ---------------------------------------------------------------- table entries

  /** Writing a table entry keeps the threads when the slot is off the queues or keeps its level. */
  lemma ThreadsSet(s: Sched, k: Links, i: int, p: Proc)
    requires Threads(s, k) && 0 <= i < |s.procs| && (!k.inReady[i] || Level(p.eff) == Level(s.procs[i].eff))
    ensures Threads(Set(s, i, p), k)
  {
  }

  /** Clearing the links of a slot that is off the queues. */
  lemma ThreadsClear(s: Sched, k: Links, i: int)
    requires Threads(s, k) && 0 <= i < |s.procs| && !k.inReady[i]
    ensures Threads(s, k.(next := k.next[i := NONE], inReady := k.inReady[i := false]))
  {
    forall l | 0 <= l < LEVELS ensures Thread(s.queues[l], k.heads[l], k.tails[l], k.next[i := NONE]) {
      forall j | 0 <= j < |s.queues[l]| ensures s.queues[l][j] != i { assert s.queues[l][j] in s.queues[l]; }
      ThreadFrame(s.queues[l], k.heads[l], k.tails[l], k.next, k.next[i := NONE]);
    }
  }

  /** The threads concern the table and the queues only. */
  lemma ThreadsScalars(s: Sched, t: Sched, k: Links)
    requires Threads(s, k) && Shaped(t) && t.procs == s.procs && t.queues == s.queues
    ensures Threads(t, k)
  {
  }

  lemma LinkFacts(s: Sched, k: Links, l: nat, j: nat)
    requires Threads(s, k) && l < LEVELS && j < |s.queues[l]|
    ensures |k.heads| == |k.tails| == LEVELS && |k.next| == |k.inReady| == |s.procs|
    ensures var q := s.queues[l];
            && 0 < q[j] < |k.next| && k.next[q[j]] == At(q, j + 1)
            && (j > 0 ==> 0 < q[j - 1] < |k.next| && q[j - 1] != q[j])
            && (k.tails[l] == q[j] <==> j == |q| - 1)
  {
    var q := s.queues[l];
    assert Thread(q, k.heads[l], k.tails[l], k.next);
    assert j < |q| - 1 ==> q[j] != q[|q| - 1];
    assert j > 0 ==> q[j - 1] != q[j];
  }
}

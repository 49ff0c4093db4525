/** What every operation of the scheduler keeps, and what follows for whole runs. */
module SchedInv {
  import opened Seqs
  import opened SchedSpec

  /** Whether a slot may be queued: when it is ready or, if stale entries are tolerated, blocked. */
  ghost predicate Waits(status: Status, stale: bool) {
    status == Ready || (stale && status == Blocked)
  }

  /** The queues hold each ready slot above 0 exactly once, in the queue of its effective
      priority, and nothing else but, if `stale`, blocked slots. Slots in `loose` are off the
      queues, ready or not. */
  ghost predicate QInv(s: Sched, loose: set<int>, stale: bool) {
    && Shaped(s)
    && (forall l :: 0 <= l < LEVELS ==> NoDuplicates(s.queues[l]))
    && (forall l, i {:trigger i in s.queues[l]} :: 0 <= l < LEVELS && i in s.queues[l] ==>
          0 < i < |s.procs| && i !in loose && Waits(s.procs[i].status, stale) && s.procs[i].eff == l + PRIORITY_MIN)
    && (forall i {:trigger s.procs[i]} :: 0 < i < |s.procs| && i !in loose && s.procs[i].status == Ready ==> i in s.queues[Level(s.procs[i].eff)])
  }

  ghost predicate Live(p: Proc) {
    p.status != Dead
  }

  /** What holds of every slot by itself. */
  ghost predicate SlotOk(p: Proc, nextPid: int) {
    && p.quantum <= DEFAULT_QUANTUM
    && (Live(p) ==>
          && PRIORITY_MIN <= p.prio <= p.eff <= PRIORITY_MAX
          && (p.eff < PRIORITY_MAX ==> 0 <= p.ticks < AGING_THRESHOLD)
          && 0 < p.pid < nextPid && 0 <= p.parent < p.pid
          && (p.waitingFor > 0 ==> p.waitingFor > p.pid)
          && p.stack != NONE)
  }

  ghost predicate IdleOk(p: Proc) {
    p.pid == 0 && (p.status == Running || p.status == Blocked) && p.quantum <= DEFAULT_QUANTUM && PRIORITY_MIN <= p.eff <= PRIORITY_MAX
  }

  ghost predicate PInv(s: Sched) {
    && Shaped(s) && s.nextPid > 0
    && IdleOk(s.procs[0])
    && (forall i :: 0 < i < |s.procs| ==> SlotOk(s.procs[i], s.nextPid))
    && (forall i, j :: 0 < i < j < |s.procs| && Live(s.procs[i]) && Live(s.procs[j]) ==> s.procs[i].pid != s.procs[j].pid)
    && (forall i :: 0 < i < |s.procs| && s.procs[i].status == Running ==> i == s.cur)
    && Live(s.procs[s.cur])
  }

  /** The stack block a slot owns. */
  ghost function Own(p: Proc): multiset<int> {
    if Live(p) then multiset{p.stack} else multiset{}
  }

  /** The stacks owned by the live processes of a table. */
  ghost function Stacks(procs: seq<Proc>): multiset<int> {
    if procs == [] then multiset{} else Stacks(procs[..|procs| - 1]) + Own(procs[|procs| - 1])
  }

  ghost predicate Single(m: multiset<int>) {
    forall b :: m[b] <= 1
  }

  /** The process counter and the stack blocks add up, and no two processes share a stack. */
  ghost predicate Books(s: Sched) {
    && Shaped(s)
    && s.count == 1 + |Stacks(s.procs[1..])|
    && s.allocs == s.frees + Stacks(s.procs[1..])
    && Single(Stacks(s.procs[1..]))
  }

  /** The heap hands out a block that no process owns, or none. */
  ghost predicate FreshStack(s: Sched, stack: int)
    requires Shaped(s)
  {
    stack == NONE || stack !in Stacks(s.procs[1..])
  }

  /** No exit status is collected twice. */
  ghost predicate Reaps(s: Sched) {
    && NoDuplicates(s.reaped)
    && (forall k :: 0 <= k < |s.reaped| ==> 0 < s.reaped[k] < s.nextPid)
    && (forall i, k :: 0 < i < |s.procs| && Live(s.procs[i]) && 0 <= k < |s.reaped| ==> s.procs[i].pid != s.reaped[k])
  }

  ghost predicate Ledger(s: Sched) {
    Books(s) && Reaps(s)
  }

  ghost predicate Inv(s: Sched, loose: set<int>, stale: bool) {
    Shaped(s) && QInv(s, loose, stale) && PInv(s) && Ledger(s)
  }

  // ---------------------------------------------------------------- one slot changes

  lemma {:induction false} StacksSet(procs: seq<Proc>, i: nat, p: Proc)
    requires i < |procs|
    ensures Stacks(procs[i := p]) + Own(procs[i]) == Stacks(procs) + Own(p)
  {
    hide Own;
    var n := |procs| - 1;
    var front, set1 := procs[..n], procs[i := p];
    if i == n {
      assert set1[..n] == front;
    } else {
      StacksSet(front, i, p);
      assert set1[..n] == front[i := p] && set1[n] == procs[n];
      SumSwap(Stacks(front[i := p]), Own(procs[i]), Stacks(front), Own(p), Own(procs[n]));
    }
  }

  lemma SumSwap(a: multiset<int>, b: multiset<int>, c: multiset<int>, d: multiset<int>, e: multiset<int>)
    requires a + b == c + d
    ensures (a + e) + b == (c + e) + d
  {
    assert (a + e) + b == (a + b) + e && (c + e) + d == (c + d) + e;
  }

  lemma Cancel(a: multiset<int>, b: multiset<int>, c: multiset<int>)
    requires a + c == b + c
    ensures a == b
  {
    forall x ensures a[x] == b[x] { assert (a + c)[x] == (b + c)[x]; }
  }

  /** A change of scheduling fields only: same process, same stack, alive before and after. */
  ghost predicate SameProcess(p: Proc, q: Proc) {
    p.pid == q.pid && p.parent == q.parent && p.stack == q.stack && Live(p) == Live(q)
  }

  /** One slot above 0 changes: what happens to the owned stacks. */
  lemma TableStacks(procs: seq<Proc>, i: nat, p: Proc)
    requires 0 < i < |procs|
    ensures Stacks(procs[i := p][1..]) + Own(procs[i]) == Stacks(procs[1..]) + Own(p)
  {
    StacksSet(procs[1..], i - 1, p);
    assert procs[i := p][1..] == procs[1..][i - 1 := p];
  }

  lemma SetKeepsLedger(s: Sched, i: nat, p: Proc)
    requires Ledger(s) && i < |s.procs| && SameProcess(s.procs[i], p)
    ensures Ledger(Set(s, i, p))
  {
    var t := Set(s, i, p);
    if i > 0 {
      TableStacks(s.procs, i, p);
      Cancel(Stacks(t.procs[1..]), Stacks(s.procs[1..]), Own(p));
    } else {
      assert t.procs[1..] == s.procs[1..];
    }
  }

  lemma SetKeepsP(s: Sched, i: nat, p: Proc)
    requires PInv(s) && i < |s.procs| && SameProcess(s.procs[i], p)
    requires if i == 0 then IdleOk(p) else SlotOk(p, s.nextPid)
    requires p.status == Running ==> i == 0 || i == s.cur
    ensures PInv(Set(s, i, p))
  {
  }

  /** PInv and Ledger do not look at the queues or at need_resched. */
  lemma FrameP(s: Sched, t: Sched)
    requires PInv(s) && Ledger(s) && Shaped(t) && t == s.(queues := t.queues, resched := t.resched)
    ensures PInv(t) && Ledger(t)
  {
  }

  /** Slot i is on no queue. */
  ghost predicate Off(s: Sched, i: int) {
    forall l :: 0 <= l < |s.queues| ==> i !in s.queues[l]
  }

  lemma UnqueueQ(s: Sched, i: int, loose: set<int>, stale: bool)
    requires QInv(s, loose, stale) && 0 <= i < |s.procs|
    ensures QInv(Unqueue(s, i), loose + {i}, stale) && Off(Unqueue(s, i), i)
  {
    if Queued(s, i) {
      RemoveFacts(s.queues[Level(s.procs[i].eff)], i);
    }
  }

  lemma SetQ(s: Sched, i: int, p: Proc, loose: set<int>, stale: bool)
    requires QInv(s, loose, stale) && 0 <= i < |s.procs| && Off(s, i)
    ensures QInv(Set(s, i, p), loose + {i}, stale)
    ensures p.status != Ready ==> QInv(Set(s, i, p), loose - {i}, stale)
  {
  }

  lemma EnqueueQ(s: Sched, i: int, loose: set<int>, stale: bool)
    requires QInv(s, loose, stale) && 0 < i < |s.procs| && Off(s, i)
    requires Waits(s.procs[i].status, stale) && PRIORITY_MIN <= s.procs[i].eff <= PRIORITY_MAX
    ensures QInv(Enqueue(s, i), loose - {i}, stale)
  {
    var l := Level(s.procs[i].eff);
    AppendFacts(s.queues[l], i);
  }

  lemma TouchQ(s: Sched, i: int, p: Proc, loose: set<int>, stale: bool)
    requires QInv(s, loose, stale) && 0 <= i < |s.procs|
    requires p.status == s.procs[i].status && p.eff == s.procs[i].eff
    ensures QInv(Set(s, i, p), loose, stale)
  {
  }

  /** QInv looks at the table and the queues only. */
  lemma FrameQ(s: Sched, t: Sched, loose: set<int>, stale: bool)
    requires QInv(s, loose, stale) && Shaped(t) && t.procs == s.procs && t.queues == s.queues
    ensures QInv(t, loose, stale)
  {
  }

  /** Removing a slot from its queue, changing it and queueing it again. */
  lemma RequeueKeeps(s: Sched, i: int, p: Proc, loose: set<int>, stale: bool)
    requires Inv(s, loose, stale) && 0 < i < |s.procs|
    requires SameProcess(s.procs[i], p) && SlotOk(p, s.nextPid) && Waits(p.status, stale)
    ensures Inv(Enqueue(Set(Unqueue(s, i), i, p), i), loose - {i}, stale)
  {
    var a := Unqueue(s, i);
    var b := Set(a, i, p);
    assert Live(p) ==> PRIORITY_MIN <= p.eff <= PRIORITY_MAX;
    hide QInv, PInv, Ledger, SlotOk, SameProcess, Queued;
    UnqueueQ(s, i, loose, stale);
    FrameP(s, a);
    SetQ(a, i, p, loose + {i}, stale);
    SetKeepsP(a, i, p);
    SetKeepsLedger(a, i, p);
    assert loose + {i} + {i} == loose + {i} && loose + {i} - {i} == loose - {i};
    assert Off(b, i);
    EnqueueQ(b, i, loose + {i}, stale);
    FrameP(b, Enqueue(b, i));
  }

  /** Changing a slot without queueing it: off its queue, and not ready afterwards. */
  lemma DropKeeps(s: Sched, i: int, p: Proc, loose: set<int>, stale: bool)
    requires Inv(s, loose, stale) && 0 <= i < |s.procs| && SameProcess(s.procs[i], p) && p.status != Ready
    requires if i == 0 then IdleOk(p) else SlotOk(p, s.nextPid)
    requires p.status == Running ==> i == 0 || i == s.cur
    ensures Inv(Set(Unqueue(s, i), i, p), loose - {i}, stale)
  {
    var a := Unqueue(s, i);
    hide QInv, PInv, Ledger;
    assert Shaped(s);
    UnqueueQ(s, i, loose, stale);
    FrameP(s, a);
    SetQ(a, i, p, loose + {i}, stale);
    SetKeepsP(a, i, p);
    SetKeepsLedger(a, i, p);
    assert loose + {i} - {i} == loose - {i};
  }

  /** Changing fields that the queues do not depend on. */
  lemma TouchKeeps(s: Sched, i: int, p: Proc, loose: set<int>, stale: bool)
    requires Inv(s, loose, stale) && 0 <= i < |s.procs| && SameProcess(s.procs[i], p)
    requires p.status == s.procs[i].status && p.eff == s.procs[i].eff
    requires if i == 0 then IdleOk(p) else SlotOk(p, s.nextPid)
    ensures Inv(Set(s, i, p), loose, stale)
  {
    TouchQ(s, i, p, loose, stale);
    SetKeepsP(s, i, p);
    SetKeepsLedger(s, i, p);
  }

  lemma ReschedKeeps(s: Sched, b: bool, loose: set<int>, stale: bool)
    requires Inv(s, loose, stale)
    ensures Inv(s.(resched := b), loose, stale)
  {
    FrameP(s, s.(resched := b));
  }

  lemma SlotFacts(s: Sched, i: int, loose: set<int>, stale: bool)
    requires Inv(s, loose, stale) && 0 <= i < |s.procs|
    ensures if i == 0 then IdleOk(s.procs[i]) else SlotOk(s.procs[i], s.nextPid)
    ensures Shaped(s) && InRange(s)
    ensures s.procs[i].status == Running ==> i == 0 || i == s.cur
    ensures i !in loose && i > 0 && s.procs[i].status == Ready ==> Queued(s, i)
    ensures Queued(s, i) ==> Waits(s.procs[i].status, stale) && i !in loose
    ensures !Waits(s.procs[i].status, stale) ==> Off(s, i)
    ensures !Queued(s, i) ==> Off(s, i)
  {
  }

  // ---------------------------------------------------------------- operations

  lemma MakeReadyFrame(s: Sched, i: int)
    requires Shaped(s) && 0 <= i < |s.procs|
    ensures var t := MakeReady(s, i);
            && t.cur == s.cur && t.procs[i].pid == s.procs[i].pid
            && (forall j :: 0 <= j < |s.procs| && j != i ==> t.procs[j] == s.procs[j])
  {
  }

  lemma MakeReadyKeeps(s: Sched, i: int, loose: set<int>, stale: bool)
    requires Inv(s, loose, stale) && 0 <= i < |s.procs| && (i in loose ==> s.procs[i].status == Ready && i > 0)
    ensures Inv(MakeReady(s, i), loose - {i}, stale)
  {
    hide QInv, PInv, Ledger;
    SlotFacts(s, i, loose, stale);
    if i > 0 && s.procs[i].status != Dead && s.procs[i].status != Zombie {
      var p := s.procs[i];
      var q := p.(eff := p.prio, ticks := 0, status := Ready, quantum := DEFAULT_QUANTUM);
      RequeueKeeps(s, i, q, loose, stale);
      ReschedKeeps(Enqueue(Set(Unqueue(s, i), i, q), i), MakeReady(s, i).resched, loose - {i}, stale);
    } else {
      assert loose - {i} == loose;
    }
  }

  lemma AgeOneKeeps(s: Sched, i: int, stale: bool)
    requires Inv(s, {}, stale) && 0 < i < |s.procs|
    ensures Inv(AgeOne(s, i), {}, stale)
  {
    hide QInv, PInv, Ledger;
    SlotFacts(s, i, {}, stale);
    var p := s.procs[i];
    if Queued(s, i) && p.status == Ready {
      if p.ticks + 1 >= AGING_THRESHOLD && p.eff < PRIORITY_MAX {
        RequeueKeeps(s, i, p.(eff := p.eff + 1, ticks := 0), {}, stale);
        assert {} - {i} == {};
      } else {
        TouchKeeps(s, i, p.(ticks := p.ticks + 1), {}, stale);
      }
    }
  }

  lemma {:induction false} AgeFromKeeps(s: Sched, i: nat, stale: bool)
    requires Inv(s, {}, stale) && 0 < i <= |s.procs|
    ensures Inv(AgeFrom(s, i), {}, stale)
    decreases |s.procs| - i
  {
    hide QInv, PInv, Ledger;
    if i < |s.procs| {
      AgeOneKeeps(s, i, stale);
      AgeFromKeeps(AgeOne(s, i), i + 1, stale);
    }
  }

  lemma UnblockKeeps(s: Sched, pid: int, loose: set<int>, stale: bool)
    requires Inv(s, loose, stale) && (forall j :: j in loose ==> 0 <= j < |s.procs| && s.procs[j].pid != pid)
    ensures Inv(Unblock(s, pid), loose, stale) && Unblock(s, pid).cur == s.cur
    ensures forall j :: 0 <= j < |s.procs| ==> Unblock(s, pid).procs[j].pid == s.procs[j].pid
    ensures forall j :: j in loose ==> Unblock(s, pid).procs[j] == s.procs[j]
  {
    hide QInv, PInv, Ledger;
    var i := FindBlocked(s, pid, 0);
    if i >= 0 {
      MakeReadyFrame(s, i);
      MakeReadyKeeps(s, i, loose, stale);
      assert loose - {i} == loose;
    }
  }

  lemma {:induction false} UnblockAllKeeps(s: Sched, pids: seq<int>, loose: set<int>, stale: bool)
    requires Inv(s, loose, stale) && (forall j :: j in loose ==> 0 <= j < |s.procs| && s.procs[j].pid !in pids)
    ensures Inv(UnblockAll(s, pids), loose, stale) && UnblockAll(s, pids).cur == s.cur
    ensures forall j :: 0 <= j < |s.procs| ==> UnblockAll(s, pids).procs[j].pid == s.procs[j].pid
    ensures forall j :: j in loose ==> UnblockAll(s, pids).procs[j] == s.procs[j]
    decreases |pids|
  {
    hide QInv, PInv, Ledger;
    if pids != [] {
      UnblockKeeps(s, pids[0], loose, stale);
      UnblockAllKeeps(Unblock(s, pids[0]), pids[1..], loose, stale);
    }
  }

  lemma WakeOneKeeps(s: Sched, pid: int, i: nat, stale: bool)
    requires Inv(s, {}, stale) && i < |s.procs|
    ensures Inv(WakeOne(s, pid, i), {}, stale)
  {
    SlotFacts(s, i, {}, stale);
    hide QInv, PInv, Ledger;
    if s.procs[i].status == Blocked && s.procs[i].waitingFor == pid {
      var p := s.procs[i].(waitingFor := -1);
      TouchKeeps(s, i, p, {}, stale);
      MakeReadyKeeps(Set(s, i, p), i, {}, stale);
      assert {} - {i} == {};
    }
  }

  lemma {:induction false} WakeWaitersKeeps(s: Sched, pid: int, i: nat, stale: bool)
    requires Inv(s, {}, stale) && i <= |s.procs|
    ensures Inv(WakeWaiters(s, pid, i), {}, stale)
    decreases |s.procs| - i
  {
    hide QInv, PInv, Ledger;
    if i < |s.procs| {
      WakeOneKeeps(s, pid, i, stale);
      WakeWaitersKeeps(WakeOne(s, pid, i), pid, i + 1, stale);
    }
  }

  lemma ExitKeeps(s: Sched, status: int, woken: seq<int>, stale: bool)
    requires Inv(s, {}, stale)
    ensures Inv(Exit(s, status, woken), {}, stale)
  {
    if s.cur > 0 {
      SlotFacts(s, s.cur, {}, stale);
      hide QInv, PInv, Ledger;
      var p := s.procs[s.cur].(exitStatus := status);
      TouchKeeps(s, s.cur, p, {}, stale);
      var a := Set(s, s.cur, p);
      UnblockAllKeeps(a, woken, {}, stale);
      ExitCleanupKeeps(UnblockAll(a, woken), stale);
    }
  }

  lemma ExitCleanupKeeps(a: Sched, stale: bool)
    requires Inv(a, {}, stale) && a.cur > 0
    ensures Inv(ExitCleanup(a), {}, stale)
  {
    var i := a.cur;
    SlotFacts(a, i, {}, stale);
    assert Live(a.procs[i]);
    hide QInv, PInv, Ledger;
    var p := a.procs[i].(status := Zombie, quantum := 0, ticks := 0);
    DropKeeps(a, i, p, {}, stale);
    assert {} - {i} == {};
    var c := Set(Unqueue(a, i), i, p);
    ReschedKeeps(c, true, {}, stale);
    WakeWaitersKeeps(c.(resched := true), c.procs[c.cur].pid, 0, stale);
  }

  lemma NewProcessLedger(s: Sched, i: int, p: Proc)
    requires Ledger(s) && 0 < i < |s.procs| && s.procs[i].status == Dead && p.pid == s.nextPid && Live(p) && s.nextPid > 0
    requires p.stack !in Stacks(s.procs[1..])
    ensures Ledger(Admit(s, i, p))
  {
    hide Books, Reaps;
    NewProcessBooks(s, i, p);
    NewProcessReaps(s, i, p);
  }

  lemma NewProcessBooks(s: Sched, i: int, p: Proc)
    requires Books(s) && 0 < i < |s.procs| && s.procs[i].status == Dead && Live(p) && p.stack !in Stacks(s.procs[1..])
    ensures Books(Admit(s, i, p))
  {
    TableStacks(s.procs, i, p);
    var before, after, stack := Stacks(s.procs[1..]), Stacks(s.procs[i := p][1..]), multiset{p.stack};
    hide Stacks;
    assert after == before + stack;
    assert s.allocs + stack == s.frees + after;
    SingleMore(before, p.stack);
  }

  lemma SingleMore(a: multiset<int>, x: int)
    requires Single(a) && x !in a
    ensures Single(a + multiset{x})
  {
  }

  lemma NewProcessReaps(s: Sched, i: int, p: Proc)
    requires Reaps(s) && 0 < i < |s.procs| && p.pid == s.nextPid > 0
    ensures Reaps(Admit(s, i, p))
  {
  }

  lemma NewProcessP(s: Sched, i: int, p: Proc)
    requires PInv(s) && 0 < i < |s.procs| && s.procs[i].status == Dead
    requires p.pid == s.nextPid && p.status == Ready && SlotOk(p, s.nextPid + 1)
    ensures PInv(Admit(s, i, p))
  {
  }

  lemma NewProcess(s: Sched, i: int, p: Proc, stale: bool)
    requires Inv(s, {}, stale) && 0 < i < |s.procs| && s.procs[i].status == Dead
    requires p.pid == s.nextPid && p.status == Ready && SlotOk(p, s.nextPid + 1) && p.stack !in Stacks(s.procs[1..])
    ensures Inv(Admit(s, i, p), {i}, stale)
  {
    SlotFacts(s, i, {}, stale);
    assert s.nextPid > 0;
    hide QInv, PInv, Ledger, SlotOk, Stacks;
    SetQ(s, i, p, {}, stale);
    FrameQ(Set(s, i, p), Admit(s, i, p), {} + {i}, stale);
    NewProcessLedger(s, i, p);
    NewProcessP(s, i, p);
    assert {} + {i} == {i};
  }

  lemma CurrentFacts(s: Sched)
    requires PInv(s)
    ensures Live(s.procs[s.cur]) && 0 <= s.procs[s.cur].pid < s.nextPid
  {
  }

  lemma CreateKeeps(s: Sched, priority: int, stack: int, stale: bool)
    requires Inv(s, {}, stale) && FreshStack(s, stack)
    ensures Inv(Create(s, priority, stack), {}, stale)
  {
    hide QInv, PInv, Ledger;
    var prio := if PRIORITY_MIN <= priority <= PRIORITY_MAX then priority else DEFAULT_PRIORITY;
    var i := FindDead(s, 1);
    if i >= 0 && stack != NONE {
      CurrentFacts(s);
      var p := Proc(s.nextPid, s.procs[s.cur].pid, Ready, prio, prio, DEFAULT_QUANTUM, 0, stack, -1, 0);
      assert SlotOk(p, s.nextPid + 1);
      NewProcess(s, i, p, stale);
      hide MakeReady;
      MakeReadyKeeps(Admit(s, i, p), i, {i}, stale);
      assert {i} - {i} == {};
    }
  }

  lemma BuryP(a: Sched, i: int, p: Proc)
    requires PInv(a) && 0 < i < |a.procs| && i != a.cur && p.status == Dead && p.quantum <= DEFAULT_QUANTUM
    ensures PInv(Set(a, i, p))
  {
  }

  lemma BuryBooks(a: Sched, i: int, p: Proc)
    requires Books(a) && 0 < i < |a.procs| && Live(a.procs[i]) && a.procs[i].stack != NONE && p.status == Dead
    ensures Books(Set(a, i, p).(frees := Freed(a.frees, a.procs[i].stack), count := a.count - 1))
  {
    TableStacks(a.procs, i, p);
    var before, after := Stacks(a.procs[1..]), Stacks(a.procs[i := p][1..]);
    var stack := multiset{a.procs[i].stack};
    hide Stacks, Single;
    assert before == after + stack;
    assert a.frees + before == (a.frees + stack) + after;
    SingleLess(before, after, stack);
  }

  lemma SingleLess(a: multiset<int>, b: multiset<int>, c: multiset<int>)
    requires a == b + c && Single(a)
    ensures Single(b)
  {
    forall x ensures b[x] <= 1 { assert a[x] == b[x] + c[x]; }
  }

  lemma BuryReaps(a: Sched, i: int, p: Proc, reaped: seq<int>)
    requires Reaps(a) && PInv(a) && 0 < i < |a.procs| && Live(a.procs[i]) && p.status == Dead
    requires reaped == a.reaped || reaped == a.reaped + [a.procs[i].pid]
    ensures Reaps(Set(a, i, p).(reaped := reaped))
  {
  }

  lemma BooksFrame(s: Sched, reaped: seq<int>)
    requires Books(s)
    ensures Books(s.(reaped := reaped))
  {
  }

  lemma ReapsFrame(s: Sched, frees: multiset<int>, count: int)
    requires Reaps(s)
    ensures Reaps(s.(frees := frees, count := count))
  {
  }

  /** Freeing the slot of a process that is off the queues and not running. */
  lemma BuryKeeps(a: Sched, i: int, p: Proc, reaped: seq<int>, stale: bool)
    requires Inv(a, {i}, stale) && 0 < i < |a.procs| && i != a.cur && Live(a.procs[i])
    requires p.status == Dead && p.quantum <= DEFAULT_QUANTUM
    requires reaped == a.reaped || reaped == a.reaped + [a.procs[i].pid]
    ensures Inv(Set(a, i, p).(frees := Freed(a.frees, a.procs[i].stack), count := a.count - 1, reaped := reaped), {}, stale)
  {
    hide QInv, PInv, Books, Reaps, SlotOk;
    SlotFacts(a, i, {i}, stale);
    SetQ(a, i, p, {i}, stale);
    assert {i} - {i} == {};
    BuryP(a, i, p);
    StackOwned(a, i);
    BuryBooks(a, i, p);
    BuryReaps(a, i, p, reaped);
    var b := Set(a, i, p);
    var c := b.(frees := Freed(a.frees, a.procs[i].stack), count := a.count - 1, reaped := reaped);
    BooksFrame(b.(frees := c.frees, count := c.count), reaped);
    ReapsFrame(b.(reaped := reaped), c.frees, c.count);
    LedgerFrame(b, c, stale);
  }

  lemma StackOwned(a: Sched, i: int)
    requires PInv(a) && 0 < i < |a.procs| && Live(a.procs[i])
    ensures a.procs[i].stack != NONE
  {
  }

  /** The queues and the processes do not depend on the books. */
  lemma LedgerFrame(b: Sched, c: Sched, stale: bool)
    requires QInv(b, {}, stale) && PInv(b)
    requires c == b.(frees := c.frees, count := c.count, reaped := c.reaped)
    ensures QInv(c, {}, stale) && PInv(c)
  {
    FrameQ(b, c, {}, stale);
  }

  lemma OnePid(s: Sched, i: int, j: int)
    requires PInv(s) && 0 <= i < |s.procs| && 0 <= j < |s.procs| && Live(s.procs[i]) && Live(s.procs[j])
    ensures s.procs[i].pid == s.procs[j].pid ==> i == j
  {
  }

  lemma KillKeeps(s: Sched, pid: int, woken: seq<int>, stale: bool)
    requires Inv(s, {}, stale) && (pid !in woken || s.procs[s.cur].pid == pid)
    ensures Inv(Kill(s, pid, woken), {}, stale)
  {
    hide QInv, PInv, Ledger, KillSlot, Exit;
    var i := Find(s, pid, 0);
    if pid > 1 && i >= 0 {
      SlotFacts(s, i, {}, stale);
      CurrentFacts(s);
      OnePid(s, i, s.cur);
      if i == s.cur {
        ExitKeeps(s, -1, woken, stale);
      } else {
        KillSlotKeeps(s, i, pid, woken, stale);
      }
    }
  }

  lemma KillSlotKeeps(s: Sched, i: int, pid: int, woken: seq<int>, stale: bool)
    requires Inv(s, {}, stale) && pid !in woken && 0 < i < |s.procs| && i != s.cur && Live(s.procs[i]) && s.procs[i].pid == pid
    ensures Inv(KillSlot(s, i, pid, woken), {}, stale)
  {
    hide QInv, PInv, Ledger;
    var r := Unqueue(s, i);
    UnqueueQ(s, i, {}, stale);
    FrameP(s, r);
    assert {} + {i} == {i};
    UnblockAllKeeps(r, woken, {i}, stale);
    var a := UnblockAll(r, woken);
    BuryKeeps(a, i, Bury(a.procs[i]), a.reaped, stale);
    hide UnblockAll, Unqueue, WakeWaiters;
    WakeWaitersKeeps(Buried(a, i), pid, 0, stale);
  }

  lemma BlockKeeps(s: Sched, pid: int, stale: bool)
    requires Inv(s, {}, stale)
    ensures Inv(Block(s, pid), {}, stale)
  {
    var i := Find(s, pid, 0);
    if i >= 0 {
      hide QInv, PInv, Ledger;
      SlotFacts(s, i, {}, stale);
      var p := s.procs[i].(status := Blocked);
      var q := if i == s.cur then p.(quantum := 0) else p;
      DropKeeps(s, i, q, {}, stale);
      assert {} - {i} == {};
      ReschedKeeps(Set(Unqueue(s, i), i, q), true, {}, stale);
    }
  }

  lemma ReprioritizeKeeps(s: Sched, i: int, priority: int, stale: bool)
    requires Inv(s, {}, stale) && 0 <= i < |s.procs| && Live(s.procs[i]) && PRIORITY_MIN <= priority <= PRIORITY_MAX
    ensures Inv(Reprioritize(s, i, priority), {}, stale)
  {
    hide QInv, PInv, Ledger;
    SlotFacts(s, i, {}, stale);
    var p := s.procs[i].(prio := priority, eff := priority, ticks := 0, quantum := DEFAULT_QUANTUM);
    assert {} - {i} == {};
    if Queued(s, i) {
      RequeueKeeps(s, i, p, {}, stale);
    } else {
      DropKeeps(s, i, p, {}, stale);
    }
  }

  lemma NiceKeeps(s: Sched, pid: int, priority: int, stale: bool)
    requires Inv(s, {}, stale)
    ensures Inv(Nice(s, pid, priority), {}, stale)
  {
    hide QInv, PInv, Ledger, Reprioritize;
    var i := Find(s, pid, 0);
    if PRIORITY_MIN <= priority <= PRIORITY_MAX && i >= 0 {
      ReprioritizeKeeps(s, i, priority, stale);
      ReschedKeeps(Reprioritize(s, i, priority), Nice(s, pid, priority).resched, {}, stale);
    }
  }

  lemma YieldKeeps(s: Sched, stale: bool)
    requires Inv(s, {}, stale)
    ensures Inv(Yield(s), {}, stale)
  {
    SlotFacts(s, s.cur, {}, stale);
    hide QInv, PInv, Ledger;
    var p := s.procs[s.cur].(quantum := 0);
    TouchKeeps(s, s.cur, p, {}, stale);
    ReschedKeeps(Set(s, s.cur, p), true, {}, stale);
  }

  /** A child always has a larger pid than its parent, so a process never finds itself. */
  lemma ChildIsYounger(s: Sched, pid: int, stale: bool)
    requires Inv(s, {}, stale) && (WaitBlocks(s, pid) || WaitReaps(s, pid))
    ensures var i := Find(s, pid, 0); i > 0 && i != s.cur && s.procs[s.cur].pid < pid
  {
    SlotFacts(s, Find(s, pid, 0), {}, stale);
  }

  /** Waiting would put a caller to sleep that is on a ready queue. */
  ghost predicate QueuedWait(s: Sched, pid: int)
    requires Shaped(s)
  {
    WaitBlocks(s, pid) && s.cur > 0 && s.procs[s.cur].status == Ready
  }

  /** Waiting keeps the queues free of blocked slots exactly when it does not put a queued
      caller to sleep: the code blocks the caller without taking it off its queue. */
  lemma WaitKeepsIff(s: Sched, pid: int)
    requires Inv(s, {}, false)
    ensures Inv(Wait(s, pid), {}, false) <==> !QueuedWait(s, pid)
  {
    var c, t := s.cur, Wait(s, pid);
    WaitKeeps(s, pid, false);
    if QueuedWait(s, pid) {
      SlotFacts(s, c, {}, false);
      var l := Level(s.procs[c].eff);
      assert c in t.queues[l] && t.procs[c].status == Blocked;
    }
  }

  /** At worst waiting leaves its caller behind on a queue. */
  lemma WaitKeeps(s: Sched, pid: int, stale: bool)
    requires Inv(s, {}, stale)
    ensures Inv(Wait(s, pid), {}, stale || QueuedWait(s, pid))
  {
    if WaitBlocks(s, pid) {
      WaitBlockKeeps(s, pid, stale);
    } else if WaitReaps(s, pid) {
      WaitReapKeeps(s, pid, stale);
    }
  }

  lemma BlockInPlaceQ(s: Sched, i: int, p: Proc, stale: bool, after: bool)
    requires QInv(s, {}, stale) && 0 <= i < |s.procs| && p.status == Blocked && p.eff == s.procs[i].eff
    requires (stale ==> after) && (after || Off(s, i))
    ensures QInv(Set(s, i, p), {}, after)
  {
  }

  lemma WaitBlockKeeps(s: Sched, pid: int, stale: bool)
    requires Inv(s, {}, stale) && WaitBlocks(s, pid)
    ensures Inv(Wait(s, pid), {}, stale || QueuedWait(s, pid))
  {
    var c, after := s.cur, stale || QueuedWait(s, pid);
    ChildIsYounger(s, pid, stale);
    SlotFacts(s, c, {}, stale);
    CurrentFacts(s);
    hide QInv, PInv, Ledger;
    var p := s.procs[c].(waitingFor := pid, status := Blocked, quantum := 0);
    BlockInPlaceQ(s, c, p, stale, after);
    SetKeepsP(s, c, p);
    SetKeepsLedger(s, c, p);
    ReschedKeeps(Set(s, c, p), true, {}, after);
  }

  lemma WaitReapKeeps(s: Sched, pid: int, stale: bool)
    requires Inv(s, {}, stale) && WaitReaps(s, pid)
    ensures Inv(Wait(s, pid), {}, stale)
  {
    var i := Find(s, pid, 0);
    ChildIsYounger(s, pid, stale);
    SlotFacts(s, i, {}, stale);
    UnqueueQ(s, i, {}, stale);
    assert Unqueue(s, i) == s && {} + {i} == {i};
    hide QInv, PInv, Ledger;
    BuryKeeps(s, i, Proc(0, 0, Dead, 0, 0, 0, 0, NONE, -1, 0), s.reaped + [pid], stale);
  }

  // ---------------------------------------------------------------- the tick

  /** The quantum is 1, so a tick that finds a running process never leaves it running by
      the early return. */
  lemma NeverStays(s: Sched)
    requires PInv(s)
    ensures !Stays(s)
  {
  }

  ghost predicate NoneRunning(s: Sched) {
    forall i :: 0 < i < |s.procs| ==> s.procs[i].status != Running
  }

  lemma OnlyCurrentRuns(s: Sched)
    requires PInv(s)
    ensures s.procs[s.cur].status != Running || s.cur == 0 ==> NoneRunning(s)
    ensures forall i :: 0 < i < |s.procs| && i != s.cur ==> s.procs[i].status != Running
  {
  }

  lemma PreemptKeeps(s: Sched, stale: bool)
    requires Inv(s, {}, stale)
    ensures Inv(Preempt(s), {}, stale) && NoneRunning(Preempt(s)) && Preempt(s).cur == s.cur
  {
    hide QInv, PInv, Ledger;
    OnlyCurrentRuns(s);
    if s.procs[s.cur].status == Running {
      var p := s.procs[s.cur];
      SlotFacts(s, s.cur, {}, stale);
      TouchKeeps(s, s.cur, p.(quantum := p.quantum - 1), {}, stale);
      MakeReadyKeeps(Charge(s), s.cur, {}, stale);
      MakeReadyFrame(Charge(s), s.cur);
      assert {} - {s.cur} == {};
    }
  }

  lemma {:induction false} AgeFromKeepsStatus(s: Sched, i: nat)
    requires Shaped(s) && 0 < i <= |s.procs|
    ensures var t := AgeFrom(s, i);
            t.cur == s.cur && forall j :: 0 <= j < |s.procs| ==> t.procs[j].status == s.procs[j].status && t.procs[j].prio == s.procs[j].prio
    decreases |s.procs| - i
  {
    if i < |s.procs| {
      AgeFromKeepsStatus(AgeOne(s, i), i + 1);
    }
  }

  lemma RetargetKeeps(a: Sched, i: int, stale: bool)
    requires Inv(a, {}, stale) && NoneRunning(a) && 0 <= i < |a.procs| && Live(a.procs[i])
    ensures Inv(a.(cur := i), {}, stale)
  {
  }

  /** The next slot is ready, stale entries aside, and no ready slot has a higher effective
      priority; it is the idle process only when no slot is ready. */
  lemma NextFacts(a: Sched, stale: bool)
    requires Inv(a, {}, stale)
    ensures var i := Next(a);
            && 0 <= i < |a.procs|
            && (i == 0 ==> Highest(a) == 0 && forall j :: 0 < j < |a.procs| ==> a.procs[j].status != Ready)
            && (i > 0 ==> Waits(a.procs[i].status, stale) && Queued(a, i) && Highest(a) == a.procs[i].eff)
            && (i > 0 ==> a.queues[Level(a.procs[i].eff)][0] == i)
            && (i > 0 ==> forall j :: 0 < j < |a.procs| && a.procs[j].status == Ready ==> a.procs[j].eff <= a.procs[i].eff)
  {
    var h := Highest(a);
    if h != 0 {
      assert a.queues[Level(h)][0] in a.queues[Level(h)];
    }
    forall j | 0 < j < |a.procs| && a.procs[j].status == Ready ensures a.procs[j].eff <= h {
      assert j in a.queues[Level(a.procs[j].eff)];
      SlotFacts(a, j, {}, stale);
    }
  }

  function Dispatched(p: Proc, i: int): Proc {
    var q := if i == 0 then p else p.(ticks := 0, eff := p.prio);
    q.(status := Running, quantum := DEFAULT_QUANTUM)
  }

  /** Taking the next slot off its queue is removing it like any other slot. */
  lemma SwitchIsDrop(a: Sched, stale: bool)
    requires Inv(a, {}, stale)
    ensures 0 <= Next(a) < |a.procs|
    ensures var i := Next(a);
            Switch(a) == Set(Unqueue(a.(cur := i), i), i, Dispatched(a.procs[i], i)).(resched := false)
  {
    NextFacts(a, stale);
    var i, p := Next(a), a.procs[Next(a)];
    if i > 0 {
      assert NoDuplicates(a.queues[Level(p.eff)]);
      hide QInv, PInv, Ledger, NoDuplicates;
      TailFacts(a.queues[Level(p.eff)]);
      assert TakeNext(a).queues == Unqueue(a.(cur := i), i).queues;
      assert a.procs[i := p.(ticks := 0, eff := p.prio)][i := Dispatched(p, i)] == a.procs[i := Dispatched(p, i)];
    }
  }

  lemma SwitchKeeps(a: Sched, stale: bool)
    requires Inv(a, {}, stale) && NoneRunning(a)
    ensures 0 <= Next(a) < |a.procs| && Inv(Switch(a), {}, stale)
  {
    hide QInv, PInv, Ledger;
    NextFacts(a, stale);
    var i := Next(a);
    SlotFacts(a, i, {}, stale);
    RetargetKeeps(a, i, stale);
    DropKeeps(a.(cur := i), i, Dispatched(a.procs[i], i), {}, stale);
    assert {} - {i} == {};
    hide Switch, Unqueue;
    SwitchIsDrop(a, stale);
    ReschedKeeps(Set(Unqueue(a.(cur := i), i), i, Dispatched(a.procs[i], i)), false, {}, stale);
  }

  /** Every tick runs the head of the highest non-empty queue as the aging pass leaves it. */
  lemma TickFacts(s: Sched, stale: bool)
    requires Inv(s, {}, stale) && InRange(s)
    ensures Inv(Tick(s), {}, stale)
    ensures var a, t := AgeFrom(Preempt(s), 1), Tick(s);
            && Inv(a, {}, stale) && 0 <= Next(a) < |a.procs| && t == Switch(a)
            && t.cur == Next(a) && t.procs[t.cur].status == Running
  {
    hide QInv, PInv, Ledger, Stays;
    NeverStays(s);
    PreemptKeeps(s, stale);
    AgeFromKeeps(Preempt(s), 1, stale);
    AgeFromKeepsStatus(Preempt(s), 1);
    SwitchKeeps(AgeFrom(Preempt(s), 1), stale);
  }

  // ---------------------------------------------------------------- runs

  /** The table that scheduler_init builds: only the idle process, running. */
  ghost function Initial(n: nat): Sched
    requires n >= 2
  {
    var dead := Proc(0, 0, Dead, 0, 0, 0, 0, NONE, 0, 0);
    Sched(seq(n, _ => dead)[0 := Proc(0, 0, Running, 1, 1, 1, 0, NONE, -1, 0)], seq(LEVELS, _ => []), 0, false, 1, 1,
          multiset{}, multiset{}, [])
  }

  lemma {:induction false} NoStacks(procs: seq<Proc>)
    requires forall i :: 0 <= i < |procs| ==> procs[i].status == Dead
    ensures Stacks(procs) == multiset{}
  {
    if procs != [] { NoStacks(procs[..|procs| - 1]); }
  }

  lemma InitialInv(n: nat)
    requires n >= 2
    ensures Inv(Initial(n), {}, false)
  {
    NoStacks(Initial(n).procs[1..]);
  }

  /** What the rest of the kernel guarantees about a step: the heap hands out blocks nobody owns,
      and a process that is killed by another is taken off the semaphores before its descriptors
      are closed. */
  ghost predicate Allowed(s: Sched, step: Step)
    requires Shaped(s)
  {
    match step
    case DoCreate(_, stack) => FreshStack(s, stack)
    case DoKill(pid, woken) => pid !in woken || s.procs[s.cur].pid == pid
    case _ => true
  }

  /** The one step that leaves a blocked process on a queue. */
  ghost predicate LeavesStale(s: Sched, step: Step)
    requires Shaped(s)
  {
    step.DoWait? && QueuedWait(s, step.pid)
  }

  /** Every step keeps the invariant, stale queue entries aside; and a step makes a first stale
      entry only by a wait of a queued caller. */
  lemma StepKeeps(s: Sched, step: Step, stale: bool)
    requires Inv(s, {}, stale) && InRange(s) && Allowed(s, step)
    ensures Inv(Do(s, step), {}, stale || LeavesStale(s, step)) && InRange(Do(s, step))
  {
    hide QInv, PInv, Ledger;
    match step {
      case DoCreate(priority, stack) => CreateKeeps(s, priority, stack, stale);
      case DoKill(pid, woken) => KillKeeps(s, pid, woken, stale);
      case DoExit(status, woken) => ExitKeeps(s, status, woken, stale);
      case DoBlock(pid) => BlockKeeps(s, pid, stale);
      case DoUnblock(pid) => UnblockKeeps(s, pid, {}, stale);
      case DoNice(pid, priority) => NiceKeeps(s, pid, priority, stale);
      case DoWait(pid) => WaitKeeps(s, pid, stale);
      case DoYield => YieldKeeps(s, stale);
      case DoTick => TickFacts(s, stale);
    }
    SlotFacts(Do(s, step), 0, {}, stale || LeavesStale(s, step));
  }

  lemma Tolerate(s: Sched)
    requires Inv(s, {}, false)
    ensures Inv(s, {}, true)
  {
  }

  /** A run: each state results from the one before by an allowed step. */
  ghost predicate IsRun(states: seq<Sched>, steps: seq<Step>) {
    && |states| == |steps| + 1
    && (forall k :: 0 <= k < |steps| ==>
          && Shaped(states[k]) && InRange(states[k]) && Allowed(states[k], steps[k])
          && states[k + 1] == Do(states[k], steps[k]))
  }

  /** The invariant holds in every state of every run, stale queue entries aside. */
  lemma {:induction false} RunKeeps(states: seq<Sched>, steps: seq<Step>, k: nat)
    requires IsRun(states, steps) && Inv(states[0], {}, true) && k <= |steps|
    ensures Inv(states[k], {}, true)
  {
    hide Inv;
    if k > 0 {
      RunKeeps(states, steps, k - 1);
      StepKeeps(states[k - 1], steps[k - 1], true);
    }
  }

  /** On a run without waits by queued callers the queues hold exactly the ready slots. */
  lemma {:induction false} CleanRunKeeps(states: seq<Sched>, steps: seq<Step>, k: nat)
    requires IsRun(states, steps) && Inv(states[0], {}, false) && k <= |steps|
    requires forall m :: 0 <= m < k ==> !LeavesStale(states[m], steps[m])
    ensures Inv(states[k], {}, false)
  {
    hide Inv, LeavesStale;
    if k > 0 {
      CleanRunKeeps(states, steps, k - 1);
      StepKeeps(states[k - 1], steps[k - 1], false);
    }
  }

  // ---------------------------------------------------------------- stacks

  ghost predicate Owned(s: Sched, b: int) {
    exists i :: 0 < i < |s.procs| && Live(s.procs[i]) && s.procs[i].stack == b
  }

  lemma {:induction false} StackCounted(procs: seq<Proc>, b: int)
    ensures Stacks(procs)[b] > 0 <==> exists i :: 0 <= i < |procs| && Live(procs[i]) && procs[i].stack == b
  {
    if procs != [] {
      var n := |procs| - 1;
      StackCounted(procs[..n], b);
      if Stacks(procs[..n])[b] > 0 {
        var i :| 0 <= i < n && Live(procs[..n][i]) && procs[..n][i].stack == b;
        assert procs[i].stack == b;
      }
      if i :| 0 <= i < |procs| && Live(procs[i]) && procs[i].stack == b && i < n {
        assert procs[..n][i] == procs[i];
      }
    }
  }

  lemma {:induction false} StackCountedTwice(procs: seq<Proc>, i: nat, j: nat)
    requires i < j < |procs| && Live(procs[i]) && Live(procs[j]) && procs[i].stack == procs[j].stack
    ensures Stacks(procs)[procs[i].stack] > 1
  {
    var n := |procs| - 1;
    var front := procs[..n];
    assert front[i] == procs[i];
    if j < n {
      assert front[j] == procs[j];
      StackCountedTwice(front, i, j);
    } else {
      StackCounted(front, procs[i].stack);
    }
  }

  /** In every state of every run two live processes have different stacks, and a block has been
      given back as often as it was handed out, save once if a live process owns it. */
  lemma StacksAreDistinct(states: seq<Sched>, steps: seq<Step>, k: nat, b: int)
    requires IsRun(states, steps) && Inv(states[0], {}, true) && k <= |steps|
    ensures var s := states[k];
            && (forall i, j :: 0 < i < j < |s.procs| && Live(s.procs[i]) && Live(s.procs[j]) ==> s.procs[i].stack != s.procs[j].stack)
            && s.allocs[b] == s.frees[b] + if Owned(s, b) then 1 else 0
  {
    RunKeeps(states, steps, k);
    var s := states[k];
    var rest := s.procs[1..];
    assert Books(s);
    hide Inv, IsRun, Stacks;
    forall i, j | 0 < i < j < |s.procs| && Live(s.procs[i]) && Live(s.procs[j]) ensures s.procs[i].stack != s.procs[j].stack {
      assert rest[i - 1] == s.procs[i] && rest[j - 1] == s.procs[j];
      if s.procs[i].stack == s.procs[j].stack { StackCountedTwice(rest, i - 1, j - 1); }
    }
    StackCounted(rest, b);
    if Owned(s, b) {
      var i :| 0 < i < |s.procs| && Live(s.procs[i]) && s.procs[i].stack == b;
      assert rest[i - 1] == s.procs[i];
    }
    if i :| 0 <= i < |rest| && Live(rest[i]) && rest[i].stack == b {
      assert s.procs[i + 1] == rest[i];
    }
  }
}

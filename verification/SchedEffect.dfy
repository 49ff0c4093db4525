/** What each operation does to each process, slot by slot: what a caller can see afterwards. */
module SchedEffect {
  import opened Seqs
  import opened SchedSpec
  import opened SchedInv
  import opened SchedFair

  // ---------------------------------------------------------------- order in the queues

  /** Both are in the list, x before y. */
  ghost predicate Before(q: seq<int>, x: int, y: int) {
    x in q && y in q && IndexOf(q, x) < IndexOf(q, y)
  }

  lemma RemoveOrder(q: seq<int>, z: int, x: int, y: int)
    requires NoDuplicates(q) && x != z && y != z
    ensures Before(Remove(q, z), x, y) <==> Before(q, x, y)
  {
    RemoveFacts(q, z);
    if x in q { RemoveIndex(q, z, x); }
    if y in q { RemoveIndex(q, z, y); }
    hide Remove, NoDuplicates;
  }

  lemma AppendOrder(q: seq<int>, z: int, x: int, y: int)
    requires NoDuplicates(q) && z !in q && x != z
    ensures y == z ==> (Before(q + [z], x, y) <==> x in q) && !Before(q + [z], y, x)
    ensures y != z ==> (Before(q + [z], x, y) <==> Before(q, x, y))
  {
    AppendFacts(q, z);
  }

  /** From s to t the queues keep their order: slots outside `moved` stay in line and those inside
      have joined at the tail. */
  ghost predicate InLine(s: Sched, t: Sched, moved: set<int>) {
    && Shaped(s) && Shaped(t)
    && (forall l, x {:trigger x in t.queues[l]} :: 0 <= l < LEVELS && x in t.queues[l] && x !in moved ==> x in s.queues[l])
    && (forall l, x, y {:trigger Before(t.queues[l], x, y)} ::
          0 <= l < LEVELS && x != y && x in t.queues[l] && y in t.queues[l] && x !in moved ==>
            (Before(t.queues[l], x, y) <==> y in moved || Before(s.queues[l], x, y)))
  }

  lemma InLineTrans(s: Sched, t: Sched, u: Sched, moved: set<int>, later: set<int>)
    requires InLine(s, t, moved) && InLine(t, u, later)
    ensures InLine(s, u, moved + later)
  {
    hide Before;
  }

  /** Only slots that end up on a queue matter. */
  lemma InLineSame(s: Sched, t: Sched, moved: set<int>, other: set<int>)
    requires InLine(s, t, moved)
    requires forall l, x :: 0 <= l < LEVELS && x in t.queues[l] ==> (x in moved <==> x in other)
    ensures InLine(s, t, other)
  {
    hide Before;
  }

  lemma UnqueueInLine(s: Sched, i: int)
    requires AllDistinct(s)
    ensures InLine(s, Unqueue(s, i), {}) && AllDistinct(Unqueue(s, i))
  {
    if Queued(s, i) {
      var k := Level(s.procs[i].eff);
      var q := s.queues[k];
      RemoveFacts(q, i);
      forall x, y | x in Remove(q, i) && y in Remove(q, i) ensures Before(Remove(q, i), x, y) <==> Before(q, x, y) {
        RemoveOrder(q, i, x, y);
      }
      hide Before, Remove, NoDuplicates;
    }
  }

  lemma EnqueueInLine(s: Sched, i: int)
    requires AllDistinct(s) && 0 < i < |s.procs| && Off(s, i)
    ensures InLine(s, Enqueue(s, i), {i}) && AllDistinct(Enqueue(s, i))
  {
    var q := s.queues[Level(s.procs[i].eff)];
    AppendFacts(q, i);
    forall x, y | x in q + [i] && y in q + [i] && x != i && x != y
      ensures Before(q + [i], x, y) <==> y == i || Before(q, x, y)
    {
      AppendOrder(q, i, x, y);
    }
    hide Before, NoDuplicates;
  }

  /** Off the queues, changed and queued again: the slot goes to the tail and the others keep their order. */
  lemma RequeueInLine(s: Sched, i: int, p: Proc)
    requires AllDistinct(s) && 0 < i < |s.procs| && (Queued(s, i) || Off(s, i)) && (Queued(s, i) ==> Off(Unqueue(s, i), i))
    ensures InLine(s, Enqueue(Set(Unqueue(s, i), i, p), i), {i}) && AllDistinct(Enqueue(Set(Unqueue(s, i), i, p), i))
  {
    var a := Unqueue(s, i);
    var b := Set(a, i, p);
    UnqueueInLine(s, i);
    hide Before;
    EnqueueInLine(b, i);
    QueuesOnly(s, a, b, {});
    InLineTrans(s, b, Enqueue(b, i), {}, {i});
    assert {} + {i} == {i};
  }

  // ---------------------------------------------------------------- waking

  /** A process that becomes ready: base priority, no wait ticks, a fresh quantum of 1. */
  function Up(p: Proc): Proc {
    p.(status := Ready, eff := p.prio, ticks := 0, quantum := 1)
  }

  /** Slot i becomes ready and goes to the tail of the queue of its base priority. */
  ghost predicate Rises(s: Sched, t: Sched, i: int) {
    && Shaped(s) && 0 < i < |s.procs|
    && t == s.(procs := s.procs[i := Up(s.procs[i])], queues := t.queues, resched := t.resched)
    && InLine(s, t, {i})
    && (t.resched <==> s.resched || (s.cur > 0 && s.procs[i].prio > (if i == s.cur then s.procs[i].prio else s.procs[s.cur].eff)))
  }

  lemma MakeReadyRises(s: Sched, i: int, loose: set<int>, stale: bool)
    requires Inv(s, loose, stale) && 0 < i < |s.procs| && s.procs[i].status != Dead && s.procs[i].status != Zombie
    ensures Rises(s, MakeReady(s, i), i)
  {
    SlotFacts(s, i, loose, stale);
    UnqueueQ(s, i, loose, stale);
    assert AllDistinct(s);
    hide Inv, QInv, PInv, Ledger, InLine;
    var t := Enqueue(Set(Unqueue(s, i), i, Up(s.procs[i])), i);
    RequeueInLine(s, i, Up(s.procs[i]));
    QueuesOnly(s, t, MakeReady(s, i), {i});
  }

  /** The order is a matter of the queues alone. */
  lemma QueuesOnly(s: Sched, t: Sched, u: Sched, moved: set<int>)
    requires InLine(s, t, moved) && Shaped(u) && u.queues == t.queues
    ensures InLine(s, u, moved)
  {
  }

  /** What becomes of a process when those in `pids` are unblocked and then those that wait for
      `gone` are woken: nothing, unless it is blocked. */
  ghost function WokenUp(p: Proc, pids: seq<int>, gone: int): Proc {
    if p.status != Blocked then p
    else if p.pid in pids then Up(p)
    else if gone > 0 && p.waitingFor == gone then Up(p).(waitingFor := -1)
    else p
  }

  /** The slots that were blocked and are ready. */
  ghost function Risen(s: Sched, t: Sched): set<int> {
    set j | 0 < j < |s.procs| && j < |t.procs| && s.procs[j].status == Blocked && t.procs[j].status == Ready
  }

  /** A reschedule is requested exactly when somebody woken outranks the current process. */
  ghost predicate Rings(s: Sched, t: Sched)
    requires Shaped(s)
  {
    s.procs[s.cur].status != Blocked ==>
      (t.resched <==> s.resched || (s.cur > 0 && exists j :: j in Risen(s, t) && s.procs[j].prio > s.procs[s.cur].eff))
  }

  /** From s to t processes were woken and nothing else happened. */
  ghost predicate Wakes(s: Sched, t: Sched) {
    && Shaped(s) && Shaped(t) && |t.procs| == |s.procs|
    && t == s.(procs := t.procs, queues := t.queues, resched := t.resched)
    && t.procs[0] == s.procs[0].(waitingFor := t.procs[0].waitingFor)
    && (forall j :: 0 < j < |s.procs| ==> Woke(s.procs[j], t.procs[j]))
    && InLine(s, t, Risen(s, t)) && Rings(s, t)
  }

  ghost predicate Woke(p: Proc, q: Proc) {
    q == p || (p.status == Blocked && q == Up(p).(waitingFor := q.waitingFor))
  }

  /** The processes woken are those in `pids` and those that wait for `gone`, in slots from `from` on. */
  ghost predicate Chosen(s: Sched, t: Sched, pids: seq<int>, gone: int, from: nat) {
    |t.procs| == |s.procs| &&
    forall j :: 0 < j < |s.procs| ==> t.procs[j] == if j < from then s.procs[j] else WokenUp(s.procs[j], pids, gone)
  }

  lemma RisenAdds(s: Sched, t: Sched, u: Sched)
    requires Wakes(s, t) && Wakes(t, u)
    ensures Risen(s, u) == Risen(s, t) + Risen(t, u)
  {
    hide InLine, Rings;
    forall j | 0 < j < |s.procs| ensures Woke(s.procs[j], t.procs[j]) && Woke(t.procs[j], u.procs[j]) {}
  }

  lemma WakesRings(s: Sched, t: Sched, u: Sched)
    requires Wakes(s, t) && Wakes(t, u) && Risen(s, u) == Risen(s, t) + Risen(t, u)
    ensures Rings(s, u)
  {
    hide InLine, Up;
    var c := s.cur;
    if s.procs[c].status != Blocked && c > 0 {
      assert Woke(s.procs[c], t.procs[c]);
      forall j | j in Risen(t, u) ensures t.procs[j].prio == s.procs[j].prio { WokePrio(s.procs[j], t.procs[j]); }
    }
  }

  lemma WokePrio(p: Proc, q: Proc)
    requires Woke(p, q)
    ensures q.prio == p.prio
  {
  }

  lemma WakesTrans(s: Sched, t: Sched, u: Sched)
    requires Wakes(s, t) && Wakes(t, u)
    ensures Wakes(s, u)
  {
    RisenAdds(s, t, u);
    WakesRings(s, t, u);
    InLineTrans(s, t, u, Risen(s, t), Risen(t, u));
    hide InLine, Rings;
    forall j | 0 < j < |s.procs| ensures Woke(s.procs[j], u.procs[j]) {
      assert Woke(s.procs[j], t.procs[j]) && Woke(t.procs[j], u.procs[j]);
    }
  }

  /** One blocked process rises. */
  lemma RisesWakes(s: Sched, t: Sched, i: int)
    requires Rises(s, t, i) && Shaped(t) && s.procs[i].status == Blocked
    ensures Wakes(s, t)
  {
    hide InLine;
    assert Risen(s, t) == {i};
    assert i in Risen(s, t);
  }

  lemma NobodyWakes(s: Sched, t: Sched)
    requires Shaped(s) && Shaped(t) && t == s.(procs := t.procs) && |t.procs| == |s.procs|
    requires t.procs[0] == s.procs[0].(waitingFor := t.procs[0].waitingFor) && t.procs[1..] == s.procs[1..]
    ensures Wakes(s, t)
  {
    assert forall j :: 0 < j < |s.procs| ==> t.procs[j] == t.procs[1..][j - 1] == s.procs[1..][j - 1] == s.procs[j];
    assert Risen(s, t) == {};
  }

  lemma UnblockWakes(s: Sched, pid: int, loose: set<int>, stale: bool)
    requires Inv(s, loose, stale)
    ensures Wakes(s, Unblock(s, pid)) && Chosen(s, Unblock(s, pid), [pid], 0, 1)
  {
    var i := FindBlocked(s, pid, 0);
    if i >= 0 {
      forall j | 0 < j < |s.procs| && s.procs[j].status == Blocked ensures s.procs[j].pid in [pid] <==> j == i {
        OnePid(s, i, j);
      }
    }
    if i > 0 {
      MakeReadyRises(s, i, loose, stale);
      hide Inv, MakeReady, Wakes;
      RisesWakes(s, MakeReady(s, i), i);
    } else {
      hide Inv, Wakes;
      NobodyWakes(s, s);
    }
  }

  lemma {:induction false} UnblockAllWakes(s: Sched, pids: seq<int>, loose: set<int>, stale: bool)
    requires Inv(s, loose, stale) && (forall j :: j in loose ==> 0 <= j < |s.procs| && s.procs[j].pid !in pids)
    ensures Wakes(s, UnblockAll(s, pids)) && Chosen(s, UnblockAll(s, pids), pids, 0, 1)
    decreases |pids|
  {
    hide QInv, PInv, Ledger, Unblock, Wakes;
    if pids == [] {
      NobodyWakes(s, s);
    } else {
      var t := Unblock(s, pids[0]);
      UnblockWakes(s, pids[0], loose, stale);
      UnblockKeeps(s, pids[0], loose, stale);
      UnblockAllWakes(t, pids[1..], loose, stale);
      WakesTrans(s, t, UnblockAll(s, pids));
    }
  }

  lemma WakeOneRises(s: Sched, pid: int, i: nat, stale: bool)
    requires Inv(s, {}, stale) && 0 < i < |s.procs| && s.procs[i].status == Blocked && s.procs[i].waitingFor == pid
    ensures Rises(Set(s, i, s.procs[i].(waitingFor := -1)), WakeOne(s, pid, i), i)
  {
    SlotFacts(s, i, {}, stale);
    hide QInv, PInv, Ledger;
    var p := s.procs[i].(waitingFor := -1);
    TouchKeeps(s, i, p, {}, stale);
    hide MakeReady, Rises;
    MakeReadyRises(Set(s, i, p), i, {}, stale);
  }

  lemma WakeOneWakes(s: Sched, pid: int, i: nat, stale: bool)
    requires Inv(s, {}, stale) && i < |s.procs| && pid > 0
    ensures var t := WakeOne(s, pid, i);
            && Wakes(s, t) && |t.procs| == |s.procs|
            && (forall j :: 0 < j < |s.procs| ==> t.procs[j] == if j == i then WokenUp(s.procs[j], [], pid) else s.procs[j])
  {
    var t := WakeOne(s, pid, i);
    if s.procs[i].status == Blocked && s.procs[i].waitingFor == pid {
      var b := Set(s, i, s.procs[i].(waitingFor := -1));
      if i == 0 {
        hide Inv, Wakes;
        NobodyWakes(s, t);
      } else {
        WakeOneRises(s, pid, i, stale);
        hide Inv, MakeReady, Wakes;
        RisesAfter(s, b, t, i);
      }
    } else {
      hide Inv, Wakes;
      NobodyWakes(s, s);
    }
  }

  /** A process that stops waiting and rises. */
  lemma RisesAfter(s: Sched, b: Sched, t: Sched, i: int)
    requires 0 < i < |s.procs| && b == Set(s, i, s.procs[i].(waitingFor := -1)) && Rises(b, t, i) && Shaped(s) && Shaped(t)
    requires s.procs[i].status == Blocked
    ensures Wakes(s, t)
  {
    hide Before;
    assert Risen(s, t) == {i};
    assert i in Risen(s, t);
    assert InLine(s, t, {i});
    hide InLine;
  }

  lemma {:induction false} WakeWaitersWakes(s: Sched, pid: int, i: nat, stale: bool)
    requires Inv(s, {}, stale) && i <= |s.procs| && pid > 0
    ensures Wakes(s, WakeWaiters(s, pid, i)) && Chosen(s, WakeWaiters(s, pid, i), [], pid, i)
    decreases |s.procs| - i
  {
    hide QInv, PInv, Ledger, WakeOne, Wakes, WokenUp;
    if i == |s.procs| {
      NobodyWakes(s, s);
    } else {
      var t := WakeOne(s, pid, i);
      WakeOneWakes(s, pid, i, stale);
      WakeOneKeeps(s, pid, i, stale);
      WakeWaitersWakes(t, pid, i + 1, stale);
      WakesTrans(s, t, WakeWaiters(s, pid, i));
    }
  }

  // ---------------------------------------------------------------- the end of a process

  /** Some are woken, slot c is finished and off the queues, and more are woken. */
  ghost predicate Finishes(a: Sched, b: Sched, d: Sched, e: Sched, c: int) {
    && Wakes(a, b) && Wakes(d, e) && InLine(b, d, {}) && 0 < c < |b.procs| == |d.procs| && Off(e, c) && InRange(e)
    && d.procs == b.procs[c := d.procs[c]] && d.procs[c].status != Ready && d.procs[c].status != Blocked
  }

  lemma FinishRisen(a: Sched, b: Sched, d: Sched, e: Sched, c: int)
    requires Finishes(a, b, d, e, c)
    ensures forall j :: j != c ==> (j in Risen(a, e) <==> j in Risen(a, b) + Risen(d, e)) && c !in Risen(a, e) && c !in Risen(d, e)
  {
    hide InLine, Rings, Off, InRange;
    assert Woke(d.procs[c], e.procs[c]);
    forall j | 0 < j < |a.procs| ensures Woke(a.procs[j], b.procs[j]) && Woke(d.procs[j], e.procs[j]) {}
  }

  lemma FinishOrder(a: Sched, b: Sched, d: Sched, e: Sched, c: int)
    requires Finishes(a, b, d, e, c)
    ensures InLine(a, e, Risen(a, e))
  {
    FinishRisen(a, b, d, e, c);
    hide Rings;
    InLineTrans(a, b, d, Risen(a, b), {});
    InLineTrans(a, d, e, Risen(a, b) + {}, Risen(d, e));
    hide Woke, Risen;
    InLineSame(a, e, Risen(a, b) + {} + Risen(d, e), Risen(a, e));
  }

  lemma FinishChosen(a: Sched, b: Sched, d: Sched, e: Sched, c: int, woken: seq<int>, pid: int)
    requires Finishes(a, b, d, e, c) && Chosen(a, b, woken, 0, 1) && Chosen(d, e, [], pid, 0) && pid > 0
    ensures forall j :: 0 < j < |a.procs| && j != c ==> e.procs[j] == WokenUp(a.procs[j], woken, pid)
    ensures e.procs[c] == d.procs[c]
  {
    hide InLine, Rings, Off, InRange;
  }

  /** The current process of b as a zombie off the queues. */
  ghost function Zombified(b: Sched): (d: Sched)
    requires Shaped(b)
    ensures Shaped(d)
  {
    var u := Unqueue(b, b.cur);
    Set(u, u.cur, u.procs[u.cur].(status := Zombie, quantum := 0, ticks := 0)).(resched := true)
  }

  lemma ZombifiedKeeps(b: Sched, stale: bool)
    requires Inv(b, {}, stale) && b.cur > 0
    ensures Inv(Zombified(b), {}, stale) && InLine(b, Zombified(b), {})
    ensures b.procs[b.cur].pid > 0
  {
    var c := b.cur;
    SlotFacts(b, c, {}, stale);
    CurrentFacts(b);
    assert AllDistinct(b);
    UnqueueInLine(b, c);
    hide QInv, PInv, Ledger, InLine;
    var p := b.procs[c].(status := Zombie, quantum := 0, ticks := 0);
    DropKeeps(b, c, p, {}, stale);
    assert {} - {c} == {};
    ReschedKeeps(Set(Unqueue(b, c), c, p), true, {}, stale);
    QueuesOnly(b, Unqueue(b, c), Zombified(b), {});
  }

  lemma CleanupFinishes(a: Sched, b: Sched, stale: bool)
    requires Wakes(a, b) && Inv(b, {}, stale) && b.cur > 0
    ensures var d, e := Zombified(b), ExitCleanup(b);
            && Finishes(a, b, d, e, b.cur) && Chosen(d, e, [], b.procs[b.cur].pid, 0)
            && e == d.(procs := e.procs, queues := e.queues, resched := true)
  {
    var d, e, c := Zombified(b), ExitCleanup(b), b.cur;
    ZombifiedKeeps(b, stale);
    var pid := b.procs[c].pid;
    assert d.procs == b.procs[c := d.procs[c]];
    hide QInv, PInv, Ledger, InLine, Risen;
    assert e == WakeWaiters(d, pid, 0);
    hide ExitCleanup, Zombified;
    WakeWaitersWakes(d, pid, 0, stale);
    WakeWaitersKeeps(d, pid, 0, stale);
    hide WakeWaiters;
    assert Woke(d.procs[c], e.procs[c]);
    SlotFacts(e, c, {}, stale);
  }

  /** Exit leaves a zombie with the given status, wakes whom closing its descriptors concerns and
      whoever waits for it, and disturbs nobody else. */
  lemma ExitEffect(s: Sched, status: int, woken: seq<int>, stale: bool)
    requires Inv(s, {}, stale) && s.cur > 0
    ensures var t, c := Exit(s, status, woken), s.cur;
            && t == s.(procs := t.procs, queues := t.queues, resched := true)
            && t.procs[c] == s.procs[c].(status := Zombie, exitStatus := status, quantum := 0, ticks := 0, eff := t.procs[c].eff)
            && Off(t, c)
            && (forall j :: 0 < j < |s.procs| && j != c ==> t.procs[j] == WokenUp(s.procs[j], woken, s.procs[c].pid))
            && InLine(s, t, Risen(s, t))
  {
    var c, t, pid := s.cur, Exit(s, status, woken), s.procs[s.cur].pid;
    var a := Set(s, c, s.procs[c].(exitStatus := status));
    var b := UnblockAll(a, woken);
    assert t == ExitCleanup(b);
    hide UnblockAll, ExitCleanup, Wakes, Chosen, Finishes, QInv, PInv, Ledger, InLine, Off, WokenUp, Risen, Zombified;
    ExitRouses(s, status, woken, stale);
    var d := Zombified(b);
    CleanupFinishes(a, b, stale);
    ZombieIs(a, b, woken);
    FinishOff(a, b, d, t, c);
    FinishOrder(a, b, d, t, c);
    FinishChosen(a, b, d, t, c, woken, pid);
    SameOrder(s, a, t);
  }

  lemma ExitRouses(s: Sched, status: int, woken: seq<int>, stale: bool)
    requires Inv(s, {}, stale) && s.cur > 0
    ensures s.procs[s.cur].pid > 0
    ensures var a := Set(s, s.cur, s.procs[s.cur].(exitStatus := status));
            var b := UnblockAll(a, woken);
            Inv(b, {}, stale) && Wakes(a, b) && Chosen(a, b, woken, 0, 1) && b.cur == a.cur && b.procs[b.cur].pid == a.procs[a.cur].pid
  {
    var c := s.cur;
    SlotFacts(s, c, {}, stale);
    CurrentFacts(s);
    hide QInv, PInv, Ledger, Wakes, Chosen;
    var a := Set(s, c, s.procs[c].(exitStatus := status));
    TouchKeeps(s, c, a.procs[c], {}, stale);
    UnblockAllKeeps(a, woken, {}, stale);
    UnblockAllWakes(a, woken, {}, stale);
  }

  lemma FinishOff(a: Sched, b: Sched, d: Sched, e: Sched, c: int)
    requires Finishes(a, b, d, e, c)
    ensures Off(e, c)
  {
  }

  lemma ZombieIs(a: Sched, b: Sched, woken: seq<int>)
    requires Wakes(a, b) && Chosen(a, b, woken, 0, 1) && a.cur > 0
    ensures var d, c := Zombified(b), a.cur;
            && d == a.(procs := d.procs, queues := d.queues, resched := true) && |d.procs| == |a.procs|
            && d.procs[c] == a.procs[c].(status := Zombie, quantum := 0, ticks := 0, eff := d.procs[c].eff)
  {
    hide InLine, Rings;
    assert b.procs[b.cur] == WokenUp(a.procs[a.cur], woken, 0);
  }

  /** The order from s is the order from a when they have the same queues and blocked slots. */
  lemma SameOrder(s: Sched, a: Sched, t: Sched)
    requires InLine(a, t, Risen(a, t)) && Shaped(s) && a.queues == s.queues && |a.procs| == |s.procs|
    requires forall j :: 0 <= j < |s.procs| ==> a.procs[j].status == s.procs[j].status
    ensures InLine(s, t, Risen(s, t))
  {
    assert Risen(s, t) == Risen(a, t);
    hide Before;
  }

  lemma FinishRings(a: Sched, b: Sched, d: Sched, e: Sched, c: int)
    requires Finishes(a, b, d, e, c) && c != a.cur && d.cur == b.cur && d.resched == b.resched && b.procs[c] == a.procs[c]
    ensures Rings(a, e)
  {
    FinishRisen(a, b, d, e, c);
    hide InLine, Off, InRange, Up;
    var k := a.cur;
    if a.procs[k].status != Blocked && k > 0 {
      assert Woke(a.procs[k], b.procs[k]);
      forall j | j in Risen(d, e) ensures d.procs[j].prio == a.procs[j].prio { WokePrio(a.procs[j], b.procs[j]); }
    }
  }

  lemma DistinctQueues(s: Sched, loose: set<int>, stale: bool)
    requires QInv(s, loose, stale)
    ensures AllDistinct(s)
  {
  }

  lemma KillRouses(s: Sched, i: int, pid: int, woken: seq<int>, stale: bool)
    requires Inv(s, {}, stale) && pid !in woken && 0 < i < |s.procs| && i != s.cur && Live(s.procs[i]) && s.procs[i].pid == pid
    ensures pid > 0 && s.procs[i].stack != NONE
    ensures var r := Unqueue(s, i);
            var a := UnblockAll(r, woken);
            && InLine(s, r, {}) && Wakes(r, a) && Chosen(r, a, woken, 0, 1) && a.procs[i] == s.procs[i]
            && Inv(Buried(a, i), {}, stale)
  {
    hide QInv, PInv, Ledger, Wakes, Chosen, InLine, AllDistinct, Queued;
    SlotFacts(s, i, {}, stale);
    DistinctQueues(s, {}, stale);
    UnqueueInLine(s, i);
    var r := Unqueue(s, i);
    UnqueueQ(s, i, {}, stale);
    assert {} + {i} == {i};
    FrameP(s, r);
    UnblockAllKeeps(r, woken, {i}, stale);
    UnblockAllWakes(r, woken, {i}, stale);
    var a := UnblockAll(r, woken);
    BuryKeeps(a, i, Bury(a.procs[i]), a.reaped, stale);
  }

  lemma BuriedFinishes(r: Sched, a: Sched, i: int, pid: int, stale: bool)
    requires Wakes(r, a) && 0 < i < |a.procs| && pid > 0 && Inv(Buried(a, i), {}, stale)
    ensures var b := Buried(a, i);
            var t := WakeWaiters(b, pid, 0);
            && Finishes(r, a, b, t, i) && Chosen(b, t, [], pid, 0)
            && t == b.(procs := t.procs, queues := t.queues, resched := t.resched)
  {
    var b := Buried(a, i);
    var t := WakeWaiters(b, pid, 0);
    assert InLine(a, b, {}) && b.procs == a.procs[i := b.procs[i]];
    hide QInv, PInv, Ledger, InLine, Rings, Buried;
    WakeWaitersWakes(b, pid, 0, stale);
    WakeWaitersKeeps(b, pid, 0, stale);
    hide WakeWaiters;
    assert Woke(b.procs[i], t.procs[i]);
    SlotFacts(t, i, {}, stale);
  }

  lemma KillIsSlot(s: Sched, i: int, pid: int, woken: seq<int>)
    requires PInv(s) && pid > 1 && 0 < i < |s.procs| && i != s.cur && Live(s.procs[i]) && s.procs[i].pid == pid
    ensures Kill(s, pid, woken) == WakeWaiters(Buried(UnblockAll(Unqueue(s, i), woken), i), pid, 0)
  {
    OnePid(s, i, Find(s, pid, 0));
    hide PInv, UnblockAll, WakeWaiters, Unqueue;
  }

  /** Killing another process frees its slot and its stack, wakes whom closing its descriptors
      concerns and whoever waits for it, and disturbs nobody else. */
  lemma KillEffect(s: Sched, i: int, pid: int, woken: seq<int>, stale: bool)
    requires Inv(s, {}, stale) && pid !in woken && pid > 1 && 0 < i < |s.procs| && i != s.cur && Live(s.procs[i]) && s.procs[i].pid == pid
    ensures var t, p := Kill(s, pid, woken), s.procs[i];
            && t == s.(procs := t.procs, queues := t.queues, resched := t.resched, count := s.count - 1, frees := s.frees + multiset{p.stack})
            && t.procs[i] == p.(status := Dead, quantum := 0, waitingFor := -1, eff := 0, ticks := 0, stack := NONE)
            && Off(t, i)
            && (forall j :: 0 < j < |s.procs| && j != i ==> t.procs[j] == WokenUp(s.procs[j], woken, pid))
            && InLine(s, t, Risen(s, t)) && Rings(s, t)
  {
    hide QInv, PInv, Ledger, Wakes, Chosen, Finishes, InLine, Off, WokenUp, Risen, Rings, UnblockAll, WakeWaiters, Kill, Unqueue;
    KillIsSlot(s, i, pid, woken);
    var r := Unqueue(s, i);
    var a := UnblockAll(r, woken);
    var b := Buried(a, i);
    var t := Kill(s, pid, woken);
    KillRouses(s, i, pid, woken, stale);
    BuriedFinishes(r, a, i, pid, stale);
    BuriedIs(r, a, i);
    FinishOff(r, a, b, t, i);
    FinishOrder(r, a, b, t, i);
    FinishChosen(r, a, b, t, i, woken, pid);
    FinishRings(r, a, b, t, i);
    InLineTrans(s, r, t, {}, Risen(r, t));
    SameRisen(s, r, t);
  }

  lemma BuriedIs(r: Sched, a: Sched, i: int)
    requires Wakes(r, a) && 0 < i < |r.procs| && a.procs[i] == r.procs[i] && r.procs[i].stack != NONE
    ensures var b := Buried(a, i);
            b == r.(procs := b.procs, queues := b.queues, resched := b.resched, count := r.count - 1, frees := r.frees + multiset{r.procs[i].stack})
    ensures a.cur == r.cur == Buried(a, i).cur && Buried(a, i).resched == a.resched
  {
  }

  lemma SameRisen(s: Sched, r: Sched, t: Sched)
    requires Shaped(s) && r == s.(queues := r.queues)
    ensures {} + Risen(r, t) == Risen(s, t)
    ensures Shaped(r) && Rings(r, t) ==> Rings(s, t)
  {
    assert Risen(r, t) == Risen(s, t);
  }

  /** Pids up to 1 and unknown ones are refused; a process that kills itself exits with status -1. */
  lemma KillOtherwise(s: Sched, pid: int, woken: seq<int>)
    requires PInv(s)
    ensures pid <= 1 || (forall j :: 0 <= j < |s.procs| && Live(s.procs[j]) ==> s.procs[j].pid != pid) ==> Kill(s, pid, woken) == s
    ensures pid > 1 && s.procs[s.cur].pid == pid ==> Kill(s, pid, woken) == Exit(s, -1, woken)
  {
    if pid > 1 && s.procs[s.cur].pid == pid { OnePid(s, s.cur, Find(s, pid, 0)); }
  }

  // ---------------------------------------------------------------- the other operations

  lemma BlockEffect(s: Sched, i: int, pid: int, stale: bool)
    requires Inv(s, {}, stale) && 0 <= i < |s.procs| && Live(s.procs[i]) && s.procs[i].pid == pid
    ensures var t, p := Block(s, pid), s.procs[i];
            && t == s.(procs := s.procs[i := p.(status := Blocked, quantum := if i == s.cur then 0 else p.quantum)], queues := t.queues,
                       resched := s.resched || i == s.cur)
            && Off(t, i) && InLine(s, t, {})
  {
    OnePid(s, i, Find(s, pid, 0));
    SlotFacts(s, i, {}, stale);
    UnqueueQ(s, i, {}, stale);
    assert AllDistinct(s);
    UnqueueInLine(s, i);
    hide Inv, InLine;
    QueuesOnly(s, Unqueue(s, i), Block(s, pid), {});
  }

  lemma BlockUnknown(s: Sched, pid: int)
    requires Shaped(s) && forall j :: 0 <= j < |s.procs| && Live(s.procs[j]) ==> s.procs[j].pid != pid
    ensures Block(s, pid) == s
  {
  }

  /** The process gets the new priority at once; if it was queued it goes to the tail of its new
      queue. The current process is asked to give way, as it is when somebody now outranks it. */
  lemma NiceEffect(s: Sched, i: int, pid: int, priority: int, stale: bool)
    requires Inv(s, {}, stale) && 0 <= i < |s.procs| && Live(s.procs[i]) && s.procs[i].pid == pid && 1 <= priority <= 5
    ensures var t, p := Nice(s, pid, priority), s.procs[i];
            && t == s.(procs := s.procs[i := p.(prio := priority, eff := priority, ticks := 0, quantum := 1)], queues := t.queues,
                       resched := s.resched || i == s.cur || priority > s.procs[s.cur].eff)
            && (Queued(t, i) <==> Queued(s, i)) && InLine(s, t, {i})
  {
    OnePid(s, i, Find(s, pid, 0));
    var t := Nice(s, pid, priority);
    var r := Reprioritize(s, i, priority);
    ReprioritizeOrder(s, i, priority, stale);
    hide Inv, InLine, Reprioritize, Find, Queued;
    QueuesOnly(s, r, t, {i});
    QueuedOnly(r, t, i);
  }

  lemma QueuedOnly(s: Sched, t: Sched, i: int)
    requires Shaped(s) && Shaped(t) && t.procs == s.procs && t.queues == s.queues
    ensures Queued(s, i) <==> Queued(t, i)
  {
  }

  lemma ReprioritizeOrder(s: Sched, i: int, priority: int, stale: bool)
    requires Inv(s, {}, stale) && 0 <= i < |s.procs| && Live(s.procs[i]) && 1 <= priority <= 5
    ensures var r, p := Reprioritize(s, i, priority), s.procs[i];
            && r == s.(procs := s.procs[i := p.(prio := priority, eff := priority, ticks := 0, quantum := 1)], queues := r.queues)
            && (Queued(r, i) <==> Queued(s, i)) && InLine(s, r, {i})
  {
    var p := s.procs[i].(prio := priority, eff := priority, ticks := 0, quantum := 1);
    SlotFacts(s, i, {}, stale);
    assert AllDistinct(s);
    if Queued(s, i) {
      UnqueueQ(s, i, {}, stale);
      hide Inv, InLine, Off;
      RequeueInLine(s, i, p);
    } else {
      hide Inv, InLine;
      InLineOff(s, i);
      QueuesOnly(s, s, Set(s, i, p), {i});
    }
  }

  lemma InLineOff(s: Sched, i: int)
    requires Shaped(s) && Off(s, i)
    ensures InLine(s, s, {i})
  {
    hide Before;
  }

  /** A priority out of range or a pid that nobody has changes nothing. */
  lemma NiceRefused(s: Sched, pid: int, priority: int)
    requires Shaped(s)
    requires !(1 <= priority <= 5) || forall j :: 0 <= j < |s.procs| && Live(s.procs[j]) ==> s.procs[j].pid != pid
    ensures Nice(s, pid, priority) == s
  {
  }

  /** The new process enters the first free slot with the requested priority, or 3 when that is
      out of range, as a child of the caller, ready, at the tail of its queue. */
  lemma CreateEffect(s: Sched, i: int, priority: int, stack: int, stale: bool)
    requires Inv(s, {}, stale) && FreshStack(s, stack) && stack != NONE
    requires 0 < i < |s.procs| && s.procs[i].status == Dead && forall j :: 0 < j < i ==> s.procs[j].status != Dead
    ensures var t, prio := Create(s, priority, stack), if 1 <= priority <= 5 then priority else 3;
            && t == s.(procs := s.procs[i := Proc(s.nextPid, s.procs[s.cur].pid, Ready, prio, prio, 1, 0, stack, -1, 0)], queues := t.queues,
                       resched := s.resched || (s.cur > 0 && prio > s.procs[s.cur].eff),
                       nextPid := s.nextPid + 1, count := s.count + 1, allocs := s.allocs + multiset{stack})
            && Queued(t, i) && InLine(s, t, {i})
  {
    var prio := if 1 <= priority <= 5 then priority else 3;
    var p := Proc(s.nextPid, s.procs[s.cur].pid, Ready, prio, prio, 1, 0, stack, -1, 0);
    var a, t := Admit(s, i, p), Create(s, priority, stack);
    hide QInv, PInv, Ledger, MakeReady, InLine, FindDead, Create, Stacks;
    CurrentFacts(s);
    CreateIs(s, i, priority, stack);
    CreateRises(s, i, p, stale);
    hide Inv, FreshStack;
    QueuesFrom(s, a, t, {i});
    assert a.procs[i := Up(p)] == a.procs;
  }

  lemma CreateIs(s: Sched, i: int, priority: int, stack: int)
    requires Shaped(s) && stack != NONE
    requires 0 < i < |s.procs| && s.procs[i].status == Dead && forall j :: 0 < j < i ==> s.procs[j].status != Dead
    ensures var prio := if 1 <= priority <= 5 then priority else 3;
            Create(s, priority, stack) == MakeReady(Admit(s, i, Proc(s.nextPid, s.procs[s.cur].pid, Ready, prio, prio, 1, 0, stack, -1, 0)), i)
  {
    hide MakeReady;
  }

  lemma CreateRises(s: Sched, i: int, p: Proc, stale: bool)
    requires Inv(s, {}, stale) && 0 < i < |s.procs| && s.procs[i].status == Dead && 1 <= p.prio <= 5
    requires p == Proc(s.nextPid, s.procs[s.cur].pid, Ready, p.prio, p.prio, 1, 0, p.stack, -1, 0) && p.stack != NONE
    requires p.stack !in Stacks(s.procs[1..])
    ensures var a := Admit(s, i, p); Rises(a, MakeReady(a, i), i) && Queued(MakeReady(a, i), i)
  {
    var a := Admit(s, i, p);
    CurrentFacts(s);
    hide QInv, PInv, Ledger, Stacks, MakeReady, InLine;
    assert SlotOk(p, s.nextPid + 1);
    NewProcess(s, i, p, stale);
    MakeReadyRises(a, i, {i}, stale);
    MakeReadyKeeps(a, i, {i}, stale);
    SlotFacts(MakeReady(a, i), i, {i} - {i}, stale);
  }

  lemma QueuesFrom(s: Sched, a: Sched, t: Sched, moved: set<int>)
    requires InLine(a, t, moved) && Shaped(s) && a.queues == s.queues
    ensures InLine(s, t, moved)
  {
  }

  lemma CreateRefused(s: Sched, priority: int, stack: int)
    requires Shaped(s) && (stack == NONE || forall j :: 0 < j < |s.procs| ==> s.procs[j].status != Dead)
    ensures Create(s, priority, stack) == s
  {
  }

  /** Waiting for a living child blocks the caller; for a finished one it returns the status and
      frees the slot; for anybody else it returns -1 and changes nothing. */
  lemma WaitEffect(s: Sched, i: int, pid: int, stale: bool)
    requires Inv(s, {}, stale) && 0 < i < |s.procs| && Live(s.procs[i]) && s.procs[i].pid == pid
    ensures var t, c, p := Wait(s, pid), s.cur, s.procs[i];
            if p.parent != s.procs[c].pid then t == s && WaitResult(s, pid) == -1
            else if p.status != Zombie then
              && WaitResult(s, pid) == -2 && i != c
              && t == s.(procs := s.procs[c := s.procs[c].(status := Blocked, waitingFor := pid, quantum := 0)], resched := true)
            else
              && WaitResult(s, pid) == p.exitStatus && i != c
              && t == s.(procs := s.procs[i := t.procs[i]], count := s.count - 1, frees := s.frees + multiset{p.stack}, reaped := s.reaped + [pid])
              && t.procs[i].status == Dead && t.procs[i].pid == 0
  {
    OnePid(s, i, Find(s, pid, 0));
    SlotFacts(s, i, {}, stale);
    if WaitBlocks(s, pid) || WaitReaps(s, pid) { ChildIsYounger(s, pid, stale); }
    hide Inv;
  }

  lemma WaitUnknown(s: Sched, pid: int)
    requires Shaped(s) && (pid <= 0 || forall j :: 0 <= j < |s.procs| && Live(s.procs[j]) ==> s.procs[j].pid != pid)
    ensures Wait(s, pid) == s && WaitResult(s, pid) == -1
  {
  }
}

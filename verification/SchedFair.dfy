/** Bounded waiting: aging brings every ready process to the processor. */
module SchedFair {
  import opened Seqs
  import opened SchedSpec
  import opened SchedInv

  ghost predicate AllDistinct(s: Sched) {
    Shaped(s) && forall l :: 0 <= l < LEVELS ==> NoDuplicates(s.queues[l])
  }

  /** The fields of a waiting process that its fate depends on. */
  ghost predicate SameClaim(p: Proc, q: Proc) {
    p.pid == q.pid && p.status == q.status && p.prio == q.prio && p.eff == q.eff && p.ticks == q.ticks
  }

  /** From s to t slot k stays queued with the same claim and does not move back. */
  ghost predicate StillWaits(s: Sched, t: Sched, k: int) {
    && AllDistinct(s) && AllDistinct(t) && |t.procs| == |s.procs|
    && Queued(s, k) && Queued(t, k) && SameClaim(s.procs[k], t.procs[k])
    && IndexOf(t.queues[Level(t.procs[k].eff)], k) <= IndexOf(s.queues[Level(s.procs[k].eff)], k)
  }

  lemma SetOther(s: Sched, i: int, p: Proc, k: int)
    requires AllDistinct(s) && Queued(s, k) && 0 <= i < |s.procs| && (i == k ==> SameClaim(s.procs[k], p))
    ensures StillWaits(s, Set(s, i, p), k)
  {
  }

  lemma UnqueueOther(s: Sched, i: int, k: int)
    requires AllDistinct(s) && Queued(s, k) && i != k
    ensures StillWaits(s, Unqueue(s, i), k)
  {
    if Queued(s, i) {
      var l := Level(s.procs[i].eff);
      RemoveFacts(s.queues[l], i);
      if l == Level(s.procs[k].eff) { RemoveIndex(s.queues[l], i, k); }
    }
  }

  lemma EnqueueOther(s: Sched, i: int, k: int)
    requires AllDistinct(s) && Queued(s, k)
    ensures StillWaits(s, Enqueue(s, i), k)
  {
    if 0 < i < |s.procs| && !Queued(s, i) {
      AppendFacts(s.queues[Level(s.procs[i].eff)], i);
    }
  }

  lemma RequeueOther(s: Sched, i: int, p: Proc, k: int)
    requires AllDistinct(s) && Queued(s, k) && 0 <= i < |s.procs| && i != k
    ensures StillWaits(s, Enqueue(Set(Unqueue(s, i), i, p), i), k)
  {
    UnqueueOther(s, i, k);
    SetOther(Unqueue(s, i), i, p, k);
    EnqueueOther(Set(Unqueue(s, i), i, p), i, k);
  }

  lemma MakeReadyOther(s: Sched, i: int, k: int)
    requires AllDistinct(s) && Queued(s, k) && 0 <= i < |s.procs| && i != k
    ensures StillWaits(s, MakeReady(s, i), k)
  {
    var p := s.procs[i];
    RequeueOther(s, i, p.(eff := p.prio, ticks := 0, status := Ready, quantum := DEFAULT_QUANTUM), k);
  }

  lemma UnblockOther(s: Sched, pid: int, k: int)
    requires AllDistinct(s) && Queued(s, k) && s.procs[k].status == Ready
    ensures StillWaits(s, Unblock(s, pid), k)
  {
    var i := FindBlocked(s, pid, 0);
    if i >= 0 { MakeReadyOther(s, i, k); }
  }

  lemma {:induction false} UnblockAllOther(s: Sched, pids: seq<int>, k: int)
    requires AllDistinct(s) && Queued(s, k) && s.procs[k].status == Ready
    ensures StillWaits(s, UnblockAll(s, pids), k)
    decreases |pids|
  {
    if pids != [] {
      UnblockOther(s, pids[0], k);
      UnblockAllOther(Unblock(s, pids[0]), pids[1..], k);
    }
  }

  lemma WakeOneOther(s: Sched, pid: int, i: nat, k: int)
    requires AllDistinct(s) && Queued(s, k) && s.procs[k].status == Ready && i < |s.procs|
    ensures StillWaits(s, WakeOne(s, pid, i), k)
  {
    if s.procs[i].status == Blocked && s.procs[i].waitingFor == pid {
      SetOther(s, i, s.procs[i].(waitingFor := -1), k);
      MakeReadyOther(Set(s, i, s.procs[i].(waitingFor := -1)), i, k);
    }
  }

  lemma {:induction false} WakeWaitersOther(s: Sched, pid: int, i: nat, k: int)
    requires AllDistinct(s) && Queued(s, k) && s.procs[k].status == Ready && i <= |s.procs|
    ensures StillWaits(s, WakeWaiters(s, pid, i), k)
    decreases |s.procs| - i
  {
    if i < |s.procs| {
      WakeOneOther(s, pid, i, k);
      WakeWaitersOther(WakeOne(s, pid, i), pid, i + 1, k);
    }
  }

  lemma ExitOther(s: Sched, status: int, woken: seq<int>, k: int)
    requires AllDistinct(s) && Queued(s, k) && s.procs[k].status == Ready && s.cur != k
    ensures StillWaits(s, Exit(s, status, woken), k)
  {
    if s.cur > 0 {
      var a := Set(s, s.cur, s.procs[s.cur].(exitStatus := status));
      SetOther(s, s.cur, a.procs[s.cur], k);
      UnblockAllOther(a, woken, k);
      var b := UnblockAll(a, woken);
      UnblockAllCur(a, woken);
      UnqueueOther(b, b.cur, k);
      var c := Unqueue(b, b.cur);
      var p := c.procs[c.cur].(status := Zombie, quantum := 0, ticks := 0);
      SetOther(c, c.cur, p, k);
      WakeWaitersOther(Set(c, c.cur, p).(resched := true), p.pid, 0, k);
    }
  }

  lemma {:induction false} UnblockAllCur(s: Sched, pids: seq<int>)
    requires Shaped(s)
    ensures UnblockAll(s, pids).cur == s.cur
    decreases |pids|
  {
    if pids != [] { UnblockAllCur(Unblock(s, pids[0]), pids[1..]); }
  }

  lemma KillOther(s: Sched, pid: int, woken: seq<int>, k: int)
    requires AllDistinct(s) && Queued(s, k) && s.procs[k].status == Ready && pid != s.procs[k].pid
    ensures StillWaits(s, Kill(s, pid, woken), k)
  {
    var i := Find(s, pid, 0);
    if pid > 1 && i >= 0 {
      if i == s.cur {
        ExitOther(s, -1, woken, k);
      } else {
        UnqueueOther(s, i, k);
        UnblockAllOther(Unqueue(s, i), woken, k);
        var a := UnblockAll(Unqueue(s, i), woken);
        SetOther(a, i, Bury(a.procs[i]), k);
        WakeWaitersOther(Buried(a, i), pid, 0, k);
      }
    }
  }

  lemma NiceOther(s: Sched, pid: int, priority: int, k: int)
    requires AllDistinct(s) && Queued(s, k) && pid != s.procs[k].pid
    ensures StillWaits(s, Nice(s, pid, priority), k)
  {
    var i := Find(s, pid, 0);
    if i >= 0 {
      var p := s.procs[i].(prio := priority, eff := priority, ticks := 0, quantum := DEFAULT_QUANTUM);
      UnqueueOther(s, i, k);
      SetOther(Unqueue(s, i), i, p, k);
      EnqueueOther(Set(Unqueue(s, i), i, p), i, k);
    }
  }

  lemma BlockOther(s: Sched, pid: int, k: int)
    requires AllDistinct(s) && Queued(s, k) && pid != s.procs[k].pid
    ensures StillWaits(s, Block(s, pid), k)
  {
    var i := Find(s, pid, 0);
    if i >= 0 {
      UnqueueOther(s, i, k);
      SetOther(Unqueue(s, i), i, Block(s, pid).procs[i], k);
    }
  }

  lemma CreateOther(s: Sched, priority: int, stack: int, k: int)
    requires AllDistinct(s) && Queued(s, k) && s.procs[k].status == Ready
    ensures StillWaits(s, Create(s, priority, stack), k)
  {
    var prio := if PRIORITY_MIN <= priority <= PRIORITY_MAX then priority else DEFAULT_PRIORITY;
    var i := FindDead(s, 1);
    if i >= 0 && stack != NONE {
      var p := Proc(s.nextPid, s.procs[s.cur].pid, Ready, prio, prio, DEFAULT_QUANTUM, 0, stack, -1, 0);
      SetOther(s, i, p, k);
      MakeReadyOther(Admit(s, i, p), i, k);
    }
  }

  lemma WaitOther(s: Sched, pid: int, k: int)
    requires AllDistinct(s) && Queued(s, k) && s.procs[k].status == Ready && s.cur != k
    ensures StillWaits(s, Wait(s, pid), k)
  {
    if WaitBlocks(s, pid) {
      SetOther(s, s.cur, Wait(s, pid).procs[s.cur], k);
    } else if WaitReaps(s, pid) {
      var i := Find(s, pid, 0);
      UnqueueOther(s, i, k);
      SetOther(Unqueue(s, i), i, Wait(s, pid).procs[i], k);
    }
  }

  ghost predicate Holds(s: Sched, k: int, pid: int) {
    0 <= k < |s.procs| && s.procs[k].pid == pid
  }

  /** The step does not kill, block or renice the process in slot k. */
  ghost predicate Spares(s: Sched, step: Step, k: int) {
    match step
    case DoKill(pid, _) => !Holds(s, k, pid)
    case DoBlock(pid) => !Holds(s, k, pid)
    case DoNice(pid, _) => !Holds(s, k, pid)
    case DoExit(_, _) => s.cur != k
    case DoWait(_) => s.cur != k
    case _ => true
  }

  /** Whatever other processes do between ticks, a waiting process loses nothing. */
  lemma OthersCannotDelay(s: Sched, step: Step, k: int)
    requires AllDistinct(s) && InRange(s) && Queued(s, k) && s.procs[k].status == Ready && Spares(s, step, k) && step != DoTick
    ensures StillWaits(s, Do(s, step), k)
  {
    match step {
      case DoCreate(priority, stack) => CreateOther(s, priority, stack, k);
      case DoKill(pid, woken) => KillOther(s, pid, woken, k);
      case DoExit(status, woken) => ExitOther(s, status, woken, k);
      case DoBlock(pid) => BlockOther(s, pid, k);
      case DoUnblock(pid) => UnblockOther(s, pid, k);
      case DoNice(pid, priority) => NiceOther(s, pid, priority, k);
      case DoWait(pid) => WaitOther(s, pid, k);
      case DoYield => SetOther(s, s.cur, s.procs[s.cur].(quantum := 0), k);
    }
  }

  // ---------------------------------------------------------------- progress at a tick

  lemma AgeOneOther(s: Sched, i: int, k: int)
    requires AllDistinct(s) && Queued(s, k) && 0 < i < |s.procs| && i != k
    ensures StillWaits(s, AgeOne(s, i), k)
  {
    var p := s.procs[i];
    RequeueOther(s, i, p.(eff := p.eff + 1, ticks := 0), k);
    SetOther(s, i, p.(ticks := p.ticks + 1), k);
  }

  lemma {:induction false} AgeFromOther(s: Sched, i: nat, k: int)
    requires AllDistinct(s) && Queued(s, k) && k < i <= |s.procs|
    ensures StillWaits(s, AgeFrom(s, i), k)
    decreases |s.procs| - i
  {
    hide AgeOne, NoDuplicates;
    if i < |s.procs| {
      AgeOneOther(s, i, k);
      AgeFromOther(AgeOne(s, i), i + 1, k);
    }
  }

  /** What the aging pass does for the waiting slot k. */
  ghost predicate Aged(s: Sched, t: Sched, k: int) {
    && AllDistinct(s) && AllDistinct(t) && |t.procs| == |s.procs| && Queued(s, k) && Queued(t, k)
    && var p, q := s.procs[k], t.procs[k];
       && q.pid == p.pid && q.status == p.status && q.prio == p.prio
       && if p.ticks + 1 >= AGING_THRESHOLD && p.eff < PRIORITY_MAX
          then q.eff == p.eff + 1 && q.ticks == 0
          else q.eff == p.eff && q.ticks == p.ticks + 1
               && IndexOf(t.queues[Level(q.eff)], k) <= IndexOf(s.queues[Level(p.eff)], k)
  }

  lemma AgeOneSelf(s: Sched, k: int)
    requires AllDistinct(s) && Queued(s, k) && s.procs[k].status == Ready
    ensures Aged(s, AgeOne(s, k), k)
  {
    var p := s.procs[k];
    if p.ticks + 1 >= AGING_THRESHOLD && p.eff < PRIORITY_MAX {
      RemoveFacts(s.queues[Level(p.eff)], k);
      var a := Set(Unqueue(s, k), k, p.(eff := p.eff + 1, ticks := 0));
      if !Queued(a, k) { AppendFacts(a.queues[Level(p.eff + 1)], k); }
    }
  }

  lemma {:induction false} AgeFromSelf(s: Sched, i: nat, k: int)
    requires AllDistinct(s) && Queued(s, k) && s.procs[k].status == Ready && 0 < i <= k
    ensures Aged(s, AgeFrom(s, i), k)
    decreases k - i
  {
    if i < k {
      AgeOneOther(s, i, k);
      AgeFromSelf(AgeOne(s, i), i + 1, k);
    } else {
      AgeOneSelf(s, k);
      AgeFromOther(AgeOne(s, k), k + 1, k);
    }
  }

  lemma PreemptOther(s: Sched, k: int)
    requires AllDistinct(s) && Queued(s, k) && s.procs[k].status == Ready
    ensures StillWaits(s, Preempt(s), k)
  {
    if s.procs[s.cur].status == Running {
      var p := s.procs[s.cur];
      SetOther(s, s.cur, p.(quantum := p.quantum - 1), k);
      MakeReadyOther(Charge(s), s.cur, k);
    }
  }

  /** A queue never holds more than all slots but the idle one. */
  lemma QueueBound(s: Sched, l: nat, k: int)
    requires Inv(s, {}, true) && l < LEVELS && k in s.queues[l]
    ensures IndexOf(s.queues[l], k) <= |s.procs| - 2
  {
    var q := s.queues[l] + [0];
    forall i | 0 <= i < |s.queues[l]| ensures 0 < q[i] < |s.procs| { assert q[i] in s.queues[l]; }
    Pigeonhole(q, |s.procs|);
  }

  /** Ticks until slot k runs, at most: aging credit still to gather, then places in the top queue. */
  ghost function Distance(s: Sched, k: int): int
    requires Shaped(s) && Queued(s, k)
  {
    var p := s.procs[k];
    if p.eff < PRIORITY_MAX then AGING_THRESHOLD * (PRIORITY_MAX - p.eff) - p.ticks + |s.procs| - 1
    else IndexOf(s.queues[Level(p.eff)], k) + 1
  }

  lemma WaiterFacts(s: Sched, k: int)
    requires Inv(s, {}, true) && 0 < k < |s.procs| && s.procs[k].status == Ready
    ensures AllDistinct(s) && Queued(s, k)
    ensures PRIORITY_MIN <= s.procs[k].prio <= s.procs[k].eff <= PRIORITY_MAX
    ensures s.procs[k].eff < PRIORITY_MAX ==> 0 <= s.procs[k].ticks < AGING_THRESHOLD
    ensures 0 < Distance(s, k) <= AGING_THRESHOLD * (PRIORITY_MAX - s.procs[k].prio) + |s.procs| - 1
  {
    SlotFacts(s, k, {}, true);
    QueueBound(s, Level(s.procs[k].eff), k);
  }

  /** The dispatch of another slot advances k by one place when k is in the top queue. */
  lemma SwitchOther(a: Sched, k: int)
    requires Inv(a, {}, true) && AllDistinct(a) && Queued(a, k) && a.procs[k].status == Ready
    requires 0 <= Next(a) < |a.procs| && Next(a) != k
    ensures StillWaits(a, Switch(a), k)
    ensures a.procs[k].eff == PRIORITY_MAX ==>
              IndexOf(Switch(a).queues[Level(PRIORITY_MAX)], k) < IndexOf(a.queues[Level(PRIORITY_MAX)], k)
  {
    var i := Next(a);
    SwitchIsDrop(a, true);
    NextFacts(a, true);
    var b := a.(cur := i);
    UnqueueOther(b, i, k);
    SetOther(Unqueue(b, i), i, Dispatched(a.procs[i], i), k);
    if a.procs[k].eff == PRIORITY_MAX {
      assert i > 0 && a.procs[i].eff == PRIORITY_MAX;
      var q := a.queues[Level(PRIORITY_MAX)];
      assert q[0] == i;
      TailFacts(q);
      RemoveIndex(q, i, k);
    }
  }

  /** A tick runs slot k or brings it closer. */
  lemma TickProgress(s: Sched, k: int)
    requires Inv(s, {}, true) && InRange(s) && 0 < k < |s.procs| && s.procs[k].status == Ready
    ensures var t := Tick(s);
            && Inv(t, {}, true)
            && (t.cur == k
                || (&& t.procs[k].status == Ready && t.procs[k].pid == s.procs[k].pid && t.procs[k].prio == s.procs[k].prio
                    && Queued(t, k) && Distance(t, k) < Distance(s, k)))
  {
    WaiterFacts(s, k);
    TickFacts(s, true);
    var a, t := AgeFrom(Preempt(s), 1), Tick(s);
    hide Inv, AgeFrom, Preempt, Tick, Switch;
    PreemptOther(s, k);
    AgeFromSelf(Preempt(s), 1, k);
    if t.cur != k {
      SwitchOther(a, k);
      WaiterFacts(a, k);
      QueueBound(a, Level(a.procs[k].eff), k);
    }
  }

  // ---------------------------------------------------------------- the theorem

  ghost function TickCount(steps: seq<Step>): nat {
    if steps == [] then 0
    else TickCount(steps[..|steps| - 1]) + if steps[|steps| - 1] == DoTick then 1 else 0
  }

  /** Step n of a run is a tick that dispatches slot k. */
  ghost predicate DispatchedAt(states: seq<Sched>, steps: seq<Step>, n: nat, k: int)
    requires |states| == |steps| + 1
  {
    n < |steps| && steps[n] == DoTick && states[n + 1].cur == k
  }

  ghost predicate Waiting(s: Sched, k: int) {
    Inv(s, {}, true) && 0 < k < |s.procs| && s.procs[k].status == Ready && Queued(s, k)
  }

  /** Each step dispatches slot k or leaves it waiting, one closer when the step is a tick. */
  lemma StepProgress(s: Sched, step: Step, k: int)
    requires Waiting(s, k) && InRange(s) && Allowed(s, step) && Spares(s, step, k)
    ensures var t := Do(s, step);
            || (step == DoTick && t.cur == k)
            || (Waiting(t, k) && Distance(t, k) + (if step == DoTick then 1 else 0) <= Distance(s, k))
  {
    WaiterFacts(s, k);
    StepKeeps(s, step, true);
    hide Inv;
    if step == DoTick {
      TickProgress(s, k);
    } else {
      OthersCannotDelay(s, step, k);
    }
  }

  /** Up to step n slot k was dispatched, or it has come closer by the number of ticks. */
  lemma {:induction false} WaitingProgress(states: seq<Sched>, steps: seq<Step>, k: int, n: nat)
    requires IsRun(states, steps) && Inv(states[0], {}, true) && n <= |steps|
    requires 0 < k < |states[0].procs| && states[0].procs[k].status == Ready
    requires forall m :: 0 <= m < |steps| ==> Spares(states[m], steps[m], k)
    ensures || (exists m :: 0 <= m < n && DispatchedAt(states, steps, m, k))
            || (Waiting(states[n], k) && Distance(states[n], k) + TickCount(steps[..n]) <= Distance(states[0], k))
  {
    if n == 0 {
      WaiterFacts(states[0], k);
    } else {
      hide Inv, Queued, Distance, Do, Allowed;
      WaitingProgress(states, steps, k, n - 1);
      assert steps[..n][..n - 1] == steps[..n - 1];
      if !(exists m :: 0 <= m < n - 1 && DispatchedAt(states, steps, m, k)) {
        StepProgress(states[n - 1], steps[n - 1], k);
        if steps[n - 1] == DoTick && states[n].cur == k { assert DispatchedAt(states, steps, n - 1, k); }
      }
    }
  }

  /** A ready process of base priority p that is not killed, blocked or reniced is dispatched
      within AGING_THRESHOLD * (PRIORITY_MAX - p) + (table size - 1) ticks, whatever the other
      processes do. */
  lemma BoundedWaiting(states: seq<Sched>, steps: seq<Step>, k: int)
    requires IsRun(states, steps) && Inv(states[0], {}, true)
    requires 0 < k < |states[0].procs| && states[0].procs[k].status == Ready
    requires forall m :: 0 <= m < |steps| ==> Spares(states[m], steps[m], k)
    requires TickCount(steps) >= AGING_THRESHOLD * (PRIORITY_MAX - states[0].procs[k].prio) + |states[0].procs| - 1
    ensures exists n :: 0 <= n < |steps| && DispatchedAt(states, steps, n, k)
  {
    WaiterFacts(states[0], k);
    WaitingProgress(states, steps, k, |steps|);
    assert steps[..|steps|] == steps;
    if !(exists n :: 0 <= n < |steps| && DispatchedAt(states, steps, n, k)) {
      WaiterFacts(states[|steps|], k);
    }
  }
}

/** Parents waiting for children: no cycle, no lost exit, each exit status collected once. */
module SchedWait {
  import opened Seqs
  import opened SchedSpec
  import opened SchedInv

  // ---------------------------------------------------------------- the wait-for graph

  ghost predicate WaitsOn(s: Sched, i: int, j: int) {
    && 0 <= i < |s.procs| && 0 < j < |s.procs| && Live(s.procs[i]) && Live(s.procs[j])
    && s.procs[i].waitingFor == s.procs[j].pid
  }

  /** A process only ever waits for a younger one, so no chain of waiting closes. */
  lemma {:induction false} WaitForAcyclic(s: Sched, path: seq<int>)
    requires Inv(s, {}, true) && |path| >= 2
    requires forall k :: 0 <= k < |path| - 1 ==> WaitsOn(s, path[k], path[k + 1])
    ensures path[0] != path[|path| - 1]
    ensures 0 <= path[0] < |s.procs| && 0 <= path[|path| - 1] < |s.procs|
    ensures s.procs[path[0]].pid < s.procs[path[|path| - 1]].pid
  {
    assert WaitsOn(s, path[0], path[0 + 1]);
    SlotFacts(s, path[0], {}, true);
    SlotFacts(s, path[1], {}, true);
    if |path| > 2 {
      assert forall k :: 0 <= k < |path| - 2 ==> WaitsOn(s, path[1..][k], path[1..][k + 1]) by {
        forall k | 0 <= k < |path| - 2 ensures WaitsOn(s, path[1..][k], path[1..][k + 1]) {
          assert WaitsOn(s, path[k + 1], path[k + 1 + 1]);
        }
      }
      WaitForAcyclic(s, path[1..]);
    }
  }

  // ---------------------------------------------------------------- no lost exit

  ghost predicate Alive(p: Proc) {
    p.status != Dead && p.status != Zombie
  }

  ghost predicate SomeAlive(s: Sched, pid: int) {
    exists j :: 0 < j < |s.procs| && s.procs[j].pid == pid && Alive(s.procs[j])
  }

  /** A process that waits is blocked, and the process it waits for has not finished; `gone`
      is a process whose waiters are still to be woken. */
  ghost predicate NoLostExit(s: Sched, gone: int) {
    && Shaped(s)
    && (forall i :: 0 < i < |s.procs| && Live(s.procs[i]) && s.procs[i].waitingFor > 0 ==>
          s.procs[i].status == Blocked && (s.procs[i].waitingFor == gone || SomeAlive(s, s.procs[i].waitingFor)))
  }

  /** A change that finishes no process and wakes no waiting one. */
  ghost predicate Gentle(s: Sched, t: Sched) {
    && |t.procs| == |s.procs|
    && (forall j :: 0 <= j < |s.procs| ==>
          var p, q := s.procs[j], t.procs[j];
          && q.pid == p.pid && q.waitingFor == p.waitingFor && Live(q) == Live(p) && (Alive(p) ==> Alive(q))
          && (j > 0 && p.waitingFor > 0 && p.status == Blocked ==> q.status == Blocked))
  }

  lemma GentleKeeps(s: Sched, t: Sched, gone: int)
    requires NoLostExit(s, gone) && Shaped(t) && Gentle(s, t)
    ensures NoLostExit(t, gone)
  {
    forall w | SomeAlive(s, w) ensures SomeAlive(t, w) {
      var j :| 0 < j < |s.procs| && s.procs[j].pid == w && Alive(s.procs[j]);
      assert Alive(t.procs[j]);
    }
  }

  lemma GentleTrans(s: Sched, t: Sched, u: Sched)
    requires Gentle(s, t) && Gentle(t, u)
    ensures Gentle(s, u)
  {
  }

  lemma MakeReadyGentle(s: Sched, i: int)
    requires Shaped(s) && 0 <= i < |s.procs|
    requires i > 0 && s.procs[i].status == Blocked ==> s.procs[i].waitingFor <= 0
    ensures Gentle(s, MakeReady(s, i))
  {
    MakeReadyFrame(s, i);
  }

  /** No blocked process with one of these pids waits for a child. */
  ghost predicate NotWaiting(s: Sched, pids: seq<int>) {
    forall j :: 0 <= j < |s.procs| && s.procs[j].pid in pids && s.procs[j].status == Blocked ==> s.procs[j].waitingFor <= 0
  }

  lemma UnblockGentle(s: Sched, pid: int)
    requires Shaped(s) && NotWaiting(s, [pid])
    ensures Gentle(s, Unblock(s, pid))
  {
    var i := FindBlocked(s, pid, 0);
    if i >= 0 {
      assert s.procs[i].pid in [pid];
      MakeReadyGentle(s, i);
    }
  }

  lemma {:induction false} UnblockAllGentle(s: Sched, pids: seq<int>)
    requires Shaped(s) && NotWaiting(s, pids)
    ensures Gentle(s, UnblockAll(s, pids)) && UnblockAll(s, pids).cur == s.cur
    ensures forall j :: 0 <= j < |s.procs| && s.procs[j].status != Blocked ==> UnblockAll(s, pids).procs[j] == s.procs[j]
    decreases |pids|
  {
    if pids != [] {
      UnblockGentle(s, pids[0]);
      var t := Unblock(s, pids[0]);
      if FindBlocked(s, pids[0], 0) >= 0 { MakeReadyFrame(s, FindBlocked(s, pids[0], 0)); }
      UnblockAllGentle(t, pids[1..]);
      GentleTrans(s, t, UnblockAll(s, pids));
    }
  }

  lemma {:induction false} AgeFromGentle(s: Sched, i: nat)
    requires Shaped(s) && 0 < i <= |s.procs|
    ensures Gentle(s, AgeFrom(s, i))
    decreases |s.procs| - i
  {
    if i < |s.procs| {
      assert Gentle(s, AgeOne(s, i));
      AgeFromGentle(AgeOne(s, i), i + 1);
      GentleTrans(s, AgeOne(s, i), AgeFrom(s, i));
    }
  }

  /** After the waiters have been woken nobody waits for the finished process. */
  lemma {:induction false} WakeWaitersClears(s: Sched, pid: int, i: nat)
    requires NoLostExit(s, pid) && i <= |s.procs| && pid > 0
    requires forall j :: 0 < j < i && Live(s.procs[j]) ==> s.procs[j].waitingFor != pid
    ensures NoLostExit(WakeWaiters(s, pid, i), -1)
    decreases |s.procs| - i
  {
    hide WakeOne;
    if i < |s.procs| {
      WakeOneClears(s, pid, i);
      WakeWaitersClears(WakeOne(s, pid, i), pid, i + 1);
    }
  }

  lemma WakeOneClears(s: Sched, pid: int, i: nat)
    requires NoLostExit(s, pid) && i < |s.procs| && pid > 0
    requires forall j :: 0 < j < i && Live(s.procs[j]) ==> s.procs[j].waitingFor != pid
    ensures var t := WakeOne(s, pid, i);
            NoLostExit(t, pid) && forall j :: 0 < j <= i && Live(t.procs[j]) ==> t.procs[j].waitingFor != pid
  {
    var t := WakeOne(s, pid, i);
    hide Unqueue, Enqueue;
    forall w | SomeAlive(s, w) ensures SomeAlive(t, w) {
      var j :| 0 < j < |s.procs| && s.procs[j].pid == w && Alive(s.procs[j]);
      assert t.procs[j].pid == w && Alive(t.procs[j]);
    }
  }

  /** Nothing outside the wait protocol unblocks a waiting process, the current process is not
      blocked when it exits or is killed, and it is not on a ready queue when it falls asleep waiting. */
  ghost predicate Disciplined(s: Sched, step: Step)
    requires Shaped(s)
  {
    match step
    case DoUnblock(pid) => NotWaiting(s, [pid])
    case DoKill(pid, woken) => NotWaiting(s, woken) && (s.procs[s.cur].pid == pid ==> s.procs[s.cur].status != Blocked)
    case DoExit(_, woken) => NotWaiting(s, woken) && s.procs[s.cur].status != Blocked
    case DoWait(pid) => !QueuedWait(s, pid)
    case _ => true
  }

  /** Finishing slot i leaves at most the processes that wait for it to be woken. */
  lemma FinishLeavesWaiters(s: Sched, u: Sched, i: int)
    requires NoLostExit(s, -1) && Shaped(u) && |u.procs| == |s.procs| && 0 < i < |s.procs|
    requires forall j :: 0 <= j < |s.procs| && j != i ==> u.procs[j] == s.procs[j]
    requires !Alive(u.procs[i]) && (Live(u.procs[i]) ==> u.procs[i].waitingFor <= 0)
    ensures NoLostExit(u, s.procs[i].pid)
  {
    forall w | SomeAlive(s, w) && w != s.procs[i].pid ensures SomeAlive(u, w) {
      var j :| 0 < j < |s.procs| && s.procs[j].pid == w && Alive(s.procs[j]);
      assert u.procs[j] == s.procs[j];
    }
  }

  lemma ExitNoLoss(s: Sched, status: int, woken: seq<int>)
    requires Inv(s, {}, true) && NoLostExit(s, -1) && NotWaiting(s, woken) && s.procs[s.cur].status != Blocked
    ensures NoLostExit(Exit(s, status, woken), -1)
  {
    if s.cur > 0 {
      SlotFacts(s, s.cur, {}, true);
      var a := Set(s, s.cur, s.procs[s.cur].(exitStatus := status));
      assert Gentle(s, a) && NotWaiting(a, woken);
      UnblockAllGentle(a, woken);
      var b := UnblockAll(a, woken);
      hide Inv, UnblockAll;
      GentleKeeps(s, a, -1);
      GentleKeeps(a, b, -1);
      var c := Unqueue(b, b.cur);
      var d := Set(c, c.cur, c.procs[c.cur].(status := Zombie, quantum := 0, ticks := 0)).(resched := true);
      FinishLeavesWaiters(b, d, b.cur);
      WakeWaitersClears(d, d.procs[d.cur].pid, 0);
    }
  }

  lemma KillSlotNoLoss(s: Sched, i: int, pid: int, woken: seq<int>)
    requires Shaped(s) && NoLostExit(s, -1) && NotWaiting(s, woken) && 0 < i < |s.procs| && s.procs[i].pid == pid > 0
    ensures NoLostExit(KillSlot(s, i, pid, woken), -1)
  {
    var r := Unqueue(s, i);
    assert Gentle(s, r) && NotWaiting(r, woken);
    UnblockAllGentle(r, woken);
    var a := UnblockAll(r, woken);
    hide UnblockAll, WakeWaiters;
    GentleKeeps(s, r, -1);
    GentleKeeps(r, a, -1);
    var b := Buried(a, i);
    FinishLeavesWaiters(a, b, i);
    WakeWaitersClears(b, pid, 0);
  }

  lemma KillNoLoss(s: Sched, pid: int, woken: seq<int>)
    requires Inv(s, {}, true) && NoLostExit(s, -1) && NotWaiting(s, woken)
    requires s.procs[s.cur].pid == pid ==> s.procs[s.cur].status != Blocked
    ensures NoLostExit(Kill(s, pid, woken), -1)
  {
    var i := Find(s, pid, 0);
    if pid > 1 && i >= 0 {
      SlotFacts(s, i, {}, true);
      hide NoLostExit, NotWaiting, Exit, KillSlot;
      if i == s.cur {
        ExitNoLoss(s, -1, woken);
      } else {
        KillSlotNoLoss(s, i, pid, woken);
      }
    }
  }

  lemma WaitBlockNoLoss(s: Sched, pid: int)
    requires NoLostExit(s, -1) && WaitBlocks(s, pid) && Find(s, pid, 0) > 0 && Find(s, pid, 0) != s.cur
    ensures NoLostExit(Wait(s, pid), -1)
  {
    var t, i := Wait(s, pid), Find(s, pid, 0);
    assert t.procs[i].pid == pid && Alive(t.procs[i]);
    assert SomeAlive(t, pid);
    forall w | SomeAlive(s, w) ensures SomeAlive(t, w) {
      var j :| 0 < j < |s.procs| && s.procs[j].pid == w && Alive(s.procs[j]);
      assert t.procs[j].pid == w && Alive(t.procs[j]);
    }
  }

  lemma WaitReapNoLoss(s: Sched, pid: int)
    requires NoLostExit(s, -1) && WaitReaps(s, pid) && Find(s, pid, 0) > 0
    ensures NoLostExit(Wait(s, pid), -1)
  {
    var t, i := Wait(s, pid), Find(s, pid, 0);
    forall w | SomeAlive(s, w) ensures SomeAlive(t, w) {
      var j :| 0 < j < |s.procs| && s.procs[j].pid == w && Alive(s.procs[j]);
      assert t.procs[j] == s.procs[j];
    }
  }

  lemma WaitNoLoss(s: Sched, pid: int)
    requires Inv(s, {}, true) && NoLostExit(s, -1)
    ensures NoLostExit(Wait(s, pid), -1)
  {
    hide QInv, PInv, Ledger, NoLostExit;
    if WaitBlocks(s, pid) {
      ChildIsYounger(s, pid, true);
      WaitBlockNoLoss(s, pid);
    } else if WaitReaps(s, pid) {
      ChildIsYounger(s, pid, true);
      WaitReapNoLoss(s, pid);
    }
  }

  lemma PreemptGentle(s: Sched)
    requires Inv(s, {}, true)
    ensures Gentle(s, Preempt(s))
  {
    hide QInv, PInv, Ledger;
    if s.procs[s.cur].status == Running {
      MakeReadyGentle(Charge(s), s.cur);
      GentleTrans(s, Charge(s), MakeReady(Charge(s), s.cur));
    }
  }

  lemma SwitchGentle(a: Sched)
    requires Inv(a, {}, false)
    ensures 0 <= Next(a) < |a.procs| && Gentle(a, Switch(a))
  {
    hide QInv, PInv, Ledger, Switch, Next, SlotOk, Off;
    NextFacts(a, false);
    SlotFacts(a, Next(a), {}, false);
    SwitchIsDrop(a, false);
    hide Inv, Queued, Unqueue;
  }

  lemma TickGentle(s: Sched)
    requires Inv(s, {}, false) && InRange(s)
    ensures Gentle(s, Tick(s))
  {
    hide QInv, PInv, Ledger, AgeFrom, Preempt, Switch, Tick, Gentle, Next;
    Tolerate(s);
    TickFacts(s, false);
    var a := AgeFrom(Preempt(s), 1);
    PreemptGentle(s);
    AgeFromGentle(Preempt(s), 1);
    SwitchGentle(a);
    GentleTrans(s, Preempt(s), a);
    GentleTrans(s, a, Switch(a));
  }

  lemma BlockGentle(s: Sched, pid: int)
    requires Shaped(s)
    ensures Gentle(s, Block(s, pid))
  {
  }

  lemma NiceGentle(s: Sched, pid: int, priority: int)
    requires Shaped(s)
    ensures Gentle(s, Nice(s, pid, priority))
  {
  }

  lemma CreateNoLoss(s: Sched, priority: int, stack: int)
    requires NoLostExit(s, -1)
    ensures NoLostExit(Create(s, priority, stack), -1)
  {
    var t := Create(s, priority, stack);
    hide Unqueue, Enqueue;
    forall w | SomeAlive(s, w) ensures SomeAlive(t, w) {
      var j :| 0 < j < |s.procs| && s.procs[j].pid == w && Alive(s.procs[j]);
      assert t.procs[j] == s.procs[j];
    }
  }

  /** On disciplined runs no exit is lost. */
  lemma StepNoLoss(s: Sched, step: Step)
    requires Inv(s, {}, false) && InRange(s) && NoLostExit(s, -1) && Disciplined(s, step)
    ensures NoLostExit(Do(s, step), -1)
  {
    Tolerate(s);
    hide QInv, PInv, Ledger, NoLostExit, Gentle, NotWaiting, Create, Kill, Exit, Wait, Unblock, Tick, Block, Nice;
    match step {
      case DoCreate(priority, stack) => CreateNoLoss(s, priority, stack);
      case DoKill(pid, woken) => KillNoLoss(s, pid, woken);
      case DoExit(status, woken) => ExitNoLoss(s, status, woken);
      case DoWait(pid) => WaitNoLoss(s, pid);
      case DoUnblock(pid) => UnblockGentle(s, pid); GentleKeeps(s, Unblock(s, pid), -1);
      case DoTick => TickGentle(s); GentleKeeps(s, Tick(s), -1);
      case DoBlock(pid) => BlockGentle(s, pid); GentleKeeps(s, Block(s, pid), -1);
      case DoNice(pid, priority) => NiceGentle(s, pid, priority); GentleKeeps(s, Nice(s, pid, priority), -1);
      case DoYield => YieldGentle(s); GentleKeeps(s, Yield(s), -1);
    }
  }

  lemma YieldGentle(s: Sched)
    requires Shaped(s)
    ensures Gentle(s, Yield(s))
  {
  }

  lemma CleanSoFar(states: seq<Sched>, steps: seq<Step>, k: nat)
    requires IsRun(states, steps) && k <= |steps| && forall m :: 0 <= m < |steps| ==> Disciplined(states[m], steps[m])
    ensures forall m :: 0 <= m < k ==> !LeavesStale(states[m], steps[m])
  {
    hide NotWaiting, Do;
    forall m | 0 <= m < k ensures !LeavesStale(states[m], steps[m]) { assert Disciplined(states[m], steps[m]); }
  }

  lemma {:induction false} RunNoLoss(states: seq<Sched>, steps: seq<Step>, k: nat)
    requires IsRun(states, steps) && Inv(states[0], {}, false) && NoLostExit(states[0], -1) && k <= |steps|
    requires forall m :: 0 <= m < |steps| ==> Disciplined(states[m], steps[m])
    ensures NoLostExit(states[k], -1)
  {
    if k > 0 {
      CleanSoFar(states, steps, k - 1);
      hide Inv, NoLostExit, Do, Disciplined, LeavesStale, Allowed;
      RunNoLoss(states, steps, k - 1);
      CleanRunKeeps(states, steps, k - 1);
      StepNoLoss(states[k - 1], steps[k - 1]);
    }
  }

  // ---------------------------------------------------------------- each status once

  lemma {:induction false} UnblockAllReaped(s: Sched, pids: seq<int>)
    requires Shaped(s)
    ensures UnblockAll(s, pids).reaped == s.reaped
    decreases |pids|
  {
    if pids != [] { UnblockAllReaped(Unblock(s, pids[0]), pids[1..]); }
  }

  lemma WakeOneReaped(s: Sched, pid: int, i: nat)
    requires Shaped(s) && i < |s.procs|
    ensures WakeOne(s, pid, i).reaped == s.reaped
  {
  }

  lemma {:induction false} WakeWaitersReaped(s: Sched, pid: int, i: nat)
    requires Shaped(s) && i <= |s.procs|
    ensures WakeWaiters(s, pid, i).reaped == s.reaped
    decreases |s.procs| - i
  {
    hide Enqueue, Unqueue;
    if i < |s.procs| { WakeOneReaped(s, pid, i); WakeWaitersReaped(WakeOne(s, pid, i), pid, i + 1); }
  }

  lemma {:induction false} AgeFromReaped(s: Sched, i: nat)
    requires Shaped(s) && 0 < i <= |s.procs|
    ensures AgeFrom(s, i).reaped == s.reaped
    decreases |s.procs| - i
  {
    if i < |s.procs| { AgeFromReaped(AgeOne(s, i), i + 1); }
  }

  lemma ExitReaped(s: Sched, status: int, woken: seq<int>)
    requires Shaped(s)
    ensures Exit(s, status, woken).reaped == s.reaped
  {
    if s.cur > 0 {
      var a := Set(s, s.cur, s.procs[s.cur].(exitStatus := status));
      UnblockAllReaped(a, woken);
      var b := UnblockAll(a, woken);
      var c := Set(Unqueue(b, b.cur), b.cur, b.procs[b.cur].(status := Zombie, quantum := 0, ticks := 0)).(resched := true);
      WakeWaitersReaped(c, c.procs[c.cur].pid, 0);
    }
  }

  lemma KillReaped(s: Sched, pid: int, woken: seq<int>)
    requires Shaped(s)
    ensures Kill(s, pid, woken).reaped == s.reaped
  {
    var i := Find(s, pid, 0);
    if pid > 1 && i >= 0 {
      if i == s.cur {
        ExitReaped(s, -1, woken);
      } else {
        UnblockAllReaped(Unqueue(s, i), woken);
        var a := UnblockAll(Unqueue(s, i), woken);
        WakeWaitersReaped(Buried(a, i), pid, 0);
      }
    }
  }

  lemma TickReaped(s: Sched)
    requires Inv(s, {}, true) && InRange(s)
    ensures Tick(s).reaped == s.reaped
  {
    hide QInv, PInv, Ledger, AgeFrom, Tick;
    TickFacts(s, true);
    AgeFromReaped(Preempt(s), 1);
  }

  lemma WaitReaped(s: Sched, pid: int)
    requires Inv(s, {}, true)
    ensures Wait(s, pid).reaped == if WaitReaps(s, pid) then s.reaped + [pid] else s.reaped
  {
    hide QInv, PInv, Ledger;
    if WaitReaps(s, pid) { ChildIsYounger(s, pid, true); }
  }

  lemma StepReaped(s: Sched, step: Step)
    requires Inv(s, {}, true) && InRange(s)
    ensures forall pid :: pid in s.reaped ==> pid in Do(s, step).reaped
    ensures step.DoWait? && WaitReaps(s, step.pid) ==> step.pid in Do(s, step).reaped
  {
    hide QInv, PInv, Ledger, Kill, Exit, Tick, Wait;
    match step {
      case DoKill(pid, woken) => KillReaped(s, pid, woken);
      case DoExit(status, woken) => ExitReaped(s, status, woken);
      case DoTick => TickReaped(s);
      case DoWait(pid) => WaitReaped(s, pid);
      case _ =>
    }
  }

  lemma {:induction false} ReapedGrows(states: seq<Sched>, steps: seq<Step>, j: nat, k: nat)
    requires IsRun(states, steps) && Inv(states[0], {}, true) && j <= k <= |steps|
    ensures forall pid :: pid in states[j].reaped ==> pid in states[k].reaped
  {
    hide QInv, PInv, Ledger, Do, Allowed;
    if j < k {
      ReapedGrows(states, steps, j, k - 1);
      RunKeeps(states, steps, k - 1);
      StepReaped(states[k - 1], steps[k - 1]);
    }
  }

  /** A process whose exit status was collected is not in the table any more. */
  lemma ReapedIsGone(s: Sched, pid: int)
    requires Inv(s, {}, true) && pid in s.reaped
    ensures !WaitReaps(s, pid) && !WaitBlocks(s, pid)
  {
    var m := IndexOf(s.reaped, pid);
    assert forall i :: 0 < i < |s.procs| && Live(s.procs[i]) ==> s.procs[i].pid != s.reaped[m];
  }

  /** No two calls of wait in a run collect the exit status of the same process. */
  lemma StatusCollectedOnce(states: seq<Sched>, steps: seq<Step>, j: nat, k: nat, pid: int)
    requires IsRun(states, steps) && Inv(states[0], {}, true) && j < k < |steps|
    requires steps[j] == DoWait(pid) && WaitReaps(states[j], pid)
    ensures !WaitReaps(states[k], pid)
  {
    hide QInv, PInv, Ledger, Do;
    RunKeeps(states, steps, j);
    StepReaped(states[j], steps[j]);
    ReapedGrows(states, steps, j + 1, k);
    RunKeeps(states, steps, k);
    ReapedIsGone(states[k], pid);
  }
}

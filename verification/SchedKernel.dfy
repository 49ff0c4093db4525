/** How the kernel strings scheduler steps together: system calls end in a reschedule, and the timer
    and the keyboard interrupt them where they halt. */
module SchedKernel {
  import opened SchedSpec
  import opened SchedInv
  import SchedTick

  // ---------------------------------------------------------------- runs of the kernel

  /** The loop inside a system call in which a process halts with interrupts enabled. */
  datatype Loop = InWait(pid: int) | InPipe

  /** The scheduler, and the slots whose process is inside such a loop. */
  datatype Kernel = Kernel(s: Sched, loops: map<int, Loop>)

  datatype Event =
    | Call(step: Step)                          // any other system call, up to its return
    | WaitCall(pid: int)                        // syscall_wait enters its loop
    | WaitAgain                                 // its loop runs on: the caller is no longer blocked
    | PipeSleep                                 // pipe_read or pipe_write puts its caller to sleep
    | PipePost(pid: int)                        // ... wakes a process
    | PipeReturn                                // ... and returns
    | Timer
    | Keyboard(pid: int, woken: seq<int>)       // Ctrl+C kills a foreground process

  ghost predicate ShouldReschedule(s: Sched)
    requires Shaped(s)
  {
    var p := s.procs[s.cur];
    s.resched || p.status != Running || p.quantum <= 0 || Highest(s) > p.eff
  }

  /** The end of a system call. Queue entries are always in range, see KernelKeeps. */
  ghost function Return(s: Sched): (t: Sched)
    requires Shaped(s)
    ensures Shaped(t)
  {
    if InRange(s) && ShouldReschedule(s) then Tick(s) else s
  }

  /** A slot that has become free is in no loop any more. */
  ghost function Pruned(loops: map<int, Loop>, s: Sched): map<int, Loop> {
    map i | i in loops && 0 <= i < |s.procs| && Live(s.procs[i]) :: loops[i]
  }

  ghost predicate Enabled(k: Kernel, e: Event) {
    && Shaped(k.s)
    && var c := k.s.cur;
       match e
       case Call(step) => c !in k.loops && !step.DoTick? && !step.DoWait? && InRange(k.s) && Allowed(k.s, step)
       case WaitCall(_) => c !in k.loops
       case WaitAgain => c in k.loops && k.loops[c].InWait? && k.s.procs[c].status != Blocked
       case PipeSleep => c > 0 && (c in k.loops ==> k.loops[c] == InPipe && k.s.procs[c].status != Blocked)
       case PipePost(_) => c in k.loops && k.loops[c] == InPipe && k.s.procs[c].status != Blocked
       case PipeReturn => c in k.loops && k.loops[c] == InPipe && k.s.procs[c].status != Blocked
       case Timer => InRange(k.s)
       case Keyboard(pid, woken) => Allowed(k.s, DoKill(pid, woken))
  }

  /** scheduler_wait within syscall_wait: stay in the loop while blocked, return otherwise. */
  ghost function Waited(k: Kernel, pid: int): Kernel
    requires Shaped(k.s)
  {
    if WaitBlocks(k.s, pid) then Kernel(Wait(k.s, pid), k.loops[k.s.cur := InWait(pid)])
    else Kernel(Return(Wait(k.s, pid)), Pruned(k.loops - {k.s.cur}, Wait(k.s, pid)))
  }

  ghost function After(k: Kernel, e: Event): Kernel
    requires Enabled(k, e)
  {
    var c := k.s.cur;
    match e
    case Call(step) => Kernel(Return(Do(k.s, step)), Pruned(k.loops, Do(k.s, step)))
    case WaitCall(pid) => Waited(k, pid)
    case WaitAgain => Waited(k, k.loops[c].pid)
    case PipeSleep => Kernel(Block(k.s, k.s.procs[c].pid), k.loops[c := InPipe])
    case PipePost(pid) => Kernel(Unblock(k.s, pid), k.loops)
    case PipeReturn => Kernel(Return(k.s), k.loops - {c})
    case Timer => Kernel(Tick(k.s), k.loops)
    case Keyboard(pid, woken) => Kernel(Kill(k.s, pid, woken), Pruned(k.loops, Kill(k.s, pid, woken)))
  }

  /** A current process that is not running is inside a loop; if it is ready again while it waits
      for a child, waiting once more does not block it. */
  ghost predicate Awake(k: Kernel) {
    && Shaped(k.s)
    && var c := k.s.cur;
       && (c > 0 && k.s.procs[c].status == Ready ==> c in k.loops && (k.loops[c].InWait? ==> !WaitBlocks(k.s, k.loops[c].pid)))
       && (c > 0 && k.s.procs[c].status == Blocked ==> c in k.loops && (k.loops[c].InWait? ==> k.s.procs[c].waitingFor == k.loops[c].pid > 0))
  }

  /** The kill of another process wakes the current one, which sleeps in its wait loop, although the
      child it waits for lives on. */
  ghost predicate WakesWaiter(k: Kernel, pid: int, woken: seq<int>)
    requires Shaped(k.s)
  {
    var c := k.s.cur;
    && c > 0 && k.s.procs[c].status == Blocked && k.s.procs[c].pid in woken
    && c in k.loops && k.loops[c].InWait? && k.loops[c].pid != pid && WaitBlocks(k.s, k.loops[c].pid)
    && pid > 1 && Find(k.s, pid, 0) >= 0 && Find(k.s, pid, 0) != c
  }

  ghost predicate KernelInv(k: Kernel) {
    Inv(k.s, {}, false) && InRange(k.s) && Awake(k)
  }

  /** A running current process makes Awake hold. */
  lemma ReturnKeeps(s: Sched, loops: map<int, Loop>)
    requires Inv(s, {}, false) && InRange(s)
    ensures KernelInv(Kernel(Return(s), loops))
  {
    hide QInv, PInv, Ledger, Tick, AgeFrom, Preempt, Switch, Next;
    TickFacts(s, false);
    SlotFacts(Tick(s), 0, {}, false);
  }

  /** No wait of the kernel is one by a queued caller. */
  lemma NoQueuedWait(k: Kernel, e: Event)
    requires KernelInv(k) && Enabled(k, e)
    ensures e.WaitCall? ==> !QueuedWait(k.s, e.pid)
    ensures e.WaitAgain? ==> !QueuedWait(k.s, k.loops[k.s.cur].pid)
  {
  }

  lemma WaitedKeeps(k: Kernel, pid: int)
    requires KernelInv(k) && !QueuedWait(k.s, pid)
    ensures KernelInv(Waited(k, pid))
  {
    WaitKeepsIff(k.s, pid);
    SlotFacts(Wait(k.s, pid), 0, {}, false);
    if !WaitBlocks(k.s, pid) {
      hide Inv, Return;
      ReturnKeeps(Wait(k.s, pid), Pruned(k.loops - {k.s.cur}, Wait(k.s, pid)));
    }
  }

  // ---------------------------------------------------------------- what a kill wakes

  ghost predicate WokeSlot(p: Proc, q: Proc, pids: seq<int>, w: int) {
    || q == p
    || (p.status == Blocked && (p.pid in pids || p.waitingFor == w > 0) && q.pid == p.pid && q.parent == p.parent
        && q.status == Ready)
  }

  /** From s to t only blocked processes changed, and those were woken for one of these reasons. */
  ghost predicate Woke(s: Sched, t: Sched, pids: seq<int>, w: int) {
    && |t.procs| == |s.procs| && t.cur == s.cur && |s.procs| > 0
    && (t.procs[0].pid == s.procs[0].pid && t.procs[0].status == s.procs[0].status)
    && (forall j :: 0 < j < |s.procs| ==> WokeSlot(s.procs[j], t.procs[j], pids, w))
  }

  lemma WokeTrans(s: Sched, t: Sched, u: Sched, pids: seq<int>, w: int)
    requires Woke(s, t, pids, w) && Woke(t, u, pids, w)
    ensures Woke(s, u, pids, w)
  {
    forall j | 0 < j < |s.procs| ensures WokeSlot(s.procs[j], u.procs[j], pids, w) {
      assert WokeSlot(s.procs[j], t.procs[j], pids, w) && WokeSlot(t.procs[j], u.procs[j], pids, w);
    }
  }

  lemma MakeReadyWoke(s: Sched, i: int, pids: seq<int>, w: int)
    requires Shaped(s) && 0 <= i < |s.procs| && (i > 0 ==> s.procs[i].status == Blocked && (s.procs[i].pid in pids || s.procs[i].waitingFor == w > 0))
    ensures Woke(s, MakeReady(s, i), pids, w)
  {
  }

  lemma {:induction false} UnblockAllWoke(s: Sched, todo: seq<int>, pids: seq<int>, w: int)
    requires Shaped(s) && forall x :: x in todo ==> x in pids
    ensures Woke(s, UnblockAll(s, todo), pids, w)
    decreases |todo|
  {
    if todo != [] {
      var i := FindBlocked(s, todo[0], 0);
      assert todo[0] in pids;
      if i >= 0 { MakeReadyWoke(s, i, pids, w); }
      UnblockAllWoke(Unblock(s, todo[0]), todo[1..], pids, w);
      hide MakeReady;
      WokeTrans(s, Unblock(s, todo[0]), UnblockAll(s, todo), pids, w);
    }
  }

  lemma WakeOneWoke(s: Sched, pid: int, i: nat, pids: seq<int>)
    requires Shaped(s) && i < |s.procs| && pid > 0
    ensures Woke(s, WakeOne(s, pid, i), pids, pid)
  {
  }

  lemma {:induction false} WakeWaitersWoke(s: Sched, pid: int, i: nat, pids: seq<int>)
    requires Shaped(s) && i <= |s.procs| && pid > 0
    ensures Woke(s, WakeWaiters(s, pid, i), pids, pid)
    decreases |s.procs| - i
  {
    if i < |s.procs| {
      WakeOneWoke(s, pid, i, pids);
      WakeWaitersWoke(WakeOne(s, pid, i), pid, i + 1, pids);
      hide WakeOne;
      WokeTrans(s, WakeOne(s, pid, i), WakeWaiters(s, pid, i), pids, pid);
    }
  }

  /** Killing slot i wakes processes and empties slot i. */
  lemma KillSlotWoke(s: Sched, i: int, pid: int, woken: seq<int>)
    requires Shaped(s) && 0 < i < |s.procs| && pid > 0
    ensures var t := KillSlot(s, i, pid, woken);
            && |t.procs| == |s.procs| && t.cur == s.cur && t.procs[0].pid == s.procs[0].pid && t.procs[i].status == Dead
            && (forall j :: 0 < j < |s.procs| && j != i ==> WokeSlot(s.procs[j], t.procs[j], woken, pid))
  {
    var r := Unqueue(s, i);
    var a := UnblockAll(r, woken);
    UnblockAllWoke(r, woken, woken, pid);
    var b := Buried(a, i);
    WakeWaitersWoke(b, pid, 0, woken);
    var t := WakeWaiters(b, pid, 0);
    hide UnblockAll, WakeWaiters, Unqueue;
    assert WokeSlot(b.procs[i], t.procs[i], woken, pid);
    forall j | 0 < j < |s.procs| && j != i ensures WokeSlot(s.procs[j], t.procs[j], woken, pid) {
      assert WokeSlot(r.procs[j], a.procs[j], woken, pid) && WokeSlot(b.procs[j], t.procs[j], woken, pid);
    }
  }

  lemma ExitZombie(s: Sched, status: int, woken: seq<int>)
    requires Shaped(s) && s.cur > 0 && s.procs[s.cur].pid > 0
    ensures var t := Exit(s, status, woken); t.cur == s.cur && t.procs[t.cur].status == Zombie
  {
    var c := s.cur;
    var a := UnblockAll(Set(s, c, s.procs[c].(exitStatus := status)), woken);
    UnblockAllWoke(Set(s, c, s.procs[c].(exitStatus := status)), woken, woken, 0);
    hide UnblockAll;
    assert a.cur == c && a.procs[c].pid == s.procs[c].pid;
    var b := Unqueue(a, c);
    var d := Set(b, c, b.procs[c].(status := Zombie, quantum := 0, ticks := 0)).(resched := true);
    WakeWaitersWoke(d, d.procs[c].pid, 0, []);
    hide WakeWaiters;
    assert WokeSlot(d.procs[c], WakeWaiters(d, d.procs[c].pid, 0).procs[c], [], d.procs[c].pid);
  }

  /** No other blocked slot has the pid of slot c. */
  ghost predicate Sole(s: Sched, c: int) {
    0 < c < |s.procs| && forall j :: 0 <= j < |s.procs| && s.procs[j].status == Blocked && s.procs[j].pid == s.procs[c].pid ==> j == c
  }

  /** A process that is to be unblocked is ready afterwards. */
  lemma {:induction false} UnblockAllWakes(s: Sched, todo: seq<int>, c: int)
    requires Shaped(s) && Sole(s, c) && s.procs[c].status == Blocked && s.procs[c].pid in todo
    ensures UnblockAll(s, todo).procs[c].status == Ready
    decreases |todo|
  {
    var t, i := Unblock(s, todo[0]), FindBlocked(s, todo[0], 0);
    if i >= 0 { MakeReadyFrame(s, i); }
    if todo[0] == s.procs[c].pid {
      assert i == c;
      UnblockAllWoke(t, todo[1..], todo, 0);
      assert WokeSlot(t.procs[c], UnblockAll(t, todo[1..]).procs[c], todo, 0);
    } else {
      UnblockAllWakes(t, todo[1..], c);
    }
  }

  lemma KillSlotWakes(s: Sched, i: int, pid: int, woken: seq<int>, c: int)
    requires Shaped(s) && 0 < i < |s.procs| && pid > 0 && c != i && Sole(s, c)
    requires s.procs[c].status == Blocked && (s.procs[c].pid in woken || s.procs[c].waitingFor == pid)
    ensures KillSlot(s, i, pid, woken).procs[c].status == Ready
  {
    var r := Unqueue(s, i);
    var a := UnblockAll(r, woken);
    UnblockAllWoke(r, woken, woken, pid);
    assert WokeSlot(r.procs[c], a.procs[c], woken, pid);
    if s.procs[c].pid in woken { UnblockAllWakes(r, woken, c); }
    var b := Buried(a, i);
    hide UnblockAll, Unqueue;
    WakeWaitersReaches(b, pid, 0, c);
  }

  /** WakeOne concerns slot i only, and readies it if it waits for pid. */
  lemma WakeOneReaches(s: Sched, pid: int, i: nat, c: int)
    requires Shaped(s) && i <= c < |s.procs| && c > 0 && pid > 0
    requires s.procs[c].status == Ready || (s.procs[c].status == Blocked && s.procs[c].waitingFor == pid)
    ensures var t := WakeOne(s, pid, i); if i == c then t.procs[c].status == Ready else t.procs[c] == s.procs[c]
  {
    if i != c { MakeReadyFrame(Set(s, i, s.procs[i].(waitingFor := -1)), i); }
  }

  lemma {:induction false} WakeWaitersReaches(s: Sched, pid: int, i: nat, c: int)
    requires Shaped(s) && i <= c < |s.procs| && c > 0 && pid > 0
    requires s.procs[c].status == Ready || (s.procs[c].status == Blocked && s.procs[c].waitingFor == pid)
    ensures WakeWaiters(s, pid, i).procs[c].status == Ready
    decreases |s.procs| - i
  {
    hide WakeOne;
    var t := WakeOne(s, pid, i);
    WakeOneWoke(s, pid, i, []);
    WakeOneReaches(s, pid, i, c);
    if i == c {
      WakeWaitersWoke(t, pid, i + 1, []);
      assert WokeSlot(t.procs[c], WakeWaiters(t, pid, i + 1).procs[c], [], pid);
    } else {
      WakeWaitersReaches(t, pid, i + 1, c);
    }
  }

  /** Killing slot i leaves every other process as it was or wakes it. */
  ghost predicate Killed(s: Sched, t: Sched, i: int, pid: int, woken: seq<int>) {
    && |t.procs| == |s.procs| && t.cur == s.cur && 0 < i < |s.procs| && t.procs[i].status == Dead
    && t.procs[0].pid == s.procs[0].pid
    && (forall j :: 0 < j < |s.procs| && j != i ==> WokeSlot(s.procs[j], t.procs[j], woken, pid))
  }

  /** Whether a wait would block, after the kill of another process. */
  lemma WaitAfterKill(s: Sched, t: Sched, i: int, pid: int, woken: seq<int>, x: int)
    requires PInv(s) && PInv(t) && Killed(s, t, i, pid, woken) && i != s.cur && Live(s.procs[i]) && s.procs[i].pid == pid
    ensures WaitBlocks(t, x) <==> WaitBlocks(s, x) && x != pid
  {
    var j, l := Find(s, x, 0), Find(t, x, 0);
    if x > 0 {
      if s.cur > 0 { assert WokeSlot(s.procs[s.cur], t.procs[s.cur], woken, pid); }
      if j > 0 && x != pid {
        assert WokeSlot(s.procs[j], t.procs[j], woken, pid);
        assert l >= 0;
        OnePid(t, j, l);
      }
      if l > 0 {
        assert l != i;
        assert WokeSlot(s.procs[l], t.procs[l], woken, pid);
        assert j >= 0;
        OnePid(s, l, j);
        OnePid(s, l, i);
      }
    }
  }

  /** What the kill of another process does to the current one. */
  lemma AfterKill(s: Sched, i: int, pid: int, woken: seq<int>, x: int)
    requires Inv(s, {}, false) && s.cur > 0 && 0 < i < |s.procs| && i != s.cur && Live(s.procs[i]) && s.procs[i].pid == pid > 0
    requires Inv(KillSlot(s, i, pid, woken), {}, false)
    ensures var t := KillSlot(s, i, pid, woken);
            var p, q := s.procs[s.cur], t.procs[s.cur];
            && (if p.status == Blocked && (p.pid in woken || p.waitingFor == pid) then q.status == Ready else q == p)
            && (WaitBlocks(t, x) <==> WaitBlocks(s, x) && x != pid)
  {
    var t, c := KillSlot(s, i, pid, woken), s.cur;
    assert PInv(s) && PInv(t);
    hide Inv, KillSlot, WaitBlocks;
    KillSlotWoke(s, i, pid, woken);
    SoleCurrent(s);
    if s.procs[c].status == Blocked && (s.procs[c].pid in woken || s.procs[c].waitingFor == pid) {
      KillSlotWakes(s, i, pid, woken, c);
    }
    assert WokeSlot(s.procs[c], t.procs[c], woken, pid);
    assert Killed(s, t, i, pid, woken);
    hide PInv;
    WaitAfterKill(s, t, i, pid, woken, x);
  }

  lemma KillAwakeIff(k: Kernel, i: int, pid: int, woken: seq<int>)
    requires KernelInv(k) && pid > 1 && i == Find(k.s, pid, 0) && 0 < i < |k.s.procs| && i != k.s.cur
    requires Inv(KillSlot(k.s, i, pid, woken), {}, false)
    ensures var t := KillSlot(k.s, i, pid, woken); Awake(Kernel(t, Pruned(k.loops, t))) <==> !WakesWaiter(k, pid, woken)
  {
    hide QInv, PInv, Ledger, KillSlot, WaitBlocks;
    var s, c := k.s, k.s.cur;
    KillSlotWoke(s, i, pid, woken);
    SlotFacts(s, i, {}, false);
    CurrentFacts(s);
    if c > 0 { AfterKill(s, i, pid, woken, if c in k.loops && k.loops[c].InWait? then k.loops[c].pid else 0); }
  }

  lemma SoleCurrent(s: Sched)
    requires PInv(s) && s.cur > 0
    ensures Sole(s, s.cur)
  {
  }

  /** A kill from the keyboard keeps the invariant exactly when it does not wake a current process in
      its wait loop whose child lives on. */
  lemma KeyboardKeepsIff(k: Kernel, pid: int, woken: seq<int>)
    requires KernelInv(k) && Enabled(k, Keyboard(pid, woken))
    ensures KernelInv(After(k, Keyboard(pid, woken))) <==> !WakesWaiter(k, pid, woken)
  {
    hide QInv, PInv, Ledger, Exit, KillSlot, Awake, Pruned;
    var s := k.s;
    var i := Find(s, pid, 0);
    KillKeeps(s, pid, woken, false);
    SlotFacts(Kill(s, pid, woken), 0, {}, false);
    CurrentFacts(s);
    if pid > 1 && i >= 0 {
      SlotFacts(s, i, {}, false);
      if i == s.cur {
        ExitZombie(s, -1, woken);
        NotAsleep(Kernel(Kill(s, pid, woken), Pruned(k.loops, Kill(s, pid, woken))));
      } else {
        KillAwakeIff(k, i, pid, woken);
      }
    } else {
      PrunedAwake(k);
    }
  }

  /** When it does wake such a process, that process blocks itself again on its ready queue. */
  lemma WokenWaiterBreaksQueues(k: Kernel, pid: int, woken: seq<int>)
    requires KernelInv(k) && Enabled(k, Keyboard(pid, woken)) && WakesWaiter(k, pid, woken)
    ensures var v := After(k, Keyboard(pid, woken));
            && Inv(v.s, {}, false) && Enabled(v, WaitAgain) && QueuedWait(v.s, v.loops[v.s.cur].pid)
            && !Inv(After(v, WaitAgain).s, {}, false)
  {
    hide QInv, PInv, Ledger, KillSlot, WaitBlocks, Awake;
    var s, c, i, x := k.s, k.s.cur, Find(k.s, pid, 0), k.loops[k.s.cur].pid;
    var v := After(k, Keyboard(pid, woken));
    KillKeeps(s, pid, woken, false);
    SlotFacts(s, i, {}, false);
    KillSlotWoke(s, i, pid, woken);
    AfterKill(s, i, pid, woken, x);
    CurrentFacts(v.s);
    assert v.loops[c] == k.loops[c];
    WaitKeepsIff(v.s, x);
    assert After(v, WaitAgain).s == Wait(v.s, x);
  }

  lemma NotAsleep(k: Kernel)
    requires Shaped(k.s) && k.s.procs[k.s.cur].status != Ready && k.s.procs[k.s.cur].status != Blocked
    ensures Awake(k)
  {
  }

  lemma PrunedAwake(k: Kernel)
    requires Awake(k) && Live(k.s.procs[k.s.cur])
    ensures Awake(Kernel(k.s, Pruned(k.loops, k.s)))
  {
  }

  lemma PipeKeeps(k: Kernel, e: Event)
    requires KernelInv(k) && Enabled(k, e) && (e.PipeSleep? || e.PipePost?)
    ensures KernelInv(After(k, e))
  {
    var s, c := k.s, k.s.cur;
    CurrentFacts(s);
    match e {
      case PipeSleep =>
        var pid := s.procs[c].pid;
        BlockKeeps(s, pid, false);
        SlotFacts(Block(s, pid), 0, {}, false);
        OnePid(s, c, Find(s, pid, 0));
      case PipePost(pid) =>
        UnblockKeeps(s, pid, {}, false);
        SlotFacts(Unblock(s, pid), 0, {}, false);
        if FindBlocked(s, pid, 0) >= 0 { MakeReadyFrame(s, FindBlocked(s, pid, 0)); }
    }
  }

  lemma KernelKeeps(k: Kernel, e: Event)
    requires KernelInv(k) && Enabled(k, e) && (e.Keyboard? ==> !WakesWaiter(k, e.pid, e.woken))
    ensures KernelInv(After(k, e))
  {
    NoQueuedWait(k, e);
    hide Inv, Awake;
    match e {
      case Call(step) =>
        StepKeeps(k.s, step, false);
        ReturnKeeps(Do(k.s, step), Pruned(k.loops, Do(k.s, step)));
      case WaitCall(pid) => WaitedKeeps(k, pid);
      case WaitAgain => WaitedKeeps(k, k.loops[k.s.cur].pid);
      case PipeReturn => ReturnKeeps(k.s, k.loops - {k.s.cur});
      case Timer => TimerKeeps(k);
      case Keyboard(pid, woken) => KeyboardKeepsIff(k, pid, woken);
      case _ => PipeKeeps(k, e);
    }
  }

  lemma TimerKeeps(k: Kernel)
    requires KernelInv(k)
    ensures KernelInv(Kernel(Tick(k.s), k.loops))
  {
    TickFacts(k.s, false);
    hide QInv, PInv, Ledger, Tick;
    SlotFacts(Tick(k.s), 0, {}, false);
  }

  ghost predicate IsKernelRun(ks: seq<Kernel>, events: seq<Event>, n: nat) {
    && n >= 2 && |ks| == |events| + 1 && ks[0] == Kernel(Initial(n), map[])
    && (forall k :: 0 <= k < |events| ==> Enabled(ks[k], events[k]) && ks[k + 1] == After(ks[k], events[k]))
  }

  /** Strung together by the kernel, the steps never let a queued process fall asleep waiting as long
      as no kill from the keyboard wakes a process in its wait loop whose child lives on: until then
      the queues hold exactly the ready slots. */
  lemma {:induction false} KernelRunKeeps(ks: seq<Kernel>, events: seq<Event>, n: nat, k: nat)
    requires IsKernelRun(ks, events, n) && k <= |events|
    requires forall m :: 0 <= m < k && events[m].Keyboard? ==> !WakesWaiter(ks[m], events[m].pid, events[m].woken)
    ensures KernelInv(ks[k])
    ensures k < |events| && events[k].WaitCall? ==> !QueuedWait(ks[k].s, events[k].pid)
    ensures k < |events| && events[k].WaitAgain? ==> !QueuedWait(ks[k].s, ks[k].loops[ks[k].s.cur].pid)
  {
    hide Inv, Awake, After, WakesWaiter;
    if k == 0 {
      InitialInv(n);
      InitialAwake(n);
    } else {
      KernelRunKeeps(ks, events, n, k - 1);
      KernelKeeps(ks[k - 1], events[k - 1]);
    }
    if k < |events| { NoQueuedWait(ks[k], events[k]); }
  }

  lemma InitialAwake(n: nat)
    requires n >= 2
    ensures InRange(Initial(n)) && Awake(Kernel(Initial(n), map[]))
  {
  }

  // ---------------------------------------------------------------- the end of a system call

  lemma HighestIff(s: Sched, pr: int)
    requires Inv(s, {}, false) && 1 <= pr <= 5
    ensures Highest(s) <= pr <==> forall j :: 0 < j < |s.procs| && s.procs[j].status == Ready ==> s.procs[j].eff <= pr
  {
    var h := Highest(s);
    if h > pr {
      var q := s.queues[Level(h)];
      assert q[0] in q;
      SchedTick.InQueueIff(s, Level(h), q[0]);
    }
    forall j | 0 < j < |s.procs| && s.procs[j].status == Ready && h <= pr ensures s.procs[j].eff <= pr {
      SlotFacts(s, j, {}, false);
      assert j in s.queues[Level(s.procs[j].eff)];
    }
  }

  /** A system call returns to its caller exactly when no reschedule is asked for, the caller still
      runs with some quantum left and no ready process outranks it; otherwise it ends in a tick. */
  lemma ReturnIs(s: Sched)
    requires Inv(s, {}, false) && InRange(s)
    ensures var p := s.procs[s.cur];
            Return(s) == if !s.resched && p.status == Running && p.quantum > 0
                            && (forall j :: 0 < j < |s.procs| && s.procs[j].status == Ready ==> s.procs[j].eff <= p.eff)
                         then s else Tick(s)
  {
    SlotFacts(s, s.cur, {}, false);
    CurrentFacts(s);
    hide QInv, PInv, Ledger, Tick;
    HighestIff(s, s.procs[s.cur].eff);
  }

  lemma YieldReturns(s: Sched)
    requires Shaped(s) && InRange(Yield(s))
    ensures Return(Yield(s)) == Tick(Yield(s))
  {
    hide Tick, InRange;
  }

  /** A process that yields is preempted at once, and gives way to every ready process of at least
      its priority. */
  lemma YieldGivesWay(k: Kernel, j: int)
    requires KernelInv(k) && Enabled(k, Call(DoYield)) && k.s.cur > 0 && k.s.procs[k.s.cur].status == Running
    ensures After(k, Call(DoYield)).s == Tick(Yield(k.s))
    ensures 0 < j < |k.s.procs| && k.s.procs[j].status == Ready && k.s.procs[j].eff >= k.s.procs[k.s.cur].prio ==>
              After(k, Call(DoYield)).s.cur != k.s.cur
  {
    var s, c := k.s, k.s.cur;
    hide QInv, PInv, Ledger, Tick, Awake, Return, Pruned;
    YieldKeeps(s, false);
    SlotFacts(Yield(s), 0, {}, false);
    YieldReturns(s);
    if 0 < j < |s.procs| && s.procs[j].status == Ready && s.procs[j].eff >= s.procs[c].prio {
      SchedTick.RoundRobin(Yield(s), j);
    }
  }
}

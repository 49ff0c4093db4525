/** The status a process ends with is the one its parent gets. */
module SchedStatus {
  import opened Seqs
  import opened SchedSpec
  import opened SchedInv
  import opened SchedFair
  import opened SchedEffect

  /** The process in slot i keeps its pid and exit status, or is gone. */
  ghost predicate Same(p: Proc, q: Proc) {
    q.status == Dead || (Live(p) && q.pid == p.pid && q.exitStatus == p.exitStatus)
  }

  /** The current process has this pid and the step ends it. */
  ghost predicate Ends(s: Sched, step: Step, pid: int)
    requires Shaped(s)
  {
    s.procs[s.cur].pid == pid && (step.DoExit? || (step.DoKill? && step.pid == pid))
  }

  /** From s to t every process but the one in slot `except` keeps its pid and status or is gone;
      a new one has a new pid. */
  ghost predicate Carries(s: Sched, t: Sched, except: int) {
    && |t.procs| == |s.procs| && t.nextPid >= s.nextPid
    && (forall j :: 0 < j < |s.procs| && j != except ==> Same(s.procs[j], t.procs[j]) || (!Live(s.procs[j]) && t.procs[j].pid == s.nextPid < t.nextPid))
    && (0 < except < |s.procs| ==> Live(s.procs[except]) && t.procs[except].pid == s.procs[except].pid)
  }

  /** Nobody comes or goes and pids and exit statuses stay. */
  ghost predicate Kept(s: Sched, t: Sched) {
    && |t.procs| == |s.procs| && t.nextPid == s.nextPid
    && (forall j :: 0 < j < |s.procs| ==> var p, q := s.procs[j], t.procs[j]; q.pid == p.pid && q.exitStatus == p.exitStatus && Live(q) == Live(p))
  }

  lemma PreemptKept(s: Sched)
    requires Shaped(s)
    ensures Kept(s, Preempt(s))
  {
    hide Unqueue, Enqueue;
  }

  lemma {:induction false} AgeFromKept(s: Sched, i: nat)
    requires Shaped(s) && 0 < i <= |s.procs|
    ensures Kept(s, AgeFrom(s, i))
    decreases |s.procs| - i
  {
    hide AgeOne;
    if i < |s.procs| {
      AgeOneKept(s, i);
      AgeFromKept(AgeOne(s, i), i + 1);
    }
  }

  lemma AgeOneKept(s: Sched, i: nat)
    requires Shaped(s) && 0 < i < |s.procs|
    ensures Kept(s, AgeOne(s, i))
  {
    hide Unqueue, Enqueue, Queued;
  }

  lemma SwitchKept(a: Sched)
    requires Inv(a, {}, true)
    ensures 0 <= Next(a) < |a.procs| && Kept(a, Switch(a))
  {
    hide QInv, PInv, Ledger, Switch, Next, SlotOk, Off;
    NextFacts(a, true);
    SwitchIsDrop(a, true);
    hide Inv, Queued, Unqueue;
  }

  lemma TickCarries(s: Sched)
    requires Inv(s, {}, true) && InRange(s)
    ensures Carries(s, Tick(s), -1)
  {
    hide QInv, PInv, Ledger, AgeFrom, Tick, Preempt, Switch, Next;
    TickFacts(s, true);
    PreemptKept(s);
    AgeFromKept(Preempt(s), 1);
    SwitchKept(AgeFrom(Preempt(s), 1));
  }

  lemma KillCarries(s: Sched, pid: int, woken: seq<int>)
    requires Inv(s, {}, true) && (pid !in woken || s.procs[s.cur].pid == pid)
    ensures Carries(s, Kill(s, pid, woken), if s.procs[s.cur].pid == pid && s.cur > 0 then s.cur else -1)
  {
    hide QInv, PInv, Ledger, Kill, Exit, InLine;
    var i := Find(s, pid, 0);
    KillOtherwise(s, pid, woken);
    CurrentFacts(s);
    if pid > 1 && i >= 0 {
      SlotFacts(s, i, {}, true);
      if s.procs[s.cur].pid == pid {
        ExitCarries(s, -1, woken);
      } else {
        KillEffect(s, i, pid, woken, true);
      }
    }
  }

  lemma ExitCarries(s: Sched, status: int, woken: seq<int>)
    requires Inv(s, {}, true)
    ensures Carries(s, Exit(s, status, woken), if s.cur > 0 then s.cur else -1)
  {
    hide QInv, PInv, Ledger, InLine;
    if s.cur > 0 {
      CurrentFacts(s);
      ExitEffect(s, status, woken, true);
      hide Exit;
    }
  }

  lemma StepCarries(s: Sched, step: Step)
    requires Inv(s, {}, true) && InRange(s) && Allowed(s, step)
    ensures Carries(s, Do(s, step), if Ends(s, step, s.procs[s.cur].pid) && s.cur > 0 then s.cur else -1)
  {
    hide QInv, PInv, Ledger, Kill, Exit, Create, Nice, Block, Unblock, Tick, Wait, InLine, Carries;
    var c := s.cur;
    CurrentFacts(s);
    match step {
      case DoKill(pid, woken) => KillCarries(s, pid, woken);
      case DoExit(status, woken) => ExitCarries(s, status, woken);
      case DoTick => TickCarries(s);
      case DoWait(pid) => WaitCarries(s, pid);
      case DoCreate(priority, stack) => CreateCarries(s, priority, stack);
      case _ => OtherCarries(s, step);
    }
  }

  lemma WaitCarries(s: Sched, pid: int)
    requires Inv(s, {}, true)
    ensures Carries(s, Wait(s, pid), -1)
  {
    hide QInv, PInv, Ledger, Wait;
    var i := Find(s, pid, 0);
    CurrentFacts(s);
    if pid <= 0 || i < 0 {
      WaitUnknown(s, pid);
    } else {
      SlotFacts(s, i, {}, true);
      WaitEffect(s, i, pid, true);
    }
  }

  lemma CreateCarries(s: Sched, priority: int, stack: int)
    requires Inv(s, {}, true) && FreshStack(s, stack)
    ensures Carries(s, Create(s, priority, stack), -1)
  {
    hide QInv, PInv, Ledger, Create, Stacks, InLine;
    var i := FindDead(s, 1);
    if i < 0 || stack == NONE { CreateRefused(s, priority, stack); } else { CreateEffect(s, i, priority, stack, true); }
  }

  lemma OtherCarries(s: Sched, step: Step)
    requires Inv(s, {}, true) && InRange(s) && (step.DoBlock? || step.DoUnblock? || step.DoNice? || step.DoYield?)
    ensures Carries(s, Do(s, step), -1)
  {
    hide QInv, PInv, Ledger, Nice, Block, Unblock, InLine;
    match step {
      case DoBlock(pid) =>
        var i := Find(s, pid, 0);
        if i >= 0 { BlockEffect(s, i, pid, true); } else { BlockUnknown(s, pid); }
      case DoUnblock(pid) => UnblockWakes(s, pid, {}, true);
      case DoNice(pid, priority) =>
        var i := Find(s, pid, 0);
        if i < 0 || !(1 <= priority <= 5) { NiceRefused(s, pid, priority); } else { NiceEffect(s, i, pid, priority, true); }
      case DoYield => CurrentFacts(s);
    }
  }

  /** Whoever has this pid has this exit status, and the pid has been given out. */
  ghost predicate Ended(s: Sched, pid: int, status: int) {
    pid < s.nextPid && forall j :: 0 < j < |s.procs| && Live(s.procs[j]) && s.procs[j].pid == pid ==> s.procs[j].exitStatus == status
  }

  lemma EndedStays(s: Sched, step: Step, pid: int, status: int)
    requires Inv(s, {}, true) && InRange(s) && Allowed(s, step) && Ended(s, pid, status) && pid > 0 && !Ends(s, step, pid)
    ensures Ended(Do(s, step), pid, status)
  {
    StepCarries(s, step);
    hide QInv, PInv, Ledger, Do;
  }

  lemma EndsWith(s: Sched, step: Step, pid: int)
    requires Inv(s, {}, true) && InRange(s) && Allowed(s, step) && Ends(s, step, pid) && s.cur > 0 && (step.DoKill? ==> pid > 1)
    ensures Ended(Do(s, step), pid, if step.DoExit? then step.status else -1)
  {
    var c, status, woken := s.cur, if step.DoExit? then step.status else -1, step.woken;
    var t := Do(s, step);
    hide Exit, Kill, QInv, PInv, Ledger, InLine, WokenUp;
    KillOtherwise(s, pid, woken);
    assert t == Exit(s, status, woken);
    StepKeeps(s, step, true);
    CurrentFacts(s);
    hide Do, Ended;
    ZombieEnded(s, status, woken);
  }

  lemma ZombieEnded(s: Sched, status: int, woken: seq<int>)
    requires Inv(s, {}, true) && s.cur > 0 && Inv(Exit(s, status, woken), {}, true)
    ensures Ended(Exit(s, status, woken), s.procs[s.cur].pid, status)
  {
    var t, c := Exit(s, status, woken), s.cur;
    hide QInv, PInv, Ledger, Exit, InLine, WokenUp;
    CurrentFacts(s);
    ExitEffect(s, status, woken, true);
    forall j | 0 < j < |t.procs| && Live(t.procs[j]) && t.procs[j].pid == s.procs[c].pid ensures t.procs[j].exitStatus == status {
      OnePid(t, j, c);
    }
  }

  lemma {:induction false} StaysEnded(states: seq<Sched>, steps: seq<Step>, j: nat, k: nat, pid: int, status: int)
    requires IsRun(states, steps) && Inv(states[0], {}, true) && j <= k <= |steps| && pid > 0 && Ended(states[j], pid, status)
    requires forall m :: j <= m < k ==> !Ends(states[m], steps[m], pid)
    ensures Ended(states[k], pid, status)
  {
    hide Inv, Ended, Ends, Do, Allowed;
    if j < k {
      StaysEnded(states, steps, j, k - 1, pid, status);
      RunKeeps(states, steps, k - 1);
      EndedStays(states[k - 1], steps[k - 1], pid, status);
    }
  }

  /** On every run a wait that collects the status of a process gets the one the process ended with
      last: what it passed to exit, or -1 if it was killed while it was current. */
  lemma StatusDelivered(states: seq<Sched>, steps: seq<Step>, j: nat, k: nat, pid: int)
    requires IsRun(states, steps) && Inv(states[0], {}, true) && j < k < |steps|
    requires Ends(states[j], steps[j], pid) && states[j].cur > 0 && (steps[j].DoKill? ==> pid > 1)
    requires forall m :: j < m < k ==> !Ends(states[m], steps[m], pid)
    requires steps[k] == DoWait(pid) && WaitReaps(states[k], pid)
    ensures WaitResult(states[k], pid) == if steps[j].DoExit? then steps[j].status else -1
  {
    var status := if steps[j].DoExit? then steps[j].status else -1;
    RunKeeps(states, steps, j);
    RunKeeps(states, steps, k);
    hide QInv, PInv, Ledger, Ends, Do, Ended;
    PidPositive(states[j], steps[j], pid);
    EndsWith(states[j], steps[j], pid);
    StaysEnded(states, steps, j + 1, k, pid, status);
    ResultIs(states[k], pid, status);
  }

  lemma PidPositive(s: Sched, step: Step, pid: int)
    requires Inv(s, {}, true) && s.cur > 0 && Ends(s, step, pid)
    ensures pid > 0
  {
    CurrentFacts(s);
  }

  lemma ResultIs(s: Sched, pid: int, status: int)
    requires Inv(s, {}, true) && Ended(s, pid, status) && WaitReaps(s, pid)
    ensures WaitResult(s, pid) == status
  {
    ChildIsYounger(s, pid, true);
  }
}

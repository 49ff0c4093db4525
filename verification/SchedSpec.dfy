/** The scheduler on values: a process table and one sequence per ready queue. */
module SchedSpec {
  import opened Seqs

  const PRIORITY_MIN: int := 1
  const PRIORITY_MAX: int := 5
  const LEVELS: nat := PRIORITY_MAX - PRIORITY_MIN + 1
  const AGING_THRESHOLD: int := 6
  const DEFAULT_PRIORITY: int := 3
  const DEFAULT_QUANTUM: int := 1
  const NONE: int := -1
  const WAIT_BLOCKED: int := -2

  datatype Status = Ready | Running | Blocked | Dead | Zombie

  datatype Proc = Proc(pid: int, parent: int, status: Status, prio: int, eff: int, quantum: int, ticks: int,
                       stack: int, waitingFor: int, exitStatus: int)

  /** `allocs` and `frees` record the stack blocks obtained from and returned to the heap,
      `reaped` the processes whose exit status has been collected. */
  datatype Sched = Sched(procs: seq<Proc>, queues: seq<seq<int>>, cur: int, resched: bool, nextPid: int, count: int,
                         allocs: multiset<int>, frees: multiset<int>, reaped: seq<int>)

  predicate Shaped(s: Sched) {
    |s.procs| >= 2 && |s.queues| == LEVELS && 0 <= s.cur < |s.procs|
  }

  /** The queue index of a priority, which is first forced into range. */
  function Level(priority: int): (l: nat)
    ensures l < LEVELS
    ensures PRIORITY_MIN <= priority <= PRIORITY_MAX ==> l == priority - PRIORITY_MIN
  {
    (if priority < PRIORITY_MIN then PRIORITY_MIN else if priority > PRIORITY_MAX then PRIORITY_MAX else priority) - PRIORITY_MIN
  }

  // ---------------------------------------------------------------- queue primitives

  ghost predicate Queued(s: Sched, i: int)
    requires Shaped(s)
  {
    0 < i < |s.procs| && i in s.queues[Level(s.procs[i].eff)]
  }

  function Set(s: Sched, i: int, p: Proc): Sched
    requires 0 <= i < |s.procs|
  {
    s.(procs := s.procs[i := p])
  }

  ghost function Unqueue(s: Sched, i: int): (t: Sched)
    requires Shaped(s)
    ensures Shaped(t) && t == s.(queues := t.queues)
  {
    if !Queued(s, i) then s
    else var l := Level(s.procs[i].eff); s.(queues := s.queues[l := Remove(s.queues[l], i)])
  }

  ghost function Enqueue(s: Sched, i: int): (t: Sched)
    requires Shaped(s)
    ensures Shaped(t) && t == s.(queues := t.queues)
  {
    if i <= 0 || i >= |s.procs| || Queued(s, i) then s
    else var l := Level(s.procs[i].eff); s.(queues := s.queues[l := s.queues[l] + [i]])
  }

  ghost function MakeReady(s: Sched, i: int): (t: Sched)
    requires Shaped(s) && 0 <= i < |s.procs|
    ensures Shaped(t) && |t.procs| == |s.procs|
  {
    if i == 0 || s.procs[i].status == Dead || s.procs[i].status == Zombie then s
    else
      var p := s.procs[i];
      var t := Enqueue(Set(Unqueue(s, i), i, p.(eff := p.prio, ticks := 0, status := Ready, quantum := DEFAULT_QUANTUM)), i);
      t.(resched := t.resched || (t.cur > 0 && t.procs[i].eff > t.procs[t.cur].eff))
  }

  // ---------------------------------------------------------------- aging and dispatch

  ghost function AgeOne(s: Sched, i: int): (t: Sched)
    requires Shaped(s) && 0 < i < |s.procs|
    ensures Shaped(t) && |t.procs| == |s.procs|
  {
    var p := s.procs[i];
    if !Queued(s, i) || p.status != Ready then s
    else if p.ticks + 1 >= AGING_THRESHOLD && p.eff < PRIORITY_MAX then
      Enqueue(Set(Unqueue(s, i), i, p.(eff := p.eff + 1, ticks := 0)), i)
    else Set(s, i, p.(ticks := p.ticks + 1))
  }

  /** The aging pass over the slots from i on. */
  ghost function AgeFrom(s: Sched, i: nat): (t: Sched)
    requires Shaped(s) && 0 < i <= |s.procs|
    ensures Shaped(t) && |t.procs| == |s.procs|
    decreases |s.procs| - i
  {
    if i == |s.procs| then s else AgeFrom(AgeOne(s, i), i + 1)
  }

  /** The highest priority up to pr with a non-empty queue, or 0. */
  ghost function HighestUpTo(s: Sched, pr: int): (h: int)
    requires Shaped(s) && pr <= PRIORITY_MAX
    ensures h == 0 || (PRIORITY_MIN <= h <= pr && s.queues[Level(h)] != [])
    ensures forall q :: h < q <= pr && PRIORITY_MIN <= q ==> s.queues[Level(q)] == []
    decreases pr
  {
    if pr < PRIORITY_MIN then 0
    else if s.queues[Level(pr)] != [] then pr
    else HighestUpTo(s, pr - 1)
  }

  ghost function Highest(s: Sched): int
    requires Shaped(s)
  {
    HighestUpTo(s, PRIORITY_MAX)
  }

  /** The slot to run next: the first of the highest non-empty queue, or the idle process. */
  ghost function Next(s: Sched): (i: int)
    requires Shaped(s)
  {
    if Highest(s) == 0 then 0 else s.queues[Level(Highest(s))][0]
  }

  /** Take slot Next(s) off its queue. */
  ghost function TakeNext(s: Sched): (t: Sched)
    requires Shaped(s) && 0 <= Next(s) < |s.procs|
    ensures Shaped(t) && |t.procs| == |s.procs|
  {
    if Highest(s) == 0 then s
    else
      var l, i := Level(Highest(s)), Next(s);
      var p := s.procs[i];
      Set(s, i, p.(ticks := 0, eff := p.prio)).(queues := s.queues[l := s.queues[l][1..]])
  }

  /** Switch to the next process of an aged state. */
  ghost function Switch(a: Sched): (t: Sched)
    requires Shaped(a) && 0 <= Next(a) < |a.procs|
    ensures Shaped(t) && |t.procs| == |a.procs|
  {
    var i := Next(a);
    var b := TakeNext(a);
    Set(b, i, b.procs[i].(status := Running, quantum := DEFAULT_QUANTUM)).(cur := i, resched := false)
  }

  /** The current process after its quantum has been charged. */
  function Charge(s: Sched): (t: Sched)
    requires Shaped(s)
    ensures Shaped(t) && |t.procs| == |s.procs|
  {
    var p := s.procs[s.cur];
    if p.status == Running then Set(s, s.cur, p.(quantum := p.quantum - 1)) else s
  }

  /** Whether a tick leaves the current process running. */
  ghost predicate Stays(s: Sched)
    requires Shaped(s)
  {
    var p := s.procs[s.cur];
    p.status == Running && !s.resched && p.quantum - 1 > 0 && Highest(Charge(s)) <= p.eff
  }

  /** The state in which a tick looks for the next process. */
  ghost function Preempt(s: Sched): (t: Sched)
    requires Shaped(s)
    ensures Shaped(t) && |t.procs| == |s.procs|
  {
    if s.procs[s.cur].status == Running then MakeReady(Charge(s), s.cur) else s
  }

  /** Every queue entry is a slot of the table. */
  ghost predicate InRange(s: Sched) {
    forall l, i :: 0 <= l < |s.queues| && i in s.queues[l] ==> 0 < i < |s.procs|
  }

  lemma {:induction false} AgeFromInRange(s: Sched, i: nat)
    requires Shaped(s) && InRange(s) && 0 < i <= |s.procs|
    ensures InRange(AgeFrom(s, i))
    decreases |s.procs| - i
  {
    if i < |s.procs| {
      UnqueueInRange(s, i);
      AgeFromInRange(AgeOne(s, i), i + 1);
    }
  }

  lemma UnqueueInRange(s: Sched, i: int)
    requires Shaped(s) && InRange(s)
    ensures InRange(Unqueue(s, i))
  {
    if Queued(s, i) {
      var q := s.queues[Level(s.procs[i].eff)];
      forall x | x in Remove(q, i) ensures x in q {}
    }
  }

  lemma NextInRange(s: Sched)
    requires Shaped(s) && InRange(s)
    ensures 0 <= Next(AgeFrom(Preempt(s), 1)) < |s.procs|
  {
    UnqueueInRange(Charge(s), s.cur);
    assert InRange(Preempt(s));
    AgeFromInRange(Preempt(s), 1);
    var a := AgeFrom(Preempt(s), 1);
    if Highest(a) != 0 {
      assert a.queues[Level(Highest(a))][0] in a.queues[Level(Highest(a))];
    }
  }

  ghost function Tick(s: Sched): (t: Sched)
    requires Shaped(s) && InRange(s)
    ensures Shaped(t) && |t.procs| == |s.procs|
  {
    if Stays(s) then Charge(s)
    else
      NextInRange(s);
      Switch(AgeFrom(Preempt(s), 1))
  }

  // ---------------------------------------------------------------- process operations

  /** The first slot from i on that holds a process with this pid that is not dead, or -1. */
  function Find(s: Sched, pid: int, i: nat): (r: int)
    requires i <= |s.procs|
    ensures r == -1 || (i <= r < |s.procs| && s.procs[r].pid == pid && s.procs[r].status != Dead)
    ensures r == -1 ==> forall j :: i <= j < |s.procs| ==> s.procs[j].pid != pid || s.procs[j].status == Dead
    decreases |s.procs| - i
  {
    if i == |s.procs| then -1
    else if s.procs[i].pid == pid && s.procs[i].status != Dead then i
    else Find(s, pid, i + 1)
  }

  /** The first slot from i on that is dead, or -1. */
  function FindDead(s: Sched, i: nat): (r: int)
    requires i <= |s.procs|
    ensures r == -1 || (i <= r < |s.procs| && s.procs[r].status == Dead && forall j :: i <= j < r ==> s.procs[j].status != Dead)
    ensures r == -1 ==> forall j :: i <= j < |s.procs| ==> s.procs[j].status != Dead
    decreases |s.procs| - i
  {
    if i == |s.procs| then -1 else if s.procs[i].status == Dead then i else FindDead(s, i + 1)
  }

  /** The first slot from i on that holds a blocked process with this pid, or -1. */
  function FindBlocked(s: Sched, pid: int, i: nat): (r: int)
    requires i <= |s.procs|
    ensures r == -1 || (i <= r < |s.procs| && s.procs[r].pid == pid && s.procs[r].status == Blocked)
    ensures r == -1 ==> forall j :: i <= j < |s.procs| ==> s.procs[j].pid != pid || s.procs[j].status != Blocked
    decreases |s.procs| - i
  {
    if i == |s.procs| then -1
    else if s.procs[i].pid == pid && s.procs[i].status == Blocked then i
    else FindBlocked(s, pid, i + 1)
  }

  /** A new process enters slot i. */
  function Admit(s: Sched, i: int, p: Proc): Sched
    requires 0 <= i < |s.procs|
  {
    Set(s, i, p).(nextPid := s.nextPid + 1, count := s.count + 1, allocs := s.allocs + multiset{p.stack})
  }

  /** `stack` is what the heap returned for the new stack, NONE when it had no room. */
  ghost function Create(s: Sched, priority: int, stack: int): (t: Sched)
    requires Shaped(s)
    ensures Shaped(t) && |t.procs| == |s.procs|
  {
    var prio := if PRIORITY_MIN <= priority <= PRIORITY_MAX then priority else DEFAULT_PRIORITY;
    var i := FindDead(s, 1);
    if i < 0 || stack == NONE then s
    else
      var p := Proc(s.nextPid, s.procs[s.cur].pid, Ready, prio, prio, DEFAULT_QUANTUM, 0, stack, -1, 0);
      MakeReady(Admit(s, i, p), i)
  }

  ghost function Unblock(s: Sched, pid: int): (t: Sched)
    requires Shaped(s)
    ensures Shaped(t) && |t.procs| == |s.procs|
  {
    var i := FindBlocked(s, pid, 0);
    if i < 0 then s else MakeReady(s, i)
  }

  ghost function UnblockAll(s: Sched, pids: seq<int>): (t: Sched)
    requires Shaped(s)
    ensures Shaped(t) && |t.procs| == |s.procs|
    decreases |pids|
  {
    if pids == [] then s else UnblockAll(Unblock(s, pids[0]), pids[1..])
  }

  ghost function WakeOne(s: Sched, pid: int, i: nat): (t: Sched)
    requires Shaped(s) && i < |s.procs|
    ensures Shaped(t) && |t.procs| == |s.procs|
  {
    if s.procs[i].status == Blocked && s.procs[i].waitingFor == pid
    then MakeReady(Set(s, i, s.procs[i].(waitingFor := -1)), i)
    else s
  }

  /** Wake the processes from slot i on that wait for this pid. */
  ghost function WakeWaiters(s: Sched, pid: int, i: nat): (t: Sched)
    requires Shaped(s) && i <= |s.procs|
    ensures Shaped(t) && |t.procs| == |s.procs|
    decreases |s.procs| - i
  {
    if i == |s.procs| then s else WakeWaiters(WakeOne(s, pid, i), pid, i + 1)
  }

  /** `woken` are the processes that closing the file descriptors unblocks, in order. */
  ghost function Exit(s: Sched, status: int, woken: seq<int>): (t: Sched)
    requires Shaped(s)
    ensures Shaped(t) && |t.procs| == |s.procs|
  {
    if s.cur <= 0 then s
    else
      var a := UnblockAll(Set(s, s.cur, s.procs[s.cur].(exitStatus := status)), woken);
      ExitCleanup(a)
  }

  ghost function ExitCleanup(a: Sched): (t: Sched)
    requires Shaped(a)
    ensures Shaped(t) && |t.procs| == |a.procs|
  {
    var b := Unqueue(a, a.cur);
    var c := Set(b, b.cur, b.procs[b.cur].(status := Zombie, quantum := 0, ticks := 0)).(resched := true);
    WakeWaiters(c, c.procs[c.cur].pid, 0)
  }

  /** Free a slot whose process is gone. */
  function Bury(p: Proc): Proc {
    p.(status := Dead, quantum := 0, waitingFor := -1, eff := 0, ticks := 0, stack := NONE)
  }

  /** mm_free ignores a null pointer. */
  function Freed(frees: multiset<int>, stack: int): multiset<int> {
    if stack == NONE then frees else frees + multiset{stack}
  }

  /** Slot i becomes free: its stack goes back to the heap and the process is counted out. */
  function Buried(a: Sched, i: int): (t: Sched)
    requires 0 <= i < |a.procs|
    ensures Shaped(a) ==> Shaped(t) && |t.procs| == |a.procs|
  {
    Set(a, i, Bury(a.procs[i])).(frees := Freed(a.frees, a.procs[i].stack), count := a.count - 1)
  }

  /** Kill the process in a slot other than the current one. */
  ghost function KillSlot(s: Sched, i: int, pid: int, woken: seq<int>): (t: Sched)
    requires Shaped(s) && 0 <= i < |s.procs|
    ensures Shaped(t) && |t.procs| == |s.procs|
  {
    WakeWaiters(Buried(UnblockAll(Unqueue(s, i), woken), i), pid, 0)
  }

  ghost function Kill(s: Sched, pid: int, woken: seq<int>): (t: Sched)
    requires Shaped(s)
    ensures Shaped(t) && |t.procs| == |s.procs|
  {
    var i := Find(s, pid, 0);
    if pid <= 1 || i < 0 then s
    else if i == s.cur then Exit(s, -1, woken)
    else KillSlot(s, i, pid, woken)
  }

  ghost function Block(s: Sched, pid: int): (t: Sched)
    requires Shaped(s)
    ensures Shaped(t) && |t.procs| == |s.procs|
  {
    var i := Find(s, pid, 0);
    if i < 0 then s
    else
      var a := Unqueue(s, i);
      var p := a.procs[i].(status := Blocked);
      if i == a.cur then Set(a, i, p.(quantum := 0)).(resched := true) else Set(a, i, p)
  }

  /** Give slot i a new base priority, at the tail of its new queue when it was queued. */
  ghost function Reprioritize(s: Sched, i: int, priority: int): (t: Sched)
    requires Shaped(s) && 0 <= i < |s.procs|
    ensures Shaped(t) && |t.procs| == |s.procs|
  {
    var a := Unqueue(s, i);
    var b := Set(a, i, a.procs[i].(prio := priority, eff := priority, ticks := 0, quantum := DEFAULT_QUANTUM));
    if Queued(s, i) then Enqueue(b, i) else b
  }

  ghost function Nice(s: Sched, pid: int, priority: int): (t: Sched)
    requires Shaped(s)
    ensures Shaped(t) && |t.procs| == |s.procs|
  {
    var i := Find(s, pid, 0);
    if priority < PRIORITY_MIN || priority > PRIORITY_MAX || i < 0 then s
    else
      var c := Reprioritize(s, i, priority);
      c.(resched := c.resched || i == c.cur || priority > c.procs[c.cur].eff)
  }

  /** Whether waiting for this pid puts the caller to sleep. */
  predicate WaitBlocks(s: Sched, pid: int)
    requires Shaped(s)
  {
    var i := Find(s, pid, 0);
    pid > 0 && i >= 0 && s.procs[i].parent == s.procs[s.cur].pid && s.procs[i].status != Zombie
  }

  /** Whether waiting for this pid collects an exit status. */
  predicate WaitReaps(s: Sched, pid: int)
    requires Shaped(s)
  {
    var i := Find(s, pid, 0);
    pid > 0 && i >= 0 && s.procs[i].parent == s.procs[s.cur].pid && s.procs[i].status == Zombie
  }

  function WaitResult(s: Sched, pid: int): int
    requires Shaped(s)
  {
    if WaitBlocks(s, pid) then WAIT_BLOCKED
    else if WaitReaps(s, pid) then s.procs[Find(s, pid, 0)].exitStatus
    else -1
  }

  ghost function Wait(s: Sched, pid: int): (t: Sched)
    requires Shaped(s)
    ensures Shaped(t) && |t.procs| == |s.procs|
  {
    if WaitBlocks(s, pid) then
      Set(s, s.cur, s.procs[s.cur].(waitingFor := pid, status := Blocked, quantum := 0)).(resched := true)
    else if WaitReaps(s, pid) then
      var i := Find(s, pid, 0);
      if i == 0 then s.(count := s.count - 1)
      else
        var a := Unqueue(s, i);
        Set(a, i, Proc(0, 0, Dead, 0, 0, 0, 0, NONE, -1, 0)).(
          frees := Freed(a.frees, a.procs[i].stack), count := a.count - 1, reaped := a.reaped + [pid])
    else s
  }

  function Yield(s: Sched): (t: Sched)
    requires Shaped(s)
    ensures Shaped(t) && |t.procs| == |s.procs|
  {
    Set(s, s.cur, s.procs[s.cur].(quantum := 0)).(resched := true)
  }

  // ---------------------------------------------------------------- steps

  datatype Step =
    | DoCreate(priority: int, stack: int)
    | DoKill(pid: int, woken: seq<int>)
    | DoExit(status: int, woken: seq<int>)
    | DoBlock(pid: int)
    | DoUnblock(pid: int)
    | DoNice(pid: int, priority: int)
    | DoWait(pid: int)
    | DoYield
    | DoTick

  ghost function Do(s: Sched, step: Step): (t: Sched)
    requires Shaped(s) && InRange(s)
    ensures Shaped(t) && |t.procs| == |s.procs|
  {
    match step
    case DoCreate(priority, stack) => Create(s, priority, stack)
    case DoKill(pid, woken) => Kill(s, pid, woken)
    case DoExit(status, woken) => Exit(s, status, woken)
    case DoBlock(pid) => Block(s, pid)
    case DoUnblock(pid) => Unblock(s, pid)
    case DoNice(pid, priority) => Nice(s, pid, priority)
    case DoWait(pid) => Wait(s, pid)
    case DoYield => Yield(s)
    case DoTick => Tick(s)
  }
}

/** Semaphores on values: a counter and a queue of waiters that earn credit. */
module SemSpec {

  const CREDIT_MAX: int := 5

  /** What a semaphore asks the scheduler about a process that is not dead. */
  datatype View = View(blocked: bool, prio: nat)
  type Procs = map<int, View>

  datatype Waiter = Waiter(pid: int, credit: int)
  datatype Sem = Sem(value: int, queue: seq<Waiter>)

  predicate Sleeps(procs: Procs, pid: int) {
    pid in procs && procs[pid].blocked
  }

  function WakeUp(procs: Procs, pid: int): Procs {
    if pid in procs then procs[pid := procs[pid].(blocked := false)] else procs
  }

  function PutToSleep(procs: Procs, pid: int): Procs {
    if pid in procs then procs[pid := procs[pid].(blocked := true)] else procs
  }

  function Score(procs: Procs, w: Waiter): int
    requires Sleeps(procs, w.pid)
  {
    procs[w.pid].prio + w.credit
  }

  /** Scan of the first n waiters: the first sleeping one of highest score, or -1. */
  function BestUpTo(queue: seq<Waiter>, procs: Procs, n: nat): (b: int)
    requires n <= |queue|
    ensures b == -1 || (0 <= b < n && Sleeps(procs, queue[b].pid))
  {
    if n == 0 then -1
    else
      var b := BestUpTo(queue, procs, n - 1);
      var w := queue[n - 1];
      if Sleeps(procs, w.pid) && Score(procs, w) > (if b < 0 then -1 else Score(procs, queue[b])) then n - 1 else b
  }

  function Best(queue: seq<Waiter>, procs: Procs): (b: int)
    ensures b == -1 || (0 <= b < |queue| && Sleeps(procs, queue[b].pid))
  {
    BestUpTo(queue, procs, |queue|)
  }

  function Richer(w: Waiter): Waiter {
    if w.credit < CREDIT_MAX then w.(credit := w.credit + 1) else w
  }

  /** Every waiter but the selected one gains a credit, up to the maximum. */
  function AgeExcept(queue: seq<Waiter>, sel: nat): (q: seq<Waiter>)
    ensures |q| == |queue|
    ensures forall i :: 0 <= i < |queue| ==> q[i] == if i == sel then queue[i] else Richer(queue[i])
  {
    seq(|queue|, i requires 0 <= i < |queue| => if i == sel then queue[i] else Richer(queue[i]))
  }

  function Dequeue(queue: seq<Waiter>, i: nat): seq<Waiter>
    requires i < |queue|
  {
    queue[..i] + queue[i + 1..]
  }

  /** Drop waiters that do not sleep until one that does is woken, or the queue is empty. */
  function UnblockOne(queue: seq<Waiter>, procs: Procs): (r: (seq<Waiter>, Procs))
    decreases |queue|
  {
    if queue == [] then (queue, procs)
    else
      var b := Best(queue, procs);
      if b < 0 then UnblockOne(Dequeue(queue, 0), procs)
      else (Dequeue(AgeExcept(queue, b), b), WakeUp(procs, queue[b].pid))
  }

  function Post(s: Sem, procs: Procs): (Sem, Procs) {
    if s.value + 1 <= 0 then
      var (q, ps) := UnblockOne(s.queue, procs);
      (Sem(s.value + 1, q), ps)
    else (Sem(s.value + 1, s.queue), procs)
  }

  lemma {:induction false} UnblockShortens(queue: seq<Waiter>, procs: Procs)
    requires queue != []
    ensures |UnblockOne(queue, procs).0| < |queue|
    decreases |queue|
  {
    hide Best;
    if Best(queue, procs) < 0 {
      if |queue| > 1 { UnblockShortens(Dequeue(queue, 0), procs); } else { assert Dequeue(queue, 0) == []; }
    }
  }

  /** Wake everybody, one post at a time. */
  function Drain(s: Sem, procs: Procs): (Sem, Procs)
    decreases |s.queue|
  {
    if s.queue == [] then (s, procs)
    else
      UnblockShortens(s.queue, procs);
      var (q, ps) := UnblockOne(s.queue, procs);
      Drain(Sem(s.value + 1, q), ps)
  }

  function PostAll(s: Sem, procs: Procs): (Sem, Procs) {
    var (t, ps) := Drain(s, procs);
    (if t.value < 0 then t.(value := 0) else t, ps)
  }

  /** The queue without the entries of a process. */
  function Without(queue: seq<Waiter>, pid: int): (q: seq<Waiter>) {
    if queue == [] then []
    else if queue[|queue| - 1].pid == pid then Without(queue[..|queue| - 1], pid)
    else Without(queue[..|queue| - 1], pid) + [queue[|queue| - 1]]
  }

  datatype WaitOutcome = Passed | Slept | Refused

  /** `capacity` is the length of the waiting array. */
  function Wait(s: Sem, procs: Procs, pid: int, capacity: nat): (Sem, Procs, WaitOutcome) {
    if s.value - 1 >= 0 then (Sem(s.value - 1, s.queue), procs, Passed)
    else
      var q := Without(s.queue, pid);
      if |q| >= capacity then (Sem(s.value, q), procs, Refused)
      else (Sem(s.value - 1, q + [Waiter(pid, 0)]), PutToSleep(procs, pid), Slept)
  }

  /** Take a process that is being killed off the queue. */
  function RemovePid(s: Sem, pid: int): Sem {
    var q := Without(s.queue, pid);
    Sem(s.value + |s.queue| - |q|, q)
  }

  // ---------------------------------------------------------------- selection

  /** b is the first sleeping waiter of highest priority plus credit, or -1 when nobody sleeps. */
  ghost predicate IsBest(queue: seq<Waiter>, procs: Procs, n: nat, b: int)
    requires n <= |queue|
  {
    && -1 <= b < n
    && (b == -1 ==> forall i :: 0 <= i < n ==> !Sleeps(procs, queue[i].pid))
    && (b >= 0 ==> Sleeps(procs, queue[b].pid))
    && (b >= 0 ==> forall i :: 0 <= i < n && Sleeps(procs, queue[i].pid) ==>
          var mine, best := procs[queue[i].pid].prio + queue[i].credit, procs[queue[b].pid].prio + queue[b].credit;
          mine <= best && (i < b ==> mine < best))
  }

  lemma {:induction false} BestIsBest(queue: seq<Waiter>, procs: Procs, n: nat)
    requires n <= |queue| && (forall i :: 0 <= i < |queue| ==> queue[i].credit >= 0)
    ensures IsBest(queue, procs, n, BestUpTo(queue, procs, n))
  {
    if n > 0 { BestIsBest(queue, procs, n - 1); }
  }

  // ---------------------------------------------------------------- what every run keeps

  function Max0(x: int): int {
    if x < 0 then 0 else x
  }

  /** Recorded waiters never outnumber the debt, are distinct, and credit falls along the queue. */
  ghost predicate SemInv(s: Sem) {
    |s.queue| <= Max0(-s.value) && QueueOk(s.queue)
  }

  ghost predicate QueueOk(q: seq<Waiter>) {
    && (forall i :: 0 <= i < |q| ==> 0 <= q[i].credit <= CREDIT_MAX)
    && (forall i, j :: 0 <= i < j < |q| ==> q[i].credit >= q[j].credit)
    && (forall i, j :: 0 <= i < j < |q| ==> q[i].pid != q[j].pid)
  }

  lemma AgedOk(q: seq<Waiter>, r: seq<Waiter>)
    requires QueueOk(q) && |r| == |q| && forall i :: 0 <= i < |q| ==> r[i] == Richer(q[i])
    ensures QueueOk(r)
  {
  }

  lemma DequeueOk(q: seq<Waiter>, b: nat)
    requires QueueOk(q) && b < |q|
    ensures QueueOk(Dequeue(AgeExcept(q, b), b)) && QueueOk(Dequeue(q, b))
  {
    var t, u := Dequeue(AgeExcept(q, b), b), Dequeue(q, b);
    assert forall i :: 0 <= i < |u| ==> u[i] == q[if i < b then i else i + 1];
    assert QueueOk(u);
    hide QueueOk;
    AgedOk(u, t);
  }

  lemma {:induction false} UnblockKeeps(queue: seq<Waiter>, procs: Procs)
    requires QueueOk(queue)
    ensures QueueOk(UnblockOne(queue, procs).0)
    ensures queue != [] ==> |UnblockOne(queue, procs).0| < |queue|
    decreases |queue|
  {
    if queue != [] {
      var b := Best(queue, procs);
      UnblockShortens(queue, procs);
      DequeueOk(queue, if b < 0 then 0 else b);
      if b < 0 { UnblockKeeps(Dequeue(queue, 0), procs); }
    }
  }

  lemma PostKeeps(s: Sem, procs: Procs)
    requires SemInv(s)
    ensures SemInv(Post(s, procs).0)
  {
    UnblockKeeps(s.queue, procs);
  }

  /** sem_post_all ends with an empty queue and the counter at max(0, old). */
  lemma {:induction false} DrainValue(s: Sem, procs: Procs)
    requires QueueOk(s.queue) && (s.value + |s.queue| <= 0 || s.queue == [])
    ensures var t := Drain(s, procs).0;
            t.queue == [] && (if s.queue == [] then t.value == s.value else s.value < t.value <= 0)
    decreases |s.queue|
  {
    if s.queue != [] {
      UnblockKeeps(s.queue, procs);
      var (q, ps) := UnblockOne(s.queue, procs);
      DrainValue(Sem(s.value + 1, q), ps);
    }
  }

  lemma PostAllResult(s: Sem, procs: Procs)
    requires SemInv(s)
    ensures PostAll(s, procs).0 == Sem(Max0(s.value), [])
  {
    DrainValue(s, procs);
  }

  ghost predicate Recorded(q: seq<Waiter>, pid: int) {
    exists i :: 0 <= i < |q| && q[i].pid == pid
  }

  lemma {:induction false} WithoutMembers(q: seq<Waiter>, pid: int)
    ensures forall w :: w in Without(q, pid) <==> w in q && w.pid != pid
    ensures !Recorded(Without(q, pid), pid)
  {
    if q != [] {
      var n := |q| - 1;
      WithoutMembers(q[..n], pid);
      assert q == q[..n] + [q[n]];
    }
    var r := Without(q, pid);
    forall i | 0 <= i < |r| ensures r[i].pid != pid { assert r[i] in r; }
  }

  lemma {:induction false} WithoutUnchanged(q: seq<Waiter>, pid: int)
    requires !Recorded(q, pid)
    ensures Without(q, pid) == q
  {
    if q != [] {
      var n := |q| - 1;
      assert forall i :: 0 <= i < n ==> q[..n][i] == q[i];
      WithoutUnchanged(q[..n], pid);
      assert q == q[..n] + [q[n]];
    }
  }

  /** The waiters before the last one, and how they relate to it. */
  lemma PrefixOk(q: seq<Waiter>)
    requires QueueOk(q) && q != []
    ensures var n := |q| - 1;
            && QueueOk(q[..n]) && 0 <= q[n].credit <= CREDIT_MAX && q == q[..n] + [q[n]]
            && (forall i :: 0 <= i < n ==> q[..n][i].credit >= q[n].credit && q[..n][i].pid != q[n].pid)
  {
  }

  lemma RecordedSplit(q: seq<Waiter>, pid: int)
    requires q != []
    ensures Recorded(q, pid) <==> Recorded(q[..|q| - 1], pid) || q[|q| - 1].pid == pid
  {
    var n := |q| - 1;
    if Recorded(q, pid) && q[n].pid != pid {
      var i :| 0 <= i < |q| && q[i].pid == pid;
      assert q[..n][i].pid == pid;
    }
    if i :| 0 <= i < n && q[..n][i].pid == pid { assert q[i].pid == pid; }
  }

  /** Distinct waiters lose exactly one entry when the process is recorded, none otherwise. */
  lemma {:induction false} WithoutLength(q: seq<Waiter>, pid: int)
    requires QueueOk(q)
    ensures |Without(q, pid)| == |q| - (if Recorded(q, pid) then 1 else 0)
  {
    if q != [] {
      var n := |q| - 1;
      PrefixOk(q);
      RecordedSplit(q, pid);
      if q[n].pid == pid {
        assert !Recorded(q[..n], pid);
        WithoutUnchanged(q[..n], pid);
      } else {
        hide QueueOk, Recorded;
        WithoutLength(q[..n], pid);
      }
    }
  }

  lemma AppendOk(r: seq<Waiter>, w: Waiter)
    requires QueueOk(r) && 0 <= w.credit <= CREDIT_MAX
    requires forall i :: 0 <= i < |r| ==> r[i].credit >= w.credit && r[i].pid != w.pid
    ensures QueueOk(r + [w])
  {
  }

  lemma {:induction false} WithoutOk(q: seq<Waiter>, pid: int)
    requires QueueOk(q)
    ensures QueueOk(Without(q, pid))
  {
    if q != [] {
      hide QueueOk;
      var n := |q| - 1;
      var p, r := q[..n], Without(q[..n], pid);
      PrefixOk(q);
      WithoutOk(p, pid);
      WithoutMembers(p, pid);
      forall i | 0 <= i < |r| ensures r[i].credit >= q[n].credit && r[i].pid != q[n].pid {
        assert r[i] in r && r[i] in p;
      }
      AppendOk(r, q[n]);
    }
  }

  /** A new waiter goes to the end with no credit. */
  lemma JoinOk(q: seq<Waiter>, pid: int)
    requires QueueOk(q) && !Recorded(q, pid)
    ensures QueueOk(q + [Waiter(pid, 0)])
  {
    AppendOk(q, Waiter(pid, 0));
  }

  lemma RemoveKeeps(s: Sem, pid: int)
    requires SemInv(s)
    ensures SemInv(RemovePid(s, pid)) && !Recorded(RemovePid(s, pid).queue, pid)
  {
    WithoutOk(s.queue, pid);
    WithoutMembers(s.queue, pid);
    WithoutLength(s.queue, pid);
  }

  lemma WaitKeeps(s: Sem, procs: Procs, pid: int, capacity: nat)
    requires SemInv(s)
    ensures SemInv(Wait(s, procs, pid, capacity).0)
  {
    hide QueueOk, Recorded;
    WithoutOk(s.queue, pid);
    WithoutLength(s.queue, pid);
    WithoutMembers(s.queue, pid);
    JoinOk(Without(s.queue, pid), pid);
  }

  /** Anything that can happen to one semaphore. The scheduler's answers are arbitrary at each
      step: processes may be blocked, unblocked, killed or reniced from outside in between. */
  datatype SemStep = DoWait(pid: int) | DoPost | DoPostAll | DoRemove(pid: int)

  function Do(s: Sem, step: SemStep, procs: Procs, capacity: nat): Sem {
    match step
    case DoWait(pid) => Wait(s, procs, pid, capacity).0
    case DoPost => Post(s, procs).0
    case DoPostAll => PostAll(s, procs).0
    case DoRemove(pid) => RemovePid(s, pid)
  }

  lemma {:induction false} EveryRunKeeps(sems: seq<Sem>, steps: seq<SemStep>, views: seq<Procs>, capacity: nat, k: nat)
    requires |sems| == |steps| + 1 && |views| == |steps| && k <= |steps| && SemInv(sems[0])
    requires forall i :: 0 <= i < |steps| ==> sems[i + 1] == Do(sems[i], steps[i], views[i], capacity)
    ensures SemInv(sems[k])
  {
    if k > 0 {
      EveryRunKeeps(sems, steps, views, capacity, k - 1);
      var s, ps := sems[k - 1], views[k - 1];
      assert sems[k - 1 + 1] == Do(s, steps[k - 1], ps, capacity);
      hide Wait, Post, PostAll, RemovePid, SemInv;
      match steps[k - 1] {
        case DoWait(pid) => WaitKeeps(s, ps, pid, capacity);
        case DoPost => PostKeeps(s, ps);
        case DoPostAll => PostAllKeeps(s, ps);
        case DoRemove(pid) => RemoveKeeps(s, pid);
      }
    }
  }

  lemma PostAllKeeps(s: Sem, procs: Procs)
    requires SemInv(s)
    ensures SemInv(PostAll(s, procs).0)
  {
    PostAllResult(s, procs);
  }

  // ---------------------------------------------------------------- who is woken

  /** A waiter that was passed over has one credit more, up to 5. */
  ghost predicate Compensated(before: Waiter, after: Waiter) {
    after == Waiter(before.pid, if before.credit + 1 <= 5 then before.credit + 1 else 5)
  }

  /** With a sleeping waiter recorded, a post wakes exactly the best one and compensates the others. */
  lemma PostWakes(s: Sem, procs: Procs)
    requires SemInv(s) && (exists i :: 0 <= i < |s.queue| && Sleeps(procs, s.queue[i].pid))
    ensures var b, t := Best(s.queue, procs), Post(s, procs).0;
            && 0 <= b < |s.queue| && IsBest(s.queue, procs, |s.queue|, b)
            && t.value == s.value + 1 && |t.queue| == |s.queue| - 1
            && (forall i :: 0 <= i < |t.queue| ==> Compensated(s.queue[if i < b then i else i + 1], t.queue[i]))
            && Post(s, procs) == (Sem(s.value + 1, Dequeue(AgeExcept(s.queue, b), b)), WakeUp(procs, s.queue[b].pid))
            && WakeUp(procs, s.queue[b].pid) == procs[s.queue[b].pid := View(false, procs[s.queue[b].pid].prio)]
  {
    BestIsBest(s.queue, procs, |s.queue|);
    hide Best;
  }

  /** When none of the recorded waiters sleeps a post forgets them all and wakes nobody. */
  lemma {:induction false} NobodySleeps(queue: seq<Waiter>, procs: Procs)
    requires forall i :: 0 <= i < |queue| ==> !Sleeps(procs, queue[i].pid)
    ensures UnblockOne(queue, procs) == ([], procs)
    decreases |queue|
  {
    if queue != [] {
      var rest := Dequeue(queue, 0);
      assert forall i :: 0 <= i < |rest| ==> rest[i] == queue[i + 1];
      NobodySleeps(rest, procs);
    }
  }

  /** A wait passes exactly when the counter is positive; otherwise the caller falls asleep at the
      end of the queue, or is refused without a trace in the counter when the others fill it. */
  lemma WaitOutcomes(s: Sem, procs: Procs, pid: int, capacity: nat)
    requires SemInv(s)
    ensures var (t, ps, outcome), others := Wait(s, procs, pid, capacity), |s.queue| - if Recorded(s.queue, pid) then 1 else 0;
            if s.value >= 1 then outcome == Passed && t == Sem(s.value - 1, []) && ps == procs
            else if others >= capacity then outcome == Refused && t.value == s.value && |t.queue| == others && ps == procs
            else
              && outcome == Slept && t.value == s.value - 1 && |t.queue| == others + 1 && t.queue[others] == Waiter(pid, 0)
              && ps == if pid in procs then procs[pid := View(true, procs[pid].prio)] else procs
    ensures forall w :: w in Wait(s, procs, pid, capacity).0.queue && w.pid != pid <==> w in s.queue && w.pid != pid
  {
    WithoutLength(s.queue, pid);
    WithoutMembers(s.queue, pid);
    hide Without, QueueOk, Recorded;
  }

  /** A waiter is woken before an earlier sleeping one only if its current priority is strictly
      higher; among equal priorities the queue is first in, first out. */
  lemma OvertakingNeedsPriority(s: Sem, procs: Procs, a: nat)
    requires SemInv(s) && a < |s.queue| && Sleeps(procs, s.queue[a].pid) && a < Best(s.queue, procs)
    ensures procs[s.queue[a].pid].prio < procs[s.queue[Best(s.queue, procs)].pid].prio
  {
    BestIsBest(s.queue, procs, |s.queue|);
  }

  /** A recorded waiter is never skipped: while one is recorded the counter is negative, so a
      post shortens the queue, and it wakes somebody whenever some waiter sleeps. */
  lemma PostNeverSkips(s: Sem, procs: Procs)
    requires SemInv(s) && s.queue != []
    ensures s.value < 0 && |Post(s, procs).0.queue| < |s.queue|
  {
    UnblockKeeps(s.queue, procs);
  }

  // ---------------------------------------------------------------- disciplined use

  /** Every recorded waiter sleeps, and there are as many as the debt. */
  ghost predicate Exact(s: Sem, procs: Procs) {
    && QueueOk(s.queue) && |s.queue| == Max0(-s.value)
    && (forall i :: 0 <= i < |s.queue| ==> Sleeps(procs, s.queue[i].pid))
  }

  lemma ExactPost(s: Sem, procs: Procs)
    requires Exact(s, procs)
    ensures Exact(Post(s, procs).0, Post(s, procs).1)
    ensures s.queue == [] ==> Post(s, procs) == (Sem(s.value + 1, []), procs)
    ensures s.queue != [] ==>
              var b := Best(s.queue, procs);
              && 0 <= b < |s.queue|
              && Post(s, procs) == (Sem(s.value + 1, Dequeue(AgeExcept(s.queue, b), b)), WakeUp(procs, s.queue[b].pid))
  {
    if s.queue != [] {
      assert Sleeps(procs, s.queue[0].pid);
      PostWakes(s, procs);
      var b := Best(s.queue, procs);
      DequeueOk(s.queue, b);
      var q := Dequeue(AgeExcept(s.queue, b), b);
      forall i | 0 <= i < |q| ensures Sleeps(WakeUp(procs, s.queue[b].pid), q[i].pid) {
        var k := if i < b then i else i + 1;
        assert q[i].pid == s.queue[k].pid && s.queue[k].pid != s.queue[b].pid;
      }
    }
  }

  /** A process that is not asleep passes when the counter is positive and sleeps otherwise. */
  lemma ExactWait(s: Sem, procs: Procs, pid: int, capacity: nat)
    requires Exact(s, procs) && pid in procs && !procs[pid].blocked && |s.queue| < capacity
    ensures var (t, ps, outcome) := Wait(s, procs, pid, capacity);
            && Exact(t, ps)
            && (if s.value >= 1 then outcome == Passed && t == Sem(s.value - 1, []) && ps == procs
                else outcome == Slept && t == Sem(s.value - 1, s.queue + [Waiter(pid, 0)]) && ps == PutToSleep(procs, pid))
  {
    assert !Recorded(s.queue, pid);
    hide QueueOk, Recorded;
    WithoutUnchanged(s.queue, pid);
    JoinOk(s.queue, pid);
  }

  /** ps is procs with exactly the recorded waiters woken. */
  ghost predicate Woken(q: seq<Waiter>, procs: Procs, ps: Procs) {
    && ps.Keys == procs.Keys
    && (forall pid :: pid in procs ==> ps[pid].prio == procs[pid].prio)
    && (forall pid :: pid in procs ==> ps[pid].blocked == (procs[pid].blocked && !Recorded(q, pid)))
  }

  /** Entry i of the queue after a dequeue is entry i or i + 1 of the queue before. */
  lemma DequeuedPids(q: seq<Waiter>, b: nat)
    requires b < |q|
    ensures var r := Dequeue(AgeExcept(q, b), b);
            && |r| == |q| - 1
            && (forall i :: 0 <= i < |r| ==> r[i].pid == q[if i < b then i else i + 1].pid)
            && (forall pid :: Recorded(q, pid) && pid != q[b].pid ==> Recorded(r, pid))
  {
    var r := Dequeue(AgeExcept(q, b), b);
    forall pid | Recorded(q, pid) && pid != q[b].pid ensures Recorded(r, pid) {
      var i :| 0 <= i < |q| && q[i].pid == pid;
      assert r[if i < b then i else i - 1].pid == pid;
    }
  }

  /** sem_post_all wakes exactly the recorded waiters. */
  lemma {:induction false} ExactDrain(s: Sem, procs: Procs)
    requires Exact(s, procs)
    ensures Woken(s.queue, procs, Drain(s, procs).1)
    decreases |s.queue|
  {
    if s.queue != [] {
      ExactPost(s, procs);
      var b := Best(s.queue, procs);
      DequeuedPids(s.queue, b);
      hide Best, Post;
      assert s.value < 0;
      var t, ps := Sem(s.value + 1, Dequeue(AgeExcept(s.queue, b), b)), WakeUp(procs, s.queue[b].pid);
      ExactDrain(t, ps);
      assert Drain(s, procs) == Drain(t, ps) by { PostIsUnblock(s, procs); }
      WokenStep(s.queue, b, procs, Drain(t, ps).1);
    }
  }

  lemma PostIsUnblock(s: Sem, procs: Procs)
    requires s.value < 0
    ensures Post(s, procs) == (Sem(s.value + 1, UnblockOne(s.queue, procs).0), UnblockOne(s.queue, procs).1)
  {
  }

  lemma WokenStep(q: seq<Waiter>, b: nat, procs: Procs, ps: Procs)
    requires b < |q| && Sleeps(procs, q[b].pid)
    requires Woken(Dequeue(AgeExcept(q, b), b), WakeUp(procs, q[b].pid), ps)
    ensures Woken(q, procs, ps)
  {
    DequeuedPids(q, b);
    var r, h := Dequeue(AgeExcept(q, b), b), q[b].pid;
    forall pid | pid in procs ensures ps[pid].blocked == (procs[pid].blocked && !Recorded(q, pid)) {
      if Recorded(r, pid) {
        var i :| 0 <= i < |r| && r[i].pid == pid;
        assert q[if i < b then i else i + 1].pid == pid;
      }
    }
  }

  lemma ExactPostAll(s: Sem, procs: Procs)
    requires Exact(s, procs)
    ensures PostAll(s, procs).0 == Sem(Max0(s.value), []) && Woken(s.queue, procs, PostAll(s, procs).1)
  {
    PostAllResult(s, procs);
    ExactDrain(s, procs);
  }

  /** Taking a process off the queue repays its share of the debt and affects nobody else. */
  lemma ExactRemove(s: Sem, procs: Procs, pid: int)
    requires Exact(s, procs)
    ensures var t := RemovePid(s, pid);
            && Exact(t, procs) && !Recorded(t.queue, pid)
            && (forall w :: w in t.queue ==> w in s.queue)
            && (forall p :: Recorded(s.queue, p) && p != pid ==> Recorded(t.queue, p))
            && (s.queue == [] ==> t == s)
  {
    var q, t := s.queue, RemovePid(s, pid);
    WithoutOk(q, pid);
    WithoutMembers(q, pid);
    WithoutLength(q, pid);
    forall p | Recorded(q, p) && p != pid ensures Recorded(t.queue, p) {
      var i :| 0 <= i < |q| && q[i].pid == p;
      assert q[i] in t.queue;
    }
    forall i | 0 <= i < |t.queue| ensures Sleeps(procs, t.queue[i].pid) { assert t.queue[i] in q; }
  }

  /** A dequeue takes exactly one process off the queue. */
  lemma DequeuedOnly(q: seq<Waiter>, b: nat)
    requires QueueOk(q) && b < |q|
    ensures var r := Dequeue(AgeExcept(q, b), b);
            && (forall d :: Recorded(r, d) <==> Recorded(q, d) && d != q[b].pid)
            && (forall i :: 0 <= i < |r| ==> exists j :: 0 <= j < |q| && q[j].pid == r[i].pid && j != b)
  {
    DequeuedPids(q, b);
    var r := Dequeue(AgeExcept(q, b), b);
    hide Dequeue, AgeExcept;
    forall i | 0 <= i < |r| ensures exists j :: 0 <= j < |q| && q[j].pid == r[i].pid && j != b {
      var j := if i < b then i else i + 1;
      assert q[j].pid == r[i].pid;
    }
    forall d ensures Recorded(r, d) <==> Recorded(q, d) && d != q[b].pid {
      if Recorded(r, d) {
        var i :| 0 <= i < |r| && r[i].pid == d;
        var j :| 0 <= j < |q| && q[j].pid == r[i].pid && j != b;
      }
    }
  }

  /** Taking a process off the queue concerns nobody else. */
  lemma RemovedRecords(s: Sem, pid: int)
    requires QueueOk(s.queue) && |s.queue| == Max0(-s.value)
    ensures var t := RemovePid(s, pid);
            && (forall p :: Recorded(t.queue, p) <==> Recorded(s.queue, p) && p != pid)
            && (t.value == s.value || (t.value == s.value + 1 && s.value < 0))
  {
    WithoutMembers(s.queue, pid);
    WithoutLength(s.queue, pid);
    var t := RemovePid(s, pid);
    forall p ensures Recorded(t.queue, p) <==> Recorded(s.queue, p) && p != pid {
      if Recorded(t.queue, p) {
        var i :| 0 <= i < |t.queue| && t.queue[i].pid == p;
        assert t.queue[i] in s.queue;
      }
      if Recorded(s.queue, p) && p != pid {
        var i :| 0 <= i < |s.queue| && s.queue[i].pid == p;
        assert s.queue[i] in t.queue;
      }
    }
  }

  // ---------------------------------------------------------------- counting

  /** A wait by a process that is awake, with room to record it, a post, or the removal of a
      process that is killed. */
  predicate Proper(s: Sem, procs: Procs, step: SemStep, capacity: nat) {
    match step
    case DoWait(pid) => pid in procs && !procs[pid].blocked && |s.queue| < capacity
    case DoPostAll => false
    case _ => true
  }

  function Pair(s: Sem, procs: Procs, step: SemStep, capacity: nat): (Sem, Procs) {
    match step
    case DoWait(pid) => var (t, ps, _) := Wait(s, procs, pid, capacity); (t, ps)
    case DoPost => Post(s, procs)
    case DoPostAll => PostAll(s, procs)
    case DoRemove(pid) => (RemovePid(s, pid), procs)
  }

  function Waits(steps: seq<SemStep>): nat {
    if steps == [] then 0 else Waits(steps[..|steps| - 1]) + if steps[|steps| - 1].DoWait? then 1 else 0
  }

  function Posts(steps: seq<SemStep>): nat {
    if steps == [] then 0 else Posts(steps[..|steps| - 1]) + if steps[|steps| - 1].DoPost? then 1 else 0
  }

  ghost predicate GivesUp(s: Sem, step: SemStep) {
    step.DoRemove? && Recorded(s.queue, step.pid)
  }

  /** The waits given up because the process that slept in them was killed. */
  ghost function Removed(sems: seq<Sem>, steps: seq<SemStep>): nat
    requires |sems| >= |steps|
  {
    var n := |steps| - 1;
    if steps == [] then 0 else Removed(sems, steps[..n]) + if GivesUp(sems[n], steps[n]) then 1 else 0
  }

  lemma CountsAdd(sems: seq<Sem>, steps: seq<SemStep>, k: nat)
    requires k < |steps| <= |sems|
    ensures Waits(steps[..k + 1]) == Waits(steps[..k]) + if steps[k].DoWait? then 1 else 0
    ensures Posts(steps[..k + 1]) == Posts(steps[..k]) + if steps[k].DoPost? then 1 else 0
    ensures Removed(sems, steps[..k + 1]) == Removed(sems, steps[..k]) + if GivesUp(sems[k], steps[k]) then 1 else 0
  {
    assert steps[..k + 1][..k] == steps[..k];
  }

  ghost predicate WaitersSleep(s: Sem, procs: Procs) {
    forall i :: 0 <= i < |s.queue| ==> Sleeps(procs, s.queue[i].pid)
  }

  /** The waits that are over, all but those of the processes still asleep and of those killed in
      their sleep, never outnumber the initial value and the posts; exactly as many are over while
      the counter is not positive. Between the steps processes may come, go, sleep elsewhere or
      change priority, as long as nobody else wakes a recorded waiter. */
  lemma {:induction false} CompletedWaits(sems: seq<Sem>, views: seq<Procs>, steps: seq<SemStep>, capacity: nat, k: nat)
    requires |sems| == |views| == |steps| + 1 && k <= |steps| && Exact(sems[0], views[0]) && sems[0].value >= 0
    requires forall i :: 0 <= i < |steps| ==> Proper(sems[i], views[i], steps[i], capacity)
    requires forall i :: 0 <= i < |steps| ==> sems[i + 1] == Pair(sems[i], views[i], steps[i], capacity).0
    requires forall i :: 0 <= i <= |steps| ==> WaitersSleep(sems[i], views[i])
    ensures Exact(sems[k], views[k])
    ensures sems[k].value == sems[0].value + Posts(steps[..k]) - Waits(steps[..k]) + Removed(sems, steps[..k])
    ensures Waits(steps[..k]) - Removed(sems, steps[..k]) - |sems[k].queue| <= sems[0].value + Posts(steps[..k])
    ensures sems[k].value <= 0 ==>
              Waits(steps[..k]) - Removed(sems, steps[..k]) - |sems[k].queue| == sems[0].value + Posts(steps[..k])
  {
    if k > 0 {
      var i := k - 1;
      CompletedWaits(sems, views, steps, capacity, i);
      assert sems[i + 1] == Pair(sems[i], views[i], steps[i], capacity).0;
      CountsAdd(sems, steps, i);
      hide Pair, Waits, Posts, Removed, GivesUp, Proper, QueueOk;
      StepCounts(sems[i], views[i], steps[i], capacity);
      assert WaitersSleep(sems[k], views[k]);
    }
  }

  lemma StepCounts(s: Sem, procs: Procs, step: SemStep, capacity: nat)
    requires Exact(s, procs) && Proper(s, procs, step, capacity)
    ensures var (t, ps) := Pair(s, procs, step, capacity);
            Exact(t, ps) && t.value == s.value + (if step.DoPost? then 1 else 0) - (if step.DoWait? then 1 else 0) + (if GivesUp(s, step) then 1 else 0)
  {
    hide Wait, Post, Best, QueueOk;
    match step {
      case DoWait(pid) => ExactWait(s, procs, pid, capacity);
      case DoPost => ExactPost(s, procs);
      case DoRemove(pid) =>
        ExactRemove(s, procs, pid);
        WithoutLength(s.queue, pid);
      case _ =>
    }
  }

  // ---------------------------------------------------------------- credit

  /** Wherever pid is recorded it has this credit. */
  ghost predicate HasCredit(q: seq<Waiter>, pid: int, credit: int) {
    forall i :: 0 <= i < |q| && q[i].pid == pid ==> q[i].credit == credit
  }

  function AtMostFive(n: nat): nat {
    if n <= 5 then n else 5
  }

  lemma CreditAfterPost(s: Sem, procs: Procs, pid: int, n: nat)
    requires SemInv(s) && Recorded(s.queue, pid) && HasCredit(s.queue, pid, AtMostFive(n)) && Recorded(Post(s, procs).0.queue, pid)
    ensures HasCredit(Post(s, procs).0.queue, pid, AtMostFive(n + 1))
    ensures Best(s.queue, procs) >= 0 && s.queue[Best(s.queue, procs)].pid != pid
  {
    if exists i :: 0 <= i < |s.queue| && Sleeps(procs, s.queue[i].pid) {
      PostWakes(s, procs);
      DequeuedOnly(s.queue, Best(s.queue, procs));
      hide Best, Post, Recorded, IsBest;
    } else {
      NobodySleeps(s.queue, procs);
      assert false;
    }
  }

  lemma CreditElsewhere(q: seq<Waiter>, r: seq<Waiter>, pid: int, credit: int)
    requires HasCredit(q, pid, credit) && forall w :: w in r && w.pid == pid ==> w in q
    ensures HasCredit(r, pid, credit)
  {
    forall i | 0 <= i < |r| && r[i].pid == pid ensures r[i].credit == credit { assert r[i] in r && r[i] in q; }
  }

  lemma CreditStep(s: Sem, step: SemStep, procs: Procs, capacity: nat, pid: int, n: nat)
    requires SemInv(s) && Recorded(s.queue, pid) && HasCredit(s.queue, pid, AtMostFive(n)) && step != DoWait(pid)
    requires Recorded(Do(s, step, procs, capacity).queue, pid)
    ensures HasCredit(Do(s, step, procs, capacity).queue, pid, AtMostFive(n + if step.DoPost? then 1 else 0))
    ensures step.DoPost? ==> Best(s.queue, procs) >= 0 && s.queue[Best(s.queue, procs)].pid != pid
  {
    match step {
      case DoWait(p) =>
        WithoutMembers(s.queue, p);
        hide Without;
        CreditElsewhere(s.queue, Do(s, step, procs, capacity).queue, pid, AtMostFive(n));
      case DoPost => CreditAfterPost(s, procs, pid, n);
      case DoPostAll =>
        PostAllResult(s, procs);
        assert false;
      case DoRemove(p) =>
        WithoutMembers(s.queue, p);
        hide Without;
        CreditElsewhere(s.queue, RemovePid(s, p).queue, pid, AtMostFive(n));
    }
  }

  /** On every run, whatever happens to the processes in between, the credit of a recorded waiter is
      the number of posts since it was recorded, up to 5; each of these posts woke somebody else. */
  lemma {:induction false} CreditCountsPosts(sems: seq<Sem>, steps: seq<SemStep>, views: seq<Procs>, capacity: nat, j: nat, k: nat, pid: int)
    requires |sems| == |steps| + 1 && |views| == |steps| && j < k <= |steps| && SemInv(sems[0])
    requires forall i :: 0 <= i < |steps| ==> sems[i + 1] == Do(sems[i], steps[i], views[i], capacity)
    requires steps[j] == DoWait(pid) && forall m :: j < m < k ==> steps[m] != DoWait(pid)
    requires forall m :: j < m <= k ==> Recorded(sems[m].queue, pid)
    ensures HasCredit(sems[k].queue, pid, AtMostFive(Posts(steps[j + 1..k])))
    ensures forall m :: j < m < k && steps[m].DoPost? ==>
              Best(sems[m].queue, views[m]) >= 0 && sems[m].queue[Best(sems[m].queue, views[m])].pid != pid
  {
    var i := k - 1;
    EveryRunKeeps(sems, steps, views, capacity, i);
    assert sems[i + 1] == Do(sems[i], steps[i], views[i], capacity);
    if i == j {
      FirstCredit(sems[i], views[i], pid, capacity);
      assert steps[j + 1..k] == [];
    } else {
      CreditCountsPosts(sems, steps, views, capacity, j, i, pid);
      hide Do, Recorded, Best, HasCredit;
      CreditStep(sems[i], steps[i], views[i], capacity, pid, Posts(steps[j + 1..i]));
      assert steps[j + 1..k][..i - j - 1] == steps[j + 1..i] && steps[j + 1..k][i - j - 1] == steps[i];
    }
  }

  lemma FirstCredit(s: Sem, procs: Procs, pid: int, capacity: nat)
    requires SemInv(s)
    ensures HasCredit(Wait(s, procs, pid, capacity).0.queue, pid, 0)
  {
    WithoutMembers(s.queue, pid);
    hide Without, Recorded;
    var r := Without(s.queue, pid);
    forall i | 0 <= i < |r| ensures r[i].pid != pid { assert r[i] in r; }
  }
}

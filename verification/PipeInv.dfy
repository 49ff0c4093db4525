/** What disciplined runs of the pipe protocol keep: no wake-up is lost. */
module PipeInv {
  import opened SemSpec
  import opened PipeSpec

  /** The descriptors open on one side, as (process, descriptor) pairs. */
  ghost function EndsOf(tasks: map<int, Task>, s: Side): set<(int, int)> {
    set p, f | p in tasks && 0 <= f < |tasks[p].fds| && tasks[p].fds[f] == End(s) :: (p, f)
  }

  /** A process woken on this side that has not run again, or one that was killed in that state
      and has not yet handed the wake-up on. */
  ghost predicate Owed(w: World, s: Side, p: int)
    requires p in w.tasks
  {
    match w.tasks[p].op
    case In(t, waited) => t == s && waited && !Recorded(w.sems.Get(s).queue, p)
    case Dying(owes) => owes.Get(s)
    case Outside => false
  }

  ghost function Pending(w: World, s: Side): set<int> {
    set p | p in w.tasks && Owed(w, s, p)
  }

  // ---------------------------------------------------------------- parts of the invariant

  /** The waiters recorded on a semaphore sleep inside the pipe on its side. */
  ghost predicate Asleep(w: World, s: Side) {
    && Exact(w.sems.Get(s), w.procs)
    && (forall i :: 0 <= i < |w.sems.Get(s).queue| ==>
          w.sems.Get(s).queue[i].pid in w.tasks && w.tasks[w.sems.Get(s).queue[i].pid].op == In(s, true))
  }

  /** While somebody waits on a side, what that side needs is no more than the wake-ups under
      way; and nobody waits when the other side is gone. */
  ghost predicate NoLostWakeUp(w: World, s: Side) {
    && (w.sems.Get(s).queue != [] ==> Room(w, s) <= |Pending(w, s)|)
    && (w.ends.Get(Other(s)) == 0 ==> w.sems.Get(s).queue == [])
  }

  /** The counter of a side is its reservation plus its open descriptors. */
  ghost predicate Accounted(w: World, s: Side) {
    && w.ends.Get(s) == w.reserved.Get(s) + |EndsOf(w.tasks, s)|
    && w.reserved.Get(s) <= 1
    && (EndsOf(w.tasks, s) != {} ==> w.reserved.Get(s) == 0)
  }

  /** First in, first out, within the capacity. */
  ghost predicate Fifo(w: World) {
    w.accepted == w.delivered + w.ring && |w.ring| <= w.capacity && w.capacity > 0
  }

  ghost predicate SideOk(w: World, s: Side) {
    Asleep(w, s) && NoLostWakeUp(w, s) && Accounted(w, s)
  }

  /** A free slot has no descriptors, no ends and no waiters. */
  ghost predicate Free(w: World) {
    && EndsOf(w.tasks, Rd) == {} && EndsOf(w.tasks, Wr) == {} && w.ends == Both(0, 0)
    && w.sems.rd.queue == [] && w.sems.wr.queue == []
  }

  ghost predicate Inv(w: World) {
    && w.tasks.Keys == w.procs.Keys
    && (if w.active then SideOk(w, Rd) && SideOk(w, Wr) && Fifo(w) && w.ends != Both(0, 0) else Free(w))
  }

  // ---------------------------------------------------------------- sets of descriptors and wake-ups

  /** Changing one descriptor of one task. */
  lemma EndsOfSet(tasks: map<int, Task>, p: int, f: nat, e: End, s: Side)
    requires p in tasks && f < |tasks[p].fds|
    ensures var tasks' := tasks[p := tasks[p].(fds := tasks[p].fds[f := e])];
            EndsOf(tasks', s) == if e == End(s) then EndsOf(tasks, s) + {(p, f)} else EndsOf(tasks, s) - {(p, f)}
  {
    var t := tasks[p].(fds := tasks[p].fds[f := e]);
    var tasks' := tasks[p := t];
    forall x: (int, int) ensures x in EndsOf(tasks', s) <==> x in (if e == End(s) then EndsOf(tasks, s) + {(p, f)} else EndsOf(tasks, s) - {(p, f)}) {
      var (q, g) := x;
    }
  }

  /** Changing the operation of a task does not change the descriptors. */
  lemma EndsOfOp(tasks: map<int, Task>, p: int, op: Op, s: Side)
    requires p in tasks
    ensures EndsOf(tasks[p := tasks[p].(op := op)], s) == EndsOf(tasks, s)
  {
  }

  // ---------------------------------------------------------------- the semaphores

  ghost predicate BothAsleep(w: World) {
    w.tasks.Keys == w.procs.Keys && Asleep(w, Rd) && Asleep(w, Wr)
  }

  /** Waking h moves it from the waiters of its side to the pending wake-ups. */
  lemma WakeMoves(w: World, v: World, s: Side, b: nat)
    requires Asleep(w, s) && b < |w.sems.Get(s).queue| && v.tasks == w.tasks
    requires v.sems.Get(s).queue == Dequeue(AgeExcept(w.sems.Get(s).queue, b), b)
    ensures |Pending(v, s)| == |Pending(w, s)| + 1
  {
    var q, h := w.sems.Get(s).queue, w.sems.Get(s).queue[b].pid;
    DequeuedOnly(q, b);
    hide Exact, Dequeue, AgeExcept;
    assert Recorded(q, h);
    hide Recorded;
    forall p | p in w.tasks ensures Owed(v, s, p) <==> Owed(w, s, p) || p == h {}
    assert Pending(v, s) == Pending(w, s) + {h} && h !in Pending(w, s);
  }

  /** The side that was not posted: its waiters still sleep. */
  lemma OtherSideAsleep(w: World, v: World, s: Side, h: int)
    requires Asleep(w, s) && v.tasks == w.tasks && v.procs == WakeUp(w.procs, h) && v.sems.Get(s) == w.sems.Get(s)
    requires h in w.tasks && w.tasks[h].op == In(Other(s), true)
    ensures Asleep(v, s)
  {
    var q := w.sems.Get(s).queue;
    forall i | 0 <= i < |q| ensures Sleeps(v.procs, q[i].pid) { assert q[i].pid != h; }
  }

  lemma SameSideAsleep(w: World, v: World, s: Side, b: nat)
    requires Asleep(w, s) && b < |w.sems.Get(s).queue| && v.tasks == w.tasks
    requires v.sems.Get(s).queue == Dequeue(AgeExcept(w.sems.Get(s).queue, b), b) && Exact(v.sems.Get(s), v.procs)
    ensures Asleep(v, s)
  {
    var q, r := w.sems.Get(s).queue, v.sems.Get(s).queue;
    DequeuedPids(q, b);
    hide Exact, Recorded;
    forall i | 0 <= i < |r| ensures r[i].pid in v.tasks && v.tasks[r[i].pid].op == In(s, true) {
      assert r[i].pid == q[if i < b then i else i + 1].pid;
    }
  }

  /** Pending wake-ups depend on what the tasks do and who is recorded. */
  lemma PendingFrame(w: World, v: World, s: Side)
    requires v.tasks == w.tasks && v.sems.Get(s).queue == w.sems.Get(s).queue
    ensures Pending(v, s) == Pending(w, s)
  {
    forall x | x in v.tasks ensures Owed(v, s, x) <==> Owed(w, s, x) {}
  }

  /** A post on a side: one more wake-up is under way there if anybody slept. */
  lemma PostFacts(w: World, s: Side)
    requires BothAsleep(w)
    ensures var v := PostSide(w, s);
            && v == w.(sems := v.sems, procs := v.procs) && BothAsleep(v)
            && v.sems.Get(Other(s)) == w.sems.Get(Other(s)) && Pending(v, Other(s)) == Pending(w, Other(s))
            && (w.sems.Get(s).queue == [] ==> v.sems.Get(s).queue == [] && Pending(v, s) == Pending(w, s))
            && (w.sems.Get(s).queue != [] ==> |Pending(v, s)| == |Pending(w, s)| + 1)
  {
    hide Exact, Post, Best, Pending;
    var v, x := PostSide(w, s), w.sems.Get(s);
    ExactPost(x, w.procs);
    PendingFrame(w, v, Other(s));
    if x.queue == [] {
      PendingFrame(w, v, s);
    } else {
      var b := Best(x.queue, w.procs);
      WakeMoves(w, v, s, b);
      OtherSideAsleep(w, v, Other(s), x.queue[b].pid);
      SameSideAsleep(w, v, s, b);
      assert v.procs.Keys == w.procs.Keys;
    }
  }

  lemma PostAllFacts(w: World, s: Side)
    requires BothAsleep(w)
    ensures var v := PostAllSide(w, s);
            && v == w.(sems := v.sems, procs := v.procs) && BothAsleep(v)
            && v.sems.Get(Other(s)) == w.sems.Get(Other(s)) && Pending(v, Other(s)) == Pending(w, Other(s))
            && v.sems.Get(s).queue == []
  {
    var v, x := PostAllSide(w, s), w.sems.Get(s);
    ExactPostAll(x, w.procs);
    hide PostAll, Pending;
    PendingFrame(w, v, Other(s));
    AllWokenOther(w, v, Other(s));
  }

  lemma AllWokenOther(w: World, v: World, s: Side)
    requires BothAsleep(w) && v.tasks == w.tasks && v.sems.Get(s) == w.sems.Get(s)
    requires Woken(w.sems.Get(Other(s)).queue, w.procs, v.procs)
    ensures Asleep(v, s)
  {
    var q, r := w.sems.Get(s).queue, w.sems.Get(Other(s)).queue;
    forall i | 0 <= i < |q| ensures Sleeps(v.procs, q[i].pid) { assert !Recorded(r, q[i].pid); }
  }

  // ---------------------------------------------------------------- falling asleep

  lemma {:induction false} ExactSleepOn(x: Sem, procs: Procs, p: int, slots: nat)
    requires Exact(x, procs) && p in procs && !procs[p].blocked && |x.queue| < slots
    ensures var (t, ps, outcome) := SleepOn(x, procs, p, slots);
            outcome == Slept && Exact(t, ps) && t.queue == x.queue + [Waiter(p, 0)] && ps == PutToSleep(procs, p)
    decreases Max0(x.value)
  {
    ExactWait(x, procs, p, slots);
    if x.value >= 1 {
      ExactSleepOn(Sem(x.value - 1, []), procs, p, slots);
    }
  }

  /** The waiting array has a place for every process that can still fall asleep. */
  lemma RoomToSleep(w: World, s: Side, p: int)
    requires Asleep(w, s) && p in w.tasks && !Sleeps(w.procs, p)
    ensures |w.sems.Get(s).queue| < |w.tasks|
  {
    var q := w.sems.Get(s).queue;
    var pids := FirstPids(q, |q|);
    DistinctPids(q, |q|);
    assert pids <= w.tasks.Keys - {p};
    Subset(pids, w.tasks.Keys - {p});
    assert |w.tasks.Keys - {p}| == |w.tasks.Keys| - 1;
  }

  ghost function FirstPids(q: seq<Waiter>, n: nat): set<int>
    requires n <= |q|
  {
    set i | 0 <= i < n :: q[i].pid
  }

  lemma {:induction false} DistinctPids(q: seq<Waiter>, n: nat)
    requires QueueOk(q) && n <= |q|
    ensures |FirstPids(q, n)| == n
  {
    if n > 0 {
      DistinctPids(q, n - 1);
      var below := FirstPids(q, n - 1);
      assert FirstPids(q, n) == below + {q[n - 1].pid};
      assert q[n - 1].pid !in below;
    }
  }

  lemma {:induction false} Subset(a: set<int>, b: set<int>)
    requires a <= b
    ensures |a| <= |b|
  {
    assert b == a + (b - a) && |b| == |a| + |b - a|;
  }

  lemma SleepSame(w: World, v: World, s: Side, p: int)
    requires Asleep(w, s) && p in w.tasks
    requires v.tasks == w.tasks[p := w.tasks[p].(op := In(s, true))]
    requires v.sems.Get(s).queue == w.sems.Get(s).queue + [Waiter(p, 0)] && Exact(v.sems.Get(s), v.procs)
    ensures Asleep(v, s)
  {
    hide Exact;
  }

  lemma SleepOther(w: World, v: World, s: Side, p: int)
    requires Asleep(w, s) && p in w.tasks && p in w.procs && !Sleeps(w.procs, p)
    requires w.tasks[p].op.In? && w.tasks[p].op.side == Other(s)
    requires v.tasks == w.tasks[p := w.tasks[p].(op := In(Other(s), true))] && v.procs == PutToSleep(w.procs, p)
    requires v.sems.Get(s) == w.sems.Get(s)
    ensures Asleep(v, s) && Pending(v, s) == Pending(w, s)
  {
    var q := w.sems.Get(s).queue;
    forall i | 0 <= i < |q| ensures Sleeps(v.procs, q[i].pid) && q[i].pid != p { assert Sleeps(w.procs, q[i].pid); }
    forall x | x in w.tasks ensures Owed(v, s, x) <==> Owed(w, s, x) {}
  }

  // ---------------------------------------------------------------- rounds of reading and writing

  /** A process that does not sleep changes what it is doing. */
  lemma OpAsleep(w: World, p: int, op: Op, s: Side)
    requires Asleep(w, s) && p in w.tasks && !Sleeps(w.procs, p) && !(op.In? && op.waited)
    ensures Asleep(SetOp(w, p, op), s)
  {
    var q := w.sems.Get(s).queue;
    forall i | 0 <= i < |q| ensures q[i].pid != p { assert Sleeps(w.procs, q[i].pid); }
    hide Exact;
  }

  lemma OpPending(w: World, p: int, op: Op, s: Side)
    requires p in w.tasks && !(op.In? && op.waited)
    ensures var v := SetOp(w, p, op);
            && Pending(v, s) == Pending(w, s) - {p} + (if op.Dying? && op.owes.Get(s) then {p} else {})
            && |Pending(v, s)| >= |Pending(w, s)| - 1
  {
    var v := SetOp(w, p, op);
    var expected := Pending(w, s) - {p} + (if op.Dying? && op.owes.Get(s) then {p} else {});
    forall x ensures x in Pending(v, s) <==> x in expected { OwedAfterOp(w, p, op, s, x); }
    hide Pending;
    LoseOne(Pending(w, s), Pending(v, s), p);
  }

  lemma OwedAfterOp(w: World, p: int, op: Op, s: Side, x: int)
    requires p in w.tasks && !(op.In? && op.waited)
    ensures x in w.tasks && x != p ==> (Owed(SetOp(w, p, op), s, x) <==> Owed(w, s, x))
    ensures Owed(SetOp(w, p, op), s, p) <==> op.Dying? && op.owes.Get(s)
  {
  }

  lemma LoseOne(a: set<int>, b: set<int>, p: int)
    requires a - {p} <= b
    ensures |b| >= |a| - 1
  {
    Subset(a - {p}, b);
    assert p in a ==> a == (a - {p}) + {p};
    assert p !in a ==> a == a - {p};
  }

  lemma TwoSides(w: World, s: Side)
    requires SideOk(w, s) && SideOk(w, Other(s))
    ensures SideOk(w, Rd) && SideOk(w, Wr)
  {
  }

  /** p has fallen asleep on side s. */
  ghost predicate FellAsleep(w: World, v: World, p: int, s: Side) {
    && p in w.tasks && p in w.procs && w.tasks[p].op.In? && w.tasks[p].op.side == s && !Sleeps(w.procs, p)
    && v == SetOp(w.(sems := v.sems, procs := PutToSleep(w.procs, p)), p, In(s, true))
    && v.sems.Get(Other(s)) == w.sems.Get(Other(s))
    && v.sems.Get(s).queue == w.sems.Get(s).queue + [Waiter(p, 0)] && Exact(v.sems.Get(s), v.procs)
  }

  lemma SleepSideSame(w: World, v: World, p: int, s: Side)
    requires SideOk(w, s) && FellAsleep(w, v, p, s) && w.ends.Get(Other(s)) > 0 && Room(w, s) <= 0
    ensures SideOk(v, s)
  {
    SleepSame(w, v, s, p);
    hide Exact, Asleep, EndsOf, Pending;
    EndsOfOp(w.tasks, p, In(s, true), s);
  }

  lemma SleepSideOther(w: World, v: World, p: int, s: Side)
    requires SideOk(w, Other(s)) && FellAsleep(w, v, p, s)
    ensures SideOk(v, Other(s))
  {
    hide Exact, Asleep, EndsOf, Pending;
    SleepOther(w, v, Other(s), p);
    EndsOfOp(w.tasks, p, In(s, true), Other(s));
  }

  /** What the invariant says of an open pipe, side by side. */
  lemma InvSides(w: World, s: Side)
    requires Inv(w) && w.active
    ensures SideOk(w, s) && SideOk(w, Other(s)) && Fifo(w) && w.tasks.Keys == w.procs.Keys && w.ends != Both(0, 0)
  {
    hide SideOk, Fifo;
  }

  lemma SidesInv(w: World, s: Side)
    requires w.active && SideOk(w, s) && SideOk(w, Other(s)) && Fifo(w) && w.tasks.Keys == w.procs.Keys && w.ends != Both(0, 0)
    ensures Inv(w)
  {
    hide SideOk, Fifo;
  }

  lemma AsleepExact(w: World, s: Side)
    requires SideOk(w, s)
    ensures Asleep(w, s) && Exact(w.sems.Get(s), w.procs)
  {
    hide Exact;
  }

  ghost function Sleeping(w: World, p: int, slots: nat): World
    requires p in w.tasks && w.tasks[p].op.In?
  {
    var s := w.tasks[p].op.side;
    var (t, ps, _) := SleepOn(w.sems.Get(s), w.procs, p, slots);
    SetOp(w.(sems := w.sems.Put(s, t), procs := ps), p, In(s, true))
  }

  lemma SleepRound(w: World, p: int, slots: nat, s: Side)
    requires Asleep(w, s) && Exact(w.sems.Get(s), w.procs) && p in w.tasks && p in w.procs && |w.tasks| <= slots
    requires w.tasks[p].op.In? && w.tasks[p].op.side == s && !Sleeps(w.procs, p) && w.ends.Get(Other(s)) > 0 && Room(w, s) <= 0
    ensures FellAsleep(w, Sleeping(w, p, slots), p, s)
    ensures forall b, more :: Round(w, p, b, more, slots) == Sleeping(w, p, slots)
  {
    hide Exact, SleepOn, Asleep;
    RoomToSleep(w, s, p);
    ExactSleepOn(w.sems.Get(s), w.procs, p, slots);
  }

  lemma SleepKeeps(w: World, p: int, slots: nat)
    requires Inv(w) && w.active && p in w.tasks && w.tasks[p].op.In? && !Sleeps(w.procs, p) && |w.tasks| <= slots
    requires var s := w.tasks[p].op.side; w.ends.Get(Other(s)) > 0 && Room(w, s) <= 0
    ensures forall b, more :: Inv(Round(w, p, b, more, slots))
  {
    hide Inv, Exact, SideOk, Asleep, Round;
    var s, v := w.tasks[p].op.side, Sleeping(w, p, slots);
    InvSides(w, s);
    AsleepExact(w, s);
    assert p in w.procs.Keys;
    SleepRound(w, p, slots, s);
    hide Sleeping;
    SleepSideSame(w, v, p, s);
    SleepSideOther(w, v, p, s);
    SidesInv(v, s);
  }

  /** One side after a process stops or restarts a round, possibly using up its wake-up. */
  lemma OpSide(w: World, v: World, p: int, op: Op, s: Side)
    requires SideOk(w, s) && p in w.tasks && !Sleeps(w.procs, p) && v == SetOp(w, p, op)
    requires op == Outside || (op.In? && !op.waited)
    requires w.sems.Get(s).queue == [] || Room(w, s) <= 0 || p !in Pending(w, s)
    ensures SideOk(v, s)
  {
    hide Asleep, Pending, EndsOf;
    OpAsleep(w, p, op, s);
    OpPending(w, p, op, s);
    EndsOfOp(w.tasks, p, op, s);
    if p !in Pending(w, s) { assert Pending(w, s) - {p} + {} == Pending(w, s); }
  }

  lemma LeaveKeeps(w: World, p: int)
    requires Inv(w) && w.active && p in w.tasks && w.tasks[p].op.In? && !Sleeps(w.procs, p)
    requires var s := w.tasks[p].op.side; Room(w, s) <= 0 || w.ends.Get(Other(s)) == 0
    ensures Inv(SetOp(w, p, Outside))
  {
    var s := w.tasks[p].op.side;
    var v := SetOp(w, p, Outside);
    assert p !in Pending(w, Other(s));
    assert Room(w, s) <= 0 || w.sems.Get(s).queue == [];
    hide Asleep, NoLostWakeUp, Accounted, Pending;
    OpSide(w, v, p, Outside, s);
    OpSide(w, v, p, Outside, Other(s));
    TwoSides(v, s);
  }

  /** Like SideOk, but one wake-up on this side has still to be given. */
  ghost predicate OneShort(w: World, s: Side) {
    && Asleep(w, s) && Accounted(w, s)
    && (w.sems.Get(s).queue != [] ==> Room(w, s) <= |Pending(w, s)| + 1)
    && (w.ends.Get(Other(s)) == 0 ==> w.sems.Get(s).queue == [])
  }

  /** A post gives the missing wake-up. */
  lemma PostRepairs(w: World, s: Side)
    requires w.tasks.Keys == w.procs.Keys && OneShort(w, s) && SideOk(w, Other(s))
    ensures var v := PostSide(w, s);
            v.tasks.Keys == v.procs.Keys && SideOk(v, s) && SideOk(v, Other(s)) && v == w.(sems := v.sems, procs := v.procs)
  {
    hide Asleep, Accounted, Pending, Post;
    PostFacts(w, s);
    var v := PostSide(w, s);
    AccountedFrame(w, v, s);
    AccountedFrame(w, v, Other(s));
  }

  lemma AccountedFrame(w: World, v: World, s: Side)
    requires Accounted(w, s) && v.ends.Get(s) == w.ends.Get(s) && v.reserved.Get(s) == w.reserved.Get(s) && v.tasks == w.tasks
    ensures Accounted(v, s)
  {
  }

  /** A byte has moved and p has finished its round: the two sides before the post. */
  ghost predicate Moved(w: World, u: World, p: int, op: Op)
    requires p in w.tasks
  {
    && u == SetOp(w, p, op).(ring := u.ring, accepted := u.accepted, delivered := u.delivered)
    && (op == Outside || (op.In? && !op.waited))
  }

  lemma MovedAsleep(w: World, u: World, p: int, op: Op, s: Side)
    requires p in w.tasks && Asleep(w, s) && !Sleeps(w.procs, p) && Moved(w, u, p, op)
    ensures Asleep(u, s) && Pending(u, s) == Pending(w, s) - {p} && |Pending(u, s)| >= |Pending(w, s)| - 1
  {
    OpAsleep(w, p, op, s);
    OpPending(w, p, op, s);
    hide Pending;
    PendingFrame(SetOp(w, p, op), u, s);
  }

  lemma MovedRest(w: World, u: World, p: int, op: Op, s: Side)
    requires p in w.tasks && Accounted(w, s) && Moved(w, u, p, op)
    ensures Accounted(u, s)
  {
    EndsOfOp(w.tasks, p, op, s);
  }

  lemma MoveUsesWakeUp(w: World, u: World, p: int, op: Op, s: Side)
    requires p in w.tasks && SideOk(w, s) && !Sleeps(w.procs, p) && Moved(w, u, p, op) && Room(u, s) == Room(w, s) - 1
    ensures SideOk(u, s)
  {
    hide Asleep, Accounted;
    MovedAsleep(w, u, p, op, s);
    MovedRest(w, u, p, op, s);
  }

  lemma MoveNeedsPost(w: World, u: World, p: int, op: Op, s: Side)
    requires p in w.tasks && SideOk(w, s) && !Sleeps(w.procs, p) && Moved(w, u, p, op) && Room(u, s) == Room(w, s) + 1
    requires p !in Pending(w, s)
    ensures OneShort(u, s)
  {
    hide Asleep, Accounted;
    MovedAsleep(w, u, p, op, s);
    MovedRest(w, u, p, op, s);
    assert Pending(w, s) - {p} == Pending(w, s);
  }

  /** A round that moves a byte, seen as the move followed by the post to the other side. */
  ghost function AfterMove(w: World, p: int, b: Byte, more: bool): World
    requires p in w.tasks && w.tasks[p].op.In? && (w.tasks[p].op.side == Rd ==> w.ring != [])
  {
    var s := w.tasks[p].op.side;
    SetOp(if s == Rd then w.(ring := w.ring[1..], delivered := w.delivered + [w.ring[0]])
          else w.(ring := w.ring + [b], accepted := w.accepted + [b]), p, if more then In(s, false) else Outside)
  }

  lemma RoundMoves(w: World, p: int, b: Byte, more: bool, slots: nat)
    requires p in w.tasks && w.tasks[p].op.In? && Room(w, w.tasks[p].op.side) > 0
    requires w.tasks[p].op.side == Wr ==> w.ends.rd > 0
    ensures Round(w, p, b, more, slots) == PostSide(AfterMove(w, p, b, more), Other(w.tasks[p].op.side))
  {
    hide Post;
  }

  lemma AfterMoveFacts(w: World, p: int, b: Byte, more: bool)
    requires p in w.tasks && w.tasks[p].op.In? && Room(w, w.tasks[p].op.side) > 0 && Fifo(w)
    ensures var s, u := w.tasks[p].op.side, AfterMove(w, p, b, more);
            && Moved(w, u, p, if more then In(s, false) else Outside) && Fifo(u)
            && Room(u, s) == Room(w, s) - 1 && Room(u, Other(s)) == Room(w, Other(s)) + 1 && u.tasks.Keys == w.tasks.Keys
  {
  }

  lemma MoveKeeps(w: World, p: int, b: Byte, more: bool, slots: nat)
    requires Inv(w) && w.active && p in w.tasks && w.tasks[p].op.In? && !Sleeps(w.procs, p)
    requires var s := w.tasks[p].op.side;
             Room(w, s) > 0 && (s == Wr ==> w.ends.rd > 0)
    ensures Inv(Round(w, p, b, more, slots))
  {
    var s := w.tasks[p].op.side;
    var op, u := if more then In(s, false) else Outside, AfterMove(w, p, b, more);
    assert SideOk(w, s) && SideOk(w, Other(s));
    assert p !in Pending(w, Other(s));
    hide SideOk, OneShort, Moved, Pending, AfterMove, Round, PostSide;
    AfterMoveFacts(w, p, b, more);
    MoveUsesWakeUp(w, u, p, op, s);
    MoveNeedsPost(w, u, p, op, Other(s));
    MovedFrame(w, u, p, op);
    assert Other(Other(s)) == s;
    PostRepairs(u, Other(s));
    RoundMoves(w, p, b, more, slots);
    TwoSides(PostSide(u, Other(s)), s);
  }

  lemma MovedFrame(w: World, u: World, p: int, op: Op)
    requires p in w.tasks && Moved(w, u, p, op)
    ensures u.procs == w.procs && u.active == w.active && u.ends == w.ends
  {
  }

  /** A process that is still inside when the slot has been freed wakes nobody and leaves. */
  lemma TurnFree(w: World, p: int, b: Byte, more: bool, slots: nat)
    requires w.tasks.Keys == w.procs.Keys && Free(w) && !w.active && p in w.tasks && w.tasks[p].op.In?
    ensures Inv(Round(w, p, b, more, slots))
  {
    EndsOfOp(w.tasks, p, Round(w, p, b, more, slots).tasks[p].op, Rd);
    EndsOfOp(w.tasks, p, Round(w, p, b, more, slots).tasks[p].op, Wr);
    hide EndsOf;
  }

  lemma TurnKeeps(w: World, p: int, b: Byte, more: bool, slots: nat)
    requires Inv(w) && p in w.tasks && w.tasks[p].op.In? && !Sleeps(w.procs, p) && |w.tasks| <= slots
    ensures Inv(Round(w, p, b, more, slots))
  {
    hide SideOk, SleepOn, PostSide, Free;
    var s := w.tasks[p].op.side;
    if !w.active {
      TurnFree(w, p, b, more, slots);
    } else if w.ends.Get(Other(s)) > 0 && Room(w, s) <= 0 {
      SleepKeeps(w, p, slots);
    } else if (if s == Rd then w.ring == [] else w.ends.rd == 0) {
      LeaveKeeps(w, p);
    } else {
      MoveKeeps(w, p, b, more, slots);
    }
  }

  // ---------------------------------------------------------------- closing an end

  /** One end of side s has left the descriptor tables or reservations but is still counted. If
      `short`, the wake-up its owner had consumed has still to be handed on. */
  ghost predicate Dropped(w: World, s: Side, short: bool) {
    && Asleep(w, s) && w.reserved.Get(s) <= 1 && w.ends.Get(s) == |EndsOf(w.tasks, s)| + 1
    && (w.sems.Get(s).queue != [] ==> Room(w, s) <= |Pending(w, s)| + if short then 1 else 0)
    && (w.ends.Get(Other(s)) == 0 ==> w.sems.Get(s).queue == [])
  }

  lemma UncountAsleep(w: World, v: World, s: Side)
    requires Asleep(w, s) && v == w.(ends := v.ends, reserved := v.reserved)
    ensures Asleep(v, s)
  {
    hide Exact;
  }

  lemma UncountSame(w: World, s: Side, short: bool)
    requires Dropped(w, s, short)
    ensures var v := Uncount(w, s);
            && Asleep(v, s) && Accounted(v, s) && (v.ends.Get(Other(s)) == 0 ==> v.sems.Get(s).queue == [])
            && (v.sems.Get(s).queue != [] ==> Room(v, s) <= |Pending(v, s)| + if short then 1 else 0)
            && v.ends.Get(s) == |EndsOf(w.tasks, s)|
  {
    hide Asleep, EndsOf, Pending;
    PendingFrame(w, Uncount(w, s), s);
    UncountAsleep(w, Uncount(w, s), s);
  }

  lemma UncountOther(w: World, s: Side)
    requires SideOk(w, Other(s))
    ensures var v := Uncount(w, s);
            && Asleep(v, Other(s)) && Accounted(v, Other(s)) && (v.ends.Get(s) > 0 ==> SideOk(v, Other(s)))
  {
    hide Asleep, EndsOf, Pending;
    PendingFrame(w, Uncount(w, s), Other(s));
    UncountAsleep(w, Uncount(w, s), Other(s));
  }

  /** The last end of a side goes: the other side is woken; a wake-up owed here is not handed on. */
  lemma CloseLast(w: World, s: Side)
    requires w.active && w.tasks.Keys == w.procs.Keys && Dropped(w, s, false) && SideOk(w, Other(s)) && Fifo(w)
    requires Uncount(w, s).ends.Get(s) == 0
    ensures Inv(Close(w, s))
  {
    hide Asleep, Accounted, Pending, PostAll;
    var a, o := Uncount(w, s), Other(s);
    UncountSame(w, s, false);
    UncountOther(w, s);
    assert BothAsleep(a) by { assert s == Rd || s == Wr; }
    PostAllFacts(a, o);
    var b := PostAllSide(a, o);
    AccountedFrame(a, b, s);
    AccountedFrame(a, b, o);
    assert BothAsleep(b);
    assert SideOk(b, s) && SideOk(b, o);
    TwoSides(b, s);
    if b.ends == Both(0, 0) { NobodyLeft(b); }
  }

  /** A pipe whose two counters are zero has neither ends nor waiters. */
  lemma NobodyLeft(w: World)
    requires SideOk(w, Rd) && SideOk(w, Wr) && w.ends == Both(0, 0)
    ensures Free(w)
  {
  }

  lemma CloseNotLast(w: World, s: Side)
    requires w.active && w.tasks.Keys == w.procs.Keys && Dropped(w, s, true) && SideOk(w, Other(s)) && Fifo(w)
    requires Uncount(w, s).ends.Get(s) > 0
    ensures Inv(Close(w, s))
  {
    hide Asleep, Accounted, Pending, Post, Dropped;
    var a := Uncount(w, s);
    UncountSame(w, s, true);
    UncountOther(w, s);
    if Room(a, s) > 0 {
      PostRepairs(a, s);
      TwoSides(PostSide(a, s), s);
    } else {
      assert SideOk(a, s);
      TwoSides(a, s);
    }
  }

  /** pipe_close keeps the invariant, a wake-up owed by the owner of the end included unless it is
      the last one of its side; the slot is freed exactly when no end is left. */
  lemma CloseKeeps(w: World, s: Side, short: bool)
    requires w.active && w.tasks.Keys == w.procs.Keys && Dropped(w, s, short) && SideOk(w, Other(s)) && Fifo(w)
    requires short ==> w.ends.Get(s) > 1
    ensures Inv(Close(w, s))
  {
    assert !short ==> Dropped(w, s, true);
    hide Dropped, SideOk, Close, Fifo, Inv;
    if Uncount(w, s).ends.Get(s) == 0 { CloseLast(w, s); } else { CloseNotLast(w, s); }
  }

  // ---------------------------------------------------------------- the remaining steps

  lemma OpenKeeps(w: World, capacity: nat, slots: nat)
    requires Inv(w) && Enabled(w, Open(capacity))
    ensures Inv(Advance(w, Open(capacity), slots))
  {
    var v := Advance(w, Open(capacity), slots);
    assert SideOk(v, Rd) && SideOk(v, Wr);
  }

  /** Dropping a reserved end: nobody has claimed it, so no descriptor changes. */
  lemma DropKeeps(w: World, s: Side)
    requires Inv(w) && w.active && w.reserved.Get(s) > 0
    ensures Inv(Close(w, s))
  {
    InvSides(w, s);
    assert Dropped(w, s, false) by { hide EndsOf, Pending, Exact; }
    hide Dropped, SideOk, Close, Fifo;
    CloseKeeps(w, s, false);
  }

  lemma BeginSide(w: World, v: World, p: int, op: Op, s: Side)
    requires SideOk(w, s) && p in w.tasks && w.tasks[p].op == Outside && !Sleeps(w.procs, p)
    requires op.In? && !op.waited && v == SetOp(w, p, op)
    ensures SideOk(v, s)
  {
    assert p !in Pending(w, s);
    hide SideOk;
    OpSide(w, v, p, op, s);
  }

  lemma BeginKeeps(w: World, p: int, f: nat, slots: nat)
    requires Inv(w) && Enabled(w, Begin(p, f))
    ensures Inv(Advance(w, Begin(p, f), slots))
  {
    var s := w.tasks[p].fds[f].side;
    assert (p, f) in EndsOf(w.tasks, s);
    assert s == Rd || s == Wr;
    assert w.active;
    var v := SetOp(w, p, In(s, false));
    hide SideOk;
    BeginSide(w, v, p, In(s, false), Rd);
    BeginSide(w, v, p, In(s, false), Wr);
  }

  /** A change of the scheduler's view that wakes no waiter. */
  lemma ViewSide(w: World, v: World, s: Side)
    requires SideOk(w, s) && v == w.(procs := v.procs)
    requires forall i :: 0 <= i < |w.sems.Get(s).queue| ==> Sleeps(v.procs, w.sems.Get(s).queue[i].pid)
    ensures SideOk(v, s)
  {
    PendingFrame(w, v, s);
    hide Pending, EndsOf;
  }

  lemma ViewKeeps(w: World, p: int, view: View)
    requires Inv(w) && p in w.tasks && (Waiting(w, p) ==> view.blocked)
    ensures Inv(w.(procs := w.procs[p := view]))
  {
    var v := w.(procs := w.procs[p := view]);
    assert v.procs.Keys == w.procs.Keys;
    if w.active {
      StillAsleep(w, p, view, Rd);
      StillAsleep(w, p, view, Wr);
      hide SideOk;
      ViewSide(w, v, Rd);
      ViewSide(w, v, Wr);
    }
  }

  lemma StillAsleep(w: World, p: int, view: View, s: Side)
    requires SideOk(w, s) && (Waiting(w, p) ==> view.blocked)
    ensures forall i :: 0 <= i < |w.sems.Get(s).queue| ==> Sleeps(w.procs[p := view], w.sems.Get(s).queue[i].pid)
  {
    var q := w.sems.Get(s).queue;
    forall i | 0 <= i < |q| ensures Sleeps(w.procs[p := view], q[i].pid) {
      assert q[i].pid == p ==> Recorded(q, p);
      assert Sleeps(w.procs, q[i].pid);
    }
  }

  lemma SpawnAsleep(w: World, v: World, p: int, t: Task, view: View, s: Side)
    requires Asleep(w, s) && p !in w.tasks && t.op == Outside
    requires v == w.(tasks := w.tasks[p := t], procs := w.procs[p := view])
    ensures Asleep(v, s)
  {
    var q := w.sems.Get(s).queue;
    forall i | 0 <= i < |q| ensures Sleeps(v.procs, q[i].pid) { assert Sleeps(w.procs, q[i].pid) && q[i].pid != p; }
  }

  lemma SpawnSide(w: World, v: World, p: int, t: Task, view: View, s: Side)
    requires SideOk(w, s) && p !in w.tasks && p !in w.procs
    requires t.op == Outside && (forall f :: 0 <= f < |t.fds| ==> t.fds[f] == NoEnd)
    requires v == w.(tasks := w.tasks[p := t], procs := w.procs[p := view])
    ensures SideOk(v, s)
  {
    hide Asleep;
    SpawnAsleep(w, v, p, t, view, s);
    assert EndsOf(v.tasks, s) == EndsOf(w.tasks, s);
    forall x | x in w.tasks ensures Owed(v, s, x) <==> Owed(w, s, x) {}
    assert Pending(v, s) == Pending(w, s);
    hide Pending, EndsOf, Owed;
  }

  lemma SpawnKeeps(w: World, p: int, nfds: nat, prio: nat, slots: nat)
    requires Inv(w) && Enabled(w, Spawn(p, nfds, prio))
    ensures Inv(Advance(w, Spawn(p, nfds, prio), slots))
  {
    var t, view := Task(seq(nfds, _ => NoEnd), Outside), View(false, prio);
    var v := w.(tasks := w.tasks[p := t], procs := w.procs[p := view]);
    assert v.tasks.Keys == w.tasks.Keys + {p} && v.procs.Keys == w.procs.Keys + {p};
    if w.active {
      hide SideOk;
      SpawnSide(w, v, p, t, view, Rd);
      SpawnSide(w, v, p, t, view, Wr);
    } else {
      assert EndsOf(v.tasks, Rd) == EndsOf(w.tasks, Rd) && EndsOf(v.tasks, Wr) == EndsOf(w.tasks, Wr);
    }
  }

  // ---------------------------------------------------------------- descriptors

  /** Descriptors do not matter to who sleeps and who is owed a wake-up. */
  lemma FdAsleep(w: World, v: World, s: Side)
    requires v.tasks.Keys == w.tasks.Keys && (forall p :: p in w.tasks ==> v.tasks[p].op == w.tasks[p].op)
    requires v.procs == w.procs && v.sems == w.sems
    ensures Pending(v, s) == Pending(w, s)
    ensures Asleep(w, s) ==> Asleep(v, s)
  {
    forall x | x in w.tasks ensures Owed(v, s, x) <==> Owed(w, s, x) {}
    hide Exact;
  }

  /** set_fd claims or adds an end and stores it in a descriptor. */
  lemma AttachedAccounted(w: World, p: int, f: nat, s: Side)
    requires Accounted(w, s) && p in w.tasks && f < |w.tasks[p].fds| && w.tasks[p].fds[f] != End(s)
    ensures Accounted(SetEnd(Attach(w, s), p, f, End(s)), s)
  {
    EndsOfSet(w.tasks, p, f, End(s), s);
    assert (p, f) !in EndsOf(w.tasks, s);
  }

  lemma DetachedAccounted(w: World, p: int, f: nat, e: End, s: Side)
    requires Accounted(w, s) && p in w.tasks && f < |w.tasks[p].fds| && w.tasks[p].fds[f] == End(s)
    ensures w.reserved.Get(s) == 0
    ensures e != End(s) ==> w.ends.Get(s) == |EndsOf(SetEnd(w, p, f, e).tasks, s)| + 1
    ensures e == End(s) ==> EndsOf(SetEnd(w, p, f, e).tasks, s) == EndsOf(w.tasks, s)
  {
    EndsOfSet(w.tasks, p, f, e, s);
    assert (p, f) in EndsOf(w.tasks, s);
    assert EndsOf(w.tasks, s) == (EndsOf(w.tasks, s) - {(p, f)}) + {(p, f)};
  }

  lemma UntouchedEnds(w: World, p: int, f: nat, e: End, s: Side)
    requires p in w.tasks && f < |w.tasks[p].fds| && w.tasks[p].fds[f] != End(s) && e != End(s)
    ensures EndsOf(SetEnd(w, p, f, e).tasks, s) == EndsOf(w.tasks, s)
  {
    EndsOfSet(w.tasks, p, f, e, s);
    assert (p, f) !in EndsOf(w.tasks, s);
  }

  /** The side that set_fd attaches to, when the descriptor did not refer to it before. */
  lemma SetFdAttached(w: World, p: int, f: nat, s: Side)
    requires SideOk(w, s) && p in w.tasks && f < |w.tasks[p].fds| && w.tasks[p].fds[f] != End(s)
    ensures SideOk(SetEnd(Attach(w, s), p, f, End(s)), s)
  {
    hide Asleep, Accounted, Pending, EndsOf;
    var b := SetEnd(Attach(w, s), p, f, End(s));
    AttachedAccounted(w, p, f, s);
    FdAsleep(w, b, s);
  }

  /** The other side, when the descriptor did not refer to it. */
  lemma SetFdOther(w: World, p: int, f: nat, s: Side)
    requires SideOk(w, Other(s)) && p in w.tasks && f < |w.tasks[p].fds| && w.tasks[p].fds[f] != End(Other(s))
    requires w.ends.Get(s) == 0 ==> w.reserved.Get(s) == 0
    ensures SideOk(SetEnd(Attach(w, s), p, f, End(s)), Other(s))
  {
    hide Asleep, Pending, EndsOf;
    var b, o := SetEnd(Attach(w, s), p, f, End(s)), Other(s);
    UntouchedEnds(w, p, f, End(s), o);
    FdAsleep(w, b, o);
  }

  /** The side whose descriptor set_fd replaces has one end too many counted. */
  lemma SetFdReplaced(w: World, p: int, f: nat, s: Side, t: Side)
    requires SideOk(w, t) && p in w.tasks && f < |w.tasks[p].fds| && w.tasks[p].fds[f] == End(t)
    requires w.ends.Get(s) == 0 ==> w.reserved.Get(s) == 0
    ensures Dropped(SetEnd(Attach(w, s), p, f, End(s)), t, false)
  {
    hide Asleep, Pending, EndsOf;
    var b := SetEnd(Attach(w, s), p, f, End(s));
    DetachedAccounted(w, p, f, End(s), t);
    FdAsleep(w, b, t);
    assert b.tasks == SetEnd(w, p, f, End(s)).tasks;
  }

  lemma CloseIgnoresFds(w: World, p: int, f: nat, e: End, s: Side)
    requires p in w.tasks && f < |w.tasks[p].fds|
    ensures Close(SetEnd(w, p, f, e), s) == SetEnd(Close(w, s), p, f, e)
  {
    hide Post, PostAll;
  }

  lemma SetFdKeeps(w: World, p: int, f: nat, s: Side, slots: nat)
    requires Inv(w) && Enabled(w, SetFd(p, f, s))
    ensures Inv(Advance(w, SetFd(p, f, s), slots))
  {
    hide Inv, SideOk, Dropped, Close, EndsOf;
    var prior := w.tasks[p].fds[f];
    var b := SetEnd(Attach(w, s), p, f, End(s));
    InvSides(w, s);
    CountedEnds(w, s);
    hide Attach;
    if prior != End(Other(s)) { SetFdOther(w, p, f, s); }
    if prior != End(s) { SetFdAttached(w, p, f, s); }
    AttachFrame(w, s);
    if prior == NoEnd {
      SidesInv(b, s);
    } else {
      SetFdReplaced(w, p, f, s, prior.side);
      CloseKeeps(b, prior.side, false);
      CloseIgnoresFds(Attach(w, s), p, f, End(s), prior.side);
    }
  }

  lemma AttachFrame(w: World, s: Side)
    requires Fifo(w)
    ensures var a := Attach(w, s);
            a == w.(ends := a.ends, reserved := a.reserved) && Fifo(a) && (a.ends.Get(s) > 0 ==> a.ends != Both(0, 0))
  {
  }

  lemma RedirectDropped(w: World, p: int, f: nat, s: Side)
    requires SideOk(w, s) && p in w.tasks && f < |w.tasks[p].fds| && w.tasks[p].fds[f] == End(s)
    ensures Dropped(SetEnd(w, p, f, NoEnd), s, false)
  {
    hide Asleep, Pending, EndsOf;
    DetachedAccounted(w, p, f, NoEnd, s);
    FdAsleep(w, SetEnd(w, p, f, NoEnd), s);
  }

  lemma RedirectOther(w: World, p: int, f: nat, s: Side)
    requires SideOk(w, Other(s)) && p in w.tasks && f < |w.tasks[p].fds| && w.tasks[p].fds[f] == End(s)
    ensures SideOk(SetEnd(w, p, f, NoEnd), Other(s))
  {
    hide Asleep, Pending, EndsOf;
    UntouchedEnds(w, p, f, NoEnd, Other(s));
    FdAsleep(w, SetEnd(w, p, f, NoEnd), Other(s));
  }

  /** An open descriptor means an open slot. */
  lemma DescriptorOpen(w: World, p: int, f: nat)
    requires Inv(w) && p in w.tasks && f < |w.tasks[p].fds| && w.tasks[p].fds[f] != NoEnd
    ensures w.active
  {
    var s := w.tasks[p].fds[f].side;
    assert (p, f) in EndsOf(w.tasks, s);
    assert s == Rd || s == Wr;
  }

  lemma RedirectKeeps(w: World, p: int, f: nat, slots: nat)
    requires Inv(w) && Enabled(w, Redirect(p, f))
    ensures Inv(Advance(w, Redirect(p, f), slots))
  {
    hide Inv, SideOk, Dropped, Close;
    var s, a := w.tasks[p].fds[f].side, SetEnd(w, p, f, NoEnd);
    DescriptorOpen(w, p, f);
    InvSides(w, s);
    RedirectDropped(w, p, f, s);
    RedirectOther(w, p, f, s);
    CloseKeeps(a, s, false);
  }

  lemma CountedEnds(w: World, s: Side)
    requires SideOk(w, s)
    ensures Attach(w, s).ends.Get(s) > 0 && (w.ends.Get(s) == 0 ==> w.reserved.Get(s) == 0)
  {
  }

  // ---------------------------------------------------------------- tearing a process down

  ghost predicate Owes(w: World, p: int, s: Side)
    requires p in w.tasks
  {
    w.tasks[p].op.Dying? && w.tasks[p].op.owes.Get(s)
  }

  /** Nobody waits on the side, or the wake-ups under way suffice without the one p owes. */
  ghost predicate Covered(w: World, p: int, s: Side) {
    w.sems.Get(s).queue == [] || Room(w, s) <= |Pending(w, s) - {p}|
  }

  /** A wake-up that a dying process owes is not lost: it closes an end of that side while another
      one is left, which hands it on, or nobody needs it. */
  ghost predicate Settles(w: World, step: Step)
    requires Possible(w, step)
  {
    match step
    case CloseOne(p, f) =>
      var s := w.tasks[p].fds[f].side;
      Owes(w, p, s) && w.ends.Get(s) <= 1 ==> Covered(w, p, s)
    case Finish(p) => w.active ==> (Owes(w, p, Rd) ==> Covered(w, p, Rd)) && (Owes(w, p, Wr) ==> Covered(w, p, Wr))
    case _ => true
  }

  /** A dying process gives up its claim on side s. */
  ghost function Settled(w: World, p: int, s: Side): World
    requires p in w.tasks && w.tasks[p].op.Dying?
  {
    SetOp(w, p, Dying(w.tasks[p].op.owes.Put(s, false)))
  }

  lemma DyingSettles(w: World, p: int, s: Side)
    requires p in w.tasks && w.tasks[p].op.Dying?
    ensures Pending(Settled(w, p, s), s) == Pending(w, s) - {p}
    ensures Pending(Settled(w, p, s), Other(s)) == Pending(w, Other(s))
    ensures !Owes(w, p, s) ==> Pending(w, s) - {p} == Pending(w, s)
  {
    var v := Settled(w, p, s);
    forall x | x in w.tasks ensures Owed(v, s, x) <==> Owed(w, s, x) && x != p {}
    forall x | x in w.tasks ensures Owed(v, Other(s), x) <==> Owed(w, Other(s), x) {}
  }

  lemma DyingAsleep(w: World, p: int, op: Op, s: Side)
    requires Asleep(w, s) && p in w.tasks && w.tasks[p].op.Dying? && op.Dying?
    ensures Asleep(SetOp(w, p, op), s)
  {
    hide Exact;
  }

  /** The world in which pipe_close is called for descriptor f of a dying process. */
  ghost function Detached(w: World, p: int, f: nat): World
    requires p in w.tasks && w.tasks[p].op.Dying? && f < |w.tasks[p].fds| && w.tasks[p].fds[f] != NoEnd
  {
    SetEnd(Settled(w, p, w.tasks[p].fds[f].side), p, f, NoEnd)
  }

  lemma CloseOneSame(w: World, p: int, f: nat, s: Side)
    requires SideOk(w, s) && p in w.tasks && w.tasks[p].op.Dying? && f < |w.tasks[p].fds| && w.tasks[p].fds[f] == End(s)
    ensures var a := Detached(w, p, f);
            && Asleep(a, s) && Pending(a, s) == Pending(w, s) - {p} && a.reserved.Get(s) == 0
            && a.ends.Get(s) == |EndsOf(a.tasks, s)| + 1
            && Dropped(a, s, Owes(w, p, s) && !Covered(w, p, s))
  {
    hide Asleep, EndsOf;
    var u, a := Settled(w, p, s), Detached(w, p, f);
    DyingSettles(w, p, s);
    DyingAsleep(w, p, u.tasks[p].op, s);
    EndsOfOp(w.tasks, p, u.tasks[p].op, s);
    assert Accounted(u, s);
    DetachedAccounted(u, p, f, NoEnd, s);
    FdAsleep(u, a, s);
    hide Pending;
    LoseOne(Pending(w, s), Pending(w, s) - {p}, p);
  }

  lemma CloseOneOther(w: World, p: int, f: nat, s: Side)
    requires SideOk(w, Other(s)) && p in w.tasks && w.tasks[p].op.Dying? && f < |w.tasks[p].fds| && w.tasks[p].fds[f] == End(s)
    ensures SideOk(Detached(w, p, f), Other(s))
  {
    hide Asleep, Pending, EndsOf;
    var u, a, o := Settled(w, p, s), Detached(w, p, f), Other(s);
    DyingSettles(w, p, s);
    DyingAsleep(w, p, u.tasks[p].op, o);
    EndsOfOp(w.tasks, p, u.tasks[p].op, o);
    UntouchedEnds(u, p, f, NoEnd, o);
    FdAsleep(u, a, o);
  }

  lemma CloseOneIs(w: World, p: int, f: nat, slots: nat)
    requires Possible(w, CloseOne(p, f))
    ensures Advance(w, CloseOne(p, f), slots) == Close(Detached(w, p, f), w.tasks[p].fds[f].side)
    ensures var a := Detached(w, p, f); a == w.(tasks := a.tasks) && a.tasks.Keys == w.tasks.Keys
  {
    hide Close;
  }

  /** The last counted end goes with a wake-up that somebody still needs. */
  lemma CloseLoses(a: World, s: Side)
    requires a.active && a.tasks.Keys == a.procs.Keys && Asleep(a, s) && SideOk(a, Other(s))
    requires a.ends.Get(s) == 1 && a.sems.Get(s).queue != [] && Room(a, s) > |Pending(a, s)| && a.ends.Get(Other(s)) > 0
    ensures !Inv(Close(a, s))
  {
    hide Asleep, Accounted, Pending, PostAll;
    var u, o := Uncount(a, s), Other(s);
    UncountOther(a, s);
    UncountAsleep(a, u, s);
    PendingFrame(a, u, s);
    assert BothAsleep(u) by { assert s == Rd || s == Wr; }
    PostAllFacts(u, o);
    var b := PostAllSide(u, o);
    assert Close(a, s) == b && b.active;
    assert !NoLostWakeUp(b, s);
    assert s == Rd || s == Wr;
  }

  /** Closing a descriptor of a dying process keeps the invariant exactly when the wake-up that the
      process owes on that side is handed on or not needed. */
  lemma CloseOneKeepsIff(w: World, p: int, f: nat, slots: nat)
    requires Inv(w) && Possible(w, CloseOne(p, f))
    ensures Inv(Advance(w, CloseOne(p, f), slots)) <==> Settles(w, CloseOne(p, f))
  {
    hide Inv, SideOk, Dropped, Close, Accounted, Pending, Asleep;
    var s, a := w.tasks[p].fds[f].side, Detached(w, p, f);
    DescriptorOpen(w, p, f);
    InvSides(w, s);
    CloseOneSame(w, p, f, s);
    CloseOneOther(w, p, f, s);
    CloseOneIs(w, p, f, slots);
    ClauseTwo(w, s);
    if Settles(w, CloseOne(p, f)) {
      CloseKeeps(a, s, Owes(w, p, s) && !Covered(w, p, s));
    } else {
      CloseLoses(a, s);
    }
  }

  lemma ClauseTwo(w: World, s: Side)
    requires SideOk(w, s)
    ensures w.ends.Get(Other(s)) == 0 ==> w.sems.Get(s).queue == []
  {
    hide Asleep, Accounted;
  }

  lemma FinishSide(w: World, v: World, p: int, s: Side)
    requires SideOk(w, s) && p in w.tasks && w.tasks[p].op.Dying?
    requires forall f :: 0 <= f < |w.tasks[p].fds| ==> w.tasks[p].fds[f] == NoEnd
    requires v == w.(tasks := w.tasks - {p}, procs := w.procs - {p})
    ensures SideOk(v, s) <==> (Owes(w, p, s) ==> Covered(w, p, s))
  {
    hide Pending, EndsOf, Owed, Asleep;
    FinishSets(w, v, p, s);
    DyingSettles(w, p, s);
    FinishAsleep(w, v, p, s);
  }

  lemma FinishSets(w: World, v: World, p: int, s: Side)
    requires p in w.tasks && forall f :: 0 <= f < |w.tasks[p].fds| ==> w.tasks[p].fds[f] == NoEnd
    requires v == w.(tasks := w.tasks - {p}, procs := w.procs - {p})
    ensures EndsOf(v.tasks, s) == EndsOf(w.tasks, s) && Pending(v, s) == Pending(w, s) - {p}
  {
    forall x | x in v.tasks ensures Owed(v, s, x) <==> Owed(w, s, x) {}
  }

  lemma FinishAsleep(w: World, v: World, p: int, s: Side)
    requires Asleep(w, s) && p in w.tasks && w.tasks[p].op.Dying?
    requires v == w.(tasks := w.tasks - {p}, procs := w.procs - {p})
    ensures Asleep(v, s)
  {
    var q := w.sems.Get(s).queue;
    forall i | 0 <= i < |q| ensures q[i].pid != p && Sleeps(v.procs, q[i].pid) { assert Sleeps(w.procs, q[i].pid); }
  }

  /** A dying process goes without having handed its wake-up on: harmless exactly when it is not needed. */
  lemma FinishKeepsIff(w: World, p: int, slots: nat)
    requires Inv(w) && Possible(w, Finish(p))
    ensures Inv(Advance(w, Finish(p), slots)) <==> Settles(w, Finish(p))
  {
    var v := Advance(w, Finish(p), slots);
    assert v.tasks.Keys == w.tasks.Keys - {p} && v.procs.Keys == w.procs.Keys - {p};
    if w.active {
      hide SideOk, Covered;
      FinishSide(w, v, p, Rd);
      FinishSide(w, v, p, Wr);
    } else {
      assert EndsOf(v.tasks, Rd) == EndsOf(w.tasks, Rd) && EndsOf(v.tasks, Wr) == EndsOf(w.tasks, Wr);
    }
  }

  /** The debt a process takes along when it is killed. */
  ghost function Debt(w: World, p: int): Op
    requires p in w.tasks
  {
    Dying(Both(Owed(w, Rd, p), Owed(w, Wr, p)))
  }

  lemma KillIsDebt(w: World, p: int, slots: nat)
    requires Enabled(w, BeginKill(p))
    ensures Advance(w, BeginKill(p), slots)
         == SetOp(w.(sems := Both(RemovePid(w.sems.rd, p), RemovePid(w.sems.wr, p))), p, Debt(w, p))
  {
  }

  lemma KillPending(w: World, v: World, p: int, s: Side)
    requires Asleep(w, s) && p in w.tasks && v.tasks == w.tasks[p := w.tasks[p].(op := Debt(w, p))]
    requires v.sems.Get(s) == RemovePid(w.sems.Get(s), p)
    ensures Pending(v, s) == Pending(w, s)
  {
    RemovedRecords(w.sems.Get(s), p);
    hide Exact, RemovePid, Recorded;
    forall x | x in w.tasks ensures Owed(v, s, x) <==> Owed(w, s, x) {}
  }

  lemma KillAsleep(w: World, v: World, p: int, s: Side)
    requires Asleep(w, s) && p in w.tasks && v.tasks == w.tasks[p := w.tasks[p].(op := Debt(w, p))] && v.procs == w.procs
    requires v.sems.Get(s) == RemovePid(w.sems.Get(s), p)
    ensures Asleep(v, s) && (w.sems.Get(s).queue == [] ==> v.sems.Get(s).queue == [])
  {
    var q, r := w.sems.Get(s).queue, v.sems.Get(s).queue;
    ExactRemove(w.sems.Get(s), w.procs, p);
    hide Exact, RemovePid;
    forall i | 0 <= i < |r| ensures r[i].pid in v.tasks && v.tasks[r[i].pid].op == In(s, true) {
      assert r[i] in r && r[i] in q && r[i].pid != p;
    }
  }

  lemma KillSide(w: World, v: World, p: int, s: Side)
    requires SideOk(w, s) && p in w.tasks && v == SetOp(w.(sems := v.sems), p, Debt(w, p))
    requires v.sems.Get(s) == RemovePid(w.sems.Get(s), p)
    ensures SideOk(v, s)
  {
    hide Asleep, Pending, EndsOf, Debt;
    KillPending(w, v, p, s);
    KillAsleep(w, v, p, s);
    EndsOfOp(w.tasks, p, Debt(w, p), s);
  }

  lemma BeginKillKeeps(w: World, p: int, slots: nat)
    requires Inv(w) && Enabled(w, BeginKill(p))
    ensures Inv(Advance(w, BeginKill(p), slots))
  {
    KillIsDebt(w, p, slots);
    var v := Advance(w, BeginKill(p), slots);
    if w.active {
      assert Fifo(v);
      hide SideOk, RemovePid;
      KillSide(w, v, p, Rd);
      KillSide(w, v, p, Wr);
    } else {
      EndsOfOp(w.tasks, p, Debt(w, p), Rd);
      EndsOfOp(w.tasks, p, Debt(w, p), Wr);
      hide EndsOf;
    }
  }

  // ---------------------------------------------------------------- whole runs

  lemma StepKeeps(w: World, step: Step, slots: nat)
    requires Inv(w) && Enabled(w, step) && Settles(w, step) && |w.tasks| <= slots
    ensures Inv(Advance(w, step, slots))
  {
    match step {
      case Open(capacity) => OpenKeeps(w, capacity, slots);
      case Spawn(p, nfds, prio) => SpawnKeeps(w, p, nfds, prio, slots);
      case SetFd(p, f, side) => SetFdKeeps(w, p, f, side, slots);
      case Redirect(p, f) => RedirectKeeps(w, p, f, slots);
      case Drop(side) => DropKeeps(w, side);
      case Begin(p, f) => BeginKeeps(w, p, f, slots);
      case Turn(p, b, more) => TurnKeeps(w, p, b, more, slots);
      case Elsewhere(p, view) => ViewKeeps(w, p, view);
      case Renice(p, prio) => ViewKeeps(w, p, w.procs[p].(prio := prio));
      case BeginKill(p) => BeginKillKeeps(w, p, slots);
      case CloseOne(p, f) => CloseOneKeepsIff(w, p, f, slots);
      case Finish(p) => FinishKeepsIff(w, p, slots);
    }
  }

  /** Before anything happens: the slot is free and nobody uses it. */
  ghost predicate Initial(w: World) {
    !w.active && w.ends == Both(0, 0) && w.reserved == Both(0, 0) && w.tasks == map[] && w.procs == map[] && w.sems.rd.queue == [] && w.sems.wr.queue == []
  }

  /** Any disciplined interleaving in which dying processes settle what they owe; there are never
      more processes than places in the waiting array. */
  ghost predicate IsRun(worlds: seq<World>, steps: seq<Step>, slots: nat) {
    && |worlds| == |steps| + 1 && Initial(worlds[0])
    && (forall i :: 0 <= i < |worlds| ==> |worlds[i].tasks| <= slots)
    && (forall i :: 0 <= i < |steps| ==>
          Enabled(worlds[i], steps[i]) && Settles(worlds[i], steps[i]) && worlds[i + 1] == Advance(worlds[i], steps[i], slots))
  }

  lemma RunStep(worlds: seq<World>, steps: seq<Step>, slots: nat, k: nat)
    requires IsRun(worlds, steps, slots) && k < |steps|
    ensures Enabled(worlds[k], steps[k]) && Settles(worlds[k], steps[k])
    ensures worlds[k + 1] == Advance(worlds[k], steps[k], slots) && |worlds[k].tasks| <= slots
  {
    hide Possible, Disciplined, Advance, Settles;
  }

  lemma {:induction false} RunKeeps(worlds: seq<World>, steps: seq<Step>, slots: nat, k: nat)
    requires IsRun(worlds, steps, slots) && k <= |steps|
    ensures Inv(worlds[k])
  {
    hide Inv, Possible, Disciplined, Advance, Settles;
    if k > 0 {
      RunKeeps(worlds, steps, slots, k - 1);
      RunStep(worlds, steps, slots, k - 1);
      StepKeeps(worlds[k - 1], steps[k - 1], slots);
    } else {
      InitialInv(worlds[0]);
    }
  }

  lemma InitialInv(w: World)
    requires Initial(w)
    ensures Inv(w)
  {
  }

  // ---------------------------------------------------------------- what the runs guarantee

  /** While a process waits in the pipe, it sleeps, the other side is still there, and what it
      waits for is no more than the wake-ups already given and not yet used. */
  lemma SleeperWillBeWoken(worlds: seq<World>, steps: seq<Step>, slots: nat, k: nat, p: int, s: Side)
    requires IsRun(worlds, steps, slots) && k <= |steps| && Recorded(worlds[k].sems.Get(s).queue, p)
    ensures p in worlds[k].tasks && worlds[k].tasks[p].op == In(s, true) && Sleeps(worlds[k].procs, p)
    ensures worlds[k].ends.Get(Other(s)) > 0 && Room(worlds[k], s) <= |Pending(worlds[k], s)|
  {
    RunKeeps(worlds, steps, slots, k);
    assert worlds[k].active;
    InvSides(worlds[k], s);
  }

  /** A reader and a writer never wait at the same time with no wake-up under way. */
  lemma NoDeadlock(worlds: seq<World>, steps: seq<Step>, slots: nat, k: nat, p: int, q: int)
    requires IsRun(worlds, steps, slots) && k <= |steps|
    requires Recorded(worlds[k].sems.rd.queue, p) && Recorded(worlds[k].sems.wr.queue, q)
    ensures Pending(worlds[k], Rd) != {} || Pending(worlds[k], Wr) != {}
  {
    RunKeeps(worlds, steps, slots, k);
    SleeperWillBeWoken(worlds, steps, slots, k, p, Rd);
    SleeperWillBeWoken(worlds, steps, slots, k, q, Wr);
    assert worlds[k].active && Fifo(worlds[k]);
  }
}

/** The synchronization test: processes that add to a shared counter under one semaphore. */
module Mutex {
  import opened SemSpec
  import Seqs

  /** Where a process is in process_inc and slowInc. */
  datatype Pc = Start | AtWait | Asleep | AtRead | AtWrite | AtPost | AtClose | Done

  /** `total` iterations, of which `left` remain, each adding `inc`; `aux` is what it last read. */
  datatype Client = Client(pc: Pc, total: nat, left: nat, inc: int, aux: int, alive: bool)

  /** Client c has pid c. `refs` counts the open handles; the semaphore exists while it is positive. */
  datatype World = World(clients: seq<Client>, global: int, sem: Sem, refs: nat, procs: Procs)

  /** One atomic action of a client, or what the rest of the system does to a client. */
  datatype Action = Run(c: nat) | Renice(c: nat, prio: nat) | Block(c: nat) | Unblock(c: nat) | Kill(c: nat)

  function Goto(w: World, c: nat, pc: Pc): World
    requires c < |w.clients|
  {
    w.(clients := w.clients[c := w.clients[c].(pc := pc)])
  }

  /** A process runs only while the scheduler does not have it blocked; nobody else blocks or
      unblocks it while it waits on the semaphore. */
  ghost predicate Enabled(w: World, a: Action) {
    && a.c < |w.clients| && w.clients[a.c].alive && a.c in w.procs
    && (a.Run? ==> !w.procs[a.c].blocked && w.clients[a.c].pc != Done)
    && (a.Block? || a.Unblock? ==> !Recorded(w.sem.queue, a.c))
  }

  function NextIteration(k: Client): Pc {
    if k.left > 0 then AtWait else AtClose
  }

  function RunClient(w: World, c: nat, capacity: nat): World
    requires c < |w.clients|
  {
    var k := w.clients[c];
    match k.pc
    case Start =>
      var w' := if w.refs > 0 then w.(refs := w.refs + 1) else w.(refs := 1, sem := Sem(1, []));
      Goto(w', c, NextIteration(k))
    case AtWait =>
      var (sem, procs, outcome) := Wait(w.sem, w.procs, c, capacity);
      Goto(w.(sem := sem, procs := procs), c, if outcome == Slept then Asleep else AtRead)
    case Asleep => Goto(w, c, AtRead)
    case AtRead => w.(clients := w.clients[c := k.(pc := AtWrite, aux := w.global)])
    case AtWrite => Goto(w.(global := k.aux + k.inc), c, AtPost)
    case AtPost =>
      var (sem, procs) := Post(w.sem, w.procs);
      var k' := if k.left > 0 then k.(left := k.left - 1) else k;
      w.(sem := sem, procs := procs, clients := w.clients[c := k'.(pc := NextIteration(k'))])
    case AtClose =>
      Goto(w.(refs := if w.refs > 0 then w.refs - 1 else 0, sem := if w.refs <= 1 then w.sem.(queue := []) else w.sem), c, Done)
    case Done => w
  }

  /** A killed client leaves the waiting array and runs no more. What it had done stays done; if it
      was waiting, it never got past its wait. */
  ghost function Killed(w: World, c: nat): World
    requires c < |w.clients|
  {
    var k := w.clients[c];
    w.(sem := RemovePid(w.sem, c), procs := w.procs - {c},
       clients := w.clients[c := k.(alive := false, pc := if Recorded(w.sem.queue, c) then AtWait else k.pc)])
  }

  ghost function Act(w: World, a: Action, capacity: nat): World
    requires Enabled(w, a)
  {
    match a
    case Run(c) => RunClient(w, c, capacity)
    case Renice(c, prio) => w.(procs := w.procs[c := w.procs[c].(prio := prio)])
    case Block(c) => w.(procs := PutToSleep(w.procs, c))
    case Unblock(c) => w.(procs := WakeUp(w.procs, c))
    case Kill(c) => Killed(w, c)
  }

  // ---------------------------------------------------------------- sums over clients

  ghost function Sum(clients: seq<Client>, f: Client -> int): int {
    if clients == [] then 0 else Sum(clients[..|clients| - 1], f) + f(clients[|clients| - 1])
  }

  lemma {:induction false} SumSet(clients: seq<Client>, f: Client -> int, c: nat, k: Client)
    requires c < |clients|
    ensures Sum(clients[c := k], f) == Sum(clients, f) - f(clients[c]) + f(k)
  {
    var n := |clients| - 1;
    if c == n {
      assert clients[c := k][..n] == clients[..n];
    } else {
      SumSet(clients[..n], f, c, k);
      assert clients[c := k][..n] == clients[..n][c := k];
    }
  }

  /** What a client has added so far. */
  function Added(k: Client): int {
    k.inc * (k.total - k.left + if k.pc == AtPost then 1 else 0)
  }

  function Open(k: Client): int {
    if k.pc == Start || k.pc == Done then 0 else 1
  }

  // ---------------------------------------------------------------- the invariant

  /** The client is between its wait and its post, or has been woken to go there, or was killed there. */
  ghost predicate Holder(w: World, c: nat)
    requires c < |w.clients|
  {
    var pc := w.clients[c].pc;
    pc == AtRead || pc == AtWrite || pc == AtPost || (pc == Asleep && !Recorded(w.sem.queue, c))
  }

  ghost predicate ClientOk(k: Client, global: int) {
    && k.left <= k.total
    && (k.pc == Start ==> k.left == k.total)
    && (k.pc == AtClose || k.pc == Done ==> k.left == 0)
    && (k.pc == AtWait || k.pc == Asleep || k.pc == AtRead || k.pc == AtWrite || k.pc == AtPost ==> k.left > 0)
    && (k.pc == AtWrite ==> k.aux == global)
  }

  /** Every client alive is known to the scheduler, and the recorded waiters are clients asleep. */
  ghost predicate ViewOk(w: World) {
    && (forall c :: 0 <= c < |w.clients| && w.clients[c].alive ==> c in w.procs)
    && (forall i :: 0 <= i < |w.sem.queue| ==>
          0 <= w.sem.queue[i].pid < |w.clients| && w.clients[w.sem.queue[i].pid].pc == Asleep)
  }

  /** At most one holder, and none exactly when the semaphore is free. */
  ghost predicate OneHolder(w: World) {
    && (forall c, d :: 0 <= c < |w.clients| && 0 <= d < |w.clients| && Holder(w, c) && Holder(w, d) ==> c == d)
    && (w.sem.value == 1 ==> forall c :: 0 <= c < |w.clients| ==> !Holder(w, c))
    && w.sem.value <= 1
  }

  ghost predicate Accounts(w: World) {
    && (forall c :: 0 <= c < |w.clients| ==> ClientOk(w.clients[c], w.global))
    && w.global == Sum(w.clients, Added)
    && w.refs == Sum(w.clients, Open)
  }

  ghost predicate Lock(w: World) {
    && ViewOk(w)
    && (w.refs > 0 ==> Exact(w.sem, w.procs) && OneHolder(w))
    && (w.refs == 0 ==> w.sem.queue == [])
  }

  ghost predicate Inv(w: World) {
    Accounts(w) && Lock(w)
  }

  // ---------------------------------------------------------------- bookkeeping

  /** A step of client c leaves the others alone. */
  lemma Books(w: World, c: nat, k: Client, global: int)
    requires Accounts(w) && c < |w.clients| && ClientOk(k, global)
    requires global == w.global || forall d :: 0 <= d < |w.clients| && d != c ==> w.clients[d].pc != AtWrite
    ensures var cs := w.clients[c := k];
            && (forall d :: 0 <= d < |cs| ==> ClientOk(cs[d], global))
            && Sum(cs, Added) == w.global - Added(w.clients[c]) + Added(k)
            && Sum(cs, Open) == w.refs - Open(w.clients[c]) + Open(k)
  {
    SumSet(w.clients, Added, c, k);
    SumSet(w.clients, Open, c, k);
  }

  lemma {:induction false} OpenNonNegative(clients: seq<Client>)
    ensures Sum(clients, Open) >= 0
  {
    if clients != [] { OpenNonNegative(clients[..|clients| - 1]); }
  }

  lemma {:induction false} OpenAtLeast(clients: seq<Client>, c: nat)
    requires c < |clients|
    ensures Sum(clients, Open) >= Open(clients[c])
  {
    var n := |clients| - 1;
    OpenNonNegative(clients[..n]);
    if c < n { OpenAtLeast(clients[..n], c); }
  }

  /** A client between open and close keeps the semaphore in existence. */
  lemma OpenMeansExists(w: World, c: nat)
    requires Accounts(w) && c < |w.clients|
    ensures Open(w.clients[c]) == 1 ==> w.refs > 0
  {
    OpenAtLeast(w.clients, c);
  }

  lemma IncOnce(inc: int, n: int)
    ensures inc * (n + 1) == inc * n + inc
  {
  }

  /** What one action does to the client's own account. */
  lemma OwnAccount(w: World, c: nat, capacity: nat)
    requires c < |w.clients| && ClientOk(w.clients[c], w.global) && (Open(w.clients[c]) == 1 ==> w.refs > 0)
    ensures var k, v := w.clients[c], RunClient(w, c, capacity);
            && |v.clients| == |w.clients| && v.clients == w.clients[c := v.clients[c]] && ClientOk(v.clients[c], v.global)
            && v.global == w.global - Added(k) + Added(v.clients[c]) && v.refs == w.refs - Open(k) + Open(v.clients[c])
            && (v.global == w.global || k.pc == AtWrite)
  {
    hide Wait, Post;
    IncOnce(w.clients[c].inc, w.clients[c].total - w.clients[c].left);
  }

  lemma RunAccounts(w: World, c: nat, capacity: nat)
    requires Inv(w) && c < |w.clients|
    ensures Accounts(RunClient(w, c, capacity))
  {
    if w.clients[c].pc == AtWrite {
      WriterAlone(w, c);
    }
    OpenMeansExists(w, c);
    hide Lock, RunClient, Added, Open, Sum;
    OwnAccount(w, c, capacity);
    var v := RunClient(w, c, capacity);
    Books(w, c, v.clients[c], v.global);
  }

  /** While a client is between read and write no other client is. */
  lemma WriterAlone(w: World, c: nat)
    requires Inv(w) && c < |w.clients| && w.clients[c].pc == AtWrite
    ensures forall d :: 0 <= d < |w.clients| && d != c ==> w.clients[d].pc != AtWrite
  {
    OpenMeansExists(w, c);
    assert Holder(w, c);
    forall d | 0 <= d < |w.clients| && d != c ensures w.clients[d].pc != AtWrite {
      assert w.clients[d].pc == AtWrite ==> Holder(w, d);
    }
  }

  // ---------------------------------------------------------------- the lock

  ghost predicate Holding(pc: Pc) {
    pc == AtRead || pc == AtWrite || pc == AtPost || pc == Asleep
  }

  /** A client that is not recorded moves without entering or leaving the critical section. */
  lemma MoveKeepsLock(w: World, v: World, c: nat, k: Client)
    requires Lock(w) && c < |w.clients| && !Recorded(w.sem.queue, c) && w.refs > 0 && v.refs > 0
    requires v.clients == w.clients[c := k] && v.sem == w.sem && v.procs == w.procs && k.alive == w.clients[c].alive
    requires Holding(k.pc) == Holding(w.clients[c].pc)
    ensures Lock(v)
  {
    hide Exact;
    forall d | 0 <= d < |w.clients| ensures Holder(v, d) <==> Holder(w, d) {}
  }

  lemma FirstOpenLock(w: World, v: World, c: nat, k: Client)
    requires Lock(w) && c < |w.clients| && !Recorded(w.sem.queue, c)
    requires forall d :: 0 <= d < |w.clients| ==> Open(w.clients[d]) == 0
    requires v.clients == w.clients[c := k] && v.sem == Sem(1, []) && v.procs == w.procs && v.refs == 1 && !Holding(k.pc)
    requires k.alive == w.clients[c].alive
    ensures Lock(v)
  {
    forall d | 0 <= d < |w.clients| ensures !Holder(v, d) {}
  }

  lemma StartLock(w: World, c: nat, capacity: nat)
    requires Inv(w) && c < |w.clients| && w.clients[c].pc == Start && !Recorded(w.sem.queue, c)
    ensures Lock(RunClient(w, c, capacity))
  {
    var v := RunClient(w, c, capacity);
    hide Lock;
    if w.refs > 0 {
      MoveKeepsLock(w, v, c, v.clients[c]);
    } else {
      forall d | 0 <= d < |w.clients| ensures Open(w.clients[d]) == 0 { OpenMeansExists(w, d); }
      FirstOpenLock(w, v, c, v.clients[c]);
    }
  }

  lemma CloseLock(w: World, c: nat, capacity: nat)
    requires Inv(w) && c < |w.clients| && w.clients[c].pc == AtClose && !Recorded(w.sem.queue, c)
    ensures Lock(RunClient(w, c, capacity))
  {
    var v := RunClient(w, c, capacity);
    OpenMeansExists(w, c);
    if w.refs > 1 {
      MoveKeepsLock(w, v, c, v.clients[c]);
    } else {
      hide Lock;
      LastCloseLock(w, v, c, v.clients[c]);
    }
  }

  lemma LastCloseLock(w: World, v: World, c: nat, k: Client)
    requires Lock(w) && c < |w.clients| && !Recorded(w.sem.queue, c) && v.clients == w.clients[c := k]
    requires v.procs == w.procs && v.refs == 0 && v.sem.queue == [] && k.alive == w.clients[c].alive
    ensures Lock(v)
  {
  }

  /** The array of waiters has room for every client that may have to wait. */
  lemma QueueHasRoom(w: World, c: nat)
    requires ViewOk(w) && Exact(w.sem, w.procs) && c < |w.clients| && !Recorded(w.sem.queue, c)
    ensures |w.sem.queue| < |w.clients|
  {
    var q := w.sem.queue;
    var pids := seq(|q|, i requires 0 <= i < |q| => q[i].pid) + [c];
    Seqs.Pigeonhole(pids, |w.clients|);
  }

  /** Passing a positive semaphore makes the caller the only holder. */
  lemma EnterLock(w: World, v: World, c: nat)
    requires Lock(w) && c < |w.clients| && !Recorded(w.sem.queue, c) && w.refs > 0 && w.sem.value == 1
    requires v == Goto(w.(sem := v.sem), c, AtRead) && v.sem == Sem(0, [])
    ensures Lock(v)
  {
    forall d | 0 <= d < |w.clients| && d != c ensures !Holder(v, d) { assert !Holder(w, d); }
  }

  lemma SleepLock(w: World, v: World, c: nat)
    requires Lock(w) && c < |w.clients| && !Recorded(w.sem.queue, c) && w.refs > 0 && w.sem.value < 1 && w.clients[c].pc == AtWait
    requires v == Goto(w.(sem := v.sem, procs := PutToSleep(w.procs, c)), c, Asleep)
    requires v.sem == Sem(w.sem.value - 1, w.sem.queue + [Waiter(c, 0)]) && Exact(v.sem, v.procs)
    ensures Lock(v)
  {
    hide Exact;
    var q := v.sem.queue;
    assert q[|q| - 1].pid == c;
    forall d | Recorded(w.sem.queue, d) ensures Recorded(q, d) {
      var i :| 0 <= i < |w.sem.queue| && w.sem.queue[i].pid == d;
      assert q[i].pid == d;
    }
    forall d | 0 <= d < |w.clients| && Holder(v, d) ensures Holder(w, d) {}
  }

  lemma WaitLock(w: World, c: nat, capacity: nat)
    requires Inv(w) && c < |w.clients| <= capacity && w.clients[c].pc == AtWait && c in w.procs && !w.procs[c].blocked
    requires !Recorded(w.sem.queue, c)
    ensures Lock(RunClient(w, c, capacity))
  {
    var v := RunClient(w, c, capacity);
    OpenMeansExists(w, c);
    hide Exact, Wait;
    QueueHasRoom(w, c);
    ExactWait(w.sem, w.procs, c, capacity);
    if w.sem.value >= 1 {
      EnterLock(w, v, c);
    } else {
      SleepLock(w, v, c);
    }
  }

  /** A post with nobody waiting frees the semaphore. */
  lemma LeaveLock(w: World, v: World, c: nat, k: Client)
    requires Lock(w) && c < |w.clients| && w.clients[c].pc == AtPost && w.refs > 0 && w.sem.queue == []
    requires v.clients == w.clients[c := k] && !Holding(k.pc) && v.refs == w.refs && k.alive == w.clients[c].alive
    requires v.sem == Sem(w.sem.value + 1, []) && v.procs == w.procs && Exact(v.sem, v.procs)
    ensures Lock(v)
  {
    assert Holder(w, c);
    assert w.sem.value == 0;
    forall d | 0 <= d < |w.clients| ensures !Holder(v, d) {
      assert d != c ==> v.clients[d] == w.clients[d] && !Holder(w, d);
    }
  }

  /** A post with waiters hands the critical section to the one it wakes. */
  lemma HandOverLock(w: World, v: World, c: nat, k: Client, b: nat)
    requires Lock(w) && c < |w.clients| && w.clients[c].pc == AtPost && w.refs > 0 && b < |w.sem.queue|
    requires v.clients == w.clients[c := k] && !Holding(k.pc) && v.refs == w.refs && k.alive == w.clients[c].alive
    requires v.sem == Sem(w.sem.value + 1, Dequeue(AgeExcept(w.sem.queue, b), b))
    requires v.procs == WakeUp(w.procs, w.sem.queue[b].pid) && Exact(v.sem, v.procs)
    ensures Lock(v)
  {
    var q, r, h := w.sem.queue, v.sem.queue, w.sem.queue[b].pid;
    assert Holder(w, c) && w.clients[h].pc == Asleep && h != c;
    assert w.sem.value < 0;
    DequeuedOnly(q, b);
    hide Exact, QueueOk, Recorded, Dequeue, AgeExcept;
    forall d | 0 <= d < |w.clients| ensures Holder(v, d) <==> d == h { assert d != c ==> !Holder(w, d); }
  }

  lemma PostLock(w: World, c: nat, capacity: nat)
    requires Inv(w) && c < |w.clients| && w.clients[c].pc == AtPost
    ensures Lock(RunClient(w, c, capacity))
  {
    var v := RunClient(w, c, capacity);
    OpenMeansExists(w, c);
    ExactPost(w.sem, w.procs);
    hide Exact, Post, Lock, Best;
    if w.sem.queue == [] {
      LeaveLock(w, v, c, v.clients[c]);
    } else {
      HandOverLock(w, v, c, v.clients[c], Best(w.sem.queue, w.procs));
    }
  }

  /** The scheduler's view may change except for the recorded waiters. */
  lemma ViewLock(w: World, procs: Procs)
    requires Lock(w) && procs.Keys == w.procs.Keys
    requires forall i :: 0 <= i < |w.sem.queue| && Sleeps(w.procs, w.sem.queue[i].pid) ==> Sleeps(procs, w.sem.queue[i].pid)
    ensures Lock(w.(procs := procs))
  {
    var v := w.(procs := procs);
    forall d | 0 <= d < |w.clients| ensures Holder(v, d) <==> Holder(w, d) {}
    hide QueueOk;
  }

  /** Killing a waiter repays its debt; killing a holder leaves the semaphore taken for good. */
  lemma KillLock(w: World, c: nat)
    requires Lock(w) && c < |w.clients|
    ensures Lock(Killed(w, c))
  {
    var v := Killed(w, c);
    if w.refs > 0 {
      ExactRemove(w.sem, w.procs, c);
      RemovedRecords(w.sem, c);
      hide RemovePid;
      assert Exact(v.sem, v.procs);
      hide Exact, QueueOk;
      forall d | 0 <= d < |w.clients| ensures Holder(v, d) <==> Holder(w, d) {}
      assert forall i :: 0 <= i < |v.sem.queue| ==> v.sem.queue[i] in w.sem.queue;
    } else {
      assert v.sem.queue == [];
    }
  }

  lemma KillAccounts(w: World, c: nat)
    requires Inv(w) && c < |w.clients|
    ensures Accounts(Killed(w, c))
  {
    var v := Killed(w, c);
    if Recorded(w.sem.queue, c) {
      var i :| 0 <= i < |w.sem.queue| && w.sem.queue[i].pid == c;
      assert w.clients[c].pc == Asleep;
    }
    hide Lock, Sum;
    Books(w, c, v.clients[c], w.global);
  }

  lemma RunnerUnrecorded(w: World, c: nat)
    requires Lock(w) && c < |w.clients| && c in w.procs && !w.procs[c].blocked
    ensures !Recorded(w.sem.queue, c)
  {
  }

  lemma ActKeeps(w: World, a: Action, capacity: nat)
    requires Inv(w) && Enabled(w, a) && |w.clients| <= capacity
    ensures Inv(Act(w, a, capacity)) && |Act(w, a, capacity).clients| == |w.clients|
  {
    match a {
      case Run(c) =>
        var v := RunClient(w, c, capacity);
        RunnerUnrecorded(w, c);
        RunAccounts(w, c, capacity);
        OpenMeansExists(w, c);
        hide Accounts, Lock, Wait, Post, Recorded;
        match w.clients[c].pc {
          case Start => StartLock(w, c, capacity);
          case AtWait => WaitLock(w, c, capacity);
          case AtPost => PostLock(w, c, capacity);
          case AtClose => CloseLock(w, c, capacity);
          case Asleep => MoveKeepsLock(w, v, c, v.clients[c]);
          case AtRead => MoveKeepsLock(w, v, c, v.clients[c]);
          case AtWrite => MoveKeepsLock(w, v, c, v.clients[c]);
          case Done =>
        }
      case Kill(c) =>
        hide Lock, Accounts;
        KillLock(w, c);
        KillAccounts(w, c);
      case _ =>
        var v := Act(w, a, capacity);
        hide Lock, Sum;
        ViewLock(w, v.procs);
    }
  }

  // ---------------------------------------------------------------- whole runs

  /** Before the first process runs: nothing opened, nothing added, everybody alive. */
  ghost predicate Initial(w: World) {
    && (forall c :: 0 <= c < |w.clients| ==> w.clients[c].pc == Start && w.clients[c].left == w.clients[c].total && w.clients[c].alive)
    && w.global == 0 && w.refs == 0 && w.sem.queue == []
    && (forall c :: 0 <= c < |w.clients| ==> c in w.procs)
  }

  lemma {:induction false} NothingYet(clients: seq<Client>)
    requires forall c :: 0 <= c < |clients| ==> clients[c].pc == Start && clients[c].left == clients[c].total
    ensures Sum(clients, Added) == 0 && Sum(clients, Open) == 0
  {
    if clients != [] { NothingYet(clients[..|clients| - 1]); }
  }

  /** Any interleaving of the clients, who may be blocked, unblocked, reniced or killed meanwhile. */
  ghost predicate IsRun(worlds: seq<World>, actions: seq<Action>, capacity: nat) {
    && |worlds| == |actions| + 1 && Initial(worlds[0]) && |worlds[0].clients| <= capacity
    && (forall i :: 0 <= i < |actions| ==>
          Enabled(worlds[i], actions[i]) && worlds[i + 1] == Act(worlds[i], actions[i], capacity))
  }

  /** What a process adds, and how often, never changes. */
  lemma ActFrame(w: World, a: Action, capacity: nat)
    requires Enabled(w, a)
    ensures var v := Act(w, a, capacity);
            && |v.clients| == |w.clients|
            && forall c :: 0 <= c < |w.clients| ==> v.clients[c].inc == w.clients[c].inc && v.clients[c].total == w.clients[c].total
  {
    hide Wait, Post;
  }

  lemma {:induction false} RunKeeps(worlds: seq<World>, actions: seq<Action>, capacity: nat, k: nat)
    requires IsRun(worlds, actions, capacity) && k <= |actions|
    ensures Inv(worlds[k]) && |worlds[k].clients| == |worlds[0].clients|
    ensures forall c :: 0 <= c < |worlds[0].clients| ==>
              worlds[k].clients[c].inc == worlds[0].clients[c].inc && worlds[k].clients[c].total == worlds[0].clients[c].total
  {
    if k == 0 {
      NothingYet(worlds[0].clients);
    } else {
      RunKeeps(worlds, actions, capacity, k - 1);
      hide Inv, Enabled, Act;
      assert worlds[k - 1 + 1] == Act(worlds[k - 1], actions[k - 1], capacity);
      ActKeeps(worlds[k - 1], actions[k - 1], capacity);
      ActFrame(worlds[k - 1], actions[k - 1], capacity);
    }
  }

  /** No two processes are ever between their wait and their post, and what a process read is
      still the value of the counter when it writes. */
  lemma MutualExclusion(worlds: seq<World>, actions: seq<Action>, capacity: nat, k: nat, c: nat, d: nat)
    requires IsRun(worlds, actions, capacity) && k <= |actions|
    requires c < |worlds[k].clients| && d < |worlds[k].clients|
    requires var pc := worlds[k].clients[c].pc; pc == AtRead || pc == AtWrite || pc == AtPost
    ensures var pc := worlds[k].clients[d].pc; pc == AtRead || pc == AtWrite || pc == AtPost ==> c == d
    ensures worlds[k].clients[c].pc == AtWrite ==> worlds[k].clients[c].aux == worlds[k].global
  {
    RunKeeps(worlds, actions, capacity, k);
    OpenMeansExists(worlds[k], c);
    assert Holder(worlds[k], c);
    assert (var pc := worlds[k].clients[d].pc; pc == AtRead || pc == AtWrite || pc == AtPost) ==> Holder(worlds[k], d);
  }

  function Share(k: Client): int {
    k.inc * k.total
  }

  lemma {:induction false} SumsAgree(now: seq<Client>, first: seq<Client>)
    requires |now| == |first|
    requires forall c :: 0 <= c < |now| ==> now[c].inc == first[c].inc && now[c].total == first[c].total && now[c].pc == Done && now[c].left == 0
    ensures Sum(now, Added) == Sum(first, Share)
  {
    if now != [] {
      var n := |now| - 1;
      SumsAgree(now[..n], first[..n]);
      assert Added(now[n]) == Share(first[n]);
    }
  }

  /** However the processes were interleaved, once all have finished every increment has taken effect. */
  lemma NoUpdateLost(worlds: seq<World>, actions: seq<Action>, capacity: nat)
    requires IsRun(worlds, actions, capacity)
    requires forall c :: 0 <= c < |worlds[|actions|].clients| ==> worlds[|actions|].clients[c].pc == Done
    ensures worlds[|actions|].global == Sum(worlds[0].clients, Share)
  {
    RunKeeps(worlds, actions, capacity, |actions|);
    SumsAgree(worlds[|actions|].clients, worlds[0].clients);
  }

  /** test_sync: as many processes count down as up, equally often, so the final value is 0. */
  lemma FinalValueZero(worlds: seq<World>, actions: seq<Action>, capacity: nat, pairs: nat, n: nat)
    requires IsRun(worlds, actions, capacity)
    requires forall c :: 0 <= c < |worlds[|actions|].clients| ==> worlds[|actions|].clients[c].pc == Done
    requires |worlds[0].clients| == 2 * pairs
    requires forall c :: 0 <= c < 2 * pairs ==> worlds[0].clients[c].total == n && worlds[0].clients[c].inc == if c < pairs then -1 else 1
    ensures worlds[|actions|].global == 0
  {
    NoUpdateLost(worlds, actions, capacity);
    PairsCancel(worlds[0].clients, pairs, n, 2 * pairs);
    assert worlds[0].clients[..2 * pairs] == worlds[0].clients;
  }

  lemma {:induction false} PairsCancel(clients: seq<Client>, pairs: nat, n: nat, m: nat)
    requires |clients| == 2 * pairs && m <= 2 * pairs
    requires forall c :: 0 <= c < 2 * pairs ==> clients[c].total == n && clients[c].inc == if c < pairs then -1 else 1
    ensures Sum(clients[..m], Share) == n * (if m <= pairs then 0 - m else m - 2 * pairs)
  {
    if m > 0 {
      PairsCancel(clients, pairs, n, m - 1);
      assert clients[..m][..m - 1] == clients[..m - 1] && clients[..m][m - 1] == clients[m - 1];
      assert Share(clients[m - 1]) == if m - 1 < pairs then 0 - n else n;
    }
  }
}

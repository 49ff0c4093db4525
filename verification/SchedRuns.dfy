/** Runs from the initial table that leave a blocked process on a ready queue. */
module SchedRuns {
  import opened SchedSpec
  import opened SchedInv
  import opened SchedKernel

  // ---------------------------------------------------------------- a wait by a queued caller

  /** Idle, parent and child in a table of three. */
  ghost function Table(parent: Proc, child: Proc): seq<Proc> {
    [Proc(0, 0, Running, 1, 1, 0, 0, NONE, -1, 0), parent, child]
  }

  ghost function Parent(status: Status, quantum: int): Proc {
    Proc(1, 0, status, 3, 3, quantum, 0, 100, -1, 0)
  }

  ghost function Child(): Proc {
    Proc(2, 1, Ready, 3, 3, 1, 0, 200, -1, 0)
  }

  /** The steps one by one, from the table that scheduler_init builds. */
  ghost function Scenario(): seq<Step> {
    [DoCreate(3, 100), DoTick, DoCreate(3, 200), DoBlock(1), DoUnblock(1), DoWait(2)]
  }

  ghost function Dawn(): Sched {
    Sched([Proc(0, 0, Running, 1, 1, 1, 0, NONE, -1, 0), Parent(Ready, 1), Proc(0, 0, Dead, 0, 0, 0, 0, NONE, 0, 0)],
          [[], [], [1], [], []], 0, false, 2, 2, multiset{100}, multiset{}, [])
  }

  ghost function Alone(): Sched {
    Dawn().(procs := [Proc(0, 0, Running, 1, 1, 0, 0, NONE, -1, 0), Parent(Running, 1), Proc(0, 0, Dead, 0, 0, 0, 0, NONE, 0, 0)],
            queues := [[], [], [], [], []], cur := 1)
  }

  ghost function Pair(parent: Proc, queue: seq<int>, resched: bool): Sched {
    Sched(Table(parent, Child()), [[], [], queue, [], []], 1, resched, 3, 3, multiset{100, 200}, multiset{}, [])
  }

  ghost function States(): seq<Sched> {
    [Initial(3), Dawn(), Alone(), Pair(Parent(Running, 1), [2], false), Pair(Parent(Blocked, 0), [2], true),
     Pair(Parent(Ready, 1), [2, 1], true), Wait(Pair(Parent(Ready, 1), [2, 1], true), 2)]
  }

  lemma CreateParent()
    ensures Create(Initial(3), 3, 100) == Dawn()
  {
    var s := Initial(3);
    assert FindDead(s, 1) == 1;
    var a := Admit(s, 1, Parent(Ready, 1));
    assert Unqueue(a, 1) == a;
    assert a.queues[2] + [1] == [1];
    assert MakeReady(a, 1).queues == Dawn().queues;
    assert MakeReady(a, 1).procs == Dawn().procs;
  }

  lemma FirstTick()
    ensures InRange(Dawn()) && Tick(Dawn()) == Alone()
  {
    var s := Dawn();
    assert !Stays(s);
    var p := Preempt(s);
    assert p.procs == [Proc(0, 0, Running, 1, 1, 0, 0, NONE, -1, 0), Parent(Ready, 1), s.procs[2]];
    var b := AgeOne(p, 1);
    assert Queued(p, 1) && b == Set(p, 1, Parent(Ready, 1).(ticks := 1));
    assert AgeOne(b, 2) == b;
    assert AgeFrom(p, 1) == AgeFrom(b, 2) == AgeFrom(b, 3) == b;
    assert HighestUpTo(b, 5) == HighestUpTo(b, 4) == HighestUpTo(b, 3) == 3;
    assert b.queues[2][1..] == [];
    assert Switch(b).queues == Alone().queues;
    assert Switch(b).procs == Alone().procs;
  }

  lemma CreateChild()
    ensures Create(Alone(), 3, 200) == Pair(Parent(Running, 1), [2], false)
  {
    var s := Alone();
    assert FindDead(s, 1) == FindDead(s, 2) == 2;
    var a := Admit(s, 2, Child());
    assert Unqueue(a, 2) == a;
    assert a.queues[2] + [2] == [2];
    assert MakeReady(a, 2).queues == [[], [], [2], [], []];
    assert MakeReady(a, 2).procs == Table(Parent(Running, 1), Child());
  }

  lemma BlockParent()
    ensures Block(Pair(Parent(Running, 1), [2], false), 1) == Pair(Parent(Blocked, 0), [2], true)
  {
    var s := Pair(Parent(Running, 1), [2], false);
    assert Find(s, 1, 0) == Find(s, 1, 1) == 1;
    assert Unqueue(s, 1) == s;
  }

  lemma UnblockParent()
    ensures Unblock(Pair(Parent(Blocked, 0), [2], true), 1) == Pair(Parent(Ready, 1), [2, 1], true)
  {
    var s := Pair(Parent(Blocked, 0), [2], true);
    assert FindBlocked(s, 1, 0) == FindBlocked(s, 1, 1) == 1;
    assert Unqueue(s, 1) == s;
    assert s.queues[2] + [1] == [2, 1];
    assert MakeReady(s, 1).queues == [[], [], [2, 1], [], []];
    assert MakeReady(s, 1).procs == Table(Parent(Ready, 1), Child());
  }

  /** A run from the initial table whose last step, a wait by a current process that was blocked
      and unblocked again before the next tick, leaves a blocked process on a ready queue. */
  lemma WaitCanBreakQueues()
    ensures IsRun(States(), Scenario()) && States()[0] == Initial(3)
    ensures Inv(States()[5], {}, false) && !Inv(States()[6], {}, false)
  {
    hide Wait, Initial, Pair, Inv, IsRun, States, Scenario, QueuedWait;
    ScenarioRuns();
    ScenarioAt();
    InitialInv(3);
    LastWait();
    CleanRunKeeps(States(), Scenario(), 5);
    WaitKeepsIff(States()[5], 2);
  }

  lemma ScenarioAt()
    ensures |States()| == 7 && |Scenario()| == 6 && forall m :: 0 <= m < 5 ==> !Scenario()[m].DoWait?
    ensures var s := States();
            s[0] == Initial(3) && s[5] == Pair(Parent(Ready, 1), [2, 1], true) && Shaped(s[5]) && s[6] == Wait(s[5], 2)
  {
  }

  ghost predicate IsStep(s: Sched, step: Step, t: Sched) {
    Shaped(s) && InRange(s) && Allowed(s, step) && t == Do(s, step)
  }

  lemma StepsAreRun(states: seq<Sched>, steps: seq<Step>)
    requires |states| == |steps| + 1 && forall k :: 0 <= k < |steps| ==> IsStep(states[k], steps[k], states[k + 1])
    ensures IsRun(states, steps)
  {
    forall k | 0 <= k < |steps|
      ensures Shaped(states[k]) && InRange(states[k]) && Allowed(states[k], steps[k]) && states[k + 1] == Do(states[k], steps[k])
    {
      assert IsStep(states[k], steps[k], states[k + 1]);
    }
  }

  lemma ScenarioRuns()
    ensures IsRun(States(), Scenario())
  {
    CreateParent();
    FirstTick();
    CreateChild();
    BlockParent();
    UnblockParent();
    FreshStacks();
    RangesOk();
    ScenarioAt();
    var s, e := States(), Scenario();
    hide Create, Tick, Block, Unblock, Wait, Initial, Dawn, Alone, Pair, InRange, FreshStack;
    assert IsStep(s[0], e[0], s[1]);
    assert IsStep(s[1], e[1], s[2]);
    assert IsStep(s[2], e[2], s[3]);
    assert IsStep(s[3], e[3], s[4]);
    assert IsStep(s[4], e[4], s[5]);
    assert IsStep(s[5], e[5], s[6]);
    StepsAreRun(s, e);
  }

  lemma FreshStacks()
    ensures FreshStack(Initial(3), 100) && FreshStack(Alone(), 200)
  {
    NoStacks(Initial(3).procs[1..]);
    var rest := Alone().procs[1..];
    assert rest[..1] == [Parent(Running, 1)];
    assert Stacks([Parent(Running, 1)]) == multiset{100};
  }

  lemma RangesOk()
    ensures Shaped(Initial(3)) && Shaped(Dawn()) && Shaped(Alone()) && InRange(Initial(3)) && InRange(Alone())
    ensures forall p, q, r :: Shaped(Pair(p, q, r))
    ensures InRange(Pair(Parent(Running, 1), [2], false)) && InRange(Pair(Parent(Blocked, 0), [2], true))
    ensures InRange(Pair(Parent(Ready, 1), [2, 1], true))
  {
  }

  lemma LastWait()
    ensures QueuedWait(Pair(Parent(Ready, 1), [2, 1], true), 2)
  {
    var s := Pair(Parent(Ready, 1), [2, 1], true);
    assert Find(s, 2, 0) == Find(s, 2, 1) == Find(s, 2, 2) == 2;
  }

  // ---------------------------------------------------------------- the same in a run of the kernel

  ghost function Free(): Proc {
    Proc(0, 0, Dead, 0, 0, 0, 0, NONE, 0, 0)
  }

  ghost function Idle(quantum: int): Proc {
    Proc(0, 0, Running, 1, 1, quantum, 0, NONE, -1, 0)
  }

  ghost function Third(): Proc {
    Proc(3, 1, Ready, 3, 3, 1, 0, 300, -1, 0)
  }

  ghost function Dawn4(): Sched {
    Sched([Idle(1), Parent(Ready, 1), Free(), Free()], [[], [], [1], [], []], 0, false, 2, 2, multiset{100}, multiset{}, [])
  }

  ghost function Alone4(): Sched {
    Sched([Idle(0), Parent(Running, 1), Free(), Free()], [[], [], [], [], []], 1, false, 2, 2, multiset{100}, multiset{}, [])
  }

  ghost function Pair4(): Sched {
    Sched([Idle(0), Parent(Running, 1), Child(), Free()], [[], [], [2], [], []], 1, false, 3, 3, multiset{100, 200}, multiset{}, [])
  }

  ghost function Family(): Sched {
    Sched([Idle(0), Parent(Running, 1), Child(), Third()], [[], [], [2, 3], [], []], 1, false, 4, 4, multiset{100, 200, 300}, multiset{}, [])
  }

  ghost function Events(): seq<Event> {
    [Call(DoCreate(3, 100)), Call(DoCreate(3, 200)), Call(DoCreate(3, 300)), WaitCall(2)]
  }

  lemma FirstCall()
    ensures Create(Initial(4), 3, 100) == Dawn4() && FreshStack(Initial(4), 100) && InRange(Initial(4))
    ensures InRange(Dawn4()) && ShouldReschedule(Dawn4())
  {
    var s := Initial(4);
    assert FindDead(s, 1) == 1;
    var a := Admit(s, 1, Parent(Ready, 1));
    assert Unqueue(a, 1) == a;
    assert a.queues[2] + [1] == [1];
    assert MakeReady(a, 1).queues == Dawn4().queues;
    assert MakeReady(a, 1).procs == Dawn4().procs;
    NoStacks(s.procs[1..]);
    assert HighestUpTo(Dawn4(), 5) == HighestUpTo(Dawn4(), 4) == HighestUpTo(Dawn4(), 3) == 3;
  }

  lemma FirstDispatch()
    ensures InRange(Dawn4()) && Tick(Dawn4()) == Alone4()
  {
    var s := Dawn4();
    assert !Stays(s);
    var p := Preempt(s);
    assert p.procs == [Idle(0), Parent(Ready, 1), Free(), Free()];
    var b := AgeOne(p, 1);
    assert Queued(p, 1) && b == Set(p, 1, Parent(Ready, 1).(ticks := 1));
    assert AgeOne(b, 2) == b && AgeOne(b, 3) == b;
    assert AgeFrom(p, 1) == AgeFrom(b, 2) == AgeFrom(b, 3) == AgeFrom(b, 4) == b;
    assert HighestUpTo(b, 5) == HighestUpTo(b, 4) == HighestUpTo(b, 3) == 3;
    assert b.queues[2][1..] == [];
    assert Switch(b).queues == Alone4().queues;
    assert Switch(b).procs == Alone4().procs;
  }

  lemma SecondCall()
    ensures Create(Alone4(), 3, 200) == Pair4() && FreshStack(Alone4(), 200) && InRange(Alone4())
    ensures InRange(Pair4()) && !ShouldReschedule(Pair4())
  {
    var s := Alone4();
    assert FindDead(s, 1) == FindDead(s, 2) == 2;
    var a := Admit(s, 2, Child());
    assert Unqueue(a, 2) == a;
    assert a.queues[2] + [2] == [2];
    assert MakeReady(a, 2).queues == Pair4().queues;
    assert MakeReady(a, 2).procs == Pair4().procs;
    OneStack();
    assert HighestUpTo(Pair4(), 5) == HighestUpTo(Pair4(), 4) == HighestUpTo(Pair4(), 3) == 3;
  }

  lemma OneStack()
    ensures FreshStack(Alone4(), 200)
  {
    var r := Alone4().procs[1..];
    assert r[..2][..1] == [Parent(Running, 1)] && r[..2][1] == Free() && r[2] == Free();
    assert Stacks([Parent(Running, 1)]) == multiset{100};
    assert Stacks(r[..2]) == multiset{100};
  }

  lemma ThirdCall()
    ensures Create(Pair4(), 3, 300) == Family() && FreshStack(Pair4(), 300) && InRange(Pair4())
    ensures InRange(Family()) && !ShouldReschedule(Family())
  {
    var s := Pair4();
    assert FindDead(s, 1) == FindDead(s, 2) == FindDead(s, 3) == 3;
    var a := Admit(s, 3, Third());
    assert Unqueue(a, 3) == a;
    assert a.queues[2] + [3] == [2, 3];
    assert MakeReady(a, 3).queues == Family().queues;
    assert MakeReady(a, 3).procs == Family().procs;
    TwoStacks();
    assert HighestUpTo(Family(), 5) == HighestUpTo(Family(), 4) == HighestUpTo(Family(), 3) == 3;
  }

  lemma TwoStacks()
    ensures FreshStack(Pair4(), 300)
  {
    var r := Pair4().procs[1..];
    assert r[..2][..1] == [Parent(Running, 1)] && r[..2][1] == Child() && r[2] == Free();
    assert Stacks([Parent(Running, 1)]) == multiset{100};
    assert Stacks(r[..2]) == multiset{100} + multiset{200};
  }

  ghost function Start(): seq<Kernel> {
    [Kernel(Initial(4), map[]), Kernel(Alone4(), map[]), Kernel(Pair4(), map[]), Kernel(Family(), map[]),
     Kernel(Wait(Family(), 2), map[1 := InWait(2)])]
  }

  ghost predicate Goes(k: Kernel, e: Event, l: Kernel) {
    Enabled(k, e) && l == After(k, e)
  }

  lemma EmptyPruned(s: Sched)
    ensures Pruned(map[], s) == map[]
  {
  }

  lemma FirstEvent()
    ensures Goes(Start()[0], Events()[0], Start()[1])
  {
    hide Create, Tick, Initial, Dawn4, Alone4, FreshStack, InRange, Pruned, ShouldReschedule;
    FirstCall();
    FirstDispatch();
    EmptyPruned(Dawn4());
    InitialShape();
  }

  lemma InitialShape()
    ensures Shaped(Initial(4)) && Initial(4).cur == 0 && Shaped(Dawn4()) && Shaped(Alone4()) && Shaped(Pair4()) && Shaped(Family())
  {
  }

  lemma SecondEvent()
    ensures Goes(Start()[1], Events()[1], Start()[2])
  {
    hide Create, Tick, Initial, Alone4, Pair4, FreshStack, InRange, Pruned, ShouldReschedule;
    SecondCall();
    EmptyPruned(Pair4());
    InitialShape();
  }

  lemma ThirdEvent()
    ensures Goes(Start()[2], Events()[2], Start()[3])
  {
    hide Create, Tick, Initial, Pair4, Family, FreshStack, InRange, Pruned, ShouldReschedule;
    ThirdCall();
    EmptyPruned(Family());
    InitialShape();
  }

  lemma FourthEvent()
    ensures Goes(Start()[3], Events()[3], Start()[4])
    ensures WakesWaiter(Start()[4], 3, [1])
  {
    var s := Family();
    assert Find(s, 2, 0) == Find(s, 2, 1) == Find(s, 2, 2) == 2;
    var t := Wait(s, 2);
    assert Find(t, 2, 0) == Find(t, 2, 1) == Find(t, 2, 2) == 2;
    assert Find(t, 3, 0) == Find(t, 3, 1) == Find(t, 3, 2) == Find(t, 3, 3) == 3;
  }

  lemma StartRuns()
    ensures IsKernelRun(Start(), Events(), 4)
  {
    hide Goes, Initial, Alone4, Pair4, Family, Wait, WakesWaiter;
    FirstEvent();
    SecondEvent();
    ThirdEvent();
    FourthEvent();
    var ks, e := Start(), Events();
    GoesAreRun(ks, e, 4);
  }

  lemma GoesAreRun(ks: seq<Kernel>, events: seq<Event>, n: nat)
    requires n >= 2 && |ks| == |events| + 1 && ks[0] == Kernel(Initial(n), map[])
    requires forall k :: 0 <= k < |events| ==> Goes(ks[k], events[k], ks[k + 1])
    ensures IsKernelRun(ks, events, n)
  {
    hide Enabled, After, Initial;
    forall k | 0 <= k < |events| ensures Enabled(ks[k], events[k]) && ks[k + 1] == After(ks[k], events[k]) {
      assert Goes(ks[k], events[k], ks[k + 1]);
    }
  }

  /** The parent waits for its child, the keyboard kills another process, and closing that one's
      descriptors wakes the parent, which is still recorded on the semaphore of a pipe it has left:
      its loop then blocks it on its ready queue. */
  lemma KernelCanBreakQueues()
    ensures IsKernelRun(Start(), Events(), 4) && WakesWaiter(Start()[4], 3, [1])
    ensures Enabled(Start()[4], Keyboard(3, [1]))
    ensures var v := After(Start()[4], Keyboard(3, [1]));
            && Inv(v.s, {}, false) && Enabled(v, WaitAgain) && !Inv(After(v, WaitAgain).s, {}, false)
  {
    FourthEvent();
    StartRuns();
    hide WakesWaiter, Events, Inv, After, IsKernelRun;
    EventsAt();
    KernelRunKeeps(Start(), Events(), 4, 4);
    hide Start;
    WokenWaiterBreaksQueues(Start()[4], 3, [1]);
  }

  lemma EventsAt()
    ensures |Events()| == 4 && |Start()| == 5 && forall m :: 0 <= m < 4 ==> !Events()[m].Keyboard?
    ensures Enabled(Start()[4], Keyboard(3, [1]))
  {
  }
}

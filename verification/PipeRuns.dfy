/** Runs that show why the conditions on pipes are there. */
module PipeRuns {
  import opened SemSpec
  import opened PipeSpec
  import opened PipeInv
  import opened PipeFlow

  const NEW := Task([NoEnd], Outside)
  const READER := Task([End(Rd)], Outside)
  const WRITER := Task([End(Wr)], Outside)

  /** A slot nobody has used. */
  ghost function Nothing(): World {
    World(false, [], 1, Both(0, 0), Both(0, 0), Both(Sem(0, []), Sem(0, [])), [], [], map[], map[])
  }

  lemma SpawnIs(w: World, p: int)
    requires p !in w.tasks && p !in w.procs
    ensures Possible(w, Spawn(p, 1, 0))
    ensures Advance(w, Spawn(p, 1, 0), 3) == w.(tasks := w.tasks[p := NEW], procs := w.procs[p := View(false, 0)])
  {
    assert seq(1, _ => NoEnd) == [NoEnd];
  }

  /** A process that is awake and not recorded falls asleep on a semaphore without events. */
  lemma SleepOnEmpty(s: Sem, procs: Procs, p: int)
    requires s.value <= 0 && |s.queue| < 3 && !Recorded(s.queue, p)
    ensures SleepOn(s, procs, p, 3) == (Sem(s.value - 1, s.queue + [Waiter(p, 0)]), PutToSleep(procs, p), Slept)
  {
    hide Without, Recorded, PutToSleep;
    WithoutUnchanged(s.queue, p);
  }

  // ---------------------------------------------------------------- a lost wake-up

  /** A pipe of capacity 2, readers 1 and 2 and writer 3; `x` and `y` tell whether the readers are blocked. */
  ghost function Trio(ends: Both<nat>, reserved: Both<nat>, data: Sem, a: Task, b: Task, c: Task, x: bool, y: bool): World {
    World(true, [], 2, ends, reserved, Both(data, Sem(0, [])), [], [],
          map[1 := a, 2 := b, 3 := c], map[1 := View(x, 0), 2 := View(y, 0), 3 := View(false, 0)])
  }

  ghost function Inside(t: Task, s: Side, waited: bool): Task {
    t.(op := In(s, waited))
  }

  /** From one world to the next by a disciplined step that settles what is owed. */
  ghost predicate Leads(w: World, step: Step, v: World) {
    Enabled(w, step) && Settles(w, step) && v == Advance(w, step, 3) && w.tasks.Keys <= {1, 2, 3}
  }

  ghost function W3(): World {
    Trio(Both(0, 0), Both(0, 0), Sem(0, []), NEW, NEW, NEW, false, false).(active := false, capacity := 1)
  }

  ghost function W1(): World {
    Nothing().(tasks := map[1 := NEW], procs := map[1 := View(false, 0)])
  }

  ghost function W2(): World {
    Nothing().(tasks := map[1 := NEW, 2 := NEW], procs := map[1 := View(false, 0), 2 := View(false, 0)])
  }

  ghost function W4(): World { Trio(Both(1, 1), Both(1, 1), Sem(0, []), NEW, NEW, NEW, false, false) }

  ghost function W5(): World { Trio(Both(1, 1), Both(0, 1), Sem(0, []), READER, NEW, NEW, false, false) }

  ghost function W6(): World { Trio(Both(2, 1), Both(0, 1), Sem(0, []), READER, READER, NEW, false, false) }

  ghost function W7(): World { Trio(Both(2, 1), Both(0, 0), Sem(0, []), READER, READER, WRITER, false, false) }

  ghost function W8(): World {
    Trio(Both(2, 1), Both(0, 0), Sem(0, []), Inside(READER, Rd, false), READER, WRITER, false, false)
  }

  ghost function W9(): World {
    Trio(Both(2, 1), Both(0, 0), Sem(-1, [Waiter(1, 0)]), Inside(READER, Rd, true), READER, WRITER, true, false)
  }

  ghost function W10(): World {
    Trio(Both(2, 1), Both(0, 0), Sem(-1, [Waiter(1, 0)]), Inside(READER, Rd, true), Inside(READER, Rd, false), WRITER, true, false)
  }

  ghost function Two(): Sem { Sem(-2, [Waiter(1, 0), Waiter(2, 0)]) }

  ghost function W11(): World {
    Trio(Both(2, 1), Both(0, 0), Two(), Inside(READER, Rd, true), Inside(READER, Rd, true), WRITER, true, true)
  }

  /** Reader 1 has lost its end and sleeps on. */
  ghost function W12(): World {
    Trio(Both(1, 1), Both(0, 0), Two(), Inside(NEW, Rd, true), Inside(READER, Rd, true), WRITER, true, true)
  }

  ghost function W13(): World {
    Trio(Both(1, 1), Both(0, 0), Two(), Inside(NEW, Rd, true), Inside(READER, Rd, true), Inside(WRITER, Wr, false), true, true)
  }

  /** A byte has arrived and reader 1 was woken for it. */
  ghost function W14(): World {
    Trio(Both(1, 1), Both(0, 0), Sem(-1, [Waiter(2, 1)]), Inside(NEW, Rd, true), Inside(READER, Rd, true), WRITER, false, true)
      .(ring := [7], accepted := [7])
  }

  ghost function W15(): World {
    Trio(Both(1, 1), Both(0, 0), Sem(-1, [Waiter(2, 1)]), NEW.(op := Dying(Both(true, false))), Inside(READER, Rd, true), WRITER, false, true)
      .(ring := [7], accepted := [7])
  }

  lemma Spawns()
    ensures Leads(Nothing(), Spawn(1, 1, 0), W1()) && Leads(W1(), Spawn(2, 1, 0), W2()) && Leads(W2(), Spawn(3, 1, 0), W3())
  {
    hide Advance;
    SpawnIs(Nothing(), 1);
    assert Nothing().tasks[1 := NEW] == W1().tasks && Nothing().procs[1 := View(false, 0)] == W1().procs;
    SpawnIs(W1(), 2);
    assert W1().tasks[2 := NEW] == W2().tasks && W1().procs[2 := View(false, 0)] == W2().procs;
    SpawnIs(W2(), 3);
    assert W2().tasks[3 := NEW] == W3().tasks && W2().procs[3 := View(false, 0)] == W3().procs;
  }

  lemma Opens()
    ensures Leads(W3(), Open(2), W4())
  {
  }

  lemma AttachFirst()
    ensures Leads(W4(), SetFd(1, 0, Rd), W5())
  {
    assert NEW.fds[0 := End(Rd)] == READER.fds;
    assert Advance(W4(), SetFd(1, 0, Rd), 3).tasks == W5().tasks;
  }

  lemma AttachSecond()
    ensures Leads(W5(), SetFd(2, 0, Rd), W6())
  {
    assert NEW.fds[0 := End(Rd)] == READER.fds;
    assert Advance(W5(), SetFd(2, 0, Rd), 3).tasks == W6().tasks;
  }

  lemma AttachWriter()
    ensures Leads(W6(), SetFd(3, 0, Wr), W7())
  {
    assert NEW.fds[0 := End(Wr)] == WRITER.fds;
    assert Advance(W6(), SetFd(3, 0, Wr), 3).tasks == W7().tasks;
  }

  lemma FirstBegins()
    ensures Leads(W7(), Begin(1, 0), W8())
  {
    assert Advance(W7(), Begin(1, 0), 3).tasks == W8().tasks;
  }

  lemma FirstSleeps()
    ensures Leads(W8(), Turn(1, 0, false), W9())
  {
    SleepOnEmpty(Sem(0, []), W8().procs, 1);
    hide SleepOn;
    var v := Advance(W8(), Turn(1, 0, false), 3);
    assert [] + [Waiter(1, 0)] == [Waiter(1, 0)];
    assert v.tasks == W9().tasks && v.procs == W9().procs;
  }

  lemma SecondBegins()
    ensures Leads(W9(), Begin(2, 0), W10())
  {
    assert Advance(W9(), Begin(2, 0), 3).tasks == W10().tasks;
  }

  lemma SecondSleeps()
    ensures Leads(W10(), Turn(2, 0, false), W11())
  {
    SleepOnEmpty(Sem(-1, [Waiter(1, 0)]), W10().procs, 2);
    hide SleepOn;
    var v := Advance(W10(), Turn(2, 0, false), 3);
    assert [Waiter(1, 0)] + [Waiter(2, 0)] == Two().queue;
    assert v.tasks == W11().tasks && v.procs == W11().procs;
  }

  lemma FirstLosesItsEnd()
    ensures Leads(W11(), Redirect(1, 0), W12())
  {
    hide Post, PostAll;
    assert READER.fds[0 := NoEnd] == NEW.fds;
    assert Advance(W11(), Redirect(1, 0), 3).tasks == W12().tasks;
  }

  lemma WriterBegins()
    ensures Leads(W12(), Begin(3, 0), W13())
  {
    assert Advance(W12(), Begin(3, 0), 3).tasks == W13().tasks;
  }

  lemma PostWakesFirst(procs: Procs)
    requires procs == W13().procs
    ensures Post(Two(), procs) == (Sem(-1, [Waiter(2, 1)]), WakeUp(procs, 1))
  {
    var q := Two().queue;
    assert BestUpTo(q, procs, 0) == -1;
    assert BestUpTo(q, procs, 1) == 0;
    assert BestUpTo(q, procs, 2) == 0;
    var r := AgeExcept(q, 0);
    assert Dequeue(r, 0) == [Waiter(2, 1)];
  }

  lemma ByteArrives()
    ensures Leads(W13(), Turn(3, 7, false), W14())
  {
    PostWakesFirst(W13().procs);
    hide Post;
    var v := Advance(W13(), Turn(3, 7, false), 3);
    assert [] + [7 as Byte] == [7];
    assert v.tasks == W14().tasks && v.procs == W14().procs;
  }

  lemma FirstIsKilled()
    ensures Leads(W14(), BeginKill(1), W15())
  {
    var q := [Waiter(2, 1)];
    assert !Recorded(q, 1) && !Recorded([], 1);
    WithoutUnchanged(q, 1);
    WithoutUnchanged([], 1);
    hide Without, Recorded;
    assert RemovePid(W14().sems.rd, 1) == W14().sems.rd && RemovePid(W14().sems.wr, 1) == W14().sems.wr;
    hide RemovePid;
    assert Advance(W14(), BeginKill(1), 3).tasks == W15().tasks;
  }

  ghost function Worlds(): seq<World> {
    [Nothing(), W1(), W2(), W3(), W4(), W5(), W6(), W7(), W8(), W9(), W10(), W11(), W12(), W13(), W14(), W15()]
  }

  ghost function Steps(): seq<Step> {
    [Spawn(1, 1, 0), Spawn(2, 1, 0), Spawn(3, 1, 0), Open(2), SetFd(1, 0, Rd), SetFd(2, 0, Rd), SetFd(3, 0, Wr),
     Begin(1, 0), Turn(1, 0, false), Begin(2, 0), Turn(2, 0, false), Redirect(1, 0), Begin(3, 0), Turn(3, 7, false), BeginKill(1)]
  }

  lemma SmallTable(w: World)
    requires w.tasks.Keys <= {1, 2, 3}
    ensures |w.tasks| <= 3
  {
    var rest := {1, 2, 3} - w.tasks.Keys;
    assert {1, 2, 3} == w.tasks.Keys + rest && |w.tasks.Keys| + |rest| == 3;
  }

  lemma LeadsAreRun(worlds: seq<World>, steps: seq<Step>)
    requires |worlds| == |steps| + 1 && Initial(worlds[0]) && worlds[|steps|].tasks.Keys <= {1, 2, 3}
    requires forall k :: 0 <= k < |steps| ==> Leads(worlds[k], steps[k], worlds[k + 1])
    ensures IsRun(worlds, steps, 3)
  {
    forall k | 0 <= k < |worlds| ensures |worlds[k].tasks| <= 3 {
      assert k < |steps| ==> Leads(worlds[k], steps[k], worlds[k + 1]);
      SmallTable(worlds[k]);
    }
    hide Possible, Disciplined, Settles, Advance;
    forall k | 0 <= k < |steps|
      ensures Enabled(worlds[k], steps[k]) && Settles(worlds[k], steps[k]) && worlds[k + 1] == Advance(worlds[k], steps[k], 3)
    {
      assert Leads(worlds[k], steps[k], worlds[k + 1]);
    }
  }

  lemma EachLeads(k: nat)
    requires k < 15
    ensures Leads(Worlds()[k], Steps()[k], Worlds()[k + 1])
  {
    hide Leads, Nothing, W1, W2, W3, W4, W5, W6, W7, W8, W9, W10, W11, W12, W13, W14, W15;
    Spawns();
    Opens();
    AttachFirst();
    AttachSecond();
    AttachWriter();
    FirstBegins();
    FirstSleeps();
    SecondBegins();
    SecondSleeps();
    FirstLosesItsEnd();
    WriterBegins();
    ByteArrives();
    FirstIsKilled();
  }

  /** Reader 1 sleeps in the pipe, loses its end, is woken for a byte and killed before it runs. Its
      teardown closes no end of this pipe, so the wake-up goes nowhere: reader 2 sleeps on with a
      byte in the ring and no wake-up under way. */
  lemma WakeUpCanBeLost()
    ensures IsRun(Worlds(), Steps(), 3) && Worlds()[15] == W15()
    ensures Enabled(W15(), Finish(1)) && !Settles(W15(), Finish(1))
    ensures var v := Advance(W15(), Finish(1), 3);
            Recorded(v.sems.rd.queue, 2) && Room(v, Rd) == 1 && Pending(v, Rd) == {}
  {
    forall k | 0 <= k < 15 ensures Leads(Worlds()[k], Steps()[k], Worlds()[k + 1]) { EachLeads(k); }
    assert Initial(Worlds()[0]);
    LastStep();
    hide Leads, Worlds, Steps, W15, Settles, Enabled, Advance, Recorded, Pending;
    ScenarioSize();
    LeadsAreRun(Worlds(), Steps());
  }

  lemma ScenarioSize()
    ensures |Worlds()| == 16 && |Steps()| == 15 && Worlds()[15] == W15() && W15().tasks.Keys <= {1, 2, 3}
  {
  }

  lemma LastStep()
    ensures Enabled(W15(), Finish(1)) && !Settles(W15(), Finish(1))
    ensures var v := Advance(W15(), Finish(1), 3);
            Recorded(v.sems.rd.queue, 2) && Room(v, Rd) == 1 && Pending(v, Rd) == {}
  {
    var w, v := W15(), Advance(W15(), Finish(1), 3);
    assert w.sems.rd.queue[0].pid == 2;
    assert Pending(w, Rd) - {1} == {} && Pending(v, Rd) == {};
  }

  // ---------------------------------------------------------------- a reader that outlives the slot

  /** A pipe of capacity 1 with reader 1 and writer 2. */
  ghost function Duo(active: bool, ends: Both<nat>, reserved: Both<nat>, a: Task, b: Task): World {
    World(active, [], 1, ends, reserved, Both(Sem(0, []), Sem(0, [])), [], [],
          map[1 := a, 2 := b], map[1 := View(false, 0), 2 := View(false, 0)])
  }

  ghost predicate Flows(w: World, step: Step, v: World) {
    Possible(w, step) && DropsReserved(w, step) && v == Advance(w, step, 3)
  }

  ghost function D3(): World { Duo(true, Both(1, 1), Both(1, 1), NEW, NEW) }

  ghost function D4(): World { Duo(true, Both(1, 1), Both(0, 1), READER, NEW) }

  ghost function D5(): World { Duo(true, Both(1, 1), Both(0, 0), READER, WRITER) }

  ghost function D6(): World { Duo(true, Both(1, 1), Both(0, 0), Inside(READER, Rd, false), WRITER) }

  ghost function D7(): World { Duo(true, Both(0, 1), Both(0, 0), Inside(NEW, Rd, false), WRITER) }

  /** The slot is free, and process 1 is still inside pipe_read. */
  ghost function D8(): World { Duo(false, Both(0, 0), Both(0, 0), Inside(NEW, Rd, false), NEW) }

  ghost function D9(): World { Duo(true, Both(1, 1), Both(1, 1), Inside(NEW, Rd, false), NEW) }

  ghost function D10(): World { Duo(true, Both(1, 1), Both(1, 0), Inside(NEW, Rd, false), WRITER) }

  ghost function D11(): World { Duo(true, Both(1, 1), Both(1, 0), Inside(NEW, Rd, false), Inside(WRITER, Wr, false)) }

  /** A byte is written to the new pipe, whose reader has not attached yet. */
  ghost function D12(): World {
    D10().(ring := [7], accepted := [7], sems := Both(Sem(1, []), Sem(0, [])))
  }

  ghost function D13(): World {
    Duo(true, Both(1, 1), Both(1, 0), NEW, WRITER).(accepted := [7], delivered := [7], sems := Both(Sem(1, []), Sem(1, [])))
  }

  lemma DuoSpawns()
    ensures Flows(Nothing(), Spawn(1, 1, 0), W1()) && Flows(W1(), Spawn(2, 1, 0), W2()) && Flows(W2(), Open(1), D3())
  {
    Spawns();
  }

  lemma DuoAttaches()
    ensures Flows(D3(), SetFd(1, 0, Rd), D4()) && Flows(D4(), SetFd(2, 0, Wr), D5())
  {
    assert NEW.fds[0 := End(Rd)] == READER.fds && NEW.fds[0 := End(Wr)] == WRITER.fds;
    assert Advance(D3(), SetFd(1, 0, Rd), 3).tasks == D4().tasks;
    assert Advance(D4(), SetFd(2, 0, Wr), 3).tasks == D5().tasks;
  }

  lemma DuoBegins()
    ensures Flows(D5(), Begin(1, 0), D6())
  {
    assert Advance(D5(), Begin(1, 0), 3).tasks == D6().tasks;
  }

  lemma ReaderLosesItsEnd()
    ensures Flows(D6(), Redirect(1, 0), D7())
  {
    assert READER.fds[0 := NoEnd] == NEW.fds;
    assert Advance(D6(), Redirect(1, 0), 3).tasks == D7().tasks;
  }

  lemma WriterLosesItsEnd()
    ensures Flows(D7(), Redirect(2, 0), D8())
  {
    assert WRITER.fds[0 := NoEnd] == NEW.fds;
    assert Advance(D7(), Redirect(2, 0), 3).tasks == D8().tasks;
  }

  lemma SlotIsReopened()
    ensures Flows(D8(), Open(1), D9()) && Flows(D9(), SetFd(2, 0, Wr), D10())
  {
    assert NEW.fds[0 := End(Wr)] == WRITER.fds;
    assert Advance(D9(), SetFd(2, 0, Wr), 3).tasks == D10().tasks;
  }

  lemma NewByte()
    ensures Flows(D10(), Begin(2, 0), D11()) && Flows(D11(), Turn(2, 7, false), D12())
  {
    assert Advance(D10(), Begin(2, 0), 3).tasks == D11().tasks;
    assert [] + [7 as Byte] == [7];
    assert Advance(D11(), Turn(2, 7, false), 3).tasks == D12().tasks;
  }

  lemma OldReaderTakesIt()
    ensures Flows(D12(), Turn(1, 0, false), D13())
  {
    assert [] + [7 as Byte] == [7] && [7 as Byte][1..] == [];
    assert Advance(D12(), Turn(1, 0, false), 3).tasks == D13().tasks;
  }

  ghost function Flow(): seq<World> {
    [Nothing(), W1(), W2(), D3(), D4(), D5(), D6(), D7(), D8(), D9(), D10(), D11(), D12(), D13()]
  }

  ghost function FlowSteps(): seq<Step> {
    [Spawn(1, 1, 0), Spawn(2, 1, 0), Open(1), SetFd(1, 0, Rd), SetFd(2, 0, Wr), Begin(1, 0), Redirect(1, 0), Redirect(2, 0),
     Open(1), SetFd(2, 0, Wr), Begin(2, 0), Turn(2, 7, false), Turn(1, 0, false)]
  }

  lemma EachFlows(k: nat)
    requires k < 13
    ensures Flows(Flow()[k], FlowSteps()[k], Flow()[k + 1])
  {
    hide Flows, Nothing, W1, W2, D3, D4, D5, D6, D7, D8, D9, D10, D11, D12, D13;
    DuoSpawns();
    DuoAttaches();
    DuoBegins();
    ReaderLosesItsEnd();
    WriterLosesItsEnd();
    SlotIsReopened();
    NewByte();
    OldReaderTakesIt();
  }

  lemma FlowsAreFlow(worlds: seq<World>, steps: seq<Step>)
    requires |worlds| == |steps| + 1 && Initial(worlds[0])
    requires forall k :: 0 <= k < |steps| ==> Flows(worlds[k], steps[k], worlds[k + 1])
    ensures IsFlow(worlds, steps, 3) && forall k :: 0 <= k < |steps| ==> DropsReserved(worlds[k], steps[k])
  {
    hide Possible, Advance, DropsReserved;
    forall k | 0 <= k < |steps|
      ensures Possible(worlds[k], steps[k]) && DropsReserved(worlds[k], steps[k]) && worlds[k + 1] == Advance(worlds[k], steps[k], 3)
    {
      assert Flows(worlds[k], steps[k], worlds[k + 1]);
    }
  }

  /** A process that lost its end inside pipe_read outlives the slot and takes a byte from the pipe
      opened there next, although the reader's end of that pipe is still reserved. */
  lemma OldReaderCanSteal()
    ensures IsFlow(Flow(), FlowSteps(), 3) && forall k :: 0 <= k < 13 ==> DropsReserved(Flow()[k], FlowSteps()[k])
    ensures var v, w := Flow()[12], Flow()[13];
            v.active && w.active && v.reserved.rd > 0 && w.reserved.rd > 0 && v.ring == [7] && w.ring == [] && !NoReaders(v)
  {
    forall k | 0 <= k < 13 ensures Flows(Flow()[k], FlowSteps()[k], Flow()[k + 1]) { EachFlows(k); }
    assert Initial(Flow()[0]);
    assert D12().tasks[1].op == In(Rd, false);
    assert |Flow()| == 14 && |FlowSteps()| == 13 && Flow()[12] == D12() && Flow()[13] == D13();
    hide Flows, Flow, FlowSteps, DropsReserved;
    FlowsAreFlow(Flow(), FlowSteps());
  }

  // ---------------------------------------------------------------- an entry that stays behind

  /** Reader 1, asleep in the pipe, is unblocked by another process. */
  ghost function S12(): World {
    Trio(Both(2, 1), Both(0, 0), Two(), Inside(READER, Rd, true), Inside(READER, Rd, true), WRITER, false, true)
  }

  ghost function S13(): World {
    Trio(Both(2, 1), Both(0, 0), Two(), Inside(READER, Rd, true), Inside(READER, Rd, true), Inside(WRITER, Wr, false), false, true)
  }

  ghost function Stale(): Sem { Sem(-1, [Waiter(1, 1)]) }

  /** A byte has arrived and reader 2 was woken for it. */
  ghost function S14(): World {
    Trio(Both(2, 1), Both(0, 0), Stale(), Inside(READER, Rd, true), Inside(READER, Rd, true), WRITER, false, false)
      .(ring := [7], accepted := [7])
  }

  /** Reader 1 ran first, took the byte and left; `x` tells whether it is blocked. */
  ghost function Left(c: Task, x: bool): World {
    Trio(Both(2, 1), Both(0, 0), Stale(), READER, Inside(READER, Rd, true), c, x, false)
      .(accepted := [7], delivered := [7], sems := Both(Stale(), Sem(1, [])))
  }

  ghost function S17(): World { Left(WRITER.(op := Dying(Both(false, false))), true) }

  lemma OutsiderUnblocks()
    ensures Flows(W11(), Elsewhere(1, View(false, 0)), S12()) && Waiting(W11(), 1)
  {
    assert W11().sems.rd.queue[0].pid == 1;
    assert W11().procs[1 := View(false, 0)] == S12().procs;
  }

  lemma WriterBeginsLate()
    ensures Flows(S12(), Begin(3, 0), S13())
  {
    assert Advance(S12(), Begin(3, 0), 3).tasks == S13().tasks;
  }

  lemma PostWakesSecond(procs: Procs)
    requires procs == S13().procs
    ensures Post(Two(), procs) == (Stale(), WakeUp(procs, 2))
  {
    var q := Two().queue;
    assert BestUpTo(q, procs, 0) == -1;
    assert BestUpTo(q, procs, 1) == -1;
    assert BestUpTo(q, procs, 2) == 1;
    var r := AgeExcept(q, 1);
    assert Dequeue(r, 1) == [Waiter(1, 1)];
  }

  lemma ByteArrivesForSecond()
    ensures Flows(S13(), Turn(3, 7, false), S14())
  {
    PostWakesSecond(S13().procs);
    hide Post;
    var v := Advance(S13(), Turn(3, 7, false), 3);
    assert [] + [7 as Byte] == [7];
    assert v.tasks == S14().tasks && v.procs == S14().procs;
  }

  lemma FirstTakesIt()
    ensures Flows(S14(), Turn(1, 0, false), Left(WRITER, false))
  {
    assert [] + [7 as Byte] == [7] && [7 as Byte][1..] == [];
    assert Advance(S14(), Turn(1, 0, false), 3).tasks == Left(WRITER, false).tasks;
  }

  lemma FirstSleepsElsewhere()
    ensures Flows(Left(WRITER, false), Elsewhere(1, View(true, 0)), Left(WRITER, true))
  {
    assert Left(WRITER, false).procs[1 := View(true, 0)] == Left(WRITER, true).procs;
  }

  lemma WriterIsKilled()
    ensures Flows(Left(WRITER, true), BeginKill(3), S17())
  {
    var w, q := Left(WRITER, true), Stale().queue;
    assert !Recorded(q, 3) && !Recorded([], 3);
    WithoutUnchanged(q, 3);
    WithoutUnchanged([], 3);
    hide Without, Recorded;
    assert RemovePid(w.sems.rd, 3) == w.sems.rd && RemovePid(w.sems.wr, 3) == w.sems.wr;
    hide RemovePid;
    assert Advance(w, BeginKill(3), 3).tasks == S17().tasks;
  }

  ghost function Tail(): seq<World> {
    [W11(), S12(), S13(), S14(), Left(WRITER, false), Left(WRITER, true), S17()]
  }

  ghost function TailSteps(): seq<Step> {
    [Elsewhere(1, View(false, 0)), Begin(3, 0), Turn(3, 7, false), Turn(1, 0, false), Elsewhere(1, View(true, 0)), BeginKill(3)]
  }

  ghost function StaleWorlds(): seq<World> {
    Worlds()[..11] + Tail()
  }

  ghost function StaleSteps(): seq<Step> {
    Steps()[..11] + TailSteps()
  }

  lemma StaleAt(k: nat)
    requires k < 17
    ensures |StaleWorlds()| == 18 && |StaleSteps()| == 17 && StaleWorlds()[0] == Nothing() && StaleWorlds()[17] == S17()
    ensures k < 11 ==> StaleWorlds()[k] == Worlds()[k] && StaleWorlds()[k + 1] == Worlds()[k + 1] && StaleSteps()[k] == Steps()[k]
    ensures k >= 11 ==> StaleWorlds()[k] == Tail()[k - 11] && StaleWorlds()[k + 1] == Tail()[k - 10] && StaleSteps()[k] == TailSteps()[k - 11]
  {
    hide Nothing, W1, W2, W3, W4, W5, W6, W7, W8, W9, W10, W11, W12, W13, W14, W15, S12, S13, S14, Left, S17;
  }

  lemma TailFlows(k: nat)
    requires k < 6
    ensures Flows(Tail()[k], TailSteps()[k], Tail()[k + 1])
  {
    hide Flows, W11, S12, S13, S14, Left, S17;
    OutsiderUnblocks();
    WriterBeginsLate();
    ByteArrivesForSecond();
    FirstTakesIt();
    FirstSleepsElsewhere();
    WriterIsKilled();
  }

  lemma EachStale(k: nat)
    requires k < 17
    ensures Flows(StaleWorlds()[k], StaleSteps()[k], StaleWorlds()[k + 1])
  {
    hide Worlds, Steps, Tail, TailSteps, StaleWorlds, StaleSteps, Possible, Advance;
    StaleAt(k);
    if k < 11 {
      ScenarioSize();
      EachLeads(k);
    } else {
      TailSize();
      TailFlows(k - 11);
    }
  }

  lemma TailSize()
    ensures |Tail()| == 7 && |TailSteps()| == 6
  {
  }

  lemma LastEndCloses()
    ensures S17().tasks[1].op == Outside && Recorded(S17().sems.rd.queue, 1) && Sleeps(S17().procs, 1)
    ensures Possible(S17(), CloseOne(3, 0)) && !Sleeps(Advance(S17(), CloseOne(3, 0), 3).procs, 1)
  {
    assert S17().sems.rd.queue[0].pid == 1;
    var ps := S17().procs;
    assert BestUpTo(Stale().queue, ps, 0) == -1 && BestUpTo(Stale().queue, ps, 1) == 0;
    assert Dequeue(AgeExcept(Stale().queue, 0), 0) == [];
    assert Drain(Stale(), ps) == (Sem(0, []), WakeUp(ps, 1));
  }

  /** A sleeping reader that another process unblocks can take its byte and leave with its entry
      still on the semaphore. Closing the last write end then wakes it wherever it sleeps. */
  lemma StaleEntryWakesOutsider()
    ensures IsFlow(StaleWorlds(), StaleSteps(), 3) && |StaleSteps()| == 17 && StaleWorlds()[17] == S17()
    ensures S17().tasks[1].op == Outside && Recorded(S17().sems.rd.queue, 1) && Sleeps(S17().procs, 1)
    ensures Possible(S17(), CloseOne(3, 0)) && !Sleeps(Advance(S17(), CloseOne(3, 0), 3).procs, 1)
  {
    hide Flows, StaleWorlds, StaleSteps, Advance, Possible, S17, Recorded;
    LastEndCloses();
    assert Initial(Nothing());
    StaleAt(0);
    forall k | 0 <= k < 17 ensures Flows(StaleWorlds()[k], StaleSteps()[k], StaleWorlds()[k + 1]) { EachStale(k); }
    FlowsAreFlow(StaleWorlds(), StaleSteps());
  }
}

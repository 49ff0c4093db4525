/** What a tick does: whom it dispatches, what becomes of the process it preempts, and how
    everybody else ages, all read off the state before. */
module SchedTick {
  import opened Seqs
  import opened SchedSpec
  import opened SchedInv
  import opened SchedFair
  import opened SchedEffect

  /** Slot i takes part in the next dispatch: it is ready, or running and about to be preempted. */
  ghost predicate Competes(s: Sched, i: int)
    requires Shaped(s)
  {
    0 < i < |s.procs| && (s.procs[i].status == Ready || (s.procs[i].status == Running && i == s.cur))
  }

  /** A ready process that has now waited 6 ticks at a priority below 5. */
  ghost predicate Promoted(s: Sched, i: int) {
    0 < i < |s.procs| && s.procs[i].status == Ready && s.procs[i].ticks + 1 >= 6 && s.procs[i].eff < 5
  }

  /** A process that competes and is not dispatched. */
  ghost function Passed(s: Sched, i: int): Proc
    requires 0 <= i < |s.procs|
  {
    var p := s.procs[i];
    if p.status == Running then p.(status := Ready, eff := p.prio, ticks := 1, quantum := 1)
    else if Promoted(s, i) then p.(eff := p.eff + 1, ticks := 0)
    else p.(ticks := p.ticks + 1)
  }

  /** x comes before y among those of equal effective priority: first those that were in that queue
      already, in order, then the preempted process, then the promoted ones by slot. */
  ghost predicate Precedes(s: Sched, x: int, y: int)
    requires Shaped(s) && 0 < x < |s.procs| && 0 < y < |s.procs|
  {
    if Promoted(s, x) then Promoted(s, y) && x < y
    else if Promoted(s, y) then true
    else if s.procs[x].status == Running then false
    else if s.procs[y].status == Running then true
    else Before(s.queues[Level(s.procs[x].eff)], x, y)
  }

  /** The queue of a priority holds the ready slots of that effective priority. */
  lemma InQueueIff(s: Sched, l: nat, x: int)
    requires Inv(s, {}, false) && l < LEVELS
    ensures x in s.queues[l] <==> 0 < x < |s.procs| && s.procs[x].status == Ready && s.procs[x].eff == l + 1
  {
    if 0 < x < |s.procs| { SlotFacts(s, x, {}, false); }
  }

  // ---------------------------------------------------------------- the aging pass

  lemma AgeOneTable(s: Sched, i: int)
    requires Inv(s, {}, false) && 0 < i < |s.procs|
    ensures AgeOne(s, i) == s.(procs := s.procs[i := if s.procs[i].status == Ready then Passed(s, i) else s.procs[i]], queues := AgeOne(s, i).queues)
    ensures InLine(s, AgeOne(s, i), if Promoted(s, i) then {i} else {})
  {
    SlotFacts(s, i, {}, false);
    if Promoted(s, i) {
      UnqueueQ(s, i, {}, false);
      assert AllDistinct(s);
      hide Inv, InLine;
      RequeueInLine(s, i, Passed(s, i));
    } else {
      hide Inv, Before;
    }
  }

  /** Every slot from i on ages exactly once. */
  lemma {:induction false} AgeFromTable(s: Sched, i: nat)
    requires Inv(s, {}, false) && 0 < i <= |s.procs|
    ensures var a := AgeFrom(s, i);
            && Inv(a, {}, false) && a == s.(procs := a.procs, queues := a.queues) && |a.procs| == |s.procs|
            && (forall j :: 0 <= j < |s.procs| ==> a.procs[j] == if j >= i && s.procs[j].status == Ready then Passed(s, j) else s.procs[j])
    decreases |s.procs| - i
  {
    hide QInv, PInv, Ledger, AgeOne, InLine;
    if i < |s.procs| {
      AgeOneTable(s, i);
      AgeOneKeeps(s, i, false);
      AgeFromTable(AgeOne(s, i), i + 1);
    }
  }

  /** Slots from i on that the pass promotes. */
  ghost predicate Jumps(s: Sched, i: nat, j: int) {
    j >= i && Promoted(s, j)
  }

  ghost predicate InAgedOrder(s: Sched, i: nat, l: nat, x: int, y: int)
    requires Shaped(s) && l < LEVELS
  {
    if Jumps(s, i, x) then Jumps(s, i, y) && x < y else Jumps(s, i, y) || Before(s.queues[l], x, y)
  }

  lemma StaysPut(s: Sched, i: nat, l: nat, x: int)
    requires Inv(s, {}, false) && 0 < i <= |s.procs| && l < LEVELS && x in AgeFrom(s, i).queues[l] && !Jumps(s, i, x)
    ensures x in s.queues[l]
  {
    hide QInv, PInv, Ledger, AgeFrom;
    AgeFromTable(s, i);
    InQueueIff(AgeFrom(s, i), l, x);
    InQueueIff(s, l, x);
  }

  lemma {:induction false} AgeFromOrder(s: Sched, i: nat, l: nat, x: int, y: int)
    requires Inv(s, {}, false) && 0 < i <= |s.procs| && l < LEVELS && x != y
    requires x in AgeFrom(s, i).queues[l] && y in AgeFrom(s, i).queues[l]
    ensures Before(AgeFrom(s, i).queues[l], x, y) <==> InAgedOrder(s, i, l, x, y)
    decreases |s.procs| - i
  {
    hide QInv, PInv, Ledger, AgeOne, Before, InLine, InAgedOrder;
    if i < |s.procs| {
      var b := AgeOne(s, i);
      AgeOneKeeps(s, i, false);
      AgeOneTable(s, i);
      AgeFromOrder(b, i + 1, l, x, y);
      if !Jumps(b, i + 1, x) { StaysPut(b, i + 1, l, x); }
      if !Jumps(b, i + 1, y) { StaysPut(b, i + 1, l, y); }
      AgedOrderStep(s, b, i, l, x, y);
    } else {
      AtEnd(s, i, l, x, y);
    }
  }

  lemma AtEnd(s: Sched, i: nat, l: nat, x: int, y: int)
    requires Shaped(s) && i == |s.procs| && l < LEVELS
    ensures InAgedOrder(s, i, l, x, y) <==> Before(s.queues[l], x, y)
  {
    hide Before;
  }

  lemma AgedOrderStep(s: Sched, b: Sched, i: nat, l: nat, x: int, y: int)
    requires Shaped(s) && Shaped(b) && 0 < i < |s.procs| && l < LEVELS && x != y && |b.procs| == |s.procs|
    requires forall j :: 0 <= j < |s.procs| && j != i ==> b.procs[j] == s.procs[j]
    requires InLine(s, b, if Promoted(s, i) then {i} else {})
    requires !Jumps(b, i + 1, x) ==> x in b.queues[l]
    requires !Jumps(b, i + 1, y) ==> y in b.queues[l]
    ensures InAgedOrder(b, i + 1, l, x, y) <==> InAgedOrder(s, i, l, x, y)
  {
    var moved := if Promoted(s, i) then {i} else {};
    if x in b.queues[l] && y in b.queues[l] {
      assert x !in moved ==> (Before(b.queues[l], x, y) <==> y in moved || Before(s.queues[l], x, y));
      assert y !in moved ==> (Before(b.queues[l], y, x) <==> x in moved || Before(s.queues[l], y, x));
      assert !(Before(b.queues[l], x, y) && Before(b.queues[l], y, x));
    }
    hide InLine, Before;
  }

  // ---------------------------------------------------------------- the state that is aged

  lemma PreemptRises(s: Sched)
    requires Inv(s, {}, false) && s.cur > 0 && s.procs[s.cur].status == Running
    ensures Rises(s, Preempt(s), s.cur)
  {
    var c := s.cur;
    ChargeKeeps(s);
    hide QInv, PInv, Ledger, MakeReady, InLine;
    MakeReadyRises(Charge(s), c, {}, false);
    hide Inv;
    QueuesFrom(s, Charge(s), Preempt(s), {c});
    assert Charge(s).procs[c := Up(Charge(s).procs[c])] == s.procs[c := Up(s.procs[c])];
  }

  lemma ChargeKeeps(s: Sched)
    requires Inv(s, {}, false) && s.procs[s.cur].status == Running
    ensures Inv(Charge(s), {}, false)
  {
    hide QInv, PInv, Ledger, InRange, Queued, Off;
    SlotFacts(s, s.cur, {}, false);
    TouchKeeps(s, s.cur, s.procs[s.cur].(quantum := s.procs[s.cur].quantum - 1), {}, false);
  }

  /** Once aged, everybody who competes is ready as a process that is passed over. */
  lemma AgedTable(s: Sched)
    requires Inv(s, {}, false)
    ensures var a := AgeFrom(Preempt(s), 1);
            && Inv(a, {}, false) && |a.procs| == |s.procs|
            && a == s.(procs := a.procs, queues := a.queues, resched := a.resched)
            && a.procs[0] == s.procs[0].(quantum := a.procs[0].quantum)
            && (forall j :: 0 < j < |s.procs| ==> a.procs[j] == if Competes(s, j) then Passed(s, j) else s.procs[j])
            && NoneRunning(a)
  {
    hide QInv, PInv, Ledger, Preempt, AgeFrom, InLine;
    PreemptKeeps(s, false);
    OnlyCurrentRuns(s);
    PreemptTable(s);
    AgeFromTable(Preempt(s), 1);
    AgeFromKeepsStatus(Preempt(s), 1);
  }

  lemma PreemptTable(s: Sched)
    requires Inv(s, {}, false)
    ensures var u := Preempt(s);
            && u == s.(procs := u.procs, queues := u.queues, resched := u.resched) && |u.procs| == |s.procs|
            && u.procs[0] == s.procs[0].(quantum := u.procs[0].quantum)
            && (forall j :: 0 < j < |s.procs| ==> u.procs[j] == if s.procs[j].status == Running && j == s.cur then Up(s.procs[j]) else s.procs[j])
  {
    if s.cur > 0 && s.procs[s.cur].status == Running {
      PreemptRises(s);
      hide Inv, InLine, Preempt;
    } else {
      hide Inv;
    }
  }

  lemma PreemptOrder(s: Sched, l: nat, x: int, y: int)
    requires Inv(s, {}, false) && l < LEVELS && x != y && x in Preempt(s).queues[l] && y in Preempt(s).queues[l]
    requires !Promoted(s, x) && !Promoted(s, y)
    ensures 0 < x < |s.procs| && 0 < y < |s.procs|
    ensures Before(Preempt(s).queues[l], x, y) <==> Precedes(s, x, y)
  {
    var u, c := Preempt(s), s.cur;
    hide QInv, PInv, Ledger, Preempt;
    PreemptKeeps(s, false);
    PreemptTable(s);
    OnlyCurrentRuns(s);
    InQueueIff(u, l, x);
    InQueueIff(u, l, y);
    if c > 0 && s.procs[c].status == Running {
      PreemptRises(s);
      PreemptedLast(s, u, l, x, y);
    } else {
      PreemptNobody(s);
    }
    hide Before, InLine;
  }

  lemma PreemptNobody(s: Sched)
    requires Shaped(s) && (s.cur == 0 || s.procs[s.cur].status != Running)
    ensures Preempt(s).queues == s.queues
  {
  }

  lemma PreemptedLast(s: Sched, u: Sched, l: nat, x: int, y: int)
    requires Shaped(s) && Shaped(u) && InLine(s, u, {s.cur}) && l < LEVELS && x != y && x in u.queues[l] && y in u.queues[l]
    ensures Before(u.queues[l], x, y) <==> x != s.cur && (y == s.cur || Before(s.queues[l], x, y))
  {
    assert Before(u.queues[l], y, x) || !Before(u.queues[l], y, x);
  }

  lemma AgedOrder(s: Sched, l: nat, x: int, y: int)
    requires Inv(s, {}, false) && l < LEVELS && x != y
    requires x in AgeFrom(Preempt(s), 1).queues[l] && y in AgeFrom(Preempt(s), 1).queues[l]
    ensures Competes(s, x) && Competes(s, y)
    ensures Before(AgeFrom(Preempt(s), 1).queues[l], x, y) <==> Precedes(s, x, y)
  {
    hide QInv, PInv, Ledger, Preempt, AgeFrom, Before;
    var u := Preempt(s);
    AgedTable(s);
    InQueueIff(AgeFrom(u, 1), l, x);
    InQueueIff(AgeFrom(u, 1), l, y);
    PreemptKeeps(s, false);
    PreemptTable(s);
    AgeFromOrder(u, 1, l, x, y);
    if !Promoted(s, x) && !Promoted(s, y) {
      StaysPut(u, 1, l, x);
      StaysPut(u, 1, l, y);
      PreemptOrder(s, l, x, y);
    }
  }

  // ---------------------------------------------------------------- the tick

  /** Slot n is dispatched: it competes and everybody else is of lower priority or comes later. */
  ghost predicate Wins(s: Sched, n: int)
    requires Shaped(s)
  {
    if n == 0 then forall j :: !Competes(s, j)
    else
      && Competes(s, n)
      && (forall j :: Competes(s, j) && j != n ==>
            Passed(s, j).eff < Passed(s, n).eff || (Passed(s, j).eff == Passed(s, n).eff && Precedes(s, n, j)))
  }

  lemma NextWins(s: Sched)
    requires Inv(s, {}, false)
    ensures Wins(s, Next(AgeFrom(Preempt(s), 1)))
  {
    hide QInv, PInv, Ledger, Preempt, AgeFrom, Next, Precedes;
    var a := AgeFrom(Preempt(s), 1);
    AgedTable(s);
    NextFacts(a, false);
    var n := Next(a);
    forall j | Competes(s, j) && j != n
      ensures n > 0 && (Passed(s, j).eff < Passed(s, n).eff || (Passed(s, j).eff == Passed(s, n).eff && Precedes(s, n, j)))
    {
      assert a.procs[j].status == Ready;
      if a.procs[j].eff == a.procs[n].eff { HeadFirst(s, n, j); }
    }
  }

  lemma HeadFirst(s: Sched, n: int, j: int)
    requires Inv(s, {}, false) && Competes(s, j) && j != n && n == Next(AgeFrom(Preempt(s), 1)) && n > 0
    requires n < |s.procs| && Passed(s, j).eff == Passed(s, n).eff && Competes(s, n)
    ensures Precedes(s, n, j)
  {
    hide QInv, PInv, Ledger, Preempt, AgeFrom, Next, Precedes;
    var a := AgeFrom(Preempt(s), 1);
    AgedTable(s);
    NextFacts(a, false);
    SlotFacts(a, j, {}, false);
    SlotFacts(a, n, {}, false);
    var l := Level(a.procs[n].eff);
    assert a.queues[l][0] == n;
    assert Before(a.queues[l], n, j) by { IndexOfHead(a.queues[l], j); }
    AgedOrder(s, l, n, j);
  }

  lemma IndexOfHead(q: seq<int>, j: int)
    requires q != [] && j in q && q[0] != j
    ensures IndexOf(q, q[0]) == 0 < IndexOf(q, j)
  {
  }

  ghost predicate InPlace(s: Sched, q: seq<int>, x: int, y: int)
    requires Shaped(s)
  {
    Competes(s, x) && Competes(s, y) && (Before(q, x, y) <==> Precedes(s, x, y))
  }

  /** The queues of t are in the order that s prescribes. */
  ghost predicate Lined(s: Sched, t: Sched)
    requires Shaped(s) && Shaped(t)
  {
    forall l, x, y :: 0 <= l < LEVELS && x != y && x in t.queues[l] && y in t.queues[l] ==> InPlace(s, t.queues[l], x, y)
  }

  /** From s to t a tick has passed. */
  ghost predicate Ticked(s: Sched, t: Sched)
    requires Shaped(s) && Shaped(t) && |t.procs| == |s.procs|
  {
    var n := t.cur;
    && Wins(s, n)
    && t == s.(procs := t.procs, queues := t.queues, cur := n, resched := false)
    && t.procs[n] == s.procs[n].(status := Running, quantum := 1, ticks := if n == 0 then s.procs[n].ticks else 0,
                                 eff := if n == 0 then s.procs[n].eff else s.procs[n].prio)
    && (forall j :: 0 < j < |s.procs| && j != n ==> t.procs[j] == if Competes(s, j) then Passed(s, j) else s.procs[j])
    && Lined(s, t)
  }

  /** A tick dispatches the first process of highest priority after aging, makes the preempted one
      ready behind those of its priority, ages whoever is passed over and concerns nobody else. */
  lemma TickEffect(s: Sched)
    requires Inv(s, {}, false) && InRange(s)
    ensures Inv(Tick(s), {}, false) && Ticked(s, Tick(s))
  {
    hide QInv, PInv, Ledger, Preempt, AgeFrom, Next, Tick, Switch, Wins, Precedes, Before;
    var a, t := AgeFrom(Preempt(s), 1), Tick(s);
    TickFacts(s, false);
    NextWins(s);
    AgedTable(s);
    TickTable(s, a, t);
    TickOrder(s);
    hide Lined, Competes, Passed;
    assert t.procs[t.cur] == a.procs[t.cur := t.procs[t.cur]][t.cur];
  }

  lemma TickOrder(s: Sched)
    requires Inv(s, {}, false) && InRange(s)
    ensures Lined(s, Tick(s))
  {
    hide QInv, PInv, Ledger, Preempt, AgeFrom, Next, Tick, Switch, Precedes, Before;
    var a, t := AgeFrom(Preempt(s), 1), Tick(s);
    TickFacts(s, false);
    forall l, x, y | 0 <= l < LEVELS && x != y && x in t.queues[l] && y in t.queues[l]
      ensures InPlace(s, t.queues[l], x, y)
    {
      SwitchOrder(a, l, x, y);
      AgedOrder(s, l, x, y);
    }
  }

  lemma TickTable(s: Sched, a: Sched, t: Sched)
    requires Inv(a, {}, false) && Shaped(s) && |a.procs| == |s.procs| && 0 <= Next(a) < |a.procs| && t == Switch(a)
    requires a == s.(procs := a.procs, queues := a.queues, resched := a.resched) && a.procs[0] == s.procs[0].(quantum := a.procs[0].quantum)
    requires forall j :: 0 < j < |s.procs| ==> a.procs[j] == if Competes(s, j) then Passed(s, j) else s.procs[j]
    requires Wins(s, Next(a))
    ensures t == s.(procs := t.procs, queues := t.queues, cur := Next(a), resched := false)
    ensures var n := Next(a);
            t.procs == a.procs[n := s.procs[n].(status := Running, quantum := 1, ticks := if n == 0 then s.procs[n].ticks else 0,
                                                eff := if n == 0 then s.procs[n].eff else s.procs[n].prio)]
  {
    hide QInv, PInv, Ledger, Next, Switch, Precedes;
    SwitchIsDrop(a, false);
    hide Inv, Unqueue, Queued;
  }

  lemma SwitchOrder(a: Sched, l: nat, x: int, y: int)
    requires Inv(a, {}, false) && l < LEVELS && x != y && 0 <= Next(a) < |a.procs|
    requires x in Switch(a).queues[l] && y in Switch(a).queues[l]
    ensures x in a.queues[l] && y in a.queues[l]
    ensures Before(Switch(a).queues[l], x, y) <==> Before(a.queues[l], x, y)
  {
    var n := Next(a);
    assert AllDistinct(a);
    hide QInv, PInv, Ledger, Next, Switch, Before;
    SwitchIsDrop(a, false);
    UnqueueInLine(a.(cur := n), n);
  }

  /** A tick takes nobody out of sleep, death or the state of a zombie and puts nobody there. */
  lemma TickSparesTheRest(s: Sched, i: int)
    requires Inv(s, {}, false) && InRange(s) && 0 < i < |s.procs|
    ensures var p, q := s.procs[i], Tick(s).procs[i];
            if p.status == Blocked || p.status == Zombie || p.status == Dead then q == p else q.status == Ready || q.status == Running
  {
    hide QInv, PInv, Ledger, Tick, Precedes, Before;
    OnlyCurrentRuns(s);
    TickEffect(s);
  }

  /** The process that was running and is not dispatched again is ready at its base priority, and
      nobody stands behind it but those who have just been promoted to that priority. */
  lemma PreemptedGoesBack(s: Sched)
    requires Inv(s, {}, false) && InRange(s) && s.cur > 0 && s.procs[s.cur].status == Running && Tick(s).cur != s.cur
    ensures var t, c, p := Tick(s), s.cur, s.procs[s.cur];
            && t.procs[c] == p.(status := Ready, eff := p.prio, ticks := 1, quantum := 1)
            && 1 <= p.prio <= 5 && c in t.queues[p.prio - 1]
            && (forall y :: Before(t.queues[p.prio - 1], c, y) ==> Promoted(s, y) && s.procs[y].eff == p.prio - 1)
  {
    var t, c, p := Tick(s), s.cur, s.procs[s.cur];
    hide QInv, PInv, Ledger, Tick, Before, Lined, Wins, Promoted;
    SlotFacts(s, c, {}, false);
    TickEffect(s);
    InQueueIff(t, p.prio - 1, c);
    hide Inv, InRange, Passed, SlotOk;
    forall y | Before(t.queues[p.prio - 1], c, y) ensures Promoted(s, y) && s.procs[y].eff == p.prio - 1 {
      BehindIsPromoted(s, t, y);
    }
  }

  lemma BehindIsPromoted(s: Sched, t: Sched, y: int)
    requires Inv(s, {}, false) && Inv(t, {}, false) && |t.procs| == |s.procs| && s.cur > 0 && s.procs[s.cur].status == Running && t.cur != s.cur
    requires Ticked(s, t) && 1 <= s.procs[s.cur].prio <= 5 && Before(t.queues[s.procs[s.cur].prio - 1], s.cur, y)
    ensures Promoted(s, y) && s.procs[y].eff == s.procs[s.cur].prio - 1
  {
    var l := s.procs[s.cur].prio - 1;
    BeforeMembers(t.queues[l], s.cur, y);
    InQueueIff(t, l, y);
    hide QInv, PInv, Ledger, Before, Wins;
    assert InPlace(s, t.queues[l], s.cur, y);
    hide Lined;
    SlotFacts(t, t.cur, {}, false);
    assert y != t.cur;
  }

  lemma BeforeMembers(q: seq<int>, x: int, y: int)
    requires Before(q, x, y)
    ensures x in q && y in q && x != y
  {
  }

  /** Round robin: the running process gives way to every ready one of at least its base priority. */
  lemma RoundRobin(s: Sched, j: int)
    requires Inv(s, {}, false) && InRange(s) && s.cur > 0 && s.procs[s.cur].status == Running
    requires 0 < j < |s.procs| && s.procs[j].status == Ready && s.procs[j].eff >= s.procs[s.cur].prio
    ensures Tick(s).cur != s.cur
  {
    hide QInv, PInv, Ledger, Tick, Before;
    TickEffect(s);
    assert Competes(s, j);
  }

  // ---------------------------------------------------------------- bounded waiting for the running process

  ghost predicate RunsIn(s: Sched, k: int, prio: int) {
    Inv(s, {}, true) && s.cur == k > 0 && s.procs[k].status == Running && s.procs[k].prio == prio
  }

  lemma KillSparesRunning(s: Sched, pid: int, woken: seq<int>)
    requires Inv(s, {}, true) && s.cur > 0 && s.procs[s.cur].status == Running && s.procs[s.cur].pid != pid && pid !in woken
    ensures Kill(s, pid, woken).cur == s.cur && Kill(s, pid, woken).procs[s.cur] == s.procs[s.cur]
  {
    hide QInv, PInv, Ledger, Kill;
    var i := Find(s, pid, 0);
    if pid <= 1 || i < 0 {
      KillOtherwise(s, pid, woken);
    } else {
      SlotFacts(s, i, {}, true);
      KillEffect(s, i, pid, woken, true);
    }
  }

  /** Until the next tick a running process that is left alone keeps running. */
  lemma KeepsRunning(s: Sched, step: Step, k: int, prio: int)
    requires RunsIn(s, k, prio) && InRange(s) && Allowed(s, step) && Spares(s, step, k) && step != DoTick
    ensures RunsIn(Do(s, step), k, prio)
  {
    hide QInv, PInv, Ledger, Kill, Create, Nice, Block, Unblock;
    StepKeeps(s, step, true);
    match step {
      case DoCreate(priority, stack) =>
        var i := FindDead(s, 1);
        if i < 0 || stack == NONE { CreateRefused(s, priority, stack); } else { CreateEffect(s, i, priority, stack, true); }
      case DoKill(pid, woken) => KillSparesRunning(s, pid, woken);
      case DoBlock(pid) =>
        var i := Find(s, pid, 0);
        if i >= 0 { BlockEffect(s, i, pid, true); } else { BlockUnknown(s, pid); }
      case DoUnblock(pid) => UnblockWakes(s, pid, {}, true);
      case DoNice(pid, priority) =>
        var i := Find(s, pid, 0);
        if i < 0 || !(1 <= priority <= 5) { NiceRefused(s, pid, priority); } else { NiceEffect(s, i, pid, priority, true); }
      case DoYield =>
    }
  }

  lemma PreemptIsReady(s: Sched)
    requires Shaped(s) && s.cur > 0 && s.procs[s.cur].status == Running
    ensures Preempt(s).procs[s.cur].status == Ready && Preempt(s).procs[s.cur].prio == s.procs[s.cur].prio
  {
    hide Unqueue, Enqueue;
  }

  /** A tick dispatches the running process again or leaves it waiting within the bound. */
  lemma TickFromRunning(s: Sched, k: int, prio: int)
    requires RunsIn(s, k, prio) && InRange(s)
    ensures var t := Tick(s);
            t.cur == k || (Waiting(t, k) && t.procs[k].prio == prio && Distance(t, k) < 6 * (5 - prio) + |s.procs| - 1)
  {
    var u := Preempt(s);
    PreemptIsReady(s);
    var a, t := AgeFrom(u, 1), Tick(s);
    hide QInv, PInv, Ledger, AgeFrom, Preempt, Tick, Switch;
    TickFacts(s, true);
    PreemptKeeps(s, true);
    WaiterFacts(u, k);
    AgeFromSelf(u, 1, k);
    if t.cur != k {
      SwitchOther(a, k);
      WaiterFacts(a, k);
      QueueBound(a, Level(a.procs[k].eff), k);
    }
  }

  lemma FromRunning(s: Sched, step: Step, k: int, prio: int)
    requires RunsIn(s, k, prio) && InRange(s) && Allowed(s, step) && Spares(s, step, k)
    ensures var t := Do(s, step);
            if step == DoTick then t.cur == k || (Waiting(t, k) && Distance(t, k) < 6 * (5 - prio) + |s.procs| - 1) else RunsIn(t, k, prio)
  {
    hide RunsIn;
    if step == DoTick { TickFromRunning(s, k, prio); } else { KeepsRunning(s, step, k, prio); }
  }

  /** After so many ticks slot k still runs, or waits and has come closer by that number. */
  ghost predicate Serving(s: Sched, k: int, prio: int, ticks: nat) {
    || (RunsIn(s, k, prio) && ticks == 0)
    || (Waiting(s, k) && Distance(s, k) + ticks <= 6 * (5 - prio) + |s.procs| - 1)
  }

  lemma ServingStep(s: Sched, step: Step, k: int, prio: int, ticks: nat)
    requires Serving(s, k, prio, ticks) && InRange(s) && Shaped(s) && Allowed(s, step) && Spares(s, step, k)
    ensures var t := Do(s, step);
            (step == DoTick && t.cur == k) || Serving(t, k, prio, ticks + if step == DoTick then 1 else 0)
  {
    hide RunsIn, Waiting, Distance, Do, Allowed, Spares, InRange;
    if RunsIn(s, k, prio) && ticks == 0 { FromRunning(s, step, k, prio); } else { StepProgress(s, step, k); }
  }

  /** Up to step n slot k was dispatched, or it is still being served. */
  lemma {:induction false} ServiceProgress(states: seq<Sched>, steps: seq<Step>, k: int, prio: int, n: nat)
    requires IsRun(states, steps) && RunsIn(states[0], k, prio) && n <= |steps|
    requires forall m :: 0 <= m < |steps| ==> Spares(states[m], steps[m], k)
    ensures |states[n].procs| == |states[0].procs|
    ensures (exists m :: 0 <= m < n && DispatchedAt(states, steps, m, k)) || Serving(states[n], k, prio, TickCount(steps[..n]))
  {
    hide RunsIn, Serving, Do, Allowed, InRange;
    if n == 0 {
      ServingStarts(states[0], k, prio);
    } else {
      ServiceProgress(states, steps, k, prio, n - 1);
      assert steps[..n][..n - 1] == steps[..n - 1];
      if !(exists m :: 0 <= m < n - 1 && DispatchedAt(states, steps, m, k)) {
        ServingStep(states[n - 1], steps[n - 1], k, prio, TickCount(steps[..n - 1]));
        if steps[n - 1] == DoTick && states[n].cur == k { assert DispatchedAt(states, steps, n - 1, k); }
      }
    }
  }

  lemma ServingStarts(s: Sched, k: int, prio: int)
    requires RunsIn(s, k, prio)
    ensures Serving(s, k, prio, 0)
  {
  }

  /** A running process of base priority p that is not killed, blocked or reniced and does not exit
      or wait is dispatched again within 6 * (5 - p) + (table size - 1) ticks. */
  lemma ServedAgain(states: seq<Sched>, steps: seq<Step>, k: int)
    requires IsRun(states, steps) && Inv(states[0], {}, true)
    requires states[0].cur == k > 0 && states[0].procs[k].status == Running
    requires forall m :: 0 <= m < |steps| ==> Spares(states[m], steps[m], k)
    requires TickCount(steps) >= 6 * (5 - states[0].procs[k].prio) + |states[0].procs| - 1
    ensures exists n :: 0 <= n < |steps| && DispatchedAt(states, steps, n, k)
  {
    var prio := states[0].procs[k].prio;
    SlotFacts(states[0], k, {}, true);
    ServiceProgress(states, steps, k, prio, |steps|);
    assert steps[..|steps|] == steps;
    hide QInv, PInv, Ledger;
    if !(exists n :: 0 <= n < |steps| && DispatchedAt(states, steps, n, k)) && Waiting(states[|steps|], k) {
      WaiterFacts(states[|steps|], k);
    }
  }
}

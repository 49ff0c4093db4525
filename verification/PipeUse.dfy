/** Orderly use of a pipe: nobody takes from a process inside it the last end that process uses.
    Then dying processes always settle what they owe. */
module PipeUse {
  import opened SemSpec
  import opened PipeSpec
  import opened PipeInv

  ghost predicate HasEnd(fds: seq<End>, s: Side) {
    exists f :: 0 <= f < |fds| && fds[f] == End(s)
  }

  /** A process inside the pipe still has an end of its side once descriptor f holds e. */
  ghost predicate KeepsUse(t: Task, f: nat, e: End)
    requires f < |t.fds|
  {
    t.op.In? ==> HasEnd(t.fds[f := e], t.op.side)
  }

  ghost predicate Orderly(w: World, step: Step)
    requires Possible(w, step)
  {
    match step
    case SetFd(p, f, side) => KeepsUse(w.tasks[p], f, End(side))
    case Redirect(p, f) => KeepsUse(w.tasks[p], f, NoEnd)
    case _ => true
  }

  /** Who is inside the pipe, or owes a hand-off, holds an end of that side. */
  ghost predicate Holds(t: Task) {
    && (t.op.In? ==> HasEnd(t.fds, t.op.side))
    && (forall s :: t.op.Dying? && t.op.owes.Get(s) ==> HasEnd(t.fds, s))
  }

  ghost predicate AllHold(w: World) {
    forall p :: p in w.tasks ==> Holds(w.tasks[p])
  }

  lemma EndMeansDescriptor(w: World, p: int, s: Side) returns (f: int)
    requires p in w.tasks && HasEnd(w.tasks[p].fds, s)
    ensures (p, f) in EndsOf(w.tasks, s)
  {
    f :| 0 <= f < |w.tasks[p].fds| && w.tasks[p].fds[f] == End(s);
  }

  /** The last counted end of a side belongs to p: then nobody else waits there. */
  lemma LastHolder(w: World, p: int, f: nat, s: Side)
    requires Inv(w) && AllHold(w) && w.active && w.ends.Get(s) <= 1
    requires p in w.tasks && w.tasks[p].op.Dying? && f < |w.tasks[p].fds| && w.tasks[p].fds[f] == End(s)
    ensures w.sems.Get(s).queue == []
  {
    InvSides(w, s);
    assert (p, f) in EndsOf(w.tasks, s);
    var q := w.sems.Get(s).queue;
    hide Inv;
    if q != [] {
      var h := q[0].pid;
      assert w.tasks[h].op == In(s, true) && Holds(w.tasks[h]);
      hide EndsOf, SideOk;
      var g := EndMeansDescriptor(w, h, s);
      OneEnd(w, s, (p, f), (h, g));
    }
  }

  lemma OneEnd(w: World, s: Side, x: (int, int), y: (int, int))
    requires SideOk(w, s) && w.ends.Get(s) <= 1 && x in EndsOf(w.tasks, s) && y in EndsOf(w.tasks, s)
    ensures x == y
  {
    hide Asleep, Pending, EndsOf;
    if x != y { TwoElements(EndsOf(w.tasks, s), x, y); }
  }

  lemma TwoElements(e: set<(int, int)>, x: (int, int), y: (int, int))
    requires x in e && y in e && x != y
    ensures |e| >= 2
  {
    assert e == {x, y} + (e - {x, y});
  }

  /** With every debtor holding an end, no wake-up that it owes is lost. */
  lemma OrderlySettles(w: World, step: Step)
    requires Inv(w) && AllHold(w) && Possible(w, step)
    ensures Settles(w, step)
  {
    hide Inv;
    match step {
      case CloseOne(p, f) =>
        var s := w.tasks[p].fds[f].side;
        DescriptorOpen(w, p, f);
        if w.ends.Get(s) <= 1 { LastHolder(w, p, f, s); }
      case Finish(p) =>
        assert Holds(w.tasks[p]);
        assert !Owes(w, p, Rd) && !Owes(w, p, Wr);
      case _ =>
    }
  }

  // ---------------------------------------------------------------- what the steps keep

  lemma CloseTasks(w: World, s: Side)
    ensures Close(w, s).tasks == w.tasks
  {
    hide Post, PostAll;
  }

  lemma KillHolds(w: World, p: int)
    requires p in w.tasks && Holds(w.tasks[p])
    ensures Holds(w.tasks[p].(op := Debt(w, p)))
  {
  }

  lemma CloseOneHolds(t: Task, f: nat)
    requires Holds(t) && t.op.Dying? && f < |t.fds| && t.fds[f] != NoEnd
    ensures Holds(t.(op := Dying(t.op.owes.Put(t.fds[f].side, false)), fds := t.fds[f := NoEnd]))
  {
    var s := t.fds[f].side;
    var u := t.(op := Dying(t.op.owes.Put(s, false)), fds := t.fds[f := NoEnd]);
    forall o | u.op.owes.Get(o) ensures HasEnd(u.fds, o) {
      assert o != s && t.op.owes.Get(o);
      var g :| 0 <= g < |t.fds| && t.fds[g] == End(o);
      assert u.fds[g] == End(o);
    }
  }

  lemma RoundTask(w: World, p: int, b: Byte, more: bool, slots: nat)
    requires p in w.tasks && w.tasks[p].op.In?
    ensures var v := Round(w, p, b, more, slots);
            && p in v.tasks && v.tasks == w.tasks[p := w.tasks[p].(op := v.tasks[p].op)]
            && (v.tasks[p].op == Outside || (v.tasks[p].op.In? && v.tasks[p].op.side == w.tasks[p].op.side))
  {
    hide Post, SleepOn;
  }

  lemma StepHolds(w: World, step: Step, slots: nat)
    requires AllHold(w) && Possible(w, step) && Orderly(w, step)
    ensures AllHold(Advance(w, step, slots))
  {
    hide Close, Round, RemovePid;
    match step {
      case SetFd(p, f, side) =>
        var prior := w.tasks[p].fds[f];
        if prior != NoEnd { CloseTasks(Attach(w, side), prior.side); }
      case Redirect(p, f) => CloseTasks(SetEnd(w, p, f, NoEnd), w.tasks[p].fds[f].side);
      case Drop(side) => CloseTasks(w, side);
      case Begin(p, f) => assert HasEnd(w.tasks[p].fds, w.tasks[p].fds[f].side);
      case Turn(p, b, more) => RoundTask(w, p, b, more, slots);
      case BeginKill(p) =>
        KillIsDebt(w, p, slots);
        KillHolds(w, p);
      case CloseOne(p, f) =>
        CloseOneIs(w, p, f, slots);
        CloseTasks(Detached(w, p, f), w.tasks[p].fds[f].side);
        CloseOneHolds(w.tasks[p], f);
      case _ =>
    }
  }

  // ---------------------------------------------------------------- orderly runs

  /** Any disciplined and orderly interleaving. */
  ghost predicate IsOrderlyRun(worlds: seq<World>, steps: seq<Step>, slots: nat) {
    && |worlds| == |steps| + 1 && Initial(worlds[0])
    && (forall i :: 0 <= i < |worlds| ==> |worlds[i].tasks| <= slots)
    && (forall i :: 0 <= i < |steps| ==>
          Enabled(worlds[i], steps[i]) && Orderly(worlds[i], steps[i]) && worlds[i + 1] == Advance(worlds[i], steps[i], slots))
  }

  lemma OrderlyStep(worlds: seq<World>, steps: seq<Step>, slots: nat, k: nat)
    requires IsOrderlyRun(worlds, steps, slots) && k < |steps|
    ensures Enabled(worlds[k], steps[k]) && Orderly(worlds[k], steps[k])
    ensures worlds[k + 1] == Advance(worlds[k], steps[k], slots) && |worlds[k].tasks| <= slots
  {
    hide Possible, Disciplined, Advance, Orderly;
  }

  lemma {:induction false} OrderlyKeeps(worlds: seq<World>, steps: seq<Step>, slots: nat, k: nat)
    requires IsOrderlyRun(worlds, steps, slots) && k <= |steps|
    ensures Inv(worlds[k]) && AllHold(worlds[k])
  {
    if k == 0 {
      InitialInv(worlds[0]);
    } else {
      hide Inv, AllHold, Possible, Disciplined, Advance, Orderly, Settles;
      OrderlyKeeps(worlds, steps, slots, k - 1);
      OrderlyStep(worlds, steps, slots, k - 1);
      OrderlySettles(worlds[k - 1], steps[k - 1]);
      StepKeeps(worlds[k - 1], steps[k - 1], slots);
      StepHolds(worlds[k - 1], steps[k - 1], slots);
    }
  }

  /** On orderly runs dying processes settle what they owe, so every result about runs applies. */
  lemma OrderlyIsRun(worlds: seq<World>, steps: seq<Step>, slots: nat)
    requires IsOrderlyRun(worlds, steps, slots)
    ensures IsRun(worlds, steps, slots)
  {
    hide Possible, Disciplined, Advance, Orderly, Settles, Inv, AllHold;
    forall k | 0 <= k < |steps| ensures Enabled(worlds[k], steps[k]) && Settles(worlds[k], steps[k]) {
      OrderlyStep(worlds, steps, slots, k);
      OrderlyKeeps(worlds, steps, slots, k);
      OrderlySettles(worlds[k], steps[k]);
    }
  }
}

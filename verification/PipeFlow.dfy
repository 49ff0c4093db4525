/** What holds of a pipe on every run, disciplined or not: its bytes and its ends. */
module PipeFlow {
  import opened SemSpec
  import opened PipeSpec
  import opened PipeInv
  import opened PipeUse

  /** Any interleaving of possible steps: processes inside the pipe may be blocked, unblocked and
      have their descriptors replaced, and may outnumber the waiting slots. */
  ghost predicate IsFlow(worlds: seq<World>, steps: seq<Step>, slots: nat) {
    && |worlds| == |steps| + 1 && Initial(worlds[0])
    && (forall i :: 0 <= i < |steps| ==> Possible(worlds[i], steps[i]) && worlds[i + 1] == Advance(worlds[i], steps[i], slots))
  }

  lemma FlowStep(worlds: seq<World>, steps: seq<Step>, slots: nat, k: nat)
    requires IsFlow(worlds, steps, slots) && k < |steps|
    ensures Possible(worlds[k], steps[k]) && worlds[k + 1] == Advance(worlds[k], steps[k], slots)
  {
    hide Possible, Advance;
  }

  // ---------------------------------------------------------------- frames

  /** Closing an end touches neither the bytes nor the descriptors. */
  lemma CloseFlow(w: World, s: Side)
    ensures var v := Close(w, s);
            && v == w.(active := v.active, ends := v.ends, reserved := v.reserved, sems := v.sems, procs := v.procs)
            && (v.active ==> w.active)
            && (w.active ==> var u := Uncount(w, s);
                             && v.active == (u.ends != Both(0, 0)) && v.ends == u.ends
                             && v.reserved == if v.active then u.reserved else Both(0, 0))
  {
    hide Post, PostAll;
  }

  /** A round of reading or writing changes the bytes, the semaphores and what p does. */
  lemma RoundFlow(w: World, p: int, b: Byte, more: bool, slots: nat)
    requires p in w.tasks && w.tasks[p].op.In?
    ensures var v, s := Round(w, p, b, more, slots), w.tasks[p].op.side;
            && p in v.tasks && v.tasks == w.tasks[p := w.tasks[p].(op := v.tasks[p].op)]
            && v.active == w.active && v.capacity == w.capacity && v.ends == w.ends && v.reserved == w.reserved
            && (v.tasks[p].op == Outside || (v.tasks[p].op.In? && v.tasks[p].op.side == s))
            && (|| (v.ring == w.ring && v.accepted == w.accepted && v.delivered == w.delivered)
                || (s == Rd && w.ring != [] && v.ring == w.ring[1..] && v.delivered == w.delivered + [w.ring[0]] && v.accepted == w.accepted)
                || (s == Wr && |w.ring| < w.capacity && v.ring == w.ring + [b] && v.accepted == w.accepted + [b] && v.delivered == w.delivered))
  {
    hide Post, SleepOn;
  }

  // ---------------------------------------------------------------- first in, first out

  lemma RoundFifo(w: World, p: int, b: Byte, more: bool, slots: nat)
    requires p in w.tasks && w.tasks[p].op.In? && Fifo(w)
    ensures Fifo(Round(w, p, b, more, slots))
  {
    RoundFlow(w, p, b, more, slots);
    hide Round;
  }

  /** Every step keeps the pipe first in, first out. */
  lemma StepFifo(w: World, step: Step, slots: nat)
    requires Possible(w, step) && (w.active ==> Fifo(w))
    ensures Advance(w, step, slots).active ==> Fifo(Advance(w, step, slots))
  {
    hide Close, Round;
    match step {
      case SetFd(p, f, side) => if w.tasks[p].fds[f] != NoEnd { CloseFlow(Attach(w, side), w.tasks[p].fds[f].side); }
      case Redirect(p, f) => CloseFlow(SetEnd(w, p, f, NoEnd), w.tasks[p].fds[f].side);
      case Drop(side) => CloseFlow(w, side);
      case CloseOne(p, f) =>
        var s := w.tasks[p].fds[f].side;
        CloseFlow(SetEnd(SetOp(w, p, Dying(w.tasks[p].op.owes.Put(s, false))), p, f, NoEnd), s);
      case Turn(p, b, more) =>
        RoundFlow(w, p, b, more, slots);
        if w.active { RoundFifo(w, p, b, more, slots); }
      case _ =>
    }
  }

  /** The bytes delivered so far are a prefix of the bytes accepted, and the rest is in the ring. */
  lemma {:induction false} PipeIsFifo(worlds: seq<World>, steps: seq<Step>, slots: nat, k: nat)
    requires IsFlow(worlds, steps, slots) && k <= |steps|
    ensures worlds[k].active ==>
              worlds[k].accepted == worlds[k].delivered + worlds[k].ring && 0 <= |worlds[k].ring| <= worlds[k].capacity
    ensures worlds[k].active ==> Fifo(worlds[k])
  {
    hide Possible, Advance;
    if k > 0 {
      PipeIsFifo(worlds, steps, slots, k - 1);
      FlowStep(worlds, steps, slots, k - 1);
      StepFifo(worlds[k - 1], steps[k - 1], slots);
    }
  }

  // ---------------------------------------------------------------- ends

  /** The counters are the reservations plus the descriptors, and the slot is in use exactly while
      there is one or the other. */
  ghost predicate EndsOk(w: World) {
    && (w.active ==> Accounted(w, Rd) && Accounted(w, Wr) && w.ends != Both(0, 0))
    && (!w.active ==> w.reserved == Both(0, 0) && EndsOf(w.tasks, Rd) == {} && EndsOf(w.tasks, Wr) == {})
  }

  /** One end of side s more is counted than there is. */
  ghost predicate OneOver(w: World, s: Side) {
    w.reserved.Get(s) <= 1 && w.ends.Get(s) == |EndsOf(w.tasks, s)| + 1
  }

  lemma CloseEnds(w: World, s: Side)
    requires w.active && OneOver(w, s) && Accounted(w, Other(s))
    ensures EndsOk(Close(w, s))
  {
    CloseFlow(w, s);
    hide Close, EndsOf;
  }

  lemma DropEnds(w: World, s: Side)
    requires w.active && EndsOk(w) && w.reserved.Get(s) > 0
    ensures EndsOk(Close(w, s))
  {
    hide EndsOf, Close;
    assert Accounted(w, s) && Accounted(w, Other(s));
    CloseEnds(w, s);
  }

  /** An open descriptor means an open slot. */
  lemma DescriptorMeansOpen(w: World, p: int, f: nat)
    requires EndsOk(w) && p in w.tasks && f < |w.tasks[p].fds| && w.tasks[p].fds[f] != NoEnd
    ensures w.active && Accounted(w, w.tasks[p].fds[f].side) && Accounted(w, Other(w.tasks[p].fds[f].side))
  {
    var s := w.tasks[p].fds[f].side;
    assert (p, f) in EndsOf(w.tasks, s);
    assert s == Rd || s == Wr;
  }

  lemma DetachEnds(w: World, p: int, f: nat)
    requires EndsOk(w) && p in w.tasks && f < |w.tasks[p].fds| && w.tasks[p].fds[f] != NoEnd
    ensures EndsOk(Close(SetEnd(w, p, f, NoEnd), w.tasks[p].fds[f].side))
  {
    hide EndsOf, Close;
    var s := w.tasks[p].fds[f].side;
    DescriptorMeansOpen(w, p, f);
    DetachedAccounted(w, p, f, NoEnd, s);
    UntouchedEnds(w, p, f, NoEnd, Other(s));
    CloseEnds(SetEnd(w, p, f, NoEnd), s);
  }

  lemma AttachEnds(w: World, p: int, f: nat, s: Side)
    requires EndsOk(w) && w.active && p in w.tasks && f < |w.tasks[p].fds| && w.tasks[p].fds[f] != End(s)
    ensures Accounted(SetEnd(Attach(w, s), p, f, End(s)), s) && Attach(w, s).ends.Get(s) > 0
  {
    hide EndsOf;
    assert Accounted(w, s);
    AttachedAccounted(w, p, f, s);
  }

  lemma SetFdEnds(w: World, p: int, f: nat, s: Side)
    requires EndsOk(w) && w.active && p in w.tasks && f < |w.tasks[p].fds|
    ensures var prior, b := w.tasks[p].fds[f], SetEnd(Attach(w, s), p, f, End(s));
            if prior == NoEnd then EndsOk(b) else EndsOk(Close(b, prior.side))
  {
    hide EndsOf, Close;
    var prior, o := w.tasks[p].fds[f], Other(s);
    var b := SetEnd(Attach(w, s), p, f, End(s));
    assert Accounted(w, s) && Accounted(w, o);
    if prior != End(s) { AttachEnds(w, p, f, s); }
    if prior != End(o) { UntouchedEnds(w, p, f, End(s), o); }
    assert b.tasks == SetEnd(w, p, f, End(s)).tasks;
    if prior != NoEnd {
      DetachedAccounted(w, p, f, End(s), prior.side);
      CloseEnds(b, prior.side);
    }
  }

  lemma OpEnds(w: World, v: World, p: int, op: Op)
    requires EndsOk(w) && p in w.tasks && v.tasks == w.tasks[p := w.tasks[p].(op := op)]
    requires v.active == w.active && v.ends == w.ends && v.reserved == w.reserved
    ensures EndsOk(v)
  {
    EndsOfOp(w.tasks, p, op, Rd);
    EndsOfOp(w.tasks, p, op, Wr);
    hide EndsOf;
  }

  lemma TaskEnds(w: World, step: Step, slots: nat)
    requires EndsOk(w) && Possible(w, step) && (step.Spawn? || step.Finish?)
    ensures EndsOk(Advance(w, step, slots))
  {
    var v := Advance(w, step, slots);
    assert EndsOf(v.tasks, Rd) == EndsOf(w.tasks, Rd);
    assert EndsOf(v.tasks, Wr) == EndsOf(w.tasks, Wr);
  }

  ghost predicate DropsReserved(w: World, step: Step) {
    step.Drop? ==> w.reserved.Get(step.side) > 0
  }

  lemma CloseOneEnds(w: World, p: int, f: nat, slots: nat)
    requires EndsOk(w) && Possible(w, CloseOne(p, f))
    ensures EndsOk(Advance(w, CloseOne(p, f), slots))
  {
    hide EndsOk, Close;
    var s := w.tasks[p].fds[f].side;
    var op := Dying(w.tasks[p].op.owes.Put(s, false));
    OpEnds(w, SetOp(w, p, op), p, op);
    DetachEnds(SetOp(w, p, op), p, f);
  }

  /** Every step keeps the ends accounted for, if an explicit close drops an unclaimed reservation. */
  lemma StepEnds(w: World, step: Step, slots: nat)
    requires EndsOk(w) && Possible(w, step) && DropsReserved(w, step)
    ensures EndsOk(Advance(w, step, slots))
  {
    var v := Advance(w, step, slots);
    hide EndsOk, Close, Round, RemovePid;
    match step {
      case Open(capacity) => OpenEnds(w, v);
      case SetFd(p, f, side) =>
        SetFdEnds(w, p, f, side);
        if w.tasks[p].fds[f] != NoEnd { CloseIgnoresFds(Attach(w, side), p, f, End(side), w.tasks[p].fds[f].side); }
      case Redirect(p, f) => DetachEnds(w, p, f);
      case Drop(side) => DropEnds(w, side);
      case CloseOne(p, f) => CloseOneEnds(w, p, f, slots);
      case Turn(p, b, more) =>
        RoundFlow(w, p, b, more, slots);
        OpEnds(w, v, p, v.tasks[p].op);
      case Begin(p, f) => OpEnds(w, v, p, v.tasks[p].op);
      case BeginKill(p) => OpEnds(w, v, p, v.tasks[p].op);
      case Elsewhere(p, _) => OpEnds(w, v, p, w.tasks[p].op);
      case Renice(p, _) => OpEnds(w, v, p, w.tasks[p].op);
      case _ => TaskEnds(w, step, slots);
    }
  }

  lemma OpenEnds(w: World, v: World)
    requires EndsOk(w) && !w.active && v.active && v.ends == Both(1, 1) && v.reserved == Both(1, 1) && v.tasks == w.tasks
    ensures EndsOk(v)
  {
  }

  /** Whatever processes do, the counters are the reservations plus the open descriptors, and the
      slot is open exactly while there is a reservation or a descriptor: it is never freed under a
      descriptor nor kept without one. */
  lemma {:induction false} EndsAreAccounted(worlds: seq<World>, steps: seq<Step>, slots: nat, k: nat)
    requires IsFlow(worlds, steps, slots) && k <= |steps|
    requires forall i :: 0 <= i < |steps| ==> DropsReserved(worlds[i], steps[i])
    ensures EndsOk(worlds[k])
    ensures var w := worlds[k];
            && (w.active ==> w.ends.rd == w.reserved.rd + |EndsOf(w.tasks, Rd)| && w.ends.wr == w.reserved.wr + |EndsOf(w.tasks, Wr)|)
            && (w.active <==> w.reserved != Both(0, 0) || EndsOf(w.tasks, Rd) != {} || EndsOf(w.tasks, Wr) != {})
  {
    if k > 0 {
      hide Possible, Advance, DropsReserved, EndsOk;
      EndsAreAccounted(worlds, steps, slots, k - 1);
      FlowStep(worlds, steps, slots, k - 1);
      StepEnds(worlds[k - 1], steps[k - 1], slots);
    }
    OpenIffUsed(worlds[k]);
  }

  lemma OpenIffUsed(w: World)
    requires EndsOk(w)
    ensures w.active ==> w.ends.rd == w.reserved.rd + |EndsOf(w.tasks, Rd)| && w.ends.wr == w.reserved.wr + |EndsOf(w.tasks, Wr)|
    ensures w.active <==> w.reserved != Both(0, 0) || EndsOf(w.tasks, Rd) != {} || EndsOf(w.tasks, Wr) != {}
  {
    hide EndsOf;
  }

  // ---------------------------------------------------------------- bytes before the reader

  /** Nobody is inside pipe_read. */
  ghost predicate NoReaders(w: World) {
    forall p :: p in w.tasks && w.tasks[p].op.In? ==> w.tasks[p].op.side == Wr
  }

  lemma StepSurvives(w: World, step: Step, slots: nat)
    requires EndsOk(w) && w.active && NoReaders(w) && Possible(w, step) && w.reserved.rd > 0
    ensures w.ring <= Advance(w, step, slots).ring && NoReaders(Advance(w, step, slots))
  {
    var v := Advance(w, step, slots);
    hide Close, Round, RemovePid;
    match step {
      case SetFd(p, f, side) => if w.tasks[p].fds[f] != NoEnd { CloseFlow(Attach(w, side), w.tasks[p].fds[f].side); }
      case Redirect(p, f) => CloseFlow(SetEnd(w, p, f, NoEnd), w.tasks[p].fds[f].side);
      case Drop(side) => CloseFlow(w, side);
      case CloseOne(p, f) =>
        var s := w.tasks[p].fds[f].side;
        CloseFlow(SetEnd(SetOp(w, p, Dying(w.tasks[p].op.owes.Put(s, false))), p, f, NoEnd), s);
      case Turn(p, b, more) => RoundFlow(w, p, b, more, slots);
      case Begin(p, f) =>
        assert EndsOf(w.tasks, Rd) == {};
        assert w.tasks[p].fds[f] == End(Rd) ==> (p, f) in EndsOf(w.tasks, Rd);
      case _ =>
    }
  }

  /** From state j on, as long as the reader's end stays reserved, the slot stays open and bytes are
      only added, if nobody is still inside pipe_read then. */
  lemma {:induction false} UnclaimedKeepsBytes(worlds: seq<World>, steps: seq<Step>, slots: nat, j: nat, k: nat)
    requires IsFlow(worlds, steps, slots) && j <= k <= |steps|
    requires forall i :: 0 <= i < |steps| ==> DropsReserved(worlds[i], steps[i])
    requires NoReaders(worlds[j]) && forall i :: j <= i <= k ==> worlds[i].reserved.rd > 0
    ensures worlds[k].active && worlds[j].ring <= worlds[k].ring && NoReaders(worlds[k])
  {
    hide Possible, Advance, DropsReserved, EndsOk, NoReaders, EndsOf;
    EndsAreAccounted(worlds, steps, slots, k);
    if j < k {
      UnclaimedKeepsBytes(worlds, steps, slots, j, k - 1);
      EndsAreAccounted(worlds, steps, slots, k - 1);
      FlowStep(worlds, steps, slots, k - 1);
      StepSurvives(worlds[k - 1], steps[k - 1], slots);
    }
  }

  lemma OrderlyIsFlow(worlds: seq<World>, steps: seq<Step>, slots: nat)
    requires IsOrderlyRun(worlds, steps, slots)
    ensures IsFlow(worlds, steps, slots) && forall i :: 0 <= i < |steps| ==> DropsReserved(worlds[i], steps[i])
  {
    hide Possible, Advance, Orderly;
  }

  lemma UnclaimedMeansNoReaders(w: World)
    requires EndsOk(w) && AllHold(w) && w.active && w.reserved.rd > 0
    ensures NoReaders(w)
  {
    assert EndsOf(w.tasks, Rd) == {};
    hide EndsOf, EndsOk;
    forall p | p in w.tasks && w.tasks[p].op.In? ensures w.tasks[p].op.side == Wr {
      assert Holds(w.tasks[p]);
      if HasEnd(w.tasks[p].fds, Rd) { var f := EndMeansDescriptor(w, p, Rd); }
    }
  }

  /** On orderly runs what is written before the reader attaches is all there when it does. */
  lemma BytesSurvive(worlds: seq<World>, steps: seq<Step>, slots: nat, j: nat, k: nat)
    requires IsOrderlyRun(worlds, steps, slots) && j <= k <= |steps|
    requires forall i :: j <= i <= k ==> worlds[i].reserved.rd > 0
    ensures worlds[k].active && worlds[j].ring <= worlds[k].ring
  {
    OrderlyIsFlow(worlds, steps, slots);
    OrderlyKeeps(worlds, steps, slots, j);
    EndsAreAccounted(worlds, steps, slots, j);
    hide Inv, IsOrderlyRun, IsFlow, DropsReserved, EndsOk, NoReaders, AllHold;
    UnclaimedMeansNoReaders(worlds[j]);
    UnclaimedKeepsBytes(worlds, steps, slots, j, k);
  }
}

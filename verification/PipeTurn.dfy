/** What the operations on a pipe do, as their callers see it: who gets a byte, who leaves, who
    sleeps and who is woken. */
module PipeTurn {
  import opened SemSpec
  import opened PipeSpec
  import opened PipeInv
  import opened PipeFlow

  /** The same world, but for what process p is doing. */
  ghost function Doing(w: World, p: int, op: Op): World
    requires p in w.tasks
  {
    w.(tasks := w.tasks[p := Task(w.tasks[p].fds, op)])
  }

  /** From w to v process p had to wait: it is last in line and asleep, or it was refused and leaves;
      the bytes stay where they are. */
  ghost predicate HadToWait(w: World, v: World, p: int, s: Side, slots: nat)
    requires p in w.tasks
  {
    var others := Without(w.sems.Get(s).queue, p);
    && v.ring == w.ring && v.accepted == w.accepted && v.delivered == w.delivered && v.ends == w.ends && v.active == w.active
    && (if |others| < slots
        then && v.tasks == Doing(w, p, In(s, true)).tasks && v.sems.Get(s).queue == others + [Waiter(p, 0)]
             && (p in w.procs ==> v.procs == w.procs[p := View(true, w.procs[p].prio)])
        else v.tasks == Doing(w, p, Outside).tasks && v.sems.Get(s).queue == others && v.procs == w.procs)
  }

  lemma WaitingRound(w: World, p: int, b: Byte, more: bool, slots: nat)
    requires p in w.tasks && w.tasks[p].op.In? && w.ends.Get(Other(w.tasks[p].op.side)) > 0 && Room(w, w.tasks[p].op.side) <= 0
    ensures HadToWait(w, Round(w, p, b, more, slots), p, w.tasks[p].op.side, slots)
  {
    SleepOnIs(w.sems.Get(w.tasks[p].op.side), w.procs, p, slots);
    hide SleepOn, Without;
  }

  /** A reader takes the oldest byte; without one it waits while there are writers and leaves with
      nothing when there are none. */
  lemma ReaderTurn(w: World, p: int, b: Byte, more: bool, slots: nat)
    requires Possible(w, Turn(p, b, more)) && w.tasks[p].op.side == Rd
    ensures var v := Advance(w, Turn(p, b, more), slots);
            if w.ring != [] then
              && v.ring == w.ring[1..] && v.delivered == w.delivered + [w.ring[0]] && v.accepted == w.accepted
              && v.tasks == Doing(w, p, if more then In(Rd, false) else Outside).tasks
            else if w.ends.wr > 0 then HadToWait(w, v, p, Rd, slots)
            else v == Doing(w, p, Outside)
  {
    if w.ring == [] && w.ends.wr > 0 { WaitingRound(w, p, b, more, slots); }
    hide Post, SleepOn, Without;
  }

  /** A writer leaves when there are no readers, puts its byte behind the others when there is room,
      and waits otherwise. */
  lemma WriterTurn(w: World, p: int, b: Byte, more: bool, slots: nat)
    requires Possible(w, Turn(p, b, more)) && w.tasks[p].op.side == Wr
    ensures var v := Advance(w, Turn(p, b, more), slots);
            if w.ends.rd == 0 then v == Doing(w, p, Outside)
            else if |w.ring| < w.capacity then
              && v.ring == w.ring + [b] && v.accepted == w.accepted + [b] && v.delivered == w.delivered
              && v.tasks == Doing(w, p, if more then In(Wr, false) else Outside).tasks
            else HadToWait(w, v, p, Wr, slots)
  {
    if w.ends.rd > 0 && |w.ring| >= w.capacity { WaitingRound(w, p, b, more, slots); }
    hide Post, SleepOn, Without;
  }

  /** Apart from turns no step of an open pipe moves a byte. */
  lemma OnlyTurnsMove(w: World, step: Step, slots: nat)
    requires Possible(w, step) && w.active && !step.Turn?
    ensures var v := Advance(w, step, slots); v.ring == w.ring && v.accepted == w.accepted && v.delivered == w.delivered
  {
    hide Close, RemovePid;
    match step {
      case SetFd(p, f, side) => if w.tasks[p].fds[f] != NoEnd { CloseFlow(Attach(w, side), w.tasks[p].fds[f].side); }
      case Redirect(p, f) => CloseFlow(SetEnd(w, p, f, NoEnd), w.tasks[p].fds[f].side);
      case Drop(side) => CloseFlow(w, side);
      case CloseOne(p, f) =>
        var s := w.tasks[p].fds[f].side;
        CloseFlow(SetEnd(SetOp(w, p, Dying(w.tasks[p].op.owes.Put(s, false))), p, f, NoEnd), s);
      case _ =>
    }
  }

  /** On every run a pipe without readers takes no bytes: a step of an open pipe accepts at most one
      byte, and does so exactly when a writer takes its turn with a reader counted and room left. */
  lemma BytesNeedReaders(worlds: seq<World>, steps: seq<Step>, slots: nat, k: nat)
    requires IsFlow(worlds, steps, slots) && k < |steps| && worlds[k].active
    ensures var w, v, step := worlds[k], worlds[k + 1], steps[k];
            var takes := step.Turn? && w.tasks[step.p].op.side == Wr && w.ends.rd > 0 && |w.ring| < w.capacity;
            && v.accepted == w.accepted + (if takes then [step.b] else [])
            && (w.ends.rd == 0 ==> v.accepted == w.accepted && |v.ring| <= |w.ring|)
  {
    FlowStep(worlds, steps, slots, k);
    var w, step := worlds[k], steps[k];
    if step.Turn? {
      if w.tasks[step.p].op.side == Rd { ReaderTurn(w, step.p, step.b, step.more, slots); }
      else { WriterTurn(w, step.p, step.b, step.more, slots); }
    } else {
      OnlyTurnsMove(w, step, slots);
    }
    hide IsFlow, Advance, Doing;
  }

  // ---------------------------------------------------------------- who is woken

  /** A post woke the best of the waiters, or nobody if there are none. */
  ghost predicate WokeBest(q: seq<Waiter>, before: Procs, after: Procs) {
    if q == [] then after == before
    else
      var b := Best(q, before);
      && IsBest(q, before, |q|, b) && b >= 0
      && after == before[q[b].pid := View(false, before[q[b].pid].prio)]
  }

  lemma PostWokeBest(x: Sem, procs: Procs)
    requires Exact(x, procs)
    ensures WokeBest(x.queue, procs, Post(x, procs).1)
  {
    ExactPost(x, procs);
    if x.queue != [] {
      assert Sleeps(procs, x.queue[0].pid);
      PostWakes(x, procs);
    }
  }

  /** A byte that moves wakes the best waiter of the other side and nobody else; a turn that moves
      none wakes nobody. */
  lemma TurnWakes(w: World, p: int, b: Byte, more: bool, slots: nat)
    requires Inv(w) && w.active && Possible(w, Turn(p, b, more))
    ensures var v, s := Advance(w, Turn(p, b, more), slots), w.tasks[p].op.side;
            if v.ring != w.ring then WokeBest(w.sems.Get(Other(s)).queue, w.procs, v.procs)
            else forall x :: Sleeps(w.procs, x) ==> Sleeps(v.procs, x)
  {
    hide Inv, Advance, WokeBest, Post;
    var s := w.tasks[p].op.side;
    BothExact(w, s);
    PostWokeBest(w.sems.Get(Other(s)), w.procs);
    TurnPosts(w, p, b, more, slots);
  }

  lemma BothExact(w: World, s: Side)
    requires Inv(w) && w.active
    ensures Exact(w.sems.Get(s), w.procs) && Exact(w.sems.Get(Other(s)), w.procs)
  {
    InvSides(w, s);
    hide Inv;
    AsleepExact(w, s);
    AsleepExact(w, Other(s));
  }

  lemma TurnPosts(w: World, p: int, b: Byte, more: bool, slots: nat)
    requires Possible(w, Turn(p, b, more))
    ensures var v, s := Advance(w, Turn(p, b, more), slots), w.tasks[p].op.side;
            if v.ring != w.ring then v.procs == Post(w.sems.Get(Other(s)), w.procs).1
            else forall x :: Sleeps(w.procs, x) ==> Sleeps(v.procs, x)
  {
    var s := w.tasks[p].op.side;
    hide Post, SleepOn, Without;
    SleepOnIs(w.sems.Get(s), w.procs, p, slots);
    assert w.ring != [] ==> |w.ring[1..]| != |w.ring|;
    assert |w.ring + [b]| != |w.ring|;
  }

  /** Closing the last end of a side wakes everybody who waits on the other side. Closing another
      one hands a wake-up to the best waiter of this side if it has something to do, and otherwise
      wakes nobody. */
  lemma CloseWakes(w: World, s: Side)
    requires Inv(w) && w.active
    ensures var v := Close(w, s);
            if w.ends.Get(s) <= 1 then Woken(w.sems.Get(Other(s)).queue, w.procs, v.procs)
            else if Room(w, s) > 0 then WokeBest(w.sems.Get(s).queue, w.procs, v.procs)
            else v.procs == w.procs
  {
    hide Inv, Post, PostAll, WokeBest, Woken, Exact;
    BothExact(w, s);
    PostWokeBest(w.sems.Get(s), w.procs);
    ExactPostAll(w.sems.Get(Other(s)), w.procs);
  }
}

/** One slot of the pipe table as a protocol: readers and writers that block on two semaphores
    used as event counters. Each step is one region that runs with interrupts disabled. */
module PipeSpec {
  import opened SemSpec

  type Byte = x: int | 0 <= x < 256

  /** The reading and the writing side. */
  datatype Side = Rd | Wr

  function Other(s: Side): Side {
    if s == Rd then Wr else Rd
  }

  datatype Both<T> = Both(rd: T, wr: T) {
    function Get(s: Side): T {
      if s == Rd then rd else wr
    }

    function Put(s: Side, x: T): Both<T> {
      if s == Rd then Both(x, wr) else Both(rd, x)
    }
  }

  /** What a file descriptor refers to, as far as this pipe is concerned. */
  datatype End = NoEnd | End(side: Side)

  /** Outside the pipe; inside pipe_read or pipe_write, having slept in this round or not; or
      being torn down, owing the hand-off of a wake-up it consumed. */
  datatype Op = Outside | In(side: Side, waited: bool) | Dying(owes: Both<bool>)

  datatype Task = Task(fds: seq<End>, op: Op)

  /** `ends` are the readers and writers counters, `reserved` the ends handed out by the open and
      not yet claimed. sems.rd counts arrivals of data, sems.wr arrivals of space. `accepted` and
      `delivered` record all bytes written to and read from the pipe since it was opened. */
  datatype World = World(active: bool, ring: seq<Byte>, capacity: nat, ends: Both<nat>, reserved: Both<nat>, sems: Both<Sem>,
                         accepted: seq<Byte>, delivered: seq<Byte>, tasks: map<int, Task>, procs: Procs)

  /** What a side needs to make progress: bytes for the readers, free space for the writers. */
  function Room(w: World, s: Side): int {
    if s == Rd then |w.ring| else w.capacity - |w.ring|
  }

  function SetOp(w: World, p: int, op: Op): World
    requires p in w.tasks
  {
    w.(tasks := w.tasks[p := w.tasks[p].(op := op)])
  }

  // ---------------------------------------------------------------- pieces of the steps

  /** The wait loop: left-over events are consumed until the caller sleeps. */
  function SleepOn(s: Sem, procs: Procs, pid: int, slots: nat): (r: (Sem, Procs, WaitOutcome))
    decreases Max0(s.value)
  {
    var (t, ps, outcome) := Wait(s, procs, pid, slots);
    if outcome == Passed then SleepOn(t, ps, pid, slots) else (t, ps, outcome)
  }

  /** Left-over events are used up; then the caller falls asleep last in line unless the other
      waiters leave it no place. */
  lemma {:induction false} SleepOnIs(s: Sem, procs: Procs, pid: int, slots: nat)
    ensures var q, value := Without(s.queue, pid), if s.value > 0 then 0 else s.value;
            SleepOn(s, procs, pid, slots) == if |q| < slots then (Sem(value - 1, q + [Waiter(pid, 0)]), PutToSleep(procs, pid), Slept)
                                             else (Sem(value, q), procs, Refused)
    decreases Max0(s.value)
  {
    hide Without, PutToSleep;
    if s.value > 0 { SleepOnIs(s.(value := s.value - 1), procs, pid, slots); }
  }

  function PostSide(w: World, s: Side): World {
    var (t, ps) := Post(w.sems.Get(s), w.procs);
    w.(sems := w.sems.Put(s, t), procs := ps)
  }

  function PostAllSide(w: World, s: Side): World {
    var (t, ps) := PostAll(w.sems.Get(s), w.procs);
    w.(sems := w.sems.Put(s, t), procs := ps)
  }

  function Dec(n: nat): nat {
    if n > 0 then n - 1 else 0
  }

  /** One end less on a side, and one reservation less if there is one. */
  function Uncount(w: World, s: Side): World {
    w.(ends := w.ends.Put(s, Dec(w.ends.Get(s))), reserved := w.reserved.Put(s, Dec(w.reserved.Get(s))))
  }

  /** With the last end of a side gone the other side is woken; otherwise a wake-up is handed on. */
  function Notified(a: World, s: Side): World {
    if a.ends.Get(s) == 0 then PostAllSide(a, Other(s)) else if Room(a, s) > 0 then PostSide(a, s) else a
  }

  function FreeIfUnused(b: World): World {
    if b.ends == Both(0, 0) then
      b.(active := false, reserved := Both(0, 0), sems := Both(b.sems.rd.(queue := []), b.sems.wr.(queue := [])))
    else b
  }

  /** pipe_close. */
  function Close(w: World, s: Side): World {
    if !w.active then w else FreeIfUnused(Notified(Uncount(w, s), s))
  }

  /** pipe_attach on an open pipe: claim the reserved end or add one. */
  function Attach(w: World, s: Side): World {
    if w.reserved.Get(s) > 0 then w.(reserved := w.reserved.Put(s, w.reserved.Get(s) - 1))
    else w.(ends := w.ends.Put(s, w.ends.Get(s) + 1))
  }

  function SetEnd(w: World, p: int, f: nat, e: End): World
    requires p in w.tasks && f < |w.tasks[p].fds|
  {
    w.(tasks := w.tasks[p := w.tasks[p].(fds := w.tasks[p].fds[f := e])])
  }

  // ---------------------------------------------------------------- steps

  /** One round of pipe_read or pipe_write by p: sleep, leave, or move one byte. `b` is the byte to
      write, `more` tells whether the caller wants another one. */
  function Round(w: World, p: int, b: Byte, more: bool, slots: nat): World
    requires p in w.tasks && w.tasks[p].op.In?
  {
    var s := w.tasks[p].op.side;
    if w.ends.Get(Other(s)) > 0 && Room(w, s) <= 0 then
      var (t, ps, outcome) := SleepOn(w.sems.Get(s), w.procs, p, slots);
      SetOp(w.(sems := w.sems.Put(s, t), procs := ps), p, if outcome == Slept then In(s, true) else Outside)
    else if (if s == Rd then w.ring == [] else w.ends.rd == 0) then SetOp(w, p, Outside)
    else
      var moved := if s == Rd then w.(ring := w.ring[1..], delivered := w.delivered + [w.ring[0]])
                   else w.(ring := w.ring + [b], accepted := w.accepted + [b]);
      SetOp(PostSide(moved, Other(s)), p, if more then In(s, false) else Outside)
  }

  datatype Step =
    | Open(capacity: nat)                        // pipe_open_with_capacity takes this slot
    | Spawn(p: int, nfds: nat, prio: nat)        // scheduler_create
    | SetFd(p: int, f: nat, side: Side)          // syscall_pipe_set_fd
    | Redirect(p: int, f: nat)                   // syscall_pipe_set_fd points a descriptor of this pipe to another one
    | Drop(side: Side)                           // pipe_close on a reserved end nobody claimed
    | Begin(p: int, f: nat)                      // syscall_read or syscall_write enters the pipe
    | Turn(p: int, b: Byte, more: bool)          // one round of the read or write loop
    | Elsewhere(p: int, view: View)              // p is blocked, unblocked or reniced by others, or waits elsewhere
    | Renice(p: int, prio: nat)
    | BeginKill(p: int)                          // kill or exit: p leaves the semaphore queues
    | CloseOne(p: int, f: nat)                   // ... and its descriptors are closed one by one
    | Finish(p: int)                             // ... until it is dead

  /** When a step can happen at all. Descriptors of a process that is being torn down are not set. */
  ghost predicate Possible(w: World, step: Step) {
    match step
    case Open(capacity) => !w.active && capacity > 0
    case Spawn(p, _, _) => p !in w.tasks && p !in w.procs
    case SetFd(p, f, _) => p in w.tasks && f < |w.tasks[p].fds| && !w.tasks[p].op.Dying? && w.active
    case Redirect(p, f) => p in w.tasks && f < |w.tasks[p].fds| && w.tasks[p].fds[f] != NoEnd && !w.tasks[p].op.Dying?
    case Drop(side) => w.active
    case Begin(p, f) => p in w.tasks && f < |w.tasks[p].fds| && w.tasks[p].fds[f] != NoEnd && w.tasks[p].op == Outside && !Sleeps(w.procs, p)
    case Turn(p, _, _) => p in w.tasks && w.tasks[p].op.In? && !Sleeps(w.procs, p)
    case Elsewhere(p, _) => p in w.tasks
    case Renice(p, _) => p in w.tasks && p in w.procs
    case BeginKill(p) => p in w.tasks && !w.tasks[p].op.Dying?
    case CloseOne(p, f) => p in w.tasks && w.tasks[p].op.Dying? && f < |w.tasks[p].fds| && w.tasks[p].fds[f] != NoEnd
    case Finish(p) => p in w.tasks && w.tasks[p].op.Dying? && forall f :: 0 <= f < |w.tasks[p].fds| ==> w.tasks[p].fds[f] == NoEnd
  }

  /** Recorded on one of the semaphores, that is, waiting in the pipe. */
  ghost predicate Waiting(w: World, p: int) {
    Recorded(w.sems.rd.queue, p) || Recorded(w.sems.wr.queue, p)
  }

  /** Disciplined use: an explicit close drops a reservation nobody claimed, and nobody else blocks
      or unblocks a process while it waits in the pipe. */
  ghost predicate Disciplined(w: World, step: Step)
    requires Possible(w, step)
  {
    match step
    case Drop(side) => w.reserved.Get(side) > 0
    case Elsewhere(p, _) => !Waiting(w, p)
    case _ => true
  }

  ghost predicate Enabled(w: World, step: Step) {
    Possible(w, step) && Disciplined(w, step)
  }

  ghost function Advance(w: World, step: Step, slots: nat): World
    requires Possible(w, step)
  {
    match step
    case Open(capacity) =>
      World(true, [], capacity, Both(1, 1), Both(1, 1), Both(Sem(0, []), Sem(0, [])), [], [], w.tasks, w.procs)
    case Spawn(p, nfds, prio) =>
      w.(tasks := w.tasks[p := Task(seq(nfds, _ => NoEnd), Outside)], procs := w.procs[p := View(false, prio)])
    case SetFd(p, f, side) =>
      var prior := w.tasks[p].fds[f];
      var a := Attach(w, side);
      SetEnd(if prior == NoEnd then a else Close(a, prior.side), p, f, End(side))
    case Redirect(p, f) => Close(SetEnd(w, p, f, NoEnd), w.tasks[p].fds[f].side)
    case Drop(side) => Close(w, side)
    case Begin(p, f) => SetOp(w, p, In(w.tasks[p].fds[f].side, false))
    case Turn(p, b, more) => Round(w, p, b, more, slots)
    case Elsewhere(p, view) => w.(procs := w.procs[p := view])
    case Renice(p, prio) => w.(procs := w.procs[p := w.procs[p].(prio := prio)])
    case BeginKill(p) =>
      var op := w.tasks[p].op;
      var woken := op.In? && op.waited && !Recorded(w.sems.Get(op.side).queue, p);
      SetOp(w.(sems := Both(RemovePid(w.sems.rd, p), RemovePid(w.sems.wr, p))), p,
            Dying(Both(woken && op.side == Rd, woken && op.side == Wr)))
    case CloseOne(p, f) =>
      var e := w.tasks[p].fds[f];
      var a := SetEnd(SetOp(w, p, Dying(w.tasks[p].op.owes.Put(e.side, false))), p, f, NoEnd);
      Close(a, e.side)
    case Finish(p) => w.(tasks := w.tasks - {p}, procs := w.procs - {p})
  }
}

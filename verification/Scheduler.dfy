/** The scheduler as the kernel runs it: arrays updated in place, refining SchedSpec. */
module Scheduler {
  import opened Seqs
  import opened SchedSpec
  import opened SchedInv
  import opened SchedLinks
  import SchedTick

  class ProcessTable {
    const procs: array<Proc>
    const next: array<int>       // ready_next of each slot
    const inReady: array<bool>   // in_ready_queue of each slot
    const heads: array<int>
    const tails: array<int>
    var current: int
    var needResched: bool
    var nextPid: int
    var processCount: int
    ghost var queues: seq<seq<int>>
    ghost var allocs: multiset<int>
    ghost var frees: multiset<int>
    ghost var reaped: seq<int>

    ghost function State(): Sched
      reads this, procs
    {
      Sched(procs[..], queues, current, needResched, nextPid, processCount, allocs, frees, reaped)
    }

    ghost function Stored(): Links
      reads heads, tails, next, inReady
    {
      Links(heads[..], tails[..], next[..], inReady[..])
    }

    ghost predicate Valid()
      reads this, procs, next, inReady, heads, tails
    {
      next != heads && next != tails && heads != tails && Threads(State(), Stored())
    }

    method EnqueueReady(idx: int)
      requires Valid()
      modifies this`queues, next, inReady, heads, tails
      ensures Valid() && State() == Enqueue(old(State()), idx)
    {
      if idx <= 0 || idx >= procs.Length {
        return;
      }
      ghost var s, k := State(), Stored();
      FlagIsQueued(s, k, idx);
      if inReady[idx] {
        return;
      }
      var q := Level(procs[idx].eff);
      ThreadsEnqueue(s, k, idx);
      hide Threads, Queued, Appended;
      LinkLast(idx, q);
      queues := Enqueue(s, idx).queues;
    }

    /** Link a slot behind the tail of a list. */
    method LinkLast(idx: int, q: nat)
      requires next != heads && next != tails && heads != tails && heads.Length == tails.Length == LEVELS && q < LEVELS
      requires next.Length == inReady.Length && 0 <= idx < next.Length && (tails[q] == NONE || 0 <= tails[q] < next.Length)
      modifies next, inReady, heads, tails
      ensures Stored() == Appended(old(Stored()), q, idx)
    {
      next[idx] := NONE;
      if tails[q] == NONE {
        heads[q] := idx;
        tails[q] := idx;
      } else {
        next[tails[q]] := idx;
        tails[q] := idx;
      }
      inReady[idx] := true;
    }

    /** Walk the list of a queued slot up to its predecessor. */
    method Predecessor(idx: int, q: nat) returns (prev: int)
      requires Valid() && Queued(State(), idx) && q == Level(procs[idx].eff)
      ensures prev == At(queues[q], IndexOf(queues[q], idx) - 1)
    {
      ghost var list, p := queues[q], 0;
      assert Thread(list, heads[q], tails[q], next[..]);
      hide Threads;
      prev := NONE;
      var cur := heads[q];
      while cur != NONE
        invariant p <= |list| && cur == At(list, p) && prev == At(list, p - 1) && idx !in list[..p]
        decreases |list| - p
      {
        if cur == idx {
          IndexUnique(list, idx, p);
          return;
        }
        prev := cur;
        cur := next[cur];
        p := p + 1;
      }
      assert false;  // a flagged slot is always found in the list of its priority
    }

    /** Take element j of a list out of the links, given its predecessor. */
    method Unlink(idx: int, q: nat, prev: int, ghost list: seq<int>, ghost j: nat)
      requires next != heads && next != tails && heads != tails && heads.Length == tails.Length == LEVELS && q < LEVELS
      requires next.Length == inReady.Length && j < |list| && idx == list[j] && prev == At(list, j - 1)
      requires forall m :: 0 <= m < |list| ==> 0 <= list[m] < next.Length
      requires next[idx] == At(list, j + 1) && (j > 0 ==> list[j - 1] != idx) && (tails[q] == idx <==> j == |list| - 1)
      modifies next, inReady, heads, tails
      ensures Stored() == Removed(old(Stored()), q, list, j) && !inReady[idx]
    {
      var after := next[idx];
      if prev == NONE {
        heads[q] := after;
      } else {
        next[prev] := after;
      }
      if tails[q] == idx {
        tails[q] := prev;
      }
      next[idx] := NONE;
      inReady[idx] := false;
      assert heads[..] == (if j == 0 then old(heads[..])[q := At(list, 1)] else old(heads[..]));
      assert tails[..] == (if j == |list| - 1 then old(tails[..])[q := At(list, j - 1)] else old(tails[..]));
    }

    method RemoveReady(idx: int)
      requires Valid()
      modifies this`queues, next, inReady, heads, tails
      ensures Valid() && State() == Unqueue(old(State()), idx)
      ensures 0 <= idx < procs.Length ==> !inReady[idx]
    {
      hide Threads, Removed;
      if idx < 0 || idx >= procs.Length {
        return;
      }
      ghost var s, k := State(), Stored();
      FlagIsQueued(s, k, idx);
      if idx == 0 || !inReady[idx] {
        return;
      }
      var q := Level(procs[idx].eff);
      ghost var list, j := queues[q], IndexOf(queues[q], idx);
      var prev := Predecessor(idx, q);
      ThreadsRemove(s, k, idx);
      LinkFacts(s, k, q, j);
      Unlink(idx, q, prev, list, j);
      queues := Unqueue(s, idx).queues;
    }

    /** Overwrite a table entry without touching the queues. */
    method Write(idx: int, p: Proc)
      requires Valid() && 0 <= idx < procs.Length
      requires !inReady[idx] || Level(p.eff) == Level(procs[idx].eff)
      modifies procs
      ensures Valid() && State() == Set(old(State()), idx, p)
    {
      ThreadsSet(State(), Stored(), idx, p);
      procs[idx] := p;
      assert procs[..] == old(procs[..])[idx := p];
    }

    method RequestReschedule()
      requires Valid()
      modifies this`needResched
      ensures Valid() && State() == old(State()).(resched := true)
    {
      ThreadsScalars(State(), State().(resched := true), Stored());
      needResched := true;
    }

    method MakeReady(idx: int)
      requires Valid() && 0 <= idx < procs.Length
      modifies this`queues, this`needResched, procs, next, inReady, heads, tails
      ensures Valid() && State() == SchedSpec.MakeReady(old(State()), idx)
    {
      if idx <= 0 || procs[idx].status == Dead || procs[idx].status == Zombie {
        return;
      }
      ghost var s := State();
      FlagIsQueued(s, Stored(), idx);
      if inReady[idx] {
        RemoveReady(idx);
      }
      assert State() == Unqueue(s, idx) && !inReady[idx];
      hide Threads, Unqueue, Enqueue;
      var p := procs[idx];
      Write(idx, p.(eff := p.prio, ticks := 0, status := Ready, quantum := DEFAULT_QUANTUM));
      EnqueueReady(idx);
      if current > 0 && procs[idx].eff > procs[current].eff {
        RequestReschedule();
      }
    }

    // -------------------------------------------------------------- aging and dispatch

    method AgeReady()
      requires Valid()
      modifies this`queues, procs, next, inReady, heads, tails
      ensures Valid() && State() == AgeFrom(old(State()), 1)
    {
      hide Threads, AgeOne;
      ThreadShape(State(), Stored());
      var idx := 1;
      while idx < procs.Length
        invariant 1 <= idx <= procs.Length && Valid() && Shaped(State())
        invariant AgeFrom(State(), idx) == AgeFrom(old(State()), 1)
      {
        AgeSlot(idx);
        idx := idx + 1;
      }
    }

    method AgeSlot(idx: int)
      requires Valid() && 0 < idx < procs.Length
      modifies this`queues, procs, next, inReady, heads, tails
      ensures Valid() && Shaped(State()) && State() == AgeOne(old(State()), idx)
    {
      hide Threads, Unqueue, Enqueue;
      FlagIsQueued(State(), Stored(), idx);
      if !inReady[idx] || procs[idx].status != Ready {
        return;
      }
      var p := procs[idx];
      if p.ticks + 1 >= AGING_THRESHOLD && p.eff < PRIORITY_MAX {
        RemoveReady(idx);
        Write(idx, p.(eff := p.eff + 1, ticks := 0));
        EnqueueReady(idx);
      } else {
        Write(idx, p.(ticks := p.ticks + 1));
      }
      FlagIsQueued(State(), Stored(), idx);
    }

    method HighestReady() returns (pr: int)
      requires Valid()
      ensures Shaped(State()) && pr == Highest(State())
    {
      hide Threads, HighestUpTo;
      ThreadShape(State(), Stored());
      pr := PRIORITY_MAX;
      while pr >= PRIORITY_MIN
        invariant PRIORITY_MIN - 1 <= pr <= PRIORITY_MAX
        invariant HighestUpTo(State(), pr) == Highest(State())
      {
        TailInRange(State(), Stored(), Level(pr));
        HighestStep(State(), pr);
        if heads[Level(pr)] != NONE {
          return;
        }
        pr := pr - 1;
      }
      HighestStep(State(), pr);
      pr := 0;
    }

    /** The slot to run next, taken off its queue. */
    method DequeueNext() returns (idx: int)
      requires Valid()
      modifies this`queues, procs, next, inReady, heads, tails
      ensures Valid() && Shaped(old(State()))
      ensures var a := AgeFrom(old(State()), 1);
              0 <= idx < |a.procs| && idx == Next(a) && State() == TakeNext(a)
    {
      AgeReady();
      idx := TakeHead();
    }

    /** Take the first slot off the queue of a priority, or return NONE. */
    method DequeueReady(pr: int) returns (idx: int)
      requires Valid()
      modifies this`queues, procs, next, inReady, heads, tails
      ensures Valid() && Shaped(old(State()))
      ensures var s, l := old(State()), Level(pr);
              if s.queues[l] == [] then idx == NONE && State() == s
              else && idx == s.queues[l][0] && 0 < idx < procs.Length && !inReady[idx]
                   && State() == Set(s, idx, s.procs[idx].(ticks := 0)).(queues := s.queues[l := s.queues[l][1..]])
    {
      hide Threads;
      ghost var s := State();
      ThreadShape(s, Stored());
      var l := Level(pr);
      TailInRange(s, Stored(), l);
      idx := heads[l];
      if idx == NONE {
        return;
      }
      HeadFacts(s, Stored(), l);
      LinkFacts(s, Stored(), l, 0);
      ThreadsRemove(s, Stored(), idx);
      UnlinkHead(idx, l, queues[l]);
      queues := Unqueue(s, idx).queues;
      Write(idx, procs[idx].(ticks := 0));
    }

    method UnlinkHead(idx: int, q: nat, ghost list: seq<int>)
      requires next != heads && next != tails && heads != tails && heads.Length == tails.Length == LEVELS && q < LEVELS
      requires next.Length == inReady.Length && 0 < |list| && idx == list[0]
      requires forall m :: 0 <= m < |list| ==> 0 <= list[m] < next.Length
      requires next[idx] == At(list, 1) && (tails[q] == idx <==> |list| == 1)
      modifies next, inReady, heads, tails
      ensures Stored() == Removed(old(Stored()), q, list, 0) && !inReady[idx]
    {
      heads[q] := next[idx];
      if heads[q] == NONE {
        tails[q] := NONE;
      }
      next[idx] := NONE;
      inReady[idx] := false;
      assert tails[..] == (if |list| == 1 then old(tails[..])[q := NONE] else old(tails[..]));
    }

    method TakeHead() returns (idx: int)
      requires Valid()
      modifies this`queues, procs, next, inReady, heads, tails
      ensures Valid() && Shaped(old(State()))
      ensures var a := old(State());
              0 <= idx < |a.procs| && idx == Next(a) && State() == TakeNext(a)
    {
      hide Threads, HighestUpTo;
      ghost var a := State();
      ThreadShape(a, Stored());
      var pr := PRIORITY_MAX;
      while pr >= PRIORITY_MIN
        invariant PRIORITY_MIN - 1 <= pr <= PRIORITY_MAX && Valid() && State() == a
        invariant HighestUpTo(a, pr) == Highest(a)
      {
        HighestStep(a, pr);
        idx := DequeueReady(pr);
        if idx != NONE {
          Write(idx, procs[idx].(eff := procs[idx].prio));
          return;
        }
        pr := pr - 1;
      }
      HighestStep(a, pr);
      idx := 0;
    }

    /** One scheduler tick: charge the current process, preempt it and switch. */
    method Tick()
      requires Valid()
      modifies this`queues, this`current, this`needResched, procs, next, inReady, heads, tails
      ensures Shaped(old(State())) && InRange(old(State()))
      ensures Valid() && State() == SchedSpec.Tick(old(State()))
    {
      hide Threads, HighestUpTo, AgeFrom;
      ghost var s := State();
      ThreadShape(s, Stored());
      var p := procs[current];
      if p.status == Running {
        Write(current, p.(quantum := p.quantum - 1));
        var top := HighestReady();
        if !needResched && p.quantum - 1 > 0 && top <= p.eff {
          return;
        }
        if current > 0 {
          MakeReady(current);
        }
      }
      assert State() == Preempt(s);
      NextInRange(s);
      SwitchToNext();
    }

    method SwitchToNext()
      requires Valid()
      modifies this`queues, this`current, this`needResched, procs, next, inReady, heads, tails
      ensures Shaped(old(State()))
      ensures var a := AgeFrom(old(State()), 1);
              0 <= Next(a) < |a.procs| && Valid() && State() == Switch(a)
    {
      hide Threads, HighestUpTo, AgeFrom, Next, TakeNext;
      var idx := DequeueNext();
      Write(idx, procs[idx].(status := Running, quantum := DEFAULT_QUANTUM));
      ThreadsScalars(State(), State().(cur := idx, resched := false), Stored());
      current := idx;
      needResched := false;
    }

    // -------------------------------------------------------------- process operations

    method FindIndex(pid: int) returns (r: int)
      ensures r == Find(State(), pid, 0)
    {
      r := 0;
      while r < procs.Length
        invariant 0 <= r <= procs.Length && Find(State(), pid, r) == Find(State(), pid, 0)
      {
        if procs[r].pid == pid && procs[r].status != Dead {
          return;
        }
        r := r + 1;
      }
      r := -1;
    }

    method FindFreeSlot() returns (r: int)
      requires procs.Length >= 1
      ensures r == FindDead(State(), 1)
    {
      r := 1;
      while r < procs.Length
        invariant 1 <= r <= procs.Length && FindDead(State(), r) == FindDead(State(), 1)
      {
        if procs[r].status == Dead {
          return;
        }
        r := r + 1;
      }
      r := -1;
    }

    method ClearLinks(idx: int)
      requires Valid() && 0 <= idx < procs.Length && !inReady[idx]
      modifies next, inReady
      ensures Valid() && State() == old(State()) && !inReady[idx]
    {
      ThreadsClear(State(), Stored(), idx);
      next[idx] := NONE;
      inReady[idx] := false;
      assert next[..] == old(next[..])[idx := NONE] && inReady[..] == old(inReady[..])[idx := false];
    }

    /** What every operation keeps. */
    ghost predicate Consistent()
      reads this, procs, next, inReady, heads, tails
    {
      Valid() && Inv(State(), {}, true)
    }

    /** Consistent, and nothing but ready slots on the queues. */
    ghost predicate Clean()
      reads this, procs, next, inReady, heads, tails
    {
      Consistent() && Inv(State(), {}, false)
    }

    /** `stack` is a block that the heap has handed out, or NONE. */
    method Create(priority: int, stack: int) returns (pid: int)
      requires Consistent() && FreshStack(State(), stack)
      modifies this, procs, next, inReady, heads, tails
      ensures Consistent() && State() == SchedSpec.Create(old(State()), priority, stack)
      ensures pid == if FindDead(old(State()), 1) < 0 || stack == NONE then -1 else old(nextPid)
    {
      hide Threads, SchedSpec.MakeReady, QInv, PInv, Ledger, Stacks;
      ghost var s := State();
      CreateKeeps(s, priority, stack, true);
      var prio := if PRIORITY_MIN <= priority <= PRIORITY_MAX then priority else DEFAULT_PRIORITY;
      var slot := FindFreeSlot();
      if slot < 0 || stack == NONE {
        return -1;
      }
      SlotFacts(s, slot, {}, true);
      pid := nextPid;
      Install(slot, Proc(pid, procs[current].pid, Ready, prio, prio, DEFAULT_QUANTUM, 0, stack, -1, 0));
    }

    /** Fill a slot that is off the queues with a new process and make that ready. */
    method Install(slot: int, p: Proc)
      requires Valid() && 0 < slot < procs.Length && Shaped(State()) && !Queued(State(), slot)
      modifies this, procs, next, inReady, heads, tails
      ensures Shaped(old(State()))
      ensures Valid() && State() == SchedSpec.MakeReady(Admit(old(State()), slot, p), slot)
    {
      hide Threads, SchedSpec.MakeReady, Queued;
      FlagIsQueued(State(), Stored(), slot);
      Write(slot, p);
      ClearLinks(slot);
      Enroll(p.stack);
      MakeReady(slot);
    }

    method Enroll(stack: int)
      requires Valid()
      modifies this`nextPid, this`processCount, this`allocs
      ensures Valid()
      ensures State() == old(State()).(nextPid := old(nextPid) + 1, count := old(processCount) + 1, allocs := old(allocs) + multiset{stack})
    {
      ThreadsScalars(State(), State().(nextPid := nextPid + 1, count := processCount + 1, allocs := allocs + multiset{stack}), Stored());
      nextPid := nextPid + 1;
      processCount := processCount + 1;
      allocs := allocs + multiset{stack};
    }

    method FindBlockedIndex(pid: int) returns (r: int)
      ensures r == FindBlocked(State(), pid, 0)
    {
      r := 0;
      while r < procs.Length
        invariant 0 <= r <= procs.Length && FindBlocked(State(), pid, r) == FindBlocked(State(), pid, 0)
      {
        if procs[r].pid == pid && procs[r].status == Blocked {
          return;
        }
        r := r + 1;
      }
      r := -1;
    }

    /** Also what semaphores call to wake a waiter. */
    method UnblockPid(pid: int)
      requires Valid()
      modifies this`queues, this`needResched, procs, next, inReady, heads, tails
      ensures Shaped(old(State())) && Shaped(State())
      ensures Valid() && State() == Unblock(old(State()), pid)
    {
      hide Threads, SchedSpec.MakeReady;
      ThreadShape(State(), Stored());
      var i := FindBlockedIndex(pid);
      if i >= 0 {
        MakeReady(i);
      }
    }

    /** Closing the descriptors of a process wakes these processes, in order. */
    method CloseFds(woken: seq<int>)
      requires Valid()
      modifies this`queues, this`needResched, procs, next, inReady, heads, tails
      ensures Shaped(old(State())) && Shaped(State())
      ensures Valid() && State() == UnblockAll(old(State()), woken)
    {
      hide Threads, Unblock;
      ThreadShape(State(), Stored());
      var n := 0;
      while n < |woken|
        invariant 0 <= n <= |woken| && Valid() && Shaped(State())
        invariant UnblockAll(State(), woken[n..]) == UnblockAll(old(State()), woken)
      {
        assert woken[n..][0] == woken[n] && woken[n..][1..] == woken[n + 1..];
        UnblockPid(woken[n]);
        n := n + 1;
      }
    }

    method WakeAll(pid: int)
      requires Valid()
      modifies this`queues, this`needResched, procs, next, inReady, heads, tails
      ensures Shaped(old(State())) && Shaped(State())
      ensures Valid() && State() == WakeWaiters(old(State()), pid, 0)
    {
      hide Threads, SchedSpec.MakeReady;
      ThreadShape(State(), Stored());
      var j := 0;
      while j < procs.Length
        invariant 0 <= j <= procs.Length && Valid() && Shaped(State())
        invariant WakeWaiters(State(), pid, j) == WakeWaiters(old(State()), pid, 0)
      {
        WakeSlot(pid, j);
        j := j + 1;
      }
    }

    method WakeSlot(pid: int, j: nat)
      requires Valid() && j < procs.Length
      modifies this`queues, this`needResched, procs, next, inReady, heads, tails
      ensures Shaped(old(State())) && Shaped(State())
      ensures Valid() && State() == WakeOne(old(State()), pid, j)
    {
      hide Threads, SchedSpec.MakeReady;
      ThreadShape(State(), Stored());
      if procs[j].status == Blocked && procs[j].waitingFor == pid {
        Write(j, procs[j].(waitingFor := -1));
        MakeReady(j);
      }
    }

    method ExitCurrent(status: int, woken: seq<int>)
      requires Consistent()
      modifies this`queues, this`needResched, procs, next, inReady, heads, tails
      ensures Consistent() && State() == Exit(old(State()), status, woken)
    {
      hide Threads, UnblockAll, Unqueue, WakeWaiters, QInv, PInv, Ledger;
      ghost var s := State();
      ExitKeeps(s, status, woken, true);
      if current <= 0 {
        return;
      }
      Write(current, procs[current].(exitStatus := status));
      CloseFds(woken);
      ThreadShape(State(), Stored());
      RemoveReady(current);
      Write(current, procs[current].(status := Zombie, quantum := 0, ticks := 0));
      RequestReschedule();
      WakeAll(procs[current].pid);
    }

    /** Kill the process with this pid; `woken` as for CloseFds, and it excludes the victim
        because the victim has been taken off the semaphores by then. */
    method KillPid(pid: int, woken: seq<int>) returns (r: int)
      requires Consistent() && (pid !in woken || procs[current].pid == pid)
      modifies this`queues, this`needResched, this`processCount, this`frees, this`reaped, procs, next, inReady, heads, tails
      ensures Consistent() && State() == Kill(old(State()), pid, woken)
      ensures r == if pid <= 1 || Find(old(State()), pid, 0) < 0 then -1 else 0
    {
      hide Threads, KillSlot, QInv, PInv, Ledger, Exit;
      ghost var s := State();
      KillKeeps(s, pid, woken, true);
      if pid <= 1 {
        return -1;
      }
      var i := FindIndex(pid);
      if i < 0 {
        return -1;
      }
      SlotFacts(s, i, {}, true);
      CurrentFacts(s);
      OnePid(s, i, current);
      if i == current {
        ExitCurrent(-1, woken);
      } else {
        KillOther(i, pid, woken);
      }
      r := 0;
    }

    method KillOther(i: int, pid: int, woken: seq<int>)
      requires Consistent() && 0 < i < procs.Length && i != current && procs[i].pid == pid && pid !in woken
      modifies this`queues, this`needResched, this`processCount, this`frees, this`reaped, procs, next, inReady, heads, tails
      ensures Valid() && State() == KillSlot(old(State()), i, pid, woken)
    {
      hide Threads, UnblockAll, Unqueue, WakeWaiters, QInv, PInv, Ledger, Buried, Queued;
      VictimStaysOff(State(), i, woken);
      RemoveReady(i);
      CloseFds(woken);
      FlagIsQueued(State(), Stored(), i);
      BuryVictim(i);
      WakeAll(pid);
    }

    /** Give the stack back and count the process out. */
    method Discharge(ghost stack: int, ghost pids: seq<int>)
      requires Valid()
      modifies this`processCount, this`frees, this`reaped
      ensures Valid()
      ensures State() == old(State()).(frees := Freed(old(frees), stack), count := old(processCount) - 1, reaped := old(reaped) + pids)
    {
      ThreadsScalars(State(), State().(frees := Freed(frees, stack), count := processCount - 1, reaped := reaped + pids), Stored());
      frees := Freed(frees, stack);
      processCount := processCount - 1;
      reaped := reaped + pids;
    }

    method BuryVictim(i: int)
      requires Valid() && 0 <= i < procs.Length && !inReady[i]
      modifies this`processCount, this`frees, this`reaped, procs, next, inReady
      ensures var a := old(State());
              Valid() && State() == Buried(a, i)
    {
      hide Threads;
      ghost var stack := procs[i].stack;
      Write(i, procs[i].(status := Dead, quantum := 0, waitingFor := -1, eff := 0, ticks := 0, stack := NONE));
      ClearLinks(i);
      Discharge(stack, []);
    }

    method BlockPid(pid: int)
      requires Consistent()
      modifies this`queues, this`needResched, procs, next, inReady, heads, tails
      ensures Consistent() && State() == Block(old(State()), pid)
    {
      hide Threads, Unqueue, QInv, PInv, Ledger;
      BlockKeeps(State(), pid, true);
      var i := FindIndex(pid);
      if i < 0 {
        return;
      }
      RemoveReady(i);
      if i == current {
        Write(i, procs[i].(status := Blocked, quantum := 0));
        RequestReschedule();
      } else {
        Write(i, procs[i].(status := Blocked));
      }
    }

    method SetPriority(pid: int, priority: int) returns (r: int)
      requires Consistent()
      modifies this`queues, this`needResched, procs, next, inReady, heads, tails
      ensures Consistent() && State() == Nice(old(State()), pid, priority)
      ensures r == if priority < PRIORITY_MIN || priority > PRIORITY_MAX || Find(old(State()), pid, 0) < 0 then -1 else 0
    {
      hide Threads, QInv, PInv, Ledger, Enqueue;
      ghost var s := State();
      NiceKeeps(s, pid, priority, true);
      if priority < PRIORITY_MIN || priority > PRIORITY_MAX {
        return -1;
      }
      var i := FindIndex(pid);
      if i < 0 {
        return -1;
      }
      FlagIsQueued(s, Stored(), i);
      var wasReady := inReady[i];
      if wasReady {
        RemoveReady(i);
      }
      Write(i, procs[i].(prio := priority, eff := priority, ticks := 0, quantum := DEFAULT_QUANTUM));
      if wasReady {
        EnqueueReady(i);
      }
      if i == current || priority > procs[current].eff {
        RequestReschedule();
      }
      r := 0;
    }

    /** Collect the exit status of a finished child, or block until it finishes. The queues stay
        clean exactly when a blocked caller was not queued. */
    method WaitPid(pid: int) returns (r: int)
      requires Consistent()
      modifies this, procs, next, inReady, heads, tails
      ensures Consistent() && State() == Wait(old(State()), pid) && r == WaitResult(old(State()), pid)
      ensures old(Clean()) ==> (Clean() <==> !QueuedWait(old(State()), pid))
    {
      hide Threads, QInv, PInv, Ledger, Unqueue;
      ghost var s := State();
      WaitKeeps(s, pid, true);
      if Clean() { WaitKeepsIff(s, pid); }
      if pid <= 0 {
        return -1;
      }
      var i := FindIndex(pid);
      if i < 0 || procs[i].parent != procs[current].pid {
        return -1;
      }
      if procs[i].status == Zombie {
        r := procs[i].exitStatus;
        ChildIsYounger(s, pid, true);
        Reap(i, pid);
        return;
      }
      Write(current, procs[current].(waitingFor := pid, status := Blocked, quantum := 0));
      RequestReschedule();
      r := WAIT_BLOCKED;
    }

    method Reap(i: int, ghost pid: int)
      requires Valid() && 0 < i < procs.Length
      modifies this`queues, this`processCount, this`frees, this`reaped, procs, next, inReady, heads, tails
      ensures Shaped(old(State())) && Valid()
      ensures var a := Unqueue(old(State()), i);
              State() == Set(a, i, Proc(0, 0, Dead, 0, 0, 0, 0, NONE, -1, 0)).(
                frees := Freed(a.frees, a.procs[i].stack), count := a.count - 1, reaped := a.reaped + [pid])
    {
      hide Threads, Unqueue;
      ThreadShape(State(), Stored());
      RemoveReady(i);
      ghost var stack := procs[i].stack;
      Write(i, Proc(0, 0, Dead, 0, 0, 0, 0, NONE, -1, 0));
      ClearLinks(i);
      Discharge(stack, [pid]);
    }

    method YieldCurrent()
      requires Consistent()
      modifies this`needResched, procs
      ensures Consistent() && State() == Yield(old(State()))
    {
      hide Threads, QInv, PInv, Ledger;
      YieldKeeps(State(), true);
      Write(current, procs[current].(quantum := 0));
      RequestReschedule();
    }

    /** The timer interrupt. */
    method TimerTick()
      requires Consistent()
      modifies this`queues, this`current, this`needResched, procs, next, inReady, heads, tails
      ensures InRange(old(State()))
      ensures Consistent() && State() == SchedSpec.Tick(old(State()))
      ensures procs[current].status == Running
      ensures old(Clean()) ==> Clean() && SchedTick.Ticked(old(State()), State())
    {
      hide Threads, QInv, PInv, Ledger, SchedSpec.Tick, SchedTick.Ticked;
      ThreadShape(State(), Stored());
      TickFacts(State(), true);
      if Clean() { SchedTick.TickEffect(State()); }
      Tick();
    }

    /** scheduler_init: all slots dead but the idle process, which runs. */
    constructor (n: nat)
      requires n >= 2
      ensures Clean() && State() == Initial(n)
      ensures fresh(procs) && fresh(next) && fresh(inReady) && fresh(heads) && fresh(tails)
    {
      procs := new Proc[n](i => if i == 0 then Proc(0, 0, Running, 1, 1, 1, 0, NONE, -1, 0) else Proc(0, 0, Dead, 0, 0, 0, 0, NONE, 0, 0));
      next := new int[n](_ => NONE);
      inReady := new bool[n](_ => false);
      heads := new int[LEVELS](_ => NONE);
      tails := new int[LEVELS](_ => NONE);
      current, needResched, nextPid, processCount := 0, false, 1, 1;
      queues := seq(LEVELS, _ => []);
      allocs, frees, reaped := multiset{}, multiset{}, [];
      new;
      assert procs[..] == Initial(n).procs && State() == Initial(n);
      assert Stored() == NoLinks(n);
      hide Threads, Inv;
      InitialInv(n);
      Tolerate(Initial(n));
      InitialThreads(n);
    }
  }

  ghost function NoLinks(n: nat): Links {
    Links(seq(LEVELS, _ => NONE), seq(LEVELS, _ => NONE), seq(n, _ => NONE), seq(n, _ => false))
  }

  lemma InitialThreads(n: nat)
    requires n >= 2
    ensures Threads(Initial(n), NoLinks(n))
  {
  }

  /** While its descriptors are closed the victim of a kill stays off the queues. */
  lemma VictimStaysOff(s: Sched, i: int, woken: seq<int>)
    requires Inv(s, {}, true) && 0 < i < |s.procs| && s.procs[i].pid !in woken
    ensures !Queued(UnblockAll(Unqueue(s, i), woken), i)
  {
    UnqueueQ(s, i, {}, true);
    FrameP(s, Unqueue(s, i));
    assert {} + {i} == {i};
    hide PInv, Ledger, UnblockAll, Unqueue;
    UnblockAllKeeps(Unqueue(s, i), woken, {i}, true);
  }

  lemma HighestStep(s: Sched, pr: int)
    requires Shaped(s) && pr <= PRIORITY_MAX
    ensures HighestUpTo(s, pr) == if pr < PRIORITY_MIN then 0 else if s.queues[Level(pr)] != [] then pr else HighestUpTo(s, pr - 1)
  {
  }

  /** The head of a list is queued at that level, and dropping it is removing it. */
  lemma HeadFacts(s: Sched, k: Links, l: nat)
    requires Threads(s, k) && l < LEVELS && k.heads[l] != NONE
    ensures s.queues[l] != [] && k.heads[l] == s.queues[l][0] && 0 < k.heads[l] < |s.procs|
    ensures Queued(s, k.heads[l]) && Level(s.procs[k.heads[l]].eff) == l && IndexOf(s.queues[l], k.heads[l]) == 0
    ensures Unqueue(s, k.heads[l]).queues == s.queues[l := s.queues[l][1..]]
  {
    assert Thread(s.queues[l], k.heads[l], k.tails[l], k.next);
    assert s.queues[l][0] in s.queues[l];
    TailFacts(s.queues[l]);
  }
}

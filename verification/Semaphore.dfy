/** The semaphore as the kernel stores it: two arrays compacted and shifted in place. */
module Semaphore {
  import opened SemSpec

  ghost function Zip(pids: seq<int>, credits: seq<int>): (q: seq<Waiter>)
    requires |pids| == |credits|
    ensures |q| == |pids| && forall i :: 0 <= i < |q| ==> q[i] == Waiter(pids[i], credits[i])
  {
    seq(|pids|, i requires 0 <= i < |pids| => Waiter(pids[i], credits[i]))
  }

  class KernelSemaphore {
    var value: int
    const waiting: array<int>
    const credit: array<int>
    var waitCount: nat

    ghost predicate Valid()
      reads this
    {
      waiting != credit && waiting.Length == credit.Length && waitCount <= waiting.Length
    }

    ghost function Queue(): (q: seq<Waiter>)
      requires Valid()
      reads this, waiting, credit
      ensures |q| == waitCount && forall i :: 0 <= i < |q| ==> q[i] == Waiter(waiting[i], credit[i])
    {
      Zip(waiting[..waitCount], credit[..waitCount])
    }

    ghost function State(): Sem
      requires Valid()
      reads this, waiting, credit
    {
      Sem(value, Queue())
    }

    constructor (capacity: nat, initial: int)
      ensures Valid() && fresh(waiting) && fresh(credit) && waiting.Length == capacity && State() == Sem(initial, [])
    {
      value := initial;
      waiting := new int[capacity];
      credit := new int[capacity];
      waitCount := 0;
    }

    method DequeueAt(index: nat) returns (pid: int)
      requires Valid() && index < waitCount
      modifies this`waitCount, waiting, credit
      ensures Valid() && pid == old(Queue())[index].pid && Queue() == Dequeue(old(Queue()), index)
    {
      pid := waiting[index];
      var i := index;
      while i < waitCount - 1
        invariant index <= i <= waitCount - 1 && waitCount == old(waitCount)
        invariant forall k :: 0 <= k < waitCount && !(index <= k < i) ==> waiting[k] == old(waiting[k]) && credit[k] == old(credit[k])
        invariant forall k :: index <= k < i ==> waiting[k] == old(waiting[k + 1]) && credit[k] == old(credit[k + 1])
      {
        waiting[i] := waiting[i + 1];
        credit[i] := credit[i + 1];
        i := i + 1;
      }
      waitCount := waitCount - 1;
    }

    method RemoveWaiting(pid: int) returns (removed: nat)
      requires Valid()
      modifies this`waitCount, waiting, credit
      ensures Valid() && Queue() == Without(old(Queue()), pid) && removed == old(waitCount) - waitCount
    {
      var writeIdx, readIdx := 0, 0;
      removed := 0;
      ghost var q := Queue();
      while readIdx < waitCount
        invariant 0 <= writeIdx <= readIdx <= waitCount == |q| && removed == readIdx - writeIdx
        invariant Zip(waiting[..writeIdx], credit[..writeIdx]) == Without(q[..readIdx], pid)
        invariant forall k :: readIdx <= k < waitCount ==> q[k] == Waiter(waiting[k], credit[k])
      {
        assert q[..readIdx + 1][..readIdx] == q[..readIdx];
        if waiting[readIdx] != pid {
          ghost var before := Zip(waiting[..writeIdx], credit[..writeIdx]);
          waiting[writeIdx] := waiting[readIdx];
          credit[writeIdx] := credit[readIdx];
          writeIdx := writeIdx + 1;
          assert Zip(waiting[..writeIdx], credit[..writeIdx]) == before + [q[readIdx]];
        } else {
          removed := removed + 1;
        }
        readIdx := readIdx + 1;
      }
      assert q[..readIdx] == q;
      waitCount := writeIdx;
    }

    method Record(pid: int) returns (ok: bool)
      requires Valid()
      modifies this`waitCount, waiting, credit
      ensures Valid()
      ensures var q := Without(old(Queue()), pid);
              ok == (|q| < waiting.Length) && Queue() == if ok then q + [Waiter(pid, 0)] else q
    {
      var _ := RemoveWaiting(pid);
      if waitCount >= waiting.Length {
        return false;
      }
      ghost var q := Queue();
      waiting[waitCount] := pid;
      credit[waitCount] := 0;
      waitCount := waitCount + 1;
      assert Queue() == q + [Waiter(pid, 0)];
      ok := true;
    }

    method AgeWaiters(sel: nat)
      requires Valid()
      modifies credit
      ensures Queue() == AgeExcept(old(Queue()), sel)
      ensures forall k :: 0 <= k < waitCount ==> credit[k] == old(credit[k]) + if k != sel && old(credit[k]) < 5 then 1 else 0
    {
      for i := 0 to waitCount
        invariant forall k :: 0 <= k < i ==> credit[k] == (if k == sel then old(credit[k]) else Richer(old(Queue()[k])).credit)
        invariant forall k :: i <= k < waitCount ==> credit[k] == old(credit[k])
      {
        if i != sel && credit[i] < CREDIT_MAX {
          credit[i] := credit[i] + 1;
        }
      }
    }

    method Select(procs: Procs) returns (best: int)
      requires Valid()
      ensures best == Best(Queue(), procs)
    {
      best := -1;
      var bestScore := -1;
      for i := 0 to waitCount
        invariant best == BestUpTo(Queue(), procs, i)
        invariant bestScore == if best < 0 then -1 else Score(procs, Queue()[best])
      {
        if Sleeps(procs, waiting[i]) && procs[waiting[i]].prio + credit[i] > bestScore {
          best := i;
          bestScore := procs[waiting[i]].prio + credit[i];
        }
      }
    }

    /** Wake one sleeping waiter; returns the scheduler's view afterwards. */
    method UnblockWaiter(procs: Procs) returns (ps: Procs)
      requires Valid()
      modifies this`waitCount, waiting, credit
      ensures Valid() && (Queue(), ps) == UnblockOne(old(Queue()), procs)
    {
      hide Best;
      ps := procs;
      while waitCount > 0
        invariant Valid() && UnblockOne(Queue(), procs) == UnblockOne(old(Queue()), procs)
        decreases waitCount
      {
        var best := Select(procs);
        if best < 0 {
          var _ := DequeueAt(0);
        } else {
          AgeWaiters(best);
          var pid := DequeueAt(best);
          ps := WakeUp(procs, pid);
          return;
        }
      }
    }

    method SemPost(procs: Procs) returns (ps: Procs)
      requires Valid()
      modifies this, waiting, credit
      ensures Valid() && (State(), ps) == Post(old(State()), procs)
    {
      hide UnblockOne;
      value := value + 1;
      ps := procs;
      if value <= 0 {
        ps := UnblockWaiter(procs);
      }
    }

    method SemPostAll(procs: Procs) returns (ps: Procs)
      requires Valid()
      modifies this, waiting, credit
      ensures Valid() && (State(), ps) == PostAll(old(State()), procs)
    {
      hide UnblockOne;
      ps := procs;
      while waitCount > 0
        invariant Valid() && Drain(State(), ps) == Drain(old(State()), procs)
        decreases waitCount
      {
        UnblockShortens(Queue(), ps);
        value := value + 1;
        ps := UnblockWaiter(ps);
      }
      if value < 0 {
        value := 0;
      }
    }

    method SemWait(procs: Procs, pid: int) returns (ps: Procs, outcome: WaitOutcome)
      requires Valid()
      modifies this, waiting, credit
      ensures Valid() && (State(), ps, outcome) == Wait(old(State()), procs, pid, waiting.Length)
    {
      hide Without;
      ps := procs;
      value := value - 1;
      if value >= 0 {
        return ps, Passed;
      }
      var ok := Record(pid);
      if !ok {
        value := value + 1;
        return ps, Refused;
      }
      ps := PutToSleep(procs, pid);
      outcome := Slept;
    }

    method SemRemovePid(pid: int)
      requires Valid()
      modifies this, waiting, credit
      ensures Valid() && State() == RemovePid(old(State()), pid)
    {
      var removed := RemoveWaiting(pid);
      value := value + removed;
    }

    /** sem_open of a fresh slot. */
    method Reset(initial: int)
      requires Valid()
      modifies this
      ensures Valid() && State() == Sem(initial, [])
    {
      value := initial;
      waitCount := 0;
    }

    /** The last sem_close: the waiters are forgotten. */
    method Retire()
      requires Valid()
      modifies this
      ensures Valid() && State() == old(State()).(queue := [])
    {
      waitCount := 0;
    }
  }
}

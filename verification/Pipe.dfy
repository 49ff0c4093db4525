/** A pipe as the kernel stores it: a ring buffer, counters and two semaphores, refining PipeSpec. */
module Pipe {
  import opened SemSpec
  import opened PipeSpec
  import opened Semaphore

  lemma WrapNext(x: nat, capacity: nat)
    requires x < capacity
    ensures (x + 1) % capacity == if x + 1 < capacity then x + 1 else 0
  {
  }

  datatype Result = Asleep | Gone | Moved(byte: Byte)

  class RingBuffer {
    const buf: array<Byte>
    var readPos: nat
    var writePos: nat
    var count: nat
    var capacity: nat

    ghost predicate Valid()
      reads this
    {
      && count <= capacity <= buf.Length
      && (capacity == 0 ==> readPos == 0 && writePos == 0)
      && (capacity > 0 ==> readPos < capacity && writePos == Wrap(readPos + count))
    }

    ghost function Wrap(x: nat): int
      reads this
    {
      if x < capacity then x else x - capacity
    }

    /** The bytes in the ring, oldest first. */
    ghost function Contents(): (c: seq<Byte>)
      requires Valid()
      reads this, buf
      ensures |c| == count && forall i :: 0 <= i < count ==> c[i] == buf[Wrap(readPos + i)]
    {
      seq(count, i requires 0 <= i < count reads this, buf requires Valid() => buf[Wrap(readPos + i)])
    }

    constructor (size: nat)
      ensures Valid() && fresh(buf) && buf.Length == size && capacity == 0
    {
      buf := new Byte[size](_ => 0);
      readPos, writePos, count, capacity := 0, 0, 0, 0;
    }

    method Clear(size: nat)
      requires size <= buf.Length
      modifies this
      ensures Valid() && Contents() == [] && capacity == size
    {
      readPos, writePos, count, capacity := 0, 0, 0, size;
    }

    method Take() returns (b: Byte)
      requires Valid() && count > 0
      modifies this`readPos, this`count
      ensures Valid() && b == old(Contents())[0] && Contents() == old(Contents())[1..]
    {
      b := buf[readPos];
      WrapNext(readPos, capacity);
      readPos := (readPos + 1) % capacity;
      count := count - 1;
    }

    method Put(b: Byte)
      requires Valid() && count < capacity
      modifies this`writePos, this`count, buf
      ensures Valid() && Contents() == old(Contents()) + [b]
    {
      buf[writePos] := b;
      WrapNext(writePos, capacity);
      writePos := (writePos + 1) % capacity;
      count := count + 1;
    }
  }

  class KernelPipe {
    const ring: RingBuffer
    var active: bool
    var readers: nat
    var writers: nat
    var reservedReaders: nat
    var reservedWriters: nat
    const data: KernelSemaphore   // counts arrivals of bytes
    const space: KernelSemaphore  // counts arrivals of free space

    /** The parts of the pipe share no storage. */
    ghost predicate Separate()
      reads this
    {
      && data != space && data.waiting != space.waiting && data.waiting != space.credit
      && data.credit != space.waiting && data.credit != space.credit && data.waiting.Length == space.waiting.Length
    }

    ghost predicate Valid()
      reads this, ring, data, space
    {
      Separate() && ring.Valid() && data.Valid() && space.Valid()
    }

    /** The fields of this slot are those of the abstract pipe. */
    ghost predicate Matches(w: World)
      reads this, ring, ring.buf, data, data.waiting, data.credit, space, space.waiting, space.credit
    {
      && Valid() && w.active == active && w.capacity == ring.capacity && w.ring == ring.Contents()
      && w.ends == Both(readers, writers) && w.reserved == Both(reservedReaders, reservedWriters)
      && w.sems == Both(data.State(), space.State())
    }

    constructor (size: nat, slots: nat)
      ensures Valid() && !active && data.waiting.Length == slots && ring.buf.Length == size
      ensures fresh(ring) && fresh(ring.buf) && fresh(data) && fresh(space)
      ensures fresh(data.waiting) && fresh(data.credit) && fresh(space.waiting) && fresh(space.credit)
    {
      ring := new RingBuffer(size);
      data := new KernelSemaphore(slots, 0);
      space := new KernelSemaphore(slots, 0);
      active, readers, writers, reservedReaders, reservedWriters := false, 0, 0, 0, 0;
    }

    /** pipe_open_with_capacity once it has found this free slot. */
    method OpenSlot(size: int, ghost w: World) returns (ok: bool)
      requires Matches(w) && !active
      modifies this, ring, data, space
      ensures ok == (0 < size <= ring.buf.Length)
      ensures ok ==> Matches(Advance(w, Open(size), data.waiting.Length))
      ensures ok ==> active && ring.capacity == size && ring.count == 0 && readers == writers == reservedReaders == reservedWriters == 1
      ensures !ok ==> Matches(w)
    {
      if size <= 0 || size > ring.buf.Length {
        return false;
      }
      ring.Clear(size);
      readers, writers, active := 1, 1, true;
      reservedReaders, reservedWriters := 1, 1;
      data.Reset(0);
      space.Reset(0);
      ok := true;
    }

    method AttachEnd(side: Side, ghost w: World) returns (ok: bool)
      requires Matches(w)
      modifies this`readers, this`writers, this`reservedReaders, this`reservedWriters
      ensures ok == active
      ensures Matches(if ok then Attach(w, side) else w)
    {
      if !active {
        return false;
      }
      if side == Wr {
        if reservedWriters > 0 {
          reservedWriters := reservedWriters - 1;
        } else {
          writers := writers + 1;
        }
      } else {
        if reservedReaders > 0 {
          reservedReaders := reservedReaders - 1;
        } else {
          readers := readers + 1;
        }
      }
      ok := true;
    }

    method MoveOut(procs: Procs, ghost w: World) returns (ps: Procs, b: Byte)
      requires Matches(w) && w.procs == procs && ring.count > 0
      modifies ring, space, space.waiting, space.credit
      ensures var m := w.(ring := w.ring[1..], delivered := w.delivered + [w.ring[0]]);
              Matches(PostSide(m, Wr)) && ps == PostSide(m, Wr).procs && b == w.ring[0]
    {
      hide Post;
      b := ring.Take();
      ps := space.SemPost(procs);
    }

    method MoveIn(procs: Procs, b: Byte, ghost w: World) returns (ps: Procs)
      requires Matches(w) && w.procs == procs && ring.count < ring.capacity
      modifies ring, ring.buf, data, data.waiting, data.credit
      ensures var m := w.(ring := w.ring + [b], accepted := w.accepted + [b]);
              Matches(PostSide(m, Rd)) && ps == PostSide(m, Rd).procs
    {
      hide Post;
      ring.Put(b);
      ps := data.SemPost(procs);
    }

    /** pipe_close: drop an end, wake whoever that concerns, and free the slot with the last end. */
    method CloseEnd(side: Side, procs: Procs, ghost w: World) returns (ps: Procs)
      requires Matches(w) && w.procs == procs
      modifies this, data, data.waiting, data.credit, space, space.waiting, space.credit
      ensures Matches(Close(w, side)) && ps == Close(w, side).procs
    {
      hide Uncount, Notified, FreeIfUnused;
      if !active {
        return procs;
      }
      DropEnd(side, w);
      ps := Notify(side, procs, Uncount(w, side));
      FreeSlot(Notified(Uncount(w, side), side));
    }

    method DropEnd(side: Side, ghost w: World)
      requires Matches(w)
      modifies this`readers, this`writers, this`reservedReaders, this`reservedWriters
      ensures Matches(Uncount(w, side)) && Uncount(w, side).procs == w.procs
    {
      if side == Wr {
        if writers > 0 { writers := writers - 1; }
        if reservedWriters > 0 { reservedWriters := reservedWriters - 1; }
      } else {
        if readers > 0 { readers := readers - 1; }
        if reservedReaders > 0 { reservedReaders := reservedReaders - 1; }
      }
    }

    method Notify(side: Side, procs: Procs, ghost a: World) returns (ps: Procs)
      requires Matches(a) && a.procs == procs
      modifies data, data.waiting, data.credit, space, space.waiting, space.credit
      ensures Matches(Notified(a, side)) && ps == Notified(a, side).procs
    {
      hide Post, PostAll;
      ps := procs;
      if side == Wr {
        if writers == 0 {
          ps := data.SemPostAll(procs);
        } else if ring.count < ring.capacity {
          ps := space.SemPost(procs);
        }
      } else {
        if readers == 0 {
          ps := space.SemPostAll(procs);
        } else if ring.count > 0 {
          ps := data.SemPost(procs);
        }
      }
    }

    method FreeSlot(ghost b: World)
      requires Matches(b)
      modifies this, data, space
      ensures Matches(FreeIfUnused(b)) && FreeIfUnused(b).procs == b.procs
    {
      if readers == 0 && writers == 0 {
        active := false;
        reservedReaders, reservedWriters := 0, 0;
        data.Retire();
        space.Retire();
      }
    }

    /** One pass of the read loop: sleep, find the pipe at its end, or take one byte. */
    method ReadRound(procs: Procs, p: int, ghost more: bool, ghost w: World) returns (ps: Procs, result: Result)
      requires Matches(w) && w.procs == procs && p in w.tasks && w.tasks[p].op.In? && w.tasks[p].op.side == Rd
      modifies this, ring, data, data.waiting, data.credit, space, space.waiting, space.credit
      ensures var v := Round(w, p, 0, more, data.waiting.Length);
              && Matches(v) && ps == v.procs
              && (if result.Moved? then v.delivered == w.delivered + [result.byte] else v.delivered == w.delivered)
      ensures result == if old(ring.count) > 0 then Moved(w.ring[0])
                        else if old(writers) > 0 && |Without(w.sems.rd.queue, p)| < data.waiting.Length then Asleep
                        else Gone
    {
      hide Post, SleepOn, Without;
      if writers > 0 && ring.count == 0 {
        var outcome;
        SleepOnIs(w.sems.rd, procs, p, data.waiting.Length);
        ps, outcome := WaitUntilAsleep(data, procs, p);
        return ps, if outcome == Slept then Asleep else Gone;
      }
      if ring.count == 0 {
        return procs, Gone;
      }
      var b;
      ps, b := MoveOut(procs, w);
      result := Moved(b);
    }

    /** One pass of the write loop. */
    method WriteRound(procs: Procs, p: int, b: Byte, ghost more: bool, ghost w: World) returns (ps: Procs, result: Result)
      requires Matches(w) && w.procs == procs && p in w.tasks && w.tasks[p].op.In? && w.tasks[p].op.side == Wr
      modifies this, ring, ring.buf, data, data.waiting, data.credit, space, space.waiting, space.credit
      ensures var v := Round(w, p, b, more, space.waiting.Length);
              && Matches(v) && ps == v.procs
              && (if result.Moved? then v.accepted == w.accepted + [b] else v.accepted == w.accepted)
      ensures result == if old(readers) == 0 then Gone
                        else if old(ring.count) < old(ring.capacity) then Moved(b)
                        else if |Without(w.sems.wr.queue, p)| < space.waiting.Length then Asleep
                        else Gone
    {
      hide Post, SleepOn, Without;
      if readers > 0 && ring.count >= ring.capacity {
        var outcome;
        SleepOnIs(w.sems.wr, procs, p, space.waiting.Length);
        ps, outcome := WaitUntilAsleep(space, procs, p);
        return ps, if outcome == Slept then Asleep else Gone;
      }
      if readers == 0 {
        return procs, Gone;
      }
      ps := MoveIn(procs, b, w);
      result := Moved(b);
    }
  }

  /** The wait loop inside a round: consume left-over events until the caller sleeps. */
  method WaitUntilAsleep(sem: KernelSemaphore, procs: Procs, p: int) returns (ps: Procs, outcome: WaitOutcome)
    requires sem.Valid()
    modifies sem, sem.waiting, sem.credit
    ensures sem.Valid() && (sem.State(), ps, outcome) == SleepOn(old(sem.State()), procs, p, sem.waiting.Length)
  {
    hide Without;
    ps, outcome := sem.SemWait(procs, p);
    while outcome == Passed
      invariant sem.Valid()
      invariant SleepOn(old(sem.State()), procs, p, sem.waiting.Length)
             == if outcome == Passed then SleepOn(sem.State(), ps, p, sem.waiting.Length) else (sem.State(), ps, outcome)
      decreases outcome == Passed, Max0(sem.value)
    {
      ps, outcome := sem.SemWait(ps, p);
    }
  }
}

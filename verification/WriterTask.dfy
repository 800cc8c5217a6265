/**
 The writer task as it is written: a loop over rings, a select loop on each ring and a
 flush loop, with the sender free to run between any two atomic actions.

 A select loop need not end, so the loops take a budget: a method returns `StillRunning`
 when it has used it up.  The drain of a closed ring takes none.
 */
module WriterTask {
  import opened Base
  import opened SendPath
  import opened SendInvariant
  import opened SendTheorems
  import opened Sender

  datatype Exit = Finished | IoError | StillRunning

  /** What the invariant says about the ring the writer holds. */
  lemma HeldRing(auto: bool, log: seq<Step>, t: State)
    requires Reaches(auto, log, t) && t.wpc.Holding?
    ensures InRange(t) && t.auto == auto && PhaseOk(auto, t.heap[t.wpc.ring], t.wpc.phase)
  {
    ReachableInv(auto, log, t);
  }

  /** What was written or still in the ring then is written or still in the ring now, at the same place. */
  predicate Covers(wire: seq<byte>, data: seq<byte>, wire': seq<byte>, data': seq<byte>) {
    wire + data <= wire' + data'
  }

  /** A ring that held `data` held `more` when its first bytes were written and holds `rest` now. */
  lemma Rejoin(wire: seq<byte>, data: seq<byte>, more: seq<byte>, count: nat, rest: seq<byte>)
    requires count <= |data| && data <= more && more[count..] <= rest
    ensures Covers(wire, data, wire + more[..count], rest)
    ensures data == more && rest == more[count..] ==> wire + more[..count] + rest == wire + data
  {
    assert data == more[..|data|] && more[..count] == data[..count] && data[count..] == more[count..][..|data| - count];
    assert wire + data == wire + data[..count] + data[count..];
  }

  class Writer {
    const chan: Shared

    constructor (chan: Shared)
      ensures this.chan == chan
    {
      this.chan := chan;
    }

    /** The writer is at `ph` on the ring `r`. */
    ghost predicate At(r: nat, ph: Phase)
      reads chan
    {
      && chan.Valid() && chan.st.wpc == Holding(r, ph) && r < |chan.st.heap|
      && PhaseOk(chan.st.auto, chan.st.heap[r], ph)
    }

    /** The sender has a turn.  It can add to the held ring as long as that is open. */
    method Yield(r: nat, ph: Phase)
      requires At(r, ph)
      modifies chan
      ensures At(r, ph) && old(chan.log) <= chan.log
      ensures chan.st.wire == old(chan.st.wire) && chan.st.auto == old(chan.st.auto)
      ensures old(chan.st.heap[r].data) <= chan.st.heap[r].data
      ensures !old(chan.st.heap[r].prodAlive) ==> chan.st.heap[r] == old(chan.st.heap[r])
    {
      chan.SenderRuns();
      HeldRing(chan.auto, chan.log, chan.st);
    }

    /** One atomic action on the held ring. */
    method Act(r: nat, ph: Phase, a: WriterStep) returns (ghost h: Hold)
      requires At(r, ph) && HoldEnabled(chan.st.auto, chan.st.heap[r], ph, a)
      modifies chan
      ensures h == HoldApply(old(chan.st.auto), old(chan.st.heap[r]), ph, a)
      ensures chan.Valid() && old(chan.log) <= chan.log && chan.st.auto == old(chan.st.auto)
      ensures r < |chan.st.heap| && chan.st.heap[r] == h.ring && chan.st.wire == old(chan.st.wire) + h.out
      ensures if h.phase == Drained then chan.st.wpc == Recv
              else if h.phase == Unwound then chan.st.wpc == DropReceiver
              else At(r, h.phase)
    {
      h := HoldApply(chan.st.auto, chan.st.heap[r], ph, a);
      HeldRing(chan.auto, chan.log, chan.st);
      HoldHasFacts(chan.st.auto, chan.st.heap[r], ph, a);
      chan.Do(Wrt(a));
    }

    /** as_slices, up to the point where write(left) resolves. */
    method TakeLeft(r: nat, drain: bool) returns (left: nat)
      requires At(r, Look(drain)) && chan.st.heap[r].data != []
      modifies chan
      ensures At(r, Writing(drain, left)) && old(chan.log) <= chan.log
      ensures chan.st.auto == old(chan.st.auto) && chan.st.wire == old(chan.st.wire)
      ensures 1 <= left <= |old(chan.st.heap[r].data)| && old(chan.st.heap[r].data) <= chan.st.heap[r].data
      ensures drain ==> chan.st.heap[r] == old(chan.st.heap[r])
    {
      left :| 1 <= left <= |chan.st.heap[r].data|;
      ghost var h := Act(r, Look(drain), TakeSlices(left));
      Yield(r, Writing(drain, left));
    }

    /** write(left).await on a socket that takes up to `room` bytes; without room the write fails. */
    method AwaitWrite(r: nat, drain: bool, left: nat, room: nat) returns (count: nat)
      requires At(r, Writing(drain, left))
      modifies chan
      ensures old(chan.log) <= chan.log && chan.st.auto == old(chan.st.auto)
      ensures if count > 0 then At(r, Advance(drain, count)) else At(r, DropRing)
      ensures r < |chan.st.heap| && count == Min(room, left) && chan.st.heap[r] == old(chan.st.heap[r])
      ensures chan.st.wire == old(chan.st.wire) + old(chan.st.heap[r].data)[..count]
    {
      count := Min(room, left);
      ghost var h := Act(r, Writing(drain, left), if count > 0 then WriteSome(count) else Fail);
    }

    /** advance_read_index, which then wakes the producer. */
    method CommitWrite(r: nat, drain: bool, count: nat)
      requires At(r, Advance(drain, count))
      modifies chan
      ensures old(chan.log) <= chan.log && chan.st.auto == old(chan.st.auto) && chan.st.wire == old(chan.st.wire)
      ensures At(r, Look(drain)) && r < |chan.st.heap|
      ensures old(chan.st.heap[r].data)[count..] <= chan.st.heap[r].data
      ensures drain ==> chan.st.heap[r].data == old(chan.st.heap[r].data)[count..]
    {
      Yield(r, Advance(drain, count));
      ghost var h := Act(r, Advance(drain, count), AdvanceRead);
      Yield(r, WakeUp(drain));
      h := Act(r, WakeUp(drain), Wake);
    }

    /** One turn of the flush loop: write part of the left slice and move the read index, or fail. */
    method WriteLeft(r: nat, drain: bool, room: nat) returns (ok: bool)
      requires At(r, Look(drain)) && chan.st.heap[r].data != []
      modifies chan
      ensures old(chan.log) <= chan.log && chan.st.auto == old(chan.st.auto) && r < |chan.st.heap|
      ensures if ok then At(r, Look(drain)) else At(r, DropRing)
      ensures ok <==> room > 0
      ensures ok ==> |chan.st.wire| > |old(chan.st.wire)|
      ensures ok && drain ==> |chan.st.heap[r].data| < |old(chan.st.heap[r].data)|
      ensures ok && drain ==> chan.st.wire + chan.st.heap[r].data == old(chan.st.wire + chan.st.heap[r].data)
      ensures ok ==> Covers(old(chan.st.wire), old(chan.st.heap[r].data), chan.st.wire, chan.st.heap[r].data)
    {
      ghost var wire, data := chan.st.wire, chan.st.heap[r].data;
      var left := TakeLeft(r, drain);
      ghost var more := chan.st.heap[r].data;
      var count := AwaitWrite(r, drain, left, room);
      ok := count > 0;
      if ok {
        CommitWrite(r, drain, count);
        Rejoin(wire, data, more, count, chan.st.heap[r].data);
        assert Covers(wire, data, chan.st.wire, chan.st.heap[r].data);
      }
    }

    /** flush after the ring was seen closed: it ends, and exactly the remaining bytes are written. */
    method Drain(r: nat) returns (ok: bool)
      requires At(r, Look(true))
      modifies chan
      ensures old(chan.log) <= chan.log
      ensures if ok then chan.Valid() && chan.st.wpc == Recv else At(r, DropRing)
      ensures ok ==> chan.st.wire == old(chan.st.wire) + old(chan.st.heap[r].data)
      ensures chan.st.auto == old(chan.st.auto)
    {
      ok := true;
      while ok && chan.st.heap[r].data != []
        invariant old(chan.log) <= chan.log && r < |chan.st.heap| && chan.st.auto == old(chan.st.auto)
        invariant if ok then At(r, Look(true)) else At(r, DropRing)
        invariant ok ==> chan.st.wire + chan.st.heap[r].data == old(chan.st.wire + chan.st.heap[r].data)
        decreases ok, if ok then |chan.st.heap[r].data| else 0
      {
        var room: nat :| true;
        ok := WriteLeft(r, true, room);
      }
      if ok {
        ghost var h := Act(r, Look(true), TakeSlices(0));
      }
    }

    /** flush of an open ring, for at most `budget` turns: when it ends, or after as many turns as there
        were bytes in the ring at the start, all of those bytes are on the wire. */
    method Flush(r: nat, budget: nat) returns (exit: Exit, spare: nat)
      requires At(r, Look(false))
      modifies chan
      ensures old(chan.log) <= chan.log && chan.st.auto == old(chan.st.auto) && spare <= budget
      ensures match exit
              case Finished => At(r, Select(!chan.st.auto))
              case IoError => At(r, DropRing)
              case StillRunning => At(r, Look(false)) && spare == 0
      ensures exit == Finished || (exit == StillRunning && budget >= |old(chan.st.heap[r].data)|) ==>
                old(chan.st.wire) + old(chan.st.heap[r].data) <= chan.st.wire
    {
      var ok := true;
      spare := budget;
      while ok && spare > 0 && chan.st.heap[r].data != []
        invariant old(chan.log) <= chan.log && chan.st.auto == old(chan.st.auto) && spare <= budget
        invariant if ok then At(r, Look(false)) else At(r, DropRing)
        invariant ok ==> |chan.st.wire| >= |old(chan.st.wire)| + budget - spare
        invariant ok ==> Covers(old(chan.st.wire), old(chan.st.heap[r].data), chan.st.wire, chan.st.heap[r].data)
        decreases spare
      {
        var room: nat :| true;
        ok := WriteLeft(r, false, room);
        spare := spare - 1;
      }
      if !ok {
        exit := IoError;
      } else if chan.st.heap[r].data != [] {
        exit := StillRunning;
      } else {
        ghost var h := Act(r, Look(false), TakeSlices(0));
        exit := Finished;
      }
    }

    /** The occupancy branch of the select: test for closure, then decide whether to flush now. */
    method OnOccupied(r: nat, tick: bool) returns (closed: bool, tickFlush: bool)
      requires At(r, Select(tick)) && chan.st.auto && OccupiedReady(chan.st.heap[r], Threshold(tick))
      modifies chan
      ensures old(chan.log) <= chan.log && chan.st.auto && chan.st.wire == old(chan.st.wire)
      ensures At(r, if closed then Look(true) else if tickFlush then Select(true) else Look(false))
      ensures !closed ==> (tickFlush <==> |chan.st.heap[r].data| < MIN_MSG_BUFFER_SIZE) && chan.st.heap[r].data != []
      ensures tick && !closed ==> !tickFlush
      ensures !old(chan.st.heap[r].prodAlive) ==> closed
    {
      ghost var h := Act(r, Select(tick), OccupiedResolves);
      Yield(r, Check(tick));
      closed := !chan.st.heap[r].prodAlive;
      tickFlush := tick;
      h := Act(r, Check(tick), TestClosed);
      if !closed {
        tickFlush := CompareOccupied(r, tick);
      }
    }

    /** occupied_len() < MIN_MSG_BUFFER_SIZE, which leaves the ring to the tick. */
    method CompareOccupied(r: nat, tick: bool) returns (tickFlush: bool)
      requires At(r, Occupancy(tick))
      modifies chan
      ensures old(chan.log) <= chan.log && chan.st.auto == old(chan.st.auto) && chan.st.wire == old(chan.st.wire)
      ensures At(r, if tickFlush then Select(true) else Look(false))
      ensures tickFlush <==> |chan.st.heap[r].data| < MIN_MSG_BUFFER_SIZE
      ensures chan.st.heap[r].data != [] && (tick ==> !tickFlush)
    {
      Yield(r, Occupancy(tick));
      tickFlush := |chan.st.heap[r].data| < MIN_MSG_BUFFER_SIZE;
      ghost var h := Act(r, Occupancy(tick), CompareOccupancy);
    }

    /** One turn of the select in handle_writer_auto_flush: it may be aborted, find the ring closed, ask for
        a flush, or leave things to the next turn.  With the tick armed a tick or the threshold leads to a
        flush; without a tick only a ring that has reached the threshold is flushed. */
    method SelectOnce(r: nat, tick: bool, aborted: bool, ticked: bool)
      returns (exit: Exit, flushNow: bool, tickFlush: bool)
      requires At(r, Select(tick)) && chan.st.auto
      modifies chan
      ensures old(chan.log) <= chan.log && chan.st.auto && chan.st.wire == old(chan.st.wire)
      ensures match exit
              case Finished => At(r, Look(true))
              case IoError => At(r, DropRing)
              case StillRunning => At(r, if flushNow then Look(false) else Select(tickFlush))
      ensures exit == IoError <==> aborted
      ensures !aborted && !old(chan.st.heap[r].prodAlive) ==> exit == Finished
      ensures !aborted && tick && (ticked || OccupiedReady(old(chan.st.heap[r]), MIN_MSG_BUFFER_SIZE)) ==>
                flushNow || exit == Finished
      ensures exit == StillRunning && flushNow && !(tick && ticked) ==> |chan.st.heap[r].data| >= MIN_MSG_BUFFER_SIZE
      ensures exit == StillRunning && !flushNow ==> tickFlush == (tick || chan.st.heap[r].data != [])
    {
      Yield(r, Select(tick));
      exit, flushNow, tickFlush := StillRunning, false, tick;
      if aborted {
        ghost var h := Act(r, Select(tick), Fail);
        exit := IoError;
      } else if OccupiedReady(chan.st.heap[r], Threshold(tick)) {
        var closed;
        closed, tickFlush := OnOccupied(r, tick);
        exit := if closed then Finished else StillRunning;
        flushNow := !closed && !tickFlush;
      } else if tick && ticked {
        ghost var h := Act(r, Select(tick), TickFires);
        flushNow := true;
      }
    }

    /** The inner loop of handle_writer_auto_flush; Finished means that the ring was seen closed. */
    method SelectLoop(r: nat, budget: nat) returns (exit: Exit, spare: nat)
      requires At(r, Select(true)) && chan.st.auto
      modifies chan
      ensures old(chan.log) <= chan.log && chan.Valid() && spare <= budget && chan.st.auto
      ensures match exit
              case Finished => At(r, Look(true))
              case IoError => At(r, DropRing)
              case StillRunning => Running(chan.st.wpc) && spare == 0
      ensures !old(chan.st.heap[r].prodAlive) && budget > 0 ==> exit != StillRunning
    {
      var tickFlush := true;
      exit, spare := StillRunning, budget;
      while spare > 0
        invariant old(chan.log) <= chan.log && chan.st.auto && spare <= budget && exit == StillRunning
        invariant At(r, Select(tickFlush))
        invariant spare < budget ==> old(chan.st.heap[r].prodAlive)
        invariant spare == budget ==> chan.st == old(chan.st)
        decreases spare
      {
        spare := spare - 1;
        var flushNow;
        var aborted, ticked := *, *;
        exit, flushNow, tickFlush := SelectOnce(r, tickFlush, aborted, ticked);
        if exit != StillRunning {
          return;
        }
        if flushNow {
          exit, spare := Flush(r, spare);
          if exit != Finished {
            return;
          }
          exit, tickFlush := StillRunning, false;
        }
      }
    }

    /** wait_occupied resolved without automatic flushing: only closure is tested. */
    method OnThreshold(r: nat) returns (closed: bool)
      requires At(r, Select(true)) && !chan.st.auto && OccupiedReady(chan.st.heap[r], MIN_MSG_BUFFER_SIZE)
      modifies chan
      ensures old(chan.log) <= chan.log && !chan.st.auto && chan.st.wire == old(chan.st.wire)
      ensures At(r, Look(closed)) && (!old(chan.st.heap[r].prodAlive) ==> closed)
      ensures !closed ==> |chan.st.heap[r].data| >= MIN_MSG_BUFFER_SIZE
    {
      ghost var h := Act(r, Select(true), OccupiedResolves);
      Yield(r, Check(true));
      closed := !chan.st.heap[r].prodAlive;
      h := Act(r, Check(true), TestClosed);
    }

    /** The inner loop of handle_writer_no_auto_flush. */
    method WaitLoop(r: nat, budget: nat) returns (exit: Exit, spare: nat)
      requires At(r, Select(true)) && !chan.st.auto
      modifies chan
      ensures old(chan.log) <= chan.log && chan.Valid() && spare <= budget && !chan.st.auto
      ensures match exit
              case Finished => At(r, Look(true))
              case IoError => At(r, DropRing)
              case StillRunning => Running(chan.st.wpc) && spare == 0
      ensures !old(chan.st.heap[r].prodAlive) && budget > 0 ==> exit != StillRunning
    {
      exit, spare := StillRunning, budget;
      while spare > 0
        invariant old(chan.log) <= chan.log && !chan.st.auto && spare <= budget && exit == StillRunning
        invariant At(r, Select(true))
        invariant spare < budget ==> old(chan.st.heap[r].prodAlive)
        invariant spare == budget ==> chan.st == old(chan.st)
        decreases spare
      {
        spare := spare - 1;
        var aborted: bool := *;
        var flushNow;
        exit, flushNow := WaitOnce(r, aborted);
        if exit != StillRunning {
          return;
        }
        if flushNow {
          exit, spare := Flush(r, spare);
          if exit != Finished {
            return;
          }
          exit := StillRunning;
        }
      }
    }

    /** One turn of that loop: nothing is flushed below the threshold. */
    method WaitOnce(r: nat, aborted: bool) returns (exit: Exit, flushNow: bool)
      requires At(r, Select(true)) && !chan.st.auto
      modifies chan
      ensures old(chan.log) <= chan.log && !chan.st.auto && chan.st.wire == old(chan.st.wire)
      ensures match exit
              case Finished => At(r, Look(true))
              case IoError => At(r, DropRing)
              case StillRunning => At(r, if flushNow then Look(false) else Select(true))
      ensures exit == IoError <==> aborted
      ensures !aborted && !old(chan.st.heap[r].prodAlive) ==> exit == Finished
      ensures !aborted && |old(chan.st.heap[r].data)| >= MIN_MSG_BUFFER_SIZE ==> flushNow || exit == Finished
      ensures exit == StillRunning ==> (flushNow <==> |chan.st.heap[r].data| >= MIN_MSG_BUFFER_SIZE)
    {
      Yield(r, Select(true));
      exit, flushNow := StillRunning, false;
      if aborted {
        ghost var h := Act(r, Select(true), Fail);
        exit := IoError;
      } else if OccupiedReady(chan.st.heap[r], MIN_MSG_BUFFER_SIZE) {
        var closed := OnThreshold(r);
        exit := if closed then Finished else StillRunning;
        flushNow := !closed;
      }
    }

    /** The locals of a failed or aborted writer are dropped. */
    method Unwinding()
      requires chan.Valid() && (chan.st.wpc == DropReceiver || (chan.st.wpc.Holding? && chan.st.wpc.phase == DropRing))
      modifies chan
      ensures chan.Valid() && old(chan.log) <= chan.log && chan.st.wpc == Failed
    {
      if chan.st.wpc.Holding? {
        DropHeld();
      }
      TurnAtChannel();
      chan.Do(Wrt(Unwind));
      while chan.st.wpc != Failed
        invariant chan.Valid() && old(chan.log) <= chan.log
        invariant chan.st.wpc.DropQueue? || chan.st.wpc.DropQueueWake? || chan.st.wpc == Failed
        decreases chan.st.wpc != Failed,
                  if chan.st.wpc.DropQueue? || chan.st.wpc.DropQueueWake? then |chan.st.wpc.ids| else 0,
                  chan.st.wpc.DropQueue?
      {
        TurnAtChannel();
        chan.Do(Wrt(Unwind));
      }
    }

    /** The held ring is dropped first, and its producer woken. */
    method DropHeld()
      requires chan.Valid() && chan.st.wpc.Holding? && chan.st.wpc.phase == DropRing
      modifies chan
      ensures chan.Valid() && old(chan.log) <= chan.log && chan.st.wpc == DropReceiver
    {
      var r := chan.st.wpc.ring;
      HeldRing(chan.auto, chan.log, chan.st);
      ghost var h := Act(r, DropRing, Unwind);
      Yield(r, DropRingWake);
      h := Act(r, DropRingWake, Unwind);
    }

    /** The sender has a turn while the writer holds no ring. */
    method TurnAtChannel()
      requires chan.Valid() && !chan.st.wpc.Holding?
      modifies chan
      ensures chan.Valid() && InRange(chan.st) && old(chan.log) <= chan.log
      ensures chan.st.wpc == old(chan.st.wpc) && chan.st.auto == old(chan.st.auto)
      ensures old(chan.st.spc) == Gone ==> chan.st == old(chan.st)
    {
      chan.SenderRuns();
      ReachableInv(chan.auto, chan.log, chan.st);
    }

    /** recv() has a ring: handle it until it is closed, then clear it. */
    method HandleRing(budget: nat) returns (exit: Exit, spare: nat)
      requires chan.Valid() && InRange(chan.st) && chan.st.wpc == Recv && chan.st.queue != []
      modifies chan
      ensures chan.Valid() && old(chan.log) <= chan.log && spare <= budget
      ensures match exit
              case Finished => chan.st.wpc == Recv
              case IoError => chan.st.wpc == Failed
              case StillRunning => Running(chan.st.wpc) && spare == 0
    {
      var r := chan.st.queue[0];
      chan.Do(Wrt(ReceiveRing));
      HeldRing(chan.auto, chan.log, chan.st);
      if chan.st.auto {
        exit, spare := SelectLoop(r, budget);
      } else {
        exit, spare := WaitLoop(r, budget);
      }
      if exit == Finished {
        var ok := Drain(r);
        exit := if ok then Finished else IoError;
      }
      if exit == IoError {
        Unwinding();
      }
    }

    /** handle_writer: a clean end means that the sender is gone and all it accepted is on the wire. */
    method HandleWriter(budget: nat) returns (exit: Exit, spare: nat)
      requires chan.Valid() && chan.st.wpc == Recv
      modifies chan
      ensures chan.Valid() && old(chan.log) <= chan.log
      ensures match exit
              case Finished => chan.st.wpc == DoneOk && chan.st.spc == Gone && chan.st.wire == chan.st.accepted
              case IoError => chan.st.wpc == Failed
              case StillRunning => Running(chan.st.wpc) && spare == 0
      ensures old(chan.st.spc) == Gone && old(chan.st.queue) == [] && budget > 0 ==> exit != StillRunning
    {
      spare := budget;
      while spare > 0
        invariant chan.Valid() && old(chan.log) <= chan.log && chan.st.wpc == Recv
        invariant spare < budget ==> !(old(chan.st.spc) == Gone && old(chan.st.queue) == [])
        invariant spare == budget ==> chan.st == old(chan.st)
        invariant spare <= budget
        decreases spare
      {
        spare := spare - 1;
        TurnAtChannel();
        var aborted: bool := *;
        if aborted {
          chan.Do(Wrt(Fail));
          Unwinding();
          return IoError, spare;
        } else if chan.st.queue != [] {
          exit, spare := HandleRing(spare);
          if exit != Finished {
            return;
          }
        } else if chan.st.spc == Gone {
          exit := ShutDown();
          return;
        }
      }
      exit := StillRunning;
    }

    /** recv() returned None. */
    method ShutDown() returns (exit: Exit)
      requires chan.Valid() && InRange(chan.st) && chan.st.wpc == Recv && chan.st.queue == [] && chan.st.spc == Gone
      modifies chan
      ensures chan.Valid() && old(chan.log) <= chan.log
      ensures match exit
              case Finished => chan.st.wpc == DoneOk && chan.st.spc == Gone && chan.st.wire == chan.st.accepted
              case IoError => chan.st.wpc == Failed
              case StillRunning => false
    {
      chan.Do(Wrt(ReceiveNone));
      TurnAtChannel();
      var ok: bool := *;
      if ok {
        chan.Do(Wrt(ShutdownOk));
        CleanShutdown(chan.auto, chan.log, chan.st);
        exit := Finished;
      } else {
        chan.Do(Wrt(Fail));
        Unwinding();
        exit := IoError;
      }
    }
  }
}

/**
 `MsgSender` as it is written: calls made of atomic actions on shared rings, with the
 writer task free to run between any two of them.
 */
module Sender {
  import opened Base
  import opened SendPath
  import opened SendInvariant
  import opened SendTheorems

  /** The shared rings and channel, with the history of every action taken on them. */
  class Shared {
    var st: State
    ghost var log: seq<Step>
    ghost const auto: bool

    ghost predicate Valid()
      reads this
    {
      Reaches(auto, log, st)
    }

    /** make_sender */
    constructor (auto: bool)
      ensures Valid() && st == Init(auto) && this.auto == auto && log == []
    {
      this.auto := auto;
      st := Init(auto);
      log := [];
    }

    /** One atomic action. */
    method Do(step: Step)
      requires Valid() && Enabled(st, step)
      modifies this
      ensures Valid() && st == Apply(old(st), step) && log == old(log) + [step]
    {
      st := Apply(st, step);
      log := log + [step];
      assert log[..|log| - 1] == old(log);
    }

    /** Any number of actions of the writer task. */
    method WriterRuns()
      requires Valid()
      modifies this
      ensures Valid() && old(log) <= log && SameForSender(old(st), st)
      ensures InRange(st) && (st.spc != Swap ==> st.sring == |st.heap| - 1)
    {
      var n: nat := *;
      while n > 0
        invariant Valid() && old(log) <= log && SameForSender(old(st), st)
      {
        var a: WriterStep := *;
        if WriterEnabled(st, a) {
          WriterLeavesSender(st, a);
          Do(Wrt(a));
        }
        n := n - 1;
      }
      ReachableInv(auto, log, st);
    }

    /** Any number of actions of the sender. */
    method SenderRuns()
      requires Valid()
      modifies this
      ensures Valid() && old(log) <= log && SameForWriter(old(st), st)
    {
      var n: nat := *;
      while n > 0
        invariant Valid() && old(log) <= log && SameForWriter(old(st), st)
      {
        var a: SenderStep := *;
        if SenderEnabled(st, a) {
          ReachableInv(auto, log, st);
          SenderLeavesWriter(st, a);
          Do(Snd(a));
        }
        n := n - 1;
      }
    }
  }

  /** The writer makes room in a ring and may drop its consumer, for good. */
  predicate OnlyDrained(r: Ring, q: Ring) {
    q.cap == r.cap && |q.data| <= |r.data| && (q.consAlive ==> r.consAlive)
  }

  /** What the writer cannot change. */
  predicate SameForSender(s: State, t: State) {
    && t.sring == s.sring && t.spc == s.spc && t.parked == s.parked && t.accepted == s.accepted
    && |t.heap| == |s.heap| && (s.rxOpen || !t.rxOpen)
    && forall i :: 0 <= i < |s.heap| ==> OnlyDrained(s.heap[i], t.heap[i])
  }

  lemma HoldOnlyDrains(auto: bool, r: Ring, ph: Phase, a: WriterStep)
    requires HoldEnabled(auto, r, ph, a)
    ensures OnlyDrained(r, HoldApply(auto, r, ph, a).ring)
  {
  }

  lemma HoldLeavesSender(s: State, r: nat, h: Hold)
    requires r < |s.heap| && OnlyDrained(s.heap[r], h.ring)
    ensures SameForSender(s, AfterHold(s, r, h))
  {
  }

  lemma WriterLeavesSender(s: State, a: WriterStep)
    requires WriterEnabled(s, a)
    ensures SameForSender(s, WriterApply(s, a))
  {
    if s.wpc.Holding? {
      var r, ph := s.wpc.ring, s.wpc.phase;
      HoldOnlyDrains(s.auto, s.heap[r], ph, a);
      HoldLeavesSender(s, r, HoldApply(s.auto, s.heap[r], ph, a));
    } else {
      ChannelLeavesSender(s, a);
    }
  }

  lemma ChannelLeavesSender(s: State, a: WriterStep)
    requires WriterEnabled(s, a) && !s.wpc.Holding?
    ensures SameForSender(s, WriterApply(s, a))
  {
  }

  /** The room in the ring that the sender pushes to. */
  function Room(s: State): nat {
    if s.sring < |s.heap| then Free(s.heap[s.sring]) else 0
  }

  /** The consumer of the sender's ring is gone. */
  predicate Closed(s: State) {
    s.sring < |s.heap| && !s.heap[s.sring].consAlive
  }

  lemma SenderSeesLater(s: State, t: State)
    requires SameForSender(s, t)
    ensures Room(s) <= Room(t) && (Closed(s) ==> Closed(t))
  {
  }

  /** What the sender cannot change; a ring that it has closed stays as it is. */
  predicate SameForWriter(s: State, t: State) {
    && t.wpc == s.wpc && t.wire == s.wire && t.auto == s.auto && |s.heap| <= |t.heap|
    && s.accepted <= t.accepted && s.queue <= t.queue && (s.spc == Gone ==> t == s)
    && forall i :: 0 <= i < |s.heap| ==>
                     s.heap[i].data <= t.heap[i].data && (!s.heap[i].prodAlive ==> t.heap[i] == s.heap[i])
  }

  lemma SenderLeavesWriter(s: State, a: SenderStep)
    requires SenderOk(s) && SenderEnabled(s, a)
    ensures SameForWriter(s, SenderApply(s, a))
  {
  }

  datatype IoResult<+T> = Ok(value: T) | Err

  datatype Poll<+T> = Ready(value: T) | Pending

  datatype BlockResult = Sent | Broken | StillBlocked

  /** Where a call is after one of its pushes, `took` saying that the ring took something. */
  predicate Pushed(before: SenderPc, msg: seq<byte>, took: bool, t: State) {
    if before == Idle || took then t.spc == Idle && !t.parked
    else if before.AsyncPush? && before.registered then t.spc == Idle && t.parked
    else t.spc == AsyncRegister(msg)
  }

  /** A strict prefix of the message has been appended. */
  predicate PartlyTaken(before: seq<byte>, bytes: seq<byte>, after: seq<byte>) {
    |before| <= |after| < |before| + |bytes| && after == before + bytes[..|after| - |before|]
  }

  lemma AppendInTwo(before: seq<byte>, bytes: seq<byte>, k: nat, m: nat)
    requires k <= m <= |bytes|
    ensures before + bytes[0..k] == before + bytes[..k]
    ensures before + bytes[..k] + bytes[k..][..m - k] == before + bytes[..m]
    ensures m == |bytes| ==> bytes[k..][..m - k] == bytes[k..] && before + bytes[..m] == before + bytes
    ensures k < |bytes| ==> PartlyTaken(before, bytes, before + bytes[..k])
  {
  }

  lemma AppendSlice(before: seq<byte>, bytes: seq<byte>, start: nat, k: nat, n: nat)
    requires start <= k && k + n <= |bytes|
    ensures before + bytes[start..k] + bytes[k..][..n] == before + bytes[start..k + n]
  {
    assert bytes[start..k] + bytes[k..][..n] == bytes[start..k + n];
  }

  /** Both steps were taken after `before`, the second one last. */
  ghost predicate InOrder(before: seq<Step>, log: seq<Step>, first: Step, second: Step) {
    |before| < |log| && log[|log| - 1] == second && first in log[|before|..|log| - 1]
  }

  /** The first step was taken right after `begun`, the second one right after `mid`. */
  lemma TookInOrder(before: seq<Step>, begun: seq<Step>, mid: seq<Step>, first: Step, second: Step)
    requires before <= begun && begun + [first] <= mid
    ensures InOrder(before, mid + [second], first, second)
  {
    assert (mid + [second])[|before|..|mid|][|begun| - |before|] == mid[|begun|] == (begun + [first])[|begun|];
  }

  class MsgSender {
    const chan: Shared

    constructor (chan: Shared)
      ensures this.chan == chan
    {
      this.chan := chan;
    }

    /** A call can start: the sender is not being dropped and no other call is under way. */
    ghost predicate CanCall()
      reads chan
    {
      chan.Valid() && chan.st.spc == Idle
    }

    /** One push_slice on self.ring_buf. */
    method PushSlice(bytes: seq<byte>) returns (n: nat)
      requires chan.Valid() && bytes != []
      requires chan.st.spc == Idle || (chan.st.spc.AsyncPush? && chan.st.spc.msg == bytes)
      modifies chan
      ensures chan.Valid() && old(chan.log) <= chan.log
      ensures n <= |bytes| && chan.st.accepted == old(chan.st.accepted) + bytes[..n]
      ensures Pushed(old(chan.st.spc), bytes, n > 0, chan.st)
      ensures n >= Min(old(Room(chan.st)), |bytes|) && (n < |bytes| ==> Room(chan.st) == 0)
      ensures chan.st.sring == old(chan.st.sring)
    {
      chan.WriterRuns();
      SenderSeesLater(old(chan.st), chan.st);
      n := PushCount(chan.st.heap[chan.st.sring], |bytes|);
      if chan.st.spc == Idle {
        chan.Do(Snd(SenderStep.PushSlice(bytes)));
      } else {
        chan.Do(Snd(AsyncTryPush));
      }
    }

    /** burst_write: push until the message is used up or the ring takes nothing.  A message that fits is
        used up. */
    method BurstWrite(start: nat, bytes: seq<byte>) returns (offset: nat, finished: bool)
      requires chan.Valid() && start < |bytes|
      requires chan.st.spc == Idle || (chan.st.spc.AsyncPush? && start == 0 && chan.st.spc.msg == bytes)
      modifies chan
      ensures chan.Valid() && old(chan.log) <= chan.log
      ensures start <= offset <= |bytes| && (finished <==> offset == |bytes|)
      ensures chan.st.accepted == old(chan.st.accepted) + bytes[start..offset]
      ensures Pushed(old(chan.st.spc), bytes, offset > start, chan.st)
      ensures offset - start >= Min(old(Room(chan.st)), |bytes| - start)
      ensures !finished ==> Room(chan.st) == 0
      ensures chan.st.sring == old(chan.st.sring)
    {
      offset := start;
      var stalled := false;
      while !stalled && offset < |bytes|
        invariant chan.Valid() && old(chan.log) <= chan.log
        invariant start <= offset <= |bytes|
        invariant chan.st.accepted == old(chan.st.accepted) + bytes[start..offset]
        invariant chan.st.sring == old(chan.st.sring)
        invariant if offset == start && !stalled then chan.st == old(chan.st)
                  else Pushed(old(chan.st.spc), bytes, offset > start, chan.st)
        invariant stalled || offset > start ==> offset - start >= Min(old(Room(chan.st)), |bytes| - start)
        invariant stalled && offset < |bytes| ==> Room(chan.st) == 0
        decreases |bytes| - offset, !stalled
      {
        assert offset == 0 ==> bytes[offset..] == bytes;
        var n := PushSlice(bytes[offset..]);
        AppendSlice(old(chan.st.accepted), bytes, start, offset, n);
        offset := offset + n;
        stalled := n == 0;
      }
      finished := offset == |bytes|;
    }

    /** A new ring holding `rest` is sent to the writer, and only then is the old producer dropped. */
    method ReplaceRing(rest: seq<byte>) returns (sent: bool)
      requires CanCall()
      modifies chan
      ensures CanCall() && old(chan.log) <= chan.log
      ensures sent ==> chan.st.accepted == old(chan.st.accepted) + rest
      ensures sent ==> chan.st.sring == old(chan.st.sring) + 1
      ensures sent ==> InOrder(old(chan.log), chan.log, Snd(SendRing(rest)), Snd(SwapRing))
      ensures !sent ==> chan.st.sring == old(chan.st.sring)
      ensures !sent ==> chan.st.accepted == old(chan.st.accepted) && !chan.st.rxOpen
    {
      chan.WriterRuns();
      sent := chan.st.rxOpen;
      if sent {
        OverflowRingHoldsAll(rest);
        ghost var begun := chan.log;
        chan.Do(Snd(SendRing(rest)));
        chan.WriterRuns();
        TookInOrder(old(chan.log), begun, chan.log, Snd(SendRing(rest)), Snd(SwapRing));
        chan.Do(Snd(SwapRing));
      } else {
        chan.Do(Snd(SendRingFails));
      }
    }

    /** On success the whole message has been appended, once and in order; on failure a strict
        prefix of it has, and the writer is gone.  A message that fits goes into the current ring. */
    method SendNonblock(bytes: seq<byte>) returns (r: IoResult<()>)
      requires CanCall()
      modifies chan
      ensures CanCall() && old(chan.log) <= chan.log
      ensures r.Ok? ==> chan.st.accepted == old(chan.st.accepted) + bytes
      ensures r.Err? ==> !chan.st.rxOpen
      ensures r.Err? ==> PartlyTaken(old(chan.st.accepted), bytes, chan.st.accepted)
      ensures |bytes| <= old(Room(chan.st)) ==> r.Ok? && chan.st.sring == old(chan.st.sring)
      ensures old(chan.st.sring) <= chan.st.sring <= old(chan.st.sring) + 1
    {
      if bytes == [] {
        return Ok(());
      }
      var offset, finished := BurstWrite(0, bytes);
      if finished {
        return Ok(());
      }
      AppendInTwo(old(chan.st.accepted), bytes, offset, |bytes|);
      var sent := ReplaceRing(bytes[offset..]);
      r := if sent then Ok(()) else Err;
    }

    /** flush: the bytes accepted so far are cut off into rings that are closed. */
    method Flush() returns (r: IoResult<()>)
      requires CanCall()
      modifies chan
      ensures CanCall() && old(chan.log) <= chan.log && chan.st.accepted == old(chan.st.accepted)
      ensures r.Ok? ==> chan.st.sring == old(chan.st.sring) + 1
      ensures r.Err? ==> !chan.st.rxOpen
    {
      var sent := ReplaceRing([]);
      r := if sent then Ok(()) else Err;
    }

    /** send_async: Pending is returned only with the waker registered and after a second try. */
    method SendAsync(bytes: seq<byte>) returns (r: Poll<IoResult<nat>>)
      requires CanCall()
      modifies chan
      ensures CanCall() && old(chan.log) <= chan.log
      ensures bytes == [] ==> r == Poll.Ready(Ok(0)) && chan.st == old(chan.st)
      ensures bytes != [] && r.Ready? && r.value.Ok? ==>
                1 <= r.value.value <= |bytes| && chan.st.accepted == old(chan.st.accepted) + bytes[..r.value.value]
      ensures r.Pending? || (r.Ready? && r.value.Err?) ==> chan.st.accepted == old(chan.st.accepted)
      ensures bytes != [] ==> (r.Pending? <==> chan.st.parked)
      ensures bytes != [] && old(Closed(chan.st)) ==> r == Poll.Ready(Err)
      ensures r == Poll.Ready(Err) ==> Closed(chan.st)
      ensures r.Pending? ==> old(Room(chan.st)) == 0
      ensures r.Ready? && r.value.Ok? ==>
                && r.value.value >= Min(old(Room(chan.st)), |bytes|)
                && (r.value.value < |bytes| ==> Room(chan.st) == 0)
      ensures r.Pending? ==>
                chan.st.sring < |chan.st.heap| && (chan.st.notified || chan.st.heap[chan.st.sring].waker)
    {
      if bytes == [] {
        return Poll.Ready(Ok(0));
      }
      BeginAsync(bytes);
      var wakerRegistered := false;
      while true
        invariant chan.Valid() && old(chan.log) <= chan.log
        invariant chan.st.spc == AsyncCheck(wakerRegistered, bytes) && !chan.st.parked
        invariant chan.st.accepted == old(chan.st.accepted)
        invariant old(Closed(chan.st)) ==> Closed(chan.st)
        invariant old(Room(chan.st)) <= Room(chan.st)
        decreases !wakerRegistered
      {
        var closed := TestClosed();
        if closed {
          return Poll.Ready(Err);
        }
        var offset, _ := BurstWrite(0, bytes);
        if offset > 0 {
          assert bytes[0..offset] == bytes[..offset];
          return Poll.Ready(Ok(offset));
        }
        if wakerRegistered {
          NoLostWakeup(chan.auto, chan.log, chan.st);
          return Pending;
        }
        RegisterWaker();
        wakerRegistered := true;
      }
    }

    /** send_async is entered with a message that is not empty. */
    method BeginAsync(bytes: seq<byte>)
      requires CanCall() && bytes != []
      modifies chan
      ensures chan.Valid() && old(chan.log) <= chan.log && !chan.st.parked
      ensures chan.st.accepted == old(chan.st.accepted) && chan.st.spc == AsyncCheck(false, bytes)
      ensures (old(Closed(chan.st)) ==> Closed(chan.st)) && old(Room(chan.st)) <= Room(chan.st)
    {
      chan.WriterRuns();
      SenderSeesLater(old(chan.st), chan.st);
      chan.Do(Snd(AsyncBegin(bytes)));
    }

    /** self.ring_buf.is_closed() within send_async. */
    method TestClosed() returns (closed: bool)
      requires chan.Valid() && chan.st.spc.AsyncCheck? && !chan.st.parked
      modifies chan
      ensures chan.Valid() && old(chan.log) <= chan.log && !chan.st.parked
      ensures chan.st.accepted == old(chan.st.accepted)
      ensures chan.st.spc == if closed then Idle else AsyncPush(old(chan.st.spc).registered, old(chan.st.spc).msg)
      ensures closed == Closed(chan.st) && (old(Closed(chan.st)) ==> closed)
      ensures old(Room(chan.st)) <= Room(chan.st)
    {
      chan.WriterRuns();
      SenderSeesLater(old(chan.st), chan.st);
      closed := !chan.st.heap[chan.st.sring].consAlive;
      chan.Do(Snd(AsyncTestClosed));
    }

    /** self.ring_buf.register_waker(&waker) within send_async. */
    method RegisterWaker()
      requires chan.Valid() && chan.st.spc.AsyncRegister?
      modifies chan
      ensures chan.Valid() && old(chan.log) <= chan.log && !chan.st.parked
      ensures chan.st.accepted == old(chan.st.accepted)
      ensures chan.st.spc == AsyncCheck(true, old(chan.st.spc).msg)
      ensures (old(Closed(chan.st)) ==> Closed(chan.st)) && old(Room(chan.st)) <= Room(chan.st)
    {
      chan.WriterRuns();
      SenderSeesLater(old(chan.st), chan.st);
      chan.Do(Snd(AsyncRegisterWaker));
    }

    /** send_block, observed for at most `polls` polls of its future. */
    method SendBlock(bytes: seq<byte>, polls: nat) returns (r: BlockResult)
      requires CanCall()
      modifies chan
      ensures CanCall() && old(chan.log) <= chan.log
      ensures r == Sent ==> chan.st.accepted == old(chan.st.accepted) + bytes
      ensures r != Sent ==> PartlyTaken(old(chan.st.accepted), bytes, chan.st.accepted)
      ensures |bytes| <= old(Room(chan.st)) ==> r == Sent
    {
      if bytes == [] {
        return Sent;
      }
      var offset, finished := BurstWrite(0, bytes);
      AppendInTwo(old(chan.st.accepted), bytes, offset, |bytes|);
      if finished {
        return Sent;
      }
      r := WriteAll(old(chan.st.accepted), bytes, offset, polls);
    }

    /** The future of send_block, from `start` on. */
    method WriteAll(ghost before: seq<byte>, bytes: seq<byte>, start: nat, polls: nat) returns (r: BlockResult)
      requires CanCall() && start < |bytes| && chan.st.accepted == before + bytes[..start]
      modifies chan
      ensures CanCall() && old(chan.log) <= chan.log
      ensures r == Sent ==> chan.st.accepted == before + bytes
      ensures r != Sent ==> PartlyTaken(before, bytes, chan.st.accepted)
    {
      var offset, n, broken := start, polls, false;
      while offset < |bytes| && n > 0 && !broken
        invariant CanCall() && old(chan.log) <= chan.log
        invariant 0 <= offset <= |bytes| && (broken ==> offset < |bytes|)
        invariant chan.st.accepted == before + bytes[..offset]
      {
        var taken;
        taken, broken := PollWrite(bytes[offset..]);
        AppendInTwo(before, bytes, offset, offset + taken);
        offset := offset + taken;
        n := n - 1;
      }
      AppendInTwo(before, bytes, offset, |bytes|);
      r := if offset == |bytes| then Sent else if broken then Broken else StillBlocked;
    }

    /** One poll_write: some bytes go in, or nothing does and either the waker is registered or an
        error is reported. */
    method PollWrite(bytes: seq<byte>) returns (taken: nat, broken: bool)
      requires CanCall() && bytes != []
      modifies chan
      ensures CanCall() && old(chan.log) <= chan.log
      ensures taken <= |bytes| && chan.st.accepted == old(chan.st.accepted) + bytes[..taken]
      ensures broken ==> taken == 0
      ensures !broken ==> taken >= Min(old(Room(chan.st)), |bytes|)
      ensures !broken && taken == 0 ==> chan.st.sring < |chan.st.heap| && chan.st.heap[chan.st.sring].waker
    {
      broken := *;
      taken := 0;
      if !broken {
        taken := PushSlice(bytes);
        if taken == 0 {
          chan.WriterRuns();
          chan.Do(Snd(BlockRegister));
        }
      }
    }

    /** Fields are dropped in order: the producer, then the channel. */
    method Drop()
      requires CanCall()
      modifies chan
      ensures chan.Valid() && old(chan.log) <= chan.log && chan.st.spc == Gone
      ensures chan.st.accepted == old(chan.st.accepted)
      ensures InOrder(old(chan.log), chan.log, Snd(DropProducer), Snd(DropChannel))
    {
      chan.WriterRuns();
      ghost var begun := chan.log;
      chan.Do(Snd(DropProducer));
      chan.WriterRuns();
      TookInOrder(old(chan.log), begun, chan.log, Snd(DropProducer), Snd(DropChannel));
      chan.Do(Snd(DropChannel));
    }
  }

  /** The ring made for an overflow is large enough for what is left of the message, so the ignored
      result of the second push_slice is always the whole remainder. */
  lemma OverflowRingHoldsAll(rest: seq<byte>)
    ensures OverflowRing(rest).data == rest && OverflowRing(rest).cap >= RING_BUFFER_SIZE
    ensures OverflowRing(rest).cap > RING_BUFFER_SIZE ==> Free(OverflowRing(rest)) == 0
  {
  }
}

/**
 What every step of the send path keeps.
 */
module SendInvariant {
  import opened Base
  import opened SendPath

  // ---------------------------------------------------------------- the invariant

  predicate SenderAlive(pc: SenderPc) {
    pc != RingDropped && pc != Gone
  }

  /** Only the newest ring is open, except that the swap window has the two newest open. */
  predicate SenderOk(s: State) {
    && |s.heap| > 0
    && (forall i :: 0 <= i < |s.heap| ==> |s.heap[i].data| <= s.heap[i].cap && s.heap[i].cap >= RING_BUFFER_SIZE)
    && s.sring == (if s.spc == Swap then |s.heap| - 2 else |s.heap| - 1)
    && (forall i :: 0 <= i < |s.heap| ==> (s.heap[i].prodAlive <==> i >= s.sring && SenderAlive(s.spc)))
  }

  predicate ConsecutiveTo(ids: seq<nat>, end: nat) {
    && |ids| <= end
    && forall i :: 0 <= i < |ids| ==> ids[i] == end - |ids| + i
  }

  /** What the writer knows about the ring it holds. */
  predicate PhaseOk(auto: bool, r: Ring, ph: Phase) {
    && PhaseInRange(r, ph)
    && match ph
       case Select(tick) => auto || tick
       case Check(tick) => OccupiedReady(r, Threshold(tick)) && (auto || tick)
       case Occupancy(tick) => auto && |r.data| >= Threshold(tick)
       case Look(drain) => drain ==> !r.prodAlive
       case Writing(drain, left) => 1 <= left && (drain ==> !r.prodAlive)
       case Advance(drain, n) => 1 <= n && (drain ==> !r.prodAlive)
       case WakeUp(drain) => drain ==> !r.prodAlive
       case Drained => r.data == [] && !r.prodAlive
       case _ => true
  }

  predicate WriterPcOk(s: State)
    requires InRange(s)
  {
    match s.wpc
    case Holding(r, ph) =>
      && r == |s.heap| - |s.queue| - 1
      && PhaseOk(s.auto, s.heap[r], ph) && ph != Drained && ph != Unwound
    case Shutdown => s.queue == [] && s.spc == Gone
    case DoneOk => s.queue == [] && s.spc == Gone
    case DropQueue(ids) => s.queue == [] && ConsecutiveTo(ids, |s.heap|)
    case DropQueueWake(ids) => s.queue == [] && ConsecutiveTo(ids, |s.heap|)
    case Failed => s.queue == []
    case _ => true
  }

  /** Consumers from this ring on are still held. */
  function LiveFrom(s: State): int {
    match s.wpc
    case Holding(r, ph) => if ph == DropRingWake then r + 1 else r
    case DropQueue(ids) => |s.heap| - |ids|
    case DropQueueWake(ids) => |s.heap| - |ids| + 1
    case _ => |s.heap| - |s.queue|
  }

  /** The writer takes the rings one by one, in order, and leaves only closed and empty ones behind. */
  predicate WriterOk(s: State) {
    && InRange(s)
    && ConsecutiveTo(s.queue, |s.heap|)
    && (s.rxOpen <==> Attached(s.wpc) && s.wpc != DoneOk)
    && WriterPcOk(s)
    && (Attached(s.wpc) && s.wpc != DropReceiver ==>
          forall i :: 0 <= i < |s.heap| && i < FirstUnfinished(s) ==> s.heap[i].data == [] && !s.heap[i].prodAlive)
    && (forall i :: 0 <= i < |s.heap| ==> (s.heap[i].consAlive <==> i >= LiveFrom(s)))
  }

  predicate Conserved(s: State) {
    s.accepted == s.wire + Flat(Parts(s))
  }

  /** The writer is about to wake the sender's ring. */
  predicate WakeInFlight(s: State) {
    match s.wpc
    case Holding(r, ph) => r == s.sring && (ph.WakeUp? || ph == DropRingWake)
    case DropQueueWake(ids) => ids != [] && ids[0] == s.sring
    case _ => false
  }

  predicate WakeOk(s: State)
    requires s.sring < |s.heap|
  {
    var ring := s.heap[s.sring];
    && (s.spc.AsyncCheck? && s.spc.registered ==> s.notified || ring.waker)
    && (s.spc.AsyncPush? && s.spc.registered ==>
          s.notified || (ring.waker && (ring.consAlive || WakeInFlight(s))))
    && ((s.spc.AsyncCheck? || s.spc.AsyncPush? || s.spc.AsyncRegister?) ==> s.spc.msg != [])
    && (s.parked ==>
          && s.spc == Idle
          && (s.notified || (ring.waker && (WakeInFlight(s) || (ring.consAlive && Free(ring) == 0)))))
  }

  predicate Inv(s: State) {
    SenderOk(s) && WriterOk(s) && Conserved(s) && WakeOk(s)
  }

  // ---------------------------------------------------------------- flattening

  lemma {:induction false} FlatConcat(a: seq<seq<byte>>, b: seq<seq<byte>>)
    ensures Flat(a + b) == Flat(a) + Flat(b)
  {
    if a == [] {
      assert a + b == b;
    } else {
      FlatConcat(a[1..], b);
      assert (a + b)[1..] == a[1..] + b;
      Regroup(a[0], Flat(a[1..]), Flat(b));
    }
  }

  lemma Regroup(x: seq<byte>, y: seq<byte>, z: seq<byte>)
    ensures x + (y + z) == x + y + z
  {
  }

  lemma {:induction false} FlatEmpty(a: seq<seq<byte>>)
    requires forall i :: 0 <= i < |a| ==> a[i] == []
    ensures Flat(a) == []
  {
    if a != [] {
      FlatEmpty(a[1..]);
    }
  }

  lemma FlatSingle(x: seq<byte>)
    ensures Flat([x]) == x
  {
  }

  lemma FlatFront(before: seq<seq<byte>>, x: seq<byte>, after: seq<seq<byte>>)
    requires forall i :: 0 <= i < |before| ==> before[i] == []
    ensures Flat(before + ([x] + after)) == x + Flat(after)
  {
    FlatEmpty(before);
    FlatConcat(before, [x] + after);
    FlatConcat([x], after);
    FlatSingle(x);
  }

  /** Taking bytes off the front of the first part that is not empty takes them off the front of everything. */
  lemma FlatTake(p: seq<seq<byte>>, r: nat, out: seq<byte>, left: seq<byte>)
    requires r < |p| && p[r] == out + left && forall i :: 0 <= i < r ==> p[i] == []
    ensures Flat(p) == out + Flat(p[r := left])
  {
    var before, after := p[..r], p[r + 1..];
    assert p == before + ([p[r]] + after) && p[r := left] == before + ([left] + after);
    FlatFront(before, p[r], after);
    FlatFront(before, left, after);
    Regroup(out, left, Flat(after));
  }

  lemma FlatSplit(p: seq<seq<byte>>, r: nat)
    requires r <= |p|
    ensures Flat(p) == Flat(p[..r]) + Flat(p[r..])
  {
    assert p == p[..r] + p[r..];
    FlatConcat(p[..r], p[r..]);
  }

  /** Appending to the last part appends to the whole. */
  lemma FlatPush(p: seq<seq<byte>>, more: seq<byte>)
    requires p != []
    ensures Flat(p[|p| - 1 := p[|p| - 1] + more]) == Flat(p) + more
  {
    var r := |p| - 1;
    assert p == p[..r] + [p[r]] && p[r := p[r] + more] == p[..r] + [p[r] + more];
    FlatSnoc(p[..r], p[r]);
    FlatSnoc(p[..r], p[r] + more);
    Regroup(Flat(p[..r]), p[r], more);
  }

  lemma FlatSnoc(a: seq<seq<byte>>, x: seq<byte>)
    ensures Flat(a + [x]) == Flat(a) + x
  {
    FlatConcat(a, [x]);
    FlatSingle(x);
  }

  lemma PartsChangeAt(s: State, t: State, r: nat, part: seq<byte>)
    requires r < |s.heap| == |t.heap| && Rest(t, r) == part
    requires forall i :: 0 <= i < |s.heap| && i != r ==> Rest(t, i) == Rest(s, i)
    ensures Parts(t) == Parts(s)[r := part]
  {
  }

  // ---------------------------------------------------------------- sender steps on its ring

  /** What a step on the sender's ring does, without saying which step it was. */
  predicate CallFacts(r: Ring, pc: SenderPc, c: Call) {
    && SenderAlive(pc) && pc != Swap && c.pc != Swap && c.pc != Gone
    && c.ring.cap == r.cap && c.ring.consAlive == r.consAlive
    && c.ring.data == r.data + c.taken && |c.ring.data| <= Max(r.cap, |r.data|)
    && c.ring.prodAlive == (r.prodAlive && c.pc != RingDropped)
    && c.ring.waker == (r.waker || c.armed)
    && (c.pc.AsyncCheck? && c.pc.registered ==> c.armed)
    && (c.pc.AsyncPush? && c.pc.registered ==> pc.AsyncCheck? && pc.registered && r.consAlive && !c.armed)
    && (c.pending ==> c.pc == Idle && c.taken == [] && !c.armed
                      && pc.AsyncPush? && pc.registered && (pc.msg != [] ==> Free(c.ring) == 0))
  }

  lemma CallHasFacts(r: Ring, pc: SenderPc, a: SenderStep)
    requires CallEnabled(pc, a)
    ensures CallFacts(r, pc, CallApply(r, pc, a))
  {
  }

  lemma CallKeepsMsg(r: Ring, pc: SenderPc, a: SenderStep)
    requires CallEnabled(pc, a)
    requires (pc.AsyncCheck? || pc.AsyncPush? || pc.AsyncRegister?) ==> pc.msg != []
    ensures var q := CallApply(r, pc, a).pc; (q.AsyncCheck? || q.AsyncPush? || q.AsyncRegister?) ==> q.msg != []
  {
  }

  lemma CallKeepsSenderOk(s: State, c: Call)
    requires SenderOk(s) && CallFacts(s.heap[s.sring], s.spc, c)
    ensures SenderOk(AfterCall(s, c))
  {
  }

  lemma CallKeepsWriterOk(s: State, c: Call)
    requires SenderOk(s) && WriterOk(s) && CallFacts(s.heap[s.sring], s.spc, c)
    ensures WriterOk(AfterCall(s, c))
  {
  }

  lemma CallConserves(s: State, c: Call)
    requires s.sring == |s.heap| - 1 && Conserved(s)
    requires s.wpc.Holding? && s.wpc.ring == s.sring ==> PhaseInRange(s.heap[s.sring], s.wpc.phase)
    requires c.ring.data == s.heap[s.sring].data + c.taken
    ensures Conserved(AfterCall(s, c))
  {
    CallParts(s, c);
    FlatPush(Parts(s), c.taken);
    Regroup(s.wire, Flat(Parts(s)), c.taken);
  }

  lemma CallParts(s: State, c: Call)
    requires s.sring < |s.heap| && c.ring.data == s.heap[s.sring].data + c.taken
    requires s.wpc.Holding? && s.wpc.ring == s.sring ==> PhaseInRange(s.heap[s.sring], s.wpc.phase)
    ensures Parts(AfterCall(s, c)) == Parts(s)[s.sring := Parts(s)[s.sring] + c.taken]
  {
    var t := AfterCall(s, c);
    assert Rest(t, s.sring) == Rest(s, s.sring) + c.taken;
    PartsChangeAt(s, t, s.sring, Rest(s, s.sring) + c.taken);
  }

  lemma CallKeepsWakeOk(s: State, c: Call)
    requires SenderOk(s) && WakeOk(s) && CallFacts(s.heap[s.sring], s.spc, c)
    requires (c.pc.AsyncCheck? || c.pc.AsyncPush? || c.pc.AsyncRegister?) ==> c.pc.msg != []
    ensures WakeOk(AfterCall(s, c))
  {
  }

  lemma CallKeepsInv(s: State, a: SenderStep)
    requires Inv(s) && InRange(s) && CallEnabled(s.spc, a)
    ensures Inv(AfterCall(s, CallApply(s.heap[s.sring], s.spc, a)))
  {
    var c := CallApply(s.heap[s.sring], s.spc, a);
    CallHasFacts(s.heap[s.sring], s.spc, a);
    CallKeepsMsg(s.heap[s.sring], s.spc, a);
    CallKeepsSenderOk(s, c);
    CallKeepsWriterOk(s, c);
    CallConserves(s, c);
    CallKeepsWakeOk(s, c);
  }

  // ---------------------------------------------------------------- sender steps on the chain

  lemma SendRingKeepsSenderOk(s: State, rest: seq<byte>)
    requires SenderOk(s) && SenderEnabled(s, SendRing(rest))
    ensures SenderOk(SenderApply(s, SendRing(rest)))
  {
  }

  lemma SendRingKeepsWriterOk(s: State, rest: seq<byte>)
    requires WriterOk(s) && SenderEnabled(s, SendRing(rest))
    ensures WriterOk(SenderApply(s, SendRing(rest)))
  {
    var t := SenderApply(s, SendRing(rest));
    assert t.heap[..|s.heap|] == s.heap;
    assert InRange(t) && ConsecutiveTo(t.queue, |t.heap|) && WriterPcOk(t);
  }

  lemma SendRingConserves(s: State, rest: seq<byte>)
    requires Conserved(s) && SenderEnabled(s, SendRing(rest))
    ensures Conserved(SenderApply(s, SendRing(rest)))
  {
    var t := SenderApply(s, SendRing(rest));
    var added := OverflowRing(rest).data;
    assert s.wpc.Holding? ==> s.wpc.ring < |s.heap|;
    assert Parts(t) == Parts(s) + [added];
    FlatSnoc(Parts(s), added);
    Regroup(s.wire, Flat(Parts(s)), added);
  }

  lemma SwapRingKeepsSenderOk(s: State)
    requires SenderOk(s) && SenderEnabled(s, SwapRing)
    ensures SenderOk(SenderApply(s, SwapRing))
  {
  }

  lemma SwapRingKeepsWriterOk(s: State)
    requires SenderOk(s) && WriterOk(s) && SenderEnabled(s, SwapRing)
    ensures WriterOk(SenderApply(s, SwapRing))
  {
    var t := SenderApply(s, SwapRing);
    assert InRange(t) && WriterPcOk(t);
  }

  lemma SameBytesConserved(s: State, t: State)
    requires Conserved(s) && t.accepted == s.accepted && t.wire == s.wire && |t.heap| == |s.heap|
    requires forall i :: 0 <= i < |s.heap| ==> Rest(t, i) == Rest(s, i)
    ensures Conserved(t)
  {
    assert Parts(t) == Parts(s);
  }

  lemma SendRingKeepsInv(s: State, rest: seq<byte>)
    requires Inv(s) && SenderEnabled(s, SendRing(rest))
    ensures Inv(SenderApply(s, SendRing(rest)))
  {
    SendRingKeepsSenderOk(s, rest);
    SendRingKeepsWriterOk(s, rest);
    SendRingConserves(s, rest);
  }

  lemma SwapRingKeepsInv(s: State)
    requires Inv(s) && SenderEnabled(s, SwapRing)
    ensures Inv(SenderApply(s, SwapRing))
  {
    SwapRingKeepsSenderOk(s);
    SwapRingKeepsWriterOk(s);
    SameBytesConserved(s, SenderApply(s, SwapRing));
  }

  lemma QuietKeepsInv(s: State, a: SenderStep)
    requires Inv(s) && SenderEnabled(s, a) && (a == SendRingFails || a == DropChannel)
    ensures Inv(SenderApply(s, a))
  {
    var t := SenderApply(s, a);
    QuietKeepsWriterOk(s, t);
    SameBytesConserved(s, t);
  }

  lemma QuietKeepsWriterOk(s: State, t: State)
    requires WriterOk(s) && t == s.(parked := t.parked, spc := t.spc) && (s.spc == Gone ==> t.spc == Gone)
    ensures WriterOk(t)
  {
  }

  lemma SenderKeepsInv(s: State, a: SenderStep)
    requires Inv(s) && SenderEnabled(s, a)
    ensures Inv(SenderApply(s, a))
  {
    match a
    case SendRing(rest) => SendRingKeepsInv(s, rest);
    case SwapRing => SwapRingKeepsInv(s);
    case SendRingFails => QuietKeepsInv(s, a);
    case DropChannel => QuietKeepsInv(s, a);
    case _ => CallKeepsInv(s, a);
  }

  // ---------------------------------------------------------------- writer steps on its ring

  /** What a step on the held ring does, without saying which step it was. */
  predicate HoldFacts(auto: bool, r: Ring, ph: Phase, h: Hold) {
    && h.ring.cap == r.cap && h.ring.prodAlive == r.prodAlive && |h.ring.data| <= |r.data|
    && Unwritten(r, ph) == h.out + Unwritten(h.ring, h.phase)
    && PhaseOk(auto, h.ring, h.phase)
    && h.ring.consAlive == (r.consAlive && h.phase != Drained && h.phase != DropRingWake)
    && (h.phase == Unwound <==> ph == DropRingWake)
    && (h.ring.waker ==> r.waker) && (h.woke <==> r.waker && !h.ring.waker)
    && (ph.WakeUp? || ph == DropRingWake ==> !h.ring.waker)
    && (h.ring.data != r.data ==> h.phase.WakeUp?)
  }

  lemma HoldHasFacts(auto: bool, r: Ring, ph: Phase, a: WriterStep)
    requires PhaseOk(auto, r, ph) && HoldEnabled(auto, r, ph, a)
    ensures HoldFacts(auto, r, ph, HoldApply(auto, r, ph, a))
  {
    if a.WriteSome? {
      WriteHasFacts(auto, r, ph, a.count);
    } else if a.AdvanceRead? {
      AdvanceHasFacts(auto, r, ph);
    } else if ph.Look? || ph.WakeUp? {
      TurnHasFacts(auto, r, ph, a);
    } else if ph.DropRing? || ph.DropRingWake? {
      UnwindHasFacts(auto, r, ph);
    } else {
      SelectHasFacts(auto, r, ph, a);
    }
  }

  /** A slice is written: it leaves the unwritten part of the ring and not yet the ring. */
  lemma WriteHasFacts(auto: bool, r: Ring, ph: Phase, count: nat)
    requires PhaseOk(auto, r, ph) && HoldEnabled(auto, r, ph, WriteSome(count))
    ensures HoldFacts(auto, r, ph, HoldApply(auto, r, ph, WriteSome(count)))
  {
    assert r.data == r.data[..count] + r.data[count..];
  }

  lemma AdvanceHasFacts(auto: bool, r: Ring, ph: Phase)
    requires PhaseOk(auto, r, ph) && HoldEnabled(auto, r, ph, AdvanceRead)
    ensures HoldFacts(auto, r, ph, HoldApply(auto, r, ph, AdvanceRead))
  {
    assert r.data[ph.count..] == [] + r.data[ph.count..];
  }

  lemma TurnHasFacts(auto: bool, r: Ring, ph: Phase, a: WriterStep)
    requires PhaseOk(auto, r, ph) && HoldEnabled(auto, r, ph, a) && (ph.Look? || ph.WakeUp?)
    ensures HoldFacts(auto, r, ph, HoldApply(auto, r, ph, a))
  {
    assert r.data == [] + r.data;
  }

  lemma UnwindHasFacts(auto: bool, r: Ring, ph: Phase)
    requires HoldEnabled(auto, r, ph, Unwind)
    ensures HoldFacts(auto, r, ph, HoldApply(auto, r, ph, Unwind))
  {
    assert r.data == [] + r.data;
  }

  /** In the select, and in the write it is aborted at, nothing happens to the ring. */
  lemma SelectHasFacts(auto: bool, r: Ring, ph: Phase, a: WriterStep)
    requires PhaseOk(auto, r, ph) && HoldEnabled(auto, r, ph, a)
    requires ph.Select? || ph.Check? || ph.Occupancy? || a == Fail
    ensures HoldFacts(auto, r, ph, HoldApply(auto, r, ph, a))
  {
    assert r.data == [] + r.data;
  }

  lemma HoldKeepsSenderOk(s: State, h: Hold)
    requires SenderOk(s) && WriterOk(s) && s.wpc.Holding?
    requires HoldFacts(s.auto, s.heap[s.wpc.ring], s.wpc.phase, h)
    ensures SenderOk(AfterHold(s, s.wpc.ring, h))
  {
  }

  lemma HoldKeepsWriterOk(s: State, r: nat, h: Hold)
    requires WriterOk(s) && s.wpc.Holding? && r == s.wpc.ring
    requires h.ring.prodAlive == s.heap[r].prodAlive && PhaseOk(s.auto, h.ring, h.phase)
    requires h.ring.consAlive == (s.heap[r].consAlive && h.phase != Drained && h.phase != DropRingWake)
    requires h.phase == Unwound <==> s.wpc.phase == DropRingWake
    ensures WriterOk(AfterHold(s, r, h))
  {
  }

  lemma HoldParts(s: State, r: nat, h: Hold)
    requires s.wpc.Holding? && r == s.wpc.ring < |s.heap|
    ensures Parts(AfterHold(s, r, h)) == Parts(s)[r := Unwritten(h.ring, h.phase)]
  {
    PartsChangeAt(s, AfterHold(s, r, h), r, Unwritten(h.ring, h.phase));
  }

  /** What leaves the parts at their front arrives at the end of the wire. */
  lemma WireTakes(accepted: seq<byte>, wire: seq<byte>, p: seq<seq<byte>>, r: nat, out: seq<byte>, left: seq<byte>)
    requires accepted == wire + Flat(p)
    requires r < |p| && p[r] == out + left && forall i :: 0 <= i < r ==> p[i] == []
    ensures accepted == wire + out + Flat(p[r := left])
  {
    FlatTake(p, r, out, left);
    Regroup(wire, out, Flat(p[r := left]));
  }

  lemma HoldConserves(s: State, r: nat, h: Hold)
    requires s.wpc.Holding? && r == s.wpc.ring < |s.heap| && Conserved(s)
    requires forall i :: 0 <= i < r ==> s.heap[i].data == []
    requires Unwritten(s.heap[r], s.wpc.phase) == h.out + Unwritten(h.ring, h.phase)
    ensures Conserved(AfterHold(s, r, h))
  {
    HoldParts(s, r, h);
    WireTakes(s.accepted, s.wire, Parts(s), r, h.out, Unwritten(h.ring, h.phase));
  }

  lemma HoldKeepsWakeOk(s: State, h: Hold)
    requires SenderOk(s) && WriterOk(s) && WakeOk(s) && s.wpc.Holding?
    requires HoldFacts(s.auto, s.heap[s.wpc.ring], s.wpc.phase, h)
    ensures WakeOk(AfterHold(s, s.wpc.ring, h))
  {
  }

  lemma HoldKeepsInv(s: State, a: WriterStep)
    requires Inv(s) && s.wpc.Holding? && WriterEnabled(s, a)
    ensures Inv(WriterApply(s, a))
  {
    var r, ph := s.wpc.ring, s.wpc.phase;
    var h := HoldApply(s.auto, s.heap[r], ph, a);
    HoldHasFacts(s.auto, s.heap[r], ph, a);
    HoldKeepsSenderOk(s, h);
    HoldKeepsWriterOk(s, r, h);
    HoldConserves(s, r, h);
    HoldKeepsWakeOk(s, h);
  }

  // ---------------------------------------------------------------- writer steps on the chain

  lemma ReceiveKeepsOk(s: State, a: WriterStep)
    requires WriterOk(s) && (s.wpc == Recv || s.wpc == Shutdown || s.wpc == DropReceiver) && WriterEnabled(s, a)
    ensures WriterOk(WriterApply(s, a))
  {
  }

  lemma DropQueueKeepsOk(s: State, a: WriterStep)
    requires WriterOk(s) && (s.wpc.DropQueue? || s.wpc.DropQueueWake?) && WriterEnabled(s, a)
    ensures WriterOk(WriterApply(s, a))
  {
    var t := WriterApply(s, a);
    assert t.queue == [] && InRange(t) && WriterPcOk(t);
  }

  lemma ReceiveKeepsRest(s: State, a: WriterStep)
    requires SenderOk(s) && WakeOk(s) && Conserved(s) && WriterEnabled(s, a)
    requires s.wpc == Recv || s.wpc == Shutdown || s.wpc == DropReceiver
    ensures SenderOk(WriterApply(s, a)) && WakeOk(WriterApply(s, a)) && Conserved(WriterApply(s, a))
  {
    var t := WriterApply(s, a);
    assert t.heap == s.heap && t.sring == s.sring && t.spc == s.spc && t.parked == s.parked && t.notified == s.notified;
    SameBytesConserved(s, t);
  }

  /** Dropping a queued consumer changes neither the bytes nor the producer of any ring. */
  lemma DropQueueLeavesRings(s: State, a: WriterStep)
    requires WriterEnabled(s, a) && (s.wpc.DropQueue? || s.wpc.DropQueueWake?)
    ensures var t := WriterApply(s, a);
            && t.sring == s.sring && t.spc == s.spc && |t.heap| == |s.heap|
            && t.accepted == s.accepted && t.wire == s.wire && !t.wpc.Holding?
            && forall i :: 0 <= i < |s.heap| ==>
                 t.heap[i] == s.heap[i].(consAlive := t.heap[i].consAlive, waker := t.heap[i].waker)
  {
  }

  lemma DropQueueKeepsSenderOk(s: State, a: WriterStep)
    requires SenderOk(s) && Conserved(s) && WriterEnabled(s, a) && (s.wpc.DropQueue? || s.wpc.DropQueueWake?)
    ensures SenderOk(WriterApply(s, a)) && Conserved(WriterApply(s, a))
  {
    DropQueueLeavesRings(s, a);
    SameRingsKeepSenderOk(s, WriterApply(s, a));
    SameBytesConserved(s, WriterApply(s, a));
  }

  lemma SameRingsKeepSenderOk(s: State, t: State)
    requires SenderOk(s) && t.sring == s.sring && t.spc == s.spc && |t.heap| == |s.heap|
    requires forall i :: 0 <= i < |s.heap| ==>
               t.heap[i] == s.heap[i].(consAlive := t.heap[i].consAlive, waker := t.heap[i].waker)
    ensures SenderOk(t)
  {
  }

  lemma DropQueueKeepsWakeOk(s: State, a: WriterStep)
    requires SenderOk(s) && WakeOk(s) && WriterEnabled(s, a) && (s.wpc.DropQueue? || s.wpc.DropQueueWake?)
    ensures WakeOk(WriterApply(s, a))
  {
  }

  lemma ChannelKeepsInv(s: State, a: WriterStep)
    requires Inv(s) && !s.wpc.Holding? && WriterEnabled(s, a)
    ensures Inv(WriterApply(s, a))
  {
    if s.wpc.DropQueue? || s.wpc.DropQueueWake? {
      DropQueueKeepsOk(s, a);
      DropQueueKeepsSenderOk(s, a);
      DropQueueKeepsWakeOk(s, a);
    } else {
      ReceiveKeepsOk(s, a);
      ReceiveKeepsRest(s, a);
    }
  }

  lemma WriterKeepsInv(s: State, a: WriterStep)
    requires Inv(s) && WriterEnabled(s, a)
    ensures Inv(WriterApply(s, a))
  {
    if s.wpc.Holding? {
      HoldKeepsInv(s, a);
    } else {
      ChannelKeepsInv(s, a);
    }
  }

  // ---------------------------------------------------------------- every run

  lemma StepKeepsInv(s: State, step: Step)
    requires Inv(s) && Enabled(s, step)
    ensures Inv(Apply(s, step)) && Apply(s, step).auto == s.auto
  {
    match step
    case Snd(a) => SenderKeepsInv(s, a);
    case Wrt(a) => WriterKeepsInv(s, a);
  }

  lemma InitInv(auto: bool)
    ensures Inv(Init(auto))
  {
  }

  lemma {:induction false} RunKeepsInv(s: State, steps: seq<Step>)
    requires Inv(s)
    ensures Exec(s, steps).Some? ==> Inv(Exec(s, steps).value) && Exec(s, steps).value.auto == s.auto
  {
    if steps != [] && Exec(s, steps).Some? {
      var last := |steps| - 1;
      RunKeepsInv(s, steps[..last]);
      StepKeepsInv(Exec(s, steps[..last]).value, steps[last]);
    }
  }
}

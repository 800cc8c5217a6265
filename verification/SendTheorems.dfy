/**
 What the invariant means for every interleaving of one sender and one writer.
 */
module SendTheorems {
  import opened Base
  import opened SendPath
  import opened SendInvariant

  /** The end of a run that starts where `make_sender` leaves off. */
  ghost predicate Reaches(auto: bool, steps: seq<Step>, t: State) {
    Exec(Init(auto), steps) == Some(t)
  }

  lemma ReachableInv(auto: bool, steps: seq<Step>, t: State)
    requires Reaches(auto, steps, t)
    ensures Inv(t) && t.auto == auto
  {
    InitInv(auto);
    RunKeepsInv(Init(auto), steps);
  }

  // ---------------------------------------------------------------- conservation

  /** Unwritten bytes of the ring the writer holds. */
  function HeldBytes(s: State): seq<byte>
    requires InRange(s)
  {
    if s.wpc.Holding? then Rest(s, s.wpc.ring) else []
  }

  /** Contents of the rings in the channel, in channel order. */
  function QueuedBytes(heap: seq<Ring>, queue: seq<nat>): seq<byte>
    requires forall i :: 0 <= i < |queue| ==> queue[i] < |heap|
  {
    if queue == [] then [] else heap[queue[0]].data + QueuedBytes(heap, queue[1..])
  }

  lemma {:induction false} QueuedIsFlat(s: State, queue: seq<nat>)
    requires ConsecutiveTo(queue, |s.heap|)
    requires forall i :: |s.heap| - |queue| <= i < |s.heap| ==> Rest(s, i) == s.heap[i].data
    ensures QueuedBytes(s.heap, queue) == Flat(Parts(s)[|s.heap| - |queue|..])
  {
    if queue != [] {
      var first := |s.heap| - |queue|;
      QueuedIsFlat(s, queue[1..]);
      assert Parts(s)[first..][1..] == Parts(s)[first + 1..];
    }
  }

  /** Finished rings hold nothing, so what is in flight starts with the held ring. */
  lemma FinishedAndHeld(s: State)
    requires WriterOk(s) && Running(s.wpc)
    ensures Flat(Parts(s)[..|s.heap| - |s.queue|]) == HeldBytes(s)
  {
    var p := Parts(s)[..|s.heap| - |s.queue|];
    if s.wpc.Holding? {
      var r := s.wpc.ring;
      FlatSplit(p, r);
      FlatEmpty(p[..r]);
      assert p[r..] == [HeldBytes(s)];
      FlatSingle(HeldBytes(s));
    } else {
      FlatEmpty(p);
    }
  }

  lemma InFlight(s: State)
    requires WriterOk(s) && Running(s.wpc)
    ensures Flat(Parts(s)) == HeldBytes(s) + QueuedBytes(s.heap, s.queue)
  {
    QueuedIsFlat(s, s.queue);
    FlatSplit(Parts(s), |s.heap| - |s.queue|);
    FinishedAndHeld(s);
  }

  /** Every accepted byte is on the wire, in the ring the writer holds, or in a queued ring, in this order. */
  lemma SendConservation(auto: bool, steps: seq<Step>, t: State)
    requires Reaches(auto, steps, t)
    ensures InRange(t)
    ensures Running(t.wpc) ==> t.accepted == t.wire + HeldBytes(t) + QueuedBytes(t.heap, t.queue)
    ensures t.wire <= t.accepted
  {
    ReachableInv(auto, steps, t);
    if Running(t.wpc) {
      InFlight(t);
    }
  }

  // ---------------------------------------------------------------- the chain of rings

  /** The rings that are still to be handled: the writer's, then the queued ones. */
  function Chain(s: State): seq<nat> {
    (if s.wpc.Holding? then [s.wpc.ring] else []) + s.queue
  }

  /** While the sender is alive and outside its swap, the last ring of the chain is the one it
      pushes to and the only open one; inside the swap the successor is already queued. */
  lemma {:induction false} ChainShape(auto: bool, steps: seq<Step>, t: State)
    requires Reaches(auto, steps, t) && Running(t.wpc) && SenderAlive(t.spc)
    ensures InRange(t)
    ensures t.spc != Swap ==> Chain(t) != [] && Chain(t)[|Chain(t)| - 1] == t.sring
    ensures t.spc == Swap ==> t.queue != [] && t.queue[|t.queue| - 1] == t.sring + 1
    ensures forall i :: 0 <= i < |t.heap| ==>
              (t.heap[i].prodAlive <==> i == t.sring || (t.spc == Swap && i == t.sring + 1))
    ensures forall i :: 0 <= i < |t.heap| && i !in Chain(t) ==> t.heap[i].data == [] && !t.heap[i].prodAlive
  {
    ReachableInv(auto, steps, t);
    var chain := Chain(t);
    assert ConsecutiveTo(chain, |t.heap|);
    assert t.heap[t.sring].prodAlive;
    forall i | |t.heap| - |chain| <= i < |t.heap|
      ensures i in chain
    {
      assert chain[i - (|t.heap| - |chain|)] == i;
    }
  }

  predicate IsSuffix(a: seq<byte>, b: seq<byte>) {
    |a| <= |b| && a == b[|b| - |a|..]
  }

  lemma SenderNeverFeedsClosed(s: State, a: SenderStep, i: nat)
    requires SenderOk(s) && SenderEnabled(s, a) && i < |s.heap| && !s.heap[i].prodAlive
    ensures var t := SenderApply(s, a); i < |t.heap| && t.heap[i] == s.heap[i]
  {
  }

  lemma WriterOnlyTakes(s: State, a: WriterStep, i: nat)
    requires WriterEnabled(s, a) && i < |s.heap|
    ensures var t := WriterApply(s, a);
            && |t.heap| == |s.heap| && IsSuffix(t.heap[i].data, s.heap[i].data)
            && t.heap[i].prodAlive == s.heap[i].prodAlive
  {
    if s.wpc.Holding? {
      HoldOnlyTakes(s.auto, s.heap[s.wpc.ring], s.wpc.phase, a);
    }
  }

  lemma HoldOnlyTakes(auto: bool, r: Ring, ph: Phase, a: WriterStep)
    requires HoldEnabled(auto, r, ph, a)
    ensures var h := HoldApply(auto, r, ph, a); IsSuffix(h.ring.data, r.data) && h.ring.prodAlive == r.prodAlive
  {
  }

  /** Once closed, a ring stays closed and never receives another byte, whatever happens next. */
  lemma {:induction false} ClosedRingIsFinal(s: State, steps: seq<Step>, t: State, i: nat)
    requires Inv(s) && Exec(s, steps) == Some(t) && i < |s.heap| && !s.heap[i].prodAlive
    ensures i < |t.heap| && !t.heap[i].prodAlive && IsSuffix(t.heap[i].data, s.heap[i].data)
    decreases |steps|
  {
    if steps != [] {
      var last := |steps| - 1;
      var m := Exec(s, steps[..last]).value;
      ClosedRingIsFinal(s, steps[..last], m, i);
      RunKeepsInv(s, steps[..last]);
      match steps[last]
      case Snd(a) => SenderNeverFeedsClosed(m, a, i);
      case Wrt(a) => WriterOnlyTakes(m, a, i);
    }
  }

  // ---------------------------------------------------------------- clean shutdown

  /** The socket is shut down only after the sender is gone and every accepted byte is on the wire. */
  lemma CleanShutdown(auto: bool, steps: seq<Step>, t: State)
    requires Reaches(auto, steps, t) && (t.wpc == Shutdown || t.wpc == DoneOk)
    ensures t.spc == Gone && t.wire == t.accepted
  {
    ReachableInv(auto, steps, t);
    FlatEmpty(Parts(t));
  }

  // ---------------------------------------------------------------- wakeups

  /** A send_async that returned Pending is still entitled to wait, has been woken, or is about to be. */
  lemma NoLostWakeup(auto: bool, steps: seq<Step>, t: State)
    requires Reaches(auto, steps, t) && t.parked
    ensures t.sring < |t.heap|
    ensures var ring := t.heap[t.sring];
            t.notified || (ring.waker && (WakeInFlight(t) || (ring.consAlive && |ring.data| == ring.cap)))
    ensures t.wpc == Failed ==> t.notified
  {
    ReachableInv(auto, steps, t);
  }
}

/**
 Progress of the writer: a measure that every writer step lowers and no sender step
 raises, and the exact situations in which the writer has nothing to do.
 */
module SendProgress {
  import opened Base
  import opened SendPath
  import opened SendInvariant
  import opened SendTheorems

  // ---------------------------------------------------------------- the measure

  /** How many rings have to be left behind before `need` bytes are written. */
  function Hops(parts: seq<seq<byte>>, need: nat): nat {
    if parts == [] || need <= |parts[0]| then 0 else 1 + Hops(parts[1..], need - |parts[0]|)
  }

  /** Steps left in the handling of the held ring, apart from those that a written byte pays for. */
  function PhaseWeight(auto: bool, empty: bool, ph: Phase): nat {
    match ph
    case Select(tick) => if empty && (!tick || !auto) then 3 else if tick then 7 else 10
    case Check(tick) => if empty then 2 else if tick then 6 else 9
    case Occupancy(tick) => if tick then 5 else 8
    case Look(drain) => if drain then 1 else 4
    case Writing(drain, _) => if drain then 0 else 3
    case Advance(drain, _) => if drain then 3 else 6
    case WakeUp(drain) => if drain then 2 else 5
    case _ => 0
  }

  function Weight(s: State): nat
    requires InRange(s)
  {
    if s.wpc.Holding? then PhaseWeight(s.auto, s.heap[s.wpc.ring].data == [], s.wpc.phase)
    else if s.wpc == Recv then 12 else 0
  }

  /** The parts that the writer has not finished with. */
  function Ahead(s: State): seq<seq<byte>> {
    if 0 <= FirstUnfinished(s) <= |s.heap| then Parts(s)[FirstUnfinished(s)..] else []
  }

  /** A bound on the writer steps before the first `target` accepted bytes are on the wire. */
  function Debt(s: State, target: nat): nat
    requires InRange(s)
  {
    if |s.wire| >= target then 0
    else
      var need := target - |s.wire|;
      4 * need + 16 * Hops(Ahead(s), need) + Weight(s)
  }

  // ---------------------------------------------------------------- hops

  lemma HopsTake(parts: seq<seq<byte>>, need: nat, out: seq<byte>, left: seq<byte>)
    requires parts != [] && parts[0] == out + left && |out| <= need
    ensures Hops(parts[0 := left], need - |out|) == Hops(parts, need)
  {
  }

  lemma {:induction false} HopsExtend(a: seq<seq<byte>>, b: seq<seq<byte>>, need: nat)
    requires need <= |Flat(a)| && |a| <= |b| && (forall i :: 0 <= i < |a| - 1 ==> b[i] == a[i])
    requires a != [] ==> a[|a| - 1] <= b[|a| - 1]
    ensures Hops(b, need) == Hops(a, need)
  {
    if a != [] {
      FlatSingle(a[0]);
      assert |a| == 1 ==> a == [a[0]];
      if |a| > 1 && need > |a[0]| {
        HopsExtend(a[1..], b[1..], need - |a[0]|);
      }
    }
  }

  lemma {:induction false} HopsBound(parts: seq<seq<byte>>, need: nat)
    ensures Hops(parts, need) <= |parts|
  {
    if parts != [] && need > |parts[0]| {
      HopsBound(parts[1..], need - |parts[0]|);
    }
  }

  // ---------------------------------------------------------------- writer steps lower the measure

  /** On one ring, a step that writes nothing lowers the weight and a written byte is worth four. */
  lemma HoldLowersWeight(auto: bool, r: Ring, ph: Phase, a: WriterStep)
    requires PhaseOk(auto, r, ph) && HoldEnabled(auto, r, ph, a) && a != Fail && a != Unwind
    ensures var h := HoldApply(auto, r, ph, a);
            if h.phase == Drained then ph == Look(true) && r.data == [] && h.out == []
            else PhaseWeight(auto, h.ring.data == [], h.phase) < PhaseWeight(auto, r.data == [], ph) + 4 * |h.out|
  {
  }

  lemma HoldAhead(s: State, r: nat, h: Hold)
    requires WriterOk(s) && s.wpc.Holding? && r == s.wpc.ring && h.phase != Drained && h.phase != Unwound
    ensures InRange(AfterHold(s, r, h)) && Ahead(s) != [] && Ahead(s)[0] == Unwritten(s.heap[r], s.wpc.phase)
    ensures Ahead(AfterHold(s, r, h)) == Ahead(s)[0 := Unwritten(h.ring, h.phase)]
  {
    HoldParts(s, r, h);
  }

  lemma HoldLowersDebt(s: State, r: nat, h: Hold, target: nat)
    requires WriterOk(s) && s.wpc.Holding? && r == s.wpc.ring && |s.wire| < target
    requires Unwritten(s.heap[r], s.wpc.phase) == h.out + Unwritten(h.ring, h.phase)
    requires h.phase != Drained && h.phase != Unwound
    requires PhaseWeight(s.auto, h.ring.data == [], h.phase) < Weight(s) + 4 * |h.out|
    ensures InRange(AfterHold(s, r, h)) && Debt(AfterHold(s, r, h), target) < Debt(s, target)
  {
    HoldAhead(s, r, h);
    if |s.wire| + |h.out| < target {
      HopsTake(Ahead(s), target - |s.wire|, h.out, Unwritten(h.ring, h.phase));
    }
  }

  /** A drained ring is left behind. */
  lemma DrainAhead(s: State, r: nat, h: Hold)
    requires WriterOk(s) && s.wpc == Holding(r, Look(true)) && s.heap[r].data == [] == h.ring.data && h.phase == Drained
    ensures InRange(AfterHold(s, r, h)) && Ahead(s) != [] && Ahead(s)[0] == []
    ensures Ahead(AfterHold(s, r, h)) == Ahead(s)[1..]
  {
    HoldParts(s, r, h);
  }

  lemma DrainLowersDebt(s: State, r: nat, h: Hold, target: nat)
    requires WriterOk(s) && s.wpc == Holding(r, Look(true)) && |s.wire| < target
    requires s.heap[r].data == [] == h.ring.data && h.out == [] && h.phase == Drained
    ensures InRange(AfterHold(s, r, h)) && Debt(AfterHold(s, r, h), target) < Debt(s, target)
  {
    DrainAhead(s, r, h);
    var need := target - |s.wire|;
    assert Hops(Ahead(s), need) == 1 + Hops(Ahead(s)[1..], need);
  }

  /** Nothing is left to write when the writer sees the channel closed. */
  lemma NothingAheadAtTheEnd(s: State)
    requires WriterOk(s) && Conserved(s) && s.queue == []
    requires s.wpc == Recv || s.wpc == Shutdown || s.wpc == DoneOk
    ensures s.wire == s.accepted
  {
    FlatEmpty(Parts(s));
  }

  lemma WriterLowersDebt(s: State, a: WriterStep, target: nat)
    requires Inv(s) && WriterEnabled(s, a) && Running(s.wpc) && a != Fail
    requires target <= |s.accepted| && |s.wire| < target
    ensures Running(WriterApply(s, a).wpc) && InRange(WriterApply(s, a))
    ensures Debt(WriterApply(s, a), target) < Debt(s, target)
  {
    var t := WriterApply(s, a);
    if s.wpc.Holding? {
      var r, ph := s.wpc.ring, s.wpc.phase;
      var h := HoldApply(s.auto, s.heap[r], ph, a);
      HoldHasFacts(s.auto, s.heap[r], ph, a);
      HoldLowersWeight(s.auto, s.heap[r], ph, a);
      HoldStaysRunning(s.auto, s.heap[r], ph, a);
      if h.phase == Drained {
        DrainLowersDebt(s, r, h, target);
      } else {
        HoldLowersDebt(s, r, h, target);
      }
    } else {
      ReceiveLowersDebt(s, a, target);
    }
  }

  lemma ReceiveLowersDebt(s: State, a: WriterStep, target: nat)
    requires WriterOk(s) && Conserved(s) && WriterEnabled(s, a) && Running(s.wpc) && !s.wpc.Holding? && a != Fail
    requires target <= |s.accepted| && |s.wire| < target
    ensures a == ReceiveRing && InRange(WriterApply(s, a)) && Debt(WriterApply(s, a), target) < Debt(s, target)
  {
    if s.wpc == Recv && a == ReceiveRing {
      var t := WriterApply(s, a);
      assert Parts(t) == Parts(s);
      assert FirstUnfinished(t) == FirstUnfinished(s);
    } else {
      NothingAheadAtTheEnd(s);
    }
  }

  // ---------------------------------------------------------------- sender steps do not raise it

  lemma AheadCoversTarget(s: State)
    requires WriterOk(s) && Conserved(s) && Running(s.wpc)
    ensures |s.accepted| == |s.wire| + |Flat(Ahead(s))|
  {
    var first := FirstUnfinished(s);
    FlatSplit(Parts(s), first);
    FlatEmpty(Parts(s)[..first]);
  }

  /** The sender adds to the last of the parts ahead. */
  lemma CallAhead(s: State, c: Call)
    requires SenderOk(s) && WriterOk(s) && Running(s.wpc) && CallFacts(s.heap[s.sring], s.spc, c)
    ensures Ahead(s) != [] && Ahead(s)[|Ahead(s)| - 1] == Rest(s, s.sring)
    ensures Ahead(AfterCall(s, c)) == Ahead(s)[|Ahead(s)| - 1 := Rest(s, s.sring) + c.taken]
  {
    assert s.heap[s.sring].prodAlive;
    CallParts(s, c);
  }

  /** A ring that holds bytes still to be written holds some after the call. */
  lemma CallKeepsWeight(s: State, c: Call)
    requires SenderOk(s) && WriterOk(s) && Running(s.wpc) && CallFacts(s.heap[s.sring], s.spc, c)
    requires Flat(Ahead(s)) != []
    ensures InRange(AfterCall(s, c)) && Weight(AfterCall(s, c)) == Weight(s)
  {
    CallAhead(s, c);
    if s.wpc.Holding? && s.wpc.ring == s.sring {
      assert Ahead(s) == [Rest(s, s.sring)];
      FlatSingle(Rest(s, s.sring));
    }
  }

  lemma CallKeepsDebt(s: State, c: Call, target: nat)
    requires SenderOk(s) && WriterOk(s) && Conserved(s) && Running(s.wpc) && target <= |s.accepted|
    requires CallFacts(s.heap[s.sring], s.spc, c)
    ensures InRange(AfterCall(s, c)) && Debt(AfterCall(s, c), target) == Debt(s, target)
  {
    if |s.wire| < target {
      AheadCoversTarget(s);
      CallKeepsWeight(s, c);
      CallAhead(s, c);
      HopsExtend(Ahead(s), Ahead(AfterCall(s, c)), target - |s.wire|);
    }
  }

  lemma ChainStepKeepsDebt(s: State, a: SenderStep, target: nat)
    requires WriterOk(s) && Conserved(s) && Running(s.wpc) && target <= |s.accepted|
    requires SenderEnabled(s, a) && !CallEnabled(s.spc, a)
    ensures InRange(SenderApply(s, a)) && Debt(SenderApply(s, a), target) == Debt(s, target)
  {
    if a.SendRing? {
      SendRingKeepsDebt(s, a.rest, target);
    } else {
      QuietAhead(s, a);
    }
  }

  /** Swapping and dropping change no bytes. */
  lemma QuietAhead(s: State, a: SenderStep)
    requires SenderEnabled(s, a) && (a == SendRingFails || a == SwapRing || a == DropChannel)
    ensures var t := SenderApply(s, a);
            InRange(t) && t.wire == s.wire && Ahead(t) == Ahead(s) && Weight(t) == Weight(s)
  {
    assert Parts(SenderApply(s, a)) == Parts(s);
  }

  lemma SendRingAhead(s: State, rest: seq<byte>)
    requires WriterOk(s) && Running(s.wpc) && SenderEnabled(s, SendRing(rest))
    ensures Ahead(SenderApply(s, SendRing(rest))) == Ahead(s) + [OverflowRing(rest).data]
  {
    var t := SenderApply(s, SendRing(rest));
    assert t.heap == s.heap + [OverflowRing(rest)] && FirstUnfinished(t) == FirstUnfinished(s);
    assert Parts(t) == Parts(s) + [OverflowRing(rest).data];
    SkipThenAppend(Parts(s), FirstUnfinished(s), OverflowRing(rest).data);
  }

  lemma SkipThenAppend(p: seq<seq<byte>>, k: nat, x: seq<byte>)
    requires k <= |p|
    ensures (p + [x])[k..] == p[k..] + [x]
  {
  }

  lemma SendRingKeepsWeight(s: State, rest: seq<byte>)
    requires WriterOk(s) && SenderEnabled(s, SendRing(rest))
    ensures var t := SenderApply(s, SendRing(rest)); InRange(t) && Weight(t) == Weight(s) && t.wire == s.wire
  {
  }

  lemma SendRingKeepsDebt(s: State, rest: seq<byte>, target: nat)
    requires WriterOk(s) && Conserved(s) && Running(s.wpc) && target <= |s.accepted|
    requires SenderEnabled(s, SendRing(rest))
    ensures var t := SenderApply(s, SendRing(rest)); InRange(t) && Debt(t, target) == Debt(s, target)
  {
    SendRingKeepsWeight(s, rest);
    if |s.wire| < target {
      SendRingAhead(s, rest);
      AheadCoversTarget(s);
      HopsExtend(Ahead(s), Ahead(s) + [OverflowRing(rest).data], target - |s.wire|);
    }
  }

  lemma SenderKeepsDebt(s: State, a: SenderStep, target: nat)
    requires Inv(s) && SenderEnabled(s, a) && Running(s.wpc) && target <= |s.accepted|
    ensures InRange(SenderApply(s, a)) && Debt(SenderApply(s, a), target) == Debt(s, target)
    ensures SenderApply(s, a).wpc == s.wpc && SenderApply(s, a).wire == s.wire
    ensures s.accepted <= SenderApply(s, a).accepted
  {
    if CallEnabled(s.spc, a) {
      CallHasFacts(s.heap[s.sring], s.spc, a);
      CallKeepsDebt(s, CallApply(s.heap[s.sring], s.spc, a), target);
    } else {
      ChainStepKeepsDebt(s, a, target);
    }
  }

  // ---------------------------------------------------------------- bounded progress

  function WriterMoves(steps: seq<Step>): nat {
    if steps == [] then 0
    else WriterMoves(steps[..|steps| - 1]) + (if steps[|steps| - 1].Wrt? then 1 else 0)
  }

  predicate NoFailure(steps: seq<Step>) {
    forall i :: 0 <= i < |steps| ==> steps[i] != Wrt(Fail)
  }

  lemma WriterOnlyAppends(s: State, a: WriterStep)
    requires WriterEnabled(s, a)
    ensures s.wire <= WriterApply(s, a).wire && WriterApply(s, a).accepted == s.accepted
  {
    if s.wpc.Holding? {
      var h := HoldApply(s.auto, s.heap[s.wpc.ring], s.wpc.phase, a);
      assert WriterApply(s, a) == AfterHold(s, s.wpc.ring, h);
    }
  }

  lemma WriterStaysRunning(s: State, a: WriterStep)
    requires Inv(s) && WriterEnabled(s, a) && Running(s.wpc) && a != Fail
    ensures Running(WriterApply(s, a).wpc)
  {
    if s.wpc.Holding? {
      HoldStaysRunning(s.auto, s.heap[s.wpc.ring], s.wpc.phase, a);
    }
  }

  lemma HoldStaysRunning(auto: bool, r: Ring, ph: Phase, a: WriterStep)
    requires HoldEnabled(auto, r, ph, a) && a != Fail && a != Unwind
    ensures var q := HoldApply(auto, r, ph, a).phase; q != DropRing && q != DropRingWake && q != Unwound
  {
  }

  /** One step of either side. */
  lemma StepLowersDebt(s: State, step: Step, target: nat)
    requires Inv(s) && Running(s.wpc) && target <= |s.accepted| && Enabled(s, step) && step != Wrt(Fail)
    ensures var t := Apply(s, step); Inv(t) && Running(t.wpc) && s.accepted <= t.accepted && s.wire <= t.wire
    ensures var t := Apply(s, step);
            |t.wire| >= target || Debt(t, target) + (if step.Wrt? then 1 else 0) <= Debt(s, target)
  {
    StepKeepsInv(s, step);
    match step
    case Snd(a) => SenderKeepsDebt(s, a, target);
    case Wrt(a) =>
      WriterStaysRunning(s, a);
      WriterOnlyAppends(s, a);
      if |s.wire| < target {
        WriterLowersDebt(s, a, target);
      }
  }

  lemma {:induction false} DebtGoesDown(s: State, steps: seq<Step>, t: State, target: nat)
    requires Inv(s) && Running(s.wpc) && target <= |s.accepted|
    requires Exec(s, steps) == Some(t) && NoFailure(steps)
    ensures Inv(t) && Running(t.wpc) && s.accepted <= t.accepted
    ensures |t.wire| >= target || WriterMoves(steps) + Debt(t, target) <= Debt(s, target)
    decreases |steps|
  {
    if steps != [] {
      var last := |steps| - 1;
      var m := Exec(s, steps[..last]).value;
      DebtGoesDown(s, steps[..last], m, target);
      StepLowersDebt(m, steps[last], target);
    }
  }

  lemma WrittenPrefix(s: State, t: State, target: nat)
    requires Conserved(t) && s.accepted <= t.accepted && target <= |s.accepted| && target <= |t.wire|
    ensures s.accepted[..target] <= t.wire
  {
    assert t.wire == t.accepted[..|t.wire|];
  }

  /** Whatever the sender does meanwhile, once the writer has made Debt(s, target) steps the first
      `target` accepted bytes are on the wire. */
  lemma {:induction false} BoundedProgress(
    auto: bool, before: seq<Step>, s: State, steps: seq<Step>, t: State, target: nat)
    requires Reaches(auto, before, s) && Running(s.wpc) && target <= |s.accepted|
    requires Exec(s, steps) == Some(t) && NoFailure(steps)
    ensures InRange(s) && Running(t.wpc)
    ensures WriterMoves(steps) >= Debt(s, target) ==> s.accepted[..target] <= t.wire
  {
    ReachableInv(auto, before, s);
    DebtGoesDown(s, steps, t, target);
    if WriterMoves(steps) >= Debt(s, target) {
      WrittenPrefix(s, t, target);
    }
  }

  /** Four steps a byte, sixteen a ring and a constant; bytes of the held ring need only the first and ten more. */
  lemma DebtBound(s: State, target: nat)
    requires WriterOk(s) && Running(s.wpc) && |s.wire| <= target
    ensures Debt(s, target) <= 4 * (target - |s.wire|) + 16 * |Chain(s)| + 12
    ensures s.wpc.Holding? && target <= |s.wire| + |HeldBytes(s)| ==> Debt(s, target) <= 4 * (target - |s.wire|) + 10
  {
    HopsBound(Ahead(s), target - |s.wire|);
    WeightBound(s);
    assert |Ahead(s)| == |Chain(s)| && (s.wpc.Holding? ==> Ahead(s)[0] == HeldBytes(s));
  }

  lemma WeightBound(s: State)
    requires InRange(s)
    ensures Weight(s) <= if s.wpc.Holding? then 10 else 12
  {
  }

  // ---------------------------------------------------------------- at most two selects

  /** How often the select can still resolve before the held ring is flushed. */
  function Sel(ph: Phase): nat {
    match ph
    case Select(tick) => if tick then 1 else 2
    case Check(tick) => if tick then 0 else 1
    case Occupancy(tick) => if tick then 0 else 1
    case _ => 0
  }

  predicate Resolves(step: Step) {
    step == Wrt(OccupiedResolves) || step == Wrt(TickFires)
  }

  /** How often the select resolves in a run. */
  function Selects(steps: seq<Step>): nat {
    if steps == [] then 0
    else Selects(steps[..|steps| - 1]) + (if Resolves(steps[|steps| - 1]) then 1 else 0)
  }

  /** As long as the ring has something unwritten, each resolved select is paid for. */
  lemma HoldLowersSel(auto: bool, r: Ring, ph: Phase, a: WriterStep)
    requires PhaseOk(auto, r, ph) && HoldEnabled(auto, r, ph, a) && a != Fail && a != Unwind
    requires Unwritten(r, ph) != []
    ensures var h := HoldApply(auto, r, ph, a);
            h.phase != Drained && h.phase != Unwound && (if Resolves(Wrt(a)) then 1 else 0) + Sel(h.phase) <= Sel(ph)
  {
  }

  /** The writer holds ring r and its first bytes up to `target` are still to be written. */
  predicate Awaited(s: State, r: nat, target: nat) {
    && s.wpc.Holding? && s.wpc.ring == r < |s.heap| && Running(s.wpc)
    && target <= |s.wire| + |Rest(s, r)|
  }

  lemma WriterKeepsAwaited(s: State, a: WriterStep, r: nat, target: nat)
    requires Inv(s) && Awaited(s, r, target) && |s.wire| < target && WriterEnabled(s, a) && a != Fail
    ensures var t := WriterApply(s, a);
            Awaited(t, r, target) && (if Resolves(Wrt(a)) then 1 else 0) + Sel(t.wpc.phase) <= Sel(s.wpc.phase)
  {
    HoldHasFacts(s.auto, s.heap[r], s.wpc.phase, a);
    HoldLowersSel(s.auto, s.heap[r], s.wpc.phase, a);
    WriterStaysRunning(s, a);
  }

  lemma SenderKeepsAwaited(s: State, a: SenderStep, r: nat, target: nat)
    requires Inv(s) && Awaited(s, r, target) && SenderEnabled(s, a)
    ensures var t := SenderApply(s, a); Awaited(t, r, target) && t.wpc == s.wpc && t.wire == s.wire
  {
    SenderKeepsDebt(s, a, 0);
    if CallEnabled(s.spc, a) {
      CallHasFacts(s.heap[s.sring], s.spc, a);
    }
  }

  /** The target is written, or the select can resolve at most `left` times before the flush. */
  predicate SelBound(s: State, r: nat, target: nat, left: int) {
    |s.wire| >= target || (Awaited(s, r, target) && Sel(s.wpc.phase) <= left)
  }

  lemma {:induction false} SelectsGoDown(s: State, r: nat, steps: seq<Step>, t: State, target: nat)
    requires Inv(s) && Awaited(s, r, target) && Exec(s, steps) == Some(t) && NoFailure(steps)
    ensures Inv(t) && SelBound(t, r, target, Sel(s.wpc.phase) - Selects(steps))
    decreases |steps|
  {
    if steps != [] {
      var last := |steps| - 1;
      var m := Exec(s, steps[..last]).value;
      SelectsGoDown(s, r, steps[..last], m, target);
      StepLowersSel(m, steps[last], r, target, Sel(s.wpc.phase) - Selects(steps[..last]));
    }
  }

  lemma StepLowersSel(s: State, step: Step, r: nat, target: nat, left: int)
    requires Inv(s) && Enabled(s, step) && step != Wrt(Fail) && SelBound(s, r, target, left)
    ensures Inv(Apply(s, step))
    ensures SelBound(Apply(s, step), r, target, left - (if Resolves(step) then 1 else 0))
  {
    StepKeepsInv(s, step);
    match step
    case Snd(a) =>
      if |s.wire| < target {
        SenderKeepsAwaited(s, a, r, target);
      } else {
        SenderKeepsWire(s, a);
      }
    case Wrt(a) =>
      WriterOnlyAppends(s, a);
      if |s.wire| < target {
        WriterKeepsAwaited(s, a, r, target);
      }
  }

  lemma SenderKeepsWire(s: State, a: SenderStep)
    requires SenderEnabled(s, a)
    ensures SenderApply(s, a).wire == s.wire
  {
  }

  /** Whatever is in the held ring at a select is on the wire before the select resolves a third time, and at
      a select with the tick armed before it resolves a second time.  Until then the writer stays with the
      ring, and each resolution uses up one of those that the phase allows. */
  lemma {:induction false} TwoSelects(auto: bool, before: seq<Step>, s: State, steps: seq<Step>, t: State)
    requires Reaches(auto, before, s) && s.wpc.Holding? && Running(s.wpc)
    requires Exec(s, steps) == Some(t) && NoFailure(steps)
    ensures InRange(s)
    ensures || s.wire + HeldBytes(s) <= t.wire
            || (t.wpc.Holding? && t.wpc.ring == s.wpc.ring && Selects(steps) + Sel(t.wpc.phase) <= Sel(s.wpc.phase))
    ensures Selects(steps) > 2 || (Selects(steps) > 1 && s.wpc.phase == Select(true)) ==>
              s.wire + HeldBytes(s) <= t.wire
  {
    ReachableInv(auto, before, s);
    var target := |s.wire + HeldBytes(s)|;
    SelectsGoDown(s, s.wpc.ring, steps, t, target);
    InFlight(s);
    DebtGoesDown(s, steps, t, target);
    if |t.wire| >= target {
      WrittenPrefix(s, t, target);
      Regroup(s.wire, HeldBytes(s), QueuedBytes(s.heap, s.queue));
      assert s.accepted[..target] == s.wire + HeldBytes(s);
    }
  }

  // ---------------------------------------------------------------- when the writer is blocked

  /** Only the writer acts, and it does not fail. */
  predicate WriterOnly(steps: seq<Step>) {
    forall i :: 0 <= i < |steps| ==> steps[i].Wrt? && steps[i] != Wrt(Fail)
  }

  /** No writer step but a failure is possible. */
  ghost predicate Blocked(s: State) {
    forall a :: WriterEnabled(s, a) ==> a == Fail
  }

  /** The writer waits for a ring, or at a select for more bytes with no tick to come. */
  predicate Waiting(s: State)
    requires InRange(s)
  {
    match s.wpc
    case Recv => s.queue == [] && s.spc != Gone
    case Holding(r, ph) =>
      && ph.Select? && s.heap[r].prodAlive && |s.heap[r].data| < Threshold(ph.tick) && (s.auto ==> !ph.tick)
    case DoneOk => true
    case _ => false
  }

  /** A running writer is blocked there and nowhere else. */
  lemma BlockedShape(s: State)
    requires Inv(s) && Running(s.wpc)
    ensures Blocked(s) <==> Waiting(s)
  {
    if Blocked(s) {
      if s.wpc.Holding? {
        var r, ph := s.heap[s.wpc.ring], s.wpc.phase;
        assert !WriterEnabled(s, OccupiedResolves) && !WriterEnabled(s, TickFires) && !WriterEnabled(s, TestClosed);
        assert !WriterEnabled(s, CompareOccupancy) && !WriterEnabled(s, TakeSlices(|r.data|));
        assert !WriterEnabled(s, WriteSome(1)) && !WriterEnabled(s, AdvanceRead) && !WriterEnabled(s, Wake);
      } else {
        assert !WriterEnabled(s, ReceiveRing) && !WriterEnabled(s, ReceiveNone) && !WriterEnabled(s, ShutdownOk);
      }
    }
  }

  /** The writer is between two flushes of an open ring that has not reached the threshold. */
  predicate HoldsShort(s: State) {
    && s.wpc.Holding? && s.wpc.ring < |s.heap|
    && (s.wpc.phase.Select? || s.wpc.phase.Check? || s.wpc.phase.Occupancy?)
    && s.heap[s.wpc.ring].prodAlive && |s.heap[s.wpc.ring].data| < MIN_MSG_BUFFER_SIZE
  }

  lemma ShortStepWaits(s: State, a: WriterStep)
    requires Inv(s) && HoldsShort(s) && WriterEnabled(s, a) && a != Fail && a != TickFires
    ensures var t := WriterApply(s, a);
            HoldsShort(t) && t.wpc.ring == s.wpc.ring && t.wire == s.wire && t.heap == s.heap
  {
    var r := s.wpc.ring;
    assert PhaseOk(s.auto, s.heap[r], s.wpc.phase);
    assert HoldApply(s.auto, s.heap[r], s.wpc.phase, a).ring == s.heap[r];
  }

  /** As long as no tick fires and the sender adds nothing, a short open ring is left alone. */
  lemma {:induction false} ShortRingWaits(s: State, steps: seq<Step>, t: State)
    requires Inv(s) && HoldsShort(s) && Exec(s, steps) == Some(t)
    requires WriterOnly(steps) && Wrt(TickFires) !in steps
    ensures Inv(t) && HoldsShort(t) && t.wpc.ring == s.wpc.ring && t.wire == s.wire && t.heap == s.heap
    decreases |steps|
  {
    if steps != [] {
      var last := |steps| - 1;
      var m := Exec(s, steps[..last]).value;
      ShortRingWaits(s, steps[..last], m);
      WriterKeepsInv(m, steps[last].wrt);
      ShortStepWaits(m, steps[last].wrt);
    }
  }

  /** A blocked writer has nothing to write when it flushes automatically.  Without automatic flushing it
      may leave fewer than MIN_MSG_BUFFER_SIZE bytes, all of them in the ring the sender is filling.  While
      the sender is between sending a new ring and dropping the old one the successor may hold more, and
      the drop unblocks the writer. */
  lemma NoStuckBytes(auto: bool, steps: seq<Step>, t: State)
    requires Reaches(auto, steps, t) && Running(t.wpc) && Blocked(t)
    ensures t.sring < |t.heap|
    ensures auto && t.spc != Swap ==> t.wire == t.accepted
    ensures t.wire != t.accepted && t.spc != Swap ==>
              t.accepted == t.wire + t.heap[t.sring].data && |t.heap[t.sring].data| < MIN_MSG_BUFFER_SIZE
    ensures t.spc == Swap ==> SenderEnabled(t, SwapRing) && !Blocked(SenderApply(t, SwapRing))
  {
    ReachableInv(auto, steps, t);
    BlockedShape(t);
    if t.spc == Swap {
      SwapUnblocks(t);
    } else if t.wpc.Holding? {
      InFlight(t);
      assert t.wpc.ring == t.sring;
    } else {
      NothingAheadAtTheEnd(t);
    }
  }

  lemma SwapUnblocks(s: State)
    requires SenderOk(s) && WriterOk(s) && Running(s.wpc) && s.spc == Swap
    requires s.wpc.Holding? ==> s.wpc.phase.Select? && s.heap[s.wpc.ring].prodAlive
    requires s.wpc == Recv ==> s.queue == []
    ensures SenderEnabled(s, SwapRing) && !Blocked(SenderApply(s, SwapRing))
  {
    var t := SenderApply(s, SwapRing);
    assert s.heap[s.sring].prodAlive;
    assert s.wpc.Holding? && s.wpc.ring == s.sring;
    assert WriterEnabled(t, OccupiedResolves);
  }

  /** Without automatic flushing, a short message does stay behind until the sender flushes, fills the
      ring further or goes away. */
  lemma ShortMessageStays(msg: seq<byte>, t: State)
    requires 0 < |msg| < MIN_MSG_BUFFER_SIZE
    requires t == SenderApply(WriterApply(Init(false), ReceiveRing), PushSlice(msg))
    ensures Reaches(false, [Wrt(ReceiveRing), Snd(PushSlice(msg))], t)
    ensures Blocked(t) && t.wire == [] && t.accepted == msg
  {
    var steps := [Wrt(ReceiveRing), Snd(PushSlice(msg))];
    var m := WriterApply(Init(false), ReceiveRing);
    assert steps[..1] == [Wrt(ReceiveRing)] && steps[..1][..0] == [];
    assert Exec(Init(false), steps[..1][..0]) == Some(Init(false));
    assert Exec(Init(false), steps[..1]) == Some(m);
    assert t.heap[0].data == [] + msg && t.wpc == Holding(0, Select(true));
  }

  // ---------------------------------------------------------------- a parked sender is woken

  /** While a parked sender has not been woken there is something for the writer to do. */
  lemma ParkedIsNotBlocked(s: State)
    requires Inv(s) && Running(s.wpc) && s.parked && !s.notified
    ensures !Blocked(s)
  {
    assert s.heap[s.sring].prodAlive && |s.heap[s.sring].data| <= s.heap[s.sring].cap;
    if Blocked(s) {
      BlockedShape(s);
    }
  }

  lemma WakeIsNext(s: State, a: WriterStep)
    requires Inv(s) && Running(s.wpc) && WriterEnabled(s, a) && a != Fail
    requires s.notified || (WakeInFlight(s) && s.heap[s.sring].waker)
    ensures WriterApply(s, a).notified
  {
  }

  /** Everything is written, so the last slice of the full ring is about to be given back. */
  lemma AdvanceIsNext(s: State, a: WriterStep)
    requires Inv(s) && Running(s.wpc) && s.parked && !s.notified && s.wire == s.accepted
    requires WriterEnabled(s, a) && a != Fail
    ensures WriterApply(s, a).notified || WakeInFlight(WriterApply(s, a))
  {
    if WakeInFlight(s) {
      WakeIsNext(s, a);
    } else {
      AllWritten(s, s.sring);
      assert s.heap[s.sring].data != [];
    }
  }

  lemma AllWritten(s: State, i: nat)
    requires Conserved(s) && s.wire == s.accepted && i < |s.heap|
    ensures Rest(s, i) == []
  {
    var p := Parts(s);
    assert |s.accepted| == |s.wire| + |Flat(p)|;
    FlatSplit(p, i);
    FlatSplit(p[i..], 1);
    assert p[i..][..1] == [p[i]];
    FlatSingle(p[i]);
  }

  lemma WriterKeepsParked(s: State, a: WriterStep)
    requires WriterEnabled(s, a)
    ensures WriterApply(s, a).parked == s.parked && (s.notified ==> WriterApply(s, a).notified)
  {
  }

  lemma {:induction false} ParkedRun(s: State, steps: seq<Step>, t: State)
    requires Inv(s) && Running(s.wpc) && s.parked && Exec(s, steps) == Some(t) && WriterOnly(steps)
    ensures Inv(t) && Running(t.wpc) && t.parked && t.accepted == s.accepted && WriterMoves(steps) == |steps|
    decreases |steps|
  {
    RunKeepsInv(s, steps);
    if steps != [] {
      var last := |steps| - 1;
      var m := Exec(s, steps[..last]).value;
      ParkedRun(s, steps[..last], m);
      WriterStaysRunning(m, steps[last].wrt);
      WriterOnlyAppends(m, steps[last].wrt);
      WriterKeepsParked(m, steps[last].wrt);
    }
  }

  lemma {:induction false} WokenInTwo(s: State, a: WriterStep, b: WriterStep)
    requires Inv(s) && Running(s.wpc) && s.parked && s.wire == s.accepted && a != Fail && b != Fail
    requires WriterEnabled(s, a) && WriterEnabled(WriterApply(s, a), b)
    ensures WriterApply(WriterApply(s, a), b).notified
  {
    var m := WriterApply(s, a);
    WriterKeepsInv(s, a);
    WriterStaysRunning(s, a);
    WriterKeepsParked(s, a);
    if !s.notified {
      AdvanceIsNext(s, a);
    }
    WakeIsNext(m, b);
  }

  /** A sender that got Pending and makes no further call has something to wait for, and it is woken at the
      latest two writer steps after all it sent is written. */
  lemma {:induction false} ParkedIsWoken(auto: bool, before: seq<Step>, s: State, steps: seq<Step>, t: State)
    requires Reaches(auto, before, s) && Running(s.wpc) && s.parked
    requires Exec(s, steps) == Some(t) && WriterOnly(steps)
    ensures InRange(s)
    ensures !t.notified ==> !Blocked(t)
    ensures |steps| >= Debt(s, |s.accepted|) + 2 ==> t.notified
  {
    ReachableInv(auto, before, s);
    ParkedRun(s, steps, t);
    if !t.notified {
      ParkedIsNotBlocked(t);
    }
    if |steps| >= Debt(s, |s.accepted|) + 2 {
      var m := LastTwo(s, steps, t);
      ParkedRun(s, steps[..|steps| - 2], m);
      AllIsWritten(s, steps[..|steps| - 2], m);
      WokenInTwo(m, steps[|steps| - 2].wrt, steps[|steps| - 1].wrt);
    }
  }

  lemma LastTwo(s: State, steps: seq<Step>, t: State) returns (m: State)
    requires Exec(s, steps) == Some(t) && |steps| >= 2
    ensures Exec(s, steps[..|steps| - 2]) == Some(m)
    ensures Enabled(m, steps[|steps| - 2]) && Enabled(Apply(m, steps[|steps| - 2]), steps[|steps| - 1])
    ensures t == Apply(Apply(m, steps[|steps| - 2]), steps[|steps| - 1])
  {
    var k := |steps| - 2;
    assert steps[..k + 1][..k] == steps[..k];
    m := Exec(s, steps[..k]).value;
  }

  lemma AllIsWritten(s: State, steps: seq<Step>, t: State)
    requires Inv(s) && Running(s.wpc) && Exec(s, steps) == Some(t) && NoFailure(steps)
    requires WriterMoves(steps) >= Debt(s, |s.accepted|) && t.accepted == s.accepted
    ensures t.wire == t.accepted
  {
    DebtGoesDown(s, steps, t, |s.accepted|);
    WrittenPrefix(s, t, |s.accepted|);
  }

  // ---------------------------------------------------------------- after the sender has gone

  /** A bound on the writer steps up to the clean end, once the sender is gone. */
  function Todo(s: State): nat
    requires InRange(s)
  {
    4 * Max(0, |s.accepted| - |s.wire|) + 16 * |Chain(s)| + (if s.wpc == Shutdown then 1 else Weight(s))
  }

  lemma HoldLowersTodo(s: State, r: nat, h: Hold)
    requires InRange(s) && s.wpc.Holding? && r == s.wpc.ring && |s.wire| + |h.out| <= |s.accepted|
    requires h.phase != Unwound
    requires if h.phase == Drained then s.wpc.phase == Look(true) && h.out == []
             else PhaseWeight(s.auto, h.ring.data == [], h.phase) < Weight(s) + 4 * |h.out|
    ensures InRange(AfterHold(s, r, h)) && Todo(AfterHold(s, r, h)) < Todo(s)
  {
  }

  lemma ChannelLowersTodo(s: State, a: WriterStep)
    requires WriterOk(s) && Running(s.wpc) && !s.wpc.Holding? && WriterEnabled(s, a) && a != Fail
    ensures InRange(WriterApply(s, a)) && Todo(WriterApply(s, a)) < Todo(s)
  {
  }

  lemma HoldWritesAccepted(s: State, r: nat, a: WriterStep)
    requires Inv(s) && s.wpc.Holding? && s.wpc.ring == r && WriterEnabled(s, a)
    ensures |s.wire| + |HoldApply(s.auto, s.heap[r], s.wpc.phase, a).out| <= |s.accepted|
  {
    WriterKeepsInv(s, a);
  }

  lemma WriterLowersTodo(s: State, a: WriterStep)
    requires Inv(s) && Running(s.wpc) && WriterEnabled(s, a) && a != Fail
    ensures InRange(WriterApply(s, a)) && Running(WriterApply(s, a).wpc) && Todo(WriterApply(s, a)) < Todo(s)
  {
    WriterStaysRunning(s, a);
    if s.wpc.Holding? {
      var r, ph := s.wpc.ring, s.wpc.phase;
      HoldLowersWeight(s.auto, s.heap[r], ph, a);
      HoldStaysRunning(s.auto, s.heap[r], ph, a);
      HoldWritesAccepted(s, r, a);
      HoldLowersTodo(s, r, HoldApply(s.auto, s.heap[r], ph, a));
    } else {
      ChannelLowersTodo(s, a);
    }
  }

  lemma GoneIsQuiet(s: State, a: SenderStep)
    requires s.spc == Gone
    ensures !SenderEnabled(s, a)
  {
  }

  lemma {:induction false} TodoGoesDown(s: State, steps: seq<Step>, t: State)
    requires Inv(s) && Running(s.wpc) && s.spc == Gone && Exec(s, steps) == Some(t) && NoFailure(steps)
    ensures Inv(t) && Running(t.wpc) && t.spc == Gone && |steps| + Todo(t) <= Todo(s)
    decreases |steps|
  {
    RunKeepsInv(s, steps);
    if steps != [] {
      var last := |steps| - 1;
      var m := Exec(s, steps[..last]).value;
      TodoGoesDown(s, steps[..last], m);
      match steps[last]
      case Snd(a) => GoneIsQuiet(m, a);
      case Wrt(a) =>
        WriterLowersTodo(m, a);
        assert t.spc == m.spc;
    }
  }

  /** Dropping the sender is enough: whatever is still queued, at most Todo(s) steps remain, the writer is
      never blocked before its end, and it ends cleanly with everything on the wire. */
  lemma {:induction false} DropFinishes(auto: bool, before: seq<Step>, s: State, steps: seq<Step>, t: State)
    requires Reaches(auto, before, s) && Running(s.wpc) && s.spc == Gone
    requires Exec(s, steps) == Some(t) && NoFailure(steps)
    ensures InRange(s) && |steps| <= Todo(s)
    ensures Blocked(t) <==> t.wpc == DoneOk
    ensures t.wpc == DoneOk ==> t.wire == t.accepted
  {
    ReachableInv(auto, before, s);
    TodoGoesDown(s, steps, t);
    if Blocked(t) {
      BlockedShape(t);
    }
    if t.wpc == DoneOk {
      NothingAheadAtTheEnd(t);
    }
  }
}

/**
 `Conn::start_connection` and `Conn::close`, called by any number of threads at once.
 Each call is split at its compare-exchange, its `take().unwrap()` and what follows.
 */
module ConnFence {
  import opened Base

  /** Where the sending half of the configuration channel is. */
  datatype Setter =
    | InConn       // Conn.inner is Some
    | Taken        // in the hands of a start_connection
    | Sent         // it has delivered the configuration
    | Dropped      // dropped without delivering

  datatype CallPc =
    | StartCas | StartTake | StartSend | StartOk | StartErr
    | CloseCas | CloseTake | CloseRemove(won: bool) | CloseDone(won: bool)

  datatype Fence = Fence(
    consumed: bool,
    setter: Setter,
    rxOpen: bool,              // the handler still holds the receiving half
    calls: seq<CallPc>,        // one entry per call ever made
    handed: bool,              // the Conn object exists
    panicked: bool)            // some unwrap was called on None

  function Init(): Fence {
    Fence(false, InConn, true, [], true, false)
  }

  datatype Step =
    | BeginStart
    | BeginClose
    | Cas(t: nat)              // compare_exchange(false, true)
    | Take(t: nat)             // inner.take().unwrap()
    | SendConfig(t: nat)       // conn_config_setter.send(..)
    | RemoveEntry(t: nat)      // connections.remove(..), whose effect is on the registry
    | DropObject               // the Conn is dropped
    | DropReceiver             // the handler drops conn_config

  predicate Over(pc: CallPc) {
    pc == StartOk || pc == StartErr || pc.CloseDone?
  }

  predicate Enabled(f: Fence, step: Step) {
    match step
    case BeginStart => f.handed
    case BeginClose => f.handed
    case Cas(t) => t < |f.calls| && (f.calls[t] == StartCas || f.calls[t] == CloseCas)
    case Take(t) => t < |f.calls| && (f.calls[t] == StartTake || f.calls[t] == CloseTake)
    case SendConfig(t) => t < |f.calls| && f.calls[t] == StartSend
    case RemoveEntry(t) => t < |f.calls| && f.calls[t].CloseRemove?
    case DropObject => f.handed && forall i :: 0 <= i < |f.calls| ==> Over(f.calls[i])
    case DropReceiver => f.rxOpen
  }

  function Apply(f: Fence, step: Step): Fence
    requires Enabled(f, step)
  {
    match step
    case BeginStart => f.(calls := f.calls + [StartCas])
    case BeginClose => f.(calls := f.calls + [CloseCas])
    case Cas(t) =>
      if f.calls[t] == StartCas then
        if f.consumed then f.(calls := f.calls[t := StartErr])
        else f.(consumed := true, calls := f.calls[t := StartTake])
      else
        if f.consumed then f.(calls := f.calls[t := CloseRemove(false)])
        else f.(consumed := true, calls := f.calls[t := CloseTake])
    case Take(t) =>
      if f.setter != InConn then f.(panicked := true)
      else if f.calls[t] == StartTake then f.(setter := Taken, calls := f.calls[t := StartSend])
      else f.(setter := Dropped, calls := f.calls[t := CloseRemove(true)])
    case SendConfig(t) =>
      if f.rxOpen then f.(setter := Sent, calls := f.calls[t := StartOk])
      else f.(setter := Dropped, calls := f.calls[t := StartErr])
    case RemoveEntry(t) => f.(calls := f.calls[t := CloseDone(f.calls[t].won)])
    case DropObject => f.(handed := false, setter := if f.setter == InConn then Dropped else f.setter)
    case DropReceiver => f.(rxOpen := false)
  }

  function Exec(f: Fence, steps: seq<Step>): Option<Fence> {
    if steps == [] then Some(f)
    else
      var last := |steps| - 1;
      match Exec(f, steps[..last])
      case None => None
      case Some(m) => if Enabled(m, steps[last]) then Some(Apply(m, steps[last])) else None
  }

  // ---------------------------------------------------------------- the invariant

  /** The call has won the compare-exchange and not given its prize away. */
  predicate Owns(pc: CallPc) {
    pc == StartTake || pc == StartSend || pc == StartOk || pc == CloseTake
  }

  /** Where the setter is while a given call owns it. */
  function OwnedAt(pc: CallPc): Setter
    requires Owns(pc)
  {
    match pc
    case StartSend => Taken
    case StartOk => Sent
    case _ => InConn
  }

  predicate Won(pc: CallPc) {
    (pc.CloseRemove? || pc.CloseDone?) && pc.won
  }

  predicate Inv(f: Fence) {
    && !f.panicked
    && (forall i :: 0 <= i < |f.calls| && Owns(f.calls[i]) ==> f.consumed && f.setter == OwnedAt(f.calls[i]))
    && (forall i, j :: 0 <= i < j < |f.calls| ==> !(Owns(f.calls[i]) && Owns(f.calls[j])))
    && (forall i :: 0 <= i < |f.calls| && Won(f.calls[i]) ==> f.consumed && f.setter == Dropped)
    && (!f.consumed ==> f.setter == if f.handed then InConn else Dropped)
    && (!f.handed ==> f.setter == Sent || f.setter == Dropped)
    && (!f.handed ==> forall i :: 0 <= i < |f.calls| ==> Over(f.calls[i]))
    && (f.setter == Sent ==> StartOk in f.calls)
    && (f.setter == Taken ==> StartSend in f.calls)
    && (f.setter == InConn && f.consumed ==> StartTake in f.calls || CloseTake in f.calls)
  }

  lemma StillIn(calls: seq<CallPc>, t: nat, pc: CallPc, x: CallPc)
    requires x in calls && t < |calls| && calls[t] != x
    ensures x in calls[t := pc]
  {
    var i :| 0 <= i < |calls| && calls[i] == x;
    assert calls[t := pc][i] == x;
  }

  /** A call that owns nothing moves on to a point where it owns nothing either. */
  lemma MoveKeepsInv(f: Fence, t: nat, pc: CallPc)
    requires Inv(f) && t < |f.calls| && !Owns(f.calls[t]) && !Owns(pc)
    requires (Won(pc) ==> Won(f.calls[t])) && (Over(f.calls[t]) ==> Over(pc))
    ensures Inv(f.(calls := f.calls[t := pc]))
  {
    if f.setter == Sent {
      StillIn(f.calls, t, pc, StartOk);
    }
    if f.setter == Taken {
      StillIn(f.calls, t, pc, StartSend);
    }
    if f.setter == InConn && f.consumed {
      StillIn(f.calls, t, pc, if StartTake in f.calls then StartTake else CloseTake);
    }
  }

  /** The winner of the compare-exchange becomes the owner. */
  lemma WinKeepsInv(f: Fence, t: nat, pc: CallPc)
    requires Inv(f) && t < |f.calls| && !f.consumed && !Over(f.calls[t])
    requires pc == StartTake || pc == CloseTake
    ensures Inv(f.(consumed := true, calls := f.calls[t := pc]))
  {
    assert f.calls[t := pc][t] == pc;
  }

  /** The owner moves the setter on. */
  lemma OwnerKeepsInv(f: Fence, t: nat, setter: Setter, pc: CallPc)
    requires Inv(f) && t < |f.calls| && Owns(f.calls[t]) && f.calls[t] != StartOk
    requires if Owns(pc) then setter == OwnedAt(pc) && pc != StartTake && pc != CloseTake else setter == Dropped
    ensures Inv(f.(setter := setter, calls := f.calls[t := pc]))
  {
    assert f.calls[t := pc][t] == pc;
  }

  lemma AppendKeepsInv(f: Fence, pc: CallPc)
    requires Inv(f) && f.handed && (pc == StartCas || pc == CloseCas)
    ensures Inv(f.(calls := f.calls + [pc]))
  {
  }

  lemma StepKeepsInv(f: Fence, step: Step)
    requires Inv(f) && Enabled(f, step)
    ensures Inv(Apply(f, step))
  {
    match step
    case BeginStart => AppendKeepsInv(f, StartCas);
    case BeginClose => AppendKeepsInv(f, CloseCas);
    case Cas(t) =>
      var start := f.calls[t] == StartCas;
      if f.consumed {
        MoveKeepsInv(f, t, if start then StartErr else CloseRemove(false));
      } else {
        WinKeepsInv(f, t, if start then StartTake else CloseTake);
      }
    case Take(t) =>
      if f.calls[t] == StartTake {
        OwnerKeepsInv(f, t, Taken, StartSend);
      } else {
        OwnerKeepsInv(f, t, Dropped, CloseRemove(true));
      }
    case SendConfig(t) =>
      if f.rxOpen {
        OwnerKeepsInv(f, t, Sent, StartOk);
      } else {
        OwnerKeepsInv(f, t, Dropped, StartErr);
      }
    case RemoveEntry(t) => MoveKeepsInv(f, t, CloseDone(f.calls[t].won));
    case DropObject =>
    case DropReceiver =>
  }

  lemma {:induction false} RunKeepsInv(f: Fence, steps: seq<Step>)
    requires Inv(f)
    ensures Exec(f, steps).Some? ==> Inv(Exec(f, steps).value)
  {
    if steps != [] && Exec(f, steps).Some? {
      var last := |steps| - 1;
      RunKeepsInv(f, steps[..last]);
      StepKeepsInv(Exec(f, steps[..last]).value, steps[last]);
    }
  }

  // ---------------------------------------------------------------- every run

  /** No unwrap fails, at most one start succeeds, a start succeeds exactly when the configuration was
      delivered, and then no close took it away. */
  lemma StartCloseRace(steps: seq<Step>, f: Fence)
    requires Exec(Init(), steps) == Some(f)
    ensures !f.panicked
    ensures forall i, j :: 0 <= i < j < |f.calls| ==> !(f.calls[i] == StartOk && f.calls[j] == StartOk)
    ensures f.setter == Sent <==> StartOk in f.calls
    ensures (exists i :: 0 <= i < |f.calls| && Won(f.calls[i])) ==> f.setter == Dropped && StartOk !in f.calls
  {
    RunKeepsInv(Init(), steps);
  }

  /** Once the setter has been sent or dropped it stays so: a close that won keeps the connection from
      ever starting, and a start that succeeded is not undone. */
  lemma {:induction false} SetterIsFinal(f: Fence, steps: seq<Step>, g: Fence)
    requires Inv(f) && Exec(f, steps) == Some(g) && (f.setter == Sent || f.setter == Dropped)
    ensures g.setter == f.setter
    decreases |steps|
  {
    if steps != [] {
      var last := |steps| - 1;
      var m := Exec(f, steps[..last]).value;
      SetterIsFinal(f, steps[..last], m);
      RunKeepsInv(f, steps[..last]);
    }
  }

  /** Once the handler no longer waits for the configuration no start succeeds any more. */
  lemma {:induction false} NoStartAfterDrop(f: Fence, steps: seq<Step>, g: Fence)
    requires Inv(f) && Exec(f, steps) == Some(g) && !f.rxOpen && f.setter != Sent
    ensures !g.rxOpen && g.setter != Sent && StartOk !in g.calls
    decreases |steps|
  {
    RunKeepsInv(f, steps);
    if steps != [] {
      var last := |steps| - 1;
      var m := Exec(f, steps[..last]).value;
      NoStartAfterDrop(f, steps[..last], m);
      StepAfterDrop(m, steps[last]);
    }
  }

  lemma StepAfterDrop(f: Fence, step: Step)
    requires Enabled(f, step) && !f.rxOpen && f.setter != Sent
    ensures !Apply(f, step).rxOpen && Apply(f, step).setter != Sent
  {
  }

  /** The call has made its compare-exchange. */
  predicate PastCas(pc: CallPc) {
    pc != StartCas && pc != CloseCas
  }

  lemma StepKeepsPast(f: Fence, step: Step, i: nat)
    requires Enabled(f, step) && i < |f.calls| && PastCas(f.calls[i])
    ensures var g := Apply(f, step); i < |g.calls| && PastCas(g.calls[i])
  {
  }

  lemma ConsumedBy(f: Fence, step: Step)
    requires Enabled(f, step) && !f.consumed && Apply(f, step).consumed
    ensures step.Cas? && PastCas(Apply(f, step).calls[step.t])
  {
  }

  /** A connection is consumed by the compare-exchange of some call and by nothing else. */
  lemma {:induction false} Consumer(steps: seq<Step>, f: Fence) returns (i: nat)
    requires Exec(Init(), steps) == Some(f) && f.consumed
    ensures i < |f.calls| && PastCas(f.calls[i])
    decreases |steps|
  {
    var last := |steps| - 1;
    var m := Exec(Init(), steps[..last]).value;
    if m.consumed {
      i := Consumer(steps[..last], m);
      StepKeepsPast(m, steps[last], i);
    } else {
      ConsumedBy(m, steps[last]);
      i := steps[last].t;
    }
  }
}

/**
 `SocketManager::join`, `abort` and `drop`: any number of calls at once, each split at its
 command, its compare-exchange, its `take().unwrap()` and the return of the thread's join.
 */
module ManagerJoin {
  import opened Base

  /** The background thread; a clean end and a panic are told apart by `ok`. */
  datatype Thread = Alive | Ended(ok: bool)

  datatype CallPc =
    | AbortSend(wait: bool)    // about to send Command::Abort
    | JoinCas                  // about to compare and exchange has_joined
    | JoinTake                 // won, about to take join_handle
    | JoinWait                 // in JoinHandle::join
    | Joined(ok: bool)         // returned, with the result of the thread
    | Skipped                  // returned at once, another call has won
    | Sent                     // abort(false) returned

  datatype State = State(
    hasJoined: bool,
    handle: bool,              // join_handle is Some
    thread: Thread,
    abortSent: bool,
    calls: seq<CallPc>,        // one entry per call ever made
    handed: bool,              // not being dropped
    panicked: bool)            // some unwrap was called on None

  function Init(): State {
    State(false, true, Alive, false, [], true, false)
  }

  datatype Step =
    | BeginJoin
    | BeginAbort(wait: bool)
    | BeginDrop                // drop calls abort(true); nobody else can be using the object
    | SendAbort(t: nat)
    | Cas(t: nat)
    | Take(t: nat)
    | Return(t: nat)           // JoinHandle::join returns
    | ThreadEnds(ok: bool)     // main leaves its loop on Abort, or panics

  predicate Over(pc: CallPc) {
    pc.Joined? || pc == Skipped || pc == Sent
  }

  predicate AllOver(calls: seq<CallPc>) {
    forall i :: 0 <= i < |calls| ==> Over(calls[i])
  }

  predicate Enabled(m: State, step: Step) {
    match step
    case BeginJoin => m.handed
    case BeginAbort(_) => m.handed
    case BeginDrop => m.handed && AllOver(m.calls)
    case SendAbort(t) => t < |m.calls| && m.calls[t].AbortSend?
    case Cas(t) => t < |m.calls| && m.calls[t] == JoinCas
    case Take(t) => t < |m.calls| && m.calls[t] == JoinTake
    case Return(t) => t < |m.calls| && m.calls[t] == JoinWait && m.thread.Ended?
    case ThreadEnds(ok) => m.thread == Alive && (ok ==> m.abortSent)
  }

  function Move(m: State, t: nat, pc: CallPc): State
    requires t < |m.calls|
  {
    m.(calls := m.calls[t := pc])
  }

  function Apply(m: State, step: Step): State
    requires Enabled(m, step)
  {
    match step
    case BeginJoin => m.(calls := m.calls + [JoinCas])
    case BeginAbort(wait) => m.(calls := m.calls + [AbortSend(wait)])
    case BeginDrop => m.(calls := m.calls + [AbortSend(true)], handed := false)
    case SendAbort(t) => Move(m, t, if m.calls[t].wait then JoinCas else Sent).(abortSent := true)
    case Cas(t) => if m.hasJoined then Move(m, t, Skipped) else Move(m, t, JoinTake).(hasJoined := true)
    case Take(t) => if m.handle then Move(m, t, JoinWait).(handle := false) else m.(panicked := true)
    case Return(t) => Move(m, t, Joined(m.thread.ok))
    case ThreadEnds(ok) => m.(thread := Ended(ok))
  }

  function Exec(m: State, steps: seq<Step>): Option<State> {
    if steps == [] then Some(m)
    else
      var last := |steps| - 1;
      match Exec(m, steps[..last])
      case None => None
      case Some(k) => if Enabled(k, steps[last]) then Some(Apply(k, steps[last])) else None
  }

  // ---------------------------------------------------------------- the invariant

  /** The call has won the compare-exchange. */
  predicate Owns(pc: CallPc) {
    pc == JoinTake || pc == JoinWait || pc.Joined?
  }

  /** The call will have waited when it returns, or has seen that another call won. */
  predicate Waits(pc: CallPc) {
    pc != Sent && pc != AbortSend(false)
  }

  predicate CallOk(m: State, pc: CallPc) {
    && (Owns(pc) ==> m.hasJoined && (m.handle <==> pc == JoinTake))
    && (pc == Skipped ==> m.hasJoined)
    && (pc.Joined? ==> m.thread == Ended(pc.ok))
  }

  predicate Inv(m: State) {
    && !m.panicked
    && (forall i :: 0 <= i < |m.calls| ==> CallOk(m, m.calls[i]))
    && (forall i, j :: 0 <= i < j < |m.calls| ==> !(Owns(m.calls[i]) && Owns(m.calls[j])))
    && (m.hasJoined ==> exists i :: 0 <= i < |m.calls| && Owns(m.calls[i]))
    && (!m.hasJoined ==> m.handle)
    && (m.thread == Ended(true) ==> m.abortSent)
    && (m.handed || DropOk(m))
  }

  /** The drop was the last call and found all others over. */
  predicate DropOk(m: State) {
    && m.calls != [] && AllOver(m.calls[..|m.calls| - 1])
    && var drop := m.calls[|m.calls| - 1]; Waits(drop) && (drop.AbortSend? || m.abortSent)
  }

  lemma BeginKeepsInv(m: State, pc: CallPc)
    requires Inv(m) && m.handed && (pc == JoinCas || pc.AbortSend?)
    ensures Inv(m.(calls := m.calls + [pc]))
  {
    var n := m.(calls := m.calls + [pc]);
    if m.hasJoined {
      var i :| 0 <= i < |m.calls| && Owns(m.calls[i]);
      assert Owns(n.calls[i]);
    }
  }

  lemma BeginDropKeepsInv(m: State)
    requires Inv(m) && Enabled(m, BeginDrop)
    ensures Inv(Apply(m, BeginDrop))
  {
    var n := Apply(m, BeginDrop);
    var begun := n.(handed := true);
    BeginKeepsInv(m, AbortSend(true));
    assert begun == m.(calls := m.calls + [AbortSend(true)]);
    assert forall i :: 0 <= i < |n.calls| ==> CallOk(begun, n.calls[i]) && CallOk(n, n.calls[i]);
    assert n.calls[..|n.calls| - 1] == m.calls;
  }

  /** A call moves on and neither gains nor loses the handle. */
  lemma MoveKeepsInv(m: State, t: nat, pc: CallPc)
    requires Inv(m) && t < |m.calls| && !Over(m.calls[t]) && Owns(pc) == Owns(m.calls[t])
    requires CallOk(m, pc) && (Waits(m.calls[t]) ==> Waits(pc)) && (m.calls[t].AbortSend? ==> m.abortSent)
    ensures Inv(Move(m, t, pc))
  {
    var n := Move(m, t, pc);
    assert !m.handed ==> n.calls[..|n.calls| - 1] == m.calls[..|m.calls| - 1];
    if m.hasJoined {
      var i :| 0 <= i < |m.calls| && Owns(m.calls[i]);
      assert Owns(n.calls[i]);
    }
  }

  lemma WinKeepsInv(m: State, t: nat)
    requires Inv(m) && Enabled(m, Cas(t)) && !m.hasJoined
    ensures Inv(Apply(m, Cas(t)))
  {
    var n := Apply(m, Cas(t));
    assert !m.handed ==> n.calls[..|n.calls| - 1] == m.calls[..|m.calls| - 1];
    assert Owns(n.calls[t]);
  }

  lemma TakeKeepsInv(m: State, t: nat)
    requires Inv(m) && Enabled(m, Take(t))
    ensures Inv(Apply(m, Take(t)))
  {
    var n := Apply(m, Take(t));
    assert CallOk(m, m.calls[t]);
    assert !m.handed ==> n.calls[..|n.calls| - 1] == m.calls[..|m.calls| - 1];
    assert Owns(n.calls[t]);
  }

  lemma SendAbortKeepsInv(m: State, t: nat)
    requires Inv(m) && Enabled(m, SendAbort(t))
    ensures Inv(Apply(m, SendAbort(t)))
  {
    var sent := m.(abortSent := true);
    assert forall i :: 0 <= i < |m.calls| ==> CallOk(m, m.calls[i]) && CallOk(sent, m.calls[i]);
    assert Inv(sent);
    MoveKeepsInv(sent, t, if m.calls[t].wait then JoinCas else Sent);
  }

  lemma ReturnKeepsInv(m: State, t: nat)
    requires Inv(m) && Enabled(m, Return(t))
    ensures Inv(Apply(m, Return(t)))
  {
    assert CallOk(m, m.calls[t]);
    MoveKeepsInv(m, t, Joined(m.thread.ok));
  }

  lemma ThreadEndsKeepsInv(m: State, ok: bool)
    requires Inv(m) && Enabled(m, ThreadEnds(ok))
    ensures Inv(Apply(m, ThreadEnds(ok)))
  {
    assert forall i :: 0 <= i < |m.calls| ==> CallOk(m, m.calls[i]);
  }

  lemma StepKeepsInv(m: State, step: Step)
    requires Inv(m) && Enabled(m, step)
    ensures Inv(Apply(m, step))
  {
    match step
    case BeginJoin => BeginKeepsInv(m, JoinCas);
    case BeginAbort(wait) => BeginKeepsInv(m, AbortSend(wait));
    case BeginDrop => BeginDropKeepsInv(m);
    case SendAbort(t) => SendAbortKeepsInv(m, t);
    case Cas(t) =>
      if m.hasJoined {
        MoveKeepsInv(m, t, Skipped);
      } else {
        WinKeepsInv(m, t);
      }
    case Take(t) => TakeKeepsInv(m, t);
    case Return(t) => ReturnKeepsInv(m, t);
    case ThreadEnds(ok) => ThreadEndsKeepsInv(m, ok);
  }

  lemma {:induction false} RunKeepsInv(m: State, steps: seq<Step>)
    requires Inv(m)
    ensures Exec(m, steps).Some? ==> Inv(Exec(m, steps).value)
  {
    if steps != [] && Exec(m, steps).Some? {
      var last := |steps| - 1;
      RunKeepsInv(m, steps[..last]);
      StepKeepsInv(Exec(m, steps[..last]).value, steps[last]);
    }
  }

  // ---------------------------------------------------------------- every run

  /** No unwrap fails and at most one call ever gets to join the thread; that call returns the thread's
      own result, a clean one only after an abort. */
  lemma JoinRace(steps: seq<Step>, m: State)
    requires Exec(Init(), steps) == Some(m)
    ensures !m.panicked
    ensures forall i, j :: 0 <= i < |m.calls| && 0 <= j < |m.calls| && Owns(m.calls[i]) && Owns(m.calls[j]) ==> i == j
    ensures !m.handle <==> exists i :: 0 <= i < |m.calls| && (m.calls[i] == JoinWait || m.calls[i].Joined?)
    ensures forall i :: 0 <= i < |m.calls| && m.calls[i].Joined? ==>
              m.thread == Ended(m.calls[i].ok) && (m.calls[i].ok ==> m.abortSent)
  {
    RunKeepsInv(Init(), steps);
    if m.hasJoined {
      var i :| 0 <= i < |m.calls| && Owns(m.calls[i]);
      assert CallOk(m, m.calls[i]);
    }
  }

  lemma LastOneOver(m: State)
    requires DropOk(m) && Over(m.calls[|m.calls| - 1])
    ensures AllOver(m.calls)
  {
    forall i | 0 <= i < |m.calls|
      ensures Over(m.calls[i])
    {
      assert i < |m.calls| - 1 ==> m.calls[..|m.calls| - 1][i] == m.calls[i];
    }
  }

  /** When a drop has returned the thread has ended and some call has joined it, although the drop
      itself may have been told that the join is somebody else's. */
  lemma DropOutlivesThread(steps: seq<Step>, m: State)
    requires Exec(Init(), steps) == Some(m) && !m.handed && AllOver(m.calls)
    ensures m.thread.Ended? && !m.handle && m.abortSent
    ensures exists i :: 0 <= i < |m.calls| && m.calls[i] == Joined(m.thread.ok)
  {
    RunKeepsInv(Init(), steps);
  }

  /** A run from m in which call t has returned. */
  ghost predicate Returned(m: State, steps: seq<Step>, n: State, t: nat) {
    Exec(m, steps) == Some(n) && t < |n.calls| && Over(n.calls[t])
  }

  /** However the run goes on, call t returns only after the end of the thread. */
  ghost predicate WaitsForThread(m: State, t: nat) {
    forall steps, n :: Returned(m, steps, n, t) ==> n.thread.Ended?
  }

  lemma StepKeepsOwner(m: State, step: Step, t: nat)
    requires Inv(m) && Enabled(m, step) && t < |m.calls| && Owns(m.calls[t])
    ensures var n := Apply(m, step); t < |n.calls| && Owns(n.calls[t])
  {
    assert CallOk(m, m.calls[t]);
  }

  /** The winner of the compare-exchange stays the one that joins. */
  lemma {:induction false} OwnerStays(m: State, steps: seq<Step>, n: State, t: nat)
    requires Inv(m) && Exec(m, steps) == Some(n) && t < |m.calls| && Owns(m.calls[t])
    ensures Inv(n) && t < |n.calls| && Owns(n.calls[t])
    decreases |steps|
  {
    if steps != [] {
      var last := |steps| - 1;
      var k := Exec(m, steps[..last]).value;
      OwnerStays(m, steps[..last], k, t);
      StepKeepsInv(k, steps[last]);
      StepKeepsOwner(k, steps[last], t);
    }
  }

  lemma {:induction false} EndIsFinal(m: State, steps: seq<Step>, n: State)
    requires Exec(m, steps) == Some(n) && m.thread.Ended?
    ensures n.thread == m.thread
    decreases |steps|
  {
    if steps != [] {
      var last := |steps| - 1;
      var k := Exec(m, steps[..last]).value;
      EndIsFinal(m, steps[..last], k);
      StepKeepsEnd(k, steps[last]);
    }
  }

  lemma StepKeepsEnd(m: State, step: Step)
    requires Enabled(m, step) && m.thread.Ended?
    ensures Apply(m, step).thread == m.thread
  {
  }

  /** A join or a waiting abort waits for the thread, whatever happens next, if and only if its
      compare-exchange finds that nobody has joined yet or that the thread has ended already. */
  lemma {:induction false} WaitsIffFirst(steps: seq<Step>, m: State, t: nat)
    requires Exec(Init(), steps) == Some(m) && Enabled(m, Cas(t))
    ensures WaitsForThread(Apply(m, Cas(t)), t) <==> !m.hasJoined || m.thread.Ended?
  {
    RunKeepsInv(Init(), steps);
    var c := Apply(m, Cas(t));
    if !m.hasJoined || m.thread.Ended? {
      StepKeepsInv(m, Cas(t));
      forall more, n | Returned(c, more, n, t)
        ensures n.thread.Ended?
      {
        ReturnsLate(c, more, n, t);
      }
    } else {
      assert Returned(c, [], c, t);
    }
  }

  lemma ReturnsLate(m: State, steps: seq<Step>, n: State, t: nat)
    requires Inv(m) && t < |m.calls| && (Owns(m.calls[t]) || m.thread.Ended?) && Returned(m, steps, n, t)
    ensures n.thread.Ended?
  {
    if m.thread.Ended? {
      EndIsFinal(m, steps, n);
    } else {
      OwnerStays(m, steps, n, t);
      assert CallOk(n, n.calls[t]);
    }
  }

  lemma Extend(steps: seq<Step>, m: State, step: Step) returns (more: seq<Step>, n: State)
    requires Exec(Init(), steps) == Some(m) && Enabled(m, step)
    ensures Exec(Init(), more) == Some(n) && n == Apply(m, step) && more == steps + [step]
  {
    more, n := steps + [step], Apply(m, step);
    assert more[..|more| - 1] == steps;
  }

  lemma SomebodyJoins() returns (steps: seq<Step>, m: State)
    ensures Exec(Init(), steps) == Some(m) && m == State(true, false, Alive, false, [JoinWait], true, false)
  {
    steps, m := [], Init();
    steps, m := Extend(steps, m, BeginJoin);
    steps, m := Extend(steps, m, Cas(0));
    steps, m := Extend(steps, m, Take(0));
  }

  /** So abort(true) need not wait: here it is called while somebody else is joining, and it returns
      without an error although the thread is running. */
  lemma AbortReturnsEarly() returns (steps: seq<Step>, m: State, more: seq<Step>, n: State)
    ensures Exec(Init(), steps) == Some(m) && m.calls == [JoinWait, AbortSend(true)]
    ensures Exec(Init(), more) == Some(n) && more == steps + [SendAbort(1)] + [Cas(1)]
    ensures n.calls == [JoinWait, Skipped] && n.thread == Alive
  {
    steps, m := SomebodyJoins();
    steps, m := Extend(steps, m, BeginAbort(true));
    more, n := Extend(steps, m, SendAbort(1));
    more, n := Extend(more, n, Cas(1));
  }

  // ---------------------------------------------------------------- the calls as they are written

  datatype JoinResult = Ok | Err | StillWaiting

  class SocketManager {
    var st: State
    ghost var log: seq<Step>

    ghost predicate Valid()
      reads this
    {
      Exec(Init(), log) == Some(st)
    }

    constructor ()
      ensures Valid() && st == Init() && log == []
    {
      st, log := Init(), [];
    }

    method Do(step: Step)
      requires Valid() && Enabled(st, step)
      modifies this
      ensures Valid() && st == Apply(old(st), step) && log == old(log) + [step]
    {
      st := Apply(st, step);
      log := log + [step];
      assert log[..|log| - 1] == old(log);
    }

    /** Any number of actions of anyone else while call t is under way. */
    method OthersRun(t: nat)
      requires Valid() && t < |st.calls| && !Over(st.calls[t])
      modifies this
      ensures Valid() && old(log) <= log && t < |st.calls| && st.calls[t] == old(st.calls[t])
      ensures Later(old(st), st)
    {
      var n: nat := *;
      while n > 0
        invariant Valid() && old(log) <= log && t < |st.calls| && st.calls[t] == old(st.calls[t])
        invariant Later(old(st), st)
      {
        var step: Step := *;
        if Enabled(st, step) && !Acts(step, t) {
          Do(step);
        }
        n := n - 1;
      }
    }

    /** The body of join, for a call that is at its compare-exchange. */
    method JoinThread(t: nat) returns (r: JoinResult)
      requires Valid() && t < |st.calls| && st.calls[t] == JoinCas
      modifies this
      ensures Valid() && old(log) <= log && t < |st.calls| && st.hasJoined && !st.panicked
      ensures Later(old(st), st)
      ensures old(st.hasJoined) ==> st.calls[t] == Skipped
      ensures match st.calls[t]
              case Skipped => r == Ok
              case Joined(ok) => r == (if ok then Ok else Err) && st.thread == Ended(ok)
              case _ => r == StillWaiting && st.calls[t] == JoinWait
    {
      OthersRun(t);
      var won := !st.hasJoined;
      r := Ok;
      Do(Cas(t));
      if won {
        TakeHandle(t);
        OthersRun(t);
        if st.thread.Ended? {
          r := if st.thread.ok then Ok else Err;
          Do(Return(t));
        } else {
          r := StillWaiting;
        }
      }
      RunKeepsInv(Init(), log);
      assert CallOk(st, st.calls[t]);
    }

    /** join_handle.take().unwrap(): there is something to take. */
    method TakeHandle(t: nat)
      requires Valid() && t < |st.calls| && st.calls[t] == JoinTake
      modifies this
      ensures Valid() && old(log) <= log && t < |st.calls| && st.calls[t] == JoinWait
      ensures Later(old(st), st)
    {
      OthersRun(t);
      RunKeepsInv(Init(), log);
      assert CallOk(st, st.calls[t]);
      Do(Take(t));
    }

    /** Only the first call joins; an error means that the thread panicked. */
    method Join() returns (r: JoinResult)
      requires Valid() && st.handed
      modifies this
      ensures Valid() && old(log) <= log && st.hasJoined && !st.panicked
      ensures old(st.hasJoined) ==> r == Ok
      ensures r == Err ==> st.thread == Ended(false)
    {
      var t := |st.calls|;
      Do(BeginJoin);
      r := JoinThread(t);
    }

    /** The command is sent before the call joins, and a call that does not wait leaves has_joined alone. */
    method Abort(wait: bool) returns (r: JoinResult)
      requires Valid() && st.handed
      modifies this
      ensures Valid() && old(log) <= log && st.abortSent && !st.panicked
      ensures !wait || old(st.hasJoined) ==> r == Ok
      ensures |old(st.calls)| < |st.calls| && (!wait ==> st.calls[|old(st.calls)|] == Sent)
      ensures wait ==> st.hasJoined
      ensures r == Err ==> st.thread == Ended(false)
    {
      var t := |st.calls|;
      Do(BeginAbort(wait));
      r := SendAndWait(t);
    }

    /** Once drop has returned the thread is gone. */
    method Drop() returns (r: JoinResult)
      requires Valid() && st.handed && AllOver(st.calls)
      modifies this
      ensures Valid() && old(log) <= log && !st.handed && !st.panicked
      ensures r != StillWaiting ==> st.thread.Ended?
    {
      var t := |st.calls|;
      Do(BeginDrop);
      r := SendAndWait(t);
      RunKeepsInv(Init(), log);
      if r != StillWaiting {
        LastOneOver(st);
        DropOutlivesThread(log, st);
      }
    }

    method SendAndWait(t: nat) returns (r: JoinResult)
      requires Valid() && t < |st.calls| && st.calls[t].AbortSend?
      modifies this
      ensures Valid() && old(log) <= log && Later(old(st), st) && st.abortSent && !st.panicked && t < |st.calls|
      ensures !old(st.calls[t]).wait || old(st.hasJoined) ==> r == Ok
      ensures !old(st.calls[t]).wait ==> st.calls[t] == Sent
      ensures old(st.calls[t]).wait ==> st.hasJoined
      ensures old(st.calls[t]).wait && r != StillWaiting ==> st.calls[t] == Skipped || st.calls[t].Joined?
      ensures r == Err ==> st.thread == Ended(false)
    {
      r := Ok;
      OthersRun(t);
      var wait := st.calls[t].wait;
      Do(SendAbort(t));
      if wait {
        r := JoinThread(t);
      } else {
        RunKeepsInv(Init(), log);
      }
    }
  }

  /** What the other calls cannot undo; once the drop has begun there are none. */
  predicate Later(m: State, n: State) {
    && (m.hasJoined ==> n.hasJoined) && (m.abortSent ==> n.abortSent)
    && (!m.handed ==> !n.handed && |n.calls| == |m.calls|)
  }

  /** The step is one of call t. */
  predicate Acts(step: Step, t: nat) {
    match step
    case SendAbort(u) => u == t
    case Cas(u) => u == t
    case Take(u) => u == t
    case Return(u) => u == t
    case _ => false
  }
}

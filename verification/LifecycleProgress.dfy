/**
 Progress of a connection attempt: its own moves are few, and between them it waits for nothing
 but the user and its tasks.
 */
module LifecycleProgress {
  import opened Base
  import F = ConnFence
  import opened Lifecycle
  import opened LifecycleInvariant
  import opened LifecycleTheorems

  /** A bound on the moves that are left to the attempt itself. */
  function Rank(c: Conn): nat {
    match c.pc
    case Connecting => 9
    case Accepted => 8
    case InCallback => 7
    case AwaitStart => 6
    case Spawned => 5
    case Joining => if c.join.writerStopped || c.join.readerStopped then 3 else 4
    case Leaving => 2
    case Closing => 1
    case Closed => 0
    case ConnectFailed => 0
  }

  /** The step is a move of attempt i itself: of its connect task or of its handler. */
  predicate Own(step: Step, i: nat) {
    match step
    case ConnectOk(c, _) => c == i
    case ConnectErr(c) => c == i
    case Handler(c, _) => c == i
    case Insert(c) => c == i
    case Remove(c) => c == i
    case _ => false
  }

  function OwnMoves(steps: seq<Step>, i: nat): nat {
    if steps == [] then 0
    else OwnMoves(steps[..|steps| - 1], i) + (if Own(steps[|steps| - 1], i) then 1 else 0)
  }

  // ---------------------------------------------------------------- one step

  lemma HandlerLowersRank(c: Conn, a: HandlerStep)
    requires ConnOk(c) && HandlerEnabled(c, a)
    ensures Rank(HandlerApply(c, a)) < Rank(c)
  {
  }

  lemma OwnLowersRank(st: State, step: Step, i: nat)
    requires i < |st.conns| && ConnOk(st.conns[i]) && Enabled(st, step) && Own(step, i)
    ensures i < |Apply(st, step).conns| && Rank(Apply(st, step).conns[i]) < Rank(st.conns[i])
  {
    if step.Handler? {
      HandlerLowersRank(st.conns[i], step.a);
    } else if step.Insert? || step.Remove? {
      RegistryLowersRank(st, step, i);
    }
  }

  lemma RegistryLowersRank(st: State, step: Step, i: nat)
    requires i < |st.conns| && ConnOk(st.conns[i]) && Enabled(st, step) && (step == Insert(i) || step == Remove(i))
    ensures i < |Apply(st, step).conns| && Rank(Apply(st, step).conns[i]) < Rank(st.conns[i])
  {
    DropEntryKeepsStage(st, st.conns[i].addr, i);
  }

  /** Releasing stoppers moves no handler. */
  lemma DropEntryKeepsStage(st: State, at: nat, i: nat)
    requires i < |st.conns|
    ensures var d := DropEntry(st, at);
            |d.conns| == |st.conns| && d.conns[i].pc == st.conns[i].pc && d.conns[i].join == st.conns[i].join
  {
  }

  /** What somebody else does moves no handler. */
  lemma OthersKeepStage(st: State, step: Step, i: nat)
    requires i < |st.conns| && Enabled(st, step) && !Own(step, i)
    ensures var t := Apply(st, step);
            i < |t.conns| && t.conns[i].pc == st.conns[i].pc && t.conns[i].join == st.conns[i].join
  {
    if step.Insert? || step.Remove? {
      DropEntryKeepsStage(st, st.conns[step.c].addr, i);
    } else if step.Call? {
      CallKeepsStage(st, step.c, step.f, i);
    }
  }

  lemma CallKeepsStage(st: State, c: nat, f: F.Step, i: nat)
    requires i < |st.conns| && Enabled(st, Call(c, f))
    ensures var t := Apply(st, Call(c, f));
            i < |t.conns| && t.conns[i].pc == st.conns[i].pc && t.conns[i].join == st.conns[i].join
  {
    var called := Put(st, c, st.conns[c].(fence := F.Apply(st.conns[c].fence, f)));
    DropEntryKeepsStage(called, st.conns[c].addr, i);
  }

  lemma StepLowersRank(st: State, step: Step, i: nat)
    requires Inv(st) && i < |st.conns| && Enabled(st, step)
    ensures i < |Apply(st, step).conns|
    ensures Rank(Apply(st, step).conns[i]) + (if Own(step, i) then 1 else 0) <= Rank(st.conns[i])
  {
    if Own(step, i) {
      EveryConnOk(st, i);
      OwnLowersRank(st, step, i);
    } else {
      OthersKeepStage(st, step, i);
    }
  }

  // ---------------------------------------------------------------- every run

  lemma {:induction false} RankGoesDown(s: State, steps: seq<Step>, t: State, i: nat)
    requires Inv(s) && Exec(s, steps) == Some(t) && i < |s.conns|
    ensures Inv(t) && i < |t.conns| && OwnMoves(steps, i) + Rank(t.conns[i]) <= Rank(s.conns[i])
    decreases |steps|
  {
    if steps != [] {
      var last := |steps| - 1;
      var m := Exec(s, steps[..last]).value;
      RankGoesDown(s, steps[..last], m, i);
      StepKeepsInv(m, steps[last]);
      StepLowersRank(m, steps[last], i);
    }
  }

  /** The attempt has come to its documented end. */
  predicate AtEnd(c: Conn) {
    || c.events == [OnConnectError]
    || c.events == [OnConnect, OnConnectionClose]
    || c.events == [OnConnect, OnRemoteClose, OnConnectionClose]
  }

  /** Attempt i has a move of its own. */
  ghost predicate CanMove(t: State, i: nat) {
    exists step :: Enabled(t, step) && Own(step, i)
  }

  /** At its end the attempt has no move; before, it has one unless it waits for the user or for a task. */
  ghost predicate EndsOrMoves(t: State, i: nat) {
    && i < |t.conns|
    && (AtEnd(t.conns[i]) <==> Rank(t.conns[i]) == 0)
    && (if AtEnd(t.conns[i]) then !CanMove(t, i) else CanMove(t, i) || WaitsForOthers(t.conns[i]))
  }

  /** A connect command leads to OnConnectError, or to OnConnect and then OnConnectionClose: whatever all
      others do, the attempt makes at most nine moves of its own, of which none is possible after its end,
      and before its end one always is possible unless it waits for the user or for a task. */
  lemma {:induction false} AttemptReachesItsEnd(before: seq<Step>, s: State, steps: seq<Step>, t: State, i: nat)
    requires Reaches(before, s) && i < |s.conns| && Exec(s, steps) == Some(t)
    ensures i < |t.conns| && OwnMoves(steps, i) + Rank(t.conns[i]) <= Rank(s.conns[i]) <= 9
    ensures EndsOrMoves(t, i)
  {
    AttemptMoves(before, s, steps, t, i);
    AttemptEndsOrMoves(before, s, steps, t, i);
  }

  lemma AttemptMoves(before: seq<Step>, s: State, steps: seq<Step>, t: State, i: nat)
    requires Reaches(before, s) && i < |s.conns| && Exec(s, steps) == Some(t)
    ensures i < |t.conns| && OwnMoves(steps, i) + Rank(t.conns[i]) <= Rank(s.conns[i])
  {
    ReachableInv(before, s);
    RankGoesDown(s, steps, t, i);
  }

  lemma AttemptEndsOrMoves(before: seq<Step>, s: State, steps: seq<Step>, t: State, i: nat)
    requires Reaches(before, s) && Exec(s, steps) == Some(t) && i < |t.conns|
    ensures EndsOrMoves(t, i)
  {
    ReachableInv(before, s);
    RunKeepsInv(s, steps);
    InvEndsOrMoves(t, i);
  }

  lemma InvEndsOrMoves(t: State, i: nat)
    requires Inv(t) && i < |t.conns|
    ensures EndsOrMoves(t, i)
  {
    EveryConnOk(t, i);
    ConnEndsOrMoves(t, i);
  }

  lemma EveryConnOk(t: State, i: nat)
    requires Inv(t) && i < |t.conns|
    ensures ConnOk(t.conns[i])
  {
    assert Good(t.conns[i]);
  }

  lemma ConnEndsOrMoves(t: State, i: nat)
    requires i < |t.conns| && ConnOk(t.conns[i])
    ensures EndsOrMoves(t, i)
  {
    EndByRank(t.conns[i]);
    if CanMove(t, i) {
      var step :| Enabled(t, step) && Own(step, i);
      OwnLowersRank(t, step, i);
    } else if Rank(t.conns[i]) > 0 {
      NoMoveMeansWaiting(t, i);
    }
  }

  lemma EndByRank(c: Conn)
    requires ConnOk(c)
    ensures AtEnd(c) <==> Rank(c) == 0
  {
    assert HandlerOk(c);
  }

  lemma NoMoveMeansWaiting(t: State, i: nat)
    requires i < |t.conns| && ConnOk(t.conns[i]) && !CanMove(t, i) && Rank(t.conns[i]) > 0
    ensures WaitsForOthers(t.conns[i])
  {
    forall a
      ensures !HandlerEnabled(t.conns[i], a)
    {
      assert !(Enabled(t, Handler(i, a)) && Own(Handler(i, a), i));
    }
    assert !(Enabled(t, Insert(i)) && Own(Insert(i), i)) && !(Enabled(t, Remove(i)) && Own(Remove(i), i));
    assert !(Enabled(t, ConnectErr(i)) && Own(ConnectErr(i), i));
    ConnWaits(t.conns[i]);
  }
}

/**
 What holds of every connection in every interleaving.
 */
module LifecycleTheorems {
  import opened Base
  import F = ConnFence
  import J = JoinTasks
  import S = SendPath
  import R = Receive
  import SendProgress
  import opened Lifecycle
  import opened LifecycleInvariant

  ghost predicate Reaches(steps: seq<Step>, t: State) {
    Exec(Init(), steps) == Some(t)
  }

  lemma ReachableInv(steps: seq<Step>, t: State)
    requires Reaches(steps, t)
    ensures Inv(t)
  {
    RunKeepsInv(Init(), steps);
  }

  lemma ReachableGood(steps: seq<Step>, t: State, i: nat)
    requires Reaches(steps, t) && i < |t.conns|
    ensures MapOk(t) && Good(t.conns[i])
  {
    RunKeepsInv(Init(), steps);
    assert Every(t.conns, Good);
  }

  lemma ReachableConnOk(steps: seq<Step>, t: State, i: nat)
    requires Reaches(steps, t) && i < |t.conns|
    ensures ConnOk(t.conns[i]) && F.Inv(t.conns[i].fence)
  {
    ReachableGood(steps, t, i);
  }

  // ---------------------------------------------------------------- events

  /** The step that emits an event of connection i, other than OnRemoteClose. */
  function Emitter(i: nat, e: Event): Step {
    match e
    case OnConnectError => ConnectErr(i)
    case OnConnect => Handler(i, InvokeOnConnect)
    case _ => Handler(i, FinishClose)
  }

  lemma StepEmits(t: State, step: Step, i: nat, e: Event)
    requires Enabled(t, step) && i < |t.conns| && e != OnRemoteClose
    ensures i < |Apply(t, step).conns|
    ensures e in Apply(t, step).conns[i].events <==> e in t.conns[i].events || step == Emitter(i, e)
  {
    if step.Handler? && step.c == i {
      HandlerEmits(t.conns[i], step.a, e);
    } else if !step.ConnectErr? && !step.ConnectOk? && !step.NewConnect? && !step.NewAccept? {
      OthersEmitNothing(t, step, i);
    }
  }

  lemma HandlerEmits(c: Conn, a: HandlerStep, e: Event)
    requires HandlerEnabled(c, a) && e != OnRemoteClose
    ensures e in HandlerApply(c, a).events <==>
            e in c.events || (a == InvokeOnConnect && e == OnConnect) || (a == FinishClose && e == OnConnectionClose)
  {
  }

  lemma OthersEmitNothing(t: State, step: Step, i: nat)
    requires Enabled(t, step) && i < |t.conns| && !(step.Handler? && step.c == i)
    requires !step.ConnectErr? && !step.ConnectOk? && !step.NewConnect? && !step.NewAccept?
    ensures i < |Apply(t, step).conns| && Apply(t, step).conns[i].events == t.conns[i].events
  {
  }

  /** A new connection has no events, and its handler does not exist yet or has done nothing. */
  lemma NewHasNoEvents(t: State, step: Step, i: nat)
    requires Enabled(t, step) && |t.conns| <= i < |Apply(t, step).conns|
    ensures Apply(t, step).conns[i].events == [] && (step.NewConnect? || step.NewAccept?)
  {
  }

  /** Events are emitted by the steps they stand for and by no other: OnConnectError by a failed connect,
      OnConnect by the callback, OnConnectionClose by the end of the handler. */
  lemma {:induction false} EventsHaveSteps(steps: seq<Step>, t: State, i: nat, e: Event)
    requires Reaches(steps, t) && e != OnRemoteClose
    ensures (i < |t.conns| && e in t.conns[i].events) <==> Emitter(i, e) in steps
    decreases |steps|
  {
    if steps != [] {
      var last := |steps| - 1;
      var m := Exec(Init(), steps[..last]).value;
      EventsHaveSteps(steps[..last], m, i, e);
      assert steps == steps[..last] + [steps[last]];
      if i < |m.conns| {
        StepEmits(m, steps[last], i, e);
      } else if i < |t.conns| {
        NewHasNoEvents(m, steps[last], i);
      }
    }
  }

  /** A connect that succeeds goes on to OnConnect under the addresses of its stream. */
  lemma ConnectedGoesOn(t: State, i: nat, at: nat)
    requires Enabled(t, ConnectOk(i, at))
    ensures var u := Apply(t, ConnectOk(i, at));
            && u.conns[i].addr == at && u.conns[i].events == t.conns[i].events
            && Enabled(u, Handler(i, InvokeOnConnect)) && !Enabled(u, ConnectErr(i))
  {
  }

  lemma EventsOf(c: Conn)
    requires HandlerOk(c)
    ensures c.events <= [OnConnectError] || c.events <= [OnConnect, OnConnectionClose]
            || c.events <= [OnConnect, OnRemoteClose, OnConnectionClose]
    ensures c.pc == Closed ==>
              c.events == [OnConnect, OnConnectionClose] || c.events == [OnConnect, OnRemoteClose, OnConnectionClose]
    ensures OnConnectionClose in c.events <==> c.pc == Closed
    ensures OnConnectError in c.events <==> c.pc == ConnectFailed
  {
  }

  /** The events of one attempt are a prefix of the documented sequences; the close event comes last, once,
      and exactly when the handler has run to its end. */
  lemma EventLanguage(steps: seq<Step>, t: State, i: nat)
    requires Reaches(steps, t) && i < |t.conns|
    ensures var e := t.conns[i].events;
            || e <= [OnConnectError]
            || e <= [OnConnect, OnConnectionClose]
            || e <= [OnConnect, OnRemoteClose, OnConnectionClose]
    ensures t.conns[i].pc == Closed ==>
              || t.conns[i].events == [OnConnect, OnConnectionClose]
              || t.conns[i].events == [OnConnect, OnRemoteClose, OnConnectionClose]
    ensures OnConnectionClose in t.conns[i].events <==> t.conns[i].pc == Closed
    ensures OnConnectError in t.conns[i].events <==> t.conns[i].pc == ConnectFailed
  {
    ReachableConnOk(steps, t, i);
    EventsOf(t.conns[i]);
  }

  /** What keeps a handler waiting: the user has not started, closed or dropped the connection, or a task
      has not ended. */
  predicate WaitsForOthers(c: Conn) {
    || (c.pc == AwaitStart && (c.fence.setter == F.InConn || c.fence.setter == F.Taken))
    || (c.pc == Joining && c.stopper == Registered && (!WriterEnded(c) || !ReaderEnded(c)))
  }

  lemma ConnWaits(c: Conn)
    requires ConnOk(c) && Live(c.pc) && c.pc != Spawned && c.pc != Leaving
    requires forall a :: !HandlerEnabled(c, a)
    ensures WaitsForOthers(c)
  {
    assert !HandlerEnabled(c, InvokeOnConnect) && !HandlerEnabled(c, CallbackReturns(true));
    assert !HandlerEnabled(c, GetConfig) && !HandlerEnabled(c, ConfigGone) && !HandlerEnabled(c, FinishClose);
    assert !HandlerEnabled(c, TakeBranch(J.StopClosed)) && !HandlerEnabled(c, TakeBranch(J.WriterDone));
    assert !HandlerEnabled(c, TakeBranch(J.ReaderDone));
  }

  /** No move of the handler task itself is possible. */
  ghost predicate Stuck(t: State, i: nat) {
    !Enabled(t, Insert(i)) && !Enabled(t, Remove(i)) && forall a :: !Enabled(t, Handler(i, a))
  }

  /** A handler is held up by nothing but the user and its tasks: with no call under way, it waits for a
      start only while the Conn exists unused. */
  lemma HandlerWaitsOnlyForOthers(steps: seq<Step>, t: State, i: nat)
    requires Reaches(steps, t) && i < |t.conns| && Live(t.conns[i].pc) && Stuck(t, i)
    ensures WaitsForOthers(t.conns[i])
    ensures var f := t.conns[i].fence;
            t.conns[i].pc == AwaitStart && (forall k :: 0 <= k < |f.calls| ==> F.Over(f.calls[k])) ==>
              f.handed && !f.consumed
  {
    ReachableConnOk(steps, t, i);
    forall a
      ensures !HandlerEnabled(t.conns[i], a)
    {
      assert !Enabled(t, Handler(i, a));
    }
    ConnWaits(t.conns[i]);
    assert F.Inv(t.conns[i].fence);
  }

  // ---------------------------------------------------------------- delivery

  /** When OnRemoteClose has been emitted, on_msg has accepted exactly what was received before the end of
      the stream, and it is never called again. */
  lemma DeliveryBarrier(steps: seq<Step>, t: State, i: nat)
    requires Reaches(steps, t) && i < |t.conns| && OnRemoteClose in t.conns[i].events
    ensures t.conns[i].rcv.ended && t.conns[i].rcv.delivered == t.conns[i].rcv.received
    ensures forall r :: !R.Enabled(t.conns[i].rcv, r)
  {
    ReachableGood(steps, t, i);
    var c := t.conns[i];
    assert HandlerOk(c) && JoinOk(c) && R.Inv(c.rcv);
    assert c.rcv.pc == R.DoneOk;
    EndedTasksRest(c);
  }

  /** A started connection leaves the select only with each task ended or asked to abort.  If it asked
      neither, both ended cleanly: everything accepted is on the wire and everything received is delivered. */
  lemma JoinLeavesNothingBehind(steps: seq<Step>, t: State, i: nat)
    requires Reaches(steps, t) && i < |t.conns| && t.conns[i].join.over
    ensures var c := t.conns[i];
            && (c.join.writerAborted || WriterEnded(c))
            && (c.join.readerAborted || ReaderEnded(c))
            && (!c.join.writerAborted && !c.join.readerAborted ==>
                  && c.snd.wire == c.snd.accepted && c.snd.spc == S.Gone
                  && c.rcv.delivered == c.rcv.received && c.rcv.ended)
  {
    ReachableGood(steps, t, i);
    var c := t.conns[i];
    assert JoinOk(c) && TasksOk(c);
    if !c.join.writerAborted && !c.join.readerAborted {
      SendProgress.NothingAheadAtTheEnd(c.snd);
    }
  }

  // ---------------------------------------------------------------- how the tasks' ends are told apart

  /** The reader has ended: cleanly, and then OnRemoteClose is emitted and the writer keeps running, so that
      the select is over only if the writer had ended before; or not, and then the writer is aborted. */
  lemma OnReaderEnd(steps: seq<Step>, t: State, i: nat)
    requires Reaches(steps, t) && Enabled(t, Handler(i, TakeBranch(J.ReaderDone)))
    ensures var c, d := t.conns[i], Apply(t, Handler(i, TakeBranch(J.ReaderDone))).conns[i];
            if c.rcv.pc == R.DoneOk
            then d.events == c.events + [OnRemoteClose] && !d.join.writerAborted && !d.join.readerAborted
                 && d.pc == (if c.join.writerStopped then Leaving else Joining)
            else d.events == c.events && d.join.writerAborted && !d.join.readerAborted && d.pc == Leaving
  {
    ReachableConnOk(steps, t, i);
  }

  /** The same for the writer, whose end is no event. */
  lemma OnWriterEnd(steps: seq<Step>, t: State, i: nat)
    requires Reaches(steps, t) && Enabled(t, Handler(i, TakeBranch(J.WriterDone)))
    ensures var c, d := t.conns[i], Apply(t, Handler(i, TakeBranch(J.WriterDone))).conns[i];
            && d.events == c.events && !d.join.writerAborted
            && (if c.snd.wpc == S.DoneOk
                then !d.join.readerAborted && d.pc == (if c.join.readerStopped then Leaving else Joining)
                else d.join.readerAborted && d.pc == Leaving)
  {
    ReachableConnOk(steps, t, i);
  }

  /** A task is asked to abort only because of the stop signal, which then goes to both, or because the other
      task failed; and no longer taking steps is what makes a task's branch ready. */
  lemma AbortHasCause(steps: seq<Step>, t: State, i: nat)
    requires Reaches(steps, t) && i < |t.conns|
    ensures var c := t.conns[i];
            && (c.join.writerAborted ==>
                  (c.join.readerAborted && c.stopper == Released) || c.rcv.pc == R.DoneErr || c.rcv.pc == R.Panicked)
            && (c.join.readerAborted ==> (c.join.writerAborted && c.stopper == Released) || c.snd.wpc == S.Failed)
            && (c.pc == Joining && !c.join.writerStopped ==>
                  (BranchReady(c, J.WriterDone) <==> forall a :: !S.WriterEnabled(c.snd, a)))
            && (c.pc == Joining && !c.join.readerStopped ==>
                  (BranchReady(c, J.ReaderDone) <==> forall r :: !R.Enabled(c.rcv, r)))
  {
    ReachableGood(steps, t, i);
    EndedTasksRest(t.conns[i]);
  }

  // ---------------------------------------------------------------- start and close

  /** Reader and writer are spawned only if exactly one start succeeded and no close came first. */
  lemma SpawnedMeansStarted(steps: seq<Step>, t: State, i: nat)
    requires Reaches(steps, t) && i < |t.conns|
    ensures !t.conns[i].fence.panicked
    ensures t.conns[i].spawned ==> F.StartOk in t.conns[i].fence.calls
    ensures forall k :: 0 <= k < |t.conns[i].fence.calls| && F.Won(t.conns[i].fence.calls[k]) ==>
              !t.conns[i].spawned && F.StartOk !in t.conns[i].fence.calls
    ensures forall k, m :: 0 <= k < m < |t.conns[i].fence.calls| ==>
              !(t.conns[i].fence.calls[k] == F.StartOk && t.conns[i].fence.calls[m] == F.StartOk)
  {
    ReachableConnOk(steps, t, i);
  }

  // ---------------------------------------------------------------- the registry

  /** An entry belongs to a handler between its insert and its removal; in that interval a missing entry
      means that the stop branch is ready. */
  lemma RegistryAgreement(steps: seq<Step>, t: State)
    requires Reaches(steps, t)
    ensures forall at :: at in t.registry ==>
              && t.registry[at] < |t.conns| && t.conns[t.registry[at]].addr == at
              && (t.conns[t.registry[at]].pc == Joining || t.conns[t.registry[at]].pc == Leaving)
    ensures forall i :: 0 <= i < |t.conns| && t.conns[i].pc == Joining ==>
              if BranchReady(t.conns[i], J.StopClosed)
              then t.conns[i].addr !in t.registry
              else t.conns[i].addr in t.registry && t.registry[t.conns[i].addr] == i
  {
    RunKeepsInv(Init(), steps);
    forall i | 0 <= i < |t.conns|
      ensures StageOk(t.conns[i]) && HandlerOk(t.conns[i])
    {
      assert Good(t.conns[i]);
    }
    forall i | 0 <= i < |t.conns| && t.conns[i].pc == Joining && t.conns[i].stopper == Released
      ensures t.conns[i].addr !in t.registry
    {
      NoOtherEntry(t, i);
    }
  }

  /** A live handler never finds another connection's entry under its address. */
  lemma NoOtherEntry(t: State, i: nat)
    requires Inv(t) && i < |t.conns| && Live(t.conns[i].pc)
    ensures t.conns[i].addr in t.registry ==> t.registry[t.conns[i].addr] == i
  {
    if t.conns[i].addr in t.registry {
      var d := t.registry[t.conns[i].addr];
      assert Good(t.conns[d]);
      assert AddrsDistinct(t);
    }
  }

  /** The step removes the entry of connection i: stop_all, the handler's own removal, or the last action
      of a close under the same address pair. */
  predicate RemovesEntry(t: State, step: Step, i: nat)
    requires i < |t.conns|
  {
    || step == StopAll
    || step == Remove(i)
    || (step.Call? && step.f.RemoveEntry? && step.c < |t.conns| && t.conns[step.c].addr == t.conns[i].addr)
  }

  lemma DropEntryReleases(t: State, at: nat, i: nat)
    requires RegistryOk(t) && i < |t.conns| && t.conns[i].stopper == Registered
    ensures i < |DropEntry(t, at).conns|
    ensures DropEntry(t, at).conns[i].stopper == if t.conns[i].addr == at then Released else Registered
  {
    DropEntryEffect(t, at);
  }

  /** A registered stopper is released by these steps and by no other, so a handler in its join whose entry
      is missing was stopped by a close or by stop_all. */
  lemma {:induction false} OnlyRemovalReleases(steps: seq<Step>, t: State, step: Step, i: nat)
    requires Reaches(steps, t) && i < |t.conns| && t.conns[i].stopper == Registered && Enabled(t, step)
    ensures i < |Apply(t, step).conns|
    ensures Apply(t, step).conns[i].stopper == if RemovesEntry(t, step, i) then Released else Registered
  {
    RunKeepsInv(Init(), steps);
    StopperStage(t, i);
    if step.Insert? {
      StopperStage(t, step.c);
    }
    StepReleases(t, step, i);
  }

  lemma {:induction false} StepReleases(t: State, step: Step, i: nat)
    requires MapOk(t) && Enabled(t, step) && (step.Insert? ==> t.conns[step.c].stopper == NotMade)
    requires i < |t.conns| && t.conns[i].stopper == Registered && Live(t.conns[i].pc)
    ensures i < |Apply(t, step).conns|
    ensures Apply(t, step).conns[i].stopper == if RemovesEntry(t, step, i) then Released else Registered
  {
    if step.Insert? {
      InsertLeavesOthers(t, step.c, i);
    } else if step.Remove? {
      RemoveReleasesOwn(t, step.c, i);
    } else if step.Call? {
      CallReleasesPair(t, step.c, step.f, i);
    } else if step.StopAll? {
      StopAllReleases(t, i);
    } else {
      OthersLeaveStopper(t, step, i);
    }
  }

  lemma StopAllReleases(t: State, i: nat)
    requires i < |t.conns| && t.conns[i].stopper == Registered
    ensures i < |Apply(t, StopAll).conns| && Apply(t, StopAll).conns[i].stopper == Released
  {
  }

  lemma StopperStage(t: State, i: nat)
    requires Inv(t) && i < |t.conns|
    ensures t.conns[i].stopper == Registered ==> t.conns[i].pc == Joining || t.conns[i].pc == Leaving
    ensures t.conns[i].pc == Spawned ==> t.conns[i].stopper == NotMade
  {
    assert Good(t.conns[i]);
    assert StageOk(t.conns[i]);
  }

  lemma InsertLeavesOthers(t: State, c: nat, i: nat)
    requires MapOk(t) && Enabled(t, Insert(c)) && t.conns[c].stopper == NotMade
    requires i < |t.conns| && t.conns[i].stopper == Registered && Live(t.conns[i].pc)
    ensures i < |Apply(t, Insert(c)).conns| && Apply(t, Insert(c)).conns[i].stopper == Registered
  {
    assert t.conns[c].addr != t.conns[i].addr;
    DropEntryReleases(t, t.conns[c].addr, i);
  }

  lemma RemoveReleasesOwn(t: State, c: nat, i: nat)
    requires MapOk(t) && Enabled(t, Remove(c))
    requires i < |t.conns| && t.conns[i].stopper == Registered && Live(t.conns[i].pc)
    ensures i < |Apply(t, Remove(c)).conns|
    ensures Apply(t, Remove(c)).conns[i].stopper == if c == i then Released else Registered
  {
    assert c != i ==> t.conns[c].addr != t.conns[i].addr;
    DropEntryReleases(t, t.conns[c].addr, i);
  }

  lemma CallReleasesPair(t: State, c: nat, f: F.Step, i: nat)
    requires MapOk(t) && Enabled(t, Call(c, f)) && i < |t.conns| && t.conns[i].stopper == Registered
    ensures i < |Apply(t, Call(c, f)).conns|
    ensures Apply(t, Call(c, f)).conns[i].stopper ==
            if f.RemoveEntry? && t.conns[c].addr == t.conns[i].addr then Released else Registered
  {
    if f.RemoveEntry? {
      CloseReleases(t, c, f.t);
    }
  }

  lemma OthersLeaveStopper(t: State, step: Step, i: nat)
    requires Enabled(t, step) && !step.Insert? && !step.Remove? && !step.Call? && !step.StopAll? && i < |t.conns|
    ensures i < |Apply(t, step).conns| && Apply(t, step).conns[i].stopper == t.conns[i].stopper
  {
  }

  /** What the last action of a close call does: it stops the connection registered under the caller's
      address, and nothing else changes but the call itself. */
  lemma CloseEffect(steps: seq<Step>, t: State, i: nat, k: nat)
    requires Reaches(steps, t) && Enabled(t, Call(i, F.RemoveEntry(k)))
    ensures var u, called := Apply(t, Call(i, F.RemoveEntry(k))), AfterCall(t, i, F.RemoveEntry(k));
            && |u.conns| == |t.conns|
            && forall j :: 0 <= j < |t.conns| ==>
                 u.conns[j] == if t.conns[j].addr == t.conns[i].addr then Release(called.conns[j]) else called.conns[j]
  {
    RunKeepsInv(Init(), steps);
    CloseReleases(t, i, k);
  }

  lemma CloseReleases(t: State, i: nat, k: nat)
    requires MapOk(t) && Enabled(t, Call(i, F.RemoveEntry(k)))
    ensures var u, called := Apply(t, Call(i, F.RemoveEntry(k))), AfterCall(t, i, F.RemoveEntry(k));
            && |u.conns| == |t.conns|
            && forall j :: 0 <= j < |t.conns| ==>
                 u.conns[j] == if t.conns[j].addr == t.conns[i].addr then Release(called.conns[j]) else called.conns[j]
  {
  }

  /** As long as its handler lives, a close concerns no connection but its own. */
  lemma LiveCloseIsOwn(steps: seq<Step>, t: State, i: nat, k: nat, j: nat)
    requires Reaches(steps, t) && Enabled(t, Call(i, F.RemoveEntry(k))) && Live(t.conns[i].pc)
    requires j < |t.conns| && j != i
    ensures var u := Apply(t, Call(i, F.RemoveEntry(k))); j < |u.conns| && u.conns[j] == t.conns[j]
  {
    RunKeepsInv(Init(), steps);
    CloseReleases(t, i, k);
    NoOtherEntry(t, i);
  }

  /** The call's own record after one of its steps. */
  function AfterCall(t: State, i: nat, f: F.Step): State
    requires i < |t.conns| && F.Enabled(t.conns[i].fence, f)
  {
    Put(t, i, t.conns[i].(fence := F.Apply(t.conns[i].fence, f)))
  }

  /** A close that comes after a start has won and before the handler has registered its stopper changes
      nothing but the call's own record. */
  lemma CloseBeforeInsertIsNoop(steps: seq<Step>, t: State, i: nat, k: nat)
    requires Reaches(steps, t) && Enabled(t, Call(i, F.RemoveEntry(k)))
    requires t.conns[i].pc == InCallback || t.conns[i].pc == AwaitStart || t.conns[i].pc == Spawned
    ensures Apply(t, Call(i, F.RemoveEntry(k))) == AfterCall(t, i, F.RemoveEntry(k))
  {
    ReachableGood(steps, t, i);
    RunKeepsInv(Init(), steps);
    NoOtherEntry(t, i);
    assert StageOk(t.conns[i]);
  }

  /** The handler can take its stop branch, has left the select, or will never be started. */
  predicate Ending(c: Conn) {
    BranchReady(c, J.StopClosed) || c.fence.setter == F.Dropped || c.pc == Leaving || c.pc == Closing || c.pc == Closed
  }

  /** A close takes effect on its own connection exactly if it won, the configuration was dropped otherwise,
      or the handler has registered: it readies the stop branch of its own handler exactly if that was
      registered in its join. */
  lemma CloseTakesEffect(steps: seq<Step>, t: State, i: nat, k: nat)
    requires Reaches(steps, t) && Enabled(t, Call(i, F.RemoveEntry(k)))
    ensures i < |Apply(t, Call(i, F.RemoveEntry(k))).conns|
    ensures var c, d := t.conns[i], Apply(t, Call(i, F.RemoveEntry(k))).conns[i];
            && (BranchReady(d, J.StopClosed) <==> c.pc == Joining)
            && (BranchReady(d, J.StopClosed) && !BranchReady(c, J.StopClosed) <==>
                  c.pc == Joining && c.stopper == Registered)
            && (!Ending(d) <==>
                  (c.pc == InCallback || c.pc == AwaitStart || c.pc == Spawned) && c.fence.setter != F.Dropped)
            && (F.Won(d.fence.calls[k]) ==> Ending(d))
  {
    ReachableConnOk(steps, t, i);
    CloseEffect(steps, t, i, k);
    OwnClose(t.conns[i], k);
  }

  lemma OwnClose(c: Conn, k: nat)
    requires ConnOk(c) && F.Inv(c.fence) && HandedOut(c.pc) && F.Enabled(c.fence, F.RemoveEntry(k))
    ensures var d := Release(c.(fence := F.Apply(c.fence, F.RemoveEntry(k))));
            && (BranchReady(d, J.StopClosed) <==> c.pc == Joining)
            && (!Ending(d) <==>
                  (c.pc == InCallback || c.pc == AwaitStart || c.pc == Spawned) && c.fence.setter != F.Dropped)
            && (F.Won(d.fence.calls[k]) ==> Ending(d))
  {
    assert c.fence.calls[k].CloseRemove?;
  }

  /** stop_all changes exactly the registered handlers, and readies the stop branch of exactly those in
      their join: one that has spawned its tasks and not yet registered runs on. */
  lemma StopAllReach(steps: seq<Step>, t: State, i: nat)
    requires Reaches(steps, t) && i < |t.conns|
    ensures var c := Apply(t, StopAll).conns[i];
            && (c.stopper == Released <==> t.conns[i].stopper != NotMade)
            && (BranchReady(c, J.StopClosed) <==> t.conns[i].pc == Joining)
            && (c != t.conns[i] <==> t.conns[i].stopper == Registered)
  {
    ReachableConnOk(steps, t, i);
  }

  // ---------------------------------------------------------------- a stale close

  /** A close stops a connection other than its own exactly when that one is registered under the same
      address pair, which needs the caller's own handler to have ended. */
  lemma CloseStopsAnother(steps: seq<Step>, t: State, i: nat, k: nat, j: nat)
    requires Reaches(steps, t) && Enabled(t, Call(i, F.RemoveEntry(k))) && j < |t.conns| && j != i
    ensures |Apply(t, Call(i, F.RemoveEntry(k))).conns| == |t.conns|
    ensures Apply(t, Call(i, F.RemoveEntry(k))).conns[j] != t.conns[j] <==>
            t.conns[j].addr == t.conns[i].addr && t.conns[j].stopper == Registered
    ensures Apply(t, Call(i, F.RemoveEntry(k))).conns[j] != t.conns[j] ==> t.conns[i].pc == Closed
  {
    CloseEffect(steps, t, i, k);
    if Live(t.conns[i].pc) {
      LiveCloseIsOwn(steps, t, i, k, j);
    }
  }

  lemma Extend(steps: seq<Step>, t: State, step: Step) returns (more: seq<Step>, u: State)
    requires Reaches(steps, t) && Enabled(t, step)
    ensures Reaches(more, u) && u == Apply(t, step) && more == steps + [step]
  {
    more, u := steps + [step], Apply(t, step);
    assert more[..|more| - 1] == steps;
  }

  /** The state with another record of the calls on connection i. */
  function WithFence(t: State, i: nat, f: F.Fence): State
    requires i < |t.conns|
  {
    Put(t, i, t.conns[i].(fence := f))
  }

  lemma ExtendCall(steps: seq<Step>, t: State, i: nat, f: F.Fence, a: F.Step, g: F.Fence) returns (more: seq<Step>)
    requires i < |t.conns| && HandedOut(t.conns[i].pc) && Reaches(steps, WithFence(t, i, f))
    requires F.Enabled(f, a) && a != F.DropReceiver && !a.RemoveEntry? && F.Apply(f, a) == g
    ensures Reaches(more, WithFence(t, i, g))
  {
    var u;
    more, u := Extend(steps, WithFence(t, i, f), Call(i, a));
    assert u == WithFence(t, i, g);
  }

  /** The record of one start that succeeded. */
  function Started(): F.Fence {
    F.Fence(true, F.Sent, true, [F.StartOk], true, false)
  }

  lemma Starts(steps: seq<Step>, t: State, i: nat) returns (more: seq<Step>)
    requires Reaches(steps, t) && i < |t.conns| && HandedOut(t.conns[i].pc) && t.conns[i].fence == F.Init()
    ensures Reaches(more, WithFence(t, i, Started()))
  {
    var f := F.Init();
    var won := f.(consumed := true, calls := [F.StartTake]);
    var took := won.(setter := F.Taken, calls := [F.StartSend]);
    assert t == WithFence(t, i, f);
    more := ExtendCall(steps, t, i, f, F.BeginStart, f.(calls := [F.StartCas]));
    more := ExtendCall(more, t, i, f.(calls := [F.StartCas]), F.Cas(0), won);
    more := ExtendCall(more, t, i, won, F.Take(0), took);
    more := ExtendCall(more, t, i, took, F.SendConfig(0), Started());
  }

  // ---------------------------------------------------------------- between spawn and insert

  /** A connection that is started in its OnConnect callback, up to the point between the spawn of its tasks
      and the insert of its stopper. */
  lemma Spawns(cfg: Config) returns (steps: seq<Step>, t: State)
    requires |cfg.mem| > 0
    ensures Reaches(steps, t) && |t.conns| == 1 && t.registry == map[] && t.conns[0].pc == Spawned
    ensures t.conns[0].stopper == NotMade && t.conns[0].fence == Started().(rxOpen := false)
    ensures t.conns[0].join == J.Begin()
  {
    steps, t := [], Init();
    steps, t := Extend(steps, t, NewAccept(7, cfg));
    steps, t := Extend(steps, t, Handler(0, InvokeOnConnect));
    steps := Starts(steps, t, 0);
    t := WithFence(t, 0, Started());
    steps, t := Extend(steps, t, Handler(0, CallbackReturns(true)));
    steps, t := Extend(steps, t, Handler(0, GetConfig));
  }

  /** A handler that registers itself now waits in its join with nobody about to stop it. */
  lemma Registers(steps: seq<Step>, t: State) returns (more: seq<Step>, u: State)
    requires Reaches(steps, t) && |t.conns| == 1 && t.registry == map[]
    requires t.conns[0].pc == Spawned && t.conns[0].join == J.Begin() && t.conns[0].fence.setter != F.Dropped
    ensures Reaches(more, u) && more == steps + [Insert(0)]
    ensures |u.conns| == 1 && u.conns[0].pc == Joining && u.conns[0].stopper == Registered
    ensures u.conns[0].fence == t.conns[0].fence && !Ending(u.conns[0])
  {
    more, u := Extend(steps, t, Insert(0));
  }

  /** A close that is begun after the OnConnect callback has returned and completes before the insert: the
      connection goes on as if nothing had happened. */
  lemma CloseInWindowIsLost(cfg: Config) returns (steps: seq<Step>, t: State, more: seq<Step>, u: State)
    requires |cfg.mem| > 0
    ensures Reaches(steps, t) && |t.conns| == 1 && t.conns[0].pc == Spawned
    ensures Enabled(t, Call(0, F.BeginClose))
    ensures Reaches(more, u) && |u.conns| == 1 && u.conns[0].pc == Joining && u.conns[0].stopper == Registered
    ensures u.conns[0].fence.calls == t.conns[0].fence.calls + [F.CloseDone(false)] && !Ending(u.conns[0])
  {
    steps, t := Spawns(cfg);
    more, u := Closes(steps, t);
    more, u := Registers(more, u);
  }

  lemma Closes(steps: seq<Step>, t: State) returns (more: seq<Step>, u: State)
    requires Reaches(steps, t) && |t.conns| == 1 && t.registry == map[] && HandedOut(t.conns[0].pc)
    requires t.conns[0].fence == Started().(rxOpen := false)
    ensures Reaches(more, u)
    ensures u == WithFence(t, 0, t.conns[0].fence.(calls := [F.StartOk, F.CloseDone(false)]))
  {
    var f := t.conns[0].fence;
    assert t == WithFence(t, 0, f);
    var lost := f.(calls := [F.StartOk, F.CloseRemove(false)]);
    more := ExtendCall(steps, t, 0, f, F.BeginClose, f.(calls := [F.StartOk, F.CloseCas]));
    more := ExtendCall(more, t, 0, f.(calls := [F.StartOk, F.CloseCas]), F.Cas(1), lost);
    more, u := Extend(more, WithFence(t, 0, lost), Call(0, F.RemoveEntry(1)));
    assert F.Apply(lost, F.RemoveEntry(1)) == f.(calls := [F.StartOk, F.CloseDone(false)]);
  }

  /** A handler that registers after stop_all is not stopped by it. */
  lemma StopAllMissesSpawned(cfg: Config) returns (steps: seq<Step>, t: State, more: seq<Step>, u: State)
    requires |cfg.mem| > 0
    ensures Reaches(steps, t) && |t.conns| == 1 && t.conns[0].pc == Spawned
    ensures Reaches(more, u) && more == steps + [StopAll] + [Insert(0)]
    ensures |u.conns| == 1 && u.conns[0].pc == Joining && u.conns[0].stopper == Registered && !Ending(u.conns[0])
  {
    steps, t := Spawns(cfg);
    more, u := Extend(steps, t, StopAll);
    more, u := Registers(more, u);
  }

  // ---------------------------------------------------------------- the first connection and its successor

  /** A first connection whose OnConnect callback failed and whose Conn is still around. */
  lemma FirstEnds(cfg: Config) returns (steps: seq<Step>, t: State)
    requires |cfg.mem| > 0
    ensures Reaches(steps, t) && |t.conns| == 1 && t.registry == map[]
    ensures t.conns[0].pc == Closed && t.conns[0].addr == 7 && t.conns[0].fence == F.Init().(rxOpen := false)
  {
    steps, t := [], Init();
    steps, t := Extend(steps, t, NewAccept(7, cfg));
    steps, t := Extend(steps, t, Handler(0, InvokeOnConnect));
    steps, t := Extend(steps, t, Handler(0, CallbackReturns(false)));
    steps, t := Extend(steps, t, Handler(0, FinishClose));
  }

  /** A second connection with the same address pair, up to its registration. */
  lemma SecondRegisters(cfg: Config, steps: seq<Step>, t: State) returns (more: seq<Step>, u: State)
    requires Reaches(steps, t) && |t.conns| == 1 && t.registry == map[] && |cfg.mem| > 0
    requires t.conns[0].pc == Closed && t.conns[0].addr == 7 && t.conns[0].fence == F.Init().(rxOpen := false)
    ensures Reaches(more, u) && |u.conns| == 2 && u.conns[0] == t.conns[0] && u.registry == map[7 := 1]
    ensures u.conns[1].pc == Joining && u.conns[1].addr == 7
    ensures u.conns[1].stopper == Registered && u.conns[1].join == J.Begin()
  {
    more, u := Extend(steps, t, NewAccept(7, cfg));
    more, u := Extend(more, u, Handler(1, InvokeOnConnect));
    more, u := Extend(more, u, Handler(1, CallbackReturns(true)));
    more := Starts(more, u, 1);
    u := WithFence(u, 1, Started());
    more, u := Extend(more, u, Handler(1, GetConfig));
    more, u := Extend(more, u, Insert(1));
  }

  /** The record of a close on an unused Conn without a handler, up to its last action. */
  function ClosedUnused(): F.Fence {
    F.Fence(true, F.Dropped, false, [F.CloseRemove(true)], true, false)
  }

  lemma ClosesUnused(steps: seq<Step>, t: State, i: nat) returns (more: seq<Step>)
    requires Reaches(steps, t) && i < |t.conns| && HandedOut(t.conns[i].pc)
    requires t.conns[i].fence == F.Init().(rxOpen := false)
    ensures Reaches(more, WithFence(t, i, ClosedUnused()))
  {
    var f := t.conns[i].fence;
    var won := f.(consumed := true, calls := [F.CloseTake]);
    assert t == WithFence(t, i, f);
    more := ExtendCall(steps, t, i, f, F.BeginClose, f.(calls := [F.CloseCas]));
    more := ExtendCall(more, t, i, f.(calls := [F.CloseCas]), F.Cas(0), won);
    more := ExtendCall(more, t, i, won, F.Take(0), ClosedUnused());
  }

  /** So a close on a Conn that has outlived its connection can stop a newer connection that was given
      the same address pair. */
  lemma StaleCloseStopsNewcomer(cfg: Config) returns (steps: seq<Step>, t: State)
    requires |cfg.mem| > 0
    ensures Reaches(steps, t) && |t.conns| == 2 && t.conns[0].pc == Closed && t.conns[1].pc == Joining
    ensures !BranchReady(t.conns[1], J.StopClosed) && Enabled(t, Call(0, F.RemoveEntry(0)))
    ensures BranchReady(Apply(t, Call(0, F.RemoveEntry(0))).conns[1], J.StopClosed)
  {
    steps, t := FirstEnds(cfg);
    steps, t := SecondRegisters(cfg, steps, t);
    steps := ClosesUnused(steps, t, 0);
    t := WithFence(t, 0, ClosedUnused());
  }
}

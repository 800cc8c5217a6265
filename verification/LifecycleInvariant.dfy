/**
 What every step of the connection lifecycle keeps, and what follows for every run.
 */
module LifecycleInvariant {
  import opened Base
  import F = ConnFence
  import J = JoinTasks
  import S = SendPath
  import R = Receive
  import SendInvariant
  import opened Lifecycle

  // ---------------------------------------------------------------- one connection

  /** The events of a connection that was opened and not yet closed. */
  function Opened(j: J.Join): seq<Event> {
    if j.remoteCloses > 0 then [OnConnect, OnRemoteClose] else [OnConnect]
  }

  predicate ReaderFailed(c: Conn) {
    c.rcv.pc == R.DoneErr || c.rcv.pc == R.Panicked
  }

  /** The select knows how the tasks ended, and leaves none of them behind unattended. */
  predicate JoinOk(c: Conn) {
    && (c.join.writerStopped ==> c.snd.wpc == S.DoneOk)
    && (c.join.readerStopped ==> c.rcv.pc == R.DoneOk)
    && c.join.remoteCloses == (if c.join.readerStopped then 1 else 0)
    && (c.join.over ==> (c.join.writerAborted || WriterEnded(c)) && (c.join.readerAborted || ReaderEnded(c)))
    && (c.join.over && !c.join.writerAborted && !c.join.readerAborted ==> c.join.writerStopped && c.join.readerStopped)
    && (c.join.writerAborted ==> (c.join.readerAborted && c.stopper == Released) || ReaderFailed(c))
    && (c.join.readerAborted ==> (c.join.writerAborted && c.stopper == Released) || c.snd.wpc == S.Failed)
    && (!c.join.over ==>
          !c.join.writerAborted && !c.join.readerAborted && !(c.join.writerStopped && c.join.readerStopped))
  }

  predicate HandlerOk(c: Conn) {
    match c.pc
    case Connecting => c.events == []
    case ConnectFailed => c.events == [OnConnectError]
    case Accepted => c.events == []
    case InCallback => c.events == [OnConnect]
    case AwaitStart => c.events == [OnConnect]
    case Spawned => c.events == [OnConnect]
    case Joining => c.events == Opened(c.join) && !c.join.over
    case Leaving => c.events == Opened(c.join) && c.join.over
    case Closing => c.events == Opened(c.join) && c.join.over == c.spawned
    case Closed => c.events == Opened(c.join) + [OnConnectionClose] && c.join.over == c.spawned
  }

  /** The configuration has not been asked for or is still awaited. */
  predicate Waiting(pc: HandlerPc) {
    pc == Connecting || pc == ConnectFailed || pc == Accepted || pc == InCallback || pc == AwaitStart
  }

  predicate StageOk(c: Conn) {
    && (c.spawned ==> c.fence.setter == F.Sent)
    && (c.pc == Spawned || c.pc == Joining || c.pc == Leaving ==> c.spawned)
    && (!c.spawned || c.pc == Spawned ==> c.join == J.Begin() && c.stopper == NotMade)
    && (Waiting(c.pc) ==> !c.spawned)
    && (c.pc == Joining || c.pc == Leaving ==> c.stopper != NotMade)
    && (c.stopper == Registered ==> c.pc == Joining || c.pc == Leaving)
    && (c.fence.rxOpen <==> Waiting(c.pc))
  }

  predicate TasksOk(c: Conn) {
    F.Inv(c.fence) && SendInvariant.Inv(c.snd) && R.Inv(c.rcv)
  }

  predicate ConnOk(c: Conn) {
    HandlerOk(c) && StageOk(c) && JoinOk(c)
  }

  lemma HandlerKeepsConnOk(c: Conn, a: HandlerStep)
    requires ConnOk(c) && HandlerEnabled(c, a)
    ensures ConnOk(HandlerApply(c, a))
    ensures HandlerApply(c, a).addr == c.addr && HandlerApply(c, a).stopper == c.stopper
    ensures Live(HandlerApply(c, a).pc) ==> Live(c.pc)
  {
  }

  /** Closing the receiver is one of the steps that the fence allows. */
  lemma HandlerKeepsTasksOk(c: Conn, a: HandlerStep)
    requires ConnOk(c) && TasksOk(c) && HandlerEnabled(c, a)
    ensures TasksOk(HandlerApply(c, a))
  {
  }

  lemma CallKeepsConnOk(c: Conn, f: F.Step)
    requires ConnOk(c) && F.Inv(c.fence) && F.Enabled(c.fence, f) && f != F.DropReceiver
    ensures ConnOk(c.(fence := F.Apply(c.fence, f)))
  {
  }

  /** A task has ended exactly if it can take no further step. */
  lemma EndedTasksRest(c: Conn)
    requires TasksOk(c)
    ensures WriterEnded(c) <==> forall a :: !S.WriterEnabled(c.snd, a)
    ensures ReaderEnded(c) <==> forall r :: !R.Enabled(c.rcv, r)
  {
    if !WriterEnded(c) {
      WriterHasStep(c.snd);
    }
    if !ReaderEnded(c) {
      ReaderHasStep(c.rcv);
    }
  }

  lemma WriterHasStep(s: S.State)
    requires SendInvariant.Inv(s) && s.wpc != S.DoneOk && s.wpc != S.Failed
    ensures exists a :: S.WriterEnabled(s, a)
  {
    if s.wpc.Holding? {
      HoldHasStep(s.auto, s.heap[s.wpc.ring], s.wpc.phase);
      var a :| S.HoldEnabled(s.auto, s.heap[s.wpc.ring], s.wpc.phase, a);
      assert S.WriterEnabled(s, a);
    } else {
      assert S.WriterEnabled(s, S.Fail) || S.WriterEnabled(s, S.Unwind);
    }
  }

  lemma HoldHasStep(auto: bool, r: S.Ring, ph: S.Phase)
    requires SendInvariant.PhaseOk(auto, r, ph) && ph != S.Drained && ph != S.Unwound
    ensures exists a :: S.HoldEnabled(auto, r, ph, a)
  {
    var a := match ph
      case Select(_) => S.Fail
      case Check(_) => S.TestClosed
      case Occupancy(_) => S.CompareOccupancy
      case Look(_) => S.TakeSlices(|r.data|)
      case Writing(_, _) => S.Fail
      case Advance(_, _) => S.AdvanceRead
      case WakeUp(_) => S.Wake
      case _ => S.Unwind;
    assert S.HoldEnabled(auto, r, ph, a);
  }

  lemma ReaderHasStep(s: R.State)
    requires R.Inv(s) && s.pc != R.DoneOk && s.pc != R.DoneErr && s.pc != R.Panicked
    ensures exists r :: R.Enabled(s, r)
  {
    var r := match s.pc
      case Top => R.Start
      case Filled => R.Arm
      case Ticked => R.Disarm
      case _ => R.Abort;
    assert R.Enabled(s, r);
  }

  lemma SendingKeepsConnOk(c: Conn, s: S.Step)
    requires ConnOk(c) && S.Enabled(c.snd, s)
    ensures ConnOk(c.(snd := S.Apply(c.snd, s)))
  {
  }

  lemma ReadingKeepsConnOk(c: Conn, r: R.Step)
    requires ConnOk(c) && R.Enabled(c.rcv, r)
    ensures ConnOk(c.(rcv := R.Apply(c.rcv, r)))
  {
  }

  // ---------------------------------------------------------------- all connections

  /** The registry holds exactly the stoppers that are registered. */
  predicate RegistryOk(st: State) {
    && (forall at :: at in st.registry ==>
          && st.registry[at] < |st.conns|
          && st.conns[st.registry[at]].stopper == Registered && st.conns[st.registry[at]].addr == at)
    && (forall i :: 0 <= i < |st.conns| && st.conns[i].stopper == Registered ==>
          st.conns[i].addr in st.registry && st.registry[st.conns[i].addr] == i)
  }

  predicate AddrsDistinct(st: State) {
    forall i, j :: 0 <= i < j < |st.conns| && Live(st.conns[i].pc) && Live(st.conns[j].pc) ==>
                     st.conns[i].addr != st.conns[j].addr
  }

  predicate Every(conns: seq<Conn>, ok: Conn -> bool) {
    forall i :: 0 <= i < |conns| ==> ok(conns[i])
  }

  lemma EveryPut(conns: seq<Conn>, i: nat, c: Conn, ok: Conn -> bool)
    requires Every(conns, ok) && i < |conns| && ok(c)
    ensures Every(conns[i := c], ok)
  {
  }

  lemma EveryAppend(conns: seq<Conn>, c: Conn, ok: Conn -> bool)
    requires Every(conns, ok) && ok(c)
    ensures Every(conns + [c], ok)
  {
  }

  predicate Good(c: Conn) {
    ConnOk(c) && TasksOk(c)
  }

  predicate MapOk(st: State) {
    RegistryOk(st) && AddrsDistinct(st)
  }

  predicate Inv(st: State) {
    Every(st.conns, Good) && MapOk(st)
  }

  /** A step of one connection that touches neither its address nor its stopper. */
  lemma PutKeepsMapOk(st: State, i: nat, c: Conn)
    requires MapOk(st) && i < |st.conns|
    requires c.addr == st.conns[i].addr && c.stopper == st.conns[i].stopper && (Live(c.pc) ==> Live(st.conns[i].pc))
    ensures MapOk(Put(st, i, c))
  {
  }

  lemma ReleaseKeepsGood(c: Conn)
    requires Good(c)
    ensures Good(Release(c))
  {
  }

  /** Removing an entry releases the connection registered under that address, and no other. */
  lemma DropEntryEffect(st: State, at: nat)
    requires RegistryOk(st)
    ensures RegistryOk(DropEntry(st, at)) && at !in DropEntry(st, at).registry
    ensures |DropEntry(st, at).conns| == |st.conns|
    ensures forall i :: 0 <= i < |st.conns| ==>
              DropEntry(st, at).conns[i] == if st.conns[i].addr == at then Release(st.conns[i]) else st.conns[i]
  {
  }

  lemma DropEntryKeepsMapOk(st: State, at: nat)
    requires MapOk(st)
    ensures MapOk(DropEntry(st, at))
  {
  }

  lemma DropEntryKeepsInv(st: State, at: nat)
    requires Inv(st)
    ensures Inv(DropEntry(st, at))
  {
    DropEntryKeepsMapOk(st, at);
    if at in st.registry {
      var d := st.registry[at];
      ReleaseKeepsGood(st.conns[d]);
      EveryPut(st.conns, d, Release(st.conns[d]), Good);
    }
  }

  lemma EveryReleased(conns: seq<Conn>, ok: Conn -> bool)
    requires Every(conns, ok) && forall c :: ok(c) ==> ok(Release(c))
    ensures Every(seq(|conns|, i requires 0 <= i < |conns| => Release(conns[i])), ok)
  {
  }

  lemma StopAllKeepsMapOk(st: State)
    requires MapOk(st)
    ensures MapOk(Apply(st, StopAll))
  {
  }

  lemma StopAllKeepsInv(st: State)
    requires Inv(st)
    ensures Inv(Apply(st, StopAll))
  {
    forall c | Good(c)
      ensures Good(Release(c))
    {
      ReleaseKeepsGood(c);
    }
    EveryReleased(st.conns, Good);
    StopAllKeepsMapOk(st);
  }

  // ---------------------------------------------------------------- every step

  lemma NewKeepsInv(st: State, at: nat, pc: HandlerPc, cfg: Config)
    requires Inv(st) && |cfg.mem| > 0 && (pc == Connecting || (pc == Accepted && AddrFree(st, at)))
    ensures Inv(st.(conns := st.conns + [NewConn(at, pc, cfg)]))
  {
    var c := NewConn(at, pc, cfg);
    NewIsGood(at, pc, cfg);
    EveryAppend(st.conns, c, Good);
    NewKeepsMapOk(st, c);
  }

  lemma NewIsGood(at: nat, pc: HandlerPc, cfg: Config)
    requires |cfg.mem| > 0 && (pc == Connecting || pc == Accepted)
    ensures Good(NewConn(at, pc, cfg))
  {
    SendInvariant.InitInv(cfg.autoWrite);
  }

  lemma NewKeepsMapOk(st: State, c: Conn)
    requires MapOk(st) && c.stopper == NotMade && (Live(c.pc) ==> AddrFree(st, c.addr))
    ensures MapOk(st.(conns := st.conns + [c]))
  {
  }

  lemma ConnectedKeepsInv(st: State, i: nat, at: nat)
    requires Inv(st) && Enabled(st, ConnectOk(i, at))
    ensures Inv(Apply(st, ConnectOk(i, at)))
  {
    var c := st.conns[i].(addr := at, pc := Accepted);
    ConnectedIsGood(st.conns[i], at);
    EveryPut(st.conns, i, c, Good);
    ConnectedKeepsMapOk(st, i, c);
  }

  lemma ConnectedIsGood(c: Conn, at: nat)
    requires Good(c) && c.pc == Connecting
    ensures Good(c.(addr := at, pc := Accepted)) && c.stopper == NotMade
  {
  }

  lemma ConnectedKeepsMapOk(st: State, i: nat, c: Conn)
    requires MapOk(st) && i < |st.conns| && st.conns[i].stopper == NotMade == c.stopper && AddrFree(st, c.addr)
    ensures MapOk(Put(st, i, c))
  {
  }

  lemma LocalKeepsInv(st: State, i: nat, c: Conn)
    requires Inv(st) && i < |st.conns| && Good(c)
    requires c.addr == st.conns[i].addr && c.stopper == st.conns[i].stopper && (Live(c.pc) ==> Live(st.conns[i].pc))
    ensures Inv(Put(st, i, c))
  {
    EveryPut(st.conns, i, c, Good);
    PutKeepsMapOk(st, i, c);
  }

  lemma InsertKeepsInv(st: State, i: nat)
    requires Inv(st) && Enabled(st, Insert(i))
    ensures Inv(Apply(st, Insert(i)))
  {
    var at := st.conns[i].addr;
    var clear := DropEntry(st, at);
    DropEntryKeepsInv(st, at);
    DropEntryEffect(st, at);
    assert Good(st.conns[i]) && clear.conns[i] == st.conns[i];
    var c := clear.conns[i].(pc := Joining, stopper := Registered);
    InsertIsGood(clear.conns[i]);
    EveryPut(clear.conns, i, c, Good);
    assert forall j :: 0 <= j < |clear.conns| && clear.conns[j].stopper == Registered ==> clear.conns[j].addr != at;
    InsertKeepsMapOk(clear, i, c);
  }

  lemma InsertIsGood(c: Conn)
    requires Good(c) && c.pc == Spawned
    ensures Good(c.(pc := Joining, stopper := Registered))
  {
  }

  lemma InsertKeepsMapOk(st: State, i: nat, c: Conn)
    requires MapOk(st) && i < |st.conns| && c.addr == st.conns[i].addr && c.stopper == Registered
    requires Live(st.conns[i].pc) && st.conns[i].stopper != Registered && c.addr !in st.registry
    ensures MapOk(State(st.conns[i := c], st.registry[c.addr := i]))
  {
  }

  lemma RemoveKeepsInv(st: State, i: nat)
    requires Inv(st) && Enabled(st, Remove(i))
    ensures Inv(Apply(st, Remove(i)))
  {
    var at := st.conns[i].addr;
    var clear := DropEntry(st, at);
    DropEntryKeepsInv(st, at);
    DropEntryEffect(st, at);
    assert Good(clear.conns[i]) && clear.conns[i].stopper != Registered;
    RemoveIsGood(clear.conns[i]);
    LocalKeepsInv(clear, i, clear.conns[i].(pc := Closing));
  }

  lemma RemoveIsGood(c: Conn)
    requires Good(c) && c.pc == Leaving && c.stopper != Registered
    ensures Good(c.(pc := Closing))
  {
  }

  lemma CallKeepsInv(st: State, i: nat, f: F.Step)
    requires Inv(st) && Enabled(st, Call(i, f))
    ensures Inv(Apply(st, Call(i, f)))
  {
    var c := st.conns[i];
    assert Good(c);
    CallKeepsConnOk(c, f);
    F.StepKeepsInv(c.fence, f);
    var called := c.(fence := F.Apply(c.fence, f));
    assert TasksOk(called);
    LocalKeepsInv(st, i, called);
    DropEntryKeepsInv(Put(st, i, called), c.addr);
  }

  lemma TaskKeepsInv(st: State, step: Step)
    requires Inv(st) && Enabled(st, step) && (step.Sending? || step.Reading?)
    ensures Inv(Apply(st, step))
  {
    var c := st.conns[step.c];
    assert Good(c);
    if step.Sending? {
      SendingKeepsConnOk(c, step.s);
      SendInvariant.StepKeepsInv(c.snd, step.s);
      assert TasksOk(c.(snd := S.Apply(c.snd, step.s)));
      LocalKeepsInv(st, step.c, c.(snd := S.Apply(c.snd, step.s)));
    } else {
      ReadingKeepsConnOk(c, step.r);
      R.StepKeepsInv(c.rcv, step.r);
      assert TasksOk(c.(rcv := R.Apply(c.rcv, step.r)));
      LocalKeepsInv(st, step.c, c.(rcv := R.Apply(c.rcv, step.r)));
    }
  }

  lemma HandlerKeepsInv(st: State, i: nat, a: HandlerStep)
    requires Inv(st) && Enabled(st, Handler(i, a))
    ensures Inv(Apply(st, Handler(i, a)))
  {
    var c := st.conns[i];
    assert Good(c);
    HandlerKeepsConnOk(c, a);
    HandlerKeepsTasksOk(c, a);
    LocalKeepsInv(st, i, HandlerApply(c, a));
  }

  lemma ConnectErrKeepsInv(st: State, i: nat)
    requires Inv(st) && Enabled(st, ConnectErr(i))
    ensures Inv(Apply(st, ConnectErr(i)))
  {
    var c := st.conns[i];
    assert Good(c);
    LocalKeepsInv(st, i, c.(pc := ConnectFailed, events := c.events + [OnConnectError]));
  }

  lemma {:induction false} StepKeepsInv(st: State, step: Step)
    requires Inv(st) && Enabled(st, step)
    ensures Inv(Apply(st, step))
  {
    match step
    case NewConnect(cfg) => NewKeepsInv(st, 0, Connecting, cfg);
    case NewAccept(at, cfg) => NewKeepsInv(st, at, Accepted, cfg);
    case ConnectOk(c, at) => ConnectedKeepsInv(st, c, at);
    case ConnectErr(c) => ConnectErrKeepsInv(st, c);
    case Handler(c, a) => HandlerKeepsInv(st, c, a);
    case Insert(c) => InsertKeepsInv(st, c);
    case Remove(c) => RemoveKeepsInv(st, c);
    case Call(c, f) => CallKeepsInv(st, c, f);
    case Sending(c, s) => TaskKeepsInv(st, step);
    case Reading(c, r) => TaskKeepsInv(st, step);
    case StopAll => StopAllKeepsInv(st);
  }

  lemma {:induction false} RunKeepsInv(st: State, steps: seq<Step>)
    requires Inv(st)
    ensures Exec(st, steps).Some? ==> Inv(Exec(st, steps).value)
  {
    if steps != [] && Exec(st, steps).Some? {
      var last := |steps| - 1;
      RunKeepsInv(st, steps[..last]);
      StepKeepsInv(Exec(st, steps[..last]).value, steps[last]);
    }
  }
}

/**
 Connections from the connect command or the listener to `OnConnectionClose`: any number
 of handler tasks, their reader and writer tasks, the registry of stoppers, and any
 number of callers of `start`, `close` and of the sender, all interleaved.
 */
module Lifecycle {
  import opened Base
  import F = ConnFence
  import J = JoinTasks
  import S = SendPath
  import R = Receive

  datatype Event = OnConnect | OnRemoteClose | OnConnectionClose | OnConnectError

  datatype HandlerPc =
    | Connecting        // connect task: TcpStream::connect in progress
    | ConnectFailed     // connect task: ended with OnConnectError
    | Accepted          // handle_connection was called
    | InCallback        // the OnConnect callback is running
    | AwaitStart        // waiting for the configuration
    | Spawned           // reader and writer spawned, stopper not yet registered
    | Joining           // in join_reader_writer
    | Leaving           // join_reader_writer returned, registry entry not yet removed
    | Closing           // about to call OnConnectionClose
    | Closed

  /** The receiving half of the stop channel, whose drop is the stop signal. */
  datatype Stopper = NotMade | Registered | Released

  datatype Conn = Conn(
    addr: nat,                // the pair of local and peer address
    pc: HandlerPc,
    fence: F.Fence,
    stopper: Stopper,
    join: J.Join,
    spawned: bool,
    events: seq<Event>,
    snd: S.State,
    rcv: R.State)

  /** What start will be given. */
  datatype Config = Config(autoWrite: bool, autoRead: bool, mem: seq<byte>)

  function NewConn(addr: nat, pc: HandlerPc, cfg: Config): Conn {
    Conn(addr, pc, F.Init(), NotMade, J.Begin(), false, [], S.Init(cfg.autoWrite), R.Init(cfg.autoRead, cfg.mem))
  }

  // ---------------------------------------------------------------- the handler task

  datatype HandlerStep =
    | InvokeOnConnect
    | CallbackReturns(ok: bool)
    | GetConfig                        // conn_config resolved with a value
    | ConfigGone                       // conn_config resolved with an error
    | TakeBranch(b: J.Branch)          // one turn of the select in join_reader_writer
    | FinishClose

  predicate WriterEnded(c: Conn) {
    c.snd.wpc == S.DoneOk || c.snd.wpc == S.Failed
  }

  predicate ReaderEnded(c: Conn) {
    c.rcv.pc == R.DoneOk || c.rcv.pc == R.DoneErr || c.rcv.pc == R.Panicked
  }

  predicate BranchReady(c: Conn, b: J.Branch) {
    && J.Polled(c.join, b)
    && match b
       case StopClosed => c.stopper == Released
       case WriterDone => WriterEnded(c)
       case ReaderDone => ReaderEnded(c)
  }

  function BranchResult(c: Conn, b: J.Branch): J.TaskResult {
    if (b == J.WriterDone && c.snd.wpc == S.DoneOk) || (b == J.ReaderDone && c.rcv.pc == R.DoneOk) then J.TaskOk
    else J.TaskErr
  }

  predicate HandlerEnabled(c: Conn, a: HandlerStep) {
    match a
    case InvokeOnConnect => c.pc == Accepted
    case CallbackReturns(_) => c.pc == InCallback
    case GetConfig => c.pc == AwaitStart && c.fence.setter == F.Sent
    case ConfigGone => c.pc == AwaitStart && c.fence.setter == F.Dropped
    case TakeBranch(b) => c.pc == Joining && BranchReady(c, b)
    case FinishClose => c.pc == Closing
  }

  function HandlerApply(c: Conn, a: HandlerStep): Conn
    requires HandlerEnabled(c, a)
  {
    match a
    case InvokeOnConnect => c.(pc := InCallback, events := c.events + [OnConnect])
    case CallbackReturns(ok) =>
      if ok then c.(pc := AwaitStart) else c.(pc := Closing, fence := c.fence.(rxOpen := false))
    case GetConfig => c.(pc := Spawned, spawned := true, fence := c.fence.(rxOpen := false))
    case ConfigGone => c.(pc := Closing, fence := c.fence.(rxOpen := false))
    case TakeBranch(b) =>
      var j := J.OnBranch(c.join, b, BranchResult(c, b));
      c.(join := j, pc := if j.over then Leaving else Joining,
         events := c.events + if j.remoteCloses > c.join.remoteCloses then [OnRemoteClose] else [])
    case FinishClose => c.(pc := Closed, events := c.events + [OnConnectionClose])
  }

  // ---------------------------------------------------------------- the whole system

  datatype State = State(conns: seq<Conn>, registry: map<nat, nat>)

  function Init(): State {
    State([], map[])
  }

  datatype Step =
    | NewConnect(cfg: Config)
    | NewAccept(at: nat, cfg: Config)
    | ConnectOk(c: nat, at: nat)
    | ConnectErr(c: nat)
    | Handler(c: nat, a: HandlerStep)
    | Insert(c: nat)
    | Remove(c: nat)
    | Call(c: nat, f: F.Step)          // a step of a start or close call, or the drop of the Conn
    | Sending(c: nat, s: S.Step)       // the sender or the writer task
    | Reading(c: nat, r: R.Step)       // the reader task
    | StopAll

  /** The handler task has been created and has not ended. */
  predicate Live(pc: HandlerPc) {
    pc != Connecting && pc != ConnectFailed && pc != Closed
  }

  /** Simultaneously live handlers have different address pairs. */
  predicate AddrFree(st: State, at: nat) {
    forall i :: 0 <= i < |st.conns| && Live(st.conns[i].pc) ==> st.conns[i].addr != at
  }

  /** The user has been given the Conn and the MsgSender. */
  predicate HandedOut(pc: HandlerPc) {
    pc != Connecting && pc != ConnectFailed && pc != Accepted
  }

  predicate SendingAllowed(c: Conn, s: S.Step) {
    match s
    case Snd(_) => HandedOut(c.pc)
    case Wrt(a) => c.spawned || (c.pc == Closed && (a == S.Fail || a == S.Unwind))
  }

  predicate Enabled(st: State, step: Step) {
    match step
    case NewConnect(cfg) => |cfg.mem| > 0
    case NewAccept(at, cfg) => |cfg.mem| > 0 && AddrFree(st, at)
    case ConnectOk(c, at) => c < |st.conns| && st.conns[c].pc == Connecting && AddrFree(st, at)
    case ConnectErr(c) => c < |st.conns| && st.conns[c].pc == Connecting
    case Handler(c, a) => c < |st.conns| && HandlerEnabled(st.conns[c], a)
    case Insert(c) => c < |st.conns| && st.conns[c].pc == Spawned
    case Remove(c) => c < |st.conns| && st.conns[c].pc == Leaving
    case Call(c, f) =>
      c < |st.conns| && HandedOut(st.conns[c].pc) && f != F.DropReceiver && F.Enabled(st.conns[c].fence, f)
    case Sending(c, s) => c < |st.conns| && SendingAllowed(st.conns[c], s) && S.Enabled(st.conns[c].snd, s)
    case Reading(c, r) => c < |st.conns| && st.conns[c].spawned && R.Enabled(st.conns[c].rcv, r)
    case StopAll => true
  }

  function Put(st: State, c: nat, conn: Conn): State
    requires c < |st.conns|
  {
    st.(conns := st.conns[c := conn])
  }

  /** A removed stopper is dropped, which signals its handler. */
  function Release(c: Conn): Conn {
    if c.stopper == Registered then c.(stopper := Released) else c
  }

  /** connections.remove(&addr) */
  function DropEntry(st: State, at: nat): State {
    if at in st.registry && st.registry[at] < |st.conns| then
      State(st.conns[st.registry[at] := Release(st.conns[st.registry[at]])], st.registry - {at})
    else st
  }

  function Apply(st: State, step: Step): State
    requires Enabled(st, step)
  {
    match step
    case NewConnect(cfg) => st.(conns := st.conns + [NewConn(0, Connecting, cfg)])
    case NewAccept(at, cfg) => st.(conns := st.conns + [NewConn(at, Accepted, cfg)])
    case ConnectOk(c, at) => Put(st, c, st.conns[c].(addr := at, pc := Accepted))
    case ConnectErr(c) => Put(st, c, st.conns[c].(pc := ConnectFailed, events := st.conns[c].events + [OnConnectError]))
    case Handler(c, a) => Put(st, c, HandlerApply(st.conns[c], a))
    case Insert(c) =>
      var clear := DropEntry(st, st.conns[c].addr);     // insert drops an entry that it replaces
      State(clear.conns[c := clear.conns[c].(pc := Joining, stopper := Registered)],
            clear.registry[st.conns[c].addr := c])
    case Remove(c) =>
      var clear := DropEntry(st, st.conns[c].addr);
      Put(clear, c, clear.conns[c].(pc := Closing))
    case Call(c, f) =>
      var called := Put(st, c, st.conns[c].(fence := F.Apply(st.conns[c].fence, f)));
      if f.RemoveEntry? then DropEntry(called, st.conns[c].addr) else called
    case Sending(c, s) => Put(st, c, st.conns[c].(snd := S.Apply(st.conns[c].snd, s)))
    case Reading(c, r) => Put(st, c, st.conns[c].(rcv := R.Apply(st.conns[c].rcv, r)))
    case StopAll => State(seq(|st.conns|, i requires 0 <= i < |st.conns| => Release(st.conns[i])), map[])
  }

  function Exec(st: State, steps: seq<Step>): Option<State> {
    if steps == [] then Some(st)
    else
      var last := |steps| - 1;
      match Exec(st, steps[..last])
      case None => None
      case Some(m) => if Enabled(m, steps[last]) then Some(Apply(m, steps[last])) else None
  }
}

/**
 A sender, its writer task and the reader task of the peer, joined by a reliable FIFO
 byte pipe.  A dropped write half ends the stream just as a clean shutdown does.
 */
module EndToEnd {
  import opened Base
  import S = SendPath
  import SendInvariant
  import SendProgress
  import R = Receive

  datatype State = State(snd: S.State, rcv: R.State)

  datatype Step = Send(s: S.Step) | Receive(r: R.Step)

  function Init(autoWrite: bool, autoRead: bool, mem: seq<byte>): State {
    State(S.Init(autoWrite), R.Init(autoRead, mem))
  }

  /** The writer no longer holds the write half of the socket. */
  predicate WriteHalfClosed(pc: S.WriterPc) {
    pc == S.DoneOk || pc == S.Failed
  }

  /** The peer reads what is on the wire, in order, and sees the end only behind the last byte. */
  predicate PipeAllows(st: State, r: R.Step) {
    match r
    case ReadSome(bytes) => st.rcv.received + bytes <= st.snd.wire
    case ReadZero(eof) => eof ==> WriteHalfClosed(st.snd.wpc) && st.rcv.received == st.snd.wire
    case _ => true
  }

  predicate Enabled(st: State, step: Step) {
    match step
    case Send(s) => S.Enabled(st.snd, s)
    case Receive(r) => R.Enabled(st.rcv, r) && PipeAllows(st, r)
  }

  function Apply(st: State, step: Step): State
    requires Enabled(st, step)
  {
    match step
    case Send(s) => st.(snd := S.Apply(st.snd, s))
    case Receive(r) => st.(rcv := R.Apply(st.rcv, r))
  }

  function Exec(st: State, steps: seq<Step>): Option<State> {
    if steps == [] then Some(st)
    else
      var last := |steps| - 1;
      match Exec(st, steps[..last])
      case None => None
      case Some(m) => if Enabled(m, steps[last]) then Some(Apply(m, steps[last])) else None
  }

  predicate Inv(st: State) {
    && SendInvariant.Inv(st.snd) && R.Inv(st.rcv)
    && st.rcv.received <= st.snd.wire
    && (st.rcv.ended ==> WriteHalfClosed(st.snd.wpc) && st.rcv.received == st.snd.wire)
  }

  lemma SendKeepsPipe(snd: S.State, s: S.Step)
    requires S.Enabled(snd, s)
    ensures snd.wire <= S.Apply(snd, s).wire
    ensures WriteHalfClosed(snd.wpc) ==> S.Apply(snd, s).wpc == snd.wpc && S.Apply(snd, s).wire == snd.wire
  {
    match s
    case Snd(a) =>
    case Wrt(a) => SendProgress.WriterOnlyAppends(snd, a);
  }

  lemma ReceiveKeepsPipe(st: State, r: R.Step)
    requires Inv(st) && R.Enabled(st.rcv, r) && PipeAllows(st, r)
    ensures var t := R.Apply(st.rcv, r);
            && t.received <= st.snd.wire
            && (t.ended ==> WriteHalfClosed(st.snd.wpc) && t.received == st.snd.wire)
  {
  }

  lemma {:induction false} StepKeepsInv(st: State, step: Step)
    requires Inv(st) && Enabled(st, step)
    ensures Inv(Apply(st, step))
  {
    match step
    case Send(s) =>
      SendInvariant.StepKeepsInv(st.snd, s);
      SendKeepsPipe(st.snd, s);
    case Receive(r) =>
      R.StepKeepsInv(st.rcv, r);
      ReceiveKeepsPipe(st, r);
  }

  lemma {:induction false} RunKeepsInv(st: State, steps: seq<Step>)
    requires Inv(st)
    ensures Exec(st, steps).Some? ==> Inv(Exec(st, steps).value)
  {
    if steps != [] && Exec(st, steps).Some? {
      var last := |steps| - 1;
      RunKeepsInv(st, steps[..last]);
      StepKeepsInv(Exec(st, steps[..last]).value, steps[last]);
    }
  }

  /** In every run the peer's callback has a prefix of what the sender accepted, and all of it once
      both tasks have returned Ok. */
  lemma EndToEndDelivery(autoWrite: bool, autoRead: bool, mem: seq<byte>, steps: seq<Step>, t: State)
    requires |mem| > 0 && Exec(Init(autoWrite, autoRead, mem), steps) == Some(t)
    ensures t.rcv.delivered <= t.rcv.received <= t.snd.wire <= t.snd.accepted
    ensures t.snd.wpc == S.DoneOk && t.rcv.pc == R.DoneOk ==> t.rcv.delivered == t.snd.accepted
    ensures t.rcv.pc == R.DoneOk ==> WriteHalfClosed(t.snd.wpc) && t.rcv.delivered == t.snd.wire
  {
    var init := Init(autoWrite, autoRead, mem);
    SendInvariant.InitInv(autoWrite);
    RunKeepsInv(init, steps);
    if t.snd.wpc == S.DoneOk {
      SendProgress.NothingAheadAtTheEnd(t.snd);
    }
  }
}

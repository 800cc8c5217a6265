/**
 Everything arrives: once the sender is gone, the writer and the peer's reader have a bounded
 number of useful steps left, and one of them is possible until all is delivered.
 */
module EndToEndProgress {
  import opened Base
  import S = SendPath
  import SendInvariant
  import SendProgress
  import R = Receive
  import opened EndToEnd

  // ---------------------------------------------------------------- the reader's measure

  function PcWeight(pc: R.Pc): nat {
    match pc
    case Filled => 11
    case Top => 5
    case FillFlush => 4
    case FillRead => 3
    case TickFlush => 2
    case Ticked => 1
    case FinalFlush => 1
    case _ => 0
  }

  /** A bound on the useful steps of a reader that is to receive `total` bytes in all. */
  function Work(r: R.State, total: nat): nat {
    10 * Max(0, total - |r.received|) + Max(0, r.buf.w - r.buf.r) + (if r.hasData then 5 else 0) + PcWeight(r.pc)
  }

  /** The reader fails: an error of the socket or of the callback, an abort or a panic. */
  predicate Fails(r: R.Step) {
    r == R.ReadError || r == R.Abort || r.Panic? || (r.FlushPoll? && r.res == R.FlushError)
  }

  /** A poll of the callback that takes nothing and stays pending. */
  predicate Idle(r: R.Step) {
    r == R.FlushPoll(0, R.FlushPending)
  }

  predicate ReaderFailed(pc: R.Pc) {
    pc == R.DoneErr || pc == R.Panicked
  }

  lemma ReadLowersWork(r: R.State, bytes: seq<byte>, total: nat)
    requires R.Inv(r) && R.Enabled(r, R.ReadSome(bytes)) && |r.received| + |bytes| <= total
    ensures Work(R.Apply(r, R.ReadSome(bytes)), total) < Work(r, total)
  {
  }

  lemma PollLowersWork(r: R.State, k: nat, res: R.FlushResult, total: nat)
    requires R.Inv(r) && R.Enabled(r, R.FlushPoll(k, res)) && res != R.FlushError
    ensures var a := R.FlushPoll(k, res); Work(R.Apply(r, a), total) + (if Idle(a) then 0 else 1) <= Work(r, total)
  {
  }

  lemma QuietLowersWork(r: R.State, a: R.Step, total: nat)
    requires R.Inv(r) && R.Enabled(r, a) && !Fails(a) && !a.ReadSome? && !a.FlushPoll?
    ensures Work(R.Apply(r, a), total) < Work(r, total)
  {
  }

  lemma ReaderLowersWork(r: R.State, a: R.Step, total: nat)
    requires R.Inv(r) && R.Enabled(r, a) && !Fails(a) && !ReaderFailed(r.pc)
    requires a.ReadSome? ==> |r.received| + |a.bytes| <= total
    ensures Work(R.Apply(r, a), total) + (if Idle(a) then 0 else 1) <= Work(r, total)
    ensures !ReaderFailed(R.Apply(r, a).pc)
  {
    if a.ReadSome? {
      ReadLowersWork(r, a.bytes, total);
    } else if a.FlushPoll? {
      PollLowersWork(r, a.k, a.res, total);
    } else {
      QuietLowersWork(r, a, total);
    }
  }

  // ---------------------------------------------------------------- the whole system

  predicate Smooth(step: Step) {
    match step
    case Send(s) => s != S.Wrt(S.Fail)
    case Receive(r) => !Fails(r)
  }

  /** Every smooth step but an idle poll gets things on. */
  predicate Useful(step: Step) {
    Smooth(step) && !(step.Receive? && Idle(step.r))
  }

  function UsefulSteps(steps: seq<Step>): nat {
    if steps == [] then 0
    else UsefulSteps(steps[..|steps| - 1]) + (if Useful(steps[|steps| - 1]) then 1 else 0)
  }

  /** The sender is gone and neither task has failed. */
  predicate Finishing(st: State) {
    st.snd.spc == S.Gone && S.Running(st.snd.wpc) && !ReaderFailed(st.rcv.pc)
  }

  /** A bound on the useful steps that are left. */
  function Left(st: State): nat
    requires S.InRange(st.snd)
  {
    SendProgress.Todo(st.snd) + Work(st.rcv, |st.snd.accepted|)
  }

  lemma SendLowersLeft(st: State, s: S.Step)
    requires Inv(st) && Finishing(st) && Enabled(st, Send(s)) && Smooth(Send(s))
    ensures var t := Apply(st, Send(s));
            && S.InRange(t.snd) && Left(t) < Left(st)
            && Finishing(t) && t.snd.accepted == st.snd.accepted
  {
    match s
    case Snd(a) => SendProgress.GoneIsQuiet(st.snd, a);
    case Wrt(a) =>
      SendProgress.WriterLowersTodo(st.snd, a);
      SendProgress.WriterOnlyAppends(st.snd, a);
      WriterKeepsGone(st.snd, a);
  }

  lemma WriterKeepsGone(s: S.State, a: S.WriterStep)
    requires S.WriterEnabled(s, a)
    ensures S.WriterApply(s, a).spc == s.spc
  {
  }

  lemma StepLowersLeft(st: State, step: Step)
    requires Inv(st) && Finishing(st) && Enabled(st, step) && Smooth(step)
    ensures var t := Apply(st, step);
            && Inv(t) && Finishing(t) && t.snd.accepted == st.snd.accepted
            && Left(t) + (if Useful(step) then 1 else 0) <= Left(st)
  {
    StepKeepsInv(st, step);
    match step
    case Send(s) => SendLowersLeft(st, s);
    case Receive(r) =>
      WireIsAccepted(st.snd);
      ReaderLowersWork(st.rcv, r, |st.snd.accepted|);
  }

  lemma WireIsAccepted(s: S.State)
    requires SendInvariant.Inv(s)
    ensures s.wire <= s.accepted
  {
  }

  // ---------------------------------------------------------------- something is always possible

  /** A step that gets a reader on once the writer has shut the socket down. */
  function NextRead(st: State): R.Step {
    match st.rcv.pc
    case Top => R.Start
    case Filled => R.Arm
    case Ticked => R.Disarm
    case FillRead =>
      if |st.rcv.received| < |st.snd.wire| then R.ReadSome([st.snd.wire[|st.rcv.received|]]) else R.ReadZero(true)
    case _ => if st.rcv.buf.r <= st.rcv.buf.w then R.FlushPoll(st.rcv.buf.w - st.rcv.buf.r, R.FlushDone) else R.Start
  }

  lemma ReaderCanGoOn(st: State)
    requires Inv(st) && st.snd.wpc == S.DoneOk && !ReaderFailed(st.rcv.pc) && st.rcv.pc != R.DoneOk
    ensures Enabled(st, Receive(NextRead(st))) && Useful(Receive(NextRead(st)))
  {
    var rcv, wire := st.rcv, st.snd.wire;
    if rcv.pc == R.FillRead && |rcv.received| < |wire| {
      assert rcv.received + [wire[|rcv.received|]] == wire[..|rcv.received| + 1];
    }
  }

  lemma WriterCanGoOn(st: State) returns (a: S.WriterStep)
    requires Inv(st) && Finishing(st) && st.snd.wpc != S.DoneOk
    ensures S.WriterEnabled(st.snd, a) && a != S.Fail
  {
    if SendProgress.Blocked(st.snd) {
      SendProgress.BlockedShape(st.snd);
    }
    a :| S.WriterEnabled(st.snd, a) && a != S.Fail;
  }

  /** Some useful step is possible. */
  ghost predicate CanGoOn(st: State) {
    exists step :: Enabled(st, step) && Useful(step)
  }

  lemma GoesOnUntilDone(st: State)
    requires Inv(st) && Finishing(st)
    ensures CanGoOn(st) <==> st.rcv.pc != R.DoneOk
    ensures st.rcv.pc == R.DoneOk ==> st.snd.wpc == S.DoneOk && st.rcv.delivered == st.snd.accepted
  {
    if st.snd.wpc != S.DoneOk {
      var a := WriterCanGoOn(st);
      assert Enabled(st, Send(S.Wrt(a))) && Useful(Send(S.Wrt(a)));
    } else if st.rcv.pc != R.DoneOk {
      ReaderCanGoOn(st);
    } else {
      SendProgress.NothingAheadAtTheEnd(st.snd);
      NothingAfterDone(st);
    }
  }

  lemma NothingAfterDone(st: State)
    requires st.snd.wpc == S.DoneOk && st.snd.spc == S.Gone && st.rcv.pc == R.DoneOk
    ensures forall step :: !Enabled(st, step)
  {
    forall a: S.SenderStep
      ensures !S.SenderEnabled(st.snd, a)
    {
      SendProgress.GoneIsQuiet(st.snd, a);
    }
  }

  // ---------------------------------------------------------------- every run

  lemma {:induction false} LeftGoesDown(s: State, steps: seq<Step>, t: State)
    requires Inv(s) && Finishing(s) && Exec(s, steps) == Some(t)
    requires forall i :: 0 <= i < |steps| ==> Smooth(steps[i])
    ensures Inv(t) && Finishing(t) && t.snd.accepted == s.snd.accepted
    ensures UsefulSteps(steps) + Left(t) <= Left(s)
    decreases |steps|
  {
    if steps != [] {
      var last := |steps| - 1;
      var m := Exec(s, steps[..last]).value;
      LeftGoesDown(s, steps[..last], m);
      StepLowersLeft(m, steps[last]);
    }
  }

  /** From the drop of the sender on, whatever the schedule: as long as nothing fails there are at most
      Left(s) useful steps, one is possible until the peer's reader has returned, and then its callback
      has had exactly what the sender had accepted. */
  lemma {:induction false} EverythingArrives(
    autoWrite: bool, autoRead: bool, mem: seq<byte>, before: seq<Step>, s: State, steps: seq<Step>, t: State)
    requires |mem| > 0 && Exec(Init(autoWrite, autoRead, mem), before) == Some(s) && Finishing(s)
    requires Exec(s, steps) == Some(t) && forall i :: 0 <= i < |steps| ==> Smooth(steps[i])
    ensures S.InRange(s.snd) && UsefulSteps(steps) <= Left(s)
    ensures CanGoOn(t) <==> t.rcv.pc != R.DoneOk
    ensures t.rcv.pc == R.DoneOk ==> t.rcv.delivered == s.snd.accepted
  {
    SendInvariant.InitInv(autoWrite);
    RunKeepsInv(Init(autoWrite, autoRead, mem), before);
    LeftGoesDown(s, steps, t);
    GoesOnUntilDone(t);
  }
}

/**
 The receive path as a step system: the reader task, its buffer between socket and
 `on_msg` callback, and the cancellation of a `fill_flush` future when a tick fires.
 */
module Receive {
  import opened Base

  // ---------------------------------------------------------------- the callback

  /** The result of one poll_write on the callback. */
  datatype PollWrite = WritePending | WriteOk(n: nat) | WriteErr | WritePanic

  /** What a callback answers: it threw, or it returned a number. */
  datatype Answer = Answer(err: bool, result: int)

  /** How the foreign callback's error pointer and return value become a poll result. */
  function CallInner(a: Answer, len: nat): PollWrite {
    if a.err then WriteErr
    else if a.result > 0 then (if a.result <= len then WriteOk(a.result) else WritePanic)
    else WritePending
  }

  /** The same for a Rust callback, which may say that it is ready and took 0 bytes; a negative number
      stands for Pending. */
  function CallNative(a: Answer, len: nat): PollWrite {
    if a.err then WriteErr
    else if a.result < 0 then WritePending
    else if a.result <= len then WriteOk(a.result) else WritePanic
  }

  /** How many of the `len` bytes offered the callback itself says it has taken. */
  function SaysTaken(a: Answer, len: nat): nat {
    if !a.err && 0 < a.result <= len then a.result else 0
  }

  /** The buffer size that handle_reader uses. */
  function ClampBufferSize(size: nat): (r: nat)
    ensures size < MIN_MSG_BUFFER_SIZE ==> r == MIN_MSG_BUFFER_SIZE
    ensures MIN_MSG_BUFFER_SIZE <= size <= MAX_MSG_BUFFER_SIZE ==> r == size
    ensures size > MAX_MSG_BUFFER_SIZE ==> r == MAX_MSG_BUFFER_SIZE
  {
    Max(Min(size, MAX_MSG_BUFFER_SIZE), MIN_MSG_BUFFER_SIZE)
  }

  // ---------------------------------------------------------------- the buffer

  datatype Buf = Buf(mem: seq<byte>, r: nat, w: nat)

  predicate BufOk(b: Buf) {
    b.r <= b.w <= |b.mem| && |b.mem| > 0
  }

  /** Bytes read and not yet delivered. */
  function Held(b: Buf): seq<byte>
    requires BufOk(b)
  {
    b.mem[b.r..b.w]
  }

  datatype FlushResult = FlushDone | FlushPending | FlushError

  /** One poll of write_all delivers k bytes; it stops short only when the callback does. */
  predicate PollAllowed(b: Buf, k: nat, res: FlushResult) {
    BufOk(b) && (if res == FlushDone then k == b.w - b.r else b.r + k < b.w)
  }

  function AfterPoll(b: Buf, k: nat, res: FlushResult): Buf {
    if res == FlushDone then b.(r := 0, w := 0) else b.(r := b.r + k)
  }

  /** read(&mut buf[w_offset..]) stored some bytes. */
  function AfterRead(b: Buf, bytes: seq<byte>): Buf
    requires b.w + |bytes| <= |b.mem|
  {
    Buf(b.mem[..b.w] + bytes + b.mem[b.w + |bytes|..], b.r, b.w + |bytes|)
  }

  lemma ReadLandsBehind(b: Buf, bytes: seq<byte>)
    requires b.w + |bytes| <= |b.mem|
    ensures AfterRead(b, bytes).mem[..b.w] == b.mem[..b.w]
    ensures AfterRead(b, bytes).mem[b.w..b.w + |bytes|] == bytes
  {
  }

  // ---------------------------------------------------------------- the reader task

  datatype Pc =
    | Top            // about to build the next fill_flush future
    | FillFlush      // fill_flush: buffer was full, its inner flush is in progress
    | FillRead       // fill_flush: awaiting read
    | Filled         // fill_flush returned some bytes
    | TickFlush      // the tick branch: flush in progress
    | Ticked         // the tick branch: flush completed
    | FinalFlush     // after end of stream
    | DoneOk
    | DoneErr        // I/O error, callback error or abort
    | Panicked       // the callback claimed more bytes than it was offered

  datatype State = State(
    auto: bool,               // read_msg_flush_interval is not zero
    buf: Buf,
    hasData: bool,
    pc: Pc,
    received: seq<byte>,      // all bytes read from the socket
    delivered: seq<byte>,     // all bytes accepted by on_msg
    ended: bool)              // the socket reported end of stream

  function Init(auto: bool, mem: seq<byte>): State {
    State(auto, Buf(mem, 0, 0), false, Top, [], [], false)
  }

  datatype Step =
    | Start
    | FlushPoll(k: nat, res: FlushResult)
    | ReadSome(bytes: seq<byte>)
    | Arm                                     // has_data = true
    | ReadZero(eof: bool)                     // read returned 0
    | ReadError
    | Tick                                    // the select drops the fill_flush future
    | Disarm                                  // has_data = false
    | Abort
    | Panic(k: nat)                           // k bytes were delivered in the poll that panicked

  predicate Flushing(pc: Pc) {
    pc == FillFlush || pc == TickFlush || pc == FinalFlush
  }

  predicate Enabled(s: State, step: Step) {
    && BufOk(s.buf)
    && match step
       case Start => s.pc == Top
       case FlushPoll(k, res) => Flushing(s.pc) && PollAllowed(s.buf, k, res)
       case ReadSome(bytes) => s.pc == FillRead && 1 <= |bytes| <= |s.buf.mem| - s.buf.w
       case Arm => s.pc == Filled
       case ReadZero(eof) => s.pc == FillRead && (eof || s.buf.w == |s.buf.mem|)   // an empty slice also reads 0
       case ReadError => s.pc == FillRead
       case Tick => s.auto && s.hasData && (s.pc == FillFlush || s.pc == FillRead)
       case Disarm => s.pc == Ticked
       case Abort => Flushing(s.pc) || s.pc == FillRead
       case Panic(k) => Flushing(s.pc) && s.buf.r + k < s.buf.w
  }

  /** Where a flush in progress leads once it has succeeded. */
  function AfterFlush(s: State): State {
    match s.pc
    case FillFlush => s.(pc := FillRead)
    case TickFlush => s.(pc := Ticked)
    case _ => s.(pc := DoneOk)
  }

  function Apply(s: State, step: Step): State
    requires Enabled(s, step)
  {
    match step
    case Start => s.(pc := if s.buf.w == |s.buf.mem| then FillFlush else FillRead)
    case FlushPoll(k, res) =>
      var t := s.(buf := AfterPoll(s.buf, k, res), delivered := s.delivered + Held(s.buf)[..k]);
      (match res
       case FlushDone => AfterFlush(t)
       case FlushPending => t
       case FlushError => t.(pc := DoneErr))
    case ReadSome(bytes) =>
      s.(buf := AfterRead(s.buf, bytes), received := s.received + bytes, pc := Filled)
    case Arm => s.(hasData := true, pc := Top)
    case ReadZero(eof) => s.(pc := FinalFlush, ended := s.ended || eof)
    case ReadError => s.(pc := DoneErr)
    case Tick => s.(pc := TickFlush)
    case Disarm => s.(hasData := false, pc := Top)
    case Abort => s.(pc := DoneErr)
    case Panic(k) => s.(delivered := s.delivered + Held(s.buf)[..k], pc := Panicked)
  }

  function Exec(s: State, steps: seq<Step>): Option<State> {
    if steps == [] then Some(s)
    else
      var last := |steps| - 1;
      match Exec(s, steps[..last])
      case None => None
      case Some(m) => if Enabled(m, steps[last]) then Some(Apply(m, steps[last])) else None
  }

  ghost predicate Reaches(auto: bool, mem: seq<byte>, steps: seq<Step>, t: State) {
    |mem| > 0 && Exec(Init(auto, mem), steps) == Some(t)
  }

  // ---------------------------------------------------------------- the invariant

  predicate Inv(s: State) {
    && BufOk(s.buf)
    && (if s.pc == Panicked then s.delivered <= s.received else s.received == s.delivered + Held(s.buf))
    && (s.pc == Top || s.pc == FillRead || s.pc == Filled ==> s.buf.r == 0)
    && (s.pc == FillRead ==> s.buf.w < |s.buf.mem|)
    && ((s.pc == Top || s.pc == FillFlush || s.pc == FillRead) && !s.hasData ==> s.buf.w == 0)
    && (s.pc == FinalFlush || s.pc == DoneOk ==> s.ended)
    && (s.pc == DoneOk || s.pc == Ticked ==> s.buf.w == 0)
    && (s.pc == TickFlush || s.pc == Ticked ==> s.hasData && s.auto)
    && (s.pc == FillFlush ==> s.buf.w == |s.buf.mem|)
  }

  lemma ReadKeepsInv(s: State, bytes: seq<byte>)
    requires Inv(s) && Enabled(s, ReadSome(bytes))
    ensures Inv(Apply(s, ReadSome(bytes)))
  {
    ReadConserves(s.delivered, s.buf, bytes);
  }

  lemma PollKeepsInv(s: State, k: nat, res: FlushResult)
    requires Inv(s) && Enabled(s, FlushPoll(k, res))
    ensures Inv(Apply(s, FlushPoll(k, res)))
  {
    PollConserves(s.delivered, s.buf, k, res);
    var t := Apply(s, FlushPoll(k, res));
    assert t.received == t.delivered + Held(t.buf);
  }

  lemma PollConserves(delivered: seq<byte>, b: Buf, k: nat, res: FlushResult)
    requires PollAllowed(b, k, res)
    ensures BufOk(AfterPoll(b, k, res)) && k <= |Held(b)|
    ensures delivered + Held(b) == delivered + Held(b)[..k] + Held(AfterPoll(b, k, res))
  {
  }

  lemma ReadConserves(delivered: seq<byte>, b: Buf, bytes: seq<byte>)
    requires BufOk(b) && b.w + |bytes| <= |b.mem|
    ensures BufOk(AfterRead(b, bytes))
    ensures delivered + Held(b) + bytes == delivered + Held(AfterRead(b, bytes))
  {
  }

  lemma {:induction false} StepKeepsInv(s: State, step: Step)
    requires Inv(s) && Enabled(s, step)
    ensures Inv(Apply(s, step))
  {
    match step
    case FlushPoll(k, res) => PollKeepsInv(s, k, res);
    case ReadSome(bytes) => ReadKeepsInv(s, bytes);
    case Panic(k) => PanicKeepsInv(s, k);
    case _ => QuietKeepsInv(s, step);
  }

  lemma PanicKeepsInv(s: State, k: nat)
    requires Inv(s) && Enabled(s, Panic(k))
    ensures Inv(Apply(s, Panic(k)))
  {
    var held := Held(s.buf);
    assert s.delivered + held == s.delivered + held[..k] + held[k..];
  }

  /** The other steps move no byte. */
  lemma QuietKeepsInv(s: State, step: Step)
    requires Inv(s) && Enabled(s, step) && !step.FlushPoll? && !step.ReadSome? && !step.Panic?
    ensures Inv(Apply(s, step))
  {
    var t := Apply(s, step);
    assert t == s.(pc := t.pc, hasData := t.hasData, ended := t.ended);
  }

  lemma {:induction false} RunKeepsInv(s: State, steps: seq<Step>)
    requires Inv(s)
    ensures Exec(s, steps).Some? ==> Inv(Exec(s, steps).value)
  {
    if steps != [] && Exec(s, steps).Some? {
      var last := |steps| - 1;
      RunKeepsInv(s, steps[..last]);
      StepKeepsInv(Exec(s, steps[..last]).value, steps[last]);
    }
  }

  // ---------------------------------------------------------------- every run

  /** Whatever is polled, dropped, accepted in part or failed, each byte read is delivered or still
      between the offsets, in order.  Only a panic, which ends the reader, can lose track of the
      bytes of its own poll. */
  lemma CancellationSafe(auto: bool, mem: seq<byte>, steps: seq<Step>, t: State)
    requires Reaches(auto, mem, steps, t)
    ensures t.buf.r <= t.buf.w <= |t.buf.mem| && t.delivered <= t.received
    ensures t.pc != Panicked ==> t.received == t.delivered + t.buf.mem[t.buf.r..t.buf.w]
  {
    RunKeepsInv(Init(auto, mem), steps);
  }

  /** With the tick disarmed, every select starts from an empty buffer. */
  lemma NoStrandedBytes(auto: bool, mem: seq<byte>, steps: seq<Step>, t: State)
    requires Reaches(auto, mem, steps, t) && (t.pc == Top || t.pc == FillFlush || t.pc == FillRead) && !t.hasData
    ensures t.buf.w == 0 && t.delivered == t.received
  {
    RunKeepsInv(Init(auto, mem), steps);
  }

  /** The callback is called for a full buffer, at the end of the stream or because of a tick, and without a
      flush interval there are no ticks. */
  lemma CalledForABatch(auto: bool, mem: seq<byte>, steps: seq<Step>, t: State, k: nat, res: FlushResult)
    requires Reaches(auto, mem, steps, t) && Enabled(t, FlushPoll(k, res))
    ensures t.buf.w == |t.buf.mem| || t.ended || (auto && t.hasData && t.pc == TickFlush)
  {
    RunKeepsInv(Init(auto, mem), steps);
    RunKeepsAuto(Init(auto, mem), steps);
  }

  lemma {:induction false} RunKeepsAuto(s: State, steps: seq<Step>)
    ensures Exec(s, steps).Some? ==> Exec(s, steps).value.auto == s.auto
  {
    if steps != [] && Exec(s, steps).Some? {
      RunKeepsAuto(s, steps[..|steps| - 1]);
    }
  }

  /** The slice handed to read is never empty, so a read of 0 bytes always is the end of the stream. */
  lemma {:induction false} ZeroMeansEnd(auto: bool, mem: seq<byte>, steps: seq<Step>, t: State, eof: bool)
    requires Reaches(auto, mem, steps, t) && Enabled(t, ReadZero(eof))
    ensures eof
  {
    RunKeepsInv(Init(auto, mem), steps);
  }

  /** A reader that returns Ok has seen the end of the stream and delivered everything before it. */
  lemma CleanEnd(auto: bool, mem: seq<byte>, steps: seq<Step>, t: State)
    requires Reaches(auto, mem, steps, t) && t.pc == DoneOk
    ensures t.ended && t.delivered == t.received
    ensures forall step :: !Enabled(t, step)
  {
    RunKeepsInv(Init(auto, mem), steps);
  }

  /** Ticks change only how the bytes are cut up: with and without them, a clean end on the same
      input delivers the same stream. */
  lemma TicksOnlyChunk(mem: seq<byte>, mem': seq<byte>, ticking: seq<Step>, plain: seq<Step>, t: State, u: State)
    requires Reaches(true, mem, ticking, t) && Reaches(false, mem', plain, u)
    requires t.pc == DoneOk && u.pc == DoneOk && t.received == u.received
    ensures t.delivered == u.delivered
  {
    CleanEnd(true, mem, ticking, t);
    CleanEnd(false, mem', plain, u);
  }
}

/**
 The send path as a step system: one `MsgSender` and one writer task that share a
 heap of ring buffers and a channel of ring consumers.

 Every step is one atomic action on the shared data, so a run of the system is one
 interleaving of the two sides.  The histories `accepted` (bytes taken from the
 caller) and `wire` (bytes handed to the socket) only ever grow.
 */
module SendPath {
  import opened Base

  /** A bounded single-producer single-consumer queue of bytes.
      `prodAlive` and `consAlive` say which ends are still held; `waker` says that the
      producer's waker is registered and has not been taken yet. */
  datatype Ring = Ring(cap: nat, data: seq<byte>, prodAlive: bool, consAlive: bool, waker: bool)

  function NewRing(cap: nat): Ring {
    Ring(cap, [], true, true, false)
  }

  function Free(r: Ring): nat {
    if |r.data| <= r.cap then r.cap - |r.data| else 0
  }

  /** How many of `n` offered bytes `push_slice` takes. */
  function PushCount(r: Ring, n: nat): nat {
    Min(Free(r), n)
  }

  function Push(r: Ring, bytes: seq<byte>): Ring {
    r.(data := r.data + bytes[..PushCount(r, |bytes|)])
  }

  // ---------------------------------------------------------------- sender, on its own ring

  /** Where the sender is inside its current call. */
  datatype SenderPc =
    | Idle                                            // between atomic actions of a plain call, or outside any call
    | Swap                                            // new ring sent, old producer not yet dropped
    | AsyncCheck(registered: bool, msg: seq<byte>)    // send_async: about to test is_closed
    | AsyncPush(registered: bool, msg: seq<byte>)     // send_async: about to push
    | AsyncRegister(msg: seq<byte>)                   // send_async: about to register the waker
    | RingDropped                                     // drop: ring_buf gone, rings_prd still alive
    | Gone

  datatype SenderStep =
    | PushSlice(bytes: seq<byte>)      // one push_slice of burst_write or poll_write
    | BlockRegister                    // poll_write registers the waker of block_on
    | AsyncBegin(bytes: seq<byte>)
    | AsyncTestClosed
    | AsyncTryPush
    | AsyncRegisterWaker
    | DropProducer
    | SendRing(rest: seq<byte>)        // new ring, filled with rest, sent down the channel
    | SendRingFails                    // the receiver is gone
    | SwapRing                         // self.ring_buf = ring_buf
    | DropChannel

  /** The effect of a step that touches only the sender's ring: the ring and program counter
      after it, the bytes it took, whether send_async has just returned Pending, and whether
      a waker was registered. */
  datatype Call = Call(ring: Ring, pc: SenderPc, taken: seq<byte>, pending: bool, armed: bool)

  predicate CallEnabled(pc: SenderPc, a: SenderStep) {
    match a
    case PushSlice(bytes) => pc == Idle && bytes != []
    case BlockRegister => pc == Idle
    case AsyncBegin(bytes) => pc == Idle && bytes != []
    case AsyncTestClosed => pc.AsyncCheck?
    case AsyncTryPush => pc.AsyncPush?
    case AsyncRegisterWaker => pc.AsyncRegister?
    case DropProducer => pc == Idle
    case _ => false
  }

  function PushCall(r: Ring, bytes: seq<byte>): Call {
    Call(Push(r, bytes), Idle, bytes[..PushCount(r, |bytes|)], false, false)
  }

  function CallApply(r: Ring, pc: SenderPc, a: SenderStep): Call
    requires CallEnabled(pc, a)
  {
    match a
    case PushSlice(bytes) => PushCall(r, bytes)
    case BlockRegister => Call(r.(waker := true), Idle, [], false, true)
    case AsyncBegin(bytes) => Call(r, AsyncCheck(false, bytes), [], false, false)
    case AsyncTestClosed =>
      Call(r, if r.consAlive then AsyncPush(pc.registered, pc.msg) else Idle, [], false, false)
    case AsyncTryPush =>
      if PushCount(r, |pc.msg|) > 0 then PushCall(r, pc.msg)
      else if pc.registered then Call(r, Idle, [], true, false)
      else Call(r, AsyncRegister(pc.msg), [], false, false)
    case AsyncRegisterWaker => Call(r.(waker := true), AsyncCheck(true, pc.msg), [], false, true)
    case DropProducer => Call(r.(prodAlive := false), RingDropped, [], false, false)
  }

  // ---------------------------------------------------------------- writer, on the ring it holds

  /** Where the writer is in the handling of one ring. */
  datatype Phase =
    | Select(tick: bool)                   // select, with the current tick_flush
    | Check(tick: bool)                    // wait_occupied resolved, about to test is_closed
    | Occupancy(tick: bool)                // not closed, about to compare occupied_len
    | Look(drain: bool)                    // flush: about to take as_slices
    | Writing(drain: bool, left: nat)      // flush: write(left) in progress
    | Advance(drain: bool, count: nat)     // flush: about to advance the read index
    | WakeUp(drain: bool)                  // read index moved, producer waker not yet woken
    | Drained                              // cleared and dropped, on to the next ring
    | DropRing                             // unwinding: consumer about to be dropped
    | DropRingWake                         // unwinding: consumer dropped, producer waker not yet woken
    | Unwound

  datatype WriterStep =
    | ReceiveRing
    | ReceiveNone
    | OccupiedResolves                 // wait_occupied branch of the select
    | TickFires                        // flush_tick branch of the select
    | TestClosed
    | CompareOccupancy
    | TakeSlices(left: nat)            // the left slice has `left` bytes; ignored when the ring is empty
    | WriteSome(count: nat)            // the socket took count bytes
    | AdvanceRead
    | Wake
    | ShutdownOk
    | Fail                             // I/O error, or the task is aborted at an await
    | Unwind                           // the next drop after Fail

  /** The argument of wait_occupied. */
  function Threshold(tick: bool): nat {
    if tick then MIN_MSG_BUFFER_SIZE else 1
  }

  /** wait_occupied(n) resolves on occupancy or on a dropped producer. */
  predicate OccupiedReady(r: Ring, n: nat) {
    |r.data| >= n || !r.prodAlive
  }

  /** The effect of a writer step on the ring it holds: the ring and phase after it, the bytes
      handed to the socket, and whether the producer was woken. */
  datatype Hold = Hold(ring: Ring, phase: Phase, out: seq<byte>, woke: bool)

  predicate PhaseInRange(r: Ring, ph: Phase) {
    (ph.Writing? ==> ph.left <= |r.data|) && (ph.Advance? ==> ph.count <= |r.data|)
  }

  predicate HoldEnabled(auto: bool, r: Ring, ph: Phase, a: WriterStep) {
    && PhaseInRange(r, ph)
    && match a
       case OccupiedResolves => ph.Select? && OccupiedReady(r, Threshold(ph.tick))
       case TickFires => auto && ph.Select? && ph.tick
       case TestClosed => ph.Check?
       case CompareOccupancy => ph.Occupancy?
       case TakeSlices(left) => ph.Look? && (r.data != [] ==> 1 <= left <= |r.data|)
       case WriteSome(count) => ph.Writing? && 1 <= count <= ph.left
       case AdvanceRead => ph.Advance?
       case Wake => ph.WakeUp?
       case Fail => ph.Select? || ph.Writing?
       case Unwind => ph == DropRing || ph == DropRingWake
       case _ => false
  }

  function Goto(r: Ring, ph: Phase): Hold {
    Hold(r, ph, [], false)
  }

  function HoldApply(auto: bool, r: Ring, ph: Phase, a: WriterStep): Hold
    requires HoldEnabled(auto, r, ph, a)
  {
    match a
    case OccupiedResolves => Goto(r, Check(ph.tick))
    case TickFires => Goto(r, Look(false))
    case TestClosed =>
      Goto(r, if !r.prodAlive then Look(true) else if auto then Occupancy(ph.tick) else Look(false))
    case CompareOccupancy =>
      Goto(r, if |r.data| < MIN_MSG_BUFFER_SIZE then Select(true) else Look(false))
    case TakeSlices(left) =>
      if r.data != [] then Goto(r, Writing(ph.drain, left))
      else if ph.drain then Goto(r.(consAlive := false), Drained)
      else Goto(r, Select(!auto))
    case WriteSome(count) => Hold(r, Advance(ph.drain, count), r.data[..count], false)
    case AdvanceRead => Goto(r.(data := r.data[ph.count..]), WakeUp(ph.drain))
    case Wake => Hold(r.(waker := false), Look(ph.drain), [], r.waker)
    case Fail => Goto(r, DropRing)
    case Unwind =>
      if ph == DropRing then Goto(r.(consAlive := false), DropRingWake)
      else Hold(r.(waker := false), Unwound, [], r.waker)
  }

  // ---------------------------------------------------------------- the whole system

  datatype WriterPc =
    | Recv                                            // rings.recv()
    | Holding(ring: nat, phase: Phase)
    | Shutdown                                        // about to shut the socket down
    | DoneOk
    | DropReceiver                                    // unwinding: channel receiver about to be dropped
    | DropQueue(ids: seq<nat>)                        // unwinding: queued consumers being dropped
    | DropQueueWake(ids: seq<nat>)
    | Failed

  datatype State = State(
    auto: bool,             // write_flush_interval is not zero
    heap: seq<Ring>,        // every ring ever sent to the writer, in order of creation
    sring: nat,             // the ring behind MsgSender.ring_buf
    spc: SenderPc,
    parked: bool,           // the last call was a send_async that returned Pending
    notified: bool,         // the waker registered last has been woken
    accepted: seq<byte>,
    queue: seq<nat>,        // consumers in the channel
    rxOpen: bool,           // channel receiver not dropped
    wpc: WriterPc,
    wire: seq<byte>)

  /** make_sender, with the writer task about to receive its first ring. */
  function Init(auto: bool): State {
    State(auto, [NewRing(RING_BUFFER_SIZE)], 0, Idle, false, false, [], [0], true, Recv, [])
  }

  /** Indices held by the two sides are in range. */
  predicate InRange(s: State) {
    && s.sring < |s.heap|
    && (forall i :: 0 <= i < |s.queue| ==> s.queue[i] < |s.heap|)
    && match s.wpc
       case Holding(r, _) => r < |s.heap|
       case DropQueue(ids) => forall i :: 0 <= i < |ids| ==> ids[i] < |s.heap|
       case DropQueueWake(ids) => |ids| > 0 && forall i :: 0 <= i < |ids| ==> ids[i] < |s.heap|
       case _ => true
  }

  predicate SenderEnabled(s: State, a: SenderStep) {
    && InRange(s)
    && match a
       case SendRing(_) => s.spc == Idle && s.rxOpen
       case SendRingFails => s.spc == Idle && !s.rxOpen
       case SwapRing => s.spc == Swap
       case DropChannel => s.spc == RingDropped
       case _ => CallEnabled(s.spc, a)
  }

  function OverflowRing(rest: seq<byte>): Ring {
    Push(NewRing(Max(RING_BUFFER_SIZE, |rest|)), rest)
  }

  function AfterCall(s: State, c: Call): State
    requires s.sring < |s.heap|
  {
    s.(heap := s.heap[s.sring := c.ring], spc := c.pc, accepted := s.accepted + c.taken,
       parked := c.pending, notified := s.notified && !c.armed)
  }

  function SenderApply(s: State, a: SenderStep): State
    requires SenderEnabled(s, a)
  {
    match a
    case SendRing(rest) =>
      var added := OverflowRing(rest);
      s.(heap := s.heap + [added], queue := s.queue + [|s.heap|],
         accepted := s.accepted + added.data, spc := Swap, parked := false)
    case SendRingFails => s.(parked := false)
    case SwapRing =>
      s.(heap := s.heap[s.sring := s.heap[s.sring].(prodAlive := false)], sring := |s.heap| - 1, spc := Idle)
    case DropChannel => s.(spc := Gone)
    case _ => AfterCall(s, CallApply(s.heap[s.sring], s.spc, a))
  }

  predicate WriterEnabled(s: State, a: WriterStep) {
    && InRange(s)
    && match s.wpc
       case Recv =>
         (a == ReceiveRing && s.queue != []) || (a == ReceiveNone && s.queue == [] && s.spc == Gone) || a == Fail
       case Holding(r, ph) => HoldEnabled(s.auto, s.heap[r], ph, a)
       case Shutdown => a == ShutdownOk || a == Fail
       case DropReceiver => a == Unwind
       case DropQueue(_) => a == Unwind
       case DropQueueWake(_) => a == Unwind
       case _ => false
  }

  /** Back at the channel once a ring has been handled. */
  function NextPc(r: nat, ph: Phase): WriterPc {
    if ph == Drained then Recv else if ph == Unwound then DropReceiver else Holding(r, ph)
  }

  function AfterHold(s: State, r: nat, h: Hold): State
    requires r < |s.heap|
  {
    s.(heap := s.heap[r := h.ring], wpc := NextPc(r, h.phase), wire := s.wire + h.out,
       notified := s.notified || (h.woke && r == s.sring))
  }

  function WriterApply(s: State, a: WriterStep): State
    requires WriterEnabled(s, a)
  {
    match s.wpc
    case Recv =>
      if a == ReceiveRing then s.(wpc := Holding(s.queue[0], Select(true)), queue := s.queue[1..])
      else if a == ReceiveNone then s.(wpc := Shutdown)
      else s.(wpc := DropReceiver)
    case Holding(r, ph) => AfterHold(s, r, HoldApply(s.auto, s.heap[r], ph, a))
    case Shutdown => if a == ShutdownOk then s.(wpc := DoneOk, rxOpen := false) else s.(wpc := DropReceiver)
    case DropReceiver => s.(rxOpen := false, wpc := DropQueue(s.queue), queue := [])
    case DropQueue(ids) =>
      if ids == [] then s.(wpc := Failed)
      else s.(heap := s.heap[ids[0] := s.heap[ids[0]].(consAlive := false)], wpc := DropQueueWake(ids))
    case DropQueueWake(ids) =>
      s.(heap := s.heap[ids[0] := s.heap[ids[0]].(waker := false)], wpc := DropQueue(ids[1..]),
         notified := s.notified || (ids[0] == s.sring && s.heap[ids[0]].waker))
  }

  // ---------------------------------------------------------------- runs

  datatype Step = Snd(snd: SenderStep) | Wrt(wrt: WriterStep)

  predicate Enabled(s: State, step: Step) {
    match step
    case Snd(a) => SenderEnabled(s, a)
    case Wrt(a) => WriterEnabled(s, a)
  }

  function Apply(s: State, step: Step): State
    requires Enabled(s, step)
  {
    match step
    case Snd(a) => SenderApply(s, a)
    case Wrt(a) => WriterApply(s, a)
  }

  /** The state after the given steps, or None if some step is not enabled. */
  function Exec(s: State, steps: seq<Step>): Option<State> {
    if steps == [] then Some(s)
    else
      var last := |steps| - 1;
      match Exec(s, steps[..last])
      case None => None
      case Some(m) => if Enabled(m, steps[last]) then Some(Apply(m, steps[last])) else None
  }

  // ---------------------------------------------------------------- bytes in flight

  /** The bytes of a ring that are not on the wire: a written slice stays in the ring until the
      read index moves. */
  function Unwritten(r: Ring, ph: Phase): seq<byte> {
    if ph.Advance? && ph.count <= |r.data| then r.data[ph.count..] else r.data
  }

  /** Unwritten bytes of ring i. */
  function Rest(s: State, i: nat): seq<byte>
    requires i < |s.heap|
  {
    if s.wpc.Holding? && s.wpc.ring == i then Unwritten(s.heap[i], s.wpc.phase) else s.heap[i].data
  }

  function Flat(parts: seq<seq<byte>>): seq<byte> {
    if parts == [] then [] else parts[0] + Flat(parts[1..])
  }

  /** Unwritten bytes of all rings, oldest ring first. */
  function Parts(s: State): seq<seq<byte>> {
    seq(|s.heap|, i requires 0 <= i < |s.heap| => Rest(s, i))
  }

  /** The first ring that the writer has not finished with. */
  function FirstUnfinished(s: State): int {
    if s.wpc.Holding? then s.wpc.ring else |s.heap| - |s.queue|
  }

  /** The receiver has not been dropped by an unwinding writer. */
  predicate Attached(pc: WriterPc) {
    !pc.DropQueue? && !pc.DropQueueWake? && !pc.Failed?
  }

  /** The writer has neither failed nor been aborted. */
  predicate Running(pc: WriterPc) {
    && Attached(pc) && pc != DropReceiver
    && (pc.Holding? ==> pc.phase != DropRing && pc.phase != DropRingWake)
  }
}

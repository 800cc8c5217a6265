/**
 The reader task as it is written: `BufReadWrite` updates a fixed buffer and two offsets
 in place, and its futures may be dropped at any await.

 A future may stay pending for ever, so the methods that await take a budget of polls
 and of select rounds.
 */
module ReaderTask {
  import opened Base
  import opened Receive

  datatype PollOutcome = Polled(res: FlushResult) | PollPanicked

  datatype AwaitResult = Completed | Errored | StillPending

  datatype FillResult = Read(n: nat) | Failed | Dropped

  /** What the socket has for a read: nothing yet, an error, or bytes, of which none means the end. */
  datatype SocketRead = NotYet | Broken | Bytes(bytes: seq<byte>)

  /** What becomes of a read into `room` bytes. */
  function Outcome(io: SocketRead, room: nat): FillResult {
    match io
    case NotYet => Dropped
    case Broken => Failed
    case Bytes(bytes) => Read(Min(|bytes|, room))
  }

  datatype Exit = Finished | Error | StillRunning

  class Reader {
    const auto: bool
    const foreign: bool      // on_msg comes through the C API
    // BufReadWrite
    const buf: array<byte>
    var rOffset: nat
    var wOffset: nat
    // the select loop
    var hasData: bool
    // socket and callback, seen through what has passed
    var received: seq<byte>
    var delivered: seq<byte>
    var ended: bool
    ghost var pc: Pc
    ghost var log: seq<Step>
    ghost const mem: seq<byte>

    ghost function Snapshot(): State
      reads this, buf
    {
      State(auto, Buf(buf[..], rOffset, wOffset), hasData, pc, received, delivered, ended)
    }

    ghost predicate Valid()
      reads this, buf
    {
      Reaches(auto, mem, log, Snapshot())
    }

    constructor (auto: bool, foreign: bool, size: nat)
      ensures Valid() && pc == Top && log == [] && received == [] && delivered == []
      ensures this.auto == auto && this.foreign == foreign && buf.Length == ClampBufferSize(size) && fresh(buf)
    {
      this.auto, this.foreign := auto, foreign;
      buf := new byte[ClampBufferSize(size)](_ => 0);
      rOffset, wOffset, hasData := 0, 0, false;
      received, delivered, ended := [], [], false;
      pc, log := Top, [];
      mem := seq(ClampBufferSize(size), _ => 0);
      new;
      assert buf[..] == mem;
    }

    ghost method Record(before: State, step: Step)
      requires Reaches(auto, mem, log, before) && Enabled(before, step) && Snapshot() == Apply(before, step)
      modifies this`log
      ensures Valid() && log == old(log) + [step]
    {
      log := log + [step];
      assert log[..|log| - 1] == old(log);
    }

    // -------------------------------------------------------------- WriteAll

    /** poll_write on the callback with buf[lo..hi], which gives the answer `a`.  The bytes are delivered
        that the callback says it took; the poll result says so too. */
    method CallbackPoll(lo: nat, hi: nat, a: Answer) returns (p: PollWrite)
      requires lo < hi <= buf.Length
      modifies this`delivered
      ensures delivered == old(delivered) + buf[lo..lo + SaysTaken(a, hi - lo)]
      ensures SaysTaken(a, hi - lo) == if p.WriteOk? then p.n else 0
      ensures p.WriteErr? <==> a.err
      ensures p.WritePanic? <==> !a.err && a.result > hi - lo
      ensures foreign ==> (p.WritePending? <==> !a.err && a.result <= 0)
      ensures foreign ==> p != WriteOk(0)
    {
      delivered := delivered + buf[lo..lo + SaysTaken(a, hi - lo)];
      p := if foreign then CallInner(a, hi - lo) else CallNative(a, hi - lo);
    }

    /** The loop of WriteAll::poll: offers buf[pos..end] until all of it is taken or a call makes no progress.
        A foreign callback stops it short only with Pending, an error or an over-report; `threw` says that
        some call set an error, and `took` how much the calls together say they took. */
    method Deliver() returns (pos: nat, last: PollWrite, ghost threw: bool, ghost took: nat)
      requires rOffset <= wOffset <= buf.Length
      modifies this`delivered
      ensures rOffset <= pos <= wOffset && delivered == old(delivered) + buf[rOffset..pos]
      ensures pos == rOffset + took && (threw <==> last.WriteErr?)
      ensures pos == wOffset <==> last.WriteOk? && (last.n > 0 || rOffset == wOffset)
      ensures foreign && pos < wOffset ==> !last.WriteOk?
    {
      pos, last, threw, took := rOffset, WriteOk(if rOffset == wOffset then 0 else 1), false, 0;
      var end := wOffset;
      while pos < end && last.WriteOk? && last.n > 0
        invariant rOffset <= pos <= end == wOffset && delivered == old(delivered) + buf[rOffset..pos]
        invariant pos == rOffset + took && (threw <==> last.WriteErr?)
        invariant pos == end ==> last.WriteOk? && (last.n > 0 || rOffset == wOffset)
        invariant foreign && pos < end ==> last != WriteOk(0)
        decreases end - pos, last.WriteOk? && last.n > 0
      {
        var a: Answer := *;
        last := CallbackPoll(pos, end, a);
        threw := threw || a.err;
        took := took + SaysTaken(a, end - pos);
        assert buf[rOffset..pos] + buf[pos..rOffset + took] == buf[rOffset..rOffset + took];
        if last.WriteOk? {
          pos := pos + last.n;
        }
      }
    }

    /** WriteAll::poll: delivers from r_offset on and records how far it got before it returns.  It returns
        the error WriteZero only to a callback that is not foreign, and an error of the callback always. */
    method Poll() returns (out: PollOutcome, last: PollWrite, ghost k: nat, ghost threw: bool)
      requires Valid() && Flushing(pc)
      modifies this`rOffset, this`wOffset, this`delivered, this`pc, this`log
      ensures Valid() && old(log) <= log && |log| == |old(log)| + 1
      ensures out.Polled? ==> Enabled(old(Snapshot()), FlushPoll(k, out.res))
                              && Snapshot() == Apply(old(Snapshot()), FlushPoll(k, out.res))
      ensures out.PollPanicked? ==> pc == Panicked
      ensures out == Polled(FlushPending) <==> last.WritePending?
      ensures out.PollPanicked? <==> last.WritePanic?
      ensures out == Polled(FlushError) ==> last.WriteErr? || (last == WriteOk(0) && !foreign)
      ensures threw ==> out == Polled(FlushError) && pc == DoneErr
    {
      ghost var before := Snapshot();
      RunKeepsInv(Init(auto, mem), log);
      var pos;
      ghost var took;
      pos, last, threw, took := Deliver();
      if pos == wOffset {
        k := Complete(before);
        out := Polled(FlushDone);
      } else if last.WritePending? {
        k := Stop(before, pos, FlushPending);
        out := Polled(FlushPending);
      } else if last.WritePanic? {
        k := Crash(before, pos);
        out := PollPanicked;
      } else {
        k := Stop(before, pos, FlushError);
        out := Polled(FlushError);
      }
    }

    /** The callback over-reported at `pos`: the offsets stay as they were. */
    ghost method Crash(before: State, pos: nat) returns (k: nat)
      requires Reaches(auto, mem, log, before) && Flushing(before.pc) && BufOk(before.buf)
      requires Snapshot() == before.(delivered := delivered) && rOffset <= pos < wOffset
      requires delivered == before.delivered + buf[rOffset..pos]
      modifies this`pc, this`log
      ensures Valid() && old(log) <= log && |log| == |old(log)| + 1 && pc == Panicked
    {
      k := pos - rOffset;
      assert Held(before.buf)[..k] == buf[rOffset..pos];
      pc := Panicked;
      Record(before, Panic(k));
    }

    /** All delivered: both offsets go back to 0. */
    method Complete(ghost before: State) returns (ghost k: nat)
      requires Reaches(auto, mem, log, before) && Flushing(before.pc) && BufOk(before.buf)
      requires Snapshot() == before.(delivered := delivered)
      requires delivered == before.delivered + buf[rOffset..wOffset]
      modifies this`rOffset, this`wOffset, this`pc, this`log
      ensures Enabled(before, FlushPoll(k, FlushDone))
      ensures Snapshot() == Apply(before, FlushPoll(k, FlushDone))
      ensures Valid() && old(log) <= log && |log| == |old(log)| + 1
    {
      k := wOffset - rOffset;
      assert Held(before.buf)[..k] == buf[rOffset..wOffset];
      rOffset, wOffset := 0, 0;
      pc := AfterFlush(before).pc;
      Record(before, FlushPoll(k, FlushDone));
    }

    /** The poll stops short at `pos`: the read offset is updated before it returns. */
    method Stop(ghost before: State, pos: nat, res: FlushResult) returns (ghost k: nat)
      requires Reaches(auto, mem, log, before) && Flushing(before.pc) && BufOk(before.buf) && res != FlushDone
      requires Snapshot() == before.(delivered := delivered) && rOffset <= pos < wOffset
      requires delivered == before.delivered + buf[rOffset..pos]
      modifies this`rOffset, this`pc, this`log
      ensures k == pos - old(rOffset) && Enabled(before, FlushPoll(k, res))
      ensures Snapshot() == Apply(before, FlushPoll(k, res))
      ensures Valid() && old(log) <= log && |log| == |old(log)| + 1
    {
      k := pos - rOffset;
      assert Held(before.buf)[..k] == buf[rOffset..pos];
      rOffset := pos;
      pc := if res == FlushError then DoneErr else before.pc;
      Record(before, FlushPoll(k, res));
    }

    // -------------------------------------------------------------- BufReadWrite

    /** flush().await, polled at most `polls` times. */
    method Flush(polls: nat) returns (r: AwaitResult)
      requires Valid() && Flushing(pc)
      modifies this`rOffset, this`wOffset, this`delivered, this`pc, this`log
      ensures Valid() && old(log) <= log
      ensures match r
              case Completed => pc == AfterFlush(old(Snapshot())).pc && rOffset == wOffset == 0 && delivered == received
              case Errored => pc == DoneErr || pc == Panicked
              case StillPending => pc == old(pc) && |log| == |old(log)| + polls
    {
      var n := polls;
      r := StillPending;
      while n > 0 && r == StillPending
        invariant Valid() && old(log) <= log && 0 <= n <= polls
        invariant match r
                  case Completed =>
                    pc == AfterFlush(old(Snapshot())).pc && rOffset == wOffset == 0 && delivered == received
                  case Errored => pc == DoneErr || pc == Panicked
                  case StillPending => pc == old(pc) && |log| == |old(log)| + polls - n
      {
        var out, _, _, _ := Poll();
        if out == Polled(FlushDone) {
          RunKeepsInv(Init(auto, mem), log);
          r := Completed;
        } else if out != Polled(FlushPending) {
          r := Errored;
        }
        n := n - 1;
      }
    }

    /** fill_flush, polled at most `polls` times before the select drops it.  Dropped in the middle of
        its flush or of its read, it leaves the offsets as the last poll recorded them. */
    method FillFlush(polls: nat, io: SocketRead) returns (res: FillResult)
      requires Valid() && pc == Top
      modifies this`rOffset, this`wOffset, this`delivered, this`pc, this`log, this`received, this`ended, buf
      ensures Valid() && old(log) <= log && hasData == old(hasData)
      ensures match res
              case Read(n) =>
                && pc == (if n == 0 then FinalFlush else Filled)
                && n <= wOffset == (if old(wOffset) == buf.Length then 0 else old(wOffset)) + n <= buf.Length
                && io.Bytes? && n <= |io.bytes| && received == old(received) + io.bytes[..n]
                && buf[wOffset - n..wOffset] == io.bytes[..n]
                && delivered == if old(wOffset) == buf.Length then old(received) else old(delivered)
              case Failed => (pc == DoneErr || pc == Panicked) && received == old(received)
              case Dropped => (pc == Pc.FillFlush || pc == FillRead) && received == old(received)
      ensures old(wOffset) < buf.Length || pc == FillRead || pc == Filled ==>
                res == Outcome(io, buf.Length - if old(wOffset) == buf.Length then 0 else old(wOffset))
    {
      var r := FlushIfFull(polls);
      if r == StillPending {
        return Dropped;
      } else if r == Errored {
        return Failed;
      }
      res := AwaitRead(io);
    }

    /** The first half of fill_flush: afterwards there is room behind w_offset. */
    method FlushIfFull(polls: nat) returns (r: AwaitResult)
      requires Valid() && pc == Top
      modifies this`rOffset, this`wOffset, this`delivered, this`pc, this`log
      ensures Valid() && old(log) <= log
      ensures match r
              case Completed =>
                && pc == FillRead && wOffset == (if old(wOffset) == buf.Length then 0 else old(wOffset))
                && delivered == if old(wOffset) == buf.Length then received else old(delivered)
              case Errored => (pc == DoneErr || pc == Panicked) && old(wOffset) == buf.Length
              case StillPending => pc == Pc.FillFlush && old(wOffset) == buf.Length
    {
      RunKeepsInv(Init(auto, mem), log);
      ghost var before := Snapshot();
      var full := wOffset == buf.Length;
      pc := if full then Pc.FillFlush else FillRead;
      Record(before, Start);
      r := Completed;
      if full {
        r := Flush(polls);
        RunKeepsInv(Init(auto, mem), log);
      }
    }

    /** read(&mut buf[w_offset..]).await */
    method AwaitRead(io: SocketRead) returns (res: FillResult)
      requires Valid() && pc == FillRead
      modifies this`wOffset, this`pc, this`log, this`received, this`ended, buf
      ensures Valid() && old(log) <= log
      ensures old(wOffset) < buf.Length && res == Outcome(io, buf.Length - old(wOffset))
      ensures match res
              case Read(n) =>
                && pc == (if n == 0 then FinalFlush else Filled)
                && old(wOffset) + n == wOffset <= buf.Length && n <= |io.bytes|
                && received == old(received) + io.bytes[..n] && buf[old(wOffset)..wOffset] == io.bytes[..n]
              case Failed => pc == DoneErr && received == old(received)
              case Dropped => pc == FillRead && received == old(received)
    {
      RunKeepsInv(Init(auto, mem), log);
      res := Outcome(io, buf.Length - wOffset);
      match io
      case NotYet =>
      case Broken => Break();
      case Bytes(bytes) =>
        var n := Min(|bytes|, buf.Length - wOffset);
        if n == 0 {
          SeeEnd();
        } else {
          Fill(bytes[..n]);
        }
    }

    /** read failed. */
    method Break()
      requires Valid() && pc == FillRead
      modifies this`pc, this`log
      ensures Valid() && old(log) <= log && pc == DoneErr
    {
      RunKeepsInv(Init(auto, mem), log);
      ghost var before := Snapshot();
      pc := DoneErr;
      Record(before, ReadError);
    }

    /** read resolved with 0 bytes. */
    method SeeEnd()
      requires Valid() && pc == FillRead
      modifies this`pc, this`log, this`ended
      ensures Valid() && old(log) <= log && pc == FinalFlush && ended
    {
      RunKeepsInv(Init(auto, mem), log);
      ghost var before := Snapshot();
      ended := true;
      pc := FinalFlush;
      Record(before, ReadZero(true));
    }

    /** read resolved with some bytes. */
    method Fill(bytes: seq<byte>)
      requires Valid() && pc == FillRead && 1 <= |bytes| <= buf.Length - wOffset
      modifies this`wOffset, this`pc, this`log, this`received, buf
      ensures Valid() && old(log) <= log && pc == Filled
      ensures old(wOffset) + |bytes| == wOffset <= buf.Length
      ensures received == old(received) + bytes && buf[old(wOffset)..wOffset] == bytes
    {
      ghost var before := Snapshot();
      RunKeepsInv(Init(auto, mem), log);
      ReadLandsBehind(before.buf, bytes);
      Store(bytes);
      received := received + bytes;
      pc := Filled;
      Record(before, ReadSome(bytes));
    }

    /** The bytes land behind w_offset, which moves past them. */
    method Store(bytes: seq<byte>)
      requires wOffset + |bytes| <= buf.Length
      modifies this`wOffset, buf
      ensures Buf(buf[..], rOffset, wOffset) == AfterRead(old(Buf(buf[..], rOffset, wOffset)), bytes)
    {
      var i := 0;
      while i < |bytes|
        invariant 0 <= i <= |bytes| && wOffset == old(wOffset)
        invariant forall j :: 0 <= j < buf.Length ==>
                    buf[j] == if wOffset <= j < wOffset + i then bytes[j - wOffset] else old(buf[j])
      {
        buf[wOffset + i] := bytes[i];
        i := i + 1;
      }
      wOffset := wOffset + |bytes|;
    }

    // -------------------------------------------------------------- handle_reader

    /** The tick branch: the pending fill_flush is dropped and the buffer flushed. */
    method OnTick(polls: nat) returns (r: AwaitResult)
      requires Valid() && auto && hasData && (pc == Pc.FillFlush || pc == FillRead)
      modifies this`rOffset, this`wOffset, this`delivered, this`pc, this`log, this`hasData
      ensures Valid() && old(log) <= log
      ensures match r
              case Completed => pc == Top && !hasData && wOffset == 0 && delivered == received
              case Errored => pc == DoneErr || pc == Panicked
              case StillPending => pc == TickFlush && |log| == |old(log)| + 1 + polls
    {
      RunKeepsInv(Init(auto, mem), log);
      ghost var before := Snapshot();
      pc := TickFlush;
      Record(before, Tick);
      r := Flush(polls);
      if r == Completed {
        ClearHasData();
      }
    }

    method ClearHasData()
      requires Valid() && pc == Ticked
      modifies this`hasData, this`pc, this`log
      ensures Valid() && old(log) <= log && pc == Top && !hasData
    {
      RunKeepsInv(Init(auto, mem), log);
      ghost var before := Snapshot();
      hasData := false;
      pc := Top;
      Record(before, Disarm);
    }

    method SetHasData()
      requires Valid() && pc == Filled
      modifies this`hasData, this`pc, this`log
      ensures Valid() && old(log) <= log && pc == Top && hasData
    {
      RunKeepsInv(Init(auto, mem), log);
      ghost var before := Snapshot();
      hasData := true;
      pc := Top;
      Record(before, Arm);
    }

    /** handle_reader: it ends cleanly exactly with everything delivered after the end of the stream, and with
        an error exactly after one; until then it has rounds left only when it waits for the callback or, with
        no tick to come, for the socket. */
    method HandleReader(rounds: nat, polls: nat) returns (exit: Exit, spare: nat)
      requires Valid() && pc == Top
      modifies this, buf
      ensures Valid() && old(log) <= log
      ensures delivered <= received
      ensures exit == Finished <==> pc == DoneOk
      ensures exit == Error <==> pc == DoneErr || pc == Panicked
      ensures exit == Finished ==> ended && delivered == received
      ensures exit == StillRunning && spare > 0 ==>
                pc == TickFlush || pc == FinalFlush || ((pc == Pc.FillFlush || pc == FillRead) && !(auto && hasData))
    {
      exit, spare := StillRunning, rounds;
      while spare > 0
        invariant Valid() && old(log) <= log && pc == Top && exit == StillRunning
      {
        var io: SocketRead := *;
        var more;
        exit, more := Round(polls, io);
        if !more {
          return;
        }
        spare := spare - 1;
      }
      CancellationSafe(auto, mem, log, Snapshot());
    }

    /** One turn of the select in handle_reader; `more` says that there is another one. */
    method Round(polls: nat, io: SocketRead) returns (exit: Exit, more: bool)
      requires Valid() && pc == Top
      modifies this, buf
      ensures Valid() && old(log) <= log && delivered <= received
      ensures more ==> exit == StillRunning && pc == Top
      ensures exit == Finished <==> pc == DoneOk
      ensures exit == Error <==> pc == DoneErr || pc == Panicked
      ensures exit == Finished ==> ended && delivered == received
      ensures !more && exit == StillRunning ==>
                pc == TickFlush || pc == FinalFlush || ((pc == Pc.FillFlush || pc == FillRead) && !(auto && hasData))
      ensures io.Bytes? && io.bytes != [] && old(wOffset) < buf.Length ==>
                more && hasData && |received| > |old(received)|
      ensures io == NotYet && auto && old(hasData) && more ==> !hasData && delivered == received == old(received)
    {
      more, exit := false, StillRunning;
      var res := FillFlush(polls, io);
      match res {
        case Failed =>
          exit := Error;
        case Read(k) =>
          if k == 0 {
            exit := FlushRest(polls);
          } else {
            SetHasData();
            more := true;
          }
        case Dropped =>
          if auto && hasData {
            var r := OnTick(polls);
            more := r == Completed;
            exit := if r == Errored then Error else StillRunning;
          }
      }
      CancellationSafe(auto, mem, log, Snapshot());
    }

    /** read_write.flush().await after the end of the stream. */
    method FlushRest(polls: nat) returns (exit: Exit)
      requires Valid() && pc == FinalFlush
      modifies this, buf
      ensures Valid() && old(log) <= log
      ensures match exit
              case Finished => pc == DoneOk && ended && delivered == received
              case Error => pc == DoneErr || pc == Panicked
              case StillRunning => pc == FinalFlush && |log| == |old(log)| + polls
    {
      var r := Flush(polls);
      if r == Completed {
        CleanEnd(auto, mem, log, Snapshot());
      }
      exit := match r case Completed => Finished case Errored => Error case StillPending => StillRunning;
    }
  }
}

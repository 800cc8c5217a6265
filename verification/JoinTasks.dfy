/**
 `join_reader_writer`: the select over the stop signal and the two task handles.
 */
module JoinTasks {
  /** How a task ended: Ok(Ok(_)), or one of Ok(Err(_)) and a join error. */
  datatype TaskResult = TaskOk | TaskErr

  datatype Branch = StopClosed | WriterDone | ReaderDone

  datatype Join = Join(
    writerStopped: bool,
    readerStopped: bool,
    writerAborted: bool,
    readerAborted: bool,
    remoteCloses: nat,       // OnRemoteClose callbacks made
    over: bool)

  function Begin(): Join {
    Join(false, false, false, false, 0, false)
  }

  /** The branches that the select polls. */
  predicate Polled(j: Join, b: Branch) {
    && !j.over
    && (b == WriterDone ==> !j.writerStopped)
    && (b == ReaderDone ==> !j.readerStopped)
  }

  /** One branch of the select, with the result of the task that ended. */
  function OnBranch(j: Join, b: Branch, res: TaskResult): Join {
    match b
    case StopClosed => j.(writerAborted := true, readerAborted := true, over := true)
    case WriterDone =>
      if res == TaskOk then j.(writerStopped := true, over := j.readerStopped)
      else j.(readerAborted := true, over := true)
    case ReaderDone =>
      if res == TaskOk then j.(readerStopped := true, remoteCloses := j.remoteCloses + 1, over := j.writerStopped)
      else j.(writerAborted := true, over := true)
  }

  function ResultOf(b: Branch, writer: TaskResult, reader: TaskResult): TaskResult {
    if b == WriterDone then writer else reader
  }

  /** The join after the given branches were taken in turn. */
  function AfterPicks(picks: seq<Branch>, writer: TaskResult, reader: TaskResult): Join {
    if picks == [] then Begin()
    else
      var last := |picks| - 1;
      OnBranch(AfterPicks(picks[..last], writer, reader), picks[last], ResultOf(picks[last], writer, reader))
  }

  /** No handle is polled after it has completed. */
  predicate PollsAllowed(picks: seq<Branch>, writer: TaskResult, reader: TaskResult) {
    picks == [] ||
    var last := |picks| - 1;
    PollsAllowed(picks[..last], writer, reader) && Polled(AfterPicks(picks[..last], writer, reader), picks[last])
  }

  /** At most two selects, none of them on a completed handle; the flags say what was picked. */
  predicate PicksOk(picks: seq<Branch>, writer: TaskResult, reader: TaskResult, j: Join) {
    && |picks| <= 2 && (|picks| == 2 ==> picks[0] != picks[1])
    && (j.writerStopped <==> WriterDone in picks && writer == TaskOk)
    && (j.readerStopped <==> ReaderDone in picks && reader == TaskOk)
    && j.remoteCloses == (if j.readerStopped then 1 else 0)
    && (!j.over ==> |picks| <= 1 && !j.writerAborted && !j.readerAborted && !(j.writerStopped && j.readerStopped))
    && (!j.over && picks != [] ==> j.writerStopped || j.readerStopped)
  }

  /** When it is over, each task has finished or is asked to abort; nothing but the stop signal aborts a
      task unless the other one failed, and a clean end of one half alone does not end the join. */
  predicate EndOk(picks: seq<Branch>, writer: TaskResult, reader: TaskResult, j: Join) {
    && picks != []
    && (WriterDone in picks || j.writerAborted) && (ReaderDone in picks || j.readerAborted)
    && (StopClosed in picks ==> j.writerAborted && j.readerAborted)
    && (StopClosed !in picks ==> (j.writerAborted <==> ReaderDone in picks && reader == TaskErr))
    && (StopClosed !in picks ==> (j.readerAborted <==> WriterDone in picks && writer == TaskErr))
    && (!j.writerAborted && !j.readerAborted ==> j.writerStopped && j.readerStopped)
  }

  /** One more turn of the select. */
  lemma PickKeepsOk(picks: seq<Branch>, writer: TaskResult, reader: TaskResult, j: Join, b: Branch)
    requires PicksOk(picks, writer, reader, j) && Polled(j, b)
    ensures var k := OnBranch(j, b, ResultOf(b, writer, reader));
            PicksOk(picks + [b], writer, reader, k) && (k.over ==> EndOk(picks + [b], writer, reader, k))
  {
  }

  lemma {:induction false} JoinPicks(picks: seq<Branch>, writer: TaskResult, reader: TaskResult)
    requires PollsAllowed(picks, writer, reader)
    ensures PicksOk(picks, writer, reader, AfterPicks(picks, writer, reader))
    ensures AfterPicks(picks, writer, reader).over ==> EndOk(picks, writer, reader, AfterPicks(picks, writer, reader))
  {
    if picks != [] {
      var last := |picks| - 1;
      JoinPicks(picks[..last], writer, reader);
      PickKeepsOk(picks[..last], writer, reader, AfterPicks(picks[..last], writer, reader), picks[last]);
      assert picks == picks[..last] + [picks[last]];
    }
  }

  /** The select took the given branches, and `j` is where they lead. */
  predicate Took(picks: seq<Branch>, writer: TaskResult, reader: TaskResult, j: Join) {
    PollsAllowed(picks, writer, reader) && AfterPicks(picks, writer, reader) == j
  }

  lemma PickOneMore(picks: seq<Branch>, b: Branch, writer: TaskResult, reader: TaskResult, j: Join)
    requires Took(picks, writer, reader, j) && Polled(j, b)
    ensures Took(picks + [b], writer, reader, OnBranch(j, b, ResultOf(b, writer, reader)))
  {
    assert (picks + [b])[..|picks|] == picks;
  }

  /** The loop of join_reader_writer, for any order in which the branches become ready. */
  method JoinReaderWriter(writer: TaskResult, reader: TaskResult) returns (picks: seq<Branch>, j: Join)
    ensures PollsAllowed(picks, writer, reader) && j == AfterPicks(picks, writer, reader) && j.over
    ensures PicksOk(picks, writer, reader, j) && EndOk(picks, writer, reader, j)
  {
    picks, j := [], Begin();
    while !j.over
      invariant Took(picks, writer, reader, j)
      decreases !j.over, !j.writerStopped, !j.readerStopped
    {
      var b: Branch :| Polled(j, b);
      PickOneMore(picks, b, writer, reader, j);
      picks := picks + [b];
      j := OnBranch(j, b, ResultOf(b, writer, reader));
    }
    JoinPicks(picks, writer, reader);
  }
}

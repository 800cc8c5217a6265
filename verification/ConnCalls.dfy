/**
 `start_connection` and `close` as they are written, with other calls on the same
 connection, and its handler, free to act between any two of their atomic actions.
 */
module ConnCalls {
  import opened Base
  import opened ConnFence

  /** The fields of a Conn and the two ends of its configuration channel. */
  class Conn {
    var st: Fence
    ghost var log: seq<Step>

    ghost predicate Valid()
      reads this
    {
      Exec(Init(), log) == Some(st)
    }

    constructor ()
      ensures Valid() && st == Init() && log == []
    {
      st, log := Init(), [];
    }

    method Do(step: Step)
      requires Valid() && Enabled(st, step)
      modifies this
      ensures Valid() && st == Apply(old(st), step) && log == old(log) + [step]
    {
      st := Apply(st, step);
      log := log + [step];
      assert log[..|log| - 1] == old(log);
    }

    /** Any number of actions of anyone else while call t is under way. */
    method OthersRun(t: nat)
      requires Valid() && t < |st.calls| && !Over(st.calls[t])
      modifies this
      ensures Valid() && old(log) <= log && t < |st.calls| && st.calls[t] == old(st.calls[t])
      ensures (old(st.consumed) ==> st.consumed) && (st.rxOpen ==> old(st.rxOpen))
    {
      var n: nat := *;
      while n > 0
        invariant Valid() && old(log) <= log && t < |st.calls| && st.calls[t] == old(st.calls[t])
        invariant (old(st.consumed) ==> st.consumed) && (st.rxOpen ==> old(st.rxOpen))
      {
        var step: Step := *;
        if Enabled(st, step) && !Acts(step, t) {
          Do(step);
        }
        n := n - 1;
      }
    }

    /** consumed.compare_exchange(false, true) */
    method CompareExchange(t: nat) returns (won: bool)
      requires Valid() && t < |st.calls| && (st.calls[t] == StartCas || st.calls[t] == CloseCas)
      modifies this
      ensures Valid() && old(log) <= log && t < |st.calls| && st.consumed
      ensures (old(st.consumed) ==> !won) && (st.rxOpen ==> old(st.rxOpen))
      ensures !won ==> OtherCame(st, t)
      ensures st.calls[t] == if old(st.calls[t]) == StartCas then (if won then StartTake else StartErr)
                             else (if won then CloseTake else CloseRemove(false))
    {
      OthersRun(t);
      won := !st.consumed;
      if !won {
        ghost var i := Consumer(log, st);
        assert i != t;
        StepKeepsPast(st, Cas(t), i);
      }
      Do(Cas(t));
    }

    /** inner.take().unwrap(): there is something to take. */
    method TakeInner(t: nat)
      requires Valid() && t < |st.calls| && (st.calls[t] == StartTake || st.calls[t] == CloseTake)
      modifies this
      ensures Valid() && old(log) <= log && t < |st.calls|
      ensures (old(st.consumed) ==> st.consumed) && (st.rxOpen ==> old(st.rxOpen))
      ensures st.calls[t] == if old(st.calls[t]) == StartTake then StartSend else CloseRemove(true)
    {
      OthersRun(t);
      RunKeepsInv(Init(), log);
      assert st.setter == InConn;
      Do(Take(t));
    }

    /** Ok means that this call won the compare-exchange and that the configuration was delivered; an error
        means that another call came first or that the handler no longer waits for the configuration. */
    method StartConnection() returns (ok: bool)
      requires Valid() && st.handed
      modifies this
      ensures Valid() && old(log) <= log && st.consumed && !st.panicked
      ensures ok ==> !old(st.consumed) && st.setter == Sent && old(st.rxOpen) && st.rxOpen
      ensures !ok ==> OtherCame(st, |old(st.calls)|) || !st.rxOpen
      ensures |old(st.calls)| < |st.calls| && st.calls[|old(st.calls)|] == if ok then StartOk else StartErr
    {
      var t := |st.calls|;
      Do(BeginStart);
      var won := CompareExchange(t);
      ok := false;
      if won {
        TakeInner(t);
        OthersRun(t);
        ok := st.rxOpen;
        Do(SendConfig(t));
      }
      RunKeepsInv(Init(), log);
    }

    /** After a close the connection is consumed and the entry under its addresses has been removed; if the
        close won, it has never started and never will. */
    method Close() returns (ghost won: bool)
      requires Valid() && st.handed
      modifies this
      ensures Valid() && old(log) < log && st.consumed && !st.panicked
      ensures won ==> !old(st.consumed) && st.setter == Dropped && StartOk !in st.calls
      ensures |old(st.calls)| < |st.calls| && st.calls[|old(st.calls)|] == CloseDone(won)
      ensures log[|log| - 1] == RemoveEntry(|old(st.calls)|)
    {
      var t := |st.calls|;
      Do(BeginClose);
      var first := CompareExchange(t);
      won := first;
      if first {
        TakeInner(t);
      }
      OthersRun(t);
      Do(RemoveEntry(t));
      RunKeepsInv(Init(), log);
      assert Won(st.calls[t]) == won;
    }
  }

  /** A call other than t has made its compare-exchange. */
  predicate OtherCame(f: Fence, t: nat) {
    exists i :: 0 <= i < |f.calls| && i != t && PastCas(f.calls[i])
  }

  /** The step is one of call t. */
  predicate Acts(step: Step, t: nat) {
    match step
    case Cas(u) => u == t
    case Take(u) => u == t
    case SendConfig(u) => u == t
    case RemoveEntry(u) => u == t
    case _ => false
  }
}

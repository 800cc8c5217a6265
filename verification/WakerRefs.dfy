/**
 Ownership of task wakers across the language boundary: `CWaker` on the Rust side gives
 away one reference per callback, and `Waker` objects on the C++ side hold, move, use and
 free it.
 */
module WakerRefs {
  import opened Base

  /** The two pointers of a CWaker; 0 stands for nullptr. */
  datatype CWaker = CWaker(data: nat, vtable: nat)

  const NULL: CWaker := CWaker(0, 0)

  /** The test made before every wake and every free. */
  predicate Holds(w: CWaker) {
    w.data != 0 && w.vtable != 0
  }

  /** `slots` are the Waker objects, `alive` those not yet destroyed; `refs` counts, for each raw waker,
      the references given away and not yet freed. */
  datatype State = State(slots: seq<CWaker>, alive: seq<bool>, refs: multiset<CWaker>, badFree: bool, badWake: bool)

  function Init(): State {
    State([], [], multiset{}, false, false)
  }

  datatype Op =
    | Arrive(w: CWaker)               // from_waker, then Waker(CWaker) inside the on_msg callback
    | Create                          // Waker()
    | MoveNew(src: nat)               // Waker(Waker &&)
    | MoveAssign(dst: nat, src: nat)  // operator=(Waker &&), dst == src included
    | Wake(i: nat)
    | Destroy(i: nat)

  predicate Usable(s: State, i: nat) {
    i < |s.slots| && i < |s.alive| && s.alive[i]
  }

  predicate Enabled(s: State, op: Op) {
    match op
    case Arrive(_) => true
    case Create => true
    case MoveNew(src) => Usable(s, src)
    case MoveAssign(dst, src) => Usable(s, dst) && Usable(s, src)
    case Wake(i) => Usable(s, i)
    case Destroy(i) => Usable(s, i)
  }

  /** socket_manager_waker_free, behind the test. */
  function FreeIfHeld(s: State, w: CWaker): State {
    if Holds(w) then s.(refs := s.refs - multiset{w}, badFree := s.badFree || w !in s.refs) else s
  }

  function Apply(s: State, op: Op): State
    requires Enabled(s, op)
  {
    match op
    case Arrive(w) => s.(slots := s.slots + [w], alive := s.alive + [true], refs := s.refs + multiset{w})
    case Create => s.(slots := s.slots + [NULL], alive := s.alive + [true])
    case MoveNew(src) => s.(slots := s.slots[src := NULL] + [s.slots[src]], alive := s.alive + [true])
    case MoveAssign(dst, src) => FreeIfHeld(s, s.slots[dst]).(slots := s.slots[dst := s.slots[src]][src := NULL])
    case Wake(i) => s.(badWake := s.badWake || (Holds(s.slots[i]) && s.slots[i] !in s.refs))
    case Destroy(i) => FreeIfHeld(s, s.slots[i]).(slots := s.slots[i := NULL], alive := s.alive[i := false])
  }

  function Exec(s: State, ops: seq<Op>): Option<State> {
    if ops == [] then Some(s)
    else
      var last := |ops| - 1;
      match Exec(s, ops[..last])
      case None => None
      case Some(m) => if Enabled(m, ops[last]) then Some(Apply(m, ops[last])) else None
  }

  /** Each reference that could be freed is held by exactly as many objects as there are references. */
  ghost predicate Inv(s: State) {
    && |s.slots| == |s.alive| && !s.badFree && !s.badWake
    && (forall w :: Holds(w) ==> s.refs[w] == multiset(s.slots)[w])
    && (forall i :: 0 <= i < |s.slots| && !s.alive[i] ==> s.slots[i] == NULL)
  }

  lemma BagUpdate(slots: seq<CWaker>, i: nat, w: CWaker)
    requires i < |slots|
    ensures multiset(slots[i := w]) == multiset(slots) - multiset{slots[i]} + multiset{w}
    ensures slots[i] in multiset(slots)
  {
  }

  lemma NewSlotKeepsInv(s: State, op: Op)
    requires Inv(s) && Enabled(s, op) && (op.Arrive? || op.Create?)
    ensures Inv(Apply(s, op))
  {
  }

  lemma MoveNewKeepsInv(s: State, src: nat)
    requires Inv(s) && Enabled(s, MoveNew(src))
    ensures Inv(Apply(s, MoveNew(src)))
  {
  }

  lemma OneLess(s: State, bag: multiset<CWaker>, gone: CWaker, w: CWaker)
    requires Holds(w) && s.refs[w] == bag[w] && gone in bag
    ensures FreeIfHeld(s, gone).refs[w] == (bag - multiset{gone} + multiset{NULL})[w]
  {
  }

  /** Assignment replaces what the target held by nothing, as far as the objects together are concerned. */
  lemma MoveAssignBag(slots: seq<CWaker>, dst: nat, src: nat)
    requires dst < |slots| && src < |slots|
    ensures multiset(slots[dst := slots[src]][src := NULL]) == multiset(slots) - multiset{slots[dst]} + multiset{NULL}
    ensures slots[dst] in multiset(slots)
  {
  }

  lemma MoveAssignKeepsInv(s: State, dst: nat, src: nat)
    requires Inv(s) && Enabled(s, MoveAssign(dst, src))
    ensures Inv(Apply(s, MoveAssign(dst, src)))
  {
    MoveAssignBag(s.slots, dst, src);
    forall w | Holds(w)
      ensures FreeIfHeld(s, s.slots[dst]).refs[w] == (multiset(s.slots) - multiset{s.slots[dst]} + multiset{NULL})[w]
    {
      OneLess(s, multiset(s.slots), s.slots[dst], w);
    }
  }

  lemma DestroyKeepsInv(s: State, i: nat)
    requires Inv(s) && Enabled(s, Destroy(i))
    ensures Inv(Apply(s, Destroy(i)))
  {
  }

  lemma {:induction false} StepKeepsInv(s: State, op: Op)
    requires Inv(s) && Enabled(s, op)
    ensures Inv(Apply(s, op))
  {
    match op
    case Arrive(_) => NewSlotKeepsInv(s, op);
    case Create => NewSlotKeepsInv(s, op);
    case MoveNew(src) => MoveNewKeepsInv(s, src);
    case MoveAssign(dst, src) => MoveAssignKeepsInv(s, dst, src);
    case Wake(i) => BagUpdate(s.slots, i, NULL);
    case Destroy(i) => DestroyKeepsInv(s, i);
  }

  lemma {:induction false} RunKeepsInv(s: State, ops: seq<Op>)
    requires Inv(s)
    ensures Exec(s, ops).Some? ==> Inv(Exec(s, ops).value)
  {
    if ops != [] && Exec(s, ops).Some? {
      var last := |ops| - 1;
      RunKeepsInv(s, ops[..last]);
      StepKeepsInv(Exec(s, ops[..last]).value, ops[last]);
    }
  }

  /** In every run no reference is freed twice or woken after its release, outstanding references match
      the objects that hold them, and none is left once every object is destroyed. */
  lemma WakersBalance(ops: seq<Op>, t: State, w: CWaker)
    requires Exec(Init(), ops) == Some(t) && Holds(w)
    ensures !t.badFree && !t.badWake
    ensures t.refs[w] == multiset(t.slots)[w]
    ensures (forall i :: 0 <= i < |t.alive| ==> !t.alive[i]) ==> w !in t.refs
  {
    RunKeepsInv(Init(), ops);
  }

  lemma NullStays(s: State, op: Op, w: CWaker)
    requires Enabled(s, op) && !Holds(w) && w in s.refs
    ensures w in Apply(s, op).refs
  {
  }

  /** The other half of the test: a raw waker with a null pointer in it is never freed, so its reference
      stays outstanding for ever. */
  lemma {:induction false} NullDataLeaks(s: State, w: CWaker, ops: seq<Op>, t: State)
    requires !Holds(w) && w in s.refs && Exec(s, ops) == Some(t)
    ensures w in t.refs
    decreases |ops|
  {
    if ops != [] {
      var last := |ops| - 1;
      var m := Exec(s, ops[..last]).value;
      NullDataLeaks(s, w, ops[..last], m);
      NullStays(m, ops[last], w);
    }
  }

  // ---------------------------------------------------------------- the methods

  /** The Waker objects and the reference counts behind them. */
  class Wakers {
    var slots: seq<CWaker>
    var alive: seq<bool>
    var refs: multiset<CWaker>
    ghost var badFree: bool
    ghost var badWake: bool

    ghost function Snapshot(): State
      reads this
    {
      State(slots, alive, refs, badFree, badWake)
    }

    ghost predicate Valid()
      reads this
    {
      Inv(Snapshot())
    }

    constructor ()
      ensures Valid() && Snapshot() == Init()
    {
      slots, alive, refs, badFree, badWake := [], [], multiset{}, false, false;
    }

    /** socket_manager_waker_free: the reference must be outstanding. */
    method Free(w: CWaker)
      modifies `refs, `badFree
      ensures refs == old(refs) - multiset{w} && badFree == (old(badFree) || w !in old(refs))
    {
      badFree := badFree || w !in refs;
      refs := refs - multiset{w};
    }

    /** CWaker::from_waker forgets the Rust waker; the C++ object built from it owns the reference. */
    method FromWaker(w: CWaker) returns (i: nat)
      requires Valid()
      modifies this
      ensures Valid() && Snapshot() == Apply(old(Snapshot()), Arrive(w))
      ensures i == |old(slots)| && |slots| == i + 1 && slots[i] == w && refs[w] == old(refs)[w] + 1
    {
      StepKeepsInv(Snapshot(), Arrive(w));
      i := |slots|;
      slots, alive, refs := slots + [w], alive + [true], refs + multiset{w};
    }

    /** Waker(Waker &&other) */
    method MoveConstruct(other: nat) returns (i: nat)
      requires Valid() && Enabled(Snapshot(), MoveNew(other))
      modifies this
      ensures Valid() && Snapshot() == Apply(old(Snapshot()), MoveNew(other)) && refs == old(refs)
      ensures i == |old(slots)| && |slots| == i + 1 && slots[i] == old(slots)[other] && slots[other] == NULL
    {
      StepKeepsInv(Snapshot(), MoveNew(other));
      i := |slots|;
      slots, alive := slots + [slots[other]], alive + [true];
      slots := slots[other := NULL];
      assert slots == old(slots)[other := NULL] + [old(slots)[other]];
    }

    /** operator=(Waker &&other): free what is held, take over the other's pointers, clear the other.  A
        self-move frees the reference and leaves the object empty. */
    method AssignFrom(target: nat, other: nat)
      requires Valid() && Enabled(Snapshot(), MoveAssign(target, other))
      modifies this
      ensures Valid() && Snapshot() == Apply(old(Snapshot()), MoveAssign(target, other))
      ensures slots[other] == NULL && (target != other ==> slots[target] == old(slots)[other])
    {
      StepKeepsInv(Snapshot(), MoveAssign(target, other));
      if slots[target].data != 0 && slots[target].vtable != 0 {
        Free(slots[target]);
      }
      slots := slots[target := slots[other]];
      slots := slots[other := NULL];
    }

    /** wake(): uses the reference without giving it up. */
    method WakeUp(i: nat) returns (woken: bool)
      requires Valid() && Enabled(Snapshot(), Wake(i))
      modifies `badWake
      ensures Valid() && Snapshot() == Apply(old(Snapshot()), Wake(i))
      ensures woken <==> Holds(slots[i])
      ensures woken ==> slots[i] in refs
    {
      StepKeepsInv(Snapshot(), Wake(i));
      BagUpdate(slots, i, NULL);
      woken := slots[i].data != 0 && slots[i].vtable != 0;
      if woken {
        badWake := badWake || slots[i] !in refs;
      }
    }

    /** ~Waker() */
    method Destruct(i: nat)
      requires Valid() && Enabled(Snapshot(), Destroy(i))
      modifies this
      ensures Valid() && Snapshot() == Apply(old(Snapshot()), Destroy(i))
      ensures slots[i] == NULL && !alive[i]
      ensures Holds(old(slots)[i]) ==> refs[old(slots)[i]] == old(refs)[old(slots)[i]] - 1
    {
      StepKeepsInv(Snapshot(), Destroy(i));
      if slots[i].data != 0 && slots[i].vtable != 0 {
        Free(slots[i]);
      }
      slots, alive := slots[i := NULL], alive[i := false];
    }
  }
}

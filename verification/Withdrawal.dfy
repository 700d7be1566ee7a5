/** Handles that have left the map. No loop is ever given one again, so what can still happen to it depends
    only on the loops that work on it already and on how far they are. */
module Withdrawal {
  import opened Registry
  import opened Protocol
  import opened Invariant
  import opened Effects
  import opened Preservation

  predicate On(s: State, i: nat, h: Handle) {
    i < |s.threads| && s.threads[i].handle == Live(h)
  }

  /** `h` exists, is in no map, and no regex call is about to insert it. */
  ghost predicate Withdrawn(s: State, h: Handle) {
    && Created(s, h) && !InMap(s.sh.reg, h)
    && (forall i: nat | On(s, i, h) :: !s.threads[i].pc.Dialling?)
  }

  /** Every loop on `h` in `s'` was a loop on `h` in `s`. */
  ghost predicate NotGiven(s: State, s': State, h: Handle) {
    forall i: nat | On(s', i, h) && WasRegistered(s'.threads[i].pc) :: On(s, i, h) && WasRegistered(s.threads[i].pc)
  }

  lemma WithdrawnMove(s: State, t: nat, sh': Shared, th': Thread, h: Handle)
    requires t < |s.threads| && ThreadsOk(s) && MapsOk(s) && TokensOk(s) && Withdrawn(s, h)
    requires IdentityEffect(s.sh, t, s.threads[t], sh', th')
    requires MapsEffect(s.sh, t, s.threads[t], sh', th')
    ensures Withdrawn(After(s, t, sh', th'), h) && NotGiven(s, After(s, t, sh', th'), h)
  {
    assert ThreadOk(s, t);
  }

  // ---- No dispatch any more

  /** Loop `i` works on `h` and can still get past its isClosed check, or is past it. */
  predicate MayDispatch(s: State, i: nat, h: Handle) {
    && On(s, i, h)
    && (Dispatching(s.threads[i].pc) || (!Sealed(s.sh) && (Pending(s.threads[i].pc) || AtGot(s.threads[i].pc))))
  }

  ghost predicate Silent(s: State, h: Handle) { forall i: nat :: !MayDispatch(s, i, h) }

  // ---- No receive any more

  /** Loop `i` works on `h` and can still take a message from it. */
  predicate MayReceive(s: State, i: nat, h: Handle) {
    && On(s, i, h)
    && (|| Pending(s.threads[i].pc) || Dispatching(s.threads[i].pc)
        || (AtGot(s.threads[i].pc) && !Sealed(s.sh)))
  }

  ghost predicate Deaf(s: State, h: Handle) { forall i: nat :: !MayReceive(s, i, h) }

  /** Both conditions are kept: a loop moves only along its own course. */
  lemma CourseMove(s: State, t: nat, sh': Shared, th': Thread, h: Handle)
    requires t < |s.threads| && CourseEffect(s.sh, s.threads[t], sh', th')
    requires NotGiven(s, After(s, t, sh', th'), h)
    ensures Silent(s, h) ==> Silent(After(s, t, sh', th'), h)
    ensures Deaf(s, h) ==> Deaf(After(s, t, sh', th'), h)
  {
    var s' := After(s, t, sh', th');
    forall i: nat
      ensures MayDispatch(s', i, h) ==> MayDispatch(s, i, h)
      ensures MayReceive(s', i, h) ==> MayReceive(s, i, h)
    {}
  }

  /** What every action keeps about a withdrawn handle. */
  ghost predicate Keeps(s: State, s': State, h: Handle) {
    && Withdrawn(s', h) && NotGiven(s, s', h)
    && (Silent(s, h) ==> Silent(s', h))
    && (Deaf(s, h) ==> Deaf(s', h))
  }

  lemma ArrivalKeeps(s: State, th: Thread, h: Handle)
    requires Withdrawn(s, h) && Idle(|s.threads|, th)
    ensures Keeps(s, Joined(s, th), h)
  {
    forall i: nat
      ensures MayDispatch(Joined(s, th), i, h) ==> MayDispatch(s, i, h)
      ensures MayReceive(Joined(s, th), i, h) ==> MayReceive(s, i, h)
    {}
  }

  lemma CancelKeeps(s: State, t: nat, h: Handle)
    requires Withdrawn(s, h)
    ensures Keeps(s, Cancelled(s, t), h)
  {
    forall i: nat
      ensures MayDispatch(Cancelled(s, t), i, h) ==> MayDispatch(s, i, h)
      ensures MayReceive(Cancelled(s, t), i, h) ==> MayReceive(s, i, h)
    {}
  }

  lemma MoveKeeps(s: State, t: nat, c: Choice, s': State, h: Handle)
    requires LocksOk(s) && StagesOk(s) && MapsOk(s) && ThreadsOk(s) && TokensOk(s) && MessagesOk(s)
    requires Withdrawn(s, h) && Next(s, Move(t, c)) == Some(s')
    ensures Keeps(s, s', h)
  {
    assert ThreadOk(s, t);
    StepEffects(s.sh, t, s.threads[t], c, s'.sh, s'.threads[t]);
    assert s' == After(s, t, s'.sh, s'.threads[t]);
    WithdrawnMove(s, t, s'.sh, s'.threads[t], h);
    CourseMove(s, t, s'.sh, s'.threads[t], h);
  }

  lemma ActionKeeps(s: State, a: Action, s': State, h: Handle)
    requires Inv(s) && Withdrawn(s, h) && Next(s, a) == Some(s')
    ensures Keeps(s, s', h)
  {
    match a
    case Start(call) =>
      NewThreadIdle(|s.threads|, call);
      ArrivalKeeps(s, NewThread(call), h);
    case CancelCaller(t) => CancelKeeps(s, t, h);
    case Move(t, c) => MoveKeeps(s, t, c, s', h);
  }

  /** A handle that has left the map is never given to a loop again; and once no loop can get to a handler
      call with it, or to a message from it, no continuation changes that. */
  lemma {:induction false} WithdrawnForever(s: State, run: seq<Action>, s': State, h: Handle)
    requires Inv(s) && Withdrawn(s, h) && Exec(s, run) == Some(s')
    ensures Inv(s') && Keeps(s, s', h)
    decreases |run|
  {
    if run != [] {
      var s1 := Next(s, run[0]).value;
      ActionKept(s, run[0], s1);
      ActionKeeps(s, run[0], s1, h);
      WithdrawnForever(s1, run[1..], s', h);
    }
  }
}

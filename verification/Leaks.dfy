/** Promises that the plugin does not keep, each with the exact condition under which it does and a run that
    breaks it: Unsubscribe does not stop the loop of the consumer it removes; a regex consumer can leave the
    map without being closed; a loop that recvWG.Wait did not count can receive from a closed consumer; a
    regex call can dial, and a sending call can use, what a cleanup or a Close call has closed meanwhile. */
module Leaks {
  import opened Registry
  import opened Protocol
  import opened Sums
  import opened Invariant
  import opened Effects
  import opened Preservation
  import opened Safety
  import opened Shutdown
  import opened Withdrawal
  import opened Runs

  // ---- Unsubscribe

  /** After `more`, a handler call, Ack or Nack is pending or running on `h`, which has been unsubscribed. */
  predicate HandlesAfter(s: State, more: seq<Action>, s': State, i: nat, h: Handle) {
    Exec(s, more) == Some(s') && On(s', i, h) && Dispatching(s'.threads[i].pc) && h in s'.sh.reg.unsubs
  }

  ghost predicate CanHandleAfter(s: State, h: Handle) {
    exists more, s', i: nat :: HandlesAfter(s, more, s', i, h)
  }

  /** An Unsubscribe call takes the consumer `h` out of the map in the step from `s` to `s'`. */
  predicate Takes(s: State, t: nat, c: Choice, h: Handle, s': State) {
    && t < |s.threads| && s.threads[t].pc == Taking(UnsTake)
    && SlotAt(s.sh.reg.consumers, s.threads[t].name) == Live(h)
    && Next(s, Move(t, c)) == Some(s')
  }

  /** In every reachable state: once an Unsubscribe call takes a consumer out, a handler can still run on it
      after its Unsubscribe if and only if, at that moment, a loop is dispatching from it, or no cleanup has
      set closed or holds the state mutex to set it and a loop on it is before its isClosed check: not yet
      counted, in its select, or with a message in hand. */
  lemma UnsubscribeHandlerIff(s0: State, run: seq<Action>, s: State, t: nat, c: Choice, h: Handle, s': State)
    requires Behaviour(s0, run, s) && Takes(s, t, c, h, s')
    ensures CanHandleAfter(s', h) <==> exists i: nat :: MayDispatch(s, i, h)
  {
    AfterTake(s0, run, s, t, c, h, s');
    CanHandleIff(s', t, h);
  }

  lemma AfterTake(s0: State, run: seq<Action>, s: State, t: nat, c: Choice, h: Handle, s': State)
    requires Behaviour(s0, run, s) && Takes(s, t, c, h, s')
    ensures Inv(s') && Withdrawn(s', h) && (Silent(s', h) <==> Silent(s, h))
    ensures t < |s'.threads| && s'.threads[t].pc == Taking(UnsCall) && s'.threads[t].handle == Live(h)
  {
    ExecSnoc(s0, run, s, Move(t, c), s');
    ReachedInv(s0, run + [Move(t, c)], s');
    ReachedTake(s0, run, s, t, c, h, s');
  }

  lemma ReachedTake(s0: State, run: seq<Action>, s: State, t: nat, c: Choice, h: Handle, s': State)
    requires Behaviour(s0, run, s) && Takes(s, t, c, h, s')
    ensures Withdrawn(s', h) && (Silent(s', h) <==> Silent(s, h))
    ensures t < |s'.threads| && s'.threads[t].pc == Taking(UnsCall) && s'.threads[t].handle == Live(h)
  {
    ReachedInv(s0, run, s);
    TakenOut(s, t, c, h, s');
  }

  lemma CanHandleIff(s: State, t: nat, h: Handle)
    requires Inv(s) && Withdrawn(s, h)
    requires t < |s.threads| && s.threads[t].pc == Taking(UnsCall) && s.threads[t].handle == Live(h)
    ensures CanHandleAfter(s, h) <==> !Silent(s, h)
  {
    if i: nat :| MayDispatch(s, i, h) {
      HandlerAfterTake(s, t, i, h);
    } else {
      NeverHandles(s, h);
    }
  }

  lemma NeverHandles(s: State, h: Handle)
    requires Inv(s) && Withdrawn(s, h) && Silent(s, h)
    ensures !CanHandleAfter(s, h)
  {
    if more, s', i: nat :| HandlesAfter(s, more, s', i, h) {
      SilentForever(s, more, s', h);
    }
  }

  lemma SilentForever(s: State, more: seq<Action>, s': State, h: Handle)
    requires Inv(s) && Withdrawn(s, h) && Silent(s, h) && Exec(s, more) == Some(s')
    ensures forall i: nat | On(s', i, h) :: !Dispatching(s'.threads[i].pc)
  {
    WithdrawnForever(s, more, s', h);
    forall i: nat | On(s', i, h) ensures !Dispatching(s'.threads[i].pc) {
      assert !MayDispatch(s', i, h);
    }
  }

  /** The step withdraws the consumer and leaves the loops on it where they are. */
  lemma TakenOut(s: State, t: nat, c: Choice, h: Handle, s': State)
    requires ThreadsOk(s) && MapsOk(s) && TokensOk(s) && Takes(s, t, c, h, s')
    ensures Withdrawn(s', h) && s'.threads[t].pc == Taking(UnsCall) && s'.threads[t].handle == Live(h)
    ensures Silent(s', h) <==> Silent(s, h)
  {
    assert s.sh.reg.consumers[s.threads[t].name] == Live(h);
    assert Tokens(s, h) == if Created(s, h) then 1 else 0;
    forall i: nat | On(s, i, h) ensures !s.threads[i].pc.Dialling? {
      SumAtLeast(s.threads, OwnsW(h), i);
      assert ThreadOk(s, i);
      DiallingOwns(s.threads[i], i, h);
    }
    assert ThreadOk(s, t);
    assert forall i: nat :: MayDispatch(s', i, h) <==> MayDispatch(s, i, h);
  }

  lemma DiallingOwns(th: Thread, i: nat, h: Handle)
    requires Shape(i, th) && th.handle == Live(h)
    ensures th.pc.Dialling? ==> OwnsW(h)(th) == 1
  {}

  lemma HandlerAfterTake(s: State, t: nat, i: nat, h: Handle)
    requires t < |s.threads| && s.threads[t].pc == Taking(UnsCall) && s.threads[t].handle == Live(h)
    requires MayDispatch(s, i, h)
    ensures CanHandleAfter(s, h)
  {
    var more, s1 := Extend(s, [], s, Move(t, Proceed));
    var s2;
    more, s2 := ToDispatch(s, more, s1, i, 0);
    assert HandlesAfter(s, more, s2, i, h);
  }

  /** Before shutdown it is enough that nothing is subscribed under the name: then no handler call, Ack or
      Nack happens on the consumer in any continuation. */
  lemma UnsubscribeIsFinal(s0: State, run: seq<Action>, s: State, t: nat, c: Choice, h: Handle, s': State,
      more: seq<Action>, s'': State)
    requires Behaviour(s0, run, s) && Takes(s, t, c, h, s')
    requires !s.sh.reg.closed && s.threads[t].name !in s.sh.reg.subscriptions
    requires Exec(s', more) == Some(s'')
    ensures forall i: nat | On(s'', i, h) :: !Dispatching(s''.threads[i].pc)
  {
    AfterTake(s0, run, s, t, c, h, s');
    ReachedInv(s0, run, s);
    assert s.sh.reg.consumers[s.threads[t].name] == Live(h);
    NoLoopOf(s, h);
    SilentForever(s', more, s'', h);
  }

  lemma NoLoopOf(s: State, h: Handle)
    requires SubscriptionsOk(s) && ThreadsOk(s) && !s.sh.reg.closed && h.name !in s.sh.reg.subscriptions
    ensures Silent(s, h)
  {
    forall i: nat | On(s, i, h) ensures !MayDispatch(s, i, h) {
      assert ThreadOk(s, i);
    }
  }

  /** Before shutdown the loop registered under a consumer's name works on that very consumer. */
  lemma LoopOfName(s0: State, run: seq<Action>, s: State, name: string, h: Handle) returns (i: nat)
    requires Behaviour(s0, run, s) && !s.sh.reg.closed
    requires SlotAt(s.sh.reg.consumers, name) == Live(h) && name in s.sh.reg.subscriptions
    ensures i < |s.threads| && InRegistry(s.threads[i].pc) && s.threads[i].handle == Live(h)
  {
    ReachedInv(s0, run, s);
    i := RegisteredLoop(s, name, h);
  }

  lemma RegisteredLoop(s: State, name: string, h: Handle) returns (i: nat)
    requires SubscriptionsOk(s) && MapsOk(s) && ThreadsOk(s) && TokensOk(s) && !s.sh.reg.closed
    requires SlotAt(s.sh.reg.consumers, name) == Live(h) && name in s.sh.reg.subscriptions
    ensures i < |s.threads| && InRegistry(s.threads[i].pc) && s.threads[i].handle == Live(h)
  {
    i := s.sh.reg.subscriptions[name];
    assert Backed(s, name, i);
    assert ThreadOk(s, i);
    assert Tokens(s, h) == if Created(s, h) then 1 else 0;
    if h.kind == Regex {
      assert RegexBacked(s, h);
    } else {
      var g := s.threads[i].handle.handle;
      assert FromRegex(s, g) ==> ThreadOk(s, g.serial);
    }
  }

  // ---- Two loops on one consumer

  /** The registry section of a SubscribeWith call that finds the consumer `h`, in the step from `s` to `s'`. */
  predicate Inserts(s: State, t: nat, c: Choice, h: Handle, s': State) {
    && t < |s.threads| && s.threads[t].pc == Subscribing(SubInsert)
    && SlotAt(s.sh.reg.consumers, s.threads[t].name) == Live(h)
    && Next(s, Move(t, c)) == Some(s')
  }

  /** In every reachable state: the section starts a second loop that drains `h` beside one that can still
      receive from it if and only if there is such a loop and its name has no entry. That needs closed to be
      set: a cleanup has emptied the registry, and the call had passed its check before. */
  lemma SecondDrainerIff(s0: State, run: seq<Action>, s: State, t: nat, c: Choice, h: Handle, s': State)
    requires Behaviour(s0, run, s) && Inserts(s, t, c, h, s')
    ensures (MayReceive(s', t, h) && exists i: nat :: i != t && MayReceive(s', i, h))
            <==> s.threads[t].name !in s.sh.reg.subscriptions && exists i: nat :: MayReceive(s, i, h)
    ensures MayReceive(s', t, h) && (exists i: nat :: i != t && MayReceive(s', i, h)) ==> s.sh.reg.closed
  {
    ReachedInv(s0, run, s);
    InsertMoves(s, t, c, h, s');
    if !s.sh.reg.closed && s.threads[t].name !in s.sh.reg.subscriptions {
      NoDrainer(s, s.threads[t].name, h);
    }
  }

  lemma InsertMoves(s: State, t: nat, c: Choice, h: Handle, s': State)
    requires Inserts(s, t, c, h, s')
    ensures MayReceive(s', t, h) <==> s.threads[t].name !in s.sh.reg.subscriptions
    ensures !MayReceive(s, t, h)
    ensures forall i: nat | i != t :: MayReceive(s', i, h) <==> MayReceive(s, i, h)
  {}

  lemma NoDrainer(s: State, name: string, h: Handle)
    requires SubscriptionsOk(s) && MapsOk(s) && ThreadsOk(s) && !s.sh.reg.closed
    requires SlotAt(s.sh.reg.consumers, name) == Live(h) && name !in s.sh.reg.subscriptions
    ensures forall i: nat :: !MayReceive(s, i, h)
  {
    assert s.sh.reg.consumers[name] == Live(h);
    forall i: nat | On(s, i, h) ensures !MayReceive(s, i, h) {
      assert ThreadOk(s, i);
    }
  }

  /** Until closed is set, no two loops drain one consumer. */
  lemma OneDrainerUntilClosed(s0: State, run: seq<Action>, s: State, h: Handle, i: nat, j: nat)
    requires Behaviour(s0, run, s) && i != j && MayReceive(s, i, h) && MayReceive(s, j, h)
    ensures s.sh.reg.closed
  {
    ReachedInv(s0, run, s);
    if !s.sh.reg.closed { OneEntry(s, h, i, j); }
  }

  lemma OneEntry(s: State, h: Handle, i: nat, j: nat)
    requires SubscriptionsOk(s) && ThreadsOk(s) && !s.sh.reg.closed && MayReceive(s, i, h) && MayReceive(s, j, h)
    ensures i == j
  {
    assert ThreadOk(s, i) && ThreadOk(s, j);
  }

  // ---- Receiving from a closed consumer

  /** After `more`, loop `i` takes a message from `h`. */
  predicate ReceivesAfter(s: State, more: seq<Action>, s1: State, i: nat, m: Message, s2: State, h: Handle) {
    && Exec(s, more) == Some(s1) && On(s1, i, h) && Next(s1, Move(i, Deliver(m))) == Some(s2)
    && s2.threads[i].log.got == s1.threads[i].log.got + [m]
  }

  ghost predicate CanReceive(s: State, h: Handle) {
    exists more, s1, i: nat, m, s2 :: ReceivesAfter(s, more, s1, i, m, s2, h)
  }

  /** In every reachable state, for every closed consumer: a loop can still receive from it if and only if
      one that works on it is not yet counted or in its select. (Until a Wait has returned there is no such
      loop, see `NoUseAfterClose`.) */
  lemma ReceiveFromClosedIff(s0: State, run: seq<Action>, s: State, h: Handle)
    requires Behaviour(s0, run, s) && h in s.sh.reg.closes
    ensures CanReceive(s, h) <==> exists i: nat :: On(s, i, h) && Pending(s.threads[i].pc)
  {
    ReachedInv(s0, run, s);
    ClosedWithdrawn(s, h);
    if i: nat :| On(s, i, h) && Pending(s.threads[i].pc) {
      PendingReceives(s, i, h);
    } else {
      NeverReceives(s, h);
    }
  }

  lemma PendingReceives(s: State, i: nat, h: Handle)
    requires On(s, i, h) && Pending(s.threads[i].pc)
    ensures CanReceive(s, h)
  {
    var more, s1 := ToSelect(s, [], s, i);
    var s2 := Next(s1, Move(i, Deliver(0))).value;
    assert ReceivesAfter(s, more, s1, i, 0, s2, h);
  }

  lemma NeverReceives(s: State, h: Handle)
    requires Inv(s) && Withdrawn(s, h) && Deaf(s, h)
    ensures !CanReceive(s, h)
  {
    if more, s1, i: nat, m, s2 :| ReceivesAfter(s, more, s1, i, m, s2, h) {
      WithdrawnForever(s, more, s1, h);
      assert !MayReceive(s1, i, h);
      ReceiverPending(s1, i, m, s2);
    }
  }

  /** Only a loop in its select takes a message. */
  lemma ReceiverPending(s: State, i: nat, m: Message, s': State)
    requires Inv(s) && i < |s.threads| && Next(s, Move(i, Deliver(m))) == Some(s')
    ensures s'.threads[i].log.got != s.threads[i].log.got ==> Pending(s.threads[i].pc)
  {
    assert ThreadOk(s, i);
    StepEffects(s.sh, i, s.threads[i], Deliver(m), s'.sh, s'.threads[i]);
  }

  /** A closed handle is out of the map, and no loop on it can get past an isClosed check any more. */
  lemma ClosedWithdrawn(s: State, h: Handle)
    requires StagesOk(s) && ThreadsOk(s) && ClosesOk(s) && TokensOk(s) && h in s.sh.reg.closes
    ensures Withdrawn(s, h)
    ensures forall i: nat :: MayReceive(s, i, h) <==> On(s, i, h) && Pending(s.threads[i].pc)
  {
    assert Tokens(s, h) == if Created(s, h) then 1 else 0;
    forall i: nat | On(s, i, h)
      ensures !s.threads[i].pc.Dialling? && (MayReceive(s, i, h) <==> Pending(s.threads[i].pc))
    {
      SumAtLeast(s.threads, OwnsW(h), i);
      assert ThreadOk(s, i);
      DiallingOwns(s.threads[i], i, h);
      if AtGot(s.threads[i].pc) && !s.sh.drained { OpenUntilDrained(s, i); }
    }
  }

  /** So the step in which a cleanup closes the consumers makes a later receive from one of them possible if
      and only if at that moment a loop on it is not yet counted or in its select. */
  lemma CloseStepReceiveIff(s0: State, run: seq<Action>, s: State, t: nat, c: Choice, h: Handle, s': State)
    requires Behaviour(s0, run, s) && t < |s.threads| && s.threads[t].pc == Cleaning(ClnCons)
    requires h in LiveHandles(s.sh.reg.consumers) && Next(s, Move(t, c)) == Some(s')
    ensures h in s'.sh.reg.closes
    ensures CanReceive(s', h) <==> exists i: nat :: On(s, i, h) && Pending(s.threads[i].pc)
  {
    ExecSnoc(s0, run, s, Move(t, c), s');
    ReceiveFromClosedIff(s0, run + [Move(t, c)], s', h);
    assert forall i: nat | i != t :: On(s', i, h) <==> On(s, i, h);
    assert forall i: nat | On(s, i, h) && Pending(s.threads[i].pc) :: On(s', i, h) && Pending(s'.threads[i].pc);
    assert forall i: nat | On(s', i, h) && Pending(s'.threads[i].pc) :: On(s, i, h) && Pending(s.threads[i].pc);
  }

  // ---- Regex consumers

  /** In every reachable state: a step takes a consumer out of the map without closing it if and only if the
      map holds the consumer and the step is the exit section of a regex loop of its name, or the insert of
      a regex call that finds the name unregistered. Such a consumer is a regex consumer and has been
      neither closed nor unsubscribed. */
  lemma LossIff(s0: State, run: seq<Action>, s: State, t: nat, c: Choice, s': State, h: Handle)
    requires Behaviour(s0, run, s) && Next(s, Move(t, c)) == Some(s')
    ensures s'.sh.reg.lost[h] == s.sh.reg.lost[h] + if Loses(s.sh, s.threads[t], h) then 1 else 0
    ensures s'.sh.reg.lost[h] > 0 ==> h.kind == Regex && !InMap(s'.sh.reg, h) && Endings(s'.sh.reg, h) == 0
  {
    ReachedInv(s0, run, s);
    assert ThreadOk(s, t);
    StepEffects(s.sh, t, s.threads[t], c, s'.sh, s'.threads[t]);
    assert LossEffect(s.sh, s.threads[t], s'.sh, h);
    ActionKept(s, Move(t, c), s');
    assert Tokens(s', h) == if Created(s', h) then 1 else 0;
  }

  /** Some Unsubscribe call has taken `h` out of the map. */
  predicate HasBeenTaken(s: State, h: Handle) {
    || h in s.sh.reg.unsubs
    || exists i :: 0 <= i < |s.threads| && s.threads[i].pc == Taking(UnsCall) && s.threads[i].handle == Live(h)
  }

  /** Before shutdown only a regex loop's own exit section loses its consumer, and it does so if and only if
      no Unsubscribe call has taken the consumer. */
  lemma LossBeforeShutdownIff(s0: State, run: seq<Action>, s: State, t: nat, c: Choice, s': State, h: Handle)
    requires Behaviour(s0, run, s) && Next(s, Move(t, c)) == Some(s') && !s.sh.reg.closed
    ensures s'.sh.reg.lost[h] > s.sh.reg.lost[h] <==>
              && s.threads[t].regex && h == Handle(Regex, s.threads[t].name, t)
              && s.threads[t].pc == Looping(ExitDelete) && !HasBeenTaken(s, h)
  {
    LossIff(s0, run, s, t, c, s', h);
    InitHolds(s0);
    LostLeft(s0, run, s);
    ReachedInv(s0, run, s);
    if Loses(s.sh, s.threads[t], h) {
      LosesOwn(s, t, h);
    } else if s.threads[t].regex && h == Handle(Regex, s.threads[t].name, t)
              && s.threads[t].pc == Looping(ExitDelete) && !HasBeenTaken(s, h) {
      StillInMap(s, t, h);
      assert false;
    }
  }

  lemma LosesOwn(s: State, t: nat, h: Handle)
    requires SubscriptionsOk(s) && MapsOk(s) && ThreadsOk(s) && TokensOk(s) && !s.sh.reg.closed
    requires t < |s.threads| && Loses(s.sh, s.threads[t], h)
    ensures s.threads[t].pc == Looping(ExitDelete) && h == Handle(Regex, s.threads[t].name, t)
    ensures !HasBeenTaken(s, h)
  {
    assert ThreadOk(s, t);
    LosesRegex(s.sh, t, s.threads[t], h);
    assert s.sh.reg.consumers[s.threads[t].name] == Live(h) && RegexBacked(s, h);
    assert Tokens(s, h) == if Created(s, h) then 1 else 0;
    forall i: nat | i < |s.threads| && s.threads[i].pc == Taking(UnsCall) ensures s.threads[i].handle != Live(h) {
      SumAtLeast(s.threads, OwnsW(h), i);
    }
  }

  /** The owner of a regex consumer is the call that made it, or an Unsubscribe call. */
  lemma OwnerOf(s: State, i: nat, h: Handle)
    requires ThreadsOk(s) && i < |s.threads| && h.kind == Regex && OwnsW(h)(s.threads[i]) > 0
    ensures s.threads[i].pc == Taking(UnsCall) || (s.threads[i].pc.Dialling? && i == h.serial)
    ensures s.threads[i].handle == Live(h)
  {
    assert ThreadOk(s, i);
  }

  lemma StillInMap(s: State, t: nat, h: Handle)
    requires StagesOk(s) && ThreadsOk(s) && ClosesOk(s) && TokensOk(s) && !s.sh.reg.closed && LeftWhenLost(s)
    requires t < |s.threads| && s.threads[t].regex && h == Handle(Regex, s.threads[t].name, t)
    requires s.threads[t].pc == Looping(ExitDelete) && !HasBeenTaken(s, h)
    ensures InMap(s.sh.reg, h)
  {
    assert ThreadOk(s, t);
    assert Tokens(s, h) == 1;
    if Sum(s.threads, OwnsW(h)) > 0 {
      var i := SumPositive(s.threads, OwnsW(h));
      OwnerOf(s, i, h);
      assert false;
    }
    assert h !in s.sh.reg.lost && h !in s.sh.reg.closes;
  }

  /** Before shutdown a lost consumer belongs to a loop that is past its exit section. */
  predicate LeftWhenLost(s: State) {
    !s.sh.reg.closed ==> forall h | h in s.sh.reg.lost :: PastExit(s, h)
  }

  predicate PastExit(s: State, h: Handle) {
    h.serial < |s.threads| && (s.threads[h.serial].pc == Looping(Leaving) || s.threads[h.serial].pc.Finished?)
  }

  /** A thread past the exit section stays past it. */
  lemma LeavingStays(sh: Shared, t: nat, th: Thread, c: Choice, sh': Shared, th': Thread)
    requires ThreadStep(sh, t, th, c) == Moved(sh', th')
    ensures th.pc == Looping(ExitDelete) ==> th'.pc == Looping(Leaving)
    ensures th.pc == Looping(Leaving) ==> th'.pc.Finished?
  {}

  lemma PastExitStays(s: State, t: nat, c: Choice, s': State, h: Handle)
    requires PastExit(s, h) && Next(s, Move(t, c)) == Some(s')
    ensures PastExit(s', h)
  {
    LeavingStays(s.sh, t, s.threads[t], c, s'.sh, s'.threads[t]);
  }

  lemma LossPastExit(s: State, t: nat, c: Choice, s': State, h: Handle)
    requires SubscriptionsOk(s) && MapsOk(s) && ThreadsOk(s) && TokensOk(s) && !s.sh.reg.closed
    requires Next(s, Move(t, c)) == Some(s') && Loses(s.sh, s.threads[t], h)
    ensures PastExit(s', h)
  {
    LosesOwn(s, t, h);
    LeavingStays(s.sh, t, s.threads[t], c, s'.sh, s'.threads[t]);
  }

  lemma LostLeftMove(s: State, t: nat, c: Choice, s': State)
    requires Inv(s) && LeftWhenLost(s) && Next(s, Move(t, c)) == Some(s')
    ensures LeftWhenLost(s')
  {
    assert ThreadOk(s, t);
    StepEffects(s.sh, t, s.threads[t], c, s'.sh, s'.threads[t]);
    forall h | !s'.sh.reg.closed && h in s'.sh.reg.lost ensures PastExit(s', h) {
      assert LossEffect(s.sh, s.threads[t], s'.sh, h);
      if h in s.sh.reg.lost {
        PastExitStays(s, t, c, s', h);
      } else {
        LossPastExit(s, t, c, s', h);
      }
    }
  }

  lemma LostLeftAction(s: State, a: Action, s': State)
    requires Inv(s) && LeftWhenLost(s) && Next(s, a) == Some(s')
    ensures LeftWhenLost(s')
  {
    match a
    case Start(call) =>
    case CancelCaller(t) =>
    case Move(t, c) => LostLeftMove(s, t, c, s');
  }

  lemma {:induction false} LostLeft(s: State, run: seq<Action>, s': State)
    requires Inv(s) && LeftWhenLost(s) && Exec(s, run) == Some(s')
    ensures LeftWhenLost(s')
    decreases |run|
  {
    if run != [] {
      var s1 := Next(s, run[0]).value;
      ActionKept(s, run[0], s1);
      LostLeftAction(s, run[0], s1);
      LostLeft(s1, run[1..], s');
    }
  }

  // ---- Using what has been closed meanwhile

  /** A regex call about to dial the client it has looked at, or a sending call about to use the producer it
      has looked up: it holds no mutex, and no Wait counts it. */
  predicate AboutToUse(pc: PC) { pc == Dialling(RxDial) || AtSend(pc) }

  predicate OthersEnded(s: State, t: nat) {
    forall i | 0 <= i < |s.threads| && i != t :: Ended(s.threads[i].pc)
  }

  /** From every reachable state with such a call there is a continuation in which the call has not moved and
      what it is about to use is closed: the check that it made never protects the use. */
  lemma UseAfterClose(s0: State, run: seq<Action>, s: State, t: nat) returns (run': seq<Action>, s': State)
    requires Behaviour(s0, run, s) && t < |s.threads| && AboutToUse(s.threads[t].pc)
    ensures Behaviour(s0, run', s') && run <= run' && t < |s'.threads| && s'.threads[t] == s.threads[t]
    ensures !s'.sh.reg.clientOpen
    ensures AtSend(s.threads[t].pc) ==> s.threads[t].handle.Live? && s.threads[t].handle.handle in s'.sh.reg.closes
  {
    run', s' := ReachClosed(s0, run, s, t);
    run', s' := FinishOthers(s0, run', s', t);
    ReachedInv(s0, run', s');
    ClosedForAll(s', t);
    if AtSend(s.threads[t].pc) { SendOnClosedIff(s0, run', s', t); }
  }

  /** Some cleanup sets closed. */
  lemma ReachClosed(s0: State, run: seq<Action>, s: State, t: nat) returns (run': seq<Action>, s': State)
    requires Behaviour(s0, run, s) && t < |s.threads| && AboutToUse(s.threads[t].pc)
    ensures Behaviour(s0, run', s') && run <= run' && t < |s'.threads| && s'.threads[t] == s.threads[t]
    ensures s'.sh.reg.closed
  {
    if s.sh.reg.closed { return run, s; }
    run', s' := StartCleanup(s0, run, s);
    if s'.sh.stateMutex == None {
      run', s' := MarkFree(s0, run', s');
    } else {
      ReachedInv(s0, run', s');
      StateHolderMarks(s');
      run', s' := MarkHeld(s0, run', s', s'.sh.stateMutex.value);
    }
  }

  lemma StartCleanup(s0: State, run: seq<Action>, s: State) returns (run': seq<Action>, s': State)
    requires Exec(s0, run) == Some(s)
    ensures Exec(s0, run') == Some(s') && run <= run'
    ensures s'.threads == s.threads + [NewThread(Cleanup).(pc := Cleaning(ClnMarkLock))]
    ensures s'.sh == s.sh.(reg := s.sh.reg.(closeChan := true))
  {
    run', s' := Extend(s0, run, s, Start(Cleanup));
    run', s' := Extend(s0, run', s', Move(|s.threads|, Proceed));
    assert s'.threads == s.threads + [NewThread(Cleanup).(pc := Cleaning(ClnMarkLock))];
  }

  lemma MarkFree(s0: State, run: seq<Action>, s: State) returns (run': seq<Action>, s': State)
    requires Exec(s0, run) == Some(s) && s.threads != [] && s.sh.stateMutex == None
    requires s.threads[|s.threads| - 1].pc == Cleaning(ClnMarkLock)
    ensures Exec(s0, run') == Some(s') && run <= run' && |s'.threads| == |s.threads|
    ensures s'.threads[..|s.threads| - 1] == s.threads[..|s.threads| - 1] && s'.sh.reg.closed
  {
    run', s' := Extend(s0, run, s, Move(|s.threads| - 1, Proceed));
    run', s' := Extend(s0, run', s', Move(|s.threads| - 1, Proceed));
  }

  lemma MarkHeld(s0: State, run: seq<Action>, s: State, u: nat) returns (run': seq<Action>, s': State)
    requires Exec(s0, run) == Some(s) && u < |s.threads| && s.threads[u].pc == Cleaning(ClnMark)
    ensures Exec(s0, run') == Some(s') && run <= run' && |s'.threads| == |s.threads|
    ensures s'.sh.reg.closed && forall i | 0 <= i < |s.threads| && i != u :: s'.threads[i] == s.threads[i]
  {
    run', s' := Extend(s0, run, s, Move(u, Proceed));
  }

  lemma StateHolderMarks(s: State)
    requires LocksOk(s) && StagesOk(s) && !s.sh.reg.closed && s.sh.stateMutex.Some?
    ensures s.sh.stateMutex.value < |s.threads| && s.threads[s.sh.stateMutex.value].pc == Cleaning(ClnMark)
  {
    assert StageOk(s.sh, s.threads[s.sh.stateMutex.value].pc);
  }

  /** Then everybody else can run to the end. */
  lemma FinishOthers(s0: State, run: seq<Action>, s: State, t: nat) returns (run': seq<Action>, s': State)
    requires Behaviour(s0, run, s) && s.sh.reg.closed && t < |s.threads| && AboutToUse(s.threads[t].pc)
    ensures Behaviour(s0, run', s') && run <= run' && t < |s'.threads| && s'.threads[t] == s.threads[t]
    ensures s'.sh.reg.closed && OthersEnded(s', t)
    decreases Measure(s)
  {
    if OthersEnded(s, t) { return run, s; }
    var i: nat :| i < |s.threads| && i != t && !Ended(s.threads[i].pc);
    run', s' := OtherSteps(s0, run, s, t, i);
    run', s' := FinishOthers(s0, run', s', t);
  }

  lemma OtherSteps(s0: State, run: seq<Action>, s: State, t: nat, i: nat) returns (run': seq<Action>, s': State)
    requires Behaviour(s0, run, s) && s.sh.reg.closed && t < |s.threads| && AboutToUse(s.threads[t].pc)
    requires i < |s.threads| && i != t && !Ended(s.threads[i].pc)
    ensures Behaviour(s0, run', s') && run <= run' && t < |s'.threads| && s'.threads[t] == s.threads[t]
    ensures s'.sh.reg.closed && Measure(s') < Measure(s)
  {
    var u := OtherAble(s0, run, s, t, i);
    var a := Move(u, Due(s.sh, s.threads[u].pc));
    run', s' := Extend(s0, run, s, a);
    ActionClosing(s, a, s');
  }

  lemma OtherAble(s0: State, run: seq<Action>, s: State, t: nat, i: nat) returns (u: nat)
    requires Behaviour(s0, run, s) && s.sh.reg.closed && t < |s.threads| && AboutToUse(s.threads[t].pc)
    requires i < |s.threads| && i != t && !Ended(s.threads[i].pc)
    ensures u < |s.threads| && u != t && Able(s, u)
  {
    ReachedInv(s0, run, s);
    u := SomeoneAble(s, i);
  }

  lemma ClosedForAll(s: State, t: nat)
    requires StagesOk(s) && s.sh.reg.closed && t < |s.threads| && AboutToUse(s.threads[t].pc) && OthersEnded(s, t)
    ensures !s.sh.reg.clientOpen && s.sh.reg.producers == map[] && forall h :: !BeingClosed(s, h)
  {
    var d :| 0 <= d < |s.threads| && Stage(s.threads[d].pc) >= 2;
    assert s.threads[d].pc == Cleaning(ClnDone) && StageOk(s.sh, s.threads[d].pc);
  }

  // ---- Concrete runs

  /** A plugin whose only call is at `pc`, with no lock held and nothing ended yet. */
  predicate Single(s0: State, s: State, pc: PC) {
    && |s.threads| == 1 && s.threads[0].pc == pc && Unlocked(s.sh)
    && s.sh.reg == s0.sh.reg.(consumers := s.sh.reg.consumers, subscriptions := s.sh.reg.subscriptions,
                              recvWG := s.sh.reg.recvWG)
  }

  lemma NamedRegisters(s0: State, name: string, h: Handle) returns (run: seq<Action>, s: State)
    requires Init(s0) && SlotAt(s0.sh.reg.consumers, name) == Live(h)
    ensures Exec(s0, run) == Some(s) && Single(s0, s, Looping(Registered))
    ensures s.threads[0].handle == Live(h) && s.sh.reg.consumers == s0.sh.reg.consumers && s.sh.reg.recvWG == 0
  {
    run, s := Extend(s0, [], s0, Start(SubscribeWith(name)));
    run, s := Extend(s0, run, s, Move(0, Proceed));
    run, s := Extend(s0, run, s, Move(0, Proceed));
    run, s := Extend(s0, run, s, Move(0, Proceed));
  }

  /** For every consumer of every started plugin there is a run in which a message handler is running on
      that consumer after its Unsubscribe call has been made. */
  lemma HandlerAfterUnsubscribe(s0: State, name: string, h: Handle, m: Message)
    returns (run: seq<Action>, s: State)
    requires Init(s0) && SlotAt(s0.sh.reg.consumers, name) == Live(h)
    ensures Behaviour(s0, run, s)
    ensures h in s.sh.reg.unsubs
    ensures |s.threads| == 2 && s.threads[0].pc == Looping(Handling(m)) && s.threads[0].handle == Live(h)
  {
    run, s := NamedRegisters(s0, name, h);
    run, s := UnsubscribeBeside(s0, run, s, name, h);
    run, s := Extend(s0, run, s, Move(0, Proceed));
    run, s := Extend(s0, run, s, Move(0, Deliver(m)));
    run, s := Extend(s0, run, s, Move(0, Proceed));
    run, s := Extend(s0, run, s, Move(0, Proceed));
  }

  lemma UnsubscribeBeside(s0: State, run: seq<Action>, s: State, name: string, h: Handle)
    returns (run': seq<Action>, s': State)
    requires Exec(s0, run) == Some(s) && |s.threads| == 1 && Unlocked(s.sh)
    requires SlotAt(s.sh.reg.consumers, name) == Live(h)
    ensures Exec(s0, run') == Some(s') && |s'.threads| == 2 && s'.threads[0] == s.threads[0]
    ensures h in s'.sh.reg.unsubs && s'.sh.reg.closed == s.sh.reg.closed && Unlocked(s'.sh)
  {
    run', s' := Extend(s0, run, s, Start(Unsubscribe(name)));
    run', s' := Extend(s0, run', s', Move(1, Proceed));
    run', s' := Extend(s0, run', s', Move(1, Proceed));
    run', s' := Extend(s0, run', s', Move(1, Proceed));
  }

  /** For every consumer of every started plugin there is a run in which a loop takes a message from that
      consumer after a cleanup has closed it: the loop was in the window between the registry insert
      and recvWG.Add when Wait returned. */
  lemma ReceiveAfterClose(s0: State, name: string, h: Handle, m: Message) returns (run: seq<Action>, s: State)
    requires Init(s0) && SlotAt(s0.sh.reg.consumers, name) == Live(h)
    ensures Behaviour(s0, run, s)
    ensures h in s.sh.reg.closes
    ensures |s.threads| == 2 && s.threads[0].pc == Looping(Got(m)) && s.threads[0].handle == Live(h)
  {
    run, s := NamedRegisters(s0, name, h);
    assert h in LiveHandles(s.sh.reg.consumers) by { assert s.sh.reg.consumers[name] == Live(h); }
    run, s := WholeCleanup(s0, run, s);
    run, s := Extend(s0, run, s, Move(0, Proceed));
    run, s := Extend(s0, run, s, Move(0, Deliver(m)));
  }

  /** For every consumer of every started plugin there is a run in which two loops have each taken a message
      from it: the second call had passed its check when a cleanup set closed and emptied the registry. */
  lemma TwoDrainers(s0: State, name: string, h: Handle, m: Message, m': Message)
    returns (run: seq<Action>, s: State)
    requires Init(s0) && SlotAt(s0.sh.reg.consumers, name) == Live(h)
    ensures Behaviour(s0, run, s) && |s.threads| == 3
    ensures s.threads[0].handle == Live(h) && s.threads[0].pc == Looping(Got(m))
    ensures s.threads[1].handle == Live(h) && s.threads[1].pc == Looping(Got(m'))
  {
    run, s := NamedRegisters(s0, name, h);
    run, s := Extend(s0, run, s, Start(SubscribeWith(name)));
    run, s := Extend(s0, run, s, Move(1, Proceed));
    run := CleanupMarks(s0, run, s);
    run := CleanupDrains(s0, run, s, Marked(s.sh.reg));
    s := WithCleanup(s, ClnWait, Drained(Marked(s.sh.reg)), s.sh.drained);
    run, s := Extend(s0, run, s, Move(1, Proceed));
    run, s := Extend(s0, run, s, Move(1, Proceed));
    run, s := BothTake(s0, run, s, m, m');
  }

  lemma BothTake(s0: State, run: seq<Action>, s: State, m: Message, m': Message)
    returns (run': seq<Action>, s': State)
    requires Exec(s0, run) == Some(s) && |s.threads| == 3
    requires s.threads[0].pc == Looping(Registered) && s.threads[1].pc == Looping(Registered)
    ensures Exec(s0, run') == Some(s') && |s'.threads| == 3
    ensures s'.threads[0].handle == s.threads[0].handle && s'.threads[0].pc == Looping(Got(m))
    ensures s'.threads[1].handle == s.threads[1].handle && s'.threads[1].pc == Looping(Got(m'))
  {
    run', s' := Extend(s0, run, s, Move(0, Proceed));
    run', s' := Extend(s0, run', s', Move(0, Deliver(m)));
    run', s' := Extend(s0, run', s', Move(1, Proceed));
    run', s' := Extend(s0, run', s', Move(1, Deliver(m')));
  }

  /** For every producer of every started plugin there is a run in which a sending call is about to send to
      that producer after a Close call for its name has closed it. */
  lemma SendAfterClose(s0: State, name: string, h: Handle) returns (run: seq<Action>, s: State)
    requires Init(s0) && SlotAt(s0.sh.reg.producers, name) == Live(h)
    ensures Behaviour(s0, run, s)
    ensures h in s.sh.reg.closes
    ensures |s.threads| == 2 && s.threads[0].pc == Sending(SndCall(1)) && s.threads[0].handle == Live(h)
  {
    run, s := Extend(s0, [], s0, Start(Send(name, 1)));
    run, s := Extend(s0, run, s, Move(0, Proceed));
    run, s := Extend(s0, run, s, Start(Close(name)));
    run, s := Extend(s0, run, s, Move(1, Proceed));
    run, s := Extend(s0, run, s, Move(1, Proceed));
    run, s := Extend(s0, run, s, Move(1, Proceed));
  }

  /** A regex call gets as far as having dialled: it owns a new consumer and wants consumerMutex. */
  lemma RegexDials(s0: State, run: seq<Action>, s: State, pattern: string) returns (run': seq<Action>, s': State)
    requires Exec(s0, run) == Some(s) && Unlocked(s.sh) && !s.sh.reg.closed && s.sh.reg.clientOpen
    ensures Exec(s0, run') == Some(s')
    ensures s'.sh == s.sh && s'.threads == s.threads + [DialledBy(|s.threads|, pattern)]
  {
    var t := |s.threads|;
    run', s' := Extend(s0, run, s, Start(SubscribeWithRegex(pattern)));
    run', s' := Extend(s0, run', s', Move(t, Proceed));
    run', s' := Extend(s0, run', s', Move(t, Proceed));
    run', s' := Extend(s0, run', s', Move(t, Proceed));
    assert s'.threads == s.threads + [DialledBy(t, pattern)];
  }

  function DialledBy(t: nat, pattern: string): Thread {
    NewThread(SubscribeWithRegex(pattern)).(pc := Dialling(RxLock), handle := Live(OfRegex(t, pattern)))
  }

  function OfRegex(t: nat, pattern: string): Handle { Handle(Regex, RegexName(pattern), t) }

  /** It inserts its consumer and is registered. */
  lemma RegexInserts(s0: State, run: seq<Action>, s: State, t: nat, pattern: string)
    returns (run': seq<Action>, s': State)
    requires Exec(s0, run) == Some(s) && s.sh.consumerMutex == None
    requires t < |s.threads| && s.threads[t] == DialledBy(t, pattern) && RegexName(pattern) !in s.sh.reg.subscriptions
    ensures Exec(s0, run') == Some(s')
    ensures s'.threads == s.threads[t := DialledBy(t, pattern).(pc := Looping(Registered))]
    ensures s'.sh == s.sh.(reg := RegisterRegex(s.sh.reg, RegexName(pattern), t, OfRegex(t, pattern)).0)
  {
    run', s' := Extend(s0, run, s, Move(t, Proceed));
    run', s' := Extend(s0, run', s', Move(t, Proceed));
    assert s'.threads == s.threads[t := DialledBy(t, pattern).(pc := Looping(Registered))];
  }

  /** A regex loop in its select leaves: its channel ends, it exits and is gone. */
  lemma RegexLeaves(s0: State, run: seq<Action>, s: State, t: nat, pattern: string)
    returns (run': seq<Action>, s': State)
    requires Exec(s0, run) == Some(s) && s.sh.consumerMutex == None
    requires t < |s.threads| && s.threads[t] == DialledBy(t, pattern).(pc := Looping(Select))
    ensures Exec(s0, run') == Some(s')
    ensures s'.threads == s.threads[t := DialledBy(t, pattern).(pc := Finished)]
    ensures s'.sh == s.sh.(reg := ExitRegex(s.sh.reg, RegexName(pattern)).(
                              cancelled := s.sh.reg.cancelled + {t}, recvWG := s.sh.reg.recvWG - 1))
  {
    run', s' := Extend(s0, run, s, Move(t, ChanEnd));
    run', s' := Extend(s0, run', s', Move(t, Proceed));
    run', s' := Extend(s0, run', s', Move(t, Proceed));
    run', s' := Extend(s0, run', s', Move(t, Proceed));
    assert s'.threads == s.threads[t := DialledBy(t, pattern).(pc := Finished)];
  }

  /** From every started plugin there is a run in which a regex consumer ends up in no map and in
      nobody's hands without ever having been closed. */
  lemma RegexConsumerLost(s0: State, pattern: string) returns (run: seq<Action>, s: State)
    requires Init(s0)
    ensures Behaviour(s0, run, s)
    ensures var h := OfRegex(0, pattern);
            Created(s, h) && !InMap(s.sh.reg, h) && Endings(s.sh.reg, h) == 0 && Sum(s.threads, OwnsW(h)) == 0
    ensures forall i | 0 <= i < |s.threads| :: Ended(s.threads[i].pc)
  {
    run, s := RegexDials(s0, [], s0, pattern);
    run, s := RegexInserts(s0, run, s, 0, pattern);
    run, s := ToSelect(s0, run, s, 0);
    run, s := RegexLeaves(s0, run, s, 0, pattern);
    SumZero(s.threads, OwnsW(OfRegex(0, pattern)));
  }

  /** From every started plugin there is a run in which two regex consumers of one name are lost, neither by
      its own loop's exit. A second call has dialled when a cleanup empties the registry; its insert overwrites
      the first consumer, whose loop is still running; that loop's exit then deletes the second consumer, whose
      loop has not been counted yet. */
  lemma BothConsumersLost(s0: State, pattern: string) returns (run: seq<Action>, s: State)
    requires Init(s0)
    ensures Behaviour(s0, run, s)
    ensures OfRegex(0, pattern) in s.sh.reg.lost && OfRegex(1, pattern) in s.sh.reg.lost
    ensures |s.threads| == 3 && s.threads[1].pc == Looping(Registered) && s.threads[1].handle == Live(OfRegex(1, pattern))
  {
    run, s := RegexDials(s0, [], s0, pattern);
    run, s := RegexInserts(s0, run, s, 0, pattern);
    run, s := RegexDials(s0, run, s, pattern);
    run := CleanupMarks(s0, run, s);
    run := CleanupDrains(s0, run, s, Marked(s.sh.reg));
    s := WithCleanup(s, ClnWait, Drained(Marked(s.sh.reg)), s.sh.drained);
    run, s := RegexInserts(s0, run, s, 1, pattern);
    assert OfRegex(0, pattern) in s.sh.reg.lost;
    run, s := ToSelect(s0, run, s, 0);
    run, s := RegexLeaves(s0, run, s, 0, pattern);
  }
}

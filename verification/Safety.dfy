/** Safety of the receive loops and of shutdown: what holds in every state that any run of any number
    of concurrent callers reaches. */
module Safety {
  import opened Registry
  import opened Protocol
  import opened Sums
  import opened Invariant
  import opened Preservation

  /** `run` leads from a started plugin to `s`. */
  predicate Behaviour(s0: State, run: seq<Action>, s: State) {
    Init(s0) && Exec(s0, run) == Some(s)
  }

  lemma {:induction false} ExecSnoc(s: State, run: seq<Action>, s1: State, a: Action, s2: State)
    requires Exec(s, run) == Some(s1) && Next(s1, a) == Some(s2)
    ensures Exec(s, run + [a]) == Some(s2)
    decreases |run|
  {
    if run == [] {
      assert [a][1..] == [];
      assert Exec(s2, []) == Some(s2);
    } else {
      ExecSnoc(Next(s, run[0]).value, run[1..], s1, a, s2);
      assert (run + [a])[1..] == run[1..] + [a];
    }
  }

  lemma ReachedInv(s0: State, run: seq<Action>, s: State)
    requires Behaviour(s0, run, s)
    ensures Inv(s)
  {
    InitHolds(s0);
    RunKept(s0, run, s);
  }

  predicate Ended(pc: PC) {
    pc.Finished? || pc.Returned? || pc.Rejected? || pc == Cleaning(ClnDone)
  }

  /** No handler call, Ack or Nack is pending or in progress on a consumer that has been closed; and
      from the moment a cleanup's Wait returns, none is pending or in progress at all, although loops
      may still be registered that the Wait did not count. Until a Wait has returned, no loop has a
      closed consumer even to receive from; afterwards that can happen, see `Leaks.ReceiveAfterClose`. */
  lemma NoUseAfterClose(s0: State, run: seq<Action>, s: State)
    requires Behaviour(s0, run, s)
    ensures forall i | 0 <= i < |s.threads| && Dispatching(s.threads[i].pc) ::
              s.threads[i].handle.Live? && s.threads[i].handle.handle !in s.sh.reg.closes
    ensures (exists j | 0 <= j < |s.threads| :: Stage(s.threads[j].pc) >= 3) ==>
              forall i | 0 <= i < |s.threads| :: !Dispatching(s.threads[i].pc)
    ensures !s.sh.drained ==>
              forall i | 0 <= i < |s.threads| && WasRegistered(s.threads[i].pc) ::
                s.threads[i].handle.Live? && s.threads[i].handle.handle !in s.sh.reg.closes
  {
    ReachedInv(s0, run, s);
    forall i | !s.sh.drained && 0 <= i < |s.threads| && WasRegistered(s.threads[i].pc)
      ensures s.threads[i].handle.Live? && s.threads[i].handle.handle !in s.sh.reg.closes
    {
      OpenUntilDrained(s, i);
    }
  }

  lemma OpenUntilDrained(s: State, i: nat)
    requires ThreadsOk(s) && ClosesOk(s) && !s.sh.drained && i < |s.threads| && WasRegistered(s.threads[i].pc)
    ensures s.threads[i].handle.Live? && s.threads[i].handle.handle !in s.sh.reg.closes
  {
    assert ThreadOk(s, i);
  }

  /** The registry holds exactly the names of the loops that are in it, one loop a name. */
  predicate ExactRegistry(s: State) {
    && (forall n | n in s.sh.reg.subscriptions :: Backed(s, n, s.sh.reg.subscriptions[n]))
    && (forall i | 0 <= i < |s.threads| && InRegistry(s.threads[i].pc) ::
          s.threads[i].name in s.sh.reg.subscriptions && s.sh.reg.subscriptions[s.threads[i].name] == i)
  }

  /** The registry is exact until closed is set. In every state, also after stopReceivers has emptied
      the registry, no two loops dispatch under one name or from one consumer. */
  lemma SingleDrainer(s0: State, run: seq<Action>, s: State)
    requires Behaviour(s0, run, s)
    ensures !s.sh.reg.closed ==> ExactRegistry(s)
    ensures forall i, j | 0 <= i < j < |s.threads| && Dispatching(s.threads[i].pc) && Dispatching(s.threads[j].pc) ::
              s.threads[i].name != s.threads[j].name && s.threads[i].handle != s.threads[j].handle
  {
    ReachedInv(s0, run, s);
    forall i, j | 0 <= i < j < |s.threads| && Dispatching(s.threads[i].pc) && Dispatching(s.threads[j].pc)
      ensures s.threads[i].name != s.threads[j].name && s.threads[i].handle != s.threads[j].handle
    {
      DistinctNames(s, i, j);
    }
  }

  lemma DistinctNames(s: State, i: nat, j: nat)
    requires SubscriptionsOk(s) && ThreadsOk(s) && i < j < |s.threads|
    requires Dispatching(s.threads[i].pc) && Dispatching(s.threads[j].pc)
    ensures s.threads[i].name != s.threads[j].name && s.threads[i].handle != s.threads[j].handle
  {
    assert ThreadOk(s, i) && ThreadOk(s, j);
  }

  /** Thread `i` holds at most one mutex, and none where it must not. */
  predicate Disciplined(sh: Shared, i: nat, pc: PC) {
    var c, p, st := sh.consumerMutex == Some(i), sh.producerMutex == Some(i), sh.stateMutex == Some(i);
    && !(c && p) && !(c && st) && !(p && st)
    && (OutsideLocks(pc) ==> !c && !p && !st)
  }

  predicate Exclusive(a: PC, b: PC) {
    && !(HoldsConsumer(a) && HoldsConsumer(b))
    && !(HoldsProducer(a) && HoldsProducer(b))
    && !(HoldsState(a) && HoldsState(b))
  }

  lemma OneMutexAtMost(sh: Shared, i: nat, pc: PC)
    requires sh.consumerMutex == Some(i) <==> HoldsConsumer(pc)
    requires sh.producerMutex == Some(i) <==> HoldsProducer(pc)
    requires sh.stateMutex == Some(i) <==> HoldsState(pc)
    ensures Disciplined(sh, i, pc)
  {}

  /** No thread ever holds two of the three mutexes, two threads never hold the same one, and no mutex
      is held during recvWG.Wait, a message handler, or a call into the client library made by a
      subscribe, Unsubscribe, Close or sending caller. The Close calls of closeAllResources are made
      under the mutex of the map, or of the client, that they empty. */
  lemma LockDiscipline(s0: State, run: seq<Action>, s: State)
    requires Behaviour(s0, run, s)
    ensures forall i | 0 <= i < |s.threads| :: Disciplined(s.sh, i, s.threads[i].pc)
    ensures forall i, j | 0 <= i < j < |s.threads| :: Exclusive(s.threads[i].pc, s.threads[j].pc)
  {
    ReachedInv(s0, run, s);
    forall i | 0 <= i < |s.threads| ensures Disciplined(s.sh, i, s.threads[i].pc) {
      OneMutexAtMost(s.sh, i, s.threads[i].pc);
    }
  }

  predicate OutsideLocks(pc: PC) {
    || pc == Cleaning(ClnWait)
    || InHandler(pc)
    || pc == Dialling(RxDial) || pc == Dialling(RxReject)
    || pc == Taking(UnsCall) || pc == Taking(ProCall) || AtSend(pc)
  }

  /** For every loop: messages taken = acked + nacked + dropped + the one in hand, as multisets; at most
      one is dropped, and only when the plugin is closed; every handler call leads to exactly one Ack
      or Nack. So when the deliveries are distinct none of them is both acked and nacked. */
  lemma MessageConservation(s0: State, run: seq<Action>, s: State, i: nat)
    requires Behaviour(s0, run, s) && i < |s.threads|
    ensures Balanced(s.threads[i].log, InFlight(s.threads[i].pc))
    ensures Tallied(s.sh, s.threads[i])
    ensures (forall m: Message :: multiset(s.threads[i].log.got)[m] <= 1) ==>
              forall m: Message :: !(m in s.threads[i].log.acked && m in s.threads[i].log.nacked)
  {
    ReachedInv(s0, run, s);
    var log := s.threads[i].log;
    assert Balanced(log, InFlight(s.threads[i].pc));
    forall m: Message | multiset(log.got)[m] <= 1
      ensures !(m in log.acked && m in log.nacked)
    {
      assert m in log.acked <==> multiset(log.acked)[m] > 0;
      assert m in log.nacked <==> multiset(log.nacked)[m] > 0;
    }
  }

  function AckedW(th: Thread): nat { |th.log.acked| }
  function NackedW(th: Thread): nat { |th.log.nacked| + th.log.panics }

  predicate AtRest(s: State) {
    forall i | 0 <= i < |s.threads| :: !InHandler(s.threads[i].pc)
  }

  /** Whenever no handler call is unsettled, consumerReceived is the number of Acks, and consumerFailed
      is the number of Nacks plus the number of handler panics. */
  lemma CounterAgreement(s0: State, run: seq<Action>, s: State)
    requires Behaviour(s0, run, s) && AtRest(s)
    ensures s.sh.reg.received == Sum(s.threads, AckedW)
    ensures s.sh.reg.failed == Sum(s.threads, NackedW)
  {
    ReachedInv(s0, run, s);
    SumSame(s.threads, ReceivedW, AckedW);
    SumSame(s.threads, FailedW, NackedW);
  }

  /** The ways a handle has been ended. */
  function Endings(r: Registry, h: Handle): nat { r.closes[h] + r.unsubs[h] }

  /** No handle is ever ended twice, whichever of Close, Unsubscribe, rejected regex calls and cleanups
      race for it. A handle made by startup is, at every moment, in exactly one place: in its map,
      owned by exactly one caller, or ended; it is never lost. */
  lemma HandleOwnership(s0: State, run: seq<Action>, s: State, h: Handle)
    requires Behaviour(s0, run, s)
    ensures Endings(s.sh.reg, h) <= 1
    ensures h in s.sh.made ==>
              (if InMap(s.sh.reg, h) then 1 else 0) + Sum(s.threads, OwnsW(h)) + Endings(s.sh.reg, h) == 1
    ensures Created(s, h) && h !in s.sh.made ==>
              (if InMap(s.sh.reg, h) then 1 else 0) + Sum(s.threads, OwnsW(h)) + Endings(s.sh.reg, h)
              + s.sh.reg.lost[h] == 1
    ensures forall i, j | 0 <= i < j < |s.threads| :: !(OwnsW(h)(s.threads[i]) == 1 && OwnsW(h)(s.threads[j]) == 1)
  {
    ReachedInv(s0, run, s);
    assert Tokens(s, h) == if Created(s, h) then 1 else 0;
    forall i, j | 0 <= i < j < |s.threads| ensures !(OwnsW(h)(s.threads[i]) == 1 && OwnsW(h)(s.threads[j]) == 1) {
      SumAtLeastTwo(s.threads, OwnsW(h), i, j);
    }
  }

  predicate Quiescent(s: State) {
    && (forall i | 0 <= i < |s.threads| :: Ended(s.threads[i].pc))
    && (exists i :: 0 <= i < |s.threads| && s.threads[i].pc == Cleaning(ClnDone))
  }

  lemma QuiescentMaps(s: State)
    requires StagesOk(s) && CountOk(s) && SubscriptionsOk(s) && MapsOk(s) && Quiescent(s)
    ensures s.sh.reg.subscriptions == map[] && s.sh.reg.consumers == map[] && s.sh.reg.producers == map[]
    ensures s.sh.reg.recvWG == 0 && !s.sh.reg.clientOpen
  {
    var r := s.sh.reg;
    var d :| 0 <= d < |s.threads| && s.threads[d].pc == Cleaning(ClnDone);
    assert StageOk(s.sh, s.threads[d].pc);
    assert forall n, t :: !Backed(s, n, t);
    assert forall h :: !RegexBacked(s, h);
    SumZero(s.threads, CountedW);
  }

  /** When a cleanup has finished and every call and loop has ended, nothing is left: the maps and the
      registry are empty despite inserts after the drain, the wait group is at zero, the client has
      been closed once, and every handle made by startup has been ended exactly once. A regex
      consumer has been ended once or lost once. */
  lemma QuiescentShutdown(s0: State, run: seq<Action>, s: State)
    requires Behaviour(s0, run, s) && Quiescent(s)
    ensures s.sh.reg.subscriptions == map[] && s.sh.reg.consumers == map[] && s.sh.reg.producers == map[]
    ensures s.sh.reg.recvWG == 0
    ensures !s.sh.reg.clientOpen && s.sh.reg.clientCloses == 1
    ensures forall h | h in s.sh.made :: Endings(s.sh.reg, h) == 1
    ensures forall h | Created(s, h) && h !in s.sh.made :: Endings(s.sh.reg, h) + s.sh.reg.lost[h] == 1
  {
    ReachedInv(s0, run, s);
    QuiescentMaps(s);
    forall h | Created(s, h) ensures Endings(s.sh.reg, h) + s.sh.reg.lost[h] == 1 {
      SumZero(s.threads, OwnsW(h));
      assert Tokens(s, h) == 1;
    }
  }

  /** The window between the registry insert and recvWG.Add. When a Wait can return, everything still in
      the registry, and every regex consumer still in the map, belongs to a loop that has been
      inserted and not yet counted. */
  lemma WaitWindow(s0: State, run: seq<Action>, s: State)
    requires Behaviour(s0, run, s) && s.sh.reg.recvWG == 0
    ensures forall n | n in s.sh.reg.subscriptions ::
              && s.sh.reg.subscriptions[n] < |s.threads|
              && s.threads[s.sh.reg.subscriptions[n]].pc == Looping(Registered)
    ensures forall n | n in s.sh.reg.consumers && s.sh.reg.consumers[n].Live? && s.sh.reg.consumers[n].handle.kind == Regex ::
              && s.sh.reg.consumers[n].handle.serial < |s.threads|
              && s.threads[s.sh.reg.consumers[n].handle.serial].pc == Looping(Registered)
  {
    ReachedInv(s0, run, s);
    forall t | 0 <= t < |s.threads| ensures !Counted(s.threads[t].pc) {
      SumAtLeast(s.threads, CountedW, t);
    }
    forall n | n in s.sh.reg.subscriptions
      ensures s.sh.reg.subscriptions[n] < |s.threads| && s.threads[s.sh.reg.subscriptions[n]].pc == Looping(Registered)
    {
      assert Backed(s, n, s.sh.reg.subscriptions[n]);
    }
    forall n | n in s.sh.reg.consumers && s.sh.reg.consumers[n].Live? && s.sh.reg.consumers[n].handle.kind == Regex
      ensures s.sh.reg.consumers[n].handle.serial < |s.threads|
              && s.threads[s.sh.reg.consumers[n].handle.serial].pc == Looping(Registered)
    {
      assert RegexBacked(s, s.sh.reg.consumers[n].handle);
    }
  }

  /** The client is gone if and only if some cleanup has finished. So a regex caller that has read an open
      client finds it closed when it dials exactly when a cleanup has finished since (`Leaks.UseAfterClose`
      says that one always can). */
  lemma ClientGoneIff(s0: State, run: seq<Action>, s: State)
    requires Behaviour(s0, run, s)
    ensures !s.sh.reg.clientOpen <==> HasFinished(s)
    ensures !s.sh.reg.clientOpen ==> s.sh.drained && s.sh.reg.closed
  {
    ReachedInv(s0, run, s);
    if HasFinished(s) { FinishedCloses(s); }
  }

  lemma FinishedCloses(s: State)
    requires StagesOk(s) && HasFinished(s)
    ensures !s.sh.reg.clientOpen
  {
    var i :| 0 <= i < |s.threads| && s.threads[i].pc == Cleaning(ClnDone);
    assert StageOk(s.sh, s.threads[i].pc);
  }

  /** Some Close call has taken `h` out of the map and not closed it yet. */
  predicate BeingClosed(s: State, h: Handle) {
    exists i :: 0 <= i < |s.threads| && s.threads[i].pc == Taking(ProCall) && s.threads[i].handle == Live(h)
  }

  /** A sending call reads its producer under the lock and uses it outside. The producer that it is about
      to send to is one that startup made, and it has been closed already if and only if it has left the
      map and no Close call still has it in hand. */
  lemma SendOnClosedIff(s0: State, run: seq<Action>, s: State, t: nat)
    requires Behaviour(s0, run, s) && t < |s.threads| && AtSend(s.threads[t].pc)
    ensures s.threads[t].handle.Live? && s.threads[t].handle.handle in s.sh.made
    ensures var h := s.threads[t].handle.handle;
            h in s.sh.reg.closes <==> SlotAt(s.sh.reg.producers, h.name) != Live(h) && !BeingClosed(s, h)
  {
    ReachedInv(s0, run, s);
    assert ThreadOk(s, t);
    ClosedProducer(s, s.threads[t].handle.handle);
  }

  lemma ClosedProducer(s: State, h: Handle)
    requires ThreadsOk(s) && TokensOk(s) && h in s.sh.made && h.kind == Produced
    ensures h in s.sh.reg.closes <==> SlotAt(s.sh.reg.producers, h.name) != Live(h) && !BeingClosed(s, h)
  {
    assert Tokens(s, h) == 1;
    if Sum(s.threads, OwnsW(h)) > 0 {
      var i := SumPositive(s.threads, OwnsW(h));
      assert ThreadOk(s, i);
    } else if i: nat :| i < |s.threads| && s.threads[i].pc == Taking(ProCall) && s.threads[i].handle == Live(h) {
      SumAtLeast(s.threads, OwnsW(h), i);
      assert false;
    }
  }
}

/** Every action keeps the invariant: each part of it follows from the effect of the step on that
    concern, without looking at the program counters again. */
module Preservation {
  import opened Registry
  import opened Protocol
  import opened Sums
  import opened Invariant
  import opened Effects

  lemma InitHolds(s: State)
    requires Init(s)
    ensures Inv(s)
  {
    forall h: Handle ensures Tokens(s, h) == if Created(s, h) then 1 else 0 {
      var r := s.sh.reg;
      assert InMap(r, h) <==> h in LiveHandles(r.consumers) + LiveHandles(r.producers);
    }
  }

  function After(s: State, t: nat, sh': Shared, th': Thread): State
    requires t < |s.threads|
  {
    State(s.threads[t := th'], sh')
  }

  lemma LocksKept(s: State, t: nat, sh': Shared, th': Thread)
    requires t < |s.threads| && LocksOk(s) && LockEffect(s.sh, t, s.threads[t], sh', th')
    ensures LocksOk(After(s, t, sh', th'))
  {}

  lemma StagesKept(s: State, t: nat, sh': Shared, th': Thread)
    requires t < |s.threads| && StagesOk(s) && CountOk(s)
    requires StageEffect(s.sh, s.threads[t], sh', th')
    requires MapsEffect(s.sh, t, s.threads[t], sh', th')
    ensures StagesOk(After(s, t, sh', th'))
  {
    var s' := After(s, t, sh', th');
    if s.sh.reg.closed {
      var i :| 0 <= i < |s.threads| && Stage(s.threads[i].pc) >= 2;
      assert Stage(s'.threads[i].pc) >= 2;
    } else if sh'.reg.closed {
      assert Stage(s'.threads[t].pc) >= 2;
    }
    if sh'.drained && !s.sh.drained {
      forall i | 0 <= i < |s.threads| ensures !Dispatching(s'.threads[i].pc) {
        SumAtLeast(s.threads, CountedW, i);
      }
    }
  }

  lemma ClientKept(s: State, t: nat, sh': Shared, th': Thread)
    requires t < |s.threads| && ClientOk(s) && StageEffect(s.sh, s.threads[t], sh', th')
    ensures ClientOk(After(s, t, sh', th'))
  {
    var s' := After(s, t, sh', th');
    if !s.sh.reg.clientOpen {
      var i :| 0 <= i < |s.threads| && s.threads[i].pc == Cleaning(ClnDone);
      assert s'.threads[i].pc == Cleaning(ClnDone);
    } else if !sh'.reg.clientOpen {
      assert s'.threads[t].pc == Cleaning(ClnDone);
    }
  }

  lemma CountsKept(s: State, t: nat, sh': Shared, th': Thread)
    requires t < |s.threads| && CountOk(s) && CountEffect(s.sh, s.threads[t], sh', th')
    ensures CountOk(After(s, t, sh', th'))
  {
    SumUpdate(s.threads, CountedW, t, th');
  }

  lemma BalanceKept(log: Log, inHand: Option<Message>, log': Log, inHand': Option<Message>)
    requires Balanced(log, inHand) && LogEffect(log, inHand, log', inHand')
    ensures Balanced(log', inHand')
  {}

  lemma CountersKept(s: State, t: nat, sh': Shared, th': Thread)
    requires t < |s.threads| && CountersOk(s) && NumbersEffect(s.sh, s.threads[t], sh', th')
    ensures CountersOk(After(s, t, sh', th'))
  {
    SumUpdate(s.threads, ReceivedW, t, th');
    SumUpdate(s.threads, FailedW, t, th');
  }

  lemma MessagesKept(s: State, t: nat, sh': Shared, th': Thread)
    requires t < |s.threads| && MessagesOk(s) && CountEffect(s.sh, s.threads[t], sh', th')
    requires s.sh.reg.closed ==> sh'.reg.closed
    ensures MessagesOk(After(s, t, sh', th'))
  {
    var th := s.threads[t];
    CountersKept(s, t, sh', th');
    BalanceKept(th.log, InFlight(th.pc), th'.log, InFlight(th'.pc));
  }

  lemma SubscriptionsKept(s: State, t: nat, sh': Shared, th': Thread)
    requires t < |s.threads| && SubscriptionsOk(s)
    requires SubscriptionsEffect(s.sh, t, s.threads[t], sh', th')
    requires StageEffect(s.sh, s.threads[t], sh', th')
    requires th'.name == s.threads[t].name
    ensures SubscriptionsOk(After(s, t, sh', th'))
  {}

  lemma ThreadsKept(s: State, t: nat, sh': Shared, th': Thread)
    requires t < |s.threads| && MapsOk(s) && ThreadsOk(s) && TokensOk(s)
    requires IdentityEffect(s.sh, t, s.threads[t], sh', th')
    ensures ThreadsOk(After(s, t, sh', th'))
  {
    var s' := After(s, t, sh', th');
    var th := s.threads[t];
    forall h: Handle | FromRegex(s, h) ensures FromRegex(s', h) {}
    if WasRegistered(th'.pc) && !WasRegistered(th.pc) && !th.regex {
      assert th.name in s.sh.reg.consumers;
      var h := th'.handle.handle;
      assert h.kind == Regex ==> RegexBacked(s, h);
      assert Tokens(s, h) == if Created(s, h) then 1 else 0;
    }
    if AtSend(th'.pc) && th'.handle == SlotAt(s.sh.reg.producers, th.name) {
      assert th.name in s.sh.reg.producers;
      var h := th'.handle.handle;
      assert Tokens(s, h) == if Created(s, h) then 1 else 0;
    }
    forall i | 0 <= i < |s.threads| ensures ThreadOk(s', i) {
      assert ThreadOk(s, i);
    }
  }

  lemma MapsKept(s: State, t: nat, sh': Shared, th': Thread)
    requires t < |s.threads| && MapsOk(s) && ThreadsOk(s)
    requires IdentityEffect(s.sh, t, s.threads[t], sh', th')
    requires MapsEffect(s.sh, t, s.threads[t], sh', th')
    ensures MapsOk(After(s, t, sh', th'))
  {}

  lemma ClosesKept(s: State, t: nat, sh': Shared, th': Thread)
    requires t < |s.threads| && StagesOk(s) && ThreadsOk(s) && ClosesOk(s)
    requires StageEffect(s.sh, s.threads[t], sh', th')
    requires IdentityEffect(s.sh, t, s.threads[t], sh', th')
    requires EndingsEffect(s.sh, t, s.threads[t], sh', th')
    ensures ClosesOk(After(s, t, sh', th'))
  {
    var s' := After(s, t, sh', th');
    forall i | 0 <= i < |s'.threads| && Dispatching(s'.threads[i].pc)
      ensures s'.threads[i].handle.Live? && s'.threads[i].handle.handle !in sh'.reg.closes
    {
      assert ThreadOk(s, i) && WasRegistered(s.threads[i].pc);
    }
  }

  lemma LosesRegex(sh: Shared, t: nat, th: Thread, h: Handle)
    requires Loses(sh, th, h) && Kinds(sh.reg) && Shape(t, th)
    ensures h.kind == Regex && h.name == th.name
  {
    assert sh.reg.consumers[th.name] == Live(h);
  }

  lemma TokensKept(s: State, t: nat, sh': Shared, th': Thread)
    requires t < |s.threads| && MapsOk(s) && ThreadsOk(s) && TokensOk(s)
    requires IdentityEffect(s.sh, t, s.threads[t], sh', th')
    requires EndingsEffect(s.sh, t, s.threads[t], sh', th')
    requires forall h :: TokenEffect(s.sh, s.threads[t], sh', th', h) && LossEffect(s.sh, s.threads[t], sh', h)
    ensures TokensOk(After(s, t, sh', th'))
  {
    var s' := After(s, t, sh', th');
    var th := s.threads[t];
    forall h: Handle ensures Tokens(s', h) == if Created(s', h) then 1 else 0 {
      SumUpdate(s.threads, OwnsW(h), t, th');
      assert TokenEffect(s.sh, th, sh', th', h);
      assert ThreadOk(s, t);
      var born := th.regex && th.handle != Live(h) && th'.handle == Live(h);
      assert Created(s', h) <==> Created(s, h) || born;
      assert born ==> !Created(s, h);
    }
    forall h | h in sh'.reg.lost ensures h.kind == Regex {
      assert LossEffect(s.sh, th, sh', h) && ThreadOk(s, t);
      if Loses(s.sh, th, h) { LosesRegex(s.sh, t, th, h); }
    }
  }

  lemma MoveKept(s: State, t: nat, c: Choice, s': State)
    requires Inv(s) && Next(s, Move(t, c)) == Some(s')
    ensures Inv(s')
  {
    var th, th' := s.threads[t], s'.threads[t];
    var sh' := s'.sh;
    assert ThreadStep(s.sh, t, th, c) == Moved(sh', th') && s' == After(s, t, sh', th');
    assert ThreadOk(s, t);
    StepEffects(s.sh, t, th, c, sh', th');
    LocksKept(s, t, sh', th');
    StagesKept(s, t, sh', th');
    ClientKept(s, t, sh', th');
    CountsKept(s, t, sh', th');
    MessagesKept(s, t, sh', th');
    SubscriptionsKept(s, t, sh', th');
    ThreadsKept(s, t, sh', th');
    MapsKept(s, t, sh', th');
    ClosesKept(s, t, sh', th');
    TokensKept(s, t, sh', th');
  }

  /** A call that has not done anything yet. */
  predicate Idle(t: nat, th: Thread) {
    && !HoldsConsumer(th.pc) && !HoldsProducer(th.pc) && !HoldsState(th.pc)
    && Stage(th.pc) == 0 && !WasRegistered(th.pc) && !OwnsHandle(th.pc) && !th.pc.Rejected?
    && th.handle == Nil && th.log == EMPTY_LOG && Shape(t, th)
  }

  lemma NewThreadIdle(t: nat, call: Call)
    ensures Idle(t, NewThread(call))
  {
    assert RegexName("")[..6] == "regex:";
    match call
    case SubscribeWithRegex(pattern) => assert RegexName(pattern)[..6] == "regex:";
    case _ =>
  }

  function Joined(s: State, th: Thread): State { s.(threads := s.threads + [th]) }

  lemma ArrivalCounts(s: State, th: Thread)
    requires CountOk(s) && CountersOk(s) && Idle(|s.threads|, th)
    ensures CountOk(Joined(s, th)) && CountersOk(Joined(s, th))
  {
    SumAppend(s.threads, CountedW, th);
    SumAppend(s.threads, ReceivedW, th);
    SumAppend(s.threads, FailedW, th);
  }

  lemma ArrivalMessages(s: State, th: Thread)
    requires MessagesOk(s) && CountersOk(Joined(s, th)) && Idle(|s.threads|, th)
    ensures MessagesOk(Joined(s, th))
  {}

  lemma ArrivalTokens(s: State, th: Thread)
    requires ThreadsOk(s) && TokensOk(s) && Idle(|s.threads|, th)
    ensures TokensOk(Joined(s, th))
  {
    var s' := Joined(s, th);
    forall h: Handle ensures Tokens(s', h) == if Created(s', h) then 1 else 0 {
      SumAppend(s.threads, OwnsW(h), th);
      assert Created(s', h) <==> Created(s, h);
    }
  }

  lemma ArrivalThreads(s: State, th: Thread)
    requires MapsOk(s) && ThreadsOk(s) && ClosesOk(s) && Idle(|s.threads|, th)
    ensures MapsOk(Joined(s, th)) && ThreadsOk(Joined(s, th)) && ClosesOk(Joined(s, th))
  {
    var s' := Joined(s, th);
    forall h: Handle | FromRegex(s, h) ensures FromRegex(s', h) {}
    forall h: Handle | RegexBacked(s, h) ensures RegexBacked(s', h) {}
    forall i | 0 <= i < |s'.threads| ensures ThreadOk(s', i) {
      if i < |s.threads| { assert ThreadOk(s, i); }
    }
  }

  lemma ArrivalLocks(s: State, th: Thread)
    requires LocksOk(s) && SubscriptionsOk(s) && Idle(|s.threads|, th)
    ensures LocksOk(Joined(s, th)) && SubscriptionsOk(Joined(s, th))
  {
    var s' := Joined(s, th);
    forall n, t | Backed(s, n, t) ensures Backed(s', n, t) {}
  }

  lemma ArrivalClient(s: State, th: Thread)
    requires ClientOk(s)
    ensures ClientOk(Joined(s, th))
  {
    if HasFinished(s) {
      var i :| 0 <= i < |s.threads| && s.threads[i].pc == Cleaning(ClnDone);
      assert Joined(s, th).threads[i].pc == Cleaning(ClnDone);
    }
  }

  lemma ArrivalStages(s: State, th: Thread)
    requires StagesOk(s) && Idle(|s.threads|, th)
    ensures StagesOk(Joined(s, th))
  {
    var s' := Joined(s, th);
    if HasCleaner(s) {
      var i :| 0 <= i < |s.threads| && Stage(s.threads[i].pc) >= 2;
      assert Stage(s'.threads[i].pc) >= 2;
    }
  }

  lemma StartKept(s: State, call: Call, s': State)
    requires Inv(s) && Next(s, Start(call)) == Some(s')
    ensures Inv(s')
  {
    NewThreadIdle(|s.threads|, call);
    ArrivalCounts(s, NewThread(call));
    ArrivalMessages(s, NewThread(call));
    ArrivalTokens(s, NewThread(call));
    ArrivalThreads(s, NewThread(call));
    ArrivalLocks(s, NewThread(call));
    ArrivalStages(s, NewThread(call));
    ArrivalClient(s, NewThread(call));
  }

  function Cancelled(s: State, t: nat): State {
    s.(sh := s.sh.(reg := s.sh.reg.(cancelled := s.sh.reg.cancelled + {t})))
  }

  lemma CancelThreads(s: State, t: nat)
    requires SubscriptionsOk(s) && MapsOk(s) && ThreadsOk(s)
    ensures SubscriptionsOk(Cancelled(s, t)) && MapsOk(Cancelled(s, t)) && ThreadsOk(Cancelled(s, t))
  {
    var s' := Cancelled(s, t);
    forall h: Handle | FromRegex(s, h) ensures FromRegex(s', h) {}
    forall h: Handle | RegexBacked(s, h) ensures RegexBacked(s', h) {}
    forall n, i | Backed(s, n, i) ensures Backed(s', n, i) {}
    forall i | 0 <= i < |s'.threads| ensures ThreadOk(s', i) {
      assert ThreadOk(s, i);
    }
  }

  lemma CancelTokens(s: State, t: nat)
    requires TokensOk(s)
    ensures TokensOk(Cancelled(s, t))
  {
    var s' := Cancelled(s, t);
    forall h: Handle ensures Tokens(s', h) == if Created(s', h) then 1 else 0 {
      assert Tokens(s, h) == Tokens(s', h) && (Created(s, h) <==> Created(s', h));
    }
  }

  lemma CancelCounts(s: State, t: nat)
    requires LocksOk(s) && StagesOk(s) && ClientOk(s) && CountOk(s) && MessagesOk(s)
    ensures LocksOk(Cancelled(s, t)) && StagesOk(Cancelled(s, t)) && ClientOk(Cancelled(s, t))
    ensures CountOk(Cancelled(s, t)) && MessagesOk(Cancelled(s, t))
  {
    var s' := Cancelled(s, t);
    assert HasCleaner(s) ==> HasCleaner(s');
    assert HasFinished(s) ==> HasFinished(s');
    forall i | 0 <= i < |s'.threads| ensures StageOk(s'.sh, s'.threads[i].pc) {
      assert StageOk(s.sh, s.threads[i].pc);
    }
  }

  lemma CancelKept(s: State, t: nat, s': State)
    requires Inv(s) && Next(s, CancelCaller(t)) == Some(s')
    ensures Inv(s')
  {
    CancelCounts(s, t);
    CancelThreads(s, t);
    CancelTokens(s, t);
  }

  lemma ActionKept(s: State, a: Action, s': State)
    requires Inv(s) && Next(s, a) == Some(s')
    ensures Inv(s')
  {
    match a
    case Start(call) => StartKept(s, call, s');
    case Move(t, c) => MoveKept(s, t, c, s');
    case CancelCaller(t) => CancelKept(s, t, s');
  }

  /** The invariant holds in every state that any run reaches. */
  lemma {:induction false} RunKept(s: State, run: seq<Action>, s': State)
    requires Inv(s) && Exec(s, run) == Some(s')
    ensures Inv(s')
    decreases |run|
  {
    if run != [] {
      var s1 := Next(s, run[0]).value;
      ActionKept(s, run[0], s1);
      RunKept(s1, run[1..], s');
    }
  }
}

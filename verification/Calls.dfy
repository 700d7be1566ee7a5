/** What the calls of the protocol answer: which are turned away and when, when a loop starts to leave, and whom
    a cleanup tells to stop. */
module Calls {
  import opened Registry
  import opened Protocol
  import opened Invariant
  import opened Safety
  import opened Shutdown

  // ---- Locks that are taken and released in one step

  /** Looking at the flag or the client needs the state mutex free, looking a producer up the producer mutex;
      with it free they can always go on. */
  lemma ReadersWait(s: State, t: nat, c: Choice)
    requires t < |s.threads|
    ensures var pc := s.threads[t].pc;
            && (AtCheck(pc) || pc == Dialling(RxClient) || AtGot(pc) ==>
                  (Next(s, Move(t, c)).Some? <==> s.sh.stateMutex.None?))
            && (pc.Sending? && pc.snd.SndRead? ==> (Next(s, Move(t, c)).Some? <==> s.sh.producerMutex.None?))
  {}

  // ---- isClosed

  predicate AtCheck(pc: PC) { pc == Subscribing(SubCheck) || pc == Dialling(RxCheck) }

  predicate IsSubscribe(call: Call) { call.SubscribeWith? || call.SubscribeWithRegex? }

  /** The check turns a subscribe call away if and only if closed is set; it changes nothing else. */
  lemma CheckIff(s: State, t: nat, c: Choice, s': State)
    requires Next(s, Move(t, c)) == Some(s') && AtCheck(s.threads[t].pc)
    ensures s'.threads[t].pc == Returned <==> s.sh.reg.closed
    ensures !s.sh.reg.closed ==>
              s'.threads[t].pc == if s.threads[t].pc.Dialling? then Dialling(RxClient) else Subscribing(SubLock)
    ensures s'.sh == s.sh && s'.threads[t] == s.threads[t].(pc := s'.threads[t].pc)
    ensures forall i | 0 <= i < |s.threads| && i != t :: s'.threads[i] == s.threads[i]
  {}

  /** At its check, or turned away. */
  predicate TurnedAway(s: State, t: nat) {
    t < |s.threads| && (AtCheck(s.threads[t].pc) || s.threads[t].pc == Returned)
  }

  lemma TurnedAwayStays(s: State, a: Action, s': State, t: nat)
    requires s.sh.reg.closed && TurnedAway(s, t) && Next(s, a) == Some(s')
    ensures s'.sh.reg.closed && TurnedAway(s', t)
    ensures a.Move? && a.thread == t ==> s'.threads[t].pc == Returned
  {
    if a.Move? {
      StepClosing(s.sh, a.thread, s.threads[a.thread], a.choice, s'.sh, s'.threads[a.thread]);
    }
  }

  /** Once closed is set, a subscribe call that has not passed its check yet never does: in every continuation it
      is at the check or has returned, so it holds no mutex, owns no consumer and starts no loop. */
  lemma {:induction false} RefusedForever(s: State, t: nat, more: seq<Action>, s': State)
    requires s.sh.reg.closed && TurnedAway(s, t) && Exec(s, more) == Some(s')
    ensures TurnedAway(s', t)
    ensures !HoldsConsumer(s'.threads[t].pc) && !OwnsHandle(s'.threads[t].pc) && !WasRegistered(s'.threads[t].pc)
    decreases |more|
  {
    if more != [] {
      var s1 := Next(s, more[0]).value;
      TurnedAwayStays(s, more[0], s1, t);
      RefusedForever(s1, t, more[1..], s');
    }
  }

  /** So does every subscribe call that arrives later, in every continuation. */
  lemma LateCallRefused(s: State, call: Call, s1: State, more: seq<Action>, s': State)
    requires s.sh.reg.closed && IsSubscribe(call)
    requires Next(s, Start(call)) == Some(s1) && Exec(s1, more) == Some(s')
    ensures TurnedAway(s', |s.threads|)
    ensures var pc := s'.threads[|s.threads|].pc; !HoldsConsumer(pc) && !OwnsHandle(pc) && !WasRegistered(pc)
  {
    RefusedForever(s1, |s.threads|, more, s');
  }

  // ---- getClient and the library

  /** A regex call goes on to the library if and only if it finds the client open, and owns a consumer after it
      if and only if the library reports no error; a call that goes no further leaves everything unchanged. */
  lemma DialIff(s: State, t: nat, c: Choice, s': State)
    requires Next(s, Move(t, c)) == Some(s')
    ensures s.threads[t].pc == Dialling(RxClient) ==>
              && s'.sh == s.sh
              && s'.threads[t].pc == if s.sh.reg.clientOpen then Dialling(RxDial) else Returned
    ensures s.threads[t].pc == Dialling(RxDial) ==>
              && s'.sh == s.sh
              && (if c.Fail? then s'.threads[t] == s.threads[t].(pc := Returned)
                  else s'.threads[t].pc == Dialling(RxLock)
                       && s'.threads[t].handle == Live(Handle(Regex, s.threads[t].name, t)))
  {}

  // ---- When a loop leaves

  predicate Staying(pc: PC) { Pending(pc) || AtGot(pc) || Dispatching(pc) }

  /** A loop starts to leave if and only if its select takes the closed close channel, its cancelled context or
      the end of its consumer's channel, or its isClosed check after a receive finds closed set. In
      particular it goes on after every message that it has settled. */
  lemma LeavesIff(s: State, t: nat, c: Choice, s': State)
    requires Next(s, Move(t, c)) == Some(s') && Staying(s.threads[t].pc)
    ensures !Staying(s'.threads[t].pc) <==>
              || (s.threads[t].pc == Looping(Select) && (c.SeeClose? || c.SeeCancel? || c.ChanEnd?))
              || (AtGot(s.threads[t].pc) && s.sh.reg.closed)
    ensures !Staying(s'.threads[t].pc) && c.SeeClose? && s.threads[t].pc == Looping(Select) ==> s.sh.reg.closeChan
    ensures !Staying(s'.threads[t].pc) && c.SeeCancel? && s.threads[t].pc == Looping(Select) ==> t in s.sh.reg.cancelled
    ensures !Staying(s'.threads[t].pc) ==> s'.threads[t].pc == Looping(Exiting) && s'.sh == s.sh
  {
    match s.threads[t].pc.loop
    case Select =>
    case Settling(m, ok) =>
    case _ =>
  }

  /** After a settled message the loop is back in its select. */
  lemma SettledGoesOn(s: State, t: nat, c: Choice, s': State)
    requires Next(s, Move(t, c)) == Some(s') && s.threads[t].pc.Looping? && s.threads[t].pc.loop.Settling?
    ensures s'.threads[t].pc == Looping(Select) && s'.sh == s.sh
  {}

  // ---- Cleanup

  /** A cleanup whose context is done changes nothing; any other closes the close channel first. */
  lemma CleanupStarts(s: State, t: nat, c: Choice, s': State)
    requires Next(s, Move(t, c)) == Some(s') && s.threads[t].pc == Cleaning(ClnStart)
    ensures if c.Fail? then s'.sh == s.sh && s'.threads[t].pc == Returned
            else s'.sh.reg == s.sh.reg.(closeChan := true) && s'.threads[t].pc == Cleaning(ClnMarkLock)
  {}

  /** Thread `t` is about to cancel `loops`, or they have been cancelled. */
  predicate Signals(s: State, t: nat, loops: set<nat>) {
    t < |s.threads| && (s.threads[t].pc == Cleaning(ClnCancel(loops)) || loops <= s.sh.reg.cancelled)
  }

  lemma SignalsStays(s: State, a: Action, s': State, t: nat, loops: set<nat>)
    requires Signals(s, t, loops) && Next(s, a) == Some(s')
    ensures Signals(s', t, loops)
  {
    if a.Move? {
      StepCancels(s.sh, a.thread, s.threads[a.thread], a.choice, s'.sh, s'.threads[a.thread]);
    }
  }

  /** A loop that has ended, or a regex call that was rejected, has cancelled its own context, and the rejected
      one has closed its consumer. */
  predicate EndDone(sh: Shared, t: nat, th: Thread) {
    && (th.pc.Finished? || th.pc.Rejected? ==> t in sh.reg.cancelled)
    && (th.pc.Rejected? ==> BagOf(th.handle) <= sh.reg.closes)
  }

  /** No context comes back to life, nothing is unclosed, and the cancel step cancels what it is about to. */
  predicate CancelEffect(sh: Shared, t: nat, th: Thread, sh': Shared, th': Thread) {
    && sh.reg.cancelled <= sh'.reg.cancelled && sh.reg.closes <= sh'.reg.closes
    && (th.pc.Cleaning? && th.pc.cln.ClnCancel? ==> th.pc.cln.loops <= sh'.reg.cancelled)
    && EndDone(sh', t, th')
  }

  lemma SubscribeCancels(sh: Shared, t: nat, th: Thread, at: SubscribePC, c: Choice, sh': Shared, th': Thread)
    requires th.pc == Subscribing(at) && SubscribeStep(sh, t, th, at, c) == Moved(sh', th')
    ensures CancelEffect(sh, t, th, sh', th')
  {}

  lemma RegexCancels(sh: Shared, t: nat, th: Thread, at: RegexPC, c: Choice, sh': Shared, th': Thread)
    requires th.pc == Dialling(at) && RegexStep(sh, t, th, at, c) == Moved(sh', th')
    ensures CancelEffect(sh, t, th, sh', th')
  {}

  lemma LoopCancels(sh: Shared, t: nat, th: Thread, at: LoopPC, c: Choice, sh': Shared, th': Thread)
    requires th.pc == Looping(at) && LoopStep(sh, t, th, at, c) == Moved(sh', th')
    ensures CancelEffect(sh, t, th, sh', th')
  {
    match at
    case Registered =>
    case ExitDelete =>
    case Leaving =>
    case _ =>
  }

  lemma TakeCancels(sh: Shared, t: nat, th: Thread, at: TakePC, c: Choice, sh': Shared, th': Thread)
    requires th.pc == Taking(at) && TakeStep(sh, t, th, at, c) == Moved(sh', th')
    ensures CancelEffect(sh, t, th, sh', th')
  {}

  lemma SendCancels(sh: Shared, t: nat, th: Thread, at: SendPC, c: Choice, sh': Shared, th': Thread)
    requires th.pc == Sending(at) && SendStep(sh, t, th, at, c) == Moved(sh', th')
    ensures CancelEffect(sh, t, th, sh', th')
  {}

  lemma CleanupCancels(sh: Shared, t: nat, th: Thread, at: CleanupPC, c: Choice, sh': Shared, th': Thread)
    requires th.pc == Cleaning(at) && CleanupStep(sh, t, th, at, c) == Moved(sh', th')
    ensures CancelEffect(sh, t, th, sh', th')
  {}

  lemma StepCancels(sh: Shared, t: nat, th: Thread, c: Choice, sh': Shared, th': Thread)
    requires ThreadStep(sh, t, th, c) == Moved(sh', th')
    ensures CancelEffect(sh, t, th, sh', th')
  {
    match th.pc
    case Subscribing(at) => SubscribeCancels(sh, t, th, at, c, sh', th');
    case Dialling(at) => RegexCancels(sh, t, th, at, c, sh', th');
    case Looping(at) => LoopCancels(sh, t, th, at, c, sh', th');
    case Taking(at) => TakeCancels(sh, t, th, at, c, sh', th');
    case Sending(at) => SendCancels(sh, t, th, at, c, sh', th');
    case Cleaning(at) => CleanupCancels(sh, t, th, at, c, sh', th');
  }

  lemma {:induction false} SignalsForever(s: State, run: seq<Action>, s': State, t: nat, loops: set<nat>)
    requires Signals(s, t, loops) && Exec(s, run) == Some(s')
    ensures Signals(s', t, loops)
    decreases |run|
  {
    if run != [] {
      var s1 := Next(s, run[0]).value;
      SignalsStays(s, run[0], s1, t, loops);
      SignalsForever(s1, run[1..], s', t, loops);
    }
  }

  /** A cleanup that empties the registry cancels every loop that was in it: in every continuation in which it
      has gone beyond that, all of them are cancelled, in particular when it waits. */
  lemma DrainedAreCancelled(s: State, t: nat, c: Choice, s1: State, more: seq<Action>, s': State)
    requires Next(s, Move(t, c)) == Some(s1) && s.threads[t].pc == Cleaning(ClnDrain) && Exec(s1, more) == Some(s')
    ensures s1.sh.reg.subscriptions == map[]
    ensures t < |s'.threads|
    ensures !(s'.threads[t].pc.Cleaning? && s'.threads[t].pc.cln.ClnCancel?) ==>
              forall n | n in s.sh.reg.subscriptions :: s.sh.reg.subscriptions[n] in s'.sh.reg.cancelled
  {
    SignalsForever(s1, more, s', t, s.sh.reg.subscriptions.Values);
  }

  // ---- Contexts

  predicate EndsDone(s: State) {
    forall i | 0 <= i < |s.threads| :: EndDone(s.sh, i, s.threads[i])
  }

  lemma {:induction false} EndsStayDone(s: State, run: seq<Action>, s': State)
    requires EndsDone(s) && Exec(s, run) == Some(s')
    ensures EndsDone(s')
    decreases |run|
  {
    if run != [] {
      var s1 := Next(s, run[0]).value;
      EndDoneKept(s, run[0], s1);
      EndsStayDone(s1, run[1..], s');
    }
  }

  lemma EndDoneKept(s: State, a: Action, s1: State)
    requires EndsDone(s) && Next(s, a) == Some(s1)
    ensures EndsDone(s1)
  {
    if a.Move? {
      StepCancels(s.sh, a.thread, s.threads[a.thread], a.choice, s1.sh, s1.threads[a.thread]);
    }
    forall i | 0 <= i < |s1.threads| ensures EndDone(s1.sh, i, s1.threads[i]) {
      assert i < |s.threads| ==> EndDone(s.sh, i, s.threads[i]);
    }
  }

  /** Every loop that has ended and every regex call that was rejected has cancelled its context. */
  lemma EndedAreCancelled(s0: State, run: seq<Action>, s: State, i: nat)
    requires Behaviour(s0, run, s) && i < |s.threads|
    ensures s.threads[i].pc.Finished? || s.threads[i].pc.Rejected? ==> i in s.sh.reg.cancelled
  {
    EndsStayDone(s0, run, s);
    assert EndDone(s.sh, i, s.threads[i]);
  }

  /** A regex call that was rejected has closed the consumer that it dialled, and nobody else has or can:
      it is closed exactly once, never unsubscribed, and in no map. */
  lemma RejectedIsClosed(s0: State, run: seq<Action>, s: State, i: nat)
    requires Behaviour(s0, run, s) && i < |s.threads| && s.threads[i].pc.Rejected?
    ensures s.threads[i].handle.Live?
    ensures var h := s.threads[i].handle.handle;
            && h == Handle(Regex, s.threads[i].name, i)
            && s.sh.reg.closes[h] == 1 && s.sh.reg.unsubs[h] == 0 && s.sh.reg.lost[h] == 0 && !InMap(s.sh.reg, h)
  {
    EndsStayDone(s0, run, s);
    assert EndDone(s.sh, i, s.threads[i]);
    ReachedInv(s0, run, s);
    assert ThreadOk(s, i);
    var h := s.threads[i].handle.handle;
    assert h in s.sh.reg.closes;
    assert h !in s.sh.made;
    HandleOwnership(s0, run, s, h);
    assert Created(s, h);
  }

  lemma {:induction false} StaysCancelled(s: State, run: seq<Action>, s': State)
    requires Exec(s, run) == Some(s')
    ensures s.sh.reg.cancelled <= s'.sh.reg.cancelled
    decreases |run|
  {
    if run != [] {
      var s1 := Next(s, run[0]).value;
      if run[0].Move? {
        var t := run[0].thread;
        StepCancels(s.sh, t, s.threads[t], run[0].choice, s1.sh, s1.threads[t]);
      }
      StaysCancelled(s1, run[1..], s');
    }
  }

  /** Once a caller's context is cancelled, its loop can leave from its select in every continuation. */
  lemma CancelReaches(s: State, t: nat, s1: State, more: seq<Action>, s': State)
    requires Next(s, CancelCaller(t)) == Some(s1) && Exec(s1, more) == Some(s')
    requires t < |s'.threads| && s'.threads[t].pc == Looping(Select)
    ensures Next(s', Move(t, SeeCancel)).Some?
    ensures Next(s', Move(t, SeeCancel)).value.threads[t].pc == Looping(Exiting)
  {
    StaysCancelled(s1, more, s');
  }

  /** What a select can take. */
  lemma SelectIff(s: State, t: nat, m: Message)
    requires t < |s.threads| && s.threads[t].pc == Looping(Select)
    ensures Next(s, Move(t, SeeClose)).Some? <==> s.sh.reg.closeChan
    ensures Next(s, Move(t, SeeCancel)).Some? <==> t in s.sh.reg.cancelled
    ensures Next(s, Move(t, ChanEnd)).Some? && Next(s, Move(t, Deliver(m))).Some?
  {}

  // ---- Sending

  /** A sending call goes to the library if and only if its producer is there and there is something to send,
      and then again if and only if that went well and messages are left; it changes no shared data. */
  lemma SendIff(s: State, t: nat, c: Choice, s': State)
    requires Next(s, Move(t, c)) == Some(s') && s.threads[t].pc.Sending?
    ensures s'.sh == s.sh
    ensures match s.threads[t].pc.snd
            case SndRead(n) =>
              && s'.threads[t].handle == SlotAt(s.sh.reg.producers, s.threads[t].name)
              && s'.threads[t].pc == if n > 0 && s'.threads[t].handle.Live? then Sending(SndCall(n)) else Returned
            case SndCall(n) =>
              && s'.threads[t].handle == s.threads[t].handle
              && s'.threads[t].pc == if !c.Fail? && n > 1 then Sending(SndCall(n - 1)) else Returned
  {}
}

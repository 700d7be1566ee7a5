/** Progress: shutdown cannot deadlock, and once closed is set everything runs to its end in a bounded
    number of steps. */
module Shutdown {
  import opened Registry
  import opened Protocol
  import opened Sums
  import opened Invariant
  import opened Safety

  // ---- Deadlock freedom

  /** A choice for a thread that needs no message and no library event, only that handlers return. */
  function Due(sh: Shared, pc: PC): Choice {
    if pc == Looping(Select) then (if sh.reg.closeChan then SeeClose else SeeCancel)
    else if pc.Looping? && pc.loop.Handling? then Handled(Good)
    else Proceed
  }

  predicate Able(s: State, t: nat)
    requires t < |s.threads|
  {
    ThreadStep(s.sh, t, s.threads[t], Due(s.sh, s.threads[t].pc)).Moved?
  }

  /** A loop in its select that nobody has told to stop: it waits for messages. */
  predicate Parked(sh: Shared, t: nat, pc: PC) {
    pc == Looping(Select) && !sh.reg.closeChan && t !in sh.reg.cancelled
  }

  predicate WantsConsumer(pc: PC) {
    match pc
    case Subscribing(at) => at.SubLock?
    case Dialling(at) => at.RxLock?
    case Looping(at) => at.Exiting?
    case Taking(at) => at.UnsLock?
    case Cleaning(at) => at.ClnDrainLock? || at.ClnConsLock?
    case _ => false
  }

  predicate WantsProducer(pc: PC) {
    (pc.Taking? && pc.take.ProLock?) || (pc.Sending? && pc.snd.SndRead?) || (pc.Cleaning? && pc.cln.ClnProdLock?)
  }

  predicate WantsState(pc: PC) {
    match pc
    case Subscribing(at) => at.SubCheck?
    case Dialling(at) => at.RxCheck? || at.RxClient?
    case Looping(at) => at.Got?
    case Cleaning(at) => at.ClnMarkLock? || at.ClnCliLock?
    case _ => false
  }

  /** The only reasons why a thread that has not ended cannot step. */
  predicate Waiting(sh: Shared, t: nat, pc: PC) {
    || (WantsConsumer(pc) && sh.consumerMutex.Some?)
    || (WantsProducer(pc) && sh.producerMutex.Some?)
    || (WantsState(pc) && sh.stateMutex.Some?)
    || (pc == Cleaning(ClnWait) && sh.reg.recvWG != 0)
    || Parked(sh, t, pc)
  }

  lemma AbleUnlessWaiting(s: State, t: nat)
    requires t < |s.threads| && Shape(t, s.threads[t])
    requires !Ended(s.threads[t].pc) && !Waiting(s.sh, t, s.threads[t].pc)
    ensures Able(s, t)
  {}

  /** In every reachable state with an unfinished call or loop that is not just waiting for messages,
      some thread can step. In particular a cleanup always gets through. */
  lemma DeadlockFree(s0: State, run: seq<Action>, s: State, i: nat) returns (t: nat)
    requires Behaviour(s0, run, s)
    requires i < |s.threads| && !Ended(s.threads[i].pc) && !Parked(s.sh, i, s.threads[i].pc)
    ensures t < |s.threads| && Able(s, t)
  {
    ReachedInv(s0, run, s);
    t := SomeoneAble(s, i);
  }

  /** Another thread may have to wait for one that is here. */
  predicate Blocks(pc: PC) { HoldsConsumer(pc) || HoldsProducer(pc) || HoldsState(pc) || Counted(pc) }

  lemma SomeoneAble(s: State, i: nat) returns (t: nat)
    requires LocksOk(s) && StagesOk(s) && CountOk(s) && ThreadsOk(s)
    requires i < |s.threads| && !Ended(s.threads[i].pc) && !Parked(s.sh, i, s.threads[i].pc)
    ensures t < |s.threads| && Able(s, t) && (t == i || Blocks(s.threads[t].pc))
  {
    var sh := s.sh;
    if sh.consumerMutex.Some? {
      t := sh.consumerMutex.value;
    } else if sh.producerMutex.Some? {
      t := sh.producerMutex.value;
    } else if sh.stateMutex.Some? {
      t := sh.stateMutex.value;
    } else if s.threads[i].pc == Cleaning(ClnWait) && sh.reg.recvWG != 0 {
      t := SumPositive(s.threads, CountedW);
      assert StageOk(sh, s.threads[i].pc);
    } else {
      t := i;
    }
    assert ThreadOk(s, t);
    AbleUnlessWaiting(s, t);
  }

  // ---- Bounded shutdown

  /** How many steps a thread can still take once the plugin is closed. */
  function Rank(th: Thread): nat {
    match th.pc
    case Subscribing(at) => (match at case SubCheck => 9 case SubLock => 8 case SubInsert => 7)
    case Dialling(at) =>
      (match at case RxCheck => 11 case RxClient => 10 case RxDial => 9 case RxLock => 8 case RxInsert => 7
                case RxReject => 1)
    case Looping(at) =>
      (match at case Cleared(_) => 8 case Handling(_) => 7 case Settling(_, _) => 6 case Registered => 6
                case Select => 5 case Got(_) => 4 case Exiting => 3 case ExitDelete => 2 case Leaving => 1)
    case Taking(at) =>
      (match at case UnsLock => 3 case UnsTake => 2 case UnsCall => 1
                case ProLock => 3 case ProTake => 2 case ProCall => 1)
    case Sending(at) => (match at case SndRead(count) => count + 2 case SndCall(left) => left + 1)
    case Cleaning(at) =>
      (match at case ClnStart => 13 case ClnMarkLock => 12 case ClnMark => 11 case ClnDrainLock => 10
                case ClnDrain => 9 case ClnCancel(_) => 8 case ClnWait => 7 case ClnConsLock => 6
                case ClnCons => 5 case ClnProdLock => 4 case ClnProd => 3 case ClnCliLock => 2
                case ClnCli => 1 case ClnDone => 0)
    case _ => 0
  }

  /** Messages a thread can still take, and handler calls it can still start, once the plugin is closed. */
  function MayTake(pc: PC): nat {
    match pc
    case Subscribing(_) | Dialling(_) => 1
    case Looping(at) => if at.Got? || at.Exiting? || at.ExitDelete? || at.Leaving? then 0 else 1
    case _ => 0
  }

  function MayCall(pc: PC): nat { if pc.Looping? && pc.loop.Cleared? then 1 else 0 }

  predicate Closing(sh: Shared, th: Thread, sh': Shared, th': Thread) {
    && sh'.reg.closed
    && Rank(th') < Rank(th)
    && |th'.log.got| + MayTake(th'.pc) <= |th.log.got| + MayTake(th.pc)
    && th'.log.calls + MayCall(th'.pc) <= th.log.calls + MayCall(th.pc)
  }

  lemma SubscribeClosing(sh: Shared, t: nat, th: Thread, at: SubscribePC, c: Choice, sh': Shared, th': Thread)
    requires th.pc == Subscribing(at) && SubscribeStep(sh, t, th, at, c) == Moved(sh', th') && sh.reg.closed
    ensures Closing(sh, th, sh', th')
  {}

  lemma RegexClosing(sh: Shared, t: nat, th: Thread, at: RegexPC, c: Choice, sh': Shared, th': Thread)
    requires th.pc == Dialling(at) && RegexStep(sh, t, th, at, c) == Moved(sh', th') && sh.reg.closed
    ensures Closing(sh, th, sh', th')
  {
    match at
    case RxInsert =>
    case _ =>
  }

  lemma LoopClosing(sh: Shared, t: nat, th: Thread, at: LoopPC, c: Choice, sh': Shared, th': Thread)
    requires th.pc == Looping(at) && LoopStep(sh, t, th, at, c) == Moved(sh', th') && sh.reg.closed
    ensures Closing(sh, th, sh', th')
  {}

  lemma TakeClosing(sh: Shared, t: nat, th: Thread, at: TakePC, c: Choice, sh': Shared, th': Thread)
    requires th.pc == Taking(at) && TakeStep(sh, t, th, at, c) == Moved(sh', th') && sh.reg.closed
    ensures Closing(sh, th, sh', th')
  {}

  lemma SendClosing(sh: Shared, t: nat, th: Thread, at: SendPC, c: Choice, sh': Shared, th': Thread)
    requires th.pc == Sending(at) && SendStep(sh, t, th, at, c) == Moved(sh', th') && sh.reg.closed
    ensures Closing(sh, th, sh', th')
  {}

  lemma CleanupClosing(sh: Shared, t: nat, th: Thread, at: CleanupPC, c: Choice, sh': Shared, th': Thread)
    requires th.pc == Cleaning(at) && CleanupStep(sh, t, th, at, c) == Moved(sh', th') && sh.reg.closed
    ensures Closing(sh, th, sh', th')
  {
    match at
    case ClnMark =>
    case ClnCons =>
    case ClnProd =>
    case ClnCli =>
    case _ =>
  }

  lemma StepClosing(sh: Shared, t: nat, th: Thread, c: Choice, sh': Shared, th': Thread)
    requires ThreadStep(sh, t, th, c) == Moved(sh', th') && sh.reg.closed
    ensures Closing(sh, th, sh', th')
  {
    match th.pc
    case Subscribing(at) => SubscribeClosing(sh, t, th, at, c, sh', th');
    case Dialling(at) => RegexClosing(sh, t, th, at, c, sh', th');
    case Looping(at) => LoopClosing(sh, t, th, at, c, sh', th');
    case Taking(at) => TakeClosing(sh, t, th, at, c, sh', th');
    case Sending(at) => SendClosing(sh, t, th, at, c, sh', th');
    case Cleaning(at) => CleanupClosing(sh, t, th, at, c, sh', th');
  }

  function Measure(s: State): nat { Sum(s.threads, Rank) }

  function Steps(run: seq<Action>): nat {
    if run == [] then 0 else (if run[0].Move? then 1 else 0) + Steps(run[1..])
  }

  /** The steps that the calls arriving during `run` can take at most: 13 for a call, count + 2 for a
      sending call. */
  function Arrivals(run: seq<Action>): nat {
    if run == [] then 0 else Brought(run[0]) + Arrivals(run[1..])
  }

  function Brought(a: Action): nat { if a.Start? then Rank(NewThread(a.call)) else 0 }

  /** What one action does to the measure and to each thread's budget once closed is set. */
  lemma ActionClosing(s: State, a: Action, s': State)
    requires s.sh.reg.closed && Next(s, a) == Some(s')
    ensures s'.sh.reg.closed && |s.threads| <= |s'.threads|
    ensures Measure(s') + (if a.Move? then 1 else 0) <= Measure(s) + Brought(a)
    ensures forall i | 0 <= i < |s.threads| :: WithinBudget(s.threads[i], s'.threads[i])
  {
    match a
    case Start(call) => SumAppend(s.threads, Rank, NewThread(call));
    case Move(t, c) =>
      StepClosing(s.sh, t, s.threads[t], c, s'.sh, s'.threads[t]);
      SumUpdate(s.threads, Rank, t, s'.threads[t]);
    case CancelCaller(t) =>
  }

  predicate WithinBudget(th: Thread, th': Thread) {
    && |th'.log.got| + MayTake(th'.pc) <= |th.log.got| + MayTake(th.pc)
    && th'.log.calls + MayCall(th'.pc) <= th.log.calls + MayCall(th.pc)
  }

  /** Once closed is set, a run of any length takes at most Measure(s) steps, plus what the calls that
      arrive later bring, whatever the scheduler and the selects choose. On the way each existing
      call takes at most one more message and starts at most one more handler call. */
  lemma {:induction false} ShutdownBound(s: State, run: seq<Action>, s': State)
    requires s.sh.reg.closed && Exec(s, run) == Some(s')
    ensures s'.sh.reg.closed && |s.threads| <= |s'.threads|
    ensures Steps(run) + Measure(s') <= Measure(s) + Arrivals(run)
    ensures forall i | 0 <= i < |s.threads| :: WithinBudget(s.threads[i], s'.threads[i])
    ensures forall i | 0 <= i < |s.threads| ::
              && |s'.threads[i].log.got| <= |s.threads[i].log.got| + 1
              && s'.threads[i].log.calls <= s.threads[i].log.calls + 1
    decreases |run|
  {
    if run != [] {
      var s1 := Next(s, run[0]).value;
      ActionClosing(s, run[0], s1);
      ShutdownBound(s1, run[1..], s');
      forall i | 0 <= i < |s.threads| ensures WithinBudget(s.threads[i], s'.threads[i]) {
        assert WithinBudget(s.threads[i], s1.threads[i]) && WithinBudget(s1.threads[i], s'.threads[i]);
      }
    }
  }

  // ---- Completion

  /** A reachable state where closed is set and nobody can step is quiescent: every call and every loop has
      ended and a cleanup is done. With `ShutdownBound`, every run that goes on as long as somebody can
      step gets there. */
  lemma StuckMeansQuiescent(s0: State, run: seq<Action>, s: State)
    requires Behaviour(s0, run, s) && s.sh.reg.closed
    requires forall t | 0 <= t < |s.threads| :: !Able(s, t)
    ensures Quiescent(s)
  {
    ReachedInv(s0, run, s);
    AllEnded(s);
    var d :| 0 <= d < |s.threads| && Stage(s.threads[d].pc) >= 2;
    assert s.threads[d].pc == Cleaning(ClnDone);
  }

  lemma AllEnded(s: State)
    requires LocksOk(s) && StagesOk(s) && CountOk(s) && ThreadsOk(s) && s.sh.reg.closed
    requires forall t | 0 <= t < |s.threads| :: !Able(s, t)
    ensures forall i | 0 <= i < |s.threads| :: Ended(s.threads[i].pc)
  {
    if i: nat :| i < |s.threads| && !Ended(s.threads[i].pc) {
      var t := SomeoneAble(s, i);
      assert false;
    }
  }

  /** From every reachable state where closed is set, shutdown can be completed without a new call, without
      another message and within Measure(s) steps; afterwards nothing is registered or open. */
  lemma ShutdownCompletes(s0: State, run: seq<Action>, s: State) returns (more: seq<Action>, s': State)
    requires Behaviour(s0, run, s) && s.sh.reg.closed
    ensures Exec(s, more) == Some(s') && |more| <= Measure(s) && Arrivals(more) == 0
    ensures Quiescent(s')
    ensures s'.sh.reg.subscriptions == map[] && s'.sh.reg.consumers == map[] && s'.sh.reg.producers == map[]
    decreases Measure(s)
  {
    if forall t | 0 <= t < |s.threads| :: !Able(s, t) {
      StuckMeansQuiescent(s0, run, s);
      QuiescentShutdown(s0, run, s);
      return [], s;
    }
    var t :| 0 <= t < |s.threads| && Able(s, t);
    var a := Move(t, Due(s.sh, s.threads[t].pc));
    var s1 := Next(s, a).value;
    ActionClosing(s, a, s1);
    ExecSnoc(s0, run, s, a, s1);
    more, s' := ShutdownCompletes(s0, run + [a], s1);
    assert ([a] + more)[1..] == more;
    more := [a] + more;
  }
}

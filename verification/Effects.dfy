/** What one step of one thread can do to the shared data and to its own entry, stated concern by
    concern. The case analysis over program counters happens here and nowhere else. */
module Effects {
  import opened Registry
  import opened Meaning
  import opened Protocol
  import opened Invariant

  predicate MutexEffect(was: Option<nat>, held: bool, now: Option<nat>, holds: bool, t: nat) {
    || (now == was && held == holds)
    || (was == None && now == Some(t) && !held && holds)
    || (was == Some(t) && now == None && held && !holds)
  }

  predicate Holding(sh: Shared, t: nat, pc: PC) {
    && (sh.consumerMutex == Some(t) <==> HoldsConsumer(pc))
    && (sh.producerMutex == Some(t) <==> HoldsProducer(pc))
    && (sh.stateMutex == Some(t) <==> HoldsState(pc))
  }

  predicate LockEffect(sh: Shared, t: nat, th: Thread, sh': Shared, th': Thread) {
    && MutexEffect(sh.consumerMutex, HoldsConsumer(th.pc), sh'.consumerMutex, HoldsConsumer(th'.pc), t)
    && MutexEffect(sh.producerMutex, HoldsProducer(th.pc), sh'.producerMutex, HoldsProducer(th'.pc), t)
    && MutexEffect(sh.stateMutex, HoldsState(th.pc), sh'.stateMutex, HoldsState(th'.pc), t)
  }

  predicate StageEffect(sh: Shared, th: Thread, sh': Shared, th': Thread) {
    && (sh.reg.closed ==> sh'.reg.closed)
    && (sh'.reg.closed ==> sh.reg.closed || sh.reg.closeChan)
    && (sh.reg.closeChan ==> sh'.reg.closeChan)
    && (sh.drained ==> sh'.drained)
    && Stage(th.pc) <= Stage(th'.pc)
    && (sh'.reg.closed && !sh.reg.closed ==> Stage(th'.pc) >= 2)
    && (sh'.drained ==> sh.drained || (sh.reg.closed && sh.reg.recvWG == 0))
    && (Dispatching(th'.pc) ==> Dispatching(th.pc) || (InRegistry(th.pc) && !sh.reg.closed))
    && (sh.reg.producers == map[] ==> sh'.reg.producers == map[])
    && (sh'.reg.clientOpen ==> sh.reg.clientOpen)
    && (!sh'.reg.clientOpen ==> !sh.reg.clientOpen || (sh.drained && th'.pc == Cleaning(ClnDone)))
    && (th.pc == Cleaning(ClnDone) ==> th'.pc == Cleaning(ClnDone))
    && sh'.reg.clientCloses - sh.reg.clientCloses == (if sh.reg.clientOpen && !sh'.reg.clientOpen then 1 else 0)
    && StageOk(sh', th'.pc)
  }

  /** The log of a loop changes by taking a message, or by settling the one in hand in one way. */
  predicate LogEffect(log: Log, inHand: Option<Message>, log': Log, inHand': Option<Message>) {
    || (inHand' == inHand && log' == log.(calls := log'.calls, panics := log'.panics))
    || (inHand.None? && inHand'.Some? && log' == log.(got := log.got + [inHand'.value]))
    || (inHand.Some? && inHand'.None?
        && (|| log' == log.(acked := log.acked + [inHand.value])
            || log' == log.(nacked := log.nacked + [inHand.value])
            || log' == log.(dropped := log.dropped + [inHand.value])))
  }

  predicate NumbersEffect(sh: Shared, th: Thread, sh': Shared, th': Thread) {
    && sh'.reg.recvWG - sh.reg.recvWG == CountedW(th') - CountedW(th)
    && sh'.reg.received - sh.reg.received == ReceivedW(th') - ReceivedW(th)
    && sh'.reg.failed - sh.reg.failed == FailedW(th') - FailedW(th)
  }

  predicate CountEffect(sh: Shared, th: Thread, sh': Shared, th': Thread) {
    && NumbersEffect(sh, th, sh', th')
    && LogEffect(th.log, InFlight(th.pc), th'.log, InFlight(th'.pc))
    && Tallied(sh', th')
  }

  predicate SubscriptionsEffect(sh: Shared, t: nat, th: Thread, sh': Shared, th': Thread) {
    var was, now := sh.reg.subscriptions, sh'.reg.subscriptions;
    if !InRegistry(th.pc) && InRegistry(th'.pc) then th.name !in was && now == was[th.name := t]
    else if InRegistry(th.pc) && !InRegistry(th'.pc) then now == was - {th.name}
    else now == was || (sh.reg.closed && now == map[] && !InRegistry(th.pc))
  }

  predicate IdentityEffect(sh: Shared, t: nat, th: Thread, sh': Shared, th': Thread) {
    && th'.regex == th.regex && th'.name == th.name && sh'.made == sh.made
    && Shape(t, th')
    && (WasRegistered(th.pc) ==> WasRegistered(th'.pc) && th'.handle == th.handle)
    && (!WasRegistered(th.pc) && WasRegistered(th'.pc) ==>
          InRegistry(th'.pc) && (if th.regex then th'.handle == Live(Handle(Regex, th.name, t))
                                 else th'.handle == SlotAt(sh.reg.consumers, th.name)))
    && (WasRegistered(th.pc) && InRegistry(th'.pc) ==> InRegistry(th.pc))
    && (th.pc.Rejected? ==> th'.pc.Rejected?)
    && (th.regex && th.handle.Live? ==> th'.handle == th.handle)
    && (th'.pc.Dialling? ==> th.pc.Dialling?)
    && (AtSend(th'.pc) ==> (AtSend(th.pc) && th'.handle == th.handle) || th'.handle == SlotAt(sh.reg.producers, th.name))
  }

  predicate MapsEffect(sh: Shared, t: nat, th: Thread, sh': Shared, th': Thread) {
    && (|| sh'.reg.consumers == sh.reg.consumers
        || sh'.reg.consumers == sh.reg.consumers - {th.name}
        || sh'.reg.consumers == map[]
        || (th.regex && th.pc.Dialling? && InRegistry(th'.pc)
            && sh'.reg.consumers == sh.reg.consumers[th.name := Live(Handle(Regex, th.name, t))]))
    && (|| sh'.reg.producers == sh.reg.producers
        || sh'.reg.producers == sh.reg.producers - {th.name}
        || sh'.reg.producers == map[])
    && (th.regex && InRegistry(th.pc) && !InRegistry(th'.pc) ==> th.name !in sh'.reg.consumers)
  }

  predicate EndingsEffect(sh: Shared, t: nat, th: Thread, sh': Shared, th': Thread) {
    && (forall h | h in sh'.reg.closes ::
          || h in sh.reg.closes
          || sh.drained
          || h.kind == Produced
          || (h == Handle(Regex, th.name, t) && th.regex && th'.pc.Rejected?))
    && (forall h | h in sh'.reg.unsubs :: h in sh.reg.unsubs || h.kind != Produced)
  }

  /** The step of `th` takes `h` out of the map without closing it: the exit section of a regex loop
      deletes by name, and the insert of a regex call overwrites. */
  predicate Loses(sh: Shared, th: Thread, h: Handle) {
    && th.regex && SlotAt(sh.reg.consumers, th.name) == Live(h)
    && (|| th.pc == Looping(ExitDelete)
        || (th.pc == Dialling(RxInsert) && th.name !in sh.reg.subscriptions))
  }

  predicate LossEffect(sh: Shared, th: Thread, sh': Shared, h: Handle) {
    sh'.reg.lost[h] == sh.reg.lost[h] + if Loses(sh, th, h) then 1 else 0
  }

  /** The step neither duplicates nor forgets `h`; only a regex call that reaches the broker makes
      a new handle. */
  predicate TokenEffect(sh: Shared, th: Thread, sh': Shared, th': Thread, h: Handle) {
    Placed(sh'.reg, h) + OwnsW(h)(th') ==
      Placed(sh.reg, h) + OwnsW(h)(th)
      + if th.regex && th.handle != Live(h) && th'.handle == Live(h) then 1 else 0
  }

  /** A loop moves from its select to a message in hand, and on to the handler only while no cleanup has
      taken the state mutex to set closed, or has set it. */
  predicate CourseEffect(sh: Shared, th: Thread, sh': Shared, th': Thread) {
    && (Pending(th'.pc) ==> Pending(th.pc) || Dispatching(th.pc) || !WasRegistered(th.pc))
    && (AtGot(th'.pc) ==> Pending(th.pc))
    && (Dispatching(th'.pc) ==> Dispatching(th.pc) || (AtGot(th.pc) && !Sealed(sh)))
    && (th'.log.got != th.log.got ==> th.pc == Looping(Select))
    && (Sealed(sh) ==> Sealed(sh'))
  }

  /** No isClosed check can still come out open: closed is set, or the state mutex is held to set it. */
  predicate Sealed(sh: Shared) { sh.reg.closed || sh.stateMutex.Some? }

  /** Locks, the shutdown flags and the course of a loop. */
  predicate FlowEffect(sh: Shared, t: nat, th: Thread, sh': Shared, th': Thread) {
    LockEffect(sh, t, th, sh', th') && StageEffect(sh, th, sh', th') && CourseEffect(sh, th, sh', th')
  }

  /** The registry, the maps and the handles. */
  predicate RegistryEffect(sh: Shared, t: nat, th: Thread, sh': Shared, th': Thread) {
    && SubscriptionsEffect(sh, t, th, sh', th')
    && IdentityEffect(sh, t, th, sh', th')
    && MapsEffect(sh, t, th, sh', th')
    && EndingsEffect(sh, t, th, sh', th')
  }

  /** What the invariant says about one entry and the shared data alone. */
  predicate LocalOk(sh: Shared, t: nat, th: Thread) {
    Holding(sh, t, th.pc) && StageOk(sh, th.pc) && Shape(t, th) && Kinds(sh.reg)
  }

  // ---- SubscribeStep

  lemma SubscribeLocks(sh: Shared, t: nat, th: Thread, at: SubscribePC, c: Choice, sh': Shared, th': Thread)
    requires th.pc == Subscribing(at) && SubscribeStep(sh, t, th, at, c) == Moved(sh', th')
    requires Holding(sh, t, th.pc)
    ensures LockEffect(sh, t, th, sh', th')
  {}

  lemma SubscribeStages(sh: Shared, t: nat, th: Thread, at: SubscribePC, c: Choice, sh': Shared, th': Thread)
    requires th.pc == Subscribing(at) && SubscribeStep(sh, t, th, at, c) == Moved(sh', th')
    requires StageOk(sh, th.pc)
    ensures StageEffect(sh, th, sh', th')
  {}

  lemma SubscribeFlow(sh: Shared, t: nat, th: Thread, at: SubscribePC, c: Choice, sh': Shared, th': Thread)
    requires th.pc == Subscribing(at) && SubscribeStep(sh, t, th, at, c) == Moved(sh', th')
    requires LocalOk(sh, t, th)
    ensures FlowEffect(sh, t, th, sh', th')
  {
    SubscribeLocks(sh, t, th, at, c, sh', th');
    SubscribeStages(sh, t, th, at, c, sh', th');
  }

  lemma SubscribeCounts(sh: Shared, t: nat, th: Thread, at: SubscribePC, c: Choice, sh': Shared, th': Thread)
    requires th.pc == Subscribing(at) && SubscribeStep(sh, t, th, at, c) == Moved(sh', th')
    requires Tallied(sh, th)
    ensures CountEffect(sh, th, sh', th')
  {}

  lemma SubscribeRegistry(sh: Shared, t: nat, th: Thread, at: SubscribePC, c: Choice, sh': Shared, th': Thread)
    requires th.pc == Subscribing(at) && SubscribeStep(sh, t, th, at, c) == Moved(sh', th')
    requires LocalOk(sh, t, th)
    ensures RegistryEffect(sh, t, th, sh', th')
  {}

  lemma SubscribeTokens(sh: Shared, t: nat, th: Thread, at: SubscribePC, c: Choice, sh': Shared, th': Thread, h: Handle)
    requires th.pc == Subscribing(at) && SubscribeStep(sh, t, th, at, c) == Moved(sh', th')
    requires Shape(t, th) && Kinds(sh.reg)
    ensures TokenEffect(sh, th, sh', th', h) && LossEffect(sh, th, sh', h)
  {
    match at
    case SubInsert =>
    case _ =>
  }

  // ---- RegexStep

  lemma RegexFlow(sh: Shared, t: nat, th: Thread, at: RegexPC, c: Choice, sh': Shared, th': Thread)
    requires th.pc == Dialling(at) && RegexStep(sh, t, th, at, c) == Moved(sh', th')
    requires LocalOk(sh, t, th)
    ensures FlowEffect(sh, t, th, sh', th')
  {}

  lemma RegexCounts(sh: Shared, t: nat, th: Thread, at: RegexPC, c: Choice, sh': Shared, th': Thread)
    requires th.pc == Dialling(at) && RegexStep(sh, t, th, at, c) == Moved(sh', th')
    requires Tallied(sh, th)
    ensures CountEffect(sh, th, sh', th')
  {}

  lemma RegexRegistry(sh: Shared, t: nat, th: Thread, at: RegexPC, c: Choice, sh': Shared, th': Thread)
    requires th.pc == Dialling(at) && RegexStep(sh, t, th, at, c) == Moved(sh', th')
    requires LocalOk(sh, t, th)
    ensures RegistryEffect(sh, t, th, sh', th')
  {}

  lemma RegexTokens(sh: Shared, t: nat, th: Thread, at: RegexPC, c: Choice, sh': Shared, th': Thread, h: Handle)
    requires th.pc == Dialling(at) && RegexStep(sh, t, th, at, c) == Moved(sh', th')
    requires Shape(t, th) && Kinds(sh.reg)
    ensures TokenEffect(sh, th, sh', th', h) && LossEffect(sh, th, sh', h)
  {
    match at
    case RxCheck =>
    case RxClient =>
    case RxDial =>
    case RxLock =>
    case RxInsert =>
      if th.name !in sh.reg.subscriptions { InsertPlaced(sh.reg, th.name, t, th.handle.handle, h); }
    case RxReject =>
  }

  // ---- LoopStep

  lemma LoopLocks(sh: Shared, t: nat, th: Thread, at: LoopPC, c: Choice, sh': Shared, th': Thread)
    requires th.pc == Looping(at) && LoopStep(sh, t, th, at, c) == Moved(sh', th')
    requires Holding(sh, t, th.pc)
    ensures LockEffect(sh, t, th, sh', th')
  {}

  lemma LoopStages(sh: Shared, t: nat, th: Thread, at: LoopPC, c: Choice, sh': Shared, th': Thread)
    requires th.pc == Looping(at) && LoopStep(sh, t, th, at, c) == Moved(sh', th')
    requires StageOk(sh, th.pc)
    ensures StageEffect(sh, th, sh', th')
  {
    match at
    case Registered =>
    case ExitDelete =>
    case Leaving =>
    case _ =>
  }

  lemma LoopCourse(sh: Shared, t: nat, th: Thread, at: LoopPC, c: Choice, sh': Shared, th': Thread)
    requires th.pc == Looping(at) && LoopStep(sh, t, th, at, c) == Moved(sh', th')
    ensures CourseEffect(sh, th, sh', th')
  {}

  lemma LoopFlow(sh: Shared, t: nat, th: Thread, at: LoopPC, c: Choice, sh': Shared, th': Thread)
    requires th.pc == Looping(at) && LoopStep(sh, t, th, at, c) == Moved(sh', th')
    requires LocalOk(sh, t, th)
    ensures FlowEffect(sh, t, th, sh', th')
  {
    LoopLocks(sh, t, th, at, c, sh', th');
    LoopStages(sh, t, th, at, c, sh', th');
    LoopCourse(sh, t, th, at, c, sh', th');
  }

  lemma LoopNumbers(sh: Shared, t: nat, th: Thread, at: LoopPC, c: Choice, sh': Shared, th': Thread)
    requires th.pc == Looping(at) && LoopStep(sh, t, th, at, c) == Moved(sh', th')
    ensures NumbersEffect(sh, th, sh', th')
  {
    match at
    case Handling(_) =>
    case Settling(_, _) =>
    case _ =>
  }

  lemma LoopLog(sh: Shared, t: nat, th: Thread, at: LoopPC, c: Choice, sh': Shared, th': Thread)
    requires th.pc == Looping(at) && LoopStep(sh, t, th, at, c) == Moved(sh', th')
    requires Tallied(sh, th)
    ensures LogEffect(th.log, InFlight(th.pc), th'.log, InFlight(th'.pc)) && Tallied(sh', th')
  {}

  lemma LoopCounts(sh: Shared, t: nat, th: Thread, at: LoopPC, c: Choice, sh': Shared, th': Thread)
    requires th.pc == Looping(at) && LoopStep(sh, t, th, at, c) == Moved(sh', th')
    requires Tallied(sh, th)
    ensures CountEffect(sh, th, sh', th')
  {
    LoopNumbers(sh, t, th, at, c, sh', th');
    LoopLog(sh, t, th, at, c, sh', th');
  }

  lemma LoopRegistry(sh: Shared, t: nat, th: Thread, at: LoopPC, c: Choice, sh': Shared, th': Thread)
    requires th.pc == Looping(at) && LoopStep(sh, t, th, at, c) == Moved(sh', th')
    requires LocalOk(sh, t, th)
    ensures RegistryEffect(sh, t, th, sh', th')
  {
    if !at.ExitDelete? {
      LoopKeepsPlaces(sh, t, th, at, c, sh', th');
      LoopKeepsEntry(sh, t, th, at, c, sh', th');
    }
  }

  predicate SamePlaces(r: Registry, r': Registry) {
    && r'.consumers == r.consumers && r'.producers == r.producers
    && r'.closes == r.closes && r'.unsubs == r.unsubs && r'.lost == r.lost
  }

  predicate SameEntry(th: Thread, th': Thread) {
    && th'.regex == th.regex && th'.name == th.name && th'.handle == th.handle
    && InRegistry(th'.pc) == InRegistry(th.pc)
    && (if th.pc == Looping(Leaving) then th'.pc.Finished? else th'.pc.Looping?)
  }

  lemma LoopKeepsPlaces(sh: Shared, t: nat, th: Thread, at: LoopPC, c: Choice, sh': Shared, th': Thread)
    requires th.pc == Looping(at) && !at.ExitDelete? && LoopStep(sh, t, th, at, c) == Moved(sh', th')
    ensures SamePlaces(sh.reg, sh'.reg) && sh'.reg.subscriptions == sh.reg.subscriptions && sh'.made == sh.made
  {}

  lemma LoopKeepsEntry(sh: Shared, t: nat, th: Thread, at: LoopPC, c: Choice, sh': Shared, th': Thread)
    requires th.pc == Looping(at) && !at.ExitDelete? && LoopStep(sh, t, th, at, c) == Moved(sh', th')
    ensures SameEntry(th, th')
  {}

  lemma LoopTokens(sh: Shared, t: nat, th: Thread, at: LoopPC, c: Choice, sh': Shared, th': Thread, h: Handle)
    requires th.pc == Looping(at) && LoopStep(sh, t, th, at, c) == Moved(sh', th')
    requires Kinds(sh.reg)
    ensures TokenEffect(sh, th, sh', th', h) && LossEffect(sh, th, sh', h)
  {
    if at.ExitDelete? {
      ExitPlaced(sh.reg, th.name, h);
    } else {
      LoopKeepsPlaces(sh, t, th, at, c, sh', th');
      LoopKeepsEntry(sh, t, th, at, c, sh', th');
    }
  }

  // ---- TakeStep

  lemma TakeFlow(sh: Shared, t: nat, th: Thread, at: TakePC, c: Choice, sh': Shared, th': Thread)
    requires th.pc == Taking(at) && TakeStep(sh, t, th, at, c) == Moved(sh', th')
    requires LocalOk(sh, t, th)
    ensures FlowEffect(sh, t, th, sh', th')
  {}

  lemma TakeCounts(sh: Shared, t: nat, th: Thread, at: TakePC, c: Choice, sh': Shared, th': Thread)
    requires th.pc == Taking(at) && TakeStep(sh, t, th, at, c) == Moved(sh', th')
    requires Tallied(sh, th)
    ensures CountEffect(sh, th, sh', th')
  {}

  lemma TakeRegistry(sh: Shared, t: nat, th: Thread, at: TakePC, c: Choice, sh': Shared, th': Thread)
    requires th.pc == Taking(at) && TakeStep(sh, t, th, at, c) == Moved(sh', th')
    requires LocalOk(sh, t, th)
    ensures RegistryEffect(sh, t, th, sh', th')
  {}

  lemma TakeTokens(sh: Shared, t: nat, th: Thread, at: TakePC, c: Choice, sh': Shared, th': Thread, h: Handle)
    requires th.pc == Taking(at) && TakeStep(sh, t, th, at, c) == Moved(sh', th')
    requires Shape(t, th) && Kinds(sh.reg)
    ensures TokenEffect(sh, th, sh', th', h) && LossEffect(sh, th, sh', h)
  {}

  // ---- SendStep

  lemma SendFlow(sh: Shared, t: nat, th: Thread, at: SendPC, c: Choice, sh': Shared, th': Thread)
    requires th.pc == Sending(at) && SendStep(sh, t, th, at, c) == Moved(sh', th')
    requires LocalOk(sh, t, th)
    ensures FlowEffect(sh, t, th, sh', th')
  {}

  lemma SendCounts(sh: Shared, t: nat, th: Thread, at: SendPC, c: Choice, sh': Shared, th': Thread)
    requires th.pc == Sending(at) && SendStep(sh, t, th, at, c) == Moved(sh', th')
    requires Tallied(sh, th)
    ensures CountEffect(sh, th, sh', th')
  {}

  lemma SendRegistry(sh: Shared, t: nat, th: Thread, at: SendPC, c: Choice, sh': Shared, th': Thread)
    requires th.pc == Sending(at) && SendStep(sh, t, th, at, c) == Moved(sh', th')
    requires LocalOk(sh, t, th)
    ensures RegistryEffect(sh, t, th, sh', th')
  {}

  lemma SendTokens(sh: Shared, t: nat, th: Thread, at: SendPC, c: Choice, sh': Shared, th': Thread, h: Handle)
    requires th.pc == Sending(at) && SendStep(sh, t, th, at, c) == Moved(sh', th')
    requires Shape(t, th)
    ensures TokenEffect(sh, th, sh', th', h) && LossEffect(sh, th, sh', h)
  {}

  // ---- CleanupStep

  lemma CleanupLocks(sh: Shared, t: nat, th: Thread, at: CleanupPC, c: Choice, sh': Shared, th': Thread)
    requires th.pc == Cleaning(at) && CleanupStep(sh, t, th, at, c) == Moved(sh', th')
    requires Holding(sh, t, th.pc)
    ensures LockEffect(sh, t, th, sh', th')
  {}

  lemma CleanupStageOk(sh: Shared, t: nat, th: Thread, at: CleanupPC, c: Choice, sh': Shared, th': Thread)
    requires th.pc == Cleaning(at) && CleanupStep(sh, t, th, at, c) == Moved(sh', th')
    requires StageOk(sh, th.pc)
    ensures StageOk(sh', th'.pc)
  {}

  lemma CleanupAdvance(sh: Shared, t: nat, th: Thread, at: CleanupPC, c: Choice, sh': Shared, th': Thread)
    requires th.pc == Cleaning(at) && CleanupStep(sh, t, th, at, c) == Moved(sh', th')
    ensures Stage(th.pc) <= Stage(th'.pc)
  {}

  lemma CleanupStages(sh: Shared, t: nat, th: Thread, at: CleanupPC, c: Choice, sh': Shared, th': Thread)
    requires th.pc == Cleaning(at) && CleanupStep(sh, t, th, at, c) == Moved(sh', th')
    requires StageOk(sh, th.pc)
    ensures StageEffect(sh, th, sh', th')
  {
    CleanupStageOk(sh, t, th, at, c, sh', th');
    CleanupAdvance(sh, t, th, at, c, sh', th');
  }

  lemma CleanupCourse(sh: Shared, t: nat, th: Thread, at: CleanupPC, c: Choice, sh': Shared, th': Thread)
    requires th.pc == Cleaning(at) && CleanupStep(sh, t, th, at, c) == Moved(sh', th') && StageOk(sh, th.pc)
    ensures CourseEffect(sh, th, sh', th')
  {}

  lemma CleanupFlow(sh: Shared, t: nat, th: Thread, at: CleanupPC, c: Choice, sh': Shared, th': Thread)
    requires th.pc == Cleaning(at) && CleanupStep(sh, t, th, at, c) == Moved(sh', th')
    requires LocalOk(sh, t, th)
    ensures FlowEffect(sh, t, th, sh', th')
  {
    CleanupLocks(sh, t, th, at, c, sh', th');
    CleanupStages(sh, t, th, at, c, sh', th');
    CleanupCourse(sh, t, th, at, c, sh', th');
  }

  lemma CleanupCounts(sh: Shared, t: nat, th: Thread, at: CleanupPC, c: Choice, sh': Shared, th': Thread)
    requires th.pc == Cleaning(at) && CleanupStep(sh, t, th, at, c) == Moved(sh', th')
    requires Tallied(sh, th)
    ensures CountEffect(sh, th, sh', th')
  {}

  lemma CleanupIdentity(sh: Shared, t: nat, th: Thread, at: CleanupPC, c: Choice, sh': Shared, th': Thread)
    requires th.pc == Cleaning(at) && CleanupStep(sh, t, th, at, c) == Moved(sh', th')
    requires LocalOk(sh, t, th)
    ensures IdentityEffect(sh, t, th, sh', th')
  {}

  lemma CleanupMaps(sh: Shared, t: nat, th: Thread, at: CleanupPC, c: Choice, sh': Shared, th': Thread)
    requires th.pc == Cleaning(at) && CleanupStep(sh, t, th, at, c) == Moved(sh', th')
    requires LocalOk(sh, t, th)
    ensures SubscriptionsEffect(sh, t, th, sh', th') && MapsEffect(sh, t, th, sh', th')
    ensures EndingsEffect(sh, t, th, sh', th')
  {}

  lemma CleanupRegistry(sh: Shared, t: nat, th: Thread, at: CleanupPC, c: Choice, sh': Shared, th': Thread)
    requires th.pc == Cleaning(at) && CleanupStep(sh, t, th, at, c) == Moved(sh', th')
    requires LocalOk(sh, t, th)
    ensures RegistryEffect(sh, t, th, sh', th')
  {
    CleanupIdentity(sh, t, th, at, c, sh', th');
    CleanupMaps(sh, t, th, at, c, sh', th');
  }

  lemma CleanupTokens(sh: Shared, t: nat, th: Thread, at: CleanupPC, c: Choice, sh': Shared, th': Thread, h: Handle)
    requires th.pc == Cleaning(at) && CleanupStep(sh, t, th, at, c) == Moved(sh', th')
    requires Kinds(sh.reg)
    ensures TokenEffect(sh, th, sh', th', h) && LossEffect(sh, th, sh', h)
  {
    CleanupKeeps(sh, t, th, at, c, sh', th');
    ClosePlaced(sh.reg, h);
  }

  predicate CleanupPlaces(at: CleanupPC, sh: Shared, th: Thread, sh': Shared, th': Thread) {
    && th'.handle == th.handle && th'.regex == th.regex && !OwnsHandle(th'.pc)
    && (if at.ClnCons? then sh'.reg == CloseConsumers(sh.reg)
        else if at.ClnProd? then sh'.reg == CloseProducers(sh.reg)
        else SamePlaces(sh.reg, sh'.reg))
  }

  lemma CleanupKeeps(sh: Shared, t: nat, th: Thread, at: CleanupPC, c: Choice, sh': Shared, th': Thread)
    requires th.pc == Cleaning(at) && CleanupStep(sh, t, th, at, c) == Moved(sh', th')
    ensures CleanupPlaces(at, sh, th, sh', th')
  {}

  /** The effects of any step. */
  lemma StepEffects(sh: Shared, t: nat, th: Thread, c: Choice, sh': Shared, th': Thread)
    requires ThreadStep(sh, t, th, c) == Moved(sh', th')
    requires LocalOk(sh, t, th) && Tallied(sh, th)
    ensures FlowEffect(sh, t, th, sh', th')
    ensures CountEffect(sh, th, sh', th')
    ensures RegistryEffect(sh, t, th, sh', th')
    ensures forall h :: TokenEffect(sh, th, sh', th', h) && LossEffect(sh, th, sh', h)
  {
    forall h ensures TokenEffect(sh, th, sh', th', h) && LossEffect(sh, th, sh', h) {
      match th.pc
      case Subscribing(at) => SubscribeTokens(sh, t, th, at, c, sh', th', h);
      case Dialling(at) => RegexTokens(sh, t, th, at, c, sh', th', h);
      case Looping(at) => LoopTokens(sh, t, th, at, c, sh', th', h);
      case Taking(at) => TakeTokens(sh, t, th, at, c, sh', th', h);
      case Sending(at) => SendTokens(sh, t, th, at, c, sh', th', h);
      case Cleaning(at) => CleanupTokens(sh, t, th, at, c, sh', th', h);
    }
    match th.pc
    case Subscribing(at) =>
      SubscribeFlow(sh, t, th, at, c, sh', th');
      SubscribeCounts(sh, t, th, at, c, sh', th');
      SubscribeRegistry(sh, t, th, at, c, sh', th');
    case Dialling(at) =>
      RegexFlow(sh, t, th, at, c, sh', th');
      RegexCounts(sh, t, th, at, c, sh', th');
      RegexRegistry(sh, t, th, at, c, sh', th');
    case Looping(at) =>
      LoopFlow(sh, t, th, at, c, sh', th');
      LoopCounts(sh, t, th, at, c, sh', th');
      LoopRegistry(sh, t, th, at, c, sh', th');
    case Taking(at) =>
      TakeFlow(sh, t, th, at, c, sh', th');
      TakeCounts(sh, t, th, at, c, sh', th');
      TakeRegistry(sh, t, th, at, c, sh', th');
    case Sending(at) =>
      SendFlow(sh, t, th, at, c, sh', th');
      SendCounts(sh, t, th, at, c, sh', th');
      SendRegistry(sh, t, th, at, c, sh', th');
    case Cleaning(at) =>
      CleanupFlow(sh, t, th, at, c, sh', th');
      CleanupCounts(sh, t, th, at, c, sh', th');
      CleanupRegistry(sh, t, th, at, c, sh', th');
  }
}

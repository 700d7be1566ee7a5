/** The inductive invariant of the protocol. */
module Invariant {
  import opened Registry
  import opened Protocol
  import opened Sums

  // ---- Sets of program counters

  predicate HoldsConsumer(pc: PC) {
    match pc
    case Subscribing(at) => at.SubInsert?
    case Dialling(at) => at.RxInsert?
    case Looping(at) => at.ExitDelete?
    case Taking(at) => at.UnsTake?
    case Cleaning(at) => at.ClnDrain? || at.ClnCons?
    case _ => false
  }

  predicate HoldsProducer(pc: PC) {
    (pc.Taking? && pc.take.ProTake?) || (pc.Cleaning? && pc.cln.ClnProd?)
  }

  predicate HoldsState(pc: PC) { pc.Cleaning? && (pc.cln.ClnMark? || pc.cln.ClnCli?) }

  /** Past its isClosed check with a message in hand: about to call the handler, in it, or about to
      Ack or Nack. */
  predicate Dispatching(pc: PC) {
    pc.Looping? && (pc.loop.Cleared? || pc.loop.Handling? || pc.loop.Settling?)
  }

  /** Registered and not yet past the section that removes the entry again. */
  predicate InRegistry(pc: PC) { pc.Looping? && !pc.loop.Leaving? }

  /** In or before its select: the next thing it takes is a message. */
  predicate Pending(pc: PC) { pc.Looping? && (pc.loop.Registered? || pc.loop.Select?) }

  predicate AtGot(pc: PC) { pc.Looping? && pc.loop.Got? }

  predicate AtSend(pc: PC) { pc.Sending? && pc.snd.SndCall? }

  /** A goroutine that recvWG accounts for. */
  predicate Counted(pc: PC) { pc.Looping? && !pc.loop.Registered? }

  predicate WasRegistered(pc: PC) { pc.Looping? || pc.Finished? }

  /** Owns a handle that is in no map. */
  predicate OwnsHandle(pc: PC) {
    || (pc.Dialling? && (pc.rx.RxLock? || pc.rx.RxInsert? || pc.rx.RxReject?))
    || (pc.Taking? && (pc.take.UnsCall? || pc.take.ProCall?))
  }

  /** How far a cleanup has come: 1 close channel closed, 2 closed set, 3 Wait returned,
      4 consumers closed, 5 producers closed, 6 client closed. */
  function Stage(pc: PC): nat {
    if !pc.Cleaning? then 0
    else match pc.cln
      case ClnStart => 0
      case ClnMarkLock | ClnMark => 1
      case ClnDrainLock | ClnDrain | ClnCancel(_) | ClnWait => 2
      case ClnConsLock | ClnCons => 3
      case ClnProdLock | ClnProd => 4
      case ClnCliLock | ClnCli => 5
      case ClnDone => 6
  }

  // ---- Weights

  function CountedW(th: Thread): nat { if Counted(th.pc) then 1 else 0 }

  function OwnsW(h: Handle): Thread -> nat {
    (th: Thread) => if OwnsHandle(th.pc) && th.handle == Live(h) then 1 else 0
  }

  function ReceivedW(th: Thread): nat {
    |th.log.acked| + if th.pc.Looping? && th.pc.loop.Settling? && th.pc.loop.ok then 1 else 0
  }

  function FailedW(th: Thread): nat {
    |th.log.nacked| + th.log.panics + if th.pc.Looping? && th.pc.loop.Settling? && !th.pc.loop.ok then 1 else 0
  }

  // ---- The parts of the invariant

  predicate LocksOk(s: State) {
    && (s.sh.consumerMutex.Some? ==> s.sh.consumerMutex.value < |s.threads|)
    && (s.sh.producerMutex.Some? ==> s.sh.producerMutex.value < |s.threads|)
    && (s.sh.stateMutex.Some? ==> s.sh.stateMutex.value < |s.threads|)
    && forall i | 0 <= i < |s.threads| ::
         && (s.sh.consumerMutex == Some(i) <==> HoldsConsumer(s.threads[i].pc))
         && (s.sh.producerMutex == Some(i) <==> HoldsProducer(s.threads[i].pc))
         && (s.sh.stateMutex == Some(i) <==> HoldsState(s.threads[i].pc))
  }

  predicate StageOk(sh: Shared, pc: PC) {
    && (Stage(pc) >= 1 ==> sh.reg.closeChan)
    && (Stage(pc) >= 2 ==> sh.reg.closed)
    && (Stage(pc) >= 3 ==> sh.drained)
    && (Stage(pc) >= 4 ==> OnlyRegex(sh.reg.consumers))
    && (Stage(pc) >= 5 ==> sh.reg.producers == map[])
    && (Stage(pc) >= 6 ==> !sh.reg.clientOpen)
  }

  predicate OnlyRegex(consumers: map<string, Slot>) {
    forall n | n in consumers :: consumers[n].Live? && consumers[n].handle.kind == Regex
  }

  /** Some cleanup has got as far as setting closed. */
  predicate HasCleaner(s: State) {
    exists i :: 0 <= i < |s.threads| && Stage(s.threads[i].pc) >= 2
  }

  predicate StagesOk(s: State) {
    && (s.sh.reg.closed ==> HasCleaner(s))
    && (s.sh.drained ==> s.sh.reg.closed)
    && (s.sh.reg.closed ==> s.sh.reg.closeChan)
    && (forall i | 0 <= i < |s.threads| :: StageOk(s.sh, s.threads[i].pc))
    && (s.sh.drained ==> forall i | 0 <= i < |s.threads| :: !Dispatching(s.threads[i].pc))
    && (!s.sh.reg.clientOpen ==> s.sh.drained)
    && s.sh.reg.clientCloses == if s.sh.reg.clientOpen then 0 else 1
  }

  /** Some cleanup has finished. */
  predicate HasFinished(s: State) {
    exists i :: 0 <= i < |s.threads| && s.threads[i].pc == Cleaning(ClnDone)
  }

  predicate ClientOk(s: State) { !s.sh.reg.clientOpen ==> HasFinished(s) }

  predicate CountOk(s: State) { s.sh.reg.recvWG == Sum(s.threads, CountedW) }

  /** Entry `n` of the registry belongs to a loop of that name that has not left yet. */
  predicate Backed(s: State, n: string, t: nat) {
    t < |s.threads| && InRegistry(s.threads[t].pc) && s.threads[t].name == n
  }

  /** `h` came from the regex call `h.serial`, which has inserted it. */
  predicate FromRegex(s: State, h: Handle) {
    && h.kind == Regex && h.serial < |s.threads|
    && s.threads[h.serial].regex && s.threads[h.serial].name == h.name
    && WasRegistered(s.threads[h.serial].pc)
  }

  predicate SubscriptionsOk(s: State) {
    && (forall n | n in s.sh.reg.subscriptions :: Backed(s, n, s.sh.reg.subscriptions[n]))
    && (!s.sh.reg.closed ==>
          forall i | 0 <= i < |s.threads| && InRegistry(s.threads[i].pc) ::
            s.threads[i].name in s.sh.reg.subscriptions && s.sh.reg.subscriptions[s.threads[i].name] == i)
    && (forall i, j | 0 <= i < j < |s.threads| && Dispatching(s.threads[i].pc) && Dispatching(s.threads[j].pc) ::
          s.threads[i].name != s.threads[j].name)
  }

  /** A regex consumer in the map belongs to a loop that has not left yet. */
  predicate RegexBacked(s: State, h: Handle) {
    FromRegex(s, h) && InRegistry(s.threads[h.serial].pc)
  }

  predicate MapsOk(s: State) {
    && Kinds(s.sh.reg)
    && (forall n | n in s.sh.reg.consumers && s.sh.reg.consumers[n].Live? && s.sh.reg.consumers[n].handle.kind == Regex ::
          RegexBacked(s, s.sh.reg.consumers[n].handle))
  }

  /** What an entry's own fields say: which calls are regex calls, and who has a handle. */
  predicate Shape(t: nat, th: Thread) {
    && (th.regex ==> IsRegexName(th.name) && !th.pc.Subscribing? && !th.pc.Taking? && !th.pc.Sending? && !th.pc.Cleaning?)
    && (!th.regex ==> !th.pc.Dialling? && !th.pc.Rejected?)
    && (th.regex && th.handle.Live? ==>
          && th.handle.handle == Handle(Regex, th.name, t)
          && (OwnsHandle(th.pc) || WasRegistered(th.pc) || th.pc.Rejected?))
    && (th.handle.Nil? ==> !OwnsHandle(th.pc) && !WasRegistered(th.pc) && !th.pc.Rejected? && !AtSend(th.pc))
    && (th.pc == Taking(ProCall) ==> th.handle.handle.kind == Produced)
    && (th.pc == Taking(UnsCall) ==> th.handle.handle.kind != Produced)
  }

  predicate ThreadOk(s: State, t: nat)
    requires t < |s.threads|
  {
    var th := s.threads[t];
    && Shape(t, th)
    && (WasRegistered(th.pc) ==>
          && th.handle.handle.name == th.name
          && ((th.handle.handle.kind == Configured && th.handle.handle in s.sh.made) || FromRegex(s, th.handle.handle)))
    && (AtSend(th.pc) ==> th.handle.handle.kind == Produced && th.handle.handle in s.sh.made)
  }

  predicate ThreadsOk(s: State) {
    forall i | 0 <= i < |s.threads| :: ThreadOk(s, i)
  }

  /** A consumer is closed only by a cleanup whose Wait has returned, or by the regex call that
      created it and found its name taken. */
  predicate ClosesOk(s: State) {
    && (forall h | h in s.sh.reg.closes ::
          || s.sh.drained
          || h.kind == Produced
          || (h.kind == Regex && h.serial < |s.threads| && s.threads[h.serial].pc.Rejected?))
    && (forall i | 0 <= i < |s.threads| && Dispatching(s.threads[i].pc) ::
          s.threads[i].handle.Live? && s.threads[i].handle.handle !in s.sh.reg.closes)
  }

  // ---- Ownership of handles

  /** The places where `h` is, plus the ways in which it has gone. */
  function Tokens(s: State, h: Handle): nat {
    Placed(s.sh.reg, h) + Sum(s.threads, OwnsW(h))
  }

  predicate Created(s: State, h: Handle) {
    || h in s.sh.made
    || (h.kind == Regex && h.serial < |s.threads| && s.threads[h.serial].regex
        && s.threads[h.serial].handle == Live(h))
  }

  ghost predicate TokensOk(s: State) {
    && (forall h :: Tokens(s, h) == if Created(s, h) then 1 else 0)
    && (forall h | h in s.sh.made :: h.kind != Regex)
    && (forall g, h | g in s.sh.made && h in s.sh.made && g.kind == h.kind && g.name == h.name :: g == h)
    && (forall h | h in s.sh.reg.lost :: h.kind == Regex)
    && (forall h | h in s.sh.reg.unsubs :: h.kind != Produced)
  }

  // ---- Messages

  function InFlight(pc: PC): Option<Message> {
    if !pc.Looping? then None
    else match pc.loop
      case Got(m) => Some(m)
      case Cleared(m) => Some(m)
      case Handling(m) => Some(m)
      case Settling(m, _) => Some(m)
      case _ => None
  }

  /** Every message taken has been acked, nacked or dropped, or is the one in hand. */
  predicate Balanced(log: Log, inHand: Option<Message>) {
    multiset(log.got)
    == multiset(log.acked) + multiset(log.nacked) + multiset(log.dropped)
       + (if inHand.Some? then multiset{inHand.value} else multiset{})
  }

  predicate InHandler(pc: PC) { pc.Looping? && (pc.loop.Handling? || pc.loop.Settling?) }

  /** On the way out of a receive loop. */
  predicate Departing(pc: PC) {
    pc.Finished? || (pc.Looping? && (pc.loop.Exiting? || pc.loop.ExitDelete? || pc.loop.Leaving?))
  }

  /** One handler call for each Ack or Nack, plus the one running; at most one message dropped, and
      only by a loop that found the plugin closed and is on its way out. */
  predicate Tallied(sh: Shared, th: Thread) {
    var log := th.log;
    && log.calls == |log.acked| + |log.nacked| + (if InHandler(th.pc) then 1 else 0)
    && |log.dropped| <= 1
    && (log.dropped != [] ==> sh.reg.closed && Departing(th.pc))
  }

  predicate CountersOk(s: State) {
    s.sh.reg.received == Sum(s.threads, ReceivedW) && s.sh.reg.failed == Sum(s.threads, FailedW)
  }

  predicate MessagesOk(s: State) {
    && (forall i | 0 <= i < |s.threads| :: Balanced(s.threads[i].log, InFlight(s.threads[i].pc)))
    && (forall i | 0 <= i < |s.threads| :: Tallied(s.sh, s.threads[i]))
    && CountersOk(s)
  }

  ghost predicate Inv(s: State) {
    && LocksOk(s) && StagesOk(s) && ClientOk(s) && CountOk(s)
    && SubscriptionsOk(s) && MapsOk(s) && ThreadsOk(s) && ClosesOk(s)
    && TokensOk(s) && MessagesOk(s)
  }
}

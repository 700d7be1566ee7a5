/** The receive-loop registry and the shutdown protocol, as a step relation over an unbounded number
    of concurrent callers.

    A thread is one call of SubscribeWith, SubscribeWithRegex, Unsubscribe, Close, cleanupWithContext
    or one of the sending methods. A subscribe call that succeeds returns to its caller right after starting
    its receive goroutine, so the same thread entry goes on as that goroutine. Every mutex is held
    explicitly: one step acquires it, a later step does the section's work and releases it. A read
    of the state under a read lock (isClosed, getClient, the producer lookup of a sending call) is one
    step that needs no writer to hold the lock. */
module Protocol {
  import opened Registry

  /** SubscribeWith. */
  datatype SubscribePC =
    | SubCheck                  // about to call isClosed
    | SubLock                   // wants consumerMutex
    | SubInsert                 // holds consumerMutex

  /** SubscribeWithRegex. */
  datatype RegexPC =
    | RxCheck                   // about to call isClosed
    | RxClient                  // about to call getClient
    | RxDial                    // about to call the client library
    | RxLock                    // owns a new consumer, wants consumerMutex
    | RxInsert                  // holds consumerMutex
    | RxReject                  // duplicate: about to close its own consumer

  /** The end of both, and the receive loop. */
  datatype LoopPC =
    | Registered                // entry inserted, recvWG not yet incremented
    | Select
    | Got(msg: Message)         // message taken, about to call isClosed
    | Cleared(msg: Message)     // isClosed said no, about to call the handler
    | Handling(msg: Message)
    | Settling(msg: Message, ok: bool)  // handler returned, about to Ack or Nack
    | Exiting                   // deferred section wants consumerMutex
    | ExitDelete                // holds consumerMutex
    | Leaving                   // about to call recvWG.Done

  /** Unsubscribe and Close. */
  datatype TakePC =
    | UnsLock
    | UnsTake                   // holds consumerMutex
    | UnsCall                   // owns the consumer, about to call its Unsubscribe
    | ProLock
    | ProTake                   // holds producerMutex
    | ProCall                   // owns the producer, about to close it

  /** ProduceWith, and the other sending calls once they have chosen a producer name. */
  datatype SendPC =
    | SndRead(count: nat)       // about to look the producer up under the read lock
    | SndCall(left: nat)        // has a producer and `left` messages, about to call its Send

  /** cleanupWithContext. */
  datatype CleanupPC =
    | ClnStart
    | ClnMarkLock               // wants stateMutex
    | ClnMark                   // holds stateMutex, about to set closed
    | ClnDrainLock              // stopReceivers: wants consumerMutex
    | ClnDrain                  // holds consumerMutex
    | ClnCancel(loops: set<nat>)
    | ClnWait                   // recvWG.Wait
    | ClnConsLock               // closeAllResources: wants consumerMutex
    | ClnCons                   // holds consumerMutex, closes every consumer
    | ClnProdLock
    | ClnProd                   // holds producerMutex, closes every producer
    | ClnCliLock
    | ClnCli                    // holds stateMutex, closes the client
    | ClnDone

  datatype PC =
    | Subscribing(sub: SubscribePC)
    | Dialling(rx: RegexPC)
    | Looping(loop: LoopPC)
    | Taking(take: TakePC)
    | Sending(snd: SendPC)
    | Cleaning(cln: CleanupPC)
    | Finished                  // a receive loop that has called recvWG.Done
    | Returned                  // a call that ended without starting a loop
    | Rejected                  // a regex call that closed its own duplicate consumer

  /** What a receive loop has done to messages. */
  datatype Log = Log(
    calls: nat,                // handler calls started
    panics: nat,               // handler calls that panicked
    got: seq<Message>,         // messages taken from the channel
    acked: seq<Message>,
    nacked: seq<Message>,
    dropped: seq<Message>)     // taken, then abandoned because the plugin was closed

  const EMPTY_LOG := Log(0, 0, [], [], [], [])

  /** One call. `regex` is set for SubscribeWithRegex; `handle` is the broker handle it works with. */
  datatype Thread = Thread(regex: bool, name: string, pc: PC, handle: Slot, log: Log)

  datatype Shared = Shared(
    reg: Registry,
    consumerMutex: Option<nat>,
    producerMutex: Option<nat>,
    stateMutex: Option<nat>,
    drained: bool,             // some recvWG.Wait has returned
    made: set<Handle>)         // the handles startup created

  datatype State = State(threads: seq<Thread>, sh: Shared)

  /** What the scheduler and the environment decide in one step. Only RxDial, Select, Handling, SndCall
      and ClnStart have more than one way to go on; the other steps do not look at the choice. */
  datatype Choice =
    | Proceed
    | Fail                     // the client library or the context reports an error
    | SeeClose                 // select takes the close channel
    | SeeCancel                // select takes the loop's context
    | Deliver(msg: Message)    // select takes a message
    | ChanEnd                  // select finds the consumer channel closed
    | Handled(outcome: Outcome)

  datatype Step = Blocked | Moved(sh: Shared, th: Thread)

  // ---- consumer.go:23-52

  function SubscribeStep(sh: Shared, t: nat, th: Thread, at: SubscribePC, c: Choice): Step {
    match at
    case SubCheck =>
      if sh.stateMutex.Some? then Blocked
      else Moved(sh, th.(pc := if sh.reg.closed then Returned else Subscribing(SubLock)))
    case SubLock =>
      if sh.consumerMutex.Some? then Blocked
      else Moved(sh.(consumerMutex := Some(t)), th.(pc := Subscribing(SubInsert)))
    case SubInsert =>
      var (reg, answer) := RegisterNamed(sh.reg, th.name, t);
      var sh' := sh.(reg := reg, consumerMutex := None);
      (match answer
       case Accepted(h) => Moved(sh', th.(pc := Looping(Registered), handle := Live(h)))
       case _ => Moved(sh', th.(pc := Returned)))
  }

  // ---- consumer.go:90-124

  function RegexStep(sh: Shared, t: nat, th: Thread, at: RegexPC, c: Choice): Step {
    match at
    case RxCheck =>
      if sh.stateMutex.Some? then Blocked
      else Moved(sh, th.(pc := if sh.reg.closed then Returned else Dialling(RxClient)))
    case RxClient =>
      if sh.stateMutex.Some? then Blocked
      else Moved(sh, th.(pc := if sh.reg.clientOpen then Dialling(RxDial) else Returned))
    case RxDial =>
      if c.Fail? then Moved(sh, th.(pc := Returned))
      else Moved(sh, th.(pc := Dialling(RxLock), handle := Live(Handle(Regex, th.name, t))))
    case RxLock =>
      if sh.consumerMutex.Some? then Blocked
      else Moved(sh.(consumerMutex := Some(t)), th.(pc := Dialling(RxInsert)))
    case RxInsert =>
      if th.handle.Nil? then Blocked
      else
        var (reg, answer) := RegisterRegex(sh.reg, th.name, t, th.handle.handle);
        Moved(sh.(reg := reg, consumerMutex := None),
              th.(pc := if answer.Accepted? then Looping(Registered) else Dialling(RxReject)))
    case RxReject =>
      Moved(sh.(reg := sh.reg.(closes := sh.reg.closes + BagOf(th.handle),
                               cancelled := sh.reg.cancelled + {t})),
            th.(pc := Rejected))
  }

  // ---- consumer.go:54-84, 126-155, 191-237

  function LoopStep(sh: Shared, t: nat, th: Thread, at: LoopPC, c: Choice): Step {
    match at
    case Registered =>
      Moved(sh.(reg := sh.reg.(recvWG := sh.reg.recvWG + 1)), th.(pc := Looping(Select)))
    case Select =>
      (match c
       case SeeClose => if sh.reg.closeChan then Moved(sh, th.(pc := Looping(Exiting))) else Blocked
       case SeeCancel => if t in sh.reg.cancelled then Moved(sh, th.(pc := Looping(Exiting))) else Blocked
       case ChanEnd => Moved(sh, th.(pc := Looping(Exiting)))
       case Deliver(m) => Moved(sh, th.(pc := Looping(Got(m)), log := th.log.(got := th.log.got + [m])))
       case _ => Blocked)
    case Got(m) =>
      if sh.stateMutex.Some? then Blocked
      else if sh.reg.closed then Moved(sh, th.(pc := Looping(Exiting), log := th.log.(dropped := th.log.dropped + [m])))
      else Moved(sh, th.(pc := Looping(Cleared(m))))
    case Cleared(m) => Moved(sh, th.(pc := Looping(Handling(m)), log := th.log.(calls := th.log.calls + 1)))
    case Handling(m) =>
      if !c.Handled? then Blocked
      else
        var panic := if c.outcome.Panicked? then 1 else 0;
        Moved(sh.(reg := CountOutcome(sh.reg, c.outcome)),
              th.(pc := Looping(Settling(m, c.outcome.Good?)), log := th.log.(panics := th.log.panics + panic)))
    case Settling(m, ok) =>
      var log := if ok then th.log.(acked := th.log.acked + [m]) else th.log.(nacked := th.log.nacked + [m]);
      Moved(sh, th.(pc := Looping(Select), log := log))
    case Exiting =>
      if sh.consumerMutex.Some? then Blocked
      else Moved(sh.(consumerMutex := Some(t)), th.(pc := Looping(ExitDelete)))
    case ExitDelete =>
      var reg := if th.regex then ExitRegex(sh.reg, th.name) else ExitNamed(sh.reg, th.name);
      Moved(sh.(reg := reg, consumerMutex := None), th.(pc := Looping(Leaving)))
    case Leaving =>
      Moved(sh.(reg := sh.reg.(recvWG := sh.reg.recvWG - 1, cancelled := sh.reg.cancelled + {t})),
            th.(pc := Finished))
  }

  // ---- consumer.go:175-187 and producer.go:133-145

  function TakeStep(sh: Shared, t: nat, th: Thread, at: TakePC, c: Choice): Step {
    match at
    case UnsLock =>
      if sh.consumerMutex.Some? then Blocked
      else Moved(sh.(consumerMutex := Some(t)), th.(pc := Taking(UnsTake)))
    case UnsTake =>
      var (reg, slot) := TakeConsumer(sh.reg, th.name);
      Moved(sh.(reg := reg, consumerMutex := None),
            th.(pc := if slot.Live? then Taking(UnsCall) else Returned, handle := slot))
    case UnsCall =>
      Moved(sh.(reg := sh.reg.(unsubs := sh.reg.unsubs + BagOf(th.handle))), th.(pc := Returned))
    case ProLock =>
      if sh.producerMutex.Some? then Blocked
      else Moved(sh.(producerMutex := Some(t)), th.(pc := Taking(ProTake)))
    case ProTake =>
      var (reg, slot) := TakeProducer(sh.reg, th.name);
      Moved(sh.(reg := reg, producerMutex := None),
            th.(pc := if slot.Live? then Taking(ProCall) else Returned, handle := slot))
    case ProCall =>
      Moved(sh.(reg := sh.reg.(closes := sh.reg.closes + BagOf(th.handle))), th.(pc := Returned))
  }

  // ---- producer.go:73-115

  function SendStep(sh: Shared, t: nat, th: Thread, at: SendPC, c: Choice): Step {
    match at
    case SndRead(count) =>
      if sh.producerMutex.Some? then Blocked
      else
        var slot := SlotAt(sh.reg.producers, th.name);
        Moved(sh, th.(pc := if slot.Live? && count > 0 then Sending(SndCall(count)) else Returned, handle := slot))
    case SndCall(left) =>
      Moved(sh, th.(pc := if c.Fail? || left <= 1 then Returned else Sending(SndCall(left - 1))))
  }

  // ---- pulsar.go:566-597, 186-233

  function CleanupStep(sh: Shared, t: nat, th: Thread, at: CleanupPC, c: Choice): Step {
    match at
    case ClnStart =>
      if c.Fail? then Moved(sh, th.(pc := Returned))
      else Moved(sh.(reg := sh.reg.(closeChan := true)), th.(pc := Cleaning(ClnMarkLock)))
    case ClnMarkLock =>
      if sh.stateMutex.Some? then Blocked
      else Moved(sh.(stateMutex := Some(t)), th.(pc := Cleaning(ClnMark)))
    case ClnMark =>
      Moved(sh.(reg := sh.reg.(closed := true), stateMutex := None), th.(pc := Cleaning(ClnDrainLock)))
    case ClnDrainLock =>
      if sh.consumerMutex.Some? then Blocked
      else Moved(sh.(consumerMutex := Some(t)), th.(pc := Cleaning(ClnDrain)))
    case ClnDrain =>
      var (reg, loops) := DrainSubscriptions(sh.reg);
      Moved(sh.(reg := reg, consumerMutex := None), th.(pc := Cleaning(ClnCancel(loops))))
    case ClnCancel(loops) =>
      Moved(sh.(reg := sh.reg.(cancelled := sh.reg.cancelled + loops)), th.(pc := Cleaning(ClnWait)))
    case ClnWait =>
      if sh.reg.recvWG != 0 then Blocked
      else Moved(sh.(drained := true), th.(pc := Cleaning(ClnConsLock)))
    case ClnConsLock =>
      if sh.consumerMutex.Some? then Blocked
      else Moved(sh.(consumerMutex := Some(t)), th.(pc := Cleaning(ClnCons)))
    case ClnCons =>
      Moved(sh.(reg := CloseConsumers(sh.reg), consumerMutex := None), th.(pc := Cleaning(ClnProdLock)))
    case ClnProdLock =>
      if sh.producerMutex.Some? then Blocked
      else Moved(sh.(producerMutex := Some(t)), th.(pc := Cleaning(ClnProd)))
    case ClnProd =>
      Moved(sh.(reg := CloseProducers(sh.reg), producerMutex := None), th.(pc := Cleaning(ClnCliLock)))
    case ClnCliLock =>
      if sh.stateMutex.Some? then Blocked
      else Moved(sh.(stateMutex := Some(t)), th.(pc := Cleaning(ClnCli)))
    case ClnCli =>
      Moved(sh.(reg := CloseClient(sh.reg), stateMutex := None), th.(pc := Cleaning(ClnDone)))
    case ClnDone => Blocked
  }

  /** One step of thread `t`: it sees and changes the shared data and its own entry only. */
  function ThreadStep(sh: Shared, t: nat, th: Thread, c: Choice): Step {
    match th.pc
    case Subscribing(at) => SubscribeStep(sh, t, th, at, c)
    case Dialling(at) => RegexStep(sh, t, th, at, c)
    case Looping(at) => LoopStep(sh, t, th, at, c)
    case Taking(at) => TakeStep(sh, t, th, at, c)
    case Sending(at) => SendStep(sh, t, th, at, c)
    case Cleaning(at) => CleanupStep(sh, t, th, at, c)
    case Finished | Returned | Rejected => Blocked
  }

  /** The public calls. */
  datatype Call =
    | SubscribeWith(name: string)
    | SubscribeWithRegex(pattern: string)
    | Unsubscribe(name: string)
    | Close(name: string)
    | Send(name: string, count: nat)   // `count` messages in order, until the first error
    | Cleanup

  function NewThread(call: Call): Thread {
    var blank := Thread(false, "", Returned, Nil, EMPTY_LOG);
    match call
    case SubscribeWith(name) => blank.(name := name, pc := Subscribing(SubCheck))
    case SubscribeWithRegex(pattern) => blank.(regex := true, name := RegexName(pattern), pc := Dialling(RxCheck))
    case Unsubscribe(name) => blank.(name := name, pc := Taking(UnsLock))
    case Close(name) => blank.(name := name, pc := Taking(ProLock))
    case Send(name, count) => blank.(name := name, pc := Sending(SndRead(count)))
    case Cleanup => blank.(pc := Cleaning(ClnStart))
  }

  datatype Action =
    | Start(call: Call)              // a caller arrives
    | Move(thread: nat, choice: Choice)
    | CancelCaller(thread: nat)      // the context a caller passed to subscribe is cancelled

  function Next(s: State, a: Action): Option<State> {
    match a
    case Start(call) => Some(s.(threads := s.threads + [NewThread(call)]))
    case CancelCaller(t) =>
      if t < |s.threads| then Some(s.(sh := s.sh.(reg := s.sh.reg.(cancelled := s.sh.reg.cancelled + {t}))))
      else None
    case Move(t, c) =>
      if t >= |s.threads| then None
      else match ThreadStep(s.sh, t, s.threads[t], c)
           case Blocked => None
           case Moved(sh, th) => Some(State(s.threads[t := th], sh))
  }

  /** The state after the actions `run`, or None if one of them is not possible. */
  function Exec(s: State, run: seq<Action>): Option<State>
    decreases |run|
  {
    if run == [] then Some(s)
    else match Next(s, run[0])
         case None => None
         case Some(s1) => Exec(s1, run[1..])
  }

  /** The data a successful startup leaves: no loops yet, every handle in its map under its own
      name, and no configured consumer with a name that a regex subscription could take. */
  predicate Started(r: Registry, made: set<Handle>) {
    && r.subscriptions == map[] && r.clientOpen && !r.closed && !r.closeChan
    && r.recvWG == 0 && r.cancelled == {} && r.received == 0 && r.failed == 0
    && r.closes == multiset{} && r.unsubs == multiset{} && r.lost == multiset{} && r.clientCloses == 0
    && Homed(r.consumers) && Homed(r.producers)
    && (forall n | n in r.consumers :: !IsRegexName(n))
    && (forall h | h in LiveHandles(r.consumers) :: h.kind == Configured)
    && (forall h | h in LiveHandles(r.producers) :: h.kind == Produced)
    && made == LiveHandles(r.consumers) + LiveHandles(r.producers)
  }

  predicate Init(s: State) {
    && s.threads == []
    && Started(s.sh.reg, s.sh.made)
    && s.sh.consumerMutex == None && s.sh.producerMutex == None && s.sh.stateMutex == None
    && !s.sh.drained
  }
}

/** The data a Pulsar plugin instance shares between its callers, and what each of its critical
    sections does to that data.

    Every function below is the meaning of one critical section of the plugin. The class in
    `Client.dfy` performs the same sections by assignments and loops and is proved equal to these
    functions; the step relation in `Protocol.dfy` is built from the same functions. */
module Registry {

  datatype Option<+T> = None | Some(value: T)

  /** Where a broker handle comes from: a configured consumer, an ad-hoc regex consumer, or a
      configured producer. */
  datatype Kind = Configured | Regex | Produced

  /** The identity of one object returned by the client library. `serial` separates two objects
      that were created under one name. */
  datatype Handle = Handle(kind: Kind, name: string, serial: nat)

  /** A map value of interface type: either nil or a handle. */
  datatype Slot = Nil | Live(handle: Handle)

  datatype Registry = Registry(
    consumers: map<string, Slot>,
    producers: map<string, Slot>,
    subscriptions: map<string, nat>,   // name -> the loop whose cancel function is stored
    clientOpen: bool,                  // the client field is non-nil
    closed: bool,
    closeChan: bool,                   // the close channel has been closed
    recvWG: int,
    cancelled: set<nat>,               // loops whose context is done
    received: nat,                     // the consumerReceived counter
    failed: nat,                       // the consumerFailed counter
    // What has been done to the handles so far.
    closes: multiset<Handle>,          // Close calls
    unsubs: multiset<Handle>,          // Unsubscribe calls
    lost: multiset<Handle>,            // removed from the map with neither call
    clientCloses: nat)

  /** How the registry section of a subscribe call ends. */
  datatype Answer = NotFound | Duplicate | Accepted(handle: Handle)

  type Message = nat

  /** How a message handler ends. */
  datatype Outcome = Good | Failed | Panicked

  /** A message that a loop has taken from `consumer`, and how its handler will end. */
  datatype Job = Job(consumer: Handle, msg: Message, outcome: Outcome)

  /** A counted receive loop that leaves while a cleanup waits for it, after the job it may have in hand. */
  datatype Leaver = Leaver(regex: bool, name: string, loop: nat, busy: Option<Job>)

  function SlotAt(m: map<string, Slot>, name: string): Slot {
    if name in m then m[name] else Nil
  }

  function BagOf(slot: Slot): multiset<Handle> {
    match slot
    case Nil => multiset{}
    case Live(h) => multiset{h}
  }

  /** The handles held by a map of slots. */
  function LiveHandles(m: map<string, Slot>): set<Handle> {
    set name | name in m && m[name].Live? :: m[name].handle
  }

  /** Every handle sits under the name it was created for, so no handle sits in two places. */
  predicate Homed(m: map<string, Slot>) {
    forall name | name in m && m[name].Live? :: m[name].handle.name == name
  }

  predicate InMap(r: Registry, h: Handle) {
    if h.kind == Produced then SlotAt(r.producers, h.name) == Live(h)
    else SlotAt(r.consumers, h.name) == Live(h)
  }

  /** How often `h` is in a map or has left one for good. */
  function Placed(r: Registry, h: Handle): nat {
    (if InMap(r, h) then 1 else 0) + r.closes[h] + r.unsubs[h] + r.lost[h]
  }

  /** Every handle sits in the map for its kind, under its own name. */
  predicate Shelved(r: Registry) {
    && Homed(r.consumers) && Homed(r.producers)
    && (forall n | n in r.consumers && r.consumers[n].Live? :: r.consumers[n].handle.kind != Produced)
    && (forall n | n in r.producers && r.producers[n].Live? :: r.producers[n].handle.kind == Produced)
  }

  /** And a name that a regex call can take never holds a configured consumer. */
  predicate Kinds(r: Registry) {
    && Shelved(r)
    && (forall n | n in r.consumers && r.consumers[n].Live? && r.consumers[n].handle.kind == Configured :: !IsRegexName(n))
  }

  function RegexName(pattern: string): string { "regex:" + pattern }

  predicate IsRegexName(name: string) { |name| >= 6 && name[..6] == "regex:" }

  // ---- consumer.go: the registry section of SubscribeWith

  function RegisterNamed(r: Registry, name: string, loop: nat): (Registry, Answer) {
    if name !in r.consumers || r.consumers[name].Nil? then (r, NotFound)
    else if name in r.subscriptions then (r, Duplicate)
    else (r.(subscriptions := r.subscriptions[name := loop]), Accepted(r.consumers[name].handle))
  }

  // ---- consumer.go: the registry section of SubscribeWithRegex

  function RegisterRegex(r: Registry, name: string, loop: nat, h: Handle): (Registry, Answer) {
    if name in r.subscriptions then (r, Duplicate)
    else
      (r.(consumers := r.consumers[name := Live(h)],
          subscriptions := r.subscriptions[name := loop],
          lost := r.lost + BagOf(SlotAt(r.consumers, name))),
       Accepted(h))
  }

  // ---- consumer.go: the deferred sections of the two receive loops

  function ExitNamed(r: Registry, name: string): Registry {
    r.(subscriptions := r.subscriptions - {name})
  }

  function ExitRegex(r: Registry, name: string): Registry {
    r.(consumers := r.consumers - {name},
       subscriptions := r.subscriptions - {name},
       lost := r.lost + BagOf(SlotAt(r.consumers, name)))
  }

  function Exit(r: Registry, regex: bool, name: string): Registry {
    if regex then ExitRegex(r, name) else ExitNamed(r, name)
  }

  // ---- consumer.go and producer.go: the map sections of Unsubscribe and Close

  function TakeConsumer(r: Registry, name: string): (Registry, Slot) {
    (r.(consumers := r.consumers - {name}), SlotAt(r.consumers, name))
  }

  function TakeProducer(r: Registry, name: string): (Registry, Slot) {
    (r.(producers := r.producers - {name}), SlotAt(r.producers, name))
  }

  /** A whole Unsubscribe call. */
  function Unsubscribed(r: Registry, name: string): Registry {
    var (taken, slot) := TakeConsumer(r, name);
    taken.(unsubs := taken.unsubs + BagOf(slot))
  }

  /** A whole Close call. */
  function ProducerClosed(r: Registry, name: string): Registry {
    var (taken, slot) := TakeProducer(r, name);
    taken.(closes := taken.closes + BagOf(slot))
  }

  // ---- pulsar.go: stopReceivers, closeAllResources, cleanupWithContext

  function DrainSubscriptions(r: Registry): (Registry, set<nat>) {
    (r.(subscriptions := map[]), r.subscriptions.Values)
  }

  function CloseConsumers(r: Registry): Registry {
    r.(consumers := map[], closes := r.closes + multiset(LiveHandles(r.consumers)))
  }

  function CloseProducers(r: Registry): Registry {
    r.(producers := map[], closes := r.closes + multiset(LiveHandles(r.producers)))
  }

  function CloseClient(r: Registry): Registry {
    if r.clientOpen then r.(clientOpen := false, clientCloses := r.clientCloses + 1) else r
  }

  // ---- consumer.go: the counters of invokeHandler

  /** A panic is counted twice: once where it is recovered and once as the error it becomes. */
  function CountOutcome(r: Registry, o: Outcome): Registry {
    match o
    case Good => r.(received := r.received + 1)
    case Failed => r.(failed := r.failed + 1)
    case Panicked => r.(failed := r.failed + 2)
  }

  // ---- pulsar.go: whole cleanups

  /** Both flags are set. */
  function Marked(r: Registry): Registry { r.(closeChan := true, closed := true) }

  /** stopReceivers before its Wait: the registry is emptied and every loop in it is told to stop. */
  function Drained(r: Registry): Registry {
    var (drained, loops) := DrainSubscriptions(r);
    drained.(cancelled := drained.cancelled + loops)
  }

  /** The counters after the job in hand, if there is one. */
  function FinishJob(r: Registry, busy: Option<Job>): Registry {
    if busy.Some? then CountOutcome(r, busy.value.outcome) else r
  }

  /** The deferred cancel and recvWG.Done of a loop. */
  function SignOff(r: Registry, loop: nat): Registry {
    r.(recvWG := r.recvWG - 1, cancelled := r.cancelled + {loop})
  }

  /** One counted loop finishes the job in hand and leaves. */
  function LeaveOne(r: Registry, l: Leaver): Registry {
    SignOff(Exit(FinishJob(r, l.busy), l.regex, l.name), l.loop)
  }

  function LeaveAll(r: Registry, leaving: seq<Leaver>): Registry {
    if leaving == [] then r
    else LeaveOne(LeaveAll(r, leaving[..|leaving| - 1]), leaving[|leaving| - 1])
  }

  /** closeAllResources, when the loops `leaving` are the ones that its Wait waits for. */
  function TearDown(r: Registry, leaving: seq<Leaver>): Registry {
    CloseClient(CloseProducers(CloseConsumers(LeaveAll(Drained(r), leaving))))
  }

  /** cleanupWithContext. */
  function CleanedUp(r: Registry, leaving: seq<Leaver>): Registry { TearDown(Marked(r), leaving) }
}

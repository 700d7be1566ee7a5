/** The plugin object. Each method does one critical section of the plugin by assignments and loops and
    is proved equal to the function of `Registry.dfy` that the protocol steps are built from. The receive
    loop, the subscribe calls, startup, rollback and cleanup are sequences of these sections. */
module Client {
  import opened Registry
  import opened Meaning
  import opened Made
  import opened Receiving
  import Sections = Registry

  /** The outcomes that startup gets from its context, the client library and the runtime. The numbers
      count the calls: `producerErr(i)` is the outcome of the i-th CreateProducer. */
  datatype Env = Env(
    cancelledAtStart: bool,
    clientErr: bool,
    cancelledAfterClient: bool,
    producerErr: nat -> bool,
    cancelledAfterProducers: bool,
    consumerErr: nat -> bool,
    registerErr: bool)

  datatype StartResult = Ready | RolledBack | NotRegistered | NeverStarted

  /** `k` is the number of the first call among `n` that fails, or `n` if none does. */
  predicate FirstError(err: nat -> bool, n: nat, k: nat) {
    k <= n && (forall j | 0 <= j < k :: !err(j)) && (k < n ==> err(k))
  }

  /** What a startup of `n` producers and `m` consumers answers, and how many of each it has created: it ends at
      the first thing that goes wrong. */
  predicate StartAnswer(env: Env, n: nat, m: nat, r: StartResult, p: nat, c: nat) {
    if env.cancelledAtStart || env.clientErr then r.NeverStarted? && p == 0 && c == 0
    else if env.cancelledAfterClient then r.RolledBack? && p == 0 && c == 0
    else
      && FirstError(env.producerErr, n, p)
      && if p < n || env.cancelledAfterProducers then r.RolledBack? && c == 0 else ConsumersAnswer(env, m, r, c)
  }

  predicate ConsumersAnswer(env: Env, m: nat, r: StartResult, c: nat) {
    && FirstError(env.consumerErr, m, c)
    && r == if c < m then RolledBack else if env.registerErr then NotRegistered else Ready
  }

  /** Nothing goes wrong in a startup of `n` producers and `m` consumers. */
  predicate Smooth(env: Env, n: nat, m: nat) {
    && !env.cancelledAtStart && !env.clientErr && !env.cancelledAfterClient && !env.cancelledAfterProducers
    && (forall j | 0 <= j < n :: !env.producerErr(j)) && (forall j | 0 <= j < m :: !env.consumerErr(j))
    && !env.registerErr
  }

  datatype SubscribeResult =
    | ShuttingDown
    | NoClient
    | DialFailed
    | Refused(answer: Answer)
    | InSelect                 // subscribed, and the loop waits for what comes after `picks`
    | LoopGone                 // subscribed, and the loop has come and gone

  function Elements(s: seq<nat>): set<nat> { set x | x in s }

  class PulsarClient {
    var consumers: map<string, Slot>
    var producers: map<string, Slot>
    var subscriptions: map<string, nat>
    var clientOpen: bool
    var closed: bool
    var closeChan: bool
    var recvWG: int
    var cancelled: set<nat>
    var received: nat
    var failed: nat
    ghost var acks: seq<Job>     // Ack calls, in order
    ghost var nacks: seq<Job>    // Nack calls, in order
    ghost var closes: multiset<Handle>
    ghost var unsubs: multiset<Handle>
    ghost var lost: multiset<Handle>
    ghost var clientCloses: nat
    var made: seq<Handle>        // every handle the library has returned to startup, in order

    ghost function View(): Registry
      reads this
    {
      Registry(consumers, producers, subscriptions, clientOpen, closed, closeChan, recvWG, cancelled,
               received, failed, closes, unsubs, lost, clientCloses)
    }

    constructor ()
      ensures View() == Registry(map[], map[], map[], false, false, false, 0, {}, 0, 0,
                                 multiset{}, multiset{}, multiset{}, 0)
      ensures made == [] && acks == [] && nacks == []
    {
      consumers, producers, subscriptions := map[], map[], map[];
      clientOpen, closed, closeChan := false, false, false;
      recvWG, cancelled, received, failed := 0, {}, 0, 0;
      closes, unsubs, lost, clientCloses := multiset{}, multiset{}, multiset{}, 0;
      made, acks, nacks := [], [], [];
    }

    // ---- consumer.go: registry sections

    method RegisterNamed(name: string, loop: nat) returns (answer: Answer)
      modifies this`subscriptions
      ensures NamedMeaning(old(View()), View(), name, loop, answer)
      ensures (View(), answer) == Sections.RegisterNamed(old(View()), name, loop)
    {
      RegisterNamedMeans(View(), name, loop);
      if name !in consumers || consumers[name].Nil? {
        return NotFound;
      }
      if name in subscriptions {
        return Duplicate;
      }
      subscriptions := subscriptions[name := loop];
      return Accepted(consumers[name].handle);
    }

    method RegisterRegex(name: string, loop: nat, h: Handle) returns (answer: Answer)
      requires Shelved(View()) && h.kind == Regex && h.name == name
      modifies this`consumers, this`subscriptions, this`lost
      ensures RegexMeaning(old(View()), View(), name, loop, h, answer)
      ensures (View(), answer) == Sections.RegisterRegex(old(View()), name, loop, h)
    {
      RegisterRegexMeans(View(), name, loop, h);
      if name in subscriptions {
        return Duplicate;
      }
      lost := lost + BagOf(SlotAt(consumers, name));
      consumers := consumers[name := Live(h)];
      subscriptions := subscriptions[name := loop];
      return Accepted(h);
    }

    /** The deferred section of a loop; `Meaning.ExitMeans` says what it means. */
    method ExitLoop(regex: bool, name: string)
      modifies this`consumers, this`subscriptions, this`lost
      ensures View() == Exit(old(View()), regex, name)
    {
      if regex {
        lost := lost + BagOf(SlotAt(consumers, name));
        consumers := consumers - {name};
      }
      if name in subscriptions {
        subscriptions := subscriptions - {name};
      } else {
        assert subscriptions - {name} == subscriptions;
      }
    }

    method Unsubscribe(name: string)
      requires Shelved(View())
      modifies this`consumers, this`unsubs
      ensures UnsubscribeMeaning(old(View()), View(), name)
    {
      UnsubscribeMeans(View(), name);
      var slot := if name in consumers then consumers[name] else Nil;
      if name in consumers {
        consumers := consumers - {name};
      } else {
        assert consumers - {name} == consumers;
      }
      if slot.Live? {
        unsubs := unsubs + multiset{slot.handle};
      }
      assert View() == Unsubscribed(old(View()), name);
    }

    method CloseProducer(name: string)
      requires Shelved(View())
      modifies this`producers, this`closes
      ensures CloseMeaning(old(View()), View(), name)
    {
      CloseMeans(View(), name);
      var slot := if name in producers then producers[name] else Nil;
      if name in producers {
        producers := producers - {name};
      } else {
        assert producers - {name} == producers;
      }
      if slot.Live? {
        closes := closes + multiset{slot.handle};
      }
      assert View() == ProducerClosed(old(View()), name);
    }

    // ---- consumer.go: dispatch

    /** Runs the handler, whose outcome is `o`, with panic recovery and the two counters. */
    method InvokeHandler(o: Outcome) returns (err: bool)
      modifies this`received, this`failed
      ensures View() == CountOutcome(old(View()), o)
      ensures err <==> !o.Good?
    {
      err := o.Failed?;
      if o.Panicked? {
        failed := failed + 1;
        err := true;
      }
      if err {
        failed := failed + 1;
        return;
      }
      received := received + 1;
    }

    ghost function Done(): Tally
      reads this
    {
      Tally(acks, nacks, received, failed)
    }

    /** Settles the job in exactly one way: an Ack of this message on this consumer after success, a Nack of
        it after an error or a panic. */
    method DispatchMessage(job: Job)
      modifies this`received, this`failed, this`acks, this`nacks
      ensures View() == CountOutcome(old(View()), job.outcome)
      ensures Settled(old(Done()), Done(), job)
    {
      var err := InvokeHandler(job.outcome);
      if err {
        nacks := nacks + [job];
        return;
      }
      acks := acks + [job];
    }

    /** The receive loop on `consumer`, for what its selects pick. It works through the messages before the
        first other pick, in order and each once; when the plugin is closed it drops the first message and
        ends. `used` counts the messages it has worked through. */
    method ReceiveLoop(consumer: Handle, picks: seq<Pick>) returns (ended: bool, ghost used: nat)
      modifies this`received, this`failed, this`acks, this`nacks
      ensures used <= |picks| && forall i | 0 <= i < used :: picks[i].Picked?
      ensures ended <==> used < |picks|
      ensures ended ==> closed || !picks[used].Picked?
      ensures closed ==> used == 0
      ensures WorkedThrough(old(Done()), Done(), consumer, picks[..used])
    {
      var i := 0;
      while i < |picks|
        invariant 0 <= i <= |picks| && (forall k | 0 <= k < i :: picks[k].Picked?) && (closed ==> i == 0)
        invariant WorkedThrough(old(Done()), Done(), consumer, picks[..i])
      {
        if !picks[i].Picked? {
          return true, i;
        }
        if closed {
          return true, i;
        }
        ghost var mid := Done();
        DispatchMessage(Job(consumer, picks[i].msg, picks[i].outcome));
        WorkStep(old(Done()), mid, Done(), consumer, picks, i);
        i := i + 1;
      }
      return false, i;
    }

    /** The deferred calls of a loop: its section, its cancel and recvWG.Done. */
    method EndLoop(regex: bool, name: string, loop: nat)
      modifies this`consumers, this`subscriptions, this`lost, this`recvWG, this`cancelled
      ensures View() == SignOff(Exit(old(View()), regex, name), loop)
    {
      ExitLoop(regex, name);
      cancelled := cancelled + {loop};
      recvWG := recvWG - 1;
    }

    /** The goroutine that a subscribe call starts, with the recvWG.Add before it. It ends with its deferred
        sections, or waits in its select for what comes after `picks`. */
    method RunReceiver(regex: bool, name: string, loop: nat, consumer: Handle, picks: seq<Pick>)
      returns (ended: bool, ghost used: nat)
      modifies this`consumers, this`subscriptions, this`lost, this`recvWG, this`cancelled,
               this`received, this`failed, this`acks, this`nacks
      ensures used <= |picks| && (ended <==> used < |picks|)
      ensures WorkedThrough(old(Done()), Done(), consumer, picks[..used])
      ensures ended ==> HasRun(old(View()), View(), regex, name, loop)
      ensures !ended ==> View() == old(View()).(recvWG := old(recvWG) + 1, received := received, failed := failed)
    {
      recvWG := recvWG + 1;
      ended, used := ReceiveLoop(consumer, picks);
      if ended {
        ghost var worked := View();
        EndLoop(regex, name, loop);
        LoopsExit(old(View()), worked, View(), regex, name, loop);
      }
    }

    /** SubscribeWith and its loop, when nobody else touches the plugin in the meantime. A call that is turned
        away changes nothing. A loop that has come and gone leaves the registry and the maps as they were. */
    method SubscribeWith(name: string, loop: nat, picks: seq<Pick>) returns (r: SubscribeResult, ghost used: nat)
      modifies this`subscriptions, this`consumers, this`lost, this`recvWG, this`cancelled,
               this`received, this`failed, this`acks, this`nacks
      ensures r.ShuttingDown? <==> closed
      ensures r.Refused? <==> !closed && (SlotAt(old(consumers), name).Nil? || name in old(subscriptions))
      ensures r.ShuttingDown? || r.Refused? ==> View() == old(View()) && Done() == old(Done())
      ensures r.InSelect? || r.LoopGone? ==>
                && used <= |picks| && (r.LoopGone? <==> used < |picks|) && SlotAt(old(consumers), name).Live?
                && WorkedThrough(old(Done()), Done(), SlotAt(old(consumers), name).handle, picks[..used])
      ensures r.InSelect? ==>
                View() == old(View()).(subscriptions := old(subscriptions)[name := loop], recvWG := old(recvWG) + 1,
                                       received := received, failed := failed)
      ensures r.LoopGone? ==>
                View() == old(View()).(cancelled := old(cancelled) + {loop}, received := received, failed := failed)
      ensures !r.NoClient? && !r.DialFailed?
    {
      used := 0;
      if closed {
        return ShuttingDown, 0;
      }
      RegisterNamedMeans(View(), name, loop);
      var answer := RegisterNamed(name, loop);
      if !answer.Accepted? {
        return Refused(answer), 0;
      }
      var ended;
      ended, used := RunReceiver(false, name, loop, answer.handle, picks);
      r := if ended then LoopGone else InSelect;
    }

    /** SubscribeWithRegex and its loop, in the same setting, with `h` as the consumer that the library returns.
        A consumer that finds its name taken is closed at once. One whose loop has come and gone is in no map
        and has been neither closed nor unsubscribed. No other handle is forgotten. */
    method SubscribeWithRegex(pattern: string, loop: nat, h: Handle, dialErr: bool, picks: seq<Pick>)
      returns (r: SubscribeResult, ghost used: nat)
      requires Shelved(View()) && h.kind == Regex && h.name == RegexName(pattern) && Placed(View(), h) == 0
      modifies this`subscriptions, this`consumers, this`lost, this`closes, this`recvWG, this`cancelled,
               this`received, this`failed, this`acks, this`nacks
      ensures r.ShuttingDown? <==> closed
      ensures r.NoClient? <==> !closed && !clientOpen
      ensures r.DialFailed? <==> !closed && clientOpen && dialErr
      ensures r.Refused? <==> !closed && clientOpen && !dialErr && h.name in old(subscriptions)
      ensures r.ShuttingDown? || r.NoClient? || r.DialFailed? ==> View() == old(View())
      ensures r.Refused? ==>
                View() == old(View()).(closes := old(closes) + multiset{h}, cancelled := old(cancelled) + {loop})
      ensures r.InSelect? || r.LoopGone? ==>
                && used <= |picks| && (r.LoopGone? <==> used < |picks|)
                && WorkedThrough(old(Done()), Done(), h, picks[..used])
      ensures !r.InSelect? && !r.LoopGone? ==> Done() == old(Done())
      ensures r.InSelect? ==> RegexStays(old(View()), View(), loop, h) && recvWG == old(recvWG) + 1
      ensures r.LoopGone? ==> RegexGone(old(View()), View(), h) && cancelled == old(cancelled) + {loop}
    {
      used := 0;
      if closed {
        return ShuttingDown, 0;
      }
      if !clientOpen {
        return NoClient, 0;
      }
      if dialErr {
        return DialFailed, 0;
      }
      r, used := AddRegex(loop, h, picks);
    }

    /** A regex call that finds its name taken: it cancels its context and closes its own consumer. */
    method CloseDuplicate(loop: nat, h: Handle)
      modifies this`closes, this`cancelled
      ensures View() == old(View()).(closes := old(closes) + multiset{h}, cancelled := old(cancelled) + {loop})
    {
      cancelled := cancelled + {loop};
      closes := closes + multiset{h};
    }

    /** The rest of a regex call that owns the consumer `h`. */
    method AddRegex(loop: nat, h: Handle, picks: seq<Pick>) returns (r: SubscribeResult, ghost used: nat)
      requires Shelved(View()) && h.kind == Regex && Placed(View(), h) == 0
      modifies this`subscriptions, this`consumers, this`lost, this`closes, this`recvWG, this`cancelled,
               this`received, this`failed, this`acks, this`nacks
      ensures r.Refused? || r.InSelect? || r.LoopGone?
      ensures r.Refused? <==> h.name in old(subscriptions)
      ensures r.Refused? ==>
                && View() == old(View()).(closes := old(closes) + multiset{h}, cancelled := old(cancelled) + {loop})
                && Done() == old(Done())
      ensures !r.Refused? ==>
                && used <= |picks| && (r.LoopGone? <==> used < |picks|)
                && WorkedThrough(old(Done()), Done(), h, picks[..used])
      ensures r.InSelect? ==> RegexStays(old(View()), View(), loop, h) && recvWG == old(recvWG) + 1
      ensures r.LoopGone? ==> RegexGone(old(View()), View(), h) && cancelled == old(cancelled) + {loop}
    {
      ghost var before := View();
      var answer := RegisterRegex(h.name, loop, h);
      if !answer.Accepted? {
        CloseDuplicate(loop, h);
        return Refused(answer), 0;
      }
      assert recvWG == before.recvWG && cancelled == before.cancelled;
      var ended;
      ended, used := RunRegexReceiver(before, loop, h, picks);
      r := if ended then LoopGone else InSelect;
    }

    /** The goroutine of a regex call that has just inserted `h` into `before`. */
    method RunRegexReceiver(ghost before: Registry, loop: nat, h: Handle, picks: seq<Pick>)
      returns (ended: bool, ghost used: nat)
      requires Shelved(before) && h.kind == Regex && Placed(before, h) == 0
      requires RegexMeaning(before, View(), h.name, loop, h, Accepted(h)) && recvWG == before.recvWG
      modifies this`subscriptions, this`consumers, this`lost, this`recvWG, this`cancelled,
               this`received, this`failed, this`acks, this`nacks
      ensures used <= |picks| && (ended <==> used < |picks|)
      ensures WorkedThrough(old(Done()), Done(), h, picks[..used])
      ensures !ended ==> RegexStays(before, View(), loop, h) && recvWG == before.recvWG + 1
      ensures ended ==> RegexGone(before, View(), h) && cancelled == old(cancelled) + {loop}
    {
      ghost var inserted := View();
      ended, used := RunReceiver(true, h.name, loop, h, picks);
      if ended {
        RegexGoneMeans(before, inserted, View(), loop, h);
      } else {
        RegexStaysMeans(before, inserted, View(), loop, h);
      }
    }

    // ---- pulsar.go: stopReceivers and closeAllResources

    method TakeCancels() returns (cancels: seq<nat>)
      modifies this`subscriptions
      ensures View() == DrainSubscriptions(old(View())).0
      ensures Elements(cancels) == DrainSubscriptions(old(View())).1
      ensures |cancels| == |old(subscriptions)|
    {
      cancels := [];
      ghost var gone: set<string> := {};
      while subscriptions != map[]
        invariant subscriptions.Keys == old(subscriptions).Keys - gone && gone <= old(subscriptions).Keys
        invariant forall n | n in subscriptions :: subscriptions[n] == old(subscriptions)[n]
        invariant forall c :: c in cancels <==> exists n :: n in gone && old(subscriptions)[n] == c
        invariant |cancels| == |gone|
        decreases |subscriptions|
      {
        assert subscriptions.Keys != {};
        var name :| name in subscriptions;
        cancels := cancels + [subscriptions[name]];
        gone := gone + {name};
        assert subscriptions == (subscriptions - {name})[name := subscriptions[name]];
        subscriptions := subscriptions - {name};
      }
      assert gone == old(subscriptions).Keys;
    }

    /** One counted loop settles the job in hand, if it has one, and leaves. */
    method Leave(l: Leaver)
      modifies this`consumers, this`subscriptions, this`lost, this`recvWG, this`cancelled,
               this`received, this`failed, this`acks, this`nacks
      ensures View() == LeaveOne(old(View()), l)
      ensures if l.busy.Some? then Settled(old(Done()), Done(), l.busy.value) else Done() == old(Done())
    {
      if l.busy.Some? {
        DispatchMessage(l.busy.value);
      }
      EndLoop(l.regex, l.name, l.loop);
    }

    /** recvWG.Wait: returns when every counted loop has left. `leaving` are these loops, in the order in
        which they leave, each after the job that it has in hand. */
    method AwaitLoops(leaving: seq<Leaver>)
      requires recvWG == |leaving| && Shelved(View())
      modifies this`consumers, this`subscriptions, this`lost, this`recvWG, this`cancelled,
               this`received, this`failed, this`acks, this`nacks
      ensures recvWG == 0 && Shelved(View())
      ensures View() == LeaveAll(old(View()), leaving)
      ensures AllSettled(old(Done()), Done(), BusyJobs(leaving))
    {
      ghost var before := View();
      var i := 0;
      while i < |leaving|
        invariant 0 <= i <= |leaving|
        invariant View() == LeaveAll(before, leaving[..i])
        invariant AllSettled(old(Done()), Done(), BusyJobs(leaving[..i]))
      {
        LeaveAllMeans(before, leaving[..i]);
        LeaveAllStep(before, leaving, i);
        ghost var mid := Done();
        Leave(leaving[i]);
        BusyStep(old(Done()), mid, Done(), leaving, i);
        i := i + 1;
      }
      assert leaving[..i] == leaving;
      LeaveAllMeans(before, leaving);
    }

    /** Empties the registry and tells every loop that was in it to stop. */
    method SignalLoops()
      modifies this`subscriptions, this`cancelled
      ensures View() == Drained(old(View()))
      ensures subscriptions == map[] && cancelled == old(cancelled) + old(subscriptions).Values
    {
      var cancels := TakeCancels();
      var before := cancelled;
      var i := 0;
      while i < |cancels|
        invariant 0 <= i <= |cancels|
        invariant subscriptions == map[] && cancelled == before + Elements(cancels[..i])
      {
        cancelled := cancelled + {cancels[i]};
        i := i + 1;
      }
      assert cancels[..i] == cancels;
    }

    /** Signals every loop in the registry and waits for the counted ones. */
    method StopReceivers(leaving: seq<Leaver>)
      requires recvWG == |leaving| && Shelved(View())
      modifies this`consumers, this`subscriptions, this`lost, this`recvWG, this`cancelled,
               this`received, this`failed, this`acks, this`nacks
      ensures recvWG == 0 && Stopped(old(View()), View(), leaving)
      ensures AllSettled(old(Done()), Done(), BusyJobs(leaving))
      ensures View() == LeaveAll(Drained(old(View())), leaving)
    {
      StopMeans(View(), leaving);
      SignalLoops();
      AwaitLoops(leaving);
    }

    /** Closes every live handle of a map, in whatever order its entries come. */
    method CloseEach(m: map<string, Slot>)
      requires Homed(m)
      modifies this`closes
      ensures closes == old(closes) + multiset(LiveHandles(m))
    {
      var todo := m.Keys;
      ghost var done: set<string> := {};
      while todo != {}
        invariant todo + done == m.Keys && todo !! done
        invariant closes == old(closes) + multiset(HandlesUnder(m, done))
        decreases todo
      {
        var name :| name in todo;
        HandlesGrow(m, done, name);
        CloseOne(m[name]);
        todo := todo - {name};
        done := done + {name};
      }
      assert HandlesUnder(m, done) == LiveHandles(m);
    }

    method CloseOne(slot: Slot)
      modifies this`closes
      ensures closes == old(closes) + BagOf(slot)
    {
      if slot.Live? {
        closes := closes + multiset{slot.handle};
      }
    }

    method CloseConsumers()
      requires Homed(consumers)
      modifies this`consumers, this`closes
      ensures View() == Sections.CloseConsumers(old(View()))
    {
      CloseEach(consumers);
      consumers := map[];
    }

    method CloseProducers()
      requires Homed(producers)
      modifies this`producers, this`closes
      ensures View() == Sections.CloseProducers(old(View()))
    {
      CloseEach(producers);
      producers := map[];
    }

    method CloseClient()
      modifies this`clientOpen, this`clientCloses
      ensures View() == Sections.CloseClient(old(View()))
    {
      if clientOpen {
        clientCloses := clientCloses + 1;
        clientOpen := false;
      }
    }

    /** closeAllResources after its stopReceivers. */
    method CloseHandles()
      requires Homed(consumers) && Homed(producers)
      modifies this`consumers, this`producers, this`closes, this`clientOpen, this`clientCloses
      ensures View() == Sections.CloseClient(Sections.CloseProducers(Sections.CloseConsumers(old(View()))))
    {
      CloseConsumers();
      CloseProducers();
      CloseClient();
    }

    /** Tears everything down. Handles are closed in the order consumers, producers, client, after every
        counted loop has left; afterwards nothing is open or registered and no handle has been forgotten. */
    method CloseAllResources(leaving: seq<Leaver>)
      requires recvWG == |leaving| && Shelved(View())
      modifies this`consumers, this`subscriptions, this`lost, this`recvWG, this`cancelled,
               this`received, this`failed, this`acks, this`nacks, this`producers, this`closes,
               this`clientOpen, this`clientCloses
      ensures TornDown(old(View()), View(), leaving)
      ensures AllSettled(old(Done()), Done(), BusyJobs(leaving))
      ensures View() == TearDown(old(View()), leaving)
    {
      ghost var before := View();
      StopReceivers(leaving);
      CloseHandles();
      assert View() == TearDown(before, leaving);
      TearDownTears(before, leaving);
    }

    /** cleanupWithContext, when the counted loops `leaving` are the ones that it waits for. */
    method CleanupWithContext(cancelledBefore: bool, leaving: seq<Leaver>) returns (ok: bool)
      requires recvWG == |leaving| && Shelved(View())
      modifies this`closeChan, this`closed, this`consumers, this`subscriptions, this`lost, this`recvWG,
               this`cancelled, this`received, this`failed, this`acks, this`nacks, this`producers, this`closes,
               this`clientOpen, this`clientCloses
      ensures ok <==> !cancelledBefore
      ensures !ok ==> View() == old(View()) && Done() == old(Done())
      ensures ok ==> closed && closeChan && TornDown(old(View()), View(), leaving)
      ensures ok ==> AllSettled(old(Done()), Done(), BusyJobs(leaving))
      ensures ok ==> View() == CleanedUp(old(View()), leaving)
    {
      if cancelledBefore {
        return false;
      }
      CleanedUpTears(View(), leaving);
      MarkClosed();
      CloseAllResources(leaving);
      return true;
    }

    /** closeOnce and the section that sets closed. */
    method MarkClosed()
      modifies this`closeChan, this`closed
      ensures View() == Marked(old(View()))
    {
      if !closeChan {
        closeChan := true;
      }
      closed := true;
    }

    // ---- pulsar.go: startup

    /** What startup keeps: the maps hold, under each name, the last handle made for it. */
    ghost predicate Stocked()
      reads this
    {
      && producers == MapOf(Produced, made) && consumers == MapOf(Configured, made)
      && Numbered(made) && NoRegex(made)
    }

    method CreateProducer(name: string, fails: bool) returns (ok: bool)
      requires Stocked()
      modifies this`producers, this`made
      ensures Stocked()
      ensures ok <==> clientOpen && !fails
      ensures ok ==> made == old(made) + [Handle(Produced, name, |old(made)|)]
                     && producers == old(producers)[name := Live(Handle(Produced, name, |old(made)|))]
      ensures !ok ==> made == old(made) && producers == old(producers)
    {
      if !clientOpen || fails {
        return false;
      }
      var h := Handle(Produced, name, |made|);
      OneMore(made, Produced, name);
      made := made + [h];
      producers := producers[name := Live(h)];
      return true;
    }

    method CreateConsumer(name: string, fails: bool) returns (ok: bool)
      requires Stocked()
      modifies this`consumers, this`made
      ensures Stocked()
      ensures ok <==> clientOpen && !fails
      ensures ok ==> made == old(made) + [Handle(Configured, name, |old(made)|)]
                     && consumers == old(consumers)[name := Live(Handle(Configured, name, |old(made)|))]
      ensures !ok ==> made == old(made) && consumers == old(consumers)
    {
      if !clientOpen || fails {
        return false;
      }
      var h := Handle(Configured, name, |made|);
      OneMore(made, Configured, name);
      made := made + [h];
      consumers := consumers[name := Live(h)];
      return true;
    }

    method InitializeProducers(list: seq<Entry>, err: nat -> bool) returns (ok: bool, ghost k: nat)
      requires clientOpen && Stocked()
      modifies this`producers, this`made
      ensures Stocked()
      ensures FirstError(err, |EnabledNames(list)|, k) && (ok <==> k == |EnabledNames(list)|)
      ensures made == old(made) + NewHandles(Produced, EnabledNames(list)[..k], |old(made)|)
    {
      var names := GetEnabled(list);
      ok, k := CreateProducers(names, err);
    }

    /** The loop of InitializeProducers. */
    method CreateProducers(names: seq<string>, err: nat -> bool) returns (ok: bool, ghost k: nat)
      requires clientOpen && Stocked()
      modifies this`producers, this`made
      ensures Stocked()
      ensures FirstError(err, |names|, k) && (ok <==> k == |names|)
      ensures MadeSoFar(Produced, old(made), made, names, k)
    {
      ghost var first := made;
      var i := 0;
      while i < |names|
        invariant 0 <= i <= |names| && Stocked()
        invariant forall j | 0 <= j < i :: !err(j)
        invariant MadeSoFar(Produced, first, made, names, i)
      {
        MadeOneMore(Produced, first, made, names, i);
        var created := CreateProducer(names[i], err(i));
        if !created {
          return false, i;
        }
        i := i + 1;
      }
      return true, i;
    }

    method InitializeConsumers(list: seq<Entry>, err: nat -> bool) returns (ok: bool, ghost k: nat)
      requires clientOpen && Stocked()
      modifies this`consumers, this`made
      ensures Stocked()
      ensures FirstError(err, |EnabledNames(list)|, k) && (ok <==> k == |EnabledNames(list)|)
      ensures made == old(made) + NewHandles(Configured, EnabledNames(list)[..k], |old(made)|)
    {
      var names := GetEnabled(list);
      ok, k := CreateConsumers(names, err);
    }

    /** The loop of InitializeConsumers. */
    method CreateConsumers(names: seq<string>, err: nat -> bool) returns (ok: bool, ghost k: nat)
      requires clientOpen && Stocked()
      modifies this`consumers, this`made
      ensures Stocked()
      ensures FirstError(err, |names|, k) && (ok <==> k == |names|)
      ensures MadeSoFar(Configured, old(made), made, names, k)
    {
      ghost var first := made;
      var i := 0;
      while i < |names|
        invariant 0 <= i <= |names| && Stocked()
        invariant forall j | 0 <= j < i :: !err(j)
        invariant MadeSoFar(Configured, first, made, names, i)
      {
        MadeOneMore(Configured, first, made, names, i);
        var created := CreateConsumer(names[i], err(i));
        if !created {
          return false, i;
        }
        i := i + 1;
      }
      return true, i;
    }

    /** After a failed startup nothing is open or registered, the client has been closed once, and
        exactly the handles whose name no later one took have been closed, once each. */
    ghost predicate Undone()
      reads this
    {
      && consumers == map[] && producers == map[] && subscriptions == map[]
      && !clientOpen && clientCloses == 1
      && (forall h | h in closes :: h in made)
      && (forall i | 0 <= i < |made| :: closes[made[i]] == if LastUnder(made, i) then 1 else 0)
    }

    /** Startup up to the registration of the shared resource. `p` and `c` count the producers and
        consumers that were created. Ready: everything enabled is open and registered under its name.
        NotRegistered: the runtime refused the shared resource; nothing is rolled back. RolledBack: every
        handle created so far has been closed exactly once if and only if none of their names came twice. */
    method Startup(producerList: seq<Entry>, consumerList: seq<Entry>, env: Env)
      returns (r: StartResult, ghost p: nat, ghost c: nat)
      requires recvWG == 0 && !clientOpen && consumers == map[] && producers == map[] && made == []
      requires closes == multiset{} && clientCloses == 0
      modifies this`made, this`consumers, this`subscriptions, this`lost, this`recvWG, this`cancelled,
               this`received, this`failed, this`acks, this`nacks, this`producers, this`closes,
               this`clientOpen, this`clientCloses
      ensures StartAnswer(env, |EnabledNames(producerList)|, |EnabledNames(consumerList)|, r, p, c)
      ensures r.NeverStarted? ==> View() == old(View()) && made == []
      ensures Progress(made, EnabledNames(producerList), EnabledNames(consumerList), p, c)
      ensures r.Ready? || r.NotRegistered? ==>
                && p == |EnabledNames(producerList)| && c == |EnabledNames(consumerList)|
                && View() == old(View()).(clientOpen := true, producers := MapOf(Produced, made),
                                          consumers := MapOf(Configured, made))
                && Stocked()
      ensures r.RolledBack? ==> Undone()
      ensures r.RolledBack? ==>
                (AllClosed(closes, made)
                 <==> Distinct(EnabledNames(producerList)[..p]) && Distinct(EnabledNames(consumerList)[..c]))
    {
      if env.cancelledAtStart {
        return NeverStarted, 0, 0;
      }
      if env.clientErr {
        return NeverStarted, 0, 0;
      }
      clientOpen := true;
      if env.cancelledAfterClient {
        RollBack();
        return RolledBack, 0, 0;
      }
      r, p, c := Populate(producerList, consumerList, env);
      if r.RolledBack? {
        AllClosedIff(closes, EnabledNames(producerList)[..p], EnabledNames(consumerList)[..c]);
      }
    }

    /** Startup from the first producer on. */
    method Populate(producerList: seq<Entry>, consumerList: seq<Entry>, env: Env)
      returns (r: StartResult, ghost p: nat, ghost c: nat)
      requires recvWG == 0 && clientOpen && consumers == map[] && producers == map[] && made == []
      requires closes == multiset{} && clientCloses == 0
      modifies this`made, this`consumers, this`subscriptions, this`lost, this`recvWG, this`cancelled,
               this`received, this`failed, this`acks, this`nacks, this`producers, this`closes,
               this`clientOpen, this`clientCloses
      ensures FirstError(env.producerErr, |EnabledNames(producerList)|, p)
      ensures if p < |EnabledNames(producerList)| || env.cancelledAfterProducers then r.RolledBack? && c == 0
              else ConsumersAnswer(env, |EnabledNames(consumerList)|, r, c)
      ensures Progress(made, EnabledNames(producerList), EnabledNames(consumerList), p, c)
      ensures !r.RolledBack? ==>
                && p == |EnabledNames(producerList)| && c == |EnabledNames(consumerList)|
                && View() == old(View()).(producers := producers, consumers := consumers) && Stocked()
      ensures r.RolledBack? ==> Undone()
    {
      var ok;
      ok, p := InitializeProducers(producerList, env.producerErr);
      ghost var first := made;
      c := 0;
      if !ok || env.cancelledAfterProducers {
        RollBack();
        r := RolledBack;
      } else {
        r, c := PopulateConsumers(consumerList, env);
      }
      ProgressFrom(first, made, EnabledNames(producerList), EnabledNames(consumerList), p, c);
    }

    /** Startup from the first consumer on. */
    method PopulateConsumers(consumerList: seq<Entry>, env: Env) returns (r: StartResult, ghost c: nat)
      requires recvWG == 0 && clientOpen && Stocked() && closes == multiset{} && clientCloses == 0
      modifies this`made, this`consumers, this`subscriptions, this`lost, this`recvWG, this`cancelled,
               this`received, this`failed, this`acks, this`nacks, this`producers, this`closes,
               this`clientOpen, this`clientCloses
      ensures ConsumersAnswer(env, |EnabledNames(consumerList)|, r, c)
      ensures made == old(made) + NewHandles(Configured, EnabledNames(consumerList)[..c], |old(made)|)
      ensures !r.RolledBack? ==>
                && c == |EnabledNames(consumerList)|
                && View() == old(View()).(consumers := consumers) && Stocked()
      ensures r.RolledBack? ==> Undone()
    {
      var ok;
      ok, c := InitializeConsumers(consumerList, env.consumerErr);
      if !ok {
        RollBack();
        return RolledBack, c;
      }
      r := if env.registerErr then NotRegistered else Ready;
    }

    /** closeAllResources at the end of a failed startup. */
    method RollBack()
      requires recvWG == 0 && clientOpen && Stocked() && closes == multiset{} && clientCloses == 0
      modifies this`consumers, this`subscriptions, this`lost, this`recvWG, this`cancelled,
               this`received, this`failed, this`acks, this`nacks, this`producers, this`closes,
               this`clientOpen, this`clientCloses
      ensures Undone()
    {
      StockedShelved();
      ghost var before := View();
      CloseAllResources([]);
      ClosedAreLast(before, made);
    }

    lemma StockedShelved()
      requires Stocked()
      ensures Shelved(View())
    {
      MapOfHolds(Produced, made);
      MapOfHolds(Configured, made);
      forall n | n in producers && producers[n].Live? ensures producers[n].handle.kind == Produced {
        assert producers[n].handle in LiveHandles(producers);
      }
      forall n | n in consumers && consumers[n].Live? ensures consumers[n].handle.kind != Produced {
        assert consumers[n].handle in LiveHandles(consumers);
      }
    }
  }

  /** GetEnabledProducers and GetEnabledConsumers. */
  method GetEnabled(list: seq<Entry>) returns (names: seq<string>)
    ensures names == EnabledNames(list)
    ensures exists at :: PicksEnabled(list, names, at)
  {
    ghost var at := EnabledPicked(list);
    names := [];
    var i := 0;
    while i < |list|
      invariant 0 <= i <= |list| && names == EnabledNames(list[..i])
    {
      if list[i].enabled {
        names := names + [list[i].name];
      }
      i := i + 1;
      assert list[..i][..i - 1] == list[..i - 1];
    }
    assert list[..i] == list;
  }
}

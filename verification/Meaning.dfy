/** What each critical section means to its callers: which answers it gives when, what it leaves alone, and
    that it neither duplicates a handle nor forgets one. */
module Meaning {
  import opened Registry

  // ---- Where a handle is, section by section

  lemma ClosePlaced(r: Registry, h: Handle)
    requires Shelved(r)
    ensures Placed(CloseConsumers(r), h) == Placed(r, h) == Placed(CloseProducers(r), h)
  {
    assert h in LiveHandles(r.consumers) <==> h.kind != Produced && InMap(r, h);
    assert h in LiveHandles(r.producers) <==> h.kind == Produced && InMap(r, h);
  }

  lemma InsertPlaced(r: Registry, name: string, loop: nat, own: Handle, h: Handle)
    requires Shelved(r) && own.name == name && own.kind == Regex && name !in r.subscriptions
    ensures Placed(RegisterRegex(r, name, loop, own).0, h) == Placed(r, h) + if h == own then 1 else 0
  {}

  lemma ExitPlaced(r: Registry, name: string, h: Handle)
    requires Shelved(r)
    ensures Placed(ExitRegex(r, name), h) == Placed(r, h) == Placed(ExitNamed(r, name), h)
  {}

  lemma TakeKeepsHandles(r: Registry, name: string)
    requires Shelved(r)
    ensures SameHandles(r, Unsubscribed(r, name)) && SameHandles(r, ProducerClosed(r, name))
  {
    forall h ensures Placed(Unsubscribed(r, name), h) == Placed(r, h) == Placed(ProducerClosed(r, name), h) {
      TakePlaced(r, name, h);
    }
  }

  lemma TakePlaced(r: Registry, name: string, h: Handle)
    requires Shelved(r)
    ensures var (taken, slot) := TakeConsumer(r, name);
            Placed(taken, h) + BagOf(slot)[h] == Placed(r, h)
    ensures var (taken, slot) := TakeProducer(r, name);
            Placed(taken, h) + BagOf(slot)[h] == Placed(r, h)
  {}

  /** Nobody forgets a handle or has it twice. */
  ghost predicate SameHandles(r: Registry, r': Registry) {
    forall h :: Placed(r', h) == Placed(r, h)
  }

  /** Two patterns never share a name, and no pattern's name is free for a configured consumer. */
  lemma RegexNameDistinct(p: string, q: string)
    ensures IsRegexName(RegexName(p)) && (RegexName(p) == RegexName(q) ==> p == q)
    ensures RegexName(p)[6..] == p
  {
    assert RegexName(p)[6..] == p && RegexName(q)[6..] == q;
    assert RegexName(p)[..6] == "regex:";
  }

  /** `h` has got one more place, every other handle has as many as before. */
  ghost predicate NewHandle(r: Registry, r': Registry, h: Handle) {
    forall g :: Placed(r', g) == Placed(r, g) + if g == h then 1 else 0
  }

  /** The registry section of SubscribeWith accepts exactly when the consumer is there and nobody drains it
      yet; then `loop` does, and nothing else changes. A refusal changes nothing. */
  predicate NamedMeaning(r: Registry, r': Registry, name: string, loop: nat, answer: Answer) {
    && (answer.NotFound? <==> SlotAt(r.consumers, name).Nil?)
    && (answer.Accepted? <==> SlotAt(r.consumers, name).Live? && name !in r.subscriptions)
    && (answer.Accepted? ==> SlotAt(r.consumers, name) == Live(answer.handle))
    && r'.subscriptions.Keys == r.subscriptions.Keys + (if answer.Accepted? then {name} else {})
    && (forall n | n in r'.subscriptions ::
          r'.subscriptions[n] == if n in r.subscriptions then r.subscriptions[n] else loop)
    && r' == r.(subscriptions := r'.subscriptions)
  }

  lemma RegisterNamedMeans(r: Registry, name: string, loop: nat)
    ensures var (r', answer) := RegisterNamed(r, name, loop);
            NamedMeaning(r, r', name, loop, answer) && (answer.Accepted? ==> ExitNamed(r', name) == r)
  {
    var (r', answer) := RegisterNamed(r, name, loop);
    if answer.Accepted? {
      assert ExitNamed(r', name).subscriptions == r.subscriptions;
    }
  }

  /** The registry section of SubscribeWithRegex refuses exactly when somebody drains that name. Otherwise
      `loop` does from now on, from `h`, which has got its one place; every other handle still has its own. */
  ghost predicate RegexMeaning(r: Registry, r': Registry, name: string, loop: nat, h: Handle, answer: Answer) {
    && answer == (if name in r.subscriptions then Duplicate else Accepted(h))
    && (answer.Duplicate? ==> r' == r)
    && (answer.Accepted? ==>
          && NewHandle(r, r', h) && r'.closes == r.closes && r'.unsubs == r.unsubs
          && InMap(r', h) && name in r'.subscriptions && r'.subscriptions[name] == loop
          && (forall n | n != name :: SlotAt(r'.consumers, n) == SlotAt(r.consumers, n))
          && r'.subscriptions - {name} == r.subscriptions)
    && Shelved(r')
  }

  lemma InsertNew(r: Registry, name: string, loop: nat, h: Handle)
    requires Shelved(r) && h.kind == Regex && h.name == name && name !in r.subscriptions
    ensures NewHandle(r, RegisterRegex(r, name, loop, h).0, h)
  {
    forall g ensures Placed(RegisterRegex(r, name, loop, h).0, g) == Placed(r, g) + if g == h then 1 else 0 {
      InsertPlaced(r, name, loop, h, g);
    }
  }

  lemma RegisterRegexMeans(r: Registry, name: string, loop: nat, h: Handle)
    requires Shelved(r) && h.kind == Regex && h.name == name
    ensures var (r', answer) := RegisterRegex(r, name, loop, h);
            RegexMeaning(r, r', name, loop, h, answer)
  {
    var (r', answer) := RegisterRegex(r, name, loop, h);
    if answer.Accepted? {
      InsertNew(r, name, loop, h);
      assert r'.subscriptions - {name} == r.subscriptions;
    }
  }

  /** The deferred section frees the name, whichever loop holds it by now; a regex loop also takes away the
      consumer under its name, whosever that is. No other name is affected and no handle forgotten. */
  ghost predicate ExitMeaning(r: Registry, r': Registry, regex: bool, name: string) {
    && name !in r'.subscriptions && r'.subscriptions == r.subscriptions - {name}
    && (regex ==> name !in r'.consumers)
    && (forall n | n != name || !regex :: SlotAt(r'.consumers, n) == SlotAt(r.consumers, n))
    && SameHandles(r, r') && Shelved(r')
  }

  lemma ExitMeans(r: Registry, regex: bool, name: string)
    requires Shelved(r)
    ensures ExitMeaning(r, Exit(r, regex, name), regex, name)
  {
    ExitKeepsHandles(r, regex, name);
  }

  lemma ExitKeepsHandles(r: Registry, regex: bool, name: string)
    requires Shelved(r)
    ensures SameHandles(r, Exit(r, regex, name))
  {
    forall h ensures Placed(Exit(r, regex, name), h) == Placed(r, h) {
      ExitPlaced(r, name, h);
    }
  }

  /** The map has lost its entry under `name`, and no other. */
  ghost predicate OneLess(m: map<string, Slot>, m': map<string, Slot>, name: string) {
    name !in m' && forall n | n != name :: SlotAt(m', n) == SlotAt(m, n)
  }

  /** The handle in `slot`, and no other, has been called once more. */
  ghost predicate OneMoreCall(calls: multiset<Handle>, calls': multiset<Handle>, slot: Slot) {
    forall h :: calls'[h] == calls[h] + if slot == Live(h) then 1 else 0
  }

  /** Unsubscribe leaves no consumer under the name. The one that was there, and no other, has been
      unsubscribed once more; nothing else changes; without one, nothing at all. */
  ghost predicate UnsubscribeMeaning(r: Registry, r': Registry, name: string) {
    && OneLess(r.consumers, r'.consumers, name)
    && OneMoreCall(r.unsubs, r'.unsubs, SlotAt(r.consumers, name))
    && r' == r.(consumers := r'.consumers, unsubs := r'.unsubs)
    && (name !in r.consumers ==> r' == r)
    && SameHandles(r, r') && Shelved(r')
  }

  /** Close does the same to a producer, which it closes. */
  ghost predicate CloseMeaning(r: Registry, r': Registry, name: string) {
    && OneLess(r.producers, r'.producers, name)
    && OneMoreCall(r.closes, r'.closes, SlotAt(r.producers, name))
    && r' == r.(producers := r'.producers, closes := r'.closes)
    && (name !in r.producers ==> r' == r)
    && SameHandles(r, r') && Shelved(r')
  }

  lemma TakeFromMap(m: map<string, Slot>, name: string)
    ensures OneLess(m, m - {name}, name) && (name !in m ==> m - {name} == m)
  {
    if name !in m { assert m - {name} == m; }
  }

  lemma CallMore(calls: multiset<Handle>, slot: Slot)
    ensures OneMoreCall(calls, calls + BagOf(slot), slot)
    ensures slot.Nil? ==> calls + BagOf(slot) == calls
  {
    if slot.Nil? { assert calls + multiset{} == calls; }
  }

  lemma UnsubscribeMeans(r: Registry, name: string)
    requires Shelved(r)
    ensures UnsubscribeMeaning(r, Unsubscribed(r, name), name)
  {
    TakeFromMap(r.consumers, name);
    CallMore(r.unsubs, SlotAt(r.consumers, name));
    TakeKeepsHandles(r, name);
  }

  lemma CloseMeans(r: Registry, name: string)
    requires Shelved(r)
    ensures CloseMeaning(r, ProducerClosed(r, name), name)
  {
    TakeFromMap(r.producers, name);
    CallMore(r.closes, SlotAt(r.producers, name));
    TakeKeepsHandles(r, name);
  }

  /** What the loops that leave take with them: the consumers under the names of regex loops; they touch no
      producer, no flag and no Close or Unsubscribe count. */
  predicate LeftMeaning(r: Registry, r': Registry, leaving: seq<Leaver>) {
    && r'.recvWG == r.recvWG - |leaving| && r'.consumers == r.consumers - RegexNames(leaving)
    && r'.subscriptions.Keys <= r.subscriptions.Keys && r.cancelled <= r'.cancelled
    && r'.producers == r.producers && r'.closes == r.closes && r'.unsubs == r.unsubs
    && r'.clientOpen == r.clientOpen && r'.closed == r.closed && r'.closeChan == r.closeChan
  }

  function RegexNames(leaving: seq<Leaver>): set<string> {
    set l | l in leaving && l.regex :: l.name
  }

  lemma LeaveOneLeft(r: Registry, l: Leaver)
    ensures LeftMeaning(r, LeaveOne(r, l), [l])
  {
    assert RegexNames([l]) == if l.regex then {l.name} else {};
    JobLeaves(r, l.busy);
    ExitLeaves(FinishJob(r, l.busy), l.regex, l.name);
  }

  /** Only the two counters may differ. */
  predicate SameButCounters(r: Registry, r': Registry) {
    r' == r.(received := r'.received, failed := r'.failed)
  }

  lemma JobLeaves(r: Registry, busy: Option<Job>)
    ensures SameButCounters(r, FinishJob(r, busy))
  {
    match busy
    case None =>
    case Some(job) =>
      match job.outcome
      case Good =>
      case Failed =>
      case Panicked =>
  }

  /** Only the registry entry and, for a regex loop, the consumer under the name may differ. */
  predicate SameButName(r: Registry, r': Registry, regex: bool, name: string) {
    r' == r.(consumers := r.consumers - (if regex then {name} else {}),
             subscriptions := r.subscriptions - {name}, lost := r'.lost)
  }

  lemma ExitLeaves(r: Registry, regex: bool, name: string)
    ensures SameButName(r, Exit(r, regex, name), regex, name)
  {
    assert r.consumers - {} == r.consumers;
  }

  lemma CountersKeepHandles(r: Registry, r': Registry)
    requires SameButCounters(r, r')
    ensures SameHandles(r, r') && (Shelved(r) ==> Shelved(r'))
  {}

  lemma SignOffKeepsHandles(r: Registry, loop: nat)
    ensures SameHandles(r, SignOff(r, loop)) && (Shelved(r) ==> Shelved(SignOff(r, loop)))
  {}

  lemma SameTwice(r: Registry, mid: Registry, r': Registry)
    requires SameHandles(r, mid) && SameHandles(mid, r')
    ensures SameHandles(r, r')
  {
    forall h ensures Placed(r', h) == Placed(r, h) {
      assert Placed(mid, h) == Placed(r, h);
    }
  }

  lemma LeaveOneKeepsHandles(r: Registry, l: Leaver)
    requires Shelved(r)
    ensures SameHandles(r, LeaveOne(r, l)) && Shelved(LeaveOne(r, l))
  {
    var settled := FinishJob(r, l.busy);
    var gone := Exit(settled, l.regex, l.name);
    JobLeaves(r, l.busy);
    CountersKeepHandles(r, settled);
    ExitMeans(settled, l.regex, l.name);
    SameTwice(r, settled, gone);
    SignOffKeepsHandles(gone, l.loop);
    SameTwice(r, gone, LeaveOne(r, l));
  }

  lemma LeftTwice(r: Registry, mid: Registry, r': Registry, some: seq<Leaver>, l: Leaver)
    requires LeftMeaning(r, mid, some) && LeftMeaning(mid, r', [l])
    ensures LeftMeaning(r, r', some + [l])
  {
    assert RegexNames(some + [l]) == RegexNames(some) + RegexNames([l]);
  }

  lemma {:induction false} LeaveAllMeans(r: Registry, leaving: seq<Leaver>)
    requires Shelved(r)
    ensures LeftMeaning(r, LeaveAll(r, leaving), leaving)
    ensures SameHandles(r, LeaveAll(r, leaving)) && Shelved(LeaveAll(r, leaving))
  {
    if leaving == [] {
      assert RegexNames(leaving) == {};
    } else {
      var k := |leaving| - 1;
      LeaveAllMeans(r, leaving[..k]);
      LeaveOneLeft(LeaveAll(r, leaving[..k]), leaving[k]);
      LeaveOneKeepsHandles(LeaveAll(r, leaving[..k]), leaving[k]);
      LeftTwice(r, LeaveAll(r, leaving[..k]), LeaveAll(r, leaving), leaving[..k], leaving[k]);
      assert leaving == leaving[..k] + [leaving[k]];
    }
  }

  /** Nothing is open or registered. */
  predicate Down(r: Registry) {
    !r.clientOpen && r.subscriptions == map[] && r.consumers == map[] && r.producers == map[]
  }

  /** Every loop that was in the registry has been told to stop. */
  predicate Signalled(r: Registry, r': Registry) { r.subscriptions.Values <= r'.cancelled }

  /** After stopReceivers: the registry is empty, every loop that was in it has been told to stop, those that
      were waited for have left, and no handle has been duplicated or forgotten. */
  ghost predicate Stopped(r: Registry, r': Registry, leaving: seq<Leaver>) {
    && r'.subscriptions == map[] && Signalled(r, r')
    && LeftMeaning(Drained(r), r', leaving) && SameHandles(r, r') && Shelved(r')
  }

  lemma StopMeans(r: Registry, leaving: seq<Leaver>)
    requires Shelved(r)
    ensures Stopped(r, LeaveAll(Drained(r), leaving), leaving)
  {
    DrainKeepsHandles(r);
    LeaveAllMeans(Drained(r), leaving);
    SameTwice(r, Drained(r), LeaveAll(Drained(r), leaving));
  }

  lemma DrainKeepsHandles(r: Registry)
    ensures SameHandles(r, Drained(r))
  {}

  lemma TearDownSignals(r: Registry, leaving: seq<Leaver>)
    requires Shelved(r)
    ensures Signalled(r, LeaveAll(Drained(r), leaving)) && Signalled(r, TearDown(r, leaving))
    ensures Signalled(r, CleanedUp(r, leaving))
  {
    LeaveAllMeans(Drained(r), leaving);
    LeaveAllMeans(Drained(Marked(r)), leaving);
  }

  lemma TearDownMeans(r: Registry, leaving: seq<Leaver>)
    requires Shelved(r)
    ensures Down(TearDown(r, leaving)) && TearDown(r, leaving).recvWG == r.recvWG - |leaving|
    ensures SameHandles(r, TearDown(r, leaving))
  {
    LeaveAllMeans(Drained(r), leaving);
    var stopped := LeaveAll(Drained(r), leaving);
    assert stopped.subscriptions == map[];
    ClosedHandles(stopped);
    forall h ensures Placed(TearDown(r, leaving), h) == Placed(r, h) {
      assert Placed(stopped, h) == Placed(Drained(r), h) == Placed(r, h);
    }
  }

  lemma ClosedHandles(r: Registry)
    requires Shelved(r)
    ensures SameHandles(r, CloseClient(CloseProducers(CloseConsumers(r))))
  {
    forall h ensures Placed(CloseClient(CloseProducers(CloseConsumers(r))), h) == Placed(r, h) {
      ClosePlaced(r, h);
      ClosePlaced(CloseConsumers(r), h);
    }
  }

  lemma LeaveAllStep(r: Registry, leaving: seq<Leaver>, i: nat)
    requires i < |leaving|
    ensures LeaveAll(r, leaving[..i + 1]) == LeaveOne(LeaveAll(r, leaving[..i]), leaving[i])
  {
    assert leaving[..i + 1][..i] == leaving[..i];
  }

  /** Everything is down, the loops waited for have left, no handle has been duplicated or forgotten, and every
      loop that was in the registry has been told to stop. */
  ghost predicate TornDown(r: Registry, r': Registry, leaving: seq<Leaver>) {
    Down(r') && r'.recvWG == r.recvWG - |leaving| && SameHandles(r, r') && Signalled(r, r')
  }

  lemma TearDownTears(r: Registry, leaving: seq<Leaver>)
    requires Shelved(r)
    ensures TornDown(r, TearDown(r, leaving), leaving)
  {
    TearDownMeans(r, leaving);
    TearDownSignals(r, leaving);
  }

  lemma CleanedUpTears(r: Registry, leaving: seq<Leaver>)
    requires Shelved(r)
    ensures TornDown(r, CleanedUp(r, leaving), leaving)
    ensures CleanedUp(r, leaving).closed && CleanedUp(r, leaving).closeChan
  {
    TearDownMeans(Marked(r), leaving);
    CleanedUpMeans(r, leaving);
    TearDownSignals(r, leaving);
  }

  lemma CleanedUpMeans(r: Registry, leaving: seq<Leaver>)
    requires Shelved(r)
    ensures CleanedUp(r, leaving).closed && CleanedUp(r, leaving).closeChan
    ensures SameHandles(r, CleanedUp(r, leaving))
  {
    TearDownMeans(Marked(r), leaving);
    LeaveAllMeans(Drained(Marked(r)), leaving);
    forall h ensures Placed(CleanedUp(r, leaving), h) == Placed(r, h) {
      assert Placed(Marked(r), h) == Placed(r, h);
    }
  }
}

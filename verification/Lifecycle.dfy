/** What startup, rollback and cleanup promise, and how they meet the protocol. */
module Lifecycle {
  import opened Registry
  import opened Meaning
  import opened Made
  import opened Protocol
  import opened Sums
  import opened Invariant
  import opened Safety
  import opened Runs
  import opened Client

  /** What a fresh plugin looks like after a successful startup. */
  function Opened(ps: seq<string>, cs: seq<string>): Registry {
    Registry(MapOf(Configured, AllHandles(ps, cs)), MapOf(Produced, AllHandles(ps, cs)), map[], true, false, false,
             0, {}, 0, 0, multiset{}, multiset{}, multiset{}, 0)
  }

  lemma {:induction false} MapOfKeys(kind: Kind, made: seq<Handle>)
    ensures forall n :: n in MapOf(kind, made) <==> exists i :: 0 <= i < |made| && made[i].kind == kind && made[i].name == n
  {
    if made != [] {
      var k := |made| - 1;
      MapOfKeys(kind, made[..k]);
      forall n | exists i :: 0 <= i < |made| && made[i].kind == kind && made[i].name == n
        ensures n in MapOf(kind, made)
      {
        var i :| 0 <= i < |made| && made[i].kind == kind && made[i].name == n;
        if i < k { assert made[..k][i].name == n; }
      }
      forall n | n in MapOf(kind, made)
        ensures exists i :: 0 <= i < |made| && made[i].kind == kind && made[i].name == n
      {
        if n !in MapOf(kind, made[..k]) { assert made[k].name == n; }
      }
    }
  }

  /** A successful startup registers exactly the enabled names. */
  lemma StartupKeys(ps: seq<string>, cs: seq<string>)
    ensures Opened(ps, cs).producers.Keys == set n | n in ps
    ensures Opened(ps, cs).consumers.Keys == set n | n in cs
  {
    var made := AllHandles(ps, cs);
    MapOfKeys(Produced, made);
    MapOfKeys(Configured, made);
    forall n | n in ps ensures n in Opened(ps, cs).producers {
      var i :| 0 <= i < |ps| && ps[i] == n;
      assert made[i].kind == Produced && made[i].name == n;
    }
    forall n | n in cs ensures n in Opened(ps, cs).consumers {
      var i :| 0 <= i < |cs| && cs[i] == n;
      assert made[|ps| + i].kind == Configured && made[|ps| + i].name == n;
    }
  }

  lemma OpenedHolds(ps: seq<string>, cs: seq<string>)
    requires Distinct(ps) && Distinct(cs)
    ensures (set h | h in AllHandles(ps, cs)) ==
              LiveHandles(Opened(ps, cs).consumers) + LiveHandles(Opened(ps, cs).producers)
  {
    var made := AllHandles(ps, cs);
    MapOfHolds(Produced, made);
    MapOfHolds(Configured, made);
    LastUnderIff(ps, cs);
    var held := LiveHandles(MapOf(Configured, made)) + LiveHandles(MapOf(Produced, made));
    forall i | 0 <= i < |made| ensures made[i] in held {
      assert LastUnder(made, i) && made[i].kind != Regex;
    }
    assert forall h | h in held :: h in made;
  }

  /** With distinct names, none of them reserved for regex subscriptions, a successful startup leaves a
      state from which the protocol's theorems hold, with every created handle accounted for. */
  lemma StartupReachesProtocol(ps: seq<string>, cs: seq<string>)
    requires Distinct(ps) && Distinct(cs)
    requires forall n | n in cs :: !IsRegexName(n)
    ensures Started(Opened(ps, cs), set h | h in AllHandles(ps, cs))
  {
    MapOfHolds(Produced, AllHandles(ps, cs));
    MapOfHolds(Configured, AllHandles(ps, cs));
    StartupKeys(ps, cs);
    OpenedHolds(ps, cs);
  }

  /** A new plugin that starts with distinct names is ready for the protocol. */
  method StartNew(producerList: seq<Entry>, consumerList: seq<Entry>, env: Env)
    returns (plugin: PulsarClient, r: StartResult)
    ensures fresh(plugin)
    ensures r.Ready? <==> Smooth(env, |EnabledNames(producerList)|, |EnabledNames(consumerList)|)
    ensures r.Ready? && Distinct(EnabledNames(producerList)) && Distinct(EnabledNames(consumerList))
            && (forall n | n in EnabledNames(consumerList) :: !IsRegexName(n)) ==>
              Started(plugin.View(), set h | h in plugin.made)
    ensures r.Ready? ==>
              && plugin.View() == Opened(EnabledNames(producerList), EnabledNames(consumerList))
              && plugin.made == AllHandles(EnabledNames(producerList), EnabledNames(consumerList))
    ensures r.Ready? ==>
              && plugin.producers.Keys == (set e | e in producerList && e.enabled :: e.name)
              && plugin.consumers.Keys == (set e | e in consumerList && e.enabled :: e.name)
  {
    plugin := new PulsarClient();
    ghost var p, c;
    r, p, c := plugin.Startup(producerList, consumerList, env);
    ghost var ps, cs := EnabledNames(producerList), EnabledNames(consumerList);
    if r.Ready? {
      assert ps[..p] == ps && cs[..c] == cs;
      assert plugin.made == AllHandles(ps, cs);
      StartupKeys(ps, cs);
      EnabledSet(producerList);
      EnabledSet(consumerList);
      if Distinct(ps) && Distinct(cs) && forall n | n in cs :: !IsRegexName(n) {
        StartupReachesProtocol(ps, cs);
      }
    }
  }

  /** Everything is down and the client has been closed once. Of the handles created, the last one under each
      name has been closed once and the others never; so all of them have been if and only if no enabled name
      occurs twice. */
  ghost predicate ClosedLast(r: Registry, made: seq<Handle>, ps: seq<string>, cs: seq<string>) {
    && Down(r) && r.clientCloses == 1 && made == AllHandles(ps, cs)
    && (forall h | h in r.closes :: h in made)
    && (forall i | 0 <= i < |made| :: r.closes[made[i]] == if LastUnder(made, i) then 1 else 0)
    && (AllClosed(r.closes, made) <==> Distinct(ps) && Distinct(cs))
  }

  /** The same startup followed by a cleanup. */
  method StartAndCleanUp(producerList: seq<Entry>, consumerList: seq<Entry>, env: Env)
    returns (plugin: PulsarClient, r: StartResult)
    ensures r.Ready? <==> Smooth(env, |EnabledNames(producerList)|, |EnabledNames(consumerList)|)
    ensures r.Ready? ==>
              ClosedLast(plugin.View(), plugin.made, EnabledNames(producerList), EnabledNames(consumerList))
  {
    plugin, r := StartNew(producerList, consumerList, env);
    if r.Ready? {
      ghost var before := plugin.View();
      OpenedShelved(EnabledNames(producerList), EnabledNames(consumerList));
      ClosedByCleanup(before, EnabledNames(producerList), EnabledNames(consumerList));
      var ok := plugin.CleanupWithContext(false, []);
    }
  }

  lemma ClosedByCleanup(r: Registry, ps: seq<string>, cs: seq<string>)
    requires r == Opened(ps, cs)
    ensures ClosedLast(CleanedUp(r, []), AllHandles(ps, cs), ps, cs)
  {
    ClosedAreLast(Marked(r), AllHandles(ps, cs));
    AllClosedIff(CleanedUp(r, []).closes, ps, cs);
  }

  datatype EndCall = EndConsumer(name: string) | EndProducer(name: string)

  /** Any Unsubscribe and Close calls, one after the other, keep every handle accounted for. */
  method EndSome(plugin: PulsarClient, calls: seq<EndCall>)
    requires Shelved(plugin.View())
    modifies plugin
    ensures Shelved(plugin.View()) && SameHandles(old(plugin.View()), plugin.View())
    ensures plugin.made == old(plugin.made) && plugin.recvWG == old(plugin.recvWG) && plugin.lost == old(plugin.lost)
  {
    for i := 0 to |calls|
      invariant Shelved(plugin.View()) && SameHandles(old(plugin.View()), plugin.View())
      invariant plugin.made == old(plugin.made) && plugin.recvWG == old(plugin.recvWG) && plugin.lost == old(plugin.lost)
    {
      ghost var before := plugin.View();
      match calls[i] {
        case EndConsumer(name) => plugin.Unsubscribe(name);
        case EndProducer(name) => plugin.CloseProducer(name);
      }
      SameTwice(old(plugin.View()), before, plugin.View());
    }
  }

  /** A startup with distinct names, any Unsubscribe and Close calls, and a cleanup: every created handle is
      closed or unsubscribed, exactly once in all. */
  method StartEndAndCleanUp(producerList: seq<Entry>, consumerList: seq<Entry>, env: Env, calls: seq<EndCall>)
    returns (plugin: PulsarClient, r: StartResult)
    ensures r.Ready? <==> Smooth(env, |EnabledNames(producerList)|, |EnabledNames(consumerList)|)
    ensures r.Ready? && Distinct(EnabledNames(producerList)) && Distinct(EnabledNames(consumerList)) ==>
              forall h | h in plugin.made :: plugin.closes[h] + plugin.unsubs[h] == 1
  {
    plugin, r := StartNew(producerList, consumerList, env);
    if r.Ready? {
      ghost var start := plugin.View();
      OpenedShelved(EnabledNames(producerList), EnabledNames(consumerList));
      EndSome(plugin, calls);
      ghost var used := plugin.View();
      var ok := plugin.CleanupWithContext(false, []);
      SameTwice(start, used, plugin.View());
      if Distinct(EnabledNames(producerList)) && Distinct(EnabledNames(consumerList)) {
        EndedOnce(EnabledNames(producerList), EnabledNames(consumerList), plugin.View());
      }
    }
  }

  lemma EndedOnce(ps: seq<string>, cs: seq<string>, r: Registry)
    requires Distinct(ps) && Distinct(cs) && SameHandles(Opened(ps, cs), r) && Down(r) && r.lost == multiset{}
    ensures forall h | h in AllHandles(ps, cs) :: r.closes[h] + r.unsubs[h] == 1
  {
    OpenedHolds(ps, cs);
    forall h | h in AllHandles(ps, cs) ensures r.closes[h] + r.unsubs[h] == 1 {
      assert h in set g | g in AllHandles(ps, cs);
      HeldPlaced(ps, cs, h);
      assert Placed(r, h) == Placed(Opened(ps, cs), h);
    }
  }

  lemma HeldPlaced(ps: seq<string>, cs: seq<string>, h: Handle)
    requires h in LiveHandles(Opened(ps, cs).consumers) + LiveHandles(Opened(ps, cs).producers)
    ensures Placed(Opened(ps, cs), h) == 1
  {
    MapOfShape(Produced, AllHandles(ps, cs));
    MapOfShape(Configured, AllHandles(ps, cs));
  }

  lemma OpenedShelved(ps: seq<string>, cs: seq<string>)
    ensures Shelved(Opened(ps, cs))
  {
    MapOfShape(Produced, AllHandles(ps, cs));
    MapOfShape(Configured, AllHandles(ps, cs));
  }

  /** What a cleanup settles: a consumer is closed, or lost when one of the loops that the cleanup waits for is
      a regex loop of its name; a producer is closed; each of them once. Running cleanup again changes nothing. */
  lemma CleanupSettles(r: Registry, leaving: seq<Leaver>)
    requires Shelved(r)
    ensures forall h :: CleanedUp(r, leaving).closes[h] ==
              r.closes[h]
              + (if h in LiveHandles(r.consumers) && h.name !in RegexNames(leaving) then 1 else 0)
              + (if h in LiveHandles(r.producers) then 1 else 0)
    ensures forall h :: CleanedUp(r, leaving).lost[h] ==
              r.lost[h] + if h in LiveHandles(r.consumers) && h.name in RegexNames(leaving) then 1 else 0
    ensures CleanedUp(CleanedUp(r, leaving), []) == CleanedUp(r, leaving)
  {
    CleanedUpMeans(r, leaving);
    TearDownMeans(Marked(r), leaving);
    LeaveAllMeans(Drained(Marked(r)), leaving);
    forall h
      ensures CleanedUp(r, leaving).closes[h] ==
                r.closes[h]
                + (if h in LiveHandles(r.consumers) && h.name !in RegexNames(leaving) then 1 else 0)
                + (if h in LiveHandles(r.producers) then 1 else 0)
      ensures CleanedUp(r, leaving).lost[h] ==
                r.lost[h] + if h in LiveHandles(r.consumers) && h.name in RegexNames(leaving) then 1 else 0
    {
      SettledOne(r, leaving, h);
    }
    CleanupAgain(r, leaving);
  }

  lemma SettledOne(r: Registry, leaving: seq<Leaver>, h: Handle)
    requires Shelved(r) && Down(CleanedUp(r, leaving)) && SameHandles(r, CleanedUp(r, leaving))
    requires LeftMeaning(Drained(Marked(r)), LeaveAll(Drained(Marked(r)), leaving), leaving)
    ensures CleanedUp(r, leaving).closes[h] ==
              r.closes[h]
              + (if h in LiveHandles(r.consumers) && h.name !in RegexNames(leaving) then 1 else 0)
              + (if h in LiveHandles(r.producers) then 1 else 0)
    ensures CleanedUp(r, leaving).lost[h] ==
              r.lost[h] + if h in LiveHandles(r.consumers) && h.name in RegexNames(leaving) then 1 else 0
  {
    var stopped := LeaveAll(Drained(Marked(r)), leaving);
    assert Placed(CleanedUp(r, leaving), h) == Placed(r, h);
    assert h in LiveHandles(r.consumers) <==> h.kind != Produced && InMap(r, h);
    assert h in LiveHandles(r.producers) <==> h.kind == Produced && InMap(r, h);
    assert stopped.consumers == r.consumers - RegexNames(leaving);
    assert h in LiveHandles(r.consumers) ==> r.consumers[h.name] == Live(h);
    if h in LiveHandles(r.consumers) && h.name !in RegexNames(leaving) {
      assert stopped.consumers[h.name] == Live(h);
    }
  }

  lemma CleanupAgain(r: Registry, leaving: seq<Leaver>)
    requires Down(CleanedUp(r, leaving)) && CleanedUp(r, leaving).closed && CleanedUp(r, leaving).closeChan
    ensures CleanedUp(CleanedUp(r, leaving), []) == CleanedUp(r, leaving)
  {
    var once := CleanedUp(r, leaving);
    assert LiveHandles(once.consumers) == {} && LiveHandles(once.producers) == {};
    assert once.closes + multiset({}) + multiset({}) == once.closes;
    assert once.cancelled + {} == once.cancelled;
  }

  /** In every reachable state in which all calls and loops have ended, a cleanup that comes next can run
      through, and its steps do to the shared data what the sequential method does. */
  lemma UninterruptedCleanup(s0: State, run: seq<Action>, s: State) returns (run': seq<Action>, s': State)
    requires Behaviour(s0, run, s) && forall i | 0 <= i < |s.threads| :: Ended(s.threads[i].pc)
    ensures Exec(s0, run') == Some(s')
    ensures s'.sh.reg == CleanedUp(s.sh.reg, [])
    ensures s'.threads == s.threads + [NewThread(Cleanup).(pc := Cleaning(ClnDone))]
  {
    ReachedInv(s0, run, s);
    EndedUnlocked(s);
    run', s' := WholeCleanup(s0, run, s);
  }

  lemma EndedUnlocked(s: State)
    requires LocksOk(s) && CountOk(s) && forall i | 0 <= i < |s.threads| :: Ended(s.threads[i].pc)
    ensures Unlocked(s.sh) && s.sh.reg.recvWG == 0
  {
    SumZero(s.threads, CountedW);
  }
}

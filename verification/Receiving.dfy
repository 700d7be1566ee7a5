/** What a receive loop does to messages, to the registry and to the handles. */
module Receiving {
  import opened Registry
  import opened Meaning

  // ---- Messages

  /** What a select of a receive loop picks. */
  datatype Pick = SawClose | SawCancel | SawEnd | Picked(msg: Message, outcome: Outcome)

  /** The jobs that a loop on `consumer` does for `picks` and that end as `good` says. */
  function Jobs(consumer: Handle, picks: seq<Pick>, good: bool): seq<Job> {
    if picks == [] then []
    else
      var p := picks[|picks| - 1];
      Jobs(consumer, picks[..|picks| - 1], good)
      + if p.Picked? && p.outcome.Good? == good then [Job(consumer, p.msg, p.outcome)] else []
  }

  function Panics(jobs: seq<Job>): nat {
    if jobs == [] then 0 else Panics(jobs[..|jobs| - 1]) + if jobs[|jobs| - 1].outcome.Panicked? then 1 else 0
  }

  /** What the loops of a plugin have done to messages. */
  datatype Tally = Tally(acks: seq<Job>, nacks: seq<Job>, received: nat, failed: nat)

  /** `now` is `was` after a loop on `consumer` has worked through `picks`: an Ack for every message handled
      without error and a Nack for every other one, in order, and the counters to match. */
  predicate WorkedThrough(was: Tally, now: Tally, consumer: Handle, picks: seq<Pick>) {
    var good, bad := Jobs(consumer, picks, true), Jobs(consumer, picks, false);
    && now.acks == was.acks + good && now.nacks == was.nacks + bad
    && now.received == was.received + |good| && now.failed == was.failed + |bad| + Panics(bad)
  }

  /** `now` is `was` after one more job. */
  predicate Settled(was: Tally, now: Tally, job: Job) {
    if job.outcome.Good? then now == was.(acks := was.acks + [job], received := was.received + 1)
    else now == was.(nacks := was.nacks + [job], failed := was.failed + if job.outcome.Panicked? then 2 else 1)
  }

  /** The jobs that end as `good` says. */
  function Ending(jobs: seq<Job>, good: bool): seq<Job> {
    if jobs == [] then []
    else
      var job := jobs[|jobs| - 1];
      Ending(jobs[..|jobs| - 1], good) + if job.outcome.Good? == good then [job] else []
  }

  /** `now` is `was` after all the jobs, in order: one Ack or one Nack each, and the counters to match, with a
      panic counted twice. */
  predicate AllSettled(was: Tally, now: Tally, jobs: seq<Job>) {
    var good, bad := Ending(jobs, true), Ending(jobs, false);
    && now.acks == was.acks + good && now.nacks == was.nacks + bad
    && now.received == was.received + |good| && now.failed == was.failed + |bad| + Panics(bad)
  }

  lemma OneMoreSettled(was: Tally, mid: Tally, now: Tally, jobs: seq<Job>, job: Job)
    requires AllSettled(was, mid, jobs) && Settled(mid, now, job)
    ensures AllSettled(was, now, jobs + [job])
  {
    var bad := Ending(jobs, false);
    assert (jobs + [job])[..|jobs|] == jobs;
    assert (bad + [job])[..|bad|] == bad && bad + [] == bad;
    assert Panics(bad + [job]) == Panics(bad) + if job.outcome.Panicked? then 1 else 0;
  }

  /** The jobs in hand of the loops that leave, in the order in which they leave. */
  function BusyJobs(leaving: seq<Leaver>): seq<Job> {
    if leaving == [] then []
    else
      var l := leaving[|leaving| - 1];
      BusyJobs(leaving[..|leaving| - 1]) + if l.busy.Some? then [l.busy.value] else []
  }

  lemma BusyStep(was: Tally, mid: Tally, now: Tally, leaving: seq<Leaver>, i: nat)
    requires i < |leaving| && AllSettled(was, mid, BusyJobs(leaving[..i]))
    requires if leaving[i].busy.Some? then Settled(mid, now, leaving[i].busy.value) else now == mid
    ensures AllSettled(was, now, BusyJobs(leaving[..i + 1]))
  {
    assert leaving[..i + 1][..i] == leaving[..i];
    var jobs := BusyJobs(leaving[..i]);
    assert jobs + [] == jobs;
    if leaving[i].busy.Some? {
      OneMoreSettled(was, mid, now, jobs, leaving[i].busy.value);
    }
  }

  lemma WorkStep(was: Tally, mid: Tally, now: Tally, consumer: Handle, picks: seq<Pick>, i: nat)
    requires i < |picks| && picks[i].Picked?
    requires WorkedThrough(was, mid, consumer, picks[..i])
    requires Settled(mid, now, Job(consumer, picks[i].msg, picks[i].outcome))
    ensures WorkedThrough(was, now, consumer, picks[..i + 1])
  {
    var job := Job(consumer, picks[i].msg, picks[i].outcome);
    var bad := Jobs(consumer, picks[..i], false);
    assert picks[..i + 1][..i] == picks[..i];
    assert (bad + [job])[..|bad|] == bad && bad + [] == bad;
    assert Panics(bad + [job]) == Panics(bad) + if job.outcome.Panicked? then 1 else 0;
  }

  // ---- The registry

  /** Every handle but `h` is where it was, or has been ended or lost as often as before. */
  ghost predicate OthersKept(r: Registry, r': Registry, h: Handle) {
    forall g | g != h :: Placed(r', g) == Placed(r, g)
  }

  /** The loop of regex consumer `h` is registered and goes on. */
  ghost predicate RegexStays(r: Registry, r': Registry, loop: nat, h: Handle) {
    && InMap(r', h) && h.name in r'.subscriptions && r'.subscriptions[h.name] == loop
    && NewHandle(r, r', h)
  }

  /** The loop of regex consumer `h` has come and gone, and `h` is lost. */
  ghost predicate RegexGone(r: Registry, r': Registry, h: Handle) {
    && r'.subscriptions == r.subscriptions && r'.recvWG == r.recvWG
    && !InMap(r', h) && r'.closes[h] == 0 && r'.unsubs[h] == 0 && r'.lost[h] == 1
    && OthersKept(r, r', h)
  }

  /** Only counters, wait group and contexts may differ. */
  predicate SameButLoops(r: Registry, r': Registry) {
    r' == r.(recvWG := r'.recvWG, cancelled := r'.cancelled, received := r'.received, failed := r'.failed)
  }

  /** A loop has come and gone between `r` and `r'`. */
  predicate HasRun(r: Registry, r': Registry, regex: bool, name: string, loop: nat) {
    && SameButLoops(Exit(r, regex, name), r')
    && r'.recvWG == r.recvWG && r'.cancelled == r.cancelled + {loop}
  }

  lemma LoopsExit(r: Registry, worked: Registry, r': Registry, regex: bool, name: string, loop: nat)
    requires SameButLoops(r, worked) && worked.recvWG == r.recvWG + 1 && worked.cancelled == r.cancelled
    requires r' == SignOff(Exit(worked, regex, name), loop)
    ensures HasRun(r, r', regex, name, loop)
  {}

  lemma LoopsKeepHandles(r: Registry, r': Registry)
    requires SameButLoops(r, r')
    ensures SameHandles(r, r')
  {}

  lemma RegexStaysMeans(r: Registry, r1: Registry, r2: Registry, loop: nat, h: Handle)
    requires RegexMeaning(r, r1, h.name, loop, h, Accepted(h)) && SameButLoops(r1, r2)
    ensures RegexStays(r, r2, loop, h)
  {
    LoopsKeepHandles(r1, r2);
    forall g ensures Placed(r2, g) == Placed(r, g) + if g == h then 1 else 0 {
      assert Placed(r2, g) == Placed(r1, g);
    }
  }

  lemma RegexGoneMeans(r: Registry, r1: Registry, r2: Registry, loop: nat, h: Handle)
    requires Shelved(r) && h.kind == Regex && Placed(r, h) == 0
    requires RegexMeaning(r, r1, h.name, loop, h, Accepted(h))
    requires SameButLoops(ExitRegex(r1, h.name), r2) && r2.recvWG == r.recvWG
    ensures RegexGone(r, r2, h)
  {
    LoopsKeepHandles(ExitRegex(r1, h.name), r2);
    ExitKeepsHandles(r1, true, h.name);
    ExitLeaves(r1, true, h.name);
    forall g ensures Placed(r2, g) == Placed(r, g) + if g == h then 1 else 0 {
      assert Placed(r2, g) == Placed(Exit(r1, true, h.name), g) == Placed(r1, g);
    }
    NeverEnded(r, r2, h);
  }

  lemma NeverEnded(r: Registry, r2: Registry, h: Handle)
    requires h.kind == Regex && Placed(r, h) == 0 && Placed(r2, h) == 1
    requires r2.closes == r.closes && r2.unsubs == r.unsubs && h.name !in r2.consumers
    ensures !InMap(r2, h) && r2.closes[h] == 0 && r2.unsubs[h] == 0 && r2.lost[h] == 1
  {}
}

/** Stop of the health checker and of the connection manager, called by any number of threads at once.
    Closing a closed channel panics, so the stop channel must be closed at most once. */
module StopOnce {
  import opened Registry
  import opened Sums

  // ---- HealthChecker.Stop: a flag read under the mutex, then sync.Once

  datatype Once = Fresh | Running(owner: nat) | Done

  datatype HealthPC =
    | HealthRead       // about to read stopped under the mutex
    | HealthOnce       // about to enter stopOnce.Do
    | HealthClose      // inside Do, about to close the channel
    | HealthMark       // inside Do, about to set stopped under the mutex
    | HealthLeave      // about to leave Do
    | HealthReturned

  datatype Health = Health(pcs: seq<HealthPC>, once: Once, stopped: bool, closes: nat)

  function HealthStep(s: Health, t: nat): Option<Health>
    requires t < |s.pcs|
  {
    match s.pcs[t]
    case HealthRead => Some(s.(pcs := s.pcs[t := if s.stopped then HealthReturned else HealthOnce]))
    case HealthOnce =>
      (match s.once
       case Fresh => Some(s.(pcs := s.pcs[t := HealthClose], once := Running(t)))
       case Running(_) => None
       case Done => Some(s.(pcs := s.pcs[t := HealthReturned])))
    case HealthClose => Some(s.(pcs := s.pcs[t := HealthMark], closes := s.closes + 1))
    case HealthMark => Some(s.(pcs := s.pcs[t := HealthLeave], stopped := true))
    case HealthLeave => Some(s.(pcs := s.pcs[t := HealthReturned], once := Done))
    case HealthReturned => None
  }

  predicate InsideDo(pc: HealthPC) { pc.HealthClose? || pc.HealthMark? || pc.HealthLeave? }

  predicate HealthInv(s: Health) {
    && (forall t | 0 <= t < |s.pcs| :: InsideDo(s.pcs[t]) <==> s.once == Running(t))
    && (s.once.Running? ==> s.once.owner < |s.pcs|)
    && s.closes == (if s.once.Fresh? || (s.once.Running? && s.pcs[s.once.owner].HealthClose?) then 0 else 1)
    && (s.stopped ==> s.closes == 1)
    && (forall t | 0 <= t < |s.pcs| && s.pcs[t].HealthReturned? :: s.closes == 1 && s.stopped)
    && (s.once.Done? ==> s.stopped)
    && (forall t | 0 <= t < |s.pcs| && s.pcs[t].HealthLeave? :: s.stopped)
  }

  /** A schedule: `None` is a new caller, `Some(t)` a step of thread `t`. */
  function HealthRun(s: Health, run: seq<Option<nat>>): Option<Health>
    decreases |run|
  {
    if run == [] then Some(s)
    else match run[0]
         case None => HealthRun(s.(pcs := s.pcs + [HealthRead]), run[1..])
         case Some(t) =>
           if t >= |s.pcs| then None
           else match HealthStep(s, t)
                case None => None
                case Some(s1) => HealthRun(s1, run[1..])
  }

  lemma {:induction false} HealthRunKeeps(s: Health, run: seq<Option<nat>>, s': Health)
    requires HealthInv(s) && HealthRun(s, run) == Some(s')
    ensures HealthInv(s')
    decreases |run|
  {
    if run != [] {
      match run[0]
      case None => HealthRunKeeps(s.(pcs := s.pcs + [HealthRead]), run[1..], s');
      case Some(t) =>
        HealthStepKeeps(s, t);
        HealthRunKeeps(HealthStep(s, t).value, run[1..], s');
    }
  }

  lemma HealthStepKeeps(s: Health, t: nat)
    requires HealthInv(s) && t < |s.pcs| && HealthStep(s, t).Some?
    ensures HealthInv(HealthStep(s, t).value)
  {}

  /** The channel is closed at most once, and it is closed whenever any Stop has returned. */
  lemma HealthStopOnce(run: seq<Option<nat>>, s: Health)
    requires HealthRun(Health([], Fresh, false, 0), run) == Some(s)
    ensures s.closes <= 1
    ensures forall t | 0 <= t < |s.pcs| && s.pcs[t].HealthReturned? :: s.closes == 1 && s.stopped
  {
    HealthRunKeeps(Health([], Fresh, false, 0), run, s);
  }

  /** How far a Stop still is from its end. */
  function HealthLeft(pc: HealthPC): nat {
    match pc
    case HealthRead => 5
    case HealthOnce => 4
    case HealthClose => 3
    case HealthMark => 2
    case HealthLeave => 1
    case HealthReturned => 0
  }

  /** While a Stop has not returned, some Stop can step, and every step brings the Stop that makes it nearer to
      its end and leaves the others where they are: so all of them return. */
  lemma HealthStopsEnd(run: seq<Option<nat>>, s: Health, i: nat) returns (t: nat)
    requires HealthRun(Health([], Fresh, false, 0), run) == Some(s)
    requires i < |s.pcs| && !s.pcs[i].HealthReturned?
    ensures t < |s.pcs| && HealthStep(s, t).Some?
    ensures forall k | 0 <= k < |s.pcs| && HealthStep(s, k).Some? ::
              var pcs' := HealthStep(s, k).value.pcs;
              && |pcs'| == |s.pcs| && HealthLeft(pcs'[k]) < HealthLeft(s.pcs[k])
              && forall j | 0 <= j < |s.pcs| && j != k :: pcs'[j] == s.pcs[j]
  {
    HealthRunKeeps(Health([], Fresh, false, 0), run, s);
    t := if s.once.Running? then s.once.owner else i;
  }

  // ---- ConnectionManager.Stop: the flag is set under the mutex, the channel is closed after it

  datatype ConnPC =
    | ConnLock         // about to run the locked section
    | ConnProbe        // won; about to look whether the channel is closed
    | ConnClose        // about to close it
    | ConnReturned

  datatype Conn = Conn(pcs: seq<ConnPC>, connected: bool, stopped: bool, closes: nat)

  function ConnStep(s: Conn, t: nat): Option<Conn>
    requires t < |s.pcs|
  {
    match s.pcs[t]
    case ConnLock =>
      if s.stopped then Some(s.(pcs := s.pcs[t := ConnReturned], connected := false))
      else Some(s.(pcs := s.pcs[t := ConnProbe], connected := false, stopped := true))
    case ConnProbe => Some(s.(pcs := s.pcs[t := if s.closes > 0 then ConnReturned else ConnClose]))
    case ConnClose => Some(s.(pcs := s.pcs[t := ConnReturned], closes := s.closes + 1))
    case ConnReturned => None
  }

  /** On the way to the close. */
  function WinnerW(pc: ConnPC): nat { if pc.ConnProbe? || pc.ConnClose? then 1 else 0 }

  predicate ConnInv(s: Conn) {
    && Sum(s.pcs, WinnerW) + s.closes == (if s.stopped then 1 else 0)
    && (forall t | 0 <= t < |s.pcs| && s.pcs[t].ConnReturned? :: s.stopped)
    && (s.stopped ==> !s.connected)
  }

  function ConnRun(s: Conn, run: seq<Option<nat>>): Option<Conn>
    decreases |run|
  {
    if run == [] then Some(s)
    else match run[0]
         case None => ConnRun(s.(pcs := s.pcs + [ConnLock]), run[1..])
         case Some(t) =>
           if t >= |s.pcs| then None
           else match ConnStep(s, t)
                case None => None
                case Some(s1) => ConnRun(s1, run[1..])
  }

  lemma ConnStepKeeps(s: Conn, t: nat)
    requires ConnInv(s) && t < |s.pcs| && ConnStep(s, t).Some?
    ensures ConnInv(ConnStep(s, t).value)
  {
    var s' := ConnStep(s, t).value;
    SumUpdate(s.pcs, WinnerW, t, s'.pcs[t]);
    SumAtLeast(s.pcs, WinnerW, t);
  }

  lemma ConnArrivalKeeps(s: Conn)
    requires ConnInv(s)
    ensures ConnInv(s.(pcs := s.pcs + [ConnLock]))
  {
    SumAppend(s.pcs, WinnerW, ConnLock);
  }

  lemma {:induction false} ConnRunKeeps(s: Conn, run: seq<Option<nat>>, s': Conn)
    requires ConnInv(s) && ConnRun(s, run) == Some(s')
    ensures ConnInv(s')
    decreases |run|
  {
    if run != [] {
      match run[0]
      case None =>
        ConnArrivalKeeps(s);
        ConnRunKeeps(s.(pcs := s.pcs + [ConnLock]), run[1..], s');
      case Some(t) =>
        ConnStepKeeps(s, t);
        ConnRunKeeps(ConnStep(s, t).value, run[1..], s');
    }
  }

  /** The channel is closed at most once. A Stop that has returned only promises that the flag is set: the
      channel is then closed if and only if no Stop is still on its way to the close. */
  lemma ConnStopOnce(run: seq<Option<nat>>, s: Conn)
    requires ConnRun(Conn([], true, false, 0), run) == Some(s)
    ensures s.closes <= 1
    ensures forall t | 0 <= t < |s.pcs| && s.pcs[t].ConnReturned? :: s.stopped && !s.connected
    ensures (exists t :: 0 <= t < |s.pcs| && s.pcs[t].ConnReturned?) ==>
              (s.closes == 1 <==> forall t | 0 <= t < |s.pcs| :: !s.pcs[t].ConnProbe? && !s.pcs[t].ConnClose?)
  {
    ConnRunKeeps(Conn([], true, false, 0), run, s);
    if forall t | 0 <= t < |s.pcs| :: !s.pcs[t].ConnProbe? && !s.pcs[t].ConnClose? {
      SumZero(s.pcs, WinnerW);
    } else {
      var t :| 0 <= t < |s.pcs| && (s.pcs[t].ConnProbe? || s.pcs[t].ConnClose?);
      SumAtLeast(s.pcs, WinnerW, t);
    }
  }

  function ConnLeft(pc: ConnPC): nat {
    match pc
    case ConnLock => 3
    case ConnProbe => 2
    case ConnClose => 1
    case ConnReturned => 0
  }

  /** No Stop ever waits for another: each can step until it has returned, and every step brings it nearer. */
  lemma ConnStopsEnd(s: Conn, t: nat)
    requires t < |s.pcs|
    ensures ConnStep(s, t).Some? <==> !s.pcs[t].ConnReturned?
    ensures ConnStep(s, t).Some? ==>
              var pcs' := ConnStep(s, t).value.pcs;
              && |pcs'| == |s.pcs| && ConnLeft(pcs'[t]) < ConnLeft(s.pcs[t])
              && forall j | 0 <= j < |s.pcs| && j != t :: pcs'[j] == s.pcs[j]
  {}

  /** Unlike the health checker's, a connection manager's Stop can return while the channel is open. */
  lemma ConnReturnsEarly() returns (run: seq<Option<nat>>, s: Conn)
    ensures ConnRun(Conn([], true, false, 0), run) == Some(s)
    ensures |s.pcs| == 2 && s.pcs[1].ConnReturned? && s.closes == 0
  {
    var s0, s1 := Conn([], true, false, 0), Conn([ConnLock], true, false, 0);
    var s2 := Conn([ConnLock, ConnLock], true, false, 0);
    var s3 := Conn([ConnProbe, ConnLock], false, true, 0);
    s := Conn([ConnProbe, ConnReturned], false, true, 0);
    assert s2.pcs[0 := ConnProbe] == s3.pcs && s3.pcs[1 := ConnReturned] == s.pcs;
    assert s0.pcs + [ConnLock] == s1.pcs && s1.pcs + [ConnLock] == s2.pcs;
    var r3 := [Some(1 as nat)];
    assert r3[1..] == [] && ConnStep(s3, 1) == Some(s) && ConnRun(s3, r3) == Some(s);
    var r2 := [Some(0)] + r3;
    assert r2[1..] == r3 && ConnStep(s2, 0) == Some(s3) && ConnRun(s2, r2) == Some(s);
    var r1 := [None] + r2;
    assert r1[1..] == r2 && ConnRun(s1, r1) == Some(s);
    run := [None] + r1;
    assert run[1..] == r1 && ConnRun(s0, run) == Some(s);
  }
}

/** Building concrete runs: one action at a time, the way of one loop to a handler call, and a whole cleanup
    that nobody interrupts. */
module Runs {
  import opened Registry
  import opened Protocol
  import opened Invariant
  import opened Effects
  import opened Safety

  lemma Extend(s0: State, run: seq<Action>, s: State, a: Action) returns (run': seq<Action>, s': State)
    requires Exec(s0, run) == Some(s) && Next(s, a).Some?
    ensures run' == run + [a] && Next(s, a) == Some(s') && Exec(s0, run') == Some(s')
  {
    run', s' := run + [a], Next(s, a).value;
    ExecSnoc(s0, run, s, a, s');
  }

  // ---- One loop

  function LoopAt(s: State, i: nat, pc: LoopPC): State
    requires i < |s.threads|
  {
    s.(threads := s.threads[i := s.threads[i].(pc := Looping(pc))])
  }

  /** A loop before its select gets there. */
  lemma ToSelect(s0: State, run: seq<Action>, s: State, i: nat) returns (run': seq<Action>, s': State)
    requires Exec(s0, run) == Some(s) && i < |s.threads| && Pending(s.threads[i].pc)
    ensures Exec(s0, run') == Some(s') && s'.threads == LoopAt(s, i, Select).threads
    ensures s'.sh == s.sh.(reg := s.sh.reg.(recvWG := s'.sh.reg.recvWG))
  {
    if s.threads[i].pc == Looping(Select) {
      assert LoopAt(s, i, Select).threads == s.threads;
      return run, s;
    }
    run', s' := Extend(s0, run, s, Move(i, Proceed));
  }

  /** A loop whose isClosed check comes out open gets to a handler call with the handle it works on. */
  lemma ToDispatch(s0: State, run: seq<Action>, s: State, i: nat, m: Message) returns (run': seq<Action>, s': State)
    requires Exec(s0, run) == Some(s) && i < |s.threads|
    requires Dispatching(s.threads[i].pc) || (!Sealed(s.sh) && (Pending(s.threads[i].pc) || AtGot(s.threads[i].pc)))
    ensures Exec(s0, run') == Some(s') && |s'.threads| == |s.threads|
    ensures Dispatching(s'.threads[i].pc) && s'.threads[i].handle == s.threads[i].handle
    ensures s'.sh.reg.unsubs == s.sh.reg.unsubs
  {
    run', s' := run, s;
    if Pending(s.threads[i].pc) {
      run', s' := ToSelect(s0, run', s', i);
      run', s' := Extend(s0, run', s', Move(i, Deliver(m)));
    }
    if AtGot(s'.threads[i].pc) {
      run', s' := Extend(s0, run', s', Move(i, Proceed));
    }
  }

  // ---- A whole cleanup

  /** `s` with one more call, a cleanup at `pc`, and the shared data that it leaves so far. */
  function WithCleanup(s: State, pc: CleanupPC, reg: Registry, drained: bool): State {
    State(s.threads + [NewThread(Cleanup).(pc := Cleaning(pc))], s.sh.(reg := reg, drained := drained))
  }

  predicate Unlocked(sh: Shared) {
    sh.consumerMutex == None && sh.producerMutex == None && sh.stateMutex == None
  }

  lemma CleanupMarks(s0: State, run: seq<Action>, s: State) returns (run': seq<Action>)
    requires Exec(s0, run) == Some(s) && Unlocked(s.sh)
    ensures Exec(s0, run') == Some(WithCleanup(s, ClnDrainLock, Marked(s.sh.reg), s.sh.drained))
  {
    var t := |s.threads|;
    var s';
    run', s' := Extend(s0, run, s, Start(Cleanup));
    run', s' := Extend(s0, run', s', Move(t, Proceed));
    run', s' := Extend(s0, run', s', Move(t, Proceed));
    run', s' := Extend(s0, run', s', Move(t, Proceed));
    assert s'.threads == WithCleanup(s, ClnDrainLock, Marked(s.sh.reg), s.sh.drained).threads;
  }

  lemma CleanupDrains(s0: State, run: seq<Action>, s: State, r: Registry) returns (run': seq<Action>)
    requires Exec(s0, run) == Some(WithCleanup(s, ClnDrainLock, r, s.sh.drained)) && Unlocked(s.sh)
    ensures Exec(s0, run') == Some(WithCleanup(s, ClnWait, Drained(r), s.sh.drained))
  {
    var t := |s.threads|;
    var s';
    run', s' := Extend(s0, run, WithCleanup(s, ClnDrainLock, r, s.sh.drained), Move(t, Proceed));
    run', s' := Extend(s0, run', s', Move(t, Proceed));
    run', s' := Extend(s0, run', s', Move(t, Proceed));
    assert s'.threads == WithCleanup(s, ClnWait, Drained(r), s.sh.drained).threads;
  }

  lemma CleanupWaits(s0: State, run: seq<Action>, s: State, r: Registry) returns (run': seq<Action>)
    requires Exec(s0, run) == Some(WithCleanup(s, ClnWait, r, s.sh.drained)) && r.recvWG == 0
    ensures Exec(s0, run') == Some(WithCleanup(s, ClnConsLock, r, true))
  {
    var s';
    run', s' := Extend(s0, run, WithCleanup(s, ClnWait, r, s.sh.drained), Move(|s.threads|, Proceed));
    assert s'.threads == WithCleanup(s, ClnConsLock, r, true).threads;
  }

  lemma CleanupClosesConsumers(s0: State, run: seq<Action>, s: State, r: Registry) returns (run': seq<Action>)
    requires Exec(s0, run) == Some(WithCleanup(s, ClnConsLock, r, true)) && Unlocked(s.sh)
    ensures Exec(s0, run') == Some(WithCleanup(s, ClnProdLock, CloseConsumers(r), true))
  {
    var s';
    run', s' := Extend(s0, run, WithCleanup(s, ClnConsLock, r, true), Move(|s.threads|, Proceed));
    run', s' := Extend(s0, run', s', Move(|s.threads|, Proceed));
    assert s'.threads == WithCleanup(s, ClnProdLock, CloseConsumers(r), true).threads;
  }

  lemma CleanupClosesProducers(s0: State, run: seq<Action>, s: State, r: Registry) returns (run': seq<Action>)
    requires Exec(s0, run) == Some(WithCleanup(s, ClnProdLock, r, true)) && Unlocked(s.sh)
    ensures Exec(s0, run') == Some(WithCleanup(s, ClnCliLock, CloseProducers(r), true))
  {
    var s';
    run', s' := Extend(s0, run, WithCleanup(s, ClnProdLock, r, true), Move(|s.threads|, Proceed));
    run', s' := Extend(s0, run', s', Move(|s.threads|, Proceed));
    assert s'.threads == WithCleanup(s, ClnCliLock, CloseProducers(r), true).threads;
  }

  lemma CleanupClosesClient(s0: State, run: seq<Action>, s: State, r: Registry) returns (run': seq<Action>)
    requires Exec(s0, run) == Some(WithCleanup(s, ClnCliLock, r, true)) && Unlocked(s.sh)
    ensures Exec(s0, run') == Some(WithCleanup(s, ClnDone, CloseClient(r), true))
  {
    var s';
    run', s' := Extend(s0, run, WithCleanup(s, ClnCliLock, r, true), Move(|s.threads|, Proceed));
    run', s' := Extend(s0, run', s', Move(|s.threads|, Proceed));
    assert s'.threads == WithCleanup(s, ClnDone, CloseClient(r), true).threads;
  }

  /** A cleanup that starts while no mutex is held and no loop is counted can run through, whatever else the
      other calls are about to do. */
  lemma WholeCleanup(s0: State, run: seq<Action>, s: State) returns (run': seq<Action>, s': State)
    requires Exec(s0, run) == Some(s) && Unlocked(s.sh) && s.sh.reg.recvWG == 0
    ensures Exec(s0, run') == Some(s')
    ensures s' == WithCleanup(s, ClnDone,
                    CloseClient(CloseProducers(CloseConsumers(Drained(Marked(s.sh.reg))))), true)
  {
    var r := s.sh.reg;
    run' := CleanupMarks(s0, run, s);
    run' := CleanupDrains(s0, run', s, Marked(r));
    run' := CleanupWaits(s0, run', s, Drained(Marked(r)));
    run' := CleanupClosesConsumers(s0, run', s, Drained(Marked(r)));
    run' := CleanupClosesProducers(s0, run', s, CloseConsumers(Drained(Marked(r))));
    run' := CleanupClosesClient(s0, run', s, CloseProducers(CloseConsumers(Drained(Marked(r)))));
    s' := WithCleanup(s, ClnDone, CloseClient(CloseProducers(CloseConsumers(Drained(Marked(r))))), true);
  }
}

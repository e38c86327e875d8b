/** The driver's own lock flag beside the lock row (CasRestoreOnErr of database/util.go): who it is
    set for, why unlock always finds it set, and the one way it can be lost. */
module DriverFlag {
  import opened Types
  import opened Engine
  import opened System
  import opened LockSafety

  /** The call has begun to give the lock back, so that the flag is no longer set for it. */
  predicate GivingBack(call: Call) {
    call.pc.UnlockDelete? || call.pc.UnlockRestore? || (call.pc.Done? && call.entered)
  }

  /** A lock attempt between swapping the flag and its end. */
  predicate UnderWay(call: Call) {
    call.locker.InTx? || call.locker.Restoring?
  }

  /** The flag is set on behalf of this call. */
  predicate Uses(call: Call) {
    UnderWay(call) || (Owns(call) && !GivingBack(call))
  }

  /** What a returned call can say of its unlock. */
  predicate ReturnOk(call: Call) {
    call.pc.Done? ==>
      && call.pc.result.unlockErr != Some(NotLocked)
      && (call.entered && Owns(call) ==> call.pc.result.unlockErr == Some(DriverFault))
  }

  predicate FlagAt(s: State, c: nat)
    requires c in s.calls
  {
    var call := s.calls[c];
    && call.inst in s.insts && ReturnOk(call)
    && (Uses(call) ==> s.insts[call.inst].driverFlag)
  }

  ghost predicate FlagInv(s: State) {
    && (forall c :: c in s.calls ==> FlagAt(s, c))
    && (forall c, d :: c in s.calls && d in s.calls ==> OneUser(s, c, d))
  }

  predicate OneUser(s: State, c: nat, d: nat)
    requires c in s.calls && d in s.calls
  {
    s.calls[c].inst == s.calls[d].inst && Uses(s.calls[c]) && Uses(s.calls[d]) ==> c == d
  }

  lemma InitialFlagInv(s: State)
    requires Initial(s)
    ensures FlagInv(s)
  {
  }

  /** What an action may do to the flag: whoever uses it has it set, only its user clears it, and
      nobody starts to use it while it is set. */
  predicate FlagEffect(v: View, w: View) {
    && ReturnOk(w.call)
    && (Uses(w.call) ==> w.inst.driverFlag)
    && (v.inst.driverFlag && !w.inst.driverFlag ==> Uses(v.call))
    && (Uses(w.call) && !Uses(v.call) ==> !v.inst.driverFlag)
  }

  predicate FlagView(v: View) {
    ReturnOk(v.call) && (Uses(v.call) ==> v.inst.driverFlag)
  }

  lemma LockActionFlag(v: View, c: nat, step: Step, w: View)
    requires ViewOk(v, c) && FlagView(v) && LockAction(v, c, step) == Some(w)
    ensures FlagEffect(v, w)
  {
  }

  lemma UnlockActionFlag(v: View, c: nat, step: Step, w: View)
    requires ViewOk(v, c) && FlagView(v) && UnlockAction(v, c, step) == Some(w)
    ensures FlagEffect(v, w)
  {
  }

  /** The lock half of a call is as it was, and its place before or after the unlock too. */
  predicate LockUntouched(v: View, w: View) {
    && w.inst.driverFlag == v.inst.driverFlag && w.call.locker == v.call.locker
    && w.call.released == v.call.released && w.call.entered == v.call.entered
    && (w.call.pc == v.call.pc || (AtWork(v.call.pc) && AtWork(w.call.pc)))
  }

  /** Between lock() and the swap of the flag in unlock(). */
  predicate AtWork(pc: Pc) {
    Critical(pc) && !pc.UnlockDelete? && !pc.UnlockRestore?
  }

  lemma OpenKeepsFlag(p: Planning, v: View, c: nat, step: Step, w: View)
    requires OpenAction(p, v, c, step) == Some(w)
    ensures LockUntouched(v, w)
  {
  }

  lemma ReaderKeepsFlag(v: View, step: Step, w: View)
    requires ReaderAction(v, step) == Some(w)
    ensures LockUntouched(v, w)
  {
  }

  lemma ConsumerKeepsFlag(v: View, c: nat, step: Step, w: View)
    requires ReceiveAction(v, c, step) == Some(w) || ConsumerPollAction(v, c) == Some(w)
    ensures LockUntouched(v, w)
  {
  }

  lemma MigrateKeepsFlag(v: View, c: nat, step: Step, w: View)
    requires MigrateAction(v, c, step) == Some(w)
    ensures LockUntouched(v, w)
  {
  }

  /** Nothing between lock() and unlock() touches the flag. */
  lemma WorkKeepsFlag(p: Planning, v: View, c: nat, step: Step, w: View)
    requires !LockStep(step) && CallAction(p, v, c, step) == Some(w)
    ensures LockUntouched(v, w)
  {
    match step
    case ReadVersion(_) | WriteForce(_) => OpenKeepsFlag(p, v, c, step, w);
    case ReaderPoll | ReaderLook | ReaderSend | ReaderFault | ReaderClose => ReaderKeepsFlag(v, step, w);
    case Handoff | Take | SeeClosed | ConsumerPoll => ConsumerKeepsFlag(v, c, step, w);
    case SetDirty(_) | RunMigration(_) | SetClean(_) => MigrateKeepsFlag(v, c, step, w);
  }

  lemma UntouchedEffect(v: View, w: View)
    requires FlagView(v) && LockUntouched(v, w)
    ensures FlagEffect(v, w)
  {
  }

  lemma LockStepsFlag(p: Planning, v: View, c: nat, step: Step, w: View)
    requires LockStep(step) && ViewOk(v, c) && FlagView(v) && CallAction(p, v, c, step) == Some(w)
    ensures FlagEffect(v, w)
  {
    match step
    case CallBegin | LockerCas | LockerTx(_) | LockerRestore | LockReturn | LockTimedOut =>
      LockActionFlag(v, c, step, w);
    case UnlockAcquire | UnlockCas | DeleteRow(_) | RestoreFlag | ClearLocked =>
      UnlockActionFlag(v, c, step, w);
  }

  lemma CallActionFlag(p: Planning, v: View, c: nat, step: Step, w: View)
    requires ViewOk(v, c) && FlagView(v) && CallAction(p, v, c, step) == Some(w)
    ensures FlagEffect(v, w)
  {
    if LockStep(step) {
      LockStepsFlag(p, v, c, step, w);
    } else {
      WorkKeepsFlag(p, v, c, step, w);
      UntouchedEffect(v, w);
    }
  }

  lemma EffectKeepsFlagInv(s: State, c: nat, w: View)
    requires LockInv(s) && FlagInv(s) && c in s.calls && s.calls[c].inst in s.insts
    requires FlagEffect(ViewOf(s, c), w) && w.call.inst == s.calls[c].inst
    ensures FlagInv(WriteBack(s, c, w))
  {
    var s' := WriteBack(s, c, w);
    forall d | d in s'.calls ensures FlagAt(s', d) {
      assert FlagAt(s, d) && OneUser(s, c, d);
    }
    forall d, e | d in s'.calls && e in s'.calls ensures OneUser(s', d, e) {
      assert OneUser(s, d, e) && FlagAt(s, d) && FlagAt(s, e);
    }
  }

  lemma StepKeepsFlagInv(p: Planning, s: State, a: Action, s': State)
    requires LockInv(s) && FlagInv(s) && Apply(p, s, a) == Some(s')
    ensures LockInv(s') && FlagInv(s')
  {
    StepKeepsLockInv(p, s, a, s');
    match a
    case Signal(i) =>
      forall d | d in s'.calls ensures FlagAt(s', d) { assert FlagAt(s, d); }
      forall d, e | d in s'.calls && e in s'.calls ensures OneUser(s', d, e) { assert OneUser(s, d, e); }
    case Act(c, step) =>
      assert CallInv(s, c) && FlagAt(s, c);
      CallActionFlag(p, ViewOf(s, c), c, step, ViewOf(s', c));
      EffectKeepsFlagInv(s, c, ViewOf(s', c));
  }

  lemma {:induction false} RunKeepsFlagInv(p: Planning, s: State, actions: seq<Action>, n: nat)
    requires n <= |actions| && LockInv(s) && FlagInv(s)
    ensures Run(p, s, actions, n).Some? ==>
              LockInv(Run(p, s, actions, n).value) && FlagInv(Run(p, s, actions, n).value)
  {
    if n > 0 {
      RunKeepsFlagInv(p, s, actions, n - 1);
      if Run(p, s, actions, n).Some? {
        StepKeepsFlagInv(p, Run(p, s, actions, n - 1).value, actions[n - 1], Run(p, s, actions, n).value);
      }
    }
  }

  lemma ReachableFlagInv(p: Planning, s: State, actions: seq<Action>, s': State)
    requires Reaches(p, s, actions, s')
    ensures LockInv(s') && FlagInv(s')
  {
    InitialLockInv(s);
    InitialFlagInv(s);
    RunKeepsFlagInv(p, s, actions, |actions|);
  }

  /** Over all runs, a call that has the lock and has not begun to delete the row holds both halves
      of it, the flag and the row; so no unlock ever answers that it was not locked. */
  lemma HolderHasFlagAndRow(p: Planning, s: State, actions: seq<Action>, s': State, c: nat)
    requires Reaches(p, s, actions, s') && c in s'.calls
    ensures Critical(s'.calls[c].pc) && !s'.calls[c].pc.UnlockDelete? && !s'.calls[c].pc.UnlockRestore? ==>
              s'.row == Some(c) && s'.calls[c].inst in s'.insts && s'.insts[s'.calls[c].inst].driverFlag
    ensures s'.calls[c].pc.Done? ==> s'.calls[c].pc.result.unlockErr != Some(NotLocked)
  {
    ReachableFlagInv(p, s, actions, s');
    assert CallInv(s', c) && FlagAt(s', c);
  }

  /** When isLocked is set and the mutex is free, the row is this instance's, and the flag is set
      too unless the call that has the row returned from a failed unlock. */
  lemma LockedMeansHeld(p: Planning, s: State, actions: seq<Action>, s': State, i: nat)
    requires Reaches(p, s, actions, s') && i in s'.insts && s'.insts[i].isLocked && s'.insts[i].mutex.None?
    ensures s'.row.Some? && s'.row.value in s'.calls && s'.calls[s'.row.value].inst == i
    ensures var pc := s'.calls[s'.row.value].pc;
            s'.insts[i].driverFlag || (pc.Done? && pc.result.unlockErr == Some(DriverFault))
  {
    ReachableFlagInv(p, s, actions, s');
    assert HeldBySome(s', i);
    var c :| c in s'.calls && s'.calls[c].inst == i && Holder(s'.calls[c]);
    assert CallInv(s', c) && FlagAt(s', c);
  }

  // ----- the flag after a failed unlock ----------------------------------------------------

  /** Call c returned from a failed unlock: the row is its own for good. */
  predicate UnlockFailed(s: State, c: nat) {
    c in s.calls && s.calls[c].pc.Done? && s.calls[c].entered && Owns(s.calls[c]) && s.calls[c].inst in s.insts
  }

  /** No lock attempt of the instance is between swapping and restoring the flag. */
  predicate NoneUnderWay(s: State, i: nat) {
    forall d :: d in s.calls && s.calls[d].inst == i ==> !UnderWay(s.calls[d])
  }

  ghost predicate FlagSafe(s: State, c: nat) {
    UnlockFailed(s, c) && s.insts[s.calls[c].inst].driverFlag && NoneUnderWay(s, s.calls[c].inst)
  }

  lemma SafeStep(p: Planning, v: View, d: nat, step: Step, w: View)
    requires ViewOk(v, d) && CallAction(p, v, d, step) == Some(w)
    requires v.row.Some? && (v.row != Some(d) || v.call.pc.Done?)
    requires v.inst.driverFlag && !UnderWay(v.call)
    ensures w.inst.driverFlag && !UnderWay(w.call)
  {
    if !LockStep(step) { WorkKeepsFlag(p, v, d, step, w); }
  }

  lemma SafeView(s: State, d: nat, w: View, c: nat)
    requires FlagSafe(s, c) && d in s.calls && s.calls[d].inst in s.insts && LockEffect(ViewOf(s, d), w, d)
    requires Owns(w.call) == Owns(s.calls[d])
    requires s.calls[d].inst == s.calls[c].inst ==> w.inst.driverFlag && !UnderWay(w.call)
    ensures FlagSafe(WriteBack(s, d, w), c) && WriteBack(s, d, w).calls[c].inst == s.calls[c].inst
  {
  }

  lemma SafeAct(p: Planning, s: State, a: Action, s': State, c: nat)
    requires LockInv(s) && FlagSafe(s, c) && Apply(p, s, a) == Some(s')
    ensures LockInv(s') && FlagSafe(s', c) && s'.calls[c].inst == s.calls[c].inst
  {
    StepKeepsLockInv(p, s, a, s');
    if a.Act? {
      SafeCall(p, s, a.c, a.step, ViewOf(s', a.c), c);
      SafeView(s, a.c, ViewOf(s', a.c), c);
    }
  }

  lemma SafeCall(p: Planning, s: State, d: nat, step: Step, w: View, c: nat)
    requires LockInv(s) && FlagSafe(s, c) && d in s.calls && s.calls[d].inst in s.insts
    requires CallAction(p, ViewOf(s, d), d, step) == Some(w)
    ensures Owns(w.call) == Owns(s.calls[d])
    ensures s.calls[d].inst == s.calls[c].inst ==> w.inst.driverFlag && !UnderWay(w.call)
  {
    assert CallInv(s, c) && CallInv(s, d);
    BlockedStep(p, ViewOf(s, d), d, step, w);
    if s.calls[d].inst == s.calls[c].inst { SafeStep(p, ViewOf(s, d), d, step, w); }
  }

  lemma {:induction false} SafeRun(p: Planning, s: State, actions: seq<Action>, n: nat, c: nat)
    requires LockInv(s) && FlagSafe(s, c) && n <= |actions| && Run(p, s, actions, n).Some?
    ensures LockInv(Run(p, s, actions, n).value) && FlagSafe(Run(p, s, actions, n).value, c)
    ensures Run(p, s, actions, n).value.calls[c].inst == s.calls[c].inst
  {
    if n > 0 {
      SafeRun(p, s, actions, n - 1, c);
      var t, t' := Run(p, s, actions, n - 1).value, Run(p, s, actions, n).value;
      SafeAct(p, t, actions[n - 1], t', c);
    }
  }

  /** An attempt under way on the instance can end, and then clears the flag: its transaction finds
      the row taken, or fails. */
  lemma AttemptClears(p: Planning, s: State, d: nat) returns (t: State)
    requires d in s.calls && s.calls[d].inst in s.insts && UnderWay(s.calls[d])
    ensures CanReach(p, s, t) && s.calls[d].inst in t.insts && !t.insts[s.calls[d].inst].driverFlag
  {
    if s.calls[d].locker.InTx? {
      var mid := AttemptFails(p, s, d);
      t := AttemptRestores(p, mid, d);
      ReachThen(p, s, mid, t);
    } else {
      t := AttemptRestores(p, s, d);
    }
  }

  lemma AttemptFails(p: Planning, s: State, d: nat) returns (t: State)
    requires d in s.calls && s.calls[d].inst in s.insts && s.calls[d].locker.InTx?
    ensures CanReach(p, s, t) && d in t.calls && t.calls[d].inst == s.calls[d].inst
    ensures t.calls[d].inst in t.insts && t.calls[d].locker.Restoring?
  {
    var w := LockAction(ViewOf(s, d), d, LockerTx(true)).value;
    t := WriteBack(s, d, w);
    ReachOne(p, s, Act(d, LockerTx(true)), t);
  }

  lemma AttemptRestores(p: Planning, s: State, d: nat) returns (t: State)
    requires d in s.calls && s.calls[d].inst in s.insts && s.calls[d].locker.Restoring?
    ensures CanReach(p, s, t) && s.calls[d].inst in t.insts && !t.insts[s.calls[d].inst].driverFlag
  {
    var w := LockAction(ViewOf(s, d), d, LockerRestore).value;
    t := WriteBack(s, d, w);
    ReachOne(p, s, Act(d, LockerRestore), t);
  }

  ghost predicate FlagIn(s: State, i: nat) {
    i in s.insts && s.insts[i].driverFlag
  }

  /** After a failed unlock the driver keeps both halves of the lock, flag and row, in every
      continuation, if and only if the flag is set now and no timed-out lock attempt of the same
      instance is still under way. */
  lemma FlagSurvivesIff(p: Planning, s: State, before: seq<Action>, t: State, c: nat)
    requires Reaches(p, s, before, t) && UnlockFailed(t, c)
    ensures var i := t.calls[c].inst;
            (forall u :: CanReach(p, t, u) ==> FlagIn(u, i))
            <==> FlagIn(t, i) && NoneUnderWay(t, i)
  {
    RunKeepsLockInv(p, s, before, |before|);
    var i := t.calls[c].inst;
    if FlagIn(t, i) && NoneUnderWay(t, i) {
      forall u | CanReach(p, t, u) ensures FlagIn(u, i) {
        var actions :| RunsTo(p, t, actions, u);
        SafeRun(p, t, actions, |actions|, c);
      }
    } else if !FlagIn(t, i) {
      ReachSelf(p, t);
    } else {
      var d :| d in t.calls && t.calls[d].inst == i && UnderWay(t.calls[d]);
      var u := AttemptClears(p, t, d);
    }
  }
}

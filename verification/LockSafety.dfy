/** Safety of the lock over every run: the lock row has one owner, only the owner is inside
    the locked region, and isLocked implies ownership whenever the mutex is free. */
module LockSafety {
  import opened Types
  import opened Engine
  import opened System

  /** The lock row was inserted by this call's lock attempt and not deleted since. */
  predicate Owns(call: Call) {
    call.locker.Got? && !call.released
  }

  /** Between the return of lock() and the deletion of the row. */
  predicate Critical(pc: Pc) {
    !(pc.Start? || pc.LockWait? || pc.UnlockClear? || pc.Done?)
  }

  predicate HoldsMutex(pc: Pc) {
    pc.LockWait? || pc.UnlockHeld? || pc.UnlockDelete? || pc.UnlockRestore? || pc.UnlockClear?
  }

  /** This call set isLocked and has not cleared it. */
  predicate Holder(call: Call) {
    call.entered && (Owns(call) || call.pc.UnlockClear?)
  }

  predicate CallOk(call: Call) {
    && (Critical(call.pc) ==> Owns(call) && call.entered)
    && (call.pc.Start? ==> call.locker.Unborn? && !call.released && !call.entered)
    && (call.pc.LockWait? ==> !call.locker.Unborn? && !call.released && !call.entered)
    && (call.pc.UnlockClear? ==> call.locker.Got? && call.released && call.entered)
    && (call.entered ==> call.locker.Got?)
    && (call.released ==> call.entered)
    && CmdOk(call.cmd)
  }

  predicate CallInv(s: State, c: nat)
    requires c in s.calls
  {
    var call := s.calls[c];
    && call.inst in s.insts
    && CallOk(call)
    && (s.row == Some(c) <==> Owns(call))
    && (HoldsMutex(call.pc) <==> s.insts[call.inst].mutex == Some(c))
  }

  ghost predicate HeldBySome(s: State, i: nat) {
    exists c :: c in s.calls && s.calls[c].inst == i && Holder(s.calls[c])
  }

  ghost predicate LockInv(s: State) {
    && (forall c :: c in s.calls ==> CallInv(s, c))
    && (s.row.Some? ==> s.row.value in s.calls)
    && (forall i :: i in s.insts && s.insts[i].isLocked ==> HeldBySome(s, i))
    && (forall i :: i in s.insts ==> MutexOk(s, i))
  }

  /** The mutex of an instance is held by one of its own calls. */
  predicate MutexOk(s: State, i: nat)
    requires i in s.insts
  {
    var owner := s.insts[i].mutex;
    owner.Some? ==> owner.value in s.calls && s.calls[owner.value].inst == i
  }

  lemma InitialLockInv(s: State)
    requires Initial(s)
    ensures LockInv(s)
  {
  }

  /** The invariant of the acting call, in its own view. */
  predicate ViewOk(v: View, c: nat) {
    && CallOk(v.call)
    && (v.row == Some(c) <==> Owns(v.call))
    && (HoldsMutex(v.call.pc) <==> v.inst.mutex == Some(c))
  }

  /** What one action may do to the shared lock state. */
  predicate LockEffect(v: View, w: View, c: nat) {
    && ViewOk(w, c)
    // the row is taken when free and freed by its owner only
    && (w.row == v.row || v.row.None? || v.row == Some(c))
    && (w.row == v.row || w.row.None? || w.row == Some(c))
    // the mutex is taken when free and released by its holder only
    && (w.inst.mutex == v.inst.mutex || v.inst.mutex.None? || v.inst.mutex == Some(c))
    && (w.inst.mutex == v.inst.mutex || w.inst.mutex.None? || w.inst.mutex == Some(c))
    // isLocked is set by the holder and survives until it clears it
    && (w.inst.isLocked ==> (Holder(w.call) || (v.inst.isLocked && !Holder(v.call))))
    // a call that returned never moves again
    && (v.call.pc.Done? ==> w.call.pc == v.call.pc && w.call.entered == v.call.entered)
    && w.call.cmd == v.call.cmd && w.call.inst == v.call.inst
    && (w.inst.stopFlag || !v.inst.stopFlag)
  }

  lemma LockActionEffect(v: View, c: nat, step: Step, w: View)
    requires ViewOk(v, c) && LockAction(v, c, step) == Some(w)
    ensures LockEffect(v, w, c)
  {
  }

  lemma UnlockActionEffect(v: View, c: nat, step: Step, w: View)
    requires ViewOk(v, c) && UnlockAction(v, c, step) == Some(w)
    ensures LockEffect(v, w, c)
  {
  }

  lemma OpenActionEffect(p: Planning, v: View, c: nat, step: Step, w: View)
    requires ViewOk(v, c) && OpenAction(p, v, c, step) == Some(w)
    ensures LockEffect(v, w, c)
  {
  }

  lemma ReaderActionEffect(v: View, c: nat, step: Step, w: View)
    requires ViewOk(v, c) && ReaderAction(v, step) == Some(w)
    ensures LockEffect(v, w, c)
  {
  }

  lemma ReceiveActionEffect(v: View, c: nat, step: Step, w: View)
    requires ViewOk(v, c) && ReceiveAction(v, c, step) == Some(w)
    ensures LockEffect(v, w, c)
  {
  }

  lemma ConsumerPollEffect(v: View, c: nat, w: View)
    requires ViewOk(v, c) && ConsumerPollAction(v, c) == Some(w)
    ensures LockEffect(v, w, c)
  {
  }

  lemma MigrateActionEffect(v: View, c: nat, step: Step, w: View)
    requires ViewOk(v, c) && MigrateAction(v, c, step) == Some(w)
    ensures LockEffect(v, w, c)
  {
  }

  lemma CallActionEffect(p: Planning, v: View, c: nat, step: Step, w: View)
    requires ViewOk(v, c) && CallAction(p, v, c, step) == Some(w)
    ensures LockEffect(v, w, c)
  {
    match step
    case CallBegin | LockerCas | LockerTx(_) | LockerRestore | LockReturn | LockTimedOut =>
      LockActionEffect(v, c, step, w);
    case ReadVersion(_) | WriteForce(_) => OpenActionEffect(p, v, c, step, w);
    case ReaderPoll | ReaderLook | ReaderSend | ReaderFault | ReaderClose => ReaderActionEffect(v, c, step, w);
    case Handoff | Take | SeeClosed => ReceiveActionEffect(v, c, step, w);
    case ConsumerPoll => ConsumerPollEffect(v, c, w);
    case SetDirty(_) | RunMigration(_) | SetClean(_) => MigrateActionEffect(v, c, step, w);
    case UnlockAcquire | UnlockCas | DeleteRow(_) | RestoreFlag | ClearLocked =>
      UnlockActionEffect(v, c, step, w);
  }

  lemma EffectKeepsCalls(s: State, c: nat, w: View, d: nat)
    requires LockInv(s) && c in s.calls && s.calls[c].inst in s.insts && d in s.calls
    requires LockEffect(ViewOf(s, c), w, c)
    ensures CallInv(WriteBack(s, c, w), d)
  {
    assert CallInv(s, c) && CallInv(s, d);
  }

  lemma EffectKeepsInsts(s: State, c: nat, w: View, j: nat)
    requires LockInv(s) && c in s.calls && s.calls[c].inst in s.insts && j in s.insts
    requires LockEffect(ViewOf(s, c), w, c)
    ensures MutexOk(WriteBack(s, c, w), j)
    ensures WriteBack(s, c, w).insts[j].isLocked ==> HeldBySome(WriteBack(s, c, w), j)
  {
    var s' := WriteBack(s, c, w);
    assert MutexOk(s, j);
    if s'.insts[j].isLocked {
      if j == s.calls[c].inst && Holder(w.call) {
        assert s'.calls[c].inst == j && Holder(s'.calls[c]);
      } else {
        assert HeldBySome(s, j);
        var d :| d in s.calls && s.calls[d].inst == j && Holder(s.calls[d]);
        assert s'.calls[d] == s.calls[d];
      }
    }
  }

  lemma EffectKeepsInv(s: State, c: nat, w: View)
    requires LockInv(s) && c in s.calls && s.calls[c].inst in s.insts
    requires LockEffect(ViewOf(s, c), w, c)
    ensures LockInv(WriteBack(s, c, w))
  {
    var s' := WriteBack(s, c, w);
    assert CallInv(s, c);
    forall d | d in s'.calls ensures CallInv(s', d) { EffectKeepsCalls(s, c, w, d); }
    forall j | j in s'.insts ensures MutexOk(s', j) && (s'.insts[j].isLocked ==> HeldBySome(s', j)) {
      EffectKeepsInsts(s, c, w, j);
    }
  }

  lemma StepKeepsLockInv(p: Planning, s: State, a: Action, s': State)
    requires LockInv(s) && Apply(p, s, a) == Some(s')
    ensures LockInv(s')
    ensures s'.calls.Keys == s.calls.Keys && s'.insts.Keys == s.insts.Keys
    ensures a.Act? ==>
              a.c in s.calls && s.calls[a.c].inst in s.insts
              && LockEffect(ViewOf(s, a.c), ViewOf(s', a.c), a.c)
              && s' == WriteBack(s, a.c, ViewOf(s', a.c))
              && CallAction(p, ViewOf(s, a.c), a.c, a.step) == Some(ViewOf(s', a.c))
  {
    match a
    case Signal(i) =>
      forall d | d in s'.calls ensures CallInv(s', d) { assert CallInv(s, d); }
      forall j | j in s'.insts ensures MutexOk(s', j) { assert MutexOk(s, j); }
      forall j | j in s'.insts && s'.insts[j].isLocked ensures HeldBySome(s', j) {
        assert HeldBySome(s, j);
      }
    case Act(c, step) =>
      assert CallInv(s, c);
      var w := CallAction(p, ViewOf(s, c), c, step).value;
      CallActionEffect(p, ViewOf(s, c), c, step, w);
      EffectKeepsInv(s, c, w);
  }

  lemma {:induction false} RunKeepsLockInv(p: Planning, s: State, actions: seq<Action>, n: nat)
    requires n <= |actions| && Initial(s)
    ensures Run(p, s, actions, n).Some? ==> LockInv(Run(p, s, actions, n).value)
  {
    if n == 0 {
      InitialLockInv(s);
    } else {
      RunKeepsLockInv(p, s, actions, n - 1);
      if Run(p, s, actions, n).Some? {
        StepKeepsLockInv(p, Run(p, s, actions, n - 1).value, actions[n - 1],
                         Run(p, s, actions, n).value);
      }
    }
  }

  /** Over every interleaving, with lock refusals, timeouts, late acquisitions and failed
      unlocks: at most one call is inside the locked region, it owns the lock row, and
      isLocked implies, whenever the mutex is free, that this instance owns the row. */
  lemma MutualExclusion(p: Planning, s: State, actions: seq<Action>, s': State)
    requires Reaches(p, s, actions, s')
    ensures forall c, d :: c in s'.calls && d in s'.calls ==>
              (Critical(s'.calls[c].pc) && Critical(s'.calls[d].pc) ==> c == d)
    ensures forall c :: c in s'.calls && Critical(s'.calls[c].pc) ==> s'.row == Some(c)
    ensures forall i :: i in s'.insts && s'.insts[i].isLocked && s'.insts[i].mutex.None? ==>
              s'.row.Some? && s'.row.value in s'.calls && s'.calls[s'.row.value].inst == i
  {
    RunKeepsLockInv(p, s, actions, |actions|);
    assert forall c :: c in s'.calls ==> CallInv(s', c);
    forall i | i in s'.insts && s'.insts[i].isLocked && s'.insts[i].mutex.None?
      ensures s'.row.Some? && s'.row.value in s'.calls && s'.calls[s'.row.value].inst == i
    {
      assert HeldBySome(s', i);
      var c :| c in s'.calls && s'.calls[c].inst == i && Holder(s'.calls[c]);
      assert CallInv(s', c);
    }
  }

  /** Only the owner of the row, after its lock() succeeded, changes the register or runs a
      body; so a caller whose lock failed or timed out never does. */
  lemma OnlyOwnerWrites(p: Planning, s: State, a: Action, s': State)
    requires LockInv(s) && Apply(p, s, a) == Some(s')
    ensures s'.db != s.db ==>
              a.Act? && a.c in s.calls && s.row == Some(a.c)
              && s.calls[a.c].entered && Critical(s.calls[a.c].pc)
  {
    if a.Act? {
      assert CallInv(s, a.c);
      WritesInRegion(p, ViewOf(s, a.c), a.c, a.step, CallAction(p, ViewOf(s, a.c), a.c, a.step).value);
    }
  }

  lemma WritesInRegion(p: Planning, v: View, c: nat, step: Step, w: View)
    requires CallAction(p, v, c, step) == Some(w)
    ensures w.db != v.db ==> Critical(v.call.pc)
  {
  }

  /** A call that returned without entering stays out for good. */
  lemma DoneIsFinal(p: Planning, s: State, a: Action, s': State, c: nat)
    requires LockInv(s) && Apply(p, s, a) == Some(s')
    requires c in s.calls && s.calls[c].pc.Done?
    ensures c in s'.calls && s'.calls[c].pc == s.calls[c].pc && s'.calls[c].entered == s.calls[c].entered
  {
    StepKeepsLockInv(p, s, a, s');
    if a.Act? { DoneInView(s, a.c, ViewOf(s', a.c), c); }
  }

  lemma DoneInView(s: State, d: nat, w: View, c: nat)
    requires d in s.calls && s.calls[d].inst in s.insts && LockEffect(ViewOf(s, d), w, d)
    requires c in s.calls && s.calls[c].pc.Done?
    ensures var s' := WriteBack(s, d, w);
            c in s'.calls && s'.calls[c].pc == s.calls[c].pc && s'.calls[c].entered == s.calls[c].entered
  {
  }

  // ----- a lock that nobody gives back ------------------------------------------------

  /** The call will never delete the row: it has returned, or is about to because its unlock
      failed. */
  predicate PastDelete(pc: Pc) {
    pc.Done? || pc.UnlockRestore?
  }

  /** The lock row belongs to a call that will never delete it: its lock attempt succeeded after
      it had timed out, or its unlock failed. */
  predicate Orphan(s: State, c: nat) {
    c in s.calls && PastDelete(s.calls[c].pc) && Owns(s.calls[c])
  }

  /** While the row is held by another call, or by one that has returned, a call gets nowhere. */
  lemma BlockedStep(p: Planning, v: View, d: nat, step: Step, w: View)
    requires ViewOk(v, d) && CallAction(p, v, d, step) == Some(w)
    requires v.row.Some? && (v.row != Some(d) || PastDelete(v.call.pc))
    ensures w.row == v.row && w.db == v.db && w.history == v.history
    ensures PastDelete(v.call.pc) ==> PastDelete(w.call.pc)
    ensures w.call.entered == v.call.entered && Owns(w.call) == Owns(v.call)
  {
    if LockStep(step) { BlockedLocking(p, v, d, step, w); } else { BlockedWorking(p, v, d, step, w); }
  }

  lemma BlockedLocking(p: Planning, v: View, d: nat, step: Step, w: View)
    requires LockStep(step) && ViewOk(v, d) && CallAction(p, v, d, step) == Some(w)
    requires v.row.Some? && (v.row != Some(d) || PastDelete(v.call.pc))
    ensures w.row == v.row && w.db == v.db && w.history == v.history
    ensures PastDelete(v.call.pc) ==> PastDelete(w.call.pc)
    ensures w.call.entered == v.call.entered && Owns(w.call) == Owns(v.call)
  {
  }

  lemma BlockedWorking(p: Planning, v: View, d: nat, step: Step, w: View)
    requires !LockStep(step) && ViewOk(v, d) && CallAction(p, v, d, step) == Some(w)
    requires v.row.Some? && (v.row != Some(d) || PastDelete(v.call.pc))
    ensures w.row == v.row && w.db == v.db && w.history == v.history && w.call.pc == v.call.pc
    ensures w.call.entered == v.call.entered && w.call.locker == v.call.locker && w.call.released == v.call.released
  {
  }

  /** Nothing that matters changes. */
  predicate Frozen(s: State, s': State) {
    && s'.row == s.row && s'.db == s.db && s'.history == s.history && s'.calls.Keys == s.calls.Keys
    && forall d :: d in s.calls ==> s'.calls[d].entered == s.calls[d].entered
  }

  lemma BlockedView(s: State, d: nat, w: View, c: nat)
    requires LockInv(s) && Orphan(s, c) && d in s.calls && s.calls[d].inst in s.insts
    requires LockEffect(ViewOf(s, d), w, d)
    requires w.row == s.row && w.db == s.db && w.history == s.history
    requires w.call.entered == s.calls[d].entered && Owns(w.call) == Owns(s.calls[d])
    requires PastDelete(s.calls[d].pc) ==> PastDelete(w.call.pc)
    ensures Orphan(WriteBack(s, d, w), c) && Frozen(s, WriteBack(s, d, w))
  {
  }

  lemma OrphanStays(p: Planning, s: State, a: Action, s': State, c: nat)
    requires LockInv(s) && Orphan(s, c) && Apply(p, s, a) == Some(s')
    ensures LockInv(s') && Orphan(s', c) && Frozen(s, s')
  {
    assert CallInv(s, c);
    StepKeepsLockInv(p, s, a, s');
    if a.Act? {
      assert CallInv(s, a.c);
      BlockedStep(p, ViewOf(s, a.c), a.c, a.step, ViewOf(s', a.c));
      BlockedView(s, a.c, ViewOf(s', a.c), c);
    }
  }

  lemma {:induction false} OrphanStaysRun(p: Planning, s: State, actions: seq<Action>, n: nat, c: nat)
    requires LockInv(s) && Orphan(s, c) && n <= |actions| && Run(p, s, actions, n).Some?
    ensures var t := Run(p, s, actions, n).value;
            LockInv(t) && Orphan(t, c) && Frozen(s, t)
  {
    if n > 0 {
      OrphanStaysRun(p, s, actions, n - 1, c);
      OrphanStays(p, Run(p, s, actions, n - 1).value, actions[n - 1], Run(p, s, actions, n).value, c);
    }
  }

  /** Once the row belongs to such a call, the lock is lost for good: in every continuation the row
      stays, no other call gets into the locked region, and the database never changes again. */
  lemma OrphanedLockIsForever(p: Planning, s: State, before: seq<Action>, t: State,
                              after: seq<Action>, u: State, c: nat)
    requires Reaches(p, s, before, t) && Orphan(t, c) && Run(p, t, after, |after|) == Some(u)
    ensures u.row == Some(c) && u.db == t.db && u.history == t.history
    ensures forall d :: d in u.calls && d != c ==> !Critical(u.calls[d].pc)
    ensures forall d :: d in u.calls ==> d in t.calls && u.calls[d].entered == t.calls[d].entered
  {
    RunKeepsLockInv(p, s, before, |before|);
    OrphanStaysRun(p, t, after, |after|, c);
    assert CallInv(u, c);
    forall d | d in u.calls && d != c ensures !Critical(u.calls[d].pc) { assert CallInv(u, d); }
  }

  // ----- isLocked says who has the lock ----------------------------------------------------------

  predicate Inside(call: Call) { call.entered && Owns(call) }

  /** While a call of an instance clears isLocked, no other one of it has the lock. */
  predicate OthersOut(s: State, c: nat, d: nat)
    requires c in s.calls && d in s.calls
  {
    c != d && s.calls[c].inst == s.calls[d].inst && s.calls[c].pc.UnlockClear? ==> !Inside(s.calls[d])
  }

  predicate HolderLocked(s: State, c: nat)
    requires c in s.calls
  {
    Holder(s.calls[c]) ==> s.calls[c].inst in s.insts && s.insts[s.calls[c].inst].isLocked
  }

  ghost predicate HolderInv(s: State) {
    && (forall c :: c in s.calls ==> HolderLocked(s, c))
    && (forall c, d :: c in s.calls && d in s.calls ==> OthersOut(s, c, d))
  }

  /** What one action may do to isLocked. */
  predicate HolderEffect(v: View, w: View, c: nat) {
    && (Holder(w.call) && (Holder(v.call) ==> v.inst.isLocked) ==> w.inst.isLocked)
    && (v.inst.isLocked && !w.inst.isLocked ==> v.call.pc.UnlockClear?)
    && (Inside(w.call) && !Inside(v.call) ==> v.inst.mutex == Some(c))
    && (w.call.pc.UnlockClear? && !v.call.pc.UnlockClear? ==> v.row == Some(c) && w.row.None?)
  }

  lemma LockingHolderEffect(v: View, c: nat, step: Step, w: View)
    requires ViewOk(v, c) && LockAction(v, c, step) == Some(w)
    ensures HolderEffect(v, w, c)
  {
  }

  lemma UnlockingHolderEffect(v: View, c: nat, step: Step, w: View)
    requires ViewOk(v, c) && UnlockAction(v, c, step) == Some(w)
    ensures HolderEffect(v, w, c)
  {
  }

  /** Nothing about the lock changes. */
  predicate SameHolding(v: View, w: View) {
    && w.inst.isLocked == v.inst.isLocked && w.row == v.row
    && w.call.entered == v.call.entered && w.call.locker == v.call.locker && w.call.released == v.call.released
    && w.call.pc.UnlockClear? == v.call.pc.UnlockClear?
  }

  lemma ReaderSameHolding(v: View, step: Step, w: View)
    requires ReaderAction(v, step) == Some(w)
    ensures SameHolding(v, w)
  {
  }

  lemma OpenSameHolding(p: Planning, v: View, c: nat, step: Step, w: View)
    requires OpenAction(p, v, c, step) == Some(w)
    ensures SameHolding(v, w)
  {
  }

  lemma ReceiveSameHolding(v: View, c: nat, step: Step, w: View)
    requires ReceiveAction(v, c, step) == Some(w) || ConsumerPollAction(v, c) == Some(w)
    ensures SameHolding(v, w)
  {
  }

  lemma MigrateSameHolding(v: View, c: nat, step: Step, w: View)
    requires MigrateAction(v, c, step) == Some(w)
    ensures SameHolding(v, w)
  {
  }

  lemma WorkingSameHolding(p: Planning, v: View, c: nat, step: Step, w: View)
    requires !LockStep(step) && CallAction(p, v, c, step) == Some(w)
    ensures SameHolding(v, w)
  {
    match step
    case ReaderPoll | ReaderLook | ReaderSend | ReaderFault | ReaderClose => ReaderSameHolding(v, step, w);
    case ReadVersion(_) | WriteForce(_) => OpenSameHolding(p, v, c, step, w);
    case Handoff | Take | SeeClosed | ConsumerPoll => ReceiveSameHolding(v, c, step, w);
    case SetDirty(_) | RunMigration(_) | SetClean(_) => MigrateSameHolding(v, c, step, w);
  }

  lemma ActionHolderEffect(p: Planning, v: View, c: nat, step: Step, w: View)
    requires ViewOk(v, c) && CallAction(p, v, c, step) == Some(w)
    ensures HolderEffect(v, w, c)
  {
    if !LockStep(step) {
      WorkingSameHolding(p, v, c, step, w);
    } else if LockAction(v, c, step) == Some(w) {
      LockingHolderEffect(v, c, step, w);
    } else {
      UnlockingHolderEffect(v, c, step, w);
    }
  }

  lemma EffectKeepsHolder(s: State, c: nat, w: View, d: nat)
    requires LockInv(s) && HolderInv(s) && c in s.calls && s.calls[c].inst in s.insts && d in s.calls
    requires LockEffect(ViewOf(s, c), w, c) && HolderEffect(ViewOf(s, c), w, c)
    ensures HolderLocked(WriteBack(s, c, w), d)
  {
    assert CallInv(s, c) && CallInv(s, d) && HolderLocked(s, c) && HolderLocked(s, d) && OthersOut(s, c, d);
  }

  lemma EffectKeepsOthersOut(s: State, c: nat, w: View, a: nat, b: nat)
    requires LockInv(s) && HolderInv(s) && c in s.calls && s.calls[c].inst in s.insts && a in s.calls && b in s.calls
    requires LockEffect(ViewOf(s, c), w, c) && HolderEffect(ViewOf(s, c), w, c)
    ensures OthersOut(WriteBack(s, c, w), a, b)
  {
    assert CallInv(s, a) && CallInv(s, b) && OthersOut(s, a, b);
  }

  lemma StepKeepsHolderInv(p: Planning, s: State, a: Action, s': State)
    requires LockInv(s) && HolderInv(s) && Apply(p, s, a) == Some(s')
    ensures HolderInv(s')
  {
    StepKeepsLockInv(p, s, a, s');
    match a
    case Signal(i) =>
      forall c | c in s'.calls ensures HolderLocked(s', c) { assert HolderLocked(s, c); }
      forall c, d | c in s'.calls && d in s'.calls ensures OthersOut(s', c, d) { assert OthersOut(s, c, d); }
    case Act(c, step) =>
      assert CallInv(s, c);
      ActionHolderEffect(p, ViewOf(s, c), c, step, ViewOf(s', c));
      ActKeepsHolderInv(s, c, ViewOf(s', c), s');
  }

  lemma ActKeepsHolderInv(s: State, c: nat, w: View, s': State)
    requires LockInv(s) && HolderInv(s) && c in s.calls && s.calls[c].inst in s.insts
    requires LockEffect(ViewOf(s, c), w, c) && HolderEffect(ViewOf(s, c), w, c) && s' == WriteBack(s, c, w)
    ensures HolderInv(s')
  {
    forall d | d in s'.calls ensures HolderLocked(s', d) { EffectKeepsHolder(s, c, w, d); }
    forall a, b | a in s'.calls && b in s'.calls ensures OthersOut(s', a, b) { EffectKeepsOthersOut(s, c, w, a, b); }
  }

  lemma InitialHolderInv(s: State)
    requires Initial(s)
    ensures HolderInv(s)
  {
  }

  lemma {:induction false} RunKeepsHolderInv(p: Planning, s: State, actions: seq<Action>, n: nat)
    requires n <= |actions| && Initial(s)
    ensures Run(p, s, actions, n).Some? ==> HolderInv(Run(p, s, actions, n).value)
  {
    if n == 0 {
      InitialHolderInv(s);
    } else {
      RunKeepsHolderInv(p, s, actions, n - 1);
      RunKeepsLockInv(p, s, actions, n - 1);
      if Run(p, s, actions, n).Some? {
        StepKeepsHolderInv(p, Run(p, s, actions, n - 1).value, actions[n - 1], Run(p, s, actions, n).value);
      }
    }
  }

  /** Over every interleaving an instance is locked exactly while one of its calls has the lock: from
      the return of lock() until a successful unlock, and for good after a failed one. */
  lemma LockedIffHeld(p: Planning, s: State, actions: seq<Action>, s': State, i: nat)
    requires Reaches(p, s, actions, s') && i in s'.insts
    ensures s'.insts[i].isLocked <==>
              exists c :: c in s'.calls && s'.calls[c].inst == i && Holder(s'.calls[c])
  {
    RunKeepsLockInv(p, s, actions, |actions|);
    RunKeepsHolderInv(p, s, actions, |actions|);
    if HeldBySome(s', i) {
      var c :| c in s'.calls && s'.calls[c].inst == i && Holder(s'.calls[c]);
      assert HolderLocked(s', c);
    }
    assert s'.insts[i].isLocked ==> HeldBySome(s', i);
  }
}

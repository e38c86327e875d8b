/** Runs that show what can happen to the lock: two ways in which it is lost for good, and one in
    which the driver forgets that it holds it. */
module Witnesses {
  import opened Types
  import opened Engine
  import opened System
  import opened LockSafety
  import opened DriverFlag
  import opened SerialRuns

  /** One instance and one call, about to start. */
  function Alone(db: Db, cmd: Cmd, capacity: nat): State {
    State(db, db, None, map[0 := FreshInstance()], map[0 := FreshCall(0, cmd, capacity)], [])
  }

  ghost predicate Reachable(p: Planning, s: State, t: State) {
    Initial(s) && CanReach(p, s, t)
  }

  /** A returned call can own the lock row: it times out, and then its lock attempt succeeds. */
  lemma LateLockIsOrphaned(p: Planning, db: Db, cmd: Cmd, capacity: nat) returns (t: State)
    requires db.version >= NIL_VERSION && CmdOk(cmd) && EarlyError(cmd).None?
    ensures Reachable(p, Alone(db, cmd, capacity), t) && Orphan(t, 0)
    ensures !t.calls[0].entered && t.calls[0].pc == Done(Result(Some(LockTimeout), None))
  {
    var s := Alone(db, cmd, capacity);
    var v := ViewOf(s, 0);
    LeadsNowhere(p, v, 0);
    var w := ThenLock(p, v, 0, v, CallBegin);
    w := ThenLock(p, v, 0, w, LockTimedOut);
    w := ThenLock(p, v, 0, w, LockerCas);
    w := ThenLock(p, v, 0, w, LockerTx(false));
    LeadsReach(p, s, 0, w);
    t := WriteBack(s, 0, w);
  }

  /** The other way: the row cannot be deleted. Here the version could not be read either. */
  lemma FailedUnlockIsOrphaned(p: Planning, db: Db, cmd: Cmd, capacity: nat) returns (t: State)
    requires db.version >= NIL_VERSION && CmdOk(cmd) && EarlyError(cmd).None? && !cmd.Force?
    ensures Reachable(p, Alone(db, cmd, capacity), t) && Orphan(t, 0) && UnlockFailed(t, 0)
    ensures t.calls[0].pc == Done(Result(Some(DriverFault), Some(DriverFault)))
  {
    var s := Alone(db, cmd, capacity);
    var v := ViewOf(s, 0);
    var w := Enter(p, v, 0);
    w := ThenOpen(p, v, 0, w, ReadVersion(true));
    w := UnlockFails(p, v, 0, w);
    LeadsReach(p, s, 0, w);
    t := WriteBack(s, 0, w);
  }

  lemma UnlockFails(p: Planning, v: View, c: nat, w0: View) returns (w: View)
    requires Leads(p, v, c, w0) && w0.call.pc.UnlockWait? && w0.inst.mutex.None? && w0.inst.driverFlag
    ensures Leads(p, v, c, w)
    ensures w == w0.(call := w0.call.(pc := Done(Result(w0.call.pc.err, Some(DriverFault)))))
  {
    var x := ThenUnlock(p, v, c, w0, UnlockAcquire);
    x := ThenUnlock(p, v, c, x, UnlockCas);
    assert x == w0.(call := w0.call.(pc := UnlockDelete(w0.call.pc.err)),
                    inst := w0.inst.(mutex := Some(c), driverFlag := false));
    w := DeleteFailsAndRestores(p, v, c, x);
  }

  lemma DeleteFailsAndRestores(p: Planning, v: View, c: nat, w0: View) returns (w: View)
    requires Leads(p, v, c, w0) && w0.call.pc.UnlockDelete?
    ensures Leads(p, v, c, w)
    ensures w == w0.(call := w0.call.(pc := Done(Result(w0.call.pc.err, Some(DriverFault)))),
                     inst := w0.inst.(mutex := None, driverFlag := true))
  {
    var x := ThenUnlock(p, v, c, w0, DeleteRow(true));
    w := ThenUnlock(p, v, c, x, RestoreFlag);
  }

  // ----- the flag that is cleared behind the holder's back --------------------------------------

  /** One instance with two calls: 0, and a Force, 1. */
  function Two(origin: Db, a: Call, b: Call, inst: Instance, row: Option<nat>, db: Db, h: seq<Record>): State {
    State(origin, db, row, map[0 := inst], map[0 := a, 1 := b], h)
  }

  /** Call 0 goes from one view to another. */
  lemma StepsOfFirst(p: Planning, s0: State, origin: Db, b: Call, v: View, w: View)
    requires v.call.inst == 0 && Leads(p, v, 0, w)
    requires CanReach(p, s0, Two(origin, v.call, b, v.inst, v.row, v.db, v.history))
    ensures w.call.inst == 0 && CanReach(p, s0, Two(origin, w.call, b, w.inst, w.row, w.db, w.history))
  {
    var s := Two(origin, v.call, b, v.inst, v.row, v.db, v.history);
    assert ViewOf(s, 0) == v;
    LeadsReach(p, s, 0, w);
    assert WriteBack(s, 0, w) == Two(origin, w.call, b, w.inst, w.row, w.db, w.history);
    ReachThen(p, s0, s, WriteBack(s, 0, w));
  }

  lemma OneLock(p: Planning, v: View, c: nat, step: Step) returns (w: View)
    requires LockAction(v, c, step).Some?
    ensures Leads(p, v, c, w) && LockAction(v, c, step) == Some(w)
  {
    LeadsNowhere(p, v, c);
    w := ThenLock(p, v, c, v, step);
  }

  /** Call 1 goes from one view to another. */
  lemma StepsOfSecond(p: Planning, s0: State, origin: Db, a: Call, v: View, w: View)
    requires v.call.inst == 0 && Leads(p, v, 1, w)
    requires CanReach(p, s0, Two(origin, a, v.call, v.inst, v.row, v.db, v.history))
    ensures w.call.inst == 0 && CanReach(p, s0, Two(origin, a, w.call, w.inst, w.row, w.db, w.history))
  {
    var s := Two(origin, a, v.call, v.inst, v.row, v.db, v.history);
    assert ViewOf(s, 1) == v;
    LeadsReach(p, s, 1, w);
    assert WriteBack(s, 1, w) == Two(origin, a, w.call, w.inst, w.row, w.db, w.history);
    ReachThen(p, s0, s, WriteBack(s, 1, w));
  }

  /** A Force up to the point where it has swapped the flag back and is about to delete the row. */
  lemma ForceToDelete(p: Planning, v: View, c: nat) returns (w: View)
    requires Fresh(v) && !v.inst.stopFlag && v.call.cmd.Force?
    ensures Leads(p, v, c, w) && w.row == Some(c) && w.inst == Instance(Some(c), true, false, false, false)
    ensures w.call.pc == UnlockDelete(None) && Owns(w.call) && w.call.entered && w.call.inst == v.call.inst
  {
    w := Enter(p, v, c);
    w := ThenOpen(p, v, c, w, WriteForce(false));
    w := ThenUnlock(p, v, c, w, UnlockAcquire);
    w := ThenUnlock(p, v, c, w, UnlockCas);
  }

  lemma DeleteFails(p: Planning, v: View, c: nat) returns (w: View)
    requires v.call.pc.UnlockDelete?
    ensures Leads(p, v, c, w) && w == v.(call := v.call.(pc := UnlockRestore(v.call.pc.err)))
  {
    LeadsNowhere(p, v, c);
    w := ThenUnlock(p, v, c, v, DeleteRow(true));
  }

  lemma RestoresFlag(p: Planning, v: View, c: nat) returns (w: View)
    requires v.call.pc.UnlockRestore?
    ensures Leads(p, v, c, w)
    ensures w == v.(call := v.call.(pc := Done(Result(v.call.pc.err, Some(DriverFault)))),
                    inst := v.inst.(mutex := None, driverFlag := true))
  {
    LeadsNowhere(p, v, c);
    w := ThenUnlock(p, v, c, v, RestoreFlag);
  }

  /** The driver can forget its lock: a timed-out attempt swaps the flag while an unlock has it
      cleared, the unlock fails and restores it, and then the attempt, which found the row taken,
      clears it. isLocked is set, the mutex is free, the row is still there, and the flag is not. */
  lemma LateRestoreClearsFlag(p: Planning, db: Db, cmd: Cmd, f: int) returns (s: State, t: State)
    requires db.version >= NIL_VERSION && CmdOk(cmd) && EarlyError(cmd).None? && f >= NIL_VERSION
    ensures Reachable(p, s, t) && UnlockFailed(t, 1) && t.row == Some(1) && t.calls[1].inst == 0
    ensures 0 in t.insts && t.insts[0].isLocked && t.insts[0].mutex.None? && !t.insts[0].driverFlag
  {
    var a, b := FreshCall(0, cmd, 0), FreshCall(0, Force(f), 0);
    s := Two(db, a, b, FreshInstance(), None, db, []);
    ReachSelf(p, s);
    var late := TimesOut(p, s, db, a, b);
    var vb := View(b, FreshInstance(), None, db, []);
    var x := ForceToDelete(p, vb, 1);
    StepsOfSecond(p, s, db, late, vb, x);
    t := Overlap(p, s, db, late, x);
  }

  /** Call 0 times out before its attempt has begun. */
  lemma TimesOut(p: Planning, s: State, db: Db, a: Call, b: Call) returns (late: Call)
    requires a == FreshCall(0, a.cmd, 0) && EarlyError(a.cmd).None?
    requires CanReach(p, s, Two(db, a, b, FreshInstance(), None, db, []))
    ensures late == a.(pc := Done(Result(Some(LockTimeout), None)), locker := Spawned)
    ensures CanReach(p, s, Two(db, late, b, FreshInstance(), None, db, []))
  {
    var v := View(a, FreshInstance(), None, db, []);
    var w := OneLock(p, v, 0, CallBegin);
    StepsOfFirst(p, s, db, b, v, w);
    var x := OneLock(p, w, 0, LockTimedOut);
    StepsOfFirst(p, s, db, b, w, x);
    late := x.call;
    assert x.inst == FreshInstance();
  }

  /** The late attempt and the failing unlock overlap. */
  lemma Overlap(p: Planning, s: State, db: Db, late: Call, x: View) returns (t: State)
    requires late.inst == 0 && late.locker.Spawned? && x.call.inst == 0
    requires x.row == Some(1) && x.inst == Instance(Some(1), true, false, false, false)
    requires x.call.pc == UnlockDelete(None) && Owns(x.call) && x.call.entered
    requires CanReach(p, s, Two(db, late, x.call, x.inst, x.row, x.db, x.history))
    ensures CanReach(p, s, t) && UnlockFailed(t, 1) && t.row == Some(1) && t.calls[1].inst == 0
    ensures 0 in t.insts && t.insts[0].isLocked && t.insts[0].mutex.None? && !t.insts[0].driverFlag
  {
    var v := View(late, x.inst, x.row, x.db, x.history);
    var w := OneLock(p, v, 0, LockerCas);
    StepsOfFirst(p, s, db, x.call, v, w);
    var y := DeleteFails(p, x.(inst := w.inst), 1);
    StepsOfSecond(p, s, db, w.call, x.(inst := w.inst), y);
    t := LateRestore(p, s, db, w.call, y);
  }

  lemma LateRestore(p: Planning, s: State, db: Db, late: Call, y: View) returns (t: State)
    requires late.inst == 0 && late.locker.InTx? && y.call.inst == 0
    requires y.row == Some(1) && y.inst == Instance(Some(1), true, true, false, false)
    requires y.call.pc == UnlockRestore(None) && Owns(y.call) && y.call.entered
    requires CanReach(p, s, Two(db, late, y.call, y.inst, y.row, y.db, y.history))
    ensures CanReach(p, s, t) && UnlockFailed(t, 1) && t.row == Some(1) && t.calls[1].inst == 0
    ensures 0 in t.insts && t.insts[0].isLocked && t.insts[0].mutex.None? && !t.insts[0].driverFlag
  {
    var v := View(late, y.inst, y.row, y.db, y.history);
    var w := OneLock(p, v, 0, LockerTx(false));
    StepsOfFirst(p, s, db, y.call, v, w);
    var z := RestoresFlag(p, y.(inst := w.inst), 1);
    StepsOfSecond(p, s, db, w.call, y.(inst := w.inst), z);
    var v' := View(w.call, z.inst, z.row, z.db, z.history);
    var w' := OneLock(p, v', 0, LockerRestore);
    StepsOfFirst(p, s, db, z.call, v', w');
    t := Two(db, w'.call, z.call, w'.inst, w'.row, w'.db, w'.history);
  }
}

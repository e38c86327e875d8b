/** Every error a call returns has its reason in the run: a refused argument, a lock that was held,
    a timeout, a driver call or a read of the source that failed. So a call that returns no error
    got the lock, and one that nothing disturbed did all it was asked to do. */
module Reasons {
  import opened Types
  import opened VersionIndex
  import opened Planner
  import opened Engine
  import opened System
  import opened LockSafety
  import opened DriverFlag
  import opened Serial
  import opened Outcome
  import opened Positions

  // ----- what happened to a call ------------------------------------------------------------

  /** A driver call between lock() and unlock() fails. */
  predicate WorkFails(step: Step) {
    || step == ReadVersion(true) || step == WriteForce(true)
    || step == SetDirty(true) || step == RunMigration(true) || step == SetClean(true)
  }

  /** The lock is found to be held: by this instance, by the driver, or by a row in the table. */
  predicate FindsHeld(v: View, step: Step) {
    || (step.CallBegin? && v.inst.isLocked)
    || (step.LockerCas? && v.inst.driverFlag)
    || (step == LockerTx(false) && v.row.Some?)
  }

  /** Which of these have happened to a call. */
  datatype Why = Why(held: bool, lockFails: bool, timedOut: bool, workFails: bool, sourceFails: bool, deleteFails: bool)

  function Add(why: Why, v: View, step: Step): Why {
    Why(why.held || FindsHeld(v, step), why.lockFails || step == LockerTx(true), why.timedOut || step.LockTimedOut?,
        why.workFails || WorkFails(step), why.sourceFails || step.ReaderFault?, why.deleteFails || step == DeleteRow(true))
  }

  predicate Within(a: Why, b: Why) {
    && (a.held ==> b.held) && (a.lockFails ==> b.lockFails) && (a.timedOut ==> b.timedOut)
    && (a.workFails ==> b.workFails) && (a.sourceFails ==> b.sourceFails) && (a.deleteFails ==> b.deleteFails)
  }

  // ----- what it explains ---------------------------------------------------------------------

  /** Errors of a lock attempt. */
  predicate LockErrOk(e: Err, why: Why) {
    (e == Locked && why.held) || (e == DriverFault && why.lockFails)
  }

  /** The error of a call that returned without having got the lock. */
  predicate RefusalOk(cmd: Cmd, e: Err, why: Why) {
    if EarlyError(cmd).Some? then e == EarlyError(cmd).value
    else LockErrOk(e, why) || (e == LockTimeout && why.timedOut)
  }

  predicate LockerOk(call: Call, why: Why) {
    && (call.locker.Failed? ==> LockErrOk(call.locker.err, why))
    && (call.locker.Restoring? ==> LockErrOk(call.locker.err, why))
    && (call.pc.Done? && !call.entered ==>
          call.pc.result.unlockErr.None? && call.pc.result.err.Some? && RefusalOk(call.cmd, call.pc.result.err.value, why))
    && (EarlyError(call.cmd).Some? ==> call.pc.Start? || (call.pc.Done? && !call.entered))
  }

  predicate WorkOk(call: Call, why: Why) {
    && (call.entered && !InSession(call.pc) ==>
          && (ErrAt(call.pc) == Some(DriverFault) ==> why.workFails)
          && (ErrAt(call.pc) == Some(SourceFault) ==> why.sourceFails))
    && (call.pipe.reader.Reader? && call.pipe.reader.cut.FaultCut? ==> why.sourceFails)
    && (call.pc.UnlockRestore? ==> why.deleteFails)
    && (call.pc.Done? && call.entered && call.pc.result.unlockErr.Some? ==>
          call.pc.result.unlockErr == Some(NotLocked) || (call.pc.result.unlockErr == Some(DriverFault) && why.deleteFails))
  }

  /** A stop flag comes from a signal. */
  predicate StopOk(v: View, signalled: bool) {
    && (v.inst.stopFlag || v.inst.signal ==> signalled)
    && (v.call.pc.Polling? && v.call.pc.poll.Took? ==> signalled)
    && (v.call.pipe.reader.Reader? && v.call.pipe.reader.poll.Took? ==> signalled)
  }

  predicate Explained(v: View, why: Why, signalled: bool) {
    LockerOk(v.call, why) && WorkOk(v.call, why) && StopOk(v, signalled)
  }

  lemma ExplainedMore(v: View, a: Why, b: Why, signalled: bool)
    requires Explained(v, a, signalled) && Within(a, b)
    ensures Explained(v, b, signalled)
  {
  }

  // ----- every step keeps it ---------------------------------------------------------------------

  /** The errors in plans are those planners make. */
  ghost predicate ErrsAt(p: Planning, cmd: Cmd, version: int) {
    PlanErr(p.plan(cmd, version)).Some? ==> PlannedErr(PlanErr(p.plan(cmd, version)).value)
  }

  ghost predicate ErrsOk(p: Planning) {
    forall cmd, version {:trigger ErrsAt(p, cmd, version)} :: ErrsAt(p, cmd, version)
  }

  lemma LockExplained(v: View, c: nat, step: Step, w: View, why: Why, signalled: bool)
    requires step.CallBegin? || step.LockReturn? || step.LockTimedOut?
    requires ViewOk(v, c) && LocalOk(v.call) && Explained(v, why, signalled) && LockAction(v, c, step) == Some(w)
    ensures Explained(w, Add(why, v, step), signalled)
  {
  }

  lemma LockerExplained(v: View, c: nat, step: Step, w: View, why: Why, signalled: bool)
    requires step.LockerCas? || step.LockerTx? || step.LockerRestore?
    requires ViewOk(v, c) && LocalOk(v.call) && Explained(v, why, signalled) && LockAction(v, c, step) == Some(w)
    ensures Explained(w, Add(why, v, step), signalled)
  {
  }

  lemma UnlockExplained(v: View, c: nat, step: Step, w: View, why: Why, signalled: bool)
    requires ViewOk(v, c) && Explained(v, why, signalled) && UnlockAction(v, c, step) == Some(w)
    ensures Explained(w, Add(why, v, step), signalled)
  {
  }

  lemma OpenExplained(p: Planning, v: View, c: nat, step: Step, w: View, why: Why, signalled: bool)
    requires ViewOk(v, c) && LocalOk(v.call) && Explained(v, why, signalled) && OpenAction(p, v, c, step) == Some(w)
    ensures Explained(w, Add(why, v, step), signalled)
  {
  }

  lemma ReaderExplained(v: View, c: nat, step: Step, w: View, why: Why, signalled: bool)
    requires Explained(v, why, signalled) && ReaderAction(v, step) == Some(w)
    ensures Explained(w, Add(why, v, step), signalled)
  {
  }

  lemma ReceiveExplained(v: View, c: nat, step: Step, w: View, why: Why, signalled: bool)
    requires ViewOk(v, c) && LocalOk(v.call) && Explained(v, why, signalled) && ReceiveAction(v, c, step) == Some(w)
    ensures Explained(w, Add(why, v, step), signalled)
  {
  }

  /** An error taken from the channel is a planner's, or that of a source that failed. */
  lemma ItemErr(p: Planning, base: Db, v: View, c: nat)
    requires PlanningOk(p) && ErrsOk(p) && ViewSerial(p, base, v, c) && v.call.pc.Polling? && v.call.pc.item.Fail?
    ensures PlannedErr(v.call.pc.item.err)
            || (v.call.pc.item.err == SourceFault && v.call.pipe.reader.Reader? && v.call.pipe.reader.cut.FaultCut?)
  {
    var pipe, n := v.call.pipe, v.call.pr.done;
    assert PlanAgrees(p, v.call.cmd, base.version) && ErrsAt(p, v.call.cmd, base.version);
    var flow := Flow(pipe);
    assert flow[n] == pipe.received[n] == v.call.pc.item;
    if !(pipe.reader.cut.FaultCut? && n == |flow| - 1) {
      assert pipe.plan[n] == flow[n];
      assert n == |pipe.plan| - 1;
    }
  }

  lemma PollExplained(p: Planning, base: Db, v: View, c: nat, w: View, why: Why, signalled: bool)
    requires PlanningOk(p) && ErrsOk(p) && ViewSerial(p, base, v, c)
    requires ViewOk(v, c) && Explained(v, why, signalled) && ConsumerPollAction(v, c) == Some(w)
    ensures Explained(w, Add(why, v, ConsumerPoll), signalled)
  {
    if v.call.pc.item.Fail? { ItemErr(p, base, v, c); }
    PolledExplained(v, c, w, why, signalled);
  }

  lemma PolledExplained(v: View, c: nat, w: View, why: Why, signalled: bool)
    requires ViewOk(v, c) && LocalOk(v.call) && Explained(v, why, signalled) && ConsumerPollAction(v, c) == Some(w)
    requires v.call.pc.item.Fail? ==>
               || PlannedErr(v.call.pc.item.err)
               || (v.call.pc.item.err == SourceFault && v.call.pipe.reader.Reader? && v.call.pipe.reader.cut.FaultCut?)
    ensures Explained(w, Add(why, v, ConsumerPoll), signalled)
  {
  }

  lemma MigrateExplained(v: View, c: nat, step: Step, w: View, why: Why, signalled: bool)
    requires ViewOk(v, c) && LocalOk(v.call) && Explained(v, why, signalled) && MigrateAction(v, c, step) == Some(w)
    ensures Explained(w, Add(why, v, step), signalled)
  {
  }

  lemma LockStepsExplained(p: Planning, v: View, c: nat, step: Step, w: View, why: Why, signalled: bool)
    requires LockStep(step) && ViewOk(v, c) && LocalOk(v.call) && Explained(v, why, signalled)
    requires CallAction(p, v, c, step) == Some(w)
    ensures Explained(w, Add(why, v, step), signalled)
  {
    match step
    case CallBegin | LockReturn | LockTimedOut => LockExplained(v, c, step, w, why, signalled);
    case LockerCas | LockerTx(_) | LockerRestore => LockerExplained(v, c, step, w, why, signalled);
    case UnlockAcquire | UnlockCas | DeleteRow(_) | RestoreFlag | ClearLocked =>
      UnlockExplained(v, c, step, w, why, signalled);
  }

  lemma WorkStepsExplained(p: Planning, base: Db, v: View, c: nat, step: Step, w: View, why: Why, signalled: bool)
    requires !LockStep(step) && PlanningOk(p) && ErrsOk(p) && ViewSerial(p, base, v, c)
    requires ViewOk(v, c) && Explained(v, why, signalled) && CallAction(p, v, c, step) == Some(w)
    ensures Explained(w, Add(why, v, step), signalled)
  {
    match step
    case ReadVersion(_) | WriteForce(_) => OpenExplained(p, v, c, step, w, why, signalled);
    case ReaderPoll | ReaderLook | ReaderSend | ReaderFault | ReaderClose => ReaderExplained(v, c, step, w, why, signalled);
    case Handoff | Take | SeeClosed => ReceiveExplained(v, c, step, w, why, signalled);
    case ConsumerPoll => PollExplained(p, base, v, c, w, why, signalled);
    case SetDirty(_) | RunMigration(_) | SetClean(_) => MigrateExplained(v, c, step, w, why, signalled);
  }

  lemma CallActionExplained(p: Planning, base: Db, v: View, c: nat, step: Step, w: View, why: Why, signalled: bool)
    requires PlanningOk(p) && ErrsOk(p) && ViewSerial(p, base, v, c)
    requires ViewOk(v, c) && Explained(v, why, signalled) && CallAction(p, v, c, step) == Some(w)
    ensures Explained(w, Add(why, v, step), signalled)
  {
    if LockStep(step) {
      LockStepsExplained(p, v, c, step, w, why, signalled);
    } else {
      WorkStepsExplained(p, base, v, c, step, w, why, signalled);
    }
  }

  // ----- over whole runs ----------------------------------------------------------------------------

  datatype Kind = Held | LockFails | TimedOut | WorkFault | SourceFails | DeleteFails

  /** The k-th action is one of call c, of this kind. */
  ghost predicate HappensAt(p: Planning, s: State, actions: seq<Action>, k: nat, c: nat, kind: Kind)
    requires k < |actions|
  {
    && actions[k].Act? && actions[k].c == c
    && match kind
       case Held =>
         && Run(p, s, actions, k).Some?
         && var t := Run(p, s, actions, k).value;
            c in t.calls && t.calls[c].inst in t.insts && FindsHeld(ViewOf(t, c), actions[k].step)
       case LockFails => actions[k].step == LockerTx(true)
       case TimedOut => actions[k].step.LockTimedOut?
       case WorkFault => WorkFails(actions[k].step)
       case SourceFails => actions[k].step.ReaderFault?
       case DeleteFails => actions[k].step == DeleteRow(true)
  }

  ghost predicate Happened(p: Planning, s: State, actions: seq<Action>, n: nat, c: nat, kind: Kind)
    requires n <= |actions|
  {
    exists k :: 0 <= k < n && HappensAt(p, s, actions, k, c, kind)
  }

  ghost function WhyOf(p: Planning, s: State, actions: seq<Action>, n: nat, c: nat): Why
    requires n <= |actions|
  {
    Why(Happened(p, s, actions, n, c, Held), Happened(p, s, actions, n, c, LockFails),
        Happened(p, s, actions, n, c, TimedOut), Happened(p, s, actions, n, c, WorkFault),
        Happened(p, s, actions, n, c, SourceFails), Happened(p, s, actions, n, c, DeleteFails))
  }

  ghost predicate Signalled(actions: seq<Action>, n: nat, i: nat)
    requires n <= |actions|
  {
    exists k :: 0 <= k < n && actions[k] == Signal(i)
  }

  lemma HappenedMore(p: Planning, s: State, actions: seq<Action>, n: nat, c: nat, kind: Kind)
    requires 0 < n <= |actions|
    ensures Happened(p, s, actions, n - 1, c, kind) || HappensAt(p, s, actions, n - 1, c, kind) ==>
              Happened(p, s, actions, n, c, kind)
  {
  }

  lemma WhyMore(p: Planning, s: State, actions: seq<Action>, n: nat, c: nat)
    requires 0 < n <= |actions|
    ensures Within(WhyOf(p, s, actions, n - 1, c), WhyOf(p, s, actions, n, c))
  {
    forall kind: Kind ensures Happened(p, s, actions, n - 1, c, kind) ==> Happened(p, s, actions, n, c, kind) {
      HappenedMore(p, s, actions, n, c, kind);
    }
  }

  /** What an action adds has happened after it. */
  lemma WhyAdds(p: Planning, s: State, actions: seq<Action>, n: nat, c: nat, t: State)
    requires 0 < n <= |actions| && Run(p, s, actions, n - 1) == Some(t)
    requires actions[n - 1].Act? && actions[n - 1].c == c && c in t.calls && t.calls[c].inst in t.insts
    ensures Within(Add(WhyOf(p, s, actions, n - 1, c), ViewOf(t, c), actions[n - 1].step), WhyOf(p, s, actions, n, c))
  {
    HappenedMore(p, s, actions, n, c, Held);
    HappenedMore(p, s, actions, n, c, LockFails);
    HappenedMore(p, s, actions, n, c, TimedOut);
    HappenedMore(p, s, actions, n, c, WorkFault);
    HappenedMore(p, s, actions, n, c, SourceFails);
    HappenedMore(p, s, actions, n, c, DeleteFails);
  }

  lemma SignalledMore(actions: seq<Action>, n: nat, i: nat)
    requires 0 < n <= |actions|
    ensures Signalled(actions, n - 1, i) || actions[n - 1] == Signal(i) ==> Signalled(actions, n, i)
  {
  }

  ghost predicate ExplainedAt(p: Planning, s: State, actions: seq<Action>, n: nat, t: State, c: nat)
    requires n <= |actions| && c in t.calls
  {
    && t.calls[c].inst in t.insts
    && Explained(ViewOf(t, c), WhyOf(p, s, actions, n, c), Signalled(actions, n, t.calls[c].inst))
  }

  ghost predicate AllExplained(p: Planning, s: State, actions: seq<Action>, n: nat, t: State)
    requires n <= |actions|
  {
    forall c :: c in t.calls ==> ExplainedAt(p, s, actions, n, t, c)
  }

  /** The acting call. */
  lemma ActorExplained(p: Planning, s: State, actions: seq<Action>, n: nat, t: State, w: View)
    requires PlanningOk(p) && ErrsOk(p) && 0 < n <= |actions| && Run(p, s, actions, n - 1) == Some(t) && SerialInv(p, t)
    requires actions[n - 1].Act? && actions[n - 1].c in t.calls && t.calls[actions[n - 1].c].inst in t.insts
    requires ExplainedAt(p, s, actions, n - 1, t, actions[n - 1].c)
    requires CallAction(p, ViewOf(t, actions[n - 1].c), actions[n - 1].c, actions[n - 1].step) == Some(w)
    ensures Explained(w, WhyOf(p, s, actions, n, actions[n - 1].c),
                      Signalled(actions, n, t.calls[actions[n - 1].c].inst))
  {
    var c, step := actions[n - 1].c, actions[n - 1].step;
    var i := t.calls[c].inst;
    assert CallInv(t, c) && SerialAt(p, t, c);
    CallActionExplained(p, BaseOf(p, t), ViewOf(t, c), c, step, w, WhyOf(p, s, actions, n - 1, c), Signalled(actions, n - 1, i));
    WhyAdds(p, s, actions, n, c, t);
    SignalledMore(actions, n, i);
    ExplainedMore(w, Add(WhyOf(p, s, actions, n - 1, c), ViewOf(t, c), step), WhyOf(p, s, actions, n, c), Signalled(actions, n - 1, i));
  }

  /** A call that did not act, on an instance whose flags are accounted for. */
  lemma OtherExplained(p: Planning, s: State, actions: seq<Action>, n: nat, t: State, t': State, d: nat)
    requires 0 < n <= |actions| && d in t.calls && ExplainedAt(p, s, actions, n - 1, t, d)
    requires d in t'.calls && t'.calls[d] == t.calls[d] && t.calls[d].inst in t'.insts
    requires var inst := t'.insts[t.calls[d].inst];
             inst.stopFlag || inst.signal ==> Signalled(actions, n, t.calls[d].inst)
    ensures ExplainedAt(p, s, actions, n, t', d)
  {
    WhyMore(p, s, actions, n, d);
    SignalledMore(actions, n, t.calls[d].inst);
    ExplainedMore(ViewOf(t, d), WhyOf(p, s, actions, n - 1, d), WhyOf(p, s, actions, n, d),
                  Signalled(actions, n - 1, t.calls[d].inst));
  }

  lemma SignalExplained(p: Planning, s: State, actions: seq<Action>, n: nat, t: State, i: nat, t': State)
    requires 0 < n <= |actions| && actions[n - 1] == Signal(i) && i in t.insts
    requires t' == t.(insts := t.insts[i := t.insts[i].(signal := true)]) && AllExplained(p, s, actions, n - 1, t)
    ensures AllExplained(p, s, actions, n, t')
  {
    forall d | d in t'.calls ensures ExplainedAt(p, s, actions, n, t', d) {
      assert ExplainedAt(p, s, actions, n - 1, t, d);
      SignalledMore(actions, n, t.calls[d].inst);
      OtherExplained(p, s, actions, n, t, t', d);
    }
  }

  lemma ActExplained(p: Planning, s: State, actions: seq<Action>, n: nat, t: State, c: nat, w: View, t': State)
    requires 0 < n <= |actions| && c in t.calls && t.calls[c].inst in t.insts && t' == WriteBack(t, c, w)
    requires w.call.inst == t.calls[c].inst && AllExplained(p, s, actions, n - 1, t)
    requires Explained(w, WhyOf(p, s, actions, n, c), Signalled(actions, n, t.calls[c].inst))
    ensures AllExplained(p, s, actions, n, t')
  {
    forall d | d in t'.calls ensures ExplainedAt(p, s, actions, n, t', d) {
      if d != c {
        assert ExplainedAt(p, s, actions, n - 1, t, d);
        SignalledMore(actions, n, t.calls[d].inst);
        OtherExplained(p, s, actions, n, t, t', d);
      }
    }
  }

  lemma StepExplained(p: Planning, s: State, actions: seq<Action>, n: nat, t: State, t': State)
    requires PlanningOk(p) && ErrsOk(p) && 0 < n <= |actions| && Run(p, s, actions, n - 1) == Some(t) && SerialInv(p, t)
    requires AllExplained(p, s, actions, n - 1, t) && Apply(p, t, actions[n - 1]) == Some(t')
    ensures AllExplained(p, s, actions, n, t')
  {
    match actions[n - 1]
    case Signal(i) => SignalExplained(p, s, actions, n, t, i, t');
    case Act(c, step) =>
      StepKeepsLockInv(p, t, actions[n - 1], t');
      assert ExplainedAt(p, s, actions, n - 1, t, c);
      ActorExplained(p, s, actions, n, t, ViewOf(t', c));
      ActExplained(p, s, actions, n, t, c, ViewOf(t', c), t');
  }

  lemma {:induction false} RunExplained(p: Planning, s: State, actions: seq<Action>, n: nat)
    requires PlanningOk(p) && ErrsOk(p) && Initial(s) && n <= |actions|
    ensures Run(p, s, actions, n).Some? ==> AllExplained(p, s, actions, n, Run(p, s, actions, n).value)
  {
    if n > 0 {
      RunExplained(p, s, actions, n - 1);
      if Run(p, s, actions, n).Some? {
        RunKeepsSerialInv(p, s, actions, n - 1);
        StepExplained(p, s, actions, n, Run(p, s, actions, n - 1).value, Run(p, s, actions, n).value);
      }
    }
  }

  lemma PlanningErrsOk(src: Source)
    requires src.Valid()
    ensures ErrsOk(PlanningOf(src))
  {
    var p := PlanningOf(src);
    forall cmd, version ensures ErrsAt(p, cmd, version) { PlanShape(src, cmd, version); }
  }

  lemma ReachableExplained(src: Source, s: State, actions: seq<Action>, s': State)
    requires src.Valid() && Reaches(PlanningOf(src), s, actions, s')
    ensures AllExplained(PlanningOf(src), s, actions, |actions|, s')
  {
    PlanningOfIsOk(src);
    PlanningErrsOk(src);
    RunExplained(PlanningOf(src), s, actions, |actions|);
  }

  // ----- theorems ------------------------------------------------------------------------------------

  /** Refused before the lock is tried: nothing to do, or a version that cannot be. */
  predicate BadArgument(cmd: Cmd) {
    cmd == Steps(0) || cmd == RunGiven([]) || (cmd.Force? && cmd.v < -1)
  }

  /** In every run, a call that returned without having got the lock returned an error, and its
      reason is in the run: its argument; the lock found held by its instance, its driver or the
      row; the timeout; or a failing transaction. */
  lemma RefusedForAReason(src: Source, s: State, actions: seq<Action>, s': State, c: nat)
    requires src.Valid() && Reaches(PlanningOf(src), s, actions, s')
    requires c in s'.calls && s'.calls[c].pc.Done? && !s'.calls[c].entered
    ensures var cmd, result := s'.calls[c].cmd, s'.calls[c].pc.result;
            var p, n := PlanningOf(src), |actions|;
            && result.err.Some? && result.unlockErr.None?
            && (if BadArgument(cmd) then result.err == Some(if cmd.Force? then InvalidVersion else NoChange)
                else
                  || (result.err == Some(Locked) && Happened(p, s, actions, n, c, Held))
                  || (result.err == Some(LockTimeout) && Happened(p, s, actions, n, c, TimedOut))
                  || (result.err == Some(DriverFault) && Happened(p, s, actions, n, c, LockFails)))
  {
    ReachableExplained(src, s, actions, s');
    assert ExplainedAt(PlanningOf(src), s, actions, |actions|, s', c);
  }

  /** A call that returned no error got the lock: it has a record in the history. */
  lemma NoErrorMeansLocked(src: Source, s: State, actions: seq<Action>, s': State, c: nat)
    requires src.Valid() && Reaches(PlanningOf(src), s, actions, s')
    requires c in s'.calls && s'.calls[c].pc.Done? && s'.calls[c].pc.result.err.None?
    ensures Recorded(s'.history, c)
  {
    if !s'.calls[c].entered { RefusedForAReason(src, s, actions, s', c); }
    Serialisable(src, s, actions, s');
  }

  /** In every run, a driver error of a call that got the lock comes from a driver call of its own
      that failed, a source error from a failing read, an error of unlock from a failing delete. */
  lemma FailedForAReason(src: Source, s: State, actions: seq<Action>, s': State, c: nat)
    requires src.Valid() && Reaches(PlanningOf(src), s, actions, s')
    requires c in s'.calls && s'.calls[c].pc.Done? && s'.calls[c].entered
    ensures var p, n, result := PlanningOf(src), |actions|, s'.calls[c].pc.result;
            && (result.err == Some(DriverFault) ==> Happened(p, s, actions, n, c, WorkFault))
            && (result.err == Some(SourceFault) ==> Happened(p, s, actions, n, c, SourceFails))
            && (result.unlockErr.Some? ==>
                  result.unlockErr == Some(DriverFault) && Happened(p, s, actions, n, c, DeleteFails))
  {
    ReachableExplained(src, s, actions, s');
    assert ExplainedAt(PlanningOf(src), s, actions, |actions|, s', c);
    HolderHasFlagAndRow(PlanningOf(src), s, actions, s', c);
  }

  /** No driver call of c after lock() failed, no read of its source, and nobody signalled its
      instance. */
  predicate Undisturbing(actions: seq<Action>, c: nat, i: nat) {
    forall k :: 0 <= k < |actions| ==>
      && actions[k] != Signal(i)
      && (actions[k].Act? && actions[k].c == c ==> !WorkFails(actions[k].step) && !actions[k].step.ReaderFault?)
  }

  lemma UndisturbedHasNoReason(p: Planning, s: State, actions: seq<Action>, c: nat, i: nat)
    requires Undisturbing(actions, c, i)
    ensures !Happened(p, s, actions, |actions|, c, WorkFault) && !Happened(p, s, actions, |actions|, c, SourceFails)
    ensures !Signalled(actions, |actions|, i)
  {
  }

  /** In every interleaving, a command that got the lock, found the database clean at position q and
      was not disturbed ends where it should and returns the error it should. */
  lemma UndisturbedCommand(src: Source, s: State, actions: seq<Action>, s': State, k: nat, q: nat)
    requires src.Valid() && Reaches(PlanningOf(src), s, actions, s') && k < |s'.history|
    requires var c := s'.history[k].call;
             && c in s'.calls && s'.calls[c].pc.Done? && Planned(s'.calls[c].cmd)
             && Undisturbing(actions, c, s'.calls[c].inst)
    requires CleanAt(src, ReplayFirst(PlanningOf(src), s.origin, s'.history, k), q)
    ensures var call := s'.calls[s'.history[k].call];
            && CleanAt(src, ReplayFirst(PlanningOf(src), s.origin, s'.history, k + 1), Target(src, call.cmd, q))
            && call.pc.result.err == CommandErr(src, call.cmd, q)
  {
    ReachableInv(src, s, actions, s');
    ReachableExplained(src, s, actions, s');
    assert CallInv(s', s'.history[k].call);
    PlansMove(src);
    UndisturbedState(PlanningOf(src), src, s, actions, s', k, q);
    PlanErrIs(src, s'.calls[s'.history[k].call].cmd, q);
  }

  lemma UndisturbedState(p: Planning, src: Source, s: State, actions: seq<Action>, s': State, k: nat, q: nat)
    requires PlanningOk(p) && Moves(p, src) && AllInv(p, s') && AllExplained(p, s, actions, |actions|, s')
    requires k < |s'.history| && s'.history[k].call in s'.calls && s'.calls[s'.history[k].call].pc.Done?
    requires var call := s'.calls[s'.history[k].call];
             Planned(call.cmd) && Undisturbing(actions, s'.history[k].call, call.inst)
    requires CleanAt(src, ReplayFirst(p, s'.origin, s'.history, k), q)
    ensures var call := s'.calls[s'.history[k].call];
            && CleanAt(src, ReplayFirst(p, s'.origin, s'.history, k + 1), Target(src, call.cmd, q))
            && call.pc.result.err == PlanErr(p.plan(call.cmd, At(src, q)))
  {
    RecordNotDisturbed(p, s, actions, s', k);
    UndisturbedMoves(p, src, ReplayFirst(p, s'.origin, s'.history, k), s'.history[k], q);
  }

  lemma RecordNotDisturbed(p: Planning, s: State, actions: seq<Action>, s': State, k: nat)
    requires PlanningOk(p) && AllInv(p, s') && AllExplained(p, s, actions, |actions|, s')
    requires k < |s'.history| && s'.history[k].call in s'.calls && s'.calls[s'.history[k].call].pc.Done?
    requires var call := s'.calls[s'.history[k].call];
             !call.cmd.Force? && Undisturbing(actions, s'.history[k].call, call.inst)
    ensures s'.history[k].cmd == s'.calls[s'.history[k].call].cmd
    ensures Undisturbed(p, ReplayFirst(p, s'.origin, s'.history, k), s'.history[k],
                        s'.calls[s'.history[k].call].pc.result.err)
  {
    var c := s'.history[k].call;
    assert OutcomeAt(s', k) && ExplainedAt(p, s, actions, |actions|, s', c);
    ResultNotDisturbed(p, s, actions, s', c);
    RecordUndisturbed(p, s', k);
  }

  lemma ResultNotDisturbed(p: Planning, s: State, actions: seq<Action>, s': State, c: nat)
    requires c in s'.calls && s'.calls[c].entered && s'.calls[c].pc.Done? && s'.calls[c].inst in s'.insts
    requires ExplainedAt(p, s, actions, |actions|, s', c) && Undisturbing(actions, c, s'.calls[c].inst)
    ensures s'.calls[c].pc.result.err != Some(DriverFault) && s'.calls[c].pc.result.err != Some(SourceFault)
    ensures !s'.insts[s'.calls[c].inst].stopFlag
  {
    UndisturbedHasNoReason(p, s, actions, c, s'.calls[c].inst);
  }

  lemma UndisturbedMoves(p: Planning, src: Source, base: Db, rec: Record, q: nat)
    requires Moves(p, src) && CleanAt(src, base, q) && Planned(rec.cmd)
    requires rec.pr == Progress(|p.migs(rec.cmd, base.version)|, Untouched)
    ensures CleanAt(src, RecordEffect(p, base, rec), Target(src, rec.cmd, q))
  {
    Arrives(p, src, rec.cmd, base, q);
  }

  /** In every run, a Force that returned no error got the lock and stored exactly its version, as
      clean; one that returned an error stored nothing. */
  lemma ForceStores(src: Source, s: State, actions: seq<Action>, s': State, k: nat)
    requires src.Valid() && Reaches(PlanningOf(src), s, actions, s') && k < |s'.history|
    requires var c := s'.history[k].call; c in s'.calls && s'.calls[c].pc.Done? && s'.calls[c].cmd.Force?
    ensures var p, call := PlanningOf(src), s'.calls[s'.history[k].call];
            var base, after := ReplayFirst(p, s.origin, s'.history, k), ReplayFirst(p, s.origin, s'.history, k + 1);
            after == if call.pc.result.err.None? then Db(call.cmd.v, false, base.journal + [Forced(call.cmd.v)]) else base
  {
    ReachableInv(src, s, actions, s');
    assert OutcomeAt(s', k) && ValidAt(PlanningOf(src), s.origin, s'.history, k);
  }

  /** A call on an instance that has the lock is refused at once, and touches nothing. */
  lemma LockedInstanceRefuses(p: Planning, s: State, c: nat)
    requires c in s.calls && s.calls[c].pc.Start? && !BadArgument(s.calls[c].cmd)
    requires s.calls[c].inst in s.insts && s.insts[s.calls[c].inst].isLocked && s.insts[s.calls[c].inst].mutex.None?
    ensures Apply(p, s, Act(c, CallBegin)) ==
            Some(s.(calls := s.calls[c := s.calls[c].(pc := Done(Result(Some(Locked), None)))]))
  {
    var t := Apply(p, s, Act(c, CallBegin)).value;
    assert t.insts == s.insts;
  }
}

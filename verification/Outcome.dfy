/** What every returned call amounts to, in every interleaving: each call that got the lock
    has exactly one record, the record is a legal serial outcome, it carries the error the
    call returned, and the records replayed in order give the database. */
module Outcome {
  import opened Types
  import opened VersionIndex
  import opened Planner
  import opened Engine
  import opened System
  import opened LockSafety
  import opened Serial

  /** The error a call that has finished its own work is going to return, or returned. */
  function ErrAt(pc: Pc): Option<Err> {
    match pc
    case UnlockWait(e) => e
    case UnlockHeld(e) => e
    case UnlockDelete(e) => e
    case UnlockRestore(e) => e
    case UnlockClear(e) => e
    case Done(r) => r.err
    case _ => None
  }

  predicate OutcomeFor(rec: Record, call: Call, inst: Instance) {
    && call.entered && rec.cmd == call.cmd && rec.pr == call.pr
    && (if InSession(call.pc) then rec.exit.Working?
        else !rec.exit.Working? && ErrOf(rec) == ErrAt(call.pc))
    && (rec.exit == Drained(true) || rec.exit.StopSeen? ==> inst.stopFlag)
  }

  /** A reader cut by a stop has left the flag set. */
  predicate CutOk(call: Call, inst: Instance) {
    call.pipe.reader.Reader? && call.pipe.reader.cut.StopCut? ==> inst.stopFlag
  }

  /** The action noted a new last record for its call: replacing one, or a first one. */
  ghost predicate NewRecord(v: View, w: View, c: nat) {
    var n := |w.history|;
    && n > 0 && w.history[n - 1].call == c && OutcomeFor(w.history[n - 1], w.call, w.inst)
    && (if v.call.entered then
          InSession(v.call.pc) && w.history[..n - 1] == (if |v.history| == 0 then [] else v.history[..|v.history| - 1])
        else w.history[..n - 1] == v.history)
  }

  /** The action left the records alone, and nothing a record says of the call changed. */
  ghost predicate SameRecords(v: View, w: View) {
    && w.history == v.history && w.call.entered == v.call.entered
    && w.call.cmd == v.call.cmd && w.call.pr == v.call.pr
    && InSession(w.call.pc) == InSession(v.call.pc)
    && (v.call.entered && !InSession(v.call.pc) ==> ErrAt(w.call.pc) == ErrAt(v.call.pc))
  }

  /** How an action affects the record of its call. */
  ghost predicate OutcomeStep(v: View, w: View, c: nat) {
    && CutOk(w.call, w.inst) && (w.inst.stopFlag || !v.inst.stopFlag)
    && (SameRecords(v, w) || NewRecord(v, w, c))
  }

  /** The last record was replaced. */
  lemma Noted(v: View, w: View, c: nat, rec: Record)
    requires v.call.entered && InSession(v.call.pc)
    requires w.history == (if |v.history| == 0 then [] else v.history[..|v.history| - 1]) + [rec]
    requires rec.call == c && OutcomeFor(rec, w.call, w.inst)
    requires CutOk(w.call, w.inst) && (w.inst.stopFlag || !v.inst.stopFlag)
    ensures OutcomeStep(v, w, c)
  {
    assert w.history[..|w.history| - 1] == if |v.history| == 0 then [] else v.history[..|v.history| - 1];
  }

  /** The call leaves its session; `x` is its view after the stop flag was asked for. */
  lemma LeaveOutcome(v: View, c: nat, x: View, err: Option<Err>, exit: Exit)
    requires v.call.entered && InSession(v.call.pc) && x.call == v.call && x.history == v.history
    requires !exit.Working? && ErrOf(Record(c, v.call.cmd, v.call.pr, false, exit)) == err
    requires exit == Drained(true) || exit.StopSeen? ==> x.inst.stopFlag
    requires CutOk(v.call, v.inst) && (x.inst.stopFlag || !v.inst.stopFlag)
    ensures OutcomeStep(v, Leave(x, c, err, exit), c)
  {
    Noted(v, Leave(x, c, err, exit), c, Record(c, v.call.cmd, v.call.pr, false, exit));
  }

  lemma LockOutcome(v: View, c: nat, step: Step, w: View)
    requires ViewOk(v, c) && CutOk(v.call, v.inst) && LockAction(v, c, step) == Some(w)
    ensures OutcomeStep(v, w, c)
  {
    if step.LockReturn? && v.call.locker.Got? {
      assert w.history[..|w.history| - 1] == v.history;
      assert NewRecord(v, w, c);
    }
  }

  lemma UnlockOutcome(v: View, c: nat, step: Step, w: View)
    requires UnlockAction(v, c, step) == Some(w) && CutOk(v.call, v.inst)
    ensures OutcomeStep(v, w, c)
  {
    assert SameRecords(v, w);
  }

  lemma OpenOutcome(p: Planning, v: View, c: nat, step: Step, w: View)
    requires ViewOk(v, c) && LocalOk(v.call) && CutOk(v.call, v.inst) && OpenAction(p, v, c, step) == Some(w)
    ensures OutcomeStep(v, w, c)
  {
    if InSession(w.call.pc) {
      assert SameRecords(v, w);
    } else if step.ReadVersion? && step.fault {
      LeaveOutcome(v, c, v, Some(DriverFault), Refused(DriverFault));
    } else if step.ReadVersion? {
      LeaveOutcome(v, c, v, Some(DirtyVersion(v.db.version)), Refused(DirtyVersion(v.db.version)));
    } else {
      Noted(v, w, c, Record(c, v.call.cmd, v.call.pr, !step.fault, if step.fault then DriverError else Drained(false)));
    }
  }

  lemma ReaderOutcome(v: View, c: nat, step: Step, w: View)
    requires CutOk(v.call, v.inst) && ReaderAction(v, step) == Some(w)
    ensures OutcomeStep(v, w, c)
  {
    assert SameRecords(v, w);
  }

  lemma ReceiveOutcome(v: View, c: nat, step: Step, w: View)
    requires ViewOk(v, c) && LocalOk(v.call) && CutOk(v.call, v.inst) && ReceiveAction(v, c, step) == Some(w)
    ensures OutcomeStep(v, w, c)
  {
    if step.SeeClosed? {
      LeaveOutcome(v, c, v, None, Drained(v.call.pipe.reader.cut.StopCut?));
    } else {
      assert SameRecords(v, w);
    }
  }

  lemma ConsumerPollOutcome(v: View, c: nat, w: View)
    requires ViewOk(v, c) && LocalOk(v.call) && CutOk(v.call, v.inst) && ConsumerPollAction(v, c) == Some(w)
    ensures OutcomeStep(v, w, c)
  {
    var answer := StopStep(v.call.pc.poll, v.inst);
    if InSession(w.call.pc) {
      assert SameRecords(v, w);
    } else if answer.stop {
      LeaveOutcome(v, c, v.(inst := answer.inst), None, StopSeen);
    } else {
      var err := v.call.pc.item.err;
      LeaveOutcome(v, c, v.(inst := answer.inst), Some(err), PlanError(err));
    }
  }

  lemma SetDirtyOutcome(v: View, c: nat, fault: bool, w: View)
    requires ViewOk(v, c) && CutOk(v.call, v.inst) && !v.call.cmd.Force?
    requires MigrateAction(v, c, SetDirty(fault)) == Some(w)
    ensures OutcomeStep(v, w, c)
  {
    if fault { LeaveOutcome(v, c, v, Some(DriverFault), DriverError); }
    else { Noted(v, w, c, Record(c, v.call.cmd, w.call.pr, false, Working)); }
  }

  lemma RunMigrationOutcome(v: View, c: nat, fault: bool, w: View)
    requires ViewOk(v, c) && CutOk(v.call, v.inst) && !v.call.cmd.Force?
    requires MigrateAction(v, c, RunMigration(fault)) == Some(w)
    ensures OutcomeStep(v, w, c)
  {
    Noted(v, w, c, Record(c, v.call.cmd, w.call.pr, false, if fault then DriverError else Working));
  }

  lemma SetCleanOutcome(v: View, c: nat, fault: bool, w: View)
    requires ViewOk(v, c) && CutOk(v.call, v.inst) && !v.call.cmd.Force?
    requires MigrateAction(v, c, SetClean(fault)) == Some(w)
    ensures OutcomeStep(v, w, c)
  {
    if fault { LeaveOutcome(v, c, v, Some(DriverFault), DriverError); }
    else { Noted(v, w, c, Record(c, v.call.cmd, w.call.pr, false, Working)); }
  }

  lemma LockStepsOutcome(p: Planning, v: View, c: nat, step: Step, w: View)
    requires ViewOk(v, c) && LocalOk(v.call) && CutOk(v.call, v.inst) && CallAction(p, v, c, step) == Some(w)
    requires LockStep(step)
    ensures OutcomeStep(v, w, c)
  {
    match step
    case CallBegin | LockerCas | LockerTx(_) | LockerRestore | LockReturn | LockTimedOut =>
      LockOutcome(v, c, step, w);
    case UnlockAcquire | UnlockCas | DeleteRow(_) | RestoreFlag | ClearLocked =>
      UnlockOutcome(v, c, step, w);
  }

  lemma WorkStepsOutcome(p: Planning, v: View, c: nat, step: Step, w: View)
    requires ViewOk(v, c) && LocalOk(v.call) && CutOk(v.call, v.inst) && CallAction(p, v, c, step) == Some(w)
    requires !LockStep(step)
    ensures OutcomeStep(v, w, c)
  {
    match step
    case ReadVersion(_) | WriteForce(_) => OpenOutcome(p, v, c, step, w);
    case ReaderPoll | ReaderLook | ReaderSend | ReaderFault | ReaderClose => ReaderOutcome(v, c, step, w);
    case Handoff | Take | SeeClosed => ReceiveOutcome(v, c, step, w);
    case ConsumerPoll => ConsumerPollOutcome(v, c, w);
    case SetDirty(fault) => SetDirtyOutcome(v, c, fault, w);
    case RunMigration(fault) => RunMigrationOutcome(v, c, fault, w);
    case SetClean(fault) => SetCleanOutcome(v, c, fault, w);
  }

  lemma CallActionOutcome(p: Planning, v: View, c: nat, step: Step, w: View)
    requires ViewOk(v, c) && LocalOk(v.call) && CutOk(v.call, v.inst) && CallAction(p, v, c, step) == Some(w)
    ensures OutcomeStep(v, w, c)
  {
    if LockStep(step) { LockStepsOutcome(p, v, c, step, w); } else { WorkStepsOutcome(p, v, c, step, w); }
  }

  // ----- the whole system -----------------------------------------------------------------

  ghost predicate OutcomeAt(s: State, k: nat)
    requires k < |s.history|
  {
    var rec := s.history[k];
    && rec.call in s.calls && s.calls[rec.call].inst in s.insts
    && OutcomeFor(rec, s.calls[rec.call], s.insts[s.calls[rec.call].inst])
  }

  ghost predicate Recorded(h: seq<Record>, c: nat) {
    exists k :: 0 <= k < |h| && h[k].call == c
  }

  ghost predicate OutcomeInv(s: State) {
    && (forall k :: 0 <= k < |s.history| ==> OutcomeAt(s, k))
    && (forall j, k :: 0 <= j < k < |s.history| ==> s.history[j].call != s.history[k].call)
    && (forall c :: c in s.calls && s.calls[c].entered ==> Recorded(s.history, c))
    && (forall c :: c in s.calls && s.calls[c].inst in s.insts ==>
          CutOk(s.calls[c], s.insts[s.calls[c].inst]))
  }

  /** Records of the other calls are untouched, and stop flags only ever get set. */
  lemma OtherRecords(s: State, c: nat, w: View, s': State, k: nat)
    requires LockInv(s) && OutcomeInv(s) && c in s.calls && s.calls[c].inst in s.insts
    requires s' == WriteBack(s, c, w) && (w.inst.stopFlag || !s.insts[s.calls[c].inst].stopFlag)
    requires w.call.inst == s.calls[c].inst
    requires k < |s.history| && k < |s'.history| && s'.history[k] == s.history[k] && s.history[k].call != c
    ensures OutcomeAt(s', k)
  {
    assert OutcomeAt(s, k);
  }

  lemma SameRecordsKeep(s: State, c: nat, w: View, s': State)
    requires LockInv(s) && OutcomeInv(s) && c in s.calls && s.calls[c].inst in s.insts
    requires s' == WriteBack(s, c, w) && w.call.inst == s.calls[c].inst
    requires OutcomeStep(ViewOf(s, c), w, c) && SameRecords(ViewOf(s, c), w)
    ensures OutcomeInv(s')
  {
    forall k | 0 <= k < |s'.history| ensures OutcomeAt(s', k) {
      assert OutcomeAt(s, k);
      if s.history[k].call != c { OtherRecords(s, c, w, s', k); }
    }
    forall d | d in s'.calls && s'.calls[d].entered ensures Recorded(s'.history, d) {
      assert Recorded(s.history, d);
    }
  }

  /** The history after the call's own last record was replaced, or its first one added. */
  ghost predicate OneNew(h: seq<Record>, h': seq<Record>, c: nat) {
    var n := |h'| - 1;
    && n >= 0 && n <= |h| <= n + 1 && h'[n].call == c
    && (forall k :: 0 <= k < n ==> h'[k] == h[k])
    && (forall k :: 0 <= k < n ==> h[k].call != c)
    && (|h| == n + 1 ==> h[n].call == c)
  }

  lemma NewRecordIsOneNew(s: State, c: nat, w: View)
    requires OutcomeInv(s) && c in s.calls && s.calls[c].inst in s.insts
    requires NewRecord(ViewOf(s, c), w, c)
    requires s.calls[c].entered ==> |s.history| > 0 && s.history[|s.history| - 1].call == c
    ensures OneNew(s.history, w.history, c)
  {
    var n := |w.history| - 1;
    assert forall k :: 0 <= k < n ==> w.history[k] == w.history[..n][k] == s.history[k];
    forall k | 0 <= k < n ensures s.history[k].call != c {
      assert OutcomeAt(s, k);
    }
  }

  lemma OneNewRecorded(h: seq<Record>, h': seq<Record>, c: nat, d: nat)
    requires OneNew(h, h', c) && (d == c || Recorded(h, d))
    ensures Recorded(h', d)
  {
    if d == c {
      assert h'[|h'| - 1].call == c;
    } else {
      var k :| 0 <= k < |h| && h[k].call == d;
      assert h'[k].call == d;
    }
  }

  lemma NewRecordKeeps(s: State, c: nat, w: View, s': State)
    requires LockInv(s) && OutcomeInv(s) && c in s.calls && s.calls[c].inst in s.insts
    requires s' == WriteBack(s, c, w) && w.call.inst == s.calls[c].inst
    requires OneNew(s.history, w.history, c) && OutcomeFor(w.history[|w.history| - 1], w.call, w.inst)
    requires CutOk(w.call, w.inst) && (w.inst.stopFlag || !s.insts[s.calls[c].inst].stopFlag)
    ensures OutcomeInv(s')
  {
    forall k | 0 <= k < |s'.history| ensures OutcomeAt(s', k) { RecordKept(s, c, w, s', k); }
    forall d | d in s'.calls && s'.calls[d].inst in s'.insts ensures CutOk(s'.calls[d], s'.insts[s'.calls[d].inst]) {
      CutKept(s, c, w, s', d);
    }
    forall d | d in s'.calls && s'.calls[d].entered ensures Recorded(s'.history, d) {
      OneNewRecorded(s.history, s'.history, c, d);
    }
    OneNewDistinct(s.history, s'.history, c);
  }

  lemma RecordKept(s: State, c: nat, w: View, s': State, k: nat)
    requires LockInv(s) && OutcomeInv(s) && c in s.calls && s.calls[c].inst in s.insts && k < |w.history|
    requires s' == WriteBack(s, c, w) && w.call.inst == s.calls[c].inst
    requires OneNew(s.history, w.history, c) && OutcomeFor(w.history[|w.history| - 1], w.call, w.inst)
    requires w.inst.stopFlag || !s.insts[s.calls[c].inst].stopFlag
    ensures OutcomeAt(s', k)
  {
    if k < |w.history| - 1 { OtherRecords(s, c, w, s', k); }
  }

  lemma CutKept(s: State, c: nat, w: View, s': State, d: nat)
    requires LockInv(s) && OutcomeInv(s) && c in s.calls && s.calls[c].inst in s.insts && d in s.calls
    requires s' == WriteBack(s, c, w) && w.call.inst == s.calls[c].inst && s'.calls[d].inst in s'.insts
    requires CutOk(w.call, w.inst) && (w.inst.stopFlag || !s.insts[s.calls[c].inst].stopFlag)
    ensures CutOk(s'.calls[d], s'.insts[s'.calls[d].inst])
  {
    assert CallInv(s, d);
  }

  lemma OneNewDistinct(h: seq<Record>, h': seq<Record>, c: nat)
    requires OneNew(h, h', c) && forall j, k :: 0 <= j < k < |h| ==> h[j].call != h[k].call
    ensures forall j, k :: 0 <= j < k < |h'| ==> h'[j].call != h'[k].call
  {
  }

  lemma ViewKeepsOutcomeInv(p: Planning, s: State, c: nat, w: View)
    requires SerialInv(p, s) && OutcomeInv(s) && c in s.calls && s.calls[c].inst in s.insts
    requires OutcomeStep(ViewOf(s, c), w, c) && w.call.inst == s.calls[c].inst
    ensures OutcomeInv(WriteBack(s, c, w))
  {
    if SameRecords(ViewOf(s, c), w) {
      SameRecordsKeep(s, c, w, WriteBack(s, c, w));
    } else {
      assert SerialAt(p, s, c);
      NewRecordIsOneNew(s, c, w);
      NewRecordKeeps(s, c, w, WriteBack(s, c, w));
    }
  }

  lemma SignalKeepsOutcomeInv(p: Planning, s: State, i: nat, s': State)
    requires OutcomeInv(s) && Apply(p, s, Signal(i)) == Some(s')
    ensures OutcomeInv(s')
  {
    forall k | 0 <= k < |s'.history| ensures OutcomeAt(s', k) { assert OutcomeAt(s, k); }
    forall d | d in s'.calls && s'.calls[d].entered ensures Recorded(s'.history, d) {
      assert Recorded(s.history, d);
    }
  }

  lemma StepKeepsOutcomeInv(p: Planning, s: State, a: Action, s': State)
    requires SerialInv(p, s) && OutcomeInv(s) && Apply(p, s, a) == Some(s')
    ensures OutcomeInv(s')
  {
    match a
    case Signal(i) => SignalKeepsOutcomeInv(p, s, i, s');
    case Act(c, step) =>
      assert CallInv(s, c) && SerialAt(p, s, c);
      var w := CallAction(p, ViewOf(s, c), c, step).value;
      CallActionEffect(p, ViewOf(s, c), c, step, w);
      CallActionOutcome(p, ViewOf(s, c), c, step, w);
      ViewKeepsOutcomeInv(p, s, c, w);
  }

  // ----- plans are made from the state the call found ----------------------------------------

  /** The plan of the call with record k was made from the state before that record. */
  ghost predicate PlannedAt(p: Planning, s: State, k: nat)
    requires k < |s.history|
  {
    s.history[k].call in s.calls && s.calls[s.history[k].call].pipe.reader.Reader? ==>
      var call := s.calls[s.history[k].call];
      call.pipe.plan == p.plan(call.cmd, ReplayFirst(p, s.origin, s.history, k).version)
  }

  ghost predicate PlansInv(p: Planning, s: State) {
    forall k :: 0 <= k < |s.history| ==> PlannedAt(p, s, k)
  }

  lemma PlanKept(p: Planning, v: View, c: nat, step: Step, w: View)
    requires CallAction(p, v, c, step) == Some(w)
    ensures || Consuming(w.call.pc)
            || (w.call.pipe.plan == v.call.pipe.plan && w.call.pipe.reader.Reader? == v.call.pipe.reader.Reader?)
    ensures w.call.entered && !v.call.entered ==> v.call.pc.LockWait? && !Consuming(w.call.pc)
    ensures w.call.cmd == v.call.cmd
  {
    if LockStep(step) { PlanKeptLocking(p, v, c, step, w); } else { PlanKeptWorking(p, v, c, step, w); }
  }

  lemma PlanKeptLocking(p: Planning, v: View, c: nat, step: Step, w: View)
    requires LockStep(step) && CallAction(p, v, c, step) == Some(w)
    ensures w.call.pipe == v.call.pipe && w.call.cmd == v.call.cmd
    ensures w.call.entered && !v.call.entered ==> v.call.pc.LockWait? && !Consuming(w.call.pc)
  {
  }

  lemma PlanKeptWorking(p: Planning, v: View, c: nat, step: Step, w: View)
    requires !LockStep(step) && CallAction(p, v, c, step) == Some(w)
    ensures || Consuming(w.call.pc)
            || (w.call.pipe.plan == v.call.pipe.plan && w.call.pipe.reader.Reader? == v.call.pipe.reader.Reader?)
    ensures w.call.entered == v.call.entered && w.call.cmd == v.call.cmd
  {
    match step
    case ReaderPoll | ReaderLook | ReaderSend | ReaderFault | ReaderClose => ReaderTouchesPipe(v, step, w);
    case SetDirty(_) | RunMigration(_) | SetClean(_) => MigrateKeepsPipe(v, c, step, w);
    case _ =>
  }

  lemma MigrateKeepsPipe(v: View, c: nat, step: Step, w: View)
    requires MigrateAction(v, c, step) == Some(w)
    ensures w.call.pipe == v.call.pipe && w.call.entered == v.call.entered && w.call.cmd == v.call.cmd
  {
  }

  /** The records before k are the same, and so is the call of record k. */
  lemma SamePlan(p: Planning, s: State, s': State, k: nat)
    requires PlansInv(p, s) && s'.origin == s.origin && k < |s.history| && k < |s'.history|
    requires forall i :: 0 <= i < k ==> s'.history[i] == s.history[i]
    requires s'.history[k].call == s.history[k].call
    requires var c := s.history[k].call; c in s.calls <==> c in s'.calls
    requires var c := s.history[k].call; c in s.calls ==>
               && s'.calls[c].pipe.plan == s.calls[c].pipe.plan && s'.calls[c].cmd == s.calls[c].cmd
               && s'.calls[c].pipe.reader.Reader? == s.calls[c].pipe.reader.Reader?
    ensures PlannedAt(p, s', k)
  {
    assert PlannedAt(p, s, k);
    ReplayPrefix(p, s.origin, s'.history, s.history, k);
  }

  /** What a call's session says about its record and plan. */
  lemma SessionPlan(p: Planning, s: State, c: nat)
    requires c in s.calls && s.calls[c].inst in s.insts && SerialAt(p, s, c)
    ensures InSession(s.calls[c].pc) ==> |s.history| > 0 && s.history[|s.history| - 1].call == c
    ensures Consuming(s.calls[c].pc) ==> PlannedAt(p, s, |s.history| - 1)
    ensures s.calls[c].pc.LockWait? ==> s.calls[c].pipe == NO_PIPE
  {
  }

  ghost predicate DistinctCalls(h: seq<Record>) {
    forall j, k :: 0 <= j < k < |h| ==> h[j].call != h[k].call
  }

  lemma ActKeepsPlan(p: Planning, s: State, c: nat, w: View, s': State, k: nat)
    requires PlansInv(p, s) && c in s.calls && s.calls[c].inst in s.insts && s' == WriteBack(s, c, w)
    requires DistinctCalls(s'.history) && k < |s'.history|
    requires OutcomeStep(ViewOf(s, c), w, c) && w.call.cmd == s.calls[c].cmd
    requires if Consuming(w.call.pc) then
               |s'.history| > 0 && s'.history[|s'.history| - 1].call == c && PlannedAt(p, s', |s'.history| - 1)
             else
               && w.call.pipe.plan == s.calls[c].pipe.plan
               && w.call.pipe.reader.Reader? == s.calls[c].pipe.reader.Reader?
    requires s'.history[k].call == c && !s.calls[c].entered ==> !w.call.pipe.reader.Reader?
    requires s.calls[c].entered && InSession(s.calls[c].pc) ==>
               |s.history| > 0 && s.history[|s.history| - 1].call == c
    ensures PlannedAt(p, s', k)
  {
    if s'.history[k].call == c && (Consuming(w.call.pc) || !s.calls[c].entered) {
    } else {
      OldRecord(s, c, w, s', k);
      SamePlan(p, s, s', k);
    }
  }

  /** Record k of another call, or of a call that had one, was already there. */
  lemma OldRecord(s: State, c: nat, w: View, s': State, k: nat)
    requires c in s.calls && s.calls[c].inst in s.insts && s' == WriteBack(s, c, w)
    requires OutcomeStep(ViewOf(s, c), w, c) && k < |s'.history|
    requires s'.history[k].call == c ==> s.calls[c].entered
    requires s.calls[c].entered && InSession(s.calls[c].pc) ==>
               |s.history| > 0 && s.history[|s.history| - 1].call == c
    ensures k < |s.history| && s'.history[k].call == s.history[k].call
    ensures forall i :: 0 <= i < k ==> s'.history[i] == s.history[i]
  {
    if !SameRecords(ViewOf(s, c), w) {
      var n := |s'.history| - 1;
      assert forall i :: 0 <= i < n ==> s'.history[i] == s'.history[..n][i] == s.history[i];
    }
  }

  lemma StepKeepsPlans(p: Planning, s: State, a: Action, s': State)
    requires SerialInv(p, s) && OutcomeInv(s) && PlansInv(p, s) && Apply(p, s, a) == Some(s')
    requires SerialInv(p, s') && OutcomeInv(s')
    ensures PlansInv(p, s')
  {
    match a
    case Signal(i) =>
      forall k | 0 <= k < |s'.history| ensures PlannedAt(p, s', k) { SamePlan(p, s, s', k); }
    case Act(c, step) =>
      assert CallInv(s, c) && SerialAt(p, s, c) && SerialAt(p, s', c);
      var w := CallAction(p, ViewOf(s, c), c, step).value;
      CallActionEffect(p, ViewOf(s, c), c, step, w);
      CallActionOutcome(p, ViewOf(s, c), c, step, w);
      PlanKept(p, ViewOf(s, c), c, step, w);
      SessionPlan(p, s, c);
      SessionPlan(p, s', c);
      forall k | 0 <= k < |s'.history| ensures PlannedAt(p, s', k) {
        assert OutcomeAt(s', k);
        ActKeepsPlan(p, s, c, w, s', k);
      }
  }

  /** Everything that holds in a reachable state. */
  ghost predicate AllInv(p: Planning, s: State) {
    SerialInv(p, s) && OutcomeInv(s) && PlansInv(p, s)
  }

  lemma StepKeepsAllInv(p: Planning, s: State, a: Action, s': State)
    requires PlanningOk(p) && AllInv(p, s) && Apply(p, s, a) == Some(s')
    ensures AllInv(p, s') && s'.origin == s.origin
  {
    StepKeepsSerialInv(p, s, a, s');
    StepKeepsOutcomeInv(p, s, a, s');
    StepKeepsPlans(p, s, a, s');
  }

  lemma {:induction false} RunKeepsAllInv(p: Planning, s: State, actions: seq<Action>, n: nat)
    requires PlanningOk(p) && n <= |actions| && AllInv(p, s)
    ensures Run(p, s, actions, n).Some? ==>
              AllInv(p, Run(p, s, actions, n).value) && Run(p, s, actions, n).value.origin == s.origin
  {
    if n > 0 {
      RunKeepsAllInv(p, s, actions, n - 1);
      if Run(p, s, actions, n).Some? {
        StepKeepsAllInv(p, Run(p, s, actions, n - 1).value, actions[n - 1], Run(p, s, actions, n).value);
      }
    }
  }

  lemma ReachableInv(src: Source, s: State, actions: seq<Action>, s': State)
    requires src.Valid() && Reaches(PlanningOf(src), s, actions, s')
    ensures PlanningOk(PlanningOf(src)) && AllInv(PlanningOf(src), s') && s'.origin == s.origin
  {
    PlanningOfIsOk(src);
    InitialSerialInv(PlanningOf(src), s);
    RunKeepsAllInv(PlanningOf(src), s, actions, |actions|);
  }

  // ----- theorems ----------------------------------------------------------------------------

  /** The record of a call that returned says why, and carries the error it returned. */
  predicate Concluded(s: State, k: nat)
    requires k < |s.history|
  {
    var rec := s.history[k];
    && rec.call in s.calls
    && (s.calls[rec.call].pc.Done? ==>
          !rec.exit.Working? && s.calls[rec.call].pc.result.err == ErrOf(rec) && s.calls[rec.call].pr == rec.pr)
  }

  /** Every interleaving leaves the register and journal that the calls which got the lock
      leave when run one after the other in the order they got it; each has exactly one record,
      a legal serial outcome, and a call that returned returned the error of its record. */
  lemma Serialisable(src: Source, s: State, actions: seq<Action>, s': State)
    requires src.Valid() && Reaches(PlanningOf(src), s, actions, s')
    ensures var p := PlanningOf(src);
            && s'.db == Replay(p, s.origin, s'.history)
            && ValidHistory(p, s.origin, s'.history)
    ensures forall c :: c in s'.calls ==> (s'.calls[c].entered <==> Recorded(s'.history, c))
    ensures forall j, k :: 0 <= j < k < |s'.history| ==> s'.history[j].call != s'.history[k].call
    ensures forall k :: 0 <= k < |s'.history| ==> Concluded(s', k)
  {
    ReachableInv(src, s, actions, s');
    RecordsConclude(s');
  }

  lemma RecordsConclude(s: State)
    requires OutcomeInv(s)
    ensures forall c :: c in s.calls ==> (s.calls[c].entered <==> Recorded(s.history, c))
    ensures forall k :: 0 <= k < |s.history| ==> Concluded(s, k)
  {
    forall k | 0 <= k < |s.history|
      ensures Concluded(s, k) && s.calls[s.history[k].call].entered
    {
      assert OutcomeAt(s, k);
    }
  }

  lemma {:induction false} DoneStaysOut(p: Planning, s: State, actions: seq<Action>, n: nat, c: nat)
    requires PlanningOk(p) && AllInv(p, s) && n <= |actions|
    requires c in s.calls && s.calls[c].pc.Done? && !s.calls[c].entered
    requires Run(p, s, actions, n).Some?
    ensures var t := Run(p, s, actions, n).value;
            AllInv(p, t) && c in t.calls && t.calls[c].pc == s.calls[c].pc && !t.calls[c].entered
  {
    if n > 0 {
      DoneStaysOut(p, s, actions, n - 1, c);
      var t, t' := Run(p, s, actions, n - 1).value, Run(p, s, actions, n).value;
      StepKeepsAllInv(p, t, actions[n - 1], t');
      DoneIsFinal(p, t, actions[n - 1], t', c);
    }
  }

  /** A call that returned without getting the lock, because it was refused or timed out, has no
      part in the history of any continuation, even if its lock attempt succeeds later. */
  lemma FailedLockHasNoEffect(src: Source, s: State, before: seq<Action>, t: State, after: seq<Action>, u: State, c: nat)
    requires src.Valid() && Reaches(PlanningOf(src), s, before, t)
    requires Run(PlanningOf(src), t, after, |after|) == Some(u)
    requires c in t.calls && t.calls[c].pc.Done? && !t.calls[c].entered
    ensures !Recorded(u.history, c) && c in u.calls && u.calls[c].pc == t.calls[c].pc
  {
    ReachableInv(src, s, before, t);
    DoneStaysOut(PlanningOf(src), t, after, |after|, c);
    RecordsConclude(u);
  }

  /** Items are a prefix of the plan, but for an error of the source at their end. */
  predicate PrefixOrFault(items: seq<Item>, plan: seq<Item>) {
    items <= plan || (|items| > 0 && items[|items| - 1] == Fail(SourceFault) && items[..|items| - 1] <= plan)
  }

  lemma FlowIsPrefix(pipe: Pipe)
    requires FlowOk(pipe) && pipe.reader.Reader?
    ensures PrefixOrFault(pipe.received + pipe.buf, pipe.plan)
  {
    var items, flow := pipe.received + pipe.buf, Flow(pipe);
    assert items <= flow;
    if pipe.reader.cut.FaultCut? {
      if |items| == |flow| { assert items == flow; } else { assert items <= flow[..|flow| - 1]; }
    }
  }

  /** For every channel capacity and interleaving, and for calls at work as well as for those
      that have returned: what was consumed and what is buffered are a prefix of the plan made
      from the state the call found under the lock, except that a failing source adds its error
      at the end; and while the call consumes, the database is its progress through that plan. */
  lemma ConsumedIsPlanPrefix(src: Source, s: State, actions: seq<Action>, s': State, k: nat)
    requires src.Valid() && Reaches(PlanningOf(src), s, actions, s') && k < |s'.history|
    requires var c := s'.history[k].call; c in s'.calls && s'.calls[c].pipe.reader.Reader?
    ensures var call, base := s'.calls[s'.history[k].call], ReplayFirst(PlanningOf(src), s.origin, s'.history, k);
            && call.pipe.plan == PlanFor(src, call.cmd, base.version)
            && PrefixOrFault(call.pipe.received + call.pipe.buf, call.pipe.plan)
            && (Consuming(call.pc) ==>
                  ValidProgress(Migs(call.pipe.plan), call.pr) && s'.db == Effect(base, Migs(call.pipe.plan), call.pr))
  {
    var p, c := PlanningOf(src), s'.history[k].call;
    ReachableInv(src, s, actions, s');
    assert CallInv(s', c) && SerialAt(p, s', c) && PlannedAt(p, s', k);
    assert DistinctCalls(s'.history);
    PrefixOfOwnPlan(p, s', c, k);
  }

  lemma PrefixOfOwnPlan(p: Planning, s: State, c: nat, k: nat)
    requires k < |s.history| && s.history[k].call == c && DistinctCalls(s.history)
    requires c in s.calls && s.calls[c].inst in s.insts && SerialAt(p, s, c)
    requires PlanningOk(p) && s.calls[c].pipe.reader.Reader? && PlannedAt(p, s, k)
    ensures var call, base := s.calls[c], ReplayFirst(p, s.origin, s.history, k);
            && PrefixOrFault(call.pipe.received + call.pipe.buf, call.pipe.plan)
            && (Consuming(call.pc) ==>
                  && ValidProgress(p.migs(call.cmd, base.version), call.pr)
                  && s.db == Effect(base, p.migs(call.cmd, base.version), call.pr))
  {
    FlowIsPrefix(s.calls[c].pipe);
    if Consuming(s.calls[c].pc) { assert s.history[|s.history| - 1].call == c; }
  }

  /** The one outcome of a command that nothing disturbs. */
  ghost predicate Undisturbed(p: Planning, base: Db, rec: Record, err: Option<Err>) {
    if base.dirty then
      err == Some(DirtyVersion(base.version)) && RecordEffect(p, base, rec) == base
    else
      && err == PlanErr(p.plan(rec.cmd, base.version))
      && rec.pr == Progress(|p.migs(rec.cmd, base.version)|, Untouched)
  }

  /** A call that returned while its instance saw no stop, and hit no driver or source fault,
      completed every migration of its plan and returned the plan's error: the outcome is a
      function of the command and the state before it, whatever the capacity and interleaving. */
  lemma CapacityIrrelevant(src: Source, s: State, actions: seq<Action>, s': State, k: nat)
    requires src.Valid() && Reaches(PlanningOf(src), s, actions, s')
    requires k < |s'.history| && !s'.history[k].cmd.Force?
    requires var c := s'.history[k].call;
             c in s'.calls && s'.calls[c].inst in s'.insts && s'.calls[c].pc.Done?
             && !s'.insts[s'.calls[c].inst].stopFlag
             && s'.calls[c].pc.result.err != Some(DriverFault)
             && s'.calls[c].pc.result.err != Some(SourceFault)
    ensures Undisturbed(PlanningOf(src), ReplayFirst(PlanningOf(src), s.origin, s'.history, k), s'.history[k],
                        s'.calls[s'.history[k].call].pc.result.err)
  {
    ReachableInv(src, s, actions, s');
    RecordUndisturbed(PlanningOf(src), s', k);
  }

  lemma RecordUndisturbed(p: Planning, s: State, k: nat)
    requires PlanningOk(p) && AllInv(p, s) && k < |s.history| && !s.history[k].cmd.Force?
    requires OutcomeAt(s, k)
    requires var call := s.calls[s.history[k].call];
             && call.pc.Done? && !s.insts[call.inst].stopFlag
             && call.pc.result.err != Some(DriverFault) && call.pc.result.err != Some(SourceFault)
    ensures Undisturbed(p, ReplayFirst(p, s.origin, s.history, k), s.history[k],
                        s.calls[s.history[k].call].pc.result.err)
  {
    assert ValidAt(p, s.origin, s.history, k);
    UndisturbedOutcome(p, ReplayFirst(p, s.origin, s.history, k), s.history[k]);
  }

  /** A finished record without stop, driver or source fault. */
  lemma UndisturbedOutcome(p: Planning, base: Db, rec: Record)
    requires PlanningOk(p) && ValidRecord(p, base, rec) && !rec.cmd.Force? && !rec.exit.Working?
    requires ErrOf(rec) != Some(DriverFault) && ErrOf(rec) != Some(SourceFault)
    requires rec.exit != Drained(true) && !rec.exit.StopSeen?
    ensures Undisturbed(p, base, rec, ErrOf(rec))
  {
    assert PlanAgrees(p, rec.cmd, base.version);
    if base.dirty { assert rec.pr == NO_PROGRESS; }
  }
}

/** What a stop means for the calls that come after it on the same instance: the flag stays set, so
    each of them ends at its first poll, before it has touched the database. */
module StopOrder {
  import opened Types
  import opened VersionIndex
  import opened Planner
  import opened Engine
  import opened System
  import opened LockSafety
  import opened Serial
  import opened Outcome
  import opened Liveness

  predicate StopExit(exit: Exit) {
    exit.StopSeen? || exit == Drained(true)
  }

  // ----- outcomes with the flag set from the start ------------------------------------------

  ghost predicate NoPolls(script: seq<Op>, n: int) {
    forall k :: 0 <= k < n && k < |script| ==> !script[k].Poll?
  }

  /** The script polls before it has sent anything. */
  ghost predicate SilentPoll(script: seq<Op>) {
    exists i :: 0 <= i < |script| && script[i].Poll? && NoPolls(script, i) && SendsOfFirst(script, i) == []
  }

  /** The script does something else before it polls. */
  predicate LatePoll(script: seq<Op>) {
    |script| > 0 && !script[0].Poll?
  }

  /** How a call can end when the stop flag was set before it got the lock. */
  ghost predicate FlaggedEnding(script: seq<Op>, exit: Exit) {
    match exit
    case Working => true
    case Refused(_) => true
    case Drained(cut) => if cut then SilentPoll(script) else NoPolls(script, |script|) && Sends(script) == []
    case StopSeen => LatePoll(script)
    case PlanError(_) => false
    case DriverError => false
  }

  ghost predicate Flagged(p: Planning, db: Db, rec: Record) {
    !rec.cmd.Force? ==> rec.pr == NO_PROGRESS && FlaggedEnding(p.script(rec.cmd, db.version), rec.exit)
  }

  // ----- what holds of such a call at work ---------------------------------------------------

  ghost predicate FlaggedPipe(pipe: Pipe) {
    pipe.reader.Reader? ==>
      && pipe.reader.poll.Asking?
      && (|pipe.received| + |pipe.buf| > 0 ==> LatePoll(pipe.script))
      && match pipe.reader.cut
         case Whole => NoPolls(pipe.script, |pipe.script| - |pipe.reader.todo|)
         case StopCut => |pipe.received| + |pipe.buf| == 0 ==> SilentPoll(pipe.script)
         case FaultCut => LatePoll(pipe.script)
  }

  ghost predicate FlaggedCall(call: Call) {
    && call.pr == NO_PROGRESS && FlaggedPipe(call.pipe)
    && !(call.pc.WriteDirty? || call.pc.ExecBody? || call.pc.WriteClean?)
    && (call.pc.Polling? ==> call.pc.poll.Asking?)
  }

  /** The reader's next operation, and what it tells of the first one. */
  lemma NextOp(pipe: Pipe)
    requires FlowOk(pipe) && pipe.reader.Reader? && pipe.reader.cut.Whole? && |pipe.reader.todo| > 0
    requires NoPolls(pipe.script, |pipe.script| - |pipe.reader.todo|)
    ensures !pipe.reader.todo[0].Poll? ==>
              LatePoll(pipe.script) && NoPolls(pipe.script, |pipe.script| - |pipe.reader.todo[1..]|)
    ensures pipe.reader.todo[0].Poll? && |pipe.received| + |pipe.buf| == 0 ==> SilentPoll(pipe.script)
  {
    assert pipe.script[|pipe.script| - |pipe.reader.todo|..][0] == pipe.reader.todo[0];
    var k := |pipe.script| - |pipe.reader.todo|;
    var done := pipe.script[..k];
    assert pipe.script == done + pipe.reader.todo;
    SendsConcat(done, pipe.reader.todo);
    FirstOfConcat(done, pipe.reader.todo, k);
    assert |SendsOfFirst(pipe.script, k)| == |pipe.received + pipe.buf|;
  }

  /** The call leaves with this record. */
  ghost predicate LeftFlagged(p: Planning, base: Db, w: View) {
    |w.history| > 0 && Flagged(p, base, w.history[|w.history| - 1])
  }

  /** Where an action leaves such a call. */
  ghost predicate FlaggedAfter(p: Planning, base: Db, w: View) {
    if InSession(w.call.pc) then FlaggedCall(w.call) else LeftFlagged(p, base, w)
  }

  lemma ReaderFlagged(p: Planning, base: Db, v: View, step: Step, w: View)
    requires FlowOk(v.call.pipe) && FlaggedCall(v.call) && v.inst.stopFlag && InSession(v.call.pc)
    requires ReaderAction(v, step) == Some(w)
    ensures FlaggedAfter(p, base, w)
  {
    var pipe := v.call.pipe;
    if pipe.reader.cut.Whole? && |pipe.reader.todo| > 0 { NextOp(pipe); }
  }

  lemma ReceiveFlagged(p: Planning, base: Db, v: View, c: nat, step: Step, w: View)
    requires FlowOk(v.call.pipe) && FlaggedCall(v.call) && (step.Take? || step.Handoff?)
    requires ReceiveAction(v, c, step) == Some(w)
    ensures FlaggedAfter(p, base, w)
  {
    var pipe := v.call.pipe;
    if step.Handoff? && pipe.reader.cut.Whole? { NextOp(pipe); }
  }

  lemma ClosedFlagged(p: Planning, base: Db, v: View, c: nat, w: View)
    requires ViewSerial(p, base, v, c) && FlaggedCall(v.call) && ReceiveAction(v, c, SeeClosed) == Some(w)
    ensures FlaggedAfter(p, base, w)
  {
    ClosedMeansAll(v.call);
    assert w.history[|w.history| - 1] == Record(c, v.call.cmd, v.call.pr, false, Drained(v.call.pipe.reader.cut.StopCut?));
  }

  lemma PollFlagged(p: Planning, base: Db, v: View, c: nat, w: View)
    requires ViewSerial(p, base, v, c) && FlaggedCall(v.call) && v.inst.stopFlag && ConsumerPollAction(v, c) == Some(w)
    ensures FlaggedAfter(p, base, w)
  {
    assert w.history[|w.history| - 1] == Record(c, v.call.cmd, v.call.pr, false, StopSeen);
  }

  /** Such a call never gets to a migration. */
  lemma MigrateNotFlagged(v: View, c: nat, step: Step)
    requires FlaggedCall(v.call)
    ensures MigrateAction(v, c, step).None?
  {
  }

  lemma OpenFlagged(p: Planning, base: Db, v: View, c: nat, step: Step, w: View)
    requires ViewSerial(p, base, v, c) && FlaggedCall(v.call) && OpenAction(p, v, c, step) == Some(w)
    ensures FlaggedAfter(p, base, w)
  {
    if !InSession(w.call.pc) { OpenLeaves(p, v, c, step, w); }
  }

  lemma OpenLeaves(p: Planning, v: View, c: nat, step: Step, w: View)
    requires OpenAction(p, v, c, step) == Some(w) && !InSession(w.call.pc)
    ensures |w.history| > 0
    ensures var rec := w.history[|w.history| - 1];
            rec.cmd == v.call.cmd && rec.pr == v.call.pr && (rec.cmd.Force? || rec.exit.Refused?)
  {
  }

  lemma StepFlagged(p: Planning, base: Db, v: View, c: nat, step: Step, w: View)
    requires ViewSerial(p, base, v, c) && FlaggedCall(v.call) && v.inst.stopFlag && InSession(v.call.pc)
    requires !LockStep(step) && CallAction(p, v, c, step) == Some(w)
    ensures FlaggedAfter(p, base, w)
  {
    match step
    case ReadVersion(_) | WriteForce(_) => OpenFlagged(p, base, v, c, step, w);
    case ReaderPoll | ReaderLook | ReaderSend | ReaderFault | ReaderClose => ReaderFlagged(p, base, v, step, w);
    case Handoff | Take => ReceiveFlagged(p, base, v, c, step, w);
    case SeeClosed => ClosedFlagged(p, base, v, c, w);
    case ConsumerPoll => PollFlagged(p, base, v, c, w);
    case SetDirty(_) | RunMigration(_) | SetClean(_) => MigrateNotFlagged(v, c, step);
  }

  // ----- over whole runs -----------------------------------------------------------------------

  /** Records j and k are of calls on one instance, and j ended by a stop. */
  predicate StoppedOn(s: State, j: nat, k: nat)
    requires j < |s.history| && k < |s.history|
  {
    && StopExit(s.history[j].exit) && s.history[j].call in s.calls && s.history[k].call in s.calls
    && s.calls[s.history[j].call].inst == s.calls[s.history[k].call].inst
  }

  /** An earlier call on the instance of record k ended by a stop. */
  ghost predicate AfterStop(s: State, k: nat)
    requires k < |s.history|
  {
    exists j :: 0 <= j < k && StoppedOn(s, j, k)
  }

  ghost predicate FlaggedAt(p: Planning, s: State, k: nat)
    requires k < |s.history|
  {
    s.history[k].call in s.calls ==>
      && Flagged(p, ReplayFirst(p, s.origin, s.history, k), s.history[k])
      && (InSession(s.calls[s.history[k].call].pc) ==> FlaggedCall(s.calls[s.history[k].call]))
  }

  ghost predicate OrderAt(p: Planning, s: State, k: nat) {
    k < |s.history| && AfterStop(s, k) ==> FlaggedAt(p, s, k)
  }

  ghost predicate OrderInv(p: Planning, s: State) {
    forall k: nat {:trigger OrderAt(p, s, k)} :: OrderAt(p, s, k)
  }

  /** After a stop on the instance its flag is set. */
  lemma FlagAfterStop(s: State, k: nat)
    requires OutcomeInv(s) && k < |s.history| && AfterStop(s, k)
    ensures var c := s.history[k].call;
            c in s.calls && s.calls[c].inst in s.insts && s.insts[s.calls[c].inst].stopFlag
  {
    var j :| 0 <= j < k && StoppedOn(s, j, k);
    assert OutcomeAt(s, j);
  }

  /** Two states that agree on the records up to k and on the instances of the calls. */
  lemma SameAfterStop(s: State, s': State, k: nat)
    requires k < |s.history| && k < |s'.history| && s'.history[k].call == s.history[k].call
    requires forall i :: 0 <= i < k ==> s'.history[i] == s.history[i]
    requires s'.calls.Keys == s.calls.Keys && forall d :: d in s.calls ==> s'.calls[d].inst == s.calls[d].inst
    ensures AfterStop(s', k) ==> AfterStop(s, k)
  {
    if AfterStop(s', k) {
      var j :| 0 <= j < k && StoppedOn(s', j, k);
      assert StoppedOn(s, j, k);
    }
  }

  /** Record k and its call are as they were. */
  lemma OrderKept(p: Planning, s: State, s': State, k: nat)
    requires OrderInv(p, s) && k < |s.history| && k < |s'.history| && s'.history[k] == s.history[k]
    requires s'.origin == s.origin && forall i :: 0 <= i < k ==> s'.history[i] == s.history[i]
    requires s'.calls.Keys == s.calls.Keys && forall d :: d in s.calls ==> s'.calls[d].inst == s.calls[d].inst
    requires var c := s.history[k].call;
             c in s.calls ==> s'.calls[c] == s.calls[c] || !InSession(s'.calls[c].pc)
    ensures OrderAt(p, s', k)
  {
    SameAfterStop(s, s', k);
    assert OrderAt(p, s, k);
    ReplayPrefix(p, s.origin, s'.history, s.history, k);
  }

  /** The acting call is at work; `after` is what its action makes of a call whose instance was
      stopped before. */
  lemma OrderOfWorking(p: Planning, s: State, c: nat, w: View, s': State, k: nat)
    requires OutcomeInv(s) && OrderInv(p, s) && s.calls.Keys == s'.calls.Keys
    requires c in s.calls && s.calls[c].inst in s.insts && InSession(s.calls[c].pc) && w.call.inst == s.calls[c].inst
    requires s' == WriteBack(s, c, w) && k < |s'.history| && OutcomeAt(s', k)
    requires k == |s.history| - 1 == |s'.history| - 1 && s.history[k].call == c && s'.history[k].call == c
    requires forall i :: 0 <= i < k ==> s'.history[i] == s.history[i]
    requires FlaggedCall(s.calls[c]) && s.insts[s.calls[c].inst].stopFlag ==>
               FlaggedAfter(p, BaseOf(p, s), w)
    ensures OrderAt(p, s', k)
  {
    if AfterStop(s', k) {
      SameAfterStop(s, s', k);
      assert OrderAt(p, s, k);
      FlagAfterStop(s, k);
      FlaggedResult(p, s, c, w, s', k);
    }
  }

  lemma WorkingStaysFlagged(p: Planning, s: State, c: nat, step: Step, w: View)
    requires SerialInv(p, s) && c in s.calls && s.calls[c].inst in s.insts && InSession(s.calls[c].pc)
    requires FlaggedCall(s.calls[c]) && s.insts[s.calls[c].inst].stopFlag
    requires CallAction(p, ViewOf(s, c), c, step) == Some(w)
    ensures FlaggedAfter(p, BaseOf(p, s), w)
  {
    assert CallInv(s, c) && SerialAt(p, s, c);
    SessionNotLocking(p, ViewOf(s, c), c, step);
    StepFlagged(p, BaseOf(p, s), ViewOf(s, c), c, step, w);
  }

  lemma FlaggedResult(p: Planning, s: State, c: nat, w: View, s': State, k: nat)
    requires c in s.calls && s.calls[c].inst in s.insts && s' == WriteBack(s, c, w)
    requires k == |s.history| - 1 == |s'.history| - 1 && s'.history[k].call == c && OutcomeAt(s', k)
    requires forall i :: 0 <= i < k ==> s'.history[i] == s.history[i]
    requires FlaggedAfter(p, BaseOf(p, s), w)
    ensures FlaggedAt(p, s', k)
  {
    ReplayPrefix(p, s.origin, s'.history, s.history, k);
  }

  /** The acting call has just got the lock. */
  lemma OrderOfNew(p: Planning, s: State, c: nat, w: View, s': State, k: nat)
    requires SerialInv(p, s) && OutcomeInv(s') && c in s.calls && s.calls[c].inst in s.insts && s' == WriteBack(s, c, w)
    requires s.calls[c].pc.LockWait? && w.call.pipe == s.calls[c].pipe && w.call.pr == s.calls[c].pr
    requires w.call.pc.VersionRead? || w.call.pc.ForceWrite?
    requires k < |s'.history| && s'.history[k].call == c
    ensures OrderAt(p, s', k)
  {
    assert SerialAt(p, s, c) && OutcomeAt(s', k);
  }

  /** What an action does to a call's place. */
  lemma EntersByLocking(p: Planning, v: View, c: nat, step: Step, w: View)
    requires CallAction(p, v, c, step) == Some(w) && w.call.entered && !v.call.entered
    ensures v.call.pc.LockWait? && w.call.pipe == v.call.pipe && w.call.pr == v.call.pr
    ensures w.call.pc.VersionRead? || w.call.pc.ForceWrite?
  {
    if !LockStep(step) { PlanKeptWorking(p, v, c, step, w); }
  }

  /** The records of other calls, and of a call that is past its work, stay. */
  lemma RecordStays(s: State, c: nat, w: View, s': State, k: nat)
    requires c in s.calls && s.calls[c].inst in s.insts && s' == WriteBack(s, c, w) && k < |s'.history|
    requires OutcomeStep(ViewOf(s, c), w, c)
    requires s'.history[k].call == c ==> s.calls[c].entered && !InSession(s.calls[c].pc)
    requires s.calls[c].entered && InSession(s.calls[c].pc) ==>
               |s.history| > 0 && s.history[|s.history| - 1].call == c
    ensures k < |s.history| && s'.history[k] == s.history[k]
    ensures forall i :: 0 <= i < k ==> s'.history[i] == s.history[i]
  {
    if !SameRecords(ViewOf(s, c), w) {
      var n := |s'.history| - 1;
      assert forall i :: 0 <= i < n ==> s'.history[i] == s'.history[..n][i] == s.history[i];
    }
  }

  /** A call at work has the last record, before and after. */
  lemma WorkingIsLast(s: State, c: nat, w: View, s': State, k: nat)
    requires c in s.calls && s.calls[c].inst in s.insts && s' == WriteBack(s, c, w) && k < |s'.history|
    requires OutcomeStep(ViewOf(s, c), w, c) && DistinctCalls(s.history) && DistinctCalls(s'.history)
    requires s'.history[k].call == c && s.calls[c].entered && InSession(s.calls[c].pc)
    requires |s.history| > 0 && s.history[|s.history| - 1].call == c
    ensures k == |s.history| - 1 == |s'.history| - 1
    ensures forall i :: 0 <= i < k ==> s'.history[i] == s.history[i]
  {
    var n := |s'.history| - 1;
    if !SameRecords(ViewOf(s, c), w) {
      assert forall i :: 0 <= i < n ==> s'.history[i] == s'.history[..n][i] == s.history[i];
    }
    assert s'.history[n].call == c;
  }

  lemma WorkingKeepsOrder(p: Planning, s: State, c: nat, w: View, s': State, k: nat)
    requires OutcomeInv(s) && OrderInv(p, s) && DistinctCalls(s'.history)
    requires c in s.calls && s.calls[c].inst in s.insts && w.call.inst == s.calls[c].inst
    requires s' == WriteBack(s, c, w)
    requires FlaggedCall(s.calls[c]) && s.insts[s.calls[c].inst].stopFlag ==>
               FlaggedAfter(p, BaseOf(p, s), w)
    requires OutcomeStep(ViewOf(s, c), w, c) && k < |s'.history| && OutcomeAt(s', k)
    requires s.calls[c].entered && InSession(s.calls[c].pc) && |s.history| > 0 && s.history[|s.history| - 1].call == c
    requires s'.history[k].call == c
    ensures OrderAt(p, s', k)
  {
    assert DistinctCalls(s.history);
    WorkingIsLast(s, c, w, s', k);
    OrderOfWorking(p, s, c, w, s', k);
  }

  lemma OthersKeepOrder(p: Planning, s: State, c: nat, w: View, s': State, k: nat)
    requires OrderInv(p, s) && c in s.calls && s.calls[c].inst in s.insts && w.call.inst == s.calls[c].inst
    requires s' == WriteBack(s, c, w) && OutcomeStep(ViewOf(s, c), w, c) && k < |s'.history|
    requires s'.history[k].call == c ==> s.calls[c].entered && !InSession(s.calls[c].pc) && !InSession(w.call.pc)
    requires s.calls[c].entered && InSession(s.calls[c].pc) ==>
               |s.history| > 0 && s.history[|s.history| - 1].call == c
    ensures OrderAt(p, s', k)
  {
    RecordStays(s, c, w, s', k);
    OrderKept(p, s, s', k);
  }

  lemma ActKeepsOrder(p: Planning, s: State, c: nat, step: Step, w: View, s': State, k: nat)
    requires SerialInv(p, s) && OutcomeInv(s) && OrderInv(p, s) && OutcomeInv(s')
    requires c in s.calls && s.calls[c].inst in s.insts && w.call.inst == s.calls[c].inst
    requires s' == WriteBack(s, c, w) && CallAction(p, ViewOf(s, c), c, step) == Some(w)
    requires OutcomeStep(ViewOf(s, c), w, c) && k < |s'.history| && CallOk(s.calls[c])
    requires InSession(s.calls[c].pc) ==> |s.history| > 0 && s.history[|s.history| - 1].call == c
    ensures OrderAt(p, s', k)
  {
    assert OutcomeAt(s', k) && DistinctCalls(s'.history);
    if s'.history[k].call == c && !s.calls[c].entered {
      EntersByLocking(p, ViewOf(s, c), c, step, w);
      OrderOfNew(p, s, c, w, s', k);
    } else if s'.history[k].call == c && InSession(s.calls[c].pc) {
      if FlaggedCall(s.calls[c]) && s.insts[s.calls[c].inst].stopFlag { WorkingStaysFlagged(p, s, c, step, w); }
      WorkingKeepsOrder(p, s, c, w, s', k);
    } else {
      if s'.history[k].call == c { OutForGood(p, ViewOf(s, c), c, step, w); }
      OthersKeepOrder(p, s, c, w, s', k);
    }
  }

  lemma StepKeepsOrder(p: Planning, s: State, a: Action, s': State)
    requires AllInv(p, s) && OrderInv(p, s) && Apply(p, s, a) == Some(s') && AllInv(p, s')
    ensures OrderInv(p, s')
  {
    forall k: nat ensures OrderAt(p, s', k) {
      if k < |s'.history| {
        match a
        case Signal(i) => OrderKept(p, s, s', k);
        case Act(c, step) =>
          var w := CallAction(p, ViewOf(s, c), c, step).value;
          assert CallInv(s, c) && SerialAt(p, s, c) && OutcomeAt(s', k);
          CallActionEffect(p, ViewOf(s, c), c, step, w);
          CallActionOutcome(p, ViewOf(s, c), c, step, w);
          SessionPlan(p, s, c);
          ActKeepsOrder(p, s, c, step, w, s', k);
      }
    }
  }

  lemma {:induction false} RunKeepsOrder(p: Planning, s: State, actions: seq<Action>, n: nat)
    requires PlanningOk(p) && AllInv(p, s) && OrderInv(p, s) && n <= |actions|
    ensures Run(p, s, actions, n).Some? ==>
              AllInv(p, Run(p, s, actions, n).value) && OrderInv(p, Run(p, s, actions, n).value)
  {
    if n > 0 {
      RunKeepsOrder(p, s, actions, n - 1);
      if Run(p, s, actions, n).Some? {
        StepKeepsAllInv(p, Run(p, s, actions, n - 1).value, actions[n - 1], Run(p, s, actions, n).value);
        StepKeepsOrder(p, Run(p, s, actions, n - 1).value, actions[n - 1], Run(p, s, actions, n).value);
      }
    }
  }

  /** In every run, a call that got the lock after another one on its instance was ended by a stop
      ends at its first poll or before: it makes no progress, and only a script that neither polls
      nor sends anything is worked off. */
  lemma StoppedInstanceStaysStopped(src: Source, s: State, actions: seq<Action>, s': State, j: nat, k: nat)
    requires src.Valid() && Reaches(PlanningOf(src), s, actions, s') && j < k < |s'.history| && StoppedOn(s', j, k)
    ensures Flagged(PlanningOf(src), ReplayFirst(PlanningOf(src), s.origin, s'.history, k), s'.history[k])
  {
    ReachableOrder(src, s, actions, s');
    assert OrderAt(PlanningOf(src), s', k);
  }

  lemma ReachableOrder(src: Source, s: State, actions: seq<Action>, s': State)
    requires src.Valid() && Reaches(PlanningOf(src), s, actions, s')
    ensures PlanningOk(PlanningOf(src)) && AllInv(PlanningOf(src), s') && OrderInv(PlanningOf(src), s')
    ensures s'.origin == s.origin
  {
    ReachableInv(src, s, actions, s');
    InitialSerialInv(PlanningOf(src), s);
    RunKeepsOrder(PlanningOf(src), s, actions, |actions|);
  }
}

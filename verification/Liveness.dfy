/** Nothing gets stuck: in every reachable state a call that has not returned can take a step or
    waits for a mutex whose holder can, between lock() and unlock() it can only take finitely
    many steps, whatever the capacity of its channel, and the lock can be freed unless it is lost. */
module Liveness {
  import opened Types
  import opened VersionIndex
  import opened Engine
  import opened System
  import opened LockSafety
  import opened DriverFlag
  import opened Serial
  import opened Outcome

  /** A step at which no driver call and no read of the source fails. */
  predicate Smooth(step: Step) {
    match step
    case LockerTx(fault) => !fault
    case ReadVersion(fault) => !fault
    case WriteForce(fault) => !fault
    case ReaderFault => false
    case SetDirty(fault) => !fault
    case RunMigration(fault) => !fault
    case SetClean(fault) => !fault
    case DeleteRow(fault) => !fault
    case _ => true
  }

  // ----- some step is always enabled -----------------------------------------------------

  /** What the reader and the consumer do next when the consumer waits for an item. */
  function ReceiveStep(pipe: Pipe): Step
    requires pipe.reader.Reader?
  {
    var r := pipe.reader;
    if |pipe.buf| > 0 then Take
    else if r.closed then SeeClosed
    else if |r.todo| == 0 then ReaderClose
    else match r.todo[0]
      case Poll => ReaderPoll
      case Look => ReaderLook
      case Send(_) => Handoff
  }

  /** The step a call takes next during its session. */
  function SessionStep(call: Call): Step
    requires InSession(call.pc) && (call.pc.Receive? ==> call.pipe.reader.Reader?)
  {
    match call.pc
    case VersionRead => ReadVersion(false)
    case ForceWrite => WriteForce(false)
    case Receive => ReceiveStep(call.pipe)
    case Polling(_, _) => ConsumerPoll
    case WriteDirty(_) => SetDirty(false)
    case ExecBody(_) => RunMigration(false)
    case WriteClean(_) => SetClean(false)
  }

  lemma ReceiveEnabled(p: Planning, v: View, c: nat)
    requires v.call.pc.Receive? && v.call.pipe.reader.Reader?
    ensures CallAction(p, v, c, ReceiveStep(v.call.pipe)).Some?
  {
  }

  lemma SessionEnabled(p: Planning, v: View, c: nat)
    requires InSession(v.call.pc) && LocalOk(v.call)
    ensures CallAction(p, v, c, SessionStep(v.call)).Some?
  {
    if v.call.pc.Receive? { ReceiveEnabled(p, v, c); }
  }

  /** Blocked by the mutex of the instance. */
  predicate WaitsForMutex(call: Call, inst: Instance) {
    (call.pc.Start? || call.pc.UnlockWait?) && inst.mutex.Some?
  }

  /** Some step of the call is enabled. */
  ghost predicate CanMove(p: Planning, s: State, c: nat) {
    exists step :: Enabled(p, s, c, step)
  }

  ghost predicate Enabled(p: Planning, s: State, c: nat, step: Step) {
    Apply(p, s, Act(c, step)).Some?
  }

  lemma ViewEnabled(p: Planning, v: View, c: nat) returns (step: Step)
    requires LocalOk(v.call) && !v.call.pc.Done? && !WaitsForMutex(v.call, v.inst)
    ensures CallAction(p, v, c, step).Some?
  {
    var pc := v.call.pc;
    if InSession(pc) {
      step := SessionStep(v.call);
      SessionEnabled(p, v, c);
    } else if pc.Start? {
      step := CallBegin;
    } else if pc.LockWait? {
      step := LockTimedOut;
    } else if pc.UnlockWait? {
      step := UnlockAcquire;
    } else if pc.UnlockHeld? {
      step := UnlockCas;
    } else if pc.UnlockDelete? {
      step := DeleteRow(false);
    } else if pc.UnlockRestore? {
      step := RestoreFlag;
    } else {
      step := ClearLocked;
    }
  }

  lemma CallCanMove(p: Planning, s: State, c: nat)
    requires c in s.calls && s.calls[c].inst in s.insts && LocalOk(s.calls[c]) && !s.calls[c].pc.Done?
    requires !WaitsForMutex(s.calls[c], s.insts[s.calls[c].inst])
    ensures CanMove(p, s, c)
  {
    var step := ViewEnabled(p, ViewOf(s, c), c);
    assert Enabled(p, s, c, step);
  }

  /** No deadlock, for any number of instances and calls and any capacities: a call that has not
      returned can take a step, or it waits for its instance's mutex and the call that holds it
      can take a step. */
  lemma NoDeadlock(src: Source, s: State, actions: seq<Action>, s': State, c: nat)
    requires src.Valid() && Reaches(PlanningOf(src), s, actions, s') && c in s'.calls && !s'.calls[c].pc.Done?
    ensures var p := PlanningOf(src);
            || CanMove(p, s', c)
            || (&& s'.calls[c].inst in s'.insts
                && WaitsForMutex(s'.calls[c], s'.insts[s'.calls[c].inst])
                && CanMove(p, s', s'.insts[s'.calls[c].inst].mutex.value))
  {
    ReachableInv(src, s, actions, s');
    MoveOrHolder(PlanningOf(src), s', c);
  }

  lemma MoveOrHolder(p: Planning, s: State, c: nat)
    requires SerialInv(p, s) && c in s.calls && !s.calls[c].pc.Done?
    ensures || CanMove(p, s, c)
            || (&& s.calls[c].inst in s.insts
                && WaitsForMutex(s.calls[c], s.insts[s.calls[c].inst])
                && CanMove(p, s, s.insts[s.calls[c].inst].mutex.value))
  {
    assert CallInv(s, c) && SerialAt(p, s, c);
    var i := s.calls[c].inst;
    if WaitsForMutex(s.calls[c], s.insts[i]) {
      assert MutexOk(s, i);
      var d := s.insts[i].mutex.value;
      assert CallInv(s, d) && SerialAt(p, s, d);
      CallCanMove(p, s, d);
    } else {
      CallCanMove(p, s, c);
    }
  }

  // ----- and only finitely many are ----------------------------------------------------------

  function PollRank(poll: PollPc): nat {
    match poll case Asking => 2 case SawClear => 1 case Took => 0
  }

  function PcRank(pc: Pc): nat {
    match pc
    case Polling(_, poll) => 5 + PollRank(poll)
    case WriteDirty(_) => 4
    case ExecBody(_) => 3
    case WriteClean(_) => 2
    case _ => 1
  }

  function ReaderRank(r: Reader): nat {
    if r.NoReader? then 0
    else 12 * |r.todo| + (if r.cut.Whole? then 12 else 0) + PollRank(r.poll) + (if r.closed then 0 else 1)
  }

  /** An upper bound on the steps of caller and reader until the call's own work is over. */
  ghost function Work(p: Planning, v: View): nat {
    if v.call.pc.VersionRead? then 12 * |p.script(v.call.cmd, v.db.version)| + 20
    else ReaderRank(v.call.pipe.reader) + 8 * |v.call.pipe.buf| + PcRank(v.call.pc)
  }

  /** The step ended the session or left less work. */
  ghost predicate Worked(p: Planning, v: View, w: View) {
    InSession(w.call.pc) ==> Work(p, w) < Work(p, v)
  }

  lemma OpenWorks(p: Planning, v: View, c: nat, step: Step, w: View)
    requires OpenAction(p, v, c, step) == Some(w)
    ensures Worked(p, v, w)
  {
  }

  lemma ReaderWorks(p: Planning, v: View, c: nat, step: Step, w: View)
    requires ReaderAction(v, step) == Some(w) && FlowOk(v.call.pipe) && Consuming(v.call.pc)
    ensures Worked(p, v, w)
  {
  }

  lemma ReceiveWorks(p: Planning, v: View, c: nat, step: Step, w: View)
    requires ReceiveAction(v, c, step) == Some(w)
    ensures Worked(p, v, w)
  {
  }

  lemma PollWorks(p: Planning, v: View, c: nat, w: View)
    requires ConsumerPollAction(v, c) == Some(w)
    ensures Worked(p, v, w)
  {
  }

  lemma MigrateWorks(p: Planning, v: View, c: nat, step: Step, w: View)
    requires MigrateAction(v, c, step) == Some(w)
    ensures Worked(p, v, w)
  {
  }

  /** Every step of the session uses some of the work up. */
  lemma WorkDecreases(p: Planning, v: View, c: nat, step: Step, w: View)
    requires InSession(v.call.pc) && LocalOk(v.call) && FlowOk(v.call.pipe)
    requires !LockStep(step) && CallAction(p, v, c, step) == Some(w)
    ensures Worked(p, v, w)
  {
    match step
    case ReaderPoll | ReaderLook | ReaderSend | ReaderFault | ReaderClose => ReaderWorks(p, v, c, step, w);
    case ReadVersion(_) | WriteForce(_) => OpenWorks(p, v, c, step, w);
    case Handoff | Take | SeeClosed => ReceiveWorks(p, v, c, step, w);
    case ConsumerPoll => PollWorks(p, v, c, w);
    case SetDirty(_) | RunMigration(_) | SetClean(_) => MigrateWorks(p, v, c, step, w);
  }

  // ----- so every session can end ---------------------------------------------------------------

  /** Smooth steps of one call only. */
  predicate OwnSmooth(actions: seq<Action>, c: nat) {
    forall i :: 0 <= i < |actions| ==> actions[i].Act? && actions[i].c == c && Smooth(actions[i].step)
  }

  /** An enabled step of a call, as a step of the whole system. */
  lemma ActView(p: Planning, s: State, c: nat, step: Step) returns (t: State)
    requires LockInv(s) && c in s.calls && s.calls[c].inst in s.insts
    requires CallAction(p, ViewOf(s, c), c, step).Some?
    ensures Apply(p, s, Act(c, step)) == Some(t) && c in t.calls && t.calls[c].inst in t.insts
    ensures CallAction(p, ViewOf(s, c), c, step) == Some(ViewOf(t, c)) && t == WriteBack(s, c, ViewOf(t, c))
  {
    t := WriteBack(s, c, CallAction(p, ViewOf(s, c), c, step).value);
    StepKeepsLockInv(p, s, Act(c, step), t);
  }

  /** What a session's next step needs to know of the state. */
  lemma SessionFacts(p: Planning, s: State, c: nat)
    requires SerialInv(p, s) && c in s.calls
    ensures s.calls[c].inst in s.insts && LocalOk(s.calls[c]) && FlowOk(s.calls[c].pipe)
  {
    assert CallInv(s, c) && SerialAt(p, s, c);
  }

  lemma SessionStepIsSmooth(call: Call)
    requires InSession(call.pc) && LocalOk(call)
    ensures Smooth(SessionStep(call)) && !LockStep(SessionStep(call))
  {
  }

  /** A session ends at unlock. */
  lemma SessionLeaves(p: Planning, v: View, c: nat, step: Step, w: View)
    requires InSession(v.call.pc) && !LockStep(step) && CallAction(p, v, c, step) == Some(w)
    ensures InSession(w.call.pc) || w.call.pc.UnlockWait?
  {
    match step
    case ReaderPoll | ReaderLook | ReaderSend | ReaderFault | ReaderClose => ReaderTouchesPipe(v, step, w);
    case _ =>
  }

  /** The next step of a session: the state it leads to, with less work left. */
  lemma OneSessionStep(p: Planning, s: State, c: nat) returns (step: Step, t: State)
    requires PlanningOk(p) && AllInv(p, s) && c in s.calls && s.calls[c].inst in s.insts && InSession(s.calls[c].pc)
    ensures Smooth(step) && Apply(p, s, Act(c, step)) == Some(t)
    ensures AllInv(p, t) && c in t.calls && t.calls[c].inst in t.insts
    ensures InSession(t.calls[c].pc) || t.calls[c].pc.UnlockWait?
    ensures InSession(t.calls[c].pc) ==> Work(p, ViewOf(t, c)) < Work(p, ViewOf(s, c))
  {
    SessionFacts(p, s, c);
    step := SessionStep(s.calls[c]);
    SessionStepIsSmooth(s.calls[c]);
    SessionEnabled(p, ViewOf(s, c), c);
    t := ActView(p, s, c, step);
    WorkDecreases(p, ViewOf(s, c), c, step, ViewOf(t, c));
    SessionLeaves(p, ViewOf(s, c), c, step, ViewOf(t, c));
    StepKeepsAllInv(p, s, Act(c, step), t);
  }

  lemma OwnSmoothCons(c: nat, step: Step, rest: seq<Action>)
    requires Smooth(step) && OwnSmooth(rest, c)
    ensures OwnSmooth([Act(c, step)] + rest, c)
  {
  }

  lemma {:induction false} EndSession(p: Planning, s: State, c: nat) returns (actions: seq<Action>, t: State)
    requires PlanningOk(p) && AllInv(p, s) && c in s.calls && s.calls[c].inst in s.insts && InSession(s.calls[c].pc)
    ensures Run(p, s, actions, |actions|) == Some(t) && OwnSmooth(actions, c)
    ensures c in t.calls && t.calls[c].pc.UnlockWait?
    decreases Work(p, ViewOf(s, c))
  {
    var step, next := OneSessionStep(p, s, c);
    var rest;
    if InSession(next.calls[c].pc) {
      rest, t := EndSession(p, next, c);
    } else {
      rest, t := [], next;
    }
    actions := [Act(c, step)] + rest;
    RunOne(p, s, Act(c, step), next);
    OwnSmoothCons(c, step, rest);
    RunConcat(p, s, [Act(c, step)], next, rest, t);
  }

  /** From every reachable state, a call at work can be carried to the end of its work by its own
      steps alone, without a failure, with any capacity, the unbuffered channel included. */
  lemma SessionCanEnd(src: Source, s: State, before: seq<Action>, t: State, c: nat)
    returns (actions: seq<Action>, u: State)
    requires src.Valid() && Reaches(PlanningOf(src), s, before, t) && c in t.calls && InSession(t.calls[c].pc)
    ensures Run(PlanningOf(src), t, actions, |actions|) == Some(u) && OwnSmooth(actions, c)
    ensures c in u.calls && u.calls[c].pc.UnlockWait?
  {
    ReachableInv(src, s, before, t);
    SessionFacts(PlanningOf(src), t, c);
    actions, u := EndSession(PlanningOf(src), t, c);
  }

  // ----- in every interleaving ------------------------------------------------------------------

  /** How many of the first n actions are those of call c. */
  function OwnSteps(actions: seq<Action>, c: nat, n: nat): nat
    requires n <= |actions|
  {
    if n == 0 then 0
    else OwnSteps(actions, c, n - 1) + if actions[n - 1].Act? && actions[n - 1].c == c then 1 else 0
  }

  /** During a session a call neither locks nor unlocks. */
  lemma SessionNotLocking(p: Planning, v: View, c: nat, step: Step)
    requires CallOk(v.call) && InSession(v.call.pc) && CallAction(p, v, c, step).Some?
    ensures !LockStep(step)
  {
  }

  /** A call that has left its session does not come back. */
  lemma OutForGood(p: Planning, v: View, c: nat, step: Step, w: View)
    requires CallOk(v.call) && v.call.entered && !InSession(v.call.pc) && CallAction(p, v, c, step) == Some(w)
    ensures !InSession(w.call.pc)
  {
    if !LockStep(step) { WorkKeepsOut(p, v, c, step, w); }
  }

  lemma WorkKeepsOut(p: Planning, v: View, c: nat, step: Step, w: View)
    requires !LockStep(step) && !InSession(v.call.pc) && CallAction(p, v, c, step) == Some(w)
    ensures w.call.pc == v.call.pc
  {
    match step
    case ReaderPoll | ReaderLook | ReaderSend | ReaderFault | ReaderClose => ReaderTouchesPipe(v, step, w);
    case _ =>
  }

  /** One action of anybody, seen from a call at work. */
  lemma ActionWorks(p: Planning, s: State, a: Action, s': State, c: nat)
    requires SerialInv(p, s) && Apply(p, s, a) == Some(s')
    requires c in s.calls && s.calls[c].inst in s.insts && InSession(s.calls[c].pc)
    ensures c in s'.calls && s'.calls[c].inst in s'.insts
    ensures InSession(s'.calls[c].pc) ==>
              Work(p, ViewOf(s', c)) + (if a.Act? && a.c == c then 1 else 0) <= Work(p, ViewOf(s, c))
  {
    StepKeepsLockInv(p, s, a, s');
    if a.Act? && a.c == c {
      OwnActionWorks(p, s, a.step, s', c);
    } else {
      OthersLeaveWork(p, s, a, s', c);
    }
  }

  lemma OwnActionWorks(p: Planning, s: State, step: Step, s': State, c: nat)
    requires SerialInv(p, s) && c in s.calls && s.calls[c].inst in s.insts && InSession(s.calls[c].pc)
    requires c in s'.calls && s'.calls[c].inst in s'.insts
    requires CallAction(p, ViewOf(s, c), c, step) == Some(ViewOf(s', c))
    ensures InSession(s'.calls[c].pc) ==> Work(p, ViewOf(s', c)) < Work(p, ViewOf(s, c))
  {
    assert CallInv(s, c);
    SessionFacts(p, s, c);
    SessionNotLocking(p, ViewOf(s, c), c, step);
    WorkDecreases(p, ViewOf(s, c), c, step, ViewOf(s', c));
  }

  lemma OthersLeaveWork(p: Planning, s: State, a: Action, s': State, c: nat)
    requires LockInv(s) && Apply(p, s, a) == Some(s') && !(a.Act? && a.c == c)
    requires c in s.calls && s.calls[c].inst in s.insts && InSession(s.calls[c].pc)
    requires c in s'.calls && s'.calls[c].inst in s'.insts
    ensures Work(p, ViewOf(s', c)) == Work(p, ViewOf(s, c))
  {
    assert CallInv(s, c);
    OnlyOwnerWrites(p, s, a, s');
    SameWork(p, ViewOf(s, c), ViewOf(s', c));
  }

  lemma SameWork(p: Planning, v: View, w: View)
    requires w.call == v.call && w.db == v.db
    ensures Work(p, w) == Work(p, v)
  {
  }

  lemma StaysOut(p: Planning, s: State, a: Action, s': State, c: nat)
    requires LockInv(s) && Apply(p, s, a) == Some(s') && c in s.calls && s.calls[c].entered
    ensures c in s'.calls && s'.calls[c].entered
    ensures !InSession(s.calls[c].pc) ==> !InSession(s'.calls[c].pc)
  {
    StepKeepsLockInv(p, s, a, s');
    if a.Act? {
      assert CallInv(s, a.c);
      if a.c == c { ViewStaysOut(p, ViewOf(s, c), c, a.step, ViewOf(s', c)); }
      StaysOutBack(s, a.c, ViewOf(s', a.c), c);
    }
  }

  lemma StaysOutBack(s: State, d: nat, w: View, c: nat)
    requires c in s.calls && s.calls[c].entered && d in s.calls
    requires d == c ==> w.call.entered && (!InSession(s.calls[c].pc) ==> !InSession(w.call.pc))
    ensures var s' := WriteBack(s, d, w);
            && c in s'.calls && s'.calls[c].entered
            && (!InSession(s.calls[c].pc) ==> !InSession(s'.calls[c].pc))
  {
  }

  lemma ViewStaysOut(p: Planning, v: View, c: nat, step: Step, w: View)
    requires CallOk(v.call) && CallAction(p, v, c, step) == Some(w) && v.call.entered
    ensures w.call.entered && (!InSession(v.call.pc) ==> !InSession(w.call.pc))
  {
    KeepsEntered(p, v, c, step, w);
    if !InSession(v.call.pc) { OutForGood(p, v, c, step, w); }
  }

  lemma KeepsEntered(p: Planning, v: View, c: nat, step: Step, w: View)
    requires CallAction(p, v, c, step) == Some(w) && v.call.entered
    ensures w.call.entered
  {
    if !LockStep(step) { WorkKeepsFlag(p, v, c, step, w); }
  }

  lemma {:induction false} RunWorks(p: Planning, s: State, actions: seq<Action>, n: nat, c: nat)
    requires PlanningOk(p) && AllInv(p, s) && n <= |actions| && Run(p, s, actions, n).Some?
    requires c in s.calls && s.calls[c].inst in s.insts && s.calls[c].entered && InSession(s.calls[c].pc)
    ensures var t := Run(p, s, actions, n).value;
            && AllInv(p, t) && c in t.calls && t.calls[c].inst in t.insts && t.calls[c].entered
            && (InSession(t.calls[c].pc) ==>
                  OwnSteps(actions, c, n) + Work(p, ViewOf(t, c)) <= Work(p, ViewOf(s, c)))
  {
    if n > 0 {
      RunWorks(p, s, actions, n - 1, c);
      var t, t' := Run(p, s, actions, n - 1).value, Run(p, s, actions, n).value;
      StepKeepsAllInv(p, t, actions[n - 1], t');
      StaysOut(p, t, actions[n - 1], t', c);
      SessionFacts(p, t', c);
      if InSession(t.calls[c].pc) { ActionWorks(p, t, actions[n - 1], t', c); }
    }
  }

  /** In every interleaving, whatever the other calls do, a call at work takes at most a bounded
      number of steps before its work is over: the work left when the bound is taken. */
  lemma SessionStepsBounded(src: Source, s: State, before: seq<Action>, t: State, after: seq<Action>, u: State, c: nat)
    requires src.Valid() && Reaches(PlanningOf(src), s, before, t) && Run(PlanningOf(src), t, after, |after|) == Some(u)
    requires c in t.calls && t.calls[c].inst in t.insts && InSession(t.calls[c].pc)
    ensures c in u.calls
    ensures InSession(u.calls[c].pc) ==> OwnSteps(after, c, |after|) <= Work(PlanningOf(src), ViewOf(t, c))
  {
    ReachableInv(src, s, before, t);
    assert CallInv(t, c);
    RunWorks(PlanningOf(src), t, after, |after|, c);
  }

  // ----- freeing the lock --------------------------------------------------------------------------

  /** Everything that holds in a reachable state, the driver's flag included. */
  ghost predicate Sound(p: Planning, s: State) {
    AllInv(p, s) && FlagInv(s)
  }

  lemma ReachKeepsSound(p: Planning, s: State, t: State)
    requires PlanningOk(p) && Sound(p, s) && CanReach(p, s, t)
    ensures Sound(p, t)
  {
    var actions :| RunsTo(p, s, actions, t);
    RunKeepsAllInv(p, s, actions, |actions|);
    RunKeepsFlagInv(p, s, actions, |actions|);
  }

  // The steps of unlock, and the return of lock.

  lemma DeleteReach(p: Planning, s: State, c: nat) returns (t: State)
    requires c in s.calls && s.calls[c].inst in s.insts && s.calls[c].pc.UnlockDelete?
    ensures CanReach(p, s, t) && t.row.None?
  {
    t := WriteBack(s, c, UnlockAction(ViewOf(s, c), c, DeleteRow(false)).value);
    ReachOne(p, s, Act(c, DeleteRow(false)), t);
  }

  lemma CasReach(p: Planning, s: State, c: nat) returns (t: State)
    requires c in s.calls && s.calls[c].inst in s.insts && s.calls[c].pc.UnlockHeld?
    requires s.insts[s.calls[c].inst].driverFlag
    ensures CanReach(p, s, t) && c in t.calls && t.calls[c].pc.UnlockDelete?
  {
    t := WriteBack(s, c, UnlockAction(ViewOf(s, c), c, UnlockCas).value);
    ReachOne(p, s, Act(c, UnlockCas), t);
  }

  lemma AcquireReach(p: Planning, s: State, c: nat) returns (t: State)
    requires c in s.calls && s.calls[c].inst in s.insts && s.calls[c].pc.UnlockWait?
    requires s.insts[s.calls[c].inst].mutex.None?
    ensures CanReach(p, s, t) && c in t.calls && t.calls[c].pc.UnlockHeld?
  {
    t := WriteBack(s, c, UnlockAction(ViewOf(s, c), c, UnlockAcquire).value);
    ReachOne(p, s, Act(c, UnlockAcquire), t);
  }

  lemma ReturnReach(p: Planning, s: State, c: nat) returns (t: State)
    requires c in s.calls && s.calls[c].inst in s.insts && s.calls[c].pc.LockWait? && s.calls[c].locker.Got?
    ensures CanReach(p, s, t) && c in t.calls && InSession(t.calls[c].pc)
  {
    t := WriteBack(s, c, LockAction(ViewOf(s, c), c, LockReturn).value);
    ReachOne(p, s, Act(c, LockReturn), t);
  }

  lemma FreeFromDelete(p: Planning, s: State, c: nat) returns (t: State)
    requires Sound(p, s) && c in s.calls && s.calls[c].pc.UnlockDelete?
    ensures CanReach(p, s, t) && t.row.None?
  {
    assert CallInv(s, c);
    t := DeleteReach(p, s, c);
  }

  lemma FreeFromHeld(p: Planning, s: State, c: nat) returns (t: State)
    requires PlanningOk(p) && Sound(p, s) && c in s.calls && s.calls[c].pc.UnlockHeld?
    ensures CanReach(p, s, t) && t.row.None?
  {
    assert CallInv(s, c) && FlagAt(s, c);
    var mid := CasReach(p, s, c);
    ReachKeepsSound(p, s, mid);
    t := FreeFromDelete(p, mid, c);
    ReachThen(p, s, mid, t);
  }

  /** Whoever else holds the mutex can let go of it. */
  lemma FreeMutex(p: Planning, s: State, c: nat) returns (t: State)
    requires Sound(p, s) && c in s.calls && s.calls[c].inst in s.insts && s.calls[c].pc.UnlockWait?
    ensures CanReach(p, s, t) && c in t.calls && t.calls[c].pc.UnlockWait?
    ensures t.calls[c].inst in t.insts && t.insts[t.calls[c].inst].mutex.None?
  {
    var i := s.calls[c].inst;
    if s.insts[i].mutex.None? {
      t := s;
      ReachSelf(p, s);
    } else {
      var d := s.insts[i].mutex.value;
      MutexHolder(s, c, d);
      t := LetGo(p, s, d);
    }
  }

  /** While a call waits to unlock, another one that holds the mutex is still waiting for its lock
      attempt, or has just deleted its own row. */
  lemma MutexHolder(s: State, c: nat, d: nat)
    requires LockInv(s) && c in s.calls && s.calls[c].inst in s.insts && s.calls[c].pc.UnlockWait?
    requires s.insts[s.calls[c].inst].mutex == Some(d)
    ensures d in s.calls && d != c && s.calls[d].inst == s.calls[c].inst
    ensures s.calls[d].pc.LockWait? || s.calls[d].pc.UnlockClear?
  {
    assert CallInv(s, c) && MutexOk(s, s.calls[c].inst);
    assert CallInv(s, d);
  }

  lemma LetGo(p: Planning, s: State, d: nat) returns (t: State)
    requires LockInv(s) && d in s.calls && s.calls[d].inst in s.insts
    requires s.calls[d].pc.LockWait? || s.calls[d].pc.UnlockClear?
    ensures CanReach(p, s, t) && t.calls.Keys == s.calls.Keys && (forall c :: c in s.calls && c != d ==> t.calls[c] == s.calls[c])
    ensures s.calls[d].inst in t.insts && t.insts[s.calls[d].inst].mutex.None?
  {
    var v := ViewOf(s, d);
    var step := if s.calls[d].pc.LockWait? then LockTimedOut else ClearLocked;
    var w := LetsGo(p, v, d, step);
    t := WriteBack(s, d, w);
    ReachOne(p, s, Act(d, step), t);
  }

  lemma LetsGo(p: Planning, v: View, d: nat, step: Step) returns (w: View)
    requires (step.LockTimedOut? && v.call.pc.LockWait?) || (step.ClearLocked? && v.call.pc.UnlockClear?)
    ensures CallAction(p, v, d, step) == Some(w) && w.inst.mutex.None?
  {
    w := CallAction(p, v, d, step).value;
  }

  lemma FreeFromWait(p: Planning, s: State, c: nat) returns (t: State)
    requires PlanningOk(p) && Sound(p, s) && c in s.calls && s.calls[c].pc.UnlockWait?
    ensures CanReach(p, s, t) && t.row.None?
  {
    assert CallInv(s, c);
    var free := FreeMutex(p, s, c);
    ReachKeepsSound(p, s, free);
    t := FreeFromFree(p, free, c);
    ReachThen(p, s, free, t);
  }

  lemma FreeFromFree(p: Planning, s: State, c: nat) returns (t: State)
    requires PlanningOk(p) && Sound(p, s) && c in s.calls && s.calls[c].pc.UnlockWait?
    requires s.calls[c].inst in s.insts && s.insts[s.calls[c].inst].mutex.None?
    ensures CanReach(p, s, t) && t.row.None?
  {
    var held := AcquireReach(p, s, c);
    ReachKeepsSound(p, s, held);
    t := FreeFromHeld(p, held, c);
    ReachThen(p, s, held, t);
  }

  lemma FreeFromSession(p: Planning, s: State, c: nat) returns (t: State)
    requires PlanningOk(p) && Sound(p, s) && c in s.calls && InSession(s.calls[c].pc)
    ensures CanReach(p, s, t) && t.row.None?
  {
    SessionFacts(p, s, c);
    var actions, done := EndSession(p, s, c);
    assert RunsTo(p, s, actions, done);
    ReachKeepsSound(p, s, done);
    t := FreeFromWait(p, done, c);
    ReachThen(p, s, done, t);
  }

  lemma FreeFromLocking(p: Planning, s: State, c: nat) returns (t: State)
    requires PlanningOk(p) && Sound(p, s) && c in s.calls && s.calls[c].pc.LockWait? && s.calls[c].locker.Got?
    ensures CanReach(p, s, t) && t.row.None?
  {
    assert CallInv(s, c);
    var locked := ReturnReach(p, s, c);
    ReachKeepsSound(p, s, locked);
    t := FreeFromSession(p, locked, c);
    ReachThen(p, s, locked, t);
  }

  lemma FreeRow(p: Planning, s: State) returns (t: State)
    requires PlanningOk(p) && Sound(p, s) && forall c :: !Orphan(s, c)
    ensures CanReach(p, s, t) && t.row.None?
  {
    if s.row.None? {
      t := s;
      ReachSelf(p, s);
    } else {
      var c := s.row.value;
      assert CallInv(s, c) && !Orphan(s, c);
      var pc := s.calls[c].pc;
      if pc.LockWait? {
        t := FreeFromLocking(p, s, c);
      } else if InSession(pc) {
        t := FreeFromSession(p, s, c);
      } else if pc.UnlockWait? {
        t := FreeFromWait(p, s, c);
      } else if pc.UnlockHeld? {
        t := FreeFromHeld(p, s, c);
      } else {
        t := FreeFromDelete(p, s, c);
      }
    }
  }

  /** From a reachable state the lock row can be freed by some continuation if and only if it does
      not belong to a call that will never delete it. */
  lemma LockFreedIff(src: Source, s: State, before: seq<Action>, t: State)
    requires src.Valid() && Reaches(PlanningOf(src), s, before, t)
    ensures (exists u :: CanReach(PlanningOf(src), t, u) && u.row.None?) <==> forall c :: !Orphan(t, c)
  {
    var p := PlanningOf(src);
    ReachableInv(src, s, before, t);
    ReachableFlagInv(p, s, before, t);
    if forall c :: !Orphan(t, c) {
      var u := FreeRow(p, t);
    } else {
      var c :| Orphan(t, c);
      forall u | CanReach(p, t, u) ensures u.row.Some? {
        var actions :| RunsTo(p, t, actions, u);
        OrphanedLockIsForever(p, s, before, t, actions, u, c);
      }
    }
  }
}

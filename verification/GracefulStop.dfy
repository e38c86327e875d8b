/** Graceful stop: once stop() has answered true anywhere on an instance, each of its calls
    begins at most the one migration whose own check had already passed. */
module GracefulStop {
  import opened Types
  import opened VersionIndex
  import opened Engine
  import opened System
  import opened LockSafety
  import opened Serial
  import opened Outcome
  import opened Discipline

  /** Migrations this call has marked dirty. */
  function Begun(call: Call): nat {
    call.pr.done + if call.pr.stage.Untouched? then 0 else 1
  }

  /** The stop check of the next migration has passed, or has already read the flag as clear. */
  predicate Committed(pc: Pc) {
    pc.WriteDirty? || (pc.Polling? && pc.poll.SawClear?)
  }

  function Budget(call: Call): nat {
    Begun(call) + if Committed(call.pc) then 1 else 0
  }

  lemma MigrateSpendsBudget(v: View, c: nat, step: Step, w: View)
    requires ConsumerOk(v.call) && MigrateAction(v, c, step) == Some(w)
    ensures Budget(w.call) <= Budget(v.call)
  {
  }

  lemma PollSpendsBudget(v: View, c: nat, w: View)
    requires v.inst.stopFlag && ConsumerPollAction(v, c) == Some(w)
    ensures Budget(w.call) <= Budget(v.call)
  {
  }

  lemma OpenSpendsBudget(p: Planning, v: View, c: nat, step: Step, w: View)
    requires ConsumerOk(v.call) && (OpenAction(p, v, c, step) == Some(w) || ReceiveAction(v, c, step) == Some(w))
    ensures Budget(w.call) <= Budget(v.call)
  {
  }

  lemma LockSpendsBudget(p: Planning, v: View, c: nat, step: Step, w: View)
    requires LockStep(step) && CallAction(p, v, c, step) == Some(w)
    ensures Budget(w.call) <= Budget(v.call)
  {
  }

  lemma WorkSpendsBudget(p: Planning, v: View, c: nat, step: Step, w: View)
    requires !LockStep(step) && v.inst.stopFlag && ConsumerOk(v.call) && CallAction(p, v, c, step) == Some(w)
    ensures Budget(w.call) <= Budget(v.call)
  {
    match step
    case SetDirty(_) | RunMigration(_) | SetClean(_) => MigrateSpendsBudget(v, c, step, w);
    case ReaderPoll | ReaderLook | ReaderSend | ReaderFault | ReaderClose => ReaderTouchesPipe(v, step, w);
    case ConsumerPoll => PollSpendsBudget(v, c, w);
    case ReadVersion(_) | WriteForce(_) | Handoff | Take | SeeClosed => OpenSpendsBudget(p, v, c, step, w);
  }

  lemma StepSpendsBudget(p: Planning, v: View, c: nat, step: Step, w: View)
    requires v.inst.stopFlag && ConsumerOk(v.call) && CallAction(p, v, c, step) == Some(w)
    ensures Budget(w.call) <= Budget(v.call)
  {
    if LockStep(step) { LockSpendsBudget(p, v, c, step, w); } else { WorkSpendsBudget(p, v, c, step, w); }
  }

  /** Call c is still there on an instance whose flag is set, and has not gained budget. */
  predicate Spent(s: State, s': State, c: nat) {
    && c in s.calls && c in s'.calls && s'.calls[c].inst == s.calls[c].inst && s'.calls[c].cmd == s.calls[c].cmd
    && s'.calls[c].inst in s'.insts && s'.insts[s'.calls[c].inst].stopFlag && s'.origin == s.origin
    && Budget(s'.calls[c]) <= Budget(s.calls[c])
  }

  lemma ActSpends(s: State, d: nat, w: View, c: nat)
    requires d in s.calls && s.calls[d].inst in s.insts && LockEffect(ViewOf(s, d), w, d)
    requires c in s.calls && s.calls[c].inst in s.insts && s.insts[s.calls[c].inst].stopFlag
    requires d == c ==> Budget(w.call) <= Budget(s.calls[c])
    ensures Spent(s, WriteBack(s, d, w), c)
  {
  }

  lemma ActionSpendsBudget(p: Planning, s: State, a: Action, s': State, c: nat)
    requires SerialInv(p, s) && Apply(p, s, a) == Some(s')
    requires c in s.calls && s.calls[c].inst in s.insts && s.insts[s.calls[c].inst].stopFlag
    ensures Spent(s, s', c)
  {
    match a
    case Signal(i) => SignalSpends(p, s, i, s', c);
    case Act(d, step) =>
      StepKeepsLockInv(p, s, a, s');
      if d == c { ViewSpendsBudget(p, s, c, step, s'); }
      ActSpends(s, d, ViewOf(s', d), c);
  }

  lemma SignalSpends(p: Planning, s: State, i: nat, s': State, c: nat)
    requires Apply(p, s, Signal(i)) == Some(s')
    requires c in s.calls && s.calls[c].inst in s.insts && s.insts[s.calls[c].inst].stopFlag
    ensures Spent(s, s', c)
  {
  }

  lemma ViewSpendsBudget(p: Planning, s: State, c: nat, step: Step, s': State)
    requires SerialInv(p, s) && c in s.calls && s.calls[c].inst in s.insts
    requires c in s'.calls && s'.calls[c].inst in s'.insts && s.insts[s.calls[c].inst].stopFlag
    requires CallAction(p, ViewOf(s, c), c, step) == Some(ViewOf(s', c))
    ensures Budget(s'.calls[c]) <= Budget(s.calls[c])
  {
    assert SerialAt(p, s, c);
    StepSpendsBudget(p, ViewOf(s, c), c, step, ViewOf(s', c));
  }

  lemma {:induction false} RunSpendsBudget(p: Planning, s: State, actions: seq<Action>, n: nat, c: nat)
    requires PlanningOk(p) && AllInv(p, s) && n <= |actions|
    requires c in s.calls && s.calls[c].inst in s.insts && s.insts[s.calls[c].inst].stopFlag
    requires Run(p, s, actions, n).Some?
    ensures var t := Run(p, s, actions, n).value;
            AllInv(p, t) && Spent(s, t, c)
  {
    if n > 0 {
      RunSpendsBudget(p, s, actions, n - 1, c);
      var t := Run(p, s, actions, n - 1).value;
      StepKeepsAllInv(p, t, actions[n - 1], Run(p, s, actions, n).value);
      ActionSpendsBudget(p, t, actions[n - 1], Run(p, s, actions, n).value, c);
    }
  }

  /** After the flag is set, in every continuation, a call begins at most one more migration,
      and none unless its check had already passed. */
  lemma AtMostOneMore(src: Source, s: State, before: seq<Action>, t: State, after: seq<Action>, u: State, c: nat)
    requires src.Valid() && Reaches(PlanningOf(src), s, before, t)
    requires Run(PlanningOf(src), t, after, |after|) == Some(u)
    requires c in t.calls && t.calls[c].inst in t.insts && t.insts[t.calls[c].inst].stopFlag
    ensures c in u.calls
    ensures Begun(u.calls[c]) <= Begun(t.calls[c]) + if Committed(t.calls[c].pc) then 1 else 0
  {
    ReachableInv(src, s, before, t);
    RunSpendsBudget(PlanningOf(src), t, after, |after|, c);
  }

  /** A call that begins after the flag was set returns without having touched the database. */
  lemma LaterCallsChangeNothing(src: Source, s: State, before: seq<Action>, t: State,
                                after: seq<Action>, u: State, c: nat, k: nat)
    requires src.Valid() && Reaches(PlanningOf(src), s, before, t)
    requires Run(PlanningOf(src), t, after, |after|) == Some(u)
    requires c in t.calls && t.calls[c].inst in t.insts && t.insts[t.calls[c].inst].stopFlag
    requires t.calls[c].pc.Start? && !t.calls[c].cmd.Force?
    requires k < |u.history| && u.history[k].call == c
    ensures var base := ReplayFirst(PlanningOf(src), s.origin, u.history, k);
            RecordEffect(PlanningOf(src), base, u.history[k]) == base
  {
    var p := PlanningOf(src);
    ReachableInv(src, s, before, t);
    assert CallInv(t, c) && SerialAt(p, t, c);
    RunSpendsBudget(p, t, after, |after|, c);
    assert OutcomeAt(u, k);
    NothingBegun(p, s.origin, u, k);
  }

  lemma NothingBegun(p: Planning, origin: Db, u: State, k: nat)
    requires OutcomeInv(u) && ValidHistory(p, origin, u.history) && k < |u.history|
    requires !u.history[k].cmd.Force?
    requires u.history[k].call in u.calls && Begun(u.calls[u.history[k].call]) == 0
    ensures var base := ReplayFirst(p, origin, u.history, k);
            RecordEffect(p, base, u.history[k]) == base
  {
    assert OutcomeAt(u, k) && ValidAt(p, origin, u.history, k);
    NoProgressNoEffect(p, ReplayFirst(p, origin, u.history, k), u.history[k]);
  }

  /** A call that a stop ended: its instance's flag is set, it returned no error, and the database
      it left is clean, at the target of its last completed migration or where it found it. */
  lemma StoppedEndsClean(src: Source, s: State, actions: seq<Action>, s': State, k: nat)
    requires src.Valid() && Reaches(PlanningOf(src), s, actions, s') && k < |s'.history|
    requires s'.history[k].exit.StopSeen? || s'.history[k].exit == Drained(true)
    requires var c := s'.history[k].call; c in s'.calls && s'.calls[c].pc.Done?
    ensures var p, call := PlanningOf(src), s'.calls[s'.history[k].call];
            var base, after := ReplayFirst(p, s.origin, s'.history, k), ReplayFirst(p, s.origin, s'.history, k + 1);
            && call.inst in s'.insts && s'.insts[call.inst].stopFlag && call.pc.result.err.None?
            && !base.dirty && !after.dirty
            && EndedAt(base, p.migs(call.cmd, base.version), call.pr, after)
  {
    ReachableInv(src, s, actions, s');
    StopLeaves(PlanningOf(src), s', k);
  }

  lemma StopLeaves(p: Planning, s: State, k: nat)
    requires AllInv(p, s) && k < |s.history|
    requires s.history[k].exit.StopSeen? || s.history[k].exit == Drained(true)
    requires var c := s.history[k].call; c in s.calls && s.calls[c].pc.Done?
    ensures var call := s.calls[s.history[k].call];
            var base, after := ReplayFirst(p, s.origin, s.history, k), ReplayFirst(p, s.origin, s.history, k + 1);
            && call.inst in s.insts && s.insts[call.inst].stopFlag && call.pc.result.err.None?
            && !base.dirty && !after.dirty
            && EndedAt(base, p.migs(call.cmd, base.version), call.pr, after)
  {
    assert OutcomeAt(s, k) && ValidAt(p, s.origin, s.history, k);
    ReturnedLeaves(p, s, k);
  }
}

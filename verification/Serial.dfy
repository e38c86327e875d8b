/** Serialisability and prefetch refinement: in every interleaving the database is what the
    calls that got the lock would leave if run one after the other, each call consumes a
    prefix of the plan made from the version read under the lock, and the channel capacity
    makes no difference. */
module Serial {
  import opened Types
  import opened Planner
  import opened Engine
  import opened System
  import opened LockSafety

  // ----- what holds of one call ---------------------------------------------------

  predicate Consuming(pc: Pc) {
    pc.Receive? || pc.Polling? || pc.WriteDirty? || pc.ExecBody? || pc.WriteClean?
  }

  /** After lock() and before the call's own work is over. */
  predicate InSession(pc: Pc) {
    pc.VersionRead? || pc.ForceWrite? || Consuming(pc)
  }

  /** Nothing has been planned yet. */
  predicate Unplanned(call: Call) {
    call.pr == NO_PROGRESS && call.pipe == NO_PIPE
  }

  ghost predicate LocalOk(call: Call) {
    var pc := call.pc;
    && (pc.Start? || pc.LockWait? || pc.VersionRead? || pc.ForceWrite? ==> Unplanned(call))
    && (pc.LockWait? || InSession(pc) ==> EarlyError(call.cmd).None?)
    && (pc.VersionRead? || Consuming(pc) ==> !call.cmd.Force?)
    && (pc.ForceWrite? ==> call.cmd.Force?)
    && (Consuming(pc) ==> call.pipe.reader.Reader?)
  }

  /** Everything that has been, or will be, received. */
  ghost function Flow(pipe: Pipe): seq<Item>
    requires pipe.reader.Reader?
  {
    pipe.received + pipe.buf + Sends(pipe.reader.todo)
  }

  /** What is left of a script. */
  predicate EndsIn(script: seq<Op>, todo: seq<Op>) {
    |todo| <= |script| && script[|script| - |todo|..] == todo
  }

  /** Consumed, buffered and still unsent items together are the plan, a prefix of it when
      the reader was stopped, or a prefix and one source error; a stop or an error comes where
      the script polls or looks. */
  ghost predicate FlowOk(pipe: Pipe) {
    pipe.reader.Reader? ==>
      var flow := Flow(pipe);
      && pipe.plan == Sends(pipe.script) && WellFormedPlan(pipe.plan)
      && (pipe.reader.closed ==> pipe.reader.todo == [])
      && match pipe.reader.cut
         case Whole => flow == pipe.plan && EndsIn(pipe.script, pipe.reader.todo)
         case StopCut => pipe.reader.todo == [] && flow <= pipe.plan && StopPoint(pipe.script, |flow|)
         case FaultCut =>
           && |flow| > 0 && flow[|flow| - 1] == Fail(SourceFault) && flow[..|flow| - 1] <= pipe.plan
           && FaultPoint(pipe.script, |flow| - 1)
           && (pipe.reader.todo == [] || pipe.reader.todo == [Send(Fail(SourceFault))])
  }

  /** The first n items received are migrations. */
  predicate MigrsUpTo(items: seq<Item>, n: nat) {
    n <= |items| && forall i :: 0 <= i < n ==> items[i].Migr?
  }

  /** The consumer's place in what it has received. */
  ghost predicate ConsumerOk(call: Call) {
    var pc, pr, got := call.pc, call.pr, call.pipe.received;
    Consuming(pc) ==>
      && MigrsUpTo(got, pr.done)
      && |got| == (if pc.Receive? then pr.done else pr.done + 1)
      && (pc.Polling? ==> got[pr.done] == pc.item)
      && (pc.WriteDirty? || pc.ExecBody? || pc.WriteClean? ==> got[pr.done] == Migr(pc.m))
      && pr.stage == (if pc.ExecBody? then Dirtied
                      else if pc.WriteClean? then (if pc.m.body.Some? then BodyRun(true) else Dirtied)
                      else Untouched)
      && (pc.ExecBody? ==> pc.m.body.Some?)
  }

  /** During its session the call's record is the last one and describes the database
      against `base`, the state before the call; its plan was made from that state. */
  ghost predicate SessionOk(p: Planning, base: Db, v: View, c: nat) {
    InSession(v.call.pc) ==>
      && |v.history| > 0
      && v.history[|v.history| - 1] == Record(c, v.call.cmd, v.call.pr, false, Working)
      && (if Consuming(v.call.pc) then
            && !base.dirty && v.call.pipe.plan == p.plan(v.call.cmd, base.version)
            && v.call.pipe.script == p.script(v.call.cmd, base.version)
            && ValidProgress(p.migs(v.call.cmd, base.version), v.call.pr)
            && v.db == Effect(base, p.migs(v.call.cmd, base.version), v.call.pr)
          else v.db == base)
  }

  ghost predicate ViewSerial(p: Planning, base: Db, v: View, c: nat) {
    LocalOk(v.call) && FlowOk(v.call.pipe) && ConsumerOk(v.call) && SessionOk(p, base, v, c)
  }

  /** The action either leaves history and database alone, or replaces the last record by a
      valid one that again describes the database against `base`. */
  ghost predicate Rewrites(p: Planning, base: Db, v: View, w: View, c: nat) {
    (w.history == v.history && w.db == v.db) || Replaced(p, base, v, w, c)
  }

  ghost predicate Replaced(p: Planning, base: Db, v: View, w: View, c: nat) {
    var n := |v.history| - 1;
    && v.row == Some(c) && n >= 0 && v.history[n].call == c
    && |w.history| == n + 1 && w.history == v.history[..n] + [w.history[n]] && w.history[n].call == c
    && ValidRecord(p, base, w.history[n]) && w.db == RecordEffect(p, base, w.history[n])
  }

  /** The call is neither about to lock nor in its session. */
  predicate Outside(pc: Pc) {
    !(pc.Start? || pc.LockWait? || InSession(pc))
  }

  /** Outside nothing but the pipe is constrained. */
  lemma OutsideSerial(p: Planning, base: Db, w: View, c: nat)
    requires FlowOk(w.call.pipe) && Outside(w.call.pc)
    ensures ViewSerial(p, base, w, c)
  {
  }

  lemma NoteRewrites(p: Planning, base: Db, v: View, w: View, c: nat, rec: Record)
    requires v.row == Some(c) && |v.history| > 0 && v.history[|v.history| - 1].call == c
    requires w.history == v.history[..|v.history| - 1] + [rec] && rec.call == c
    requires ValidRecord(p, base, rec) && w.db == RecordEffect(p, base, rec)
    ensures Rewrites(p, base, v, w, c)
  {
  }

  /** What an action does to history and database, and to its own call. */
  ghost predicate SerialStep(p: Planning, base: Db, v: View, w: View, c: nat) {
    || (ViewSerial(p, base, w, c) && Rewrites(p, base, v, w, c))
    || (&& w.history == v.history + [Record(c, v.call.cmd, NO_PROGRESS, false, Working)]
        && w.db == v.db && v.row == Some(c) && ViewSerial(p, v.db, w, c)
        && EarlyError(v.call.cmd).None?)
  }

  // ----- items received come from the plan ------------------------------------------

  lemma ReceivedFromPlan(pipe: Pipe, n: nat)
    requires pipe.reader.Reader? && FlowOk(pipe) && MigrsUpTo(pipe.received, n)
    ensures n <= |Migs(pipe.plan)|
    ensures forall i :: 0 <= i < n ==> pipe.received[i] == Migr(Migs(pipe.plan)[i])
  {
    var flow := Flow(pipe);
    assert forall i :: 0 <= i < n ==> flow[i] == pipe.received[i];
    if n > 0 {
      assert flow[n - 1].Migr?;
      assert forall i :: 0 <= i < n ==> pipe.plan[i] == flow[i];
    }
  }

  /** No progress, no effect. */
  lemma NoProgressNoEffect(p: Planning, db: Db, rec: Record)
    requires rec.pr == NO_PROGRESS && !rec.forced
    ensures RecordEffect(p, db, rec) == db
  {
  }

  // ----- each kind of action ----------------------------------------------------------

  /** Until lock() succeeds nothing but the program counter and the lock attempt changes. */
  lemma LockTouches(v: View, c: nat, step: Step, w: View)
    requires LockAction(v, c, step) == Some(w) && !(step.LockReturn? && v.call.locker.Got?)
    ensures w.call == v.call.(pc := w.call.pc, locker := w.call.locker) && w.history == v.history && w.db == v.db
    ensures || w.call.pc == v.call.pc || w.call.pc.Done?
            || (w.call.pc.LockWait? && v.call.pc.Start? && EarlyError(v.call.cmd).None?)
  {
  }

  lemma LockReturnSerial(p: Planning, base: Db, v: View, c: nat, w: View)
    requires ViewOk(v, c) && ViewSerial(p, base, v, c) && LockAction(v, c, LockReturn) == Some(w)
    requires v.call.locker.Got?
    ensures w.history == v.history + [Record(c, v.call.cmd, NO_PROGRESS, false, Working)]
    ensures w.db == v.db && v.row == Some(c) && ViewSerial(p, v.db, w, c) && EarlyError(v.call.cmd).None?
  {
  }

  lemma LockActionSerial(p: Planning, base: Db, v: View, c: nat, step: Step, w: View)
    requires ViewOk(v, c) && ViewSerial(p, base, v, c) && LockAction(v, c, step) == Some(w)
    ensures SerialStep(p, base, v, w, c)
  {
    if step.LockReturn? && v.call.locker.Got? {
      LockReturnSerial(p, base, v, c, w);
    } else {
      LockTouches(v, c, step, w);
      if w.call.pc.Done? { OutsideSerial(p, base, w, c); }
    }
  }

  lemma UnlockTouches(v: View, c: nat, step: Step, w: View)
    requires UnlockAction(v, c, step) == Some(w)
    ensures w.call.pipe == v.call.pipe && Outside(w.call.pc) && w.history == v.history && w.db == v.db
  {
  }

  lemma UnlockActionSerial(p: Planning, base: Db, v: View, c: nat, step: Step, w: View)
    requires ViewSerial(p, base, v, c) && UnlockAction(v, c, step) == Some(w)
    ensures SerialStep(p, base, v, w, c)
  {
    UnlockTouches(v, c, step, w);
    OutsideSerial(p, base, w, c);
  }

  lemma ReaderTouchesPipe(v: View, step: Step, w: View)
    requires ReaderAction(v, step) == Some(w)
    ensures w.call == v.call.(pipe := w.call.pipe) && w.history == v.history && w.db == v.db
    ensures v.call.pipe.reader.Reader? && w.call.pipe.reader.Reader?
    ensures w.call.pipe.received == v.call.pipe.received
    ensures w.call.pipe.plan == v.call.pipe.plan && w.call.pipe.script == v.call.pipe.script
  {
  }

  /** A step that touches only the sending side of the pipe. */
  lemma SameSession(p: Planning, base: Db, v: View, w: View, c: nat)
    requires ViewSerial(p, base, v, c) && FlowOk(w.call.pipe)
    requires w.call.pc == v.call.pc && w.call.cmd == v.call.cmd && w.call.pr == v.call.pr
    requires w.call.pipe.received == v.call.pipe.received
    requires w.call.pipe.plan == v.call.pipe.plan && w.call.pipe.script == v.call.pipe.script
    requires v.call.pipe.reader.Reader? && w.call.pipe.reader.Reader?
    requires w.history == v.history && w.db == v.db
    ensures ViewSerial(p, base, w, c)
  {
  }

  lemma SendsFront(todo: seq<Op>)
    requires |todo| > 0
    ensures Sends(todo) == (if todo[0].Send? then [todo[0].item] else []) + Sends(todo[1..])
  {
    assert todo == [todo[0]] + todo[1..];
    SendsConcat([todo[0]], todo[1..]);
    OneOp(todo[0]);
  }

  lemma EndsInRest(script: seq<Op>, todo: seq<Op>)
    requires EndsIn(script, todo) && |todo| > 0
    ensures EndsIn(script, todo[1..])
  {
  }

  /** A poll or a look that goes well does not change what is still to come. */
  lemma SkipSilent(pipe: Pipe)
    requires FlowOk(pipe) && pipe.reader.Reader? && !pipe.reader.closed
    requires |pipe.reader.todo| > 0 && !pipe.reader.todo[0].Send?
    ensures FlowOk(pipe.(reader := pipe.reader.(todo := pipe.reader.todo[1..], poll := Asking)))
  {
    var r := pipe.reader;
    SendsFront(r.todo);
    EndsInRest(pipe.script, r.todo);
    assert Sends(r.todo) == Sends(r.todo[1..]);
  }

  /** A sent item moves from the script to the buffer. */
  lemma PushItem(pipe: Pipe)
    requires FlowOk(pipe) && pipe.reader.Reader? && !pipe.reader.closed
    requires |pipe.reader.todo| > 0 && pipe.reader.todo[0].Send?
    ensures FlowOk(pipe.(reader := pipe.reader.(todo := pipe.reader.todo[1..]),
                         buf := pipe.buf + [pipe.reader.todo[0].item]))
  {
    var r := pipe.reader;
    var pipe' := pipe.(reader := r.(todo := r.todo[1..]), buf := pipe.buf + [r.todo[0].item]);
    SendsFront(r.todo);
    if r.cut.Whole? { EndsInRest(pipe.script, r.todo); }
    assert Flow(pipe') == Flow(pipe);
  }

  /** Where an unbroken reader stands in its script. */
  lemma StandsAt(pipe: Pipe) returns (i: nat)
    requires FlowOk(pipe) && pipe.reader.Reader? && pipe.reader.cut.Whole? && |pipe.reader.todo| > 0
    ensures i < |pipe.script| && pipe.script[i] == pipe.reader.todo[0]
    ensures |SendsOfFirst(pipe.script, i)| == |pipe.received + pipe.buf|
    ensures pipe.received + pipe.buf <= pipe.plan
  {
    i := |pipe.script| - |pipe.reader.todo|;
    var done := pipe.script[..i];
    assert pipe.script == done + pipe.reader.todo;
    SendsConcat(done, pipe.reader.todo);
    FirstOfConcat(done, pipe.reader.todo, i);
  }

  /** Stopping leaves a prefix. */
  lemma StopShort(pipe: Pipe)
    requires FlowOk(pipe) && pipe.reader.Reader? && |pipe.reader.todo| > 0 && pipe.reader.todo[0].Poll?
    ensures FlowOk(pipe.(reader := Reader([], Asking, StopCut, false)))
  {
    var i := StandsAt(pipe);
    assert Flow(pipe.(reader := Reader([], Asking, StopCut, false))) == pipe.received + pipe.buf;
  }

  /** A failing source leaves a prefix and its error. */
  lemma FailShort(pipe: Pipe)
    requires FlowOk(pipe) && pipe.reader.Reader? && |pipe.reader.todo| > 0 && pipe.reader.todo[0].Look?
    ensures FlowOk(pipe.(reader := Reader([Send(Fail(SourceFault))], Asking, FaultCut, false)))
  {
    var i := StandsAt(pipe);
    SendsRefuse(SourceFault);
    var flow := Flow(pipe.(reader := Reader(Refuse(SourceFault), Asking, FaultCut, false)));
    assert flow == pipe.received + pipe.buf + [Fail(SourceFault)];
    assert flow[..|flow| - 1] == pipe.received + pipe.buf;
  }

  lemma PollKeepsFlow(v: View, w: View)
    requires FlowOk(v.call.pipe) && ReaderAction(v, ReaderPoll) == Some(w)
    ensures FlowOk(w.call.pipe)
  {
    var pipe := v.call.pipe;
    SkipSilent(pipe);
    StopShort(pipe);
    assert w.call.pipe.reader.todo == pipe.reader.todo ==> Flow(w.call.pipe) == Flow(pipe);
  }

  lemma ReaderKeepsFlow(v: View, step: Step, w: View)
    requires FlowOk(v.call.pipe) && ReaderAction(v, step) == Some(w)
    ensures FlowOk(w.call.pipe)
  {
    var pipe := v.call.pipe;
    match step
    case ReaderPoll => PollKeepsFlow(v, w);
    case ReaderLook => SkipSilent(pipe);
    case ReaderSend => PushItem(pipe);
    case ReaderFault => FailShort(pipe);
    case _ =>
  }

  /** During a session the database is the effect of any record with the call's progress. */
  lemma SessionEffect(p: Planning, base: Db, v: View, c: nat, exit: Exit)
    requires ViewSerial(p, base, v, c) && InSession(v.call.pc)
    ensures v.db == RecordEffect(p, base, Record(c, v.call.cmd, v.call.pr, false, exit))
    ensures |v.history| > 0 && v.history[|v.history| - 1].call == c
    ensures EarlyError(v.call.cmd).None?
  {
  }

  /** A call leaves its session with its progress, for a reason that is legal. */
  lemma LeaveSerial(p: Planning, base: Db, v: View, c: nat, x: View, err: Option<Err>, exit: Exit)
    requires ViewOk(v, c) && ViewSerial(p, base, v, c) && InSession(v.call.pc)
    requires x.call == v.call && x.history == v.history && x.db == v.db
    requires ValidRecord(p, base, Record(c, v.call.cmd, v.call.pr, false, exit))
    ensures ViewSerial(p, base, Leave(x, c, err, exit), c) && Rewrites(p, base, v, Leave(x, c, err, exit), c)
  {
    var w := Leave(x, c, err, exit);
    OutsideSerial(p, base, w, c);
    SessionEffect(p, base, v, c, exit);
    NoteRewrites(p, base, v, w, c, Record(c, v.call.cmd, v.call.pr, false, exit));
  }

  lemma OpenActionSerial(p: Planning, base: Db, v: View, c: nat, step: Step, w: View)
    requires PlanningOk(p) && ViewOk(v, c) && ViewSerial(p, base, v, c)
    requires OpenAction(p, v, c, step) == Some(w)
    ensures SerialStep(p, base, v, w, c)
  {
    if Consuming(w.call.pc) {
      StartsReading(p, base, v, c, w);
    } else if step.fault && step.ReadVersion? {
      LeaveSerial(p, base, v, c, v, Some(DriverFault), Refused(DriverFault));
    } else if step.fault {
      LeaveSerial(p, base, v, c, v, Some(DriverFault), DriverError);
    } else if step.ReadVersion? {
      LeaveSerial(p, base, v, c, v, Some(DirtyVersion(v.db.version)), Refused(DirtyVersion(v.db.version)));
    } else {
      OutsideSerial(p, base, w, c);
      NoteRewrites(p, base, v, w, c, w.history[|w.history| - 1]);
    }
  }

  lemma StartsReading(p: Planning, base: Db, v: View, c: nat, w: View)
    requires PlanningOk(p) && ViewSerial(p, base, v, c)
    requires OpenAction(p, v, c, ReadVersion(false)) == Some(w) && Consuming(w.call.pc)
    ensures ViewSerial(p, base, w, c) && Rewrites(p, base, v, w, c)
  {
    assert PlanAgrees(p, v.call.cmd, v.db.version);
    assert Flow(w.call.pipe) == Sends(w.call.pipe.reader.todo);
  }

  lemma ReceiveActionSerial(p: Planning, base: Db, v: View, c: nat, step: Step, w: View)
    requires PlanningOk(p) && ViewOk(v, c) && ViewSerial(p, base, v, c)
    requires ReceiveAction(v, c, step) == Some(w)
    ensures SerialStep(p, base, v, w, c)
  {
    if step.SeeClosed? {
      assert PlanAgrees(p, v.call.cmd, base.version);
      ClosedMeansAll(v.call);
      LeaveSerial(p, base, v, c, v, None, Drained(v.call.pipe.reader.cut.StopCut?));
    } else {
      ItemReceived(p, base, v, c, step, w);
    }
  }

  lemma ItemReceived(p: Planning, base: Db, v: View, c: nat, step: Step, w: View)
    requires ViewSerial(p, base, v, c) && ReceiveAction(v, c, step) == Some(w) && (step.Take? || step.Handoff?)
    ensures ViewSerial(p, base, w, c) && w.history == v.history && w.db == v.db
  {
    ReceiveKeepsFlow(v, c, step, w);
  }

  lemma ReceiveKeepsFlow(v: View, c: nat, step: Step, w: View)
    requires FlowOk(v.call.pipe) && ReceiveAction(v, c, step) == Some(w) && (step.Take? || step.Handoff?)
    ensures FlowOk(w.call.pipe)
  {
    if step.Handoff? { HandOffItem(v.call.pipe); } else { TakeItem(v.call.pipe); }
  }

  /** An unbuffered item moves from the script to what was received. */
  lemma HandOffItem(pipe: Pipe)
    requires FlowOk(pipe) && pipe.reader.Reader? && !pipe.reader.closed && pipe.buf == []
    requires |pipe.reader.todo| > 0 && pipe.reader.todo[0].Send?
    ensures FlowOk(pipe.(reader := pipe.reader.(todo := pipe.reader.todo[1..]),
                         received := pipe.received + [pipe.reader.todo[0].item]))
  {
    var r := pipe.reader;
    var pipe' := pipe.(reader := r.(todo := r.todo[1..]), received := pipe.received + [r.todo[0].item]);
    SendsFront(r.todo);
    if r.cut.Whole? { EndsInRest(pipe.script, r.todo); }
    assert Flow(pipe') == Flow(pipe);
  }

  /** A buffered item moves to what was received. */
  lemma TakeItem(pipe: Pipe)
    requires FlowOk(pipe) && pipe.reader.Reader? && |pipe.buf| > 0
    ensures FlowOk(pipe.(buf := pipe.buf[1..], received := pipe.received + [pipe.buf[0]]))
  {
    var pipe' := pipe.(buf := pipe.buf[1..], received := pipe.received + [pipe.buf[0]]);
    assert pipe.received + pipe.buf == pipe'.received + pipe'.buf;
    assert Flow(pipe') == Flow(pipe);
  }

  /** A closed, empty channel whose reader was not stopped has delivered the whole plan; one
      whose reader was stopped, all items up to a poll of the script. */
  lemma ClosedMeansAll(call: Call)
    requires FlowOk(call.pipe) && ConsumerOk(call) && call.pc.Receive? && call.pipe.reader.Reader?
    requires call.pipe.reader.closed && call.pipe.buf == []
    ensures if call.pipe.reader.cut.StopCut? then StopPoint(call.pipe.script, call.pr.done)
            else call.pipe.received == call.pipe.plan && call.pr.done == |Migs(call.pipe.plan)| == |call.pipe.plan|
  {
    assert Sends(call.pipe.reader.todo) == [];
    assert Flow(call.pipe) == call.pipe.received;
    ReceivedFromPlan(call.pipe, call.pr.done);
  }

  /** An error taken from the channel is the planned one, after every migration, or that of a
      source that failed where the script looks at it. */
  lemma ErrorIsPlanned(call: Call)
    requires FlowOk(call.pipe) && ConsumerOk(call) && call.pc.Polling? && call.pipe.reader.Reader?
    requires call.pc.item.Fail?
    ensures var n := |Migs(call.pipe.plan)|;
            || (call.pc.item.err == SourceFault && FaultPoint(call.pipe.script, call.pr.done))
            || (call.pr.done == n && |call.pipe.plan| == n + 1 && call.pipe.plan[n] == call.pc.item)
  {
    var flow, n := Flow(call.pipe), call.pr.done;
    ReceivedFromPlan(call.pipe, n);
    assert flow[n] == call.pipe.received[n];
    if call.pipe.reader.cut.FaultCut? && n == |flow| - 1 {
    } else {
      assert call.pipe.plan[n] == flow[n];
    }
  }

  /** Any item taken from the channel is the next of the plan, or a source error. */
  lemma ItemIsPlanned(call: Call)
    requires FlowOk(call.pipe) && ConsumerOk(call) && call.pc.Polling? && call.pipe.reader.Reader?
    ensures call.pr.done < |call.pipe.plan| || FaultPoint(call.pipe.script, call.pr.done)
  {
    assert |Flow(call.pipe)| > call.pr.done;
  }

  lemma ConsumerPollSerial(p: Planning, base: Db, v: View, c: nat, w: View)
    requires PlanningOk(p) && ViewOk(v, c) && ViewSerial(p, base, v, c)
    requires ConsumerPollAction(v, c) == Some(w)
    ensures SerialStep(p, base, v, w, c)
  {
    if !Consuming(w.call.pc) {
      assert PlanAgrees(p, v.call.cmd, base.version);
      var answer := StopStep(v.call.pc.poll, v.inst);
      var item := v.call.pc.item;
      if answer.stop {
        ItemIsPlanned(v.call);
        LeaveSerial(p, base, v, c, v.(inst := answer.inst), None, StopSeen);
      } else {
        ErrorIsPlanned(v.call);
        LeaveSerial(p, base, v, c, v.(inst := answer.inst), Some(item.err), PlanError(item.err));
      }
    }
  }

  /** The migration being worked on is the next one of the plan. */
  lemma CurrentMigration(p: Planning, base: Db, v: View, c: nat)
    requires PlanningOk(p) && ViewSerial(p, base, v, c)
    requires v.call.pc.WriteDirty? || v.call.pc.ExecBody? || v.call.pc.WriteClean?
    ensures var ms := p.migs(v.call.cmd, base.version);
            v.call.pr.done < |ms| && ms[v.call.pr.done] == v.call.pc.m
  {
    assert PlanAgrees(p, v.call.cmd, base.version);
    ReceivedFromPlan(v.call.pipe, v.call.pr.done + 1);
  }

  lemma SetDirtySerial(p: Planning, base: Db, v: View, c: nat, step: Step, w: View)
    requires PlanningOk(p) && ViewOk(v, c) && ViewSerial(p, base, v, c)
    requires step.SetDirty? && MigrateAction(v, c, step) == Some(w)
    ensures ViewSerial(p, base, w, c) && Rewrites(p, base, v, w, c)
  {
    CurrentMigration(p, base, v, c);
    NoteRewrites(p, base, v, w, c, w.history[|w.history| - 1]);
  }

  lemma RunMigrationSerial(p: Planning, base: Db, v: View, c: nat, step: Step, w: View)
    requires PlanningOk(p) && ViewOk(v, c) && ViewSerial(p, base, v, c)
    requires step.RunMigration? && MigrateAction(v, c, step) == Some(w)
    ensures ViewSerial(p, base, w, c) && Rewrites(p, base, v, w, c)
  {
    CurrentMigration(p, base, v, c);
    NoteRewrites(p, base, v, w, c, w.history[|w.history| - 1]);
  }

  lemma SetCleanSerial(p: Planning, base: Db, v: View, c: nat, step: Step, w: View)
    requires PlanningOk(p) && ViewOk(v, c) && ViewSerial(p, base, v, c)
    requires step.SetClean? && MigrateAction(v, c, step) == Some(w)
    ensures ViewSerial(p, base, w, c) && Rewrites(p, base, v, w, c)
  {
    CurrentMigration(p, base, v, c);
    NoteRewrites(p, base, v, w, c, w.history[|w.history| - 1]);
  }

  lemma MigrateActionSerial(p: Planning, base: Db, v: View, c: nat, step: Step, w: View)
    requires PlanningOk(p) && ViewOk(v, c) && ViewSerial(p, base, v, c)
    requires MigrateAction(v, c, step) == Some(w)
    ensures SerialStep(p, base, v, w, c)
  {
    match step
    case SetDirty(_) => SetDirtySerial(p, base, v, c, step, w);
    case RunMigration(_) => RunMigrationSerial(p, base, v, c, step, w);
    case SetClean(_) => SetCleanSerial(p, base, v, c, step, w);
    case _ =>
  }

  lemma ReaderActionSerial(p: Planning, base: Db, v: View, c: nat, step: Step, w: View)
    requires ViewSerial(p, base, v, c) && ReaderAction(v, step) == Some(w)
    ensures SerialStep(p, base, v, w, c)
  {
    ReaderKeepsFlow(v, step, w);
    ReaderTouchesPipe(v, step, w);
    SameSession(p, base, v, w, c);
  }

  // ----- the whole system -------------------------------------------------------------

  /** The state before the last recorded call. */
  ghost function BaseOf(p: Planning, s: State): Db {
    if |s.history| == 0 then s.origin else ReplayFirst(p, s.origin, s.history, |s.history| - 1)
  }

  ghost predicate SerialAt(p: Planning, s: State, c: nat)
    requires c in s.calls && s.calls[c].inst in s.insts
  {
    ViewSerial(p, BaseOf(p, s), ViewOf(s, c), c)
  }

  ghost predicate SerialInv(p: Planning, s: State) {
    && LockInv(s)
    && ValidHistory(p, s.origin, s.history) && s.db == Replay(p, s.origin, s.history)
    && forall c :: c in s.calls && s.calls[c].inst in s.insts ==> SerialAt(p, s, c)
  }

  lemma InitialSerialInv(p: Planning, s: State)
    requires Initial(s)
    ensures SerialInv(p, s)
  {
    InitialLockInv(s);
  }

  lemma LockStepsSerial(p: Planning, base: Db, v: View, c: nat, step: Step, w: View)
    requires PlanningOk(p) && ViewOk(v, c) && ViewSerial(p, base, v, c)
    requires CallAction(p, v, c, step) == Some(w)
    requires LockStep(step)
    ensures SerialStep(p, base, v, w, c)
  {
    match step
    case CallBegin | LockerCas | LockerTx(_) | LockerRestore | LockReturn | LockTimedOut =>
      LockActionSerial(p, base, v, c, step, w);
    case UnlockAcquire | UnlockCas | DeleteRow(_) | RestoreFlag | ClearLocked =>
      UnlockActionSerial(p, base, v, c, step, w);
  }

  lemma WorkStepsSerial(p: Planning, base: Db, v: View, c: nat, step: Step, w: View)
    requires PlanningOk(p) && ViewOk(v, c) && ViewSerial(p, base, v, c)
    requires CallAction(p, v, c, step) == Some(w)
    requires !LockStep(step)
    ensures SerialStep(p, base, v, w, c)
  {
    match step
    case ReadVersion(_) | WriteForce(_) => OpenActionSerial(p, base, v, c, step, w);
    case ReaderPoll | ReaderLook | ReaderSend | ReaderFault | ReaderClose =>
      ReaderActionSerial(p, base, v, c, step, w);
    case Handoff | Take | SeeClosed => ReceiveActionSerial(p, base, v, c, step, w);
    case ConsumerPoll => ConsumerPollSerial(p, base, v, c, w);
    case SetDirty(_) | RunMigration(_) | SetClean(_) => MigrateActionSerial(p, base, v, c, step, w);
  }

  lemma CallActionSerial(p: Planning, base: Db, v: View, c: nat, step: Step, w: View)
    requires PlanningOk(p) && ViewOk(v, c) && ViewSerial(p, base, v, c)
    requires CallAction(p, v, c, step) == Some(w)
    ensures SerialStep(p, base, v, w, c)
  {
    if LockStep(step) { LockStepsSerial(p, base, v, c, step, w); } else { WorkStepsSerial(p, base, v, c, step, w); }
  }

  /** A call outside its session does not depend on history or database. */
  lemma OutsideSession(p: Planning, base: Db, v: View, base': Db, w: View, d: nat)
    requires ViewSerial(p, base, v, d) && w.call == v.call
    requires (base' == base && w.history == v.history && w.db == v.db) || !InSession(v.call.pc)
    ensures ViewSerial(p, base', w, d)
  {
  }

  /** Replay after the step, and the new base. */
  lemma HistoryStep(p: Planning, s: State, c: nat, w: View)
    requires ValidHistory(p, s.origin, s.history) && s.db == Replay(p, s.origin, s.history)
    requires c in s.calls && s.calls[c].inst in s.insts
    requires SerialStep(p, BaseOf(p, s), ViewOf(s, c), w, c)
    ensures ValidHistory(p, s.origin, w.history) && w.db == Replay(p, s.origin, w.history)
    ensures var base' := BaseOf(p, WriteBack(s, c, w));
            && ViewSerial(p, base', w, c)
            && ((base' == BaseOf(p, s) && w.history == s.history && w.db == s.db) || s.row == Some(c))
  {
    if ViewSerial(p, BaseOf(p, s), w, c) && Rewrites(p, BaseOf(p, s), ViewOf(s, c), w, c) {
      if !(w.history == s.history && w.db == s.db) { HistoryReplaced(p, s, c, w); }
    } else {
      HistoryExtended(p, s, c, w);
    }
  }

  lemma HistoryReplaced(p: Planning, s: State, c: nat, w: View)
    requires ValidHistory(p, s.origin, s.history) && c in s.calls && s.calls[c].inst in s.insts
    requires Replaced(p, BaseOf(p, s), ViewOf(s, c), w, c)
    ensures ValidHistory(p, s.origin, w.history) && w.db == Replay(p, s.origin, w.history)
    ensures BaseOf(p, WriteBack(s, c, w)) == BaseOf(p, s)
  {
    ReplaceLast(p, s.origin, s.history, w.history[|w.history| - 1]);
  }

  lemma HistoryExtended(p: Planning, s: State, c: nat, w: View)
    requires ValidHistory(p, s.origin, s.history) && s.db == Replay(p, s.origin, s.history)
    requires c in s.calls && EarlyError(s.calls[c].cmd).None? && w.db == s.db
    requires w.history == s.history + [Record(c, s.calls[c].cmd, NO_PROGRESS, false, Working)]
    ensures ValidHistory(p, s.origin, w.history) && w.db == Replay(p, s.origin, w.history)
    ensures BaseOf(p, WriteBack(s, c, w)) == s.db
  {
    ReplaySnoc(p, s.origin, s.history, Record(c, s.calls[c].cmd, NO_PROGRESS, false, Working));
  }

  /** The other calls keep their part: either nothing they look at changed, or the acting
      call owns the row and they are outside their sessions. */
  lemma OthersKeep(p: Planning, s: State, s': State, c: nat, d: nat)
    requires SerialInv(p, s) && d in s.calls && d in s'.calls && d != c
    requires s'.calls[d] == s.calls[d] && s.calls[d].inst in s.insts && s.calls[d].inst in s'.insts
    requires s'.origin == s.origin
    requires (BaseOf(p, s') == BaseOf(p, s) && s'.history == s.history && s'.db == s.db) || s.row == Some(c)
    ensures SerialAt(p, s', d)
  {
    assert CallInv(s, d) && SerialAt(p, s, d);
    OutsideSession(p, BaseOf(p, s), ViewOf(s, d), BaseOf(p, s'), ViewOf(s', d), d);
  }

  lemma SignalKeepsSerialInv(p: Planning, s: State, i: nat, s': State)
    requires SerialInv(p, s) && Apply(p, s, Signal(i)) == Some(s')
    ensures SerialInv(p, s')
  {
    StepKeepsLockInv(p, s, Signal(i), s');
    forall d | d in s'.calls && s'.calls[d].inst in s'.insts ensures SerialAt(p, s', d) {
      assert CallInv(s, d) && SerialAt(p, s, d);
      OutsideSession(p, BaseOf(p, s), ViewOf(s, d), BaseOf(p, s'), ViewOf(s', d), d);
    }
  }

  lemma ViewKeepsSerialInv(p: Planning, s: State, c: nat, w: View, s': State)
    requires SerialInv(p, s) && c in s.calls && s.calls[c].inst in s.insts && w.call.inst == s.calls[c].inst
    requires SerialStep(p, BaseOf(p, s), ViewOf(s, c), w, c) && s' == WriteBack(s, c, w) && LockInv(s')
    ensures SerialInv(p, s')
  {
    HistoryStep(p, s, c, w);
    forall d | d in s'.calls && s'.calls[d].inst in s'.insts ensures SerialAt(p, s', d) {
      assert CallInv(s, d);
      if d != c { OthersKeep(p, s, s', c, d); }
    }
  }

  lemma StepKeepsSerialInv(p: Planning, s: State, a: Action, s': State)
    requires PlanningOk(p) && SerialInv(p, s) && Apply(p, s, a) == Some(s')
    ensures SerialInv(p, s')
  {
    match a
    case Signal(i) => SignalKeepsSerialInv(p, s, i, s');
    case Act(c, step) =>
      StepKeepsLockInv(p, s, a, s');
      assert CallInv(s, c) && SerialAt(p, s, c);
      var w := CallAction(p, ViewOf(s, c), c, step).value;
      CallActionSerial(p, BaseOf(p, s), ViewOf(s, c), c, step, w);
      ViewKeepsSerialInv(p, s, c, w, s');
  }

  lemma {:induction false} RunKeepsSerialInv(p: Planning, s: State, actions: seq<Action>, n: nat)
    requires PlanningOk(p) && n <= |actions| && Initial(s)
    ensures Run(p, s, actions, n).Some? ==> SerialInv(p, Run(p, s, actions, n).value)
  {
    if n == 0 {
      InitialSerialInv(p, s);
    } else {
      RunKeepsSerialInv(p, s, actions, n - 1);
      if Run(p, s, actions, n).Some? {
        StepKeepsSerialInv(p, Run(p, s, actions, n - 1).value, actions[n - 1],
                           Run(p, s, actions, n).value);
      }
    }
  }
}

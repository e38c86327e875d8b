/** The other half of serialisability: every legal outcome of a call is the outcome of a run of
    that call alone, so every interleaving has a serial run, one call after the other, that
    leaves the same database with the same records and errors. */
module SerialRuns {
  import opened Types
  import opened Planner
  import opened Engine
  import opened System
  import opened StopOrder

  // ----- runs of one call, in its own view ---------------------------------------------------

  /** A step of the call, or a stop signal to its instance. */
  datatype Move = Do(step: Step) | Sig

  ghost function ApplyMove(p: Planning, v: View, c: nat, m: Move): Option<View> {
    match m
    case Do(step) => CallAction(p, v, c, step)
    case Sig => if v.inst.signal then None else Some(v.(inst := v.inst.(signal := true)))
  }

  /** Moves as a value of its own; `Machine` is the one of the step system. */
  type Mover = (View, Move) -> Option<View>

  ghost function Machine(p: Planning, c: nat): Mover {
    (v, m) => ApplyMove(p, v, c, m)
  }

  ghost function RunMoves(go: Mover, v: View, moves: seq<Move>, n: nat): Option<View>
    requires n <= |moves|
  {
    if n == 0 then Some(v)
    else match RunMoves(go, v, moves, n - 1)
      case None => None
      case Some(w) => go(w, moves[n - 1])
  }

  ghost predicate RunIs(go: Mover, v: View, moves: seq<Move>, w: View) {
    RunMoves(go, v, moves, |moves|) == Some(w)
  }

  /** The call alone can get from v to w. */
  ghost predicate Leads(p: Planning, v: View, c: nat, w: View) {
    exists moves :: RunIs(Machine(p, c), v, moves, w)
  }

  lemma LeadsNowhere(p: Planning, v: View, c: nat)
    ensures Leads(p, v, c, v)
  {
    var none: seq<Move> := [];
    assert RunIs(Machine(p, c), v, none, v);
  }

  lemma {:induction false} MovesPrefix(go: Mover, v: View, moves: seq<Move>, m: Move, n: nat)
    requires n <= |moves|
    ensures RunMoves(go, v, moves + [m], n) == RunMoves(go, v, moves, n)
  {
    if n > 0 { MovesPrefix(go, v, moves, m, n - 1); }
  }

  lemma MovesSnoc(go: Mover, v: View, moves: seq<Move>, w: View, m: Move, x: View)
    requires RunIs(go, v, moves, w) && go(w, m) == Some(x)
    ensures RunIs(go, v, moves + [m], x)
  {
    MovesPrefix(go, v, moves, m, |moves|);
  }

  lemma ThenMove(p: Planning, v: View, c: nat, w: View, m: Move, x: View)
    requires Leads(p, v, c, w) && ApplyMove(p, w, c, m) == Some(x)
    ensures Leads(p, v, c, x)
  {
    var moves :| RunIs(Machine(p, c), v, moves, w);
    MovesSnoc(Machine(p, c), v, moves, w, m, x);
  }

  // One more step of each kind.

  lemma ThenLock(p: Planning, v: View, c: nat, w: View, step: Step) returns (x: View)
    requires Leads(p, v, c, w) && LockAction(w, c, step).Some?
    ensures Leads(p, v, c, x) && LockAction(w, c, step) == Some(x)
  {
    x := LockAction(w, c, step).value;
    ThenMove(p, v, c, w, Do(step), x);
  }

  lemma ThenUnlock(p: Planning, v: View, c: nat, w: View, step: Step) returns (x: View)
    requires Leads(p, v, c, w) && UnlockAction(w, c, step).Some?
    ensures Leads(p, v, c, x) && UnlockAction(w, c, step) == Some(x)
  {
    x := UnlockAction(w, c, step).value;
    ThenMove(p, v, c, w, Do(step), x);
  }

  lemma ThenOpen(p: Planning, v: View, c: nat, w: View, step: Step) returns (x: View)
    requires Leads(p, v, c, w) && OpenAction(p, w, c, step).Some?
    ensures Leads(p, v, c, x) && OpenAction(p, w, c, step) == Some(x)
  {
    x := OpenAction(p, w, c, step).value;
    ThenMove(p, v, c, w, Do(step), x);
  }

  lemma ThenRead(p: Planning, v: View, c: nat, w: View, step: Step) returns (x: View)
    requires Leads(p, v, c, w) && ReaderAction(w, step).Some?
    ensures Leads(p, v, c, x) && ReaderAction(w, step) == Some(x)
  {
    x := ReaderAction(w, step).value;
    ThenMove(p, v, c, w, Do(step), x);
  }

  lemma ThenReceive(p: Planning, v: View, c: nat, w: View, step: Step) returns (x: View)
    requires Leads(p, v, c, w) && ReceiveAction(w, c, step).Some?
    ensures Leads(p, v, c, x) && ReceiveAction(w, c, step) == Some(x)
  {
    x := ReceiveAction(w, c, step).value;
    ThenMove(p, v, c, w, Do(step), x);
  }

  lemma ThenPoll(p: Planning, v: View, c: nat, w: View) returns (x: View)
    requires Leads(p, v, c, w) && ConsumerPollAction(w, c).Some?
    ensures Leads(p, v, c, x) && ConsumerPollAction(w, c) == Some(x)
  {
    x := ConsumerPollAction(w, c).value;
    ThenMove(p, v, c, w, Do(ConsumerPoll), x);
  }

  lemma ThenMigrate(p: Planning, v: View, c: nat, w: View, step: Step) returns (x: View)
    requires Leads(p, v, c, w) && MigrateAction(w, c, step).Some?
    ensures Leads(p, v, c, x) && MigrateAction(w, c, step) == Some(x)
  {
    x := MigrateAction(w, c, step).value;
    ThenMove(p, v, c, w, Do(step), x);
  }

  // ----- getting and giving back the lock -----------------------------------------------------

  /** About to start, on an instance where no other call is under way, with the lock free. */
  predicate Fresh(v: View) {
    && v.call == FreshCall(v.call.inst, v.call.cmd, v.call.capacity)
    && v.inst == FreshInstance().(stopFlag := v.inst.stopFlag)
    && v.row.None? && EarlyError(v.call.cmd).None?
  }

  /** The call holds the lock. */
  predicate Holding(v: View, c: nat) {
    v.row == Some(c) && v.inst == Instance(None, true, true, v.inst.stopFlag, false)
  }

  /** The call holds the lock, and nobody has asked it to stop. */
  predicate Going(v: View, c: nat) {
    Holding(v, c) && !v.inst.stopFlag
  }

  lemma Enter(p: Planning, v: View, c: nat) returns (w: View)
    requires Fresh(v)
    ensures Leads(p, v, c, w) && Holding(w, c) && w.inst.stopFlag == v.inst.stopFlag && w.db == v.db
    ensures w.history == v.history + [Record(c, v.call.cmd, NO_PROGRESS, false, Working)]
    ensures w.call == v.call.(pc := if v.call.cmd.Force? then ForceWrite else VersionRead, locker := Got, entered := true)
  {
    LeadsNowhere(p, v, c);
    w := ThenLock(p, v, c, v, CallBegin);
    w := ThenLock(p, v, c, w, LockerCas);
    w := ThenLock(p, v, c, w, LockerTx(false));
    w := ThenLock(p, v, c, w, LockReturn);
  }

  /** The call's work is over with record `rec`; `front` are the records before it, and `stop` is
      the stop flag it leaves. */
  ghost predicate Leaving(p: Planning, base: Db, front: seq<Record>, v: View, c: nat, rec: Record, stop: bool) {
    && v.call.pc == UnlockWait(ErrOf(rec)) && Holding(v, c) && v.inst.stopFlag == stop
    && v.history == front + [rec] && v.db == RecordEffect(p, base, rec)
  }

  /** The call returned and left the lock free. */
  ghost predicate Left(p: Planning, base: Db, front: seq<Record>, v: View, rec: Record, stop: bool) {
    && v.call.pc == Done(Result(ErrOf(rec), None)) && v.row.None?
    && v.inst == FreshInstance().(stopFlag := stop)
    && v.history == front + [rec] && v.db == RecordEffect(p, base, rec)
  }

  lemma Exit(p: Planning, base: Db, front: seq<Record>, v: View, c: nat, w0: View, rec: Record, stop: bool)
    returns (w: View)
    requires Leads(p, v, c, w0) && Leaving(p, base, front, w0, c, rec, stop)
    ensures Leads(p, v, c, w) && Left(p, base, front, w, rec, stop)
  {
    var x := ThenUnlock(p, v, c, w0, UnlockAcquire);
    x := ThenUnlock(p, v, c, x, UnlockCas);
    w := Release(p, base, front, v, c, x, rec, stop);
  }

  lemma Release(p: Planning, base: Db, front: seq<Record>, v: View, c: nat, w0: View, rec: Record, stop: bool)
    returns (w: View)
    requires Leads(p, v, c, w0) && w0.call.pc == UnlockDelete(ErrOf(rec))
    requires w0.inst == Instance(Some(c), true, false, stop, false)
    requires w0.history == front + [rec] && w0.db == RecordEffect(p, base, rec)
    ensures Leads(p, v, c, w) && Left(p, base, front, w, rec, stop)
  {
    w := ThenUnlock(p, v, c, w0, DeleteRow(false));
    w := ThenUnlock(p, v, c, w, ClearLocked);
  }

  // ----- working through the script -------------------------------------------------------------

  /** The reader has done the first j operations of its script and the consumer has completed
      everything sent so far. */
  ghost predicate Midway(p: Planning, base: Db, front: seq<Record>, v: View, c: nat, j: nat) {
    var script, ms := p.script(v.call.cmd, base.version), p.migs(v.call.cmd, base.version);
    && j <= |script| && NoErrors(script, j) && Going(v, c) && v.call.pc.Receive? && !v.call.cmd.Force?
    && v.call.pipe == Pipe(p.plan(v.call.cmd, base.version), script, Reader(script[j..], Asking, Whole, false),
                           [], SendsOfFirst(script, j))
    && |SendsOfFirst(script, j)| <= |ms|
    && v.call.pr == Progress(|SendsOfFirst(script, j)|, Untouched)
    && v.db == CompleteFirst(base, ms, v.call.pr.done)
    && |v.history| == |front| + 1 && v.history[..|front|] == front
  }

  lemma Open(p: Planning, v: View, c: nat, w0: View, front: seq<Record>) returns (w: View)
    requires Leads(p, v, c, w0) && Going(w0, c) && w0.call.pc.VersionRead? && w0.call.pr == NO_PROGRESS
    requires !w0.db.dirty && !w0.call.cmd.Force?
    requires |w0.history| == |front| + 1 && w0.history[..|front|] == front
    ensures Leads(p, v, c, w) && Midway(p, w0.db, front, w, c, 0) && w.call.cmd == w0.call.cmd
  {
    w := ThenOpen(p, v, c, w0, ReadVersion(false));
    var script := p.script(w.call.cmd, w0.db.version);
    assert script[0..] == script;
  }

  /** The next item of the script is the next migration of the plan. */
  lemma NextItem(p: Planning, cmd: Cmd, version: int, j: nat)
    requires PlanAgrees(p, cmd, version) && j < |p.script(cmd, version)|
    ensures var script, plan := p.script(cmd, version), p.plan(cmd, version);
            var n := |SendsOfFirst(script, j)|;
            && NoErrors(script, j) && n <= |p.migs(cmd, version)|
            && (script[j].Send? ==> n < |plan| && plan[n] == script[j].item)
            && (script[j].Send? && script[j].item.Migr? ==>
                  n < |p.migs(cmd, version)| && script[j].item == Migr(p.migs(cmd, version)[n]))
  {
    ItemInPlan(p.script(cmd, version), j);
  }

  lemma ItemInPlan(script: seq<Op>, j: nat)
    requires ErrorLast(script) && WellFormedPlan(Sends(script)) && j < |script|
    ensures var n := |SendsOfFirst(script, j)|;
            && n <= |Migs(Sends(script))|
            && (script[j].Send? ==> n < |Sends(script)| && Sends(script)[n] == script[j].item)
  {
    SendsGrow(script, j, |script|);
    SendsGrow(script, j + 1, |script|);
    SendsMigrations(script, j);
    var sent := SendsOfFirst(script, j);
    if sent != [] { assert Sends(script)[|sent| - 1] == sent[|sent| - 1]; }
  }

  lemma {:induction false} SendsGrow(script: seq<Op>, j: nat, n: nat)
    requires j <= n <= |script|
    ensures SendsOfFirst(script, j) <= SendsOfFirst(script, n)
  {
    if j < n { SendsGrow(script, j, n - 1); }
  }

  /** A poll or a look that goes well. */
  lemma SkipSilentOp(p: Planning, base: Db, front: seq<Record>, v: View, c: nat, w0: View, j: nat) returns (w: View)
    requires Leads(p, v, c, w0) && Midway(p, base, front, w0, c, j)
    requires j < |p.script(w0.call.cmd, base.version)| && !p.script(w0.call.cmd, base.version)[j].Send?
    ensures Leads(p, v, c, w) && Midway(p, base, front, w, c, j + 1) && w.call.cmd == w0.call.cmd
  {
    var script := p.script(w0.call.cmd, base.version);
    assert script[j..][0] == script[j] && script[j..][1..] == script[j + 1..];
    if script[j].Look? {
      w := ThenRead(p, v, c, w0, ReaderLook);
    } else {
      w := ThenRead(p, v, c, w0, ReaderPoll);
      w := ThenRead(p, v, c, w, ReaderPoll);
    }
  }

  /** The consumer has received `item` after completing n migrations, and is about to poll. */
  ghost predicate Offered(p: Planning, base: Db, front: seq<Record>, v: View, c: nat, n: nat, item: Item) {
    var ms := p.migs(v.call.cmd, base.version);
    && Going(v, c) && v.call.pc == Polling(item, Asking) && !v.call.cmd.Force?
    && n <= |ms| && v.call.pr == Progress(n, Untouched) && v.db == CompleteFirst(base, ms, n)
    && |v.history| == |front| + 1 && v.history[..|front|] == front
  }

  /** An item is handed over without a buffer. */
  lemma HandOver(p: Planning, base: Db, front: seq<Record>, v: View, c: nat, w0: View, j: nat) returns (w: View)
    requires Leads(p, v, c, w0) && Midway(p, base, front, w0, c, j)
    requires j < |p.script(w0.call.cmd, base.version)| && p.script(w0.call.cmd, base.version)[j].Send?
    ensures var script := p.script(w0.call.cmd, base.version);
            && Leads(p, v, c, w) && w.call.cmd == w0.call.cmd
            && Offered(p, base, front, w, c, |SendsOfFirst(script, j)|, script[j].item)
            && w.call.pipe == Pipe(p.plan(w.call.cmd, base.version), script,
                                   Reader(script[j + 1..], Asking, Whole, false), [], SendsOfFirst(script, j + 1))
  {
    var script := p.script(w0.call.cmd, base.version);
    assert script[j..][0] == script[j] && script[j..][1..] == script[j + 1..];
    w := ThenReceive(p, v, c, w0, Handoff);
  }

  /** The source fails where the reader looks at it, and the consumer gets the error. */
  lemma HandOverFault(p: Planning, base: Db, front: seq<Record>, v: View, c: nat, w0: View, j: nat) returns (w: View)
    requires Leads(p, v, c, w0) && Midway(p, base, front, w0, c, j)
    requires j < |p.script(w0.call.cmd, base.version)| && p.script(w0.call.cmd, base.version)[j].Look?
    ensures Leads(p, v, c, w) && w.call.cmd == w0.call.cmd
    ensures Offered(p, base, front, w, c, w0.call.pr.done, Fail(SourceFault))
  {
    var script := p.script(w0.call.cmd, base.version);
    assert script[j..][0] == script[j];
    w := ThenRead(p, v, c, w0, ReaderFault);
    w := ThenReceive(p, v, c, w, Handoff);
  }

  /** The stop check of migration m has passed. */
  ghost predicate Accepted(p: Planning, base: Db, front: seq<Record>, v: View, c: nat, n: nat, m: Migration) {
    var ms := p.migs(v.call.cmd, base.version);
    && Going(v, c) && v.call.pc == WriteDirty(m) && !v.call.cmd.Force?
    && n < |ms| && m == ms[n] && v.call.pr == Progress(n, Untouched) && v.db == CompleteFirst(base, ms, n)
    && |v.history| == |front| + 1 && v.history[..|front|] == front
  }

  lemma Accept(p: Planning, base: Db, front: seq<Record>, v: View, c: nat, w0: View, n: nat, m: Migration) returns (w: View)
    requires Leads(p, v, c, w0) && Offered(p, base, front, w0, c, n, Migr(m))
    requires n < |p.migs(w0.call.cmd, base.version)| && m == p.migs(w0.call.cmd, base.version)[n]
    ensures Leads(p, v, c, w) && Accepted(p, base, front, w, c, n, m)
    ensures w.call.cmd == w0.call.cmd && w.call.pipe == w0.call.pipe
  {
    w := ThenPoll(p, v, c, w0);
    w := ThenPoll(p, v, c, w);
  }

  /** The migration is marked, and its body, if any, has run; `pending` is the database before. */
  ghost predicate Marked(p: Planning, base: Db, front: seq<Record>, v: View, c: nat, n: nat, stage: Stage) {
    var ms := p.migs(v.call.cmd, base.version);
    && Going(v, c) && !v.call.cmd.Force? && n < |ms| && v.call.pr == Progress(n, stage)
    && v.db == InStage(CompleteFirst(base, ms, n), ms[n], stage)
    && |v.history| == |front| + 1 && v.history[..|front|] == front
  }

  lemma Mark(p: Planning, base: Db, front: seq<Record>, v: View, c: nat, w0: View, n: nat, m: Migration) returns (w: View)
    requires Leads(p, v, c, w0) && Accepted(p, base, front, w0, c, n, m)
    ensures Leads(p, v, c, w) && Marked(p, base, front, w, c, n, Dirtied)
    ensures w.call.pc == (if m.body.Some? then ExecBody(m) else WriteClean(m))
    ensures w.call.cmd == w0.call.cmd && w.call.pipe == w0.call.pipe
  {
    w := ThenMigrate(p, v, c, w0, SetDirty(false));
  }

  /** Up to the point where only the clean mark is missing. */
  lemma RunToClean(p: Planning, base: Db, front: seq<Record>, v: View, c: nat, w0: View, n: nat, m: Migration) returns (w: View)
    requires Leads(p, v, c, w0) && Accepted(p, base, front, w0, c, n, m)
    ensures Leads(p, v, c, w) && w.call.pc == WriteClean(m)
    ensures Marked(p, base, front, w, c, n, if m.body.Some? then BodyRun(true) else Dirtied)
    ensures w.call.cmd == w0.call.cmd && w.call.pipe == w0.call.pipe
  {
    w := Mark(p, base, front, v, c, w0, n, m);
    if m.body.Some? { w := ThenMigrate(p, v, c, w, RunMigration(false)); }
  }

  /** A migration is received and completed. */
  lemma CompleteItem(p: Planning, base: Db, front: seq<Record>, v: View, c: nat, w0: View, j: nat) returns (w: View)
    requires PlanAgrees(p, w0.call.cmd, base.version) && Leads(p, v, c, w0) && Midway(p, base, front, w0, c, j)
    requires j < |p.script(w0.call.cmd, base.version)|
    requires p.script(w0.call.cmd, base.version)[j].Send? && p.script(w0.call.cmd, base.version)[j].item.Migr?
    ensures Leads(p, v, c, w) && Midway(p, base, front, w, c, j + 1) && w.call.cmd == w0.call.cmd
  {
    var script := p.script(w0.call.cmd, base.version);
    var n := |SendsOfFirst(script, j)|;
    NextItem(p, w0.call.cmd, base.version, j);
    w := HandOver(p, base, front, v, c, w0, j);
    w := Accept(p, base, front, v, c, w, n, script[j].item.migration);
    w := RunToClean(p, base, front, v, c, w, n, script[j].item.migration);
    w := CleanItem(p, base, front, v, c, w, j);
  }

  lemma CleanItem(p: Planning, base: Db, front: seq<Record>, v: View, c: nat, w0: View, j: nat) returns (w: View)
    requires j < |p.script(w0.call.cmd, base.version)| && NoErrors(p.script(w0.call.cmd, base.version), j + 1)
    requires var script, ms := p.script(w0.call.cmd, base.version), p.migs(w0.call.cmd, base.version);
             var n := |SendsOfFirst(script, j)|;
             && n < |ms| && script[j] == Send(Migr(ms[n]))
             && Leads(p, v, c, w0) && w0.call.pc == WriteClean(ms[n])
             && Marked(p, base, front, w0, c, n, if ms[n].body.Some? then BodyRun(true) else Dirtied)
             && w0.call.pipe == Pipe(p.plan(w0.call.cmd, base.version), script,
                                     Reader(script[j + 1..], Asking, Whole, false), [], SendsOfFirst(script, j + 1))
    ensures Leads(p, v, c, w) && Midway(p, base, front, w, c, j + 1) && w.call.cmd == w0.call.cmd
  {
    w := ThenMigrate(p, v, c, w0, SetClean(false));
  }

  /** From the start of the script to any point before its error. */
  lemma {:induction false} WorkTo(p: Planning, base: Db, front: seq<Record>, v: View, c: nat, w0: View, j: nat) returns (w: View)
    requires PlanAgrees(p, w0.call.cmd, base.version) && Leads(p, v, c, w0) && Midway(p, base, front, w0, c, 0)
    requires j <= |p.script(w0.call.cmd, base.version)| && NoErrors(p.script(w0.call.cmd, base.version), j)
    ensures Leads(p, v, c, w) && Midway(p, base, front, w, c, j) && w.call.cmd == w0.call.cmd
  {
    if j == 0 {
      w := w0;
    } else {
      w := WorkTo(p, base, front, v, c, w0, j - 1);
      if p.script(w0.call.cmd, base.version)[j - 1].Send? {
        w := CompleteItem(p, base, front, v, c, w, j - 1);
      } else {
        w := SkipSilentOp(p, base, front, v, c, w, j - 1);
      }
    }
  }

  // ----- every way to end ------------------------------------------------------------------------

  /** The records so far, with the one of this call. */
  function RecordOf(v: View, c: nat, exit: Exit): Record {
    Record(c, v.call.cmd, v.call.pr, false, exit)
  }

  lemma EndDrained(p: Planning, base: Db, front: seq<Record>, v: View, c: nat, w0: View) returns (w: View)
    requires Leads(p, v, c, w0) && Midway(p, base, front, w0, c, |p.script(w0.call.cmd, base.version)|)
    ensures Leads(p, v, c, w) && Leaving(p, base, front, w, c, RecordOf(w0, c, Drained(false)), false)
  {
    var closed := ThenRead(p, v, c, w0, ReaderClose);
    w := ThenReceive(p, v, c, closed, SeeClosed);
  }

  /** A signal arrives just before the reader polls. */
  lemma StopReader(p: Planning, v: View, c: nat, w0: View) returns (w: View)
    requires Leads(p, v, c, w0) && Going(w0, c) && w0.call.pipe.reader.Reader?
    requires var r := w0.call.pipe.reader; |r.todo| > 0 && r.todo[0].Poll? && r.poll.Asking? && !r.closed
    ensures Leads(p, v, c, w)
    ensures w == w0.(inst := Instance(None, true, true, true, false),
                     call := w0.call.(pipe := w0.call.pipe.(reader := Reader([], Asking, StopCut, false))))
  {
    var x := w0.(inst := w0.inst.(signal := true));
    ThenMove(p, v, c, w0, Sig, x);
    x := ThenRead(p, v, c, x, ReaderPoll);
    x := ThenRead(p, v, c, x, ReaderPoll);
    w := ThenRead(p, v, c, x, ReaderPoll);
  }

  lemma EndStopCut(p: Planning, base: Db, front: seq<Record>, v: View, c: nat, w0: View, j: nat) returns (w: View)
    requires Leads(p, v, c, w0) && Midway(p, base, front, w0, c, j)
    requires j < |p.script(w0.call.cmd, base.version)| && p.script(w0.call.cmd, base.version)[j].Poll?
    ensures Leads(p, v, c, w) && Leaving(p, base, front, w, c, RecordOf(w0, c, Drained(true)), true)
  {
    assert p.script(w0.call.cmd, base.version)[j..][0].Poll?;
    var x := StopReader(p, v, c, w0);
    x := ThenRead(p, v, c, x, ReaderClose);
    w := ThenReceive(p, v, c, x, SeeClosed);
  }

  lemma EndError(p: Planning, base: Db, front: seq<Record>, v: View, c: nat, w0: View, n: nat, e: Err) returns (w: View)
    requires Leads(p, v, c, w0) && Offered(p, base, front, w0, c, n, Fail(e))
    ensures Leads(p, v, c, w) && Leaving(p, base, front, w, c, RecordOf(w0, c, PlanError(e)), false)
  {
    w := ThenPoll(p, v, c, w0);
    w := ThenPoll(p, v, c, w);
  }

  /** A signal arrives just before the consumer polls. */
  lemma EndStopSeen(p: Planning, base: Db, front: seq<Record>, v: View, c: nat, w0: View, n: nat, item: Item) returns (w: View)
    requires Leads(p, v, c, w0) && Offered(p, base, front, w0, c, n, item)
    ensures Leads(p, v, c, w) && Leaving(p, base, front, w, c, RecordOf(w0, c, StopSeen), true)
  {
    var x := w0.(inst := w0.inst.(signal := true));
    ThenMove(p, v, c, w0, Sig, x);
    x := ThenPoll(p, v, c, x);
    x := ThenPoll(p, v, c, x);
    w := ThenPoll(p, v, c, x);
  }

  /** The driver fails at one of its three calls for the migration. */
  lemma EndDriver(p: Planning, base: Db, front: seq<Record>, v: View, c: nat, w0: View, n: nat, m: Migration, stage: Stage)
    returns (w: View)
    requires Leads(p, v, c, w0) && Accepted(p, base, front, w0, c, n, m)
    requires (stage.Dirtied? ==> m.body.None?) && (stage.BodyRun? ==> m.body.Some?)
    ensures Leads(p, v, c, w)
    ensures Leaving(p, base, front, w, c, Record(c, w0.call.cmd, Progress(n, stage), false, DriverError), false)
  {
    if stage.Untouched? {
      w := ThenMigrate(p, v, c, w0, SetDirty(true));
    } else if stage == BodyRun(false) {
      var x := Mark(p, base, front, v, c, w0, n, m);
      w := FailBody(p, base, front, v, c, x, n, m);
    } else {
      var x := RunToClean(p, base, front, v, c, w0, n, m);
      w := FailClean(p, base, front, v, c, x, n, m, stage);
    }
  }

  lemma FailBody(p: Planning, base: Db, front: seq<Record>, v: View, c: nat, w0: View, n: nat, m: Migration)
    returns (w: View)
    requires Leads(p, v, c, w0) && Marked(p, base, front, w0, c, n, Dirtied) && w0.call.pc == ExecBody(m)
    requires m == p.migs(w0.call.cmd, base.version)[n] && m.body.Some?
    ensures Leads(p, v, c, w)
    ensures Leaving(p, base, front, w, c, Record(c, w0.call.cmd, Progress(n, BodyRun(false)), false, DriverError), false)
  {
    w := ThenMigrate(p, v, c, w0, RunMigration(true));
  }

  lemma FailClean(p: Planning, base: Db, front: seq<Record>, v: View, c: nat, w0: View, n: nat, m: Migration, stage: Stage)
    returns (w: View)
    requires Leads(p, v, c, w0) && Marked(p, base, front, w0, c, n, stage) && w0.call.pc == WriteClean(m)
    requires m == p.migs(w0.call.cmd, base.version)[n] && (stage.BodyRun? ==> m.body.Some?) && !stage.Untouched?
    ensures Leads(p, v, c, w)
    ensures Leaving(p, base, front, w, c, Record(c, w0.call.cmd, Progress(n, stage), false, DriverError), false)
  {
    w := ThenMigrate(p, v, c, w0, SetClean(true));
  }

  /** The n-th item of a script. */
  lemma {:induction false} SendIndex(script: seq<Op>, n: nat, k: nat) returns (j: nat)
    requires k <= |script| && n < |SendsOfFirst(script, k)|
    ensures j < k && script[j].Send? && |SendsOfFirst(script, j)| == n
  {
    if script[k - 1].Send? && n == |SendsOfFirst(script, k - 1)| {
      j := k - 1;
    } else {
      j := SendIndex(script, n, k - 1);
    }
  }

  /** A call that read a clean version can end in every legal way. */
  lemma WorkEnds(p: Planning, base: Db, front: seq<Record>, v: View, c: nat, w0: View, rec: Record) returns (w: View)
    requires PlanAgrees(p, rec.cmd, base.version) && Leads(p, v, c, w0) && Midway(p, base, front, w0, c, 0)
    requires rec == Record(c, w0.call.cmd, rec.pr, false, rec.exit) && !rec.exit.Working?
    requires ValidProgress(p.migs(rec.cmd, base.version), rec.pr)
    requires Ending(p.script(rec.cmd, base.version), p.plan(rec.cmd, base.version), p.migs(rec.cmd, base.version),
                    rec.pr, rec.exit)
    ensures Leads(p, v, c, w) && Leaving(p, base, front, w, c, rec, StopExit(rec.exit))
  {
    match rec.exit
    case Drained(cut) =>
      if cut { w := ToStopCut(p, base, front, v, c, w0, rec); } else { w := ToDrained(p, base, front, v, c, w0, rec); }
    case PlanError(e) => w := ToError(p, base, front, v, c, w0, rec, e);
    case StopSeen => w := ToStopSeen(p, base, front, v, c, w0, rec);
    case DriverError => w := ToDriver(p, base, front, v, c, w0, rec);
  }

  lemma ToDrained(p: Planning, base: Db, front: seq<Record>, v: View, c: nat, w0: View, rec: Record) returns (w: View)
    requires PlanAgrees(p, rec.cmd, base.version) && Leads(p, v, c, w0) && Midway(p, base, front, w0, c, 0)
    requires rec == Record(c, w0.call.cmd, rec.pr, false, Drained(false)) && rec.pr.stage.Untouched?
    requires rec.pr.done == |p.migs(rec.cmd, base.version)| == |p.plan(rec.cmd, base.version)|
    ensures Leads(p, v, c, w) && Leaving(p, base, front, w, c, rec, StopExit(rec.exit))
  {
    var script := p.script(rec.cmd, base.version);
    WholeScript(script);
    w := WorkTo(p, base, front, v, c, w0, |script|);
    w := EndDrained(p, base, front, v, c, w);
  }

  /** A script that sends only migrations has no error in it. */
  lemma WholeScript(script: seq<Op>)
    requires ErrorLast(script) && WellFormedPlan(Sends(script)) && |Migs(Sends(script))| == |Sends(script)|
    ensures NoErrors(script, |script|)
  {
    var n := |script|;
    if n > 0 && script[n - 1].Send? { assert Sends(script)[|Sends(script)| - 1] == script[n - 1].item; }
  }

  lemma ToStopCut(p: Planning, base: Db, front: seq<Record>, v: View, c: nat, w0: View, rec: Record) returns (w: View)
    requires PlanAgrees(p, rec.cmd, base.version) && Leads(p, v, c, w0) && Midway(p, base, front, w0, c, 0)
    requires rec == Record(c, w0.call.cmd, rec.pr, false, Drained(true)) && rec.pr.stage.Untouched?
    requires StopPoint(p.script(rec.cmd, base.version), rec.pr.done)
    ensures Leads(p, v, c, w) && Leaving(p, base, front, w, c, rec, StopExit(rec.exit))
  {
    var script := p.script(rec.cmd, base.version);
    var j :| 0 <= j < |script| && script[j].Poll? && |SendsOfFirst(script, j)| == rec.pr.done;
    w := WorkTo(p, base, front, v, c, w0, j);
    w := EndStopCut(p, base, front, v, c, w, j);
  }

  /** The error of a source that fails after n items reaches the consumer. */
  lemma ToFault(p: Planning, base: Db, front: seq<Record>, v: View, c: nat, w0: View, n: nat) returns (w: View)
    requires PlanAgrees(p, w0.call.cmd, base.version) && Leads(p, v, c, w0) && Midway(p, base, front, w0, c, 0)
    requires FaultPoint(p.script(w0.call.cmd, base.version), n)
    ensures Leads(p, v, c, w) && Offered(p, base, front, w, c, n, Fail(SourceFault)) && w.call.cmd == w0.call.cmd
  {
    var script := p.script(w0.call.cmd, base.version);
    var j :| 0 <= j < |script| && script[j].Look? && |SendsOfFirst(script, j)| == n;
    w := WorkTo(p, base, front, v, c, w0, j);
    w := HandOverFault(p, base, front, v, c, w, j);
  }

  /** The n-th item of the plan reaches the consumer. */
  lemma ToItem(p: Planning, base: Db, front: seq<Record>, v: View, c: nat, w0: View, n: nat) returns (w: View)
    requires PlanAgrees(p, w0.call.cmd, base.version) && Leads(p, v, c, w0) && Midway(p, base, front, w0, c, 0)
    requires n < |p.plan(w0.call.cmd, base.version)|
    ensures Leads(p, v, c, w) && w.call.cmd == w0.call.cmd
    ensures Offered(p, base, front, w, c, n, p.plan(w0.call.cmd, base.version)[n])
  {
    var script := p.script(w0.call.cmd, base.version);
    var j := SendIndex(script, n, |script|);
    NextItem(p, w0.call.cmd, base.version, j);
    w := WorkTo(p, base, front, v, c, w0, j);
    w := HandOver(p, base, front, v, c, w, j);
  }

  lemma ToError(p: Planning, base: Db, front: seq<Record>, v: View, c: nat, w0: View, rec: Record, e: Err) returns (w: View)
    requires PlanAgrees(p, rec.cmd, base.version) && Leads(p, v, c, w0) && Midway(p, base, front, w0, c, 0)
    requires rec == Record(c, w0.call.cmd, rec.pr, false, PlanError(e)) && rec.pr.stage.Untouched?
    requires || (e == SourceFault && FaultPoint(p.script(rec.cmd, base.version), rec.pr.done))
             || (&& rec.pr.done < |p.plan(rec.cmd, base.version)|
                 && p.plan(rec.cmd, base.version)[rec.pr.done] == Fail(e))
    ensures Leads(p, v, c, w) && Leaving(p, base, front, w, c, rec, StopExit(rec.exit))
  {
    if e == SourceFault && FaultPoint(p.script(rec.cmd, base.version), rec.pr.done) {
      w := ToFault(p, base, front, v, c, w0, rec.pr.done);
    } else {
      w := ToItem(p, base, front, v, c, w0, rec.pr.done);
    }
    w := EndError(p, base, front, v, c, w, rec.pr.done, e);
  }

  lemma ToStopSeen(p: Planning, base: Db, front: seq<Record>, v: View, c: nat, w0: View, rec: Record) returns (w: View)
    requires PlanAgrees(p, rec.cmd, base.version) && Leads(p, v, c, w0) && Midway(p, base, front, w0, c, 0)
    requires rec == Record(c, w0.call.cmd, rec.pr, false, StopSeen) && rec.pr.stage.Untouched?
    requires rec.pr.done < |p.plan(rec.cmd, base.version)| || FaultPoint(p.script(rec.cmd, base.version), rec.pr.done)
    ensures Leads(p, v, c, w) && Leaving(p, base, front, w, c, rec, StopExit(rec.exit))
  {
    if rec.pr.done < |p.plan(rec.cmd, base.version)| {
      w := ToItem(p, base, front, v, c, w0, rec.pr.done);
      w := EndStopSeen(p, base, front, v, c, w, rec.pr.done, p.plan(rec.cmd, base.version)[rec.pr.done]);
    } else {
      w := ToFault(p, base, front, v, c, w0, rec.pr.done);
      w := EndStopSeen(p, base, front, v, c, w, rec.pr.done, Fail(SourceFault));
    }
  }

  lemma ToDriver(p: Planning, base: Db, front: seq<Record>, v: View, c: nat, w0: View, rec: Record) returns (w: View)
    requires PlanAgrees(p, rec.cmd, base.version) && Leads(p, v, c, w0) && Midway(p, base, front, w0, c, 0)
    requires rec == Record(c, w0.call.cmd, rec.pr, false, DriverError)
    requires var ms := p.migs(rec.cmd, base.version);
             ValidProgress(ms, rec.pr) && rec.pr.done < |ms| && (rec.pr.stage.Dirtied? ==> ms[rec.pr.done].body.None?)
    ensures Leads(p, v, c, w) && Leaving(p, base, front, w, c, rec, StopExit(rec.exit))
  {
    var n, m := rec.pr.done, p.migs(rec.cmd, base.version)[rec.pr.done];
    assert p.plan(rec.cmd, base.version)[n] == Migr(m);
    w := ToItem(p, base, front, v, c, w0, n);
    w := Accept(p, base, front, v, c, w, n, m);
    w := EndDriver(p, base, front, v, c, w, n, m, rec.pr.stage);
  }

  /** A call that does not get as far as reading a clean version: refused, or a Force. */
  lemma OpensAndLeaves(p: Planning, v: View, c: nat, w0: View, front: seq<Record>, rec: Record) returns (w: View)
    requires Leads(p, v, c, w0) && Holding(w0, c) && |w0.history| == |front| + 1 && w0.history[..|front|] == front
    requires w0.call.pr == NO_PROGRESS && w0.call.cmd == rec.cmd && rec.call == c && !rec.exit.Working?
    requires w0.call.pc == (if rec.cmd.Force? then ForceWrite else VersionRead)
    requires ValidRecord(p, w0.db, rec) && (rec.cmd.Force? || rec.exit.Refused?)
    ensures Leads(p, v, c, w) && Leaving(p, w0.db, front, w, c, rec, w0.inst.stopFlag)
  {
    if rec.cmd.Force? {
      w := ThenOpen(p, v, c, w0, WriteForce(!rec.forced));
    } else {
      w := ThenOpen(p, v, c, w0, ReadVersion(rec.exit.err == DriverFault));
    }
  }

  /** Every legal outcome of a call is the outcome of a run of that call alone. */
  lemma OutcomeRealised(p: Planning, v: View, c: nat, rec: Record) returns (w: View)
    requires PlanningOk(p) && Fresh(v) && !v.inst.stopFlag && rec.call == c && rec.cmd == v.call.cmd
    requires ValidRecord(p, v.db, rec) && !rec.exit.Working?
    ensures Leads(p, v, c, w) && Left(p, v.db, v.history, w, rec, StopExit(rec.exit))
  {
    var in' := Enter(p, v, c);
    assert in'.history[..|v.history|] == v.history;
    var out;
    if rec.cmd.Force? || rec.exit.Refused? {
      out := OpensAndLeaves(p, v, c, in', v.history, rec);
    } else {
      assert PlanAgrees(p, rec.cmd, v.db.version);
      var start := Open(p, v, c, in', v.history);
      out := WorkEnds(p, v.db, v.history, v, c, start, rec);
    }
    w := Exit(p, v.db, v.history, v, c, out, rec, StopExit(rec.exit));
  }

  // ----- with the stop flag set from the start ---------------------------------------------------

  /** The reader has done the first j operations of its script, all of them looks. */
  ghost predicate FlaggedMid(p: Planning, base: Db, front: seq<Record>, v: View, c: nat, j: nat) {
    var script := p.script(v.call.cmd, base.version);
    && j <= |script| && NoPolls(script, j) && SendsOfFirst(script, j) == []
    && Holding(v, c) && v.inst.stopFlag && v.call.pc.Receive? && !v.call.cmd.Force?
    && v.call.pipe == Pipe(p.plan(v.call.cmd, base.version), script, Reader(script[j..], Asking, Whole, false), [], [])
    && v.call.pr == NO_PROGRESS && v.db == base
    && |v.history| == |front| + 1 && v.history[..|front|] == front
  }

  lemma FlaggedOpen(p: Planning, v: View, c: nat, w0: View, front: seq<Record>) returns (w: View)
    requires Leads(p, v, c, w0) && Holding(w0, c) && w0.inst.stopFlag && w0.call.pc.VersionRead?
    requires w0.call.pr == NO_PROGRESS && !w0.db.dirty && !w0.call.cmd.Force?
    requires |w0.history| == |front| + 1 && w0.history[..|front|] == front
    ensures Leads(p, v, c, w) && FlaggedMid(p, w0.db, front, w, c, 0) && w.call.cmd == w0.call.cmd
  {
    w := ThenOpen(p, v, c, w0, ReadVersion(false));
    var script := p.script(w.call.cmd, w0.db.version);
    assert script[0..] == script;
  }

  lemma {:induction false} FlaggedTo(p: Planning, base: Db, front: seq<Record>, v: View, c: nat, w0: View, j: nat)
    returns (w: View)
    requires Leads(p, v, c, w0) && FlaggedMid(p, base, front, w0, c, 0)
    requires var script := p.script(w0.call.cmd, base.version);
             j <= |script| && NoPolls(script, j) && SendsOfFirst(script, j) == []
    ensures Leads(p, v, c, w) && FlaggedMid(p, base, front, w, c, j) && w.call.cmd == w0.call.cmd
  {
    if j == 0 {
      w := w0;
    } else {
      var script := p.script(w0.call.cmd, base.version);
      w := FlaggedTo(p, base, front, v, c, w0, j - 1);
      assert script[j - 1..][0] == script[j - 1] && script[j - 1..][1..] == script[j..];
      w := ThenRead(p, v, c, w, ReaderLook);
    }
  }

  /** The reader finds the flag set at its first poll. */
  lemma FlaggedStopCut(p: Planning, base: Db, front: seq<Record>, v: View, c: nat, w0: View, j: nat) returns (w: View)
    requires Leads(p, v, c, w0) && FlaggedMid(p, base, front, w0, c, j)
    requires j < |p.script(w0.call.cmd, base.version)| && p.script(w0.call.cmd, base.version)[j].Poll?
    ensures Leads(p, v, c, w) && Leaving(p, base, front, w, c, RecordOf(w0, c, Drained(true)), true)
  {
    assert p.script(w0.call.cmd, base.version)[j..][0].Poll?;
    var x := ThenRead(p, v, c, w0, ReaderPoll);
    assert x == w0.(call := w0.call.(pipe := w0.call.pipe.(reader := Reader([], Asking, StopCut, false))));
    x := ThenRead(p, v, c, x, ReaderClose);
    w := ThenReceive(p, v, c, x, SeeClosed);
  }

  lemma FlaggedDrained(p: Planning, base: Db, front: seq<Record>, v: View, c: nat, w0: View) returns (w: View)
    requires Leads(p, v, c, w0) && FlaggedMid(p, base, front, w0, c, |p.script(w0.call.cmd, base.version)|)
    ensures Leads(p, v, c, w) && Leaving(p, base, front, w, c, RecordOf(w0, c, Drained(false)), true)
  {
    var x := ThenRead(p, v, c, w0, ReaderClose);
    w := ThenReceive(p, v, c, x, SeeClosed);
  }

  /** The consumer finds it set at its first item, the reader's or that of a failing source. */
  lemma FlaggedStopSeen(p: Planning, base: Db, front: seq<Record>, v: View, c: nat, w0: View) returns (w: View)
    requires Leads(p, v, c, w0) && FlaggedMid(p, base, front, w0, c, 0) && LatePoll(p.script(w0.call.cmd, base.version))
    ensures Leads(p, v, c, w) && Leaving(p, base, front, w, c, RecordOf(w0, c, StopSeen), true)
  {
    var script := p.script(w0.call.cmd, base.version);
    assert script[0..] == script;
    var x := w0;
    if script[0].Look? { x := ThenRead(p, v, c, w0, ReaderFault); }
    w := FlaggedHandOver(p, v, c, x, front);
  }

  lemma FlaggedHandOver(p: Planning, v: View, c: nat, w0: View, front: seq<Record>) returns (w: View)
    requires Leads(p, v, c, w0) && Holding(w0, c) && w0.inst.stopFlag && w0.call.pc.Receive? && !w0.call.cmd.Force?
    requires |w0.history| == |front| + 1 && w0.history[..|front|] == front && w0.call.pr == NO_PROGRESS
    requires var r := w0.call.pipe.reader;
             r.Reader? && !r.closed && |r.todo| > 0 && r.todo[0].Send? && w0.call.pipe.buf == []
    ensures Leads(p, v, c, w) && Leaving(p, w0.db, front, w, c, RecordOf(w0, c, StopSeen), true)
  {
    var x := ThenReceive(p, v, c, w0, Handoff);
    w := ThenPoll(p, v, c, x);
  }

  lemma FlaggedEnds(p: Planning, base: Db, front: seq<Record>, v: View, c: nat, w0: View, rec: Record) returns (w: View)
    requires Leads(p, v, c, w0) && FlaggedMid(p, base, front, w0, c, 0)
    requires rec == Record(c, w0.call.cmd, NO_PROGRESS, false, rec.exit) && !rec.exit.Working? && !rec.exit.Refused?
    requires FlaggedEnding(p.script(rec.cmd, base.version), rec.exit)
    ensures Leads(p, v, c, w) && Leaving(p, base, front, w, c, rec, true)
  {
    var script := p.script(rec.cmd, base.version);
    match rec.exit
    case Drained(cut) =>
      if cut {
        var j :| 0 <= j < |script| && script[j].Poll? && NoPolls(script, j) && SendsOfFirst(script, j) == [];
        w := FlaggedTo(p, base, front, v, c, w0, j);
        w := FlaggedStopCut(p, base, front, v, c, w, j);
      } else {
        w := FlaggedTo(p, base, front, v, c, w0, |script|);
        w := FlaggedDrained(p, base, front, v, c, w);
      }
    case StopSeen => w := FlaggedStopSeen(p, base, front, v, c, w0);
  }

  /** On an instance that was stopped before, every outcome left to the call is realised too. */
  lemma FlaggedRealised(p: Planning, v: View, c: nat, rec: Record) returns (w: View)
    requires PlanningOk(p) && Fresh(v) && v.inst.stopFlag && rec.call == c && rec.cmd == v.call.cmd
    requires ValidRecord(p, v.db, rec) && !rec.exit.Working? && Flagged(p, v.db, rec)
    ensures Leads(p, v, c, w) && Left(p, v.db, v.history, w, rec, true)
  {
    var in' := Enter(p, v, c);
    assert in'.history[..|v.history|] == v.history;
    var out;
    if rec.cmd.Force? || rec.exit.Refused? {
      out := OpensAndLeaves(p, v, c, in', v.history, rec);
    } else {
      var start := FlaggedOpen(p, v, c, in', v.history);
      out := FlaggedEnds(p, v.db, v.history, v, c, start, rec);
    }
    w := Exit(p, v.db, v.history, v, c, out, rec, true);
  }

  // ----- as runs of the whole system --------------------------------------------------------------

  function LiftMove(m: Move, c: nat, i: nat): Action {
    match m case Do(step) => Act(c, step) case Sig => Signal(i)
  }

  function LiftMoves(moves: seq<Move>, c: nat, i: nat): (actions: seq<Action>)
    ensures |actions| == |moves| && forall k :: 0 <= k < |moves| ==> actions[k] == LiftMove(moves[k], c, i)
  {
    seq(|moves|, k requires 0 <= k < |moves| => LiftMove(moves[k], c, i))
  }

  lemma MoveKeepsInst(p: Planning, v: View, c: nat, m: Move, w: View)
    requires ApplyMove(p, v, c, m) == Some(w)
    ensures w.call.inst == v.call.inst
  {
  }

  lemma MoveLifts(p: Planning, s: State, c: nat, v: View, m: Move, w: View)
    requires c in s.calls && s.calls[c].inst in s.insts && v.call.inst == s.calls[c].inst
    requires ApplyMove(p, v, c, m) == Some(w)
    ensures Apply(p, WriteBack(s, c, v), LiftMove(m, c, s.calls[c].inst)) == Some(WriteBack(s, c, w))
  {
    var t := WriteBack(s, c, v);
    assert ViewOf(t, c) == v;
    MoveKeepsInst(p, v, c, m, w);
    assert WriteBack(t, c, w) == WriteBack(s, c, w);
    if m.Sig? { assert t.(insts := t.insts[s.calls[c].inst := w.inst]) == WriteBack(s, c, w); }
  }

  lemma {:induction false} MovesLift(p: Planning, s: State, c: nat, moves: seq<Move>, n: nat)
    requires c in s.calls && s.calls[c].inst in s.insts && n <= |moves|
    requires RunMoves(Machine(p, c), ViewOf(s, c), moves, n).Some?
    ensures var w := RunMoves(Machine(p, c), ViewOf(s, c), moves, n).value;
            && w.call.inst == s.calls[c].inst
            && Run(p, s, LiftMoves(moves, c, s.calls[c].inst), n) == Some(WriteBack(s, c, w))
  {
    if n == 0 {
      assert WriteBack(s, c, ViewOf(s, c)) == s;
    } else {
      MovesLift(p, s, c, moves, n - 1);
      var v := RunMoves(Machine(p, c), ViewOf(s, c), moves, n - 1).value;
      var w := RunMoves(Machine(p, c), ViewOf(s, c), moves, n).value;
      MoveLifts(p, s, c, v, moves[n - 1], w);
      MoveKeepsInst(p, v, c, moves[n - 1], w);
    }
  }

  /** Only call c acts, and only its instance may get a stop signal. */
  predicate OnlyOf(actions: seq<Action>, c: nat, i: nat) {
    forall k :: 0 <= k < |actions| ==> if actions[k].Act? then actions[k].c == c else actions[k].i == i
  }

  /** From s to t, call c is made and returns, and no other call does anything. */
  ghost predicate RunsAlone(p: Planning, s: State, c: nat, t: State) {
    && c in s.calls && c in t.calls && s.calls[c].pc.Start? && t.calls[c].pc.Done?
    && exists actions :: OnlyOf(actions, c, s.calls[c].inst) && Run(p, s, actions, |actions|) == Some(t)
  }

  lemma LeadsReach(p: Planning, s: State, c: nat, w: View)
    requires c in s.calls && s.calls[c].inst in s.insts && Leads(p, ViewOf(s, c), c, w)
    ensures CanReach(p, s, WriteBack(s, c, w)) && w.call.inst == s.calls[c].inst
  {
    var moves :| RunIs(Machine(p, c), ViewOf(s, c), moves, w);
    MovesLift(p, s, c, moves, |moves|);
    assert RunsTo(p, s, LiftMoves(moves, c, s.calls[c].inst), WriteBack(s, c, w));
  }

  lemma LeadsAlone(p: Planning, s: State, c: nat, w: View)
    requires c in s.calls && s.calls[c].inst in s.insts && s.calls[c].pc.Start? && w.call.pc.Done?
    requires Leads(p, ViewOf(s, c), c, w)
    ensures RunsAlone(p, s, c, WriteBack(s, c, w)) && w.call.inst == s.calls[c].inst
  {
    var moves :| RunIs(Machine(p, c), ViewOf(s, c), moves, w);
    MovesLift(p, s, c, moves, |moves|);
    var actions := LiftMoves(moves, c, s.calls[c].inst);
    assert OnlyOf(actions, c, s.calls[c].inst);
  }
}

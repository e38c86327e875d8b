/** The calls of migrate.go as sequential code: runMigrations over the items of a planner,
    and a whole call from reading the register to its error. What the driver, the source and the
    stop signal answer is given, so that every error and every stop has its reason. */
module Calls {
  import opened Types
  import opened VersionIndex
  import opened Planner
  import opened Engine
  import opened Positions

  /** A driver whose k-th call fails if `fails(k)`; a failed SetVersion leaves the register alone. */
  class Database {
    const fails: nat -> bool
    var calls: nat
    var version: int
    var dirty: bool
    var journal: seq<Event>

    ghost function Value(): Db
      reads this
    {
      Db(version, dirty, journal)
    }

    constructor (fails: nat -> bool)
      ensures Value() == Db(NIL_VERSION, false, []) && this.fails == fails && calls == 0
    {
      this.fails, calls := fails, 0;
      version, dirty, journal := NIL_VERSION, false, [];
    }

    method Version() returns (r: Option<(int, bool)>)
      modifies this`calls
      ensures calls == old(calls) + 1
      ensures r == if fails(old(calls)) then None else Some((version, dirty))
    {
      calls := calls + 1;
      if fails(calls - 1) { return None; }
      return Some((version, dirty));
    }

    method SetVersion(v: int, d: bool, event: Event) returns (err: Option<Err>)
      modifies this
      ensures calls == old(calls) + 1
      ensures err == if fails(old(calls)) then Some(DriverFault) else None
      ensures Value() == if err.None? then Db(v, d, old(journal) + [event]) else old(Value())
    {
      calls := calls + 1;
      if fails(calls - 1) { return Some(DriverFault); }
      version, dirty, journal := v, d, journal + [event];
      return None;
    }

    method Run(m: Migration) returns (err: Option<Err>)
      modifies this
      ensures calls == old(calls) + 1
      ensures err == if fails(old(calls)) then Some(DriverFault) else None
      ensures Value() == RunBody(old(Value()), m, err.None?)
    {
      calls := calls + 1;
      journal := journal + [RanBody(m, !fails(calls - 1))];
      err := if fails(calls - 1) then Some(DriverFault) else None;
    }
  }

  /** Of the driver calls from a up to b the last one failed, or none did. */
  ghost predicate DriverCalls(fails: nat -> bool, a: nat, b: nat, failed: bool) {
    && a <= b && (failed ==> a < b && fails(b - 1))
    && forall k: nat :: a <= k < (if failed then b - 1 else b) ==> !fails(k)
  }

  /** How runMigrations may end on a list of items, and what it then returns. */
  ghost predicate Consumed(items: seq<Item>, stops: nat -> bool, pr: Progress, exit: Exit, err: Option<Err>)
    requires WellFormedPlan(items)
  {
    var ms := Migs(items);
    && ValidProgress(ms, pr)
    && (forall k: nat :: k < pr.done ==> !stops(k))
    && match exit
       case Drained(cut) => !cut && err.None? && pr.stage.Untouched? && pr.done == |ms| == |items|
       case PlanError(e) =>
         err == Some(e) && pr.stage.Untouched? && pr.done == |ms| && |items| == |ms| + 1
         && items[|ms|] == Fail(e) && !stops(|ms|)
       case StopSeen => err.None? && pr.stage.Untouched? && pr.done < |items| && stops(pr.done)
       case DriverError =>
         && err == Some(DriverFault) && pr.done < |ms| && !stops(pr.done)
         && (pr.stage.Dirtied? ==> ms[pr.done].body.None?)
       case _ => false
  }

  /** One migration: mark it, run its body if it has one, clear the mark. */
  method RunOne(db: Database, m: Migration) returns (err: Option<Err>, stage: Stage)
    modifies db
    ensures err == None || err == Some(DriverFault)
    ensures db.Value() == if err.None? then Complete(old(db.Value()), m) else InStage(old(db.Value()), m, stage)
    ensures err.Some? ==> if m.body.Some? then !stage.Dirtied? else !stage.BodyRun?
    ensures DriverCalls(db.fails, old(db.calls), db.calls, err.Some?)
  {
    err := db.SetVersion(m.target, true, MarkDirty(m));
    if err.Some? { return err, Untouched; }
    if m.body.Some? {
      err := db.Run(m);
      if err.Some? { return err, BodyRun(false); }
    }
    err := db.SetVersion(m.target, false, MarkClean(m));
    return err, if m.body.Some? then BodyRun(true) else Dirtied;
  }

  method RunMigrations(db: Database, items: seq<Item>, stops: nat -> bool)
    returns (err: Option<Err>, pr: Progress, exit: Exit)
    requires WellFormedPlan(items)
    modifies db
    ensures Consumed(items, stops, pr, exit, err)
    ensures db.Value() == Effect(old(db.Value()), Migs(items), pr)
    ensures DriverCalls(db.fails, old(db.calls), db.calls, exit.DriverError?)
  {
    ghost var ms := Migs(items);
    var i := 0;
    while i < |items|
      invariant 0 <= i <= |ms|
      invariant db.Value() == CompleteFirst(old(db.Value()), ms, i)
      invariant forall k: nat :: k < i ==> !stops(k)
      invariant DriverCalls(db.fails, old(db.calls), db.calls, false)
    {
      if stops(i) { return None, Progress(i, Untouched), StopSeen; }
      if items[i].Fail? { return Some(items[i].err), Progress(i, Untouched), PlanError(items[i].err); }
      assert ms[i] == items[i].migration;
      var stage;
      err, stage := RunOne(db, items[i].migration);
      if err.Some? { return err, Progress(i, stage), DriverError; }
      i := i + 1;
    }
    return None, Progress(i, Untouched), Drained(false);
  }

  /** The planner goroutine of a command, started at the version just read. */
  method Plan(src: Source, cmd: Cmd, version: int, bad: nat -> bool) returns (ops: seq<Op>)
    requires src.Valid() && Indexes(src.index, src.store) && version >= NIL_VERSION
    requires !cmd.Force? && EarlyError(cmd).None?
    ensures Runs(ScriptFor(src, cmd, version), bad, ops)
  {
    match cmd
    case Goto(v) => ops := Read(src, version, ToInt(v), bad);
    case Steps(n) =>
      if n > 0 { ops := ReadUp(src, version, n, bad); }
      else { ops := ReadDown(src, version, Negate(n), bad); }
    case UpAll => ops := ReadUp(src, version, -1, bad);
    case DownAll => ops := ReadDown(src, version, -1, bad);
    case RunGiven(ms) => ops := SendGiven(ms, bad);
  }

  /** Run's goroutine sends the given migrations; it neither polls nor looks at the source. */
  method SendGiven(ms: seq<Migration>, ghost bad: nat -> bool) returns (ops: seq<Op>)
    ensures Runs(SendEach(ms), bad, ops)
  {
    ops := [];
    for i := 0 to |ms|
      invariant ops == SendEach(ms)[..i]
    {
      ops := ops + [Send(Migr(ms[i]))];
    }
    assert SendEach(ms)[..|ms|] == SendEach(ms);
  }

  /** What a planner sent that was stopped, failed, or went to its end. */
  lemma CutPlan(script: seq<Op>, bad: nat -> bool, ops: seq<Op>)
    requires ErrorLast(script) && Runs(script, bad, ops)
    ensures WellFormedPlan(Sends(script)) && WellFormedPlan(Sends(ops))
    ensures Migs(Sends(ops)) <= Migs(Sends(script))
    ensures || Sends(ops) == Sends(script)
            || (Sends(ops) <= Sends(script) && StopPoint(script, |Sends(ops)|))
            || (&& |Sends(ops)| == |Migs(Sends(ops))| + 1 && Sends(ops)[|Sends(ops)| - 1] == Fail(SourceFault)
                && FaultPoint(script, |Sends(ops)| - 1) && |Sends(ops)| - 1 <= |Migs(Sends(script))|)
  {
    var n := |ops|;
    if ops == script {
      ErrorLastPlan(script);
    } else if ops <= script {
      PrefixSends(script, ops);
      PrefixSends(script, ops[..n - 1]);
      assert script[n - 1].Poll?;
      assert ops == ops[..n - 1] + [Poll];
      SendsConcat(ops[..n - 1], [Poll]);
      OneOp(Poll);
    } else {
      FaultySends(script, ops);
    }
  }

  lemma FaultySends(script: seq<Op>, ops: seq<Op>)
    requires ErrorLast(script) && |ops| > 1 && ops[..|ops| - 1] <= script
    requires ops[|ops| - 2].Look? && ops[|ops| - 1] == Send(Fail(SourceFault))
    ensures WellFormedPlan(Sends(script)) && WellFormedPlan(Sends(ops))
    ensures Migs(Sends(ops)) <= Migs(Sends(script))
    ensures |Sends(ops)| == |Migs(Sends(ops))| + 1 && Sends(ops)[|Sends(ops)| - 1] == Fail(SourceFault)
    ensures FaultPoint(script, |Sends(ops)| - 1)
  {
    var n := |ops| - 2;
    assert ops[..n + 1][n] == ops[n] && script[n].Look?;
    assert ops == ops[..n] + [Look, Send(Fail(SourceFault))] && ops[..n] <= script;
    SentBeforeFault(ops[..n]);
    PrefixSends(script, ops[..n]);
    SendsMigrations(script, n);
    PlanThenFault(Sends(script), Sends(ops[..n]), Sends(ops));
  }

  lemma SentBeforeFault(front: seq<Op>)
    ensures Sends(front + [Look, Send(Fail(SourceFault))]) == Sends(front) + [Fail(SourceFault)]
  {
    SendsConcat(front, [Look, Send(Fail(SourceFault))]);
    SendsConcat([Look], [Send(Fail(SourceFault))]);
    assert [Look] + [Send(Fail(SourceFault))] == [Look, Send(Fail(SourceFault))];
    OneOp(Look);
    OneOp(Send(Fail(SourceFault)));
  }

  /** Some migrations of a plan, and then an error. */
  lemma PlanThenFault(plan: seq<Item>, sent: seq<Item>, items: seq<Item>)
    requires WellFormedPlan(plan) && sent <= plan && items == sent + [Fail(SourceFault)]
    requires forall i :: 0 <= i < |sent| ==> sent[i].Migr?
    ensures WellFormedPlan(items) && Migs(items) <= Migs(plan) && |items| == |Migs(items)| + 1
  {
  }

  /** Progress through a prefix of the migrations is progress through all of them. */
  lemma {:induction false} PrefixProgress(db: Db, ms: seq<Migration>, all: seq<Migration>, n: nat)
    requires ms <= all && n <= |ms|
    ensures CompleteFirst(db, ms, n) == CompleteFirst(db, all, n)
  {
    if n > 0 { PrefixProgress(db, ms, all, n - 1); }
  }

  /** A consumer's outcome on what a planner sent is a legal ending of the call. */
  lemma OutcomeEnds(script: seq<Op>, bad: nat -> bool, ops: seq<Op>, cstops: nat -> bool,
                    pr: Progress, exit: Exit, err: Option<Err>)
    requires ErrorLast(script) && Runs(script, bad, ops)
    requires WellFormedPlan(Sends(ops)) && Consumed(Sends(ops), cstops, pr, exit, err)
    ensures WellFormedPlan(Sends(script)) && ValidProgress(Migs(Sends(script)), pr)
    ensures Ending(script, Sends(script), Migs(Sends(script)), pr,
                   if exit.Drained? then Drained(Sends(ops) != Sends(script)) else exit)
  {
    CutPlan(script, bad, ops);
  }

  lemma OutcomeIsRecord(p: Planning, db: Db, cmd: Cmd, ops: seq<Op>, bad: nat -> bool,
                        cstops: nat -> bool, pr: Progress, exit: Exit, err: Option<Err>, id: nat)
    requires PlanAgrees(p, cmd, db.version) && !db.dirty && !cmd.Force? && EarlyError(cmd).None?
    requires Runs(p.script(cmd, db.version), bad, ops)
    requires WellFormedPlan(Sends(ops)) && Consumed(Sends(ops), cstops, pr, exit, err)
    ensures var rec := Record(id, cmd, pr, false,
                              if exit.Drained? then Drained(Sends(ops) != p.plan(cmd, db.version)) else exit);
            && ValidRecord(p, db, rec) && ErrOf(rec) == err
            && RecordEffect(p, db, rec) == Effect(db, Migs(Sends(ops)), pr)
  {
    CutPlan(p.script(cmd, db.version), bad, ops);
    OutcomeEnds(p.script(cmd, db.version), bad, ops, cstops, pr, exit, err);
    PrefixProgress(db, Migs(Sends(ops)), p.migs(cmd, db.version), pr.done);
  }

  /** The consumer's part: it stopped where it was told to, and was not told so before. */
  ghost predicate ConsumerEnd(cstops: nat -> bool, pr: Progress, exit: Exit) {
    && (forall k: nat :: k < pr.done ==> !cstops(k))
    && (exit.StopSeen? ==> cstops(pr.done))
    && (exit.PlanError? || exit.DriverError? ==> !cstops(pr.done))
  }

  /** The reader's part: a cut plan and a source error come from its first bad answer, a poll told
      to stop or a look that failed; a whole plan and its own error mean that there was none. */
  ghost predicate ReaderEnd(script: seq<Op>, bad: nat -> bool, pr: Progress, exit: Exit) {
    var n := Reached(script, bad, 0);
    && (exit == Drained(true) ==>
          n < |script| && script[n].Poll? && bad(n) && |SendsOfFirst(script, n)| == pr.done)
    && (exit == PlanError(SourceFault) ==>
          n < |script| && script[n].Look? && bad(n) && |SendsOfFirst(script, n)| == pr.done)
    && (exit == Drained(false) || (exit.PlanError? && exit.err != SourceFault) ==>
          n >= |script| || (script[n].Poll? && bad(n) && |SendsOfFirst(script, n)| == |Sends(script)|))
  }

  lemma {:induction false} ReachedIsBad(script: seq<Op>, bad: nat -> bool, i: nat)
    requires i <= |script|
    ensures var n := Reached(script, bad, i);
            i <= n <= |script| && (n < |script| ==> !script[n].Send? && bad(n))
    decreases |script| - i
  {
    if !(i == |script| || (!script[i].Send? && bad(i))) { ReachedIsBad(script, bad, i + 1); }
  }

  /** What a planner sent, in terms of its first bad answer. */
  lemma SentUpTo(script: seq<Op>, bad: nat -> bool, ops: seq<Op>)
    requires Runs(script, bad, ops)
    ensures var n := Reached(script, bad, 0);
            && n <= |script| && (n < |script| ==> !script[n].Send? && bad(n))
            && Sends(ops) == (if n == |script| then Sends(script)
                              else if script[n].Poll? then SendsOfFirst(script, n)
                              else SendsOfFirst(script, n) + [Fail(SourceFault)])
  {
    var n := Reached(script, bad, 0);
    RunsDetermined(script, bad, ops);
    ReachedIsBad(script, bad, 0);
    if n < |script| {
      var front := script[..n];
      assert script == front + script[n..];
      FirstOfConcat(front, script[n..], n);
      if script[n].Poll? {
        SendsConcat(front, [Poll]);
        OneOp(Poll);
      } else {
        SentBeforeFault(front);
      }
    }
  }

  lemma ReaderEnds(script: seq<Op>, bad: nat -> bool, ops: seq<Op>, cstops: nat -> bool,
                   pr: Progress, exit: Exit, err: Option<Err>)
    requires ErrorLast(script) && OnlyPlannedErrs(script) && Runs(script, bad, ops)
    requires WellFormedPlan(Sends(ops)) && Consumed(Sends(ops), cstops, pr, exit, err)
    ensures ReaderEnd(script, bad, pr, if exit.Drained? then Drained(Sends(ops) != Sends(script)) else exit)
    ensures ConsumerEnd(cstops, pr, exit)
    ensures exit.PlanError? ==> exit.err == SourceFault || PlannedErr(exit.err)
  {
    var n := Reached(script, bad, 0);
    SentUpTo(script, bad, ops);
    SentErrsPlanned(script, n);
    SentErrsPlanned(script, |script|);
    if n < |script| {
      PrefixSends(script, script[..n]);
      SendsMigrations(script, n);
    }
  }

  /** Nothing disturbs the call: no stop, no failing read, no failing driver call. */
  ghost predicate Calm(bad: nat -> bool, cstops: nat -> bool, fails: nat -> bool) {
    forall k: nat :: !bad(k) && !cstops(k) && !fails(k)
  }

  /** What a call that got the lock did: `base` and `after` are the database before and after it,
      and its driver calls were those from a up to b. */
  ghost predicate Performed(p: Planning, cmd: Cmd, base: Db, after: Db, rec: Record, err: Option<Err>,
                            bad: nat -> bool, cstops: nat -> bool, fails: nat -> bool, a: nat, b: nat)
  {
    // the outcome is a legal record
    && ValidRecord(p, base, rec) && after == RecordEffect(p, base, rec)
    && rec.cmd == cmd && !rec.exit.Working? && err == ErrOf(rec)
    // every stop and every error has its reason
    && DriverCalls(fails, a, b, err == Some(DriverFault))
    && (!cmd.Force? && !rec.exit.Refused? ==>
          ConsumerEnd(cstops, rec.pr, rec.exit) && ReaderEnd(p.script(cmd, base.version), bad, rec.pr, rec.exit))
    // what Force stores, and what a dirty database is answered
    && (cmd.Force? && err.None? ==> after == Db(cmd.v, false, base.journal + [Forced(cmd.v)]))
    && (!cmd.Force? && base.dirty ==>
          after == base && (err == Some(DriverFault) || err == Some(DirtyVersion(base.version))))
    // what an undisturbed call does
    && (Calm(bad, cstops, fails) && !cmd.Force? && !base.dirty ==>
          err == PlanErr(p.plan(cmd, base.version)) && after == FullRun(p, cmd, base))
  }

  /** A call that got the lock, up to the error it hands to unlockErr. */
  method Perform(src: Source, db: Database, cmd: Cmd, bad: nat -> bool, cstops: nat -> bool, id: nat)
    returns (err: Option<Err>, ghost rec: Record)
    requires src.Valid() && Indexes(src.index, src.store) && db.version >= NIL_VERSION
    requires EarlyError(cmd).None?
    modifies db
    ensures Performed(PlanningOf(src), cmd, old(db.Value()), db.Value(), rec, err, bad, cstops, db.fails, old(db.calls), db.calls)
  {
    ghost var p, base, calls := PlanningOf(src), db.Value(), db.calls;
    if cmd.Force? {
      err, rec := PerformForce(p, db, cmd, bad, cstops, id);
      return;
    }
    var v := db.Version();
    if v.None? {
      rec := RefusedRecord(p, base, cmd, id, DriverFault, bad, cstops, db.fails, calls);
      return Some(DriverFault), rec;
    }
    if v.value.1 {
      rec := RefusedRecord(p, base, cmd, id, DirtyVersion(v.value.0), bad, cstops, db.fails, calls);
      return Some(DirtyVersion(v.value.0)), rec;
    }
    err, rec := Migrate(src, db, cmd, bad, cstops, id);
    AfterReading(p, cmd, base, db.Value(), rec, err, bad, cstops, db.fails, calls, db.calls);
  }

  /** The successful reading of the version goes before. */
  lemma AfterReading(p: Planning, cmd: Cmd, base: Db, after: Db, rec: Record, err: Option<Err>,
                     bad: nat -> bool, cstops: nat -> bool, fails: nat -> bool, a: nat, b: nat)
    requires !fails(a) && Performed(p, cmd, base, after, rec, err, bad, cstops, fails, a + 1, b)
    ensures Performed(p, cmd, base, after, rec, err, bad, cstops, fails, a, b)
  {
  }

  lemma RefusedRecord(p: Planning, db: Db, cmd: Cmd, id: nat, e: Err, bad: nat -> bool, cstops: nat -> bool,
                      fails: nat -> bool, a: nat) returns (rec: Record)
    requires EarlyError(cmd).None? && !cmd.Force?
    requires if fails(a) then e == DriverFault else db.dirty && e == DirtyVersion(db.version)
    ensures Performed(p, cmd, db, db, rec, Some(e), bad, cstops, fails, a, a + 1)
  {
    rec := Record(id, cmd, NO_PROGRESS, false, Refused(e));
  }

  method PerformForce(ghost p: Planning, db: Database, cmd: Cmd, ghost bad: nat -> bool, ghost cstops: nat -> bool, id: nat)
    returns (err: Option<Err>, ghost rec: Record)
    requires cmd.Force? && EarlyError(cmd).None?
    modifies db
    ensures Performed(p, cmd, old(db.Value()), db.Value(), rec, err, bad, cstops, db.fails, old(db.calls), db.calls)
  {
    err := db.SetVersion(cmd.v, false, Forced(cmd.v));
    rec := Record(id, cmd, NO_PROGRESS, err.None?, if err.None? then Drained(false) else DriverError);
  }

  /** A call that has read a clean version: plan, and run what the planner sends. */
  method Migrate(src: Source, db: Database, cmd: Cmd, bad: nat -> bool, cstops: nat -> bool, id: nat)
    returns (err: Option<Err>, ghost rec: Record)
    requires src.Valid() && Indexes(src.index, src.store) && db.version >= NIL_VERSION
    requires EarlyError(cmd).None? && !cmd.Force? && !db.dirty
    modifies db
    ensures Performed(PlanningOf(src), cmd, old(db.Value()), db.Value(), rec, err, bad, cstops, db.fails, old(db.calls), db.calls)
  {
    ghost var p, script := PlanningOf(src), ScriptFor(src, cmd, db.version);
    ghost var before, calls := db.Value(), db.calls;
    PlanningOfIsOk(src);
    PlanShape(src, cmd, db.version);
    assert PlanAgrees(p, cmd, db.version);
    var ops := Plan(src, cmd, db.version, bad);
    CutPlan(script, bad, ops);
    var pr, exit;
    err, pr, exit := RunMigrations(db, Sends(ops), cstops);
    OutcomeIsRecord(p, before, cmd, ops, bad, cstops, pr, exit, err, id);
    ReaderEnds(script, bad, ops, cstops, pr, exit, err);
    rec := Record(id, cmd, pr, false, if exit.Drained? then Drained(Sends(ops) != p.plan(cmd, before.version)) else exit);
    if Calm(bad, cstops, db.fails) { CalmOutcome(p, before, rec, bad, cstops, db.fails, calls, db.calls); }
  }

  /** Without a reason for anything else, the plan is completed and its error returned. */
  lemma CalmOutcome(p: Planning, base: Db, rec: Record, bad: nat -> bool, cstops: nat -> bool, fails: nat -> bool, a: nat, b: nat)
    requires PlanAgrees(p, rec.cmd, base.version) && Calm(bad, cstops, fails) && !base.dirty
    requires ValidRecord(p, base, rec) && !rec.cmd.Force? && !rec.exit.Working? && !rec.exit.Refused?
    requires ConsumerEnd(cstops, rec.pr, rec.exit) && ReaderEnd(p.script(rec.cmd, base.version), bad, rec.pr, rec.exit)
    requires DriverCalls(fails, a, b, ErrOf(rec) == Some(DriverFault))
    ensures ErrOf(rec) == PlanErr(p.plan(rec.cmd, base.version)) && RecordEffect(p, base, rec) == FullRun(p, rec.cmd, base)
  {
    var script := p.script(rec.cmd, base.version);
    ReachedIsBad(script, bad, 0);
    assert Reached(script, bad, 0) == |script|;
  }

  /** An undisturbed command on a clean database at position q of the index ends clean at the
      position it should, with the error it should. */
  method PerformCalmly(src: Source, db: Database, cmd: Cmd, bad: nat -> bool, cstops: nat -> bool, ghost q: nat)
    returns (err: Option<Err>)
    requires src.Valid() && Indexes(src.index, src.store) && Calm(bad, cstops, db.fails)
    requires Planned(cmd) && CmdOk(cmd) && EarlyError(cmd).None? && CleanAt(src, db.Value(), q)
    modifies db
    ensures CleanAt(src, db.Value(), Target(src, cmd, q)) && err == CommandErr(src, cmd, q)
    ensures cmd.UpAll? ==> CleanAt(src, db.Value(), |src.index|)
    ensures cmd.DownAll? ==> db.version == -1 && !db.dirty
    ensures cmd.Goto? && cmd.version in src.index ==> db.version == cmd.version && !db.dirty
    ensures cmd.Steps? && cmd.n > -MAX_INT - 1 ==>
              var t := q + cmd.n;
              CleanAt(src, db.Value(), if t < 0 then 0 else if t > |src.index| then |src.index| else t)
  {
    CommandMovesTo(src, cmd, db.Value(), q);
    PlanErrIs(src, cmd, q);
    ghost var rec;
    err, rec := Perform(src, db, cmd, bad, cstops, 0);
    if cmd.Goto? && cmd.version in src.index { assert FitsInt(src.index, PosOf(src.index, cmd.version)); }
  }
}

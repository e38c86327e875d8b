/** Dirty discipline: every body runs only while its own target is stored as dirty, a call
    ends clean at its last completed target or dirty at the failing one, and a dirty database
    stays as it is until it is forced. */
module Discipline {
  import opened Types
  import opened VersionIndex
  import opened Engine
  import opened System
  import opened LockSafety
  import opened Serial
  import opened Outcome
  import opened Positions

  datatype Register = Register(version: int, dirty: bool)

  function RegisterOf(db: Db): Register { Register(db.version, db.dirty) }

  /** The register after the first n journal entries: the last write. */
  function RegisterAfter(start: Register, j: seq<Event>, n: nat): Register
    requires n <= |j|
  {
    if n == 0 then start
    else match j[n - 1]
      case MarkDirty(m) => Register(m.target, true)
      case MarkClean(m) => Register(m.target, false)
      case Forced(v) => Register(v, false)
      case RanBody(_, _) => RegisterAfter(start, j, n - 1)
  }

  /** Which entry may follow the first i ones. */
  predicate EntryOk(start: Register, j: seq<Event>, i: nat)
    requires i < |j|
  {
    match j[i]
    case MarkDirty(m) => !RegisterAfter(start, j, i).dirty
    case RanBody(m, _) => i > 0 && j[i - 1] == MarkDirty(m) && m.body.Some?
    case MarkClean(m) =>
      i > 0 && (j[i - 1] == RanBody(m, true) || (j[i - 1] == MarkDirty(m) && m.body.None?))
    case Forced(v) => v >= NIL_VERSION
  }

  ghost predicate Disciplined(start: Register, j: seq<Event>) {
    forall i :: 0 <= i < |j| ==> EntryOk(start, j, i)
  }

  ghost predicate DbOk(start: Register, db: Db) {
    Disciplined(start, db.journal) && RegisterOf(db) == RegisterAfter(start, db.journal, |db.journal|)
  }

  lemma {:induction false} RegisterPrefix(start: Register, j: seq<Event>, e: Event, n: nat)
    requires n <= |j|
    ensures RegisterAfter(start, j + [e], n) == RegisterAfter(start, j, n)
  {
    if n > 0 { RegisterPrefix(start, j, e, n - 1); }
  }

  /** Appending a legal entry. */
  lemma Append(start: Register, db: Db, e: Event, db': Db)
    requires DbOk(start, db) && db'.journal == db.journal + [e]
    requires EntryOk(start, db'.journal, |db.journal|)
    requires RegisterOf(db') == match e
             case MarkDirty(m) => Register(m.target, true)
             case MarkClean(m) => Register(m.target, false)
             case Forced(v) => Register(v, false)
             case RanBody(_, _) => RegisterOf(db)
    ensures DbOk(start, db')
  {
    var j, j' := db.journal, db'.journal;
    forall i | 0 <= i < |j'| ensures EntryOk(start, j', i) {
      if i < |j| {
        RegisterPrefix(start, j, e, i);
        assert EntryOk(start, j, i);
      }
    }
    RegisterPrefix(start, j, e, |j|);
  }

  lemma BeginOk(start: Register, db: Db, m: Migration)
    requires DbOk(start, db) && !db.dirty
    ensures DbOk(start, Begin(db, m))
  {
    RegisterPrefix(start, db.journal, MarkDirty(m), |db.journal|);
    Append(start, db, MarkDirty(m), Begin(db, m));
  }

  lemma BodyOk(start: Register, db: Db, m: Migration, ok: bool)
    requires DbOk(start, db) && !db.dirty && m.body.Some?
    ensures DbOk(start, RunBody(Begin(db, m), m, ok))
  {
    BeginOk(start, db, m);
    Append(start, Begin(db, m), RanBody(m, ok), RunBody(Begin(db, m), m, ok));
  }

  lemma CompleteOk(start: Register, db: Db, m: Migration)
    requires DbOk(start, db) && !db.dirty
    ensures DbOk(start, Complete(db, m)) && !Complete(db, m).dirty && Complete(db, m).version == m.target
  {
    BeginOk(start, db, m);
    if m.body.Some? {
      BodyOk(start, db, m, true);
      Append(start, RunBody(Begin(db, m), m, true), MarkClean(m), Complete(db, m));
    } else {
      Append(start, Begin(db, m), MarkClean(m), Complete(db, m));
    }
  }

  lemma {:induction false} CompleteFirstOk(start: Register, db: Db, ms: seq<Migration>, n: nat)
    requires DbOk(start, db) && !db.dirty && n <= |ms|
    ensures var db' := CompleteFirst(db, ms, n);
            DbOk(start, db') && !db'.dirty
            && db'.version == if n == 0 then db.version else ms[n - 1].target
  {
    if n > 0 {
      CompleteFirstOk(start, db, ms, n - 1);
      CompleteOk(start, CompleteFirst(db, ms, n - 1), ms[n - 1]);
    }
  }

  lemma EffectOk(start: Register, db: Db, ms: seq<Migration>, pr: Progress)
    requires DbOk(start, db) && !db.dirty && ValidProgress(ms, pr)
    ensures DbOk(start, Effect(db, ms, pr))
  {
    CompleteFirstOk(start, db, ms, pr.done);
    match pr.stage
    case Untouched =>
    case Dirtied => BeginOk(start, CompleteFirst(db, ms, pr.done), ms[pr.done]);
    case BodyRun(ok) => BodyOk(start, CompleteFirst(db, ms, pr.done), ms[pr.done], ok);
  }

  /** A call with progress `pr` through `ms` left a clean database in state `after`: clean at the
      target of the last completed migration, or dirty at the one that was begun. */
  ghost predicate EndedAt(base: Db, ms: seq<Migration>, pr: Progress, after: Db) {
    && ValidProgress(ms, pr) && after == Effect(base, ms, pr)
    && (after.dirty <==> !pr.stage.Untouched?)
    && after.version == (if after.dirty then ms[pr.done].target
                         else if pr.done == 0 then base.version else ms[pr.done - 1].target)
  }

  lemma RecordEndsAt(p: Planning, db: Db, rec: Record)
    requires !db.dirty && !rec.cmd.Force? && ValidRecord(p, db, rec)
    ensures EndedAt(db, p.migs(rec.cmd, db.version), rec.pr, RecordEffect(p, db, rec))
    ensures RecordEffect(p, db, rec).dirty ==> rec.exit.Working? || rec.exit.DriverError?
  {
    CompleteFirstRegister(db, p.migs(rec.cmd, db.version), rec.pr.done);
  }

  /** How a call that returned `err` left the database it found in state `base`. A dirty one is
      left alone; a clean one ends as its progress says, dirty only if the driver failed. */
  ghost predicate LeftBy(p: Planning, base: Db, cmd: Cmd, pr: Progress, err: Option<Err>, after: Db) {
    if base.dirty then
      after == base && (err == Some(DriverFault) || err == Some(DirtyVersion(base.version)))
    else
      && EndedAt(base, p.migs(cmd, base.version), pr, after)
      && (after.dirty ==> err == Some(DriverFault))
  }

  /** In every run, a call that found a clean database and returned left it clean at the target
      of its last completed migration, unless the driver failed; then it may be dirty, at the
      target of the migration the driver failed on. A call that found it dirty changed nothing. */
  lemma CleanOrDirtyAtFailing(src: Source, s: State, actions: seq<Action>, s': State, k: nat)
    requires src.Valid() && Reaches(PlanningOf(src), s, actions, s') && k < |s'.history|
    requires var c := s'.history[k].call; c in s'.calls && s'.calls[c].pc.Done? && !s'.calls[c].cmd.Force?
    ensures var p, call := PlanningOf(src), s'.calls[s'.history[k].call];
            LeftBy(p, ReplayFirst(p, s.origin, s'.history, k), call.cmd, call.pr, call.pc.result.err,
                   ReplayFirst(p, s.origin, s'.history, k + 1))
  {
    ReachableInv(src, s, actions, s');
    ReturnedLeaves(PlanningOf(src), s', k);
  }

  lemma ReturnedLeaves(p: Planning, s: State, k: nat)
    requires AllInv(p, s) && k < |s.history|
    requires var c := s.history[k].call; c in s.calls && s.calls[c].pc.Done? && !s.calls[c].cmd.Force?
    ensures var call := s.calls[s.history[k].call];
            LeftBy(p, ReplayFirst(p, s.origin, s.history, k), call.cmd, call.pr, call.pc.result.err,
                   ReplayFirst(p, s.origin, s.history, k + 1))
  {
    var call, rec := s.calls[s.history[k].call], s.history[k];
    assert OutcomeAt(s, k) && ValidAt(p, s.origin, s.history, k);
    assert rec.cmd == call.cmd && rec.pr == call.pr && ErrOf(rec) == call.pc.result.err && !rec.exit.Working?;
    RecordReturned(p, ReplayFirst(p, s.origin, s.history, k), rec);
  }

  lemma RecordReturned(p: Planning, base: Db, rec: Record)
    requires ValidRecord(p, base, rec) && !rec.cmd.Force? && !rec.exit.Working?
    ensures LeftBy(p, base, rec.cmd, rec.pr, ErrOf(rec), RecordEffect(p, base, rec))
  {
    if !base.dirty { RecordEndsAt(p, base, rec); }
  }

  lemma {:induction false} CompleteFirstRegister(db: Db, ms: seq<Migration>, n: nat)
    requires !db.dirty && n <= |ms|
    ensures var db' := CompleteFirst(db, ms, n);
            !db'.dirty && db'.version == if n == 0 then db.version else ms[n - 1].target
  {
    if n > 0 { CompleteFirstRegister(db, ms, n - 1); }
  }

  // ----- a dirty database stays as it is ---------------------------------------------------

  /** No call is past reading the register: none has found it clean and is working on it. */
  predicate NobodyConsumes(s: State) {
    forall c :: c in s.calls ==> !Consuming(s.calls[c].pc)
  }

  predicate Forces(a: Action) { a.Act? && a.step == WriteForce(false) }

  lemma DirtyStep(p: Planning, v: View, c: nat, step: Step, w: View)
    requires v.db.dirty && !Consuming(v.call.pc) && CallAction(p, v, c, step) == Some(w)
    ensures !Consuming(w.call.pc)
    ensures step != WriteForce(false) ==> w.db == v.db
  {
    if LockStep(step) { DirtyLockStep(p, v, c, step, w); } else { DirtyWorkStep(p, v, c, step, w); }
  }

  lemma DirtyLockStep(p: Planning, v: View, c: nat, step: Step, w: View)
    requires LockStep(step) && !Consuming(v.call.pc) && CallAction(p, v, c, step) == Some(w)
    ensures !Consuming(w.call.pc) && w.db == v.db
  {
  }

  lemma DirtyWorkStep(p: Planning, v: View, c: nat, step: Step, w: View)
    requires !LockStep(step) && v.db.dirty && !Consuming(v.call.pc) && CallAction(p, v, c, step) == Some(w)
    ensures !Consuming(w.call.pc)
    ensures step != WriteForce(false) ==> w.db == v.db
  {
  }

  lemma JournalGrows(p: Planning, v: View, c: nat, step: Step, w: View)
    requires CallAction(p, v, c, step) == Some(w)
    ensures |w.db.journal| >= |v.db.journal|
    ensures step == WriteForce(false) ==> |w.db.journal| > |v.db.journal|
  {
  }

  lemma JournalGrowsAct(p: Planning, s: State, a: Action, s': State)
    requires Apply(p, s, a) == Some(s')
    ensures |s'.db.journal| >= |s.db.journal|
    ensures Forces(a) ==> |s'.db.journal| > |s.db.journal|
  {
    if a.Act? {
      JournalGrows(p, ViewOf(s, a.c), a.c, a.step, CallAction(p, ViewOf(s, a.c), a.c, a.step).value);
    }
  }

  lemma DirtyAct(p: Planning, s: State, a: Action, s': State)
    requires s.db.dirty && NobodyConsumes(s) && Apply(p, s, a) == Some(s') && !Forces(a)
    ensures s'.db == s.db && NobodyConsumes(s')
  {
    if a.Act? {
      DirtyStep(p, ViewOf(s, a.c), a.c, a.step, CallAction(p, ViewOf(s, a.c), a.c, a.step).value);
    }
  }

  lemma {:induction false} DirtyRun(p: Planning, s: State, actions: seq<Action>, n: nat)
    requires s.db.dirty && NobodyConsumes(s) && n <= |actions| && Run(p, s, actions, n).Some?
    ensures var t := Run(p, s, actions, n).value;
            if forall i :: 0 <= i < n ==> !Forces(actions[i]) then t.db == s.db && NobodyConsumes(t)
            else |t.db.journal| > |s.db.journal|
  {
    if n > 0 {
      DirtyRun(p, s, actions, n - 1);
      var t, t' := Run(p, s, actions, n - 1).value, Run(p, s, actions, n).value;
      JournalGrowsAct(p, t, actions[n - 1], t');
      if forall i :: 0 <= i < n ==> !Forces(actions[i]) { DirtyAct(p, t, actions[n - 1], t'); }
    }
  }

  /** Once the database is dirty and no call is working on it, whatever calls are made of it on
      any instance: register and journal stay exactly as they are until a Force succeeds. */
  lemma DirtyUntilForced(p: Planning, t: State, after: seq<Action>, u: State)
    requires t.db.dirty && NobodyConsumes(t) && Run(p, t, after, |after|) == Some(u)
    ensures u.db == t.db <==> forall i :: 0 <= i < |after| ==> !Forces(after[i])
  {
    DirtyRun(p, t, after, |after|);
  }

  /** A call that returned has nobody working on the database it left: as long as nobody else got
      the lock since, its dirty mark waits for a Force. */
  lemma NobodyAfterReturn(src: Source, s: State, actions: seq<Action>, s': State)
    requires src.Valid() && Reaches(PlanningOf(src), s, actions, s') && |s'.history| > 0
    requires var c := s'.history[|s'.history| - 1].call; c in s'.calls && s'.calls[c].pc.Done?
    ensures NobodyConsumes(s')
  {
    ReachableInv(src, s, actions, s');
    forall c | c in s'.calls ensures !Consuming(s'.calls[c].pc) {
      NotConsuming(PlanningOf(src), s', c);
    }
  }

  lemma NotConsuming(p: Planning, s: State, c: nat)
    requires AllInv(p, s) && c in s.calls && |s.history| > 0
    requires var d := s.history[|s.history| - 1].call; d in s.calls && s.calls[d].pc.Done?
    ensures !Consuming(s.calls[c].pc)
  {
    assert CallInv(s, c) && SerialAt(p, s, c);
    SessionPlan(p, s, c);
  }

  lemma RecordOk(start: Register, p: Planning, db: Db, rec: Record)
    requires DbOk(start, db) && ValidRecord(p, db, rec)
    ensures DbOk(start, RecordEffect(p, db, rec))
  {
    if rec.cmd.Force? {
      if rec.forced { Append(start, db, Forced(rec.cmd.v), ForceTo(db, rec.cmd.v)); }
    } else if rec.pr != NO_PROGRESS {
      EffectOk(start, db, p.migs(rec.cmd, db.version), rec.pr);
    }
  }

  lemma {:induction false} ReplayOk(start: Register, p: Planning, db: Db, h: seq<Record>, n: nat)
    requires DbOk(start, db) && ValidHistory(p, db, h) && n <= |h|
    ensures DbOk(start, ReplayFirst(p, db, h, n))
  {
    if n > 0 {
      ReplayOk(start, p, db, h, n - 1);
      assert ValidAt(p, db, h, n - 1);
      RecordOk(start, p, ReplayFirst(p, db, h, n - 1), h[n - 1]);
    }
  }

  /** In every reachable state, in the middle of calls included, the journal is disciplined
      and the register is its last write. */
  lemma AlwaysDisciplined(src: Source, s: State, actions: seq<Action>, s': State)
    requires src.Valid() && Reaches(PlanningOf(src), s, actions, s') && s.origin.journal == []
    ensures DbOk(RegisterOf(s.origin), s'.db)
  {
    Serialisable(src, s, actions, s');
    ReplayOk(RegisterOf(s.origin), PlanningOf(src), s.origin, s'.history, |s'.history|);
  }

  /** What discipline means for bodies: each runs while its own target is stored as dirty, it is
      run once per mark, and after a failing body the next entry can only be a Force. */
  lemma BodiesRunUnderTheirMark(start: Register, j: seq<Event>, i: nat)
    requires Disciplined(start, j) && i < |j| && j[i].RanBody?
    ensures RegisterAfter(start, j, i) == Register(j[i].m.target, true)
    ensures RegisterAfter(start, j, i + 1) == Register(j[i].m.target, true)
    ensures i + 1 < |j| ==> j[i + 1].Forced? || (j[i].ok && j[i + 1] == MarkClean(j[i].m))
  {
    assert EntryOk(start, j, i);
    if i + 1 < |j| { assert EntryOk(start, j, i + 1); }
  }

  /** While the register is dirty nothing is marked; the register changes only by finishing the
      very migration that marked it, or by a Force. */
  lemma DirtyRegisterChanges(start: Register, j: seq<Event>, i: nat)
    requires Disciplined(start, j) && i < |j| && RegisterAfter(start, j, i).dirty
    ensures !j[i].MarkDirty?
    ensures RegisterAfter(start, j, i + 1) != RegisterAfter(start, j, i) ==>
              j[i].Forced? || (j[i].MarkClean? && j[i].m.target == RegisterAfter(start, j, i).version)
  {
    assert EntryOk(start, j, i);
    if j[i].MarkClean? && j[i - 1].RanBody? { assert EntryOk(start, j, i - 1); }
  }

  // ----- the stored version can always be planned from --------------------------------------

  lemma {:induction false} TargetsKeepFloor(db: Db, ms: seq<Migration>, n: nat)
    requires n <= |ms| && db.version >= NIL_VERSION && forall m :: m in ms ==> m.target >= NIL_VERSION
    ensures CompleteFirst(db, ms, n).version >= NIL_VERSION
  {
    if n > 0 { TargetsKeepFloor(db, ms, n - 1); }
  }

  lemma RecordKeepsFloor(src: Source, db: Db, rec: Record)
    requires src.Valid() && db.version >= NIL_VERSION && CmdOk(rec.cmd)
    requires ValidRecord(PlanningOf(src), db, rec)
    ensures RecordEffect(PlanningOf(src), db, rec).version >= NIL_VERSION
  {
    if !rec.cmd.Force? && rec.pr != NO_PROGRESS {
      PlanTargets(src, rec.cmd, db.version);
      TargetsKeepFloor(db, PlanningOf(src).migs(rec.cmd, db.version), rec.pr.done);
    }
  }

  lemma {:induction false} ReplayKeepsFloor(src: Source, db: Db, h: seq<Record>, n: nat)
    requires src.Valid() && db.version >= NIL_VERSION && ValidHistory(PlanningOf(src), db, h) && n <= |h|
    requires forall k :: 0 <= k < n ==> CmdOk(h[k].cmd)
    ensures ReplayFirst(PlanningOf(src), db, h, n).version >= NIL_VERSION
  {
    if n > 0 {
      ReplayKeepsFloor(src, db, h, n - 1);
      assert ValidAt(PlanningOf(src), db, h, n - 1);
      RecordKeepsFloor(src, ReplayFirst(PlanningOf(src), db, h, n - 1), h[n - 1]);
    }
  }

  /** In every reachable state the stored version is the nil version or larger: what the planners
      require of the version they start from, so that they never convert a negative number. */
  lemma VersionNeverBelowNil(src: Source, s: State, actions: seq<Action>, s': State)
    requires src.Valid() && Reaches(PlanningOf(src), s, actions, s')
    ensures s'.db.version >= NIL_VERSION
  {
    ReachableInv(src, s, actions, s');
    forall k | 0 <= k < |s'.history| ensures CmdOk(s'.history[k].cmd) {
      assert OutcomeAt(s', k) && CallInv(s', s'.history[k].call);
    }
    ReplayKeepsFloor(src, s.origin, s'.history, |s'.history|);
  }
}

/** What one call of the engine does to the database: the register (version, dirty), a
    journal of everything done to it, and runMigrations over a list of items. */
module Engine {
  import opened Types
  import opened VersionIndex
  import opened Planner

  // ----- the database ----------------------------------------------------------

  datatype Event =
    | MarkDirty(m: Migration)
    | RanBody(m: Migration, ok: bool)
    | MarkClean(m: Migration)
    | Forced(version: int)

  datatype Db = Db(version: int, dirty: bool, journal: seq<Event>)

  function Begin(db: Db, m: Migration): Db {
    Db(m.target, true, db.journal + [MarkDirty(m)])
  }

  function RunBody(db: Db, m: Migration, ok: bool): Db {
    db.(journal := db.journal + [RanBody(m, ok)])
  }

  function Finish(db: Db, m: Migration): Db {
    Db(m.target, false, db.journal + [MarkClean(m)])
  }

  function ForceTo(db: Db, v: int): Db {
    Db(v, false, db.journal + [Forced(v)])
  }

  // ----- progress through a list of migrations ---------------------------------

  /** How far the migration after the completed ones has got. */
  datatype Stage = Untouched | Dirtied | BodyRun(ok: bool)

  datatype Progress = Progress(done: nat, stage: Stage)

  const NO_PROGRESS := Progress(0, Untouched)

  predicate ValidProgress(ms: seq<Migration>, pr: Progress) {
    && pr.done <= |ms|
    && (!pr.stage.Untouched? ==> pr.done < |ms|)
    && (pr.stage.BodyRun? ==> ms[pr.done].body.Some?)
  }

  function Complete(db: Db, m: Migration): Db {
    var marked := Begin(db, m);
    Finish(if m.body.Some? then RunBody(marked, m, true) else marked, m)
  }

  function CompleteFirst(db: Db, ms: seq<Migration>, n: nat): Db
    requires n <= |ms|
  {
    if n == 0 then db else Complete(CompleteFirst(db, ms, n - 1), ms[n - 1])
  }

  function InStage(db: Db, m: Migration, stage: Stage): Db {
    match stage
    case Untouched => db
    case Dirtied => Begin(db, m)
    case BodyRun(ok) => RunBody(Begin(db, m), m, ok)
  }

  function Effect(db: Db, ms: seq<Migration>, pr: Progress): Db
    requires ValidProgress(ms, pr)
  {
    var base := CompleteFirst(db, ms, pr.done);
    if pr.stage.Untouched? then base else InStage(base, ms[pr.done], pr.stage)
  }

  // ----- commands and their plans ------------------------------------------------

  datatype Cmd =
    | Goto(version: nat)                 // Migrate
    | Steps(n: int)
    | UpAll                              // Up
    | DownAll                            // Down
    | RunGiven(ms: seq<Migration>)       // Run
    | Force(v: int)

  /** What the callers and the driver contract promise: 64-bit arguments, and no target
      below the nil version. */
  predicate CmdOk(cmd: Cmd) {
    match cmd
    case Goto(v) => v < UINT_SIZE
    case Steps(n) => -MAX_INT - 1 <= n <= MAX_INT
    case RunGiven(ms) => forall i :: 0 <= i < |ms| ==> ms[i].target >= NIL_VERSION
    case _ => true
  }

  /** Errors returned before the lock is even tried. */
  function EarlyError(cmd: Cmd): Option<Err> {
    match cmd
    case Steps(n) => if n == 0 then Some(NoChange) else None
    case RunGiven(ms) => if |ms| == 0 then Some(NoChange) else None
    case Force(v) => if v < NIL_VERSION then Some(InvalidVersion) else None
    case _ => None
  }

  /** What the planner of a command does when it starts at `version`. Versions below the nil one,
      where the code would panic, never get there. */
  ghost function ScriptFor(src: Source, cmd: Cmd, version: int): seq<Op>
    requires src.Valid()
  {
    if version < NIL_VERSION then [] else
    match cmd
    case Goto(v) => ReadScript(src, version, ToInt(v))
    case Steps(n) =>
      if n > 0 then ReadUpScript(src, version, n) else ReadDownScript(src, version, Negate(n))
    case UpAll => ReadUpScript(src, version, -1)
    case DownAll => ReadDownScript(src, version, -1)
    case RunGiven(ms) => SendEach(ms)
    case Force(_) => []
  }

  /** Everything a planner would send if it is neither stopped nor fails. */
  ghost function PlanFor(src: Source, cmd: Cmd, version: int): (plan: seq<Item>)
    requires src.Valid()
    ensures WellFormedPlan(plan)
  {
    PlanShape(src, cmd, version);
    Sends(ScriptFor(src, cmd, version))
  }

  /** A plan is some migrations followed by at most one error, and nothing is done after it. */
  lemma PlanShape(src: Source, cmd: Cmd, version: int)
    requires src.Valid()
    ensures ErrorLast(ScriptFor(src, cmd, version)) && OnlyPlannedErrs(ScriptFor(src, cmd, version))
    ensures WellFormedPlan(Sends(ScriptFor(src, cmd, version)))
    ensures PlanErr(Sends(ScriptFor(src, cmd, version))).Some? ==>
              PlannedErr(PlanErr(Sends(ScriptFor(src, cmd, version))).value)
  {
    if version >= NIL_VERSION {
      match cmd
      case Goto(v) => ReadShape(src, version, ToInt(v));
      case Steps(n) =>
        UpShape(src, version, n);
        DownShape(src, version, Negate(n));
      case UpAll => UpShape(src, version, -1);
      case DownAll => DownShape(src, version, -1);
      case RunGiven(_) =>
      case Force(_) =>
    }
    ErrorLastPlan(ScriptFor(src, cmd, version));
    SentErrsPlanned(ScriptFor(src, cmd, version), |ScriptFor(src, cmd, version)|);
  }

  /** The error a plan ends with, if any. */
  ghost function PlanErr(plan: seq<Item>): Option<Err> {
    if |plan| > 0 && plan[|plan| - 1].Fail? then Some(plan[|plan| - 1].err) else None
  }

  lemma BatchShape(ms: seq<Migration>, tail: seq<Op>)
    requires ErrorLast(tail) && OnlyPlannedErrs(tail)
    ensures ErrorLast(PollEach(ms) + tail) && OnlyPlannedErrs(PollEach(ms) + tail)
  {
    PollFirstNoErrors(ms, |ms|);
    ErrorLastConcat(PollEach(ms), tail);
  }

  lemma UpShape(src: Source, from: int, limit: int)
    requires src.Valid() && from >= NIL_VERSION
    ensures ErrorLast(ReadUpScript(src, from, limit)) && OnlyPlannedErrs(ReadUpScript(src, from, limit))
  {
    if Known(src, from) && (limit == -1 || limit > 0) {
      var p := Pos(src, from);
      UpTailShape(from, limit, |src.index| - p);
      BatchShape(Climb(src, p, Granted(limit, |src.index| - p)), UpTail(from, limit, |src.index| - p));
    }
    ErrorLastConcat(Check(from), UpScript(src, from, limit));
  }

  lemma UpTailShape(from: int, limit: int, n: nat)
    requires limit == -1 || limit > 0
    ensures ErrorLast(UpTail(from, limit, n)) && OnlyPlannedErrs(UpTail(from, limit, n))
  {
  }

  lemma DownShape(src: Source, from: int, limit: int)
    requires src.Valid() && from >= NIL_VERSION
    ensures ErrorLast(ReadDownScript(src, from, limit)) && OnlyPlannedErrs(ReadDownScript(src, from, limit))
  {
    if from >= 0 && Known(src, from) && (limit == -1 || limit > 0) {
      var p := Pos(src, from);
      BatchShape(Descend(src, p, Granted(limit, p)), DownTail(limit, p));
    }
    ErrorLastConcat(Check(from), DownScript(src, from, limit));
  }

  lemma BetweenShape(src: Source, from: int, to: int)
    requires src.Valid() && Known(src, from) && (to < NIL_VERSION || Known(src, to))
    ensures ErrorLast(Between(src, from, to)) && OnlyPlannedErrs(Between(src, from, to))
  {
    if to < from && from != NIL_VERSION {
      var p := Pos(src, from);
      FloorBelow(src, from, to);
      BatchShape(Descend(src, p, p - Floor(src, to)), FloorTail(to));
    } else if from < to {
      var p, q := Pos(src, from), Pos(src, to);
      PosMonotone(src, from, to);
      if from == NIL_VERSION {
        PollFirstNoErrors(Climb(src, 1, q - 1), q - 1);
      } else {
        PollFirstNoErrors(Climb(src, p, q - p), q - p);
      }
    }
  }

  lemma ReadShape(src: Source, from: int, to: int)
    requires src.Valid() && from >= NIL_VERSION
    ensures ErrorLast(ReadScript(src, from, to)) && OnlyPlannedErrs(ReadScript(src, from, to))
  {
    var rest := if to >= 0 && !Known(src, to) then Refuse(NotExist)
                else if Known(src, from) then Between(src, from, to) else [];
    if Known(src, from) && (to < NIL_VERSION || Known(src, to)) { BetweenShape(src, from, to); }
    ErrorLastConcat(Check(to), rest);
    ErrorLastConcat(Check(from), Check(to) + rest);
    ErrorLastConcat(Check(from), Refuse(NotExist));
  }

  // ----- planning as a parameter ---------------------------------------------------

  /** What the rest of the engine needs to know of a planner. The step system and its proofs
      are generic in it; `PlanningOf` is the one of migrate.go. */
  datatype Planning = Planning(
    script: (Cmd, int) -> seq<Op>,
    plan: (Cmd, int) -> seq<Item>,
    migs: (Cmd, int) -> seq<Migration>)

  ghost predicate PlanAgrees(p: Planning, cmd: Cmd, version: int) {
    && ErrorLast(p.script(cmd, version))
    && p.plan(cmd, version) == Sends(p.script(cmd, version))
    && WellFormedPlan(p.plan(cmd, version))
    && p.migs(cmd, version) == Migs(p.plan(cmd, version))
  }

  ghost predicate PlanningOk(p: Planning) {
    forall cmd, version {:trigger PlanAgrees(p, cmd, version)} :: PlanAgrees(p, cmd, version)
  }

  ghost function PlanningOf(src: Source): Planning
    requires src.Valid()
  {
    Planning((cmd, version) requires src.Valid() => ScriptFor(src, cmd, version),
             (cmd, version) requires src.Valid() => PlanFor(src, cmd, version),
             (cmd, version) requires src.Valid() => Migs(PlanFor(src, cmd, version)))
  }

  lemma PlanningOfIsOk(src: Source)
    requires src.Valid()
    ensures PlanningOk(PlanningOf(src))
  {
    var p := PlanningOf(src);
    forall cmd, version ensures PlanAgrees(p, cmd, version) { PlanShape(src, cmd, version); }
  }

  // ----- outcome of a call ---------------------------------------------------------

  /** Why a call that got the lock stopped working. `Drained(cut)`: the channel was closed,
      by a reader that was stopped early if `cut`. */
  datatype Exit =
    | Working
    | Refused(err: Err)
    | Drained(cut: bool)
    | PlanError(err: Err)
    | StopSeen
    | DriverError

  /** One call that got the lock: how far it got and why it ended. */
  datatype Record = Record(call: nat, cmd: Cmd, pr: Progress, forced: bool, exit: Exit)

  /** The error a record stands for. */
  function ErrOf(rec: Record): Option<Err> {
    if rec.cmd.Force? then (if rec.forced then None else Some(DriverFault))
    else match rec.exit
      case Working => None
      case Refused(e) => Some(e)
      case Drained(_) => None
      case PlanError(e) => Some(e)
      case StopSeen => None
      case DriverError => Some(DriverFault)
  }

  ghost function RecordEffect(p: Planning, db: Db, rec: Record): Db
  {
    if rec.cmd.Force? then (if rec.forced then ForceTo(db, rec.cmd.v) else db)
    else if ValidProgress(p.migs(rec.cmd, db.version), rec.pr)
      then Effect(db, p.migs(rec.cmd, db.version), rec.pr)
    else db
  }

  /** After n items the reader polls, so that a stop can make it return there. */
  ghost predicate StopPoint(script: seq<Op>, n: nat) {
    exists i :: 0 <= i < |script| && script[i].Poll? && |SendsOfFirst(script, i)| == n
  }

  /** After n items the reader looks at the source, so that it can fail there. */
  ghost predicate FaultPoint(script: seq<Op>, n: nat) {
    exists i :: 0 <= i < |script| && script[i].Look? && |SendsOfFirst(script, i)| == n
  }

  /** How runMigrations may end after `pr`, given the script of its reader. */
  ghost predicate Ending(script: seq<Op>, plan: seq<Item>, ms: seq<Migration>, pr: Progress, exit: Exit)
    requires ValidProgress(ms, pr)
  {
    match exit
    case Working => true
    case Refused(_) => false
    case Drained(cut) =>
      pr.stage.Untouched? && if cut then StopPoint(script, pr.done) else pr.done == |ms| == |plan|
    case PlanError(e) =>
      && pr.stage.Untouched?
      && ((e == SourceFault && FaultPoint(script, pr.done))
          || (pr.done == |ms| && |plan| == |ms| + 1 && plan[|ms|] == Fail(e)))
    case StopSeen => pr.stage.Untouched? && (pr.done < |plan| || FaultPoint(script, pr.done))
    case DriverError => pr.done < |ms| && (pr.stage.Dirtied? ==> ms[pr.done].body.None?)
  }

  /** The outcomes of a call that gets the lock and finds the database in state `db`. */
  ghost predicate ValidRecord(p: Planning, db: Db, rec: Record)
  {
    var ms := p.migs(rec.cmd, db.version);
    && EarlyError(rec.cmd).None?
    && if rec.cmd.Force? then
         && rec.pr == NO_PROGRESS
         && (if rec.forced then rec.exit == Drained(false) else rec.exit.Working? || rec.exit.DriverError?)
       else
         && !rec.forced
         && match rec.exit
            case Refused(e) =>
              rec.pr == NO_PROGRESS && (e == DriverFault || (db.dirty && e == DirtyVersion(db.version)))
            case Working => rec.pr == NO_PROGRESS || (!db.dirty && ValidProgress(ms, rec.pr))
            case _ =>
              && !db.dirty && ValidProgress(ms, rec.pr)
              && Ending(p.script(rec.cmd, db.version), p.plan(rec.cmd, db.version), ms, rec.pr, rec.exit)
  }

  /** Serial execution of calls, one after the other. */
  ghost function ReplayFirst(p: Planning, db: Db, h: seq<Record>, n: nat): Db
    requires n <= |h|
  {
    if n == 0 then db else RecordEffect(p, ReplayFirst(p, db, h, n - 1), h[n - 1])
  }

  ghost function Replay(p: Planning, db: Db, h: seq<Record>): Db
  {
    ReplayFirst(p, db, h, |h|)
  }

  ghost predicate ValidAt(p: Planning, db: Db, h: seq<Record>, k: int) {
    0 <= k < |h| ==> ValidRecord(p, ReplayFirst(p, db, h, k), h[k])
  }

  ghost predicate ValidHistory(p: Planning, db: Db, h: seq<Record>) {
    forall k {:trigger ValidAt(p, db, h, k)} :: ValidAt(p, db, h, k)
  }

  lemma {:induction false} ReplayPrefix(p: Planning, db: Db, h: seq<Record>, g: seq<Record>, n: nat)
    requires n <= |h| && n <= |g| && forall k :: 0 <= k < n ==> h[k] == g[k]
    ensures ReplayFirst(p, db, h, n) == ReplayFirst(p, db, g, n)
  {
    if n > 0 { ReplayPrefix(p, db, h, g, n - 1); }
  }

  /** Adding a record. */
  lemma ReplaySnoc(p: Planning, db: Db, h: seq<Record>, rec: Record)
    requires ValidHistory(p, db, h)
    requires ValidRecord(p, Replay(p, db, h), rec)
    ensures ValidHistory(p, db, h + [rec])
    ensures Replay(p, db, h + [rec]) == RecordEffect(p, Replay(p, db, h), rec)
    ensures ReplayFirst(p, db, h + [rec], |h|) == Replay(p, db, h)
  {
    var g := h + [rec];
    forall k ensures ValidAt(p, db, g, k) {
      if 0 <= k <= |h| {
        ReplayPrefix(p, db, g, h, k);
        assert ValidAt(p, db, h, k);
      }
    }
    ReplayPrefix(p, db, g, h, |h|);
  }

  lemma ValidFront(p: Planning, db: Db, h: seq<Record>)
    requires |h| > 0 && ValidHistory(p, db, h)
    ensures ValidHistory(p, db, h[..|h| - 1])
    ensures Replay(p, db, h[..|h| - 1]) == ReplayFirst(p, db, h, |h| - 1)
  {
    var g := h[..|h| - 1];
    forall k ensures ValidAt(p, db, g, k) {
      if 0 <= k < |g| {
        ReplayPrefix(p, db, g, h, k);
        assert ValidAt(p, db, h, k);
      }
    }
    ReplayPrefix(p, db, g, h, |g|);
  }

  /** Replacing the last record. */
  lemma ReplaceLast(p: Planning, db: Db, h: seq<Record>, rec: Record)
    requires |h| > 0 && ValidHistory(p, db, h)
    requires ValidRecord(p, ReplayFirst(p, db, h, |h| - 1), rec)
    ensures var g := h[..|h| - 1] + [rec];
            && ValidHistory(p, db, g)
            && ReplayFirst(p, db, g, |g| - 1) == ReplayFirst(p, db, h, |h| - 1)
            && Replay(p, db, g) == RecordEffect(p, ReplayFirst(p, db, h, |h| - 1), rec)
  {
    ValidFront(p, db, h);
    ReplaySnoc(p, db, h[..|h| - 1], rec);
  }
}

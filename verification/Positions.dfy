/** Position algebra: where each command takes the database when nothing fails, and how
    commands compose. */
module Positions {
  import opened Types
  import opened VersionIndex
  import opened Planner
  import opened Engine

  /** Commands whose migrations come from the source. */
  predicate Planned(cmd: Cmd) {
    cmd.Goto? || cmd.Steps? || cmd.UpAll? || cmd.DownAll?
  }

  function Clamp(x: int, n: nat): nat {
    if x < 0 then 0 else if x > n then n else x
  }

  /** The position a command leads to from position q of an index of n versions. A Goto whose
      version overflows a signed int goes down instead: to the nil version for the largest
      unsigned value, otherwise as far as the first version. */
  ghost function Target(src: Source, cmd: Cmd, q: nat): nat
    requires q <= |src.index| && Planned(cmd)
  {
    match cmd
    case Goto(v) =>
      if Known(src, ToInt(v)) then Pos(src, ToInt(v))
      else if ToInt(v) >= 0 || q == 0 then q
      else 1
    case Steps(n) => if n == -MAX_INT - 1 then q else Clamp(q + n, |src.index|)
    case UpAll => |src.index|
    case DownAll => 0
  }

  /** The migrations that lead from position q to position t. */
  ghost function Path(src: Source, q: nat, t: nat): seq<Migration>
    requires q <= |src.index| && t <= |src.index|
  {
    if q <= t then Climb(src, q, t - q) else Descend(src, q, q - t)
  }

  /** Every command plans exactly the path to its target, then at most an error. */
  lemma PlanIsPath(src: Source, cmd: Cmd, q: nat)
    requires src.Valid() && q <= |src.index| && Planned(cmd)
    ensures Target(src, cmd, q) <= |src.index|
    ensures Migs(PlanFor(src, cmd, At(src, q))) == Path(src, q, Target(src, cmd, q))
  {
    PosOfAt(src, q);
    var from := At(src, q);
    match cmd
    case Goto(v) => GotoIsPath(src, v, q);
    case Steps(n) =>
      if n > 0 { UpIsPath(src, n, q); } else { DownIsPath(src, Negate(n), q); }
    case UpAll => UpIsPath(src, -1, q);
    case DownAll => DownIsPath(src, -1, q);
  }

  /** A planner that refuses, or does nothing, after its checks. */
  lemma RefusalHasNoMigs(from: int, e: Err)
    ensures WellFormedPlan(Sends(Check(from) + Refuse(e))) && Migs(Sends(Check(from) + Refuse(e))) == []
    ensures WellFormedPlan(Sends(Check(from) + [])) && Migs(Sends(Check(from) + [])) == []
  {
    SendsRefuse(e);
    SilentHeads(from, Refuse(e));
    SilentHeads(from, []);
  }

  lemma UpIsPath(src: Source, limit: int, q: nat)
    requires src.Valid() && q <= |src.index| && limit >= -1
    ensures var plan := Sends(ReadUpScript(src, At(src, q), limit));
            var t := if limit == -1 then |src.index| else Clamp(q + limit, |src.index|);
            WellFormedPlan(plan) && Migs(plan) == Path(src, q, t)
  {
    PosOfAt(src, q);
    var n := |src.index| - q;
    if limit == 0 {
      RefusalHasNoMigs(At(src, q), NoChange);
      assert Path(src, q, q) == [];
    } else {
      UpSends(src, At(src, q), limit);
      MigsOfItems(Climb(src, q, Granted(limit, n)), UpError(At(src, q), limit, n));
    }
  }

  lemma DownIsPath(src: Source, limit: int, q: nat)
    requires src.Valid() && q <= |src.index|
    ensures var plan := Sends(ReadDownScript(src, At(src, q), limit));
            var t := if limit < -1 then q else if limit == -1 then 0 else Clamp(q - limit, |src.index|);
            WellFormedPlan(plan) && Migs(plan) == Path(src, q, t)
  {
    PosOfAt(src, q);
    if limit == 0 || limit < -1 {
      RefusalHasNoMigs(At(src, q), NoChange);
      assert Path(src, q, q) == [];
    } else {
      ReadDownExact(src, At(src, q), limit);
      MigsOfItems(Descend(src, q, Granted(limit, q)), DownError(limit, q));
      if Granted(limit, q) == 0 { assert Path(src, q, q) == []; }
    }
  }

  lemma GotoIsPath(src: Source, v: nat, q: nat)
    requires src.Valid() && q <= |src.index|
    ensures var plan := Sends(ReadScript(src, At(src, q), ToInt(v)));
            WellFormedPlan(plan) && Migs(plan) == Path(src, q, Target(src, Goto(v), q))
  {
    PosOfAt(src, q);
    var to := ToInt(v);
    if Known(src, to) {
      KnownGotoIsPath(src, to, q);
    } else if to >= 0 {
      RefusedSends(src, At(src, q), to);
      assert Path(src, q, q) == [];
    } else {
      ReadBelowNil(src, At(src, q), to);
      if q == 0 {
        assert Path(src, q, q) == [];
      } else {
        MigsOfItems(Descend(src, q, q - 1), [Fail(NotExist)]);
        assert q == 1 ==> Path(src, q, 1) == Descend(src, q, 0);
      }
    }
  }

  lemma KnownGotoIsPath(src: Source, to: int, q: nat)
    requires src.Valid() && q <= |src.index| && Known(src, to)
    ensures var plan := Sends(ReadScript(src, At(src, q), to));
            WellFormedPlan(plan) && Migs(plan) == Path(src, q, Pos(src, to))
  {
    PosOfAt(src, q);
    ReadExact(src, At(src, q), to);
    var t := Pos(src, to);
    if q == t {
      SendsRefuse(NoChange);
      assert Path(src, q, q) == [];
    } else {
      MigsOfAllItems(Path(src, q, t));
    }
  }

  lemma MigsOfAllItems(ms: seq<Migration>)
    ensures WellFormedPlan(Items(ms)) && Migs(Items(ms)) == ms
  {
    MigsOfItems(ms, []);
    assert Items(ms) + [] == Items(ms);
  }

  /** No migration a planner sends has a target below the nil version. */
  lemma PlanTargets(src: Source, cmd: Cmd, version: int)
    requires src.Valid() && CmdOk(cmd)
    ensures forall m :: m in Migs(PlanFor(src, cmd, version)) ==> m.target >= NIL_VERSION
  {
    if version >= NIL_VERSION {
      if cmd.RunGiven? {
        GivenPlan(cmd.ms);
      } else if Planned(cmd) && Known(src, version) {
        PlanIsPath(src, cmd, Pos(src, version));
        PathTargets(src, Pos(src, version), Target(src, cmd, Pos(src, version)));
      } else if Planned(cmd) {
        UnknownRefused(src, cmd, version);
      }
    }
  }

  lemma GivenPlan(ms: seq<Migration>)
    ensures WellFormedPlan(Sends(SendEach(ms))) && Migs(Sends(SendEach(ms))) == ms
  {
    SendsSendEach(ms, |ms|);
    assert Items(ms)[..|ms|] == Items(ms) + [];
    MigsOfItems(ms, []);
  }

  lemma PathTargets(src: Source, q: nat, t: nat)
    requires q <= |src.index| && t <= |src.index|
    ensures forall m :: m in Path(src, q, t) ==> m.target >= NIL_VERSION
  {
  }

  /** The bodies of planned migrations: those of going up are the up entries of the source, those
      of going down the down entries, of indexed versions. */
  lemma PlanBodies(src: Source, cmd: Cmd, version: int)
    requires src.Valid() && Planned(cmd) && version >= NIL_VERSION
    ensures forall m :: m in Migs(PlanFor(src, cmd, version)) ==>
              m.version in src.index && m.body == Body(src.store, m.version, if m.target >= m.version then Up else Down)
  {
    if Known(src, version) {
      var q := Pos(src, version);
      PlanIsPath(src, cmd, q);
      PathBodies(src, q, Target(src, cmd, q));
    } else {
      UnknownRefused(src, cmd, version);
    }
  }

  lemma PathBodies(src: Source, q: nat, t: nat)
    requires src.Valid() && q <= |src.index| && t <= |src.index|
    ensures forall m :: m in Path(src, q, t) ==>
              m.version in src.index && m.body == Body(src.store, m.version, if m.target >= m.version then Up else Down)
  {
    var ms := Path(src, q, t);
    forall m | m in ms
      ensures m.version in src.index && m.body == Body(src.store, m.version, if m.target >= m.version then Up else Down)
    {
      var i :| 0 <= i < |ms| && ms[i] == m;
      if q > t { assert InOrder(src.index, q - i - 2, q - i - 1); }
    }
  }

  // ----- the error a command ends with -------------------------------------------------------

  /** The error of a command at position q of an index of n versions, when nothing disturbs it. */
  ghost function CommandErr(src: Source, cmd: Cmd, q: nat): Option<Err>
    requires q <= |src.index| && Planned(cmd)
  {
    var n := |src.index|;
    match cmd
    case UpAll => if q < n then None else Some(if n == 0 then NotExist else NoChange)
    case DownAll => if q > 0 then None else Some(NoChange)
    case Steps(k) =>
      if k == 0 then Some(NoChange)
      else if k == -0x8000_0000_0000_0000 then None
      else if k > 0 then LimitErr(k, n - q)
      else LimitErr(-k, q)
    case Goto(v) =>
      if v <= 0x7FFF_FFFF_FFFF_FFFF then
        if v !in src.index then Some(NotExist)
        else if q > 0 && src.index[q - 1] == v then Some(NoChange) else None
      else if v == 0xFFFF_FFFF_FFFF_FFFF then (if q == 0 then Some(NoChange) else None)
      else if q == 0 then None else Some(NotExist)
  }

  /** k steps were wanted and n available. */
  function LimitErr(k: nat, n: nat): Option<Err> {
    if n == 0 then Some(NotExist) else if k > n then Some(ShortLimit(k - n)) else None
  }

  lemma PlanErrOfItems(ms: seq<Migration>, tail: seq<Item>)
    requires tail == [] || (|tail| == 1 && tail[0].Fail?)
    ensures PlanErr(Items(ms) + tail) == if tail == [] then None else Some(tail[0].err)
  {
    var plan := Items(ms) + tail;
    if tail == [] && |ms| > 0 { assert plan[|plan| - 1] == Migr(ms[|ms| - 1]); }
  }

  lemma UpErrIs(src: Source, limit: int, q: nat)
    requires src.Valid() && q <= |src.index| && (limit == -1 || limit > 0)
    ensures var n := |src.index| - q;
            PlanErr(Sends(ReadUpScript(src, At(src, q), limit))) ==
            if limit > 0 then LimitErr(limit, n)
            else if n > 0 then None else Some(if q == 0 then NotExist else NoChange)
  {
    PosOfAt(src, q);
    var n := |src.index| - q;
    UpSends(src, At(src, q), limit);
    PlanErrOfItems(Climb(src, q, Granted(limit, n)), UpError(At(src, q), limit, n));
  }

  lemma DownErrIs(src: Source, limit: int, q: nat)
    requires src.Valid() && q <= |src.index| && (limit == -1 || limit > 0)
    ensures PlanErr(Sends(ReadDownScript(src, At(src, q), limit))) ==
            if limit > 0 then LimitErr(limit, q) else if q > 0 then None else Some(NoChange)
  {
    PosOfAt(src, q);
    ReadDownExact(src, At(src, q), limit);
    PlanErrOfItems(Descend(src, q, Granted(limit, q)), DownError(limit, q));
  }

  lemma GotoErrIs(src: Source, v: nat, q: nat)
    requires src.Valid() && q <= |src.index| && v < UINT_SIZE
    ensures PlanErr(Sends(ReadScript(src, At(src, q), ToInt(v)))) == CommandErr(src, Goto(v), q)
  {
    PosOfAt(src, q);
    var to := ToInt(v);
    if to < NIL_VERSION {
      ReadBelowNil(src, At(src, q), to);
      if q > 0 { PlanErrOfItems(Descend(src, q, q - 1), [Fail(NotExist)]); }
    } else if !Known(src, to) {
      RefusedSends(src, At(src, q), to);
    } else {
      KnownGotoErrIs(src, to, q);
      if to >= 0 { assert FitsInt(src.index, PosOf(src.index, to)); }
      assert At(src, Pos(src, to)) == to;
    }
  }

  lemma KnownGotoErrIs(src: Source, to: int, q: nat)
    requires src.Valid() && q <= |src.index| && Known(src, to)
    ensures PlanErr(Sends(ReadScript(src, At(src, q), to))) == if At(src, q) == to then Some(NoChange) else None
  {
    PosOfAt(src, q);
    ReadExact(src, At(src, q), to);
    var t := Pos(src, to);
    if q < t {
      PlanErrOfItems(Climb(src, q, t - q), []);
      assert Items(Climb(src, q, t - q)) + [] == Items(Climb(src, q, t - q));
    } else if t < q {
      PlanErrOfItems(Descend(src, q, q - t), []);
      assert Items(Descend(src, q, q - t)) + [] == Items(Descend(src, q, q - t));
    }
  }

  /** Every plan made at position q ends with exactly this error, or with none. */
  lemma PlanErrIs(src: Source, cmd: Cmd, q: nat)
    requires src.Valid() && q <= |src.index| && Planned(cmd) && CmdOk(cmd)
    ensures PlanErr(PlanFor(src, cmd, At(src, q))) == CommandErr(src, cmd, q)
  {
    match cmd
    case Goto(v) => GotoErrIs(src, v, q);
    case Steps(k) =>
      if k > 0 {
        UpErrIs(src, k, q);
      } else if k == 0 || k == -MAX_INT - 1 {
        PosOfAt(src, q);
        SilentHeads(At(src, q), if k == 0 then Refuse(NoChange) else []);
        SendsRefuse(NoChange);
      } else {
        DownErrIs(src, -k, q);
      }
    case UpAll => UpErrIs(src, -1, q);
    case DownAll => DownErrIs(src, -1, q);
  }

  lemma UnknownRefused(src: Source, cmd: Cmd, version: int)
    requires src.Valid() && Planned(cmd) && version >= NIL_VERSION && !Known(src, version)
    ensures PlanFor(src, cmd, version) == [Fail(NotExist)]
  {
    match cmd
    case Goto(v) => UnknownVersionRefused(src, version, ToInt(v), -1);
    case Steps(n) =>
      UnknownVersionRefused(src, version, 0, n);
      UnknownVersionRefused(src, version, 0, Negate(n));
    case UpAll => UnknownVersionRefused(src, version, 0, -1);
    case DownAll => UnknownVersionRefused(src, version, 0, -1);
  }

  // ----- paths step by step -----------------------------------------------------------------

  /** ms leads from position q to position t. */
  ghost predicate IsPath(src: Source, q: nat, t: nat, ms: seq<Migration>) {
    && q <= |src.index| && t <= |src.index|
    && if q <= t then |ms| == t - q && UpSteps(src, q, ms) else |ms| == q - t && DownSteps(src, q, ms)
  }

  lemma PathIsPath(src: Source, q: nat, t: nat)
    requires q <= |src.index| && t <= |src.index|
    ensures IsPath(src, q, t, Path(src, q, t))
  {
    var ms := Path(src, q, t);
    if q <= t {
      forall i: nat ensures UpStepAt(src, q, ms, i) {}
    } else {
      forall i: nat ensures DownStepAt(src, q, ms, i) {}
    }
  }

  lemma PathUnique(src: Source, q: nat, t: nat, a: seq<Migration>, b: seq<Migration>)
    requires IsPath(src, q, t, a) && IsPath(src, q, t, b)
    ensures a == b
  {
    forall i | 0 <= i < |a| ensures a[i] == b[i] {
      if q <= t {
        assert UpStepAt(src, q, a, i) && UpStepAt(src, q, b, i);
      } else {
        assert DownStepAt(src, q, a, i) && DownStepAt(src, q, b, i);
      }
    }
  }

  /** Paths in one direction join. */
  lemma PathsJoin(src: Source, q: nat, r: nat, t: nat, a: seq<Migration>, b: seq<Migration>)
    requires IsPath(src, q, r, a) && IsPath(src, r, t, b) && (q <= r <= t || t <= r <= q)
    ensures IsPath(src, q, t, a + b)
  {
    if q <= t { UpsJoin(src, q, r, a, b); }
    if t <= q { DownsJoin(src, q, r, a, b); }
  }

  lemma UpsJoin(src: Source, q: nat, r: nat, a: seq<Migration>, b: seq<Migration>)
    requires r == q + |a| && (a != [] ==> UpSteps(src, q, a)) && (b != [] ==> UpSteps(src, r, b))
    ensures UpSteps(src, q, a + b)
  {
    var ab := a + b;
    forall i: nat ensures UpStepAt(src, q, ab, i) {
      if i < |a| {
        assert UpStepAt(src, q, a, i);
      } else if i < |ab| {
        assert UpStepAt(src, r, b, i - |a|);
      }
    }
  }

  lemma DownsJoin(src: Source, q: nat, r: nat, a: seq<Migration>, b: seq<Migration>)
    requires r == q - |a| && q <= |src.index| && (a != [] ==> DownSteps(src, q, a)) && (b != [] ==> DownSteps(src, r, b))
    ensures DownSteps(src, q, a + b)
  {
    var ab := a + b;
    forall i: nat ensures DownStepAt(src, q, ab, i) {
      if i < |a| {
        assert DownStepAt(src, q, a, i);
      } else if i < |ab| {
        assert DownStepAt(src, r, b, i - |a|);
      }
    }
  }

  ghost predicate CleanAt(src: Source, db: Db, q: nat) {
    q <= |src.index| && !db.dirty && db.version == At(src, q)
  }

  /** Completing a path ends clean at its end. */
  lemma {:induction false} PathLeadsTo(src: Source, db: Db, q: nat, t: nat, ms: seq<Migration>, k: nat)
    requires IsPath(src, q, t, ms) && CleanAt(src, db, q) && k <= |ms|
    ensures CleanAt(src, CompleteFirst(db, ms, k), if q <= t then q + k else q - k)
  {
    if k > 0 {
      PathLeadsTo(src, db, q, t, ms, k - 1);
      if q <= t { assert UpStepAt(src, q, ms, k - 1); } else { assert DownStepAt(src, q, ms, k - 1); }
    }
  }

  // ----- what commands do ---------------------------------------------------------------------

  /** From position q the command plans the path to its target. */
  ghost predicate MovesAt(p: Planning, src: Source, cmd: Cmd, q: nat) {
    q <= |src.index| && Planned(cmd) ==> IsPath(src, q, Target(src, cmd, q), p.migs(cmd, At(src, q)))
  }

  ghost predicate Moves(p: Planning, src: Source) {
    forall cmd, q: nat {:trigger MovesAt(p, src, cmd, q)} :: MovesAt(p, src, cmd, q)
  }

  lemma PlansMove(src: Source)
    requires src.Valid()
    ensures Moves(PlanningOf(src), src)
  {
    var p := PlanningOf(src);
    forall cmd, q: nat ensures MovesAt(p, src, cmd, q) {
      if q <= |src.index| && Planned(cmd) {
        PlanIsPath(src, cmd, q);
        PathIsPath(src, q, Target(src, cmd, q));
      }
    }
  }

  /** What a command does to a clean database when nothing fails and nobody stops it. */
  ghost function FullRun(p: Planning, cmd: Cmd, db: Db): Db {
    var ms := p.migs(cmd, db.version);
    CompleteFirst(db, ms, |ms|)
  }

  lemma Arrives(p: Planning, src: Source, cmd: Cmd, db: Db, q: nat)
    requires Moves(p, src) && Planned(cmd) && CleanAt(src, db, q)
    ensures CleanAt(src, FullRun(p, cmd, db), Target(src, cmd, q))
  {
    var ms := p.migs(cmd, db.version);
    assert MovesAt(p, src, cmd, q);
    PathLeadsTo(src, db, q, Target(src, cmd, q), ms, |ms|);
  }

  /** Absent failure and stop, a command moves the database from position q to its target. */
  lemma CommandMovesTo(src: Source, cmd: Cmd, db: Db, q: nat)
    requires src.Valid() && Planned(cmd) && CleanAt(src, db, q)
    ensures CleanAt(src, FullRun(PlanningOf(src), cmd, db), Target(src, cmd, q))
  {
    PlansMove(src);
    Arrives(PlanningOf(src), src, cmd, db, q);
  }

  /** ab is a followed by b, element by element. */
  ghost predicate Joined(a: seq<Migration>, b: seq<Migration>, ab: seq<Migration>) {
    && |ab| == |a| + |b|
    && (forall i :: 0 <= i < |a| ==> ab[i] == a[i])
    && (forall i :: |a| <= i < |ab| ==> ab[i] == b[i - |a|])
  }

  lemma {:induction false} CompleteJoined(db: Db, a: seq<Migration>, b: seq<Migration>, ab: seq<Migration>, n: nat, m: nat)
    requires Joined(a, b, ab) && n <= |b| && m == |a| + n
    ensures CompleteFirst(CompleteFirst(db, a, |a|), b, n) == CompleteFirst(db, ab, m)
    decreases n
  {
    if n == 0 {
      CompletePrefix(db, a, b, ab, |a|);
    } else {
      CompleteJoined(db, a, b, ab, n - 1, m - 1);
      assert ab[m - 1] == b[n - 1];
    }
  }

  lemma {:induction false} CompletePrefix(db: Db, a: seq<Migration>, b: seq<Migration>, ab: seq<Migration>, n: nat)
    requires Joined(a, b, ab) && n <= |a|
    ensures CompleteFirst(db, ab, n) == CompleteFirst(db, a, n)
  {
    if n > 0 { CompletePrefix(db, a, b, ab, n - 1); }
  }

  /** Two walks in one direction are one. */
  lemma WalkInTwo(src: Source, db: Db, q: nat, r: nat, t: nat, a: seq<Migration>, b: seq<Migration>, ab: seq<Migration>)
    requires IsPath(src, q, r, a) && IsPath(src, r, t, b) && IsPath(src, q, t, ab) && (q <= r <= t || t <= r <= q)
    ensures CompleteFirst(CompleteFirst(db, a, |a|), b, |b|) == CompleteFirst(db, ab, |ab|)
  {
    JoinIs(src, q, r, t, a, b, ab);
    CompleteJoined(db, a, b, ab, |b|, |ab|);
  }

  lemma JoinIs(src: Source, q: nat, r: nat, t: nat, a: seq<Migration>, b: seq<Migration>, ab: seq<Migration>)
    requires IsPath(src, q, r, a) && IsPath(src, r, t, b) && IsPath(src, q, t, ab) && (q <= r <= t || t <= r <= q)
    ensures Joined(a, b, ab)
  {
    PathsJoin(src, q, r, t, a, b);
    PathUnique(src, q, t, a + b, ab);
  }

  lemma AddUp(p: Planning, src: Source, a: int, b: int, db: Db, q: nat)
    requires Moves(p, src) && CleanAt(src, db, q)
    requires -MAX_INT <= a <= MAX_INT && -MAX_INT <= b <= MAX_INT && -MAX_INT <= a + b <= MAX_INT
    requires (a >= 0 && b >= 0) || (a <= 0 && b <= 0)
    ensures FullRun(p, Steps(b), FullRun(p, Steps(a), db)) == FullRun(p, Steps(a + b), db)
  {
    var mid := FullRun(p, Steps(a), db);
    var r := Target(src, Steps(a), q);
    Arrives(p, src, Steps(a), db, q);
    assert MovesAt(p, src, Steps(a), q) && MovesAt(p, src, Steps(b), r) && MovesAt(p, src, Steps(a + b), q);
    WalkInTwo(src, db, q, r, Target(src, Steps(b), r),
              p.migs(Steps(a), db.version), p.migs(Steps(b), mid.version), p.migs(Steps(a + b), db.version));
  }

  /** Steps of the same sign add up: two calls leave the same register and the same journal as
      one call with the sum. */
  lemma StepsAddUp(src: Source, a: int, b: int, db: Db, q: nat)
    requires src.Valid() && CleanAt(src, db, q)
    requires -MAX_INT <= a <= MAX_INT && -MAX_INT <= b <= MAX_INT && -MAX_INT <= a + b <= MAX_INT
    requires (a >= 0 && b >= 0) || (a <= 0 && b <= 0)
    ensures var p := PlanningOf(src);
            FullRun(p, Steps(b), FullRun(p, Steps(a), db)) == FullRun(p, Steps(a + b), db)
  {
    PlansMove(src);
    AddUp(PlanningOf(src), src, a, b, db, q);
  }

  lemma Cancel(p: Planning, src: Source, n: int, db: Db, q: nat)
    requires Moves(p, src) && CleanAt(src, db, q)
    requires -MAX_INT <= n <= MAX_INT && 0 <= q + n <= |src.index|
    ensures CleanAt(src, FullRun(p, Steps(-n), FullRun(p, Steps(n), db)), q)
  {
    Arrives(p, src, Steps(n), db, q);
    Arrives(p, src, Steps(-n), FullRun(p, Steps(n), db), q + n);
  }

  /** Steps moves by n, but not beyond the ends of the index. */
  lemma StepsLandAt(src: Source, n: int, db: Db, q: nat)
    requires src.Valid() && CleanAt(src, db, q) && -MAX_INT <= n <= MAX_INT
    ensures CleanAt(src, FullRun(PlanningOf(src), Steps(n), db),
                    if q + n < 0 then 0 else if q + n > |src.index| then |src.index| else q + n)
  {
    CommandMovesTo(src, Steps(n), db, q);
  }

  /** Steps(n) and then Steps(-n) within the index end where they started. */
  lemma StepsCancel(src: Source, n: int, db: Db, q: nat)
    requires src.Valid() && CleanAt(src, db, q)
    requires -MAX_INT <= n <= MAX_INT && 0 <= q + n <= |src.index|
    ensures var p := PlanningOf(src); CleanAt(src, FullRun(p, Steps(-n), FullRun(p, Steps(n), db)), q)
  {
    PlansMove(src);
    Cancel(PlanningOf(src), src, n, db, q);
  }

  /** Up and Down always end at the top and at the bottom, and Goto ends at its version from
      wherever it starts. */
  lemma AbsoluteCommands(src: Source, db: Db, q: nat, v: nat)
    requires src.Valid() && CleanAt(src, db, q)
    ensures CleanAt(src, FullRun(PlanningOf(src), UpAll, db), |src.index|)
    ensures CleanAt(src, FullRun(PlanningOf(src), DownAll, db), 0)
    ensures v in src.index ==> Known(src, v) && CleanAt(src, FullRun(PlanningOf(src), Goto(v), db), Pos(src, v))
  {
    CommandMovesTo(src, UpAll, db, q);
    CommandMovesTo(src, DownAll, db, q);
    if v in src.index { GotoArrives(src, db, q, v); }
  }

  lemma GotoArrives(src: Source, db: Db, q: nat, v: nat)
    requires src.Valid() && CleanAt(src, db, q) && v in src.index
    ensures Known(src, v) && CleanAt(src, FullRun(PlanningOf(src), Goto(v), db), Pos(src, v))
  {
    assert FitsInt(src.index, PosOf(src.index, v));
    CommandMovesTo(src, Goto(v), db, q);
  }

  /** The cast of the requested version is not harmless: asking for the largest unsigned
      version takes the whole database down. */
  lemma OverflowingGotoGoesDown(src: Source, db: Db, q: nat)
    requires src.Valid() && CleanAt(src, db, q)
    ensures CleanAt(src, FullRun(PlanningOf(src), Goto(UINT_SIZE - 1), db), 0)
  {
    CommandMovesTo(src, Goto(UINT_SIZE - 1), db, q);
  }

  /** Steps with the smallest signed int, which is its own negation, plans nothing and reports
      nothing; every other n moves by n within the index. */
  lemma SmallestStepsDoesNothing(src: Source, q: nat)
    requires src.Valid() && q <= |src.index|
    ensures PlanFor(src, Steps(-MAX_INT - 1), At(src, q)) == []
    ensures Target(src, Steps(-MAX_INT - 1), q) == q
  {
    PosOfAt(src, q);
    SilentHeads(At(src, q), []);
  }

  /** Migrate with a version that is not in the index answers with exactly one not-exist error
      if and only if the version fits a signed int, or the database is at the first version and
      the cast does not yield the nil version. */
  lemma UnknownGotoRefused(src: Source, v: nat, q: nat)
    requires src.Valid() && q <= |src.index| && v < UINT_SIZE && v !in src.index
    ensures PlanFor(src, Goto(v), At(src, q)) == [Fail(NotExist)]
            <==> v <= MAX_INT || (q == 1 && v != UINT_SIZE - 1)
  {
    PosOfAt(src, q);
    UnknownVersionRefused(src, At(src, q), ToInt(v), -1);
  }

  /** The other answers to such a version: nothing at all on an empty database, so that the
      call succeeds silently; elsewhere everything is taken down to the first version. */
  lemma OverflowingGotoPlan(src: Source, v: nat, q: nat)
    requires src.Valid() && q <= |src.index| && MAX_INT < v < UINT_SIZE - 1
    ensures PlanFor(src, Goto(v), At(src, q)) ==
            if q == 0 then [] else Items(Descend(src, q, q - 1)) + [Fail(NotExist)]
  {
    PosOfAt(src, q);
    ReadBelowNil(src, At(src, q), ToInt(v));
  }
}

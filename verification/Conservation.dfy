/** Conservation: starting from an empty database, whatever runs of Migrate, Steps, Up and
    Down happen, with failures at any driver call, the versions that are applied on balance
    are always a prefix of the index, and the register says which. */
module Conservation {
  import opened Types
  import opened VersionIndex
  import opened Planner
  import opened Engine
  import opened System
  import opened Outcome
  import opened Positions

  /** Completed ups of v minus completed downs of v among the first n entries. */
  function Net(j: seq<Event>, n: nat, v: nat): int
    requires n <= |j|
  {
    if n == 0 then 0
    else Net(j, n - 1, v) +
         (if j[n - 1].MarkClean? && j[n - 1].m.version == v then (if j[n - 1].m.IsUp() then 1 else -1) else 0)
  }

  lemma {:induction false} NetPrefix(j: seq<Event>, e: Event, n: nat, v: nat)
    requires n <= |j|
    ensures Net(j + [e], n, v) == Net(j, n, v)
  {
    if n > 0 { NetPrefix(j, e, n - 1, v); }
  }

  /** One more entry. */
  lemma NetSnoc(j: seq<Event>, e: Event, v: nat)
    ensures Net(j + [e], |j| + 1, v) == Net(j, |j|, v) +
            (if e.MarkClean? && e.m.version == v then (if e.m.IsUp() then 1 else -1) else 0)
  {
    NetPrefix(j, e, |j|, v);
  }

  ghost predicate NetIs(src: Source, j: seq<Event>, q: nat, v: nat)
    requires q <= |src.index|
  {
    Net(j, |j|, v) == if v in src.index[..q] then 1 else 0
  }

  /** Exactly the first q indexed versions are applied on balance. */
  ghost predicate Applied(src: Source, j: seq<Event>, q: nat)
    requires q <= |src.index|
  {
    forall v: nat {:trigger NetIs(src, j, q, v)} :: NetIs(src, j, q, v)
  }

  /** The position of the last dirty mark among the first n entries, or -1. */
  function LastMark(j: seq<Event>, n: nat): (i: int)
    requires n <= |j|
    ensures -1 <= i < n && (i >= 0 ==> j[i].MarkDirty?)
    ensures forall k :: i < k < n ==> !j[k].MarkDirty?
  {
    if n == 0 then -1 else if j[n - 1].MarkDirty? then n - 1 else LastMark(j, n - 1)
  }

  /** A migration from position q was begun and has not completed: it is the last one marked,
      the register holds its target, and nothing but its body came after the mark. */
  ghost predicate Pending(src: Source, db: Db, q: nat)
    requires q <= |src.index|
  {
    var i := LastMark(db.journal, |db.journal|);
    && i >= 0 && db.version == db.journal[i].m.target
    && ((q < |src.index| && db.journal[i].m == UpStep(src, q)) || (q > 0 && db.journal[i].m == DownStep(src, q)))
    && forall k :: i < k < |db.journal| ==> db.journal[k].RanBody?
  }

  /** The register agrees: clean, it names the last applied version; dirty, the target of the
      migration from there that did not complete. */
  ghost predicate LawfulAt(src: Source, db: Db, q: nat) {
    && q <= |src.index| && Applied(src, db.journal, q)
    && if !db.dirty then db.version == At(src, q) else Pending(src, db, q)
  }

  lemma KeepsApplied(src: Source, j: seq<Event>, e: Event, q: nat)
    requires q <= |src.index| && Applied(src, j, q) && !e.MarkClean?
    ensures Applied(src, j + [e], q)
  {
    var j' := j + [e];
    forall v: nat ensures NetIs(src, j', q, v) {
      assert NetIs(src, j, q, v);
      NetSnoc(j, e, v);
    }
  }

  lemma UpApplies(src: Source, j: seq<Event>, q: nat)
    requires src.Valid() && q < |src.index| && Applied(src, j, q)
    ensures Applied(src, j + [MarkClean(UpStep(src, q))], q + 1)
  {
    OrderedIsIncreasing(src.index);
    var e := MarkClean(UpStep(src, q));
    assert src.index[..q + 1] == src.index[..q] + [src.index[q]];
    assert src.index[q] !in src.index[..q];
    var j', q' := j + [e], q + 1;
    forall v: nat ensures NetIs(src, j', q', v) {
      assert NetIs(src, j, q, v);
      NetSnoc(j, e, v);
    }
  }

  lemma DownUnapplies(src: Source, j: seq<Event>, q: nat)
    requires src.Valid() && 0 < q <= |src.index| && Applied(src, j, q)
    ensures Applied(src, j + [MarkClean(DownStep(src, q))], q - 1)
  {
    OrderedIsIncreasing(src.index);
    var e := MarkClean(DownStep(src, q));
    assert src.index[..q] == src.index[..q - 1] + [src.index[q - 1]];
    assert src.index[q - 1] !in src.index[..q - 1];
    assert InOrder(src.index, q - 2, q - 1);
    assert !e.m.IsUp();
    var j', q' := j + [e], q - 1;
    forall v: nat ensures NetIs(src, j', q', v) {
      assert NetIs(src, j, q, v);
      NetSnoc(j, e, v);
    }
  }

  /** The journal of a migration up to, but not including, its clean mark. */
  lemma PendingKeepsApplied(src: Source, db: Db, m: Migration, q: nat)
    requires q <= |src.index| && Applied(src, db.journal, q)
    ensures Applied(src, Begin(db, m).journal, q)
    ensures forall ok :: Applied(src, RunBody(Begin(db, m), m, ok).journal, q)
  {
    KeepsApplied(src, db.journal, MarkDirty(m), q);
    forall ok ensures Applied(src, RunBody(Begin(db, m), m, ok).journal, q) {
      KeepsApplied(src, Begin(db, m).journal, RanBody(m, ok), q);
    }
  }

  /** A migration that was begun from a clean database at position q is pending. */
  lemma BegunIsPending(src: Source, db: Db, m: Migration, q: nat)
    requires q <= |src.index| && Applied(src, db.journal, q)
    requires (q < |src.index| && m == UpStep(src, q)) || (q > 0 && m == DownStep(src, q))
    ensures LawfulAt(src, Begin(db, m), q)
    ensures forall ok :: LawfulAt(src, RunBody(Begin(db, m), m, ok), q)
  {
    PendingKeepsApplied(src, db, m, q);
    forall ok ensures LawfulAt(src, RunBody(Begin(db, m), m, ok), q) {
      var j := RunBody(Begin(db, m), m, ok).journal;
      assert LastMark(j, |j| - 1) == |j| - 2;
    }
  }

  lemma CompleteUp(src: Source, db: Db, q: nat)
    requires src.Valid() && q < |src.index| && LawfulAt(src, db, q)
    ensures LawfulAt(src, Complete(db, UpStep(src, q)), q + 1)
  {
    var m := UpStep(src, q);
    PendingKeepsApplied(src, db, m, q);
    var pending := if m.body.Some? then RunBody(Begin(db, m), m, true) else Begin(db, m);
    UpApplies(src, pending.journal, q);
  }

  lemma CompleteDown(src: Source, db: Db, q: nat)
    requires src.Valid() && 0 < q <= |src.index| && LawfulAt(src, db, q)
    ensures LawfulAt(src, Complete(db, DownStep(src, q)), q - 1)
  {
    var m := DownStep(src, q);
    PendingKeepsApplied(src, db, m, q);
    var pending := if m.body.Some? then RunBody(Begin(db, m), m, true) else Begin(db, m);
    DownUnapplies(src, pending.journal, q);
  }

  /** The position after k steps of a path. */
  function After(q: nat, t: nat, k: nat): int {
    if q <= t then q + k else q - k
  }

  /** The next step of a path, from the position it has reached. */
  lemma PathStep(src: Source, q: nat, t: nat, ms: seq<Migration>, k: nat)
    requires IsPath(src, q, t, ms) && k < |ms|
    ensures var r := After(q, t, k);
            if q <= t then 0 <= r < |src.index| && ms[k] == UpStep(src, r)
            else 0 < r <= |src.index| && ms[k] == DownStep(src, r)
  {
    if q <= t { assert UpStepAt(src, q, ms, k); } else { assert DownStepAt(src, q, ms, k); }
  }

  lemma {:induction false} CompletePath(src: Source, db: Db, q: nat, t: nat, ms: seq<Migration>, k: nat)
    requires src.Valid() && LawfulAt(src, db, q) && !db.dirty && IsPath(src, q, t, ms) && k <= |ms|
    ensures var db' := CompleteFirst(db, ms, k);
            !db'.dirty && After(q, t, k) >= 0 && LawfulAt(src, db', After(q, t, k))
  {
    if k > 0 {
      CompletePath(src, db, q, t, ms, k - 1);
      PathStep(src, q, t, ms, k - 1);
      var before := CompleteFirst(db, ms, k - 1);
      if q <= t { CompleteUp(src, before, q + k - 1); } else { CompleteDown(src, before, q - k + 1); }
    }
  }

  /** Any progress through a path, complete or not, is lawful. */
  lemma EffectLawful(src: Source, db: Db, q: nat, t: nat, ms: seq<Migration>, pr: Progress) returns (q': nat)
    requires src.Valid() && LawfulAt(src, db, q) && !db.dirty && IsPath(src, q, t, ms) && ValidProgress(ms, pr)
    ensures LawfulAt(src, Effect(db, ms, pr), q')
  {
    CompletePath(src, db, q, t, ms, pr.done);
    q' := After(q, t, pr.done);
    if !pr.stage.Untouched? {
      PathStep(src, q, t, ms, pr.done);
      BegunIsPending(src, CompleteFirst(db, ms, pr.done), ms[pr.done], q');
    }
  }

  lemma RecordLawful(p: Planning, src: Source, db: Db, rec: Record, q: nat) returns (q': nat)
    requires Moves(p, src) && src.Valid() && LawfulAt(src, db, q) && Planned(rec.cmd)
    requires ValidRecord(p, db, rec)
    ensures LawfulAt(src, RecordEffect(p, db, rec), q')
  {
    q' := q;
    if rec.pr != NO_PROGRESS {
      assert MovesAt(p, src, rec.cmd, q);
      q' := EffectLawful(src, db, q, Target(src, rec.cmd, q), p.migs(rec.cmd, db.version), rec.pr);
    }
  }

  const EMPTY := Db(NIL_VERSION, false, [])

  lemma EmptyLawful(src: Source)
    ensures LawfulAt(src, EMPTY, 0)
  {
    forall v: nat ensures NetIs(src, [], 0, v) {}
  }

  lemma {:induction false} ReplayLawful(p: Planning, src: Source, h: seq<Record>, n: nat) returns (q: nat)
    requires Moves(p, src) && src.Valid() && ValidHistory(p, EMPTY, h) && n <= |h|
    requires forall k :: 0 <= k < n ==> Planned(h[k].cmd)
    ensures LawfulAt(src, ReplayFirst(p, EMPTY, h, n), q)
  {
    if n == 0 {
      q := 0;
      EmptyLawful(src);
    } else {
      q := ReplayLawful(p, src, h, n - 1);
      assert ValidAt(p, EMPTY, h, n - 1);
      q := RecordLawful(p, src, ReplayFirst(p, EMPTY, h, n - 1), h[n - 1], q);
    }
  }

  lemma ReachableLawful(src: Source, s: State, actions: seq<Action>, s': State) returns (q: nat)
    requires src.Valid() && Reaches(PlanningOf(src), s, actions, s') && s.origin == EMPTY
    requires forall c :: c in s'.calls ==> Planned(s'.calls[c].cmd)
    ensures LawfulAt(src, s'.db, q)
  {
    ReachableInv(src, s, actions, s');
    PlansMove(src);
    q := StateLawful(PlanningOf(src), src, s');
  }

  lemma StateLawful(p: Planning, src: Source, s: State) returns (q: nat)
    requires Moves(p, src) && src.Valid() && AllInv(p, s) && s.origin == EMPTY
    requires forall c :: c in s.calls ==> Planned(s.calls[c].cmd)
    ensures LawfulAt(src, s.db, q)
  {
    forall k | 0 <= k < |s.history| ensures Planned(s.history[k].cmd) {
      assert OutcomeAt(s, k);
    }
    q := ReplayLawful(p, src, s.history, |s.history|);
  }

  /** The net counts of the versions: each 0 or 1, and 1 exactly for the first q of the index. */
  ghost predicate NetPrefixIs(src: Source, j: seq<Event>, q: nat)
    requires q <= |src.index|
  {
    forall v: nat :: Net(j, |j|, v) == if v in src.index[..q] then 1 else 0
  }

  /** When clean: the versions with net count 1 are exactly the indexed ones at or below the
      stored version. */
  ghost predicate CleanLaw(src: Source, db: Db, q: nat)
    requires q <= |src.index|
  {
    && db.version == At(src, q)
    && forall v: nat :: Net(db.journal, |db.journal|, v) == 1 <==> v in src.index && v <= db.version
  }

  /** When dirty: the last migration marked is a step from position q and the register holds its
      target; the net counts are those from just before it was marked. */
  ghost predicate DirtyLaw(src: Source, db: Db, q: nat)
    requires q <= |src.index|
  {
    var j, i := db.journal, LastMark(db.journal, |db.journal|);
    && i >= 0 && db.version == j[i].m.target
    && ((q < |src.index| && j[i].m == UpStep(src, q)) || (q > 0 && j[i].m == DownStep(src, q)))
    && forall v: nat :: Net(j, i, v) == Net(j, |j|, v)
  }

  /** In every reachable state of any number of instances whose calls are Migrate, Steps, Up
      and Down, starting from an empty database: the net count of every version is 0 or 1, it is 1
      exactly for a prefix of the index, a clean register names the last version of that prefix,
      and when dirty the prefix is the one that held just before the failed migration. */
  lemma AlwaysConserved(src: Source, s: State, actions: seq<Action>, s': State) returns (q: nat)
    requires src.Valid() && Reaches(PlanningOf(src), s, actions, s') && s.origin == EMPTY
    requires forall c :: c in s'.calls ==> Planned(s'.calls[c].cmd)
    ensures q <= |src.index| && NetPrefixIs(src, s'.db.journal, q)
    ensures if s'.db.dirty then DirtyLaw(src, s'.db, q) else CleanLaw(src, s'.db, q)
  {
    q := ReachableLawful(src, s, actions, s');
    LawfulMeans(src, s'.db, q);
  }

  lemma LawfulMeans(src: Source, db: Db, q: nat)
    requires src.Valid() && LawfulAt(src, db, q)
    ensures NetPrefixIs(src, db.journal, q)
    ensures if db.dirty then DirtyLaw(src, db, q) else CleanLaw(src, db, q)
  {
    var j := db.journal;
    forall v: nat ensures Net(j, |j|, v) == if v in src.index[..q] then 1 else 0 {
      assert NetIs(src, j, q, v);
    }
    if db.dirty {
      var i := LastMark(j, |j|);
      forall v: nat ensures Net(j, i, v) == Net(j, |j|, v) { BodiesKeepNet(j, i, |j|, v); }
    } else {
      PrefixIsBelow(src, q);
    }
  }

  lemma {:induction false} BodiesKeepNet(j: seq<Event>, i: nat, n: nat, v: nat)
    requires i <= n <= |j| && forall k :: i <= k < n ==> !j[k].MarkClean?
    ensures Net(j, i, v) == Net(j, n, v)
  {
    if i < n { BodiesKeepNet(j, i, n - 1, v); }
  }

  lemma PrefixIsBelow(src: Source, q: nat)
    requires src.Valid() && q <= |src.index|
    ensures forall v: nat :: v in src.index[..q] <==> v in src.index && v <= At(src, q)
  {
    OrderedIsIncreasing(src.index);
    forall v: nat ensures v in src.index[..q] <==> v in src.index && v <= At(src, q) {
      if v in src.index && v <= At(src, q) {
        var i :| 0 <= i < |src.index| && src.index[i] == v;
        assert src.index[..q][i] == v;
      }
    }
  }
}

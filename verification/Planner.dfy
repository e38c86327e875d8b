/** The three planner loops of migrate.go (read, readUp, readDown): closed-form plans over
    positions in the version index, and the loops proved to produce exactly those plans. */
module Planner {
  import opened Types
  import opened VersionIndex

  // ----- positions -----------------------------------------------------------
  // Position 0 is the nil version; position p is the p-th indexed version.

  ghost predicate Known(src: Source, v: int) {
    v == NIL_VERSION || (v >= 0 && v in src.index)
  }

  ghost function Pos(src: Source, v: int): (p: nat)
    requires Known(src, v)
    ensures p <= |src.index|
    ensures At(src, p) == v
  {
    if v == NIL_VERSION then 0 else PosOf(src.index, v) + 1
  }

  ghost function At(src: Source, p: nat): (v: int)
    requires p <= |src.index|
  {
    if p == 0 then NIL_VERSION else src.index[p - 1]
  }

  lemma PosOfAt(src: Source, p: nat)
    requires src.Valid() && p <= |src.index|
    ensures Known(src, At(src, p)) && Pos(src, At(src, p)) == p
  {
    if p > 0 { PosAt(src.index, p - 1); }
  }

  lemma PosMonotone(src: Source, v: int, w: int)
    requires src.Valid() && Known(src, v) && Known(src, w)
    ensures v < w <==> Pos(src, v) < Pos(src, w)
  {
    OrderedIsIncreasing(src.index);
    assert At(src, Pos(src, v)) == v && At(src, Pos(src, w)) == w;
  }

  ghost function UpStep(src: Source, p: nat): Migration
    requires p < |src.index|
  {
    Migration(src.index[p], src.index[p], Body(src.store, src.index[p], Up))
  }

  ghost function DownStep(src: Source, p: nat): Migration
    requires 0 < p <= |src.index|
  {
    Migration(src.index[p - 1], At(src, p - 1), Body(src.store, src.index[p - 1], Down))
  }

  /** The n up migrations that lead from position p to p + n. */
  ghost function Climb(src: Source, p: nat, n: nat): (ms: seq<Migration>)
    requires p + n <= |src.index|
    ensures |ms| == n
    ensures forall i :: 0 <= i < n ==> ms[i] == UpStep(src, p + i)
  {
    seq(n, i requires 0 <= i < n => UpStep(src, p + i))
  }

  /** The n down migrations that lead from position p to p - n. */
  ghost function Descend(src: Source, p: nat, n: nat): (ms: seq<Migration>)
    requires n <= p <= |src.index|
    ensures |ms| == n
    ensures forall i :: 0 <= i < n ==> ms[i] == DownStep(src, p - i)
  {
    seq(n, i requires 0 <= i < n => DownStep(src, p - i))
  }

  // ----- scripts: what a planner goroutine does, operation by operation --------

  /** The first n migrations, each sent after a poll and a look at the source. */
  ghost function PollFirst(ms: seq<Migration>, n: nat): seq<Op>
    requires n <= |ms|
  {
    if n == 0 then [] else PollFirst(ms, n - 1) + [Poll, Look, Send(Migr(ms[n - 1]))]
  }

  ghost function PollEach(ms: seq<Migration>): seq<Op> {
    PollFirst(ms, |ms|)
  }

  ghost function SendEach(ms: seq<Migration>): seq<Op> {
    seq(|ms|, i requires 0 <= i < |ms| => Send(Migr(ms[i])))
  }

  ghost function Refuse(e: Err): seq<Op> { [Send(Fail(e))] }

  /** versionExists looks at the source, for every version but the nil one. */
  ghost function Check(v: int): seq<Op> {
    if v >= 0 then [Look] else []
  }

  /** How many migrations a limit lets through when n are available; -1 is no limit. */
  ghost function Granted(limit: int, n: nat): nat
    requires limit >= -1
  {
    if limit == -1 || limit > n then n else limit
  }

  /** What readUp does after its last migration: nothing when the limit was met, otherwise one
      more poll and look and, unless an unlimited run made progress, an error. */
  ghost function UpTail(from: int, limit: int, n: nat): seq<Op>
    requires limit == -1 || limit > 0
  {
    if limit == -1 then
      [Poll, Look] + (if n > 0 then [] else Refuse(if from == NIL_VERSION then NotExist else NoChange))
    else if limit <= n then []
    else [Poll, Look] + Refuse(if n == 0 then NotExist else ShortLimit(limit - n))
  }

  ghost function UpScript(src: Source, from: int, limit: int): seq<Op>
    requires from >= NIL_VERSION
  {
    if !Known(src, from) then Refuse(NotExist)
    else if limit == 0 then Refuse(NoChange)
    else if limit < -1 then []
    else
      var p := Pos(src, from);
      var n := |src.index| - p;
      PollEach(Climb(src, p, Granted(limit, n))) + UpTail(from, limit, n)
  }

  ghost function ReadUpScript(src: Source, from: int, limit: int): seq<Op>
    requires from >= NIL_VERSION
  {
    Check(from) + UpScript(src, from, limit)
  }

  ghost function DownTail(limit: int, p: nat): seq<Op>
    requires limit == -1 || limit > 0
  {
    if limit > p then Refuse(ShortLimit(limit - p)) else []
  }

  ghost function DownScript(src: Source, from: int, limit: int): seq<Op>
    requires from >= NIL_VERSION
  {
    if !Known(src, from) then Refuse(NotExist)
    else if limit == 0 then Refuse(NoChange)
    else if limit < -1 then []
    else if from == NIL_VERSION then Refuse(if limit == -1 then NoChange else NotExist)
    else
      var p := Pos(src, from);
      PollEach(Descend(src, p, Granted(limit, p))) + DownTail(limit, p)
  }

  ghost function ReadDownScript(src: Source, from: int, limit: int): seq<Op>
    requires from >= NIL_VERSION
  {
    Check(from) + DownScript(src, from, limit)
  }

  /** Where a descent towards `to` ends. Targets below -1 only arise when the requested
      version overflows a signed int; the descent then fails at the first version. */
  ghost function Floor(src: Source, to: int): nat
    requires to < NIL_VERSION || Known(src, to)
  {
    if to < NIL_VERSION then 1 else Pos(src, to)
  }

  ghost function FloorTail(to: int): seq<Op> {
    if to < NIL_VERSION then [Poll, Look] + Refuse(NotExist) else []
  }

  /** read once both ends were found to exist. */
  ghost function Between(src: Source, from: int, to: int): seq<Op>
    requires src.Valid() && Known(src, from) && (to < NIL_VERSION || Known(src, to))
  {
    if from == to then Refuse(NoChange)
    else if to < from && from == NIL_VERSION then []
    else
      var p := Pos(src, from);
      if to < from then
        FloorBelow(src, from, to);
        PollEach(Descend(src, p, p - Floor(src, to))) + FloorTail(to)
      else
        var q := Pos(src, to);
        PosMonotone(src, from, to);
        if from == NIL_VERSION then
          [Look, Send(Migr(UpStep(src, 0)))] + PollEach(Climb(src, 1, q - 1))
        else PollEach(Climb(src, p, q - p))
  }

  ghost function ReadScript(src: Source, from: int, to: int): seq<Op>
    requires src.Valid() && from >= NIL_VERSION
  {
    Check(from) +
    if !Known(src, from) then Refuse(NotExist)
    else Check(to) +
         if to >= 0 && !Known(src, to) then Refuse(NotExist) else Between(src, from, to)
  }

  lemma FloorBelow(src: Source, from: int, to: int)
    requires src.Valid() && from >= 0 && Known(src, from) && to < from
    requires to < NIL_VERSION || Known(src, to)
    ensures Floor(src, to) <= Pos(src, from)
    ensures to >= NIL_VERSION ==> Floor(src, to) < Pos(src, from)
  {
    if to >= NIL_VERSION { PosMonotone(src, to, from); }
  }

  // ----- the plan is what the script sends -----------------------------------

  function SendsOfFirst(ops: seq<Op>, n: nat): seq<Item>
    requires n <= |ops|
  {
    if n == 0 then []
    else if ops[n - 1].Send? then SendsOfFirst(ops, n - 1) + [ops[n - 1].item]
    else SendsOfFirst(ops, n - 1)
  }

  function Sends(ops: seq<Op>): seq<Item> {
    SendsOfFirst(ops, |ops|)
  }

  ghost function Items(ms: seq<Migration>): (items: seq<Item>)
    ensures |items| == |ms| && forall i :: 0 <= i < |ms| ==> items[i] == Migr(ms[i])
  {
    seq(|ms|, i requires 0 <= i < |ms| => Migr(ms[i]))
  }

  lemma {:induction false} FirstOfConcat(a: seq<Op>, b: seq<Op>, n: nat)
    requires n <= |a|
    ensures SendsOfFirst(a + b, n) == SendsOfFirst(a, n)
  {
    if n > 0 { FirstOfConcat(a, b, n - 1); }
  }

  lemma {:induction false} ConcatUpTo(a: seq<Op>, b: seq<Op>, n: nat)
    requires n <= |b|
    ensures SendsOfFirst(a + b, |a| + n) == Sends(a) + SendsOfFirst(b, n)
  {
    if n == 0 {
      FirstOfConcat(a, b, |a|);
    } else {
      ConcatUpTo(a, b, n - 1);
      assert (a + b)[|a| + n - 1] == b[n - 1];
    }
  }

  lemma SendsConcat(a: seq<Op>, b: seq<Op>)
    ensures Sends(a + b) == Sends(a) + Sends(b)
  {
    ConcatUpTo(a, b, |b|);
  }

  lemma OneOp(op: Op)
    ensures Sends([op]) == if op.Send? then [op.item] else []
  {
    assert SendsOfFirst([op], 0) == [];
  }

  /** Polls and looks send nothing. */
  lemma SilentHeads(v: int, tail: seq<Op>)
    ensures Sends(Check(v) + tail) == Sends(tail)
    ensures Sends([Poll, Look] + tail) == Sends(tail)
  {
    OneOp(Poll);
    OneOp(Look);
    SendsConcat([Poll], [Look]);
    assert [Poll] + [Look] == [Poll, Look];
    SendsConcat([Poll, Look], tail);
    SendsConcat(Check(v), tail);
  }

  lemma {:induction false} SendsPollFirst(ms: seq<Migration>, n: nat)
    requires n <= |ms|
    ensures Sends(PollFirst(ms, n)) == Items(ms)[..n]
  {
    if n > 0 {
      SendsPollFirst(ms, n - 1);
      var send := Send(Migr(ms[n - 1]));
      SilentHeads(0, [send]);
      assert [Poll, Look] + [send] == [Poll, Look, send];
      OneOp(send);
      SendsConcat(PollFirst(ms, n - 1), [Poll, Look, send]);
      assert Items(ms)[..n] == Items(ms)[..n - 1] + [Migr(ms[n - 1])];
    }
  }

  lemma SendsPollEach(ms: seq<Migration>)
    ensures Sends(PollEach(ms)) == Items(ms)
  {
    SendsPollFirst(ms, |ms|);
    assert Items(ms)[..|ms|] == Items(ms);
  }

  lemma BatchSends(ms: seq<Migration>, tail: seq<Op>)
    ensures Sends(PollEach(ms) + tail) == Items(ms) + Sends(tail)
  {
    SendsPollEach(ms);
    SendsConcat(PollEach(ms), tail);
  }

  lemma {:induction false} SendsSendEach(ms: seq<Migration>, n: nat)
    requires n <= |ms|
    ensures SendsOfFirst(SendEach(ms), n) == Items(ms)[..n]
  {
    if n > 0 {
      SendsSendEach(ms, n - 1);
      assert Items(ms)[..n] == Items(ms)[..n - 1] + [Migr(ms[n - 1])];
    }
  }

  lemma SendsRefuse(e: Err)
    ensures Sends(Refuse(e)) == [Fail(e)]
    ensures Sends([Poll, Look] + Refuse(e)) == [Fail(e)]
  {
    OneOp(Send(Fail(e)));
    SilentHeads(0, Refuse(e));
  }

  // ----- exactness of the plans ----------------------------------------------

  /** The error after the ups when n were available: short-limit, or not-exist or no-change when
      there was nothing to do. */
  ghost function UpError(from: int, limit: int, n: nat): seq<Item> {
    if n == 0 then [Fail(if limit == -1 && from >= 0 then NoChange else NotExist)]
    else if limit > n then [Fail(ShortLimit(limit - n))] else []
  }

  /** readUp with k steps wanted and n available: min(k, n) ups in order, then nothing,
      a short-limit error, or not-exist; unlimited: all n. */
  lemma ReadUpExact(src: Source, from: int, limit: int)
    requires Known(src, from) && (limit == -1 || limit > 0)
    ensures var p := Pos(src, from); var n := |src.index| - p;
            Sends(ReadUpScript(src, from, limit)) ==
              Items(Climb(src, p, if limit == -1 || limit > n then n else limit))
              + (if n == 0 then [Fail(if limit == -1 && from >= 0 then NoChange else NotExist)]
                 else if limit > n then [Fail(ShortLimit(limit - n))] else [])
  {
    UpSends(src, from, limit);
  }

  lemma UpSends(src: Source, from: int, limit: int)
    requires Known(src, from) && (limit == -1 || limit > 0)
    ensures var p := Pos(src, from); var n := |src.index| - p;
            Sends(ReadUpScript(src, from, limit)) == Items(Climb(src, p, Granted(limit, n))) + UpError(from, limit, n)
  {
    var p := Pos(src, from);
    var n := |src.index| - p;
    SilentHeads(from, UpScript(src, from, limit));
    UpRoundsSend(Climb(src, p, Granted(limit, n)), from, limit, n);
  }

  lemma UpRoundsSend(ms: seq<Migration>, from: int, limit: int, n: nat)
    requires (limit == -1 || limit > 0) && from >= NIL_VERSION
    ensures Sends(PollEach(ms) + UpTail(from, limit, n)) == Items(ms) + UpError(from, limit, n)
  {
    BatchSends(ms, UpTail(from, limit, n));
    UpTailSends(from, limit, n);
  }

  lemma UpTailSends(from: int, limit: int, n: nat)
    requires (limit == -1 || limit > 0) && from >= NIL_VERSION
    ensures Sends(UpTail(from, limit, n)) == UpError(from, limit, n)
  {
    if n == 0 {
      SendsRefuse(if limit == -1 && from >= 0 then NoChange else NotExist);
    } else if limit > n {
      SendsRefuse(ShortLimit(limit - n));
    } else if limit == -1 {
      SilentHeads(0, []);
    }
  }

  ghost function DownError(limit: int, p: nat): seq<Item> {
    if p == 0 then [Fail(if limit == -1 then NoChange else NotExist)]
    else if limit > p then [Fail(ShortLimit(limit - p))] else []
  }

  /** readDown with k steps wanted and p available. */
  lemma ReadDownExact(src: Source, from: int, limit: int)
    requires Known(src, from) && (limit == -1 || limit > 0)
    ensures var p := Pos(src, from);
            Sends(ReadDownScript(src, from, limit)) ==
              Items(Descend(src, p, if limit == -1 || limit > p then p else limit))
              + (if p == 0 then [Fail(if limit == -1 then NoChange else NotExist)]
                 else if limit > p then [Fail(ShortLimit(limit - p))] else [])
  {
    var p := Pos(src, from);
    var ms := Descend(src, p, Granted(limit, p));
    SilentHeads(from, DownScript(src, from, limit));
    if p == 0 {
      SendsRefuse(if limit == -1 then NoChange else NotExist);
    } else {
      BatchSends(ms, DownTail(limit, p));
      if limit > p { SendsRefuse(ShortLimit(limit - p)); }
    }
  }

  /** Once both ends exist, read sends what lies between them. */
  lemma ReadSends(src: Source, from: int, to: int)
    requires src.Valid() && Known(src, from) && (to < NIL_VERSION || Known(src, to))
    ensures Sends(ReadScript(src, from, to)) == Sends(Between(src, from, to))
  {
    SilentHeads(to, Between(src, from, to));
    SilentHeads(from, Check(to) + Between(src, from, to));
  }

  /** read between known versions: exactly the ups of (from, to] ascending, or the downs
      from `from` ending at `to`. */
  lemma ReadExact(src: Source, from: int, to: int)
    requires src.Valid() && Known(src, from) && Known(src, to)
    ensures var p, q := Pos(src, from), Pos(src, to);
            Sends(ReadScript(src, from, to)) ==
              if p < q then Items(Climb(src, p, q - p))
              else if q < p then Items(Descend(src, p, p - q))
              else [Fail(NoChange)]
  {
    var p, q := Pos(src, from), Pos(src, to);
    PosMonotone(src, from, to);
    PosMonotone(src, to, from);
    ReadSends(src, from, to);
    if p < q && from == NIL_VERSION {
      FirstThenRest(src, q);
    } else if p < q {
      assert Between(src, from, to) == PollEach(Climb(src, p, q - p));
      SendsPollEach(Climb(src, p, q - p));
    } else if q < p {
      assert Between(src, from, to) == PollEach(Descend(src, p, p - q)) + [];
      BatchNoTail(Descend(src, p, p - q));
    } else {
      assert Between(src, from, to) == Refuse(NoChange);
      SendsRefuse(NoChange);
    }
  }

  lemma BatchNoTail(ms: seq<Migration>)
    ensures Sends(PollEach(ms) + []) == Items(ms)
  {
    assert PollEach(ms) + [] == PollEach(ms);
    SendsPollEach(ms);
  }

  /** The first migration of an empty database goes out before the first poll. */
  lemma FirstThenRest(src: Source, q: nat)
    requires 0 < q <= |src.index|
    ensures Sends([Look, Send(Migr(UpStep(src, 0)))] + PollEach(Climb(src, 1, q - 1))) == Items(Climb(src, 0, q))
  {
    var first, rest := Send(Migr(UpStep(src, 0))), Climb(src, 1, q - 1);
    SendsConcat([Look, first], PollEach(rest));
    SendsPollEach(rest);
    SilentHeads(0, [first]);
    assert [Look] + [first] == [Look, first];
    OneOp(first);
    assert Items(Climb(src, 0, q)) == [first.item] + Items(rest);
  }

  /** A target below the nil version, left by the cast of an overflowing request: everything
      down to the first version, which is then not to be found below. */
  lemma ReadBelowNil(src: Source, from: int, to: int)
    requires src.Valid() && Known(src, from) && to < NIL_VERSION
    ensures var p := Pos(src, from);
            Sends(ReadScript(src, from, to)) ==
              if p == 0 then [] else Items(Descend(src, p, p - 1)) + [Fail(NotExist)]
  {
    ReadSends(src, from, to);
    if from != NIL_VERSION {
      var p := Pos(src, from);
      BatchSends(Descend(src, p, p - 1), FloorTail(to));
      SendsRefuse(NotExist);
    }
  }

  lemma RefusedSends(src: Source, from: int, to: int)
    requires src.Valid() && from >= NIL_VERSION && (!Known(src, from) || (to >= 0 && !Known(src, to)))
    ensures Sends(ReadScript(src, from, to)) == [Fail(NotExist)]
  {
    SendsRefuse(NotExist);
    if !Known(src, from) {
      SilentHeads(from, Refuse(NotExist));
    } else {
      SilentHeads(to, Refuse(NotExist));
      SilentHeads(from, Check(to) + Refuse(NotExist));
    }
  }

  /** An unknown version yields one not-exist error and no migration, in every planner. For
      read this is exactly when it happens, but for one case: a target below the nil version
      asked for at the first version. */
  lemma UnknownVersionRefused(src: Source, from: int, to: int, limit: int)
    requires src.Valid() && from >= NIL_VERSION
    ensures !Known(src, from) ==>
              Sends(ReadUpScript(src, from, limit)) == Sends(ReadDownScript(src, from, limit)) == [Fail(NotExist)]
    ensures Sends(ReadScript(src, from, to)) == [Fail(NotExist)] <==>
              || !Known(src, from)
              || (to >= 0 && !Known(src, to))
              || (to < NIL_VERSION && Pos(src, from) == 1)
  {
    if !Known(src, from) {
      SendsRefuse(NotExist);
      SilentHeads(from, Refuse(NotExist));
    }
    if !Known(src, from) || (to >= 0 && !Known(src, to)) {
      RefusedSends(src, from, to);
    } else {
      KnownNotRefused(src, from, to);
    }
  }

  lemma KnownNotRefused(src: Source, from: int, to: int)
    requires src.Valid() && Known(src, from) && (to < NIL_VERSION || Known(src, to))
    ensures Sends(ReadScript(src, from, to)) == [Fail(NotExist)] <==> to < NIL_VERSION && Pos(src, from) == 1
  {
    var p := Pos(src, from);
    if to < NIL_VERSION {
      ReadBelowNil(src, from, to);
      assert p > 1 ==> Items(Descend(src, p, p - 1))[0].Migr?;
    } else {
      var q := Pos(src, to);
      ReadExact(src, from, to);
      assert p < q ==> Items(Climb(src, p, q - p))[0].Migr?;
      assert q < p ==> Items(Descend(src, p, p - q))[0].Migr?;
    }
  }

  /** The versions a climb applies are exactly the indexed ones above `from` and up to `to`,
      in increasing order; a descent undoes exactly those, each back to its predecessor. */
  lemma PlanCoversInterval(src: Source, p: nat, q: nat, v: nat)
    requires src.Valid() && p <= q <= |src.index|
    ensures (exists m :: m in Climb(src, p, q - p) && m.version == v)
            <==> v in src.index && At(src, p) < v <= At(src, q)
    ensures (exists m :: m in Descend(src, q, q - p) && m.version == v)
            <==> v in src.index && At(src, p) < v <= At(src, q)
  {
    var up, down := Climb(src, p, q - p), Descend(src, q, q - p);
    if v in src.index && At(src, p) < v <= At(src, q) {
      var k := PositionBetween(src, p, q, v);
      assert up[k - p].version == v;
      assert down[q - 1 - k].version == v;
    }
    if m :| m in up && m.version == v {
      var i :| 0 <= i < |up| && up[i] == m;
      BetweenPositions(src, p, q, p + i);
    }
    if m :| m in down && m.version == v {
      var i :| 0 <= i < |down| && down[i] == m;
      BetweenPositions(src, p, q, q - i - 1);
    }
  }

  lemma PositionBetween(src: Source, p: nat, q: nat, v: nat) returns (k: nat)
    requires src.Valid() && p <= q <= |src.index| && v in src.index && At(src, p) < v <= At(src, q)
    ensures p <= k < q && src.index[k] == v
  {
    OrderedIsIncreasing(src.index);
    k := PosOf(src.index, v);
  }

  lemma BetweenPositions(src: Source, p: nat, q: nat, k: nat)
    requires src.Valid() && p <= k < q <= |src.index|
    ensures src.index[k] in src.index && At(src, p) < src.index[k] <= At(src, q)
  {
    assert InOrder(src.index, p - 1, k) && InOrder(src.index, k, q - 1);
  }

  /** A full Down plan visits the versions of the full Up plan in reverse. */
  lemma DownReversesUp(src: Source, p: nat, q: nat, i: nat)
    requires src.Valid() && p <= q <= |src.index| && i < q - p
    ensures var up, down := Climb(src, p, q - p), Descend(src, q, q - p);
            && down[i].version == up[q - p - 1 - i].version
            && down[i].target == (if q - p - 1 - i == 0 then At(src, p) else up[q - p - 2 - i].target)
            && up[q - p - 1 - i].IsUp() && !down[i].IsUp()
  {
    assert InOrder(src.index, q - i - 2, q - i - 1);
  }

  // ----- shape of every plan --------------------------------------------------

  /** Migrations first, then at most one error. */
  ghost predicate WellFormedPlan(plan: seq<Item>) {
    forall i :: 0 <= i < |plan| - 1 ==> plan[i].Migr?
  }

  ghost function Migs(plan: seq<Item>): seq<Migration>
    requires WellFormedPlan(plan)
  {
    var n := if |plan| > 0 && plan[|plan| - 1].Fail? then |plan| - 1 else |plan|;
    seq(n, i requires 0 <= i < n => plan[i].migration)
  }

  lemma MigsOfItems(ms: seq<Migration>, tail: seq<Item>)
    requires |tail| == 0 || (|tail| == 1 && tail[0].Fail?)
    ensures WellFormedPlan(Items(ms) + tail) && Migs(Items(ms) + tail) == ms
  {
    var plan := Items(ms) + tail;
    assert forall i :: 0 <= i < |ms| ==> plan[i] == Migr(ms[i]);
  }

  /** No error is sent among the first n operations. */
  ghost predicate NoErrors(ops: seq<Op>, n: int) {
    forall i :: 0 <= i < n && i < |ops| && ops[i].Send? ==> ops[i].item.Migr?
  }

  /** Only the last operation may send an error. */
  ghost predicate ErrorLast(script: seq<Op>) {
    NoErrors(script, |script| - 1)
  }

  /** The errors planners send of themselves. */
  predicate PlannedErr(e: Err) {
    e == NoChange || e == NotExist || e.ShortLimit?
  }

  ghost predicate OnlyPlannedErrs(ops: seq<Op>) {
    forall i :: 0 <= i < |ops| && ops[i].Send? && ops[i].item.Fail? ==> PlannedErr(ops[i].item.err)
  }

  lemma {:induction false} SentErrsPlanned(ops: seq<Op>, n: nat)
    requires n <= |ops| && OnlyPlannedErrs(ops)
    ensures forall i :: 0 <= i < |SendsOfFirst(ops, n)| && SendsOfFirst(ops, n)[i].Fail? ==>
              PlannedErr(SendsOfFirst(ops, n)[i].err)
  {
    if n > 0 { SentErrsPlanned(ops, n - 1); }
  }

  lemma {:induction false} PollFirstNoErrors(ms: seq<Migration>, n: nat)
    requires n <= |ms|
    ensures NoErrors(PollFirst(ms, n), |PollFirst(ms, n)|)
  {
    if n > 0 { PollFirstNoErrors(ms, n - 1); }
  }

  lemma ErrorLastConcat(head: seq<Op>, tail: seq<Op>)
    requires NoErrors(head, |head|) && ErrorLast(tail)
    ensures ErrorLast(head + tail)
  {
  }

  lemma {:induction false} SendsMigrations(script: seq<Op>, n: nat)
    requires n <= |script| && NoErrors(script, n)
    ensures forall i :: 0 <= i < |SendsOfFirst(script, n)| ==> SendsOfFirst(script, n)[i].Migr?
  {
    if n > 0 { SendsMigrations(script, n - 1); }
  }

  lemma ErrorLastPlan(script: seq<Op>)
    requires ErrorLast(script)
    ensures WellFormedPlan(Sends(script))
  {
    if |script| > 0 {
      SendsMigrations(script, |script| - 1);
      var front := SendsOfFirst(script, |script| - 1);
      assert forall i :: 0 <= i < |front| ==> Sends(script)[i] == front[i];
    }
  }

  /** A prefix of the script sends a prefix of the plan. */
  lemma PrefixSends(script: seq<Op>, ops: seq<Op>)
    requires ErrorLast(script) && ops <= script
    ensures Sends(ops) <= Sends(script) && Sends(ops) == SendsOfFirst(script, |ops|)
    ensures WellFormedPlan(Sends(script)) && WellFormedPlan(Sends(ops))
    ensures Migs(Sends(ops)) <= Migs(Sends(script))
  {
    var rest := script[|ops|..];
    assert script == ops + rest;
    SendsConcat(ops, rest);
    FirstOfConcat(ops, rest, |ops|);
    ErrorLastPlan(script);
    MigsOfPrefix(Sends(script), Sends(ops));
  }

  lemma MigsOfPrefix(plan: seq<Item>, items: seq<Item>)
    requires WellFormedPlan(plan) && items <= plan
    ensures WellFormedPlan(items) && Migs(items) <= Migs(plan)
  {
  }

  // ----- where planners poll and look ------------------------------------------

  /** Every migration is sent right after a look at the source, and that after a poll. */
  ghost predicate SendsPolled(ops: seq<Op>) {
    forall i :: 0 <= i < |ops| && ops[i].Send? && ops[i].item.Migr? ==>
      i >= 2 && ops[i - 1].Look? && ops[i - 2].Poll?
  }

  lemma PolledConcat(a: seq<Op>, b: seq<Op>)
    requires SendsPolled(a) && SendsPolled(b)
    ensures SendsPolled(a + b)
  {
  }

  lemma {:induction false} PollFirstPolled(ms: seq<Migration>, n: nat)
    requires n <= |ms|
    ensures SendsPolled(PollFirst(ms, n))
  {
    if n > 0 {
      PollFirstPolled(ms, n - 1);
      PolledConcat(PollFirst(ms, n - 1), [Poll, Look, Send(Migr(ms[n - 1]))]);
    }
  }

  lemma BatchPolled(head: seq<Op>, ms: seq<Migration>, tail: seq<Op>)
    requires SendsPolled(head) && SendsPolled(tail)
    ensures SendsPolled(head + (PollEach(ms) + tail))
  {
    PollFirstPolled(ms, |ms|);
    PolledConcat(PollEach(ms), tail);
    PolledConcat(head, PollEach(ms) + tail);
  }

  /** readUp and readDown look at the source for the version they start from, and poll and look
      before every migration. */
  lemma LimitedPlannersPoll(src: Source, from: int, limit: int)
    requires src.Valid() && from >= NIL_VERSION
    ensures SendsPolled(ReadUpScript(src, from, limit)) && SendsPolled(ReadDownScript(src, from, limit))
    ensures from >= 0 ==> ReadUpScript(src, from, limit)[..1] == ReadDownScript(src, from, limit)[..1] == [Look]
  {
    UpPolled(src, from, limit);
    DownPolled(src, from, limit);
  }

  lemma UpPolled(src: Source, from: int, limit: int)
    requires src.Valid() && from >= NIL_VERSION
    ensures SendsPolled(ReadUpScript(src, from, limit))
  {
    if Known(src, from) && (limit == -1 || limit > 0) {
      var p := Pos(src, from);
      UpTailPolled(from, limit, |src.index| - p);
      BatchPolled(Check(from), Climb(src, p, Granted(limit, |src.index| - p)), UpTail(from, limit, |src.index| - p));
    } else {
      PolledConcat(Check(from), UpScript(src, from, limit));
    }
  }

  lemma UpTailPolled(from: int, limit: int, n: nat)
    requires limit == -1 || limit > 0
    ensures SendsPolled(UpTail(from, limit, n))
  {
  }

  lemma DownPolled(src: Source, from: int, limit: int)
    requires src.Valid() && from >= NIL_VERSION
    ensures SendsPolled(ReadDownScript(src, from, limit))
  {
    if from >= 0 && Known(src, from) && (limit == -1 || limit > 0) {
      var p := Pos(src, from);
      BatchPolled(Check(from), Descend(src, p, Granted(limit, p)), DownTail(limit, p));
    }
  }

  lemma BetweenPolled(src: Source, from: int, to: int)
    requires src.Valid() && Known(src, from) && (to < NIL_VERSION || Known(src, to))
    requires from != NIL_VERSION || to <= from
    ensures SendsPolled(Between(src, from, to))
  {
    if to < from && from != NIL_VERSION {
      var p := Pos(src, from);
      FloorBelow(src, from, to);
      PollFirstPolled(Descend(src, p, p - Floor(src, to)), p - Floor(src, to));
      PolledConcat(PollEach(Descend(src, p, p - Floor(src, to))), FloorTail(to));
    } else if from < to {
      PosMonotone(src, from, to);
      PollFirstPolled(Climb(src, Pos(src, from), Pos(src, to) - Pos(src, from)), Pos(src, to) - Pos(src, from));
    }
  }

  /** After its checks read has yet to do what lies between its versions. */
  lemma ReadIsChecksAndBetween(src: Source, from: int, to: int)
    requires src.Valid() && Known(src, from) && (to < NIL_VERSION || Known(src, to))
    ensures ReadScript(src, from, to) == Check(from) + Check(to) + Between(src, from, to)
  {
  }

  /** read looks at the source for both its versions, and polls and looks before every migration
      but the first of an empty database, before which it only looks. */
  lemma TargetedPlannerPolls(src: Source, from: int, to: int)
    requires src.Valid() && Known(src, from) && (to < NIL_VERSION || Known(src, to))
    ensures from != NIL_VERSION || to <= from ==> SendsPolled(ReadScript(src, from, to))
    ensures from == NIL_VERSION < to ==> FirstThenPolled(ReadScript(src, from, to))
    ensures ChecksFirst(ReadScript(src, from, to), from, to)
  {
    ReadIsChecksAndBetween(src, from, to);
    if from != NIL_VERSION || to <= from {
      BetweenPolled(src, from, to);
      PolledConcat(Check(from) + Check(to), Between(src, from, to));
    } else {
      FirstPolled(src, to);
    }
  }

  /** Two looks, the first migration, and then only polled ones. */
  ghost predicate FirstThenPolled(script: seq<Op>) {
    |script| >= 3 && script[0].Look? && script[1].Look? && script[2].Send? && SendsPolled(script[3..])
  }

  /** One look for each version that is not nil. */
  predicate ChecksFirst(script: seq<Op>, from: int, to: int) {
    && (from >= 0 || to >= 0 ==> |script| > 0 && script[0].Look?)
    && (from >= 0 && to >= 0 ==> |script| > 1 && script[1].Look?)
  }

  lemma FirstPolled(src: Source, to: int)
    requires src.Valid() && to >= 0 && Known(src, to)
    ensures FirstThenPolled(Check(NIL_VERSION) + Check(to) + Between(src, NIL_VERSION, to))
  {
    PosMonotone(src, NIL_VERSION, to);
    var rest := Climb(src, 1, Pos(src, to) - 1);
    PollFirstPolled(rest, |rest|);
    var script := Check(NIL_VERSION) + Check(to) + Between(src, NIL_VERSION, to);
    assert script[3..] == PollEach(rest);
  }

  // ----- execution of a script against the answers it gets ----------------------

  /** `bad(i)` is the answer to the i-th operation: a poll is told to stop, a look fails. */
  ghost predicate Quiet(ops: seq<Op>, bad: nat -> bool, n: int) {
    forall i: nat :: i < n && i < |ops| && !ops[i].Send? ==> !bad(i)
  }

  /** The goroutine runs the script to its end, or returns right after the first poll that is
      told to stop, or sends an error after the first look that fails. */
  ghost predicate Runs(script: seq<Op>, bad: nat -> bool, ops: seq<Op>) {
    var n := |ops|;
    || (ops == script && Quiet(ops, bad, n))
    || (n > 0 && ops <= script && ops[n - 1].Poll? && bad(n - 1) && Quiet(ops, bad, n - 1))
    || (n > 1 && ops[..n - 1] <= script && ops[n - 2].Look? && bad(n - 2) && Quiet(ops, bad, n - 2)
        && ops[n - 1] == Send(Fail(SourceFault)))
  }

  /** Up to here every answer was good. */
  ghost predicate Underway(script: seq<Op>, bad: nat -> bool, ops: seq<Op>) {
    ops <= script && Quiet(ops, bad, |ops|)
  }

  /** Where a run meets its first bad answer, or the length of the script. */
  ghost function Reached(script: seq<Op>, bad: nat -> bool, i: nat): nat
    requires i <= |script|
    decreases |script| - i
  {
    if i == |script| || (!script[i].Send? && bad(i)) then i else Reached(script, bad, i + 1)
  }

  lemma {:induction false} ReachedIs(script: seq<Op>, bad: nat -> bool, i: nat, n: nat)
    requires i <= n <= |script| && Quiet(script, bad, n)
    requires n == |script| || (!script[n].Send? && bad(n))
    ensures Reached(script, bad, i) == n
    decreases n - i
  {
    if i < n { ReachedIs(script, bad, i + 1, n); }
  }

  /** The answers determine the run. */
  lemma RunsDetermined(script: seq<Op>, bad: nat -> bool, ops: seq<Op>)
    requires Runs(script, bad, ops)
    ensures var n := Reached(script, bad, 0);
            ops == if n >= |script| then script
                   else if script[n].Poll? then script[..n] + [Poll]
                   else script[..n] + [Look, Send(Fail(SourceFault))]
  {
    var n := |ops|;
    if ops == script && Quiet(ops, bad, n) {
      ReachedIs(script, bad, 0, n);
    } else if n > 0 && ops <= script && ops[n - 1].Poll? && bad(n - 1) && Quiet(ops, bad, n - 1) {
      StoppedReached(script, bad, ops);
    } else {
      BrokenReached(script, bad, ops);
    }
  }

  lemma StoppedReached(script: seq<Op>, bad: nat -> bool, ops: seq<Op>)
    requires |ops| > 0 && ops <= script && ops[|ops| - 1].Poll? && bad(|ops| - 1) && Quiet(ops, bad, |ops| - 1)
    ensures Reached(script, bad, 0) == |ops| - 1 && ops == script[..|ops| - 1] + [Poll]
  {
    ReachedIs(script, bad, 0, |ops| - 1);
  }

  lemma BrokenReached(script: seq<Op>, bad: nat -> bool, ops: seq<Op>)
    requires |ops| > 1 && ops[..|ops| - 1] <= script && ops[|ops| - 2].Look? && bad(|ops| - 2)
    requires Quiet(ops, bad, |ops| - 2) && ops[|ops| - 1] == Send(Fail(SourceFault))
    ensures Reached(script, bad, 0) == |ops| - 2 && script[|ops| - 2].Look?
    ensures ops == script[..|ops| - 2] + [Look, Send(Fail(SourceFault))]
  {
    var n := |ops| - 2;
    assert forall i :: 0 <= i <= n ==> script[i] == ops[..n + 1][i] == ops[i];
    ReachedIs(script, bad, 0, n);
  }

  lemma RunsUnique(script: seq<Op>, bad: nat -> bool, a: seq<Op>, b: seq<Op>)
    requires Runs(script, bad, a) && Runs(script, bad, b)
    ensures a == b
  {
    RunsDetermined(script, bad, a);
    RunsDetermined(script, bad, b);
  }

  /** The next operation is a poll. */
  lemma Polled(script: seq<Op>, bad: nat -> bool, ops: seq<Op>)
    requires Underway(script, bad, ops) && |ops| < |script| && script[|ops|].Poll?
    ensures if bad(|ops|) then Runs(script, bad, ops + [Poll]) else Underway(script, bad, ops + [Poll])
  {
  }

  /** The next operation is a look. */
  lemma Looked(script: seq<Op>, bad: nat -> bool, ops: seq<Op>)
    requires Underway(script, bad, ops) && |ops| < |script| && script[|ops|].Look?
    ensures if bad(|ops|) then Runs(script, bad, ops + [Look] + [Send(Fail(SourceFault))])
            else Underway(script, bad, ops + [Look])
  {
    var broken := ops + [Look] + [Send(Fail(SourceFault))];
    assert broken[..|broken| - 1] == ops + [Look];
  }

  lemma Sent(script: seq<Op>, bad: nat -> bool, ops: seq<Op>, item: Item)
    requires Underway(script, bad, ops) && |ops| < |script| && script[|ops|] == Send(item)
    ensures Underway(script, bad, ops + [Send(item)])
  {
  }

  /** The goroutine returns, perhaps after sending an error. */
  lemma Ends(script: seq<Op>, bad: nat -> bool, ops: seq<Op>, last: seq<Op>)
    requires Underway(script, bad, ops) && script[|ops|..] == last
    requires last == [] || (|last| == 1 && last[0].Send?)
    ensures Runs(script, bad, ops + last)
    ensures last == [] ==> Runs(script, bad, ops)
  {
    assert ops + last == script;
    if last == [] { assert ops == script; }
  }

  /** From position h on, the i-th round of a script: poll, look, and send ms[i]. */
  ghost predicate RoundAt(script: seq<Op>, h: nat, ms: seq<Migration>, i: nat) {
    i < |ms| ==>
      && h + 3 * i + 3 <= |script| && script[h + 3 * i].Poll? && script[h + 3 * i + 1].Look?
      && script[h + 3 * i + 2] == Send(Migr(ms[i]))
  }

  /** From position h on, the rounds of ms and then the tail. */
  ghost predicate Rounds(script: seq<Op>, h: nat, ms: seq<Migration>, tail: seq<Op>) {
    && h + 3 * |ms| <= |script| && script[h + 3 * |ms|..] == tail
    && forall i: nat {:trigger RoundAt(script, h, ms, i)} :: RoundAt(script, h, ms, i)
  }

  lemma {:induction false} PollFirstRounds(ms: seq<Migration>, n: nat, i: nat)
    requires n <= |ms|
    ensures |PollFirst(ms, n)| == 3 * n
    ensures i < n ==> RoundAt(PollFirst(ms, n), 0, ms, i)
  {
    if n > 0 { PollFirstRounds(ms, n - 1, i); }
  }

  lemma BatchRounds(head: seq<Op>, ms: seq<Migration>, tail: seq<Op>)
    ensures Rounds(head + (PollEach(ms) + tail), |head|, ms, tail)
    ensures head <= head + (PollEach(ms) + tail)
  {
    var script, h := head + (PollEach(ms) + tail), |head|;
    PollFirstRounds(ms, |ms|, 0);
    forall i: nat ensures RoundAt(script, h, ms, i) {
      PollFirstRounds(ms, |ms|, i);
      if i < |ms| {
        assert script[h + 3 * i] == PollEach(ms)[3 * i];
        assert script[h + 3 * i + 1] == PollEach(ms)[3 * i + 1];
        assert script[h + 3 * i + 2] == PollEach(ms)[3 * i + 2];
      }
    }
  }

  // ----- the loops -------------------------------------------------------------

  /** What came of looking at the source. */
  datatype Lookup<T> = Found(value: T) | Missing | Broken

  /** `fault`: one of the reads fails, or closing what was read. */
  method VersionExists(src: Source, version: nat, fault: bool) returns (r: Option<Err>)
    requires Indexes(src.index, src.store)
    ensures r == if fault then Some(SourceFault) else if version in src.index then None else Some(NotExist)
  {
    ExistsIffIndexed(src, version);
    var first: bool := *;
    if fault && first { return Some(SourceFault); }
    var up := Body(src.store, version, Up);
    if up.Some? { return if fault then Some(SourceFault) else None; }
    if fault { return Some(SourceFault); }
    var down := Body(src.store, version, Down);
    if down.Some? { return None; }
    return Some(NotExist);
  }

  method NewMigration(src: Source, version: nat, target: int, fault: bool) returns (m: Option<Migration>)
    requires version <= MAX_INT
    ensures m == if fault then None else
                 Some(Migration(version, target,
                                Body(src.store, version, if target >= version then Up else Down)))
  {
    if fault { return None; }
    var body;
    if target >= ToInt(version) {
      body := Body(src.store, version, Up);
    } else {
      body := Body(src.store, version, Down);
    }
    m := Some(Migration(version, target, body));
  }

  /** One upward step: First from the nil version, Next otherwise. */
  method StepUp(src: Source, from: int, fault: bool, ghost p: nat) returns (r: Lookup<Migration>)
    requires src.Valid()
    requires p <= |src.index| && from == At(src, p)
    ensures r == if fault then Broken else if p < |src.index| then Found(UpStep(src, p)) else Missing
    ensures r.Found? ==> r.value.target == At(src, p + 1)
  {
    assert FitsInt(src.index, p);
    var next;
    if from == NIL_VERSION {
      next := FirstOf(src.index);
    } else {
      PosAt(src.index, p - 1);
      next := NextOf(src.index, Suint(from));
    }
    if next.None? { return if fault then Broken else Missing; }
    var migr := NewMigration(src, next.value, ToInt(next.value), fault);
    if migr.None? { return Broken; }
    return Found(migr.value);
  }

  /** Prev of the version at position p: none exactly at the bottom of the index. */
  method Predecessor(src: Source, from: int, fault: bool, ghost p: nat) returns (prev: Lookup<int>)
    requires src.Valid()
    requires 0 < p <= |src.index| && from == At(src, p)
    ensures prev == if fault then Broken else if p == 1 then Missing else Found(At(src, p - 1))
  {
    if fault { return Broken; }
    PosAt(src.index, p - 1);
    assert FitsInt(src.index, p - 1) && FitsInt(src.index, p - 2);
    var v := PrevOf(src.index, Suint(from));
    prev := if v.None? then Missing else Found(ToInt(v.value));
  }

  /** One downward step from position p to its predecessor. */
  method StepDown(src: Source, version: nat, target: int, fault: bool, ghost p: nat) returns (m: Option<Migration>)
    requires src.Valid() && 0 < p <= |src.index|
    requires version == At(src, p) && target == At(src, p - 1)
    ensures m == if fault then None else Some(DownStep(src, p))
  {
    assert FitsInt(src.index, p - 1) && InOrder(src.index, p - 2, p - 1);
    m := NewMigration(src, version, target, fault);
  }

  /** The reads of one round of readDown: Prev, First at the bottom, and the migration. */
  method StepDownLimited(src: Source, from: int, fault: bool, ghost p: nat) returns (m: Option<Migration>, bottom: bool)
    requires src.Valid() && 0 < p <= |src.index| && from == At(src, p)
    ensures m == if fault then None else Some(DownStep(src, p))
    ensures !fault ==> bottom == (p == 1)
  {
    var early: bool := *;
    var prev := Predecessor(src, from, early && fault, p);
    if prev.Broken? { return None, false; }
    if prev.Missing? {
      // the version taken from First is the current one
      var first := FirstOf(src.index);
      m := StepDown(src, first.value, NIL_VERSION, fault, p);
      return m, true;
    }
    m := StepDown(src, Suint(from), prev.value, fault, p);
    return m, false;
  }

  /** The reads of one round of read on the way down: at the bottom only the nil version can
      still be asked for. */
  method StepDownTo(src: Source, from: int, to: int, fault: bool, ghost p: nat) returns (r: Lookup<Migration>)
    requires src.Valid() && 0 < p <= |src.index| && from == At(src, p)
    ensures r == if fault then Broken
                 else if p == 1 && to != NIL_VERSION then Missing else Found(DownStep(src, p))
  {
    var early: bool := *;
    var prev := Predecessor(src, from, early && fault, p);
    if prev.Broken? { return Broken; }
    if prev.Missing? && to != NIL_VERSION { return if fault then Broken else Missing; }
    var m := StepDown(src, Suint(from), if prev.Missing? then NIL_VERSION else prev.value, fault, p);
    r := if m.None? then Broken else Found(m.value);
  }

  /** ms[i] is the step the loop takes after i others; named so that a loop's proof only looks
      at the step it is taking. */
  ghost predicate UpStepAt(src: Source, p: nat, ms: seq<Migration>, i: nat) {
    i < |ms| ==> p + i < |src.index| && ms[i] == UpStep(src, p + i)
  }

  ghost predicate UpSteps(src: Source, p: nat, ms: seq<Migration>) {
    forall i: nat {:trigger UpStepAt(src, p, ms, i)} :: UpStepAt(src, p, ms, i)
  }

  ghost predicate DownStepAt(src: Source, p: nat, ms: seq<Migration>, i: nat) {
    i < |ms| ==> i < p <= |src.index| && ms[i] == DownStep(src, p - i)
  }

  ghost predicate DownSteps(src: Source, p: nat, ms: seq<Migration>) {
    forall i: nat {:trigger DownStepAt(src, p, ms, i)} :: DownStepAt(src, p, ms, i)
  }

  /** The check of a version that is not nil: go on, or the operations the planner ends with. */
  method CheckVersion(src: Source, version: nat, bad: nat -> bool, ops0: seq<Op>, ghost script: seq<Op>)
    returns (ops: seq<Op>, ok: bool)
    requires Indexes(src.index, src.store) && Underway(script, bad, ops0)
    requires |ops0| < |script| && script[|ops0|].Look?
    requires !Known(src, version) ==> script[|ops0| + 1..] == Refuse(NotExist)
    ensures ok ==> ops == ops0 + [Look] && Underway(script, bad, ops) && Known(src, version)
    ensures !ok ==> Runs(script, bad, ops)
  {
    Looked(script, bad, ops0);
    ops := ops0 + [Look];
    var err := VersionExists(src, version, bad(|ops0|));
    if err.None? { return ops, true; }
    if !bad(|ops0|) { Ends(script, bad, ops, Refuse(NotExist)); }
    return ops + [Send(Fail(err.value))], false;
  }

  /** A round begins: ask whether to stop, and if not, read from the source. */
  method StopOrLook(bad: nat -> bool, ops0: seq<Op>, ghost script: seq<Op>)
    returns (ops: seq<Op>, stop: bool, fault: bool)
    requires Underway(script, bad, ops0) && |ops0| + 2 <= |script|
    requires script[|ops0|].Poll? && script[|ops0| + 1].Look?
    ensures stop ==> Runs(script, bad, ops)
    ensures !stop ==> |ops| == |ops0| + 2
    ensures !stop && !fault ==> Underway(script, bad, ops)
    ensures !stop && fault ==> Runs(script, bad, ops + [Send(Fail(SourceFault))])
  {
    stop, fault := bad(|ops0|), bad(|ops0| + 1);
    Polled(script, bad, ops0);
    ops := ops0 + [Poll];
    if !stop {
      Looked(script, bad, ops);
      ops := ops + [Look];
    }
  }

  method ReadUp(src: Source, from0: int, limit: int, bad: nat -> bool) returns (ops: seq<Op>)
    requires src.Valid() && Indexes(src.index, src.store) && from0 >= NIL_VERSION
    ensures Runs(ReadUpScript(src, from0, limit), bad, ops)
  {
    ghost var script := ReadUpScript(src, from0, limit);
    ops := [];
    if from0 >= 0 {
      var ok;
      ops, ok := CheckVersion(src, Suint(from0), bad, ops, script);
      if !ok { return; }
    }
    ops := ReadUpKnown(src, from0, limit, bad, ops, script);
  }

  /** readUp once its version was found to exist. */
  method ReadUpKnown(src: Source, from0: int, limit: int, bad: nat -> bool, ops0: seq<Op>, ghost script: seq<Op>)
    returns (ops: seq<Op>)
    requires src.Valid() && Known(src, from0)
    requires Underway(script, bad, ops0) && script[|ops0|..] == UpScript(src, from0, limit)
    ensures Runs(script, bad, ops)
  {
    ops := ops0;
    if limit == 0 {
      Ends(script, bad, ops, Refuse(NoChange));
      return ops + [Send(Fail(NoChange))];
    }
    if limit < -1 {  // the loop condition is false at once
      Ends(script, bad, ops, []);
      return;
    }
    ghost var p := Pos(src, from0);
    ghost var ms := Climb(src, p, Granted(limit, |src.index| - p));
    UpRounds(src, from0, limit, script, |ops|);
    ops := ReadUpLoop(src, from0, limit, bad, ops, ms, script);
  }

  lemma UpScriptIs(src: Source, from: int, limit: int, ms: seq<Migration>, tail: seq<Op>)
    requires Known(src, from) && (limit == -1 || limit > 0)
    requires var n := |src.index| - Pos(src, from);
             ms == Climb(src, Pos(src, from), Granted(limit, n)) && tail == UpTail(from, limit, n)
    ensures UpScript(src, from, limit) == PollEach(ms) + tail
  {
  }

  lemma UpRounds(src: Source, from: int, limit: int, script: seq<Op>, h: nat)
    requires Known(src, from) && (limit == -1 || limit > 0) && h <= |script| && script[h..] == UpScript(src, from, limit)
    ensures var n := |src.index| - Pos(src, from);
            Rounds(script, h, Climb(src, Pos(src, from), Granted(limit, n)), UpTail(from, limit, n))
  {
    var n := |src.index| - Pos(src, from);
    var ms, tail := Climb(src, Pos(src, from), Granted(limit, n)), UpTail(from, limit, n);
    UpScriptIs(src, from, limit, ms, tail);
    RoundsAfterIs(script, h, UpScript(src, from, limit), ms, tail);
  }

  /** The error branches of readUp once no further version exists. */
  method UpEnd(from: int, limit: int, count: nat, ghost from0: int) returns (last: seq<Op>)
    requires (limit == -1 || limit > count) && from >= NIL_VERSION && from0 >= NIL_VERSION
    requires if count == 0 then from == from0 else from >= 0
    ensures [Poll, Look] + last == UpTail(from0, limit, count)
    ensures last == [] || (|last| == 1 && last[0].Send?)
  {
    if from == NIL_VERSION { return [Send(Fail(NotExist))]; }
    if limit == -1 && count == 0 { return [Send(Fail(NoChange))]; }
    if limit == -1 { return []; }
    if limit > 0 && count == 0 { return [Send(Fail(NotExist))]; }
    return [Send(Fail(ShortLimit(Suint(limit - count))))];
  }

  /** Another poll and look after the last migration, and then `last`. */
  lemma OneMoreRound(script: seq<Op>, h: nat, ms: seq<Migration>, tail: seq<Op>)
    requires Rounds(script, h, ms, tail) && |tail| >= 2 && tail[..2] == [Poll, Look]
    ensures var n := h + 3 * |ms|;
            n + 2 <= |script| && script[n].Poll? && script[n + 1].Look? && script[n + 2..] == tail[2..]
  {
    var n := h + 3 * |ms|;
    assert script[n] == tail[..2][0] && script[n + 1] == tail[..2][1];
    assert script[n..][2..] == script[n + 2..];
  }

  lemma SameAfter(head: seq<Op>, a: seq<Op>, b: seq<Op>)
    requires head + a == head + b
    ensures a == b
  {
    assert a == (head + a)[|head|..] && b == (head + b)[|head|..];
  }

  lemma OneMoreUpRound(script: seq<Op>, h: nat, ms: seq<Migration>, from: int, limit: int)
    requires (limit == -1 || limit > |ms|) && Rounds(script, h, ms, UpTail(from, limit, |ms|))
    ensures var n, tail := h + 3 * |ms|, UpTail(from, limit, |ms|);
            && n + 2 <= |script| && script[n].Poll? && script[n + 1].Look?
            && [Poll, Look] + script[n + 2..] == tail
  {
    var tail := UpTail(from, limit, |ms|);
    assert tail[..2] == [Poll, Look] && tail == [Poll, Look] + tail[2..];
    OneMoreRound(script, h, ms, tail);
  }

  method ReadUpLoop(src: Source, from0: int, limit: int, bad: nat -> bool, ops0: seq<Op>,
                    ghost ms: seq<Migration>, ghost script: seq<Op>)
    returns (ops: seq<Op>)
    requires src.Valid() && Known(src, from0) && (limit == -1 || limit > 0)
    requires UpSteps(src, Pos(src, from0), ms) && |ms| == Granted(limit, |src.index| - Pos(src, from0))
    requires Underway(script, bad, ops0)
    requires Rounds(script, |ops0|, ms, UpTail(from0, limit, |src.index| - Pos(src, from0)))
    ensures Runs(script, bad, ops)
  {
    ghost var p := Pos(src, from0);
    var from := from0;
    var count := 0;
    ops := ops0;
    while count < limit || limit == -1
      invariant 0 <= count <= |ms|
      invariant from == At(src, p + count)
      invariant |ops| == |ops0| + 3 * count && Underway(script, bad, ops)
      decreases |ms| - count
    {
      assert RoundAt(script, |ops0|, ms, count) && UpStepAt(src, p, ms, count);
      if count == |ms| {
        OneMoreUpRound(script, |ops0|, ms, from0, limit);
      }
      var stop, fault;
      ops, stop, fault := StopOrLook(bad, ops, script);
      if stop { return; }
      var next := StepUp(src, from, fault, p + count);
      if next.Broken? { return ops + [Send(Fail(SourceFault))]; }
      if next.Missing? {
        var last := UpEnd(from, limit, count, from0);
        assert script[|ops|..] == last by { SameAfter([Poll, Look], script[|ops|..], last); }
        Ends(script, bad, ops, last);
        return ops + last;
      }
      Sent(script, bad, ops, Migr(next.value));
      ops := ops + [Send(Migr(next.value))];
      from := next.value.target;
      count := count + 1;
    }
    Ends(script, bad, ops, []);
  }

  method ReadDown(src: Source, from0: int, limit: int, bad: nat -> bool) returns (ops: seq<Op>)
    requires src.Valid() && Indexes(src.index, src.store) && from0 >= NIL_VERSION
    ensures Runs(ReadDownScript(src, from0, limit), bad, ops)
  {
    ghost var script := ReadDownScript(src, from0, limit);
    ops := [];
    if from0 >= 0 {
      var ok;
      ops, ok := CheckVersion(src, Suint(from0), bad, ops, script);
      if !ok { return; }
    }
    ops := ReadDownKnown(src, from0, limit, bad, ops, script);
  }

  /** readDown once its version was found to exist. */
  method ReadDownKnown(src: Source, from0: int, limit: int, bad: nat -> bool, ops0: seq<Op>, ghost script: seq<Op>)
    returns (ops: seq<Op>)
    requires src.Valid() && Known(src, from0)
    requires Underway(script, bad, ops0) && script[|ops0|..] == DownScript(src, from0, limit)
    ensures Runs(script, bad, ops)
  {
    ops := ops0;
    if limit == 0 || (from0 == NIL_VERSION && limit == -1) {
      Ends(script, bad, ops, Refuse(NoChange));
      return ops + [Send(Fail(NoChange))];
    }
    if from0 == NIL_VERSION && limit > 0 {
      Ends(script, bad, ops, Refuse(NotExist));
      return ops + [Send(Fail(NotExist))];
    }
    if limit < -1 {  // the loop condition is false at once
      Ends(script, bad, ops, []);
      return;
    }
    ghost var p := Pos(src, from0);
    ghost var ms := Descend(src, p, Granted(limit, p));
    RoundsAfter(script, |ops|, ms, DownTail(limit, p));
    ops := ReadDownLoop(src, from0, limit, bad, ops, ms, script);
  }

  method ReadDownLoop(src: Source, from0: int, limit: int, bad: nat -> bool, ops0: seq<Op>,
                      ghost ms: seq<Migration>, ghost script: seq<Op>)
    returns (ops: seq<Op>)
    requires src.Valid() && from0 >= 0 && Known(src, from0) && (limit == -1 || limit > 0)
    requires DownSteps(src, Pos(src, from0), ms) && |ms| == Granted(limit, Pos(src, from0))
    requires Underway(script, bad, ops0)
    requires Rounds(script, |ops0|, ms, DownTail(limit, Pos(src, from0)))
    ensures Runs(script, bad, ops)
  {
    ghost var p := Pos(src, from0);
    var from := from0;
    var count := 0;
    ops := ops0;
    while count < limit || limit == -1
      invariant 0 <= count <= |ms| && (count == |ms| ==> count == limit)
      invariant from == At(src, p - count)
      invariant |ops| == |ops0| + 3 * count && Underway(script, bad, ops)
      decreases |ms| - count
    {
      assert RoundAt(script, |ops0|, ms, count) && DownStepAt(src, p, ms, count);
      var stop, fault;
      ops, stop, fault := StopOrLook(bad, ops, script);
      if stop { return; }
      var migr, bottom := StepDownLimited(src, from, fault, p - count);
      if migr.None? { return ops + [Send(Fail(SourceFault))]; }
      Sent(script, bad, ops, Migr(migr.value));
      ops := ops + [Send(Migr(migr.value))];
      from := migr.value.target;
      count := count + 1;
      if bottom {
        Ends(script, bad, ops, DownTail(limit, p));
        if count < limit {
          ops := ops + [Send(Fail(ShortLimit(Suint(limit - count))))];
        }
        return;
      }
    }
    Ends(script, bad, ops, []);
  }

  method Read(src: Source, from0: int, to: int, bad: nat -> bool) returns (ops: seq<Op>)
    requires src.Valid() && Indexes(src.index, src.store) && from0 >= NIL_VERSION
    ensures Runs(ReadScript(src, from0, to), bad, ops)
  {
    ghost var script := ReadScript(src, from0, to);
    ops := [];
    if from0 >= 0 {
      var ok;
      ops, ok := CheckVersion(src, Suint(from0), bad, ops, script);
      if !ok { return; }
    }
    if to >= 0 {
      AfterFirstCheck(src, from0, to);
      var ok;
      ops, ok := CheckVersion(src, Suint(to), bad, ops, script);
      if !ok { return; }
    }
    AfterBothChecks(src, from0, to);
    ops := ReadBetween(src, from0, to, bad, ops, script);
  }

  lemma AfterFirstCheck(src: Source, from: int, to: int)
    requires src.Valid() && Known(src, from) && to >= 0
    ensures var script, n := ReadScript(src, from, to), |Check(from)|;
            && n < |script| && script[n].Look?
            && (!Known(src, to) ==> script[n + 1..] == Refuse(NotExist))
  {
  }

  lemma AfterBothChecks(src: Source, from: int, to: int)
    requires src.Valid() && Known(src, from) && (to < NIL_VERSION || Known(src, to))
    ensures ReadScript(src, from, to)[|Check(from)| + |Check(to)|..] == Between(src, from, to)
  {
  }

  /** read once both ends were found to exist. */
  method ReadBetween(src: Source, from0: int, to: int, bad: nat -> bool, ops0: seq<Op>, ghost script: seq<Op>)
    returns (ops: seq<Op>)
    requires src.Valid() && Known(src, from0) && (to < NIL_VERSION || Known(src, to))
    requires Underway(script, bad, ops0) && script[|ops0|..] == Between(src, from0, to)
    ensures Runs(script, bad, ops)
  {
    ops := ops0;
    if from0 == to {
      Ends(script, bad, ops, Refuse(NoChange));
      return ops + [Send(Fail(NoChange))];
    }
    if from0 < to {
      PosMonotone(src, from0, to);
      ghost var p, q := Pos(src, from0), Pos(src, to);
      if from0 == NIL_VERSION {
        ops := ReadFirst(src, to, bad, ops, script);
      } else {
        RoundsAfter(script, |ops|, Climb(src, p, q - p), []);
        ops := ReadUpTo(src, from0, to, bad, ops, Climb(src, p, q - p), script);
      }
    } else if from0 == NIL_VERSION {
      Ends(script, bad, ops, []);  // the loop condition is false at once
    } else {
      FloorBelow(src, from0, to);
      ghost var p := Pos(src, from0);
      RoundsAfter(script, |ops|, Descend(src, p, p - Floor(src, to)), FloorTail(to));
      ops := ReadDownTo(src, from0, to, bad, ops, Descend(src, p, p - Floor(src, to)), script);
    }
  }

  /** The first migration of an empty database is sent without asking whether to stop. */
  method ReadFirst(src: Source, to: int, bad: nat -> bool, ops0: seq<Op>, ghost script: seq<Op>) returns (ops: seq<Op>)
    requires src.Valid() && to >= 0 && Known(src, to) && Underway(script, bad, ops0)
    requires script[|ops0|..] == [Look, Send(Migr(UpStep(src, 0)))] + PollEach(Climb(src, 1, Pos(src, to) - 1))
    ensures Runs(script, bad, ops)
  {
    ghost var rest := Climb(src, 1, Pos(src, to) - 1);
    FirstThenRounds(script, |ops0|, UpStep(src, 0), rest);
    Looked(script, bad, ops0);
    ops := ops0 + [Look];
    var first := StepUp(src, NIL_VERSION, bad(|ops0|), 0);
    if !first.Found? { return ops + [Send(Fail(if first.Broken? then SourceFault else NotExist))]; }
    Sent(script, bad, ops, Migr(first.value));
    ops := ops + [Send(Migr(first.value))];
    PosOfAt(src, 1);
    ops := ReadUpTo(src, first.value.target, to, bad, ops, rest, script);
  }

  lemma RoundsAfter(script: seq<Op>, h: nat, ms: seq<Migration>, tail: seq<Op>)
    requires h <= |script| && (script[h..] == PollEach(ms) + tail || (tail == [] && script[h..] == PollEach(ms)))
    ensures Rounds(script, h, ms, tail)
  {
    assert PollEach(ms) + [] == PollEach(ms);
    assert script == script[..h] + (PollEach(ms) + tail);
    BatchRounds(script[..h], ms, tail);
  }

  lemma RoundsAfterIs(script: seq<Op>, h: nat, rest: seq<Op>, ms: seq<Migration>, tail: seq<Op>)
    requires h <= |script| && script[h..] == rest && rest == PollEach(ms) + tail
    ensures Rounds(script, h, ms, tail)
  {
    RoundsAfter(script, h, ms, tail);
  }

  lemma FirstThenRounds(script: seq<Op>, h: nat, m: Migration, ms: seq<Migration>)
    requires h <= |script| && script[h..] == [Look, Send(Migr(m))] + PollEach(ms)
    ensures h + 2 <= |script| && script[h].Look? && script[h + 1] == Send(Migr(m))
    ensures Rounds(script, h + 2, ms, [])
  {
    assert script[h] == script[h..][0] && script[h + 1] == script[h..][1];
    assert script[h + 2..] == script[h..][2..] == PollEach(ms);
    RoundsAfter(script, h + 2, ms, []);
  }

  /** The upward loop of read. */
  method ReadUpTo(src: Source, from0: int, to: int, bad: nat -> bool, ops0: seq<Op>,
                  ghost ms: seq<Migration>, ghost script: seq<Op>)
    returns (ops: seq<Op>)
    requires src.Valid() && Known(src, from0) && Known(src, to)
    requires UpSteps(src, Pos(src, from0), ms) && Pos(src, from0) + |ms| == Pos(src, to)
    requires Underway(script, bad, ops0) && Rounds(script, |ops0|, ms, [])
    ensures Runs(script, bad, ops)
  {
    ghost var p := Pos(src, from0);
    var from := from0;
    ghost var count := 0;
    ops := ops0;
    while from < to
      invariant 0 <= count <= |ms|
      invariant from == At(src, p + count)
      invariant |ops| == |ops0| + 3 * count && Underway(script, bad, ops)
      decreases |ms| - count
    {
      AboveTarget(src, p + count, to);
      assert RoundAt(script, |ops0|, ms, count) && UpStepAt(src, p, ms, count);
      var stop, fault;
      ops, stop, fault := StopOrLook(bad, ops, script);
      if stop { return; }
      var next := StepUp(src, from, fault, p + count);
      if !next.Found? { return ops + [Send(Fail(if next.Broken? then SourceFault else NotExist))]; }
      Sent(script, bad, ops, Migr(next.value));
      ops := ops + [Send(Migr(next.value))];
      from := next.value.target;
      count := count + 1;
    }
    AboveTarget(src, p + count, to);
    Ends(script, bad, ops, []);
  }

  /** The downward loop of read. */
  method ReadDownTo(src: Source, from0: int, to: int, bad: nat -> bool, ops0: seq<Op>,
                    ghost ms: seq<Migration>, ghost script: seq<Op>)
    returns (ops: seq<Op>)
    requires src.Valid() && from0 >= 0 && Known(src, from0) && to < from0
    requires to < NIL_VERSION || Known(src, to)
    requires DownSteps(src, Pos(src, from0), ms) && |ms| + Floor(src, to) == Pos(src, from0)
    requires Underway(script, bad, ops0) && Rounds(script, |ops0|, ms, FloorTail(to))
    ensures Runs(script, bad, ops)
  {
    ghost var p := Pos(src, from0);
    var from := from0;
    ghost var count := 0;
    ops := ops0;
    while from > to && from >= 0
      invariant 0 <= count <= |ms| && from == At(src, p - count)
      invariant |ops| == |ops0| + 3 * count && Underway(script, bad, ops)
      decreases p - count
    {
      BelowTarget(src, p - count, to);
      assert RoundAt(script, |ops0|, ms, count) && DownStepAt(src, p, ms, count);
      if count == |ms| { OneMoreRound(script, |ops0|, ms, FloorTail(to)); }
      var stop, fault;
      ops, stop, fault := StopOrLook(bad, ops, script);
      if stop { return; }
      var next := StepDownTo(src, from, to, fault, p - count);
      if next.Broken? { return ops + [Send(Fail(SourceFault))]; }
      if next.Missing? {
        Ends(script, bad, ops, Refuse(NotExist));
        return ops + [Send(Fail(NotExist))];
      }
      Sent(script, bad, ops, Migr(next.value));
      ops := ops + [Send(Migr(next.value))];
      count := count + 1;
      from := next.value.target;   // at the nil version the code returns; the loop ends too
    }
    BelowTarget(src, p - count, to);
    Ends(script, bad, ops, []);
  }

  /** The loop condition of a climb, in terms of positions. */
  lemma AboveTarget(src: Source, p: nat, to: int)
    requires src.Valid() && p <= |src.index| && Known(src, to)
    ensures At(src, p) < to <==> p < Pos(src, to)
  {
    PosOfAt(src, p);
    PosMonotone(src, At(src, p), to);
  }

  /** The loop condition of a descent, in terms of positions. */
  lemma BelowTarget(src: Source, p: nat, to: int)
    requires src.Valid() && p <= |src.index| && (to < NIL_VERSION || Known(src, to))
    ensures At(src, p) > to && At(src, p) >= 0 <==> if to < NIL_VERSION then p > 0 else Floor(src, to) < p
  {
    PosOfAt(src, p);
    if to >= NIL_VERSION { PosMonotone(src, to, At(src, p)); }
  }
}

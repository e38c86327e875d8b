/** Serialisability in full: every interleaving has a serial run of the same calls on the same
    instances from the same state, one call after the other, with the same result. */
module SerialOrder {
  import opened Types
  import opened VersionIndex
  import opened Engine
  import opened System
  import opened Outcome
  import opened StopOrder
  import opened SerialRuns

  // ----- calls keep who they are ----------------------------------------------------------

  /** The calls and instances of t are those of s, whatever has become of them. */
  ghost predicate SameCalls(s: State, t: State) {
    && t.calls.Keys == s.calls.Keys && t.insts.Keys == s.insts.Keys
    && forall c :: c in s.calls ==> SameCall(s.calls[c], t.calls[c])
  }

  predicate SameCall(a: Call, b: Call) {
    a.inst == b.inst && a.cmd == b.cmd && a.capacity == b.capacity
  }

  lemma LockKeepsCall(p: Planning, v: View, c: nat, step: Step, w: View)
    requires LockStep(step) && CallAction(p, v, c, step) == Some(w)
    ensures SameCall(v.call, w.call)
  {
  }

  lemma WorkKeepsCall(p: Planning, v: View, c: nat, step: Step, w: View)
    requires !LockStep(step) && CallAction(p, v, c, step) == Some(w)
    ensures SameCall(v.call, w.call)
  {
  }

  lemma StepKeepsCalls(p: Planning, s: State, a: Action, s': State)
    requires Apply(p, s, a) == Some(s')
    ensures SameCalls(s, s')
  {
    if a.Act? {
      var w := CallAction(p, ViewOf(s, a.c), a.c, a.step).value;
      if LockStep(a.step) {
        LockKeepsCall(p, ViewOf(s, a.c), a.c, a.step, w);
      } else {
        WorkKeepsCall(p, ViewOf(s, a.c), a.c, a.step, w);
      }
    }
  }

  lemma {:induction false} RunKeepsCalls(p: Planning, s: State, actions: seq<Action>, n: nat)
    requires n <= |actions|
    ensures Run(p, s, actions, n).Some? ==> SameCalls(s, Run(p, s, actions, n).value)
  {
    if n > 0 {
      RunKeepsCalls(p, s, actions, n - 1);
      if Run(p, s, actions, n).Some? {
        StepKeepsCalls(p, Run(p, s, actions, n - 1).value, actions[n - 1], Run(p, s, actions, n).value);
      }
    }
  }

  // ----- making the calls of a history one after the other -----------------------------------

  /** Call c has not been made. */
  predicate NotMade(start: State, t: State, c: nat) {
    c in start.calls && c in t.calls && t.calls[c] == start.calls[c]
  }

  predicate ReturnedAs(t: State, rec: Record) {
    rec.call in t.calls && t.calls[rec.call].pc == Done(Result(ErrOf(rec), None))
  }

  /** Record j is of a call on instance i that ended by a stop. */
  predicate StoppedIn(start: State, h: seq<Record>, j: nat, i: nat)
    requires j < |h|
  {
    StopExit(h[j].exit) && h[j].call in start.calls && start.calls[h[j].call].inst == i
  }

  /** One of the first n calls stopped instance i. */
  ghost predicate StoppedBy(start: State, h: seq<Record>, n: nat, i: nat)
    requires n <= |h|
  {
    exists j :: 0 <= j < n && StoppedIn(start, h, j, i)
  }

  /** Between two calls an instance is as at the start, except for its stop flag. */
  ghost predicate AtRest(start: State, h: seq<Record>, n: nat, t: State, i: nat)
    requires n <= |h|
  {
    i in t.insts && t.insts[i] == FreshInstance().(stopFlag := StoppedBy(start, h, n, i))
  }

  /** The first n calls of the history have been made, one after the other. */
  ghost predicate MadeFirst(p: Planning, start: State, h: seq<Record>, n: nat, t: State)
    requires n <= |h|
  {
    && t.origin == start.origin && t.row.None? && t.history == h[..n]
    && t.db == ReplayFirst(p, start.origin, h, n)
    && (forall k :: n <= k < |h| ==> NotMade(start, t, h[k].call))
    && (forall k :: 0 <= k < n ==> ReturnedAs(t, h[k]))
    && (forall i :: i in start.insts ==> AtRest(start, h, n, t, i))
  }

  /** The call of record k, before it is made. */
  predicate Startable(start: State, h: seq<Record>, k: nat)
    requires k < |h|
  {
    var c := h[k].call;
    && c in start.calls && start.calls[c].inst in start.insts
    && start.calls[c] == FreshCall(start.calls[c].inst, h[k].cmd, start.calls[c].capacity)
  }

  /** Record k can be realised when its turn comes. */
  ghost predicate ReadyAt(p: Planning, start: State, h: seq<Record>, k: nat) {
    k < |h| ==>
      && ValidAt(p, start.origin, h, k) && Startable(start, h, k) && !h[k].exit.Working?
      && (StoppedBy(start, h, k, start.calls[h[k].call].inst) ==>
            Flagged(p, ReplayFirst(p, start.origin, h, k), h[k]))
  }

  /** The call of record n is made and returns, on a view of the state in between. */
  lemma MakeNextView(p: Planning, start: State, h: seq<Record>, n: nat, t: State) returns (w: View)
    requires PlanningOk(p) && n < |h| && Startable(start, h, n) && NotMade(start, t, h[n].call)
    requires t.row.None? && ValidRecord(p, t.db, h[n]) && !h[n].exit.Working?
    requires AtRest(start, h, n, t, start.calls[h[n].call].inst)
    requires StoppedBy(start, h, n, start.calls[h[n].call].inst) ==> Flagged(p, t.db, h[n])
    ensures RunsAlone(p, t, h[n].call, WriteBack(t, h[n].call, w)) && w.call.inst == start.calls[h[n].call].inst
    ensures Left(p, t.db, t.history, w, h[n],
                 StoppedBy(start, h, n, start.calls[h[n].call].inst) || StopExit(h[n].exit))
  {
    var c := h[n].call;
    if StoppedBy(start, h, n, start.calls[c].inst) {
      w := FlaggedRealised(p, ViewOf(t, c), c, h[n]);
    } else {
      w := OutcomeRealised(p, ViewOf(t, c), c, h[n]);
    }
    LeadsAlone(p, t, c, w);
  }

  lemma StoppedByNext(start: State, h: seq<Record>, n: nat, i: nat)
    requires n < |h|
    ensures StoppedBy(start, h, n + 1, i) <==> StoppedBy(start, h, n, i) || StoppedIn(start, h, n, i)
  {
    if StoppedBy(start, h, n + 1, i) {
      var j :| 0 <= j < n + 1 && StoppedIn(start, h, j, i);
    }
  }

  lemma RestKept(start: State, h: seq<Record>, n: nat, t: State, c: nat, w: View, i: nat)
    requires n < |h| && h[n].call == c && c in start.calls && c in t.calls && t.calls[c].inst == start.calls[c].inst
    requires AtRest(start, h, n, t, i)
    requires w.inst == FreshInstance().(stopFlag := StoppedBy(start, h, n, start.calls[c].inst) || StopExit(h[n].exit))
    ensures AtRest(start, h, n + 1, WriteBack(t, c, w), i)
  {
    StoppedByNext(start, h, n, i);
  }

  lemma OthersNotMade(start: State, t: State, c: nat, w: View, d: nat)
    requires NotMade(start, t, d) && d != c && c in t.calls
    ensures NotMade(start, WriteBack(t, c, w), d)
  {
  }

  lemma OthersReturned(t: State, c: nat, w: View, rec: Record)
    requires ReturnedAs(t, rec) && rec.call != c && c in t.calls
    ensures ReturnedAs(WriteBack(t, c, w), rec)
  {
  }

  lemma MadeOneMore(p: Planning, start: State, h: seq<Record>, n: nat, t: State, w: View)
    requires n < |h| && MadeFirst(p, start, h, n, t) && DistinctCalls(h) && Startable(start, h, n)
    requires Left(p, t.db, t.history, w, h[n],
                  StoppedBy(start, h, n, start.calls[h[n].call].inst) || StopExit(h[n].exit))
    ensures h[n].call in t.calls && MadeFirst(p, start, h, n + 1, WriteBack(t, h[n].call, w))
  {
    var c := h[n].call;
    assert NotMade(start, t, c);
    assert h[..n + 1] == h[..n] + [h[n]];
    forall k | n + 1 <= k < |h| ensures NotMade(start, WriteBack(t, c, w), h[k].call) {
      OthersNotMade(start, t, c, w, h[k].call);
    }
    forall k | 0 <= k < n + 1 ensures ReturnedAs(WriteBack(t, c, w), h[k]) {
      if k < n { OthersReturned(t, c, w, h[k]); }
    }
    forall i | i in start.insts ensures AtRest(start, h, n + 1, WriteBack(t, c, w), i) {
      RestKept(start, h, n, t, c, w, i);
    }
  }

  lemma MakeNext(p: Planning, start: State, h: seq<Record>, n: nat, t: State) returns (u: State)
    requires PlanningOk(p) && n < |h| && MadeFirst(p, start, h, n, t) && DistinctCalls(h) && ReadyAt(p, start, h, n)
    ensures MadeFirst(p, start, h, n + 1, u) && RunsAlone(p, t, h[n].call, u)
  {
    assert NotMade(start, t, h[n].call) && AtRest(start, h, n, t, start.calls[h[n].call].inst);
    var w := MakeNextView(p, start, h, n, t);
    u := WriteBack(t, h[n].call, w);
    MadeOneMore(p, start, h, n, t, w);
  }

  /** The states of a serial run of the first calls of h. */
  ghost predicate Chain(p: Planning, h: seq<Record>, states: seq<State>) {
    && 0 < |states| <= |h| + 1
    && forall k :: 0 <= k < |states| - 1 ==> RunsAlone(p, states[k], h[k].call, states[k + 1])
  }

  /** A serial run of a whole history: its states between the calls. */
  ghost predicate SerialRun(p: Planning, h: seq<Record>, states: seq<State>) {
    |states| == |h| + 1 && Chain(p, h, states)
  }

  lemma AddState(p: Planning, h: seq<Record>, states: seq<State>, next: State)
    requires Chain(p, h, states) && |states| <= |h|
    requires RunsAlone(p, states[|states| - 1], h[|states| - 1].call, next)
    ensures Chain(p, h, states + [next])
  {
  }

  ghost predicate AllReady(p: Planning, start: State, h: seq<Record>) {
    DistinctCalls(h) && forall k: nat {:trigger ReadyAt(p, start, h, k)} :: ReadyAt(p, start, h, k)
  }

  /** A serial run of the first calls of h has led to the last of these states. */
  ghost predicate Serialised(p: Planning, start: State, h: seq<Record>, states: seq<State>) {
    && Chain(p, h, states) && states[0] == start
    && MadeFirst(p, start, h, |states| - 1, states[|states| - 1])
  }

  lemma Extend(p: Planning, start: State, h: seq<Record>, states: seq<State>) returns (more: seq<State>)
    requires PlanningOk(p) && DistinctCalls(h) && Serialised(p, start, h, states) && |states| <= |h|
    requires ReadyAt(p, start, h, |states| - 1)
    ensures Serialised(p, start, h, more) && |more| == |states| + 1
  {
    var next := MakeNext(p, start, h, |states| - 1, states[|states| - 1]);
    AddState(p, h, states, next);
    more := states + [next];
  }

  lemma {:induction false} MakeAll(p: Planning, start: State, h: seq<Record>, n: nat) returns (states: seq<State>)
    requires PlanningOk(p) && AllReady(p, start, h) && Serialised(p, start, h, [start]) && n <= |h|
    ensures Serialised(p, start, h, states) && |states| == n + 1
  {
    if n == 0 {
      states := [start];
    } else {
      states := MakeAll(p, start, h, n - 1);
      assert ReadyAt(p, start, h, n - 1);
      states := Extend(p, start, h, states);
    }
  }

  // ----- the history of an interleaving -----------------------------------------------------------

  /** Every call that got the lock has done its work. */
  predicate AllWorkDone(s: State) {
    forall k :: 0 <= k < |s.history| ==> !s.history[k].exit.Working?
  }

  lemma StoppedByIsAfterStop(s: State, s': State, k: nat)
    requires SameCalls(s, s') && k < |s'.history| && s'.history[k].call in s'.calls
    ensures StoppedBy(s, s'.history, k, s'.calls[s'.history[k].call].inst) ==> AfterStop(s', k)
  {
    var i := s'.calls[s'.history[k].call].inst;
    if StoppedBy(s, s'.history, k, i) {
      var j :| 0 <= j < k && StoppedIn(s, s'.history, j, i);
      assert StoppedOn(s', j, k);
    }
  }

  lemma RecordReady(p: Planning, s: State, s': State, k: nat)
    requires Initial(s) && SameCalls(s, s') && s'.origin == s.origin && k < |s'.history|
    requires AllInv(p, s') && OrderInv(p, s') && !s'.history[k].exit.Working?
    ensures ReadyAt(p, s, s'.history, k)
  {
    assert OutcomeAt(s', k) && ValidAt(p, s.origin, s'.history, k) && OrderAt(p, s', k);
    StoppedByIsAfterStop(s, s', k);
  }

  lemma StartIsMade(p: Planning, s: State, h: seq<Record>)
    requires Initial(s) && forall k :: 0 <= k < |h| ==> h[k].call in s.calls
    ensures Serialised(p, s, h, [s])
  {
    forall i | i in s.insts ensures AtRest(s, h, 0, s, i) { assert !StoppedBy(s, h, 0, i); }
    assert Chain(p, h, [s]);
  }

  /** Every interleaving, once the calls that got the lock have done their work, is equivalent to
      a serial run from the same state: the same calls on the same instances, made one after the
      other in the order they got the lock, each alone, leave the same register, journal and
      records, and return the same errors. */
  lemma SerialRunExists(src: Source, s: State, actions: seq<Action>, s': State) returns (states: seq<State>)
    requires src.Valid() && Reaches(PlanningOf(src), s, actions, s') && AllWorkDone(s')
    ensures SerialRun(PlanningOf(src), s'.history, states) && states[0] == s
    ensures var last := states[|states| - 1];
            && last.db == s'.db && last.history == s'.history && last.row.None?
            && forall k :: 0 <= k < |s'.history| ==> ReturnedAs(last, s'.history[k]) && Concluded(s', k)
  {
    ReachableOrder(src, s, actions, s');
    RunKeepsCalls(PlanningOf(src), s, actions, |actions|);
    RecordsConclude(s');
    states := SerialiseState(PlanningOf(src), s, s');
  }

  lemma SerialiseState(p: Planning, s: State, s': State) returns (states: seq<State>)
    requires PlanningOk(p) && Initial(s) && SameCalls(s, s') && s'.origin == s.origin
    requires AllInv(p, s') && OrderInv(p, s') && AllWorkDone(s')
    ensures SerialRun(p, s'.history, states) && states[0] == s
    ensures var last := states[|states| - 1];
            && last.db == s'.db && last.history == s'.history && last.row.None?
            && forall k :: 0 <= k < |s'.history| ==> ReturnedAs(last, s'.history[k])
  {
    HistoryReady(p, s, s');
    states := SerialiseHistory(p, s, s'.history);
  }

  lemma HistoryReady(p: Planning, s: State, s': State)
    requires Initial(s) && SameCalls(s, s') && s'.origin == s.origin
    requires AllInv(p, s') && OrderInv(p, s') && AllWorkDone(s')
    ensures AllReady(p, s, s'.history) && Serialised(p, s, s'.history, [s])
  {
    var h := s'.history;
    forall k: nat ensures ReadyAt(p, s, h, k) { if k < |h| { RecordReady(p, s, s', k); } }
    RecordsConclude(s');
    forall k | 0 <= k < |h| ensures h[k].call in s.calls { assert Concluded(s', k); }
    StartIsMade(p, s, h);
    assert DistinctCalls(h);
  }

  /** Every history whose records are ready in turn is the history of a serial run. */
  lemma SerialiseHistory(p: Planning, start: State, h: seq<Record>) returns (states: seq<State>)
    requires PlanningOk(p) && AllReady(p, start, h) && Serialised(p, start, h, [start])
    ensures SerialRun(p, h, states) && states[0] == start
    ensures var last := states[|states| - 1];
            && last.db == Replay(p, start.origin, h) && last.history == h && last.row.None?
            && forall k :: 0 <= k < |h| ==> ReturnedAs(last, h[k])
  {
    states := MakeAll(p, start, h, |h|);
    assert h[..|h|] == h;
  }
}

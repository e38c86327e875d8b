/** How far a planner may run ahead of the migrations: the bound of the channel, over whole runs. */
module Prefetch {
  import opened Types
  import opened Engine
  import opened System

  /** The channel holds no more than it was made for, and its size does not change. */
  predicate Room(v: Call, w: Call) {
    w.capacity == v.capacity && (|v.pipe.buf| <= v.capacity ==> |w.pipe.buf| <= w.capacity)
  }

  lemma LockRoom(p: Planning, v: View, c: nat, step: Step, w: View)
    requires LockStep(step) && CallAction(p, v, c, step) == Some(w)
    ensures Room(v.call, w.call)
  {
  }

  lemma ReaderRoom(v: View, step: Step, w: View)
    requires ReaderAction(v, step) == Some(w)
    ensures Room(v.call, w.call)
  {
  }

  lemma ConsumerRoom(p: Planning, v: View, c: nat, step: Step, w: View)
    requires OpenAction(p, v, c, step) == Some(w) || ReceiveAction(v, c, step) == Some(w)
             || ConsumerPollAction(v, c) == Some(w) || MigrateAction(v, c, step) == Some(w)
    ensures Room(v.call, w.call)
  {
  }

  lemma ActionRoom(p: Planning, v: View, c: nat, step: Step, w: View)
    requires CallAction(p, v, c, step) == Some(w)
    ensures Room(v.call, w.call)
  {
    if LockStep(step) {
      LockRoom(p, v, c, step, w);
    } else if step.ReaderPoll? || step.ReaderLook? || step.ReaderSend? || step.ReaderFault? || step.ReaderClose? {
      ReaderRoom(v, step, w);
    } else {
      ConsumerRoom(p, v, c, step, w);
    }
  }

  ghost predicate Bounded(s: State, s': State) {
    && s'.calls.Keys == s.calls.Keys
    && forall c :: c in s.calls ==>
         s'.calls[c].capacity == s.calls[c].capacity && |s'.calls[c].pipe.buf| <= s.calls[c].capacity
  }

  lemma StepBounded(p: Planning, s: State, t: State, a: Action, t': State)
    requires Bounded(s, t) && Apply(p, t, a) == Some(t')
    ensures Bounded(s, t')
  {
    match a
    case Signal(_) =>
    case Act(c, step) =>
      var w := CallAction(p, ViewOf(t, c), c, step).value;
      ActionRoom(p, ViewOf(t, c), c, step, w);
      WriteBounded(s, t, c, w);
  }

  lemma WriteBounded(s: State, t: State, c: nat, w: View)
    requires Bounded(s, t) && c in t.calls && Room(t.calls[c], w.call)
    ensures Bounded(s, WriteBack(t, c, w))
  {
  }

  lemma {:induction false} RunBounded(p: Planning, s: State, actions: seq<Action>, n: nat)
    requires Initial(s) && n <= |actions|
    ensures Run(p, s, actions, n).Some? ==> Bounded(s, Run(p, s, actions, n).value)
  {
    if n > 0 {
      RunBounded(p, s, actions, n - 1);
      if Run(p, s, actions, n).Some? {
        StepBounded(p, s, Run(p, s, actions, n - 1).value, actions[n - 1], Run(p, s, actions, n).value);
      }
    }
  }

  /** In every run a planner has at most as many items waiting in the channel as are to be
      prefetched, and none with an unbuffered channel. */
  lemma PrefetchBounded(p: Planning, s: State, actions: seq<Action>, s': State, c: nat)
    requires Reaches(p, s, actions, s') && c in s.calls
    ensures c in s'.calls && s'.calls[c].capacity == s.calls[c].capacity
    ensures |s'.calls[c].pipe.buf| <= s.calls[c].capacity
  {
    RunBounded(p, s, actions, |actions|);
  }
}

/** Any number of Migrate instances and calls against one database: every goroutine of
    migrate.go (caller, lock attempt, reader) and the driver's lock row, one atomic action
    at a time. A run is any sequence of enabled actions. */
module System {
  import opened Types
  import opened Engine

  /** Inside stop(): about to read the flag; flag read clear; token taken, flag not yet set. */
  datatype PollPc = Asking | SawClear | Took

  /** The goroutine that calls the driver's Lock. */
  datatype Locker =
    | Unborn
    | Spawned
    | InTx                     // the driver's flag was swapped to true
    | Restoring(err: Err)      // the transaction failed; the flag is to be restored
    | Got
    | Failed(err: Err)

  /** Why a reader ended before the end of its script. */
  datatype Cut = Whole | StopCut | FaultCut

  datatype Reader = NoReader | Reader(todo: seq<Op>, poll: PollPc, cut: Cut, closed: bool)

  /** What a call returned: its own error and the one unlock added. */
  datatype Result = Result(err: Option<Err>, unlockErr: Option<Err>)

  /** Program counter of the calling goroutine. */
  datatype Pc =
    | Start
    | LockWait                              // holds isLockedMu, waits on errchan
    | VersionRead
    | ForceWrite
    | Receive
    | Polling(item: Item, poll: PollPc)
    | WriteDirty(m: Migration)
    | ExecBody(m: Migration)
    | WriteClean(m: Migration)
    | UnlockWait(err: Option<Err>)
    | UnlockHeld(err: Option<Err>)          // holds isLockedMu again
    | UnlockDelete(err: Option<Err>)        // driver flag swapped to false, row still there
    | UnlockRestore(err: Option<Err>)
    | UnlockClear(err: Option<Err>)         // row gone, isLocked still set
    | Done(result: Result)

  /** The channel of a call: the reader's plan, script and state, the buffer, and what was
      received. */
  datatype Pipe = Pipe(plan: seq<Item>, script: seq<Op>, reader: Reader, buf: seq<Item>, received: seq<Item>)

  const NO_PIPE := Pipe([], [], NoReader, [], [])

  datatype Call = Call(
    inst: nat, cmd: Cmd, capacity: nat,
    pc: Pc, locker: Locker, released: bool, entered: bool,
    pipe: Pipe, pr: Progress)

  datatype Instance = Instance(
    mutex: Option<nat>, isLocked: bool, driverFlag: bool, stopFlag: bool, signal: bool)

  datatype State = State(
    origin: Db, db: Db, row: Option<nat>,
    insts: map<nat, Instance>, calls: map<nat, Call>, history: seq<Record>)

  /** An atomic action of one of the goroutines of a call; `fault` is a failing driver call. */
  datatype Step =
    | CallBegin | LockerCas | LockerTx(fault: bool) | LockerRestore | LockReturn | LockTimedOut
    | ReadVersion(fault: bool) | WriteForce(fault: bool)
    | ReaderPoll | ReaderLook | ReaderSend | ReaderFault | ReaderClose
    | Handoff | Take | SeeClosed | ConsumerPoll
    | SetDirty(fault: bool) | RunMigration(fault: bool) | SetClean(fault: bool)
    | UnlockAcquire | UnlockCas | DeleteRow(fault: bool) | RestoreFlag | ClearLocked

  datatype Action = Signal(i: nat) | Act(c: nat, step: Step)

  // ----- pieces of the transition function ---------------------------------------

  function FreshCall(inst: nat, cmd: Cmd, capacity: nat): Call {
    Call(inst, cmd, capacity, Start, Unborn, false, false, NO_PIPE, NO_PROGRESS)
  }

  function FreshInstance(): Instance {
    Instance(None, false, false, false, false)
  }

  predicate Initial(s: State) {
    && s.db == s.origin && s.origin.version >= NIL_VERSION && s.row.None? && s.history == []
    && (forall i :: i in s.insts ==> s.insts[i] == FreshInstance())
    && (forall c :: c in s.calls ==>
          var call := s.calls[c];
          && call == FreshCall(call.inst, call.cmd, call.capacity)
          && call.inst in s.insts && CmdOk(call.cmd))
  }

  /** What an action of call c can see and change: the call, its instance, and the database. */
  datatype View = View(call: Call, inst: Instance, row: Option<nat>, db: Db, history: seq<Record>)

  function ViewOf(s: State, c: nat): View
    requires c in s.calls && s.calls[c].inst in s.insts
  {
    View(s.calls[c], s.insts[s.calls[c].inst], s.row, s.db, s.history)
  }

  function WriteBack(s: State, c: nat, v: View): State
    requires c in s.calls
  {
    State(s.origin, v.db, v.row, s.insts[s.calls[c].inst := v.inst],
          s.calls[c := v.call], v.history)
  }

  function AtPc(v: View, pc: Pc): View {
    v.(call := v.call.(pc := pc))
  }

  /** The call's progress and exit become its record, the last one of the history. */
  function Note(v: View, c: nat, forced: bool, exit: Exit): View {
    var front := if |v.history| == 0 then [] else v.history[..|v.history| - 1];
    v.(history := front + [Record(c, v.call.cmd, v.call.pr, forced, exit)])
  }

  /** The consumer returns: go and unlock. */
  function Leave(v: View, c: nat, err: Option<Err>, exit: Exit): View {
    Note(AtPc(v, UnlockWait(err)), c, false, exit)
  }

  function Return(v: View, err: Option<Err>, unlockErr: Option<Err>): View {
    AtPc(v, Done(Result(err, unlockErr)))
  }

  function WithLocker(v: View, l: Locker): View {
    v.(call := v.call.(locker := l))
  }

  function WithReader(v: View, r: Reader): View {
    v.(call := v.call.(pipe := v.call.pipe.(reader := r)))
  }

  function Mutex(v: View, owner: Option<nat>): View {
    v.(inst := v.inst.(mutex := owner))
  }

  function DriverFlag(v: View, on: bool): View {
    v.(inst := v.inst.(driverFlag := on))
  }

  /** One micro step of stop(): the next poll state or the answer, and the instance after it. */
  datatype PollStep = Ask(next: PollPc, inst: Instance) | Answer(stop: bool, inst: Instance)

  function StopStep(poll: PollPc, inst: Instance): PollStep {
    match poll
    case Asking => if inst.stopFlag then Answer(true, inst) else Ask(SawClear, inst)
    case SawClear =>
      if inst.signal then Ask(Took, inst.(signal := false)) else Answer(false, inst)
    case Took => Answer(true, inst.(stopFlag := true))
  }

  // ----- locking -------------------------------------------------------------------

  ghost function LockAction(v: View, c: nat, step: Step): Option<View> {
    var pc, locker := v.call.pc, v.call.locker;
    match step
    case CallBegin =>
      if !pc.Start? then None
      else if EarlyError(v.call.cmd).Some? then Some(Return(v, EarlyError(v.call.cmd), None))
      else if v.inst.mutex.Some? then None
      else if v.inst.isLocked then Some(Return(v, Some(Locked), None))
      else Some(WithLocker(Mutex(AtPc(v, LockWait), Some(c)), Spawned))
    case LockerCas =>
      if !locker.Spawned? then None
      else if v.inst.driverFlag then Some(WithLocker(v, Failed(Locked)))
      else Some(WithLocker(DriverFlag(v, true), InTx))
    case LockerTx(fault) =>
      if !locker.InTx? then None
      else if fault then Some(WithLocker(v, Restoring(DriverFault)))
      else if v.row.Some? then Some(WithLocker(v, Restoring(Locked)))
      else Some(WithLocker(v, Got).(row := Some(c)))
    case LockerRestore =>
      if !locker.Restoring? then None
      else Some(WithLocker(DriverFlag(v, false), Failed(locker.err)))
    case LockReturn =>
      if !pc.LockWait? then None
      else if locker.Failed? then Some(Return(Mutex(v, None), Some(locker.err), None))
      else if locker.Got? then
        var call' := v.call.(pc := if v.call.cmd.Force? then ForceWrite else VersionRead, entered := true);
        Some(v.(call := call', inst := v.inst.(mutex := None, isLocked := true),
                history := v.history + [Record(c, call'.cmd, call'.pr, false, Working)]))
      else None
    case LockTimedOut =>
      if !pc.LockWait? then None else Some(Return(Mutex(v, None), Some(LockTimeout), None))
    case _ => None
  }

  ghost function UnlockAction(v: View, c: nat, step: Step): Option<View> {
    var pc := v.call.pc;
    match step
    case UnlockAcquire =>
      if !pc.UnlockWait? || v.inst.mutex.Some? then None
      else Some(Mutex(AtPc(v, UnlockHeld(pc.err)), Some(c)))
    case UnlockCas =>
      if !pc.UnlockHeld? then None
      else if !v.inst.driverFlag then Some(Return(Mutex(v, None), pc.err, Some(NotLocked)))
      else Some(DriverFlag(AtPc(v, UnlockDelete(pc.err)), false))
    case DeleteRow(fault) =>
      if !pc.UnlockDelete? then None
      else if fault then Some(AtPc(v, UnlockRestore(pc.err)))
      else Some(v.(call := v.call.(pc := UnlockClear(pc.err), released := true), row := None))
    case RestoreFlag =>
      if !pc.UnlockRestore? then None
      else Some(Return(Mutex(DriverFlag(v, true), None), pc.err, Some(DriverFault)))
    case ClearLocked =>
      if !pc.UnlockClear? then None
      else Some(Return(v.(inst := v.inst.(mutex := None, isLocked := false)), pc.err, None))
    case _ => None
  }

  // ----- reading the register, forcing it -------------------------------------------

  ghost function OpenAction(p: Planning, v: View, c: nat, step: Step): Option<View>
  {
    var pc, cmd := v.call.pc, v.call.cmd;
    match step
    case ReadVersion(fault) =>
      if !pc.VersionRead? then None
      else if fault then Some(Leave(v, c, Some(DriverFault), Refused(DriverFault)))
      else if v.db.dirty then
        Some(Leave(v, c, Some(DirtyVersion(v.db.version)), Refused(DirtyVersion(v.db.version))))
      else
        var script := p.script(cmd, v.db.version);
        var pipe := Pipe(p.plan(cmd, v.db.version), script, Reader(script, Asking, Whole, false), [], []);
        Some(v.(call := v.call.(pc := Receive, pipe := pipe)))
    case WriteForce(fault) =>
      if !pc.ForceWrite? || !cmd.Force? then None
      else if fault then Some(Leave(v, c, Some(DriverFault), DriverError))
      else Some(Note(AtPc(v, UnlockWait(None)), c, true, Drained(false)).(db := ForceTo(v.db, cmd.v)))
    case _ => None
  }

  // ----- the reader goroutine ----------------------------------------------------------

  ghost function ReaderAction(v: View, step: Step): Option<View> {
    var r, buf := v.call.pipe.reader, v.call.pipe.buf;
    if r.NoReader? || r.closed then None else
    match step
    case ReaderPoll =>
      if |r.todo| == 0 || !r.todo[0].Poll? then None
      else
        (match StopStep(r.poll, v.inst)
         case Ask(next, inst') => Some(WithReader(v.(inst := inst'), r.(poll := next)))
         case Answer(stop, inst') =>
           Some(WithReader(v.(inst := inst'),
                           if stop then Reader([], Asking, StopCut, false)
                           else r.(todo := r.todo[1..], poll := Asking))))
    case ReaderSend =>
      if |r.todo| == 0 || !r.todo[0].Send? || |buf| >= v.call.capacity then None
      else
        var pipe := v.call.pipe.(reader := r.(todo := r.todo[1..]), buf := buf + [r.todo[0].item]);
        Some(v.(call := v.call.(pipe := pipe)))
    case ReaderLook =>
      if |r.todo| == 0 || !r.todo[0].Look? then None
      else Some(WithReader(v, r.(todo := r.todo[1..])))
    case ReaderFault =>
      if |r.todo| == 0 || !r.todo[0].Look? then None
      else Some(WithReader(v, Reader([Send(Fail(SourceFault))], Asking, FaultCut, false)))
    case ReaderClose =>
      if |r.todo| > 0 then None else Some(WithReader(v, r.(closed := true)))
    case _ => None
  }

  // ----- the consumer --------------------------------------------------------------------

  function Received(v: View, pipe: Pipe, item: Item): View {
    v.(call := v.call.(pipe := pipe.(received := pipe.received + [item]), pc := Polling(item, Asking)))
  }

  ghost function ReceiveAction(v: View, c: nat, step: Step): Option<View> {
    var r, buf := v.call.pipe.reader, v.call.pipe.buf;
    if !v.call.pc.Receive? || r.NoReader? then None else
    match step
    case Handoff =>   // an unbuffered send meets the waiting receiver
      if |buf| > 0 || r.closed || |r.todo| == 0 || !r.todo[0].Send? then None
      else Some(Received(v, v.call.pipe.(reader := r.(todo := r.todo[1..])), r.todo[0].item))
    case Take =>
      if |buf| == 0 then None
      else Some(Received(v, v.call.pipe.(buf := buf[1..]), buf[0]))
    case SeeClosed =>
      if |buf| > 0 || !r.closed then None
      else Some(Leave(v, c, None, Drained(r.cut.StopCut?)))
    case _ => None
  }

  ghost function ConsumerPollAction(v: View, c: nat): Option<View> {
    var pc := v.call.pc;
    if !pc.Polling? then None else
    match StopStep(pc.poll, v.inst)
    case Ask(next, inst') => Some(AtPc(v.(inst := inst'), Polling(pc.item, next)))
    case Answer(stop, inst') =>
      var w := v.(inst := inst');
      if stop then Some(Leave(w, c, None, StopSeen))
      else if pc.item.Fail? then Some(Leave(w, c, Some(pc.item.err), PlanError(pc.item.err)))
      else Some(AtPc(w, WriteDirty(pc.item.migration)))
  }

  function Advance(v: View, stage: Stage): View {
    v.(call := v.call.(pr := v.call.pr.(stage := stage)))
  }

  ghost function MigrateAction(v: View, c: nat, step: Step): Option<View> {
    var pc := v.call.pc;
    match step
    case SetDirty(fault) =>
      if !pc.WriteDirty? then None
      else if fault then Some(Leave(v, c, Some(DriverFault), DriverError))
      else
        var next := if pc.m.body.Some? then ExecBody(pc.m) else WriteClean(pc.m);
        Some(Note(AtPc(Advance(v, Dirtied), next), c, false, Working).(db := Begin(v.db, pc.m)))
    case RunMigration(fault) =>
      if !pc.ExecBody? then None
      else
        var w := Advance(v, BodyRun(!fault)).(db := RunBody(v.db, pc.m, !fault));
        if fault then Some(Leave(w, c, Some(DriverFault), DriverError))
        else Some(Note(AtPc(w, WriteClean(pc.m)), c, false, Working))
    case SetClean(fault) =>
      if !pc.WriteClean? then None
      else if fault then Some(Leave(v, c, Some(DriverFault), DriverError))
      else
        var w := v.(call := v.call.(pc := Receive, pr := Progress(v.call.pr.done + 1, Untouched)),
                    db := Finish(v.db, pc.m));
        Some(Note(w, c, false, Working))
    case _ => None
  }

  /** Taking the lock and giving it back. */
  predicate LockStep(step: Step) {
    || step.CallBegin? || step.LockerCas? || step.LockerTx? || step.LockerRestore? || step.LockReturn?
    || step.LockTimedOut? || step.UnlockAcquire? || step.UnlockCas? || step.DeleteRow? || step.RestoreFlag?
    || step.ClearLocked?
  }

  // ----- all actions -----------------------------------------------------------------------

  ghost function CallAction(p: Planning, v: View, c: nat, step: Step): Option<View>
  {
    match step
    case CallBegin | LockerCas | LockerTx(_) | LockerRestore | LockReturn | LockTimedOut =>
      LockAction(v, c, step)
    case ReadVersion(_) | WriteForce(_) => OpenAction(p, v, c, step)
    case ReaderPoll | ReaderLook | ReaderSend | ReaderFault | ReaderClose => ReaderAction(v, step)
    case Handoff | Take | SeeClosed => ReceiveAction(v, c, step)
    case ConsumerPoll => ConsumerPollAction(v, c)
    case SetDirty(_) | RunMigration(_) | SetClean(_) => MigrateAction(v, c, step)
    case UnlockAcquire | UnlockCas | DeleteRow(_) | RestoreFlag | ClearLocked =>
      UnlockAction(v, c, step)
  }

  /** The state after an action, or None if the action is not enabled. */
  ghost function Apply(p: Planning, s: State, a: Action): Option<State>
  {
    match a
    case Signal(i) =>
      if i !in s.insts || s.insts[i].signal then None
      else Some(s.(insts := s.insts[i := s.insts[i].(signal := true)]))
    case Act(c, step) =>
      if c !in s.calls || s.calls[c].inst !in s.insts then None
      else
        match CallAction(p, ViewOf(s, c), c, step)
        case None => None
        case Some(v) => Some(WriteBack(s, c, v))
  }

  /** A run: the first n actions, one after the other; None if one of them was not enabled. */
  ghost function Run(p: Planning, s: State, actions: seq<Action>, n: nat): Option<State>
    requires n <= |actions|
  {
    if n == 0 then Some(s)
    else
      match Run(p, s, actions, n - 1)
      case None => None
      case Some(s') => Apply(p, s', actions[n - 1])
  }

  /** The state an interleaving leads to from an initial state. */
  ghost predicate Reaches(p: Planning, s: State, actions: seq<Action>, s': State)
  {
    Initial(s) && Run(p, s, actions, |actions|) == Some(s')
  }

  // ----- runs one after the other --------------------------------------------------------

  /** Steps as a value of its own; `Stepper` is the one of this system. */
  type Step1 = (State, Action) -> Option<State>

  ghost function Stepper(p: Planning): Step1 {
    (s, a) => Apply(p, s, a)
  }

  ghost function RunWith(go: Step1, s: State, actions: seq<Action>, n: nat): Option<State>
    requires n <= |actions|
  {
    if n == 0 then Some(s)
    else match RunWith(go, s, actions, n - 1)
      case None => None
      case Some(t) => go(t, actions[n - 1])
  }

  lemma {:induction false} RunIsRunWith(p: Planning, s: State, actions: seq<Action>, n: nat)
    requires n <= |actions|
    ensures Run(p, s, actions, n) == RunWith(Stepper(p), s, actions, n)
  {
    if n > 0 { RunIsRunWith(p, s, actions, n - 1); }
  }

  lemma RunOne(p: Planning, s: State, a: Action, s': State)
    requires Apply(p, s, a) == Some(s')
    ensures Run(p, s, [a], |[a]|) == Some(s')
  {
    assert Run(p, s, [a], 0) == Some(s);
  }

  lemma {:induction false} RunPrefix(go: Step1, s: State, first: seq<Action>, rest: seq<Action>, n: nat)
    requires n <= |first|
    ensures RunWith(go, s, first + rest, n) == RunWith(go, s, first, n)
  {
    if n > 0 { RunPrefix(go, s, first, rest, n - 1); }
  }

  lemma {:induction false} RunThen(go: Step1, s: State, first: seq<Action>, t: State, rest: seq<Action>, n: nat)
    requires n <= |rest| && RunWith(go, s, first, |first|) == Some(t)
    ensures RunWith(go, s, first + rest, |first| + n) == RunWith(go, t, rest, n)
  {
    if n == 0 {
      RunPrefix(go, s, first, rest, |first|);
    } else {
      RunThen(go, s, first, t, rest, n - 1);
      assert (first + rest)[|first| + n - 1] == rest[n - 1];
    }
  }

  lemma RunConcat(p: Planning, s: State, first: seq<Action>, t: State, rest: seq<Action>, u: State)
    requires Run(p, s, first, |first|) == Some(t) && Run(p, t, rest, |rest|) == Some(u)
    ensures Run(p, s, first + rest, |first + rest|) == Some(u)
  {
    RunIsRunWith(p, s, first, |first|);
    RunIsRunWith(p, t, rest, |rest|);
    RunIsRunWith(p, s, first + rest, |first + rest|);
    RunThen(Stepper(p), s, first, t, rest, |rest|);
  }

  /** Some run leads from s to t. */
  ghost predicate CanReach(p: Planning, s: State, t: State) {
    exists actions :: RunsTo(p, s, actions, t)
  }

  ghost predicate RunsTo(p: Planning, s: State, actions: seq<Action>, t: State) {
    Run(p, s, actions, |actions|) == Some(t)
  }

  lemma ReachSelf(p: Planning, s: State)
    ensures CanReach(p, s, s)
  {
    assert RunsTo(p, s, [], s);
  }

  lemma ReachOne(p: Planning, s: State, a: Action, t: State)
    requires Apply(p, s, a) == Some(t)
    ensures CanReach(p, s, t)
  {
    RunOne(p, s, a, t);
    assert RunsTo(p, s, [a], t);
  }

  lemma ReachThen(p: Planning, s: State, t: State, u: State)
    requires CanReach(p, s, t) && CanReach(p, t, u)
    ensures CanReach(p, s, u)
  {
    var first :| RunsTo(p, s, first, t);
    var rest :| RunsTo(p, t, rest, u);
    RunConcat(p, s, first, t, rest, u);
    assert RunsTo(p, s, first + rest, u);
  }
}

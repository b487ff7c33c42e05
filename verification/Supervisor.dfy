/**
  The embedded-process supervisor as a transition system. Any number of children, one
  waiter goroutine per child, one starter, one stopper, the mutex, the `stopping` flag, the
  children's context and the root context. Every interleaving of these atomic steps is a run.
 */
module Supervisor {
  import opened GoErrors
  import opened Contexts

  // ---------------------------------------------------------------- state

  /** Program counter of a waiter goroutine: blocked in Wait, holding its result, then inside
      the critical section (locked, decided, published), then finished. */
  datatype Waiter = Blocked | Returned | Locked | Decided | Published | Finished

  datatype Process = Process(
    name: string,
    exited: bool,             // the operating system process has ended
    killed: bool,             // SIGKILL was delivered
    waiter: Waiter,
    result: Option<Error>,    // the waiter's local: what Wait returned
    waitErr: Option<Error>,   // the shared field
    done: bool,               // the done channel is closed
    // history
    stoppedRoot: bool,        // its waiter called stopRoot
    early: bool,              // published before stop's locked section
    killTried: bool           // stop called Kill on it
  )

  datatype Holder = Free | Starter | Stopper | WaiterOf(p: nat)

  /** The starter inside `start`: it holds the mutex, and `Clear` once both checks passed. */
  datatype StartPc = Idle | Holding | Clear

  datatype StopPc =
    | NotCalled
    | Called
    | Marking                 // holds the mutex
    | Sorting(i: nat)         // holds the mutex, splits the processes
    | Unlocked                // before cancelChildren
    | Awaiting(i: nat)        // first wait loop
    | Checking                // the ctx.Err() test
    | Killing(i: nat)
    | Forcing(i: nat)         // found a survivor, Kill not yet called
    | Reaping(i: nat)         // final wait loop
    | Ended

  datatype State = State(
    ctx: Cell,
    lock: Holder,
    stopping: bool,
    childrenCancelled: bool,
    procs: seq<Process>,
    start: StartPc,
    stop: StopPc,
    running: seq<nat>,
    unexpected: seq<nat>,
    deadline: bool,           // stop's own context expired
    errs: seq<Option<Error>>,
    // history
    survivors: seq<nat>,              // found unfinished past the deadline
    outcomes: seq<Option<Error>>      // what Kill returned for each
  )

  const INIT := State(None, Free, false, false, [], Idle, NotCalled, [], [], false, [], [], [])

  // ---------------------------------------------------------------- error classification

  function ExitOf(p: Process): Error {
    InfraExit(p.name, p.waitErr)
  }

  /** `shutdownError`. */
  function ShutdownError(name: string, waitErr: Option<Error>): Option<Error> {
    match waitErr
    case None => None
    case Some(err) =>
      if Is(err, Canceled) then None
      else
        match FindExit(err)
        case Some(ExitError(Some(Signaled(signal)))) =>
          if signal == SIGTERM then None
          else if signal == SIGKILL then Some(Wrapped(name + " required forced shutdown", err))
          else Some(Wrapped(name + " shutdown failed", err))
        case _ => Some(Wrapped(name + " shutdown failed", err))
  }

  /** A process that ended well: no error, a cancellation, or death by SIGTERM. */
  predicate EndedWell(waitErr: Option<Error>) {
    || waitErr.None?
    || Is(waitErr.value, Canceled)
    || FindExit(waitErr.value) == Some(ExitError(Some(Signaled(SIGTERM))))
  }

  /** These are numbers of processes. */
  predicate Known(procs: seq<Process>, ids: seq<nat>) {
    forall k | 0 <= k < |ids| :: ids[k] < |procs|
  }

  function Exits(procs: seq<Process>, ids: seq<nat>): seq<Option<Error>>
    requires Known(procs, ids)
  {
    seq(|ids|, k requires 0 <= k < |ids| => Some(ExitOf(procs[ids[k]])))
  }

  function Finals(procs: seq<Process>, ids: seq<nat>): seq<Option<Error>>
    requires Known(procs, ids)
  {
    seq(|ids|, k requires 0 <= k < |ids| => ShutdownError(procs[ids[k]].name, procs[ids[k]].waitErr))
  }

  /** The errors one Kill adds: the survivor, and a kill failure other than "already done". */
  function KillErrors(name: string, outcome: Option<Error>): seq<Option<Error>> {
    [Some(Wrapped(name + " exceeded shutdown deadline", DeadlineExceeded))]
    + if outcome.Some? && !Is(outcome.value, ProcessDone)
      then [Some(Wrapped("force " + name + " shutdown", outcome.value))] else []
  }

  /** The errors of survivors with these names, in order, given what Kill returned for each. */
  function KillList(names: seq<string>, outcomes: seq<Option<Error>>): (kills: seq<Option<Error>>)
    requires |names| == |outcomes|
    ensures kills == [] <==> names == []
    ensures forall k | 0 <= k < |kills| :: kills[k].Some?
  {
    if names == [] then []
    else
      KillList(names[..|names| - 1], outcomes[..|names| - 1])
      + KillErrors(names[|names| - 1], outcomes[|names| - 1])
  }

  lemma KillListMore(names: seq<string>, outcomes: seq<Option<Error>>, name: string, outcome: Option<Error>)
    requires |names| == |outcomes|
    ensures KillList(names + [name], outcomes + [outcome]) == KillList(names, outcomes) + KillErrors(name, outcome)
  {
    assert (names + [name])[..|names|] == names && (outcomes + [outcome])[..|names|] == outcomes;
  }

  function NamesOf(procs: seq<Process>, ids: seq<nat>): seq<string>
    requires Known(procs, ids)
  {
    seq(|ids|, k requires 0 <= k < |ids| => procs[ids[k]].name)
  }

  function KillsOf(procs: seq<Process>, ids: seq<nat>, outcomes: seq<Option<Error>>): (kills: seq<Option<Error>>)
    requires |ids| == |outcomes| && Known(procs, ids)
    ensures kills == [] <==> ids == []
    ensures forall k | 0 <= k < |kills| :: kills[k].Some?
  {
    KillList(NamesOf(procs, ids), outcomes)
  }

  // ---------------------------------------------------------------- steps

  /** stop has entered its locked section. */
  predicate HandedOff(s: State) {
    !s.stop.NotCalled? && !s.stop.Called?
  }

  predicate IsDone(s: State, p: nat) {
    p < |s.procs| && s.procs[p].done
  }

  // The world outside the supervisor.

  datatype OutsideStep =
    | Signal(signal: int)            // the operator
    | StopRoot(cause: Error)         // another failure calls stopRoot
    | Deadline                       // stop's context expires

  predicate OutsideEnabled(s: State, step: OutsideStep) {
    match step
    case Signal(_) => s.ctx.None?
    case StopRoot(_) => s.ctx.None?
    case Deadline => !s.deadline && !s.stop.NotCalled?
  }

  function OutsideApply(s: State, step: OutsideStep): State {
    match step
    case Signal(signal) => s.(ctx := Cancel(s.ctx, Stop(SignalReceived(signal), Operator)))
    case StopRoot(cause) => s.(ctx := Cancel(s.ctx, Stop(cause, Caller)))
    case Deadline => s.(deadline := true)
  }

  // `start`, under the mutex: both checks, then the spawn.

  datatype StartStep = Lock | Refuse | Pass | Fail | Spawn(name: string)

  predicate StartEnabled(s: State, step: StartStep) {
    match step
    case Lock => s.start.Idle? && s.lock.Free?
    case Refuse => s.start.Holding? && (s.ctx.Some? || s.stopping)
    case Pass => s.start.Holding? && s.ctx.None? && !s.stopping
    case Fail => s.start.Clear?
    case Spawn(_) => s.start.Clear?
  }

  function StartApply(s: State, step: StartStep): State {
    match step
    case Lock => s.(start := Holding, lock := Starter)
    case Refuse => s.(start := Idle, lock := Free)
    case Pass => s.(start := Clear)
    case Fail => s.(start := Idle, lock := Free)
    case Spawn(name) =>
      s.(start := Idle, lock := Free,
         procs := s.procs + [Process(name, false, false, Blocked, None, None, false, false, false, false)])
  }

  // One child and its waiter goroutine.

  datatype ChildStep =
    | Exit                                   // the child ends
    | GraceKill                              // os/exec kills it WaitDelay after its context ended
    | WaitReturns(result: Option<Error>)
    | LockWaiter
    | Decide                                 // store the result; unless stopping, stop the root
    | Publish                                // close done
    | UnlockWaiter

  predicate ChildEnabled(s: State, p: nat, step: ChildStep)
    requires p < |s.procs|
  {
    var x := s.procs[p];
    match step
    case Exit => !x.exited
    case GraceKill => s.childrenCancelled && !x.exited && !x.killed
    // Wait returns a cancellation only if the command's context was already done.
    case WaitReturns(result) => x.waiter.Blocked? && x.exited && (IsErr(result, Canceled) ==> s.childrenCancelled)
    case LockWaiter => x.waiter.Returned? && s.lock.Free?
    case Decide => x.waiter.Locked?
    case Publish => x.waiter.Decided?
    case UnlockWaiter => x.waiter.Published?
  }

  function ChildApply(s: State, p: nat, step: ChildStep): State
    requires p < |s.procs|
  {
    var x := s.procs[p];
    match step
    case Exit => s.(procs := s.procs[p := x.(exited := true)])
    case GraceKill => s.(procs := s.procs[p := x.(killed := true)])
    case WaitReturns(result) => s.(procs := s.procs[p := x.(waiter := Returned, result := result)])
    case LockWaiter => s.(procs := s.procs[p := x.(waiter := Locked)], lock := WaiterOf(p))
    case Decide =>
      var y := x.(waiter := Decided, waitErr := x.result, stoppedRoot := !s.stopping);
      var t := s.(procs := s.procs[p := y]);
      if s.stopping then t else t.(ctx := Cancel(s.ctx, Stop(ExitOf(y), Child(p))))
    case Publish => s.(procs := s.procs[p := x.(waiter := Published, done := true, early := !HandedOff(s))])
    case UnlockWaiter => s.(procs := s.procs[p := x.(waiter := Finished)], lock := Free)
  }

  // `stop`: the handoff.

  datatype HandoffStep = CallStop | LockStop | Mark | SortNext | UnlockStop | CancelChildren

  predicate HandoffEnabled(s: State, step: HandoffStep) {
    match step
    case CallStop => s.stop.NotCalled?
    case LockStop => s.stop.Called? && s.lock.Free?
    case Mark => s.stop.Marking?
    case SortNext => s.stop.Sorting? && s.stop.i < |s.procs|
    case UnlockStop => s.stop == Sorting(|s.procs|)
    case CancelChildren => s.stop.Unlocked?
  }

  function HandoffApply(s: State, step: HandoffStep): State
    requires HandoffEnabled(s, step)
  {
    match step
    case CallStop => s.(stop := Called)
    case LockStop => s.(stop := Marking, lock := Stopper)
    case Mark => s.(stop := Sorting(0), stopping := true)
    case SortNext =>
      var i := s.stop.i;
      if s.procs[i].done then s.(stop := Sorting(i + 1), unexpected := s.unexpected + [i])
      else s.(stop := Sorting(i + 1), running := s.running + [i])
    case UnlockStop => s.(stop := Unlocked, lock := Free)
    case CancelChildren => s.(stop := Awaiting(0), childrenCancelled := true)
  }

  // `stop`: the graceful wait, then the test of its own context.

  datatype AwaitStep = SawDone | SawDeadline | AllDone | TestDeadline

  predicate AwaitEnabled(s: State, step: AwaitStep) {
    match step
    case SawDone => s.stop.Awaiting? && s.stop.i < |s.running| && IsDone(s, s.running[s.stop.i])
    case SawDeadline => s.stop.Awaiting? && s.stop.i < |s.running| && s.deadline
    case AllDone => s.stop == Awaiting(|s.running|)
    case TestDeadline => s.stop.Checking? && Known(s.procs, s.unexpected)
  }

  function AwaitApply(s: State, step: AwaitStep): State
    requires AwaitEnabled(s, step)
  {
    match step
    case SawDone => s.(stop := Awaiting(s.stop.i + 1))
    case SawDeadline => s.(stop := Checking)
    case AllDone => s.(stop := Checking)
    case TestDeadline =>
      s.(stop := if s.deadline then Killing(0) else Reaping(0), errs := Exits(s.procs, s.unexpected))
  }

  // `stop`: killing the survivors of the deadline.

  datatype KillStep = SkipDone | FindSurvivor | Kill(outcome: Option<Error>) | KillsDone

  predicate KillEnabled(s: State, step: KillStep) {
    match step
    case SkipDone => s.stop.Killing? && s.stop.i < |s.running| && IsDone(s, s.running[s.stop.i])
    case FindSurvivor => s.stop.Killing? && s.stop.i < |s.running| && !IsDone(s, s.running[s.stop.i])
    case Kill(outcome) =>
      && s.stop.Forcing? && s.stop.i < |s.running| && s.running[s.stop.i] < |s.procs|
      && (IsErr(outcome, ProcessDone) ==> s.procs[s.running[s.stop.i]].exited)
    case KillsDone => s.stop == Killing(|s.running|)
  }

  /** Kill is called on the current survivor. */
  function KillSurvivor(s: State, outcome: Option<Error>): State
    requires s.stop.Forcing? && s.stop.i < |s.running| && s.running[s.stop.i] < |s.procs|
  {
    var p := s.running[s.stop.i];
    s.(stop := Killing(s.stop.i + 1),
       errs := s.errs + KillErrors(s.procs[p].name, outcome),
       survivors := s.survivors + [p], outcomes := s.outcomes + [outcome],
       procs := s.procs[p := s.procs[p].(killTried := true, killed := s.procs[p].killed || outcome.None?)])
  }

  function KillApply(s: State, step: KillStep): State
    requires KillEnabled(s, step)
  {
    match step
    case SkipDone => s.(stop := Killing(s.stop.i + 1))
    case FindSurvivor => s.(stop := Forcing(s.stop.i))
    case Kill(outcome) => KillSurvivor(s, outcome)
    case KillsDone => s.(stop := Reaping(0))
  }

  // `stop`: the final wait, which collects how each process ended.

  datatype ReapStep = Reap | Return

  predicate ReapEnabled(s: State, step: ReapStep) {
    match step
    case Reap => s.stop.Reaping? && s.stop.i < |s.running| && IsDone(s, s.running[s.stop.i])
    case Return => s.stop == Reaping(|s.running|)
  }

  function ReapApply(s: State, step: ReapStep): State
    requires ReapEnabled(s, step)
  {
    match step
    case Reap =>
      var x := s.procs[s.running[s.stop.i]];
      s.(stop := Reaping(s.stop.i + 1), errs := s.errs + [ShutdownError(x.name, x.waitErr)])
    case Return => s.(stop := Ended)
  }

  // All of them.

  datatype Step =
    | Outside(outside: OutsideStep)
    | Starting(start: StartStep)
    | OfChild(p: nat, child: ChildStep)
    | Handoff(handoff: HandoffStep)
    | Await(await: AwaitStep)
    | Force(kill: KillStep)
    | Final(reap: ReapStep)

  predicate Enabled(s: State, step: Step) {
    match step
    case Outside(o) => OutsideEnabled(s, o)
    case Starting(st) => StartEnabled(s, st)
    case OfChild(p, c) => p < |s.procs| && ChildEnabled(s, p, c)
    case Handoff(h) => HandoffEnabled(s, h)
    case Await(a) => AwaitEnabled(s, a)
    case Force(k) => KillEnabled(s, k)
    case Final(r) => ReapEnabled(s, r)
  }

  function Apply(s: State, step: Step): State
    requires Enabled(s, step)
  {
    match step
    case Outside(o) => OutsideApply(s, o)
    case Starting(st) => StartApply(s, st)
    case OfChild(p, c) => ChildApply(s, p, c)
    case Handoff(h) => HandoffApply(s, h)
    case Await(a) => AwaitApply(s, a)
    case Force(k) => KillApply(s, k)
    case Final(r) => ReapApply(s, r)
  }

  /** The value `stop` returns. */
  function StopResult(s: State): Option<Error> {
    Join(s.errs)
  }

  // ---------------------------------------------------------------- runs

  predicate ValidRun(s: State, steps: seq<Step>)
    decreases |steps|
  {
    steps == [] || (Enabled(s, steps[0]) && ValidRun(Apply(s, steps[0]), steps[1..]))
  }

  function Run(s: State, steps: seq<Step>): State
    requires ValidRun(s, steps)
    decreases |steps|
  {
    if steps == [] then s else Run(Apply(s, steps[0]), steps[1..])
  }
}

/**
  One whole run of `start-all-in-one`: the Action's main goroutine, which starts the embedded
  processes and the services, waits, shuts both down and forms the verdict, interleaved with the
  supervisor's waiters, the children and the operator. What the services do while they start and
  close is in module Services; here each is one call with any outcome.
 */
module AllInOne {
  import opened GoErrors
  import opened Contexts
  import opened Supervisor
  import opened SupervisorSafety

  /** The Action's program counter. */
  datatype Pc =
    | Entry                                    // startAllInOneInfra: ctx.Err()
    | Preparing                                // data directories
    | Spawning(k: nat)                         // start of the k-th embedded process
    | Readying                                 // listeners and replica set
    | InfraExamine                             // the switch of the Action
    | InfraFailing                             // its default branch: stopRoot
    | ServicesStarting                         // startServices
    | ServicesUp                               // ctx.Err() before bundle_ready
    | ServicesIdle                             // <-ctx.Done()
    | ServicesExamine                          // the switch of runServices
    | ServicesFailing                          // its default branch: stopRoot
    | ServicesClosing                          // stopServices
    | Stopping(err: Option<Error>)             // infra.stop
    | Complete(result: Option<Error>)

  /** An embedded process to start: its name and its command. */
  datatype Launch = Launch(name: string, command: string)

  datatype Run = Run(
    launches: seq<Launch>,          // the embedded processes to start
    sup: State,
    pc: Pc,
    startErr: Option<Error>,     // what startup returned
    // history
    excused: bool,               // the switch put startErr down to the operator
    closeErr: Option<Error>,     // what stopServices returned
    ready: bool                  // bundle_ready was emitted
  )

  function Start(launches: seq<Launch>): Run {
    Run(launches, INIT, Entry, None, false, None, false)
  }

  // ---------------------------------------------------------------- the main goroutine

  /** One step of the main goroutine. `outcome` is what the call made in this step returns. */
  predicate MainEnabled(r: Run) {
    match r.pc
    case Spawning(k) => k < |r.launches| && r.sup.start.Idle? ==> r.sup.lock.Free?
    case ServicesIdle => r.sup.ctx.Some?
    case Stopping(_) => r.sup.stop.Ended?
    case Complete(_) => false
    case _ => true
  }

  /** The supervisor step contained in a main step. */
  function MainTouches(r: Run, outcome: Option<Error>): Option<Supervisor.Step> {
    match r.pc
    case Spawning(k) =>
      if k >= |r.launches| then None
      else Some(Starting(
        if r.sup.start.Idle? then Lock
        else if r.sup.start.Holding? then (if r.sup.ctx.Some? || r.sup.stopping then Refuse else Pass)
        else if outcome.Some? then Fail
        else Spawn(r.launches[k].name)))
    case InfraFailing => StopRootOnce(r)
    case ServicesFailing => StopRootOnce(r)
    case _ => None
  }

  function StopRootOnce(r: Run): Option<Supervisor.Step> {
    if r.sup.ctx.None? && r.startErr.Some? then Some(Outside(StopRoot(r.startErr.value))) else None
  }

  function Failed(r: Run, err: Error, pc: Pc): Run {
    r.(startErr := Some(err), pc := pc)
  }

  /** What startAllInOneInfra makes of an error of `start`. */
  function StartFailure(l: Launch, err: Error): Error {
    Wrapped("start " + l.command, err)
  }

  /** The rest of a main step, after its supervisor step. */
  function MainMoves(r: Run, outcome: Option<Error>): Run {
    match r.pc
    case Entry => if r.sup.ctx.Some? then Failed(r, Canceled, InfraExamine) else r.(pc := Preparing)
    case Preparing =>
      if outcome.Some? then Failed(r, Wrapped("failed to create data dir", outcome.value), InfraExamine)
      else r.(pc := Spawning(0))
    case Spawning(k) =>
      if k >= |r.launches| then r.(pc := Readying)
      else if r.sup.start.Idle? then r
      else if r.sup.start.Holding? && r.sup.ctx.Some? then
        Failed(r, StartFailure(r.launches[k], Canceled), InfraExamine)
      else if r.sup.start.Holding? && r.sup.stopping then
        Failed(r, StartFailure(r.launches[k], Opaque("after embedded process shutdown")), InfraExamine)
      else if r.sup.start.Holding? then r
      else if outcome.Some? then
        Failed(r, StartFailure(r.launches[k], Wrapped("start " + r.launches[k].name, outcome.value)), InfraExamine)
      else r.(pc := Spawning(k + 1))
    case Readying =>
      if outcome.Some? then Failed(r, outcome.value, InfraExamine)
      else r.(pc := ServicesStarting)
    case InfraExamine =>
      if StoppedByOperator(r.sup.ctx) then r.(excused := true, pc := Stopping(None)) else r.(pc := InfraFailing)
    case InfraFailing => r.(pc := Stopping(r.startErr))
    case ServicesStarting =>
      if outcome.Some? then Failed(r, outcome.value, ServicesExamine) else r.(pc := ServicesUp)
    case ServicesUp => r.(ready := r.sup.ctx.None?, pc := ServicesIdle)
    case ServicesIdle => r.(pc := ServicesClosing)
    case ServicesExamine =>
      if StoppedByOperator(r.sup.ctx) then r.(excused := true, pc := ServicesClosing) else r.(pc := ServicesFailing)
    case ServicesFailing => r.(pc := ServicesClosing)
    case ServicesClosing => r.(closeErr := outcome, pc := Stopping(Join([Verdict(r), outcome])))
    case Stopping(err) => r.(pc := Complete(Join([err, StopResult(r.sup)])))
    case Complete(_) => r
  }

  /** What is left of the startup error after the switch. */
  function Verdict(r: Run): Option<Error> {
    if r.excused then None else r.startErr
  }

  // ---------------------------------------------------------------- all steps

  datatype Move =
    | Main(outcome: Option<Error>)
    | InStop(step: Supervisor.Step)     // the main goroutine inside infra.stop
    | World(step: Supervisor.Step)       // the operator, the deadline, children and their waiters

  predicate IsStop(step: Supervisor.Step) {
    step.Handoff? || step.Await? || step.Force? || step.Final?
  }

  predicate IsWorld(step: Supervisor.Step) {
    step.OfChild? || (step.Outside? && !step.outside.StopRoot?)
  }

  predicate Can(r: Run, move: Move) {
    match move
    case Main(outcome) =>
      var touched := MainTouches(r, outcome);
      MainEnabled(r) && (touched.Some? ==> Enabled(r.sup, touched.value))
    case InStop(step) => r.pc.Stopping? && IsStop(step) && Enabled(r.sup, step)
    case World(step) => IsWorld(step) && Enabled(r.sup, step)
  }

  /** The supervisor steps of a move: none or one. */
  function Touches(r: Run, move: Move): seq<Supervisor.Step> {
    match move
    case Main(outcome) => if MainTouches(r, outcome).Some? then [MainTouches(r, outcome).value] else []
    case InStop(step) => [step]
    case World(step) => [step]
  }

  function Do(r: Run, move: Move): Run
    requires Can(r, move)
  {
    var sup := if Touches(r, move) == [] then r.sup else Apply(r.sup, Touches(r, move)[0]);
    if move.Main? then MainMoves(r, move.outcome).(sup := sup) else r.(sup := sup)
  }

  predicate ValidMoves(r: Run, moves: seq<Move>)
    decreases |moves|
  {
    moves == [] || (Can(r, moves[0]) && ValidMoves(Do(r, moves[0]), moves[1..]))
  }

  function DoAll(r: Run, moves: seq<Move>): Run
    requires ValidMoves(r, moves)
    decreases |moves|
  {
    if moves == [] then r else DoAll(Do(r, moves[0]), moves[1..])
  }

  // ---------------------------------------------------------------- the invariant

  predicate ShuttingDown(pc: Pc) {
    pc.ServicesClosing? || pc.Stopping? || pc.Complete?
  }

  /** In the switch on a startup error. */
  predicate Examining(pc: Pc) {
    pc.InfraExamine? || pc.InfraFailing? || pc.ServicesExamine? || pc.ServicesFailing?
  }

  predicate BeforeSpawning(pc: Pc) {
    pc.Entry? || pc.Preparing?
  }

  predicate ServicesPhase(pc: Pc) {
    pc.ServicesStarting? || pc.ServicesUp? || pc.ServicesIdle? || pc.ServicesExamine? || pc.ServicesFailing?
    || pc.ServicesClosing?
  }

  ghost predicate Consistent(r: Run) {
    Inv(r.sup) && Phases(r) && Excuses(r) && Verdicts(r)
  }

  ghost predicate Phases(r: Run) {
    // stop runs only at the end; start runs only in its own phase
    && (r.sup.stop.NotCalled? || r.pc.Stopping? || r.pc.Complete?)
    && (r.pc.Complete? ==> r.sup.stop.Ended?)
    && (r.sup.start.Idle? || (r.pc.Spawning? && r.pc.k < |r.launches|))
    && (BeforeSpawning(r.pc) ==> r.sup.procs == [])
    && (r.pc.Spawning? ==> r.pc.k <= |r.launches| && |r.sup.procs| == r.pc.k)
    && (r.pc.Readying? || ServicesPhase(r.pc) ==> |r.sup.procs| == |r.launches|)
    && |r.sup.procs| <= |r.launches|
  }

  ghost predicate Excuses(r: Run) {
    // the root is stopped before anything is shut down, and by this goroutine only with an error
    && (ShuttingDown(r.pc) ==> r.sup.ctx.Some?)
    && (r.sup.ctx.Some? && r.sup.ctx.value.who.Caller? ==>
          ShuttingDown(r.pc) && Verdict(r).Some? && r.sup.ctx.value.cause == Verdict(r).value)
    // the startup error and its excuse
    && (Examining(r.pc) ==> r.startErr.Some?)
    && (r.startErr.Some? ==> Examining(r.pc) || ShuttingDown(r.pc))
    && (r.excused ==> ShuttingDown(r.pc) && r.startErr.Some? && r.sup.ctx.Some? && r.sup.ctx.value.who.Operator?)
  }

  ghost predicate Verdicts(r: Run) {
    && (r.ready ==> r.startErr.None? && (r.pc.ServicesIdle? || ShuttingDown(r.pc)) && |r.sup.procs| == |r.launches|)
    && (r.closeErr.Some? ==> r.pc.Stopping? || r.pc.Complete?)
    && (r.pc.Stopping? ==> Collects(r.pc.err, [Verdict(r), r.closeErr]))
    && (r.pc.Complete? ==> Collects(r.pc.result, [Verdict(r), r.closeErr, StopResult(r.sup)]))
  }

  /** `err` is nil exactly if every part is, and matches a target exactly if some part does. */
  ghost predicate Collects(err: Option<Error>, parts: seq<Option<Error>>) {
    && (err.None? <==> forall k | 0 <= k < |parts| :: parts[k].None?)
    && forall target: Error | !target.Joined? ::
         IsErr(err, target) <==> exists k | 0 <= k < |parts| :: IsErr(parts[k], target)
  }

  lemma JoinCollects(parts: seq<Option<Error>>)
    ensures Collects(Join(parts), parts)
  {
    forall target: Error | !target.Joined?
      ensures IsErr(Join(parts), target) <==> exists k | 0 <= k < |parts| :: IsErr(parts[k], target)
    {
      JoinMeaning(parts, target);
    }
    JoinMeaning(parts, Canceled);
  }

  lemma FirstCollects(err: Option<Error>)
    ensures Collects(err, [err, None])
  {
    assert [err, None][0] == err;
    assert [err, None][1] == None;
  }

  /** Joining one more part to what was collected. */
  lemma JoinMore(err: Option<Error>, a: Option<Error>, b: Option<Error>, c: Option<Error>)
    requires Collects(err, [a, b])
    ensures Collects(Join([err, c]), [a, b, c])
  {
    JoinCollects([err, c]);
    var two, outer, all := [a, b], [err, c], [a, b, c];
    assert two[0] == a && two[1] == b && outer[0] == err && outer[1] == c;
    assert all[0] == a && all[1] == b && all[2] == c;
  }

  /** A child's exit is not an operator stop, and until the switch nothing else stops the root. */
  lemma OperatorTestIsExact(s: State)
    requires Inv(s) && (s.ctx.Some? ==> !s.ctx.value.who.Caller?)
    ensures StoppedByOperator(s.ctx) <==> s.ctx.Some? && s.ctx.value.who.Operator?
  {
    if s.ctx.Some? && s.ctx.value.who.Child? {
      assert ProcessOk(s, s.ctx.value.who.id);
    }
  }

  /** What the bookkeeping of the main goroutine sees of a step it did not make. */
  ghost predicate Unseen(s: State, t: State) {
    && t.start == s.start && |t.procs| == |s.procs|
    && (s.ctx.Some? ==> t.ctx == s.ctx)
    && (s.ctx.None? && t.ctx.Some? ==> !t.ctx.value.who.Caller?)
  }

  lemma WorldUnseen(s: State, step: Supervisor.Step)
    requires IsWorld(step) && Enabled(s, step)
    ensures Unseen(s, Apply(s, step)) && Apply(s, step).stop == s.stop && Apply(s, step).errs == s.errs
  {
  }

  lemma StopUnseen(s: State, step: Supervisor.Step)
    requires IsStop(step) && Enabled(s, step)
    ensures Unseen(s, Apply(s, step)) && !s.stop.Ended?
  {
  }

  lemma UnseenKeepsBooks(r: Run, t: State)
    requires Phases(r) && Excuses(r) && Verdicts(r) && Unseen(r.sup, t)
    requires (t.stop == r.sup.stop && t.errs == r.sup.errs) || (r.pc.Stopping? && !r.sup.stop.Ended?)
    ensures Phases(r.(sup := t)) && Excuses(r.(sup := t)) && Verdicts(r.(sup := t))
  {
  }

  /** The main goroutine is inside `start` for its next process. */
  predicate InStart(r: Run) {
    r.pc.Spawning? && r.pc.k < |r.launches|
  }

  /** What a main step does to the supervisor. */
  ghost predicate MainDid(r: Run, outcome: Option<Error>, t: State) {
    && t.stop == r.sup.stop && t.errs == r.sup.errs
    && (if r.pc.InfraFailing? || r.pc.ServicesFailing?
        then t.ctx == if r.sup.ctx.Some? || r.startErr.None? then r.sup.ctx else Some(Stop(r.startErr.value, Caller))
        else t.ctx == r.sup.ctx)
    && (!InStart(r) ==> t.start == r.sup.start && |t.procs| == |r.sup.procs|)
    && (InStart(r) && r.sup.start.Clear? ==>
          t.start.Idle? && |t.procs| == |r.sup.procs| + if outcome.None? then 1 else 0)
    && (InStart(r) && !r.sup.start.Clear? ==>
          && |t.procs| == |r.sup.procs|
          && (r.sup.start.Holding? && (r.sup.ctx.Some? || r.sup.stopping) ==> t.start.Idle?))
  }

  lemma StartTouchMeaning(r: Run, outcome: Option<Error>)
    requires InStart(r) && Can(r, Main(outcome))
    ensures MainDid(r, outcome, Do(r, Main(outcome)).sup)
  {
  }

  lemma MainTouchMeaning(r: Run, outcome: Option<Error>)
    requires Can(r, Main(outcome))
    ensures MainDid(r, outcome, Do(r, Main(outcome)).sup)
  {
    if InStart(r) {
      StartTouchMeaning(r, outcome);
    } else {
      var t := Do(r, Main(outcome)).sup;
      assert t.start == r.sup.start && t.procs == r.sup.procs && t.stop == r.sup.stop && t.errs == r.sup.errs;
    }
  }

  lemma InStartKeepsPhases(r: Run, outcome: Option<Error>, t: State)
    requires Phases(r) && InStart(r) && MainDid(r, outcome, t)
    ensures Phases(MainMoves(r, outcome).(sup := t))
  {
  }

  lemma MainKeepsPhases(r: Run, outcome: Option<Error>, t: State)
    requires Phases(r) && Excuses(r) && MainEnabled(r) && MainDid(r, outcome, t)
    ensures Phases(MainMoves(r, outcome).(sup := t))
  {
    if InStart(r) {
      InStartKeepsPhases(r, outcome, t);
    } else {
      assert |t.procs| == |r.sup.procs| && t.start == r.sup.start && t.stop == r.sup.stop;
    }
  }

  lemma MainKeepsExcuses(r: Run, outcome: Option<Error>, t: State)
    requires Excuses(r) && MainEnabled(r) && MainDid(r, outcome, t)
    requires r.sup.ctx.Some? && !r.sup.ctx.value.who.Caller? ==>
      (StoppedByOperator(r.sup.ctx) <==> r.sup.ctx.value.who.Operator?)
    ensures Excuses(MainMoves(r, outcome).(sup := t))
  {
    if r.pc.InfraExamine? || r.pc.ServicesExamine? {
      assert t.ctx == r.sup.ctx && (r.sup.ctx.Some? ==> !r.sup.ctx.value.who.Caller?);
    }
  }

  lemma MainKeepsVerdicts(r: Run, outcome: Option<Error>)
    requires Phases(r) && Excuses(r) && Verdicts(r) && Can(r, Main(outcome))
    ensures Verdicts(Do(r, Main(outcome)))
  {
    match r.pc
    case ServicesClosing => JoinCollects([Verdict(r), outcome]);
    case Stopping(err) => JoinMore(err, Verdict(r), r.closeErr, StopResult(r.sup));
    case InfraExamine => FirstCollects(None);
    case InfraFailing => FirstCollects(r.startErr);
    case _ =>
  }

  /** The invariant holds along every run. */
  lemma MoveKeepsConsistent(r: Run, move: Move)
    requires Consistent(r) && Can(r, move)
    ensures Consistent(Do(r, move))
  {
    if Touches(r, move) != [] {
      StepKeepsInv(r.sup, Touches(r, move)[0]);
    }
    match move
    case World(step) =>
      WorldUnseen(r.sup, step);
      UnseenKeepsBooks(r, Apply(r.sup, step));
    case InStop(step) =>
      StopUnseen(r.sup, step);
      UnseenKeepsBooks(r, Apply(r.sup, step));
    case Main(outcome) =>
      var t := Do(r, move).sup;
      MainTouchMeaning(r, outcome);
      MainKeepsPhases(r, outcome, t);
      if r.sup.ctx.Some? && !r.sup.ctx.value.who.Caller? {
        OperatorTestIsExact(r.sup);
      }
      MainKeepsExcuses(r, outcome, t);
      MainKeepsVerdicts(r, outcome);
  }
}

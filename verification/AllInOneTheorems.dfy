/** The promises of a whole `start-all-in-one` run, over every schedule. */
module AllInOneTheorems {
  import opened GoErrors
  import opened Contexts
  import opened Supervisor
  import opened SupervisorSafety
  import opened SupervisorTheorems
  import opened AllInOne
  import Live = SupervisorLiveness

  lemma {:induction false} MovesKeepConsistent(r: Run, moves: seq<Move>)
    requires Consistent(r) && ValidMoves(r, moves)
    ensures Consistent(DoAll(r, moves))
    decreases |moves|
  {
    if moves == [] {
    } else {
      MoveKeepsConsistent(r, moves[0]);
      MovesKeepConsistent(Do(r, moves[0]), moves[1..]);
    }
  }

  lemma StartConsistent(launches: seq<Launch>)
    ensures Consistent(Start(launches))
  {
    InitInv();
  }

  lemma RunsAreConsistent(launches: seq<Launch>, moves: seq<Move>)
    requires ValidMoves(Start(launches), moves)
    ensures Consistent(DoAll(Start(launches), moves))
  {
    StartConsistent(launches);
    MovesKeepConsistent(Start(launches), moves);
  }

  // ---------------------------------------------------------------- the verdict

  /** A run that ends without an error, and so reports a complete shutdown, was stopped by the
      operator: the first cancellation of the root was a signal. No child exited on its own
      before the handoff, none survived the deadline, every child ended well, every service
      closed, and a startup error, if any, met the stop already there. */
  lemma CleanExitMeansOperatorStop(launches: seq<Launch>, moves: seq<Move>)
    requires ValidMoves(Start(launches), moves) && DoAll(Start(launches), moves).pc == Complete(None)
    ensures var r := DoAll(Start(launches), moves);
      && r.sup.ctx.Some? && r.sup.ctx.value.who.Operator? && StoppedByOperator(r.sup.ctx)
      && (r.startErr.None? || r.excused) && r.closeErr.None?
      && r.sup.survivors == []
      && forall p | 0 <= p < |r.sup.procs| :: !r.sup.procs[p].stoppedRoot && EndedWell(r.sup.procs[p].waitErr)
  {
    var r := DoAll(Start(launches), moves);
    RunsAreConsistent(launches, moves);
    NoErrorAtAll(r);
    EndedReports(r.sup);
    NothingUnexpected(r.sup);
    CleanStopIsOperator(r);
  }

  lemma NoErrorAtAll(r: Run)
    requires Verdicts(r) && r.pc == Complete(None)
    ensures Verdict(r).None? && r.closeErr.None? && StopResult(r.sup).None?
  {
    var parts := [Verdict(r), r.closeErr, StopResult(r.sup)];
    assert parts[0] == Verdict(r) && parts[1] == r.closeErr && parts[2] == StopResult(r.sup);
  }

  /** Who stopped a root, if not a failure that is in the verdict and not a child. */
  lemma CleanStopIsOperator(r: Run)
    requires Inv(r.sup) && Excuses(r) && r.pc.Complete? && Verdict(r).None?
    requires forall p | 0 <= p < |r.sup.procs| :: !r.sup.procs[p].stoppedRoot
    ensures r.sup.ctx.Some? && r.sup.ctx.value.who.Operator? && StoppedByOperator(r.sup.ctx)
  {
  }

  lemma NothingUnexpected(s: State)
    requires Inv(s) && s.stop.Ended? && StopReport(s) && StopResult(s).None?
    ensures forall p | 0 <= p < |s.procs| :: !s.procs[p].stoppedRoot && EndedWell(s.procs[p].waitErr)
  {
    forall p | 0 <= p < |s.procs| ensures !s.procs[p].stoppedRoot && EndedWell(s.procs[p].waitErr) {
      ExpectedEnd(s, p);
    }
  }

  lemma ExpectedEnd(s: State, p: nat)
    requires Inv(s) && s.stop.Ended? && p < |s.procs| && s.unexpected == []
    requires forall k | 0 <= k < |s.running| :: s.running[k] < |s.procs| && EndedWell(s.procs[s.running[k]].waitErr)
    ensures !s.procs[p].stoppedRoot && EndedWell(s.procs[p].waitErr)
  {
    EndedReapsAll(s, p);
    assert ProcessOk(s, p);
    SplitMembers(s.procs, |s.procs|, s.unexpected, s.running, p);
    var k :| 0 <= k < |s.running| && s.running[k] == p;
  }

  /** The verdict is exact: nil if and only if startup did not fail or is excused, the services
      closed, and the children were stopped cleanly; and it matches an error exactly if the
      unexcused startup error, the services' close error or the children's stop error does. */
  lemma VerdictIsExact(launches: seq<Launch>, moves: seq<Move>)
    requires ValidMoves(Start(launches), moves) && DoAll(Start(launches), moves).pc.Complete?
    ensures var r := DoAll(Start(launches), moves);
      && r.sup.stop.Ended? && StopReport(r.sup)
      && Collects(r.pc.result, [if r.excused then None else r.startErr, r.closeErr, StopResult(r.sup)])
  {
    RunsAreConsistent(launches, moves);
    EndedReports(DoAll(Start(launches), moves).sup);
  }

  /** A startup error is dropped if and only if, when the switch looked, the root had been stopped
      and its first cause was the operator's signal. Otherwise the verdict keeps it. */
  lemma StartupErrorVerdict(launches: seq<Launch>, moves: seq<Move>, outcome: Option<Error>)
    requires ValidMoves(Start(launches), moves) && Can(DoAll(Start(launches), moves), Main(outcome))
    requires DoAll(Start(launches), moves).pc.InfraExamine? || DoAll(Start(launches), moves).pc.ServicesExamine?
    ensures var r := DoAll(Start(launches), moves);
      && r.startErr.Some?
      && (Verdict(Do(r, Main(outcome))).None? <==> r.sup.ctx.Some? && r.sup.ctx.value.who.Operator?)
      && (Verdict(Do(r, Main(outcome))).Some? ==> Verdict(Do(r, Main(outcome))) == r.startErr)
  {
    var r := DoAll(Start(launches), moves);
    RunsAreConsistent(launches, moves);
    OperatorTestIsExact(r.sup);
  }

  /** bundle_ready is emitted exactly where runServices looks at a live root, after startup without an
      error. At that moment every embedded process is spawned and none has been seen to exit: no
      result is published, and no waiter has stopped the root. */
  lemma ReadyMeansUp(launches: seq<Launch>, moves: seq<Move>, move: Move)
    requires ValidMoves(Start(launches), moves) && Can(DoAll(Start(launches), moves), move)
    ensures var r := DoAll(Start(launches), moves);
      !r.ready && Do(r, move).ready <==> move.Main? && r.pc.ServicesUp? && r.sup.ctx.None?
    ensures var r := DoAll(Start(launches), moves);
      !r.ready && Do(r, move).ready ==>
        && r.startErr.None? && |r.sup.procs| == |launches|
        && forall p | 0 <= p < |r.sup.procs| :: !r.sup.procs[p].done && !r.sup.procs[p].stoppedRoot
  {
    var r := DoAll(Start(launches), moves);
    RunsAreConsistent(launches, moves);
    LaunchesStay(Start(launches), moves);
    ReadyMove(r, move);
    if r.sup.ctx.None? && r.sup.stop.NotCalled? {
      LiveRootMeansRunning(r.sup);
    }
  }

  ghost predicate AllRunning(s: State) {
    forall p | 0 <= p < |s.procs| :: !s.procs[p].done && !s.procs[p].stoppedRoot
  }

  lemma ReadyMove(r: Run, move: Move)
    requires Phases(r) && Excuses(r) && Verdicts(r) && Can(r, move)
    ensures !r.ready && Do(r, move).ready <==> move.Main? && r.pc.ServicesUp? && r.sup.ctx.None?
    ensures r.pc.ServicesUp? ==> r.sup.stop.NotCalled? && r.startErr.None? && |r.sup.procs| == |r.launches|
  {
  }

  lemma LiveRootMeansRunning(s: State)
    requires Inv(s) && s.ctx.None? && s.stop.NotCalled?
    ensures AllRunning(s)
  {
    forall p | 0 <= p < |s.procs| ensures !s.procs[p].done && !s.procs[p].stoppedRoot {
      assert ProcessOk(s, p);
    }
  }

  /** It is emitted at most once, and a run that emitted it had no startup error. */
  lemma {:induction false} ReadyStays(launches: seq<Launch>, moves: seq<Move>, more: seq<Move>)
    requires ValidMoves(Start(launches), moves) && ValidMoves(DoAll(Start(launches), moves), more)
    requires DoAll(Start(launches), moves).ready
    ensures DoAll(DoAll(Start(launches), moves), more).ready
    ensures DoAll(DoAll(Start(launches), moves), more).startErr.None?
    ensures |DoAll(DoAll(Start(launches), moves), more).sup.procs| == |launches|
  {
    RunsAreConsistent(launches, moves);
    MovesKeepConsistent(DoAll(Start(launches), moves), more);
    LaunchesStay(Start(launches), moves);
    LaunchesStay(DoAll(Start(launches), moves), more);
    ReadyPersists(DoAll(Start(launches), moves), more);
  }

  lemma {:induction false} ReadyPersists(r: Run, moves: seq<Move>)
    requires Consistent(r) && r.ready && ValidMoves(r, moves)
    ensures DoAll(r, moves).ready
    decreases |moves|
  {
    if moves == [] {
    } else {
      MoveKeepsConsistent(r, moves[0]);
      ReadyMoveStays(r, moves[0]);
      ReadyPersists(Do(r, moves[0]), moves[1..]);
    }
  }

  lemma ReadyMoveStays(r: Run, move: Move)
    requires Verdicts(r) && r.ready && Can(r, move)
    ensures Do(r, move).ready
  {
  }

  lemma {:induction false} LaunchesStay(r: Run, moves: seq<Move>)
    requires ValidMoves(r, moves)
    ensures DoAll(r, moves).launches == r.launches
    decreases |moves|
  {
    if moves == [] {
    } else {
      LaunchesStay(Do(r, moves[0]), moves[1..]);
    }
  }

  /** Whatever path the Action took, at its return every child it ever spawned has ended and was
      waited for. */
  lemma NoChildOutlivesTheAction(launches: seq<Launch>, moves: seq<Move>, p: nat)
    requires ValidMoves(Start(launches), moves) && DoAll(Start(launches), moves).pc.Complete?
    requires p < |DoAll(Start(launches), moves).sup.procs|
    ensures IsDone(DoAll(Start(launches), moves).sup, p) && DoAll(Start(launches), moves).sup.procs[p].exited
  {
    RunsAreConsistent(launches, moves);
    EndedReapsAll(DoAll(Start(launches), moves).sup, p);
  }

  // ---------------------------------------------------------------- failures, from the calls to the result

  /** The failure that a main step before the switch meets: a stopped root at the entry or at a start, a
      stop under way, or the error of the call made in this step. */
  function FailureMet(r: Run, outcome: Option<Error>): Option<Error> {
    match r.pc
    case Entry => if r.sup.ctx.Some? then Some(Canceled) else None
    case Preparing => outcome
    case Spawning(k) =>
      if k >= |r.launches| || r.sup.start.Idle? then None
      else if r.sup.start.Clear? then outcome
      else if r.sup.ctx.Some? then Some(Canceled)
      else if r.sup.stopping then Some(Opaque("after embedded process shutdown"))
      else None
    case Readying => outcome
    case ServicesStarting => outcome
    case _ => None
  }

  /** Nothing of the services has begun. */
  predicate InfraPhase(pc: Pc) {
    pc.Entry? || pc.Preparing? || pc.Spawning? || pc.Readying?
  }

  predicate StartingPhase(pc: Pc) {
    InfraPhase(pc) || pc.ServicesStarting?
  }

  /** A step records exactly the failure that it meets, and goes to the switch exactly then. */
  lemma FailureIsRecorded(r: Run, outcome: Option<Error>)
    requires Excuses(r) && Verdicts(r) && StartingPhase(r.pc) && Can(r, Main(outcome))
    ensures r.startErr.None? && SameCause(Do(r, Main(outcome)).startErr, FailureMet(r, outcome))
    ensures FailureMet(r, outcome).Some? <==>
      Do(r, Main(outcome)).pc == if r.pc.ServicesStarting? then ServicesExamine else InfraExamine
    ensures !Do(r, Main(outcome)).ready
  {
    if outcome.Some? && InStart(r) {
      var inner := Wrapped("start " + r.launches[r.pc.k].name, outcome.value);
      WrappedSame("start " + r.launches[r.pc.k].name, outcome.value);
      WrappedSame("start " + r.launches[r.pc.k].command, inner);
    } else if outcome.Some? {
      WrappedSame("failed to create data dir", outcome.value);
    }
  }

  lemma WrappedSame(text: string, err: Error)
    ensures SameCause(Some(Wrapped(text, err)), Some(err))
  {
  }

  /** A run past a failure of the infrastructure, or of the services' start. */
  predicate PastFailure(r: Run, err: Error, infra: bool) {
    && r.startErr == Some(err) && !r.ready
    && (if infra then r.pc.InfraExamine? || r.pc.InfraFailing? || r.pc.Stopping? || r.pc.Complete?
        else Examining(r.pc) || ShuttingDown(r.pc))
  }

  lemma PastFailureStep(r: Run, move: Move, err: Error, infra: bool)
    requires PastFailure(r, err, infra) && Can(r, move)
    ensures PastFailure(Do(r, move), err, infra)
  {
  }

  lemma {:induction false} PastFailureStays(r: Run, moves: seq<Move>, err: Error, infra: bool)
    requires PastFailure(r, err, infra) && ValidMoves(r, moves)
    ensures PastFailure(DoAll(r, moves), err, infra)
    decreases |moves|
  {
    if moves == [] {
    } else {
      PastFailureStep(r, moves[0], err, infra);
      PastFailureStays(Do(r, moves[0]), moves[1..], err, infra);
    }
  }

  /** The result shows a startup failure unless the operator had stopped the root. */
  ghost predicate ShowsFailure(r: Run, cause: Option<Error>) {
    r.pc.Complete? && !(r.sup.ctx.Some? && r.sup.ctx.value.who.Operator?) ==>
      r.pc.result.Some? && forall target | IsCause(target) && IsErr(cause, target) :: IsErr(r.pc.result, target)
  }

  lemma FailureShows(r: Run, cause: Option<Error>)
    requires Consistent(r) && r.startErr.Some? && SameCause(r.startErr, cause)
    ensures ShowsFailure(r, cause)
  {
    if r.pc.Complete? && !r.excused {
      var parts := [Verdict(r), r.closeErr, StopResult(r.sup)];
      assert parts[0] == r.startErr;
    }
  }

  /** Whatever a step of startup meets as a failure is final: bundle_ready is never emitted; if it was
      met before the services, those are never started; and the result shows it, unless the operator
      had stopped the root. */
  lemma StartupFailureIsFinal(launches: seq<Launch>, before: seq<Move>, outcome: Option<Error>, after: seq<Move>)
    requires ValidMoves(Start(launches), before) && Can(DoAll(Start(launches), before), Main(outcome))
    requires FailureMet(DoAll(Start(launches), before), outcome).Some?
    requires ValidMoves(Do(DoAll(Start(launches), before), Main(outcome)), after)
    ensures var r := DoAll(Start(launches), before); var t := DoAll(Do(r, Main(outcome)), after);
      && !t.ready && (InfraPhase(r.pc) ==> !ServicesPhase(t.pc))
      && SameCause(t.startErr, FailureMet(r, outcome)) && ShowsFailure(t, FailureMet(r, outcome))
  {
    RunsAreConsistent(launches, before);
    FailureIsFinal(DoAll(Start(launches), before), outcome, after);
  }

  lemma FailureIsFinal(r: Run, outcome: Option<Error>, after: seq<Move>)
    requires Consistent(r) && Can(r, Main(outcome)) && FailureMet(r, outcome).Some?
    requires ValidMoves(Do(r, Main(outcome)), after)
    ensures var t := DoAll(Do(r, Main(outcome)), after);
      && !t.ready && (InfraPhase(r.pc) ==> !ServicesPhase(t.pc))
      && SameCause(t.startErr, FailureMet(r, outcome)) && ShowsFailure(t, FailureMet(r, outcome))
  {
    var f := Do(r, Main(outcome));
    FailureIsRecorded(r, outcome);
    MoveKeepsConsistent(r, Main(outcome));
    PastFailureEnds(f, after, FailureMet(r, outcome), InfraPhase(r.pc));
  }

  lemma PastFailureEnds(f: Run, after: seq<Move>, cause: Option<Error>, infra: bool)
    requires Consistent(f) && f.startErr.Some? && PastFailure(f, f.startErr.value, infra) && ValidMoves(f, after)
    requires SameCause(f.startErr, cause)
    ensures var t := DoAll(f, after);
      && !t.ready && (infra ==> !ServicesPhase(t.pc)) && SameCause(t.startErr, cause) && ShowsFailure(t, cause)
  {
    PastFailureStays(f, after, f.startErr.value, infra);
    MovesKeepConsistent(f, after);
    FailureShows(DoAll(f, after), cause);
  }

  lemma {:induction false} CloseErrStays(r: Run, moves: seq<Move>)
    requires (r.pc.Stopping? || r.pc.Complete?) && ValidMoves(r, moves)
    ensures DoAll(r, moves).closeErr == r.closeErr
    decreases |moves|
  {
    if moves == [] {
    } else {
      CloseErrStays(Do(r, moves[0]), moves[1..]);
    }
  }

  /** What closing the services returned is in the result, whoever stopped the root. */
  lemma CloseFailureShows(launches: seq<Launch>, before: seq<Move>, outcome: Option<Error>, after: seq<Move>)
    requires ValidMoves(Start(launches), before) && DoAll(Start(launches), before).pc.ServicesClosing?
    requires Can(DoAll(Start(launches), before), Main(outcome)) && outcome.Some?
    requires ValidMoves(Do(DoAll(Start(launches), before), Main(outcome)), after)
    ensures var t := DoAll(Do(DoAll(Start(launches), before), Main(outcome)), after);
      t.pc.Complete? ==>
        t.pc.result.Some? && forall target | IsCause(target) && IsErr(outcome, target) :: IsErr(t.pc.result, target)
  {
    var r := DoAll(Start(launches), before);
    var f := Do(r, Main(outcome));
    RunsAreConsistent(launches, before);
    MoveKeepsConsistent(r, Main(outcome));
    MovesKeepConsistent(f, after);
    CloseErrStays(f, after);
    CloseShows(DoAll(f, after), outcome);
  }

  lemma CloseShows(r: Run, outcome: Option<Error>)
    requires Verdicts(r) && r.closeErr == outcome && outcome.Some?
    ensures r.pc.Complete? ==>
      r.pc.result.Some? && forall target | IsCause(target) && IsErr(outcome, target) :: IsErr(r.pc.result, target)
  {
    if r.pc.Complete? {
      var parts := [Verdict(r), r.closeErr, StopResult(r.sup)];
      assert parts[1] == outcome;
    }
  }

  /** A startup failure that is not excused has stopped the root when anything is shut down; and if
      nobody was faster, with itself as cause. */
  lemma FailureStopsRoot(launches: seq<Launch>, moves: seq<Move>)
    requires ValidMoves(Start(launches), moves) && ShuttingDown(DoAll(Start(launches), moves).pc)
    ensures var r := DoAll(Start(launches), moves);
      r.sup.ctx.Some? && (r.sup.ctx.value.who.Caller? ==>
        r.startErr.Some? && !r.excused && r.sup.ctx.value.cause == r.startErr.value)
  {
    RunsAreConsistent(launches, moves);
  }

  // ---------------------------------------------------------------- termination

  function MainRank(r: Run): int {
    var n := |r.launches|;
    match r.pc
    case Entry => 20 * n + 27
    case Preparing => 20 * n + 26
    case Spawning(k) => 20 * (n - k) + 10 + if k < n && r.sup.start.Idle? then 15 else 0
    case Readying => 9
    case ServicesStarting => 8
    case ServicesUp => 7
    case ServicesExamine => 7
    case ServicesIdle => 6
    case ServicesFailing => 6
    case InfraExamine => 6
    case InfraFailing => 5
    case ServicesClosing => 5
    case Stopping(_) => 1
    case Complete(_) => 0
  }

  function RunRank(r: Run): int {
    MainRank(r) + Live.Rank(r.sup)
  }

  lemma LockRank(s: State)
    requires StartEnabled(s, Lock)
    ensures Live.Rank(StartApply(s, Lock)) == Live.Rank(s) + 14
  {
  }

  /** Taking the mutex pays for the start that it begins. */
  lemma InStartRank(r: Run, outcome: Option<Error>, t: State)
    requires InStart(r) && MainDid(r, outcome, t)
    requires r.sup.start.Idle? ==> !t.start.Idle?
    requires r.sup.start.Holding? && r.sup.ctx.None? && !r.sup.stopping ==> !t.start.Idle?
    ensures MainRank(MainMoves(r, outcome).(sup := t)) + (if r.sup.start.Idle? then 15 else 0) <= MainRank(r)
  {
  }

  lemma SpawnStepDecreases(r: Run, outcome: Option<Error>)
    requires Consistent(r) && Can(r, Main(outcome)) && InStart(r)
    ensures RunRank(Do(r, Main(outcome))) < RunRank(r)
  {
    MainTouchMeaning(r, outcome);
    InStartRank(r, outcome, Do(r, Main(outcome)).sup);
    if r.sup.start.Idle? {
      LockRank(r.sup);
    } else {
      Live.StepDecreases(r.sup, MainTouches(r, outcome).value);
    }
  }

  lemma UnseenKeepsMainRank(r: Run, t: State)
    requires Unseen(r.sup, t)
    ensures MainRank(r.(sup := t)) == MainRank(r)
  {
  }

  lemma MainRankDrops(r: Run, outcome: Option<Error>, t: State)
    requires Phases(r) && MainEnabled(r) && !InStart(r)
    ensures MainRank(MainMoves(r, outcome).(sup := t)) < MainRank(r)
  {
  }

  lemma MainDecreases(r: Run, outcome: Option<Error>)
    requires Consistent(r) && Can(r, Main(outcome)) && !InStart(r)
    ensures RunRank(Do(r, Main(outcome))) < RunRank(r)
  {
    var touched := MainTouches(r, outcome);
    MainRankDrops(r, outcome, if touched.Some? then Apply(r.sup, touched.value) else r.sup);
    if touched.Some? {
      Live.StepDecreases(r.sup, touched.value);
    }
  }

  lemma MoveDecreases(r: Run, move: Move)
    requires Consistent(r) && Can(r, move)
    ensures RunRank(Do(r, move)) < RunRank(r)
  {
    match move
    case World(step) =>
      Live.StepDecreases(r.sup, step);
      WorldUnseen(r.sup, step);
      UnseenKeepsMainRank(r, Apply(r.sup, step));
    case InStop(step) =>
      Live.StepDecreases(r.sup, step);
      StopUnseen(r.sup, step);
      UnseenKeepsMainRank(r, Apply(r.sup, step));
    case Main(outcome) =>
      if InStart(r) {
        SpawnStepDecreases(r, outcome);
      } else {
        MainDecreases(r, outcome);
      }
  }

  /** Every run of the Action, however scheduled, is finite: its length is bounded by its rank. */
  lemma {:induction false} RunsEnd(r: Run, moves: seq<Move>)
    requires Consistent(r) && ValidMoves(r, moves)
    ensures |moves| + RunRank(DoAll(r, moves)) <= RunRank(r) && 0 <= RunRank(DoAll(r, moves))
    decreases |moves|
  {
    Live.RankIsNatural(r.sup);
    if moves == [] {
    } else {
      MoveKeepsConsistent(r, moves[0]);
      MoveDecreases(r, moves[0]);
      RunsEnd(Do(r, moves[0]), moves[1..]);
    }
  }

  /** Moves that happen by themselves, given that every call returns. */
  predicate BoundToHappen(r: Run, move: Move) {
    move.World? ==> Live.BoundToHappen(r.sup, move.step)
  }

  ghost predicate CanMove(r: Run) {
    exists move :: Can(r, move) && BoundToHappen(r, move)
  }

  lemma Moves(r: Run, move: Move)
    requires Can(r, move) && BoundToHappen(r, move)
    ensures CanMove(r)
  {
  }

  lemma StoppingMoves(r: Run)
    requires Consistent(r) && r.pc.Stopping?
    ensures CanMove(r)
  {
    if r.sup.stop.Ended? {
      Moves(r, Main(None));
    } else if r.sup.stop.NotCalled? {
      Moves(r, InStop(Handoff(CallStop)));
    } else {
      Live.StopNeverSticks(r.sup);
      var step :| Enabled(r.sup, step) && Live.BoundToHappen(r.sup, step);
      Moves(r, if IsStop(step) then InStop(step) else World(step));
    }
  }

  lemma SpawningMoves(r: Run)
    requires Consistent(r) && r.pc.Spawning?
    ensures CanMove(r)
  {
    match r.sup.lock
    case WaiterOf(p) =>
      assert ProcessOk(r.sup, p);
      var w := r.sup.procs[p].waiter;
      Moves(r, World(OfChild(p, if w.Locked? then Decide else if w.Decided? then Publish else UnlockWaiter)));
    case _ => Moves(r, Main(None));
  }

  /** Where nothing is bound to go on. */
  lemma StuckMeansOver(r: Run)
    requires Consistent(r) && !CanMove(r)
    ensures r.pc.Complete? || (r.pc.ServicesIdle? && r.sup.ctx.None? && r.startErr.None?)
  {
    if r.pc.Stopping? {
      StoppingMoves(r);
    } else if r.pc.Spawning? {
      SpawningMoves(r);
    } else if MainEnabled(r) {
      MainAloneMoves(r);
    }
  }

  lemma MainAloneMoves(r: Run)
    requires Consistent(r) && MainEnabled(r) && !r.pc.Stopping? && !r.pc.Spawning?
    ensures CanMove(r)
  {
    Moves(r, Main(None));
  }

  /** The Action never gets stuck: a run that nothing is bound to continue has either returned, or
      is up and waits for the stop that has not come. */
  lemma ActionAlwaysReturns(launches: seq<Launch>, moves: seq<Move>)
    requires ValidMoves(Start(launches), moves)
    ensures |moves| <= RunRank(Start(launches))
    ensures !CanMove(DoAll(Start(launches), moves)) ==>
      var r := DoAll(Start(launches), moves);
      r.pc.Complete? || (r.pc.ServicesIdle? && r.sup.ctx.None? && r.startErr.None?)
  {
    StartConsistent(launches);
    RunsEnd(Start(launches), moves);
    RunsAreConsistent(launches, moves);
    if !CanMove(DoAll(Start(launches), moves)) {
      StuckMeansOver(DoAll(Start(launches), moves));
    }
  }
}

/**
  The bridge between the whole run and module Services: every way of starting and closing the
  services that runServices can report is a run of the Action, with the same verdict.
 */
module AllInOneServices {
  import opened GoErrors
  import opened Contexts
  import Supervisor
  import opened AllInOne
  import Services

  lemma {:induction false} MoveAfter(r: Run, moves: seq<Move>, move: Move)
    requires ValidMoves(r, moves) && Can(DoAll(r, moves), move)
    ensures ValidMoves(r, moves + [move]) && DoAll(r, moves + [move]) == Do(DoAll(r, moves), move)
    decreases |moves|
  {
    if moves == [] {
      assert (moves + [move])[1..] == [];
    } else {
      MoveAfter(Do(r, moves[0]), moves[1..], move);
      assert (moves + [move])[1..] == moves[1..] + [move];
    }
  }

  /** The Action is about to learn how the start of the services went. */
  predicate AtServices(r: Run) {
    r.pc.ServicesStarting? && r.startErr.None? && !r.excused && !r.ready
  }

  /** Someone else than the main goroutine stops the root. */
  predicate StopsRoot(s: Supervisor.State, step: Supervisor.Step) {
    s.ctx.None? && IsWorld(step) && Supervisor.Enabled(s, step) && Supervisor.Apply(s, step).ctx.Some?
  }

  /** The root context after the services: as examined, stopped by someone else, or by the error. */
  function FinalCell(r: Run, b: Services.Bundle, report: Services.Report, stop: Option<Supervisor.Step>): Cell
    requires Services.Possible(b, report.startup)
    requires stop.Some? ==> StopsRoot(r.sup, stop.value)
  {
    if r.sup.ctx.Some? then r.sup.ctx
    else if stop.Some? then Supervisor.Apply(r.sup, stop.value).ctx
    else if report.startup.AllUp? then None
    else Some(Stop(Services.StartupError(b, report.startup).value, Caller))
  }

  /** The start of the services and the look at the root context. */
  lemma ReachSwitch(r: Run, b: Services.Bundle, report: Services.Report) returns (moves: seq<Move>)
    requires AtServices(r) && Services.Complete(b, report) && report.examined == r.sup.ctx
    ensures ValidMoves(r, moves)
    ensures var excused := !report.startup.AllUp? && StoppedByOperator(r.sup.ctx);
      DoAll(r, moves) == r.(
        startErr := Services.StartupError(b, report.startup),
        excused := excused,
        ready := report.ready,
        pc := if report.startup.AllUp? then ServicesIdle else if excused then ServicesClosing else ServicesFailing)
  {
    var started := Main(Services.StartupError(b, report.startup));
    moves := [started];
    MoveAfter(r, [], started);
    MoveAfter(r, moves, Main(None));
    moves := moves + [Main(None)];
  }

  /** ... and the stop, by whoever comes first. */
  lemma ReachClosing(r: Run, b: Services.Bundle, report: Services.Report, stop: Option<Supervisor.Step>)
    returns (moves: seq<Move>)
    requires AtServices(r) && Services.Complete(b, report) && report.examined == r.sup.ctx
    requires stop.Some? ==> StopsRoot(r.sup, stop.value)
    requires report.startup.AllUp? && r.sup.ctx.None? ==> stop.Some?
    ensures ValidMoves(r, moves) && DoAll(r, moves).pc.ServicesClosing? && DoAll(r, moves).ready == report.ready
    ensures Verdict(DoAll(r, moves)) == Services.StartupVerdict(b, report)
    ensures DoAll(r, moves).sup.ctx == FinalCell(r, b, report, stop)
  {
    moves := ReachSwitch(r, b, report);
    if stop.Some? {
      MoveAfter(r, moves, World(stop.value));
      moves := moves + [World(stop.value)];
    }
    if !DoAll(r, moves).pc.ServicesClosing? {
      MoveAfter(r, moves, Main(None));
      moves := moves + [Main(None)];
    }
  }

  /** For any report that runServices can give, any moment of the stop and whoever causes it, the
      Action has a run that takes the services the same way: it hands `stop` exactly the error that
      runServices returns, with the same root context, and emits bundle_ready alike. */
  lemma ServicesFitTheAction(r: Run, b: Services.Bundle, report: Services.Report, stop: Option<Supervisor.Step>)
    returns (moves: seq<Move>)
    requires AtServices(r) && Services.Complete(b, report) && report.examined == r.sup.ctx
    requires stop.Some? ==> StopsRoot(r.sup, stop.value)
    requires report.startup.AllUp? && r.sup.ctx.None? ==> stop.Some?
    ensures ValidMoves(r, moves) && DoAll(r, moves).ready == report.ready
    ensures DoAll(r, moves).pc ==
      Stopping(Join([Services.StartupVerdict(b, report), Join(Services.StopErrors(b, report))]))
    ensures DoAll(r, moves).sup.ctx == FinalCell(r, b, report, stop)
  {
    moves := ReachClosing(r, b, report, stop);
    MoveAfter(r, moves, Main(Join(Services.StopErrors(b, report))));
    moves := moves + [Main(Join(Services.StopErrors(b, report)))];
  }
}

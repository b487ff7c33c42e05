/**
  The store's garbage-collection goroutine, interleaved with Run and Close. Run opens a database and
  starts a goroutine; Close cancels it, waits for it, and closes the database. The lifecycle owner
  calls Run and Close one after the other, and Run only on a closed store.
 */
module StoreGc {
  import opened GoErrors

  /** Program counter of the goroutine: the select of runGC, the loop test of gcOnce, then a pass. */
  datatype WorkerPc = Selecting | Testing | Starting | InPass | Leaving | Gone

  datatype Worker = Worker(
    gen: nat,             // the database its Run opened
    pc: WorkerPc,
    cancelled: bool,      // its context
    done: bool,           // gcDone is closed
    // history
    late: nat             // passes begun after the cancellation
  )

  datatype CloserPc = Outside | Joining | ClosingDb | Resetting

  datatype State = State(
    db: Option<nat>,            // the field s.db
    gcCancel: bool,             // the field s.gcCancel is set, and with it s.gcDone
    closer: CloserPc,
    worker: Option<Worker>,     // the goroutine started last
    // the world
    open: set<nat>,             // databases that are open
    next: nat
  )

  const INIT := State(None, false, Outside, None, {}, 0)

  datatype Step =
    | RunOpens | RunFails
    | CloseBegins | CloseJoins | CloseDb | CloseResets
    | ParentCancels
    | Ticks | SeesCancel | Tests | TimeUp | Begins | Ends(again: bool) | Leaves

  predicate WorkerAt(s: State, pc: WorkerPc) {
    s.worker.Some? && s.worker.value.pc == pc
  }

  predicate Enabled(s: State, step: Step) {
    match step
    case RunOpens => s.closer.Outside? && s.db.None?
    case RunFails => s.closer.Outside? && s.db.None?
    case CloseBegins => s.closer.Outside?
    case CloseJoins => s.closer.Joining? && s.worker.Some? && s.worker.value.done
    case CloseDb => s.closer.ClosingDb?
    case CloseResets => s.closer.Resetting?
    case ParentCancels => s.worker.Some? && !s.worker.value.cancelled
    // a select with both cases ready may still take the ticker
    case Ticks => WorkerAt(s, Selecting)
    case SeesCancel => WorkerAt(s, Selecting) && s.worker.value.cancelled
    case Tests => WorkerAt(s, Testing)
    case TimeUp => WorkerAt(s, Testing)
    case Begins => WorkerAt(s, Starting)
    case Ends(_) => WorkerAt(s, InPass)
    case Leaves => WorkerAt(s, Leaving)
  }

  function MoveTo(s: State, pc: WorkerPc): State
    requires s.worker.Some?
  {
    s.(worker := Some(s.worker.value.(pc := pc)))
  }

  function CancelWorker(s: State): State {
    if s.worker.Some? then s.(worker := Some(s.worker.value.(cancelled := true))) else s
  }

  function Apply(s: State, step: Step): State
    requires Enabled(s, step)
  {
    match step
    case RunOpens =>
      s.(db := Some(s.next), gcCancel := true, worker := Some(Worker(s.next, Selecting, false, false, 0)),
         open := s.open + {s.next}, next := s.next + 1)
    case RunFails => s
    case CloseBegins => if s.gcCancel then CancelWorker(s).(closer := Joining) else s.(closer := ClosingDb)
    case CloseJoins => s.(closer := ClosingDb)
    case CloseDb => s.(closer := Resetting, open := if s.db.Some? then s.open - {s.db.value} else s.open)
    case CloseResets => s.(closer := Outside, db := None, gcCancel := false)
    case ParentCancels => CancelWorker(s)
    case Ticks => MoveTo(s, Testing)
    case SeesCancel => MoveTo(s, Leaving)
    case Tests => MoveTo(s, if s.worker.value.cancelled then Selecting else Starting)
    case TimeUp => MoveTo(s, Selecting)
    case Begins =>
      var w := s.worker.value;
      s.(worker := Some(w.(pc := InPass, late := if w.cancelled then w.late + 1 else w.late)))
    case Ends(again) => MoveTo(s, if again then Testing else Selecting)
    case Leaves => s.(worker := Some(s.worker.value.(pc := Gone, done := true)))
  }

  predicate ValidRun(s: State, steps: seq<Step>)
    decreases |steps|
  {
    steps == [] || (Enabled(s, steps[0]) && ValidRun(Apply(s, steps[0]), steps[1..]))
  }

  function Run(s: State, steps: seq<Step>): State
    requires ValidRun(s, steps)
    decreases |steps|
  {
    if steps == [] then s else Run(Apply(s, steps[0]), steps[1..])
  }

  // ---------------------------------------------------------------- the invariant

  ghost predicate WorkerOk(s: State, w: Worker) {
    && (w.done <==> w.pc.Gone?)
    && (!w.done ==> s.db == Some(w.gen) && (s.closer.Outside? || s.closer.Joining?))
    && (s.closer.Joining? ==> w.cancelled) && (w.pc.Leaving? || w.pc.Gone? ==> w.cancelled)
    && w.late <= 1 && (!w.cancelled ==> w.late == 0) && (w.pc.Starting? ==> w.late == 0)
  }

  ghost predicate Inv(s: State) {
    && (s.db.Some? <==> s.gcCancel)
    && (s.db.Some? ==> s.worker.Some? && s.worker.value.gen == s.db.value && s.db.value < s.next)
    && (s.closer.Joining? ==> s.gcCancel)
    && s.open == (if s.db.Some? && !s.closer.Resetting? then {s.db.value} else {})
    && (s.worker.Some? ==> WorkerOk(s, s.worker.value))
  }

  lemma StepKeepsInv(s: State, step: Step)
    requires Inv(s) && Enabled(s, step)
    ensures Inv(Apply(s, step))
  {
  }

  lemma {:induction false} RunKeepsInv(s: State, steps: seq<Step>)
    requires Inv(s) && ValidRun(s, steps)
    ensures Inv(Run(s, steps))
    decreases |steps|
  {
    if steps == [] {
    } else {
      StepKeepsInv(s, steps[0]);
      RunKeepsInv(Apply(s, steps[0]), steps[1..]);
    }
  }

  // ---------------------------------------------------------------- the theorems

  /** In every interleaving: a pass runs only on the database of its own Run, which is still the
      store's and still open; after its cancellation a goroutine begins at most one pass. */
  lemma PassesOnlyOnOpenDatabase(steps: seq<Step>)
    requires ValidRun(INIT, steps)
    ensures var s := Run(INIT, steps);
      && (WorkerAt(s, InPass) || WorkerAt(s, Starting) ==>
            s.db == Some(s.worker.value.gen) && s.worker.value.gen in s.open)
      && (s.worker.Some? ==> s.worker.value.late <= 1)
  {
    RunKeepsInv(INIT, steps);
  }

  /** Once Close has got past its wait, and after it returned, the goroutine has ended; after it
      returned no database is open. */
  lemma CloseJoinsTheGoroutine(steps: seq<Step>)
    requires ValidRun(INIT, steps)
    ensures var s := Run(INIT, steps);
      && (s.closer.ClosingDb? || s.closer.Resetting? || s.db.None? ==> s.worker.None? || s.worker.value.done)
      && (s.db.None? ==> s.open == {})
  {
    RunKeepsInv(INIT, steps);
  }

  /** The goroutine ends only when it is cancelled: no pass, test or tick ends it. */
  lemma OnlyCancellationEndsIt(steps: seq<Step>)
    requires ValidRun(INIT, steps) && Run(INIT, steps).worker.Some? && Run(INIT, steps).worker.value.done
    ensures Run(INIT, steps).worker.value.cancelled
  {
    RunKeepsInv(INIT, steps);
  }

  /** Close without a preceding Run, or again, goes straight through and changes nothing. */
  lemma CloseAgainIsHarmless(steps: seq<Step>)
    requires ValidRun(INIT, steps) && Run(INIT, steps).db.None? && Run(INIT, steps).closer.Outside?
    ensures ValidRun(Run(INIT, steps), [CloseBegins, CloseDb, CloseResets])
    ensures Run(Run(INIT, steps), [CloseBegins, CloseDb, CloseResets]) == Run(INIT, steps)
  {
    var s := Run(INIT, steps);
    RunKeepsInv(INIT, steps);
    var a := Apply(s, CloseBegins);
    var b := Apply(a, CloseDb);
    var c := Apply(b, CloseResets);
    assert c == s;
    assert Run(b, [CloseResets]) == c by { assert [CloseResets][1..] == []; }
    assert Run(a, [CloseDb, CloseResets]) == c by { assert [CloseDb, CloseResets][1..] == [CloseResets]; }
    assert [CloseBegins, CloseDb, CloseResets][1..] == [CloseDb, CloseResets];
  }

  /** The steps that lead a cancelled goroutine out. */
  function WayOut(pc: WorkerPc): seq<Step> {
    match pc
    case Selecting => [SeesCancel, Leaves]
    case Testing => [Tests, SeesCancel, Leaves]
    case Starting => [Begins, Ends(true), Tests, SeesCancel, Leaves]
    case InPass => [Ends(true), Tests, SeesCancel, Leaves]
    case Leaving => [Leaves]
    case Gone => []
  }

  lemma {:induction false} WayOutLeads(s: State)
    requires Inv(s) && s.closer.Joining?
    ensures ValidRun(s, WayOut(s.worker.value.pc))
    ensures Run(s, WayOut(s.worker.value.pc)).closer.Joining?
    ensures Enabled(Run(s, WayOut(s.worker.value.pc)), CloseJoins)
    decreases |WayOut(s.worker.value.pc)|
  {
    var way := WayOut(s.worker.value.pc);
    if way == [] {
    } else {
      var t := Apply(s, way[0]);
      StepKeepsInv(s, way[0]);
      assert way[1..] == WayOut(t.worker.value.pc);
      WayOutLeads(t);
    }
  }

  /** Close never waits for a goroutine that cannot end: from wherever the goroutine is, at most five
      of its own steps, one pass among them at most, let Close continue. */
  lemma CloseIsNeverStuck(steps: seq<Step>)
    requires ValidRun(INIT, steps) && Run(INIT, steps).closer.Joining?
    ensures exists way ::
      && |way| <= 5 && ValidRun(Run(INIT, steps), way) && Enabled(Run(Run(INIT, steps), way), CloseJoins)
  {
    RunKeepsInv(INIT, steps);
    WayOutLeads(Run(INIT, steps));
  }

  /** A tick leads to a pass, unless the goroutine is cancelled first: it tests the loop's condition and
      begins one. A pass that reclaimed a file leads to the next test, any other back to the select. */
  lemma TickLeadsToPass(s: State)
    requires WorkerAt(s, Selecting) && !s.worker.value.cancelled
    ensures ValidRun(s, [Ticks, Tests, Begins])
    ensures Run(s, [Ticks, Tests, Begins]) == MoveTo(s, InPass)
    ensures Apply(MoveTo(s, InPass), Ends(true)) == MoveTo(s, Testing)
    ensures Apply(MoveTo(s, InPass), Ends(false)) == s
  {
    var a := Apply(s, Ticks);
    var b := Apply(a, Tests);
    var c := Apply(b, Begins);
    assert Run(b, [Begins]) == c by { assert [Begins][1..] == []; }
    assert Run(a, [Tests, Begins]) == c by { assert [Tests, Begins][1..] == [Begins]; }
    assert [Ticks, Tests, Begins][1..] == [Tests, Begins];
  }

  /** A cancelled goroutine whose test sees it starts no pass, and goes back to the select. */
  lemma CancelledTestStartsNothing(s: State)
    requires WorkerAt(s, Testing) && s.worker.value.cancelled
    ensures Enabled(s, Tests) && Apply(s, Tests) == MoveTo(s, Selecting) && !Enabled(s, Begins)
  {
  }

  /** The goroutine's own steps. */
  predicate IsWorkerStep(step: Step) {
    step.Ticks? || step.SeesCancel? || step.Tests? || step.TimeUp? || step.Begins? || step.Ends? || step.Leaves?
  }

  function WorkerSteps(steps: seq<Step>): nat {
    if steps == [] then 0 else (if IsWorkerStep(steps[0]) then 1 else 0) + WorkerSteps(steps[1..])
  }

  /** How often its select took the ticker. */
  function TicksTaken(steps: seq<Step>): nat {
    if steps == [] then 0 else (if steps[0].Ticks? then 1 else 0) + TicksTaken(steps[1..])
  }

  /** Steps left to a cancelled goroutine whose select takes no more ticks. */
  function StepsLeft(pc: WorkerPc): nat {
    match pc
    case Starting => 5
    case InPass => 4
    case Testing => 3
    case Selecting => 2
    case Leaving => 1
    case Gone => 0
  }

  lemma CancelledStep(s: State, step: Step)
    requires Enabled(s, step) && step != RunOpens && s.worker.Some? && s.worker.value.cancelled
    ensures var t := Apply(s, step);
      && t.worker.Some? && t.worker.value.cancelled
      && StepsLeft(t.worker.value.pc) + (if IsWorkerStep(step) then 1 else 0)
         <= StepsLeft(s.worker.value.pc) + if step.Ticks? then 2 else 0
  {
  }

  /** In every schedule, whatever else happens before the next Run: a cancelled goroutine takes at most
      five steps and two for each tick that its select prefers to the cancellation. So it goes on
      only as long as the ticker keeps winning, each time once per tick of the clock. */
  lemma {:induction false} CancelledWorkerIsBounded(s: State, steps: seq<Step>)
    requires s.worker.Some? && s.worker.value.cancelled && ValidRun(s, steps)
    requires forall k | 0 <= k < |steps| :: steps[k] != RunOpens
    ensures Run(s, steps).worker.Some?
    ensures WorkerSteps(steps) + StepsLeft(Run(s, steps).worker.value.pc)
      <= StepsLeft(s.worker.value.pc) + 2 * TicksTaken(steps)
    ensures WorkerSteps(steps) <= 5 + 2 * TicksTaken(steps)
    decreases |steps|
  {
    if steps == [] {
    } else {
      assert steps[0] != RunOpens;
      CancelledStep(s, steps[0]);
      assert forall k | 0 <= k < |steps[1..]| :: steps[1..][k] == steps[k + 1];
      CancelledWorkerIsBounded(Apply(s, steps[0]), steps[1..]);
    }
  }

  /** Nor does it ever block: while Close waits, the goroutine has a step of its own that is not a
      tick, or has ended, and then Close goes on. */
  lemma JoiningAlwaysMoves(steps: seq<Step>)
    requires ValidRun(INIT, steps) && Run(INIT, steps).closer.Joining?
    ensures var s := Run(INIT, steps);
      Enabled(s, CloseJoins) || exists step :: IsWorkerStep(step) && !step.Ticks? && Enabled(s, step)
  {
    RunKeepsInv(INIT, steps);
    var s := Run(INIT, steps);
    var way := WayOut(s.worker.value.pc);
    if way != [] {
      assert IsWorkerStep(way[0]) && !way[0].Ticks? && Enabled(s, way[0]);
    }
  }

  // ---------------------------------------------------------------- gcOnce

  /** What one value-log pass returns; Rejected also stands for a database that is closing. */
  datatype Pass = Reclaimed | NoRewrite | Rejected | Failed(err: Error)

  /** `gcOnce`. `stops` says whether, before the n-th pass, the context is cancelled or the time is up;
      the time is up at the latest before pass `limit`. It counts the passes that reclaimed a file:
      those before the first stop or the first other result, and only a Failed one is an error. */
  method GcOnce(stops: nat -> bool, passes: nat -> Pass, limit: nat) returns (count: nat, err: Option<Error>)
    requires stops(limit)
    ensures count <= limit
    ensures forall n | 0 <= n < count :: !stops(n) && passes(n).Reclaimed?
    ensures stops(count) || !passes(count).Reclaimed?
    ensures err == if !stops(count) && passes(count).Failed? then Some(passes(count).err) else None
  {
    count := 0;
    while !stops(count)
      invariant count <= limit
      invariant forall n | 0 <= n < count :: !stops(n) && passes(n).Reclaimed?
      decreases limit - count
    {
      match passes(count)
      case Reclaimed => count := count + 1;
      case NoRewrite => return count, None;
      case Rejected => return count, None;
      case Failed(e) => return count, Some(e);
    }
    err := None;
  }
}

/**
  Shutdown terminates. A rank drops at every step except a new call of `start`, so no schedule
  runs forever; and while stop is pending some step that is bound to happen is enabled, so no
  schedule gets stuck, in particular not between stop, the mutex and a waiter.
 */
module SupervisorLiveness {
  import opened GoErrors
  import opened Contexts
  import opened Supervisor
  import opened SupervisorSafety
  import opened SupervisorTheorems

  // ---------------------------------------------------------------- the rank

  function WaiterRank(w: Waiter): nat {
    match w
    case Blocked => 5
    case Returned => 4
    case Locked => 3
    case Decided => 2
    case Published => 1
    case Finished => 0
  }

  function ProcessRank(x: Process): nat {
    WaiterRank(x.waiter) + (if x.exited then 0 else 1) + (if x.killed then 0 else 1)
  }

  function ProcessesRank(procs: seq<Process>): nat {
    if procs == [] then 0
    else ProcessesRank(procs[..|procs| - 1]) + ProcessRank(procs[|procs| - 1])
  }

  /** A start that holds the mutex may still add a process: 7 for itself and 5 for stop's loops. */
  function StartRank(pc: StartPc): nat {
    match pc
    case Idle => 0
    case Clear => 13
    case Holding => 14
  }

  /** Steps left to stop, with n processes of which r are running. */
  function StopRank(pc: StopPc, n: nat, r: nat): int {
    match pc
    case NotCalled => 5 * n + 10
    case Called => 5 * n + 9
    case Marking => 5 * n + 8
    case Sorting(i) => n - i + 4 * n + 7
    case Unlocked => 4 * r + 6
    case Awaiting(i) => r - i + 3 * r + 5
    case Checking => 3 * r + 4
    case Killing(i) => 2 * (r - i) + r + 3
    case Forcing(i) => 2 * (r - i) - 1 + r + 3
    case Reaping(i) => r - i + 2
    case Ended => 0
  }

  function Rank(s: State): int {
    ProcessesRank(s.procs) + StartRank(s.start) + StopRank(s.stop, |s.procs|, |s.running|)
    + (if s.deadline then 0 else 1) + (if s.ctx.Some? then 0 else 1)
  }

  lemma {:induction false} RankOfUpdate(procs: seq<Process>, p: nat, x: Process)
    requires p < |procs|
    ensures ProcessesRank(procs[p := x]) == ProcessesRank(procs) - ProcessRank(procs[p]) + ProcessRank(x)
  {
    var last := |procs| - 1;
    if p == last {
      assert procs[p := x][..last] == procs[..last];
    } else {
      assert procs[p := x][..last] == procs[..last][p := x];
      RankOfUpdate(procs[..last], p, x);
    }
  }

  lemma ChildRankDrops(s: State, p: nat, step: ChildStep)
    requires p < |s.procs| && ChildEnabled(s, p, step)
    ensures var t := ChildApply(s, p, step);
      && t.procs == s.procs[p := t.procs[p]] && ProcessRank(t.procs[p]) < ProcessRank(s.procs[p])
      && t.start == s.start && t.stop == s.stop && t.running == s.running && t.deadline == s.deadline
      && (s.ctx.Some? ==> t.ctx.Some?)
  {
  }

  lemma ChildStepDecreases(s: State, p: nat, step: ChildStep)
    requires p < |s.procs| && ChildEnabled(s, p, step)
    ensures Rank(ChildApply(s, p, step)) < Rank(s)
  {
    ChildRankDrops(s, p, step);
    RankOfUpdate(s.procs, p, ChildApply(s, p, step).procs[p]);
  }

  lemma StartStepDecreases(s: State, step: StartStep)
    requires StartEnabled(s, step) && !step.Lock? && MutexOk(s)
    ensures Rank(StartApply(s, step)) < Rank(s)
  {
    if step.Spawn? {
      assert StartApply(s, step).procs[..|s.procs|] == s.procs;
    }
  }

  lemma HandoffStepDecreases(s: State, step: HandoffStep)
    requires HandoffEnabled(s, step) && |s.running| <= |s.procs|
    ensures Rank(HandoffApply(s, step)) < Rank(s)
  {
  }

  lemma AwaitStepDecreases(s: State, step: AwaitStep)
    requires AwaitEnabled(s, step) && (s.stop.Awaiting? ==> s.stop.i <= |s.running|)
    ensures Rank(AwaitApply(s, step)) < Rank(s)
  {
  }

  lemma ReapStepDecreases(s: State, step: ReapStep)
    requires ReapEnabled(s, step)
    ensures Rank(ReapApply(s, step)) < Rank(s)
  {
  }

  lemma KillStepDecreases(s: State, step: KillStep)
    requires KillEnabled(s, step)
    ensures Rank(KillApply(s, step)) < Rank(s)
  {
    if step.Kill? {
      var p := s.running[s.stop.i];
      RankOfUpdate(s.procs, p, KillApply(s, step).procs[p]);
    }
  }

  predicate NewStart(step: Step) {
    step == Starting(Lock)
  }

  lemma StepDecreases(s: State, step: Step)
    requires Inv(s) && Enabled(s, step) && !NewStart(step)
    ensures Rank(Apply(s, step)) < Rank(s)
  {
    match step
    case Outside(_) =>
    case Starting(st) => StartStepDecreases(s, st);
    case OfChild(p, c) => ChildStepDecreases(s, p, c);
    case Force(k) => KillStepDecreases(s, k);
    case Handoff(h) => assert SplitOk(s); HandoffStepDecreases(s, h);
    case Await(a) => assert LoopsOk(s); AwaitStepDecreases(s, a);
    case Final(r) => ReapStepDecreases(s, r);
  }

  lemma RankIsNatural(s: State)
    requires Inv(s)
    ensures 0 <= Rank(s)
  {
    assert SplitOk(s) && LoopsOk(s);
  }

  /** However the steps are scheduled, there are no more of them than the rank. */
  lemma {:induction false} RunsAreBounded(s: State, steps: seq<Step>)
    requires Inv(s) && ValidRun(s, steps)
    requires forall k | 0 <= k < |steps| :: !NewStart(steps[k])
    ensures |steps| + Rank(Run(s, steps)) <= Rank(s) && 0 <= Rank(Run(s, steps))
    decreases |steps|
  {
    RankIsNatural(s);
    if steps == [] {
    } else {
      assert !NewStart(steps[0]);
      StepKeepsInv(s, steps[0]);
      StepDecreases(s, steps[0]);
      assert forall k | 0 <= k < |steps[1..]| :: steps[1..][k] == steps[k + 1];
      RunsAreBounded(Apply(s, steps[0]), steps[1..]);
    }
  }

  // ---------------------------------------------------------------- progress

  /** Steps that happen by themselves: those of the program, the grace-period kill of os/exec, and
      the end of a killed process. Signals, failures, deadlines and voluntary exits may stay away. */
  predicate BoundToHappen(s: State, step: Step) {
    match step
    case Outside(_) => false
    case Starting(st) => !st.Lock?
    case OfChild(p, Exit) => p < |s.procs| && s.procs[p].killed
    case _ => true
  }

  /** Nobody else's will is assumed: no signal, failure, deadline, new start or voluntary exit. */
  lemma OnlyProgramAndKills(s: State, step: Step)
    requires BoundToHappen(s, step)
    ensures !step.Outside? && !NewStart(step)
    ensures step.OfChild? && step.child.Exit? ==> step.p < |s.procs| && s.procs[step.p].killed
  {
  }

  ghost predicate CanMove(s: State) {
    exists step :: Enabled(s, step) && BoundToHappen(s, step)
  }

  lemma Moves(s: State, step: Step)
    requires Enabled(s, step) && BoundToHappen(s, step)
    ensures CanMove(s)
  {
  }

  /** Whoever holds the mutex can go on. */
  lemma HolderMoves(s: State)
    requires Inv(s) && !s.lock.Free?
    ensures CanMove(s)
  {
    match s.lock
    case Starter =>
      if s.start.Clear? {
        Moves(s, Starting(Fail));
      } else if s.ctx.Some? || s.stopping {
        Moves(s, Starting(Refuse));
      } else {
        Moves(s, Starting(Pass));
      }
    case WaiterOf(p) =>
      assert ProcessOk(s, p);
      var w := s.procs[p].waiter;
      Moves(s, OfChild(p, if w.Locked? then Decide else if w.Decided? then Publish else UnlockWaiter));
    case Stopper =>
      Moves(s, Handoff(if s.stop.Marking? then Mark else if s.stop.i < |s.procs| then SortNext else UnlockStop));
  }

  /** After the children's context is cancelled, an unfinished child can go on. */
  lemma ChildMoves(s: State, p: nat)
    requires Inv(s) && s.lock.Free? && s.childrenCancelled && p < |s.procs| && !IsDone(s, p)
    ensures CanMove(s)
  {
    assert ProcessOk(s, p);
    var x := s.procs[p];
    var step :=
      if x.waiter.Returned? then LockWaiter
      else if x.exited then WaitReturns(None)
      else if x.killed then Exit
      else GraceKill;
    Moves(s, OfChild(p, step));
  }

  lemma LoopMoves(s: State)
    requires Inv(s) && s.lock.Free? && (s.stop.Awaiting? || s.stop.Reaping?)
    ensures CanMove(s)
  {
    if s.stop.i == |s.running| {
      Moves(s, if s.stop.Awaiting? then Await(AllDone) else Final(Return));
    } else {
      var p := s.running[s.stop.i];
      if IsDone(s, p) {
        Moves(s, if s.stop.Awaiting? then Await(SawDone) else Final(Reap));
      } else {
        ChildMoves(s, p);
      }
    }
  }

  lemma KillLoopMoves(s: State)
    requires Inv(s) && (s.stop.Killing? || s.stop.Forcing?)
    ensures CanMove(s)
  {
    if s.stop.Forcing? {
      Moves(s, Force(Kill(None)));
    } else if s.stop.i == |s.running| {
      Moves(s, Force(KillsDone));
    } else if IsDone(s, s.running[s.stop.i]) {
      Moves(s, Force(SkipDone));
    } else {
      Moves(s, Force(FindSurvivor));
    }
  }

  /** While stop is pending, something that is bound to happen can happen. */
  lemma StopNeverSticks(s: State)
    requires Inv(s) && !s.stop.NotCalled? && !s.stop.Ended?
    ensures CanMove(s)
  {
    if !s.lock.Free? {
      HolderMoves(s);
    } else {
      match s.stop
      case Called => Moves(s, Handoff(LockStop));
      case Unlocked => Moves(s, Handoff(CancelChildren));
      case Awaiting(_) => LoopMoves(s);
      case Reaping(_) => LoopMoves(s);
      case Checking => Moves(s, Await(TestDeadline));
      case Killing(_) => KillLoopMoves(s);
      case Forcing(_) => KillLoopMoves(s);
    }
  }

  /** Shutdown always completes. From the call of stop, with no further call of start, every run is
      shorter than the rank, and a run that cannot be continued has returned with every child
      reaped. */
  lemma StopAlwaysReturns(before: seq<Step>, steps: seq<Step>)
    requires ValidRun(INIT, before) && ValidRun(Run(INIT, before), steps)
    requires !Run(Run(INIT, before), steps).stop.NotCalled?
    requires forall k | 0 <= k < |steps| :: !NewStart(steps[k])
    ensures |steps| <= Rank(Run(INIT, before))
    ensures !CanMove(Run(Run(INIT, before), steps)) ==>
      var s := Run(Run(INIT, before), steps);
      s.stop.Ended? && forall p: nat | p < |s.procs| :: IsDone(s, p)
  {
    RunKeepsInvFromInit(before);
    var s := Run(Run(INIT, before), steps);
    RunsAreBounded(Run(INIT, before), steps);
    RunKeepsInv(Run(INIT, before), steps);
    if !CanMove(s) {
      if !s.stop.Ended? {
        StopNeverSticks(s);
      }
      forall p: nat | p < |s.procs| ensures IsDone(s, p) {
        EndedReapsAll(s, p);
      }
    }
  }
}

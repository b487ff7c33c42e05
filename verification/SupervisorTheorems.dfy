/** The supervisor's promises, each over every run from the initial state. */
module SupervisorTheorems {
  import opened GoErrors
  import opened Contexts
  import opened Supervisor
  import opened SupervisorSafety

  // ---------------------------------------------------------------- what never changes

  ghost predicate SameSides(s: State, t: State) {
    && HandedOff(s) && HandedOff(t) && |t.procs| == |s.procs|
    && forall p | 0 <= p < |s.procs| :: t.procs[p].early == s.procs[p].early
  }

  lemma ChildKeepsSides(s: State, p: nat, step: ChildStep)
    requires p < |s.procs| && ProcessOk(s, p) && HandedOff(s) && ChildEnabled(s, p, step)
    ensures SameSides(s, ChildApply(s, p, step))
  {
  }

  lemma StopKeepsSides(s: State, t: State)
    requires StopMoves(s, t) && HandedOff(s)
    ensures SameSides(s, t)
  {
  }

  lemma KillKeepsSides(s: State, step: KillStep)
    requires KillEnabled(s, step)
    ensures SameSides(s, KillApply(s, step))
  {
  }

  lemma HandedOffStep(s: State, step: Step)
    requires (forall p | 0 <= p < |s.procs| :: ProcessOk(s, p)) && MutexOk(s)
    requires HandedOff(s) && Enabled(s, step)
    ensures SameSides(s, Apply(s, step))
  {
    match step
    case OfChild(p, c) =>
      assert ProcessOk(s, p);
      ChildKeepsSides(s, p, c);
    case Starting(_) =>
    case Outside(_) =>
    case Handoff(h) => HandoffStepMoves(s, h); StopKeepsSides(s, Apply(s, step));
    case Await(a) => AwaitStepMoves(s, a); StopKeepsSides(s, Apply(s, step));
    case Force(k) => KillKeepsSides(s, k);
    case Final(_) =>
  }

  /** Once stop holds its section, no process is spawned and none changes sides. */
  lemma {:induction false} HandoffIsFinal(s: State, steps: seq<Step>)
    requires Inv(s) && HandedOff(s) && ValidRun(s, steps)
    ensures SameSides(s, Run(s, steps))
    decreases |steps|
  {
    if steps == [] {
    } else {
      StepKeepsInv(s, steps[0]);
      HandedOffStep(s, steps[0]);
      HandoffIsFinal(Apply(s, steps[0]), steps[1..]);
    }
  }

  lemma CauseStaysStep(s: State, step: Step)
    requires s.ctx.Some? && Enabled(s, step)
    ensures Apply(s, step).ctx == s.ctx
  {
  }

  lemma {:induction false} CauseStays(s: State, steps: seq<Step>)
    requires s.ctx.Some? && ValidRun(s, steps)
    ensures Run(s, steps).ctx == s.ctx
    decreases |steps|
  {
    if steps == [] {
    } else {
      CauseStaysStep(s, steps[0]);
      CauseStays(Apply(s, steps[0]), steps[1..]);
    }
  }

  /** Once the root is stopped, only a start that was already past its checks can still spawn: without
      one, no run adds a process. */
  lemma {:induction false} NoSpawnAfterRootStop(s: State, steps: seq<Step>)
    requires Inv(s) && s.ctx.Some? && !s.start.Clear? && ValidRun(s, steps)
    ensures |Run(s, steps).procs| == |s.procs|
    decreases |steps|
  {
    if steps == [] {
    } else {
      StepKeepsInv(s, steps[0]);
      CauseStaysStep(s, steps[0]);
      NoSpawnStep(s, steps[0]);
      NoSpawnAfterRootStop(Apply(s, steps[0]), steps[1..]);
    }
  }

  lemma NoSpawnStep(s: State, step: Step)
    requires s.ctx.Some? && !s.start.Clear? && Enabled(s, step)
    ensures |Apply(s, step).procs| == |s.procs| && !Apply(s, step).start.Clear?
  {
    match step
    case Starting(st) => assert StartApply(s, st).procs == s.procs;
    case OfChild(p, c) => assert ChildApply(s, p, c).start == s.start;
    case Force(k) => assert KillApply(s, k).start == s.start;
    case Handoff(h) => assert HandoffApply(s, h).procs == s.procs;
    case Await(a) => assert AwaitApply(s, a).procs == s.procs;
    case _ =>
  }

  // ---------------------------------------------------------------- the theorems

  /** The mutex makes independent decisions agree. `before` ends where stop takes the mutex. Later,
      once it has let go: a process is in `unexpected` exactly if its done channel was closed at that
      moment, exactly if its waiter called stopRoot; the rest are `running`; both are in start
      order without duplicates, and nothing was spawned in between. */
  lemma HandoffAgreement(before: seq<Step>, after: seq<Step>)
    requires ValidRun(INIT, before) && Enabled(Run(INIT, before), Handoff(LockStop))
    requires ValidRun(Apply(Run(INIT, before), Handoff(LockStop)), after)
    requires Phase(Run(Apply(Run(INIT, before), Handoff(LockStop)), after).stop) >= 4
    ensures var atLock, s := Run(INIT, before), Run(Apply(Run(INIT, before), Handoff(LockStop)), after);
      && |s.procs| == |atLock.procs| == |s.unexpected| + |s.running|
      && Increasing(s.unexpected) && Increasing(s.running)
      && forall p: nat | p < |s.procs| ::
           && (p in s.unexpected <==> IsDone(atLock, p))
           && (p in s.unexpected <==> s.procs[p].stoppedRoot)
           && (p in s.unexpected <==> p !in s.running)
  {
    var atLock := Run(INIT, before);
    RunKeepsInvFromInit(before);
    var locked := Apply(atLock, Handoff(LockStop));
    StepKeepsInv(atLock, Handoff(LockStop));
    HandoffIsFinal(locked, after);
    RunKeepsInv(locked, after);
    var s := Run(locked, after);
    forall p: nat | p < |s.procs|
      ensures p in s.unexpected <==> IsDone(atLock, p)
      ensures p in s.unexpected <==> s.procs[p].stoppedRoot
      ensures p in s.unexpected <==> p !in s.running
    {
      assert ProcessOk(atLock, p) && ProcessOk(s, p);
      SplitMembers(s.procs, |s.procs|, s.unexpected, s.running, p);
    }
  }

  /** If a child's exit was what stopped the root, the cause is that exit, and neither then nor at
      any later point does the program take the stop for the operator's. */
  lemma ChildExitIsNeverOperatorStop(before: seq<Step>, after: seq<Step>)
    requires ValidRun(INIT, before) && ValidRun(Run(INIT, before), after)
    requires Run(INIT, before).ctx.Some? && Run(INIT, before).ctx.value.who.Child?
    ensures var s := Run(Run(INIT, before), after);
      && s.ctx == Run(INIT, before).ctx && !StoppedByOperator(s.ctx)
      && s.ctx.value.who.id < |s.procs| && s.ctx.value.cause == ExitOf(s.procs[s.ctx.value.who.id])
  {
    RunKeepsInvFromInit(before);
    CauseStays(Run(INIT, before), after);
    RunKeepsInv(Run(INIT, before), after);
    var s := Run(Run(INIT, before), after);
    assert ProcessOk(s, s.ctx.value.who.id);
  }

  /** Every exit that a waiter publishes before the handoff stops the root context, so the program
      does not go on running without a child: nobody needs to notice it first. */
  lemma EarlyExitStopsRoot(steps: seq<Step>, p: nat)
    requires ValidRun(INIT, steps) && IsDone(Run(INIT, steps), p) && !Run(INIT, steps).stopping
    ensures Run(INIT, steps).ctx.Some?
  {
    RunKeepsInvFromInit(steps);
    assert ProcessOk(Run(INIT, steps), p);
  }

  /** Before the first wait every child's context is cancelled; at the final reap loop each running
      process is done or was killed; and stop never waits on a done channel with the mutex held. */
  lemma SignalledThenSettled(steps: seq<Step>)
    requires ValidRun(INIT, steps)
    ensures var s := Run(INIT, steps);
      && (s.stop.Awaiting? ==> s.childrenCancelled)
      && (s.stop.Reaping? ==> forall j | 0 <= j < |s.running| ::
            s.running[j] < |s.procs| && (s.procs[s.running[j]].done || s.procs[s.running[j]].killTried))
      && (s.stop.Awaiting? || s.stop.Reaping? ==> !s.lock.Stopper?)
      && (s.childrenCancelled ==> s.stopping)
  {
    RunKeepsInvFromInit(steps);
    SignalledState(Run(INIT, steps));
  }

  lemma SignalledState(s: State)
    requires MutexOk(s) && LoopsOk(s)
    ensures s.stop.Awaiting? ==> s.childrenCancelled
    ensures s.stop.Reaping? ==> forall j | 0 <= j < |s.running| ::
      s.running[j] < |s.procs| && (s.procs[s.running[j]].done || s.procs[s.running[j]].killTried)
    ensures s.stop.Awaiting? || s.stop.Reaping? ==> !s.lock.Stopper?
    ensures s.childrenCancelled ==> s.stopping
  {
  }

  /** When stop returns, every process ever spawned has ended and has been waited for. */
  lemma NoLeakedChild(steps: seq<Step>, p: nat)
    requires ValidRun(INIT, steps) && Run(INIT, steps).stop.Ended? && p < |Run(INIT, steps).procs|
    ensures IsDone(Run(INIT, steps), p) && Run(INIT, steps).procs[p].exited
  {
    RunKeepsInvFromInit(steps);
    EndedReapsAll(Run(INIT, steps), p);
  }

  lemma EndedReapsAll(s: State, p: nat)
    requires Inv(s) && s.stop.Ended? && p < |s.procs|
    ensures IsDone(s, p) && s.procs[p].exited
  {
    assert ProcessOk(s, p);
    SplitMembers(s.procs, |s.procs|, s.unexpected, s.running, p);
    if p in s.running {
      var j :| 0 <= j < |s.running| && s.running[j] == p;
      assert IsDone(s, s.running[j]);
    }
  }

  /** shutdownError is nil exactly for a process that ended well; otherwise it matches exactly what
      the wait error matches. */
  lemma ShutdownErrorMeaning(name: string, waitErr: Option<Error>)
    ensures ShutdownError(name, waitErr).None? <==> EndedWell(waitErr)
    ensures ShutdownError(name, waitErr).Some? ==>
      forall target: Error | !target.Wrapped? :: IsErr(ShutdownError(name, waitErr), target) <==> IsErr(waitErr, target)
  {
  }

  /** The same without the walk: by the nodes of the wait error. A cancellation among them ends well;
      otherwise the first exit error decides, by its signal. */
  lemma ShutdownErrorByTree(name: string, e: Error, exit: Option<Error>)
    requires IsFirstExit(exit, Tree(e))
    ensures ShutdownError(name, Some(e)) ==
      if AnyHits(Tree(e), Canceled) || exit == Some(ExitError(Some(Signaled(15)))) then None
      else if exit == Some(ExitError(Some(Signaled(9)))) then Some(Wrapped(name + " required forced shutdown", e))
      else Some(Wrapped(name + " shutdown failed", e))
    ensures EndedWell(Some(e)) <==> AnyHits(Tree(e), Canceled) || exit == Some(ExitError(Some(Signaled(15))))
  {
    IsMeansSomeNode(e, Canceled);
    FindExitIsFirst(e);
    FirstExitUnique(exit, FindExit(e), Tree(e));
  }

  /** Of the endings that Wait reports, no error and death by SIGTERM are good ones, any exit code and
      any other signal are not; and an annotation changes nothing. */
  lemma Endings(signal: int, code: int, text: string, inner: Error)
    ensures EndedWell(None)
    ensures EndedWell(Some(ExitError(Some(Signaled(signal))))) <==> signal == 15
    ensures !EndedWell(Some(ExitError(Some(Exited(code))))) && !EndedWell(Some(ExitError(None)))
    ensures !EndedWell(Some(Opaque(text))) && EndedWell(Some(Canceled))
    ensures EndedWell(Some(Wrapped(text, inner))) <==> EndedWell(Some(inner))
  {
  }

  lemma JoinOfThree(a: seq<Option<Error>>, b: seq<Option<Error>>, c: seq<Option<Error>>)
    ensures Join(a + b + c).None? <==> Present(a) == [] && Present(b) == [] && Present(c) == []
  {
    PresentConcat(a + b, c);
    PresentConcat(a, b);
  }

  lemma {:induction false} NonePresent(errs: seq<Option<Error>>)
    ensures Present(errs) == [] <==> forall k | 0 <= k < |errs| :: errs[k].None?
  {
    if errs == [] {
    } else {
      NonePresent(errs[1..]);
      assert errs == [errs[0]] + errs[1..];
    }
  }

  lemma ExitsAllPresent(procs: seq<Process>, ids: seq<nat>)
    requires Known(procs, ids)
    ensures Present(Exits(procs, ids)) == [] <==> ids == []
  {
    NonePresent(Exits(procs, ids));
    if ids != [] {
      assert Exits(procs, ids)[0].Some?;
    }
  }

  lemma FinalsNonePresent(procs: seq<Process>, ids: seq<nat>)
    requires Known(procs, ids)
    ensures Present(Finals(procs, ids)) == [] <==> forall k | 0 <= k < |ids| :: EndedWell(procs[ids[k]].waitErr)
  {
    var finals := Finals(procs, ids);
    NonePresent(finals);
    forall k | 0 <= k < |ids| ensures finals[k].None? <==> EndedWell(procs[ids[k]].waitErr) {
      ShutdownErrorMeaning(procs[ids[k]].name, procs[ids[k]].waitErr);
    }
  }

  /** stop returns nil exactly if nothing exited before the handoff, nothing survived the deadline,
      and every process it waited for ended well. What it returns otherwise lists, in order, the
      early exits; for each survivor that it found past the deadline, and so tried to kill, the missed
      deadline and a failed kill; and how each process it waited for ended. */
  lemma StopResultMeaning(steps: seq<Step>)
    requires ValidRun(INIT, steps) && Run(INIT, steps).stop.Ended?
    ensures StopReport(Run(INIT, steps))
  {
    RunKeepsInvFromInit(steps);
    EndedReports(Run(INIT, steps));
  }

  /** The survivors are the processes that stop tried to kill, in start order, and there are none
      before the deadline. */
  ghost predicate SurvivorsOk(s: State) {
    && Known(s.procs, s.survivors) && |s.outcomes| == |s.survivors| && Increasing(s.survivors)
    && (s.survivors != [] ==> s.deadline)
    && (forall p: nat | p < |s.procs| :: p in s.survivors <==> s.procs[p].killTried)
    && (forall p | p in s.survivors :: p in s.running)
  }

  ghost predicate StopReport(s: State) {
    && Known(s.procs, s.unexpected) && Known(s.procs, s.running) && SurvivorsOk(s)
    && StopResult(s) == Join(Exits(s.procs, s.unexpected) + KillsOf(s.procs, s.survivors, s.outcomes)
                             + Finals(s.procs, s.running))
    && (StopResult(s).None? <==>
          && s.unexpected == [] && s.survivors == []
          && forall k | 0 <= k < |s.running| :: EndedWell(s.procs[s.running[k]].waitErr))
  }

  lemma EndedSurvivors(s: State)
    requires KillsOk(s) && s.stop.Ended?
    ensures SurvivorsOk(s)
  {
    forall p | p in s.survivors ensures p in s.running {
      var k :| 0 <= k < |s.survivors| && s.survivors[k] == p;
      assert Among(s.survivors[k], s.running, |s.running|);
    }
  }

  lemma EndedReports(s: State)
    requires Inv(s) && s.stop.Ended?
    ensures StopReport(s)
  {
    EndedSurvivors(s);
    assert s.running[..|s.running|] == s.running;
    var kills := KillsOf(s.procs, s.survivors, s.outcomes);
    JoinOfThree(Exits(s.procs, s.unexpected), kills, Finals(s.procs, s.running));
    ExitsAllPresent(s.procs, s.unexpected);
    NonePresent(kills);
    FinalsNonePresent(s.procs, s.running);
  }

  // ---------------------------------------------------------------- what the result matches

  /** Kill failed, other than for a process that had ended. */
  predicate KillFailed(outcome: Option<Error>) {
    outcome.Some? && !Is(outcome.value, ProcessDone)
  }

  lemma ExitsMatch(procs: seq<Process>, ids: seq<nat>, target: Error)
    requires Known(procs, ids) && IsCause(target)
    ensures AnyIs(Exits(procs, ids), target) <==>
      exists k | 0 <= k < |ids| :: IsErr(procs[ids[k]].waitErr, target)
  {
    var exits := Exits(procs, ids);
    assert forall k | 0 <= k < |ids| :: IsErr(exits[k], target) <==> IsErr(procs[ids[k]].waitErr, target);
  }

  lemma FinalsMatch(procs: seq<Process>, ids: seq<nat>, target: Error)
    requires Known(procs, ids) && IsCause(target)
    ensures AnyIs(Finals(procs, ids), target) <==>
      exists k | 0 <= k < |ids| :: !EndedWell(procs[ids[k]].waitErr) && IsErr(procs[ids[k]].waitErr, target)
  {
    var finals := Finals(procs, ids);
    forall k | 0 <= k < |ids|
      ensures IsErr(finals[k], target) <==>
        !EndedWell(procs[ids[k]].waitErr) && IsErr(procs[ids[k]].waitErr, target)
    {
      ShutdownErrorMeaning(procs[ids[k]].name, procs[ids[k]].waitErr);
    }
  }

  /** One survivor adds its missed deadline, and its kill's error if that failed. */
  lemma KillErrorsMatch(name: string, outcome: Option<Error>, target: Error)
    requires IsCause(target)
    ensures |KillErrors(name, outcome)| == if KillFailed(outcome) then 2 else 1
    ensures forall k | 0 <= k < |KillErrors(name, outcome)| :: KillErrors(name, outcome)[k].Some?
    ensures AnyIs(KillErrors(name, outcome), target) <==>
      target == DeadlineExceeded || (KillFailed(outcome) && IsErr(outcome, target))
  {
    var errs := KillErrors(name, outcome);
    assert errs[0].value.inner == DeadlineExceeded && (Is(DeadlineExceeded, target) <==> target == DeadlineExceeded);
    if KillFailed(outcome) {
      assert IsErr(errs[1], target) <==> IsErr(outcome, target);
    }
  }

  lemma {:induction false} KillListMatches(names: seq<string>, outcomes: seq<Option<Error>>, target: Error)
    requires |names| == |outcomes| && IsCause(target)
    ensures AnyIs(KillList(names, outcomes), target) <==>
      || (names != [] && target == DeadlineExceeded)
      || exists k | 0 <= k < |outcomes| :: KillFailed(outcomes[k]) && IsErr(outcomes[k], target)
  {
    if names == [] {
    } else {
      var last := |names| - 1;
      KillListMatches(names[..last], outcomes[..last], target);
      KillErrorsMatch(names[last], outcomes[last], target);
      AnyIsConcat(KillList(names[..last], outcomes[..last]), KillErrors(names[last], outcomes[last]), target);
      assert forall k | 0 <= k < last :: outcomes[..last][k] == outcomes[k];
    }
  }

  /** What stop's error matches: what an early exit's wait error does; a missed deadline, if there was a
      survivor; what a failed kill does; what the wait error of a process that did not end well does;
      and nothing else. */
  lemma StopErrorMatches(s: State, target: Error)
    requires StopReport(s) && IsCause(target)
    ensures IsErr(StopResult(s), target) <==>
      || (exists k | 0 <= k < |s.unexpected| :: IsErr(s.procs[s.unexpected[k]].waitErr, target))
      || (s.survivors != [] && target == DeadlineExceeded)
      || (exists k | 0 <= k < |s.outcomes| :: KillFailed(s.outcomes[k]) && IsErr(s.outcomes[k], target))
      || (exists k | 0 <= k < |s.running| ::
            !EndedWell(s.procs[s.running[k]].waitErr) && IsErr(s.procs[s.running[k]].waitErr, target))
  {
    var exits, kills := Exits(s.procs, s.unexpected), KillsOf(s.procs, s.survivors, s.outcomes);
    var finals := Finals(s.procs, s.running);
    JoinMeaning(exits + kills + finals, target);
    AnyIsConcat(exits + kills, finals, target);
    AnyIsConcat(exits, kills, target);
    ExitsMatch(s.procs, s.unexpected, target);
    KillListMatches(NamesOf(s.procs, s.survivors), s.outcomes, target);
    FinalsMatch(s.procs, s.running, target);
  }
}

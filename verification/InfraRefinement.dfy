/**
  The suite's locked sections are runs of the supervisor: from an object and a state of module
  Supervisor that agree, the method's contract leads to an object that agrees with the state after
  the steps it stands for.
 */
module InfraRefinement {
  import opened GoErrors
  import opened Contexts
  import opened Supervisor
  import Suites = InfraSuites

  lemma {:induction false} StepAfter(s: State, steps: seq<Step>, step: Step)
    requires ValidRun(s, steps) && Enabled(Run(s, steps), step)
    ensures ValidRun(s, steps + [step]) && Run(s, steps + [step]) == Apply(Run(s, steps), step)
    decreases |steps|
  {
    if steps == [] {
      assert (steps + [step])[1..] == [];
    } else {
      StepAfter(Apply(s, steps[0]), steps[1..], step);
      assert (steps + [step])[1..] == steps[1..] + [step];
    }
  }

  /** An object and a state with nobody in a locked section. */
  ghost predicate Agrees(suite: Suites.InfraSuite, s: State)
    reads suite, suite.root, suite.processes
  {
    && s.lock.Free? && s.start.Idle? && s.ctx == suite.root.ctx
    && s.stopping == suite.stopping && s.childrenCancelled == suite.childrenCancelled
    && AgreeOn(suite.processes, s.procs)
  }

  ghost predicate AgreeOn(objects: seq<Suites.InfraProcess>, procs: seq<Process>)
    reads objects
  {
    && |objects| == |procs|
    && forall p | 0 <= p < |procs| ::
         && objects[p].name == procs[p].name && objects[p].done == procs[p].done
         && (procs[p].done ==> objects[p].waitErr == procs[p].waitErr)
  }

  // ---------------------------------------------------------------- start

  /** The steps of a whole call of start. */
  function StartSteps(s: State, name: string, spawnErr: Option<Error>): seq<Step> {
    if s.ctx.Some? || s.stopping then [Starting(Lock), Starting(Refuse)]
    else [Starting(Lock), Starting(Pass), Starting(if spawnErr.Some? then Fail else Spawn(name))]
  }

  function Spawned(name: string): Process {
    Process(name, false, false, Blocked, None, None, false, false, false, false)
  }

  lemma StartRun(s: State, name: string, spawnErr: Option<Error>)
    requires s.lock.Free? && s.start.Idle?
    ensures ValidRun(s, StartSteps(s, name, spawnErr))
    ensures Run(s, StartSteps(s, name, spawnErr)) ==
      if s.ctx.None? && !s.stopping && spawnErr.None? then s.(procs := s.procs + [Spawned(name)]) else s
  {
    var steps := StartSteps(s, name, spawnErr);
    StepAfter(s, [], steps[0]);
    StepAfter(s, [steps[0]], steps[1]);
    if |steps| == 3 {
      StepAfter(s, [steps[0], steps[1]], steps[2]);
      assert steps == [steps[0], steps[1]] + [steps[2]];
    }
  }

  method StartRefines(suite: Suites.InfraSuite, name: string, spawnErr: Option<Error>, ghost s: State)
    returns (process: Suites.InfraProcess?, err: Option<Error>)
    requires Agrees(suite, s)
    modifies suite`processes
    ensures ValidRun(s, StartSteps(s, name, spawnErr)) && Agrees(suite, Run(s, StartSteps(s, name, spawnErr)))
    ensures process != null <==> |Run(s, StartSteps(s, name, spawnErr)).procs| == |s.procs| + 1
  {
    process, err := suite.Start(name, spawnErr);
    StartRun(s, name, spawnErr);
  }

  // ---------------------------------------------------------------- the waiter

  function PublishSteps(p: nat): seq<Step> {
    [OfChild(p, LockWaiter), OfChild(p, Decide), OfChild(p, Publish), OfChild(p, UnlockWaiter)]
  }

  /** What the waiter's locked section does. */
  ghost predicate PublishedBy(s: State, p: nat, t: State)
    requires p < |s.procs|
  {
    && |t.procs| == |s.procs| && t.procs == s.procs[p := t.procs[p]]
    && t.procs[p].name == s.procs[p].name && t.procs[p].done && t.procs[p].waitErr == s.procs[p].result
    && t.ctx == (if s.stopping then s.ctx
                 else Cancel(s.ctx, Stop(InfraExit(s.procs[p].name, s.procs[p].result), Child(p))))
    && t == s.(procs := t.procs, ctx := t.ctx)
  }

  /** ... up to where it has decided about the root. */
  ghost predicate DecidedBy(s: State, p: nat, t: State)
    requires p < |s.procs|
  {
    && |t.procs| == |s.procs| && t.procs == s.procs[p := t.procs[p]]
    && t.procs[p].name == s.procs[p].name && t.procs[p].waiter.Decided? && t.procs[p].waitErr == s.procs[p].result
    && t.ctx == (if s.stopping then s.ctx
                 else Cancel(s.ctx, Stop(InfraExit(s.procs[p].name, s.procs[p].result), Child(p))))
    && t == s.(procs := t.procs, ctx := t.ctx, lock := WaiterOf(p))
  }

  lemma UpdateTwice<T>(xs: seq<T>, i: nat, x: T, y: T)
    requires i < |xs|
    ensures xs[i := x][i := y] == xs[i := y]
  {
  }

  lemma DecideRun(s: State, p: nat)
    requires s.lock.Free? && p < |s.procs| && s.procs[p].waiter.Returned?
    ensures ValidRun(s, [OfChild(p, LockWaiter), OfChild(p, Decide)])
    ensures DecidedBy(s, p, Run(s, [OfChild(p, LockWaiter), OfChild(p, Decide)]))
  {
    var lock, decide := OfChild(p, LockWaiter), OfChild(p, Decide);
    StepAfter(s, [], lock);
    StepAfter(s, [lock], decide);
    assert [lock, decide] == [lock] + [decide];
    UpdateTwice(s.procs, p, Apply(s, lock).procs[p], Apply(Apply(s, lock), decide).procs[p]);
  }

  lemma CloseDone(s: State, p: nat, t: State)
    requires p < |s.procs| && s.lock.Free? && DecidedBy(s, p, t)
    ensures Enabled(t, OfChild(p, Publish)) && Enabled(Apply(t, OfChild(p, Publish)), OfChild(p, UnlockWaiter))
    ensures PublishedBy(s, p, Apply(Apply(t, OfChild(p, Publish)), OfChild(p, UnlockWaiter)))
  {
    var u := Apply(t, OfChild(p, Publish));
    var v := Apply(u, OfChild(p, UnlockWaiter));
    UpdateTwice(s.procs, p, t.procs[p], u.procs[p]);
    UpdateTwice(s.procs, p, u.procs[p], v.procs[p]);
  }

  lemma PublishRun(s: State, p: nat)
    requires s.lock.Free? && p < |s.procs| && s.procs[p].waiter.Returned?
    ensures ValidRun(s, PublishSteps(p)) && PublishedBy(s, p, Run(s, PublishSteps(p)))
  {
    var decided := [OfChild(p, LockWaiter), OfChild(p, Decide)];
    DecideRun(s, p);
    CloseDone(s, p, Run(s, decided));
    StepAfter(s, decided, OfChild(p, Publish));
    StepAfter(s, decided + [OfChild(p, Publish)], OfChild(p, UnlockWaiter));
    assert PublishSteps(p) == decided + [OfChild(p, Publish)] + [OfChild(p, UnlockWaiter)];
  }

  ghost predicate AllDifferent(objects: seq<Suites.InfraProcess>) {
    forall j, k | 0 <= j < k < |objects| :: objects[j] != objects[k]
  }

  method PublishRefines(suite: Suites.InfraSuite, id: nat, waitErr: Option<Error>, ghost s: State)
    requires Agrees(suite, s) && AllDifferent(suite.processes)
    requires id < |s.procs| && s.procs[id].waiter.Returned? && s.procs[id].result == waitErr && !s.procs[id].done
    modifies suite.processes, suite.root
    ensures ValidRun(s, PublishSteps(id)) && Agrees(suite, Run(s, PublishSteps(id)))
  {
    suite.Publish(id, waitErr);
    PublishRun(s, id);
  }

  // ---------------------------------------------------------------- the handoff

  /** The numbers, below n, of the processes whose done flag is `want`. */
  function Ids(procs: seq<Process>, n: nat, want: bool): seq<nat>
    requires n <= |procs|
  {
    if n == 0 then [] else Ids(procs, n - 1, want) + if procs[n - 1].done == want then [n - 1] else []
  }

  function SortSteps(n: nat): seq<Step> {
    if n == 0 then [] else SortSteps(n - 1) + [Handoff(SortNext)]
  }

  function HandOffSteps(n: nat): seq<Step> {
    [Handoff(LockStop), Handoff(Mark)] + SortSteps(n)
  }

  lemma {:induction false} SortRun(s: State, n: nat)
    requires s.lock.Free? && s.stop.Called? && s.unexpected == s.running == [] && n <= |s.procs|
    ensures ValidRun(s, HandOffSteps(n))
    ensures Run(s, HandOffSteps(n)) ==
      s.(lock := Stopper, stopping := true, stop := Sorting(n),
         unexpected := Ids(s.procs, n, true), running := Ids(s.procs, n, false))
  {
    if n == 0 {
      StepAfter(s, [], Handoff(LockStop));
      StepAfter(s, [Handoff(LockStop)], Handoff(Mark));
      assert HandOffSteps(0) == [Handoff(LockStop)] + [Handoff(Mark)];
    } else {
      SortRun(s, n - 1);
      StepAfter(s, HandOffSteps(n - 1), Handoff(SortNext));
      assert HandOffSteps(n) == HandOffSteps(n - 1) + [Handoff(SortNext)];
    }
  }

  lemma HandOffRun(s: State)
    requires s.lock.Free? && s.stop.Called? && s.unexpected == s.running == []
    ensures ValidRun(s, HandOffSteps(|s.procs|) + [Handoff(UnlockStop)])
    ensures Run(s, HandOffSteps(|s.procs|) + [Handoff(UnlockStop)]) ==
      s.(stopping := true, stop := Unlocked,
         unexpected := Ids(s.procs, |s.procs|, true), running := Ids(s.procs, |s.procs|, false))
  {
    SortRun(s, |s.procs|);
    StepAfter(s, HandOffSteps(|s.procs|), Handoff(UnlockStop));
  }

  /** The members with these numbers. */
  function Pick<T>(xs: seq<T>, ids: seq<nat>): seq<T>
    requires forall k | 0 <= k < |ids| :: ids[k] < |xs|
  {
    seq(|ids|, k requires 0 <= k < |ids| => xs[ids[k]])
  }

  ghost predicate InOrder(procs: seq<Process>, ids: seq<nat>, n: nat, want: bool) {
    && (forall j, k | 0 <= j < k < |ids| :: ids[j] < ids[k])
    && forall k | 0 <= k < |ids| :: ids[k] < n && ids[k] < |procs| && procs[ids[k]].done == want
  }

  lemma InOrderMore(procs: seq<Process>, ids: seq<nat>, n: nat, want: bool)
    requires n < |procs| && InOrder(procs, ids, n, want)
    ensures InOrder(procs, ids, n + 1, want)
    ensures procs[n].done == want ==> InOrder(procs, ids + [n], n + 1, want)
  {
  }

  lemma {:induction false} IdsInOrder(procs: seq<Process>, n: nat, want: bool)
    requires n <= |procs|
    ensures InOrder(procs, Ids(procs, n, want), n, want)
  {
    if n == 0 {
    } else {
      var ids := Ids(procs, n - 1, want);
      IdsInOrder(procs, n - 1, want);
      InOrderMore(procs, ids, n - 1, want);
      assert ids + [] == ids;
    }
  }

  lemma {:induction false} SelectIsPick<T>(xs: seq<T>, flags: seq<bool>, procs: seq<Process>, n: nat, want: bool)
    requires n <= |procs| == |xs| == |flags| && forall k | 0 <= k < |procs| :: flags[k] == procs[k].done
    ensures forall k | 0 <= k < |Ids(procs, n, want)| :: Ids(procs, n, want)[k] < |xs|
    ensures Suites.Select(xs[..n], flags[..n], want) == Pick(xs, Ids(procs, n, want))
  {
    IdsInOrder(procs, n, want);
    if n == 0 {
    } else {
      SelectIsPick(xs, flags, procs, n - 1, want);
      assert xs[..n][..n - 1] == xs[..n - 1] && flags[..n][..n - 1] == flags[..n - 1];
    }
  }

  /** stop's locked section, and the lists it returns are those of the state. */
  method HandOffRefines(suite: Suites.InfraSuite, ghost s: State)
    returns (running: seq<Suites.InfraProcess>, unexpected: seq<Suites.InfraProcess>, ghost steps: seq<Step>)
    requires Agrees(suite, s) && s.stop.Called? && s.unexpected == s.running == []
    modifies suite`stopping
    ensures ValidRun(s, steps) && Agrees(suite, Run(s, steps)) && Run(s, steps).stop.Unlocked?
    ensures Known(Run(s, steps).procs, Run(s, steps).unexpected) && Known(Run(s, steps).procs, Run(s, steps).running)
    ensures unexpected == Pick(suite.processes, Run(s, steps).unexpected)
    ensures running == Pick(suite.processes, Run(s, steps).running)
  {
    ghost var done;
    running, unexpected, done := suite.HandOff();
    steps := HandOffSteps(|s.procs|) + [Handoff(UnlockStop)];
    HandOffRun(s);
    SelectIsPick(suite.processes, done, s.procs, |s.procs|, true);
    SelectIsPick(suite.processes, done, s.procs, |s.procs|, false);
    assert suite.processes[..|s.procs|] == suite.processes && done[..|s.procs|] == done;
  }
}

/**
  The whole of the class's `stop` is a run of the supervisor: whatever its environment does, there is
  a schedule of module Supervisor from the state before to one that agrees with the object
  afterwards, in which stop has returned the same error.
 */
module StopRefinement {
  import opened GoErrors
  import opened Contexts
  import opened Supervisor
  import opened SupervisorSafety
  import opened SupervisorTheorems
  import opened InfraRefinement
  import Suites = InfraSuites

  // ---------------------------------------------------------------- reachable states

  ghost predicate Reaches(s: State, t: State) {
    exists steps :: ValidRun(s, steps) && Run(s, steps) == t
  }

  lemma ByRun(s: State, steps: seq<Step>)
    requires ValidRun(s, steps)
    ensures Reaches(s, Run(s, steps))
  {
  }

  lemma Then(s: State, t: State, step: Step)
    requires Reaches(s, t) && Enabled(t, step)
    ensures Reaches(s, Apply(t, step))
  {
    var steps :| ValidRun(s, steps) && Run(s, steps) == t;
    StepAfter(s, steps, step);
  }

  lemma Stays(s: State)
    ensures Reaches(s, s)
  {
    assert ValidRun(s, []) && Run(s, []) == s;
  }

  lemma {:induction false} RunAfter(s: State, t: State, steps: seq<Step>)
    requires Reaches(s, t) && ValidRun(t, steps)
    ensures Reaches(s, Run(t, steps))
    decreases |steps|
  {
    if steps == [] {
    } else {
      Then(s, t, steps[0]);
      RunAfter(s, Apply(t, steps[0]), steps[1..]);
    }
  }

  lemma ReachesOn(s: State, t: State, u: State)
    requires Reaches(s, t) && Reaches(t, u)
    ensures Reaches(s, u)
  {
    var steps :| ValidRun(t, steps) && Run(t, steps) == u;
    RunAfter(s, t, steps);
  }

  lemma ReachedKeepsInv(s: State, t: State)
    requires Inv(s) && Reaches(s, t)
    ensures Inv(t)
  {
    var steps :| ValidRun(s, steps) && Run(s, steps) == t;
    RunKeepsInv(s, steps);
  }

  // ---------------------------------------------------------------- publishing after the handoff

  ghost predicate ShuttingDown(s: State) {
    s.lock.Free? && s.stopping && s.childrenCancelled && HandedOff(s)
  }

  function With(s: State, p: nat, x: Process, lock: Holder): State
    requires p < |s.procs|
  {
    s.(procs := s.procs[p := x], lock := lock)
  }

  /** A process whose waiter has published this result after the handoff. */
  function PublishedAs(x: Process, result: Option<Error>): Process {
    x.(exited := true, waiter := Finished, result := result, waitErr := result, done := true,
       stoppedRoot := false, early := false)
  }

  lemma ChildMove(o: State, s: State, p: nat, x: Process, lock: Holder, c: ChildStep, y: Process, lock': Holder)
    requires p < |s.procs| && Reaches(o, With(s, p, x, lock)) && ChildEnabled(With(s, p, x, lock), p, c)
    requires ChildApply(With(s, p, x, lock), p, c) == With(With(s, p, x, lock), p, y, lock')
    ensures Reaches(o, With(s, p, y, lock'))
  {
    Then(o, With(s, p, x, lock), OfChild(p, c));
    UpdateTwice(s.procs, p, x, y);
  }

  lemma ExitFirst(o: State, s: State, p: nat)
    requires Reaches(o, s) && s.lock.Free? && p < |s.procs|
    ensures Reaches(o, With(s, p, s.procs[p].(exited := true), Free))
  {
    assert With(s, p, s.procs[p], Free) == s;
    if s.procs[p].exited {
      assert s.procs[p].(exited := true) == s.procs[p];
    } else {
      ChildMove(o, s, p, s.procs[p], Free, Exit, s.procs[p].(exited := true), Free);
    }
  }

  lemma PublishOne(o: State, s: State, p: nat, result: Option<Error>)
    requires Reaches(o, s) && ShuttingDown(s) && p < |s.procs| && s.procs[p].waiter.Blocked?
    ensures Reaches(o, s.(procs := s.procs[p := PublishedAs(s.procs[p], result)]))
  {
    var gone := s.procs[p].(exited := true);
    var returned := gone.(waiter := Returned, result := result);
    var locked := returned.(waiter := Locked);
    var decided := locked.(waiter := Decided, waitErr := result, stoppedRoot := false);
    var published := decided.(waiter := Published, done := true, early := false);
    ExitFirst(o, s, p);
    ChildMove(o, s, p, gone, Free, WaitReturns(result), returned, Free);
    ChildMove(o, s, p, returned, Free, LockWaiter, locked, WaiterOf(p));
    ChildMove(o, s, p, locked, WaiterOf(p), Decide, decided, WaiterOf(p));
    ChildMove(o, s, p, decided, WaiterOf(p), Publish, published, WaiterOf(p));
    ChildMove(o, s, p, published, WaiterOf(p), UnlockWaiter, published.(waiter := Finished), Free);
    assert published.(waiter := Finished) == PublishedAs(s.procs[p], result);
  }

  /** Of the first n processes, those marked and not yet done have published their results. */
  function PublishedProcs(
    procs: seq<Process>, which: seq<bool>, results: seq<Option<Error>>, n: nat
  ): seq<Process>
    requires |which| == |results| == |procs|
  {
    seq(|procs|, p requires 0 <= p < |procs| =>
      if p < n && which[p] && !procs[p].done then PublishedAs(procs[p], results[p]) else procs[p])
  }

  /** Unfinished processes are untouched by their waiters. */
  ghost predicate UnfinishedAreBlocked(procs: seq<Process>) {
    forall p | 0 <= p < |procs| :: procs[p].done || procs[p].waiter.Blocked?
  }

  lemma {:induction false} PublishSome(
    o: State, s: State, which: seq<bool>, results: seq<Option<Error>>, n: nat
  )
    requires Reaches(o, s) && ShuttingDown(s) && |which| == |results| == |s.procs| && n <= |s.procs|
    requires UnfinishedAreBlocked(s.procs)
    ensures Reaches(o, s.(procs := PublishedProcs(s.procs, which, results, n)))
  {
    if n == 0 {
      assert PublishedProcs(s.procs, which, results, 0) == s.procs;
    } else {
      PublishSome(o, s, which, results, n - 1);
      var before := PublishedProcs(s.procs, which, results, n - 1);
      if which[n - 1] && !s.procs[n - 1].done {
        PublishOne(o, s.(procs := before), n - 1, results[n - 1]);
        assert before[n - 1 := PublishedAs(before[n - 1], results[n - 1])]
            == PublishedProcs(s.procs, which, results, n);
      } else {
        assert before == PublishedProcs(s.procs, which, results, n);
      }
    }
  }

  // ---------------------------------------------------------------- stop's loops

  ghost predicate AllDone(s: State) {
    forall k | 0 <= k < |s.running| :: IsDone(s, s.running[k])
  }

  lemma {:induction false} WaitAll(o: State, s: State, i: nat)
    requires Reaches(o, s) && s.stop == Awaiting(0) && AllDone(s) && i <= |s.running|
    ensures Reaches(o, s.(stop := Awaiting(i)))
  {
    if i == 0 {
    } else {
      WaitAll(o, s, i - 1);
      Then(o, s.(stop := Awaiting(i - 1)), Await(SawDone));
    }
  }

  lemma WaitOver(o: State, s: State)
    requires Reaches(o, s) && s.stop == Awaiting(0) && (s.deadline || AllDone(s))
    ensures Reaches(o, s.(stop := Checking))
  {
    if s.deadline && s.running != [] {
      Then(o, s, Await(SawDeadline));
    } else {
      WaitAll(o, s, |s.running|);
      Then(o, s.(stop := Awaiting(|s.running|)), Await(AwaitStep.AllDone));
    }
  }

  lemma {:induction false} ReapRun(o: State, s: State, i: nat) returns (t: State)
    requires Reaches(o, s) && s.stop == Reaping(0) && AllDone(s) && i <= |s.running|
    ensures Reaches(o, t) && t == s.(stop := Reaping(i), errs := t.errs)
  {
    if i == 0 {
      t := s;
    } else {
      var u := ReapRun(o, s, i - 1);
      Then(o, u, Final(Reap));
      t := Apply(u, Final(Reap));
    }
  }

  predicate SameButKilled(x: Process, y: Process) {
    y == x.(exited := y.exited, killed := y.killed, killTried := y.killTried)
  }

  /** What the kill loop has made of s after its first i rounds. */
  ghost predicate Looked(s: State, found: seq<bool>, outcomes: seq<Option<Error>>, i: nat, t: State)
    requires i <= |s.running| == |found| && Known(s.procs, s.running)
  {
    && t.stop == Killing(i)
    && t == s.(stop := t.stop, errs := t.errs, survivors := t.survivors, outcomes := t.outcomes, procs := t.procs)
    && t.survivors == Suites.Select(s.running[..i], found[..i], false)
    && |t.survivors| <= |outcomes| && t.outcomes == outcomes[..|t.survivors|]
    && |t.procs| == |s.procs|
    && (forall p | 0 <= p < |s.procs| :: SameButKilled(s.procs[p], t.procs[p]))
    && (forall k | i <= k < |s.running| :: t.procs[s.running[k]] == s.procs[s.running[k]])
  }

  /** A process that the kill loop will find done, or will kill. */
  predicate AsFound(x: Process, found: bool) {
    if found then x.done else !x.done && x.waiter.Blocked? && !x.exited
  }

  lemma {:induction false} SelectPrefix<T>(xs: seq<T>, flags: seq<bool>, want: bool, n: nat)
    requires |xs| == |flags| && n <= |xs|
    ensures |Suites.Select(xs[..n], flags[..n], want)| <= |Suites.Select(xs, flags, want)|
  {
    if n == |xs| {
      assert xs[..n] == xs && flags[..n] == flags;
    } else {
      var last := |xs| - 1;
      SelectPrefix(xs[..last], flags[..last], want, n);
      assert xs[..last][..n] == xs[..n] && flags[..last][..n] == flags[..n];
    }
  }

  lemma SelectNext<T>(xs: seq<T>, flags: seq<bool>, want: bool, i: nat)
    requires |xs| == |flags| && i < |xs|
    ensures Suites.Select(xs[..i + 1], flags[..i + 1], want) ==
      Suites.Select(xs[..i], flags[..i], want) + if flags[i] == want then [xs[i]] else []
  {
    assert xs[..i + 1][..i] == xs[..i] && flags[..i + 1][..i] == flags[..i];
  }

  lemma SkipRound(s: State, found: seq<bool>, outcomes: seq<Option<Error>>, i: nat, t: State)
    requires |s.running| == |found| && Known(s.procs, s.running) && i < |s.running|
    requires Looked(s, found, outcomes, i, t) && found[i] && s.procs[s.running[i]].done
    ensures Enabled(t, Force(SkipDone)) && Looked(s, found, outcomes, i + 1, Apply(t, Force(SkipDone)))
  {
    SelectNext(s.running, found, false, i);
    assert t.survivors + [] == t.survivors;
  }

  /** A round that kills: the survivor is found, ends, and is killed. */
  function Ending(t: State, i: nat): State
    requires i < |t.running| && t.running[i] < |t.procs|
  {
    t.(stop := Forcing(i), procs := t.procs[t.running[i] := t.procs[t.running[i]].(exited := true)])
  }

  lemma FindRound(o: State, t: State, i: nat)
    requires Reaches(o, t) && t.stop == Killing(i) && i < |t.running| && t.running[i] < |t.procs|
    requires !t.procs[t.running[i]].done && !t.procs[t.running[i]].exited
    ensures Reaches(o, Ending(t, i))
  {
    Then(o, t, Force(FindSurvivor));
    Then(o, t.(stop := Forcing(i)), OfChild(t.running[i], Exit));
  }

  lemma KillRound(s: State, found: seq<bool>, outcomes: seq<Option<Error>>, i: nat, t: State)
    requires |s.running| == |found| && Known(s.procs, s.running) && i < |s.running| && Increasing(s.running)
    requires Looked(s, found, outcomes, i, t) && !found[i] && |t.survivors| < |outcomes|
    ensures Looked(s, found, outcomes, i + 1, KillSurvivor(Ending(t, i), outcomes[|t.survivors|]))
  {
    SelectNext(s.running, found, false, i);
    var n := |t.survivors|;
    assert outcomes[..n + 1] == outcomes[..n] + [outcomes[n]];
  }

  /** A process found unfinished, in the state that the rounds before have left. */
  lemma KillReached(
    o: State, s: State, found: seq<bool>, outcomes: seq<Option<Error>>, i: nat, u: State
  ) returns (t: State)
    requires |s.running| == |found| && Known(s.procs, s.running) && i < |s.running| && Increasing(s.running)
    requires Reaches(o, u) && Looked(s, found, outcomes, i, u) && !found[i] && |u.survivors| < |outcomes|
    requires AsFound(s.procs[s.running[i]], false)
    ensures Reaches(o, t) && Looked(s, found, outcomes, i + 1, t)
  {
    var outcome := outcomes[|u.survivors|];
    FindRound(o, u, i);
    KillRound(s, found, outcomes, i, u);
    Then(o, Ending(u, i), Force(Kill(outcome)));
    t := KillSurvivor(Ending(u, i), outcome);
  }

  lemma {:induction false} KillRun(o: State, s: State, found: seq<bool>, outcomes: seq<Option<Error>>, i: nat)
    returns (t: State)
    requires Reaches(o, s) && s.stop == Killing(0) && s.survivors == [] && s.outcomes == []
    requires i <= |s.running| == |found| && Known(s.procs, s.running) && Increasing(s.running)
    requires |outcomes| == |Suites.Select(s.running, found, false)|
    requires forall k | 0 <= k < |found| :: AsFound(s.procs[s.running[k]], found[k])
    ensures Reaches(o, t) && Looked(s, found, outcomes, i, t)
  {
    if i == 0 {
      t := s;
    } else {
      var u := KillRun(o, s, found, outcomes, i - 1);
      assert AsFound(s.procs[s.running[i - 1]], found[i - 1]);
      t := RoundReached(o, s, found, outcomes, i - 1, u);
    }
  }

  lemma RoundReached(
    o: State, s: State, found: seq<bool>, outcomes: seq<Option<Error>>, i: nat, u: State
  ) returns (t: State)
    requires |s.running| == |found| && Known(s.procs, s.running) && i < |s.running| && Increasing(s.running)
    requires |outcomes| == |Suites.Select(s.running, found, false)|
    requires Reaches(o, u) && Looked(s, found, outcomes, i, u) && AsFound(s.procs[s.running[i]], found[i])
    ensures Reaches(o, t) && Looked(s, found, outcomes, i + 1, t)
  {
    if found[i] {
      SkipRound(s, found, outcomes, i, u);
      Then(o, u, Force(SkipDone));
      t := Apply(u, Force(SkipDone));
    } else {
      RoomForOneMore(s, found, i);
      t := KillReached(o, s, found, outcomes, i, u);
    }
  }

  lemma RoomForOneMore(s: State, found: seq<bool>, i: nat)
    requires i < |s.running| == |found| && !found[i]
    ensures |Suites.Select(s.running[..i], found[..i], false)| < |Suites.Select(s.running, found, false)|
  {
    SelectNext(s.running, found, false, i);
    SelectPrefix(s.running, found, false, i + 1);
  }

  // ---------------------------------------------------------------- the whole of stop

  /** Nothing is under way: the mutex is free, and no unpublished child has ended yet. */
  ghost predicate AtRest(s: State) {
    && s.lock.Free? && s.start.Idle?
    && forall p | 0 <= p < |s.procs| :: s.procs[p].done || (s.procs[p].waiter.Blocked? && !s.procs[p].exited)
  }

  /** How the unpublished processes were found and how their kills and waits ended. */
  datatype Findings = Findings(
    found: seq<bool>,                  // done when stop looks at its deadline
    atReap: seq<bool>,                 // done when its final wait begins
    outcomes: seq<Option<Error>>,
    results: seq<Option<Error>>,
    expired: bool
  )

  ghost predicate Fit(s: State, f: Findings) {
    && |f.results| == |s.procs|
    && |f.found| == |Ids(s.procs, |s.procs|, false)|
    && |f.outcomes| == |Suites.Select(Ids(s.procs, |s.procs|, false), f.found, false)|
    && (s.deadline ==> f.expired)
    && (!f.expired ==> forall k | 0 <= k < |f.found| :: f.found[k])
    && |f.atReap| == |f.found| && forall k | 0 <= k < |f.found| && f.found[k] :: f.atReap[k]
  }

  /** A state of stop in which exactly these of the processes it waits for are done. */
  ghost predicate FoundIn(t: State, flags: seq<bool>) {
    |t.running| == |flags| && forall k | 0 <= k < |flags| :: IsDone(t, t.running[k]) <==> flags[k]
  }

  /** On the way there is the look at the deadline, c, and the start of the final wait, m, and the
      processes are then as they were found. */
  ghost predicate Passes(s: State, f: Findings, c: State, m: State, t: State) {
    && Reaches(s, c) && c.stop.Checking? && c.deadline == f.expired && FoundIn(c, f.found)
    && Reaches(c, m) && m.stop == Reaping(0) && FoundIn(m, f.atReap)
    && Reaches(m, t)
  }

  /** stop has returned, after these findings. */
  ghost predicate Stopped(s: State, f: Findings, t: State)
    requires |f.results| == |s.procs| && |f.found| == |Ids(s.procs, |s.procs|, false)|
  {
    && t.stop.Ended? && t.lock.Free? && t.start.Idle? && t.ctx == s.ctx
    && t.stopping && t.childrenCancelled && t.deadline == f.expired
    && t.unexpected == Ids(s.procs, |s.procs|, true) && t.running == Ids(s.procs, |s.procs|, false)
    && t.survivors == Suites.Select(t.running, f.found, false) && t.outcomes == f.outcomes
    && AllPublished(s.procs, f.results, t.procs)
  }

  /** Before its first wait. */
  function Begun(s: State): State {
    s.(stopping := true, childrenCancelled := true, stop := Awaiting(0),
       unexpected := Ids(s.procs, |s.procs|, true), running := Ids(s.procs, |s.procs|, false))
  }

  lemma BeginRun(s: State)
    requires Inv(s) && s.stop.Called? && AtRest(s)
    ensures Reaches(s, Begun(s))
  {
    HandOffLists(s);
    HandOffRun(s);
    ByRun(s, HandOffSteps(|s.procs|) + [Handoff(UnlockStop)]);
    Then(s, Run(s, HandOffSteps(|s.procs|) + [Handoff(UnlockStop)]), Handoff(CancelChildren));
  }

  lemma HandOffLists(s: State)
    requires Inv(s) && s.stop.Called?
    ensures s.unexpected == s.running == [] && s.survivors == [] && s.outcomes == [] && s.errs == []
  {
  }

  /** The processes that have published before the deadline: those found done. */
  ghost function Punctual(others: seq<nat>, found: seq<bool>, n: nat): seq<bool>
    requires |found| == |others|
  {
    seq(n, p => exists k | 0 <= k < |others| :: others[k] == p && found[k])
  }

  lemma PunctualAt(others: seq<nat>, found: seq<bool>, n: nat, k: nat)
    requires |found| == |others| && k < |others| && Increasing(others) && others[k] < n
    ensures Punctual(others, found, n)[others[k]] == found[k]
  {
  }

  /** Where stop looks at its deadline. */
  function AtDeadline(s: State, f: Findings, procs: seq<Process>): State {
    Begun(s).(procs := procs, deadline := f.expired, stop := Checking)
  }

  /** Each process is then as it is found. */
  ghost predicate AllAsFound(procs: seq<Process>, others: seq<nat>, found: seq<bool>) {
    && Known(procs, others) && |found| == |others|
    && forall k | 0 <= k < |found| :: AsFound(procs[others[k]], found[k])
  }

  lemma PunctualAreFound(procs: seq<Process>, others: seq<nat>, found: seq<bool>, results: seq<Option<Error>>)
    requires InOrder(procs, others, |procs|, false) && |found| == |others| && |results| == |procs|
    requires forall p | 0 <= p < |procs| :: procs[p].done || (procs[p].waiter.Blocked? && !procs[p].exited)
    ensures AllAsFound(PublishedProcs(procs, Punctual(others, found, |procs|), results, |procs|), others, found)
  {
    var published := PublishedProcs(procs, Punctual(others, found, |procs|), results, |procs|);
    forall k | 0 <= k < |found| ensures AsFound(published[others[k]], found[k]) {
      PunctualAt(others, found, |procs|, k);
    }
  }

  lemma WaitRun(s: State, f: Findings) returns (procs: seq<Process>)
    requires Inv(s) && s.stop.Called? && AtRest(s) && Fit(s, f)
    ensures Reaches(s, AtDeadline(s, f, procs))
    ensures procs == PublishedProcs(s.procs, Punctual(Begun(s).running, f.found, |s.procs|), f.results, |s.procs|)
    ensures AllAsFound(procs, Begun(s).running, f.found)
  {
    var a := Begun(s);
    var first := Punctual(a.running, f.found, |s.procs|);
    BeginRun(s);
    IdsInOrder(s.procs, |s.procs|, false);
    PunctualAreFound(s.procs, a.running, f.found, f.results);
    PublishSome(s, a, first, f.results, |s.procs|);
    procs := PublishedProcs(s.procs, first, f.results, |s.procs|);
    DeadlineReached(s, a.(procs := procs), f);
  }

  lemma DeadlineReached(o: State, b: State, f: Findings)
    requires Reaches(o, b) && b.stop == Awaiting(0) && AllAsFound(b.procs, b.running, f.found)
    requires (b.deadline ==> f.expired) && (!f.expired ==> forall k | 0 <= k < |f.found| :: f.found[k])
    ensures Reaches(o, b.(deadline := f.expired, stop := Checking))
  {
    DeadlineRun(o, b, f.expired);
    if !f.expired {
      forall k | 0 <= k < |b.running| ensures IsDone(b, b.running[k]) {
        assert AsFound(b.procs[b.running[k]], f.found[k]);
      }
    }
    WaitOver(o, b.(deadline := f.expired));
  }

  lemma DeadlineRun(o: State, s: State, expired: bool)
    requires Reaches(o, s) && !s.stop.NotCalled? && (s.deadline ==> expired)
    ensures Reaches(o, s.(deadline := expired))
  {
    if expired && !s.deadline {
      Then(o, s, Outside(Deadline));
    } else {
      assert s.(deadline := expired) == s;
    }
  }

  /** The test of the deadline, and the kills. `c` is where stop looks at it, `t` where it reaps. */
  lemma KillsRun(o: State, c: State, f: Findings) returns (t: State)
    requires Reaches(o, c) && c.stop.Checking? && c.survivors == [] && c.outcomes == []
    requires Known(c.procs, c.unexpected) && Known(c.procs, c.running) && Increasing(c.running)
    requires |f.found| == |c.running| && |f.outcomes| == |Suites.Select(c.running, f.found, false)|
    requires c.deadline == f.expired && (!f.expired ==> forall k | 0 <= k < |f.found| :: f.found[k])
    requires forall k | 0 <= k < |f.found| :: AsFound(c.procs[c.running[k]], f.found[k])
    ensures Reaches(o, t) && t.stop == Reaping(0)
    ensures t == c.(stop := t.stop, errs := t.errs, survivors := t.survivors, outcomes := t.outcomes, procs := t.procs)
    ensures t.survivors == Suites.Select(c.running, f.found, false) && t.outcomes == f.outcomes
    ensures |t.procs| == |c.procs| && forall p | 0 <= p < |c.procs| :: SameButKilled(c.procs[p], t.procs[p])
  {
    Then(o, c, Await(TestDeadline));
    var d := Apply(c, Await(TestDeadline));
    if c.deadline {
      var e := KillRun(o, d, f.found, f.outcomes, |c.running|);
      assert d.running[..|c.running|] == d.running && f.found[..|c.running|] == f.found;
      assert f.outcomes[..|f.outcomes|] == f.outcomes;
      Then(o, e, Force(KillsDone));
      t := Apply(e, Force(KillsDone));
    } else {
      NoneSelected(c.running, f.found);
      t := d;
    }
  }

  lemma {:induction false} NoneSelected<T>(xs: seq<T>, flags: seq<bool>)
    requires |xs| == |flags| && forall k | 0 <= k < |flags| :: flags[k]
    ensures Suites.Select(xs, flags, false) == []
  {
    if xs == [] {
    } else {
      NoneSelected(xs[..|xs| - 1], flags[..|xs| - 1]);
    }
  }

  function Everyone(n: nat): seq<bool> {
    seq(n, _ => true)
  }

  /** The final wait: whoever is left publishes, and is reaped. */
  lemma FinishRun(o: State, e: State, results: seq<Option<Error>>) returns (t: State)
    requires Reaches(o, e) && e.stop == Reaping(0) && ShuttingDown(e) && |results| == |e.procs|
    requires UnfinishedAreBlocked(e.procs) && Known(e.procs, e.running)
    ensures Reaches(o, t)
    ensures t == e.(stop := Ended, errs := t.errs,
                    procs := PublishedProcs(e.procs, Everyone(|e.procs|), results, |e.procs|))
  {
    PublishSome(o, e, Everyone(|e.procs|), results, |e.procs|);
    var g := e.(procs := PublishedProcs(e.procs, Everyone(|e.procs|), results, |e.procs|));
    var h := ReapRun(o, g, |g.running|);
    Then(o, h, Final(Return));
    t := Apply(h, Final(Return));
  }

  /** What the processes have come to in the end. */
  ghost predicate AllPublished(s: seq<Process>, results: seq<Option<Error>>, t: seq<Process>)
    requires |results| == |s|
  {
    && |t| == |s|
    && forall p | 0 <= p < |s| ::
         && t[p].name == s[p].name && t[p].done
         && t[p].waitErr == if s[p].done then s[p].waitErr else results[p]
  }

  /** Published in three goes: before the deadline, before the final wait, and in it. */
  lemma EveryonePublished(
    s: seq<Process>, first: seq<bool>, results: seq<Option<Error>>, procs: seq<Process>, e: seq<Process>,
    second: seq<bool>, m: seq<Process>
  )
    requires |first| == |results| == |s| == |second| && procs == PublishedProcs(s, first, results, |s|)
    requires |e| == |s| && forall p | 0 <= p < |s| :: SameButKilled(procs[p], e[p])
    requires m == PublishedProcs(e, second, results, |e|)
    requires UnfinishedAreBlocked(s)
    ensures UnfinishedAreBlocked(m)
    ensures AllPublished(s, results, PublishedProcs(m, Everyone(|m|), results, |m|))
  {
    forall p | 0 <= p < |s|
      ensures m[p].done || m[p].waiter.Blocked?
      ensures m[p].name == s[p].name
      ensures m[p].done ==> m[p].waitErr == if s[p].done then s[p].waitErr else results[p]
    {
      assert SameButKilled(procs[p], e[p]);
    }
  }

  lemma KilledAreBlocked(procs: seq<Process>, e: seq<Process>)
    requires |e| == |procs| && UnfinishedAreBlocked(procs)
    requires forall p | 0 <= p < |procs| :: SameButKilled(procs[p], e[p])
    ensures UnfinishedAreBlocked(e)
  {
    forall p | 0 <= p < |e| ensures e[p].done || e[p].waiter.Blocked? {
      assert SameButKilled(procs[p], e[p]);
    }
  }

  /** For all findings there is a run of stop that makes them, at the moments they are made. */
  lemma StopRun(s: State, f: Findings) returns (c: State, m: State, t: State)
    requires Inv(s) && s.stop.Called? && AtRest(s) && Fit(s, f)
    ensures Reaches(s, t) && Stopped(s, f, t) && Passes(s, f, c, m, t)
  {
    var procs := WaitRun(s, f);
    c := AtDeadline(s, f, procs);
    AsFoundIsFound(c, f.found);
    m, t := EndRun(s, f, procs);
    ReachesOn(s, c, m);
    ReachesOn(s, m, t);
  }

  lemma AsFoundIsFound(c: State, found: seq<bool>)
    requires AllAsFound(c.procs, c.running, found)
    ensures FoundIn(c, found)
  {
    forall k | 0 <= k < |found| ensures IsDone(c, c.running[k]) <==> found[k] {
      assert AsFound(c.procs[c.running[k]], found[k]);
    }
  }

  /** Where the final wait begins. */
  lemma ReapBegins(c: State, e: State, f: Findings) returns (m: State)
    requires Reaches(c, e) && ShuttingDown(e) && UnfinishedAreBlocked(e.procs) && |f.results| == |e.procs|
    requires AllAsFound(c.procs, c.running, f.found) && e.running == c.running && Increasing(c.running)
    requires |e.procs| == |c.procs| && forall p | 0 <= p < |c.procs| :: SameButKilled(c.procs[p], e.procs[p])
    requires |f.atReap| == |f.found| && forall k | 0 <= k < |f.found| && f.found[k] :: f.atReap[k]
    ensures Reaches(c, m) && FoundIn(m, f.atReap)
    ensures m == e.(procs :=
      PublishedProcs(e.procs, Punctual(e.running, f.atReap, |e.procs|), f.results, |e.procs|))
  {
    var second := Punctual(e.running, f.atReap, |e.procs|);
    PublishSome(c, e, second, f.results, |e.procs|);
    m := e.(procs := PublishedProcs(e.procs, second, f.results, |e.procs|));
    forall k | 0 <= k < |f.atReap| ensures IsDone(m, m.running[k]) <==> f.atReap[k] {
      assert AsFound(c.procs[c.running[k]], f.found[k]);
      assert SameButKilled(c.procs[c.running[k]], e.procs[c.running[k]]);
      PunctualAt(e.running, f.atReap, |e.procs|, k);
    }
  }

  lemma EndRun(s: State, f: Findings, procs: seq<Process>) returns (m: State, t: State)
    requires Inv(s) && s.stop.Called? && AtRest(s) && Fit(s, f)
    requires procs == PublishedProcs(s.procs, Punctual(Begun(s).running, f.found, |s.procs|), f.results, |s.procs|)
    requires AllAsFound(procs, Begun(s).running, f.found)
    ensures Reaches(AtDeadline(s, f, procs), m) && m.stop == Reaping(0) && FoundIn(m, f.atReap)
    ensures Reaches(m, t) && Stopped(s, f, t)
  {
    var c := AtDeadline(s, f, procs);
    HandOffLists(s);
    IdsInOrder(s.procs, |s.procs|, true);
    IdsInOrder(s.procs, |s.procs|, false);
    Stays(c);
    var e := KillsRun(c, c, f);
    FirstAreBlocked(s, f, procs);
    KilledAreBlocked(procs, e.procs);
    m := ReapBegins(c, e, f);
    EveryonePublished(
      s.procs, Punctual(Begun(s).running, f.found, |s.procs|), f.results, procs, e.procs,
      Punctual(e.running, f.atReap, |e.procs|), m.procs);
    Stays(m);
    t := FinishRun(m, m, f.results);
  }

  lemma FirstAreBlocked(s: State, f: Findings, procs: seq<Process>)
    requires AtRest(s) && |f.results| == |s.procs| && |f.found| == |Begun(s).running|
    requires procs == PublishedProcs(s.procs, Punctual(Begun(s).running, f.found, |s.procs|), f.results, |s.procs|)
    ensures UnfinishedAreBlocked(procs)
  {
  }

  // ---------------------------------------------------------------- the object

  predicate InRange(ids: seq<nat>, bound: nat) {
    forall k | 0 <= k < |ids| :: ids[k] < bound
  }

  lemma {:induction false} SelectInRange(ids: seq<nat>, flags: seq<bool>, want: bool, bound: nat)
    requires |flags| == |ids| && InRange(ids, bound)
    ensures InRange(Suites.Select(ids, flags, want), bound)
  {
    if ids == [] {
    } else {
      var last := |ids| - 1;
      var before := Suites.Select(ids[..last], flags[..last], want);
      SelectInRange(ids[..last], flags[..last], want, bound);
      assert Suites.Select(ids, flags, want) == before + if flags[last] == want then [ids[last]] else [];
    }
  }

  lemma {:induction false} SelectPicks<T>(xs: seq<T>, ids: seq<nat>, flags: seq<bool>, want: bool)
    requires |flags| == |ids| && InRange(ids, |xs|)
    ensures InRange(Suites.Select(ids, flags, want), |xs|)
    ensures Suites.Select(Pick(xs, ids), flags, want) == Pick(xs, Suites.Select(ids, flags, want))
  {
    SelectInRange(ids, flags, want, |xs|);
    if ids == [] {
    } else {
      var last := |ids| - 1;
      SelectPicks(xs, ids[..last], flags[..last], want);
      assert Pick(xs, ids)[..last] == Pick(xs, ids[..last]);
      var before := Suites.Select(ids[..last], flags[..last], want);
      assert Suites.Select(ids, flags, want) == before + if flags[last] == want then [ids[last]] else [];
      PickMore(xs, before, ids[last]);
    }
  }

  lemma PickMore<T>(xs: seq<T>, ids: seq<nat>, id: nat)
    requires InRange(ids, |xs|) && id < |xs|
    ensures Pick(xs, ids + [id]) == Pick(xs, ids) + [xs[id]]
    ensures ids + [] == ids && Pick(xs, ids) + [] == Pick(xs, ids)
  {
  }

  /** The lists of the object are those of the run. */
  ghost predicate SameLists(ps: seq<Suites.InfraProcess>, report: Suites.Report, t: State) {
    && InRange(t.unexpected, |ps|) && InRange(t.running, |ps|) && InRange(t.survivors, |ps|)
    && report.early == Pick(ps, t.unexpected) && report.others == Pick(ps, t.running)
    && report.survivors == Pick(ps, t.survivors) && report.outcomes == t.outcomes
  }

  /** ... and then so are its errors. */
  lemma SameResult(ps: seq<Suites.InfraProcess>, report: Suites.Report, result: Option<Error>, t: State)
    requires SameLists(ps, report, t) && AgreeOn(ps, t.procs) && Suites.Explains(report, result)
    requires forall p | 0 <= p < |t.procs| :: t.procs[p].done
    requires StopReport(t)
    ensures result == StopResult(t)
  {
    assert report.exits == Exits(t.procs, t.unexpected);
    assert report.finals == Finals(t.procs, t.running);
    assert Suites.NamesOf(report.survivors) == NamesOf(t.procs, t.survivors);
  }

  /** The objects after a stop that began in s. */
  ghost predicate After(s: State, ps: seq<Suites.InfraProcess>, done: seq<bool>)
    reads ps
  {
    && |ps| == |s.procs| == |done|
    && forall p | 0 <= p < |s.procs| ::
         && done[p] == s.procs[p].done && ps[p].done && ps[p].name == s.procs[p].name
         && (s.procs[p].done ==> ps[p].waitErr == s.procs[p].waitErr)
  }

  ghost function ResultsOf(ps: seq<Suites.InfraProcess>): seq<Option<Error>>
    reads ps
  {
    seq(|ps|, p requires 0 <= p < |ps| reads ps => ps[p].waitErr)
  }

  /** What the object found, as findings of a run. */
  ghost function FindingsOf(ps: seq<Suites.InfraProcess>, report: Suites.Report, expired: bool): Findings
    reads ps, report.others
  {
    Findings(
      report.found,
      seq(|report.others|, k requires 0 <= k < |report.others| reads report.others => report.others[k].doneAtReap),
      report.outcomes, ResultsOf(ps), expired)
  }

  lemma FindingsFit(
    s: State, ps: seq<Suites.InfraProcess>, done: seq<bool>, report: Suites.Report, expired: bool
  )
    requires After(s, ps, done) && (s.deadline ==> expired)
    requires report.others == Suites.Select(ps, done, false) && |report.outcomes| == |report.survivors|
    requires Suites.Found(report.others, report.found, report.survivors) && (report.survivors != [] ==> expired)
    requires Suites.OnlySurvivorsLeft(report)
    ensures Fit(s, FindingsOf(ps, report, expired))
    ensures
      var others := Ids(s.procs, |s.procs|, false);
      && InRange(others, |ps|) && report.others == Pick(ps, others)
      && InRange(Suites.Select(others, report.found, false), |ps|)
      && report.survivors == Pick(ps, Suites.Select(others, report.found, false))
  {
    var others := Ids(s.procs, |s.procs|, false);
    SelectIsPick(ps, done, s.procs, |s.procs|, false);
    assert ps[..|s.procs|] == ps && done[..|s.procs|] == done;
    SelectPicks(ps, others, report.found, false);
    Suites.FoundMembers(report.others, report.found, report.survivors);
  }

  lemma EarlyPicked(s: State, ps: seq<Suites.InfraProcess>, done: seq<bool>, early: seq<Suites.InfraProcess>)
    requires After(s, ps, done) && early == Suites.Select(ps, done, true)
    ensures InRange(Ids(s.procs, |s.procs|, true), |ps|) && early == Pick(ps, Ids(s.procs, |s.procs|, true))
  {
    SelectIsPick(ps, done, s.procs, |s.procs|, true);
    assert ps[..|s.procs|] == ps && done[..|s.procs|] == done;
  }

  lemma ListsAreSame(
    s: State, ps: seq<Suites.InfraProcess>, done: seq<bool>, report: Suites.Report, expired: bool, t: State
  )
    requires After(s, ps, done) && (s.deadline ==> expired) && report.early == Suites.Select(ps, done, true)
    requires report.others == Suites.Select(ps, done, false) && |report.outcomes| == |report.survivors|
    requires Suites.Found(report.others, report.found, report.survivors) && (report.survivors != [] ==> expired)
    requires |report.found| == |Ids(s.procs, |s.procs|, false)| && Suites.OnlySurvivorsLeft(report)
    requires Stopped(s, FindingsOf(ps, report, expired), t)
    ensures SameLists(ps, report, t)
  {
    FindingsFit(s, ps, done, report, expired);
    EarlyPicked(s, ps, done, report.early);
  }

  lemma ObjectsAgree(
    s: State, ps: seq<Suites.InfraProcess>, done: seq<bool>, procs: seq<Process>
  )
    requires After(s, ps, done) && AllPublished(s.procs, ResultsOf(ps), procs)
    ensures AgreeOn(ps, procs)
  {
  }

  lemma StopExplained(
    s: State, ps: seq<Suites.InfraProcess>, done: seq<bool>, report: Suites.Report, result: Option<Error>,
    expired: bool
  ) returns (c: State, m: State, t: State)
    requires Reaches(INIT, s) && s.stop.Called? && AtRest(s) && After(s, ps, done) && (s.deadline ==> expired)
    requires report.early == Suites.Select(ps, done, true) && report.others == Suites.Select(ps, done, false)
    requires Suites.Explains(report, result) && (report.survivors != [] ==> expired)
    requires Suites.OnlySurvivorsLeft(report)
    ensures Passes(s, FindingsOf(ps, report, expired), c, m, t)
    ensures Reaches(s, t) && HasReturned(s, expired, t) && SameLists(ps, report, t) && AgreeOn(ps, t.procs)
    ensures result == StopResult(t)
  {
    InitInv();
    ReachedKeepsInv(INIT, s);
    FindingsFit(s, ps, done, report, expired);
    c, m, t := StopRun(s, FindingsOf(ps, report, expired));
    ListsAreSame(s, ps, done, report, expired, t);
    ObjectsAgree(s, ps, done, t.procs);
    StopAnswers(s, ps, report, result, t);
  }

  /** stop has returned, and nothing else is under way. */
  predicate HasReturned(s: State, expired: bool, t: State) {
    && t.stop.Ended? && t.lock.Free? && t.start.Idle? && t.ctx == s.ctx
    && t.stopping && t.childrenCancelled && t.deadline == expired
  }

  lemma StopAnswers(
    s: State, ps: seq<Suites.InfraProcess>, report: Suites.Report, result: Option<Error>, t: State
  )
    requires Inv(s) && Reaches(s, t) && t.stop.Ended? && SameLists(ps, report, t) && AgreeOn(ps, t.procs)
    requires Suites.Explains(report, result)
    ensures result == StopResult(t)
  {
    ReachedKeepsInv(s, t);
    EndedReports(t);
    forall p | 0 <= p < |t.procs| ensures t.procs[p].done {
      EndedReapsAll(t, p);
    }
    SameResult(ps, report, result, t);
  }

  /** `stop`, whole, refines the supervisor: from any reachable state in which it has been called and
      nothing else is under way, what the object does is a run that ends with the same result. On the
      way, in c, where it looks at its deadline, the same processes are done as it found, and in m,
      where its final wait begins, the same are done as then; the others it has killed. */
  method StopRefines(suite: Suites.InfraSuite, ctx: Suites.ShutdownContext, ghost s: State)
    returns (result: Option<Error>, ghost report: Suites.Report, ghost c: State, ghost m: State, ghost t: State)
    requires Agrees(suite, s) && Reaches(INIT, s) && s.stop.Called? && AtRest(s) && s.deadline == ctx.expired
    modifies suite`stopping, suite`childrenCancelled, suite.processes, ctx
    ensures Reaches(s, t) && t.stop.Ended? && Agrees(suite, t) && t.deadline == ctx.expired
    ensures SameLists(suite.processes, report, t)
    ensures Passes(s, FindingsOf(suite.processes, report, ctx.expired), c, m, t)
    ensures result == StopResult(t)
  {
    ghost var done;
    result, report, done := Suites.Stop(suite, ctx);
    c, m, t := StopExplained(s, suite.processes, done, report, result, ctx.expired);
  }
}

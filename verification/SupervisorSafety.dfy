/** What every run of the supervisor keeps, and what it means for the value `stop` returns. */
module SupervisorSafety {
  import opened GoErrors
  import opened Contexts
  import opened Supervisor

  // ---------------------------------------------------------------- lists of processes

  ghost predicate Increasing(ids: seq<nat>) {
    forall j, k | 0 <= j < k < |ids| :: ids[j] < ids[k]
  }

  /** The first n processes in two lists, each in start order: those that published before the handoff,
      and the others. */
  ghost predicate Split(procs: seq<Process>, n: nat, early: seq<nat>, others: seq<nat>) {
    && n <= |procs| && |early| + |others| == n && Increasing(early) && Increasing(others)
    && (forall k | 0 <= k < |early| :: early[k] < n && procs[early[k]].early)
    && (forall k | 0 <= k < |others| :: others[k] < n && !procs[others[k]].early)
    && (forall p: nat | p < n && procs[p].early :: p in early)
    && (forall p: nat | p < n && !procs[p].early :: p in others)
  }

  lemma SplitMembers(procs: seq<Process>, n: nat, early: seq<nat>, others: seq<nat>, p: nat)
    requires Split(procs, n, early, others) && p < n
    ensures p in early <==> procs[p].early
    ensures p in others <==> !procs[p].early
  {
    if p in early {
      var k :| 0 <= k < |early| && early[k] == p;
      assert procs[early[k]].early;
    }
    if p in others {
      var k :| 0 <= k < |others| && others[k] == p;
      assert !procs[others[k]].early;
    }
  }

  lemma SplitEarly(procs: seq<Process>, n: nat, early: seq<nat>, others: seq<nat>)
    requires Split(procs, n, early, others) && n < |procs| && procs[n].early
    ensures Split(procs, n + 1, early + [n], others)
  {
    assert (early + [n])[|early|] == n;
    forall p: nat | p < n ensures procs[p].early ==> p in early + [n] {
      assert procs[p].early ==> p in early;
    }
  }

  lemma SplitOther(procs: seq<Process>, n: nat, early: seq<nat>, others: seq<nat>)
    requires Split(procs, n, early, others) && n < |procs| && !procs[n].early
    ensures Split(procs, n + 1, early, others + [n])
  {
    assert (others + [n])[|others|] == n;
    forall p: nat | p < n ensures !procs[p].early ==> p in others + [n] {
      assert !procs[p].early ==> p in others;
    }
  }

  lemma SplitFrame(a: seq<Process>, b: seq<Process>, n: nat, early: seq<nat>, others: seq<nat>)
    requires Split(a, n, early, others) && n <= |b|
    requires forall p | 0 <= p < n :: a[p].early == b[p].early
    ensures Split(b, n, early, others)
  {
    forall p: nat | p < n ensures if b[p].early then p in early else p in others {
      assert a[p].early == b[p].early;
    }
  }

  ghost predicate Among(p: nat, ids: seq<nat>, n: nat)
    requires n <= |ids|
  {
    exists j | 0 <= j < n :: ids[j] == p
  }

  /** The survivors, in start order, are the processes that stop tried to kill: some of the first n
      running ones. */
  ghost predicate Survived(procs: seq<Process>, running: seq<nat>, n: nat, survivors: seq<nat>) {
    && |survivors| <= n <= |running| && Increasing(survivors)
    && (forall k | 0 <= k < |survivors| :: survivors[k] < |procs| && Among(survivors[k], running, n))
    && (forall p: nat | p < |procs| :: procs[p].killTried <==> p in survivors)
  }

  lemma AmongMore(p: nat, ids: seq<nat>, n: nat, ids': seq<nat>, m: nat)
    requires n <= |ids| && ids <= ids' && n <= m <= |ids'| && Among(p, ids, n)
    ensures Among(p, ids', m)
  {
    var j :| 0 <= j < n && ids[j] == p;
    assert ids'[j] == p;
  }

  lemma SurvivedMore(procs: seq<Process>, running: seq<nat>, n: nat, m: nat, survivors: seq<nat>)
    requires Survived(procs, running, n, survivors) && n <= m <= |running|
    ensures Survived(procs, running, m, survivors)
  {
    forall k | 0 <= k < |survivors| ensures Among(survivors[k], running, m) {
      AmongMore(survivors[k], running, n, running, m);
    }
  }

  lemma AmongIsLess(p: nat, ids: seq<nat>, n: nat)
    requires n < |ids| && Increasing(ids) && Among(p, ids, n)
    ensures p < ids[n]
  {
    var j :| 0 <= j < n && ids[j] == p;
  }

  lemma SurvivedKill(procs: seq<Process>, running: seq<nat>, n: nat, survivors: seq<nat>, x: Process)
    requires Survived(procs, running, n, survivors) && n < |running| && running[n] < |procs|
    requires Increasing(running) && x.killTried
    ensures Survived(procs[running[n] := x], running, n + 1, survivors + [running[n]])
  {
    SurvivedMore(procs, running, n, n + 1, survivors);
    assert Among(running[n], running, n + 1);
    forall k | 0 <= k < |survivors| ensures survivors[k] < running[n] {
      AmongIsLess(survivors[k], running, n);
    }
  }

  lemma SurvivedFrame(
    a: seq<Process>, running: seq<nat>, b: seq<Process>, running': seq<nat>, n: nat, survivors: seq<nat>
  )
    requires Survived(a, running, n, survivors) && |a| <= |b| && running <= running'
    requires forall p | 0 <= p < |a| :: b[p].killTried == a[p].killTried
    requires forall p | |a| <= p < |b| :: !b[p].killTried
    ensures Survived(b, running', n, survivors)
  {
    forall k | 0 <= k < |survivors| ensures Among(survivors[k], running', n) {
      AmongMore(survivors[k], running, n, running', n);
    }
    forall p: nat | |a| <= p < |b| ensures p !in survivors {
      assert forall k | 0 <= k < |survivors| :: survivors[k] != p;
    }
  }

  lemma KillsFrame(a: seq<Process>, b: seq<Process>, ids: seq<nat>, outcomes: seq<Option<Error>>)
    requires |ids| == |outcomes| && Known(a, ids) && Known(b, ids)
    requires forall k | 0 <= k < |ids| :: a[ids[k]].name == b[ids[k]].name
    ensures KillsOf(a, ids, outcomes) == KillsOf(b, ids, outcomes)
  {
    assert NamesOf(a, ids) == NamesOf(b, ids);
  }

  lemma KillsMore(procs: seq<Process>, ids: seq<nat>, outcomes: seq<Option<Error>>, p: nat, outcome: Option<Error>)
    requires |ids| == |outcomes| && Known(procs, ids) && p < |procs|
    ensures KillsOf(procs, ids + [p], outcomes + [outcome])
      == KillsOf(procs, ids, outcomes) + KillErrors(procs[p].name, outcome)
  {
    assert NamesOf(procs, ids + [p]) == NamesOf(procs, ids) + [procs[p].name];
    KillListMore(NamesOf(procs, ids), outcomes, procs[p].name, outcome);
  }

  // ---------------------------------------------------------------- the errors

  /** What stop has collected once it has reported the early exits: those, the survivors and their
      kills, and the endings it has reaped. */
  function ErrorList(
    procs: seq<Process>, unexpected: seq<nat>, survivors: seq<nat>, outcomes: seq<Option<Error>>, reaped: seq<nat>
  ): seq<Option<Error>>
    requires Known(procs, unexpected) && Known(procs, survivors) && Known(procs, reaped) && |survivors| == |outcomes|
  {
    Exits(procs, unexpected) + KillsOf(procs, survivors, outcomes) + Finals(procs, reaped)
  }

  lemma ErrorsBegin(procs: seq<Process>, unexpected: seq<nat>, reaped: seq<nat>)
    requires Known(procs, unexpected) && |reaped| == 0
    ensures ErrorList(procs, unexpected, [], [], reaped) == Exits(procs, unexpected)
  {
    var exits := Exits(procs, unexpected);
    assert Finals(procs, reaped) == [] && exits + [] + [] == exits;
  }

  lemma ErrorsKill(
    a: seq<Process>, b: seq<Process>, unexpected: seq<nat>, survivors: seq<nat>, outcomes: seq<Option<Error>>,
    reaped: seq<nat>, p: nat, outcome: Option<Error>
  )
    requires Known(a, unexpected) && Known(a, survivors) && |survivors| == |outcomes| && p < |a| == |b|
    requires |reaped| == 0 && b == a[p := b[p]] && ExitOf(b[p]) == ExitOf(a[p])
    ensures ErrorList(b, unexpected, survivors + [p], outcomes + [outcome], reaped) ==
      ErrorList(a, unexpected, survivors, outcomes, reaped) + KillErrors(a[p].name, outcome)
  {
    ErrorsFrame(a, b, unexpected, survivors, outcomes, reaped);
    var exits, kills, added := Exits(b, unexpected), KillsOf(b, survivors, outcomes), KillErrors(a[p].name, outcome);
    KillsMore(b, survivors, outcomes, p, outcome);
    assert Finals(b, reaped) == [];
    assert exits + (kills + added) + [] == exits + kills + [] + added;
  }

  lemma ErrorsReap(
    procs: seq<Process>, unexpected: seq<nat>, survivors: seq<nat>, outcomes: seq<Option<Error>>,
    reaped: seq<nat>, p: nat
  )
    requires Known(procs, unexpected) && Known(procs, survivors) && Known(procs, reaped) && |survivors| == |outcomes|
    requires p < |procs|
    ensures ErrorList(procs, unexpected, survivors, outcomes, reaped + [p]) ==
      ErrorList(procs, unexpected, survivors, outcomes, reaped) + [ShutdownError(procs[p].name, procs[p].waitErr)]
  {
    assert Finals(procs, reaped + [p]) == Finals(procs, reaped) + [ShutdownError(procs[p].name, procs[p].waitErr)];
  }

  lemma ErrorsFrame(
    a: seq<Process>, b: seq<Process>, unexpected: seq<nat>, survivors: seq<nat>, outcomes: seq<Option<Error>>,
    reaped: seq<nat>
  )
    requires Known(a, unexpected) && Known(a, survivors) && Known(a, reaped) && |survivors| == |outcomes| && |a| <= |b|
    requires forall p | p in unexpected || p in reaped :: ExitOf(b[p]) == ExitOf(a[p])
    requires forall p | p in survivors :: b[p].name == a[p].name
    ensures ErrorList(b, unexpected, survivors, outcomes, reaped)
      == ErrorList(a, unexpected, survivors, outcomes, reaped)
  {
    KillsFrame(a, b, survivors, outcomes);
    assert forall k | 0 <= k < |unexpected| :: ExitOf(b[unexpected[k]]) == ExitOf(a[unexpected[k]]);
    assert Exits(b, unexpected) == Exits(a, unexpected);
    assert forall k | 0 <= k < |reaped| :: ExitOf(b[reaped[k]]) == ExitOf(a[reaped[k]]);
    assert Finals(b, reaped) == Finals(a, reaped);
  }

  // ---------------------------------------------------------------- the invariant

  /** Stop's program counter on a line. */
  function Phase(pc: StopPc): nat {
    match pc
    case NotCalled => 0
    case Called => 1
    case Marking => 2
    case Sorting(_) => 3
    case Unlocked => 4
    case Awaiting(_) => 5
    case Checking => 6
    case Killing(_) => 7
    case Forcing(_) => 7
    case Reaping(_) => 8
    case Ended => 9
  }

  ghost predicate ProcessOk(s: State, p: nat)
    requires p < |s.procs|
  {
    var x := s.procs[p];
    && (s.lock == WaiterOf(p) <==> x.waiter.Locked? || x.waiter.Decided? || x.waiter.Published?)
    && (x.done <==> x.waiter.Published? || x.waiter.Finished?)
    && (!x.waiter.Blocked? ==> x.exited)
    && (IsErr(x.result, Canceled) ==> s.childrenCancelled)
    && (x.waiter.Decided? || x.done ==> x.waitErr == x.result)
    && (x.waiter.Blocked? || x.waiter.Returned? || x.waiter.Locked? ==> !x.stoppedRoot)
    && (x.waiter.Decided? ==> (x.stoppedRoot <==> !s.stopping))
    && (x.early ==> x.done)
    && (x.done ==> (x.stoppedRoot <==> x.early))
    && (x.done && Phase(s.stop) <= 3 ==> x.early)
    && (x.stoppedRoot ==> s.ctx.Some? && !IsErr(x.waitErr, Canceled))
  }

  ghost predicate MutexOk(s: State) {
    && (s.lock.Starter? <==> !s.start.Idle?)
    && (s.lock.Stopper? <==> 2 <= Phase(s.stop) <= 3)
    && (s.lock.WaiterOf? ==> s.lock.p < |s.procs|)
    && (s.stopping <==> 3 <= Phase(s.stop))
    && (s.childrenCancelled <==> 5 <= Phase(s.stop))
    && (s.start.Clear? ==> !s.stopping)
  }

  ghost predicate RootOk(s: State) {
    s.ctx.Some? ==>
      match s.ctx.value.who
      case Operator => s.ctx.value.cause.SignalReceived?
      case Child(p) => p < |s.procs| && s.procs[p].stoppedRoot && s.ctx.value.cause == ExitOf(s.procs[p])
      case Caller => true
  }

  /** How many processes stop has sorted. */
  function Sorted(s: State): nat {
    if Phase(s.stop) <= 2 then 0 else if s.stop.Sorting? then s.stop.i else |s.procs|
  }

  ghost predicate SplitOk(s: State) {
    Split(s.procs, Sorted(s), s.unexpected, s.running)
  }

  predicate Settled(s: State, p: nat) {
    p < |s.procs| && (s.procs[p].done || s.procs[p].killTried)
  }

  /** What the loops of stop have established. */
  ghost predicate LoopsOk(s: State) {
    && (s.stop.Awaiting? ==> s.stop.i <= |s.running| && forall j | 0 <= j < s.stop.i :: IsDone(s, s.running[j]))
    && (s.stop.Checking? ==> s.deadline || forall j | 0 <= j < |s.running| :: IsDone(s, s.running[j]))
    && (s.stop.Killing? || s.stop.Forcing? ==>
          && s.deadline && s.stop.i <= |s.running|
          && forall j | 0 <= j < s.stop.i :: Settled(s, s.running[j]))
    && (s.stop.Forcing? ==> s.stop.i < |s.running|)
    && (Phase(s.stop) >= 8 ==> forall j | 0 <= j < |s.running| :: Settled(s, s.running[j]))
    && (s.stop.Reaping? ==> s.stop.i <= |s.running| && forall j | 0 <= j < s.stop.i :: IsDone(s, s.running[j]))
    && (s.stop.Ended? ==> forall j | 0 <= j < |s.running| :: IsDone(s, s.running[j]))
  }

  /** Running processes already reaped by the final loop. */
  function Reaped(s: State): nat {
    if s.stop.Reaping? then s.stop.i else if s.stop.Ended? then |s.running| else 0
  }

  /** Running processes that the kill loop has dealt with. */
  function Killed(s: State): nat {
    if Phase(s.stop) <= 6 then 0
    else if s.stop.Killing? || s.stop.Forcing? then s.stop.i
    else |s.running|
  }

  ghost predicate KillsOk(s: State) {
    && |s.survivors| == |s.outcomes| && (s.survivors != [] ==> s.deadline)
    && Survived(s.procs, s.running, Killed(s), s.survivors)
  }

  ghost predicate ListsOk(s: State) {
    && Known(s.procs, s.unexpected) && Known(s.procs, s.running) && Known(s.procs, s.survivors)
    && |s.survivors| == |s.outcomes| && Reaped(s) <= |s.running|
  }

  ghost predicate ErrorsOk(s: State) {
    && ListsOk(s)
    && s.errs == if Phase(s.stop) <= 6 then [] else Reported(s)
  }

  ghost function Reported(s: State): seq<Option<Error>>
    requires ListsOk(s)
  {
    ErrorList(s.procs, s.unexpected, s.survivors, s.outcomes, s.running[..Reaped(s)])
  }

  ghost predicate Inv(s: State) {
    && (forall p | 0 <= p < |s.procs| :: ProcessOk(s, p))
    && MutexOk(s) && RootOk(s) && SplitOk(s) && LoopsOk(s) && KillsOk(s) && ErrorsOk(s)
  }

  // ---------------------------------------------------------------- every step keeps it

  /** Stop's own variables are unchanged, and processes only move forward: what a published
      process says is final, and none that stop has sorted changes sides. */
  ghost predicate Advances(s: State, t: State) {
    && t == s.(ctx := t.ctx, lock := t.lock, start := t.start, procs := t.procs, deadline := t.deadline)
    && |s.procs| <= |t.procs| && (s.deadline ==> t.deadline)
    && (Phase(s.stop) >= 4 ==> |t.procs| == |s.procs|)
    && (Sorted(s) <= |s.procs| ==> forall p | 0 <= p < Sorted(s) :: t.procs[p].early == s.procs[p].early)
    && (forall p | 0 <= p < |s.procs| ::
          && (s.procs[p].done ==> t.procs[p].done && ExitOf(t.procs[p]) == ExitOf(s.procs[p]))
          && t.procs[p].name == s.procs[p].name && t.procs[p].killTried == s.procs[p].killTried)
    && (forall p | |s.procs| <= p < |t.procs| :: !t.procs[p].killTried)
  }

  lemma AdvanceKeepsSplit(s: State, t: State)
    requires Inv(s) && Advances(s, t)
    ensures SplitOk(t)
  {
    SplitFrame(s.procs, t.procs, Sorted(s), s.unexpected, s.running);
  }

  lemma AdvanceKeepsLoops(s: State, t: State)
    requires LoopsOk(s) && Advances(s, t)
    ensures LoopsOk(t)
  {
    assert forall p: nat :: IsDone(s, p) ==> IsDone(t, p);
    assert forall p: nat :: Settled(s, p) ==> Settled(t, p);
  }

  /** What the processes that stop has reported say does not change. */
  lemma AdvanceKeepsReport(s: State, t: State)
    requires Inv(s) && Advances(s, t) && SplitOk(t) && KillsOk(t) && Phase(s.stop) >= 7
    ensures Reported(t) == Reported(s)
  {
    var reaped := s.running[..Reaped(s)];
    forall p | p in s.unexpected || p in reaped ensures ExitOf(t.procs[p]) == ExitOf(s.procs[p]) {
      assert ProcessOk(s, p);
      if p in reaped {
        var k :| 0 <= k < |reaped| && reaped[k] == p;
        assert IsDone(s, s.running[k]);
      }
    }
    ErrorsFrame(s.procs, t.procs, s.unexpected, s.survivors, s.outcomes, reaped);
  }

  lemma AdvanceKeepsErrors(s: State, t: State)
    requires Inv(s) && Advances(s, t) && SplitOk(t)
    ensures KillsOk(t) && ErrorsOk(t)
  {
    SurvivedFrame(s.procs, s.running, t.procs, t.running, Killed(s), s.survivors);
    if Phase(s.stop) >= 7 {
      AdvanceKeepsReport(s, t);
    }
  }

  lemma AdvanceKeepsStop(s: State, t: State)
    requires Inv(s) && Advances(s, t)
    ensures SplitOk(t) && LoopsOk(t) && KillsOk(t) && ErrorsOk(t)
  {
    AdvanceKeepsSplit(s, t);
    AdvanceKeepsLoops(s, t);
    AdvanceKeepsErrors(s, t);
  }

  lemma OutsideStepKeepsInv(s: State, step: OutsideStep)
    requires Inv(s) && OutsideEnabled(s, step)
    ensures Inv(OutsideApply(s, step))
  {
    var t := OutsideApply(s, step);
    forall q | 0 <= q < |t.procs| ensures ProcessOk(t, q) {
      assert ProcessOk(s, q);
    }
    AdvanceKeepsStop(s, t);
  }

  lemma StartStepKeepsProcess(s: State, step: StartStep, q: nat)
    requires StartEnabled(s, step) && MutexOk(s) && q < |StartApply(s, step).procs|
    requires q < |s.procs| ==> ProcessOk(s, q)
    ensures ProcessOk(StartApply(s, step), q)
  {
  }

  lemma StartStepAdvances(s: State, step: StartStep)
    requires StartEnabled(s, step) && MutexOk(s) && RootOk(s)
    ensures Advances(s, StartApply(s, step)) && MutexOk(StartApply(s, step)) && RootOk(StartApply(s, step))
  {
  }

  /** `start` goes on only past a live root and no stop, and unless it is past them, a stopped root
      lets no further process be spawned. */
  lemma StartStepKeepsInv(s: State, step: StartStep)
    requires Inv(s) && StartEnabled(s, step)
    ensures Inv(StartApply(s, step))
    ensures step.Pass? ==> s.ctx.None? && !s.stopping
    ensures s.ctx.Some? && !s.start.Clear? ==>
      StartApply(s, step).procs == s.procs && !StartApply(s, step).start.Clear?
  {
    var t := StartApply(s, step);
    forall q | 0 <= q < |t.procs| ensures ProcessOk(t, q) {
      assert q < |s.procs| ==> ProcessOk(s, q);
      StartStepKeepsProcess(s, step, q);
    }
    StartStepAdvances(s, step);
    AdvanceKeepsStop(s, t);
  }

  lemma ChildStepKeepsProcess(s: State, p: nat, step: ChildStep, q: nat)
    requires p < |s.procs| && ChildEnabled(s, p, step) && q < |s.procs|
    requires MutexOk(s) && ProcessOk(s, p) && ProcessOk(s, q)
    ensures ProcessOk(ChildApply(s, p, step), q)
  {
  }

  lemma ChildStepAdvances(s: State, p: nat, step: ChildStep)
    requires p < |s.procs| && ChildEnabled(s, p, step) && ProcessOk(s, p) && MutexOk(s)
    ensures Advances(s, ChildApply(s, p, step))
  {
  }

  lemma ChildStepKeepsShared(s: State, p: nat, step: ChildStep)
    requires p < |s.procs| && ChildEnabled(s, p, step) && ProcessOk(s, p)
    requires MutexOk(s) && RootOk(s)
    requires s.ctx.Some? && s.ctx.value.who.Child? ==> ProcessOk(s, s.ctx.value.who.id)
    ensures MutexOk(ChildApply(s, p, step)) && RootOk(ChildApply(s, p, step))
  {
  }

  lemma ChildStepKeepsInv(s: State, p: nat, step: ChildStep)
    requires Inv(s) && p < |s.procs| && ChildEnabled(s, p, step)
    ensures Inv(ChildApply(s, p, step))
  {
    var t := ChildApply(s, p, step);
    assert ProcessOk(s, p);
    forall q | 0 <= q < |t.procs| ensures ProcessOk(t, q) {
      assert ProcessOk(s, q);
      ChildStepKeepsProcess(s, p, step, q);
    }
    ChildStepKeepsShared(s, p, step);
    ChildStepAdvances(s, p, step);
    AdvanceKeepsStop(s, t);
  }

  /** What a step of stop may touch outside stop's own variables. */
  ghost predicate StopMoves(s: State, t: State) {
    && t.ctx == s.ctx && t.start == s.start && |t.procs| == |s.procs|
    && (t.lock == s.lock || (!t.lock.WaiterOf? && !s.lock.WaiterOf?))
    && (t.stopping == s.stopping || s.lock.Stopper?)
    && (s.childrenCancelled ==> t.childrenCancelled)
    && Phase(s.stop) <= Phase(t.stop)
    && forall q | 0 <= q < |s.procs| ::
         t.procs[q] == s.procs[q].(killed := t.procs[q].killed, killTried := t.procs[q].killTried)
  }

  lemma StopMoveKeepsProcesses(s: State, t: State)
    requires StopMoves(s, t) && RootOk(s)
    requires forall q | 0 <= q < |s.procs| :: ProcessOk(s, q)
    ensures forall q | 0 <= q < |t.procs| :: ProcessOk(t, q)
    ensures RootOk(t)
  {
    forall q | 0 <= q < |t.procs| ensures ProcessOk(t, q) {
      assert ProcessOk(s, q);
    }
  }

  lemma SortKeepsSplit(s: State)
    requires HandoffEnabled(s, SortNext) && SplitOk(s) && ProcessOk(s, s.stop.i)
    ensures SplitOk(HandoffApply(s, SortNext))
  {
    if s.procs[s.stop.i].early {
      SplitEarly(s.procs, s.stop.i, s.unexpected, s.running);
    } else {
      SplitOther(s.procs, s.stop.i, s.unexpected, s.running);
    }
  }

  lemma HandoffStepMoves(s: State, step: HandoffStep)
    requires HandoffEnabled(s, step) && MutexOk(s)
    ensures MutexOk(HandoffApply(s, step)) && StopMoves(s, HandoffApply(s, step))
  {
  }

  lemma HandoffKeepsKills(s: State, step: HandoffStep)
    requires HandoffEnabled(s, step) && KillsOk(s)
    ensures KillsOk(HandoffApply(s, step))
  {
    var t := HandoffApply(s, step);
    SurvivedFrame(s.procs, s.running, t.procs, t.running, 0, s.survivors);
  }

  lemma HandoffStepKeepsInv(s: State, step: HandoffStep)
    requires Inv(s) && HandoffEnabled(s, step)
    ensures Inv(HandoffApply(s, step))
  {
    var t := HandoffApply(s, step);
    HandoffStepMoves(s, step);
    StopMoveKeepsProcesses(s, t);
    if step.SortNext? {
      assert ProcessOk(s, s.stop.i);
      SortKeepsSplit(s);
    }
    HandoffKeepsKills(s, step);
  }

  lemma AwaitStepMoves(s: State, step: AwaitStep)
    requires AwaitEnabled(s, step) && MutexOk(s)
    ensures MutexOk(AwaitApply(s, step)) && StopMoves(s, AwaitApply(s, step))
  {
  }

  lemma AwaitStepKeepsLoops(s: State, step: AwaitStep)
    requires AwaitEnabled(s, step) && LoopsOk(s)
    ensures LoopsOk(AwaitApply(s, step))
  {
    var t := AwaitApply(s, step);
    assert forall p: nat :: IsDone(s, p) ==> Settled(t, p);
  }

  /** A step of stop that reports nothing. */
  lemma QuietKeepsErrors(s: State, t: State)
    requires ErrorsOk(s) && t == s.(stop := t.stop)
    requires Reaped(t) == Reaped(s) && (Phase(t.stop) <= 6 <==> Phase(s.stop) <= 6)
    ensures ErrorsOk(t)
  {
  }

  lemma TestKeepsKills(s: State)
    requires AwaitEnabled(s, TestDeadline) && KillsOk(s)
    ensures KillsOk(AwaitApply(s, TestDeadline)) && s.survivors == [] && s.outcomes == []
  {
    SurvivedMore(s.procs, s.running, 0, |s.running|, s.survivors);
  }

  lemma TestKeepsErrors(s: State)
    requires AwaitEnabled(s, TestDeadline) && ErrorsOk(s) && s.survivors == [] && s.outcomes == []
    ensures ErrorsOk(AwaitApply(s, TestDeadline))
  {
    ErrorsBegin(s.procs, s.unexpected, s.running[..0]);
  }

  lemma WaitKeepsErrors(s: State, t: State)
    requires t == s.(stop := t.stop) && Phase(s.stop) <= 6 && Phase(t.stop) <= 6 && KillsOk(s) && ErrorsOk(s)
    ensures KillsOk(t) && ErrorsOk(t)
  {
    QuietKeepsErrors(s, t);
  }

  /** What a step of stop that leaves the two lists alone keeps of them. */
  lemma StopMoveKeepsSplit(s: State, t: State)
    requires StopMoves(s, t) && SplitOk(s) && Sorted(t) == Sorted(s)
    requires t.unexpected == s.unexpected && t.running == s.running
    ensures SplitOk(t)
  {
    SplitFrame(s.procs, t.procs, Sorted(s), s.unexpected, s.running);
  }

  /** A step of the graceful wait itself. */
  lemma WaitKeepsInv(s: State, t: State)
    requires Inv(s) && t == s.(stop := t.stop) && 5 <= Phase(s.stop) <= 6 && 5 <= Phase(t.stop) <= 6
    requires StopMoves(s, t) && MutexOk(t) && LoopsOk(t)
    ensures Inv(t)
  {
    StopMoveKeepsProcesses(s, t);
    StopMoveKeepsSplit(s, t);
    WaitKeepsErrors(s, t);
  }

  lemma TestStepKeepsInv(s: State)
    requires Inv(s) && AwaitEnabled(s, TestDeadline)
    ensures Inv(AwaitApply(s, TestDeadline))
  {
    AwaitStepMoves(s, TestDeadline);
    AwaitStepKeepsLoops(s, TestDeadline);
    TestKeepsKills(s);
    TestKeepsErrors(s);
    StopMoveKeepsRest(s, AwaitApply(s, TestDeadline));
  }

  lemma AwaitStepKeepsInv(s: State, step: AwaitStep)
    requires Inv(s) && AwaitEnabled(s, step)
    ensures Inv(AwaitApply(s, step))
  {
    if step.TestDeadline? {
      TestStepKeepsInv(s);
    } else {
      AwaitStepMoves(s, step);
      AwaitStepKeepsLoops(s, step);
      WaitKeepsInv(s, AwaitApply(s, step));
    }
  }

  lemma KillMoves(s: State, outcome: Option<Error>)
    requires s.stop.Forcing? && s.stop.i < |s.running| && s.running[s.stop.i] < |s.procs| && MutexOk(s)
    ensures MutexOk(KillSurvivor(s, outcome)) && StopMoves(s, KillSurvivor(s, outcome))
  {
  }

  /** One step of the kill loop, from s to t: it looks at one more process, or finds one to kill, or is
      through. */
  ghost predicate KillLoopStep(s: State, t: State) {
    && t.running == s.running && |t.procs| == |s.procs| && t.deadline == s.deadline
    && (forall p: nat :: Settled(s, p) ==> Settled(t, p))
    && (forall p: nat :: IsDone(s, p) ==> Settled(t, p))
    && match s.stop
       case Killing(i) =>
         || (t.stop == Killing(i + 1) && i < |s.running| && Settled(t, s.running[i]))
         || (t.stop == Forcing(i) && i < |s.running|)
         || (t.stop == Reaping(0) && i == |s.running|)
       case Forcing(i) => t.stop == Killing(i + 1) && i < |s.running| && Settled(t, s.running[i])
       case _ => false
  }

  lemma KillStepKeepsLoops(s: State, t: State)
    requires LoopsOk(s) && KillLoopStep(s, t)
    ensures LoopsOk(t)
  {
  }

  lemma KillKeepsKills(s: State, outcome: Option<Error>)
    requires s.stop.Forcing? && s.stop.i < |s.running| && s.running[s.stop.i] < |s.procs|
    requires KillsOk(s) && s.deadline && Increasing(s.running)
    ensures KillsOk(KillSurvivor(s, outcome))
  {
    var t, p := KillSurvivor(s, outcome), s.running[s.stop.i];
    SurvivedKill(s.procs, s.running, s.stop.i, s.survivors, t.procs[p]);
  }

  /** The report of one more survivor. */
  lemma KillReported(s: State, t: State, p: nat, outcome: Option<Error>)
    requires ListsOk(s) && ListsOk(t) && Reaped(s) == Reaped(t) == 0
    requires t.unexpected == s.unexpected && t.running == s.running
    requires p < |s.procs| == |t.procs| && t.procs == s.procs[p := t.procs[p]]
    requires ExitOf(t.procs[p]) == ExitOf(s.procs[p])
    requires t.survivors == s.survivors + [p] && t.outcomes == s.outcomes + [outcome]
    requires s.errs == Reported(s) && t.errs == s.errs + KillErrors(s.procs[p].name, outcome)
    ensures t.errs == Reported(t)
  {
    ErrorsKill(s.procs, t.procs, s.unexpected, s.survivors, s.outcomes, s.running[..0], p, outcome);
  }

  lemma KillKeepsLists(s: State, outcome: Option<Error>)
    requires s.stop.Forcing? && s.stop.i < |s.running| && ListsOk(s)
    ensures ListsOk(KillSurvivor(s, outcome))
  {
  }

  lemma KillKeepsErrors(s: State, outcome: Option<Error>)
    requires s.stop.Forcing? && s.stop.i < |s.running| && ErrorsOk(s)
    ensures ErrorsOk(KillSurvivor(s, outcome))
  {
    KillKeepsLists(s, outcome);
    KillReported(s, KillSurvivor(s, outcome), s.running[s.stop.i], outcome);
  }

  /** The other steps of the kill loop move only its counter. */
  ghost predicate Skips(s: State, t: State) {
    && s.stop.Killing? && t == s.(stop := t.stop)
    && var i := s.stop.i;
       || (t.stop == Killing(i + 1) && i < |s.running| && IsDone(s, s.running[i]))
       || (t.stop == Forcing(i) && i < |s.running|)
       || (t.stop == Reaping(0) && i == |s.running|)
  }

  lemma SkipKeepsKills(s: State, t: State)
    requires Skips(s, t) && KillsOk(s)
    ensures KillsOk(t)
  {
    SurvivedMore(s.procs, s.running, s.stop.i, Killed(t), s.survivors);
  }

  lemma KillKeepsLoops(s: State, outcome: Option<Error>)
    requires s.stop.Forcing? && LoopsOk(s) && s.running[s.stop.i] < |s.procs|
    ensures LoopsOk(KillSurvivor(s, outcome))
  {
    var t := KillSurvivor(s, outcome);
    assert forall p: nat :: Settled(s, p) ==> Settled(t, p);
    assert forall p: nat :: IsDone(s, p) ==> Settled(t, p);
    KillStepKeepsLoops(s, t);
  }

  /** The rest of the invariant follows from what a step of stop may touch. */
  lemma StopMoveKeepsRest(s: State, t: State)
    requires Inv(s) && StopMoves(s, t) && MutexOk(t) && LoopsOk(t) && KillsOk(t) && ErrorsOk(t)
    requires Sorted(t) == Sorted(s) && t.unexpected == s.unexpected && t.running == s.running
    ensures Inv(t)
  {
    StopMoveKeepsProcesses(s, t);
    StopMoveKeepsSplit(s, t);
  }

  lemma KillKeepsInv(s: State, outcome: Option<Error>)
    requires Inv(s) && s.stop.Forcing? && s.running[s.stop.i] < |s.procs|
    ensures Inv(KillSurvivor(s, outcome))
  {
    KillMoves(s, outcome);
    KillKeepsLoops(s, outcome);
    KillKeepsKills(s, outcome);
    KillKeepsErrors(s, outcome);
    StopMoveKeepsRest(s, KillSurvivor(s, outcome));
  }

  lemma SkipMoves(s: State, t: State)
    requires Skips(s, t) && MutexOk(s)
    ensures StopMoves(s, t) && MutexOk(t) && Sorted(t) == Sorted(s) && Reaped(t) == Reaped(s) == 0
    ensures Phase(s.stop) == 7 && Phase(t.stop) >= 7
  {
  }

  lemma SkipKeepsLoops(s: State, t: State)
    requires Skips(s, t) && LoopsOk(s) && Known(s.procs, s.running)
    ensures LoopsOk(t)
  {
    assert forall p: nat :: Settled(s, p) ==> Settled(t, p);
    assert forall p: nat :: IsDone(s, p) ==> Settled(t, p);
    KillStepKeepsLoops(s, t);
  }

  lemma SkipKeepsInv(s: State, t: State)
    requires Inv(s) && Skips(s, t)
    ensures Inv(t)
  {
    SkipMoves(s, t);
    StopMoveKeepsProcesses(s, t);
    StopMoveKeepsSplit(s, t);
    SkipKeepsLoops(s, t);
    SkipKeepsKills(s, t);
    QuietKeepsErrors(s, t);
  }

  lemma KillStepKeepsInv(s: State, step: KillStep)
    requires Inv(s) && KillEnabled(s, step)
    ensures Inv(KillApply(s, step))
  {
    if step.Kill? {
      KillKeepsInv(s, step.outcome);
    } else {
      SkipKeepsInv(s, KillApply(s, step));
    }
  }

  lemma ReapReported(s: State, t: State)
    requires ListsOk(s) && s.stop.Reaping? && s.stop.i < |s.running| && t.stop == Reaping(s.stop.i + 1)
    requires t == s.(stop := t.stop, errs := t.errs) && s.errs == Reported(s)
    requires t.errs == s.errs
      + [ShutdownError(s.procs[s.running[s.stop.i]].name, s.procs[s.running[s.stop.i]].waitErr)]
    ensures ListsOk(t) && t.errs == Reported(t)
  {
    var i := s.stop.i;
    assert s.running[..i + 1] == s.running[..i] + [s.running[i]];
    ErrorsReap(s.procs, s.unexpected, s.survivors, s.outcomes, s.running[..i], s.running[i]);
  }

  lemma ReapKeepsErrors(s: State)
    requires s.stop.Reaping? && s.stop.i < |s.running| && IsDone(s, s.running[s.stop.i]) && ErrorsOk(s)
    ensures ErrorsOk(ReapApply(s, Reap))
  {
    ReapReported(s, ReapApply(s, Reap));
  }

  lemma ReapStepMoves(s: State, step: ReapStep)
    requires ReapEnabled(s, step) && MutexOk(s)
    ensures MutexOk(ReapApply(s, step)) && StopMoves(s, ReapApply(s, step))
  {
  }

  lemma ReapStepKeepsLoops(s: State, step: ReapStep)
    requires ReapEnabled(s, step) && LoopsOk(s)
    ensures LoopsOk(ReapApply(s, step))
  {
    var t := ReapApply(s, step);
    assert forall p: nat :: IsDone(s, p) ==> IsDone(t, p);
    assert forall p: nat :: Settled(s, p) ==> Settled(t, p);
  }

  lemma ReapStepKeepsInv(s: State, step: ReapStep)
    requires Inv(s) && ReapEnabled(s, step)
    ensures Inv(ReapApply(s, step))
  {
    ReapStepMoves(s, step);
    StopMoveKeepsProcesses(s, ReapApply(s, step));
    assert Survived(s.procs, s.running, |s.running|, s.survivors);
    StopMoveKeepsSplit(s, ReapApply(s, step));
    ReapStepKeepsLoops(s, step);
    if step.Reap? {
      ReapKeepsErrors(s);
    } else {
      QuietKeepsErrors(s, ReapApply(s, step));
    }
  }

  /** The invariant holds along every run. */
  lemma StepKeepsInv(s: State, step: Step)
    requires Inv(s) && Enabled(s, step)
    ensures Inv(Apply(s, step))
  {
    match step
    case Outside(o) => OutsideStepKeepsInv(s, o);
    case Starting(st) => StartStepKeepsInv(s, st);
    case OfChild(p, c) => ChildStepKeepsInv(s, p, c);
    case Handoff(h) => HandoffStepKeepsInv(s, h);
    case Await(a) => AwaitStepKeepsInv(s, a);
    case Force(k) => KillStepKeepsInv(s, k);
    case Final(r) => ReapStepKeepsInv(s, r);
  }

  lemma {:induction false} RunKeepsInv(s: State, steps: seq<Step>)
    requires Inv(s) && ValidRun(s, steps)
    ensures Inv(Run(s, steps))
    decreases |steps|
  {
    if steps == [] {
    } else {
      StepKeepsInv(s, steps[0]);
      RunKeepsInv(Apply(s, steps[0]), steps[1..]);
    }
  }

  lemma InitInv()
    ensures Inv(INIT)
  {
  }

  lemma {:induction false} RunKeepsInvFromInit(steps: seq<Step>)
    requires ValidRun(INIT, steps)
    ensures Inv(Run(INIT, steps))
  {
    InitInv();
    RunKeepsInv(INIT, steps);
  }
}

/**
  The supervisor's code in its own form: a suite object whose methods update it under the mutex.
  Each method body runs as the source writes it; between the statements of `stop` the rest of the
  process may act, which `Elapse` and `AwaitDone` describe. Module Supervisor has every interleaving
  of the same steps.
 */
module InfraSuites {
  import opened GoErrors
  import opened Contexts
  import Supervisor
  import SupervisorTheorems

  class InfraProcess {
    const name: string
    var done: bool                 // the done channel is closed
    var waitErr: Option<Error>
    var killTried: bool            // history: Kill was called
    var liveAtKill: bool           // history: ... and it was unfinished then
    var doneAtReap: bool           // history: it was done when stop began its final wait

    constructor (name: string)
      ensures this.name == name && !done && !killTried
    {
      this.name := name;
      done, waitErr, killTried, liveAtKill, doneAtReap := false, None, false, false, false;
    }

    function UnexpectedExit(): Error
      reads this
    {
      InfraExit(name, waitErr)
    }
  }

  class RootContext {
    var ctx: Cell

    constructor ()
      ensures ctx == None
    {
      ctx := None;
    }

    method StopRoot(stop: Stop)
      modifies this
      ensures ctx == Cancel(old(ctx), stop)
    {
      if ctx.None? {
        ctx := Some(stop);
      }
    }
  }

  /** The context that bounds stop. */
  class ShutdownContext {
    var expired: bool

    constructor ()
      ensures !expired
    {
      expired := false;
    }
  }

  // ---------------------------------------------------------------- specification

  /** The members whose flag is `want`, in order. */
  function Select<T>(xs: seq<T>, flags: seq<bool>, want: bool): seq<T>
    requires |xs| == |flags|
  {
    if xs == [] then []
    else
      Select(xs[..|xs| - 1], flags[..|xs| - 1], want)
      + if flags[|xs| - 1] == want then [xs[|xs| - 1]] else []
  }

  lemma {:induction false} SelectMembers<T>(xs: seq<T>, flags: seq<bool>, want: bool, x: T)
    requires |xs| == |flags|
    ensures x in Select(xs, flags, want) <==> exists k | 0 <= k < |xs| :: xs[k] == x && flags[k] == want
  {
    var last := |xs| - 1;
    if xs == [] {
    } else {
      SelectMembers(xs[..last], flags[..last], want, x);
      if k :| 0 <= k < last && xs[k] == x && flags[k] == want {
        assert xs[..last][k] == x && flags[..last][k] == want;
      }
    }
  }

  /** `errs` lists the exit error of each process, or its shutdown error. */
  ghost predicate ListsExits(errs: seq<Option<Error>>, ps: seq<InfraProcess>)
    reads ps
  {
    |errs| == |ps| && forall k | 0 <= k < |ps| :: errs[k] == Some(ps[k].UnexpectedExit())
  }

  ghost predicate ListsShutdowns(errs: seq<Option<Error>>, ps: seq<InfraProcess>)
    reads ps
  {
    |errs| == |ps| && forall k | 0 <= k < |ps| :: errs[k] == Supervisor.ShutdownError(ps[k].name, ps[k].waitErr)
  }

  /** What a call of stop found and joined. */
  datatype Report = Report(
    early: seq<InfraProcess>,        // published before the locked section
    others: seq<InfraProcess>,
    survivors: seq<InfraProcess>,    // not done past the deadline
    exits: seq<Option<Error>>,
    kills: seq<Option<Error>>,
    finals: seq<Option<Error>>,
    outcomes: seq<Option<Error>>,    // what Kill returned for each survivor
    found: seq<bool>                 // which of the others were done at the last look before a kill
  )

  function NamesOf(ps: seq<InfraProcess>): seq<string> {
    seq(|ps|, k requires 0 <= k < |ps| => ps[k].name)
  }

  /** The errors for these survivors, given what Kill returned for each. */
  predicate ListsKills(kills: seq<Option<Error>>, survivors: seq<InfraProcess>, outcomes: seq<Option<Error>>) {
    |outcomes| == |survivors| && kills == Supervisor.KillList(NamesOf(survivors), outcomes)
  }

  lemma ListsKillsMore(
    kills: seq<Option<Error>>, survivors: seq<InfraProcess>, outcomes: seq<Option<Error>>,
    p: InfraProcess, outcome: Option<Error>
  )
    requires ListsKills(kills, survivors, outcomes)
    ensures ListsKills(kills + Supervisor.KillErrors(p.name, outcome), survivors + [p], outcomes + [outcome])
  {
    assert NamesOf(survivors + [p]) == NamesOf(survivors) + [p.name];
    Supervisor.KillListMore(NamesOf(survivors), outcomes, p.name, outcome);
  }

  /** The looks that found a process finished, and the survivors: the processes of the others. */
  predicate Found(running: seq<InfraProcess>, found: seq<bool>, survivors: seq<InfraProcess>) {
    |found| == |running| && survivors == Select(running, found, false)
  }

  lemma FoundMore(running: seq<InfraProcess>, i: nat, found: seq<bool>, survivors: seq<InfraProcess>, done: bool)
    requires i < |running| && Found(running[..i], found, survivors)
    ensures Found(running[..i + 1], found + [done], survivors + if done then [] else [running[i]])
  {
    assert running[..i + 1][..i] == running[..i] && (found + [done])[..i] == found;
    assert survivors + [] == survivors;
  }

  lemma FoundMembers(running: seq<InfraProcess>, found: seq<bool>, survivors: seq<InfraProcess>)
    requires Found(running, found, survivors)
    ensures forall k | 0 <= k < |running| :: !found[k] ==> running[k] in survivors
    ensures forall p | p in survivors :: p in running
  {
    forall p ensures p in survivors <==> exists k | 0 <= k < |running| :: running[k] == p && !found[k] {
      SelectMembers(running, found, false, p);
    }
  }

  lemma {:induction false} AllFound(running: seq<InfraProcess>, found: seq<bool>)
    requires |found| == |running| && forall k | 0 <= k < |found| :: found[k]
    ensures Found(running, found, [])
  {
    if running == [] {
    } else {
      AllFound(running[..|running| - 1], found[..|running| - 1]);
    }
  }

  /** What waiters may do to processes over time: publish each once. */
  twostate predicate Later(ps: seq<InfraProcess>)
    reads ps
  {
    forall p | p in ps ::
      && (old(p.done) ==> p.done && p.waitErr == old(p.waitErr))
      && (old(p.killTried) ==> p.killTried)
  }

  /** Nobody calls Kill. */
  twostate predicate NoKill(ps: seq<InfraProcess>)
    reads ps
  {
    forall p | p in ps :: p.killTried == old(p.killTried) && p.liveAtKill == old(p.liveAtKill)
  }

  /** The final wait does not begin. */
  twostate predicate NoReap(ps: seq<InfraProcess>)
    reads ps
  {
    forall p | p in ps :: p.doneAtReap == old(p.doneAtReap)
  }

  // ---------------------------------------------------------------- the environment

  /** Any number of waiters publish any results, and the deadline may expire. */
  method Elapse(ps: seq<InfraProcess>, ctx: ShutdownContext)
    modifies ps, ctx
    ensures Later(ps) && (old(ctx.expired) ==> ctx.expired)
    ensures NoKill(ps) && NoReap(ps)
  {
    var expires: bool := *;
    ctx.expired := ctx.expired || expires;
    for i := 0 to |ps|
      invariant Later(ps) && (old(ctx.expired) ==> ctx.expired)
      invariant NoKill(ps) && NoReap(ps)
    {
      var publishes: bool, result: Option<Error> := *, *;
      if publishes && !ps[i].done {
        ps[i].waitErr, ps[i].done := result, true;
      }
    }
  }

  /** `<-process.done`, which nothing bounds. It comes to an end for a process that is done, or was
      killed and so ends; for another one it must not be called. */
  method AwaitDone(p: InfraProcess, ps: seq<InfraProcess>, ctx: ShutdownContext)
    requires p in ps && (p.done || p.killTried)
    modifies ps, ctx
    ensures Later(ps) && (old(ctx.expired) ==> ctx.expired) && p.done
    ensures NoKill(ps) && NoReap(ps)
  {
    Elapse(ps, ctx);
    if !p.done {
      var result: Option<Error> := *;
      p.waitErr, p.done := result, true;
    }
  }

  /** `select` on a done channel and the deadline: it sleeps until one is ready, and when both are,
      takes either. */
  method SelectDone(p: InfraProcess, ps: seq<InfraProcess>, ctx: ShutdownContext) returns (sawDone: bool)
    requires p in ps
    modifies ps, ctx
    ensures Later(ps) && (old(ctx.expired) ==> ctx.expired)
    ensures if sawDone then p.done else ctx.expired
    ensures NoKill(ps) && NoReap(ps)
  {
    Elapse(ps, ctx);
    if !p.done && !ctx.expired {
      var exits: bool, result: Option<Error> := *, *;
      if exits {
        p.waitErr, p.done := result, true;
      } else {
        ctx.expired := true;
      }
    }
    sawDone := *;
    sawDone := p.done && (sawDone || !ctx.expired);
  }

  // ---------------------------------------------------------------- the suite

  class InfraSuite {
    const root: RootContext
    var stopping: bool
    var childrenCancelled: bool
    var processes: seq<InfraProcess>

    constructor (root: RootContext)
      ensures this.root == root && !stopping && !childrenCancelled && processes == []
    {
      this.root := root;
      stopping, childrenCancelled, processes := false, false, [];
    }

    /** `start`, whole: it holds the mutex. `spawnErr` is what cmd.Start returns. A child is spawned
        exactly if the root is live, no stop has begun and the spawn succeeds. */
    method Start(name: string, spawnErr: Option<Error>) returns (process: InfraProcess?, err: Option<Error>)
      modifies this`processes
      ensures err.None? <==> root.ctx.None? && !stopping && spawnErr.None?
      ensures err.None? ==> process != null && fresh(process) && process.name == name && !process.done
      ensures err.None? ==> processes == old(processes) + [process]
      ensures err.Some? ==> process == null && processes == old(processes)
      ensures root.ctx.Some? ==> err == Some(Canceled)
      ensures root.ctx.None? && !stopping && spawnErr.Some? ==> err == Some(Wrapped("start " + name, spawnErr.value))
    {
      if root.ctx.Some? {
        return null, CtxErr(root.ctx);
      }
      if stopping {
        return null, Some(Opaque("start " + name + " after embedded process shutdown"));
      }
      if spawnErr.Some? {
        return null, Some(Wrapped("start " + name, spawnErr.value));
      }
      process := new InfraProcess(name);
      processes := processes + [process];
      err := None;
    }

    /** The waiter goroutine's critical section for the process with the given number. An exit
        before stopping is stored first, then stops the root with the process named as cause. */
    method Publish(id: nat, waitErr: Option<Error>)
      requires id < |processes| && !processes[id].done
      modifies processes[id], root
      ensures processes[id].done && processes[id].waitErr == waitErr
      ensures NoKill(processes)
      ensures root.ctx == if stopping then old(root.ctx)
        else Cancel(old(root.ctx), Stop(InfraExit(processes[id].name, waitErr), Child(id)))
    {
      var process := processes[id];
      process.waitErr := waitErr;
      if !stopping {
        root.StopRoot(Stop(process.UnexpectedExit(), Child(id)));
      }
      process.done := true;
    }

    /** stop's locked section: what is published now is unexpected, the rest is running. */
    method HandOff() returns (running: seq<InfraProcess>, unexpected: seq<InfraProcess>, ghost done: seq<bool>)
      modifies this`stopping
      ensures stopping
      ensures |done| == |processes| && forall k | 0 <= k < |done| :: done[k] == processes[k].done
      ensures unexpected == Select(processes, done, true) && running == Select(processes, done, false)
    {
      stopping := true;
      running, unexpected, done := [], [], [];
      for i := 0 to |processes|
        invariant |done| == i && forall k | 0 <= k < i :: done[k] == processes[k].done
        invariant unexpected == Select(processes[..i], done, true) && running == Select(processes[..i], done, false)
      {
        assert processes[..i + 1][..i] == processes[..i];
        assert (done + [processes[i].done])[..i] == done;
        if processes[i].done {
          unexpected := unexpected + [processes[i]];
        } else {
          running := running + [processes[i]];
        }
        done := done + [processes[i].done];
      }
      assert processes[..|processes|] == processes;
    }
  }

  /** The graceful wait: ends with every process done, or with the deadline expired. */
  method WaitForProcesses(running: seq<InfraProcess>, ps: seq<InfraProcess>, ctx: ShutdownContext)
    requires forall p | p in running :: p in ps
    modifies ps, ctx
    ensures Later(ps) && (old(ctx.expired) ==> ctx.expired)
    ensures ctx.expired || forall p | p in running :: p.done
    ensures NoKill(ps) && NoReap(ps)
  {
    for i := 0 to |running|
      invariant Later(ps) && (old(ctx.expired) ==> ctx.expired)
      invariant forall k | 0 <= k < i :: running[k].done
      invariant NoKill(ps) && NoReap(ps)
    {
      var sawDone := SelectDone(running[i], ps, ctx);
      if !sawDone {
        return;
      }
    }
  }

  /** One round of the kill loop: a process found unfinished gets a Kill. */
  method KillUnlessDone(process: InfraProcess, ps: seq<InfraProcess>, ctx: ShutdownContext)
    returns (kills: seq<Option<Error>>, ghost survived: bool, ghost outcome: Option<Error>)
    requires process in ps
    modifies ps, ctx
    ensures Later(ps) && (old(ctx.expired) ==> ctx.expired)
    ensures !survived ==> process.done && kills == [] && NoKill(ps)
    ensures survived ==> process.killTried && process.liveAtKill
    ensures survived ==> kills == Supervisor.KillErrors(process.name, outcome)
    ensures forall p | p in ps && p != process ::
      p.killTried == old(p.killTried) && p.liveAtKill == old(p.liveAtKill)
    ensures NoReap(ps)
  {
    Elapse(ps, ctx);
    kills, survived, outcome := [], !process.done, None;
    if !process.done {
      var returned: Option<Error> := *;
      outcome := returned;
      process.killTried, process.liveAtKill := true, !process.done;
      kills := Supervisor.KillErrors(process.name, returned);
    }
  }

  /** Past the deadline: every process found unfinished gets a Kill, and its errors, and no other does. */
  method KillSurvivors(running: seq<InfraProcess>, ps: seq<InfraProcess>, ctx: ShutdownContext)
    returns (kills: seq<Option<Error>>, ghost survivors: seq<InfraProcess>,
             ghost outcomes: seq<Option<Error>>, ghost found: seq<bool>)
    requires forall p | p in running :: p in ps
    modifies ps, ctx
    ensures Later(ps) && (old(ctx.expired) ==> ctx.expired)
    ensures forall p | p in running :: p.done || p.killTried
    ensures ListsKills(kills, survivors, outcomes) && Found(running, found, survivors)
    ensures forall k | 0 <= k < |running| && found[k] :: running[k].done
    ensures survivors == [] ==> forall p | p in running :: p.done
    ensures forall p | p in survivors :: p in running && p.killTried && p.liveAtKill
    ensures forall p | p in ps :: p.killTried <==> old(p.killTried) || p in survivors
    ensures NoReap(ps)
  {
    kills, survivors, outcomes, found := [], [], [], [];
    for i := 0 to |running|
      invariant Later(ps) && (old(ctx.expired) ==> ctx.expired)
      invariant ListsKills(kills, survivors, outcomes) && Found(running[..i], found, survivors)
      invariant forall k | 0 <= k < i && found[k] :: running[k].done
      invariant forall p | p in survivors :: p.killTried && p.liveAtKill
      invariant forall p | p in ps :: p.killTried <==> old(p.killTried) || p in survivors
      invariant NoReap(ps)
    {
      assert running[i] in ps;
      var errs;
      ghost var survived, outcome;
      errs, survived, outcome := KillUnlessDone(running[i], ps, ctx);
      FoundMore(running, i, found, survivors, !survived);
      found := found + [!survived];
      if survived {
        ListsKillsMore(kills, survivors, outcomes, running[i], outcome);
        survivors, outcomes := survivors + [running[i]], outcomes + [outcome];
      } else {
        assert survivors + [] == survivors && kills + errs == kills;
      }
      kills := kills + errs;
    }
    assert running[..|running|] == running;
    FoundMembers(running, found, survivors);
  }

  /** The test of the deadline: past it, the survivors are killed; before it there are none. Either way
      nobody is left unfinished and untouched. */
  method KillIfExpired(running: seq<InfraProcess>, ps: seq<InfraProcess>, ctx: ShutdownContext)
    returns (kills: seq<Option<Error>>, ghost survivors: seq<InfraProcess>,
             ghost outcomes: seq<Option<Error>>, ghost found: seq<bool>)
    requires forall p | p in running :: p in ps
    requires ctx.expired || forall p | p in running :: p.done
    modifies ps, ctx
    ensures Later(ps) && (old(ctx.expired) ==> ctx.expired) && NoReap(ps)
    ensures ListsKills(kills, survivors, outcomes) && Found(running, found, survivors)
    ensures forall k | 0 <= k < |running| && found[k] :: running[k].done
    ensures forall p | p in running :: p.done || p.killTried
    ensures forall p | p in survivors :: p.killTried && p.liveAtKill
    ensures survivors != [] ==> ctx.expired
  {
    kills, survivors, outcomes, found := [], [], [], seq(|running|, _ => true);
    AllFound(running, found);
    if ctx.expired {
      kills, survivors, outcomes, found := KillSurvivors(running, ps, ctx);
    }
  }

  /** Where the final wait begins: history only. */
  method MarkReap(running: seq<InfraProcess>, ps: seq<InfraProcess>)
    requires forall p | p in running :: p in ps
    modifies ps
    ensures forall p | p in ps :: p.done == old(p.done) && p.waitErr == old(p.waitErr)
    ensures NoKill(ps) && forall p | p in running :: p.doneAtReap == p.done
  {
    for i := 0 to |running|
      invariant forall p | p in ps :: p.done == old(p.done) && p.waitErr == old(p.waitErr)
      invariant NoKill(ps) && forall k | 0 <= k < i :: running[k].doneAtReap == running[k].done
    {
      assert running[i] in ps;
      running[i].doneAtReap := running[i].done;
    }
  }

  /** The final wait: every process is waited for, and its shutdown error collected. It must not begin
      before each of them is done or had a kill attempted. */
  method ReapAll(running: seq<InfraProcess>, ps: seq<InfraProcess>, ctx: ShutdownContext)
    returns (errs: seq<Option<Error>>)
    requires forall p | p in running :: p in ps && (p.done || p.killTried)
    modifies ps, ctx
    ensures Later(ps) && (old(ctx.expired) ==> ctx.expired)
    ensures ListsShutdowns(errs, running) && NoKill(ps) && forall p | p in running :: p.done
    ensures forall p | p in running :: p.doneAtReap == old(p.done)
  {
    errs := [];
    MarkReap(running, ps);
    for i := 0 to |running|
      invariant NoKill(ps)
      invariant Later(ps) && (old(ctx.expired) ==> ctx.expired)
      invariant |errs| == i
      invariant forall p | p in running :: p.doneAtReap == old(p.done)
      invariant forall k | 0 <= k < i :: running[k].done
      invariant forall k | 0 <= k < i :: errs[k] == Supervisor.ShutdownError(running[k].name, running[k].waitErr)
    {
      assert running[i] in running;
      AwaitDone(running[i], ps, ctx);
      errs := errs + [Supervisor.ShutdownError(running[i].name, running[i].waitErr)];
    }
  }

  method CollectExits(unexpected: seq<InfraProcess>) returns (errs: seq<Option<Error>>)
    ensures ListsExits(errs, unexpected)
  {
    errs := [];
    for i := 0 to |unexpected|
      invariant |errs| == i && forall k | 0 <= k < i :: errs[k] == Some(unexpected[k].UnexpectedExit())
    {
      errs := errs + [Some(unexpected[i].UnexpectedExit())];
    }
  }

  lemma StopVerdict(report: Report)
    requires |report.exits| == |report.early| && forall k | 0 <= k < |report.exits| :: report.exits[k].Some?
    requires forall k | 0 <= k < |report.kills| :: report.kills[k].Some?
    requires ListsShutdowns(report.finals, report.others)
    ensures Join(report.exits + report.kills + report.finals).None? <==>
      && report.early == [] && report.kills == []
      && forall p | p in report.others :: Supervisor.EndedWell(p.waitErr)
  {
    var exits, kills, finals, others := report.exits, report.kills, report.finals, report.others;
    SupervisorTheorems.JoinOfThree(exits, kills, finals);
    SupervisorTheorems.NonePresent(exits);
    SupervisorTheorems.NonePresent(kills);
    SupervisorTheorems.NonePresent(finals);
    assert exits != [] ==> exits[0].Some?;
    assert kills != [] ==> kills[0].Some?;
    forall k | 0 <= k < |others| ensures finals[k].None? <==> Supervisor.EndedWell(others[k].waitErr) {
      SupervisorTheorems.ShutdownErrorMeaning(others[k].name, others[k].waitErr);
    }
    assert forall p | p in others :: exists k | 0 <= k < |others| :: others[k] == p;
  }

  /** What stop promises of its result: it joins, in order, an exit error for every process already
      published at the handoff, the kills, and the shutdown error of every other process; it is
      nil exactly if there was no early exit, no survivor, and every other process ended well. */
  ghost predicate Explains(report: Report, result: Option<Error>)
    reads report.early, report.others
  {
    && ListsExits(report.exits, report.early) && ListsShutdowns(report.finals, report.others)
    && ListsKills(report.kills, report.survivors, report.outcomes)
    && Found(report.others, report.found, report.survivors)
    && result == Join(report.exits + report.kills + report.finals)
    && (forall p | p in report.survivors :: p in report.others)
    && (result.None? <==>
          && report.early == [] && report.survivors == []
          && forall p | p in report.others :: Supervisor.EndedWell(p.waitErr))
  }

  /** The lists of the handoff, when it takes place. */
  lemma HandoffSplits(ps: seq<InfraProcess>, done: seq<bool>)
    requires |done| == |ps| && forall k | 0 <= k < |ps| :: done[k] == ps[k].done
    ensures forall p | p in Select(ps, done, true) :: p in ps && p.done
    ensures forall p | p in Select(ps, done, false) :: p in ps
    ensures forall p | p in ps :: p.done || p in Select(ps, done, false)
  {
    forall p | p in Select(ps, done, true) ensures p in ps && p.done {
      SelectMembers(ps, done, true, p);
    }
    forall p | p in Select(ps, done, false) ensures p in ps {
      SelectMembers(ps, done, false, p);
    }
    forall p | p in ps ensures p.done || p in Select(ps, done, false) {
      SelectMembers(ps, done, false, p);
    }
  }

  /** A process that was unfinished when the final wait began is a survivor, so it had been found
      unfinished past the deadline and killed. */
  ghost predicate OnlySurvivorsLeft(report: Report)
    reads report.others
  {
    && |report.found| == |report.others|
    && (forall k | 0 <= k < |report.others| && report.found[k] :: report.others[k].doneAtReap)
    && forall p | p in report.others :: p.doneAtReap || p in report.survivors
  }

  /** stop after its locked section; every child's context is cancelled by then. */
  method ShutDown(
    suite: InfraSuite, running: seq<InfraProcess>, unexpected: seq<InfraProcess>, ps: seq<InfraProcess>,
    ghost done: seq<bool>, ctx: ShutdownContext
  )
    returns (result: Option<Error>, ghost report: Report)
    requires suite.childrenCancelled
    requires |done| == |ps| && forall k | 0 <= k < |ps| :: done[k] == ps[k].done
    requires unexpected == Select(ps, done, true) && running == Select(ps, done, false)
    modifies ps, ctx
    ensures Later(ps) && forall p | p in ps :: p.done
    ensures old(ctx.expired) ==> ctx.expired
    ensures report.early == unexpected && report.others == running && Explains(report, result)
    ensures OnlySurvivorsLeft(report)
    ensures report.survivors != [] ==> ctx.expired
    ensures forall p | p in report.survivors :: p.killTried && p.liveAtKill
  {
    HandoffSplits(ps, done);
    WaitForProcesses(running, ps, ctx);
    var errs := CollectExits(unexpected);
    forall k | 0 <= k < |unexpected|
      ensures errs[k] == Some(InfraExit(unexpected[k].name, old(unexpected[k].waitErr)))
    {
      assert unexpected[k] in unexpected;
    }
    var kills;
    ghost var survivors, outcomes, found;
    kills, survivors, outcomes, found := KillIfExpired(running, ps, ctx);
    FoundMembers(running, found, survivors);
    var finals := ReapAll(running, ps, ctx);
    report := Report(unexpected, running, survivors, errs, kills, finals, outcomes, found);
    result := Join(errs + kills + finals);
    forall k | 0 <= k < |unexpected| ensures errs[k] == Some(unexpected[k].UnexpectedExit()) {
      assert unexpected[k] in unexpected;
    }
    StopVerdict(report);
  }

  /** `stop`, whole. The early processes are those published when it was called, in start order, the
      others the rest; every process is done when it returns, and the deadline was the only reason
      to kill. */
  method Stop(suite: InfraSuite, ctx: ShutdownContext)
    returns (result: Option<Error>, ghost report: Report, ghost done: seq<bool>)
    modifies suite`stopping, suite`childrenCancelled, suite.processes, ctx
    ensures suite.stopping && suite.childrenCancelled && Later(suite.processes)
    ensures old(ctx.expired) ==> ctx.expired
    ensures forall p | p in suite.processes :: p.done
    ensures |done| == |suite.processes| && forall k | 0 <= k < |done| :: done[k] == old(suite.processes[k].done)
    ensures report.early == Select(suite.processes, done, true)
    ensures report.others == Select(suite.processes, done, false)
    ensures Explains(report, result) && OnlySurvivorsLeft(report)
    ensures report.survivors != [] ==> ctx.expired
    ensures forall p | p in report.survivors :: p.killTried && p.liveAtKill
  {
    var running, unexpected;
    running, unexpected, done := suite.HandOff();
    suite.childrenCancelled := true;
    result, report := ShutDown(suite, running, unexpected, suite.processes, done, ctx);
  }
}

/**
  The time shutdown takes, in milliseconds, against the watchdog that main starts when the root
  context ends. Every close is taken to return by its context's deadline, and the exit of a killed
  child to be published within a bounded time.
 */
module ShutdownBudget {
  import opened Clocks

  const SERVICES_SHUTDOWN_TIMEOUT: nat := 30_000
  const INFRA_PROCESS_WAIT_DELAY: nat := 60_000
  const INFRA_PROCESS_REAP_MARGIN: nat := 5_000
  const INFRA_SHUTDOWN_TIMEOUT: nat := INFRA_PROCESS_WAIT_DELAY + INFRA_PROCESS_REAP_MARGIN
  const SHUTDOWN_WATCHDOG_MARGIN: nat := 10_000
  const SHUTDOWN_TIMEOUT: nat := SERVICES_SHUTDOWN_TIMEOUT + INFRA_SHUTDOWN_TIMEOUT + SHUTDOWN_WATCHDOG_MARGIN

  // ---------------------------------------------------------------- the services

  /** When closes that come one after the other end: after the sum of their times, but no later than
      the deadline they share. `wants` is how long each would take without it. */
  function CloseEnd(start: nat, deadline: nat, wants: seq<nat>): nat {
    if start <= deadline then Min(start + Sum(wants), deadline) else start
  }

  /** One close after the other, each ending by the deadline. */
  method CloseAll(start: nat, deadline: nat, wants: seq<nat>) returns (end: nat)
    ensures start <= deadline ==> end == Min(start + Sum(wants), deadline)
    ensures start > deadline ==> end == start
  {
    end := start;
    for i := 0 to |wants|
      invariant end == CloseEnd(start, deadline, wants[..i])
    {
      assert wants[..i + 1][..i] == wants[..i];
      if end < deadline {
        end := Min(end + wants[i], deadline);
      }
    }
    assert wants[..|wants|] == wants;
  }

  // ---------------------------------------------------------------- the embedded processes

  /** A child: how long after SIGTERM it would end by itself, if ever, and how long after a kill its
      exit is published. */
  datatype Child = Child(graceful: nat, stubborn: bool, reap: nat)

  /** When its exit is published, with the grace-period kill of os/exec but without stop's own. */
  function PublishedAt(c: Child, termAt: nat): (t: nat)
    ensures termAt <= t <= termAt + INFRA_PROCESS_WAIT_DELAY + c.reap
  {
    if !c.stubborn && c.graceful <= INFRA_PROCESS_WAIT_DELAY then termAt + c.graceful
    else termAt + INFRA_PROCESS_WAIT_DELAY + c.reap
  }

  /** ... and with a kill by stop at `killAt`. */
  function PublishedWithKill(c: Child, termAt: nat, killAt: nat): (t: nat)
    requires termAt <= killAt
    ensures termAt <= t <= PublishedAt(c, termAt)
    ensures t <= killAt + c.reap
  {
    var t := PublishedAt(c, termAt);
    if t <= killAt then t else Min(t, killAt + c.reap)
  }

  /** When stop, called at `start` and past its handoff `handoff` later, kills what is left: at its
      deadline, or after the handoff if that took longer. */
  function KillAt(start: nat, handoff: nat): nat {
    start + Max(INFRA_SHUTDOWN_TIMEOUT, handoff)
  }

  /** When a child has been reaped. */
  function ReapedAt(start: nat, handoff: nat, c: Child): nat {
    PublishedWithKill(c, start + handoff, KillAt(start, handoff))
  }

  /** When stop has reaped all children. */
  function StopEnd(start: nat, handoff: nat, children: seq<Child>): nat {
    if children == [] then start + handoff
    else Max(StopEnd(start, handoff, children[..|children| - 1]), ReapedAt(start, handoff, children[|children| - 1]))
  }

  /** That is the latest of the moments when each is reaped, and of the handoff. */
  ghost predicate IsLatest(end: nat, start: nat, handoff: nat, children: seq<Child>) {
    && start + handoff <= end
    && (forall i | 0 <= i < |children| :: ReapedAt(start, handoff, children[i]) <= end)
    && (end == start + handoff || exists i | 0 <= i < |children| :: ReapedAt(start, handoff, children[i]) == end)
  }

  lemma {:induction false} StopEndIsLatest(start: nat, handoff: nat, children: seq<Child>)
    ensures IsLatest(StopEnd(start, handoff, children), start, handoff, children)
  {
    if children == [] {
    } else {
      var last := |children| - 1;
      StopEndIsLatest(start, handoff, children[..last]);
      forall i | 0 <= i < |children|
        ensures ReapedAt(start, handoff, children[i]) <= StopEnd(start, handoff, children)
      {
        assert i < last ==> children[..last][i] == children[i];
      }
    }
  }

  lemma LatestIsUnique(end: nat, other: nat, start: nat, handoff: nat, children: seq<Child>)
    requires IsLatest(end, start, handoff, children) && IsLatest(other, start, handoff, children)
    ensures end == other
  {
  }

  /** When a child is reaped, by its kind: one that ends within the grace period, then; one that does not,
      a reaping time after its grace period, or after stop's own kill if that comes earlier. */
  lemma ReapedAtMeaning(start: nat, handoff: nat, c: Child)
    ensures !c.stubborn && c.graceful <= 60_000 && handoff + c.graceful <= 65_000 ==>
      ReapedAt(start, handoff, c) == start + handoff + c.graceful
    ensures (c.stubborn || c.graceful > 60_000) && handoff + 60_000 + c.reap <= 65_000 ==>
      ReapedAt(start, handoff, c) == start + handoff + 60_000 + c.reap
    ensures (c.stubborn || c.graceful > 60_000) && handoff + 60_000 + c.reap > 65_000 >= handoff ==>
      ReapedAt(start, handoff, c) == start + Min(handoff + 60_000, 65_000) + c.reap
  {
  }

  /** Children that all end within the grace period are not killed, and stop ends with the last. */
  lemma GracefulChildren(start: nat, handoff: nat, children: seq<Child>, slowest: nat)
    requires slowest <= 60_000 && handoff + slowest < 65_000
    requires forall i | 0 <= i < |children| :: !children[i].stubborn && children[i].graceful <= slowest
    ensures StopEnd(start, handoff, children) <= start + handoff + slowest
    ensures Survivors(start, handoff, children) == {}
  {
    StopEndIsLatest(start, handoff, children);
  }

  /** The children that stop can find unfinished when it kills; one that ends at that very instant
      counts. */
  ghost function Survivors(start: nat, handoff: nat, children: seq<Child>): set<nat> {
    set i | 0 <= i < |children| && PublishedAt(children[i], start + handoff) >= KillAt(start, handoff)
  }

  /** Without one, stop ends before it would kill, or at once. */
  lemma NoSurvivorNoDelay(end: nat, start: nat, handoff: nat, children: seq<Child>)
    requires IsLatest(end, start, handoff, children) && Survivors(start, handoff, children) == {}
    ensures end == start + handoff || end < KillAt(start, handoff)
  {
    if i :| 0 <= i < |children| && ReapedAt(start, handoff, children[i]) == end {
      assert i !in Survivors(start, handoff, children);
    }
  }

  /** The graceful wait: for each child in turn, up to the deadline. */
  method WaitOnClock(start: nat, handoff: nat, children: seq<Child>) returns (now: nat)
    ensures start + handoff <= now <= KillAt(start, handoff)
    ensures now == start + handoff || exists i | 0 <= i < |children| :: now <= ReapedAt(start, handoff, children[i])
    ensures now < KillAt(start, handoff) ==>
      forall i | 0 <= i < |children| :: PublishedAt(children[i], start + handoff) <= now
  {
    var termAt, deadline := start + handoff, start + INFRA_SHUTDOWN_TIMEOUT;
    now := termAt;
    for i := 0 to |children|
      invariant termAt <= now <= KillAt(start, handoff)
      invariant now == termAt || exists k | 0 <= k < i :: now <= ReapedAt(start, handoff, children[k])
      invariant forall k | 0 <= k < i :: PublishedAt(children[k], termAt) <= now
    {
      var published := PublishedAt(children[i], termAt);
      if published > deadline {
        // the select sees the deadline first; it may have passed already
        now := Max(now, deadline);
        assert now == termAt || now <= ReapedAt(start, handoff, children[i]);
        return;
      }
      if published > now {
        now := published;
        assert now <= ReapedAt(start, handoff, children[i]);
      }
    }
  }

  /** `stop` on the clock: wait; past the deadline, kill what is not done; then wait for every child. It
      ends when the last one has been reaped, and the survivors are those that outlive the deadline. */
  method StopOnClock(start: nat, handoff: nat, children: seq<Child>) returns (end: nat, survivors: set<nat>)
    ensures IsLatest(end, start, handoff, children) && end == StopEnd(start, handoff, children)
    ensures survivors == Survivors(start, handoff, children)
    ensures survivors == {} ==> end == start + handoff || end < KillAt(start, handoff)
  {
    var now := WaitOnClock(start, handoff, children);
    var expired := now >= start + INFRA_SHUTDOWN_TIMEOUT;
    survivors := {};
    if expired {
      for i := 0 to |children|
        invariant survivors ==
          set k | 0 <= k < i && PublishedAt(children[k], start + handoff) >= KillAt(start, handoff)
      {
        if PublishedAt(children[i], start + handoff) >= now {
          survivors := survivors + {i};
        }
      }
    }
    end := now;
    for i := 0 to |children|
      invariant now <= end
      invariant forall k | 0 <= k < i :: ReapedAt(start, handoff, children[k]) <= end
      invariant end == now || exists k | 0 <= k < i :: ReapedAt(start, handoff, children[k]) == end
    {
      var published := PublishedAt(children[i], start + handoff);
      end := Max(end, if expired then PublishedWithKill(children[i], start + handoff, now) else published);
    }
    StopEndIsLatest(start, handoff, children);
    LatestIsUnique(end, StopEnd(start, handoff, children), start, handoff, children);
    if survivors == {} {
      NoSurvivorNoDelay(end, start, handoff, children);
    }
  }

  ghost predicate ReapedWithin(children: seq<Child>, r: nat) {
    forall i | 0 <= i < |children| :: children[i].reap <= r
  }

  /** Whatever the children, as long as each is reaped within `reap` of a kill: the grace-period kill
      comes before stop's deadline, which then finds no survivor, if and only if handoff and reaping
      together stay under the reap margin. */
  lemma GraceKillComesFirst(start: nat, handoff: nat, reap: nat)
    ensures (forall children: seq<Child> | ReapedWithin(children, reap) :: Survivors(start, handoff, children) == {})
      <==> handoff + reap < INFRA_PROCESS_REAP_MARGIN
  {
    if handoff + reap < INFRA_PROCESS_REAP_MARGIN {
      forall children: seq<Child> | ReapedWithin(children, reap) ensures Survivors(start, handoff, children) == {} {
        forall i | 0 <= i < |children|
          ensures PublishedAt(children[i], start + handoff) < KillAt(start, handoff)
        {
          assert children[i].reap <= reap;
        }
      }
    } else {
      var stubborn := [Child(0, true, reap)];
      assert ReapedWithin(stubborn, reap) && 0 in Survivors(start, handoff, stubborn);
    }
  }

  /** stop ends at most a reaping time after its kill; and by its deadline if handoff and reaping
      are within the reap margin. */
  lemma StopEndBound(start: nat, handoff: nat, children: seq<Child>, reap: nat)
    requires ReapedWithin(children, reap)
    ensures StopEnd(start, handoff, children) <= KillAt(start, handoff) + reap
    ensures handoff + reap <= INFRA_PROCESS_REAP_MARGIN ==>
      StopEnd(start, handoff, children) <= start + INFRA_SHUTDOWN_TIMEOUT
  {
    StopEndIsLatest(start, handoff, children);
    forall i | 0 <= i < |children|
      ensures ReapedAt(start, handoff, children[i]) <= KillAt(start, handoff) + reap
      ensures ReapedAt(start, handoff, children[i]) <= start + handoff + INFRA_PROCESS_WAIT_DELAY + reap
    {
      assert children[i].reap <= reap;
    }
  }

  // ---------------------------------------------------------------- the whole

  /** A shutdown's workload: the closes, and the embedded processes with the handoff's delay. */
  datatype Load = Load(wants: seq<nat>, handoff: nat, children: seq<Child>, reap: nat)

  ghost predicate WithinReapMargin(l: Load) {
    ReapedWithin(l.children, l.reap) && l.handoff + l.reap <= INFRA_PROCESS_REAP_MARGIN
  }

  /** When everything is cleaned up, counted from the end of the root context: `lead` passes until the
      services begin to close, `gap` from there to stop, `tail` from stop to the return. */
  function ShutdownEnd(stopped: nat, lead: nat, gap: nat, tail: nat, l: Load): nat {
    var begin := stopped + lead;
    var closed := CloseEnd(begin, begin + SERVICES_SHUTDOWN_TIMEOUT, l.wants);
    StopEnd(closed + gap, l.handoff, l.children) + tail
  }

  /** The whole shutdown, each part with its own deadline. */
  method ShutDown(stopped: nat, lead: nat, gap: nat, tail: nat, l: Load) returns (end: nat)
    ensures end == ShutdownEnd(stopped, lead, gap, tail, l)
    ensures WithinReapMargin(l) && lead + gap + tail < 10_000 ==> end < stopped + SHUTDOWN_TIMEOUT == stopped + 105_000
  {
    var begin := stopped + lead;
    var closed := CloseAll(begin, begin + SERVICES_SHUTDOWN_TIMEOUT, l.wants);
    var reaped, survivors := StopOnClock(closed + gap, l.handoff, l.children);
    end := reaped + tail;
    BudgetIsExact(stopped, lead, gap, tail);
  }

  /** The worst workload within the reap margin. */
  const WORST := Load([SERVICES_SHUTDOWN_TIMEOUT], INFRA_PROCESS_REAP_MARGIN, [Child(0, true, 0)], 0)

  lemma WorstCase(stopped: nat, lead: nat, gap: nat, tail: nat)
    ensures WithinReapMargin(WORST)
    ensures ShutdownEnd(stopped, lead, gap, tail, WORST) ==
      stopped + lead + gap + tail + 95_000
  {
    var begin := stopped + lead;
    var closed := begin + SERVICES_SHUTDOWN_TIMEOUT;
    assert WORST.wants[..0] == [] && WORST.children[..0] == [];
    assert Sum(WORST.wants) == SERVICES_SHUTDOWN_TIMEOUT;
    assert CloseEnd(begin, closed, WORST.wants) == closed;
    assert StopEnd(closed + gap, INFRA_PROCESS_REAP_MARGIN, []) == closed + gap + INFRA_PROCESS_REAP_MARGIN;
  }

  /** Whatever the workload within the reap margin, everything is cleaned up before the watchdog
      fires, if and only if the remaining overhead is below the watchdog's margin. */
  lemma BudgetIsExact(stopped: nat, lead: nat, gap: nat, tail: nat)
    ensures (forall l | WithinReapMargin(l) :: ShutdownEnd(stopped, lead, gap, tail, l) < stopped + SHUTDOWN_TIMEOUT)
      <==> lead + gap + tail < SHUTDOWN_WATCHDOG_MARGIN
  {
    WorstCase(stopped, lead, gap, tail);
    if lead + gap + tail < SHUTDOWN_WATCHDOG_MARGIN {
      forall l | WithinReapMargin(l)
        ensures ShutdownEnd(stopped, lead, gap, tail, l) < stopped + SHUTDOWN_TIMEOUT
      {
        var begin := stopped + lead;
        var closed := CloseEnd(begin, begin + SERVICES_SHUTDOWN_TIMEOUT, l.wants);
        StopEndBound(closed + gap, l.handoff, l.children, l.reap);
      }
    }
  }

  /** How far a handoff goes past stop's own deadline. */
  function Overrun(handoff: nat): nat {
    if handoff > INFRA_SHUTDOWN_TIMEOUT then handoff - INFRA_SHUTDOWN_TIMEOUT else 0
  }

  /** Past the reap margin the watchdog still stays away as long as overhead, reaping and what the
      handoff takes beyond stop's deadline are together below its margin. */
  lemma LateReapingStillFits(stopped: nat, lead: nat, gap: nat, tail: nat, l: Load)
    requires ReapedWithin(l.children, l.reap)
    requires lead + gap + tail + l.reap + Overrun(l.handoff) < SHUTDOWN_WATCHDOG_MARGIN
    ensures ShutdownEnd(stopped, lead, gap, tail, l) < stopped + SHUTDOWN_TIMEOUT
  {
    var begin := stopped + lead;
    var closed := CloseEnd(begin, begin + SERVICES_SHUTDOWN_TIMEOUT, l.wants);
    StopEndBound(closed + gap, l.handoff, l.children, l.reap);
  }
}

/** Starting the embedded processes and waiting until they can be used, timed in milliseconds. */
module Readiness {
  import opened GoErrors
  import opened Clocks
  import ReplicaSet

  const DIAL_TIMEOUT: nat := 100
  const RETRY_PERIOD: nat := 100

  /** What one dial would meet, given time: acceptance or not, after how long. */
  datatype Dial = Dial(accepted: bool, duration: nat)

  /** A process: its name, when its waiter publishes its exit, if ever, and with what result. */
  datatype Child = Child(name: string, doneAt: Option<nat>, waitErr: Option<Error>)

  predicate DoneBy(p: Child, t: nat) {
    p.doneAt.Some? && p.doneAt.value <= t
  }

  /** Which ready case a select prefers. */
  datatype Pick = PickDone | PickCtx | PickTick

  /** When the waiting context ends: at its timeout, or with its parent. */
  function Limit(start: nat, timeout: nat, parent: Cancellation): (limit: nat)
    ensures start <= limit <= start + timeout
  {
    if parent.Some? && parent.value < start + timeout then Max(parent.value, start) else start + timeout
  }

  /** ctx.Err() of the waiting context, once it has ended: its parent's, if that came first. */
  function EndCause(start: nat, timeout: nat, parent: Cancellation): Error {
    if CancelledBy(parent, start) || (Limit(start, timeout, parent) < start + timeout) then Canceled
    else DeadlineExceeded
  }

  /** How long a dial may take: its own timeout, cut short by the end of the context. */
  function Budget(now: nat, limit: nat): nat
    requires now <= limit
  {
    Min(DIAL_TIMEOUT, limit - now)
  }

  /** A dial succeeds if the context is live and the listener accepts within the budget. */
  predicate Connects(d: Dial, now: nat, limit: nat) {
    now < limit && d.accepted && d.duration <= Budget(now, limit)
  }

  /** One call of waitForTCPOrExit, and what it meets. */
  datatype Wait = Wait(
    start: nat, timeout: nat, parent: Cancellation, child: Child, dials: nat -> Dial, picks: nat -> Pick
  )

  function LimitOf(w: Wait): nat {
    Limit(w.start, w.timeout, w.parent)
  }

  /** When the n-th dial, begun at `at`, is over. */
  function DialEnd(w: Wait, n: nat, at: nat): nat {
    if at < LimitOf(w) then at + Min(w.dials(n).duration, Budget(at, LimitOf(w))) else at
  }

  /** The first tick after `at`. */
  function NextTick(w: Wait, at: nat): nat
    requires w.start <= at
  {
    w.start + RETRY_PERIOD * ((at - w.start) / RETRY_PERIOD + 1)
  }

  predicate Dials(w: Wait, n: nat, at: nat) {
    Connects(w.dials(n), at, LimitOf(w))
  }

  /** The exit did not end the n-th round before `t`: it had not happened; or it had, at `t` or while the
      round was dialling until `t`, and the select took something else. */
  predicate ExitPassedOver(w: Wait, n: nat, at: nat, t: nat) {
    DoneBy(w.child, t) ==> !w.picks(n).PickDone? && (w.child.doneAt.value < t ==> DialEnd(w, n, at) == t)
  }

  /** The n-th round, begun at `at`, is followed by the next one at `next`: at the tick, or at the end of
      a dial that took longer. */
  predicate GoesOn(w: Wait, n: nat, at: nat, next: nat)
    requires w.start <= at
  {
    && !Dials(w, n, at) && next == Max(DialEnd(w, n, at), NextTick(w, at)) && next <= LimitOf(w)
    && ExitPassedOver(w, n, at, next) && (next == LimitOf(w) ==> !w.picks(n).PickCtx?)
  }

  /** It ends with an accepted dial; with the exit of the process, as soon as the round can see it; or
      with the end of the context. */
  predicate EndsAccepted(w: Wait, n: nat, at: nat, end: nat) {
    Dials(w, n, at) && end == DialEnd(w, n, at)
  }

  predicate EndsExited(w: Wait, n: nat, at: nat, end: nat)
    requires w.start <= at
  {
    var looks := DialEnd(w, n, at);
    && !Dials(w, n, at) && w.child.doneAt.Some? && end == Max(looks, w.child.doneAt.value) <= LimitOf(w)
    && (w.child.doneAt.value > looks ==> end <= NextTick(w, at))
    && (w.picks(n).PickDone? || (end < LimitOf(w) && end < NextTick(w, at)))
  }

  predicate EndsOver(w: Wait, n: nat, at: nat, end: nat)
    requires w.start <= at
  {
    && !Dials(w, n, at) && end == LimitOf(w) && ExitPassedOver(w, n, at, end)
    && (NextTick(w, at) <= end ==> w.picks(n).PickCtx?)
    && (NextTick(w, at) < end ==> DialEnd(w, n, at) == end)
  }

  /** The rounds of a wait, begun at the times `dialled`, and its result. */
  ghost predicate Rounds(w: Wait, dialled: seq<nat>) {
    && dialled != [] && dialled[0] == w.start
    && (forall n | 0 <= n < |dialled| :: w.start <= dialled[n])
    && forall n | 0 <= n < |dialled| - 1 :: GoesOn(w, n, dialled[n], dialled[n + 1])
  }

  ghost predicate Waited(w: Wait, dialled: seq<nat>, err: Option<Error>, end: nat) {
    && Rounds(w, dialled)
    && var n := |dialled| - 1;
       || (err.None? && EndsAccepted(w, n, dialled[n], end))
       || (err == Some(InfraExit(w.child.name, w.child.waitErr)) && EndsExited(w, n, dialled[n], end))
       || (err == Some(Wrapped("TCP listener not ready", EndCause(w.start, w.timeout, w.parent)))
           && EndsOver(w, n, dialled[n], end))
  }

  /** The n-th dial was made in time and accepted: within its own 100 ms, and before the timeout or the
      parent's end. */
  predicate Accepted(w: Wait, n: nat, at: nat) {
    && w.dials(n).accepted && w.dials(n).duration <= 100
    && at + w.dials(n).duration <= w.start + w.timeout && at < w.start + w.timeout
    && (w.parent.Some? ==> at + w.dials(n).duration <= w.parent.value && at < w.parent.value)
  }

  lemma DialsMeaning(w: Wait, n: nat, at: nat)
    requires w.start <= at
    ensures Dials(w, n, at) <==> Accepted(w, n, at)
    ensures Dials(w, n, at) ==> DialEnd(w, n, at) == at + w.dials(n).duration
  {
  }

  /** The parent's end comes before the timeout. */
  predicate ParentFirst(w: Wait) {
    w.parent.Some? && (w.parent.value < w.start + w.timeout || w.parent.value <= w.start)
  }

  /** What the result says. Nil: the last dial, and no earlier one, was accepted, and the wait ended with
      it. The process's exit: it has happened. Otherwise the end of the context, by its timeout or
      with its parent. */
  ghost predicate Outcome(w: Wait, dialled: seq<nat>, err: Option<Error>, end: nat) {
    && dialled != [] && dialled[0] == w.start
    && (forall n | 0 <= n < |dialled| - 1 :: !Accepted(w, n, dialled[n]))
    && (err.None? <==> Accepted(w, |dialled| - 1, dialled[|dialled| - 1]))
    && match err
       case None => end == dialled[|dialled| - 1] + w.dials(|dialled| - 1).duration
       case Some(InfraExit(name, waitErr)) =>
         && name == w.child.name && waitErr == w.child.waitErr
         && w.child.doneAt.Some? && w.child.doneAt.value <= end
       case Some(e) =>
         && e == Wrapped("TCP listener not ready", if ParentFirst(w) then Canceled else DeadlineExceeded)
         && end == if ParentFirst(w) then Max(w.parent.value, w.start) else w.start + w.timeout
  }

  lemma WaitedMeaning(w: Wait, dialled: seq<nat>, err: Option<Error>, end: nat)
    requires Waited(w, dialled, err, end)
    ensures Outcome(w, dialled, err, end)
  {
    forall n | 0 <= n < |dialled| - 1 ensures !Accepted(w, n, dialled[n]) {
      assert GoesOn(w, n, dialled[n], dialled[n + 1]);
      DialsMeaning(w, n, dialled[n]);
    }
    DialsMeaning(w, |dialled| - 1, dialled[|dialled| - 1]);
  }

  /** With every dial refused at once and a process that does not end, the wait dials ten times a second
      until its timeout, and fails then. */
  lemma {:induction false} RefusedDials(w: Wait, dialled: seq<nat>, err: Option<Error>, end: nat, n: nat)
    requires Waited(w, dialled, err, end) && n < |dialled|
    requires w.child.doneAt.None? && w.parent.None? && forall k :: w.dials(k) == Dial(false, 0)
    ensures dialled[n] == w.start + 100 * n
    ensures err == Some(Wrapped("TCP listener not ready", DeadlineExceeded)) && end == w.start + w.timeout
  {
    WaitedMeaning(w, dialled, err, end);
    if n == 0 {
    } else {
      RefusedDials(w, dialled, err, end, n - 1);
      assert GoesOn(w, n - 1, dialled[n - 1], dialled[n - 1 + 1]);
    }
  }

  /** `waitForTCPOrExit`. It always returns: each retry consumes a tick of the clock, and the context
      ends. It returns nil exactly if a dial that it made connected, which was then the last of them;
      an exit of the process, clean or not, ends it as an unexpected exit; any other return is
      the end of the context. */
  method WaitForTCPOrExit(w: Wait) returns (err: Option<Error>, end: nat, ghost dialled: seq<nat>)
    ensures Waited(w, dialled, err, end) && Outcome(w, dialled, err, end)
    ensures w.start <= end <= LimitOf(w)
    ensures |dialled| <= w.timeout / RETRY_PERIOD + 1
  {
    err, end, dialled := Poll(w);
    WaitedMeaning(w, dialled, err, end);
  }

  /** Its loop. */
  method Poll(w: Wait) returns (err: Option<Error>, end: nat, ghost dialled: seq<nat>)
    ensures Waited(w, dialled, err, end)
    ensures w.start <= end <= LimitOf(w)
    ensures |dialled| <= w.timeout / RETRY_PERIOD + 1
  {
    var now, tick := w.start, w.start + RETRY_PERIOD;
    var n: nat := 0;
    dialled := [now];
    while !Connects(w.dials(n), now, LimitOf(w))
      invariant w.start <= now <= LimitOf(w) && tick == NextTick(w, now) <= LimitOf(w) + RETRY_PERIOD
      invariant Rounds(w, dialled) && |dialled| == n + 1 && dialled[n] == now && RETRY_PERIOD * n <= now - w.start
      decreases LimitOf(w) + RETRY_PERIOD - tick
    {
      var taken;
      taken, now := SelectRound(w, n, now, tick);
      if taken.PickDone? {
        return Some(InfraExit(w.child.name, w.child.waitErr)), now, dialled;
      }
      if taken.PickCtx? {
        return Some(Wrapped("TCP listener not ready", EndCause(w.start, w.timeout, w.parent))), now, dialled;
      }
      NextRound(w, dialled, now);
      // the ticker drops the ticks that were missed
      tick := NextTick(w, now);
      n := n + 1;
      dialled := dialled + [now];
    }
    return None, now + w.dials(n).duration, dialled;
  }

  /** Every round consumes a tick. */
  lemma NextRound(w: Wait, dialled: seq<nat>, next: nat)
    requires Rounds(w, dialled) && GoesOn(w, |dialled| - 1, dialled[|dialled| - 1], next)
    requires RETRY_PERIOD * (|dialled| - 1) <= dialled[|dialled| - 1] - w.start
    ensures Rounds(w, dialled + [next])
    ensures RETRY_PERIOD * |dialled| <= next - w.start
    ensures NextTick(w, dialled[|dialled| - 1]) < NextTick(w, next) <= next + RETRY_PERIOD
  {
    var n, all := |dialled| - 1, dialled + [next];
    TicksGrow(n, dialled[n] - w.start, next - w.start);
    forall k | 0 <= k < |all| - 1 ensures GoesOn(w, k, all[k], all[k + 1]) {
      if k < n {
        assert GoesOn(w, k, dialled[k], dialled[k + 1]);
      }
    }
  }

  lemma TicksGrow(n: nat, past: nat, next: nat)
    requires RETRY_PERIOD * n <= past && RETRY_PERIOD * (past / RETRY_PERIOD + 1) <= next
    ensures RETRY_PERIOD * (n + 1) <= next
    ensures past / RETRY_PERIOD < next / RETRY_PERIOD && RETRY_PERIOD * (next / RETRY_PERIOD) <= next
  {
  }

  /** The rest of a round whose dial, begun at `at`, does not connect: the select sleeps until a case is
      ready, then takes a ready one. */
  method SelectRound(w: Wait, n: nat, at: nat, tick: nat) returns (taken: Pick, now: nat)
    requires w.start <= at <= LimitOf(w) && tick == NextTick(w, at) && !Dials(w, n, at)
    ensures at <= now <= LimitOf(w)
    ensures taken.PickDone? ==> EndsExited(w, n, at, now)
    ensures taken.PickCtx? ==> EndsOver(w, n, at, now)
    ensures taken.PickTick? ==> GoesOn(w, n, at, now)
  {
    var limit := LimitOf(w);
    now := at;
    if now < limit {
      now := now + Min(w.dials(n).duration, Budget(now, limit));
    }
    if !DoneBy(w.child, now) && now < limit && now < tick {
      var wake := Min(limit, tick);
      now := if DoneBy(w.child, wake) then w.child.doneAt.value else wake;
    }
    if DoneBy(w.child, now) && (w.picks(n).PickDone? || (now < limit && now < tick)) {
      return PickDone, now;
    }
    if now == limit && (w.picks(n).PickCtx? || now < tick) {
      return PickCtx, now;
    }
    return PickTick, now;
  }

  /** Nothing of this is left open: what a wait meets determines its dials, its result and its end. */
  lemma WaitIsDetermined(
    w: Wait, dialled: seq<nat>, err: Option<Error>, end: nat, dialled': seq<nat>, err': Option<Error>, end': nat
  )
    requires Waited(w, dialled, err, end) && Waited(w, dialled', err', end')
    ensures dialled == dialled' && err == err' && end == end'
  {
    if |dialled| <= |dialled'| {
      RoundsAgree(w, dialled, dialled', |dialled| - 1);
      RoundEndsOnce(w, dialled, err, end, dialled', err', end');
    } else {
      RoundsAgree(w, dialled, dialled', |dialled'| - 1);
      RoundEndsOnce(w, dialled', err', end', dialled, err, end);
    }
  }

  lemma {:induction false} RoundsAgree(w: Wait, dialled: seq<nat>, dialled': seq<nat>, n: nat)
    requires Rounds(w, dialled) && Rounds(w, dialled') && n < |dialled| && n < |dialled'|
    ensures dialled[..n + 1] == dialled'[..n + 1]
  {
    if n == 0 {
      assert dialled[..1] == dialled'[..1] == [w.start];
    } else {
      RoundsAgree(w, dialled, dialled', n - 1);
      assert dialled[n - 1] == dialled[..n][n - 1] == dialled'[..n][n - 1] == dialled'[n - 1];
      assert GoesOn(w, n - 1, dialled[n - 1], dialled[n - 1 + 1]);
      assert GoesOn(w, n - 1, dialled'[n - 1], dialled'[n - 1 + 1]);
      assert dialled[..n + 1] == dialled[..n] + [dialled[n]];
      assert dialled'[..n + 1] == dialled'[..n] + [dialled'[n]];
    }
  }

  /** A round ends in one way only, and one that ends does not go on. */
  lemma OneOutcome(w: Wait, n: nat, at: nat, a: nat, b: nat)
    requires w.start <= at
    ensures EndsAccepted(w, n, at, a) ==> !EndsExited(w, n, at, b) && !EndsOver(w, n, at, b) && !GoesOn(w, n, at, b)
    ensures EndsExited(w, n, at, a) ==> !EndsOver(w, n, at, b) && !GoesOn(w, n, at, b)
    ensures EndsOver(w, n, at, a) ==> !GoesOn(w, n, at, b)
    ensures EndsExited(w, n, at, a) && EndsExited(w, n, at, b) ==> a == b
  {
  }

  lemma RoundEndsOnce(
    w: Wait, dialled: seq<nat>, err: Option<Error>, end: nat, dialled': seq<nat>, err': Option<Error>, end': nat
  )
    requires Waited(w, dialled, err, end) && Waited(w, dialled', err', end') && |dialled| <= |dialled'|
    requires dialled == dialled'[..|dialled|]
    ensures dialled == dialled' && err == err' && end == end'
  {
    var n := |dialled| - 1;
    assert dialled'[n] == dialled[n];
    if |dialled'| > |dialled| {
      assert GoesOn(w, n, dialled'[n], dialled'[n + 1]);
      OneOutcome(w, n, dialled[n], end, dialled'[n + 1]);
      assert false;
    }
    assert dialled'[..|dialled|] == dialled';
    OneOutcome(w, n, dialled[n], end, end');
    OneOutcome(w, n, dialled[n], end', end);
  }

  /** An exit is not waited past: if the select takes it whenever it is there, the wait ends with an
      accepted dial or, within one dial of the exit, with that. */
  lemma ExitEndsTheWait(w: Wait, dialled: seq<nat>, err: Option<Error>, end: nat)
    requires Waited(w, dialled, err, end) && w.child.doneAt.Some? && w.child.doneAt.value <= LimitOf(w)
    requires forall n :: w.picks(n).PickDone?
    ensures err.None? || err == Some(InfraExit(w.child.name, w.child.waitErr))
    ensures end <= Max(w.start, w.child.doneAt.value) + DIAL_TIMEOUT
  {
    var n := |dialled| - 1;
    if n > 0 {
      assert GoesOn(w, n - 1, dialled[n - 1], dialled[n - 1 + 1]);
    }
  }

  // ---------------------------------------------------------------- the whole startup

  /** What startAllInOneInfra achieves, in order. */
  datatype Milestone = DirsReady | MongoSpawned | RedisSpawned | MongoAccepts | ReplicaSetReady | RedisAccepts

  const MILESTONES: seq<Milestone> :=
    [DirsReady, MongoSpawned, RedisSpawned, MongoAccepts, ReplicaSetReady, RedisAccepts]

  /** What each call meets. A spawn that the context or a stop refuses is a spawn error. */
  datatype World = World(
    dirs: Option<Error>,
    mongoSpawn: Option<Error>,
    redisSpawn: Option<Error>,
    mongo: Child,
    redis: Child,
    mongoDials: nat -> Dial,
    redisDials: nat -> Dial,
    mongoPicks: nat -> Pick,
    redisPicks: nat -> Pick,
    illegalInstruction: Error -> bool,    // whether an error's text mentions an illegal instruction
    replica: ReplicaSet.World
  )

  const MONGO_TIMEOUT: nat := 180_000
  const REDIS_TIMEOUT: nat := 30_000

  function MongoWait(w: World, start: nat): Wait {
    Wait(start, MONGO_TIMEOUT, w.replica.c, w.mongo, w.mongoDials, w.mongoPicks)
  }

  function RedisWait(w: World, start: nat): Wait {
    Wait(start, REDIS_TIMEOUT, w.replica.c, w.redis, w.redisDials, w.redisPicks)
  }

  /** An initialization with the program's delays. */
  ghost predicate Initialized(w: World, start: nat, err: Option<Error>, end: nat, ran: nat) {
    ReplicaSet.InitReport(ReplicaSet.ATTEMPT_DELAYS, w.replica, start, err, end, ran)
  }

  /** The dials and attempts made, when MongoDB accepted one, and when the replica set was ready. */
  datatype Log = Log(mongoDials: seq<nat>, mongo: nat, ran: nat, replica: nat, redisDials: seq<nat>)

  /** A wait that ended with an accepted dial. */
  ghost predicate Ready(w: Wait, dialled: seq<nat>, end: nat) {
    Waited(w, dialled, None, end) && Outcome(w, dialled, None, end)
  }

  /** Each of the first `reached` milestones stands for its event, and the events follow each other in
      time. */
  ghost predicate Happened(w: World, start: nat, reached: nat, log: Log, end: nat) {
    && (reached >= 1 ==> w.dirs.None?)
    && (reached >= 2 ==> w.mongoSpawn.None?)
    && (reached >= 3 ==> w.redisSpawn.None?)
    && (reached >= 4 ==> Ready(MongoWait(w, start), log.mongoDials, log.mongo))
    && (reached >= 5 ==> Initialized(w, log.mongo, None, log.replica, log.ran))
    && (reached >= 6 ==> Ready(RedisWait(w, log.replica), log.redisDials, end))
  }

  /** MongoDB's failure: of the kind for a missing CPU feature exactly if its text says so. */
  predicate MongoFailure(w: World, err: Error, cause: Error) {
    err == if w.illegalInstruction(cause) then MongoAVX(cause) else Wrapped("mongodb not ready", cause)
  }

  /** The error belongs to the first milestone that was not reached, and says how that failed. */
  ghost predicate Explains(w: World, reached: nat, err: Error, start: nat, log: Log, end: nat) {
    match reached
    case 0 =>
      if CancelledBy(w.replica.c, start) then err == Canceled
      else w.dirs.Some? && err == Wrapped("failed to create data dir", w.dirs.value)
    case 1 => w.mongoSpawn.Some? && err == Wrapped("start mongod", w.mongoSpawn.value)
    case 2 => w.redisSpawn.Some? && err == Wrapped("start redis-server", w.redisSpawn.value)
    case 3 =>
      exists cause ::
        MongoFailure(w, err, cause) && Waited(MongoWait(w, start), log.mongoDials, Some(cause), end)
    case 4 =>
      && err.Wrapped? && err.text == "init replica set"
      && Initialized(w, log.mongo, Some(err.inner), end, log.ran)
    case 5 =>
      && err.Wrapped? && err.text == "redis not ready"
      && Waited(RedisWait(w, log.replica), log.redisDials, Some(err.inner), end)
    case _ => false
  }

  /** What startAllInOneInfra promises. The milestones reached are always the first ones, in order, and
      each stands for its event; the result is nil exactly if all were reached, and otherwise belongs
      to the first that was not; a root stopped at entry is reported as itself and nothing is touched. */
  ghost predicate StartupReport(
    w: World, start: nat, err: Option<Error>, end: nat, reached: seq<Milestone>, log: Log
  ) {
    && reached <= MILESTONES && start <= end
    && (err.None? <==> reached == MILESTONES)
    && (CancelledBy(w.replica.c, start) ==> err == Some(Canceled) && reached == [])
    && Happened(w, start, |reached|, log, end)
    && (err.Some? ==> Explains(w, |reached|, err.value, start, log, end))
  }

  /** `startAllInOneInfra`, with the root context of the replica-set world. */
  method StartAllInOneInfra(w: World, start: nat)
    returns (err: Option<Error>, end: nat, reached: seq<Milestone>, ghost log: Log)
    ensures StartupReport(w, start, err, end, reached, log)
  {
    if CancelledBy(w.replica.c, start) {
      return Some(Canceled), start, [], Log([], start, 0, start, []);
    }
    var stop;
    stop, reached := Spawn(w);
    if stop.Some? {
      return stop, start, reached, Log([], start, 0, start, []);
    }
    err, end, reached, log := AwaitReady(w, start);
  }

  /** The directories and the two spawns. */
  method Spawn(w: World) returns (err: Option<Error>, reached: seq<Milestone>)
    ensures reached <= MILESTONES && |reached| <= 3
    ensures err.None? <==> w.dirs.None? && w.mongoSpawn.None? && w.redisSpawn.None?
    ensures err.None? <==> |reached| == 3
    ensures |reached| > 0 ==> w.dirs.None?
    ensures |reached| > 1 ==> w.mongoSpawn.None?
    ensures |reached| == 0 ==> w.dirs.Some? && err == Some(Wrapped("failed to create data dir", w.dirs.value))
    ensures |reached| == 1 ==> w.mongoSpawn.Some? && err == Some(Wrapped("start mongod", w.mongoSpawn.value))
    ensures |reached| == 2 ==> w.redisSpawn.Some? && err == Some(Wrapped("start redis-server", w.redisSpawn.value))
  {
    if w.dirs.Some? {
      return Some(Wrapped("failed to create data dir", w.dirs.value)), [];
    }
    if w.mongoSpawn.Some? {
      return Some(Wrapped("start mongod", w.mongoSpawn.value)), [DirsReady];
    }
    if w.redisSpawn.Some? {
      return Some(Wrapped("start redis-server", w.redisSpawn.value)), [DirsReady, MongoSpawned];
    }
    return None, [DirsReady, MongoSpawned, RedisSpawned];
  }

  /** The rest, with both processes spawned. */
  method AwaitReady(w: World, start: nat)
    returns (err: Option<Error>, end: nat, reached: seq<Milestone>, ghost log: Log)
    requires w.dirs.None? && w.mongoSpawn.None? && w.redisSpawn.None?
    ensures reached <= MILESTONES && start <= end && |reached| >= 3
    ensures err.None? <==> reached == MILESTONES
    ensures Happened(w, start, |reached|, log, end)
    ensures err.Some? ==> Explains(w, |reached|, err.value, start, log, end)
  {
    ghost var dialled;
    err, end, dialled := WaitForTCPOrExit(MongoWait(w, start));
    log := Log(dialled, end, 0, end, []);
    if err.Some? {
      ghost var cause := err.value;
      if w.illegalInstruction(err.value) {
        err := Some(MongoAVX(err.value));
      } else {
        err := Some(Wrapped("mongodb not ready", err.value));
      }
      assert MongoFailure(w, err.value, cause);
      return err, end, [DirsReady, MongoSpawned, RedisSpawned], log;
    }
    var ran;
    err, end, ran := ReplicaSet.InitReplicaSet(ReplicaSet.ATTEMPT_DELAYS, w.replica, end);
    log := log.(ran := ran, replica := end);
    if err.Some? {
      return Some(Wrapped("init replica set", err.value)), end,
             [DirsReady, MongoSpawned, RedisSpawned, MongoAccepts], log;
    }
    err, end, dialled := WaitForTCPOrExit(RedisWait(w, end));
    log := log.(redisDials := dialled);
    if err.Some? {
      return Some(Wrapped("redis not ready", err.value)), end,
             [DirsReady, MongoSpawned, RedisSpawned, MongoAccepts, ReplicaSetReady], log;
    }
    return None, end, MILESTONES, log;
  }

  /** What the report says of the two listeners, in terms of what they met. Success: MongoDB accepted the
      last of its dials within 180 seconds of the start, and Redis the last of its within 30 seconds of
      the replica set. A failure by an exit is the exit of the process waited for, which had happened. */
  lemma StartupMeaning(
    w: World, start: nat, err: Option<Error>, end: nat, reached: seq<Milestone>, log: Log
  )
    requires StartupReport(w, start, err, end, reached, log)
    ensures err.None? ==>
      && LastAccepted(w.mongoDials, log.mongoDials, start, 180_000, log.mongo)
      && LastAccepted(w.redisDials, log.redisDials, log.replica, 30_000, end)
      && log.mongo <= log.replica <= end
    ensures |reached| == 3 && err.Some? && err.value.Wrapped? && err.value.inner.InfraExit? ==>
      err.value.inner == InfraExit(w.mongo.name, w.mongo.waitErr)
      && w.mongo.doneAt.Some? && w.mongo.doneAt.value <= end
    ensures |reached| == 5 && err.Some? && err.value.Wrapped? && err.value.inner.InfraExit? ==>
      err.value.inner == InfraExit(w.redis.name, w.redis.waitErr)
      && w.redis.doneAt.Some? && w.redis.doneAt.value <= end
  {
    if |reached| == 3 && err.Some? {
      var cause :| MongoFailure(w, err.value, cause)
        && Waited(MongoWait(w, start), log.mongoDials, Some(cause), end);
      WaitedMeaning(MongoWait(w, start), log.mongoDials, Some(cause), end);
    } else if |reached| == 5 && err.Some? {
      WaitedMeaning(RedisWait(w, log.replica), log.redisDials, Some(err.value.inner), end);
    }
  }

  /** The last of these dials was accepted, and in time. */
  predicate LastAccepted(dials: nat -> Dial, dialled: seq<nat>, start: nat, timeout: nat, end: nat) {
    && dialled != [] && dialled[0] == start
    && dials(|dialled| - 1).accepted
    && end == dialled[|dialled| - 1] + dials(|dialled| - 1).duration <= start + timeout
  }
}

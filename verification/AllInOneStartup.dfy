/**
  The bridge between the whole run and module Readiness: every way in which startAllInOneInfra can
  end is a run of the Action, which goes on to the services exactly if it ended without an error.
 */
module AllInOneStartup {
  import opened GoErrors
  import opened Contexts
  import Supervisor
  import opened AllInOne
  import opened AllInOneServices
  import Readiness
  import Clocks

  /** The two processes of the program. */
  const MONGO: Launch := Launch("mongo", "mongod")
  const REDIS: Launch := Launch("redis", "redis-server")

  /** What `start` returns before any stop: nil, a stopped root, or the annotated error of the spawn. */
  predicate StartReturns(l: Launch, ret: Option<Error>) {
    match ret
    case None => true
    case Some(Canceled) => true
    case Some(Wrapped(text, _)) => text == "start " + l.name
    case _ => false
  }

  /** The Action before it starts a process; nothing else is under way. */
  predicate AtLaunch(r: Run, k: nat) {
    && r.pc == Spawning(k) && r.startErr.None? && k < |r.launches|
    && r.sup.start.Idle? && r.sup.lock.Free? && !r.sup.stopping && r.sup.ctx.None?
  }

  /** ... and after it, with this result. */
  predicate Launched(r: Run, k: nat, ret: Option<Error>, t: Run)
    requires k < |r.launches|
  {
    && t.launches == r.launches && t.excused == r.excused && t.ready == r.ready
    && if ret.None? then
         && t.pc == Spawning(k + 1) && t.startErr.None?
         && t.sup.start.Idle? && t.sup.lock.Free? && !t.sup.stopping && t.sup.ctx.None?
       else t.pc.InfraExamine? && t.startErr == Some(StartFailure(r.launches[k], ret.value))
  }

  const STOP: Move := World(Supervisor.Outside(Supervisor.Signal(15)))

  lemma LaunchRefused(r: Run, k: nat) returns (moves: seq<Move>)
    requires AtLaunch(r, k)
    ensures ValidMoves(r, moves) && Launched(r, k, Some(Canceled), DoAll(r, moves))
  {
    MoveAfter(r, [], STOP);
    MoveAfter(r, [STOP], Main(None));
    MoveAfter(r, [STOP, Main(None)], Main(None));
    moves := [STOP, Main(None)] + [Main(None)];
    assert [STOP] + [Main(None)] == [STOP, Main(None)];
  }

  lemma LaunchTried(r: Run, k: nat, spawnErr: Option<Error>) returns (moves: seq<Move>)
    requires AtLaunch(r, k)
    ensures ValidMoves(r, moves)
    ensures
      var name := r.launches[k].name;
      Launched(r, k, if spawnErr.None? then None else Some(Wrapped("start " + name, spawnErr.value)), DoAll(r, moves))
  {
    MoveAfter(r, [], Main(None));
    MoveAfter(r, [Main(None)], Main(None));
    MoveAfter(r, [Main(None), Main(None)], Main(spawnErr));
    moves := [Main(None), Main(None)] + [Main(spawnErr)];
    assert [Main(None)] + [Main(None)] == [Main(None), Main(None)];
  }

  lemma LaunchFits(r: Run, k: nat, ret: Option<Error>) returns (moves: seq<Move>)
    requires AtLaunch(r, k) && StartReturns(r.launches[k], ret)
    ensures ValidMoves(r, moves) && Launched(r, k, ret, DoAll(r, moves))
  {
    match ret
    case None => moves := LaunchTried(r, k, None);
    case Some(Canceled) => moves := LaunchRefused(r, k);
    case Some(Wrapped(_, inner)) => moves := LaunchTried(r, k, Some(inner));
  }

  lemma {:induction false} MovesAfter(r: Run, a: seq<Move>, b: seq<Move>)
    requires ValidMoves(r, a) && ValidMoves(DoAll(r, a), b)
    ensures ValidMoves(r, a + b) && DoAll(r, a + b) == DoAll(DoAll(r, a), b)
    decreases |b|
  {
    if b == [] {
      assert a + b == a;
    } else {
      MoveAfter(r, a, b[0]);
      assert a + [b[0]] + b[1..] == a + b;
      MovesAfter(r, a + [b[0]], b[1..]);
    }
  }

  /** The Action is about to call startAllInOneInfra. */
  predicate AtEntry(r: Run) {
    && r.pc.Entry? && r.launches == [MONGO, REDIS] && r.startErr.None? && !r.excused && !r.ready
    && r.sup.start.Idle? && r.sup.lock.Free? && !r.sup.stopping
  }

  /** startAllInOneInfra has returned err, and the Action has gone on accordingly. */
  predicate WentOn(err: Option<Error>, t: Run) {
    if err.None? then AtServices(t) else t.pc.InfraExamine? && t.startErr == err
  }

  lemma DirsFit(r: Run, dirs: Option<Error>) returns (moves: seq<Move>)
    requires AtEntry(r) && r.sup.ctx.None?
    ensures ValidMoves(r, moves)
    ensures
      if dirs.Some? then WentOn(Some(Wrapped("failed to create data dir", dirs.value)), DoAll(r, moves))
      else DoAll(r, moves) == r.(pc := Spawning(0))
  {
    MoveAfter(r, [], Main(None));
    MoveAfter(r, [Main(None)], Main(dirs));
    moves := [Main(None)] + [Main(dirs)];
  }

  /** The last part: listeners and replica set. */
  lemma ReadinessFits(r: Run, err: Option<Error>) returns (moves: seq<Move>)
    requires r.pc == Spawning(2) && |r.launches| == 2 && r.startErr.None? && !r.excused && !r.ready
    ensures ValidMoves(r, moves) && WentOn(err, DoAll(r, moves))
  {
    MoveAfter(r, [], Main(None));
    MoveAfter(r, [Main(None)], Main(err));
    moves := [Main(None)] + [Main(err)];
  }

  /** The second process and the rest. */
  lemma FromRedis(r: Run, redis: Option<Error>, err: Option<Error>) returns (moves: seq<Move>)
    requires AtLaunch(r, 1) && r.launches == [MONGO, REDIS] && !r.excused && !r.ready && StartReturns(REDIS, redis)
    requires redis.Some? ==> err == Some(StartFailure(REDIS, redis.value))
    ensures ValidMoves(r, moves) && WentOn(err, DoAll(r, moves))
  {
    moves := LaunchFits(r, 1, redis);
    if redis.None? {
      var rest := ReadinessFits(DoAll(r, moves), err);
      MovesAfter(r, moves, rest);
      moves := moves + rest;
    }
  }

  lemma FromMongo(r: Run, mongo: Option<Error>, redis: Option<Error>, err: Option<Error>) returns (moves: seq<Move>)
    requires AtLaunch(r, 0) && r.launches == [MONGO, REDIS] && !r.excused && !r.ready
    requires StartReturns(MONGO, mongo) && StartReturns(REDIS, redis)
    requires mongo.Some? ==> err == Some(StartFailure(MONGO, mongo.value))
    requires mongo.None? && redis.Some? ==> err == Some(StartFailure(REDIS, redis.value))
    ensures ValidMoves(r, moves) && WentOn(err, DoAll(r, moves))
  {
    moves := LaunchFits(r, 0, mongo);
    if mongo.None? {
      var rest := FromRedis(DoAll(r, moves), redis, err);
      MovesAfter(r, moves, rest);
      moves := moves + rest;
    }
  }

  /** The report's error belongs to the first call that failed. */
  lemma ReportsFirstFailure(
    w: Readiness.World, start: nat, err: Option<Error>, end: nat, reached: seq<Readiness.Milestone>, log: Readiness.Log
  )
    requires Readiness.StartupReport(w, start, err, end, reached, log) && !Clocks.CancelledBy(w.replica.c, start)
    ensures w.dirs.Some? ==> err == Some(Wrapped("failed to create data dir", w.dirs.value))
    ensures w.dirs.None? && w.mongoSpawn.Some? ==> err == Some(StartFailure(MONGO, w.mongoSpawn.value))
    ensures w.dirs.None? && w.mongoSpawn.None? && w.redisSpawn.Some? ==>
      err == Some(StartFailure(REDIS, w.redisSpawn.value))
  {
    assert "start " + "mongod" == "start mongod" && "start " + "redis-server" == "start redis-server";
    assert |reached| <= |Readiness.MILESTONES| == 6;
  }

  /** For any result that startAllInOneInfra can have, the Action has a run that takes it so: to the
      services if it is nil, and otherwise to the switch, with that error and no other. */
  lemma StartupFitsTheAction(
    r: Run, w: Readiness.World, start: nat,
    err: Option<Error>, end: nat, reached: seq<Readiness.Milestone>, log: Readiness.Log
  ) returns (moves: seq<Move>)
    requires AtEntry(r) && Readiness.StartupReport(w, start, err, end, reached, log)
    requires StartReturns(MONGO, w.mongoSpawn) && StartReturns(REDIS, w.redisSpawn)
    requires Clocks.CancelledBy(w.replica.c, start) <==> r.sup.ctx.Some?
    ensures ValidMoves(r, moves) && WentOn(err, DoAll(r, moves))
  {
    if r.sup.ctx.Some? {
      MoveAfter(r, [], Main(None));
      moves := [] + [Main(None)];
    } else {
      ReportsFirstFailure(w, start, err, end, reached, log);
      moves := DirsFit(r, w.dirs);
      if w.dirs.None? {
        var rest := FromMongo(DoAll(r, moves), w.mongoSpawn, w.redisSpawn, err);
        MovesAfter(r, moves, rest);
        moves := moves + rest;
      }
    }
  }
}

/** Initializing MongoDB's replica set: attempts, the delays between them, and cancellation, timed. */
module ReplicaSet {
  import opened GoErrors
  import opened Clocks

  const STABILIZATION_DELAY: nat := 5_000
  const ATTEMPT_DELAYS: seq<nat> := [0, 1_000, 2_000, 3_000, 5_000, 8_000, 13_000, 21_000, 34_000, 55_000]

  /** A call of the MongoDB driver: how long it takes and what it returns. */
  datatype Call = Call(duration: nat, err: Option<Error>)

  /** What the driver would do in one attempt. */
  datatype Attempt = Attempt(connect: Call, initiate: Call, status: Call, disconnect: nat)

  /** An attempt's result, the time of the last look at its outcome, and the time it returns. */
  datatype Tried = Tried(err: Option<Error>, decided: nat, end: nat)

  /** `tryInitReplicaSet` from `now`. */
  function TryInit(now: nat, a: Attempt, c: Cancellation, tie: bool): (r: Tried)
    ensures now <= r.decided <= r.end
  {
    var connected := now + a.connect.duration;
    if a.connect.err.Some? then
      var failure := Wrapped("failed to connect to mongo", a.connect.err.value);
      Tried(Some(if CancelledBy(c, connected) then Canceled else failure), connected, connected)
    else
      var initiated := connected + a.initiate.duration;
      if a.initiate.err.None? then
        var w := SelectTimer(initiated, STABILIZATION_DELAY, c, tie);
        Tried(if w.cancelled then Some(Canceled) else None, w.at, w.at + a.disconnect)
      else if CancelledBy(c, initiated) then Tried(Some(Canceled), initiated, initiated + a.disconnect)
      else
        var checked := initiated + a.status.duration;
        var failure :=
          if a.status.err.Some? then Some(Wrapped("failed to get replica set status", a.status.err.value)) else None;
        Tried(failure, checked, checked + a.disconnect)
  }

  /** What an attempt's result is worth. It succeeds if the new set has had its whole stabilization pause
      before any cancellation, or was there already and the context live when initiating it failed; and
      it succeeds in no other case, but for a cancellation at the very end of the pause. A reported
      cancellation happened; one during the pause ends it at that moment; and whoever connected
      disconnects before returning. */
  ghost predicate AttemptReport(now: nat, a: Attempt, c: Cancellation, r: Tried) {
    var connected := a.connect.err.None?;
    var initiated := now + a.connect.duration + a.initiate.duration;
    var stable := initiated + 5_000;
    && (r.err.None? ==> connected)
    && (r.err.None? && a.initiate.err.None? ==> r.decided == stable && (CancelledBy(c, stable) ==> c.value == stable))
    && (r.err.None? && a.initiate.err.Some? ==> a.status.err.None? && !CancelledBy(c, initiated))
    && (connected && a.initiate.err.None? && !CancelledBy(c, stable) ==> r.err.None?)
    && (connected && a.initiate.err.Some? && a.status.err.None? && !CancelledBy(c, initiated) ==> r.err.None?)
    && (r.err == Some(Canceled) ==> CancelledBy(c, r.decided))
    && (connected && a.initiate.err.None? && c.Some? && initiated <= c.value < stable ==>
          r.err == Some(Canceled) && r.decided == c.value)
    && r.end == r.decided + (if connected then a.disconnect else 0)
    && FailureReport(now, a, c, r)
  }

  /** How an attempt fails otherwise: at the connection or the status check, each at its own end, with
      the error that came from there. */
  ghost predicate FailureReport(now: nat, a: Attempt, c: Cancellation, r: Tried) {
    var connected := now + a.connect.duration;
    var checked := connected + a.initiate.duration + a.status.duration;
    && (a.connect.err.Some? ==>
          && r.decided == connected
          && (if c.Some? && c.value <= connected then r.err == Some(Canceled)
              else r.err.Some? && r.err.value.Wrapped? && r.err.value.inner == a.connect.err.value))
    && (a.connect.err.None? && a.initiate.err.Some? && (c.None? || connected + a.initiate.duration < c.value) ==>
          && r.decided == checked
          && (a.status.err.Some? ==> r.err.Some? && r.err.value.Wrapped? && r.err.value.inner == a.status.err.value))
    && (a.connect.err.None? && a.initiate.err.Some? && c.Some? && c.value <= connected + a.initiate.duration ==>
          r.err == Some(Canceled) && r.decided == connected + a.initiate.duration)
  }

  /** The same in the source's form; the disconnect is deferred, so it follows every later return. */
  method TryInitReplicaSet(now: nat, a: Attempt, c: Cancellation, tie: bool) returns (r: Tried)
    ensures AttemptReport(now, a, c, r)
    ensures r == TryInit(now, a, c, tie)
  {
    var t := now + a.connect.duration;
    if a.connect.err.Some? {
      if CancelledBy(c, t) {
        return Tried(Some(Canceled), t, t);
      }
      return Tried(Some(Wrapped("failed to connect to mongo", a.connect.err.value)), t, t);
    }
    t := t + a.initiate.duration;
    if a.initiate.err.None? {
      var woken := SelectTimer(t, STABILIZATION_DELAY, c, tie);
      if woken.cancelled {
        return Tried(Some(Canceled), woken.at, woken.at + a.disconnect);
      }
      return Tried(None, woken.at, woken.at + a.disconnect);
    }
    if CancelledBy(c, t) {
      return Tried(Some(Canceled), t, t + a.disconnect);
    }
    t := t + a.status.duration;
    if a.status.err.Some? {
      return Tried(Some(Wrapped("failed to get replica set status", a.status.err.value)), t, t + a.disconnect);
    }
    return Tried(None, t, t + a.disconnect);
  }

  /** A single attempt does not always report a cancellation as such. It returns another error after
      the cancellation exactly if the context ended during the status check and that failed. */
  lemma AttemptMasksCancellation(now: nat, a: Attempt, c: Cancellation, tie: bool)
    ensures var r := TryInit(now, a, c, tie); var initiated := now + a.connect.duration + a.initiate.duration;
      (r.err.Some? && r.err != Some(Canceled) && CancelledBy(c, r.decided)) <==>
      (a.connect.err.None? && a.initiate.err.Some? && !CancelledBy(c, initiated)
       && a.status.err.Some? && CancelledBy(c, initiated + a.status.duration))
  {
    var r := TryInit(now, a, c, tie);
    if r.err.Some? && r.err != Some(Canceled) {
      assert r.err.value.Wrapped?;
    }
  }

  /** An input that shows it: the set is initialized already, the context ends while its status is asked
      for, and the driver reports an error of its own. */
  lemma MaskedCancellation()
    ensures
      var a := Attempt(Call(0, None), Call(0, Some(Opaque("already initialized"))), Call(10, Some(Opaque("eof"))), 0);
      var r := TryInit(0, a, Some(5), false);
      r.err.Some? && r.err != Some(Canceled) && CancelledBy(Some(5), r.decided)
  {
  }

  lemma AttemptMeaning(now: nat, a: Attempt, c: Cancellation, tie: bool)
    ensures AttemptReport(now, a, c, TryInit(now, a, c, tie))
  {
  }

  // ---------------------------------------------------------------- the schedule

  /** The world an initialization runs in. */
  datatype World = World(attempts: nat -> Attempt, c: Cancellation, ties: nat -> bool)

  function TryAt(w: World, k: nat, now: nat): (r: Tried)
    ensures now <= r.decided <= r.end
  {
    TryInit(now, w.attempts(k), w.c, w.ties(2 * k + 1))
  }

  method TryNow(w: World, k: nat, now: nat) returns (r: Tried)
    ensures r == TryAt(w, k, now)
  {
    r := TryInitReplicaSet(now, w.attempts(k), w.c, w.ties(2 * k + 1));
  }

  /** The time after k full rounds of a delay and an attempt. */
  function Clock(delays: seq<nat>, w: World, start: nat, k: nat): (t: nat)
    requires k <= |delays|
    ensures start <= t
    decreases k, 0
  {
    if k == 0 then start else Outcome(delays, w, start, k - 1).end
  }

  function AttemptStart(delays: seq<nat>, w: World, start: nat, k: nat): nat
    requires k < |delays|
    decreases k, 1
  {
    Clock(delays, w, start, k) + delays[k]
  }

  function Outcome(delays: seq<nat>, w: World, start: nat, k: nat): (r: Tried)
    requires k < |delays|
    ensures AttemptStart(delays, w, start, k) <= r.end
    decreases k, 2
  {
    TryAt(w, k, AttemptStart(delays, w, start, k))
  }

  /** The time spent inside the first k attempts. */
  function Spent(delays: seq<nat>, w: World, start: nat, k: nat): nat
    requires k <= |delays|
  {
    if k == 0 then 0
    else Spent(delays, w, start, k - 1) + (Outcome(delays, w, start, k - 1).end - AttemptStart(delays, w, start, k - 1))
  }

  /** Attempt k begins after exactly the delays up to its own and the time earlier attempts took. */
  lemma {:induction false} AttemptsBeginOnSchedule(delays: seq<nat>, w: World, start: nat, k: nat)
    requires k < |delays|
    ensures AttemptStart(delays, w, start, k) == start + Sum(delays[..k + 1]) + Spent(delays, w, start, k)
  {
    assert delays[..k + 1][..k] == delays[..k];
    if k == 0 {
    } else {
      AttemptsBeginOnSchedule(delays, w, start, k - 1);
    }
  }

  predicate IsOperational(err: Option<Error>) {
    err.Some? && err != Some(Canceled)
  }

  /** What initializing promises of its result, with `ran` attempts made, which begin on schedule. It
      succeeds exactly if its last attempt did, all earlier ones having failed. It returns the wrapped
      failure of its last attempt exactly if there was one attempt per delay, all failed, and the
      context was still live at the last look, which is when that attempt ended. Otherwise it
      returns the context's own error, and promptly: at the moment of the cancellation or, if that
      fell into an attempt, when the attempt ends. No attempt follows one that the cancellation fell
      into, and none begins after a delay that it cut short; only at the very same instant may an
      attempt still begin, or the first one without a delay. */
  ghost predicate InitReport(
    delays: seq<nat>, w: World, start: nat, err: Option<Error>, end: nat, ran: nat
  ) {
    && ran <= |delays| && start <= end && Clock(delays, w, start, ran) <= end
    && (ran > 0 ==> AllFailed(delays, w, start, ran - 1))
    && (err.None? <==> ran > 0 && Outcome(delays, w, start, ran - 1).err.None?)
    && (IsOperational(err) <==>
          ran == |delays| > 0 && Outcome(delays, w, start, ran - 1).err.Some? && !CancelledBy(w.c, end))
    && (IsOperational(err) ==>
          err.value == Wrapped("failed to initialize mongo replica set after all retries",
                               Outcome(delays, w, start, ran - 1).err.value))
    && (err.None? || IsOperational(err) ==> end == Clock(delays, w, start, ran))
    && (err == Some(Canceled) ==> CancelledBy(w.c, end) && end == Max(w.c.value, Clock(delays, w, start, ran)))
    && Prompt(delays, w, start, ran)
  }

  ghost predicate AllFailed(delays: seq<nat>, w: World, start: nat, n: nat)
    requires n <= |delays|
  {
    forall k | 0 <= k < n :: Outcome(delays, w, start, k).err.Some?
  }

  ghost predicate Prompt(delays: seq<nat>, w: World, start: nat, n: nat)
    requires n <= |delays|
  {
    && (forall k | 0 < k < n :: !CancelledBy(w.c, Clock(delays, w, start, k)))
    && (forall k | 0 <= k < n :: BeginsInTime(delays, w, start, k))
  }

  /** Attempt k does not begin past the cancellation. */
  predicate BeginsInTime(delays: seq<nat>, w: World, start: nat, k: nat)
    requires k < |delays|
  {
    var at := AttemptStart(delays, w, start, k);
    CancelledBy(w.c, at) ==> w.c.value == at || (k == 0 && delays[0] == 0)
  }

  /** Attempt i is due, and all before it have failed on a live context. */
  ghost predicate Due(delays: seq<nat>, w: World, start: nat, i: nat)
    requires i <= |delays|
  {
    && AllFailed(delays, w, start, i) && Prompt(delays, w, start, i)
    && (i > 0 ==> !CancelledBy(w.c, Clock(delays, w, start, i)))
  }

  /** The cancellation cuts its delay short. */
  lemma CutShort(delays: seq<nat>, w: World, start: nat, i: nat, at: nat)
    requires i < |delays| && Due(delays, w, start, i)
    requires CancelledBy(w.c, at) && at == Max(w.c.value, Clock(delays, w, start, i))
    ensures InitReport(delays, w, start, Some(Canceled), at, i)
  {
    assert i > 0 ==> Outcome(delays, w, start, i - 1).err.Some?;
  }

  /** The timer comes first. */
  lemma InTime(delays: seq<nat>, w: World, start: nat, i: nat)
    requires i < |delays| && Due(delays, w, start, i)
    requires !SelectTimer(Clock(delays, w, start, i), delays[i], w.c, w.ties(2 * i)).cancelled
    ensures BeginsInTime(delays, w, start, i)
    ensures SelectTimer(Clock(delays, w, start, i), delays[i], w.c, w.ties(2 * i)).at
      == AttemptStart(delays, w, start, i)
  {
  }

  /** It is made, and its end decides. */
  lemma Decided(delays: seq<nat>, w: World, start: nat, i: nat, err: Option<Error>)
    requires i < |delays| && Due(delays, w, start, i) && BeginsInTime(delays, w, start, i)
    requires
      var tried := Outcome(delays, w, start, i);
      if err.None? then tried.err.None?
      else err == Some(Canceled) && tried.err.Some? && CancelledBy(w.c, tried.end)
    ensures InitReport(delays, w, start, err, Clock(delays, w, start, i + 1), i + 1)
  {
  }

  /** It is made, fails on a live context, and the next one is due. */
  lemma NextIsDue(delays: seq<nat>, w: World, start: nat, i: nat)
    requires i < |delays| && Due(delays, w, start, i) && BeginsInTime(delays, w, start, i)
    requires Outcome(delays, w, start, i).err.Some? && !CancelledBy(w.c, Outcome(delays, w, start, i).end)
    ensures Due(delays, w, start, i + 1)
  {
  }

  /** There is no next one. */
  lemma Exhausted(delays: seq<nat>, w: World, start: nat)
    requires delays != [] && Due(delays, w, start, |delays|)
    ensures
      var last := Outcome(delays, w, start, |delays| - 1);
      last.err.Some? && last.end == Clock(delays, w, start, |delays|)
      && InitReport(delays, w, start,
                    Some(Wrapped("failed to initialize mongo replica set after all retries", last.err.value)),
                    last.end, |delays|)
  {
  }

  /** `initReplicaSetAction` with any delays. */
  method InitReplicaSet(delays: seq<nat>, w: World, start: nat) returns (err: Option<Error>, end: nat, ran: nat)
    requires delays != []
    ensures InitReport(delays, w, start, err, end, ran)
  {
    err, end := None, start;
    for i := 0 to |delays|
      invariant end == Clock(delays, w, start, i) && Due(delays, w, start, i)
      invariant i > 0 ==> err == Outcome(delays, w, start, i - 1).err
    {
      var over;
      over, err, end, ran := Round(delays, w, start, i, end);
      if over {
        return;
      }
    }
    Exhausted(delays, w, start);
    return Some(Wrapped("failed to initialize mongo replica set after all retries", err.value)), end, |delays|;
  }

  /** One round of its loop: the delay, the attempt, and the looks at the context. */
  method Round(delays: seq<nat>, w: World, start: nat, i: nat, now: nat)
    returns (over: bool, err: Option<Error>, end: nat, ran: nat)
    requires i < |delays| && Due(delays, w, start, i) && now == Clock(delays, w, start, i)
    ensures over ==> InitReport(delays, w, start, err, end, ran)
    ensures !over ==> Due(delays, w, start, i + 1)
    ensures !over ==> end == Clock(delays, w, start, i + 1) && err == Outcome(delays, w, start, i).err
  {
    var woken := SelectTimer(now, delays[i], w.c, w.ties(2 * i));
    if woken.cancelled {
      CutShort(delays, w, start, i, woken.at);
      return true, Some(Canceled), woken.at, i;
    }
    InTime(delays, w, start, i);
    var tried := TryNow(w, i, woken.at);
    if tried.err.None? {
      Decided(delays, w, start, i, None);
      return true, None, tried.end, i + 1;
    }
    if CancelledBy(w.c, tried.end) {
      Decided(delays, w, start, i, Some(Canceled));
      return true, Some(Canceled), tried.end, i + 1;
    }
    NextIsDue(delays, w, start, i);
    return false, tried.err, tried.end, i + 1;
  }

  lemma SumNext(xs: seq<nat>, n: nat)
    requires n < |xs|
    ensures Sum(xs[..n + 1]) == Sum(xs[..n]) + xs[n]
  {
    assert xs[..n + 1][..n] == xs[..n];
  }

  lemma TableSum()
    ensures Sum(ATTEMPT_DELAYS[..10]) == 142_000
  {
    SumNext(ATTEMPT_DELAYS, 9);
    SumNext(ATTEMPT_DELAYS, 8);
    SumNext(ATTEMPT_DELAYS, 7);
    SumNext(ATTEMPT_DELAYS, 6);
    SumNext(ATTEMPT_DELAYS, 5);
    SumNext(ATTEMPT_DELAYS, 4);
    SumNext(ATTEMPT_DELAYS, 3);
    SumNext(ATTEMPT_DELAYS, 2);
    SumNext(ATTEMPT_DELAYS, 1);
    SumNext(ATTEMPT_DELAYS, 0);
  }

  /** In the program's own table the first attempt is immediate, and the tenth and last begins after
      142 seconds of delays and the time the others took. */
  lemma ProgramSchedule(w: World, start: nat)
    ensures AttemptStart(ATTEMPT_DELAYS, w, start, 0) == start
    ensures AttemptStart(ATTEMPT_DELAYS, w, start, 9) == start + 142_000 + Spent(ATTEMPT_DELAYS, w, start, 9)
  {
    AttemptsBeginOnSchedule(ATTEMPT_DELAYS, w, start, 9);
    TableSum();
  }
}

/**
  Starting, running and stopping the bundle. The methods follow the source's loops. Between any two
  of their statements the root context may be stopped from outside (`Elapse`), and every call may
  succeed or fail; what happened is in the trace and in the ghost report.
 */
module Services {
  import opened GoErrors
  import opened Contexts
  import SupervisorTheorems

  /** The names of the services and of the listeners. */
  datatype Bundle = Bundle(services: seq<string>, listeners: seq<string>)

  datatype Event =
    | ServiceStarted(i: nat, err: Option<Error>)
    | ListenerOpened(i: nat, err: Option<Error>)
    | Ready                                          // bundle_ready
    | ListenerClosed(i: nat, err: Option<Error>)
    | ServiceClosed(i: nat, err: Option<Error>)
    | ShutdownComplete                               // bundle_shutdown_complete

  // ---------------------------------------------------------------- specification

  /** How startServices can end. */
  datatype Startup =
    | AllUp
    | Interrupted(n: nat)                     // the root was stopped when service n was due
    | ServiceFailed(n: nat, err: Error)
    | ListenerFailed(n: nat, err: Error)

  predicate Possible(b: Bundle, o: Startup) {
    match o
    case AllUp => true
    case Interrupted(n) => n < |b.services|
    case ServiceFailed(n, _) => n < |b.services|
    case ListenerFailed(n, _) => n < |b.listeners|
  }

  /** The first n services started. */
  function Starts(n: nat): seq<Event> {
    if n == 0 then [] else Starts(n - 1) + [ServiceStarted(n - 1, None)]
  }

  /** The first n listeners opened. */
  function Opens(n: nat): seq<Event> {
    if n == 0 then [] else Opens(n - 1) + [ListenerOpened(n - 1, None)]
  }

  function StartupTrace(b: Bundle, o: Startup): seq<Event> {
    match o
    case AllUp => Starts(|b.services|) + Opens(|b.listeners|)
    case Interrupted(n) => Starts(n)
    case ServiceFailed(n, err) => Starts(n) + [ServiceStarted(n, Some(err))]
    case ListenerFailed(n, err) => Starts(|b.services|) + Opens(n) + [ListenerOpened(n, Some(err))]
  }

  /** How many service starts were attempted. */
  function Attempted(b: Bundle, o: Startup): nat {
    match o
    case AllUp => |b.services|
    case Interrupted(n) => n
    case ServiceFailed(n, _) => n + 1
    case ListenerFailed(_, _) => |b.services|
  }

  function StartupError(b: Bundle, o: Startup): Option<Error>
    requires Possible(b, o)
  {
    match o
    case AllUp => None
    case Interrupted(_) => Some(Canceled)
    case ServiceFailed(n, err) => Some(Wrapped("start " + b.services[n], err))
    case ListenerFailed(n, err) => Some(Wrapped("open listener " + b.listeners[n], err))
  }

  /** Listeners close in order, with these results. */
  function ListenerCloses(errs: seq<Option<Error>>): seq<Event> {
    if errs == [] then []
    else ListenerCloses(errs[..|errs| - 1]) + [ListenerClosed(|errs| - 1, errs[|errs| - 1])]
  }

  /** Of n services the last ones close first, with these results in closing order. */
  function ServiceCloses(n: nat, errs: seq<Option<Error>>): seq<Event>
    requires |errs| <= n
  {
    if errs == [] then []
    else ServiceCloses(n, errs[..|errs| - 1]) + [ServiceClosed(n - |errs|, errs[|errs| - 1])]
  }

  function Annotate(text: string, err: Option<Error>): Option<Error> {
    if err.Some? then Some(Wrapped(text, err.value)) else None
  }

  function ListenerErrors(b: Bundle, errs: seq<Option<Error>>): seq<Option<Error>>
    requires |errs| <= |b.listeners|
  {
    if errs == [] then []
    else
      ListenerErrors(b, errs[..|errs| - 1])
      + [Annotate("close listener " + b.listeners[|errs| - 1], errs[|errs| - 1])]
  }

  function ServiceErrors(b: Bundle, errs: seq<Option<Error>>): seq<Option<Error>>
    requires |errs| <= |b.services|
  {
    if errs == [] then []
    else
      ServiceErrors(b, errs[..|errs| - 1])
      + [Annotate("stop " + b.services[|b.services| - |errs|], errs[|errs| - 1])]
  }

  /** Everything a run of the services decided. */
  datatype Report = Report(
    startup: Startup,
    examined: Cell,                       // the root context when the outcome of startup was examined
    ready: bool,                          // bundle_ready was emitted
    listenerErrs: seq<Option<Error>>,
    serviceErrs: seq<Option<Error>>       // in closing order
  )

  ghost predicate Complete(b: Bundle, r: Report) {
    Possible(b, r.startup) && |r.listenerErrs| == |b.listeners| && |r.serviceErrs| == |b.services|
    && (r.ready <==> r.startup.AllUp? && r.examined.None?)
  }

  function StopTrace(b: Bundle, r: Report): seq<Event>
    requires |r.serviceErrs| <= |b.services|
  {
    ListenerCloses(r.listenerErrs) + ServiceCloses(|b.services|, r.serviceErrs)
  }

  /** The whole trace. */
  function FullTrace(b: Bundle, r: Report): seq<Event>
    requires |r.serviceErrs| <= |b.services|
  {
    StartupTrace(b, r.startup) + (if r.ready then [Ready] else []) + StopTrace(b, r)
  }

  /** The startup error that remains: dropped if the operator had stopped the root by then. */
  function StartupVerdict(b: Bundle, r: Report): Option<Error>
    requires Possible(b, r.startup)
  {
    if StoppedByOperator(r.examined) then None else StartupError(b, r.startup)
  }

  /** The failed closes, in closing order. */
  function StopErrors(b: Bundle, r: Report): seq<Option<Error>>
    requires |r.listenerErrs| <= |b.listeners| && |r.serviceErrs| <= |b.services|
  {
    ListenerErrors(b, r.listenerErrs) + ServiceErrors(b, r.serviceErrs)
  }

  // ---------------------------------------------------------------- what the errors say

  /** What interrupted startup, as it came: the stop, or the error of the service or listener. */
  function StartupCause(o: Startup): Option<Error> {
    match o
    case AllUp => None
    case Interrupted(_) => Some(Canceled)
    case ServiceFailed(_, err) => Some(err)
    case ListenerFailed(_, err) => Some(err)
  }

  lemma StartupErrorSame(b: Bundle, o: Startup)
    requires Possible(b, o)
    ensures SameCause(StartupError(b, o), StartupCause(o))
  {
  }

  lemma AnnotateSame(text: string, err: Option<Error>)
    ensures SameCause(Annotate(text, err), err)
  {
  }

  lemma {:induction false} ListenerErrorsSame(b: Bundle, errs: seq<Option<Error>>)
    requires |errs| <= |b.listeners|
    ensures SameCauses(ListenerErrors(b, errs), errs)
  {
    if errs == [] {
    } else {
      var last := |errs| - 1;
      ListenerErrorsSame(b, errs[..last]);
      AnnotateSame("close listener " + b.listeners[last], errs[last]);
      SameCausesMore(ListenerErrors(b, errs), errs);
    }
  }

  lemma {:induction false} ServiceErrorsSame(b: Bundle, errs: seq<Option<Error>>)
    requires |errs| <= |b.services|
    ensures SameCauses(ServiceErrors(b, errs), errs)
  {
    if errs == [] {
    } else {
      var last := |errs| - 1;
      ServiceErrorsSame(b, errs[..last]);
      AnnotateSame("stop " + b.services[|b.services| - |errs|], errs[last]);
      SameCausesMore(ServiceErrors(b, errs), errs);
    }
  }

  lemma SameCausesMore(errs: seq<Option<Error>>, causes: seq<Option<Error>>)
    requires |errs| == |causes| > 0
    requires SameCauses(errs[..|errs| - 1], causes[..|errs| - 1]) && SameCause(errs[|errs| - 1], causes[|errs| - 1])
    ensures SameCauses(errs, causes)
  {
    forall k | 0 <= k < |errs| ensures SameCause(errs[k], causes[k]) {
      if k < |errs| - 1 {
        assert SameCause(errs[..|errs| - 1][k], causes[..|errs| - 1][k]);
      }
    }
  }

  /** The failed closes alone, each with its cause. */
  ghost predicate AreFailures(errs: seq<Option<Error>>, outcomes: seq<Option<Error>>) {
    && |errs| == |Present(outcomes)| && (forall k | 0 <= k < |errs| :: errs[k].Some?)
    && forall target | IsCause(target) :: AnyIs(errs, target) <==> AnyIs(outcomes, target)
  }

  lemma FailuresMore(errs: seq<Option<Error>>, outcomes: seq<Option<Error>>, text: string, err: Option<Error>)
    requires AreFailures(errs, outcomes)
    ensures AreFailures(if err.Some? then errs + [Annotate(text, err)] else errs, outcomes + [err])
  {
    AnnotateSame(text, err);
    PresentConcat(outcomes, [err]);
    var errs' := if err.Some? then errs + [Annotate(text, err)] else errs;
    forall target | IsCause(target) ensures AnyIs(errs', target) <==> AnyIs(outcomes + [err], target) {
      AnyIsConcat(outcomes, [err], target);
      AnyIsOne(err, target);
      if err.Some? {
        AnyIsConcat(errs, [Annotate(text, err)], target);
        AnyIsOne(Annotate(text, err), target);
      }
    }
  }

  lemma AnyIsOne(err: Option<Error>, target: Error)
    ensures AnyIs([err], target) <==> IsErr(err, target)
  {
    assert [err][0] == err;
  }

  lemma StopCarries(b: Bundle, listenerErrs: seq<Option<Error>>, serviceErrs: seq<Option<Error>>)
    requires |listenerErrs| <= |b.listeners| && |serviceErrs| <= |b.services|
    ensures Carries(Join(ListenerErrors(b, listenerErrs) + ServiceErrors(b, serviceErrs)), listenerErrs + serviceErrs)
  {
    ListenerErrorsSame(b, listenerErrs);
    ServiceErrorsSame(b, serviceErrs);
    var errs, causes := ListenerErrors(b, listenerErrs) + ServiceErrors(b, serviceErrs), listenerErrs + serviceErrs;
    forall k | 0 <= k < |errs| ensures SameCause(errs[k], causes[k]) {
      if k < |listenerErrs| {
        assert SameCause(ListenerErrors(b, listenerErrs)[k], listenerErrs[k]);
      } else {
        var j := k - |listenerErrs|;
        assert SameCause(ServiceErrors(b, serviceErrs)[j], serviceErrs[j]);
      }
    }
    JoinCarries(errs, causes);
  }

  /** What a run of the services came to: what interrupted startup, unless the operator had stopped the
      root when it was examined, and every close. */
  function CausesOf(r: Report): seq<Option<Error>> {
    [if StoppedByOperator(r.examined) then None else StartupCause(r.startup)] + (r.listenerErrs + r.serviceErrs)
  }

  lemma RunCarries(b: Bundle, r: Report)
    requires Complete(b, r)
    ensures Carries(Join([StartupVerdict(b, r), Join(StopErrors(b, r))]), CausesOf(r))
  {
    var cause := if StoppedByOperator(r.examined) then None else StartupCause(r.startup);
    StartupErrorSame(b, r.startup);
    StopCarries(b, r.listenerErrs, r.serviceErrs);
    OneCarries(StartupVerdict(b, r), cause);
    JoinOfCarriers(StartupVerdict(b, r), [cause], Join(StopErrors(b, r)), r.listenerErrs + r.serviceErrs);
  }

  lemma OneCarries(err: Option<Error>, cause: Option<Error>)
    requires SameCause(err, cause)
    ensures Carries(err, [cause])
  {
    assert [cause][0] == cause;
    forall target | IsCause(target) ensures IsErr(err, target) <==> AnyIs([cause], target) {
      AnyIsOne(cause, target);
    }
  }

  // ---------------------------------------------------------------- the program

  /** The process as the service code sees it. */
  class Runtime {
    const embedded: bool      // children run beside the services, and may stop the root
    var ctx: Cell
    var trace: seq<Event>
    var stoppedAt: nat        // history: the length of the trace when the root was stopped

    constructor (embedded: bool)
      ensures this.embedded == embedded && ctx == None && trace == []
    {
      this.embedded := embedded;
      ctx, trace, stoppedAt := None, [], 0;
    }

    /** Who may have stopped the root, other than this code. */
    predicate FromOutside(c: Cell) {
      c.Some? ==> c.value.who.Operator? || (embedded && c.value.who.Child?)
    }

    /** Meanwhile the root may be stopped by someone else; its first cause stays. */
    twostate predicate Meanwhile()
      reads this
    {
      if old(ctx).Some? then ctx == old(ctx) && stoppedAt == old(stoppedAt)
      else FromOutside(ctx) && (ctx.Some? ==> old(|trace|) <= stoppedAt <= |trace|)
    }

    method Elapse()
      modifies this`ctx, this`stoppedAt
      ensures Meanwhile()
    {
      var stop: Cell := *;
      if ctx.None? && FromOutside(stop) {
        ctx, stoppedAt := stop, |trace|;
      }
    }

    method Emit(e: Event)
      modifies this`trace
      ensures trace == old(trace) + [e]
    {
      trace := trace + [e];
    }

    /** `s.App.Start(ctx)`, `l.Run(ctx)`, `l.Close(ctx)`, `s.App.Close(ctx)`: any result. */
    method Call() returns (err: Option<Error>)
      modifies this`ctx, this`stoppedAt
      ensures Meanwhile()
    {
      Elapse();
      err := *;
    }

    method StopRoot(cause: Error)
      modifies this`ctx, this`stoppedAt
      ensures ctx == Cancel(old(ctx), Stop(cause, Caller))
      ensures stoppedAt == if old(ctx).Some? then old(stoppedAt) else |trace|
    {
      if ctx.None? {
        ctx, stoppedAt := Some(Stop(cause, Caller)), |trace|;
      }
    }

    /** `<-ctx.Done()`, given that a stop comes. */
    method AwaitStop()
      modifies this`ctx, this`stoppedAt
      ensures Meanwhile() && ctx.Some?
    {
      Elapse();
      if ctx.None? {
        ctx, stoppedAt := Some(Stop(SignalReceived(SIGTERM), Operator)), |trace|;
      }
    }
  }

  /** The service loop of startServices. A service is started only if the root was live at the check
      before it: after the stop at most the start that was under way is still in the trace. */
  method StartAll(rt: Runtime, b: Bundle) returns (err: Option<Error>, ghost o: Startup)
    modifies rt
    ensures Possible(b, o) && !o.ListenerFailed? && err == StartupError(b, o) && rt.Meanwhile()
    ensures rt.trace == old(rt.trace) + if o.AllUp? then Starts(|b.services|) else StartupTrace(b, o)
    ensures o.Interrupted? ==> rt.ctx.Some?
    ensures old(rt.ctx).Some? && b.services != [] ==> o == Interrupted(0)
    ensures old(rt.ctx).None? && rt.ctx.Some? ==> Attempted(b, o) <= rt.stoppedAt - old(|rt.trace|) + 1
  {
    for i := 0 to |b.services|
      invariant rt.trace == old(rt.trace) + Starts(i) && |Starts(i)| == i
      invariant rt.Meanwhile()
      invariant old(rt.ctx).Some? ==> i == 0
      invariant old(rt.ctx).None? && rt.ctx.Some? ==> i <= rt.stoppedAt - old(|rt.trace|) + 1
    {
      rt.Elapse();
      if rt.ctx.Some? {
        return CtxErr(rt.ctx), Interrupted(i);
      }
      var startErr := rt.Call();
      rt.Emit(ServiceStarted(i, startErr));
      if startErr.Some? {
        return Some(Wrapped("start " + b.services[i], startErr.value)), ServiceFailed(i, startErr.value);
      }
    }
    return None, AllUp;
  }

  /** Its listener loop. */
  method OpenAll(rt: Runtime, b: Bundle) returns (err: Option<Error>, ghost o: Startup)
    modifies rt
    ensures Possible(b, o) && (o.AllUp? || o.ListenerFailed?) && err == StartupError(b, o) && rt.Meanwhile()
    ensures old(rt.trace) <= rt.trace && Starts(|b.services|) + rt.trace[|old(rt.trace)|..] == StartupTrace(b, o)
  {
    ghost var openings := [];
    for i := 0 to |b.listeners|
      invariant rt.trace == old(rt.trace) + openings && openings == Opens(i)
      invariant rt.Meanwhile()
    {
      var openErr := rt.Call();
      rt.Emit(ListenerOpened(i, openErr));
      openings := openings + [ListenerOpened(i, openErr)];
      if openErr.Some? {
        assert Starts(|b.services|) + openings == StartupTrace(b, ListenerFailed(i, openErr.value));
        return Some(Wrapped("open listener " + b.listeners[i], openErr.value)), ListenerFailed(i, openErr.value);
      }
    }
    return None, AllUp;
  }

  /** `startServices`. */
  method StartServices(rt: Runtime, b: Bundle) returns (err: Option<Error>, ghost o: Startup)
    modifies rt
    ensures Possible(b, o) && rt.trace == old(rt.trace) + StartupTrace(b, o) && err == StartupError(b, o)
    ensures SameCause(err, StartupCause(o))
    ensures rt.Meanwhile()
    ensures o.Interrupted? ==> rt.ctx.Some?
    ensures old(rt.ctx).Some? && b.services != [] ==> o == Interrupted(0)
    ensures old(rt.ctx).None? && rt.ctx.Some? ==> Attempted(b, o) <= rt.stoppedAt - old(|rt.trace|) + 1
  {
    err, o := StartAll(rt, b);
    if err.None? {
      StartsLength(|b.services|);
      ghost var started := rt.trace;
      err, o := OpenAll(rt, b);
      assert rt.trace == started + rt.trace[|started|..];
    }
    StartupErrorSame(b, o);
  }

  lemma {:induction false} StartsLength(n: nat)
    ensures |Starts(n)| == n
  {
    if n == 0 {
    } else {
      StartsLength(n - 1);
    }
  }

  lemma AttemptsLeaveEvents(b: Bundle, o: Startup)
    ensures Attempted(b, o) <= |StartupTrace(b, o)|
  {
    StartsLength(|b.services|);
    StartsLength(match o case Interrupted(n) => n case ServiceFailed(n, _) => n case _ => 0);
  }

  lemma PresentAppend(errs: seq<Option<Error>>, all: seq<Option<Error>>, e: Option<Error>)
    requires Present(errs) == Present(all)
    ensures Present(if e.Some? then errs + [e] else errs) == Present(all + [e])
  {
    PresentConcat(errs, [e]);
    PresentConcat(all, [e]);
  }

  /** The listener loop of stopServices: a failed close does not keep the next from closing. */
  method CloseListeners(rt: Runtime, b: Bundle)
    returns (errs: seq<Option<Error>>, ghost outcomes: seq<Option<Error>>)
    modifies rt
    ensures |outcomes| == |b.listeners| && rt.trace == old(rt.trace) + ListenerCloses(outcomes)
    ensures Present(errs) == Present(ListenerErrors(b, outcomes)) && AreFailures(errs, outcomes)
    ensures rt.Meanwhile()
  {
    errs, outcomes := [], [];
    for i := 0 to |b.listeners|
      invariant |outcomes| == i && rt.trace == old(rt.trace) + ListenerCloses(outcomes)
      invariant Present(errs) == Present(ListenerErrors(b, outcomes)) && AreFailures(errs, outcomes)
      invariant rt.Meanwhile()
    {
      var err := rt.Call();
      rt.Emit(ListenerClosed(i, err));
      var annotated := Annotate("close listener " + b.listeners[i], err);
      PresentAppend(errs, ListenerErrors(b, outcomes), annotated);
      FailuresMore(errs, outcomes, "close listener " + b.listeners[i], err);
      if err.Some? {
        errs := errs + [annotated];
      }
      assert (outcomes + [err])[..i] == outcomes;
      outcomes := outcomes + [err];
    }
  }

  /** Its service loop, backward. */
  method CloseServices(rt: Runtime, b: Bundle)
    returns (errs: seq<Option<Error>>, ghost outcomes: seq<Option<Error>>)
    modifies rt
    ensures |outcomes| == |b.services| && rt.trace == old(rt.trace) + ServiceCloses(|b.services|, outcomes)
    ensures Present(errs) == Present(ServiceErrors(b, outcomes)) && AreFailures(errs, outcomes)
    ensures rt.Meanwhile()
  {
    errs, outcomes := [], [];
    for i := |b.services| downto 0
      invariant |outcomes| == |b.services| - i
      invariant rt.trace == old(rt.trace) + ServiceCloses(|b.services|, outcomes)
      invariant Present(errs) == Present(ServiceErrors(b, outcomes)) && AreFailures(errs, outcomes)
      invariant rt.Meanwhile()
    {
      var err := rt.Call();
      rt.Emit(ServiceClosed(i, err));
      var annotated := Annotate("stop " + b.services[i], err);
      PresentAppend(errs, ServiceErrors(b, outcomes), annotated);
      FailuresMore(errs, outcomes, "stop " + b.services[i], err);
      if err.Some? {
        errs := errs + [annotated];
      }
      assert (outcomes + [err])[..|outcomes|] == outcomes;
      outcomes := outcomes + [err];
    }
  }

  /** `stopServices`: every listener closes once, in order, then every service once, backward, and
      the result joins exactly the failures. */
  method StopServices(rt: Runtime, b: Bundle)
    returns (result: Option<Error>, ghost listenerErrs: seq<Option<Error>>, ghost serviceErrs: seq<Option<Error>>)
    modifies rt
    ensures |listenerErrs| == |b.listeners| && |serviceErrs| == |b.services|
    ensures rt.trace == old(rt.trace) + (ListenerCloses(listenerErrs) + ServiceCloses(|b.services|, serviceErrs))
    ensures result == Join(ListenerErrors(b, listenerErrs) + ServiceErrors(b, serviceErrs))
    ensures Carries(result, listenerErrs + serviceErrs)
    ensures rt.Meanwhile()
  {
    var errs, more;
    errs, listenerErrs := CloseListeners(rt, b);
    more, serviceErrs := CloseServices(rt, b);
    result := Join(errs + more);
    PresentConcat(errs, more);
    PresentConcat(ListenerErrors(b, listenerErrs), ServiceErrors(b, serviceErrs));
    StopCarries(b, listenerErrs, serviceErrs);
  }

  /** The switch of runServices and the wait. `examined` is the root context when the switch looks:
      ready is emitted if startup succeeded and it is live; an error is dropped if the operator had
      stopped it, and otherwise stops it. */
  method AwaitOrFail(rt: Runtime, startErr: Option<Error>)
    returns (err: Option<Error>, ghost examined: Cell, ghost ready: bool)
    requires rt.FromOutside(rt.ctx)
    modifies rt
    ensures ready <==> startErr.None? && examined.None?
    ensures rt.trace == old(rt.trace) + if ready then [Ready] else []
    ensures err == if StoppedByOperator(examined) then None else startErr
    ensures rt.ctx.Some? && (examined.Some? ==> rt.ctx == examined) && rt.FromOutside(examined)
    ensures rt.FromOutside(rt.ctx) || (err.Some? && rt.ctx.value.cause == err.value)
    ensures old(rt.ctx).Some? ==> rt.ctx == old(rt.ctx) && rt.stoppedAt == old(rt.stoppedAt) && !ready
    ensures old(rt.ctx).None? ==> old(|rt.trace|) <= rt.stoppedAt
  {
    err := startErr;
    rt.Elapse();
    examined, ready := rt.ctx, false;
    if err.None? {
      if rt.ctx.None? {
        rt.Emit(Ready);
        ready := true;
      }
      rt.AwaitStop();
    } else if StoppedByOperator(rt.ctx) {
      err := None;
    } else {
      rt.Elapse();
      rt.StopRoot(err.value);
    }
  }

  /** `runServices`. Its trace is the one the report describes; its result joins the startup verdict
      with the failed closes; it stops the root itself only for an error it then returns; and after
      the stop at most the service start that was under way completes. */
  method RunServices(rt: Runtime, b: Bundle) returns (result: Option<Error>, ghost r: Report)
    requires rt.FromOutside(rt.ctx)
    modifies rt
    ensures Complete(b, r) && rt.trace == old(rt.trace) + FullTrace(b, r)
    ensures result == Join([StartupVerdict(b, r), Join(StopErrors(b, r))]) && Carries(result, CausesOf(r))
    ensures rt.ctx.Some? && (old(rt.ctx).Some? ==> rt.ctx == old(rt.ctx))
    ensures r.examined.Some? ==> rt.ctx == r.examined
    ensures old(rt.ctx).None? ==> Attempted(b, r.startup) <= rt.stoppedAt - old(|rt.trace|) + 1
    ensures rt.FromOutside(r.examined)
    ensures rt.FromOutside(rt.ctx) || (StartupVerdict(b, r).Some? && rt.ctx.value.cause == StartupVerdict(b, r).value)
    ensures old(rt.ctx).Some? ==> !r.ready
  {
    var startErr, err, stopErr;
    ghost var o, examined, ready, listenerErrs, serviceErrs;
    startErr, o := StartServices(rt, b);
    AttemptsLeaveEvents(b, o);
    err, examined, ready := AwaitOrFail(rt, startErr);
    stopErr, listenerErrs, serviceErrs := StopServices(rt, b);
    result := Join([err, stopErr]);
    r := Report(o, examined, ready, listenerErrs, serviceErrs);
    RunCarries(b, r);
  }

  /** The start-bundle Action. A clean exit means the operator stopped the root; completion is
      reported exactly on a clean exit, and last. */
  method StartBundle(rt: Runtime, b: Bundle) returns (result: Option<Error>, ghost r: Report)
    requires !rt.embedded && rt.FromOutside(rt.ctx)
    modifies rt
    ensures Complete(b, r) && result == Join([StartupVerdict(b, r), Join(StopErrors(b, r))])
    ensures Carries(result, CausesOf(r))
    ensures rt.trace == old(rt.trace) + FullTrace(b, r) + if result.None? then [ShutdownComplete] else []
    ensures result.None? ==> rt.ctx.Some? && rt.ctx.value.who.Operator?
  {
    result, r := RunServices(rt, b);
    SupervisorTheorems.NonePresent([StartupVerdict(b, r), Join(StopErrors(b, r))]);
    assert [StartupVerdict(b, r), Join(StopErrors(b, r))][0] == StartupVerdict(b, r);
    if result.None? {
      rt.Emit(ShutdownComplete);
    }
  }
}

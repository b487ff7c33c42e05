/** What the trace of a run of the services means, service by service and listener by listener. */
module ServiceTraces {
  import opened GoErrors
  import opened Services

  /** What an event can be about. */
  datatype Subject = Service(i: nat) | Listener(i: nat)

  predicate Concerns(e: Event, s: Subject) {
    match e
    case ServiceStarted(k, _) => s == Service(k)
    case ServiceClosed(k, _) => s == Service(k)
    case ListenerOpened(k, _) => s == Listener(k)
    case ListenerClosed(k, _) => s == Listener(k)
    case _ => false
  }

  function Of(t: seq<Event>, s: Subject): seq<Event> {
    if t == [] then [] else Of(t[..|t| - 1], s) + if Concerns(t[|t| - 1], s) then [t[|t| - 1]] else []
  }

  lemma {:induction false} OfAppend(t: seq<Event>, e: Event, s: Subject)
    ensures Of(t + [e], s) == Of(t, s) + if Concerns(e, s) then [e] else []
  {
    assert (t + [e])[..|t|] == t;
  }

  lemma {:induction false} OfConcat(t: seq<Event>, u: seq<Event>, s: Subject)
    ensures Of(t + u, s) == Of(t, s) + Of(u, s)
  {
    if u == [] {
      assert t + u == t;
    } else {
      var last := |u| - 1;
      assert t + u == t + u[..last] + [u[last]];
      OfConcat(t, u[..last], s);
      OfAppend(t + u[..last], u[last], s);
    }
  }

  // ---------------------------------------------------------------- the segments

  lemma {:induction false} StartsOf(n: nat, s: Subject)
    ensures Of(Starts(n), s) == if s.Service? && s.i < n then [ServiceStarted(s.i, None)] else []
  {
    if n == 0 {
    } else {
      StartsOf(n - 1, s);
      OfAppend(Starts(n - 1), ServiceStarted(n - 1, None), s);
    }
  }

  lemma {:induction false} OpensOf(n: nat, s: Subject)
    ensures Of(Opens(n), s) == if s.Listener? && s.i < n then [ListenerOpened(s.i, None)] else []
  {
    if n == 0 {
    } else {
      OpensOf(n - 1, s);
      OfAppend(Opens(n - 1), ListenerOpened(n - 1, None), s);
    }
  }

  lemma {:induction false} ListenerClosesOf(errs: seq<Option<Error>>, i: nat)
    ensures Of(ListenerCloses(errs), Listener(i)) == if i < |errs| then [ListenerClosed(i, errs[i])] else []
  {
    if errs == [] {
    } else {
      var last := |errs| - 1;
      ListenerClosesOf(errs[..last], i);
      OfAppend(ListenerCloses(errs[..last]), ListenerClosed(last, errs[last]), Listener(i));
    }
  }

  lemma {:induction false} ListenerClosesOfService(errs: seq<Option<Error>>, i: nat)
    ensures Of(ListenerCloses(errs), Service(i)) == []
  {
    if errs == [] {
    } else {
      var last := |errs| - 1;
      ListenerClosesOfService(errs[..last], i);
      OfAppend(ListenerCloses(errs[..last]), ListenerClosed(last, errs[last]), Service(i));
    }
  }

  lemma {:induction false} ServiceClosesOf(n: nat, errs: seq<Option<Error>>, i: nat)
    requires |errs| <= n
    ensures Of(ServiceCloses(n, errs), Service(i)) ==
      if n - |errs| <= i < n then [ServiceClosed(i, errs[n - 1 - i])] else []
  {
    if errs == [] {
    } else {
      var last := |errs| - 1;
      ServiceClosesOf(n, errs[..last], i);
      OfAppend(ServiceCloses(n, errs[..last]), ServiceClosed(n - |errs|, errs[last]), Service(i));
    }
  }

  lemma {:induction false} ServiceClosesOfListener(n: nat, errs: seq<Option<Error>>, i: nat)
    requires |errs| <= n
    ensures Of(ServiceCloses(n, errs), Listener(i)) == []
  {
    if errs == [] {
    } else {
      var last := |errs| - 1;
      ServiceClosesOfListener(n, errs[..last], i);
      OfAppend(ServiceCloses(n, errs[..last]), ServiceClosed(n - |errs|, errs[last]), Listener(i));
    }
  }

  /** Whether the start of service i was attempted, and its result. */
  function StartOf(o: Startup, i: nat): seq<Event> {
    match o
    case AllUp => [ServiceStarted(i, None)]
    case ListenerFailed(_, _) => [ServiceStarted(i, None)]
    case Interrupted(n) => if i < n then [ServiceStarted(i, None)] else []
    case ServiceFailed(n, err) =>
      if i < n then [ServiceStarted(i, None)] else if i == n then [ServiceStarted(i, Some(err))] else []
  }

  function OpenOf(o: Startup, i: nat): seq<Event> {
    match o
    case AllUp => [ListenerOpened(i, None)]
    case ListenerFailed(n, err) =>
      if i < n then [ListenerOpened(i, None)] else if i == n then [ListenerOpened(i, Some(err))] else []
    case _ => []
  }

  /** A startup trace in three parts: services started, listeners opened, and the failure. */
  function StartedWell(b: Bundle, o: Startup): nat {
    match o
    case Interrupted(n) => n
    case ServiceFailed(n, _) => n
    case _ => |b.services|
  }

  function OpenedWell(b: Bundle, o: Startup): nat {
    match o
    case AllUp => |b.listeners|
    case ListenerFailed(n, _) => n
    case _ => 0
  }

  function Failure(o: Startup): seq<Event> {
    match o
    case ServiceFailed(n, err) => [ServiceStarted(n, Some(err))]
    case ListenerFailed(n, err) => [ListenerOpened(n, Some(err))]
    case _ => []
  }

  lemma StartupInParts(b: Bundle, o: Startup)
    ensures StartupTrace(b, o) == Starts(StartedWell(b, o)) + Opens(OpenedWell(b, o)) + Failure(o)
  {
  }

  lemma FailureOf(o: Startup, s: Subject)
    ensures Of(Failure(o), s) == if Failure(o) != [] && Concerns(Failure(o)[0], s) then Failure(o) else []
  {
    if Failure(o) != [] {
      OfAppend([], Failure(o)[0], s);
    }
  }

  lemma StartupOf(b: Bundle, o: Startup, s: Subject)
    requires Possible(b, o)
    ensures Of(StartupTrace(b, o), s) ==
      Of(Starts(StartedWell(b, o)), s) + Of(Opens(OpenedWell(b, o)), s) + Of(Failure(o), s)
  {
    StartupInParts(b, o);
    OfConcat(Starts(StartedWell(b, o)) + Opens(OpenedWell(b, o)), Failure(o), s);
    OfConcat(Starts(StartedWell(b, o)), Opens(OpenedWell(b, o)), s);
  }

  /** The same, with what each part contributes. */
  lemma StartupOfSubject(b: Bundle, o: Startup, s: Subject, starts: seq<Event>, opens: seq<Event>, failure: seq<Event>)
    requires Possible(b, o)
    requires starts == if s.Service? && s.i < StartedWell(b, o) then [ServiceStarted(s.i, None)] else []
    requires opens == if s.Listener? && s.i < OpenedWell(b, o) then [ListenerOpened(s.i, None)] else []
    requires failure == if Failure(o) != [] && Concerns(Failure(o)[0], s) then Failure(o) else []
    ensures Of(StartupTrace(b, o), s) == starts + opens + failure
  {
    StartupOf(b, o, s);
    StartsOf(StartedWell(b, o), s);
    OpensOf(OpenedWell(b, o), s);
    FailureOf(o, s);
  }

  lemma StartupOfService(b: Bundle, o: Startup, i: nat)
    requires Possible(b, o) && i < |b.services|
    ensures Of(StartupTrace(b, o), Service(i)) == StartOf(o, i)
  {
    var starts := if i < StartedWell(b, o) then [ServiceStarted(i, None)] else [];
    var failure := if o.ServiceFailed? && o.n == i then Failure(o) else [];
    StartupOfSubject(b, o, Service(i), starts, [], failure);
    assert starts + [] + failure == StartOf(o, i);
  }

  lemma StartupOfListener(b: Bundle, o: Startup, i: nat)
    requires Possible(b, o) && i < |b.listeners|
    ensures Of(StartupTrace(b, o), Listener(i)) == OpenOf(o, i)
  {
    var opens := if i < OpenedWell(b, o) then [ListenerOpened(i, None)] else [];
    var failure := if o.ListenerFailed? && o.n == i then Failure(o) else [];
    StartupOfSubject(b, o, Listener(i), [], opens, failure);
    assert [] + opens + failure == OpenOf(o, i);
  }

  lemma OfReady(t: seq<Event>, ready: bool, s: Subject)
    ensures Of(t + (if ready then [Ready] else []), s) == Of(t, s)
  {
    if ready {
      OfAppend(t, Ready, s);
    } else {
      assert t + [] == t;
    }
  }

  lemma FullOf(b: Bundle, r: Report, s: Subject)
    requires Complete(b, r)
    ensures Of(FullTrace(b, r), s) == Of(StartupTrace(b, r.startup), s) + Of(StopTrace(b, r), s)
  {
    var startup := StartupTrace(b, r.startup);
    OfConcat(startup + (if r.ready then [Ready] else []), StopTrace(b, r), s);
    OfReady(startup, r.ready, s);
  }

  /** A trace in two parts, only one of which concerns the subject. */
  lemma SecondPart(t: seq<Event>, u: seq<Event>, s: Subject, mine: seq<Event>)
    requires Of(t, s) == [] && Of(u, s) == mine
    ensures Of(t + u, s) == mine
  {
    OfConcat(t, u, s);
  }

  lemma FirstPart(t: seq<Event>, u: seq<Event>, s: Subject, mine: seq<Event>)
    requires Of(t, s) == mine && Of(u, s) == []
    ensures Of(t + u, s) == mine
  {
    OfConcat(t, u, s);
  }

  lemma StopOfService(n: nat, listenerErrs: seq<Option<Error>>, serviceErrs: seq<Option<Error>>, i: nat)
    requires i < n == |serviceErrs|
    ensures Of(ListenerCloses(listenerErrs) + ServiceCloses(n, serviceErrs), Service(i)) ==
      [ServiceClosed(i, serviceErrs[n - 1 - i])]
  {
    ListenerClosesOfService(listenerErrs, i);
    ServiceClosesOf(n, serviceErrs, i);
    var closed := [ServiceClosed(i, serviceErrs[n - 1 - i])];
    SecondPart(ListenerCloses(listenerErrs), ServiceCloses(n, serviceErrs), Service(i), closed);
  }

  lemma StopOfListener(n: nat, listenerErrs: seq<Option<Error>>, serviceErrs: seq<Option<Error>>, i: nat)
    requires i < |listenerErrs| && |serviceErrs| == n
    ensures Of(ListenerCloses(listenerErrs) + ServiceCloses(n, serviceErrs), Listener(i)) ==
      [ListenerClosed(i, listenerErrs[i])]
  {
    ListenerClosesOf(listenerErrs, i);
    ServiceClosesOfListener(n, serviceErrs, i);
    var closed := [ListenerClosed(i, listenerErrs[i])];
    FirstPart(ListenerCloses(listenerErrs), ServiceCloses(n, serviceErrs), Listener(i), closed);
  }

  // ---------------------------------------------------------------- the order inside a segment

  /** Services start, and listeners open, in order. */
  lemma {:induction false} StartsInOrder(n: nat, k: nat)
    requires k < n
    ensures |Starts(n)| == |Opens(n)| == n
    ensures Starts(n)[k] == ServiceStarted(k, None) && Opens(n)[k] == ListenerOpened(k, None)
  {
    if n == 1 {
      assert Starts(0) == [] && Opens(0) == [];
    } else {
      StartsInOrder(n - 1, if k < n - 1 then k else 0);
    }
  }

  /** Listeners close in order. */
  lemma {:induction false} ListenersCloseInOrder(errs: seq<Option<Error>>, k: nat)
    requires k < |errs|
    ensures |ListenerCloses(errs)| == |errs| && ListenerCloses(errs)[k] == ListenerClosed(k, errs[k])
  {
    var last := |errs| - 1;
    if last == 0 {
      assert ListenerCloses(errs[..0]) == [];
    } else {
      ListenersCloseInOrder(errs[..last], if k < last then k else 0);
    }
  }

  /** Services close backward, from the last one. */
  lemma {:induction false} ServicesCloseBackward(n: nat, errs: seq<Option<Error>>, k: nat)
    requires k < |errs| <= n
    ensures |ServiceCloses(n, errs)| == |errs| && ServiceCloses(n, errs)[k] == ServiceClosed(n - 1 - k, errs[k])
  {
    var last := |errs| - 1;
    if last == 0 {
      assert ServiceCloses(n, errs[..0]) == [];
    } else {
      ServicesCloseBackward(n, errs[..last], if k < last then k else 0);
    }
  }

  // ---------------------------------------------------------------- the theorems

  /** Of every service: at most one start, as startup went, then exactly one close, whatever else
      failed. */
  lemma ServiceClosesOnce(b: Bundle, r: Report, i: nat)
    requires Complete(b, r) && i < |b.services|
    ensures Of(FullTrace(b, r), Service(i)) ==
      StartOf(r.startup, i) + [ServiceClosed(i, r.serviceErrs[|b.services| - 1 - i])]
  {
    FullOf(b, r, Service(i));
    StartupOfService(b, r.startup, i);
    StopOfService(|b.services|, r.listenerErrs, r.serviceErrs, i);
  }

  /** Of every listener: at most one opening, then exactly one close. */
  lemma ListenerClosesOnce(b: Bundle, r: Report, i: nat)
    requires Complete(b, r) && i < |b.listeners|
    ensures Of(FullTrace(b, r), Listener(i)) ==
      OpenOf(r.startup, i) + [ListenerClosed(i, r.listenerErrs[i])]
  {
    FullOf(b, r, Listener(i));
    StartupOfListener(b, r.startup, i);
    StopOfListener(|b.services|, r.listenerErrs, r.serviceErrs, i);
  }

  function Stage(e: Event): nat {
    match e
    case ServiceStarted(_, _) => 0
    case ListenerOpened(_, _) => 1
    case Ready => 2
    case ListenerClosed(_, _) => 3
    case ServiceClosed(_, _) => 4
    case ShutdownComplete => 5
  }

  ghost predicate AllAt(t: seq<Event>, stage: nat) {
    forall k | 0 <= k < |t| :: Stage(t[k]) == stage
  }

  lemma {:induction false} StartsStage(n: nat)
    ensures AllAt(Starts(n), 0) && AllAt(Opens(n), 1) && |Starts(n)| == |Opens(n)| == n
  {
    if n == 0 {
    } else {
      StartsStage(n - 1);
    }
  }

  lemma {:induction false} ListenerClosesStage(errs: seq<Option<Error>>)
    ensures AllAt(ListenerCloses(errs), 3)
  {
    if errs == [] {
    } else {
      ListenerClosesStage(errs[..|errs| - 1]);
    }
  }

  lemma {:induction false} ServiceClosesStage(n: nat, errs: seq<Option<Error>>)
    requires |errs| <= n
    ensures AllAt(ServiceCloses(n, errs), 4)
  {
    if errs == [] {
    } else {
      ServiceClosesStage(n, errs[..|errs| - 1]);
    }
  }

  ghost predicate InStageOrder(t: seq<Event>) {
    forall j, k | 0 <= j < k < |t| :: Stage(t[j]) <= Stage(t[k])
  }

  ghost predicate Within(t: seq<Event>, low: nat, high: nat) {
    forall k | 0 <= k < |t| :: low <= Stage(t[k]) <= high
  }

  lemma OrderConcat(t: seq<Event>, u: seq<Event>, low: nat, mid: nat, high: nat)
    requires InStageOrder(t) && InStageOrder(u) && Within(t, low, mid) && Within(u, mid, high)
    requires low <= mid <= high
    ensures InStageOrder(t + u) && Within(t + u, low, high)
  {
  }

  /** Three parts, at the stages of services, of listeners, and of the failure. */
  lemma ThreeParts(starts: seq<Event>, opens: seq<Event>, failure: seq<Event>)
    requires AllAt(starts, 0) && AllAt(opens, 1) && |failure| <= 1
    requires failure != [] ==> Stage(failure[0]) == 1 || (Stage(failure[0]) == 0 && opens == [])
    ensures InStageOrder(starts + opens + failure) && Within(starts + opens + failure, 0, 1)
  {
    if opens == [] {
      OrderConcat(starts, opens, 0, 0, 0);
      OrderConcat(starts + opens, failure, 0, 0, 1);
    } else {
      OrderConcat(starts, opens, 0, 0, 1);
      OrderConcat(starts + opens, failure, 0, 1, 1);
    }
  }

  lemma StartupStage(b: Bundle, o: Startup)
    requires Possible(b, o)
    ensures InStageOrder(StartupTrace(b, o)) && Within(StartupTrace(b, o), 0, 1)
  {
    StartupInParts(b, o);
    StartsStage(StartedWell(b, o));
    StartsStage(OpenedWell(b, o));
    ThreeParts(Starts(StartedWell(b, o)), Opens(OpenedWell(b, o)), Failure(o));
  }

  /** The attempted starts are the first events of a startup trace, in order, and there is no other. */
  lemma AttemptsComeFirst(b: Bundle, o: Startup, k: nat)
    requires Possible(b, o) && k < |StartupTrace(b, o)|
    ensures Attempted(b, o) <= |StartupTrace(b, o)|
    ensures if k < Attempted(b, o) then StartupTrace(b, o)[k].ServiceStarted? && StartupTrace(b, o)[k].i == k
      else StartupTrace(b, o)[k].ListenerOpened?
  {
    StartupInParts(b, o);
    StartsStage(StartedWell(b, o));
    StartsStage(OpenedWell(b, o));
    var started := StartedWell(b, o);
    if k < started {
      StartsInOrder(started, k);
    } else if k < started + OpenedWell(b, o) {
      StartsInOrder(OpenedWell(b, o), k - started);
    }
  }

  /** An opening in a startup trace follows all the starts. */
  lemma OpeningMeansAllStarted(b: Bundle, o: Startup, k: nat)
    requires Possible(b, o) && k < |StartupTrace(b, o)| && Stage(StartupTrace(b, o)[k]) == 1
    ensures Starts(|b.services|) <= StartupTrace(b, o)
  {
    StartsStage(StartedWell(b, o));
    if o.Interrupted? || o.ServiceFailed? {
      StartupInParts(b, o);
    }
  }

  /** Event a must not come after event b. */
  predicate Precedes(a: Event, b: Event) {
    match a
    case ServiceStarted(_, _) => !b.ServiceStarted?
    case ListenerOpened(_, _) => !b.ServiceStarted? && !b.ListenerOpened?
    case Ready => b.ListenerClosed? || b.ServiceClosed? || b.ShutdownComplete?
    case ListenerClosed(_, _) => b.ServiceClosed? || b.ShutdownComplete?
    case ServiceClosed(_, _) => b.ShutdownComplete?
    case ShutdownComplete => false
  }

  lemma StagesAreOrdered(a: Event, b: Event)
    ensures Precedes(a, b) <==> Stage(a) < Stage(b)
  {
  }

  /** No event comes before one that must precede it: no start after an opening, no opening after ready,
      nothing but closes after ready, no listener close after a service close. */
  lemma NothingOutOfOrder(b: Bundle, r: Report, j: nat, k: nat)
    requires Complete(b, r) && j < k < |FullTrace(b, r)|
    ensures !Precedes(FullTrace(b, r)[k], FullTrace(b, r)[j])
  {
    TraceInOrder(b, r);
    StagesAreOrdered(FullTrace(b, r)[k], FullTrace(b, r)[j]);
  }

  /** The stages follow each other: starts, openings, ready, listener closes, service closes; and a
      listener opens, and ready is emitted, only after every service started without an error. */
  lemma StagesInOrder(b: Bundle, r: Report)
    requires Complete(b, r)
    ensures InStageOrder(FullTrace(b, r))
    ensures forall k | 0 <= k < |FullTrace(b, r)| && 1 <= Stage(FullTrace(b, r)[k]) <= 2 ::
      Starts(|b.services|) <= FullTrace(b, r)
  {
    TraceInOrder(b, r);
    forall k | 0 <= k < |FullTrace(b, r)| && 1 <= Stage(FullTrace(b, r)[k]) <= 2
      ensures Starts(|b.services|) <= FullTrace(b, r)
    {
      StartupOpensAfterAll(b, r, k);
    }
  }

  lemma TraceInOrder(b: Bundle, r: Report)
    requires Complete(b, r)
    ensures InStageOrder(FullTrace(b, r))
  {
    var startup, ready := StartupTrace(b, r.startup), if r.ready then [Ready] else [];
    var closes, stops := ListenerCloses(r.listenerErrs), ServiceCloses(|b.services|, r.serviceErrs);
    StartupStage(b, r.startup);
    ListenerClosesStage(r.listenerErrs);
    ServiceClosesStage(|b.services|, r.serviceErrs);
    OrderConcat(startup, ready, 0, 2, 2);
    OrderConcat(closes, stops, 3, 4, 4);
    OrderConcat(startup + ready, closes + stops, 0, 3, 4);
  }

  lemma StartupOpensAfterAll(b: Bundle, r: Report, k: nat)
    requires Complete(b, r) && k < |FullTrace(b, r)| && 1 <= Stage(FullTrace(b, r)[k]) <= 2
    ensures Starts(|b.services|) <= StartupTrace(b, r.startup)
  {
    StartupStage(b, r.startup);
    ListenerClosesStage(r.listenerErrs);
    ServiceClosesStage(|b.services|, r.serviceErrs);
    var startup := StartupTrace(b, r.startup);
    if k < |startup| {
      assert FullTrace(b, r)[k] == startup[k];
      OpeningMeansAllStarted(b, r.startup, k);
    }
  }

  lemma NoReadyAtOtherStages(t: seq<Event>)
    requires forall k | 0 <= k < |t| :: Stage(t[k]) != 2
    ensures multiset(t)[Ready] == 0
  {
    assert Ready !in t;
  }

  lemma NoReadyBesides(b: Bundle, r: Report)
    requires Complete(b, r)
    ensures multiset(StartupTrace(b, r.startup))[Ready] == multiset(StopTrace(b, r))[Ready] == 0
  {
    StartupStage(b, r.startup);
    ListenerClosesStage(r.listenerErrs);
    ServiceClosesStage(|b.services|, r.serviceErrs);
    NoReadyAtOtherStages(StartupTrace(b, r.startup));
    NoReadyAtOtherStages(StopTrace(b, r));
  }

  /** bundle_ready is emitted at most once: exactly if everything started and the root was live, and
      then after every start and opening. */
  lemma ReadyAtMostOnce(b: Bundle, r: Report)
    requires Complete(b, r)
    ensures r.ready ==> Starts(|b.services|) + Opens(|b.listeners|) + [Ready] <= FullTrace(b, r)
    ensures multiset(FullTrace(b, r))[Ready] == if r.startup.AllUp? && r.examined.None? then 1 else 0
  {
    NoReadyBesides(b, r);
  }
}

/**
  The two network transports. The coordinator app only initializes them, through a wrapper whose Run
  and Close do nothing; the bundle runs and closes the real ones as listeners. Upstream, starting
  or closing an app makes calls on components of that app, in whatever order and number, its own
  cleanup after a failed start included; nothing more is assumed of it.
 */
module Transports {
  import opened GoErrors
  import opened Services
  import opened ServiceTraces

  /** A registered component: no transport, a transport itself, or one behind deferredTransport. */
  datatype Component = Plain | Direct(t: nat) | Deferred(t: nat)

  datatype Op = Init | Run | Close

  datatype Call = Call(component: Component, op: Op)

  /** What can be observed: calls that reach a real transport, and services starting and closing. */
  datatype Effect = Inits(t: nat) | Runs(t: nat) | Closes(t: nat) | Outer(event: Event)

  /** Which components each service's app holds, and which transport each listener is. */
  datatype Wiring = Wiring(services: seq<seq<Component>>, listeners: seq<nat>)

  function OnTransport(t: nat, op: Op): seq<Effect> {
    match op
    case Init => [Inits(t)]
    case Run => [Runs(t)]
    case Close => [Closes(t)]
  }

  /** deferredTransport embeds the transport and replaces its Run and Close. */
  function CallEffects(c: Call): seq<Effect> {
    match c.component
    case Plain => []
    case Direct(t) => OnTransport(t, c.op)
    case Deferred(t) => if c.op.Init? then [Inits(t)] else []
  }

  function CallsEffects(calls: seq<Call>): seq<Effect> {
    if calls == [] then [] else CallEffects(calls[0]) + CallsEffects(calls[1..])
  }

  /** The effects of one event of the services' trace; `calls` is what the app did within it. A
      service has started after those calls, and is closing before them. */
  function EventEffects(w: Wiring, e: Event, calls: seq<Call>): seq<Effect> {
    match e
    case ServiceStarted(_, _) => CallsEffects(calls) + [Outer(e)]
    case ServiceClosed(_, _) => [Outer(e)] + CallsEffects(calls)
    case ListenerOpened(i, _) => if i < |w.listeners| then [Runs(w.listeners[i])] else []
    case ListenerClosed(i, _) => if i < |w.listeners| then [Closes(w.listeners[i])] else []
    case _ => []
  }

  function Stream(w: Wiring, t: seq<Event>, calls: seq<seq<Call>>): seq<Effect>
    requires |calls| == |t|
  {
    if t == [] then []
    else Stream(w, t[..|t| - 1], calls[..|t| - 1]) + EventEffects(w, t[|t| - 1], calls[|t| - 1])
  }

  /** The components an event may call. */
  function Callable(w: Wiring, e: Event): seq<Component> {
    match e
    case ServiceStarted(i, _) => if i < |w.services| then w.services[i] else []
    case ServiceClosed(i, _) => if i < |w.services| then w.services[i] else []
    case _ => []
  }

  ghost predicate Allowed(w: Wiring, t: seq<Event>, calls: seq<seq<Call>>) {
    |calls| == |t| && forall k | 0 <= k < |t| :: forall c | c in calls[k] :: c.component in Callable(w, t[k])
  }

  /** Everything but initialization. */
  function Visible(s: seq<Effect>): seq<Effect> {
    if s == [] then [] else (if s[0].Inits? then [] else [s[0]]) + Visible(s[1..])
  }

  /** What should be visible: services starting and closing, and each listener event as the one
      run or close of its transport. */
  function Ideal(w: Wiring, t: seq<Event>): seq<Effect> {
    if t == [] then [] else Ideal(w, t[..|t| - 1]) + EventEffects(w, t[|t| - 1], [])
  }

  ghost predicate NoDirect(cs: seq<Component>) {
    forall c | c in cs :: !c.Direct?
  }

  // ---------------------------------------------------------------- deferral is exactly right

  lemma {:induction false} VisibleConcat(a: seq<Effect>, b: seq<Effect>)
    ensures Visible(a + b) == Visible(a) + Visible(b)
  {
    if a == [] {
      assert a + b == b;
    } else {
      assert (a + b)[1..] == a[1..] + b;
      VisibleConcat(a[1..], b);
    }
  }

  lemma {:induction false} DeferredCallsInvisible(calls: seq<Call>)
    requires forall c | c in calls :: !c.component.Direct?
    ensures Visible(CallsEffects(calls)) == []
  {
    if calls == [] {
    } else {
      assert calls[0] in calls;
      DeferredCallsInvisible(calls[1..]);
      VisibleConcat(CallEffects(calls[0]), CallsEffects(calls[1..]));
    }
  }

  lemma EventInvisibleCalls(w: Wiring, e: Event, calls: seq<Call>)
    requires NoDirect(Callable(w, e)) && forall c | c in calls :: c.component in Callable(w, e)
    ensures Visible(EventEffects(w, e, calls)) == EventEffects(w, e, [])
  {
    DeferredCallsInvisible(calls);
    if e.ServiceStarted? {
      VisibleConcat(CallsEffects(calls), [Outer(e)]);
    } else if e.ServiceClosed? {
      VisibleConcat([Outer(e)], CallsEffects(calls));
    }
  }

  lemma {:induction false} DeferralHides(w: Wiring, t: seq<Event>, calls: seq<seq<Call>>)
    requires Allowed(w, t, calls) && forall k | 0 <= k < |t| :: NoDirect(Callable(w, t[k]))
    ensures Visible(Stream(w, t, calls)) == Ideal(w, t)
  {
    if t == [] {
    } else {
      var last := |t| - 1;
      DeferralHides(w, t[..last], calls[..last]);
      EventInvisibleCalls(w, t[last], calls[last]);
      VisibleConcat(Stream(w, t[..last], calls[..last]), EventEffects(w, t[last], calls[last]));
    }
  }

  /** A trace in which the app of event k runs one of its components, and makes no other call. */
  function OneRun(n: nat, k: nat, c: Component): seq<seq<Call>>
    requires k < n
  {
    seq(n, i => if i == k then [Call(c, Run)] else [])
  }

  lemma EventVisible(w: Wiring, e: Event)
    ensures Visible(EventEffects(w, e, [])) == EventEffects(w, e, [])
  {
  }

  ghost predicate Quiet(calls: seq<seq<Call>>) {
    forall k | 0 <= k < |calls| :: calls[k] == []
  }

  /** Apps that make no calls leave the ideal stream. */
  lemma {:induction false} QuietStream(w: Wiring, t: seq<Event>, calls: seq<seq<Call>>)
    requires |calls| == |t| && Quiet(calls)
    ensures Visible(Stream(w, t, calls)) == Ideal(w, t)
  {
    if t == [] {
    } else {
      var last := |t| - 1;
      QuietStream(w, t[..last], calls[..last]);
      EventVisible(w, t[last]);
      VisibleConcat(Stream(w, t[..last], calls[..last]), EventEffects(w, t[last], []));
    }
  }

  /** One run of a directly held transport is seen. */
  lemma DirectEventShows(w: Wiring, e: Event, c: Component)
    requires c.Direct? && c in Callable(w, e)
    ensures |Visible(EventEffects(w, e, [Call(c, Run)]))| == |EventEffects(w, e, [])| + 1
  {
    assert CallsEffects([Call(c, Run)]) == [Runs(c.t)];
    VisibleConcat([Runs(c.t)], [Outer(e)]);
    VisibleConcat([Outer(e)], [Runs(c.t)]);
  }

  lemma OneRunLast(n: nat, c: Component)
    requires 0 < n
    ensures OneRun(n, n - 1, c)[n - 1] == [Call(c, Run)]
    ensures Quiet(OneRun(n, n - 1, c)[..n - 1])
  {
  }

  lemma OneRunBefore(n: nat, k: nat, c: Component)
    requires k < n - 1
    ensures OneRun(n, k, c)[n - 1] == []
    ensures OneRun(n, k, c)[..n - 1] == OneRun(n - 1, k, c)
  {
  }

  /** How much is visible, the last event apart. */
  lemma VisibleLast(w: Wiring, t: seq<Event>, calls: seq<seq<Call>>)
    requires |calls| == |t| > 0
    ensures |Visible(Stream(w, t, calls))| ==
      |Visible(Stream(w, t[..|t| - 1], calls[..|t| - 1]))|
      + |Visible(EventEffects(w, t[|t| - 1], calls[|t| - 1]))|
  {
    var last := |t| - 1;
    VisibleConcat(Stream(w, t[..last], calls[..last]), EventEffects(w, t[last], calls[last]));
  }

  lemma IdealLast(w: Wiring, t: seq<Event>)
    requires |t| > 0
    ensures |Ideal(w, t)| == |Ideal(w, t[..|t| - 1])| + |Visible(EventEffects(w, t[|t| - 1], []))|
  {
    EventVisible(w, t[|t| - 1]);
  }

  lemma {:induction false} DirectShows(w: Wiring, t: seq<Event>, k: nat, c: Component)
    requires k < |t| && c.Direct? && c in Callable(w, t[k])
    ensures |Visible(Stream(w, t, OneRun(|t|, k, c)))| == |Ideal(w, t)| + 1
  {
    var calls, last := OneRun(|t|, k, c), |t| - 1;
    VisibleLast(w, t, calls);
    IdealLast(w, t);
    if k == last {
      OneRunLast(|t|, c);
      QuietStream(w, t[..last], calls[..last]);
      EventVisible(w, t[last]);
      DirectEventShows(w, t[last], c);
    } else {
      OneRunBefore(|t|, k, c);
      DirectShows(w, t[..last], k, c);
    }
  }

  /** For every trace: whatever the apps do, only the bundle's own listener calls run and close real
      transports, if and only if no app in it holds a transport directly. */
  lemma DeferralIsExact(w: Wiring, t: seq<Event>)
    ensures (forall calls | Allowed(w, t, calls) :: Visible(Stream(w, t, calls)) == Ideal(w, t))
      <==> (forall k | 0 <= k < |t| :: NoDirect(Callable(w, t[k])))
  {
    if forall k | 0 <= k < |t| :: NoDirect(Callable(w, t[k])) {
      forall calls | Allowed(w, t, calls) ensures Visible(Stream(w, t, calls)) == Ideal(w, t) {
        DeferralHides(w, t, calls);
      }
    } else {
      var k :| 0 <= k < |t| && !NoDirect(Callable(w, t[k]));
      var c :| c in Callable(w, t[k]) && c.Direct?;
      DirectShows(w, t, k, c);
      assert Allowed(w, t, OneRun(|t|, k, c));
    }
  }

  // ---------------------------------------------------------------- the life of a transport

  function OneOfTransport(e: Effect, t: nat): seq<Effect> {
    if e == Runs(t) || e == Closes(t) then [e] else []
  }

  function OfTransport(s: seq<Effect>, t: nat): seq<Effect> {
    if s == [] then []
    else OfTransport(s[..|s| - 1], t) + OneOfTransport(s[|s| - 1], t)
  }

  lemma OfTransportAppend(s: seq<Effect>, e: Effect, t: nat)
    ensures OfTransport(s + [e], t) == OfTransport(s, t) + OneOfTransport(e, t)
  {
    assert (s + [e])[..|s|] == s;
  }

  ghost predicate Distinct(xs: seq<nat>) {
    forall j, k | 0 <= j < k < |xs| :: xs[j] != xs[k]
  }

  /** One more effect, which concerns the transport or does not. */
  lemma OneEffect(s: seq<Effect>, effects: seq<Effect>, e: Effect, t: nat)
    requires effects == [e]
    ensures OfTransport(s + effects, t) ==
      OfTransport(s, t) + if e == Runs(t) || e == Closes(t) then effects else []
  {
    OfTransportAppend(s, e, t);
  }

  lemma NoEffect(s: seq<Effect>, effects: seq<Effect>, t: nat)
    requires effects == []
    ensures OfTransport(s + effects, t) == OfTransport(s, t) + []
  {
    assert s + effects == s;
  }

  lemma ServiceEventAlone(w: Wiring, e: Event)
    requires e.ServiceStarted? || e.ServiceClosed?
    ensures EventEffects(w, e, []) == [Outer(e)]
  {
  }

  lemma ListenerEventOfTransport(w: Wiring, s: seq<Effect>, e: Event, i: nat)
    requires i < |w.listeners| && Distinct(w.listeners) && (e.ListenerOpened? || e.ListenerClosed?)
    ensures OfTransport(s + EventEffects(w, e, []), w.listeners[i]) ==
      OfTransport(s, w.listeners[i]) + if e.i == i then EventEffects(w, e, []) else []
  {
    if e.i >= |w.listeners| {
      NoEffect(s, EventEffects(w, e, []), w.listeners[i]);
    } else {
      var t := w.listeners[e.i];
      OneEffect(s, EventEffects(w, e, []), if e.ListenerOpened? then Runs(t) else Closes(t), w.listeners[i]);
    }
  }

  lemma EventOfTransport(w: Wiring, s: seq<Effect>, e: Event, i: nat)
    requires i < |w.listeners| && Distinct(w.listeners)
    ensures OfTransport(s + EventEffects(w, e, []), w.listeners[i]) ==
      OfTransport(s, w.listeners[i]) + if Concerns(e, Listener(i)) then EventEffects(w, e, []) else []
  {
    if e.ListenerOpened? || e.ListenerClosed? {
      ListenerEventOfTransport(w, s, e, i);
    } else if e.ServiceStarted? || e.ServiceClosed? {
      ServiceEventAlone(w, e);
      OneEffect(s, EventEffects(w, e, []), Outer(e), w.listeners[i]);
    } else {
      NoEffect(s, EventEffects(w, e, []), w.listeners[i]);
    }
  }

  lemma IdealAppend(w: Wiring, t: seq<Event>, e: Event)
    ensures Ideal(w, t + [e]) == Ideal(w, t) + EventEffects(w, e, [])
  {
    assert (t + [e])[..|t|] == t;
  }

  /** The ideal stream shows of a transport exactly its listener's events. */
  lemma {:induction false} TransportIsItsListener(w: Wiring, t: seq<Event>, i: nat)
    requires i < |w.listeners| && Distinct(w.listeners)
    ensures OfTransport(Ideal(w, t), w.listeners[i]) == Ideal(w, Of(t, Listener(i)))
  {
    if t == [] {
    } else {
      var last := |t| - 1;
      TransportIsItsListener(w, t[..last], i);
      EventOfTransport(w, Ideal(w, t[..last]), t[last], i);
      if Concerns(t[last], Listener(i)) {
        IdealAppend(w, Of(t[..last], Listener(i)), t[last]);
      } else {
        assert Of(t, Listener(i)) == Of(t[..last], Listener(i));
      }
    }
  }

  function EffectStage(e: Effect): nat {
    match e
    case Inits(_) => 0
    case Runs(_) => 1
    case Closes(_) => 3
    case Outer(event) => Stage(event)
  }

  ghost predicate EffectsInOrder(s: seq<Effect>) {
    forall j, k | 0 <= j < k < |s| :: EffectStage(s[j]) <= EffectStage(s[k])
  }

  lemma {:induction false} IdealInOrder(w: Wiring, t: seq<Event>, bound: nat)
    requires InStageOrder(t) && forall k | 0 <= k < |t| :: Stage(t[k]) <= bound
    ensures EffectsInOrder(Ideal(w, t)) && forall k | 0 <= k < |Ideal(w, t)| :: EffectStage(Ideal(w, t)[k]) <= bound
  {
    if t == [] {
    } else {
      var last := |t| - 1;
      IdealInOrder(w, t[..last], Stage(t[last]));
    }
  }

  /** The wiring belongs to the bundle and defers every transport. */
  ghost predicate WellWired(w: Wiring, b: Bundle) {
    && |w.services| == |b.services| && |w.listeners| == |b.listeners| && Distinct(w.listeners)
    && forall i | 0 <= i < |w.services| :: NoDirect(w.services[i])
  }

  lemma SeenIsIdeal(w: Wiring, b: Bundle, t: seq<Event>, calls: seq<seq<Call>>)
    requires WellWired(w, b) && Allowed(w, t, calls)
    ensures Visible(Stream(w, t, calls)) == Ideal(w, t)
  {
    forall k | 0 <= k < |t| ensures NoDirect(Callable(w, t[k])) {}
    DeferralHides(w, t, calls);
  }

  lemma ListenerLife(w: Wiring, b: Bundle, r: Report, i: nat)
    requires WellWired(w, b) && Complete(b, r) && i < |b.listeners|
    ensures OfTransport(Ideal(w, FullTrace(b, r)), w.listeners[i]) ==
      (if OpenOf(r.startup, i) == [] then [] else [Runs(w.listeners[i])]) + [Closes(w.listeners[i])]
  {
    TransportIsItsListener(w, FullTrace(b, r), i);
    ListenerClosesOnce(b, r, i);
    ListenerEventsIdeal(w, OpenOf(r.startup, i), ListenerClosed(i, r.listenerErrs[i]), i);
  }

  lemma FullTraceIdealInOrder(w: Wiring, b: Bundle, r: Report)
    requires Complete(b, r)
    ensures EffectsInOrder(Ideal(w, FullTrace(b, r)))
  {
    StagesInOrder(b, r);
    forall k | 0 <= k < |FullTrace(b, r)| ensures Stage(FullTrace(b, r)[k]) <= 5 {}
    IdealInOrder(w, FullTrace(b, r), 5);
  }

  /** In every run of the services, whatever the apps do: each real transport runs at most once,
      when its listener is opened, and closes exactly once; all runs come after every service
      start, and all closes before any service close. */
  lemma TransportLife(w: Wiring, b: Bundle, r: Report, calls: seq<seq<Call>>, i: nat)
    requires WellWired(w, b) && Complete(b, r) && i < |b.listeners|
    requires Allowed(w, FullTrace(b, r), calls)
    ensures var seen := Visible(Stream(w, FullTrace(b, r), calls));
      && OfTransport(seen, w.listeners[i]) ==
           (if OpenOf(r.startup, i) == [] then [] else [Runs(w.listeners[i])]) + [Closes(w.listeners[i])]
      && EffectsInOrder(seen)
  {
    SeenIsIdeal(w, b, FullTrace(b, r), calls);
    ListenerLife(w, b, r, i);
    FullTraceIdealInOrder(w, b, r);
  }

  /** The order of what is seen, said of the effects themselves: no start of a service after a transport
      has run, no run after a close, and neither once a service is closing. */
  lemma TransportOrder(w: Wiring, b: Bundle, r: Report, calls: seq<seq<Call>>, j: nat, k: nat)
    requires WellWired(w, b) && Complete(b, r) && Allowed(w, FullTrace(b, r), calls)
    requires j < k < |Visible(Stream(w, FullTrace(b, r), calls))|
    ensures var seen := Visible(Stream(w, FullTrace(b, r), calls));
      && (seen[j].Runs? ==> !(seen[k].Outer? && seen[k].event.ServiceStarted?))
      && (seen[j].Closes? ==> !seen[k].Runs? && !(seen[k].Outer? && seen[k].event.ServiceStarted?))
      && (seen[j].Outer? && seen[j].event.ServiceClosed? ==> !seen[k].Runs? && !seen[k].Closes?)
  {
    SeenIsIdeal(w, b, FullTrace(b, r), calls);
    FullTraceIdealInOrder(w, b, r);
  }

  lemma ListenerEventsIdeal(w: Wiring, opens: seq<Event>, close: Event, i: nat)
    requires i < |w.listeners| && close.ListenerClosed? && close.i == i
    requires opens == [] || exists err :: opens == [ListenerOpened(i, err)]
    ensures Ideal(w, opens + [close]) ==
      (if opens == [] then [] else [Runs(w.listeners[i])]) + [Closes(w.listeners[i])]
  {
    assert (opens + [close])[..|opens|] == opens;
    if opens != [] {
      assert Ideal(w, opens) == Ideal(w, []) + [Runs(w.listeners[i])] by {
        assert opens[..0] == [];
      }
    }
  }

  // ---------------------------------------------------------------- NewBundle

  function Plains(n: nat): seq<Component> {
    seq(n, _ => Plain)
  }

  /** NewBundle: tcp is transport 0 and udp transport 1. */
  function NewWiring(): Wiring {
    Wiring([Plains(24) + [Deferred(0), Deferred(1)], Plains(6), Plains(8), Plains(28)], [0, 1])
  }

  function NewBundle(): Bundle {
    Bundle(["coordinator", "consensus", "filenode", "sync"], ["yamux", "quic"])
  }

  /** The services start coordinator first and the sync node last. Only the coordinator holds transports,
      each once, and starting it can initialize both, but not run them. */
  lemma CoordinatorHoldsTransports(t: nat)
    ensures NewBundle().services == ["coordinator", "consensus", "filenode", "sync"]
    ensures NewBundle().listeners == ["yamux", "quic"]
    ensures forall c | c in NewWiring().services[0] && c != Plain :: c == Deferred(0) || c == Deferred(1)
    ensures multiset(NewWiring().services[0])[Deferred(0)] == multiset(NewWiring().services[0])[Deferred(1)] == 1
    ensures forall i | 1 <= i < 4 :: forall c | c in NewWiring().services[i] :: c == Plain
    ensures CallEffects(Call(Deferred(t), Init)) == [Inits(t)]
    ensures CallEffects(Call(Deferred(t), Run)) == CallEffects(Call(Deferred(t), Close)) == []
  {
    var plains := Plains(24);
    assert NewWiring().services[0] == plains + [Deferred(0), Deferred(1)];
    assert Deferred(0) !in plains && Deferred(1) !in plains;
    assert multiset(plains)[Deferred(0)] == multiset(plains)[Deferred(1)] == 0;
    assert multiset(NewWiring().services[0]) == multiset(plains) + multiset([Deferred(0), Deferred(1)]);
  }

  /** The bundle the program builds defers both its transports. */
  lemma NewBundleIsWellWired()
    ensures WellWired(NewWiring(), NewBundle())
  {
    assert forall i | 0 <= i < 4 :: NoDirect(NewWiring().services[i]);
  }
}

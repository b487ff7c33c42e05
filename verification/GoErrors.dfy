/**
  Go error values as trees, with the three operations the program asks of them:
  `errors.Is`, `errors.AsType[*exec.ExitError]` and `errors.Join`. A Go error variable
  that may be nil is an `Option<Error>`.
 */
module GoErrors {
  datatype Option<+T> = None | Some(value: T)

  datatype WaitStatus = Exited(code: int) | Signaled(signal: int)

  const SIGKILL := 9
  const SIGTERM := 15

  datatype Error =
    | Canceled                                     // context.Canceled
    | DeadlineExceeded                             // context.DeadlineExceeded
    | ProcessDone                                  // os.ErrProcessDone
    | Opaque(text: string)                         // any other leaf
    | SignalReceived(signal: int)                  // the cause os/signal.NotifyContext records
    | ExitError(sys: Option<WaitStatus>)           // *exec.ExitError; None: Sys() is no WaitStatus
    | Wrapped(text: string, inner: Error)          // fmt.Errorf with %w
    | InfraExit(name: string, err: Option<Error>)  // infraExitError
    | MongoAVX(cause: Error)                       // *MongoAVXError
    | Joined(errs: seq<Error>)                     // errors.Join

  /** `errors.Is`: a signal cause matches context.Canceled by its own Is method. */
  predicate Is(e: Error, target: Error) {
    || e == target
    || (e.SignalReceived? && target == Canceled)
    || match e
       case Wrapped(_, inner) => Is(inner, target)
       case InfraExit(_, Some(inner)) => Is(inner, target)
       case MongoAVX(inner) => Is(inner, target)
       case Joined(errs) => exists x | x in errs :: Is(x, target)
       case _ => false
  }

  predicate IsErr(e: Option<Error>, target: Error) {
    e.Some? && Is(e.value, target)
  }

  /** `errors.AsType[*exec.ExitError]`: the first exit error of a depth-first walk. */
  function FindExit(e: Error): Option<Error> {
    match e
    case ExitError(_) => Some(e)
    case Wrapped(_, inner) => FindExit(inner)
    case InfraExit(_, Some(inner)) => FindExit(inner)
    case MongoAVX(inner) => FindExit(inner)
    case Joined(errs) => FindExitIn(errs)
    case _ => None
  }

  function FindExitIn(errs: seq<Error>): Option<Error> {
    if errs == [] then None
    else
      var first := FindExit(errs[0]);
      if first.Some? then first else FindExitIn(errs[1..])
  }

  /** The non-nil members, in order. */
  function Present(errs: seq<Option<Error>>): seq<Error> {
    if errs == [] then []
    else if errs[0].None? then Present(errs[1..])
    else [errs[0].value] + Present(errs[1..])
  }

  lemma PresentHead(a: seq<Option<Error>>, b: seq<Option<Error>>, rest: seq<Error>, more: seq<Error>)
    requires a != [] && Present(a[1..]) == rest && Present(a[1..] + b) == rest + more
    ensures Present(a + b) == Present(a) + more
  {
    assert (a + b)[1..] == a[1..] + b;
    if a[0].Some? {
      assert [a[0].value] + rest + more == [a[0].value] + (rest + more);
    }
  }

  lemma {:induction false} PresentConcat(a: seq<Option<Error>>, b: seq<Option<Error>>)
    ensures Present(a + b) == Present(a) + Present(b)
  {
    if a == [] {
      assert a + b == b;
    } else {
      PresentConcat(a[1..], b);
      PresentHead(a, b, Present(a[1..]), Present(b));
    }
  }

  lemma {:induction false} PresentMembers(errs: seq<Option<Error>>, e: Error)
    ensures e in Present(errs) <==> Some(e) in errs
  {
    if errs == [] {
    } else {
      PresentMembers(errs[1..], e);
      assert errs == [errs[0]] + errs[1..];
    }
  }

  /** `errors.Join`: nil members are dropped, and a join of nothing is nil. */
  function Join(errs: seq<Option<Error>>): Option<Error> {
    var present := Present(errs);
    if present == [] then None else Some(Joined(present))
  }

  /** A join is nil exactly when every member is, and matches a target exactly when a member does. */
  lemma JoinMeaning(errs: seq<Option<Error>>, target: Error)
    requires !target.Joined?
    ensures Join(errs).None? <==> forall k | 0 <= k < |errs| :: errs[k].None?
    ensures IsErr(Join(errs), target) <==> exists k | 0 <= k < |errs| :: IsErr(errs[k], target)
  {
    forall e: Error ensures e in Present(errs) <==> Some(e) in errs {
      PresentMembers(errs, e);
    }
    if k :| 0 <= k < |errs| && errs[k].Some? {
      assert errs[k].value in Present(errs);
    }
    if Present(errs) != [] {
      assert Present(errs)[0] in Present(errs);
    }
  }

  // ---------------------------------------------------------------- what these walks find

  /** The nodes of an error, parents first, left to right. */
  function Tree(e: Error): seq<Error>
    decreases e, 0
  {
    [e] + match e
          case Wrapped(_, inner) => Tree(inner)
          case InfraExit(_, Some(inner)) => Tree(inner)
          case MongoAVX(inner) => Tree(inner)
          case Joined(errs) => Trees(errs)
          case _ => []
  }

  function Trees(errs: seq<Error>): seq<Error>
    decreases errs, 0
  {
    if errs == [] then [] else Tree(errs[0]) + Trees(errs[1..])
  }

  /** A node that answers for a target: the target itself, or a signal's cause for context.Canceled. */
  predicate Hits(node: Error, target: Error) {
    node == target || (node.SignalReceived? && target == Canceled)
  }

  ghost predicate AnyHits(nodes: seq<Error>, target: Error) {
    exists k | 0 <= k < |nodes| :: Hits(nodes[k], target)
  }

  lemma AnyHitsConcat(a: seq<Error>, b: seq<Error>, target: Error)
    ensures AnyHits(a + b, target) <==> AnyHits(a, target) || AnyHits(b, target)
  {
    assert forall k | 0 <= k < |a| :: (a + b)[k] == a[k];
    assert forall k | 0 <= k < |b| :: (a + b)[|a| + k] == b[k];
  }

  /** `errors.Is` is true exactly if some node answers. */
  lemma {:induction false} IsMeansSomeNode(e: Error, target: Error)
    ensures Is(e, target) <==> AnyHits(Tree(e), target)
    decreases e, 0
  {
    assert AnyHits([e], target) <==> Hits(e, target) by {
      assert [e][0] == e;
    }
    match e
    case Wrapped(_, inner) => IsMeansSomeNode(inner, target); AnyHitsConcat([e], Tree(inner), target);
    case InfraExit(_, Some(inner)) => IsMeansSomeNode(inner, target); AnyHitsConcat([e], Tree(inner), target);
    case MongoAVX(inner) => IsMeansSomeNode(inner, target); AnyHitsConcat([e], Tree(inner), target);
    case Joined(errs) => SomeMemberHits(errs, target); AnyHitsConcat([e], Trees(errs), target);
    case _ => AnyHitsConcat([e], [], target);
  }

  lemma {:induction false} SomeMemberHits(errs: seq<Error>, target: Error)
    ensures (exists x | x in errs :: Is(x, target)) <==> AnyHits(Trees(errs), target)
    decreases errs, 0
  {
    if errs == [] {
    } else {
      IsMeansSomeNode(errs[0], target);
      SomeMemberHits(errs[1..], target);
      AnyHitsConcat(Tree(errs[0]), Trees(errs[1..]), target);
      assert errs == [errs[0]] + errs[1..];
    }
  }

  /** The first exit error in a list of nodes. */
  predicate IsFirstExit(found: Option<Error>, nodes: seq<Error>) {
    match found
    case None => forall k | 0 <= k < |nodes| :: !nodes[k].ExitError?
    case Some(exit) =>
      exists k | 0 <= k < |nodes| ::
        && nodes[k] == exit && exit.ExitError?
        && forall j | 0 <= j < k :: !nodes[j].ExitError?
  }

  lemma FirstExitConcat(a: seq<Error>, b: seq<Error>, inA: Option<Error>, inB: Option<Error>)
    requires IsFirstExit(inA, a) && IsFirstExit(inB, b)
    ensures IsFirstExit(if inA.Some? then inA else inB, a + b)
  {
    if inA.Some? {
      var k :| 0 <= k < |a| && a[k] == inA.value && forall j | 0 <= j < k :: !a[j].ExitError?;
      assert (a + b)[k] == inA.value && forall j | 0 <= j < k :: (a + b)[j] == a[j];
    } else if inB.Some? {
      var k :| 0 <= k < |b| && b[k] == inB.value && forall j | 0 <= j < k :: !b[j].ExitError?;
      assert (a + b)[|a| + k] == inB.value;
    }
  }

  lemma FirstExitUnique(a: Option<Error>, b: Option<Error>, nodes: seq<Error>)
    requires IsFirstExit(a, nodes) && IsFirstExit(b, nodes)
    ensures a == b
  {
  }

  /** `errors.AsType[*exec.ExitError]` finds the first exit error of the tree, and none exactly if there
      is none. */
  lemma {:induction false} FindExitIsFirst(e: Error)
    ensures IsFirstExit(FindExit(e), Tree(e))
    decreases e, 0
  {
    match e
    case ExitError(_) => assert Tree(e)[0] == e;
    case Wrapped(_, inner) => FindExitIsFirst(inner); FirstExitBelow(e, Tree(inner), FindExit(e));
    case InfraExit(_, Some(inner)) => FindExitIsFirst(inner); FirstExitBelow(e, Tree(inner), FindExit(e));
    case MongoAVX(inner) => FindExitIsFirst(inner); FirstExitBelow(e, Tree(inner), FindExit(e));
    case Joined(errs) => FindExitInIsFirst(errs); FirstExitBelow(e, Trees(errs), FindExit(e));
    case _ =>
  }

  lemma FirstExitBelow(e: Error, below: seq<Error>, found: Option<Error>)
    requires !e.ExitError? && IsFirstExit(found, below)
    ensures IsFirstExit(found, [e] + below)
  {
    assert IsFirstExit(None, [e]);
    FirstExitConcat([e], below, None, found);
  }

  lemma {:induction false} FindExitInIsFirst(errs: seq<Error>)
    ensures IsFirstExit(FindExitIn(errs), Trees(errs))
    decreases errs, 0
  {
    if errs == [] {
    } else {
      FindExitIsFirst(errs[0]);
      FindExitInIsFirst(errs[1..]);
      FirstExitConcat(Tree(errs[0]), Trees(errs[1..]), FindExit(errs[0]), FindExitIn(errs[1..]));
    }
  }

  // ---------------------------------------------------------------- errors made of others

  /** A cause, as opposed to what is put around one. */
  predicate IsCause(target: Error) {
    !target.Wrapped? && !target.Joined? && !target.InfraExit? && !target.MongoAVX?
  }

  ghost predicate AnyIs(errs: seq<Option<Error>>, target: Error) {
    exists k | 0 <= k < |errs| :: IsErr(errs[k], target)
  }

  lemma AnyIsConcat(a: seq<Option<Error>>, b: seq<Option<Error>>, target: Error)
    ensures AnyIs(a + b, target) <==> AnyIs(a, target) || AnyIs(b, target)
  {
    assert forall k | 0 <= k < |a| :: (a + b)[k] == a[k];
    assert forall k | 0 <= k < |b| :: (a + b)[|a| + k] == b[k];
  }

  /** err is nil exactly if all these are, and matches a cause exactly if one of them does. */
  ghost predicate Carries(err: Option<Error>, causes: seq<Option<Error>>) {
    && (err.None? <==> forall k | 0 <= k < |causes| :: causes[k].None?)
    && forall target | IsCause(target) :: IsErr(err, target) <==> AnyIs(causes, target)
  }

  /** Annotating each error of a list keeps what it carries. */
  ghost predicate SameCauses(errs: seq<Option<Error>>, causes: seq<Option<Error>>) {
    && |errs| == |causes|
    && forall k | 0 <= k < |errs| :: SameCause(errs[k], causes[k])
  }

  ghost predicate SameCause(err: Option<Error>, cause: Option<Error>) {
    && (err.None? <==> cause.None?)
    && forall target | IsCause(target) :: IsErr(err, target) <==> IsErr(cause, target)
  }

  lemma JoinCarries(errs: seq<Option<Error>>, causes: seq<Option<Error>>)
    requires SameCauses(errs, causes)
    ensures Carries(Join(errs), causes)
  {
    JoinMeaning(errs, Canceled);
    assert forall k | 0 <= k < |errs| :: SameCause(errs[k], causes[k]);
    forall target | IsCause(target)
      ensures IsErr(Join(errs), target) <==> AnyIs(causes, target)
    {
      JoinMeaning(errs, target);
      assert forall k | 0 <= k < |errs| :: IsErr(errs[k], target) <==> IsErr(causes[k], target);
    }
  }

  /** A join of two errors carries what both carry. */
  lemma JoinOfCarriers(a: Option<Error>, ones: seq<Option<Error>>, b: Option<Error>, others: seq<Option<Error>>)
    requires Carries(a, ones) && Carries(b, others)
    ensures Carries(Join([a, b]), ones + others)
  {
    var parts, all := [a, b], ones + others;
    JoinMeaning(parts, Canceled);
    assert parts[0] == a && parts[1] == b;
    assert (forall k | 0 <= k < |all| :: all[k].None?) <==> a.None? && b.None? by {
      assert forall k | 0 <= k < |ones| :: all[k] == ones[k];
      assert forall k | 0 <= k < |others| :: all[|ones| + k] == others[k];
    }
    forall target | IsCause(target)
      ensures IsErr(Join(parts), target) <==> AnyIs(all, target)
    {
      JoinMeaning(parts, target);
      AnyIsConcat(ones, others, target);
    }
  }
}

/**
 kubox services: a namespaced leaf (a handler bound to a namespace), the
 unit service, and the pair that runs a newly registered service next to
 everything registered before it. Running a service checks its preflight
 and yields either a task (the watch loops it will drive) or an aggregate
 startup error that says which side failed.
 */
module KuboxService {
  import opened KubeApi

  /** The handler closure of a namespaced service and the resource type it is typed over. */
  datatype Handler = Handler(resource: ResourceType, name: string)

  /** The `Scope` marker of a service: `()` for cluster scope, `String` for a namespace, tuples for pairs. */
  datatype Scope = ClusterScope | NamespaceScope | PairScope(newer: Scope, acc: Scope)

  /** A composed service: `()`, `(Arc<F>, Arc<String>)`, or `(Arc<newer>, Arc<acc>)`. */
  datatype Service =
    | Unit
    | Namespaced(handler: Handler, namespace: string)
    | Pair(newer: Service, acc: Service)

  /** Which side(s) of a pair failed to start. */
  datatype EitherOrBoth<+A, +B> = Left(left: A) | Right(right: B) | Both(left: A, right: B)

  /**
   The error type of a service: a leaf's own error built from a `kube::Error`
   (its `E::from`, taken to be a lossless wrapper), or a pair's aggregate. (The unit service's error type `()` is never produced.)
   */
  datatype ServiceError =
    | Kube(cause: KubeError)
    | Aggregate(sides: EitherOrBoth<ServiceError, ServiceError>)

  /**
   The future a successful run returns: already complete, one running watch
   loop, or the join of a pair's two tasks.
   */
  datatype Task =
    | Ready
    | Running(watch: Watch, handler: Handler)
    | Join(newer: Task, acc: Task)

  /** One running watch loop. */
  type Loop = (Watch, Handler)

  /** The fixed delay, in seconds, of a leaf's reconciler and of its error policy. */
  const LeafRequeueSecs: Duration := 60

  function ScopeOf(s: Service): Scope
  {
    match s
    case Unit => ClusterScope
    case Namespaced(_, _) => NamespaceScope
    case Pair(n, a) => PairScope(ScopeOf(n), ScopeOf(a))
  }

  /**
   The shapes that have a `Service` implementation: the leaf, the unit, and a
   pair whose newer side is a cluster-scoped service or a namespaced leaf and
   whose accumulated side is itself a service.
   */
  predicate WellTyped(s: Service)
  {
    match s
    case Unit => true
    case Namespaced(_, _) => true
    case Pair(n, a) => (ScopeOf(n) == ClusterScope || n.Namespaced?) && WellTyped(a)
  }

  /** The only cluster-scoped service the crate implements is the unit. */
  lemma ClusterScopedIsUnit(s: Service)
    requires ScopeOf(s) == ClusterScope
    ensures s == Unit
  {
  }

  /** The pairs' left children, from the outermost (latest) pair inwards. */
  function Spine(s: Service): seq<Service>
  {
    if s.Pair? then [s.newer] + Spine(s.acc) else []
  }

  /** What the chain of pairs ends in. */
  function Base(s: Service): Service
  {
    if s.Pair? then Base(s.acc) else s
  }

  /** The left child of a well-typed pair is the unit service or a namespaced leaf. */
  predicate UnitOrLeaf(s: Service)
  {
    s == Unit || s.Namespaced?
  }

  /**
   The shapes with a `Service` implementation are exactly the chains of pairs
   whose left children are all the unit or namespaced leaves.
   */
  lemma {:induction false} WellTypedIsChain(s: Service)
    ensures WellTyped(s) <==> (forall i :: 0 <= i < |Spine(s)| ==> UnitOrLeaf(Spine(s)[i]))
  {
    if s.Pair? {
      var n, a := s.newer, s.acc;
      WellTypedIsChain(a);
      var sp := Spine(s);
      assert sp == [n] + Spine(a);
      if ScopeOf(n) == ClusterScope {
        ClusterScopedIsUnit(n);
      }
      assert WellTyped(s) <==> UnitOrLeaf(n) && WellTyped(a);
      if forall i :: 0 <= i < |sp| ==> UnitOrLeaf(sp[i]) {
        assert UnitOrLeaf(sp[0]);
        forall i | 0 <= i < |Spine(a)| ensures UnitOrLeaf(Spine(a)[i]) {
          assert sp[i + 1] == Spine(a)[i];
        }
      }
      if UnitOrLeaf(n) && WellTyped(a) {
        forall i | 0 <= i < |sp| ensures UnitOrLeaf(sp[i]) {
          if i > 0 {
            assert sp[i] == Spine(a)[i - 1];
          }
        }
      }
    }
  }

  /** The namespaced leaves of a service, newer before accumulated. */
  function Leaves(s: Service): seq<(Handler, string)>
  {
    match s
    case Unit => []
    case Namespaced(h, ns) => [(h, ns)]
    case Pair(n, a) => Leaves(n) + Leaves(a)
  }

  /** The watch loops a task drives, newer before accumulated. */
  function Loops(t: Task): seq<Loop>
  {
    match t
    case Ready => []
    case Running(w, h) => [(w, h)]
    case Join(n, a) => Loops(n) + Loops(a)
  }

  /** The watch a leaf builds once its preflight passes: all objects of its type in its namespace. */
  function LeafLoop(leaf: (Handler, string)): Loop
  {
    (Watch(leaf.0.resource, leaf.1, DefaultListParams), leaf.0)
  }

  /** The watch loops of the given leaves, one per leaf, in the same order. */
  function LeafLoops(leaves: seq<(Handler, string)>): (loops: seq<Loop>)
    ensures |loops| == |leaves|
    ensures forall i :: 0 <= i < |leaves| ==> loops[i] == LeafLoop(leaves[i])
  {
    if leaves == [] then [] else [LeafLoop(leaves[0])] + LeafLoops(leaves[1..])
  }

  lemma LeafLoopsAppend(a: seq<(Handler, string)>, b: seq<(Handler, string)>)
    ensures LeafLoops(a + b) == LeafLoops(a) + LeafLoops(b)
  {
    assert forall i :: 0 <= i < |a| + |b| ==> (LeafLoops(a) + LeafLoops(b))[i] == LeafLoop((a + b)[i]);
  }

  /** The preflight of one leaf. */
  function LeafProbe(client: Client, leaf: (Handler, string)): Probe
  {
    Preflight(client, leaf.0.resource, leaf.1)
  }

  /** The preflight errors of the leaves that fail, in leaf order. */
  function FailedChecks(client: Client, leaves: seq<(Handler, string)>): seq<KubeError>
  {
    if leaves == [] then []
    else
      var p := LeafProbe(client, leaves[0]);
      (if p.outcome.Err? then [p.outcome.error] else []) + FailedChecks(client, leaves[1..])
  }

  /** The leaf errors an aggregate error carries, newer side first. */
  function Failures(e: ServiceError): seq<KubeError>
  {
    match e
    case Kube(k) => [k]
    case Aggregate(Left(l)) => Failures(l)
    case Aggregate(Right(r)) => Failures(r)
    case Aggregate(Both(l, r)) => Failures(l) + Failures(r)
  }

  /** The leaf errors of a run result: none when it succeeded. */
  function FailuresOf(r: Result<Task, ServiceError>): seq<KubeError>
  {
    if r.Err? then Failures(r.error) else []
  }

  /** The error of a run result, if any. */
  function ErrorOf(r: Result<Task, ServiceError>): Option<ServiceError>
  {
    if r.Err? then Some(r.error) else None
  }

  /** The newer side's error an aggregate reports, if it reports one. */
  function LeftOf<A, B>(e: EitherOrBoth<A, B>): Option<A>
  {
    match e
    case Left(l) => Some(l)
    case Right(_) => None
    case Both(l, _) => Some(l)
  }

  /** The accumulated side's error an aggregate reports, if it reports one. */
  function RightOf<A, B>(e: EitherOrBoth<A, B>): Option<B>
  {
    match e
    case Left(_) => None
    case Right(r) => Some(r)
    case Both(_, r) => Some(r)
  }

  /** Rebuilds an aggregate from the errors of its two sides; none when neither failed. */
  function FromSides<A, B>(l: Option<A>, r: Option<B>): Option<EitherOrBoth<A, B>>
  {
    match (l, r)
    case (None, None) => None
    case (Some(a), None) => Some(Left(a))
    case (None, Some(b)) => Some(Right(b))
    case (Some(a), Some(b)) => Some(Both(a, b))
  }

  /** An aggregate is exactly the pair of its sides' optional errors, at least one present. */
  lemma EitherOrBothRoundTrip<A, B>(e: EitherOrBoth<A, B>, l: Option<A>, r: Option<B>)
    ensures FromSides(LeftOf(e), RightOf(e)) == Some(e)
    ensures LeftOf(e).Some? || RightOf(e).Some?
    ensures FromSides(l, r).Some? ==>
              LeftOf(FromSides(l, r).value) == l && RightOf(FromSides(l, r).value) == r
    ensures FromSides(l, r).None? <==> l.None? && r.None?
  {
  }

  /**
   Running a namespaced leaf: its preflight, then the watch loop. The loop's
   reconciler and error policy are `LeafReconcile` and `LeafErrorPolicy`.
   */
  function RunLeaf(handler: Handler, namespace: string, client: Client): (r: Result<Task, ServiceError>)
    ensures r.Ok? <==> Preflight(client, handler.resource, namespace).outcome.Ok?
    ensures r.Err? ==> r.error == Kube(Preflight(client, handler.resource, namespace).outcome.error)
    // on success: exactly one loop, over this leaf's namespace, with unbounded list params
    ensures r.Ok? ==> Loops(r.value) == [(Watch(handler.resource, namespace, DefaultListParams), handler)]
  {
    var probe := Preflight(client, handler.resource, namespace);
    if probe.outcome.Err? then Err(Kube(probe.outcome.error))
    else Ok(Running(Watch(handler.resource, namespace, DefaultListParams), handler))
  }

  /**
   The match on both children's startup results that a pair performs: any
   failure fails the pair, and the aggregate names exactly the side(s) that
   failed; the task of a side that did start is dropped.
   */
  function Combine(newer: Result<Task, ServiceError>, acc: Result<Task, ServiceError>): (r: Result<Task, ServiceError>)
    ensures r.Ok? <==> newer.Ok? && acc.Ok?
    ensures r.Ok? ==> r.value == Join(newer.value, acc.value)
    ensures r.Err? ==> r.error.Aggregate?
    ensures r.Err? ==> LeftOf(r.error.sides) == ErrorOf(newer) && RightOf(r.error.sides) == ErrorOf(acc)
    ensures FailuresOf(r) == FailuresOf(newer) + FailuresOf(acc)
  {
    match (newer, acc)
    case (Err(e2), Err(e)) => Err(Aggregate(Both(e2, e)))
    case (Err(e2), Ok(_)) => Err(Aggregate(Left(e2)))
    case (Ok(_), Err(e)) => Err(Aggregate(Right(e)))
    case (Ok(t2), Ok(t)) => Ok(Join(t2, t))
  }

  lemma {:induction false} FailedChecksAppend(client: Client, a: seq<(Handler, string)>, b: seq<(Handler, string)>)
    ensures FailedChecks(client, a + b) == FailedChecks(client, a) + FailedChecks(client, b)
  {
    if a == [] {
      assert a + b == b;
    } else {
      assert (a + b)[1..] == a[1..] + b;
      FailedChecksAppend(client, a[1..], b);
    }
  }

  /**
   Running any service: it starts iff every leaf passes its preflight; then it
   drives one watch loop per leaf, in leaf order; otherwise its aggregate
   error carries exactly the failing leaves' errors, in leaf order.
   */
  function Run(s: Service, client: Client): (r: Result<Task, ServiceError>)
    ensures r.Ok? <==> FailedChecks(client, Leaves(s)) == []
    ensures FailuresOf(r) == FailedChecks(client, Leaves(s))
    ensures r.Ok? ==> Loops(r.value) == LeafLoops(Leaves(s))
  {
    match s
    case Unit => Ok(Ready)
    case Namespaced(h, ns) =>
      assert Leaves(s)[1..] == [];
      RunLeaf(h, ns, client)
    case Pair(n, a) =>
      FailedChecksAppend(client, Leaves(n), Leaves(a));
      LeafLoopsAppend(Leaves(n), Leaves(a));
      Combine(Run(n, client), Run(a, client))
  }

  /**
   The failing leaves, each with its preflight error, in leaf order: every
   entry is one of the leaves, its preflight fails with exactly that error,
   and the errors are those `FailedChecks` lists.
   */
  function FailedLeaves(client: Client, leaves: seq<(Handler, string)>): (r: seq<((Handler, string), KubeError)>)
    ensures |r| == |FailedChecks(client, leaves)|
    ensures forall i :: 0 <= i < |r| ==> r[i].1 == FailedChecks(client, leaves)[i]
    ensures forall i :: 0 <= i < |r| ==> r[i].0 in leaves && LeafProbe(client, r[i].0).outcome == Err(r[i].1)
  {
    if leaves == [] then []
    else
      var p := LeafProbe(client, leaves[0]);
      (if p.outcome.Err? then [(leaves[0], p.outcome.error)] else []) + FailedLeaves(client, leaves[1..])
  }

  /** Every leaf whose preflight fails is listed, with its own error. */
  lemma {:induction false} FailedLeavesComplete(client: Client, leaves: seq<(Handler, string)>)
    ensures forall i :: 0 <= i < |leaves| && LeafProbe(client, leaves[i]).outcome.Err? ==>
              (leaves[i], LeafProbe(client, leaves[i]).outcome.error) in FailedLeaves(client, leaves)
  {
    if leaves != [] {
      FailedLeavesComplete(client, leaves[1..]);
      forall i | 1 <= i < |leaves| ensures leaves[i] == leaves[1..][i - 1] {}
    }
  }

  lemma {:induction false} FailedLeavesAppend(client: Client, a: seq<(Handler, string)>, b: seq<(Handler, string)>)
    ensures FailedLeaves(client, a + b) == FailedLeaves(client, a) + FailedLeaves(client, b)
  {
    if a == [] {
      assert a + b == b;
    } else {
      assert (a + b)[1..] == a[1..] + b;
      FailedLeavesAppend(client, a[1..], b);
    }
  }

  /**
   The leaves a service error blames, each with its error: a leaf's error
   blames that leaf; an aggregate blames, on each side it reports, what that
   side's error blames, newer side first.
   */
  function FailedLeavesOf(s: Service, e: ServiceError): seq<((Handler, string), KubeError)>
  {
    match (s, e)
    case (Namespaced(h, ns), Kube(k)) => [((h, ns), k)]
    case (Pair(n, _), Aggregate(Left(l))) => FailedLeavesOf(n, l)
    case (Pair(_, a), Aggregate(Right(r))) => FailedLeavesOf(a, r)
    case (Pair(n, a), Aggregate(Both(l, r))) => FailedLeavesOf(n, l) + FailedLeavesOf(a, r)
    case _ => []
  }

  /**
   A failed run blames exactly the leaves whose preflight fails, each with its
   own error, in leaf order: the aggregate's shape follows the service's.
   */
  lemma {:induction false} RunBlamesFailingLeaves(s: Service, client: Client)
    ensures Run(s, client).Err? ==> FailedLeavesOf(s, Run(s, client).error) == FailedLeaves(client, Leaves(s))
  {
    match s
    case Unit =>
    case Namespaced(h, ns) =>
      assert Leaves(s)[1..] == [];
    case Pair(n, a) =>
      RunBlamesFailingLeaves(n, client);
      RunBlamesFailingLeaves(a, client);
      FailedLeavesAppend(client, Leaves(n), Leaves(a));
  }

  /**
   A task resolves once every watch loop it drives has finished. `ended` holds
   the positions (in `Loops` order) of the loops that have finished, and
   `start` is the position of the task's first loop.
   */
  predicate Resolved(t: Task, ended: set<nat>, start: nat)
  {
    match t
    case Ready => true
    case Running(_, _) => start in ended
    case Join(n, a) => Resolved(n, ended, start) && Resolved(a, ended, start + |Loops(n)|)
  }

  /** A joined task resolves exactly when each of its watch loops has ended. */
  lemma {:induction false} ResolvedIffAllLoopsEnded(t: Task, ended: set<nat>, start: nat)
    ensures Resolved(t, ended, start) <==> forall i :: start <= i < start + |Loops(t)| ==> i in ended
  {
    match t
    case Ready =>
    case Running(_, _) =>
    case Join(n, a) =>
      var mid := start + |Loops(n)|;
      ResolvedIffAllLoopsEnded(n, ended, start);
      ResolvedIffAllLoopsEnded(a, ended, mid);
      assert |Loops(t)| == |Loops(n)| + |Loops(a)|;
  }

  /** The reconciler a leaf's watch loop runs: the handler's result is awaited; success requeues after 60 s. */
  function LeafReconcile<Req, E>(handled: Result<Req, E>): (r: Result<Action, E>)
    ensures r.Ok? <==> handled.Ok?
    ensures r.Ok? ==> r.value == RequeueAfter(60)
    ensures r.Err? ==> r.error == handled.error
  {
    match handled
    case Err(e) => Err(e)
    case Ok(_) => Ok(RequeueAfter(LeafRequeueSecs))
  }

  /** The error policy of a leaf's watch loop: whatever the error, requeue after 60 s. */
  function LeafErrorPolicy<E>(error: E): (a: Action)
    ensures a == RequeueAfter(60)
  {
    RequeueAfter(LeafRequeueSecs)
  }

  /** The action a leaf's loop ends up scheduling: the reconciler's on success, the error policy's otherwise. */
  function LeafSchedule<Req, E>(handled: Result<Req, E>): Action
  {
    var r := LeafReconcile(handled);
    if r.Ok? then r.value else LeafErrorPolicy(r.error)
  }

  /** Whatever the handler does, a leaf's object is reconciled again 60 s later. */
  lemma LeafAlwaysRequeues<Req, E>(handled: Result<Req, E>)
    ensures LeafSchedule(handled) == RequeueAfter(60)
  {
  }
}

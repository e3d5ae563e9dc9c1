/**
 A kubox `App`: an accumulator of registered services. Each registration
 pairs the new service (left) with everything registered so far (right),
 starting from the unit service; `run` runs the whole composition and
 unwraps its result.
 */
module KuboxApp {
  import opened KubeApi
  import opened KuboxService

  datatype App = App(service: Service)

  /** What `App::run` hands back: the composed task, or the panic of `unwrap` on an aggregate error. */
  datatype Outcome = Started(task: Task) | Panicked(error: ServiceError)

  /** One registration call: `namespaced_service(namespace, handler)` or `cluster_service(service)`. */
  datatype Registration =
    | NamespacedReg(namespace: string, handler: Handler)
    | ClusterReg(service: Service)

  /** The empty app: it holds the unit service, which has no leaves and always starts with nothing to run. */
  function Default(): (app: App)
    ensures Leaves(app.service) == [] && WellTyped(app.service)
    ensures forall client :: Run(app.service, client) == Ok(Ready)
  {
    App(Unit)
  }

  /** Registers a cluster-scoped service: it goes on the left, the previous service unchanged on the right. */
  function ClusterService(app: App, service: Service): (r: App)
    requires ScopeOf(service) == ClusterScope
    ensures r.service.Pair? && r.service.newer == service && r.service.acc == app.service
    ensures Leaves(r.service) == Leaves(app.service)
    ensures WellTyped(app.service) ==> WellTyped(r.service)
  {
    ClusterScopedIsUnit(service);
    App(Pair(service, app.service))
  }

  /**
   Registers a handler in a namespace: a new leaf holding the namespace verbatim
   goes on the left, the previous service unchanged on the right, so the new
   leaf comes first among the leaves.
   */
  function NamespacedService(app: App, namespace: string, handler: Handler): (r: App)
    ensures r.service.Pair? && r.service.newer == Namespaced(handler, namespace) && r.service.acc == app.service
    ensures Leaves(r.service) == [(handler, namespace)] + Leaves(app.service)
    ensures WellTyped(app.service) ==> WellTyped(r.service)
  {
    App(Pair(Namespaced(handler, namespace), app.service))
  }

  /** Runs the composed service; an aggregate error is not returned but panics. */
  function RunApp(app: App, client: Client): (o: Outcome)
    ensures o.Started? <==> FailedChecks(client, Leaves(app.service)) == []
    ensures o.Started? ==> Loops(o.task) == LeafLoops(Leaves(app.service))
    ensures o.Panicked? ==> Failures(o.error) == FailedChecks(client, Leaves(app.service))
    ensures o.Panicked? ==> FailedLeavesOf(app.service, o.error) == FailedLeaves(client, Leaves(app.service))
  {
    RunBlamesFailingLeaves(app.service, client);
    match Run(app.service, client)
    case Ok(task) => Started(task)
    case Err(e) => Panicked(e)
  }

  predicate Registrable(reg: Registration)
  {
    reg.ClusterReg? ==> ScopeOf(reg.service) == ClusterScope
  }

  /** The service a registration places on the left of the new pair. */
  function Node(reg: Registration): Service
  {
    match reg
    case NamespacedReg(ns, h) => Namespaced(h, ns)
    case ClusterReg(s) => s
  }

  /** One registration call on an app. */
  function Register(app: App, reg: Registration): (r: App)
    requires Registrable(reg)
    ensures r.service == Pair(Node(reg), app.service)
    ensures WellTyped(app.service) ==> WellTyped(r.service)
  {
    match reg
    case NamespacedReg(ns, h) => NamespacedService(app, ns, h)
    case ClusterReg(s) => ClusterService(app, s)
  }

  /** The app after the given registrations, in call order, starting from `Default()`. */
  function Build(regs: seq<Registration>): App
    requires forall i :: 0 <= i < |regs| ==> Registrable(regs[i])
  {
    if regs == [] then Default()
    else Register(Build(regs[..|regs| - 1]), regs[|regs| - 1])
  }

  /** The leaves of the namespaced registrations, latest registration first. */
  function RegisteredLeaves(regs: seq<Registration>): seq<(Handler, string)>
  {
    if regs == [] then []
    else
      var last := regs[|regs| - 1];
      (if last.NamespacedReg? then [(last.handler, last.namespace)] else []) + RegisteredLeaves(regs[..|regs| - 1])
  }

  /**
   After k registrations the service is a chain of k pairs ending in the unit,
   whose left children are the registered services in reverse call order, and
   it has a `Service` implementation.
   */
  lemma {:induction false} BuildShape(regs: seq<Registration>)
    requires forall i :: 0 <= i < |regs| ==> Registrable(regs[i])
    ensures |Spine(Build(regs).service)| == |regs|
    ensures forall i :: 0 <= i < |regs| ==> Spine(Build(regs).service)[i] == Node(regs[|regs| - 1 - i])
    ensures Base(Build(regs).service) == Unit
    ensures WellTyped(Build(regs).service)
  {
    if regs != [] {
      var prefix, last := regs[..|regs| - 1], regs[|regs| - 1];
      BuildShape(prefix);
      var inner := Build(prefix).service;
      assert Build(regs).service == Pair(Node(last), inner);
      var sp := Spine(Build(regs).service);
      assert sp == [Node(last)] + Spine(inner);
      forall i | 0 <= i < |regs|
        ensures sp[i] == Node(regs[|regs| - 1 - i])
      {
        if i > 0 {
          assert sp[i] == Spine(inner)[i - 1];
          assert prefix[|prefix| - 1 - (i - 1)] == regs[|regs| - 1 - i];
        }
      }
    }
  }

  /** The leaves of a built app are exactly the namespaced registrations, latest first. */
  lemma {:induction false} BuildLeaves(regs: seq<Registration>)
    requires forall i :: 0 <= i < |regs| ==> Registrable(regs[i])
    ensures Leaves(Build(regs).service) == RegisteredLeaves(regs)
  {
    if regs != [] {
      BuildLeaves(regs[..|regs| - 1]);
    }
  }

  /**
   A built app starts iff every namespaced registration passes its preflight;
   it then runs one watch loop per registration, latest first, and otherwise
   panics with an error that blames exactly the failing registrations, each
   with its own preflight error, latest first.
   */
  lemma BuildRun(regs: seq<Registration>, client: Client)
    requires forall i :: 0 <= i < |regs| ==> Registrable(regs[i])
    ensures RunApp(Build(regs), client).Started? <==> FailedChecks(client, RegisteredLeaves(regs)) == []
    ensures RunApp(Build(regs), client).Started? ==>
              Loops(RunApp(Build(regs), client).task) == LeafLoops(RegisteredLeaves(regs))
    ensures RunApp(Build(regs), client).Panicked? ==>
              Failures(RunApp(Build(regs), client).error) == FailedChecks(client, RegisteredLeaves(regs))
    ensures RunApp(Build(regs), client).Panicked? ==>
              FailedLeavesOf(Build(regs).service, RunApp(Build(regs), client).error) == FailedLeaves(client, RegisteredLeaves(regs))
  {
    BuildLeaves(regs);
  }
}

/**
 The controller layer of tedep-ep. A resource type takes part by supplying a
 `Reconcilable` (finalizer name, `apply`, `cleanup`, `error_policy`) and a
 `Controller` (its resource type, how to build its context, its error's
 conversion from a `kube::Error`, its initial metrics). `Init` runs the
 preflight and then starts the watch; `Reconcile` dispatches one finalizer
 event to the matching handler.
 */
module TedepController {
  import opened KubeApi
  import opened TedepConfig

  /**
   The events on which the finalizer helper calls a handler: the object is not
   being deleted and carries our finalizer, or it is being deleted with it.
   (Its third outcome, adding a missing finalizer or finding nothing to do,
   calls no handler and is not modelled.)
   */
  datatype FinalizerEvent<R> = Apply(obj: R) | Cleanup(obj: R)

  /** `kube::runtime::finalizer::Error` for a failing handler. */
  datatype FinalizerError<E> = ApplyFailed(cause: E) | CleanupFailed(cause: E)

  /** What a resource type supplies to be reconciled (the `Reconcilable` trait). */
  datatype Reconcilable<!R, !C, !E> = Reconcilable(
    finalizerName: string,
    apply: (R, C) -> Result<Action, E>,
    cleanup: (R, C) -> Result<Action, E>,
    errorPolicy: (R, E, C) -> Action,
    fromFinalizer: FinalizerError<E> -> E)

  /** What a controller supplies to be started (the `Controller` trait with its `Context` and `Config`). */
  datatype Controller<!R, !C, !E, !Cfg, M> = Controller(
    resource: ResourceType,
    reconcilable: Reconcilable<R, C, E>,
    withConfigs: (Client, GlobalConfig, Cfg) -> C,
    fromKube: KubeError -> E,
    defaultMetrics: M)

  /** The future `Init` returns: the watch it drives, with the reconciler, error policy and context it was given. */
  datatype ControllerTask<!R, !C, !E> = Watching(watch: Watch, reconcilable: Reconcilable<R, C, E>, context: C)

  /**
   `Controller::init`: the namespace named by the global configuration must
   exist and the resource type must be listable in it (limit 1); a failure
   is converted into the controller's error and no watch is built. Otherwise
   the watch over that namespace runs with a context built once from both
   configurations, next to the default metrics.
   */
  function Init<R, C, E, Cfg, M>(ctl: Controller<R, C, E, Cfg, M>, client: Client, global: GlobalConfig, config: Cfg)
    : (r: Result<(ControllerTask<R, C, E>, M), E>)
    ensures r.Ok? <==> Preflight(client, ctl.resource, global.namespaceStr).outcome.Ok?
    ensures r.Err? ==> r.error == ctl.fromKube(Preflight(client, ctl.resource, global.namespaceStr).outcome.error)
    ensures r.Ok? ==> r.value.0.watch == Watch(ctl.resource, global.namespaceStr, DefaultListParams)
    ensures r.Ok? ==> r.value.0.reconcilable == ctl.reconcilable
    ensures r.Ok? ==> r.value.0.context == ctl.withConfigs(client, global, config)
    ensures r.Ok? ==> r.value.1 == ctl.defaultMetrics
  {
    var metrics := ctl.defaultMetrics;
    var probe := Preflight(client, ctl.resource, global.namespaceStr);
    match probe.outcome
    case Err(e) => Err(ctl.fromKube(e))
    case Ok(_) =>
      var watch := Watch(ctl.resource, global.namespaceStr, DefaultListParams);
      Ok((Watching(watch, ctl.reconcilable, ctl.withConfigs(client, global, config)), metrics))
  }

  /**
   `Reconcilable::reconcile`: an `Apply` event goes to `apply`, a `Cleanup`
   event to `cleanup`; the handler's action is returned unchanged, and its
   error comes back wrapped as a finalizer error of the matching kind.
   */
  function Reconcile<R, C, E>(rec: Reconcilable<R, C, E>, context: C, event: FinalizerEvent<R>): (r: Result<Action, E>)
    ensures event.Apply? ==> (r.Ok? <==> rec.apply(event.obj, context).Ok?)
    ensures event.Apply? && r.Ok? ==> r.value == rec.apply(event.obj, context).value
    ensures event.Apply? && r.Err? ==> r.error == rec.fromFinalizer(ApplyFailed(rec.apply(event.obj, context).error))
    ensures event.Cleanup? ==> (r.Ok? <==> rec.cleanup(event.obj, context).Ok?)
    ensures event.Cleanup? && r.Ok? ==> r.value == rec.cleanup(event.obj, context).value
    ensures event.Cleanup? && r.Err? ==> r.error == rec.fromFinalizer(CleanupFailed(rec.cleanup(event.obj, context).error))
  {
    match event
    case Apply(obj) =>
      (match rec.apply(obj, context)
       case Ok(action) => Ok(action)
       case Err(e) => Err(rec.fromFinalizer(ApplyFailed(e))))
    case Cleanup(obj) =>
      match rec.cleanup(obj, context)
      case Ok(action) => Ok(action)
      case Err(e) => Err(rec.fromFinalizer(CleanupFailed(e)))
  }

  /** An `Apply` event never consults `cleanup`, and a `Cleanup` event never consults `apply`. */
  lemma ReconcileUsesOnlyItsHandler<R, C, E>(
    rec: Reconcilable<R, C, E>, context: C, obj: R,
    otherApply: (R, C) -> Result<Action, E>, otherCleanup: (R, C) -> Result<Action, E>)
    ensures Reconcile(rec.(cleanup := otherCleanup), context, Apply(obj)) == Reconcile(rec, context, Apply(obj))
    ensures Reconcile(rec.(apply := otherApply), context, Cleanup(obj)) == Reconcile(rec, context, Cleanup(obj))
  {
  }
}

/**
 The TerraformWorkspace controller: its finalizer name, its placeholder
 handlers (apply requeues after the reconcile interval, cleanup waits for the
 next change) and its error policy (requeue after the retry interval).
 */
module Tfws {
  import opened KubeApi
  import opened TedepConfig
  import opened TfwsResource
  import opened TfwsContext
  import opened TedepController

  /** The finalizer this controller puts on every TerraformWorkspace it reconciles. */
  const FINALIZER_NAME: string := "finalizer.tedep.quantum-box.com"

  /** `TerraformWorkspaceError`: a kube-rs error, or a finalizer error around one of its own. */
  datatype TerraformWorkspaceError =
    | KubeError(kube: KubeError)
    | FinalizerError(finalizer: FinalizerError<TerraformWorkspaceError>)

  /** `error_policy`: whatever failed, requeue after the context's retry interval. */
  function ErrorPolicy(obj: TerraformWorkspace, error: TerraformWorkspaceError, context: TerraformWorkspaceContext): (a: Action)
    ensures a == RequeueAfter(context.retryInterval)
  {
    RequeueAfter(context.retryInterval)
  }

  /** `apply`: succeed and requeue after the context's reconcile interval. */
  function ApplyWorkspace(obj: TerraformWorkspace, context: TerraformWorkspaceContext): (r: Result<Action, TerraformWorkspaceError>)
    ensures r == Ok(RequeueAfter(context.reconcileInterval))
  {
    Ok(RequeueAfter(context.reconcileInterval))
  }

  /** `cleanup`: succeed and wait for the next change. */
  function CleanupWorkspace(obj: TerraformWorkspace, context: TerraformWorkspaceContext): (r: Result<Action, TerraformWorkspaceError>)
    ensures r == Ok(AwaitChange)
  {
    Ok(AwaitChange)
  }

  /**
   `impl Reconcilable for TerraformWorkspace`: the finalizer name, the two
   handlers, the error policy, and the wrapping of a finalizer error.
   */
  function Workspace(): (r: Reconcilable<TerraformWorkspace, TerraformWorkspaceContext, TerraformWorkspaceError>)
    ensures r.finalizerName == "finalizer.tedep.quantum-box.com"
    ensures forall o, c :: r.apply(o, c) == Ok(RequeueAfter(c.reconcileInterval))
    ensures forall o, c :: r.cleanup(o, c) == Ok(AwaitChange)
    ensures forall o, e, c :: r.errorPolicy(o, e, c) == RequeueAfter(c.retryInterval)
    ensures forall e :: r.fromFinalizer(e) == FinalizerError(e)
  {
    Reconcilable(FINALIZER_NAME, ApplyWorkspace, CleanupWorkspace, ErrorPolicy, e => FinalizerError(e))
  }

  /**
   `impl Controller for TerraformWorkspaceController`: it watches the
   TerraformWorkspace resource type with the reconcilable above, builds its
   context with `with_configs`, and turns a `kube::Error` into a
   `TerraformWorkspaceError`.
   */
  function WorkspaceController(): (r: Controller<TerraformWorkspace, TerraformWorkspaceContext, TerraformWorkspaceError,
                                                 TerraformWorkspaceConfig, TerraformWorkspaceMetrics>)
    ensures r.resource == TerraformWorkspaceResource
    ensures r.reconcilable == Workspace()
    ensures forall client, global, config :: r.withConfigs(client, global, config) == WithConfigs(client, global, config)
    ensures forall k :: r.fromKube(k) == KubeError(k)
    ensures r.defaultMetrics == TerraformWorkspaceMetrics
  {
    Controller(TerraformWorkspaceResource, Workspace(), WithConfigs, k => KubeError(k), TerraformWorkspaceMetrics)
  }

  /** The error policy's delay is the retry interval, whichever error occurred and for whichever object. */
  lemma ErrorPolicyIgnoresError(
    o1: TerraformWorkspace, o2: TerraformWorkspace,
    e1: TerraformWorkspaceError, e2: TerraformWorkspaceError, context: TerraformWorkspaceContext)
    ensures Workspace().errorPolicy(o1, e1, context) == Workspace().errorPolicy(o2, e2, context)
    ensures Workspace().errorPolicy(o1, e1, context) == RequeueAfter(context.retryInterval)
  {
  }

  /** Neither handler looks at the object: apply always requeues after the reconcile interval, cleanup always awaits a change. */
  lemma HandlersIgnoreObject(o1: TerraformWorkspace, o2: TerraformWorkspace, context: TerraformWorkspaceContext)
    ensures Workspace().apply(o1, context) == Workspace().apply(o2, context) == Ok(RequeueAfter(context.reconcileInterval))
    ensures Workspace().cleanup(o1, context) == Workspace().cleanup(o2, context) == Ok(AwaitChange)
  {
  }

  /**
   The TerraformWorkspace handlers never fail, so dispatching an Apply or
   Cleanup event gives `Ok` (the finalizer patches are not modelled): Apply
   requeues after the reconcile interval, Cleanup awaits a change.
   */
  lemma WorkspaceReconcile(context: TerraformWorkspaceContext, event: FinalizerEvent<TerraformWorkspace>)
    ensures Reconcile(Workspace(), context, event).Ok?
    ensures event.Apply? ==> Reconcile(Workspace(), context, event).value == RequeueAfter(context.reconcileInterval)
    ensures event.Cleanup? ==> Reconcile(Workspace(), context, event).value == AwaitChange
  {
  }

  /**
   `from_run_args` followed by `init`: a controller started from a
   configuration built from the `run` flags starts iff the flag's namespace
   exists and TerraformWorkspaces can be listed in it; the watch then covers
   that namespace, its error policy requeues after exactly `--retry-interval`
   seconds and Apply events requeue after exactly `--reconcile-interval`
   seconds.
   */
  lemma FlagsReachPolicies(
    args: RunArgs, client: Client, config: TerraformWorkspaceConfig,
    obj: TerraformWorkspace, error: TerraformWorkspaceError)
    ensures var r := Init(WorkspaceController(), client, FromRunArgs(args), config);
            r.Ok? <==> Preflight(client, TerraformWorkspaceResource, args.namespaceStr).outcome.Ok?
    ensures var r := Init(WorkspaceController(), client, FromRunArgs(args), config);
            r.Err? ==> r.error == KubeError(Preflight(client, TerraformWorkspaceResource, args.namespaceStr).outcome.error)
    ensures var r := Init(WorkspaceController(), client, FromRunArgs(args), config);
            r.Ok? ==>
              var task := r.value.0;
              && task.watch == Watch(TerraformWorkspaceResource, args.namespaceStr, DefaultListParams)
              && task.context.namespaceStr == args.namespaceStr
              && task.reconcilable.finalizerName == "finalizer.tedep.quantum-box.com"
              && task.reconcilable.errorPolicy(obj, error, task.context) == RequeueAfter(args.retryInterval as int)
              && Reconcile(task.reconcilable, task.context, Apply(obj)) == Ok(RequeueAfter(args.reconcileInterval as int))
              && Reconcile(task.reconcilable, task.context, Cleanup(obj)) == Ok(AwaitChange)
  {
  }
}

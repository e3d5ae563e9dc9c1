# tedep / kubox startup composition and reconcile policy, in Dafny

This project models the core of the tedep repository. It covers two parts.

- The **kubox** crate composes controllers. An `App` starts as the unit
  service. Each `namespaced_service(namespace, handler)` or
  `cluster_service(service)` call wraps the new service (left) and everything
  registered before it (right) into a pair. `run` runs the composition. Every
  namespaced leaf first runs a preflight: a GET of its namespace, then a list
  of its resource type in that namespace with limit 1. Only after both pass
  does the leaf build its watch loop. A pair folds its two children's startup
  results into a joined task, or into an `EitherOrBoth` error that names the
  side(s) that failed. `App::run` unwraps that result.
- The **tedep-ep** application defines a controller layer for
  TerraformWorkspace. `GlobalConfig::from_run_args` builds a configuration
  from the `run` subcommand's flags. `Controller::init` runs the same preflight
  and then starts the watch with a context built by `with_configs`.
  `Reconcilable::reconcile` sends an `Apply` event to `apply` and a `Cleanup`
  event to `cleanup`, and wraps handler failures as finalizer errors. The
  TerraformWorkspace handlers are placeholders: `apply` requeues after the
  reconcile interval, `cleanup` waits for the next change, and `error_policy`
  requeues after the retry interval.
- The `run` subcommand of tedep-ep (`apps/tedep-ep/src/main.rs:59-77`) does not
  use that controller layer. It parses a namespace, `--reconcile-interval` and
  `--retry-interval`, and then ignores all three. What it starts is a kubox
  app with one TerraformWorkspace leaf in the fixed namespace `tedep`, whose
  handler only logs. `from_run_args` and `Controller::init` are never called.

Everything is pure: futures are replaced by their results. The cluster client
is an oracle (`KubeApi.Client`) that answers the namespace GET and the list.
A preflight returns the requests it issued, in order. A task records the
watch loops it drives. The Rust traits (`Reconcilable`, `Controller`) become
records of functions, and TerraformWorkspace is one instance of them.

Modules: `KubeApi` (kube_api.dfy), `KuboxService` (kubox_service.dfy),
`KuboxApp` (kubox_app.dfy), `TedepConfig` (tedep_config.dfy), `TfwsResource`
(tfws_resource.dfy), `TfwsContext` (tfws_context.dfy), `TedepController`
(tedep_controller.dfy), `Tfws` (tfws.dfy), `TedepMain` (tedep_main.dfy).

Two details of the code shape the model.

- The preflight hands the `kube::Error` of the first failing call to the
  leaf's error type `E` through `E::from`. `E` is generic in the crate; the
  model takes each leaf's `E::from` to be a lossless wrapper (`Kube`), which
  is exact for the program's only leaf error type, whose `KubeError` variant
  is derived with `#[from]`.
- `apps/tedep-ep/src/main.rs:72` calls `App::new()`, which `app.rs` does not
  define; the model's empty app is `App::default()` (`KuboxApp.Default`).

## Model

| member | source | states |
|---|---|---|
| `KubeApi.Preflight` | crates/kubox/src/service.rs:114-123 | the namespace GET always comes first; the list is issued iff the namespace exists, and then with limit 1; the check passes iff both calls succeed; otherwise it returns the first call's error |
| `KuboxService.ClusterScopedIsUnit` | crates/kubox/src/service.rs:80-89 | the only service of cluster scope `()` is the unit service |
| `KuboxService.WellTypedIsChain` | crates/kubox/src/service.rs:92-224 | a composed service has a `Service` implementation exactly when every pair's newer side is the unit or a namespaced leaf; the registration calls build exactly the chains among them that end in the unit (see `BuildShape`) |
| `KuboxService.EitherOrBothRoundTrip` | crates/kubox/src/service.rs:254-259 | an `EitherOrBoth` is exactly a pair of optional side errors with at least one present: splitting it into sides and rebuilding gives it back, and rebuilding from two absent sides gives nothing |
| `KuboxService.RunLeaf` | crates/kubox/src/service.rs:110-149 | a leaf starts iff its preflight passes; otherwise it fails with the preflight's error; on success it runs exactly one watch loop, over its own namespace and resource type with unbounded list parameters |
| `KuboxService.Combine` | crates/kubox/src/service.rs:178-198 | a pair starts iff both children start, and then its task is the join of both tasks; otherwise the aggregate's left part is the newer child's error iff that child failed and its right part is the accumulated child's error iff that child failed; the aggregate's leaf errors are the newer child's followed by the accumulated child's |
| `KuboxService.Run` | crates/kubox/src/service.rs:110-251 | any composed service starts iff every leaf passes its preflight; it then runs one watch loop per leaf, in leaf order; otherwise its error carries exactly the failing leaves' preflight errors, in leaf order (the unit service contributes nothing) |
| `KuboxService.FailedLeaves` | crates/kubox/src/service.rs:114-123 | each listed leaf is one of the given leaves and its preflight fails with exactly the listed error; the listed errors are the failing preflights' errors, in leaf order |
| `KuboxService.FailedLeavesComplete` | crates/kubox/src/service.rs:114-123 | every leaf whose preflight fails is listed, with its own preflight error |
| `KuboxService.RunBlamesFailingLeaves` | crates/kubox/src/service.rs:178-251 | when a composed service fails, following its aggregate error down the service tree (left to the newer side, right to the accumulated side, both to both) reaches exactly the leaves whose preflight fails, each with its own error, in leaf order |
| `KuboxService.ResolvedIffAllLoopsEnded` | crates/kubox/src/service.rs:193-197 | a composed task resolves exactly when every one of its watch loops, counted by position, has ended (so a handler registered twice needs both loops to end; the unit's ready task resolves at once) |
| `KuboxService.LeafReconcile` | crates/kubox/src/service.rs:131-139 | the leaf reconciler succeeds iff the handler succeeds, and then requeues after 60 s; a handler error is returned unchanged |
| `KuboxService.LeafErrorPolicy` | crates/kubox/src/service.rs:141-143 | the leaf error policy requeues after 60 s whatever the error |
| `KuboxService.LeafAlwaysRequeues` | crates/kubox/src/service.rs:131-143 | whatever the handler returns, the action a leaf's loop schedules is a requeue after 60 s |
| `KuboxApp.Default` | crates/kubox/src/app.rs:22-29 | the empty app holds a service with no leaves that always starts, with an already complete task |
| `KuboxApp.ClusterService` | crates/kubox/src/app.rs:59-72 | the new cluster-scoped service goes on the left and the previous service, unchanged, on the right; the leaves stay the same |
| `KuboxApp.NamespacedService` | crates/kubox/src/app.rs:74-116 | a new leaf holding the given namespace verbatim goes on the left and the previous service, unchanged, on the right, so the new leaf comes first among the leaves |
| `KuboxApp.Register` | crates/kubox/src/app.rs:59-116 | either registration call wraps the previous service as the right child of a new pair and keeps the composition well typed |
| `KuboxApp.RunApp` | crates/kubox/src/app.rs:118-124 | `run` yields the task iff every leaf passes its preflight, with one watch loop per leaf; otherwise it panics with the aggregate error, which blames exactly the failing leaves, each with its own error |
| `KuboxApp.BuildShape` | crates/kubox/src/app.rs:59-116 | after k registrations the service is a chain of k pairs ending in the unit; the left children are the registered services in reverse call order; every shape built this way has a `Service` implementation |
| `KuboxApp.BuildLeaves` | crates/kubox/src/app.rs:106-114 | the leaves of a built app are exactly the namespaced registrations, latest first |
| `KuboxApp.BuildRun` | crates/kubox/src/app.rs:118-124 | a built app starts iff every namespaced registration passes its preflight; it then runs one loop per registration, latest first; otherwise it panics with an error that blames exactly the failing registrations, each with its own error, latest first |
| `TedepConfig.FromSecs` | apps/tedep-ep/src/config.rs:25-26 | `Duration::from_secs` keeps the number of seconds exactly |
| `TedepConfig.FromRunArgs` | apps/tedep-ep/src/config.rs:22-28 | the namespace is copied verbatim; each interval is its flag in whole seconds |
| `TedepConfig.FromRunArgsInjective` | apps/tedep-ep/src/config.rs:22-28 | different flag settings give different configurations |
| `TfwsResource.Kind` | apps/tedep-ep/src/tfws.rs:20-27 | the kind of a TerraformWorkspace is that of its declared resource type, whatever the (empty) dynamic type |
| `TfwsContext.WithConfigs` | apps/tedep-ep/src/tfws/context.rs:22-37 | the context keeps the client and copies the namespace, both intervals and the dynamic type unchanged |
| `TfwsContext.ResourceKind` | apps/tedep-ep/src/tfws/context.rs:45-49 | the context reports the kind of the TerraformWorkspace resource type |
| `TedepController.Init` | apps/tedep-ep/src/controller.rs:34-62 | init succeeds iff the preflight on the configured namespace passes; otherwise it returns the converted kube error and builds no watch; on success it watches the configured namespace with unbounded list parameters, with the resource's own reconcilable, a context built once by `with_configs`, and the default metrics |
| `TedepController.Reconcile` | apps/tedep-ep/src/controller.rs:86-112 | Apply goes to `apply` and Cleanup goes to `cleanup`; that handler's action is returned unchanged on success; a failure is wrapped as `ApplyFailed` or `CleanupFailed` and converted into the resource's error |
| `TedepController.ReconcileUsesOnlyItsHandler` | apps/tedep-ep/src/controller.rs:97-108 | the result of an Apply event does not depend on `cleanup`, and that of a Cleanup event does not depend on `apply` |
| `Tfws.ErrorPolicy` | apps/tedep-ep/src/tfws.rs:55-63 | the error policy requeues after the context's retry interval |
| `Tfws.ApplyWorkspace` | apps/tedep-ep/src/tfws.rs:64-66 | `apply` succeeds and requeues after the context's reconcile interval |
| `Tfws.CleanupWorkspace` | apps/tedep-ep/src/tfws.rs:67-69 | `cleanup` succeeds and waits for the next change |
| `Tfws.Workspace` | apps/tedep-ep/src/tfws.rs:50-70 | the TerraformWorkspace reconcilable uses `finalizer.tedep.quantum-box.com`; for every object and context, apply requeues after the reconcile interval, cleanup awaits a change and the error policy requeues after the retry interval; a finalizer error is wrapped as `TerraformWorkspaceError::FinalizerError` |
| `Tfws.WorkspaceController` | apps/tedep-ep/src/tfws.rs:72-80 | the TerraformWorkspace controller watches the TerraformWorkspace resource type with that reconcilable, builds its context with `with_configs`, converts a kube error into `TerraformWorkspaceError::KubeError`, and starts from the unit metrics |
| `Tfws.ErrorPolicyIgnoresError` | apps/tedep-ep/src/tfws.rs:55-63 | the error policy requeues after the context's retry interval, the same for every error and every object |
| `Tfws.HandlersIgnoreObject` | apps/tedep-ep/src/tfws.rs:64-69 | apply always requeues after the context's reconcile interval and cleanup always awaits a change, for every object |
| `Tfws.WorkspaceReconcile` | apps/tedep-ep/src/tfws.rs:51-69 | the TerraformWorkspace handlers never fail, so dispatching an Apply or Cleanup event (finalizer patches left out) gives `Ok`: Apply requeues after the reconcile interval, Cleanup awaits a change |
| `Tfws.FlagsReachPolicies` | apps/tedep-ep/src/config.rs:22-28 | `from_run_args` followed by `init`: the controller starts iff its preflight on the flag's namespace passes; its watch covers that namespace; its finalizer is `finalizer.tedep.quantum-box.com`; its error policy requeues after exactly `--retry-interval` seconds; Apply requeues after exactly `--reconcile-interval` seconds; Cleanup awaits a change |
| `TedepMain.RunCommandApp` | apps/tedep-ep/src/main.rs:72-77 | the `run` subcommand's app has exactly one leaf, the logging TerraformWorkspace handler in namespace `tedep`, and has a `Service` implementation |
| `TedepMain.RunCommandIgnoresFlags` | apps/tedep-ep/src/main.rs:59-77 | the app the `run` subcommand starts is the same whatever namespace and intervals were given |
| `TedepMain.RunCommandWatchesTedep` | apps/tedep-ep/src/main.rs:72-77 | the `run` subcommand's app starts iff its preflight on namespace `tedep` passes, whatever namespace was given, and then runs one watch loop over `tedep` |

The accessors of `GlobalConfig` (`apps/tedep-ep/src/config.rs:12-20`) and of
`TerraformWorkspaceContext` (`apps/tedep-ep/src/tfws/context.rs:39-55`) are
the fields of the corresponding datatypes. They return the stored value
unchanged by construction.

## Left out

- The finalizer helper of kube-rs is library code. It decides from the deletion timestamp and the finalizer list among three outcomes: Apply, Cleanup, or neither (it adds a missing finalizer, or finds nothing left to do) and then returns await-change without calling a handler. It also issues the patches that add and remove the finalizer. Here the event is an input to `Reconcile`, only the Apply and Cleanup outcomes are modelled, and no patch is modelled. Only the handler-failure variants of its error (`ApplyFailed`, `CleanupFailed`) are modelled, not its patch or naming errors.
- The kube-rs watch loop is library code, with its watch stream, requeue timers and coalescing. A task only records which watch it runs, with which handler, reconcilable and context. `LeafSchedule` stands for the loop's choice between the reconciler's action and the error policy's.
- Concurrency: `future::join` of the two children is modelled as evaluating both results, in no particular order. `Arc` sharing and `BoxFuture` boxing are left out.
- The handler closure of a kubox leaf is a name plus the resource type it is typed over. What it returns for an object is an input to `LeafReconcile`.
- A cluster-scoped service other than the unit is not part of this model. The crate implements `Service` with scope `()` only for `()`.
- Logging (`info!`, `warn!`) is left out.
- The `main.rs` I/O is left out: CLI parsing, tracing setup, the HTTP server, `tokio::select!` and CRD printing.
- `Tfws.FlagsReachPolicies` describes `from_run_args` followed by `init`, a path the program as written never takes: `main.rs` parses the flags and ignores them (see `TedepMain`).
- The `KubeResource` bounds and the `KubeReosurceDynamicType` marker trait only shape compile-time types and are not modelled. The `Scope` marker is modelled by `ScopeOf`.
- `Duration` is a whole number of seconds. The code only builds durations with `from_secs`.
- `apps/tedep-ep/src/metrics.rs`, `tfws/metrics.rs` and `workspace/*` are not part of this model. `TerraformWorkspaceMetrics` is a unit value.
- A client handle is an oracle for the two preflight requests. The model does not check that two uses of it observe one consistent cluster.

/**
 The `run` subcommand of tedep-ep as the program is written: it parses a
 namespace and two intervals, then starts a kubox app with a single
 TerraformWorkspace leaf in the fixed namespace "tedep", whose handler only
 logs. Neither the parsed flags nor the controller layer take part.
 */
module TedepMain {
  import opened KubeApi
  import opened KuboxService
  import opened KuboxApp
  import opened TedepConfig
  import opened TfwsResource

  /** The namespace the `run` subcommand watches, fixed in the program. */
  const RunNamespace: string := "tedep"

  /** The handler closure of the `run` subcommand's leaf: it logs "Reconciling" and succeeds. */
  const LogReconciling: Handler := Handler(TerraformWorkspaceResource, "log Reconciling")

  /** The kubox app the `run` subcommand starts; the parsed flags are not consulted. */
  function RunCommandApp(args: RunArgs): (app: App)
    ensures Leaves(app.service) == [(LogReconciling, "tedep")]
    ensures WellTyped(app.service)
  {
    NamespacedService(Default(), RunNamespace, LogReconciling)
  }

  /** Two `run` invocations with different flags start the same app. */
  lemma RunCommandIgnoresFlags(a1: RunArgs, a2: RunArgs)
    ensures RunCommandApp(a1) == RunCommandApp(a2)
  {
  }

  /**
   The `run` subcommand's app starts iff namespace "tedep" exists and
   TerraformWorkspaces can be listed in it, whatever namespace was given on
   the command line; it then runs one watch loop over "tedep".
   */
  lemma RunCommandWatchesTedep(args: RunArgs, client: Client)
    ensures RunApp(RunCommandApp(args), client).Started? <==>
              Preflight(client, TerraformWorkspaceResource, "tedep").outcome.Ok?
    ensures RunApp(RunCommandApp(args), client).Started? ==>
              Loops(RunApp(RunCommandApp(args), client).task) ==
                [(Watch(TerraformWorkspaceResource, "tedep", DefaultListParams), LogReconciling)]
  {
  }
}

/**
 The reconcile context of the TerraformWorkspace controller: built once at
 startup from the global and the controller configuration, then only read.
 */
module TfwsContext {
  import opened KubeApi
  import opened TedepConfig
  import opened TfwsResource

  /**
   `TerraformWorkspaceContext`; its accessors `client`, `namespace_str`,
   `reconcile_interval` and `retry_interval` are this datatype's fields,
   returned without change.
   */
  datatype TerraformWorkspaceContext = TerraformWorkspaceContext(
    client: Client,
    namespaceStr: string,
    reconcileInterval: Duration,
    retryInterval: Duration,
    dynamicType: ())

  /** `with_configs`: keeps the client, copies the namespace and both intervals, and the dynamic type. */
  function WithConfigs(client: Client, global: GlobalConfig, config: TerraformWorkspaceConfig): (ctx: TerraformWorkspaceContext)
    ensures ctx.client == client
    ensures ctx.namespaceStr == global.namespaceStr
    ensures ctx.reconcileInterval == global.reconcileInterval
    ensures ctx.retryInterval == global.retryInterval
    ensures ctx.dynamicType == config.dynamicType
  {
    TerraformWorkspaceContext(
      client, global.namespaceStr, global.reconcileInterval, global.retryInterval, config.dynamicType)
  }

  /** `resource_kind`: the kind of the watched resource type. */
  function ResourceKind(ctx: TerraformWorkspaceContext): (k: string)
    ensures k == TerraformWorkspaceResource.kind
  {
    Kind(ctx.dynamicType)
  }
}

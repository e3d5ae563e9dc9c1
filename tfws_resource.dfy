/**
 The TerraformWorkspace custom resource of tedep-ep: its type identity, the
 object the watch delivers, and the per-controller configuration and metrics
 values that accompany it.
 */
module TfwsResource {
  import opened KubeApi

  /** The resource's group, version and kind; it is namespaced, with short name `tfws`. */
  const TerraformWorkspaceResource: ResourceType :=
    ResourceType("tedep.quantum-box.com", "v1", "TerraformWorkspace")

  datatype TerraformWorkspaceProviderName = TerraformCloud

  datatype TerraformWorkspaceProvider = TerraformWorkspaceProvider(name: TerraformWorkspaceProviderName)

  datatype TerraformWorkspaceSpec = TerraformWorkspaceSpec(provider: TerraformWorkspaceProvider)

  datatype TerraformWorkspaceStatus = TerraformWorkspaceStatus

  /** A TerraformWorkspace object as observed in the cluster. */
  datatype TerraformWorkspace = TerraformWorkspace(
    name: string,
    namespace: string,
    finalizers: seq<string>,
    deletionTimestamp: Option<string>,
    spec: TerraformWorkspaceSpec,
    status: Option<TerraformWorkspaceStatus>)

  /**
   `TerraformWorkspaceConfig`: the resource's dynamic type, which for a
   statically typed custom resource carries no information.
   */
  datatype TerraformWorkspaceConfig = TerraformWorkspaceConfig(dynamicType: ())

  /** The metrics value a TerraformWorkspace controller starts with. */
  datatype TerraformWorkspaceMetrics = TerraformWorkspaceMetrics

  /** `<TerraformWorkspace as kube::Resource>::kind`: the kind does not depend on the (empty) dynamic type. */
  function Kind(dynamicType: ()): (k: string)
    ensures k == TerraformWorkspaceResource.kind
  {
    "TerraformWorkspace"
  }
}

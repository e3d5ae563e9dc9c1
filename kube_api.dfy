/**
 The boundary with the cluster API client (kube-rs) as the core sees it:
 results, requeue actions, the two read calls the preflight issues, and the
 preflight sequence itself, which both the kubox leaf service and the
 tedep-ep controller run before they build a watch.
 */
module KubeApi {

  /** Rust's `Result`. */
  datatype Result<+T, +E> = Ok(value: T) | Err(error: E)

  datatype Option<+T> = None | Some(value: T)

  /** A `std::time::Duration`, in whole seconds (the code only ever builds one with `from_secs`). */
  type Duration = nat

  /** `kube::runtime::controller::Action`: run again after a delay, or wait for the next watch event. */
  datatype Action = RequeueAfter(delay: Duration) | AwaitChange

  /** A `kube::Error`, as far as the core can tell errors apart. */
  datatype KubeError =
    | NotFound(what: string)
    | Api(code: nat, reason: string)
    | Transport(reason: string)

  /** Group, version and kind of a namespaced custom resource. */
  datatype ResourceType = ResourceType(group: string, version: string, kind: string)

  /** `kube::api::ListParams`, reduced to the one field the core sets. */
  datatype ListParams = ListParams(limit: Option<nat>)

  /** `ListParams::default()`: no limit. */
  const DefaultListParams: ListParams := ListParams(None)

  /** `ListParams::default().limit(1)`: the bounded list of a preflight. */
  const ProbeListParams: ListParams := ListParams(Some(1))

  /**
   A `kube::Client`, seen as an oracle: what a GET of a namespace and a list
   of a resource type in a namespace answer right now.
   */
  datatype Client = Client(
    getNamespace: string -> Result<(), KubeError>,
    list: (ResourceType, string, ListParams) -> Result<(), KubeError>)

  /** A request the core sends to the cluster. */
  datatype ApiCall =
    | GetNamespace(name: string)
    | List(resource: ResourceType, namespace: string, params: ListParams)

  /** A watch stream over one resource type in one namespace (`kube::runtime::Controller::new`). */
  datatype Watch = Watch(resource: ResourceType, namespace: string, params: ListParams)

  /** The requests a preflight issued, in order, and what it concluded. */
  datatype Probe = Probe(calls: seq<ApiCall>, outcome: Result<(), KubeError>)

  /**
   Preflight of one controller: fetch the namespace, and only if it exists
   list the resource type in it with limit 1; the first error ends the check.
   */
  function Preflight(client: Client, resource: ResourceType, namespace: string): (p: Probe)
    // the namespace is always asked first
    ensures 1 <= |p.calls| <= 2 && p.calls[0] == GetNamespace(namespace)
    // the list is issued exactly when the namespace exists, and it is bounded to one item
    ensures |p.calls| == 2 <==> client.getNamespace(namespace).Ok?
    ensures |p.calls| == 2 ==> p.calls[1] == List(resource, namespace, ListParams(Some(1)))
    // success needs both checks; each failure is reported as it came
    ensures p.outcome.Ok? <==>
              client.getNamespace(namespace).Ok? && client.list(resource, namespace, ListParams(Some(1))).Ok?
    ensures client.getNamespace(namespace).Err? ==>
              p.outcome == Err(client.getNamespace(namespace).error)
    ensures client.getNamespace(namespace).Ok? && client.list(resource, namespace, ListParams(Some(1))).Err? ==>
              p.outcome == Err(client.list(resource, namespace, ListParams(Some(1))).error)
  {
    match client.getNamespace(namespace)
    case Err(e) => Probe([GetNamespace(namespace)], Err(e))
    case Ok(_) =>
      var calls := [GetNamespace(namespace), List(resource, namespace, ProbeListParams)];
      match client.list(resource, namespace, ProbeListParams)
      case Err(e) => Probe(calls, Err(e))
      case Ok(_) => Probe(calls, Ok(()))
  }
}

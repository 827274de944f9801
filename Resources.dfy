/**
 * Typed views of the three resources the collector joins, the constants it
 * names them by, and the API server they are fetched from.
 *
 * The dynamic client and the unstructured-to-typed conversion are not modelled
 * as code: a fetch followed by its decoding is one lookup in a ResourceStore
 * that yields either the typed object or an error.
 */
module Resources {
  import opened Wrappers

  /** Quantity.Value() yields an int64. */
  newtype int64 = x: int | -0x8000_0000_0000_0000 <= x < 0x8000_0000_0000_0000

  type KubeVendorType = string

  const KubeVendorOpenShift: KubeVendorType := "OpenShift"

  const CreatedViaHive := "Hive"
  const CreatedViaOther := "Other"

  /** The label whose presence on a node marks it as a worker node. */
  const WorkerLabel := "node-role.kubernetes.io/worker"

  /** Capacity resource names (the first is the standard one, the rest are custom). */
  const ResourceCPU := "cpu"
  const ResourceCPUWorker := "cpu_worker"
  const ResourceCore := "core"
  const ResourceCoreWorker := "core_worker"
  const ResourceSocket := "socket"
  const ResourceSocketWorker := "socket_worker"

  const MetricName := "acm_managed_cluster_info"
  const MetricHelp := "Managed cluster information"

  /** The label keys of every sample, in this order. */
  const DefaultLabels: seq<string> := [
    "hub_cluster_id",
    "managed_cluster_id",
    "vendor",
    "cloud",
    "version",
    "created_via",
    "cpu",
    "cpu_worker",
    "core",
    "core_worker",
    "socket",
    "socket_worker"]

  /** A node of the managed cluster; only its labels are read. */
  datatype NodeStatus = NodeStatus(name: string, labels: map<string, string>)

  datatype OCPDistributionInfo = OCPDistributionInfo(version: string)

  datatype DistributionInfo = DistributionInfo(ocp: OCPDistributionInfo)

  datatype ClusterInfoStatus = ClusterInfoStatus(
    clusterID: string,
    kubeVendor: KubeVendorType,
    cloudVendor: string,
    version: string,
    distributionInfo: DistributionInfo,
    nodeList: seq<NodeStatus>)

  /** A ManagedClusterInfo object (namespaced; namespace and name are the cluster name). */
  datatype ManagedClusterInfo = ManagedClusterInfo(name: string, status: ClusterInfoStatus)

  datatype ManagedClusterStatus = ManagedClusterStatus(capacity: map<string, int64>)

  /** A ManagedCluster object (cluster-scoped); its status holds the capacity map. */
  datatype ManagedCluster = ManagedCluster(name: string, status: ManagedClusterStatus)

  /** A Hive ClusterDeployment; nothing in it is read, only whether it was fetched. */
  datatype ClusterDeployment = ClusterDeployment(namespace: string, name: string)

  /** Why a fetch (with its decoding) produced no object. */
  datatype FetchError = NotFound | ServerError(message: string) | DecodeError(message: string)

  type Fetched<T> = Result<T, FetchError>

  /** Namespace and name of a namespaced object. */
  datatype ObjectKey = ObjectKey(namespace: string, name: string)

  /**
   * What the API server answers for each key: a key that is absent is not found;
   * a key that is present maps to the decoded object or to the error the get or
   * the decoding would report. Only the ManagedClusterInfo and ManagedCluster are
   * decoded; a ClusterDeployment is fetched as an untyped object, so DecodeError
   * does not arise for it (any error it has is read the same way).
   */
  datatype ResourceStore = ResourceStore(
    clusterInfos: map<ObjectKey, Fetched<ManagedClusterInfo>>,
    clusters: map<string, Fetched<ManagedCluster>>,
    deployments: map<ObjectKey, Fetched<ClusterDeployment>>)

  function Lookup<K, T>(m: map<K, Fetched<T>>, k: K): Fetched<T> {
    if k in m then m[k] else Err(NotFound)
  }

  /** Get of a ManagedClusterInfo, namespaced. */
  function GetClusterInfo(store: ResourceStore, namespace: string, name: string): Fetched<ManagedClusterInfo> {
    Lookup(store.clusterInfos, ObjectKey(namespace, name))
  }

  /** Get of a ManagedCluster, cluster-scoped. */
  function GetCluster(store: ResourceStore, name: string): Fetched<ManagedCluster> {
    Lookup(store.clusters, name)
  }

  /** Get of a ClusterDeployment, namespaced. */
  function GetDeployment(store: ResourceStore, namespace: string, name: string): Fetched<ClusterDeployment> {
    Lookup(store.deployments, ObjectKey(namespace, name))
  }
}

/**
 * Concrete clusters run through the generator: the cluster-ID fallback on and
 * off OpenShift, a missing worker-CPU entry with and without worker nodes, and
 * a ClusterDeployment that is not found.
 */
module Scenarios {
  import opened Wrappers
  import opened Resources
  import opened Decimal
  import opened ClusterInfoMetric

  const Hub := "hub-1"

  function Info(vendor: KubeVendorType, clusterID: string, workers: bool): ManagedClusterInfo {
    var node := NodeStatus("n1", if workers then map[WorkerLabel := ""] else map["node-role.kubernetes.io/master" := ""]);
    ManagedClusterInfo(
      "c1",
      ClusterInfoStatus(clusterID, vendor, "AWS", "1.21.1",
                        DistributionInfo(OCPDistributionInfo("4.10.2")), [node]))
  }

  const FullCapacity: map<string, int64> := map[
    ResourceCPU := 16, ResourceCPUWorker := 8, ResourceCore := 8,
    ResourceCoreWorker := 4, ResourceSocket := 2, ResourceSocketWorker := 1]

  function Cluster(capacity: map<string, int64>): ManagedCluster {
    ManagedCluster("c1", ManagedClusterStatus(capacity))
  }

  const Deployment: Fetched<ClusterDeployment> := Ok(ClusterDeployment("c1", "c1"))

  /** The decimal labels the scenarios expect. */
  lemma SmallDecimals()
    ensures FormatInt(16) == "16" && FormatInt(8) == "8" && FormatInt(4) == "4"
    ensures FormatInt(2) == "2" && FormatInt(1) == "1" && FormatInt(0) == "0"
  {
  }

  /** On OpenShift an empty cluster ID is not replaced by the name: nothing is published. */
  lemma OpenShiftEmptyClusterIDSuppressed()
    ensures Generate(Hub, Ok(Info(KubeVendorOpenShift, "", true)), Ok(Cluster(FullCapacity)), Deployment) == []
  {
  }

  /** The same cluster with an explicit ID is published with the OpenShift version. */
  lemma OpenShiftPublished()
    ensures Generate(Hub, Ok(Info(KubeVendorOpenShift, "id-1", true)), Ok(Cluster(FullCapacity)), Deployment)
      == [Sample(DefaultLabels,
                 ["hub-1", "id-1", "OpenShift", "AWS", "4.10.2", "Hive", "16", "8", "8", "4", "2", "1"], 1.0)]
  {
    var mci := Info(KubeVendorOpenShift, "id-1", true);
    assert CapacityOf(Cluster(FullCapacity)) == Capacity(16, 8, 8, 4, 2, 1);
    assert HasWorkerNode(mci.status.nodeList) by {
      assert WorkerLabel in mci.status.nodeList[0].labels;
    }
    SmallDecimals();
  }

  /** Off OpenShift an empty cluster ID falls back to the name, and the generic version is used. */
  lemma OtherVendorFallsBackToName()
    ensures Generate(Hub, Ok(Info("IKS", "", true)), Ok(Cluster(FullCapacity)), Deployment)
      == [Sample(DefaultLabels,
                 ["hub-1", "c1", "IKS", "AWS", "1.21.1", "Hive", "16", "8", "8", "4", "2", "1"], 1.0)]
  {
    var mci := Info("IKS", "", true);
    assert CapacityOf(Cluster(FullCapacity)) == Capacity(16, 8, 8, 4, 2, 1);
    assert HasWorkerNode(mci.status.nodeList) by {
      assert WorkerLabel in mci.status.nodeList[0].labels;
    }
    SmallDecimals();
  }

  /** No cpu_worker entry while a worker node exists: the record is incomplete. */
  lemma MissingWorkerCPUWithWorkerSuppressed()
    ensures Generate(Hub, Ok(Info("IKS", "", true)), Ok(Cluster(FullCapacity - {ResourceCPUWorker})), Deployment) == []
  {
    var mci := Info("IKS", "", true);
    assert WorkerLabel in mci.status.nodeList[0].labels;
  }

  /** No cpu_worker entry and no worker node: published, with cpu_worker "0". */
  lemma MissingWorkerCPUWithoutWorkerPublished()
    ensures Generate(Hub, Ok(Info("IKS", "", false)), Ok(Cluster(FullCapacity - {ResourceCPUWorker})), Deployment)
      == [Sample(DefaultLabels,
                 ["hub-1", "c1", "IKS", "AWS", "1.21.1", "Hive", "16", "0", "8", "4", "2", "1"], 1.0)]
  {
    var mci := Info("IKS", "", false);
    assert CapacityOf(Cluster(FullCapacity - {ResourceCPUWorker})) == Capacity(16, 0, 8, 4, 2, 1);
    assert ResolveClusterID(mci) == "c1" && GetVersion(mci) == "1.21.1";
    assert !HasWorkerNode(mci.status.nodeList) by {
      assert WorkerLabel != "node-role.kubernetes.io/master";
    }
    SmallDecimals();
  }

  /** A ClusterDeployment that is not found only turns created_via into "Other". */
  lemma DeploymentNotFoundIsOther()
    ensures Generate(Hub, Ok(Info("IKS", "", true)), Ok(Cluster(FullCapacity)), Err(NotFound))
      == [Sample(DefaultLabels,
                 ["hub-1", "c1", "IKS", "AWS", "1.21.1", "Other", "16", "8", "8", "4", "2", "1"], 1.0)]
  {
    var mci := Info("IKS", "", true);
    assert CapacityOf(Cluster(FullCapacity)) == Capacity(16, 8, 8, 4, 2, 1);
    assert HasWorkerNode(mci.status.nodeList) by {
      assert WorkerLabel in mci.status.nodeList[0].labels;
    }
    SmallDecimals();
  }
}

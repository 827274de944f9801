/**
 * The join-and-gate pipeline behind the acm_managed_cluster_info gauge: for one
 * managed cluster it joins the ManagedClusterInfo, the ManagedCluster and the
 * optional Hive ClusterDeployment and yields zero or one sample.
 *
 * The pieces the generator is built from come first (version selection, worker
 * detection, capacity lookup, cluster-ID fallback, provenance, the completeness
 * gate, the label values); Generate composes them over fetch results and Collect
 * performs the three fetches against a ResourceStore with the keys the
 * generator uses. The lemmas at the end state what a caller may rely on.
 */
module ClusterInfoMetric {
  import opened Wrappers
  import opened Resources
  import opened Decimal

  /** One sample of the family: label keys, positionally matching label values, a value. */
  datatype Sample = Sample(labelKeys: seq<string>, labelValues: seq<string>, value: real)

  /* ---------------------------------------------------------------- version */

  /** The version field that applies to the cluster's vendor. */
  function GetVersion(mci: ManagedClusterInfo): (v: string)
    ensures mci.status.kubeVendor == "" ==> v == ""
    ensures v == "" || v == mci.status.distributionInfo.ocp.version || v == mci.status.version
  {
    if mci.status.kubeVendor == "" then ""
    else if mci.status.kubeVendor == KubeVendorOpenShift then mci.status.distributionInfo.ocp.version
    else mci.status.version
  }

  /* ---------------------------------------------------------------- workers */

  /** Some node of the list carries the worker-role label, whatever its value. */
  predicate HasWorkerNode(nodes: seq<NodeStatus>)
    ensures HasWorkerNode(nodes) <==> exists n | n in nodes :: WorkerLabel in n.labels
  {
    exists i | 0 <= i < |nodes| :: WorkerLabel in nodes[i].labels
  }

  /** Scans the node list and stops at the first worker node. */
  method HasWorker(mci: ManagedClusterInfo) returns (found: bool)
    ensures found <==> HasWorkerNode(mci.status.nodeList)
  {
    var nodes := mci.status.nodeList;
    for i := 0 to |nodes|
      invariant forall k | 0 <= k < i :: WorkerLabel !in nodes[k].labels
    {
      if WorkerLabel in nodes[i].labels {
        return true;
      }
    }
    return false;
  }

  /* --------------------------------------------------------------- capacity */

  /** The six capacity figures a sample reports. */
  datatype Capacity = Capacity(
    cpu: int64, cpuWorker: int64, core: int64, coreWorker: int64, socket: int64, socketWorker: int64)

  /** The quantity recorded under a resource name; an absent name counts as 0. */
  function Quantity(capacity: map<string, int64>, resource: string): int64 {
    if resource in capacity then capacity[resource] else 0
  }

  function CapacityOf(mc: ManagedCluster): (c: Capacity)
    ensures forall k | 0 <= k < |CapacityResources| ::
      Figure(c, CapacityResources[k]) == Quantity(mc.status.capacity, CapacityResources[k])
  {
    var c := mc.status.capacity;
    Capacity(
      Quantity(c, ResourceCPU), Quantity(c, ResourceCPUWorker),
      Quantity(c, ResourceCore), Quantity(c, ResourceCoreWorker),
      Quantity(c, ResourceSocket), Quantity(c, ResourceSocketWorker))
  }

  /** The resource names of the six figures, in the order they are reported. */
  const CapacityResources: seq<string> := [
    ResourceCPU, ResourceCPUWorker, ResourceCore, ResourceCoreWorker, ResourceSocket, ResourceSocketWorker]

  /** The figure reported for a resource name. */
  function Figure(c: Capacity, resource: string): int64 {
    if resource == ResourceCPU then c.cpu
    else if resource == ResourceCPUWorker then c.cpuWorker
    else if resource == ResourceCore then c.core
    else if resource == ResourceCoreWorker then c.coreWorker
    else if resource == ResourceSocket then c.socket
    else if resource == ResourceSocketWorker then c.socketWorker
    else 0
  }

  /** Reads the six figures one by one, leaving 0 where the name is absent. */
  method GetCapacity(mc: ManagedCluster)
    returns (cpu: int64, cpuWorker: int64, core: int64, coreWorker: int64, socket: int64, socketWorker: int64)
    ensures forall k | 0 <= k < |CapacityResources| ::
      var resource := CapacityResources[k];
      Figure(Capacity(cpu, cpuWorker, core, coreWorker, socket, socketWorker), resource)
        == if resource in mc.status.capacity then mc.status.capacity[resource] else 0
  {
    var capacity := mc.status.capacity;
    cpu, cpuWorker, core, coreWorker, socket, socketWorker := 0, 0, 0, 0, 0, 0;
    if ResourceCPU in capacity {
      cpu := capacity[ResourceCPU];
    }
    if ResourceCPUWorker in capacity {
      cpuWorker := capacity[ResourceCPUWorker];
    }
    if ResourceCore in capacity {
      core := capacity[ResourceCore];
    }
    if ResourceCoreWorker in capacity {
      coreWorker := capacity[ResourceCoreWorker];
    }
    if ResourceSocket in capacity {
      socket := capacity[ResourceSocket];
    }
    if ResourceSocketWorker in capacity {
      socketWorker := capacity[ResourceSocketWorker];
    }
  }

  /* ------------------------------------------------------------- cluster ID */

  /**
   * The managed cluster ID: the status's cluster ID, or, when that is empty and
   * the vendor is not OpenShift, the object's name.
   */
  function ResolveClusterID(mci: ManagedClusterInfo): (id: string)
    ensures mci.status.clusterID != "" ==> id == mci.status.clusterID
    ensures id == mci.status.clusterID || id == mci.name
    ensures id == "" <==>
      mci.status.clusterID == "" && (mci.status.kubeVendor == KubeVendorOpenShift || mci.name == "")
  {
    var id := mci.status.clusterID;
    if id == "" && mci.status.kubeVendor != KubeVendorOpenShift then mci.name else id
  }

  /* ------------------------------------------------------------- provenance */

  /** "Hive" when the ClusterDeployment was fetched, "Other" on any error. */
  function CreatedVia(cd: Fetched<ClusterDeployment>): (via: string)
    ensures via == CreatedViaHive <==> cd.Ok?
    ensures via == CreatedViaOther <==> cd.Err?
  {
    if cd.Err? then CreatedViaOther else CreatedViaHive
  }

  /* ------------------------------------------------------------------- gate */

  /** Enough is known about the cluster to publish a sample. */
  predicate IsComplete(
    clusterID: string, kubeVendor: KubeVendorType, cloudVendor: string, version: string,
    capacity: Capacity, hasWorker: bool)
    ensures IsComplete(clusterID, kubeVendor, cloudVendor, version, capacity, hasWorker) ==>
      clusterID != "" && kubeVendor != "" && cloudVendor != "" && version != "" && capacity.cpu != 0
  {
    !(clusterID == "" ||
      kubeVendor == "" ||
      cloudVendor == "" ||
      version == "" ||
      capacity.cpu == 0 ||
      (capacity.cpuWorker == 0 && hasWorker))
  }

  /* ----------------------------------------------------------------- labels */

  /** The label values, positionally matching DefaultLabels. */
  function LabelValues(
    hubClusterID: string, clusterID: string, mci: ManagedClusterInfo, version: string,
    createdVia: string, c: Capacity): (values: seq<string>)
    ensures |values| == |DefaultLabels|
    ensures values[..6] == [hubClusterID, clusterID, mci.status.kubeVendor, mci.status.cloudVendor, version, createdVia]
  {
    [hubClusterID,
     clusterID,
     mci.status.kubeVendor,
     mci.status.cloudVendor,
     version,
     createdVia,
     FormatInt(c.cpu as int),
     FormatInt(c.cpuWorker as int),
     FormatInt(c.core as int),
     FormatInt(c.coreWorker as int),
     FormatInt(c.socket as int),
     FormatInt(c.socketWorker as int)]
  }

  /* -------------------------------------------------------------- generator */

  /** The generator over the outcomes of the three fetches. */
  function Generate(
    hubClusterID: string,
    mciRes: Fetched<ManagedClusterInfo>,
    mcRes: Fetched<ManagedCluster>,
    cdRes: Fetched<ClusterDeployment>): (samples: seq<Sample>)
    ensures |samples| <= 1
  {
    match mciRes
    case Err(_) => []
    case Ok(mci) =>
      match mcRes
      case Err(_) => []
      case Ok(mc) =>
        var createdVia := CreatedVia(cdRes);
        var clusterID := ResolveClusterID(mci);
        var version := GetVersion(mci);
        var capacity := CapacityOf(mc);
        if !IsComplete(clusterID, mci.status.kubeVendor, mci.status.cloudVendor, version,
                       capacity, HasWorkerNode(mci.status.nodeList))
        then []
        else [Sample(DefaultLabels, LabelValues(hubClusterID, clusterID, mci, version, createdVia, capacity), 1.0)]
  }

  /**
   * The generator for the object named objName: the ManagedClusterInfo is fetched
   * with objName as namespace and name, then the ManagedCluster by the info's
   * name (cluster-scoped) and the ClusterDeployment with the info's name as
   * namespace and name.
   */
  function Collect(hubClusterID: string, store: ResourceStore, objName: string): (samples: seq<Sample>)
    ensures |samples| <= 1
    ensures GetClusterInfo(store, objName, objName).Err? ==> samples == []
  {
    var mciRes := GetClusterInfo(store, objName, objName);
    match mciRes
    case Err(_) => []
    case Ok(mci) =>
      Generate(hubClusterID, mciRes, GetCluster(store, mci.name), GetDeployment(store, mci.name, mci.name))
  }

  /* ----------------------------------------------------------------- lemmas */

  /** The version comes from the field that belongs to the vendor, and from no other. */
  lemma VersionSelection(mci: ManagedClusterInfo, other: ManagedClusterInfo)
    ensures mci.status.kubeVendor == "" ==> GetVersion(mci) == ""
    ensures mci.status.kubeVendor == KubeVendorOpenShift ==>
      GetVersion(mci) == mci.status.distributionInfo.ocp.version
    ensures mci.status.kubeVendor != "" && mci.status.kubeVendor != KubeVendorOpenShift ==>
      GetVersion(mci) == mci.status.version
    ensures other.status.kubeVendor == mci.status.kubeVendor == KubeVendorOpenShift &&
            other.status.distributionInfo == mci.status.distributionInfo ==>
      GetVersion(other) == GetVersion(mci)
    ensures other.status.kubeVendor == mci.status.kubeVendor != KubeVendorOpenShift &&
            other.status.version == mci.status.version ==>
      GetVersion(other) == GetVersion(mci)
  {
  }

  /** An empty node list has no worker; appending nodes never removes one. */
  lemma {:induction false} WorkerDetection(nodes: seq<NodeStatus>, more: seq<NodeStatus>)
    ensures !HasWorkerNode([])
    ensures HasWorkerNode(nodes + more) <==> HasWorkerNode(nodes) || HasWorkerNode(more)
  {
    var all := nodes + more;
    if HasWorkerNode(all) {
      var i :| 0 <= i < |all| && WorkerLabel in all[i].labels;
      if i >= |nodes| {
        assert more[i - |nodes|] == all[i];
      }
    }
    if HasWorkerNode(nodes) {
      var j :| 0 <= j < |nodes| && WorkerLabel in nodes[j].labels;
      assert all[j] == nodes[j];
    }
    if HasWorkerNode(more) {
      var j :| 0 <= j < |more| && WorkerLabel in more[j].labels;
      assert all[|nodes| + j] == more[j];
    }
  }

  /**
   * Each figure is the quantity recorded under its own resource name, or 0 when
   * the name is absent; so it depends on that entry of the capacity map only.
   */
  lemma CapacityLookup(mc: ManagedCluster, other: ManagedCluster, resource: string)
    requires resource in CapacityResources
    ensures resource in mc.status.capacity ==> Figure(CapacityOf(mc), resource) == mc.status.capacity[resource]
    ensures resource !in mc.status.capacity ==> Figure(CapacityOf(mc), resource) == 0
    ensures Quantity(other.status.capacity, resource) == Quantity(mc.status.capacity, resource) ==>
      Figure(CapacityOf(other), resource) == Figure(CapacityOf(mc), resource)
  {
  }

  /** Emptying any identifying field, or reporting no CPU, fails the gate. */
  lemma GateNeedsEveryField(
    clusterID: string, kubeVendor: KubeVendorType, cloudVendor: string, version: string,
    capacity: Capacity, hasWorker: bool)
    requires IsComplete(clusterID, kubeVendor, cloudVendor, version, capacity, hasWorker)
    ensures !IsComplete("", kubeVendor, cloudVendor, version, capacity, hasWorker)
    ensures !IsComplete(clusterID, "", cloudVendor, version, capacity, hasWorker)
    ensures !IsComplete(clusterID, kubeVendor, "", version, capacity, hasWorker)
    ensures !IsComplete(clusterID, kubeVendor, cloudVendor, "", capacity, hasWorker)
    ensures !IsComplete(clusterID, kubeVendor, cloudVendor, version, capacity.(cpu := 0), hasWorker)
  {
  }

  /**
   * Zero worker CPU fails the gate when the cluster has a worker node, and is
   * irrelevant to the gate when it has none.
   */
  lemma WorkerZeroException(
    clusterID: string, kubeVendor: KubeVendorType, cloudVendor: string, version: string,
    capacity: Capacity, cpuWorker: int64)
    ensures !IsComplete(clusterID, kubeVendor, cloudVendor, version, capacity.(cpuWorker := 0), true)
    ensures IsComplete(clusterID, kubeVendor, cloudVendor, version, capacity.(cpuWorker := 0), false)
       <==> IsComplete(clusterID, kubeVendor, cloudVendor, version, capacity.(cpuWorker := cpuWorker), false)
  {
  }

  /** A failed or undecodable ManagedClusterInfo or ManagedCluster yields nothing. */
  lemma FetchFailureSuppresses(
    hubClusterID: string,
    mciRes: Fetched<ManagedClusterInfo>,
    mcRes: Fetched<ManagedCluster>,
    cdRes: Fetched<ClusterDeployment>)
    requires mciRes.Err? || mcRes.Err?
    ensures Generate(hubClusterID, mciRes, mcRes, cdRes) == []
  {
  }

  /**
   * With both objects at hand, no sample is produced exactly when the cluster ID,
   * the vendor, the cloud or the version is empty, the CPU capacity is 0, or the
   * worker CPU capacity is 0 while some node is a worker.
   */
  lemma SuppressedExactly(
    hubClusterID: string, mci: ManagedClusterInfo, mc: ManagedCluster, cdRes: Fetched<ClusterDeployment>)
    ensures Generate(hubClusterID, Ok(mci), Ok(mc), cdRes) == [] <==>
      ResolveClusterID(mci) == "" ||
      mci.status.kubeVendor == "" ||
      mci.status.cloudVendor == "" ||
      GetVersion(mci) == "" ||
      Quantity(mc.status.capacity, ResourceCPU) == 0 ||
      (Quantity(mc.status.capacity, ResourceCPUWorker) == 0 && HasWorkerNode(mci.status.nodeList))
  {
  }

  /**
   * A published sample has value 1, the twelve default label keys, and twelve
   * values in the same order: hub ID, cluster ID, vendor, cloud, version,
   * provenance, then the six capacity figures in decimal, each of which reads
   * back as the quantity recorded under its resource name (0 when absent).
   */
  lemma SuccessShape(
    hubClusterID: string, mci: ManagedClusterInfo, mc: ManagedCluster, cdRes: Fetched<ClusterDeployment>)
    requires Generate(hubClusterID, Ok(mci), Ok(mc), cdRes) != []
    ensures var samples := Generate(hubClusterID, Ok(mci), Ok(mc), cdRes);
      && |samples| == 1
      && samples[0].value == 1.0
      && samples[0].labelKeys == DefaultLabels
      && |samples[0].labelValues| == |DefaultLabels| == 12
      && samples[0].labelValues[0] == hubClusterID
      && samples[0].labelValues[1] == ResolveClusterID(mci)
      && samples[0].labelValues[2] == mci.status.kubeVendor
      && samples[0].labelValues[3] == mci.status.cloudVendor
      && samples[0].labelValues[4] == GetVersion(mci)
      && samples[0].labelValues[5] == CreatedVia(cdRes)
      && DefaultLabels[6..] == CapacityResources
      && forall k | 0 <= k < |CapacityResources| ::
           && samples[0].labelValues[6 + k] == FormatInt(Quantity(mc.status.capacity, CapacityResources[k]) as int)
           && ParseInt(samples[0].labelValues[6 + k]) == Some(Quantity(mc.status.capacity, CapacityResources[k]) as int)
  {
    var c := CapacityOf(mc);
    var values := LabelValues(hubClusterID, ResolveClusterID(mci), mci, GetVersion(mci), CreatedVia(cdRes), c);
    assert Generate(hubClusterID, Ok(mci), Ok(mc), cdRes) == [Sample(DefaultLabels, values, 1.0)];
    CapacityReadsBack(values, c, mc);
    assert DefaultLabels[6..] == CapacityResources;
  }

  /** The six decimal labels parse back to the six capacity figures. */
  lemma CapacityReadsBack(values: seq<string>, c: Capacity, mc: ManagedCluster)
    requires c == CapacityOf(mc)
    requires |values| == 12
    requires values[6..] == [
      FormatInt(c.cpu as int), FormatInt(c.cpuWorker as int), FormatInt(c.core as int),
      FormatInt(c.coreWorker as int), FormatInt(c.socket as int), FormatInt(c.socketWorker as int)]
    ensures forall k | 0 <= k < |CapacityResources| ::
      && values[6 + k] == FormatInt(Quantity(mc.status.capacity, CapacityResources[k]) as int)
      && ParseInt(values[6 + k]) == Some(Quantity(mc.status.capacity, CapacityResources[k]) as int)
  {
    forall k | 0 <= k < |CapacityResources|
      ensures values[6 + k] == FormatInt(Quantity(mc.status.capacity, CapacityResources[k]) as int)
      ensures ParseInt(values[6 + k]) == Some(Quantity(mc.status.capacity, CapacityResources[k]) as int)
    {
      var q := Quantity(mc.status.capacity, CapacityResources[k]);
      assert values[6 + k] == values[6..][k] == FormatInt(q as int);
      FormatIntRoundTrip(q as int);
    }
  }

  /**
   * The ClusterDeployment fetch never decides whether a sample is produced; it
   * changes only the created_via label.
   */
  lemma ProvenanceNeverSuppresses(
    hubClusterID: string, mci: ManagedClusterInfo, mc: ManagedCluster,
    cdRes: Fetched<ClusterDeployment>, cdRes': Fetched<ClusterDeployment>)
    ensures var a := Generate(hubClusterID, Ok(mci), Ok(mc), cdRes);
            var b := Generate(hubClusterID, Ok(mci), Ok(mc), cdRes');
      && |a| == |b|
      && forall i | 0 <= i < |a| ::
           a[i].labelKeys == b[i].labelKeys && a[i].value == b[i].value &&
           |a[i].labelValues| == |b[i].labelValues| == 12 &&
           forall k | 0 <= k < 12 && k != 5 :: a[i].labelValues[k] == b[i].labelValues[k]
  {
  }

  /**
   * Collect consults the store only at the ManagedClusterInfo key (objName,
   * objName) and, once that object is known, at the ManagedCluster key and the
   * ClusterDeployment key given by its name.
   */
  lemma CollectReadsOnlyItsKeys(hubClusterID: string, store: ResourceStore, store': ResourceStore, objName: string)
    requires GetClusterInfo(store, objName, objName) == GetClusterInfo(store', objName, objName)
    requires GetClusterInfo(store, objName, objName).Ok? ==>
      var name := GetClusterInfo(store, objName, objName).value.name;
      GetCluster(store, name) == GetCluster(store', name) &&
      GetDeployment(store, name, name) == GetDeployment(store', name, name)
    ensures Collect(hubClusterID, store, objName) == Collect(hubClusterID, store', objName)
  {
  }
}

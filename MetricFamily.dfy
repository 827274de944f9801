/**
 * The generator closure and its wrapper, on heap objects.
 *
 * A metric's label keys and label values are slices. The generator hands out the
 * package-level default-label slice itself as every metric's label keys, so
 * metrics and the global share one backing array. The wrapper gives each metric
 * private copies of both slices. Here slices are arrays, so sharing and
 * freshness can be stated.
 */
module MetricFamily {
  import opened Wrappers
  import opened Resources
  import opened Decimal
  import opened ClusterInfoMetric

  class Metric {
    var labelKeys: array<string>
    var labelValues: array<string>
    var value: real

    constructor (keys: array<string>, values: array<string>, value: real)
      ensures labelKeys == keys && labelValues == values && this.value == value
    {
      labelKeys := keys;
      labelValues := values;
      this.value := value;
    }

    /** The metric's current contents as a value. */
    function AsSample(): Sample
      reads this, labelKeys, labelValues
    {
      Sample(labelKeys[..], labelValues[..], value)
    }
  }

  /** append([]string{}, src...): a new backing array with the same elements. */
  method CopyOf(src: array<string>) returns (dst: array<string>)
    ensures fresh(dst) && dst[..] == src[..]
  {
    dst := new string[src.Length];
    for i := 0 to src.Length
      invariant dst[..i] == src[..i]
    {
      dst[i] := src[i];
    }
  }

  /** A new array holding the given slice literal. */
  method NewStrings(s: seq<string>) returns (a: array<string>)
    ensures fresh(a) && a[..] == s
  {
    a := new string[|s|](i requires 0 <= i < |s| => s[i]);
  }

  /**
   * The generator closure for the object named objName: fetches with early
   * returns, cluster-ID fallback, version and capacity, the gate (worker
   * detection only when it can decide the outcome), and one metric whose label
   * keys are the shared defaultLabels array.
   */
  method GenerateFamily(hubClusterID: string, defaultLabels: array<string>, store: ResourceStore, objName: string)
    returns (family: seq<Metric>)
    requires defaultLabels[..] == DefaultLabels
    ensures |family| == |Collect(hubClusterID, store, objName)|
    ensures forall i | 0 <= i < |family| ::
      && fresh(family[i])
      && family[i].labelKeys == defaultLabels
      && fresh(family[i].labelValues)
      && family[i].AsSample() == Collect(hubClusterID, store, objName)[i]
  {
    family := [];
    var mciRes := GetClusterInfo(store, objName, objName);
    if mciRes.Err? {
      return;
    }
    var mci := mciRes.value;
    var mcRes := GetCluster(store, mci.name);
    if mcRes.Err? {
      return;
    }
    var mc := mcRes.value;
    var createdVia := CreatedViaHive;
    var cdRes := GetDeployment(store, mci.name, mci.name);
    if cdRes.Err? {
      createdVia := CreatedViaOther;
    }
    var clusterID := mci.status.clusterID;
    if clusterID == "" && mci.status.kubeVendor != KubeVendorOpenShift {
      clusterID := mci.name;
    }
    var version := GetVersion(mci);
    var cpu, cpuWorker, core, coreWorker, socket, socketWorker := GetCapacity(mc);
    assert Capacity(cpu, cpuWorker, core, coreWorker, socket, socketWorker) == CapacityOf(mc) by {
      assert CapacityResources[0] == ResourceCPU && CapacityResources[1] == ResourceCPUWorker;
      assert CapacityResources[2] == ResourceCore && CapacityResources[3] == ResourceCoreWorker;
      assert CapacityResources[4] == ResourceSocket && CapacityResources[5] == ResourceSocketWorker;
    }

    var incomplete :=
      clusterID == "" ||
      mci.status.kubeVendor == "" ||
      mci.status.cloudVendor == "" ||
      version == "" ||
      cpu == 0;
    if !incomplete && cpuWorker == 0 {
      incomplete := HasWorker(mci);
    }
    if incomplete {
      return;
    }
    var values := NewStrings([
      hubClusterID,
      clusterID,
      mci.status.kubeVendor,
      mci.status.cloudVendor,
      version,
      createdVia,
      FormatInt(cpu as int),
      FormatInt(cpuWorker as int),
      FormatInt(core as int),
      FormatInt(coreWorker as int),
      FormatInt(socket as int),
      FormatInt(socketWorker as int)]);
    var m := new Metric(defaultLabels, values, 1.0);
    family := [m];
  }

  /**
   * The wrapper's loop: every metric gets fresh copies of its label keys and
   * label values, with the same contents; nothing else about it changes.
   */
  method WrapFamily(family: seq<Metric>)
    modifies set i | 0 <= i < |family| :: family[i]
    ensures forall i | 0 <= i < |family| ::
      && fresh(family[i].labelKeys)
      && fresh(family[i].labelValues)
      && family[i].labelKeys[..] == old(family[i].labelKeys[..])
      && family[i].labelValues[..] == old(family[i].labelValues[..])
      && family[i].value == old(family[i].value)
  {
    for i := 0 to |family|
      invariant forall k | 0 <= k < i :: fresh(family[k].labelKeys) && fresh(family[k].labelValues)
      invariant forall k | 0 <= k < |family| ::
        && family[k].labelKeys[..] == old(family[k].labelKeys[..])
        && family[k].labelValues[..] == old(family[k].labelValues[..])
        && family[k].value == old(family[k].value)
    {
      var m := family[i];
      m.labelKeys := CopyOf(m.labelKeys);
      m.labelValues := CopyOf(m.labelValues);
    }
  }

  /**
   * The registered generator: the closure followed by the wrapper. Every metric
   * it returns carries the sample Collect specifies, and no metric shares a
   * label array with the package-level default labels any more.
   */
  method WrappedGenerateFamily(hubClusterID: string, defaultLabels: array<string>, store: ResourceStore, objName: string)
    returns (family: seq<Metric>)
    requires defaultLabels[..] == DefaultLabels
    ensures |family| == |Collect(hubClusterID, store, objName)| <= 1
    ensures forall i | 0 <= i < |family| ::
      && fresh(family[i])
      && fresh(family[i].labelKeys)
      && fresh(family[i].labelValues)
      && family[i].AsSample() == Collect(hubClusterID, store, objName)[i]
    ensures defaultLabels[..] == DefaultLabels
  {
    family := GenerateFamily(hubClusterID, defaultLabels, store, objName);
    WrapFamily(family);
  }
}

# acm_managed_cluster_info: the join-and-gate pipeline, in Dafny

This project models the collector in `pkg/collectors/managedclusterinfo.go` of
ocm-state-metrics. For each managed cluster, the collector joins three resources
and publishes at most one sample of the gauge `acm_managed_cluster_info`:

- the ManagedClusterInfo, which gives the cluster ID, kube vendor, cloud vendor, versions and node list;
- the ManagedCluster, which gives the capacity map;
- an optional Hive ClusterDeployment, which gives provenance.

The cluster ID falls back to the object name, but only off OpenShift. The
version is chosen by vendor, and six capacity figures are read with "absent
means 0". A completeness gate then decides whether a sample with twelve labels
and value 1 is published.

Modules:

- `Wrappers`: the `Result` and `Option` types.
- `Decimal`: `strconv.FormatInt(v, 10)` as `FormatInt`, and `ParseInt`, a left inverse of it.
  `ParseInt` also accepts text that `FormatInt` never produces, such as "016".
- `Resources`: typed views of the three resources and the constants of lines 24-51. A
  `ResourceStore` stands in for the API server: a get followed by its decoding is one
  lookup that yields the object or a `FetchError`, and an absent key means not found.
- `ClusterInfoMetric`: the pure pipeline. It holds `GetVersion`, `HasWorkerNode`/`HasWorker`,
  `CapacityOf`/`GetCapacity`, `ResolveClusterID`, `CreatedVia`, the gate `IsComplete`
  and `LabelValues`. `Generate` composes them over the three fetch outcomes,
  and `Collect` performs the fetches with the keys the closure uses. The lemmas
  about them follow.
- `MetricFamily`: the closure body and the wrapper on heap objects. A metric's
  label slices are arrays, so two metrics can be shown to share one. The closure
  (`GenerateFamily`) gives every metric the package-level default-label array as
  its keys. The wrapper (`WrapFamily`) replaces both slices of every metric with
  fresh copies.
- `Scenarios`: concrete clusters run through `Generate`.

On OpenShift, an empty `Status.ClusterID` is not replaced by the object's name
(line 119), so such a cluster publishes nothing
(`Scenarios.OpenShiftEmptyClusterIDSuppressed`). For other vendors, the name is
used (`Scenarios.OtherVendorFallsBackToName`). The code does not check that
capacities are non-negative, so the model does not claim it.

## Model

| member | source | states |
|---|---|---|
| `ClusterInfoMetric.GetVersion` | pkg/collectors/managedclusterinfo.go:182-193 | The version is empty for an empty vendor, and is otherwise one of the two version fields; which one is specified by VersionSelection |
| `ClusterInfoMetric.VersionSelection` | pkg/collectors/managedclusterinfo.go:182-193 | The version is "" for an empty vendor, the OCP distribution version for OpenShift, and the generic version otherwise; for OpenShift it ignores the generic field, and for other vendors it ignores the OCP field |
| `ClusterInfoMetric.HasWorkerNode` | pkg/collectors/managedclusterinfo.go:207-214 | The reference definition of hasWorker: some node of the list, at any position, has the worker-role label key |
| `ClusterInfoMetric.HasWorker` | pkg/collectors/managedclusterinfo.go:207-214 | The loop with its early return is true exactly when some node's labels contain `node-role.kubernetes.io/worker`, whatever the value |
| `ClusterInfoMetric.WorkerDetection` | pkg/collectors/managedclusterinfo.go:207-214 | An empty node list has no worker node; a concatenated list has a worker node iff one of its parts has one |
| `ClusterInfoMetric.CapacityOf` | pkg/collectors/managedclusterinfo.go:216-236 | getCapacity as a function: each of the six figures is the quantity under its own resource name, or 0 when absent (see also CapacityLookup) |
| `ClusterInfoMetric.GetCapacity` | pkg/collectors/managedclusterinfo.go:216-236 | Each of the six outputs equals the quantity under its own resource name (cpu, cpu_worker, core, core_worker, socket, socket_worker) when present, and 0 when absent |
| `ClusterInfoMetric.CapacityLookup` | pkg/collectors/managedclusterinfo.go:216-236 | Each capacity figure is the recorded quantity or 0 when absent, and two capacity maps that agree on one name give the same figure for that name |
| `ClusterInfoMetric.ResolveClusterID` | pkg/collectors/managedclusterinfo.go:118-121 | A non-empty status cluster ID is kept; the result is always the status ID or the object name; it is empty iff the status ID is empty and the vendor is OpenShift or the name is empty |
| `ClusterInfoMetric.CreatedVia` | pkg/collectors/managedclusterinfo.go:110-117 | created_via is "Hive" iff the ClusterDeployment fetch succeeded and "Other" iff it failed for any reason, not-found included |
| `ClusterInfoMetric.IsComplete` | pkg/collectors/managedclusterinfo.go:125-130 | A complete record has a non-empty cluster ID, vendor, cloud and version and a non-zero cpu figure; the worker-CPU clause is specified by WorkerZeroException and SuppressedExactly |
| `ClusterInfoMetric.GateNeedsEveryField` | pkg/collectors/managedclusterinfo.go:125-130 | Starting from a complete record, emptying the cluster ID, the vendor, the cloud or the version, or setting cpu to 0, fails the gate |
| `ClusterInfoMetric.WorkerZeroException` | pkg/collectors/managedclusterinfo.go:125-130 | Zero worker CPU fails the gate when a worker node exists; without a worker node, the worker CPU figure does not affect the gate |
| `ClusterInfoMetric.FetchFailureSuppresses` | pkg/collectors/managedclusterinfo.go:86-108 | A failed or undecodable ManagedClusterInfo or ManagedCluster yields no sample |
| `ClusterInfoMetric.SuppressedExactly` | pkg/collectors/managedclusterinfo.go:118-153 | With both objects fetched, there is no sample iff the resolved cluster ID, vendor, cloud or version is empty, or cpu is 0, or cpu_worker is 0 while a worker node exists |
| `ClusterInfoMetric.Generate` | pkg/collectors/managedclusterinfo.go:84-177 | The generator yields at most one sample |
| `ClusterInfoMetric.LabelValues` | pkg/collectors/managedclusterinfo.go:154-166 | There are as many values as default label keys, and the first six are hub ID, cluster ID, vendor, cloud, version and created_via in the order of lines 40-45; the six capacity values are specified by SuccessShape |
| `ClusterInfoMetric.SuccessShape` | pkg/collectors/managedclusterinfo.go:154-174 | A published result is one sample with value 1. Its keys are the twelve default labels of lines 40-51. Its twelve values are, in order: hub ID, resolved cluster ID, vendor, cloud, version and created_via, then the six capacity labels. Label keys 6-11 are cpu, cpu_worker, core, core_worker, socket and socket_worker, and each value is exactly `FormatInt` of the quantity under that name (0 when absent) and parses back to it |
| `ClusterInfoMetric.CapacityReadsBack` | pkg/collectors/managedclusterinfo.go:160-165 | The six FormatInt labels are the renderings of, and parse back to, the quantities under cpu, cpu_worker, core, core_worker, socket and socket_worker, in that order (0 when absent) |
| `ClusterInfoMetric.ProvenanceNeverSuppresses` | pkg/collectors/managedclusterinfo.go:110-117 | Two ClusterDeployment outcomes give the same number of samples, with the same keys, the same value and the same label values except created_via |
| `ClusterInfoMetric.Collect` | pkg/collectors/managedclusterinfo.go:86-111 | The fetch sequence yields at most one sample and none when the ManagedClusterInfo fetch fails; which keys it reads is specified by CollectReadsOnlyItsKeys |
| `ClusterInfoMetric.CollectReadsOnlyItsKeys` | pkg/collectors/managedclusterinfo.go:86-111 | The generator reads the store only at the ManagedClusterInfo key (name, name), the ManagedCluster key (the info's name) and the ClusterDeployment key (the info's name as namespace and name) |
| `Decimal.FormatNat` | pkg/collectors/managedclusterinfo.go:160-165 | The decimal digits of a natural number: non-empty, digits only, denoting the number, with no leading zero |
| `Decimal.FormatInt` | pkg/collectors/managedclusterinfo.go:160-165 | The rendering is non-empty and starts with '-' exactly for negative numbers; the digits after the sign are stated by FormatIntCanonical |
| `Decimal.FormatIntCanonical` | pkg/collectors/managedclusterinfo.go:160-165 | After the optional '-', the rendering is the canonical digit string of the magnitude: digits only, denoting the magnitude, with no leading zero (never "016" or "-0") |
| `Decimal.FormatIntRoundTrip` | pkg/collectors/managedclusterinfo.go:160-165 | Parsing the rendering of any integer gives that integer back |
| `Decimal.FormatIntInjective` | pkg/collectors/managedclusterinfo.go:160-165 | Distinct integers get distinct labels |
| `MetricFamily.GenerateFamily` | pkg/collectors/managedclusterinfo.go:84-177 | The closure body, with fetches and early returns, produces the samples `Collect` specifies; each metric is fresh, its values array is fresh, and its keys array is the shared default-label array |
| `MetricFamily.CopyOf` | pkg/collectors/managedclusterinfo.go:245-246 | `append([]string{}, s...)` returns a fresh array with the same elements |
| `MetricFamily.WrapFamily` | pkg/collectors/managedclusterinfo.go:244-247 | Every metric's label keys and label values become fresh arrays with unchanged contents; its value is unchanged |
| `MetricFamily.WrappedGenerateFamily` | pkg/collectors/managedclusterinfo.go:238-251 | The wrapped generator returns as many metrics as the closure, at most one, each carrying the sample `Collect` specifies, with label arrays that are fresh and so not shared with the default labels; the default labels are unchanged |
| `Scenarios.OpenShiftEmptyClusterIDSuppressed` | pkg/collectors/managedclusterinfo.go:118-125 | An OpenShift cluster with an empty cluster ID publishes nothing, even though the cluster is otherwise complete |
| `Scenarios.OpenShiftPublished` | pkg/collectors/managedclusterinfo.go:154-174 | An OpenShift cluster with an ID publishes the OCP version "4.10.2" and capacities 16, 8, 8, 4, 2, 1 |
| `Scenarios.OtherVendorFallsBackToName` | pkg/collectors/managedclusterinfo.go:118-121 | A non-OpenShift cluster with an empty ID publishes its name as cluster ID and the generic version |
| `Scenarios.MissingWorkerCPUWithWorkerSuppressed` | pkg/collectors/managedclusterinfo.go:130 | A missing cpu_worker entry with a worker node present suppresses the sample |
| `Scenarios.MissingWorkerCPUWithoutWorkerPublished` | pkg/collectors/managedclusterinfo.go:130 | A missing cpu_worker entry with no worker node publishes the sample with cpu_worker "0" |
| `Scenarios.DeploymentNotFoundIsOther` | pkg/collectors/managedclusterinfo.go:110-114 | A ClusterDeployment that is not found gives created_via "Other" and leaves every other label as in the passing case |

## Left out

- The list/watch constructors (lines 253-273) are not modelled. They only plumb the dynamic client into the informer machinery.
- The dynamic client, `runtime.DefaultUnstructuredConverter` and the GroupVersionResource values (lines 53-75) are replaced by `ResourceStore` lookups. Each lookup yields the decoded object or an error. Not-found, server errors and decode errors are all `FetchError` values, and the generator does not tell them apart. `cvGVR` is never used by the core.
- klog logging and `f.ByteSlice()` (lines 85, 88, 94, 99, 102, 106, 114, 116, 131-151, 175) are side effects only and are not modelled.
- The `metric.FamilyGenerator` registration (lines 78-84) belongs to the kube-state-metrics framework. Only its name and help text are kept, as constants.
- The commented-out `getWorkerCPU` (lines 195-205) is dead code.
- `resource.Quantity.Value()` is not modelled. Each capacity entry is already an `int64`, so fractional quantities are not rounded. Capacities are not claimed to be non-negative.
- `context.TODO()` and request cancellation are not modelled. A fetch either answers or fails.
- The type assertion `obj.(*unstructured.Unstructured)` at line 240 is not modelled. It panics on any other type, but here the object is given by its name.
- The metric value is Go's `float64`. It is modelled as the real number 1.0, and no floating-point arithmetic is involved.
- Idempotence is not stated as a separate lemma. The generator is modelled by functions, so repeated calls on the same inputs give the same output by construction.

/**
 What Prism Central answers during one reconcile: a response for every query, a failed call being
 a response too (None, or false for a lookup by UUID). Nothing is assumed about the answers; in
 particular a listed item may have no ExtId.
 */
module Catalogue {
  import opened Basics
  import opened ProviderSpec

  datatype ListedCluster = ListedCluster(name: Option<string>, extId: Option<string>)
  datatype PhysicalGpu = PhysicalGpu(config: Option<GpuConfig>)
  datatype GpuConfig = GpuConfig(deviceName: Option<string>, deviceId: Option<int>)
  datatype GpuDevice = GpuDevice(name: string, deviceId: Option<int>)

  datatype Catalogue = Catalogue(
    clustersNamed: string -> Option<seq<ListedCluster>>,
    hasCluster: string -> bool,
    imagesNamed: string -> Option<seq<Option<string>>>,
    hasImage: string -> bool,
    subnetsNamed: string -> Option<seq<Option<string>>>,
    hasSubnet: string -> bool,
    v3Client: bool,
    projectsNamed: string -> Option<seq<Option<string>>>,
    hasProject: string -> bool,
    categoriesOf: Category -> Option<seq<Option<string>>>,
    gpusOf: string -> Option<seq<PhysicalGpu>>)

  // ---------------------------------------------------------------- Lookup by name

  /** u is the identifier findClusterUuidByName settles on: the last match, the only one with an ExtId. */
  ghost predicate SettlesOn(clusters: seq<ListedCluster>, name: string, u: string) {
    exists i :: 0 <= i < |clusters| && SettlesAt(clusters, name, u, i)
  }

  ghost predicate SettlesAt(clusters: seq<ListedCluster>, name: string, u: string, i: nat)
    requires i < |clusters|
  {
    && clusters[i] == ListedCluster(Some(name), Some(u))
    && (forall j :: 0 <= j < i && clusters[j].name == Some(name) ==> clusters[j].extId == None)
    && (forall j :: i < j < |clusters| ==> clusters[j].name != Some(name))
  }

  /** The scan of findClusterUuidByName: match is overwritten until it is non-nil. Err means ambiguous. */
  function ScanClusters(clusters: seq<ListedCluster>, name: string): Result<Option<string>, ()> {
    if clusters == [] then Ok(None)
    else
      var last := clusters[|clusters| - 1];
      match ScanClusters(clusters[..|clusters| - 1], name)
      case Err(e) => Err(e)
      case Ok(m) =>
        if last.name != Some(name) then Ok(m)
        else if m.Some? then Err(())
        else Ok(last.extId)
  }

  function ClusterId(clusters: seq<ListedCluster>, name: string): Option<string> {
    match ScanClusters(clusters, name)
    case Err(_) => None
    case Ok(m) => m
  }

  lemma {:induction false} ScanMeaning(clusters: seq<ListedCluster>, name: string)
    ensures ScanClusters(clusters, name) == Ok(None)
      <==> forall j :: 0 <= j < |clusters| && clusters[j].name == Some(name) ==> clusters[j].extId == None
    ensures forall u :: ScanClusters(clusters, name) == Ok(Some(u)) <==> SettlesOn(clusters, name, u)
  {
    if clusters == [] {
    } else {
      var n := |clusters| - 1;
      var front := clusters[..n];
      ScanMeaning(front, name);
      assert forall j :: 0 <= j < n ==> front[j] == clusters[j];
      if clusters[n].name == Some(name) {
        forall u ensures ScanClusters(clusters, name) == Ok(Some(u)) <==> SettlesOn(clusters, name, u) {
          if ScanClusters(clusters, name) == Ok(Some(u)) {
            assert SettlesAt(clusters, name, u, n);
          }
          if SettlesOn(clusters, name, u) {
            var i :| 0 <= i < |clusters| && SettlesAt(clusters, name, u, i);
            assert i == n;
          }
        }
        if ScanClusters(front, name).Ok? && ScanClusters(front, name).value.Some? {
          var w := ScanClusters(front, name).value.value;
          assert SettlesOn(front, name, w);
        }
      } else {
        forall u ensures SettlesOn(front, name, u) <==> SettlesOn(clusters, name, u) {
          if SettlesOn(front, name, u) {
            var i :| 0 <= i < n && SettlesAt(front, name, u, i);
            assert SettlesAt(clusters, name, u, i);
          }
          if SettlesOn(clusters, name, u) {
            var i :| 0 <= i < |clusters| && SettlesAt(clusters, name, u, i);
            assert SettlesAt(front, name, u, i);
          }
        }
      }
    }
  }

  /**
   findClusterUuidByName on a list that was returned: the answer is u exactly when u is the
   identifier of the last cluster of that name and no earlier one carried an identifier.
   */
  method FindClusterId(clusters: seq<ListedCluster>, name: string) returns (id: Option<string>)
    ensures id == ClusterId(clusters, name)
    ensures forall u :: id == Some(u) <==> SettlesOn(clusters, name, u)
  {
    ScanMeaning(clusters, name);
    var found: Option<string> := None;
    for i := 0 to |clusters|
      invariant ScanClusters(clusters[..i], name) == Ok(found)
    {
      assert clusters[..i + 1][..i] == clusters[..i];
      if clusters[i].name == Some(name) {
        if found.Some? {
          StuckWhenAmbiguous(clusters, name, i + 1);
          return None;
        }
        found := clusters[i].extId;
      }
    }
    assert clusters[..|clusters|] == clusters;
    return found;
  }

  lemma {:induction false} StuckWhenAmbiguous(clusters: seq<ListedCluster>, name: string, i: nat)
    requires i <= |clusters| && ScanClusters(clusters[..i], name).Err?
    ensures ScanClusters(clusters, name).Err?
    decreases |clusters| - i
  {
    if i < |clusters| {
      assert clusters[..i + 1][..i] == clusters[..i];
      StuckWhenAmbiguous(clusters, name, i + 1);
    } else {
      assert clusters[..i] == clusters;
    }
  }

  /** The three lookups that insist on exactly one listed item; the outer None is the error. */
  function Sole(listed: Option<seq<Option<string>>>): Option<Option<string>> {
    if listed.Some? && |listed.value| == 1 then Some(listed.value[0]) else None
  }

  function ClusterNamed(cat: Catalogue, name: string): Option<Option<string>> {
    match cat.clustersNamed(name)
    case None => None
    case Some(clusters) =>
      var id := ClusterId(clusters, name);
      if id.Some? then Some(id) else None
  }

  function ImageNamed(cat: Catalogue, name: string): Option<Option<string>> { Sole(cat.imagesNamed(name)) }
  function SubnetNamed(cat: Catalogue, name: string): Option<Option<string>> { Sole(cat.subnetsNamed(name)) }

  /** getCategoryValue. */
  function CategoryId(cat: Catalogue, c: Category): Option<Option<string>> { Sole(cat.categoriesOf(c)) }

  function ProjectNamed(cat: Catalogue, name: string): Option<Option<string>> {
    if cat.v3Client then Sole(cat.projectsNamed(name)) else None
  }

  predicate ProjectExists(cat: Catalogue, uuid: string) { cat.v3Client && cat.hasProject(uuid) }

  // ---------------------------------------------------------------- GPUs

  const TWO32 := 0x1_0000_0000
  const TWO31 := 0x8000_0000

  /** Go's conversion to int32. */
  function ToInt32(n: int): (r: int)
    ensures -TWO31 <= r < TWO31
    ensures r == n <==> -TWO31 <= n < TWO31
    ensures exists k :: n == r + k * TWO32
  {
    var r := (n + TWO31) % TWO32 - TWO31;
    assert n == r + ((n + TWO31) / TWO32) * TWO32;
    r
  }

  function DeviceOf(c: GpuConfig): GpuDevice {
    GpuDevice(c.deviceName.GetOr(""),
              if c.deviceId.Some? then Some(ToInt32(c.deviceId.value)) else None)
  }

  function DeviceList(): PhysicalGpu -> seq<GpuDevice> {
    (p: PhysicalGpu) => if p.config.Some? then [DeviceOf(p.config.value)] else []
  }

  /** getGPUsForPEConverged on a list that was returned. */
  method CollectDevices(profiles: seq<PhysicalGpu>) returns (devices: seq<GpuDevice>)
    ensures devices == Collect(profiles, DeviceList())
  {
    devices := [];
    for i := 0 to |profiles|
      invariant devices == Collect(profiles[..i], DeviceList())
    {
      CollectStep(profiles, DeviceList(), i);
      if profiles[i].config.Some? {
        devices := devices + [DeviceOf(profiles[i].config.value)];
      }
    }
    assert profiles[..|profiles|] == profiles;
  }

  /** The devices of a Prism Element cluster; None when the call failed. */
  function Devices(cat: Catalogue, cluster: string): Option<seq<GpuDevice>> {
    match cat.gpusOf(cluster)
    case None => None
    case Some(profiles) => Some(Collect(profiles, DeviceList()))
  }

  predicate GpuMatches(gpu: Gpu, d: GpuDevice) {
    || (gpu.kind == GpuByDeviceId && gpu.deviceId.Some? && gpu.deviceId == d.deviceId)
    || (gpu.kind == GpuByName && gpu.name == Some(d.name))
  }

  /** Device i matches and no earlier one does. */
  predicate FirstMatchAt(gpu: Gpu, devices: seq<GpuDevice>, i: nat)
    requires i < |devices|
  {
    GpuMatches(gpu, devices[i]) && forall j :: 0 <= j < i ==> !GpuMatches(gpu, devices[j])
  }

  /** getGPUFromListConverged: the first device that matches. */
  function FirstMatch(gpu: Gpu, devices: seq<GpuDevice>): (r: Option<GpuDevice>)
    ensures r.Some? ==> exists i :: 0 <= i < |devices| && FirstMatchAt(gpu, devices, i) && r.value == devices[i]
    ensures r.None? ==> forall i :: 0 <= i < |devices| ==> !GpuMatches(gpu, devices[i])
  {
    if devices == [] then None
    else if GpuMatches(gpu, devices[0]) then
      assert FirstMatchAt(gpu, devices, 0);
      Some(devices[0])
    else
      var r := FirstMatch(gpu, devices[1..]);
      assert r.Some? ==> exists i :: 0 <= i < |devices| && FirstMatchAt(gpu, devices, i) && r.value == devices[i] by {
        if r.Some? {
          var i :| 0 <= i < |devices| - 1 && FirstMatchAt(gpu, devices[1..], i) && r.value == devices[1..][i];
          forall j | 0 <= j < i + 1 ensures !GpuMatches(gpu, devices[j]) {
            if j > 0 { assert devices[1..][j - 1] == devices[j]; }
          }
          assert FirstMatchAt(gpu, devices, i + 1);
        }
      }
      r
  }
}

/**
 validateVMConfig (pkg/actuators/machine/vm.go:24-451) on values: the error list it collects and the
 resolved copy it leaves behind, against one declarative predicate that says when a spec is acceptable.
 The method that does the same work in place is in ValidationScope.dfy.
 */
module Validation {
  import opened Basics
  import opened ProviderSpec
  import opened Catalogue

  /** The places of the spec that hold a name-or-UUID identifier. */
  datatype Place = ClusterPlace | ImagePlace | SubnetPlace | ProjectPlace | SourcePlace

  /** A field error: its kind and the field it is about. */
  datatype FieldError = Required(at: string) | Invalid(at: string) | TooMany(at: string) | Internal(at: string)

  function FieldOf(p: Place): string {
    match p
    case ClusterPlace => "cluster"
    case ImagePlace => "image"
    case SubnetPlace => "subnet"
    case ProjectPlace => "project"
    case SourcePlace => "dataDisks.dataSource"
  }

  // ---------------------------------------------------------------- Identifiers

  function Lookup(cat: Catalogue, p: Place, name: string): Option<Option<string>> {
    match p
    case ClusterPlace => ClusterNamed(cat, name)
    case ImagePlace => ImageNamed(cat, name)
    case SubnetPlace => SubnetNamed(cat, name)
    case ProjectPlace => ProjectNamed(cat, name)
    case SourcePlace => ImageNamed(cat, name)
  }

  predicate Has(cat: Catalogue, p: Place, uuid: string) {
    match p
    case ClusterPlace => cat.hasCluster(uuid)
    case ImagePlace => cat.hasImage(uuid)
    case SubnetPlace => cat.hasSubnet(uuid)
    case ProjectPlace => ProjectExists(cat, uuid)
    case SourcePlace => cat.hasImage(uuid)
  }

  /** What the validator leaves in place of the identifier. */
  function Resolve(cat: Catalogue, p: Place, id: Identifier): Identifier {
    if id.kind == KindName && Present(id.name) && Lookup(cat, p, id.name.value).Some? then
      id.(kind := KindUuid, uuid := Lookup(cat, p, id.name.value).value)
    else id
  }

  function IdErrors(cat: Catalogue, p: Place, id: Identifier): seq<FieldError> {
    match id.kind
    case KindName =>
      if !Present(id.name) then [Required(FieldOf(p) + ".name")]
      else if p == ProjectPlace && !cat.v3Client then [Internal(FieldOf(p))]
      else if Lookup(cat, p, id.name.value).None? then [Invalid(FieldOf(p) + ".name")]
      else []
    case KindUuid =>
      if !Present(id.uuid) then [Required(FieldOf(p) + ".uuid")]
      else if p == ProjectPlace && !cat.v3Client then [Internal(FieldOf(p))]
      else if !Has(cat, p, id.uuid.value) then [Invalid(FieldOf(p) + ".uuid")]
      else []
    case KindUnset => if p == ProjectPlace then [] else [Invalid(FieldOf(p) + ".type")]
    case KindOther(_) => [Invalid(FieldOf(p) + ".type")]
  }

  // ---------------------------------------------------------------- Lists

  function SubnetCheck(cat: Catalogue): Identifier -> seq<FieldError> {
    (id: Identifier) => IdErrors(cat, SubnetPlace, id)
  }

  function SubnetErrors(cat: Catalogue, subnets: seq<Identifier>): seq<FieldError> {
    if |subnets| == 0 then [Required("subnets")]
    else if |subnets| > 32 then [TooMany("subnets")]
    else Collect(subnets, SubnetCheck(cat))
  }

  /** The subnets are rewritten only when there are 1 to 32 of them. */
  function ResolveSubnets(cat: Catalogue, subnets: seq<Identifier>): seq<Identifier> {
    if 1 <= |subnets| <= 32 then
      seq(|subnets|, i requires 0 <= i < |subnets| => Resolve(cat, SubnetPlace, subnets[i]))
    else subnets
  }

  function CategoryCheck(cat: Catalogue): Category -> seq<FieldError> {
    (c: Category) => if CategoryId(cat, c).None? then [Invalid("categories")] else []
  }

  function GpuCheck(devices: seq<GpuDevice>): Gpu -> seq<FieldError> {
    (g: Gpu) => GpuErrors(g, devices)
  }

  function GpuErrors(g: Gpu, devices: seq<GpuDevice>): seq<FieldError> {
    match g.kind
    case GpuByDeviceId =>
      if g.deviceId.None? then [Required("gpus.deviceID")]
      else if FirstMatch(g, devices).None? then [Invalid("gpus.deviceID")]
      else []
    case GpuByName =>
      if !Present(g.name) then [Required("gpus.name")]
      else if FirstMatch(g, devices).None? then [Invalid("gpus.name")]
      else []
    case GpuOther(_) => [Invalid("gpus.type")]
  }

  /** cluster is the identifier validateClusterConfig left behind. */
  function GpuListErrors(cat: Catalogue, cluster: Identifier, gpus: seq<Gpu>): seq<FieldError> {
    if gpus == [] then []
    else if !Present(cluster.uuid) then [Invalid("cluster.uuid")]
    else
      match Devices(cat, cluster.uuid.value)
      case None => [Internal("gpus")]
      case Some(devices) => if devices == [] then [Internal("gpus")] else Collect(gpus, GpuCheck(devices))
  }

  function DeviceErrors(d: DeviceProperties): seq<FieldError> {
    (match d.deviceType
     case DeviceDisk => if d.adapter.AdapterOther? then [Invalid("deviceProperties.adapterType")] else []
     case DeviceCdRom =>
       if d.adapter == AdapterIde || d.adapter == AdapterSata then [] else [Invalid("deviceProperties.adapterType")]
     case DeviceOther(_) => [Invalid("deviceProperties.deviceType")])
    + (if d.index < 0 then [Invalid("deviceProperties.deviceIndex")] else [])
  }

  function StorageErrors(s: StorageConfig): seq<FieldError> {
    (if s.mode.ModeOther? then [Invalid("storageConfig.diskMode")] else [])
    + (match s.container
       case None => []
       case Some(c) =>
         if c.kind != KindUuid then [Invalid("storageConfig.storageContainer.type")]
         else if !Present(c.uuid) then [Required("storageConfig.storageContainer.uuid")]
         else [])
  }

  function DiskErrors(cat: Catalogue, d: DataDisk): seq<FieldError> {
    (if Mib(d.sizeBytes) < 1024 then [Invalid("dataDisks.diskSize")] else [])
    + (if d.device.Some? then DeviceErrors(d.device.value) else [])
    + (if d.storage.Some? then StorageErrors(d.storage.value) else [])
    + (if d.source.Some? then IdErrors(cat, SourcePlace, d.source.value) else [])
  }

  function DiskCheck(cat: Catalogue): DataDisk -> seq<FieldError> {
    (d: DataDisk) => DiskErrors(cat, d)
  }

  function ResolveDisk(cat: Catalogue, d: DataDisk): DataDisk {
    if d.source.Some? then d.(source := Some(Resolve(cat, SourcePlace, d.source.value))) else d
  }

  function ResolveDisks(cat: Catalogue, disks: seq<DataDisk>): seq<DataDisk> {
    seq(|disks|, i requires 0 <= i < |disks| => ResolveDisk(cat, disks[i]))
  }

  // ---------------------------------------------------------------- The whole spec

  function SizeErrors(s: Spec): seq<FieldError> {
    (if s.vcpusPerSocket < 1 then [Invalid("vcpusPerSocket")] else [])
    + (if s.vcpuSockets < 1 then [Invalid("vcpuSockets")] else [])
    + (if Mib(s.memoryBytes) < 2 * 1024 then [Invalid("memorySize")] else [])
    + (if Mib(s.systemDiskBytes) < 20 * 1024 then [Invalid("systemDiskSize")] else [])
    + (if s.boot.BootOther? then [Invalid("bootType")] else [])
  }

  function FieldErrors(cat: Catalogue, s: Spec): seq<FieldError> {
    IdErrors(cat, ClusterPlace, s.cluster)
    + IdErrors(cat, ImagePlace, s.image)
    + SubnetErrors(cat, s.subnets)
    + SizeErrors(s)
    + IdErrors(cat, ProjectPlace, s.project)
    + Collect(s.categories, CategoryCheck(cat))
    + GpuListErrors(cat, Resolve(cat, ClusterPlace, s.cluster), s.gpus)
  }

  /** The list validateVMConfig returns for the (already overridden) spec, in its order. */
  function Errors(cat: Catalogue, s: Spec): seq<FieldError> {
    FieldErrors(cat, s) + Collect(s.dataDisks, DiskCheck(cat))
  }

  /** The providerSpecValidated it leaves behind. */
  function Resolved(cat: Catalogue, s: Spec): Spec {
    s.(cluster := Resolve(cat, ClusterPlace, s.cluster),
       image := Resolve(cat, ImagePlace, s.image),
       subnets := ResolveSubnets(cat, s.subnets),
       project := Resolve(cat, ProjectPlace, s.project),
       dataDisks := ResolveDisks(cat, s.dataDisks))
  }

  // ---------------------------------------------------------------- When a spec is acceptable

  /** The catalogue has exactly one such item under that name, and x is its identifier. */
  ghost predicate Denotes(cat: Catalogue, p: Place, name: string, x: Option<string>) {
    match p
    case ClusterPlace =>
      cat.clustersNamed(name).Some? && x.Some? && SettlesOn(cat.clustersNamed(name).value, name, x.value)
    case ImagePlace => cat.imagesNamed(name) == Some([x])
    case SubnetPlace => cat.subnetsNamed(name) == Some([x])
    case ProjectPlace => cat.v3Client && cat.projectsNamed(name) == Some([x])
    case SourcePlace => cat.imagesNamed(name) == Some([x])
  }

  /** The identifier refers to x: by a name that denotes x, or as the UUID of an existing item. */
  ghost predicate RefersTo(cat: Catalogue, p: Place, id: Identifier, x: Option<string>) {
    || (id.kind == KindName && Present(id.name) && Denotes(cat, p, id.name.value, x))
    || (id.kind == KindUuid && Present(id.uuid) && x == id.uuid
        && match p
           case ClusterPlace => cat.hasCluster(x.value)
           case ImagePlace => cat.hasImage(x.value)
           case SubnetPlace => cat.hasSubnet(x.value)
           case ProjectPlace => cat.v3Client && cat.hasProject(x.value)
           case SourcePlace => cat.hasImage(x.value))
  }

  ghost predicate Refers(cat: Catalogue, p: Place, id: Identifier) {
    exists x :: RefersTo(cat, p, id, x)
  }

  ghost predicate SubnetsOk(cat: Catalogue, subnets: seq<Identifier>) {
    1 <= |subnets| <= 32 && forall i :: 0 <= i < |subnets| ==> Refers(cat, SubnetPlace, subnets[i])
  }

  ghost predicate CategoriesOk(cat: Catalogue, cs: seq<Category>) {
    forall i :: 0 <= i < |cs| ==> exists x :: cat.categoriesOf(cs[i]) == Some([x])
  }

  predicate GpuNamed(g: Gpu) {
    (g.kind == GpuByDeviceId && g.deviceId.Some?) || (g.kind == GpuByName && Present(g.name))
  }

  /** The configured GPU is the one asked for: by its device id, narrowed to 32 bits, or by its name. */
  predicate GpuIs(g: Gpu, c: GpuConfig) {
    || (g.kind == GpuByDeviceId && g.deviceId.Some? && c.deviceId.Some? && g.deviceId.value == ToInt32(c.deviceId.value))
    || (g.kind == GpuByName && g.name.Some? && g.name.value == (if c.deviceName.Some? then c.deviceName.value else ""))
  }

  /** Profile j is the first configured one that is the GPU asked for. */
  predicate FirstProfile(g: Gpu, profiles: seq<PhysicalGpu>, j: nat)
    requires j < |profiles|
  {
    && profiles[j].config.Some? && GpuIs(g, profiles[j].config.value)
    && forall k :: 0 <= k < j && profiles[k].config.Some? ==> !GpuIs(g, profiles[k].config.value)
  }

  /** d carries what the profile's configuration says. */
  predicate Describes(d: GpuDevice, c: GpuConfig) {
    && d.name == (if c.deviceName.Some? then c.deviceName.value else "")
    && (d.deviceId.Some? <==> c.deviceId.Some?)
    && (c.deviceId.Some? ==> d.deviceId.value == ToInt32(c.deviceId.value))
  }

  ghost predicate GpuAvailable(g: Gpu, profiles: seq<PhysicalGpu>) {
    exists i :: 0 <= i < |profiles| && profiles[i].config.Some? && GpuIs(g, profiles[i].config.value)
  }

  /** Every requested GPU is named and available on the cluster u. */
  ghost predicate GpusOkOn(cat: Catalogue, u: string, gpus: seq<Gpu>) {
    && u != ""
    && cat.gpusOf(u).Some?
    && forall i :: 0 <= i < |gpus| ==> GpuNamed(gpus[i]) && GpuAvailable(gpus[i], cat.gpusOf(u).value)
  }

  ghost predicate GpusOk(cat: Catalogue, cluster: Identifier, gpus: seq<Gpu>) {
    gpus == [] || exists u :: RefersTo(cat, ClusterPlace, cluster, Some(u)) && GpusOkOn(cat, u, gpus)
  }

  predicate DeviceOk(d: DeviceProperties) {
    && d.index >= 0
    && match d.deviceType
       case DeviceDisk => d.adapter in {AdapterScsi, AdapterIde, AdapterPci, AdapterSata, AdapterSpapr}
       case DeviceCdRom => d.adapter in {AdapterIde, AdapterSata}
       case DeviceOther(_) => false
  }

  predicate StorageOk(s: StorageConfig) {
    && s.mode in {ModeStandard, ModeFlash}
    && (s.container.Some? ==> s.container.value.kind == KindUuid && Present(s.container.value.uuid))
  }

  const GIB := 1024 * MIB

  ghost predicate DiskOk(cat: Catalogue, d: DataDisk) {
    && d.sizeBytes >= GIB
    && (d.device.Some? ==> DeviceOk(d.device.value))
    && (d.storage.Some? ==> StorageOk(d.storage.value))
    && (d.source.Some? ==> Refers(cat, SourcePlace, d.source.value))
  }

  /** The one predicate that says what the validator accepts. */
  ghost predicate WellFormed(cat: Catalogue, s: Spec) {
    && Refers(cat, ClusterPlace, s.cluster)
    && Refers(cat, ImagePlace, s.image)
    && SubnetsOk(cat, s.subnets)
    && s.vcpusPerSocket >= 1 && s.vcpuSockets >= 1
    && s.memoryBytes >= 2 * GIB
    && s.systemDiskBytes >= 20 * GIB
    && s.boot in {BootUnset, BootLegacy, BootUefi, BootSecure}
    && (s.project.kind == KindUnset || Refers(cat, ProjectPlace, s.project))
    && CategoriesOk(cat, s.categories)
    && GpusOk(cat, s.cluster, s.gpus)
    && forall i :: 0 <= i < |s.dataDisks| ==> DiskOk(cat, s.dataDisks[i])
  }

  // ---------------------------------------------------------------- Exactness

  lemma LookupMeaning(cat: Catalogue, p: Place, name: string)
    ensures forall x :: Lookup(cat, p, name) == Some(x) <==> Denotes(cat, p, name, x)
  {
    if p == ClusterPlace {
      if cat.clustersNamed(name).Some? {
        ScanMeaning(cat.clustersNamed(name).value, name);
      }
    } else {
      SoleMeaning(cat.imagesNamed(name));
      SoleMeaning(cat.subnetsNamed(name));
      SoleMeaning(cat.projectsNamed(name));
    }
  }

  lemma SoleMeaning(listed: Option<seq<Option<string>>>)
    ensures forall x :: Sole(listed) == Some(x) <==> listed == Some([x])
  {
    if listed.Some? && |listed.value| == 1 {
      assert listed.value == [listed.value[0]];
    }
  }

  /** No error at a place exactly when the identifier refers to something, and then to what is left there. */
  lemma IdExact(cat: Catalogue, p: Place, id: Identifier)
    ensures IdErrors(cat, p, id) == [] <==>
            (p == ProjectPlace && id.kind == KindUnset) || Refers(cat, p, id)
    ensures forall x :: RefersTo(cat, p, id, x) ==>
            Resolve(cat, p, id).kind == KindUuid && Resolve(cat, p, id).uuid == x
  {
    if id.kind == KindName && Present(id.name) {
      LookupMeaning(cat, p, id.name.value);
      var found := Lookup(cat, p, id.name.value);
      if found.Some? {
        assert RefersTo(cat, p, id, found.value);
      }
    }
    if id.kind == KindUuid && Present(id.uuid) && Has(cat, p, id.uuid.value) {
      assert RefersTo(cat, p, id, id.uuid);
    }
  }

  lemma SubnetsExact(cat: Catalogue, subnets: seq<Identifier>)
    ensures SubnetErrors(cat, subnets) == [] <==> SubnetsOk(cat, subnets)
  {
    CollectEmpty(subnets, SubnetCheck(cat));
    forall i | 0 <= i < |subnets|
      ensures SubnetCheck(cat)(subnets[i]) == [] <==> Refers(cat, SubnetPlace, subnets[i])
    {
      IdExact(cat, SubnetPlace, subnets[i]);
    }
  }

  lemma CategoriesExact(cat: Catalogue, cs: seq<Category>)
    ensures Collect(cs, CategoryCheck(cat)) == [] <==> CategoriesOk(cat, cs)
  {
    CollectEmpty(cs, CategoryCheck(cat));
    forall i | 0 <= i < |cs|
      ensures CategoryCheck(cat)(cs[i]) == [] <==> exists x :: cat.categoriesOf(cs[i]) == Some([x])
    {
      SoleMeaning(cat.categoriesOf(cs[i]));
      if CategoryId(cat, cs[i]).Some? {
        assert cat.categoriesOf(cs[i]) == Some([CategoryId(cat, cs[i]).value]);
      }
    }
  }

  /** The first match among the collected devices describes the first profile that is the GPU asked for. */
  lemma {:induction false} FirstMatchOfProfiles(g: Gpu, profiles: seq<PhysicalGpu>) returns (j: nat)
    ensures var m := FirstMatch(g, Collect(profiles, DeviceList()));
      if m.None? then forall k :: 0 <= k < |profiles| && profiles[k].config.Some? ==> !GpuIs(g, profiles[k].config.value)
      else j < |profiles| && FirstProfile(g, profiles, j) && Describes(m.value, profiles[j].config.value)
  {
    hide FirstMatch, DeviceList, GpuIs, Describes;
    j := 0;
    if profiles == [] {
      NoMatch(g);
    } else {
      var n := |profiles| - 1;
      var front := profiles[..n];
      j := FirstMatchOfProfiles(g, front);
      var before, last := Collect(front, DeviceList()), DeviceList()(profiles[n]);
      assert Collect(profiles, DeviceList()) == before + last;
      hide Collect;
      FirstMatchConcat(g, before, last);
      SingleMatch(g, profiles[n]);
      assert forall k :: 0 <= k < n ==> front[k] == profiles[k];
      if FirstMatch(g, before).None? && FirstMatch(g, last).Some? {
        j := n;
        assert FirstProfile(g, profiles, n);
      }
    }
  }

  lemma NoMatch(g: Gpu)
    ensures FirstMatch(g, Collect([], DeviceList())).None?
  {
  }

  lemma SingleMatch(g: Gpu, p: PhysicalGpu)
    ensures var m := FirstMatch(g, DeviceList()(p));
      && (m.Some? <==> p.config.Some? && GpuIs(g, p.config.value))
      && (m.Some? ==> Describes(m.value, p.config.value))
  {
  }

  lemma {:induction false} FirstMatchConcat(g: Gpu, a: seq<GpuDevice>, b: seq<GpuDevice>)
    ensures FirstMatch(g, a + b) == if FirstMatch(g, a).Some? then FirstMatch(g, a) else FirstMatch(g, b)
  {
    if a == [] {
      assert a + b == b;
    } else {
      assert (a + b)[1..] == a[1..] + b;
      FirstMatchConcat(g, a[1..], b);
    }
  }

  lemma GpuExact(g: Gpu, profiles: seq<PhysicalGpu>)
    ensures GpuErrors(g, Collect(profiles, DeviceList())) == [] <==> GpuNamed(g) && GpuAvailable(g, profiles)
  {
    hide FirstMatch, Collect;
    var j := FirstMatchOfProfiles(g, profiles);
  }

  lemma GpusExactOn(cat: Catalogue, cluster: Identifier, gpus: seq<Gpu>)
    requires gpus != []
    ensures GpuListErrors(cat, cluster, gpus) == [] <==>
            cluster.uuid.Some? && GpusOkOn(cat, cluster.uuid.value, gpus)
  {
    if Present(cluster.uuid) && cat.gpusOf(cluster.uuid.value).Some? {
      var profiles := cat.gpusOf(cluster.uuid.value).value;
      var devices := Collect(profiles, DeviceList());
      CollectEmpty(gpus, GpuCheck(devices));
      forall i | 0 <= i < |gpus|
        ensures GpuCheck(devices)(gpus[i]) == [] <==> GpuNamed(gpus[i]) && GpuAvailable(gpus[i], profiles)
      {
        GpuExact(gpus[i], profiles);
      }
      if devices == [] {
        assert FirstMatch(gpus[0], devices).None?;
        GpuExact(gpus[0], profiles);
      }
    }
  }

  lemma GpusExact(cat: Catalogue, cluster: Identifier, gpus: seq<Gpu>)
    requires Refers(cat, ClusterPlace, cluster)
    ensures GpuListErrors(cat, Resolve(cat, ClusterPlace, cluster), gpus) == [] <==> GpusOk(cat, cluster, gpus)
  {
    if gpus != [] {
      IdExact(cat, ClusterPlace, cluster);
      var left := Resolve(cat, ClusterPlace, cluster);
      GpusExactOn(cat, left, gpus);
      var x :| RefersTo(cat, ClusterPlace, cluster, x);
      assert left.uuid == x;
      if x.Some? && GpusOkOn(cat, x.value, gpus) {
        assert RefersTo(cat, ClusterPlace, cluster, Some(x.value));
      }
    }
  }

  lemma DiskExact(cat: Catalogue, d: DataDisk)
    ensures DiskErrors(cat, d) == [] <==> DiskOk(cat, d)
  {
    if d.source.Some? { IdExact(cat, SourcePlace, d.source.value); }
  }

  lemma DisksExact(cat: Catalogue, disks: seq<DataDisk>)
    ensures Collect(disks, DiskCheck(cat)) == [] <==> forall i :: 0 <= i < |disks| ==> DiskOk(cat, disks[i])
  {
    CollectEmpty(disks, DiskCheck(cat));
    forall i | 0 <= i < |disks|
      ensures DiskCheck(cat)(disks[i]) == [] <==> DiskOk(cat, disks[i])
    {
      DiskExact(cat, disks[i]);
    }
  }

  /**
   Validation is exact: the error list is empty if and only if the spec is well formed, for lists of
   any length and whatever the catalogue answers.
   */
  lemma ValidationExact(cat: Catalogue, s: Spec)
    ensures Errors(cat, s) == [] <==> WellFormed(cat, s)
  {
    hide IdErrors, SubnetErrors, GpuListErrors, Collect, Refers, SubnetsOk, CategoriesOk, GpusOk, DiskOk, Resolve;
    IdExact(cat, ClusterPlace, s.cluster);
    IdExact(cat, ImagePlace, s.image);
    SubnetsExact(cat, s.subnets);
    IdExact(cat, ProjectPlace, s.project);
    CategoriesExact(cat, s.categories);
    DisksExact(cat, s.dataDisks);
    if Refers(cat, ClusterPlace, s.cluster) {
      GpusExact(cat, s.cluster, s.gpus);
    }
  }

  // ---------------------------------------------------------------- Which errors

  /** e is the error for an identifier of the field called field, and says what is wrong with it. */
  ghost predicate IdBlames(cat: Catalogue, p: Place, id: Identifier, field: string, e: FieldError) {
    match e
    case Required(at) =>
      || (at == field + ".name" && id.kind == KindName && !Present(id.name))
      || (at == field + ".uuid" && id.kind == KindUuid && !Present(id.uuid))
    case Invalid(at) =>
      || (at == field + ".name" && id.kind == KindName && Present(id.name) && Reachable(cat, p) && !Refers(cat, p, id))
      || (at == field + ".uuid" && id.kind == KindUuid && Present(id.uuid) && Reachable(cat, p) && !Refers(cat, p, id))
      || (at == field + ".type" && id.kind.KindUnset? && p != ProjectPlace)
      || (at == field + ".type" && id.kind.KindOther?)
    case Internal(at) =>
      at == field && !Reachable(cat, p)
      && ((id.kind == KindName && Present(id.name)) || (id.kind == KindUuid && Present(id.uuid)))
    case TooMany(_) => false
  }

  /** The client for this place could be made. */
  predicate Reachable(cat: Catalogue, p: Place) { p == ProjectPlace ==> cat.v3Client }

  lemma IdErrorsBlame(cat: Catalogue, p: Place, id: Identifier, field: string, e: FieldError)
    requires field == FieldOf(p)
    ensures e in IdErrors(cat, p, id) <==> IdBlames(cat, p, id, field, e)
    ensures |IdErrors(cat, p, id)| <= 1
  {
    hide FieldOf, Lookup, Refers, Resolve;
    IdExact(cat, p, id);
    if p == ProjectPlace && !cat.v3Client { NoProjects(cat, id); }
  }

  lemma NoProjects(cat: Catalogue, id: Identifier)
    requires !cat.v3Client
    ensures !Refers(cat, ProjectPlace, id)
  {
  }

  /** What is wrong with a data disk, field by field. */
  ghost predicate DiskBlames(cat: Catalogue, d: DataDisk, e: FieldError) {
    || (e == Invalid("dataDisks.diskSize") && d.sizeBytes < GIB)
    || (d.device.Some? && DeviceBlames(d.device.value, e))
    || (d.storage.Some? && StorageBlames(d.storage.value, e))
    || (d.source.Some? && IdBlames(cat, SourcePlace, d.source.value, "dataDisks.dataSource", e))
  }

  predicate DeviceBlames(d: DeviceProperties, e: FieldError) {
    || (e == Invalid("deviceProperties.deviceType") && d.deviceType != DeviceDisk && d.deviceType != DeviceCdRom)
    || (e == Invalid("deviceProperties.adapterType") && d.deviceType == DeviceDisk
        && d.adapter !in {AdapterScsi, AdapterIde, AdapterPci, AdapterSata, AdapterSpapr})
    || (e == Invalid("deviceProperties.adapterType") && d.deviceType == DeviceCdRom && d.adapter !in {AdapterIde, AdapterSata})
    || (e == Invalid("deviceProperties.deviceIndex") && d.index < 0)
  }

  predicate StorageBlames(s: StorageConfig, e: FieldError) {
    || (e == Invalid("storageConfig.diskMode") && s.mode != ModeStandard && s.mode != ModeFlash)
    || (e == Invalid("storageConfig.storageContainer.type") && s.container.Some? && s.container.value.kind != KindUuid)
    || (e == Required("storageConfig.storageContainer.uuid") && s.container.Some?
        && s.container.value.kind == KindUuid && !Present(s.container.value.uuid))
  }

  /** What is wrong with one GPU on a cluster with these profiles. */
  ghost predicate GpuBlames(g: Gpu, profiles: seq<PhysicalGpu>, e: FieldError) {
    || (e == Required("gpus.deviceID") && g.kind == GpuByDeviceId && g.deviceId.None?)
    || (e == Required("gpus.name") && g.kind == GpuByName && !Present(g.name))
    || (e == Invalid("gpus.deviceID") && g.kind == GpuByDeviceId && g.deviceId.Some? && !GpuAvailable(g, profiles))
    || (e == Invalid("gpus.name") && g.kind == GpuByName && Present(g.name) && !GpuAvailable(g, profiles))
    || (e == Invalid("gpus.type") && g.kind.GpuOther?)
  }

  /** left is the cluster identifier as validated. */
  ghost predicate GpuListBlames(cat: Catalogue, left: Option<string>, gpus: seq<Gpu>, e: FieldError) {
    gpus != []
    && if !Present(left) then e == Invalid("cluster.uuid")
       else
         var listed := cat.gpusOf(left.value);
         if listed.None? || NoneConfigured(listed.value) then e == Internal("gpus")
         else exists i :: 0 <= i < |gpus| && GpuBlames(gpus[i], listed.value, e)
  }

  predicate NoneConfigured(profiles: seq<PhysicalGpu>) {
    forall i :: 0 <= i < |profiles| ==> profiles[i].config.None?
  }

  predicate SizeBlames(s: Spec, e: FieldError) {
    || (e == Invalid("vcpusPerSocket") && s.vcpusPerSocket < 1)
    || (e == Invalid("vcpuSockets") && s.vcpuSockets < 1)
    || (e == Invalid("memorySize") && s.memoryBytes < 2 * GIB)
    || (e == Invalid("systemDiskSize") && s.systemDiskBytes < 20 * GIB)
    || (e == Invalid("bootType") && s.boot.BootOther?)
  }

  ghost predicate SubnetsBlame(cat: Catalogue, subnets: seq<Identifier>, e: FieldError) {
    || (e == Required("subnets") && subnets == [])
    || (e == TooMany("subnets") && |subnets| > 32)
    || (1 <= |subnets| <= 32 && exists i :: 0 <= i < |subnets| && IdBlames(cat, SubnetPlace, subnets[i], "subnet", e))
  }

  ghost predicate CategoriesBlame(cat: Catalogue, cs: seq<Category>, e: FieldError) {
    e == Invalid("categories") && exists i :: 0 <= i < |cs| && !CategoryDenotes(cat, cs[i])
  }

  ghost predicate CategoryDenotes(cat: Catalogue, c: Category) { exists x :: cat.categoriesOf(c) == Some([x]) }

  ghost predicate DisksBlame(cat: Catalogue, disks: seq<DataDisk>, e: FieldError) {
    exists i :: 0 <= i < |disks| && DiskBlames(cat, disks[i], e)
  }

  /** The errors a spec deserves. */
  ghost predicate Blames(cat: Catalogue, s: Spec, e: FieldError) {
    || IdBlames(cat, ClusterPlace, s.cluster, "cluster", e)
    || IdBlames(cat, ImagePlace, s.image, "image", e)
    || SubnetsBlame(cat, s.subnets, e)
    || SizeBlames(s, e)
    || IdBlames(cat, ProjectPlace, s.project, "project", e)
    || CategoriesBlame(cat, s.categories, e)
    || GpuListBlames(cat, Resolve(cat, ClusterPlace, s.cluster).uuid, s.gpus, e)
    || DisksBlame(cat, s.dataDisks, e)
  }

  lemma DiskErrorsBlame(cat: Catalogue, d: DataDisk, e: FieldError)
    ensures e in DiskErrors(cat, d) <==> DiskBlames(cat, d, e)
  {
    hide IdErrors, IdBlames, DeviceErrors, StorageErrors, DeviceBlames, StorageBlames;
    if d.source.Some? { IdErrorsBlame(cat, SourcePlace, d.source.value, "dataDisks.dataSource", e); }
    if d.device.Some? { DeviceErrorsBlame(d.device.value, e); }
    if d.storage.Some? { StorageErrorsBlame(d.storage.value, e); }
  }

  lemma DeviceErrorsBlame(d: DeviceProperties, e: FieldError)
    ensures e in DeviceErrors(d) <==> DeviceBlames(d, e)
  {
  }

  lemma StorageErrorsBlame(s: StorageConfig, e: FieldError)
    ensures e in StorageErrors(s) <==> StorageBlames(s, e)
  {
  }

  lemma GpuErrorsBlame(g: Gpu, profiles: seq<PhysicalGpu>, e: FieldError)
    ensures e in GpuErrors(g, Collect(profiles, DeviceList())) <==> GpuBlames(g, profiles, e)
  {
    hide FirstMatch, Collect;
    var j := FirstMatchOfProfiles(g, profiles);
  }

  lemma GpuListErrorsBlame(cat: Catalogue, left: Identifier, gpus: seq<Gpu>, e: FieldError)
    ensures e in GpuListErrors(cat, left, gpus) <==> GpuListBlames(cat, left.uuid, gpus, e)
  {
    hide GpuErrors, GpuBlames;
    if gpus != [] && Present(left.uuid) && cat.gpusOf(left.uuid.value).Some? {
      var profiles := cat.gpusOf(left.uuid.value).value;
      var devices := Collect(profiles, DeviceList());
      CollectEmpty(profiles, DeviceList());
      assert devices == [] <==> NoneConfigured(profiles) by {
        forall i | 0 <= i < |profiles| ensures DeviceList()(profiles[i]) == [] <==> profiles[i].config.None? {}
      }
      CollectMember(gpus, GpuCheck(devices), e);
      forall i | 0 <= i < |gpus| ensures e in GpuCheck(devices)(gpus[i]) <==> GpuBlames(gpus[i], profiles, e) {
        GpuErrorsBlame(gpus[i], profiles, e);
      }
      hide Collect, NoneConfigured;
    }
  }

  lemma SubnetErrorsBlame(cat: Catalogue, subnets: seq<Identifier>, e: FieldError)
    ensures e in SubnetErrors(cat, subnets) <==> SubnetsBlame(cat, subnets, e)
  {
    hide IdErrors, IdBlames, Collect;
    CollectMember(subnets, SubnetCheck(cat), e);
    forall i | 0 <= i < |subnets|
      ensures e in SubnetCheck(cat)(subnets[i]) <==> IdBlames(cat, SubnetPlace, subnets[i], "subnet", e)
    {
      IdErrorsBlame(cat, SubnetPlace, subnets[i], "subnet", e);
    }
  }

  lemma CategoryErrorsBlame(cat: Catalogue, cs: seq<Category>, e: FieldError)
    ensures e in Collect(cs, CategoryCheck(cat)) <==> CategoriesBlame(cat, cs, e)
  {
    CollectMember(cs, CategoryCheck(cat), e);
    hide Collect;
    forall i | 0 <= i < |cs| ensures e in CategoryCheck(cat)(cs[i]) <==> e == Invalid("categories") && !CategoryDenotes(cat, cs[i]) {
      SoleMeaning(cat.categoriesOf(cs[i]));
      if CategoryId(cat, cs[i]).Some? {
        assert cat.categoriesOf(cs[i]) == Some([CategoryId(cat, cs[i]).value]);
      }
    }
  }

  lemma DisksErrorsBlame(cat: Catalogue, disks: seq<DataDisk>, e: FieldError)
    ensures e in Collect(disks, DiskCheck(cat)) <==> DisksBlame(cat, disks, e)
  {
    hide DiskErrors, DiskBlames, Collect;
    CollectMember(disks, DiskCheck(cat), e);
    forall i | 0 <= i < |disks| ensures e in DiskCheck(cat)(disks[i]) <==> DiskBlames(cat, disks[i], e) {
      DiskErrorsBlame(cat, disks[i], e);
    }
  }

  /** An error is in the list if and only if the spec deserves it: each says what is wrong, and where. */
  lemma ErrorsBlame(cat: Catalogue, s: Spec, e: FieldError)
    ensures e in Errors(cat, s) <==> Blames(cat, s, e)
  {
    hide IdErrors, SubnetErrors, GpuListErrors, Collect, IdBlames, SubnetsBlame, CategoriesBlame, GpuListBlames, DisksBlame, Resolve;
    IdErrorsBlame(cat, ClusterPlace, s.cluster, "cluster", e);
    IdErrorsBlame(cat, ImagePlace, s.image, "image", e);
    IdErrorsBlame(cat, ProjectPlace, s.project, "project", e);
    SubnetErrorsBlame(cat, s.subnets, e);
    CategoryErrorsBlame(cat, s.categories, e);
    GpuListErrorsBlame(cat, Resolve(cat, ClusterPlace, s.cluster), s.gpus, e);
    DisksErrorsBlame(cat, s.dataDisks, e);
    assert e in SizeErrors(s) <==> SizeBlames(s, e) by { SizeErrorsBlame(s, e); }
    hide SizeErrors, SizeBlames;
    assert Errors(cat, s) == IdErrors(cat, ClusterPlace, s.cluster) + IdErrors(cat, ImagePlace, s.image)
      + SubnetErrors(cat, s.subnets) + SizeErrors(s) + IdErrors(cat, ProjectPlace, s.project)
      + Collect(s.categories, CategoryCheck(cat)) + GpuListErrors(cat, Resolve(cat, ClusterPlace, s.cluster), s.gpus)
      + Collect(s.dataDisks, DiskCheck(cat));
  }

  lemma SizeErrorsBlame(s: Spec, e: FieldError)
    ensures e in SizeErrors(s) <==> SizeBlames(s, e)
  {
  }

  /** x is what the validated copy must hold at a place where the original held id. */
  ghost predicate ResolvedTo(cat: Catalogue, p: Place, id: Identifier, left: Identifier) {
    left.kind == KindUuid && left.name == id.name && RefersTo(cat, p, id, left.uuid)
  }

  /**
   With no error, every identifier of the validated copy is UUID-typed and is what the original
   identifier refers to; all other fields are the original's.
   */
  lemma ResolutionComplete(cat: Catalogue, s: Spec)
    requires Errors(cat, s) == []
    ensures var v := Resolved(cat, s);
      && ResolvedTo(cat, ClusterPlace, s.cluster, v.cluster) && v.cluster.uuid.Some?
      && ResolvedTo(cat, ImagePlace, s.image, v.image)
      && |v.subnets| == |s.subnets|
      && (forall i :: 0 <= i < |s.subnets| ==> ResolvedTo(cat, SubnetPlace, s.subnets[i], v.subnets[i]))
      && ((v.project == s.project && s.project.kind == KindUnset) || ResolvedTo(cat, ProjectPlace, s.project, v.project))
      && |v.dataDisks| == |s.dataDisks|
      && (forall i :: 0 <= i < |s.dataDisks| ==>
            && v.dataDisks[i].(source := None) == s.dataDisks[i].(source := None)
            && (s.dataDisks[i].source.None? ==> v.dataDisks[i].source.None?)
            && (s.dataDisks[i].source.Some? ==>
                  && v.dataDisks[i].source.Some?
                  && ResolvedTo(cat, SourcePlace, s.dataDisks[i].source.value, v.dataDisks[i].source.value)))
      && v.(cluster := s.cluster, image := s.image, subnets := s.subnets, project := s.project, dataDisks := s.dataDisks) == s
  {
    ValidationExact(cat, s);
    LeftIsReferent(cat, ClusterPlace, s.cluster);
    LeftIsReferent(cat, ImagePlace, s.image);
    forall i | 0 <= i < |s.subnets|
      ensures ResolvedTo(cat, SubnetPlace, s.subnets[i], Resolve(cat, SubnetPlace, s.subnets[i]))
    {
      LeftIsReferent(cat, SubnetPlace, s.subnets[i]);
    }
    if s.project.kind != KindUnset { LeftIsReferent(cat, ProjectPlace, s.project); }
    forall i | 0 <= i < |s.dataDisks| && s.dataDisks[i].source.Some?
      ensures ResolvedTo(cat, SourcePlace, s.dataDisks[i].source.value, Resolve(cat, SourcePlace, s.dataDisks[i].source.value))
    {
      assert DiskOk(cat, s.dataDisks[i]);
      LeftIsReferent(cat, SourcePlace, s.dataDisks[i].source.value);
    }
  }

  lemma LeftIsReferent(cat: Catalogue, p: Place, id: Identifier)
    requires Refers(cat, p, id)
    ensures ResolvedTo(cat, p, id, Resolve(cat, p, id))
    ensures p == ClusterPlace ==> Resolve(cat, p, id).uuid.Some?
  {
    IdExact(cat, p, id);
    var x :| RefersTo(cat, p, id, x);
  }

  /** With a failure domain selected, the spec's own Cluster and Subnets cannot be observed. */
  lemma FailureDomainNonInterference(cat: Catalogue, a: Spec, b: Spec, fd: FailureDomain)
    requires a.(cluster := b.cluster, subnets := b.subnets) == b
    ensures Overridden(a, Some(fd)) == Overridden(b, Some(fd))
    ensures Errors(cat, Overridden(a, Some(fd))) == Errors(cat, Overridden(b, Some(fd)))
    ensures Resolved(cat, Overridden(a, Some(fd))) == Resolved(cat, Overridden(b, Some(fd)))
  {
  }
}

/**
 buildV4VMFromScope and its helpers (pkg/actuators/machine/vm.go:512-795): the second pass, from a
 validated spec to the VM that is sent to Prism Central.
 */
module Builder {
  import opened Basics
  import opened ProviderSpec
  import opened Catalogue
  import opened Validation

  datatype DiskBus = DiskScsi | DiskIde | DiskPci | DiskSata | DiskSpapr
  datatype CdRomBus = CdRomIde | CdRomSata

  /** What backs a disk or a CD-ROM. */
  datatype Backing = Backing(
    sizeBytes: Option<int>,
    image: Option<string>,
    flash: bool,
    container: Option<string>)

  datatype Address<B> = Address(bus: B, index: int)
  datatype Disk = Disk(backing: Backing, address: Option<Address<DiskBus>>)
  datatype CdRom = CdRom(backing: Backing, address: Address<CdRomBus>)
  datatype BootDevice = FromCdRom | FromDisk | FromNetwork
  datatype Boot = DefaultBoot | UefiBoot(secure: bool) | LegacyBoot(order: seq<BootDevice>)
  datatype VmGpu = VmGpu(deviceId: Option<int>, name: string)

  datatype BuiltVm = BuiltVm(
    name: string,
    memoryBytes: int,
    coresPerSocket: int,
    sockets: int,
    cluster: string,
    nics: seq<string>,
    disks: seq<Disk>,
    cdRoms: seq<CdRom>,
    boot: Boot,
    gpus: seq<VmGpu>,
    categories: seq<string>,
    project: Option<string>,
    userData: string)

  datatype BuildError =
    | NoClusterUuid
    | NoImageUuid
    | GpuListFailed
    | NoGpuDevices
    | GpuUnmatched
    | UserCategoryFailed
    | OwnershipCategoryFailed

  // ---------------------------------------------------------------- Adapters

  /** Only an undefined adapter reaches the default arm. */
  function DiskBusOf(a: Adapter): DiskBus {
    match a
    case AdapterScsi => DiskScsi
    case AdapterIde => DiskIde
    case AdapterPci => DiskPci
    case AdapterSata => DiskSata
    case AdapterSpapr => DiskSpapr
    case AdapterOther(_) => DiskScsi
  }

  function CdRomBusOf(a: Adapter): CdRomBus {
    match a
    case AdapterIde => CdRomIde
    case AdapterSata => CdRomSata
    case _ => CdRomIde
  }

  // ---------------------------------------------------------------- NICs

  function NicOf(): Identifier -> seq<string> {
    (id: Identifier) => if id.uuid.Some? then [id.uuid.value] else []
  }

  method BuildNics(subnets: seq<Identifier>) returns (nics: seq<string>)
    ensures nics == Collect(subnets, NicOf())
  {
    nics := [];
    for i := 0 to |subnets|
      invariant nics == Collect(subnets[..i], NicOf())
    {
      CollectStep(subnets, NicOf(), i);
      if subnets[i].uuid.None? { continue; }
      nics := nics + [subnets[i].uuid.value];
    }
    assert subnets[..|subnets|] == subnets;
  }

  // ---------------------------------------------------------------- Disks

  function SizeOf(bytes: int): Option<int> { if bytes > 0 then Some(bytes) else None }

  function SystemDisk(image: string, bytes: int): Disk {
    Disk(Backing(SizeOf(bytes), Some(image), false, None), None)
  }

  function BackingOf(d: DataDisk): Backing {
    Backing(
      SizeOf(d.sizeBytes),
      if d.source.Some? then d.source.value.uuid else None,
      d.storage.Some? && d.storage.value.mode == ModeFlash,
      if d.storage.Some? && d.storage.value.container.Some? then d.storage.value.container.value.uuid else None)
  }

  predicate IsCdRom(d: DataDisk) { d.device.Some? && d.device.value.deviceType == DeviceCdRom }

  function DiskOf(d: DataDisk): Disk {
    Disk(BackingOf(d),
         if d.device.Some? then Some(Address(DiskBusOf(d.device.value.adapter), d.device.value.index)) else None)
  }

  function CdRomOf(d: DataDisk): CdRom
    requires IsCdRom(d)
  {
    CdRom(BackingOf(d), Address(CdRomBusOf(d.device.value.adapter), d.device.value.index))
  }

  function AsDisk(): DataDisk -> seq<Disk> {
    (d: DataDisk) => if IsCdRom(d) then [] else [DiskOf(d)]
  }

  function AsCdRom(): DataDisk -> seq<CdRom> {
    (d: DataDisk) => if IsCdRom(d) then [CdRomOf(d)] else []
  }

  method BuildDisks(image: string, systemBytes: int, dataDisks: seq<DataDisk>)
    returns (disks: seq<Disk>, cdRoms: seq<CdRom>)
    ensures disks == [SystemDisk(image, systemBytes)] + Collect(dataDisks, AsDisk())
    ensures cdRoms == Collect(dataDisks, AsCdRom())
    ensures |disks| + |cdRoms| == 1 + |dataDisks|
  {
    disks, cdRoms := [SystemDisk(image, systemBytes)], [];
    for i := 0 to |dataDisks|
      invariant disks == [SystemDisk(image, systemBytes)] + Collect(dataDisks[..i], AsDisk())
      invariant cdRoms == Collect(dataDisks[..i], AsCdRom())
      invariant |disks| + |cdRoms| == 1 + i
    {
      CollectStep(dataDisks, AsDisk(), i);
      CollectStep(dataDisks, AsCdRom(), i);
      var d := dataDisks[i];
      if IsCdRom(d) {
        cdRoms := cdRoms + [CdRomOf(d)];
      } else {
        disks := disks + [DiskOf(d)];
      }
    }
    assert dataDisks[..|dataDisks|] == dataDisks;
  }

  // ---------------------------------------------------------------- GPUs, categories, boot, project

  function GpuOf(d: GpuDevice): VmGpu { VmGpu(d.deviceId, d.name) }

  function MatchGpus(gpus: seq<Gpu>, devices: seq<GpuDevice>): Result<seq<VmGpu>, BuildError> {
    if gpus == [] then Ok([])
    else
      match MatchGpus(gpus[..|gpus| - 1], devices)
      case Err(e) => Err(e)
      case Ok(front) =>
        match FirstMatch(gpus[|gpus| - 1], devices)
        case None => Err(GpuUnmatched)
        case Some(d) => Ok(front + [GpuOf(d)])
  }

  lemma {:induction false} MatchGpusStuck(gpus: seq<Gpu>, devices: seq<GpuDevice>, i: nat)
    requires i <= |gpus| && MatchGpus(gpus[..i], devices).Err?
    ensures MatchGpus(gpus, devices) == Err(GpuUnmatched)
    decreases |gpus| - i
  {
    if i < |gpus| {
      assert gpus[..i + 1][..i] == gpus[..i];
      MatchGpusStuck(gpus, devices, i + 1);
    } else {
      assert gpus[..i] == gpus;
      MatchGpusError(gpus, devices);
    }
  }

  lemma {:induction false} MatchGpusError(gpus: seq<Gpu>, devices: seq<GpuDevice>)
    ensures MatchGpus(gpus, devices).Err? ==> MatchGpus(gpus, devices).error == GpuUnmatched
    ensures MatchGpus(gpus, devices).Err? <==> exists i :: 0 <= i < |gpus| && FirstMatch(gpus[i], devices).None?
    ensures MatchGpus(gpus, devices).Ok? ==>
              && |MatchGpus(gpus, devices).value| == |gpus|
              && forall i :: 0 <= i < |gpus| ==>
                   && FirstMatch(gpus[i], devices).Some?
                   && MatchGpus(gpus, devices).value[i] == GpuOf(FirstMatch(gpus[i], devices).value)
  {
    if gpus != [] {
      var front := gpus[..|gpus| - 1];
      MatchGpusError(front, devices);
      assert forall i :: 0 <= i < |front| ==> front[i] == gpus[i];
    }
  }

  method BuildGpuList(gpus: seq<Gpu>, devices: seq<GpuDevice>) returns (r: Result<seq<VmGpu>, BuildError>)
    ensures r == MatchGpus(gpus, devices)
  {
    var built: seq<VmGpu> := [];
    for i := 0 to |gpus|
      invariant MatchGpus(gpus[..i], devices) == Ok(built)
    {
      assert gpus[..i + 1][..i] == gpus[..i];
      var m := FirstMatch(gpus[i], devices);
      if m.None? {
        MatchGpusStuck(gpus, devices, i + 1);
        return Err(GpuUnmatched);
      }
      built := built + [GpuOf(m.value)];
    }
    assert gpus[..|gpus|] == gpus;
    return Ok(built);
  }

  /** buildV4GPUList, called only when GPUs are requested. */
  function GpuList(cat: Catalogue, cluster: string, gpus: seq<Gpu>): Result<seq<VmGpu>, BuildError> {
    if gpus == [] then Ok([])
    else
      match Devices(cat, cluster)
      case None => Err(GpuListFailed)
      case Some(devices) => if devices == [] then Err(NoGpuDevices) else MatchGpus(gpus, devices)
  }

  /** The references of the user's categories, in order; one without an identifier is skipped. */
  function CategoryRef(cat: Catalogue): Category -> seq<string> {
    (c: Category) =>
      var id := CategoryId(cat, c);
      if id.Some? && id.value.Some? then [id.value.value] else []
  }

  predicate CategoriesFound(cat: Catalogue, cs: seq<Category>) {
    forall i :: 0 <= i < |cs| ==> CategoryId(cat, cs[i]).Some?
  }

  method BuildUserCategories(cat: Catalogue, cs: seq<Category>) returns (r: Result<seq<string>, BuildError>)
    ensures r == if CategoriesFound(cat, cs) then Ok(Collect(cs, CategoryRef(cat))) else Err(UserCategoryFailed)
  {
    hide Collect, CategoryId;
    var refs: seq<string> := [];
    assert Collect(cs[..0], CategoryRef(cat)) == [] by { CollectEmpty(cs[..0], CategoryRef(cat)); }
    for i := 0 to |cs|
      invariant forall j :: 0 <= j < i ==> CategoryId(cat, cs[j]).Some?
      invariant refs == Collect(cs[..i], CategoryRef(cat))
    {
      CollectStep(cs, CategoryRef(cat), i);
      var id := CategoryId(cat, cs[i]);
      if id.None? { return Err(UserCategoryFailed); }
      if id.value.Some? { refs := refs + [id.value.value]; }
    }
    assert cs[..|cs|] == cs;
    return Ok(refs);
  }

  const CLUSTER_LABEL := "machine.openshift.io/cluster-api-cluster"
  const UPSTREAM_LABEL := "sigs.k8s.io/cluster-api-cluster"
  const OWNERSHIP_PREFIX := "kubernetes-io-cluster-"
  const OWNED := "owned"

  function ClusterLabel(labels: map<string, string>): Option<string> {
    if CLUSTER_LABEL in labels then Some(labels[CLUSTER_LABEL])
    else if UPSTREAM_LABEL in labels then Some(labels[UPSTREAM_LABEL])
    else None
  }

  /** validateMachine: the label that names the machine's cluster is set. */
  predicate LabelOk(labels: map<string, string>) {
    CLUSTER_LABEL in labels && labels[CLUSTER_LABEL] != ""
  }

  function Ownership(clusterId: string): Category { Category(OWNERSHIP_PREFIX + clusterId, OWNED) }

  /** buildV4CategoryRefs. */
  function CategoryRefs(cat: Catalogue, labels: map<string, string>, cs: seq<Category>): Result<seq<string>, BuildError> {
    if !CategoriesFound(cat, cs) then Err(UserCategoryFailed)
    else
      var refs := Collect(cs, CategoryRef(cat));
      if !Present(ClusterLabel(labels)) then Ok(refs)
      else
        var own := Ownership(ClusterLabel(labels).value);
        if CategoryId(cat, own).None? then Err(OwnershipCategoryFailed)
        else Ok(refs + CategoryRef(cat)(own))
  }

  function BootOf(b: BootType): Boot {
    match b
    case BootUefi => UefiBoot(false)
    case BootSecure => UefiBoot(true)
    case BootLegacy => LegacyBoot([FromCdRom, FromDisk, FromNetwork])
    case _ => DefaultBoot
  }

  function ProjectOf(id: Identifier): Option<string> {
    if id.kind == KindUuid && Present(id.uuid) then id.uuid else None
  }

  // ---------------------------------------------------------------- The whole VM

  /** buildV4VMFromScope on a validated spec. */
  function Build(cat: Catalogue, name: string, labels: map<string, string>, s: Spec, userData: string)
    : Result<BuiltVm, BuildError>
  {
    if s.cluster.uuid.None? then Err(NoClusterUuid)
    else if s.image.uuid.None? then Err(NoImageUuid)
    else
      match GpuList(cat, s.cluster.uuid.value, s.gpus)
      case Err(e) => Err(e)
      case Ok(gpus) =>
        match CategoryRefs(cat, labels, s.categories)
        case Err(e) => Err(e)
        case Ok(categories) =>
          Ok(BuiltVm(
               name, s.memoryBytes, s.vcpusPerSocket, s.vcpuSockets, s.cluster.uuid.value,
               Collect(s.subnets, NicOf()),
               [SystemDisk(s.image.uuid.value, s.systemDiskBytes)] + Collect(s.dataDisks, AsDisk()),
               Collect(s.dataDisks, AsCdRom()),
               BootOf(s.boot), gpus, categories, ProjectOf(s.project), userData))
  }

  method BuildGpus(cat: Catalogue, cluster: string, gpus: seq<Gpu>) returns (r: Result<seq<VmGpu>, BuildError>)
    requires gpus != []
    ensures r == GpuList(cat, cluster, gpus)
  {
    var listed := cat.gpusOf(cluster);
    if listed.None? { return Err(GpuListFailed); }
    var devices := CollectDevices(listed.value);
    if devices == [] { return Err(NoGpuDevices); }
    r := BuildGpuList(gpus, devices);
  }

  method BuildCategoryRefs(cat: Catalogue, labels: map<string, string>, cs: seq<Category>)
    returns (r: Result<seq<string>, BuildError>)
    ensures r == CategoryRefs(cat, labels, cs)
  {
    r := BuildUserCategories(cat, cs);
    if r.Err? { return; }
    var clusterId := ClusterLabel(labels);
    if !Present(clusterId) { return; }
    var own := CategoryId(cat, Ownership(clusterId.value));
    if own.None? { return Err(OwnershipCategoryFailed); }
    if own.value.Some? { return Ok(r.value + [own.value.value]); }
    assert r.value + [] == r.value;
  }

  /** The same, step by step as the source runs it. */
  method BuildVm(cat: Catalogue, name: string, labels: map<string, string>, s: Spec, userData: string)
    returns (r: Result<BuiltVm, BuildError>)
    ensures r == Build(cat, name, labels, s, userData)
  {
    if s.cluster.uuid.None? { return Err(NoClusterUuid); }
    var nics := BuildNics(s.subnets);
    if s.image.uuid.None? { return Err(NoImageUuid); }
    var disks, cdRoms := BuildDisks(s.image.uuid.value, s.systemDiskBytes, s.dataDisks);
    var gpus: Result<seq<VmGpu>, BuildError> := Ok([]);
    if s.gpus != [] {
      gpus := BuildGpus(cat, s.cluster.uuid.value, s.gpus);
      if gpus.Err? { return Err(gpus.error); }
    }
    var categories := BuildCategoryRefs(cat, labels, s.categories);
    if categories.Err? { return Err(categories.error); }
    return Ok(BuiltVm(name, s.memoryBytes, s.vcpusPerSocket, s.vcpuSockets, s.cluster.uuid.value, nics, disks, cdRoms,
                      BootOf(s.boot), gpus.value, categories.value, ProjectOf(s.project), userData));
  }

  // ---------------------------------------------------------------- When the builder fails

  /** Every GPU asked for is in the cluster's configured profiles. */
  ghost predicate GpusListed(cat: Catalogue, cluster: string, gpus: seq<Gpu>) {
    gpus == [] || (cat.gpusOf(cluster).Some? && forall i :: 0 <= i < |gpus| ==> GpuAvailable(gpus[i], cat.gpusOf(cluster).value))
  }

  lemma GpuListExact(cat: Catalogue, cluster: string, gpus: seq<Gpu>)
    ensures var r := GpuList(cat, cluster, gpus);
      && (r.Ok? <==> GpusListed(cat, cluster, gpus))
      && (r == Err(GpuListFailed) <==> gpus != [] && cat.gpusOf(cluster).None?)
      && (r == Err(NoGpuDevices) <==> gpus != [] && cat.gpusOf(cluster).Some? && NoneConfigured(cat.gpusOf(cluster).value))
      && (r.Err? ==> r.error in {GpuListFailed, NoGpuDevices, GpuUnmatched})
  {
    if gpus != [] && cat.gpusOf(cluster).Some? {
      var profiles := cat.gpusOf(cluster).value;
      var devices := Collect(profiles, DeviceList());
      MatchGpusError(gpus, devices);
      CollectEmpty(profiles, DeviceList());
      assert devices == [] <==> NoneConfigured(profiles) by {
        forall i | 0 <= i < |profiles| ensures DeviceList()(profiles[i]) == [] <==> profiles[i].config.None? {}
      }
      hide Collect, FirstMatch, MatchGpus;
      forall i | 0 <= i < |gpus| ensures FirstMatch(gpus[i], devices).Some? <==> GpuAvailable(gpus[i], profiles) {
        var j := FirstMatchOfProfiles(gpus[i], profiles);
      }
      if devices == [] { assert !GpuAvailable(gpus[0], profiles); }
    }
  }

  /** On any spec, validated or not, the builder fails at the first of these that is missing, with its error. */
  lemma BuildErrorsExact(cat: Catalogue, name: string, labels: map<string, string>, s: Spec, userData: string)
    ensures var r := Build(cat, name, labels, s, userData);
            var ids := s.cluster.uuid.Some? && s.image.uuid.Some?;
            var gpus := ids && GpusListed(cat, s.cluster.uuid.value, s.gpus);
            var users := gpus && forall i :: 0 <= i < |s.categories| ==> CategoryDenotes(cat, s.categories[i]);
            var owner := ClusterLabel(labels).Some? && ClusterLabel(labels).value != "";
      && (r == Err(NoClusterUuid) <==> s.cluster.uuid.None?)
      && (r == Err(NoImageUuid) <==> s.cluster.uuid.Some? && s.image.uuid.None?)
      && (r.Err? && r.error in {GpuListFailed, NoGpuDevices, GpuUnmatched} <==> ids && !gpus)
      && (r == Err(UserCategoryFailed) <==> gpus && !users)
      && (r == Err(OwnershipCategoryFailed) <==>
            users && owner && !CategoryDenotes(cat, Category("kubernetes-io-cluster-" + ClusterLabel(labels).value, "owned")))
      && (r.Ok? <==>
            users && (owner ==> CategoryDenotes(cat, Category("kubernetes-io-cluster-" + ClusterLabel(labels).value, "owned"))))
  {
    if s.cluster.uuid.Some? { GpuListExact(cat, s.cluster.uuid.value, s.gpus); }
    hide GpuList, GpusListed, CategoryDenotes, CategoryId, Collect;
    forall i | 0 <= i < |s.categories| ensures CategoryId(cat, s.categories[i]).Some? <==> CategoryDenotes(cat, s.categories[i]) {
      CategoryIdExact(cat, s.categories[i]);
    }
    if ClusterLabel(labels).Some? { CategoryIdExact(cat, Ownership(ClusterLabel(labels).value)); }
  }

  lemma CategoryIdExact(cat: Catalogue, c: Category)
    ensures CategoryId(cat, c).Some? <==> CategoryDenotes(cat, c)
  {
    SoleMeaning(cat.categoriesOf(c));
    if CategoryId(cat, c).Some? { assert cat.categoriesOf(c) == Some([CategoryId(cat, c).value]); }
  }

  // ---------------------------------------------------------------- Validation is sound for the builder

  lemma GpusBuild(cat: Catalogue, cluster: Identifier, gpus: seq<Gpu>)
    requires cluster.uuid.Some? && GpuListErrors(cat, cluster, gpus) == []
    ensures GpuList(cat, cluster.uuid.value, gpus).Ok?
  {
    if gpus != [] {
      var devices := Devices(cat, cluster.uuid.value).value;
      CollectEmpty(gpus, GpuCheck(devices));
      MatchGpusError(gpus, devices);
      forall i | 0 <= i < |gpus| ensures FirstMatch(gpus[i], devices).Some? {
        assert GpuCheck(devices)(gpus[i]) == [];
      }
    }
  }

  lemma UserCategoriesBuild(cat: Catalogue, cs: seq<Category>)
    requires Collect(cs, CategoryCheck(cat)) == []
    ensures CategoriesFound(cat, cs)
  {
    CollectEmpty(cs, CategoryCheck(cat));
    forall i | 0 <= i < |cs| ensures CategoryId(cat, cs[i]).Some? {
      assert CategoryCheck(cat)(cs[i]) == [];
    }
  }

  /** The identifier is a name under which one item is listed, without an ExtId. */
  ghost predicate Nameless(cat: Catalogue, p: Place, id: Identifier) {
    id.kind == KindName && id.name.Some? && Denotes(cat, p, id.name.value, None)
  }

  /** What an accepted identifier is resolved to lacks an identifier exactly when it was listed without one. */
  lemma NamelessExact(cat: Catalogue, p: Place, id: Identifier)
    requires Refers(cat, p, id)
    ensures Resolve(cat, p, id).uuid.None? <==> Nameless(cat, p, id)
    ensures Resolve(cat, p, id).uuid == Some("") <==>
      id.kind == KindName && id.name.Some? && Denotes(cat, p, id.name.value, Some(""))
  {
    IdExact(cat, p, id);
    var x :| RefersTo(cat, p, id, x);
    if id.kind == KindName { LookupMeaning(cat, p, id.name.value); }
  }

  /**
   After a clean validation on the same catalogue the builder fails in exactly two ways: the image's
   listed ExtId is missing, or the ownership category of the cluster label cannot be found. It never
   fails for the cluster, a GPU or a user category.
   */
  lemma ValidatorSound(cat: Catalogue, name: string, labels: map<string, string>, s: Spec, userData: string)
    requires Errors(cat, s) == []
    ensures var r := Build(cat, name, labels, Resolved(cat, s), userData);
      && (r == Err(NoImageUuid) <==> Nameless(cat, ImagePlace, s.image))
      && (r == Err(OwnershipCategoryFailed) <==>
            && !Nameless(cat, ImagePlace, s.image)
            && Present(ClusterLabel(labels))
            && CategoryId(cat, Ownership(ClusterLabel(labels).value)).None?)
      && (r.Err? ==> r.error in {NoImageUuid, OwnershipCategoryFailed})
  {
    ResolutionComplete(cat, s);
    var v := Resolved(cat, s);
    GpusBuild(cat, v.cluster, s.gpus);
    UserCategoriesBuild(cat, s.categories);
    assert v.image.uuid.None? <==> Nameless(cat, ImagePlace, s.image) by {
      ValidationExact(cat, s);
      NamelessExact(cat, ImagePlace, s.image);
    }
  }

  /** A Prism Central whose lists name every image, subnet, project and category once, without an ExtId. */
  function NamelessCatalogue(): Catalogue {
    Catalogue(
      _ => None, _ => true,
      _ => Some([None]), _ => true,
      _ => Some([None]), _ => true,
      true, _ => Some([None]), _ => true,
      _ => Some([None]), _ => None)
  }

  function SmallSpec(image: Identifier, subnet: Identifier): Spec {
    var unset := Identifier(KindUnset, None, None);
    Spec(Identifier(KindUuid, Some("pe"), None), image, [subnet], 2, 1, 4 * GIB, 120 * GIB, BootUnset, unset, [], [], [])
  }

  lemma SmallSpecValidates(image: Identifier, subnet: Identifier)
    requires (image.kind == KindName && Present(image.name)) || (image.kind == KindUuid && Present(image.uuid))
    requires (subnet.kind == KindName && Present(subnet.name)) || (subnet.kind == KindUuid && Present(subnet.uuid))
    ensures Errors(NamelessCatalogue(), SmallSpec(image, subnet)) == []
  {
    var cat := NamelessCatalogue();
    CollectEmpty([subnet], SubnetCheck(cat));
    assert IdErrors(cat, SubnetPlace, subnet) == [];
    assert Mib(4 * GIB) == 4096 && Mib(120 * GIB) == 122880;
  }

  /** Such a listing does defeat it: a spec that validates cleanly and cannot be built. */
  lemma ValidatorUnsoundForNamelessImage()
    ensures var s := SmallSpec(Identifier(KindName, None, Some("rhcos")), Identifier(KindUuid, Some("net"), None));
            var cat := NamelessCatalogue();
      Errors(cat, s) == [] && Build(cat, "m", map[], Resolved(cat, s), "") == Err(NoImageUuid)
  {
    var image, subnet := Identifier(KindName, None, Some("rhcos")), Identifier(KindUuid, Some("net"), None);
    SmallSpecValidates(image, subnet);
    ValidatorSound(NamelessCatalogue(), "m", map[], SmallSpec(image, subnet), "");
  }

  /** And a subnet found by name without an ExtId is built into no NIC at all. */
  lemma NicLostForNamelessSubnet()
    ensures var s := SmallSpec(Identifier(KindUuid, Some("img"), None), Identifier(KindName, None, Some("net")));
            var cat := NamelessCatalogue();
            var r := Build(cat, "m", map[], Resolved(cat, s), "");
      Errors(cat, s) == [] && r.Ok? && r.value.nics == [] && |s.subnets| == 1
  {
    var image, subnet := Identifier(KindUuid, Some("img"), None), Identifier(KindName, None, Some("net"));
    SmallSpecValidates(image, subnet);
    var cat, s := NamelessCatalogue(), SmallSpec(image, subnet);
    ValidatorSound(cat, "m", map[], s, "");
    assert Resolved(cat, s).subnets == [Identifier(KindUuid, None, Some("net"))];
  }

  // ---------------------------------------------------------------- The built VM means what the spec says

  /** When every element contributes one item, item i is element i's. */
  lemma {:induction false} CollectOneEach<T, U>(s: seq<T>, f: T -> seq<U>)
    requires forall i :: 0 <= i < |s| ==> |f(s[i])| == 1
    ensures |Collect(s, f)| == |s|
    ensures forall i :: 0 <= i < |s| ==> Collect(s, f)[i] == f(s[i])[0]
  {
    if s != [] {
      var front := s[..|s| - 1];
      assert forall i :: 0 <= i < |front| ==> front[i] == s[i];
      CollectOneEach(front, f);
    }
  }

  lemma {:induction false} CollectAtMostOneEach<T, U>(s: seq<T>, f: T -> seq<U>)
    requires forall i :: 0 <= i < |s| ==> |f(s[i])| <= 1
    ensures |Collect(s, f)| <= |s|
    ensures |Collect(s, f)| == |s| <==> forall i :: 0 <= i < |s| ==> |f(s[i])| == 1
  {
    if s != [] {
      var front := s[..|s| - 1];
      assert forall i :: 0 <= i < |front| ==> front[i] == s[i];
      CollectAtMostOneEach(front, f);
    }
  }

  /** No NIC is lost, and NIC i is on subnet i, exactly when every subnet has an identifier. */
  lemma NicsMeaning(subnets: seq<Identifier>)
    ensures var nics := Collect(subnets, NicOf());
      (|nics| == |subnets| && forall i :: 0 <= i < |subnets| ==> subnets[i].uuid == Some(nics[i]))
      <==> (forall i :: 0 <= i < |subnets| ==> subnets[i].uuid.Some?)
  {
    CollectAtMostOneEach(subnets, NicOf());
    if forall i :: 0 <= i < |subnets| ==> subnets[i].uuid.Some? {
      CollectOneEach(subnets, NicOf());
    }
  }

  /** How many of the first i data disks are CD-ROMs. */
  function CdRomsBefore(disks: seq<DataDisk>, i: nat): nat
    requires i <= |disks|
  {
    if i == 0 then 0 else CdRomsBefore(disks, i - 1) + (if IsCdRom(disks[i - 1]) then 1 else 0)
  }

  lemma {:induction false} DiskCounts(disks: seq<DataDisk>)
    ensures |Collect(disks, AsCdRom())| == CdRomsBefore(disks, |disks|) <= |disks|
    ensures |Collect(disks, AsDisk())| == |disks| - CdRomsBefore(disks, |disks|)
  {
    if disks != [] {
      DiskCounts(disks[..|disks| - 1]);
      CdRomsBeforePrefix(disks, |disks| - 1, |disks| - 1);
    }
  }

  /**
   Data disk i is CD-ROM number CdRomsBefore(i), or disk number i - CdRomsBefore(i), and keeps its
   own backing and address there; nothing is lost, invented or reordered.
   */
  ghost predicate PlacedInOrder(disks: seq<DataDisk>, i: nat, asDisks: seq<Disk>, asCdRoms: seq<CdRom>)
    requires i < |disks|
  {
    var c := CdRomsBefore(disks, i);
    && c <= i
    && (IsCdRom(disks[i]) ==> c < |asCdRoms| && asCdRoms[c] == CdRomOf(disks[i]))
    && (!IsCdRom(disks[i]) ==> i - c < |asDisks| && asDisks[i - c] == DiskOf(disks[i]))
  }

  lemma {:induction false} DisksMeaning(disks: seq<DataDisk>, i: nat)
    requires i < |disks|
    ensures PlacedInOrder(disks, i, Collect(disks, AsDisk()), Collect(disks, AsCdRom()))
  {
    hide BackingOf, DiskOf, CdRomOf;
    var n := |disks| - 1;
    var front := disks[..n];
    CdRomsBeforePrefix(disks, n, i);
    if i < n {
      DisksMeaning(front, i);
    } else {
      DiskCounts(front);
    }
  }

  lemma {:induction false} CdRomsBeforePrefix(disks: seq<DataDisk>, n: nat, i: nat)
    requires i <= n <= |disks|
    ensures CdRomsBefore(disks[..n], i) == CdRomsBefore(disks, i)
  {
    if i > 0 { CdRomsBeforePrefix(disks, n, i - 1); }
  }

  /** A validated device never reaches a default arm: its bus is the one its adapter names. */
  predicate BusNamedBy(a: Adapter, b: DiskBus) {
    (a, b) in {(AdapterScsi, DiskScsi), (AdapterIde, DiskIde), (AdapterPci, DiskPci),
               (AdapterSata, DiskSata), (AdapterSpapr, DiskSpapr)}
  }

  predicate CdRomBusNamedBy(a: Adapter, b: CdRomBus) {
    (a, b) in {(AdapterIde, CdRomIde), (AdapterSata, CdRomSata)}
  }

  /** Backing b has the size, flash mode and container that data disk d asked for, and no image it did not. */
  predicate BackingKeeps(d: DataDisk, b: Backing) {
    && b.sizeBytes == Some(d.sizeBytes)
    && (d.source.None? ==> b.image == None)
    && (b.flash <==> d.storage.Some? && d.storage.value.mode == ModeFlash)
    && b.container == (if d.storage.Some? && d.storage.value.container.Some? then d.storage.value.container.value.uuid else None)
  }

  /** A disk that asked for a source has the image its source refers to. */
  ghost predicate SourceKept(cat: Catalogue, d: DataDisk, b: Backing) {
    d.source.Some? ==> b.image.Some? && RefersTo(cat, SourcePlace, d.source.value, b.image)
  }

  /** The disk's source was found by name and listed without an ExtId. */
  ghost predicate NamelessSource(cat: Catalogue, d: DataDisk) {
    d.source.Some? && Nameless(cat, SourcePlace, d.source.value)
  }

  /** A validated disk keeps everything it asked for, its source exactly when that has an identifier. */
  lemma DiskMeaning(cat: Catalogue, d: DataDisk)
    requires DiskErrors(cat, d) == []
    ensures var r := ResolveDisk(cat, d);
      && IsCdRom(r) == IsCdRom(d)
      && BackingKeeps(d, BackingOf(r))
      && (SourceKept(cat, d, BackingOf(r)) <==> !NamelessSource(cat, d))
      && (d.device.None? ==> DiskOf(r).address.None?)
      && (d.device.Some? && !IsCdRom(d) ==>
            && DiskOf(r).address.Some?
            && BusNamedBy(d.device.value.adapter, DiskOf(r).address.value.bus)
            && DiskOf(r).address.value.index == d.device.value.index)
      && (IsCdRom(d) ==>
            && CdRomBusNamedBy(d.device.value.adapter, CdRomOf(r).address.bus)
            && CdRomOf(r).address.index == d.device.value.index)
  {
    DiskExact(cat, d);
    if d.source.Some? {
      LeftIsReferent(cat, SourcePlace, d.source.value);
      NamelessExact(cat, SourcePlace, d.source.value);
    }
  }

  /** Data disk i has a place in the VM: its kind and order give it. */
  predicate Placed(disks: seq<DataDisk>, i: nat, vm: BuiltVm)
    requires i < |disks|
  {
    var c := CdRomsBefore(disks, i);
    c <= i && if IsCdRom(disks[i]) then c < |vm.cdRoms| else 1 + i - c < |vm.disks|
  }

  function BackingAt(disks: seq<DataDisk>, i: nat, vm: BuiltVm): Backing
    requires i < |disks| && Placed(disks, i, vm)
  {
    var c := CdRomsBefore(disks, i);
    if IsCdRom(disks[i]) then vm.cdRoms[c].backing else vm.disks[1 + i - c].backing
  }

  /**
   Data disk i of the original spec is in the VM, at the place its kind and order give it, with the
   size, container, flash mode, bus and index it asked for.
   */
  ghost predicate DiskInVm(disks: seq<DataDisk>, i: nat, vm: BuiltVm)
    requires i < |disks|
  {
    var d, c := disks[i], CdRomsBefore(disks, i);
    && Placed(disks, i, vm)
    && BackingKeeps(d, BackingAt(disks, i, vm))
    && (IsCdRom(d) ==>
          && CdRomBusNamedBy(d.device.value.adapter, vm.cdRoms[c].address.bus)
          && vm.cdRoms[c].address.index == d.device.value.index)
    && (!IsCdRom(d) && d.device.None? ==> vm.disks[1 + i - c].address.None?)
    && (!IsCdRom(d) && d.device.Some? ==>
          && vm.disks[1 + i - c].address.Some?
          && BusNamedBy(d.device.value.adapter, vm.disks[1 + i - c].address.value.bus)
          && vm.disks[1 + i - c].address.value.index == d.device.value.index)
  }

  /** And it has the image its source refers to. */
  ghost predicate SourceInVm(cat: Catalogue, disks: seq<DataDisk>, i: nat, vm: BuiltVm)
    requires i < |disks|
  {
    Placed(disks, i, vm) && SourceKept(cat, disks[i], BackingAt(disks, i, vm))
  }

  lemma {:induction false} CdRomsBeforeResolved(cat: Catalogue, disks: seq<DataDisk>, i: nat)
    requires i <= |disks|
    ensures CdRomsBefore(ResolveDisks(cat, disks), i) == CdRomsBefore(disks, i)
  {
    if i > 0 { CdRomsBeforeResolved(cat, disks, i - 1); }
  }

  lemma DataDiskPreserved(cat: Catalogue, disks: seq<DataDisk>, i: nat, vm: BuiltVm)
    requires i < |disks| && DiskErrors(cat, disks[i]) == []
    requires vm.cdRoms == Collect(ResolveDisks(cat, disks), AsCdRom())
    requires |vm.disks| >= 1 && vm.disks[1..] == Collect(ResolveDisks(cat, disks), AsDisk())
    ensures DiskInVm(disks, i, vm)
    ensures SourceInVm(cat, disks, i, vm) <==> !NamelessSource(cat, disks[i])
  {
    hide CdRomsBefore, Collect, BackingKeeps, BackingOf, ResolveDisk, DiskErrors, SourceKept, NamelessSource;
    var r := ResolveDisks(cat, disks);
    DisksMeaning(r, i);
    CdRomsBeforeResolved(cat, disks, i);
    DiskMeaning(cat, disks[i]);
    if !IsCdRom(r[i]) {
      var k := i - CdRomsBefore(r, i);
      assert vm.disks[1..][k] == vm.disks[1 + k];
    }
  }

  lemma DataDisksPreserved(cat: Catalogue, s: Spec, vm: BuiltVm)
    requires Collect(s.dataDisks, DiskCheck(cat)) == []
    requires vm.cdRoms == Collect(ResolveDisks(cat, s.dataDisks), AsCdRom())
    requires |vm.disks| >= 1 && vm.disks[1..] == Collect(ResolveDisks(cat, s.dataDisks), AsDisk())
    ensures |vm.disks| + |vm.cdRoms| == 1 + |s.dataDisks|
    ensures forall i :: 0 <= i < |s.dataDisks| ==> DiskInVm(s.dataDisks, i, vm)
    ensures SourcesKeepMeaning(cat, s, vm) <==> forall i :: 0 <= i < |s.dataDisks| ==> !NamelessSource(cat, s.dataDisks[i])
  {
    hide DiskInVm, SourceInVm, NamelessSource, Collect, DiskErrors, ResolveDisk;
    DiskCounts(ResolveDisks(cat, s.dataDisks));
    CollectEmpty(s.dataDisks, DiskCheck(cat));
    forall i | 0 <= i < |s.dataDisks|
      ensures DiskInVm(s.dataDisks, i, vm)
      ensures SourceInVm(cat, s.dataDisks, i, vm) <==> !NamelessSource(cat, s.dataDisks[i])
    {
      assert DiskCheck(cat)(s.dataDisks[i]) == [];
      DataDiskPreserved(cat, s.dataDisks, i, vm);
    }
  }

  ghost predicate KeepsSizesAndPlaces(cat: Catalogue, s: Spec, vm: BuiltVm) {
    && vm.memoryBytes == s.memoryBytes && vm.memoryBytes >= 2 * GIB
    && vm.coresPerSocket == s.vcpusPerSocket && vm.sockets == s.vcpuSockets
    && RefersTo(cat, ClusterPlace, s.cluster, Some(vm.cluster))
    && |vm.disks| >= 1
    && vm.disks[0] == Disk(Backing(Some(s.systemDiskBytes), vm.disks[0].backing.image, false, None), None)
    && s.systemDiskBytes >= 20 * GIB
    && vm.disks[0].backing.image.Some?
    && RefersTo(cat, ImagePlace, s.image, vm.disks[0].backing.image)
    && (vm.boot == DefaultBoot <==> s.boot == BootUnset)
    && (vm.boot == UefiBoot(false) <==> s.boot == BootUefi)
    && (vm.boot == UefiBoot(true) <==> s.boot == BootSecure)
    && (vm.boot == LegacyBoot([FromCdRom, FromDisk, FromNetwork]) <==> s.boot == BootLegacy)
  }

  /** The VM is in the project the spec refers to, or in none if the spec names none. */
  ghost predicate ProjectKeepsMeaning(cat: Catalogue, s: Spec, vm: BuiltVm) {
    if s.project.kind == KindUnset then vm.project == None
    else vm.project.Some? && RefersTo(cat, ProjectPlace, s.project, vm.project)
  }

  /** The project was found by name and listed with no UUID or an empty one. */
  ghost predicate NamelessProject(cat: Catalogue, id: Identifier) {
    id.kind == KindName && id.name.Some?
    && (Denotes(cat, ProjectPlace, id.name.value, None) || Denotes(cat, ProjectPlace, id.name.value, Some("")))
  }

  ghost predicate KeepsDataDisks(s: Spec, vm: BuiltVm) {
    && |vm.disks| + |vm.cdRoms| == 1 + |s.dataDisks|
    && (forall i :: 0 <= i < |s.dataDisks| ==> DiskInVm(s.dataDisks, i, vm))
  }

  /** Every data disk that asked for a source has the image it refers to. */
  ghost predicate SourcesKeepMeaning(cat: Catalogue, s: Spec, vm: BuiltVm) {
    forall i :: 0 <= i < |s.dataDisks| ==> SourceInVm(cat, s.dataDisks, i, vm)
  }

  /** GPU v is described by the first configured profile that is the one asked for. */
  ghost predicate GpuKept(g: Gpu, profiles: seq<PhysicalGpu>, v: VmGpu) {
    exists j :: 0 <= j < |profiles| && FirstProfile(g, profiles, j)
                && Describes(GpuDevice(v.name, v.deviceId), profiles[j].config.value)
  }

  /** One GPU per request, in order, each from the profiles of the VM's own cluster. */
  ghost predicate KeepsGpus(cat: Catalogue, cluster: string, gpus: seq<Gpu>, built: seq<VmGpu>) {
    && |built| == |gpus|
    && (gpus != [] ==> cat.gpusOf(cluster).Some?)
    && (forall i :: 0 <= i < |gpus| ==> GpuKept(gpus[i], cat.gpusOf(cluster).value, built[i]))
  }

  /** The VM says what the original spec says, apart from what a missing ExtId can lose. */
  ghost predicate KeepsMeaning(cat: Catalogue, s: Spec, vm: BuiltVm) {
    KeepsSizesAndPlaces(cat, s, vm) && KeepsDataDisks(s, vm) && KeepsGpus(cat, vm.cluster, s.gpus, vm.gpus)
  }

  /** NIC i is on what subnet i of the original spec refers to, and there is one NIC per subnet. */
  ghost predicate NicsKeepMeaning(cat: Catalogue, s: Spec, vm: BuiltVm) {
    && |vm.nics| == |s.subnets|
    && forall i :: 0 <= i < |s.subnets| ==> RefersTo(cat, SubnetPlace, s.subnets[i], Some(vm.nics[i]))
  }

  lemma GpusPreserved(cat: Catalogue, cluster: string, gpus: seq<Gpu>)
    requires GpuList(cat, cluster, gpus).Ok?
    ensures KeepsGpus(cat, cluster, gpus, GpuList(cat, cluster, gpus).value)
  {
    if gpus != [] {
      var profiles := cat.gpusOf(cluster).value;
      var devices := Devices(cat, cluster).value;
      MatchGpusError(gpus, devices);
      hide Collect, FirstMatch, MatchGpus, FirstProfile, Describes;
      forall i | 0 <= i < |gpus| ensures GpuKept(gpus[i], profiles, GpuList(cat, cluster, gpus).value[i]) {
        var j := FirstMatchOfProfiles(gpus[i], profiles);
      }
    }
  }

  /** The fields of a VM that was built. */
  lemma BuiltFields(cat: Catalogue, name: string, labels: map<string, string>, v: Spec, userData: string, vm: BuiltVm)
    requires Build(cat, name, labels, v, userData) == Ok(vm)
    ensures v.cluster.uuid == Some(vm.cluster) && v.image.uuid.Some?
    ensures vm.memoryBytes == v.memoryBytes && vm.coresPerSocket == v.vcpusPerSocket && vm.sockets == v.vcpuSockets
    ensures vm.nics == Collect(v.subnets, NicOf())
    ensures vm.disks == [SystemDisk(v.image.uuid.value, v.systemDiskBytes)] + Collect(v.dataDisks, AsDisk())
    ensures vm.cdRoms == Collect(v.dataDisks, AsCdRom())
    ensures GpuList(cat, vm.cluster, v.gpus) == Ok(vm.gpus)
    ensures vm.project == ProjectOf(v.project) && vm.boot == BootOf(v.boot)
    ensures vm.name == name && vm.userData == userData
  {
  }

  /** On any spec, validated or not, a size that is not positive is left unset, and no other is. */
  lemma SizesSetWhenPositive(image: string, bytes: int, d: DataDisk)
    ensures SystemDisk(image, bytes).backing.sizeBytes.Some? <==> bytes > 0
    ensures bytes > 0 ==> SystemDisk(image, bytes).backing.sizeBytes.value == bytes
    ensures BackingOf(d).sizeBytes.Some? <==> d.sizeBytes > 0
    ensures d.sizeBytes > 0 ==> BackingOf(d).sizeBytes.value == d.sizeBytes
  {
  }

  lemma SizesAndPlacesPreserved(cat: Catalogue, s: Spec, vm: BuiltVm)
    requires Errors(cat, s) == []
    requires var v := Resolved(cat, s);
      && v.cluster.uuid == Some(vm.cluster) && v.image.uuid.Some?
      && vm.memoryBytes == s.memoryBytes && vm.coresPerSocket == s.vcpusPerSocket && vm.sockets == s.vcpuSockets
      && |vm.disks| >= 1 && vm.disks[0] == SystemDisk(v.image.uuid.value, s.systemDiskBytes)
      && vm.project == ProjectOf(v.project) && vm.boot == BootOf(s.boot)
    ensures KeepsSizesAndPlaces(cat, s, vm)
    ensures ProjectKeepsMeaning(cat, s, vm) <==> !NamelessProject(cat, s.project)
  {
    ValidationExact(cat, s);
    LeftIsReferent(cat, ClusterPlace, s.cluster);
    LeftIsReferent(cat, ImagePlace, s.image);
    if s.project.kind != KindUnset {
      LeftIsReferent(cat, ProjectPlace, s.project);
      NamelessExact(cat, ProjectPlace, s.project);
    }
  }

  /**
   The two passes together preserve meaning: what is built from the resolved copy of a spec that
   validates says, item by item, what the original spec says. The NICs, the data-disk sources, the
   project and the categories do so exactly when none of theirs was listed without an ExtId;
   otherwise the builder drops it without an error.
   */
  lemma MeaningPreserved(cat: Catalogue, name: string, labels: map<string, string>, s: Spec, userData: string, vm: BuiltVm)
    requires Errors(cat, s) == []
    requires Build(cat, name, labels, Resolved(cat, s), userData) == Ok(vm)
    ensures KeepsMeaning(cat, s, vm) && vm.name == name && vm.userData == userData
    ensures NicsKeepMeaning(cat, s, vm) <==> forall i :: 0 <= i < |s.subnets| ==> !Nameless(cat, SubnetPlace, s.subnets[i])
    ensures SourcesKeepMeaning(cat, s, vm) <==> forall i :: 0 <= i < |s.dataDisks| ==> !NamelessSource(cat, s.dataDisks[i])
    ensures ProjectKeepsMeaning(cat, s, vm) <==> !NamelessProject(cat, s.project)
    ensures LabelOk(labels) ==>
      (CategoriesKeepMeaning(cat, labels, s.categories, vm) <==> CategoriesHaveIds(cat, labels, s.categories))
  {
    hide SourcesKeepMeaning, NamelessSource, ProjectKeepsMeaning, NamelessProject, DiskInVm, NicsKeepMeaning,
         Nameless, CategoriesKeepMeaning, CategoriesHaveIds, KeepsGpus;
    var v := Resolved(cat, s);
    BuiltFields(cat, name, labels, v, userData, vm);
    assert vm.disks[1..] == Collect(v.dataDisks, AsDisk());
    SizesAndPlacesPreserved(cat, s, vm);
    DataDisksPreserved(cat, s, vm);
    GpusPreserved(cat, vm.cluster, s.gpus);
    NicsPreserved(cat, s, vm);
    if LabelOk(labels) { OwnershipIsLast(cat, name, labels, v, userData); }
  }

  lemma NicsPreserved(cat: Catalogue, s: Spec, vm: BuiltVm)
    requires Errors(cat, s) == [] && vm.nics == Collect(ResolveSubnets(cat, s.subnets), NicOf())
    ensures NicsKeepMeaning(cat, s, vm) <==> forall i :: 0 <= i < |s.subnets| ==> !Nameless(cat, SubnetPlace, s.subnets[i])
  {
    hide Errors, Nameless;
    ResolutionComplete(cat, s);
    var subnets := Resolved(cat, s).subnets;
    forall i | 0 <= i < |subnets| ensures subnets[i].uuid.Some? <==> !Nameless(cat, SubnetPlace, s.subnets[i]) {
      assert ResolvedTo(cat, SubnetPlace, s.subnets[i], subnets[i]);
      NamelessExact(cat, SubnetPlace, s.subnets[i]);
    }
    NicsMeaning(subnets);
    CollectAtMostOneEach(subnets, NicOf());
    if NicsKeepMeaning(cat, s, vm) {
      forall i | 0 <= i < |subnets| ensures subnets[i].uuid.Some? {
        assert |NicOf()(subnets[i])| == 1;
      }
    }
  }

  // ---------------------------------------------------------------- Categories

  /** Exactly one category is listed under this key and value, and x is its ExtId. */
  predicate CategoryIs(cat: Catalogue, c: Category, x: Option<string>) {
    cat.categoriesOf(c) == Some([x])
  }

  /** One reference per user category, in order, and then that of the ownership category. */
  ghost predicate CategoriesKeepMeaning(cat: Catalogue, labels: map<string, string>, cs: seq<Category>, vm: BuiltVm)
    requires LabelOk(labels)
  {
    && |vm.categories| == |cs| + 1
    && (forall i :: 0 <= i < |cs| ==> CategoryIs(cat, cs[i], Some(vm.categories[i])))
    && CategoryIs(cat, Ownership(labels[CLUSTER_LABEL]), Some(vm.categories[|cs|]))
  }

  /** No user category and not the ownership category is listed without an ExtId. */
  predicate CategoriesHaveIds(cat: Catalogue, labels: map<string, string>, cs: seq<Category>)
    requires LabelOk(labels)
  {
    && (forall i :: 0 <= i < |cs| ==> !CategoryIs(cat, cs[i], None))
    && !CategoryIs(cat, Ownership(labels[CLUSTER_LABEL]), None)
  }

  lemma CategoryRefMeaning(cat: Catalogue, c: Category)
    requires CategoryId(cat, c).Some?
    ensures |CategoryRef(cat)(c)| <= 1
    ensures |CategoryRef(cat)(c)| == 1 <==> !CategoryIs(cat, c, None)
    ensures |CategoryRef(cat)(c)| == 1 ==> CategoryIs(cat, c, Some(CategoryRef(cat)(c)[0]))
  {
    SoleMeaning(cat.categoriesOf(c));
  }

  /**
   The category list of a built VM is one reference per user category in order and then the ownership
   category's, exactly when each of these was listed with an ExtId. The label check made before every
   create leaves no other outcome.
   */
  lemma OwnershipIsLast(cat: Catalogue, name: string, labels: map<string, string>, s: Spec, userData: string)
    requires LabelOk(labels)
    requires Build(cat, name, labels, s, userData).Ok?
    ensures CategoriesKeepMeaning(cat, labels, s.categories, Build(cat, name, labels, s, userData).value)
      <==> CategoriesHaveIds(cat, labels, s.categories)
  {
    var vm := Build(cat, name, labels, s, userData).value;
    BuiltCategories(cat, name, labels, s, userData);
    hide Build, CategoryIs, CategoryRef;
    var cs, own, f := s.categories, Ownership(labels[CLUSTER_LABEL]), CategoryRef(cat);
    forall i | 0 <= i < |cs|
      ensures |f(cs[i])| <= 1 && (|f(cs[i])| == 1 <==> !CategoryIs(cat, cs[i], None))
      ensures |f(cs[i])| == 1 ==> CategoryIs(cat, cs[i], Some(f(cs[i])[0]))
    {
      CategoryRefMeaning(cat, cs[i]);
    }
    CategoryRefMeaning(cat, own);
    CollectAtMostOneEach(cs, f);
    if forall i :: 0 <= i < |cs| ==> |f(cs[i])| == 1 { CollectOneEach(cs, f); }
  }

  lemma BuiltCategories(cat: Catalogue, name: string, labels: map<string, string>, s: Spec, userData: string)
    requires LabelOk(labels)
    requires Build(cat, name, labels, s, userData).Ok?
    ensures CategoriesFound(cat, s.categories) && CategoryId(cat, Ownership(labels[CLUSTER_LABEL])).Some?
    ensures Build(cat, name, labels, s, userData).value.categories
         == Collect(s.categories, CategoryRef(cat)) + CategoryRef(cat)(Ownership(labels[CLUSTER_LABEL]))
  {
  }

  /** The ownership category of cluster c is kubernetes-io-cluster-c, valued owned. */
  lemma OwnershipText(labels: map<string, string>)
    requires LabelOk(labels)
    ensures var id := "machine.openshift.io/cluster-api-cluster";
      && id in labels && labels[id] != ""
      && Ownership(labels[CLUSTER_LABEL]) == Category("kubernetes-io-cluster-" + labels[id], "owned")
      && ClusterLabel(labels) == Some(labels[id])
  {
  }

  /** A machine without that label is refused; the builder alone would still accept the upstream label. */
  lemma LabelText(labels: map<string, string>)
    ensures var id, upstream := "machine.openshift.io/cluster-api-cluster", "sigs.k8s.io/cluster-api-cluster";
      && (LabelOk(labels) <==> id in labels && labels[id] != "")
      && (ClusterLabel(labels).None? <==> id !in labels && upstream !in labels)
      && (id !in labels && upstream in labels ==> ClusterLabel(labels) == Some(labels[upstream]))
      && (id in labels ==> ClusterLabel(labels) == Some(labels[id]))
  {
  }

  // ---------------------------------------------------------------- What a missing ExtId loses

  /** A spec that names its data source and its project, and has one category. */
  function NamingSpec(): Spec {
    SmallSpec(Identifier(KindUuid, Some("img"), None), Identifier(KindUuid, Some("net"), None))
      .(dataDisks := [DataDisk(GIB, None, None, Some(Identifier(KindName, None, Some("data"))))],
        project := Identifier(KindName, None, Some("team")),
        categories := [Category("env", "prod")])
  }

  lemma NamingSpecBuilds() returns (vm: BuiltVm)
    ensures var cat, s := NamelessCatalogue(), NamingSpec();
      Errors(cat, s) == [] && Build(cat, "m", map[CLUSTER_LABEL := "c"], Resolved(cat, s), "") == Ok(vm)
  {
    var cat, s, labels := NamelessCatalogue(), NamingSpec(), map[CLUSTER_LABEL := "c"];
    NamingSpecValidates();
    ValidatorSound(cat, "m", labels, s, "");
    vm := Build(cat, "m", labels, Resolved(cat, s), "").value;
  }

  lemma NamingSpecValidates()
    ensures Errors(NamelessCatalogue(), NamingSpec()) == []
  {
    var cat, s := NamelessCatalogue(), NamingSpec();
    CollectEmpty(s.subnets, SubnetCheck(cat));
    CollectEmpty(s.categories, CategoryCheck(cat));
    CollectEmpty(s.dataDisks, DiskCheck(cat));
    assert Mib(4 * GIB) == 4096 && Mib(120 * GIB) == 122880 && Mib(GIB) == 1024;
  }

  /** A data source found by name without an ExtId is built into a blank disk. */
  lemma SourceLostForNamelessImage()
    ensures var cat, s, labels := NamelessCatalogue(), NamingSpec(), map[CLUSTER_LABEL := "c"];
            var r := Build(cat, "m", labels, Resolved(cat, s), "");
      && Errors(cat, s) == [] && r.Ok? && s.dataDisks[0].source.Some?
      && |r.value.disks| == 2 && r.value.disks[1].backing.image == None
  {
    var vm := NamingSpecBuilds();
    var cat, s := NamelessCatalogue(), NamingSpec();
    BuiltFields(cat, "m", map[CLUSTER_LABEL := "c"], Resolved(cat, s), "", vm);
    var disks := Resolved(cat, s).dataDisks;
    assert disks == [s.dataDisks[0].(source := Some(Identifier(KindUuid, None, Some("data"))))];
    assert Collect(disks, AsDisk()) == [DiskOf(disks[0])] by { CollectOne(disks[0], AsDisk()); }
  }

  lemma CollectOne<T, U>(x: T, f: T -> seq<U>)
    ensures Collect([x], f) == f(x)
  {
    assert Collect([x][..0], f) == [];
  }

  /** A project found by name without a UUID is left out of the VM. */
  lemma ProjectLostForNamelessListing()
    ensures var cat, s, labels := NamelessCatalogue(), NamingSpec(), map[CLUSTER_LABEL := "c"];
            var r := Build(cat, "m", labels, Resolved(cat, s), "");
      Errors(cat, s) == [] && r.Ok? && s.project.kind == KindName && r.value.project == None
  {
    var vm := NamingSpecBuilds();
    var cat, s := NamelessCatalogue(), NamingSpec();
    BuiltFields(cat, "m", map[CLUSTER_LABEL := "c"], Resolved(cat, s), "", vm);
  }

  /** Categories listed without an ExtId are left out, the ownership category among them. */
  lemma CategoriesLostForNamelessListing()
    ensures var cat, s, labels := NamelessCatalogue(), NamingSpec(), map[CLUSTER_LABEL := "c"];
            var r := Build(cat, "m", labels, Resolved(cat, s), "");
      Errors(cat, s) == [] && r.Ok? && LabelOk(labels) && |s.categories| == 1 && r.value.categories == []
  {
    var vm := NamingSpecBuilds();
    var cat, s, labels := NamelessCatalogue(), NamingSpec(), map[CLUSTER_LABEL := "c"];
    BuiltCategories(cat, "m", labels, Resolved(cat, s), "");
    CollectOne(s.categories[0], CategoryRef(cat));
    assert Resolved(cat, s).categories == [s.categories[0]];
  }

  // ---------------------------------------------------------------- Failure domains

  /** The domain's identifier and its conversion refer to the same thing, and are nameless together. */
  lemma ConversionRefers(cat: Catalogue, p: Place, id: Identifier, r: Identifier)
    requires Converted(id, r)
    ensures forall x :: RefersTo(cat, p, r, x) <==> RefersTo(cat, p, id, x)
    ensures Nameless(cat, p, r) <==> Nameless(cat, p, id)
  {
  }

  /**
   Under a selected failure domain the VM is on the cluster that the domain's own cluster identifier
   refers to, and has one NIC per domain subnet, NIC i on what the domain's subnet i refers to, exactly
   when none of these is listed without an ExtId. Everything else is the spec's own.
   */
  lemma DomainMeaning(cat: Catalogue, name: string, labels: map<string, string>, s: Spec, d: FailureDomain,
                      userData: string, vm: BuiltVm)
    requires Errors(cat, Overridden(s, Some(d))) == []
    requires Build(cat, name, labels, Resolved(cat, Overridden(s, Some(d))), userData) == Ok(vm)
    ensures RefersTo(cat, ClusterPlace, d.cluster, Some(vm.cluster))
    ensures NicsFollow(cat, d.subnets, vm) <==> forall i :: 0 <= i < |d.subnets| ==> !Nameless(cat, SubnetPlace, d.subnets[i])
    ensures KeepsOwn(cat, s, vm) && KeepsDataDisks(s, vm) && KeepsGpus(cat, vm.cluster, s.gpus, vm.gpus)
    ensures SourcesKeepMeaning(cat, s, vm) <==> forall i :: 0 <= i < |s.dataDisks| ==> !NamelessSource(cat, s.dataDisks[i])
    ensures ProjectKeepsMeaning(cat, s, vm) <==> !NamelessProject(cat, s.project)
    ensures LabelOk(labels) ==>
      (CategoriesKeepMeaning(cat, labels, s.categories, vm) <==> CategoriesHaveIds(cat, labels, s.categories))
  {
    hide Errors, Build, Resolved, Overridden, RefersTo, Nameless, KeepsDataDisks, KeepsGpus, CategoriesKeepMeaning,
         SourcesKeepMeaning, ProjectKeepsMeaning, NamelessProject, NamelessSource, CategoriesHaveIds;
    var o := Overridden(s, Some(d));
    MeaningPreserved(cat, name, labels, o, userData, vm);
    ConversionRefers(cat, ClusterPlace, d.cluster, o.cluster);
    forall i | 0 <= i < |d.subnets|
      ensures Nameless(cat, SubnetPlace, o.subnets[i]) <==> Nameless(cat, SubnetPlace, d.subnets[i])
      ensures forall x :: RefersTo(cat, SubnetPlace, o.subnets[i], x) <==> RefersTo(cat, SubnetPlace, d.subnets[i], x)
    {
      ConversionRefers(cat, SubnetPlace, d.subnets[i], o.subnets[i]);
    }
    assert o.dataDisks == s.dataDisks && o.gpus == s.gpus && o.project == s.project && o.categories == s.categories;
    SameRest(cat, s, o, vm);
    OwnFields(cat, s, o, vm);
  }

  /** NIC i is on what subnet i refers to, and there is one NIC per subnet. */
  ghost predicate NicsFollow(cat: Catalogue, subnets: seq<Identifier>, vm: BuiltVm) {
    && |vm.nics| == |subnets|
    && forall i :: 0 <= i < |subnets| ==> RefersTo(cat, SubnetPlace, subnets[i], Some(vm.nics[i]))
  }

  /** What a failure domain does not decide: sizes, image and boot. */
  ghost predicate KeepsOwn(cat: Catalogue, s: Spec, vm: BuiltVm) {
    && vm.memoryBytes == s.memoryBytes && vm.coresPerSocket == s.vcpusPerSocket && vm.sockets == s.vcpuSockets
    && |vm.disks| >= 1 && vm.disks[0].backing.sizeBytes == Some(s.systemDiskBytes)
    && RefersTo(cat, ImagePlace, s.image, vm.disks[0].backing.image)
    && (vm.boot == DefaultBoot <==> s.boot == BootUnset)
    && (vm.boot == UefiBoot(false) <==> s.boot == BootUefi)
    && (vm.boot == UefiBoot(true) <==> s.boot == BootSecure)
    && (vm.boot == LegacyBoot([FromCdRom, FromDisk, FromNetwork]) <==> s.boot == BootLegacy)
  }

  lemma SameRest(cat: Catalogue, s: Spec, o: Spec, vm: BuiltVm)
    requires o.dataDisks == s.dataDisks && o.project == s.project
    ensures KeepsDataDisks(o, vm) <==> KeepsDataDisks(s, vm)
    ensures SourcesKeepMeaning(cat, o, vm) <==> SourcesKeepMeaning(cat, s, vm)
    ensures ProjectKeepsMeaning(cat, o, vm) <==> ProjectKeepsMeaning(cat, s, vm)
  {
  }

  lemma OwnFields(cat: Catalogue, s: Spec, o: Spec, vm: BuiltVm)
    requires o.(cluster := s.cluster, subnets := s.subnets) == s && KeepsSizesAndPlaces(cat, o, vm)
    ensures KeepsOwn(cat, s, vm)
  {
  }

  /** Under a failure domain, the built VM does not depend on the spec's own Cluster and Subnets. */
  lemma FailureDomainFixesVm(cat: Catalogue, name: string, labels: map<string, string>, a: Spec, b: Spec,
                             fd: FailureDomain, userData: string)
    requires a.(cluster := b.cluster, subnets := b.subnets) == b
    ensures Build(cat, name, labels, Resolved(cat, Overridden(a, Some(fd))), userData)
         == Build(cat, name, labels, Resolved(cat, Overridden(b, Some(fd))), userData)
  {
    FailureDomainNonInterference(cat, a, b, fd);
  }
}

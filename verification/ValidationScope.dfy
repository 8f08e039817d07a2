/**
 validateVMConfig as it runs: a deep copy of the provider spec's object graph, then in-place
 resolution of names in the copy, data-disk sources being rewritten through pointers. The frame of
 ValidateVMConfig is the claim that resolution never leaks into the stored spec.
 */
module ValidationScope {
  import opened Basics
  import opened ProviderSpec
  import opened Catalogue
  import opened Validation

  /** A NutanixResourceIdentifier behind a pointer. */
  class SourceRef {
    var kind: IdKind
    var uuid: Option<string>
    var name: Option<string>

    constructor (id: Identifier)
      ensures View() == id
    {
      kind, uuid, name := id.kind, id.uuid, id.name;
    }

    function View(): Identifier
      reads this
    {
      Identifier(kind, uuid, name)
    }
  }

  /** A NutanixVMDisk. Only DataSource is ever written through, so only it is kept as a pointer. */
  datatype DiskNode = DiskNode(
    sizeBytes: int,
    device: Option<DeviceProperties>,
    storage: Option<StorageConfig>,
    source: SourceRef?)

  ghost function SourcesOf(disks: seq<DiskNode>): set<SourceRef> {
    set i | 0 <= i < |disks| && disks[i].source != null :: disks[i].source
  }

  function DiskView(d: DiskNode): DataDisk
    reads if d.source == null then {} else {d.source}
  {
    DataDisk(d.sizeBytes, d.device, d.storage, if d.source == null then None else Some(d.source.View()))
  }

  ghost function DisksView(disks: seq<DiskNode>): seq<DataDisk>
    reads SourcesOf(disks)
  {
    seq(|disks|, i requires 0 <= i < |disks| reads SourcesOf(disks) => DiskView(disks[i]))
  }

  /** No two disks share a source. */
  ghost predicate Unshared(disks: seq<DiskNode>) {
    forall i, j :: 0 <= i < j < |disks| && disks[i].source != null ==> disks[i].source != disks[j].source
  }

  /** The fields of a spec that validation only reads. */
  datatype Sizes = Sizes(
    vcpusPerSocket: int,
    vcpuSockets: int,
    memoryBytes: int,
    systemDiskBytes: int,
    boot: BootType,
    categories: seq<Category>,
    gpus: seq<Gpu>)

  /** A NutanixMachineProviderConfig object. */
  class SpecObject {
    var cluster: Identifier
    var image: Identifier
    var project: Identifier
    var subnets: array<Identifier>
    var sizes: Sizes
    var dataDisks: seq<DiskNode>

    constructor (cluster: Identifier, image: Identifier, project: Identifier, subnets: array<Identifier>,
                 sizes: Sizes, dataDisks: seq<DiskNode>)
      ensures this.cluster == cluster && this.image == image && this.project == project
      ensures this.subnets == subnets && this.sizes == sizes && this.dataDisks == dataDisks
    {
      this.cluster, this.image, this.project := cluster, image, project;
      this.subnets, this.sizes, this.dataDisks := subnets, sizes, dataDisks;
    }

    /** Every object reachable from this one. */
    ghost function Graph(): set<object>
      reads this
    {
      {this, subnets} + SourcesOf(dataDisks)
    }

    ghost function View(): Spec
      reads this, Graph()
    {
      Spec(cluster, image, subnets[..], sizes.vcpusPerSocket, sizes.vcpuSockets, sizes.memoryBytes,
           sizes.systemDiskBytes, sizes.boot, project, sizes.categories, sizes.gpus, DisksView(dataDisks))
    }

    /** DeepCopy: the same spec in objects that did not exist before, no two disks sharing one. */
    method DeepCopy() returns (copy: SpecObject)
      ensures fresh(copy.Graph())
      ensures copy.View() == old(View())
      ensures Unshared(copy.dataDisks)
    {
      var net := CopyIdentifiers(subnets);
      var disks := CopyDisks(dataDisks);
      copy := new SpecObject(cluster, image, project, net, sizes, disks);
    }

    /** The validators in the order validateVMConfig calls them, up to the data disks. */
    method ValidateFields(cat: Catalogue) returns (errs: seq<FieldError>)
      modifies this`cluster, this`image, this`project, subnets
      ensures errs == FieldErrors(cat, old(View()))
      ensures cluster == Resolve(cat, ClusterPlace, old(cluster))
      ensures image == Resolve(cat, ImagePlace, old(image))
      ensures project == Resolve(cat, ProjectPlace, old(project))
      ensures subnets[..] == ResolveSubnets(cat, old(subnets[..]))
    {
      hide IdErrors, Resolve, SubnetErrors, ResolveSubnets, SizeErrors, GpuListErrors, Collect, DisksView;
      ghost var was := View();
      cluster, errs := ValidateIdentifier(cat, ClusterPlace, cluster);
      var found: seq<FieldError>;
      image, found := ValidateIdentifier(cat, ImagePlace, image);
      errs := errs + found;
      found := ValidateSubnets(cat, subnets);
      errs := errs + found;
      found := ValidateSizes(sizes, was);
      errs := errs + found;
      project, found := ValidateIdentifier(cat, ProjectPlace, project);
      errs := errs + found;
      found := ValidateCategories(cat, sizes.categories);
      errs := errs + found;
      found := ValidateGpus(cat, cluster, sizes.gpus);
      errs := errs + found;
    }

    /** All the validators, on a spec whose disks share no source. */
    method ValidateInPlace(cat: Catalogue) returns (errs: seq<FieldError>)
      requires Unshared(dataDisks)
      modifies Graph()
      ensures Graph() == old(Graph())
      ensures errs == Errors(cat, old(View()))
      ensures View() == Resolved(cat, old(View()))
    {
      hide IdErrors, Resolve, SubnetErrors, ResolveSubnets, SizeErrors, GpuListErrors, Collect, DisksView, ResolveDisks;
      ghost var disks := DisksView(dataDisks);
      errs := ValidateFields(cat);
      assert DisksView(dataDisks) == disks;
      var found := ValidateDataDisks(cat, dataDisks);
      errs := errs + found;
    }
  }

  method CopyIdentifiers(a: array<Identifier>) returns (b: array<Identifier>)
    ensures fresh(b) && b[..] == a[..]
  {
    b := new Identifier[a.Length](i requires 0 <= i < a.Length reads a => a[i]);
    assert b[..] == a[..];
  }

  method CopyDisks(disks: seq<DiskNode>) returns (copy: seq<DiskNode>)
    ensures fresh(SourcesOf(copy))
    ensures Unshared(copy)
    ensures DisksView(copy) == old(DisksView(disks))
  {
    copy := [];
    for i := 0 to |disks|
      invariant |copy| == i
      invariant fresh(SourcesOf(copy))
      invariant Unshared(copy)
      invariant forall j :: 0 <= j < i ==> DiskView(copy[j]) == DiskView(disks[j])
    {
      var d := disks[i];
      var source: SourceRef? := null;
      if d.source != null {
        source := new SourceRef(d.source.View());
      }
      var last := d.(source := source);
      forall j | 0 <= j < i && copy[j].source != null
        ensures copy[j].source != source
      {
        assert copy[j].source in SourcesOf(copy);
      }
      ghost var before := copy;
      copy := copy + [last];
      assert SourcesOf(copy) <= SourcesOf(before) + (if source == null then {} else {source});
    }
  }

  /** A NutanixFailureDomain object of the Infrastructure resource. */
  class FailureDomainObject {
    const name: string
    const cluster: Identifier
    const subnets: array<Identifier>

    constructor (name: string, cluster: Identifier, subnets: array<Identifier>)
      ensures this.name == name && this.cluster == cluster && this.subnets == subnets
    {
      this.name, this.cluster, this.subnets := name, cluster, subnets;
    }

    function View(): FailureDomain
      reads this, subnets
    {
      FailureDomain(name, cluster, subnets[..])
    }
  }

  function DomainView(fd: FailureDomainObject?): Option<FailureDomain>
    reads if fd == null then {} else {fd, fd.subnets}
  {
    if fd == null then None else Some(fd.View())
  }

  /**
   The failure domain a spec refers to: the first of the Infrastructure resource with that name.
   With a name set and no such domain, no scope is built.
   */
  method SelectFailureDomain(domains: seq<FailureDomainObject>, name: string) returns (fd: FailureDomainObject?)
    requires name != ""
    ensures fd == null <==> forall i :: 0 <= i < |domains| ==> domains[i].name != name
    ensures fd != null ==> exists i :: 0 <= i < |domains| && domains[i] == fd && fd.name == name
                                       && forall j :: 0 <= j < i ==> domains[j].name != name
  {
    for i := 0 to |domains|
      invariant forall j :: 0 <= j < i ==> domains[j].name != name
    {
      if domains[i].name == name { return domains[i]; }
    }
    return null;
  }

  // ---------------------------------------------------------------- Validators, in place

  /** validateClusterConfig, validateImageConfig and validateProjectConfig on one identifier. */
  method ValidateIdentifier(cat: Catalogue, p: Place, id: Identifier) returns (left: Identifier, errs: seq<FieldError>)
    ensures left == Resolve(cat, p, id)
    ensures errs == IdErrors(cat, p, id)
  {
    left, errs := id, [];
    match id.kind {
      case KindName =>
        if !Present(id.name) { errs := [Required(FieldOf(p) + ".name")]; return; }
        if p == ProjectPlace && !cat.v3Client { errs := [Internal(FieldOf(p))]; return; }
        var found := Lookup(cat, p, id.name.value);
        if found.None? { errs := [Invalid(FieldOf(p) + ".name")]; return; }
        left := id.(kind := KindUuid, uuid := found.value);
      case KindUuid =>
        if !Present(id.uuid) { errs := [Required(FieldOf(p) + ".uuid")]; return; }
        if p == ProjectPlace && !cat.v3Client { errs := [Internal(FieldOf(p))]; return; }
        if !Has(cat, p, id.uuid.value) { errs := [Invalid(FieldOf(p) + ".uuid")]; }
      case KindUnset =>
        if p != ProjectPlace { errs := [Invalid(FieldOf(p) + ".type")]; }
      case KindOther(_) =>
        errs := [Invalid(FieldOf(p) + ".type")];
    }
  }

  method ValidateSubnets(cat: Catalogue, subnets: array<Identifier>) returns (errs: seq<FieldError>)
    modifies subnets
    ensures errs == SubnetErrors(cat, old(subnets[..]))
    ensures subnets[..] == ResolveSubnets(cat, old(subnets[..]))
  {
    hide IdErrors, Resolve;
    ghost var was := subnets[..];
    if subnets.Length == 0 { return [Required("subnets")]; }
    if subnets.Length > 32 { return [TooMany("subnets")]; }
    errs := [];
    for i := 0 to subnets.Length
      invariant errs == Collect(was[..i], SubnetCheck(cat))
      invariant forall j :: 0 <= j < i ==> subnets[j] == Resolve(cat, SubnetPlace, was[j])
      invariant forall j :: i <= j < subnets.Length ==> subnets[j] == was[j]
    {
      CollectStep(was, SubnetCheck(cat), i);
      var left, found := ValidateIdentifier(cat, SubnetPlace, subnets[i]);
      subnets[i] := left;
      errs := errs + found;
    }
    assert was[..subnets.Length] == was;
    assert subnets[..] == ResolveSubnets(cat, was);
  }

  method ValidateCategories(cat: Catalogue, cs: seq<Category>) returns (errs: seq<FieldError>)
    ensures errs == Collect(cs, CategoryCheck(cat))
  {
    errs := [];
    for i := 0 to |cs|
      invariant errs == Collect(cs[..i], CategoryCheck(cat))
    {
      CollectStep(cs, CategoryCheck(cat), i);
      if CategoryId(cat, cs[i]).None? { errs := errs + [Invalid("categories")]; }
    }
    assert cs[..|cs|] == cs;
  }

  method ValidateGpus(cat: Catalogue, cluster: Identifier, gpus: seq<Gpu>) returns (errs: seq<FieldError>)
    ensures errs == GpuListErrors(cat, cluster, gpus)
  {
    if gpus == [] { return []; }
    if !Present(cluster.uuid) { return [Invalid("cluster.uuid")]; }
    var listed := cat.gpusOf(cluster.uuid.value);
    if listed.None? { return [Internal("gpus")]; }
    var devices := CollectDevices(listed.value);
    if devices == [] { return [Internal("gpus")]; }
    errs := [];
    for i := 0 to |gpus|
      invariant errs == Collect(gpus[..i], GpuCheck(devices))
    {
      CollectStep(gpus, GpuCheck(devices), i);
      errs := errs + GpuErrors(gpus[i], devices);
    }
    assert gpus[..|gpus|] == gpus;
  }

  /** One iteration of validateDataDisksConfig: the source is rewritten through its pointer. */
  method ValidateDisk(cat: Catalogue, d: DiskNode) returns (errs: seq<FieldError>)
    modifies if d.source == null then {} else {d.source}
    ensures errs == DiskErrors(cat, old(DiskView(d)))
    ensures DiskView(d) == ResolveDisk(cat, old(DiskView(d)))
  {
    errs := if Mib(d.sizeBytes) < 1024 then [Invalid("dataDisks.diskSize")] else [];
    if d.device.Some? { errs := errs + DeviceErrors(d.device.value); }
    if d.storage.Some? { errs := errs + StorageErrors(d.storage.value); }
    if d.source != null {
      var left, found := ValidateIdentifier(cat, SourcePlace, d.source.View());
      d.source.kind := left.kind;
      d.source.uuid := left.uuid;
      errs := errs + found;
    }
  }

  method ValidateDataDisks(cat: Catalogue, disks: seq<DiskNode>) returns (errs: seq<FieldError>)
    requires Unshared(disks)
    modifies SourcesOf(disks)
    ensures errs == Collect(old(DisksView(disks)), DiskCheck(cat))
    ensures DisksView(disks) == ResolveDisks(cat, old(DisksView(disks)))
  {
    hide DiskErrors, ResolveDisk, Collect;
    ghost var was := DisksView(disks);
    errs := [];
    assert Collect(was[..0], DiskCheck(cat)) == [] by { CollectEmpty(was[..0], DiskCheck(cat)); }
    for i := 0 to |disks|
      invariant errs == Collect(was[..i], DiskCheck(cat))
      invariant forall j :: 0 <= j < i ==> DiskView(disks[j]) == ResolveDisk(cat, was[j])
      invariant forall j :: i <= j < |disks| ==> DiskView(disks[j]) == was[j]
    {
      CollectStep(was, DiskCheck(cat), i);
      assert disks[i].source != null ==> disks[i].source in SourcesOf(disks);
      assert forall j :: 0 <= j < |disks| && j != i && disks[j].source != null ==> disks[j].source != disks[i].source;
      var found := ValidateDisk(cat, disks[i]);
      errs := errs + found;
    }
    assert was[..|disks|] == was;
    assert DisksView(disks) == ResolveDisks(cat, was);
  }

  method ValidateSizes(s: Sizes, ghost t: Spec) returns (errs: seq<FieldError>)
    requires t.vcpusPerSocket == s.vcpusPerSocket && t.vcpuSockets == s.vcpuSockets
    requires t.memoryBytes == s.memoryBytes && t.systemDiskBytes == s.systemDiskBytes && t.boot == s.boot
    ensures errs == SizeErrors(t)
  {
    errs := [];
    errs := errs + (if s.vcpusPerSocket < 1 then [Invalid("vcpusPerSocket")] else []);
    errs := errs + (if s.vcpuSockets < 1 then [Invalid("vcpuSockets")] else []);
    errs := errs + (if Mib(s.memoryBytes) < 2 * 1024 then [Invalid("memorySize")] else []);
    errs := errs + (if Mib(s.systemDiskBytes) < 20 * 1024 then [Invalid("systemDiskSize")] else []);
    errs := errs + (if s.boot.BootOther? then [Invalid("bootType")] else []);
  }

  // ---------------------------------------------------------------- The scope

  /** The part of machineScope that validation uses. */
  class Scope {
    const providerSpec: SpecObject
    const failureDomain: FailureDomainObject?
    var validated: SpecObject?

    constructor (providerSpec: SpecObject, failureDomain: FailureDomainObject?)
      ensures this.providerSpec == providerSpec && this.failureDomain == failureDomain && validated == null
    {
      this.providerSpec, this.failureDomain, this.validated := providerSpec, failureDomain, null;
    }

    ghost function Input(): Spec
      reads providerSpec, providerSpec.Graph(), if failureDomain == null then {} else {failureDomain, failureDomain.subnets}
    {
      Overridden(providerSpec.View(), DomainView(failureDomain))
    }

    /** The deep copy, with the failure domain's cluster and subnets in place of the spec's own. */
    method CopyAndOverride() returns (copy: SpecObject)
      ensures fresh(copy.Graph())
      ensures copy.View() == old(Input())
      ensures Unshared(copy.dataDisks)
    {
      copy := providerSpec.DeepCopy();
      if failureDomain != null {
        var domain := failureDomain;
        copy.cluster := FromFailureDomain(domain.cluster);
        copy.subnets := new Identifier[domain.subnets.Length](i requires 0 <= i < domain.subnets.Length reads domain.subnets =>
                                                                FromFailureDomain(domain.subnets[i]));
        assert copy.subnets[..] == Input().subnets;
      }
    }

    /**
     validateVMConfig. Only the scope's pointer to the validated copy changes among the objects that
     existed before the call: neither the stored spec nor the failure domain is touched. The error
     list and the copy are the ones the value-level functions give.
     */
    method ValidateVMConfig(cat: Catalogue) returns (errs: seq<FieldError>)
      modifies this`validated
      ensures validated != null && fresh(validated.Graph())
      ensures errs == Errors(cat, old(Input()))
      ensures validated.View() == Resolved(cat, old(Input()))
      ensures providerSpec.View() == old(providerSpec.View())
      ensures DomainView(failureDomain) == old(DomainView(failureDomain))
    {
      hide Errors, Resolved, Overridden, DisksView;
      ghost var stored := providerSpec.Graph();
      var v := CopyAndOverride();
      validated := v;
      assert stored !! v.Graph();
      errs := v.ValidateInPlace(cat);
    }
  }
}

/**
 The Nutanix provider spec as values. The string-typed tags of the API are enumerations with an
 Other case for any text the API does not define; pointers that are never written through are options.
 Sizes are byte counts (resource.Quantity.Value()).
 */
module ProviderSpec {
  import opened Basics

  datatype IdKind = KindUnset | KindUuid | KindName | KindOther(text: string)

  datatype Identifier = Identifier(kind: IdKind, uuid: Option<string>, name: Option<string>)

  datatype DeviceType = DeviceDisk | DeviceCdRom | DeviceOther(text: string)
  datatype Adapter = AdapterScsi | AdapterIde | AdapterPci | AdapterSata | AdapterSpapr | AdapterOther(text: string)
  datatype DeviceProperties = DeviceProperties(deviceType: DeviceType, adapter: Adapter, index: int)

  datatype DiskMode = ModeStandard | ModeFlash | ModeOther(text: string)
  datatype ContainerRef = ContainerRef(kind: IdKind, uuid: Option<string>)
  datatype StorageConfig = StorageConfig(mode: DiskMode, container: Option<ContainerRef>)

  datatype DataDisk = DataDisk(
    sizeBytes: int,
    device: Option<DeviceProperties>,
    storage: Option<StorageConfig>,
    source: Option<Identifier>)

  datatype GpuKind = GpuByName | GpuByDeviceId | GpuOther(text: string)
  datatype Gpu = Gpu(kind: GpuKind, deviceId: Option<int>, name: Option<string>)

  datatype Category = Category(key: string, value: string)

  datatype BootType = BootUnset | BootLegacy | BootUefi | BootSecure | BootOther(text: string)

  datatype Spec = Spec(
    cluster: Identifier,
    image: Identifier,
    subnets: seq<Identifier>,
    vcpusPerSocket: int,
    vcpuSockets: int,
    memoryBytes: int,
    systemDiskBytes: int,
    boot: BootType,
    project: Identifier,
    categories: seq<Category>,
    gpus: seq<Gpu>,
    dataDisks: seq<DataDisk>)

  datatype FailureDomain = FailureDomain(name: string, cluster: Identifier, subnets: seq<Identifier>)

  /** A pointer to a non-empty string. */
  predicate Present(s: Option<string>) { s.Some? && s.value != "" }

  const MIB := 1024 * 1024

  /** Go's integer division, which truncates toward zero. */
  function TruncDiv(a: int, b: int): (q: int)
    requires b > 0
    ensures a >= 0 ==> b * q <= a < b * (q + 1)
    ensures a <= 0 ==> b * (q - 1) < a <= b * q
  {
    if a >= 0 then a / b else -((-a) / b)
  }

  /** GetMibValueOfQuantity. */
  function Mib(bytes: int): int { TruncDiv(bytes, MIB) }

  /** r is id in the other API group: the two kinds that exist in both are kept, any other becomes unset. */
  predicate Converted(id: Identifier, r: Identifier) {
    && r.uuid == id.uuid && r.name == id.name
    && (r.kind == KindUuid <==> id.kind == KindUuid)
    && (r.kind == KindName <==> id.kind == KindName)
    && (r.kind == KindUuid || r.kind == KindName || r.kind == KindUnset)
  }

  /** The identifier conversion between the two API groups. */
  function FromFailureDomain(id: Identifier): (r: Identifier)
    ensures Converted(id, r)
  {
    match id.kind
    case KindUuid => id
    case KindName => id
    case _ => id.(kind := KindUnset)
  }

  /** The provider spec as the validator sees it: the failure domain wins over Cluster and Subnets. */
  function Overridden(spec: Spec, fd: Option<FailureDomain>): (r: Spec)
    ensures fd.None? ==> r == spec
    ensures fd.Some? ==>
      && Converted(fd.value.cluster, r.cluster)
      && |r.subnets| == |fd.value.subnets|
      && (forall i :: 0 <= i < |r.subnets| ==> Converted(fd.value.subnets[i], r.subnets[i]))
      && r.(cluster := spec.cluster, subnets := spec.subnets) == spec
  {
    match fd
    case None => spec
    case Some(d) =>
      spec.(cluster := FromFailureDomain(d.cluster),
            subnets := seq(|d.subnets|, i requires 0 <= i < |d.subnets| => FromFailureDomain(d.subnets[i])))
  }
}

/** The records the baremetal driver, its power manager and its provisioning
    backend exchange: node and interface rows of the baremetal store, the
    instance being placed, and the network and block-device descriptions
    handed down by the compute manager. */
module BaremetalTypes {
  import opened Wrappers

  /** The node states of the baremetal state module: NULL is Python's None. */
  datatype TaskState = Null | Building | Deploying | Active | Deleted | Error

  /** A row of the baremetal node table (the columns the core reads). */
  datatype Node = Node(
    cpus: int,
    memoryMb: int,
    localGb: int,
    pmAddress: Option<string>,
    serviceHost: string,
    terminalPort: Option<int>,
    registrationStatus: string,
    instanceUuid: Option<string>,
    taskState: TaskState)

  /** A row of the baremetal interface table. */
  datatype Interface = Interface(
    id: int,
    nodeId: int,
    address: string,
    datapathId: Option<string>,
    portNo: Option<int>,
    vifUuid: Option<string>)

  /** One entry of an instance's `system_metadata` list. */
  datatype MetadataItem = MetadataItem(key: string, value: string)

  /** The instance fields the core reads. */
  datatype Instance = Instance(
    uuid: string,
    name: string,
    systemMetadata: seq<MetadataItem>,
    memoryMb: int,
    vcpus: int,
    rootGb: Option<int>,
    ephemeralGb: Option<int>,
    kernelId: Option<string>,
    keyData: Option<string>,
    metadata: seq<MetadataItem>,
    imageRef: string)

  /** One element of `ips` or `ip6s` in a network mapping. */
  datatype IpEntry = IpEntry(ip: string, netmask: string)

  /** The `mapping` half of a `(network, mapping)` pair of `network_info`. */
  datatype Mapping = Mapping(
    ips: seq<IpEntry>,
    ip6s: seq<IpEntry>,
    gateway: Option<string>,
    gatewayV6: Option<string>,
    broadcast: Option<string>,
    dns: seq<string>,
    mac: string)

  /** A `(network, mapping)` pair of `network_info`; the network half is
      opaque to the core. */
  datatype NetworkEntry = NetworkEntry(network: string, mapping: Mapping)

  /** An entry of the block-device mapping. */
  datatype Volume = Volume(connectionInfo: string, mountDevice: string)

  /** The resources dictionary reported per node and updated by the
      resource tracker. */
  datatype ResourceReport = ResourceReport(
    vcpus: int,
    memoryMb: int,
    localGb: int,
    vcpusUsed: int,
    memoryMbUsed: int,
    localGbUsed: int)

  // Python truthiness of the optional columns the code tests with `if x:`.

  predicate TruthyString(s: Option<string>)
  {
    s.Some? && s.value != ""
  }

  predicate TruthyInt(i: Option<int>)
  {
    i.Some? && i.value != 0
  }

  /** Python's `x or 0` idiom as `none_to_0` writes it. */
  function NoneToZero(x: Option<int>): int
  {
    if x.None? then 0 else x.value
  }
}

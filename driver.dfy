/** The bare-metal compute driver: placing an instance on a physical node
    (`spawn`), releasing it (`destroy`), power-cycling it (`reboot`), and the
    node reports the scheduler and the compute manager read.

    The baremetal store is held inside the driver as its node table (a map
    from node id to row) and its interface table (in listing order). Every
    call into a collaborator the driver cannot see (provisioning backend,
    VIF, firewall and volume drivers, power manager) is one `Step`; which of
    them raise, and the states the power manager returns, come from an
    `Env`. Each operation appends what it did, store writes included, to a
    trace, and an exception from a collaborator ends the operation at once. */
module Driver {
  import opened Wrappers
  import Strings
  import Decimal
  import opened BaremetalTypes
  import opened BaremetalStore

  /** The calls into collaborators, one tag per call site; `k` is the
      position in the network list or in the block-device mapping. */
  datatype Step =
    | DefineVars
    | ListInterfaces
    | PlugVif(k: nat)
    | SetupBasicFiltering
    | PrepareInstanceFilter
    | CreateImage
    | ActivateBootloader
    | GetPowerManager
    | PowerActivate
    | BackendActivateNode
    | ApplyInstanceFilter
    | AttachVolume(k: nat)
    | StartConsole
    | BackendDeactivateNode
    | StopConsole
    | PowerDeactivate
    | DetachVolume(k: nat)
    | DeactivateBootloader
    | DestroyImages
    | UnfilterInstance
    | UnplugVif(k: nat)
    | PowerReboot
    | PowerIsOn

  /** What an operation did, in order: a collaborator call, a
      `bm_node_update` of the two state columns, or a
      `bm_interface_set_vif_uuid(id, None)`. */
  datatype Event =
    | Called(step: Step)
    | NodeUpdated(id: int, instanceUuid: Option<string>, state: TaskState)
    | VifCleared(interfaceId: int)

  /** The collaborators' behaviour during one operation: the calls that
      raise, and the states the power manager's `activate_node`,
      `deactivate_node` and `reboot_node` return. */
  datatype Env = Env(
    raising: set<Step>,
    powerOnState: TaskState,
    powerOffState: TaskState,
    rebootState: TaskState)

  /** The store as the driver sees it, with the trace of what was done. */
  datatype World = World(nodes: map<int, Node>, interfaces: seq<Interface>, trace: seq<Event>)

  /** A partial run: the world so far and the call that raised, if any. */
  datatype Run = Run(world: World, raised: Option<Step>)

  datatype DriverError =
    | NodeNotSpecified
    | InvalidNodeName(name: string)
    | NodeNotFound(name: string)
    | NodeInUse(name: string, instanceUuid: string)
    | InstanceNotFound(instanceId: Option<string>)
    | NoSuitableNode(instanceUuid: string)
    | NodeMissing
    | Raised(step: Step)

  /** The end of an operation: the new world and what the caller sees. */
  datatype Outcome<T> = Outcome(world: World, result: Result<T, DriverError>)

  // ---------------------------------------------------------------------
  // Store writes

  /** `bm_node_update(id, {'instance_uuid': u, 'task_state': s})`. */
  function UpdateState(nodes: map<int, Node>, id: int, u: Option<string>, s: TaskState): (r: map<int, Node>)
    ensures r.Keys == nodes.Keys
    ensures forall k :: k in nodes && k != id ==> r[k] == nodes[k]
    ensures id in nodes ==> r[id] == nodes[id].(instanceUuid := u, taskState := s)
  {
    if id in nodes then nodes[id := nodes[id].(instanceUuid := u, taskState := s)] else nodes
  }

  /** `bm_interface_set_vif_uuid(id, None)`: every row with that id loses
      its VIF binding. */
  function ClearVif(ifaces: seq<Interface>, id: int): seq<Interface>
  {
    seq(|ifaces|, i requires 0 <= i < |ifaces| =>
      if ifaces[i].id == id then ifaces[i].(vifUuid := None) else ifaces[i])
  }

  /** `bm_interface_get_all_by_bm_node_id`: the interfaces of one node, in
      listing order. */
  function InterfacesOf(ifaces: seq<Interface>, nodeId: int): (r: seq<Interface>)
    ensures forall x :: x in r <==> x in ifaces && x.nodeId == nodeId
  {
    if ifaces == [] then []
    else
      var last := ifaces[|ifaces| - 1];
      InterfacesOf(ifaces[..|ifaces| - 1], nodeId) + (if last.nodeId == nodeId then [last] else [])
  }

  // ---------------------------------------------------------------------
  // Running a sequence of events

  /** One event of an operation. Once a call has raised nothing more
      happens; a store write always succeeds. */
  function Emit(r: Run, e: Event, env: Env): Run
  {
    if r.raised.Some? then r
    else
      var w := r.world.(trace := r.world.trace + [e]);
      match e
      case Called(s) => Run(w, if s in env.raising then Some(s) else None)
      case NodeUpdated(id, u, s) => Run(w.(nodes := UpdateState(w.nodes, id, u, s)), None)
      case VifCleared(id) => Run(w.(interfaces := ClearVif(w.interfaces, id)), None)
  }

  /** The events of a loop body, run in order until one raises. */
  function EmitAll(r: Run, plan: seq<Event>, env: Env): Run
    decreases |plan|
  {
    if r.raised.Some? || plan == [] then r else EmitAll(Emit(r, plan[0], env), plan[1..], env)
  }

  lemma {:induction false} EmitAllSnoc(r: Run, plan: seq<Event>, e: Event, env: Env)
    ensures EmitAll(r, plan + [e], env) == Emit(EmitAll(r, plan, env), e, env)
    decreases |plan|
  {
    if r.raised.None? && plan != [] {
      assert (plan + [e])[1..] == plan[1..] + [e];
      EmitAllSnoc(Emit(r, plan[0], env), plan[1..], e, env);
    }
  }

  /** Once a prefix of a loop raises, the rest of the loop does nothing. */
  lemma {:induction false} EmitAllRaisedPrefix(r: Run, plan: seq<Event>, j: nat, env: Env)
    requires j <= |plan|
    requires EmitAll(r, plan[..j], env).raised.Some?
    ensures EmitAll(r, plan, env) == EmitAll(r, plan[..j], env)
    decreases j
  {
    if r.raised.None? && plan != [] {
      assert j > 0;
      assert plan[..j][1..] == plan[1..][..j - 1];
      EmitAllRaisedPrefix(Emit(r, plan[0], env), plan[1..], j - 1, env);
    }
  }

  function Finish(r: Run): Outcome<()>
  {
    Outcome(r.world, if r.raised.Some? then Failure(Raised(r.raised.value)) else Success(()))
  }

  /** The `for` loops over the network list and the block-device mapping. */
  function PlugCalls(n: nat): seq<Event>
  {
    seq(n, k requires 0 <= k < n => Called(PlugVif(k)))
  }

  function UnplugCalls(n: nat): seq<Event>
  {
    seq(n, k requires 0 <= k < n => Called(UnplugVif(k)))
  }

  function AttachCalls(n: nat): seq<Event>
  {
    seq(n, k requires 0 <= k < n => Called(AttachVolume(k)))
  }

  function DetachCalls(n: nat): seq<Event>
  {
    seq(n, k requires 0 <= k < n => Called(DetachVolume(k)))
  }

  /** The clearing loop of `_plug_vifs`: one clear per listed interface
      that has a VIF binding, in listing order. */
  function ClearPlan(pifs: seq<Interface>): (p: seq<Event>)
    ensures forall e :: e in p ==> e.VifCleared?
  {
    if pifs == [] then []
    else
      var last := pifs[|pifs| - 1];
      ClearPlan(pifs[..|pifs| - 1]) + (if TruthyString(last.vifUuid) then [VifCleared(last.id)] else [])
  }

  /** One more interface adds its clear, if its vif is set. */
  lemma ClearPlanSnoc(pifs: seq<Interface>, i: int)
    requires 0 <= i < |pifs|
    ensures ClearPlan(pifs[..i + 1]) ==
      ClearPlan(pifs[..i]) + (if TruthyString(pifs[i].vifUuid) then [VifCleared(pifs[i].id)] else [])
    ensures !TruthyString(pifs[i].vifUuid) ==> ClearPlan(pifs[..i + 1]) == ClearPlan(pifs[..i])
  {
    assert pifs[..i + 1][..i] == pifs[..i];
  }

  // ---------------------------------------------------------------------
  // Store queries of the driver

  /** `_get_baremetal_node_by_instance_uuid`: the node the store returns for
      the uuid, but only when the uuid is truthy and that node belongs to
      this host. */
  function LookupByInstance(nodes: map<int, Node>, uuid: Option<string>, host: string): (r: Option<int>)
    ensures r.Some? ==> (TruthyString(uuid) && r.value in nodes
      && nodes[r.value].instanceUuid == uuid && nodes[r.value].serviceHost == host)
    ensures r.None? <==>
      || !TruthyString(uuid)
      || (forall id :: id in nodes ==> nodes[id].instanceUuid != uuid)
      || nodes[NodeByInstanceUuid(nodes, uuid.value).value].serviceHost != host
  {
    if !TruthyString(uuid) then None
    else
      var found := NodeByInstanceUuid(nodes, uuid.value);
      if found.None? then None
      else if nodes[found.value].serviceHost != host then None
      else found
  }

  /** The `node` entry of the instance's system metadata: the first entry
      with that key. */
  function FirstNodeName(md: seq<MetadataItem>): (r: Option<string>)
    ensures r.None? <==> forall i :: 0 <= i < |md| ==> md[i].key != "node"
    ensures r.Some? ==> exists i :: (0 <= i < |md| && md[i].key == "node" && md[i].value == r.value
      && forall j :: 0 <= j < i ==> md[j].key != "node")
  {
    if md == [] then None
    else if md[0].key == "node" then Some(md[0].value)
    else
      var r := FirstNodeName(md[1..]);
      assert forall i :: 1 <= i < |md| ==> md[i] == md[1..][i - 1];
      r
  }

  /** The checks `spawn` makes before writing anything: the node named in
      the metadata must be given, a decimal id, present in the store, and
      not bound to any instance. */
  function ResolveNode(nodes: map<int, Node>, inst: Instance): (r: Result<int, DriverError>)
    ensures r == Failure(NodeNotSpecified) <==> !TruthyString(FirstNodeName(inst.systemMetadata))
    ensures r.Failure? && r.error.InvalidNodeName? <==>
      TruthyString(FirstNodeName(inst.systemMetadata)) && Decimal.ParseInt(FirstNodeName(inst.systemMetadata).value).None?
    ensures r.Success? ==> (FirstNodeName(inst.systemMetadata).Some?
      && Decimal.ParseInt(FirstNodeName(inst.systemMetadata).value) == Some(r.value)
      && r.value in nodes && !TruthyString(nodes[r.value].instanceUuid))
    ensures r.Failure? && r.error.NodeInUse? ==> (r.error.instanceUuid == inst.uuid
      && var id := Decimal.ParseInt(FirstNodeName(inst.systemMetadata).value);
      id.Some? && id.value in nodes && TruthyString(nodes[id.value].instanceUuid))
    ensures r.Failure? ==> (r.error.NodeNotSpecified? || r.error.InvalidNodeName?
      || r.error.NodeNotFound? || r.error.NodeInUse?)
    ensures var name := FirstNodeName(inst.systemMetadata);
      TruthyString(name) && Decimal.ParseInt(name.value).Some? ==>
        var id := Decimal.ParseInt(name.value).value;
        && (id !in nodes <==> r == Failure(NodeNotFound(name.value)))
        && (id in nodes && TruthyString(nodes[id].instanceUuid) <==> r == Failure(NodeInUse(name.value, inst.uuid)))
        && (id in nodes && !TruthyString(nodes[id].instanceUuid) <==> r == Success(id))
  {
    var name := FirstNodeName(inst.systemMetadata);
    if !TruthyString(name) then Failure(NodeNotSpecified)
    else
      match Decimal.ParseInt(name.value)
      case None => Failure(InvalidNodeName(name.value))
      case Some(id) =>
        if id !in nodes then Failure(NodeNotFound(name.value))
        else if TruthyString(nodes[id].instanceUuid) then Failure(NodeInUse(name.value, inst.uuid))
        else Success(id)
  }

  // ---------------------------------------------------------------------
  // The operations as functions of the world

  /** `_plug_vifs`: clear the stale VIF bindings of the node this instance
      is found on (if any), then plug every network. */
  function PlugRun(r: Run, host: string, uuid: string, nets: seq<NetworkEntry>, env: Env): Run
  {
    var found := LookupByInstance(r.world.nodes, Some(uuid), host);
    var r1 :=
      if found.Some? then
        EmitAll(Emit(r, Called(ListInterfaces), env), ClearPlan(InterfacesOf(r.world.interfaces, found.value)), env)
      else r;
    EmitAll(r1, PlugCalls(|nets|), env)
  }

  /** `spawn` up to the boot loader, once the node `id` has been resolved:
      bind the instance with BUILDING, then prepare the node. */
  function SpawnPrepare(w: World, host: string, id: int, inst: Instance, nets: seq<NetworkEntry>, env: Env): Run
  {
    var r0 := Emit(Run(w, None), NodeUpdated(id, Some(inst.uuid), Building), env);
    var r1 := Emit(r0, Called(DefineVars), env);
    var r2 := PlugRun(r1, host, inst.uuid, nets, env);
    var r3 := Emit(r2, Called(SetupBasicFiltering), env);
    var r4 := Emit(r3, Called(PrepareInstanceFilter), env);
    var r5 := Emit(r4, Called(CreateImage), env);
    Emit(r5, Called(ActivateBootloader), env)
  }

  /** The power-on of `spawn` and the write of its result. */
  function SpawnPower(r: Run, id: int, inst: Instance, env: Env): Run
  {
    var r0 := Emit(r, Called(GetPowerManager), env);
    var r1 := Emit(r0, Called(PowerActivate), env);
    Emit(r1, NodeUpdated(id, Some(inst.uuid), env.powerOnState), env)
  }

  /** The rest of `spawn`: activation, volumes and the console. */
  function SpawnComplete(r: Run, terminalPort: Option<int>, vols: seq<Volume>, env: Env): Run
  {
    var r0 := Emit(r, Called(BackendActivateNode), env);
    var r1 := Emit(r0, Called(ApplyInstanceFilter), env);
    var r2 := EmitAll(r1, AttachCalls(|vols|), env);
    if TruthyInt(terminalPort) then Emit(r2, Called(StartConsole), env) else r2
  }

  /** `spawn` once the node `id` has been resolved. */
  function SpawnRun(w: World, host: string, id: int, inst: Instance, nets: seq<NetworkEntry>,
                    vols: seq<Volume>, env: Env): Run
    requires id in w.nodes
  {
    SpawnComplete(SpawnPower(SpawnPrepare(w, host, id, inst, nets, env), id, inst, env),
                  w.nodes[id].terminalPort, vols, env)
  }

  function SpawnEffect(w: World, host: string, inst: Instance, nets: seq<NetworkEntry>,
                       vols: seq<Volume>, env: Env): Outcome<()>
  {
    match ResolveNode(w.nodes, inst)
    case Failure(e) => Outcome(w, Failure(e))
    case Success(id) => Finish(SpawnRun(w, host, id, inst, nets, vols, env))
  }

  /** `destroy` once the instance has been found on node `id`. */
  function DestroyRun(w: World, id: int, nets: seq<NetworkEntry>, vols: seq<Volume>, env: Env): Run
  {
    var r0 := Emit(Run(w, None), Called(DefineVars), env);
    var r1 := Emit(r0, Called(BackendDeactivateNode), env);
    var r2 := Emit(r1, Called(GetPowerManager), env);
    var r3 := Emit(r2, Called(StopConsole), env);
    var r4 := Emit(r3, Called(PowerDeactivate), env);
    var r5 := EmitAll(r4, DetachCalls(|vols|), env);
    var r6 := Emit(r5, Called(DeactivateBootloader), env);
    var r7 := Emit(r6, Called(DestroyImages), env);
    var r8 := Emit(r7, Called(UnfilterInstance), env);
    var r9 := EmitAll(r8, UnplugCalls(|nets|), env);
    Emit(r9, NodeUpdated(id, None, env.powerOffState), env)
  }

  function DestroyEffect(w: World, host: string, inst: Instance, nets: seq<NetworkEntry>,
                         vols: seq<Volume>, env: Env): Outcome<()>
  {
    match LookupByInstance(w.nodes, Some(inst.uuid), host)
    case None => Outcome(w, Success(()))
    case Some(id) => Finish(DestroyRun(w, id, nets, vols, env))
  }

  function RebootEffect(w: World, host: string, inst: Instance, env: Env): Outcome<()>
  {
    match LookupByInstance(w.nodes, Some(inst.uuid), host)
    case None => Outcome(w, Failure(InstanceNotFound(Some(inst.uuid))))
    case Some(id) =>
      var r0 := Emit(Run(w, None), Called(GetPowerManager), env);
      var r1 := Emit(r0, Called(PowerReboot), env);
      Finish(Emit(r1, NodeUpdated(id, Some(inst.uuid), env.rebootState), env))
  }

  // ---------------------------------------------------------------------
  // Reports and requests

  /** `_node_resources`: capacities are copied; usage is all or nothing. */
  function NodeResources(n: Node): (r: ResourceReport)
    ensures r.vcpus == n.cpus && r.memoryMb == n.memoryMb && r.localGb == n.localGb
    ensures var busy := n.registrationStatus != "done" || TruthyString(n.instanceUuid);
      && r.vcpusUsed == (if busy then n.cpus else 0)
      && r.memoryMbUsed == (if busy then n.memoryMb else 0)
      && r.localGbUsed == (if busy then n.localGb else 0)
  {
    if n.registrationStatus != "done" || TruthyString(n.instanceUuid) then
      ResourceReport(n.cpus, n.memoryMb, n.localGb, n.cpus, n.memoryMb, n.localGb)
    else
      ResourceReport(n.cpus, n.memoryMb, n.localGb, 0, 0, 0)
  }

  /** The two values of `power_state` that `get_info` reports. */
  datatype PowerState = Running | Shutdown

  datatype Info = Info(state: PowerState, maxMem: int, mem: int, numCpu: int, cpuTime: int)

  /** `get_info`: look the instance up, get its node's power manager and
      ask it `is_power_on`, whose answer is `powerOn`. Either of the two
      power manager calls may raise, as `env` says. */
  function GetInfo(nodes: map<int, Node>, host: string, uuid: Option<string>, env: Env, powerOn: bool): (r: Result<Info, DriverError>)
    ensures LookupByInstance(nodes, uuid, host).None? <==> r == Failure(InstanceNotFound(uuid))
    ensures LookupByInstance(nodes, uuid, host).Some? ==>
      && (GetPowerManager in env.raising ==> r == Failure(Raised(GetPowerManager)))
      && (GetPowerManager !in env.raising && PowerIsOn in env.raising <==> r == Failure(Raised(PowerIsOn)))
      && (r.Success? <==> GetPowerManager !in env.raising && PowerIsOn !in env.raising)
    ensures r.Success? ==> var n := nodes[LookupByInstance(nodes, uuid, host).value];
      && (r.value.state == Running <==> powerOn)
      && r.value.maxMem == n.memoryMb && r.value.mem == n.memoryMb
      && r.value.numCpu == n.cpus && r.value.cpuTime == 0
  {
    match LookupByInstance(nodes, uuid, host)
    case None => Failure(InstanceNotFound(uuid))
    case Some(id) =>
      if GetPowerManager in env.raising then Failure(Raised(GetPowerManager))
      else if PowerIsOn in env.raising then Failure(Raised(PowerIsOn))
      else
        var n := nodes[id];
        Success(Info(if powerOn then Running else Shutdown, n.memoryMb, n.memoryMb, n.cpus, 0))
  }

  datatype AvailableResource = AvailableResource(
    resources: ResourceReport,
    hypervisorType: string,
    hypervisorVersion: int,
    cpuInfo: string)

  /** `get_available_node_resource`: the report of the node named by its
      decimal id, with the hypervisor fields added. */
  function AvailableNodeResource(nodes: map<int, Node>, nodename: string): (r: Result<AvailableResource, DriverError>)
    ensures Decimal.ParseInt(nodename).None? ==> r == Failure(InvalidNodeName(nodename))
    ensures r.Success? <==> Decimal.ParseInt(nodename).Some? && Decimal.ParseInt(nodename).value in nodes
    ensures Decimal.ParseInt(nodename).Some? && Decimal.ParseInt(nodename).value !in nodes ==> r == Failure(NodeMissing)
    ensures r.Success? ==>
      && r.value.resources == NodeResources(nodes[Decimal.ParseInt(nodename).value])
      && r.value.hypervisorType == "baremetal" && r.value.hypervisorVersion == 1
      && r.value.cpuInfo == "baremetal cpu"
  {
    match Decimal.ParseInt(nodename)
    case None => Failure(InvalidNodeName(nodename))
    case Some(id) =>
      if id !in nodes then Failure(NodeMissing)
      else Success(AvailableResource(NodeResources(nodes[id]), "baremetal", 1, "baremetal cpu"))
  }

  /** `get_nodename_for_new_instance`: a free node of this host large enough
      for the instance, named by its decimal id. */
  function NodenameForNewInstance(nodes: map<int, Node>, host: string, inst: Instance): (r: Result<string, DriverError>)
    ensures var disk := NoneToZero(inst.rootGb) + NoneToZero(inst.ephemeralGb);
      var free := FindFree(nodes, host, inst.vcpus, inst.memoryMb, disk);
      && (r.Failure? <==> free.None?)
      && (r.Failure? ==> r.error == NoSuitableNode(inst.uuid))
      && (r.Success? ==> r.value == Decimal.IntToString(free.value) && Decimal.ParseInt(r.value) == free)
  {
    var disk := NoneToZero(inst.rootGb) + NoneToZero(inst.ephemeralGb);
    match FindFree(nodes, host, inst.vcpus, inst.memoryMb, disk)
    case None => Failure(NoSuitableNode(inst.uuid))
    case Some(id) =>
      Decimal.ParseIntToString(id);
      Success(Decimal.IntToString(id))
  }

  // ---------------------------------------------------------------------
  // Extra specs

  /** One `key:value` entry of `instance_type_extra_specs`: split at the
      first colon, both halves stripped. */
  function SpecEntry(pair: string): (kv: (string, string))
    requires ':' in pair
    ensures exists a, b :: pair == a + ":" + b && ':' !in a && kv == (Strings.Strip(a), Strings.Strip(b))
  {
    var k := Strings.IndexOf(pair, ':');
    assert pair == pair[..k] + ":" + pair[k + 1..];
    (Strings.Strip(pair[..k]), Strings.Strip(pair[k + 1..]))
  }

  /** The dictionary after the entries in `pairs` were stored, later ones
      overriding earlier ones. */
  function AddSpecs(specs: map<string, string>, pairs: seq<string>): map<string, string>
    requires forall i :: 0 <= i < |pairs| ==> ':' in pairs[i]
  {
    if pairs == [] then specs
    else
      var kv := SpecEntry(pairs[|pairs| - 1]);
      AddSpecs(specs, pairs[..|pairs| - 1])[kv.0 := kv.1]
  }

  /** The extra specs the driver advertises. */
  function ExtraSpecs(baremetalDriver: string, pairs: seq<string>): map<string, string>
    requires forall i :: 0 <= i < |pairs| ==> ':' in pairs[i]
  {
    var specs := AddSpecs(map["hypervisor_type" := "baremetal", "baremetal_driver" := baremetalDriver], pairs);
    if "cpu_arch" in specs then specs else specs["cpu_arch" := ""]
  }

  /** The loop of `__init__` that fills the extra specs. */
  method CollectExtraSpecs(baremetalDriver: string, pairs: seq<string>) returns (specs: map<string, string>)
    requires forall i :: 0 <= i < |pairs| ==> ':' in pairs[i]
    ensures specs == ExtraSpecs(baremetalDriver, pairs)
  {
    specs := map["hypervisor_type" := "baremetal", "baremetal_driver" := baremetalDriver];
    ghost var start := specs;
    var i := 0;
    while i < |pairs|
      invariant 0 <= i <= |pairs|
      invariant specs == AddSpecs(start, pairs[..i])
    {
      var kv := SpecEntry(pairs[i]);
      ghost var prefix := pairs[..i + 1];
      assert prefix[..i] == pairs[..i] && prefix[i] == pairs[i];
      assert AddSpecs(start, prefix) == AddSpecs(start, pairs[..i])[kv.0 := kv.1];
      specs := specs[kv.0 := kv.1];
      i := i + 1;
    }
    assert pairs[..i] == pairs;
    assert specs == AddSpecs(start, pairs);
    if "cpu_arch" !in specs {
      specs := specs["cpu_arch" := ""];
    }
  }

  // ---------------------------------------------------------------------
  // The driver object

  class BareMetalDriver {
    /** This compute host's name (`FLAGS.host`). */
    const host: string
    const extraSpecs: map<string, string>
    const supportedInstances: seq<(string, string, string)>

    var nodes: map<int, Node>
    var interfaces: seq<Interface>
    var trace: seq<Event>

    function Snapshot(): World
      reads this
    {
      World(nodes, interfaces, trace)
    }

    /** `__init__`: the extra specs are built from the configured entries. */
    constructor(host: string, baremetalDriver: string, pairs: seq<string>,
                nodes: map<int, Node>, interfaces: seq<Interface>)
      requires forall i :: 0 <= i < |pairs| ==> ':' in pairs[i]
      ensures this.host == host
      ensures extraSpecs == ExtraSpecs(baremetalDriver, pairs)
      ensures supportedInstances == [(extraSpecs["cpu_arch"], "baremetal", "baremetal")]
      ensures Snapshot() == World(nodes, interfaces, [])
    {
      var specs := CollectExtraSpecs(baremetalDriver, pairs);
      this.host := host;
      extraSpecs := specs;
      supportedInstances := [(specs["cpu_arch"], "baremetal", "baremetal")];
      this.nodes := nodes;
      this.interfaces := interfaces;
      trace := [];
    }

    /** A call into a collaborator. */
    method Invoke(s: Step, env: Env) returns (raised: Option<Step>)
      modifies this
      ensures Run(Snapshot(), raised) == Emit(Run(old(Snapshot()), None), Called(s), env)
    {
      trace := trace + [Called(s)];
      raised := if s in env.raising then Some(s) else None;
    }

    /** `_update_baremetal_state`: the instance's uuid (None without an
        instance) and the state are written to the node's row. */
    method UpdateBaremetalState(id: int, inst: Option<Instance>, state: TaskState)
      modifies this
      ensures var u := if inst.Some? then Some(inst.value.uuid) else None;
        nodes == UpdateState(old(nodes), id, u, state)
        && interfaces == old(interfaces) && trace == old(trace) + [NodeUpdated(id, u, state)]
    {
      var u := if inst.Some? then Some(inst.value.uuid) else None;
      if id in nodes {
        nodes := nodes[id := nodes[id].(instanceUuid := u, taskState := state)];
      }
      trace := trace + [NodeUpdated(id, u, state)];
    }

    /** `bm_interface_set_vif_uuid(id, None)`. */
    method ClearVifUuid(id: int)
      modifies this
      ensures nodes == old(nodes) && interfaces == ClearVif(old(interfaces), id)
      ensures trace == old(trace) + [VifCleared(id)]
    {
      interfaces := ClearVif(interfaces, id);
      trace := trace + [VifCleared(id)];
    }

    /** A `for` loop of collaborator calls, ended by the first that raises. */
    method InvokeAll(plan: seq<Event>, env: Env) returns (raised: Option<Step>)
      requires forall e :: e in plan ==> e.Called?
      modifies this
      ensures Run(Snapshot(), raised) == EmitAll(Run(old(Snapshot()), None), plan, env)
    {
      ghost var r0 := Run(Snapshot(), None);
      var i := 0;
      raised := None;
      while i < |plan|
        invariant 0 <= i <= |plan|
        invariant raised == None
        invariant Run(Snapshot(), None) == EmitAll(r0, plan[..i], env)
      {
        assert plan[i] in plan;
        raised := Invoke(plan[i].step, env);
        EmitAllSnoc(r0, plan[..i], plan[i], env);
        assert plan[..i + 1] == plan[..i] + [plan[i]];
        if raised.Some? {
          EmitAllRaisedPrefix(r0, plan, i + 1, env);
          return;
        }
        i := i + 1;
      }
      assert plan[..i] == plan;
    }

    /** The loop of `_plug_vifs` that clears the stale vif of each of the
        node's interfaces. */
    method ClearStaleVifs(pifs: seq<Interface>, env: Env)
      modifies this
      ensures Run(Snapshot(), None) == EmitAll(Run(old(Snapshot()), None), ClearPlan(pifs), env)
    {
      ghost var r0 := Run(Snapshot(), None);
      var i := 0;
      while i < |pifs|
        invariant 0 <= i <= |pifs|
        invariant Run(Snapshot(), None) == EmitAll(r0, ClearPlan(pifs[..i]), env)
      {
        ClearPlanSnoc(pifs, i);
        if TruthyString(pifs[i].vifUuid) {
          ClearVifUuid(pifs[i].id);
          EmitAllSnoc(r0, ClearPlan(pifs[..i]), VifCleared(pifs[i].id), env);
        }
        i := i + 1;
      }
      assert pifs[..i] == pifs;
    }

    method PlugVifs(inst: Instance, nets: seq<NetworkEntry>, env: Env) returns (raised: Option<Step>)
      modifies this
      ensures Run(Snapshot(), raised) == PlugRun(Run(old(Snapshot()), None), host, inst.uuid, nets, env)
    {
      ghost var r := Run(Snapshot(), None);
      var node := LookupByInstance(nodes, Some(inst.uuid), host);
      if node.Some? {
        raised := Invoke(ListInterfaces, env);
        if raised.Some? {
          return;
        }
        var pifs := InterfacesOf(interfaces, node.value);
        ClearStaleVifs(pifs, env);
      }
      raised := InvokeAll(PlugCalls(|nets|), env);
    }

    /** `spawn` from the BUILDING write up to the boot loader. */
    method SpawnPrepareSteps(id: int, inst: Instance, nets: seq<NetworkEntry>, env: Env) returns (raised: Option<Step>)
      modifies this
      ensures Run(Snapshot(), raised) == SpawnPrepare(old(Snapshot()), host, id, inst, nets, env)
    {
      UpdateBaremetalState(id, Some(inst), Building);
      raised := Invoke(DefineVars, env);
      if raised.Some? { return; }
      raised := PlugVifs(inst, nets, env);
      if raised.Some? { return; }
      raised := Invoke(SetupBasicFiltering, env);
      if raised.Some? { return; }
      raised := Invoke(PrepareInstanceFilter, env);
      if raised.Some? { return; }
      raised := Invoke(CreateImage, env);
      if raised.Some? { return; }
      raised := Invoke(ActivateBootloader, env);
    }

    /** The power-on of `spawn` and the write of its result. */
    method SpawnPowerSteps(id: int, inst: Instance, env: Env) returns (raised: Option<Step>)
      modifies this
      ensures Run(Snapshot(), raised) == SpawnPower(Run(old(Snapshot()), None), id, inst, env)
    {
      raised := Invoke(GetPowerManager, env);
      if raised.Some? { return; }
      raised := Invoke(PowerActivate, env);
      if raised.Some? { return; }
      UpdateBaremetalState(id, Some(inst), env.powerOnState);
    }

    /** The rest of `spawn`: activation, volumes and the console. */
    method SpawnCompleteSteps(terminalPort: Option<int>, vols: seq<Volume>, env: Env) returns (raised: Option<Step>)
      modifies this
      ensures Run(Snapshot(), raised) == SpawnComplete(Run(old(Snapshot()), None), terminalPort, vols, env)
    {
      raised := Invoke(BackendActivateNode, env);
      if raised.Some? { return; }
      raised := Invoke(ApplyInstanceFilter, env);
      if raised.Some? { return; }
      raised := InvokeAll(AttachCalls(|vols|), env);
      if raised.Some? { return; }
      if TruthyInt(terminalPort) {
        raised := Invoke(StartConsole, env);
      }
    }

    /** `spawn`. */
    method Spawn(inst: Instance, nets: seq<NetworkEntry>, vols: seq<Volume>, env: Env)
      returns (r: Result<(), DriverError>)
      modifies this
      ensures Outcome(Snapshot(), r) == SpawnEffect(old(Snapshot()), host, inst, nets, vols, env)
    {
      var resolved := ResolveNode(nodes, inst);
      if resolved.Failure? {
        return Failure(resolved.error);
      }
      var id := resolved.value;
      var terminalPort := nodes[id].terminalPort;
      var raised := SpawnPrepareSteps(id, inst, nets, env);
      if raised.Some? { return Failure(Raised(raised.value)); }
      raised := SpawnPowerSteps(id, inst, env);
      if raised.Some? { return Failure(Raised(raised.value)); }
      raised := SpawnCompleteSteps(terminalPort, vols, env);
      if raised.Some? { return Failure(Raised(raised.value)); }
      r := Success(());
    }

    /** `destroy`. */
    method Destroy(inst: Instance, nets: seq<NetworkEntry>, vols: seq<Volume>, env: Env)
      returns (r: Result<(), DriverError>)
      modifies this
      ensures Outcome(Snapshot(), r) == DestroyEffect(old(Snapshot()), host, inst, nets, vols, env)
    {
      var node := LookupByInstance(nodes, Some(inst.uuid), host);
      if node.None? {
        return Success(());
      }
      var raised := Invoke(DefineVars, env);
      if raised.Some? { return Failure(Raised(raised.value)); }
      raised := Invoke(BackendDeactivateNode, env);
      if raised.Some? { return Failure(Raised(raised.value)); }
      raised := Invoke(GetPowerManager, env);
      if raised.Some? { return Failure(Raised(raised.value)); }
      raised := Invoke(StopConsole, env);
      if raised.Some? { return Failure(Raised(raised.value)); }
      raised := Invoke(PowerDeactivate, env);
      if raised.Some? { return Failure(Raised(raised.value)); }
      raised := InvokeAll(DetachCalls(|vols|), env);
      if raised.Some? { return Failure(Raised(raised.value)); }
      raised := Invoke(DeactivateBootloader, env);
      if raised.Some? { return Failure(Raised(raised.value)); }
      raised := Invoke(DestroyImages, env);
      if raised.Some? { return Failure(Raised(raised.value)); }
      raised := Invoke(UnfilterInstance, env);
      if raised.Some? { return Failure(Raised(raised.value)); }
      raised := InvokeAll(UnplugCalls(|nets|), env);
      if raised.Some? { return Failure(Raised(raised.value)); }
      UpdateBaremetalState(node.value, None, env.powerOffState);
      r := Success(());
    }

    /** `reboot`. */
    method Reboot(inst: Instance, env: Env) returns (r: Result<(), DriverError>)
      modifies this
      ensures Outcome(Snapshot(), r) == RebootEffect(old(Snapshot()), host, inst, env)
    {
      var node := LookupByInstance(nodes, Some(inst.uuid), host);
      if node.None? {
        return Failure(InstanceNotFound(Some(inst.uuid)));
      }
      var raised := Invoke(GetPowerManager, env);
      if raised.Some? { return Failure(Raised(raised.value)); }
      raised := Invoke(PowerReboot, env);
      if raised.Some? { return Failure(Raised(raised.value)); }
      UpdateBaremetalState(node.value, Some(inst), env.rebootState);
      r := Success(());
    }
  }
}

# Bare-metal provisioning in nova, modelled in Dafny

This project models the bare-metal virt driver of OpenStack nova and the
admin API next to it. An instance lives on a whole physical node:

- the scheduler asks the driver for a free node;
- `spawn` claims the node in the baremetal store, prepares it and powers it on;
- `destroy` tears it down and releases the claim;
- `reboot` power-cycles it.

The Tilera power manager drives a PDU with off/on commands and checks
liveness with a ping probe, retrying up to a configured count. The resource
tracker charges a node's whole memory and disk to any instance placed on it.
The Tilera provisioning backend computes the per-instance variables, the
network description injected into the image, and the file names of the
bootloader steps. The admin API lists, shows and creates nodes and adds or
removes their interfaces.

Modules, one concept each:

- `Wrappers`: `Option` and `Result`.
- `Strings`, `Decimal`: the Python built-ins the code relies on:
  - `str.find`, byte-string `strip`, `split`/`join` and `os.path.join`;
  - `str(int)` and `int(str)`.
- `BaremetalTypes`, `BaremetalStore`: the node, interface and instance
  records, and the store queries the driver makes.
- `Driver`: the class `BareMetalDriver`, which holds the node table, the
  interface table and a trace of every collaborator call and store write.
  - `spawn`, `destroy`, `reboot` and `_plug_vifs` are methods.
  - Each method is proved equal to a function on the store (`SpawnEffect`,
    `DestroyEffect`, `RebootEffect`, `PlugRun`).
  - `DriverProperties` proves what those functions promise.
- `TileraPdu`: the class `Pdu`, whose methods issue commands and probes. Its
  `_power_on` loop is proved against the function `PowerOnSpec`.
- `ResourceTracker`: the `resources` dictionary as a class updated in place.
- `Tilera`: `define_vars`, the `nets` loop and the `net` text of
  `_inject_to_image`, and the TFTP file names.
- `BaremetalNodes`: the projections `_node_dict` and `_interface_dict`, and
  the class `AdminDb` on which `index`, `show`, `create` and `action` (with
  `_add_interface` and `_remove_interface`) act.

Collaborators the code calls but does not contain are parameters:

- `Env` says which calls raise and which states the power manager returns.
- `Hardware` says which PDU commands raise and what each ping probe prints.
- The network template is a function argument.

Some behaviour of the code is worth stating plainly, because a reader
might expect otherwise; the model keeps it as written:

- `spawn` refuses a node whose `instance_uuid` is set, even when it is set
  to the instance being spawned (nova/virt/baremetal/driver.py:197-198).
- The claim is a plain read of the node followed by an unconditional write
  of BUILDING; nothing makes the two atomic
  (nova/virt/baremetal/driver.py:194-201).
- `apply_instance_to_resources` with a sign of zero or less changes
  nothing: usage is only ever added to, never subtracted
  (nova/virt/baremetal/resource_trakcer.py:31-33).
- `destroy` has no `try` around its steps: the first collaborator that
  raises ends it, so volumes are detached only when every earlier step went
  through (nova/virt/baremetal/driver.py:256-275).
- When power-on gives up, `spawn` writes the ERROR state with the instance
  still bound to the node (nova/virt/baremetal/driver.py:218-221).
- `spawn` never checks whether the instance is already bound to another
  node, so a second `spawn` of the same instance naming another free node
  binds it to both (nova/virt/baremetal/driver.py:184-201); this is why
  DriverProperties.SpawnKeepsExclusive assumes the instance is unbound.

## Model

| member | source | states |
|---|---|---|
| Driver.UpdateState | nova/virt/baremetal/driver.py:111-118 | a state write changes only `instance_uuid` and `task_state` of the one node; every other node and column is kept |
| Driver.BareMetalDriver.UpdateBaremetalState | nova/virt/baremetal/driver.py:111-118 | the node table becomes `UpdateState` of the old one, with the instance's uuid or None; the write is appended to the trace |
| Driver.LookupByInstance | nova/virt/baremetal/driver.py:99-108 | returns a node only for a truthy uuid bound to a node of this host; None exactly when the uuid is empty, unknown, or bound to a node of another host |
| BaremetalStore.NodeByInstanceUuid | nova/virt/baremetal/driver.py:103 | the node the store returns for a uuid is bound to it (the lowest such id), and None means no node is bound to it |
| Driver.FirstNodeName | nova/virt/baremetal/driver.py:186-190 | None exactly when no metadata entry has key `node`; otherwise the value of the first such entry |
| Driver.ResolveNode | nova/virt/baremetal/driver.py:186-198 | NodeNotSpecified exactly when the name is missing or empty; InvalidNodeName exactly when `int()` rejects it; for a name that parses to an id: NodeNotFound iff no such node, NodeInUse iff the node is bound to anyone, success with that id iff it is present and unbound |
| Driver.BareMetalDriver.Spawn | nova/virt/baremetal/driver.py:184-234 | the store, the trace and the result are those of `SpawnEffect`: checks, BUILDING claim, preparation, power-on, power-on state write, activation, volumes, console |
| Driver.BareMetalDriver.SpawnPrepareSteps | nova/virt/baremetal/driver.py:200-216 | claim with BUILDING, then `define_vars`, `_plug_vifs`, filtering, image and bootloader, stopping at the first call that raises |
| Driver.BareMetalDriver.SpawnPowerSteps | nova/virt/baremetal/driver.py:218-221 | get the power manager, power on, and write the returned state with the instance still bound |
| Driver.BareMetalDriver.SpawnCompleteSteps | nova/virt/baremetal/driver.py:223-234 | backend activation, instance filter, one attach per volume, and the console only for a truthy terminal port |
| Driver.BareMetalDriver.Destroy | nova/virt/baremetal/driver.py:248-287 | the store, the trace and the result are those of `DestroyEffect`: nothing when no node of this host holds the instance, else the teardown sequence and a final write releasing the node |
| Driver.BareMetalDriver.Reboot | nova/virt/baremetal/driver.py:236-246 | InstanceNotFound when no node holds the instance; otherwise reboot through the power manager and write its state, keeping the binding |
| Driver.BareMetalDriver.PlugVifs | nova/virt/baremetal/driver.py:401-411 | equals `PlugRun`: for this host's node of the instance, list its interfaces and clear the stale vifs, then plug one vif per network entry |
| Driver.BareMetalDriver.ClearStaleVifs | nova/virt/baremetal/driver.py:407-409 | the loop clears, in order, the vif of each listed interface that has one |
| Driver.BareMetalDriver.Invoke | nova/virt/baremetal/driver.py:203-216 | one collaborator call is recorded and raises exactly when the environment says so |
| Driver.BareMetalDriver.InvokeAll | nova/virt/baremetal/driver.py:228-231 | a `for` loop of collaborator calls runs them in order up to the first that raises |
| Driver.BareMetalDriver.ClearVifUuid | nova/virt/baremetal/driver.py:409 | `bm_interface_set_vif_uuid(id, None)` clears that interface's vif and nothing else |
| Driver.InterfacesOf | nova/virt/baremetal/driver.py:406 | the interfaces listed for a node are exactly the rows belonging to it |
| Driver.ClearPlan | nova/virt/baremetal/driver.py:407-409 | the loop body only clears vifs |
| Driver.ClearPlanSnoc | nova/virt/baremetal/driver.py:407-409 | one more interface adds a clear exactly when its vif is truthy |
| Driver.EmitAllSnoc | nova/virt/baremetal/driver.py:228-231 | running a list of steps and then one more is running the extended list |
| Driver.EmitAllRaisedPrefix | nova/virt/baremetal/driver.py:228-231 | once a call in a loop raises, the rest of the loop does nothing |
| Driver.NodeResources | nova/virt/baremetal/driver.py:327-347 | capacities copied; each `*_used` is the whole capacity when the node is unregistered or bound, else 0 |
| Driver.GetInfo | nova/virt/baremetal/driver.py:301-314 | InstanceNotFound exactly when the lookup fails; otherwise the exception of `get_power_manager` or of `is_power_on` when either raises, and else RUNNING iff the power manager says on, memory and cpus from the node, cpu time 0 |
| Driver.AvailableNodeResource | nova/virt/baremetal/driver.py:357-367 | a name `int()` rejects is InvalidNodeName; an id with no node is NodeMissing (the bare `Exception()`); success exactly for the id of a present node, with its `_node_resources` report and the hypervisor fields |
| Driver.NodenameForNewInstance | nova/virt/baremetal/driver.py:429-443 | asks for root plus ephemeral disk with None as 0; NoSuitableNode exactly when no free node fits; otherwise the decimal name of the free node, which parses back to its id |
| BaremetalStore.FindFree | nova/virt/baremetal/driver.py:437-440 | None exactly when no node of this host is unclaimed, registered and large enough; otherwise the lowest such id |
| BaremetalStore.Least | nova/virt/baremetal/driver.py:437-440 | the least element of a non-empty id set |
| BaremetalStore.LeastExists | nova/virt/baremetal/driver.py:437-440 | every non-empty finite id set has a least element |
| Driver.SpecEntry | nova/virt/baremetal/driver.py:146-148 | the entry is some `a + ":" + b` with no colon in `a`, and the key and value are `a` and `b` stripped |
| Driver.CollectExtraSpecs | nova/virt/baremetal/driver.py:142-153 | the loop over `instance_type_extra_specs` yields `ExtraSpecs` |
| Driver.BareMetalDriver.constructor | nova/virt/baremetal/driver.py:128-157 | extra specs and supported instances as `__init__` computes them; empty trace |
| DriverProperties.AddSpecsKeeps | nova/virt/baremetal/driver.py:145-149 | a key no entry names keeps its earlier value, or stays absent |
| DriverProperties.AddSpecsLastWins | nova/virt/baremetal/driver.py:145-149 | the last entry naming a key decides its value |
| DriverProperties.ExtraSpecsDefaults | nova/virt/baremetal/driver.py:142-152 | `cpu_arch` is always present, `''` unless configured; `hypervisor_type` is `baremetal` unless overridden |
| DriverProperties.SpawnBindsNode | nova/virt/baremetal/driver.py:200-221 | a resolved spawn leaves the node bound to the instance with BUILDING or the power-on state, and with the power-on state when it returns normally |
| DriverProperties.SpawnWritesInOrder | nova/virt/baremetal/driver.py:200-221 | spawn's store writes are the BUILDING claim, then possibly the power-on state, and both when it returns normally |
| DriverProperties.SpawnTwiceInUse | nova/virt/baremetal/driver.py:197-198 | after a spawn claimed a node, any spawn naming it fails with NodeInUse and changes nothing |
| DriverProperties.SpawnKeepsExclusive | nova/virt/baremetal/driver.py:194-201 | for an instance bound to no node yet, spawn keeps every instance on at most one node |
| DriverProperties.SchedulerChoiceSpawns | nova/virt/baremetal/driver.py:429-443 | the name handed to the scheduler resolves in spawn to the free node's id |
| DriverProperties.ResolveNamed | nova/virt/baremetal/driver.py:191-198 | a decimal name of a present, unbound node resolves to it |
| DriverProperties.FreeNodeIsIdle | nova/virt/baremetal/driver.py:327-347 | the node handed out as free reports no usage |
| DriverProperties.DestroyReleases | nova/virt/baremetal/driver.py:248-287 | destroy is a no-op when no node holds the instance; a completed destroy releases the node with the power-off state; a failed one writes nothing |
| DriverProperties.DestroyTwiceNoop | nova/virt/baremetal/driver.py:250-254 | given every instance on at most one node, a second destroy after a completed one changes nothing |
| DriverProperties.DestroyKeepsExclusive | nova/virt/baremetal/driver.py:248-287 | destroy keeps every instance on at most one node |
| DriverProperties.RebootKeepsOwner | nova/virt/baremetal/driver.py:236-246 | reboot only changes the node's task state, keeping the instance bound |
| DriverProperties.PlugVifsClearsStale | nova/virt/baremetal/driver.py:404-409 | `_plug_vifs` clears exactly the vifs of this node's interfaces that had one; all other interfaces and all nodes are unchanged |
| DriverProperties.ClearPlanInterfaces | nova/virt/baremetal/driver.py:407-409 | the clearing loop turns off the vif of exactly the listed interfaces that had one |
| DriverProperties.ClearedIds | nova/virt/baremetal/driver.py:407-409 | the ids whose vif the loop clears |
| DriverProperties.PlugRunKeepsNodes | nova/virt/baremetal/driver.py:401-411 | `_plug_vifs` writes no node |
| DriverProperties.PlugRunListingRaises | nova/virt/baremetal/driver.py:404-411 | when the interface lookup raises, `_plug_vifs` ends with that exception, clearing and plugging nothing |
| DriverProperties.EmitAllCallsKeepStore | nova/virt/baremetal/driver.py:228-231 | a loop of collaborator calls changes no store table |
| DriverProperties.EmitAllCallsKeepWrites | nova/virt/baremetal/driver.py:272-275 | a loop of collaborator calls adds no node write |
| DriverProperties.WritesSnoc | nova/virt/baremetal/driver.py:115 | one more event adds a node write exactly when it is one |
| DriverProperties.EmitWrites | nova/virt/baremetal/driver.py:115 | an event adds a node write only when nothing raised before |
| DriverProperties.SpawnPrepareNodes | nova/virt/baremetal/driver.py:200-216 | preparation leaves the node table with the BUILDING claim only |
| DriverProperties.SpawnPrepareWrites | nova/virt/baremetal/driver.py:200-216 | preparation's only node write is the claim |
| DriverProperties.SpawnPowerNodes | nova/virt/baremetal/driver.py:218-221 | the power-on state is written exactly when the power manager answered |
| DriverProperties.SpawnPowerWrites | nova/virt/baremetal/driver.py:218-221 | that write is the power phase's only node write |
| DriverProperties.SpawnCompleteNodes | nova/virt/baremetal/driver.py:223-234 | the last phase writes no node and returns normally only if the earlier ones did |
| DriverProperties.SpawnCompleteWrites | nova/virt/baremetal/driver.py:223-234 | the last phase adds no node write |
| Decimal.NatToString | nova/virt/baremetal/driver.py:443 | `str(n)` is never empty |
| Decimal.NatToStringDigits | nova/virt/baremetal/driver.py:443 | `str(n)` is all digits with no leading zero |
| Decimal.NatToStringValue | nova/virt/baremetal/driver.py:443 | the digits of `str(n)` denote `n` |
| Decimal.IntToString | nova/virt/baremetal/driver.py:443 | `str(i)` is never empty |
| Decimal.ParseIntAccepts | nova/virt/baremetal/driver.py:193 | `int(s)` succeeds exactly when `s`, stripped, is an optional sign, whitespace only after a sign, and a non-empty run of digits |
| Decimal.ParseIntToString | nova/virt/baremetal/driver.py:193 | `int(str(i)) == i` |
| Decimal.IntToStringInjective | nova/virt/baremetal/driver.py:443 | different ids get different node names |
| Decimal.DigitChar | nova/virt/baremetal/driver.py:443 | a digit's character is a digit |
| Strings.IndexOf | nova/virt/baremetal/driver.py:146 | the first position of a character, or -1 exactly when it is absent |
| Strings.IndexOfAfter | nova/virt/baremetal/tilera_pdu.py:67 | the first colon of `a + ":" + b` is at `len(a)` when `a` has none |
| Strings.TrimLeftShape | nova/virt/baremetal/driver.py:147 | left stripping removes exactly the leading C `isspace` whitespace |
| Strings.TrimRightShape | nova/virt/baremetal/driver.py:148 | right stripping removes exactly the trailing whitespace |
| Strings.StripUnchanged | nova/virt/baremetal/driver.py:147-148 | a text without surrounding whitespace is its own strip |
| Strings.FindFromSpec | nova/virt/baremetal/tilera_pdu.py:89 | the search from a position finds the first occurrence, or -1 when there is none |
| Strings.FindSpec | nova/virt/baremetal/tilera_pdu.py:89 | `str.find` is -1 exactly when the pattern does not occur, else its first position |
| Strings.Split | nova/virt/baremetal/tilera.py:115 | splitting gives at least one piece |
| Strings.JoinSplit | nova/virt/baremetal/tilera.py:115 | joining the pieces of a split restores the text |
| Strings.SplitJoin | nova/virt/baremetal/tilera.py:115 | splitting a join of separator-free pieces restores them |
| Strings.PathJoinShape | nova/virt/baremetal/tilera.py:77-78 | `os.path.join(a, b)` ends with `b` and, for a relative `b`, starts with `a` and a separator |
| TileraPdu.CreateError | nova/virt/baremetal/tilera_pdu.py:72-78 | the constructor raises `PduError(-1, …)` exactly when the address or the node id is None, the address being checked first |
| TileraPdu.Pdu.constructor | nova/virt/baremetal/tilera_pdu.py:72-78 | a PDU keeps its address and node id, with nothing issued yet |
| TileraPdu.ErrorStringStatus | nova/virt/baremetal/tilera_pdu.py:66-67 | `str(PduError)` is the status, a colon and the message: the status is read back from before the first colon |
| TileraPdu.ProbeVerdicts | nova/virt/baremetal/tilera_pdu.py:140-146 | `_is_power_off` is the exact negation of `is_power_on`; an empty probe line means on, a line containing Unreachable means off |
| TileraPdu.Pdu.IsPowerOnProbe | nova/virt/baremetal/tilera_pdu.py:144-146 | one probe; on exactly when `Unreachable` is not found in its line |
| TileraPdu.Pdu.IsPowerOffProbe | nova/virt/baremetal/tilera_pdu.py:140-142 | one probe; off exactly when `Unreachable` is found |
| TileraPdu.Pdu.PowerMgr | nova/virt/baremetal/tilera_pdu.py:106-115 | one PDU command with the given mode, which may raise |
| TileraPdu.Pdu.PowerCycle | nova/virt/baremetal/tilera_pdu.py:119-120 | the OFF command, then the ON command; a raising OFF stops before ON |
| TileraPdu.Pdu.Round | nova/virt/baremetal/tilera_pdu.py:119-122 | one off/on cycle followed by a probe, unless a command raises |
| TileraPdu.Attempts | nova/virt/baremetal/tilera_pdu.py:118-126 | the number of cycles is `max(tile_power_retry, 1)` |
| TileraPdu.FirstOn | nova/virt/baremetal/tilera_pdu.py:122 | the first probe that answers on, or the bound when none does |
| TileraPdu.FirstBadCycle | nova/virt/baremetal/tilera_pdu.py:119-128 | the first cycle whose command raises, or the bound |
| TileraPdu.Cycles | nova/virt/baremetal/tilera_pdu.py:119-129 | each cycle is three events |
| TileraPdu.Pdu.PowerOn | nova/virt/baremetal/tilera_pdu.py:117-130 | result, events and counters are those of `PowerOnSpec` |
| TileraPdu.Pdu.Retry | nova/virt/baremetal/tilera_pdu.py:122-130 | the `while` loop after the first cycle yields the rest of `PowerOnSpec` |
| TileraPdu.PowerOnSucceedsAt | nova/virt/baremetal/tilera_pdu.py:117-130 | if the first on-probe is probe j, with j at most the attempt count, power-on returns ACTIVE after exactly j cycles |
| TileraPdu.PowerOnGivesUp | nova/virt/baremetal/tilera_pdu.py:117-130 | if every probe is off, power-on returns ERROR after exactly `max(retry, 1)` cycles and as many probes |
| TileraPdu.PowerOnCutShort | nova/virt/baremetal/tilera_pdu.py:119-128 | a raising PDU command ends power-on with the exception, after the commands before it |
| TileraPdu.PowerOnBounded | nova/virt/baremetal/tilera_pdu.py:117-130 | power-on never issues more than `max(retry, 1)` cycles, and its events are a prefix of that many cycles |
| TileraPdu.PowerOnActiveMeansOn | nova/virt/baremetal/tilera_pdu.py:122-130 | ACTIVE is returned only right after a probe that answered on, all earlier probes having answered off |
| TileraPdu.CyclesCounts | nova/virt/baremetal/tilera_pdu.py:119-129 | r cycles hold 2r commands and r probes |
| TileraPdu.RunCounts | nova/virt/baremetal/tilera_pdu.py:117-130 | a power-on's events hold as many commands and probes as its counters say |
| TileraPdu.CountsSnoc | nova/virt/baremetal/tilera_pdu.py:119-129 | one more event adds one to the count of its kind |
| TileraPdu.CyclesPrefix | nova/virt/baremetal/tilera_pdu.py:119-129 | fewer cycles are a prefix of more |
| TileraPdu.FirstOnIs | nova/virt/baremetal/tilera_pdu.py:122 | FirstOn is the first on-probe |
| TileraPdu.FirstBadCycleIs | nova/virt/baremetal/tilera_pdu.py:119-128 | FirstBadCycle is the first cycle that raises |
| TileraPdu.NoBadCycle | nova/virt/baremetal/tilera_pdu.py:119-128 | cycles whose commands go through do not raise |
| TileraPdu.Pdu.PowerOff | nova/virt/baremetal/tilera_pdu.py:132-138 | one OFF command; DELETED when it goes through, ERROR when it raises, and the exception is not passed on |
| TileraPdu.Pdu.ActivateNode | nova/virt/baremetal/tilera_pdu.py:93-95 | returns what `_power_on` returns |
| TileraPdu.Pdu.DeactivateNode | nova/virt/baremetal/tilera_pdu.py:102-104 | returns what `_power_off` returns |
| TileraPdu.Pdu.RebootNode | nova/virt/baremetal/tilera_pdu.py:97-100 | one OFF command, then a whole power-on whose result is returned, whatever the OFF gave |
| ResourceTracker.Applied | nova/virt/baremetal/resource_trakcer.py:31-33 | with a positive sign, memory and disk usage grow by the whole capacities; otherwise nothing changes; no other entry ever changes |
| ResourceTracker.ApplyInstanceToResources | nova/virt/baremetal/resource_trakcer.py:27-33 | the dictionary is updated in place to `Applied` of its old contents; the instance is not read |
| ResourceTracker.Resources.constructor | nova/virt/baremetal/resource_trakcer.py:27 | the dictionary holds the given report |
| ResourceTracker.Claims | nova/virt/baremetal/resource_trakcer.py:31 | there are no more claims than applications |
| ResourceTracker.ApplyAllCharges | nova/virt/baremetal/resource_trakcer.py:31-33 | after any mix of claims and releases, usage grew by one whole capacity per claim, and capacities and cpu figures are unchanged |
| ResourceTracker.ReleaseKeepsCharge | nova/virt/baremetal/resource_trakcer.py:31-33 | a release after a claim takes nothing back |
| ResourceTracker.ClaimMatchesBoundNode | nova/virt/baremetal/resource_trakcer.py:31-33 | claiming a free node charges the memory and disk `_node_resources` reports once the node is bound, but leaves `vcpus_used` at 0 |
| Tilera.DefineVars | nova/virt/baremetal/tilera.py:75-82 | the image root is the instance's name joined to the instances path; the TFTP root, network and block-device entries are passed on |
| Tilera.ImageRootsDistinct | nova/virt/baremetal/tilera.py:77-78 | instances with different relative names get different image roots |
| Tilera.BuildNets | nova/virt/baremetal/tilera.py:98-120 | IndexError exactly when some entry lacks an address (or, with IPv6, an IPv6 address); otherwise one description per entry, named eth0, eth1, … |
| Tilera.IfaceNamesDistinct | nova/virt/baremetal/tilera.py:109 | different positions get different interface names |
| Tilera.NetNamesFresh | nova/virt/baremetal/tilera.py:109-128 | the described interfaces have distinct names, none of them the boot interface's |
| Tilera.TargetPartition | nova/virt/baremetal/tilera.py:89-91 | partition "1" exactly when the instance has no kernel, else None |
| Tilera.InjectedKey | nova/virt/baremetal/tilera.py:93-96 | the key is injected exactly when its data is non-empty |
| Tilera.InjectToImage | nova/virt/baremetal/tilera.py:84-157 | IndexError exactly when an entry is unreadable; otherwise an injection call with the key, the rendered template plus the DHCP boot stanza, the metadata, no admin password and the partition |
| Tilera.NodePathsDistinct | nova/virt/baremetal/tilera.py:192-193 | a node's image file, mount point and log file are three different paths |
| Tilera.NodePathsInjective | nova/virt/baremetal/tilera.py:192-193 | different nodes get different image files, mount points and log files |
| Tilera.SuffixDiffers | nova/virt/baremetal/tilera.py:192 | different suffixes after one prefix give different paths |
| Tilera.DeactivateUndoesActivate | nova/virt/baremetal/tilera.py:188-206 | deactivation unmounts the very file activation moved the image to and mounted, and removes it unless the unmount raised |
| Tilera.ConsoleOutputCommands | nova/virt/baremetal/tilera.py:268-283 | TypeError exactly when the node has no PM address; otherwise exactly two commands: the `tile_monitor` dmesg dump into the node's log file, then the copy of that log file to `console.log` in the instance directory |
| BaremetalNodes.ProjectFields | nova/api/openstack/compute/contrib/baremetal_nodes.py:38-49 | a projection has exactly the listed keys, each holding the row's value or None |
| BaremetalNodes.ProjectReadsOnlyFields | nova/api/openstack/compute/contrib/baremetal_nodes.py:38-49 | a projection depends only on the listed columns of the row |
| BaremetalNodes.NodeDictShape | nova/api/openstack/compute/contrib/baremetal_nodes.py:30-42 | `_node_dict` has exactly the keys of `node_fields`, each copied or None |
| BaremetalNodes.InterfaceDictShape | nova/api/openstack/compute/contrib/baremetal_nodes.py:35-49 | `_interface_dict` has exactly id, address, datapath_id and port_no; the vif uuid never shows |
| BaremetalNodes.InterfaceList | nova/api/openstack/compute/contrib/baremetal_nodes.py:112 | one dictionary per interface |
| BaremetalNodes.NodeViewShape | nova/api/openstack/compute/contrib/baremetal_nodes.py:111-112 | a listed node keeps its columns and gains the interface list in store order, with no vif uuid |
| BaremetalNodes.NoInterfacesShownEmpty | nova/api/openstack/compute/contrib/baremetal_nodes.py:106-110 | a node whose interface lookup raises InstanceNotFound is shown with `[]` |
| BaremetalNodes.NodeIndex | nova/api/openstack/compute/contrib/baremetal_nodes.py:121 | the first node row with the id, or None exactly when there is none |
| BaremetalNodes.AdminDb.Listing | nova/api/openstack/compute/contrib/baremetal_nodes.py:104-113 | one entry per node |
| BaremetalNodes.AdminDb.Index | nova/api/openstack/compute/contrib/baremetal_nodes.py:100-114 | the loop yields every node in order, each with its interfaces or `[]` |
| BaremetalNodes.AdminDb.Show | nova/api/openstack/compute/contrib/baremetal_nodes.py:117-130 | 404 exactly when no node has the id; otherwise that node with its interfaces, or `[]` when their lookup raises |
| BaremetalNodes.AdminDb.Create | nova/api/openstack/compute/contrib/baremetal_nodes.py:133-139 | KeyError without a `node` entry; otherwise one new node row, shown with `interfaces == []` |
| BaremetalNodes.AdminDb.AddInterface | nova/api/openstack/compute/contrib/baremetal_nodes.py:172-184 | KeyError without an address; otherwise one new interface row for the node, with no vif, shown through `_interface_dict` |
| BaremetalNodes.FirstMatchSpec | nova/api/openstack/compute/contrib/baremetal_nodes.py:195-201 | the first interface matching every supplied criterion, none before it matching; none exactly when nothing matches |
| BaremetalNodes.RemoveAt | nova/api/openstack/compute/contrib/baremetal_nodes.py:200 | destroying an interface leaves one fewer |
| BaremetalNodes.RemoveAtKeepsOthers | nova/api/openstack/compute/contrib/baremetal_nodes.py:200 | the other interfaces stay, in order; exactly the one is gone |
| BaremetalNodes.RemovePlan | nova/api/openstack/compute/contrib/baremetal_nodes.py:186-202 | a chosen interface exists in the node's list |
| BaremetalNodes.RemovePlanSpec | nova/api/openstack/compute/contrib/baremetal_nodes.py:186-202 | BadRequest exactly when neither id nor address is given; InstanceNotFound exactly when a criterion is given and the interface lookup for the node raises; otherwise the first interface matching every supplied criterion, and success exactly when one matches; NotFound exactly when none matches |
| BaremetalNodes.RemoveById | nova/api/openstack/compute/contrib/baremetal_nodes.py:194-201 | with unique ids, removal by id alone picks the interface with that id |
| BaremetalNodes.AdminDb.RemoveInterface | nova/api/openstack/compute/contrib/baremetal_nodes.py:186-202 | the loop destroys exactly the interface `RemovePlan` picks, or removes nothing and reports its error |
| BaremetalNodes.AdminDb.Action | nova/api/openstack/compute/contrib/baremetal_nodes.py:151-170 | 404 for an unknown node; BadRequest for an empty body, an unknown action or a KeyError inside the handler; otherwise the handler's outcome and new tables, the interface counter moving only on an added interface |
| BaremetalNodes.AdminDb.constructor | nova/api/openstack/compute/contrib/baremetal_nodes.py:96-97 | the store holds the given tables |

## Left out

- Every call into code outside the core is a `Step` whose failure comes
  from `Env`. This covers the provisioning backend, the VIF, firewall and
  volume drivers, the image cache, and the power manager as the driver sees
  it. Their effects beyond raising are not modelled.
- The `db`/`bmdb` modules are not part of this model.
  - Their rows are the driver's node map and interface sequence, and the
    `AdminDb` fields.
  - `bm_node_find_free` is taken to be first fit: the lowest id of this
    host that is unclaimed, registered and large enough.
  - `bm_interface_destroy` by id is modelled as removal of that row from
    the node's list, interface ids being unique.
  - The ids the store assigns come from a counter.
- Timing: the `time.sleep` waits are not modelled.
- The ping and `grep` of `_exec_status`, its output file and its removal
  are I/O. The probe's first line is the `Hardware.probeLine` oracle.
- Concurrency is not modelled. Operations run one at a time, and a claim is
  the plain read-then-write the code does.
- The following `tilera.py` members are I/O or framework code and are not
  modelled:
  - `TILERA.__init__`'s `tile_monitor` check and `_late_load_cheetah`;
  - `create_image` and `destroy_images`;
  - `activate_node`'s `_network_set`, `_ssh_set` and `_iptables_set`;
  - `deactivate_node`, which does nothing.
- The Cheetah template is a function parameter. `injected_files` is not
  modelled. That `inject_data` raises is logged and ignored.
- `start_console` and `stop_console` do nothing and are single steps. The
  driver calls them, and `activate_bootloader`, with other arguments than
  the Tilera classes declare. The model keeps the driver's call sequence
  and does not reconcile the signatures.
- `networks_associate.py` only forwards to the network API.
- Not core reporting or plumbing, and not modelled:
  - `list_instances`, `get_host_stats`, `_create_node_cap` and
    `get_available_nodes`;
  - the security-group refresh calls;
  - the XML templates, `delete`, authorisation and webob responses of the
    admin API.
- `node['id']` in the driver and the API is read as a plain value. URL ids
  and row ids are compared as values, without the string-to-integer
  conversion the database layer does.
- Python 2 dictionary iteration order in `action` is the order of the body
  sequence given.
- Request bodies are dictionaries (JSON objects). A non-dictionary body,
  which would raise AttributeError, is not modelled.
- A row missing its `id` or `address` column cannot occur in the table, so
  `i['id']` is read like `i.get('id')`.
- Driver.CollectExtraSpecs: requires every `instance_type_extra_specs` entry
  to contain a colon. An entry without one makes the source raise
  IndexError, which is not modelled.
- Driver.SpecEntry: requires a colon in the entry, for the same reason.
- Driver.BareMetalDriver.constructor: requires a colon in every extra-spec
  entry, for the same reason.
- Driver.PlugRun: whether `bm_interface_get_all_by_bm_node_id` raises is
  the `ListInterfaces` step of `Env`. The admin API handles that call
  raising InstanceNotFound, which suggests it raises for a node without
  interfaces, but the `db` module that decides it is not part of this model.
- Driver.BareMetalDriver.Spawn: the network list is a sequence. The
  `network_info=None` default, for which the plug loop would raise
  TypeError, is not represented.
- Strings.Strip: models `strip()` on a byte string. A unicode string's
  `strip()` also removes other whitespace characters, which is not modelled.
- Driver.ResolveNode and Driver.AvailableNodeResource: a name that `int()`
  rejects becomes the error InvalidNodeName rather than a ValueError. Both
  read `bm_node_get` as returning None for an unknown id
  (nova/virt/baremetal/driver.py:194-196, 360-362), while the admin API
  treats the same call as raising InstanceNotFound
  (nova/api/openstack/compute/contrib/baremetal_nodes.py:120-123, 154-157);
  the `db` module that decides it is not part of this model.
- TileraPdu.Pdu.IsPowerOnProbe: the probe's line is given per probe.
  Whether the ping itself succeeds is not modelled.
- ResourceTracker.ApplyInstanceToResources: the other keys of the
  `resources` dictionary are not represented.

/** What the driver's operations guarantee about the node table, the
    interface table and the order of the store writes. */
module DriverProperties {
  import opened Wrappers
  import Decimal
  import opened BaremetalTypes
  import opened BaremetalStore
  import opened Driver

  // ---------------------------------------------------------------------
  // Runs of collaborator calls

  /** A loop of collaborator calls leaves the store alone. */
  lemma {:induction false} EmitAllCallsKeepStore(r: Run, plan: seq<Event>, env: Env)
    requires forall e :: e in plan ==> e.Called?
    ensures EmitAll(r, plan, env).world.nodes == r.world.nodes
    ensures EmitAll(r, plan, env).world.interfaces == r.world.interfaces
    decreases |plan|
  {
    if r.raised.None? && plan != [] {
      assert plan[0] in plan;
      assert forall e :: e in plan[1..] ==> e in plan;
      EmitAllCallsKeepStore(Emit(r, plan[0], env), plan[1..], env);
    }
  }

  /** The node writes of a trace, in order. */
  function Writes(t: seq<Event>): seq<Event>
  {
    if t == [] then []
    else
      var last := t[|t| - 1];
      Writes(t[..|t| - 1]) + (if last.NodeUpdated? then [last] else [])
  }

  lemma WritesSnoc(t: seq<Event>, e: Event)
    ensures Writes(t + [e]) == Writes(t) + (if e.NodeUpdated? then [e] else [])
  {
    assert (t + [e])[..|t|] == t;
  }

  /** One event adds a node write to the trace exactly when it is a write
      and the run has not raised. */
  lemma EmitWrites(r: Run, e: Event, env: Env)
    ensures Writes(Emit(r, e, env).world.trace) ==
      Writes(r.world.trace) + (if r.raised.None? && e.NodeUpdated? then [e] else [])
  {
    if r.raised.None? {
      WritesSnoc(r.world.trace, e);
    }
  }

  lemma {:induction false} EmitAllCallsKeepWrites(r: Run, plan: seq<Event>, env: Env)
    requires forall e :: e in plan ==> !e.NodeUpdated?
    ensures Writes(EmitAll(r, plan, env).world.trace) == Writes(r.world.trace)
    ensures EmitAll(r, plan, env).world.nodes == r.world.nodes
    decreases |plan|
  {
    if r.raised.None? && plan != [] {
      assert plan[0] in plan;
      assert forall e :: e in plan[1..] ==> e in plan;
      EmitWrites(r, plan[0], env);
      EmitAllCallsKeepWrites(Emit(r, plan[0], env), plan[1..], env);
    }
  }

  /** When `bm_interface_get_all_by_bm_node_id` raises inside `_plug_vifs`,
      the exception ends the run: no vif is cleared, no network is plugged,
      and the store is as before. */
  lemma PlugRunListingRaises(r: Run, host: string, uuid: string, nets: seq<NetworkEntry>, env: Env)
    requires r.raised.None?
    requires LookupByInstance(r.world.nodes, Some(uuid), host).Some?
    requires ListInterfaces in env.raising
    ensures PlugRun(r, host, uuid, nets, env) ==
      Run(r.world.(trace := r.world.trace + [Called(ListInterfaces)]), Some(ListInterfaces))
  {
  }

  /** `_plug_vifs` writes no node. */
  lemma PlugRunKeepsNodes(r: Run, host: string, uuid: string, nets: seq<NetworkEntry>, env: Env)
    ensures PlugRun(r, host, uuid, nets, env).world.nodes == r.world.nodes
    ensures Writes(PlugRun(r, host, uuid, nets, env).world.trace) == Writes(r.world.trace)
  {
    var found := LookupByInstance(r.world.nodes, Some(uuid), host);
    if found.Some? {
      var r0 := Emit(r, Called(ListInterfaces), env);
      EmitWrites(r, Called(ListInterfaces), env);
      var pifs := InterfacesOf(r.world.interfaces, found.value);
      EmitAllCallsKeepWrites(r0, ClearPlan(pifs), env);
      EmitAllCallsKeepWrites(EmitAll(r0, ClearPlan(pifs), env), PlugCalls(|nets|), env);
    } else {
      EmitAllCallsKeepWrites(r, PlugCalls(|nets|), env);
    }
  }

  // ---------------------------------------------------------------------
  // The clearing of stale VIF bindings

  /** The ids of the listed interfaces that had a VIF binding. */
  function ClearedIds(pifs: seq<Interface>): (ids: set<int>)
    ensures forall id :: id in ids <==>
      exists j :: 0 <= j < |pifs| && pifs[j].id == id && TruthyString(pifs[j].vifUuid)
  {
    if pifs == [] then {}
    else
      var last := pifs[|pifs| - 1];
      var init := pifs[..|pifs| - 1];
      var ids := ClearedIds(init) + (if TruthyString(last.vifUuid) then {last.id} else {});
      assert forall j :: 0 <= j < |init| ==> init[j] == pifs[j];
      ids
  }

  /** The clearing loop unbinds every interface row whose id is that of a
      listed interface with a binding, and nothing else. */
  lemma {:induction false} ClearPlanInterfaces(r: Run, pifs: seq<Interface>, env: Env)
    requires r.raised.None?
    ensures var out := EmitAll(r, ClearPlan(pifs), env);
      && out.raised.None?
      && out.world.nodes == r.world.nodes
      && |out.world.interfaces| == |r.world.interfaces|
      && forall i :: 0 <= i < |r.world.interfaces| ==>
           out.world.interfaces[i] ==
             if r.world.interfaces[i].id in ClearedIds(pifs)
             then r.world.interfaces[i].(vifUuid := None)
             else r.world.interfaces[i]
    decreases |pifs|
  {
    if pifs != [] {
      var last := pifs[|pifs| - 1];
      var init := pifs[..|pifs| - 1];
      ClearPlanInterfaces(r, init, env);
      if TruthyString(last.vifUuid) {
        EmitAllSnoc(r, ClearPlan(init), VifCleared(last.id), env);
      } else {
        assert ClearPlan(pifs) == ClearPlan(init);
      }
    }
  }

  /** Interface ids are unique in the interface table. */
  predicate UniqueInterfaceIds(ifaces: seq<Interface>)
  {
    forall i, j :: 0 <= i < |ifaces| && 0 <= j < |ifaces| && i != j ==> ifaces[i].id != ifaces[j].id
  }

  /** `_plug_vifs` sets `vif_uuid` to None exactly on the interfaces of the
      instance's node that had one; every other interface, and the node
      table, are unchanged. When the instance is not found on this host, or
      listing the interfaces raises, no interface changes. */
  lemma PlugVifsClearsStale(r: Run, host: string, uuid: string, nets: seq<NetworkEntry>, env: Env)
    requires r.raised.None?
    requires UniqueInterfaceIds(r.world.interfaces)
    ensures var out := PlugRun(r, host, uuid, nets, env);
      var ifaces := r.world.interfaces;
      var found := LookupByInstance(r.world.nodes, Some(uuid), host);
      && out.world.nodes == r.world.nodes
      && |out.world.interfaces| == |ifaces|
      && forall i :: 0 <= i < |ifaces| ==>
           out.world.interfaces[i] ==
             if found.Some? && ListInterfaces !in env.raising
                && ifaces[i].nodeId == found.value && TruthyString(ifaces[i].vifUuid)
             then ifaces[i].(vifUuid := None)
             else ifaces[i]
  {
    var ifaces := r.world.interfaces;
    var found := LookupByInstance(r.world.nodes, Some(uuid), host);
    PlugRunKeepsNodes(r, host, uuid, nets, env);
    if found.Some? {
      var r0 := Emit(r, Called(ListInterfaces), env);
      var pifs := InterfacesOf(ifaces, found.value);
      if ListInterfaces !in env.raising {
        ClearPlanInterfaces(r0, pifs, env);
        var r1 := EmitAll(r0, ClearPlan(pifs), env);
        EmitAllCallsKeepStore(r1, PlugCalls(|nets|), env);
        forall i | 0 <= i < |ifaces|
          ensures ifaces[i].id in ClearedIds(pifs) <==>
            ifaces[i].nodeId == found.value && TruthyString(ifaces[i].vifUuid)
        {
          if ifaces[i].nodeId == found.value && TruthyString(ifaces[i].vifUuid) {
            assert ifaces[i] in pifs;
            var j :| 0 <= j < |pifs| && pifs[j] == ifaces[i];
          }
          if ifaces[i].id in ClearedIds(pifs) {
            var j :| 0 <= j < |pifs| && pifs[j].id == ifaces[i].id && TruthyString(pifs[j].vifUuid);
            assert pifs[j] in pifs;
            var k :| 0 <= k < |ifaces| && ifaces[k] == pifs[j];
            assert k == i;
          }
        }
      }
    } else {
      EmitAllCallsKeepStore(r, PlugCalls(|nets|), env);
    }
  }

  // ---------------------------------------------------------------------
  // spawn

  /** The preparation phase of `spawn` changes the node table by the claim
      alone. */
  lemma SpawnPrepareNodes(w: World, host: string, id: int, inst: Instance, nets: seq<NetworkEntry>, env: Env)
    ensures SpawnPrepare(w, host, id, inst, nets, env).world.nodes == UpdateState(w.nodes, id, Some(inst.uuid), Building)
  {
    var r0 := Emit(Run(w, None), NodeUpdated(id, Some(inst.uuid), Building), env);
    var r1 := Emit(r0, Called(DefineVars), env);
    PlugRunKeepsNodes(r1, host, inst.uuid, nets, env);
  }

  /** The preparation phase of `spawn` adds the claim to the trace's writes
      and no other write. */
  lemma SpawnPrepareWrites(w: World, host: string, id: int, inst: Instance, nets: seq<NetworkEntry>, env: Env)
    ensures Writes(SpawnPrepare(w, host, id, inst, nets, env).world.trace) ==
      Writes(w.trace) + [NodeUpdated(id, Some(inst.uuid), Building)]
  {
    var claim := NodeUpdated(id, Some(inst.uuid), Building);
    var r0 := Emit(Run(w, None), claim, env);
    EmitWrites(Run(w, None), claim, env);
    var r1 := Emit(r0, Called(DefineVars), env);
    EmitWrites(r0, Called(DefineVars), env);
    var r2 := PlugRun(r1, host, inst.uuid, nets, env);
    PlugRunKeepsNodes(r1, host, inst.uuid, nets, env);
    var r3 := Emit(r2, Called(SetupBasicFiltering), env);
    EmitWrites(r2, Called(SetupBasicFiltering), env);
    var r4 := Emit(r3, Called(PrepareInstanceFilter), env);
    EmitWrites(r3, Called(PrepareInstanceFilter), env);
    var r5 := Emit(r4, Called(CreateImage), env);
    EmitWrites(r4, Called(CreateImage), env);
    EmitWrites(r5, Called(ActivateBootloader), env);
  }

  /** The power phase of `spawn` writes the power-on result exactly when the
      power manager was reached and answered. */
  lemma SpawnPowerNodes(r: Run, id: int, inst: Instance, env: Env)
    ensures var q := SpawnPower(r, id, inst, env);
      var answered := r.raised.None? && GetPowerManager !in env.raising && PowerActivate !in env.raising;
      && q.world.nodes == (if answered then UpdateState(r.world.nodes, id, Some(inst.uuid), env.powerOnState) else r.world.nodes)
      && (q.raised.None? <==> answered)
  {
  }

  lemma SpawnPowerWrites(r: Run, id: int, inst: Instance, env: Env)
    ensures var q := SpawnPower(r, id, inst, env);
      var answered := r.raised.None? && GetPowerManager !in env.raising && PowerActivate !in env.raising;
      Writes(q.world.trace) == Writes(r.world.trace) +
        (if answered then [NodeUpdated(id, Some(inst.uuid), env.powerOnState)] else [])
  {
    var q0 := Emit(r, Called(GetPowerManager), env);
    EmitWrites(r, Called(GetPowerManager), env);
    var q1 := Emit(q0, Called(PowerActivate), env);
    EmitWrites(q0, Called(PowerActivate), env);
    EmitWrites(q1, NodeUpdated(id, Some(inst.uuid), env.powerOnState), env);
  }

  /** The last phase of `spawn` writes no node, and returns normally only
      if everything before it did. */
  lemma SpawnCompleteNodes(r: Run, terminalPort: Option<int>, vols: seq<Volume>, env: Env)
    ensures var c := SpawnComplete(r, terminalPort, vols, env);
      && c.world.nodes == r.world.nodes
      && (c.raised.None? ==> r.raised.None?)
  {
    var c0 := Emit(r, Called(BackendActivateNode), env);
    var c1 := Emit(c0, Called(ApplyInstanceFilter), env);
    EmitAllCallsKeepStore(c1, AttachCalls(|vols|), env);
  }

  lemma SpawnCompleteWrites(r: Run, terminalPort: Option<int>, vols: seq<Volume>, env: Env)
    ensures Writes(SpawnComplete(r, terminalPort, vols, env).world.trace) == Writes(r.world.trace)
  {
    var c0 := Emit(r, Called(BackendActivateNode), env);
    EmitWrites(r, Called(BackendActivateNode), env);
    var c1 := Emit(c0, Called(ApplyInstanceFilter), env);
    EmitWrites(c0, Called(ApplyInstanceFilter), env);
    var c2 := EmitAll(c1, AttachCalls(|vols|), env);
    EmitAllCallsKeepWrites(c1, AttachCalls(|vols|), env);
    EmitWrites(c2, Called(StartConsole), env);
  }

  /** `spawn` changes one node: the one it resolved, which ends up bound to
      the instance with either BUILDING (a later call raised before the
      power-on result came back) or the power-on result (always, when spawn
      returns normally). Only `instance_uuid` and `task_state` change, so an
      ERROR from the power manager leaves the node bound. */
  lemma SpawnBindsNode(w: World, host: string, inst: Instance, nets: seq<NetworkEntry>,
                       vols: seq<Volume>, env: Env)
    requires ResolveNode(w.nodes, inst).Success?
    ensures var id := ResolveNode(w.nodes, inst).value;
      var o := SpawnEffect(w, host, inst, nets, vols, env);
      && (o.world.nodes == UpdateState(w.nodes, id, Some(inst.uuid), Building)
          || o.world.nodes == UpdateState(w.nodes, id, Some(inst.uuid), env.powerOnState))
      && (o.result.Success? ==> o.world.nodes == UpdateState(w.nodes, id, Some(inst.uuid), env.powerOnState))
  {
    var id := ResolveNode(w.nodes, inst).value;
    var p := SpawnPrepare(w, host, id, inst, nets, env);
    SpawnPrepareNodes(w, host, id, inst, nets, env);
    SpawnPowerNodes(p, id, inst, env);
    SpawnCompleteNodes(SpawnPower(p, id, inst, env), w.nodes[id].terminalPort, vols, env);
  }

  /** The node writes `spawn` adds to the trace: the claim with BUILDING,
      then (once the power manager has answered) the power-on result, both
      binding the instance; a normal return has made both. */
  lemma SpawnWritesInOrder(w: World, host: string, inst: Instance, nets: seq<NetworkEntry>,
                           vols: seq<Volume>, env: Env)
    requires ResolveNode(w.nodes, inst).Success?
    ensures var id := ResolveNode(w.nodes, inst).value;
      var o := SpawnEffect(w, host, inst, nets, vols, env);
      var claim := NodeUpdated(id, Some(inst.uuid), Building);
      var power := NodeUpdated(id, Some(inst.uuid), env.powerOnState);
      && (Writes(o.world.trace) == Writes(w.trace) + [claim]
          || Writes(o.world.trace) == Writes(w.trace) + [claim, power])
      && (o.result.Success? ==> Writes(o.world.trace) == Writes(w.trace) + [claim, power])
  {
    var id := ResolveNode(w.nodes, inst).value;
    var claim := NodeUpdated(id, Some(inst.uuid), Building);
    var power := NodeUpdated(id, Some(inst.uuid), env.powerOnState);
    var p := SpawnPrepare(w, host, id, inst, nets, env);
    SpawnPrepareWrites(w, host, id, inst, nets, env);
    var q := SpawnPower(p, id, inst, env);
    SpawnPowerWrites(p, id, inst, env);
    SpawnPowerNodes(p, id, inst, env);
    var c := SpawnComplete(q, w.nodes[id].terminalPort, vols, env);
    SpawnCompleteWrites(q, w.nodes[id].terminalPort, vols, env);
    SpawnCompleteNodes(q, w.nodes[id].terminalPort, vols, env);
    assert SpawnEffect(w, host, inst, nets, vols, env) == Finish(c);
    assert Writes(c.world.trace) == Writes(q.world.trace);
    if q.raised.None? {
      assert Writes(q.world.trace) == Writes(w.trace) + [claim] + [power];
      assert Writes(w.trace) + [claim] + [power] == Writes(w.trace) + [claim, power];
    } else {
      assert Writes(q.world.trace) == Writes(w.trace) + [claim];
      assert c.raised.Some?;
    }
  }

  /** Once `spawn` has claimed a node, a second `spawn` naming the same node
      fails with NodeInUse and writes nothing, whatever instance asks and
      whether or not the first one completed. (An instance whose uuid is the
      empty string does not count as a claim: `if node['instance_uuid']` is
      false for it.) */
  lemma SpawnTwiceInUse(w: World, host: string, inst: Instance, other: Instance,
                        nets: seq<NetworkEntry>, vols: seq<Volume>, env: Env, env2: Env)
    requires ResolveNode(w.nodes, inst).Success?
    requires inst.uuid != ""
    requires FirstNodeName(other.systemMetadata) == FirstNodeName(inst.systemMetadata)
    ensures var o := SpawnEffect(w, host, inst, nets, vols, env);
      var name := FirstNodeName(inst.systemMetadata).value;
      SpawnEffect(o.world, host, other, nets, vols, env2) == Outcome(o.world, Failure(NodeInUse(name, other.uuid)))
  {
    SpawnBindsNode(w, host, inst, nets, vols, env);
  }

  /** A node the scheduler is handed by `get_nodename_for_new_instance` is
      one `spawn` accepts when the instance's metadata names it: the name
      parses back to the free node's id, which is present and unclaimed. */
  lemma SchedulerChoiceSpawns(nodes: map<int, Node>, host: string, inst: Instance, placed: Instance)
    requires NodenameForNewInstance(nodes, host, inst).Success?
    requires FirstNodeName(placed.systemMetadata) == Some(NodenameForNewInstance(nodes, host, inst).value)
    ensures var disk := NoneToZero(inst.rootGb) + NoneToZero(inst.ephemeralGb);
      ResolveNode(nodes, placed) == Success(FindFree(nodes, host, inst.vcpus, inst.memoryMb, disk).value)
  {
    var disk := NoneToZero(inst.rootGb) + NoneToZero(inst.ephemeralGb);
    var free := FindFree(nodes, host, inst.vcpus, inst.memoryMb, disk);
    var name := NodenameForNewInstance(nodes, host, inst).value;
    assert Suitable(nodes[free.value], host, inst.vcpus, inst.memoryMb, disk);
    ResolveNamed(nodes, placed, name, free.value);
    assert ResolveNode(nodes, placed) == Success(free.value);
  }

  /** `spawn` resolves a decimal name of a present, unclaimed node to it. */
  lemma ResolveNamed(nodes: map<int, Node>, inst: Instance, name: string, id: int)
    requires FirstNodeName(inst.systemMetadata) == Some(name) && name != []
    requires Decimal.ParseInt(name) == Some(id)
    requires id in nodes && !TruthyString(nodes[id].instanceUuid)
    ensures ResolveNode(nodes, inst) == Success(id)
  {
  }

  /** The node `bm_node_find_free` hands out reports no usage. */
  lemma FreeNodeIsIdle(nodes: map<int, Node>, host: string, cpus: int, memoryMb: int, localGb: int)
    requires FindFree(nodes, host, cpus, memoryMb, localGb).Some?
    ensures var r := NodeResources(nodes[FindFree(nodes, host, cpus, memoryMb, localGb).value]);
      r.vcpusUsed == 0 && r.memoryMbUsed == 0 && r.localGbUsed == 0
  {
  }

  /** `spawn` keeps every instance on at most one node, provided the
      instance was not already on some node. */
  lemma SpawnKeepsExclusive(w: World, host: string, inst: Instance, nets: seq<NetworkEntry>,
                            vols: seq<Volume>, env: Env)
    requires Exclusive(w.nodes)
    requires forall k :: k in w.nodes ==> w.nodes[k].instanceUuid != Some(inst.uuid)
    ensures Exclusive(SpawnEffect(w, host, inst, nets, vols, env).world.nodes)
  {
    if ResolveNode(w.nodes, inst).Success? {
      SpawnBindsNode(w, host, inst, nets, vols, env);
    }
  }

  // ---------------------------------------------------------------------
  // destroy and reboot

  /** `destroy` either releases the instance's node (normal return: its
      `instance_uuid` becomes None and its `task_state` the power-off
      result) or, when a collaborator raised or the instance is not on this
      host's nodes, leaves the node table as it was. */
  lemma DestroyReleases(w: World, host: string, inst: Instance, nets: seq<NetworkEntry>,
                        vols: seq<Volume>, env: Env)
    ensures var o := DestroyEffect(w, host, inst, nets, vols, env);
      var found := LookupByInstance(w.nodes, Some(inst.uuid), host);
      && (found.None? ==> o == Outcome(w, Success(())))
      && (found.Some? && o.result.Success? ==> o.world.nodes == UpdateState(w.nodes, found.value, None, env.powerOffState))
      && (o.result.Failure? ==> o.world.nodes == w.nodes)
  {
    var found := LookupByInstance(w.nodes, Some(inst.uuid), host);
    if found.Some? {
      var r0 := Emit(Run(w, None), Called(DefineVars), env);
      var r1 := Emit(r0, Called(BackendDeactivateNode), env);
      var r2 := Emit(r1, Called(GetPowerManager), env);
      var r3 := Emit(r2, Called(StopConsole), env);
      var r4 := Emit(r3, Called(PowerDeactivate), env);
      var r5 := EmitAll(r4, DetachCalls(|vols|), env);
      EmitAllCallsKeepStore(r4, DetachCalls(|vols|), env);
      var r6 := Emit(r5, Called(DeactivateBootloader), env);
      var r7 := Emit(r6, Called(DestroyImages), env);
      var r8 := Emit(r7, Called(UnfilterInstance), env);
      var r9 := EmitAll(r8, UnplugCalls(|nets|), env);
      EmitAllCallsKeepStore(r8, UnplugCalls(|nets|), env);
      assert DestroyRun(w, found.value, nets, vols, env) == Emit(r9, NodeUpdated(found.value, None, env.powerOffState), env);
    }
  }

  /** With every instance on at most one node, a `destroy` that returned
      normally leaves nothing to find: destroying again changes nothing. */
  lemma DestroyTwiceNoop(w: World, host: string, inst: Instance, nets: seq<NetworkEntry>,
                         vols: seq<Volume>, env: Env, env2: Env)
    requires Exclusive(w.nodes)
    requires DestroyEffect(w, host, inst, nets, vols, env).result.Success?
    ensures var o := DestroyEffect(w, host, inst, nets, vols, env);
      DestroyEffect(o.world, host, inst, nets, vols, env2) == Outcome(o.world, Success(()))
  {
    DestroyReleases(w, host, inst, nets, vols, env);
    var o := DestroyEffect(w, host, inst, nets, vols, env);
    var found := LookupByInstance(w.nodes, Some(inst.uuid), host);
    if found.Some? {
      assert forall k :: k in o.world.nodes ==> o.world.nodes[k].instanceUuid != Some(inst.uuid) by {
        forall k | k in o.world.nodes
          ensures o.world.nodes[k].instanceUuid != Some(inst.uuid)
        {
          if k != found.value {
            assert w.nodes[found.value].instanceUuid == Some(inst.uuid);
          }
        }
      }
    }
  }

  /** `destroy` keeps every instance on at most one node. */
  lemma DestroyKeepsExclusive(w: World, host: string, inst: Instance, nets: seq<NetworkEntry>,
                              vols: seq<Volume>, env: Env)
    requires Exclusive(w.nodes)
    ensures Exclusive(DestroyEffect(w, host, inst, nets, vols, env).world.nodes)
  {
    DestroyReleases(w, host, inst, nets, vols, env);
  }

  /** `reboot` keeps the instance on its node and records the power
      manager's answer; on an exception nothing is written. An instance not
      on this host's nodes gives InstanceNotFound. */
  lemma RebootKeepsOwner(w: World, host: string, inst: Instance, env: Env)
    ensures var o := RebootEffect(w, host, inst, env);
      var found := LookupByInstance(w.nodes, Some(inst.uuid), host);
      && (found.None? ==> o == Outcome(w, Failure(InstanceNotFound(Some(inst.uuid)))))
      && (found.Some? && o.result.Success? ==>
            && o.world.nodes == w.nodes[found.value := w.nodes[found.value].(taskState := env.rebootState)]
            && o.world.nodes[found.value].instanceUuid == Some(inst.uuid))
      && (o.result.Failure? ==> o.world.nodes == w.nodes)
  {
  }

  /** The extra specs always carry `cpu_arch`; it and the two defaults keep
      their default value unless some entry sets them. */
  lemma {:induction false} AddSpecsKeeps(specs: map<string, string>, pairs: seq<string>, key: string)
    requires forall i :: 0 <= i < |pairs| ==> ':' in pairs[i]
    requires forall i :: 0 <= i < |pairs| ==> SpecEntry(pairs[i]).0 != key
    ensures key in AddSpecs(specs, pairs) <==> key in specs
    ensures key in specs ==> AddSpecs(specs, pairs)[key] == specs[key]
  {
    if pairs != [] {
      AddSpecsKeeps(specs, pairs[..|pairs| - 1], key);
    }
  }

  /** The entry for a key is the value of the last configured entry with
      that key. */
  lemma {:induction false} AddSpecsLastWins(specs: map<string, string>, pairs: seq<string>, i: nat)
    requires forall j :: 0 <= j < |pairs| ==> ':' in pairs[j]
    requires i < |pairs|
    requires forall j :: i < j < |pairs| ==> SpecEntry(pairs[j]).0 != SpecEntry(pairs[i]).0
    ensures SpecEntry(pairs[i]).0 in AddSpecs(specs, pairs)
    ensures AddSpecs(specs, pairs)[SpecEntry(pairs[i]).0] == SpecEntry(pairs[i]).1
  {
    var init := pairs[..|pairs| - 1];
    if i < |pairs| - 1 {
      AddSpecsLastWins(specs, init, i);
    }
  }

  /** `cpu_arch` is always advertised, empty when no entry sets it;
      `hypervisor_type` is `baremetal` unless an entry overrides it. */
  lemma ExtraSpecsDefaults(baremetalDriver: string, pairs: seq<string>)
    requires forall i :: 0 <= i < |pairs| ==> ':' in pairs[i]
    ensures "cpu_arch" in ExtraSpecs(baremetalDriver, pairs)
    ensures (forall i :: 0 <= i < |pairs| ==> SpecEntry(pairs[i]).0 != "cpu_arch") ==>
      ExtraSpecs(baremetalDriver, pairs)["cpu_arch"] == ""
    ensures (forall i :: 0 <= i < |pairs| ==> SpecEntry(pairs[i]).0 != "hypervisor_type") ==>
      "hypervisor_type" in ExtraSpecs(baremetalDriver, pairs) &&
      ExtraSpecs(baremetalDriver, pairs)["hypervisor_type"] == "baremetal"
  {
    var start := map["hypervisor_type" := "baremetal", "baremetal_driver" := baremetalDriver];
    if forall i :: 0 <= i < |pairs| ==> SpecEntry(pairs[i]).0 != "cpu_arch" {
      AddSpecsKeeps(start, pairs, "cpu_arch");
    }
    if forall i :: 0 <= i < |pairs| ==> SpecEntry(pairs[i]).0 != "hypervisor_type" {
      AddSpecsKeeps(start, pairs, "hypervisor_type");
    }
  }
}

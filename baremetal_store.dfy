/** The queries of the baremetal store that the driver relies on, over the
    node table as a map from node id to row. The store's own code is not
    part of this model; its scan order is fixed here as ascending node id. */
module BaremetalStore {
  import opened Wrappers
  import opened BaremetalTypes

  /** A non-empty finite set of ids has a least element. */
  lemma {:induction false} LeastExists(s: set<int>)
    requires exists z :: z in s
    ensures exists m :: m in s && forall y :: y in s ==> m <= y
    decreases |s|
  {
    var x :| x in s;
    if exists y :: y in s && y != x {
      var rest := s - {x};
      var y :| y in s && y != x;
      assert y in rest;
      LeastExists(rest);
      var m :| m in rest && forall y :: y in rest ==> m <= y;
      assert forall y :: y in s ==> y == x || y in rest;
      if x < m {
        assert forall y :: y in s ==> x <= y;
      } else {
        assert forall y :: y in s ==> m <= y;
      }
    } else {
      assert forall y :: y in s ==> x <= y;
    }
  }

  /** The smallest element of a non-empty finite set of ids. */
  function Least(s: set<int>): (m: int)
    requires exists z :: z in s
    ensures m in s && forall y :: y in s ==> m <= y
  {
    LeastExists(s);
    var m :| m in s && forall y :: y in s ==> m <= y;
    m
  }

  /** `bm_node_get_by_instance_uuid`: the first node in scan order whose
      `instance_uuid` is `uuid`, or None. */
  function NodeByInstanceUuid(nodes: map<int, Node>, uuid: string): (r: Option<int>)
    ensures r.None? <==> forall id :: id in nodes ==> nodes[id].instanceUuid != Some(uuid)
    ensures r.Some? ==> r.value in nodes && nodes[r.value].instanceUuid == Some(uuid)
    ensures r.Some? ==> forall id :: id in nodes && nodes[id].instanceUuid == Some(uuid) ==> r.value <= id
  {
    var ids := set id | id in nodes && nodes[id].instanceUuid == Some(uuid);
    if exists id :: id in nodes && nodes[id].instanceUuid == Some(uuid) then
      var w :| w in nodes && nodes[w].instanceUuid == Some(uuid);
      assert w in ids;
      var m := Least(ids);
      assert m in nodes && nodes[m].instanceUuid == Some(uuid);
      assert forall id :: id in nodes && nodes[id].instanceUuid == Some(uuid) ==> id in ids;
      Some(m)
    else None
  }

  /** The filter of `bm_node_find_free`: registered, unclaimed (a NULL
      `instance_uuid` column), owned by `host`, and at least as large as the
      request in all three capacities. */
  predicate Suitable(n: Node, host: string, cpus: int, memoryMb: int, localGb: int)
  {
    && n.registrationStatus == "done"
    && n.instanceUuid.None?
    && n.serviceHost == host
    && n.cpus >= cpus
    && n.memoryMb >= memoryMb
    && n.localGb >= localGb
  }

  /** `bm_node_find_free`: the first suitable node in scan order (first fit). */
  function FindFree(nodes: map<int, Node>, host: string, cpus: int, memoryMb: int, localGb: int): (r: Option<int>)
    ensures r.None? <==> forall id :: id in nodes ==> !Suitable(nodes[id], host, cpus, memoryMb, localGb)
    ensures r.Some? ==> r.value in nodes && Suitable(nodes[r.value], host, cpus, memoryMb, localGb)
    ensures r.Some? ==> forall id :: id in nodes && Suitable(nodes[id], host, cpus, memoryMb, localGb) ==> r.value <= id
  {
    var ids := set id | id in nodes && Suitable(nodes[id], host, cpus, memoryMb, localGb);
    if exists id :: id in nodes && Suitable(nodes[id], host, cpus, memoryMb, localGb) then
      var w :| w in nodes && Suitable(nodes[w], host, cpus, memoryMb, localGb);
      assert w in ids;
      var m := Least(ids);
      assert m in nodes && Suitable(nodes[m], host, cpus, memoryMb, localGb);
      assert forall id :: id in nodes && Suitable(nodes[id], host, cpus, memoryMb, localGb) ==> id in ids;
      Some(m)
    else None
  }

  /** No instance is bound to two nodes. */
  ghost predicate Exclusive(nodes: map<int, Node>)
  {
    forall a, b :: a in nodes && b in nodes && a != b && nodes[a].instanceUuid.Some? ==>
      nodes[a].instanceUuid != nodes[b].instanceUuid
  }
}

/** The bare-metal admin API: the projections of node and interface rows
    into response dictionaries, the listing and showing of nodes with their
    interfaces, node creation, and the `action` endpoint that adds or
    removes an interface. The database is a class whose fields the handlers
    read and update. */
module BaremetalNodes {
  import opened Wrappers

  /** A JSON-like Python value as it appears in rows, request bodies and
      responses. */
  datatype Value =
    | Null
    | Int(n: int)
    | Str(s: string)
    | Dict(entries: map<string, Value>)
    | List(items: seq<Value>)

  /** A database row or a dictionary of a request body. */
  type Row = map<string, Value>

  /** `d.get(f)`: the value under `f`, or None. */
  function Get(d: Row, f: string): Value
  {
    if f in d then d[f] else Null
  }

  /** Python truthiness. */
  predicate Truthy(v: Value)
  {
    match v
    case Null => false
    case Int(n) => n != 0
    case Str(s) => s != ""
    case Dict(m) => m != map[]
    case List(s) => s != []
  }

  /** The columns an admin sees of a node. */
  const NodeFields: seq<string> := ["id", "cpus", "local_gb", "memory_mb", "pm_address",
    "pm_user", "prov_mac_address", "prov_vlan_id", "service_host", "terminal_port", "instance_uuid"]

  /** The columns an admin sees of an interface. */
  const InterfaceFields: seq<string> := ["id", "address", "datapath_id", "port_no"]

  // ---------------------------------------------------------------------
  // Projections

  /** The dictionary built by `d[f] = ref.get(f)` for each `f` in order. */
  function Project(r: Row, fields: seq<string>): Row
    decreases |fields|
  {
    if fields == [] then map[]
    else
      var f := fields[|fields| - 1];
      Project(r, fields[..|fields| - 1])[f := Get(r, f)]
  }

  /** The projection has exactly the listed keys, each holding the row's
      value or None. */
  lemma {:induction false} ProjectFields(r: Row, fields: seq<string>)
    ensures forall f :: f in Project(r, fields) <==> f in fields
    ensures forall f :: f in fields ==> Project(r, fields)[f] == Get(r, f)
    decreases |fields|
  {
    if fields != [] {
      var init := fields[..|fields| - 1];
      ProjectFields(r, init);
      assert fields == init + [fields[|fields| - 1]];
    }
  }

  /** The projection reads nothing of the row beyond the listed columns. */
  lemma ProjectReadsOnlyFields(r1: Row, r2: Row, fields: seq<string>)
    requires forall f :: f in fields ==> Get(r1, f) == Get(r2, f)
    ensures Project(r1, fields) == Project(r2, fields)
  {
    ProjectFields(r1, fields);
    ProjectFields(r2, fields);
  }

  /** `_node_dict`. */
  function NodeDict(r: Row): Row
  {
    Project(r, NodeFields)
  }

  /** `_interface_dict`. */
  function InterfaceDict(r: Row): Row
  {
    Project(r, InterfaceFields)
  }

  /** A node's dictionary has exactly the node columns, copied or None. */
  lemma NodeDictShape(r: Row)
    ensures forall f :: f in NodeDict(r) <==> f in NodeFields
    ensures forall f :: f in NodeFields ==> NodeDict(r)[f] == Get(r, f)
    ensures "interfaces" !in NodeDict(r)
  {
    ProjectFields(r, NodeFields);
  }

  /** An interface's dictionary has exactly id, address, datapath_id and
      port_no, and whatever the row's vif uuid is, it does not show. */
  lemma InterfaceDictShape(r: Row, vif: Value)
    ensures forall f :: f in InterfaceDict(r) <==> f in InterfaceFields
    ensures forall f :: f in InterfaceFields ==> InterfaceDict(r)[f] == Get(r, f)
    ensures "vif_uuid" !in InterfaceDict(r)
    ensures InterfaceDict(r["vif_uuid" := vif]) == InterfaceDict(r)
  {
    ProjectFields(r, InterfaceFields);
    ProjectReadsOnlyFields(r, r["vif_uuid" := vif], InterfaceFields);
  }

  // ---------------------------------------------------------------------
  // Responses

  /** `[_interface_dict(i) for i in ifs]`. */
  function InterfaceList(ifs: seq<Row>): (l: seq<Value>)
    ensures |l| == |ifs|
  {
    seq(|ifs|, k requires 0 <= k < |ifs| => Dict(InterfaceDict(ifs[k])))
  }

  /** A node's dictionary with its `interfaces` entry added. */
  function NodeView(node: Row, ifs: seq<Row>): Value
  {
    Dict(NodeDict(node)["interfaces" := List(InterfaceList(ifs))])
  }

  /** The interface lookup of `index` and `show`: a lookup that raises
      InstanceNotFound counts as no interfaces. */
  function InterfacesOrEmpty(interfaces: map<Value, seq<Row>>, id: Value): seq<Row>
  {
    if id in interfaces then interfaces[id] else []
  }

  /** A node view keeps the node's columns, adds the interface list in the
      store's order, and shows no vif uuid. */
  lemma NodeViewShape(node: Row, ifs: seq<Row>)
    ensures var d := NodeView(node, ifs).entries;
      && (forall f :: f in d <==> f in NodeFields || f == "interfaces")
      && (forall f :: f in NodeFields ==> d[f] == Get(node, f))
      && d["interfaces"] == List(InterfaceList(ifs))
      && forall k :: 0 <= k < |ifs| ==> "vif_uuid" !in InterfaceList(ifs)[k].entries
  {
    NodeDictShape(node);
    forall k | 0 <= k < |ifs|
      ensures "vif_uuid" !in InterfaceList(ifs)[k].entries
    {
      InterfaceDictShape(ifs[k], Null);
    }
  }

  /** A node whose interface lookup raises is shown with an empty list. */
  lemma NoInterfacesShownEmpty(node: Row, interfaces: map<Value, seq<Row>>, id: Value)
    requires id !in interfaces
    ensures NodeView(node, InterfacesOrEmpty(interfaces, id)).entries["interfaces"] == List([])
  {
  }

  /** The first row whose `id` column is `id`, as `bm_node_get` finds it. */
  function NodeIndex(nodes: seq<Row>, id: Value): (k: Option<nat>)
    ensures k.Some? ==> k.value < |nodes| && Get(nodes[k.value], "id") == id
    ensures k.Some? ==> forall j :: 0 <= j < k.value ==> Get(nodes[j], "id") != id
    ensures k.None? <==> forall j :: 0 <= j < |nodes| ==> Get(nodes[j], "id") != id
    decreases |nodes|
  {
    if nodes == [] then None
    else if Get(nodes[0], "id") == id then Some(0)
    else
      match NodeIndex(nodes[1..], id)
      case None => None
      case Some(k) => Some(k + 1)
  }

  // ---------------------------------------------------------------------
  // Removal of an interface

  /** The interface matches every criterion that was supplied. */
  predicate Matches(i: Row, ifId: Value, address: Value)
  {
    (!Truthy(ifId) || ifId == Get(i, "id")) && (!Truthy(address) || address == Get(i, "address"))
  }

  /** The position of the first interface matching the criteria. */
  function FirstMatch(ifs: seq<Row>, ifId: Value, address: Value): Option<nat>
    decreases |ifs|
  {
    if ifs == [] then None
    else if Matches(ifs[0], ifId, address) then Some(0)
    else
      match FirstMatch(ifs[1..], ifId, address)
      case None => None
      case Some(k) => Some(k + 1)
  }

  /** `FirstMatch` finds a match with none before it, and finds none only
      when nothing matches. */
  lemma {:induction false} FirstMatchSpec(ifs: seq<Row>, ifId: Value, address: Value)
    ensures var m := FirstMatch(ifs, ifId, address);
      && (m.Some? ==> (m.value < |ifs| && Matches(ifs[m.value], ifId, address)
            && forall j :: 0 <= j < m.value ==> !Matches(ifs[j], ifId, address)))
      && (m.None? <==> forall j :: 0 <= j < |ifs| ==> !Matches(ifs[j], ifId, address))
    decreases |ifs|
  {
    if ifs != [] && !Matches(ifs[0], ifId, address) {
      FirstMatchSpec(ifs[1..], ifId, address);
      var m := FirstMatch(ifs[1..], ifId, address);
      if m.None? {
        forall j | 0 <= j < |ifs|
          ensures !Matches(ifs[j], ifId, address)
        {
          if j > 0 { assert ifs[j] == ifs[1..][j - 1]; }
        }
      } else {
        forall j | 0 <= j < m.value + 1
          ensures !Matches(ifs[j], ifId, address)
        {
          if j > 0 { assert ifs[j] == ifs[1..][j - 1]; }
        }
      }
    }
  }

  /** The list without its `k`th element. */
  function RemoveAt(s: seq<Row>, k: nat): (t: seq<Row>)
    requires k < |s|
    ensures |t| == |s| - 1
  {
    s[..k] + s[k + 1..]
  }

  /** Removing one element keeps the others, in order. */
  lemma RemoveAtKeepsOthers(s: seq<Row>, k: nat)
    requires k < |s|
    ensures forall j :: 0 <= j < k ==> RemoveAt(s, k)[j] == s[j]
    ensures forall j :: k <= j < |s| - 1 ==> RemoveAt(s, k)[j] == s[j + 1]
    ensures multiset(RemoveAt(s, k)) + multiset{s[k]} == multiset(s)
  {
    assert s == s[..k] + [s[k]] + s[k + 1..];
  }

  /** The API's errors: webob's 400 and 404, and the exceptions that pass
      through a handler. */
  datatype ApiError =
    | BadRequest(explanation: string)
    | HttpNotFound
    | KeyError(key: string)
    | InstanceNotFound

  /** A 202 response or a response body. */
  datatype Response = Accepted | Body(body: Value)

  /** What `_remove_interface` decides for the node `id` and the request
      body: the position of the interface to destroy, or the error. */
  function RemovePlan(interfaces: map<Value, seq<Row>>, id: Value, body: Row): (p: Result<nat, ApiError>)
    ensures p.Success? ==> id in interfaces && p.value < |interfaces[id]|
  {
    var ifId := Get(body, "id");
    var address := Get(body, "address");
    if !Truthy(ifId) && !Truthy(address) then Failure(BadRequest("Must specify id or address"))
    else if id !in interfaces then Failure(InstanceNotFound)
    else
      match FirstMatch(interfaces[id], ifId, address)
      case None => Failure(HttpNotFound)
      case Some(k) =>
        FirstMatchSpec(interfaces[id], ifId, address);
        Success(k)
  }

  /** Without an id and an address the removal is refused; otherwise it
      picks the first interface matching every supplied criterion, and
      reports NotFound only if none matches. */
  lemma RemovePlanSpec(interfaces: map<Value, seq<Row>>, id: Value, body: Row)
    ensures var p := RemovePlan(interfaces, id, body);
      var ifId := Get(body, "id");
      var address := Get(body, "address");
      && (!Truthy(ifId) && !Truthy(address) <==> p == Failure(BadRequest("Must specify id or address")))
      && (p.Success? ==> (Matches(interfaces[id][p.value], ifId, address)
            && forall j :: 0 <= j < p.value ==> !Matches(interfaces[id][j], ifId, address)))
      && (p == Failure(HttpNotFound) <==> ((Truthy(ifId) || Truthy(address)) && id in interfaces
            && forall j :: 0 <= j < |interfaces[id]| ==> !Matches(interfaces[id][j], ifId, address)))
      && (p == Failure(InstanceNotFound) <==> (Truthy(ifId) || Truthy(address)) && id !in interfaces)
      && (p.Success? <==> ((Truthy(ifId) || Truthy(address)) && id in interfaces
            && exists j :: 0 <= j < |interfaces[id]| && Matches(interfaces[id][j], ifId, address)))
  {
    if id in interfaces {
      FirstMatchSpec(interfaces[id], Get(body, "id"), Get(body, "address"));
    }
  }

  /** A matching interface given by id alone is the only candidate when ids
      are unique: the removal picks it. */
  lemma RemoveById(interfaces: map<Value, seq<Row>>, id: Value, body: Row, k: nat)
    requires id in interfaces && k < |interfaces[id]|
    requires Truthy(Get(body, "id")) && !Truthy(Get(body, "address"))
    requires Get(interfaces[id][k], "id") == Get(body, "id")
    requires forall j :: 0 <= j < |interfaces[id]| && j != k ==>
      Get(interfaces[id][j], "id") != Get(interfaces[id][k], "id")
    ensures RemovePlan(interfaces, id, body) == Success(k)
  {
    RemovePlanSpec(interfaces, id, body);
    assert Matches(interfaces[id][k], Get(body, "id"), Get(body, "address"));
  }

  // ---------------------------------------------------------------------
  // The store and the controller

  /** The baremetal database as the admin API sees it: the node rows in
      listing order, each node's interface rows (a node without an entry
      makes the interface lookup raise InstanceNotFound), and the next ids
      the store hands out. */
  class AdminDb {
    var nodes: seq<Row>
    var interfaces: map<Value, seq<Row>>
    var nextNodeId: int
    var nextInterfaceId: int

    constructor(nodes0: seq<Row>, interfaces0: map<Value, seq<Row>>, nodeId0: int, interfaceId0: int)
      ensures nodes == nodes0 && interfaces == interfaces0
      ensures nextNodeId == nodeId0 && nextInterfaceId == interfaceId0
    {
      nodes := nodes0;
      interfaces := interfaces0;
      nextNodeId := nodeId0;
      nextInterfaceId := interfaceId0;
    }

    /** The node entries of `index`, one per node in listing order. */
    function Listing(): (l: seq<Value>)
      reads this
      ensures |l| == |nodes|
    {
      seq(|nodes|, k reads this requires 0 <= k < |nodes| =>
        NodeView(nodes[k], InterfacesOrEmpty(interfaces, Get(nodes[k], "id"))))
    }

    /** `index`: every node with its interfaces. */
    method Index() returns (r: Value)
      ensures r == Dict(map["nodes" := List(Listing())])
    {
      var views: seq<Value> := [];
      var i := 0;
      while i < |nodes|
        invariant 0 <= i <= |nodes|
        invariant views == Listing()[..i]
      {
        var ifs := if Get(nodes[i], "id") in interfaces then interfaces[Get(nodes[i], "id")] else [];
        views := views + [NodeView(nodes[i], ifs)];
        i := i + 1;
      }
      assert Listing()[..i] == Listing();
      r := Dict(map["nodes" := List(views)]);
    }

    /** `show`: the node with id `id` and its interfaces, or 404. */
    function Show(id: Value): (r: Result<Value, ApiError>)
      reads this
      ensures r.Failure? <==> forall j :: 0 <= j < |nodes| ==> Get(nodes[j], "id") != id
      ensures r.Failure? ==> r.error == HttpNotFound
      ensures r.Success? ==> exists j :: (0 <= j < |nodes| && Get(nodes[j], "id") == id
        && r.value == Dict(map["node" := NodeView(nodes[j], InterfacesOrEmpty(interfaces, id))]))
    {
      match NodeIndex(nodes, id)
      case None => Failure(HttpNotFound)
      case Some(k) => Success(Dict(map["node" := NodeView(nodes[k], InterfacesOrEmpty(interfaces, id))]))
    }

    /** `create`: the store assigns the next id to the posted columns; the
        response shows the new node with no interfaces. */
    method Create(body: map<string, Row>) returns (r: Result<Value, ApiError>)
      modifies this
      ensures "node" !in body ==> r == Failure(KeyError("node")) && unchanged(this)
      ensures "node" in body ==>
        var row := body["node"]["id" := Int(old(nextNodeId))];
        && r == Success(Dict(map["node" := Dict(NodeDict(row)["interfaces" := List([])])]))
        && nodes == old(nodes) + [row] && nextNodeId == old(nextNodeId) + 1
        && interfaces == old(interfaces) && nextInterfaceId == old(nextInterfaceId)
    {
      if "node" !in body {
        return Failure(KeyError("node"));
      }
      var row := body["node"]["id" := Int(nextNodeId)];
      nodes := nodes + [row];
      nextNodeId := nextNodeId + 1;
      r := Success(Dict(map["node" := Dict(NodeDict(row)["interfaces" := List([])])]));
    }

    /** `_add_interface`: a new row for the node with the posted address,
        datapath id and port, and no vif; the response is its dictionary. */
    method AddInterface(id: Value, body: Row) returns (r: Result<Response, ApiError>)
      modifies this
      ensures "address" !in body ==> r == Failure(KeyError("address")) && unchanged(this)
      ensures "address" in body ==>
        var row := NewInterface(old(nextInterfaceId), id, body);
        && r == Success(Body(Dict(map["interface" := Dict(InterfaceDict(row))])))
        && interfaces == old(interfaces)[id := InterfacesOrEmpty(old(interfaces), id) + [row]]
        && nextInterfaceId == old(nextInterfaceId) + 1
        && nodes == old(nodes) && nextNodeId == old(nextNodeId)
    {
      if "address" !in body {
        return Failure(KeyError("address"));
      }
      var row := NewInterface(nextInterfaceId, id, body);
      var ifs := if id in interfaces then interfaces[id] else [];
      interfaces := interfaces[id := ifs + [row]];
      nextInterfaceId := nextInterfaceId + 1;
      r := Success(Body(Dict(map["interface" := Dict(InterfaceDict(row))])));
    }

    /** `_remove_interface`: the loop over the node's interfaces that skips
        those failing a supplied criterion and destroys the first other. */
    method RemoveInterface(id: Value, body: Row) returns (r: Result<Response, ApiError>)
      modifies this
      ensures var p := RemovePlan(old(interfaces), id, body);
        && r == (if p.Success? then Success(Accepted) else Failure(p.error))
        && interfaces == (if p.Success? then old(interfaces)[id := RemoveAt(old(interfaces)[id], p.value)]
                          else old(interfaces))
        && nodes == old(nodes) && nextNodeId == old(nextNodeId) && nextInterfaceId == old(nextInterfaceId)
    {
      var ifId := Get(body, "id");
      var address := Get(body, "address");
      if !Truthy(ifId) && !Truthy(address) {
        return Failure(BadRequest("Must specify id or address"));
      }
      if id !in interfaces {
        return Failure(InstanceNotFound);
      }
      var ifs := interfaces[id];
      FirstMatchSpec(ifs, ifId, address);
      var i := 0;
      while i < |ifs|
        invariant 0 <= i <= |ifs|
        invariant forall j :: 0 <= j < i ==> !Matches(ifs[j], ifId, address)
      {
        if Truthy(ifId) && ifId != Get(ifs[i], "id") {
          i := i + 1;
          continue;
        }
        if Truthy(address) && address != Get(ifs[i], "address") {
          i := i + 1;
          continue;
        }
        interfaces := interfaces[id := RemoveAt(ifs, i)];
        return Success(Accepted);
      }
      r := Failure(HttpNotFound);
    }

    /** `action`: 404 for an unknown node; otherwise the first entry of the
        body names the handler, and an unknown name, an empty body or a
        KeyError inside the handler is a 400. */
    method Action(id: Value, body: seq<(string, Row)>) returns (r: Result<Response, ApiError>)
      modifies this
      ensures NodeIndex(old(nodes), id).None? ==> r == Failure(HttpNotFound) && unchanged(this)
      ensures NodeIndex(old(nodes), id).Some? && body == [] ==>
        r == Failure(BadRequest(InvalidBody)) && unchanged(this)
      ensures NodeIndex(old(nodes), id).Some? && body != [] && !IsAction(body[0].0) ==>
        r == Failure(BadRequest(NoSuchAction(body[0].0))) && unchanged(this)
      ensures NodeIndex(old(nodes), id).Some? && body != [] && body[0].0 == "add_interface" ==>
        if "address" in body[0].1 then
          var row := NewInterface(old(nextInterfaceId), id, body[0].1);
          && r == Success(Body(Dict(map["interface" := Dict(InterfaceDict(row))])))
          && interfaces == old(interfaces)[id := InterfacesOrEmpty(old(interfaces), id) + [row]]
          && nextInterfaceId == old(nextInterfaceId) + 1
        else r == Failure(BadRequest(NoSuchAction("add_interface"))) && unchanged(this)
      ensures NodeIndex(old(nodes), id).Some? && body != [] && body[0].0 == "remove_interface" ==>
        var p := RemovePlan(old(interfaces), id, body[0].1);
        && r == (if p.Success? then Success(Accepted) else Failure(p.error))
        && interfaces == (if p.Success? then old(interfaces)[id := RemoveAt(old(interfaces)[id], p.value)]
                          else old(interfaces))
        && nextInterfaceId == old(nextInterfaceId)
      ensures r.Failure? ==> !r.error.KeyError?
      ensures nodes == old(nodes) && nextNodeId == old(nextNodeId)
    {
      if NodeIndex(nodes, id).None? {
        return Failure(HttpNotFound);
      }
      if body == [] {
        return Failure(BadRequest(InvalidBody));
      }
      var (action, data) := body[0];
      if action == "add_interface" {
        r := AddInterface(id, data);
      } else if action == "remove_interface" {
        r := RemoveInterface(id, data);
      } else {
        r := Failure(KeyError(action));
      }
      if r.Failure? && r.error.KeyError? {
        r := Failure(BadRequest(NoSuchAction(action)));
      }
    }
  }

  /** The row `bm_interface_create` stores for the posted body. */
  function NewInterface(newId: int, nodeId: Value, body: Row): Row
    requires "address" in body
  {
    map["id" := Int(newId), "bm_node_id" := nodeId, "address" := body["address"],
        "datapath_id" := Get(body, "datapath_id"), "port_no" := Get(body, "port_no"), "vif_uuid" := Null]
  }

  /** The names `action` dispatches on. */
  predicate IsAction(name: string)
  {
    name == "add_interface" || name == "remove_interface"
  }

  const InvalidBody := "Invalid request body"

  /** The explanation of the 400 for an unknown action or a KeyError. */
  function NoSuchAction(action: string): string
  {
    "BareMetalNodes does not have " + action + " action"
  }
}

/** The group service (groups.go): listing (all, or by inventory), creating
    with validation, updating, deleting, adding a host and adding a child
    group. */
module Groups {
  import opened Wrappers
  import opened Common
  import opened Request
  import Format

  const GroupsPath := "/api/v2/groups/"

  const Mandatory: seq<string> := ["name", "inventory"]

  function GroupPath(id: int): string { GroupsPath + Format.Decimal(id) }

  function InventoryGroupsPath(inventoryId: int): string
  {
    "/api/v2/inventories/" + Format.Decimal(inventoryId) + "/groups/"
  }

  function GroupHostsPath(id: int): string { GroupsPath + Format.Decimal(id) + "/hosts/" }

  function GroupChildrenPath(id: int): string { GroupsPath + Format.Decimal(id) + "/children/" }

  /** The payload literal of `AddHostToGroup`. */
  function HostPayload(inventoryId: int, name: string): (p: Json)
    ensures p.JObject? && p.fields.Keys == {"inventory", "name"}
    ensures p.fields["inventory"] == JNumber(inventoryId) && p.fields["name"] == JString(name)
  {
    JObject(map["inventory" := JNumber(inventoryId), "name" := JString(name)])
  }

  /** The payload literal of `AddChildrenToGroup`. */
  function ChildPayload(childGroupId: int): (p: Json)
    ensures p.JObject? && p.fields.Keys == {"id"} && p.fields["id"] == JNumber(childGroupId)
  {
    JObject(map["id" := JNumber(childGroupId)])
  }

  method ListGroups(r: Requester, params: Option<map<string, string>>, reply: Reply)
    returns (wire: Option<Wire>, result: Result<Json, Error>)
    ensures var o := r.GetOutcome(GroupsPath, true, params, reply);
      wire == o.wire && result == Delivered(o, EmptyObject)
  {
    var box := new ResultBox(EmptyObject);
    var response;
    wire, response := r.Get(GroupsPath, box, params, reply);
    result := if response.Err? then Err(response.error) else Ok(box.doc);
  }

  /** `ListGroupsByInventoryId` passes a nil query. */
  method ListGroupsByInventoryId(r: Requester, inventoryId: int, reply: Reply)
    returns (wire: Option<Wire>, result: Result<Json, Error>)
    ensures var o := r.GetOutcome(InventoryGroupsPath(inventoryId), true, None, reply);
      wire == o.wire && result == Delivered(o, EmptyObject)
  {
    var box := new ResultBox(EmptyObject);
    var response;
    wire, response := r.Get(InventoryGroupsPath(inventoryId), box, None, reply);
    result := if response.Err? then Err(response.error) else Ok(box.doc);
  }

  /** `CreateGroup`: without `name` and `inventory` no request is made. */
  method CreateGroup(r: Requester, data: map<string, Json>, reply: Reply)
    returns (wire: Option<Wire>, result: Result<Json, Error>)
    ensures var missing := Missing(Mandatory, data);
      missing != [] ==> wire == None && result == Err(MissingFields(missing))
    ensures var o := r.SendOutcome(POST, GroupsPath, Some(JObject(data)), reply);
      Missing(Mandatory, data) == [] ==> wire == o.wire && result == Delivered(o, EmptyObject)
  {
    var notfound, status := ValidateParams(data, Mandatory);
    if !status {
      return None, Err(MissingFields(notfound));
    }
    var box := new ResultBox(EmptyObject);
    var response;
    wire, response := r.Post(GroupsPath, Some(JObject(data)), box, reply);
    result := if response.Err? then Err(response.error) else Ok(box.doc);
  }

  method UpdateGroup(r: Requester, id: int, data: map<string, Json>, reply: Reply)
    returns (wire: Option<Wire>, result: Result<Json, Error>)
    ensures var o := r.SendOutcome(PATCH, GroupPath(id), Some(JObject(data)), reply);
      wire == o.wire && result == Delivered(o, EmptyObject)
  {
    var box := new ResultBox(EmptyObject);
    var response;
    wire, response := r.Patch(GroupPath(id), Some(JObject(data)), box, reply);
    result := if response.Err? then Err(response.error) else Ok(box.doc);
  }

  method DeleteGroup(r: Requester, id: int, reply: Reply)
    returns (wire: Option<Wire>, err: Option<Error>)
    ensures var o := r.DeleteOutcome(GroupPath(id), reply);
      wire == o.wire && err == (if o.result.Err? then Some(o.result.error) else None)
  {
    var response;
    wire, response := r.Delete(GroupPath(id), reply);
    err := if response.Err? then Some(response.error) else None;
  }

  /** `AddHostToGroup` POSTs `{inventory, name}` and hands `Post` no result
      container. */
  method AddHostToGroup(r: Requester, id: int, inventoryId: int, name: string, reply: Reply)
    returns (wire: Option<Wire>, err: Option<Error>)
    ensures var o := r.SendOutcome(POST, GroupHostsPath(id), Some(HostPayload(inventoryId, name)), reply);
      wire == o.wire && err == (if o.result.Err? then Some(o.result.error) else None)
  {
    var response;
    wire, response := r.Post(GroupHostsPath(id), Some(HostPayload(inventoryId, name)), null, reply);
    err := if response.Err? then Some(response.error) else None;
  }

  /** `AddChildrenToGroup` POSTs `{"id": childGroupId}`. */
  method AddChildrenToGroup(r: Requester, id: int, childGroupId: int, reply: Reply)
    returns (wire: Option<Wire>, result: Result<Json, Error>)
    ensures var o := r.SendOutcome(POST, GroupChildrenPath(id), Some(ChildPayload(childGroupId)), reply);
      wire == o.wire && result == Delivered(o, EmptyObject)
  {
    var box := new ResultBox(EmptyObject);
    var response;
    wire, response := r.Post(GroupChildrenPath(id), Some(ChildPayload(childGroupId)), box, reply);
    result := if response.Err? then Err(response.error) else Ok(box.doc);
  }

  // ---------------------------------------------------------------------------
  // Properties

  /** Update and delete build `/api/v2/groups/{id}` and send it with one slash
      appended; the other paths already end in `/`. */
  lemma GroupEndpoints(id: int, inventoryId: int)
    ensures Normalize(POST, GroupsPath) == "/api/v2/groups/"
    ensures Normalize(GET, InventoryGroupsPath(inventoryId)) == InventoryGroupsPath(inventoryId)
    ensures Normalize(PATCH, GroupPath(id)) == "/api/v2/groups/" + Format.Decimal(id) + "/"
    ensures Normalize(DELETE, GroupPath(id)) == "/api/v2/groups/" + Format.Decimal(id) + "/"
    ensures Normalize(POST, GroupHostsPath(id)) == "/api/v2/groups/" + Format.Decimal(id) + "/hosts/"
    ensures Normalize(POST, GroupChildrenPath(id)) == "/api/v2/groups/" + Format.Decimal(id) + "/children/"
  {
    IdEndpointGetsSlash(PATCH, GroupsPath, id);
    IdEndpointGetsSlash(DELETE, GroupsPath, id);
  }

  /** Listing by inventory keeps the URL's own query (none is set). */
  lemma ListByInventoryKeepsQuery(r: Requester, inventoryId: int, reply: Reply)
    ensures var o := r.GetOutcome(InventoryGroupsPath(inventoryId), true, None, reply);
      o.wire.Some? ==> o.wire.value.query == None
  {
    ExchangeBodyAndQuery(r, Descriptor(GET, InventoryGroupsPath(inventoryId), None, map[], None, ""), true, reply);
  }

  /** The body of `AddHostToGroup` is the JSON encoding of exactly
      `{inventory, name}`. */
  lemma AddHostToGroupBody(r: Requester, id: int, inventoryId: int, name: string, reply: Reply)
    ensures var o := r.SendOutcome(POST, GroupHostsPath(id), Some(HostPayload(inventoryId, name)), reply);
      o.wire.Some? ==> o.wire.value.body == r.lib.marshal(HostPayload(inventoryId, name))
  {
    ExchangeBodyAndQuery(r, Descriptor(POST, GroupHostsPath(id), Some(HostPayload(inventoryId, name)),
                                       JsonContentType, Some(map[]), ""), true, reply);
  }
}

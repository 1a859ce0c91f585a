/** The inventory service (inventory.go): listing, creating with validation,
    updating, fetching, deleting, and starting a sync of an inventory's
    sources. */
module Inventories {
  import opened Wrappers
  import opened Common
  import opened Request
  import Format

  const InventoriesPath := "/api/v2/inventories/"

  const Mandatory: seq<string> := ["name", "organization"]

  function InventoryPath(id: int): string { InventoriesPath + Format.Decimal(id) }

  function SyncPath(id: int): string { InventoriesPath + Format.Decimal(id) + "/update_inventory_sources/" }

  /** The zero value of the `[]*InventoryUpdate` result: an empty slice. */
  const NoUpdates: Json := JArray([])

  method ListInventories(r: Requester, params: Option<map<string, string>>, reply: Reply)
    returns (wire: Option<Wire>, result: Result<Json, Error>)
    ensures var o := r.GetOutcome(InventoriesPath, true, params, reply);
      wire == o.wire && result == Delivered(o, EmptyObject)
  {
    var box := new ResultBox(EmptyObject);
    var response;
    wire, response := r.Get(InventoriesPath, box, params, reply);
    result := if response.Err? then Err(response.error) else Ok(box.doc);
  }

  /** `CreateInventory`: without `name` and `organization` no request is made. */
  method CreateInventory(r: Requester, data: map<string, Json>, reply: Reply)
    returns (wire: Option<Wire>, result: Result<Json, Error>)
    ensures var missing := Missing(Mandatory, data);
      missing != [] ==> wire == None && result == Err(MissingFields(missing))
    ensures var o := r.SendOutcome(POST, InventoriesPath, Some(JObject(data)), reply);
      Missing(Mandatory, data) == [] ==> wire == o.wire && result == Delivered(o, EmptyObject)
  {
    var notfound, status := ValidateParams(data, Mandatory);
    if !status {
      return None, Err(MissingFields(notfound));
    }
    var box := new ResultBox(EmptyObject);
    var response;
    wire, response := r.Post(InventoriesPath, Some(JObject(data)), box, reply);
    result := if response.Err? then Err(response.error) else Ok(box.doc);
  }

  method UpdateInventory(r: Requester, id: int, data: map<string, Json>, reply: Reply)
    returns (wire: Option<Wire>, result: Result<Json, Error>)
    ensures var o := r.SendOutcome(PATCH, InventoryPath(id), Some(JObject(data)), reply);
      wire == o.wire && result == Delivered(o, EmptyObject)
  {
    var box := new ResultBox(EmptyObject);
    var response;
    wire, response := r.Patch(InventoryPath(id), Some(JObject(data)), box, reply);
    result := if response.Err? then Err(response.error) else Ok(box.doc);
  }

  /** `GetInventory` passes an empty, non-nil query map. */
  method GetInventory(r: Requester, id: int, reply: Reply)
    returns (wire: Option<Wire>, result: Result<Json, Error>)
    ensures var o := r.GetOutcome(InventoryPath(id), true, Some(map[]), reply);
      wire == o.wire && result == Delivered(o, EmptyObject)
  {
    var box := new ResultBox(EmptyObject);
    var response;
    wire, response := r.Get(InventoryPath(id), box, Some(map[]), reply);
    result := if response.Err? then Err(response.error) else Ok(box.doc);
  }

  method DeleteInventory(r: Requester, id: int, reply: Reply)
    returns (wire: Option<Wire>, err: Option<Error>)
    ensures var o := r.DeleteOutcome(InventoryPath(id), reply);
      wire == o.wire && err == (if o.result.Err? then Some(o.result.error) else None)
  {
    var response;
    wire, response := r.Delete(InventoryPath(id), reply);
    err := if response.Err? then Some(response.error) else None;
  }

  /** `SyncInventorySourcesByInventoryID` POSTs a nil payload. */
  method SyncInventorySourcesByInventoryID(r: Requester, id: int, reply: Reply)
    returns (wire: Option<Wire>, result: Result<Json, Error>)
    ensures var o := r.SendOutcome(POST, SyncPath(id), None, reply);
      wire == o.wire && result == Delivered(o, NoUpdates)
  {
    var box := new ResultBox(NoUpdates);
    var response;
    wire, response := r.Post(SyncPath(id), None, box, reply);
    result := if response.Err? then Err(response.error) else Ok(box.doc);
  }

  // ---------------------------------------------------------------------------
  // Properties

  /** Fetch, update and delete build `/api/v2/inventories/{id}` and send it
      with one slash appended; the sync path already ends in `/`. */
  lemma InventoryEndpoints(id: int)
    ensures Normalize(POST, InventoriesPath) == "/api/v2/inventories/"
    ensures Normalize(GET, InventoryPath(id)) == "/api/v2/inventories/" + Format.Decimal(id) + "/"
    ensures Normalize(PATCH, InventoryPath(id)) == "/api/v2/inventories/" + Format.Decimal(id) + "/"
    ensures Normalize(DELETE, InventoryPath(id)) == "/api/v2/inventories/" + Format.Decimal(id) + "/"
    ensures Normalize(POST, SyncPath(id)) == "/api/v2/inventories/" + Format.Decimal(id) + "/update_inventory_sources/"
  {
    IdEndpointGetsSlash(GET, InventoriesPath, id);
    IdEndpointGetsSlash(PATCH, InventoriesPath, id);
    IdEndpointGetsSlash(DELETE, InventoriesPath, id);
  }

  /** `GetInventory` replaces the URL's query with an empty one. */
  lemma GetInventoryEmptyQuery(r: Requester, id: int, reply: Reply)
    ensures var o := r.GetOutcome(InventoryPath(id), true, Some(map[]), reply);
      o.wire.Some? ==> o.wire.value.query == Some(map[])
  {
    ExchangeBodyAndQuery(r, Descriptor(GET, InventoryPath(id), None, map[], Some(map[]), ""), true, reply);
  }

  /** A 2xx sync reply whose body is `null` returns the empty list, not `null`:
      the decoder leaves the caller's slice alone. */
  lemma SyncNullBodyGivesEmptyList(r: Requester, id: int, status: int, body: Bytes)
    requires IsSuccess(status) && |body| > 0 && r.lib.unmarshal(body) == Some(JNull)
    ensures var o := r.SendOutcome(POST, SyncPath(id), None, Received(status, body));
      o.wire.Some? ==> Delivered(o, NoUpdates) == Ok(NoUpdates)
  {
    NullBodyKeepsContainer(r, Descriptor(POST, SyncPath(id), None, JsonContentType, Some(map[]), ""), true, status, body);
  }

  /** The sync request carries no body. */
  lemma SyncSendsNoBody(r: Requester, id: int, reply: Reply)
    ensures var o := r.SendOutcome(POST, SyncPath(id), None, reply);
      o.wire.Some? ==> o.wire.value.body.None?
  {
    ExchangeBodyAndQuery(r, Descriptor(POST, SyncPath(id), None, JsonContentType, Some(map[]), ""), true, reply);
  }
}

/** The host service (hosts.go): listing, creating with validation, updating,
    (dis)associating a group, deleting. The association methods write their
    flag into the caller's data map before validating it. */
module Hosts {
  import opened Wrappers
  import opened Common
  import opened Request
  import Format

  const HostsPath := "/api/v2/hosts/"

  const Mandatory: seq<string> := ["name", "inventory"]

  function HostPath(id: int): string { HostsPath + Format.Decimal(id) }

  function HostGroupsPath(id: int): string { HostsPath + Format.Decimal(id) + "/groups/" }

  method ListHosts(r: Requester, params: Option<map<string, string>>, reply: Reply)
    returns (wire: Option<Wire>, result: Result<Json, Error>)
    ensures var o := r.GetOutcome(HostsPath, true, params, reply);
      wire == o.wire && result == Delivered(o, EmptyObject)
  {
    var box := new ResultBox(EmptyObject);
    var response;
    wire, response := r.Get(HostsPath, box, params, reply);
    result := if response.Err? then Err(response.error) else Ok(box.doc);
  }

  /** `CreateHost`: without `name` and `inventory` no request is made. */
  method CreateHost(r: Requester, data: map<string, Json>, reply: Reply)
    returns (wire: Option<Wire>, result: Result<Json, Error>)
    ensures var missing := Missing(Mandatory, data);
      missing != [] ==> wire == None && result == Err(MissingFields(missing))
    ensures var o := r.SendOutcome(POST, HostsPath, Some(JObject(data)), reply);
      Missing(Mandatory, data) == [] ==> wire == o.wire && result == Delivered(o, EmptyObject)
  {
    var notfound, status := ValidateParams(data, Mandatory);
    if !status {
      return None, Err(MissingFields(notfound));
    }
    var box := new ResultBox(EmptyObject);
    var response;
    wire, response := r.Post(HostsPath, Some(JObject(data)), box, reply);
    result := if response.Err? then Err(response.error) else Ok(box.doc);
  }

  method UpdateHost(r: Requester, id: int, data: map<string, Json>, reply: Reply)
    returns (wire: Option<Wire>, result: Result<Json, Error>)
    ensures var o := r.SendOutcome(PATCH, HostPath(id), Some(JObject(data)), reply);
      wire == o.wire && result == Delivered(o, EmptyObject)
  {
    var box := new ResultBox(EmptyObject);
    var response;
    wire, response := r.Patch(HostPath(id), Some(JObject(data)), box, reply);
    result := if response.Err? then Err(response.error) else Ok(box.doc);
  }

  /** The body shared by `AssociateGroup` and `DisAssociateGroup`: set `flag`
      in the caller's map, require `id`, then POST the map. */
  method PostGroupFlag(r: Requester, id: int, data: DataMap, flag: string, reply: Reply)
    returns (wire: Option<Wire>, result: Result<Json, Error>)
    requires flag != "id"
    modifies data
    ensures data.entries == old(data.entries)[flag := JBool(true)]
    ensures "id" !in old(data.entries) ==> wire == None && result == Err(MissingFields(["id"]))
    ensures var o := r.SendOutcome(POST, HostGroupsPath(id), Some(JObject(data.entries)), reply);
      "id" in old(data.entries) ==> wire == o.wire && result == Delivered(o, EmptyObject)
  {
    data.entries := data.entries[flag := JBool(true)];
    var notfound, status := ValidateParams(data.entries, ["id"]);
    if !status {
      assert notfound == ["id"] by {
        assert ["id"][..0] == [];
      }
      return None, Err(MissingFields(notfound));
    }
    var box := new ResultBox(EmptyObject);
    var response;
    wire, response := r.Post(HostGroupsPath(id), Some(JObject(data.entries)), box, reply);
    result := if response.Err? then Err(response.error) else Ok(box.doc);
  }

  /** `AssociateGroup`: the caller's map keeps `associate = true` even when
      validation then fails. */
  method AssociateGroup(r: Requester, id: int, data: DataMap, reply: Reply)
    returns (wire: Option<Wire>, result: Result<Json, Error>)
    modifies data
    ensures data.entries == old(data.entries)["associate" := JBool(true)]
    ensures "id" !in old(data.entries) ==> wire == None && result == Err(MissingFields(["id"]))
    ensures var o := r.SendOutcome(POST, HostGroupsPath(id), Some(JObject(data.entries)), reply);
      "id" in old(data.entries) ==> wire == o.wire && result == Delivered(o, EmptyObject)
  {
    wire, result := PostGroupFlag(r, id, data, "associate", reply);
  }

  /** `DisAssociateGroup`: as `AssociateGroup` with `disassociate = true`; its
      `params` argument is never used, so nothing here depends on it. */
  method DisAssociateGroup(r: Requester, id: int, data: DataMap, params: Option<map<string, string>>, reply: Reply)
    returns (wire: Option<Wire>, result: Result<Json, Error>)
    modifies data
    ensures data.entries == old(data.entries)["disassociate" := JBool(true)]
    ensures "id" !in old(data.entries) ==> wire == None && result == Err(MissingFields(["id"]))
    ensures var o := r.SendOutcome(POST, HostGroupsPath(id), Some(JObject(data.entries)), reply);
      "id" in old(data.entries) ==> wire == o.wire && result == Delivered(o, EmptyObject)
  {
    wire, result := PostGroupFlag(r, id, data, "disassociate", reply);
  }

  method DeleteHost(r: Requester, id: int, reply: Reply)
    returns (wire: Option<Wire>, err: Option<Error>)
    ensures var o := r.DeleteOutcome(HostPath(id), reply);
      wire == o.wire && err == (if o.result.Err? then Some(o.result.error) else None)
  {
    var response;
    wire, response := r.Delete(HostPath(id), reply);
    err := if response.Err? then Some(response.error) else None;
  }

  // ---------------------------------------------------------------------------
  // Properties

  /** Update and delete build `/api/v2/hosts/{id}` and send it with one slash
      appended; creation and association POST to paths ending in `/`. */
  lemma HostEndpoints(id: int)
    ensures Normalize(POST, HostsPath) == "/api/v2/hosts/"
    ensures Normalize(POST, HostGroupsPath(id)) == "/api/v2/hosts/" + Format.Decimal(id) + "/groups/"
    ensures Normalize(PATCH, HostPath(id)) == "/api/v2/hosts/" + Format.Decimal(id) + "/"
    ensures Normalize(DELETE, HostPath(id)) == "/api/v2/hosts/" + Format.Decimal(id) + "/"
  {
    IdEndpointGetsSlash(PATCH, HostsPath, id);
    IdEndpointGetsSlash(DELETE, HostsPath, id);
  }
}

/** The job-template service (job_template.go): listing, creating with
    mandatory-field validation, launching with the job-id check, updating and
    deleting. Each method takes the `Reply` the server gives to its one
    request. */
module JobTemplates {
  import opened Wrappers
  import opened Common
  import opened Request
  import Format

  const TemplatesPath := "/api/v2/job_templates/"

  const Mandatory: seq<string> := ["name", "job_type", "inventory", "project"]

  function TemplatePath(id: int): string { TemplatesPath + Format.Decimal(id) }

  function LaunchPath(id: int): string { TemplatesPath + Format.Decimal(id) + "/launch/" }

  /** `JobLaunch.Job`: the decoded `job` number, 0 when absent. */
  function JobId(doc: Json): int
  {
    if doc.JObject? && "job" in doc.fields && doc.fields["job"].JNumber? then doc.fields["job"].n else 0
  }

  /** What `Launch` returns after its POST: the requester's error, or the
      launch record when it names a job, or "invalid job id 0". */
  function LaunchResult(o: Outcome): (r: Result<Json, Error>)
    ensures o.result.Err? ==> r == Err(o.result.error)
    ensures r.Ok? ==> o.result.Ok? && o.decoded == Some(r.value) && JobId(r.value) != 0
    ensures o.result.Ok? && JobId(Filled(o, EmptyObject)) == 0 ==> r == Err(InvalidJobId)
    ensures o.result.Ok? && JobId(Filled(o, EmptyObject)) != 0 ==> r == Ok(Filled(o, EmptyObject))
  {
    match Delivered(o, EmptyObject)
    case Err(e) => Err(e)
    case Ok(doc) => if JobId(doc) == 0 then Err(InvalidJobId) else Ok(doc)
  }

  method ListJobTemplates(r: Requester, params: Option<map<string, string>>, reply: Reply)
    returns (wire: Option<Wire>, result: Result<Json, Error>)
    ensures var o := r.GetOutcome(TemplatesPath, true, params, reply);
      wire == o.wire && result == Delivered(o, EmptyObject)
  {
    var box := new ResultBox(EmptyObject);
    var response;
    wire, response := r.Get(TemplatesPath, box, params, reply);
    result := if response.Err? then Err(response.error) else Ok(box.doc);
  }

  method Launch(r: Requester, id: int, data: map<string, Json>, reply: Reply)
    returns (wire: Option<Wire>, result: Result<Json, Error>)
    ensures var o := r.SendOutcome(POST, LaunchPath(id), Some(JObject(data)), reply);
      wire == o.wire && result == LaunchResult(o)
  {
    var box := new ResultBox(EmptyObject);
    var response;
    wire, response := r.Post(LaunchPath(id), Some(JObject(data)), box, reply);
    if response.Err? {
      return wire, Err(response.error);
    }
    if JobId(box.doc) == 0 {
      return wire, Err(InvalidJobId);
    }
    result := Ok(box.doc);
  }

  /** `CreateJobTemplate`: without `name`, `job_type`, `inventory` and
      `project` no request is made. */
  method CreateJobTemplate(r: Requester, data: map<string, Json>, reply: Reply)
    returns (wire: Option<Wire>, result: Result<Json, Error>)
    ensures var missing := Missing(Mandatory, data);
      missing != [] ==> wire == None && result == Err(MissingFields(missing))
    ensures var o := r.SendOutcome(POST, TemplatesPath, Some(JObject(data)), reply);
      Missing(Mandatory, data) == [] ==> wire == o.wire && result == Delivered(o, EmptyObject)
  {
    var notfound, status := ValidateParams(data, Mandatory);
    if !status {
      return None, Err(MissingFields(notfound));
    }
    var box := new ResultBox(EmptyObject);
    var response;
    wire, response := r.Post(TemplatesPath, Some(JObject(data)), box, reply);
    result := if response.Err? then Err(response.error) else Ok(box.doc);
  }

  method UpdateJobTemplate(r: Requester, id: int, data: map<string, Json>, reply: Reply)
    returns (wire: Option<Wire>, result: Result<Json, Error>)
    ensures var o := r.SendOutcome(PATCH, TemplatePath(id), Some(JObject(data)), reply);
      wire == o.wire && result == Delivered(o, EmptyObject)
  {
    var box := new ResultBox(EmptyObject);
    var response;
    wire, response := r.Patch(TemplatePath(id), Some(JObject(data)), box, reply);
    result := if response.Err? then Err(response.error) else Ok(box.doc);
  }

  method DeleteJobTemplate(r: Requester, id: int, reply: Reply)
    returns (wire: Option<Wire>, err: Option<Error>)
    ensures var o := r.DeleteOutcome(TemplatePath(id), reply);
      wire == o.wire && err == (if o.result.Err? then Some(o.result.error) else None)
  {
    var response;
    wire, response := r.Delete(TemplatePath(id), reply);
    err := if response.Err? then Some(response.error) else None;
  }

  // ---------------------------------------------------------------------------
  // Properties

  /** Creation and launch POST to paths that already end in `/` and are sent
      as written; update and delete build `.../job_templates/{id}` and send it
      with one slash appended (the target is `Base` plus these, by
      `SendRequestShape` and `DeleteRequestShape`). */
  lemma TemplateEndpoints(id: int)
    ensures Normalize(POST, TemplatesPath) == "/api/v2/job_templates/"
    ensures Normalize(POST, LaunchPath(id)) == "/api/v2/job_templates/" + Format.Decimal(id) + "/launch/"
    ensures Normalize(PATCH, TemplatePath(id)) == "/api/v2/job_templates/" + Format.Decimal(id) + "/"
    ensures Normalize(DELETE, TemplatePath(id)) == "/api/v2/job_templates/" + Format.Decimal(id) + "/"
  {
    IdEndpointGetsSlash(PATCH, TemplatesPath, id);
    IdEndpointGetsSlash(DELETE, TemplatesPath, id);
  }

  /** A 2xx launch reply with an empty body decodes nothing, so the job id
      stays 0 and `Launch` fails with "invalid job id 0". A reply naming job 0
      fails the same way. */
  lemma LaunchRejectsJobZero(r: Requester, id: int, data: map<string, Json>, status: int, body: Bytes)
    requires IsSuccess(status)
    requires |body| == 0 || (r.lib.unmarshal(body).Some? && JobId(r.lib.unmarshal(body).value) == 0)
    ensures var o := r.SendOutcome(POST, LaunchPath(id), Some(JObject(data)), Received(status, body));
      o.wire.Some? ==> LaunchResult(o) == Err(InvalidJobId)
  {
  }

  /** A reply naming a non-zero job is returned as the launch record. */
  lemma LaunchAcceptsJob(r: Requester, id: int, data: map<string, Json>, status: int, body: Bytes)
    requires IsSuccess(status) && |body| > 0
    requires r.lib.unmarshal(body).Some? && JobId(r.lib.unmarshal(body).value) != 0
    ensures var o := r.SendOutcome(POST, LaunchPath(id), Some(JObject(data)), Received(status, body));
      o.wire.Some? ==> LaunchResult(o) == Ok(r.lib.unmarshal(body).value)
  {
  }
}

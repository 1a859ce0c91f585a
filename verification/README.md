# awx-go client core in Dafny

This project models the request core of `awx-go`, a Go client for the AWX
(Ansible Tower) REST API. It covers three parts:

- **The requester** (`request.go`): `Requester.Do`. It appends a trailing slash
  to every non-POST endpoint that does not already end in one, in place on the
  request descriptor. It builds the
  URL as `Base + Endpoint + Suffix` and replaces the query only when a query map
  is given. It sends a body only when there is a payload. It writes the
  authentication header first and the caller's headers after it. A status
  outside the 2xx success class (section 15.3 of RFC 9110) becomes an error that
  carries the code and the raw body. A non-empty body is decoded into the
  caller's result container when one is given; a `null` body leaves the
  container as it was. The file also holds
  `NewAPIRequest`, `SetHeader`, the `Get`/`Post`/`Put`/`Patch`/`Delete`
  wrappers, `ValidateParams`, and the Basic and Bearer (section 2.1 of
  RFC 6750) authentication schemes.
- **Job polling** (`utils.go`): the job-status predicate of
  `WaitForSuccessJobFinish`, and the sequential decision rule of `waitFor`.
  Before each one-second tick, `waitFor` checks the overall timeout. A negative
  timeout switches that check off. A predicate error wins over `done`, and
  `done = false` goes on polling.
- **Services**: job templates (`job_template.go`), hosts (`hosts.go`),
  inventories (`inventory.go`) and groups (`groups.go`). Each service method
  builds a fixed endpoint, makes one requester call and returns the
  requester's error unchanged or the filled result (only the error for the
  Delete methods and `AddHostToGroup`). The Create methods and the
  two group-association methods first check mandatory fields and issue no
  request when one is missing. `Launch` also rejects a job id of 0.
  `AssociateGroup` and `DisAssociateGroup` write a flag into the caller's map
  before validating it.

The model has the following layout:

- `Request.APIRequest` is a class whose `endpoint` `Do` rewrites in place.
- A caller's result value is a `ResultBox` object that `Do` fills.
- A caller's mutable data map is a `DataMap`.
- The requester is a value: a base URL, an optional `Auth`, and a `Library` of
  opaque, possibly failing functions. These stand for URL parsing, JSON
  encoding and decoding, and the Base64 step of Basic authentication.
- The network's answer to the one request a method sends is an input `Reply`.
  It is either a send failure, a body-read failure, or a status with a body.
- Every method returns the `Wire` request it put on the network, or `None`
  when it sent nothing. Properties such as "no request is issued" and "the
  endpoint sent ends in `{id}/`" can then be stated directly.
- `Do` is specified by the function `Requester.Exchange`. The five wrappers are
  specified by `GetOutcome`, `SendOutcome` and `DeleteOutcome`.
- `Post`, `Put` and `Patch` hand `Do` a pointer to their own `responseStruct`
  parameter (`request.go:92`). That pointer is never nil, so for these three
  methods `Do` always has a container. This holds even when the caller passes
  nil, as `AddHostToGroup` does, in which case the decoded value is dropped.
  The model keeps this behaviour as written: `SendOutcome` always gives `Do` a container.
- `fmt.Sprintf("%d", id)` is `Format.Decimal`. `Format.DecimalInjective`
  proves that distinct ids give distinct endpoints.

## Model

| member | source | states |
|---|---|---|
| Format.Digits | job_template.go:163 | the `%d` rendering of a natural number is a non-empty digit string, one digit long exactly below 10 |
| Format.Decimal | job_template.go:163 | the `%d` rendering of any integer is non-empty, ends in a digit and contains no `/`; it starts with a digit exactly when the number is non-negative |
| Format.DigitsRoundTrip | job_template.go:163 | reading the digits back gives the number |
| Format.DecimalRoundTrip | job_template.go:163 | reading the `%d` rendering of any integer back, sign included, gives the integer |
| Format.DecimalInjective | job_template.go:163 | distinct ids are rendered differently, so distinct ids give distinct endpoints |
| Request.Normalize | request.go:136-138 | a POST endpoint is unchanged; any other endpoint ends in `/` and is the original or the original plus exactly one `/`; an endpoint already ending in `/` is unchanged |
| Request.NormalizeIdempotent | request.go:136-138 | normalising twice is normalising once |
| Request.IdEndpointGetsSlash | request.go:136-138 | a path built as `prefix + "%d"` is sent with exactly one `/` appended by every method but POST, and unchanged by POST |
| Request.AddHeaders | request.go:173-175 | `Header.Add` of every caller key's first value: keys are the union, caller values are appended after existing ones, other keys are untouched |
| Request.Auth.SetAuthorizationHeader | request.go:24-35 | the scheme sets `Authorization` to a single value, leaving all other headers as they were; for a token that value is exactly `"Bearer " + Token` |
| Request.AddCallerHeaders | request.go:173-175 | the header-copying loop computes `AddHeaders` |
| Request.QueryValues | request.go:145-152 | the query values have the query map's keys, each with the single value given |
| Request.EncodeQuery | request.go:146-149 | the `Set` loop computes `QueryValues` |
| Request.Missing | request.go:119-130 | the fields reported missing are exactly the mandatory fields that are not keys of the data, and there are no more of them than mandatory fields |
| Request.MissingAppend | request.go:121-127 | checking two lists of fields one after the other reports the missing fields of the first list, then those of the second |
| Request.MissingSnoc | request.go:121-127 | checking one more field appends it exactly when it is absent |
| Request.MissingStep | request.go:121-127 | one loop step appends the current field exactly when it is absent |
| Request.ValidateParams | request.go:119-130 | `notfound` lists the absent mandatory fields in order; `status` holds exactly when every mandatory field is present, and exactly when `notfound` is empty |
| Request.Settle | request.go:188-198 | a status outside 200..299 is an error with the code and body and no decode; on 2xx the body is decoded exactly when it is non-empty and a container was given, the container is written unless the body is `null`, and only a failed decode is an error |
| Request.SettleSkipsDecoder | request.go:194-198 | an empty body, a missing container or a failing status never reach the decoder |
| Request.APIRequest.constructor | request.go:54-66 | `NewAPIRequest` records verb, endpoint, payload and query, with no headers and an empty suffix |
| Request.APIRequest.SetHeader | request.go:48-51 | `SetHeader` replaces the values of one header key and changes nothing else |
| Request.Delivered | job_template.go:19-24 | a service method returns the requester's error unchanged, or the decoded document, or the result's zero value when nothing was decoded |
| Request.Requester.Build | request.go:140-175 | the request-building steps compute `Prepare`: URL check, query, body, then auth and caller headers |
| Request.Requester.Do | request.go:133-201 | `Do` normalises the descriptor's endpoint in place and changes nothing else in it; it returns the request and result of `Exchange`, and the container is replaced by the decoded document (Go merges into it; see "## Left out"), or keeps its old value when nothing was decoded or the body was `null` |
| Request.Requester.Get | request.go:81-85 | a GET with no payload, no headers, the caller's query and the caller's container |
| Request.Requester.Send | request.go:88-109 | POST, PUT and PATCH send the payload with `Content-Type: application/json` and an empty query, and always give `Do` a container |
| Request.Requester.Post | request.go:88-93 | `Send` with POST |
| Request.Requester.Put | request.go:96-101 | `Send` with PUT |
| Request.Requester.Patch | request.go:104-109 | `Send` with PATCH |
| Request.Requester.Delete | request.go:112-116 | a DELETE with an empty query and no container |
| Request.ExchangeTarget | request.go:140-143 | the request goes to `Base + normalised Endpoint + Suffix`; no request goes out exactly when the URL or the body cannot be built |
| Request.ExchangeBodyAndQuery | request.go:145-161 | a body is sent exactly when there is a payload, and it is the payload's encoding; the query is set exactly when a query map is given, holding each query pair as its single value, and an empty map gives an empty query |
| Request.ExchangeHeaders | request.go:169-175 | the auth value comes first in `Authorization` and a caller's value comes second; every other caller header holds exactly the caller's first value; without auth there is no `Authorization` header unless the caller gave one |
| Request.ExchangeStatusClassification | request.go:177-190 | a status outside 2xx is an error carrying code and body verbatim, with no decode; send and read failures are errors; success means a 2xx reply |
| Request.ExchangeDecodes | request.go:194-198 | on 2xx the container is written exactly when the body is non-empty, a container was given and the body decodes to something other than `null`; the only error is a failed decode |
| Request.NullBodyKeepsContainer | request.go:194-198 | a 2xx body decoding to `null` is a success that leaves the caller's value as it was |
| Request.SendRequestShape | request.go:88-109 | POST/PUT/PATCH go to `Base + normalised endpoint` (empty suffix) with `Content-Type: application/json` and an empty query |
| Request.GetRequestShape | request.go:81-85 | GET goes to `Base + normalised endpoint` with no body and no `Content-Type` |
| Request.DeleteRequestShape | request.go:112-116 | DELETE goes to `Base + normalised endpoint` with no body and no `Content-Type`, and never decodes |
| Utils.StatusCheck | utils.go:23-34 | done exactly for successful, failed, error and canceled; an error, naming the status, exactly for the last three |
| Utils.JobCheck | utils.go:16-35 | a `GetJob` error is passed on with done false; otherwise the status decides |
| Utils.StatusCheckOnKnownStatuses | utils.go:23-34 | for the job statuses, done is exactly the terminal statuses and an error exactly the failing ones |
| Utils.JobChecks | utils.go:16-35 | one predicate answer per `GetJob` result |
| Utils.WaitFor | utils.go:44-82 | the loop computes `Poll`, calls the predicate at most once per given answer, and with timeout 0 times out without calling it |
| Utils.WaitForSuccessJobFinish | utils.go:15-36 | `waitFor` over the job-status predicate |
| Utils.PollCharacterised | utils.go:52-81 | `waitFor` ends at the first decisive answer, with an error winning over done, if the timeout allows that many ticks; otherwise it times out after exactly the allowed ticks |
| Utils.NegativeTimeoutSkipsDeadline | utils.go:54-56 | with a negative timeout the overall deadline check never fires |
| Utils.TimeoutAfterExactTicks | utils.go:54-58 | a predicate that keeps answering "not done, no error" is called exactly `timeout` times before the deadline check fires |
| Utils.ErrorWinsOverDone | utils.go:71-76 | an answer that is both done and an error returns the error |
| Utils.JobReachesSuccess | utils.go:15-36 | new, pending, running, successful ends without error after four polls, when the timeout is negative or allows at least 4 ticks |
| Utils.JobFailsOnThirdPoll | utils.go:26-27 | new, running, failed ends with the error naming "failed" after three polls, when the timeout is negative or allows at least 3 ticks |
| JobTemplates.LaunchResult | job_template.go:55-65 | a requester error is passed on; after a successful request a non-zero job id returns the launch record and a zero job id is "invalid job id 0" |
| JobTemplates.ListJobTemplates | job_template.go:15-25 | GET `/api/v2/job_templates/` with the caller's parameters; error or filled result |
| JobTemplates.Launch | job_template.go:51-66 | POST the data to the launch path, then the job-id check of `LaunchResult` |
| JobTemplates.CreateJobTemplate | job_template.go:106-121 | with name, job_type, inventory or project missing, no request and an error listing them; otherwise POST the data |
| JobTemplates.UpdateJobTemplate | job_template.go:161-171 | PATCH the data to `/api/v2/job_templates/{id}` |
| JobTemplates.DeleteJobTemplate | job_template.go:174-183 | DELETE `/api/v2/job_templates/{id}`; only the error is returned |
| JobTemplates.TemplateEndpoints | job_template.go:53-175 | creation and launch paths are sent as written; update and delete are sent to `/api/v2/job_templates/{id}/` |
| JobTemplates.LaunchRejectsJobZero | job_template.go:60-63 | a 2xx launch with an empty body, or one naming job 0, fails with "invalid job id 0" |
| JobTemplates.LaunchAcceptsJob | job_template.go:60-65 | a 2xx launch naming a non-zero job returns the launch record |
| Hosts.ListHosts | hosts.go:14-24 | GET `/api/v2/hosts/` with the caller's parameters |
| Hosts.CreateHost | hosts.go:34-50 | with name or inventory missing, no request and an error listing them; otherwise POST the data |
| Hosts.UpdateHost | hosts.go:53-63 | PATCH the data to `/api/v2/hosts/{id}` |
| Hosts.PostGroupFlag | hosts.go:66-101 | set the flag in the caller's map, require `id`, POST the map |
| Hosts.AssociateGroup | hosts.go:66-82 | the caller's map gains `associate = true` even when `id` is missing; without `id` no request is made; otherwise POST the updated map to `/api/v2/hosts/{id}/groups/` |
| Hosts.DisAssociateGroup | hosts.go:85-101 | as `AssociateGroup` with `disassociate = true`; nothing depends on `params` |
| Hosts.DeleteHost | hosts.go:104-113 | DELETE `/api/v2/hosts/{id}` |
| Hosts.HostEndpoints | hosts.go:36-105 | update and delete are sent to `/api/v2/hosts/{id}/`; creation and association paths are sent as written |
| Inventories.ListInventories | inventory.go:14-24 | GET `/api/v2/inventories/` with the caller's parameters |
| Inventories.CreateInventory | inventory.go:27-43 | with name or organization missing, no request and an error listing them; otherwise POST the data |
| Inventories.UpdateInventory | inventory.go:46-56 | PATCH the data to `/api/v2/inventories/{id}` |
| Inventories.GetInventory | inventory.go:59-69 | GET `/api/v2/inventories/{id}` with an empty, non-nil query |
| Inventories.DeleteInventory | inventory.go:72-81 | DELETE `/api/v2/inventories/{id}` |
| Inventories.SyncInventorySourcesByInventoryID | inventory.go:83-93 | POST with no payload; the result's zero value is an empty list |
| Inventories.InventoryEndpoints | inventory.go:29-85 | fetch, update and delete are sent to `/api/v2/inventories/{id}/`; creation and sync paths are sent as written |
| Inventories.GetInventoryEmptyQuery | inventory.go:63 | the fetch request carries an empty query |
| Inventories.SyncNullBodyGivesEmptyList | inventory.go:84-92 | a 2xx sync reply whose body is `null` returns the empty list |
| Inventories.SyncSendsNoBody | inventory.go:85-87 | the sync request carries no body |
| Groups.HostPayload | groups.go:120-123 | the payload has exactly the keys `inventory` and `name`, holding the given values |
| Groups.ChildPayload | groups.go:137-139 | the payload is exactly `{"id": childGroupId}` |
| Groups.ListGroups | groups.go:29-43 | GET `/api/v2/groups/` with the caller's parameters |
| Groups.ListGroupsByInventoryId | groups.go:46-60 | GET `/api/v2/inventories/{id}/groups/` with a nil query |
| Groups.CreateGroup | groups.go:63-82 | with name or inventory missing, no request and an error listing them; otherwise POST the data |
| Groups.UpdateGroup | groups.go:85-99 | PATCH the data to `/api/v2/groups/{id}` |
| Groups.DeleteGroup | groups.go:102-115 | DELETE `/api/v2/groups/{id}` |
| Groups.AddHostToGroup | groups.go:117-131 | POST `{inventory, name}` to `/api/v2/groups/{id}/hosts/`; only the error is returned |
| Groups.AddChildrenToGroup | groups.go:133-147 | POST `{"id": childGroupId}` to `/api/v2/groups/{id}/children/` |
| Groups.GroupEndpoints | groups.go:48-135 | update and delete are sent to `/api/v2/groups/{id}/`; the other paths are sent as written |
| Groups.ListByInventoryKeepsQuery | groups.go:50 | listing by inventory sets no query on the URL |
| Groups.AddHostToGroupBody | groups.go:120-125 | the body sent is the encoding of exactly `{inventory, name}` |

## Left out

- HTTP exchange (`Client.Do`, `io.ReadAll`, closing the body): the reply is an input, either a status with a body or a send or read failure.
- Library calls (`url.Parse`, `json.Marshal`, `json.Unmarshal`, `url.Values.Encode`, Base64 for `SetBasicAuth`): these are opaque, possibly failing functions of the `Library` value. Their own behaviour, including the Basic scheme of RFC 7617, is not modelled.
- `http.NewRequestWithContext` is taken never to fail once the URL has parsed. Its verb and URL checks are library code.
- `context.Context` and its cancellation: it is runtime plumbing with no local logic.
- Error texts: errors are structured constructors (`StatusError(code, body)`, `MissingFields(names)`, `BadJobStatus(status)`, ...) instead of formatted strings.
- Typed result structs (`JobLaunch`, `ListHosts`, `Inventory`, ...) are JSON documents. Only `JobLaunch.Job` is read, by `JobTemplates.JobId`.
- Request.Settle: the decoder is one function of the body, blind to the type of the result value. In Go, a body whose shape does not fit that type (an array for a struct such as `JobLaunch`) is an unmarshal error, while the same body decodes into the untyped holder `Post` uses for `AddHostToGroup`. Here both decode alike, so `Launch` reports "invalid job id 0" where Go reports the unmarshal error.
- JobTemplates.JobId: reads the key `job` exactly. Go's decoder also matches a field name case-insensitively (`"Job"`, `"JOB"`), so a reply `{"Job": 42}` launches job 42 in Go but is "invalid job id 0" here.
- Request.Requester.Do: a successful decode replaces the container with the decoded document. Go's `json.Unmarshal` merges into it instead: a struct keeps the fields the body does not name, and a non-nil map keeps its keys. The two agree only for the zero-valued containers every service method passes (`X{}`, `make([]*InventoryUpdate, 0)`); a caller of `Get`, `Send`, `Post`, `Put` or `Patch` that pre-fills its container sees the difference. On a failed decode the container keeps its old value, where Go's `json.Unmarshal` may leave it partly filled.
- Header names are not canonicalised as `http.Header` does.
- The `*http.Response` value the wrappers return is modelled as `(status, body)`.
- Nil `data` maps are not modelled: the caller's data maps are values, so a nil `data` map passed to `AssociateGroup`, which would panic in Go, has no counterpart. Nil query maps are modelled, as `None`.
- Utils.WaitFor: time advances exactly one second per tick and the predicate takes no time. The goroutine, the channel and the per-tick `time.After` race (utils.go:58-80) are left out.
- Utils.WaitFor: the per-tick timer waits `timeout` seconds. For a negative timeout it fires at once, so in Go `waitFor` usually returns "a timeout occurred" on the first tick; only the overall deadline check is switched off, which is all `Utils.NegativeTimeoutSkipsDeadline` states.
- Utils.WaitFor: in Go, a predicate call that has not returned after `timeout` seconds ends `waitFor` with the timeout error on that tick, through the same per-tick timer. Here every predicate call returns an answer.
- Utils.WaitFor: the predicate's answers are a finite sequence. Running out of them ends the model's horizon as `StillPolling`, which is not a Go outcome.
- `client.go`, `job.go` and `organizations.go` are not part of this model. They hold object wiring and pass-through wrappers. Only job.go's status names appear, as `Utils.JobStatus`.

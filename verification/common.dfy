/** The values shared by every file of the client package: raw bytes, the JSON
    documents that travel as payloads and results, and the errors the package
    returns. */
module Common {

  newtype byte = b: int | 0 <= b < 256

  type Bytes = seq<byte>

  /** A JSON value, as produced and consumed by encoding/json. Payload maps
      (`map[string]interface{}`) are `JObject`s. */
  datatype Json =
    | JNull
    | JBool(b: bool)
    | JNumber(n: int)
    | JString(s: string)
    | JArray(items: seq<Json>)
    | JObject(fields: map<string, Json>)

  /** Every error value the package produces, one constructor per
      `fmt.Errorf` / `errors.New` site or per propagated library error. */
  datatype Error =
    | UrlParseError(target: string)       // url.Parse refused Base + Endpoint + Suffix
    | MarshalError                        // json.Marshal failed on the payload
    | NetworkError(cause: string)         // http.Client.Do failed
    | BodyReadError(cause: string)        // "error reading body: %v"
    | StatusError(code: int, body: Bytes) // "response code %d, resp: %s"
    | UnmarshalError                      // "error unmarshal: %v"
    | MissingFields(names: seq<string>)   // "mandatory input arguments are absent: %s"
    | InvalidJobId                        // "invalid job id 0"
    | BadJobStatus(status: string)        // "task finished with bad status: %s"
    | TimeoutError                        // "a timeout occurred"
}

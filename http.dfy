/** The shapes the serverless handlers read and write: the gateway event, the outcome
    of parsing its body, the JSON payloads the handlers send, and the mock `res`
    object two of the handlers write their answer into. */
module Http {
  import opened Values

  /** What `JSON.parse` makes of an event body. An absent or empty body is `NoBody`
      (every handler tests the raw body for truthiness before parsing it). */
  datatype Body = NoBody | Malformed(reason: string) | Json(fields: Fields)

  /** The gateway event. An empty string is an absent (or empty) member. */
  datatype Event = Event(
    httpMethod: string,   // event.httpMethod
    contextMethod: string, // event.requestContext?.http?.method
    path: string,         // event.path
    rawPath: string,      // event.rawPath
    body: Body)

  /** `event.httpMethod || event.requestContext?.http?.method || 'GET'` */
  function MethodOf(e: Event): (m: string)
    ensures m != ""
    ensures e.httpMethod != "" ==> m == e.httpMethod
    ensures e.httpMethod == "" && e.contextMethod != "" ==> m == e.contextMethod
    ensures e.httpMethod == "" && e.contextMethod == "" ==> m == "GET"
  {
    OrElse(OrElse(e.httpMethod, e.contextMethod), "GET")
  }

  /** `event.path || event.rawPath || '/'`; never the empty string. */
  function PathOf(e: Event): (p: string)
    ensures p != ""
    ensures e.path != "" ==> p == e.path
    ensures e.path == "" && e.rawPath != "" ==> p == e.rawPath
    ensures e.path == "" && e.rawPath == "" ==> p == "/"
  {
    OrElse(OrElse(e.path, e.rawPath), "/")
  }

  /** The header sets the handlers answer with: the four CORS headers, or only
      Content-Type and Access-Control-Allow-Origin (the outer error paths). */
  datatype Headers = CorsHeaders | ErrorHeaders

  /** The JSON bodies the handlers send, one constructor per object shape. Values the
      source takes from the clock or the process (timestamps, uptime) are not kept. */
  datatype Payload =
    | Empty                               // ''
    | ServiceBanner                       // { message: 'Tresidus AI Backend API', version, status: 'running', timestamp, endpoints }
    | HealthReport                        // { status: 'healthy', uptime, timestamp }
    | ProjectsStub(text: string)          // { message: text, data: [] }
    | AnalyticsStub(text: string)         // { message: text, data: { totalProjects: 9, activeClients: 12, modelsInProduction: 8 } }
    | ConsultingStub                      // { message: 'Consulting requests endpoint', data: [] }
    | Submitted(id: string)               // { success: true, message: 'Consulting request submitted successfully', data: { id, status: 'pending' } }
    | ItemList(items: seq<Fields>)        // { success: true, data: items, count: items.length }
    | ItemFound(item: Fields)             // { success: true, data: item }
    | ItemUpdated(item: Fields)           // { success: true, message: 'Consulting request updated successfully', data: item }
    | Failed(error: string, detail: Option<string>)   // { success: false, error, message: detail }
    | RouteError(error: string, text: string)        // { error, message: text }
    | ErrorOnly(error: string)            // { error }
    | RecordArray(records: seq<Fields>)   // a bare JSON array
    | RecordObject(record: Fields)        // a bare JSON object

  /** What an Express route handler sends: `res.status(s).json(p)`. */
  datatype Reply = Reply(status: int, payload: Payload)

  /** What a serverless handler returns: `{ statusCode, headers, body }`. */
  datatype Response = Response(statusCode: int, headers: Headers, body: Payload)

  /** `Cannot <method> <path>`, the message of every catch-all 404. */
  function CannotMessage(verb: string, path: string): string
  {
    "Cannot " + verb + " " + path
  }

  /** The mock `res` object of the two Express-shaped adapters. Its headers are the
      fixed CORS set; `status` and `json` write its two mutable members. */
  class ResponseRecorder {
    var statusCode: int
    var body: Payload

    constructor ()
      ensures statusCode == 200 && body == Empty
    {
      statusCode := 200;
      body := Empty;
    }

    /** `res.status(code)`: sets the status and returns the same object, for chaining. */
    method Status(code: int) returns (self: ResponseRecorder)
      modifies this
      ensures self == this
      ensures statusCode == code && body == old(body)
    {
      statusCode := code;
      self := this;
    }

    /** `res.json(data)`: sets the body, leaving the status as it was (200 unless
        `status` was called). */
    method WriteJson(data: Payload)
      modifies this
      ensures body == data && statusCode == old(statusCode)
    {
      body := data;
    }

    /** `{ statusCode: res.statusCode, headers: res.headers, body: res.body }` */
    function Snapshot(): Response
      reads this
    {
      Response(statusCode, CorsHeaders, body)
    }
  }
}

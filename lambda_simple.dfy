/** The stub serverless handler: it parses the body, answers a preflight, and writes
    one of a few fixed answers into the mock `res` object, whose final status and body
    it returns. */
module SimpleLambda {
  import opened Values
  import opened Http

  const ConsultingPrefix := "/api/consulting"

  /** What the handler answers for event `e`. */
  function Expected(e: Event): Response {
    if e.body.Malformed? then Response(500, ErrorHeaders, RouteError("Internal server error", e.body.reason))
    else
      var verb, path := MethodOf(e), PathOf(e);
      if verb == "OPTIONS" then Response(200, CorsHeaders, Empty)
      else if path == "/" || path == "" then Response(200, CorsHeaders, ServiceBanner)
      else if path == "/health" then Response(200, CorsHeaders, HealthReport)
      else if path == "/api/projects" then Response(200, CorsHeaders, ProjectsStub("Projects endpoint - to be implemented"))
      else if path == "/api/analytics" then Response(200, CorsHeaders, AnalyticsStub("Analytics endpoint - to be implemented"))
      else if StartsWith(path, ConsultingPrefix) && verb == "GET" && path == ConsultingPrefix then
        Response(200, CorsHeaders, ConsultingStub)
      else Response(404, CorsHeaders, RouteError("Route not found", CannotMessage(verb, path)))
  }

  /** `exports.handler`: the if/else chain writes into `res`; the answer is read back
      from it. */
  method Handler(e: Event) returns (r: Response)
    ensures r == Expected(e)
  {
    if e.body.Malformed? {
      return Response(500, ErrorHeaders, RouteError("Internal server error", e.body.reason));
    }
    var verb := MethodOf(e);
    var path := PathOf(e);
    var res := new ResponseRecorder();
    if verb == "OPTIONS" {
      return Response(200, CorsHeaders, Empty);
    }
    if path == "/" || path == "" {
      res.WriteJson(ServiceBanner);
    } else if path == "/health" {
      res.WriteJson(HealthReport);
    } else if path == "/api/projects" {
      res.WriteJson(ProjectsStub("Projects endpoint - to be implemented"));
    } else if path == "/api/analytics" {
      res.WriteJson(AnalyticsStub("Analytics endpoint - to be implemented"));
    } else if StartsWith(path, ConsultingPrefix) {
      if verb == "GET" && path == ConsultingPrefix {
        res.WriteJson(ConsultingStub);
      } else {
        var s := res.Status(404);
        s.WriteJson(RouteError("Route not found", CannotMessage(verb, path)));
      }
    } else {
      var s := res.Status(404);
      s.WriteJson(RouteError("Route not found", CannotMessage(verb, path)));
    }
    r := res.Snapshot();
  }

  /** Parsing comes first: a malformed body is a 500 even for a preflight; a preflight
      with a body that parses is 200 with an empty body on any path. */
  lemma ParseBeforePreflight(e: Event)
    requires MethodOf(e) == "OPTIONS"
    ensures e.body.Malformed? ==> Expected(e).statusCode == 500 && Expected(e).headers == ErrorHeaders
    ensures !e.body.Malformed? ==> Expected(e) == Response(200, CorsHeaders, Empty)
  {
  }

  /** The consulting stub answers exactly a GET of `/api/consulting`. */
  lemma StubOnlyForExactGet(e: Event)
    ensures Expected(e).body == ConsultingStub <==>
      !e.body.Malformed? && MethodOf(e) == "GET" && PathOf(e) == ConsultingPrefix
  {
  }

  /** Every other method or path under the prefix, and every unknown path, is a 404
      naming the method and the path. */
  lemma OthersNotFound(e: Event)
    requires !e.body.Malformed? && MethodOf(e) != "OPTIONS"
    requires PathOf(e) !in {"/", "", "/health", "/api/projects", "/api/analytics"}
    requires !(MethodOf(e) == "GET" && PathOf(e) == ConsultingPrefix)
    ensures Expected(e) == Response(404, CorsHeaders, RouteError("Route not found", CannotMessage(MethodOf(e), PathOf(e))))
  {
  }

  /** Every answer is a 200, or a 404 with the CORS headers, or the 500 of a body that
      does not parse. */
  lemma StatusesAnswered(e: Event)
    ensures Expected(e).statusCode in {200, 404, 500}
    ensures Expected(e).statusCode == 500 <==> e.body.Malformed?
  {
  }
}

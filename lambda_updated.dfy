/** The DynamoDB-backed serverless handler: it parses the event body first, answers a
    preflight on any path, serves four fixed paths, hands everything under
    `/api/consulting` to the consulting routes, and answers 404 otherwise. */
module UpdatedLambda {
  import opened Values
  import opened Validation
  import opened Http
  import opened RequestTable

  const ConsultingPrefix := "/api/consulting"
  const IdPrefix := "/api/consulting/"
  const ProcessFailed := "Failed to process consulting request"

  /** The branch of the top-level if-chain an event takes once its body has parsed. */
  datatype Route = Preflight | Banner | Health | Projects | Analytics | Consulting | NoRoute

  function RouteOf(verb: string, path: string): Route {
    if verb == "OPTIONS" then Preflight
    else if path == "/" || path == "" then Banner
    else if path == "/health" then Health
    else if path == "/api/projects" then Projects
    else if path == "/api/analytics" then Analytics
    else if StartsWith(path, ConsultingPrefix) then Consulting
    else NoRoute
  }

  /** The pattern /^\/api\/consulting\/[^\/]+$/: the prefix, then one non-empty
      segment without a '/'. */
  predicate IdRoute(path: string) {
    |IdPrefix| < |path| && path[..|IdPrefix|] == IdPrefix && '/' !in path[|IdPrefix|..]
  }

  /** The branch of the consulting routes a method and path take. */
  datatype Action = CreateOne | ListAll | GetOne(id: string) | UpdateOne(id: string) | UnknownAction

  function ActionOf(verb: string, path: string): Action {
    if verb == "POST" && path == ConsultingPrefix then CreateOne
    else if verb == "GET" && path == ConsultingPrefix then ListAll
    else if verb == "GET" && IdRoute(path) then GetOne(LastSegment(path))
    else if verb == "PUT" && IdRoute(path) then UpdateOne(LastSegment(path))
    else UnknownAction
  }

  /** A parsed body as an object; an absent body is `{}`. */
  function BodyFields(b: Body): Fields
    requires !b.Malformed?
  {
    if b.Json? then b.fields else map[]
  }

  /** A response together with the table it leaves behind. */
  datatype Outcome = Outcome(response: Response, items: map<string, Fields>)

  /** What the consulting routes may answer, and leave in the table, for a request on
      `items`. Only the order of a listing is left open. */
  ghost predicate ConsultingAnswers(items: map<string, Fields>, verb: string, path: string, body: Fields,
                                    id: string, now: string, fault: Option<string>, out: Outcome)
  {
    match ActionOf(verb, path)
    case CreateOne =>
      if CheckCreate(body).Some? then
        out == Outcome(Response(400, CorsHeaders, Failed(ErrorMessage(CheckCreate(body).value), None)), items)
      else if fault.Some? then
        out == Outcome(Response(500, CorsHeaders, Failed(ProcessFailed, fault)), items)
      else
        out == Outcome(Response(201, CorsHeaders, Submitted(id)), items[id := StoredItem(body, id, now)])
    case ListAll =>
      if fault.Some? then
        out == Outcome(Response(500, CorsHeaders, Failed(ProcessFailed, fault)), items)
      else
        && out.items == items && out.response.statusCode == 200 && out.response.headers == CorsHeaders
        && out.response.body.ItemList? && Listing(items, out.response.body.items)
    case GetOne(key) =>
      if fault.Some? then
        out == Outcome(Response(500, CorsHeaders, Failed(ProcessFailed, fault)), items)
      else if key !in items then
        out == Outcome(Response(404, CorsHeaders, Failed("Consulting request not found", None)), items)
      else
        out == Outcome(Response(200, CorsHeaders, ItemFound(items[key])), items)
    case UpdateOne(key) =>
      if UpdateRejection(body, fault).Some? then
        out == Outcome(Response(500, CorsHeaders, Failed(ProcessFailed, UpdateRejection(body, fault))), items)
      else
        var attrs := Merged(items, UpdateParamsFor(key, body["status"], Get(body, "notes"), now));
        out == Outcome(Response(200, CorsHeaders, ItemUpdated(attrs)), items[key := attrs])
    case UnknownAction =>
      out == Outcome(Response(404, CorsHeaders, RouteError("Consulting route not found", CannotMessage(verb, path))), items)
  }

  /** What the handler may answer, and leave in the table, for event `e`. */
  ghost predicate Answers(items: map<string, Fields>, e: Event, id: string, now: string, fault: Option<string>, out: Outcome)
  {
    if e.body.Malformed? then
      out == Outcome(Response(500, ErrorHeaders, RouteError("Internal server error", e.body.reason)), items)
    else
      var verb, path := MethodOf(e), PathOf(e);
      match RouteOf(verb, path)
      case Preflight => out == Outcome(Response(200, CorsHeaders, Empty), items)
      case Banner => out == Outcome(Response(200, CorsHeaders, ServiceBanner), items)
      case Health => out == Outcome(Response(200, CorsHeaders, HealthReport), items)
      case Projects => out == Outcome(Response(200, CorsHeaders, ProjectsStub("Projects endpoint")), items)
      case Analytics => out == Outcome(Response(200, CorsHeaders, AnalyticsStub("Analytics endpoint")), items)
      case Consulting => ConsultingAnswers(items, verb, path, BodyFields(e.body), id, now, fault, out)
      case NoRoute => out == Outcome(Response(404, CorsHeaders, RouteError("Route not found", CannotMessage(verb, path))), items)
  }

  /** `handleConsultingRoutes`. `id` and `now` are the uuid and timestamp a create
      draws; `fault` is the rejection of the storage call the route makes, if any. */
  method HandleConsultingRoutes(t: Table, verb: string, path: string, body: Fields,
                                id: string, now: string, fault: Option<string>) returns (r: Response)
    requires t.Valid()
    modifies t
    ensures t.Valid()
    ensures ConsultingAnswers(old(t.items), verb, path, body, id, now, fault, Outcome(r, t.items))
  {
    var action := ActionOf(verb, path);
    match action {
      case CreateOne =>
        var created := NewRequest(body, id, now);
        if created.Err? {
          return Response(400, CorsHeaders, Failed(ErrorMessage(created.error), None));
        }
        if fault.Some? {
          return Response(500, CorsHeaders, Failed(ProcessFailed, fault));
        }
        t.Put(created.value);
        r := Response(201, CorsHeaders, Submitted(id));
      case ListAll =>
        if fault.Some? {
          return Response(500, CorsHeaders, Failed(ProcessFailed, fault));
        }
        var all := t.Scan();
        r := Response(200, CorsHeaders, ItemList(all));
      case GetOne(key) =>
        if fault.Some? {
          return Response(500, CorsHeaders, Failed(ProcessFailed, fault));
        }
        var found := t.Get(key);
        if found.None? {
          return Response(404, CorsHeaders, Failed("Consulting request not found", None));
        }
        r := Response(200, CorsHeaders, ItemFound(found.value));
      case UpdateOne(key) =>
        var rejection := UpdateRejection(body, fault);
        if rejection.Some? {
          return Response(500, CorsHeaders, Failed(ProcessFailed, rejection));
        }
        var p := BuildUpdateParams(key, body["status"], Get(body, "notes"), now);
        var attrs := t.Update(p);
        r := Response(200, CorsHeaders, ItemUpdated(attrs));
      case UnknownAction =>
        r := Response(404, CorsHeaders, RouteError("Consulting route not found", CannotMessage(verb, path)));
    }
  }

  /** `exports.handler`. */
  method Handler(t: Table, e: Event, id: string, now: string, fault: Option<string>) returns (r: Response)
    requires t.Valid()
    modifies t
    ensures t.Valid()
    ensures Answers(old(t.items), e, id, now, fault, Outcome(r, t.items))
  {
    if e.body.Malformed? {
      return Response(500, ErrorHeaders, RouteError("Internal server error", e.body.reason));
    }
    var body := BodyFields(e.body);
    var verb := MethodOf(e);
    var path := PathOf(e);
    if verb == "OPTIONS" {
      return Response(200, CorsHeaders, Empty);
    }
    if path == "/" || path == "" {
      return Response(200, CorsHeaders, ServiceBanner);
    }
    if path == "/health" {
      return Response(200, CorsHeaders, HealthReport);
    }
    if path == "/api/projects" {
      return Response(200, CorsHeaders, ProjectsStub("Projects endpoint"));
    }
    if path == "/api/analytics" {
      return Response(200, CorsHeaders, AnalyticsStub("Analytics endpoint"));
    }
    if StartsWith(path, ConsultingPrefix) {
      r := HandleConsultingRoutes(t, verb, path, body, id, now, fault);
      return;
    }
    r := Response(404, CorsHeaders, RouteError("Route not found", CannotMessage(verb, path)));
  }

  // ---------------------------------------------------------------------------
  // Properties of the dispatch

  /** On an id route the id is the segment after the prefix, and it is never empty. */
  lemma IdRouteId(path: string)
    requires IdRoute(path)
    ensures LastSegment(path) == path[|IdPrefix|..] && LastSegment(path) != ""
  {
    var seg := path[|IdPrefix|..];
    assert path == ConsultingPrefix + "/" + seg;
    LastSegmentAfterSlash(ConsultingPrefix, seg);
  }

  /** The id routes are exactly the prefix followed by one non-empty '/'-free segment. */
  lemma IdRouteIff(seg: string)
    ensures IdRoute(IdPrefix + seg) <==> seg != "" && '/' !in seg
  {
    assert (IdPrefix + seg)[|IdPrefix|..] == seg;
    assert (IdPrefix + seg)[..|IdPrefix|] == IdPrefix;
  }

  /** The communication route the dashboard calls is not served: it is an unknown
      consulting route. */
  lemma CommunicationRouteUnknown(key: string)
    requires key != ""
    ensures var path := IdPrefix + key + "/communication";
      RouteOf("POST", path) == Consulting && ActionOf("POST", path) == UnknownAction
  {
    var path := IdPrefix + key + "/communication";
    assert path[..|ConsultingPrefix|] == ConsultingPrefix;
    assert |path| > |ConsultingPrefix|;
  }

  /** A malformed body is answered 500 before anything else, preflight included, and
      leaves the table alone. */
  lemma MalformedBodyFirst(items: map<string, Fields>, e: Event, id: string, now: string, fault: Option<string>, out: Outcome)
    requires e.body.Malformed? && Answers(items, e, id, now, fault, out)
    ensures out.response.statusCode == 500 && out.response.headers == ErrorHeaders && out.items == items
  {
  }

  /** The fixed paths are answered before the consulting prefix is looked at, and a path
      that is neither fixed nor under the prefix is a 404 naming the method and path. */
  lemma DispatchOrder(verb: string, path: string)
    requires verb != "OPTIONS"
    ensures path in {"/", "", "/health", "/api/projects", "/api/analytics"} ==> RouteOf(verb, path) !in {Consulting, NoRoute}
    ensures RouteOf(verb, path) == NoRoute <==>
      path !in {"/", "", "/health", "/api/projects", "/api/analytics"} && !StartsWith(path, ConsultingPrefix)
  {
  }

  /** Only a create or an update writes the table, and each writes one item: the new
      one under the drawn id, the updated one under the id in the path. */
  lemma WritesAtMostOneItem(items: map<string, Fields>, e: Event, id: string, now: string, fault: Option<string>, out: Outcome)
    requires Answers(items, e, id, now, fault, out)
    ensures out.items == items
      || (exists key :: key in out.items && out.items == items[key := out.items[key]])
    ensures out.items != items ==> !e.body.Malformed? && MethodOf(e) in {"POST", "PUT"}
  {
    if !e.body.Malformed? && RouteOf(MethodOf(e), PathOf(e)) == Consulting {
      ConsultingWritesAtMostOne(items, MethodOf(e), PathOf(e), BodyFields(e.body), id, now, fault, out);
    }
  }

  /** The consulting routes write at most the one item a create or an update names. */
  lemma ConsultingWritesAtMostOne(items: map<string, Fields>, verb: string, path: string, body: Fields,
                                  id: string, now: string, fault: Option<string>, out: Outcome)
    requires ConsultingAnswers(items, verb, path, body, id, now, fault, out)
    ensures out.items == items
      || (exists key :: key in out.items && out.items == items[key := out.items[key]])
    ensures out.items != items ==> verb in {"POST", "PUT"}
  {
    match ActionOf(verb, path)
    case CreateOne =>
      if out.items != items { assert out.items == items[id := out.items[id]]; }
    case UpdateOne(key) =>
      if out.items != items { assert out.items == items[key := out.items[key]]; }
    case _ =>
  }

  /** Without a body the consulting routes see `{}`, so a create is refused for its
      missing fields and stores nothing. */
  lemma CreateWithoutBodyRefused(items: map<string, Fields>, e: Event, id: string, now: string, fault: Option<string>, out: Outcome)
    requires e.body.NoBody? && MethodOf(e) == "POST" && PathOf(e) == ConsultingPrefix
    requires Answers(items, e, id, now, fault, out)
    ensures out == Outcome(Response(400, CorsHeaders, Failed(MissingFieldsMessage, None)), items)
  {
    assert RouteOf(MethodOf(e), PathOf(e)) == Consulting;
    assert BodyFields(e.body) == map[];
  }

  /** Without a body an update of an id is refused: its `:status` value is undefined. */
  lemma UpdateWithoutBodyRefused(items: map<string, Fields>, e: Event, key: string, id: string, now: string, out: Outcome)
    requires e.body.NoBody? && MethodOf(e) == "PUT" && PathOf(e) == IdPrefix + key
    requires key != "" && '/' !in key
    requires Answers(items, e, id, now, None, out)
    ensures out == Outcome(Response(500, CorsHeaders, Failed(ProcessFailed, Some(UndefinedStatusMessage))), items)
  {
    IdRouteIff(key);
    assert StartsWith(PathOf(e), ConsultingPrefix) by {
      assert PathOf(e)[..|ConsultingPrefix|] == ConsultingPrefix;
    }
    assert RouteOf(MethodOf(e), PathOf(e)) == Consulting;
    assert BodyFields(e.body) == map[];
  }

  /** A GET of an id with no item is a 404, whatever the rest of the table holds. */
  lemma MissingItemIs404(items: map<string, Fields>, e: Event, key: string, id: string, now: string, out: Outcome)
    requires !e.body.Malformed? && MethodOf(e) == "GET" && PathOf(e) == IdPrefix + key
    requires key != "" && '/' !in key && key !in items
    requires Answers(items, e, id, now, None, out)
    ensures out.response.statusCode == 404 && out.items == items
  {
    IdRouteIff(key);
    IdRouteId(IdPrefix + key);
    assert StartsWith(PathOf(e), ConsultingPrefix) by {
      assert PathOf(e)[..|ConsultingPrefix|] == ConsultingPrefix;
    }
  }
}

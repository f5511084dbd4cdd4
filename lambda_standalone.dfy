/** The file-backed serverless handler: it strips the `/prod` stage prefix, answers a
    preflight before routing, serves four fixed paths, and under `/api/consulting`
    reads the whole request file on GET and appends one stamped record on POST. */
module StandaloneLambda {
  import opened Values
  import opened Http

  const ConsultingPrefix := "/api/consulting"
  const StagePrefix := "/prod"
  const ReadFailed := "Failed to read consulting data"
  const SaveFailed := "Failed to save consulting request"

  /** `path.startsWith('/prod') ? path.substring(5) || '/' : path`. */
  function StripStage(path: string): string {
    if StartsWith(path, StagePrefix) then OrElse(path[|StagePrefix|..], "/") else path
  }

  /** The stage prefix is removed exactly once, an empty remainder becomes "/", and a
      path without the prefix is left as it is. */
  lemma StripStageCases(rest: string, path: string)
    ensures StripStage(StagePrefix + rest) == (if rest == "" then "/" else rest)
    ensures !StartsWith(path, StagePrefix) ==> StripStage(path) == path
    ensures path != "" ==> StripStage(path) != ""
  {
    assert (StagePrefix + rest)[..|StagePrefix|] == StagePrefix;
    assert (StagePrefix + rest)[|StagePrefix|..] == rest;
  }

  /** The request file: absent, present but unreadable (or not JSON), or an array of
      records. */
  datatype FileState = Absent | Unreadable | Stored(records: seq<Fields>)

  /** `data/consulting-requests.json`. */
  class DataFile {
    var state: FileState

    constructor (initial: FileState)
      ensures state == initial
    {
      state := initial;
    }

    /** `fs.writeFileSync` of the pretty-printed array (after creating the directory). */
    method Write(records: seq<Fields>)
      modifies this
      ensures state == Stored(records)
    {
      state := Stored(records);
    }
  }

  /** `JSON.parse(req.body || '{}')`: an absent body is the empty object. */
  function PostedFields(b: Body): Fields
    requires !b.Malformed?
  {
    if b.Json? then b.fields else map[]
  }

  /** The parsed POST body with the handler's own `id`, `createdAt` and `status`
      written over it. */
  function Stamped(body: Fields, stamp: string, now: string): Fields {
    body["id" := stamp]["createdAt" := now]["status" := "pending"]
  }

  /** A stamped record keeps every client field except the three the handler sets, and
      those three always hold the handler's values. */
  lemma StampedOverwrites(body: Fields, stamp: string, now: string)
    ensures var r := Stamped(body, stamp, now);
      && r.Keys == body.Keys + {"id", "createdAt", "status"}
      && r["id"] == stamp && r["createdAt"] == now && r["status"] == "pending"
      && (forall k :: k in body && k !in {"id", "createdAt", "status"} ==> r[k] == body[k])
  {
  }

  /** A response together with the file it leaves behind. */
  datatype Outcome = Outcome(response: Response, file: FileState)

  function NotFound(verb: string, url: string): Response {
    Response(404, CorsHeaders, RouteError("Route not found", CannotMessage(verb, url)))
  }

  /** What the handler answers, and leaves in the file, for event `e`. `stamp` is the
      `Date.now()` id, `now` the ISO timestamp, and `writeFails` whether writing the
      file throws. */
  function Expected(file: FileState, e: Event, stamp: string, now: string, writeFails: bool): Outcome {
    var verb, url := MethodOf(e), StripStage(PathOf(e));
    if verb == "OPTIONS" then Outcome(Response(200, CorsHeaders, Empty), file)
    else if url == "/" || url == "" then Outcome(Response(200, CorsHeaders, ServiceBanner), file)
    else if url == "/health" then Outcome(Response(200, CorsHeaders, HealthReport), file)
    else if url == "/api/projects" then
      Outcome(Response(200, CorsHeaders, ProjectsStub("Projects endpoint - to be implemented")), file)
    else if url == "/api/analytics" then
      Outcome(Response(200, CorsHeaders, AnalyticsStub("Analytics endpoint - to be implemented")), file)
    else if StartsWith(url, ConsultingPrefix) && verb in {"GET", "POST"} then ConsultingOutcome(file, verb, e.body, stamp, now, writeFails)
    else Outcome(NotFound(verb, url), file)
  }

  /** The GET and POST branches under the consulting prefix. */
  function ConsultingOutcome(file: FileState, verb: string, body: Body, stamp: string, now: string, writeFails: bool): Outcome
  {
    if verb == "GET" then
      match file
      case Absent => Outcome(Response(200, CorsHeaders, RecordArray([])), file)
      case Unreadable => Outcome(Response(500, CorsHeaders, ErrorOnly(ReadFailed)), file)
      case Stored(records) => Outcome(Response(200, CorsHeaders, RecordArray(records)), file)
    else if body.Malformed? || file.Unreadable? || writeFails then
      Outcome(Response(500, CorsHeaders, ErrorOnly(SaveFailed)), file)
    else
      var record := Stamped(PostedFields(body), stamp, now);
      var before := if file.Stored? then file.records else [];
      Outcome(Response(201, CorsHeaders, RecordObject(record)), Stored(before + [record]))
  }

  /** The consulting branches of the handler, answering through `res`. */
  method ServeConsulting(f: DataFile, res: ResponseRecorder, verb: string, body: Body, stamp: string, now: string, writeFails: bool)
    requires verb in {"GET", "POST"}
    requires res.statusCode == 200
    modifies f, res
    ensures Outcome(res.Snapshot(), f.state) == ConsultingOutcome(old(f.state), verb, body, stamp, now, writeFails)
  {
    if verb == "GET" {
      match f.state {
        case Absent => res.WriteJson(RecordArray([]));
        case Stored(records) => res.WriteJson(RecordArray(records));
        case Unreadable =>
          var s := res.Status(500);
          s.WriteJson(ErrorOnly(ReadFailed));
      }
      return;
    }
    if body.Malformed? {
      var s := res.Status(500);
      s.WriteJson(ErrorOnly(SaveFailed));
      return;
    }
    var record := if body.Json? then body.fields else map[];
    record := record["id" := stamp];
    record := record["createdAt" := now];
    record := record["status" := "pending"];
    var requests: seq<Fields> := [];
    if f.state.Unreadable? {
      var s := res.Status(500);
      s.WriteJson(ErrorOnly(SaveFailed));
      return;
    }
    if f.state.Stored? {
      requests := f.state.records;
    }
    requests := requests + [record];
    if writeFails {
      var s := res.Status(500);
      s.WriteJson(ErrorOnly(SaveFailed));
    } else {
      f.Write(requests);
      var s := res.Status(201);
      s.WriteJson(RecordObject(record));
    }
  }

  /** `exports.handler`, writing its answer into the mock `res` object. */
  method Handler(f: DataFile, e: Event, stamp: string, now: string, writeFails: bool) returns (r: Response)
    modifies f
    ensures Outcome(r, f.state) == Expected(old(f.state), e, stamp, now, writeFails)
  {
    var path := PathOf(e);
    if StartsWith(path, StagePrefix) {
      path := OrElse(path[|StagePrefix|..], "/");
    }
    assert path == StripStage(PathOf(e));
    var verb := MethodOf(e);
    var res := new ResponseRecorder();
    if verb == "OPTIONS" {
      return Response(200, CorsHeaders, Empty);
    }
    if path == "/" || path == "" {
      res.WriteJson(ServiceBanner);
    } else if path == "/health" {
      res.WriteJson(HealthReport);
    } else if path == "/api/projects" {
      res.WriteJson(ProjectsStub("Projects endpoint - to be implemented"));
    } else if path == "/api/analytics" {
      res.WriteJson(AnalyticsStub("Analytics endpoint - to be implemented"));
    } else if StartsWith(path, ConsultingPrefix) && verb in {"GET", "POST"} {
      ServeConsulting(f, res, verb, e.body, stamp, now, writeFails);
    } else {
      var s := res.Status(404);
      s.WriteJson(RouteError("Route not found", CannotMessage(verb, path)));
    }
    r := res.Snapshot();
  }

  // ---------------------------------------------------------------------------
  // Properties of the handler

  /** A preflight is answered 200 with an empty body before any routing, whatever the
      path or body, and touches no file. */
  lemma PreflightFirst(file: FileState, e: Event, stamp: string, now: string, writeFails: bool)
    requires MethodOf(e) == "OPTIONS"
    ensures Expected(file, e, stamp, now, writeFails) == Outcome(Response(200, CorsHeaders, Empty), file)
  {
  }

  /** The records a POST finds: those of the file, or none when there is no file yet. */
  function RecordsBefore(file: FileState): seq<Fields> {
    if file.Stored? then file.records else []
  }

  /** A POST under the prefix that succeeds grows the file by exactly one record, keeps
      the earlier records (none when the file did not exist), and answers 201 with the
      new record, which is the body (`{}` when there is none) with the three handler
      fields stamped over it. There is no validation: any object is accepted. */
  lemma PostAppendsOne(file: FileState, e: Event, stamp: string, now: string)
    requires MethodOf(e) == "POST" && StartsWith(StripStage(PathOf(e)), ConsultingPrefix)
    requires !e.body.Malformed? && !file.Unreadable?
    ensures var before, record := RecordsBefore(file), Stamped(PostedFields(e.body), stamp, now);
      var out := Expected(file, e, stamp, now, false);
      && out.response == Response(201, CorsHeaders, RecordObject(record))
      && out.file.Stored? && |out.file.records| == |before| + 1
      && out.file.records[..|before|] == before
      && out.file.records[|before|] == record
  {
    var url := StripStage(PathOf(e));
    assert url != "/" && url != "" && url != "/health" && url != "/api/projects" && url != "/api/analytics" by {
      assert |url| >= |ConsultingPrefix|;
    }
    var before, record := RecordsBefore(file), Stamped(PostedFields(e.body), stamp, now);
    assert Expected(file, e, stamp, now, false).file == Stored(before + [record]);
    assert (before + [record])[..|before|] == before;
  }

  /** A GET under the prefix answers with the whole stored array, or `[]` when there is
      no file, and never changes the file. */
  lemma GetReturnsAll(file: FileState, e: Event, stamp: string, now: string, writeFails: bool)
    requires MethodOf(e) == "GET" && StartsWith(StripStage(PathOf(e)), ConsultingPrefix)
    ensures var out := Expected(file, e, stamp, now, writeFails);
      && out.file == file
      && (file.Absent? ==> out.response == Response(200, CorsHeaders, RecordArray([])))
      && (file.Stored? ==> out.response == Response(200, CorsHeaders, RecordArray(file.records)))
      && (file.Unreadable? ==> out.response == Response(500, CorsHeaders, ErrorOnly(ReadFailed)))
  {
    var url := StripStage(PathOf(e));
    assert url != "/" && url != "" && url != "/health" && url != "/api/projects" && url != "/api/analytics" by {
      assert |url| >= |ConsultingPrefix|;
    }
  }

  /** A record saved by POST is returned by the next GET, after the earlier ones. */
  lemma PostThenGet(file: FileState, post: Event, get: Event, stamp: string, now: string)
    requires MethodOf(post) == "POST" && StartsWith(StripStage(PathOf(post)), ConsultingPrefix)
    requires !post.body.Malformed? && !file.Unreadable?
    requires MethodOf(get) == "GET" && StartsWith(StripStage(PathOf(get)), ConsultingPrefix)
    ensures var after := Expected(file, post, stamp, now, false).file;
      Expected(after, get, stamp, now, false).response
        == Response(200, CorsHeaders, RecordArray(RecordsBefore(file) + [Stamped(PostedFields(post.body), stamp, now)]))
  {
    PostAppendsOne(file, post, stamp, now);
    var after := Expected(file, post, stamp, now, false).file;
    var before, record := RecordsBefore(file), Stamped(PostedFields(post.body), stamp, now);
    assert after.records == before + [record] by {
      assert after.records == after.records[..|before|] + [after.records[|before|]];
    }
    GetReturnsAll(after, get, stamp, now, false);
  }

  /** A failed POST (unparsable body, unreadable file, failed write) answers 500 and
      leaves the file as it was. */
  lemma FailedPostKeepsFile(file: FileState, e: Event, stamp: string, now: string, writeFails: bool)
    requires MethodOf(e) == "POST" && StartsWith(StripStage(PathOf(e)), ConsultingPrefix)
    requires e.body.Malformed? || file.Unreadable? || writeFails
    ensures Expected(file, e, stamp, now, writeFails) == Outcome(Response(500, CorsHeaders, ErrorOnly(SaveFailed)), file)
  {
    var url := StripStage(PathOf(e));
    assert url != "/" && url != "" && url != "/health" && url != "/api/projects" && url != "/api/analytics" by {
      assert |url| >= |ConsultingPrefix|;
    }
  }

  /** Under the prefix, a method other than GET and POST falls through to the catch-all
      404, as does any path that is neither fixed nor under the prefix. */
  lemma OtherMethodsNotFound(file: FileState, e: Event, stamp: string, now: string, writeFails: bool)
    requires MethodOf(e) != "OPTIONS"
    requires StripStage(PathOf(e)) !in {"/", "", "/health", "/api/projects", "/api/analytics"}
    requires StartsWith(StripStage(PathOf(e)), ConsultingPrefix) ==> MethodOf(e) !in {"GET", "POST"}
    ensures Expected(file, e, stamp, now, writeFails) == Outcome(NotFound(MethodOf(e), StripStage(PathOf(e))), file)
  {
  }
}

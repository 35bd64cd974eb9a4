/** The `analyze-email` request handler: method gates, body parsing, schema
    validation, the profile check, the classifier call, the sanitizer and
    the `email_scans` insert, as a function from the request and the
    outcomes of the remote services to the HTTP response and the trace of
    remote effects that happened. */
module AnalyzeEmail {
  import opened Wrappers
  import opened Json
  import opened Text
  import opened EmailSchema
  import opened Classifier

  const PreviewLimit: nat := 200
  const ContentPreviewLimit: nat := 500

  /** The row sent to `email_scans`. Analysis fields are the values read
      from the analysis object: `riskScore` must be present (its string form
      is what is sent); the others are `None` when the object lacks them,
      which the insert sends as absent columns. */
  datatype ScanRow = ScanRow(
    userId: string,
    emailId: string,
    subject: string,
    sender: string,
    senderEmail: string,
    preview: string,
    receivedDate: string,
    riskScore: Value,
    riskLevel: Option<Value>,
    threatIndicators: Option<Value>,
    analysisSummary: Option<Value>,
    contentPreview: string,
    hasAttachments: string)

  /** `obj.key` in JavaScript: `undefined` (here `None`) for a missing key. */
  function Property(obj: map<string, Value>, key: string): Option<Value> {
    if key in obj then Some(obj[key]) else None
  }

  /** Whether converting `v` to a string inside `Array.prototype.join`
      throws. An object with its own `toString` key shadows the inherited
      method, and a parsed value is never callable, so neither `toString`
      nor the inherited `valueOf` yields a primitive; an array joins its
      elements in turn. `null` inside an array joins as the empty string. */
  predicate JoinElementThrows(v: Value) {
    match v
    case JObject(fields) => "toString" in fields
    case JArray(items) => exists i :: 0 <= i < |items| && JoinElementThrows(items[i])
    case _ => false
  }

  /** Whether `v.toString()` throws: on `null`, and wherever joining its
      elements, or calling a shadowed `toString`, would. */
  predicate ToStringThrows(v: Value) {
    v == JNull || JoinElementThrows(v)
  }

  /** Some JSON values whose `toString()` throws, and some that do not. */
  lemma ToStringExamples()
    ensures ToStringThrows(JNull)
    ensures ToStringThrows(JObject(map["toString" := JNumber(0.0)]))
    ensures ToStringThrows(JArray([JNumber(1.0), JArray([JObject(map["toString" := JNull])])]))
    ensures !ToStringThrows(JArray([JNull, JString("x")]))
    ensures !ToStringThrows(JObject(map["valueOf" := JNull]))
  {
    var inner := JArray([JObject(map["toString" := JNull])]);
    assert JoinElementThrows(inner.items[0]);
    assert JoinElementThrows(JArray([JNumber(1.0), inner]).items[1]);
  }

  /** Builds the insert payload. `analysis.riskScore.toString()` throws when
      the score is `undefined` or when `ToStringThrows` holds of it; that is
      `None` here. */
  function BuildRow(r: AnalysisRequest, analysis: map<string, Value>): (row: Option<ScanRow>)
    ensures row.None? <==> "riskScore" !in analysis || ToStringThrows(analysis["riskScore"])
  {
    match Property(analysis, "riskScore")
    case None => None
    case Some(score) =>
      if ToStringThrows(score) then None
      else Some(ScanRow(
        r.userId, r.emailId, r.subject, r.sender, r.senderEmail,
        Take(r.content, PreviewLimit), r.receivedDate,
        score, Property(analysis, "riskLevel"), Property(analysis, "threatIndicators"),
        Property(analysis, "analysisSummary"),
        Take(r.content, ContentPreviewLimit), BoolText(r.hasAttachments)))
  }

  /** The request as the handler sees it: the method, and the body that
      `req.json()` produced (`None` when the body is not JSON). */
  datatype HttpRequest = HttpRequest(httpMethod: string, body: Option<Value>)

  /** What the chat completion call produced: a thrown error, or a reply
      whose first choice's content may be absent. */
  datatype ClassifierReply = ClassifierFailed | Completion(content: Option<string>)

  /** What the insert produced: the row id the store assigned, or an error. */
  datatype InsertResult = Inserted(id: string) | InsertFailed

  /** The environment and the remote services, as outcomes. */
  datatype Services = Services(
    formats: Formats,
    clientConfigured: bool,
    profileFound: string -> bool,
    apiKeySet: bool,
    classify: Prompt -> ClassifierReply,
    parseJson: string -> Option<map<string, Value>>,
    insert: ScanRow -> InsertResult)

  /** A remote effect of the handler, in the order it happens. */
  datatype Effect =
    | ProfileLookup(userId: string)
    | ClassifierCall(prompt: Prompt)
    | RowInsert(row: ScanRow)

  /** The causes behind a 500 response. */
  datatype ServerFailure =
    | BodyNotJson
    | ClientNotConfigured
    | ApiKeyMissing
    | ClassifierUnavailable
    | ScoreToStringFailed
    | PersistenceFailed

  datatype ResponseBody =
    | NoBody
    | MethodNotAllowed
    | InvalidRequestData(details: seq<Issue>)
    | ProfileNotFound
    | ServerError(cause: ServerFailure)
    | StoredScan(id: string, row: ScanRow)

  datatype Response = Response(status: nat, headers: map<string, string>, body: ResponseBody)

  datatype Outcome = Outcome(response: Response, trace: seq<Effect>)

  const CorsHeaders: map<string, string> := map[
    "Access-Control-Allow-Origin" := "*",
    "Access-Control-Allow-Headers" := "authorization, x-client-info, apikey, content-type",
    "Access-Control-Allow-Methods" := "OPTIONS, POST"]

  const JsonHeaders: map<string, string> := CorsHeaders["Content-Type" := "application/json"]

  function Fail(cause: ServerFailure, trace: seq<Effect>): Outcome {
    Outcome(Response(500, JsonHeaders, ServerError(cause)), trace)
  }

  /** The handler. Each gate returns before any later effect; everything
      thrown inside the `try` becomes a 500. Every response carries the CORS
      headers, its status is one of 200, 400, 404, 405, 500, a 200 is the
      empty preflight answer or a stored scan, and at most three remote
      effects happen. */
  function Handle(svc: Services, req: HttpRequest): (out: Outcome)
    ensures CorsHeaders.Keys <= out.response.headers.Keys
    ensures forall k :: k in CorsHeaders ==> out.response.headers[k] == CorsHeaders[k]
    ensures out.response.status in {200, 400, 404, 405, 500}
    ensures out.response.status == 200 ==> out.response.body.NoBody? || out.response.body.StoredScan?
    ensures |out.trace| <= 3
  {
    if req.httpMethod == "OPTIONS" then Outcome(Response(200, CorsHeaders, NoBody), [])
    else if req.httpMethod != "POST" then Outcome(Response(405, JsonHeaders, MethodNotAllowed), [])
    else match req.body
      case None => Fail(BodyNotJson, [])
      case Some(body) =>
        match Validate(svc.formats, body)
        case Failure(issues) => Outcome(Response(400, JsonHeaders, InvalidRequestData(issues)), [])
        case Success(r) => Process(svc, r)
  }

  /** The handler once the body is a valid request: client, profile lookup,
      key, classifier call, sanitizer, row and insert, in that order. */
  function Process(svc: Services, r: AnalysisRequest): (out: Outcome)
    ensures out.response.headers == JsonHeaders
    ensures out.response.status in {200, 404, 500}
    ensures out.response.status == 200 <==> out.response.body.StoredScan?
    ensures |out.trace| <= 3
  {
    if !svc.clientConfigured then Fail(ClientNotConfigured, [])
    else if !svc.profileFound(r.userId) then
      Outcome(Response(404, JsonHeaders, ProfileNotFound), [ProfileLookup(r.userId)])
    else if !svc.apiKeySet then Fail(ApiKeyMissing, [ProfileLookup(r.userId)])
    else
      var prompt := BuildPrompt(r);
      var called := [ProfileLookup(r.userId), ClassifierCall(prompt)];
      match svc.classify(prompt)
      case ClassifierFailed => Fail(ClassifierUnavailable, called)
      case Completion(content) =>
        match BuildRow(r, Sanitize(svc.parseJson, content))
        case None => Fail(ScoreToStringFailed, called)
        case Some(row) =>
          var attempted := called + [RowInsert(row)];
          match svc.insert(row)
          case InsertFailed => Fail(PersistenceFailed, attempted)
          case Inserted(id) => Outcome(Response(200, JsonHeaders, StoredScan(id, row)), attempted)
  }

  /** The full sequence of effects a request could have, in order. */
  function FullTrace(r: AnalysisRequest, row: ScanRow): seq<Effect> {
    [ProfileLookup(r.userId), ClassifierCall(BuildPrompt(r)), RowInsert(row)]
  }

  /** Preflight and other methods are answered before the body is read and
      without any remote effect. */
  lemma MethodGate(svc: Services, req: HttpRequest)
    requires req.httpMethod != "POST"
    ensures var out := Handle(svc, req);
      && out.trace == []
      && (req.httpMethod == "OPTIONS" ==> out.response == Response(200, CorsHeaders, NoBody))
      && (req.httpMethod != "OPTIONS" ==> out.response.status == 405 && out.response.body == MethodNotAllowed)
  {
  }

  /** A body that is not JSON ends in 500, not 400, with no effect. */
  lemma UnreadableBodyIsServerError(svc: Services)
    ensures Handle(svc, HttpRequest("POST", None)) == Fail(BodyNotJson, [])
  {
  }

  /** A schema failure answers 400 with every issue the validator found, and
      nothing remote happens. */
  lemma SchemaGate(svc: Services, body: Value)
    requires Validate(svc.formats, body).Failure?
    ensures var out := Handle(svc, HttpRequest("POST", Some(body)));
      && out.trace == []
      && out.response.status == 400
      && out.response.body == InvalidRequestData(Validate(svc.formats, body).error)
      && out.response.body.details != []
  {
  }

  /** A missing profile answers 404 after the lookup alone: the classifier
      is never called and nothing is inserted. */
  lemma ProfileGate(svc: Services, body: Value)
    requires Validate(svc.formats, body).Success?
    requires svc.clientConfigured
    requires !svc.profileFound(Validate(svc.formats, body).value.userId)
    ensures var out := Handle(svc, HttpRequest("POST", Some(body)));
      && out.response.status == 404 && out.response.body == ProfileNotFound
      && out.trace == [ProfileLookup(Validate(svc.formats, body).value.userId)]
  {
  }

  /** The late gates after validation each end in a 500 carrying the
      effects so far: a missing client before any effect, a missing key
      after the lookup, a failed classifier call after the call, and a
      failed insert after the insert was attempted. */
  lemma LateFailuresAreServerErrors(svc: Services, r: AnalysisRequest)
    ensures !svc.clientConfigured ==> Process(svc, r) == Fail(ClientNotConfigured, [])
    ensures svc.clientConfigured && svc.profileFound(r.userId) && !svc.apiKeySet ==>
              Process(svc, r) == Fail(ApiKeyMissing, [ProfileLookup(r.userId)])
    ensures svc.clientConfigured && svc.profileFound(r.userId) && svc.apiKeySet
            && svc.classify(BuildPrompt(r)) == ClassifierFailed ==>
              Process(svc, r) == Fail(ClassifierUnavailable, [ProfileLookup(r.userId), ClassifierCall(BuildPrompt(r))])
    ensures svc.clientConfigured && svc.profileFound(r.userId) && svc.apiKeySet
            && svc.classify(BuildPrompt(r)).Completion? ==>
              var built := BuildRow(r, Sanitize(svc.parseJson, svc.classify(BuildPrompt(r)).content));
              built.Some? && svc.insert(built.value) == InsertFailed ==>
                Process(svc, r) == Fail(PersistenceFailed, FullTrace(r, built.value))
  {
  }

  /** After validation the effects are a prefix of lookup, classify,
      insert, for the request's own user and prompt. */
  lemma ProcessFollowsPipeline(svc: Services, r: AnalysisRequest)
    ensures var out := Process(svc, r);
      out.trace == [] || (
        && out.trace[0] == ProfileLookup(r.userId)
        && (|out.trace| >= 2 ==> out.trace[1] == ClassifierCall(BuildPrompt(r)))
        && (|out.trace| == 3 ==> out.trace[2].RowInsert?))
  {
    var out := Process(svc, r);
    if svc.clientConfigured && svc.profileFound(r.userId) && svc.apiKeySet && svc.classify(BuildPrompt(r)).Completion? {
      var built := BuildRow(r, Sanitize(svc.parseJson, svc.classify(BuildPrompt(r)).content));
      if built.Some? {
        assert out.trace == FullTrace(r, built.value);
      }
    }
  }

  /** Whatever the outcome, the effects that happened are a prefix of the
      pipeline lookup, classify, insert: no step runs unless every earlier
      step ran, and there is at most one classifier call. */
  lemma EffectsFollowPipeline(svc: Services, req: HttpRequest)
    ensures var out := Handle(svc, req);
      out.trace == [] || (
        && req.httpMethod == "POST" && req.body.Some? && Validate(svc.formats, req.body.value).Success?
        && var r := Validate(svc.formats, req.body.value).value;
        && |out.trace| <= 3
        && out.trace[0] == ProfileLookup(r.userId)
        && (|out.trace| >= 2 ==> out.trace[1] == ClassifierCall(BuildPrompt(r)))
        && (|out.trace| == 3 ==> out.trace[2].RowInsert?))
  {
    if req.httpMethod == "POST" && req.body.Some? && Validate(svc.formats, req.body.value).Success? {
      var r := Validate(svc.formats, req.body.value).value;
      assert Handle(svc, req) == Process(svc, r);
      ProcessFollowsPipeline(svc, r);
    }
  }

  /** A request succeeds iff it is a POST with a JSON body that passes the
      schema, the client and profile and key are there, the classifier
      answers, the analysis has a score, and the insert succeeds. */
  lemma SuccessIff(svc: Services, req: HttpRequest)
    ensures Handle(svc, req).response.status == 200 && Handle(svc, req).response.body != NoBody
      <==>
      && req.httpMethod == "POST" && req.body.Some?
      && Validate(svc.formats, req.body.value).Success?
      && var r := Validate(svc.formats, req.body.value).value;
      && svc.clientConfigured && svc.profileFound(r.userId) && svc.apiKeySet
      && svc.classify(BuildPrompt(r)).Completion?
      && var a := Sanitize(svc.parseJson, svc.classify(BuildPrompt(r)).content);
      && "riskScore" in a && !ToStringThrows(a["riskScore"])
      && svc.insert(BuildRow(r, a).value).Inserted?
  {
  }

  /** The one path to a stored scan: a valid POST whose analysis yields a
      row, which is inserted last, after the lookup and the classifier call. */
  lemma StoredScanPath(svc: Services, req: HttpRequest) returns (r: AnalysisRequest, row: ScanRow)
    requires Handle(svc, req).response.body.StoredScan?
    ensures req.httpMethod == "POST" && req.body.Some? && Validate(svc.formats, req.body.value) == Success(r)
    ensures svc.classify(BuildPrompt(r)).Completion?
    ensures BuildRow(r, Sanitize(svc.parseJson, svc.classify(BuildPrompt(r)).content)) == Some(row)
    ensures Handle(svc, req).response.body.row == row && Handle(svc, req).trace == FullTrace(r, row)
  {
    r := Validate(svc.formats, req.body.value).value;
    row := BuildRow(r, Sanitize(svc.parseJson, svc.classify(BuildPrompt(r)).content)).value;
  }

  /** A stored row copies the request's identity fields unchanged, and its
      previews are the first 200 and 500 characters of the content, the
      first a prefix of the second, the second a prefix of the content; the
      insert was the last of the three effects. */
  lemma StoredRowFaithful(svc: Services, req: HttpRequest)
    requires Handle(svc, req).response.body.StoredScan?
    ensures req.body.Some? && Validate(svc.formats, req.body.value).Success?
    ensures var r := Validate(svc.formats, req.body.value).value;
      var row := Handle(svc, req).response.body.row;
      && row.userId == r.userId && row.emailId == r.emailId
      && row.subject == r.subject && row.sender == r.sender
      && row.senderEmail == r.senderEmail && row.receivedDate == r.receivedDate
      && row.preview == Take(r.content, PreviewLimit)
      && row.contentPreview == Take(r.content, ContentPreviewLimit)
      && row.preview <= row.contentPreview <= r.content
      && Handle(svc, req).trace == FullTrace(r, row)
  {
    var r, row := StoredScanPath(svc, req);
    TakeOfTake(r.content, ContentPreviewLimit, PreviewLimit);
  }

  /** A parsed object is trusted as it is: whatever score and level it
      carries, even out of range or outside the three levels, reaches the
      row unchanged, as long as the score's `toString()` does not throw. */
  lemma ParsedAnalysisUnchecked(r: AnalysisRequest, parse: string -> Option<map<string, Value>>, reply: string)
    requires BraceSpan(reply).Some?
    requires parse(BraceSpan(reply).value).Some?
    requires var obj := parse(BraceSpan(reply).value).value;
      "riskScore" in obj && !ToStringThrows(obj["riskScore"])
    ensures var obj := parse(BraceSpan(reply).value).value;
      var row := BuildRow(r, Sanitize(parse, Some(reply)));
      && row.Some?
      && row.value.riskScore == obj["riskScore"]
      && row.value.riskLevel == Property(obj, "riskLevel")
  {
  }

  /** A parsed object without a score, or with one whose `toString()`
      throws, passes the sanitizer but fails the row's `toString()`, outside
      the sanitizer's protection: the request ends in 500 right after the
      classifier call and nothing is inserted. */
  lemma UnprintableScoreIsServerError(svc: Services, body: Value)
    requires Validate(svc.formats, body).Success?
    requires var r := Validate(svc.formats, body).value;
      && svc.clientConfigured && svc.profileFound(r.userId) && svc.apiKeySet
      && svc.classify(BuildPrompt(r)).Completion?
      && var text := ReplyText(svc.classify(BuildPrompt(r)).content);
      && BraceSpan(text).Some?
      && svc.parseJson(BraceSpan(text).value).Some?
      && var obj := svc.parseJson(BraceSpan(text).value).value;
      "riskScore" !in obj || ToStringThrows(obj["riskScore"])
    ensures var out := Handle(svc, HttpRequest("POST", Some(body)));
      var r := Validate(svc.formats, body).value;
      && out.response.status == 500
      && out.response.body == ServerError(ScoreToStringFailed)
      && out.trace == [ProfileLookup(r.userId), ClassifierCall(BuildPrompt(r))]
  {
  }

  /** A fallback analysis always has a score, so a reply the sanitizer
      could not use never causes the 500 of a missing score. */
  lemma FallbackNeverLosesScore(r: AnalysisRequest, parse: string -> Option<map<string, Value>>, content: Option<string>)
    requires BraceSpan(ReplyText(content)).None? || parse(BraceSpan(ReplyText(content)).value).None?
    ensures var row := BuildRow(r, Sanitize(parse, content));
      && row.Some? && row.value.riskScore == JNumber(15.0)
      && row.value.riskLevel == Some(JString("safe"))
  {
  }
}

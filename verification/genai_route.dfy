/**
 * The recommendations route that calls the GenAI agent itself: the agent
 * call with its configuration check, the remapping and filtering of the
 * agent's plants, the response with its fallbacks, and the failure handling,
 * where the agent call's own HTTP errors pass through untouched while every
 * other failure is logged and classified.
 */
module GenAiRoute {
  import opened Wrappers
  import opened Text
  import opened JsonValue
  import opened Schemas
  import opened Gateway
  import opened Classification
  import opened Context
  import opened Extraction
  import opened Plants
  import opened Storage
  import opened Logging
  import opened Phrases
  import LlmRoute

  const NotConfiguredDetail := "GenAI Agent not configured. Please check environment variables."
  const ApiErrorPrefix := "GenAI Agent API error: "
  const TimedOutDetail := "Request to GenAI Agent timed out"
  const AgentMissingPlants := "Missing 'plants' field in GenAI Agent response"
  const AgentNoValidPlants := "No valid plants in GenAI Agent response"
  const AgentGeneratedBy := "genai_agent"

  /**
   * How a failure leaves the handler: an `HTTPException` raised by the agent
   * call is re-raised unchanged; any other exception is caught with its message.
   */
  datatype Failure = Passed(status: int, detail: string) | Caught(message: string)

  /** The `detail` of a raised `HTTPException`: a plain text or an error body. */
  datatype Detail = Text(text: string) | Body(body: ErrorResponse)

  datatype Outcome = Returned(response: Response) | Raised(status: int, detail: Detail)

  /**
   * `call_genai_agent`: refused with 503 before any request when the
   * configuration is missing; an error status and a timeout become HTTP
   * errors; any other transport failure, and a body that does not decode,
   * escape as ordinary exceptions.
   */
  function CallAgent(apiKey: Option<string>, baseUrl: Option<string>, reply: Reply, parse: Parser): (r: Result<Json, Failure>)
    ensures !AgentConfigured(apiKey, baseUrl) ==> r == Err(Passed(503, NotConfiguredDetail))
    ensures AgentConfigured(apiKey, baseUrl) && reply.TimedOut? ==> r == Err(Passed(504, TimedOutDetail))
    ensures AgentConfigured(apiKey, baseUrl) && reply.Received? && !IsSuccess(reply.status)
            ==> r == Err(Passed(reply.status, ApiErrorPrefix + reply.text))
    ensures AgentConfigured(apiKey, baseUrl) && reply.TransportFailure? ==> r == Err(Caught(reply.message))
    ensures r.Ok? <==> AgentConfigured(apiKey, baseUrl) && reply.Received? && IsSuccess(reply.status)
                       && parse(reply.text).Ok?
    ensures r.Ok? ==> r == Ok(parse(reply.text).value)
  {
    if !AgentConfigured(apiKey, baseUrl) then Err(Passed(503, NotConfiguredDetail))
    else match reply
      case TimedOut => Err(Passed(504, TimedOutDetail))
      case TransportFailure(m) => Err(Caught(m))
      case Received(status, text) =>
        if !IsSuccess(status) then Err(Passed(status, ApiErrorPrefix + text))
        else match parse(text)
          case Err(e) => Err(Caught(e))
          case Ok(data) => Ok(data)
  }

  /**
   * The validation block of the handler: `plants` must be present; each entry
   * is remapped and validated, the survivors kept in order; at least one must
   * survive; `location` and `season` come from the agent's object when
   * present, else from the request and the derived season.
   */
  function AgentValidation(request: Request, month: int, rec: Json): (r: Result<Response, string>)
    requires 1 <= month <= 12
    ensures rec.JObj? && "plants" !in rec.fields ==> r == Err(AgentMissingPlants)
    ensures r.Ok? ==> ValidResponse(r.value) && r.value.generatedBy == AgentGeneratedBy
    ensures r.Ok? ==> && rec.JObj? && "plants" in rec.fields && Iterate(rec.fields["plants"]).Ok?
                      && r.value.plants == ValidPlants(Iterate(rec.fields["plants"]).value, RemappedPlant)
    ensures r.Ok? ==> JStr(r.value.location) == Pick(rec.fields, "location", JStr(request.location))
                      && JStr(r.value.season) == Pick(rec.fields, "season", JStr(CurrentSeason(month)))
    ensures rec.JObj? && "plants" in rec.fields && Iterate(rec.fields["plants"]).Ok?
            && ValidPlants(Iterate(rec.fields["plants"]).value, RemappedPlant) == []
            ==> r == Err(AgentNoValidPlants)
    ensures rec.JObj? && "plants" in rec.fields && Iterate(rec.fields["plants"]).Ok?
            && ValidPlants(Iterate(rec.fields["plants"]).value, RemappedPlant) != []
            ==> r == MakeResponse(Pick(rec.fields, "location", JStr(request.location)),
                                  Pick(rec.fields, "season", JStr(CurrentSeason(month))),
                                  ValidPlants(Iterate(rec.fields["plants"]).value, RemappedPlant), AgentGeneratedBy)
  {
    match PyIn("plants", rec)
    case None => Err(TypeMismatch)
    case Some(present) =>
      if !present then Err(AgentMissingPlants)
      else match Index(rec, "plants")
        case Err(e) => Err(e)
        case Ok(entries) =>
          match Iterate(entries)
          case Err(e) => Err(e)
          case Ok(items) =>
            var plants := ValidPlants(items, RemappedPlant);
            if plants == [] then Err(AgentNoValidPlants)
            else
              var location := Pick(rec.fields, "location", JStr(request.location));
              var season := Pick(rec.fields, "season", JStr(CurrentSeason(month)));
              MakeResponse(location, season, plants, AgentGeneratedBy)
  }

  /** What the handler's body produces before its exception handlers run. */
  function AgentRecommendation(apiKey: Option<string>, baseUrl: Option<string>, request: Request, month: int,
                               reply: Reply, parse: Parser): (r: Result<Response, Failure>)
    requires 1 <= month <= 12
    ensures r.Err? && r.error.Passed? <==>
              !AgentConfigured(apiKey, baseUrl) || reply.TimedOut? || (reply.Received? && !IsSuccess(reply.status))
    ensures r.Ok? ==> && AgentConfigured(apiKey, baseUrl) && reply.Received? && IsSuccess(reply.status)
                      && parse(reply.text).Ok? && ParseAgentResponse(parse(reply.text).value, parse).Ok?
                      && AgentValidation(request, month, ParseAgentResponse(parse(reply.text).value, parse).value) == Ok(r.value)
    ensures r.Ok? ==> ValidResponse(r.value) && r.value.generatedBy == AgentGeneratedBy
    ensures CallAgent(apiKey, baseUrl, reply, parse).Err? ==> r == Err(CallAgent(apiKey, baseUrl, reply, parse).error)
    ensures AgentConfigured(apiKey, baseUrl) && reply.Received? && IsSuccess(reply.status) && parse(reply.text).Ok?
            ==> var parsed := ParseAgentResponse(parse(reply.text).value, parse);
                && (parsed.Err? ==> r == Err(Caught(parsed.error)))
                && (parsed.Ok? && AgentValidation(request, month, parsed.value).Ok?
                    ==> r == Ok(AgentValidation(request, month, parsed.value).value))
                && (parsed.Ok? && AgentValidation(request, month, parsed.value).Err?
                    ==> r == Err(Caught(AgentValidation(request, month, parsed.value).error)))
  {
    match CallAgent(apiKey, baseUrl, reply, parse)
    case Err(f) => Err(f)
    case Ok(data) =>
      match ParseAgentResponse(data, parse)
      case Err(e) => Err(Caught(e))
      case Ok(rec) =>
        match AgentValidation(request, month, rec)
        case Err(e) => Err(Caught(e))
        case Ok(response) => Ok(response)
  }

  /** What is raised for a failure: a passed-through error as it is, a caught one classified. */
  function FailureOutcome(f: Failure): (o: Outcome)
    ensures f.Passed? ==> o == Raised(f.status, Text(f.detail))
    ensures f.Caught? ==> o == Raised(Status(Classify(f.message)), Body(ErrorBody(f.message, GenAiErrorCode)))
  {
    match f
    case Passed(status, detail) => Raised(status, Text(detail))
    case Caught(message) => Raised(Status(Classify(message)), Body(ErrorBody(message, GenAiErrorCode)))
  }

  /** The handler's result as the log bookkeeping sees it. */
  function Logged(r: Result<Response, Failure>): Result<Response, string>
    requires r.Ok? || r.error.Caught?
  {
    if r.Ok? then Ok(r.value) else Err(r.error.message)
  }

  /** The validation block, with its remapping loop. */
  method ValidateAgentRecommendation(request: Request, month: int, rec: Json) returns (r: Result<Response, string>)
    requires 1 <= month <= 12
    ensures r == AgentValidation(request, month, rec)
  {
    var present := PyIn("plants", rec);
    if present.None? { return Err(TypeMismatch); }
    if !present.value { return Err(AgentMissingPlants); }
    var entries := Index(rec, "plants");
    if entries.Err? { return Err(entries.error); }
    var items := Iterate(entries.value);
    if items.Err? { return Err(items.error); }
    var plants := CollectValidPlants(items.value, RemappedPlant);
    if plants == [] { return Err(AgentNoValidPlants); }
    var location := Pick(rec.fields, "location", JStr(request.location));
    var season := Pick(rec.fields, "season", JStr(CurrentSeason(month)));
    r := MakeResponse(location, season, plants, AgentGeneratedBy);
  }

  /**
   * `get_plant_recommendations`: an HTTP error from the agent call is raised
   * unchanged and nothing is logged; otherwise the log data is updated and
   * logged exactly once, and a failure is raised with its classified status.
   */
  method GetPlantRecommendations(logger: RequestLogger, apiKey: Option<string>, baseUrl: Option<string>,
                                 request: Request, month: int, reply: Reply, parse: Parser,
                                 start: DateTime, elapsedMs: int, now: DateTime, putOk: bool)
    returns (outcome: Outcome)
    requires 1 <= month <= 12 && ValidDateTime(start) && ValidDateTime(now)
    modifies logger, logger.spaces`uploads
    ensures var r := AgentRecommendation(apiKey, baseUrl, request, month, reply, parse);
            && outcome == (if r.Ok? then Returned(r.value) else FailureOutcome(r.error))
            && (r.Err? && r.error.Passed? ==> && logger.lines == old(logger.lines)
                                              && logger.spaces.uploads == old(logger.spaces.uploads))
            && (r.Ok? || r.error.Caught? ==>
                  var logged := LlmRoute.LogDataJson(LlmRoute.UpdatedLogData(
                                  LlmRoute.InitialLogData(start, request), Logged(r), elapsedMs));
                  && logger.lines == old(logger.lines) + [logged]
                  && logger.spaces.uploads == old(logger.spaces.uploads)
                                              + BackupUploads(logger.spaces.enabled, logger.spaces.hasClient,
                                                              logger.spaces.bucket, logged, now, putOk))
  {
    var logData := LlmRoute.InitialLogData(start, request);
    var result: Result<Response, Failure>;
    var called := CallAgent(apiKey, baseUrl, reply, parse);
    if called.Err? {
      result := Err(called.error);
    } else {
      var rec := ParseAgentResponse(called.value, parse);
      if rec.Err? {
        result := Err(Caught(rec.error));
      } else {
        var validated := ValidateAgentRecommendation(request, month, rec.value);
        result := if validated.Ok? then Ok(validated.value) else Err(Caught(validated.error));
      }
    }
    if result.Err? && result.error.Passed? {
      return FailureOutcome(result.error);
    }
    logData := LlmRoute.UpdatedLogData(logData, Logged(result), elapsedMs);
    logger.LogRequest(LlmRoute.LogDataJson(logData), now, putOk);
    outcome := if result.Ok? then Returned(result.value) else FailureOutcome(result.error);
  }

  /** `Lower(a + e)` split at the colon that ends the prefix. */
  lemma {:induction false} MentionsAfterPrefix(a: string, e: string, p: string)
    requires ColonEnded(Lower(a))
    requires p != [] && p[0] != ' ' && ':' !in p
    ensures Mentions(a + e, p) <==> Contains(Lower(a), p) || Mentions(e, p)
  {
    LowerAppend(a, e);
    ContainsAfterColon(Lower(a), Lower(e), p);
  }

  lemma ParseFailurePrefixColonEnded()
    ensures ColonEnded(Lower(ParseFailurePrefix))
  {
    ParseFailurePrefixLower();
  }

  /**
   * An agent reply that cannot be parsed: unless the inner message names a
   * phrase itself, the classification finds none and the route answers 500
   * "genai_agent_failed".
   */
  lemma {:induction false} ParseFailureIs500(e: string)
    requires LlmRoute.Quiet(e)
    ensures FailureOutcome(Caught(ParseFailurePrefix + e))
            == Raised(500, Body(ErrorResponse("genai_agent_failed", MessagePrefix + ParseFailurePrefix + e, true)))
  {
    ParseFailurePrefixColonEnded();
    ParseFailurePrefixPhrases();
    MentionsAfterPrefix(ParseFailurePrefix, e, "not configured");
    MentionsAfterPrefix(ParseFailurePrefix, e, "authentication");
    MentionsAfterPrefix(ParseFailurePrefix, e, "api key");
    MentionsAfterPrefix(ParseFailurePrefix, e, "timeout");
    MentionsAfterPrefix(ParseFailurePrefix, e, "rate limit");
    MentionsAfterPrefix(ParseFailurePrefix, e, "json");
    assert MessagePrefix + (ParseFailurePrefix + e) == MessagePrefix + ParseFailurePrefix + e;
  }

  /**
   * A completion with no JSON to extract names "json" but not "invalid", so
   * it is not classified as an invalid response: it is a 500 as well.
   */
  lemma {:induction false} NoJsonFoundIs500()
    ensures FailureOutcome(Caught(ParseFailurePrefix + NoJsonFound)).status == 500
  {
    ParseFailurePrefixColonEnded();
    ParseFailurePrefixPhrases();
    NoJsonFoundPhrases();
    MentionsAfterPrefix(ParseFailurePrefix, NoJsonFound, "not configured");
    MentionsAfterPrefix(ParseFailurePrefix, NoJsonFound, "authentication");
    MentionsAfterPrefix(ParseFailurePrefix, NoJsonFound, "api key");
    MentionsAfterPrefix(ParseFailurePrefix, NoJsonFound, "timeout");
    MentionsAfterPrefix(ParseFailurePrefix, NoJsonFound, "rate limit");
    MentionsAfterPrefix(ParseFailurePrefix, NoJsonFound, "invalid");
  }

  /** A parsed object without `plants`, or whose entries all fail, ends as a logged 500. */
  lemma {:induction false} ValidationFailuresAre500()
    ensures FailureOutcome(Caught(AgentMissingPlants)).status == 500
    ensures FailureOutcome(Caught(AgentNoValidPlants)).status == 500
  {
    AgentMissingPlantsPhrases();
    AgentNoValidPlantsPhrases();
  }
}

/**
 * The recommendations route in front of the direct LLM service: the
 * availability dependency, the request-log bookkeeping, and the translation
 * of the service's failures into HTTP errors by the shared classification.
 */
module LlmRoute {
  import opened Wrappers
  import opened Text
  import opened JsonValue
  import opened Schemas
  import opened Gateway
  import opened Classification
  import opened LlmService
  import opened Plants
  import opened Storage
  import opened Logging
  import opened Phrases

  datatype HttpError = HttpError(status: int, detail: ErrorResponse)

  /** What the handler does: return a response or raise an HTTP error. */
  datatype Outcome = Returned(response: Response) | Raised(error: HttpError)

  const UnavailableMessage := "LLM service is not configured. Please check environment variables."

  /** `validate_llm_service`: a disabled service is refused with 503 before the handler runs. */
  function ValidateLlmService(enabled: bool): (r: Option<HttpError>)
    ensures r.None? <==> enabled
    ensures r.Some? ==> && r.value.status == 503 && r.value.detail.error == "llm_service_unavailable"
                        && r.value.detail.message == UnavailableMessage && !r.value.detail.retrySuggested
  {
    if enabled then None
    else Some(HttpError(503, MakeErrorResponse("llm_service_unavailable", UnavailableMessage, Some(false))))
  }

  /** The `log_data` dictionary of one request. */
  datatype LogData = LogData(timestamp: DateTime, request: Request, success: bool, error: Option<string>,
                             responseTimeMs: int, plantCount: nat)

  /** `log_data` as first built: a failure with no error, no time and no plants. */
  function InitialLogData(start: DateTime, request: Request): (d: LogData)
    ensures d.request == request && d.timestamp == start
    ensures !d.success && d.error.None? && d.responseTimeMs == 0 && d.plantCount == 0
  {
    LogData(start, request, false, None, 0, 0)
  }

  /** The `log_data.update(...)` of each path. */
  function UpdatedLogData(d: LogData, r: Result<Response, string>, elapsedMs: int): (u: LogData)
    ensures u.request == d.request && u.timestamp == d.timestamp && u.responseTimeMs == elapsedMs
    ensures r.Ok? ==> u.success && u.plantCount == |r.value.plants| && u.error == d.error
    ensures r.Err? ==> !u.success && u.error == Some(r.error) && u.plantCount == d.plantCount
  {
    match r
    case Ok(response) => d.(success := true, responseTimeMs := elapsedMs, plantCount := |response.plants|)
    case Err(message) => d.(success := false, error := Some(message), responseTimeMs := elapsedMs)
  }

  /** The log of one handled request: success exactly when a response came back, with its plant count; else the message. */
  lemma {:induction false} LogDataRecordsOutcome(start: DateTime, request: Request, r: Result<Response, string>, elapsedMs: int)
    ensures var u := UpdatedLogData(InitialLogData(start, request), r, elapsedMs);
            && (u.success <==> r.Ok?)
            && u.plantCount == (if r.Ok? then |r.value.plants| else 0)
            && u.error == (if r.Err? then Some(r.error) else None)
  {
  }

  /** The dictionary passed to `log_request`. */
  function LogDataJson(d: LogData): map<string, Json>
    requires ValidDateTime(d.timestamp)
  {
    map["timestamp" := JStr(IsoFormat(d.timestamp)), "direction" := JStr(DirectionValue(d.request.direction)),
        "water" := JStr(LevelValue(d.request.water)), "maintenance" := JStr(LevelValue(d.request.maintenance)),
        "error" := if d.error.Some? then JStr(d.error.value) else JNull,
        "response_time_ms" := JNum(d.responseTimeMs), "plant_count" := JNum(d.plantCount),
        "location" := JStr(d.request.location), "garden_type" := JStr(GardenTypeValue(d.request.gardenType)),
        "success" := JBool(d.success)]
  }

  /** The HTTP error a failure message becomes. */
  function FailureError(message: string): (e: HttpError)
    ensures e.status == Status(Classify(message))
    ensures e.detail == ErrorBody(message, LlmErrorCode)
  {
    HttpError(Status(Classify(message)), ErrorBody(message, LlmErrorCode))
  }

  /**
   * `get_plant_recommendations` behind its dependency: a disabled service is
   * refused before anything is logged; otherwise the service is called, the
   * log data is updated and logged exactly once, and a failure is raised with
   * its classified status.
   */
  method GetPlantRecommendations(service: LlmService, logger: RequestLogger, request: Request, month: int,
                                 reply: Reply, parse: Parser, start: DateTime, elapsedMs: int,
                                 now: DateTime, putOk: bool)
    returns (outcome: Outcome)
    requires ValidDateTime(start) && ValidDateTime(now)
    modifies logger, logger.spaces`uploads
    ensures !service.enabled ==> && outcome == Raised(ValidateLlmService(false).value)
                                 && logger.lines == old(logger.lines)
                                 && logger.spaces.uploads == old(logger.spaces.uploads)
    ensures service.enabled ==>
              var r := Recommendation(true, request, month, reply, parse);
              var logged := LogDataJson(UpdatedLogData(InitialLogData(start, request), r, elapsedMs));
              && outcome == (if r.Ok? then Returned(r.value) else Raised(FailureError(r.error)))
              && logger.lines == old(logger.lines) + [logged]
              && logger.spaces.uploads == old(logger.spaces.uploads)
                                          + BackupUploads(logger.spaces.enabled, logger.spaces.hasClient,
                                                          logger.spaces.bucket, logged, now, putOk)
  {
    var refused := ValidateLlmService(service.enabled);
    if refused.Some? {
      return Raised(refused.value);
    }
    var logData := InitialLogData(start, request);
    var r := service.GetRecommendations(request, month, reply, parse);
    logData := UpdatedLogData(logData, r, elapsedMs);
    logger.LogRequest(LogDataJson(logData), now, putOk);
    if r.Ok? {
      outcome := Returned(r.value);
    } else {
      outcome := Raised(FailureError(r.error));
    }
  }

  /** None of the phrases the classification tests, except "invalid". */
  predicate Quiet(message: string) {
    && !Mentions(message, "not configured") && !Mentions(message, "authentication")
    && !Mentions(message, "api key") && !Mentions(message, "timeout")
    && !Mentions(message, "rate limit") && !Mentions(message, "json")
  }

  /**
   * The service's timeout message does not contain "timeout", so the route
   * answers 500 "llm_service_failed" rather than 504.
   */
  lemma {:induction false} ServiceTimeoutIsGeneralFailure(request: Request, month: int, parse: Parser)
    ensures var r := Recommendation(true, request, month, TimedOut, parse);
            && r.Err?
            && FailureError(r.error).status == 500
            && FailureError(r.error).detail.error == "llm_service_failed"
            && FailureError(r.error).detail.retrySuggested
  {
    TimedOutMessageIsQuiet();
  }

  lemma {:induction false} TimedOutMessageIsQuiet()
    ensures Quiet(TimedOutMessage)
  {
    TimedOutPhrases();
  }

  /** A 429 from upstream reaches the client as 429 "rate_limit_exceeded", with a retry suggested. */
  lemma {:induction false} UpstreamRateLimitIs429(request: Request, month: int, text: string, parse: Parser)
    ensures var r := Recommendation(true, request, month, Received(429, text), parse);
            && r == Err(RateLimitMessage)
            && FailureError(r.error).status == 429
            && FailureError(r.error).detail.error == "rate_limit_exceeded"
            && FailureError(r.error).detail.retrySuggested
  {
    RateLimitMessagePhrases();
  }

  lemma {:induction false} RateLimitMessagePhrases()
    ensures !Mentions(RateLimitMessage, "not configured") && !Mentions(RateLimitMessage, "authentication")
            && !Mentions(RateLimitMessage, "api key") && !Mentions(RateLimitMessage, "timeout")
            && Mentions(RateLimitMessage, "rate limit")
  {
    RateLimitPhrases();
  }

  /** A 401 from upstream is an authentication failure: 503 without a retry. */
  lemma {:induction false} UpstreamUnauthorizedIs503(request: Request, month: int, text: string, parse: Parser)
    ensures var r := Recommendation(true, request, month, Received(401, text), parse);
            && r == Err(AuthenticationMessage)
            && FailureError(r.error).status == 503
            && FailureError(r.error).detail.error == "authentication_failed"
            && !FailureError(r.error).detail.retrySuggested
  {
    AuthenticationMessagePhrases();
  }

  lemma {:induction false} AuthenticationMessagePhrases()
    ensures !Mentions(AuthenticationMessage, "not configured") && Mentions(AuthenticationMessage, "authentication")
  {
    AuthenticationPhrases();
  }

  /**
   * Any other upstream error status becomes "LLM service error: <code>",
   * which mentions no phrase, so the route answers 500.
   */
  lemma {:induction false} OtherUpstreamStatusIs500(request: Request, month: int, code: nat, text: string, parse: Parser)
    requires !IsSuccess(code) && code != 401 && code != 429
    ensures var r := Recommendation(true, request, month, Received(code, text), parse);
            && r.Err? && ServiceErrorFor(r.error, code)
            && FailureError(r.error).status == 500
            && FailureError(r.error).detail.error == "llm_service_failed"
  {
    ServiceErrorIsQuiet(StatusMessage(code), code);
  }

  lemma {:induction false} ServiceErrorIsQuiet(message: string, code: nat)
    requires ServiceErrorFor(message, code)
    ensures Quiet(message)
  {
    var p := ServiceErrorPrefix;
    var digits := message[|p|..];
    assert message == p + digits;
    LowerAppend(p, digits);
    LowerDigits(digits);
    ServiceErrorPrefixColonEnded();
    ServiceErrorPrefixPhrases();
    DigitsAfterColon(Lower(p), digits, "not configured");
    DigitsAfterColon(Lower(p), digits, "authentication");
    DigitsAfterColon(Lower(p), digits, "api key");
    DigitsAfterColon(Lower(p), digits, "timeout");
    DigitsAfterColon(Lower(p), digits, "rate limit");
    DigitsAfterColon(Lower(p), digits, "json");
  }

  lemma ServiceErrorPrefixColonEnded()
    ensures ColonEnded(Lower(ServiceErrorPrefix))
  {
    ServiceErrorPrefixLower();
  }

  lemma UnexpectedPrefixColonEnded()
    ensures ColonEnded(Lower(UnexpectedPrefix))
  {
    UnexpectedPrefixLower();
  }

  lemma InvalidJsonPrefixColonEnded()
    ensures ColonEnded(Lower(InvalidJsonPrefix))
  {
    InvalidJsonPrefixLower();
  }

  lemma InvalidFormatPrefixColonEnded()
    ensures ColonEnded(Lower(InvalidFormatPrefix))
  {
    InvalidFormatPrefixLower();
  }

  /** `Lower(a + b + e)` split at the two colons of the prefixes. */
  lemma {:induction false} MentionsAfterPrefixes(a: string, b: string, e: string, p: string)
    requires ColonEnded(Lower(a)) && ColonEnded(Lower(b))
    requires p != [] && p[0] != ' ' && ':' !in p
    ensures Mentions(a + b + e, p) <==> Contains(Lower(a), p) || Contains(Lower(b), p) || Mentions(e, p)
  {
    LowerAppend(a + b, e);
    LowerAppend(a, b);
    assert Lower(a + b + e) == Lower(a) + (Lower(b) + Lower(e));
    ContainsAfterColon(Lower(a), Lower(b) + Lower(e), p);
    ContainsAfterColon(Lower(b), Lower(e), p);
  }

  /**
   * A completion that is not valid JSON: unless the decoder's own message
   * names an earlier phrase, the route answers 502 "llm_response_invalid".
   */
  lemma {:induction false} UndecodableContentIs502(e: string)
    requires Quiet(e)
    ensures var message := UnexpectedPrefix + InvalidJsonPrefix + e;
            && FailureError(message).status == 502
            && FailureError(message).detail.error == "llm_response_invalid"
            && FailureError(message).detail.retrySuggested
  {
    UnexpectedPrefixColonEnded();
    InvalidJsonPrefixColonEnded();
    UnexpectedPrefixPhrases();
    InvalidJsonPrefixPhrases();
    MentionsAfterPrefixes(UnexpectedPrefix, InvalidJsonPrefix, e, "not configured");
    MentionsAfterPrefixes(UnexpectedPrefix, InvalidJsonPrefix, e, "authentication");
    MentionsAfterPrefixes(UnexpectedPrefix, InvalidJsonPrefix, e, "api key");
    MentionsAfterPrefixes(UnexpectedPrefix, InvalidJsonPrefix, e, "timeout");
    MentionsAfterPrefixes(UnexpectedPrefix, InvalidJsonPrefix, e, "rate limit");
    MentionsAfterPrefixes(UnexpectedPrefix, InvalidJsonPrefix, e, "invalid");
    MentionsAfterPrefixes(UnexpectedPrefix, InvalidJsonPrefix, e, "json");
  }

  /**
   * A reply that decodes but fails validation: "invalid" is in the prefix but
   * "json" is not, so unless the validation message names a phrase itself the
   * route answers 500.
   */
  lemma {:induction false} ValidationFailureIs500(e: string)
    requires Quiet(e)
    ensures var message := UnexpectedPrefix + InvalidFormatPrefix + e;
            && FailureError(message).status == 500
            && FailureError(message).detail.error == "llm_service_failed"
  {
    UnexpectedPrefixColonEnded();
    InvalidFormatPrefixColonEnded();
    UnexpectedPrefixPhrases();
    InvalidFormatPrefixPhrases();
    MentionsAfterPrefixes(UnexpectedPrefix, InvalidFormatPrefix, e, "not configured");
    MentionsAfterPrefixes(UnexpectedPrefix, InvalidFormatPrefix, e, "authentication");
    MentionsAfterPrefixes(UnexpectedPrefix, InvalidFormatPrefix, e, "api key");
    MentionsAfterPrefixes(UnexpectedPrefix, InvalidFormatPrefix, e, "timeout");
    MentionsAfterPrefixes(UnexpectedPrefix, InvalidFormatPrefix, e, "rate limit");
    MentionsAfterPrefixes(UnexpectedPrefix, InvalidFormatPrefix, e, "json");
  }

  /** The validation messages the service itself raises name no phrase. */
  lemma {:induction false} ValidationMessagesAreQuiet()
    ensures Quiet(MissingPlantsMessage) && Quiet(NoValidPlantsMessage)
  {
    MissingPlantsPhrases();
    NoValidPlantsPhrases();
  }

  /** A reply whose entries all fail validation ends as a 500, not a 502. */
  lemma {:induction false} NoValidPlantsIs500(request: Request, month: int, text: string, parse: Parser,
                                             data: Json, fields: map<string, Json>, entries: seq<Json>)
    requires parse(text) == Ok(data) && ParsedContent(data, parse) == Ok(JObj(fields))
    requires "plants" in fields && fields["plants"] == JArr(entries)
    requires forall i :: 0 <= i < |entries| ==> DirectPlant(entries[i]).None?
    ensures var r := Recommendation(true, request, month, Received(200, text), parse);
            && r == Err(UnexpectedPrefix + InvalidFormatPrefix + NoValidPlantsMessage)
            && FailureError(r.error).status == 500
  {
    ValidPlantsEmptyIff(entries, DirectPlant);
    ValidationMessagesAreQuiet();
    ValidationFailureIs500(NoValidPlantsMessage);
  }
}

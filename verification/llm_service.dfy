/**
 * The direct LLM service: its configuration test, its own season and
 * sun-exposure labels (which differ from the route helpers'), the mapping of
 * upstream statuses to messages, and `get_recommendations`, which parses the
 * completion strictly and keeps the plants that validate.
 */
module LlmService {
  import opened Wrappers
  import opened Text
  import opened JsonValue
  import opened Schemas
  import opened Gateway
  import opened Plants

  /** Present and not blank after strip, as `v and v.strip()` tests it. */
  predicate Filled(v: Option<string>) {
    v.Some? && Strip(v.value) != []
  }

  /** `_is_configured`: both the API key and the endpoint are set and not blank. */
  function IsConfigured(apiKey: Option<string>, endpoint: Option<string>): (ok: bool)
    ensures ok <==> && apiKey.Some? && (exists k :: 0 <= k < |apiKey.value| && !IsSpace(apiKey.value[k]))
                    && endpoint.Some? && (exists k :: 0 <= k < |endpoint.value| && !IsSpace(endpoint.value[k]))
  {
    StripEmptyIff(if apiKey.Some? then apiKey.value else "");
    StripEmptyIff(if endpoint.Some? then endpoint.value else "");
    Filled(apiKey) && Filled(endpoint)
  }

  const WinterLabel := "Winter - Indoor planning season"
  const SpringLabel := "Spring - Prime planting season"
  const SummerLabel := "Summer - Maintenance and late planting"
  const FallLabel := "Fall - Fall planting and preparation season"

  /** `_get_current_season`: December to February is winter, and every month outside the first three groups is fall. */
  function ServiceSeason(month: int): (season: string)
    ensures season == WinterLabel <==> month in {12, 1, 2}
    ensures season == SpringLabel <==> month in {3, 4, 5}
    ensures season == SummerLabel <==> month in {6, 7, 8}
    ensures season == FallLabel <==> month !in {12, 1, 2, 3, 4, 5, 6, 7, 8}
    ensures 5 <= |season| <= 100
  {
    if month in {12, 1, 2} then WinterLabel
    else if month in {3, 4, 5} then SpringLabel
    else if month in {6, 7, 8} then SummerLabel
    else FallLabel
  }

  const SunMapping: map<string, string> := map[
    "N" := "Shade to Partial Shade (north-facing)",
    "NE" := "Partial Shade (northeast-facing)",
    "NW" := "Partial Shade (northwest-facing)",
    "E" := "Partial Sun (east-facing, morning sun)",
    "W" := "Partial Sun (west-facing, afternoon sun)",
    "SE" := "Partial Sun to Full Sun (southeast-facing)",
    "SW" := "Partial Sun to Full Sun (southwest-facing)",
    "S" := "Full Sun (south-facing)"]

  const UnknownExposure := "Unknown sun exposure"

  /** `_get_sun_exposure`: an exact-case lookup; anything else is unknown. */
  function SunExposure(direction: string): (exposure: string)
    ensures exposure == UnknownExposure <==> direction !in {"N", "NE", "E", "SE", "S", "SW", "W", "NW"}
  {
    if direction in SunMapping then SunMapping[direction] else UnknownExposure
  }

  /** Every direction the request schema accepts has a known exposure. */
  lemma EveryDirectionHasExposure(d: Direction)
    ensures SunExposure(DirectionValue(d)) != UnknownExposure
  {
  }

  /** The lookup does not fold case: the lower-case codes are all unknown. */
  lemma LowerCaseExposureUnknown(d: Direction)
    ensures SunExposure(Lower(DirectionValue(d))) == UnknownExposure
  {
    match d
    case N => assert Lower("N") == "n";
    case NE => assert Lower("NE") == "ne";
    case E => assert Lower("E") == "e";
    case SE => assert Lower("SE") == "se";
    case S => assert Lower("S") == "s";
    case SW => assert Lower("SW") == "sw";
    case W => assert Lower("W") == "w";
    case NW => assert Lower("NW") == "nw";
  }

  const NotConfigured := "LLM service not configured"
  const TimedOutMessage := "Request timed out - please try again"
  const AuthenticationMessage := "Authentication failed - check API key"
  const RateLimitMessage := "Rate limit exceeded - please try again later"
  const ServiceErrorPrefix := "LLM service error: "
  const UnexpectedPrefix := "Failed to get recommendations: "
  const NoChoicesMessage := "Invalid LLM response format: no choices"
  const EmptyContentMessage := "Empty response from LLM service"
  const InvalidJsonPrefix := "Invalid JSON response from LLM: "
  const InvalidFormatPrefix := "Invalid response format from LLM: "
  const MissingPlantsMessage := "Missing 'plants' field in LLM response"
  const NoValidPlantsMessage := "No valid plants in LLM response"

  /** A message that is the service-error prefix followed by the decimal digits of `code`. */
  predicate ServiceErrorFor(message: string, code: nat) {
    && |ServiceErrorPrefix| < |message|
    && message[..|ServiceErrorPrefix|] == ServiceErrorPrefix
    && AllDigits(message[|ServiceErrorPrefix|..])
    && DecimalValue(message[|ServiceErrorPrefix|..]) == code
  }

  /** The message for an upstream error status: 401 and 429 have their own, every other code is quoted. */
  function StatusMessage(code: nat): (message: string)
    ensures code == 401 <==> message == AuthenticationMessage
    ensures code == 429 <==> message == RateLimitMessage
    ensures code != 401 && code != 429 ==> ServiceErrorFor(message, code)
  {
    if code == 401 then AuthenticationMessage
    else if code == 429 then RateLimitMessage
    else
      var digits := NatToString(code);
      var message := ServiceErrorPrefix + digits;
      assert message[0] == 'L';
      assert message[..|ServiceErrorPrefix|] == ServiceErrorPrefix && message[|ServiceErrorPrefix|..] == digits;
      message
  }

  /**
   * The completion text of a decoded reply: `choices` must be present and
   * truthy, `choices[0].get("message", {}).get("content", "")` must be a
   * non-empty string.
   */
  function ContentText(data: Json): (r: Result<string, string>)
    ensures data.JObj? && ("choices" !in data.fields || !Truthy(data.fields["choices"])) ==> r == Err(NoChoicesMessage)
    ensures r.Ok? ==> r.value != [] && data.JObj? && "choices" in data.fields && Truthy(data.fields["choices"])
    ensures r.Ok? ==> && FirstItem(data.fields["choices"]).Ok?
                      && Get(FirstItem(data.fields["choices"]).value, "message", JObj(map[])).Ok?
                      && Get(Get(FirstItem(data.fields["choices"]).value, "message", JObj(map[])).value,
                             "content", JStr("")) == Ok(JStr(r.value))
    ensures data.JObj? && "choices" in data.fields && Truthy(data.fields["choices"])
            && FirstItem(data.fields["choices"]).Ok?
            && Get(FirstItem(data.fields["choices"]).value, "message", JObj(map[])).Ok?
            ==> var content := Get(Get(FirstItem(data.fields["choices"]).value, "message", JObj(map[])).value,
                                   "content", JStr(""));
                && (content.Ok? && !Truthy(content.value) ==> r == Err(EmptyContentMessage))
                && (content.Ok? && content.value.JStr? && content.value.s != [] ==> r == Ok(content.value.s))
  {
    match PyIn("choices", data)
    case None => Err(TypeMismatch)
    case Some(present) =>
      if !present then Err(NoChoicesMessage)
      else match Index(data, "choices")
        case Err(e) => Err(e)
        case Ok(choices) =>
          if !Truthy(choices) then Err(NoChoicesMessage)
          else match FirstItem(choices)
            case Err(e) => Err(e)
            case Ok(first) =>
              match Get(first, "message", JObj(map[]))
              case Err(e) => Err(e)
              case Ok(message) =>
                match Get(message, "content", JStr(""))
                case Err(e) => Err(e)
                case Ok(content) =>
                  if !Truthy(content) then Err(EmptyContentMessage)
                  else if !content.JStr? then Err(TypeMismatch)
                  else Ok(content.s)
  }

  /** The completion text, stripped and parsed strictly: there is no fence or brace fallback. */
  function ParsedContent(data: Json, parse: Parser): (r: Result<Json, string>)
    ensures r.Ok? ==> ContentText(data).Ok? && r == parse(Strip(ContentText(data).value))
    ensures ContentText(data).Err? ==> r == Err(ContentText(data).error)
    ensures ContentText(data).Ok? && parse(Strip(ContentText(data).value)).Ok?
            ==> r == parse(Strip(ContentText(data).value))
    ensures ContentText(data).Ok? && parse(Strip(ContentText(data).value)).Err?
            ==> r == Err(InvalidJsonPrefix + parse(Strip(ContentText(data).value)).error)
  {
    match ContentText(data)
    case Err(e) => Err(e)
    case Ok(text) =>
      match parse(Strip(text))
      case Err(e) => Err(InvalidJsonPrefix + e)
      case Ok(v) => Ok(v)
  }

  /**
   * The validation block: `plants` must be present; every entry that is a
   * valid plant is kept in order; at least one must survive; `location` and
   * `season` come from the parsed object when present, else from the request
   * and the service's season.
   */
  function Validation(request: Request, month: int, data: Json): (r: Result<Response, string>)
    ensures data.JObj? && "plants" !in data.fields ==> r == Err(MissingPlantsMessage)
    ensures r.Ok? ==> ValidResponse(r.value) && r.value.generatedBy == "llm"
    ensures r.Ok? ==> && data.JObj? && "plants" in data.fields && Iterate(data.fields["plants"]).Ok?
                      && r.value.plants == ValidPlants(Iterate(data.fields["plants"]).value, DirectPlant)
    ensures r.Ok? ==> JStr(r.value.location) == Pick(data.fields, "location", JStr(request.location))
                      && JStr(r.value.season) == Pick(data.fields, "season", JStr(ServiceSeason(month)))
    ensures data.JObj? && "plants" in data.fields && Iterate(data.fields["plants"]).Ok?
            && ValidPlants(Iterate(data.fields["plants"]).value, DirectPlant) == []
            ==> r == Err(NoValidPlantsMessage)
    ensures data.JObj? && "plants" in data.fields && Iterate(data.fields["plants"]).Ok?
            && ValidPlants(Iterate(data.fields["plants"]).value, DirectPlant) != []
            ==> r == MakeResponse(Pick(data.fields, "location", JStr(request.location)),
                                  Pick(data.fields, "season", JStr(ServiceSeason(month))),
                                  ValidPlants(Iterate(data.fields["plants"]).value, DirectPlant), "llm")
  {
    match PyIn("plants", data)
    case None => Err(TypeMismatch)
    case Some(present) =>
      if !present then Err(MissingPlantsMessage)
      else match Index(data, "plants")
        case Err(e) => Err(e)
        case Ok(entries) =>
          match Iterate(entries)
          case Err(e) => Err(e)
          case Ok(items) =>
            var plants := ValidPlants(items, DirectPlant);
            if plants == [] then Err(NoValidPlantsMessage)
            else
              var location := Pick(data.fields, "location", JStr(request.location));
              var season := Pick(data.fields, "season", JStr(ServiceSeason(month)));
              MakeResponse(location, season, plants, "llm")
  }

  /**
   * `get_recommendations`: a disabled service fails before any request;
   * transport and status failures have fixed messages; every failure inside
   * the body is prefixed with "Failed to get recommendations: ", and
   * validation failures additionally with "Invalid response format from LLM: ".
   */
  function Recommendation(enabled: bool, request: Request, month: int, reply: Reply, parse: Parser): (r: Result<Response, string>)
    ensures !enabled ==> r == Err(NotConfigured)
    ensures enabled && reply.TimedOut? ==> r == Err(TimedOutMessage)
    ensures enabled && reply.TransportFailure? ==> r == Err(UnexpectedPrefix + reply.message)
    ensures enabled && reply.Received? && !IsSuccess(reply.status) ==> r == Err(StatusMessage(reply.status))
    ensures r.Ok? ==> ValidResponse(r.value) && r.value.generatedBy == "llm"
    ensures r.Ok? ==> && enabled && reply.Received? && IsSuccess(reply.status) && parse(reply.text).Ok?
                      && ParsedContent(parse(reply.text).value, parse).Ok?
                      && Validation(request, month, ParsedContent(parse(reply.text).value, parse).value) == r
    ensures r.Err? && enabled && reply.Received? && IsSuccess(reply.status)
            ==> exists e :: r.error == UnexpectedPrefix + e
    ensures enabled && reply.Received? && IsSuccess(reply.status) && parse(reply.text).Err?
            ==> r == Err(UnexpectedPrefix + parse(reply.text).error)
    ensures enabled && reply.Received? && IsSuccess(reply.status) && parse(reply.text).Ok?
            ==> var content := ParsedContent(parse(reply.text).value, parse);
                && (content.Err? ==> r == Err(UnexpectedPrefix + content.error))
                && (content.Ok? && Validation(request, month, content.value).Ok?
                    ==> r == Validation(request, month, content.value))
                && (content.Ok? && Validation(request, month, content.value).Err?
                    ==> r == Err(UnexpectedPrefix + InvalidFormatPrefix + Validation(request, month, content.value).error))
  {
    if !enabled then Err(NotConfigured)
    else match reply
      case TimedOut => Err(TimedOutMessage)
      case TransportFailure(m) => Err(UnexpectedPrefix + m)
      case Received(status, text) =>
        if !IsSuccess(status) then Err(StatusMessage(status))
        else match parse(text)
          case Err(e) => Err(UnexpectedPrefix + e)
          case Ok(data) =>
            match ParsedContent(data, parse)
            case Err(e) => Err(UnexpectedPrefix + e)
            case Ok(recommendation) =>
              match Validation(request, month, recommendation)
              case Err(e) =>
                assert UnexpectedPrefix + InvalidFormatPrefix + e == UnexpectedPrefix + (InvalidFormatPrefix + e);
                Err(UnexpectedPrefix + InvalidFormatPrefix + e)
              case Ok(response) => Ok(response)
  }

  /**
   * The only failures the service raises: the configuration message, the
   * timeout, the two special statuses, a quoted status code, or a wrapped
   * message from inside the call.
   */
  lemma {:induction false} FailureMessages(enabled: bool, request: Request, month: int, reply: Reply, parse: Parser)
    ensures var r := Recommendation(enabled, request, month, reply, parse);
            r.Err? ==> || r.error == NotConfigured || r.error == TimedOutMessage
                       || r.error == AuthenticationMessage || r.error == RateLimitMessage
                       || (reply.Received? && ServiceErrorFor(r.error, reply.status))
                       || exists e :: r.error == UnexpectedPrefix + e
  {
    if enabled && reply.Received? && !IsSuccess(reply.status) {
      var code := reply.status;
      if code != 401 && code != 429 {
        assert ServiceErrorFor(StatusMessage(code), code);
      }
    }
  }

  /**
   * A well-formed reply whose parsed object has valid plants and neither
   * `location` nor `season` yields the request's location and the service's
   * own season label.
   */
  lemma {:induction false} FallbacksFromRequest(request: Request, month: int, fields: map<string, Json>, entries: seq<Json>)
    requires "plants" in fields && fields["plants"] == JArr(entries)
    requires "location" !in fields && "season" !in fields
    requires 1 <= |ValidPlants(entries, DirectPlant)| <= 10
    ensures Validation(request, month, JObj(fields))
            == Ok(Response(request.location, ServiceSeason(month), ValidPlants(entries, DirectPlant), "llm"))
  {
  }

  /** The direct LLM service; its configuration is read once, when it is created. */
  class LlmService {
    const apiKey: Option<string>
    const endpoint: Option<string>
    const enabled: bool

    constructor(apiKey: Option<string>, endpoint: Option<string>)
      ensures this.apiKey == apiKey && this.endpoint == endpoint
      ensures enabled == IsConfigured(apiKey, endpoint)
    {
      this.apiKey := apiKey;
      this.endpoint := endpoint;
      enabled := IsConfigured(apiKey, endpoint);
    }

    /** The validation block, with its plant loop. */
    static method ValidateRecommendation(request: Request, month: int, data: Json) returns (r: Result<Response, string>)
      ensures r == Validation(request, month, data)
    {
      var present := PyIn("plants", data);
      if present.None? { return Err(TypeMismatch); }
      if !present.value { return Err(MissingPlantsMessage); }
      var entries := Index(data, "plants");
      if entries.Err? { return Err(entries.error); }
      var items := Iterate(entries.value);
      if items.Err? { return Err(items.error); }
      var plants := CollectValidPlants(items.value, DirectPlant);
      if plants == [] { return Err(NoValidPlantsMessage); }
      var location := Pick(data.fields, "location", JStr(request.location));
      var season := Pick(data.fields, "season", JStr(ServiceSeason(month)));
      r := MakeResponse(location, season, plants, "llm");
    }

    /** `get_recommendations`, with the gateway's reply, the decoder and the month supplied by the caller. */
    method GetRecommendations(request: Request, month: int, reply: Reply, parse: Parser) returns (r: Result<Response, string>)
      ensures r == Recommendation(enabled, request, month, reply, parse)
    {
      if !enabled { return Err(NotConfigured); }
      match reply {
        case TimedOut => r := Err(TimedOutMessage);
        case TransportFailure(m) => r := Err(UnexpectedPrefix + m);
        case Received(status, text) =>
          if !IsSuccess(status) { return Err(StatusMessage(status)); }
          var data := parse(text);
          if data.Err? { return Err(UnexpectedPrefix + data.error); }
          var recommendation := ParsedContent(data.value, parse);
          if recommendation.Err? { return Err(UnexpectedPrefix + recommendation.error); }
          var validated := ValidateRecommendation(request, month, recommendation.value);
          if validated.Err? { return Err(UnexpectedPrefix + InvalidFormatPrefix + validated.error); }
          r := validated;
      }
    }
  }
}

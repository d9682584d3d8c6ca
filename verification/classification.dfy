/**
 * The error classification both recommendation routes apply to a failure's
 * message: a first-match chain of substring tests on the lower-cased text,
 * giving the HTTP status, the error code and whether a retry is suggested.
 */
module Classification {
  import opened Text
  import opened Wrappers
  import opened Schemas

  datatype ErrorKind = Unavailable | AuthenticationFailed | Timeout | RateLimited | ResponseInvalid | Failed

  predicate Mentions(message: string, phrase: string) {
    Contains(Lower(message), phrase)
  }

  /** The first test that matches decides; a message matching none is a general failure. */
  function Classify(message: string): (k: ErrorKind)
    ensures k == Unavailable <==> Mentions(message, "not configured")
    ensures k == AuthenticationFailed <==>
              !Mentions(message, "not configured")
              && (Mentions(message, "authentication") || Mentions(message, "api key"))
    ensures k == Timeout <==>
              !Mentions(message, "not configured") && !Mentions(message, "authentication")
              && !Mentions(message, "api key") && Mentions(message, "timeout")
    ensures k == RateLimited <==>
              !Mentions(message, "not configured") && !Mentions(message, "authentication")
              && !Mentions(message, "api key") && !Mentions(message, "timeout")
              && Mentions(message, "rate limit")
    ensures k == ResponseInvalid <==>
              !Mentions(message, "not configured") && !Mentions(message, "authentication")
              && !Mentions(message, "api key") && !Mentions(message, "timeout")
              && !Mentions(message, "rate limit")
              && Mentions(message, "invalid") && Mentions(message, "json")
  {
    var m := Lower(message);
    if Contains(m, "not configured") then Unavailable
    else if Contains(m, "authentication") || Contains(m, "api key") then AuthenticationFailed
    else if Contains(m, "timeout") then Timeout
    else if Contains(m, "rate limit") then RateLimited
    else if Contains(m, "invalid") && Contains(m, "json") then ResponseInvalid
    else Failed
  }

  function Status(k: ErrorKind): (status: int)
    ensures status in {503, 504, 429, 502, 500}
  {
    match k
    case Unavailable => 503
    case AuthenticationFailed => 503
    case Timeout => 504
    case RateLimited => 429
    case ResponseInvalid => 502
    case Failed => 500
  }

  /** A retry is suggested for every kind except the two configuration problems. */
  function RetrySuggested(k: ErrorKind): (retry: bool)
    ensures retry <==> Status(k) != 503
  {
    !(k == Unavailable || k == AuthenticationFailed)
  }

  /** The codes of the LLM-service route. */
  function LlmErrorCode(k: ErrorKind): string {
    match k
    case Unavailable => "llm_service_unavailable"
    case AuthenticationFailed => "authentication_failed"
    case Timeout => "request_timeout"
    case RateLimited => "rate_limit_exceeded"
    case ResponseInvalid => "llm_response_invalid"
    case Failed => "llm_service_failed"
  }

  /** The codes of the GenAI-agent route. */
  function GenAiErrorCode(k: ErrorKind): string {
    match k
    case Unavailable => "genai_agent_unavailable"
    case AuthenticationFailed => "authentication_failed"
    case Timeout => "request_timeout"
    case RateLimited => "rate_limit_exceeded"
    case ResponseInvalid => "genai_response_invalid"
    case Failed => "genai_agent_failed"
  }

  /** The two routes differ only in the codes for unavailable, invalid-response and general failures. */
  lemma CodesAgreeExceptProvenance(k: ErrorKind)
    ensures LlmErrorCode(k) == GenAiErrorCode(k) <==> k in {AuthenticationFailed, Timeout, RateLimited}
  {
  }

  const MessagePrefix := "Unable to generate plant recommendations: "

  /** The error body raised with the classified status. */
  function ErrorBody(message: string, code: ErrorKind -> string): (body: ErrorResponse)
    ensures body.message == MessagePrefix + message
    ensures body.error == code(Classify(message))
    ensures body.retrySuggested == RetrySuggested(Classify(message))
  {
    var k := Classify(message);
    MakeErrorResponse(code(k), MessagePrefix + message, Some(RetrySuggested(k)))
  }

  /** The first matching test wins: a message naming both a missing configuration and a timeout is 503. */
  lemma FirstMatchWins(message: string)
    requires Mentions(message, "not configured") && Mentions(message, "timeout")
    ensures Status(Classify(message)) == 503 && !RetrySuggested(Classify(message))
  {
  }
}

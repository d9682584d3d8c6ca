/**
 * The outcome of one HTTP call to a model gateway, as the callers observe it:
 * a response with a status and a body, a timeout, or any other transport
 * failure with its message.  The HTTP client itself is not modelled.
 */
module Gateway {
  import opened Wrappers

  datatype Reply =
    | Received(status: nat, text: string)
    | TimedOut
    | TransportFailure(message: string)

  /** `raise_for_status` lets exactly the 2xx statuses through. */
  predicate IsSuccess(status: nat) {
    200 <= status <= 299
  }

  /**
   * The GenAI agent's configuration test, `DO_AGENT_API_KEY and
   * DO_AGENT_BASE_URL`: both variables set and non-empty.
   */
  function AgentConfigured(apiKey: Option<string>, baseUrl: Option<string>): (ok: bool)
    ensures ok <==> apiKey.Some? && apiKey.value != [] && baseUrl.Some? && baseUrl.value != []
  {
    match (apiKey, baseUrl)
    case (Some(key), Some(url)) => key != [] && url != []
    case _ => false
  }
}

/**
 * `parse_agent_response`, identical in the demo API and the GenAI-agent
 * route: take the completion text out of a chat-completion reply and parse it
 * as JSON, trying the whole text first and then exactly one extraction chosen
 * by which markers the text contains.
 */
module Extraction {
  import opened Wrappers
  import opened Text
  import opened JsonValue

  const ParseFailurePrefix := "Failed to parse agent response: "
  const NoChoices := "No choices in agent response"
  const InvalidStructure := "Invalid response structure from agent"
  const NoJsonFound := "Could not extract JSON from agent response"

  /**
   * Python's `key in j` followed by the error Python raises when `j` is not a
   * container; used for the test on the first choice.
   */
  function HasKey(j: Json, key: string): Result<bool, string> {
    match PyIn(key, j)
    case Some(b) => Ok(b)
    case None => Err(TypeMismatch)
  }

  /**
   * The completion `content` of a reply: `choices` must be present and truthy;
   * the first choice's `message` is preferred over its `delta`.
   */
  function CompletionContent(reply: Json): (r: Result<Json, string>)
    ensures reply.JObj? && ("choices" !in reply.fields || !Truthy(reply.fields["choices"])) ==> r == Err(NoChoices)
    ensures reply.JObj? && "choices" in reply.fields && reply.fields["choices"].JStr? && reply.fields["choices"].s != []
            ==> r == Err(InvalidStructure)
    ensures reply.JObj? && "choices" in reply.fields && reply.fields["choices"].JObj?
            && reply.fields["choices"].fields != map[]
            ==> r == Err(KeyZeroMessage)
    ensures r.Ok? ==> reply.JObj? && "choices" in reply.fields && reply.fields["choices"].JArr?
                      && reply.fields["choices"].items != []
    ensures r.Ok? ==> var first := reply.fields["choices"].items[0];
                      first.JObj? &&
                      (if "message" in first.fields
                       then Index(first.fields["message"], "content") == r
                       else "delta" in first.fields && Index(first.fields["delta"], "content") == r)
  {
    match Get(reply, "choices", JArr([]))
    case Err(e) => Err(e)
    case Ok(choices) =>
      if !Truthy(choices) then Err(NoChoices)
      else match FirstItem(choices)
      case Err(e) => Err(e)
      case Ok(first) =>
        match HasKey(first, "message")
        case Err(e) => Err(e)
        case Ok(hasMessage) =>
          if hasMessage then
            (match Index(first, "message")
             case Err(e) => Err(e)
             case Ok(message) => Index(message, "content"))
          else
            match HasKey(first, "delta")
            case Err(e) => Err(e)
            case Ok(hasDelta) =>
              if !hasDelta then Err(InvalidStructure)
              else
                match Index(first, "delta")
                case Err(e) => Err(e)
                case Ok(delta) => Index(delta, "content")
  }

  /** The extraction tried after the whole text fails to parse; chosen by the markers present. */
  datatype Strategy = JsonFence | BareFence | BraceSpan

  function ChooseStrategy(content: string): (s: Strategy)
    ensures s == JsonFence <==> Contains(content, "```json")
    ensures s == BareFence <==> !Contains(content, "```json") && Contains(content, "```")
  {
    if Contains(content, "```json") then JsonFence
    else if Contains(content, "```") then BareFence
    else BraceSpan
  }

  /**
   * `content[start:end].strip()` where `start` is `offset` past the first
   * `opener` and `end` the next "```" after it; `find` gives -1 when there is
   * none, and the slice then ends one character before the end of the text.
   */
  function FenceBody(content: string, opener: string, offset: nat): (body: string)
    requires opener != []
    requires Contains(content, opener)
    ensures Find(content, opener, 0) >= 0
    ensures var start := Find(content, opener, 0) + offset;
            var end := Find(content, "```", start);
            end != -1 ==> && start <= end <= |content| && body == Strip(content[start..end])
                          && forall j: nat :: start <= j < end ==> !MatchAt(content, "```", j)
  {
    FindFoundIff(content, opener);
    var start := Find(content, opener, 0) + offset;
    var end := Find(content, "```", start);
    Strip(PySlice(content, start, end))
  }

  /** Position of the first `{`, if any. */
  function FirstOpenBrace(s: string): (r: Option<nat>)
    ensures r.Some? ==> r.value < |s| && s[r.value] == '{' && '{' !in s[..r.value]
    ensures r.None? ==> '{' !in s
  {
    if s == [] then None
    else if s[0] == '{' then Some(0)
    else match FirstOpenBrace(s[1..])
      case None => None
      case Some(i) =>
        assert s[..i + 1] == [s[0]] + s[1..][..i];
        Some(i + 1)
  }

  /** Position of the last `}`, if any. */
  function LastCloseBrace(s: string): (r: Option<nat>)
    ensures r.Some? ==> r.value < |s| && s[r.value] == '}' && '}' !in s[r.value + 1..]
    ensures r.None? ==> '}' !in s
  {
    if s == [] then None
    else if s[|s| - 1] == '}' then Some(|s| - 1)
    else
      var r := LastCloseBrace(s[..|s| - 1]);
      assert r.Some? ==> s[r.value + 1..] == s[..|s| - 1][r.value + 1..] + [s[|s| - 1]];
      assert r.None? ==> s == s[..|s| - 1] + [s[|s| - 1]];
      r
  }

  /** `content[i..j + 1]` runs from the first `{` to the last `}`. */
  predicate GreedySpanAt(content: string, i: int, j: int) {
    0 <= i < j < |content| && content[i] == '{' && content[j] == '}'
    && '{' !in content[..i] && '}' !in content[j + 1..]
  }

  /**
   * What `re.search(r'\{.*\}', content, re.DOTALL)` matches: the text from the
   * first `{` to the last `}`, when that `}` comes after that `{`.
   */
  function GreedyBraceMatch(content: string): (span: Option<string>)
    ensures span.Some? ==> |span.value| >= 2 && span.value[0] == '{' && span.value[|span.value| - 1] == '}'
    ensures span.Some? ==> exists i, j :: GreedySpanAt(content, i, j) && span.value == content[i..j + 1]
    ensures span.None? ==> forall i, j :: 0 <= i < j < |content| && content[i] == '{' ==> content[j] != '}'
  {
    match (FirstOpenBrace(content), LastCloseBrace(content))
    case (Some(i), Some(j)) =>
      if i < j then
        assert GreedySpanAt(content, i, j);
        Some(content[i..j + 1])
      else
        assert forall a, b :: 0 <= a < b < |content| && content[a] == '{' && content[b] == '}' ==> false by {
          forall a, b | 0 <= a < b < |content| && content[a] == '{' && content[b] == '}' ensures false {
          }
        }
        None
    case (None, _) =>
      assert forall a :: 0 <= a < |content| ==> content[a] != '{' by {
        forall a | 0 <= a < |content| ensures content[a] != '{' { assert content[a] in content; }
      }
      None
    case (_, None) =>
      assert forall b :: 0 <= b < |content| ==> content[b] != '}' by {
        forall b | 0 <= b < |content| ensures content[b] != '}' { assert content[b] in content; }
      }
      None
  }

  /** The text the chosen strategy hands to the parser; `None` when no brace span exists. */
  function Candidate(content: string): (c: Option<string>)
    ensures ChooseStrategy(content) != BraceSpan ==> c.Some?
  {
    match ChooseStrategy(content)
    case JsonFence => Some(FenceBody(content, "```json", 7))
    case BareFence => Some(FenceBody(content, "```", 3))
    case BraceSpan => GreedyBraceMatch(content)
  }

  /**
   * `parse_agent_response`: every failure surfaces with the prefix
   * "Failed to parse agent response: ".
   */
  function ParseAgentResponse(reply: Json, parse: Parser): (r: Result<Json, string>)
    ensures r.Err? ==> exists e :: r.error == ParseFailurePrefix + e
    ensures CompletionContent(reply).Err? ==> r == Err(ParseFailurePrefix + CompletionContent(reply).error)
    ensures CompletionContent(reply).Ok? && CompletionContent(reply).value.JStr?
            && parse(CompletionContent(reply).value.s).Ok?
            ==> r == parse(CompletionContent(reply).value.s)
    ensures r.Ok? ==> CompletionContent(reply).Ok? && CompletionContent(reply).value.JStr?
    ensures r.Ok? ==> var content := CompletionContent(reply).value.s;
                      r == parse(content) || (parse(content).Err? && Candidate(content).Some?
                                              && r == parse(Candidate(content).value))
  {
    match CompletionContent(reply)
    case Err(e) => Err(ParseFailurePrefix + e)
    case Ok(content) =>
      if !content.JStr? then Err(ParseFailurePrefix + TypeMismatch)
      else match parse(content.s)
        case Ok(v) => Ok(v)
        case Err(_) =>
          match Candidate(content.s)
          case None => Err(ParseFailurePrefix + NoJsonFound)
          case Some(text) =>
            match parse(text)
            case Ok(v) => Ok(v)
            case Err(e) => Err(ParseFailurePrefix + e)
  }

  /**
   * The strategy is chosen by the markers, not by whether its text parses:
   * when the whole text fails and a "```json" fence is present, the result is
   * exactly the parse of the fence body, even if some brace span would parse.
   */
  lemma JsonFenceDecides(reply: Json, parse: Parser, content: string)
    requires CompletionContent(reply) == Ok(JStr(content))
    requires parse(content).Err? && Contains(content, "```json")
    ensures var body := FenceBody(content, "```json", 7);
            match parse(body)
            case Ok(v) => ParseAgentResponse(reply, parse) == Ok(v)
            case Err(e) => ParseAgentResponse(reply, parse) == Err(ParseFailurePrefix + e)
  {
  }

  /**
   * A bare "```" fence with no "```json" marker: the body after the three
   * backticks is the one candidate, and nothing else is tried.
   */
  lemma BareFenceDecides(reply: Json, parse: Parser, content: string)
    requires CompletionContent(reply) == Ok(JStr(content))
    requires parse(content).Err? && !Contains(content, "```json") && Contains(content, "```")
    ensures var body := FenceBody(content, "```", 3);
            match parse(body)
            case Ok(v) => ParseAgentResponse(reply, parse) == Ok(v)
            case Err(e) => ParseAgentResponse(reply, parse) == Err(ParseFailurePrefix + e)
  {
  }

  /** Without any fence, the brace span is the one candidate. */
  lemma BraceSpanDecides(reply: Json, parse: Parser, content: string)
    requires CompletionContent(reply) == Ok(JStr(content))
    requires parse(content).Err? && !Contains(content, "```")
    ensures GreedyBraceMatch(content).None? ==> ParseAgentResponse(reply, parse) == Err(ParseFailurePrefix + NoJsonFound)
    ensures GreedyBraceMatch(content).Some? ==> (ParseAgentResponse(reply, parse).Ok?
                                          <==> parse(GreedyBraceMatch(content).value).Ok?)
  {
    if Contains(content, "```json") {
      var i: nat :| i <= |content| && MatchAt(content, "```json", i);
      assert content[i..i + 3] == content[i..i + 7][..3];
      assert MatchAt(content, "```", i);
    }
  }

  /**
   * When the fence is never closed, `find` returns -1 and the body is the rest
   * of the text without its last character.
   */
  lemma {:induction false} UnclosedFenceDropsLastChar(content: string)
    requires Contains(content, "```json")
    requires Find(content, "```", Find(content, "```json", 0) + 7) == -1
    requires Find(content, "```json", 0) + 7 <= |content| - 1
    ensures FenceBody(content, "```json", 7)
            == Strip(content[Find(content, "```json", 0) + 7..|content| - 1])
  {
    FindFoundIff(content, "```json");
    var start := Find(content, "```json", 0) + 7;
    assert SliceBound(-1, |content|) == |content| - 1;
    assert PySlice(content, start, -1) == content[start..|content| - 1];
  }
}

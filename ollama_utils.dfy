/** The text-generation client of ollama_utils.py: the loop that turns
    role-tagged chat messages into the request's `contents` list, the
    short-circuit taken without an API key, the reading of the first
    candidate's first part from the response, and the two-message prompts of
    `explain_contract` and `chat_evm`. The HTTP POST is an oracle (`post`)
    from the request to what `requests` and `response.json()` produce. */
module OllamaUtils {
  import opened Prelude

  /** `{"role": ..., "content": ...}`. */
  datatype ChatMessage = ChatMessage(role: string, content: string)

  /** `{"parts": [{"text": t} for t in texts]}`. */
  datatype ContentEntry = ContentEntry(texts: seq<string>)

  /** The request: the `key` query parameter and the payload's `contents`. */
  datatype Request = Request(apiKey: string, contents: seq<ContentEntry>)

  /** The response JSON, read with `dict.get`; a missing key is `None`.
      `rendered` is the `str` of the whole decoded body. */
  datatype ResponsePart = ResponsePart(text: Option<string>)
  datatype CandidateContent = CandidateContent(parts: Option<seq<ResponsePart>>)
  datatype Candidate = Candidate(content: Option<CandidateContent>)
  datatype ApiResponse = ApiResponse(candidates: Option<seq<Candidate>>, rendered: string)

  /** What the POST and the JSON decoding give: a `RequestException` (its
      `str`), a `JSONDecodeError`, or the decoded body. */
  datatype HttpOutcome = RequestFailed(error: string) | NotJson | Received(response: ApiResponse)

  const NoApiKey :=
    "Error: Gemini API key not found. Please set the GEMINI_API_KEY environment variable on your hosting platform."
  const JsonError := "Error parsing JSON response."
  const ExplainInstruction := "You are a smart contract expert. Explain solidity code concisely."
  const EvmInstruction :=
    "You are an EVM chatbot. You can analyze transactions or generate web3 commands, and answer general questions about EVM and blockchain. Be concise and helpful."

  function NoContent(rendered: string): string { "No content generated or unexpected response: " + rendered }
  function RequestError(error: string): string {
    "Error communicating with Gemini API: " + error + ". Ensure the API is enabled and billing is set."
  }
  function UnexpectedError(error: string): string { "Unexpected error during Gemini API call: " + error }

  /** The entry built for one message's content. */
  function Entry(text: string): ContentEntry { ContentEntry([text]) }

  function Entries(texts: seq<string>): (r: seq<ContentEntry>)
    ensures |r| == |texts|
    ensures forall k :: 0 <= k < |texts| ==> r[k] == Entry(texts[k])
  {
    seq(|texts|, k requires 0 <= k < |texts| => Entry(texts[k]))
  }

  /** The contents of the messages with the given role, in input order. */
  function ContentsWithRole(messages: seq<ChatMessage>, role: string): seq<string>
    decreases |messages|
  {
    if messages == [] then []
    else
      var last := messages[|messages| - 1];
      ContentsWithRole(messages[..|messages| - 1], role) + (if last.role == role then [last.content] else [])
  }

  /** How many messages carry the given role. */
  function RoleCount(messages: seq<ChatMessage>, role: string): nat
    decreases |messages|
  {
    if messages == [] then 0 else (if messages[0].role == role then 1 else 0) + RoleCount(messages[1..], role)
  }

  /** The specification of the formatting loop: the system messages, the last
      one first, then the user messages in their input order; nothing else. */
  function Formatted(messages: seq<ChatMessage>): seq<ContentEntry> {
    Entries(Reversed(ContentsWithRole(messages, "system"))) + Entries(ContentsWithRole(messages, "user"))
  }

  /** One step of the loop: a system message goes to the front, a user
      message to the back, any other message changes nothing. */
  lemma {:induction false} FormattedStep(messages: seq<ChatMessage>, i: nat)
    requires i < |messages|
    ensures messages[i].role == "system" ==> Formatted(messages[..i + 1]) == [Entry(messages[i].content)] + Formatted(messages[..i])
    ensures messages[i].role == "user" ==> Formatted(messages[..i + 1]) == Formatted(messages[..i]) + [Entry(messages[i].content)]
    ensures messages[i].role != "system" && messages[i].role != "user" ==> Formatted(messages[..i + 1]) == Formatted(messages[..i])
  {
    var prefix, m := messages[..i + 1], messages[i];
    assert prefix[..i] == messages[..i];
    var sys, usr := ContentsWithRole(messages[..i], "system"), ContentsWithRole(messages[..i], "user");
    if m.role == "system" {
      assert ContentsWithRole(prefix, "system") == sys + [m.content];
      assert ContentsWithRole(prefix, "user") == usr;
      assert (sys + [m.content])[..|sys|] == sys;
      assert Reversed(sys + [m.content]) == [m.content] + Reversed(sys);
      assert Entries([m.content] + Reversed(sys)) == [Entry(m.content)] + Entries(Reversed(sys));
    } else if m.role == "user" {
      assert ContentsWithRole(prefix, "system") == sys;
      assert ContentsWithRole(prefix, "user") == usr + [m.content];
      assert Entries(usr + [m.content]) == Entries(usr) + [Entry(m.content)];
    } else {
      assert ContentsWithRole(prefix, "system") == sys;
      assert ContentsWithRole(prefix, "user") == usr;
    }
  }

  /** The loop of `_call_gemini_api`: `insert(0, ...)` for a system message,
      `append` for a user message, other roles skipped. */
  method FormatMessages(messages: seq<ChatMessage>) returns (formatted: seq<ContentEntry>)
    ensures formatted == Formatted(messages)
  {
    formatted := [];
    var i := 0;
    while i < |messages|
      invariant 0 <= i <= |messages|
      invariant formatted == Formatted(messages[..i])
    {
      var msg := messages[i];
      FormattedStep(messages, i);
      if msg.role == "system" {
        formatted := [Entry(msg.content)] + formatted;
      } else if msg.role == "user" {
        formatted := formatted + [Entry(msg.content)];
      }
      i := i + 1;
    }
    assert messages[..i] == messages;
  }

  lemma {:induction false} ContentsCount(messages: seq<ChatMessage>, role: string)
    ensures |ContentsWithRole(messages, role)| == RoleCount(messages, role)
    decreases |messages|
  {
    if messages != [] {
      var init := messages[..|messages| - 1];
      ContentsCount(init, role);
      RoleCountAppend(init, messages[|messages| - 1], role);
      assert init + [messages[|messages| - 1]] == messages;
    }
  }

  lemma {:induction false} RoleCountAppend(messages: seq<ChatMessage>, m: ChatMessage, role: string)
    ensures RoleCount(messages + [m], role) == RoleCount(messages, role) + (if m.role == role then 1 else 0)
    decreases |messages|
  {
    if messages != [] {
      assert (messages + [m])[1..] == messages[1..] + [m];
      RoleCountAppend(messages[1..], m, role);
    }
  }

  /** The request holds one entry per system message and one per user
      message: every other message is dropped. */
  lemma FormattedLength(messages: seq<ChatMessage>)
    ensures |Formatted(messages)| == RoleCount(messages, "system") + RoleCount(messages, "user")
  {
    ContentsCount(messages, "system");
    ContentsCount(messages, "user");
  }

  /** All system entries come first, in reverse of their input order; the
      user entries follow in their input order. */
  lemma FormattedOrder(messages: seq<ChatMessage>, k: nat)
    requires k < |Formatted(messages)|
    ensures var sys, usr := ContentsWithRole(messages, "system"), ContentsWithRole(messages, "user");
            if k < |sys| then Formatted(messages)[k] == Entry(sys[|sys| - 1 - k])
            else Formatted(messages)[k] == Entry(usr[k - |sys|])
  {
  }

  lemma {:induction false} ContentsConcat(a: seq<ChatMessage>, b: seq<ChatMessage>, role: string)
    ensures ContentsWithRole(a + b, role) == ContentsWithRole(a, role) + ContentsWithRole(b, role)
    decreases |b|
  {
    if b != [] {
      var init := b[..|b| - 1];
      assert (a + b)[..|a + b| - 1] == a + init;
      ContentsConcat(a, init, role);
    } else {
      assert a + b == a;
    }
  }

  /** A message whose role is neither "system" nor "user" has no effect,
      wherever it stands. */
  lemma OtherRolesDropped(before: seq<ChatMessage>, m: ChatMessage, after: seq<ChatMessage>)
    requires m.role != "system" && m.role != "user"
    ensures Formatted(before + [m] + after) == Formatted(before + after)
  {
    ContentsConcat(before + [m], after, "system");
    ContentsConcat(before + [m], after, "user");
    ContentsConcat(before, [m], "system");
    ContentsConcat(before, [m], "user");
    ContentsConcat(before, after, "system");
    ContentsConcat(before, after, "user");
    assert ContentsWithRole([m], "system") == [] by {
      assert [m][..0] == [];
    }
    assert ContentsWithRole([m], "user") == [] by {
      assert [m][..0] == [];
    }
  }

  /** `candidates[0].content.parts` when each of the truthiness tests passes. */
  predicate HasFirstParts(response: ApiResponse) {
    && response.candidates.Some? && |response.candidates.value| > 0
    && response.candidates.value[0].content.Some?
    && response.candidates.value[0].content.value.parts.Some?
    && |response.candidates.value[0].content.value.parts.value| > 0
  }

  /** The reading of the decoded body in `_call_gemini_api`. */
  function ExtractReply(response: ApiResponse): (r: string)
    ensures !HasFirstParts(response) ==> r == NoContent(response.rendered)
    ensures HasFirstParts(response) ==>
              var part := response.candidates.value[0].content.value.parts.value[0];
              r == if part.text.Some? then part.text.value else UnexpectedError("'text'")
  {
    if HasFirstParts(response) then
      match response.candidates.value[0].content.value.parts.value[0].text
      case Some(text) => text
      case None => UnexpectedError("'text'")   // the KeyError of ['text']
    else NoContent(response.rendered)
  }

  /** The `except` clauses around the POST, and the reading of the body. */
  function ReplyText(outcome: HttpOutcome): string {
    match outcome
    case RequestFailed(error) => RequestError(error)
    case NotJson => JsonError
    case Received(response) => ExtractReply(response)
  }

  /** `_call_gemini_api`. With an empty key the fixed error text is returned
      and no request is made; otherwise the request carries the formatted
      messages and the reply is read from what comes back. */
  method CallGemini(apiKey: string, messages: seq<ChatMessage>, post: Request -> HttpOutcome)
    returns (r: string, sent: Option<Request>)
    ensures apiKey == "" ==> r == NoApiKey && sent.None?
    ensures apiKey != "" ==> sent == Some(Request(apiKey, Formatted(messages)))
    ensures apiKey != "" ==> r == ReplyText(post(sent.value))
  {
    if apiKey == "" {
      return NoApiKey, None;
    }
    var contents := FormatMessages(messages);
    var request := Request(apiKey, contents);
    sent := Some(request);
    r := ReplyText(post(request));
  }

  /** A system instruction followed by the caller's text. */
  function Prompt(instruction: string, text: string): seq<ChatMessage> {
    [ChatMessage("system", instruction), ChatMessage("user", text)]
  }

  /** Once formatted, a two-message prompt gives the instruction first and
      the caller's text second. */
  lemma PromptFormatted(instruction: string, text: string)
    ensures Formatted(Prompt(instruction, text)) == [Entry(instruction), Entry(text)]
  {
    var ms := Prompt(instruction, text);
    assert ms[..1][..0] == [] && ms[..1] == [ChatMessage("system", instruction)];
    assert ContentsWithRole(ms[..1], "system") == [instruction];
    assert ContentsWithRole(ms[..1], "user") == [];
    assert ContentsWithRole(ms, "system") == [instruction];
    assert ContentsWithRole(ms, "user") == [text];
  }

  /** `explain_contract`. */
  method ExplainContract(apiKey: string, code: string, post: Request -> HttpOutcome)
    returns (r: string, sent: Option<Request>)
    ensures apiKey == "" ==> r == NoApiKey && sent.None?
    ensures apiKey != "" ==> sent == Some(Request(apiKey, [Entry(ExplainInstruction), Entry(code)]))
    ensures apiKey != "" ==> r == ReplyText(post(sent.value))
  {
    PromptFormatted(ExplainInstruction, code);
    r, sent := CallGemini(apiKey, Prompt(ExplainInstruction, code), post);
  }

  /** `chat_evm`. */
  method ChatEvm(apiKey: string, userInput: string, post: Request -> HttpOutcome)
    returns (r: string, sent: Option<Request>)
    ensures apiKey == "" ==> r == NoApiKey && sent.None?
    ensures apiKey != "" ==> sent == Some(Request(apiKey, [Entry(EvmInstruction), Entry(userInput)]))
    ensures apiKey != "" ==> r == ReplyText(post(sent.value))
  {
    PromptFormatted(EvmInstruction, userInput);
    r, sent := CallGemini(apiKey, Prompt(EvmInstruction, userInput), post);
  }
}

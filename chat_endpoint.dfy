/** The `POST /chat` handler of Chat.Api/Program.cs: the same history as the
    hub, one non-streaming completion call, and the choice between 200 and
    500 on the text of the last returned message. */
module ChatEndpoint {
  import opened Contracts
  import opened ChatHistory

  /** The fixed body of every failed `/chat` call. */
  const RetryLaterText := "Something went wrong, please try again later..."

  /** What `GetChatMessageContentsAsync` does with one history: it throws
      (a provider error or a cancelled request), or returns messages whose
      contents may be null. */
  datatype ProviderReply = Threw | Returned(contents: seq<Option<string>>)

  datatype HttpResult = Ok(body: string) | InternalServerError(body: string)

  /** `char.IsWhiteSpace`: the Unicode space, line and paragraph separators,
      tab through carriage return, and U+0085. */
  predicate IsWhiteSpace(c: char) {
    || c == ' ' || ('\t' <= c <= '\r') || c == '\U{0085}' || c == '\U{00A0}' || c == '\U{1680}'
    || ('\U{2000}' <= c <= '\U{200A}') || c == '\U{2028}' || c == '\U{2029}'
    || c == '\U{202F}' || c == '\U{205F}' || c == '\U{3000}'
  }

  /** `string.IsNullOrWhiteSpace`, scanning left to right. */
  function IsNullOrWhiteSpace(s: Option<string>): (blank: bool)
    ensures blank <==> s.None? || forall i :: 0 <= i < |s.value| ==> IsWhiteSpace(s.value[i])
  {
    s.None? || AllWhiteSpace(s.value)
  }

  function AllWhiteSpace(s: string): (all: bool)
    ensures all <==> forall i :: 0 <= i < |s| ==> IsWhiteSpace(s[i])
  {
    if s == [] then true else IsWhiteSpace(s[0]) && AllWhiteSpace(s[1..])
  }

  /** `output = response[^1].Content`, inside the `try`: a throwing provider
      and an empty reply (where `[^1]` throws) both give null. */
  function Output(reply: ProviderReply): (output: Option<string>)
    ensures reply.Threw? ==> output.None?
    ensures reply.Returned? && |reply.contents| > 0 ==> output == reply.contents[|reply.contents| - 1]
    ensures reply.Returned? && |reply.contents| == 0 ==> output.None?
  {
    match reply
    case Threw => None
    case Returned(contents) => if contents == [] then None else contents[|contents| - 1]
  }

  /** The response: 500 with the fixed text for a missing or blank output,
      otherwise 200 with the output unchanged. */
  function Respond(output: Option<string>): (r: HttpResult)
    ensures r.InternalServerError? <==> output.None? || forall i :: 0 <= i < |output.value| ==> IsWhiteSpace(output.value[i])
    ensures r.InternalServerError? ==> r.body == RetryLaterText
    ensures r.Ok? ==> output == Some(r.body)
  {
    if IsNullOrWhiteSpace(output) then InternalServerError(RetryLaterText) else Ok(output.value)
  }

  /** The handler: build the history with the hub's loop, ask the provider,
      and answer from the last returned message. `systemPrompt` is the text
      read from the system-message files, or None when listing them throws;
      that exception is outside the handler's `try`, so the request ends
      unhandled and `result` is None. */
  method HandleChat(systemPrompt: Option<string>, request: ChatRequest, maxPreviousConversations: int,
                    provider: seq<ChatMessage> -> ProviderReply)
    returns (result: Option<HttpResult>)
    ensures result.None? <==> systemPrompt.None?
    ensures systemPrompt.Some? ==>
              var reply := provider(BuildHistory(systemPrompt.value, request.previousConversations,
                                                 maxPreviousConversations, request.input));
              result == Some(Respond(Output(reply)))
  {
    if systemPrompt.None? {
      return None;
    }
    var chatHistory := AssembleHistory(systemPrompt.value, request, maxPreviousConversations);
    var output: Option<string>;
    var reply := provider(chatHistory);
    if reply.Threw? || reply.contents == [] {
      output := None;
    } else {
      output := reply.contents[|reply.contents| - 1];
    }
    if IsNullOrWhiteSpace(output) {
      return Some(InternalServerError(RetryLaterText));
    }
    return Some(Ok(output.value));
  }
}

/** The history handed to the completion provider: one system message, a window
    of earlier exchanges, and the new input. Chat.Api/Hubs/ChatHub.cs and the
    `/chat` handler of Chat.Api/Program.cs build it with the same code. */
module ChatHistory {
  import opened Contracts

  /** How many elements `Take(count)` keeps of a sequence of length `n`:
      `min(max(count, 0), n)`. */
  function Kept(n: nat, count: int): (m: nat)
    ensures m <= n
    ensures count <= 0 ==> m == 0
    ensures 0 <= count <= n ==> m == count
    ensures count >= n ==> m == n
  {
    if count <= 0 then 0 else if count < n then count else n
  }

  /** `Enumerable.Take`: the FIRST `count` elements; a count of zero or less
      keeps nothing, a count beyond the length keeps everything. */
  function Take<T>(s: seq<T>, count: int): (r: seq<T>)
    ensures |r| == Kept(|s|, count)
    ensures r == s[..|r|]
  {
    if count <= 0 then [] else if count >= |s| then s else s[..count]
  }

  /** `Enumerable.Reverse`. */
  function Reverse<T>(s: seq<T>): (r: seq<T>)
    ensures |r| == |s|
    ensures forall i :: 0 <= i < |s| ==> r[i] == s[|s| - 1 - i]
  {
    if s == [] then [] else Reverse(s[1..]) + [s[0]]
  }

  /** The two messages one earlier exchange contributes: the user's message,
      then the response, tagged with the system role. */
  function ExchangeMessages(c: Conversation): seq<ChatMessage> {
    [ChatMessage(UserRole, c.message), ChatMessage(SystemRole, c.response)]
  }

  /** The messages of a run of exchanges, in the order given. */
  function Exchanges(cs: seq<Conversation>): (r: seq<ChatMessage>)
    ensures |r| == 2 * |cs|
    ensures forall i :: 0 <= i < |cs| ==>
              r[2 * i] == ChatMessage(UserRole, cs[i].message) &&
              r[2 * i + 1] == ChatMessage(SystemRole, cs[i].response)
  {
    if cs == [] then [] else Exchanges(cs[..|cs| - 1]) + ExchangeMessages(cs[|cs| - 1])
  }

  /** The exchanges that reach the provider: `Take(k).Reverse()`. */
  function Window(previous: seq<Conversation>, k: int): (w: seq<Conversation>)
    ensures |w| == Kept(|previous|, k)
    ensures forall i :: 0 <= i < |w| ==> w[i] == previous[|w| - 1 - i]
  {
    Reverse(Take(previous, k))
  }

  /** The whole history: a system message with the prompt, the window of
      exchanges as user/system pairs, and the input as the last user message. */
  function BuildHistory(systemPrompt: string, previous: seq<Conversation>, k: int, input: string)
    : (h: seq<ChatMessage>)
    ensures |h| == 2 + 2 * Kept(|previous|, k)
    ensures h[0] == ChatMessage(SystemRole, systemPrompt)
    ensures h[|h| - 1] == ChatMessage(UserRole, input)
  {
    [ChatMessage(SystemRole, systemPrompt)] + Exchanges(Window(previous, k)) + [ChatMessage(UserRole, input)]
  }

  /** Between the system message and the input, the history holds the first
      `m = min(max(k, 0), n)` earlier exchanges, newest of them first, each as
      the user's message followed by the response. */
  lemma HistoryExchanges(systemPrompt: string, previous: seq<Conversation>, k: int, input: string, i: nat)
    requires i < Kept(|previous|, k)
    ensures var h := BuildHistory(systemPrompt, previous, k, input);
            var m := Kept(|previous|, k);
            h[1 + 2 * i] == ChatMessage(UserRole, previous[m - 1 - i].message) &&
            h[2 + 2 * i] == ChatMessage(SystemRole, previous[m - 1 - i].response)
  {
    var w := Window(previous, k);
    var x := Exchanges(w);
    var h := BuildHistory(systemPrompt, previous, k, input);
    assert h[1 + 2 * i] == x[2 * i] && h[2 + 2 * i] == x[2 * i + 1];
  }

  /** The hub's loop: start with the system message, append each exchange of
      the window, then the input. */
  method AssembleHistory(systemPrompt: string, request: ChatRequest, maxPreviousConversations: int)
    returns (chatHistory: seq<ChatMessage>)
    ensures chatHistory == BuildHistory(systemPrompt, request.previousConversations, maxPreviousConversations, request.input)
  {
    chatHistory := [ChatMessage(SystemRole, systemPrompt)];
    var window := Take(request.previousConversations, maxPreviousConversations);
    window := Reverse(window);
    for i := 0 to |window|
      invariant chatHistory == [ChatMessage(SystemRole, systemPrompt)] + Exchanges(window[..i])
    {
      assert window[..i + 1][..i] == window[..i];
      chatHistory := chatHistory + [ChatMessage(UserRole, window[i].message)];
      chatHistory := chatHistory + [ChatMessage(SystemRole, window[i].response)];
    }
    assert window[..|window|] == window;
    chatHistory := chatHistory + [ChatMessage(UserRole, request.input)];
  }

  /** The window holds the OLDEST entries: an entry past position `k` never
      reaches the provider, however recent it is. */
  lemma {:induction false} WindowOmitsLaterEntries(previous: seq<Conversation>, k: int, j: nat)
    requires 0 <= k <= j < |previous|
    requires forall i :: 0 <= i < |previous| && i != j ==> previous[i] != previous[j]
    ensures previous[j] !in Window(previous, k)
  {
    var w := Window(previous, k);
    forall i | 0 <= i < |w|
      ensures w[i] != previous[j]
    {
      assert w[i] == previous[|w| - 1 - i];
    }
  }

  /** The three-exchange history with a window of two: the first two
      exchanges reach the provider, newest of them first, and the latest
      exchange is left out. */
  lemma WindowOfTwoOfThree(prompt: string)
    ensures BuildHistory(prompt,
              [Conversation("hi", "hello"), Conversation("how are you", "fine"), Conversation("bye", "goodbye")],
              2, "one more")
         == [ChatMessage(SystemRole, prompt),
             ChatMessage(UserRole, "how are you"), ChatMessage(SystemRole, "fine"),
             ChatMessage(UserRole, "hi"), ChatMessage(SystemRole, "hello"),
             ChatMessage(UserRole, "one more")]
  {
    var h := BuildHistory(prompt,
              [Conversation("hi", "hello"), Conversation("how are you", "fine"), Conversation("bye", "goodbye")],
              2, "one more");
    assert |h| == 6;
    assert h[1] == ChatMessage(UserRole, "how are you") && h[2] == ChatMessage(SystemRole, "fine");
    assert h[3] == ChatMessage(UserRole, "hi") && h[4] == ChatMessage(SystemRole, "hello");
  }
}

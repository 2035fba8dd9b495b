/** `ChatHub.SendChat` and `ChatHub.OnDisconnectedAsync`: the per-connection
    guard, the history handed to the completion service, and the calls relayed
    to the caller. */
module ChatHub {
  import opened Contracts
  import opened ChatHistory
  import opened ClientTrace
  import opened SendGuard

  /** The one message a caller sees when generation fails. */
  const GenerationError := "An error occurred while generating the response."

  /** What the streaming completion service does with one history: it yields
      `fragments` (a fragment's content may be null) and then either ends, or
      throws with the exception message in `failure`. */
  datatype Completion = Completion(fragments: seq<Option<string>>, failure: Option<string>)

  /** `response.Content ?? string.Empty` for each fragment, in order. */
  function FragmentTexts(fragments: seq<Option<string>>): (texts: seq<string>)
    ensures |texts| == |fragments|
    ensures forall i :: 0 <= i < |fragments| ==> texts[i] == fragments[i].GetOr("")
  {
    seq(|fragments|, i requires 0 <= i < |fragments| => fragments[i].GetOr(""))
  }

  /** What the caller receives from a submission that got the guard: the
      fragments, a generic error if the service failed, then `NotifyDone`. */
  function RelayTrace(c: Completion): seq<ClientEvent> {
    Forwarded(FragmentTexts(c.fragments))
    + (if c.failure.Some? then [ReceiveError(GenerationError)] else [])
    + [NotifyDone]
  }

  /** Every served submission ends with exactly one `NotifyDone`, after the
      error if there was one, and no fragment follows the error. */
  lemma RelayTraceEndsOnceWithDone(c: Completion)
    ensures EndsOnceWithDone(RelayTrace(c))
  {
    var f := Forwarded(FragmentTexts(c.fragments));
    var t := RelayTrace(c);
    assert forall i :: 0 <= i < |f| ==> t[i] == f[i] && t[i].ReceiveResponse?;
  }

  /** The fragments reach the caller in production order, null content as the
      empty string. */
  lemma RelayForwardsInOrder(c: Completion)
    ensures Responses(RelayTrace(c)) == FragmentTexts(c.fragments)
  {
    var f := Forwarded(FragmentTexts(c.fragments));
    var tail := (if c.failure.Some? then [ReceiveError(GenerationError)] else []) + [NotifyDone];
    assert RelayTrace(c) == f + tail;
    ResponsesAppend(f, tail);
    ResponsesOfForwarded(FragmentTexts(c.fragments));
    assert Responses([NotifyDone]) == [] by {
      assert [NotifyDone][1..] == [];
    }
    if c.failure.Some? {
      assert tail == [ReceiveError(GenerationError)] + [NotifyDone];
      ResponsesAppend([ReceiveError(GenerationError)], [NotifyDone]);
      assert [ReceiveError(GenerationError)][1..] == [];
    }
  }

  /** A `ReceiveError` is sent exactly when the service failed; it carries the
      fixed text, and the exception message never reaches the caller: two
      failures that differ only in their message give the same trace. */
  lemma RelayErrorIsGeneric(c: Completion, otherMessage: string)
    ensures (exists i :: 0 <= i < |RelayTrace(c)| && RelayTrace(c)[i].ReceiveError?) <==> c.failure.Some?
    ensures forall e :: e in RelayTrace(c) && e.ReceiveError? ==> e.error == GenerationError
    ensures c.failure.Some? ==> RelayTrace(c) == RelayTrace(c.(failure := Some(otherMessage)))
  {
    var t := RelayTrace(c);
    var f := Forwarded(FragmentTexts(c.fragments));
    assert forall i :: 0 <= i < |f| ==> t[i] == f[i] && t[i].ReceiveResponse?;
    if c.failure.Some? {
      assert t[|f|].ReceiveError?;
    }
  }

  class ChatHub {
    /** The hub's static `_sendLocks`, shared by every instance. */
    const sendLocks: SendLocks
    /** `AppOptions.MaxPreviousConversations`. */
    const maxPreviousConversations: int

    constructor (sendLocks: SendLocks, maxPreviousConversations: int)
      ensures this.sendLocks == sendLocks && this.maxPreviousConversations == maxPreviousConversations
    {
      this.sendLocks := sendLocks;
      this.maxPreviousConversations := maxPreviousConversations;
    }

    /** Serves one submission of connection `connectionId`. `systemPrompt` is
        the text read from the system-message files, or None when listing
        them throws; `complete` is the streaming completion service. Returns
        the calls made on the caller and whether the call ended in an
        exception. */
    method SendChat(connectionId: ConnectionId, request: ChatRequest, systemPrompt: Option<string>,
                    complete: seq<ChatMessage> -> Completion)
      returns (events: seq<ClientEvent>, threw: bool)
      modifies sendLocks
      // guard already held: dropped without a trace and without a state change
      ensures old(sendLocks.IsHeld(connectionId)) ==> events == [] && !threw && sendLocks.held == old(sendLocks.held)
      // guard taken: released again on every exit path, other entries untouched
      ensures !old(sendLocks.IsHeld(connectionId)) ==> sendLocks.held == old(sendLocks.held)[connectionId := false]
      ensures !old(sendLocks.IsHeld(connectionId)) ==> (threw <==> systemPrompt.None?)
      ensures !old(sendLocks.IsHeld(connectionId)) && systemPrompt.None? ==> events == []
      ensures !old(sendLocks.IsHeld(connectionId)) && systemPrompt.Some? ==>
                events == RelayTrace(complete(BuildHistory(systemPrompt.value, request.previousConversations,
                                                           maxPreviousConversations, request.input)))
    {
      events, threw := [], false;
      var acquired := sendLocks.TryAcquire(connectionId);
      if !acquired {
        return;
      }
      // try
      if systemPrompt.None? {
        threw := true;
      } else {
        var chatHistory := AssembleHistory(systemPrompt.value, request, maxPreviousConversations);
        var completion := complete(chatHistory);
        var texts := FragmentTexts(completion.fragments);
        for i := 0 to |completion.fragments|
          invariant events == Forwarded(texts[..i])
        {
          events := events + [ReceiveResponse(completion.fragments[i].GetOr(""))];
          // the pacing delay (`Task.Delay(responseDelay)`) is timing only
        }
        assert texts[..|texts|] == texts;
        if completion.failure.Some? {
          events := events + [ReceiveError(GenerationError)];
        }
        events := events + [NotifyDone];
      }
      // finally
      sendLocks.Release(connectionId);
    }

    /** `OnDisconnectedAsync`: forgets the connection's guard. */
    method OnDisconnected(connectionId: ConnectionId)
      modifies sendLocks
      ensures sendLocks.held == old(sendLocks.held) - {connectionId}
    {
      sendLocks.TryRemove(connectionId);
    }
  }

  /** Single flight per connection, for any connection, window and prompt: a
      submission that has completed leaves the guard free, so the next one of
      the same connection is served in full; a submission that arrives while
      another one holds the guard is dropped without a trace. */
  method SingleFlight(connectionId: ConnectionId, k: int, systemPrompt: string,
                      first: ChatRequest, second: ChatRequest, third: ChatRequest,
                      complete: seq<ChatMessage> -> Completion)
    returns (servedFirst: seq<ClientEvent>, servedSecond: seq<ClientEvent>, dropped: seq<ClientEvent>)
    ensures servedFirst == RelayTrace(complete(BuildHistory(systemPrompt, first.previousConversations, k, first.input)))
    ensures servedSecond == RelayTrace(complete(BuildHistory(systemPrompt, second.previousConversations, k, second.input)))
    ensures dropped == []
  {
    var locks := new SendLocks();
    var hub := new ChatHub(locks, k);
    var threw;
    servedFirst, threw := hub.SendChat(connectionId, first, Some(systemPrompt), complete);
    servedSecond, threw := hub.SendChat(connectionId, second, Some(systemPrompt), complete);
    // a further submission takes the guard and is still being streamed
    var inFlight := locks.TryAcquire(connectionId);
    dropped, threw := hub.SendChat(connectionId, third, Some(systemPrompt), complete);
  }
}

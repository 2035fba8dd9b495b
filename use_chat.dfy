/** The `useChat` hook of chat-ui/src/hooks/useChat.ts: the conversation list,
    the busy and error flags, the live stream subscription, and the handlers
    that change them. The list updaters are pure functions; the hook is a
    class whose handlers apply them. */
module UseChat {
  import opened Contracts
  import opened ClientTrace

  /** One exchange as the hook keeps it: `response` is undefined until the
      first chunk arrives. */
  datatype ConversationModel = ConversationModel(id: string, message: string, response: Option<string>)

  /** One earlier exchange as the hook sends it. */
  datatype PreviousConversation = PreviousConversation(message: string, response: Option<string>)

  datatype ChatRequestModel = ChatRequestModel(input: string, previousConversations: seq<PreviousConversation>)

  const StreamErrorText := "An error occurred while generating the response."
  const DisconnectedText := "You are disconnected."

  /** The `next` updater: the chunk is appended to the last item's response,
      an undefined response counting as empty. */
  function AppendChunk(prev: seq<ConversationModel>, chunk: string): (updated: seq<ConversationModel>)
    requires |prev| > 0
    ensures |updated| == |prev|
    ensures updated[..|prev| - 1] == prev[..|prev| - 1]
    ensures updated[|prev| - 1].id == prev[|prev| - 1].id
    ensures updated[|prev| - 1].message == prev[|prev| - 1].message
    ensures updated[|prev| - 1].response == Some(prev[|prev| - 1].response.GetOr("") + chunk)
  {
    var last := prev[|prev| - 1];
    prev[|prev| - 1 := last.(response := Some(last.response.GetOr("") + chunk))]
  }

  /** The list after the chunks arrive one by one. */
  function AppendChunks(prev: seq<ConversationModel>, chunks: seq<string>): (updated: seq<ConversationModel>)
    requires |prev| > 0
    ensures |updated| == |prev|
    decreases |chunks|
  {
    if chunks == [] then prev else AppendChunks(AppendChunk(prev, chunks[0]), chunks[1..])
  }

  /** A stream of chunks leaves every item but the last alone and extends the
      last response by all the chunks, in order: from an undefined response
      the result is exactly their concatenation. */
  lemma {:induction false} ChunksAccumulate(prev: seq<ConversationModel>, chunks: seq<string>)
    requires |prev| > 0
    ensures var updated := AppendChunks(prev, chunks);
            var last := |prev| - 1;
            && updated[..last] == prev[..last]
            && updated[last].id == prev[last].id
            && updated[last].message == prev[last].message
            && (chunks != [] || prev[last].response.Some? ==>
                  updated[last].response == Some(prev[last].response.GetOr("") + Concat(chunks)))
    decreases |chunks|
  {
    if chunks != [] {
      var last := |prev| - 1;
      var next := AppendChunk(prev, chunks[0]);
      ChunksAccumulate(next, chunks[1..]);
      assert next[..last] == prev[..last];
      var before := prev[last].response.GetOr("");
      assert next[last].response == Some(before + chunks[0]);
      assert AppendChunks(next, chunks[1..])[last].response
          == Some((before + chunks[0]) + Concat(chunks[1..]));
      assert (before + chunks[0]) + Concat(chunks[1..]) == before + (chunks[0] + Concat(chunks[1..]));
      assert Concat(chunks) == chunks[0] + Concat(chunks[1..]);
      assert AppendChunks(prev, chunks) == AppendChunks(next, chunks[1..]);
    } else {
      assert prev[|prev| - 1].response.GetOr("") + Concat(chunks) == prev[|prev| - 1].response.GetOr("");
    }
  }

  /** The request's history: every item's `message` and `response`, in order,
      without its id. */
  function ToPrevious(conversations: seq<ConversationModel>): (previous: seq<PreviousConversation>)
    ensures |previous| == |conversations|
  {
    seq(|conversations|, i requires 0 <= i < |conversations| =>
      PreviousConversation(conversations[i].message, conversations[i].response))
  }

  /** `findIndex` on the id: the first match, or -1 when there is none. */
  function FindIndex(conversations: seq<ConversationModel>, id: string): (index: int)
    ensures -1 <= index < |conversations|
    ensures index == -1 <==> forall j :: 0 <= j < |conversations| ==> conversations[j].id != id
    ensures index >= 0 ==> conversations[index].id == id &&
                           forall j :: 0 <= j < index ==> conversations[j].id != id
  {
    if conversations == [] then -1
    else if conversations[0].id == id then 0
    else
      var k := FindIndex(conversations[1..], id);
      if k == -1 then -1 else k + 1
  }

  /** The `handleSaveEdit` updater: everything after the edited item goes,
      and the edited item takes the new message and loses its response. An
      unknown id leaves the list as it is. */
  function SaveEdit(prev: seq<ConversationModel>, id: string, newMessage: string)
    : (updated: seq<ConversationModel>)
    ensures FindIndex(prev, id) == -1 ==> updated == prev
    ensures var i := FindIndex(prev, id);
            i >= 0 ==> && |updated| == i + 1
                       && updated[..i] == prev[..i]
                       && updated[i] == ConversationModel(prev[i].id, newMessage, None)
  {
    var index := FindIndex(prev, id);
    if index == -1 then prev
    else prev[..index + 1][index := prev[index].(message := newMessage, response := None)]
  }

  /** `slice(0, -1)`: all but the last item, and nothing for an empty list. */
  function DropLast<T>(s: seq<T>): (r: seq<T>)
    ensures |s| > 0 ==> r == s[..|s| - 1]
    ensures |s| == 0 ==> r == []
  {
    if s == [] then [] else s[..|s| - 1]
  }

  /** The hook's state. `subscription` is `subscriptionRef.current`, standing
      for the live stream by the request it carries; `connected` says whether
      `connection` is set. */
  class ChatHook {
    var conversations: seq<ConversationModel>
    var isBusy: bool
    var error: Option<string>
    var subscription: Option<ChatRequestModel>
    var connected: bool

    constructor (connected: bool)
      ensures this.connected == connected
      ensures conversations == [] && !isBusy && error == None && subscription == None
    {
      this.connected := connected;
      conversations, isBusy, error, subscription := [], false, None, None;
    }

    /** `streamChat`: without a connection only the error is set (the busy
        flag stays as it was); otherwise the stream is opened, or, when
        opening throws, the error is set and the hook stops being busy. */
    method StreamChat(chatRequest: ChatRequestModel, streamThrows: bool)
      modifies this
      ensures conversations == old(conversations) && connected == old(connected)
      ensures !connected ==> error == Some(DisconnectedText) && isBusy == old(isBusy) && subscription == old(subscription)
      ensures connected && !streamThrows ==>
                subscription == Some(chatRequest) && isBusy == old(isBusy) && error == old(error)
      ensures connected && streamThrows ==>
                error == Some(StreamErrorText) && !isBusy && subscription == old(subscription)
    {
      if !connected {
        error := Some(DisconnectedText);
        return;
      }
      if streamThrows {
        error := Some(StreamErrorText);
        isBusy := false;
      } else {
        subscription := Some(chatRequest);
      }
    }

    /** The stream's `next` callback. */
    method OnChunk(chunk: string)
      requires |conversations| > 0
      modifies this`conversations
      ensures conversations == AppendChunk(old(conversations), chunk)
    {
      conversations := AppendChunk(conversations, chunk);
    }

    /** The stream's `complete` callback. */
    method OnComplete()
      modifies this`isBusy
      ensures !isBusy
    {
      isBusy := false;
    }

    /** The stream's `error` callback. */
    method OnStreamError()
      modifies this`isBusy, this`error
      ensures !isBusy && error == Some(StreamErrorText)
    {
      error := Some(StreamErrorText);
      isBusy := false;
    }

    /** `handleSubmit`: busy, no error, the new item appended, and a request
        carrying the list the caller passed. */
    method HandleSubmit(message: string, passed: seq<ConversationModel>, newConversation: ConversationModel,
                        streamThrows: bool)
      modifies this
      ensures conversations == old(conversations) + [newConversation]
      ensures connected == old(connected)
      ensures var request := ChatRequestModel(message, ToPrevious(passed));
              && (!connected ==> isBusy && error == Some(DisconnectedText) && subscription == old(subscription))
              && (connected && !streamThrows ==> isBusy && error == None && subscription == Some(request))
              && (connected && streamThrows ==> !isBusy && error == Some(StreamErrorText) && subscription == old(subscription))
    {
      isBusy := true;
      error := None;
      conversations := conversations + [newConversation];
      var chatRequest := ChatRequestModel(message, ToPrevious(passed));
      StreamChat(chatRequest, streamThrows);
    }

    /** `handleStop`: drops the subscription and stops being busy. */
    method HandleStop()
      modifies this`subscription, this`isBusy
      ensures subscription == None && !isBusy
    {
      subscription := None;
      isBusy := false;
    }

    /** `handleSaveEdit`: the list cut back to the edited item, and a request
        whose history is the passed list without its last item. */
    method HandleSaveEdit(id: string, newMessage: string, passed: seq<ConversationModel>, streamThrows: bool)
      modifies this
      ensures conversations == SaveEdit(old(conversations), id, newMessage)
      ensures connected == old(connected)
      ensures var request := ChatRequestModel(newMessage, ToPrevious(DropLast(passed)));
              && (!connected ==> isBusy && error == Some(DisconnectedText) && subscription == old(subscription))
              && (connected && !streamThrows ==> isBusy && error == None && subscription == Some(request))
              && (connected && streamThrows ==> !isBusy && error == Some(StreamErrorText) && subscription == old(subscription))
    {
      isBusy := true;
      error := None;
      conversations := SaveEdit(conversations, id, newMessage);
      var chatRequest := ChatRequestModel(newMessage, ToPrevious(DropLast(passed)));
      StreamChat(chatRequest, streamThrows);
    }

    /** `handleClear`. */
    method HandleClear()
      modifies this`conversations
      ensures conversations == []
    {
      conversations := [];
    }
  }

  /** A request built from a list keeps its length and order and only the
      message and response of each item. */
  lemma {:induction false} RequestMirrorsList(passed: seq<ConversationModel>, i: nat)
    requires i < |passed|
    ensures ToPrevious(passed)[i] == PreviousConversation(passed[i].message, passed[i].response)
  {
  }

  /** The edit request's history is the request history of the passed list
      without its last item. */
  lemma {:induction false} EditRequestDropsLast(passed: seq<ConversationModel>)
    requires |passed| > 0
    ensures ToPrevious(DropLast(passed)) == ToPrevious(passed)[..|passed| - 1]
  {
  }
}

/** The chat page of chat-ui/src/pages/ChatPage.tsx: the conversation list and
    busy flag, the handlers the page registers for the hub's calls, and the
    submit handler. */
module ChatPage {
  import opened Contracts
  import opened ClientTrace
  import ChatHub
  import MockChatHub

  /** The part of the page's state the hub's calls act on. */
  datatype PageView = PageView(conversations: seq<Conversation>, isBusy: bool)

  /** The `ReceiveResponse` updater: the message is appended to the last
      item's response; every other item and the length stay as they were. */
  function AppendToLast(prev: seq<Conversation>, message: string): (updated: seq<Conversation>)
    requires |prev| > 0
    ensures |updated| == |prev|
    ensures updated[..|prev| - 1] == prev[..|prev| - 1]
    ensures updated[|prev| - 1] == Conversation(prev[|prev| - 1].message, prev[|prev| - 1].response + message)
  {
    var last := prev[|prev| - 1];
    prev[|prev| - 1 := last.(response := last.response + message)]
  }

  /** What one call from the hub does to the page. The page registers no
      handler for `ReceiveError`, so an error leaves it as it is. */
  function OnHubEvent(v: PageView, e: ClientEvent): PageView
    requires e.ReceiveResponse? ==> |v.conversations| > 0
  {
    match e
    case ReceiveResponse(message) => v.(conversations := AppendToLast(v.conversations, message))
    case NotifyDone => v.(isBusy := false)
    case ReceiveError(_) => v
  }

  /** The page after a run of calls from the hub, in arrival order. */
  function OnHubEvents(v: PageView, events: seq<ClientEvent>): (w: PageView)
    requires |v.conversations| > 0
    ensures |w.conversations| == |v.conversations|
    decreases |events|
  {
    if events == [] then v else OnHubEvents(OnHubEvent(v, events[0]), events[1..])
  }

  /** The calls of one submission change only the last item: its response
      grows by the relayed texts in order, and the page stays busy exactly
      when no `NotifyDone` came. */
  lemma {:induction false} ReplayHubEvents(v: PageView, events: seq<ClientEvent>)
    requires |v.conversations| > 0
    ensures var w := OnHubEvents(v, events);
            var last := |v.conversations| - 1;
            && w.conversations[..last] == v.conversations[..last]
            && w.conversations[last] == Conversation(v.conversations[last].message,
                                                     v.conversations[last].response + Concat(Responses(events)))
            && w.isBusy == (v.isBusy && NotifyDone !in events)
    decreases |events|
  {
    var last := |v.conversations| - 1;
    var before := v.conversations[last].response;
    if events == [] {
      assert before + Concat([]) == before;
    } else {
      var next := OnHubEvent(v, events[0]);
      ReplayHubEvents(next, events[1..]);
      assert events == [events[0]] + events[1..];
      ResponsesAppend([events[0]], events[1..]);
      assert [events[0]][1..] == [];
      assert NotifyDone in events <==> events[0] == NotifyDone || NotifyDone in events[1..];
      if events[0].ReceiveResponse? {
        assert Responses(events) == [events[0].response] + Responses(events[1..]);
        assert Concat(Responses(events)) == events[0].response + Concat(Responses(events[1..]));
        assert (before + events[0].response) + Concat(Responses(events[1..]))
            == before + (events[0].response + Concat(Responses(events[1..])));
      } else {
        assert Responses(events) == Responses(events[1..]);
      }
    }
  }

  /** Served by `ChatHub`, a submission shows the fragments' text, in order,
      in the last item, and the page is no longer busy. */
  lemma ShowsChatHubReply(v: PageView, c: ChatHub.Completion)
    requires |v.conversations| > 0
    ensures var w := OnHubEvents(v, ChatHub.RelayTrace(c));
            var last := |v.conversations| - 1;
            && !w.isBusy
            && w.conversations[..last] == v.conversations[..last]
            && w.conversations[last].response == v.conversations[last].response + Concat(ChatHub.FragmentTexts(c.fragments))
  {
    ReplayHubEvents(v, ChatHub.RelayTrace(c));
    ChatHub.RelayForwardsInOrder(c);
    ChatHub.RelayTraceEndsOnceWithDone(c);
  }

  /** Served by `MockChatHub`, a submission shows the input's words, each
      followed by a space, and the page is no longer busy. */
  lemma ShowsMockReply(v: PageView, input: string)
    requires |v.conversations| > 0
    ensures var w := OnHubEvents(v, MockChatHub.MockTrace(input));
            var last := |v.conversations| - 1;
            && !w.isBusy
            && w.conversations[last].response == v.conversations[last].response + Concat(MockChatHub.WordFragments(input))
  {
    ReplayHubEvents(v, MockChatHub.MockTrace(input));
    MockChatHub.MockTraceShape(input);
  }

  /** The page's state; `sent` holds the requests handed to `connection.send`,
      and `connected` says whether `connection` is set. */
  class ChatPage {
    var conversations: seq<Conversation>
    var isBusy: bool
    var connected: bool
    var sent: seq<ChatRequest>

    constructor (connected: bool)
      ensures this.connected == connected && conversations == [] && !isBusy && sent == []
    {
      this.connected := connected;
      conversations, isBusy, sent := [], false, [];
    }

    function View(): PageView
      reads this
    {
      PageView(conversations, isBusy)
    }

    /** The `ReceiveResponse` handler. */
    method OnReceiveResponse(message: string)
      requires |conversations| > 0
      modifies this`conversations
      ensures View() == OnHubEvent(old(View()), ReceiveResponse(message))
    {
      conversations := AppendToLast(conversations, message);
    }

    /** The `NotifyDone` handler. */
    method OnNotifyDone()
      modifies this`isBusy
      ensures View() == OnHubEvent(old(View()), NotifyDone)
    {
      isBusy := false;
    }

    /** `handleSubmit`: nothing without a connection; otherwise busy, the new
        item `{message, response: ""}` appended, and a request carrying the
        list as it was before. A failed send clears the busy flag and keeps
        the item. */
    method HandleSubmit(message: string, sendFails: bool)
      modifies this`conversations, this`isBusy, this`sent
      ensures !old(connected) ==> conversations == old(conversations) && isBusy == old(isBusy) && sent == old(sent)
      ensures old(connected) ==>
                && conversations == old(conversations) + [Conversation(message, "")]
                && sent == old(sent) + [ChatRequest(message, old(conversations))]
                && isBusy == !sendFails
    {
      if !connected {
        return;
      }
      isBusy := true;
      var newConversation := Conversation(message, "");
      var chatRequest := ChatRequest(message, conversations);
      conversations := conversations + [newConversation];
      sent := sent + [chatRequest];
      if sendFails {
        isBusy := false;
      }
    }
  }
}

# Chat relay: history assembly, single-flight guard and reply traces

This project models the core of a small chat relay. A browser client keeps a
list of exchanges and submits a new input together with earlier exchanges. A
SignalR hub builds a role-tagged history for a completion service and relays
what the service streams back to the caller. A per-connection guard drops a
submission that arrives while another one from the same connection is still
being served. The model covers these parts:

- `ChatHistory` (`chat_history.dfy`): the history the hub and the `/chat`
  endpoint build. It holds one system message, then `Take(k).Reverse()` of
  the earlier exchanges as user/system pairs, then the input. It is defined by
  the function `BuildHistory`. `AssembleHistory` is the hub's append loop,
  proved equal to it.
- `SendGuard` (`send_guard.dfy`): the static `_sendLocks` dictionary. The
  class `SendLocks` holds a map from connection id to a held flag, with
  `GetOrAdd` plus `WaitAsync(0)`, `Release` and `TryRemove`.
- `ClientTrace` (`client_trace.dfy`): the calls a hub makes on its caller,
  and the vocabulary used to state properties about them.
- `ChatHub` (`chat_hub.dfy`): `SendChat` as a sequential state machine. The
  steps are: take the guard, assemble the history, relay every fragment,
  send the generic error on failure, send `NotifyDone`, and release in
  `finally`. `OnDisconnectedAsync` removes the connection's guard entry.
- `MockChatHub` (`mock_chat_hub.dfy`): the same guard. The reply is the
  input split on `' '` with empty entries removed, and each word is sent
  followed by one space.
- `ChatEndpoint` (`chat_endpoint.dfy`): the `POST /chat` handler. It builds
  the same history and reads the last returned message. It answers 500 with
  a fixed text when that output is null or whitespace, and 200 otherwise.
- `UseChat` (`use_chat.dfy`): the `useChat` hook. The list updaters (chunk
  append, submit, edit, clear) are pure functions. The hook state is a
  class whose handlers apply them and set `isBusy`, `error` and the
  subscription.
- `ChatPage` (`chat_page.dfy`): the page's `ReceiveResponse` and
  `NotifyDone` handlers and its submit handler. Lemmas connect it to both
  hubs: replaying a hub's trace shows the relayed text in the last item and
  clears the busy flag.

The model follows the code, including where it does something other than
what a chat history usually holds:

- The history window is the FIRST `k` earlier exchanges, newest of them
  first, where one would expect the `k` most recent exchanges, oldest
  first (`WindowOmitsLaterEntries`, `WindowOfTwoOfThree`).
- The earlier responses are added with the system role. No assistant role is
  used.
- The hubs have no cancellation. A cancelled `/chat` request makes the
  provider call throw, which the handler answers with the 500 text
  (`ProviderReply.Threw`).
- `useChat`'s `streamChat` leaves the hook busy when there is no connection.

External parts are given as parameters:

- The completion service is a function from a history to a `Completion`
  value. That value holds the fragments yielded and an optional exception
  message, raised after them.
- The system prompt read from files is an `Option<string>` for both
  `ChatHub.SendChat` and the `/chat` handler. `None` means listing the
  folder threw.
- A failed `connection.send` or a throwing `connection.stream` is a boolean
  parameter.

## Model

| member | source | states |
|---|---|---|
| `ChatHistory.Take` | Chat.Api/Hubs/ChatHub.cs:69 | the kept prefix has length `min(max(k,0), n)` and is the start of the list, so a negative or zero count keeps nothing |
| `ChatHistory.Reverse` | Chat.Api/Hubs/ChatHub.cs:70 | same length, element `i` is element `n-1-i` of the input |
| `ChatHistory.Exchanges` | Chat.Api/Hubs/ChatHub.cs:72-75 | each exchange contributes exactly two messages, the user's `Message` then the `Response` tagged with the system role, in the given order |
| `ChatHistory.Window` | Chat.Api/Hubs/ChatHub.cs:67-71 | the window has `min(max(k,0), n)` exchanges and its element `i` is earlier exchange `m-1-i`: the first `m` exchanges, newest of them first |
| `ChatHistory.BuildHistory` | Chat.Api/Hubs/ChatHub.cs:61-77 | the history has length `2 + 2*min(max(k,0), n)`, starts with the system prompt as a system message and ends with the input as a user message |
| `ChatHistory.HistoryExchanges` | Chat.Api/Hubs/ChatHub.cs:67-75 | between the first and last message, positions `1+2i` and `2+2i` hold the user message and system-role response of earlier exchange `m-1-i` |
| `ChatHistory.AssembleHistory` | Chat.Api/Hubs/ChatHub.cs:61-77 | the append loop produces exactly `BuildHistory` of the request |
| `ChatHistory.WindowOmitsLaterEntries` | Chat.Api/Program.cs:66-71 | an exchange at position `k` or later never reaches the provider, however recent it is |
| `ChatHistory.WindowOfTwoOfThree` | Chat.Api/Program.cs:62-78 | with a window of two and three exchanges, the history is system, the second exchange, the first exchange, then the input |
| `SendGuard.SendLocks.TryAcquire` | Chat.Api/Hubs/ChatHub.cs:30-33 | acquires exactly when the connection's entry is absent or free, then marks only that entry held; otherwise changes nothing |
| `SendGuard.SendLocks.Release` | Chat.Api/Hubs/ChatHub.cs:102-105 | frees the connection's entry and changes no other |
| `SendGuard.SendLocks.TryRemove` | Chat.Api/Hubs/ChatHub.cs:108-110 | removes the connection's entry; every other entry keeps its value |
| `ChatHub.RelayTraceEndsOnceWithDone` | Chat.Api/Hubs/ChatHub.cs:79-100 | a served submission ends with exactly one `NotifyDone`, after any error, and nothing but that `NotifyDone` follows a `ReceiveError` |
| `ChatHub.RelayForwardsInOrder` | Chat.Api/Hubs/ChatHub.cs:83-89 | the `ReceiveResponse` texts are exactly the fragments' contents in production order |
| `ChatHub.RelayErrorIsGeneric` | Chat.Api/Hubs/ChatHub.cs:91-98 | a `ReceiveError` is sent iff the provider failed, it always carries the fixed text, and the trace does not depend on the exception message |
| `ChatHub.ChatHub.SendChat` | Chat.Api/Hubs/ChatHub.cs:26-106 | with the guard held: no event and no state change; otherwise the guard is released on every exit, no event when the prompt files cannot be listed, and else the relay trace of the provider's answer to `BuildHistory` |
| `ChatHub.ChatHub.OnDisconnected` | Chat.Api/Hubs/ChatHub.cs:108-110 | the connection's entry is gone and all others are unchanged |
| `ChatHub.SingleFlight` | Chat.Api/Hubs/ChatHub.cs:30-33 | for any connection, window and prompt: a completed submission leaves the guard free, so the next one is served in full; a submission while the guard is held yields no event |
| `MockChatHub.WordLength` | Chat.Api/Hubs/MockChatHub.cs:31 | the leading run of non-space characters ends at the first space or at the end |
| `MockChatHub.Split` | Chat.Api/Hubs/MockChatHub.cs:31 | every part is non-empty and contains no space |
| `MockChatHub.SplitEmptyIffBlank` | Chat.Api/Hubs/MockChatHub.cs:31-40 | the split is empty iff the input is empty or all spaces |
| `MockChatHub.SpaceSeparates` | Chat.Api/Hubs/MockChatHub.cs:31 | a space separates: the parts of `a + " " + b` are the parts of `a` then those of `b`, so leading, trailing and repeated spaces give no part and no part spans a space |
| `MockChatHub.SplitKeepsText` | Chat.Api/Hubs/MockChatHub.cs:31 | the parts, concatenated, are the input with its spaces removed |
| `MockChatHub.SplitJoin` | Chat.Api/Hubs/MockChatHub.cs:31 | words joined by single spaces split back into the same words |
| `MockChatHub.FragmentsAreWords` | Chat.Api/Hubs/MockChatHub.cs:31-36 | every fragment has at least two characters, ends with a space and has no other space, so none is `" "` |
| `MockChatHub.MockTraceShape` | Chat.Api/Hubs/MockChatHub.cs:34-40 | the fragments come first in order, then exactly one `NotifyDone`; an empty or all-space input gives `NotifyDone` alone |
| `MockChatHub.MockChatHub.SendChat` | Chat.Api/Hubs/MockChatHub.cs:20-46 | with the guard held: no event and no state change; otherwise the word fragments then `NotifyDone`, and the guard released |
| `MockChatHub.MockChatHub.OnDisconnected` | Chat.Api/Hubs/MockChatHub.cs:48-50 | the connection's entry is gone and all others are unchanged |
| `ChatEndpoint.AllWhiteSpace` | Chat.Api/Program.cs:97 | true iff every character is a .NET white-space character |
| `ChatEndpoint.IsNullOrWhiteSpace` | Chat.Api/Program.cs:97 | true iff the output is null or consists of white space only |
| `ChatEndpoint.Output` | Chat.Api/Program.cs:80-95 | the content of the last returned message; null when the provider throws or returns no message |
| `ChatEndpoint.Respond` | Chat.Api/Program.cs:97-100 | 500 with the fixed text iff the output is null or blank, otherwise 200 with the output unchanged |
| `ChatEndpoint.HandleChat` | Chat.Api/Program.cs:27-101 | the handler returns no result iff the prompt files cannot be listed (an unhandled exception; the host answers a bare 500, not the fixed retry text); otherwise `Respond` of the last message the provider returns for `BuildHistory` of the request |
| `UseChat.AppendChunk` | chat-ui/src/hooks/useChat.ts:24-33 | same length, every item but the last unchanged, the last keeps id and message and its response becomes `(old ?? "") + chunk` |
| `UseChat.ChunksAccumulate` | chat-ui/src/hooks/useChat.ts:24-33 | after chunks `c1..cn` the last response is the old one (or empty) followed by `c1 + ... + cn`, and nothing else changed |
| `UseChat.ToPrevious` | chat-ui/src/hooks/useChat.ts:59-65 | the request history has the same length as the passed list |
| `UseChat.RequestMirrorsList` | chat-ui/src/hooks/useChat.ts:97-105 | item `i` of the request keeps only `message` and `response` of item `i` |
| `UseChat.EditRequestDropsLast` | chat-ui/src/hooks/useChat.ts:97-105 | the edit request's history is the request history of the passed list without its last item |
| `UseChat.FindIndex` | chat-ui/src/hooks/useChat.ts:85 | the first item with the id, or -1 iff no item has it |
| `UseChat.SaveEdit` | chat-ui/src/hooks/useChat.ts:84-95 | an unknown id leaves the list; otherwise length `i+1`, prefix unchanged, item `i` keeps its id with the new message and no response |
| `UseChat.ChatHook.StreamChat` | chat-ui/src/hooks/useChat.ts:15-47 | no connection: only the disconnected error; opening throws: the generic error and not busy; otherwise the subscription carries the request |
| `UseChat.ChatHook.OnChunk` | chat-ui/src/hooks/useChat.ts:24-33 | the list becomes `AppendChunk` of the old list; nothing else changes |
| `UseChat.ChatHook.OnComplete` | chat-ui/src/hooks/useChat.ts:35 | not busy |
| `UseChat.ChatHook.OnStreamError` | chat-ui/src/hooks/useChat.ts:36-40 | not busy, with the generic error text |
| `UseChat.ChatHook.HandleSubmit` | chat-ui/src/hooks/useChat.ts:49-68 | the new item appended after the unchanged list; busy with no error and a subscription for the request when the stream opens, with the error outcomes of `streamChat` otherwise |
| `UseChat.ChatHook.HandleStop` | chat-ui/src/hooks/useChat.ts:70-74 | no subscription and not busy |
| `UseChat.ChatHook.HandleSaveEdit` | chat-ui/src/hooks/useChat.ts:76-108 | the list becomes `SaveEdit`; the request carries the new message and the passed list without its last item |
| `UseChat.ChatHook.HandleClear` | chat-ui/src/hooks/useChat.ts:110-112 | the empty list |
| `ChatPage.AppendToLast` | chat-ui/src/pages/ChatPage.tsx:22-31 | same length, every item but the last unchanged, the last response extended by the message |
| `ChatPage.ReplayHubEvents` | chat-ui/src/pages/ChatPage.tsx:22-36 | a run of hub calls changes only the last item, whose response grows by the relayed texts in order, and clears busy iff a `NotifyDone` came |
| `ChatPage.ShowsChatHubReply` | chat-ui/src/pages/ChatPage.tsx:22-36 | after a `ChatHub` reply the last response is extended by the fragments' text in order and the page is not busy |
| `ChatPage.ShowsMockReply` | chat-ui/src/pages/ChatPage.tsx:22-36 | after a `MockChatHub` reply the last response is extended by the words, each with a trailing space, and the page is not busy |
| `ChatPage.ChatPage.OnReceiveResponse` | chat-ui/src/pages/ChatPage.tsx:22-31 | the list is updated by `AppendToLast`, the busy flag untouched |
| `ChatPage.ChatPage.OnNotifyDone` | chat-ui/src/pages/ChatPage.tsx:34-36 | not busy, list untouched |
| `ChatPage.ChatPage.HandleSubmit` | chat-ui/src/pages/ChatPage.tsx:50-73 | no connection: nothing changes; otherwise `{message, ""}` appended, the request carries the list as it was before, and busy unless the send failed |

## Left out

- Reading the system-message files (`Directory.GetFiles`, `File.ReadAllText`, the `StringBuilder` loop) and the fixed prompt prefix of `/chat` are outside the model. The prompt is an opaque string. Only the case where listing the folder throws is kept, as `None`: the hub then ends in an exception after releasing its guard, and the `/chat` handler returns no result (an unhandled exception; the host answers a bare 500, not the fixed retry text).
- The Semantic Kernel completion service and the OpenAI registration are outside the model. A completion is a given function from the history to fragments plus an optional failure, or to a list of returned contents for `/chat`.
- `Task.Delay(responseDelay)` pacing is left out because it only affects timing. `ResponseDelay` is read by both hubs but is not declared in `Chat.Api/Options/AppOptions.cs`.
- Concurrency of `SemaphoreSlim` and `ConcurrentDictionary` is left out. The guard is a sequential map, and a held entry stands for a submission that is still being served. Races are not modelled, for example a disconnect that removes an entry while its semaphore is held.
- Server-side cancellation is not modelled because the hubs have none. `handleStop` only disposes the client's subscription.
- `ChatHub.ChatHub.SendChat`: calls on `Clients.Caller` are treated as infallible. If `ReceiveResponse` throws inside the inner `try`, the real hub sends the error instead; the model does not follow that path.
- `MockChatHub.MockChatHub.SendChat`: calls on `Clients.Caller` are treated as infallible. If `ReceiveResponse` or `NotifyDone` throws, the real hub ends the call with that exception, sends no `NotifyDone`, and its `finally` still releases the guard; the model does not follow that path.
- `OnConnectedAsync`, all logging, SignalR connection setup, `sessionStorage` persistence and clipboard use are left out because they have no effect on the modelled state.
- `useChat.ts` streams from a hub method `StreamChat`, which neither hub defines. The stream is modelled only through its callbacks.
- React batches state updates. The model applies each handler's updates in order, and the `conversations` arguments are whatever the caller passed.
- `UseChat.AppendChunk` and `ChatPage.AppendToLast` require a non-empty list. On an empty list the source's updater throws a `TypeError`.
- `UseChat.ConversationModel` and `UseChat.ChatRequestModel` are not defined in `chat-ui/src/models.ts`. Their fields come from how the hook uses them: an id, a message and an optional response.
- The server's `Conversation.Response` is a non-null string in the model. A request carrying an undefined response is not modelled.
- UI rendering components and build configuration are outside the model.

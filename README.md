# Rohlik voice assistant — a Dafny model

The `rohlik_voice` Home Assistant integration lets a user shop at Rohlik.cz by voice or text. This project models its core in Dafny and proves properties of that model.

- **Conversation agent.** It sends the stored history and the user's text to the OpenAI chat model. Tool calls that the model asks for are run against the Rohlik MCP grocery server, and their results go back in a second request. The exchange is then remembered, bounded to ten exchanges.
- **Realtime handler.** It holds one OpenAI realtime session. It sends audio, text and function results, and reacts to the events the API sends back.
- **Browser relay.** It connects a realtime handler and forwards the browser's frames to it.
- **Other parts.** The MCP client itself, the tool catalog and its formatters, and the setup dialog that checks the OpenAI key and the Rohlik credentials.

How the model is built:

- One module per source file.
  - `tools.dfy`: `tools.py`.
  - `mcp_client.dfy`: `mcp_client.py`.
  - `dispatch.dfy`: the name-to-operation table that `conversation.py` and `websocket_api.py` both contain.
  - `conversation.dfy`, `realtime_api.dfy`, `websocket_api.dfy`, `config_flow.dfy`: the files of the same names.
  - `base.dfy`, `pytext.dfy` and `json.dfy`: the Python values and built-ins the code relies on.
- JSON values are the `Json` datatype. A Python exception is `Outcome.Raised` with its message.
- Remote parties are functions from the request's index and body to the reply:
  - the MCP server: `(n, payload) -> Reply`;
  - the chat model: `(r, request) -> ChatReply`.
- `json.loads`, `json.dumps`, `str()` of containers and base64 are the fields of a `Codec`.
- The objects that change state are classes, with logs of what they sent:
  - `McpClient.Client`;
  - `Conversation.Agent`;
  - `Realtime.Handler`.
- Each method is proved against a pure function of its inputs and old state. The properties are proved as lemmas about those functions.

## Model

| member | source | states |
|---|---|---|
| `PyText.StripKeepsTheMiddle` | custom_components/rohlik_voice/mcp_client.py:46 | `str.strip()` keeps one contiguous slice of the input and drops only whitespace around it; that slice neither starts nor ends with whitespace (`Strip`'s own contract) |
| `PyText.SplitJoin` | custom_components/rohlik_voice/mcp_client.py:46 | joining pieces that do not contain the separator and then splitting gives the pieces back |
| `PyText.ParseIntRoundTrip` | custom_components/rohlik_voice/conversation.py:229 | `int(str(n)) == n` for every integer, negative ones included |
| `PyText.UnderscoreGrouping` | custom_components/rohlik_voice/conversation.py:229 | `int()` ignores a single `_` between digit runs; a doubled or trailing `_` makes it raise |
| `Json.Get` | custom_components/rohlik_voice/realtime_api.py:196 | `.get` succeeds exactly on a dict; on anything else it raises |
| `Json.PyIn` | custom_components/rohlik_voice/mcp_client.py:86 | `key in v` is key membership on a dict and raises exactly for None, booleans and numbers |
| `Json.ToIntAcceptsDecimal` | custom_components/rohlik_voice/conversation.py:229 | `int()` gives back an integer sent either as a number or as its decimal text |
| `Json.ToIntRaises` | custom_components/rohlik_voice/websocket_api.py:73 | `int(v)` raises exactly for None, containers and text that is not an optionally signed run of ASCII digits grouped by single underscores, whitespace around it allowed |
| `Tools.CatalogOffersFourTools` | custom_components/rohlik_voice/tools.py:6-72 | the catalog offers exactly search, add, get-cart and remove, under distinct names |
| `Tools.RequiredParametersAreDeclared` | custom_components/rohlik_voice/tools.py:6-72 | every required parameter of every tool is one of its declared properties |
| `Tools.ErrorKeyDecidesEveryFormatter` | custom_components/rohlik_voice/tools.py:92-148 | with an `error` key, all four formatters give their error sentence, whatever the content |
| `Tools.EmptyContent` | custom_components/rohlik_voice/tools.py:92-148 | missing or falsy content (None, `""`, `[]`, `{}`, `0`, `false`): search and cart say "nothing"; add and remove report success |
| `Tools.FirstItemTextIsTheAnswer` | custom_components/rohlik_voice/tools.py:102-104 | non-empty list content: every formatter answers with the first item's `text`, defaulting to "" |
| `Tools.NonListContent` | custom_components/rohlik_voice/tools.py:92-148 | truthy content that is not a list gives the fixed "available" or success sentences |
| `McpClient.RequestRoundTrip` | custom_components/rohlik_voice/mcp_client.py:124-170 | every operation can be read back from the request body it sends |
| `McpClient.RequestInjective` | custom_components/rohlik_voice/mcp_client.py:124-170 | two different operations never send the same body |
| `McpClient.RequestEnvelope` | custom_components/rohlik_voice/mcp_client.py:59-67 | each call is JSON-RPC 2.0 `tools/call` with id 1; adding to the cart sends a batch of exactly one item |
| `McpClient.DataLinePayload` | custom_components/rohlik_voice/mcp_client.py:47-50 | a data line contributes the decoding of what follows `data: ` |
| `McpClient.SseWithoutDataLines` | custom_components/rohlik_voice/mcp_client.py:43-53 | with no data line, the parsed reply is `{}` |
| `McpClient.SseLastDecodableDataLine` | custom_components/rohlik_voice/mcp_client.py:43-53 | the parsed reply is `v` iff `v` comes from a data line with no decodable data line after it, or there is none and `v` is `{}` |
| `McpClient.ParseSse` | custom_components/rohlik_voice/mcp_client.py:43-53 | the line loop computes that last-decodable-line value |
| `McpClient.NonOkStatusIsNotParsed` | custom_components/rohlik_voice/mcp_client.py:75-80 | a non-200 status becomes "HTTP <status>: <body>", and the body is never decoded |
| `McpClient.OkEnvelopeIsUnwrapped` | custom_components/rohlik_voice/mcp_client.py:84-90 | a dict envelope: `error` is forwarded as `{"error": …}`, otherwise `result` is returned, defaulting to `{}` |
| `McpClient.NonObjectEnvelopeRaises` | custom_components/rohlik_voice/mcp_client.py:84-90 | an envelope that is not a dict makes `_call_tool` raise |
| `McpClient.TransportFailures` | custom_components/rohlik_voice/mcp_client.py:92-97 | a timeout and a client error become error objects; any other exception escapes |
| `McpClient.ListToolsOutcomes` | custom_components/rohlik_voice/mcp_client.py:99-122 | `list_tools` drops the body on non-200, returns the whole envelope on 200, and catches every exception |
| `McpClient.ConnectionTestMeaning` | custom_components/rohlik_voice/mcp_client.py:171-178 | the test passes iff the reply is 200 and its parsed envelope is a container without "error" |
| `McpClient.ConnectionTestOnDict` | custom_components/rohlik_voice/mcp_client.py:171-178 | on a dict envelope, the test passes iff there is no `error` key |
| `McpClient.Client.constructor` | custom_components/rohlik_voice/mcp_client.py:18-28 | a new client has no session and has POSTed nothing |
| `McpClient.Client.EnsureSession` | custom_components/rohlik_voice/mcp_client.py:30-36 | afterwards a session is open |
| `McpClient.Client.Close` | custom_components/rohlik_voice/mcp_client.py:38-41 | afterwards no session is open |
| `McpClient.Client.Post` | custom_components/rohlik_voice/mcp_client.py:70-74 | one body is appended to the POST log; the reply is the server's reply to that POST |
| `McpClient.Client.CallTool` | custom_components/rohlik_voice/mcp_client.py:55-97 | POSTs the tool-call body once and returns or raises the normalised outcome of the reply |
| `McpClient.Client.ListTools` | custom_components/rohlik_voice/mcp_client.py:99-122 | POSTs `tools/list` once and returns the list outcome of the reply |
| `McpClient.Client.TestConnection` | custom_components/rohlik_voice/mcp_client.py:171-178 | POSTs `tools/list` once and answers whether the connection test passes |
| `McpClient.Client.SearchProducts` | custom_components/rohlik_voice/mcp_client.py:124-132 | POSTs the search request; the answer is the backend's outcome for it |
| `McpClient.Client.AddToCart` | custom_components/rohlik_voice/mcp_client.py:134-143 | POSTs `add_items_to_cart` with one item; the answer is the backend's outcome |
| `McpClient.Client.GetCart` | custom_components/rohlik_voice/mcp_client.py:145-147 | POSTs `get_cart`; the answer is the backend's outcome |
| `McpClient.Client.RemoveFromCart` | custom_components/rohlik_voice/mcp_client.py:149-154 | POSTs `remove_cart_item`; the answer is the backend's outcome |
| `McpClient.Client.UpdateCartItem` | custom_components/rohlik_voice/mcp_client.py:156-161 | POSTs `update_cart_item`; the answer is the backend's outcome |
| `McpClient.Client.ClearCart` | custom_components/rohlik_voice/mcp_client.py:163-165 | POSTs `clear_cart`; the answer is the backend's outcome |
| `McpClient.Client.GetUserInfo` | custom_components/rohlik_voice/mcp_client.py:167-169 | POSTs `get_user_info`; the answer is the backend's outcome |
| `Dispatch.UnknownNames` | custom_components/rohlik_voice/conversation.py:223-246 | a name is unknown iff it is not one of the six routed strings, so `get_user_info` is unreachable |
| `Dispatch.DefaultArguments` | custom_components/rohlik_voice/websocket_api.py:67-86 | missing arguments default to keyword "", product 0, quantity 1 when adding and 0 when updating |
| `Dispatch.NonDictArguments` | custom_components/rohlik_voice/conversation.py:223-244 | arguments that are not a dict fail every name that reads them; get-cart and clear ignore them |
| `Dispatch.RouteRecoversOperation` | custom_components/rohlik_voice/websocket_api.py:67-88 | the call that names an operation reaches that operation, even when the product id is given as text |
| `Dispatch.CatalogAndTableDiverge` | custom_components/rohlik_voice/tools.py:14-24 | the catalog's `query` is never read, so a search as described searches for ""; two routed names are not offered |
| `Dispatch.ChatAndRelayAgree` | custom_components/rohlik_voice/websocket_api.py:63-90 | the chat and relay tables agree on every routed call and word an unknown name differently |
| `Dispatch.RoutedCallIsAnsweredByBackend` | custom_components/rohlik_voice/websocket_api.py:67-88 | a routed call POSTs exactly its operation's request, and the answer is the backend's reply to it |
| `Dispatch.ExecuteFunction` | custom_components/rohlik_voice/conversation.py:215-249 | never raises; POSTs at most once; the answer is the chat answer, with exceptions turned into `{"error": …}` |
| `Dispatch.OnFunctionCall` | custom_components/rohlik_voice/websocket_api.py:63-90 | POSTs at most once; returns the relay answer, or raises for bad arguments |
| `Conversation.RunCallsAnswersInOrder` | custom_components/rohlik_voice/conversation.py:171-186 | one tool message per call, in order, each carrying its call's id; at most one POST per call |
| `Conversation.ChatExecutorPostsAtMostOnce` | custom_components/rohlik_voice/conversation.py:215-249 | `_execute_function` POSTs at most once |
| `Conversation.RunCallsStopsAtFirstUndecodable` | custom_components/rohlik_voice/conversation.py:171-173 | the loop fails iff some call's arguments do not decode, and it fails with the first such error |
| `Conversation.FailureIsFinal` | custom_components/rohlik_voice/conversation.py:171-173 | after a failed decode, later calls change nothing |
| `Conversation.ConverseRequests` | custom_components/rohlik_voice/conversation.py:143-203 | the first request carries the conversation and the catalog; a second request, if any, carries no catalog |
| `Conversation.ReplyWithoutToolCalls` | custom_components/rohlik_voice/conversation.py:212-213 | a reply without tool calls is the answer: its content, the fixed apology, or None; nothing is POSTed |
| `Conversation.FailedFirstRequest` | custom_components/rohlik_voice/conversation.py:157-159 | a failed first request raises its error, and nobody else is contacted |
| `Conversation.SecondRequestAnswersEveryCall` | custom_components/rohlik_voice/conversation.py:188-210 | the second request holds the conversation, the assistant's tool-call message and one tool result per call |
| `Conversation.UndecodableArgumentsAbortTheTurn` | custom_components/rohlik_voice/conversation.py:172-173 | undecodable arguments abort the turn: no second request, and the error is raised |
| `Conversation.ChosenId` | custom_components/rohlik_voice/conversation.py:72 | a missing or empty conversation id is replaced by the generated one |
| `Conversation.RememberKeepsHistory` | custom_components/rohlik_voice/conversation.py:89-95 | the history stays alternating user/assistant, ends with the new exchange, and is trimmed to 20 messages |
| `Conversation.Agent.constructor` | custom_components/rohlik_voice/conversation.py:38-53 | a new agent has no history and has made no request |
| `Conversation.Agent.RunToolCalls` | custom_components/rohlik_voice/conversation.py:170-186 | the loop's results, its POSTs and its failure are those of `RunCalls` |
| `Conversation.Agent.CallOpenAi` | custom_components/rohlik_voice/conversation.py:118-213 | the requests made, the POSTs and the answer are those of `Converse` |
| `Conversation.Agent.Process` | custom_components/rohlik_voice/conversation.py:60-116 | speech and the updated history on success; the error sentence and an unchanged history on failure; histories stay well formed; the MCP client's HTTP session is open afterwards iff it was before or the turn POSTed |
| `Realtime.MalformedArgumentsBecomeEmpty` | custom_components/rohlik_voice/realtime_api.py:236-241 | undecodable argument text becomes `{}`; only a value that is not a str raises |
| `Realtime.FunctionCallSendsOnePair` | custom_components/rohlik_voice/realtime_api.py:232-256 | a function call sends nothing, or its own call id's output followed by `response.create` (only while connected) |
| `Realtime.SilentFunctionCalls` | custom_components/rohlik_voice/realtime_api.py:246-256 | without a handler nothing is sent or POSTed; a handler answering None sends nothing |
| `Realtime.HandlerErrorIsReported` | custom_components/rohlik_voice/realtime_api.py:248-252 | a handler's exception is sent back as the JSON text of `{"error": str(err)}` |
| `Realtime.OtherEventsHaveNoEffect` | custom_components/rohlik_voice/realtime_api.py:194-230 | event types other than the four acted on change nothing; a non-dict event raises at `.get` |
| `Realtime.AudioDeltaDelivery` | custom_components/rohlik_voice/realtime_api.py:207-212 | a decoded audio delta reaches the callback iff it is truthy, a callback is set and it decodes |
| `Realtime.MessageSends` | custom_components/rohlik_voice/realtime_api.py:194-230 | one event sends only output/`response.create` pairs, nothing while disconnected, and nothing without a handler |
| `Realtime.ReceiveSends` | custom_components/rohlik_voice/realtime_api.py:172-192 | the loop sends and POSTs only what its handler does, so pairs stay pairs and silence stays silence |
| `Realtime.ReceiveLoopSends` | custom_components/rohlik_voice/realtime_api.py:172-192 | the receive loop sends only pairs, nothing while disconnected, and nothing without a function-call handler |
| `Realtime.ReceiveStopsAtError` | custom_components/rohlik_voice/realtime_api.py:181-186 | an error or close message ends the loop; nothing after it is handled |
| `Realtime.EndsOnCloseNeedsACloseMessage` | custom_components/rohlik_voice/realtime_api.py:184-186 | the loop leaves the socket closed only if a `CLOSED` message arrived |
| `Realtime.CloseAfterSkippedMessages` | custom_components/rohlik_voice/realtime_api.py:178-186 | a `CLOSED` message after skipped (non-text) messages ends the loop with the socket closed |
| `Realtime.Handler.constructor` | custom_components/rohlik_voice/realtime_api.py:20-35 | a new handler is not connected, holds no socket, session or task, and has sent nothing |
| `Realtime.Handler.ConnectedIsTheFlag` | custom_components/rohlik_voice/realtime_api.py:37-40 | under the handler's invariant, `connected` is the flag |
| `Realtime.Handler.Connect` | custom_components/rohlik_voice/realtime_api.py:42-98 | succeeds iff handshake and configuration succeed; then it is connected and `session.update` was sent |
| `Realtime.Handler.Disconnect` | custom_components/rohlik_voice/realtime_api.py:100-120 | clears the flag, task and session; closes an open socket and keeps one the peer closed; it is no longer connected |
| `Realtime.Handler.SendAudio` | custom_components/rohlik_voice/realtime_api.py:122-136 | one append event with the base64 text, only while connected |
| `Realtime.Handler.CommitAudio` | custom_components/rohlik_voice/realtime_api.py:138-147 | commit and then `response.create`, only while connected |
| `Realtime.Handler.SendText` | custom_components/rohlik_voice/realtime_api.py:149-170 | the user item and then `response.create`, only while connected |
| `Realtime.Handler.SendFunctionResult` | custom_components/rohlik_voice/realtime_api.py:258-282 | the output (JSON for a dict, `str` otherwise) and `response.create`, only while connected |
| `Realtime.Handler.HandleFunctionCall` | custom_components/rohlik_voice/realtime_api.py:232-256 | sends, POSTs and raises what `FunctionCallEffect` says |
| `Realtime.Handler.HandleMessage` | custom_components/rohlik_voice/realtime_api.py:194-230 | sends, delivers, POSTs and raises what `MessageEffect` says |
| `Realtime.Handler.HandleInbound` | custom_components/rohlik_voice/realtime_api.py:178-186 | one message of the loop has the effect of `Step`; the loop goes on only without an exception |
| `Realtime.Handler.Drain` | custom_components/rohlik_voice/realtime_api.py:177-190 | the `async for` has the effect of `Receive` on the messages and reports whether a `CLOSED` message ended it |
| `Realtime.Handler.ReceiveLoop` | custom_components/rohlik_voice/realtime_api.py:172-192 | returns at once without a socket; otherwise has the effect of `Receive`, clears the flag, and leaves the socket closed exactly when a `CLOSED` message ended the loop |
| `Relay.TextFrameDispatch` | custom_components/rohlik_voice/websocket_api.py:116-130 | a text frame's `type` selects commit, text (default "") or ping, each iff it has that value; any other type is skipped |
| `Relay.MalformedFramesAreSkipped` | custom_components/rohlik_voice/websocket_api.py:117-133 | a frame that is not JSON, or not a dict, is skipped, and the loop goes on |
| `Relay.PlanStopsAtError` | custom_components/rohlik_voice/websocket_api.py:135-137 | an error frame ends the loop; nothing after it is relayed |
| `Relay.PlanAppends` | custom_components/rohlik_voice/websocket_api.py:111-137 | frames without an error frame give one command each, and runs of frames compose |
| `Relay.PlanIsBounded` | custom_components/rohlik_voice/websocket_api.py:111-137 | at most one command per frame |
| `Relay.EventsAppend` | custom_components/rohlik_voice/websocket_api.py:111-137 | the events sent for consecutive runs of commands are concatenated |
| `Relay.RepliesAppend` | custom_components/rohlik_voice/websocket_api.py:129-130 | the same holds for the frames sent back |
| `Relay.OnePongPerPing` | custom_components/rohlik_voice/websocket_api.py:129-130 | the browser gets exactly one pong per ping, and nothing else |
| `Relay.ResponseFollowsCommitAndText` | custom_components/rohlik_voice/websocket_api.py:121-127 | after a commit or a text, the last event sent is `response.create` |
| `Relay.Serve` | custom_components/rohlik_voice/websocket_api.py:34-144 | on a failed connect: only the error frame, the socket closed and nothing sent. Otherwise: `connected` first, then the pongs, with `session.update` and the frames' events sent. Disconnected on every path |
| `Relay.RelayFrame` | custom_components/rohlik_voice/websocket_api.py:112-133 | one frame sends its command's events and answers a ping with one pong |
| `Relay.Pump` | custom_components/rohlik_voice/websocket_api.py:111-137 | the frame loop sends the events and replies of the plan of the frames |
| `Relay.GetCartCommand` | custom_components/rohlik_voice/websocket_api.py:157-167 | the client's cart answer, unchanged, after exactly one POST |
| `Relay.SearchCommand` | custom_components/rohlik_voice/websocket_api.py:176-188 | the client's search answer for the keyword, unchanged, after exactly one POST |
| `Relay.SearchCommandMatchesRelayedCall` | custom_components/rohlik_voice/websocket_api.py:185-187 | the search command and a relayed `search_products` call POST the same request and get the same answer |
| `ConfigFlow.ValidateOpenAiKey` | custom_components/rohlik_voice/config_flow.py:45-54 | a key is accepted iff it starts with "sk-" and has at least 20 characters; the empty key is refused |
| `ConfigFlow.KeyLengthBoundary` | custom_components/rohlik_voice/config_flow.py:52-53 | "sk-" plus 17 characters is accepted, one fewer is not, and no key shorter than 20 is |
| `ConfigFlow.KeyPrefixIsRequired` | custom_components/rohlik_voice/config_flow.py:50-51 | a key without the "sk-" prefix is refused however long it is |
| `ConfigFlow.ValidateRohlikCredentials` | custom_components/rohlik_voice/config_flow.py:33-42 | a fresh client runs the connection test with one POST and is closed whatever the outcome |
| `ConfigFlow.NoInputShowsEmptyForm` | custom_components/rohlik_voice/config_flow.py:66-68 | without input the form is shown with no error |
| `ConfigFlow.ConfiguredEmailAborts` | custom_components/rohlik_voice/config_flow.py:74-76 | an email already configured aborts before any check |
| `ConfigFlow.BadKeyIgnoresCredentials` | custom_components/rohlik_voice/config_flow.py:79-80 | a malformed key gives `invalid_openai_key`, whatever the credentials |
| `ConfigFlow.CredentialErrors` | custom_components/rohlik_voice/config_flow.py:83-91 | refused credentials give `invalid_auth`; an exception gives `cannot_connect` |
| `ConfigFlow.EntryExactlyWithoutErrors` | custom_components/rohlik_voice/config_flow.py:93-97 | an entry titled "Rohlik (<email>)" is created iff no error was recorded; otherwise one error is under `base` |
| `ConfigFlow.StepUser` | custom_components/rohlik_voice/config_flow.py:62-107 | the step decides as `Decide` on the real checks, and POSTs only when the key is well formed |
| `ConfigFlow.NeverCannotConnect` | custom_components/rohlik_voice/config_flow.py:83-91 | the real validation never raises, so `cannot_connect` never appears |

## Left out

- Asynchrony.
  - The receive task of the realtime handler runs concurrently with the relay's frame loop. The model runs each separately.
    - `Relay.Serve` covers only the browser's frames.
    - `Realtime.Handler.ReceiveLoop` covers only the API's events.
  - Task cancellation is reduced to clearing `receiving`.
- The relay's audio and transcript callbacks are `async def`, but `_handle_message` calls them without awaiting. The coroutine they return never runs, so nothing reaches the browser.
  - The model records each invocation in `delivered` and stops there.
- The relay's function-call callback: `Realtime.Handler` records its POSTs in its own `posted` log. The effect on the shared MCP client object is not modelled.
- Network I/O is represented only by functions from request index and body to reply:
  - sockets, HTTP sessions, headers, URLs, timeouts;
  - the contents of `session.update` and of the system prompt.
- Exceptions from sending on a socket are not modelled; every send succeeds.
- The relay catches a failure of the handshake inside `connect`. Any other exception of `get` is not modelled.
- Logging is not modelled.
- The JSON codec, `str()` of containers and base64 are abstract. No property of the real encoders is assumed.
- Python float values are not modelled, and neither is `ensure_ascii=False`: numbers are integers.
- `__init__.py`, `const.py`, `hass.data` and entry setup are not part of this model.
  - The relay and the commands receive the MCP client and the API key directly.
  - The setup dialog receives the set of configured unique ids.
- The form's schema and its description placeholders are not modelled.
- ParseInt: only ASCII digits are accepted. Python's `int()` also accepts every Unicode decimal digit (`"١٢"`, full-width `"１２"`), so such text raises in the model but not in Python.
- ToInt: the `ValueError` text quotes the input between plain single quotes. Python uses `repr()`, so a text holding a quote, a backslash or a control character gives a different `{"error": …}` message.
- The web frontend `www/rohlik-voice-card.js` is not part of this model.
- The chat path: arguments that do not decode raise outside the `try` of `_execute_function`. The whole turn then ends in the error sentence. The model follows the code here; it does not degrade to empty arguments as the realtime path does.
- `conversation.py`'s `supported_languages` and the agent's registration are not modelled.

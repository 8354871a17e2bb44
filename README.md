# Jessica chat interface — a Dafny model

This project models the logic of the Jessica chat interface, a chat front end
that forwards user text to an upstream language-model service. Two pieces of
logic are modelled.

- **The conversation client.** There are two copies: the single-page
  application's store (`useChatStore.ts`) and the server-rendered site's
  script (`public/app.js`). Each holds:
  - a message log seeded with one welcome message (id `"1"`);
  - an input;
  - an `isSending` flag;
  - a context mode (`personal`, `business` or `creative`);
  - in the store, an error.

  A submit trims the input. It projects the log into a `{role, content}`
  history that leaves out the welcome message. It appends the user message
  at once, posts one request, and after the single await appends exactly one
  `jessica` message: the reply, or an apology that wraps the error.
- **The proxies.** There are three handlers:
  - the application's `POST /api/chat` route;
  - the site's `/chat` handler;
  - the standalone backend's `/api/jessica/chat`.

  Each maps its configuration, the request and what its one outbound call
  returned to a single JSON response, `{error}` or `{reply}`, with a status.
  The response body is a datatype with exactly these shapes, so every path
  returns one of them and never both.

Modules, one per source file or shared concern:

- `Js` (`js.dfy`): JavaScript string truthiness, `String.prototype.trim`, and
  the decimal text of a number.
- `Chat` (`chat.dfy`): what both clients share. This covers messages, the
  history projection, the request, the outcome of the awaited call, and the
  failure and apology texts.
- `ChatStore` (`chat_store.dfy`): the store, as a class whose methods update
  its fields.
- `SiteClient` (`site_client.dfy`): the site script's `state` object, text box
  and context buttons, as a class. The button selection is an array that
  `Select` updates in a loop.
- `Relay` (`relay.dfy`): what the two forwarding proxies share. This covers
  the reply-field precedence `reply || response || message || content` and the
  mapping of an upstream result to a response.
- `NextRoute`, `SiteServer`, `Backend`: the three handlers, as pure functions.

The await in each client is split into two methods. `BeginSend` returns the
request it would post. `CompleteSend(outcome, id)` takes what the request came
back with. Any other method may run between the two. Each handler is also
split in two. One function (`Outbound` or `ModelCallFor`) gives the outbound
call it makes, if any. Another (`Post` or `HandleChat`) gives the response,
given what that call returned. "No upstream call" means the first function
gives `None` and the response does not depend on the upstream argument.

Behaviour of the code worth noting:

- The store has no in-flight guard: `sendMessage` only checks for blank input
  (`useChatStore.ts:51`). The page disables its controls while sending
  (`page.tsx:80`, `:85`), but the store accepts a second submit.
  `ChatStore.OverlappingSends` shows this. The site script does refuse
  (`app.js:131`).
- The proxies pick the first *truthy* reply field, not the first present one.
  An empty string falls through. When the first three fields are falsy, the
  last one is returned as it is, even if it is empty or absent.
- The site's handler does not fail for a missing upstream URL. It falls back to
  `https://api.zo.computer/zo/ask`. Only the route requires both settings.
- Only the backend validates the message (400). Neither forwarding proxy
  checks it.
- The site's handler parses the request body outside its `try`
  (`index.tsx:15`). A body that is not JSON therefore escapes the handler
  (`Uncaught`): the handler's own JSON `{error}` response is not sent, and the
  framework's error handler answers instead. The route parses inside its `try`
  (`route.ts:5`) and answers 500 with its JSON error.
- The two welcome texts differ: the store's has a hyphen, the site's an en
  dash.

## Model

| member | source | states |
|---|---|---|
| `Js.Trim` | jessica-frontend/src/state/useChatStore.ts:50-51 | the trimmed input is the middle of the input between a blank prefix and a blank suffix, does not start or end with white space, and is empty exactly when the input is blank (the `!trimmed` guard) |
| `Js.TrimIdempotent` | jessica-site/public/app.js:130 | trimming an already trimmed text changes nothing |
| `Js.Truthy` | jessica-frontend/src/state/useChatStore.ts:87 | of the values a string property can hold, exactly `undefined` and the empty string are falsy |
| `Js.NatToString` | jessica-site/public/app.js:169 | the decimal text of a status is non-empty, all digits, and has no leading zero |
| `Js.NatToStringInjective` | jessica-frontend/src/state/useChatStore.ts:87 | the decimal text of a status determines the status |
| `Chat.Seed` | jessica-frontend/src/state/useChatStore.ts:25-33 | the seeded message has id "1", sender `jessica` and the welcome text |
| `Chat.Entry` | jessica-frontend/src/state/useChatStore.ts:70-73 | a `user` sender gets role `user`, any other sender role `assistant`; the content is unchanged |
| `Chat.History` | jessica-frontend/src/state/useChatStore.ts:68-73 | the history is never longer than the log, and every entry is the role-mapped entry of some message of the log other than the seeded one (the filter/map projection; order and completeness in the lemmas below) |
| `Chat.HistoryAppend` | jessica-frontend/src/state/useChatStore.ts:68-73 | the filter/map projection distributes over concatenation, so it keeps order |
| `Chat.HistorySkipsSeed` | jessica-frontend/src/state/useChatStore.ts:69 | the message with id "1" contributes nothing to the history, wherever it stands |
| `Chat.HistoryKeepsOthers` | jessica-site/public/app.js:134-143 | every message whose id is not "1" is kept, one entry per message, in order, with its role mapped and its content unchanged |
| `Chat.Apology` | jessica-frontend/src/state/useChatStore.ts:116 | the apology is the fixed prefix, then exactly the error message, then the fixed suffix, so cutting prefix and suffix off gives the message back |
| `Chat.ApologyInjective` | jessica-site/public/app.js:177-182 | different error messages give different apologies |
| `Chat.FailureText` | jessica-frontend/src/state/useChatStore.ts:87 | the server's `error` when present and non-empty, otherwise "Request failed with status " followed by the status in decimal; never empty |
| `Chat.FailureTextNamesStatus` | jessica-site/public/app.js:168-170 | without a server `error`, "Request failed with status N" determines N |
| `Chat.ErrorMessage` | jessica-frontend/src/state/useChatStore.ts:85-105 | a non-ok response gives the server's error or "Request failed with status N"; a thrown `Error` gives its message; any other thrown value gives the client's fixed text: "Something went wrong" in the store (`ChatStore.UnknownError`), "undefined" in the site script (`SiteClient.UnknownError`, app.js:180) |
| `Chat.ReplyContent` | jessica-frontend/src/state/useChatStore.ts:92-118 | the one `jessica` message a completed send appends holds the reply as it came, or on failure the apology whose middle is exactly the recorded error message (the same in app.js:174-182) |
| `ChatStore.Store.constructor` | jessica-frontend/src/state/useChatStore.ts:25-41 | the initial state is the welcome message alone, empty input, not sending, no error, context `personal` |
| `ChatStore.Store.SetInput` | jessica-frontend/src/state/useChatStore.ts:42 | only the input changes |
| `ChatStore.Store.SetContextMode` | jessica-frontend/src/state/useChatStore.ts:44 | only the context mode changes |
| `ChatStore.Store.ClearError` | jessica-frontend/src/state/useChatStore.ts:46 | only the error changes, to none |
| `ChatStore.Store.BeginSend` | jessica-frontend/src/state/useChatStore.ts:48-83 | a blank input changes nothing and posts nothing. Otherwise it appends exactly one `user` message with the trimmed input, clears the input, sets sending, clears the error, keeps the context, and posts the trimmed input, the context read at submit time and the history of the log before the append. There is no guard on sending |
| `ChatStore.Store.CompleteSend` | jessica-frontend/src/state/useChatStore.ts:85-122 | exactly one `jessica` message is appended: the reply, or the apology for the recorded error. Sending is over. The error is set only on failure. Input and context are unchanged |
| `ChatStore.Submit` | jessica-frontend/src/state/useChatStore.ts:48-122 | a whole submit of non-blank input adds exactly the user message and one `jessica` message, and ends with sending false |
| `ChatStore.HelloExchange` | jessica-frontend/src/state/useChatStore.ts:60-101 | "Hello" in the personal context posts an empty history; the reply "Hi there" leaves the log welcome, "Hello", "Hi there" |
| `ChatStore.OverlappingSends` | jessica-frontend/src/state/useChatStore.ts:48-65 | a second submit while the first is in flight is accepted, and its history already holds the first user message |
| `SiteClient.SendControls` | jessica-site/public/app.js:49-54 | the send button is disabled exactly when the trimmed text is empty or a request is in flight; the text box exactly while one is in flight |
| `SiteClient.Selection` | jessica-site/public/app.js:118-122 | after choosing a mode, one flag per button, and a button is selected exactly when its `data-context` is that mode |
| `SiteClient.ExactlyOneSelected` | jessica-site/public/app.js:118-122 | with distinct button modes, choosing button k's mode selects button k and no other |
| `SiteClient.Client.constructor` | jessica-site/public/app.js:13-24 | the page starts with the welcome message alone, not sending, context `personal` selected, an empty text box |
| `SiteClient.Client.Type` | jessica-site/public/app.js:199-201 | only the text box value changes |
| `SiteClient.Client.AppendMessage` | jessica-site/public/app.js:75-81 | exactly one message with the given sender and content is pushed at the end; earlier messages and the other state are unchanged |
| `SiteClient.Client.Select` | jessica-site/public/app.js:118-122 | after the loop each button is selected exactly when its mode is the chosen one |
| `SiteClient.Client.ClickContext` | jessica-site/public/app.js:113-123 | the context mode becomes the clicked button's mode and the selection follows it. Messages, sending and text are unchanged |
| `SiteClient.Client.BeginSend` | jessica-site/public/app.js:129-162 | it is refused, changing nothing, exactly when the send button is disabled (blank text or sending). Otherwise the history is taken before the append. Sending starts, the text box is cleared, one `user` message with the trimmed text is appended, and the request carries that text, the context and the history |
| `SiteClient.Client.CompleteSend` | jessica-site/public/app.js:164-188 | exactly one `jessica` message (the reply or the apology) is appended, and sending is false whatever the outcome |
| `SiteClient.SecondSubmitRefused` | jessica-site/public/app.js:130-131 | between the two halves of a send, with new non-blank text typed into the box, a second submit posts nothing and adds nothing: the in-flight guard refuses it |
| `SiteClient.Submit` | jessica-site/public/app.js:129-188 | a whole submit from idle adds exactly the user message and one `jessica` message, and ends with sending false |
| `SiteClient.ClickOnPage` | jessica-site/index.tsx:113-130 | on the page's three buttons, a click leaves exactly the clicked button selected |
| `Relay.Encode` | jessica-site/public/app.js:157-161 | the posted JSON carries the message, the context's wire name and the history |
| `Relay.FirstTruthy` | jessica-frontend/src/app/api/chat/route.ts:44 | `a \|\| b \|\| …` returns one of its candidates, and it is truthy unless it is the last |
| `Relay.FirstTruthyPicksFirst` | jessica-site/index.tsx:48 | the candidate at the first truthy position is returned; when no candidate before the last is truthy, the last is returned as it is |
| `Relay.ReplyPrecedence` | jessica-frontend/src/app/api/chat/route.ts:43-45 | `reply` wins when truthy, then `response`, then `message`; otherwise `content` as it is |
| `Relay.ReplyExamples` | jessica-site/index.tsx:47-49 | a lone `response`, `message` or `content` of "hi" gives "hi"; `reply` beats `response`; an empty `reply` falls through |
| `Relay.UpstreamErrorTextInjective` | jessica-frontend/src/app/api/chat/route.ts:34-37 | "Zo API error: N" determines N |
| `Relay.ExtractReply` | jessica-frontend/src/app/api/chat/route.ts:44 | the reply is one of the four fields `reply`, `response`, `message`, `content`, and a truthy one unless it is `content` (the full precedence in `Relay.ReplyPrecedence`) |
| `Relay.UpstreamErrorText` | jessica-site/index.tsx:40 | the reported upstream error is "Zo API error: " followed by the status in decimal |
| `Relay.Forwarded` | jessica-frontend/src/app/api/chat/route.ts:31-52 | a non-ok upstream status is mirrored with "Zo API error: N". A thrown fetch, or an ok status whose body does not parse as JSON, gives 500 "Failed to process chat request". Otherwise the reply is the extracted field with status 200. A reply comes exactly with an ok status |
| `NextRoute.Outbound` | jessica-frontend/src/app/api/chat/route.ts:5-29 | an upstream call is made exactly when the body parsed and key and URL are both truthy. It goes to the URL with `Bearer <key>` and carries the body's fields unchanged |
| `NextRoute.Post` | jessica-frontend/src/app/api/chat/route.ts:3-53 | an unparsable body gives 500 "Failed to process chat request". Missing settings give 500 "Server configuration error". Otherwise the response is `Relay.Forwarded` of the upstream result. It is never uncaught |
| `NextRoute.NoCallWithoutConfig` | jessica-frontend/src/app/api/chat/route.ts:10-16 | without both settings there is no call, and the response is the configuration error whatever the upstream |
| `NextRoute.UpstreamStatusMirrored` | jessica-frontend/src/app/api/chat/route.ts:31-38 | a non-ok upstream status N gives status N with "Zo API error: N" |
| `NextRoute.UpstreamTextNotRelayed` | jessica-frontend/src/app/api/chat/route.ts:32-33 | the response never depends on the upstream body text |
| `NextRoute.ForwardsClientRequest` | jessica-frontend/src/app/api/chat/route.ts:24-28 | a client's request reaches the upstream exactly as the client encoded it |
| `SiteServer.ApiUrl` | jessica-site/index.tsx:18-19 | the configured URL when truthy, else `https://api.zo.computer/zo/ask` |
| `SiteServer.Outbound` | jessica-site/index.tsx:17-34 | an upstream call is made exactly when the body parsed and the key is truthy. It goes to `ApiUrl` with `Bearer <key>` and carries the body's fields unchanged |
| `SiteServer.HandleChat` | jessica-site/index.tsx:14-54 | an unparsable body escapes the handler, and the framework's error handler answers instead of the handler's JSON error. An empty or unset key gives 500 "Server configuration error: missing API key". Otherwise the response is `Relay.Forwarded` of the upstream result |
| `SiteServer.NoCallWithoutKey` | jessica-site/index.tsx:21-24 | without a key there is no call, and the response is the missing-key error whatever the upstream |
| `SiteServer.UpstreamStatusMirrored` | jessica-site/index.tsx:36-43 | a non-ok upstream status N gives status N with "Zo API error: N" |
| `SiteServer.ForwardsClientRequest` | jessica-site/index.tsx:27-34 | a client's request reaches the default URL exactly as encoded when no URL is configured |
| `Backend.HistoryOrEmpty` | jessica-backend/src/index.ts:28 | an absent history is the empty list |
| `Backend.Messages` | jessica-backend/src/index.ts:37-40 | the history unchanged as a prefix, followed by exactly one `user` turn with the message |
| `Backend.ModelCallFor` | jessica-backend/src/index.ts:33-47 | the model is called exactly when the message is truthy, with the fixed model, token limit and system prompt, and `Messages` of the history or `[]` |
| `Backend.FirstBlockText` | jessica-backend/src/index.ts:49-50 | no text when there is no first block (reading it throws); the first block's text when it is a text block; "" otherwise |
| `Backend.HandleChat` | jessica-backend/src/index.ts:25-60 | a falsy message gives 400 "Message is required". A reply (status 200) comes exactly when the model was called and answered with at least one block, and carries that block's text and the usage. Everything else is 500 "Failed to process chat" |
| `Backend.Health` | jessica-backend/src/index.ts:62-64 | status 200 with `{status: "ok", service: "jessica-backend"}` |
| `Backend.NoCallWithoutMessage` | jessica-backend/src/index.ts:33-35 | a falsy message gets no model call and a 400 whatever the model would say |
| `Backend.ContextIgnored` | jessica-backend/src/index.ts:28-31 | the request's `context` changes neither the model call nor the response |
| `Backend.MessagesMatchClientHistory` | jessica-backend/src/index.ts:37-40 | a hypothetical pairing, since neither client posts to this backend: were a client's `{message, history}` sent here, the turns sent to the model would equal the history of that client's log after its optimistic append |

## Left out

- Rendering is not modelled. This covers the server-rendered HTML page, the
  DOM work in `app.js` (bubble creation, `scrollToBottom`,
  `showTyping`/`hideTyping`, focus) and the React components. None of it
  changes the state above.
- `updateSendState` is modelled as a function of the state
  (`SiteClient.SendControls`), not as stored DOM attributes. The script calls
  it after every state change, so the two agree.
- Network I/O is not modelled: `fetch`, the model SDK call, `serve`, CORS and
  static files. Their results are parameters (`Outcome`, `Upstream`,
  `ModelResult`). There is no real concurrency: the await is split into two
  methods.
- Environment variables are not read. The key and URL are a `Config` value.
- Ids and timestamps are not generated. Message ids are opaque strings the
  caller supplies. The store's `createdAt` is not modelled.
- Logging (`console.error`) is not modelled. It has no effect on state or
  responses.
- JSON values are modelled as optional strings. Every request and reply field
  is `Option<string>` and the history a sequence of entries. Non-string values
  and `null` are not modelled.
- `ChatStore.Store.CompleteSend`: the reply is taken to be a string. When the
  proxy's reply is absent (`ReplyBody(None)`, sent as `{}`), the clients would
  store `undefined` as the content. The model does not capture that.
- `ChatStore.Store.CompleteSend`: the failure path's two `set` calls are two
  assignments in one method. Nothing can run between them, because there is no
  await there.
- `Relay.Forwarded`: if reading the upstream body text itself throws on a
  non-ok response, the handler answers 500. The model does not capture that
  case.
- `SiteServer.HandleChat`: the framework's answer to an exception that
  escapes the handler is not modelled (`Uncaught`).
- Statuses are unbounded naturals. The HTTP range of status codes is not
  imposed.
- The backend's listening port and its CORS origin are not modelled.

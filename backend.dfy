/** The standalone backend's `POST /api/jessica/chat`: it validates the
    message, appends it as a user turn to the history it was given, asks the
    language model once, and answers with the text of the first content
    block. The model call is split out as in the proxies: `ModelCallFor`
    says which call the handler makes, if any, and `HandleChat` the response
    it sends given what that call came back with. */
module Backend {
  import opened Js
  import opened Chat

  const ModelName: string := "claude-sonnet-4-20250514"
  const MaxTokens: nat := 1024
  const SystemPrompt: string :=
    "You are Jessica, a warm and supportive AI assistant. You speak in a casual, friendly tone - like a trusted friend or sibling. You're helpful, direct, and encouraging. Keep responses concise but genuine. You sometimes use phrases like \"Copy that\" or \"Got it, brother\" but don't overdo it."

  const MessageRequired: string := "Message is required"
  const ChatFailure: string := "Failed to process chat"

  /** The destructured request body; `context` is there but never read. */
  datatype ChatBody = ChatBody(message: Option<string>, context: Option<string>, history: Option<seq<HistoryEntry>>)

  /** The one call to the language model. */
  datatype ModelCall = ModelCall(model: string, maxTokens: nat, system: string, messages: seq<HistoryEntry>)

  datatype ContentBlock = TextBlock(text: string) | OtherBlock(kind: string)

  datatype Usage = Usage(inputTokens: nat, outputTokens: nat)

  /** What the model call came back with: it threw, or a reply with its
      content blocks and its token usage. */
  datatype ModelResult = ModelFailed | ModelReplied(content: seq<ContentBlock>, usage: Usage)

  datatype Body =
    | ErrorBody(error: string)
    | ReplyBody(reply: string, usage: Usage)
    | StatusBody(status: string, service: string)

  datatype Response = Json(status: nat, body: Body)

  /** `history = []`: an absent history is the empty list. */
  function HistoryOrEmpty(history: Option<seq<HistoryEntry>>): (h: seq<HistoryEntry>)
    ensures history.None? ==> h == []
    ensures history.Some? ==> h == history.value
  {
    if history.Some? then history.value else []
  }

  /** `[...history, {role: "user", content: message}]`: the history as it
      was, followed by exactly one user turn. */
  function Messages(history: seq<HistoryEntry>, message: string): (m: seq<HistoryEntry>)
    ensures |m| == |history| + 1
    ensures m[..|history|] == history
    ensures m[|history|] == HistoryEntry(UserRole, message)
  {
    history + [HistoryEntry(UserRole, message)]
  }

  /** The model call the handler makes for a request body (`None`: the body
      was not JSON): none unless the message is truthy; otherwise the fixed
      model, token limit and system prompt with `Messages` of the body. */
  function ModelCallFor(body: Option<ChatBody>): (call: Option<ModelCall>)
    ensures call.Some? <==> body.Some? && Truthy(body.value.message)
    ensures call.Some? ==>
      call.value == ModelCall(ModelName, MaxTokens, SystemPrompt,
                              Messages(HistoryOrEmpty(body.value.history), body.value.message.value))
  {
    if body.Some? && Truthy(body.value.message) then
      Some(ModelCall(ModelName, MaxTokens, SystemPrompt,
                     Messages(HistoryOrEmpty(body.value.history), body.value.message.value)))
    else
      None
  }

  /** `response.content[0].type === "text" ? response.content[0].text : ""`;
      `None` when there is no first block, where reading its type throws. */
  function FirstBlockText(content: seq<ContentBlock>): (t: Option<string>)
    ensures t.None? <==> content == []
    ensures content != [] && content[0].TextBlock? ==> t == Some(content[0].text)
    ensures content != [] && !content[0].TextBlock? ==> t == Some("")
  {
    if content == [] then None
    else if content[0].TextBlock? then Some(content[0].text)
    else Some("")
  }

  /** The handler's response: 400 "Message is required" for a falsy
      message, 200 with the first block's text and the usage when the model
      answered with at least one block, and 500 "Failed to process chat"
      for everything thrown inside the `try` (a body that is not JSON, a
      failed model call, a reply without content). */
  function HandleChat(body: Option<ChatBody>, result: ModelResult): (r: Response)
    ensures r.status == 400 <==> body.Some? && !Truthy(body.value.message)
    ensures r.status == 400 ==> r.body == ErrorBody(MessageRequired)
    ensures r.body.ReplyBody? <==> r.status == 200
    ensures r.body.ReplyBody? <==>
      ModelCallFor(body).Some? && result.ModelReplied? && result.content != []
    ensures r.body.ReplyBody? ==>
      Some(r.body.reply) == FirstBlockText(result.content) && r.body.usage == result.usage
    ensures r.status != 200 && r.status != 400 ==> r == Json(500, ErrorBody(ChatFailure))
  {
    if body.None? then Json(500, ErrorBody(ChatFailure))
    else if !Truthy(body.value.message) then Json(400, ErrorBody(MessageRequired))
    else match result
      case ModelFailed => Json(500, ErrorBody(ChatFailure))
      case ModelReplied(content, usage) =>
        match FirstBlockText(content)
        case None => Json(500, ErrorBody(ChatFailure))
        case Some(text) => Json(200, ReplyBody(text, usage))
  }

  /** `GET /api/health`. */
  function Health(): (r: Response)
    ensures r.status == 200 && r.body == StatusBody("ok", "jessica-backend")
  {
    Json(200, StatusBody("ok", "jessica-backend"))
  }

  /** A falsy message is refused before the model is called, whatever the
      model would have said. */
  lemma NoCallWithoutMessage(body: ChatBody, r1: ModelResult, r2: ModelResult)
    requires !Truthy(body.message)
    ensures ModelCallFor(Some(body)).None?
    ensures HandleChat(Some(body), r1) == HandleChat(Some(body), r2) == Json(400, ErrorBody(MessageRequired))
  {
  }

  /** The request's `context` is neither read nor passed on. */
  lemma ContextIgnored(message: Option<string>, c1: Option<string>, c2: Option<string>,
                       history: Option<seq<HistoryEntry>>, result: ModelResult)
    ensures ModelCallFor(Some(ChatBody(message, c1, history))) == ModelCallFor(Some(ChatBody(message, c2, history)))
    ensures HandleChat(Some(ChatBody(message, c1, history)), result) == HandleChat(Some(ChatBody(message, c2, history)), result)
  {
  }

  /** A hypothetical pairing: neither client in this repository posts to
      this backend (the store posts to `/api/chat`, the site script to
      `/chat`). Were a client's request `{message, history}` sent here, the
      turns sent to the model would be the history that client computes
      after its optimistic append: the history of its log before the submit
      followed by the user message, as long as that message's id is not
      the seed's. */
  lemma {:induction false} MessagesMatchClientHistory(log: seq<Message>, id: string, text: string)
    requires id != SeedId
    ensures Messages(History(log), text) == History(log + [Message(id, User, text)])
  {
    var m := Message(id, User, text);
    assert (log + [m])[..|log|] == log;
    assert Kept(m) == [HistoryEntry(UserRole, text)];
  }
}

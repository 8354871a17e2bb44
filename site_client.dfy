/** The server-rendered page's script: a module-level `state` object
    (messages, the sending flag, the context mode), the text box's value,
    and the `aria-selected` flag of each context button, all updated in
    place. As in the store, the await inside `sendMessage` splits it into
    `BeginSend` and `CompleteSend`. Unlike the store, a submit while a
    request is in flight is refused. */
module SiteClient {
  import opened Js
  import opened Chat

  const Welcome: string :=
    "Hey brother, I'm Jessica. I'm connected to Zo Computer now \U{2013} I remember our context and can help you one step at a time."

  /** The page's context buttons, in document order. */
  const PageButtons: seq<ContextMode> := [Personal, Business, Creative]

  /** What `updateSendState` writes into the page's controls. */
  datatype Controls = Controls(sendDisabled: bool, inputDisabled: bool, sendLabel: string)

  /** `updateSendState`: the send button is disabled when the trimmed text
      is empty or a request is in flight, the text box while a request is in
      flight, and the button reads "…" while one is. */
  function SendControls(inputValue: string, isSending: bool): (c: Controls)
    ensures c.sendDisabled <==> Blank(inputValue) || isSending
    ensures c.inputDisabled <==> isSending
    ensures c.sendLabel == if isSending then "\U{2026}" else "Send"
  {
    Controls(Trim(inputValue) == "" || isSending, isSending, if isSending then "\U{2026}" else "Send")
  }

  /** The catch block reads `error.message`, which is `undefined` for a
      thrown value that is not an `Error`; the concatenation turns it into
      "undefined". */
  const UnknownError: string := "undefined"

  /** The `aria-selected` flags after choosing `mode`: a button is selected
      exactly when its `data-context` is `mode`. */
  function Selection(buttons: seq<ContextMode>, mode: ContextMode): (flags: seq<bool>)
    ensures |flags| == |buttons|
    ensures forall j :: 0 <= j < |flags| ==> (flags[j] <==> buttons[j] == mode)
  {
    seq(|buttons|, j requires 0 <= j < |buttons| => buttons[j] == mode)
  }

  /** When the buttons name distinct modes, choosing the mode of button `k`
      selects button `k` and no other. */
  lemma {:induction false} ExactlyOneSelected(buttons: seq<ContextMode>, k: nat)
    requires k < |buttons|
    requires forall i, j :: 0 <= i < j < |buttons| ==> buttons[i] != buttons[j]
    ensures forall j :: 0 <= j < |buttons| ==> (Selection(buttons, buttons[k])[j] <==> j == k)
  {
    forall j | 0 <= j < |buttons|
      ensures Selection(buttons, buttons[k])[j] <==> j == k
    {
      if j < k {
        assert buttons[j] != buttons[k];
      } else if k < j {
        assert buttons[k] != buttons[j];
      }
    }
  }

  class Client {
    var messages: seq<Message>
    var isSending: bool
    var contextMode: ContextMode
    /** The text box's current value. */
    var inputValue: string
    /** The `data-context` of each context button. */
    const buttons: seq<ContextMode>
    /** The `aria-selected` of each context button. */
    const selected: array<bool>

    ghost predicate Valid()
      reads this
    {
      selected.Length == |buttons|
    }

    /** The page as loaded: the welcome message alone, not sending, the
        personal context selected, an empty text box. */
    constructor(buttons: seq<ContextMode>)
      ensures Valid() && fresh(selected)
      ensures this.buttons == buttons && selected[..] == Selection(buttons, Personal)
      ensures messages == [Seed(Welcome)] && !isSending && contextMode == Personal && inputValue == ""
    {
      this.buttons := buttons;
      selected := new bool[|buttons|](j requires 0 <= j < |buttons| => buttons[j] == Personal);
      messages := [Seed(Welcome)];
      isSending := false;
      contextMode := Personal;
      inputValue := "";
    }

    /** Typing into the text box. */
    method Type(value: string)
      modifies this
      ensures inputValue == value
      ensures messages == old(messages) && isSending == old(isSending) && contextMode == old(contextMode)
    {
      inputValue := value;
    }

    /** `appendMessage`, state part: pushes exactly one message at the end;
        the earlier messages are unchanged. */
    method AppendMessage(sender: Sender, content: string, id: string)
      modifies this
      ensures messages == old(messages) + [Message(id, sender, content)]
      ensures isSending == old(isSending) && contextMode == old(contextMode) && inputValue == old(inputValue)
    {
      messages := messages + [Message(id, sender, content)];
    }

    /** The inner `forEach` of the click handler: marks each button selected
        exactly when its mode is `mode`. */
    method Select(mode: ContextMode)
      requires Valid()
      modifies selected
      ensures selected[..] == Selection(buttons, mode)
    {
      var i := 0;
      while i < selected.Length
        invariant 0 <= i <= selected.Length
        invariant forall j :: 0 <= j < i ==> selected[j] == (buttons[j] == mode)
      {
        selected[i] := buttons[i] == mode;
        i := i + 1;
      }
    }

    /** A click on context button `k`: the context mode becomes that
        button's mode and the selection follows it; nothing else changes. */
    method ClickContext(k: nat)
      requires Valid() && k < |buttons|
      modifies this, selected
      ensures Valid()
      ensures contextMode == buttons[k]
      ensures selected[..] == Selection(buttons, buttons[k])
      ensures messages == old(messages) && isSending == old(isSending) && inputValue == old(inputValue)
    {
      var mode := buttons[k];
      contextMode := mode;
      Select(mode);
    }

    /** `sendMessage` up to its await. It is refused, changing nothing,
        exactly when the send button is disabled: blank text or a request in
        flight. Otherwise the history of the messages as they were is taken
        first, sending starts, the text box is cleared, and one `user`
        message with the trimmed text is appended; the request carries that
        text, the context mode and the history. */
    method BeginSend(userId: string) returns (request: Option<ChatRequest>)
      modifies this
      ensures request.None? <==> SendControls(old(inputValue), old(isSending)).sendDisabled
      ensures request.None? ==>
        messages == old(messages) && isSending == old(isSending) &&
        contextMode == old(contextMode) && inputValue == old(inputValue)
      ensures request.Some? ==>
        request.value == ChatRequest(Trim(old(inputValue)), old(contextMode), History(old(messages))) &&
        messages == old(messages) + [Message(userId, User, Trim(old(inputValue)))] &&
        isSending && inputValue == "" && contextMode == old(contextMode)
    {
      var text := Trim(inputValue);
      if text == "" || isSending {
        return None;
      }
      var history := History(messages);
      isSending := true;
      inputValue := "";
      AppendMessage(User, text, userId);
      request := Some(ChatRequest(text, contextMode, history));
    }

    /** `sendMessage` after its await: exactly one `jessica` message, the
        reply or the apology, is appended, and the `finally` block ends
        sending whatever the outcome. */
    method CompleteSend(outcome: Outcome, replyId: string)
      modifies this
      ensures messages == old(messages) + [Message(replyId, Jessica, ReplyContent(outcome, UnknownError))]
      ensures !isSending
      ensures contextMode == old(contextMode) && inputValue == old(inputValue)
    {
      if outcome.Replied? {
        AppendMessage(Jessica, outcome.reply, replyId);
      } else {
        AppendMessage(Jessica, Apology(ErrorMessage(outcome, UnknownError)), replyId);
      }
      isSending := false;
    }
  }

  /** A submit while a request is in flight is refused: after the first
      half of one send, new non-blank text `t` is typed, yet no second
      request goes out and the log only holds the first user message. */
  method SecondSubmitRefused(client: Client, t: string, firstId: string, secondId: string)
    returns (first: Option<ChatRequest>, second: Option<ChatRequest>)
    requires !Blank(client.inputValue) && !client.isSending && !Blank(t)
    modifies client
    ensures first.Some? && second.None?
    ensures client.messages == old(client.messages) + [Message(firstId, User, Trim(old(client.inputValue)))]
    ensures client.isSending && client.inputValue == t
  {
    first := client.BeginSend(firstId);
    client.Type(t);
    second := client.BeginSend(secondId);
  }

  /** A whole submit from the idle state: the log gains exactly the user
      message and then exactly one `jessica` message, and sending is over. */
  method Submit(client: Client, userId: string, outcome: Outcome, replyId: string)
    returns (request: Option<ChatRequest>)
    requires !Blank(client.inputValue) && !client.isSending
    modifies client
    ensures request.Some?
    ensures client.messages == old(client.messages) +
      [Message(userId, User, Trim(old(client.inputValue))), Message(replyId, Jessica, ReplyContent(outcome, UnknownError))]
    ensures !client.isSending && client.inputValue == ""
  {
    request := client.BeginSend(userId);
    client.CompleteSend(outcome, replyId);
  }

  /** On the page as rendered, a click on a context button leaves that
      button selected and the other two not. */
  method ClickOnPage(k: nat) returns (mode: ContextMode, flags: seq<bool>)
    requires k < |PageButtons|
    ensures mode == PageButtons[k]
    ensures |flags| == |PageButtons|
    ensures forall j :: 0 <= j < |flags| ==> (flags[j] <==> j == k)
  {
    var client := new Client(PageButtons);
    client.ClickContext(k);
    mode, flags := client.contextMode, client.selected[..];
    ExactlyOneSelected(PageButtons, k);
  }
}

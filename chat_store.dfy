/** The single-page application's chat store: one object whose fields the
    setters and the two halves of `sendMessage` update. The await inside
    `sendMessage` splits it into `BeginSend`, which returns the request it
    posts, and `CompleteSend`, which takes what the request came back with;
    any other method may run between the two. */
module ChatStore {
  import opened Js
  import opened Chat

  const Welcome: string :=
    "Hey brother, I'm Jessica. I'm connected to Zo Computer now - I remember our context and can help you one step at a time."

  /** The error message the store records for a thrown value that is not
      an `Error`. */
  const UnknownError: string := "Something went wrong"

  class Store {
    var messages: seq<Message>
    var input: string
    var isSending: bool
    var error: Option<string>
    var contextMode: ContextMode

    /** The initial state: the welcome message alone, an empty input, not
        sending, no error, the personal context. */
    constructor()
      ensures messages == [Seed(Welcome)]
      ensures input == "" && !isSending && error == None && contextMode == Personal
    {
      messages := [Seed(Welcome)];
      input := "";
      isSending := false;
      error := None;
      contextMode := Personal;
    }

    method SetInput(value: string)
      modifies this
      ensures input == value
      ensures messages == old(messages) && isSending == old(isSending)
      ensures error == old(error) && contextMode == old(contextMode)
    {
      input := value;
    }

    method SetContextMode(mode: ContextMode)
      modifies this
      ensures contextMode == mode
      ensures messages == old(messages) && input == old(input)
      ensures isSending == old(isSending) && error == old(error)
    {
      contextMode := mode;
    }

    method ClearError()
      modifies this
      ensures error == None
      ensures messages == old(messages) && input == old(input)
      ensures isSending == old(isSending) && contextMode == old(contextMode)
    {
      error := None;
    }

    /** `sendMessage` up to its await. A blank input changes nothing and
        posts nothing. Otherwise one `user` message with the trimmed input is
        appended, the input is cleared, sending starts, the error is cleared,
        and the request carries the trimmed input, the context read now and
        the history of the messages as they were before the append. There
        is no guard on `isSending`: a second submit while one is in flight
        is accepted. */
    method BeginSend(userId: string) returns (request: Option<ChatRequest>)
      modifies this
      ensures request.None? <==> Blank(old(input))
      ensures request.None? ==>
        messages == old(messages) && input == old(input) && isSending == old(isSending) &&
        error == old(error) && contextMode == old(contextMode)
      ensures request.Some? ==>
        request.value == ChatRequest(Trim(old(input)), old(contextMode), History(old(messages))) &&
        messages == old(messages) + [Message(userId, User, Trim(old(input)))] &&
        input == "" && isSending && error == None && contextMode == old(contextMode)
    {
      var trimmed := Trim(input);
      if trimmed == "" {
        return None;
      }
      var before, context := messages, contextMode;
      messages, input, isSending, error := messages + [Message(userId, User, trimmed)], "", true, None;
      request := Some(ChatRequest(trimmed, context, History(before)));
    }

    /** `sendMessage` after its await. Success appends one `jessica`
        message with the reply. Failure first records the error message
        and stops sending, then appends one `jessica` apology wrapping that
        message. Either way exactly one message is appended to the messages
        as they are now, and sending is over. */
    method CompleteSend(outcome: Outcome, replyId: string)
      modifies this
      ensures messages == old(messages) + [Message(replyId, Jessica, ReplyContent(outcome, UnknownError))]
      ensures !isSending
      ensures error == if outcome.Replied? then old(error) else Some(ErrorMessage(outcome, UnknownError))
      ensures input == old(input) && contextMode == old(contextMode)
    {
      if outcome.Replied? {
        messages, isSending := messages + [Message(replyId, Jessica, outcome.reply)], false;
      } else {
        var errorMessage := ErrorMessage(outcome, UnknownError);
        error, isSending := Some(errorMessage), false;
        messages := messages + [Message(replyId, Jessica, Apology(errorMessage))];
      }
    }
  }

  /** A whole submit of a non-blank input: the log gains exactly the user
      message and then exactly one `jessica` message, and sending is over. */
  method Submit(store: Store, userId: string, outcome: Outcome, replyId: string)
    returns (request: Option<ChatRequest>)
    requires !Blank(store.input)
    modifies store
    ensures request.Some?
    ensures store.messages == old(store.messages) +
      [Message(userId, User, Trim(old(store.input))), Message(replyId, Jessica, ReplyContent(outcome, UnknownError))]
    ensures !store.isSending && store.input == ""
  {
    request := store.BeginSend(userId);
    store.CompleteSend(outcome, replyId);
  }

  /** The end-to-end exchange: "Hello" in the personal context with only the
      welcome message posts an empty history, and the reply "Hi there"
      leaves the log welcome, user "Hello", jessica "Hi there". */
  method HelloExchange() returns (request: Option<ChatRequest>, log: seq<Message>)
    ensures request == Some(ChatRequest("Hello", Personal, []))
    ensures log == [Seed(Welcome), Message("100", User, "Hello"), Message("101", Jessica, "Hi there")]
  {
    var store := new Store();
    store.SetInput("Hello");
    TrimOfTrimmed("Hello");
    assert [Seed(Welcome)][..0] == [];
    assert History([Seed(Welcome)]) == [];
    request := store.BeginSend("100");
    store.CompleteSend(Replied("Hi there"), "101");
    log := store.messages;
  }

  /** The store accepts a second submit while the first is still awaited:
      its in-flight guard lives only in the page's `disabled` props. Both
      requests go out, and the second one's history already holds the first
      one's user message, whose reply has not arrived. */
  method OverlappingSends() returns (first: Option<ChatRequest>, second: Option<ChatRequest>)
    ensures first.Some? && second.Some?
    ensures second.value.history == [HistoryEntry(UserRole, "one")]
  {
    var store := new Store();
    store.SetInput("one");
    TrimOfTrimmed("one");
    TrimOfTrimmed("two");
    first := store.BeginSend("100");
    assert store.isSending;
    store.SetInput("two");
    second := store.BeginSend("200");
    assert [Seed(Welcome)][..0] == [];
    assert [Seed(Welcome), Message("100", User, "one")][..1] == [Seed(Welcome)];
  }
}

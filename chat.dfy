/** The conversation vocabulary both chat clients share: messages, the
    history projection sent upstream, the outbound request, the outcomes of
    the one awaited request, and the texts built from a failed outcome. */
module Chat {
  import opened Js

  datatype Sender = User | Jessica

  datatype ContextMode = Personal | Business | Creative

  /** A chat message. The creation timestamp the store also keeps is left
      out; the id is an opaque token supplied by the caller. */
  datatype Message = Message(id: string, sender: Sender, content: string)

  datatype Role = UserRole | AssistantRole

  /** One entry of the history sent upstream: `{role, content}`. */
  datatype HistoryEntry = HistoryEntry(role: Role, content: string)

  /** The body of the client's POST: `{message, context, history}`. */
  datatype ChatRequest = ChatRequest(message: string, context: ContextMode, history: seq<HistoryEntry>)

  /** What the awaited request came back with:
      - `Replied`: an ok response whose JSON body carried `reply`;
      - `Rejected`: a non-ok response with its status and the `error` field of
        its body (`None` when the body had none or was not JSON);
      - `Threw`: fetch or JSON parsing threw; `Some(m)` is an `Error` with
        message `m`, `None` a thrown value that is not an `Error`. */
  datatype Outcome =
    | Replied(reply: string)
    | Rejected(status: nat, error: Option<string>)
    | Threw(message: Option<string>)

  /** The id of the seeded welcome message. */
  const SeedId: string := "1"

  /** The seeded welcome message, given its text. */
  function Seed(welcome: string): (m: Message)
    ensures m.id == SeedId && m.sender == Jessica && m.content == welcome
  {
    Message(SeedId, Jessica, welcome)
  }

  /** The wire name of a context mode. */
  function ContextName(c: ContextMode): string {
    match c
    case Personal => "personal"
    case Business => "business"
    case Creative => "creative"
  }

  /** A message as a history entry: a `user` sender keeps the `user` role,
      every other sender becomes `assistant`. */
  function Entry(m: Message): (e: HistoryEntry)
    ensures e.role == UserRole <==> m.sender == User
    ensures e.content == m.content
  {
    HistoryEntry(if m.sender == User then UserRole else AssistantRole, m.content)
  }

  /** `messages.filter(m => m.id !== "1").map(...)`, one message at a time. */
  function Kept(m: Message): seq<HistoryEntry> {
    if m.id == SeedId then [] else [Entry(m)]
  }

  /** The history sent upstream for the messages `msgs`: never longer than
      the log, and every entry is the entry of some message of the log other
      than the seeded one. */
  function History(msgs: seq<Message>): (h: seq<HistoryEntry>)
    ensures |h| <= |msgs|
    ensures forall e :: e in h ==> exists m :: m in msgs && m.id != SeedId && e == Entry(m)
  {
    if msgs == [] then [] else History(msgs[..|msgs| - 1]) + Kept(msgs[|msgs| - 1])
  }

  /** The projection distributes over concatenation: the history of a log is
      the history of its first part followed by that of the rest. */
  lemma {:induction false} HistoryAppend(a: seq<Message>, b: seq<Message>)
    ensures History(a + b) == History(a) + History(b)
    decreases |b|
  {
    if b == [] {
      assert a + b == a;
    } else {
      var b' := b[..|b| - 1];
      assert (a + b)[..|a + b| - 1] == a + b';
      HistoryAppend(a, b');
    }
  }

  /** The seeded message contributes nothing, wherever it stands. */
  lemma {:induction false} HistorySkipsSeed(a: seq<Message>, m: Message, b: seq<Message>)
    requires m.id == SeedId
    ensures History(a + [m] + b) == History(a + b)
  {
    assert [m][..0] == [];
    assert History([m]) == [];
    HistoryAppend(a, [m]);
    HistoryAppend(a + [m], b);
    HistoryAppend(a, b);
    assert History(a + [m]) == History(a);
  }

  /** Every other message is kept, in order, with its role mapped and its
      content unchanged. */
  lemma {:induction false} HistoryKeepsOthers(msgs: seq<Message>)
    requires forall i :: 0 <= i < |msgs| ==> msgs[i].id != SeedId
    ensures |History(msgs)| == |msgs|
    ensures forall i :: 0 <= i < |msgs| ==> History(msgs)[i] == Entry(msgs[i])
  {
    if msgs != [] {
      HistoryKeepsOthers(msgs[..|msgs| - 1]);
    }
  }

  const ApologyPrefix: string := "Sorry brother, I ran into an issue: "
  const ApologySuffix: string := ". Check your connection and try again."

  /** The chat message that wraps an error message: the fixed prefix, then
      exactly the message, then the fixed suffix, so cutting the prefix and
      suffix off gives the message back. */
  function Apology(msg: string): (a: string)
    ensures |a| == |ApologyPrefix| + |msg| + |ApologySuffix|
    ensures a[..|ApologyPrefix|] == ApologyPrefix && a[|a| - |ApologySuffix|..] == ApologySuffix
    ensures a[|ApologyPrefix|..|a| - |ApologySuffix|] == msg
  {
    ApologyPrefix + msg + ApologySuffix
  }

  /** Different error messages give different apologies. */
  lemma {:induction false} ApologyInjective(m1: string, m2: string)
    requires Apology(m1) == Apology(m2)
    ensures m1 == m2
  {
    var a := Apology(m1);
    assert a[|ApologyPrefix|..|a| - |ApologySuffix|] == m1;
  }

  const StatusPrefix: string := "Request failed with status "

  /** `errorData.error || \`Request failed with status ${status}\``: the
      server's error when it is present and not empty, otherwise the fixed
      prefix followed by the status in decimal. */
  function FailureText(status: nat, error: Option<string>): (t: string)
    ensures t != ""
    ensures Truthy(error) ==> t == error.value
    ensures !Truthy(error) ==>
      |t| > |StatusPrefix| && t[..|StatusPrefix|] == StatusPrefix && t[|StatusPrefix|..] == NatToString(status)
  {
    if Truthy(error) then error.value else StatusPrefix + NatToString(status)
  }

  /** A non-ok response whose body names no error gives a text from which
      its status can be read back. */
  lemma {:induction false} FailureTextNamesStatus(s1: nat, s2: nat)
    requires FailureText(s1, None) == FailureText(s2, None)
    ensures s1 == s2
  {
    var t1, t2 := FailureText(s1, None), FailureText(s2, None);
    assert t1[|StatusPrefix|..] == NatToString(s1);
    assert t2[|StatusPrefix|..] == NatToString(s2);
    NatToStringInjective(s1, s2);
  }

  /** The message the catch block records for a failed send: a non-ok
      response is rethrown as an `Error` carrying `FailureText`, a thrown
      `Error` gives its own message, and any other thrown value gives
      `unknown`, which each client fixes for itself. */
  function ErrorMessage(o: Outcome, unknown: string): (m: string)
    requires !o.Replied?
    ensures o.Rejected? ==> m == FailureText(o.status, o.error)
    ensures o.Threw? && o.message.Some? ==> m == o.message.value
    ensures o == Threw(None) ==> m == unknown
  {
    match o
    case Rejected(status, error) => FailureText(status, error)
    case Threw(message) => if message.Some? then message.value else unknown
  }

  /** The content of the one `jessica` message a completed send appends:
      the reply as it came, or an apology whose middle is exactly the
      recorded error message. */
  function ReplyContent(o: Outcome, unknown: string): (c: string)
    ensures o.Replied? ==> c == o.reply
    ensures !o.Replied? ==>
      var m := ErrorMessage(o, unknown);
      |c| == |ApologyPrefix| + |m| + |ApologySuffix| &&
      c[..|ApologyPrefix|] == ApologyPrefix && c[|c| - |ApologySuffix|..] == ApologySuffix &&
      c[|ApologyPrefix|..|c| - |ApologySuffix|] == m
  {
    if o.Replied? then o.reply else Apology(ErrorMessage(o, unknown))
  }
}

/**
 * The floating chat widget (ai-chatbot-services/src/components/Chatbot.tsx):
 * a message list seeded with a greeting, the open/closed flag, the typing
 * indicator and the input field.
 *
 * `handleSendMessage` is split into its two halves, because the reply arrives
 * asynchronously and other events (a refresh, closing, more typing) can
 * happen in between: `Submit` runs up to the remote call and returns the
 * transcript it sends; `Complete` is the continuation that appends the reply
 * to whatever list is current. `SendMessage` is the handler with nothing in
 * between. The remote call itself (`sendMessageToGroq`) is the `reply`
 * parameter: `Some(text)` for a resolved promise, `None` for a rejected one.
 * `Date.now()` and `new Date()` are the `now` parameter; a message id is the
 * number whose decimal string the source uses.
 */
module ChatWidget {
  import opened Wrappers
  import opened Text
  import opened Messages

  datatype Sender = UserSender | BotSender

  datatype Message = Message(id: nat, text: string, sender: Sender, timestamp: int)

  const GreetingText := "Hello! How can I help you today?"
  // Long texts are short pieces joined with `+`, which the solver handles
  // far faster than one long literal; the string is the same.
  const ErrorText :=
    "Sorry, I encountered an error. " + "Please try again."

  /** The seed record: id '1', the greeting, sent by the bot. */
  function Greeting(now: int): Message {
    Message(1, GreetingText, BotSender, now)
  }

  /** `user` stays `user`, `bot` becomes `assistant`. */
  function RoleOf(s: Sender): (r: Role)
    ensures r == User <==> s == UserSender
    ensures r == Assistant <==> s == BotSender
  {
    match s
    case UserSender => User
    case BotSender => Assistant
  }

  /** `messages.map(...)`: each record as a `{role, content}` entry. */
  function Project(messages: seq<Message>): seq<ChatMessage> {
    if messages == [] then []
    else [ChatMessage(RoleOf(messages[0].sender), messages[0].text)] + Project(messages[1..])
  }

  lemma {:induction false} ProjectAt(messages: seq<Message>)
    ensures |Project(messages)| == |messages|
    ensures forall i :: 0 <= i < |messages| ==>
      Project(messages)[i] == ChatMessage(RoleOf(messages[i].sender), messages[i].text)
  {
    if messages != [] {
      ProjectAt(messages[1..]);
      forall i | 1 <= i < |messages|
        ensures Project(messages)[i] == ChatMessage(RoleOf(messages[i].sender), messages[i].text)
      {
        assert messages[1..][i - 1] == messages[i];
      }
    }
  }

  /** The transcript sent on submit: the pre-submit list projected, then the new user entry. */
  function Transcript(messages: seq<Message>, input: string): (t: seq<ChatMessage>)
    ensures |t| == |messages| + 1
    ensures forall i :: 0 <= i < |messages| ==>
      t[i].content == messages[i].text
      && (t[i].role == User <==> messages[i].sender == UserSender)
      && (t[i].role == Assistant <==> messages[i].sender == BotSender)
    ensures t[|messages|] == ChatMessage(User, input)
  {
    ProjectAt(messages);
    Project(messages) + [ChatMessage(User, input)]
  }

  /** The example round: a user "Hi", the bot's "Hello!", then "price?". */
  lemma TranscriptExample(now: int)
    ensures Transcript([Message(1, "Hi", UserSender, now), Message(2, "Hello!", BotSender, now)], "price?")
         == [ChatMessage(User, "Hi"), ChatMessage(Assistant, "Hello!"), ChatMessage(User, "price?")]
  {
  }

  /** The text the completion appends: the reply, or the fixed apology if the call failed. */
  function ReplyText(reply: Option<string>): (r: string)
    ensures reply.Some? ==> r == reply.value
    ensures reply.None? ==> r == ErrorText
  {
    reply.GetOr(ErrorText)
  }

  /** The send button is enabled (and a submit goes ahead) iff the trimmed input is non-empty. */
  function SendEnabled(input: string): (b: bool)
    ensures b <==> Trim(input) != ""
    ensures b <==> !IsBlank(input)
  {
    TrimEmptyIffBlank(input);
    Trim(input) != ""
  }

  class Widget {
    var isOpen: bool
    var messages: seq<Message>
    var inputMessage: string
    var isTyping: bool
    /** Replies submitted and not yet completed (each submit's promise is still pending). */
    ghost var pendingReplies: nat

    /** The component mounts closed, idle, with an empty input and only the greeting. */
    constructor (now: int)
      ensures !isOpen && !isTyping && inputMessage == ""
      ensures messages == [Greeting(now)]
      ensures pendingReplies == 0
    {
      isOpen := false;
      messages := [Greeting(now)];
      inputMessage := "";
      isTyping := false;
      pendingReplies := 0;
    }

    /** The floating button, shown only while the window is closed. */
    method Open()
      requires !isOpen
      modifies this
      ensures isOpen
      ensures messages == old(messages) && inputMessage == old(inputMessage) && isTyping == old(isTyping)
      ensures pendingReplies == old(pendingReplies)
    {
      isOpen := true;
    }

    /** The close button of the open window; the conversation is kept. */
    method Close()
      requires isOpen
      modifies this
      ensures !isOpen
      ensures messages == old(messages) && inputMessage == old(inputMessage) && isTyping == old(isTyping)
      ensures pendingReplies == old(pendingReplies)
    {
      isOpen := false;
    }

    /** The input's `onChange`; the input exists only in the open window. */
    method Type(value: string)
      requires isOpen
      modifies this
      ensures inputMessage == value
      ensures isOpen == old(isOpen) && messages == old(messages) && isTyping == old(isTyping)
      ensures pendingReplies == old(pendingReplies)
    {
      inputMessage := value;
    }

    /** `handleRefreshChat`, a button of the open window: back to the single greeting, not typing, empty input. */
    method Refresh(now: int)
      requires isOpen
      modifies this
      ensures messages == [Greeting(now)] && !isTyping && inputMessage == ""
      ensures isOpen == old(isOpen)
      ensures pendingReplies == old(pendingReplies)
    {
      messages := [Greeting(now)];
      isTyping := false;
      inputMessage := "";
    }

    /**
     * The first half of `handleSendMessage`. Blank input changes nothing and
     * sends nothing. Otherwise one user record holding the input as typed
     * (untrimmed) is appended, the input is cleared, typing is set, and the
     * transcript of the pre-submit list plus the input is sent. Nothing stops
     * a submit while a reply is still awaited.
     */
    method Submit(now: nat) returns (sent: Option<seq<ChatMessage>>)
      requires isOpen
      modifies this
      ensures isOpen == old(isOpen)
      ensures !SendEnabled(old(inputMessage)) ==>
        sent.None? && messages == old(messages) && inputMessage == old(inputMessage) && isTyping == old(isTyping)
        && pendingReplies == old(pendingReplies)
      ensures SendEnabled(old(inputMessage)) ==>
        && sent == Some(Transcript(old(messages), old(inputMessage)))
        && messages == old(messages) + [Message(now, old(inputMessage), UserSender, now)]
        && inputMessage == ""
        && isTyping
        && pendingReplies == old(pendingReplies) + 1
    {
      if !SendEnabled(inputMessage) {
        return None;
      }
      var userMessage := Message(now, inputMessage, UserSender, now);
      var history := messages;
      messages := messages + [userMessage];
      var input := inputMessage;
      inputMessage := "";
      isTyping := true;
      pendingReplies := pendingReplies + 1;
      var conversation: seq<ChatMessage> := [];
      var i := 0;
      while i < |history|
        invariant 0 <= i <= |history|
        invariant |conversation| == i
        invariant forall j :: 0 <= j < i ==>
          conversation[j] == ChatMessage(RoleOf(history[j].sender), history[j].text)
      {
        conversation := conversation + [ChatMessage(if history[i].sender == UserSender then User else Assistant, history[i].text)];
        i := i + 1;
      }
      conversation := conversation + [ChatMessage(User, input)];
      ProjectAt(history);
      assert conversation == Transcript(history, input);
      sent := Some(conversation);
    }

    /**
     * The continuation of `handleSendMessage`: exactly one bot record is
     * appended to the current list (whatever happened since the submit), and
     * typing stops.
     */
    method Complete(reply: Option<string>, now: nat)
      requires pendingReplies > 0
      modifies this
      ensures messages == old(messages) + [Message(now + 1, ReplyText(reply), BotSender, now)]
      ensures !isTyping
      ensures isOpen == old(isOpen) && inputMessage == old(inputMessage)
      ensures pendingReplies == old(pendingReplies) - 1
    {
      var botMessage := Message(now + 1, ReplyText(reply), BotSender, now);
      messages := messages + [botMessage];
      isTyping := false;
      pendingReplies := pendingReplies - 1;
    }

    /**
     * `handleSendMessage` with no other event in between: a round adds
     * exactly two records, the user's and one bot reply, or nothing at all.
     */
    method SendMessage(now: nat, remote: seq<ChatMessage> -> Option<string>)
      requires isOpen
      modifies this
      ensures !SendEnabled(old(inputMessage)) ==>
        messages == old(messages) && inputMessage == old(inputMessage) && isTyping == old(isTyping)
      ensures SendEnabled(old(inputMessage)) ==>
        && messages == old(messages)
             + [Message(now, old(inputMessage), UserSender, now),
                Message(now + 1, ReplyText(remote(Transcript(old(messages), old(inputMessage)))), BotSender, now)]
        && |messages| == |old(messages)| + 2
        && inputMessage == ""
        && !isTyping
      ensures isOpen == old(isOpen) && pendingReplies == old(pendingReplies)
    {
      var sent := Submit(now);
      if sent.Some? {
        Complete(remote(sent.value), now);
      }
    }
  }

  /**
   * A refresh while a reply is awaited does not cancel it: the late reply
   * lands in the fresh conversation, right after the greeting.
   */
  method StaleReplyAfterRefresh(now: nat, reply: Option<string>)
    returns (sent: Option<seq<ChatMessage>>, final: seq<Message>)
    ensures sent == Some(Transcript([Greeting(now)], "hello"))
    ensures final == [Greeting(now), Message(now + 1, ReplyText(reply), BotSender, now)]
  {
    var w := new Widget(now);
    w.Open();
    w.Type("hello");
    sent := w.Submit(now);
    assert sent.Some? by {
      assert Trim("hello") == "hello";
    }
    w.Refresh(now);
    w.Complete(reply, now);
    final := w.messages;
  }
}

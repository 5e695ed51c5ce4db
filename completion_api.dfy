/**
 * The front end's completion client (ai-chatbot-services/src/services/openaiApi.ts):
 * the canned demo-response table and `sendMessageToOpenAI`, which prepends a
 * system entry, posts the list, takes the first choice's text and falls back
 * to the table on any error. The HTTP call is a total function parameter
 * (`transport`), so "never throws" is the totality of `SendMessageToOpenAI`.
 */
module CompletionApi {
  import opened Wrappers
  import opened Text
  import opened Messages

  // The eight canned replies, in the order of the if/else chain. Each long
  // text is written as short pieces joined with `+` (the same string): the
  // solver reasons about a long literal far more slowly than about its pieces.
  const GreetingReply :=
    "Hello! Welcome to Chatterify AI " + "Services. We specialize in "
    + "creating intelligent chatbots " + "for businesses. How can I help " + "you today?"
  const PricingReply :=
    "Our pricing starts at $99/month " + "for basic chatbot services. We "
    + "also offer custom enterprise " + "solutions tailored to your " + "needs. Would you like to "
    + "schedule a consultation to " + "discuss your requirements?"
  const FeaturesReply :=
    "Our chatbots include: 24/7 " + "availability, multi-language " + "support, custom training on "
    + "your data, analytics dashboard, " + "seamless integration with your "
    + "existing systems, and natural " + "language understanding. Which "
    + "feature interests you most?"
  const ContactReply :=
    "You can reach us through the " + "Contact page on our website, or " + "email us directly at "
    + "support@chatterify.in. We " + "typically respond within 24 " + "hours!"
  const ProcessReply :=
    "Our process is simple: 1) We " + "analyze your business needs, 2) "
    + "Design a custom chatbot " + "solution, 3) Train it on your "
    + "specific data, 4) Deploy and " + "integrate with your platforms. "
    + "The whole process typically " + "takes 2-4 weeks."
  const DemoReply :=
    "You're chatting with a demo of " + "our AI right now! For a full " + "demo customized to your "
    + "business, please visit our " + "Contact page to schedule a " + "personalized walkthrough."
  const ThanksReply :=
    "You're welcome! Is there " + "anything else I can help you " + "with today?"
  const DefaultReply :=
    "Thank you for your interest in " + "Chatterify! We offer custom AI " + "chatbot solutions for "
    + "businesses of all sizes. Feel " + "free to ask about our features, "
    + "pricing, or how we can help " + "automate your customer " + "interactions."

  const DemoReplies: set<string> := {GreetingReply, PricingReply, FeaturesReply, ContactReply, ProcessReply, DemoReply, ThanksReply, DefaultReply}

  /** Fixed text returned when the first choice carries no content. */
  const NoContentReply :=
    "I apologize, but I couldn't " + "process your request at the " + "moment."

  const SystemPrompt :=
    "You are a helpful AI assistant " + "for Chatterify, a company that "
    + "provides AI chatbot services. " + "Be friendly, professional, and "
    + "informative about AI chatbot " + "solutions, features, pricing, "
    + "and implementation. Keep " + "responses concise and engaging."
  const ApiModel := "gpt-3.5-turbo"
  const ApiTemperature: real := 0.7
  const ApiMaxTokens := 1024

  /**
   * The lower-cased content of the last message, or "" for an empty list
   * (`messages[messages.length - 1]?.content.toLowerCase() || ''`).
   */
  function LastLower(messages: seq<ChatMessage>): (r: string)
    ensures messages == [] ==> r == ""
    ensures messages != [] ==> r == Lower(messages[|messages| - 1].content)
  {
    if messages == [] then "" else OrElse(Lower(messages[|messages| - 1].content), "")
  }

  /** Which canned reply the demo table picks. */
  datatype DemoKind = Greeting | Pricing | Features | Contact | Process | Demo | Thanks | Generic

  /** The canned text each branch of `getDemoResponse` returns. */
  function ReplyText(k: DemoKind): (r: string)
    ensures r in DemoReplies
  {
    match k
    case Greeting => GreetingReply
    case Pricing => PricingReply
    case Features => FeaturesReply
    case Contact => ContactReply
    case Process => ProcessReply
    case Demo => DemoReply
    case Thanks => ThanksReply
    case Generic => DefaultReply
  }

  /** The if/else chain of `getDemoResponse` over the lower-cased text. */
  function ClassifyDemo(last: string): DemoKind {
    if Contains(last, "hello") || Contains(last, "hi") || Contains(last, "hey") then Greeting
    else if Contains(last, "price") || Contains(last, "cost") || Contains(last, "pricing") then Pricing
    else if Contains(last, "feature") || Contains(last, "what can") || Contains(last, "capabilities") then Features
    else if Contains(last, "contact") || Contains(last, "reach") || Contains(last, "talk") then Contact
    else if Contains(last, "how") && Contains(last, "work") then Process
    else if Contains(last, "demo") || Contains(last, "try") || Contains(last, "test") then Demo
    else if Contains(last, "thank") then Thanks
    else Generic
  }

  /** `getDemoResponse`: one of the eight canned replies. */
  function GetDemoResponse(messages: seq<ChatMessage>): (r: string)
    ensures r in DemoReplies
  {
    ReplyText(ClassifyDemo(LastLower(messages)))
  }

  // An independent, table-driven statement of the same classifier: an ordered
  // list of trigger rules, the first rule that fires wins.

  datatype Trigger = AnyOf(words: seq<string>) | AllOf(words: seq<string>)

  datatype Rule = Rule(trigger: Trigger, kind: DemoKind)

  predicate Fires(t: Trigger, text: string) {
    match t
    case AnyOf(ws) => exists k :: 0 <= k < |ws| && Contains(text, ws[k])
    case AllOf(ws) => forall k :: 0 <= k < |ws| ==> Contains(text, ws[k])
  }

  /** The kind of the first rule that fires on `text`, else `Generic`. */
  function FirstMatch(rules: seq<Rule>, text: string): (k: DemoKind)
    ensures (forall j :: 0 <= j < |rules| ==> !Fires(rules[j].trigger, text)) ==> k == Generic
    ensures forall j ::
      (0 <= j < |rules| && Fires(rules[j].trigger, text) && forall i :: 0 <= i < j ==> !Fires(rules[i].trigger, text))
      ==> k == rules[j].kind
  {
    if rules == [] then Generic
    else if Fires(rules[0].trigger, text) then rules[0].kind
    else FirstMatch(rules[1..], text)
  }

  /** The priority order greeting, pricing, features, contact, how+work, demo, thank. */
  const DemoRules: seq<Rule> := [
    Rule(AnyOf(["hello", "hi", "hey"]), Greeting),
    Rule(AnyOf(["price", "cost", "pricing"]), Pricing),
    Rule(AnyOf(["feature", "what can", "capabilities"]), Features),
    Rule(AnyOf(["contact", "reach", "talk"]), Contact),
    Rule(AllOf(["how", "work"]), Process),
    Rule(AnyOf(["demo", "try", "test"]), Demo),
    Rule(AnyOf(["thank"]), Thanks)
  ]

  lemma AnyOf3(text: string, a: string, b: string, c: string)
    ensures Fires(AnyOf([a, b, c]), text) <==> Contains(text, a) || Contains(text, b) || Contains(text, c)
  {
    var ws := [a, b, c];
    if Contains(text, a) { assert Contains(text, ws[0]); }
    if Contains(text, b) { assert Contains(text, ws[1]); }
    if Contains(text, c) { assert Contains(text, ws[2]); }
  }

  lemma AllOf2(text: string, a: string, b: string)
    ensures Fires(AllOf([a, b]), text) <==> Contains(text, a) && Contains(text, b)
  {
    var ws := [a, b];
    assert ws[0] == a && ws[1] == b;
  }

  lemma AnyOf1(text: string, a: string)
    ensures Fires(AnyOf([a]), text) <==> Contains(text, a)
  {
    var ws := [a];
    assert ws[0] == a;
  }

  lemma FirstMatchStep(rules: seq<Rule>, text: string)
    requires rules != []
    ensures FirstMatch(rules, text)
      == if Fires(rules[0].trigger, text) then rules[0].kind else FirstMatch(rules[1..], text)
  {
  }

  /** The if/else chain is exactly the first-match reading of the rule table. */
  lemma DemoResponseIsFirstMatch(messages: seq<ChatMessage>)
    ensures GetDemoResponse(messages) == ReplyText(FirstMatch(DemoRules, LastLower(messages)))
  {
    var t := LastLower(messages);
    var r0 := DemoRules;
    var r1 := r0[1..];
    var r2 := r1[1..];
    var r3 := r2[1..];
    var r4 := r3[1..];
    var r5 := r4[1..];
    var r6 := r5[1..];
    assert r6 == [Rule(AnyOf(["thank"]), Thanks)];
    FirstMatchStep(r6, t);
    AnyOf1(t, "thank");
    FirstMatchStep(r5, t);
    AnyOf3(t, "demo", "try", "test");
    FirstMatchStep(r4, t);
    AllOf2(t, "how", "work");
    FirstMatchStep(r3, t);
    AnyOf3(t, "contact", "reach", "talk");
    FirstMatchStep(r2, t);
    AnyOf3(t, "feature", "what can", "capabilities");
    FirstMatchStep(r1, t);
    AnyOf3(t, "price", "cost", "pricing");
    FirstMatchStep(r0, t);
    AnyOf3(t, "hello", "hi", "hey");
  }

  /** The reply depends only on the lower-cased text of the last message. */
  lemma DemoResponseDependsOnLastOnly(m1: seq<ChatMessage>, m2: seq<ChatMessage>)
    requires LastLower(m1) == LastLower(m2)
    ensures GetDemoResponse(m1) == GetDemoResponse(m2)
  {
  }

  /** An empty list yields the generic promotional reply. */
  lemma DemoResponseOfEmptyList()
    ensures GetDemoResponse([]) == DefaultReply
  {
    assert LastLower([]) == "";
    assert ClassifyDemo("") == Generic;
  }

  /** Greeting terms are tested first: any text containing "hi" gets the greeting. */
  lemma GreetingWinsOnHi(messages: seq<ChatMessage>)
    requires Contains(LastLower(messages), "hi")
    ensures ClassifyDemo(LastLower(messages)) == Greeting
    ensures GetDemoResponse(messages) == GreetingReply
  {
  }

  /**
   * The substring test fires inside words: a last message reading "which price"
   * gets the greeting, not the pricing reply.
   */
  lemma WhichPriceGetsGreeting(messages: seq<ChatMessage>)
    requires messages != [] && messages[|messages| - 1].content == "which price"
    ensures GetDemoResponse(messages) == GreetingReply
  {
    var s := messages[|messages| - 1].content;
    LowerOfLowerCase(s);
    assert OccursAt(s, "hi", 1) by {
      assert s[1] == 'h' && s[2] == 'i';
      assert s[1..3] == [s[1], s[2]];
    }
    ContainsAt(s, "hi", 1);
    GreetingWinsOnHi(messages);
  }

  /** The process reply needs both "how" and "work"; "how" alone falls through. */
  lemma ProcessNeedsHowAndWork(messages: seq<ChatMessage>)
    ensures ClassifyDemo(LastLower(messages)) == Process ==>
      Contains(LastLower(messages), "how") && Contains(LastLower(messages), "work")
  {
  }

  // ---- sendMessageToOpenAI ----

  datatype ApiRequest = ApiRequest(model: string, messages: seq<ChatMessage>, temperature: real, maxTokens: int)

  datatype ChoiceMessage = ChoiceMessage(content: Option<string>)
  datatype Choice = Choice(message: Option<ChoiceMessage>)

  /**
   * What the POST yields: a rejected promise (network error, non-2xx status),
   * or a body whose `choices` field may be missing.
   */
  datatype HttpOutcome = Rejected | Responded(choices: Option<seq<Choice>>)

  /** The request body: the fixed system entry followed by the caller's messages. */
  function BuildRequest(messages: seq<ChatMessage>): (req: ApiRequest)
    ensures |req.messages| == |messages| + 1
    ensures req.messages[0] == ChatMessage(System, SystemPrompt)
    ensures forall i :: 0 <= i < |messages| ==> req.messages[i + 1] == messages[i]
    ensures req.model == ApiModel && req.temperature == ApiTemperature && req.maxTokens == ApiMaxTokens
  {
    ApiRequest(ApiModel, [ChatMessage(System, SystemPrompt)] + messages, ApiTemperature, ApiMaxTokens)
  }

  /** `choices[0]?.message?.content`, undefined along any missing link. */
  function FirstContent(choices: seq<Choice>): Option<string> {
    if choices == [] then None
    else match choices[0].message
      case None => None
      case Some(m) => m.content
  }

  /**
   * `sendMessageToOpenAI`. A missing `choices` field makes the indexing throw,
   * which the catch turns into the demo reply like any other error.
   */
  function SendMessageToOpenAI(messages: seq<ChatMessage>, transport: ApiRequest -> HttpOutcome): (r: string)
    ensures r != ""
    ensures transport(BuildRequest(messages)).Rejected? ==> r == GetDemoResponse(messages)
    ensures transport(BuildRequest(messages)) == Responded(None) ==> r == GetDemoResponse(messages)
    ensures forall cs :: transport(BuildRequest(messages)) == Responded(Some(cs)) ==>
      r == (if FirstContent(cs).Some? && FirstContent(cs).value != "" then FirstContent(cs).value else NoContentReply)
  {
    match transport(BuildRequest(messages))
    case Rejected => GetDemoResponse(messages)
    case Responded(None) => GetDemoResponse(messages)
    case Responded(Some(cs)) => OrElse(FirstContent(cs).GetOr(""), NoContentReply)
  }

  /**
   * A body with `choices` whose first choice is absent, has no message, has no
   * content, or has empty content yields the apology, whatever follows it.
   */
  lemma EmptyCompletionYieldsApology(messages: seq<ChatMessage>, transport: ApiRequest -> HttpOutcome,
                                     cs: seq<Choice>)
    requires transport(BuildRequest(messages)) == Responded(Some(cs))
    requires FirstContent(cs) == None || FirstContent(cs) == Some("")
    ensures SendMessageToOpenAI(messages, transport) == NoContentReply
  {
  }

  /** Whatever the transport does, the result is a completion text, the apology or a canned reply. */
  lemma SendResultKinds(messages: seq<ChatMessage>, transport: ApiRequest -> HttpOutcome)
    ensures var r := SendMessageToOpenAI(messages, transport);
      r in DemoReplies || r == NoContentReply
      || exists cs :: transport(BuildRequest(messages)) == Responded(Some(cs)) && FirstContent(cs) == Some(r)
  {
    var out := transport(BuildRequest(messages));
    if out.Responded? && out.choices.Some? {
      var cs := out.choices.value;
      assert out == Responded(Some(cs));
    }
  }
}

/**
 * The GEO assistant backend (Backend/chat.py, class `OptimizedGEOChatBot`):
 * an in-memory map from session id to a session record, eviction of sessions
 * older than a day, classification of the question by substring tests, the
 * outgoing message list (system entry, a window of recent history, the new
 * user entry) and the bounded conversation history.
 *
 * Time is whole seconds passed in as `now`; the uuid the source would draw is
 * `freshId`; the retrieved knowledge context is the string `context`; the LLM
 * client is `client`, absent (`None`, what the source's constructor leaves in
 * place) or a function from the request to a completion that may fail.
 */
module GeoBackend {
  import opened Wrappers
  import opened Text
  import opened Messages

  const MaxSessionAgeSeconds := 86400
  /** How many history entries go into one request (`session_history[-20:]`). */
  const HistoryWindow := 20
  /** How many history entries a session keeps. */
  const HistoryCap := 50

  const RequestModel := "gpt-4o-mini"
  /** The request's token limit; the classified limit of `MaxTokens` is never sent. */
  const RequestMaxTokens := 500
  const RequestTemperature: real := 0.3

  // Every long text in this module (these replies, the prompt, the tone
  // instructions, the default knowledge) is written as short pieces joined
  // with `+`; the string is the same, and the solver handles the pieces far
  // faster than one long literal.
  const ServiceDownReply :=
    "I apologize, but the AI service " + "is down for now.\n            "
    + "Please try again later."
  const ErrorReply :=
    "I apologize, but I encountered " + "an error. Please try again."

  // ---- Question classification ----

  const FactualTerms: seq<string> := ["price", "cost", "how much", "when", "how long", "what time"]
  const DefinitionTerms: seq<string> := ["what is geo", "what is aeo", "define", "meaning of"]
  const BusinessTerms: seq<string> := [
    "my business", "restaurant", "shop", "store", "clinic", "firm",
    "company", "startup", "agency", "practice", "salon", "gym"]
  const FeatureListTerms: seq<string> := ["features", "services", "benefits", "plans", "options"]

  /** The four independent flags computed from the lower-cased question. */
  datatype QuestionKind = QuestionKind(factual: bool, definition: bool, businessSpecific: bool, featureList: bool)

  function Classify(userInput: string): (k: QuestionKind)
    ensures k.factual <==> exists i :: 0 <= i < |FactualTerms| && Contains(Lower(userInput), FactualTerms[i])
    ensures k.definition <==> exists i :: 0 <= i < |DefinitionTerms| && Contains(Lower(userInput), DefinitionTerms[i])
    ensures k.businessSpecific <==> exists i :: 0 <= i < |BusinessTerms| && Contains(Lower(userInput), BusinessTerms[i])
    ensures k.featureList <==> exists i :: 0 <= i < |FeatureListTerms| && Contains(Lower(userInput), FeatureListTerms[i])
  {
    var q := Lower(userInput);
    QuestionKind(ContainsAny(q, FactualTerms), ContainsAny(q, DefinitionTerms),
                 ContainsAny(q, BusinessTerms), ContainsAny(q, FeatureListTerms))
  }

  /**
   * The classified answer length: factual or definition first, then feature
   * list, then business-specific, else the default.
   */
  function MaxTokens(k: QuestionKind): (n: int)
    ensures n == 150 || n == 180 || n == 200
    ensures n == 150 <==> k.factual || k.definition
    ensures n == 180 <==> !k.factual && !k.definition && !k.featureList && !k.businessSpecific
  {
    if k.factual || k.definition then 150
    else if k.featureList then 200
    else if k.businessSpecific then 200
    else 180
  }

  /** Which tone instruction goes into the system message. */
  datatype Tone = FactualTone | DefinitionTone | BusinessTone | FeatureListTone | ConversationalTone

  /** Tone priority: factual, definition, business-specific, feature list, default. */
  function ToneOf(k: QuestionKind): (t: Tone)
    ensures t == FactualTone <==> k.factual
    ensures t == DefinitionTone <==> !k.factual && k.definition
    ensures t == BusinessTone <==> !k.factual && !k.definition && k.businessSpecific
    ensures t == FeatureListTone <==> !k.factual && !k.definition && !k.businessSpecific && k.featureList
  {
    if k.factual then FactualTone
    else if k.definition then DefinitionTone
    else if k.businessSpecific then BusinessTone
    else if k.featureList then FeatureListTone
    else ConversationalTone
  }

  function ToneText(t: Tone): string {
    match t
    case FactualTone =>
      "Be direct and factual, but " + "provide context. 1-2 sentences " + "with helpful follow-up."
    case DefinitionTone =>
      "Provide a clear 1-2 sentence " + "definition, then briefly " + "mention the key benefit."
    case BusinessTone =>
      "Be enthusiastic and specific to " + "their business type. 2-3 " + "sentences with concrete " + "examples."
    case FeatureListTone => "Use brief bullet points with context."
    case ConversationalTone =>
      "Be conversational and helpful. " + "2-4 sentences providing " + "complete context."
  }

  /**
   * The two priority orders disagree: a question that is both about a business
   * and about features gets the business tone, while its length comes from the
   * feature-list branch.
   */
  lemma TonePriorityDiffersFromLengthPriority(k: QuestionKind)
    requires !k.factual && !k.definition && k.businessSpecific && k.featureList
    ensures ToneOf(k) == BusinessTone && MaxTokens(k) == 200
  {
  }

  /** Whatever the classification, the request carries 500 tokens, above every classified length. */
  lemma ClassifiedLengthIsNotSent(k: QuestionKind, systemMessage: string, history: seq<ChatMessage>, userInput: string)
    ensures BuildRequest(systemMessage, history, userInput).maxTokens == RequestMaxTokens > MaxTokens(k)
  {
  }

  // ---- The system message ----

  /** The fixed opening of the system prompt, up to the tone instruction. */
  const PromptHead :=
    "You are the GEO Expert " + "Assistant - a helpful guide who " + "educates users about AI search "
      + "optimization.\n"
    + "\n"
    + "STRICT TOPIC BOUNDARIES - MUST " + "FOLLOW:\n"
    + "You CAN ONLY discuss topics " + "related to:\n"
    + "- GEO (Generative Engine " + "Optimization)\n"
    + "- AI search engines (ChatGPT, " + "Perplexity, Google AI) and how " + "they cite businesses\n"
    + "- Traditional SEO vs GEO " + "comparison\n"
    + "- Business visibility in AI " + "search results\n"
    + "- GEO services, plans, pricing, " + "and process\n"
    + "\n"
    + "You MUST REFUSE to discuss:\n"
    + "- Technical implementation: " + "Programming, coding, APIs, " + "databases, backend systems\n"
    + "- Software engineering: Bug " + "fixes, code reviews, technical " + "architecture\n"
    + "- IT support: Computer " + "troubleshooting, software " + "installation\n"
    + "- Data science/ML technical " + "details\n"
    + "- Politics, religion, " + "controversial topics\n"
    + "- Personal advice " + "(relationships, health, " + "career)\n"
    + "- Entertainment, sports, pop " + "culture\n"
    + "- Medical, legal, or financial " + "advice\n"
    + "- General business consulting " + "unrelated to AI search " + "visibility\n"
    + "\n"
    + "RESPONSE TO OFF-TOPIC " + "QUESTIONS:\n"
    + "For technical/coding questions: " + "\"I'm not able to help with " + "technical implementation or "
      + "coding questions. I specialize " + "exclusively in GEO (Generative " + "Engine Optimization) and AI "
      + "search visibility for " + "businesses. If you have " + "questions about improving your "
      + "company's visibility in AI " + "search results, I'd be happy to " + "help!\"\n"
    + "\n"
    + "For unrelated business " + "questions: \"That's outside my " + "area of expertise. I focus "
      + "specifically on GEO and helping " + "businesses get cited by AI " + "search engines. Is your "
      + "business currently visible when " + "customers ask AI about your " + "industry?\"\n"
    + "\n"
    + "CORE PRINCIPLES:\n"
    + "- Be conversational, friendly, " + "and helpful\n"
    + "- Provide complete context in " + "your answers\n"
    + "- Most responses should be 2-4 " + "sentences (not one-word or " + "robotic answers)\n"
    + "- Always guide users on next " + "steps when relevant\n"
    + "- You GUIDE users, you don't DO " + "things for them\n"
    + "- Explain processes clearly " + "with step-by-step instructions " + "when asked \"how\"\n"
    + "\n"
    + "TONE INSTRUCTION: "

  /** The fixed rest of the system prompt, after the tone instruction. */
  const PromptTail :=
    "\n"
    + "\n"
    + "RESPONSE GUIDELINES:\n"
    + "- Benefits/Results: Explain " + "what improves and why it " + "matters (2-3 sentences)\n"
    + "- Pricing: State the price AND " + "briefly what's included (2 " + "sentences)\n"
    + "- What is GEO: Brief " + "explanation + why it matters (2 " + "sentences)\n"
    + "- Timeline: Direct answer + " + "what they can expect (2 " + "sentences)\n"
    + "- Vague questions (\"how much " + "can it help\"): Ask about their " + "industry OR provide general "
      + "overview\n"
    + "- \"How to\" questions: Provide " + "clear step-by-step guidance\n"
    + "\n"
    + "IMPORTANT PHRASING:\n"
    + "- Never say \"I can do X for " + "you\" - say \"Here's how to do " + "X\"\n"
    + "- Never promise to perform " + "actions - guide users to take " + "action themselves\n"
    + "- Always offer to clarify or " + "provide more details\n"
    + "\n"
    + "Relevant Knowledge Context:\n"

  /**
   * `get_default_knowledge`: the built-in knowledge text that retrieval falls
   * back to. Retrieval is not modelled (the context is a parameter of
   * `Respond`), so nothing here uses it; it is kept as the source's data.
   */
  const DefaultKnowledge :=
    "\n"
    + "# GEO (Generative Engine " + "Optimization)\n"
    + "\n"
    + "## What is GEO?\n"
    + "GEO makes sure ChatGPT, " + "Perplexity, and Google's AI " + "cite YOUR company when people "
      + "ask questions\n"
    + " about your industry.\n"
    + "\n"
    + "## Why GEO Matters\n"
    + "- 50% of searches will be " + "AI-powered by 2026\n"
    + "- ChatGPT: 1.7 billion visits " + "every month\n"
    + "- 60% of Google searches now " + "display AI answers\n"
    + "- 65% of consumers use AI for " + "product research\n"
    + "- 23x higher conversion rates " + "from AI search traffic\n"
    + "\n"
    + "## Our Services\n"
    + "- Starter Plan (FREE): AI " + "Visibility Score Analysis, " + "Search Query Testing, Detailed "
      + "Performance Report\n"
    + "- Professional Plan ($299 " + "one-time): AI Content " + "Optimization, Key Search "
      + "Results, Real-time AI " + "Visibility Tracking\n"
    + "- Professional Plan - " + "Monitoring ($249/mo or $199/mo " + "for 3-month special): "
      + "Continuous Monitoring, Weekly " + "Reports\n"
    + "\n"
    + "## Results\n"
    + "- 37% average improvement in AI " + "citations\n"
    + "- Most clients see results " + "within 30-45 days\n"

  /** The system message: the fixed prompt with the tone filled in and the context appended. */
  function SystemMessage(tone: Tone, context: string): string {
    PromptHead + ToneText(tone) + PromptTail + context
  }

  // ---- The outgoing message list ----

  /** The last (at most) `HistoryWindow` entries, Python's `history[-20:]`. */
  function Window(history: seq<ChatMessage>): (w: seq<ChatMessage>)
    ensures |w| == if |history| < HistoryWindow then |history| else HistoryWindow
    ensures forall i :: 0 <= i < |w| ==> w[i] == history[|history| - |w| + i]
  {
    if |history| <= HistoryWindow then history else history[|history| - HistoryWindow..]
  }

  /** The list sent to the model: system entry, recent history in order, the new user entry. */
  function OutgoingMessages(systemMessage: string, history: seq<ChatMessage>, userInput: string): (m: seq<ChatMessage>)
    ensures |m| == |Window(history)| + 2 && |m| <= HistoryWindow + 2
    ensures m[0] == ChatMessage(System, systemMessage)
    ensures m[1..|m| - 1] == Window(history)
    ensures m[|m| - 1] == ChatMessage(User, userInput)
  {
    [ChatMessage(System, systemMessage)] + Window(history) + [ChatMessage(User, userInput)]
  }

  /** Builds the list the way the source does, one append at a time. */
  method AssembleMessages(systemMessage: string, history: seq<ChatMessage>, userInput: string)
    returns (messages: seq<ChatMessage>)
    ensures messages == OutgoingMessages(systemMessage, history, userInput)
  {
    messages := [ChatMessage(System, systemMessage)];
    var recent := Window(history);
    var i := 0;
    while i < |recent|
      invariant 0 <= i <= |recent|
      invariant messages == [ChatMessage(System, systemMessage)] + recent[..i]
    {
      messages := messages + [recent[i]];
      i := i + 1;
    }
    assert recent[..i] == recent;
    messages := messages + [ChatMessage(User, userInput)];
  }

  datatype Request = Request(model: string, messages: seq<ChatMessage>, maxTokens: int, temperature: real)

  function BuildRequest(systemMessage: string, history: seq<ChatMessage>, userInput: string): (r: Request)
    ensures r.model == RequestModel && r.maxTokens == RequestMaxTokens && r.temperature == RequestTemperature
    ensures r.messages == OutgoingMessages(systemMessage, history, userInput)
  {
    Request(RequestModel, OutgoingMessages(systemMessage, history, userInput), RequestMaxTokens, RequestTemperature)
  }

  /** What the client gives back: a text, or an exception (HTTP error, no choices). */
  datatype Completion = Failed | Answered(content: string)

  // ---- Conversation history ----

  /** Appends the user/assistant pair and keeps only the newest `HistoryCap` entries. */
  function RecordExchange(history: seq<ChatMessage>, userInput: string, reply: string): (h: seq<ChatMessage>)
    ensures var grown := history + [ChatMessage(User, userInput), ChatMessage(Assistant, reply)];
      |h| == (if |grown| > HistoryCap then HistoryCap else |grown|)
      && h == grown[|grown| - |h|..]
  {
    var grown := history + [ChatMessage(User, userInput), ChatMessage(Assistant, reply)];
    if |grown| > HistoryCap then grown[|grown| - HistoryCap..] else grown
  }

  /** Even length, at most the cap, and roles alternating user/assistant from a user entry. */
  predicate WellFormedHistory(h: seq<ChatMessage>) {
    && |h| % 2 == 0
    && |h| <= HistoryCap
    && forall i :: 0 <= i < |h| ==> h[i].role == (if i % 2 == 0 then User else Assistant)
  }

  lemma {:induction false} RecordExchangeKeepsWellFormed(history: seq<ChatMessage>, userInput: string, reply: string)
    requires WellFormedHistory(history)
    ensures var h := RecordExchange(history, userInput, reply);
      WellFormedHistory(h)
      && h[|h| - 2] == ChatMessage(User, userInput)
      && h[|h| - 1] == ChatMessage(Assistant, reply)
  {
    var grown := history + [ChatMessage(User, userInput), ChatMessage(Assistant, reply)];
    assert forall i :: 0 <= i < |grown| ==> grown[i].role == (if i % 2 == 0 then User else Assistant);
    var h := RecordExchange(history, userInput, reply);
    if |grown| > HistoryCap {
      assert |grown| == HistoryCap + 2;
      forall i | 0 <= i < |h| ensures h[i].role == (if i % 2 == 0 then User else Assistant) {
        assert h[i] == grown[i + 2];
      }
    }
  }

  // ---- Sessions ----

  datatype Session = Session(history: seq<ChatMessage>, createdAt: int)

  predicate AllWellFormed(sessions: map<string, Session>) {
    forall id :: id in sessions ==> WellFormedHistory(sessions[id].history)
  }

  /** Strictly older than a day. */
  predicate Expired(s: Session, now: int) {
    now - s.createdAt > MaxSessionAgeSeconds
  }

  /** The sessions that survive clean-up: all and only those not expired, unchanged. */
  function Unexpired(sessions: map<string, Session>, now: int): (r: map<string, Session>)
    ensures forall id :: id in r <==> id in sessions && !Expired(sessions[id], now)
    ensures forall id :: id in r ==> r[id] == sessions[id]
  {
    map id | id in sessions && !Expired(sessions[id], now) :: sessions[id]
  }

  /** Get-or-create: an unseen id gets an empty history stamped `now`, a known id is left as it is. */
  function OpenSession(sessions: map<string, Session>, id: string, now: int): (r: map<string, Session>)
    ensures id in r
    ensures id in sessions ==> r == sessions
    ensures id !in sessions ==> r[id] == Session([], now) && r.Keys == sessions.Keys + {id}
    ensures forall other :: other in sessions ==> other in r && r[other] == sessions[other]
  {
    if id in sessions then sessions else sessions[id := Session([], now)]
  }

  /** A missing or empty session id is replaced by a fresh one (`if not session_id`). */
  function EffectiveId(sessionId: Option<string>, freshId: string): (id: string)
    ensures sessionId.Some? && sessionId.value != "" ==> id == sessionId.value
    ensures sessionId.None? || sessionId.value == "" ==> id == freshId
  {
    if sessionId.None? || sessionId.value == "" then freshId else sessionId.value
  }

  // ---- generate_response, as a function of the session map ----

  datatype Outcome = Outcome(reply: string, request: Option<Request>, sessions: map<string, Session>)

  /** The request sent for a question asked in a session with the given history. */
  function RequestFor(history: seq<ChatMessage>, userInput: string, context: string): Request {
    BuildRequest(SystemMessage(ToneOf(Classify(userInput)), context), history, userInput)
  }

  /** Sends `req` for session `id` and records the exchange if the client answers. */
  function Ask(kept: map<string, Session>, id: string, userInput: string, req: Request,
               client: Request -> Completion): (o: Outcome)
    requires id in kept
    ensures o.sessions.Keys == kept.Keys
    ensures forall other :: other in kept ==> o.sessions[other].createdAt == kept[other].createdAt
  {
    match client(req)
    case Failed => Outcome(ErrorReply, Some(req), kept)
    case Answered(text) =>
      Outcome(text, Some(req), kept[id := kept[id].(history := RecordExchange(kept[id].history, userInput, text))])
  }

  /**
   * The whole of `generate_response`: the reply, the request sent to the
   * client (if one was sent) and the new session map.
   */
  function Respond(sessions: map<string, Session>, userInput: string, sessionId: Option<string>, freshId: string,
                   now: int, context: string, client: Option<Request -> Completion>): (o: Outcome)
    ensures forall id :: id in o.sessions ==> id in sessions || id == EffectiveId(sessionId, freshId)
    ensures forall id :: id in o.sessions && id in sessions ==> o.sessions[id].createdAt == sessions[id].createdAt
  {
    if client.None? then Outcome(ServiceDownReply, None, sessions)
    else
      var id := EffectiveId(sessionId, freshId);
      var kept := Unexpired(OpenSession(sessions, id, now), now);
      if id !in kept then Outcome(ErrorReply, None, kept)
      else Ask(kept, id, userInput, RequestFor(kept[id].history, userInput, context), client.value)
  }

  /** Without a client the call returns the fixed notice and creates or changes no session. */
  lemma NoClientChangesNothing(sessions: map<string, Session>, userInput: string, sessionId: Option<string>,
                               freshId: string, now: int, context: string)
    ensures Respond(sessions, userInput, sessionId, freshId, now, context, None)
         == Outcome(ServiceDownReply, None, sessions)
  {
  }

  /** Every call keeps every session's history well formed. */
  lemma RespondKeepsWellFormed(sessions: map<string, Session>, userInput: string, sessionId: Option<string>,
                               freshId: string, now: int, context: string, client: Option<Request -> Completion>)
    requires AllWellFormed(sessions)
    ensures AllWellFormed(Respond(sessions, userInput, sessionId, freshId, now, context, client).sessions)
  {
    if client.Some? {
      var id := EffectiveId(sessionId, freshId);
      var joined := OpenSession(sessions, id, now);
      assert WellFormedHistory(joined[id].history);
      var kept := Unexpired(joined, now);
      assert AllWellFormed(kept);
      if id in kept {
        var req := RequestFor(kept[id].history, userInput, context);
        AskKeepsWellFormed(kept, id, userInput, req, client.value);
      }
    }
  }

  lemma AskKeepsWellFormed(kept: map<string, Session>, id: string, userInput: string, req: Request,
                           client: Request -> Completion)
    requires id in kept && AllWellFormed(kept)
    ensures AllWellFormed(Ask(kept, id, userInput, req, client).sessions)
  {
    if client(req).Answered? {
      RecordExchangeKeepsWellFormed(kept[id].history, userInput, client(req).content);
    }
  }

  /**
   * A caller whose own session is more than a day old loses it to the clean-up
   * and gets the generic error; no request is sent.
   */
  lemma ExpiredCallerGetsError(sessions: map<string, Session>, userInput: string, sessionId: Option<string>,
                               freshId: string, now: int, context: string, client: Option<Request -> Completion>)
    requires client.Some?
    requires EffectiveId(sessionId, freshId) in sessions
    requires Expired(sessions[EffectiveId(sessionId, freshId)], now)
    ensures Respond(sessions, userInput, sessionId, freshId, now, context, client)
         == Outcome(ErrorReply, None, Unexpired(sessions, now))
  {
  }

  /**
   * Any other call sends the request built from the caller's surviving (or new)
   * history, and only a successful completion changes that history: by exactly
   * the user/assistant pair, trimmed to the cap. Every other session is the
   * clean-up's result.
   */
  lemma LiveCallerIsAnswered(sessions: map<string, Session>, userInput: string, sessionId: Option<string>,
                             freshId: string, now: int, context: string, client: Option<Request -> Completion>)
    requires client.Some?
    requires var id := EffectiveId(sessionId, freshId);
      id !in sessions || !Expired(sessions[id], now)
    ensures var id := EffectiveId(sessionId, freshId);
      var before := if id in sessions then sessions[id].history else [];
      var o := Respond(sessions, userInput, sessionId, freshId, now, context, client);
      && o.request.Some?
      && o.request.value.messages == OutgoingMessages(SystemMessage(ToneOf(Classify(userInput)), context), before, userInput)
      && |o.request.value.messages| <= HistoryWindow + 2
      && id in o.sessions
      && (forall other :: other != id ==> (other in o.sessions <==> other in Unexpired(sessions, now)))
      && (forall other :: other != id && other in o.sessions ==> o.sessions[other] == sessions[other])
      && match client.value(o.request.value)
         case Failed => o.reply == ErrorReply && o.sessions[id].history == before
         case Answered(text) => o.reply == text && o.sessions[id].history == RecordExchange(before, userInput, text)
  {
    var id := EffectiveId(sessionId, freshId);
    var joined := OpenSession(sessions, id, now);
    var kept := Unexpired(joined, now);
    assert !Expired(joined[id], now);
    assert kept[id].history == (if id in sessions then sessions[id].history else []);
    forall other | other != id
      ensures other in kept <==> other in Unexpired(sessions, now)
    {
      if other in kept { assert other in sessions; }
    }
    AskOutcome(kept, id, userInput, RequestFor(kept[id].history, userInput, context), client.value);
  }

  /** What `Ask` returns, spelled out for each answer of the client. */
  lemma AskOutcome(kept: map<string, Session>, id: string, userInput: string, req: Request,
                   client: Request -> Completion)
    requires id in kept
    ensures var o := Ask(kept, id, userInput, req, client);
      && o.request == Some(req)
      && id in o.sessions && o.sessions.Keys == kept.Keys
      && (forall other :: other != id && other in kept ==> o.sessions[other] == kept[other])
      && match client(req)
         case Failed => o.reply == ErrorReply && o.sessions[id] == kept[id]
         case Answered(text) => o.reply == text && o.sessions[id].history == RecordExchange(kept[id].history, userInput, text)
  {
  }

  // ---- The bot object ----

  /** Builds the request the way `generate_response` does: classify, pick the tone, assemble the list. */
  method ComposeRequest(history: seq<ChatMessage>, userInput: string, context: string) returns (req: Request)
    ensures req == RequestFor(history, userInput, context)
  {
    var kind := Classify(userInput);
    var maxTokens := MaxTokens(kind);  // computed, never sent
    var systemMessage := SystemMessage(ToneOf(kind), context);
    var messages := AssembleMessages(systemMessage, history, userInput);
    req := Request(RequestModel, messages, RequestMaxTokens, RequestTemperature);
  }

  class GeoChatBot {
    var sessions: map<string, Session>

    ghost predicate Valid()
      reads this
    {
      AllWellFormed(sessions)
    }

    constructor ()
      ensures Valid() && sessions == map[]
    {
      sessions := map[];
    }

    /** `_cleanup_old_sessions`: collects the expired ids, then deletes them. */
    method CleanupOldSessions(now: int)
      requires Valid()
      modifies this
      ensures Valid()
      ensures sessions == Unexpired(old(sessions), now)
    {
      var toRemove: set<string> := {};
      var pending := sessions.Keys;
      while pending != {}
        invariant pending <= sessions.Keys
        invariant sessions == old(sessions)
        invariant forall id :: id in toRemove <==> id in sessions && id !in pending && Expired(sessions[id], now)
        decreases pending
      {
        var id :| id in pending;
        if Expired(sessions[id], now) {
          toRemove := toRemove + {id};
        }
        pending := pending - {id};
      }
      var doomed := toRemove;
      while doomed != {}
        invariant doomed <= toRemove
        invariant sessions == old(sessions) - (toRemove - doomed)
        decreases doomed
      {
        var id :| id in doomed;
        sessions := sessions - {id};
        doomed := doomed - {id};
      }
      assert sessions == old(sessions) - toRemove;
      assert sessions == Unexpired(old(sessions), now);
    }

    /** `generate_response`. */
    method GenerateResponse(userInput: string, sessionId: Option<string>, freshId: string,
                            now: int, context: string, client: Option<Request -> Completion>)
      returns (reply: string, request: Option<Request>)
      requires Valid()
      modifies this
      ensures Valid()
      ensures Outcome(reply, request, sessions)
           == Respond(old(sessions), userInput, sessionId, freshId, now, context, client)
    {
      if client.None? {
        return ServiceDownReply, None;
      }
      var id := EffectiveId(sessionId, freshId);
      if id !in sessions {
        sessions := sessions[id := Session([], now)];
      }
      assert sessions == OpenSession(old(sessions), id, now);
      CleanupOldSessions(now);
      if id !in sessions {
        // The history lookup raises KeyError, which the handler turns into the generic error.
        return ErrorReply, None;
      }
      reply, request := AskClient(id, userInput, context, client.value);
    }

    /** Stores one answered exchange in session `id`, trimmed to the last `HistoryCap` entries. */
    method RecordReply(id: string, userInput: string, text: string)
      requires Valid() && id in sessions
      modifies this
      ensures Valid()
      ensures sessions == old(sessions)[id := old(sessions)[id].(history := RecordExchange(old(sessions)[id].history, userInput, text))]
    {
      var history := sessions[id].history;
      RecordExchangeKeepsWellFormed(history, userInput, text);
      history := history + [ChatMessage(User, userInput)];
      history := history + [ChatMessage(Assistant, text)];
      assert history == old(sessions)[id].history + [ChatMessage(User, userInput), ChatMessage(Assistant, text)];
      if |history| > HistoryCap {
        history := history[|history| - HistoryCap..];
      }
      sessions := sessions[id := sessions[id].(history := history)];
    }

    /**
     * The part of `generate_response` after clean-up: classify, build and send
     * the request, and record the exchange when the client answers.
     */
    method AskClient(id: string, userInput: string, context: string, client: Request -> Completion)
      returns (reply: string, request: Option<Request>)
      requires Valid() && id in sessions
      modifies this
      ensures Valid()
      ensures Outcome(reply, request, sessions)
           == Ask(old(sessions), id, userInput, RequestFor(old(sessions)[id].history, userInput, context), client)
    {
      var req := ComposeRequest(sessions[id].history, userInput, context);
      request := Some(req);
      match client(req)
      case Failed =>
        reply := ErrorReply;
      case Answered(text) =>
        RecordReply(id, userInput, text);
        reply := text;
    }
  }
}

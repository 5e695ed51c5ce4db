# Chatterify / GEO assistant — a Dafny model of the chat core

This project models, in Dafny, the behaviour of the chat and contact core of the
Chatterify site and its GEO ("Generative Engine Optimization") assistant backend:

- **`GeoBackend`** (`geo_backend.dfy`): the Python `OptimizedGEOChatBot`.
  - The session map keyed by session id, with get-or-create and a clean-up that drops
    sessions more than 86400 seconds old.
  - Question classification into four keyword flags, the answer-length table and the
    tone priority.
  - The system prompt, the outgoing message list: system entry, the last 20 history
    entries, the user entry.
  - The fixed request settings (`gpt-4o-mini`, 500 tokens, temperature 0.3).
  - The history update: user/assistant pair appended, trimmed to the newest 50.
  - The error replies. `generate_response` is stated twice: as the function `Respond`
    on the session map, and as the method `GeoChatBot.GenerateResponse` that updates
    the bot's `sessions` field in place and is proved to agree with `Respond`.
- **`CompletionApi`** (`completion_api.dfy`): the front end's `openaiApi.ts`.
  - The canned demo table (`getDemoResponse`), also restated as an ordered rule table
    and proved equal to the if/else chain.
  - `sendMessageToOpenAI`: fixed system entry, first choice's text or an apology, the
    demo table on any failure.
- **`ChatWidget`** (`chat_widget.dfy`): the `Chatbot` component's state — open flag,
  message list, input box, typing flag — and its handlers. The send handler is split
  at its `await` into `Submit` and `Complete`, so that events in between (a refresh)
  can be modelled.
- **`ContactPage`** and **`ContactSection`** (`contact_page.dfy`,
  `contact_section.dfy`): the two contact forms. Each has field updates, the EmailJS
  template parameters with their defaults, the submitting flag, the status, and the
  delayed reset of the page form.
- **`Portfolio`** (`portfolio.dfy`): the project table and the category filter.
- Shared pieces: `Text` holds the string primitives the sources rely on:
  - `toLowerCase`/`lower`, `includes`/`in`, `trim`, `||` on strings.
- Also shared: `Messages` (chat roles and entries), `EmailTemplate` (the template
  record and recipient) and `Wrappers` (`Option`).

Everything the code receives from outside is a parameter of the model:

- the clock (`now`, whole seconds);
- generated ids (`freshId` for `uuid4`, `now` for `Date.now()`);
- the retrieved knowledge context (`context`);
- the completion client (`client`, `transport`, `remote`);
- the e-mail outcome (`delivered`).

The backend's constructor sets `self.client` to `None` and nothing assigns it later, so the source always
takes the "service is down" branch. The model keeps the client as an optional input, so
that both the down branch and the answered branch are covered.

Two behaviours of the widget's code are kept as they are:

- the user record keeps the input as typed, untrimmed (`Chatbot.tsx:58`), although the
  emptiness test trims it;
- the send button is disabled only for blank input, not while a reply is awaited
  (`Chatbot.tsx:197`). A second submit can therefore happen before the first reply lands.

## Model

| member | source | states |
|---|---|---|
| GeoBackend.Classify | Backend/chat.py:190-205 | each of the four flags holds exactly when the lower-cased question contains one of its listed terms (substring test) |
| GeoBackend.MaxTokens | Backend/chat.py:207-215 | the length is 150, 180 or 200; it is 150 exactly for factual or definition questions and 180 exactly when no flag is set |
| GeoBackend.ToneOf | Backend/chat.py:217-227 | tone priority factual, definition, business-specific, feature list, conversational, each case as an if-and-only-if on the flags |
| GeoBackend.ToneText | Backend/chat.py:218-227 | no contract of its own: the five tone instructions, verbatim; which one is used is `ToneOf`'s contract |
| GeoBackend.TonePriorityDiffersFromLengthPriority | Backend/chat.py:207-227 | a business question that also asks about features gets the business tone but the feature-list length (the two chains order the flags differently) |
| GeoBackend.ClassifiedLengthIsNotSent | Backend/chat.py:207-215 | the request always carries 500 tokens, more than any classified length: the computed `max_tokens` is never sent |
| GeoBackend.SystemMessage | Backend/chat.py:229-280 | no contract of its own: the prompt of the f-string, verbatim, with the tone instruction in its place and the retrieved context appended; `LiveCallerIsAnswered` states that it is the first entry of every request |
| GeoBackend.Window | Backend/chat.py:286-288 | Python's `history[-20:]`: the last min(n, 20) entries, in order |
| GeoBackend.OutgoingMessages | Backend/chat.py:282-291 | the list is the system entry, then the windowed history, then the user entry; at most 22 entries |
| GeoBackend.AssembleMessages | Backend/chat.py:282-291 | the append loop builds exactly `OutgoingMessages` |
| GeoBackend.BuildRequest | Backend/chat.py:298-303 | the request uses model gpt-4o-mini, 500 tokens, temperature 0.3 and the outgoing message list |
| GeoBackend.ComposeRequest | Backend/chat.py:189-303 | classification, tone, system message and list assembly yield exactly `RequestFor` of the history, question and context |
| GeoBackend.RecordExchange | Backend/chat.py:307-319 | the new history is the newest min(n + 2, 50) entries of the history grown by the user/assistant pair |
| GeoBackend.RecordExchangeKeepsWellFormed | Backend/chat.py:307-319 | a history of even length ≤ 50 whose roles alternate user/assistant stays so, and ends with the new pair |
| GeoBackend.Expired | Backend/chat.py:359 | no contract of its own: a session is expired when its age exceeds 86400 s strictly; `Unexpired` states that exactly the sessions it does not hold for survive |
| GeoBackend.Unexpired | Backend/chat.py:353-363 | exactly the sessions not more than 86400 s old survive, each unchanged |
| GeoBackend.OpenSession | Backend/chat.py:176-181 | an unseen id gets an empty history stamped now; known sessions are left unchanged; no other key is added |
| GeoBackend.EffectiveId | Backend/chat.py:170-174 | a missing or empty session id is replaced by the fresh id, any other id is kept |
| GeoBackend.RequestFor | Backend/chat.py:189-303 | no contract of its own: the request for a question in a session; `ComposeRequest` is proved to build it step by step, and `LiveCallerIsAnswered` states its message list |
| GeoBackend.Ask | Backend/chat.py:298-325 | sending and recording leaves the set of sessions and every creation time unchanged; `AskOutcome` gives the reply and history for each answer |
| GeoBackend.Respond | Backend/chat.py:163-325 | no call creates a session other than the caller's (effective) id, and no call changes a session's creation time; its branches are the next three lemmas |
| GeoBackend.NoClientChangesNothing | Backend/chat.py:166-168 | without a client the reply is the "service is down" notice; no request is sent and no session is created or changed |
| GeoBackend.ExpiredCallerGetsError | Backend/chat.py:176-184 | a caller whose own session is over a day old loses it to the clean-up and gets the generic error (the KeyError path), with no request sent |
| GeoBackend.LiveCallerIsAnswered | Backend/chat.py:176-325 | otherwise the request carries the caller's surviving or new history. A failed completion gives the error reply and changes no history. An answer is returned and recorded by `RecordExchange`. Other sessions are exactly the clean-up's survivors |
| GeoBackend.RespondKeepsWellFormed | Backend/chat.py:163-325 | every call keeps every session's history well formed (even length, ≤ 50, alternating roles) |
| GeoBackend.AskKeepsWellFormed | Backend/chat.py:298-321 | sending and recording one exchange keeps every history well formed |
| GeoBackend.AskOutcome | Backend/chat.py:298-325 | the request is the one given; the key set is unchanged; only the caller's history changes, and only on an answer |
| GeoBackend.GeoChatBot.constructor | Backend/chat.py:13-14 | the bot starts with no sessions |
| GeoBackend.GeoChatBot.CleanupOldSessions | Backend/chat.py:353-364 | the two loops leave `sessions` equal to `Unexpired(old sessions, now)` and keep the histories well formed |
| GeoBackend.GeoChatBot.RecordReply | Backend/chat.py:307-319 | the caller's history becomes `RecordExchange` of the old one; every other session is unchanged |
| GeoBackend.GeoChatBot.AskClient | Backend/chat.py:189-325 | reply, request and new sessions equal `Ask` applied to the old sessions and `RequestFor` |
| GeoBackend.GeoChatBot.GenerateResponse | Backend/chat.py:163-325 | reply, request and new session map equal `Respond(old sessions, …)`, and histories stay well formed |
| CompletionApi.LastLower | ai-chatbot-services/src/services/openaiApi.ts:21 | the lower-cased last content, or "" for an empty list |
| CompletionApi.ClassifyDemo | ai-chatbot-services/src/services/openaiApi.ts:23-39 | no contract of its own: the if/else chain; `DemoResponseIsFirstMatch` proves it is the first-match reading of the ordered trigger table |
| CompletionApi.ReplyText | ai-chatbot-services/src/services/openaiApi.ts:24-38 | every demo kind is answered by one of the eight canned replies, each verbatim |
| CompletionApi.GetDemoResponse | ai-chatbot-services/src/services/openaiApi.ts:20-40 | the reply is always one of the eight canned replies |
| CompletionApi.FirstMatch | ai-chatbot-services/src/services/openaiApi.ts:23-39 | when no rule fires the answer is the generic kind; when rule j fires and no earlier rule does, the answer is rule j's kind (the first firing rule wins) |
| CompletionApi.DemoResponseIsFirstMatch | ai-chatbot-services/src/services/openaiApi.ts:20-40 | the if/else chain equals the first-match reading of the ordered trigger table (greeting, pricing, features, contact, how+work, demo, thank) |
| CompletionApi.DemoResponseDependsOnLastOnly | ai-chatbot-services/src/services/openaiApi.ts:21 | two lists whose last messages lower-case alike get the same reply |
| CompletionApi.DemoResponseOfEmptyList | ai-chatbot-services/src/services/openaiApi.ts:21 | an empty list gets the generic promotional reply |
| CompletionApi.GreetingWinsOnHi | ai-chatbot-services/src/services/openaiApi.ts:23-24 | any text containing "hi" gets the greeting, whatever else it contains |
| CompletionApi.WhichPriceGetsGreeting | ai-chatbot-services/src/services/openaiApi.ts:23-26 | the substring test fires inside words: "which price" is answered with the greeting, not the pricing reply |
| CompletionApi.ProcessNeedsHowAndWork | ai-chatbot-services/src/services/openaiApi.ts:31-32 | the process reply requires both "how" and "work" in the text |
| CompletionApi.BuildRequest | ai-chatbot-services/src/services/openaiApi.ts:44-57 | the body is the fixed system entry followed by the caller's messages in order, gpt-3.5-turbo, temperature 0.7, 1024 tokens |
| CompletionApi.FirstContent | ai-chatbot-services/src/services/openaiApi.ts:66 | no contract of its own: `choices[0]?.message?.content`, absent along any missing link; `SendMessageToOpenAI` and `EmptyCompletionYieldsApology` state what each case yields |
| CompletionApi.SendMessageToOpenAI | ai-chatbot-services/src/services/openaiApi.ts:42-73 | never empty. A rejected call or a body without `choices` yields the demo reply. Otherwise the first choice's text, or the apology when that text is missing or empty |
| CompletionApi.EmptyCompletionYieldsApology | ai-chatbot-services/src/services/openaiApi.ts:66 | for any `choices` list whose first choice is absent or has no message, no content, or empty content, the result is the apology, whatever choices follow |
| CompletionApi.SendResultKinds | ai-chatbot-services/src/services/openaiApi.ts:42-73 | every result is a canned reply, the apology, or the text of the first choice the transport returned |
| ChatWidget.Project | ai-chatbot-services/src/components/Chatbot.tsx:68-71 | no contract of its own: `messages.map` to chat entries; `ProjectAt` states its length and every entry |
| ChatWidget.ProjectAt | ai-chatbot-services/src/components/Chatbot.tsx:68-71 | the mapped history has one entry per message, the user sender mapping to the user role and the bot to the assistant |
| ChatWidget.Greeting | ai-chatbot-services/src/components/Chatbot.tsx:13-20 | no contract of its own: the seed record (id 1, the bot's greeting); the constructor and `Refresh` state that it is the whole list |
| ChatWidget.RoleOf | ai-chatbot-services/src/components/Chatbot.tsx:69 | a record maps to the user role exactly when the user sent it, and to the assistant role exactly when the bot sent it |
| ChatWidget.Transcript | ai-chatbot-services/src/components/Chatbot.tsx:68-76 | the conversation sent is the mapped pre-submit list followed by one user entry holding the input |
| ChatWidget.TranscriptExample | ai-chatbot-services/src/components/Chatbot.tsx:68-76 | a two-message list and a question give the three expected entries |
| ChatWidget.ReplyText | ai-chatbot-services/src/components/Chatbot.tsx:78-98 | the bot record holds the reply when there is one, else the fixed error text |
| ChatWidget.SendEnabled | ai-chatbot-services/src/components/Chatbot.tsx:54 | sending is possible exactly when the trimmed input is non-empty, i.e. when the input is not all whitespace |
| ChatWidget.Widget.constructor | ai-chatbot-services/src/components/Chatbot.tsx:12-22 | closed, not typing, empty input, one greeting record with id 1 |
| ChatWidget.Widget.Open | ai-chatbot-services/src/components/Chatbot.tsx:107-109 | the floating button (shown only while closed) opens the window and changes nothing else |
| ChatWidget.Widget.Close | ai-chatbot-services/src/components/Chatbot.tsx:125-142 | the close button of the open window closes it and keeps the conversation |
| ChatWidget.Widget.Type | ai-chatbot-services/src/components/Chatbot.tsx:125-191 | in the open window, the input box holds the typed value; nothing else changes |
| ChatWidget.Widget.Refresh | ai-chatbot-services/src/components/Chatbot.tsx:35-46 | in the open window, the list is reset to the greeting alone, typing stops, the input is cleared, the window stays open |
| ChatWidget.Widget.Submit | ai-chatbot-services/src/components/Chatbot.tsx:52-76 | in the open window: blank input changes nothing. Otherwise one user record with the untrimmed input is appended, the input is cleared, typing starts, and the transcript of the pre-submit list plus the input is sent. A sent transcript adds one pending reply. |
| ChatWidget.Widget.Complete | ai-chatbot-services/src/components/Chatbot.tsx:78-101 | only a pending submit can complete. Exactly one bot record (the reply or the error text) is appended to the current list, typing stops, and the pending count drops by one |
| ChatWidget.Widget.SendMessage | ai-chatbot-services/src/components/Chatbot.tsx:52-102 | an uninterrupted send adds exactly the user record and one bot reply to what was asked, or changes nothing on blank input |
| ChatWidget.StaleReplyAfterRefresh | ai-chatbot-services/src/components/Chatbot.tsx:35-101 | a refresh while a reply is awaited does not cancel it: after greeting, "hello", submit, refresh and the late reply, the list is the new greeting followed by that reply |
| ContactPage.Set | ai-chatbot-services/src/pages/ContactPage.tsx:24-29 | the named field takes the value; every other field is unchanged |
| ContactPage.SetOwnValue | ai-chatbot-services/src/pages/ContactPage.tsx:24-29 | writing a field's own value back changes nothing |
| ContactPage.SetTwice | ai-chatbot-services/src/pages/ContactPage.tsx:24-29 | the later of two writes to the same field wins |
| ContactPage.Params | ai-chatbot-services/src/pages/ContactPage.tsx:40-49 | name, e-mail and message are copied. Phone and company default to "Not provided", service and budget to "Not specified", each only when empty. The recipient is the fixed address |
| ContactPage.ContactForm.constructor | ai-chatbot-services/src/pages/ContactPage.tsx:8-22 | an empty form whose service is the preselected one (or empty), idle and not submitting |
| ContactPage.ContactForm.HandleChange | ai-chatbot-services/src/pages/ContactPage.tsx:24-29 | the form becomes `Set(old form, field, value)`; flags unchanged |
| ContactPage.RequiredFilled | ai-chatbot-services/src/pages/ContactPage.tsx:226-326 | no contract of its own: the `required` name, e-mail and message fields are non-empty; `StartSubmit` requires it |
| ContactPage.ContactForm.SubmitEnabled | ai-chatbot-services/src/pages/ContactPage.tsx:333-335 | no contract of its own: `disabled={isSubmitting}`; `StartSubmit` requires it, and `FinishSubmit` states that it holds again |
| ContactPage.ContactForm.StartSubmit | ai-chatbot-services/src/pages/ContactPage.tsx:31-56 | from an enabled button with the required fields filled, the sent parameters are `Params(form)` and the form is submitting |
| ContactPage.ContactForm.FinishSubmit | ai-chatbot-services/src/pages/ContactPage.tsx:52-84 | submitting stops. Status becomes success or error. Only a success schedules one reset, and the form is kept until that reset fires |
| ContactPage.ContactForm.ResetTimerFires | ai-chatbot-services/src/pages/ContactPage.tsx:61-73 | a pending reset empties every field (the preselected service too) and sets the status back to idle |
| ContactSection.Set | ai-chatbot-services/src/components/Contact.tsx:16-18 | the named field takes the value; every other field is unchanged |
| ContactSection.Params | ai-chatbot-services/src/components/Contact.tsx:31-40 | as on the contact page, with the phone always "Not provided" and the project type as the service |
| ContactSection.ParamsAgreeWithPage | ai-chatbot-services/src/components/Contact.tsx:31-40 | the section's parameters equal the page's parameters for the same data with an empty phone |
| ContactSection.ContactForm.constructor | ai-chatbot-services/src/components/Contact.tsx:7-20 | an empty form, not submitting |
| ContactSection.ContactForm.HandleChange | ai-chatbot-services/src/components/Contact.tsx:16-18 | the form becomes `Set(old form, field, value)` |
| ContactSection.RequiredFilled | ai-chatbot-services/src/components/Contact.tsx:108-178 | no contract of its own: the `required` name, e-mail and message fields are non-empty; `StartSubmit` requires it |
| ContactSection.ContactForm.SubmitEnabled | ai-chatbot-services/src/components/Contact.tsx:191 | no contract of its own: `disabled={isSubmitting}`; `StartSubmit` requires it, and `FinishSubmit` states that it holds again |
| ContactSection.ContactForm.StartSubmit | ai-chatbot-services/src/components/Contact.tsx:22-47 | from an enabled button with the required fields filled, the sent parameters are `Params(form)` |
| ContactSection.ContactForm.FinishSubmit | ai-chatbot-services/src/components/Contact.tsx:43-65 | submitting stops; a delivered message empties every field at once, a failure keeps the form |
| Portfolio.FilterByCategory | ai-chatbot-services/src/pages/PortfolioPage.tsx:82 | no contract of its own: `projects.filter(p => p.category === selected)`; characterized by `FilterIsSubsequence`, `FilterMembership` and `FilterAppend` |
| Portfolio.FilteredProjects | ai-chatbot-services/src/pages/PortfolioPage.tsx:80-82 | no contract of its own: "all" shows the table, any other selection the filter; characterized by the lemmas below |
| Portfolio.FilterIsSubsequence | ai-chatbot-services/src/pages/PortfolioPage.tsx:80-82 | the filtered list keeps the table's order (it is a subsequence) |
| Portfolio.FilterMembership | ai-chatbot-services/src/pages/PortfolioPage.tsx:82 | a project is shown exactly when it is in the table and its category is the selected one |
| Portfolio.FilterAppend | ai-chatbot-services/src/pages/PortfolioPage.tsx:82 | filtering distributes over concatenation |
| Portfolio.AllShowsEverything | ai-chatbot-services/src/pages/PortfolioPage.tsx:5-82 | the initial selection "all" shows the whole table |
| Portfolio.SelectedShowsItsCategory | ai-chatbot-services/src/pages/PortfolioPage.tsx:80-82 | any other selection shows, in table order, exactly the projects of that category |
| Portfolio.UnknownCategoryShowsNothing | ai-chatbot-services/src/pages/PortfolioPage.tsx:80-82 | a category no project has shows nothing |
| Portfolio.EachCategoryHasOneProject | ai-chatbot-services/src/pages/PortfolioPage.tsx:7-78 | each of the six category buttons other than "all" shows exactly one project |
| Text.Lower | Backend/chat.py:190 | lower-casing keeps the length and maps each character on its own |
| Text.Contains | ai-chatbot-services/src/services/openaiApi.ts:23-38 | no contract of its own: `includes` / Python `in` on strings; `ContainsIffOccurs` states it holds exactly when the word occurs at some position |
| Text.ContainsIffOccurs | ai-chatbot-services/src/services/openaiApi.ts:23 | the substring test holds exactly when the word occurs at some position |
| Text.ContainsAny | Backend/chat.py:193-195 | `any(word in q for word in words)` holds exactly when some listed word occurs |
| Text.Trim | ai-chatbot-services/src/components/Chatbot.tsx:54 | no contract of its own: JavaScript `trim` over its whitespace and line-terminator set; `TrimEmptyIffBlank` states when it is empty |
| Text.TrimEmptyIffBlank | ai-chatbot-services/src/components/Chatbot.tsx:54 | the trimmed input is empty exactly when every character is whitespace |
| Text.OrElse | ai-chatbot-services/src/services/openaiApi.ts:66 | `s \|\| fallback` on strings: the string unless it is empty |

## Left out

- Knowledge retrieval is not part of this model: index loading, `get_relevant_context` and `refresh_index` (LlamaIndex, embeddings, files on disk). The retrieved text is the `context` parameter of `Respond`/`GenerateResponse`. `get_default_knowledge` is kept as the constant `DefaultKnowledge`, but nothing uses it: the fallback that returns it belongs to retrieval, and `context` is a free parameter.
- The module-level singleton `get_optimized_chatbot`, the `__main__` demo and all logging are left out.
- `GeoBackend.Respond`: one `now` stands for both `datetime.now()` calls in a request, and ages are whole seconds. The source compares a float `total_seconds()`, so sub-second ages are not modelled.
- `GeoBackend.Respond`: the OpenAI SDK may return `None` as message content. The model's `Completion` always carries a string, and exceptions from the SDK are the `Failed` case.
- `GeoBackend.Respond`: an exception raised by the clean-up or by classification cannot happen in the model. The only error paths are the missing session after clean-up and a failed completion.
- `Text.Lower`: lower-casing covers ASCII letters only; Unicode case mapping is not modelled.
- `ChatWidget.Widget.Submit`: record ids are `now` and `now + 1` rather than their decimal strings, and timestamps are the same integer clock.
- The widget's client is `sendMessageToGroq`; the `groqApi` module is not part of this model, so the widget takes the remote call as a parameter (`None` stands for a thrown error). The fallback demo table in `openaiApi.ts` is modelled on its own and is not wired to the widget, as in the source.
- Scrolling, focus, animation and all rendering (framer-motion, Tailwind classes), the floating button's styling and the component's mount logging are left out.
- `ContactPage.ContactForm.StartSubmit` and `ContactSection.ContactForm.StartSubmit` require the fields the form marks `required` (name, e-mail, message). The browser's form validation enforces this before `handleSubmit` runs. E-mail format validation by the browser is not modelled.
- `emailjs.init`, the EmailJS service and template ids and the public key are left out; delivery is the `delivered` parameter. `alert` and `console` output are left out.
- The 3-second `setTimeout` of the contact page is an event (`ResetTimerFires`) that may happen at any later point, not a clock.
- Portfolio images, result lists and technology tags are presentation data and are not part of the `Project` record.

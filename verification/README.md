# TeleCare AI Concierge — a verified model of its text pipeline

TeleCare AI Concierge is a single Streamlit script (`telecare_app_v2.py`) in
which a telecom customer chats with a support "concierge". Behind the widgets
sits a small deterministic pipeline, and this project models it in Dafny:

- `simple_sentiment`, the keyword-and-punctuation classifier that labels a
  message angry, negative, positive or neutral (module `SentimentClassifier`);
- `generate_ai_reply_local`, the template reply keyed by the tone the sentiment
  selects and by the profile's flags, and the fail-soft wrapper
  `generate_ai_reply_openai` around a remote completion (module
  `ReplyGenerator`);
- `simulate_diagnostics` and the two hints the main script appends to a reply
  (module `DiagnosticsSimulator`);
- `create_ticket_from_context`, the backwards scan for the latest sentiment and
  the list update of `save_ticket` (module `TicketService`);
- the chat session kept in `st.session_state`: the message history, the
  `last_input` marker, the send step, the transcript and quick-action appends
  and the "transfer to human" escalation (module `Conversation`, class
  `ChatSession`);
- the Python string operations these rely on — `strip`, `lower`, `isupper`,
  `count`, the substring test `k in s`, `" ".join` and the decimal rendering of
  an integer (module `Text`) — and the records passed around (module
  `Records`).

Python dictionaries become datatypes; a key that may be missing is an
`Option`, and a key read only for its truth value is a `bool`. Character
classes are those of ASCII: `isspace` is tab through carriage return, the
separators 0x1C–0x1F and the space; `isupper` and `lower` concern `A`–`Z`. The
uppercase-ratio test `upper / max(1, len) > 0.35` is stated in integers as
`20 * upper > 7 * max(1, len)`. `random.choice` is a nondeterministic choice,
and clock readings, the remote service's answer and the parsed contents of
`tickets.json` are parameters.

The chat session is a class whose methods change its fields, proved against
the invariant `WellFormed`: the history starts with the welcome message, only
assistant replies carry `meta`, and every reply follows the user message whose
classification it records. The local reply is specified by the function
`LocalReply`: the method `GenerateLocalReply` builds it step by step and is
proved equal to it, and the method `CollectSuggestions`, which builds the
suggestion list, is proved equal to the function `Suggestions`. The ticket and
the ticket-file update are functions (`CreateTicket`, `SaveTicket`) that the
escalation method `Escalate` calls directly; only the backwards scan for the
latest sentiment is a loop, proved against the predicate
`LatestWithSentiment`.

Three behaviours of the program that may surprise a reader:

- The `last_input` marker holds the stripped message, not the raw field, and
  an empty submission still overwrites it with the empty string (see
  "Findings").
- A `tickets.json` that parses to a JSON value other than a list is not treated
  as empty: `append` fails and the ticket is not saved (`SaveTicket` returns
  `Err(StoredValueNotAList)`).
- The note put before the local reply when the remote call fails ends in a
  backslash and the letter `n`, because the Python literal escapes the
  backslash.

The model keeps the second and third as written and keeps the stored marker of
the first, but the session compares the field with the marker in stripped
form, so a padded field is handled once rather than on every rerun (see the
`Conversation.ChatSession.Rerun` line under "Left out").

## Model

| member | source | states |
|---|---|---|
| Text.IsSpace | telecare_app_v2.py:53 | the white space `strip()` removes, here and at line 322: tab through carriage return, 0x1C–0x1F and the space; a predicate used by `TrimStart`, `TrimEnd` and `StripEdges` |
| Text.IsUpper | telecare_app_v2.py:63 | `c.isupper()` for `A`–`Z`; a predicate used by `CountUpper`, `CountUpperAll` and `UpperOccurs` |
| Text.Lower | telecare_app_v2.py:55 | `text.lower()`, character by character for `A`–`Z`; no contract of its own, specified by `LowerAppend` (it distributes over concatenation) |
| Text.Strip | telecare_app_v2.py:322 | `str.strip()`; no contract of its own, specified by `StripSplit` and `StripEdges` (a blank front and back cut off, nothing blank left at either end) |
| Text.TrimStart | telecare_app_v2.py:322 | `lstrip`: the result is a suffix of the input, everything cut off is white space, and the result is empty or starts with a non-space character |
| Text.TrimEnd | telecare_app_v2.py:322 | `rstrip`: the result is a prefix of the input, everything cut off is white space, and the result is empty or ends with a non-space character |
| Text.StripSplit | telecare_app_v2.py:322 | `s` is a blank front, then `s.strip()`, then a blank back |
| Text.StripEdges | telecare_app_v2.py:322 | `s.strip()` is empty or neither starts nor ends with white space |
| Text.StripEmptyIff | telecare_app_v2.py:53 | `s.strip() == ""` exactly when every character of `s` is white space |
| Text.StripIdempotent | telecare_app_v2.py:322-323 | stripping twice gives what stripping once gives |
| Text.StripChangesPadded | telecare_app_v2.py:321-323 | a non-empty string that begins or ends with white space differs from its stripped form |
| Text.CountChar | telecare_app_v2.py:62 | `text.count("!")`; no contract of its own, specified by `CountCharAppend` and `CountCharOccurs` |
| Text.CountCharAppend | telecare_app_v2.py:62 | `(a + b).count(c)` is the sum of the two counts |
| Text.CountUpper | telecare_app_v2.py:63 | the count of upper-case characters; no contract of its own, specified by `CountUpperAll` and `UpperOccurs` |
| Text.CountUpperAll | telecare_app_v2.py:63 | in a string of capitals every character counts as upper case |
| Text.Contains | telecare_app_v2.py:64-68 | the substring test `k in text_l`; no contract of its own, specified by `ContainsIff` and `ContainsInfix` |
| Text.ContainsIff | telecare_app_v2.py:64 | the substring test `k in s` holds exactly when `k` occurs at some position of `s` |
| Text.JoinSpaces | telecare_app_v2.py:95-118 | `" ".join(parts)`; no contract of its own, specified by `JoinSpacesThree` (three parts with a single space between neighbours) |
| Text.Decimal | telecare_app_v2.py:179 | the decimal rendering of `n` is a non-empty string of digits, one digit long exactly when `n < 10`, ending in the digit `n % 10` |
| Text.DecimalInjective | telecare_app_v2.py:179 | different numbers render differently |
| SentimentClassifier.Label | telecare_app_v2.py:52-70 | every classification is one of the four labels "angry", "negative", "positive", "neutral" |
| SentimentClassifier.Classify | telecare_app_v2.py:52-70 | `simple_sentiment`; it has no contract of its own and is specified by `ClassifyDecision` and the lemmas below |
| SentimentClassifier.AnyKeyword | telecare_app_v2.py:64-68 | `any(k in text_l for k in keywords)`: some keyword of the list occurs in the text; a predicate used by `ClassifyDecision` |
| SentimentClassifier.MostlyUpper | telecare_app_v2.py:63 | the ratio test `uppercase_ratio > 0.35`, in integers; a predicate used by `ClassifyDecision` and `MostlyUpperIsAngry` |
| SentimentClassifier.AngerCue | telecare_app_v2.py:62-64 | the anger condition: two or more `!`, an upper-case ratio above 0.35, or an anger keyword in the lower-cased text; a predicate used by `ClassifyDecision`, with each cue stated alone by `ExclamationsAreAngry`, `MostlyUpperIsAngry` and `AngerKeywordIsAngry` |
| SentimentClassifier.ClassifyDecision | telecare_app_v2.py:52-70 | each label holds exactly when its rule is the first in priority order that fires: blank text is neutral, then the anger cues, then a negative keyword, then a positive keyword, else neutral |
| SentimentClassifier.BlankIsNeutral | telecare_app_v2.py:53-54 | empty and white-space-only messages are neutral |
| SentimentClassifier.ExclamationsAreAngry | telecare_app_v2.py:62-65 | two or more `!` make a message angry whatever keywords it holds |
| SentimentClassifier.DoubleBangIsAngry | telecare_app_v2.py:62-65 | appending "!!" to any message makes it angry |
| Text.UpperOccurs | telecare_app_v2.py:63 | a positive upper-case count means some character is a capital |
| SentimentClassifier.MostlyUpperIsAngry | telecare_app_v2.py:63-65 | any message in which more than 35% of the characters are capitals is angry, whatever keywords it holds |
| SentimentClassifier.ShoutingIsAngry | telecare_app_v2.py:63-65 | a non-empty message written entirely in capitals is angry |
| SentimentClassifier.AngerKeywordIsAngry | telecare_app_v2.py:55-65 | an anger keyword found in the lower-cased message makes it angry, whatever negative or positive keywords it also holds |
| SentimentClassifier.AngerInContext | telecare_app_v2.py:55-65 | an anger keyword with any text before and after it is angry |
| SentimentClassifier.SubstringMatchQuirk | telecare_app_v2.py:56-64 | keywords match as substrings: "I made a payment" holds "mad" and is classified angry |
| DiagnosticsSimulator.SimulateDiagnostics | telecare_app_v2.py:145-158 | a usage spike gives load high and the boost action; otherwise the load is normal or low and the action none; the billing check is "anomaly found" exactly when the profile has a billing anomaly |
| DiagnosticsSimulator.Annotate | telecare_app_v2.py:338-341 | the reply is an unchanged prefix, followed by the boost hint exactly when the boost action is suggested and ending in the billing sentence exactly when an anomaly was found |
| DiagnosticsSimulator.AnnotateFollowsProfile | telecare_app_v2.py:330-341 | whatever load was picked at random, the hints appended are decided by the profile's two flags alone |
| ReplyGenerator.ToneOf | telecare_app_v2.py:74-81 | angry gives the direct tone, negative the empathetic one, positive the upbeat one, and every other label, "neutral" and "unknown" included, the friendly one |
| ReplyGenerator.NameOf | telecare_app_v2.py:82 | the profile's name, or "Customer" when the key is missing; no contract of its own, read by `OpeningIgnoresFlags` |
| ReplyGenerator.PlanOf | telecare_app_v2.py:83 | the profile's plan, or "Standard" when the key is missing; no contract of its own, read by `SuggestionsReplaceFallback` |
| ReplyGenerator.NextBillOf | telecare_app_v2.py:84 | the profile's next bill, or "unknown" when the key is missing; no contract of its own, read by `SuggestionsReplaceFallback` |
| ReplyGenerator.Opening | telecare_app_v2.py:95-115 | the opening clause of each tone around the customer's name; no contract of its own, specified by `OpeningIgnoresFlags` and `AllFlagsAngryReply` |
| ReplyGenerator.Fallback | telecare_app_v2.py:95-118 | the clause each tone closes with when nothing is suggested; no contract of its own, specified by `SuggestionsReplaceFallback` |
| ReplyGenerator.SuggestionText | telecare_app_v2.py:85-94 | the text of each suggestion; no contract of its own, specified by `SuggestionTextInjective` |
| Records.Profile.HasTrip | telecare_app_v2.py:89 | the truth test on `upcoming_trip`: present and non-empty; a predicate used by `Suggestions` and `SuggestionPresentIff` |
| ReplyGenerator.Suggestions | telecare_app_v2.py:85-94 | one suggestion per set flag, in the order usage spike, upcoming trip, billing anomaly |
| ReplyGenerator.SuggestionPresentIff | telecare_app_v2.py:85-94 | the boost and billing suggestions are present exactly when their flags are set, and a roaming pack is offered exactly when a trip is set, for that destination only |
| ReplyGenerator.SuggestionTextInjective | telecare_app_v2.py:86-94 | two suggestions read the same exactly when they are the same suggestion; the roaming clause determines its destination |
| ReplyGenerator.Render | telecare_app_v2.py:85-98 | the clauses of a suggestion list are the suggestions' texts, in order |
| ReplyGenerator.CollectSuggestions | telecare_app_v2.py:85-94 | the list built up by the three conditional appends is `Suggestions(profile)` |
| ReplyGenerator.LocalReply | telecare_app_v2.py:73-119 | the reply of `generate_ai_reply_local`; it has no contract of its own and is specified by `OpeningIgnoresFlags`, `SuggestionsReplaceFallback` and `AllFlagsAngryReply` |
| ReplyGenerator.GenerateLocalReply | telecare_app_v2.py:73-119 | the reply built by `generate_ai_reply_local` is `LocalReply(sentiment, profile)` |
| ReplyGenerator.OpeningIgnoresFlags | telecare_app_v2.py:74-116 | the reply starts with the opening, which depends only on the sentiment and the customer's name, never on the flags or the plan |
| ReplyGenerator.SuggestionsReplaceFallback | telecare_app_v2.py:95-118 | after the opening comes either the suggestions joined by single spaces or, when there are none, the tone's fallback clause — never both |
| ReplyGenerator.AllFlagsAngryReply | telecare_app_v2.py:85-98 | an angry customer with all three flags hears the direct opening, then the boost, roaming and billing clauses separated by single spaces |
| ReplyGenerator.FallbackNote | telecare_app_v2.py:142 | the "(OpenAI error: …) Fallback to local reply:" note; no contract of its own, specified by `RemoteReply` |
| ReplyGenerator.UsesRemote | telecare_app_v2.py:332-333 | the remote strategy is used exactly when the API key is non-empty and the client library is available; a predicate used by `BaseReply` |
| ReplyGenerator.RemoteReply | telecare_app_v2.py:122-142 | a completion is returned stripped; on any failure the reply starts with the "(OpenAI error: " note and ends with exactly the local reply |
| ReplyGenerator.BaseReply | telecare_app_v2.py:331-337 | the remote strategy when a key is configured and the client library is available, the local one otherwise; it has no contract of its own, and `RemoteReply` states what the remote strategy returns |
| TicketService.TicketId | telecare_app_v2.py:179 | the id is "T" followed by decimal digits only |
| TicketService.TicketIdCollision | telecare_app_v2.py:179 | two tickets get the same id exactly when they are created in the same second |
| TicketService.LastMessages | telecare_app_v2.py:185 | `messages[-6:]` keeps `min(6, len)` messages and is a suffix of the history |
| TicketService.CreateTicket | telecare_app_v2.py:177-188 | the ticket's id comes from the clock reading, its customer id, name, sentiment and diagnostics are copied from the inputs, its conversation is the last six messages (all of them when fewer) and its status is open |
| Records.Message.HasSentiment | telecare_app_v2.py:371 | the test `m.get("meta") and m["meta"].get("sentiment")`: the message has meta with a non-empty sentiment; a predicate used by `LatestWithSentiment` and `LastSentiment` |
| TicketService.LastSentiment | telecare_app_v2.py:368-373 | the reverse scan returns the sentiment of the most recent message that has one, or "unknown" when no message has |
| TicketService.SaveTicket | telecare_app_v2.py:161-174 | a missing or unparsable file gives the list holding only the new ticket, a stored list gets the ticket appended, a stored non-list fails; on success the ticket's id is returned |
| TicketService.SaveAll | telecare_app_v2.py:161-174 | the ticket file after successive `save_ticket` calls, stopping at the first that fails; no contract of its own, specified by `SaveAllAppends` and `SaveFromScratch` |
| TicketService.SaveAllAppends | telecare_app_v2.py:163-173 | saving tickets one after another onto a readable list keeps every stored ticket and appends the new ones in order |
| TicketService.SaveFromScratch | telecare_app_v2.py:163-171 | two saves against a missing file leave exactly those two tickets; a save against an unparsable file discards its old contents |
| Conversation.InputTriggersAsWritten | telecare_app_v2.py:321 | the send test as written: the button was pressed, or the raw field is non-empty and differs from the marker; it has no contract of its own, and `PaddedInputRetriggers` states its flaw |
| Conversation.PaddedInputRetriggers | telecare_app_v2.py:321-323 | as written, a field that begins or ends with white space fires the send step again after it has been handled |
| Conversation.InputTriggers | telecare_app_v2.py:321-323 | the corrected send test, comparing the stripped field with the marker; no contract of its own, specified by `HandledInputSettles` and used by `ChatSession.Rerun` |
| Conversation.HandledInputSettles | telecare_app_v2.py:321-323 | with the field compared in stripped form, a handled field does not fire again until it changes, and on fields without surrounding white space the corrected and written tests agree |
| Conversation.AppendNote | telecare_app_v2.py:296-297 | appending a user message or a system note keeps the history well formed; this covers the transcripts appended here and at lines 312-313 and the quick-action notes at lines 357-358 and 362-363 |
| Conversation.AppendReply | telecare_app_v2.py:327-343 | appending, right after a user message, a reply that records that message's classification keeps the history well formed |
| Conversation.AppendExchange | telecare_app_v2.py:327-343 | appending a user message and then a reply that records its classification keeps the history well formed |
| Conversation.ComposeReply | telecare_app_v2.py:329-343 | the reply carries the classification of the message, diagnostics the profile can produce, and the configured strategy's text with the hints those diagnostics call for |
| Conversation.QuickActionText | telecare_app_v2.py:355-364 | the fixed system note of each quick-action button; no contract of its own, appended by `ChatSession.RecordQuickAction` |
| Conversation.ChatSession.constructor | telecare_app_v2.py:265-268 | a new session holds only the welcome message and no marker |
| Conversation.ChatSession.Rerun | telecare_app_v2.py:318-343 | the history only grows; without a trigger nothing changes; a trigger sets the marker to the stripped field, after which the same field no longer triggers; a blank message appends nothing; any other appends exactly the user message and then its reply |
| Conversation.ChatSession.Send | telecare_app_v2.py:324-343 | a non-blank message appends the user message and then the assistant reply to it, leaving the earlier history and the marker as they were |
| Conversation.ChatSession.AddTranscript | telecare_app_v2.py:296-313 | a transcribed message, from the microphone (lines 296-297) or an uploaded file (lines 312-313), is appended as a user message and nothing else changes |
| Conversation.ChatSession.RecordQuickAction | telecare_app_v2.py:355-364 | a quick-action button appends its fixed system note and nothing else changes |
| Conversation.ChatSession.Escalate | telecare_app_v2.py:366-376 | the ticket holds fresh diagnostics the profile can produce, the sentiment of the latest reply (the classification of the user message it answered) or "unknown" when there is none, the last six messages, and the file update of `save_ticket` |

## Left out

- The Streamlit page: layout, widgets, the message display, the warning for an empty message, the success banner and the reruns (`st.rerun`, `st.experimental_rerun`); each `Rerun` call stands for one run of the send step.
- The remote text-generation call itself (prompt, model choice, token limit, temperature): its answer is the parameter `RemoteOutcome`, and an exception's text is an abstract string.
- Speech recognition and text-to-speech: a transcript is the parameter of `AddTranscript`; speaking a reply changes no state.
- The 0.7-second sleep, and the two-to-one bias of `random.choice` toward "normal": the model only says which loads are possible.
- `time.time()` and `datetime.utcnow()`: the whole seconds since the epoch and the ISO time stamps are parameters.
- Reading and writing `tickets.json` and the JSON encoding: the file is the abstract outcome of reading and parsing it, and the elements of a stored list are taken to be tickets.
- Concurrent escalations from several sessions racing on the ticket file.
- The fixed demo customers and the sidebar toggles that flip a profile's flags.
- Non-ASCII letters and white space, which Python's `isupper`, `lower` and `strip` also handle.
- Profile keys present with the value `None` (which the f-strings would print as "None"); a key is either present with a value or missing.
- ReplyGenerator.CollectSuggestions: collects the suggestions as values of the datatype `Suggestion`, whose text `SuggestionText` gives when they are joined, where the program appends the texts themselves.
- Conversation.ChatSession.Rerun: uses the corrected send test `InputTriggers`; the test as written is `InputTriggersAsWritten`.

## Findings

| source | as written | input that shows it | evidently intended | confidence | as-written member | corrected member |
|---|---|---|---|---|---|---|
| telecare_app_v2.py:321-323 | the send test compares the raw text field with `last_input`, which holds the stripped message | a field holding "hello " (trailing space) after it was handled once: `last_input` is "hello", so the unchanged field fires the send step again, and `st.rerun()` makes this repeat on every run | an unchanged field is handled once | medium, not executed | Conversation.PaddedInputRetriggers | Conversation.HandledInputSettles |

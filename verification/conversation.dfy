/**
 * The chat session the main script keeps in `st.session_state`: the message
 * history and the `last_input` marker, the send step that classifies a
 * message and appends the reply, the other ways messages are appended, and
 * the escalation that turns the session into a saved ticket.
 *
 * The send step is guarded by a test that decides whether the text field is
 * new input. As written, the program compares the raw field with the marker,
 * which holds the stripped text; `InputTriggersAsWritten` models that test and
 * `PaddedInputRetriggers` shows the input that keeps firing it. The session
 * uses the corrected test `InputTriggers`.
 */
module Conversation {
  import opened Text
  import opened Records
  import opened SentimentClassifier
  import opened DiagnosticsSimulator
  import opened ReplyGenerator
  import opened TicketService

  // The fixed texts are written as concatenations of phrases; the verifier's
  // work on a string literal grows quickly with its length.
  const WelcomeText := "Welcome to TeleCare. " + "I am the AI Concierge. " + "How can I help?"

  /** The fixed texts of the two quick-action buttons. */
  datatype QuickAction = EnableBoost | OpenBillingInvestigation

  function QuickActionText(action: QuickAction): string {
    match action
    case EnableBoost =>
      "Temporary speed boost enabled " + "from 19:00\U{2013}22:00 tonight."
    case OpenBillingInvestigation =>
      "Billing investigation ticket created. "
      + "Ticket ID will be shown on transfer."
  }

  /** The send condition as written: the button was pressed, or the field is
      non-empty and differs from the marker. */
  function InputTriggersAsWritten(sendPressed: bool, userInput: string, lastInput: Option<string>): bool {
    sendPressed || (userInput != "" && lastInput != Some(userInput))
  }

  /** After a field that begins or ends with white space has been handled,
      the marker holds its stripped text, so the unchanged field fires the
      send step again on the next rerun, and every rerun after that. */
  lemma PaddedInputRetriggers(userInput: string)
    requires userInput != [] && (IsSpace(userInput[0]) || IsSpace(userInput[|userInput| - 1]))
    ensures InputTriggersAsWritten(false, userInput, Some(Strip(userInput)))
  {
    StripChangesPadded(userInput);
  }

  /** The send condition with the field compared in the form the marker
      stores it. */
  function InputTriggers(sendPressed: bool, userInput: string, lastInput: Option<string>): bool {
    sendPressed || (userInput != "" && lastInput != Some(Strip(userInput)))
  }

  /** A handled field does not fire again until it changes; on a field
      without surrounding white space the two conditions agree. */
  lemma {:induction false} HandledInputSettles(sendPressed: bool, userInput: string, lastInput: Option<string>)
    ensures !InputTriggers(false, userInput, Some(Strip(userInput)))
    ensures !InputTriggers(false, Strip(userInput), Some(Strip(userInput)))
    ensures userInput == Strip(userInput) ==>
              InputTriggers(sendPressed, userInput, lastInput)
              == InputTriggersAsWritten(sendPressed, userInput, lastInput)
  {
    StripIdempotent(userInput);
  }

  /** Message `i` is the most recent assistant reply. */
  predicate LatestReply(messages: seq<Message>, i: int) {
    0 < i < |messages| && messages[i].role == Assistant
    && forall j :: i < j < |messages| ==> messages[j].role != Assistant
  }

  /** `m` is the assistant reply to the user message `msg`: its sentiment is
      the classification of `msg`, its diagnostics are ones the profile can
      produce, and its text is the configured strategy's reply with the hints
      those diagnostics call for. */
  predicate RepliesTo(m: Message, msg: string, profile: Profile, env: ReplyEnvironment, time: string) {
    var sentiment := Label(Classify(msg));
    m.role == Assistant && m.time == Some(time) && m.meta.Some?
    && m.meta.value.sentiment == sentiment
    && PossibleFor(profile, m.meta.value.diagnostics)
    && m.text == Annotate(BaseReply(sentiment, profile, env), m.meta.value.diagnostics)
  }

  /** The history starts with the welcome message, only assistant replies
      carry `meta`, and each reply follows the user message whose
      classification it records. */
  predicate WellFormed(messages: seq<Message>) {
    |messages| >= 1 && messages[0] == Message(System, WelcomeText, None, None)
    && (forall i :: 0 <= i < |messages| ==> (messages[i].meta.Some? <==> messages[i].role == Assistant))
    && (forall i :: 0 <= i < |messages| && messages[i].role == Assistant ==>
          i > 0 && messages[i - 1].role == User
          && messages[i].meta.value.sentiment == Label(Classify(messages[i - 1].text)))
  }

  /** Appending a message that is not a reply keeps the history well formed. */
  lemma AppendNote(messages: seq<Message>, m: Message)
    requires WellFormed(messages) && m.role != Assistant && m.meta == None
    ensures WellFormed(messages + [m])
  {
    var s := messages + [m];
    forall i | 0 <= i < |s| && s[i].role == Assistant
      ensures i > 0 && s[i - 1].role == User && s[i].meta.value.sentiment == Label(Classify(s[i - 1].text))
    {
      assert i < |messages| && s[i] == messages[i] && s[i - 1] == messages[i - 1];
    }
  }

  /** Appending, right after a user message, a reply that records that
      message's classification keeps the history well formed. */
  lemma AppendReply(messages: seq<Message>, reply: Message)
    requires WellFormed(messages) && messages[|messages| - 1].role == User
    requires reply.role == Assistant && reply.meta.Some?
    requires reply.meta.value.sentiment == Label(Classify(messages[|messages| - 1].text))
    ensures WellFormed(messages + [reply])
  {
    var s := messages + [reply];
    forall i | 0 <= i < |s| && s[i].role == Assistant
      ensures i > 0 && s[i - 1].role == User && s[i].meta.value.sentiment == Label(Classify(s[i - 1].text))
    {
      if i < |messages| {
        assert s[i] == messages[i] && s[i - 1] == messages[i - 1];
      }
    }
  }

  /** A user message followed by the reply to it keeps the history well
      formed. */
  lemma AppendExchange(messages: seq<Message>, question: Message, answer: Message)
    requires WellFormed(messages) && question.role == User && question.meta == None
    requires answer.role == Assistant && answer.meta.Some?
    requires answer.meta.value.sentiment == Label(Classify(question.text))
    ensures WellFormed(messages + [question, answer])
  {
    AppendNote(messages, question);
    AppendReply(messages + [question], answer);
    assert messages + [question] + [answer] == messages + [question, answer];
  }

  /** The reply step for the stripped message `msg`: classify it, run the
      diagnostics, ask the configured strategy for a reply and append the
      hints the diagnostics call for. */
  method ComposeReply(msg: string, profile: Profile, env: ReplyEnvironment, replyTime: string)
    returns (answer: Message)
    ensures RepliesTo(answer, msg, profile, env, replyTime)
  {
    var sentiment := Label(Classify(msg));
    var diagnostics := SimulateDiagnostics(profile);
    var reply: string;
    if UsesRemote(env) {
      reply := RemoteReply(sentiment, profile, env.remote);
    } else {
      reply := GenerateLocalReply(msg, sentiment, profile);
    }
    ghost var base := reply;
    assert base == BaseReply(sentiment, profile, env);
    if diagnostics.suggestedAction == EnableTemporaryBoost {
      reply := reply + BoostHint;
    }
    if diagnostics.billingCheck == AnomalyFound {
      reply := reply + BillingNote;
    }
    assert reply == Annotate(base, diagnostics);
    answer := Message(Assistant, reply, Some(replyTime), Some(Meta(sentiment, diagnostics)));
  }

  class ChatSession {
    var messages: seq<Message>
    var lastInput: Option<string>

    ghost predicate Valid()
      reads this
    {
      WellFormed(messages)
    }

    /** A new session: the welcome message and no marker. */
    constructor ()
      ensures Valid()
      ensures messages == [Message(System, WelcomeText, None, None)] && lastInput == None
    {
      messages := [Message(System, WelcomeText, None, None)];
      lastInput := None;
    }

    /** One rerun of the send step with the text field `userInput`. When the
        condition fires, the marker becomes the stripped text; a blank text
        appends nothing, any other appends the user message and the reply. */
    method Rerun(sendPressed: bool, userInput: string, profile: Profile, env: ReplyEnvironment,
                 userTime: string, replyTime: string)
      requires Valid()
      modifies this
      ensures Valid()
      ensures |old(messages)| <= |messages| && messages[..|old(messages)|] == old(messages)
      ensures !InputTriggers(sendPressed, userInput, old(lastInput)) ==>
                messages == old(messages) && lastInput == old(lastInput)
      ensures InputTriggers(sendPressed, userInput, old(lastInput)) ==>
                lastInput == Some(Strip(userInput)) && !InputTriggers(false, userInput, lastInput)
      ensures Strip(userInput) == "" ==> messages == old(messages)
      ensures InputTriggers(sendPressed, userInput, old(lastInput)) && Strip(userInput) != "" ==>
                |messages| == |old(messages)| + 2
                && messages[|old(messages)|] == Message(User, Strip(userInput), Some(userTime), None)
                && RepliesTo(messages[|old(messages)| + 1], Strip(userInput), profile, env, replyTime)
    {
      if InputTriggers(sendPressed, userInput, lastInput) {
        var msg := Strip(userInput);
        lastInput := Some(msg);
        StripIdempotent(userInput);
        if msg != "" {
          Send(msg, profile, env, userTime, replyTime);
        }
      }
    }

    /** The handling of a non-blank stripped message: append it as the
        user's message, then the reply to it. */
    method Send(msg: string, profile: Profile, env: ReplyEnvironment, userTime: string, replyTime: string)
      requires Valid()
      modifies this
      ensures Valid() && lastInput == old(lastInput)
      ensures |messages| == |old(messages)| + 2 && messages[..|old(messages)|] == old(messages)
      ensures messages[|old(messages)|] == Message(User, msg, Some(userTime), None)
      ensures RepliesTo(messages[|old(messages)| + 1], msg, profile, env, replyTime)
    {
      var question := Message(User, msg, Some(userTime), None);
      var answer := ComposeReply(msg, profile, env, replyTime);
      AppendExchange(messages, question, answer);
      messages := messages + [question, answer];
    }

    /** A transcribed voice message is appended as a user message; it gets
        no reply of its own. */
    method AddTranscript(text: string, time: string)
      requires Valid()
      modifies this
      ensures Valid()
      ensures messages == old(messages) + [Message(User, text, Some(time), None)]
      ensures lastInput == old(lastInput)
    {
      AppendNote(messages, Message(User, text, Some(time), None));
      messages := messages + [Message(User, text, Some(time), None)];
    }

    /** A quick-action button appends its fixed system note. */
    method RecordQuickAction(action: QuickAction)
      requires Valid()
      modifies this
      ensures Valid()
      ensures messages == old(messages) + [Message(SystemInfo, QuickActionText(action), None, None)]
      ensures lastInput == old(lastInput)
    {
      AppendNote(messages, Message(SystemInfo, QuickActionText(action), None, None));
      messages := messages + [Message(SystemInfo, QuickActionText(action), None, None)];
    }

    /** "Transfer to human": fresh diagnostics, the sentiment of the latest
        reply (that is, the classification of the user message it answered),
        a ticket over the last six messages, and the ticket file's update. */
    method Escalate(profile: Profile, epochSeconds: nat, createdAt: string, file: LogFile)
      returns (ticket: Ticket, saved: Result<Saved, SaveError>)
      requires Valid()
      ensures PossibleFor(profile, ticket.diagnostics)
      ensures ticket == CreateTicket(messages, profile, ticket.diagnostics, ticket.sentiment, epochSeconds, createdAt)
      ensures (ticket.sentiment == "unknown" && forall j :: 0 <= j < |messages| ==> messages[j].role != Assistant)
              || exists i :: LatestReply(messages, i) && ticket.sentiment == Label(Classify(messages[i - 1].text))
      ensures saved == SaveTicket(file, ticket)
    {
      var diagnostics := SimulateDiagnostics(profile);
      var sentiment := LastSentiment(messages);
      forall j | 0 <= j < |messages|
        ensures messages[j].HasSentiment() <==> messages[j].role == Assistant
      {
        if messages[j].role == Assistant {
          assert Label(Classify(messages[j - 1].text)) != "";
        }
      }
      if sentiment != "unknown" || exists j :: 0 <= j < |messages| && messages[j].HasSentiment() {
        var i :| LatestWithSentiment(messages, i) && sentiment == messages[i].meta.value.sentiment;
        assert LatestReply(messages, i);
      }
      ticket := CreateTicket(messages, profile, diagnostics, sentiment, epochSeconds, createdAt);
      saved := SaveTicket(file, ticket);
    }
  }
}

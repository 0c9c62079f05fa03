/**
 * Escalation to a human: `create_ticket_from_context`, the backwards search
 * for the most recent sentiment, and the list update of `save_ticket`. The
 * clock readings (`time.time()`, `datetime.utcnow()`) are parameters, and the
 * ticket file is the abstract outcome of reading and parsing it.
 */
module TicketService {
  import opened Text
  import opened Records

  /** How many of the latest messages a ticket keeps (`messages[-6:]`). */
  const ConversationWindow := 6

  /** `f"T{int(time.time())}"` for the whole seconds since the epoch. */
  function TicketId(epochSeconds: nat): (id: string)
    ensures |id| >= 2 && id[0] == 'T'
    ensures forall i :: 1 <= i < |id| ==> '0' <= id[i] <= '9'
  {
    "T" + Decimal(epochSeconds)
  }

  /** Two tickets get the same id exactly when they are created within the
      same second. */
  lemma TicketIdCollision(a: nat, b: nat)
    ensures TicketId(a) == TicketId(b) <==> a == b
  {
    if TicketId(a) == TicketId(b) {
      assert Decimal(a) == TicketId(a)[1..] == TicketId(b)[1..] == Decimal(b);
    }
    DecimalInjective(a, b);
  }

  /** Python's `messages[-6:]`: the last six messages, or all of them when
      there are fewer. */
  function LastMessages(messages: seq<Message>): (r: seq<Message>)
    ensures |r| == if |messages| < ConversationWindow then |messages| else ConversationWindow
    ensures messages == messages[..|messages| - |r|] + r
  {
    if |messages| <= ConversationWindow then messages
    else messages[|messages| - ConversationWindow..]
  }

  /** `create_ticket_from_context`: an open ticket holding a copy of the last
      six messages and the profile's id and name as found (absent when the
      profile has none). */
  function CreateTicket(messages: seq<Message>, profile: Profile, diagnostics: Diagnostics,
                        sentiment: string, epochSeconds: nat, createdAt: string): (t: Ticket)
    ensures t.ticketId == TicketId(epochSeconds) && t.createdAt == createdAt
    ensures t.customerId == profile.id && t.customerName == profile.name
    ensures t.sentiment == sentiment && t.diagnostics == diagnostics
    ensures |t.conversation| <= ConversationWindow
    ensures |messages| <= ConversationWindow ==> t.conversation == messages
    ensures |messages| > ConversationWindow ==>
              t.conversation == messages[|messages| - ConversationWindow..]
    ensures t.status == Open
  {
    Ticket(TicketId(epochSeconds), createdAt, profile.id, profile.name,
           sentiment, diagnostics, LastMessages(messages), Open)
  }

  /** Message `i` is the most recent one that carries a sentiment. */
  predicate LatestWithSentiment(messages: seq<Message>, i: int) {
    0 <= i < |messages| && messages[i].HasSentiment()
    && forall j :: i < j < |messages| ==> !messages[j].HasSentiment()
  }

  /** The escalation's reverse scan: the sentiment of the most recent message
      whose `meta` has one, or "unknown" when no message has. */
  method LastSentiment(messages: seq<Message>) returns (sentiment: string)
    ensures (sentiment == "unknown" && forall j :: 0 <= j < |messages| ==> !messages[j].HasSentiment())
            || exists i :: LatestWithSentiment(messages, i) && sentiment == messages[i].meta.value.sentiment
  {
    sentiment := "unknown";
    var i := |messages|;
    while i > 0
      invariant 0 <= i <= |messages|
      invariant sentiment == "unknown"
      invariant forall j :: i <= j < |messages| ==> !messages[j].HasSentiment()
    {
      i := i - 1;
      if messages[i].HasSentiment() {
        sentiment := messages[i].meta.value.sentiment;
        assert LatestWithSentiment(messages, i);
        break;
      }
    }
  }

  /** What reading `tickets.json` yields: no file, a file `json.load` cannot
      parse, a JSON value that is not a list, or a list of tickets. */
  datatype LogFile = Absent | Unparsable | NotAList | TicketList(tickets: seq<Ticket>)

  /** The stored JSON value has no `append` (an uncaught AttributeError in
      the program; the file is left as it was). */
  datatype SaveError = StoredValueNotAList

  /** The list written back to the file and the id `save_ticket` returns. */
  datatype Saved = Saved(written: seq<Ticket>, ticketId: string)

  /** `save_ticket`: the stored list, or an empty one when the file is
      missing or unparsable, followed by the new ticket. */
  function SaveTicket(file: LogFile, ticket: Ticket): (r: Result<Saved, SaveError>)
    ensures r.Err? <==> file.NotAList?
    ensures r.Ok? ==> r.value.ticketId == ticket.ticketId
    ensures r.Ok? && file.TicketList? ==> r.value.written == file.tickets + [ticket]
    ensures r.Ok? && !file.TicketList? ==> r.value.written == [ticket]
  {
    match file
    case Absent => Ok(Saved([ticket], ticket.ticketId))
    case Unparsable => Ok(Saved([ticket], ticket.ticketId))
    case NotAList => Err(StoredValueNotAList)
    case TicketList(stored) => Ok(Saved(stored + [ticket], ticket.ticketId))
  }

  /** The file after a successful save. */
  function SaveAll(file: LogFile, tickets: seq<Ticket>): LogFile
    decreases tickets
  {
    if tickets == [] then file
    else
      match SaveTicket(file, tickets[0])
      case Ok(saved) => SaveAll(TicketList(saved.written), tickets[1..])
      case Err(_) => file
  }

  /** Saving tickets one after another onto a readable list keeps every
      stored ticket and appends the new ones in creation order. */
  lemma {:induction false} SaveAllAppends(stored: seq<Ticket>, tickets: seq<Ticket>)
    ensures SaveAll(TicketList(stored), tickets) == TicketList(stored + tickets)
    decreases tickets
  {
    if tickets == [] {
      assert stored + tickets == stored;
    } else {
      SaveAllAppends(stored + [tickets[0]], tickets[1..]);
      assert stored + [tickets[0]] + tickets[1..] == stored + tickets;
    }
  }

  /** Two tickets saved against a missing file leave exactly those two, in
      order; against an unparsable file, the old contents are dropped and only
      the new ticket remains. */
  lemma SaveFromScratch(t1: Ticket, t2: Ticket)
    ensures SaveAll(Absent, [t1, t2]) == TicketList([t1, t2])
    ensures SaveAll(Unparsable, [t2]) == TicketList([t2])
  {
    SaveAllAppends([t1], [t2]);
    SaveAllAppends([t2], []);
  }
}

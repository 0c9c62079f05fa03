/**
 * The records the concierge passes around. In the Python program they are
 * dictionaries; a key that may be missing is an `Option` here, and a key read
 * for its truth value (`profile.get("usage_spike")`) is a `bool` that is
 * false when the key is missing.
 */
module Records {

  datatype Option<+T> = None | Some(value: T) {
    function GetOr(default: T): T {
      match this
      case Some(v) => v
      case None => default
    }
  }

  datatype Result<+R, +E> = Ok(value: R) | Err(error: E)

  /** A customer record. `upcomingTrip` is Python-truthy when it holds a
      non-empty string. */
  datatype Profile = Profile(
    id: Option<string>,
    name: Option<string>,
    plan: Option<string>,
    nextBill: Option<string>,
    usageSpike: bool,
    upcomingTrip: Option<string>,
    billingAnomaly: bool,
    notes: string)
  {
    predicate HasTrip() {
      upcomingTrip.Some? && upcomingTrip.value != ""
    }
  }

  datatype WifiLoad = High | Normal | Low

  datatype SuggestedAction = EnableTemporaryBoost | NoAction

  datatype BillingCheck = AnomalyFound | BillingOk

  /** The dictionary `simulate_diagnostics` fills in: every key is always set. */
  datatype Diagnostics = Diagnostics(
    wifiLoad: WifiLoad,
    suggestedAction: SuggestedAction,
    billingCheck: BillingCheck)

  datatype Role = System | User | Assistant | SystemInfo

  /** The `meta` dictionary attached to an assistant message. */
  datatype Meta = Meta(sentiment: string, diagnostics: Diagnostics)

  /** A chat message. The welcome message and the quick-action notes carry no
      time stamp; only assistant replies carry `meta`. */
  datatype Message = Message(role: Role, text: string, time: Option<string>, meta: Option<Meta>)
  {
    /** `m.get("meta") and m["meta"].get("sentiment")` is truthy. */
    predicate HasSentiment() {
      meta.Some? && meta.value.sentiment != ""
    }
  }

  datatype Status = Open

  datatype Ticket = Ticket(
    ticketId: string,
    createdAt: string,
    customerId: Option<string>,
    customerName: Option<string>,
    sentiment: string,
    diagnostics: Diagnostics,
    conversation: seq<Message>,
    status: Status)
}

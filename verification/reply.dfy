/**
 * The two reply strategies: `generate_ai_reply_local`, a template keyed by the
 * tone the sentiment selects and by the profile's flags, and
 * `generate_ai_reply_openai`, whose remote completion is an input here and
 * which falls back to the local template when the remote call fails.
 */
module ReplyGenerator {
  import opened Text
  import opened Records

  datatype Tone = Direct | Empathetic | Upbeat | Friendly

  /** The tone for a sentiment label; any label other than the three named
      ones, "neutral" and "unknown" among them, is friendly. */
  function ToneOf(sentiment: string): (t: Tone)
    ensures t == Direct <==> sentiment == "angry"
    ensures t == Empathetic <==> sentiment == "negative"
    ensures t == Upbeat <==> sentiment == "positive"
  {
    if sentiment == "angry" then Direct
    else if sentiment == "negative" then Empathetic
    else if sentiment == "positive" then Upbeat
    else Friendly
  }

  /** `customer_profile.get(key, default)` for the three fields the template prints. */
  function NameOf(p: Profile): string { p.name.GetOr("Customer") }

  function PlanOf(p: Profile): string { p.plan.GetOr("Standard") }

  function NextBillOf(p: Profile): string { p.nextBill.GetOr("unknown") }

  // Long fixed texts are written as concatenations of phrases: the
  // verifier's work on a string literal grows quickly with its length.

  /** The opening clause of each tone. */
  function Opening(tone: Tone, name: string): string {
    match tone
    case Direct =>
      "Hi " + name + ". " + "I understand this is frustrating \U{2014} "
      + "here's what I will do immediately: "
    case Empathetic => "Sorry to hear that, " + name + ". " + "That's not the experience we want. "
    case Upbeat => "Great news, " + name + "! We're on it. "
    case Friendly => "Hello " + name + ", " + "thanks for reaching out. "
  }

  /** The clause each tone closes with when the profile suggests nothing. */
  function Fallback(tone: Tone, plan: string, nextBill: string): string {
    match tone
    case Direct =>
      "I'll run a quick diagnostics now " + "and escalate to a specialist if needed."
    case Empathetic =>
      "Let me check your connection " + "and billing details "
      + "and get back with a clear next step."
    case Upbeat => "Your " + plan + " plan looks healthy. " + "Next bill: " + nextBill + "."
    case Friendly => "How can I help you today?"
  }

  /** The proactive suggestions a profile can call for. */
  datatype Suggestion = SpeedBoost | RoamingPack(destination: string) | BillingInvestigation

  /** The roaming clause around its destination. */
  const TripIntro := "You're traveling to "
  const TripOffer := " soon. " + "Would you like us to enable " + "a roaming pack with 5GB " + "for the trip?"

  /** The clause each suggestion adds to the reply. */
  function SuggestionText(s: Suggestion): string {
    match s
    case SpeedBoost =>
      "We've detected " + "higher-than-usual evening usage \U{2014} "
      + "we can enable " + "a free temporary speed boost " + "from 19:00\U{2013}22:00 tonight."
    case RoamingPack(destination) => TripIntro + destination + TripOffer
    case BillingInvestigation =>
      "We noticed an unusual charge " + "in your last invoice \U{2014} "
      + "we've created a ticket " + "and can proactively investigate it now."
  }

  /** Different suggestions read differently: the three clauses differ in
      their first characters, and the roaming clause names its destination. */
  lemma SuggestionTextInjective(a: Suggestion, b: Suggestion)
    ensures SuggestionText(a) == SuggestionText(b) <==> a == b
  {
    if SuggestionText(a) == SuggestionText(b) {
      assert SuggestionText(a)[0] == SuggestionText(b)[0];
      assert SuggestionText(a)[2] == SuggestionText(b)[2];
      if a.RoamingPack? && b.RoamingPack? {
        AffixCancel(TripIntro, a.destination, b.destination, TripOffer);
      }
    }
  }

  /** The suggestions of a profile: one per set flag, in the order usage
      spike, upcoming trip, billing anomaly. */
  function Suggestions(p: Profile): (r: seq<Suggestion>)
    ensures |r| == (if p.usageSpike then 1 else 0) + (if p.HasTrip() then 1 else 0)
                   + (if p.billingAnomaly then 1 else 0)
    ensures p.usageSpike ==> r[0] == SpeedBoost
    ensures p.HasTrip() ==> r[if p.usageSpike then 1 else 0] == RoamingPack(p.upcomingTrip.value)
    ensures p.billingAnomaly ==> r[|r| - 1] == BillingInvestigation
  {
    (if p.usageSpike then [SpeedBoost] else [])
    + (if p.HasTrip() then [RoamingPack(p.upcomingTrip.value)] else [])
    + (if p.billingAnomaly then [BillingInvestigation] else [])
  }

  /** Each suggestion is made exactly when its flag is set, and the roaming
      pack is offered for the profile's own destination only. */
  lemma SuggestionPresentIff(p: Profile)
    ensures SpeedBoost in Suggestions(p) <==> p.usageSpike
    ensures BillingInvestigation in Suggestions(p) <==> p.billingAnomaly
    ensures forall d :: RoamingPack(d) in Suggestions(p) <==> p.HasTrip() && d == p.upcomingTrip.value
  {
    var r := Suggestions(p);
    forall d
      ensures RoamingPack(d) in r <==> p.HasTrip() && d == p.upcomingTrip.value
    {
      if RoamingPack(d) in r {
        var i :| 0 <= i < |r| && r[i] == RoamingPack(d);
        assert i == if p.usageSpike then 1 else 0;
      }
    }
  }

  /** The clauses of a list of suggestions, in order. */
  function Render(suggestions: seq<Suggestion>): (r: seq<string>)
    ensures |r| == |suggestions|
    ensures forall i :: 0 <= i < |r| ==> r[i] == SuggestionText(suggestions[i])
  {
    if suggestions == [] then []
    else [SuggestionText(suggestions[0])] + Render(suggestions[1..])
  }

  /** Three suggestions render to their three clauses. */
  lemma RenderThree(a: Suggestion, b: Suggestion, c: Suggestion)
    ensures Render([a, b, c]) == [SuggestionText(a), SuggestionText(b), SuggestionText(c)]
  {
    assert [a, b, c][1..] == [b, c] && [b, c][1..] == [c];
  }

  /** What `generate_ai_reply_local` returns: the tone's opening, then the
      suggestions' clauses joined by spaces, or the tone's fallback clause
      when there are none. */
  function LocalReply(sentiment: string, p: Profile): string {
    var tone := ToneOf(sentiment);
    var suggestions := Suggestions(p);
    Opening(tone, NameOf(p))
    + (if suggestions != [] then JoinSpaces(Render(suggestions)) else Fallback(tone, PlanOf(p), NextBillOf(p)))
  }

  /** The `suggestions` list `generate_ai_reply_local` builds up. */
  method CollectSuggestions(profile: Profile) returns (suggestions: seq<Suggestion>)
    ensures suggestions == Suggestions(profile)
  {
    suggestions := [];
    if profile.usageSpike {
      suggestions := suggestions + [SpeedBoost];
    }
    if profile.HasTrip() {
      suggestions := suggestions + [RoamingPack(profile.upcomingTrip.value)];
    }
    if profile.billingAnomaly {
      suggestions := suggestions + [BillingInvestigation];
    }
  }

  /** `generate_ai_reply_local`: the tone chosen from the sentiment, the
      suggestions collected from the profile, and the tone's opening followed
      by the joined suggestions or, when there are none, by the tone's
      fallback clause. The message itself is not consulted. */
  method GenerateLocalReply(userMsg: string, sentiment: string, profile: Profile) returns (reply: string)
    ensures reply == LocalReply(sentiment, profile)
  {
    var tone := ToneOf(sentiment);
    var name := profile.name.GetOr("Customer");
    var plan := profile.plan.GetOr("Standard");
    var nextBill := profile.nextBill.GetOr("unknown");
    var suggestions := CollectSuggestions(profile);
    reply := Opening(tone, name);
    if suggestions != [] {
      reply := reply + JoinSpaces(Render(suggestions));
    } else {
      reply := reply + Fallback(tone, plan, nextBill);
    }
  }

  /** The opening depends on the sentiment and the customer's name only: the
      flags and the plan change the rest of the reply, never its start. */
  lemma OpeningIgnoresFlags(sentiment: string, p: Profile, q: Profile)
    requires NameOf(p) == NameOf(q)
    ensures var o := Opening(ToneOf(sentiment), NameOf(p));
            |o| <= |LocalReply(sentiment, p)| && |o| <= |LocalReply(sentiment, q)|
            && LocalReply(sentiment, p)[..|o|] == LocalReply(sentiment, q)[..|o|] == o
  {
  }

  /** After the opening comes exactly one of two things: with suggestions to
      make, their clauses joined by single spaces and never the fallback
      clause; with none, the tone's fallback clause. */
  lemma SuggestionsReplaceFallback(sentiment: string, p: Profile)
    ensures p.usageSpike || p.HasTrip() || p.billingAnomaly ==>
              LocalReply(sentiment, p) == Opening(ToneOf(sentiment), NameOf(p)) + JoinSpaces(Render(Suggestions(p)))
    ensures !(p.usageSpike || p.HasTrip() || p.billingAnomaly) ==>
              LocalReply(sentiment, p)
              == Opening(ToneOf(sentiment), NameOf(p)) + Fallback(ToneOf(sentiment), PlanOf(p), NextBillOf(p))
  {
  }

  /** An angry customer with all three flags set hears the three clauses in
      the fixed order, separated by single spaces. */
  lemma AllFlagsAngryReply(p: Profile)
    requires p.usageSpike && p.HasTrip() && p.billingAnomaly
    ensures LocalReply("angry", p) ==
            Opening(Direct, NameOf(p))
            + (SuggestionText(SpeedBoost) + " " + SuggestionText(RoamingPack(p.upcomingTrip.value))
               + " " + SuggestionText(BillingInvestigation))
  {
    var boost, trip, billing := SpeedBoost, RoamingPack(p.upcomingTrip.value), BillingInvestigation;
    assert Suggestions(p) == [boost, trip, billing];
    RenderThree(boost, trip, billing);
    JoinSpacesThree(SuggestionText(boost), SuggestionText(trip), SuggestionText(billing));
  }

  /** What the remote text-generation service answered. */
  datatype RemoteOutcome = Completion(text: string) | Failure(error: string)

  /** Where the replies come from: the API key found in the environment,
      whether the client library imported, and the remote service's answer. */
  datatype ReplyEnvironment = ReplyEnvironment(apiKey: string, openAiAvailable: bool, remote: RemoteOutcome)

  /** `os.getenv("OPENAI_API_KEY", "") != "" and OPENAI_AVAILABLE`. */
  predicate UsesRemote(env: ReplyEnvironment) {
    env.apiKey != "" && env.openAiAvailable
  }

  const ErrorPrefix := "(OpenAI error: "

  /** The note put before the local reply when the remote call fails. The
      Python literal ends in an escaped backslash, so the note ends with a
      backslash and the letter n rather than a line break. */
  function FallbackNote(error: string): string {
    ErrorPrefix + error + ") Fallback to local " + "reply:\\n"
  }

  /** `generate_ai_reply_openai`: the stripped completion, or on any failure
      a visible note followed by exactly the local reply. */
  function RemoteReply(sentiment: string, p: Profile, outcome: RemoteOutcome): (r: string)
    ensures outcome.Completion? ==> r == Strip(outcome.text)
    ensures outcome.Failure? ==>
              |r| > |ErrorPrefix| + |LocalReply(sentiment, p)| && r[..|ErrorPrefix|] == ErrorPrefix
              && r[|r| - |LocalReply(sentiment, p)|..] == LocalReply(sentiment, p)
  {
    match outcome
    case Completion(text) => Strip(text)
    case Failure(error) => FallbackNote(error) + LocalReply(sentiment, p)
  }

  /** The reply before post-processing, from whichever strategy is configured. */
  function BaseReply(sentiment: string, p: Profile, env: ReplyEnvironment): string {
    if UsesRemote(env) then RemoteReply(sentiment, p, env.remote) else LocalReply(sentiment, p)
  }
}

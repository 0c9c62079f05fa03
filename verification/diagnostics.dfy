/**
 * `simulate_diagnostics` and the two hints the main script appends to a reply
 * when the diagnostics call for them. The 0.7-second sleep is left out and
 * `random.choice(["normal", "low", "normal"])` is a nondeterministic choice
 * between the two loads.
 */
module DiagnosticsSimulator {
  import opened Records

  /** The snapshots `simulate_diagnostics` can return for `profile`. */
  predicate PossibleFor(profile: Profile, d: Diagnostics) {
    (if profile.usageSpike
     then d.wifiLoad == High && d.suggestedAction == EnableTemporaryBoost
     else d.wifiLoad in {Normal, Low} && d.suggestedAction == NoAction)
    && d.billingCheck == (if profile.billingAnomaly then AnomalyFound else BillingOk)
  }

  /** `simulate_diagnostics`: the status is filled in key by key, the load
      picked at random when there is no usage spike. */
  method SimulateDiagnostics(profile: Profile) returns (d: Diagnostics)
    ensures PossibleFor(profile, d)
  {
    var wifiLoad: WifiLoad;
    var action: SuggestedAction;
    var billing: BillingCheck;
    if profile.usageSpike {
      wifiLoad := High;
      action := EnableTemporaryBoost;
    } else {
      wifiLoad :| wifiLoad == Normal || wifiLoad == Low;
      action := NoAction;
    }
    if profile.billingAnomaly {
      billing := AnomalyFound;
    } else {
      billing := BillingOk;
    }
    d := Diagnostics(wifiLoad, action, billing);
  }

  /** The two sentences the main script appends to a reply. */
  const BoostHint := " (Quick action available: " + "[Enable temporary boost])"

  const BillingNote :=
    " We've flagged a billing anomaly " + "and prepared an investigation ticket."

  /** The reply post-processing: the boost hint when a boost is suggested,
      then the billing note when an anomaly was found. */
  function Annotate(reply: string, d: Diagnostics): (r: string)
    ensures |r| == |reply| + (if d.suggestedAction == EnableTemporaryBoost then |BoostHint| else 0)
                           + (if d.billingCheck == AnomalyFound then |BillingNote| else 0)
    ensures r[..|reply|] == reply
    ensures d.suggestedAction == EnableTemporaryBoost ==> r[|reply|..|reply| + |BoostHint|] == BoostHint
    ensures d.billingCheck == AnomalyFound ==> r[|r| - |BillingNote|..] == BillingNote
  {
    var withBoost := if d.suggestedAction == EnableTemporaryBoost then reply + BoostHint else reply;
    if d.billingCheck == AnomalyFound then withBoost + BillingNote else withBoost
  }

  /** Whatever load the random choice picked, the hints a reply receives are
      decided by the profile's two flags alone. */
  lemma AnnotateFollowsProfile(reply: string, profile: Profile, d: Diagnostics)
    requires PossibleFor(profile, d)
    ensures Annotate(reply, d) == reply + (if profile.usageSpike then BoostHint else "")
                                        + (if profile.billingAnomaly then BillingNote else "")
  {
    var boost := if profile.usageSpike then BoostHint else "";
    var note := if profile.billingAnomaly then BillingNote else "";
    var withBoost := reply + boost;
    assert withBoost == if d.suggestedAction == EnableTemporaryBoost then reply + BoostHint else reply;
    assert withBoost + note == if d.billingCheck == AnomalyFound then withBoost + BillingNote else withBoost;
  }
}

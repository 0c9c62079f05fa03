/**
 * `simple_sentiment`: a keyword and punctuation heuristic that labels a
 * customer message angry, negative, positive or neutral.
 *
 * The uppercase-ratio test `upper / max(1, len) > 0.35` is stated in
 * integers as `20 * upper > 7 * max(1, len)`. The two agree on every length a
 * chat message can have: the double nearest 0.35 lies below 0.35 by far less
 * than the distance 1/(20 * len) between 0.35 and any other ratio with that
 * denominator, and a ratio equal to 7/20 rounds to that same double, so the
 * strict comparison is false in both forms.
 */
module SentimentClassifier {
  import opened Text

  datatype Sentiment = Angry | Negative | Positive | Neutral

  /** The label string the program stores and compares. */
  function Label(s: Sentiment): (r: string)
    ensures r in {"angry", "negative", "positive", "neutral"}
  {
    match s
    case Angry => "angry"
    case Negative => "negative"
    case Positive => "positive"
    case Neutral => "neutral"
  }

  const AngerKeywords: seq<string> :=
    ["angry", "furious", "mad", "hate", "unacceptable",
     "screw", "ripoff", "rip-off", "complain", "complaint", "outrage"]

  const NegativeKeywords: seq<string> :=
    ["bad", "slow", "slowly", "down", "disconnect", "disconnected", "issue",
     "problem", "terrible", "poor", "can't", "cannot", "unable", "overpriced", "expensive"]

  const PositiveKeywords: seq<string> :=
    ["thanks", "thank you", "great", "awesome",
     "love", "good", "nice", "perfect", "thanks!", "cheers"]

  /** `any(k in text for k in keywords)`. */
  predicate AnyKeyword(text: string, keywords: seq<string>) {
    exists k :: k in keywords && Contains(text, k)
  }

  function Max(a: int, b: int): int {
    if a < b then b else a
  }

  /** More than 35% of the characters are upper-case letters. */
  predicate MostlyUpper(text: string) {
    20 * CountUpper(text) > 7 * Max(1, |text|)
  }

  /** The cues that make a message angry whatever else it says. */
  predicate AngerCue(text: string) {
    CountChar(text, '!') >= 2 || MostlyUpper(text) || AnyKeyword(Lower(text), AngerKeywords)
  }

  /** `simple_sentiment(text)`. */
  function Classify(text: string): Sentiment {
    if text == "" || Strip(text) == "" then Neutral
    else if AngerCue(text) then Angry
    else if AnyKeyword(Lower(text), NegativeKeywords) then Negative
    else if AnyKeyword(Lower(text), PositiveKeywords) then Positive
    else Neutral
  }

  /** The decision, with the emptiness test stated as "white space only":
      each label holds exactly when its rule is the first one that fires. */
  lemma ClassifyDecision(text: string)
    ensures Classify(text) == Angry <==> !IsBlank(text) && AngerCue(text)
    ensures Classify(text) == Negative <==>
              !IsBlank(text) && !AngerCue(text) && AnyKeyword(Lower(text), NegativeKeywords)
    ensures Classify(text) == Positive <==>
              !IsBlank(text) && !AngerCue(text) && !AnyKeyword(Lower(text), NegativeKeywords)
              && AnyKeyword(Lower(text), PositiveKeywords)
    ensures Classify(text) == Neutral <==>
              IsBlank(text) || (!AngerCue(text) && !AnyKeyword(Lower(text), NegativeKeywords)
                                && !AnyKeyword(Lower(text), PositiveKeywords))
  {
    StripEmptyIff(text);
  }

  /** Empty and white-space-only messages are neutral. */
  lemma BlankIsNeutral(text: string)
    requires IsBlank(text)
    ensures Classify(text) == Neutral
  {
    StripEmptyIff(text);
  }

  /** A message that holds a character other than white space is not blank. */
  lemma NotBlankAt(text: string, i: int)
    requires 0 <= i < |text| && !IsSpace(text[i])
    ensures Strip(text) != ""
  {
    StripEmptyIff(text);
  }

  /** Two exclamation marks make a message angry, whatever keywords it holds. */
  lemma ExclamationsAreAngry(text: string)
    requires CountChar(text, '!') >= 2
    ensures Classify(text) == Angry
  {
    CountCharOccurs(text, '!');
    var i :| 0 <= i < |text| && text[i] == '!';
    NotBlankAt(text, i);
  }

  /** Appending "!!" to any message makes it angry. */
  lemma DoubleBangIsAngry(text: string)
    ensures Classify(text + "!!") == Angry
  {
    CountCharAppend(text, "!!", '!');
    ExclamationsAreAngry(text + "!!");
  }

  /** A message in which more than 35% of the characters are capitals is
      angry, whatever keywords it holds ("MY BILL IS WRONG", "WHY?"). */
  lemma MostlyUpperIsAngry(text: string)
    requires MostlyUpper(text)
    ensures Classify(text) == Angry
  {
    UpperOccurs(text);
    var i :| 0 <= i < |text| && IsUpper(text[i]);
    NotBlankAt(text, i);
  }

  /** A non-empty message written entirely in capitals is angry. */
  lemma ShoutingIsAngry(text: string)
    requires text != []
    requires forall i :: 0 <= i < |text| ==> IsUpper(text[i])
    ensures Classify(text) == Angry
  {
    CountUpperAll(text);
    NotBlankAt(text, 0);
  }

  /** An anger keyword anywhere in the lower-cased message makes it angry,
      whatever negative or positive keywords it holds as well. */
  lemma AngerKeywordIsAngry(text: string, k: string)
    requires k in AngerKeywords && Contains(Lower(text), k)
    ensures Classify(text) == Angry
  {
    ContainsIff(Lower(text), k);
    var i :| OccursAt(Lower(text), k, i);
    assert Lower(text)[i] == k[0];
    assert 'a' <= k[0] <= 'z';
    NotBlankAt(text, i);
  }

  /** An anger keyword, with anything before and after it, is angry. */
  lemma AngerInContext(before: string, k: string, after: string)
    requires k in AngerKeywords
    ensures Classify(before + k + after) == Angry
  {
    LowerAppend(before + k, after);
    LowerAppend(before, k);
    assert Lower(k) == k;  // every keyword is already lower case
    ContainsInfix(Lower(before), k, Lower(after));
    AngerKeywordIsAngry(before + k + after, k);
  }

  /** Keywords match as substrings, not as words: "made" holds "mad", so a
      message about a payment reads as angry. */
  lemma SubstringMatchQuirk()
    ensures Classify("I made a payment") == Angry
  {
    var before, after := "I ", "e a payment";
    assert before + "mad" + after == "I made a payment";
    AngerInContext(before, "mad", after);
  }
}

/**
 * The sentiment scorer (`analyze_sentiment`) and the coping-tip lookup
 * (`provide_coping_strategy`). The base polarity the scorer starts from
 * comes from an external estimator and is a parameter here; polarities are
 * exact reals.
 */
module Mood {
  import opened TextOps

  /** The five labels `analyze_sentiment` returns, ordered from worst to best by `Rank`. */
  datatype Sentiment = VeryPositive | Positive | Neutral | Negative | VeryNegative
  {
    /** The label string the source returns and stores in the mood tracker. */
    function Name(): string {
      match this
      case VeryPositive => "Very Positive"
      case Positive => "Positive"
      case Neutral => "Neutral"
      case Negative => "Negative"
      case VeryNegative => "Very Negative"
    }

    function Rank(): nat {
      match this
      case VeryNegative => 0
      case Negative => 1
      case Neutral => 2
      case Positive => 3
      case VeryPositive => 4
    }

    /** The band of polarities the label stands for. */
    predicate Covers(p: real) {
      match this
      case VeryPositive => 0.5 < p
      case Positive => 0.1 < p <= 0.5
      case Neutral => -0.1 <= p <= 0.1
      case Negative => -0.5 < p < -0.1
      case VeryNegative => p <= -0.5
    }
  }

  const NegativeWords: seq<string> :=
    ["stress", "stressed", "anxious", "sad", "depressed", "overwhelmed", "angry", "panic", "worried", "fear"]
  const PositiveWords: seq<string> :=
    ["happy", "excited", "great", "good", "awesome", "love", "amazing", "confident"]

  /** How far one keyword group moves the polarity. */
  const KeywordShift: real := 0.6

  function Min(a: real, b: real): real { if a <= b then a else b }
  function Max(a: real, b: real): real { if a >= b then a else b }

  /** `max(-1, min(1, p))`. */
  function Clamp(p: real): (r: real)
    ensures -1.0 <= r <= 1.0
    ensures -1.0 <= p <= 1.0 ==> r == p
    ensures p > 1.0 ==> r == 1.0
    ensures p < -1.0 ==> r == -1.0
  {
    Max(-1.0, Min(1.0, p))
  }

  /** Clamping never reverses the order of two polarities. */
  lemma ClampMonotone(p: real, q: real)
    requires p <= q
    ensures Clamp(p) <= Clamp(q)
  {
  }

  /** The if/elif chain that turns a clamped polarity into a label. */
  function LabelOf(p: real): (l: Sentiment)
    ensures l.Covers(p)
  {
    if p > 0.5 then VeryPositive
    else if 0.1 < p <= 0.5 then Positive
    else if -0.1 <= p <= 0.1 then Neutral
    else if -0.5 < p < -0.1 then Negative
    else VeryNegative
  }

  /** The chain picks exactly the label whose band holds the polarity. */
  lemma LabelOfCovers(p: real, l: Sentiment)
    ensures LabelOf(p) == l <==> l.Covers(p)
  {
  }

  /** The five bands are pairwise disjoint and together cover every polarity. */
  lemma BandsPartition(p: real)
    ensures LabelOf(p).Covers(p)
    ensures forall l1: Sentiment, l2: Sentiment :: l1.Covers(p) && l2.Covers(p) ==> l1 == l2
  {
  }

  /** A higher polarity never gets a lower label. */
  lemma LabelMonotone(p: real, q: real)
    requires p <= q
    ensures LabelOf(p).Rank() <= LabelOf(q).Rank()
  {
  }

  /** The polarity after the keyword adjustments and before the clamp. */
  function Adjusted(text: string, basePolarity: real): (p: real)
    ensures basePolarity - KeywordShift <= p <= basePolarity + KeywordShift
  {
    var lowered := Lower(text);
    var afterNegative := if ContainsAny(lowered, NegativeWords) then basePolarity - KeywordShift else basePolarity;
    if ContainsAny(lowered, PositiveWords) then afterNegative + KeywordShift else afterNegative
  }

  /** `analyze_sentiment(text)` given the estimator's base polarity for `text`. */
  function AnalyzeSentiment(text: string, basePolarity: real): (res: (Sentiment, real))
    ensures -1.0 <= res.1 <= 1.0
    ensures res.0.Covers(res.1)
  {
    var polarity := Clamp(Adjusted(text, basePolarity));
    LabelOfCovers(polarity, LabelOf(polarity));
    (LabelOf(polarity), polarity)
  }

  /** What the keyword groups found in `text` do to the base polarity. */
  lemma KeywordEffect(text: string, basePolarity: real)
    ensures var neg, pos := SomeOccurs(NegativeWords, Lower(text)), SomeOccurs(PositiveWords, Lower(text));
            var p := AnalyzeSentiment(text, basePolarity).1;
            (neg && !pos ==> p == Clamp(basePolarity - KeywordShift)) &&
            (pos && !neg ==> p == Clamp(basePolarity + KeywordShift)) &&
            (neg == pos ==> p == Clamp(basePolarity))
  {
  }

  /** With a negative keyword and no positive one, the pre-clamp polarity drops by the keyword shift. */
  lemma NegativeKeywordLowers(text: string, basePolarity: real)
    requires SomeOccurs(NegativeWords, Lower(text)) && !SomeOccurs(PositiveWords, Lower(text))
    ensures Adjusted(text, basePolarity) <= basePolarity - KeywordShift
    ensures basePolarity < 0.5 ==> AnalyzeSentiment(text, basePolarity).0 in {Negative, VeryNegative}
  {
  }

  /** With a positive keyword and no negative one, any base polarity above -0.5 ends positive. */
  lemma PositiveKeywordRaises(text: string, basePolarity: real)
    requires SomeOccurs(PositiveWords, Lower(text)) && !SomeOccurs(NegativeWords, Lower(text))
    ensures Adjusted(text, basePolarity) >= basePolarity + KeywordShift
    ensures basePolarity > -0.5 ==> AnalyzeSentiment(text, basePolarity).0 in {Positive, VeryPositive}
  {
  }

  /** Every keyword is at least three characters long, so a shorter text scores its base polarity, clamped. */
  lemma ShortTextKeepsBase(text: string, basePolarity: real)
    requires |text| < 3
    ensures AnalyzeSentiment(text, basePolarity) == (LabelOf(Clamp(basePolarity)), Clamp(basePolarity))
  {
    TooShortForAny(NegativeWords, text);
    TooShortForAny(PositiveWords, text);
  }

  /** "sad" with a neutral base polarity: too short for any positive keyword, so 0 - 0.6 is very negative. */
  lemma ExampleSad()
    ensures AnalyzeSentiment("sad", 0.0) == (VeryNegative, -0.6)
  {
    TooShortForAny(PositiveWords, "sad");
    assert NegativeWords[3] == "sad";
    assert Clamp(0.0 - 0.6) == -0.6 && LabelOf(-0.6) == VeryNegative;
    SomeInLower(NegativeWords, "sad", 3, 0);
  }

  // ---------------------------------------------------------------------
  // Coping tips
  // ---------------------------------------------------------------------

  const Strategies: map<string, string> := map[
    "Very Positive" := "Keep spreading your positive energy 🌟",
    "Positive" := "It's nice to see you're feeling good 🙂",
    "Neutral" := "Try doing something you enjoy today 💫",
    "Negative" := "Take a deep breath. You're not alone 💙",
    "Very Negative" := "I'm here for you. Consider talking to someone you trust 💙"
  ]

  const DefaultTip: string := "Stay strong 💪"

  /** `provide_coping_strategy(sentiment)`: the listed tip, or the default for any other string. */
  function CopingStrategy(sentiment: string): (tip: string)
    ensures sentiment in Strategies ==> tip == Strategies[sentiment]
    ensures tip == DefaultTip <==> sentiment !in Strategies
  {
    if sentiment in Strategies then Strategies[sentiment] else DefaultTip
  }

  /** The strategy table has a tip for each label and for nothing else. */
  lemma StrategiesAreLabels()
    ensures forall l: Sentiment :: l.Name() in Strategies
    ensures forall k :: k in Strategies ==> exists l: Sentiment :: l.Name() == k
  {
    assert VeryPositive.Name() == "Very Positive" && Positive.Name() == "Positive";
    assert Neutral.Name() == "Neutral" && Negative.Name() == "Negative";
    assert VeryNegative.Name() == "Very Negative";
  }

  /** Different labels get different tips, and none of them gets the default. */
  lemma CopingTipsDistinct(l1: Sentiment, l2: Sentiment)
    ensures CopingStrategy(l1.Name()) != DefaultTip
    ensures l1 != l2 ==> CopingStrategy(l1.Name()) != CopingStrategy(l2.Name())
  {
  }
}

/** The fake server's text emotion estimate: a lexicon score with negation and
    emphasis, an ordered keyword-category boost, an "I feel ..." override, and a
    thresholded confidence rounded to two decimals. */
module Emotion {
  import opened Wrappers
  import opened Strings

  datatype Emotion = Neutral | Happy | Sad | Angry | Stressed

  function Label(e: Emotion): string {
    match e
    case Neutral => "neutral"
    case Happy => "happy"
    case Sad => "sad"
    case Angry => "angry"
    case Stressed => "stressed"
  }

  datatype Estimate = Estimate(emotion: Emotion, confidence: real)

  // ---------------------------------------------------------------- lexicon

  /** Word weights: positive words above zero, negative words below. */
  const Lexicon: map<string, real> := map[
    "happy" := 1.0, "great" := 1.0, "good" := 0.9, "fine" := 0.8, "thanks" := 0.9,
    "thank" := 0.9, "thankyou" := 0.9, "thank_you" := 0.9, "awesome" := 1.0,
    "amazing" := 1.0, "ok" := 0.3, "okay" := 0.4,
    "sorry" := -0.6, "sad" := -1.0, "upset" := -0.9, "lonely" := -0.8,
    "frustrated" := -0.9, "frustrating" := -0.85, "angry" := -1.0, "mad" := -0.9,
    "panic" := -0.95, "scared" := -0.9, "scaredy" := -0.6, "help" := -0.8,
    "terrible" := -1.0, "awful" := -1.0, "bored" := -0.4]

  const NegationWords: set<string> := {"not", "don't", "didn't", "never", "no", "hardly", "cannot", "can't"}

  const EmphasisWords: set<string> := {"very", "so", "really", "extremely"}

  predicate IsTokenChar(c: char) { 'a' <= c <= 'z' || '0' <= c <= '9' }

  /** `t.split(/[^a-z0-9]+/).filter(Boolean)`. */
  function Tokens(t: string): (r: seq<string>)
    ensures forall k, j :: 0 <= k < |r| && 0 <= j < |r[k]| ==> IsTokenChar(r[k][j])
  {
    Runs(t, IsTokenChar)
  }

  predicate NegatedBy(tokens: seq<string>, j: int) { 0 <= j < |tokens| && tokens[j] in NegationWords }

  predicate EmphasisedBy(tokens: seq<string>, j: int) { 0 <= j < |tokens| && tokens[j] in EmphasisWords }

  /** The contribution of lexicon token `i`, in the order the source applies the
      adjustments: negation by the previous token, then by the one before, then
      emphasis by each. */
  function TokenWeight(tokens: seq<string>, i: nat): real
    requires i < |tokens| && tokens[i] in Lexicon
  {
    var w0 := Lexicon[tokens[i]];
    var w1 := if NegatedBy(tokens, i - 1) then -w0 else w0;
    var w2 := if NegatedBy(tokens, i - 2) then -w1 else w1;
    var w3 := if EmphasisedBy(tokens, i - 1) then w2 * 1.5 else w2;
    if EmphasisedBy(tokens, i - 2) then w3 * 1.3 else w3
  }

  /** Sum of the weights of the lexicon tokens among the first `n`. */
  function LexSum(tokens: seq<string>, n: nat): real
    requires n <= |tokens|
  {
    if n == 0 then 0.0
    else LexSum(tokens, n - 1) + (if tokens[n - 1] in Lexicon then TokenWeight(tokens, n - 1) else 0.0)
  }

  /** Number of lexicon tokens among the first `n`. */
  function LexCount(tokens: seq<string>, n: nat): (c: nat)
    requires n <= |tokens|
    ensures c <= n
  {
    if n == 0 then 0 else LexCount(tokens, n - 1) + (if tokens[n - 1] in Lexicon then 1 else 0)
  }

  /** The lexicon score: the mean weight of the lexicon tokens, or the (zero) sum
      divided by the token count when none occurs. */
  function LexScore(tokens: seq<string>): real {
    var sum := LexSum(tokens, |tokens|);
    var matched := LexCount(tokens, |tokens|);
    if matched > 0 then sum / (matched as real)
    else if |tokens| > 0 then sum / (|tokens| as real)
    else sum
  }

  /** The scoring loop of `predictEmotion`. */
  method ScoreTokens(tokens: seq<string>) returns (score: real, matched: nat)
    ensures score == LexSum(tokens, |tokens|) && matched == LexCount(tokens, |tokens|)
  {
    score, matched := 0.0, 0;
    var i := 0;
    while i < |tokens|
      invariant 0 <= i <= |tokens|
      invariant score == LexSum(tokens, i) && matched == LexCount(tokens, i)
    {
      var tok := tokens[i];
      if tok in Lexicon {
        var weight := Lexicon[tok];
        if i >= 1 && tokens[i - 1] in NegationWords { weight := -weight; }
        if i >= 2 && tokens[i - 2] in NegationWords { weight := -weight; }
        if i >= 1 && tokens[i - 1] in EmphasisWords { weight := weight * 1.5; }
        if i >= 2 && tokens[i - 2] in EmphasisWords { weight := weight * 1.3; }
        matched := matched + 1;
        score := score + weight;
      }
      i := i + 1;
    }
  }

  // ---------------------------------------------------------------- categories

  const AngryWords: seq<string> := ["angry", "frustrat", "mad", "irritat", "annoyed", "furious"]
  const StressedWords: seq<string> := ["help", "panic", "emergency", "scared"]
  const SadWords: seq<string> := ["sad", "upset", "lonely"]
  const HappyWords: seq<string> := ["great", "good", "happy", "fine", "thanks", "thank you"]

  /** The keyword category, tested in the order angry, stressed, sad, happy. */
  function Boost(t: string): (r: Option<Emotion>)
    ensures r == Some(Angry) <==> ContainsAny(t, AngryWords)
    ensures r == Some(Stressed) <==> !ContainsAny(t, AngryWords) && ContainsAny(t, StressedWords)
    ensures r == Some(Sad) <==> !ContainsAny(t, AngryWords) && !ContainsAny(t, StressedWords) && ContainsAny(t, SadWords)
    ensures r == Some(Happy) <==>
      !ContainsAny(t, AngryWords) && !ContainsAny(t, StressedWords) && !ContainsAny(t, SadWords) && ContainsAny(t, HappyWords)
    ensures r != Some(Neutral)
  {
    if ContainsAny(t, AngryWords) then Some(Angry)
    else if ContainsAny(t, StressedWords) then Some(Stressed)
    else if ContainsAny(t, SadWords) then Some(Sad)
    else if ContainsAny(t, HappyWords) then Some(Happy)
    else None
  }

  // ---------------------------------------------------------------- "I feel ..."

  const Adverbs: seq<string> := ["very", "so", "really"]
  const Adjectives: seq<string> := ["happy", "sad", "scared", "angry", "frustrated", "upset", "lonely", "good", "fine"]

  /** The emotion an adjective of the "feel" pattern names. */
  function AdjectiveEmotion(adj: string): Emotion {
    if adj in {"happy", "good", "fine"} then Happy
    else if adj in {"sad", "upset", "lonely"} then Sad
    else if adj in {"frustrated", "angry"} then Angry
    else Stressed
  }

  /** The score floor the pattern sets for an adjective. */
  function AdjectiveFloor(adj: string): real {
    if adj == "happy" then 0.6 else if adj == "scared" then -0.6 else if adj == "sad" then -0.7 else 0.6
  }

  /** First adjective (from `k` on) at `q` followed by a word boundary. */
  function AdjectiveAt(t: string, q: nat, k: nat): (r: Option<nat>)
    requires k <= |Adjectives|
    ensures r.Some? ==> r.value < |Adjectives|
    decreases |Adjectives| - k
  {
    if k == |Adjectives| then None
    else if PrefixAt(t, q, Adjectives[k]) && Boundary(t, q + |Adjectives[k]|) then Some(k)
    else AdjectiveAt(t, q, k + 1)
  }

  /** The pattern with its optional adverb group taken, trying adverbs in order. */
  function WithAdverb(t: string, q: nat, k: nat): (r: Option<(Option<nat>, nat)>)
    requires q <= |t| && k <= |Adverbs|
    ensures r.Some? ==> r.value.0.Some? && r.value.0.value < |Adverbs| && r.value.1 < |Adjectives|
    decreases |Adverbs| - k
  {
    if k == |Adverbs| then None
    else if PrefixAt(t, q, Adverbs[k]) then
      var q1 := q + |Adverbs[k]|;
      var n1 := SpaceRun(t, q1);
      var adj := AdjectiveAt(t, q1 + n1, 0);
      if n1 > 0 && adj.Some? then Some((Some(k), adj.value)) else WithAdverb(t, q, k + 1)
    else WithAdverb(t, q, k + 1)
  }

  /** `\bfeel(?:\s+(very|so|really))?\s+(happy|...|fine)\b` matching at `i`:
      the adverb index, if any, and the adjective index. */
  function FeelAt(t: string, i: nat): (r: Option<(Option<nat>, nat)>)
    ensures r.Some? ==> (r.value.0.Some? ==> r.value.0.value < |Adverbs|) && r.value.1 < |Adjectives|
  {
    if !(PrefixAt(t, i, "feel") && Boundary(t, i)) then None
    else
      var n := SpaceRun(t, i + 4);
      if n == 0 then None
      else match WithAdverb(t, i + 4 + n, 0)
        case Some(m) => Some(m)
        case None =>
          match AdjectiveAt(t, i + 4 + n, 0)
          case Some(a) => Some((None, a))
          case None => None
  }

  /** The leftmost "feel" match: whether an adverb was present, and the adjective. */
  function FeelMatch(t: string): (r: Option<(bool, string)>)
    ensures r.Some? ==> r.value.1 in Adjectives
  {
    match Leftmost(|t|, (i: nat) => FeelAt(t, i), 0)
    case Some((_, m)) => Some((m.0.Some?, Adjectives[m.1]))
    case None => None
  }

  // ---------------------------------------------------------------- confidence

  function Abs(x: real): real { if x < 0.0 then -x else x }
  function Min(a: real, b: real): real { if a <= b then a else b }
  function Max(a: real, b: real): real { if a >= b then a else b }

  /** `Number(x.toFixed(2))` on a non-negative value, taken over exact reals: to the
      nearest hundredth, halves rounded up. The source rounds the double nearest to
      `x`, which can lie just below a halfway point and then rounds down. */
  function Round2(x: real): (r: real)
    ensures (r * 100.0).Floor as real == r * 100.0
    ensures x - 0.005 < r <= x + 0.005
  {
    ((x * 100.0 + 0.5).Floor as real) / 100.0
  }

  /** Label and unrounded confidence from the detected category and the score. */
  function Decide(detected: Option<Emotion>, score: real): (r: Estimate)
    requires detected != Some(Neutral)
    ensures 0.35 <= r.confidence <= 0.95
    ensures detected.Some? ==> r.emotion == detected.value
    ensures r.emotion == Angry ==> r.confidence >= 0.75
    ensures r.emotion == Stressed ==> r.confidence >= 0.65
    ensures detected.None? ==> (r.emotion == Neutral <==> -0.5 < score < 0.5)
    ensures detected.None? && r.emotion != Neutral ==> r.confidence == 0.85
  {
    match detected
    case Some(e) =>
      var c := 0.5 + Min(0.45, Abs(score));
      var c1 := if e == Angry then Max(c, 0.75) else c;
      Estimate(e, if e == Stressed then Max(c1, 0.65) else c1)
    case None =>
      if score <= -0.5 then Estimate(Sad, Min(0.85, 0.45 + Abs(score)))
      else if score >= 0.5 then Estimate(Happy, Min(0.85, 0.45 + score))
      else Estimate(Neutral, 0.35 + Abs(score) * 0.35)
  }

  /** The final clamp of the confidence into [0, 1] after rounding. */
  function Clamp(c: real): (r: real)
    ensures 0.0 <= r <= 1.0
    ensures 0.0 <= Round2(c) <= 1.0 ==> r == Round2(c)
  {
    Max(0.0, Min(1.0, Round2(c)))
  }

  /** `predictEmotion(text)` from its parts: the loop's score, the category, the
      "feel" override. */
  function EstimateOf(text: string): (r: Estimate)
    ensures 0.35 <= r.confidence <= 0.95
    ensures r.emotion == Angry ==> r.confidence >= 0.75
    ensures r.emotion == Stressed ==> r.confidence >= 0.65
  {
    var t := Lower(text);
    var score := LexScore(Tokens(t));
    var feel := FeelMatch(t);
    var detected := if feel.Some? then Some(AdjectiveEmotion(feel.value.1)) else Boost(t);
    var finalScore :=
      if feel.Some? then
        var s := Max(score, AdjectiveFloor(feel.value.1));
        if feel.value.0 then s * 1.3 else s
      else score;
    var d := Decide(detected, finalScore);
    RoundKeepsBounds(d.confidence);
    Estimate(d.emotion, Clamp(d.confidence))
  }

  /** `predictEmotion(text)`. */
  method PredictEmotion(text: string) returns (r: Estimate)
    ensures r == EstimateOf(text)
  {
    var t := Lower(text);
    var tokens := Tokens(t);
    var score, matched := ScoreTokens(tokens);
    if matched > 0 {
      score := score / (matched as real);
    } else if |tokens| > 0 {
      score := score / (|tokens| as real);
    }
    assert score == LexScore(tokens);
    var detected := Boost(t);
    var feel := FeelMatch(t);
    if feel.Some? {
      var adj := feel.value.1;
      detected := Some(AdjectiveEmotion(adj));
      score := Max(score, AdjectiveFloor(adj));
      if feel.value.0 {
        score := score * 1.3;
      }
    }
    assert detected == (if feel.Some? then Some(AdjectiveEmotion(feel.value.1)) else Boost(t));
    var d := Decide(detected, score);
    RoundKeepsBounds(d.confidence);
    r := Estimate(d.emotion, Clamp(d.confidence));
  }

  // ---------------------------------------------------------------- properties

  /** Rounding and clamping a confidence in [0.35, 0.95] keeps it there, and keeps the
      0.65 and 0.75 floors. */
  lemma RoundKeepsBounds(c: real)
    requires 0.35 <= c <= 0.95
    ensures 0.35 <= Clamp(c) <= 0.95
    ensures c >= 0.65 ==> Clamp(c) >= 0.65
    ensures c >= 0.75 ==> Clamp(c) >= 0.75
    ensures c == 0.85 ==> Clamp(c) == 0.85
  {
    var f := (c * 100.0 + 0.5).Floor;
    assert 35 <= f <= 95;
    assert c >= 0.65 ==> f >= 65;
    assert c >= 0.75 ==> f >= 75;
    assert c == 0.85 ==> f == 85;
  }

  /** The weight of a lexicon token in closed form: one sign flip per negating
      neighbour (so two negators cancel), times 1.5 for emphasis just before and
      1.3 for emphasis two before. */
  lemma TokenWeightClosedForm(tokens: seq<string>, i: nat)
    requires i < |tokens| && tokens[i] in Lexicon
    ensures TokenWeight(tokens, i) ==
      Lexicon[tokens[i]]
      * (if NegatedBy(tokens, i - 1) then -1.0 else 1.0) * (if NegatedBy(tokens, i - 2) then -1.0 else 1.0)
      * (if EmphasisedBy(tokens, i - 1) then 1.5 else 1.0) * (if EmphasisedBy(tokens, i - 2) then 1.3 else 1.0)
  {
  }

  /** The negators written with an apostrophe never act: the tokeniser splits at the
      apostrophe, so "don't", "didn't" and "can't" never occur as tokens. */
  lemma ApostropheNegatorsInert(t: string, k: nat)
    requires k < |Tokens(t)|
    ensures Tokens(t)[k] !in {"don't", "didn't", "can't"}
  {
    var tok := Tokens(t)[k];
    assert |tok| == 5 ==> IsTokenChar(tok[3]);
    assert |tok| == 6 ==> IsTokenChar(tok[4]);

  }

  /** Nor can "thank_you": its weight is never used. */
  lemma UnderscoreEntryInert(t: string, k: nat)
    requires k < |Tokens(t)|
    ensures Tokens(t)[k] != "thank_you"
  {
    var tok := Tokens(t)[k];
    assert |tok| == 9 ==> IsTokenChar(tok[5]);

  }

  /** An "I feel ..." match decides the label, whatever the keyword categories say. */
  lemma FeelOverrides(text: string)
    requires FeelMatch(Lower(text)).Some?
    ensures EstimateOf(text).emotion == AdjectiveEmotion(FeelMatch(Lower(text)).value.1)
  {
  }

  /** Without a "feel" match the keyword category decides the label when there is one;
      angry words outrank every other category. */
  lemma CategoryDecides(text: string)
    requires FeelMatch(Lower(text)).None? && Boost(Lower(text)).Some?
    ensures EstimateOf(text).emotion == Boost(Lower(text)).value
    ensures ContainsAny(Lower(text), AngryWords) ==> EstimateOf(text).emotion == Angry
  {
  }

  /** With neither a "feel" match nor a category, the label is neutral exactly when the
      lexicon score is strictly between -0.5 and 0.5, and otherwise sad or happy with
      confidence 0.85. */
  lemma ScoreDecides(text: string)
    requires FeelMatch(Lower(text)).None? && Boost(Lower(text)).None?
    ensures EstimateOf(text).emotion == Neutral <==> -0.5 < LexScore(Tokens(Lower(text))) < 0.5
    ensures EstimateOf(text).emotion != Neutral ==> EstimateOf(text).confidence == 0.85
    ensures EstimateOf(text).emotion == Sad <==> LexScore(Tokens(Lower(text))) <= -0.5
  {
    var d := Decide(None, LexScore(Tokens(Lower(text))));
    RoundKeepsBounds(d.confidence);
  }
}

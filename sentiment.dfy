// The sentiment tool: keyword and score thresholds that name an emotion,
// the keyword-count stand-in for the VADER analyser, and the neutral
// results for empty text and for the fallback. VADER itself is a function
// the caller supplies, and so is the elapsed time it reports.
module Sentiment {
  import opened Wrappers
  import opened Json
  import opened Text
  import opened BaseTool

  const AnalyzerName: string := "SentimentAnalyzerTool"

  datatype Emotion = Neutral | Positive | Distressed | Frustrated | Excited
  {
    function Value(): string
    {
      match this
      case Neutral => "neutral"
      case Positive => "positive"
      case Distressed => "distressed"
      case Frustrated => "frustrated"
      case Excited => "excited"
    }
  }

  /** The four VADER scores. */
  datatype Scores = Scores(pos: real, neg: real, neu: real, compound: real)

  const NeutralScores: Scores := Scores(0.0, 0.0, 1.0, 0.0)

  const DistressKeywords: seq<string> := [
    "worried", "anxious", "stressed", "overwhelmed", "scared", "afraid", "concerned",
    "nervous", "panicking", "help me", "don't know what to do", "struggling", "difficult"]

  const FrustrationKeywords: seq<string> := [
    "frustrated", "annoyed", "angry", "irritated", "upset", "disappointed", "why won't",
    "this doesn't work", "stupid", "hate", "terrible", "awful", "ridiculous"]

  const ExcitementKeywords: seq<string> := [
    "excited", "amazing", "awesome", "fantastic", "wonderful", "love", "can't wait",
    "thrilled", "eager", "brilliant", "excellent", "perfect"]

  /** The compound score from which a text counts as clearly positive or negative. */
  const Strong: real := 0.5
  /** The half-width of the neutral band around a compound score of 0. */
  const Mild: real := 0.05
  /** The negative score above which a mildly negative text reads as distress. */
  const DistressNeg: real := 0.3

  /** Whether the lower-cased text contains one of the keywords. */
  predicate Mentions(text: string, keywords: seq<string>)
  {
    ContainsAny(Lower(text), keywords)
  }

  /** The emotion the scores alone give, once no keyword has matched. */
  function ScoreEmotion(s: Scores): (e: Emotion)
    ensures e == Positive <==> s.compound >= Strong
    ensures e == Frustrated <==> s.compound <= -Strong
    ensures e == Distressed <==> -Strong < s.compound <= -Mild && s.neg > DistressNeg
    ensures e == Neutral <==> -Strong < s.compound < Strong && (s.compound > -Mild || s.neg <= DistressNeg)
    ensures e != Excited
  {
    if s.compound >= Strong then Positive
    else if s.compound <= -Strong then Frustrated
    else if s.compound <= -Mild then (if s.neg > DistressNeg then Distressed else Neutral)
    else Neutral
  }

  /** `_classify_emotion`: distress, then frustration, then excitement keywords, then the scores. */
  function ClassifyEmotion(text: string, s: Scores): (e: Emotion)
    ensures Mentions(text, DistressKeywords) ==> e == Distressed
    ensures !Mentions(text, DistressKeywords) && Mentions(text, FrustrationKeywords) ==> e == Frustrated
    ensures !Mentions(text, DistressKeywords) && !Mentions(text, FrustrationKeywords) && Mentions(text, ExcitementKeywords) ==>
      e == Excited
    ensures !Mentions(text, DistressKeywords) && !Mentions(text, FrustrationKeywords) && !Mentions(text, ExcitementKeywords) ==>
      e == ScoreEmotion(s)
    // excitement comes only from a keyword and a plain positive only from the score
    ensures e == Excited ==> Mentions(text, ExcitementKeywords)
    ensures e == Positive ==> s.compound >= Strong
  {
    if Mentions(text, DistressKeywords) then Distressed
    else if Mentions(text, FrustrationKeywords) then Frustrated
    else if Mentions(text, ExcitementKeywords) then Excited
    else ScoreEmotion(s)
  }

  function Abs(x: real): (r: real)
    ensures r >= 0.0 && (r == x || r == -x)
  {
    if x < 0.0 then -x else x
  }

  /** `max(abs(pos), abs(neg), abs(neu))`. */
  function Confidence(s: Scores): (c: real)
    ensures c >= Abs(s.pos) && c >= Abs(s.neg) && c >= Abs(s.neu)
    ensures c == Abs(s.pos) || c == Abs(s.neg) || c == Abs(s.neu)
  {
    var m := if Abs(s.pos) >= Abs(s.neg) then Abs(s.pos) else Abs(s.neg);
    if m >= Abs(s.neu) then m else Abs(s.neu)
  }

  predicate IsNegative(s: Scores) { s.compound < -Mild }
  predicate IsPositive(s: Scores) { s.compound > Mild }
  predicate IsNeutral(s: Scores) { -Mild <= s.compound <= Mild }

  /** What one analysis reports. */
  datatype Analysis = Analysis(emotion: Emotion, confidence: real, scores: Scores,
                               isNegative: bool, isPositive: bool, isNeutral: bool)

  /** The analysis of a non-empty text from its scores. */
  function Analyze(text: string, s: Scores): (a: Analysis)
    ensures a.emotion == ClassifyEmotion(text, s) && a.confidence == Confidence(s) && a.scores == s
    // exactly one of the three polarity flags holds
    ensures a.isNegative <==> !a.isPositive && !a.isNeutral
    ensures a.isPositive <==> !a.isNegative && !a.isNeutral
    ensures a.isNegative <==> s.compound < -Mild
    ensures a.isPositive <==> s.compound > Mild
  {
    Analysis(ClassifyEmotion(text, s), Confidence(s), s, IsNegative(s), IsPositive(s), IsNeutral(s))
  }

  /**
   * Without keywords the emotion agrees with the polarity flags, except at a
   * compound score of exactly -0.05: that score is flagged neutral, yet a
   * high negative score makes it distressed.
   */
  lemma EmotionAgreesWithPolarity(text: string, s: Scores)
    requires !Mentions(text, DistressKeywords) && !Mentions(text, FrustrationKeywords) && !Mentions(text, ExcitementKeywords)
    ensures var a := Analyze(text, s);
      (a.emotion == Positive ==> a.isPositive)
      && (a.emotion == Frustrated ==> a.isNegative)
      && (a.emotion == Distressed ==> a.isNegative || s.compound == -Mild)
      && (a.isNeutral && a.emotion != Neutral ==> a.emotion == Distressed && s.compound == -Mild)
  {
  }

  // ---------------------------------------------------------------------
  // The keyword-count analyser used when VADER is absent

  const PositiveWords: seq<string> := ["good", "great", "happy", "love", "excellent", "amazing"]
  const NegativeWords: seq<string> := ["bad", "terrible", "hate", "awful", "sad", "worried"]

  /** `sum(1 for w in words if w in s)`: how many of the words occur. */
  function CountPresent(s: string, words: seq<string>): (n: nat)
    ensures n <= |words|
    ensures n == 0 <==> !ContainsAny(s, words)
  {
    if words == [] then 0
    else
      var rest := CountPresent(s, words[1..]);
      assert forall w :: w in words <==> w == words[0] || w in words[1..];
      (if Contains(s, words[0]) then 1 else 0) + rest
  }

  /** `_mock_sentiment`: the share of matched positive and negative words. */
  function MockSentiment(text: string): (s: Scores)
    ensures s.pos + s.neg + s.neu == 1.0 && s.compound == s.pos - s.neg
    ensures 0.0 <= s.pos <= 1.0 && 0.0 <= s.neg <= 1.0 && 0.0 <= s.neu <= 1.0
    // a text with no listed word reads as neutral; otherwise the shares fill the whole
    ensures s.neu == 1.0 <==> !ContainsAny(Lower(text), PositiveWords) && !ContainsAny(Lower(text), NegativeWords)
    ensures s.neu != 1.0 ==> s.neu == 0.0
    ensures s.compound > 0.0 <==> CountPresent(Lower(text), PositiveWords) > CountPresent(Lower(text), NegativeWords)
  {
    var p := CountPresent(Lower(text), PositiveWords);
    var n := CountPresent(Lower(text), NegativeWords);
    var total := if p + n > 1 then p + n else 1;
    var pos := p as real / total as real;
    var neg := n as real / total as real;
    ShareSum(p, n, total);
    Scores(pos, neg, 1.0 - (pos + neg), pos - neg)
  }

  /** The two shares add up to the share of their sum. */
  lemma ShareSum(p: nat, n: nat, total: nat)
    requires total == if p + n > 1 then p + n else 1
    ensures p as real / total as real + n as real / total as real == (p + n) as real / total as real
    ensures p + n > 0 ==> (p + n) as real / total as real == 1.0
    ensures p as real / total as real <= 1.0 && n as real / total as real <= 1.0
    ensures p as real / total as real > n as real / total as real <==> p > n
  {
    var t := total as real;
    DivAdd(p as real, n as real, t);
    DivAtMostOne(p as real, t);
    DivAtMostOne(n as real, t);
    DivOrder(p as real, n as real, t);
    assert p as real + n as real == (p + n) as real;
    if p + n > 0 {
      assert (p + n) as real == t;
      DivSelf(t);
    }
  }

  lemma DivSelf(t: real)
    requires t > 0.0
    ensures t / t == 1.0
  {
  }

  lemma DivAdd(x: real, y: real, t: real)
    requires t > 0.0
    ensures x / t + y / t == (x + y) / t
  {
  }

  lemma DivAtMostOne(x: real, t: real)
    requires 0.0 <= x <= t && t > 0.0
    ensures x / t <= 1.0
  {
  }

  lemma DivOrder(x: real, y: real, t: real)
    requires t > 0.0
    ensures x / t > y / t <==> x > y
  {
  }

  /** The keyword-count analyser is never unsure: its confidence is at least one half. */
  lemma MockConfidence(text: string)
    ensures Confidence(MockSentiment(text)) >= 0.5
  {
    var s := MockSentiment(text);
    if s.neu != 1.0 {
      assert s.pos + s.neg == 1.0;
    }
  }

  // ---------------------------------------------------------------------
  // The tool

  function ScoresJson(s: Scores): Json
  {
    JObj([("pos", JNum(s.pos)), ("neg", JNum(s.neg)), ("neu", JNum(s.neu)), ("compound", JNum(s.compound))])
  }

  /** The result dict of an analysis. */
  function AnalysisData(a: Analysis): seq<(string, Json)>
  {
    [("emotion", JStr(a.emotion.Value())), ("confidence", JNum(a.confidence)), ("scores", ScoresJson(a.scores)),
     ("is_negative", JBool(a.isNegative)), ("is_positive", JBool(a.isPositive)), ("is_neutral", JBool(a.isNeutral))]
  }

  /** The result dict for an empty text: a length stands where an analysis has its `is_neutral` flag. */
  function EmptyTextData(): (d: seq<(string, Json)>)
    ensures |d| == 6 && d[5] == ("text_length", JNum(0.0))
    ensures Lookup(d, "emotion") == Some(JStr("neutral")) && Lookup(d, "confidence") == Some(JNum(0.0))
    ensures Lookup(d, "scores") == Some(ScoresJson(NeutralScores))
  {
    var d := [("emotion", JStr("neutral")), ("confidence", JNum(0.0)), ("scores", ScoresJson(NeutralScores)),
              ("is_negative", JBool(false)), ("is_positive", JBool(false)), ("text_length", JNum(0.0))];
    assert Lookup(d, "confidence") == Some(d[1].1) by { LookupAt(d, "confidence", 1); }
    assert Lookup(d, "scores") == Some(d[2].1) by { LookupAt(d, "scores", 2); }
    d
  }

  /**
   * `execute`: a missing or falsy text is neutral without analysis; any other
   * text is scored by VADER when present, else by the keyword counts. A
   * text that is not a string fails, as its `lower()` raises. Every result
   * reports `elapsedMs`, the whole milliseconds the caller's clock measured.
   */
  function Execute(parameters: seq<(string, Json)>, vader: Option<string -> Scores>, elapsedMs: nat): (r: ToolResult)
    ensures r.toolName == AnalyzerName && !r.fallbackUsed && r.executionTimeMs == elapsedMs
    ensures var text := GetOr(parameters, "text", JStr(""));
      (!Truthy(text) ==> r.status == Success && r.data == Some(EmptyTextData()))
      && (Truthy(text) && !text.JStr? ==> r.status == Failed && r.error.Some?)
      && (Truthy(text) && text.JStr? ==>
            var s := if vader.Some? then vader.value(text.s) else MockSentiment(text.s);
            r.status == Success && r.data == Some(AnalysisData(Analyze(text.s, s))))
  {
    var text := GetOr(parameters, "text", JStr(""));
    if !Truthy(text) then ToolResult(AnalyzerName, Success, Some(EmptyTextData()), None, elapsedMs, false)
    else if !text.JStr? then ToolResult(AnalyzerName, Failed, None, Some("AttributeError"), elapsedMs, false)
    else
      var s := if vader.Some? then vader.value(text.s) else MockSentiment(text.s);
      ToolResult(AnalyzerName, Success, Some(AnalysisData(Analyze(text.s, s))), None, elapsedMs, false)
  }

  /** The only falsy string is the empty one, so only an empty text skips the analysis. */
  lemma EmptyTextOnly(parameters: seq<(string, Json)>, vader: Option<string -> Scores>, elapsedMs: nat, text: string)
    requires Lookup(parameters, "text") == Some(JStr(text))
    ensures text == "" <==> Execute(parameters, vader, elapsedMs).data == Some(EmptyTextData())
  {
    assert GetOr(parameters, "text", JStr("")) == JStr(text);
    if text != "" {
      var a := Analyze(text, if vader.Some? then vader.value(text) else MockSentiment(text));
      assert Execute(parameters, vader, elapsedMs).data == Some(AnalysisData(a));
      assert AnalysisData(a)[5].0[0] == 'i' && EmptyTextData()[5].0[0] == 't';
    }
  }

  /** `fallback`: a neutral analysis with half confidence, marked as a fallback. */
  function Fallback(parameters: seq<(string, Json)>, error: string): (r: ToolResult)
    ensures r.status == Success && r.fallbackUsed && r.error.None?
    ensures r.data == Some(AnalysisData(FallbackAnalysis()))
  {
    ToolResult(AnalyzerName, Success, Some(AnalysisData(FallbackAnalysis())), None, 0, true)
  }

  /** The analysis the fallback reports: neutral in every respect. */
  function FallbackAnalysis(): (a: Analysis)
    ensures a.emotion == Neutral && a.confidence == 0.5 && a.scores == NeutralScores
    ensures a.isNeutral && !a.isNegative && !a.isPositive
    ensures a.emotion == ScoreEmotion(a.scores)
  {
    Analysis(Neutral, 0.5, NeutralScores, false, false, true)
  }
}

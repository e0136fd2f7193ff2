// The keyword-based query analyzer: which capabilities a query needs, how
// complex it is (a level and a clamped score), whether it needs multi-hop
// reasoning, and the local/external routing hint. The regular-expression
// engine is the parameter `search(pattern, text)` (`re.search` succeeding),
// and the sentence-embedding model behind topic-shift detection is reduced
// to the embeddings it produced and a `cosine` parameter.
module QueryAnalyzer {
  import opened Wrappers
  import opened Text
  import opened Seqs
  import opened PlanTypes

  const WebSearchKeywords: seq<string> := [
    "current", "latest", "today", "recent", "news", "stock price",
    "what's the", "search for", "find information", "look up",
    "update", "happening", "status", "price", "weather"]

  const WebSearchImplicit: seq<string> := [
    "cost", "price", "weather", "temperature", "forecast",
    "score", "result", "winner", "leader", "ranking",
    "exchange rate", "stock", "market", "trending"]

  const WebSearchSpecs: seq<string> := [
    "spec", "specification", "datasheet", "data sheet",
    "conflicting", "check sources", "fake spec", "verify",
    "at least two sources", "cross-check", "compare specs",
    "official spec", "manufacturer spec", "real spec"]

  const TimeSensitive: seq<string> := [
    "now", "currently", "today", "this week", "this month", "this year",
    "2024", "2025", "2026", "recently", "just", "latest"]

  const CodeExecKeywords: seq<string> := [
    "calculate", "compute", "sum", "average", "analyze data",
    "plot", "graph", "chart", "statistics", "math",
    "range", "hours", "wh", "kwh", "watt", "miles", "km"]

  const CodeExecPatterns: seq<string> := [
    @"\d+\s*wh", @"\d+\s*kwh", @"\d+\s*w\b", @"\d+\s*ah", @"\d+\s*v\b",
    "how many.*hours", "what.*range", "total.*capacity"]

  const MemoryKeywords: seq<string> := [
    "my", "remember", "recall", "you told me", "i mentioned",
    "i said", "my preference", "my schedule", "my goal",
    "save this", "store", "keep track"]

  const ComplexKeywords: seq<string> := [
    "analyze", "compare", "evaluate", "explain how", "why does",
    "break down", "step by step", "in detail", "comprehensive",
    "pros and cons", "advantages and disadvantages"]

  const MultiHopKeywords: seq<string> := [
    "first", "then", "after that", "next", "finally",
    "compare and contrast", "how does", "relationship between",
    "based on", "given that", "assuming", "if"]

  const ReasoningKeywords: seq<string> := [
    "because", "therefore", "thus", "consequently", "as a result",
    "due to", "leads to", "causes", "implies", "suggests"]

  const HighStakesKeywords: seq<string> := [
    "show your work", "show your steps", "explain reasoning",
    "justify", "prove", "verify", "double check", "are you sure",
    "critical", "important", "need to be sure", "must be accurate"]

  const RecentYearPattern: string := @"\b(202[4-9]|20[3-9]\d)\b"
  const FactualPatterns: seq<string> := [
    @"\bwho is\b", @"\bwhat is\b", @"\bwhere is\b",
    @"\bwhen did\b", @"\bwhen was\b", @"\bhow many\b"]
  const PersonalWords: seq<string> := ["my", "i am", "me", "i'm"]
  const ArithmeticPattern: string := @"\d+\s*[\+\-\*\/]\s*\d+"
  const ConditionalWords: seq<string> := ["if", "when", "unless", "provided that"]

  /** `any(re.search(p, text) for p in patterns)`. */
  predicate SearchAny(search: (string, string) -> bool, text: string, patterns: seq<string>)
  {
    exists p :: p in patterns && search(p, text)
  }

  /** `sum(1 for kw in words if kw in text)`. */
  function CountIn(text: string, words: seq<string>): (r: nat)
    ensures r <= |words|
    ensures r > 0 <==> ContainsAny(text, words)
  {
    if words == [] then 0
    else
      assert forall w :: w in words ==> w == words[0] || w in words[1..];
      (if Contains(text, words[0]) then 1 else 0) + CountIn(text, words[1..])
  }

  /** `_needs_web_search` on the lowered text. */
  predicate NeedsWebSearch(search: (string, string) -> bool, text: string)
  {
    ContainsAny(text, WebSearchKeywords) || ContainsAny(text, WebSearchSpecs)
    || ContainsAny(text, TimeSensitive) || ContainsAny(text, WebSearchImplicit)
    || search(RecentYearPattern, text)
    || (SearchAny(search, text, FactualPatterns) && !ContainsAny(text, PersonalWords))
  }

  /** `_needs_code_execution` on the lowered text. */
  predicate NeedsCodeExecution(search: (string, string) -> bool, text: string)
  {
    ContainsAny(text, CodeExecKeywords) || search(ArithmeticPattern, text)
    || SearchAny(search, text, CodeExecPatterns)
  }

  /** `_needs_memory_retrieval`: some memory keyword occurs in the text. */
  predicate NeedsMemoryRetrieval(text: string)
  {
    ContainsAny(text, MemoryKeywords)
  }

  function CapabilityRank(c: string): nat
  {
    if c == "web_search" then 0 else if c == "code_exec" then 1 else 2
  }

  /**
   * The capability list: web_search, code_exec and rag, each present
   * exactly when its detector fires, at most once, in that order.
   */
  function Capabilities(search: (string, string) -> bool, text: string): (r: seq<string>)
    ensures "web_search" in r <==> NeedsWebSearch(search, text)
    ensures "code_exec" in r <==> NeedsCodeExecution(search, text)
    ensures "rag" in r <==> NeedsMemoryRetrieval(text)
    ensures forall c :: c in r ==> c in ["web_search", "code_exec", "rag"]
    ensures Distinct(r)
    ensures forall i, j :: 0 <= i < j < |r| ==> CapabilityRank(r[i]) < CapabilityRank(r[j])
  {
    (if NeedsWebSearch(search, text) then ["web_search"] else [])
    + (if NeedsCodeExecution(search, text) then ["code_exec"] else [])
    + (if NeedsMemoryRetrieval(text) then ["rag"] else [])
  }

  /** `_determine_complexity`: the first rule that applies decides. */
  function DetermineComplexity(text: string, caps: seq<string>): ComplexityLevel
  {
    if "code_exec" in caps || |caps| >= 3 then Complex
    else if ContainsAny(text, ComplexKeywords) then Complex
    else if |caps| > 0 then Moderate
    else if |Words(text)| > 20 then Moderate
    else Simple
  }

  /**
   * Complex exactly on code execution, three capabilities or a complex
   * keyword; simple exactly when none of those, no capability and at most
   * 20 words.
   */
  lemma ComplexityRules(text: string, caps: seq<string>)
    ensures DetermineComplexity(text, caps) == Complex <==>
      "code_exec" in caps || |caps| >= 3 || ContainsAny(text, ComplexKeywords)
    ensures DetermineComplexity(text, caps) == Simple <==>
      !ContainsAny(text, ComplexKeywords) && caps == [] && |Words(text)| <= 20
    ensures DetermineComplexity(text, caps) == Moderate <==>
      "code_exec" !in caps && |caps| < 3 && !ContainsAny(text, ComplexKeywords) && (caps != [] || |Words(text)| > 20)
  {
  }

  /** `min(count * per, cap)`: a keyword bonus that never exceeds its cap. */
  function CappedBonus(count: nat, per: real, cap: real): (r: real)
    requires per >= 0.0 && cap >= 0.0
    ensures 0.0 <= r <= cap && r <= count as real * per
    ensures r == cap || r == count as real * per
  {
    if count as real * per < cap then count as real * per else cap
  }

  function LengthBonus(words: nat): real
  {
    if words > 50 then 0.2 else if words > 30 then 0.1 else 0.0
  }

  /** The score before clamping. */
  function RawScore(text: string, caps: seq<string>): real
  {
    |caps| as real * 0.15
    + (if CountIn(text, HighStakesKeywords) > 0 then 0.25 else 0.0)
    + (if CountIn(text, WebSearchSpecs) > 0 then 0.2 else 0.0)
    + CappedBonus(CountIn(text, ComplexKeywords), 0.1, 0.3)
    + CappedBonus(CountIn(text, MultiHopKeywords), 0.15, 0.3)
    + CappedBonus(CountIn(text, ReasoningKeywords), 0.1, 0.2)
    + LengthBonus(|Words(text)|)
    + (if CountChar(text, '?') > 1 then 0.15 else 0.0)
  }

  /** Every term of the score is nonnegative, so only the upper clamp can take effect. */
  lemma RawScoreNonNegative(text: string, caps: seq<string>)
    ensures RawScore(text, caps) >= |caps| as real * 0.15
  {
    var c := CappedBonus(CountIn(text, ComplexKeywords), 0.1, 0.3);
    var m := CappedBonus(CountIn(text, MultiHopKeywords), 0.15, 0.3);
    var q := CappedBonus(CountIn(text, ReasoningKeywords), 0.1, 0.2);
    assert c >= 0.0 && m >= 0.0 && q >= 0.0;
    assert LengthBonus(|Words(text)|) >= 0.0;
  }

  /** `_calculate_complexity_score`: clamped to [0, 1]. */
  function ComplexityScore(text: string, caps: seq<string>): (r: real)
    ensures 0.0 <= r <= 1.0
    ensures r == if RawScore(text, caps) < 1.0 then RawScore(text, caps) else 1.0
  {
    var s := RawScore(text, caps);
    RawScoreNonNegative(text, caps);
    if 1.0 < s then 1.0 else if s < 0.0 then 0.0 else s
  }

  /** More capabilities never lower the score. */
  lemma ScoreMonotoneInCapabilities(text: string, a: seq<string>, b: seq<string>)
    requires |a| <= |b|
    ensures ComplexityScore(text, a) <= ComplexityScore(text, b)
  {
    assert RawScore(text, a) - |a| as real * 0.15 == RawScore(text, b) - |b| as real * 0.15;
  }

  /** A query with no capability and without any scored keyword, long text or repeated '?' scores 0. */
  lemma QuietQueryScoresZero(text: string)
    requires !ContainsAny(text, HighStakesKeywords) && !ContainsAny(text, WebSearchSpecs)
    requires !ContainsAny(text, ComplexKeywords) && !ContainsAny(text, MultiHopKeywords)
    requires !ContainsAny(text, ReasoningKeywords)
    requires |Words(text)| <= 30 && CountChar(text, '?') <= 1
    ensures ComplexityScore(text, []) == 0.0
  {
  }

  datatype Routing = Local | External

  /** `_determine_routing`: the hint depends on the score alone. */
  function DetermineRouting(score: real): (r: Routing)
    ensures r == Local <==> score < 0.3
  {
    if score < 0.3 then Local else External
  }

  /** `_requires_multi_hop_reasoning`. */
  predicate RequiresMultiHop(text: string)
  {
    ContainsAny(text, MultiHopKeywords) || CountChar(text, '?') > 1
    || Contains(text, "compare") || Contains(text, "versus") || Contains(text, "vs")
    || ContainsAny(text, ConditionalWords)
  }

  /**
   * `detect_topic_shift`: no shift without an embedding model or a previous
   * topic; otherwise a shift when the cosine similarity of the two
   * embeddings is below the threshold.
   */
  function TopicShift(current: Option<seq<real>>, previous: seq<real>, cosine: (seq<real>, seq<real>) -> real,
                      threshold: real): (r: (bool, Option<seq<real>>))
    ensures current.None? || current == Some([]) || previous == [] ==> !r.0
    ensures r.0 ==> current.Some? && cosine(current.value, previous) < threshold
  {
    if current.None? || previous == [] then (false, current)
    else if current.value == [] then (false, None)
    else (cosine(current.value, previous) < threshold, current)
  }

  datatype Analysis = Analysis(
    complexityLevel: ComplexityLevel,
    complexityScore: real,
    requiredCapabilities: seq<string>,
    requiresMultiHop: bool,
    routingDecision: Routing,
    confidence: real,
    topicShift: bool,
    currentTopicEmbedding: Option<seq<real>>)

  /**
   * `analyze`. `embedding` is what the embedding model produced for the
   * query (None without a model); `previous` is the previous topic's
   * embedding ([] when there is none).
   */
  function Analyze(search: (string, string) -> bool, query: string, embedding: Option<seq<real>>,
                   previous: seq<real>, cosine: (seq<real>, seq<real>) -> real): (a: Analysis)
    ensures a.requiredCapabilities == Capabilities(search, Lower(query))
    ensures a.complexityLevel == DetermineComplexity(Lower(query), a.requiredCapabilities)
    ensures 0.0 <= a.complexityScore <= 1.0
    ensures a.complexityScore == ComplexityScore(Lower(query), a.requiredCapabilities)
    ensures a.routingDecision == Local <==> a.complexityScore < 0.3
    ensures a.requiresMultiHop == RequiresMultiHop(Lower(query))
    ensures a.confidence == 0.85
  {
    var text := Lower(query);
    var shift := TopicShift(embedding, previous, cosine, 0.5);
    var caps := Capabilities(search, text);
    var score := ComplexityScore(text, caps);
    Analysis(DetermineComplexity(text, caps), score, caps, RequiresMultiHop(text),
             DetermineRouting(score), 0.85, shift.0, shift.1)
  }

  /** Analyzing the lowered query gives the same result: the analysis is case-blind. */
  lemma AnalyzeCaseBlind(search: (string, string) -> bool, query: string, embedding: Option<seq<real>>,
                         previous: seq<real>, cosine: (seq<real>, seq<real>) -> real)
    ensures Analyze(search, Lower(query), embedding, previous, cosine) == Analyze(search, query, embedding, previous, cosine)
  {
    LowerIdempotent(query);
  }

  /** Code execution alone makes a query complex, whatever else it says. */
  lemma CodeExecIsComplex(search: (string, string) -> bool, query: string, embedding: Option<seq<real>>,
                          previous: seq<real>, cosine: (seq<real>, seq<real>) -> real)
    requires NeedsCodeExecution(search, Lower(query))
    ensures Analyze(search, query, embedding, previous, cosine).complexityLevel == Complex
  {
  }
}

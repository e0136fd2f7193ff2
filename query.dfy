// A user's query: its text, where it came from, its complexity level, the
// capabilities it needs and the routing chosen for it; and the complexity
// classifier that reads capabilities first and keywords second. The query's
// id and timestamp (a uuid and the clock, rendered as ISO text) are given.
module Query {
  import opened Wrappers
  import opened Json
  import opened Text

  datatype Query = Query(
    queryId: string,
    sessionId: string,
    timestamp: string,
    rawText: string,
    source: string,
    complexityLevel: string,
    emotionalTone: seq<(string, Json)>,
    requiredCapabilities: seq<string>,
    routingDecision: string,
    confidence: real)
  {
    predicate IsSimple() { complexityLevel == "simple" }
    predicate IsComplex() { complexityLevel == "complex" }
    predicate NeedsTools() { |requiredCapabilities| > 0 }
    predicate NeedsWebSearch() { "web_search" in requiredCapabilities }
    predicate NeedsRag() { "rag" in requiredCapabilities }
    predicate NeedsCodeExecution() { "code_exec" in requiredCapabilities }
  }

  /** A query with the dataclass defaults for every field but its id, timestamp and text. */
  function NewQuery(queryId: string, timestamp: string, rawText: string): (q: Query)
    ensures q.queryId == queryId && q.timestamp == timestamp && q.rawText == rawText
    ensures q.IsSimple() && !q.NeedsTools() && q.routingDecision == "local" && q.source == "api"
    ensures q.confidence == 1.0 && q.sessionId == "" && q.emotionalTone == []
  {
    Query(queryId, "", timestamp, rawText, "api", "simple", [], [], "local", 1.0)
  }

  /** Any of the specific capabilities means the query needs tools. */
  lemma SpecificNeedsAreTools(q: Query)
    ensures q.NeedsWebSearch() || q.NeedsRag() || q.NeedsCodeExecution() ==> q.NeedsTools()
    ensures !q.NeedsTools() ==> !q.NeedsWebSearch() && !q.NeedsRag() && !q.NeedsCodeExecution()
  {
  }

  /** No query is both simple and complex. */
  lemma SimpleExcludesComplex(q: Query)
    ensures !(q.IsSimple() && q.IsComplex())
  {
  }

  /** The storage form of a query. */
  function ToDict(q: Query): (d: seq<(string, Json)>)
    ensures |d| == 9
  {
    [("message_id", JStr(q.queryId)),
     ("session_id", JStr(q.sessionId)),
     ("timestamp", JStr(q.timestamp)),
     ("role", JStr("user")),
     ("content", JStr(q.rawText)),
     ("source", JStr(q.source)),
     ("complexity_level", JStr(q.complexityLevel)),
     ("emotional_tone", JObj(q.emotionalTone)),
     ("routing_decision", JStr(q.routingDecision))]
  }

  /** The stored query is a user message whose content is the raw text. */
  lemma ToDictMessage(q: Query)
    ensures Lookup(ToDict(q), "role") == Some(JStr("user"))
    ensures Lookup(ToDict(q), "content") == Some(JStr(q.rawText))
  {
    var d := ToDict(q);
    assert Lookup(d, "role") == Some(JStr("user")) by { LookupAt(d, "role", 3); }
    assert Lookup(d, "content") == Some(JStr(q.rawText)) by { LookupAt(d, "content", 4); }
  }

  /** The stored query keeps its id and its complexity level. */
  lemma ToDictRecord(q: Query)
    ensures Lookup(ToDict(q), "message_id") == Some(JStr(q.queryId))
    ensures Lookup(ToDict(q), "complexity_level") == Some(JStr(q.complexityLevel))
  {
    var d := ToDict(q);
    assert Lookup(d, "message_id") == Some(JStr(q.queryId)) by { LookupAt(d, "message_id", 0); }
    assert Lookup(d, "complexity_level") == Some(JStr(q.complexityLevel)) by { LookupAt(d, "complexity_level", 6); }
  }

  // ---------------------------------------------------------------------
  // Complexity

  const ComplexKeywords: seq<string> := ["analyze", "compare", "evaluate", "explain how", "why does",
                                         "break down", "step by step", "in detail", "comprehensive"]
  const ModerateKeywords: seq<string> := ["what is", "how to", "can you", "show me", "find", "search"]

  /** `detect_complexity`: capabilities decide first; only a query needing none is read for keywords. */
  function DetectComplexity(text: string, capabilities: seq<string>): (r: string)
    ensures r == "simple" || r == "moderate" || r == "complex"
  {
    if "code_exec" in capabilities || |capabilities| >= 3 then "complex"
    else if |capabilities| > 0 then "moderate"
    else if ContainsAny(Lower(text), ComplexKeywords) then "complex"
    else if ContainsAny(Lower(text), ModerateKeywords) then "moderate"
    else "simple"
  }

  /** Each level, characterised in both directions. */
  lemma ComplexityLevels(text: string, capabilities: seq<string>)
    ensures var r := DetectComplexity(text, capabilities); var lt := Lower(text);
      (r == "complex" <==>
        "code_exec" in capabilities || |capabilities| >= 3
        || (capabilities == [] && ContainsAny(lt, ComplexKeywords)))
      && (r == "moderate" <==>
        (0 < |capabilities| < 3 && "code_exec" !in capabilities)
        || (capabilities == [] && !ContainsAny(lt, ComplexKeywords) && ContainsAny(lt, ModerateKeywords)))
      && (r == "simple" <==>
        capabilities == [] && !ContainsAny(lt, ComplexKeywords) && !ContainsAny(lt, ModerateKeywords))
  {
  }

  /** A query that needs tools is classified without looking at its text. */
  lemma ToolsIgnoreText(t1: string, t2: string, capabilities: seq<string>)
    requires capabilities != []
    ensures DetectComplexity(t1, capabilities) == DetectComplexity(t2, capabilities)
    ensures DetectComplexity(t1, capabilities) != "simple"
  {
  }

  /** Keywords are matched case-insensitively. */
  lemma KeywordsIgnoreCase(text: string, capabilities: seq<string>)
    ensures DetectComplexity(Lower(text), capabilities) == DetectComplexity(text, capabilities)
  {
    LowerIdempotent(text);
  }

  /**
   * Keywords never outrank a capability: "analyze this" alone is complex,
   * but the same text needing one web search is only moderate.
   */
  lemma CapabilityBeforeKeyword()
    ensures DetectComplexity("analyze this", []) == "complex"
    ensures DetectComplexity("analyze this", ["web_search"]) == "moderate"
  {
    var lt := Lower("analyze this");
    assert lt[0..7] == "analyze";
    assert MatchAt(lt, "analyze", 0);
    assert Contains(lt, ComplexKeywords[0]);
  }

  /** A query classified by `DetectComplexity` is complex exactly when it needs code or three tools, or carries a complex keyword with none. */
  lemma ClassifiedQuery(q: Query)
    requires q.complexityLevel == DetectComplexity(q.rawText, q.requiredCapabilities)
    ensures q.NeedsCodeExecution() ==> q.IsComplex()
    ensures q.IsSimple() ==> !q.NeedsTools()
    ensures q.NeedsTools() && !q.NeedsCodeExecution() && |q.requiredCapabilities| < 3 ==> !q.IsComplex() && !q.IsSimple()
  {
  }
}

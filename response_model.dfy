// The system's reply: its mode (concise, expert or advisor), the
// mode-specific formatting of its text, the citations and tool results
// attached to it, and the choice of mode for a query. Clock readings enter
// as `now`.
module ResponseModel {
  import opened Wrappers
  import opened Json
  import opened Text

  datatype Citation = Citation(title: string, url: string, snippet: string, accessedAt: real)

  datatype PersonalContext = PersonalContext(memoryId: string, content: string, memoryType: string, relevanceScore: real, timestamp: string)

  datatype ToolResultData = ToolResultData(toolName: string, data: seq<(string, Json)>, executionTimeMs: int)

  // ---------------------------------------------------------------------
  // Concise: at most two sentences

  const SentenceBreak: string := ". "

  /** `_format_concise`: with more than two `". "`-separated pieces, the first two joined and a closing "."; otherwise the text as it is. */
  function FormatConcise(content: string): string
  {
    var pieces := Split(content, SentenceBreak);
    if |pieces| > 2 then Join(pieces[..2], SentenceBreak) + "." else content
  }

  lemma SplitStep(s: string)
    ensures var i := Find(s, SentenceBreak);
      Split(s, SentenceBreak) == if i < 0 then [s] else [s[..i]] + Split(s[i + 2..], SentenceBreak)
  {
  }

  /**
   * A text with two or more `". "` breaks is cut just before the second one
   * and closed with "."; a text with fewer is left as it is.
   */
  lemma ConciseCutsAtSecondBreak(content: string)
    ensures var i := Find(content, SentenceBreak);
      var j := if i < 0 then -1 else FindFrom(content, SentenceBreak, i + 2);
      if j < 0 then FormatConcise(content) == content
      else FormatConcise(content) == content[..j] + "."
  {
    var i := Find(content, SentenceBreak);
    var pieces := Split(content, SentenceBreak);
    if i < 0 {
      assert pieces == [content] by { SplitStep(content); }
    } else {
      var rest := content[i + 2..];
      var k := Find(rest, SentenceBreak);
      var j := FindFrom(content, SentenceBreak, i + 2);
      assert (k < 0 <==> j < 0) && (k >= 0 ==> j == i + 2 + k) by {
        FindFromShift(content, SentenceBreak, i + 2);
      }
      assert pieces == [content[..i]] + Split(rest, SentenceBreak) by { SplitStep(content); }
      if k < 0 {
        assert Split(rest, SentenceBreak) == [rest] by { SplitStep(rest); }
      } else {
        var tail := Split(rest[k + 2..], SentenceBreak);
        assert Split(rest, SentenceBreak) == [rest[..k]] + tail by { SplitStep(rest); }
        assert pieces[..2] == [content[..i], rest[..k]];
        JoinTwo(content[..i], rest[..k]);
        CutSlices(content, i, j);
      }
    }
  }

  lemma JoinTwo(a: string, b: string)
    ensures Join([a, b], SentenceBreak) == a + SentenceBreak + b
  {
    assert [a, b][1..] == [b];
  }

  lemma CutSlices(s: string, i: nat, j: nat)
    requires i + 2 <= j <= |s| && s[i..i + 2] == SentenceBreak
    ensures s[..j] == s[..i] + SentenceBreak + s[i + 2..][..j - i - 2]
  {
  }

  /** Searching from `from` is searching the suffix, with the index shifted. */
  lemma FindFromShift(s: string, w: string, from: nat)
    requires from <= |s|
    ensures var k := Find(s[from..], w); var j := FindFrom(s, w, from);
      (k < 0 <==> j < 0) && (k >= 0 ==> j == from + k)
  {
    ShiftFrom(s, w, from, 0);
  }

  lemma {:induction false} ShiftFrom(s: string, w: string, from: nat, m: nat)
    requires from + m <= |s|
    ensures var k := FindFrom(s[from..], w, m); var j := FindFrom(s, w, from + m);
      (k < 0 <==> j < 0) && (k >= 0 ==> j == from + k)
    decreases |s| - from - m
  {
    var t := s[from..];
    if m + |w| <= |t| {
      assert t[m..m + |w|] == s[from + m..from + m + |w|];
      if !MatchAt(t, w, m) {
        ShiftFrom(s, w, from, m + 1);
      }
    }
  }

  // ---------------------------------------------------------------------
  // Expert: paragraph breaks before transitions and numbered items

  const Transitions: seq<string> := ["First", "Second", "Third", "Additionally", "Furthermore", "Moreover", "However", "Finally"]

  /** The first of `words` the text starts with (regex alternation order). */
  function FirstPrefix(s: string, words: seq<string>): (r: Option<string>)
    ensures r.Some? ==> r.value in words && StartsWith(s, r.value)
    ensures r.None? ==> forall w :: w in words ==> !StartsWith(s, w)
  {
    if words == [] then None
    else if StartsWith(s, words[0]) then Some(words[0])
    else FirstPrefix(s, words[1..])
  }

  /** `re.sub(r"(First|...|Finally)", r"\n\n**\1**", s)`. */
  function MarkTransitions(s: string): string
    decreases |s|
  {
    if s == [] then []
    else
      var w := FirstPrefix(s, Transitions);
      if w.Some? && w.value != [] then "\n\n**" + w.value + "**" + MarkTransitions(s[|w.value|..])
      else [s[0]] + MarkTransitions(s[1..])
  }

  predicate IsDigit(c: char)
  {
    '0' <= c <= '9'
  }

  /** The length of the run of characters satisfying `p` at the start of `s`. */
  function DigitRun(s: string): (k: nat)
    ensures k <= |s| && forall i :: 0 <= i < k ==> IsDigit(s[i])
    ensures k < |s| ==> !IsDigit(s[k])
  {
    if s != [] && IsDigit(s[0]) then 1 + DigitRun(s[1..]) else 0
  }

  function SpaceRun(s: string): (k: nat)
    ensures k <= |s| && forall i :: 0 <= i < k ==> IsSpace(s[i])
    ensures k < |s| ==> !IsSpace(s[k])
  {
    if s != [] && IsSpace(s[0]) then 1 + SpaceRun(s[1..]) else 0
  }

  /** `re.sub(r"(\d+\.)\s+", r"\n\n\1 ", s)`: a numbered item starts a paragraph, followed by one space. */
  function SpaceNumbered(s: string): string
    decreases |s|
  {
    if s == [] then []
    else
      var k := DigitRun(s);
      if 0 < k && k + 1 < |s| && s[k] == '.' && IsSpace(s[k + 1]) then
        var w := SpaceRun(s[k + 1..]);
        "\n\n" + s[..k + 1] + " " + SpaceNumbered(s[k + 1 + w..])
      else [s[0]] + SpaceNumbered(s[1..])
  }

  /** `_format_expert`: long single-line text gets paragraph breaks and is stripped; anything else is left as it is. */
  function FormatExpert(content: string): string
  {
    if '\n' !in content && |content| > 200 then Strip(SpaceNumbered(MarkTransitions(content)))
    else content
  }

  /** Text that already has a line break, or is at most 200 characters, is not restructured. */
  lemma ExpertLeavesShortText(content: string)
    requires '\n' in content || |content| <= 200
    ensures FormatExpert(content) == content
  {
  }

  /** Text without any of the transition words is not marked. */
  lemma {:induction false} NoTransitionUnmarked(s: string)
    requires forall i, w :: 0 <= i < |s| && w in Transitions ==> !StartsWith(s[i..], w)
    ensures MarkTransitions(s) == s
    decreases |s|
  {
    if s != [] {
      assert s[0..] == s;
      forall i, w | 0 <= i < |s| - 1 && w in Transitions
        ensures !StartsWith(s[1..][i..], w)
      {
        assert s[1..][i..] == s[i + 1..];
      }
      NoTransitionUnmarked(s[1..]);
    }
  }

  /** Text without digits has no numbered items to space out. */
  lemma {:induction false} NoDigitsUnchanged(s: string)
    requires forall i :: 0 <= i < |s| ==> !IsDigit(s[i])
    ensures SpaceNumbered(s) == s
    decreases |s|
  {
    if s != [] {
      NoDigitsUnchanged(s[1..]);
    }
  }

  // ---------------------------------------------------------------------
  // Advisor: a supportive lead-in

  const SupportiveMarkers: seq<string> := ["I understand", "I hear you", "It sounds like", "Let me help", "Here's what", "I recommend"]
  const LeadIn: string := "I understand this is important. "

  /** `_format_advisor`. */
  function FormatAdvisor(content: string): string
  {
    var text := Strip(content);
    if !ContainsAny(text, SupportiveMarkers) && |text| > 50 && '?' !in Take(text, 100) then LeadIn + text
    else text
  }

  /**
   * The lead-in is added exactly when the stripped text has no supportive
   * marker, is longer than 50 characters, and has no '?' in its first 100;
   * otherwise the stripped text comes back as it is.
   */
  lemma AdvisorLeadIn(content: string)
    ensures var text := Strip(content);
      (FormatAdvisor(content) == LeadIn + text <==>
        (!ContainsAny(text, SupportiveMarkers) && |text| > 50 && '?' !in Take(text, 100)))
      && (FormatAdvisor(content) == text || FormatAdvisor(content) == LeadIn + text)
  {
    var text := Strip(content);
    assert LeadIn + text != text by {
      assert |LeadIn + text| > |text|;
    }
  }

  /** A supportive text is never given the lead-in. */
  lemma SupportiveTextKept(content: string, marker: string)
    requires marker in SupportiveMarkers && Contains(Strip(content), marker)
    ensures FormatAdvisor(content) == Strip(content)
  {
  }

  // ---------------------------------------------------------------------
  // Mode

  /** `format_content`: the formatter for the mode, or the text itself for an unknown mode. */
  function FormatFor(mode: string, content: string): string
  {
    if mode == "concise" then FormatConcise(content)
    else if mode == "expert" then FormatExpert(content)
    else if mode == "advisor" then FormatAdvisor(content)
    else content
  }

  lemma UnknownModeUnchanged(mode: string, content: string)
    requires mode != "concise" && mode != "expert" && mode != "advisor"
    ensures FormatFor(mode, content) == content
  {
  }

  /** `select_response_mode`. */
  function SelectResponseMode(complexity: string, emotionalTone: seq<(string, Json)>, goalDeviation: bool, explicitOverride: Option<string>): (mode: string)
    ensures explicitOverride.Some? && explicitOverride.value != [] ==> mode == explicitOverride.value
    ensures explicitOverride.None? || explicitOverride.value == [] ==> mode in {"concise", "expert", "advisor"}
  {
    if explicitOverride.Some? && explicitOverride.value != [] then explicitOverride.value
    else
      var emotion := GetOr(emotionalTone, "emotion", JStr("neutral"));
      if emotion in [JStr("distressed"), JStr("frustrated")] || goalDeviation then "advisor"
      else if complexity == "complex" then "expert"
      else if complexity == "moderate" then "expert"
      else if emotion in [JStr("positive"), JStr("excited")] && complexity == "simple" then "concise"
      else "concise"
  }

  /** Without an override: distress, frustration or goal deviation gives advisor; else complex or moderate gives expert; else concise. */
  lemma ModeChoice(complexity: string, emotionalTone: seq<(string, Json)>, goalDeviation: bool, explicitOverride: Option<string>)
    requires explicitOverride.None? || explicitOverride.value == []
    ensures var emotion := GetOr(emotionalTone, "emotion", JStr("neutral"));
      var distressed := emotion == JStr("distressed") || emotion == JStr("frustrated") || goalDeviation;
      var mode := SelectResponseMode(complexity, emotionalTone, goalDeviation, explicitOverride);
      (mode == "advisor" <==> distressed)
      && (mode == "expert" <==> !distressed && (complexity == "complex" || complexity == "moderate"))
      && (mode == "concise" <==> !distressed && complexity != "complex" && complexity != "moderate")
  {
  }

  /** A tone without an "emotion" entry counts as neutral. */
  lemma MissingEmotionIsNeutral(complexity: string, emotionalTone: seq<(string, Json)>)
    requires !HasKey(emotionalTone, "emotion")
    ensures SelectResponseMode(complexity, emotionalTone, false, None) ==
      (if complexity == "complex" || complexity == "moderate" then "expert" else "concise")
  {
  }

  // ---------------------------------------------------------------------
  // The response object

  class Response {
    var responseId: string
    var queryId: string
    var timestamp: real
    var mode: string
    var content: string
    var sourceCitations: seq<Citation>
    var personalContext: seq<PersonalContext>
    var toolResults: seq<ToolResultData>
    var confidence: real
    var tokenCount: int
    var cost: real

    /** A response with the given text and mode and the documented defaults for the rest. */
    constructor (responseId: string, queryId: string, now: real, mode: string, content: string)
      ensures this.responseId == responseId && this.queryId == queryId && timestamp == now
      ensures this.mode == mode && this.content == content
      ensures sourceCitations == [] && personalContext == [] && toolResults == []
      ensures confidence == 1.0 && tokenCount == 0 && cost == 0.0
    {
      this.responseId := responseId;
      this.queryId := queryId;
      timestamp := now;
      this.mode := mode;
      this.content := content;
      sourceCitations := [];
      personalContext := [];
      toolResults := [];
      confidence := 1.0;
      tokenCount := 0;
      cost := 0.0;
    }

    predicate IsConcise()
      reads this
    {
      mode == "concise"
    }

    predicate IsExpert()
      reads this
    {
      mode == "expert"
    }

    predicate IsAdvisor()
      reads this
    {
      mode == "advisor"
    }

    predicate HasCitations()
      reads this
    {
      |sourceCitations| > 0
    }

    predicate HasPersonalContext()
      reads this
    {
      |personalContext| > 0
    }

    /** `format_content` on this response's mode and text. */
    function FormatContent(): string
      reads this
    {
      FormatFor(mode, content)
    }

    /** `add_citation`: exactly one citation is appended, stamped `now`, and the response then has citations. */
    method AddCitation(title: string, url: string, snippet: string, now: real)
      modifies this
      ensures sourceCitations == old(sourceCitations) + [Citation(title, url, snippet, now)]
      ensures HasCitations()
      ensures toolResults == old(toolResults) && personalContext == old(personalContext)
      ensures mode == old(mode) && content == old(content) && responseId == old(responseId) && queryId == old(queryId)
      ensures timestamp == old(timestamp) && confidence == old(confidence) && tokenCount == old(tokenCount) && cost == old(cost)
    {
      sourceCitations := sourceCitations + [Citation(title, url, snippet, now)];
    }

    /** `add_tool_result`: exactly one tool result is appended. */
    method AddToolResult(toolName: string, data: seq<(string, Json)>, executionTimeMs: int)
      modifies this
      ensures toolResults == old(toolResults) + [ToolResultData(toolName, data, executionTimeMs)]
      ensures sourceCitations == old(sourceCitations) && personalContext == old(personalContext)
      ensures mode == old(mode) && content == old(content) && responseId == old(responseId) && queryId == old(queryId)
      ensures timestamp == old(timestamp) && confidence == old(confidence) && tokenCount == old(tokenCount) && cost == old(cost)
    {
      toolResults := toolResults + [ToolResultData(toolName, data, executionTimeMs)];
    }
  }
}

// The line heuristics of the reflection agent: a reply is split into
// lines, keyword lines open one of four sections, and bullet or numbered
// lines become items of the open section. `_extract_learnings` and the
// fallback of `_parse_distillation` differ only in their keywords.
module ReflectionParse {
  import opened Wrappers
  import opened Json
  import opened Text
  import opened Seqs

  /** One of the four sections of a parse result, by position. */
  type Section = i: nat | i < 4

  const Bullet: char := '\U{2022}'

  /** The characters `lstrip` removes ahead of an item: dashes, bullets, digits, dots, parentheses and spaces. */
  predicate LeadChar(c: char)
  {
    c == '-' || c == Bullet || ('0' <= c <= '9') || c == '.' || c == ')' || c == ' '
  }

  /** `s.lstrip("-•0123456789.) ")`. */
  function LStripLead(s: string): (r: string)
    ensures |r| <= |s| && r == s[|s| - |r|..]
    ensures r == [] || !LeadChar(r[0])
    ensures forall k :: 0 <= k < |s| - |r| ==> LeadChar(s[k])
  {
    if s != [] && LeadChar(s[0]) then LStripLead(s[1..]) else s
  }

  /** A line that can carry an item: a dash, a bullet, or a digit followed by "." or ")" and something more. */
  predicate IsItemLine(line: string)
  {
    (|line| > 0 && (line[0] == '-' || line[0] == Bullet))
    || (|line| > 2 && '0' <= line[0] <= '9' && (line[1] == '.' || line[1] == ')'))
  }

  /** The item text of a line. */
  function Content(line: string): string
  {
    Strip(LStripLead(line))
  }

  /** The parser's state between lines: the open section and the four item lists. */
  datatype ScanState = ScanState(section: Option<Section>, lists: seq<seq<string>>)

  const Empty := ScanState(None, [[], [], [], []])

  /** One line: a blank line changes nothing; otherwise its keywords may open a section, and an item line adds its content there. */
  function Step(st: ScanState, raw: string, detect: string -> Option<Section>): (r: ScanState)
    requires |st.lists| == 4
    ensures |r.lists| == 4
  {
    var line := Strip(raw);
    if line == "" then st
    else
      var section := if detect(line).Some? then detect(line) else st.section;
      if section.Some? && IsItemLine(line) && Content(line) != "" then
        ScanState(section, st.lists[section.value := st.lists[section.value] + [Content(line)]])
      else ScanState(section, st.lists)
  }

  /** The state after all of `lines`. */
  function ScanAll(lines: seq<string>, detect: string -> Option<Section>): (r: ScanState)
    ensures |r.lists| == 4
  {
    if lines == [] then Empty
    else Step(ScanAll(lines[..|lines| - 1], detect), lines[|lines| - 1], detect)
  }

  lemma ScanSnoc(lines: seq<string>, l: string, detect: string -> Option<Section>)
    ensures ScanAll(lines + [l], detect) == Step(ScanAll(lines, detect), l, detect)
  {
    assert (lines + [l])[..|lines|] == lines;
  }

  /** One pass of the loop body on the open section and the lists. */
  method StepLine(current: Option<Section>, lists: seq<seq<string>>, raw: string, detect: string -> Option<Section>)
    returns (current': Option<Section>, lists': seq<seq<string>>)
    requires |lists| == 4
    ensures ScanState(current', lists') == Step(ScanState(current, lists), raw, detect)
  {
    current', lists' := current, lists;
    var line := Strip(raw);
    if line != "" {
      var found := detect(line);
      if found.Some? {
        current' := found;
      }
      if current'.Some? && IsItemLine(line) {
        var content := Content(line);
        if content != "" {
          lists' := lists'[current'.value := lists'[current'.value] + [content]];
        }
      }
    }
  }

  lemma ScanNext(lines: seq<string>, i: nat, detect: string -> Option<Section>)
    requires i < |lines|
    ensures ScanAll(lines[..i + 1], detect) == Step(ScanAll(lines[..i], detect), lines[i], detect)
  {
    TakeSnoc(lines, i);
    ScanSnoc(lines[..i], lines[i], detect);
  }

  /** The loop over the lines with its mutable open section. */
  method ScanLines(lines: seq<string>, detect: string -> Option<Section>) returns (lists: seq<seq<string>>)
    ensures lists == ScanAll(lines, detect).lists
  {
    var current: Option<Section> := None;
    lists := [[], [], [], []];
    var i := 0;
    while i < |lines|
      invariant 0 <= i <= |lines|
      invariant ScanState(current, lists) == ScanAll(lines[..i], detect)
    {
      ScanNext(lines, i, detect);
      current, lists := StepLine(current, lists, lines[i], detect);
      i := i + 1;
    }
    assert lines[..i] == lines;
  }

  /** A step adds at most the content of its own line, and only to an item line. */
  lemma StepItems(st: ScanState, l: string, detect: string -> Option<Section>, s: Section, x: string)
    requires |st.lists| == 4
    requires x in Step(st, l, detect).lists[s]
    ensures x in st.lists[s] || (IsItemLine(Strip(l)) && x == Content(Strip(l)) && x != "")
  {
  }

  /** Every recorded item is the non-empty content of an item line of the input. */
  lemma {:induction false} ItemsFromItemLines(lines: seq<string>, detect: string -> Option<Section>, s: Section, x: string)
    requires x in ScanAll(lines, detect).lists[s]
    ensures x != ""
    ensures exists i :: 0 <= i < |lines| && IsItemLine(Strip(lines[i])) && x == Content(Strip(lines[i]))
  {
    var init := lines[..|lines| - 1];
    var l := lines[|lines| - 1];
    var before := ScanAll(init, detect);
    StepItems(before, l, detect, s, x);
    if x in before.lists[s] {
      ItemsFromItemLines(init, detect, s, x);
      var i :| 0 <= i < |init| && IsItemLine(Strip(init[i])) && x == Content(Strip(init[i]));
      assert init[i] == lines[i];
    } else {
      assert 0 <= |lines| - 1 < |lines| && lines[|lines| - 1] == l;
    }
  }

  /** Items are recorded only once a section is open: without any keyword line every list stays empty. */
  lemma {:induction false} NoKeywordNoItems(lines: seq<string>, detect: string -> Option<Section>)
    requires forall i :: 0 <= i < |lines| ==> detect(Strip(lines[i])).None?
    ensures ScanAll(lines, detect) == Empty
  {
    if lines != [] {
      NoKeywordNoItems(lines[..|lines| - 1], detect);
    }
  }

  /** A keyword line that is also an item line opens its section and is itself recorded there, other lists untouched. */
  lemma HeaderItemRecorded(lines: seq<string>, l: string, detect: string -> Option<Section>, d: Section)
    requires Strip(l) != "" && detect(Strip(l)) == Some(d)
    requires IsItemLine(Strip(l)) && Content(Strip(l)) != ""
    ensures ScanAll(lines + [l], detect).section == Some(d)
    ensures ScanAll(lines + [l], detect).lists[d] == ScanAll(lines, detect).lists[d] + [Content(Strip(l))]
    ensures forall s: Section :: s != d ==> ScanAll(lines + [l], detect).lists[s] == ScanAll(lines, detect).lists[s]
  {
    ScanSnoc(lines, l, detect);
  }

  /** A line without keywords leaves the open section as it was. */
  lemma SectionPersists(lines: seq<string>, l: string, detect: string -> Option<Section>)
    requires detect(Strip(l)).None?
    ensures ScanAll(lines + [l], detect).section == ScanAll(lines, detect).section
  {
    ScanSnoc(lines, l, detect);
  }

  /** `line.lower()` holds the keyword. */
  predicate Has(line: string, keyword: string)
  {
    Contains(Lower(line), keyword)
  }

  // ---- _extract_learnings ----

  const LearningKeys: seq<string> := ["what_went_well", "improvements", "rules", "prompt_suggestions"]

  /** The section a reflection line opens: "went well", then "improve", then "rule" or "pattern", then "prompt". */
  function LearningSection(line: string): (r: Option<Section>)
    ensures r == Some(0) <==> Has(line, "went well")
    ensures r == Some(1) <==> !Has(line, "went well") && Has(line, "improve")
    ensures r == Some(2) <==> !Has(line, "went well") && !Has(line, "improve") && (Has(line, "rule") || Has(line, "pattern"))
    ensures r == Some(3) <==>
      !Has(line, "went well") && !Has(line, "improve") && !Has(line, "rule") && !Has(line, "pattern") && Has(line, "prompt")
  {
    if Has(line, "went well") then Some(0)
    else if Has(line, "improve") then Some(1)
    else if Has(line, "rule") || Has(line, "pattern") then Some(2)
    else if Has(line, "prompt") then Some(3)
    else None
  }

  /** What `_extract_learnings` returns. */
  function Learnings(text: string): seq<(string, seq<string>)>
  {
    Zip(LearningKeys, ScanAll(Split(text, "\n"), LearningSection).lists)
  }

  /** `_extract_learnings`: always the four keys, each with its items in reply order. */
  method ExtractLearnings(text: string) returns (r: seq<(string, seq<string>)>)
    ensures r == Learnings(text)
    ensures Keys(r) == LearningKeys
  {
    var lists := ScanLines(Split(text, "\n"), LearningSection);
    r := Zip(LearningKeys, lists);
  }

  /** The learnings as the JSON dict stored in a reflection's payload. */
  function LearningsJson(learnings: seq<(string, seq<string>)>): (j: Json)
    ensures j.JObj? && Keys(j.fields) == Keys(learnings)
  {
    JObj(seq(|learnings|, i requires 0 <= i < |learnings| => (learnings[i].0, JArr(StrList(learnings[i].1)))))
  }

  // ---- _parse_distillation ----

  const DistillKeys: seq<string> := ["rules", "failures", "prompts", "procedures"]

  /** The section a distillation line opens: "rule", then "fail", then "prompt", then "procedure" or "step". */
  function DistillSection(line: string): (r: Option<Section>)
    ensures r == Some(0) <==> Has(line, "rule")
    ensures r == Some(1) <==> !Has(line, "rule") && Has(line, "fail")
    ensures r == Some(2) <==> !Has(line, "rule") && !Has(line, "fail") && Has(line, "prompt")
    ensures r == Some(3) <==>
      !Has(line, "rule") && !Has(line, "fail") && !Has(line, "prompt") && (Has(line, "procedure") || Has(line, "step"))
  {
    if Has(line, "rule") then Some(0)
    else if Has(line, "fail") then Some(1)
    else if Has(line, "prompt") then Some(2)
    else if Has(line, "procedure") || Has(line, "step") then Some(3)
    else None
  }

  /** `json.loads`: the decoded value, None where it raises. */
  type JsonLoads = string -> Option<Json>

  /** The JSON block of a reply: from the first "{" through the last "}", when the last comes after the first. */
  function JsonBlock(text: string): (r: Option<string>)
    ensures r.Some? ==> |r.value| >= 2 && r.value[0] == '{' && r.value[|r.value| - 1] == '}'
  {
    var start := Find(text, "{");
    var end := RFindChar(text, '}');
    if start >= 0 && end > start then
      assert MatchAt(text, "{", start);
      Some(text[start..end + 1])
    else None
  }

  /** The dict the JSON path returns: each key's stored value (a stored null included), `[]` when absent. */
  function FromParsed(fields: seq<(string, Json)>): (r: seq<(string, Json)>)
    ensures Keys(r) == DistillKeys
    ensures forall i :: 0 <= i < 4 ==> r[i].1 == GetOr(fields, DistillKeys[i], JArr([]))
  {
    seq(4, i requires 0 <= i < 4 => (DistillKeys[i], GetOr(fields, DistillKeys[i], JArr([]))))
  }

  /** The heuristic result as a dict of string lists. */
  function FromLists(lists: seq<seq<string>>): (r: seq<(string, Json)>)
    requires |lists| == 4
    ensures Keys(r) == DistillKeys
    ensures forall i :: 0 <= i < 4 ==> r[i].1 == JArr(StrList(lists[i]))
  {
    seq(4, i requires 0 <= i < 4 => (DistillKeys[i], JArr(StrList(lists[i]))))
  }

  /**
   * What `_parse_distillation` returns: the JSON block's four keys when it
   * decodes to a dict (anything else raises inside the `try`, or never
   * gets there), the line heuristic otherwise.
   */
  function Distilled(text: string, loads: JsonLoads): (r: seq<(string, Json)>)
    ensures Keys(r) == DistillKeys
  {
    var block := JsonBlock(text);
    if block.Some? && loads(block.value).Some? && loads(block.value).value.JObj? then
      FromParsed(loads(block.value).value.fields)
    else FromLists(ScanAll(Split(text, "\n"), DistillSection).lists)
  }

  /** `_parse_distillation`. */
  method ParseDistillation(text: string, loads: JsonLoads) returns (r: seq<(string, Json)>)
    ensures r == Distilled(text, loads)
  {
    var start := Find(text, "{");
    var end := RFindChar(text, '}');
    ghost var block := JsonBlock(text);
    assert block.Some? <==> start >= 0 && end > start;
    if start >= 0 && end > start {
      assert block.value == text[start..end + 1];
      var parsed := loads(text[start..end + 1]);
      if parsed.Some? && parsed.value.JObj? {
        return FromParsed(parsed.value.fields);
      }
    }
    var lists := ScanLines(Split(text, "\n"), DistillSection);
    assert Distilled(text, loads) == FromLists(ScanAll(Split(text, "\n"), DistillSection).lists);
    r := FromLists(lists);
  }

  /** A reply without any "}" after its first "{" is read by the line heuristic alone. */
  lemma NoBlockUsesHeuristic(text: string, loads: JsonLoads)
    requires Find(text, "{") < 0 || RFindChar(text, '}') <= Find(text, "{")
    ensures Distilled(text, loads) == FromLists(ScanAll(Split(text, "\n"), DistillSection).lists)
  {
  }
}

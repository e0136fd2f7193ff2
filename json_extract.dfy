// The three-strategy JSON extraction the planner, the specialist verifier
// and the presenter each apply to a model reply: the whole text; else the
// first fenced block ```json {...} ```; else the span from the first '{' to
// the last '}'. `json.loads` is the parameter `parse`, None meaning a
// decode error.
module JsonExtract {
  import opened Wrappers
  import opened Json
  import opened Text

  /** Three backticks at `i`. */
  predicate FenceMark(t: string, i: nat)
  {
    i + 3 <= |t| && t[i] == '`' && t[i + 1] == '`' && t[i + 2] == '`'
  }

  /** The word `json` at `i`. */
  predicate JsonTag(t: string, i: nat)
  {
    i + 4 <= |t| && t[i] == 'j' && t[i + 1] == 's' && t[i + 2] == 'o' && t[i + 3] == 'n'
  }

  /** A closing brace at `q` followed by optional whitespace and a closing fence. */
  predicate ClosesFence(t: string, q: nat)
    requires q < |t|
  {
    t[q] == '}' && FenceMark(t, SkipSpace(t, q + 1))
  }

  /** The lazy `.*?\}` with its `\s*```` continuation: the first closing brace at or after `from`. */
  function CloseFence(t: string, from: nat): (r: Option<nat>)
    requires from <= |t|
    ensures r.Some? ==> from <= r.value < |t| && ClosesFence(t, r.value)
    decreases |t| - from
  {
    if from == |t| then None
    else if ClosesFence(t, from) then Some(from)
    else CloseFence(t, from + 1)
  }

  /** Where the opening `\{` must sit when a match starts at `p`. */
  function OpenBrace(t: string, p: nat): (b: nat)
    requires p + 3 <= |t|
    ensures p + 3 <= b <= |t|
  {
    var a := p + 3;
    SkipSpace(t, if JsonTag(t, a) then a + 4 else a)
  }

  /** The group of the pattern ```(?:json)?\s*(\{.*?\})\s*``` when a match starts at `p`. */
  function FenceAt(t: string, p: nat): (r: Option<string>)
    requires p <= |t|
  {
    if !FenceMark(t, p) then None
    else
      var b := OpenBrace(t, p);
      if b < |t| && t[b] == '{' then
        match CloseFence(t, b + 1)
        case None => None
        case Some(q) => Some(t[b..q + 1])
      else None
  }

  /** The leftmost position at or after `p` where a match of the fence pattern starts. */
  function LeftmostFence(t: string, p: nat): (r: Option<nat>)
    requires p <= |t|
    ensures r.Some? ==> p <= r.value <= |t| && FenceAt(t, r.value).Some?
    decreases |t| - p
  {
    if FenceAt(t, p).Some? then Some(p)
    else if p == |t| then None
    else LeftmostFence(t, p + 1)
  }

  /** `re.findall(pattern, text, re.DOTALL)[0]`, when there is a match. */
  function FirstFence(t: string): Option<string>
  {
    match LeftmostFence(t, 0)
    case Some(i) => FenceAt(t, i)
    case None => None
  }

  /** `text[find("{") : rfind("}") + 1]`, only when both exist and end > start. */
  function BraceSpan(t: string): (r: Option<string>)
  {
    var start := Find(t, "{");
    var end := RFindChar(t, '}');
    if start != -1 && end != -1 && end > start then Some(t[start..end + 1]) else None
  }

  /** The planner's `_parse_plan_json` (and its two copies). */
  function ParseLayered(parse: string -> Option<Json>, t: string): Option<Json>
  {
    if parse(t).Some? then parse(t)
    else
      var fenced := FirstFence(t);
      if fenced.Some? && parse(fenced.value).Some? then parse(fenced.value)
      else
        var span := BraceSpan(t);
        if span.Some? && parse(span.value).Some? then parse(span.value)
        else None
  }

  /**
   * A fenced match is a slice of the text: the group begins with '{' right
   * after the opening fence (and an optional `json` and whitespace), ends
   * with '}', and only whitespace separates it from a closing fence.
   */
  lemma FenceAtShape(t: string, p: nat)
    requires p <= |t| && FenceAt(t, p).Some?
    ensures var g := FenceAt(t, p).value; var b := OpenBrace(t, p);
      FenceMark(t, p) && |g| >= 2 && g[0] == '{' && g[|g| - 1] == '}'
      && b + |g| <= |t| && t[b..b + |g|] == g
      && FenceMark(t, SkipSpace(t, b + |g|))
  {
    var b := OpenBrace(t, p);
    var q := CloseFence(t, b + 1).value;
    var g := t[b..q + 1];
    assert t[b..b + |g|] == g;
  }

  /** The span strategy returns the text from its first '{' through its last '}'. */
  lemma BraceSpanShape(t: string)
    requires BraceSpan(t).Some?
    ensures var g := BraceSpan(t).value; var i := Find(t, "{");
      |g| >= 2 && g[0] == '{' && g[|g| - 1] == '}'
      && 0 <= i && i + |g| <= |t| && t[i..i + |g|] == g
      && (forall j :: 0 <= j < i ==> t[j] != '{')
      && (forall j :: i + |g| <= j < |t| ==> t[j] != '}')
  {
    var start := Find(t, "{");
    var end := RFindChar(t, '}');
    var g := t[start..end + 1];
    assert t[start..start + 1] == [t[start]];
    forall j | 0 <= j < start ensures t[j] != '{' {
      assert !MatchAt(t, "{", j);
      assert t[j..j + 1] == [t[j]];
    }
    assert t[start..start + |g|] == g;
  }

  /** Well-formed JSON is decoded as it is: the later strategies never run. */
  lemma ParseLayeredWholeText(parse: string -> Option<Json>, t: string)
    requires parse(t).Some?
    ensures ParseLayered(parse, t) == parse(t)
  {
  }

  /** The slice of the text that the layered parser decodes, when it decodes one. */
  function LayeredSlice(parse: string -> Option<Json>, t: string): (r: (nat, nat))
    ensures r.0 <= r.1 <= |t|
  {
    if parse(t).Some? then (0, |t|)
    else if FirstFence(t).Some? && parse(FirstFence(t).value).Some? then
      var p := LeftmostFence(t, 0).value;
      FenceAtShape(t, p);
      (OpenBrace(t, p), OpenBrace(t, p) + |FirstFence(t).value|)
    else if BraceSpan(t).Some? then
      BraceSpanShape(t);
      (Find(t, "{"), Find(t, "{") + |BraceSpan(t).value|)
    else (0, 0)
  }

  lemma FencedSlice(t: string)
    requires FirstFence(t).Some?
    ensures var p := LeftmostFence(t, 0).value; var b := OpenBrace(t, p);
      b + |FirstFence(t).value| <= |t| && t[b..b + |FirstFence(t).value|] == FirstFence(t).value
  {
    FenceAtShape(t, LeftmostFence(t, 0).value);
  }

  lemma FencedBranch(parse: string -> Option<Json>, t: string)
    requires parse(t).None? && FirstFence(t).Some? && parse(FirstFence(t).value).Some?
    ensures var r := LayeredSlice(parse, t); ParseLayered(parse, t) == parse(t[r.0..r.1])
  {
    var g := FirstFence(t).value;
    var b := OpenBrace(t, LeftmostFence(t, 0).value);
    FencedSlice(t);
    assert LayeredSlice(parse, t) == (b, b + |g|);
  }

  lemma SpanBranch(parse: string -> Option<Json>, t: string)
    requires parse(t).None? && !(FirstFence(t).Some? && parse(FirstFence(t).value).Some?)
    requires BraceSpan(t).Some? && parse(BraceSpan(t).value).Some?
    ensures var r := LayeredSlice(parse, t); ParseLayered(parse, t) == parse(t[r.0..r.1])
  {
    var g := BraceSpan(t).value;
    var i := Find(t, "{");
    BraceSpanShape(t);
    assert LayeredSlice(parse, t) == (i, i + |g|);
  }

  /** Whatever the layered parser returns is the decoding of a slice of the text. */
  lemma ParseLayeredSlice(parse: string -> Option<Json>, t: string)
    requires ParseLayered(parse, t).Some?
    ensures var r := LayeredSlice(parse, t); ParseLayered(parse, t) == parse(t[r.0..r.1])
  {
    if parse(t).Some? {
      assert t[0..|t|] == t;
    } else if FirstFence(t).Some? && parse(FirstFence(t).value).Some? {
      FencedBranch(parse, t);
    } else {
      SpanBranch(parse, t);
    }
  }

  /** The closing brace found is the first one at or after `from` that a closing fence follows. */
  lemma {:induction false} CloseFenceFirst(t: string, from: nat)
    requires from <= |t|
    ensures CloseFence(t, from).Some? ==> forall q :: from <= q < CloseFence(t, from).value ==> !ClosesFence(t, q)
    ensures CloseFence(t, from).None? ==> forall q :: from <= q < |t| ==> !ClosesFence(t, q)
    decreases |t| - from
  {
    if from < |t| && !ClosesFence(t, from) {
      CloseFenceFirst(t, from + 1);
    }
  }

  /** No match starts before the position LeftmostFence reports, nor anywhere when it reports none. */
  lemma {:induction false} LeftmostFenceFirst(t: string, p: nat)
    requires p <= |t|
    ensures LeftmostFence(t, p).Some? ==> forall j :: p <= j < LeftmostFence(t, p).value ==> FenceAt(t, j).None?
    ensures LeftmostFence(t, p).None? ==> forall j :: p <= j <= |t| ==> FenceAt(t, j).None?
    decreases |t| - p
  {
    if FenceAt(t, p).None? && p < |t| {
      LeftmostFenceFirst(t, p + 1);
    }
  }

  /**
   * FirstFence finds a group exactly when some position starts a match, and
   * then it is the group of the leftmost such position.
   */
  lemma FirstFenceLeftmost(t: string)
    ensures FirstFence(t).Some? <==> exists i :: 0 <= i <= |t| && FenceAt(t, i).Some?
    ensures FirstFence(t).Some? ==>
      exists i :: 0 <= i <= |t| && FirstFence(t) == FenceAt(t, i) && (forall j :: 0 <= j < i ==> FenceAt(t, j).None?)
  {
    LeftmostFenceFirst(t, 0);
  }

  /** The lazy group stops at the first brace that a closing fence follows. */
  lemma LazyFenceExample()
    ensures FirstFence("```{x}```{y}```") == Some("{x}")
  {
    var t := "```{x}```{y}```";
    assert t[3] == '{' && t[4] == 'x' && t[5] == '}' && t[6] == '`';
    assert !JsonTag(t, 3);
    assert SkipSpace(t, 3) == 3;
    assert OpenBrace(t, 0) == 3;
    assert !ClosesFence(t, 4);
    assert SkipSpace(t, 6) == 6;
    assert ClosesFence(t, 5);
    assert CloseFence(t, 5) == Some(5);
    assert CloseFence(t, 4) == Some(5);
    assert t[3..6] == "{x}";
    assert FenceAt(t, 0) == Some("{x}");
    assert LeftmostFence(t, 0) == Some(0);
  }
}

// The post-processor applied to a model's reply: search queries are read
// out of `<search>` tags, search/thinking/reasoning spans are removed,
// cited sources are collected and de-duplicated, and whitespace is tidied.
// The tag patterns are matched by hand (leftmost opening tag, then the
// nearest closing tag after it, letters compared in lower case); the two
// source patterns (attribution phrases and URLs) are regex scans and enter
// as the parameter `finder`.
module ResponseProcessor {
  import opened Wrappers
  import opened Json
  import opened Text
  import opened Seqs

  // ---------------------------------------------------------------------
  // Runs of one character

  /** The length of the run of `c` that starts `s`. */
  function RunLen(s: string, c: char): (k: nat)
    ensures k <= |s|
    ensures forall i :: 0 <= i < k ==> s[i] == c
    ensures k < |s| ==> s[k] != c
  {
    if s != [] && s[0] == c then 1 + RunLen(s[1..], c) else 0
  }

  function Rep(c: char, n: nat): (r: string)
    ensures |r| == n && forall i :: 0 <= i < n ==> r[i] == c
  {
    seq(n, _ => c)
  }

  /** `re.sub(c{min,}, c * keep, s)`: every maximal run of at least `min` copies of `c` becomes `keep` copies. */
  function CollapseRuns(s: string, c: char, min: nat, keep: nat): string
    decreases |s|
  {
    if s == [] then []
    else
      var k := RunLen(s, c);
      if k == 0 then [s[0]] + CollapseRuns(s[1..], c, min, keep)
      else (if k >= min then Rep(c, keep) else s[..k]) + CollapseRuns(s[k..], c, min, keep)
  }

  /** Every run of `c` in `s` is shorter than `min`. */
  predicate RunsBelow(s: string, c: char, min: nat)
    decreases |s|
  {
    if s == [] then true
    else
      var k := RunLen(s, c);
      if k == 0 then RunsBelow(s[1..], c, min) else k < min && RunsBelow(s[k..], c, min)
  }

  lemma CollapseHead(s: string, c: char, min: nat, keep: nat)
    requires keep >= 1 && s != []
    ensures CollapseRuns(s, c, min, keep) != [] && CollapseRuns(s, c, min, keep)[0] == s[0]
  {
  }

  lemma {:induction false} RunLenConcat(b: string, r: string, c: char)
    requires forall i :: 0 <= i < |b| ==> b[i] == c
    requires r == [] || r[0] != c
    ensures RunLen(b + r, c) == |b|
  {
    if b != [] {
      assert (b + r)[1..] == b[1..] + r;
      RunLenConcat(b[1..], r, c);
    } else {
      assert b + r == r;
    }
  }

  /** A prefix without `d` does not change which runs of `d` there are. */
  lemma {:induction false} SkipOthers(b: string, r: string, d: char, min: nat)
    requires forall i :: 0 <= i < |b| ==> b[i] != d
    ensures RunsBelow(b + r, d, min) == RunsBelow(r, d, min)
  {
    if b != [] {
      assert (b + r)[1..] == b[1..] + r;
      SkipOthers(b[1..], r, d, min);
    } else {
      assert b + r == r;
    }
  }

  /** After collapsing, every run of `c` is shorter than `min`. */
  lemma {:induction false} CollapseBelow(s: string, c: char, min: nat, keep: nat)
    requires 1 <= keep < min
    ensures RunsBelow(CollapseRuns(s, c, min, keep), c, min)
    decreases |s|
  {
    if s != [] {
      var k := RunLen(s, c);
      if k == 0 {
        var rest := CollapseRuns(s[1..], c, min, keep);
        CollapseBelow(s[1..], c, min, keep);
        assert ([s[0]] + rest)[1..] == rest;
      } else {
        var block := if k >= min then Rep(c, keep) else s[..k];
        var rest := CollapseRuns(s[k..], c, min, keep);
        CollapseBelow(s[k..], c, min, keep);
        if s[k..] != [] {
          CollapseHead(s[k..], c, min, keep);
        }
        RunLenConcat(block, rest, c);
        assert (block + rest)[|block|..] == rest;
      }
    }
  }

  /** Text whose runs are already short is left as it is. */
  lemma {:induction false} CollapseFixed(s: string, c: char, min: nat, keep: nat)
    requires RunsBelow(s, c, min)
    ensures CollapseRuns(s, c, min, keep) == s
    decreases |s|
  {
    if s != [] {
      var k := RunLen(s, c);
      if k == 0 {
        CollapseFixed(s[1..], c, min, keep);
        assert [s[0]] + s[1..] == s;
      } else {
        CollapseFixed(s[k..], c, min, keep);
        assert s[..k] + s[k..] == s;
      }
    }
  }

  /** A character other than `c` is copied as it is. */
  lemma CollapseOther(s: string, c: char, min: nat, keep: nat)
    requires s != [] && s[0] != c
    ensures CollapseRuns(s, c, min, keep) == [s[0]] + CollapseRuns(s[1..], c, min, keep)
  {
    assert RunLen(s, c) == 0;
  }

  lemma {:induction false} CollapsePrefix(s: string, m: nat, c: char, min: nat, keep: nat)
    requires m <= |s| && c !in s[..m]
    ensures CollapseRuns(s, c, min, keep) == s[..m] + CollapseRuns(s[m..], c, min, keep)
  {
    if m > 0 {
      var tail := s[1..];
      assert s[0] == s[..m][0];
      CollapseOther(s, c, min, keep);
      assert tail[..m - 1] == s[..m][1..];
      CollapsePrefix(tail, m - 1, c, min, keep);
      assert tail[m - 1..] == s[m..];
      assert [s[0]] + tail[..m - 1] == s[..m];
    }
  }

  /** Collapsing runs of `c` keeps the runs of another character `d` below their bound. */
  lemma {:induction false} CollapseKeeps(s: string, c: char, min: nat, keep: nat, d: char, min2: nat)
    requires c != d && keep >= 1 && RunsBelow(s, d, min2)
    ensures RunsBelow(CollapseRuns(s, c, min, keep), d, min2)
    decreases |s|
  {
    if s != [] {
      var k := RunLen(s, c);
      if k == 0 {
        if s[0] != d {
          CollapseKeeps(s[1..], c, min, keep, d, min2);
          SkipOthers([s[0]], CollapseRuns(s[1..], c, min, keep), d, min2);
        } else {
          var m := RunLen(s, d);
          assert c !in s[..m];
          CollapsePrefix(s, m, c, min, keep);
          var rest := CollapseRuns(s[m..], c, min, keep);
          CollapseKeeps(s[m..], c, min, keep, d, min2);
          if s[m..] != [] {
            CollapseHead(s[m..], c, min, keep);
          }
          RunLenConcat(s[..m], rest, d);
          assert (s[..m] + rest)[m..] == rest;
        }
      } else {
        assert s == s[..k] + s[k..];
        SkipOthers(s[..k], s[k..], d, min2);
        CollapseKeeps(s[k..], c, min, keep, d, min2);
        var block := if k >= min then Rep(c, keep) else s[..k];
        SkipOthers(block, CollapseRuns(s[k..], c, min, keep), d, min2);
      }
    }
  }

  lemma RunsBelowTail(s: string, c: char, min: nat)
    requires s != [] && RunsBelow(s, c, min)
    ensures RunsBelow(s[1..], c, min)
  {
    var k := RunLen(s, c);
    if k > 1 {
      assert RunLen(s[1..], c) == k - 1;
      assert s[1..][k - 1..] == s[k..];
    }
  }

  lemma RunLenPrefix(s: string, c: char, j: nat)
    requires j <= |s|
    ensures RunLen(s[..j], c) == if RunLen(s, c) < j then RunLen(s, c) else j
  {
    var k := RunLen(s, c);
    if k < j {
      assert s[..j] == s[..k] + s[k..j];
      RunLenConcat(s[..k], s[k..j], c);
    } else {
      assert s[..j] == s[..j] + [];
      RunLenConcat(s[..j], [], c);
    }
  }

  lemma {:induction false} RunsBelowInit(s: string, c: char, min: nat)
    requires s != [] && RunsBelow(s, c, min)
    ensures RunsBelow(s[..|s| - 1], c, min)
    decreases |s|
  {
    var t := s[..|s| - 1];
    var k := RunLen(s, c);
    RunLenPrefix(s, c, |s| - 1);
    if t != [] {
      if k == 0 {
        assert t[1..] == s[1..][..|s[1..]| - 1];
        RunsBelowInit(s[1..], c, min);
      } else if k < |s| {
        assert t[k..] == s[k..][..|s[k..]| - 1];
        RunsBelowInit(s[k..], c, min);
      }
    }
  }

  lemma {:induction false} RunsBelowDrop(s: string, c: char, min: nat, i: nat)
    requires i <= |s| && RunsBelow(s, c, min)
    ensures RunsBelow(s[i..], c, min)
  {
    if i > 0 {
      RunsBelowTail(s, c, min);
      RunsBelowDrop(s[1..], c, min, i - 1);
      assert s[1..][i - 1..] == s[i..];
    }
  }

  lemma {:induction false} RunsBelowTake(s: string, c: char, min: nat, j: nat)
    requires j <= |s| && RunsBelow(s, c, min)
    ensures RunsBelow(s[..j], c, min)
    decreases |s| - j
  {
    if j < |s| {
      RunsBelowInit(s, c, min);
      RunsBelowTake(s[..|s| - 1], c, min, j);
      assert s[..|s| - 1][..j] == s[..j];
    } else {
      assert s[..j] == s;
    }
  }

  lemma DropSlice(s: string, d: nat, a: nat, b: nat)
    requires d <= |s| && a <= b <= |s| - d
    ensures s[d..][a..b] == s[d + a..d + b]
  {
  }

  /** Short runs mean the text never contains `min` copies of `c` in a row. */
  lemma {:induction false} RunsBelowNoRun(s: string, c: char, min: nat)
    requires min >= 1 && RunsBelow(s, c, min)
    ensures !Contains(s, Rep(c, min))
    decreases |s|
  {
    var w := Rep(c, min);
    if s != [] {
      var k := RunLen(s, c);
      var d := if k == 0 then 1 else k;
      var tail := s[d..];
      RunsBelowNoRun(tail, c, min);
      forall i | 0 <= i <= |s|
        ensures !MatchAt(s, w, i)
      {
        if i + min <= |s| {
          if i < d {
            var j := if k == 0 then 0 else k;
            assert i <= j < i + min && s[j] != c;
            assert s[i..i + min][j - i] == s[j];
          } else {
            assert !MatchAt(tail, w, i - d);
            DropSlice(s, d, i - d, i - d + min);
          }
        }
      }
    }
  }

  // ---------------------------------------------------------------------
  // Whitespace

  /** `_normalize_whitespace`: newline runs capped at two, space runs at one, then `strip()`. */
  function NormalizeWhitespace(t: string): string
  {
    Strip(CollapseRuns(CollapseRuns(t, '\n', 3, 2), ' ', 2, 1))
  }

  lemma StripKeepsRuns(s: string, c: char, min: nat)
    requires RunsBelow(s, c, min)
    ensures RunsBelow(Strip(s), c, min)
  {
    StripShape(s);
    var i := SkipSpace(s, 0);
    var r := Strip(s);
    RunsBelowDrop(s, c, min, i);
    RunsBelowTake(s[i..], c, min, |r|);
    assert s[i..][..|r|] == r;
  }

  /**
   * The normalised text has no three newlines in a row, no two spaces in a
   * row, and neither starts nor ends with whitespace.
   */
  lemma NormalizeShape(t: string)
    ensures var r := NormalizeWhitespace(t);
      RunsBelow(r, '\n', 3) && RunsBelow(r, ' ', 2)
      && !Contains(r, "\n\n\n") && !Contains(r, "  ")
      && (r == [] || (!IsSpace(r[0]) && !IsSpace(r[|r| - 1])))
  {
    var a := CollapseRuns(t, '\n', 3, 2);
    var b := CollapseRuns(a, ' ', 2, 1);
    CollapseBelow(t, '\n', 3, 2);
    CollapseKeeps(a, ' ', 2, 1, '\n', 3);
    CollapseBelow(a, ' ', 2, 1);
    StripKeepsRuns(b, '\n', 3);
    StripKeepsRuns(b, ' ', 2);
    StripShape(b);
    var r := Strip(b);
    RunsBelowNoRun(r, '\n', 3);
    RunsBelowNoRun(r, ' ', 2);
    assert Rep('\n', 3) == "\n\n\n" && Rep(' ', 2) == "  ";
  }

  /** Normalising twice is normalising once. */
  lemma NormalizeIdempotent(t: string)
    ensures NormalizeWhitespace(NormalizeWhitespace(t)) == NormalizeWhitespace(t)
  {
    var r := NormalizeWhitespace(t);
    NormalizeShape(t);
    CollapseFixed(r, '\n', 3, 2);
    CollapseFixed(r, ' ', 2, 1);
    StripIdempotent(CollapseRuns(CollapseRuns(t, '\n', 3, 2), ' ', 2, 1));
  }

  /** Text with short runs only loses its surrounding whitespace. */
  lemma NormalizeTidyText(t: string)
    requires RunsBelow(t, '\n', 3) && RunsBelow(t, ' ', 2)
    ensures NormalizeWhitespace(t) == Strip(t)
  {
    CollapseFixed(t, '\n', 3, 2);
    CollapseFixed(t, ' ', 2, 1);
  }

  // ---------------------------------------------------------------------
  // Tags

  const SearchOpen: string := "<search>"
  const SearchClose: string := "</search>"
  const ThinkingOpen: string := "<thinking>"
  const ThinkingClose: string := "</thinking>"
  const ReasoningOpen: string := "<reasoning>"
  const ReasoningClose: string := "</reasoning>"

  /**
   * The first pair a lazy `open(.*?)close` match finds, compared in lower
   * case: the leftmost opening tag, then the nearest closing tag after it.
   */
  function NextPair(t: string, open: string, close: string): (p: Option<(nat, nat)>)
    ensures p.Some? ==> p.value.0 + |open| <= p.value.1 && p.value.1 + |close| <= |t|
  {
    PairIn(Lower(t), open, close)
  }

  /** The pair search on the lower-cased text. */
  function PairIn(lt: string, open: string, close: string): (p: Option<(nat, nat)>)
    ensures p.Some? ==> p.value.0 + |open| <= p.value.1 && p.value.1 + |close| <= |lt|
  {
    var i := Find(lt, open);
    if i < 0 then None
    else
      var j := FindFrom(lt, close, i + |open|);
      if j < 0 then None else Some((i, j))
  }

  /** `re.sub(open + ".*?" + close, "", t)`, case-insensitive and across lines; the tags are given in lower case. */
  function RemoveTag(t: string, open: string, close: string): (r: string)
    requires close != []
    ensures |r| <= |t|
    decreases |t|
  {
    var p := NextPair(t, open, close);
    if p.None? then t else t[..p.value.0] + RemoveTag(t[p.value.1 + |close|..], open, close)
  }

  /** `re.findall(open + "(.*?)" + close, t)`: the text between each matched pair. */
  function TagContents(t: string, open: string, close: string): (r: seq<string>)
    requires close != []
    decreases |t|
  {
    var p := NextPair(t, open, close);
    if p.None? then [] else [t[p.value.0 + |open|..p.value.1]] + TagContents(t[p.value.1 + |close|..], open, close)
  }

  /** Without an opening tag nothing is removed and nothing is found. */
  lemma NoOpeningTag(t: string, open: string, close: string)
    requires close != [] && !Contains(Lower(t), open)
    ensures RemoveTag(t, open, close) == t && TagContents(t, open, close) == []
  {
    FindContains(Lower(t), open);
  }

  lemma LowerSlice(s: string, a: nat, b: nat)
    requires a <= b <= |s|
    ensures Lower(s)[a..b] == Lower(s[a..b])
  {
  }

  /** A tag starts with '<', so it matches nowhere in a stretch without one. */
  lemma NoMatchWithoutAngle(s: string, w: string, lo: nat, hi: nat)
    requires w != [] && w[0] == '<' && lo <= hi <= |s| && '<' !in s[lo..hi]
    ensures forall j :: lo <= j < hi ==> !MatchAt(s, w, j)
  {
    forall j | lo <= j < hi
      ensures !MatchAt(s, w, j)
    {
      assert s[j] == s[lo..hi][j - lo];
      if j + |w| <= |s| {
        assert s[j..j + |w|][0] == s[j];
      }
    }
  }

  /** `LowerChar` only changes letters, so it makes no '<'. */
  lemma LowerNoAngle(s: string)
    requires '<' !in s
    ensures '<' !in Lower(s)
  {
    forall k | 0 <= k < |s|
      ensures Lower(s)[k] != '<'
    {
      assert s[k] in s;
    }
  }

  /** With no '<' before the span or inside it, the first pair matched is this span's tags. */
  lemma FirstPairIsSpan(pre: string, open: string, body: string, close: string, post: string)
    requires close != [] && open != [] && open[0] == '<' && close[0] == '<'
    requires Lower(open) == open && Lower(close) == close
    requires '<' !in pre && '<' !in body
    ensures NextPair(pre + open + body + close + post, open, close) == Some((|pre|, |pre| + |open| + |body|))
  {
    var t := pre + open + body + close + post;
    var lt := Lower(t);
    var i := |pre|;
    var b := i + |open|;
    var e := b + |body|;
    SpanLowered(pre, open, body, close, post);
    NoMatchWithoutAngle(lt, open, 0, i);
    NoMatchWithoutAngle(lt, close, b, e);
    NextPairAt(lt, open, close, i, e);
  }

  /** In the lower-cased text the tags stay where they were and the pieces stay free of '<'. */
  lemma SpanLowered(pre: string, open: string, body: string, close: string, post: string)
    requires Lower(open) == open && Lower(close) == close
    requires '<' !in pre && '<' !in body
    ensures var lt := Lower(pre + open + body + close + post);
      var i := |pre|;
      var b := i + |open|;
      var e := b + |body|;
      |lt| == e + |close| + |post| && MatchAt(lt, open, i) && MatchAt(lt, close, e)
      && '<' !in lt[0..i] && '<' !in lt[b..e]
  {
    var t := pre + open + body + close + post;
    var i := |pre|;
    var b := i + |open|;
    var e := b + |body|;
    assert t[0..i] == pre && t[i..b] == open && t[b..e] == body && t[e..e + |close|] == close;
    LowerSlice(t, 0, i);
    LowerSlice(t, i, b);
    LowerSlice(t, b, e);
    LowerSlice(t, e, e + |close|);
    LowerNoAngle(pre);
    LowerNoAngle(body);
  }

  /**
   * One tagged span is cut out and everything around it is kept: with no '<'
   * before the span or inside it, the first pair matched is exactly this one.
   */
  lemma TagSpanCut(pre: string, open: string, body: string, close: string, post: string)
    requires close != [] && open != [] && open[0] == '<' && close[0] == '<'
    requires Lower(open) == open && Lower(close) == close
    requires '<' !in pre && '<' !in body
    ensures RemoveTag(pre + open + body + close + post, open, close) == pre + RemoveTag(post, open, close)
    ensures TagContents(pre + open + body + close + post, open, close) == [body] + TagContents(post, open, close)
  {
    var t := pre + open + body + close + post;
    var e: nat := |pre| + |open| + |body|;
    assert NextPair(t, open, close) == Some((|pre|, e)) by {
      FirstPairIsSpan(pre, open, body, close, post);
    }
    assert t[..|pre|] == pre && t[|pre| + |open|..e] == body && t[e + |close|..] == post by {
      SpanSlices(pre, open, body, close, post);
    }
    CutAt(t, open, close, pre, body, post);
  }

  /** The scans' step, stated with the pieces the pair splits the text into. */
  lemma CutAt(t: string, open: string, close: string, head: string, inner: string, rest: string)
    requires close != [] && NextPair(t, open, close).Some?
    requires var p := NextPair(t, open, close).value;
      t[..p.0] == head && t[p.0 + |open|..p.1] == inner && t[p.1 + |close|..] == rest
    ensures TagContents(t, open, close) == [inner] + TagContents(rest, open, close)
    ensures RemoveTag(t, open, close) == head + RemoveTag(rest, open, close)
  {
    TagStep(t, open, close);
  }

  lemma SpanSlices(pre: string, open: string, body: string, close: string, post: string)
    ensures var t := pre + open + body + close + post;
      var e := |pre| + |open| + |body|;
      t[..|pre|] == pre && t[|pre| + |open|..e] == body && t[e + |close|..] == post
  {
  }

  /** One step of both scans, where a pair is found. */
  lemma TagStep(t: string, open: string, close: string)
    requires close != [] && NextPair(t, open, close).Some?
    ensures var p := NextPair(t, open, close).value;
      TagContents(t, open, close) == [t[p.0 + |open|..p.1]] + TagContents(t[p.1 + |close|..], open, close)
      && RemoveTag(t, open, close) == t[..p.0] + RemoveTag(t[p.1 + |close|..], open, close)
  {
  }

  /** The pair found is the one whose tags occur first. */
  lemma NextPairAt(lt: string, open: string, close: string, i: nat, e: nat)
    requires MatchAt(lt, open, i) && forall j :: 0 <= j < i ==> !MatchAt(lt, open, j)
    requires i + |open| <= e && MatchAt(lt, close, e)
    requires forall j :: i + |open| <= j < e ==> !MatchAt(lt, close, j)
    ensures PairIn(lt, open, close) == Some((i, e))
  {
    FindFromIs(lt, open, 0, i);
    FindFromIs(lt, close, i + |open|, e);
  }

  /** The first occurrence at or after `from` is the one with none before it. */
  lemma FindFromIs(s: string, w: string, from: nat, i: nat)
    requires from <= i && MatchAt(s, w, i) && forall j :: from <= j < i ==> !MatchAt(s, w, j)
    ensures FindFrom(s, w, from) == i
  {
  }

  /** `_remove_search_tags`: search spans, then thinking spans, then reasoning spans. */
  function RemoveTags(t: string): string
  {
    RemoveTag(RemoveTag(RemoveTag(t, SearchOpen, SearchClose), ThinkingOpen, ThinkingClose), ReasoningOpen, ReasoningClose)
  }

  /** The queries, stripped, with the empty ones dropped. */
  function NonEmptyStripped(ms: seq<string>): (r: seq<string>)
    ensures |r| <= |ms|
    ensures forall q :: q in r ==> q != [] && exists m :: m in ms && q == Strip(m)
  {
    if ms == [] then []
    else (if Strip(ms[0]) != [] then [Strip(ms[0])] else []) + NonEmptyStripped(ms[1..])
  }

  /** `_extract_searches`. */
  function ExtractSearches(t: string): seq<string>
  {
    NonEmptyStripped(TagContents(t, SearchOpen, SearchClose))
  }

  // ---------------------------------------------------------------------
  // Sources

  /** The two source scans: attribution phrases ("according to X", …) and URLs. */
  datatype SourceFinder = SourceFinder(attributions: string -> seq<string>, urls: string -> seq<string>)

  /** Attributions longer than five characters once stripped. */
  function LongAttributions(ms: seq<string>): (r: seq<string>)
    ensures forall q :: q in r ==> |q| > 5
  {
    if ms == [] then []
    else (if |Strip(ms[0])| > 5 then [Strip(ms[0])] else []) + LongAttributions(ms[1..])
  }

  function Candidates(t: string, f: SourceFinder): seq<string>
  {
    LongAttributions(f.attributions(t)) + f.urls(t)
  }

  function LowerAll(xs: seq<string>): (r: seq<string>)
    ensures |r| == |xs| && forall i :: 0 <= i < |xs| ==> r[i] == Lower(xs[i])
  {
    seq(|xs|, i requires 0 <= i < |xs| => Lower(xs[i]))
  }

  /** Each spelling kept the first time its lower-case form appears, in order. */
  function Dedupe(xs: seq<string>): seq<string>
  {
    if xs == [] then []
    else
      var init := Dedupe(xs[..|xs| - 1]);
      var x := xs[|xs| - 1];
      if Lower(x) in LowerAll(init) then init else init + [x]
  }

  /**
   * The kept entries are pairwise different ignoring case, each comes from
   * the input, and every input entry has its lower-case form kept.
   */
  lemma {:induction false} DedupeShape(xs: seq<string>)
    ensures Distinct(LowerAll(Dedupe(xs)))
    ensures forall x :: x in Dedupe(xs) ==> x in xs
    ensures forall x :: x in xs ==> Lower(x) in LowerAll(Dedupe(xs))
  {
    if xs != [] {
      var n := |xs| - 1;
      var init := xs[..n];
      var d := Dedupe(init);
      var x := xs[n];
      DedupeShape(init);
      assert xs == init + [x];
      if Lower(x) !in LowerAll(d) {
        assert LowerAll(d + [x]) == LowerAll(d) + [Lower(x)];
        DistinctSnoc(LowerAll(d), Lower(x));
      }
    }
  }

  lemma DedupeSnoc(xs: seq<string>, x: string)
    ensures Dedupe(xs + [x]) == if Lower(x) in LowerAll(Dedupe(xs)) then Dedupe(xs) else Dedupe(xs) + [x]
  {
    assert (xs + [x])[..|xs|] == xs;
  }

  /** The first spelling wins: an entry with no case-insensitive twin before it is kept. */
  lemma {:induction false} DedupeKeepsFirst(xs: seq<string>, j: nat)
    requires j < |xs|
    requires forall k :: 0 <= k < j ==> Lower(xs[k]) != Lower(xs[j])
    ensures xs[j] in Dedupe(xs)
  {
    var n := |xs| - 1;
    var init := xs[..n];
    assert xs == init + [xs[n]];
    DedupeSnoc(init, xs[n]);
    if j < n {
      assert init[j] == xs[j];
      assert forall k :: 0 <= k < j ==> init[k] == xs[k];
      DedupeKeepsFirst(init, j);
    } else {
      var d := Dedupe(init);
      DedupeShape(init);
      forall m | 0 <= m < |d|
        ensures LowerAll(d)[m] != Lower(xs[n])
      {
        assert d[m] in init;
        var k :| 0 <= k < n && init[k] == d[m];
        assert xs[k] == d[m];
      }
    }
  }

  /** One pass of the source loop: the `seen` set follows the lower-case forms kept. */
  lemma SeenStep(done: seq<string>, s: string, unique: seq<string>, seen: set<string>)
    requires unique == Dedupe(done) && forall y :: y in seen <==> y in LowerAll(unique)
    ensures Dedupe(done + [s]) == if Lower(s) in seen then unique else unique + [s]
    ensures var seen' := if Lower(s) in seen then seen else seen + {Lower(s)};
      forall y :: y in seen' <==> y in LowerAll(Dedupe(done + [s]))
  {
    DedupeSnoc(done, s);
    assert LowerAll(unique + [s]) == LowerAll(unique) + [Lower(s)];
  }

  /** The source loop of `_extract_sources`, with its `seen` set of lower-case forms. */
  method DedupeSources(sources: seq<string>) returns (unique: seq<string>)
    ensures unique == Dedupe(sources)
  {
    var seen: set<string> := {};
    unique := [];
    var i := 0;
    while i < |sources|
      invariant 0 <= i <= |sources|
      invariant unique == Dedupe(sources[..i])
      invariant forall y :: y in seen <==> y in LowerAll(unique)
    {
      var s := sources[i];
      assert sources[..i + 1] == sources[..i] + [s];
      SeenStep(sources[..i], s, unique, seen);
      if Lower(s) !in seen {
        seen := seen + {Lower(s)};
        unique := unique + [s];
      }
      i := i + 1;
    }
    assert sources[..i] == sources;
  }

  /** `_extract_sources`: the de-duplicated candidates, at most five. */
  method ExtractSources(t: string, f: SourceFinder) returns (r: seq<string>)
    ensures r == Take5(Dedupe(Candidates(t, f)))
  {
    var unique := DedupeSources(Candidates(t, f));
    r := if |unique| <= 5 then unique else unique[..5];
  }

  function Take5(xs: seq<string>): (r: seq<string>)
    ensures |r| <= 5 && |r| <= |xs| && r == xs[..|r|]
    ensures |xs| <= 5 ==> r == xs
  {
    if |xs| <= 5 then xs else xs[..5]
  }

  /** The sources are at most five, pairwise different ignoring case, each one of the candidates. */
  lemma SourcesShape(t: string, f: SourceFinder)
    ensures var r := Take5(Dedupe(Candidates(t, f)));
      |r| <= 5 && Distinct(LowerAll(r)) && forall x :: x in r ==> x in Candidates(t, f)
  {
    var d := Dedupe(Candidates(t, f));
    var r := Take5(d);
    DedupeShape(Candidates(t, f));
    assert LowerAll(r) == LowerAll(d)[..|r|];
  }

  // ---------------------------------------------------------------------
  // process

  datatype Processed = Processed(text: string, metadata: seq<(string, Json)>)

  /** The metadata after `process`: the searches, then the sources, each set only when non-empty. */
  function WithFinds(metadata: seq<(string, Json)>, searches: seq<string>, sources: seq<string>): seq<(string, Json)>
  {
    var m := if searches != [] then Put(metadata, "searches_performed", JArr(StrList(searches))) else metadata;
    if sources != [] then Put(m, "sources_cited", JArr(StrList(sources))) else m
  }

  /** `metadata or {}`. */
  function StartMetadata(metadata: Option<seq<(string, Json)>>): seq<(string, Json)>
  {
    if metadata.Some? then metadata.value else []
  }

  /** What `process` returns. */
  function ProcessedOf(t: string, metadata: Option<seq<(string, Json)>>, f: SourceFinder): Processed
  {
    var cleaned := RemoveTags(t);
    Processed(NormalizeWhitespace(cleaned),
      WithFinds(StartMetadata(metadata), ExtractSearches(t), Take5(Dedupe(Candidates(cleaned, f)))))
  }

  /** `ResponsePostProcessor.process`: the steps in order, updating the metadata as it goes. */
  method Process(t: string, metadata: Option<seq<(string, Json)>>, f: SourceFinder) returns (r: Processed)
    ensures r == ProcessedOf(t, metadata, f)
  {
    var meta := StartMetadata(metadata);
    var searches := ExtractSearches(t);
    if searches != [] {
      meta := Put(meta, "searches_performed", JArr(StrList(searches)));
    }
    var cleaned := RemoveTags(t);
    var sources := ExtractSources(cleaned, f);
    if sources != [] {
      meta := Put(meta, "sources_cited", JArr(StrList(sources)));
    }
    return Processed(NormalizeWhitespace(cleaned), meta);
  }

  /** No opening tag of any of the three kinds. */
  predicate Untagged(t: string)
  {
    !Contains(Lower(t), SearchOpen) && !Contains(Lower(t), ThinkingOpen) && !Contains(Lower(t), ReasoningOpen)
  }

  lemma UntaggedUnchanged(t: string)
    requires Untagged(t)
    ensures RemoveTags(t) == t && ExtractSearches(t) == []
  {
    NoOpeningTag(t, SearchOpen, SearchClose);
    NoOpeningTag(t, ThinkingOpen, ThinkingClose);
    NoOpeningTag(t, ReasoningOpen, ReasoningClose);
  }

  /**
   * Processing again gives the same text and finds no searches, once the
   * processed text carries no opening tag.
   */
  lemma ProcessIdempotent(t: string, metadata: Option<seq<(string, Json)>>, f: SourceFinder)
    requires Untagged(ProcessedOf(t, metadata, f).text)
    ensures var once := ProcessedOf(t, metadata, f).text;
      ProcessedOf(once, None, f).text == once && ExtractSearches(once) == []
  {
    var once := ProcessedOf(t, metadata, f).text;
    UntaggedUnchanged(once);
    NormalizeIdempotent(RemoveTags(t));
  }

  /** Text that is already clean comes back stripped, with no searches recorded. */
  lemma CleanTextStripped(t: string, f: SourceFinder)
    requires Untagged(t) && RunsBelow(t, '\n', 3) && RunsBelow(t, ' ', 2)
    requires f.attributions(t) == [] && f.urls(t) == []
    ensures ProcessedOf(t, None, f) == Processed(Strip(t), [])
  {
    assert RemoveTags(t) == t && ExtractSearches(t) == [] by {
      UntaggedUnchanged(t);
    }
    assert NormalizeWhitespace(t) == Strip(t) by {
      NormalizeTidyText(t);
    }
    assert Take5(Dedupe(Candidates(t, f))) == [] by {
      assert LongAttributions([]) == [];
      assert Dedupe([]) == [];
    }
  }

  /** The searches in the response are recorded, in order, under "searches_performed". */
  lemma SearchesRecorded(t: string, f: SourceFinder)
    requires ExtractSearches(t) != []
    ensures Lookup(ProcessedOf(t, None, f).metadata, "searches_performed") == Some(JArr(StrList(ExtractSearches(t))))
  {
    var m := Put([], "searches_performed", JArr(StrList(ExtractSearches(t))));
    var sources := Take5(Dedupe(Candidates(RemoveTags(t), f)));
    if sources != [] {
      PutOther(m, "sources_cited", JArr(StrList(sources)), "searches_performed");
    }
  }
}

// String helpers with Python's meaning: `in` on strings, `lower()` (ASCII),
// `strip()`, `split()`, `split(sep)`, `sep.join(parts)`, `find`, `rfind`.
module Text {
  import opened Wrappers


  function LowerChar(c: char): char
  {
    if 'A' <= c <= 'Z' then (c as int + 32) as char else c
  }

  /** `s.lower()` on the ASCII letters. */
  function Lower(s: string): (r: string)
    ensures |r| == |s|
    ensures forall i :: 0 <= i < |s| ==> r[i] == LowerChar(s[i])
  {
    seq(|s|, i requires 0 <= i < |s| => LowerChar(s[i]))
  }

  function UpperChar(c: char): char
  {
    if 'a' <= c <= 'z' then (c as int - 32) as char else c
  }

  /** `s.upper()` on the ASCII letters. */
  function Upper(s: string): (r: string)
    ensures |r| == |s|
    ensures forall i :: 0 <= i < |s| ==> r[i] == UpperChar(s[i])
  {
    seq(|s|, i requires 0 <= i < |s| => UpperChar(s[i]))
  }

  /** Upper-casing ignores how the letters were cased before. */
  lemma UpperOfLower(s: string)
    ensures Upper(Lower(s)) == Upper(s)
  {
    assert forall i :: 0 <= i < |s| ==> UpperChar(LowerChar(s[i])) == UpperChar(s[i]);
  }

  lemma LowerIdempotent(s: string)
    ensures Lower(Lower(s)) == Lower(s)
  {
    assert forall i :: 0 <= i < |s| ==> LowerChar(LowerChar(s[i])) == LowerChar(s[i]);
  }

  predicate StartsWith(s: string, p: string)
  {
    |p| <= |s| && s[..|p|] == p
  }

  predicate EndsWith(s: string, p: string)
  {
    |p| <= |s| && s[|s| - |p|..] == p
  }

  /** `sub` occurs in `s` starting at index `i`. */
  predicate MatchAt(s: string, sub: string, i: int)
  {
    0 <= i && i + |sub| <= |s| && s[i..i + |sub|] == sub
  }

  /** Python's `sub in s`. */
  predicate Contains(s: string, sub: string)
  {
    exists i :: 0 <= i <= |s| && MatchAt(s, sub, i)
  }

  /** Python's `any(w in s for w in words)`. */
  predicate ContainsAny(s: string, words: seq<string>)
  {
    exists w :: w in words && Contains(s, w)
  }

  /** The leftmost occurrence of `sub` in `s` at or after `i`, or -1. */
  function FindFrom(s: string, sub: string, i: nat): (r: int)
    ensures r == -1 || (i <= r && MatchAt(s, sub, r))
    ensures r >= 0 ==> forall j :: i <= j < r ==> !MatchAt(s, sub, j)
    ensures r == -1 ==> forall j :: i <= j ==> !MatchAt(s, sub, j)
    decreases |s| - i
  {
    if i + |sub| > |s| then -1
    else if MatchAt(s, sub, i) then i
    else FindFrom(s, sub, i + 1)
  }

  /** Python's `s.find(sub)`: the leftmost occurrence, or -1. */
  function Find(s: string, sub: string): (r: int)
    ensures r == -1 || MatchAt(s, sub, r)
    ensures r >= 0 ==> forall j :: 0 <= j < r ==> !MatchAt(s, sub, j)
    ensures r == -1 ==> forall j :: !MatchAt(s, sub, j)
  {
    FindFrom(s, sub, 0)
  }

  lemma FindContains(s: string, sub: string)
    ensures Find(s, sub) >= 0 <==> Contains(s, sub)
  {
  }

  /** Python's `s.rfind(c)` for one character: rightmost index, or -1. */
  function RFindChar(s: string, c: char): (r: int)
    ensures -1 <= r < |s|
    ensures r >= 0 ==> s[r] == c
    ensures forall j :: r < j < |s| ==> s[j] != c
  {
    if |s| == 0 then -1
    else if s[|s| - 1] == c then |s| - 1
    else RFindChar(s[..|s| - 1], c)
  }

  /** Python's `str.isspace()` for one character. */
  predicate IsSpace(c: char)
  {
    c == ' ' || c == '\t' || c == '\n' || c == '\r' || c == '\U{B}' || c == '\U{C}'
    || ('\U{1C}' <= c <= '\U{1F}') || c == '\U{85}' || c == '\U{A0}' || c == '\U{1680}'
    || ('\U{2000}' <= c <= '\U{200A}') || c == '\U{2028}' || c == '\U{2029}' || c == '\U{202F}'
    || c == '\U{205F}' || c == '\U{3000}'
  }

  /** The first index at or after `i` that is not whitespace (regex `\s*`). */
  function SkipSpace(s: string, i: nat): (j: nat)
    requires i <= |s|
    ensures i <= j <= |s|
    ensures j < |s| ==> !IsSpace(s[j])
    decreases |s| - i
  {
    if i < |s| && IsSpace(s[i]) then SkipSpace(s, i + 1) else i
  }

  /** Everything SkipSpace passes over is whitespace. */
  lemma {:induction false} SkipSpaceAll(s: string, i: nat)
    requires i <= |s|
    ensures forall k :: i <= k < SkipSpace(s, i) ==> IsSpace(s[k])
    decreases |s| - i
  {
    if i < |s| && IsSpace(s[i]) {
      SkipSpaceAll(s, i + 1);
    }
  }

  /** The start of the whitespace run that ends at `j`. */
  function BackSpace(s: string, j: nat): (i: nat)
    requires j <= |s|
    ensures i <= j
    ensures i > 0 ==> !IsSpace(s[i - 1])
    ensures forall k :: i <= k < j ==> IsSpace(s[k])
  {
    if j > 0 && IsSpace(s[j - 1]) then BackSpace(s, j - 1) else j
  }

  /** Python's `s.lstrip()`: drops the leading whitespace and nothing else. */
  function TrimStart(s: string): (r: string)
    ensures |r| <= |s| && r == s[|s| - |r|..]
    ensures r == [] || !IsSpace(r[0])
    ensures forall k :: 0 <= k < |s| - |r| ==> IsSpace(s[k])
  {
    SkipSpaceAll(s, 0);
    s[SkipSpace(s, 0)..]
  }

  /** Python's `s.rstrip()`: drops the trailing whitespace and nothing else. */
  function TrimEnd(s: string): (r: string)
    ensures |r| <= |s| && r == s[..|r|]
    ensures r == [] || !IsSpace(r[|r| - 1])
    ensures forall k :: |r| <= k < |s| ==> IsSpace(s[k])
  {
    s[..BackSpace(s, |s|)]
  }

  /** Python's `s.strip()`. */
  function Strip(s: string): (r: string)
  {
    TrimEnd(TrimStart(s))
  }

  /** `strip()` leaves a slice of `s` that neither starts nor ends with whitespace. */
  lemma StripShape(s: string)
    ensures var r := Strip(s); var i := SkipSpace(s, 0);
      (r == [] || (!IsSpace(r[0]) && !IsSpace(r[|r| - 1])))
      && i + |r| <= |s| && s[i..i + |r|] == r
  {
    var i := SkipSpace(s, 0);
    var t := s[i..];
    var n := BackSpace(t, |t|);
    assert Strip(s) == t[..n];
    assert t[..n] == s[i..i + n];
    if n > 0 {
      assert t[..n][0] == s[i];
    }
  }

  lemma StripIdempotent(s: string)
    ensures Strip(Strip(s)) == Strip(s)
  {
    var r := Strip(s);
    StripShape(s);
    assert SkipSpace(r, 0) == 0;
    assert BackSpace(r, |r|) == |r|;
    assert r[0..] == r && r[..|r|] == r;
  }

  predicate IsWord(w: string)
  {
    w != [] && forall i :: 0 <= i < |w| ==> !IsSpace(w[i])
  }

  /** The length of the whitespace-free run that starts `s`. */
  function WordLen(s: string): (n: nat)
    ensures n <= |s|
  {
    if s == [] || IsSpace(s[0]) then 0 else 1 + WordLen(s[1..])
  }

  /** Python's `s.split()` with no separator: the maximal whitespace-free runs. */
  function Words(s: string): seq<string>
    decreases |s|
  {
    if s == [] then []
    else if IsSpace(s[0]) then Words(s[1..])
    else [s[..WordLen(s)]] + Words(s[WordLen(s)..])
  }

  /** The run WordLen measures has no whitespace in it. */
  lemma {:induction false} WordLenRun(s: string)
    ensures forall k :: 0 <= k < WordLen(s) ==> !IsSpace(s[k])
    ensures WordLen(s) < |s| ==> IsSpace(s[WordLen(s)])
  {
    if s != [] && !IsSpace(s[0]) {
      WordLenRun(s[1..]);
    }
  }

  /** Every run `split()` returns is a word. */
  lemma {:induction false} WordsAreWords(s: string)
    ensures forall k :: 0 <= k < |Words(s)| ==> IsWord(Words(s)[k])
    decreases |s|
  {
    if s != [] {
      if IsSpace(s[0]) {
        WordsAreWords(s[1..]);
      } else {
        WordLenRun(s);
        WordsAreWords(s[WordLen(s)..]);
      }
    }
  }

  function Join(parts: seq<string>, sep: string): string
  {
    if |parts| == 0 then ""
    else if |parts| == 1 then parts[0]
    else parts[0] + sep + Join(parts[1..], sep)
  }

  /** Python's `s.split(sep)` for a non-empty separator. */
  function Split(s: string, sep: string): (r: seq<string>)
    requires sep != []
    ensures |r| >= 1
    decreases |s|
  {
    var i := Find(s, sep);
    if i < 0 then [s] else [s[..i]] + Split(s[i + |sep|..], sep)
  }

  lemma {:induction false} JoinSplit(s: string, sep: string)
    requires sep != []
    ensures Join(Split(s, sep), sep) == s
    decreases |s|
  {
    var i := Find(s, sep);
    if i >= 0 {
      var rest := s[i + |sep|..];
      var tail := Split(rest, sep);
      JoinSplit(rest, sep);
      assert Split(s, sep) == [s[..i]] + tail;
      assert ([s[..i]] + tail)[1..] == tail;
      assert Join(Split(s, sep), sep) == s[..i] + sep + rest;
      assert s == s[..i] + s[i..i + |sep|] + rest;
    }
  }

  /** Python's `s[:n]`. */
  function Take(s: string, n: int): (r: string)
    ensures |r| == if n <= 0 then 0 else if n < |s| then n else |s|
    ensures r == s[..|r|]
  {
    if n <= 0 then [] else if n < |s| then s[..n] else s
  }

  /** Python's `s.count(c)` for one character. */
  function CountChar(s: string, c: char): (r: nat)
    ensures r <= |s|
  {
    if |s| == 0 then 0 else (if s[0] == c then 1 else 0) + CountChar(s[1..], c)
  }

  /** Python's `str(list_of_strings)`: `['a', 'b']` (quotes inside the items are not escaped). */
  function ShowStrList(xs: seq<string>): string
  {
    "[" + Join(Quoted(xs), ", ") + "]"
  }

  function Quoted(xs: seq<string>): (r: seq<string>)
    ensures |r| == |xs|
    ensures forall i :: 0 <= i < |xs| ==> r[i] == "'" + xs[i] + "'"
  {
    if xs == [] then [] else ["'" + xs[0] + "'"] + Quoted(xs[1..])
  }
  function DigitChar(d: nat): (c: char)
    requires d < 10
    ensures '0' <= c <= '9'
  {
    ['0', '1', '2', '3', '4', '5', '6', '7', '8', '9'][d]
  }

  /** Python's `str(n)` for a natural number: decimal digits, no leading zero. */
  function NatToString(n: nat): (r: string)
    ensures |r| >= 1 && forall i :: 0 <= i < |r| ==> '0' <= r[i] <= '9'
    ensures |r| > 1 ==> r[0] != '0'
    ensures n < 10 ==> r == [DigitChar(n)]
  {
    if n < 10 then [DigitChar(n)] else NatToString(n / 10) + [DigitChar(n % 10)]
  }

  /** Python's `str(i)` for any integer: a minus sign before the digits of a negative one. */
  function IntToString(i: int): (r: string)
    ensures |r| >= 1
  {
    if i < 0 then "-" + NatToString(-i) else NatToString(i)
  }

  /** `lower()` works character by character, so it distributes over concatenation. */
  lemma LowerAppend(a: string, b: string)
    ensures Lower(a + b) == Lower(a) + Lower(b)
  {
  }

  /** An occurrence stays an occurrence when text is added on either side. */
  lemma ContainsAppend(a: string, b: string, sub: string)
    requires Contains(a, sub)
    ensures Contains(a + b, sub) && Contains(b + a, sub)
  {
    var i :| 0 <= i <= |a| && MatchAt(a, sub, i);
    assert (a + b)[i..i + |sub|] == a[i..i + |sub|];
    assert MatchAt(a + b, sub, i);
    assert (b + a)[|b| + i..|b| + i + |sub|] == a[i..i + |sub|];
    assert MatchAt(b + a, sub, |b| + i);
  }

  /** `template.format(...)` on a template cut at its placeholders: the pieces with the values between them. */
  function Fill(pieces: seq<string>, values: seq<string>): string
    requires |pieces| == |values| + 1
    decreases |values|
  {
    if values == [] then pieces[0] else pieces[0] + values[0] + Fill(pieces[1..], values[1..])
  }

  /** Every value filled into a template occurs in the result. */
  lemma {:induction false} FillContains(pieces: seq<string>, values: seq<string>, i: nat)
    requires |pieces| == |values| + 1 && i < |values|
    ensures Contains(Fill(pieces, values), values[i])
    decreases |values|
  {
    var f := Fill(pieces, values);
    var rest := Fill(pieces[1..], values[1..]);
    assert f == pieces[0] + values[0] + rest;
    if i == 0 {
      assert f[|pieces[0]|..|pieces[0]| + |values[0]|] == values[0];
      assert MatchAt(f, values[0], |pieces[0]|);
    } else {
      FillContains(pieces[1..], values[1..], i - 1);
      ContainsAppend(rest, pieces[0] + values[0], values[i]);
    }
  }

  /** A word inside a text occurs, lowered, in the lowered text. */
  lemma LoweredOccurs(pre: string, w: string, post: string)
    ensures Contains(Lower(pre + w + post), Lower(w))
  {
    LowerAppend(pre + w, post);
    LowerAppend(pre, w);
    var l := Lower(pre) + Lower(w) + Lower(post);
    assert l[|pre|..|pre| + |w|] == Lower(w);
    assert MatchAt(l, Lower(w), |pre|);
  }

  /** The same, with a fixed head in front. */
  lemma LoweredOccursAfter(head: string, pre: string, w: string, post: string)
    ensures Contains(Lower(head + (pre + w + post)), Lower(w))
  {
    assert head + (pre + w + post) == head + pre + w + post;
    LoweredOccurs(head + pre, w, post);
  }

  predicate AllDigits(s: string)
  {
    forall i :: 0 <= i < |s| ==> '0' <= s[i] <= '9'
  }

  /** The value of a string of decimal digits. */
  function DigitsValue(s: string): nat
    requires AllDigits(s)
  {
    if s == [] then 0 else DigitsValue(s[..|s| - 1]) * 10 + (s[|s| - 1] as int - '0' as int)
  }

  function Pow10(n: nat): (r: nat)
    ensures r >= 1
  {
    if n == 0 then 1 else 10 * Pow10(n - 1)
  }

  /**
   * Python's `float()` on a plain numeral `digits` or `digits.digits`;
   * anything else is None.
   */
  function DecimalOf(s: string): (r: Option<real>)
    ensures r.Some? ==> r.value >= 0.0
    ensures r.Some? ==> s != [] && '0' <= s[0] <= '9'
  {
    var k := Find(s, ".");
    if k < 0 then
      if s != [] && AllDigits(s) then Some(DigitsValue(s) as real) else None
    else if 0 < k && k + 1 < |s| && AllDigits(s[..k]) && AllDigits(s[k + 1..]) then
      Some(DigitsValue(s[..k]) as real + DigitsValue(s[k + 1..]) as real / Pow10(|s| - k - 1) as real)
    else None
  }

  lemma DigitCharValue(d: nat)
    requires d < 10
    ensures DigitChar(d) as int - '0' as int == d
  {
  }

  /** Reading back the digits `NatToString` writes gives the number. */
  lemma {:induction false} DigitsOfNatToString(n: nat)
    ensures AllDigits(NatToString(n))
    ensures DigitsValue(NatToString(n)) == n
  {
    var r := NatToString(n);
    if n < 10 {
      DigitCharValue(n);
      assert r[..0] == [];
    } else {
      var a := NatToString(n / 10);
      DigitsOfNatToString(n / 10);
      DigitCharValue(n % 10);
      assert r == a + [DigitChar(n % 10)];
      assert r[..|r| - 1] == a;
    }
  }

  /** A string of digits without a point reads as its digit value. */
  lemma DecimalOfDigits(s: string)
    requires s != [] && AllDigits(s)
    ensures DecimalOf(s) == Some(DigitsValue(s) as real)
  {
    assert Find(s, ".") < 0;
  }

  /** `float(str(n)) == n` for a natural number. */
  lemma DecimalOfNatToString(n: nat)
    ensures DecimalOf(NatToString(n)) == Some(n as real)
  {
    DigitsOfNatToString(n);
    DecimalOfDigits(NatToString(n));
  }

  /** Python's `s.replace(",", "")`. */
  function RemoveCommas(s: string): (r: string)
    ensures |r| <= |s|
    ensures forall i :: 0 <= i < |r| ==> r[i] != ','
  {
    if s == [] then [] else (if s[0] == ',' then [] else [s[0]]) + RemoveCommas(s[1..])
  }

  lemma {:induction false} RemoveCommasAppend(a: string, b: string)
    ensures RemoveCommas(a + b) == RemoveCommas(a) + RemoveCommas(b)
  {
    if a == [] {
      assert a + b == b;
    } else {
      assert (a + b)[0] == a[0];
      assert (a + b)[1..] == a[1..] + b;
      RemoveCommasAppend(a[1..], b);
    }
  }

  /** Removing the separator from `digits,digits` joins the two runs of digits. */
  lemma RemoveSeparator(a: string, b: string)
    requires AllDigits(a) && AllDigits(b)
    ensures AllDigits(a + b)
    ensures RemoveCommas(a + "," + b) == a + b
  {
    assert RemoveCommas(",") == [] by {
      assert [','][1..] == [];
    }
    calc {
      RemoveCommas(a + "," + b);
      { RemoveCommasAppend(a + ",", b); }
      RemoveCommas(a + ",") + RemoveCommas(b);
      { RemoveCommasAppend(a, ","); }
      RemoveCommas(a) + [] + RemoveCommas(b);
      { RemoveCommasDigits(a); RemoveCommasDigits(b); assert a + [] == a; }
      a + b;
    }
    forall i | 0 <= i < |a + b|
      ensures '0' <= (a + b)[i] <= '9'
    {
      if i < |a| {
        assert (a + b)[i] == a[i];
      } else {
        assert (a + b)[i] == b[i - |a|];
      }
    }
  }

  /** A string without commas is left as it is. */
  lemma {:induction false} RemoveCommasDigits(s: string)
    requires AllDigits(s)
    ensures RemoveCommas(s) == s
  {
    if s != [] {
      RemoveCommasDigits(s[1..]);
    }
  }

  // ---------------------------------------------------------------------
  // `" ".join(s.split())`

  /** Splitting words joined by single spaces gives the words back. */
  lemma {:induction false} WordsOfJoin(ws: seq<string>)
    requires forall k :: 0 <= k < |ws| ==> IsWord(ws[k])
    ensures Words(Join(ws, " ")) == ws
  {
    if |ws| == 1 {
      WordsOfWord(ws[0], "");
      assert ws[0] + "" == ws[0];
    } else if |ws| > 1 {
      var rest := Join(ws[1..], " ");
      WordsOfJoin(ws[1..]);
      WordsOfWord(ws[0], " " + rest);
      assert Join(ws, " ") == ws[0] + (" " + rest);
      assert (" " + rest)[1..] == rest;
    }
  }

  /** A word followed by nothing or by whitespace is split off whole. */
  lemma {:induction false} WordsOfWord(w: string, t: string)
    requires IsWord(w) && (t == [] || IsSpace(t[0]))
    ensures Words(w + t) == [w] + Words(t)
  {
    WordLenOfWord(w, t);
    assert (w + t)[..|w|] == w && (w + t)[|w|..] == t;
  }

  lemma {:induction false} WordLenOfWord(w: string, t: string)
    requires forall k :: 0 <= k < |w| ==> !IsSpace(w[k])
    requires t == [] || IsSpace(t[0])
    ensures WordLen(w + t) == |w|
  {
    if w != [] {
      assert (w + t)[1..] == w[1..] + t;
      WordLenOfWord(w[1..], t);
    }
  }

  /** Lowering keeps a word a word. */
  lemma LowerWord(w: string)
    requires IsWord(w)
    ensures IsWord(Lower(w))
  {
  }

  /** Lowering a joined text lowers each part. */
  lemma {:induction false} LowerJoin(ws: seq<string>, sep: string)
    requires Lower(sep) == sep
    ensures Lower(Join(ws, sep)) == Join(LowerAll(ws), sep)
  {
    if |ws| > 1 {
      LowerJoin(ws[1..], sep);
      LowerAppend(ws[0] + sep, Join(ws[1..], sep));
      LowerAppend(ws[0], sep);
      assert LowerAll(ws)[1..] == LowerAll(ws[1..]);
    }
  }

  function LowerAll(ws: seq<string>): (r: seq<string>)
    ensures |r| == |ws| && forall k :: 0 <= k < |ws| ==> r[k] == Lower(ws[k])
  {
    seq(|ws|, k requires 0 <= k < |ws| => Lower(ws[k]))
  }

  /** A text with no whitespace at either end is its own `strip()`. */
  lemma StripClean(s: string)
    requires s == [] || (!IsSpace(s[0]) && !IsSpace(s[|s| - 1]))
    ensures Strip(s) == s
  {
    assert SkipSpace(s, 0) == 0;
    assert s[0..] == s;
    assert BackSpace(s, |s|) == |s|;
  }

  /** Words joined by a separator neither start nor end with whitespace. */
  lemma {:induction false} JoinEnds(ws: seq<string>, sep: string)
    requires |ws| > 0 && forall k :: 0 <= k < |ws| ==> IsWord(ws[k])
    ensures var j := Join(ws, sep); |j| > 0 && !IsSpace(j[0]) && !IsSpace(j[|j| - 1])
  {
    assert IsWord(ws[0]);
    if |ws| > 1 {
      JoinEnds(ws[1..], sep);
    }
  }

  /** Words joined by single spaces are their own `strip()`. */
  lemma JoinWordsStripped(ws: seq<string>)
    requires forall k :: 0 <= k < |ws| ==> IsWord(ws[k])
    ensures Strip(Join(ws, " ")) == Join(ws, " ")
  {
    if |ws| > 0 {
      JoinEnds(ws, " ");
    }
    StripClean(Join(ws, " "));
  }

  /** Leading whitespace does not change the words. */
  lemma {:induction false} WordsAfterSpaces(sp: string, t: string)
    requires forall k :: 0 <= k < |sp| ==> IsSpace(sp[k])
    ensures Words(sp + t) == Words(t)
  {
    if sp != [] {
      assert (sp + t)[0] == sp[0] && IsSpace(sp[0]);
      assert (sp + t)[1..] == sp[1..] + t;
      WordsAfterSpaces(sp[1..], t);
      assert Words(sp + t) == Words(sp[1..] + t);
    } else {
      assert sp + t == t;
    }
  }

  lemma {:induction false} WordLenBeforeSpaces(x: string, sp: string)
    requires sp == [] || IsSpace(sp[0])
    ensures WordLen(x + sp) == WordLen(x)
  {
    if x == [] {
      assert x + sp == sp;
    } else {
      assert (x + sp)[0] == x[0];
      if !IsSpace(x[0]) {
        assert (x + sp)[1..] == x[1..] + sp;
        WordLenBeforeSpaces(x[1..], sp);
      }
    }
  }

  /** Trailing whitespace does not change the words. */
  lemma {:induction false} WordsBeforeSpaces(x: string, sp: string)
    requires forall k :: 0 <= k < |sp| ==> IsSpace(sp[k])
    ensures Words(x + sp) == Words(x)
    decreases |x|
  {
    if x == [] {
      assert x + sp == sp + [];
      WordsAfterSpaces(sp, []);
    } else {
      assert (x + sp)[0] == x[0];
      if IsSpace(x[0]) {
        assert (x + sp)[1..] == x[1..] + sp;
        WordsBeforeSpaces(x[1..], sp);
      } else {
        var n := WordLen(x);
        WordLenBeforeSpaces(x, sp);
        assert (x + sp)[..n] == x[..n];
        assert (x + sp)[n..] == x[n..] + sp;
        WordsBeforeSpaces(x[n..], sp);
      }
    }
  }

  /** `split()` ignores the whitespace `strip()` removes. */
  lemma WordsOfStrip(s: string)
    ensures Words(Strip(s)) == Words(s)
  {
    WordsOfTrimStart(s);
    WordsOfTrimEnd(TrimStart(s));
  }

  lemma WordsOfTrimStart(s: string)
    ensures Words(TrimStart(s)) == Words(s)
  {
    var u := TrimStart(s);
    var lead := s[..|s| - |u|];
    assert s == lead + u;
    WordsAfterSpaces(lead, u);
  }

  lemma WordsOfTrimEnd(u: string)
    ensures Words(TrimEnd(u)) == Words(u)
  {
    var v := TrimEnd(u);
    var trail := u[|v|..];
    assert u == v + trail;
    WordsBeforeSpaces(v, trail);
  }

  /** Text on either side of a whitespace run splits on its own. */
  lemma {:induction false} WordsSeparated(a: string, sp: string, b: string)
    requires sp != [] && forall k :: 0 <= k < |sp| ==> IsSpace(sp[k])
    ensures Words(a + sp + b) == Words(a) + Words(b)
    decreases |a|
  {
    if a == [] {
      assert a + sp + b == sp + b;
      WordsAfterSpaces(sp, b);
    } else {
      assert (a + sp + b)[0] == a[0];
      if IsSpace(a[0]) {
        assert (a + sp + b)[1..] == a[1..] + sp + b;
        WordsSeparated(a[1..], sp, b);
      } else {
        var n := WordLen(a);
        assert a + sp + b == a + (sp + b);
        WordLenBeforeSpaces(a, sp + b);
        assert (a + sp + b)[..n] == a[..n];
        assert (a + sp + b)[n..] == a[n..] + sp + b;
        WordsSeparated(a[n..], sp, b);
      }
    }
  }
}

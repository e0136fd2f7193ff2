// `inject_relevant_memory`: the recalled rows rendered as one line each
// and packed into a context block while their approximate token count
// fits the budget.
module MemoryInject {
  import opened Text
  import opened MemoryStore

  /** How many candidates `inject_relevant_memory` asks `recall` for. */
  const InjectCandidates: int := 20

  /** A candidate's line: `[type:first 8 of id] text`. */
  function Entry(r: Row): (s: string)
    ensures |s| > 0 && s[0] == '['
  {
    var s := "[" + r.itemType + ":" + Take(r.id, 8) + "] " + r.text;
    assert s[0] == '[';
    s
  }

  /** The candidates' lines, in order. */
  function Lines(cands: seq<Row>): (ls: seq<string>)
    ensures |ls| == |cands| && forall k :: 0 <= k < |cands| ==> ls[k] == Entry(cands[k])
  {
    seq(|cands|, k requires 0 <= k < |cands| => Entry(cands[k]))
  }

  /** `_tok_count`: tokens approximated by words. */
  function TokCount(s: string): nat
  {
    |Tokenize(s)|
  }

  /** The tokens of the lines under a counter. */
  function TokensOf(parts: seq<string>, count: string -> nat): nat
  {
    if parts == [] then 0 else TokensOf(parts[..|parts| - 1], count) + count(parts[|parts| - 1])
  }

  /** How many of the lines, packed from `used` tokens on, fit: each while it still fits, stopping at the first that does not. */
  function Fits(lines: seq<string>, budget: int, used: int, count: string -> nat): (n: nat)
    ensures n <= |lines|
  {
    if lines == [] then 0
    else
      var t := count(lines[0]);
      if used + t > budget then 0 else 1 + Fits(lines[1..], budget, used + t, count)
  }

  /** One step of the packing at line `i`: it goes in if it fits, and nothing more does otherwise. */
  lemma FitsAt(lines: seq<string>, i: nat, budget: int, used: int, count: string -> nat)
    requires i < |lines|
    ensures used + count(lines[i]) > budget ==> Fits(lines[i..], budget, used, count) == 0
    ensures used + count(lines[i]) <= budget ==>
      Fits(lines[i..], budget, used, count) == 1 + Fits(lines[i + 1..], budget, used + count(lines[i]), count)
  {
    assert lines[i..][0] == lines[i] && lines[i..][1..] == lines[i + 1..];
  }

  /** The packed lines' tokens stay within the budget, whenever anything is packed or the budget was not already overrun. */
  lemma {:induction false} FitsWithin(lines: seq<string>, budget: int, used: int, count: string -> nat)
    requires used <= budget || Fits(lines, budget, used, count) > 0
    ensures used + TokensOf(lines[..Fits(lines, budget, used, count)], count) <= budget
  {
    if lines != [] {
      var t := count(lines[0]);
      if used + t <= budget {
        var n := Fits(lines[1..], budget, used + t, count);
        FitsWithin(lines[1..], budget, used + t, count);
        TokensOfCons(lines[0], lines[1..][..n], count);
        assert lines[..n + 1] == [lines[0]] + lines[1..][..n];
      } else {
        assert lines[..0] == [];
      }
    } else {
      assert lines[..0] == [];
    }
  }

  /** Packing stops only at a line that would overrun the budget. */
  lemma {:induction false} FitsStops(lines: seq<string>, budget: int, used: int, count: string -> nat)
    ensures var n := Fits(lines, budget, used, count);
      n < |lines| ==> used + TokensOf(lines[..n], count) + count(lines[n]) > budget
  {
    if lines != [] {
      var t := count(lines[0]);
      if used + t <= budget {
        var n := Fits(lines[1..], budget, used + t, count);
        FitsStops(lines[1..], budget, used + t, count);
        TokensOfCons(lines[0], lines[1..][..n], count);
        assert lines[..n + 1] == [lines[0]] + lines[1..][..n];
        if n < |lines[1..]| {
          assert lines[1..][n] == lines[n + 1];
        }
      } else {
        assert lines[..0] == [];
      }
    }
  }

  lemma {:induction false} TokensOfCons(p: string, rest: seq<string>, count: string -> nat)
    ensures TokensOf([p] + rest, count) == count(p) + TokensOf(rest, count)
    decreases |rest|
  {
    if rest != [] {
      var init := rest[..|rest| - 1];
      assert ([p] + rest)[..|rest|] == [p] + init;
      assert ([p] + rest)[|rest|] == rest[|rest| - 1];
      TokensOfCons(p, init, count);
    } else {
      assert [p][..0] == [];
    }
  }

  /** The lines that fit, joined by newlines, or "" when none fits. */
  function ContextBy(cands: seq<Row>, budget: int, count: string -> nat): string
  {
    var parts := Lines(cands)[..Fits(Lines(cands), budget, 0, count)];
    if parts == [] then "" else Join(parts, "\n")
  }

  /** `inject_relevant_memory`'s block, counting tokens with `_tok_count`. */
  function Context(cands: seq<Row>, budget: int): string
  {
    ContextBy(cands, budget, TokCount)
  }

  /** The block is empty exactly when not even the first candidate fits. */
  lemma ContextEmpty(cands: seq<Row>, budget: int)
    ensures Context(cands, budget) == "" <==> cands == [] || TokCount(Entry(cands[0])) > budget
  {
    var lines := Lines(cands);
    var parts := lines[..Fits(lines, budget, 0, TokCount)];
    if parts != [] {
      assert parts[0] == Entry(cands[0]);
      JoinStartsWith(parts, "\n");
    }
  }

  lemma JoinStartsWith(parts: seq<string>, sep: string)
    requires parts != [] && parts[0] != []
    ensures Join(parts, sep) != [] && Join(parts, sep)[0] == parts[0][0]
  {
  }

  /** The packing loop of `inject_relevant_memory`, for a per-line token counter. */
  method PackContext(cands: seq<Row>, budget: int, count: string -> nat) returns (block: string)
    ensures block == ContextBy(cands, budget, count)
  {
    ghost var lines := Lines(cands);
    ghost var n := Fits(lines, budget, 0, count);
    var parts: seq<string> := [];
    var used := 0;
    var i := 0;
    while i < |cands|
      invariant 0 <= i <= |cands|
      invariant parts == lines[..i]
      invariant i + Fits(lines[i..], budget, used, count) == n
    {
      var text := Entry(cands[i]);
      var t := count(text);
      assert text == lines[i];
      FitsAt(lines, i, budget, used, count);
      if used + t > budget {
        break;
      }
      assert lines[..i + 1] == lines[..i] + [text];
      parts := parts + [text];
      used := used + t;
      i := i + 1;
    }
    assert i == n by {
      if i == |cands| {
        assert lines[i..] == [];
      }
    }
    if parts == [] {
      block := "";
    } else {
      block := Join(parts, "\n");
    }
  }
}

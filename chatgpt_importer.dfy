// The importer of a ChatGPT `conversations.json` export into the memory
// vault. Each conversation's message tree is walked from its current node up
// to the root; the text messages of the user and the assistant, put back in
// root-to-leaf order, give one episode per user turn answered by the
// assistant, and a long enough exchange is sent to the model for a summary,
// preferences and rules. The model call, `json.loads` and Python's `str` of a
// non-string value enter as parameters; the k-th record the importer adds
// gets the id and creation time `stamp(k)`.
module ChatgptImporter {
  import opened Wrappers
  import opened Json
  import opened Text
  import opened Seqs
  import opened JsonExtract
  import MemoryVault

  type Files = MemoryVault.Files

  /** A node's message: its author's role, content type, content parts and creation time. */
  datatype Message = Message(role: Option<string>, contentType: Option<string>, parts: seq<Json>, createTime: Json)

  /** A node of the mapping; EmptyNode is a null or empty dict, which ends the walk. */
  datatype Node = EmptyNode | Node(message: Option<Message>, parent: Option<string>)

  /** A conversation: `id` and `title` as its f-strings render them (a missing title as "Untitled"). */
  datatype Conversation = Conversation(id: string, title: string, mapping: map<string, Node>, currentNode: Option<string>)

  /** A kept message: `{"role": ..., "content": ..., "create_time": ...}`. */
  datatype Turn = Turn(role: string, content: string, createTime: Json)

  type Show = Json -> string

  // ---- extraction ----

  /** `while current_node:` — a missing, null or empty id ends the walk. */
  predicate Present(cur: Option<string>)
  {
    cur.Some? && cur.value != ""
  }

  /** The walk goes on from `cur`: its id is present and names a non-empty node. */
  predicate Live(m: map<string, Node>, cur: Option<string>)
  {
    Present(cur) && cur.value in m && m[cur.value].Node?
  }

  /** `"".join([str(p) for p in parts if p])`. */
  function JoinParts(parts: seq<Json>, show: Show): string
  {
    if parts == [] then ""
    else
      var p := parts[0];
      (if !Truthy(p) then "" else if p.JStr? then p.s else show(p)) + JoinParts(parts[1..], show)
  }

  /** The message a node contributes: text content with non-empty joined parts, from the user or the assistant. */
  function KeptOf(n: Node, show: Show): (r: seq<Turn>)
    ensures |r| <= 1
    ensures |r| == 1 ==> (r[0].role == "user" || r[0].role == "assistant") && r[0].content != ""
  {
    if n.EmptyNode? || n.message.None? || n.message.value.contentType != Some("text") then []
    else
      var msg := n.message.value;
      var text := JoinParts(msg.parts, show);
      if text != "" && msg.role.Some? && (msg.role.value == "user" || msg.role.value == "assistant")
      then [Turn(msg.role.value, text, msg.createTime)]
      else []
  }

  /**
   * The kept messages met walking up from `cur`, in walk order (leaf first),
   * visiting at most `fuel` nodes; None when a further node would be visited.
   */
  function Walked(m: map<string, Node>, cur: Option<string>, fuel: nat, show: Show): Option<seq<Turn>>
    decreases fuel
  {
    if !Live(m, cur) then Some([])
    else if fuel == 0 then None
    else
      var rest := Walked(m, m[cur.value].parent, fuel - 1, show);
      if rest.None? then None else Some(KeptOf(m[cur.value], show) + rest.value)
  }

  /** Every message a walk keeps is the user's or the assistant's and has text. */
  lemma {:induction false} WalkedKept(m: map<string, Node>, cur: Option<string>, fuel: nat, show: Show)
    requires Walked(m, cur, fuel, show).Some?
    ensures var ts: seq<Turn> := Walked(m, cur, fuel, show).value;
      forall i :: 0 <= i < |ts| ==> (ts[i].role == "user" || ts[i].role == "assistant") && ts[i].content != ""
    decreases fuel
  {
    if Live(m, cur) {
      WalkedKept(m, m[cur.value].parent, fuel - 1, show);
      var kept: seq<Turn> := KeptOf(m[cur.value], show);
      var rest: seq<Turn> := Walked(m, m[cur.value].parent, fuel - 1, show).value;
      var all := kept + rest;
      forall i | 0 <= i < |all|
        ensures (all[i].role == "user" || all[i].role == "assistant") && all[i].content != ""
      {
        if i >= |kept| {
          assert all[i] == rest[i - |kept|];
        }
      }
    }
  }

  /** The ids visited by the first `n` steps of the walk from `cur`. */
  function Ids(m: map<string, Node>, cur: Option<string>, n: nat): (r: seq<string>)
    ensures forall i :: 0 <= i < |r| ==> r[i] in m
    decreases n
  {
    if n == 0 || !Live(m, cur) then [] else [cur.value] + Ids(m, m[cur.value].parent, n - 1)
  }

  /** A walk that runs out of fuel has visited `fuel + 1` live nodes. */
  lemma {:induction false} OutOfFuelIds(m: map<string, Node>, cur: Option<string>, fuel: nat, show: Show)
    requires Walked(m, cur, fuel, show).None?
    ensures |Ids(m, cur, fuel + 1)| == fuel + 1
    decreases fuel
  {
    if fuel > 0 {
      OutOfFuelIds(m, m[cur.value].parent, fuel - 1, show);
    }
  }

  /**
   * With one visit per node of the mapping as fuel, running out means the
   * walk came back to a node it had visited: the parent chain is a cycle, on
   * which the source's loop never ends.
   */
  lemma WalkRepeats(m: map<string, Node>, cur: Option<string>, show: Show)
    requires Walked(m, cur, |m|, show).None?
    ensures !Distinct(Ids(m, cur, |m| + 1))
  {
    var ids := Ids(m, cur, |m| + 1);
    OutOfFuelIds(m, cur, |m|, show);
    SetCard(ids);
    SubsetCard(Elems(ids), m.Keys);
  }

  /**
   * The converse: a walk that ends within one visit per node never visits a
   * node twice. So the walk is None exactly when the parent chain revisits a
   * node within `|m| + 1` steps.
   */
  lemma WalkEndsDistinct(m: map<string, Node>, cur: Option<string>, show: Show)
    requires Walked(m, cur, |m|, show).Some?
    ensures Distinct(Ids(m, cur, |m| + 1))
  {
    var f := |m|;
    var a := Ids(m, cur, f + 1);
    EndedIds(m, cur, f, show);
    forall i, j | 0 <= i < j < |a|
      ensures a[i] != a[j]
    {
      if a[i] == a[j] {
        IdsShift(m, cur, f + 1, i);
        var b := Ids(m, Some(a[i]), f + 1 - i);
        assert b == a[i..];
        IdsShift(m, Some(a[i]), f + 1 - i, j - i);
        assert b[j - i] == a[j];
        IdsPrefix(m, Some(a[i]), f + 1 - j, f + 1 - i);
        assert false;
      }
    }
  }

  /** A walk that ends within `fuel` visits has visited at most `fuel` nodes. */
  lemma {:induction false} EndedIds(m: map<string, Node>, cur: Option<string>, fuel: nat, show: Show)
    requires Walked(m, cur, fuel, show).Some?
    ensures |Ids(m, cur, fuel + 1)| <= fuel
    decreases fuel
  {
    if Live(m, cur) {
      EndedIds(m, m[cur.value].parent, fuel - 1, show);
    }
  }

  /** The walk from the `k`-th node visited is the rest of the walk. */
  lemma {:induction false} IdsShift(m: map<string, Node>, cur: Option<string>, n: nat, k: nat)
    requires k < |Ids(m, cur, n)|
    ensures k <= n && Ids(m, cur, n)[k..] == Ids(m, Some(Ids(m, cur, n)[k]), n - k)
    decreases k
  {
    if k > 0 {
      IdsShift(m, m[cur.value].parent, n - 1, k - 1);
      assert Ids(m, cur, n)[k..] == Ids(m, m[cur.value].parent, n - 1)[k - 1..];
    } else {
      assert Some(Ids(m, cur, n)[0]) == cur;
    }
  }

  /** The first `n1` steps of a walk are a prefix of its first `n2`, cut short only by the walk's end. */
  lemma {:induction false} IdsPrefix(m: map<string, Node>, cur: Option<string>, n1: nat, n2: nat)
    requires n1 <= n2
    ensures |Ids(m, cur, n1)| == if n1 < |Ids(m, cur, n2)| then n1 else |Ids(m, cur, n2)|
    decreases n1
  {
    if n1 > 0 && Live(m, cur) {
      IdsPrefix(m, m[cur.value].parent, n1 - 1, n2 - 1);
    }
  }

  /** `messages.reverse()`. */
  function Reverse<T>(xs: seq<T>): (r: seq<T>)
    ensures |r| == |xs|
  {
    if xs == [] then [] else Reverse(xs[1..]) + [xs[0]]
  }

  /** The reversed sequence holds the i-th element from the end at `i`. */
  lemma {:induction false} ReverseIndex<T>(xs: seq<T>)
    ensures forall i :: 0 <= i < |xs| ==> Reverse(xs)[i] == xs[|xs| - 1 - i]
  {
    if xs != [] {
      ReverseIndex(xs[1..]);
    }
  }

  /** A conversation's messages root first, or None when its walk never ends. */
  function Extracted(c: Conversation, show: Show): Option<seq<Turn>>
  {
    var w := Walked(c.mapping, c.currentNode, |c.mapping|, show);
    if w.None? then None else Some(Reverse(w.value))
  }

  /** `prefix` followed by the messages of a walk, when it ends. */
  function Prefixed(prefix: seq<Turn>, w: Option<seq<Turn>>): Option<seq<Turn>>
  {
    if w.None? then None else Some(prefix + w.value)
  }

  /** One step of the walk: the node's kept message, then the rest of the walk from its parent. */
  lemma WalkedStep(m: map<string, Node>, cur: Option<string>, fuel: nat, show: Show)
    requires Live(m, cur) && fuel > 0
    ensures var rest := Walked(m, m[cur.value].parent, fuel - 1, show);
      Walked(m, cur, fuel, show) == if rest.None? then None else Some(KeptOf(m[cur.value], show) + rest.value)
  {
  }

  lemma PrefixedEmpty(w: Option<seq<Turn>>)
    ensures Prefixed([], w) == w
  {
    if w.Some? {
      assert [] + w.value == w.value;
    }
  }

  lemma PrefixedStep(prefix: seq<Turn>, kept: seq<Turn>, w: Option<seq<Turn>>)
    ensures Prefixed(prefix, if w.None? then None else Some(kept + w.value)) == Prefixed(prefix + kept, w)
  {
    if w.Some? {
      assert prefix + (kept + w.value) == (prefix + kept) + w.value;
    }
  }

  /** The walk loop: leaf to root, then reversed; None when the parent chain is a cycle. */
  method Extract(c: Conversation, show: Show) returns (r: Option<seq<Turn>>)
    ensures r == Extracted(c, show)
  {
    var m := c.mapping;
    var messages: seq<Turn> := [];
    var cur := c.currentNode;
    var steps: nat := 0;
    PrefixedEmpty(Walked(m, cur, |m|, show));
    while Present(cur)
      invariant steps <= |m|
      invariant Walked(m, c.currentNode, |m|, show) == Prefixed(messages, Walked(m, cur, |m| - steps, show))
      decreases |m| - steps
    {
      if cur.value !in m || m[cur.value].EmptyNode? {
        break;
      }
      if steps == |m| {
        return None;
      }
      var node := m[cur.value];
      WalkedStep(m, cur, |m| - steps, show);
      PrefixedStep(messages, KeptOf(node, show), Walked(m, node.parent, |m| - steps - 1, show));
      messages := messages + KeptOf(node, show);
      cur := node.parent;
      steps := steps + 1;
    }
    assert !Live(m, cur);
    assert messages + [] == messages;
    messages := Reverse(messages);
    r := Some(messages);
  }

  // ---- pairing ----

  /** Message `j` is the user's and the next one the assistant's. */
  predicate IsPair(ts: seq<Turn>, j: int)
  {
    0 <= j && j + 1 < |ts| && ts[j].role == "user" && ts[j + 1].role == "assistant"
  }

  /** The indices below `n` that start a pair, in increasing order. */
  function PairIndices(ts: seq<Turn>, n: nat): seq<nat>
    requires n <= |ts|
  {
    if n == 0 then []
    else PairIndices(ts, n - 1) + if IsPair(ts, n - 1) then [n - 1] else []
  }

  /** The pair indices are exactly the pair starts below `n`, increasing. */
  lemma {:induction false} PairIndicesSound(ts: seq<Turn>, n: nat)
    requires n <= |ts|
    ensures forall j :: j in PairIndices(ts, n) <==> j < n && IsPair(ts, j)
    ensures forall a, b :: 0 <= a < b < |PairIndices(ts, n)| ==> PairIndices(ts, n)[a] < PairIndices(ts, n)[b]
  {
    if n > 0 {
      PairIndicesSound(ts, n - 1);
      var prior := PairIndices(ts, n - 1);
      assert forall a :: 0 <= a < |prior| ==> prior[a] in prior;
    }
  }

  /** Extending the range by one index adds that index's pair, if it starts one. */
  lemma PairStep(c: Conversation, ts: seq<Turn>, j: nat)
    requires j < |ts|
    ensures IsPair(ts, j) ==> PairIndices(ts, j + 1) == PairIndices(ts, j) + [j]
    ensures IsPair(ts, j) ==> Episodes(c, ts, j + 1) == Episodes(c, ts, j) + [EpisodeOf(c, ts[j].content, ts[j + 1].content)]
    ensures IsPair(ts, j) ==>
      PairText(ts, j + 1) == PairText(ts, j) + "User: " + ts[j].content + "\nAssistant: " + ts[j + 1].content + "\n\n"
    ensures !IsPair(ts, j) ==>
      PairIndices(ts, j + 1) == PairIndices(ts, j) && Episodes(c, ts, j + 1) == Episodes(c, ts, j)
      && PairText(ts, j + 1) == PairText(ts, j)
  {
    if !IsPair(ts, j) {
      assert PairIndices(ts, j) + [] == PairIndices(ts, j);
      assert Episodes(c, ts, j) + [] == Episodes(c, ts, j);
      assert PairText(ts, j) + "" == PairText(ts, j);
    }
  }

  /** Two pairs never share a message, so at most half the messages start one. */
  lemma {:induction false} PairsDisjoint(ts: seq<Turn>, n: nat)
    requires n <= |ts|
    ensures 2 * |PairIndices(ts, n)| <= n + 1
  {
    if n >= 2 && IsPair(ts, n - 1) {
      assert !IsPair(ts, n - 2);
      PairsDisjoint(ts, n - 2);
    } else if n >= 1 {
      PairsDisjoint(ts, n - 1);
    }
  }

  /** What each vault call receives, besides the id, the clock and a confidence of 1.0. */
  datatype Addition = Addition(mtype: MemoryVault.MemType, payload: seq<(string, Json)>, summary: Option<string>,
                               ttlDays: Option<int>, tags: seq<string>)

  const Source: Json := JStr("chatgpt_import")

  /** The `add_episode` call for one pair. */
  function EpisodeOf(c: Conversation, user: string, assistant: string): Addition
  {
    Addition(MemoryVault.Episodic, MemoryVault.EpisodePayload("chatgpt-" + c.id, user, assistant, Some(true)),
             Some("Imported from ChatGPT: " + c.title), Some(MemoryVault.EpisodeTtlDays), ["chatgpt_import", "historical"])
  }

  /** The episodes for the pairs starting below `n`, in order. */
  function Episodes(c: Conversation, ts: seq<Turn>, n: nat): (r: seq<Addition>)
    requires n <= |ts|
    ensures |r| == |PairIndices(ts, n)|
  {
    if n == 0 then []
    else Episodes(c, ts, n - 1) + if IsPair(ts, n - 1) then [EpisodeOf(c, ts[n - 1].content, ts[n].content)] else []
  }

  /** Every pair goes into the episodic file. */
  lemma {:induction false} EpisodesEpisodic(c: Conversation, ts: seq<Turn>, n: nat)
    requires n <= |ts|
    ensures forall i :: 0 <= i < |Episodes(c, ts, n)| ==> Episodes(c, ts, n)[i].mtype == MemoryVault.Episodic
  {
    if n > 0 {
      EpisodesEpisodic(c, ts, n - 1);
    }
  }

  /** The i-th episode is the pair starting at the i-th pair index. */
  lemma {:induction false} EpisodeAt(c: Conversation, ts: seq<Turn>, n: nat, i: nat)
    requires n <= |ts| && i < |PairIndices(ts, n)|
    ensures var j := PairIndices(ts, n)[i];
      IsPair(ts, j) && Episodes(c, ts, n)[i] == EpisodeOf(c, ts[j].content, ts[j + 1].content)
  {
    PairStep(c, ts, n - 1);
    if i < |PairIndices(ts, n - 1)| {
      EpisodeAt(c, ts, n - 1, i);
    }
  }

  /** `f"User: {...}\nAssistant: {...}\n\n"` for each pair starting below `n`. */
  function PairText(ts: seq<Turn>, n: nat): string
    requires n <= |ts|
  {
    if n == 0 then ""
    else PairText(ts, n - 1)
         + if IsPair(ts, n - 1) then "User: " + ts[n - 1].content + "\nAssistant: " + ts[n].content + "\n\n" else ""
  }

  // ---- analysis ----

  const PromptHead: string := "Analyze this conversation from the user's ChatGPT history.\n\nConversation:\n"
  const PromptTail: string := "\n\nExtract the following:\n1. A brief title and 2-sentence summary (Semantic Memory).\n2. User preferences (e.g., \"prefers concise answers\", \"hates markdown tables\").\n3. Explicit rules or corrections (e.g., \"never do X\", \"always do Y\").\n\nFormat as JSON:\n{\n    \"summary\": { \"title\": \"...\", \"text\": \"...\" },\n    \"preferences\": [\"pref1\", \"pref2\"],\n    \"rules\": [\"rule1\", \"rule2\"]\n}\n"

  /** `EXTRACTION_PROMPT.format(conversation_text=text)`. */
  function ExtractionPrompt(text: string): (p: string)
    ensures MatchAt(p, text, |PromptHead|)
  {
    var p := PromptHead + text + PromptTail;
    assert p[|PromptHead|..|PromptHead| + |text|] == text;
    p
  }

  /** The one user message `_analyze_conversation` sends: `ExtractionPrompt(conversation)`. */
  datatype Prompt = Extraction(conversation: string)

  /** The model connector's reply to a prompt; None when `generate` raises. */
  type Connector = Prompt -> Option<string>

  /** The longest exchange text that does not trigger analysis, and the most of it the model sees. */
  const AnalysisThreshold: int := 500
  const AnalysisWindow: int := 4000

  /**
   * `_analyze_conversation`: the model's reply (None when the call raises),
   * its span from the first '{' to the last '}', decoded; `{}` when any of
   * these is missing or raises.
   */
  function Analysis(llm: Connector, parse: string -> Option<Json>, text: string): Json
  {
    var reply := llm(Extraction(text));
    if reply.None? then JObj([])
    else
      var span := BraceSpan(reply.value);
      if span.None? then JObj([])
      else if parse(span.value).None? then JObj([])
      else parse(span.value).value
  }

  /** The semantic record of a summary dict: its title and text, or null where missing. */
  function SummaryOf(s: seq<(string, Json)>): Addition
  {
    var title := Lookup(s, "title").GetOr(JNull);
    var text := Lookup(s, "text").GetOr(JNull);
    Addition(MemoryVault.Semantic, [("title", title), ("text", text), ("source", Source)],
             if title.JStr? then Some(title.s) else None, None, ["chatgpt_import", "summary"])
  }

  datatype Kind = PreferenceKind | RuleKind

  /** `item[:50]` rendered by the f-string: a string's or a list's first 50; other values raise. */
  function Head50(item: Json, show: Show): Option<string>
  {
    match item
    case JStr(s) => Some(Take(s, 50))
    case JArr(xs) => Some(show(JArr(if |xs| <= 50 then xs else xs[..50])))
    case _ => None
  }

  /** The `add` call for one preference or rule, given its 50-character head. */
  function ItemOf(kind: Kind, item: Json, head: string): Addition
  {
    match kind
    case PreferenceKind =>
      Addition(MemoryVault.Preference, [("preference", item), ("source", Source)],
               Some("Preference: " + head + "..."), None, ["chatgpt_import", "preference"])
    case RuleKind =>
      Addition(MemoryVault.Checklist, [("rule", item), ("source", Source)],
               Some("Rule: " + head + "..."), None, ["chatgpt_import", "rule"])
  }

  /** The additions for the items up to the first whose slice raises; `complete` when none does. */
  function Items(items: seq<Json>, kind: Kind, show: Show): (r: (seq<Addition>, bool))
    ensures |r.0| <= |items|
    ensures r.1 <==> |r.0| == |items|
  {
    if items == [] then ([], true)
    else
      var h := Head50(items[0], show);
      if h.None? then ([], false)
      else
        var rest := Items(items[1..], kind, show);
        ([ItemOf(kind, items[0], h.value)] + rest.0, rest.1)
  }

  /** Each kept item's addition is built from that item's head. */
  lemma {:induction false} ItemsSound(items: seq<Json>, kind: Kind, show: Show)
    ensures var r := Items(items, kind, show).0;
      forall i :: 0 <= i < |r| ==>
        Head50(items[i], show).Some? && r[i] == ItemOf(kind, items[i], Head50(items[i], show).value)
  {
    if items != [] && Head50(items[0], show).Some? {
      ItemsSound(items[1..], kind, show);
      var r := Items(items, kind, show).0;
      forall i | 0 < i < |r|
        ensures r[i] == Items(items[1..], kind, show).0[i - 1] && items[i] == items[1..][i - 1]
      {
      }
    }
  }

  /** The summary's addition, if the summary is truthy; None when it is truthy but not a dict, so `.get` raises. */
  function SummaryAdds(fs: seq<(string, Json)>): Option<seq<Addition>>
  {
    var sum := Lookup(fs, "summary");
    if sum.None? || !Truthy(sum.value) then Some([])
    else if !sum.value.JObj? then None
    else Some([SummaryOf(sum.value.fields)])
  }

  /** The rule additions, up to the first rule that raises; none when the rules do not iterate. */
  function RuleAdds(fs: seq<(string, Json)>, show: Show): seq<Addition>
  {
    var rules := Iterated(GetOr(fs, "rules", JArr([])));
    if rules.Err? then [] else Items(rules.value, RuleKind, show).0
  }

  /** The preference additions, then, when every preference went in, the rule additions. */
  function ListAdds(fs: seq<(string, Json)>, show: Show): seq<Addition>
  {
    var prefs := Iterated(GetOr(fs, "preferences", JArr([])));
    if prefs.Err? then []
    else
      var p := Items(prefs.value, PreferenceKind, show);
      if !p.1 then p.0 else p.0 + RuleAdds(fs, show)
  }

  /** The additions of the lists once the preferences iterate, and their counters. */
  lemma ListSplit(fs: seq<(string, Json)>, show: Show, prefs: seq<Json>)
    requires Iterated(GetOr(fs, "preferences", JArr([]))) == Ok(prefs)
    ensures var p := Items(prefs, PreferenceKind, show);
      && ListAdds(fs, show) == (if p.1 then p.0 + RuleAdds(fs, show) else p.0)
      && StatsOf(0, ListAdds(fs, show)) == Stats(0, 0, 0, |p.0|, if p.1 then |RuleAdds(fs, show)| else 0)
  {
    var p := Items(prefs, PreferenceKind, show).0;
    ItemsStats(prefs, PreferenceKind, show);
    var rules := Iterated(GetOr(fs, "rules", JArr([])));
    if rules.Ok? {
      ItemsStats(rules.value, RuleKind, show);
    }
    StatsOfConcat(0, p, 0, RuleAdds(fs, show));
  }

  /**
   * The additions the analysis leads to, in call order. Anything that raises
   * inside the `try` (the analysis or its summary not a dict, a list that does
   * not iterate, an item that does not slice) ends them there.
   */
  function AnalysisAdds(analysis: Json, show: Show): seq<Addition>
  {
    if !analysis.JObj? then []
    else
      var sem := SummaryAdds(analysis.fields);
      if sem.None? then [] else sem.value + ListAdds(analysis.fields, show)
  }

  /** A conversation's additions: its episodes, then, for an exchange text over 500 characters, the analysis's. */
  function ConversationAdds(llm: Connector, parse: string -> Option<Json>, show: Show,
                            c: Conversation, ts: seq<Turn>): seq<Addition>
  {
    var text := PairText(ts, |ts|);
    Episodes(c, ts, |ts|)
    + if |text| > AnalysisThreshold then AnalysisAdds(Analysis(llm, parse, Take(text, AnalysisWindow)), show) else []
  }

  /**
   * `process_conversations` over any walk and any per-conversation additions:
   * how many conversations had messages, and every addition in order; None
   * once a walk never ends.
   */
  function ImportedBy<C, T, A>(walk: C -> Option<seq<T>>, adds: (C, seq<T>) -> seq<A>, convs: seq<C>): Option<(nat, seq<A>)>
  {
    if convs == [] then Some((0, []))
    else
      var prior := ImportedBy(walk, adds, convs[..|convs| - 1]);
      var c := convs[|convs| - 1];
      var ts := walk(c);
      if prior.None? || ts.None? then None
      else if ts.value == [] then prior
      else Some((prior.value.0 + 1, prior.value.1 + adds(c, ts.value)))
  }

  function Walker(show: Show): Conversation -> Option<seq<Turn>>
  {
    (c: Conversation) => Extracted(c, show)
  }

  function Adder(llm: Connector, parse: string -> Option<Json>, show: Show): (Conversation, seq<Turn>) -> seq<Addition>
  {
    (c: Conversation, ts: seq<Turn>) => ConversationAdds(llm, parse, show, c, ts)
  }

  /** The import of `convs` with this module's walk and additions. */
  function Imported(llm: Connector, parse: string -> Option<Json>, show: Show,
                    convs: seq<Conversation>): Option<(nat, seq<Addition>)>
  {
    ImportedBy(Walker(show), Adder(llm, parse, show), convs)
  }

  /** The import of one more conversation. */
  lemma ImportedByStep<C, T, A>(walk: C -> Option<seq<T>>, adds: (C, seq<T>) -> seq<A>, convs: seq<C>, i: nat)
    requires i < |convs|
    ensures var prior := ImportedBy(walk, adds, convs[..i]);
      var ts := walk(convs[i]);
      ImportedBy(walk, adds, convs[..i + 1])
      == if prior.None? || ts.None? then None
         else if ts.value == [] then prior
         else Some((prior.value.0 + 1, prior.value.1 + adds(convs[i], ts.value)))
  {
    assert convs[..i + 1][..i] == convs[..i];
  }

  /** Once a walk never ends, neither does the import. */
  lemma {:induction false} ImportedByStops<C, T, A>(walk: C -> Option<seq<T>>, adds: (C, seq<T>) -> seq<A>,
                                                    convs: seq<C>, k: nat)
    requires k <= |convs| && ImportedBy(walk, adds, convs[..k]).None?
    ensures ImportedBy(walk, adds, convs).None?
    decreases |convs| - k
  {
    if k < |convs| {
      ImportedByStep(walk, adds, convs, k);
      ImportedByStops(walk, adds, convs, k + 1);
    } else {
      assert convs[..k] == convs;
    }
  }

  /** A prefix of the conversations imports a prefix of the additions and counts no more conversations. */
  lemma {:induction false} ImportedByGrows<C, T, A>(walk: C -> Option<seq<T>>, adds: (C, seq<T>) -> seq<A>,
                                                    convs: seq<C>, i: nat)
    requires i <= |convs| && ImportedBy(walk, adds, convs).Some?
    ensures ImportedBy(walk, adds, convs[..i]).Some?
    ensures var small := ImportedBy(walk, adds, convs[..i]).value;
      var large := ImportedBy(walk, adds, convs).value;
      small.0 <= large.0 && small.1 <= large.1
    decreases |convs| - i
  {
    if i < |convs| {
      var init := convs[..|convs| - 1];
      assert init[..i] == convs[..i];
      ImportedByGrows(walk, adds, init, i);
    } else {
      assert convs[..i] == convs;
    }
  }

  /** The import of one more conversation whose walk ends, as the counters and additions it leads to. */
  lemma ImportedByAdvance<C, T, A>(walk: C -> Option<seq<T>>, adds: (C, seq<T>) -> seq<A>, convs: seq<C>, i: nat,
                                   ts: seq<T>, n: nat, prior: seq<A>, n': nat, after: seq<A>)
    requires i < |convs| && ImportedBy(walk, adds, convs[..i]) == Some((n, prior)) && walk(convs[i]) == Some(ts)
    requires ts == [] ==> n' == n && after == prior
    requires ts != [] ==> n' == n + 1 && after == prior + adds(convs[i], ts)
    ensures ImportedBy(walk, adds, convs[..i + 1]) == Some((n', after))
  {
    ImportedByStep(walk, adds, convs, i);
  }

  /** A conversation whose parent chain is a cycle ends the import with None. */
  lemma ImportedStopsAt(llm: Connector, parse: string -> Option<Json>, show: Show, convs: seq<Conversation>, i: nat)
    requires i < |convs| && Imported(llm, parse, show, convs[..i]).Some? && Extracted(convs[i], show).None?
    ensures Imported(llm, parse, show, convs).None?
  {
    ImportedByStep(Walker(show), Adder(llm, parse, show), convs, i);
    ImportedByStops(Walker(show), Adder(llm, parse, show), convs, i + 1);
  }

  // ---- counting ----

  datatype Stats = Stats(conversations: nat, episodes: nat, semantic: nat, preferences: nat, rules: nat)

  /** The additions of one type. */
  function CountOf(adds: seq<Addition>, t: MemoryVault.MemType): (n: nat)
    ensures n <= |adds|
  {
    if adds == [] then 0
    else CountOf(adds[..|adds| - 1], t) + if adds[|adds| - 1].mtype == t then 1 else 0
  }

  lemma {:induction false} CountOfConcat(a: seq<Addition>, b: seq<Addition>, t: MemoryVault.MemType)
    ensures CountOf(a + b, t) == CountOf(a, t) + CountOf(b, t)
    decreases |b|
  {
    var ab := a + b;
    if b == [] {
      assert ab == a;
    } else {
      assert ab[..|ab| - 1] == a + b[..|b| - 1];
      assert ab[|ab| - 1] == b[|b| - 1];
      CountOfConcat(a, b[..|b| - 1], t);
    }
  }

  /** The returned counters: one per addition of each type. */
  function StatsOf(n: nat, adds: seq<Addition>): Stats
  {
    Stats(n, CountOf(adds, MemoryVault.Episodic), CountOf(adds, MemoryVault.Semantic),
          CountOf(adds, MemoryVault.Preference), CountOf(adds, MemoryVault.Checklist))
  }

  predicate StatsLe(a: Stats, b: Stats)
  {
    a.conversations <= b.conversations && a.episodes <= b.episodes && a.semantic <= b.semantic
    && a.preferences <= b.preferences && a.rules <= b.rules
  }

  /** Importing more conversations keeps every earlier addition and lowers no counter. */
  lemma ImportedGrows(llm: Connector, parse: string -> Option<Json>, show: Show,
                      convs: seq<Conversation>, i: nat)
    requires i <= |convs| && Imported(llm, parse, show, convs).Some?
    ensures Imported(llm, parse, show, convs[..i]).Some?
    ensures var small := Imported(llm, parse, show, convs[..i]).value;
      var large := Imported(llm, parse, show, convs).value;
      small.1 <= large.1 && StatsLe(StatsOf(small.0, small.1), StatsOf(large.0, large.1))
  {
    ImportedByGrows(Walker(show), Adder(llm, parse, show), convs, i);
    var small := Imported(llm, parse, show, convs[..i]).value;
    var large := Imported(llm, parse, show, convs).value;
    var extra := large.1[|small.1|..];
    assert large.1 == small.1 + extra;
    forall t ensures CountOf(small.1, t) <= CountOf(large.1, t) {
      CountOfConcat(small.1, extra, t);
    }
  }

  /** A conversation without kept messages is not counted and adds nothing. */
  lemma SkippedConversation(llm: Connector, parse: string -> Option<Json>, show: Show,
                            convs: seq<Conversation>, c: Conversation)
    requires Extracted(c, show) == Some([])
    ensures Imported(llm, parse, show, convs + [c]) == Imported(llm, parse, show, convs)
  {
    ImportedByStep(Walker(show), Adder(llm, parse, show), convs + [c], |convs|);
    assert (convs + [c])[..|convs|] == convs && (convs + [c])[..|convs| + 1] == convs + [c];
  }

  /** A conversation yields one episode per pair, and the analysis runs only past 500 characters, on at most 4000. */
  lemma ConversationShape(llm: Connector, parse: string -> Option<Json>, show: Show,
                          c: Conversation, ts: seq<Turn>)
    ensures var adds := ConversationAdds(llm, parse, show, c, ts);
      var text := PairText(ts, |ts|);
      && CountOf(adds, MemoryVault.Episodic) >= |PairIndices(ts, |ts|)|
      && adds[..|PairIndices(ts, |ts|)|] == Episodes(c, ts, |ts|)
      && (|text| <= AnalysisThreshold ==> adds == Episodes(c, ts, |ts|))
      && (|text| > AnalysisThreshold ==>
            adds[|PairIndices(ts, |ts|)|..] == AnalysisAdds(Analysis(llm, parse, text[..Min(|text|, AnalysisWindow)]), show))
  {
    var eps := Episodes(c, ts, |ts|);
    var adds := ConversationAdds(llm, parse, show, c, ts);
    var rest := adds[|eps|..];
    assert adds == eps + rest;
    CountOfConcat(eps, rest, MemoryVault.Episodic);
    EpisodesEpisodic(c, ts, |ts|);
    OneTypeCount(eps, MemoryVault.Episodic);
  }

  function Min(a: int, b: int): int
  {
    if a <= b then a else b
  }

  /** Additions all of one type count as that type and no other. */
  lemma {:induction false} OneTypeCount(adds: seq<Addition>, t0: MemoryVault.MemType)
    requires forall i :: 0 <= i < |adds| ==> adds[i].mtype == t0
    ensures forall t :: CountOf(adds, t) == if t == t0 then |adds| else 0
  {
    if adds != [] {
      OneTypeCount(adds[..|adds| - 1], t0);
    }
  }

  /** The pairing loop counts only episodes, one per pair. */
  lemma EpisodesStats(c: Conversation, ts: seq<Turn>)
    ensures StatsOf(0, Episodes(c, ts, |ts|)) == Stats(0, |PairIndices(ts, |ts|)|, 0, 0, 0)
  {
    EpisodesEpisodic(c, ts, |ts|);
    OneTypeCount(Episodes(c, ts, |ts|), MemoryVault.Episodic);
  }

  function Plus(a: Stats, b: Stats): Stats
  {
    Stats(a.conversations + b.conversations, a.episodes + b.episodes, a.semantic + b.semantic,
          a.preferences + b.preferences, a.rules + b.rules)
  }

  lemma StatsOfConcat(m: nat, a: seq<Addition>, n: nat, b: seq<Addition>)
    ensures StatsOf(m + n, a + b) == Plus(StatsOf(m, a), StatsOf(n, b))
  {
    forall t ensures CountOf(a + b, t) == CountOf(a, t) + CountOf(b, t) {
      CountOfConcat(a, b, t);
    }
  }

  /** The preference items count as preferences, the rule items as rules. */
  lemma ItemsStats(items: seq<Json>, kind: Kind, show: Show)
    ensures var adds := Items(items, kind, show).0;
      StatsOf(0, adds) == if kind == PreferenceKind then Stats(0, 0, 0, |adds|, 0) else Stats(0, 0, 0, 0, |adds|)
  {
    var adds := Items(items, kind, show).0;
    ItemsSound(items, kind, show);
    OneTypeCount(adds, if kind == PreferenceKind then MemoryVault.Preference else MemoryVault.Checklist);
  }

  // ---- the vault ----

  /** The record the vault builds for an addition with stamp `(id, createdAt)`. */
  function RecordOf(a: Addition, stamp: (string, string)): MemoryVault.Record
  {
    MemoryVault.NewRecord(stamp.0, a.mtype.Name(), stamp.1, a.payload, a.summary, Some(1.0), a.ttlDays, Some(a.tags))
  }

  /** The vault's files after one addition. */
  function Append(files: Files, a: Addition, stamp: (string, string)): Files
  {
    files[a.mtype := MemoryVault.LinesOf(files, a.mtype) + [MemoryVault.Rec(RecordOf(a, stamp))]]
  }

  /** Steps applied in order to a state, the i-th with index `k + i`. */
  function Fold<S, A>(s: S, xs: seq<A>, step: (S, A, nat) -> S, k: nat): S
  {
    if xs == [] then s else step(Fold(s, xs[..|xs| - 1], step, k), xs[|xs| - 1], k + |xs| - 1)
  }

  lemma {:induction false} FoldConcat<S, A>(s: S, a: seq<A>, b: seq<A>, step: (S, A, nat) -> S, k: nat)
    ensures Fold(s, a + b, step, k) == Fold(Fold(s, a, step, k), b, step, k + |a|)
    decreases |b|
  {
    var ab := a + b;
    if b == [] {
      assert ab == a;
    } else {
      var init := b[..|b| - 1];
      assert ab[..|ab| - 1] == a + init;
      assert ab[|ab| - 1] == b[|b| - 1];
      FoldConcat(s, a, init, step, k);
    }
  }

  /** One vault call per addition, the i-th stamped `stamp(i)`. */
  function AddStep(stamp: nat -> (string, string)): (Files, Addition, nat) -> Files
  {
    (f: Files, a: Addition, i: nat) => Append(f, a, stamp(i))
  }

  /** The vault's files after `adds`, the i-th stamped `stamp(k + i)`. */
  function Applied(files: Files, adds: seq<Addition>, stamp: nat -> (string, string), k: nat): Files
  {
    Fold(files, adds, AddStep(stamp), k)
  }

  lemma AppliedConcat(files: Files, a: seq<Addition>, b: seq<Addition>, stamp: nat -> (string, string), k: nat)
    ensures Applied(files, a + b, stamp, k) == Applied(Applied(files, a, stamp, k), b, stamp, k + |a|)
  {
    FoldConcat(files, a, b, AddStep(stamp), k);
  }

  /** Applying one more addition. */
  lemma AppliedSnoc(files: Files, a: seq<Addition>, x: Addition, stamp: nat -> (string, string), k: nat)
    ensures Applied(files, a + [x], stamp, k) == Append(Applied(files, a, stamp, k), x, stamp(k + |a|))
  {
    assert (a + [x])[..|a|] == a;
  }

  /** An importer writes to its vault and asks its model connector. */
  class Importer {
    const vault: MemoryVault.Vault
    const llm: Connector
    const parse: string -> Option<Json>
    /** The vault's files when the import started, and every addition made since. */
    ghost var base: Files
    ghost var log: seq<Addition>

    constructor (vault: MemoryVault.Vault, llm: Connector, parse: string -> Option<Json>)
      ensures this.vault == vault && this.llm == llm && this.parse == parse
      ensures base == vault.files && log == []
    {
      this.vault := vault;
      this.llm := llm;
      this.parse := parse;
      base := vault.files;
      log := [];
    }

    /** The vault holds the starting files with every logged addition applied, the i-th stamped `stamp(i)`. */
    ghost predicate Logged(stamp: nat -> (string, string))
      reads this, vault
    {
      vault.files == Applied(base, log, stamp, 0)
    }

    /** One `add` call with a confidence of 1.0. */
    method AddOne(a: Addition, stamp: (string, string))
      modifies vault
      ensures vault.files == Append(old(vault.files), a, stamp)
    {
      MemoryVault.PathOfName(a.mtype);
      var r := vault.Add(a.mtype.Name(), a.payload, a.summary, Some(1.0), a.ttlDays, Some(a.tags), stamp.0, stamp.1);
    }

    /** One `add_episode` call for a pair. */
    method AddPair(c: Conversation, user: string, assistant: string, stamp: (string, string))
      modifies vault
      ensures vault.files == Append(old(vault.files), EpisodeOf(c, user, assistant), stamp)
    {
      var r := vault.AddEpisode("chatgpt-" + c.id, user, assistant, Some(true),
                                Some("Imported from ChatGPT: " + c.title), Some(1.0),
                                Some(["chatgpt_import", "historical"]), stamp.0, stamp.1);
    }

    /** `AddOne` as the next logged addition; `index` is its place in the log. */
    method AddNext(a: Addition, stamp: nat -> (string, string), index: nat)
      requires index == |log| && Logged(stamp)
      modifies this, vault
      ensures base == old(base) && log == old(log) + [a] && Logged(stamp)
    {
      AppliedSnoc(base, log, a, stamp, 0);
      AddOne(a, stamp(index));
      log := log + [a];
    }

    /** `AddPair` as the next logged addition. */
    method PairNext(c: Conversation, user: string, assistant: string, stamp: nat -> (string, string), index: nat)
      requires index == |log| && Logged(stamp)
      modifies this, vault
      ensures base == old(base) && log == old(log) + [EpisodeOf(c, user, assistant)] && Logged(stamp)
    {
      AppliedSnoc(base, log, EpisodeOf(c, user, assistant), stamp, 0);
      AddPair(c, user, assistant, stamp(index));
      log := log + [EpisodeOf(c, user, assistant)];
    }

    /** One pass of the pairing loop: message `j` and the next one, stored when they are a pair. */
    method PairAt(c: Conversation, ts: seq<Turn>, stamp: nat -> (string, string), k: nat, j: nat, episodes: nat, text: string,
                  ghost l0: seq<Addition>)
      returns (episodes': nat, text': string)
      requires j + 1 < |ts| && episodes == |PairIndices(ts, j)| && text == PairText(ts, j)
      requires k == |l0| && log == l0 + Episodes(c, ts, j) && Logged(stamp)
      modifies this, vault
      ensures episodes' == |PairIndices(ts, j + 1)| && text' == PairText(ts, j + 1)
      ensures base == old(base) && log == l0 + Episodes(c, ts, j + 1) && Logged(stamp)
    {
      PairStep(c, ts, j);
      if ts[j].role == "user" && ts[j + 1].role == "assistant" {
        PairNext(c, ts[j].content, ts[j + 1].content, stamp, k + episodes);
        ConcatAssoc(l0, Episodes(c, ts, j), [EpisodeOf(c, ts[j].content, ts[j + 1].content)]);
        return episodes + 1, text + "User: " + ts[j].content + "\nAssistant: " + ts[j + 1].content + "\n\n";
      }
      return episodes, text;
    }

    /** The pairing loop: one `add_episode` per user message the assistant answers, and the text of the pairs. */
    method StoreEpisodes(c: Conversation, ts: seq<Turn>, stamp: nat -> (string, string), k: nat)
      returns (episodes: nat, text: string)
      requires k == |log| && Logged(stamp)
      modifies this, vault
      ensures episodes == |PairIndices(ts, |ts|)| && text == PairText(ts, |ts|)
      ensures base == old(base) && log == old(log) + Episodes(c, ts, |ts|) && Logged(stamp)
    {
      episodes := 0;
      text := "";
      ghost var l0 := log;
      assert log == l0 + [];
      if |ts| == 0 {
        return;
      }
      var j := 0;
      while j < |ts| - 1
        invariant 0 <= j <= |ts| - 1
        invariant episodes == |PairIndices(ts, j)| && text == PairText(ts, j)
        invariant base == old(base) && log == l0 + Episodes(c, ts, j) && Logged(stamp)
      {
        episodes, text := PairAt(c, ts, stamp, k, j, episodes, text, l0);
        j := j + 1;
      }
      PairStep(c, ts, |ts| - 1);
    }

    /** The loop over preferences or rules, stopping at the first item whose slice raises. */
    method StoreItems(items: seq<Json>, kind: Kind, show: Show, stamp: nat -> (string, string), k: nat)
      returns (stored: nat, complete: bool)
      requires k == |log| && Logged(stamp)
      modifies this, vault
      ensures stored == |Items(items, kind, show).0| && complete == Items(items, kind, show).1
      ensures base == old(base) && log == old(log) + Items(items, kind, show).0 && Logged(stamp)
    {
      ghost var all := Items(items, kind, show).0;
      ItemsSound(items, kind, show);
      var i := 0;
      assert log == old(log) + all[..0];
      while i < |items|
        invariant 0 <= i <= |items|
        invariant i <= |all|
        invariant base == old(base) && log == old(log) + all[..i] && Logged(stamp)
      {
        ItemsStep(items, kind, show, i);
        var head := Head50(items[i], show);
        if head.None? {
          assert all[..i] == all;
          return i, false;
        }
        var a := ItemOf(kind, items[i], head.value);
        assert all[i] == a;
        TakeSnoc(all, i);
        AddNext(a, stamp, k + i);
        ConcatAssoc(old(log), all[..i], [a]);
        i := i + 1;
      }
      assert all[..i] == all;
      return i, true;
    }

    /** The rule loop. */
    method StoreRules(fs: seq<(string, Json)>, show: Show, stamp: nat -> (string, string), k: nat) returns (rules: nat)
      requires k == |log| && Logged(stamp)
      modifies this, vault
      ensures rules == |RuleAdds(fs, show)|
      ensures base == old(base) && log == old(log) + RuleAdds(fs, show) && Logged(stamp)
    {
      var ruleItems := Iterated(GetOr(fs, "rules", JArr([])));
      if ruleItems.Err? {
        assert log == old(log) + RuleAdds(fs, show);
        return 0;
      }
      var complete;
      rules, complete := StoreItems(ruleItems.value, RuleKind, show, stamp, k);
    }

    /** The preference loop, then, when it finished, the rule loop. */
    method StoreLists(fs: seq<(string, Json)>, show: Show, stamp: nat -> (string, string), k: nat)
      returns (preferences: nat, rules: nat)
      requires k == |log| && Logged(stamp)
      modifies this, vault
      ensures preferences + rules == |ListAdds(fs, show)|
      ensures StatsOf(0, ListAdds(fs, show)) == Stats(0, 0, 0, preferences, rules)
      ensures base == old(base) && log == old(log) + ListAdds(fs, show) && Logged(stamp)
    {
      preferences, rules := 0, 0;
      var prefs := Iterated(GetOr(fs, "preferences", JArr([])));
      if prefs.Err? {
        assert log == old(log) + ListAdds(fs, show);
        return;
      }
      ghost var l0 := log;
      ghost var p := Items(prefs.value, PreferenceKind, show).0;
      ListSplit(fs, show, prefs.value);
      var complete;
      preferences, complete := StoreItems(prefs.value, PreferenceKind, show, stamp, k);
      if !complete {
        return;
      }
      ghost var r := RuleAdds(fs, show);
      rules := StoreRules(fs, show, stamp, k + preferences);
      ConcatAssoc(l0, p, r);
    }

    /** The summary's record, when the summary is truthy and a dict. */
    method StoreSummary(fs: seq<(string, Json)>, stamp: nat -> (string, string), k: nat) returns (semantic: nat)
      requires SummaryAdds(fs).Some?
      requires k == |log| && Logged(stamp)
      modifies this, vault
      ensures semantic == |SummaryAdds(fs).value|
      ensures StatsOf(0, SummaryAdds(fs).value) == Stats(0, 0, semantic, 0, 0)
      ensures base == old(base) && log == old(log) + SummaryAdds(fs).value && Logged(stamp)
    {
      var sum := Lookup(fs, "summary");
      if sum.Some? && Truthy(sum.value) {
        AddNext(SummaryOf(sum.value.fields), stamp, k);
        return 1;
      }
      assert log == old(log) + [];
      return 0;
    }

    /** The analysis block: the summary's record, then the preferences', then the rules'. */
    method StoreAnalysis(analysis: Json, show: Show, stamp: nat -> (string, string), k: nat)
      returns (semantic: nat, preferences: nat, rules: nat)
      requires k == |log| && Logged(stamp)
      modifies this, vault
      ensures semantic + preferences + rules == |AnalysisAdds(analysis, show)|
      ensures StatsOf(0, AnalysisAdds(analysis, show)) == Stats(0, 0, semantic, preferences, rules)
      ensures base == old(base) && log == old(log) + AnalysisAdds(analysis, show) && Logged(stamp)
    {
      semantic, preferences, rules := 0, 0, 0;
      if !analysis.JObj? || SummaryAdds(analysis.fields).None? {
        assert log == old(log) + AnalysisAdds(analysis, show);
        return;
      }
      var fs := analysis.fields;
      ghost var l0 := log;
      ghost var sem := SummaryAdds(fs).value;
      semantic := StoreSummary(fs, stamp, k);
      ghost var l := ListAdds(fs, show);
      preferences, rules := StoreLists(fs, show, stamp, k + semantic);
      assert AnalysisAdds(analysis, show) == sem + l;
      ConcatAssoc(l0, sem, l);
      StatsOfConcat(0, sem, 0, l);
    }

    /** One conversation of `process_conversations`, after its walk: the episodes, then the analysis of a long exchange. */
    method StoreConversation(c: Conversation, ts: seq<Turn>, show: Show, stamp: nat -> (string, string), k: nat)
      returns (delta: Stats, stored: nat)
      requires k == |log| && Logged(stamp)
      modifies this, vault
      ensures delta == StatsOf(0, ConversationAdds(llm, parse, show, c, ts))
      ensures stored == |ConversationAdds(llm, parse, show, c, ts)|
      ensures base == old(base) && log == old(log) + ConversationAdds(llm, parse, show, c, ts) && Logged(stamp)
    {
      ghost var l0 := log;
      var episodes, text := StoreEpisodes(c, ts, stamp, k);
      ghost var e := Episodes(c, ts, |ts|);
      EpisodesStats(c, ts);
      delta := Stats(0, episodes, 0, 0, 0);
      stored := episodes;
      if |text| > AnalysisThreshold {
        var analysis := Analysis(llm, parse, Take(text, AnalysisWindow));
        ghost var an := AnalysisAdds(analysis, show);
        var semantic, preferences, rules := StoreAnalysis(analysis, show, stamp, k + episodes);
        assert ConversationAdds(llm, parse, show, c, ts) == e + an;
        ConcatAssoc(l0, e, an);
        StatsOfConcat(0, e, 0, an);
        delta := Stats(0, episodes, semantic, preferences, rules);
        stored := stored + semantic + preferences + rules;
      } else {
        assert ConversationAdds(llm, parse, show, c, ts) == e;
      }
    }

    /** One conversation with messages stored and counted. */
    method ImportOne(c: Conversation, ts: seq<Turn>, show: Show, stamp: nat -> (string, string), k: nat, stats: Stats)
      returns (next: Stats, k': nat)
      requires k == |log| && stats == StatsOf(stats.conversations, log) && Logged(stamp)
      modifies this, vault
      ensures base == old(base) && log == old(log) + ConversationAdds(llm, parse, show, c, ts) && Logged(stamp)
      ensures k' == |log| && next == StatsOf(stats.conversations + 1, log)
    {
      ghost var l0 := log;
      ghost var extra := ConversationAdds(llm, parse, show, c, ts);
      var delta, n := StoreConversation(c, ts, show, stamp, k);
      var counted := stats.(conversations := stats.conversations + 1);
      assert counted == StatsOf(stats.conversations + 1, l0);
      StatsOfConcat(stats.conversations + 1, l0, 0, extra);
      next := Plus(counted, delta);
      k' := k + n;
    }

    /** One pass of the loop of `process_conversations` after the walk: store and count the conversation when it has messages. */
    method ImportAt(convs: seq<Conversation>, show: Show, stamp: nat -> (string, string), i: nat, ts: seq<Turn>,
                    k: nat, stats: Stats)
      returns (next: Stats, k': nat)
      requires i < |convs| && Extracted(convs[i], show) == Some(ts)
      requires Imported(llm, parse, show, convs[..i]) == Some((stats.conversations, log))
      requires k == |log| && stats == StatsOf(stats.conversations, log) && Logged(stamp)
      modifies this, vault
      ensures base == old(base) && Logged(stamp)
      ensures Imported(llm, parse, show, convs[..i + 1]) == Some((next.conversations, log))
      ensures k' == |log| && next == StatsOf(next.conversations, log)
    {
      ghost var prior := log;
      next, k' := stats, k;
      if ts != [] {
        next, k' := ImportOne(convs[i], ts, show, stamp, k, stats);
      }
      ImportedByAdvance(Walker(show), Adder(llm, parse, show), convs, i, ts, stats.conversations, prior, next.conversations, log);
    }

    /**
     * `process_conversations`: the counters, and the vault holding every
     * addition in order; None when a conversation's parent chain is a cycle,
     * where the source never returns.
     */
    method ProcessConversations(convs: seq<Conversation>, show: Show, stamp: nat -> (string, string)) returns (r: Option<Stats>)
      modifies this, vault
      ensures Imported(llm, parse, show, convs).None? <==> r.None?
      ensures r.Some? ==>
        var imp := Imported(llm, parse, show, convs).value;
        r.value == StatsOf(imp.0, imp.1) && vault.files == Applied(old(vault.files), imp.1, stamp, 0)
    {
      base := vault.files;
      log := [];
      var stats := Stats(0, 0, 0, 0, 0);
      var k: nat := 0;
      var i := 0;
      assert convs[..0] == [];
      while i < |convs|
        invariant 0 <= i <= |convs|
        invariant Imported(llm, parse, show, convs[..i]) == Some((stats.conversations, log))
        invariant k == |log| && stats == StatsOf(stats.conversations, log)
        invariant base == old(vault.files) && Logged(stamp)
      {
        var ts := Extract(convs[i], show);
        if ts.None? {
          ImportedStopsAt(llm, parse, show, convs, i);
          return None;
        }
        stats, k := ImportAt(convs, show, stamp, i, ts.value, k, stats);
        i := i + 1;
      }
      assert convs[..i] == convs;
      r := Some(stats);
    }
  }

  /** The i-th item's addition comes right after the earlier ones while no earlier slice raised. */
  lemma {:induction false} ItemsStep(items: seq<Json>, kind: Kind, show: Show, i: nat)
    requires i < |items| && i <= |Items(items, kind, show).0|
    ensures Head50(items[i], show).Some? ==> i < |Items(items, kind, show).0|
    ensures Head50(items[i], show).None? ==> |Items(items, kind, show).0| == i && !Items(items, kind, show).1
  {
    if i > 0 {
      var h := Head50(items[0], show);
      ItemsStep(items[1..], kind, show, i - 1);
      assert items[1..][i - 1] == items[i];
    }
  }
}

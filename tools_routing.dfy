// The content-based choice of model for the command-line tools: explicit
// backtick prefixes first, then keywords, then code fences and length.
module ToolsRouting {
  import opened Text

  datatype ToolModel = Gpt4o | Gemini | Smollm | Gemma
  {
    function Name(): string
    {
      match this
      case Gpt4o => "gpt-4o"
      case Gemini => "gemini"
      case Smollm => "smollm2:1.7b"
      case Gemma => "gemma3n:e2b"
    }
  }

  /** The length above which a text counts as long. */
  const LongText: int := 1000

  /** Whether the lower-cased text contains either word. */
  predicate Mentions(text: string, a: string, b: string)
  {
    Contains(Lower(text), a) || Contains(Lower(text), b)
  }

  /** Whether one of the three explicit prefixes names the model. */
  predicate Prefixed(text: string)
  {
    StartsWith(text, "`gpt ") || StartsWith(text, "`gemini ") || StartsWith(text, "`kai ")
  }

  /** `route_tool_model`. */
  function RouteToolModel(text: string): (m: ToolModel)
    // the explicit prefixes come before every other rule
    ensures StartsWith(text, "`gpt ") ==> m == Gpt4o
    ensures StartsWith(text, "`gemini ") ==> m == Gemini
    ensures StartsWith(text, "`kai ") ==> (m == Smollm <==> |text| <= LongText) && (m == Smollm || m == Gemma)
    // research and explain are checked before write code and debug
    ensures !Prefixed(text) && Mentions(text, "research", "explain") ==> m == Gemini
    ensures !Prefixed(text) && Mentions(text, "write code", "debug") ==> m == Gemini || m == Gpt4o
    ensures !Prefixed(text) && !Mentions(text, "research", "explain") && Mentions(text, "write code", "debug") ==> m == Gpt4o
    // without a prefix or keyword, a code fence or a long text goes to the larger local model
    ensures !Prefixed(text) && !Mentions(text, "research", "explain") && !Mentions(text, "write code", "debug") ==>
      (m == Gemma <==> Contains(text, "```") || |text| > LongText) && (m == Gemma || m == Smollm)
    // the small model gets only short texts, and without a prefix only plain ones
    ensures m == Smollm ==> |text| <= LongText
    ensures m == Smollm && !Prefixed(text) ==>
      !Contains(text, "```") && !Mentions(text, "research", "explain") && !Mentions(text, "write code", "debug")
    ensures m == Gemma ==> |text| > LongText || Contains(text, "```")
  {
    if StartsWith(text, "`gpt ") then
      assert text[1] == 'g' && text[2] == 'p';
      Gpt4o
    else if StartsWith(text, "`gemini ") then
      assert text[1] == 'g' && text[2] == 'e';
      Gemini
    else if StartsWith(text, "`kai ") then (if |text| <= LongText then Smollm else Gemma)
    else if Mentions(text, "research", "explain") then Gemini
    else if Mentions(text, "write code", "debug") then Gpt4o
    else if Contains(text, "```") || |text| > LongText then Gemma
    else Smollm
  }
}

/**
 * The Ollama provider's JSON extraction and its `parse_command` wrapper.
 * The model's reply is untrusted text; the provider tries, in a fixed order,
 * the whole text, the interior of the first ```json fence, the interior of
 * the first bare ``` fence and the span from the first `[` to the last `]`,
 * and keeps the first that parses. `json.loads` is the uninterpreted partial
 * function `parse` (Some(Null) is JSON `null`, None a decode error), and the
 * chat call is the oracle `chat`.
 */
module Ollama {
  import opened Values

  /** What the chat call gives: the reply's text, or the text of the exception; and how long it took. */
  datatype ChatReply = Replied(content: string, took: nat) | ChatFailed(error: string, took: nat)

  /**
   * A configured provider: the model name, the default system prompt, the
   * chat call (system prompt, user prompt) and `json.loads`.
   */
  datatype OllamaProvider = OllamaProvider(
    model: string,
    systemPrompt: string,
    chat: (string, string) -> ChatReply,
    parse: string -> Option<Value>)

  /** The provider's answer record. */
  datatype LLMResponse = LLMResponse(success: bool, data: Value, error: string, raw: string, model: string)

  const JsonFence: string := "```json"
  const Fence: string := "```"
  const ParseFailure: string := "Failed to parse JSON from LLM output"
  const CallFailure: string := "LLM call failed: "

  // ---------------------------------------------------------------------------
  // Whitespace and stripping

  /** The characters Python counts as whitespace (`str.isspace`, and `\s` in a `str` pattern). */
  predicate IsSpace(c: char)
  {
    var n := c as int;
    (9 <= n <= 13) || (28 <= n <= 32) || n == 0x85 || n == 0xA0 || n == 0x1680
    || (0x2000 <= n <= 0x200A) || n == 0x2028 || n == 0x2029 || n == 0x202F
    || n == 0x205F || n == 0x3000
  }

  /** The number of leading whitespace characters. */
  function LeadingSpaces(s: string): (n: nat)
    ensures n <= |s|
    ensures forall k :: 0 <= k < n ==> IsSpace(s[k])
    ensures n == |s| || !IsSpace(s[n])
  {
    if s == [] || !IsSpace(s[0]) then 0
    else 1 + LeadingSpaces(s[1..])
  }

  /** The length of `s` without its trailing whitespace. */
  function TrailingStart(s: string): (n: nat)
    ensures n <= |s|
    ensures forall k :: n <= k < |s| ==> IsSpace(s[k])
    ensures n == 0 || !IsSpace(s[n - 1])
  {
    if s == [] || !IsSpace(s[|s| - 1]) then |s|
    else TrailingStart(s[..|s| - 1])
  }

  /** `s.strip()`: `s` without leading and trailing whitespace. */
  function Strip(s: string): (r: string)
    ensures LeadingSpaces(s) + |r| <= |s|
    ensures r == [] || (!IsSpace(r[0]) && !IsSpace(r[|r| - 1]))
    ensures forall k :: 0 <= k < |r| ==> r[k] == s[LeadingSpaces(s) + k]
  {
    var t := s[LeadingSpaces(s)..];
    t[..TrailingStart(t)]
  }

  /** Stripping a string without surrounding whitespace changes nothing. */
  lemma StripIdempotent(s: string)
    ensures Strip(Strip(s)) == Strip(s)
  {
    var r := Strip(s);
    assert LeadingSpaces(r) == 0;
    assert r[LeadingSpaces(r)..] == r;
    assert TrailingStart(r) == |r|;
  }

  // ---------------------------------------------------------------------------
  // String search

  predicate OccursAt(s: string, pat: string, i: int)
  {
    0 <= i && i + |pat| <= |s| && s[i..i + |pat|] == pat
  }

  /** The first occurrence of `pat` in `s` at or after `from`. */
  function FindFrom(s: string, pat: string, from: nat): (r: Option<nat>)
    ensures r.Some? ==> from <= r.value && OccursAt(s, pat, r.value)
    ensures r.Some? ==> forall j :: from <= j < r.value ==> !OccursAt(s, pat, j)
    ensures r.None? ==> forall j :: from <= j ==> !OccursAt(s, pat, j)
    decreases |s| - from
  {
    if from + |pat| > |s| then None
    else if OccursAt(s, pat, from) then Some(from)
    else FindFrom(s, pat, from + 1)
  }

  /** The search finds an occurrence exactly when it is the first one from `from` on. */
  lemma {:induction false} FindFromFinds(s: string, pat: string, from: nat, p: nat)
    requires from <= p && OccursAt(s, pat, p)
    requires forall j :: from <= j < p ==> !OccursAt(s, pat, j)
    ensures FindFrom(s, pat, from) == Some(p)
    decreases p - from
  {
    if from < p {
      FindFromFinds(s, pat, from + 1, p);
    }
  }

  /** The last index of `c` in `s`. */
  function LastIndexOf(s: string, c: char): (r: Option<nat>)
    ensures r.Some? ==> r.value < |s| && s[r.value] == c && forall j :: r.value < j < |s| ==> s[j] != c
    ensures r.None? ==> c !in s
  {
    if s == [] then None
    else if s[|s| - 1] == c then Some(|s| - 1)
    else LastIndexOf(s[..|s| - 1], c)
  }

  // ---------------------------------------------------------------------------
  // Candidates

  /**
   * The text between the first `open` and the first fence after it. If the
   * first `open` has no fence after it, no later `open` has one either, so
   * there is no span at all.
   */
  function FenceSpan(s: string, open: string): (r: Option<string>)
    ensures FindFrom(s, open, 0).None? ==> r.None?
    ensures FindFrom(s, open, 0).Some? && FindFrom(s, Fence, FindFrom(s, open, 0).value + |open|).None? ==> r.None?
  {
    match FindFrom(s, open, 0)
    case None => None
    case Some(p) =>
      match FindFrom(s, Fence, p + |open|)
      case None => None
      case Some(q) => Some(s[p + |open|..q])
  }

  /** The group of `open\s*(.*?)\s*```` on its first match: the span, stripped. */
  function FenceInterior(s: string, open: string): Option<string>
  {
    match FenceSpan(s, open)
    case None => None
    case Some(t) => Some(Strip(t))
  }

  /**
   * Only the first opener counts: when `open` first occurs at `p` and the
   * next fence after it is at `q`, the span is exactly the text between
   * them, whatever follows.
   */
  lemma FenceSpanIsFirstFence(s: string, open: string, p: nat, q: nat)
    requires OccursAt(s, open, p) && forall j :: 0 <= j < p ==> !OccursAt(s, open, j)
    requires p + |open| <= q && OccursAt(s, Fence, q)
    requires forall j :: p + |open| <= j < q ==> !OccursAt(s, Fence, j)
    ensures FenceSpan(s, open) == Some(s[p + |open|..q])
  {
    FindFromFinds(s, open, 0, p);
    FindFromFinds(s, Fence, p + |open|, q);
  }

  /** The match of `\[.*\]` (greedy, across lines): from the first `[` to the last `]` after it. */
  function BracketSpan(s: string): (r: Option<string>)
    ensures r.Some? ==> |r.value| >= 2 && r.value[0] == '[' && r.value[|r.value| - 1] == ']'
    ensures r.Some? <==> (exists i, j :: 0 <= i < j < |s| && s[i] == '[' && s[j] == ']')
  {
    match FindFrom(s, "[", 0)
    case None =>
      assert forall i :: 0 <= i < |s| ==> s[i] != '[' by {
        forall i | 0 <= i < |s| ensures s[i] != '[' {
          assert !OccursAt(s, "[", i);
          assert s[i..i + 1] == [s[i]];
        }
      }
      None
    case Some(p) =>
      assert s[p..p + 1] == "[";
      match LastIndexOf(s, ']')
      case None => None
      case Some(q) =>
        if q <= p then
          assert forall i :: 0 <= i < |s| && s[i] == '[' ==> p <= i by {
            forall i | 0 <= i < |s| && s[i] == '[' ensures p <= i {
              assert s[i..i + 1] == "[";
              assert OccursAt(s, "[", i);
            }
          }
          None
        else
          var r := s[p..q + 1];
          assert r[0] == s[p];
          Some(r)
  }

  /** The greedy match: the span runs from the first `[` to the last `]` of the text. */
  lemma BracketSpanIsFirstToLast(s: string, p: nat, q: nat)
    requires p < q < |s| && s[p] == '[' && s[q] == ']'
    requires forall i :: 0 <= i < p ==> s[i] != '['
    requires forall j :: q < j < |s| ==> s[j] != ']'
    ensures BracketSpan(s) == Some(s[p..q + 1])
  {
    assert s[p..p + 1] == "[";
    forall j | 0 <= j < p ensures !OccursAt(s, "[", j) {
      assert s[j..j + 1] == [s[j]];
    }
    FindFromFinds(s, "[", 0, p);
    assert ']' in s;
  }

  /** The strings tried, in order: the whole text, the first ```json fence, the first bare fence, the bracket span. */
  function Candidates(content: string): (c: seq<Option<string>>)
    ensures |c| == 4 && c[0] == Some(content)
  {
    [Some(content), FenceInterior(content, JsonFence), FenceInterior(content, Fence), BracketSpan(content)]
  }

  /** The parse of the first candidate that exists and parses. */
  function FirstParse(parse: string -> Option<Value>, cands: seq<Option<string>>): (r: Option<Value>)
    ensures cands != [] && cands[0].Some? && parse(cands[0].value).Some? ==> r == parse(cands[0].value)
  {
    if cands == [] then None
    else if cands[0].Some? && parse(cands[0].value).Some? then parse(cands[0].value)
    else FirstParse(parse, cands[1..])
  }

  /**
   * The first parse succeeds exactly when some candidate parses, and then it
   * is the parse of a candidate before which no candidate parses.
   */
  lemma {:induction false} FirstParseIsFirstParsing(parse: string -> Option<Value>, cands: seq<Option<string>>)
    ensures FirstParse(parse, cands).Some? <==> exists k :: 0 <= k < |cands| && cands[k].Some? && parse(cands[k].value).Some?
    ensures FirstParse(parse, cands).Some? ==> exists k :: (0 <= k < |cands| && cands[k].Some? && FirstParse(parse, cands) == parse(cands[k].value) &&
      forall j :: 0 <= j < k ==> cands[j].None? || parse(cands[j].value).None?)
  {
    if cands != [] && !(cands[0].Some? && parse(cands[0].value).Some?) {
      var rest := FirstParse(parse, cands[1..]);
      FirstParseIsFirstParsing(parse, cands[1..]);
      if rest.Some? {
        var k :| 0 <= k < |cands[1..]| && cands[1..][k].Some? && rest == parse(cands[1..][k].value)
          && forall j :: 0 <= j < k ==> cands[1..][j].None? || parse(cands[1..][j].value).None?;
        assert cands[k + 1] == cands[1..][k];
        assert forall j :: 0 < j < k + 1 ==> cands[j] == cands[1..][j - 1];
      }
      assert (exists k :: 0 <= k < |cands| && cands[k].Some? && parse(cands[k].value).Some?)
        ==> exists k :: 0 <= k < |cands[1..]| && cands[1..][k].Some? && parse(cands[1..][k].value).Some? by {
        if exists k :: 0 <= k < |cands| && cands[k].Some? && parse(cands[k].value).Some? {
          var k :| 0 <= k < |cands| && cands[k].Some? && parse(cands[k].value).Some?;
          assert cands[1..][k - 1] == cands[k];
        }
      }
    }
  }

  /** What `_parse_json_response` returns for a reply: the first candidate that parses. */
  function ExtractedJson(parse: string -> Option<Value>, content: string): (r: Option<Value>)
    ensures parse(content).Some? ==> r == parse(content)
  {
    FirstParse(parse, Candidates(content))
  }

  /**
   * Extraction fails exactly when no candidate exists and parses; otherwise
   * it is the parse of the first candidate that does.
   */
  lemma ExtractedJsonIsFirstParsingCandidate(parse: string -> Option<Value>, content: string)
    ensures ExtractedJson(parse, content).None? <==>
      forall k :: 0 <= k < 4 ==> Candidates(content)[k].None? || parse(Candidates(content)[k].value).None?
    ensures ExtractedJson(parse, content).Some? ==> exists k :: (0 <= k < 4 && Candidates(content)[k].Some?
      && ExtractedJson(parse, content) == parse(Candidates(content)[k].value)
      && forall j :: 0 <= j < k ==> Candidates(content)[j].None? || parse(Candidates(content)[j].value).None?)
  {
    FirstParseIsFirstParsing(parse, Candidates(content));
  }

  /**
   * `_parse_json_response`: the direct parse, then a loop over the two fence
   * patterns in order, then the bracket span; each attempt that parses
   * returns at once.
   */
  method ParseJsonResponse(parse: string -> Option<Value>, content: string) returns (r: Option<Value>)
    ensures r == ExtractedJson(parse, content)
  {
    ghost var cands := Candidates(content);
    r := parse(content);
    if r.Some? {
      return;
    }
    assert FirstParse(parse, cands) == FirstParse(parse, cands[1..]);
    var openers := [JsonFence, Fence];
    var i := 0;
    while i < |openers|
      invariant 0 <= i <= |openers|
      invariant FirstParse(parse, cands) == FirstParse(parse, cands[i + 1..])
    {
      assert cands[i + 1] == FenceInterior(content, openers[i]);
      var interior := FenceInterior(content, openers[i]);
      if interior.Some? {
        var parsed := parse(interior.value);
        if parsed.Some? {
          return parsed;
        }
      }
      assert cands[i + 1..][1..] == cands[i + 2..];
      i := i + 1;
    }
    var span := BracketSpan(content);
    assert cands[3..] == [span];
    if span.Some? {
      r := parse(span.value);
    } else {
      r := None;
    }
  }

  /**
   * The JSON fence is preferred to the bracket span: when the whole reply is
   * not JSON but the interior of its first ```json fence is, that interior's
   * value is the answer.
   */
  lemma TaggedFenceWins(parse: string -> Option<Value>, content: string, p: nat, q: nat)
    requires parse(content).None?
    requires OccursAt(content, JsonFence, p) && forall j :: 0 <= j < p ==> !OccursAt(content, JsonFence, j)
    requires p + |JsonFence| <= q && OccursAt(content, Fence, q)
    requires forall j :: p + |JsonFence| <= j < q ==> !OccursAt(content, Fence, j)
    requires parse(Strip(content[p + |JsonFence|..q])).Some?
    ensures ExtractedJson(parse, content) == parse(Strip(content[p + |JsonFence|..q]))
  {
    FenceSpanIsFirstFence(content, JsonFence, p, q);
    var cands := Candidates(content);
    assert FirstParse(parse, cands) == FirstParse(parse, cands[1..]);
  }

  /** A pattern cannot occur where its first character does not. */
  lemma NoOccurrenceWithoutFirstChar(s: string, pat: string, from: nat, to: nat)
    requires |pat| > 0 && forall j :: from <= j < to && j < |s| ==> s[j] != pat[0]
    ensures forall j :: from <= j < to ==> !OccursAt(s, pat, j)
  {
    forall j | from <= j < to ensures !OccursAt(s, pat, j) {
      if j + |pat| <= |s| {
        assert s[j..j + |pat|][0] == s[j];
      }
    }
  }

  /**
   * A reply made of some text, a ```json block and its closing fence, with
   * no backtick in the text or the block, and that is not JSON itself:
   * the extracted value is the parse of the block's body, stripped.
   */
  lemma TaggedBlockReply(parse: string -> Option<Value>, prefix: string, body: string)
    requires '`' !in prefix && '`' !in body
    requires parse(prefix + JsonFence + body + Fence).None?
    requires parse(Strip(body)).Some?
    ensures ExtractedJson(parse, prefix + JsonFence + body + Fence) == parse(Strip(body))
  {
    var content := prefix + JsonFence + body + Fence;
    var p := |prefix|;
    var q := p + |JsonFence| + |body|;
    assert content[p..p + |JsonFence|] == JsonFence;
    assert content[p + |JsonFence|..q] == body;
    assert content[q..q + |Fence|] == Fence;
    assert forall j :: 0 <= j < p ==> content[j] == prefix[j];
    NoOccurrenceWithoutFirstChar(content, JsonFence, 0, p);
    assert forall j :: p + |JsonFence| <= j < q ==> content[j] == body[j - p - |JsonFence|];
    NoOccurrenceWithoutFirstChar(content, Fence, p + |JsonFence|, q);
    TaggedFenceWins(parse, content, p, q);
  }

  // ---------------------------------------------------------------------------
  // parse_command

  /** The system prompt used: the caller's, or the provider's default. */
  function PromptFor(p: OllamaProvider, systemPrompt: Option<string>): string
  {
    if systemPrompt.Some? then systemPrompt.value else p.systemPrompt
  }

  /** How long `parse_command` spends in the chat call. */
  function CallDuration(p: OllamaProvider, prompt: string, systemPrompt: Option<string>): nat
  {
    p.chat(PromptFor(p, systemPrompt), prompt).took
  }

  /**
   * `parse_command(prompt, system_prompt)`. A failed chat call gives
   * "LLM call failed: ..." with empty raw text. Otherwise the extraction
   * decides: nothing (or JSON `null`) gives the parse failure with the reply
   * as raw text; a value without a length makes the logging line raise, which
   * the generic handler reports as a call failure with empty raw text; any
   * other value is a success carrying the reply as raw text.
   */
  function ParseCommand(p: OllamaProvider, prompt: string, systemPrompt: Option<string>): (r: LLMResponse)
    ensures r.model == p.model
    ensures r.success ==> r.error == "" && HasLen(r.data)
    ensures !r.success ==> r.data == List([]) && r.error != ""
    ensures p.chat(PromptFor(p, systemPrompt), prompt).ChatFailed? ==>
      !r.success && r.raw == "" && r.error == CallFailure + p.chat(PromptFor(p, systemPrompt), prompt).error
    ensures p.chat(PromptFor(p, systemPrompt), prompt).Replied? ==>
      var content := p.chat(PromptFor(p, systemPrompt), prompt).content;
      var parsed := ExtractedJson(p.parse, content);
      && (r.success <==> parsed.Some? && HasLen(parsed.value))
      && (r.success ==> r.data == parsed.value && r.raw == content)
      && (parsed.None? || parsed.value.Null? ==> r.error == ParseFailure && r.raw == content)
      && (parsed.Some? && !parsed.value.Null? && !HasLen(parsed.value) ==>
            r.raw == "" && r.error == CallFailure + NoLenError(parsed.value))
  {
    match p.chat(PromptFor(p, systemPrompt), prompt)
    case ChatFailed(e, _) =>
      LLMResponse(false, List([]), CallFailure + e, "", p.model)
    case Replied(content, _) =>
      var parsed := ExtractedJson(p.parse, content);
      if parsed.None? || parsed.value.Null? then
        LLMResponse(false, List([]), ParseFailure, content, p.model)
      else if !HasLen(parsed.value) then
        LLMResponse(false, List([]), CallFailure + NoLenError(parsed.value), "", p.model)
      else
        LLMResponse(true, parsed.value, "", content, p.model)
  }
}

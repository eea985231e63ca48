/** The robust JSON parser for LLM replies
  * (backend/app/infrastructure/utils/llm_json_parser.py): a chain of
  * strategies tried in order on the stripped text. `json.loads`, the
  * formatting repair and the LLM it falls back to are inputs. */
module JsonParser {
  import opened Wrappers
  import opened PyStr
  import opened Json

  /** The parser's collaborators. `loads` is `json.loads` (`None` when it
    * raises a decoding error); `fixFormatting` is the regular-expression
    * repair of the cleanup strategy; `llmFix` is the content of the LLM's
    * reply to the repair prompt (`Err` when the call raises, `Ok(None)`
    * when the reply has no content). */
  datatype Env = Env(loads: string -> Option<Json>,
                     fixFormatting: string -> string,
                     llmFix: string -> Result<Option<string>, string>)

  /** A Python value that is not `None`: JSON null decodes to `None`, so a
    * strategy that decodes `null` reports no result. */
  function Value(j: Json): (r: Option<Json>)
    ensures r.Some? <==> j != JNull
    ensures r.Some? ==> r.value == j
  {
    if j == JNull then None else Some(j)
  }

  // ---------------------------------------------------------------------
  // `re.findall` for the three code-block patterns, with Python's
  // leftmost, greedy-then-backtracking and lazy matching.

  /** The end of the whitespace run starting at `p`. */
  function WsEnd(s: string, p: nat): (q: nat)
    requires p <= |s|
    ensures p <= q <= |s| && AllSpace(s[p..q])
    ensures q == |s| || !IsSpace(s[q])
    decreases |s| - p
  {
    if p < |s| && IsSpace(s[p]) then
      var q := WsEnd(s, p + 1);
      assert s[p..q] == [s[p]] + s[p + 1..q];
      q
    else p
  }

  /** A closing fence "\n```" starts at `j`. */
  predicate CloseAt(s: string, j: nat)
  {
    j + 4 <= |s| && s[j..j + 4] == "\n```"
  }

  /** The first position at or after `from` where a closing fence starts. */
  function FirstClose(s: string, from: nat): (m: Option<nat>)
    ensures m.Some? ==> from <= m.value && CloseAt(s, m.value)
    ensures m.Some? ==> forall j :: from <= j < m.value ==> !CloseAt(s, j)
    ensures m.None? ==> forall j :: from <= j ==> !CloseAt(s, j)
    decreases |s| - from
  {
    if from + 4 > |s| then None
    else if CloseAt(s, from) then Some(from)
    else FirstClose(s, from + 1)
  }

  /** `\s*\n(.*?)\n```` after position `p`, whose whitespace run ends at
    * `k`: the newline is the last one of the run that still leaves a
    * closing fence after it. Gives that newline and the closing fence. */
  function NewlineClose(s: string, p: nat, k: nat): (r: Option<(nat, nat)>)
    requires p <= k <= |s|
    ensures r.Some? ==> p <= r.value.0 < k && s[r.value.0] == '\n'
    ensures r.Some? ==> r.value.0 < r.value.1 && r.value.1 + 4 <= |s| && FirstClose(s, r.value.0 + 1) == Some(r.value.1)
    decreases k - p
  {
    if k == p then None
    else if s[k - 1] == '\n' && FirstClose(s, k).Some? then Some((k - 1, FirstClose(s, k).value))
    else NewlineClose(s, p, k - 1)
  }

  /** "```" and the tag (ignoring ASCII case) start at `i`. */
  predicate FenceAt(s: string, i: nat, tag: string)
  {
    i + 3 + |tag| <= |s| && s[i..i + 3] == "```" && Lower(s[i + 3..i + 3 + |tag|]) == tag
  }

  /** A match of ```` ```{tag}\s*\n(.*?)\n``` ```` starting at `i`: the
    * captured text and where the match ends. */
  function MatchFence(s: string, i: nat, tag: string): (r: Option<(string, nat)>)
    ensures r.Some? ==> i < r.value.1 <= |s|
  {
    if !FenceAt(s, i, tag) then None
    else
      var p := i + 3 + |tag|;
      var nc := NewlineClose(s, p, WsEnd(s, p));
      if nc.None? then None
      else Some((s[nc.value.0 + 1..nc.value.1], nc.value.1 + 4))
  }

  /** `re.findall` of the fenced pattern, scanning from `from`. */
  function FindFences(s: string, tag: string, from: nat): seq<string>
    decreases |s| - from
  {
    if from >= |s| then []
    else
      var m := MatchFence(s, from, tag);
      if m.Some? then [m.value.0] + FindFences(s, tag, m.value.1)
      else FindFences(s, tag, from + 1)
  }

  /** The first backtick at or after `from`. */
  function NextBacktick(s: string, from: nat): (j: Option<nat>)
    ensures j.Some? ==> from <= j.value < |s| && s[j.value] == '`'
    ensures j.Some? ==> forall k :: from <= k < j.value ==> s[k] != '`'
    ensures j.None? ==> forall k :: from <= k < |s| ==> s[k] != '`'
    decreases |s| - from
  {
    if from >= |s| then None
    else if s[from] == '`' then Some(from)
    else NextBacktick(s, from + 1)
  }

  /** `re.findall` of `` `([^`]*)` ``, scanning from `from`. */
  function FindInline(s: string, from: nat): (r: seq<string>)
    ensures forall c :: c in r ==> forall k :: 0 <= k < |c| ==> c[k] != '`'
    decreases |s| - from
  {
    if from >= |s| then []
    else if s[from] == '`' then
      var j := NextBacktick(s, from + 1);
      if j.Some? then
        var c := s[from + 1..j.value];
        assert forall k :: 0 <= k < |c| ==> c[k] == s[from + 1 + k];
        [c] + FindInline(s, j.value + 1)
      else FindInline(s, from + 1)
    else FindInline(s, from + 1)
  }

  /** The candidates of the markdown strategy, pattern by pattern. */
  function MarkdownCandidates(text: string): seq<seq<string>>
  {
    [FindFences(text, "json", 0), FindFences(text, "", 0), FindInline(text, 0)]
  }

  /** `json.loads(match.strip())`. */
  function Decode(env: Env, c: string): Option<Json>
  {
    env.loads(Strip(c))
  }

  /** The index of the first candidate at or after `from` that decodes,
    * `|cands|` when none does. */
  function FirstDecodingIndex(env: Env, cands: seq<string>, from: nat): (k: nat)
    requires from <= |cands|
    ensures from <= k <= |cands|
    ensures forall j :: from <= j < k ==> Decode(env, cands[j]).None?
    ensures k < |cands| ==> Decode(env, cands[k]).Some?
    decreases |cands| - from
  {
    if from == |cands| then from
    else if Decode(env, cands[from]).Some? then from
    else FirstDecodingIndex(env, cands, from + 1)
  }

  /** What the first candidate that decodes decodes to, if any. */
  function FirstDecoding(env: Env, cands: seq<string>): (r: Option<Json>)
    ensures r.None? <==> forall i :: 0 <= i < |cands| ==> Decode(env, cands[i]).None?
  {
    var k := FirstDecodingIndex(env, cands, 0);
    if k < |cands| then Decode(env, cands[k]) else None
  }

  /** Pattern by pattern, the first match that decodes; what it decodes to
    * is the result, even when that is `None`. */
  function FirstOfPatterns(env: Env, patterns: seq<seq<string>>): (r: Option<Json>)
    ensures r.Some? ==> r.value != JNull
  {
    if patterns == [] then None
    else
      var a := FirstDecoding(env, patterns[0]);
      if a.Some? then Value(a.value) else FirstOfPatterns(env, patterns[1..])
  }

  /** The markdown strategy's result: the first candidate, ```json blocks
    * first, then plain ``` blocks, then inline code, that decodes. */
  function MarkdownSpec(env: Env, text: string): (r: Option<Json>)
    ensures r.Some? ==> r.value != JNull
  {
    FirstOfPatterns(env, MarkdownCandidates(text))
  }

  /** `_try_markdown_block_parse`: the loops over the patterns and their
    * matches. */
  method TryMarkdown(env: Env, text: string) returns (r: Option<Json>)
    ensures r == MarkdownSpec(env, text)
  {
    r := TryPatterns(env, MarkdownCandidates(text));
  }

  /** The outer loop, over the patterns. */
  method TryPatterns(env: Env, patterns: seq<seq<string>>) returns (r: Option<Json>)
    ensures r == FirstOfPatterns(env, patterns)
  {
    var i := 0;
    while i < |patterns|
      invariant 0 <= i <= |patterns|
      invariant FirstOfPatterns(env, patterns) == FirstOfPatterns(env, patterns[i..])
    {
      assert patterns[i..][0] == patterns[i] && patterns[i..][1..] == patterns[i + 1..];
      var decoded := TryMatches(env, patterns[i]);
      if decoded.Some? {
        return Value(decoded.value);
      }
      i := i + 1;
    }
    return None;
  }

  /** The inner loop, over the matches of one pattern. */
  method TryMatches(env: Env, matches: seq<string>) returns (r: Option<Json>)
    ensures r == FirstDecoding(env, matches)
  {
    var j := 0;
    while j < |matches|
      invariant 0 <= j <= |matches|
      invariant forall q :: 0 <= q < j ==> Decode(env, matches[q]).None?
    {
      var decoded := Decode(env, matches[j]);
      if decoded.Some? {
        assert FirstDecodingIndex(env, matches, 0) == j;
        return decoded;
      }
      j := j + 1;
    }
    return None;
  }

  // ---------------------------------------------------------------------
  // The cleanup strategy

  const Prefixes: seq<string> := ["json:", "result:", "output:", "response:"]
  const Suffixes: seq<string> := [".", "..."]

  /** One pass of the prefix loop: each prefix, in order, is removed (with
    * the whitespace after it) at most once. */
  function DropPrefixes(s: string, prefixes: seq<string>): (r: string)
    decreases |prefixes|
    ensures |r| <= |s|
    ensures (forall k :: 0 <= k < |prefixes| ==> !StartsWith(Lower(s), Lower(prefixes[k]))) ==> r == s
  {
    if prefixes == [] then s
    else
      var p := prefixes[0];
      var s1 := if StartsWith(Lower(s), Lower(p)) then Strip(s[|p|..]) else s;
      DropPrefixes(s1, prefixes[1..])
  }

  /** The suffix loop: each suffix, in order, is removed (with the
    * whitespace before it) at most once. */
  function DropSuffixes(s: string, suffixes: seq<string>): (r: string)
    decreases |suffixes|
    ensures |r| <= |s|
    ensures (forall k :: 0 <= k < |suffixes| ==> !EndsWith(s, suffixes[k])) ==> r == s
  {
    if suffixes == [] then s
    else
      var x := suffixes[0];
      var s1 := if EndsWith(s, x) then Strip(s[..|s| - |x|]) else s;
      DropSuffixes(s1, suffixes[1..])
  }

  /** The text the cleanup strategy repairs and decodes. */
  function Cleaned(text: string): (r: string)
    ensures |r| <= |text|
    ensures ((forall k :: 0 <= k < |Prefixes| ==> !StartsWith(Lower(text), Lower(Prefixes[k])))
             && (forall k :: 0 <= k < |Suffixes| ==> !EndsWith(text, Suffixes[k]))) ==> r == text
  {
    DropSuffixes(DropPrefixes(text, Prefixes), Suffixes)
  }

  /** `prefixes[i]` is the first listed prefix the text starts with,
    * ignoring case. */
  predicate FirstPrefixAt(s: string, prefixes: seq<string>, i: nat)
  {
    i < |prefixes| && StartsWith(Lower(s), Lower(prefixes[i]))
    && forall j :: 0 <= j < i ==> !StartsWith(Lower(s), Lower(prefixes[j]))
  }

  /** No prefix listed from `from` on starts the text, ignoring case. */
  predicate NoPrefixFrom(s: string, prefixes: seq<string>, from: nat)
  {
    forall j :: from <= j < |prefixes| ==> !StartsWith(Lower(s), Lower(prefixes[j]))
  }

  /** `suffixes[i]` is the first listed suffix the text ends with. */
  predicate FirstSuffixAt(s: string, suffixes: seq<string>, i: nat)
  {
    i < |suffixes| && EndsWith(s, suffixes[i])
    && forall j :: 0 <= j < i ==> !EndsWith(s, suffixes[j])
  }

  /** No suffix listed from `from` on ends the text. */
  predicate NoSuffixFrom(s: string, suffixes: seq<string>, from: nat)
  {
    forall j :: from <= j < |suffixes| ==> !EndsWith(s, suffixes[j])
  }

  /** The prefix loop removes the first listed prefix that the text starts
    * with, ignoring case, and strips what follows; when no later prefix
    * starts that rest, the loop ends there. */
  lemma {:induction false} DropFirstPrefix(s: string, prefixes: seq<string>, i: nat)
    requires FirstPrefixAt(s, prefixes, i)
    requires NoPrefixFrom(Strip(s[|prefixes[i]|..]), prefixes, i + 1)
    ensures DropPrefixes(s, prefixes) == Strip(s[|prefixes[i]|..])
    decreases i
  {
    var rest := prefixes[1..];
    if i == 0 {
      var s1 := Strip(s[|prefixes[0]|..]);
      forall k | 0 <= k < |rest| ensures !StartsWith(Lower(s1), Lower(rest[k])) {
        assert rest[k] == prefixes[k + 1];
      }
    } else {
      assert !StartsWith(Lower(s), Lower(prefixes[0]));
      assert rest[i - 1] == prefixes[i];
      forall j | 0 <= j < i - 1 ensures !StartsWith(Lower(s), Lower(rest[j])) {
        assert rest[j] == prefixes[j + 1];
      }
      forall j | i <= j < |rest| ensures !StartsWith(Lower(Strip(s[|rest[i - 1]|..])), Lower(rest[j])) {
        assert rest[j] == prefixes[j + 1];
      }
      DropFirstPrefix(s, rest, i - 1);
    }
  }

  /** The suffix loop removes the first listed suffix that the text ends
    * with and strips what comes before; when no later suffix ends that
    * rest, the loop ends there. */
  lemma {:induction false} DropFirstSuffix(s: string, suffixes: seq<string>, i: nat)
    requires FirstSuffixAt(s, suffixes, i)
    requires NoSuffixFrom(Strip(s[..|s| - |suffixes[i]|]), suffixes, i + 1)
    ensures DropSuffixes(s, suffixes) == Strip(s[..|s| - |suffixes[i]|])
    decreases i
  {
    var rest := suffixes[1..];
    if i == 0 {
      var s1 := Strip(s[..|s| - |suffixes[0]|]);
      forall k | 0 <= k < |rest| ensures !EndsWith(s1, rest[k]) {
        assert rest[k] == suffixes[k + 1];
      }
    } else {
      assert !EndsWith(s, suffixes[0]);
      assert rest[i - 1] == suffixes[i];
      forall j | 0 <= j < i - 1 ensures !EndsWith(s, rest[j]) {
        assert rest[j] == suffixes[j + 1];
      }
      forall j | i <= j < |rest| ensures !EndsWith(Strip(s[..|s| - |rest[i - 1]|]), rest[j]) {
        assert rest[j] == suffixes[j + 1];
      }
      DropFirstSuffix(s, rest, i - 1);
    }
  }

  /** The text the cleanup strategy keeps: the first matching prefix `p`
    * removed and the rest stripped, then the first matching suffix `x`
    * removed and the rest stripped again, when no later prefix or suffix
    * matches what is left. */
  lemma CleanedBoth(text: string, i: nat, mid: string, k: nat)
    requires FirstPrefixAt(text, Prefixes, i) && mid == Strip(text[|Prefixes[i]|..])
    requires NoPrefixFrom(mid, Prefixes, i + 1)
    requires FirstSuffixAt(mid, Suffixes, k)
    requires NoSuffixFrom(Strip(mid[..|mid| - |Suffixes[k]|]), Suffixes, k + 1)
    ensures Cleaned(text) == Strip(mid[..|mid| - |Suffixes[k]|])
  {
    DropFirstPrefix(text, Prefixes, i);
    DropFirstSuffix(mid, Suffixes, k);
  }

  /** The error `re.sub` raises on the array-quote pattern of
    * `_fix_json_formatting`, whose look-behind `(?<=[\[,]\s*)` has no
    * fixed width. */
  const LookBehindError: string := "look-behind requires fixed-width pattern"

  /** `_try_cleanup_and_parse` as written: the formatting repair raises
    * before any decoding, whatever the text. */
  function CleanupAsWritten(text: string): (r: Result<Option<Json>, string>)
    ensures r == Err(LookBehindError)
  {
    Err(LookBehindError)
  }

  /** `_try_cleanup_and_parse` as intended: strip the listed prefixes and
    * suffixes, repair the formatting and decode. */
  function CleanupSpec(env: Env, text: string): (r: Result<Option<Json>, string>)
    ensures r.Ok?
    ensures r.value.Some? ==> env.loads(env.fixFormatting(Cleaned(text))) == r.value
  {
    var decoded := env.loads(env.fixFormatting(Cleaned(text)));
    if decoded.None? then Ok(None) else Ok(Value(decoded.value))
  }

  /** The as-written cleanup never contributes, although the repair it was
    * meant to perform gives a result whenever the cleaned text decodes. */
  lemma CleanupFinding(env: Env, text: string, v: Json)
    requires env.loads(env.fixFormatting(Cleaned(text))) == Some(v) && v != JNull
    ensures CleanupAsWritten(text).Err?
    ensures CleanupSpec(env, text) == Ok(Some(v))
  {
    var c := Cleaned(text);
    assert env.loads(env.fixFormatting(c)) == Some(v);
    assert Value(v) == Some(v);
  }

  // ---------------------------------------------------------------------
  // The LLM strategy and the chain

  /** `_try_llm_extract_and_fix`: the stripped content of the LLM's reply,
    * decoded; any failure gives no result. */
  function LlmSpec(env: Env, text: string): (r: Option<Json>)
    ensures r.Some? ==> r.value != JNull
  {
    var reply := env.llmFix(text);
    if reply.Err? || reply.value.None? then None
    else
      var content := Strip(reply.value.value);
      if content == "" || content == "null" then None
      else
        var decoded := env.loads(content);
        if decoded.None? then None else Value(decoded.value)
  }

  datatype Strategy = Direct | Markdown | Cleanup | LlmExtract

  const Strategies: seq<Strategy> := [Direct, Markdown, Cleanup, LlmExtract]

  /** What one strategy does with the stripped text: a result, no result,
    * or an exception (`Err`). The cleanup strategy is the one the program
    * has, which always raises. */
  function StrategySpec(env: Env, st: Strategy, text: string): (r: Result<Option<Json>, string>)
    ensures r.Ok? && r.value.Some? ==> r.value.value != JNull
  {
    match st
    case Direct =>
      var decoded := env.loads(text);
      if decoded.None? then Err("JSONDecodeError") else Ok(Value(decoded.value))
    case Markdown => Ok(MarkdownSpec(env, text))
    case Cleanup => CleanupAsWritten(text)
    case LlmExtract => Ok(LlmSpec(env, text))
  }

  method RunStrategy(env: Env, st: Strategy, text: string) returns (r: Result<Option<Json>, string>)
    ensures r == StrategySpec(env, st, text)
  {
    if st == Markdown {
      var m := TryMarkdown(env, text);
      return Ok(m);
    }
    return StrategySpec(env, st, text);
  }

  /** A strategy gives a result: it neither raises nor reports `None`. */
  predicate Gives(r: Result<Option<Json>, string>)
  {
    r.Ok? && r.value.Some?
  }

  /** The first strategy, in order, that gives a result. */
  function FirstResult(env: Env, sts: seq<Strategy>, text: string): (r: Option<Json>)
    ensures r.Some? ==> r.value != JNull
    ensures r.None? <==> forall k :: 0 <= k < |sts| ==> !Gives(StrategySpec(env, sts[k], text))
    ensures r.Some? ==> exists k :: 0 <= k < |sts| && StrategySpec(env, sts[k], text) == Ok(r)
                                    && forall j :: 0 <= j < k ==> !Gives(StrategySpec(env, sts[j], text))
  {
    if sts == [] then None
    else
      var a := StrategySpec(env, sts[0], text);
      if Gives(a) then a.value
      else
        var rest := FirstResult(env, sts[1..], text);
        assert forall k :: 0 <= k < |sts| - 1 ==> sts[1..][k] == sts[k + 1];
        rest
  }

  /** A default only counts when it is not `None`. */
  predicate HasDefault(default: Option<Json>)
  {
    default.Some? && default.value != JNull
  }

  /** `parse`'s result: the default or a `ValueError` for blank input;
    * otherwise the first strategy's result on the stripped text, else the
    * default, else a `ValueError` quoting the text. */
  function ParseSpec(env: Env, text: string, default: Option<Json>): (r: Result<Json, string>)
    ensures Strip(text) == [] ==> r == (if HasDefault(default) then Ok(default.value) else Err("Empty input string"))
    ensures r.Err? ==> !HasDefault(default)
    ensures r.Ok? && !(HasDefault(default) && r.value == default.value) ==> r.value != JNull
  {
    if Strip(text) == [] then
      if HasDefault(default) then Ok(default.value) else Err("Empty input string")
    else
      var found := FirstResult(env, Strategies, Strip(text));
      if found.Some? then Ok(found.value)
      else if HasDefault(default) then Ok(default.value)
      else Err("Failed to parse JSON from LLM output: " + Take(text, 1000) + "...")
  }

  /** `parse`, trying the strategies in a loop. */
  method Parse(env: Env, text: string, default: Option<Json>) returns (r: Result<Json, string>)
    ensures r == ParseSpec(env, text, default)
  {
    var cleaned := Strip(text);
    if text == [] || cleaned == [] {
      if HasDefault(default) {
        return Ok(default.value);
      }
      return Err("Empty input string");
    }
    var i := 0;
    while i < |Strategies|
      invariant 0 <= i <= |Strategies|
      invariant FirstResult(env, Strategies, cleaned) == FirstResult(env, Strategies[i..], cleaned)
    {
      assert Strategies[i..][1..] == Strategies[i + 1..];
      var result := RunStrategy(env, Strategies[i], cleaned);
      if Gives(result) {
        return Ok(result.value.value);
      }
      i := i + 1;
    }
    if HasDefault(default) {
      return Ok(default.value);
    }
    return Err("Failed to parse JSON from LLM output: " + Take(text, 1000) + "...");
  }

  /** When neither direct decoding nor a Markdown block gives a result, the
    * cleanup strategy raises and is passed over, so the result is the LLM's
    * extraction, else the default, else the error. */
  lemma {:induction false} FallsToLlm(env: Env, text: string, default: Option<Json>)
    requires Strip(text) != []
    requires !Gives(StrategySpec(env, Direct, Strip(text))) && !Gives(StrategySpec(env, Markdown, Strip(text)))
    ensures var llm := LlmSpec(env, Strip(text));
            ParseSpec(env, text, default)
            == if llm.Some? then Ok(llm.value)
               else if HasDefault(default) then Ok(default.value)
               else Err("Failed to parse JSON from LLM output: " + Take(text, 1000) + "...")
  {
    FirstIsLlm(env, Strip(text));
  }

  /** The strategy list after direct decoding and the Markdown block have both failed. */
  lemma FirstIsLlm(env: Env, t: string)
    requires !Gives(StrategySpec(env, Direct, t)) && !Gives(StrategySpec(env, Markdown, t))
    ensures FirstResult(env, Strategies, t) == LlmSpec(env, t)
  {
    SkipTwo(env, t);
    CleanupThenLlm(env, t);
  }

  /** Direct decoding and the Markdown block are passed over when both fail. */
  lemma SkipTwo(env: Env, t: string)
    requires !Gives(StrategySpec(env, Direct, t)) && !Gives(StrategySpec(env, Markdown, t))
    ensures FirstResult(env, Strategies, t) == FirstResult(env, [Cleanup, LlmExtract], t)
  {
    assert Strategies == [Direct, Markdown, Cleanup, LlmExtract];
    SkipFailed(env, [Direct, Markdown, Cleanup, LlmExtract], t);
    assert [Direct, Markdown, Cleanup, LlmExtract][1..] == [Markdown, Cleanup, LlmExtract];
    SkipFailed(env, [Markdown, Cleanup, LlmExtract], t);
    assert [Markdown, Cleanup, LlmExtract][1..] == [Cleanup, LlmExtract];
  }

  /** The cleanup strategy raises, so the LLM's extraction decides. */
  lemma CleanupThenLlm(env: Env, t: string)
    ensures FirstResult(env, [Cleanup, LlmExtract], t) == LlmSpec(env, t)
  {
    assert StrategySpec(env, Cleanup, t).Err?;
    SkipFailed(env, [Cleanup, LlmExtract], t);
    assert [Cleanup, LlmExtract][1..] == [LlmExtract];
    LlmAlone(env, t);
  }

  /** With the LLM strategy alone, the first result is its result. */
  lemma LlmAlone(env: Env, text: string)
    ensures FirstResult(env, [LlmExtract], text) == LlmSpec(env, text)
  {
    assert [LlmExtract][1..] == [];
  }

  /** A strategy that gives nothing is passed over. */
  lemma SkipFailed(env: Env, sts: seq<Strategy>, text: string)
    requires sts != [] && !Gives(StrategySpec(env, sts[0], text))
    ensures FirstResult(env, sts, text) == FirstResult(env, sts[1..], text)
  {
  }

  /** Text that decodes directly is returned as decoded, unless it is
    * `null`. */
  lemma DirectWins(env: Env, text: string, default: Option<Json>)
    requires Strip(text) != []
    requires env.loads(Strip(text)).Some? && env.loads(Strip(text)).value != JNull
    ensures ParseSpec(env, text, default) == Ok(env.loads(Strip(text)).value)
  {
  }
}

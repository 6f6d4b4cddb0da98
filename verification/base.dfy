/**
  The provider base class: the configuration record every provider exposes,
  the request and response shapes of `generateReply`, the prompt wrapper
  `formatPrompt`, and the reply normaliser `cleanupReply`.
 */
module Base {
  import opened Results
  import opened Strings

  /** `AIModelConfig`. */
  datatype ModelConfig = ModelConfig(
    id: string,
    name: string,
    description: string,
    provider: string,
    isFree: bool,
    requiresApiKey: bool)

  /** `GenerateReplyRequest`. */
  datatype ReplyRequest = ReplyRequest(postText: string, stylePrompt: string, apiKey: string)

  /**
    `GenerateReplyResponse`: `{ success: true, reply }` or
    `{ success: false, error, debugInfo? }`.
   */
  datatype ReplyResponse = Replied(reply: string) | Failed(error: string, debugInfo: Option<string>)

  // ---------------------------------------------------------------- formatPrompt

  const PostLabel := "\n\n貼文內容："
  const PromptTail := "\n\n請根據以上指示生成一個合適的回覆。回覆應該：\n1. 簡潔有力（1-2句話）\n2. 與貼文內容相關\n3. 符合指定的風格\n4. 使用繁體中文\n5. 避免過度使用表情符號\n\n請直接提供回覆內容，不需要額外說明："

  /** `formatPrompt`: the style prompt first, then the post quoted in 「」, then the fixed instructions. */
  function FormatPrompt(postText: string, stylePrompt: string): (r: string)
    ensures StartsWith(r, stylePrompt)
    ensures Contains(r, "「" + postText + "」")
  {
    var r := stylePrompt + PostLabel + ("「" + postText + "」") + PromptTail;
    assert r[..|stylePrompt|] == stylePrompt;
    ContainsMiddle(stylePrompt + PostLabel, "「" + postText + "」", PromptTail);
    r
  }

  // ---------------------------------------------------------------- cleanupReply

  /** The characters `^["「『]` removes from the front. */
  predicate IsOpeningQuote(c: char) {
    c == '"' || c == '「' || c == '『'
  }

  /** The characters `["」』]$` removes from the end. */
  predicate IsClosingQuote(c: char) {
    c == '"' || c == '」' || c == '』'
  }

  predicate IsNewline(c: char) {
    c == '\n'
  }

  /** How many characters `^["「『]` removes: one opening quote or none. */
  function OpeningQuotes(s: string): (n: nat)
    ensures n <= 1 && n <= |s|
  {
    if |s| > 0 && IsOpeningQuote(s[0]) then 1 else 0
  }

  /**
    `.replace(/^["「『]|["」』]$/g, '')`: one opening quote at the front and
    one closing quote at the end are removed, independently of each other; a
    lone `"` is removed once.
   */
  function StripQuotes(s: string): (r: string)
    ensures |s| - 2 <= |r| <= |s|
    ensures OpeningQuotes(s) + |r| <= |s| && r == s[OpeningQuotes(s)..OpeningQuotes(s) + |r|]
  {
    var a := OpeningQuotes(s);
    if |s| > a && IsClosingQuote(s[|s| - 1]) then s[a..|s| - 1] else s[a..]
  }

  /** The length of the run of `p`-characters at the front of `s`. */
  function RunLength(s: string, p: char -> bool): (n: nat)
    ensures 0 < |s| && p(s[0]) ==> 0 < n
    ensures n <= |s|
    ensures forall i :: 0 <= i < n ==> p(s[i])
    ensures n == |s| || !p(s[n])
  {
    if |s| > 0 && p(s[0]) then 1 + RunLength(s[1..], p) else 0
  }

  /**
    `.replace(/P+/g, ' ')`: every maximal run of `p`-characters becomes one
    space. The result's `p`-characters are single spaces.
   */
  function CollapseRuns(s: string, p: char -> bool): (r: string)
    ensures |r| <= |s|
    ensures 0 < |s| ==> 0 < |r| && r[0] == (if p(s[0]) then ' ' else s[0])
    ensures forall i :: 0 <= i < |r| ==> r[i] == ' ' || !p(r[i])
    ensures forall i :: 0 <= i < |r| - 1 && p(r[i]) ==> !p(r[i + 1])
    decreases |s|
  {
    if |s| == 0 then ""
    else if p(s[0]) then " " + CollapseRuns(s[RunLength(s, p)..], p)
    else [s[0]] + CollapseRuns(s[1..], p)
  }

  /**
    The shape `cleanupReply` produces: no newline, every whitespace character
    is a plain space, and no two whitespace characters are adjacent.
   */
  predicate Normalized(s: string) {
    && (forall i :: 0 <= i < |s| ==> s[i] != '\n')
    && (forall i :: 0 <= i < |s| ==> IsSpace(s[i]) ==> s[i] == ' ')
    && (forall i :: 0 <= i < |s| - 1 ==> !(IsSpace(s[i]) && IsSpace(s[i + 1])))
  }

  lemma CollapseSpacesNormalized(s: string)
    ensures Normalized(CollapseRuns(s, IsSpace))
  {
    var r := CollapseRuns(s, IsSpace);
    assert forall i :: 0 <= i < |r| ==> r[i] == ' ' || !IsSpace(r[i]);
  }

  lemma NormalizedSlice(s: string, a: nat, b: nat)
    requires Normalized(s) && a <= b <= |s|
    ensures Normalized(s[a..b])
  {
    var t := s[a..b];
    assert forall i :: 0 <= i < |t| ==> t[i] == s[a + i];
  }

  /**
    `cleanupReply`: trim, strip one opening and one closing quote, turn runs of
    newlines into a space, turn runs of whitespace into a space, trim again.
   */
  function CleanupReply(reply: string): (r: string)
    ensures |r| <= |reply|
    ensures Trimmed(r)
    ensures Normalized(r)
  {
    var t := StripQuotes(Trim(reply));
    var n := CollapseRuns(t, IsNewline);
    var w := CollapseRuns(n, IsSpace);
    var r := Trim(w);
    CollapseSpacesNormalized(n);
    NormalizedSlice(w, LeadingSpaces(w), LeadingSpaces(w) + |r|);
    r
  }

  // ---------------------------------------------------------------- properties

  /** The non-space characters of `s`, in order. */
  function Visible(s: string): string {
    if |s| == 0 then ""
    else if IsSpace(s[0]) then Visible(s[1..])
    else [s[0]] + Visible(s[1..])
  }

  lemma {:induction false} VisibleAppend(s: string, t: string)
    ensures Visible(s + t) == Visible(s) + Visible(t)
    decreases |s|
  {
    if |s| == 0 {
      assert s + t == t;
    } else {
      assert (s + t)[1..] == s[1..] + t;
      VisibleAppend(s[1..], t);
    }
  }

  lemma {:induction false} VisibleOfSpaces(s: string)
    requires forall i :: 0 <= i < |s| ==> IsSpace(s[i])
    ensures Visible(s) == ""
    decreases |s|
  {
    if |s| > 0 {
      VisibleOfSpaces(s[1..]);
    }
  }

  /** `trim` removes no visible character. */
  lemma TrimKeepsVisible(s: string)
    ensures Visible(Trim(s)) == Visible(s)
  {
    var a := LeadingSpaces(s);
    var r := Trim(s);
    var b := a + |r|;
    assert Visible(s) == Visible(s[..b]) + Visible(s[b..]) by {
      assert s == s[..b] + s[b..];
      VisibleAppend(s[..b], s[b..]);
    }
    assert Visible(s[..b]) == Visible(s[..a]) + Visible(r) by {
      assert s[..b] == s[..a] + r;
      VisibleAppend(s[..a], r);
    }
    VisibleOfSpaces(s[..a]);
    VisibleOfSpaces(s[b..]);
  }

  /** Collapsing runs of whitespace characters into spaces removes no visible character. */
  lemma {:induction false} CollapseKeepsVisible(s: string, p: char -> bool)
    requires forall c :: p(c) ==> IsSpace(c)
    ensures Visible(CollapseRuns(s, p)) == Visible(s)
    decreases |s|
  {
    if |s| > 0 {
      if p(s[0]) {
        var n := RunLength(s, p);
        assert s == s[..n] + s[n..];
        VisibleAppend(s[..n], s[n..]);
        VisibleOfSpaces(s[..n]);
        CollapseKeepsVisible(s[n..], p);
        VisibleAppend(" ", CollapseRuns(s[n..], p));
      } else {
        assert s == [s[0]] + s[1..];
        VisibleAppend([s[0]], s[1..]);
        CollapseKeepsVisible(s[1..], p);
        VisibleAppend([s[0]], CollapseRuns(s[1..], p));
      }
    }
  }

  /**
    Apart from at most one opening and one closing quote, `cleanupReply` keeps
    every visible character of the reply, in order: it only rewrites whitespace.
   */
  lemma CleanupKeepsVisible(reply: string)
    ensures Visible(CleanupReply(reply)) == Visible(StripQuotes(Trim(reply)))
  {
    var t := StripQuotes(Trim(reply));
    var n := CollapseRuns(t, IsNewline);
    var w := CollapseRuns(n, IsSpace);
    CollapseKeepsVisible(t, IsNewline);
    CollapseKeepsVisible(n, IsSpace);
    TrimKeepsVisible(w);
  }

  /** A string whose `p`-characters are isolated single spaces is left alone by `CollapseRuns`. */
  lemma {:induction false} CollapseRunsFixed(s: string, p: char -> bool)
    requires forall i :: 0 <= i < |s| && p(s[i]) ==> s[i] == ' '
    requires forall i :: 0 <= i < |s| - 1 && p(s[i]) ==> !p(s[i + 1])
    ensures CollapseRuns(s, p) == s
    decreases |s|
  {
    if |s| > 0 {
      if p(s[0]) {
        assert RunLength(s, p) == 1 by {
          if |s| > 1 {
            assert !p(s[1]);
            assert RunLength(s[1..], p) == 0;
          }
        }
        CollapseRunsFixed(s[1..], p);
      } else {
        CollapseRunsFixed(s[1..], p);
      }
    }
  }

  /** A trimmed, normalized string without quotes at its ends is its own cleanup. */
  lemma NormalizedFixed(r: string)
    requires Trimmed(r) && Normalized(r)
    requires r == [] || (!IsOpeningQuote(r[0]) && !IsClosingQuote(r[|r| - 1]))
    ensures CleanupReply(r) == r
  {
    TrimTrimmed(r);
    assert StripQuotes(r) == r;
    NewlineFreeFixed(r);
    NormalizedCollapseFixed(r);
  }

  lemma NewlineFreeFixed(r: string)
    requires forall i :: 0 <= i < |r| ==> r[i] != '\n'
    ensures CollapseRuns(r, IsNewline) == r
  {
    assert forall i :: 0 <= i < |r| ==> !IsNewline(r[i]);
    CollapseRunsFixed(r, IsNewline);
  }

  lemma NormalizedCollapseFixed(r: string)
    requires Normalized(r)
    ensures CollapseRuns(r, IsSpace) == r
  {
    CollapseRunsFixed(r, IsSpace);
  }

  /**
    `cleanupReply` is idempotent on replies whose cleaned form does not itself
    start with an opening quote or end with a closing quote.
   */
  lemma CleanupIdempotent(reply: string)
    requires var r := CleanupReply(reply); r == [] || (!IsOpeningQuote(r[0]) && !IsClosingQuote(r[|r| - 1]))
    ensures CleanupReply(CleanupReply(reply)) == CleanupReply(reply)
  {
    var r := CleanupReply(reply);
    NormalizedFixed(r);
  }

  /** The opening and closing quote need not match: 「x" loses both. */
  lemma QuotesNeedNotMatch()
    ensures StripQuotes("「x\"") == "x"
    ensures StripQuotes("\"x」") == "x"
  {
  }

  /** Without its precondition idempotence fails: `""x""` loses one quote pair per call. */
  lemma CleanupNotIdempotent()
    ensures CleanupReply("\"\"x\"\"") == "\"x\""
    ensures CleanupReply("\"x\"") == "x"
  {
    DoubleQuotedCleansOnce();
    SingleQuotedCleans();
  }

  lemma DoubleQuotedCleansOnce()
    ensures CleanupReply("\"\"x\"\"") == "\"x\""
  {
    var q := "\"\"x\"\"";
    TrimTrimmed(q);
    assert StripQuotes(q) == "\"x\"";
    CleansTo("\"x\"", q);
  }

  lemma SingleQuotedCleans()
    ensures CleanupReply("\"x\"") == "x"
  {
    var h := "\"x\"";
    TrimTrimmed(h);
    assert StripQuotes(h) == "x";
    CleansTo("x", h);
  }

  /** Helper: a reply whose trimmed, quote-stripped form `t` is already normalized cleans to `t`. */
  lemma CleansTo(t: string, reply: string)
    requires StripQuotes(Trim(reply)) == t
    requires Trimmed(t) && Normalized(t)
    ensures CleanupReply(reply) == t
  {
    NewlineFreeFixed(t);
    NormalizedCollapseFixed(t);
    TrimTrimmed(t);
  }
}

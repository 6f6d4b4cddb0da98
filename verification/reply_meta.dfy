/**
  How the content script strips the metadata lines from a generated reply:
  the first match of `/STYLE:\s*(.+)$/im` and the first match of
  `/REASON:\s*(.+)$/im` are both taken from the reply as it arrives, each
  matched text is then removed with a plain-string `replace`, the rest is
  trimmed, and an opening and a closing code fence are dropped.
 */
module ReplyMeta {
  import opened Results
  import opened Strings
  import opened AnalysisParse
  import Base

  // ------------------------------------------------------- the line pattern

  /**
    Backtracking into `\s*` for `(.+)`: the group starts at the last
    position from `c` down to `low` where `.` accepts a character.
   */
  function TextStart(s: string, low: nat, c: nat): (r: Option<nat>)
    requires low <= c <= |s|
    ensures r.Some? ==> low <= r.value <= c && r.value < |s| && !IsLineTerminator(s[r.value])
    ensures r.Some? ==> forall k :: r.value < k <= c ==> k == |s| || IsLineTerminator(s[k])
    ensures r.None? ==> forall k :: low <= k <= c ==> k == |s| || IsLineTerminator(s[k])
    decreases c - low
  {
    if c < |s| && !IsLineTerminator(s[c]) then Some(c)
    else if c == low then None
    else TextStart(s, low, c - 1)
  }

  /**
    `/KEY:\s*(.+)$/im` tried at `p`: the key, greedy whitespace, then a
    group running greedily to the end of its line, where `$` holds. The
    result is the end of the match.
   */
  function LineMatchEnd(s: string, key: string, p: nat): (e: Option<nat>)
    ensures e.Some? ==> CiOccursAt(s, key, p) && p + |key| < e.value <= |s|
  {
    if !CiOccursAt(s, key, p) then None
    else
      var low := p + |key|;
      match TextStart(s, low, low + LeadingSpaces(s[low..]))
      case None => None
      case Some(k) => Some(LineEnd(s, k))
  }

  /** The text matched at `p`, if the pattern matches there. */
  function LineAttempt(s: string, key: string, p: nat): Option<string> {
    match LineMatchEnd(s, key, p)
    case None => None
    case Some(e) => Some(s[p..e])
  }

  /** The attempts at every position of `s`, the end included. */
  function LineAttempts(s: string, key: string): (a: seq<Option<string>>)
    ensures |a| == |s| + 1 && forall q :: 0 <= q <= |s| ==> a[q] == LineAttempt(s, key, q)
  {
    seq(|s| + 1, q requires 0 <= q <= |s| => LineAttempt(s, key, q))
  }

  /** `s.match(/KEY:\s*(.+)$/im)?.[0]`: the text of the leftmost match. */
  function LineMatch(s: string, key: string): Option<string> {
    FirstMatch(LineAttempts(s, key), 0)
  }

  // ------------------------------------------------------- code fences

  const Fence := "```"

  /** The length of the run of `\w` characters at the front of `s`. */
  function WordRun(s: string): (n: nat)
    ensures n <= |s|
  {
    if |s| > 0 && IsWordChar(s[0]) then 1 + WordRun(s[1..]) else 0
  }

  /** How many characters `/^```\w*\s*\/` removes. */
  function FenceOpen(s: string): (n: nat)
    ensures n <= |s|
    ensures !StartsWith(s, Fence) ==> n == 0
  {
    if StartsWith(s, Fence) then
      var w := |Fence| + WordRun(s[|Fence|..]);
      w + LeadingSpaces(s[w..])
    else 0
  }

  /** How many characters `/\s*```$/` removes from the end. */
  function FenceClose(s: string): (n: nat)
    ensures n <= |s|
    ensures !EndsWith(s, Fence) ==> n == 0
  {
    if EndsWith(s, Fence) then |Fence| + TrailingSpaces(s[..|s| - |Fence|]) else 0
  }

  /** The two fence replacements, in order: what is left is a slice of `s`. */
  function StripFences(s: string): (r: string)
    ensures FenceOpen(s) + |r| <= |s| && r == s[FenceOpen(s)..FenceOpen(s) + |r|]
    ensures !StartsWith(s, Fence) && !EndsWith(s, Fence) ==> r == s
  {
    var a := s[FenceOpen(s)..];
    a[..|a| - FenceClose(a)]
  }

  // ------------------------------------------------------- stripping, as written

  /** `reply.replace(match[0], '')` when the pattern matched. */
  function Without(s: string, m: Option<string>): string {
    if m.Some? then ReplaceFirst(s, m.value, "") else s
  }

  /** The reply shown, as `generateReply` computes it: both matches are taken from the reply as it arrives. */
  function StripMetadata(reply: string): (r: string)
    ensures |r| <= |reply|
    ensures LineMatch(reply, StyleKey).None? && LineMatch(reply, ReasonKey).None? ==> r == StripFences(Trim(reply))
  {
    var style := LineMatch(reply, StyleKey);
    var reason := LineMatch(reply, ReasonKey);
    WithoutShrinks(reply, style);
    WithoutShrinks(Without(reply, style), reason);
    StripFences(Trim(Without(Without(reply, style), reason)))
  }

  /** Removing a match never lengthens the text. */
  lemma WithoutShrinks(s: string, m: Option<string>)
    ensures |Without(s, m)| <= |s|
  {
    if m.Some? && Contains(s, m.value) {
      var i := IndexOf(s, m.value).value;
      assert |Without(s, m)| == i + (|s| - (i + |m.value|));
    }
  }

  // ------------------------------------------------------- one-line replies

  /** No line terminator anywhere: every reply the background returns is of this kind. */
  predicate SingleLine(s: string) {
    forall i :: 0 <= i < |s| ==> !IsLineTerminator(s[i])
  }

  /** A reply cleaned by the provider has no line terminator: newlines became spaces, and so did every other space. */
  lemma CleanedIsSingleLine(r: string)
    requires Base.Normalized(r)
    ensures SingleLine(r)
  {
    forall i | 0 <= i < |r|
      ensures !IsLineTerminator(r[i])
    {
      assert IsLineTerminator(r[i]) ==> IsSpace(r[i]);
    }
  }

  /** `key` at `q` with at least one character after it: on one line, exactly where the pattern matches. */
  predicate LabelAt(s: string, key: string, q: int) {
    CiOccursAt(s, key, q) && q + |key| < |s|
  }

  /** No position of `s` holds a label `key`. */
  predicate NoLabel(s: string, key: string) {
    forall q :: 0 <= q <= |s| ==> !LabelAt(s, key, q)
  }

  /** The first position from `from` on that holds a label. */
  function FirstLabelFrom(s: string, key: string, from: nat): (r: Option<nat>)
    requires from <= |s|
    ensures r.Some? ==> from <= r.value < |s| && LabelAt(s, key, r.value)
    ensures r.Some? ==> forall q :: from <= q < r.value ==> !LabelAt(s, key, q)
    ensures r.None? ==> forall q :: from <= q <= |s| ==> !LabelAt(s, key, q)
    decreases |s| - from
  {
    if LabelAt(s, key, from) then Some(from)
    else if from == |s| then None
    else FirstLabelFrom(s, key, from + 1)
  }

  function FirstLabel(s: string, key: string): (r: Option<nat>)
    ensures r.Some? ==> r.value < |s| && LabelAt(s, key, r.value)
    ensures r.Some? ==> forall q :: 0 <= q < r.value ==> !LabelAt(s, key, q)
    ensures r.None? <==> NoLabel(s, key)
  {
    FirstLabelFrom(s, key, 0)
  }

  /** On one line the attempt at `q` matches exactly at a label, and takes the rest of the text. */
  lemma LineAttemptSingle(s: string, key: string, q: nat)
    requires SingleLine(s) && q <= |s|
    ensures LabelAt(s, key, q) ==> LineAttempt(s, key, q) == Some(s[q..])
    ensures !LabelAt(s, key, q) ==> LineAttempt(s, key, q) == None
  {
    if CiOccursAt(s, key, q) {
      var low := q + |key|;
      var c := low + LeadingSpaces(s[low..]);
      if low < |s| {
        var k := if c < |s| then c else c - 1;
        assert TextStart(s, low, c) == Some(k) by {
          if c == |s| {
            assert TextStart(s, low, c) == TextStart(s, low, c - 1);
          }
        }
        assert LineEnd(s, k) == |s|;
        assert LineMatchEnd(s, key, q) == Some(|s|);
        assert s[q..|s|] == s[q..];
      }
    }
  }

  /** On one line the pattern matches from the first label to the end, and nowhere without a label. */
  lemma LineMatchSingle(s: string, key: string)
    requires SingleLine(s)
    ensures FirstLabel(s, key).None? ==> LineMatch(s, key) == None
    ensures FirstLabel(s, key).Some? ==> LineMatch(s, key) == Some(s[FirstLabel(s, key).value..])
  {
    var a := LineAttempts(s, key);
    forall q | 0 <= q <= |s|
      ensures LabelAt(s, key, q) ==> a[q] == Some(s[q..])
      ensures !LabelAt(s, key, q) ==> a[q] == None
    {
      LineAttemptSingle(s, key, q);
    }
    if FirstLabel(s, key).Some? {
      FirstMatchSkips(a, 0, FirstLabel(s, key).value);
    }
  }

  /**
    The text from the first label of a text to its end occurs in no proper
    prefix of that text: an earlier occurrence would be an earlier label.
   */
  lemma TailAbsent(s: string, key: string, r: nat, n: nat)
    requires LabelAt(s, key, r) && forall q :: 0 <= q < r ==> !LabelAt(s, key, q)
    requires n < |s|
    ensures !Contains(s[..n], s[r..])
  {
    var t := s[..n];
    var m := s[r..];
    forall j | 0 <= j <= |t| - |m|
      ensures !OccursAt(t, m, j)
    {
      assert !LabelAt(s, key, j);
      var i :| 0 <= i < |key| && AsciiUpper(s[j + i]) != AsciiUpper(key[i]);
      assert t[j..j + |m|][i] != m[i];
    }
  }

  /** Removing the text from the first label on leaves what is before it. */
  lemma CutAtLabel(s: string, key: string, p: nat)
    requires LabelAt(s, key, p) && forall q :: 0 <= q < p ==> !LabelAt(s, key, q)
    ensures ReplaceFirst(s, s[p..], "") == s[..p]
  {
    var m := s[p..];
    assert OccursAt(s, m, p);
    forall j | 0 <= j < p
      ensures !OccursAt(s, m, j)
    {
      assert !LabelAt(s, key, j);
      var i :| 0 <= i < |key| && AsciiUpper(s[j + i]) != AsciiUpper(key[i]);
      assert s[j..j + |m|][i] != m[i];
    }
    assert IndexOf(s, m) == Some(p);
  }

  /** Removing the first match of a one-line text leaves what is before the first label. */
  lemma WithoutFirstMatch(s: string, key: string)
    requires SingleLine(s)
    ensures FirstLabel(s, key).None? ==> Without(s, LineMatch(s, key)) == s
    ensures FirstLabel(s, key).Some? ==> Without(s, LineMatch(s, key)) == s[..FirstLabel(s, key).value]
  {
    LineMatchSingle(s, key);
    if FirstLabel(s, key).Some? {
      CutAtLabel(s, key, FirstLabel(s, key).value);
    }
  }

  /**
    On one line, the reply as written is cut at the first `STYLE:` label:
    the reason's matched text reaches the end of the reply, so it is gone
    with the style's when it comes later, and is not found when it comes
    earlier.
   */
  lemma StrippedAtStyle(s: string)
    requires SingleLine(s) && FirstLabel(s, StyleKey).Some?
    ensures StripMetadata(s) == StripFences(Trim(s[..FirstLabel(s, StyleKey).value]))
  {
    var p := FirstLabel(s, StyleKey).value;
    WithoutFirstMatch(s, StyleKey);
    LineMatchSingle(s, ReasonKey);
    if FirstLabel(s, ReasonKey).Some? {
      TailAbsent(s, ReasonKey, FirstLabel(s, ReasonKey).value, p);
    }
  }

  /** On one line without a `STYLE:` label, the reply is cut at the first `REASON:` label. */
  lemma StrippedAtReason(s: string)
    requires SingleLine(s) && FirstLabel(s, StyleKey).None? && FirstLabel(s, ReasonKey).Some?
    ensures StripMetadata(s) == StripFences(Trim(s[..FirstLabel(s, ReasonKey).value]))
  {
    WithoutFirstMatch(s, StyleKey);
    WithoutFirstMatch(s, ReasonKey);
  }

  /** A reply without labels is only trimmed and unfenced. */
  lemma UnlabelledReply(s: string)
    requires SingleLine(s) && NoLabel(s, StyleKey) && NoLabel(s, ReasonKey)
    ensures StripMetadata(s) == StripFences(Trim(s))
  {
    WithoutFirstMatch(s, StyleKey);
    WithoutFirstMatch(s, ReasonKey);
  }

  /**
    A reply in the requested format, after the provider has joined its
    lines with spaces, is the reply text alone: `text STYLE: id REASON: why`
    becomes `text`, whatever follows the label.
   */
  lemma RequestedFormatStripped(text: string, rest: string)
    requires SingleLine(text) && SingleLine(rest) && rest != []
    requires Trimmed(text) && !StartsWith(text, Fence) && !EndsWith(text, Fence)
    requires CiFree(text, StyleKey)
    ensures StripMetadata(text + " " + StyleKey + rest) == text
  {
    var s := text + " " + StyleKey + rest;
    var p := |text| + 1;
    forall i | 0 <= i < |s|
      ensures !IsLineTerminator(s[i])
    {
      if i >= p + |StyleKey| {
        assert s[i] == rest[i - p - |StyleKey|];
      }
    }
    assert s[p..p + |StyleKey|] == StyleKey;
    OccursAtIsCi(s, StyleKey, p);
    assert s == text + " " + (StyleKey + rest);
    NoLabelBeforeSpace(text, StyleKey + rest, StyleKey);
    assert LabelAt(s, StyleKey, p);
    assert forall q :: 0 <= q < p ==> !LabelAt(s, StyleKey, q);
    assert FirstLabel(s, StyleKey) == Some(p);
    StrippedAtStyle(s);
    assert s[..p] == text + " ";
    TrimBeforeSpace(text);
  }

  /** A label that `text` does not contain does not start anywhere in `text + " "`. */
  lemma NoLabelBeforeSpace(text: string, rest: string, key: string)
    requires KeyChars(key) && |key| > 0 && CiFree(text, key)
    ensures forall q :: 0 <= q <= |text| ==> !CiOccursAt(text + " " + rest, key, q)
  {
    var s := text + " " + rest;
    forall q | 0 <= q <= |text|
      ensures !CiOccursAt(s, key, q)
    {
      if q + |key| <= |text| {
        assert !CiOccursAt(text, key, q);
        var k :| 0 <= k < |key| && AsciiUpper(text[q + k]) != AsciiUpper(key[k]);
        assert s[q + k] == text[q + k];
      } else if q + |key| <= |s| {
        KeyAvoidsBreaks(s, key, q, |text|);
      }
    }
  }

  /** A trimmed text followed by one space trims back to the text. */
  lemma TrimBeforeSpace(text: string)
    requires Trimmed(text)
    ensures Trim(text + " ") == text
  {
    var s := text + " ";
    if text == [] {
      TrimAllSpaces(s);
    } else {
      LeadingSpacesOf("", s);
      assert "" + s == s;
      assert s[..|text|] == text;
    }
  }

  // ------------------------------------------------------- the reason left behind

  /**
    As written, a reason given before the style stays in the reply: the
    reason's matched text runs to the end of the reply, and after the
    style's text is removed it is no longer there to be found.
   */
  lemma ReasonBeforeStyleLeaks()
    ensures StripMetadata("REASON: x STYLE: y") == "REASON: x"
    ensures LabelAt("REASON: x", ReasonKey, 0)
  {
    var text := "REASON: x";
    assert text + " " + StyleKey + " y" == "REASON: x STYLE: y";
    ReasonTextLacksStyle();
    RequestedFormatStripped(text, " y");
    ReasonTextLabelled();
  }

  lemma ReasonTextLacksStyle()
    ensures CiFree("REASON: x", StyleKey)
  {
    var text := "REASON: x";
    forall q | 0 <= q < |text|
      ensures !CiOccursAt(text, StyleKey, q)
    {
      if q + |StyleKey| <= |text| {
        assert AsciiUpper(text[q + 1]) != AsciiUpper(StyleKey[1]) || AsciiUpper(text[q]) != AsciiUpper(StyleKey[0]);
      }
    }
  }

  lemma ReasonTextLabelled()
    ensures LabelAt("REASON: x", ReasonKey, 0)
  {
    assert "REASON: x"[..|ReasonKey|] == ReasonKey;
    OccursAtIsCi("REASON: x", ReasonKey, 0);
  }

  // ------------------------------------------------------- stripping, corrected

  /**
    The stripping with the reason matched on the reply the style was already
    removed from, so that a label in either order is removed.
   */
  function StripMetadataSequential(reply: string): (r: string)
    ensures |r| <= |reply|
    ensures LineMatch(reply, StyleKey).None? ==> r == StripFences(Trim(Without(reply, LineMatch(reply, ReasonKey))))
  {
    var a := Without(reply, LineMatch(reply, StyleKey));
    var b := Without(a, LineMatch(a, ReasonKey));
    WithoutShrinks(reply, LineMatch(reply, StyleKey));
    WithoutShrinks(a, LineMatch(a, ReasonKey));
    StripFences(Trim(b))
  }

  /** A slice of a text without labels has none either. */
  lemma SliceNoLabel(s: string, key: string, i: nat, j: nat)
    requires i <= j <= |s|
    requires forall q :: i <= q < j ==> !LabelAt(s, key, q)
    ensures NoLabel(s[i..j], key)
  {
    var t := s[i..j];
    forall q | 0 <= q <= |t|
      ensures !LabelAt(t, key, q)
    {
      if q + |key| < |t| {
        assert !LabelAt(s, key, i + q);
        var k :| 0 <= k < |key| && AsciiUpper(s[i + q + k]) != AsciiUpper(key[k]);
        assert t[q + k] == s[i + q + k];
      }
    }
  }

  /** Removing the first match of a one-line text leaves a prefix with no such label, and any label-free property of the text carries over. */
  lemma WithoutLeavesNoLabel(s: string, key: string, other: string)
    requires SingleLine(s)
    ensures var a := Without(s, LineMatch(s, key));
            SingleLine(a) && NoLabel(a, key) && (NoLabel(s, other) ==> NoLabel(a, other))
  {
    WithoutFirstMatch(s, key);
    match FirstLabel(s, key)
    case None =>
    case Some(p) =>
      SliceNoLabel(s, key, 0, p);
      if NoLabel(s, other) {
        SliceNoLabel(s, other, 0, p);
      }
  }

  /** Trimming and dropping fences keep a text free of a label. */
  lemma FinishKeepsNoLabel(b: string, key: string)
    requires NoLabel(b, key)
    ensures NoLabel(StripFences(Trim(b)), key)
  {
    TrimKeepsNoLabel(b, key);
    FencesKeepNoLabel(Trim(b), key);
  }

  lemma TrimKeepsNoLabel(b: string, key: string)
    requires NoLabel(b, key)
    ensures NoLabel(Trim(b), key)
  {
    var l := LeadingSpaces(b);
    NoLabelSlice(b, key, l, l + |Trim(b)|);
  }

  lemma FencesKeepNoLabel(t: string, key: string)
    requires NoLabel(t, key)
    ensures NoLabel(StripFences(t), key)
  {
    var f := FenceOpen(t);
    NoLabelSlice(t, key, f, f + |StripFences(t)|);
  }

  lemma NoLabelSlice(s: string, key: string, i: nat, j: nat)
    requires i <= j <= |s| && NoLabel(s, key)
    ensures NoLabel(s[i..j], key)
  {
    SliceNoLabel(s, key, i, j);
  }

  /** The corrected stripping leaves no `STYLE:` or `REASON:` label in a one-line reply, whatever their order. */
  lemma CorrectedLeavesNoLabel(s: string)
    requires SingleLine(s)
    ensures NoLabel(StripMetadataSequential(s), StyleKey)
    ensures NoLabel(StripMetadataSequential(s), ReasonKey)
  {
    var a := Without(s, LineMatch(s, StyleKey));
    WithoutLeavesNoLabel(s, StyleKey, ReasonKey);
    var b := Without(a, LineMatch(a, ReasonKey));
    WithoutLeavesNoLabel(a, ReasonKey, StyleKey);
    FinishKeepsNoLabel(b, StyleKey);
    FinishKeepsNoLabel(b, ReasonKey);
  }

  /** When no reason comes before the style, the corrected stripping gives what the code as written gives. */
  lemma CorrectedAgrees(s: string)
    requires SingleLine(s)
    requires FirstLabel(s, StyleKey).None? || FirstLabel(s, ReasonKey).None?
             || FirstLabel(s, StyleKey).value < FirstLabel(s, ReasonKey).value
    ensures StripMetadataSequential(s) == StripMetadata(s)
  {
    match FirstLabel(s, StyleKey)
    case None => AgreesWithoutStyle(s);
    case Some(p) => AgreesAtStyle(s, p);
  }

  /** Without a style label the first removal changes nothing in either version. */
  lemma AgreesWithoutStyle(s: string)
    requires SingleLine(s) && FirstLabel(s, StyleKey).None?
    ensures StripMetadataSequential(s) == StripMetadata(s)
  {
    WithoutFirstMatch(s, StyleKey);
    assert Without(s, LineMatch(s, StyleKey)) == s;
  }

  /** A style label before any reason label cuts the reply there in both versions. */
  lemma AgreesAtStyle(s: string, p: nat)
    requires SingleLine(s) && FirstLabel(s, StyleKey) == Some(p)
    requires FirstLabel(s, ReasonKey).None? || p < FirstLabel(s, ReasonKey).value
    ensures StripMetadataSequential(s) == StripMetadata(s)
  {
    var a := Without(s, LineMatch(s, StyleKey));
    assert a == s[..p] by {
      WithoutFirstMatch(s, StyleKey);
    }
    StrippedAtStyle(s);
    assert NoLabel(a, ReasonKey) by {
      SliceNoLabel(s, ReasonKey, 0, p);
      assert s[0..p] == a;
    }
    WithoutFirstMatch(a, ReasonKey);
  }
}

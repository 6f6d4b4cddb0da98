/**
  How the content script reads the labelled fields of a style analysis:
  `STYLE:`, `STRATEGY:` and `REASON:`, each matched by a case-insensitive
  regular expression `KEY:\s*(.+?)(?=<next key>|$)` without the `m` flag.
  The regular expressions are modelled by what they match: the leftmost
  position of the key, greedy whitespace, then a lazy group of at least
  one non-line-terminator character that ends where the lookahead holds.
 */
module AnalysisParse {
  import opened Results
  import opened Strings

  // ------------------------------------------------------- the matcher

  /** The first line terminator at or after `c`, or the end of `s`. */
  function LineEnd(s: string, c: nat): (t: nat)
    requires c <= |s|
    ensures c <= t <= |s|
    ensures forall k :: c <= k < t ==> !IsLineTerminator(s[k])
    ensures t == |s| || IsLineTerminator(s[t])
    decreases |s| - c
  {
    if c == |s| || IsLineTerminator(s[c]) then c else LineEnd(s, c + 1)
  }

  /** The lookahead `(?=\nA:|\nB:|$)`: the end of the input, or one of `stops` (compared ignoring case). */
  predicate StopsAt(s: string, stops: seq<string>, e: nat) {
    e == |s| || exists j :: 0 <= j < |stops| && CiOccursAt(s, stops[j], e)
  }

  /**
    The lazy group started at `c` cannot pass a line terminator and can end
    only where the lookahead holds, which is never inside a line: it fits
    when its line is non-empty and the lookahead holds at the line's end.
   */
  predicate GroupFits(s: string, stops: seq<string>, c: nat)
    requires c <= |s|
  {
    var t := LineEnd(s, c);
    t > c && StopsAt(s, stops, t)
  }

  /**
    Backtracking into `\s*`: the group start tried first is after all the
    whitespace (`c`), then one character earlier, down to `low`.
   */
  function GroupStart(s: string, stops: seq<string>, low: nat, c: nat): (r: Option<nat>)
    requires low <= c <= |s|
    ensures r.Some? ==> low <= r.value <= c && GroupFits(s, stops, r.value)
    ensures r.Some? ==> forall k :: r.value < k <= c ==> !GroupFits(s, stops, k)
    ensures r.None? ==> forall k :: low <= k <= c ==> !GroupFits(s, stops, k)
    decreases c - low
  {
    if GroupFits(s, stops, c) then Some(c)
    else if c == low then None
    else GroupStart(s, stops, low, c - 1)
  }

  /** The match attempt at position `p`: the key, then greedy whitespace, then the group; the group's text. */
  function CaptureAt(s: string, key: string, stops: seq<string>, p: nat): (r: Option<string>)
    ensures r.Some? ==> CiOccursAt(s, key, p) && r.value != [] && p + |key| + |r.value| <= |s|
    ensures r.Some? ==> forall k :: 0 <= k < |r.value| ==> !IsLineTerminator(r.value[k])
  {
    if !CiOccursAt(s, key, p) then None
    else
      var low := p + |key|;
      match GroupStart(s, stops, low, low + LeadingSpaces(s[low..]))
      case None => None
      case Some(c) => Some(s[c..LineEnd(s, c)])
  }

  /** The first attempt from `p` on that matches: how a search keeps the leftmost match. */
  function FirstMatch<T>(attempts: seq<Option<T>>, p: nat): (r: Option<T>)
    requires p <= |attempts|
    ensures r.Some? ==> exists q :: p <= q < |attempts| && attempts[q] == r
    ensures r.None? <==> forall q :: p <= q < |attempts| ==> attempts[q].None?
    decreases |attempts| - p
  {
    if p == |attempts| then None
    else if attempts[p].Some? then attempts[p]
    else FirstMatch(attempts, p + 1)
  }

  /** Failed attempts before a match are passed over. */
  lemma {:induction false} FirstMatchSkips<T>(attempts: seq<Option<T>>, q: nat, p: nat)
    requires q <= p < |attempts| && attempts[p].Some?
    requires forall k :: q <= k < p ==> attempts[k].None?
    ensures FirstMatch(attempts, q) == attempts[p]
    decreases p - q
  {
    if q < p {
      FirstMatchSkips(attempts, q + 1, p);
    }
  }

  /** The match attempts at every position of `s`, the end included. */
  function Attempts(s: string, key: string, stops: seq<string>): (a: seq<Option<string>>)
    ensures |a| == |s| + 1 && forall q :: 0 <= q <= |s| ==> a[q] == CaptureAt(s, key, stops, q)
  {
    seq(|s| + 1, q requires 0 <= q <= |s| => CaptureAt(s, key, stops, q))
  }

  /** The first capture group of `s.match(re)`, if the pattern matches at all. */
  function Capture(s: string, key: string, stops: seq<string>): Option<string> {
    FirstMatch(Attempts(s, key, stops), 0)
  }

  // ------------------------------------------------------- the three fields

  const StyleKey := "STYLE:"
  const StrategyKey := "STRATEGY:"
  const ReasonKey := "REASON:"

  /** What may follow each field: the next labels, on a new line. */
  const StyleStops: seq<string> := ["\nSTRATEGY:", "\nREASON:"]
  const StrategyStops: seq<string> := ["\nREASON:"]
  const ReasonStops: seq<string> := []

  /** The values used when a field is missing. */
  const DefaultStyleName := "Casual Insight"
  const DefaultStrategy := "直接回應"
  const DefaultReason := "符合上下文語氣"

  /** A field's trimmed capture, or the default when the pattern does not match. */
  function Field(s: string, key: string, stops: seq<string>, default: string): (v: string)
    ensures Capture(s, key, stops).Some? ==> v == Trim(Capture(s, key, stops).value)
    ensures Capture(s, key, stops).None? ==> v == default
  {
    match Capture(s, key, stops)
    case Some(g) => Trim(g)
    case None => default
  }

  function StyleField(analysis: string): string {
    Field(analysis, StyleKey, StyleStops, DefaultStyleName)
  }

  function StrategyField(analysis: string): string {
    Field(analysis, StrategyKey, StrategyStops, DefaultStrategy)
  }

  function ReasonField(analysis: string): string {
    Field(analysis, ReasonKey, ReasonStops, DefaultReason)
  }

  // ------------------------------------------------------- reading a well-formed answer

  /** A field value as the analysis writes it: a non-empty line that does not start with whitespace. */
  predicate PlainValue(v: string) {
    v != [] && !IsSpace(v[0]) && forall k :: 0 <= k < |v| ==> !IsLineTerminator(v[k])
  }

  /** Every stop starts with a newline. */
  predicate NewlineStops(stops: seq<string>) {
    forall j :: 0 <= j < |stops| ==> |stops[j]| > 0 && stops[j][0] == '\n'
  }

  /** A case-insensitive match of a newline is a newline. */
  lemma CiNewline(s: string, stop: string, e: nat)
    requires CiOccursAt(s, stop, e) && |stop| > 0 && stop[0] == '\n'
    ensures e < |s| && s[e] == '\n'
  {
    assert AsciiUpper(s[e + 0]) == AsciiUpper(stop[0]);
  }

  /**
    The attempt at `p` reads the value written after the key and one space
    when the lookahead holds right after it.
   */
  lemma CaptureAtValue(s: string, key: string, stops: seq<string>, p: nat, v: string)
    requires NewlineStops(stops)
    requires CiOccursAt(s, key, p) && PlainValue(v)
    requires p + |key| + 1 + |v| <= |s| && s[p + |key|] == ' ' && s[p + |key| + 1..p + |key| + 1 + |v|] == v
    requires StopsAt(s, stops, p + |key| + 1 + |v|)
    ensures CaptureAt(s, key, stops, p) == Some(v)
  {
    var low := p + |key|;
    var c := low + 1;
    var e := c + |v|;
    assert s[c] == v[0];
    LeadingSpacesAfterOne(s[low..]);
    forall k | c <= k < e
      ensures !IsLineTerminator(s[k])
    {
      assert s[k] == v[k - c];
    }
    if e < |s| {
      var j :| 0 <= j < |stops| && CiOccursAt(s, stops[j], e);
      CiNewline(s, stops[j], e);
    }
    LineEndAt(s, c, e);
    assert GroupFits(s, stops, c);
    assert GroupStart(s, stops, low, c) == Some(c);
  }

  /** One space followed by a non-space is a whitespace run of one. */
  lemma LeadingSpacesAfterOne(t: string)
    requires |t| > 1 && t[0] == ' ' && !IsSpace(t[1])
    ensures LeadingSpaces(t) == 1
  {
    assert t[1..][0] == t[1];
  }

  /** A line with no terminator up to `e`, and a terminator or the end at `e`, ends at `e`. */
  lemma {:induction false} LineEndAt(s: string, c: nat, e: nat)
    requires c <= e <= |s|
    requires forall k :: c <= k < e ==> !IsLineTerminator(s[k])
    requires e == |s| || IsLineTerminator(s[e])
    ensures LineEnd(s, c) == e
    decreases e - c
  {
    if c < e {
      LineEndAt(s, c + 1, e);
    }
  }

  /**
    Reading a field: when the first occurrence of the key is followed by one
    space, a plain value and then a stop or the end, the field is the value,
    trimmed.
   */
  lemma FieldReadsValue(s: string, key: string, stops: seq<string>, default: string, p: nat, v: string)
    requires NewlineStops(stops)
    requires CiOccursAt(s, key, p) && PlainValue(v)
    requires forall k :: 0 <= k < p ==> !CiOccursAt(s, key, k)
    requires p + |key| + 1 + |v| <= |s| && s[p + |key|] == ' ' && s[p + |key| + 1..p + |key| + 1 + |v|] == v
    requires StopsAt(s, stops, p + |key| + 1 + |v|)
    ensures Field(s, key, stops, default) == Trim(v)
  {
    CaptureAtValue(s, key, stops, p, v);
    var a := Attempts(s, key, stops);
    forall k | 0 <= k < p
      ensures a[k].None?
    {
      assert !CiOccursAt(s, key, k);
    }
    FirstMatchSkips(a, 0, p);
  }

  /** A missing key gives the default. */
  lemma MissingFieldDefaults(s: string, key: string, stops: seq<string>, default: string)
    requires forall q :: 0 <= q <= |s| ==> !CiOccursAt(s, key, q)
    ensures Field(s, key, stops, default) == default
  {
    var a := Attempts(s, key, stops);
    forall q | 0 <= q < |a|
      ensures a[q].None?
    {
      assert !CiOccursAt(s, key, q);
    }
  }

  // ------------------------------------------------------- the answer format

  /** The analysis as the model is asked to write it: three labelled lines. */
  function Analysis(style: string, strategy: string, reason: string): string {
    StyleKey + " " + style + "\n" + StrategyKey + " " + strategy + "\n" + ReasonKey + " " + reason
  }

  /** The label characters: capitals and the colon. */
  predicate KeyChars(key: string) {
    forall k :: 0 <= k < |key| ==> IsUpper(key[k]) || key[k] == ':'
  }

  /** A label never matches across a space or a newline. */
  lemma KeyAvoidsBreaks(s: string, key: string, q: nat, m: nat)
    requires KeyChars(key) && q <= m < q + |key| && m < |s|
    requires s[m] == ' ' || s[m] == '\n'
    ensures !CiOccursAt(s, key, q)
  {
    assert AsciiUpper(s[q + (m - q)]) != AsciiUpper(key[m - q]);
  }

  /** A label occurrence inside the middle part of a concatenation is an occurrence in that part. */
  lemma CiOccursInPart(a: string, x: string, b: string, key: string, q: nat)
    requires CiOccursAt(a + x + b, key, q) && |a| <= q && q + |key| <= |a| + |x|
    ensures CiOccursAt(x, key, q - |a|)
  {
    var s := a + x + b;
    forall k | 0 <= k < |key|
      ensures AsciiUpper(x[q - |a| + k]) == AsciiUpper(key[k])
    {
      assert s[q + k] == x[q - |a| + k];
    }
  }

  /** `key` occurs nowhere in `v`, ignoring case. */
  predicate CiFree(v: string, key: string) {
    forall q :: 0 <= q < |v| ==> !CiOccursAt(v, key, q)
  }

  /**
    In `head + " " + x + "\n" + tail`, a label that neither `head` nor `x`
    contains does not occur before the newline: an earlier occurrence would
    lie inside `head`, inside `x`, or cover the space or the newline.
   */
  lemma NoEarlierKey(head: string, x: string, tail: string, key: string)
    requires KeyChars(key) && |key| > 0 && CiFree(head, key) && CiFree(x, key)
    ensures var s := head + " " + x + "\n" + tail;
            forall q :: 0 <= q <= |head| + 1 + |x| ==> !CiOccursAt(s, key, q)
  {
    var s := head + " " + x + "\n" + tail;
    var nl := |head| + 1 + |x|;
    assert s[|head|] == ' ' && s[nl] == '\n';
    forall q | 0 <= q <= nl
      ensures !CiOccursAt(s, key, q)
    {
      if q <= |head| && |head| < q + |key| {
        KeyAvoidsBreaks(s, key, q, |head|);
      } else if q <= nl < q + |key| && nl < |s| {
        KeyAvoidsBreaks(s, key, q, nl);
      } else if q > |head| && CiOccursAt(s, key, q) {
        assert s == (head + " ") + x + ("\n" + tail);
        CiOccursInPart(head + " ", x, "\n" + tail, key, q);
        assert false;
      } else if CiOccursAt(s, key, q) {
        assert s == "" + head + (" " + x + "\n" + tail);
        CiOccursInPart("", head, " " + x + "\n" + tail, key, q);
        assert false;
      }
    }
  }

  /** The strategy label does not contain the reason label. */
  lemma StrategyLabelLacksReason()
    ensures CiFree(StrategyKey, ReasonKey)
  {
    forall q | 0 <= q < |StrategyKey|
      ensures !CiOccursAt(StrategyKey, ReasonKey, q)
    {
      if q == 2 {
        assert AsciiUpper(StrategyKey[q + 1]) != AsciiUpper(ReasonKey[1]);
      } else if q < 2 {
        assert AsciiUpper(StrategyKey[q + 0]) != AsciiUpper(ReasonKey[0]);
      }
    }
  }

  /** The text before the strategy value contains no reason label when the style value has none. */
  lemma StyleLinesLackReason(style: string)
    requires CiFree(style, ReasonKey)
    ensures CiFree(StyleKey + " " + style + "\n" + StrategyKey, ReasonKey)
  {
    var h := StyleKey + " " + style + "\n" + StrategyKey;
    NoEarlierKey(StyleKey, style, StrategyKey, ReasonKey);
    StrategyLabelLacksReason();
    forall q | 0 <= q < |h|
      ensures !CiOccursAt(h, ReasonKey, q)
    {
      if q > |StyleKey| + 1 + |style| && CiOccursAt(h, ReasonKey, q) {
        assert h == (StyleKey + " " + style + "\n") + StrategyKey + "";
        CiOccursInPart(StyleKey + " " + style + "\n", StrategyKey, "", ReasonKey, q);
        assert false;
      }
    }
  }

  /**
    The answer format round-trips: an analysis written as three labelled
    lines reads back as its three values, trimmed, when neither the style
    nor the strategy mentions a later label.
   */
  lemma AnalysisRoundTrip(style: string, strategy: string, reason: string)
    requires PlainValue(style) && PlainValue(strategy) && PlainValue(reason)
    requires CiFree(style, StrategyKey) && CiFree(style, ReasonKey) && CiFree(strategy, ReasonKey)
    ensures StyleField(Analysis(style, strategy, reason)) == Trim(style)
    ensures StrategyField(Analysis(style, strategy, reason)) == Trim(strategy)
    ensures ReasonField(Analysis(style, strategy, reason)) == Trim(reason)
  {
    StyleRead(style, strategy, reason);
    StrategyRead(style, strategy, reason);
    ReasonRead(style, strategy, reason);
  }

  /** The lookahead holds at the start of `post`: it is empty or starts with one of the stops. */
  predicate StopBegins(stops: seq<string>, post: string) {
    post == [] || exists j :: 0 <= j < |stops| && stops[j] <= post
  }

  /**
    A field written as the key, one space and a plain value, before which the
    key does not occur and after which the lookahead holds, reads as the value.
   */
  lemma FieldBetween(pre: string, key: string, v: string, post: string, stops: seq<string>, default: string)
    requires NewlineStops(stops) && PlainValue(v) && StopBegins(stops, post)
    requires forall q :: 0 <= q < |pre| ==> !CiOccursAt(pre + key + " " + v + post, key, q)
    ensures Field(pre + key + " " + v + post, key, stops, default) == Trim(v)
  {
    var s := pre + key + " " + v + post;
    var p := |pre|;
    assert s[p..p + |key|] == key;
    OccursAtIsCi(s, key, p);
    var e := p + |key| + 1 + |v|;
    assert s[p + |key|] == ' ';
    assert s[p + |key| + 1..e] == v;
    if post != [] {
      var j :| 0 <= j < |stops| && stops[j] <= post;
      assert s[e..e + |stops[j]|] == stops[j];
      OccursAtIsCi(s, stops[j], e);
    }
    FieldReadsValue(s, key, stops, default, p, v);
  }

  lemma StyleRead(style: string, strategy: string, reason: string)
    requires PlainValue(style)
    ensures StyleField(Analysis(style, strategy, reason)) == Trim(style)
  {
    var post := "\n" + StrategyKey + " " + strategy + "\n" + ReasonKey + " " + reason;
    assert Analysis(style, strategy, reason) == "" + StyleKey + " " + style + post;
    assert StyleStops[0] <= post;
    FieldBetween("", StyleKey, style, post, StyleStops, DefaultStyleName);
  }

  lemma StrategyRead(style: string, strategy: string, reason: string)
    requires PlainValue(style) && PlainValue(strategy)
    requires CiFree(style, StrategyKey)
    ensures StrategyField(Analysis(style, strategy, reason)) == Trim(strategy)
  {
    var pre := StyleKey + " " + style + "\n";
    var post := "\n" + ReasonKey + " " + reason;
    var s := Analysis(style, strategy, reason);
    assert s == pre + StrategyKey + " " + strategy + post;
    NoEarlierKey(StyleKey, style, StrategyKey + " " + strategy + post, StrategyKey);
    assert s == StyleKey + " " + style + "\n" + (StrategyKey + " " + strategy + post);
    assert StrategyStops[0] <= post;
    FieldBetween(pre, StrategyKey, strategy, post, StrategyStops, DefaultStrategy);
  }

  lemma ReasonRead(style: string, strategy: string, reason: string)
    requires PlainValue(style) && PlainValue(strategy) && PlainValue(reason)
    requires CiFree(style, ReasonKey) && CiFree(strategy, ReasonKey)
    ensures ReasonField(Analysis(style, strategy, reason)) == Trim(reason)
  {
    var head := StyleKey + " " + style + "\n" + StrategyKey;
    var pre := head + " " + strategy + "\n";
    var s := Analysis(style, strategy, reason);
    assert s == pre + ReasonKey + " " + reason + "";
    StyleLinesLackReason(style);
    NoEarlierKey(head, strategy, ReasonKey + " " + reason, ReasonKey);
    assert s == head + " " + strategy + "\n" + (ReasonKey + " " + reason);
    FieldBetween(pre, ReasonKey, reason, "", ReasonStops, DefaultReason);
  }
}

/**
  `extractPostText`: the text of a post is the trimmed text of its
  `dir="auto"` elements, minus the lines that are header or interface
  furniture (the author's name, a relative timestamp, a translate or
  insights label, a stock ticker, a bare count, a raw user handle), joined
  with blank lines. The DOM queries are outside the model: the author
  link's text and the elements' texts arrive as inputs.
 */
module PostText {
  import opened Results
  import opened Strings

  /** The units a header timestamp ends with, in the order the pattern lists them. */
  const TimeUnits: seq<string> := ["小時", "分鐘", "分", "秒", "天", "週", "年", "m", "h", "d", "w", "y", "s"]

  /** Interface labels that are never part of a post. */
  const UiLabels: seq<string> := ["翻譯年糕", "Translate", "View insights", "查看洞察報告"]

  /** The length of the run of ASCII capitals at the front of `s`. */
  function UpperRun(s: string): (n: nat)
    ensures n <= |s|
    ensures forall i :: 0 <= i < n ==> IsUpper(s[i])
    ensures n == |s| || !IsUpper(s[n])
  {
    if |s| > 0 && IsUpper(s[0]) then 1 + UpperRun(s[1..]) else 0
  }

  /**
    `/^\d+\s*(小時|…|s)$/`: digits, optional whitespace, then one unit and
    nothing else. The units start with neither a digit nor a space, so the
    greedy runs are the only way to match.
   */
  predicate IsTimestamp(t: string) {
    var d := DigitRun(t);
    d > 0 && t[d + LeadingSpaces(t[d..])..] in TimeUnits
  }

  /**
    `/\[[A-Z]{2,6}\s*[+\-]?\d+(\.\d+)?%\]/` matched at index `i`: a bracket,
    two to six capitals (no more, or the next part cannot start), then a
    signed percentage. Every repetition is greedy and what follows it cannot
    start with what it repeats, so the longest runs are the only match.
   */
  predicate TickerAt(s: string, i: nat) {
    i < |s| && s[i] == '[' &&
    var r := s[i + 1..];
    var u := UpperRun(r);
    2 <= u <= 6 && SignedPercent(r[u..])
  }

  /** Optional whitespace, an optional sign, digits, then a fraction or `%]`. */
  predicate SignedPercent(x: string) {
    var a := LeadingSpaces(x);
    var b := if a < |x| && (x[a] == '+' || x[a] == '-') then a + 1 else a;
    var d := DigitRun(x[b..]);
    d > 0 && FractionClose(x[b + d..])
  }

  /** An optional `.` and digits, then `%]`. */
  predicate FractionClose(y: string) {
    if |y| > 1 && y[0] == '.' && IsDigit(y[1]) then PercentClose(y[1 + DigitRun(y[1..])..])
    else PercentClose(y)
  }

  predicate PercentClose(z: string) {
    |z| >= 2 && z[0] == '%' && z[1] == ']'
  }

  /** The ticker pattern matches somewhere in `t`. */
  predicate HasTicker(t: string) {
    exists i: nat :: i < |t| && TickerAt(t, i)
  }

  /** `/^\$[A-Z]{2,6}/`: a dollar sign and at least two capitals at the start. */
  predicate IsDollarTicker(t: string) {
    |t| >= 3 && t[0] == '$' && IsUpper(t[1]) && IsUpper(t[2])
  }

  /** `/^[\d\s,.]+$/`: nothing but digits, whitespace, commas and dots. */
  predicate IsBareCount(t: string) {
    |t| > 0 && forall i :: 0 <= i < |t| ==> IsDigit(t[i]) || IsSpace(t[i]) || t[i] == ',' || t[i] == '.'
  }

  /** `/^u_[a-zA-Z0-9_.]+$/`: a raw `u_` handle and nothing else. */
  predicate IsHandle(t: string) {
    |t| > 2 && t[0] == 'u' && t[1] == '_' && forall i :: 2 <= i < |t| ==> IsWordChar(t[i]) || t[i] == '.'
  }

  /** The filter a trimmed element text must pass to count as post text. */
  predicate Keep(author: string, t: string) {
    && t != ""
    && !(author != "" && t == author)
    && !IsTimestamp(t)
    && t !in UiLabels
    && !HasTicker(t)
    && !IsDollarTicker(t)
    && !IsBareCount(t)
    && !IsHandle(t)
  }

  /** The author's name: the author link's trimmed text, or nothing without a link. */
  function AuthorName(link: Option<string>): (a: string)
    ensures Trimmed(a)
    ensures link.None? ==> a == ""
  {
    if link.Some? then Trim(link.value) else ""
  }

  /** The trimmed element texts that pass the filter, in document order. */
  function KeptLines(author: string, texts: seq<string>): (kept: seq<string>)
    ensures |kept| <= |texts|
    ensures forall k :: 0 <= k < |kept| ==> Keep(author, kept[k]) && Trimmed(kept[k])
  {
    if |texts| == 0 then []
    else
      var t := Trim(texts[0]);
      (if Keep(author, t) then [t] else []) + KeptLines(author, texts[1..])
  }

  /** Every element text that passes the filter is kept. */
  lemma {:induction false} KeptLinesComplete(author: string, texts: seq<string>, i: nat)
    requires i < |texts| && Keep(author, Trim(texts[i]))
    ensures Trim(texts[i]) in KeptLines(author, texts)
    decreases i
  {
    var t := Trim(texts[0]);
    var rest := KeptLines(author, texts[1..]);
    assert KeptLines(author, texts) == (if Keep(author, t) then [t] else []) + rest;
    if i > 0 {
      KeptLinesComplete(author, texts[1..], i - 1);
      assert texts[1..][i - 1] == texts[i];
      assert Trim(texts[i]) in rest;
    }
  }

  /** Only element texts are kept: every kept line is the trimmed text of some element. */
  lemma {:induction false} KeptLinesSound(author: string, texts: seq<string>, x: string)
    requires x in KeptLines(author, texts)
    ensures exists i :: 0 <= i < |texts| && Trim(texts[i]) == x
    decreases |texts|
  {
    var t := Trim(texts[0]);
    if !(Keep(author, t) && x == t) {
      assert x in KeptLines(author, texts[1..]);
      KeptLinesSound(author, texts[1..], x);
      var i :| 0 <= i < |texts[1..]| && Trim(texts[1..][i]) == x;
      assert texts[i + 1] == texts[1..][i];
    } else {
      assert Trim(texts[0]) == x;
    }
  }

  /**
    `extractPostText`: the kept lines joined with blank lines, trimmed. The
    lines are trimmed and non-empty, so the final trim changes nothing.
   */
  function ExtractPostText(authorLink: Option<string>, texts: seq<string>): (p: string)
    ensures p == Join(KeptLines(AuthorName(authorLink), texts), "\n\n")
  {
    var kept := KeptLines(AuthorName(authorLink), texts);
    JoinTrimmed(kept, "\n\n");
    TrimTrimmed(Join(kept, "\n\n"));
    Trim(Join(kept, "\n\n"))
  }

  /** Joining non-empty trimmed lines gives a trimmed string. */
  lemma {:induction false} JoinTrimmed(lines: seq<string>, sep: string)
    requires forall k :: 0 <= k < |lines| ==> lines[k] != "" && Trimmed(lines[k])
    ensures Trimmed(Join(lines, sep))
    ensures |lines| > 0 ==> Join(lines, sep) != "" && StartsWith(Join(lines, sep), lines[0])
    decreases |lines|
  {
    if |lines| > 1 {
      JoinTrimmed(lines[1..], sep);
      var rest := Join(lines[1..], sep);
      var j := lines[0] + sep + rest;
      assert j[..|lines[0]|] == lines[0];
      assert j[|j| - 1] == rest[|rest| - 1];
    }
  }

  /** The post text carries every element text that passes the filter, verbatim. */
  lemma PostTextCarriesKeptLines(authorLink: Option<string>, texts: seq<string>, i: nat)
    requires i < |texts| && Keep(AuthorName(authorLink), Trim(texts[i]))
    ensures Contains(ExtractPostText(authorLink, texts), Trim(texts[i]))
  {
    var kept := KeptLines(AuthorName(authorLink), texts);
    KeptLinesComplete(AuthorName(authorLink), texts, i);
    var k :| 0 <= k < |kept| && kept[k] == Trim(texts[i]);
    JoinContainsLine(kept, "\n\n", k);
  }

  // ------------------------------------------------------- what the filters catch

  /** A count, optional spaces and a unit, such as `12小時` or `3 m`, is a timestamp and is dropped. */
  lemma TimestampRecognized(author: string, count: nat, spaces: string, u: nat)
    requires forall i :: 0 <= i < |spaces| ==> spaces[i] == ' '
    requires u < |TimeUnits|
    ensures IsTimestamp(NatToDecimal(count) + spaces + TimeUnits[u])
    ensures !Keep(author, NatToDecimal(count) + spaces + TimeUnits[u])
  {
    var ds := NatToDecimal(count);
    var unit := TimeUnits[u];
    var t := ds + spaces + unit;
    UnitsStartPlain(u);
    DigitRunOf(ds, spaces + unit);
    assert t == ds + (spaces + unit);
    assert t[|ds|..] == spaces + unit;
    LeadingSpacesOf(spaces, unit);
    assert t[|ds| + |spaces|..] == unit;
  }

  /** No unit starts with a digit or a space. */
  lemma UnitsStartPlain(u: nat)
    requires u < |TimeUnits|
    ensures |TimeUnits[u]| > 0 && !IsDigit(TimeUnits[u][0]) && !IsSpace(TimeUnits[u][0])
  {
  }

  /** Bare counts, handles, dollar tickers, interface labels and the author's own name are dropped. */
  lemma FurnitureDropped()
    ensures !Keep("", "24 2") && !Keep("", "u_someone") && !Keep("", "$BTC")
    ensures !Keep("", "Translate") && !Keep("Ann", "Ann")
  {
    BareCountDropped();
    assert IsHandle("u_someone");
    assert IsDollarTicker("$BTC");
    assert "Translate" in UiLabels;
  }

  /** A line of counts and spaces is interface furniture. */
  lemma BareCountDropped()
    ensures !Keep("", "24 2")
  {
    assert IsBareCount("24 2");
  }

  /** A run of capitals followed by a non-capital is exactly that run. */
  lemma {:induction false} UpperRunOf(caps: string, rest: string)
    requires forall i :: 0 <= i < |caps| ==> IsUpper(caps[i])
    requires rest == [] || !IsUpper(rest[0])
    ensures UpperRun(caps + rest) == |caps|
    decreases |caps|
  {
    if |caps| > 0 {
      assert (caps + rest)[1..] == caps[1..] + rest;
      UpperRunOf(caps[1..], rest);
    }
  }

  /**
    A bracketed quote anywhere in a line, such as `[BABA +1.67%]`, marks it
    as a ticker line: two to six capitals, a space, a sign, digits, a
    fraction and `%]`.
   */
  lemma TickerRecognized(pre: string, caps: string, whole: string, frac: string, post: string)
    requires 2 <= |caps| <= 6 && forall i :: 0 <= i < |caps| ==> IsUpper(caps[i])
    requires whole != [] && forall i :: 0 <= i < |whole| ==> IsDigit(whole[i])
    requires frac != [] && forall i :: 0 <= i < |frac| ==> IsDigit(frac[i])
    ensures HasTicker(pre + "[" + caps + " +" + whole + "." + frac + "%]" + post)
  {
    var s := pre + "[" + caps + " +" + whole + "." + frac + "%]" + post;
    var t0 := " +" + whole + "." + frac + "%]" + post;
    var r := caps + t0;
    assert s == pre + ("[" + r);
    var i := |pre|;
    assert s[i] == '[';
    assert s[i + 1..] == r;
    UpperRunOf(caps, t0);
    assert r[|caps|..] == t0;
    SignedPercentRecognized(whole, frac, post);
    assert TickerAt(s, i);
  }

  lemma SignedPercentRecognized(whole: string, frac: string, post: string)
    requires whole != [] && forall i :: 0 <= i < |whole| ==> IsDigit(whole[i])
    requires frac != [] && forall i :: 0 <= i < |frac| ==> IsDigit(frac[i])
    ensures SignedPercent(" +" + whole + "." + frac + "%]" + post)
  {
    var rest := "." + frac + "%]" + post;
    var t2 := whole + rest;
    assert " +" + whole + "." + frac + "%]" + post == " +" + t2;
    SignedPercentAfterPlus(t2);
    DigitRunOf(whole, rest);
    assert t2[|whole|..] == rest;
    FractionRecognized(frac, post);
  }

  /** After a space and a plus sign, the number starts. */
  lemma SignedPercentAfterPlus(t: string)
    ensures SignedPercent(" +" + t) <==> DigitRun(t) > 0 && FractionClose(t[DigitRun(t)..])
  {
    var x := " +" + t;
    LeadingSpacesOf(" ", "+" + t);
    assert " " + ("+" + t) == x;
    assert x[2..] == t;
  }

  lemma FractionRecognized(frac: string, post: string)
    requires frac != [] && forall i :: 0 <= i < |frac| ==> IsDigit(frac[i])
    ensures FractionClose("." + frac + "%]" + post)
  {
    var y := "." + frac + "%]" + post;
    assert y[1..] == frac + ("%]" + post);
    DigitRunOf(frac, "%]" + post);
    assert y[1 + |frac|..] == "%]" + post;
  }

  /** Ordinary prose is kept. */
  lemma ProseKept()
    ensures Keep("Ann", "Lunch was great")
  {
    var t := "Lunch was great";
    assert DigitRun(t) == 0;
    assert !IsBareCount(t) by { assert !IsDigit(t[0]) && !IsSpace(t[0]); }
    assert !HasTicker(t) by {
      forall i: nat | i < |t|
        ensures !TickerAt(t, i)
      {
        assert t[i] != '[';
      }
    }
  }
}

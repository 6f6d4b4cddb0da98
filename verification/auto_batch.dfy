/**
  The count typed into the content script's batch field, as
  `parseInt(value, 10) || 5` reads it, and what that count does to the
  batch `handleAutoBatch` takes.
 */
module AutoBatch {
  import opened Results
  import opened Strings
  import opened BatchQueue

  // ------------------------------------------------------- parseInt

  /** The value of `parseInt`: a number, or `NaN`. */
  datatype ParsedInt = NaN | Num(n: int)

  /**
    `parseInt(s, 10)`: leading whitespace is skipped, one optional sign is
    read, then the longest run of decimal digits; without any digit the
    result is `NaN`. Anything after the digits is ignored.
   */
  function ParseInt(s: string): (r: ParsedInt)
    ensures r.Num? <==> DigitRun(s[SignEnd(s)..]) > 0
  {
    var b := SignEnd(s);
    var d := DigitRun(s[b..]);
    if d == 0 then NaN
    else
      var v: int := DecimalValue(s[b..b + d]);
      if Negative(s) then Num(-v) else Num(v)
  }

  /** The index after the leading whitespace and the optional sign. */
  function SignEnd(s: string): (b: nat)
    ensures b <= |s|
  {
    var a := LeadingSpaces(s);
    if a < |s| && (s[a] == '+' || s[a] == '-') then a + 1 else a
  }

  predicate Negative(s: string) {
    var a := LeadingSpaces(s);
    a < |s| && s[a] == '-'
  }

  /** Spaces, an optional minus, a number in decimal and any non-digit tail parse as the signed number. */
  lemma ParseIntReads(spaces: string, negative: bool, n: nat, tail: string)
    requires forall i :: 0 <= i < |spaces| ==> spaces[i] == ' '
    requires tail == [] || !IsDigit(tail[0])
    ensures ParseInt(spaces + (if negative then "-" else "") + NatToDecimal(n) + tail)
            == Num(if negative then -(n as int) else n)
  {
    ParseIntReadsDigits(spaces + (if negative then "-" else "") + NatToDecimal(n) + tail,
                        spaces, negative, NatToDecimal(n), tail);
    DecimalRoundTrip(n);
  }

  lemma ParseIntReadsDigits(s: string, spaces: string, negative: bool, ds: string, tail: string)
    requires forall i :: 0 <= i < |spaces| ==> spaces[i] == ' '
    requires ds != [] && forall i :: 0 <= i < |ds| ==> IsDigit(ds[i])
    requires tail == [] || !IsDigit(tail[0])
    requires s == spaces + (if negative then "-" else "") + ds + tail
    ensures ParseInt(s) == Num(if negative then -(DecimalValue(ds) as int) else DecimalValue(ds))
  {
    var b := |spaces| + (if negative then 1 else 0);
    SignEndIn(s, spaces, negative, ds, tail);
    DigitsAt(s, b, ds, tail);
    ParseIntOf(s, b, |ds|);
  }

  /** `SignEndOf`, for a text given whole. */
  lemma SignEndIn(s: string, spaces: string, negative: bool, ds: string, tail: string)
    requires forall i :: 0 <= i < |spaces| ==> spaces[i] == ' '
    requires ds != [] && IsDigit(ds[0])
    requires s == spaces + (if negative then "-" else "") + ds + tail
    ensures SignEnd(s) == |spaces| + (if negative then 1 else 0) && (Negative(s) <==> negative)
    ensures s[|spaces| + (if negative then 1 else 0)..] == ds + tail
  {
    var body := ds + tail;
    assert body[0] == ds[0];
    if negative {
      assert s == (spaces + "-") + body;
      assert s[|spaces| + 1..] == body;
    } else {
      assert s == spaces + body;
      assert s[|spaces|..] == body;
    }
    SignEndOf(spaces, negative, body);
  }

  /** Digits followed by a non-digit at `b` are the digit run there. */
  lemma DigitsAt(s: string, b: nat, ds: string, tail: string)
    requires forall i :: 0 <= i < |ds| ==> IsDigit(ds[i])
    requires tail == [] || !IsDigit(tail[0])
    requires b <= |s| && s[b..] == ds + tail
    ensures b + |ds| <= |s| && DigitRun(s[b..]) == |ds| && s[b..b + |ds|] == ds
  {
    DigitRunOf(ds, tail);
    assert s[b..b + |ds|] == (ds + tail)[..|ds|];
  }

  /** A number of `d` digits after the sign is read as their decimal value, negated after a minus. */
  lemma ParseIntOf(s: string, b: nat, d: nat)
    requires b == SignEnd(s) && b + d <= |s| && d > 0 && DigitRun(s[b..]) == d
    ensures ParseInt(s) == Num(if Negative(s) then -(DecimalValue(s[b..b + d]) as int) else DecimalValue(s[b..b + d]))
  {
  }

  /** After spaces and an optional minus, a digit starts the number. */
  lemma SignEndOf(spaces: string, negative: bool, body: string)
    requires forall i :: 0 <= i < |spaces| ==> spaces[i] == ' '
    requires body != [] && IsDigit(body[0])
    ensures var s := spaces + (if negative then "-" else "") + body;
            SignEnd(s) == |spaces| + (if negative then 1 else 0) && (Negative(s) <==> negative)
  {
    var sign := if negative then "-" else "";
    var rest := sign + body;
    var s := spaces + rest;
    assert spaces + sign + body == s;
    LeadingSpacesOf(spaces, rest);
    assert s[|spaces|] == rest[0];
  }

  /** A field that does not start with a number (possibly after spaces and a sign) parses as `NaN`. */
  lemma ParseIntNaN(s: string)
    requires forall i :: 0 <= i < |s| ==> !IsDigit(s[i])
    ensures ParseInt(s) == NaN
  {
    var b := SignEnd(s);
    if |s[b..]| > 0 {
      assert s[b..][0] == s[b];
    }
  }

  // ------------------------------------------------------- the batch count

  /** The batch field's default when it holds no usable number. */
  const DefaultBatchCount := 5

  /**
    `parseInt(countInput.value, 10) || 5`: the parsed number, or 5 when it is
    `NaN` or zero (both falsy). Nothing bounds it: the field's `min` and
    `max` attributes do not stop a typed value.
   */
  function BatchCount(value: string): (c: int)
    ensures c != 0
    ensures ParseInt(value).Num? && ParseInt(value).n != 0 ==> c == ParseInt(value).n
    ensures ParseInt(value).NaN? || ParseInt(value).n == 0 ==> c == DefaultBatchCount
  {
    match ParseInt(value)
    case NaN => DefaultBatchCount
    case Num(n) => if n == 0 then DefaultBatchCount else n
  }

  /** A typed positive count is used as typed; an empty field or zero falls back to 5. */
  lemma BatchCountReadsField(n: nat)
    ensures n > 0 ==> BatchCount(NatToDecimal(n)) == n
    ensures BatchCount("") == DefaultBatchCount
    ensures BatchCount(NatToDecimal(0)) == DefaultBatchCount
  {
    ParseIntReads("", false, n, "");
    assert "" + "" + NatToDecimal(n) + "" == NatToDecimal(n);
    ParseIntReads("", false, 0, "");
    assert "" + "" + NatToDecimal(0) + "" == NatToDecimal(0);
    ParseIntNaN("");
  }

  /** A typed negative count is used as typed too. */
  lemma BatchCountNegative(n: nat)
    requires n > 0
    ensures BatchCount("-" + NatToDecimal(n)) == -(n as int)
  {
    ParseIntReads("", true, n, "");
    assert "" + "-" + NatToDecimal(n) + "" == "-" + NatToDecimal(n);
  }

  /** Ten posts on the page, for the counterexamples below. */
  const TenPosts: seq<int> := [0, 1, 2, 3, 4, 5, 6, 7, 8, 9]

  /**
    The batch count as written: a typed `-2` with the first of ten posts
    selected gives `slice(1, -1)`, which runs to the second-to-last post:
    eight posts are processed for a count of minus two.
   */
  lemma NegativeCountOverruns()
    ensures BatchCount("-2") == -2
    ensures BatchTargets(Some(0), TenPosts, BatchCount("-2")) == Process(TenPosts[1..9])
    ensures |TenPosts[1..9]| == 8
  {
    BatchCountNegative(2);
    assert "-" + NatToDecimal(2) == "-2";
  }

  /** The batch count as written: a typed count above the field's maximum of 20 is not capped. */
  lemma OversizedCountNotCapped<T>(current: T, allPosts: seq<T>, n: nat)
    requires current in allPosts && n > 20
    requires ArrayIndexOf(allPosts, current) + 1 + n <= |allPosts|
    ensures |BatchTargets(Some(current), allPosts, BatchCount(NatToDecimal(n))).targets| == n
  {
    BatchCountReadsField(n);
    BatchTakesNextPosts(current, allPosts, n, ArrayIndexOf(allPosts, current));
  }

  /** The field's bounds, from its `min` and `max` attributes. */
  const MinBatch := 1
  const MaxBatch := 20

  /** The batch count kept inside the field's bounds. */
  function ClampedCount(value: string): (c: int)
    ensures MinBatch <= c <= MaxBatch
    ensures MinBatch <= BatchCount(value) <= MaxBatch ==> c == BatchCount(value)
  {
    var c := BatchCount(value);
    if c < MinBatch then MinBatch else if c > MaxBatch then MaxBatch else c
  }

  /**
    The batch with its count kept inside the field's bounds: between one and
    twenty posts, all directly after the selected one.
   */
  function ClampedTargets<T(==)>(current: Option<T>, allPosts: seq<T>, value: string): (r: BatchOutcome<T>)
    ensures current.None? <==> r == Refused(NoSelection)
    ensures current.Some? && current.value !in allPosts <==> r == Refused(ContextLost)
    ensures r.Process? ==> current.Some? && current.value in allPosts
    ensures r.Process? ==> MinBatch <= |r.targets| <= MaxBatch
                           && RightAfter(allPosts, ArrayIndexOf(allPosts, current.value), r.targets)
  {
    var r := BatchTargets(current, allPosts, ClampedCount(value));
    if r.Process? then
      BatchWithinCount(current.value, allPosts, ClampedCount(value));
      r
    else r
  }
}

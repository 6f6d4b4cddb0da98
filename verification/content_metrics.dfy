/**
  The post metrics the content script computes before it decides whether to
  mark a post: the like-count band a post falls into, the like count read
  from the like button's label, the early-viral test and the hourly growth.
  Times reach the model as exact elapsed minutes or hours; reading the
  clock and the post's timestamp is outside it.
 */
module ContentMetrics {
  import opened Results
  import opened Strings

  // ------------------------------------------------------- thresholds

  /** A like-count band; only its bounds matter here. */
  datatype LikeThreshold = LikeThreshold(min: int, max: int)

  predicate Holds(t: LikeThreshold, likes: int) {
    t.min <= likes <= t.max
  }

  /** The index of the first band from `from` on that holds `likes`. */
  function FirstHolding(ts: seq<LikeThreshold>, likes: int, from: nat): (r: Option<nat>)
    requires from <= |ts|
    ensures r.Some? ==> from <= r.value < |ts| && Holds(ts[r.value], likes)
    ensures r.Some? ==> forall j :: from <= j < r.value ==> !Holds(ts[j], likes)
    ensures r.None? ==> forall j :: from <= j < |ts| ==> !Holds(ts[j], likes)
    decreases |ts| - from
  {
    if from == |ts| then None
    else if Holds(ts[from], likes) then Some(from)
    else FirstHolding(ts, likes, from + 1)
  }

  /** `getThresholdForLikes`: the first band, in list order, whose bounds include `likes`. */
  function ThresholdFor(ts: seq<LikeThreshold>, likes: int): (r: Option<LikeThreshold>)
    ensures r.None? <==> forall j :: 0 <= j < |ts| ==> !Holds(ts[j], likes)
    ensures r.Some? ==> exists i :: 0 <= i < |ts| && ts[i] == r.value && Holds(ts[i], likes)
                                    && forall j :: 0 <= j < i ==> !Holds(ts[j], likes)
  {
    match FirstHolding(ts, likes, 0)
    case None => None
    case Some(i) => Some(ts[i])
  }

  /** No two bands share a count. */
  predicate Disjoint(ts: seq<LikeThreshold>) {
    forall i, j :: 0 <= i < j < |ts| ==> ts[i].max < ts[j].min || ts[j].max < ts[i].min
  }

  /** With disjoint bands the order does not matter: the answer is the one band holding the count. */
  lemma DisjointBandIsFound(ts: seq<LikeThreshold>, likes: int, i: nat)
    requires Disjoint(ts) && i < |ts| && Holds(ts[i], likes)
    ensures ThresholdFor(ts, likes) == Some(ts[i])
  {
    var k := FirstHolding(ts, likes, 0).value;
    if k < i {
      assert false;
    }
  }

  // ------------------------------------------------------- like count

  /** `text.replace(/\D/g, "")`: the decimal digits of `s`, in order. */
  function DigitsOf(s: string): (ds: string)
    ensures |ds| <= |s|
    ensures forall i :: 0 <= i < |ds| ==> IsDigit(ds[i])
  {
    if |s| == 0 then ""
    else DigitsOf(s[..|s| - 1]) + (if IsDigit(s[|s| - 1]) then [s[|s| - 1]] else "")
  }

  /** Keeping the digits of a concatenation keeps the digits of each side. */
  lemma {:induction false} DigitsOfAppend(a: string, b: string)
    ensures DigitsOf(a + b) == DigitsOf(a) + DigitsOf(b)
    decreases |b|
  {
    if |b| == 0 {
      assert a + b == a;
    } else {
      var b' := b[..|b| - 1];
      assert (a + b)[..|a + b| - 1] == a + b';
      DigitsOfAppend(a, b');
    }
  }

  /** A string of digits keeps all of them. */
  lemma {:induction false} DigitsOfDigits(s: string)
    requires forall i :: 0 <= i < |s| ==> IsDigit(s[i])
    ensures DigitsOf(s) == s
    decreases |s|
  {
    if |s| > 0 {
      DigitsOfDigits(s[..|s| - 1]);
    }
  }

  /** A string without digits keeps nothing. */
  lemma {:induction false} DigitsOfNone(s: string)
    requires forall i :: 0 <= i < |s| ==> !IsDigit(s[i])
    ensures DigitsOf(s) == ""
    decreases |s|
  {
    if |s| > 0 {
      DigitsOfNone(s[..|s| - 1]);
    }
  }

  /**
    The like count of a post: `None` when no like button with a count was
    found, else the count label's text. An empty label reads as `"0"`; the
    count is the number all the label's digits spell together, 0 without
    any (`parseInt` of an empty string is `NaN`, which `|| 0` turns into 0).
   */
  function LikeCount(text: Option<string>): (n: nat)
    ensures text.None? ==> n == 0
    ensures text.Some? && text.value != "" ==> n == DecimalValue(DigitsOf(text.value))
    ensures text == Some("") ==> n == 0
  {
    match text
    case None => 0
    case Some(s) =>
      var t := if s == "" then "0" else s;
      assert DigitsOf("0") == "0";
      DecimalValue(DigitsOf(t))
  }

  /** A count rendered in decimal reads back as itself, whatever non-digit text follows it. */
  lemma LikeCountReadsDecimal(n: nat, suffix: string)
    requires forall i :: 0 <= i < |suffix| ==> !IsDigit(suffix[i])
    ensures LikeCount(Some(NatToDecimal(n) + suffix)) == n
  {
    DigitsOfAppend(NatToDecimal(n), suffix);
    DigitsOfDigits(NatToDecimal(n));
    DigitsOfNone(suffix);
    assert NatToDecimal(n) + "" == NatToDecimal(n);
    DecimalRoundTrip(n);
  }

  function Pow10(k: nat): (p: nat)
    ensures p >= 1
  {
    if k == 0 then 1 else 10 * Pow10(k - 1)
  }

  /** Reading digits after digits shifts the first number left by the length of the second. */
  lemma {:induction false} DecimalValueAppend(x: string, y: string)
    requires forall i :: 0 <= i < |x| ==> IsDigit(x[i])
    requires forall i :: 0 <= i < |y| ==> IsDigit(y[i])
    ensures DecimalValue(x + y) == DecimalValue(x) * Pow10(|y|) + DecimalValue(y)
    decreases |y|
  {
    if |y| == 0 {
      assert x + y == x;
    } else {
      var y' := y[..|y| - 1];
      var d := DigitValue(y[|y| - 1]);
      var v := DecimalValue(x);
      var p := Pow10(|y'|);
      assert (x + y)[..|x + y| - 1] == x + y';
      assert (x + y)[|x + y| - 1] == y[|y| - 1];
      assert DecimalValue(x + y) == 10 * DecimalValue(x + y') + d;
      assert DecimalValue(y) == 10 * DecimalValue(y') + d;
      DecimalValueAppend(x, y');
      assert DecimalValue(x + y') == v * p + DecimalValue(y');
      assert Pow10(|y|) == 10 * p;
      ShiftByTen(v, p, DecimalValue(y'));
    }
  }

  /** One more digit multiplies the shifted number by ten. */
  lemma ShiftByTen(v: int, p: int, w: int)
    ensures 10 * (v * p + w) == v * (10 * p) + 10 * w
  {
  }

  /**
    Separators between digit groups are skipped and so is trailing text:
    the digits on both sides are read as one number.
   */
  lemma SeparatedDigits(x: string, sep: string, y: string, suffix: string)
    requires x != []
    requires forall i :: 0 <= i < |x| ==> IsDigit(x[i])
    requires forall i :: 0 <= i < |y| ==> IsDigit(y[i])
    requires forall i :: 0 <= i < |sep| ==> !IsDigit(sep[i])
    requires forall i :: 0 <= i < |suffix| ==> !IsDigit(suffix[i])
    ensures LikeCount(Some(x + sep + y + suffix)) == DecimalValue(x) * Pow10(|y|) + DecimalValue(y)
  {
    SeparatedDigitsKept(x, sep, y, suffix);
    DecimalValueAppend(x, y);
  }

  lemma SeparatedDigitsKept(x: string, sep: string, y: string, suffix: string)
    requires forall i :: 0 <= i < |x| ==> IsDigit(x[i])
    requires forall i :: 0 <= i < |y| ==> IsDigit(y[i])
    requires forall i :: 0 <= i < |sep| ==> !IsDigit(sep[i])
    requires forall i :: 0 <= i < |suffix| ==> !IsDigit(suffix[i])
    ensures DigitsOf(x + sep + y + suffix) == x + y
  {
    DigitsOfAppend(x + sep + y, suffix);
    DigitsOfNone(suffix);
    assert DigitsOf(x + sep + y + suffix) == DigitsOf(x + sep + y);
    DigitsOfAppend(x + sep, y);
    DigitsOfDigits(y);
    DigitsOfAppend(x, sep);
    DigitsOfNone(sep);
    DigitsOfDigits(x);
    assert DigitsOf(x + sep) == x;
  }

  /** Grouping separators are skipped: `1,234` reads as 1234. */
  lemma GroupedCount(a: nat, group: string)
    requires |group| == 3 && forall i :: 0 <= i < 3 ==> IsDigit(group[i])
    ensures LikeCount(Some(NatToDecimal(a) + "," + group)) == 1000 * a + DecimalValue(group)
  {
    assert NatToDecimal(a) + "," + group + "" == NatToDecimal(a) + "," + group;
    SeparatedDigits(NatToDecimal(a), ",", group, "");
    DecimalRoundTrip(a);
    assert Pow10(3) == 1000;
  }

  /** Abbreviated counts are misread: `1.2萬` (twelve thousand) reads as 12. */
  lemma AbbreviatedCount(a: nat, d: char)
    requires IsDigit(d)
    ensures LikeCount(Some(NatToDecimal(a) + "." + [d] + "萬")) == 10 * a + DigitValue(d)
  {
    SeparatedDigits(NatToDecimal(a), ".", [d], "萬");
    DecimalRoundTrip(a);
    assert [d][..0] == [];
  }

  // ------------------------------------------------------- viral test and growth

  /**
    `checkViralPotential`, given the like count and the minutes since the
    post was made (`None` when it carries no timestamp): a young post, 3 to
    60 minutes old with fewer than 100 likes, gaining at least 60 likes an
    hour.
   */
  function ViralPotential(likes: nat, minutes: Option<real>): (v: bool)
    ensures v ==> minutes.Some? && likes < 100 && 3.0 <= minutes.value <= 60.0
    ensures v ==> likes > 0
  {
    if minutes.None? || likes >= 100 then false
    else if minutes.value < 3.0 || minutes.value > 60.0 then false
    else (likes as real) / (minutes.value / 60.0) >= 60.0
  }

  /** Sixty likes an hour is one like a minute: the test is `likes >= minutes` inside the window. */
  lemma ViralMeansOneLikePerMinute(likes: nat, minutes: Option<real>)
    ensures ViralPotential(likes, minutes) <==>
              minutes.Some? && likes < 100 && 3.0 <= minutes.value <= 60.0 && likes as real >= minutes.value
  {
    if minutes.Some? && likes < 100 && 3.0 <= minutes.value <= 60.0 {
      RateAtLeastSixty(likes as real, minutes.value);
    }
  }

  /** Over a positive number of minutes, at least sixty an hour is at least one a minute. */
  lemma RateAtLeastSixty(l: real, m: real)
    requires m > 0.0
    ensures l / (m / 60.0) >= 60.0 <==> l >= m
  {
    var rate := l / (m / 60.0);
    assert rate * m == 60.0 * l;
    assert rate >= 60.0 <==> rate * m >= 60.0 * m;
  }

  /** What `calculateHourlyGrowth` shows: nothing, "more than a day", or a whole number of likes an hour. */
  datatype Growth = NoGrowth | OverADay | PerHour(rate: int)

  /** `Math.round`: the nearest integer, halves rounded up. */
  function Round(x: real): (r: int)
    ensures r as real - 0.5 <= x < r as real + 0.5
  {
    (x + 0.5).Floor
  }

  /**
    `calculateHourlyGrowth`, given the like count and the hours since the post
    was made: nothing without a timestamp, without likes or under half an
    hour; "more than a day" past 24 hours; otherwise likes per hour rounded.
   */
  function HourlyGrowth(likes: nat, hours: Option<real>): (g: Growth)
    ensures g.PerHour? ==> hours.Some? && 0.5 <= hours.value <= 24.0 && likes > 0
    ensures g.PerHour? ==> g.rate as real - 0.5 <= likes as real / hours.value < g.rate as real + 0.5
    ensures g == OverADay <==> hours.Some? && likes > 0 && hours.value > 24.0
    ensures g == NoGrowth <==> hours.None? || likes == 0 || hours.value < 0.5
  {
    if hours.None? || likes == 0 then NoGrowth
    else if hours.value < 0.5 then NoGrowth
    else if hours.value > 24.0 then OverADay
    else PerHour(Round(likes as real / hours.value))
  }

  /** A shown rate lies between the likes spread over a day and twice the likes. */
  lemma GrowthRateBounds(likes: nat, hours: Option<real>)
    requires HourlyGrowth(likes, hours).PerHour?
    ensures var r := HourlyGrowth(likes, hours).rate; 0 <= r <= 2 * likes
  {
    var h := hours.value;
    var x := likes as real / h;
    assert x * h == likes as real;
    assert x >= 0.0;
    MulNonnegative(x, h - 0.5);
    assert x * h == x * (h - 0.5) + x * 0.5;
    assert x <= 2.0 * likes as real;
  }

  lemma MulNonnegative(a: real, b: real)
    requires a >= 0.0 && b >= 0.0
    ensures a * b >= 0.0
  {
  }
}

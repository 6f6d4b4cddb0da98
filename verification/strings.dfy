/**
  The JavaScript string operations the extension relies on, over Dafny strings
  (sequences of Unicode scalar values): the `\s` character class and `trim`,
  `includes`/`startsWith`/`indexOf`, replacing the first occurrence of a plain
  string, `join`, and the ASCII case folding a non-Unicode `/i` regular
  expression performs.
 */
module Strings {
  import opened Results

  /** The characters `.` in a JavaScript regular expression refuses, and where `$` with the `m` flag matches. */
  predicate IsLineTerminator(c: char) {
    c == '\n' || c == '\r' || c == '\U{2028}' || c == '\U{2029}'
  }

  /** JavaScript's WhiteSpace and LineTerminator code points: what `\s` matches and what `trim` removes. */
  predicate IsSpace(c: char) {
    || c == '\t' || c == '\U{000B}' || c == '\U{000C}' || c == ' ' || c == '\U{00A0}'
    || c == '\U{1680}' || ('\U{2000}' <= c <= '\U{200A}') || c == '\U{202F}'
    || c == '\U{205F}' || c == '\U{3000}' || c == '\U{FEFF}'
    || IsLineTerminator(c)
  }

  predicate IsDigit(c: char) {
    '0' <= c <= '9'
  }

  /** A CJK unified ideograph: no space, no line terminator, no ASCII letter. */
  predicate IsIdeograph(c: char) {
    '\U{4E00}' <= c <= '\U{9FFF}'
  }

  predicate IsUpper(c: char) {
    'A' <= c <= 'Z'
  }

  predicate IsLower(c: char) {
    'a' <= c <= 'z'
  }

  /** `\w`: ASCII letters, digits and the underscore. */
  predicate IsWordChar(c: char) {
    IsDigit(c) || IsUpper(c) || IsLower(c) || c == '_'
  }

  /** True when no character of `s` is a space. */
  predicate NoSpaces(s: string) {
    forall i :: 0 <= i < |s| ==> !IsSpace(s[i])
  }

  // ---------------------------------------------------------------- trim

  /** The number of spaces `trimStart` removes. */
  function LeadingSpaces(s: string): (n: nat)
    ensures n <= |s|
    ensures forall i :: 0 <= i < n ==> IsSpace(s[i])
    ensures n == |s| || !IsSpace(s[n])
  {
    if |s| > 0 && IsSpace(s[0]) then 1 + LeadingSpaces(s[1..]) else 0
  }

  /** The number of spaces `trimEnd` removes. */
  function TrailingSpaces(s: string): (n: nat)
    ensures n <= |s|
    ensures forall i :: |s| - n <= i < |s| ==> IsSpace(s[i])
    ensures n == |s| || !IsSpace(s[|s| - n - 1])
  {
    if |s| > 0 && IsSpace(s[|s| - 1]) then 1 + TrailingSpaces(s[..|s| - 1]) else 0
  }

  /** True when `s` neither starts nor ends with a space: what `trim` leaves behind. */
  predicate Trimmed(s: string) {
    s == [] || (!IsSpace(s[0]) && !IsSpace(s[|s| - 1]))
  }

  /** `s.trim()`: `s` with its leading and trailing spaces removed; only spaces are removed. */
  function Trim(s: string): (r: string)
    ensures Trimmed(r)
    ensures |r| <= |s|
    ensures LeadingSpaces(s) + |r| <= |s| && r == s[LeadingSpaces(s)..LeadingSpaces(s) + |r|]
    ensures forall i :: LeadingSpaces(s) + |r| <= i < |s| ==> IsSpace(s[i])
  {
    var a := LeadingSpaces(s);
    var e := |s| - TrailingSpaces(s[a..]);
    TrailingSpacesAfter(s, a);
    s[a..e]
  }

  /** The trailing spaces of a suffix, counted in the whole string. */
  lemma TrailingSpacesAfter(s: string, a: nat)
    requires a <= |s|
    ensures var e := |s| - TrailingSpaces(s[a..]);
            a <= e && (forall i :: e <= i < |s| ==> IsSpace(s[i])) && (e == a || !IsSpace(s[e - 1]))
  {
    var t := s[a..];
    assert forall i :: a <= i < |s| ==> s[i] == t[i - a];
  }

  /** `trim` leaves an already trimmed string alone. */
  lemma TrimTrimmed(s: string)
    requires Trimmed(s)
    ensures Trim(s) == s
  {
    assert LeadingSpaces(s) == 0;
    assert TrailingSpaces(s) == 0;
  }

  /** A string made only of spaces trims to the empty string. */
  lemma TrimAllSpaces(s: string)
    requires forall i :: 0 <= i < |s| ==> IsSpace(s[i])
    ensures Trim(s) == ""
  {
    assert LeadingSpaces(s) == |s|;
  }

  /** A string whose first character is not a space and that has no trailing spaces is its own trim. */
  lemma TrimAfterTrimmedPrefix(a: string, b: string)
    requires Trimmed(a) && a != []
    requires Trimmed(b) && b != []
    ensures Trimmed(a + b)
  {
  }

  // ------------------------------------------------------- search

  predicate StartsWith(s: string, prefix: string) {
    |prefix| <= |s| && s[..|prefix|] == prefix
  }

  predicate EndsWith(s: string, suffix: string) {
    |suffix| <= |s| && s[|s| - |suffix|..] == suffix
  }

  /** `sub` occurs in `s` starting at index `i`. */
  predicate OccursAt(s: string, sub: string, i: int) {
    0 <= i && i + |sub| <= |s| && s[i..i + |sub|] == sub
  }

  /** `s.includes(sub)`. */
  predicate Contains(s: string, sub: string) {
    exists i :: 0 <= i <= |s| - |sub| && OccursAt(s, sub, i)
  }

  /** `s.indexOf(sub, from)`, with `None` for JavaScript's -1. */
  function IndexOfFrom(s: string, sub: string, from: nat): (r: Option<nat>)
    ensures r.Some? ==> from <= r.value && OccursAt(s, sub, r.value)
    ensures r.Some? ==> forall j :: from <= j < r.value ==> !OccursAt(s, sub, j)
    ensures r.None? ==> forall j :: from <= j ==> !OccursAt(s, sub, j)
    decreases |s| - from
  {
    if from + |sub| > |s| then None
    else if s[from..from + |sub|] == sub then Some(from)
    else IndexOfFrom(s, sub, from + 1)
  }

  /** `s.indexOf(sub)`: the first occurrence of `sub`. */
  function IndexOf(s: string, sub: string): (r: Option<nat>)
    ensures r.Some? <==> Contains(s, sub)
    ensures r.Some? ==> OccursAt(s, sub, r.value) && forall j :: 0 <= j < r.value ==> !OccursAt(s, sub, j)
  {
    IndexOfFrom(s, sub, 0)
  }

  /** `s.replace(pattern, replacement)` with a string pattern: only the first occurrence is replaced. */
  function ReplaceFirst(s: string, pattern: string, replacement: string): (r: string)
    ensures !Contains(s, pattern) ==> r == s
    ensures Contains(s, pattern) ==>
      var i := IndexOf(s, pattern).value;
      r == s[..i] + replacement + s[i + |pattern|..]
  {
    match IndexOf(s, pattern)
    case None => s
    case Some(i) => s[..i] + replacement + s[i + |pattern|..]
  }

  /** `x` occurs in `a + x + b` right after `a`. */
  lemma ContainsMiddle(a: string, x: string, b: string)
    ensures OccursAt(a + x + b, x, |a|)
    ensures Contains(a + x + b, x)
  {
    assert (a + x + b)[|a|..|a| + |x|] == x;
    assert 0 <= |a| <= |a + x + b| - |x| && OccursAt(a + x + b, x, |a|);
  }

  /** An occurrence inside a part of a concatenation is an occurrence in the whole. */
  lemma ContainsInPrefix(s: string, t: string, x: string)
    requires Contains(s, x)
    ensures Contains(s + t, x)
  {
    var i :| 0 <= i <= |s| - |x| && OccursAt(s, x, i);
    assert (s + t)[i..i + |x|] == s[i..i + |x|];
    assert OccursAt(s + t, x, i);
  }

  lemma ContainsInSuffix(s: string, t: string, x: string)
    requires Contains(t, x)
    ensures Contains(s + t, x)
  {
    var i :| 0 <= i <= |t| - |x| && OccursAt(t, x, i);
    assert (s + t)[|s| + i..|s| + i + |x|] == t[i..i + |x|];
    assert OccursAt(s + t, x, |s| + i);
  }

  /**
    When the last character of `a` does not occur in `sub`, no occurrence of
    `sub` in `a + b` can straddle the join: it lies inside `a` or inside `b`.
   */
  lemma SplitContains(a: string, b: string, sub: string)
    requires |a| > 0 && a[|a| - 1] !in sub
    requires Contains(a + b, sub)
    ensures Contains(a, sub) || Contains(b, sub)
  {
    var s := a + b;
    var i :| 0 <= i <= |s| - |sub| && OccursAt(s, sub, i);
    if i + |sub| <= |a| {
      assert a[i..i + |sub|] == s[i..i + |sub|];
      assert OccursAt(a, sub, i);
    } else if i >= |a| {
      assert b[i - |a|..i - |a| + |sub|] == s[i..i + |sub|];
      assert OccursAt(b, sub, i - |a|);
    } else {
      StraddleHasLast(a, b, sub, i);
      assert false;
    }
  }

  lemma StartsWithContains(s: string, prefix: string)
    requires StartsWith(s, prefix)
    ensures Contains(s, prefix)
  {
    assert OccursAt(s, prefix, 0);
  }

  lemma EndsWithContains(s: string, suffix: string)
    requires EndsWith(s, suffix)
    ensures Contains(s, suffix)
  {
    assert OccursAt(s, suffix, |s| - |suffix|);
  }

  lemma StartsWithTrans(s: string, t: string, u: string)
    requires StartsWith(s, t) && StartsWith(t, u)
    ensures StartsWith(s, u)
  {
    assert s[..|u|] == s[..|t|][..|u|];
  }

  lemma EndsWithTrans(s: string, t: string, u: string)
    requires EndsWith(s, t) && EndsWith(t, u)
    ensures EndsWith(s, u)
  {
    assert s[|s| - |u|..] == s[|s| - |t|..][|t| - |u|..];
  }

  /** An occurrence of `sub` that straddles the end of `a` includes the last character of `a`. */
  lemma StraddleHasLast(a: string, b: string, sub: string, i: nat)
    requires i < |a| < i + |sub| <= |a + b| && OccursAt(a + b, sub, i)
    ensures a[|a| - 1] in sub
  {
    assert sub[|a| - 1 - i] == (a + b)[i..i + |sub|][|a| - 1 - i];
  }

  /** An occurrence of an occurrence is an occurrence. */
  lemma ContainsTrans(s: string, t: string, u: string)
    requires Contains(s, t) && Contains(t, u)
    ensures Contains(s, u)
  {
    var i :| 0 <= i <= |s| - |t| && OccursAt(s, t, i);
    var j :| 0 <= j <= |t| - |u| && OccursAt(t, u, j);
    forall k | 0 <= k < |u|
      ensures s[i + j + k] == u[k]
    {
      assert u[k] == t[j..j + |u|][k] == t[j + k];
      assert t[j + k] == s[i..i + |t|][j + k];
    }
    assert s[i + j..i + j + |u|] == u;
    assert OccursAt(s, u, i + j);
  }

  /** Every string contains itself. */
  lemma ContainsSelf(s: string)
    ensures Contains(s, s)
  {
    assert OccursAt(s, s, 0);
  }

  // ------------------------------------------------------- concatenation of many parts

  /** `parts.join('')`: the parts one after another. */
  function Concat(parts: seq<string>): string {
    if |parts| == 0 then "" else parts[0] + Concat(parts[1..])
  }

  lemma {:induction false} ConcatSplit(parts: seq<string>, i: nat)
    requires i < |parts|
    ensures Concat(parts) == Concat(parts[..i]) + parts[i] + Concat(parts[i + 1..])
    decreases i
  {
    if i > 0 {
      ConcatSplit(parts[1..], i - 1);
      TailSlices(parts, i);
      assert Concat(parts[..i]) == parts[0] + Concat(parts[1..i]);
    } else {
      assert parts[..0] == [];
    }
  }

  /** Slicing the tail of a sequence is slicing the sequence one further on. */
  lemma TailSlices<T>(s: seq<T>, i: nat)
    requires 0 < i < |s|
    ensures s[1..][..i - 1] == s[1..i] && s[1..][i - 1 + 1..] == s[i + 1..]
    ensures s[..i] == [s[0]] + s[1..i] && s[..i][1..] == s[1..i]
  {
  }

  /** Every part occurs in the concatenation. */
  lemma ConcatContainsPart(parts: seq<string>, i: nat)
    requires i < |parts|
    ensures Contains(Concat(parts), parts[i])
  {
    ConcatSplit(parts, i);
    ContainsMiddle(Concat(parts[..i]), parts[i], Concat(parts[i + 1..]));
  }

  lemma {:induction false} ConcatAppend(a: seq<string>, b: seq<string>)
    ensures Concat(a + b) == Concat(a) + Concat(b)
    decreases |a|
  {
    if |a| == 0 {
      assert a + b == b;
    } else {
      ConcatAppend(a[1..], b);
      assert (a + b)[1..] == a[1..] + b;
    }
  }

  /** A run of consecutive parts occurs, joined, in the concatenation. */
  lemma ConcatContainsRun(parts: seq<string>, i: nat, j: nat)
    requires i <= j <= |parts|
    ensures Contains(Concat(parts), Concat(parts[i..j]))
  {
    var front, run, back := parts[..i], parts[i..j], parts[j..];
    assert Concat(parts) == Concat(front) + Concat(run) + Concat(back) by {
      SplitParts(parts, i, j);
      ConcatAppend(front + run, back);
      ConcatAppend(front, run);
    }
    ContainsMiddle(Concat(front), Concat(run), Concat(back));
  }

  /** Cutting a sequence twice and gluing the three pieces gives it back. */
  lemma SplitParts<T>(parts: seq<T>, i: nat, j: nat)
    requires i <= j <= |parts|
    ensures parts == (parts[..i] + parts[i..j]) + parts[j..]
  {
    var head := parts[..i] + parts[i..j];
    forall k | 0 <= k < j
      ensures head[k] == parts[k]
    {
      if k < i {
        assert head[k] == parts[..i][k];
      } else {
        assert head[k] == parts[i..j][k - i];
      }
    }
    assert head == parts[..j];
  }

  lemma ConcatPair(a: string, b: string)
    ensures Concat([a, b]) == a + b
  {
    assert [a, b][1..] == [b];
    assert Concat([b]) == b + Concat([]);
  }

  lemma ConcatTriple(a: string, b: string, c: string)
    ensures Concat([a, b, c]) == a + b + c
  {
    assert [a, b, c][1..] == [b, c];
    ConcatPair(b, c);
  }

  lemma ConcatQuad(a: string, b: string, c: string, d: string)
    ensures Concat([a, b, c, d]) == a + b + c + d
  {
    assert [a, b, c, d][1..] == [b, c, d];
    ConcatTriple(b, c, d);
  }

  /** The last character of a string is the last character of any suffix it ends with. */
  lemma EndsWithLast(s: string, t: string)
    requires EndsWith(s, t) && |t| > 0
    ensures s[|s| - 1] == t[|t| - 1]
  {
    assert s[|s| - |t|..][|t| - 1] == s[|s| - 1];
  }

  /** The concatenation starts with its first part. */
  lemma ConcatStartsWithFirst(parts: seq<string>)
    requires |parts| > 0
    ensures StartsWith(Concat(parts), parts[0])
  {
    assert Concat(parts)[..|parts[0]|] == parts[0];
  }

  /** Something a part contains, the concatenation contains. */
  lemma PartsContain(parts: seq<string>, i: nat, sub: string)
    requires i < |parts| && Contains(parts[i], sub)
    ensures Contains(Concat(parts), sub)
  {
    ConcatContainsPart(parts, i);
    ContainsTrans(Concat(parts), parts[i], sub);
  }

  lemma ConcatEndsWithLast(parts: seq<string>)
    requires |parts| > 0
    ensures EndsWith(Concat(parts), parts[|parts| - 1])
  {
    ConcatSplit(parts, |parts| - 1);
    assert parts[|parts|..] == [];
  }

  /** A possibly missing string as a template literal renders it: a missing one reads `undefined`. */
  function Rendered(o: Option<string>): (r: string)
    ensures o.Some? ==> r == o.value
    ensures o.None? ==> r == "undefined"
  {
    o.GetOr("undefined")
  }

  /** No character of `s` is in `cs`. */
  predicate Avoids(s: string, cs: set<char>) {
    forall c :: c in cs ==> c !in s
  }

  lemma AvoidsAppend(a: string, b: string, cs: set<char>)
    requires Avoids(a, cs) && Avoids(b, cs)
    ensures Avoids(a + b, cs)
  {
  }

  /** Every character of an occurrence is a character of the string. */
  lemma OccurrenceChars(s: string, sub: string, i: int, k: nat)
    requires OccursAt(s, sub, i) && k < |sub|
    ensures sub[k] in s
  {
    assert s[i..i + |sub|][k] == s[i + k];
  }

  /** A string that avoids a character of `sub` cannot contain `sub`. */
  lemma AvoidsExcludes(s: string, sub: string, cs: set<char>, k: nat)
    requires Avoids(s, cs) && k < |sub| && sub[k] in cs
    ensures !Contains(s, sub)
  {
    if Contains(s, sub) {
      var i :| 0 <= i <= |s| - |sub| && OccursAt(s, sub, i);
      OccurrenceChars(s, sub, i, k);
      assert false;
    }
  }

  /** A string lacking one character of `sub` cannot contain `sub`. */
  lemma LacksExcludes(s: string, sub: string, k: nat)
    requires k < |sub| && sub[k] !in s
    ensures !Contains(s, sub)
  {
    AvoidsExcludes(s, sub, {sub[k]}, k);
  }

  /**
    `sub` occurs in `p + t` exactly when it occurs in `t`, provided it does
    not occur in `p` and cannot straddle the join.
   */
  lemma PrefixedContains(p: string, t: string, sub: string)
    requires |p| > 0 && p[|p| - 1] !in sub && !Contains(p, sub)
    ensures Contains(p + t, sub) <==> Contains(t, sub)
  {
    if Contains(p + t, sub) {
      SplitContains(p, t, sub);
    }
    if Contains(t, sub) {
      ContainsInSuffix(p, t, sub);
    }
  }

  // ------------------------------------------------------- numbers

  function DigitChar(d: nat): (c: char)
    requires d < 10
    ensures IsDigit(c)
  {
    ('0' as int + d) as char
  }

  function DigitValue(c: char): (d: nat)
    requires IsDigit(c)
    ensures d < 10 && DigitChar(d) == c
  {
    c as int - '0' as int
  }

  /** The decimal digits of `n` without leading zeros: `String(n)` for a non-negative integer. */
  function NatToDecimal(n: nat): (r: string)
    ensures |r| > 0
    ensures forall i :: 0 <= i < |r| ==> IsDigit(r[i])
    decreases n
  {
    if n < 10 then [DigitChar(n)] else NatToDecimal(n / 10) + [DigitChar(n % 10)]
  }

  /** `String(i)` for an integer, as a template literal renders it. */
  function IntToString(i: int): (r: string)
    ensures |r| > 0
    ensures forall k :: 0 <= k < |r| ==> IsDigit(r[k]) || r[k] == '-'
  {
    if i < 0 then "-" + NatToDecimal(-i) else NatToDecimal(i)
  }

  /** A rendered integer consists of digits and a minus sign only. */
  lemma IntToStringAvoids(n: int, cs: set<char>)
    requires forall c :: c in cs ==> !IsDigit(c) && c != '-'
    ensures Avoids(IntToString(n), cs)
  {
  }

  /** The number a string of decimal digits denotes (leading zeros allowed). */
  function DecimalValue(ds: string): nat
    requires forall i :: 0 <= i < |ds| ==> IsDigit(ds[i])
  {
    if |ds| == 0 then 0 else 10 * DecimalValue(ds[..|ds| - 1]) + DigitValue(ds[|ds| - 1])
  }

  /** The length of the run of decimal digits at the front of `s`. */
  function DigitRun(s: string): (n: nat)
    ensures n <= |s|
    ensures forall i :: 0 <= i < n ==> IsDigit(s[i])
    ensures n == |s| || !IsDigit(s[n])
  {
    if |s| > 0 && IsDigit(s[0]) then 1 + DigitRun(s[1..]) else 0
  }

  /** The digit run of digits followed by a non-digit is exactly those digits. */
  lemma {:induction false} DigitRunOf(ds: string, rest: string)
    requires forall i :: 0 <= i < |ds| ==> IsDigit(ds[i])
    requires rest == [] || !IsDigit(rest[0])
    ensures DigitRun(ds + rest) == |ds|
    decreases |ds|
  {
    if |ds| > 0 {
      assert (ds + rest)[1..] == ds[1..] + rest;
      DigitRunOf(ds[1..], rest);
    }
  }

  /** The leading spaces of spaces followed by a non-space are exactly those spaces. */
  lemma {:induction false} LeadingSpacesOf(spaces: string, rest: string)
    requires forall i :: 0 <= i < |spaces| ==> IsSpace(spaces[i])
    requires rest == [] || !IsSpace(rest[0])
    ensures LeadingSpaces(spaces + rest) == |spaces|
    decreases |spaces|
  {
    if |spaces| > 0 {
      assert (spaces + rest)[1..] == spaces[1..] + rest;
      LeadingSpacesOf(spaces[1..], rest);
    }
  }

  /** Reading back the decimal rendering of `n` gives `n`. */
  lemma {:induction false} DecimalRoundTrip(n: nat)
    ensures DecimalValue(NatToDecimal(n)) == n
    decreases n
  {
    var r := NatToDecimal(n);
    if n >= 10 {
      DecimalRoundTrip(n / 10);
      assert r[..|r| - 1] == NatToDecimal(n / 10);
    }
  }

  /**
    `s.length`: JavaScript counts UTF-16 code units, so a character outside
    the Basic Multilingual Plane counts twice.
   */
  function Utf16Length(s: string): (n: nat)
    ensures |s| <= n <= 2 * |s|
  {
    if |s| == 0 then 0 else (if s[0] as int > 0xFFFF then 2 else 1) + Utf16Length(s[1..])
  }

  // ------------------------------------------------------- join

  /** `parts.join(sep)`. */
  function Join(parts: seq<string>, sep: string): string {
    if |parts| == 0 then ""
    else if |parts| == 1 then parts[0]
    else parts[0] + sep + Join(parts[1..], sep)
  }

  /** Every line occurs in the joined text. */
  lemma {:induction false} JoinContainsLine(lines: seq<string>, sep: string, k: nat)
    requires k < |lines|
    ensures Contains(Join(lines, sep), lines[k])
    decreases k
  {
    if |lines| == 1 {
      ContainsSelf(lines[0]);
    } else if k == 0 {
      ContainsSelf(lines[0]);
      ContainsInPrefix(lines[0], sep, lines[0]);
      ContainsInPrefix(lines[0] + sep, Join(lines[1..], sep), lines[0]);
    } else {
      JoinContainsLine(lines[1..], sep, k - 1);
      ContainsInSuffix(lines[0] + sep, Join(lines[1..], sep), lines[k]);
    }
  }

  /** Replacing a prefix by nothing removes it. */
  lemma ReplacePrefix(s: string, prefix: string)
    requires StartsWith(s, prefix)
    ensures ReplaceFirst(s, prefix, "") == s[|prefix|..]
  {
    assert OccursAt(s, prefix, 0);
    assert IndexOf(s, prefix).Some?;
  }

  /** Spaces before a trimmed string are what `trim` removes. */
  lemma TrimAfterSpaces(spaces: string, t: string)
    requires forall i :: 0 <= i < |spaces| ==> IsSpace(spaces[i])
    requires Trimmed(t)
    ensures Trim(spaces + t) == t
  {
    var s := spaces + t;
    LeadingSpacesOf(spaces, t);
    if t != [] {
      assert s[|spaces|..] == t;
      TrimTrimmed(t);
    } else {
      TrimAllSpaces(s);
    }
  }

  // ------------------------------------------------------- case folding

  /** The canonical form `/i` compares: ASCII lower case letters map to upper case, nothing else changes. */
  function AsciiUpper(c: char): char {
    if IsLower(c) then (c as int - 32) as char else c
  }

  /** `key` occurs at index `i` of `s` when compared case-insensitively, as a `/i` regular expression does. */
  predicate CiOccursAt(s: string, key: string, i: int) {
    0 <= i && i + |key| <= |s| && forall k :: 0 <= k < |key| ==> AsciiUpper(s[i + k]) == AsciiUpper(key[k])
  }

  /** A case-sensitive occurrence is also a case-insensitive one. */
  lemma OccursAtIsCi(s: string, key: string, i: int)
    requires OccursAt(s, key, i)
    ensures CiOccursAt(s, key, i)
  {
    forall k | 0 <= k < |key|
      ensures AsciiUpper(s[i + k]) == AsciiUpper(key[k])
    {
      assert s[i + k] == s[i..i + |key|][k];
    }
  }
}

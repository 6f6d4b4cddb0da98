/**
  Which posts a batch run of the content script works through. Finding the
  posts on the page, scrolling, clicking and the timers are outside the
  model: the page's post list arrives as a sequence.
 */
module BatchQueue {
  import opened Results

  // ------------------------------------------------------- Array.prototype.slice

  function Min(a: int, b: int): int {
    if a < b then a else b
  }

  /** A `slice` argument made absolute: negative counts back from the end, then clamped to the length. */
  function SliceBound(len: nat, k: int): (b: nat)
    ensures b <= len
    ensures 0 <= k ==> b == Min(k, len)
    ensures k < 0 && len + k >= 0 ==> b == len + k
    ensures len + k < 0 ==> b == 0
  {
    if k < 0 then (if len + k < 0 then 0 else len + k) else Min(k, len)
  }

  /** `s.slice(start, end)`: the elements from the absolute start up to the absolute end, or none. */
  function Slice<T>(s: seq<T>, start: int, end: int): (r: seq<T>)
    ensures |r| <= |s|
    ensures var a := SliceBound(|s|, start); var e := SliceBound(|s|, end);
            (a < e ==> r == s[a..e]) && (e <= a ==> r == [])
  {
    var a := SliceBound(|s|, start);
    var e := SliceBound(|s|, end);
    if a < e then s[a..e] else []
  }

  /** `Array.prototype.indexOf`: the first position of `x`, or -1. */
  function ArrayIndexOf<T(==)>(s: seq<T>, x: T): (i: int)
    ensures -1 <= i < |s|
    ensures i == -1 <==> x !in s
    ensures 0 <= i ==> s[i] == x && forall j :: 0 <= j < i ==> s[j] != x
  {
    if |s| == 0 then -1
    else if s[0] == x then 0
    else
      var k := ArrayIndexOf(s[1..], x);
      if k == -1 then -1 else k + 1
  }

  // ------------------------------------------------------- handleAutoBatch

  /** Why a batch run stops before processing anything. */
  datatype BatchRefusal = NoSelection | ContextLost | NothingBelow

  /** The message each refusal shows. */
  function RefusalMessage(e: BatchRefusal): string {
    match e
    case NoSelection => "Please select a starting post first (click AI icon on a post)"
    case ContextLost => "Current post context lost. Reselect."
    case NothingBelow => "No more posts below this one."
  }

  /** What a batch run does: refuse, or process these posts in order. */
  datatype BatchOutcome<T> = Refused(why: BatchRefusal) | Process(targets: seq<T>)

  /**
    `handleAutoBatch`'s choice of posts: with no selected post, or one no
    longer on the page, it refuses; otherwise it takes the posts after the
    selected post's first position.
   */
  function BatchTargets<T(==)>(current: Option<T>, allPosts: seq<T>, count: int): (r: BatchOutcome<T>)
    ensures current.None? <==> r == Refused(NoSelection)
    ensures current.Some? && current.value !in allPosts <==> r == Refused(ContextLost)
    ensures r.Process? ==> current.Some? && current.value in allPosts && |r.targets| > 0
  {
    if current.None? then Refused(NoSelection)
    else if current.value !in allPosts then Refused(ContextLost)
    else NextPosts(allPosts, ArrayIndexOf(allPosts, current.value), count)
  }

  /** `allPosts.slice(i + 1, i + 1 + count)`, refused when empty. */
  function NextPosts<T>(allPosts: seq<T>, i: nat, count: int): (r: BatchOutcome<T>)
    requires i < |allPosts|
    ensures r == Refused(NothingBelow) || (r.Process? && |r.targets| > 0)
  {
    if |Slice(allPosts, i + 1, i + 1 + count)| == 0 then Refused(NothingBelow)
    else Process(Slice(allPosts, i + 1, i + 1 + count))
  }

  /** A forward slice that starts inside the sequence is the plain subsequence, cut at the end. */
  lemma SliceForward<T>(s: seq<T>, a: nat, b: int)
    requires a <= |s| && a <= b
    ensures Slice(s, a, b) == s[a..Min(b, |s|)]
  {
  }

  /**
    For a positive count the posts after position `i` are the next `count`
    ones, fewer at the end of the page; there are none only after the last.
   */
  lemma NextPostsForward<T>(allPosts: seq<T>, i: nat, count: int)
    requires i < |allPosts| && count >= 1
    ensures i + 1 == |allPosts| ==> NextPosts(allPosts, i, count) == Refused(NothingBelow)
    ensures i + 1 < |allPosts| ==> NextPosts(allPosts, i, count) == Process(allPosts[i + 1..Min(i + 1 + count, |allPosts|)])
  {
    SliceForward(allPosts, i + 1, i + 1 + count);
  }

  /**
    For a positive count the batch is the next `count` posts after the
    selected post's first position `i`, fewer at the end of the page, and
    it refuses only when that is the last position.
   */
  lemma BatchTakesNextPosts<T>(current: T, allPosts: seq<T>, count: int, i: nat)
    requires i < |allPosts| && allPosts[i] == current && forall j :: 0 <= j < i ==> allPosts[j] != current
    requires count >= 1
    ensures i + 1 == |allPosts| ==> BatchTargets(Some(current), allPosts, count) == Refused(NothingBelow)
    ensures i + 1 < |allPosts| ==>
              BatchTargets(Some(current), allPosts, count) == Process(allPosts[i + 1..Min(i + 1 + count, |allPosts|)])
  {
    var k := ArrayIndexOf(allPosts, current);
    if k < i {
      assert false;
    }
    assert BatchTargets(Some(current), allPosts, count) == NextPosts(allPosts, i, count);
    NextPostsForward(allPosts, i, count);
  }

  /** With a positive count, a batch never holds more than `count` posts, all right after the selected one. */
  lemma BatchWithinCount<T>(current: T, allPosts: seq<T>, count: int)
    requires current in allPosts && count >= 1
    requires BatchTargets(Some(current), allPosts, count).Process?
    ensures |BatchTargets(Some(current), allPosts, count).targets| <= count
    ensures RightAfter(allPosts, ArrayIndexOf(allPosts, current), BatchTargets(Some(current), allPosts, count).targets)
  {
    var i := ArrayIndexOf(allPosts, current);
    var n: nat := i;
    var r := BatchTargets(Some(current), allPosts, count);
    BatchTakesNextPosts(current, allPosts, count, n);
    TakesWithinCount(allPosts, n, count, r.targets);
  }

  /** The next `count` posts after position `i`, cut at the end of the page, are at most `count` and start at `i + 1`. */
  lemma TakesWithinCount<T>(allPosts: seq<T>, i: nat, count: int, t: seq<T>)
    requires i + 1 < |allPosts| && count >= 1
    requires t == allPosts[i + 1..Min(i + 1 + count, |allPosts|)]
    ensures |t| <= count && RightAfter(allPosts, i, t)
  {
  }

  /** `t` is the run of posts starting just after position `i`. */
  ghost predicate RightAfter<T>(allPosts: seq<T>, i: int, t: seq<T>) {
    0 <= i && i + 1 + |t| <= |allPosts| && t == allPosts[i + 1..i + 1 + |t|]
  }
}

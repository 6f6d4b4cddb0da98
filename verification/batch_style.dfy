/**
  The style a random batch reply uses. `Math.random()` is outside the
  model: the draw arrives as a number in [0, 1).
 */
module BatchStyle {
  import opened Constants

  /** `styles.filter(s => !ids.has(s.id))`, in order. */
  function WithoutIds(styles: seq<ReplyStyle>, ids: set<string>): (r: seq<ReplyStyle>)
    ensures |r| <= |styles|
    ensures forall k :: 0 <= k < |r| ==> r[k] in styles && r[k].id !in ids
  {
    if |styles| == 0 then []
    else (if styles[0].id in ids then [] else [styles[0]]) + WithoutIds(styles[1..], ids)
  }

  /** Filtering out ids no style has keeps every style. */
  lemma {:induction false} WithoutAbsentIds(styles: seq<ReplyStyle>, ids: set<string>)
    requires forall k :: 0 <= k < |styles| ==> styles[k].id !in ids
    ensures WithoutIds(styles, ids) == styles
    decreases |styles|
  {
    if |styles| > 0 {
      WithoutAbsentIds(styles[1..], ids);
    }
  }

  /** Filtering the style table by ids it does not use keeps the whole table. */
  lemma TableWithoutUnusedIds(ids: set<string>)
    requires forall id :: id in ids ==> id !in StyleIds()
    ensures WithoutIds(ReplyStyles, ids) == ReplyStyles
  {
    var table := StyleIds();
    forall k | 0 <= k < |ReplyStyles|
      ensures ReplyStyles[k].id !in ids
    {
      assert table[k] == ReplyStyles[k].id;
    }
    WithoutAbsentIds(ReplyStyles, ids);
  }

  /**
    The random batch candidates: the reply styles without `auto` (and, in the
    direct batch loop, without `lust`). Neither id is in the table, so every
    style is a candidate.
   */
  lemma BatchCandidatesAreAllStyles()
    ensures WithoutIds(ReplyStyles, {"auto"}) == ReplyStyles
    ensures WithoutIds(ReplyStyles, {"auto", "lust"}) == ReplyStyles
  {
    UnlistedIds();
    TableWithoutUnusedIds({"auto"});
    TableWithoutUnusedIds({"auto", "lust"});
  }

  /** `Math.floor(r * n)` for a draw `r` in [0, 1): an index into a list of `n`. */
  function RandomIndex(n: nat, r: real): (k: nat)
    requires n > 0 && 0.0 <= r < 1.0
    ensures k < n
  {
    var x := r * n as real;
    assert x < n as real;
    x.Floor
  }

  /** Every index is drawn for some value in [0, 1): no style is out of reach. */
  lemma EveryIndexReachable(n: nat, k: nat)
    requires k < n
    ensures 0.0 <= k as real / n as real < 1.0
    ensures RandomIndex(n, k as real / n as real) == k
  {
    var r := k as real / n as real;
    assert r * n as real == k as real;
  }

  /** The style a random batch reply uses for the draw `r`: one of the reply styles, never `auto` or `lust`. */
  function RandomBatchStyle(r: real): (s: ReplyStyle)
    requires 0.0 <= r < 1.0
    ensures s in ReplyStyles && s.id != "auto" && s.id != "lust"
  {
    BatchCandidatesAreAllStyles();
    var candidates := WithoutIds(ReplyStyles, {"auto", "lust"});
    candidates[RandomIndex(|candidates|, r)]
  }
}

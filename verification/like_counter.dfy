/** The like counter cache of a comment: the `likes_cache` and
    `likes_value_cache` columns, kept up to date one like at a time instead of
    being recounted from the like rows. */
module LikeCounters {
  import opened Values

  /** The two cached columns: how many likes, and the sum of their values. */
  datatype LikeCounter = LikeCounter(count: int, valueSum: int) {

    /** `increment_likes_cache(v)`: one more like, worth `v`. */
    function Bumped(v: int): LikeCounter
    {
      LikeCounter(count + 1, valueSum + v)
    }

    /** `decrement_likes_cache(v)`: one like worth `v` fewer. */
    function Dropped(v: int): LikeCounter
    {
      LikeCounter(count - 1, valueSum - v)
    }
  }

  /** Decrementing by `v` undoes incrementing by `v`, and the other way round. */
  lemma DroppedUndoesBumped(c: LikeCounter, v: int)
    ensures c.Bumped(v).Dropped(v) == c
    ensures c.Dropped(v).Bumped(v) == c
  {
  }

  /** What happened to a like row of the given value: it was added to the
      comment's likes or removed (destroyed) from them. */
  datatype LikeChange = Added(value: int) | Removed(value: int)

  /** `update_likes_cache`: a destroyed like decrements, any other increments. */
  function Apply(c: LikeCounter, ch: LikeChange): LikeCounter
  {
    match ch
    case Added(v) => c.Bumped(v)
    case Removed(v) => c.Dropped(v)
  }

  /** The counter after the changes `chs`, applied in order, one by one. */
  function Replay(c: LikeCounter, chs: seq<LikeChange>): LikeCounter
    decreases |chs|
  {
    if chs == [] then c else Replay(Apply(c, chs[0]), chs[1..])
  }

  function Adds(chs: seq<LikeChange>): nat
  {
    if chs == [] then 0 else (if chs[0].Added? then 1 else 0) + Adds(chs[1..])
  }

  function Removes(chs: seq<LikeChange>): nat
  {
    if chs == [] then 0 else (if chs[0].Removed? then 1 else 0) + Removes(chs[1..])
  }

  function AddedValue(chs: seq<LikeChange>): int
  {
    if chs == [] then 0 else (if chs[0].Added? then chs[0].value else 0) + AddedValue(chs[1..])
  }

  function RemovedValue(chs: seq<LikeChange>): int
  {
    if chs == [] then 0 else (if chs[0].Removed? then chs[0].value else 0) + RemovedValue(chs[1..])
  }

  /** After any sequence of adds and removes the count has moved by adds minus
      removes, and the value sum by the added values minus the removed ones. */
  lemma {:induction false} ReplayTotals(c: LikeCounter, chs: seq<LikeChange>)
    ensures Replay(c, chs) == LikeCounter(c.count + Adds(chs) - Removes(chs),
                                          c.valueSum + AddedValue(chs) - RemovedValue(chs))
    decreases |chs|
  {
    if chs != [] {
      ReplayTotals(Apply(c, chs[0]), chs[1..]);
    }
  }

  /** The four totals add up over a concatenation. */
  lemma {:induction false} TotalsAppend(xs: seq<LikeChange>, ys: seq<LikeChange>)
    ensures Adds(xs + ys) == Adds(xs) + Adds(ys)
    ensures Removes(xs + ys) == Removes(xs) + Removes(ys)
    ensures AddedValue(xs + ys) == AddedValue(xs) + AddedValue(ys)
    ensures RemovedValue(xs + ys) == RemovedValue(xs) + RemovedValue(ys)
    decreases |xs|
  {
    if xs != [] {
      assert (xs + ys)[0] == xs[0];
      assert (xs + ys)[1..] == xs[1..] + ys;
      TotalsAppend(xs[1..], ys);
    } else {
      assert xs + ys == ys;
    }
  }

  /** The final counter does not depend on the order in which two batches of
      like changes arrive. */
  lemma ReplayOrderFree(c: LikeCounter, xs: seq<LikeChange>, ys: seq<LikeChange>)
    ensures Replay(c, xs + ys) == Replay(c, ys + xs)
  {
    ReplayTotals(c, xs + ys);
    ReplayTotals(c, ys + xs);
    TotalsAppend(xs, ys);
    TotalsAppend(ys, xs);
  }

  /** The sum of the values of a collection of like rows. */
  function ValueSum(likes: seq<Like>): int
  {
    if likes == [] then 0 else ValueSum(likes[..|likes| - 1]) + likes[|likes| - 1].value
  }

  /** The like rows without the one at index `k`. */
  function Without(likes: seq<Like>, k: nat): seq<Like>
    requires k < |likes|
  {
    likes[..k] + likes[k + 1..]
  }

  lemma {:induction false} ValueSumAppend(xs: seq<Like>, ys: seq<Like>)
    ensures ValueSum(xs + ys) == ValueSum(xs) + ValueSum(ys)
    decreases |ys|
  {
    if ys != [] {
      var last := |ys| - 1;
      assert (xs + ys)[..|xs + ys| - 1] == xs + ys[..last];
      ValueSumAppend(xs, ys[..last]);
    } else {
      assert xs + ys == xs;
    }
  }

  /** A sequence is its part before `k`, its element at `k` and its part after. */
  lemma SplitAt<T>(s: seq<T>, k: nat)
    requires k < |s|
    ensures s == s[..k] + [s[k]] + s[k + 1..]
  {
  }

  lemma ValueSumSnoc(likes: seq<Like>, like: Like)
    ensures ValueSum(likes + [like]) == ValueSum(likes) + like.value
  {
    assert (likes + [like])[..|likes|] == likes;
  }

  /** Removing the like at `k` lowers the value sum by exactly its value. */
  lemma ValueSumWithout(likes: seq<Like>, k: nat)
    requires k < |likes|
    ensures ValueSum(Without(likes, k)) == ValueSum(likes) - likes[k].value
  {
    var front, like, back := likes[..k], likes[k], likes[k + 1..];
    SplitAt(likes, k);
    ValueSumAppend(front + [like], back);
    ValueSumSnoc(front, like);
    ValueSumAppend(front, back);
  }

  /** The cache invariant: the counter agrees with the like rows it summarises. */
  predicate Tallies(c: LikeCounter, likes: seq<Like>)
  {
    c.count == |likes| && c.valueSum == ValueSum(likes)
  }

  /** Adding a like row and incrementing by its value keeps the invariant. */
  lemma TalliesAfterAdd(c: LikeCounter, likes: seq<Like>, like: Like)
    requires Tallies(c, likes)
    ensures Tallies(Apply(c, Added(like.value)), likes + [like])
  {
    ValueSumSnoc(likes, like);
  }

  /** Destroying a like row and decrementing by its value keeps the invariant. */
  lemma TalliesAfterRemove(c: LikeCounter, likes: seq<Like>, k: nat)
    requires k < |likes|
    requires Tallies(c, likes)
    ensures Tallies(Apply(c, Removed(likes[k].value)), Without(likes, k))
  {
    ValueSumWithout(likes, k);
  }
}

/**
 * Tweet records as read from the dataset, the stable filter both scripts
 * apply to them, and the per-record sums their statistics are built from.
 */
module Tweets {
  import opened Calendar

  /**
   * One row of the dataset. `isRetweet` keeps the text of the CSV column
   * ("True" or "False"); the count columns are already integers.
   */
  datatype Tweet = Tweet(handle: string, isRetweet: string, time: Moment, retweets: int, favorites: int)

  /** The records of `s` that `keep` accepts, in their original order. */
  function Filter(s: seq<Tweet>, keep: Tweet -> bool): (r: seq<Tweet>)
    ensures |r| <= |s|
    ensures forall i :: 0 <= i < |r| ==> keep(r[i])
  {
    if s == [] then [] else Filter(s[..|s| - 1], keep) + (if keep(s[|s| - 1]) then [s[|s| - 1]] else [])
  }

  /** The positions in `s` of the records `keep` accepts, in increasing order. */
  function KeptIndices(s: seq<Tweet>, keep: Tweet -> bool): (idx: seq<nat>)
  {
    if s == [] then [] else KeptIndices(s[..|s| - 1], keep) + (if keep(s[|s| - 1]) then [|s| - 1] else [])
  }

  lemma {:induction false} KeptIndicesAscending(s: seq<Tweet>, keep: Tweet -> bool)
    ensures var idx := KeptIndices(s, keep);
      (forall k :: 0 <= k < |idx| ==> idx[k] < |s|) &&
      (forall k, l :: 0 <= k < l < |idx| ==> idx[k] < idx[l]) &&
      (forall i :: 0 <= i < |s| ==> (keep(s[i]) <==> i in idx))
  {
    if s != [] {
      var init := s[..|s| - 1];
      KeptIndicesAscending(init, keep);
      var idx, idx0 := KeptIndices(s, keep), KeptIndices(init, keep);
      assert idx[..|idx0|] == idx0;
      forall i | 0 <= i < |s|
        ensures keep(s[i]) <==> i in idx
      {
        if i < |init| {
          assert s[i] == init[i];
          assert keep(s[i]) <==> i in idx0;
        }
      }
    }
  }

  lemma {:induction false} FilterAtKeptIndices(s: seq<Tweet>, keep: Tweet -> bool)
    ensures var r, idx := Filter(s, keep), KeptIndices(s, keep);
      |idx| == |r| && forall k :: 0 <= k < |idx| ==> idx[k] < |s| && r[k] == s[idx[k]]
  {
    if s != [] {
      var init := s[..|s| - 1];
      FilterAtKeptIndices(init, keep);
      var r, idx := Filter(s, keep), KeptIndices(s, keep);
      var r0, idx0 := Filter(init, keep), KeptIndices(init, keep);
      assert idx[..|idx0|] == idx0 && r[..|r0|] == r0;
      forall k | 0 <= k < |idx|
        ensures idx[k] < |s| && r[k] == s[idx[k]]
      {
        if k < |idx0| {
          assert idx[k] == idx0[k] && r[k] == r0[k];
          assert init[idx0[k]] == s[idx0[k]];
        }
      }
    }
  }

  /**
   * `Filter` is a stable selection: its result lists, in increasing order of
   * position, exactly the records of `s` that `keep` accepts.
   */
  lemma FilterSelectsExactly(s: seq<Tweet>, keep: Tweet -> bool)
    ensures var r, idx := Filter(s, keep), KeptIndices(s, keep);
      |idx| == |r| &&
      (forall k :: 0 <= k < |idx| ==> idx[k] < |s| && r[k] == s[idx[k]]) &&
      (forall k, l :: 0 <= k < l < |idx| ==> idx[k] < idx[l]) &&
      (forall i :: 0 <= i < |s| ==> (keep(s[i]) <==> i in idx))
  {
    KeptIndicesAscending(s, keep);
    FilterAtKeptIndices(s, keep);
  }

  /** Filtering a concatenation filters each part. */
  lemma {:induction false} FilterAppend(a: seq<Tweet>, b: seq<Tweet>, keep: Tweet -> bool)
    ensures Filter(a + b, keep) == Filter(a, keep) + Filter(b, keep)
  {
    if b == [] {
      assert a + b == a;
    } else {
      assert (a + b)[..|a + b| - 1] == a + b[..|b| - 1];
      FilterAppend(a, b[..|b| - 1], keep);
    }
  }

  /** Filtering an already filtered sequence again changes nothing. */
  lemma {:induction false} FilterIdempotent(s: seq<Tweet>, keep: Tweet -> bool)
    ensures Filter(Filter(s, keep), keep) == Filter(s, keep)
  {
    if s != [] {
      var init := s[..|s| - 1];
      FilterIdempotent(init, keep);
      var tail := if keep(s[|s| - 1]) then [s[|s| - 1]] else [];
      FilterAppend(Filter(init, keep), tail, keep);
      if keep(s[|s| - 1]) {
        assert tail[..0] == [];
      }
    }
  }

  function RetweetCount(t: Tweet): (n: int) { t.retweets }

  function FavoriteCount(t: Tweet): (n: int) { t.favorites }

  /** The sum of `count` over every record of `s`. */
  function Sum(s: seq<Tweet>, count: Tweet -> int): (total: int)
  {
    if s == [] then 0 else Sum(s[..|s| - 1], count) + count(s[|s| - 1])
  }

  /**
   * When every count lies in `[lo, hi]`, the sum over `n` records lies in
   * `[n * lo, n * hi]`: the average that `get_tweet_stats` divides out of it
   * lies between the smallest and the largest count.
   */
  lemma {:induction false} SumBetween(s: seq<Tweet>, count: Tweet -> int, lo: int, hi: int)
    requires forall i :: 0 <= i < |s| ==> lo <= count(s[i]) <= hi
    ensures |s| * lo <= Sum(s, count) <= |s| * hi
  {
    if s != [] {
      var init := s[..|s| - 1];
      assert forall i :: 0 <= i < |init| ==> init[i] == s[i];
      SumBetween(init, count, lo, hi);
      assert |s| * lo == |init| * lo + lo && |s| * hi == |init| * hi + hi;
    }
  }

  /** The exact quotient `total / count`, which the scripts round to two decimals. */
  datatype Mean = Mean(total: int, count: nat)

}

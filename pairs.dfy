/**
 * The order of a side wave: pair k of a list is its k-th element from the
 * left and its k-th from the right, once when the two coincide.
 */
module Pairs {
  /** The ships of pair `k`: the k-th from the left and the k-th from the right, once when they coincide. */
  function SidePair<T>(shooters: seq<T>, k: nat): (r: seq<T>)
    requires 2 * k < |shooters|
    ensures 1 <= |r| <= 2 && r[0] == shooters[k]
    ensures |r| == 2 <==> |shooters| - 1 - k != k
    ensures |r| == 2 ==> r[1] == shooters[|shooters| - 1 - k]
  {
    var right := |shooters| - 1 - k;
    if right != k then [shooters[k], shooters[right]] else [shooters[k]]
  }

  /** The ships that pairs k, k + 1, ... fire, in order. */
  function SidePairs<T>(shooters: seq<T>, k: nat): seq<T>
    decreases |shooters| - k
  {
    if 2 * k >= |shooters| then [] else SidePair(shooters, k) + SidePairs(shooters, k + 1)
  }

  /** The middle slice [k, n - k) of a list. */
  function Middle<T>(s: seq<T>, k: nat): seq<T>
    requires 2 * k <= |s|
  {
    s[k..|s| - k]
  }

  /** Peeling both ends off the middle slice. */
  lemma MiddleWrap<T>(s: seq<T>, k: nat)
    requires 2 * (k + 1) <= |s|
    ensures multiset(Middle(s, k)) == multiset{s[k], s[|s| - 1 - k]} + multiset(Middle(s, k + 1))
  {
    assert Middle(s, k) == [s[k]] + Middle(s, k + 1) + [s[|s| - 1 - k]];
  }

  /** Two ends while they differ ... */
  lemma PairsWrap<T>(s: seq<T>, k: nat)
    requires 2 * (k + 1) <= |s|
    ensures multiset(SidePairs(s, k)) == multiset{s[k], s[|s| - 1 - k]} + multiset(SidePairs(s, k + 1))
  {
    assert SidePairs(s, k) == [s[k], s[|s| - 1 - k]] + SidePairs(s, k + 1);
  }

  /** ... then the middle alone, or nothing. */
  lemma PairsLast<T>(s: seq<T>, k: nat)
    requires 2 * k <= |s| < 2 * (k + 1)
    ensures multiset(SidePairs(s, k)) == multiset(Middle(s, k))
  {
    if |s| == 2 * k + 1 {
      assert Middle(s, k) == [s[k]];
      assert SidePairs(s, k) == [s[k]] + [];
    }
  }

  /** The pairs from k on cover the middle slice [k, n - k) of the list, each element once. */
  lemma {:induction false} SidePairsCover<T>(s: seq<T>, k: nat)
    requires 2 * k <= |s|
    ensures multiset(SidePairs(s, k)) == multiset(Middle(s, k))
    decreases |s| - 2 * k
  {
    if 2 * (k + 1) <= |s| {
      PairsWrap(s, k);
      MiddleWrap(s, k);
      SidePairsCover(s, k + 1);
    } else {
      PairsLast(s, k);
    }
  }

  /**
   * A side wave fires every roster member exactly once: n shots for a roster
   * of n, with the middle ship of an odd roster firing alone.
   */
  lemma SideWaveFiresEachOnce<T>(shooters: seq<T>)
    ensures multiset(SidePairs(shooters, 0)) == multiset(shooters)
    ensures |SidePairs(shooters, 0)| == |shooters|
  {
    SidePairsCover(shooters, 0);
    assert Middle(shooters, 0) == shooters;
    assert |SidePairs(shooters, 0)| == |multiset(SidePairs(shooters, 0))|;
  }
}

/** Histogram bins and the contiguous merging shared by the three chi-square
    goodness-of-fit procedures: each merged category is the bin-wise total of a
    run of adjacent original bins, and the runs cover the original bins in order. */
module Bins {

  /** One bin or merged category: an observed count and an expected frequency. */
  datatype Bin = Bin(obs: int, exp: real)

  /** What `a[k] += b[k]` does to a pair of observed/expected arrays. */
  function Add(a: Bin, b: Bin): (r: Bin)
    ensures r.obs == a.obs + b.obs && r.exp == a.exp + b.exp
  {
    Bin(a.obs + b.obs, a.exp + b.exp)
  }

  /** The bin-wise total of a run of bins (`np.sum` of both arrays). */
  function Total(bs: seq<Bin>): Bin
  {
    if bs == [] then Bin(0, 0.0) else Add(Total(bs[..|bs| - 1]), bs[|bs| - 1])
  }

  lemma {:induction false} TotalConcat(a: seq<Bin>, b: seq<Bin>)
    ensures Total(a + b) == Add(Total(a), Total(b))
  {
    if b == [] {
      assert a + b == a;
    } else {
      var b' := b[..|b| - 1];
      assert (a + b)[..|a + b| - 1] == a + b';
      TotalConcat(a, b');
    }
  }

  /** Every bin has a positive expected frequency (the state after `np.maximum(e, 1e-8)`). */
  predicate PositiveExpected(bs: seq<Bin>)
  {
    forall k :: 0 <= k < |bs| ==> bs[k].exp > 0.0
  }

  /** No bin expects a negative frequency (the expected counts of a true distribution). */
  predicate NonNegativeExpected(bs: seq<Bin>)
  {
    forall k :: 0 <= k < |bs| ==> bs[k].exp >= 0.0
  }

  lemma {:induction false} TotalNonNegative(bs: seq<Bin>)
    requires NonNegativeExpected(bs)
    ensures Total(bs).exp >= 0.0
  {
    if bs != [] { TotalNonNegative(bs[..|bs| - 1]); }
  }

  /** Cut points rising strictly from 0 to `n` in `m` steps. */
  predicate Cuts(cuts: seq<nat>, m: nat, n: nat)
  {
    |cuts| == m + 1 && cuts[0] == 0 && cuts[m] == n &&
    (forall j :: 0 <= j <= m ==> cuts[j] <= n) &&
    (forall j :: 0 <= j < m ==> cuts[j] < cuts[j + 1])
  }

  /** `merged[j]` is the total of `orig[cuts[j]..cuts[j + 1]]`; the cut points rise
      strictly from 0 to `|orig|`, so every original bin lands in exactly one
      merged category and the categories keep the original order. */
  ghost predicate Groups(orig: seq<Bin>, merged: seq<Bin>, cuts: seq<nat>)
  {
    Cuts(cuts, |merged|, |orig|) &&
    forall j :: 0 <= j < |merged| ==> merged[j] == Total(orig[cuts[j]..cuts[j + 1]])
  }

  lemma {:induction false} CutsIncrease(cuts: seq<nat>, m: nat, n: nat, i: nat, j: nat)
    requires Cuts(cuts, m, n)
    requires i <= j <= m
    ensures cuts[i] + (j - i) <= cuts[j]
    decreases j - i
  {
    if i < j { CutsIncrease(cuts, m, n, i + 1, j); }
  }

  /** The grouping restricted to its first `m` categories groups `orig[..cuts[m]]`. */
  lemma GroupsPrefix(orig: seq<Bin>, merged: seq<Bin>, cuts: seq<nat>, m: nat)
    requires Groups(orig, merged, cuts) && m <= |merged|
    ensures Groups(orig[..cuts[m]], merged[..m], cuts[..m + 1])
  {
    var c := cuts[m];
    forall j | 0 <= j <= m ensures cuts[j] <= c {
      CutsIncrease(cuts, |merged|, |orig|, j, m);
    }
    forall j | 0 <= j < m
      ensures merged[..m][j] == Total(orig[..c][cuts[j]..cuts[j + 1]])
    {
      assert orig[..c][cuts[j]..cuts[j + 1]] == orig[cuts[j]..cuts[j + 1]];
    }
  }

  /** Merging into contiguous runs conserves both the observed and the expected total. */
  lemma {:induction false} GroupsTotal(orig: seq<Bin>, merged: seq<Bin>, cuts: seq<nat>)
    requires Groups(orig, merged, cuts)
    ensures Total(merged) == Total(orig)
  {
    if merged != [] {
      var m := |merged| - 1;
      var c := cuts[m];
      GroupsPrefix(orig, merged, cuts, m);
      GroupsTotal(orig[..c], merged[..m], cuts[..m + 1]);
      assert merged[m] == Total(orig[c..]) by { assert orig[cuts[m]..cuts[m + 1]] == orig[c..]; }
      assert orig == orig[..c] + orig[c..];
      TotalConcat(orig[..c], orig[c..]);
    }
  }

  /** Merging never creates categories: there are at most as many as original bins,
      and at least one when there was at least one bin. */
  lemma GroupsLength(orig: seq<Bin>, merged: seq<Bin>, cuts: seq<nat>)
    requires Groups(orig, merged, cuts)
    ensures |merged| <= |orig|
    ensures |merged| == 0 <==> |orig| == 0
  {
    CutsIncrease(cuts, |merged|, |orig|, 0, |merged|);
  }

  /** The identity grouping: every bin is its own category. */
  lemma {:induction false} GroupsIdentity(bs: seq<Bin>)
    ensures Groups(bs, bs, seq(|bs| + 1, k => k))
  {
    var cuts: seq<nat> := seq(|bs| + 1, k => k);
    forall j | 0 <= j < |bs| ensures bs[j] == Total(bs[cuts[j]..cuts[j + 1]]) {
      assert bs[j..j + 1] == [bs[j]];
      assert [bs[j]][..0] == [];
    }
  }

  lemma SliceOfPrefix(orig: seq<Bin>, c: nat, a: nat, b: nat)
    requires a <= b <= c <= |orig|
    ensures orig[..c][a..b] == orig[a..b]
  {
  }

  lemma CutsDrop(cuts: seq<nat>, m: nat, n: nat, j: nat)
    requires Cuts(cuts, m, n) && j + 1 < m
    ensures Cuts(cuts[..j + 1] + cuts[j + 2..], m - 1, n)
  {
    var c' := cuts[..j + 1] + cuts[j + 2..];
    forall k | 0 <= k < m - 1 ensures c'[k] < c'[k + 1] {
      if k < j {
        assert c'[k] == cuts[k] && c'[k + 1] == cuts[k + 1];
      } else if k == j {
        assert c'[k] == cuts[j] && c'[k + 1] == cuts[j + 2];
        assert cuts[j] < cuts[j + 1];
      } else {
        assert c'[k] == cuts[k + 1] && c'[k + 1] == cuts[k + 2];
      }
    }
    forall k | 0 <= k <= m - 1 ensures c'[k] <= n {
      if k <= j { assert c'[k] == cuts[k]; } else { assert c'[k] == cuts[k + 1]; }
    }
  }

  /** Index facts about replacing `s[j], s[j + 1]` by one element `x`. */
  lemma Collapse<T>(s: seq<T>, j: nat, x: T, t: seq<T>)
    requires j + 1 < |s| && t == s[..j] + [x] + s[j + 2..]
    ensures |t| == |s| - 1 && t[j] == x
    ensures forall k :: 0 <= k < j ==> t[k] == s[k]
    ensures forall k :: j < k < |t| ==> t[k] == s[k + 1]
  {
  }

  /** Merging the adjacent categories `j` and `j + 1` (`e[j] += e[j + 1]` and
      deleting `j + 1`) keeps the grouping contiguous. */
  lemma MergeAdjacent(orig: seq<Bin>, merged: seq<Bin>, cuts: seq<nat>, j: nat)
    requires Groups(orig, merged, cuts) && j + 1 < |merged|
    ensures Groups(orig, merged[..j] + [Add(merged[j], merged[j + 1])] + merged[j + 2..],
                   cuts[..j + 1] + cuts[j + 2..])
  {
    var m' := merged[..j] + [Add(merged[j], merged[j + 1])] + merged[j + 2..];
    var c' := cuts[..j + 1] + cuts[j + 2..];
    Collapse(merged, j, Add(merged[j], merged[j + 1]), m');
    Collapse(cuts, j + 1, cuts[j + 2], cuts[..j + 1] + [cuts[j + 2]] + cuts[j + 3..]);
    assert c' == cuts[..j + 1] + [cuts[j + 2]] + cuts[j + 3..];
    CutsDrop(cuts, |merged|, |orig|, j);
    var lo, mid, hi := cuts[j], cuts[j + 1], cuts[j + 2];
    assert orig[lo..hi] == orig[lo..mid] + orig[mid..hi];
    TotalConcat(orig[lo..mid], orig[mid..hi]);
    forall k | 0 <= k < |m'| ensures m'[k] == Total(orig[c'[k]..c'[k + 1]]) {
      if k < j {
        assert c'[k] == cuts[k] && c'[k + 1] == cuts[k + 1];
      } else if k > j {
        assert c'[k] == cuts[k + 1] && c'[k + 1] == cuts[k + 2];
      }
    }
  }

  /** Closing a new category over the bins `orig[c..c']` that follow a grouping of `orig[..c]`. */
  lemma AppendGroup(orig: seq<Bin>, merged: seq<Bin>, cuts: seq<nat>, c: nat, c': nat)
    requires c < c' <= |orig| && Groups(orig[..c], merged, cuts)
    ensures Groups(orig[..c'], merged + [Total(orig[c..c'])], cuts + [c'])
  {
    var m' := merged + [Total(orig[c..c'])];
    var d := cuts + [c'];
    assert Cuts(d, |m'|, c');
    forall k | 0 <= k < |merged| ensures m'[k] == Total(orig[..c'][d[k]..d[k + 1]]) {
      SliceOfPrefix(orig, c, cuts[k], cuts[k + 1]);
      SliceOfPrefix(orig, c', cuts[k], cuts[k + 1]);
    }
    SliceOfPrefix(orig, c', c, c');
  }

  /** Adding the bins `orig[c..c']` to the last category of a grouping of `orig[..c]`. */
  lemma ExtendLastGroup(orig: seq<Bin>, merged: seq<Bin>, cuts: seq<nat>, c: nat, c': nat)
    requires c <= c' <= |orig| && Groups(orig[..c], merged, cuts) && merged != []
    ensures Groups(orig[..c'], merged[..|merged| - 1] + [Add(merged[|merged| - 1], Total(orig[c..c']))],
                   cuts[..|merged|] + [c'])
  {
    var m := |merged| - 1;
    var m' := merged[..m] + [Add(merged[m], Total(orig[c..c']))];
    var d := cuts[..|merged|] + [c'];
    var lo := cuts[m];
    assert lo < c by { assert cuts[m] < cuts[m + 1]; }
    assert Cuts(d, |m'|, c');
    forall k | 0 <= k < m ensures m'[k] == Total(orig[..c'][d[k]..d[k + 1]]) {
      assert d[k] == cuts[k] && d[k + 1] == cuts[k + 1];
      assert cuts[k + 1] <= c;
      SliceOfPrefix(orig, c, cuts[k], cuts[k + 1]);
      SliceOfPrefix(orig, c', cuts[k], cuts[k + 1]);
    }
    assert merged[m] == Total(orig[lo..c]) by {
      SliceOfPrefix(orig, c, lo, c);
    }
    assert orig[lo..c'] == orig[lo..c] + orig[c..c'];
    TotalConcat(orig[lo..c], orig[c..c']);
    SliceOfPrefix(orig, c', lo, c');
    assert m'[m] == Total(orig[..c'][d[m]..d[m + 1]]);
  }
}

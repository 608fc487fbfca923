/** Enumerations of column pairs by index: the ordered pairs (y, x) with y != x
    that the regression loops visit, and the unordered pairs i < j that the
    correlation and signed-rank loops visit, both in row-major order. */
module Pairs {
  import opened Common

  /** Both indices of every pair name one of `n` columns. */
  predicate InRange(ps: seq<(nat, nat)>, n: nat)
  {
    forall k :: 0 <= k < |ps| ==> ps[k].0 < n && ps[k].1 < n
  }

  /** `(i, j)` for `j` in `0..m`, skipping `j == i`. */
  function OrderedRow(i: nat, m: nat): (r: seq<(nat, nat)>)
    ensures forall k :: 0 <= k < |r| ==> r[k].0 == i && r[k].1 < m && r[k].1 != i
    ensures |r| == if i < m then m - 1 else m
  {
    if m == 0 then []
    else OrderedRow(i, m - 1) + (if m - 1 == i then [] else [(i, m - 1)])
  }

  /** The rows `0..k` of the ordered pairs over `n` columns. */
  function OrderedRows(k: nat, n: nat): (r: seq<(nat, nat)>)
    requires k <= n
    ensures InRange(r, n)
  {
    if k == 0 then [] else OrderedRows(k - 1, n) + OrderedRow(k - 1, n)
  }

  /** `for i in range(n): for j in range(n): if i == j: continue`. */
  function OrderedPairs(n: nat): (r: seq<(nat, nat)>)
    ensures InRange(r, n)
  {
    OrderedRows(n, n)
  }

  /** `(i, j)` for `j` in `i + 1..m`. */
  function UnorderedRow(i: nat, m: nat): (r: seq<(nat, nat)>)
    ensures forall k :: 0 <= k < |r| ==> r[k].0 == i && i < r[k].1 < m
    ensures |r| == if i < m then m - 1 - i else 0
  {
    if m <= i + 1 then []
    else UnorderedRow(i, m - 1) + [(i, m - 1)]
  }

  /** The rows `0..k` of the unordered pairs over `n` columns. */
  function UnorderedRows(k: nat, n: nat): (r: seq<(nat, nat)>)
    requires k <= n
    ensures InRange(r, n)
  {
    if k == 0 then [] else UnorderedRows(k - 1, n) + UnorderedRow(k - 1, n)
  }

  /** `for i in range(n): for j in range(i + 1, n)`. */
  function UnorderedPairs(n: nat): (r: seq<(nat, nat)>)
    ensures InRange(r, n)
  {
    UnorderedRows(n, n)
  }

  lemma {:induction false} OrderedRowsCount(k: nat, n: nat)
    requires k <= n
    ensures |OrderedRows(k, n)| == k * (n - 1)
  {
    if k > 0 {
      OrderedRowsCount(k - 1, n);
      assert k * (n - 1) == (k - 1) * (n - 1) + (n - 1);
    }
  }

  lemma {:induction false} OrderedRowsMembers(k: nat, n: nat)
    requires k <= n
    ensures forall p :: p in OrderedRows(k, n) <==> p.0 < k && p.1 < n && p.0 != p.1
  {
    if k > 0 {
      var a, b := OrderedRows(k - 1, n), OrderedRow(k - 1, n);
      OrderedRowsMembers(k - 1, n);
      OrderedRowMembers(k - 1, n);
      assert OrderedRows(k, n) == a + b;
      forall p ensures p in a + b <==> p in a || p in b { }
    }
  }

  lemma {:induction false} OrderedRowMembers(i: nat, m: nat)
    ensures forall p :: p in OrderedRow(i, m) <==> p.0 == i && p.1 < m && p.1 != i
  {
    if m > 0 { OrderedRowMembers(i, m - 1); }
  }

  /** There are n(n - 1) ordered pairs: every (y, x) of distinct columns, once. */
  lemma OrderedPairsFacts(n: nat)
    ensures |OrderedPairs(n)| == n * (n - 1)
    ensures forall p :: p in OrderedPairs(n) <==> p.0 < n && p.1 < n && p.0 != p.1
  {
    OrderedRowsCount(n, n);
    OrderedRowsMembers(n, n);
  }

  lemma {:induction false} UnorderedRowMembers(i: nat, m: nat)
    ensures forall p :: p in UnorderedRow(i, m) <==> p.0 == i && i < p.1 < m
  {
    if m > i + 1 { UnorderedRowMembers(i, m - 1); }
  }

  lemma {:induction false} UnorderedRowsCount(k: nat, n: nat)
    requires k <= n
    ensures 2 * |UnorderedRows(k, n)| == k * (2 * n - k - 1)
  {
    if k > 0 {
      UnorderedRowsCount(k - 1, n);
      var a := 2 * n - k - 1;
      assert k * a == (k - 1) * (a + 1) + 2 * (n - k) by {
        assert k * a == (k - 1) * a + a;
        assert (k - 1) * (a + 1) == (k - 1) * a + (k - 1);
      }
    }
  }

  lemma {:induction false} UnorderedRowsMembers(k: nat, n: nat)
    requires k <= n
    ensures forall p :: p in UnorderedRows(k, n) <==> p.0 < k && p.0 < p.1 < n
  {
    if k > 0 {
      var a, b := UnorderedRows(k - 1, n), UnorderedRow(k - 1, n);
      UnorderedRowsMembers(k - 1, n);
      UnorderedRowMembers(k - 1, n);
      assert UnorderedRows(k, n) == a + b;
      forall p ensures p in a + b <==> p in a || p in b { }
    }
  }

  /** There are n(n - 1)/2 unordered pairs: each pair of distinct columns once,
      the earlier column first. */
  lemma UnorderedPairsFacts(n: nat)
    ensures 2 * |UnorderedPairs(n)| == n * (n - 1)
    ensures forall p :: p in UnorderedPairs(n) <==> p.0 < p.1 < n
  {
    UnorderedRowsCount(n, n);
    UnorderedRowsMembers(n, n);
  }

  // ---------------------------------------------------------------------------
  // Collecting the per-pair outcomes
  // ---------------------------------------------------------------------------

  /** The present values, in order (the records a loop appends, skipping the
      pairs that produced none). */
  function Present<T>(s: seq<Option<T>>): (r: seq<T>)
    ensures |r| <= |s|
  {
    if s == [] then []
    else Present(s[..|s| - 1]) + (match s[|s| - 1] case Some(v) => [v] case None => [])
  }

  lemma PresentSnoc<T>(s: seq<Option<T>>, x: Option<T>)
    ensures Present(s + [x]) == Present(s) + (match x case Some(v) => [v] case None => [])
  {
    assert (s + [x])[..|s|] == s;
  }

  /** Every collected value was produced at some position, and conversely. */
  lemma {:induction false} PresentMembers<T>(s: seq<Option<T>>)
    ensures forall v :: v in Present(s) <==> exists k :: 0 <= k < |s| && s[k] == Some(v)
  {
    if s != [] {
      var init := s[..|s| - 1];
      PresentMembers(init);
      assert s == init + [s[|s| - 1]];
      forall v ensures v in Present(s) <==> exists k :: 0 <= k < |s| && s[k] == Some(v) {
        if v in Present(init) {
          var k :| 0 <= k < |init| && init[k] == Some(v);
          assert s[k] == Some(v);
        }
        if exists k :: 0 <= k < |s| && s[k] == Some(v) {
          var k :| 0 <= k < |s| && s[k] == Some(v);
          if k < |init| { assert init[k] == Some(v); }
        }
      }
    }
  }

  /** Nothing is collected exactly when no position produced a value. */
  lemma PresentEmpty<T>(s: seq<Option<T>>)
    ensures Present(s) == [] <==> forall k :: 0 <= k < |s| ==> s[k] == None
  {
    PresentMembers(s);
    if Present(s) != [] {
      assert Present(s)[0] in Present(s);
    }
  }
}

/** Visiting pairs of columns in order and appending what each pair yields to
    three lists, as the pairwise analyses do: the specification of the nested
    loops over i < j, and its agreement with a walk over the flat list of pairs. */
module PairCollect {
  import opened Common
  import opened Pairs

  /** What one pair adds: at most one entry to each of two lists, and its log lines. */
  datatype Outcome<E, L> = Outcome(first: Option<E>, second: Option<E>, lines: seq<L>)

  /** A loop's three lists: entries of the first kind, of the second kind, log lines. */
  datatype Collected<E, L> = Collected(first: seq<E>, second: seq<E>, logs: seq<L>)

  function Opt<E>(x: Option<E>): (r: seq<E>)
    ensures |r| <= 1 && (x.Some? ==> r == [x.value]) && (x.None? ==> r == [])
  {
    match x case Some(v) => [v] case None => []
  }

  /** The appends one pair makes. */
  function Add<E, L>(acc: Collected<E, L>, out: Outcome<E, L>): Collected<E, L>
  {
    Collected(acc.first + Opt(out.first), acc.second + Opt(out.second), acc.logs + out.lines)
  }

  /** The lists after `step` has been applied to the pairs `ps` in order, starting from `start`. */
  function CollectPairs<E, L>(step: (nat, nat) -> Outcome<E, L>, start: Collected<E, L>, ps: seq<(nat, nat)>): Collected<E, L>
  {
    if ps == [] then start
    else Add(CollectPairs(step, start, ps[..|ps| - 1]), step(ps[|ps| - 1].0, ps[|ps| - 1].1))
  }

  lemma PairsSnoc<E, L>(step: (nat, nat) -> Outcome<E, L>, start: Collected<E, L>, ps: seq<(nat, nat)>, p: (nat, nat))
    ensures CollectPairs(step, start, ps + [p]) == Add(CollectPairs(step, start, ps), step(p.0, p.1))
  {
    assert (ps + [p])[..|ps|] == ps;
  }

  lemma {:induction false} PairsConcat<E, L>(step: (nat, nat) -> Outcome<E, L>, start: Collected<E, L>, a: seq<(nat, nat)>, b: seq<(nat, nat)>)
    ensures CollectPairs(step, CollectPairs(step, start, a), b) == CollectPairs(step, start, a + b)
  {
    if b == [] {
      assert a + b == a;
    } else {
      var init, last := b[..|b| - 1], b[|b| - 1];
      PairsConcat(step, start, a, init);
      assert a + b == (a + init) + [last];
      PairsSnoc(step, start, a + init, last);
    }
  }

  /** An outcome never has a second entry without a first one, and has one or two log lines. */
  predicate Shaped<E, L>(out: Outcome<E, L>)
  {
    (out.second.Some? ==> out.first.Some?) && 1 <= |out.lines| <= 2
  }

  /** Each pair adds at most one entry to each list, never an entry of the second kind
      without one of the first, and one or two log lines. */
  lemma {:induction false} CollectCounts<E, L>(step: (nat, nat) -> Outcome<E, L>, start: Collected<E, L>, ps: seq<(nat, nat)>)
    requires forall k :: 0 <= k < |ps| ==> Shaped(step(ps[k].0, ps[k].1))
    ensures var c := CollectPairs(step, start, ps);
      |c.second| - |start.second| <= |c.first| - |start.first| <= |ps| &&
      |ps| <= |c.logs| - |start.logs| <= 2 * |ps|
  {
    if ps != [] {
      CollectCounts(step, start, ps[..|ps| - 1]);
      assert Shaped(step(ps[|ps| - 1].0, ps[|ps| - 1].1));
    }
  }

  /** What was collected before the loop stays at the head of each list, and
      every entry appended after it is the entry of a visited pair. */
  lemma {:induction false} CollectedFrom<E, L>(step: (nat, nat) -> Outcome<E, L>, start: Collected<E, L>, ps: seq<(nat, nat)>)
    ensures var c := CollectPairs(step, start, ps);
      start.first <= c.first && start.second <= c.second && start.logs <= c.logs
    ensures var c := CollectPairs(step, start, ps);
      forall m :: |start.first| <= m < |c.first| ==> exists k :: 0 <= k < |ps| && step(ps[k].0, ps[k].1).first == Some(c.first[m])
    ensures var c := CollectPairs(step, start, ps);
      forall m :: |start.second| <= m < |c.second| ==> exists k :: 0 <= k < |ps| && step(ps[k].0, ps[k].1).second == Some(c.second[m])
  {
    if ps != [] {
      var init := ps[..|ps| - 1];
      CollectedFrom(step, start, init);
      var acc, c := CollectPairs(step, start, init), CollectPairs(step, start, ps);
      forall m | |start.first| <= m < |c.first|
        ensures exists k :: 0 <= k < |ps| && step(ps[k].0, ps[k].1).first == Some(c.first[m])
      {
        if m < |acc.first| {
          var k :| 0 <= k < |init| && step(init[k].0, init[k].1).first == Some(acc.first[m]);
          assert ps[k] == init[k];
        } else {
          assert step(ps[|ps| - 1].0, ps[|ps| - 1].1).first == Some(c.first[m]);
        }
      }
      forall m | |start.second| <= m < |c.second|
        ensures exists k :: 0 <= k < |ps| && step(ps[k].0, ps[k].1).second == Some(c.second[m])
      {
        if m < |acc.second| {
          var k :| 0 <= k < |init| && step(init[k].0, init[k].1).second == Some(acc.second[m]);
          assert ps[k] == init[k];
        } else {
          assert step(ps[|ps| - 1].0, ps[|ps| - 1].1).second == Some(c.second[m]);
        }
      }
    }
  }

  /** One more step of the outer loop `for i in range(n)`: the row of pairs (k, j), k < j < n,
      walked after the rows before it. */
  lemma RowsStep<E, L>(step: (nat, nat) -> Outcome<E, L>, start: Collected<E, L>, k: nat, n: nat)
    requires k < n
    ensures CollectPairs(step, CollectPairs(step, start, UnorderedRows(k, n)), UnorderedRow(k, n)) ==
      CollectPairs(step, start, UnorderedRows(k + 1, n))
  {
    PairsConcat(step, start, UnorderedRows(k, n), UnorderedRow(k, n));
  }

  /** The inner loop `for j in range(i + 1, n)`: appends what each pair (i, j) yields. */
  method WalkRow<E, L>(step: (nat, nat) -> Outcome<E, L>, i: nat, n: nat, start: Collected<E, L>)
    returns (acc: Collected<E, L>)
    requires i < n
    ensures acc == CollectPairs(step, start, UnorderedRow(i, n))
  {
    acc := start;
    ghost var row: seq<(nat, nat)> := [];
    for j := i + 1 to n
      invariant row == UnorderedRow(i, j)
      invariant acc == CollectPairs(step, start, row)
    {
      var out := step(i, j);
      PairsSnoc(step, start, row, (i, j));
      acc := Add(acc, out);
      assert UnorderedRow(i, j + 1) == row + [(i, j)];
      row := row + [(i, j)];
    }
  }

  /** The nested loops `for i in range(n): for j in range(i + 1, n)`: the unordered
      pairs in order, each appending what it yields. */
  method WalkPairs<E, L>(step: (nat, nat) -> Outcome<E, L>, n: nat, start: Collected<E, L>)
    returns (acc: Collected<E, L>)
    ensures acc == CollectPairs(step, start, UnorderedPairs(n))
  {
    acc := start;
    for i := 0 to n
      invariant acc == CollectPairs(step, start, UnorderedRows(i, n))
    {
      acc := WalkRow(step, i, n, acc);
      RowsStep(step, start, i, n);
    }
  }

  /** When every visited pair yields exactly one entry of the first kind, none of
      the second and one log line, the k-th appended entry and line are pair k's. */
  lemma {:induction false} CollectEvery<E, L>(step: (nat, nat) -> Outcome<E, L>, start: Collected<E, L>, ps: seq<(nat, nat)>)
    requires forall k :: 0 <= k < |ps| ==>
      step(ps[k].0, ps[k].1).first.Some? && step(ps[k].0, ps[k].1).second.None? && |step(ps[k].0, ps[k].1).lines| == 1
    ensures var c := CollectPairs(step, start, ps);
      |c.first| == |start.first| + |ps| && c.second == start.second && |c.logs| == |start.logs| + |ps| &&
      c.first[..|start.first|] == start.first && c.logs[..|start.logs|] == start.logs &&
      forall k :: 0 <= k < |ps| ==>
        c.first[|start.first| + k] == step(ps[k].0, ps[k].1).first.value &&
        c.logs[|start.logs| + k] == step(ps[k].0, ps[k].1).lines[0]
  {
    if ps != [] {
      var init := ps[..|ps| - 1];
      CollectEvery(step, start, init);
      var acc := CollectPairs(step, start, init);
      var c := CollectPairs(step, start, ps);
      forall k | 0 <= k < |ps|
        ensures c.first[|start.first| + k] == step(ps[k].0, ps[k].1).first.value &&
                c.logs[|start.logs| + k] == step(ps[k].0, ps[k].1).lines[0]
      {
        if k < |init| {
          assert ps[k] == init[k];
          assert c.first[|start.first| + k] == acc.first[|start.first| + k];
          assert c.logs[|start.logs| + k] == acc.logs[|start.logs| + k];
        }
      }
    }
  }

  /** A loop `for (a, b) in pairs` over a list of pairs built beforehand. */
  method WalkList<E, L>(step: (nat, nat) -> Outcome<E, L>, ps: seq<(nat, nat)>, start: Collected<E, L>)
    returns (acc: Collected<E, L>)
    ensures acc == CollectPairs(step, start, ps)
  {
    acc := start;
    for k := 0 to |ps|
      invariant acc == CollectPairs(step, start, ps[..k])
    {
      var out := step(ps[k].0, ps[k].1);
      PairsSnoc(step, start, ps[..k], ps[k]);
      assert ps[..k + 1] == ps[..k] + [ps[k]];
      acc := Add(acc, out);
    }
    assert ps[..|ps|] == ps;
  }
}

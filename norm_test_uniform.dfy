/** The chi-square normality check of the test script
    (`chi_square_normality_test`): Sturges' bin count, expected counts from the
    fitted normal distribution, a buffer that collects bins until it expects at
    least 5 and a leftover buffer folded into the last category, then the
    statistic over the merged categories with df = categories - 3. The
    histogram, log10, the normal CDF, the standard deviation and the chi-square
    CDF are parameters. */
module NormTestUniform {
  import opened Common
  import opened Bins

  const MinExpectedFreq: real := 5.0
  /** Mean and standard deviation are estimated from the data. */
  const EstimatedParameters: nat := 2

  datatype Oracles = Oracles(
    /** `np.log10`. */
    log10: real -> real,
    /** `np.histogram(data, bins=k)`: the counts and the bin edges. */
    histogram: (seq<real>, nat) -> (seq<nat>, seq<real>),
    /** `np.std(data, ddof=1)`. */
    sampleStd: seq<real> -> real,
    /** `stats.norm.cdf(x, mu, sigma)`. */
    normCdf: (real, real, real) -> real,
    /** `stats.chi2.cdf(x, df)`. */
    chi2Cdf: (real, int) -> real)

  /** Histogram edges never decrease. */
  predicate RisingEdges(edges: seq<real>)
  {
    forall i, j :: 0 <= i <= j < |edges| ==> edges[i] <= edges[j]
  }

  /** A cumulative distribution function never decreases. */
  ghost predicate MonotoneCdf(o: Oracles)
  {
    forall x: real, y: real, mu: real, sigma: real :: x <= y ==> o.normCdf(x, mu, sigma) <= o.normCdf(y, mu, sigma)
  }

  // ---------------------------------------------------------------------------
  // Expected counts (lines 14-17)
  // ---------------------------------------------------------------------------

  /** The probability mass the fitted normal puts on bin `i`, times n. */
  function BinExpectation(edges: seq<real>, i: nat, mu: real, sigma: real, n: nat, cdf: (real, real, real) -> real): real
    requires i + 1 < |edges|
  {
    (cdf(edges[i + 1], mu, sigma) - cdf(edges[i], mu, sigma)) * (n as real)
  }

  lemma SumSnoc(s: seq<real>, x: real)
    ensures Sum(s + [x]) == Sum(s) + x
  {
    assert (s + [x])[..|s|] == s;
  }

  lemma TelescopeStep(a: real, b: real, c: real, n: real)
    ensures (b - a) * n + (c - b) * n == (c - a) * n
  {
  }

  /** One expected count per bin; their sum telescopes to n times the mass the
      fitted normal puts between the outer edges. */
  method ExpectedCounts(edges: seq<real>, mu: real, sigma: real, n: nat, o: Oracles) returns (expected: seq<real>)
    ensures |expected| == if |edges| == 0 then 0 else |edges| - 1
    ensures forall i :: 0 <= i < |expected| ==> expected[i] == BinExpectation(edges, i, mu, sigma, n, o.normCdf)
    ensures |edges| >= 1 ==>
      Sum(expected) == (o.normCdf(edges[|edges| - 1], mu, sigma) - o.normCdf(edges[0], mu, sigma)) * (n as real)
  {
    expected := [];
    if |edges| == 0 {
      return;
    }
    var nr := n as real;
    ghost var first := o.normCdf(edges[0], mu, sigma);
    var i := 0;
    while i < |edges| - 1
      invariant 0 <= i <= |edges| - 1
      invariant |expected| == i
      invariant forall k :: 0 <= k < i ==> expected[k] == BinExpectation(edges, k, mu, sigma, n, o.normCdf)
      invariant Sum(expected) == (o.normCdf(edges[i], mu, sigma) - first) * nr
    {
      var lo := o.normCdf(edges[i], mu, sigma);
      var hi := o.normCdf(edges[i + 1], mu, sigma);
      var e := (hi - lo) * nr;
      SumSnoc(expected, e);
      TelescopeStep(first, lo, hi, nr);
      expected := expected + [e];
      i := i + 1;
    }
  }

  /** Over rising edges a monotone CDF gives no negative expected count. */
  lemma ExpectedNonNegative(edges: seq<real>, mu: real, sigma: real, n: nat, o: Oracles, i: nat)
    requires MonotoneCdf(o) && RisingEdges(edges) && i + 1 < |edges|
    ensures BinExpectation(edges, i, mu, sigma, n, o.normCdf) >= 0.0
  {
    var d := o.normCdf(edges[i + 1], mu, sigma) - o.normCdf(edges[i], mu, sigma);
    assert edges[i] <= edges[i + 1];
    assert d >= 0.0;
    assert Product(d, n as real) >= 0.0;
  }

  /** Python's `zip`: pairs up to the shorter of the two lists. */
  function ZipShortest(obs: seq<nat>, exp: seq<real>): (bs: seq<Bin>)
    ensures |bs| == if |obs| <= |exp| then |obs| else |exp|
    ensures forall k :: 0 <= k < |bs| ==> bs[k] == Bin(obs[k], exp[k])
  {
    var m := if |obs| <= |exp| then |obs| else |exp|;
    seq(m, k requires 0 <= k < m => Bin(obs[k], exp[k]))
  }

  // ---------------------------------------------------------------------------
  // Buffer-and-flush merging (lines 19-39)
  // ---------------------------------------------------------------------------

  /** The loop state after the bins `bins[..i]`: the flushed categories group
      `bins[..start]`, each expecting at least 5, and the buffer holds the rest. */
  ghost predicate Buffering(bins: seq<Bin>, start: nat, i: nat, merged: seq<Bin>, cuts: seq<nat>, buffer: Bin)
  {
    start <= i <= |bins| &&
    Groups(bins[..start], merged, cuts) &&
    buffer == Total(bins[start..i]) &&
    forall k :: 0 <= k < |merged| ==> merged[k].exp >= MinExpectedFreq
  }

  lemma TotalSingle(b: Bin)
    ensures Total([b]) == b
  {
    assert [b][..0] == [];
  }

  /** The buffer reaches 5 and is flushed as a new category (lines 27-31). */
  lemma Flush(bins: seq<Bin>, start: nat, i: nat, merged: seq<Bin>, cuts: seq<nat>, buffer: Bin)
    requires Buffering(bins, start, i, merged, cuts, buffer) && i < |bins|
    requires Add(buffer, bins[i]).exp >= MinExpectedFreq
    ensures Buffering(bins, i + 1, i + 1, merged + [Add(buffer, bins[i])], cuts + [i + 1], Bin(0, 0.0))
  {
    assert bins[start..i + 1] == bins[start..i] + [bins[i]];
    TotalConcat(bins[start..i], [bins[i]]);
    TotalSingle(bins[i]);
    AppendGroup(bins, merged, cuts, start, i + 1);
    assert bins[i + 1..i + 1] == [];
  }

  /** The buffer takes one more bin (lines 25-26). */
  lemma Hold(bins: seq<Bin>, start: nat, i: nat, merged: seq<Bin>, cuts: seq<nat>, buffer: Bin)
    requires Buffering(bins, start, i, merged, cuts, buffer) && i < |bins|
    ensures Buffering(bins, start, i + 1, merged, cuts, Add(buffer, bins[i]))
  {
    assert bins[start..i + 1] == bins[start..i] + [bins[i]];
    TotalConcat(bins[start..i], [bins[i]]);
    TotalSingle(bins[i]);
  }

  /** The flushing rule, from bin `i` on, given the categories flushed so far
      and the buffer: add the bin to the buffer, and flush the buffer as a new
      category once it expects at least 5. The result is the categories and the
      buffer left at the end. */
  function FlushFrom(bins: seq<Bin>, i: nat, merged: seq<Bin>, buffer: Bin): (seq<Bin>, Bin)
    requires i <= |bins|
    decreases |bins| - i
  {
    if i == |bins| then (merged, buffer)
    else
      var next := Add(buffer, bins[i]);
      if next.exp >= MinExpectedFreq then FlushFrom(bins, i + 1, merged + [next], Bin(0, 0.0))
      else FlushFrom(bins, i + 1, merged, next)
  }

  /** The flushed categories and the leftover buffer of the whole sequence. */
  function Flushed(bins: seq<Bin>): (seq<Bin>, Bin)
  {
    FlushFrom(bins, 0, [], Bin(0, 0.0))
  }

  /** Lines 33-39: a leftover buffer that expects something positive is added
      to the last category, or forms the only one; any other is dropped. */
  function FoldLeftover(flushed: seq<Bin>, buffer: Bin): seq<Bin>
  {
    if buffer.exp > 0.0 then
      if |flushed| > 0 then flushed[..|flushed| - 1] + [Add(flushed[|flushed| - 1], buffer)]
      else [buffer]
    else flushed
  }

  /** The merge of lines 19-39: the flushed categories with the leftover folded in. */
  function Merged(bins: seq<Bin>): seq<Bin>
  {
    FoldLeftover(Flushed(bins).0, Flushed(bins).1)
  }

  lemma {:induction false} FlushFromReliable(bins: seq<Bin>, i: nat, merged: seq<Bin>)
    requires i <= |bins|
    requires forall k :: i <= k < |bins| ==> bins[k].exp >= MinExpectedFreq
    ensures FlushFrom(bins, i, merged, Bin(0, 0.0)) == (merged + bins[i..], Bin(0, 0.0))
    decreases |bins| - i
  {
    if i == |bins| {
      assert merged + bins[i..] == merged;
    } else {
      assert Add(Bin(0, 0.0), bins[i]) == bins[i];
      FlushFromReliable(bins, i + 1, merged + [bins[i]]);
      assert merged + [bins[i]] + bins[i + 1..] == merged + bins[i..];
    }
  }

  /** Bins that each expect at least 5 are kept as they are. */
  lemma NoMergingWhenReliable(bins: seq<Bin>)
    requires forall k :: 0 <= k < |bins| ==> bins[k].exp >= MinExpectedFreq
    ensures Merged(bins) == bins
  {
    FlushFromReliable(bins, 0, []);
    assert bins[0..] == bins;
  }

  /** The loop of lines 24-34: each bin goes into the buffer, and a buffer
      expecting at least 5 is flushed as a category. */
  method FlushWhenFull(bins: seq<Bin>) returns (merged: seq<Bin>, buffer: Bin, ghost cuts: seq<nat>, ghost start: nat)
    ensures merged == Flushed(bins).0 && buffer == Flushed(bins).1
    ensures Buffering(bins, start, |bins|, merged, cuts, buffer)
  {
    merged := [];
    cuts := [0];
    buffer := Bin(0, 0.0);
    start := 0;
    assert bins[..0] == [] && bins[0..0] == [];
    for i := 0 to |bins|
      invariant Buffering(bins, start, i, merged, cuts, buffer)
      invariant FlushFrom(bins, i, merged, buffer) == Flushed(bins)
    {
      var next := Add(buffer, bins[i]);
      if next.exp >= MinExpectedFreq {
        Flush(bins, start, i, merged, cuts, buffer);
        merged := merged + [next];
        cuts := cuts + [i + 1];
        start := i + 1;
        buffer := Bin(0, 0.0);
      } else {
        Hold(bins, start, i, merged, cuts, buffer);
        buffer := next;
      }
    }
  }

  /** What the merge keeps of the bins: the categories group the first `kept`
      bins, what is left out expects nothing positive, the totals are kept, every
      category expects something positive, and with two or more categories every
      one expects at least 5. */
  ghost predicate MergeOf(bins: seq<Bin>, merged: seq<Bin>, cuts: seq<nat>, kept: nat)
  {
    kept <= |bins| && Groups(bins[..kept], merged, cuts) &&
    (kept < |bins| ==> Total(bins[kept..]).exp <= 0.0) &&
    Total(bins) == Add(Total(merged), Total(bins[kept..])) && |merged| <= |bins| &&
    PositiveExpected(merged) &&
    (|merged| >= 2 ==> forall k :: 0 <= k < |merged| ==> merged[k].exp >= MinExpectedFreq)
  }

  /** A leftover of positive expectation joins the last flushed category. */
  lemma LeftoverIntoLast(bins: seq<Bin>, start: nat, flushed: seq<Bin>, cuts: seq<nat>, buffer: Bin)
    returns (cuts': seq<nat>)
    requires Buffering(bins, start, |bins|, flushed, cuts, buffer) && buffer.exp > 0.0 && flushed != []
    ensures MergeOf(bins, FoldLeftover(flushed, buffer), cuts', |bins|)
  {
    var merged := FoldLeftover(flushed, buffer);
    ExtendLastGroup(bins, flushed, cuts, start, |bins|);
    assert forall k :: 0 <= k < |merged| - 1 ==> merged[k] == flushed[k];
    cuts' := cuts[..|flushed|] + [|bins|];
    assert bins[|bins|..] == [];
    KeptTotals(bins, |bins|, merged, cuts');
  }

  /** With nothing flushed, a leftover of positive expectation is the only category. */
  lemma LeftoverAlone(bins: seq<Bin>, start: nat, flushed: seq<Bin>, cuts: seq<nat>, buffer: Bin)
    returns (cuts': seq<nat>)
    requires Buffering(bins, start, |bins|, flushed, cuts, buffer) && buffer.exp > 0.0 && flushed == []
    ensures MergeOf(bins, FoldLeftover(flushed, buffer), cuts', |bins|)
  {
    AppendGroup(bins, flushed, cuts, start, |bins|);
    cuts' := cuts + [|bins|];
    assert bins[|bins|..] == [];
    KeptTotals(bins, |bins|, [buffer], cuts');
  }

  /** A leftover expecting nothing positive is dropped. */
  lemma LeftoverDropped(bins: seq<Bin>, start: nat, flushed: seq<Bin>, cuts: seq<nat>, buffer: Bin)
    requires Buffering(bins, start, |bins|, flushed, cuts, buffer) && buffer.exp <= 0.0
    ensures MergeOf(bins, FoldLeftover(flushed, buffer), cuts, start)
  {
    assert bins[start..] == bins[start..|bins|];
    KeptTotals(bins, start, flushed, cuts);
  }

  /** Folding the leftover of a finished flush loop keeps the bins as above. */
  lemma FoldLeftoverFacts(bins: seq<Bin>, start: nat, flushed: seq<Bin>, cuts: seq<nat>, buffer: Bin)
    returns (cuts': seq<nat>, kept: nat)
    requires Buffering(bins, start, |bins|, flushed, cuts, buffer)
    ensures MergeOf(bins, FoldLeftover(flushed, buffer), cuts', kept)
  {
    if buffer.exp <= 0.0 {
      LeftoverDropped(bins, start, flushed, cuts, buffer);
      cuts', kept := cuts, start;
    } else if flushed != [] {
      cuts' := LeftoverIntoLast(bins, start, flushed, cuts, buffer);
      kept := |bins|;
    } else {
      cuts' := LeftoverAlone(bins, start, flushed, cuts, buffer);
      kept := |bins|;
    }
  }

  /** Merges the bins left to right. `kept` is how many of the original bins the
      categories cover: all of them, unless the leftover buffer expected nothing
      positive, in which case it is dropped, observed count included. */
  method MergeBuffered(bins: seq<Bin>) returns (merged: seq<Bin>, ghost cuts: seq<nat>, ghost kept: nat)
    ensures merged == Merged(bins)
    ensures MergeOf(bins, merged, cuts, kept)
  {
    var buffer;
    ghost var start;
    merged, buffer, cuts, start := FlushWhenFull(bins);
    ghost var flushed := merged;
    cuts, kept := FoldLeftoverFacts(bins, start, merged, cuts, buffer);
    if buffer.exp > 0.0 {
      if |merged| > 0 {
        merged := merged[..|merged| - 1] + [Add(merged[|merged| - 1], buffer)];
      } else {
        merged := merged + [buffer];
      }
    }
    assert merged == FoldLeftover(flushed, buffer);
  }

  /** Categories grouping the first `kept` bins, with the rest left out, keep the
      totals and number no more than the bins. */
  lemma KeptTotals(bins: seq<Bin>, kept: nat, merged: seq<Bin>, cuts: seq<nat>)
    requires kept <= |bins| && Groups(bins[..kept], merged, cuts)
    ensures Total(bins) == Add(Total(merged), Total(bins[kept..]))
    ensures |merged| <= |bins|
  {
    assert bins == bins[..kept] + bins[kept..];
    TotalConcat(bins[..kept], bins[kept..]);
    GroupsTotal(bins[..kept], merged, cuts);
    GroupsLength(bins[..kept], merged, cuts);
  }

  /** With no negative expectation, the dropped buffer expected exactly 0 and the
      merged categories keep the expected total. */
  lemma MergedExpectedTotal(bins: seq<Bin>, merged: seq<Bin>, kept: nat)
    requires kept <= |bins| && NonNegativeExpected(bins)
    requires kept < |bins| ==> Total(bins[kept..]).exp <= 0.0
    requires Total(bins) == Add(Total(merged), Total(bins[kept..]))
    ensures Total(merged).exp == Total(bins).exp
  {
    assert NonNegativeExpected(bins[kept..]);
    TotalNonNegative(bins[kept..]);
    if kept == |bins| { assert bins[kept..] == []; }
  }

  // ---------------------------------------------------------------------------
  // The statistic (lines 41-47)
  // ---------------------------------------------------------------------------

  /** `sum((o - e) ** 2 / e for o, e in zip(obs_final, exp_final))`. */
  function ChiSquareStatistic(bs: seq<Bin>): (r: real)
    requires PositiveExpected(bs)
    ensures r >= 0.0
    ensures r == 0.0 <==> forall k :: 0 <= k < |bs| ==> bs[k].obs as real == bs[k].exp
  {
    if bs == [] then 0.0
    else
      var b := bs[|bs| - 1];
      var d := b.obs as real - b.exp;
      var rest := ChiSquareStatistic(bs[..|bs| - 1]);
      var term := Product(d, d) / b.exp;
      assert d != 0.0 ==> term > 0.0;
      assert d == 0.0 ==> term == 0.0;
      assert forall k :: 0 <= k < |bs| - 1 ==> bs[..|bs| - 1][k] == bs[k];
      rest + term
  }

  /** What the function returns: statistic, p-value, categories used and degrees
      of freedom, or the sentinel `(None, None, 0, 0)`. */
  datatype Outcome = Outcome(statistic: Option<real>, pValue: Option<real>, binsUsed: nat, df: int)

  const Sentinel: Outcome := Outcome(None, None, 0, 0)

  /** What the function reports about the merged categories: the sentinel when
      df = categories - 3 is not positive, otherwise the non-negative statistic
      over them, its upper-tail p-value, their number and df. */
  predicate Reports(out: Outcome, merged: seq<Bin>, o: Oracles)
  {
    PositiveExpected(merged) &&
    (out == Sentinel <==> |merged| <= 1 + EstimatedParameters) &&
    (out != Sentinel ==>
      out.binsUsed == |merged| && out.df == |merged| - 1 - EstimatedParameters && out.df > 0 &&
      out.statistic == Some(ChiSquareStatistic(merged)) && out.statistic.value >= 0.0 &&
      out.pValue == Some(1.0 - o.chi2Cdf(out.statistic.value, out.df)) &&
      forall k :: 0 <= k < |merged| ==> merged[k].exp >= MinExpectedFreq)
  }

  /** Lines 19-47 on the paired counts and expectations: the report is about the
      categories the buffer-and-flush merge makes of these bins. */
  method MergeAndTest(bins: seq<Bin>, o: Oracles) returns (out: Outcome, ghost merged: seq<Bin>, ghost cuts: seq<nat>,
                                                         ghost kept: nat)
    ensures merged == Merged(bins)
    ensures kept <= |bins| && Groups(bins[..kept], merged, cuts)
    ensures Total(bins) == Add(Total(merged), Total(bins[kept..]))
    ensures kept < |bins| ==> Total(bins[kept..]).exp <= 0.0
    ensures Reports(out, merged, o)
  {
    var m;
    m, cuts, kept := MergeBuffered(bins);
    merged := m;
    var df := |m| - 1 - EstimatedParameters;
    if df <= 0 {
      return Sentinel, merged, cuts, kept;
    }
    var chi := ChiSquareStatistic(m);
    var p := 1.0 - o.chi2Cdf(chi, df);
    out := Outcome(Some(chi), Some(p), |m|, df);
  }

  /** The Sturges bin count of lines 9-10. */
  function BinCount(n: nat, o: Oracles): int
  {
    Ceil(1.0 + 3.322 * o.log10(n as real))
  }

  /** The histogram counts of the sample paired with the normal expectations of
      its bins (lines 11-17). */
  function SampleBins(data: seq<real>, o: Oracles): seq<Bin>
    requires |data| > 0 && BinCount(|data|, o) >= 1
  {
    var (observed, edges) := o.histogram(data, BinCount(|data|, o));
    var m := if |edges| == 0 then 0 else |edges| - 1;
    ZipShortest(observed, seq(m, i requires 0 <= i < m =>
                                BinExpectation(edges, i, Mean(data), o.sampleStd(data), |data|, o.normCdf)))
  }

  /** The whole check on one sample. For an empty sample log10 gives -inf and
      `int` of its ceiling raises OverflowError; a bin count below 1 makes
      `np.histogram` raise; either is the `Err` outcome. Otherwise the report
      is about the categories merged from the sample's histogram bins. */
  method ChiSquareNormalityTest(data: seq<real>, o: Oracles)
    returns (r: Result<Outcome, string>, ghost merged: seq<Bin>, ghost cuts: seq<nat>, ghost kept: nat)
    ensures |data| == 0 ==> r.Err?
    ensures |data| > 0 && o.log10(|data| as real) >= 0.0 ==> r.Ok?
    ensures r.Ok? ==>
      |data| > 0 && BinCount(|data|, o) >= 1 &&
      merged == Merged(SampleBins(data, o)) &&
      kept <= |SampleBins(data, o)| && Groups(SampleBins(data, o)[..kept], merged, cuts) &&
      Reports(r.value, merged, o)
  {
    merged, cuts, kept := [], [], 0;
    var n := |data|;
    if n == 0 {
      return Err("cannot convert float infinity to integer"), merged, cuts, kept;
    }
    var k := BinCount(n, o);
    if k < 1 {
      return Err("`bins` must be positive"), merged, cuts, kept;
    }
    var (observed, edges) := o.histogram(data, k);
    var mu := Mean(data);
    var sigma := o.sampleStd(data);
    var expected := ExpectedCounts(edges, mu, sigma, n, o);
    var m := if |edges| == 0 then 0 else |edges| - 1;
    assert expected == seq(m, i requires 0 <= i < m => BinExpectation(edges, i, mu, sigma, n, o.normCdf));
    var bins := ZipShortest(observed, expected);
    assert bins == SampleBins(data, o);
    var out;
    out, merged, cuts, kept := MergeAndTest(bins, o);
    r := Ok(out);
  }
}

/** The frontend's `calculateGlobalYDomain`: one y-axis range shared by the
    regression charts. It covers the y of every data point and every finite
    value the fitted models take at sample x positions across the data, with
    some padding. Evaluating a model (`calculateY` of the regression chart) is
    a parameter; numbers are exact reals. */
module ChartUtils {
  import opened Common

  /** A JavaScript number as `calculateY` may return it. */
  datatype JsNumber = Finite(v: real) | NaN | Infinity | NegativeInfinity

  datatype DataPoint = DataPoint(x: real, y: real)

  datatype Coefficient = Coefficient(variable_name: Option<string>, variableName: Option<string>, coefficient: real)

  /** A fitted model as the charts receive it; either spelling of the type
      field may be present. */
  datatype Model = Model(regression_type: Option<string>, regressionType: Option<string>,
                         coefficients: Option<seq<Coefficient>>)

  /** `calculateY(x, regType, coefficients)`. */
  type Evaluator = (real, string, seq<Coefficient>) -> JsNumber

  const SamplePoints: nat := 200

  // ---------------------------------------------------------------------------
  // Math.min / Math.max
  // ---------------------------------------------------------------------------

  function Min(s: seq<real>): (m: real)
    requires |s| > 0
    ensures m in s && forall k :: 0 <= k < |s| ==> m <= s[k]
  {
    if |s| == 1 then s[0]
    else
      var rest := Min(s[1..]);
      assert forall k :: 1 <= k < |s| ==> s[k] == s[1..][k - 1];
      if s[0] <= rest then s[0] else rest
  }

  function Max(s: seq<real>): (m: real)
    requires |s| > 0
    ensures m in s && forall k :: 0 <= k < |s| ==> s[k] <= m
  {
    if |s| == 1 then s[0]
    else
      var rest := Max(s[1..]);
      assert forall k :: 1 <= k < |s| ==> s[k] == s[1..][k - 1];
      if s[0] >= rest then s[0] else rest
  }

  // ---------------------------------------------------------------------------
  // The model's fields
  // ---------------------------------------------------------------------------

  /** `s1 || s2 || ""` on optional strings: the first one present and not empty. */
  function RegType(m: Model): (t: string)
    ensures m.regression_type.Some? && m.regression_type.value != "" ==> t == m.regression_type.value
    ensures (m.regression_type.None? || m.regression_type.value == "") ==>
      t == (if m.regressionType.Some? then m.regressionType.value else "")
  {
    if m.regression_type.Some? && m.regression_type.value != "" then m.regression_type.value
    else if m.regressionType.Some? && m.regressionType.value != "" then m.regressionType.value
    else ""
  }

  /** `model.coefficients || []`. */
  function CoefficientsOf(m: Model): (cs: seq<Coefficient>)
    ensures m.coefficients.Some? ==> cs == m.coefficients.value
    ensures m.coefficients.None? ==> cs == []
  {
    if m.coefficients.Some? then m.coefficients.value else []
  }

  // ---------------------------------------------------------------------------
  // The sample x positions
  // ---------------------------------------------------------------------------

  /** The k-th of `SamplePoints` evenly spaced positions from `xMin` to `xMax`. */
  function SampleX(xMin: real, xMax: real, k: nat): real
  {
    xMin + (k as real / (SamplePoints - 1) as real) * (xMax - xMin)
  }

  /** The positions the models are evaluated at: `SamplePoints` of them, or
      `xMin` alone when every x is the same. */
  function SampleXs(xMin: real, xMax: real): seq<real>
  {
    if xMax - xMin == 0.0 then [xMin] else seq(SamplePoints, k requires 0 <= k < SamplePoints => SampleX(xMin, xMax, k))
  }

  /** The positions start at `xMin`, end at `xMax`, are equally spaced and stay
      inside the range of the data. */
  lemma SampleXsSpanData(xMin: real, xMax: real)
    requires xMin <= xMax
    ensures var xs := SampleXs(xMin, xMax);
      xs[0] == xMin && xs[|xs| - 1] == xMax &&
      (xMin < xMax ==> |xs| == SamplePoints) && (xMin == xMax ==> xs == [xMin]) &&
      (forall k :: 0 <= k < |xs| ==> xMin <= xs[k] <= xMax) &&
      (forall k :: 0 <= k < |xs| - 1 ==> xs[k + 1] - xs[k] == (xMax - xMin) / (SamplePoints - 1) as real)
  {
    if xMin < xMax {
      var xs := SampleXs(xMin, xMax);
      var step := (xMax - xMin) / (SamplePoints - 1) as real;
      forall k | 0 <= k < |xs|
        ensures xs[k] == xMin + k as real * step && xMin <= xs[k] <= xMax
      {
        assert k as real / (SamplePoints - 1) as real <= 1.0;
      }
    }
  }

  /** Fills the `SamplePoints` positions into an array, as `Array.from` does,
      then cuts them down to `xMin` alone for a range of zero. */
  method SamplePositions(xMin: real, xMax: real) returns (xs: seq<real>)
    ensures xs == SampleXs(xMin, xMax)
  {
    var xRange := xMax - xMin;
    var a := new real[SamplePoints];
    for k := 0 to SamplePoints
      invariant forall j :: 0 <= j < k ==> a[j] == SampleX(xMin, xMax, j)
    {
      a[k] := xMin + (k as real / (SamplePoints - 1) as real) * xRange;
    }
    xs := a[..];
    if xRange == 0.0 {
      xs := [xMin];
    }
  }

  // ---------------------------------------------------------------------------
  // The values the domain must cover
  // ---------------------------------------------------------------------------

  function Ys(points: seq<DataPoint>): (ys: seq<real>)
    ensures |ys| == |points| && forall k :: 0 <= k < |points| ==> ys[k] == points[k].y
  {
    seq(|points|, k requires 0 <= k < |points| => points[k].y)
  }

  function Xs(points: seq<DataPoint>): (xs: seq<real>)
    ensures |xs| == |points| && forall k :: 0 <= k < |points| ==> xs[k] == points[k].x
  {
    seq(|points|, k requires 0 <= k < |points| => points[k].x)
  }

  /** The model's values at the positions, NaN and infinities dropped. */
  function FiniteValues(xs: seq<real>, m: Model, calculateY: Evaluator): (ys: seq<real>)
    ensures forall y :: y in ys <==> exists k :: 0 <= k < |xs| && calculateY(xs[k], RegType(m), CoefficientsOf(m)) == Finite(y)
  {
    if xs == [] then []
    else
      var rest := FiniteValues(xs[..|xs| - 1], m, calculateY);
      assert forall k :: 0 <= k < |xs| - 1 ==> xs[k] == xs[..|xs| - 1][k];
      match calculateY(xs[|xs| - 1], RegType(m), CoefficientsOf(m))
      case Finite(y) => rest + [y]
      case _ => rest
  }

  /** The finite values of the models, model after model. */
  function ModelValues(xs: seq<real>, models: seq<Model>, calculateY: Evaluator): seq<real>
  {
    if models == [] then []
    else ModelValues(xs, models[..|models| - 1], calculateY) + FiniteValues(xs, models[|models| - 1], calculateY)
  }

  /** `y` is what some model gives, finite, at some position. */
  ghost predicate ModelValue(xs: seq<real>, models: seq<Model>, calculateY: Evaluator, y: real)
  {
    exists i, k :: 0 <= i < |models| && 0 <= k < |xs| &&
                   calculateY(xs[k], RegType(models[i]), CoefficientsOf(models[i])) == Finite(y)
  }

  /** `y` is the y of some data point. */
  ghost predicate DataValue(points: seq<DataPoint>, y: real)
  {
    exists k :: 0 <= k < |points| && points[k].y == y
  }

  /** Every finite value of every model at every position is among the values. */
  lemma {:induction false} ModelValuesCover(xs: seq<real>, models: seq<Model>, calculateY: Evaluator, i: nat, k: nat)
    requires i < |models| && k < |xs| && calculateY(xs[k], RegType(models[i]), CoefficientsOf(models[i])).Finite?
    ensures calculateY(xs[k], RegType(models[i]), CoefficientsOf(models[i])).v in ModelValues(xs, models, calculateY)
  {
    if i < |models| - 1 {
      ModelValuesCover(xs, models[..|models| - 1], calculateY, i, k);
    }
  }

  /** Every one of the values is a finite value of some model at some position. */
  lemma {:induction false} ModelValuesFinite(xs: seq<real>, models: seq<Model>, calculateY: Evaluator, y: real)
    requires y in ModelValues(xs, models, calculateY)
    ensures ModelValue(xs, models, calculateY, y)
  {
    var last := |models| - 1;
    if y in ModelValues(xs, models[..last], calculateY) {
      ModelValuesFinite(xs, models[..last], calculateY, y);
      var i, k :| 0 <= i < last && 0 <= k < |xs| &&
                  calculateY(xs[k], RegType(models[..last][i]), CoefficientsOf(models[..last][i])) == Finite(y);
      assert models[..last][i] == models[i];
    } else {
      assert y in FiniteValues(xs, models[last], calculateY);
    }
  }

  /** The values to cover are exactly the data's y values and the models'
      finite values at the positions. */
  lemma YValuesExactly(points: seq<DataPoint>, xs: seq<real>, models: seq<Model>, calculateY: Evaluator, y: real)
    ensures y in Ys(points) + ModelValues(xs, models, calculateY) <==>
      DataValue(points, y) || ModelValue(xs, models, calculateY, y)
  {
    if y in Ys(points) {
      var k :| 0 <= k < |Ys(points)| && Ys(points)[k] == y;
    } else if y in ModelValues(xs, models, calculateY) {
      ModelValuesFinite(xs, models, calculateY, y);
    }
    if DataValue(points, y) {
      var k :| 0 <= k < |points| && points[k].y == y;
      assert Ys(points)[k] == y;
    }
    if ModelValue(xs, models, calculateY, y) {
      var i, k :| 0 <= i < |models| && 0 <= k < |xs| &&
                  calculateY(xs[k], RegType(models[i]), CoefficientsOf(models[i])) == Finite(y);
      ModelValuesCover(xs, models, calculateY, i, k);
    }
  }

  /** The sample positions for the data: across its x values. */
  function Positions(points: seq<DataPoint>): seq<real>
    requires |points| > 0
  {
    SampleXs(Min(Xs(points)), Max(Xs(points)))
  }

  /** All the y values the domain must cover: the data's, then the models'
      finite values at the sample positions (only when there are models). */
  function AllYValues(points: seq<DataPoint>, models: Option<seq<Model>>, calculateY: Evaluator): (ys: seq<real>)
    requires |points| > 0
    ensures ys == Ys(points) + ModelValues(Positions(points), if models.Some? then models.value else [], calculateY)
  {
    if models.None? || models.value == [] then
      assert Ys(points) + [] == Ys(points);
      Ys(points)
    else Ys(points) + ModelValues(Positions(points), models.value, calculateY)
  }

  // ---------------------------------------------------------------------------
  // The padded domain
  // ---------------------------------------------------------------------------

  /** `Math.max((yMax - yMin) * 0.1, 0.1)`. */
  function Padding(yMin: real, yMax: real): (p: real)
    ensures p >= 0.1 && p >= (yMax - yMin) * 0.1
    ensures p == 0.1 || p == (yMax - yMin) * 0.1
  {
    if (yMax - yMin) * 0.1 >= 0.1 then (yMax - yMin) * 0.1 else 0.1
  }

  /** The smallest and largest value, each moved out by the padding. */
  function PaddedDomain(values: seq<real>): (real, real)
    requires |values| > 0
  {
    var p := Padding(Min(values), Max(values));
    (Min(values) - p, Max(values) + p)
  }

  /** Every value lies strictly inside the padded domain, which is at least
      0.2 wide; its ends moved back in by the padding are the smallest and the
      largest value. */
  lemma PaddedDomainBounds(values: seq<real>)
    requires |values| > 0
    ensures forall k :: 0 <= k < |values| ==> PaddedDomain(values).0 < values[k] < PaddedDomain(values).1
    ensures PaddedDomain(values).1 - PaddedDomain(values).0 >= 0.2
    ensures PaddedDomain(values).0 + Padding(Min(values), Max(values)) == Min(values)
    ensures PaddedDomain(values).1 - Padding(Min(values), Max(values)) == Max(values)
  {
    assert Min(values) <= Max(values) by { assert Min(values) <= values[0] <= Max(values); }
  }

  /** The last step: the smallest and largest value, padded. */
  method PadRange(allYValues: seq<real>) returns (domain: (real, real))
    requires |allYValues| > 0
    ensures domain == PaddedDomain(allYValues)
  {
    var yMin := Min(allYValues);
    var yMax := Max(allYValues);
    var yPadding := Padding(yMin, yMax);
    domain := (yMin - yPadding, yMax + yPadding);
  }

  /** The `forEach` over the models: each model's finite values at the
      positions are appended to the values. */
  method AddModelValues(values: seq<real>, xs: seq<real>, models: seq<Model>, calculateY: Evaluator)
    returns (allYValues: seq<real>)
    ensures allYValues == values + ModelValues(xs, models, calculateY)
  {
    allYValues := values;
    for i := 0 to |models|
      invariant allYValues == values + ModelValues(xs, models[..i], calculateY)
    {
      assert models[..i + 1][..i] == models[..i];
      allYValues := allYValues + FiniteValues(xs, models[i], calculateY);
    }
    assert models[..|models|] == models;
  }

  /** `calculateGlobalYDomain`: nothing without data points; otherwise the
      padded range of the data's y values and of the models' finite values
      across the sample positions. */
  method GlobalYDomain(dataPoints: Option<seq<DataPoint>>, models: Option<seq<Model>>, calculateY: Evaluator)
    returns (domain: Option<(real, real)>)
    ensures dataPoints.None? || dataPoints.value == [] <==> domain.None?
    ensures domain.Some? ==> domain.value == PaddedDomain(AllYValues(dataPoints.value, models, calculateY))
  {
    if dataPoints.None? || |dataPoints.value| == 0 {
      return None;
    }
    var points := dataPoints.value;
    var allYValues := Ys(points);
    if models.Some? && |models.value| > 0 {
      var xData := Xs(points);
      var xs := SamplePositions(Min(xData), Max(xData));
      assert xs == Positions(points);
      allYValues := AddModelValues(allYValues, xs, models.value, calculateY);
    }
    var yDomain := PadRange(allYValues);
    domain := Some(yDomain);
  }

  /** The domain holds the y of every data point and every finite value of
      every model at every position; NaN and infinite values play no part. */
  lemma DomainCovers(points: seq<DataPoint>, xs: seq<real>, models: seq<Model>, calculateY: Evaluator, y: real)
    requires |points| > 0
    requires DataValue(points, y) || ModelValue(xs, models, calculateY, y)
    ensures var d := PaddedDomain(Ys(points) + ModelValues(xs, models, calculateY));
      d.0 < y < d.1
  {
    YValuesExactly(points, xs, models, calculateY, y);
    PaddedDomainBounds(Ys(points) + ModelValues(xs, models, calculateY));
  }

  /** The domain is no wider than it must be: the lowest and highest values it
      pads (see `PaddedDomain`) are values of the data or finite values of a
      model. */
  lemma DomainIsTight(points: seq<DataPoint>, xs: seq<real>, models: seq<Model>, calculateY: Evaluator)
    requires |points| > 0
    ensures var values := Ys(points) + ModelValues(xs, models, calculateY);
      (DataValue(points, Min(values)) || ModelValue(xs, models, calculateY, Min(values))) &&
      (DataValue(points, Max(values)) || ModelValue(xs, models, calculateY, Max(values)))
  {
    var values := Ys(points) + ModelValues(xs, models, calculateY);
    YValuesExactly(points, xs, models, calculateY, Min(values));
    YValuesExactly(points, xs, models, calculateY, Max(values));
  }
}

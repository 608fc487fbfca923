/** Shared vocabulary of the model: optional and failing values, Python floats
    that may be NaN, the tabular dataset the Python analysis modules receive,
    exact sums and variances over reals, and the decimal integer conversions
    the Go and TypeScript code relies on. */
module Common {

  datatype Option<T> = None | Some(value: T)

  datatype Result<T, E> = Ok(value: T) | Err(error: E)

  /** A Python float field that the source may set to `np.nan` ("not computed"). */
  datatype Stat = NaN | Num(v: real)

  /** Python's `p < alpha` on a float that may be NaN: every comparison with NaN is False. */
  predicate Below(p: Stat, alpha: real)
  {
    p.Num? && p.v < alpha
  }

  /** Python's `p > alpha` on a float that may be NaN. */
  predicate Above(p: Stat, alpha: real)
  {
    p.Num? && p.v > alpha
  }

  function Abs(x: real): (r: real)
    ensures r >= 0.0 && (r == x || r == -x)
  {
    if x < 0.0 then -x else x
  }

  // ---------------------------------------------------------------------------
  // Tabular data (a pandas DataFrame as the analysis modules see it)
  // ---------------------------------------------------------------------------

  /** One cell: missing (NaN/None), a number, or text. */
  datatype Cell = Missing | NumCell(r: real) | TextCell(s: string)

  /** The pandas dtype classes the modules distinguish. `np.number` covers Int and
      Float; `is_numeric_dtype` also accepts Bool. */
  datatype DType = IntDtype | FloatDtype | BoolDtype | ObjectDtype

  datatype Column = Column(name: string, dtype: DType, cells: seq<Cell>)

  datatype Frame = Frame(columns: seq<Column>, rowCount: nat)

  /** Every column has one cell per row, and numeric columns hold no text. */
  ghost predicate WellFormed(f: Frame)
  {
    forall c :: c in f.columns ==>
      |c.cells| == f.rowCount &&
      (c.dtype != ObjectDtype ==> forall k :: 0 <= k < |c.cells| ==> !c.cells[k].TextCell?)
  }

  /** `select_dtypes(include=np.number)`: integer and float columns. */
  predicate IsNumberDtype(d: DType) { d == IntDtype || d == FloatDtype }

  /** The columns `select_dtypes(include=np.number)` keeps, in frame order. */
  function NumericColumns(cols: seq<Column>): (r: seq<Column>)
    ensures |r| <= |cols|
    ensures forall c :: c in r ==> c in cols && IsNumberDtype(c.dtype)
    ensures forall c :: c in cols && IsNumberDtype(c.dtype) ==> c in r
  {
    if cols == [] then []
    else
      var rest := NumericColumns(cols[..|cols| - 1]);
      var last := cols[|cols| - 1];
      assert cols == cols[..|cols| - 1] + [last];
      if IsNumberDtype(last.dtype) then rest + [last] else rest
  }

  /** The column names, in order (`list(cols)`). */
  function ColumnNames(cols: seq<Column>): (r: seq<string>)
    ensures |r| == |cols| && forall k :: 0 <= k < |cols| ==> r[k] == cols[k].name
  {
    seq(|cols|, k requires 0 <= k < |cols| => cols[k].name)
  }

  /** The first column called `name` (a lookup `df[name]` or `name in cols`). */
  function ColumnIndex(cols: seq<Column>, name: string): (r: Option<nat>)
    ensures r.Some? ==> r.value < |cols| && cols[r.value].name == name
    ensures r.Some? ==> forall k :: 0 <= k < r.value ==> cols[k].name != name
    ensures r.None? <==> forall k :: 0 <= k < |cols| ==> cols[k].name != name
  {
    if cols == [] then None
    else if cols[0].name == name then Some(0)
    else
      match ColumnIndex(cols[1..], name)
      case None => None
      case Some(k) => Some(k + 1)
  }

  /** `df[col].dropna()`: the present numeric values, in row order. */
  function PresentValues(cells: seq<Cell>): (r: seq<real>)
    ensures |r| <= |cells|
    ensures forall x :: x in r <==> NumCell(x) in cells
  {
    if cells == [] then []
    else
      var rest := PresentValues(cells[..|cells| - 1]);
      assert cells == cells[..|cells| - 1] + [cells[|cells| - 1]];
      match cells[|cells| - 1]
      case NumCell(x) => rest + [x]
      case _ => rest
  }

  /** One more row keeps the earlier present values and adds its own, if numeric. */
  lemma PresentValuesSnoc(init: seq<Cell>, last: Cell)
    ensures PresentValues(init + [last]) ==
            PresentValues(init) + (if last.NumCell? then [last.r] else [])
  {
    var c := init + [last];
    assert c[..|c| - 1] == init;
  }

  /** Dropping missing values commutes with concatenation: the present values
      of the later rows follow those of the earlier ones, in row order. */
  lemma {:induction false} PresentValuesAppend(a: seq<Cell>, b: seq<Cell>)
    ensures PresentValues(a + b) == PresentValues(a) + PresentValues(b)
    decreases |b|
  {
    if b == [] {
      assert a + b == a;
    } else {
      var init, last := b[..|b| - 1], b[|b| - 1];
      assert b == init + [last];
      assert a + b == (a + init) + [last];
      PresentValuesAppend(a, init);
      PresentValuesSnoc(a + init, last);
      PresentValuesSnoc(init, last);
    }
  }

  /** `df[[a, b]].dropna()`: the rows where both cells hold a number, as pairs
      (the columns of a frame have equal length; the shorter one bounds the rows). */
  function CompleteRows(a: seq<Cell>, b: seq<Cell>): (r: seq<(real, real)>)
    ensures |r| <= |a| && |r| <= |b|
  {
    CompleteRowsUpTo(a, b, if |a| <= |b| then |a| else |b|)
  }

  function CompleteRowsUpTo(a: seq<Cell>, b: seq<Cell>, m: nat): (r: seq<(real, real)>)
    requires m <= |a| && m <= |b|
    ensures |r| <= m
  {
    if m == 0 then []
    else
      var rest := CompleteRowsUpTo(a, b, m - 1);
      if a[m - 1].NumCell? && b[m - 1].NumCell? then rest + [(a[m - 1].r, b[m - 1].r)] else rest
  }

  function Firsts(ps: seq<(real, real)>): (r: seq<real>)
    ensures |r| == |ps| && forall k :: 0 <= k < |ps| ==> r[k] == ps[k].0
  {
    seq(|ps|, k requires 0 <= k < |ps| => ps[k].0)
  }

  function Seconds(ps: seq<(real, real)>): (r: seq<real>)
    ensures |r| == |ps| && forall k :: 0 <= k < |ps| ==> r[k] == ps[k].1
  {
    seq(|ps|, k requires 0 <= k < |ps| => ps[k].1)
  }

  // ---------------------------------------------------------------------------
  // Exact sums, means and variances
  // ---------------------------------------------------------------------------

  function Sum(s: seq<real>): real
  {
    if s == [] then 0.0 else Sum(s[..|s| - 1]) + s[|s| - 1]
  }

  lemma {:induction false} SumConcat(a: seq<real>, b: seq<real>)
    ensures Sum(a + b) == Sum(a) + Sum(b)
  {
    if b != [] {
      var b' := b[..|b| - 1];
      assert (a + b)[..|a + b| - 1] == a + b';
      SumConcat(a, b');
    } else {
      assert a + b == a;
    }
  }

  lemma {:induction false} SumNonNegative(s: seq<real>)
    requires forall k :: 0 <= k < |s| ==> s[k] >= 0.0
    ensures Sum(s) >= 0.0
  {
    if s != [] { SumNonNegative(s[..|s| - 1]); }
  }

  ghost predicate Constant(s: seq<real>)
  {
    forall i, j :: 0 <= i < |s| && 0 <= j < |s| ==> s[i] == s[j]
  }

  function Mean(s: seq<real>): real
    requires |s| > 0
  {
    Sum(s) / (|s| as real)
  }

  /** Real multiplication, with the sign facts the variance proofs need stated on
      two separate factors (so a square is `Product(d, d)`). */
  function Product(a: real, b: real): (r: real)
    ensures (a > 0.0 && b > 0.0) || (a < 0.0 && b < 0.0) ==> r > 0.0
    ensures a == 0.0 || b == 0.0 ==> r == 0.0
  {
    a * b
  }

  /** Sum of squared deviations from `m`. */
  function SquaredDeviations(s: seq<real>, m: real): (r: real)
    ensures r >= 0.0
  {
    if s == [] then 0.0
    else
      var d := s[|s| - 1] - m;
      SquaredDeviations(s[..|s| - 1], m) + Product(d, d)
  }

  /** pandas `Series.var()` (ddof = 1); undefined (NaN) below two values. */
  function SampleVariance(s: seq<real>): Stat
  {
    if |s| < 2 then NaN else Num(SquaredDeviations(s, Mean(s)) / ((|s| - 1) as real))
  }

  /** numpy `np.var` (ddof = 0). */
  function PopulationVariance(s: seq<real>): (r: real)
    requires |s| > 0
    ensures r >= 0.0
  {
    SquaredDeviations(s, Mean(s)) / (|s| as real)
  }

  lemma {:induction false} SquaredDeviationsZero(s: seq<real>, m: real)
    ensures SquaredDeviations(s, m) == 0.0 <==> forall k :: 0 <= k < |s| ==> s[k] == m
  {
    if s != [] {
      var init := s[..|s| - 1];
      SquaredDeviationsZero(init, m);
      if SquaredDeviations(s, m) == 0.0 {
        forall k | 0 <= k < |s| ensures s[k] == m {
          if k < |init| { assert s[k] == init[k]; }
        }
      }
      if forall k :: 0 <= k < |s| ==> s[k] == m {
        forall k | 0 <= k < |init| ensures init[k] == m { assert init[k] == s[k]; }
      }
    }
  }

  lemma {:induction false} SumConstant(s: seq<real>, c: real)
    requires forall k :: 0 <= k < |s| ==> s[k] == c
    ensures Sum(s) == (|s| as real) * c
  {
    if s != [] { SumConstant(s[..|s| - 1], c); }
  }

  /** A sample variance of exactly zero means every value is the same, and
      conversely: the source's `var() == 0` checks are "the column is constant". */
  lemma VarianceZeroIffConstant(s: seq<real>)
    requires |s| >= 2
    ensures SampleVariance(s) == Num(0.0) <==> Constant(s)
  {
    var m := Mean(s);
    var n := (|s| - 1) as real;
    SquaredDeviationsZero(s, m);
    if Constant(s) {
      SumConstant(s, s[0]);
      assert m == s[0];
      assert forall k :: 0 <= k < |s| ==> s[k] == m;
    }
    if SampleVariance(s) == Num(0.0) {
      assert SquaredDeviations(s, m) / n == 0.0;
      assert SquaredDeviations(s, m) == 0.0;
    }
  }

  // ---------------------------------------------------------------------------
  // Reals to integers
  // ---------------------------------------------------------------------------

  /** `np.ceil` followed by `int(...)`. */
  function Ceil(r: real): (c: int)
    ensures r <= c as real < r + 1.0
  {
    -((-r).Floor)
  }

  /** Truncation toward zero: Go's `int(f)` and Python's `int(f)` on a float. */
  function Trunc(r: real): (t: int)
    ensures r >= 0.0 ==> 0.0 <= t as real <= r < t as real + 1.0
    ensures r < 0.0 ==> t as real - 1.0 < r <= t as real <= 0.0
  {
    if r >= 0.0 then r.Floor else -((-r).Floor)
  }

  // ---------------------------------------------------------------------------
  // Strings
  // ---------------------------------------------------------------------------

  predicate HasPrefix(s: string, p: string)
  {
    |p| <= |s| && s[..|p|] == p
  }

  predicate HasSuffix(s: string, p: string)
  {
    |p| <= |s| && s[|s| - |p|..] == p
  }

  predicate IsDigit(c: char) { '0' <= c <= '9' }

  function DigitValue(c: char): nat
    requires IsDigit(c)
  {
    (c as int) - ('0' as int)
  }

  function DigitChar(d: nat): (c: char)
    requires d < 10
    ensures IsDigit(c) && DigitValue(c) == d
  {
    (('0' as int) + d) as char
  }

  /** Value of a string of decimal digits. */
  function DecimalValue(ds: string): nat
    requires forall k :: 0 <= k < |ds| ==> IsDigit(ds[k])
  {
    if ds == [] then 0 else DecimalValue(ds[..|ds| - 1]) * 10 + DigitValue(ds[|ds| - 1])
  }

  /** The shortest decimal digits of a natural number. */
  function Digits(n: nat): (ds: string)
    ensures |ds| >= 1 && forall k :: 0 <= k < |ds| ==> IsDigit(ds[k])
  {
    if n < 10 then [DigitChar(n)] else Digits(n / 10) + [DigitChar(n % 10)]
  }

  lemma {:induction false} DigitsValue(n: nat)
    ensures DecimalValue(Digits(n)) == n
  {
    if n >= 10 {
      var ds := Digits(n);
      assert ds[..|ds| - 1] == Digits(n / 10);
      DigitsValue(n / 10);
    }
  }

  /** `fmt.Sprint` of a Go int, `strconv.Itoa`, and JavaScript `Number.prototype.toString`
      on an integer: optional '-' then the shortest decimal digits. */
  function Itoa(k: int): (s: string)
    ensures |s| >= 1
  {
    if k < 0 then "-" + Digits(-k) else Digits(k)
  }

  const MinInt64: int := -0x8000_0000_0000_0000
  const MaxInt64: int := 0x7FFF_FFFF_FFFF_FFFF

  predicate AllDigits(ds: string)
  {
    forall k :: 0 <= k < |ds| ==> IsDigit(ds[k])
  }

  /** A leading '-' or '+' split off from the digits that follow it. */
  function SplitSign(s: string): (r: (bool, string))
    requires |s| > 0
    ensures r.1 == s || r.1 == s[1..]
  {
    if s[0] == '-' then (true, s[1..])
    else if s[0] == '+' then (false, s[1..])
    else (false, s)
  }

  /** Go `strconv.Atoi` on a 64-bit platform: an optional sign, then one or more
      ASCII digits (leading zeros allowed), whose value must fit in an int64. */
  function Atoi(s: string): (r: Option<int>)
    ensures r.Some? ==> MinInt64 <= r.value <= MaxInt64
    ensures r.Some? ==> |s| > 0 && AllDigits(SplitSign(s).1) && |SplitSign(s).1| > 0
  {
    if s == [] then None
    else
      var (neg, body) := SplitSign(s);
      if body == [] || !AllDigits(body) then None
      else
        var mag: int := DecimalValue(body);
        var v: int := if neg then -mag else mag;
        if MinInt64 <= v <= MaxInt64 then Some(v) else None
  }

  /** Parsing what `Itoa` prints gives the number back, for every int64. */
  lemma AtoiItoa(k: int)
    requires MinInt64 <= k <= MaxInt64
    ensures Atoi(Itoa(k)) == Some(k)
  {
    var s := Itoa(k);
    if k < 0 {
      var ds := Digits(-k);
      DigitsValue(-k);
      assert s == "-" + ds;
      assert s[0] == '-' && s[1..] == ds;
      assert SplitSign(s) == (true, ds);
    } else {
      var ds := Digits(k);
      DigitsValue(k);
      assert s == ds;
      assert IsDigit(s[0]);
      assert SplitSign(s) == (false, ds);
    }
  }

  /** UTF-8 length in bytes of a string of Unicode scalar values (Go's `len`). */
  function Utf8Length(s: string): (n: nat)
    ensures n >= |s|
    ensures n <= 4 * |s|
  {
    if s == [] then 0
    else
      var c := s[|s| - 1] as int;
      Utf8Length(s[..|s| - 1]) + (if c < 0x80 then 1 else if c < 0x800 then 2 else if c < 0x1_0000 then 3 else 4)
  }
}

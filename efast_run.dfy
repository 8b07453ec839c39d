/**
 * The eFAST lab of the runner package (`EFastLab`). Parameters are registered one by one:
 * a single value makes a certain parameter, a `(min, max, distribution)` triple an uncertain
 * one. The sample matrix follows the extended Fourier Amplitude Sensitivity Test: every
 * uncertain parameter in turn is the parameter of interest, driven at the main frequency
 * while the others run at complementary frequencies, once per resample.
 *
 * The settings (`runs`, `resamples`, `max_fourier_coeffs`) are natural numbers. The random
 * phase shift is the input `phase(i, l, c)` (parameter of interest, resample, column), and the
 * search curve `0.5 + asin(sin(om * s_r + phase)) / pi` is the input
 * `curve(om, r, ns, phase)`.
 */
module EfastRun {
  import opened Common

  /** The only distribution name `addParameter` accepts. */
  const UNIFORM_DISTRIBUTION: string := "uniform_distribution"

  /** Python 2 `<` on two strings: lexicographic by character. */
  function StrLess(a: string, b: string): (r: bool)
    ensures a == b ==> !r
    ensures r && a != [] ==> b != [] && a[0] <= b[0]
  {
    if a == [] then b != []
    else if b == [] then false
    else if a[0] < b[0] then true
    else if a[0] == b[0] then StrLess(a[1..], b[1..])
    else false
  }

  /** Python 2 `<` on two values: numbers by size, strings lexicographically, and any number
    * below any string. */
  function PyLess(a: Value, b: Value): (r: bool)
    ensures a == b ==> !r
    ensures a.Num? && b.Num? ==> (r <==> a.x < b.x)
    ensures a.Num? && b.Text? ==> r
    ensures a.Text? && b.Num? ==> !r
  {
    match (a, b)
    case (Num(x), Num(y)) => x < y
    case (Num(_), Text(_)) => true
    case (Text(_), Num(_)) => false
    case (Text(s), Text(t)) => StrLess(s, t)
  }

  /** What `addParameter` stores for a range, or the assertion it fails. */
  function Admission(arg: Argument): (r: Result<seq<Value>>)
    ensures arg.Single? ==> r == Ok([arg.v])
    ensures arg.Several? ==>
      (r.Ok? <==> |arg.vs| == 3 && PyLess(arg.vs[0], arg.vs[1]) && arg.vs[2] == Text(UNIFORM_DISTRIBUTION))
    ensures arg.Several? && r.Ok? ==> r.value == arg.vs
    ensures r.Err? ==> r.error == AssertionError
  {
    match arg
    case Single(v) => Ok([v])
    case Several(vs) =>
      if |vs| != 3 then Err(AssertionError)
      else if !PyLess(vs[0], vs[1]) then Err(AssertionError)
      else if vs[2] != Text(UNIFORM_DISTRIBUTION) then Err(AssertionError)
      else Ok(vs)
  }

  /** The lab's bookkeeping: every listed name has a stored, non-empty range, and every stored
    * range belongs to a listed name. */
  ghost predicate Registered(certain: seq<string>, uncertain: seq<string>, params: map<string, seq<Value>>) {
    (forall n :: n in certain ==> n in params) &&
    (forall n :: n in uncertain ==> n in params) &&
    (forall n :: n in params ==> params[n] != [] && (n in certain || n in uncertain))
  }

  // ---------------------------------------------------------------------------------------
  // Frequencies

  /** `parameter_frequency`: Python 2 integer divisions, in the order the program writes them. */
  function ParameterFrequency(runs: nat, k: nat, resamples: nat, m: nat): int
    requires k > 0 && resamples > 0 && m > 0
  {
    FloorDiv(FloorDiv(FloorDiv(runs * k * resamples, resamples) - 1, 2 * m), k)
  }

  /** `number_samples`: points on one search curve. */
  function SampleNumber(m: nat, pf: int): int {
    2 * m * pf + 1
  }

  lemma {:induction false} FrequencyBounds(runs: nat, k: nat, resamples: nat, m: nat)
    requires k > 0 && resamples > 0 && m > 0
    ensures runs == 0 ==> ParameterFrequency(runs, k, resamples, m) == -1
    ensures runs >= 1 ==> 0 <= ParameterFrequency(runs, k, resamples, m)
    ensures runs >= 1 ==> 2 * m * ParameterFrequency(runs, k, resamples, m) < runs
  {
    DivMod(runs * k, resamples, 0);
    var n := runs * k;
    assert FloorDiv(runs * k * resamples, resamples) == n;
    var a := FloorDiv(n - 1, 2 * m);
    var pf := FloorDiv(a, k);
    assert pf == ParameterFrequency(runs, k, resamples, m);
    if runs == 0 {
      FloorDivMinusOne(2 * m);
      FloorDivMinusOne(k);
    } else {
      MulAtLeast(runs, k);
      ChainBound(runs, k, 2 * m, a, pf);
    }
  }

  /** `-1 // b` is -1 for every positive b. */
  lemma FloorDivMinusOne(b: int)
    requires b > 0
    ensures FloorDiv(-1, b) == -1
  {
    var q := FloorDiv(-1, b);
    if q >= 0 {
      MulLeq(0, q, b);
      assert false;
    } else if q <= -2 {
      MulLeq(2, -q, b);
      assert false;
    }
  }

  /** From `d * a <= runs * k - 1` and `k * pf <= a` follows `d * pf < runs`. */
  lemma ChainBound(runs: nat, k: nat, d: nat, a: int, pf: int)
    requires k > 0 && d > 0 && runs * k >= 1
    requires d * a <= runs * k - 1 < d * a + d
    requires k * pf <= a < k * pf + k
    ensures 0 <= a && 0 <= pf && d * pf < runs
  {
    assert 0 <= a by {
      if a < 0 {
        MulLeq(0, -a, d);
        assert false;
      }
    }
    assert 0 <= pf by {
      if pf < 0 {
        MulLeq(1, -pf, k);
        assert false;
      }
    }
    MulLeq(k * pf, a, d);
    if d * pf >= runs {
      MulLeq(runs, d * pf, k);
      assert false;
    }
  }

  /** The number of samples per curve is odd, and never more than the runs asked for. */
  lemma SampleCount(runs: nat, k: nat, resamples: nat, m: nat)
    requires k > 0 && resamples > 0 && m > 0
    ensures SampleNumber(m, ParameterFrequency(runs, k, resamples, m)) % 2 == 1
    ensures runs >= 1 ==> 1 <= SampleNumber(m, ParameterFrequency(runs, k, resamples, m)) <= runs
    ensures runs == 0 ==> SampleNumber(m, ParameterFrequency(runs, k, resamples, m)) < 0
  {
    FrequencyBounds(runs, k, resamples, m);
    var pf := ParameterFrequency(runs, k, resamples, m);
    assert 2 * m * pf + 1 == 2 * (m * pf) + 1;
  }

  /** With the lab's defaults (65 runs, 4 Fourier coefficients) every factor count gives the
    * main frequency 8 and 65 samples per curve. */
  lemma {:induction false} DefaultSettings(k: nat, resamples: nat)
    requires k > 0 && resamples > 0
    ensures ParameterFrequency(65, k, resamples, 4) == 8
    ensures SampleNumber(4, 8) == 65
  {
    DivMod(65 * k, resamples, 0);
    var q, s := (k - 1) / 8, (k - 1) % 8;
    assert 65 * k - 1 == (8 * k + q) * 8 + s;
    DivMod(8 * k + q, 8, s);
    assert FloorDiv(65 * k - 1, 8) == 8 * k + q;
    assert q < k;
    DivMod(8, k, q);
    assert (8 * k + q) / k == 8;
  }

  /** `max_freq_other_params`, `(1.0 / M) * (parameter_frequency / 2.0)`. */
  function MaxFreqOtherParams(pf: int, m: nat): real
    requires m > 0
  {
    (pf as real) / ((2 * m) as real)
  }

  /** `INFD = min(max_freq_other_params, k)`. */
  function Infd(mfop: real, k: nat): real {
    if (k as real) < mfop then k as real else mfop
  }

  /** Python 2 `round`: to the nearest integer, halves away from zero. */
  function Round(x: real): (r: int)
    ensures x >= 0.0 ==> x - 0.5 < r as real <= x + 0.5
    ensures x < 0.0 ==> x - 0.5 <= r as real < x + 0.5
  {
    if x >= 0.0 then (x + 0.5).Floor else -((-x + 0.5).Floor)
  }

  /** `ISTEP`. */
  function Istep(mfop: real, k: nat): int
    requires Infd(mfop, k) != 1.0
  {
    Round((mfop - 1.0) / (Infd(mfop, k) - 1.0))
  }

  /** `OTMP = numpy.linspace(1, INFD * ISTEP, INFD)`: the float count is truncated. */
  function Otmp(mfop: real, k: nat): seq<real>
    requires mfop >= 0.0 && Infd(mfop, k) != 1.0
  {
    Linspace(1.0, Infd(mfop, k) * (Istep(mfop, k) as real), Infd(mfop, k).Floor as nat)
  }

  /** `complementary_frequencies`. With one uncertain parameter it is the scalar 1, which
    * `list(...)` cannot convert: a TypeError. A `floor(INFD)` of 0 makes `i % 0` fail. */
  function Complementary(k: nat, pf: int, m: nat): (r: Result<seq<real>>)
    requires k >= 1 && m >= 1 && pf >= 0
    ensures k == 1 ==> r == Err(TypeError)
    ensures k >= 2 ==> (r.Err? <==> MaxFreqOtherParams(pf, m) < 1.0)
    ensures k >= 2 && r.Err? ==> r.error == ZeroDivisionError
    ensures r.Ok? ==> |r.value| == k
    ensures r.Ok? && MaxFreqOtherParams(pf, m) == 1.0 ==> forall i :: 0 <= i < k ==> r.value[i] == 1.0
  {
    var mfop := MaxFreqOtherParams(pf, m);
    if k == 1 then Err(TypeError)
    else if mfop == 1.0 then Ok(seq(k, _ => 1.0))
    else
      var fl := Infd(mfop, k).Floor;
      if fl == 0 then Err(ZeroDivisionError)
      else Ok(seq(k, i requires 0 <= i < k => Otmp(mfop, k)[i % fl]))
  }

  /** Above the all-ones case, `INFD` lies strictly between 1 and `max_freq_other_params`
    * (inclusive) and `ISTEP` is at least 1; it is exactly 1 when `INFD` is
    * `max_freq_other_params` itself. */
  lemma StepAtLeastOne(mfop: real, k: nat)
    requires k >= 2 && mfop > 1.0
    ensures 1.0 < Infd(mfop, k) <= mfop
    ensures 1 <= Infd(mfop, k).Floor <= k
    ensures Istep(mfop, k) >= 1
    ensures mfop <= k as real ==> Istep(mfop, k) == 1
    ensures Infd(mfop, k) * (Istep(mfop, k) as real) >= 1.0
  {
    var infd := Infd(mfop, k);
    RatioAtLeastOne(mfop - 1.0, infd - 1.0);
    if mfop <= k as real {
      assert infd == mfop;
      SelfRatio(mfop - 1.0);
    }
    MulMonotoneAtLeast(infd, Istep(mfop, k) as real);
  }

  /** Away from the all-ones case the complementary frequencies cycle through `OTMP` with
    * period `floor(INFD)`, and all lie between 1 and `INFD * ISTEP`. */
  lemma ComplementaryCycle(k: nat, pf: int, m: nat)
    requires k >= 2 && m >= 1 && pf >= 0
    requires MaxFreqOtherParams(pf, m) > 1.0
    ensures Complementary(k, pf, m).Ok?
    ensures var mfop := MaxFreqOtherParams(pf, m);
      var fl := Infd(mfop, k).Floor;
      var w := Complementary(k, pf, m).value;
      1 <= fl <= k &&
      (forall i :: 0 <= i < k ==> w[i] == Otmp(mfop, k)[i % fl]) &&
      (forall i :: 0 <= i < k ==> 1.0 <= w[i] <= Infd(mfop, k) * (Istep(mfop, k) as real))
  {
    var mfop := MaxFreqOtherParams(pf, m);
    StepAtLeastOne(mfop, k);
    var fl := Infd(mfop, k).Floor;
    var top := Infd(mfop, k) * (Istep(mfop, k) as real);
    var otmp := Otmp(mfop, k);
    assert otmp == Linspace(1.0, top, fl as nat);
    LinspaceBounded(1.0, top, fl as nat);
    var w := seq(k, i requires 0 <= i < k => otmp[i % fl]);
    assert Complementary(k, pf, m) == Ok(w);
    forall i | 0 <= i < k
      ensures 1.0 <= w[i] <= top
    {
      assert 0 <= i % fl < fl;
    }
  }

  /** With at least as many factors as `max_freq_other_params`, no complementary frequency
    * exceeds it. */
  lemma ComplementaryBelowMax(k: nat, pf: int, m: nat)
    requires k >= 2 && m >= 1 && pf >= 0
    requires 1.0 < MaxFreqOtherParams(pf, m) <= k as real
    ensures Complementary(k, pf, m).Ok?
    ensures forall i :: 0 <= i < k ==> Complementary(k, pf, m).value[i] <= MaxFreqOtherParams(pf, m)
  {
    var mfop := MaxFreqOtherParams(pf, m);
    ComplementaryCycle(k, pf, m);
    StepAtLeastOne(mfop, k);
    assert Infd(mfop, k) == mfop;
    assert Infd(mfop, k) * (Istep(mfop, k) as real) == mfop;
  }

  /** With fewer factors than `max_freq_other_params`, the complementary frequencies are
    * `OTMP` itself: evenly spaced from 1 and non-decreasing. */
  lemma ComplementaryIncreasing(k: nat, pf: int, m: nat)
    requires k >= 2 && m >= 1 && pf >= 0
    requires (k as real) < MaxFreqOtherParams(pf, m)
    ensures Complementary(k, pf, m).Ok?
    ensures Complementary(k, pf, m).value == Otmp(MaxFreqOtherParams(pf, m), k)
    ensures forall i, j :: 0 <= i <= j < k ==>
      Complementary(k, pf, m).value[i] <= Complementary(k, pf, m).value[j]
  {
    var mfop := MaxFreqOtherParams(pf, m);
    ComplementaryCycle(k, pf, m);
    var top := OtmpOfFewFactors(mfop, k);
    var otmp := Otmp(mfop, k);
    var w := Complementary(k, pf, m).value;
    forall i | 0 <= i < k
      ensures w[i] == otmp[i]
    {
      DivMod(0, k, i);
    }
  }

  lemma OtmpOfFewFactors(mfop: real, k: nat) returns (top: real)
    requires k >= 2 && (k as real) < mfop
    ensures Infd(mfop, k).Floor == k
    ensures top >= 1.0 && Otmp(mfop, k) == Linspace(1.0, top, k)
    ensures forall i, j :: 0 <= i <= j < k ==> Otmp(mfop, k)[i] <= Otmp(mfop, k)[j]
  {
    StepAtLeastOne(mfop, k);
    top := Infd(mfop, k) * (Istep(mfop, k) as real);
    assert Infd(mfop, k) == k as real;
    FloorOfNat(k);
    assert Otmp(mfop, k) == Linspace(1.0, top, Infd(mfop, k).Floor as nat);
    LinspaceBounded(1.0, top, k);
  }

  lemma FloorOfNat(k: nat)
    ensures (k as real).Floor == k
  {
  }

  lemma RatioAtLeastOne(a: real, b: real)
    requires 0.0 < b <= a
    ensures a / b >= 1.0
  {
    var q := a / b;
    assert q * b == a;
    if q < 1.0 {
      MulMonotone(b, q, 1.0);
      assert false;
    }
  }

  lemma SelfRatio(d: real)
    requires d != 0.0
    ensures d / d == 1.0
  {
  }

  lemma MulMonotoneAtLeast(a: real, b: real)
    requires a >= 1.0 && b >= 1.0
    ensures a * b >= 1.0
  {
    MulMonotone(b, 1.0, a);
  }
  // ---------------------------------------------------------------------------------------
  // Columns and rows

  /** The error the transform of one uncertain column raises: unpacking a range that is not a
    * triple, or subtracting bounds that are not both numbers. */
  function ColumnError(v: seq<Value>): (e: Option<Error>)
    ensures |v| != 3 ==> e == Some(ValueError)
    ensures |v| == 3 && v[2] != Text(UNIFORM_DISTRIBUTION) ==> e == None
    ensures e.Some? ==> e.value == ValueError || e.value == TypeError
  {
    if |v| != 3 then Some(ValueError)
    else if v[2] == Text(UNIFORM_DISTRIBUTION) && !(v[0].Num? && v[1].Num?) then Some(TypeError)
    else None
  }

  /** The transform of one curve value `u` of a column whose range is `v`: uniform columns are
    * stretched onto `[min, max]`, any other distribution is left as it is. */
  function Scale(v: seq<Value>, u: real): real {
    if |v| == 3 && v[2] == Text(UNIFORM_DISTRIBUTION) && v[0].Num? && v[1].Num?
    then Stretch(u, v[0].x, v[1].x)
    else u
  }

  /** An admitted range whose bounds are numbers. */
  predicate NumericRange(v: seq<Value>) {
    |v| == 3 && v[0].Num? && v[1].Num? && v[0].x < v[1].x && v[2] == Text(UNIFORM_DISTRIBUTION)
  }

  lemma NumericRangeAdmitted(v: seq<Value>)
    ensures NumericRange(v) <==> (Admission(Several(v)).Ok? && v[0].Num? && v[1].Num?)
  {
    if |v| == 3 && v[0].Num? && v[1].Num? {
      assert PyLess(v[0], v[1]) <==> v[0].x < v[1].x;
      assert Admission(Several(v)).Ok? <==> PyLess(v[0], v[1]) && v[2] == Text(UNIFORM_DISTRIBUTION);
    }
  }

  /** A curve value in [0, 1] of an admitted numeric triple lands in `[min, max]`. */
  lemma UniformInRange(v: seq<Value>, u: real)
    requires NumericRange(v)
    requires 0.0 <= u <= 1.0
    ensures ColumnError(v) == None
    ensures v[0].x <= Scale(v, u) <= v[1].x
  {
  }

  /** The first column, in order, whose transform fails. */
  function FirstBad(names: seq<string>, params: map<string, seq<Value>>): (e: Option<Error>)
    requires forall n :: n in names ==> n in params
    ensures e.None? <==> forall c :: 0 <= c < |names| ==> ColumnError(params[names[c]]).None?
    ensures e.Some? ==> exists c :: 0 <= c < |names| && e == ColumnError(params[names[c]])
  {
    if names == [] then None
    else if ColumnError(params[names[0]]).Some? then ColumnError(params[names[0]])
    else
      var e := FirstBad(names[1..], params);
      assert forall c :: 1 <= c < |names| ==> names[c] == names[1..][c - 1];
      e
  }

  /** The sample dict `{c: params[c][0] for c in certain}`. */
  function CertainPart(certain: seq<string>, params: map<string, seq<Value>>): (s: Sample)
    requires forall n :: n in certain ==> n in params && params[n] != []
  {
    map n | n in certain :: params[n][0]
  }

  /** `sample[p] = X[r][c]` for the first `|names|` columns, in column order. */
  function Overlay(base: Sample, names: seq<string>, vals: seq<real>): (s: Sample)
    requires |names| <= |vals|
  {
    if names == [] then base
    else Overlay(base, names[..|names| - 1], vals)[names[|names| - 1] := Num(vals[|names| - 1])]
  }

  lemma {:induction false} OverlayKeys(base: Sample, names: seq<string>, vals: seq<real>)
    requires |names| <= |vals|
    ensures forall n :: n in Overlay(base, names, vals) <==> n in base || n in names
  {
    if names != [] {
      OverlayKeys(base, names[..|names| - 1], vals);
      assert names == names[..|names| - 1] + [names[|names| - 1]];
    }
  }

  /** A name written more than once keeps the value of its last column. */
  lemma {:induction false} OverlayValue(base: Sample, names: seq<string>, vals: seq<real>, c: nat)
    requires |names| <= |vals| && c < |names| && names[c] !in names[c + 1..]
    ensures names[c] in Overlay(base, names, vals) && Overlay(base, names, vals)[names[c]] == Num(vals[c])
  {
    if c < |names| - 1 {
      var init := names[..|names| - 1];
      assert names[|names| - 1] in names[c + 1..];
      assert init[c + 1..] == names[c + 1..|names| - 1];
      OverlayValue(base, init, vals, c);
    }
  }

  /** Every name of a list has a last occurrence. */
  lemma {:induction false} LastOccurrence(names: seq<string>, n: string) returns (c: nat)
    requires n in names
    ensures c < |names| && names[c] == n && n !in names[c + 1..]
  {
    var last := |names| - 1;
    if names[last] == n {
      c := last;
    } else {
      c := LastOccurrence(names[..last], n);
      assert names[c + 1..] == names[..last][c + 1..] + [names[last]];
    }
  }

  lemma {:induction false} OverlayKeeps(base: Sample, names: seq<string>, vals: seq<real>, n: string)
    requires |names| <= |vals| && n in base && n !in names
    ensures n in Overlay(base, names, vals) && Overlay(base, names, vals)[n] == base[n]
  {
    if names != [] {
      OverlayKeeps(base, names[..|names| - 1], vals, n);
    }
  }

  /** What the sample matrix is built from once the settings are checked. */
  datatype Design = Design(
    certain: seq<string>,
    uncertain: seq<string>,
    params: map<string, seq<Value>>,
    complementary: seq<real>,
    frequency: int,
    samples: nat,
    resamples: nat)

  ghost predicate WellFormed(d: Design) {
    Registered(d.certain, d.uncertain, d.params) &&
    |d.complementary| == |d.uncertain| && d.samples > 0 && d.resamples > 0
  }

  /** `OM`: the complementary frequencies with the parameter of interest at the main one. */
  function Frequencies(d: Design, i: nat): seq<real>
    requires i < |d.complementary|
  {
    d.complementary[i := d.frequency as real]
  }

  /** Row `r` of `X` after the column transforms, for parameter of interest `i` and resample `l`. */
  function Values(d: Design, phase: (nat, nat, nat) -> real, curve: (real, nat, nat, real) -> real,
                  i: nat, l: nat, r: nat): (xs: seq<real>)
    requires WellFormed(d) && i < |d.uncertain|
    ensures |xs| == |d.uncertain|
  {
    seq(|d.uncertain|, c requires 0 <= c < |d.uncertain| =>
      Scale(d.params[d.uncertain[c]], curve(Frequencies(d, i)[c], r, d.samples, phase(i, l, c))))
  }

  /** The sample made from row `r` of that `X`. */
  function Row(d: Design, phase: (nat, nat, nat) -> real, curve: (real, nat, nat, real) -> real,
               i: nat, l: nat, r: nat): Sample
    requires WellFormed(d) && i < |d.uncertain|
  {
    Overlay(CertainPart(d.certain, d.params), d.uncertain, Values(d, phase, curve, i, l, r))
  }

  /** Position `(i * NR + l) * NS + r` of the output is row `r` of resample `l` for parameter
    * of interest `i`, and every such position lies inside the output. */
  lemma RowIndex(i: nat, l: nat, r: nat, k: nat, nr: nat, ns: nat)
    requires i < k && l < nr && r < ns
    ensures (i * nr + l) * ns + r < k * nr * ns
    ensures ((i * nr + l) * ns + r) / ns == i * nr + l
    ensures ((i * nr + l) * ns + r) % ns == r
    ensures (i * nr + l) / nr == i && (i * nr + l) % nr == l
  {
    DivMod(i * nr + l, ns, r);
    DivMod(i, nr, l);
    BlockBound(i, l, nr, k);
    BlockBound(i * nr + l, r, ns, k * nr);
  }

  /** Output position `j`. */
  function RowAt(d: Design, phase: (nat, nat, nat) -> real, curve: (real, nat, nat, real) -> real,
                 j: nat): Sample
    requires WellFormed(d) && j < |d.uncertain| * d.resamples * d.samples
  {
    DivBelow(j, d.samples, |d.uncertain| * d.resamples);
    DivBelow(j / d.samples, d.resamples, |d.uncertain|);
    Row(d, phase, curve, j / d.samples / d.resamples, (j / d.samples) % d.resamples, j % d.samples)
  }

  function Layout(d: Design, phase: (nat, nat, nat) -> real, curve: (real, nat, nat, real) -> real)
    : (out: seq<Sample>)
    requires WellFormed(d)
    ensures |out| == |d.uncertain| * d.resamples * d.samples
  {
    seq(|d.uncertain| * d.resamples * d.samples,
        j requires 0 <= j < |d.uncertain| * d.resamples * d.samples => RowAt(d, phase, curve, j))
  }

  /** A positive product with a positive factor has a positive co-factor. */
  lemma PositiveFactor(ns: int, nr: nat, m: nat, pf: int)
    requires nr >= 1 && m >= 1 && ns * nr >= 65 && ns == 2 * m * pf + 1
    ensures ns >= 1 && pf >= 0
  {
    if ns <= 0 {
      MulLeq(0, -ns, nr);
      assert false;
    }
    if pf < 0 {
      MulLeq(1, -pf, 2 * m);
      assert false;
    }
  }

  /** `_efast_sample_matrix`. */
  function RunSpec(runs: nat, resamples: nat, m: nat,
                   certain: seq<string>, uncertain: seq<string>, params: map<string, seq<Value>>,
                   phase: (nat, nat, nat) -> real, curve: (real, nat, nat, real) -> real)
    : (r: Result<seq<Sample>>)
    requires Registered(certain, uncertain, params)
    ensures resamples == 0 || m == 0 || uncertain == [] ==> r == Err(ZeroDivisionError)
    ensures r.Ok? ==> (resamples > 0 && m > 0 && |uncertain| >= 2 &&
      |r.value| == |uncertain| * resamples * SampleNumber(m, ParameterFrequency(runs, |uncertain|, resamples, m)))
  {
    var k := |uncertain|;
    if resamples == 0 || m == 0 || k == 0 then Err(ZeroDivisionError)
    else
      var pf := ParameterFrequency(runs, k, resamples, m);
      var ns := SampleNumber(m, pf);
      if ns * resamples < 65 then Err(AssertionError)
      else
        PositiveFactor(ns, resamples, m, pf);
        var compl :- Complementary(k, pf, m);
        match FirstBad(uncertain, params)
        case Some(e) => Err(e)
        case None => Ok(Layout(Design(certain, uncertain, params, compl, pf, ns, resamples), phase, curve))
  }

  // ---------------------------------------------------------------------------------------
  // The sample matrix, step by step

  /** The complementary frequencies, filled in one at a time. */
  method ComplementaryFrequencies(k: nat, pf: int, m: nat) returns (r: Result<seq<real>>)
    requires k >= 1 && m >= 1 && pf >= 0
    ensures r == Complementary(k, pf, m)
  {
    var mfop := MaxFreqOtherParams(pf, m);
    if k == 1 {
      // the scalar 1 reaches `list(...)`
      return Err(TypeError);
    }
    if mfop == 1.0 {
      return Ok(seq(k, _ => 1.0));
    }
    var otmp := Otmp(mfop, k);
    var fl := Infd(mfop, k).Floor;
    var freqs: seq<real> := seq(k, _ => 0.0);
    var i := 0;
    while i < k
      invariant 0 <= i <= k && |freqs| == k
      invariant i > 0 ==> fl != 0
      invariant forall t :: 0 <= t < i ==> freqs[t] == otmp[t % fl]
    {
      if fl == 0 {
        return Err(ZeroDivisionError);
      }
      freqs := freqs[i := otmp[i % fl]];
      i := i + 1;
    }
    assert freqs == seq(k, t requires 0 <= t < k => otmp[t % fl]);
    return Ok(freqs);
  }

  /** `X` before the transforms: entry `(r, c)` is the search curve of column `c` at row `r`. */
  method FillCurve(x: array2<real>, om: seq<real>, i: nat, l: nat,
                   phase: (nat, nat, nat) -> real, curve: (real, nat, nat, real) -> real)
    requires x.Length1 == |om|
    modifies x
    ensures forall r, c :: 0 <= r < x.Length0 && 0 <= c < x.Length1 ==>
      x[r, c] == curve(om[c], r, x.Length0, phase(i, l, c))
  {
    var r := 0;
    while r < x.Length0
      invariant 0 <= r <= x.Length0
      invariant forall r', c :: 0 <= r' < r && 0 <= c < x.Length1 ==>
        x[r', c] == curve(om[c], r', x.Length0, phase(i, l, c))
    {
      var c := 0;
      while c < x.Length1
        invariant 0 <= c <= x.Length1
        invariant forall r', c' :: 0 <= r' < r && 0 <= c' < x.Length1 ==>
          x[r', c'] == curve(om[c'], r', x.Length0, phase(i, l, c'))
        invariant forall c' :: 0 <= c' < c ==> x[r, c'] == curve(om[c'], r, x.Length0, phase(i, l, c'))
      {
        x[r, c] := curve(om[c], r, x.Length0, phase(i, l, c));
        c := c + 1;
      }
      r := r + 1;
    }
  }

  /** Column `c` of `X` stretched from [0, 1] onto [lo, hi], in place. */
  method StretchColumn(x: array2<real>, c: nat, lo: real, hi: real)
    requires c < x.Length1
    modifies x
    ensures forall r :: 0 <= r < x.Length0 ==> x[r, c] == Stretch(old(x[r, c]), lo, hi)
    ensures forall r, c' :: 0 <= r < x.Length0 && 0 <= c' < x.Length1 && c' != c ==> x[r, c'] == old(x[r, c'])
  {
    var r := 0;
    while r < x.Length0
      invariant 0 <= r <= x.Length0
      invariant forall r' :: 0 <= r' < r ==> x[r', c] == Stretch(old(x[r', c]), lo, hi)
      invariant forall r' :: r <= r' < x.Length0 ==> x[r', c] == old(x[r', c])
      invariant forall r', c' :: 0 <= r' < x.Length0 && 0 <= c' < x.Length1 && c' != c ==> x[r', c'] == old(x[r', c'])
    {
      x[r, c] := Stretch(x[r, c], lo, hi);
      r := r + 1;
    }
  }

  /** The transform of column `c` alone: a range that is not a triple, or a uniform range
    * whose bounds are not numbers, raises before anything is written. */
  method TransformColumn(x: array2<real>, c: nat, v: seq<Value>) returns (err: Option<Error>)
    requires c < x.Length1
    modifies x
    ensures err == ColumnError(v)
    ensures err.None? ==> forall r :: 0 <= r < x.Length0 ==> x[r, c] == Scale(v, old(x[r, c]))
    ensures forall r, c' :: 0 <= r < x.Length0 && 0 <= c' < x.Length1 && c' != c ==> x[r, c'] == old(x[r, c'])
  {
    if |v| != 3 {
      return Some(ValueError);
    }
    if v[2] == Text(UNIFORM_DISTRIBUTION) {
      if !(v[0].Num? && v[1].Num?) {
        return Some(TypeError);
      }
      StretchColumn(x, c, v[0].x, v[1].x);
    }
    return None;
  }

  /** The column transforms, column by column in place; the first column that cannot be
    * transformed raises. */
  method TransformColumns(x: array2<real>, names: seq<string>, params: map<string, seq<Value>>)
    returns (err: Option<Error>)
    requires x.Length1 == |names| && forall n :: n in names ==> n in params
    modifies x
    ensures err == FirstBad(names, params)
    ensures err.None? ==> forall r, c :: 0 <= r < x.Length0 && 0 <= c < x.Length1 ==>
      x[r, c] == Scale(params[names[c]], old(x[r, c]))
  {
    var c := 0;
    while c < x.Length1
      invariant 0 <= c <= x.Length1
      invariant FirstBad(names, params) == FirstBad(names[c..], params)
      invariant forall r, c' :: 0 <= r < x.Length0 && 0 <= c' < c ==>
        x[r, c'] == Scale(params[names[c']], old(x[r, c']))
      invariant forall r, c' :: 0 <= r < x.Length0 && c <= c' < x.Length1 ==> x[r, c'] == old(x[r, c'])
    {
      var e := TransformColumn(x, c, params[names[c]]);
      FirstBadAt(names, params, c);
      if e.Some? {
        return e;
      }
      c := c + 1;
    }
    return None;
  }

  /** The search for a bad column, resumed at column `c`. */
  lemma FirstBadAt(names: seq<string>, params: map<string, seq<Value>>, c: nat)
    requires c < |names| && forall n :: n in names ==> n in params
    ensures ColumnError(params[names[c]]).Some? ==> FirstBad(names[c..], params) == ColumnError(params[names[c]])
    ensures ColumnError(params[names[c]]).None? ==> FirstBad(names[c..], params) == FirstBad(names[c + 1..], params)
  {
    assert names[c..][0] == names[c];
    assert names[c..][1..] == names[c + 1..];
  }

  /** `X` holds, row by row, the transformed curve values of one resample. */
  ghost predicate Holds(x: array2<real>, d: Design, phase: (nat, nat, nat) -> real,
                        curve: (real, nat, nat, real) -> real, i: nat, l: nat)
    reads x
    requires WellFormed(d) && i < |d.uncertain|
  {
    x.Length0 == d.samples && x.Length1 == |d.uncertain| &&
    forall r, c :: 0 <= r < x.Length0 && 0 <= c < x.Length1 ==> x[r, c] == Values(d, phase, curve, i, l, r)[c]
  }

  /** One sample per row of `X`: the certain values, then each uncertain column. */
  method AppendRows(x: array2<real>, d: Design, phase: (nat, nat, nat) -> real,
                    curve: (real, nat, nat, real) -> real, i: nat, l: nat, samples: seq<Sample>)
    returns (out: seq<Sample>)
    requires WellFormed(d) && i < |d.uncertain| && Holds(x, d, phase, curve, i, l)
    ensures |out| == |samples| + d.samples && out[..|samples|] == samples
    ensures forall r :: 0 <= r < d.samples ==> out[|samples| + r] == Row(d, phase, curve, i, l, r)
  {
    out := samples;
    var r := 0;
    while r < x.Length0
      invariant 0 <= r <= x.Length0
      invariant |out| == |samples| + r && out[..|samples|] == samples
      invariant forall t :: 0 <= t < r ==> out[|samples| + t] == Row(d, phase, curve, i, l, t)
    {
      var base := CertainPart(d.certain, d.params);
      var sample := base;
      var c := 0;
      while c < x.Length1
        invariant 0 <= c <= x.Length1
        invariant sample == Overlay(base, d.uncertain[..c], Values(d, phase, curve, i, l, r))
      {
        assert d.uncertain[..c + 1][..c] == d.uncertain[..c];
        sample := sample[d.uncertain[c] := Num(x[r, c])];
        c := c + 1;
      }
      assert d.uncertain[..c] == d.uncertain;
      out := out + [sample];
      r := r + 1;
    }
  }

  lemma Advance(i: nat, l: nat, k: nat, nr: nat, ns: nat)
    requires i < k && l < nr
    ensures (i * nr + l + 1) * ns == (i * nr + l) * ns + ns
    ensures (i * nr + l + 1) * ns <= k * nr * ns
    ensures (i * nr + nr) * ns == (i + 1) * nr * ns
  {
    MulDistributes(ns, i * nr + l, 1);
    BlockBound(i, l, nr, k);
    MulLeq(i * nr + l + 1, k * nr, ns);
    MulDistributes(nr, i, 1);
  }

  /** One resample of one parameter of interest: `X` filled from the search curve and
    * transformed column by column, then turned into samples. */
  method ResampleBlock(d: Design, phase: (nat, nat, nat) -> real, curve: (real, nat, nat, real) -> real,
                       om: seq<real>, i: nat, l: nat)
    returns (r: Result<seq<Sample>>)
    requires WellFormed(d) && i < |d.uncertain| && om == d.complementary[i := d.frequency as real]
    ensures FirstBad(d.uncertain, d.params).Some? ==> r == Err(FirstBad(d.uncertain, d.params).value)
    ensures FirstBad(d.uncertain, d.params).None? ==>
      r.Ok? && |r.value| == d.samples &&
      forall t :: 0 <= t < d.samples ==> r.value[t] == Row(d, phase, curve, i, l, t)
  {
    var x := new real[d.samples, |d.uncertain|];
    FillCurve(x, om, i, l, phase, curve);
    var err := TransformColumns(x, d.uncertain, d.params);
    if err.Some? {
      return Err(err.value);
    }
    assert Holds(x, d, phase, curve, i, l);
    var rows := AppendRows(x, d, phase, curve, i, l, []);
    r := Ok(rows);
  }

  /** The samples of block (i, l) continue the layout where the earlier blocks stop. */
  lemma BlockAppended(d: Design, phase: (nat, nat, nat) -> real, curve: (real, nat, nat, real) -> real,
                      i: nat, l: nat, samples: seq<Sample>, block: seq<Sample>)
    requires WellFormed(d) && i < |d.uncertain| && l < d.resamples
    requires |samples| == (i * d.resamples + l) * d.samples
    requires |samples| + d.samples <= |d.uncertain| * d.resamples * d.samples
    requires forall t :: 0 <= t < |samples| ==> samples[t] == RowAt(d, phase, curve, t)
    requires |block| == d.samples && forall t :: 0 <= t < d.samples ==> block[t] == Row(d, phase, curve, i, l, t)
    ensures forall t :: 0 <= t < |samples + block| ==> (samples + block)[t] == RowAt(d, phase, curve, t)
  {
    var k, nr, ns := |d.uncertain|, d.resamples, d.samples;
    forall t | 0 <= t < |samples + block|
      ensures (samples + block)[t] == RowAt(d, phase, curve, t)
    {
      if t >= |samples| {
        RowIndex(i, l, t - |samples|, k, nr, ns);
      }
    }
  }

  /** The loops over parameters of interest and resamples, appending one block of samples per
    * resample. */
  method Sweep(d: Design, phase: (nat, nat, nat) -> real, curve: (real, nat, nat, real) -> real)
    returns (r: Result<seq<Sample>>)
    requires WellFormed(d)
    ensures FirstBad(d.uncertain, d.params).Some? ==> r == Err(FirstBad(d.uncertain, d.params).value)
    ensures FirstBad(d.uncertain, d.params).None? ==> r == Ok(Layout(d, phase, curve))
  {
    var k, nr, ns := |d.uncertain|, d.resamples, d.samples;
    var samples: seq<Sample> := [];
    var i := 0;
    while i < k
      invariant 0 <= i <= k
      invariant |samples| == i * nr * ns <= k * nr * ns
      invariant forall t :: 0 <= t < |samples| ==> samples[t] == RowAt(d, phase, curve, t)
      invariant i > 0 ==> FirstBad(d.uncertain, d.params).None?
    {
      var om := d.complementary[i := d.frequency as real];
      var l := 0;
      while l < nr
        invariant 0 <= l <= nr
        invariant |samples| == (i * nr + l) * ns <= k * nr * ns
        invariant forall t :: 0 <= t < |samples| ==> samples[t] == RowAt(d, phase, curve, t)
        invariant i > 0 || l > 0 ==> FirstBad(d.uncertain, d.params).None?
      {
        var block := ResampleBlock(d, phase, curve, om, i, l);
        if block.Err? {
          return block;
        }
        Advance(i, l, k, nr, ns);
        BlockAppended(d, phase, curve, i, l, samples, block.value);
        samples := samples + block.value;
        l := l + 1;
      }
      Advance(i, 0, k, nr, ns);
      i := i + 1;
    }
    assert samples == Layout(d, phase, curve);
    return Ok(samples);
  }

  /** `_efast_sample_matrix`, on the lab's settings and parameters. */
  method SampleMatrix(runs: nat, resamples: nat, m: nat,
                      certain: seq<string>, uncertain: seq<string>, params: map<string, seq<Value>>,
                      phase: (nat, nat, nat) -> real, curve: (real, nat, nat, real) -> real)
    returns (r: Result<seq<Sample>>)
    requires Registered(certain, uncertain, params)
    ensures r == RunSpec(runs, resamples, m, certain, uncertain, params, phase, curve)
  {
    var k := |uncertain|;
    if resamples == 0 || m == 0 || k == 0 {
      return Err(ZeroDivisionError);
    }
    var wanted := runs * k * resamples;
    var pf := FloorDiv(FloorDiv(FloorDiv(wanted, resamples) - 1, 2 * m), k);
    var ns := 2 * m * pf + 1;
    if ns * resamples < 65 {
      return Err(AssertionError);
    }
    PositiveFactor(ns, resamples, m, pf);
    var compl :- ComplementaryFrequencies(k, pf, m);
    r := Sweep(Design(certain, uncertain, params, compl, pf, ns, resamples), phase, curve);
  }

  // ---------------------------------------------------------------------------------------
  // What the sample matrix promises

  /** Past the divisions, the matrix fails exactly as follows: too few samples fail the
    * assertion, a single uncertain parameter is a TypeError, a `max_freq_other_params` below 1
    * divides by zero, and otherwise the first column whose transform fails decides. */
  lemma RunFails(runs: nat, resamples: nat, m: nat,
                 certain: seq<string>, uncertain: seq<string>, params: map<string, seq<Value>>,
                 phase: (nat, nat, nat) -> real, curve: (real, nat, nat, real) -> real)
    requires Registered(certain, uncertain, params)
    requires resamples > 0 && m > 0 && |uncertain| > 0
    ensures var r := RunSpec(runs, resamples, m, certain, uncertain, params, phase, curve);
      var pf := ParameterFrequency(runs, |uncertain|, resamples, m);
      var ns := SampleNumber(m, pf);
      (ns * resamples < 65 ==> r == Err(AssertionError)) &&
      (ns * resamples >= 65 ==> pf >= 0) &&
      (ns * resamples >= 65 && |uncertain| == 1 ==> r == Err(TypeError)) &&
      (ns * resamples >= 65 && |uncertain| >= 2 && MaxFreqOtherParams(pf, m) < 1.0 ==>
         r == Err(ZeroDivisionError)) &&
      (ns * resamples >= 65 && |uncertain| >= 2 && MaxFreqOtherParams(pf, m) >= 1.0 ==>
         (r.Ok? <==> FirstBad(uncertain, params).None?) &&
         (r.Err? ==> Some(r.error) == FirstBad(uncertain, params)))
  {
    var pf := ParameterFrequency(runs, |uncertain|, resamples, m);
    var ns := SampleNumber(m, pf);
    if ns * resamples >= 65 {
      PositiveFactor(ns, resamples, m, pf);
    }
  }

  /** The output is ordered by parameter of interest, then resample, then row of `X`. */
  lemma RunOrder(d: Design, phase: (nat, nat, nat) -> real, curve: (real, nat, nat, real) -> real,
                 i: nat, l: nat, row: nat)
    requires WellFormed(d) && i < |d.uncertain| && l < d.resamples && row < d.samples
    ensures (i * d.resamples + l) * d.samples + row < |Layout(d, phase, curve)|
    ensures Layout(d, phase, curve)[(i * d.resamples + l) * d.samples + row] == Row(d, phase, curve, i, l, row)
  {
    RowIndex(i, l, row, |d.uncertain|, d.resamples, d.samples);
    var j := (i * d.resamples + l) * d.samples + row;
    assert Layout(d, phase, curve)[j] == RowAt(d, phase, curve, j);
  }

  /** A successful run is the layout of its design. */
  lemma RunIsLayout(runs: nat, resamples: nat, m: nat,
                    certain: seq<string>, uncertain: seq<string>, params: map<string, seq<Value>>,
                    phase: (nat, nat, nat) -> real, curve: (real, nat, nat, real) -> real)
    returns (d: Design)
    requires Registered(certain, uncertain, params)
    requires RunSpec(runs, resamples, m, certain, uncertain, params, phase, curve).Ok?
    ensures resamples > 0 && m > 0 && |uncertain| >= 2
    ensures var pf := ParameterFrequency(runs, |uncertain|, resamples, m);
      var ns := SampleNumber(m, pf);
      pf >= 0 && ns >= 1 && Complementary(|uncertain|, pf, m).Ok? &&
      d == Design(certain, uncertain, params, Complementary(|uncertain|, pf, m).value, pf, ns, resamples)
    ensures WellFormed(d)
    ensures RunSpec(runs, resamples, m, certain, uncertain, params, phase, curve) == Ok(Layout(d, phase, curve))
  {
    var pf := ParameterFrequency(runs, |uncertain|, resamples, m);
    var ns := SampleNumber(m, pf);
    PositiveFactor(ns, resamples, m, pf);
    d := Design(certain, uncertain, params, Complementary(|uncertain|, pf, m).value, pf, ns, resamples);
  }

  /** A sample holds every certain and every uncertain parameter and nothing else. A certain
    * parameter that is not also uncertain keeps the first value of its range. Uncertain column
    * `c` holds the transformed curve at the main frequency when it is the parameter of interest
    * and at its complementary frequency otherwise; a name registered twice shows the value of
    * its last column, which `sample[p] = X[r][c]` writes last. */
  lemma RowContents(d: Design, phase: (nat, nat, nat) -> real, curve: (real, nat, nat, real) -> real,
                    i: nat, l: nat, r: nat)
    requires WellFormed(d) && i < |d.uncertain|
    ensures forall n :: n in Row(d, phase, curve, i, l, r) <==> n in d.certain || n in d.uncertain
    ensures forall n :: n in d.certain && n !in d.uncertain ==> Row(d, phase, curve, i, l, r)[n] == d.params[n][0]
    ensures forall c :: 0 <= c < |d.uncertain| && d.uncertain[c] !in d.uncertain[c + 1..] ==>
      Row(d, phase, curve, i, l, r)[d.uncertain[c]] ==
        Num(Scale(d.params[d.uncertain[c]],
                  curve(if c == i then d.frequency as real else d.complementary[c], r, d.samples, phase(i, l, c))))
  {
    var base := CertainPart(d.certain, d.params);
    var vals := Values(d, phase, curve, i, l, r);
    OverlayKeys(base, d.uncertain, vals);
    forall n | n in d.certain && n !in d.uncertain
      ensures Row(d, phase, curve, i, l, r)[n] == d.params[n][0]
    {
      OverlayKeeps(base, d.uncertain, vals, n);
    }
    forall c | 0 <= c < |d.uncertain| && d.uncertain[c] !in d.uncertain[c + 1..]
      ensures Row(d, phase, curve, i, l, r)[d.uncertain[c]] ==
        Num(Scale(d.params[d.uncertain[c]],
                  curve(if c == i then d.frequency as real else d.complementary[c], r, d.samples, phase(i, l, c))))
    {
      OverlayValue(base, d.uncertain, vals, c);
    }
  }

  /** When every uncertain range is an admitted numeric triple and the search curve stays in
    * [0, 1], every uncertain value of a sample lies between its minimum and maximum, whether or
    * not a name was registered twice. */
  lemma RowWithinBounds(d: Design, phase: (nat, nat, nat) -> real, curve: (real, nat, nat, real) -> real,
                        i: nat, l: nat, r: nat)
    requires WellFormed(d) && i < |d.uncertain|
    requires forall c :: 0 <= c < |d.uncertain| ==> NumericRange(d.params[d.uncertain[c]])
    requires forall om, row, ns, ph :: 0.0 <= curve(om, row, ns, ph) <= 1.0
    ensures forall c :: 0 <= c < |d.uncertain| ==> InBounds(Row(d, phase, curve, i, l, r), d.uncertain[c], d.params)
  {
    RowContents(d, phase, curve, i, l, r);
    forall c | 0 <= c < |d.uncertain|
      ensures InBounds(Row(d, phase, curve, i, l, r), d.uncertain[c], d.params)
    {
      var last := LastOccurrence(d.uncertain, d.uncertain[c]);
      CellWithinBounds(d, phase, curve, i, l, r, last);
    }
  }

  /** Parameter `n` of sample `s` is a number between the bounds of its range. */
  predicate InBounds(s: Sample, n: string, params: map<string, seq<Value>>) {
    n in s && n in params && s[n].Num? && NumericRange(params[n]) &&
    params[n][0].x <= s[n].x <= params[n][1].x
  }

  lemma CellWithinBounds(d: Design, phase: (nat, nat, nat) -> real, curve: (real, nat, nat, real) -> real,
                         i: nat, l: nat, r: nat, c: nat)
    requires WellFormed(d) && i < |d.uncertain| && c < |d.uncertain|
    requires NumericRange(d.params[d.uncertain[c]])
    requires forall om, row, ns, ph :: 0.0 <= curve(om, row, ns, ph) <= 1.0
    ensures var v := d.params[d.uncertain[c]];
      var om := if c == i then d.frequency as real else d.complementary[c];
      v[0].x <= Scale(v, curve(om, r, d.samples, phase(i, l, c))) <= v[1].x
  {
    var v := d.params[d.uncertain[c]];
    var om := if c == i then d.frequency as real else d.complementary[c];
    CurveAt(curve, om, r, d.samples, phase(i, l, c));
    UniformInRange(v, curve(om, r, d.samples, phase(i, l, c)));
  }

  lemma CurveAt(curve: (real, nat, nat, real) -> real, om: real, row: nat, ns: nat, ph: real)
    requires forall om, row, ns, ph :: 0.0 <= curve(om, row, ns, ph) <= 1.0
    ensures 0.0 <= curve(om, row, ns, ph) <= 1.0
  {
  }

  // ---------------------------------------------------------------------------------------
  // A single uncertain parameter

  /** As written, a lab with exactly one uncertain parameter never produces samples once its
    * settings pass the assertion: the scalar complementary frequency reaches `list(...)`. */
  lemma SingleFactorFails(runs: nat, resamples: nat, m: nat,
                          certain: seq<string>, uncertain: seq<string>, params: map<string, seq<Value>>,
                          phase: (nat, nat, nat) -> real, curve: (real, nat, nat, real) -> real)
    requires Registered(certain, uncertain, params)
    requires resamples > 0 && m > 0 && |uncertain| == 1
    requires SampleNumber(m, ParameterFrequency(runs, 1, resamples, m)) * resamples >= 65
    ensures RunSpec(runs, resamples, m, certain, uncertain, params, phase, curve) == Err(TypeError)
  {
    RunFails(runs, resamples, m, certain, uncertain, params, phase, curve);
  }

  /** The default lab with the single uncertain parameter `x` in [0, 1]. */
  lemma DefaultSingleFactorFails(phase: (nat, nat, nat) -> real, curve: (real, nat, nat, real) -> real)
    ensures var params := map["x" := [Num(0.0), Num(1.0), Text(UNIFORM_DISTRIBUTION)]];
      Registered([], ["x"], params) &&
      RunSpec(65, 1, 4, [], ["x"], params, phase, curve) == Err(TypeError)
  {
    var params := map["x" := [Num(0.0), Num(1.0), Text(UNIFORM_DISTRIBUTION)]];
    DefaultSettings(1, 1);
    SingleFactorFails(65, 1, 4, [], ["x"], params, phase, curve);
  }

  /** The complementary frequencies as evidently intended: a one-element list when there is a
    * single uncertain parameter, whose own position the main frequency then overwrites. */
  function CorrectedComplementary(k: nat, pf: int, m: nat): (r: Result<seq<real>>)
    requires k >= 1 && m >= 1 && pf >= 0
    ensures r.Err? ==> r.error == ZeroDivisionError
    ensures r.Ok? ==> |r.value| == k
    ensures k == 1 ==> r == Ok([1.0])
    ensures k >= 2 ==> r == Complementary(k, pf, m)
  {
    if k == 1 then Ok([1.0]) else Complementary(k, pf, m)
  }

  /** `_efast_sample_matrix` as evidently intended: the same steps in the same order, with the
    * corrected complementary frequencies. */
  function CorrectedRunSpec(runs: nat, resamples: nat, m: nat,
                            certain: seq<string>, uncertain: seq<string>, params: map<string, seq<Value>>,
                            phase: (nat, nat, nat) -> real, curve: (real, nat, nat, real) -> real)
    : (r: Result<seq<Sample>>)
    requires Registered(certain, uncertain, params)
    ensures |uncertain| != 1 ==> r == RunSpec(runs, resamples, m, certain, uncertain, params, phase, curve)
    ensures r.Ok? ==> (resamples > 0 && m > 0 && |uncertain| >= 1 &&
      |r.value| == |uncertain| * resamples * SampleNumber(m, ParameterFrequency(runs, |uncertain|, resamples, m)))
  {
    var k := |uncertain|;
    if resamples == 0 || m == 0 || k == 0 then Err(ZeroDivisionError)
    else
      var pf := ParameterFrequency(runs, k, resamples, m);
      var ns := SampleNumber(m, pf);
      if ns * resamples < 65 then Err(AssertionError)
      else
        PositiveFactor(ns, resamples, m, pf);
        var compl :- CorrectedComplementary(k, pf, m);
        match FirstBad(uncertain, params)
        case Some(e) => Err(e)
        case None => Ok(Layout(Design(certain, uncertain, params, compl, pf, ns, resamples), phase, curve))
  }

  /** With the correction, a lab with a single uncertain parameter that passes the assertion and
    * whose range transforms produces the layout of a design whose only frequency is
    * `parameter_frequency`: NR * NS samples, which `SingleFactorLayout` spells out. */
  lemma CorrectedSingleFactor(runs: nat, resamples: nat, m: nat,
                              certain: seq<string>, uncertain: seq<string>, params: map<string, seq<Value>>,
                              phase: (nat, nat, nat) -> real, curve: (real, nat, nat, real) -> real)
    returns (d: Design)
    requires Registered(certain, uncertain, params)
    requires resamples > 0 && m > 0 && |uncertain| == 1
    requires SampleNumber(m, ParameterFrequency(runs, 1, resamples, m)) * resamples >= 65
    requires FirstBad(uncertain, params).None?
    ensures var pf := ParameterFrequency(runs, 1, resamples, m);
      pf >= 0 && d == Design(certain, uncertain, params, [1.0], pf, SampleNumber(m, pf), resamples)
    ensures WellFormed(d) && d.samples >= 1
    ensures CorrectedRunSpec(runs, resamples, m, certain, uncertain, params, phase, curve) == Ok(Layout(d, phase, curve))
    ensures |Layout(d, phase, curve)| == resamples * d.samples
  {
    var pf := ParameterFrequency(runs, 1, resamples, m);
    var ns := SampleNumber(m, pf);
    PositiveFactor(ns, resamples, m, pf);
    d := Design(certain, uncertain, params, [1.0], pf, ns, resamples);
  }

  /** The layout of a design with one uncertain parameter: sample `l * NS + r` is row `r` of
    * resample `l`, in which the parameter holds its range's transform of the search curve at
    * the main frequency. */
  lemma SingleFactorLayout(d: Design, phase: (nat, nat, nat) -> real, curve: (real, nat, nat, real) -> real,
                        l: nat, row: nat)
    requires WellFormed(d) && |d.uncertain| == 1 && l < d.resamples && row < d.samples
    ensures l * d.samples + row < |Layout(d, phase, curve)|
    ensures Layout(d, phase, curve)[l * d.samples + row] == Row(d, phase, curve, 0, l, row)
    ensures d.uncertain[0] in Row(d, phase, curve, 0, l, row)
    ensures Row(d, phase, curve, 0, l, row)[d.uncertain[0]] ==
      Num(Scale(d.params[d.uncertain[0]], curve(d.frequency as real, row, d.samples, phase(0, l, 0))))
  {
    assert d.uncertain[1..] == [];
    RunOrder(d, phase, curve, 0, l, row);
    RowContents(d, phase, curve, 0, l, row);
    assert (0 * d.resamples + l) * d.samples + row == l * d.samples + row;
  }

  /** The default lab with the single uncertain parameter `x` in [0, 1], corrected: 65 samples,
    * with `x` driven at frequency 8. */
  lemma DefaultSingleFactorCorrected(phase: (nat, nat, nat) -> real, curve: (real, nat, nat, real) -> real)
    ensures var params := map["x" := [Num(0.0), Num(1.0), Text(UNIFORM_DISTRIBUTION)]];
      Registered([], ["x"], params) &&
      CorrectedRunSpec(65, 1, 4, [], ["x"], params, phase, curve).Ok? &&
      |CorrectedRunSpec(65, 1, 4, [], ["x"], params, phase, curve).value| == 65 &&
      CorrectedRunSpec(65, 1, 4, [], ["x"], params, phase, curve).value[0]["x"] ==
        Num(Scale(params["x"], curve(8.0, 0, 65, phase(0, 0, 0))))
  {
    var params := map["x" := [Num(0.0), Num(1.0), Text(UNIFORM_DISTRIBUTION)]];
    DefaultSettings(1, 1);
    var d := CorrectedSingleFactor(65, 1, 4, [], ["x"], params, phase, curve);
    SingleFactorLayout(d, phase, curve, 0, 0);
  }

  class EFastLab {
    var certainParameters: seq<string>
    var uncertainParameters: seq<string>
    var parameters: map<string, seq<Value>>
    var runs: nat
    var resamples: nat
    var maxFourierCoeffs: nat

    ghost predicate Valid()
      reads this
    {
      Registered(certainParameters, uncertainParameters, parameters)
    }

    constructor (runs: nat, resamples: nat, maxFourierCoeffs: nat)
      ensures Valid()
      ensures certainParameters == [] && uncertainParameters == [] && parameters == map[]
      ensures this.runs == runs && this.resamples == resamples && this.maxFourierCoeffs == maxFourierCoeffs
    {
      certainParameters, uncertainParameters, parameters := [], [], map[];
      this.runs, this.resamples, this.maxFourierCoeffs := runs, resamples, maxFourierCoeffs;
    }

    /** The lab with its default settings: 65 runs, one resample, four Fourier coefficients. */
    constructor Default()
      ensures Valid()
      ensures certainParameters == [] && uncertainParameters == [] && parameters == map[]
      ensures runs == 65 && resamples == 1 && maxFourierCoeffs == 4
    {
      certainParameters, uncertainParameters, parameters := [], [], map[];
      runs, resamples, maxFourierCoeffs := 65, 1, 4;
    }

    method SetRuns(runs: nat)
      modifies this
      ensures this.runs == runs && resamples == old(resamples) && maxFourierCoeffs == old(maxFourierCoeffs)
      ensures certainParameters == old(certainParameters) && uncertainParameters == old(uncertainParameters)
      ensures parameters == old(parameters)
    {
      this.runs := runs;
    }

    method SetResamples(resamples: nat)
      modifies this
      ensures this.resamples == resamples && runs == old(runs) && maxFourierCoeffs == old(maxFourierCoeffs)
      ensures certainParameters == old(certainParameters) && uncertainParameters == old(uncertainParameters)
      ensures parameters == old(parameters)
    {
      this.resamples := resamples;
    }

    method SetMaxFourierCoeffs(maxFourierCoeffs: nat)
      modifies this
      ensures this.maxFourierCoeffs == maxFourierCoeffs && runs == old(runs) && resamples == old(resamples)
      ensures certainParameters == old(certainParameters) && uncertainParameters == old(uncertainParameters)
      ensures parameters == old(parameters)
    {
      this.maxFourierCoeffs := maxFourierCoeffs;
    }

    /** `addParameter`: a single value is certain and stored as a one-element list; a triple is
      * checked and its name appended to the uncertain ones. A failed assertion changes nothing. */
    method AddParameter(k: string, arg: Argument) returns (r: Result<()>)
      requires Valid()
      modifies this
      ensures Valid()
      ensures r.Ok? <==> Admission(arg).Ok?
      ensures r.Err? ==> r.error == AssertionError && unchanged(this)
      ensures r.Ok? && arg.Single? ==>
        certainParameters == old(certainParameters) + [k] && uncertainParameters == old(uncertainParameters)
      ensures r.Ok? && arg.Several? ==>
        uncertainParameters == old(uncertainParameters) + [k] && certainParameters == old(certainParameters)
      ensures r.Ok? ==> parameters == old(parameters)[k := Admission(arg).value]
      ensures runs == old(runs) && resamples == old(resamples) && maxFourierCoeffs == old(maxFourierCoeffs)
    {
      match arg {
        case Single(v) =>
          certainParameters := certainParameters + [k];
          parameters := parameters[k := [v]];
        case Several(vs) =>
          if |vs| != 3 {
            return Err(AssertionError);
          }
          if !PyLess(vs[0], vs[1]) {
            return Err(AssertionError);
          }
          if vs[2] != Text(UNIFORM_DISTRIBUTION) {
            return Err(AssertionError);
          }
          uncertainParameters := uncertainParameters + [k];
          parameters := parameters[k := vs];
      }
      return Ok(());
    }

    /** `_efast_sample_matrix`. */
    method EfastSampleMatrix(phase: (nat, nat, nat) -> real, curve: (real, nat, nat, real) -> real)
      returns (r: Result<seq<Sample>>)
      requires Valid()
      ensures r == RunSpec(runs, resamples, maxFourierCoeffs, certainParameters, uncertainParameters,
                           parameters, phase, curve)
    {
      r := SampleMatrix(runs, resamples, maxFourierCoeffs, certainParameters, uncertainParameters,
                        parameters, phase, curve);
    }

    /** `parameterSpace`: no samples without parameters, the eFAST sample otherwise. */
    method ParameterSpace(phase: (nat, nat, nat) -> real, curve: (real, nat, nat, real) -> real)
      returns (r: Result<seq<Sample>>)
      requires Valid()
      ensures parameters == map[] ==> r == Ok([])
      ensures parameters != map[] ==>
        r == RunSpec(runs, resamples, maxFourierCoeffs, certainParameters, uncertainParameters,
                     parameters, phase, curve)
    {
      if |parameters| == 0 {
        return Ok([]);
      }
      r := EfastSampleMatrix(phase, curve);
    }
  }
}

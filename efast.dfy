/**
 * The epyc eFAST (extended Fourier amplitude sensitivity test) sample generator. Each
 * uncertain parameter in turn is the parameter of interest: it is driven at the base
 * frequency while the others are driven at complementary frequencies, N runs per parameter
 * of interest, and every search-curve value is mapped through the parameter's distribution.
 */
module Efast {
  import opened Common

  /**
   * The foreign numerical functions the transform calls: scipy's triangular and normal
   * percent-point functions (argument order: quantile, then the two keyword arguments as
   * written at the call site) and the exponential.
   */
  datatype Scipy = Scipy(
    triangPpf: (real, real, real) -> real,
    normPpf: (real, real, real) -> real,
    exp: real -> real)

  /** The names of the uncertain parameters (more than one value), in iteration order. */
  function UncertainNames(sp: Space, names: seq<string>): (r: seq<string>)
    requires forall n :: n in names ==> n in sp.entries
    ensures forall n :: n in r <==> n in names && |sp.entries[n]| > 1
    ensures |r| <= |names|
    ensures Distinct(names) ==> Distinct(r)
  {
    if names == [] then []
    else
      var n := names[|names| - 1];
      UncertainNames(sp, names[..|names| - 1]) + (if |sp.entries[n]| > 1 then [n] else [])
  }

  /** The certain parameters (exactly one value) with that value; empty ranges belong to neither side. */
  function CertainValues(sp: Space): (r: map<string, Value>)
    ensures forall n :: n in r <==> n in sp.entries && |sp.entries[n]| == 1
    ensures forall n :: n in r ==> r[n] == sp.entries[n][0]
  {
    map n | n in sp.entries && |sp.entries[n]| == 1 :: sp.entries[n][0]
  }

  /** omega[0] = floor((N - 1) / (2M)), over exact reals. */
  function BaseFrequency(n: int, m: int): (w: int)
    requires m != 0
    ensures (w as real) <= ((n - 1) as real) / ((2 * m) as real) < (w as real) + 1.0
  {
    (((n - 1) as real) / ((2 * m) as real)).Floor
  }

  /** The ceiling of the complementary frequencies: floor(omega[0] / (2M)). */
  function MaxComplementary(w0: int, m: int): (mc: int)
    requires m != 0
    ensures (mc as real) <= (w0 as real) / ((2 * m) as real) < (mc as real) + 1.0
  {
    ((w0 as real) / ((2 * m) as real)).Floor
  }

  lemma SquareNonNegative(m: int)
    ensures 4 * m * m >= 0
  {
  }

  /** The guard N > 4M^2 leaves room for at least one complementary frequency (M of either sign). */
  lemma CeilingAtLeastOne(n: int, m: int)
    requires m != 0 && n > 4 * m * m
    ensures MaxComplementary(BaseFrequency(n, m), m) >= 1
  {
    var d := (2 * m) as real;
    var a := (n - 1) as real;
    var w0 := BaseFrequency(n, m);
    assert a >= d * d by {
      assert n - 1 >= (2 * m) * (2 * m);
    }
    if m > 0 {
      DivAtLeast(a, d, d);
      FloorAtLeast(a / d, 2 * m);
      DivAtLeast(w0 as real, d, 1.0);
    } else {
      DivAtMostNegative(a, d);
      DivAtLeastNegative(w0 as real, d);
    }
    FloorAtLeast((w0 as real) / d, 1);
  }

  lemma FloorAtLeast(x: real, c: int)
    requires x >= c as real
    ensures x.Floor >= c
  {
  }

  lemma DivAtLeast(a: real, d: real, c: real)
    requires d > 0.0 && a >= c * d
    ensures a / d >= c
  {
    assert a / d * d == a;
    if a / d < c {
      MulMonotone(d, a / d, c);
      assert false;
    }
  }

  lemma DivAtMostNegative(a: real, d: real)
    requires d < 0.0 && a >= d * d
    ensures a / d <= d
  {
    var e := -d;
    assert a / d == -(a / e);
    DivAtLeast(a, e, e);
  }

  lemma DivAtLeastNegative(w: real, d: real)
    requires d < 0.0 && w <= d
    ensures w / d >= 1.0
  {
    var e := -d;
    assert w / d == (-w) / e;
    DivAtLeast(-w, e, 1.0);
  }

  /**
   * omega[1:]: with room for them, the floors of k-1 evenly spaced points from 1 to the
   * ceiling; otherwise the cycle 1, 2, .., ceiling, 1, 2, .. .
   */
  function Complementary(mc: int, k: nat): (r: seq<int>)
    requires k >= 1 && mc >= 1
    ensures |r| == k - 1
    ensures mc < k - 1 ==> forall i :: 0 <= i < k - 1 ==> r[i] == i % mc + 1
    ensures mc >= k - 1 ==> forall i :: 0 <= i < k - 1 ==> r[i] == Linspace(1.0, mc as real, k - 1)[i].Floor
  {
    if mc >= k - 1 then
      var pts := Linspace(1.0, mc as real, k - 1);
      seq(k - 1, i requires 0 <= i < k - 1 => pts[i].Floor)
    else
      seq(k - 1, i requires 0 <= i < k - 1 => i % mc + 1)
  }

  /** Every complementary frequency lies in [1, ceiling]; the evenly spaced ones never decrease. */
  lemma ComplementaryBounds(mc: int, k: nat)
    requires k >= 1 && mc >= 1
    ensures forall i :: 0 <= i < k - 1 ==> 1 <= Complementary(mc, k)[i] <= mc
    ensures mc >= k - 1 ==> forall i, j :: 0 <= i <= j < k - 1 ==> Complementary(mc, k)[i] <= Complementary(mc, k)[j]
  {
    var r := Complementary(mc, k);
    if mc >= k - 1 {
      var pts := Linspace(1.0, mc as real, k - 1);
      LinspaceBounded(1.0, mc as real, k - 1);
      forall i | 0 <= i < k - 1 ensures 1 <= r[i] <= mc {
        assert 1.0 <= pts[i] <= mc as real;
      }
    }
  }

  /** The frequency vector omega: the base frequency, then the complementary ones. */
  function Omega(n: int, m: int, k: nat): (omega: seq<int>)
    requires m != 0 && n > 4 * m * m && k >= 1
    ensures |omega| == k && omega[0] == BaseFrequency(n, m)
    ensures MaxComplementary(BaseFrequency(n, m), m) >= 1 &&
      omega[1..] == Complementary(MaxComplementary(BaseFrequency(n, m), m), k)
  {
    var w0 := BaseFrequency(n, m);
    CeilingAtLeastOne(n, m);
    var c := Complementary(MaxComplementary(w0, m), k);
    assert ([w0] + c)[1..] == c;
    [w0] + c
  }

  /**
   * omega2 for parameter of interest p: p is driven at omega[0] and the other parameters,
   * in index order skipping p, at omega[1:].
   */
  function PoiFrequencies(omega: seq<int>, p: nat): (w: seq<int>)
    requires p < |omega|
    ensures |w| == |omega| && w[p] == omega[0]
    ensures w[..p] + w[p + 1..] == omega[1..]
  {
    var w := omega[1..p + 1] + [omega[0]] + omega[p + 1..];
    assert w[..p] == omega[1..p + 1];
    assert w[p + 1..] == omega[p + 1..];
    w
  }

  /** Entry (p * N + r, q) of X: the search curve at parameter q's frequency for parameter of interest p, point r, phase of p. */
  function XEntry(omega: seq<int>, n: nat, phase: nat -> real, curve: (int, nat, nat, real) -> real, p: nat, r: nat, q: nat): real
    requires p < |omega| && q < |omega|
  {
    curve(PoiFrequencies(omega, p)[q], r, n, phase(p))
  }

  /** One iteration of the parameter-of-interest loop: block poi of X, column by column. */
  method FillBlock(x: array2<real>, omega2: seq<int>, n: nat, poi: nat, phi: real, curve: (int, nat, nat, real) -> real)
    returns ()
    requires 0 < n && (poi + 1) * n <= x.Length0 && x.Length1 == |omega2|
    modifies x
    ensures forall i, q :: poi * n <= i < poi * n + n && 0 <= q < x.Length1 ==>
      x[i, q] == curve(omega2[q], i - poi * n, n, phi)
    ensures forall i, q :: 0 <= i < x.Length0 && 0 <= q < x.Length1 && !(poi * n <= i < poi * n + n) ==>
      x[i, q] == old(x[i, q])
  {
    assert (poi + 1) * n == poi * n + n;
    var param := 0;
    while param < x.Length1
      invariant 0 <= param <= x.Length1
      invariant forall i, q :: poi * n <= i < poi * n + n && 0 <= q < param ==>
        x[i, q] == curve(omega2[q], i - poi * n, n, phi)
      invariant forall i, q :: 0 <= i < x.Length0 && 0 <= q < x.Length1 && !(poi * n <= i < poi * n + n) ==>
        x[i, q] == old(x[i, q])
    {
      var r := 0;
      while r < n
        invariant 0 <= r <= n
        invariant forall i, q :: poi * n <= i < poi * n + n && 0 <= q < param ==>
          x[i, q] == curve(omega2[q], i - poi * n, n, phi)
        invariant forall i :: poi * n <= i < poi * n + r ==>
          x[i, param] == curve(omega2[param], i - poi * n, n, phi)
        invariant forall i, q :: 0 <= i < x.Length0 && 0 <= q < x.Length1 && !(poi * n <= i < poi * n + n) ==>
          x[i, q] == old(x[i, q])
      {
        x[poi * n + r, param] := curve(omega2[param], r, n, phi);
        r := r + 1;
      }
      param := param + 1;
    }
  }

  /** Every entry of X holds the search-curve value of its block, point and column: row
    * p * N + r is point r of parameter of interest p. */
  ghost predicate Filled(x: array2<real>, omega: seq<int>, n: nat, phase: nat -> real, curve: (int, nat, nat, real) -> real)
    reads x
  {
    FilledBlocks(x, omega, n, phase, curve, |omega|)
  }

  /** The nested loops that fill X, N rows per parameter of interest. */
  method FillX(x: array2<real>, omega: seq<int>, n: nat, phase: nat -> real, curve: (int, nat, nat, real) -> real)
    requires 0 < n && x.Length0 == |omega| * n && x.Length1 == |omega|
    modifies x
    ensures Filled(x, omega, n, phase, curve)
  {
    var k := |omega|;
    var poi := 0;
    while poi < k
      invariant 0 <= poi <= k
      invariant FilledBlocks(x, omega, n, phase, curve, poi)
    {
      PoiPass(x, omega, n, poi, phase, curve);
      poi := poi + 1;
    }
  }

  /** One pass of the parameter-of-interest loop: the frequencies `omega2` for poi, then its
    * block of X, after which the filled blocks reach poi. */
  method PoiPass(x: array2<real>, omega: seq<int>, n: nat, poi: nat, phase: nat -> real,
                 curve: (int, nat, nat, real) -> real)
    requires 0 < n && poi < |omega| && x.Length0 == |omega| * n && x.Length1 == |omega|
    requires FilledBlocks(x, omega, n, phase, curve, poi)
    modifies x
    ensures FilledBlocks(x, omega, n, phase, curve, poi + 1)
  {
    var omega2 := PoiFrequencies(omega, poi);
    MulLeq(poi + 1, |omega|, n);
    FillBlock(x, omega2, n, poi, phase(poi), curve);
    forall b | 0 <= b < poi
      ensures BlockFilled(x, omega, n, phase, curve, b)
    {
      assert old(BlockFilled(x, omega, n, phase, curve, b));
      forall r, q | 0 <= r < n && 0 <= q < |omega|
        ensures x[b * n + r, q] == XEntry(omega, n, phase, curve, b, r, q)
      {
        BlockBound(b, r, n, poi);
      }
    }
    assert BlockFilled(x, omega, n, phase, curve, poi);
  }

  /** The first p blocks of X, rows 0 .. p * N - 1, hold their search-curve values. */
  ghost predicate FilledBlocks(x: array2<real>, omega: seq<int>, n: nat, phase: nat -> real,
                               curve: (int, nat, nat, real) -> real, p: nat)
    reads x
  {
    0 < n && p <= |omega| && x.Length1 == |omega| &&
    forall b :: 0 <= b < p ==> BlockFilled(x, omega, n, phase, curve, b)
  }

  /** Block b of X, rows b * N .. b * N + N - 1, holds the search-curve values of parameter of
    * interest b: row b * N + r is its point r. */
  ghost predicate BlockFilled(x: array2<real>, omega: seq<int>, n: nat, phase: nat -> real,
                              curve: (int, nat, nat, real) -> real, b: nat)
    reads x
  {
    b < |omega| && b * n + n <= x.Length0 && x.Length1 == |omega| &&
    forall r, q :: 0 <= r < n && 0 <= q < |omega| ==>
      x[b * n + r, q] == XEntry(omega, n, phase, curve, b, r, q)
  }

  /** Row b * N + r of a filled X is point r of parameter of interest b. */
  lemma FilledRow(x: array2<real>, omega: seq<int>, n: nat, phase: nat -> real,
                  curve: (int, nat, nat, real) -> real, b: nat, r: nat, q: nat)
    requires Filled(x, omega, n, phase, curve)
    requires b < |omega| && r < n && q < |omega|
    ensures b * n + r < x.Length0 && x[b * n + r, q] == XEntry(omega, n, phase, curve, b, r, q)
  {
    assert BlockFilled(x, omega, n, phase, curve, b);
  }

  /** Row j of a filled X is XRow j. */
  lemma RowOfFilled(x: array2<real>, omega: seq<int>, n: nat, phase: nat -> real,
                    curve: (int, nat, nat, real) -> real, j: nat)
    requires Filled(x, omega, n, phase, curve) && x.Length0 == |omega| * n && j < x.Length0
    ensures forall q :: 0 <= q < |omega| ==> x[j, q] == XRow(omega, n, phase, curve, j)[q]
  {
    RowSplit(j, n);
    DivBelow(j, |omega|, n);
    forall q | 0 <= q < |omega|
      ensures x[j, q] == XRow(omega, n, phase, curve, j)[q]
    {
      FilledRow(x, omega, n, phase, curve, j / n, j % n, q);
    }
  }

  /** The distribution transform of one search-curve value u for one uncertain parameter [min, max, dist]. */
  function Transform(v: seq<Value>, u: real, scipy: Scipy): (r: Result<real>)
    ensures |v| < 3 ==> r == Err(IndexError)
    ensures |v| >= 3 && v[2] !in {Text("triang"), Text("unif"), Text("norm"), Text("lognorm")} ==> r == Err(ValueError)
    ensures |v| >= 3 && v[2] == Text("unif") && v[0].Num? && v[1].Num? ==>
      r.Ok? && r.value == Stretch(u, v[0].x, v[1].x)
  {
    if |v| < 3 then Err(IndexError)
    else
      var lo, hi, dist := v[0], v[1], v[2];
      if dist == Text("triang") then
        if lo.Num? && hi.Num? then Ok(scipy.triangPpf(u, hi.x, lo.x)) else Err(TypeError)
      else if dist == Text("unif") then
        if lo.Num? && hi.Num? then Ok(Stretch(u, lo.x, hi.x)) else Err(TypeError)
      else if dist == Text("norm") then
        if lo.Num? && hi.Num? then Ok(scipy.normPpf(u, lo.x, hi.x)) else Err(TypeError)
      else if dist == Text("lognorm") then
        if lo.Num? && hi.Num? then Ok(scipy.exp(scipy.normPpf(u, lo.x, hi.x))) else Err(TypeError)
      else Err(ValueError)
  }

  /** Whether a transform raises depends on the parameter's description only, never on u. */
  lemma TransformFailsAlike(v: seq<Value>, u: real, u': real, scipy: Scipy)
    ensures Transform(v, u, scipy).Err? <==> Transform(v, u', scipy).Err?
    ensures Transform(v, u, scipy).Err? ==> Transform(v, u, scipy).error == Transform(v, u', scipy).error
  {
  }

  /** The uniform transform maps a curve value in [0, 1] into [min, max]. */
  lemma UniformInRange(v: seq<Value>, u: real, scipy: Scipy)
    requires |v| >= 3 && v[2] == Text("unif") && v[0].Num? && v[1].Num? && v[0].x <= v[1].x
    requires 0.0 <= u <= 1.0
    ensures Transform(v, u, scipy).Ok?
    ensures v[0].x <= Transform(v, u, scipy).value <= v[1].x
  {
  }

  /** One row of the sample list: the certain values, then each uncertain column 0 .. p-1 transformed. */
  function ConvertRow(sp: Space, names: seq<string>, xs: seq<real>, scipy: Scipy, p: nat): (r: Result<Sample>)
    requires p <= |names| && p <= |xs|
    requires forall n :: n in names ==> n in sp.entries
  {
    if p == 0 then Ok(CertainValues(sp))
    else
      var prev :- ConvertRow(sp, names, xs, scipy, p - 1);
      var val :- Transform(sp.entries[names[p - 1]], xs[p - 1], scipy);
      Ok(prev[names[p - 1] := Num(val)])
  }

  /** Row i of X. */
  function XRow(omega: seq<int>, n: nat, phase: nat -> real, curve: (int, nat, nat, real) -> real, i: nat): (xs: seq<real>)
    requires 0 < n && i < |omega| * n
    ensures |xs| == |omega| && i / n < |omega|
    ensures forall q :: 0 <= q < |omega| ==> xs[q] == XEntry(omega, n, phase, curve, i / n, i % n, q)
  {
    DivBelow(i, n, |omega|);
    seq(|omega|, q requires 0 <= q < |omega| => XEntry(omega, n, phase, curve, i / n, i % n, q))
  }

  /** The first j samples, or the exception the first failing one raises. */
  function Samples(sp: Space, names: seq<string>, omega: seq<int>, n: nat, phase: nat -> real,
                   curve: (int, nat, nat, real) -> real, scipy: Scipy, j: nat): (r: Result<seq<Sample>>)
    requires 0 < n && |names| == |omega| && j <= |omega| * n
    requires forall nm :: nm in names ==> nm in sp.entries
    ensures r.Ok? ==> |r.value| == j
  {
    if j == 0 then Ok([])
    else
      var prev :- Samples(sp, names, omega, n, phase, curve, scipy, j - 1);
      var row :- ConvertRow(sp, names, XRow(omega, n, phase, curve, j - 1), scipy, |names|);
      Ok(prev + [row])
  }

  /** What `efast_sample_matrix(N, M, parameters)` returns. */
  function EfastSpec(n: int, m: int, sp: Space, phase: nat -> real, curve: (int, nat, nat, real) -> real, scipy: Scipy)
    : (r: Result<seq<Sample>>)
    requires sp.Wf()
    ensures n <= 4 * m * m ==> r == Err(ValueError)
    ensures n > 4 * m * m && m == 0 ==> r == Err(ZeroDivisionError)
    ensures n > 4 * m * m && m != 0 && UncertainNames(sp, sp.keys) == [] ==> r == Err(IndexError)
  {
    if n <= 4 * m * m then Err(ValueError)
    else if m == 0 then Err(ZeroDivisionError)
    else
      var names := UncertainNames(sp, sp.keys);
      var k := |names|;
      if k == 0 then Err(IndexError)
      else Samples(sp, names, Omega(n, m, k), n, phase, curve, scipy, k * n)
  }

  /** One iteration of the sample loop: copy the certain values, then transform every uncertain column. */
  method ConvertRowLoop(sp: Space, names: seq<string>, xs: seq<real>, scipy: Scipy) returns (r: Result<Sample>)
    requires |names| <= |xs|
    requires forall nm :: nm in names ==> nm in sp.entries
    ensures r == ConvertRow(sp, names, xs, scipy, |names|)
  {
    var sample := CertainValues(sp);
    var p := 0;
    while p < |names|
      invariant 0 <= p <= |names|
      invariant ConvertRow(sp, names, xs, scipy, p) == Ok(sample)
    {
      var val := Transform(sp.entries[names[p]], xs[p], scipy);
      if val.Err? {
        ConvertRowFailureStays(sp, names, xs, scipy, p + 1);
        return Err(val.error);
      }
      sample := sample[names[p] := Num(val.value)];
      p := p + 1;
    }
    r := Ok(sample);
  }

  lemma {:induction false} ConvertRowFailureStays(sp: Space, names: seq<string>, xs: seq<real>, scipy: Scipy, p: nat)
    requires p <= |names| <= |xs|
    requires forall nm :: nm in names ==> nm in sp.entries
    requires ConvertRow(sp, names, xs, scipy, p).Err?
    ensures ConvertRow(sp, names, xs, scipy, |names|) == ConvertRow(sp, names, xs, scipy, p)
    decreases |names| - p
  {
    if p < |names| {
      ConvertRowFailureStays(sp, names, xs, scipy, p + 1);
    }
  }

  /** `efast_sample_matrix`: guard, frequencies, the X matrix, then one converted sample per row of X. */
  method EfastSampleMatrix(n: int, m: int, sp: Space, phase: nat -> real, curve: (int, nat, nat, real) -> real,
                           scipy: Scipy) returns (r: Result<seq<Sample>>)
    requires sp.Wf()
    ensures r == EfastSpec(n, m, sp, phase, curve, scipy)
  {
    if n <= 4 * m * m {
      return Err(ValueError);
    }
    if m == 0 {
      return Err(ZeroDivisionError);
    }
    var names := UncertainNames(sp, sp.keys);
    var k := |names|;
    if k == 0 {
      return Err(IndexError);
    }
    SquareNonNegative(m);
    var omega := Omega(n, m, k);
    var x := new real[k * n, k];
    FillX(x, omega, n, phase, curve);
    r := ConvertSamples(sp, names, omega, n, x, phase, curve, scipy);
    assert EfastSpec(n, m, sp, phase, curve, scipy) == Samples(sp, names, omega, n, phase, curve, scipy, k * n);
  }

  /** The sample loop over the rows of X. */
  method ConvertSamples(sp: Space, names: seq<string>, omega: seq<int>, n: nat, x: array2<real>,
                        phase: nat -> real, curve: (int, nat, nat, real) -> real, scipy: Scipy)
    returns (r: Result<seq<Sample>>)
    requires 0 < n && |names| == |omega| && x.Length0 == |omega| * n && x.Length1 == |omega|
    requires forall nm :: nm in names ==> nm in sp.entries
    requires Filled(x, omega, n, phase, curve)
    ensures r == Samples(sp, names, omega, n, phase, curve, scipy, |omega| * n)
  {
    var samples: seq<Sample> := [];
    var j := 0;
    while j < x.Length0
      invariant 0 <= j <= x.Length0
      invariant Samples(sp, names, omega, n, phase, curve, scipy, j) == Ok(samples)
    {
      var next := SampleStep(sp, names, omega, n, x, phase, curve, scipy, j, samples);
      if next.Err? {
        SamplesFailureStays(sp, names, omega, n, phase, curve, scipy, j + 1);
        return next;
      }
      samples := next.value;
      j := j + 1;
    }
    r := Ok(samples);
  }

  /** One iteration of the sample loop: row j of X converted and appended to the samples so far. */
  method SampleStep(sp: Space, names: seq<string>, omega: seq<int>, n: nat, x: array2<real>,
                    phase: nat -> real, curve: (int, nat, nat, real) -> real, scipy: Scipy,
                    j: nat, samples: seq<Sample>)
    returns (r: Result<seq<Sample>>)
    requires 0 < n && |names| == |omega| && x.Length0 == |omega| * n && x.Length1 == |omega|
    requires forall nm :: nm in names ==> nm in sp.entries
    requires Filled(x, omega, n, phase, curve) && j < x.Length0
    requires Samples(sp, names, omega, n, phase, curve, scipy, j) == Ok(samples)
    ensures r == Samples(sp, names, omega, n, phase, curve, scipy, j + 1)
  {
    var xs := ReadRow(x, omega, n, phase, curve, j);
    var row := ConvertRowLoop(sp, names, xs, scipy);
    if row.Err? {
      return Err(row.error);
    }
    r := Ok(samples + [row.value]);
  }

  /** `X[j, :]` of a filled X: the search-curve values of row j. */
  method ReadRow(x: array2<real>, omega: seq<int>, n: nat, phase: nat -> real,
                 curve: (int, nat, nat, real) -> real, j: nat) returns (xs: seq<real>)
    requires Filled(x, omega, n, phase, curve) && x.Length0 == |omega| * n && j < x.Length0
    ensures xs == XRow(omega, n, phase, curve, j)
  {
    xs := RowOf(x, j);
    RowOfFilled(x, omega, n, phase, curve, j);
  }

  /** `X[j, :]`. */
  method RowOf(x: array2<real>, j: nat) returns (xs: seq<real>)
    requires j < x.Length0
    ensures |xs| == x.Length1 && forall q :: 0 <= q < x.Length1 ==> xs[q] == x[j, q]
  {
    xs := [];
    var q := 0;
    while q < x.Length1
      invariant 0 <= q <= x.Length1
      invariant |xs| == q && forall t :: 0 <= t < q ==> xs[t] == x[j, t]
    {
      xs := xs + [x[j, q]];
      q := q + 1;
    }
  }

  lemma {:induction false} SamplesFailureStays(sp: Space, names: seq<string>, omega: seq<int>, n: nat, phase: nat -> real,
                                               curve: (int, nat, nat, real) -> real, scipy: Scipy, j: nat)
    requires 0 < n && |names| == |omega| && j <= |omega| * n
    requires forall nm :: nm in names ==> nm in sp.entries
    requires Samples(sp, names, omega, n, phase, curve, scipy, j).Err?
    ensures Samples(sp, names, omega, n, phase, curve, scipy, |omega| * n) == Samples(sp, names, omega, n, phase, curve, scipy, j)
    decreases |omega| * n - j
  {
    if j < |omega| * n {
      SamplesFailureStays(sp, names, omega, n, phase, curve, scipy, j + 1);
    }
  }

  /** The exception the transform of a parameter described by v raises, whatever the curve value. */
  function ColumnError(v: seq<Value>): (e: Option<Error>)
    ensures e.Some? ==> e.value in {IndexError, ValueError, TypeError}
  {
    if |v| < 3 then Some(IndexError)
    else if v[2] !in {Text("triang"), Text("unif"), Text("norm"), Text("lognorm")} then Some(ValueError)
    else if !(v[0].Num? && v[1].Num?) then Some(TypeError)
    else None
  }

  /** A transform raises exactly the exception its column description predicts, for every curve value. */
  lemma TransformFailsByColumn(v: seq<Value>, u: real, scipy: Scipy)
    ensures Transform(v, u, scipy).Err? <==> ColumnError(v).Some?
    ensures Transform(v, u, scipy).Err? ==> Transform(v, u, scipy).error == ColumnError(v).value
  {
  }

  /** The first of the first p uncertain columns, in order, whose description makes the transform raise. */
  function FirstBadColumn(sp: Space, names: seq<string>, p: nat): Option<Error>
    requires p <= |names|
    requires forall nm :: nm in names ==> nm in sp.entries
  {
    if p == 0 then None
    else
      var prev := FirstBadColumn(sp, names, p - 1);
      if prev.Some? then prev else ColumnError(sp.entries[names[p - 1]])
  }

  /** Converting one row raises exactly the first bad column's exception. */
  lemma {:induction false} ConvertRowFails(sp: Space, names: seq<string>, xs: seq<real>, scipy: Scipy, p: nat)
    requires p <= |names| <= |xs|
    requires forall nm :: nm in names ==> nm in sp.entries
    ensures ConvertRow(sp, names, xs, scipy, p).Err? <==> FirstBadColumn(sp, names, p).Some?
    ensures ConvertRow(sp, names, xs, scipy, p).Err? ==>
      ConvertRow(sp, names, xs, scipy, p).error == FirstBadColumn(sp, names, p).value
  {
    if p > 0 {
      ConvertRowFails(sp, names, xs, scipy, p - 1);
      TransformFailsByColumn(sp.entries[names[p - 1]], xs[p - 1], scipy);
    }
  }

  /**
   * A converted row holds every certain value unchanged and every uncertain column's
   * transformed curve value, and nothing else.
   */
  lemma ConvertRowContents(sp: Space, names: seq<string>, xs: seq<real>, scipy: Scipy, p: nat)
    requires p <= |names| <= |xs| && Distinct(names)
    requires forall nm :: nm in names ==> nm in sp.entries && |sp.entries[nm]| > 1
    requires ConvertRow(sp, names, xs, scipy, p).Ok?
    ensures var s := ConvertRow(sp, names, xs, scipy, p).value;
      s.Keys == CertainValues(sp).Keys + set t | 0 <= t < p :: names[t]
    ensures var s := ConvertRow(sp, names, xs, scipy, p).value;
      forall nm :: nm in CertainValues(sp) ==> s[nm] == CertainValues(sp)[nm]
    ensures var s := ConvertRow(sp, names, xs, scipy, p).value;
      forall t :: 0 <= t < p ==>
        (names[t] in s && Transform(sp.entries[names[t]], xs[t], scipy).Ok? &&
         s[names[t]] == Num(Transform(sp.entries[names[t]], xs[t], scipy).value))
  {
    ConvertRowKeys(sp, names, xs, scipy, p);
    ConvertRowCertain(sp, names, xs, scipy, p);
    ConvertRowUncertain(sp, names, xs, scipy, p);
  }

  /** One step of a successful row: the previous columns succeeded and column p - 1 is added. */
  lemma ConvertRowStep(sp: Space, names: seq<string>, xs: seq<real>, scipy: Scipy, p: nat)
    requires 0 < p <= |names| <= |xs|
    requires forall nm :: nm in names ==> nm in sp.entries
    requires ConvertRow(sp, names, xs, scipy, p).Ok?
    ensures ConvertRow(sp, names, xs, scipy, p - 1).Ok?
    ensures Transform(sp.entries[names[p - 1]], xs[p - 1], scipy).Ok?
    ensures ConvertRow(sp, names, xs, scipy, p).value ==
      ConvertRow(sp, names, xs, scipy, p - 1).value[names[p - 1] := Num(Transform(sp.entries[names[p - 1]], xs[p - 1], scipy).value)]
  {
  }

  lemma {:induction false} ConvertRowKeys(sp: Space, names: seq<string>, xs: seq<real>, scipy: Scipy, p: nat)
    requires p <= |names| <= |xs|
    requires forall nm :: nm in names ==> nm in sp.entries
    requires ConvertRow(sp, names, xs, scipy, p).Ok?
    ensures ConvertRow(sp, names, xs, scipy, p).value.Keys == CertainValues(sp).Keys + set t | 0 <= t < p :: names[t]
  {
    if p > 0 {
      ConvertRowStep(sp, names, xs, scipy, p);
      ConvertRowKeys(sp, names, xs, scipy, p - 1);
      assert (set t | 0 <= t < p :: names[t]) == (set t | 0 <= t < p - 1 :: names[t]) + {names[p - 1]};
    }
  }

  lemma {:induction false} ConvertRowCertain(sp: Space, names: seq<string>, xs: seq<real>, scipy: Scipy, p: nat)
    requires p <= |names| <= |xs|
    requires forall nm :: nm in names ==> nm in sp.entries && |sp.entries[nm]| > 1
    requires ConvertRow(sp, names, xs, scipy, p).Ok?
    ensures forall nm :: nm in CertainValues(sp) ==>
      nm in ConvertRow(sp, names, xs, scipy, p).value &&
      ConvertRow(sp, names, xs, scipy, p).value[nm] == CertainValues(sp)[nm]
  {
    if p > 0 {
      ConvertRowStep(sp, names, xs, scipy, p);
      ConvertRowCertain(sp, names, xs, scipy, p - 1);
      assert names[p - 1] !in CertainValues(sp);
    }
  }

  lemma {:induction false} ConvertRowUncertain(sp: Space, names: seq<string>, xs: seq<real>, scipy: Scipy, p: nat)
    requires p <= |names| <= |xs| && Distinct(names)
    requires forall nm :: nm in names ==> nm in sp.entries
    requires ConvertRow(sp, names, xs, scipy, p).Ok?
    ensures forall t :: 0 <= t < p ==>
      (names[t] in ConvertRow(sp, names, xs, scipy, p).value &&
       Transform(sp.entries[names[t]], xs[t], scipy).Ok? &&
       ConvertRow(sp, names, xs, scipy, p).value[names[t]] == Num(Transform(sp.entries[names[t]], xs[t], scipy).value))
  {
    if p > 0 {
      ConvertRowStep(sp, names, xs, scipy, p);
      ConvertRowUncertain(sp, names, xs, scipy, p - 1);
      forall t | 0 <= t < p - 1 ensures names[t] != names[p - 1] {
      }
    }
  }

  /** The rows computed so far: either the first bad column's exception, or one converted row of X each. */
  lemma {:induction false} SamplesMeaning(sp: Space, names: seq<string>, omega: seq<int>, n: nat, phase: nat -> real,
                                          curve: (int, nat, nat, real) -> real, scipy: Scipy, j: nat)
    requires 0 < n && |names| == |omega| && j <= |omega| * n
    requires forall nm :: nm in names ==> nm in sp.entries
    ensures Samples(sp, names, omega, n, phase, curve, scipy, j).Err? <==>
      j > 0 && FirstBadColumn(sp, names, |names|).Some?
    ensures Samples(sp, names, omega, n, phase, curve, scipy, j).Err? ==>
      Samples(sp, names, omega, n, phase, curve, scipy, j).error == FirstBadColumn(sp, names, |names|).value
    ensures Samples(sp, names, omega, n, phase, curve, scipy, j).Ok? ==>
      forall i :: 0 <= i < j ==>
        ConvertRow(sp, names, XRow(omega, n, phase, curve, i), scipy, |names|).Ok? &&
        Samples(sp, names, omega, n, phase, curve, scipy, j).value[i] ==
          ConvertRow(sp, names, XRow(omega, n, phase, curve, i), scipy, |names|).value
  {
    SamplesFailure(sp, names, omega, n, phase, curve, scipy, j);
    SamplesContents(sp, names, omega, n, phase, curve, scipy, j);
  }

  /** The sample loop fails, once it has a row to convert, exactly when some column is unusable. */
  lemma {:induction false} SamplesFailure(sp: Space, names: seq<string>, omega: seq<int>, n: nat, phase: nat -> real,
                                          curve: (int, nat, nat, real) -> real, scipy: Scipy, j: nat)
    requires 0 < n && |names| == |omega| && j <= |omega| * n
    requires forall nm :: nm in names ==> nm in sp.entries
    ensures Samples(sp, names, omega, n, phase, curve, scipy, j).Err? <==>
      j > 0 && FirstBadColumn(sp, names, |names|).Some?
    ensures Samples(sp, names, omega, n, phase, curve, scipy, j).Err? ==>
      Samples(sp, names, omega, n, phase, curve, scipy, j).error == FirstBadColumn(sp, names, |names|).value
  {
    if j > 0 {
      SamplesFailure(sp, names, omega, n, phase, curve, scipy, j - 1);
      ConvertRowFails(sp, names, XRow(omega, n, phase, curve, j - 1), scipy, |names|);
    }
  }

  /** Sample i of a successful loop is row i of X converted. */
  lemma {:induction false} SamplesContents(sp: Space, names: seq<string>, omega: seq<int>, n: nat, phase: nat -> real,
                                           curve: (int, nat, nat, real) -> real, scipy: Scipy, j: nat)
    requires 0 < n && |names| == |omega| && j <= |omega| * n
    requires forall nm :: nm in names ==> nm in sp.entries
    ensures Samples(sp, names, omega, n, phase, curve, scipy, j).Ok? ==>
      forall i :: 0 <= i < j ==>
        ConvertRow(sp, names, XRow(omega, n, phase, curve, i), scipy, |names|).Ok? &&
        Samples(sp, names, omega, n, phase, curve, scipy, j).value[i] ==
          ConvertRow(sp, names, XRow(omega, n, phase, curve, i), scipy, |names|).value
  {
    if j > 0 {
      SamplesContents(sp, names, omega, n, phase, curve, scipy, j - 1);
      var cur := Samples(sp, names, omega, n, phase, curve, scipy, j);
      if cur.Ok? {
        var prev := Samples(sp, names, omega, n, phase, curve, scipy, j - 1);
        var row := ConvertRow(sp, names, XRow(omega, n, phase, curve, j - 1), scipy, |names|);
        assert prev.Ok? && row.Ok? && cur.value == prev.value + [row.value];
      }
    }
  }

  /** The uncertain names of a well-formed dict are distinct and all uncertain. */
  lemma UncertainNamesFacts(sp: Space)
    requires sp.Wf()
    ensures Distinct(UncertainNames(sp, sp.keys))
    ensures forall nm :: nm in UncertainNames(sp, sp.keys) ==> nm in sp.entries && |sp.entries[nm]| > 1
  {
  }

  /**
   * Past the guard (N > 4M^2, M != 0, at least one uncertain parameter) the generator raises
   * exactly when some uncertain parameter's description is unusable; otherwise it returns N * k
   * samples.
   */
  lemma EfastFailsOrCounts(n: int, m: int, sp: Space, phase: nat -> real, curve: (int, nat, nat, real) -> real, scipy: Scipy)
    requires sp.Wf() && n > 4 * m * m && m != 0 && UncertainNames(sp, sp.keys) != []
    ensures var names := UncertainNames(sp, sp.keys);
      var r := EfastSpec(n, m, sp, phase, curve, scipy);
      (r.Err? <==> FirstBadColumn(sp, names, |names|).Some?) &&
      (r.Err? ==> r.error == FirstBadColumn(sp, names, |names|).value) &&
      (r.Ok? ==> |r.value| == |names| * n)
  {
    var names := UncertainNames(sp, sp.keys);
    UncertainNamesFacts(sp);
    SquareNonNegative(m);
    MulAtLeast(n, |names|);
    assert |names| * n >= 1;
    SamplesMeaning(sp, names, Omega(n, m, |names|), n, phase, curve, scipy, |names| * n);
  }

  /**
   * Sample s is row j of the sample list: it assigns every certain parameter its single
   * value and every uncertain parameter q the transform of entry (j, q) of X, and nothing else.
   */
  ghost predicate IsRow(sp: Space, names: seq<string>, omega: seq<int>, n: nat, phase: nat -> real,
                        curve: (int, nat, nat, real) -> real, scipy: Scipy, s: Sample, j: nat)
    requires 0 < n && |names| == |omega|
    requires forall nm :: nm in names ==> nm in sp.entries
  {
    j / n < |omega| &&
    s.Keys == CertainValues(sp).Keys + (set nm | nm in names) &&
    (forall nm :: nm in sp.entries && |sp.entries[nm]| == 1 ==> nm in s && s[nm] == sp.entries[nm][0]) &&
    (forall q :: 0 <= q < |names| ==>
      (Transform(sp.entries[names[q]], XEntry(omega, n, phase, curve, j / n, j % n, q), scipy).Ok? &&
       s[names[q]] == Num(Transform(sp.entries[names[q]], XEntry(omega, n, phase, curve, j / n, j % n, q), scipy).value)))
  }

  /** Row j of the sample list, described column by column. */
  lemma RowContents(sp: Space, names: seq<string>, omega: seq<int>, n: nat, phase: nat -> real,
                    curve: (int, nat, nat, real) -> real, scipy: Scipy, j: nat)
    requires 0 < n && |names| == |omega| && Distinct(names)
    requires forall nm :: nm in names ==> nm in sp.entries && |sp.entries[nm]| > 1
    requires Samples(sp, names, omega, n, phase, curve, scipy, |omega| * n).Ok? && j < |omega| * n
    ensures IsRow(sp, names, omega, n, phase, curve, scipy,
                  Samples(sp, names, omega, n, phase, curve, scipy, |omega| * n).value[j], j)
  {
    SamplesMeaning(sp, names, omega, n, phase, curve, scipy, |omega| * n);
    var xs := XRow(omega, n, phase, curve, j);
    ConvertRowContents(sp, names, xs, scipy, |names|);
    assert (set t | 0 <= t < |names| :: names[t]) == (set nm | nm in names);
  }

  /**
   * Sample j belongs to the block of parameter of interest j / N: it holds every certain
   * parameter at its single value and every uncertain parameter q at the transform of the
   * search curve taken at q's frequency for that block, point j mod N and that block's phase.
   */
  lemma EfastSampleContents(n: int, m: int, sp: Space, phase: nat -> real, curve: (int, nat, nat, real) -> real,
                            scipy: Scipy, j: nat)
    requires sp.Wf() && n > 4 * m * m && m != 0 && UncertainNames(sp, sp.keys) != []
    requires EfastSpec(n, m, sp, phase, curve, scipy).Ok? && j < |EfastSpec(n, m, sp, phase, curve, scipy).value|
    ensures n > 0
    ensures IsRow(sp, UncertainNames(sp, sp.keys), Omega(n, m, |UncertainNames(sp, sp.keys)|), n, phase, curve, scipy,
                  EfastSpec(n, m, sp, phase, curve, scipy).value[j], j)
  {
    var names := UncertainNames(sp, sp.keys);
    UncertainNamesFacts(sp);
    SquareNonNegative(m);
    var omega := Omega(n, m, |names|);
    assert EfastSpec(n, m, sp, phase, curve, scipy) == Samples(sp, names, omega, n, phase, curve, scipy, |omega| * n);
    RowContents(sp, names, omega, n, phase, curve, scipy, j);
  }

  /**
   * In block p the parameter of interest p runs at the base frequency omega[0] and every
   * other parameter at a complementary frequency in [1, ceiling].
   */
  lemma EfastBlockFrequencies(n: int, m: int, k: nat, p: nat, q: nat)
    requires n > 4 * m * m && m != 0 && p < k && q < k
    ensures var omega := Omega(n, m, k);
      var w := PoiFrequencies(omega, p);
      (q == p ==> w[q] == BaseFrequency(n, m)) &&
      (q != p ==> 1 <= w[q] <= MaxComplementary(BaseFrequency(n, m), m))
  {
    var omega := Omega(n, m, k);
    var w := PoiFrequencies(omega, p);
    var mc := MaxComplementary(BaseFrequency(n, m), m);
    ComplementaryBounds(mc, k);
    if q < p {
      assert w[q] == (w[..p] + w[p + 1..])[q] == omega[1..][q];
    } else if q > p {
      assert w[q] == (w[..p] + w[p + 1..])[q - 1] == omega[1..][q - 1];
    }
  }

  /**
   * `parameterSpace` as written: empty without parameters; otherwise the assertion checks
   * only that the sample number is positive (the interference test after the comma is the
   * assertion's message), then the generator runs.
   */
  function LabParameterSpace(n: int, m: int, sp: Space, phase: nat -> real, curve: (int, nat, nat, real) -> real,
                             scipy: Scipy): (r: Result<seq<Sample>>)
    requires sp.Wf()
    ensures sp.keys == [] ==> r == Ok([])
    ensures sp.keys != [] && n <= 0 ==> r == Err(AssertionError)
    ensures sp.keys != [] && n > 0 ==> r == EfastSpec(n, m, sp, phase, curve, scipy)
  {
    if |sp.keys| == 0 then Ok([])
    else if !(n > 0) then Err(AssertionError)
    else EfastSpec(n, m, sp, phase, curve, scipy)
  }

  /** An interference factor of 0 passes the assertion and then divides by zero. */
  lemma ZeroInterferenceDividesByZero(phase: nat -> real, curve: (int, nat, nat, real) -> real, scipy: Scipy)
    ensures var sp := Dict(["a"], map["a" := [Num(0.0), Num(1.0), Text("unif")]]);
      sp.Wf() && LabParameterSpace(1, 0, sp, phase, curve, scipy) == Err(ZeroDivisionError)
  {
  }

  /** `parameterSpace` with the assertion both conditions were evidently meant to have. */
  function CheckedParameterSpace(n: int, m: int, sp: Space, phase: nat -> real, curve: (int, nat, nat, real) -> real,
                                 scipy: Scipy): (r: Result<seq<Sample>>)
    requires sp.Wf()
  {
    if |sp.keys| == 0 then Ok([])
    else if !(n > 0 && m > 0) then Err(AssertionError)
    else EfastSpec(n, m, sp, phase, curve, scipy)
  }

  /**
   * With both settings checked the generator never divides by zero, and it agrees with the
   * written lab whenever the interference factor is positive.
   */
  lemma CheckedNeverDividesByZero(n: int, m: int, sp: Space, phase: nat -> real, curve: (int, nat, nat, real) -> real,
                                  scipy: Scipy)
    requires sp.Wf()
    ensures var r := CheckedParameterSpace(n, m, sp, phase, curve, scipy);
      r.Err? ==> r.error != ZeroDivisionError
    ensures m > 0 ==> CheckedParameterSpace(n, m, sp, phase, curve, scipy) == LabParameterSpace(n, m, sp, phase, curve, scipy)
  {
    var r := CheckedParameterSpace(n, m, sp, phase, curve, scipy);
    if |sp.keys| > 0 && n > 0 && m > 0 && n > 4 * m * m && UncertainNames(sp, sp.keys) != [] {
      EfastFailsOrCounts(n, m, sp, phase, curve, scipy);
      var names := UncertainNames(sp, sp.keys);
      FirstBadColumnKinds(sp, names, |names|);
    }
  }

  lemma {:induction false} FirstBadColumnKinds(sp: Space, names: seq<string>, p: nat)
    requires p <= |names|
    requires forall nm :: nm in names ==> nm in sp.entries
    ensures FirstBadColumn(sp, names, p).Some? ==> FirstBadColumn(sp, names, p).value in {IndexError, ValueError, TypeError}
  {
    if p > 0 {
      FirstBadColumnKinds(sp, names, p - 1);
    }
  }

  /** The epyc eFAST lab: its parameters, sample number N and interference factor M. */
  class EFASTLab {
    var parameters: Space
    var sampleNumber: int
    var interference: int

    constructor (ps: Space)
      requires ps.Wf()
      ensures parameters == ps && sampleNumber == 0 && interference == 0
    {
      parameters := ps;
      sampleNumber := 0;
      interference := 0;
    }

    method SetSampleNumber(samples: int)
      modifies this
      ensures sampleNumber == samples
      ensures parameters == old(parameters) && interference == old(interference)
    {
      sampleNumber := samples;
    }

    method SetInterferenceFactor(factor: int)
      modifies this
      ensures interference == factor
      ensures parameters == old(parameters) && sampleNumber == old(sampleNumber)
    {
      interference := factor;
    }

    /** `parameterSpace`: the lab's settings handed to the generator behind the written assertion. */
    method ParameterSpace(phase: nat -> real, curve: (int, nat, nat, real) -> real, scipy: Scipy)
      returns (r: Result<seq<Sample>>)
      requires parameters.Wf()
      ensures r == LabParameterSpace(sampleNumber, interference, parameters, phase, curve, scipy)
    {
      if |parameters.keys| == 0 {
        return Ok([]);
      }
      if !(sampleNumber > 0) {
        return Err(AssertionError);
      }
      r := EfastSampleMatrix(sampleNumber, interference, parameters, phase, curve, scipy);
    }
  }
}

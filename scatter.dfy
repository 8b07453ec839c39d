/**
 * The one-factor-at-a-time "scatter" sampler: every value of every parameter's range,
 * each run against the baseline (middle) value of all the other parameters, followed by
 * one sample with every parameter at its baseline.
 */
module ScatterSampler {
  import opened Common

  /** Every range holds at least one value, so every baseline exists. */
  predicate AllNonEmpty(sp: Space) {
    forall n :: n in sp.entries ==> |sp.entries[n]| > 0
  }

  /** The baseline of one range: the element at index len/2 (integer division), or the only element. */
  function Middle(range: seq<Value>): (b: Value)
    requires |range| > 0
    ensures b in range
  {
    if |range| > 1 then range[|range| / 2] else range[0]
  }

  /** The baseline sample: every parameter at the middle of its range. */
  function Baseline(sp: Space): (base: Sample)
    requires AllNonEmpty(sp)
    ensures base.Keys == sp.entries.Keys
    ensures forall n :: n in base ==> base[n] in sp.entries[n]
  {
    map n | n in sp.entries :: Middle(sp.entries[n])
  }

  /** The samples that vary parameter n over vals: one per value that differs from the baseline, in order. */
  function Variants(base: Sample, n: string, vals: seq<Value>): seq<Sample>
    requires n in base
  {
    if vals == [] then []
    else
      var v := vals[|vals| - 1];
      Variants(base, n, vals[..|vals| - 1]) + (if v != base[n] then [base[n := v]] else [])
  }

  /** The variant samples of the listed parameters, grouped by parameter in the listed order. */
  function AllVariants(base: Sample, sp: Space, names: seq<string>): seq<Sample>
    requires forall n :: n in names ==> n in base && n in sp.entries
  {
    if names == [] then []
    else
      var n := names[|names| - 1];
      AllVariants(base, sp, names[..|names| - 1]) + Variants(base, n, sp.entries[n])
  }

  /**
   * What `scatter_samples` returns for a parameter dict: an IndexError when some range is
   * empty, otherwise every variant sample followed by the baseline.
   */
  function ScatterSpec(sp: Space): (r: Result<seq<Sample>>)
    requires sp.Wf()
    ensures r.Err? <==> exists n :: n in sp.entries && sp.entries[n] == []
    ensures r.Err? ==> r.error == IndexError
    ensures r.Ok? ==> |r.value| >= 1 && r.value[|r.value| - 1] == Baseline(sp)
  {
    if !AllNonEmpty(sp) then Err(IndexError)
    else
      var base := Baseline(sp);
      Ok(AllVariants(base, sp, sp.keys) + [base])
  }

  /** `scatter_samples`: the baseline loop, then the variant loops, then the final baseline. */
  method ScatterSamples(sp: Space) returns (r: Result<seq<Sample>>)
    requires sp.Wf()
    ensures r == ScatterSpec(sp)
  {
    var b := BaselineLoop(sp);
    if b.Err? {
      return Err(b.error);
    }
    var baseline := b.value;
    var samples: seq<Sample> := [];
    var i := 0;
    while i < |sp.keys|
      invariant 0 <= i <= |sp.keys|
      invariant samples == AllVariants(baseline, sp, sp.keys[..i])
    {
      var n := sp.keys[i];
      samples := VariantLoop(samples, baseline, n, sp.entries[n]);
      assert sp.keys[..i + 1][..i] == sp.keys[..i];
      i := i + 1;
    }
    assert sp.keys[..i] == sp.keys;
    samples := samples + [baseline];
    r := Ok(samples);
  }

  /** The first loop of `scatter_samples`: the middle of every range, in key order; an empty
    * range raises an IndexError. */
  method BaselineLoop(sp: Space) returns (r: Result<Sample>)
    requires sp.Wf()
    ensures r.Ok? <==> AllNonEmpty(sp)
    ensures r.Ok? ==> r.value == Baseline(sp)
    ensures r.Err? ==> r.error == IndexError
  {
    var baseline: Sample := map[];
    var i := 0;
    while i < |sp.keys|
      invariant 0 <= i <= |sp.keys|
      invariant forall j :: 0 <= j < i ==> |sp.entries[sp.keys[j]]| > 0
      invariant forall n :: n in baseline <==> n in sp.keys[..i]
      invariant forall n :: n in baseline ==> baseline[n] == Middle(sp.entries[n])
    {
      var n := sp.keys[i];
      var m := MiddleOf(sp.entries[n]);
      if m.Err? {
        return Err(m.error);
      }
      baseline := baseline[n := m.value];
      assert sp.keys[..i + 1] == sp.keys[..i] + [n];
      i := i + 1;
    }
    assert sp.keys[..i] == sp.keys;
    BaselineByKeys(sp, baseline);
    return Ok(baseline);
  }

  /** The baseline of one range as the loop picks it: index len/2 of a range of two or more,
    * the only element of a range of one, and an IndexError for an empty range. */
  method MiddleOf(range: seq<Value>) returns (r: Result<Value>)
    ensures r.Ok? <==> |range| > 0
    ensures r.Ok? ==> r.value == Middle(range)
    ensures r.Err? ==> r.error == IndexError
  {
    if |range| > 1 {
      return Ok(range[|range| / 2]);
    } else if |range| == 1 {
      return Ok(range[0]);
    } else {
      return Err(IndexError);
    }
  }

  /** A sample built key by key, with the middle of every range, is the baseline. */
  lemma BaselineByKeys(sp: Space, baseline: Sample)
    requires sp.Wf()
    requires forall j :: 0 <= j < |sp.keys| ==> |sp.entries[sp.keys[j]]| > 0
    requires forall n :: n in baseline <==> n in sp.keys
    requires forall n :: n in baseline ==> baseline[n] == Middle(sp.entries[n])
    ensures AllNonEmpty(sp) && baseline == Baseline(sp)
  {
    forall n | n in sp.entries
      ensures |sp.entries[n]| > 0
    {
      var j :| 0 <= j < |sp.keys| && sp.keys[j] == n;
    }
    assert baseline.Keys == Baseline(sp).Keys;
  }

  /** The inner loop of `scatter_samples` for parameter n: one sample per value of its range
    * that differs from the baseline, appended in range order. */
  method VariantLoop(samples: seq<Sample>, baseline: Sample, n: string, range: seq<Value>)
    returns (samples': seq<Sample>)
    requires n in baseline
    ensures samples' == samples + Variants(baseline, n, range)
  {
    samples' := samples;
    var j := 0;
    while j < |range|
      invariant 0 <= j <= |range|
      invariant samples' == samples + Variants(baseline, n, range[..j])
    {
      var v := range[j];
      assert range[..j + 1][..j] == range[..j];
      if v != baseline[n] {
        samples' := samples' + [baseline[n := v]];
      }
      j := j + 1;
    }
    assert range[..j] == range;
  }

  /** The values of vals that differ from x, in their original order. */
  function Without(vals: seq<Value>, x: Value): seq<Value> {
    if vals == [] then []
    else
      var v := vals[|vals| - 1];
      Without(vals[..|vals| - 1], x) + (if v != x then [v] else [])
  }

  /**
   * The group of parameter n is the baseline with n set, in turn, to each value of its
   * range that differs from the baseline, in range order.
   */
  lemma {:induction false} VariantsAreGroup(base: Sample, n: string, vals: seq<Value>)
    requires n in base
    ensures var w := Without(vals, base[n]);
      |Variants(base, n, vals)| == |w| &&
      forall k :: 0 <= k < |w| ==> Variants(base, n, vals)[k] == base[n := w[k]]
  {
    if vals != [] {
      VariantsAreGroup(base, n, vals[..|vals| - 1]);
    }
  }

  /** Without removes exactly the copies of x and keeps every other value. */
  lemma {:induction false} WithoutMembers(vals: seq<Value>, x: Value)
    ensures x !in Without(vals, x)
    ensures forall v :: v in Without(vals, x) <==> v in vals && v != x
  {
    if vals != [] {
      var pre := vals[..|vals| - 1];
      WithoutMembers(pre, x);
      assert vals == pre + [vals[|vals| - 1]];
    }
  }

  /** Without shortens the range by the number of copies of x. */
  lemma {:induction false} WithoutLength(vals: seq<Value>, x: Value)
    ensures |Without(vals, x)| == |vals| - multiset(vals)[x]
  {
    if vals != [] {
      var pre := vals[..|vals| - 1];
      WithoutLength(pre, x);
      assert vals == pre + [vals[|vals| - 1]];
      assert multiset(vals) == multiset(pre) + multiset{vals[|vals| - 1]};
    }
  }

  /** Number of variant samples a range contributes: its values different from the baseline. */
  function CountOther(vals: seq<Value>, x: Value): nat {
    |vals| - multiset(vals)[x]
  }

  /** Sum over the listed parameters of the number of range values that differ from the baseline. */
  function TotalOther(base: Sample, sp: Space, names: seq<string>): nat
    requires forall n :: n in names ==> n in base && n in sp.entries
  {
    if names == [] then 0
    else
      var n := names[|names| - 1];
      TotalOther(base, sp, names[..|names| - 1]) + CountOther(sp.entries[n], base[n])
  }

  lemma {:induction false} AllVariantsCount(base: Sample, sp: Space, names: seq<string>)
    requires forall n :: n in names ==> n in base && n in sp.entries
    ensures |AllVariants(base, sp, names)| == TotalOther(base, sp, names)
  {
    if names != [] {
      var n := names[|names| - 1];
      AllVariantsCount(base, sp, names[..|names| - 1]);
      VariantsAreGroup(base, n, sp.entries[n]);
      WithoutLength(sp.entries[n], base[n]);
    }
  }

  /** The sample count is 1 plus the number of non-baseline values over all parameters. */
  lemma ScatterCount(sp: Space)
    requires sp.Wf() && AllNonEmpty(sp)
    ensures |ScatterSpec(sp).value| == TotalOther(Baseline(sp), sp, sp.keys) + 1
  {
    AllVariantsCount(Baseline(sp), sp, sp.keys);
  }

  /** Sum over the listed parameters of len(range) - 1. */
  function SumLengthsLessOne(sp: Space, names: seq<string>): int
    requires forall n :: n in names ==> n in sp.entries
  {
    if names == [] then 0
    else SumLengthsLessOne(sp, names[..|names| - 1]) + |sp.entries[names[|names| - 1]]| - 1
  }

  lemma {:induction false} TotalOtherDistinct(base: Sample, sp: Space, names: seq<string>)
    requires forall n :: n in names ==> n in base && n in sp.entries
    requires forall n :: n in names ==> Distinct(sp.entries[n]) && base[n] in sp.entries[n]
    ensures TotalOther(base, sp, names) == SumLengthsLessOne(sp, names)
  {
    if names != [] {
      var n := names[|names| - 1];
      TotalOtherDistinct(base, sp, names[..|names| - 1]);
      DistinctOccursOnce(sp.entries[n], base[n]);
    }
  }

  lemma {:induction false} DistinctOccursOnce(vals: seq<Value>, x: Value)
    requires Distinct(vals) && x in vals
    ensures multiset(vals)[x] == 1
  {
    var i :| 0 <= i < |vals| && vals[i] == x;
    assert vals == vals[..i] + [x] + vals[i + 1..];
    assert x !in vals[..i] && x !in vals[i + 1..] by {
      forall j | 0 <= j < |vals| && j != i ensures vals[j] != x {
        if j < i { assert vals[j] != vals[i]; } else { assert vals[i] != vals[j]; }
      }
    }
  }

  /** For ranges of distinct values the sample count is the sum of (len - 1), plus one. */
  lemma ScatterCountDistinct(sp: Space)
    requires sp.Wf() && AllNonEmpty(sp)
    requires forall n :: n in sp.entries ==> Distinct(sp.entries[n])
    ensures |ScatterSpec(sp).value| == SumLengthsLessOne(sp, sp.keys) + 1
  {
    var base := Baseline(sp);
    ScatterCount(sp);
    TotalOtherDistinct(base, sp, sp.keys);
  }

  /** s is the baseline except at exactly one parameter, which holds a non-baseline value of its own range. */
  ghost predicate IsVariantOf(s: Sample, base: Sample, sp: Space) {
    s.Keys == base.Keys &&
    exists n :: n in base && n in sp.entries &&
      s[n] != base[n] && s[n] in sp.entries[n] &&
      forall m :: m in base && m != n ==> s[m] == base[m]
  }

  lemma {:induction false} AllVariantsShape(base: Sample, sp: Space, names: seq<string>)
    requires forall n :: n in names ==> n in base && n in sp.entries
    ensures forall s :: s in AllVariants(base, sp, names) ==> IsVariantOf(s, base, sp)
  {
    if names != [] {
      var n := names[|names| - 1];
      AllVariantsShape(base, sp, names[..|names| - 1]);
      var vals := sp.entries[n];
      VariantsAreGroup(base, n, vals);
      WithoutMembers(vals, base[n]);
      forall s | s in Variants(base, n, vals) ensures IsVariantOf(s, base, sp) {
        var k :| 0 <= k < |Variants(base, n, vals)| && Variants(base, n, vals)[k] == s;
        var w := Without(vals, base[n]);
        assert s == base[n := w[k]] && w[k] in w;
      }
    }
  }

  /**
   * Every sample but the last is the baseline with exactly one parameter moved to another
   * value of its range; the last sample is the baseline itself.
   */
  lemma ScatterShape(sp: Space)
    requires sp.Wf() && AllNonEmpty(sp)
    ensures var out := ScatterSpec(sp).value;
      |out| >= 1 && out[|out| - 1] == Baseline(sp) &&
      forall i :: 0 <= i < |out| - 1 ==> IsVariantOf(out[i], Baseline(sp), sp)
  {
    var base := Baseline(sp);
    AllVariantsShape(base, sp, sp.keys);
    var out := ScatterSpec(sp).value;
    forall i | 0 <= i < |out| - 1 ensures IsVariantOf(out[i], base, sp) {
      assert out[i] in AllVariants(base, sp, sp.keys);
    }
  }

  lemma {:induction false} AllVariantsContains(base: Sample, sp: Space, names: seq<string>, n: string, v: Value)
    requires forall m :: m in names ==> m in base && m in sp.entries
    requires n in names && v in sp.entries[n] && v != base[n]
    ensures base[n := v] in AllVariants(base, sp, names)
  {
    var last := names[|names| - 1];
    if n == last {
      var vals := sp.entries[n];
      VariantsAreGroup(base, n, vals);
      WithoutMembers(vals, base[n]);
      assert multiset(vals)[v] > 0;
      assert v in Without(vals, base[n]);
      var k :| 0 <= k < |Without(vals, base[n])| && Without(vals, base[n])[k] == v;
      assert Variants(base, n, vals)[k] == base[n := v];
    } else {
      AllVariantsContains(base, sp, names[..|names| - 1], n, v);
    }
  }

  /** Every (parameter, value) combination, with all other parameters at baseline, is sampled. */
  lemma ScatterCovers(sp: Space, n: string, v: Value)
    requires sp.Wf() && AllNonEmpty(sp)
    requires n in sp.entries && v in sp.entries[n]
    ensures Baseline(sp)[n := v] in ScatterSpec(sp).value
  {
    var base := Baseline(sp);
    if v == base[n] {
      assert base[n := v] == base;
    } else {
      AllVariantsContains(base, sp, sp.keys, n, v);
    }
  }

  /** Offset of the group of the i-th parameter in the output. */
  function GroupStart(base: Sample, sp: Space, i: nat): nat
    requires i <= |sp.keys|
    requires forall n :: n in sp.keys ==> n in base && n in sp.entries
  {
    |AllVariants(base, sp, sp.keys[..i])|
  }

  /**
   * The output is grouped by parameter in iteration order: the samples of the i-th parameter
   * occupy one contiguous stretch, following those of the parameters before it.
   */
  lemma ScatterGrouped(sp: Space, i: nat)
    requires sp.Wf() && AllNonEmpty(sp) && i < |sp.keys|
    ensures var base := Baseline(sp);
      var out := ScatterSpec(sp).value;
      var n := sp.keys[i];
      GroupStart(base, sp, i) + |Variants(base, n, sp.entries[n])| == GroupStart(base, sp, i + 1) &&
      GroupStart(base, sp, i + 1) <= |out| - 1 &&
      out[GroupStart(base, sp, i)..GroupStart(base, sp, i + 1)] == Variants(base, n, sp.entries[n])
  {
    var base := Baseline(sp);
    var keys := sp.keys;
    assert keys[..i + 1][..i] == keys[..i];
    assert AllVariants(base, sp, keys[..i + 1]) ==
      AllVariants(base, sp, keys[..i]) + Variants(base, keys[i], sp.entries[keys[i]]);
    PrefixOfAllVariants(base, sp, keys, i + 1);
  }

  lemma {:induction false} PrefixOfAllVariants(base: Sample, sp: Space, names: seq<string>, i: nat)
    requires i <= |names|
    requires forall n :: n in names ==> n in base && n in sp.entries
    ensures AllVariants(base, sp, names[..i]) <= AllVariants(base, sp, names)
  {
    if i < |names| {
      PrefixOfAllVariants(base, sp, names[..|names| - 1], i);
      assert names[..|names| - 1][..i] == names[..i];
    } else {
      assert names[..i] == names;
    }
  }

  /** A single-valued (certain) parameter contributes no variant sample. */
  lemma CertainHasNoVariants(sp: Space, n: string)
    requires sp.Wf() && AllNonEmpty(sp)
    requires n in sp.entries && |sp.entries[n]| == 1
    ensures Variants(Baseline(sp), n, sp.entries[n]) == []
  {
    var vals := sp.entries[n];
    assert vals[..0] == [];
  }

  /** An epyc lab whose parameter space is the scatter sample. */
  class ScatterLab {
    var parameters: Space

    /** A lab holding the given parameter dict (epyc's `lab[name] = values` fills it). */
    constructor (ps: Space)
      requires ps.Wf()
      ensures parameters == ps
    {
      parameters := ps;
    }

    /** `parameterSpace`: empty with no parameters, the scatter sample otherwise. */
    method ParameterSpace() returns (r: Result<seq<Sample>>)
      requires parameters.Wf()
      ensures parameters.keys == [] ==> r == Ok([])
      ensures parameters.keys != [] ==> r == ScatterSpec(parameters)
    {
      if |parameters.keys| == 0 {
        return Ok([]);
      }
      r := ScatterSamples(parameters);
    }
  }
}

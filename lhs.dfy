/**
 * The epyc Latin hypercube sampler. Parameters with more than one value are uncertain and
 * must all have the same number of stratifications; each uncertain range is shuffled once
 * and sample i takes the i-th shuffled value of every uncertain parameter, together with the
 * single value of every certain parameter.
 */
module LhsSampler {
  import opened Common

  /** The outcome of classifying the parameters. */
  datatype Split = Split(strat: nat, uncertain: seq<string>, certain: Dict<Value>)

  /** A permutation of the indices of every range: the draws of `numpy.random.choice(range, len(range), replace=False)`. */
  ghost predicate ShufflesFor(sp: Space, perms: map<string, seq<nat>>) {
    forall n :: n in sp.entries ==> n in perms && IsPermutation(perms[n], |sp.entries[n]|)
  }

  /**
   * The classification loop over the listed parameters, in order: the first uncertain range
   * fixes the number of stratifications, a later one of another length fails the assertion,
   * and an empty range fails when its first element is read.
   */
  function Classify(sp: Space, names: seq<string>): (r: Result<Split>)
    requires forall n :: n in names ==> n in sp.entries
    ensures r.Ok? ==> r.value.certain.Wf()
    ensures r.Ok? ==> (r.value.strat == 0 <==> r.value.uncertain == [])
    ensures r.Ok? ==> forall n :: n in r.value.uncertain ==> n in names && |sp.entries[n]| == r.value.strat > 1
    ensures r.Ok? ==> forall n :: n in r.value.certain.entries ==>
      n in names && |sp.entries[n]| == 1 && r.value.certain.entries[n] == sp.entries[n][0]
    ensures r.Ok? ==> forall n :: n in names ==>
      (|sp.entries[n]| > 0 &&
       (|sp.entries[n]| > 1 ==> n in r.value.uncertain) &&
       (|sp.entries[n]| == 1 ==> n in r.value.certain.entries))
    ensures r.Err? ==> r.error == IndexError || r.error == AssertionError
  {
    if names == [] then Ok(Split(0, [], Dict([], map[])))
    else
      var prev :- Classify(sp, names[..|names| - 1]);
      var n := names[|names| - 1];
      ClassifyStep(prev, n, sp.entries[n])
  }

  /** One pass of the classification loop, for parameter n with the given range. */
  function ClassifyStep(prev: Split, n: string, range: seq<Value>): (r: Result<Split>)
    requires prev.certain.Wf()
    ensures r.Ok? ==> r.value.certain.Wf()
  {
    if |range| > 1 then
      if prev.strat == 0 then Ok(Split(|range|, prev.uncertain + [n], prev.certain))
      else if |range| == prev.strat then Ok(Split(prev.strat, prev.uncertain + [n], prev.certain))
      else Err(AssertionError)
    else if |range| == 1 then Ok(Split(prev.strat, prev.uncertain, Store(prev.certain, n, range[0])))
    else Err(IndexError)
  }

  /** The shuffled range of every uncertain parameter. */
  function ShuffledRanges(sp: Space, uncertain: seq<string>, perms: map<string, seq<nat>>): map<string, seq<Value>>
    requires ShufflesFor(sp, perms)
    requires forall n :: n in uncertain ==> n in sp.entries
  {
    map n | n in uncertain :: Shuffled(sp.entries[n], perms[n])
  }

  /** Sample i: the i-th shuffled value of every uncertain parameter, then every certain value. */
  function Row(uncertain: seq<string>, vals: map<string, seq<Value>>, certain: map<string, Value>, i: nat): Sample
    requires forall n :: n in uncertain ==> n in vals && i < |vals[n]|
  {
    UncertainRow(uncertain, vals, i) + certain
  }

  /** What `lhs_samples` returns for a parameter dict and the shuffles drawn for it. */
  function LhsSpec(sp: Space, perms: map<string, seq<nat>>): Result<seq<Sample>>
    requires sp.Wf() && ShufflesFor(sp, perms)
  {
    var split :- Classify(sp, sp.keys);
    Ok(Rows(split.uncertain, ShuffledRanges(sp, split.uncertain, perms), split.certain.entries, split.strat))
  }

  /** Rows 0 .. strat-1. */
  function Rows(uncertain: seq<string>, vals: map<string, seq<Value>>, certain: map<string, Value>, strat: nat)
    : (r: seq<Sample>)
    requires forall n :: n in uncertain ==> n in vals && strat <= |vals[n]|
    ensures |r| == strat && forall i :: 0 <= i < strat ==> r[i] == Row(uncertain, vals, certain, i)
  {
    seq(strat, i requires 0 <= i < strat => Row(uncertain, vals, certain, i))
  }

  /** The classification loop of `lhs_samples`. */
  method ClassifyParameters(sp: Space) returns (r: Result<Split>)
    requires sp.Wf()
    ensures r == Classify(sp, sp.keys)
  {
    var split := Split(0, [], Dict([], map[]));
    var i := 0;
    while i < |sp.keys|
      invariant 0 <= i <= |sp.keys|
      invariant Classify(sp, sp.keys[..i]) == Ok(split)
    {
      var n := sp.keys[i];
      assert sp.keys[..i + 1][..i] == sp.keys[..i];
      var next := ClassifyParameter(split, n, sp.entries[n]);
      if next.Err? {
        ClassifyErrorStays(sp, sp.keys, i + 1);
        return next;
      }
      split := next.value;
      i := i + 1;
    }
    assert sp.keys[..i] == sp.keys;
    r := Ok(split);
  }

  /** The body of the classification loop for parameter n: an uncertain range fixes or must
    * match the number of stratifications, a single value is stored as certain, and reading
    * the first element of an empty range raises. */
  method ClassifyParameter(split: Split, n: string, range: seq<Value>) returns (r: Result<Split>)
    requires split.certain.Wf()
    ensures r == ClassifyStep(split, n, range)
  {
    var strat, uncertain, certain := split.strat, split.uncertain, split.certain;
    if |range| > 1 {
      if strat == 0 {
        strat := |range|;
      } else if |range| != strat {
        return Err(AssertionError);
      }
      uncertain := uncertain + [n];
    } else if |range| == 1 {
      certain := Store(certain, n, range[0]);
    } else {
      return Err(IndexError);
    }
    return Ok(Split(strat, uncertain, certain));
  }

  /** The shuffling loop: one draw without replacement per uncertain range. */
  method ShuffleRanges(sp: Space, uncertain: seq<string>, perms: map<string, seq<nat>>)
    returns (vals: map<string, seq<Value>>)
    requires ShufflesFor(sp, perms)
    requires forall n :: n in uncertain ==> n in sp.entries
    ensures vals == ShuffledRanges(sp, uncertain, perms)
  {
    vals := map[];
    var j := 0;
    while j < |uncertain|
      invariant 0 <= j <= |uncertain|
      invariant vals == ShuffledRanges(sp, uncertain[..j], perms)
    {
      var p := uncertain[j];
      assert uncertain[..j + 1] == uncertain[..j] + [p];
      vals := vals[p := Shuffled(sp.entries[p], perms[p])];
      j := j + 1;
    }
    assert uncertain[..j] == uncertain;
  }

  /** The uncertain values of row k. */
  function UncertainRow(uncertain: seq<string>, vals: map<string, seq<Value>>, k: nat): Sample
    requires forall n :: n in uncertain ==> n in vals && k < |vals[n]|
  {
    map n | n in uncertain :: vals[n][k]
  }

  /** The inner loop of the row loop that reads row k of every shuffled range. */
  method UncertainValues(uncertain: seq<string>, vals: map<string, seq<Value>>, k: nat)
    returns (sample: Sample)
    requires forall n :: n in uncertain ==> n in vals && k < |vals[n]|
    ensures sample == UncertainRow(uncertain, vals, k)
  {
    sample := map[];
    var j := 0;
    while j < |uncertain|
      invariant 0 <= j <= |uncertain|
      invariant sample == UncertainRow(uncertain[..j], vals, k)
    {
      var p := uncertain[j];
      assert uncertain[..j + 1] == uncertain[..j] + [p];
      sample := sample[p := vals[p][k]];
      j := j + 1;
    }
    assert uncertain[..j] == uncertain;
  }

  /** The loop that writes every certain value into a sample, overwriting what is there. */
  method SetCertain(sample: Sample, certain: Dict<Value>) returns (s: Sample)
    requires certain.Wf()
    ensures s == sample + certain.entries
  {
    var keys, entries := certain.keys, certain.entries;
    assert forall n :: n in keys ==> n in entries;
    s := sample;
    var c := 0;
    while c < |keys|
      invariant 0 <= c <= |keys|
      invariant s == Overlaid(sample, keys[..c], entries)
    {
      OverlaidStep(sample, keys, entries, c);
      s := s[keys[c] := entries[keys[c]]];
      c := c + 1;
    }
    assert keys[..c] == keys;
    OverlaidAll(sample, certain);
  }

  lemma OverlaidStep(sample: Sample, keys: seq<string>, entries: map<string, Value>, c: nat)
    requires c < |keys| && forall n :: n in keys ==> n in entries
    ensures forall n :: n in keys[..c + 1] ==> n in entries
    ensures Overlaid(sample, keys[..c + 1], entries) == Overlaid(sample, keys[..c], entries)[keys[c] := entries[keys[c]]]
  {
    assert keys[..c + 1][..c] == keys[..c];
  }

  /** The row after the certain values named by `keys` have been written into it, in order. */
  function Overlaid(sample: Sample, keys: seq<string>, entries: map<string, Value>): (s: Sample)
    requires forall n :: n in keys ==> n in entries
    ensures forall n :: n in s <==> n in sample || n in keys
    ensures forall n :: n in s ==> s[n] == if n in keys then entries[n] else sample[n]
    decreases |keys|
  {
    if keys == [] then sample
    else
      var init := keys[..|keys| - 1];
      var last := keys[|keys| - 1];
      assert forall n :: n in keys <==> n in init || n == last;
      Overlaid(sample, init, entries)[last := entries[last]]
  }

  /** Writing every certain value in turn is overriding the row with the whole dict. */
  lemma OverlaidAll(sample: Sample, certain: Dict<Value>)
    requires certain.Wf()
    ensures Overlaid(sample, certain.keys, certain.entries) == sample + certain.entries
  {
  }

  /** One iteration of the row loop: the uncertain values of row k, then the certain ones. */
  method BuildRow(uncertain: seq<string>, vals: map<string, seq<Value>>, certain: Dict<Value>, k: nat)
    returns (sample: Sample)
    requires certain.Wf()
    requires forall n :: n in uncertain ==> n in vals && k < |vals[n]|
    ensures sample == Row(uncertain, vals, certain.entries, k)
  {
    sample := UncertainValues(uncertain, vals, k);
    sample := SetCertain(sample, certain);
  }

  /** The row loop: one row per stratification. */
  method BuildRows(uncertain: seq<string>, vals: map<string, seq<Value>>, certain: Dict<Value>, strat: nat)
    returns (samples: seq<Sample>)
    requires certain.Wf()
    requires forall n :: n in uncertain ==> n in vals && strat <= |vals[n]|
    ensures samples == Rows(uncertain, vals, certain.entries, strat)
  {
    samples := [];
    var k := 0;
    while k < strat
      invariant 0 <= k <= strat
      invariant |samples| == k
      invariant forall m :: 0 <= m < k ==> samples[m] == Row(uncertain, vals, certain.entries, m)
    {
      var sample := BuildRow(uncertain, vals, certain, k);
      samples := samples + [sample];
      k := k + 1;
    }
  }

  /** `lhs_samples`: classify, shuffle every uncertain range, then assemble the rows. */
  method LhsSamples(sp: Space, perms: map<string, seq<nat>>) returns (r: Result<seq<Sample>>)
    requires sp.Wf() && ShufflesFor(sp, perms)
    ensures r == LhsSpec(sp, perms)
  {
    var split :- ClassifyParameters(sp);
    var vals := ShuffleRanges(sp, split.uncertain, perms);
    var samples := BuildRows(split.uncertain, vals, split.certain, split.strat);
    r := Ok(samples);
  }

  /** Once classification has failed on a prefix, it fails with the same exception on the whole list. */
  lemma {:induction false} ClassifyErrorStays(sp: Space, names: seq<string>, i: nat)
    requires forall n :: n in names ==> n in sp.entries
    requires i <= |names| && Classify(sp, names[..i]).Err?
    ensures Classify(sp, names) == Classify(sp, names[..i])
  {
    if i < |names| {
      var pre := names[..|names| - 1];
      assert pre[..i] == names[..i];
      ClassifyErrorStays(sp, pre, i);
    } else {
      assert names[..i] == names;
    }
  }

  /**
   * Classification fails exactly when some range is empty or two uncertain ranges differ in
   * length; the number of stratifications is then the common uncertain length (0 when every
   * parameter is certain).
   */
  lemma {:induction false} ClassifyFails(sp: Space, names: seq<string>)
    requires forall n :: n in names ==> n in sp.entries
    ensures Classify(sp, names).Err? <==>
      (exists n :: n in names && |sp.entries[n]| == 0) ||
      (exists a, b :: a in names && b in names && |sp.entries[a]| > 1 && |sp.entries[b]| > 1 &&
        |sp.entries[a]| != |sp.entries[b]|)
  {
    if names != [] {
      var pre := names[..|names| - 1];
      var n := names[|names| - 1];
      ClassifyFails(sp, pre);
      assert forall m :: m in names <==> m in pre || m == n by {
        assert names == pre + [n];
      }
      var r := Classify(sp, pre);
      if r.Ok? && |sp.entries[n]| > 1 && r.value.strat != 0 && |sp.entries[n]| != r.value.strat {
        var a := r.value.uncertain[0];
        assert a in pre && |sp.entries[a]| > 1 && |sp.entries[a]| != |sp.entries[n]|;
      }
      if r.Ok? && |sp.entries[n]| > 1 && r.value.strat == 0 {
        assert forall m :: m in pre ==> |sp.entries[m]| <= 1;
      }
    }
  }

  /** The number of samples is the common length of the uncertain ranges: 0 when every parameter is certain. */
  lemma LhsCount(sp: Space, perms: map<string, seq<nat>>)
    requires sp.Wf() && ShufflesFor(sp, perms) && LhsSpec(sp, perms).Ok?
    ensures forall n :: n in sp.entries && |sp.entries[n]| > 1 ==> |LhsSpec(sp, perms).value| == |sp.entries[n]|
    ensures LhsSpec(sp, perms).value != [] ==> exists n :: n in sp.entries && |sp.entries[n]| > 1
  {
    var split := Classify(sp, sp.keys).value;
    if split.strat != 0 {
      assert split.uncertain[0] in split.uncertain;
    }
  }

  /** `lhs_samples` raises exactly when a range is empty or two uncertain ranges differ in length. */
  lemma LhsFails(sp: Space, perms: map<string, seq<nat>>)
    requires sp.Wf() && ShufflesFor(sp, perms)
    ensures LhsSpec(sp, perms).Err? <==>
      (exists n :: n in sp.entries && |sp.entries[n]| == 0) ||
      (exists a, b :: a in sp.entries && b in sp.entries && |sp.entries[a]| > 1 && |sp.entries[b]| > 1 &&
        |sp.entries[a]| != |sp.entries[b]|)
  {
    ClassifyFails(sp, sp.keys);
  }

  /** Every sample assigns every parameter, and every certain parameter its single value. */
  lemma LhsSampleKeys(sp: Space, perms: map<string, seq<nat>>)
    requires sp.Wf() && ShufflesFor(sp, perms) && LhsSpec(sp, perms).Ok?
    ensures forall s :: s in LhsSpec(sp, perms).value ==> s.Keys == sp.entries.Keys
    ensures forall s, n :: s in LhsSpec(sp, perms).value && n in sp.entries && |sp.entries[n]| == 1 ==>
      s[n] == sp.entries[n][0]
  {
    var split := Classify(sp, sp.keys).value;
    var out := LhsSpec(sp, perms).value;
    forall s | s in out
      ensures s.Keys == sp.entries.Keys
      ensures forall n :: n in sp.entries && |sp.entries[n]| == 1 ==> s[n] == sp.entries[n][0]
    {
      forall n | n in sp.entries && |sp.entries[n]| == 1 ensures n !in split.uncertain {
      }
    }
  }

  /** The column of an uncertain parameter: its value in every sample, in sample order. */
  function Column(out: seq<Sample>, n: string): seq<Value>
    requires forall s :: s in out ==> n in s
  {
    seq(|out|, i requires 0 <= i < |out| => out[i][n])
  }

  /**
   * The Latin hypercube property: the column of an uncertain parameter is its range in the
   * shuffled order, so every value of the range is used exactly as often as it occurs in it.
   */
  lemma LhsColumnIsPermutation(sp: Space, perms: map<string, seq<nat>>, n: string)
    requires sp.Wf() && ShufflesFor(sp, perms) && LhsSpec(sp, perms).Ok?
    requires n in sp.entries && |sp.entries[n]| > 1
    ensures forall s :: s in LhsSpec(sp, perms).value ==> n in s
    ensures Column(LhsSpec(sp, perms).value, n) == Shuffled(sp.entries[n], perms[n])
    ensures multiset(Column(LhsSpec(sp, perms).value, n)) == multiset(sp.entries[n])
  {
    LhsColumnShuffled(sp, perms, n);
    ShuffledIsPermutation(sp.entries[n], perms[n]);
  }

  /** The column of an uncertain parameter reads its range in the drawn order. */
  lemma LhsColumnShuffled(sp: Space, perms: map<string, seq<nat>>, n: string)
    requires sp.Wf() && ShufflesFor(sp, perms) && LhsSpec(sp, perms).Ok?
    requires n in sp.entries && |sp.entries[n]| > 1
    ensures n in perms && IsPermutation(perms[n], |sp.entries[n]|)
    ensures forall s :: s in LhsSpec(sp, perms).value ==> n in s
    ensures Column(LhsSpec(sp, perms).value, n) == Shuffled(sp.entries[n], perms[n])
  {
    var split := Classify(sp, sp.keys).value;
    assert n in split.uncertain && n !in split.certain.entries;
    var vals := ShuffledRanges(sp, split.uncertain, perms);
    assert vals[n] == Shuffled(sp.entries[n], perms[n]);
    RowsColumn(split.uncertain, vals, split.certain.entries, split.strat, n);
  }

  /** Every row holds an uncertain parameter, and down the rows it reads that parameter's values. */
  lemma RowsColumn(uncertain: seq<string>, vals: map<string, seq<Value>>, certain: map<string, Value>,
                   strat: nat, n: string)
    requires forall m :: m in uncertain ==> m in vals && strat <= |vals[m]|
    requires n in uncertain && n !in certain && |vals[n]| == strat
    ensures forall s :: s in Rows(uncertain, vals, certain, strat) ==> n in s
    ensures Column(Rows(uncertain, vals, certain, strat), n) == vals[n]
  {
    var out := Rows(uncertain, vals, certain, strat);
    forall s | s in out
      ensures n in s
    {
      var i :| 0 <= i < |out| && out[i] == s;
    }
    forall i | 0 <= i < strat
      ensures Column(out, n)[i] == vals[n][i]
    {
      assert out[i] == UncertainRow(uncertain, vals, i) + certain;
    }
  }

  /** When the range holds distinct values, no two samples share a value of an uncertain parameter. */
  lemma LhsStrataUsedOnce(sp: Space, perms: map<string, seq<nat>>, n: string)
    requires sp.Wf() && ShufflesFor(sp, perms) && LhsSpec(sp, perms).Ok?
    requires n in sp.entries && |sp.entries[n]| > 1 && Distinct(sp.entries[n])
    ensures forall s :: s in LhsSpec(sp, perms).value ==> n in s
    ensures Distinct(Column(LhsSpec(sp, perms).value, n))
  {
    LhsColumnIsPermutation(sp, perms, n);
    var col := Column(LhsSpec(sp, perms).value, n);
    var range := sp.entries[n];
    var p := perms[n];
    forall i, j | 0 <= i < j < |col| ensures col[i] != col[j] {
      assert p[i] != p[j];
      assert col[i] == range[p[i]] && col[j] == range[p[j]];
    }
  }

  /** `numpy.linspace(lo, hi, n)` as the list epyc stores: ValueError for a negative count. */
  function UniformStrata(valueRange: seq<real>, n: int): (r: Result<seq<Value>>)
    ensures r.Err? <==> |valueRange| < 2 || n < 0
    ensures r.Ok? ==> |r.value| == n && forall k :: 0 <= k < n ==>
      r.value[k] == Num(LinspacePoint(valueRange[0], valueRange[1], n, k))
  {
    if |valueRange| < 2 then Err(IndexError)
    else if n < 0 then Err(ValueError)
    else
      var pts := Linspace(valueRange[0], valueRange[1], n);
      Ok(seq(n, k requires 0 <= k < n => Num(pts[k])))
  }

  /** A distribution name Python treats as "no distribution" or names the uniform one. */
  predicate IsUniform(distribution: Option<string>) {
    distribution == None || distribution == Some("") || distribution == Some("uniform")
  }

  class LatinHypercubeLab {
    var parameters: Space

    constructor (ps: Space)
      requires ps.Wf()
      ensures parameters == ps
    {
      parameters := ps;
    }

    /** `parameterSpace`: empty with no parameters, the Latin hypercube sample otherwise. */
    method ParameterSpace(perms: map<string, seq<nat>>) returns (r: Result<seq<Sample>>)
      requires parameters.Wf() && ShufflesFor(parameters, perms)
      ensures parameters.keys == [] ==> r == Ok([])
      ensures parameters.keys != [] ==> r == LhsSpec(parameters, perms)
    {
      if |parameters.keys| == 0 {
        return Ok([]);
      }
      r := LhsSamples(parameters, perms);
    }

    /**
     * `set_parameter_stratifications`: a uniform (or unspecified) distribution stores n evenly
     * spaced values from the first to the second bound; any other distribution is not implemented.
     */
    method SetParameterStratifications(parameter: string, valueRange: seq<real>, n: int, distribution: Option<string>)
      returns (r: Result<()>)
      requires parameters.Wf()
      modifies this
      ensures parameters.Wf()
      ensures !IsUniform(distribution) ==> r == Err(NotImplementedError) && parameters == old(parameters)
      ensures IsUniform(distribution) && UniformStrata(valueRange, n).Err? ==>
        r == Err(UniformStrata(valueRange, n).error) && parameters == old(parameters)
      ensures IsUniform(distribution) && UniformStrata(valueRange, n).Ok? ==>
        r == Ok(()) && parameters == Store(old(parameters), parameter, UniformStrata(valueRange, n).value)
    {
      if !IsUniform(distribution) {
        return Err(NotImplementedError);
      }
      var strata := UniformStrata(valueRange, n);
      if strata.Err? {
        return Err(strata.error);
      }
      parameters := Store(parameters, parameter, strata.value);
      r := Ok(());
    }
  }
}

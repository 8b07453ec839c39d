/**
 * The earliest Latin hypercube lab: every parameter is treated as stratified, all of them must
 * have as many values as the first one, and sample i takes the i-th shuffled value of each.
 */
module LhsEqual {
  import opened Common
  import LhsSampler

  /** Every range has exactly `strat` values. */
  predicate AllOfLength(sp: Space, strat: nat) {
    forall n :: n in sp.entries ==> |sp.entries[n]| == strat
  }

  /** What `_latin_hypercube_sample_matrix(ls)` returns, `ls` being the (non-empty) parameter names. */
  function EqualSpec(sp: Space, perms: map<string, seq<nat>>): (r: Result<seq<Sample>>)
    requires sp.Wf() && sp.keys != [] && LhsSampler.ShufflesFor(sp, perms)
    ensures r.Err? ==> r.error == AssertionError
  {
    var strat := |sp.entries[sp.keys[0]]|;
    if !AllOfLength(sp, strat) then Err(AssertionError)
    else
      var chosen := LhsSampler.ShuffledRanges(sp, sp.keys, perms);
      Ok(seq(strat, i requires 0 <= i < strat => LhsSampler.UncertainRow(sp.keys, chosen, i)))
  }

  /** The `all(...)` check: does every range have `strat` values? */
  method CheckLengths(sp: Space, strat: nat) returns (ok: bool)
    requires sp.Wf()
    ensures ok <==> AllOfLength(sp, strat)
  {
    var i := 0;
    while i < |sp.keys|
      invariant 0 <= i <= |sp.keys|
      invariant forall j :: 0 <= j < i ==> |sp.entries[sp.keys[j]]| == strat
    {
      if |sp.entries[sp.keys[i]]| != strat {
        return false;
      }
      i := i + 1;
    }
    forall n | n in sp.entries ensures |sp.entries[n]| == strat {
      var j :| 0 <= j < |sp.keys| && sp.keys[j] == n;
    }
    ok := true;
  }

  class LatinHypercubeLab {
    var parameters: Space

    constructor (ps: Space)
      requires ps.Wf()
      ensures parameters == ps
    {
      parameters := ps;
    }

    /** `_latin_hypercube_sample_matrix(ls)` with `ls` the lab's parameter names. */
    method LatinHypercubeSampleMatrix(perms: map<string, seq<nat>>) returns (r: Result<seq<Sample>>)
      requires parameters.Wf() && parameters.keys != [] && LhsSampler.ShufflesFor(parameters, perms)
      ensures r == EqualSpec(parameters, perms)
    {
      var ls := parameters.keys;
      var strat := |parameters.entries[ls[0]]|;
      var ok := CheckLengths(parameters, strat);
      if !ok {
        return Err(AssertionError);
      }
      var chosen := LhsSampler.ShuffleRanges(parameters, ls, perms);
      var ds: seq<Sample> := [];
      var i := 0;
      while i < strat
        invariant 0 <= i <= strat
        invariant |ds| == i
        invariant forall m :: 0 <= m < i ==> ds[m] == LhsSampler.UncertainRow(ls, chosen, m)
      {
        var values := LhsSampler.UncertainValues(ls, chosen, i);
        ds := ds + [values];
        i := i + 1;
      }
      ghost var out := EqualSpec(parameters, perms).value;
      assert |out| == strat && forall m :: 0 <= m < strat ==> out[m] == ds[m];
      assert out == ds;
      r := Ok(ds);
    }

    /** `parameterSpace`: empty with no parameters, the sample matrix otherwise. */
    method ParameterSpace(perms: map<string, seq<nat>>) returns (r: Result<seq<Sample>>)
      requires parameters.Wf() && LhsSampler.ShufflesFor(parameters, perms)
      ensures parameters.keys == [] ==> r == Ok([])
      ensures parameters.keys != [] ==> r == EqualSpec(parameters, perms)
    {
      if |parameters.keys| == 0 {
        return Ok([]);
      }
      r := LatinHypercubeSampleMatrix(perms);
    }
  }

  /** The assertion fails exactly when two parameters have ranges of different lengths. */
  lemma EqualFails(sp: Space, perms: map<string, seq<nat>>)
    requires sp.Wf() && sp.keys != [] && LhsSampler.ShufflesFor(sp, perms)
    ensures EqualSpec(sp, perms).Err? <==>
      exists a, b :: a in sp.entries && b in sp.entries && |sp.entries[a]| != |sp.entries[b]|
  {
    var first := sp.keys[0];
    assert first in sp.entries;
  }

  /**
   * With equal lengths there are as many samples as values per parameter, each sample assigns
   * every parameter, and the column of every parameter is its range in shuffled order.
   */
  lemma EqualSamples(sp: Space, perms: map<string, seq<nat>>, n: string)
    requires sp.Wf() && sp.keys != [] && LhsSampler.ShufflesFor(sp, perms)
    requires EqualSpec(sp, perms).Ok? && n in sp.entries
    ensures |EqualSpec(sp, perms).value| == |sp.entries[n]|
    ensures forall s :: s in EqualSpec(sp, perms).value ==> s.Keys == sp.entries.Keys
    ensures LhsSampler.Column(EqualSpec(sp, perms).value, n) == Shuffled(sp.entries[n], perms[n])
    ensures multiset(LhsSampler.Column(EqualSpec(sp, perms).value, n)) == multiset(sp.entries[n])
  {
    assert sp.keys[0] in sp.entries;
    ShuffledIsPermutation(sp.entries[n], perms[n]);
  }
}

/**
 * The scatter lab of the runner package. Its sample generator is the same algorithm as
 * the epyc scatter sampler, so it is stated through `ScatterSampler`.
 */
module ScatterRun {
  import opened Common
  import ScatterSampler

  class ScatterLab {
    var parameters: Space

    constructor (ps: Space)
      requires ps.Wf()
      ensures parameters == ps
    {
      parameters := ps;
    }

    /** `_scatter_samples`: the scatter sample of the lab's own parameters. */
    method ScatterSamples() returns (r: Result<seq<Sample>>)
      requires parameters.Wf()
      ensures r == ScatterSampler.ScatterSpec(parameters)
    {
      r := ScatterSampler.ScatterSamples(parameters);
    }

    /** `parameterSpace`: empty with no parameters, the scatter sample otherwise. */
    method ParameterSpace() returns (r: Result<seq<Sample>>)
      requires parameters.Wf()
      ensures parameters.keys == [] ==> r == Ok([])
      ensures parameters.keys != [] ==> r == ScatterSampler.ScatterSpec(parameters)
    {
      if |parameters.keys| == 0 {
        return Ok([]);
      }
      r := ScatterSamples();
    }
  }

  function Nums(xs: seq<real>): (r: seq<Value>)
    ensures |r| == |xs| && forall i :: 0 <= i < |xs| ==> r[i] == Num(xs[i])
  {
    seq(|xs|, i requires 0 <= i < |xs| => Num(xs[i]))
  }

  function Point(a: real, b: real, g: real): Sample {
    map["ALPHA" := Num(a), "BETA" := Num(b), "GAMMA" := Num(g)]
  }

  /** The lab's worked example: ALPHA in 1..5, BETA in 7, 9, .., 15, GAMMA fixed at 22. */
  function Example(): (sp: Space)
    ensures sp.Wf()
  {
    Dict(["ALPHA", "BETA", "GAMMA"],
         map["ALPHA" := Nums([1.0, 2.0, 3.0, 4.0, 5.0]),
             "BETA" := Nums([7.0, 9.0, 11.0, 13.0, 15.0]),
             "GAMMA" := Nums([22.0])])
  }

  lemma ExampleBaseline()
    ensures ScatterSampler.Baseline(Example()) == Point(3.0, 11.0, 22.0)
  {
    var sp := Example();
    assert sp.entries["ALPHA"][2] == Num(3.0);
    assert sp.entries["BETA"][2] == Num(11.0);
    assert sp.entries["GAMMA"][0] == Num(22.0);
  }

  /** Varying one parameter over five values whose middle one is the baseline. */
  lemma FiveVariants(base: Sample, n: string, xs: seq<real>)
    requires n in base && |xs| == 5 && base[n] == Num(xs[2])
    requires xs[0] != xs[2] && xs[1] != xs[2] && xs[3] != xs[2] && xs[4] != xs[2]
    ensures ScatterSampler.Variants(base, n, Nums(xs)) ==
      [base[n := Num(xs[0])], base[n := Num(xs[1])], base[n := Num(xs[3])], base[n := Num(xs[4])]]
  {
    var v := Nums(xs);
    assert v[..4][..3][..2][..1][..0] == [];
    assert v[..4][..3][..2][..1] == v[..1];
    assert v[..4][..3][..2] == v[..2];
    assert v[..4][..3] == v[..3];
    assert ScatterSampler.Variants(base, n, v[..1]) == [base[n := Num(xs[0])]];
    assert ScatterSampler.Variants(base, n, v[..2]) == [base[n := Num(xs[0])], base[n := Num(xs[1])]];
    assert ScatterSampler.Variants(base, n, v[..3]) == [base[n := Num(xs[0])], base[n := Num(xs[1])]];
  }

  function AlphaGroup(): seq<Sample> {
    [Point(1.0, 11.0, 22.0), Point(2.0, 11.0, 22.0), Point(4.0, 11.0, 22.0), Point(5.0, 11.0, 22.0)]
  }

  function BetaGroup(): seq<Sample> {
    [Point(3.0, 7.0, 22.0), Point(3.0, 9.0, 22.0), Point(3.0, 13.0, 22.0), Point(3.0, 15.0, 22.0)]
  }

  lemma ExampleAlpha()
    ensures ScatterSampler.Variants(Point(3.0, 11.0, 22.0), "ALPHA", Example().entries["ALPHA"]) == AlphaGroup()
  {
    var base := Point(3.0, 11.0, 22.0);
    FiveVariants(base, "ALPHA", [1.0, 2.0, 3.0, 4.0, 5.0]);
    assert base["ALPHA" := Num(1.0)] == Point(1.0, 11.0, 22.0);
    assert base["ALPHA" := Num(2.0)] == Point(2.0, 11.0, 22.0);
    assert base["ALPHA" := Num(4.0)] == Point(4.0, 11.0, 22.0);
    assert base["ALPHA" := Num(5.0)] == Point(5.0, 11.0, 22.0);
  }

  lemma ExampleBeta()
    ensures ScatterSampler.Variants(Point(3.0, 11.0, 22.0), "BETA", Example().entries["BETA"]) == BetaGroup()
  {
    var base := Point(3.0, 11.0, 22.0);
    FiveVariants(base, "BETA", [7.0, 9.0, 11.0, 13.0, 15.0]);
    assert base["BETA" := Num(7.0)] == Point(3.0, 7.0, 22.0);
    assert base["BETA" := Num(9.0)] == Point(3.0, 9.0, 22.0);
    assert base["BETA" := Num(13.0)] == Point(3.0, 13.0, 22.0);
    assert base["BETA" := Num(15.0)] == Point(3.0, 15.0, 22.0);
  }

  /** The worked example yields exactly the nine samples listed with the lab, in that order. */
  lemma ExampleSamples()
    ensures ScatterSampler.ScatterSpec(Example()) ==
      Ok(AlphaGroup() + BetaGroup() + [Point(3.0, 11.0, 22.0)])
  {
    var sp := Example();
    ExampleBaseline();
    ExampleAlpha();
    ExampleBeta();
    var base := Point(3.0, 11.0, 22.0);
    var g := sp.entries["GAMMA"];
    assert g[..0] == [];
    assert ScatterSampler.Variants(base, "GAMMA", g) == [];
    var ks := sp.keys;
    assert ks[..2] == ["ALPHA", "BETA"] && ks[..2][..1] == ["ALPHA"] && ks[..2][..1][..0] == [];
    assert ScatterSampler.AllVariants(base, sp, ks[..1]) == AlphaGroup();
    assert ScatterSampler.AllVariants(base, sp, ks[..2]) == AlphaGroup() + BetaGroup();
    assert ks[..|ks| - 1] == ks[..2];
    assert ScatterSampler.AllVariants(base, sp, ks) == AlphaGroup() + BetaGroup();
    assert ScatterSampler.AllNonEmpty(sp);
  }
}

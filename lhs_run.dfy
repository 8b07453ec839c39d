/**
 * The Latin hypercube lab of the runner package. Its sample matrix is computed by the same
 * algorithm as the epyc Latin hypercube sampler, so it is stated through `LhsSampler`.
 */
module LhsRun {
  import opened Common
  import LhsSampler

  class LatinHypercubeLab {
    var parameters: Space

    constructor (ps: Space)
      requires ps.Wf()
      ensures parameters == ps
    {
      parameters := ps;
    }

    /** `_latin_hypercube_sample_matrix`: the Latin hypercube sample of the lab's parameters. */
    method LatinHypercubeSampleMatrix(perms: map<string, seq<nat>>) returns (r: Result<seq<Sample>>)
      requires parameters.Wf() && LhsSampler.ShufflesFor(parameters, perms)
      ensures r == LhsSampler.LhsSpec(parameters, perms)
    {
      r := LhsSampler.LhsSamples(parameters, perms);
    }

    /** `parameterSpace`: empty with no parameters, the sample matrix otherwise. */
    method ParameterSpace(perms: map<string, seq<nat>>) returns (r: Result<seq<Sample>>)
      requires parameters.Wf() && LhsSampler.ShufflesFor(parameters, perms)
      ensures parameters.keys == [] ==> r == Ok([])
      ensures parameters.keys != [] ==> r == LhsSampler.LhsSpec(parameters, perms)
    {
      if |parameters.keys| == 0 {
        return Ok([]);
      }
      r := LatinHypercubeSampleMatrix(perms);
    }
  }
}

/**
 * The parameter set of the `sensitivity.data` package: certain parameters with one value each,
 * uncertain parameters with a distribution, and the Latin-hypercube stratification table that
 * spreads every uniformly distributed parameter over evenly spaced values.
 */
module ParameterSetData {
  import opened Common

  const DISTRIBUTION_UNIFORM: string := "uniform"
  const DISTRIBUTION_NORMAL: string := "normal"

  /** The stored triple `(min_val, max_val, dist)`. The bounds are stored as given, numbers or
    * not. */
  datatype Distribution = Distribution(min: Value, max: Value, dist: string) {
    /** Both bounds are numbers, so `numpy.linspace` can do arithmetic on them. */
    predicate Numeric() {
      min.Num? && max.Num?
    }
  }

  /** The stratification table: one column of values per parameter. */
  type Table = map<string, seq<real>>

  /** The names whose distribution is uniform. */
  function UniformNames(u: map<string, Distribution>): (names: set<string>)
    ensures forall p :: p in names <==> p in u && u[p].dist == DISTRIBUTION_UNIFORM
  {
    set p | p in u && u[p].dist == DISTRIBUTION_UNIFORM
  }

  /** The uniform names whose bounds are not both numbers. */
  function NonNumericNames(u: map<string, Distribution>): (names: set<string>)
    ensures forall p :: p in names <==> p in UniformNames(u) && !u[p].Numeric()
  {
    set p | p in UniformNames(u) && !u[p].Numeric()
  }

  /** The column of one uniform parameter with numeric bounds: `numpy.linspace(min, max, n)`. */
  function Column(d: Distribution, n: nat): (col: seq<real>)
    requires d.Numeric()
    ensures |col| == n
    ensures forall k :: 0 <= k < n ==> col[k] == d.min.x + (k as real) * LinspaceStepSize(d.min.x, d.max.x, n)
  {
    Linspace(d.min.x, d.max.x, n)
  }

  /** `create_latin_hypercube_stratifications(n)`: a column for every uniform parameter and
    * nothing for the others. `numpy.linspace` refuses a negative count before it does arithmetic
    * on the bounds, so a negative count is a ValueError as soon as a uniform parameter is met,
    * and otherwise a uniform parameter with a non-numeric bound is a TypeError; which uniform
    * parameter is met first does not change the error. */
  function Stratifications(u: map<string, Distribution>, n: int): (r: Result<Table>)
    ensures r.Err? <==> UniformNames(u) != {} && (n < 0 || NonNumericNames(u) != {})
    ensures r.Err? ==> r.error == (if n < 0 then ValueError else TypeError)
    ensures r.Ok? ==> r.value.Keys == UniformNames(u)
    ensures r.Ok? ==> forall p :: p in r.value ==> |r.value[p]| == n
  {
    if UniformNames(u) == {} then Ok(map[])
    else if n < 0 then Err(ValueError)
    else if NonNumericNames(u) != {} then Err(TypeError)
    else Ok(map p | p in UniformNames(u) :: Column(u[p], n))
  }

  /** Every table entry is the k-th of n evenly spaced points, first the minimum and last the
    * maximum, and rising from one to the other when the range is ordered. */
  lemma StratificationValues(u: map<string, Distribution>, n: nat, p: string)
    requires p in u && u[p].dist == DISTRIBUTION_UNIFORM
    requires NonNumericNames(u) == {}
    ensures u[p].Numeric() && p in Stratifications(u, n).value
    ensures n >= 2 ==> forall k :: 0 <= k < n ==>
      Stratifications(u, n).value[p][k] == u[p].min.x + (k as real) * ((u[p].max.x - u[p].min.x) / ((n - 1) as real))
    ensures n >= 1 ==> Stratifications(u, n).value[p][0] == u[p].min.x
    ensures n >= 2 ==> Stratifications(u, n).value[p][n - 1] == u[p].max.x
    ensures u[p].min.x <= u[p].max.x ==> forall k, l :: 0 <= k <= l < n ==>
      u[p].min.x <= Stratifications(u, n).value[p][k] <= Stratifications(u, n).value[p][l] <= u[p].max.x
  {
    assert p in UniformNames(u);
    var lo, hi := u[p].min.x, u[p].max.x;
    var col := Stratifications(u, n).value[p];
    assert col == Linspace(lo, hi, n);
    if n >= 2 {
      LinspaceEnds(lo, hi, n);
    }
    if lo <= hi {
      LinspaceBounded(lo, hi, n);
    }
  }

  /** A uniform parameter registered with a bound that is not a number makes the table fail with
    * a TypeError for every non-negative count, whatever the other parameters are. */
  lemma NonNumericBoundFails(u: map<string, Distribution>, n: nat, p: string)
    requires p in u && u[p].dist == DISTRIBUTION_UNIFORM && !u[p].Numeric()
    ensures Stratifications(u, n) == Err(TypeError)
  {
    assert p in NonNumericNames(u);
  }

  /** A parameter that is only certain never gets a column, and neither does one whose
    * distribution is not uniform. */
  lemma OnlyUniformColumns(certain: map<string, Value>, u: map<string, Distribution>, n: int, p: string)
    requires Stratifications(u, n).Ok?
    requires (p in certain && p !in u) || (p in u && u[p].dist != DISTRIBUTION_UNIFORM)
    ensures p !in Stratifications(u, n).value
  {
  }

  class ParameterSet {
    var uncertainParameters: map<string, Distribution>
    var certainParameters: map<string, Value>

    constructor ()
      ensures uncertainParameters == map[] && certainParameters == map[]
    {
      uncertainParameters := map[];
      certainParameters := map[];
    }

    /** `add_certain_parameter`: sets one certain value, leaving the uncertain ones alone. */
    method AddCertainParameter(parameter: string, value: Value)
      modifies this
      ensures certainParameters == old(certainParameters)[parameter := value]
      ensures uncertainParameters == old(uncertainParameters)
    {
      certainParameters := certainParameters[parameter := value];
    }

    /** `add_uncertain_parameter_uniform_dist`: records a uniform range, leaving the certain
      * values alone. */
    method AddUncertainParameterUniformDist(parameter: string, minVal: Value, maxVal: Value)
      modifies this
      ensures uncertainParameters == old(uncertainParameters)[parameter := Distribution(minVal, maxVal, DISTRIBUTION_UNIFORM)]
      ensures certainParameters == old(certainParameters)
    {
      uncertainParameters := uncertainParameters[parameter := Distribution(minVal, maxVal, DISTRIBUTION_UNIFORM)];
    }

    /** `create_latin_hypercube_stratifications`: the loop over the uncertain parameters, in
      * whatever order the dict yields them. */
    method CreateLatinHypercubeStratifications(n: int) returns (r: Result<Table>)
      ensures r == Stratifications(uncertainParameters, n)
    {
      var u := uncertainParameters;
      var values: Table := map[];
      var remaining := u.Keys;
      while remaining != {}
        invariant remaining <= u.Keys
        invariant forall p :: p in values <==> p in u && p !in remaining && u[p].dist == DISTRIBUTION_UNIFORM
        invariant forall p :: p in values ==> n >= 0 && u[p].Numeric() && values[p] == Column(u[p], n)
        decreases remaining
      {
        var p :| p in remaining;
        if u[p].dist == DISTRIBUTION_UNIFORM {
          assert p in UniformNames(u);
          if n < 0 {
            return Err(ValueError);
          }
          if !u[p].Numeric() {
            assert p in NonNumericNames(u);
            return Err(TypeError);
          }
          values := values[p := Column(u[p], n)];
        }
        remaining := remaining - {p};
      }
      assert values.Keys == UniformNames(u);
      if UniformNames(u) != {} {
        var q :| q in UniformNames(u);
        assert q in values;
        assert NonNumericNames(u) == {};
        assert values == map p | p in UniformNames(u) :: Column(u[p], n);
      }
      return Ok(values);
    }
  }

  /** The worked example: certain c1 and c2, uncertain unc1 over [1.1, 11.2] and unc2 over
    * [5.5, 5.7], ten stratifications. */
  method StratificationExample() returns (table: Result<Table>)
    ensures table.Ok? && table.value.Keys == {"unc1", "unc2"}
    ensures forall p :: p in table.value ==> |table.value[p]| == 10
    ensures table.value["unc1"][0] == 1.1 && table.value["unc1"][9] == 11.2
    ensures table.value["unc2"][0] == 5.5 && table.value["unc2"][9] == 5.7
  {
    var ps := new ParameterSet();
    ps.AddCertainParameter("c1", Num(1.1));
    ps.AddCertainParameter("c2", Num(2.2));
    ps.AddUncertainParameterUniformDist("unc1", Num(1.1), Num(11.2));
    ps.AddUncertainParameterUniformDist("unc2", Num(5.5), Num(5.7));
    table := ps.CreateLatinHypercubeStratifications(10);
    var u := ps.uncertainParameters;
    assert UniformNames(u) == {"unc1", "unc2"};
    StratificationValues(u, 10, "unc1");
    StratificationValues(u, 10, "unc2");
  }
}

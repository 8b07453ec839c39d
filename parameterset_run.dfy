/**
 * The parameter set of the runner package. `add_parameter` files a list under the uncertain
 * parameters and anything else under the certain ones; the stratification table unpacks each
 * uncertain list as `(min, max, distribution)` and spreads the uniform ones evenly.
 */
module ParameterSetRun {
  import opened Common

  const DISTRIBUTION_UNIFORM: string := "uniform"

  /** The stratification table: one column of values per parameter. */
  type Table = map<string, seq<real>>

  /** The column of one uncertain parameter. Unpacking a list that does not hold exactly three
    * items is a ValueError, a distribution other than uniform a NotImplementedError;
    * `numpy.linspace` then refuses a negative count (ValueError) before it does arithmetic on
    * the bounds, which must be numbers (TypeError). */
  function Column(v: seq<Value>, n: int): (r: Result<seq<real>>)
    ensures |v| != 3 ==> r == Err(ValueError)
    ensures |v| == 3 && v[2] != Text(DISTRIBUTION_UNIFORM) ==> r == Err(NotImplementedError)
    ensures r.Ok? <==> |v| == 3 && v[2] == Text(DISTRIBUTION_UNIFORM) && n >= 0 && v[0].Num? && v[1].Num?
    ensures r.Ok? ==> r.value == Linspace(v[0].x, v[1].x, n)
  {
    if |v| != 3 then Err(ValueError)
    else if v[2] != Text(DISTRIBUTION_UNIFORM) then Err(NotImplementedError)
    else if n < 0 then Err(ValueError)
    else if !(v[0].Num? && v[1].Num?) then Err(TypeError)
    else Ok(Linspace(v[0].x, v[1].x, n))
  }

  /** The loop over the uncertain parameters, visited in the order `order` (the dict's own
    * iteration order): the first failing column raises, otherwise every column is stored. */
  function Stratifications(u: map<string, seq<Value>>, order: seq<string>, n: int): (r: Result<Table>)
    requires forall i :: 0 <= i < |order| ==> order[i] in u
    ensures r.Ok? <==> forall i :: 0 <= i < |order| ==> Column(u[order[i]], n).Ok?
    ensures r.Ok? ==> r.value.Keys == set p | p in order
    ensures r.Ok? ==> forall p :: p in r.value ==> Column(u[p], n) == Ok(r.value[p])
    ensures r.Err? ==> exists i :: 0 <= i < |order| && Column(u[order[i]], n) == Err(r.error)
    decreases |order|
  {
    if order == [] then Ok(map[])
    else
      var p := order[|order| - 1];
      var init :- Stratifications(u, order[..|order| - 1], n);
      var col :- Column(u[p], n);
      Ok(init[p := col])
  }

  /** Whether the table is produced, and what it holds, do not depend on the order in which the
    * uncertain parameters are visited. */
  lemma OrderIrrelevant(u: map<string, seq<Value>>, o1: seq<string>, o2: seq<string>, n: int)
    requires forall i :: 0 <= i < |o1| ==> o1[i] in u
    requires forall p :: p in o2 <==> p in o1
    ensures forall i :: 0 <= i < |o2| ==> o2[i] in u
    ensures Stratifications(u, o1, n).Ok? <==> Stratifications(u, o2, n).Ok?
    ensures Stratifications(u, o1, n).Ok? ==> Stratifications(u, o1, n) == Stratifications(u, o2, n)
  {
    assert forall i :: 0 <= i < |o2| ==> o2[i] in o1;
    SameVerdict(u, o1, o2, n);
    SameVerdict(u, o2, o1, n);
    var r1, r2 := Stratifications(u, o1, n), Stratifications(u, o2, n);
    if r1.Ok? {
      assert r1.value.Keys == r2.value.Keys;
      assert forall p :: p in r1.value ==> Ok(r1.value[p]) == Column(u[p], n) == Ok(r2.value[p]);
      assert r1.value == r2.value;
    }
  }

  lemma SameVerdict(u: map<string, seq<Value>>, o1: seq<string>, o2: seq<string>, n: int)
    requires forall i :: 0 <= i < |o1| ==> o1[i] in u
    requires forall i :: 0 <= i < |o2| ==> o2[i] in o1
    ensures forall i :: 0 <= i < |o2| ==> o2[i] in u
    ensures Stratifications(u, o1, n).Ok? ==> Stratifications(u, o2, n).Ok?
  {
    assert forall i :: 0 <= i < |o2| ==> o2[i] in u by {
      forall i | 0 <= i < |o2|
        ensures o2[i] in u
      {
        assert o2[i] in o1;
        var j :| 0 <= j < |o1| && o1[j] == o2[i];
      }
    }
    if Stratifications(u, o1, n).Ok? {
      forall i | 0 <= i < |o2|
        ensures Column(u[o2[i]], n).Ok?
      {
        assert o2[i] in o1;
        var j :| 0 <= j < |o1| && o1[j] == o2[i];
      }
    }
  }

  /** Every column of an uncertain uniform range runs evenly from its minimum to its maximum. */
  lemma StratificationColumn(u: map<string, seq<Value>>, order: seq<string>, n: int, p: string)
    requires forall i :: 0 <= i < |order| ==> order[i] in u
    requires Stratifications(u, order, n).Ok? && p in order
    ensures p in Stratifications(u, order, n).value
    ensures |Stratifications(u, order, n).value[p]| == n
    ensures n >= 1 ==> Stratifications(u, order, n).value[p][0] == u[p][0].x
    ensures n >= 2 ==> Stratifications(u, order, n).value[p][n - 1] == u[p][1].x
  {
    var t := Stratifications(u, order, n).value;
    assert Column(u[p], n) == Ok(t[p]);
    if n >= 2 {
      LinspaceEnds(u[p][0].x, u[p][1].x, n);
    }
  }

  class ParameterSet {
    var certainParameters: map<string, Value>
    var uncertainParameters: map<string, seq<Value>>

    constructor ()
      ensures certainParameters == map[] && uncertainParameters == map[]
    {
      certainParameters := map[];
      uncertainParameters := map[];
    }

    /** `certain_parameters()`: the stored dict, as it is. */
    function CertainParameters(): (r: map<string, Value>)
      reads this
      ensures r == certainParameters
    {
      certainParameters
    }

    /** `uncertain_parameters()`: the stored dict, as it is. */
    function UncertainParameters(): (r: map<string, seq<Value>>)
      reads this
      ensures r == uncertainParameters
    {
      uncertainParameters
    }

    /** `add_parameter`: a list is an uncertain parameter, any other value a certain one; the
      * other dict is left alone. */
    method AddParameter(parameter: string, values: Argument)
      modifies this
      ensures values.Several? ==> uncertainParameters == old(uncertainParameters)[parameter := values.vs]
      ensures values.Several? ==> certainParameters == old(certainParameters)
      ensures values.Single? ==> certainParameters == old(certainParameters)[parameter := values.v]
      ensures values.Single? ==> uncertainParameters == old(uncertainParameters)
    {
      match values
      case Several(vs) => uncertainParameters := uncertainParameters[parameter := vs];
      case Single(v) => certainParameters := certainParameters[parameter := v];
    }

    /** `create_latin_hypercube_stratifications`. The guard in front of the loop tests the getter
      * itself, which is always truthy, so it never raises: with no uncertain parameters the
      * table is empty. */
    method CreateLatinHypercubeStratifications(order: seq<string>, n: int) returns (r: Result<Table>)
      requires forall i :: 0 <= i < |order| ==> order[i] in uncertainParameters
      requires Distinct(order) && forall p :: p in uncertainParameters ==> p in order
      ensures r == Stratifications(uncertainParameters, order, n)
      ensures uncertainParameters == map[] ==> r == Ok(map[])
    {
      var u := uncertainParameters;
      var values: Table := map[];
      var i := 0;
      while i < |order|
        invariant 0 <= i <= |order|
        invariant Stratifications(u, order[..i], n) == Ok(values)
      {
        var p := order[i];
        assert order[..i + 1][..i] == order[..i];
        var col := Column(u[p], n);
        if col.Err? {
          PrefixFailure(u, order, i + 1, n);
          return Err(col.error);
        }
        values := values[p := col.value];
        i := i + 1;
      }
      assert order[..i] == order;
      return Ok(values);
    }
  }

  /** Once a prefix of the visiting order fails, the whole loop fails with the same error. */
  lemma {:induction false} PrefixFailure(u: map<string, seq<Value>>, order: seq<string>, j: nat, n: int)
    requires forall i :: 0 <= i < |order| ==> order[i] in u
    requires j <= |order| && Stratifications(u, order[..j], n).Err?
    ensures Stratifications(u, order, n) == Stratifications(u, order[..j], n)
    decreases |order| - j
  {
    if j < |order| {
      assert order[..j + 1][..j] == order[..j];
      PrefixFailure(u, order, j + 1, n);
    } else {
      assert order[..j] == order;
    }
  }
}

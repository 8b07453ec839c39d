/**
 * The aggregation notebook (`AggregationJSONNotebook`). Each experiment result that arrives
 * with a list of repetitions, all of them successful, is reduced to one aggregated row: the
 * parameters of the point, and either the mean of every result over the repetitions or, for a
 * single repetition, the repetition list itself. The notebook also keeps, in first-seen
 * order, every parameter name and every result key it has recorded.
 */
module Aggregation {
  import opened Common

  /** One repetition of an experiment: its parameters, its results and its success flag
    * (`metadata['status']`). */
  datatype Repetition = Repetition(parameters: map<string, Value>, results: Dict<real>, status: bool)

  /** The RESULTS entry of an experiment result: a list of repetitions, or anything else. */
  datatype Outcome = Repetitions(reps: seq<Repetition>) | Other

  datatype ExperimentResult = ExperimentResult(parameters: Dict<Value>, results: Outcome)

  /** What `_get_results_for_row` returns: the repetition list itself, or a dict of means. */
  datatype Aggregate = PassThrough(reps: seq<Repetition>) | Means(means: Dict<real>)

  /** One entry of `_aggregated_results`. */
  datatype AggregatedRow = AggregatedRow(parameters: Dict<Value>, results: Aggregate)

  /** What iterating over an aggregate yields: result names of a dict of means, or the
    * repetition records of a passed-through list. */
  datatype ResultKey = Name(name: string) | Record(rep: Repetition)

  // ---------------------------------------------------------------------------------------
  // Means

  function Sum(xs: seq<real>): real {
    if xs == [] then 0.0 else Sum(xs[..|xs| - 1]) + xs[|xs| - 1]
  }

  /** `numpy.mean`, over exact reals. */
  function Mean(xs: seq<real>): real
    requires xs != []
  {
    Sum(xs) / (|xs| as real)
  }

  lemma {:induction false} SumBounds(xs: seq<real>, lo: real, hi: real)
    requires forall i :: 0 <= i < |xs| ==> lo <= xs[i] <= hi
    ensures lo * (|xs| as real) <= Sum(xs) <= hi * (|xs| as real)
  {
    if xs != [] {
      SumBounds(xs[..|xs| - 1], lo, hi);
    }
  }

  /** A mean lies between the least and the greatest value averaged. */
  lemma MeanBounds(xs: seq<real>, lo: real, hi: real)
    requires xs != []
    requires forall i :: 0 <= i < |xs| ==> lo <= xs[i] <= hi
    ensures lo <= Mean(xs) <= hi
  {
    SumBounds(xs, lo, hi);
    var n := |xs| as real;
    assert lo * n <= Sum(xs) <= hi * n;
    DivideBounds(Sum(xs), n, lo, hi);
  }

  lemma DivideBounds(s: real, n: real, lo: real, hi: real)
    requires n > 0.0 && lo * n <= s <= hi * n
    ensures lo <= s / n <= hi
  {
    var q := s / n;
    assert q * n == s;
    assert (q - lo) * n >= 0.0;
    assert (hi - q) * n >= 0.0;
  }

  /** Averaging repetitions that agree gives their common value. */
  lemma MeanOfConstant(xs: seq<real>, c: real)
    requires xs != [] && forall i :: 0 <= i < |xs| ==> xs[i] == c
    ensures Mean(xs) == c
  {
    MeanBounds(xs, c, c);
  }

  /** Every repetition reports result `k`. */
  predicate Reports(reps: seq<Repetition>, k: string) {
    forall i :: 0 <= i < |reps| ==> k in reps[i].results.entries
  }

  /** `[rep[RESULTS][k] for rep in repetition_data]`. */
  function Column(reps: seq<Repetition>, k: string): (xs: seq<real>)
    requires Reports(reps, k)
    ensures |xs| == |reps|
  {
    seq(|reps|, i requires 0 <= i < |reps| => reps[i].results.entries[k])
  }

  /** `_get_results_for_row`: a single repetition is returned as it is; otherwise each result
    * named by the first repetition is averaged over all of them. No repetition at all is an
    * IndexError, a repetition lacking one of those results a KeyError. */
  function GetResultsForRow(reps: seq<Repetition>): (r: Result<Aggregate>)
    requires forall i :: 0 <= i < |reps| ==> reps[i].results.Wf()
    ensures |reps| == 1 ==> r == Ok(PassThrough(reps))
    ensures |reps| == 0 ==> r == Err(IndexError)
    ensures |reps| >= 2 ==> (r.Err? <==> exists k :: k in reps[0].results.keys && !Reports(reps, k))
    ensures r.Err? ==> r.error == IndexError || r.error == KeyError
    ensures |reps| >= 2 && r.Ok? ==>
      (r.value.Means? && r.value.means.Wf() && r.value.means.keys == reps[0].results.keys &&
       forall k :: k in r.value.means.entries ==> Reports(reps, k) && r.value.means.entries[k] == Mean(Column(reps, k)))
  {
    if |reps| == 1 then Ok(PassThrough(reps))
    else if |reps| == 0 then Err(IndexError)
    else
      var keys := reps[0].results.keys;
      if exists k :: k in keys && !Reports(reps, k) then Err(KeyError)
      else
        var means := map k | k in keys :: Mean(Column(reps, k));
        assert reps[0].results.Wf();
        assert means.Keys == set k | k in keys;
        Ok(Means(Dict(keys, means)))
  }

  /** With two or more repetitions, a result that every repetition reports with the same value
    * keeps that value, and every mean lies between the smallest and the largest report. */
  lemma MeansOfAgreeingRepetitions(reps: seq<Repetition>, k: string, lo: real, hi: real)
    requires forall i :: 0 <= i < |reps| ==> reps[i].results.Wf()
    requires |reps| >= 2 && GetResultsForRow(reps).Ok? && k in reps[0].results.keys
    requires forall i :: 0 <= i < |reps| ==> lo <= reps[i].results.entries[k] <= hi
    ensures k in GetResultsForRow(reps).value.means.entries
    ensures lo <= GetResultsForRow(reps).value.means.entries[k] <= hi
  {
    var xs := Column(reps, k);
    MeanBounds(xs, lo, hi);
  }

  // ---------------------------------------------------------------------------------------
  // The aggregated data frame

  /** `extract`: a copy of the parameters updated with the results; on a name clash the
    * result wins. Updating a dict from a repetition list fails: each repetition record has
    * three entries, not a key and a value. */
  function Extract(row: AggregatedRow): (r: Result<map<string, Value>>)
    ensures row.results.PassThrough? <==> r.Err?
    ensures r.Err? ==> r.error == ValueError
    ensures r.Ok? ==> forall n :: n in r.value <==> n in row.parameters.entries || n in row.results.means.entries
    ensures r.Ok? ==> forall n :: n in row.results.means.entries ==> r.value[n] == Num(row.results.means.entries[n])
    ensures r.Ok? ==> forall n :: n in row.parameters.entries && n !in row.results.means.entries ==>
      r.value[n] == row.parameters.entries[n]
  {
    match row.results
    case PassThrough(_) => Err(ValueError)
    case Means(d) => Ok(row.parameters.entries + map n | n in d.entries :: Num(d.entries[n]))
  }

  /** `dataframe_aggregated`, as its list of records. */
  function Records(rows: seq<AggregatedRow>): (r: Result<seq<map<string, Value>>>)
    ensures r.Err? <==> exists i :: 0 <= i < |rows| && rows[i].results.PassThrough?
    ensures r.Err? ==> r.error == ValueError
    ensures r.Ok? ==> |r.value| == |rows| && forall i :: 0 <= i < |rows| ==> Extract(rows[i]) == Ok(r.value[i])
  {
    if rows == [] then Ok([])
    else
      var init :- Records(rows[..|rows| - 1]);
      var last :- Extract(rows[|rows| - 1]);
      Ok(init + [last])
  }

  /** A column of the data frame; a record without the name has a missing cell. */
  function FrameColumn(records: seq<map<string, Value>>, q: string): (col: seq<Option<Value>>)
    ensures |col| == |records|
  {
    seq(|records|, i requires 0 <= i < |records| => if q in records[i] then Some(records[i][q]) else None)
  }

  /** `len(set(df[q])) > 1`. */
  predicate Varies(records: seq<map<string, Value>>, q: string) {
    |set x | x in FrameColumn(records, q)| > 1
  }

  /** `[q for q in self._parameters if ...]` with the `> 1` filter. */
  function VaryingParameters(params: seq<string>, records: seq<map<string, Value>>): (r: seq<string>)
    ensures forall q :: q in r <==> q in params && Varies(records, q)
    ensures |r| <= |params|
  {
    if params == [] then []
    else
      var q := params[|params| - 1];
      VaryingParameters(params[..|params| - 1], records) + (if Varies(records, q) then [q] else [])
  }

  /** The same comprehension with the filter negated. */
  function FixedParameters(params: seq<string>, records: seq<map<string, Value>>): (r: seq<string>)
    ensures forall q :: q in r <==> q in params && !Varies(records, q)
    ensures |r| <= |params|
  {
    if params == [] then []
    else
      var q := params[|params| - 1];
      FixedParameters(params[..|params| - 1], records) + (if !Varies(records, q) then [q] else [])
  }

  lemma SubsetSize<T>(a: set<T>, b: set<T>)
    requires a <= b
    ensures |a| <= |b|
  {
    if a != {} {
      var x :| x in a;
      SubsetSize(a - {x}, b - {x});
    }
  }

  /** A parameter varies exactly when two records disagree on it (a missing cell counting as
    * one more value). */
  lemma VariesIffDisagree(records: seq<map<string, Value>>, q: string)
    ensures Varies(records, q) <==>
      exists i, j :: 0 <= i < |records| && 0 <= j < |records| && FrameColumn(records, q)[i] != FrameColumn(records, q)[j]
  {
    var col := FrameColumn(records, q);
    var values := set x | x in col;
    if exists i, j :: 0 <= i < |col| && 0 <= j < |col| && col[i] != col[j] {
      var i, j :| 0 <= i < |col| && 0 <= j < |col| && col[i] != col[j];
      SubsetSize({col[i], col[j]}, values);
    } else if col != [] {
      assert values == {col[0]};
    } else {
      assert values == {};
    }
  }

  // ---------------------------------------------------------------------------------------
  // Growing the name lists

  /** `[p for p in xs if p not in seen]`. */
  function Fresh<T(==,!new)>(xs: seq<T>, seen: seq<T>): (r: seq<T>)
    ensures forall x :: x in r <==> x in xs && x !in seen
    ensures Distinct(xs) ==> Distinct(r)
    ensures |r| <= |xs|
  {
    if xs == [] then []
    else
      var x := xs[|xs| - 1];
      var init := Fresh(xs[..|xs| - 1], seen);
      assert Distinct(xs) ==> x !in xs[..|xs| - 1];
      init + (if x !in seen then [x] else [])
  }

  /** Against an empty list every name is fresh. */
  lemma {:induction false} FreshFromNothing<T(!new)>(xs: seq<T>)
    ensures Fresh(xs, []) == xs
  {
    if xs != [] {
      FreshFromNothing(xs[..|xs| - 1]);
      assert xs[..|xs| - 1] + [xs[|xs| - 1]] == xs;
    }
  }

  /** Names all seen already contribute nothing. */
  lemma {:induction false} FreshOfSeen<T(!new)>(xs: seq<T>, seen: seq<T>)
    requires forall x :: x in xs ==> x in seen
    ensures Fresh(xs, seen) == []
  {
    if xs != [] {
      FreshOfSeen(xs[..|xs| - 1], seen);
    }
  }

  /** Appending the fresh names to a duplicate-free list keeps it duplicate-free and adds
    * exactly the names not yet present. */
  lemma AppendFresh<T(!new)>(seen: seq<T>, xs: seq<T>)
    requires Distinct(seen) && Distinct(xs)
    ensures Distinct(seen + Fresh(xs, seen))
    ensures forall x :: x in seen + Fresh(xs, seen) <==> x in seen || x in xs
  {
    var r := Fresh(xs, seen);
    forall i, j | 0 <= i < j < |seen + r|
      ensures (seen + r)[i] != (seen + r)[j]
    {
      if j >= |seen| && i < |seen| {
        assert (seen + r)[j] in r;
      }
    }
  }

  /** What iterating over an aggregate yields. */
  function KeysOf(agg: Aggregate): seq<ResultKey> {
    match agg
    case Means(d) => seq(|d.keys|, i requires 0 <= i < |d.keys| => Name(d.keys[i]))
    case PassThrough(reps) => seq(|reps|, i requires 0 <= i < |reps| => Record(reps[i]))
  }

  /** The result keys of an aggregate carry no duplicates. */
  lemma KeysOfDistinct(agg: Aggregate)
    requires agg.Means? ==> agg.means.Wf()
    requires agg.PassThrough? ==> |agg.reps| <= 1
    ensures Distinct(KeysOf(agg))
  {
  }

  /** Every experiment in the result's repetition list succeeded. */
  predicate AllSucceeded(reps: seq<Repetition>) {
    forall i :: 0 <= i < |reps| ==> reps[i].status
  }

  // ---------------------------------------------------------------------------------------
  // The notebook

  class AggregationNotebook {
    var aggregatedResults: seq<AggregatedRow>
    var parameters: seq<string>
    var resultKeys: seq<ResultKey>

    /** The name lists have no duplicates and hold every name the rows use. */
    ghost predicate Valid()
      reads this
    {
      Distinct(parameters) && Distinct(resultKeys) &&
      (forall i :: 0 <= i < |aggregatedResults| ==> aggregatedResults[i].parameters.Wf()) &&
      (forall i, p :: 0 <= i < |aggregatedResults| && p in aggregatedResults[i].parameters.keys ==>
         p in parameters) &&
      (forall i, k :: 0 <= i < |aggregatedResults| && k in KeysOf(aggregatedResults[i].results) ==>
         k in resultKeys)
    }

    constructor ()
      ensures Valid()
      ensures aggregatedResults == [] && parameters == [] && resultKeys == []
    {
      aggregatedResults, parameters, resultKeys := [], [], [];
    }

    /** `_record_aggregated_row`: new parameter names and new result keys are appended in the
      * order met, and the row itself is appended. */
    method RecordAggregatedRow(ps: Dict<Value>, agg: Aggregate)
      requires Valid() && ps.Wf()
      requires agg.Means? ==> agg.means.Wf()
      requires agg.PassThrough? ==> |agg.reps| <= 1
      modifies this
      ensures Valid()
      ensures parameters == old(parameters) + Fresh(ps.keys, old(parameters))
      ensures resultKeys == old(resultKeys) + Fresh(KeysOf(agg), old(resultKeys))
      ensures aggregatedResults == old(aggregatedResults) + [AggregatedRow(ps, agg)]
    {
      AppendFresh(parameters, ps.keys);
      KeysOfDistinct(agg);
      AppendFresh(resultKeys, KeysOf(agg));
      parameters := parameters + Fresh(ps.keys, parameters);
      resultKeys := resultKeys + Fresh(KeysOf(agg), resultKeys);
      aggregatedResults := aggregatedResults + [AggregatedRow(ps, agg)];
    }

    /** `addResult`, as far as the aggregated rows go: a result whose repetitions all succeeded
      * is aggregated and recorded; any other result leaves them alone. A failing aggregation
      * raises before anything is recorded. */
    method AddResult(result: ExperimentResult) returns (r: Result<()>)
      requires Valid() && result.parameters.Wf()
      requires result.results.Repetitions? ==>
        forall i :: 0 <= i < |result.results.reps| ==> result.results.reps[i].results.Wf()
      modifies this
      ensures Valid()
      ensures !(result.results.Repetitions? && AllSucceeded(result.results.reps)) ==>
        r == Ok(()) && unchanged(this)
      ensures result.results.Repetitions? && AllSucceeded(result.results.reps) ==>
        var agg := GetResultsForRow(result.results.reps);
        (agg.Err? ==> r == Err(agg.error) && unchanged(this)) &&
        (agg.Ok? ==>
           (r == Ok(()) &&
            aggregatedResults == old(aggregatedResults) + [AggregatedRow(result.parameters, agg.value)] &&
            parameters == old(parameters) + Fresh(result.parameters.keys, old(parameters)) &&
            resultKeys == old(resultKeys) + Fresh(KeysOf(agg.value), old(resultKeys))))
    {
      if result.results.Repetitions? && AllSucceeded(result.results.reps) {
        var agg := GetResultsForRow(result.results.reps);
        if agg.Err? {
          return Err(agg.error);
        }
        RecordAggregatedRow(result.parameters, agg.value);
      }
      return Ok(());
    }

    /** `dataframe_aggregated`, as its list of records. */
    function DataframeAggregated(): (r: Result<seq<map<string, Value>>>)
      reads this
      ensures r == Records(aggregatedResults)
    {
      Records(aggregatedResults)
    }

    /** `uncertain_parameters`: the recorded parameters that take more than one value across
      * the aggregated rows, in recorded order. */
    function UncertainParameters(): (r: Result<seq<string>>)
      reads this
      ensures r.Err? <==> Records(aggregatedResults).Err?
      ensures r.Ok? ==> forall q :: q in r.value <==> q in parameters && Varies(Records(aggregatedResults).value, q)
    {
      var records :- DataframeAggregated();
      Ok(VaryingParameters(parameters, records))
    }

    /** `certain_parameters` as written: the very same `> 1` filter. */
    function CertainParametersAsWritten(): (r: Result<seq<string>>)
      reads this
      ensures r.Err? <==> Records(aggregatedResults).Err?
    {
      var records :- DataframeAggregated();
      Ok(VaryingParameters(parameters, records))
    }

    /** `certain_parameters` as intended: the recorded parameters that take a single value. */
    function CertainParameters(): (r: Result<seq<string>>)
      reads this
      ensures r.Err? <==> Records(aggregatedResults).Err?
      ensures r.Ok? ==> forall q :: q in r.value <==> q in parameters && !Varies(Records(aggregatedResults).value, q)
    {
      var records :- DataframeAggregated();
      Ok(FixedParameters(parameters, records))
    }

    /** As written, the certain parameters are always the uncertain ones. */
    lemma CertainIsUncertain()
      ensures CertainParametersAsWritten() == UncertainParameters()
    {
    }

    /** As intended, every recorded parameter is either certain or uncertain, never both. */
    lemma CertainAndUncertainPartition()
      requires Records(aggregatedResults).Ok?
      ensures forall q :: q in parameters ==>
        (q in CertainParameters().value <==> q !in UncertainParameters().value)
      ensures forall q :: q in CertainParameters().value || q in UncertainParameters().value ==> q in parameters
    {
    }
  }

  // ---------------------------------------------------------------------------------------
  // The notebook test's point

  function Point(x2: real, x4: real): Dict<Value> {
    Dict(["x1", "x2", "x3", "x4"], map["x1" := Num(2.0), "x2" := Num(x2), "x3" := Num(5.0), "x4" := Num(x4)])
  }

  function Outputs(y: real): Dict<real> {
    Dict(["y"], map["y" := y])
  }

  lemma PointWf(x2: real, x4: real)
    ensures Point(x2, x4).Wf() && Point(x2, x4).keys == ["x1", "x2", "x3", "x4"]
    ensures Outputs(x2).Wf()
  {
    var p := Point(x2, x4);
    assert p.entries.Keys == {"x1", "x2", "x3", "x4"};
  }

  function ExampleRows(): seq<AggregatedRow> {
    [AggregatedRow(Point(2.0, 6.0), Means(Outputs(1.0))), AggregatedRow(Point(3.0, 7.0), Means(Outputs(2.0)))]
  }

  /** A notebook that has recorded the two rows of the example. */
  method ExampleNotebook() returns (nb: AggregationNotebook)
    ensures nb.parameters == ["x1", "x2", "x3", "x4"] && nb.aggregatedResults == ExampleRows()
  {
    nb := FirstExampleRow();
    SecondExampleRow(nb);
  }

  /** A fresh notebook after the first row: its parameter names are those of the row. */
  method FirstExampleRow() returns (nb: AggregationNotebook)
    ensures fresh(nb) && nb.Valid()
    ensures nb.parameters == ["x1", "x2", "x3", "x4"] && nb.aggregatedResults == ExampleRows()[..1]
  {
    PointWf(2.0, 6.0);
    nb := new AggregationNotebook();
    nb.RecordAggregatedRow(Point(2.0, 6.0), Means(Outputs(1.0)));
    FreshFromNothing(["x1", "x2", "x3", "x4"]);
  }

  /** The second row names no parameter the first did not. */
  method SecondExampleRow(nb: AggregationNotebook)
    requires nb.Valid()
    requires nb.parameters == ["x1", "x2", "x3", "x4"] && nb.aggregatedResults == ExampleRows()[..1]
    modifies nb
    ensures nb.parameters == ["x1", "x2", "x3", "x4"] && nb.aggregatedResults == ExampleRows()
  {
    PointWf(3.0, 7.0);
    nb.RecordAggregatedRow(Point(3.0, 7.0), Means(Outputs(2.0)));
    FreshOfSeen(nb.parameters[..4], nb.parameters[..4]);
    assert ExampleRows()[..1] + [ExampleRows()[1]] == ExampleRows();
  }

  /** Two aggregated rows in which x1 = 2 and x3 = 5 stay fixed while x2 and x4 vary: the
    * as-written `certain_parameters` answers [x2, x4], the intended one [x1, x3]. */
  method CertainParametersExample() returns (asWritten: Result<seq<string>>, intended: Result<seq<string>>)
    ensures asWritten == Ok(["x2", "x4"])
    ensures intended == Ok(["x1", "x3"])
  {
    var nb := ExampleNotebook();
    ExampleRecords(nb.aggregatedResults);
    asWritten := nb.CertainParametersAsWritten();
    intended := nb.CertainParameters();
  }

  /** Records in which x1 and x3 agree and x2 and x4 differ between two rows. */
  predicate TwoPoints(records: seq<map<string, Value>>) {
    |records| == 2 &&
    (forall i :: 0 <= i < 2 ==> "x1" in records[i] && records[i]["x1"] == Num(2.0)) &&
    (forall i :: 0 <= i < 2 ==> "x3" in records[i] && records[i]["x3"] == Num(5.0)) &&
    "x2" in records[0] && "x2" in records[1] && records[0]["x2"] != records[1]["x2"] &&
    "x4" in records[0] && "x4" in records[1] && records[0]["x4"] != records[1]["x4"]
  }

  function PointRecord(x2: real, x4: real, y: real): map<string, Value> {
    map["x1" := Num(2.0), "x2" := Num(x2), "x3" := Num(5.0), "x4" := Num(x4), "y" := Num(y)]
  }

  lemma ExtractPoint(x2: real, x4: real, y: real)
    ensures Extract(AggregatedRow(Point(x2, x4), Means(Outputs(y)))) == Ok(PointRecord(x2, x4, y))
  {
    var r := Extract(AggregatedRow(Point(x2, x4), Means(Outputs(y))));
    var e := PointRecord(x2, x4, y);
    assert "y" in Outputs(y).entries && forall n :: n in Outputs(y).entries ==> n == "y";
    assert r.value.Keys == e.Keys;
    assert r.value["x1"] == e["x1"] && r.value["x2"] == e["x2"] && r.value["x3"] == e["x3"];
    assert r.value["x4"] == e["x4"] && r.value["y"] == e["y"];
    assert forall n :: n in e ==> n in {"x1", "x2", "x3", "x4", "y"};
    assert forall n :: n in e ==> r.value[n] == e[n];
    assert r.value == e;
    assert r == Ok(e);
  }

  lemma PointRecordEntries(x2: real, x4: real, y: real)
    ensures "x1" in PointRecord(x2, x4, y) && PointRecord(x2, x4, y)["x1"] == Num(2.0)
    ensures "x2" in PointRecord(x2, x4, y) && PointRecord(x2, x4, y)["x2"] == Num(x2)
    ensures "x3" in PointRecord(x2, x4, y) && PointRecord(x2, x4, y)["x3"] == Num(5.0)
    ensures "x4" in PointRecord(x2, x4, y) && PointRecord(x2, x4, y)["x4"] == Num(x4)
  {
  }

  lemma ExampleRecords(rows: seq<AggregatedRow>)
    requires rows == ExampleRows()
    ensures Records(rows).Ok?
    ensures VaryingParameters(["x1", "x2", "x3", "x4"], Records(rows).value) == ["x2", "x4"]
    ensures FixedParameters(["x1", "x2", "x3", "x4"], Records(rows).value) == ["x1", "x3"]
  {
    ExtractPoint(2.0, 6.0, 1.0);
    ExtractPoint(3.0, 7.0, 2.0);
    var records := [PointRecord(2.0, 6.0, 1.0), PointRecord(3.0, 7.0, 2.0)];
    assert rows[..1][..0] == [] && rows[..1][0] == rows[0];
    assert Records(rows[..1][..0]) == Ok([]);
    assert [] + [records[0]] == records[..1];
    assert Records(rows[..1]) == Ok(records[..1]);
    assert rows[..|rows| - 1] == rows[..1];
    assert records[..1] + [records[1]] == records;
    assert Records(rows) == Ok(records);
    PointRecordEntries(2.0, 6.0, 1.0);
    PointRecordEntries(3.0, 7.0, 2.0);
    assert TwoPoints(records);
    ExampleColumns(records);
    ExampleFilters(records);
  }

  lemma ExampleFilters(records: seq<map<string, Value>>)
    requires !Varies(records, "x1") && Varies(records, "x2") && !Varies(records, "x3") && Varies(records, "x4")
    ensures VaryingParameters(["x1", "x2", "x3", "x4"], records) == ["x2", "x4"]
    ensures FixedParameters(["x1", "x2", "x3", "x4"], records) == ["x1", "x3"]
  {
    var s1, s2, s3, s4 := ["x1"], ["x1", "x2"], ["x1", "x2", "x3"], ["x1", "x2", "x3", "x4"];
    assert s1 == [] + ["x1"] && s2 == s1 + ["x2"] && s3 == s2 + ["x3"] && s4 == s3 + ["x4"];
    FiltersAppend([], "x1", records);
    assert VaryingParameters(s1, records) == [] && FixedParameters(s1, records) == ["x1"];
    FiltersAppend(s1, "x2", records);
    assert VaryingParameters(s2, records) == ["x2"] && FixedParameters(s2, records) == ["x1"];
    FiltersAppend(s2, "x3", records);
    assert VaryingParameters(s3, records) == ["x2"] && FixedParameters(s3, records) == ["x1", "x3"];
    FiltersAppend(s3, "x4", records);
  }

  /** Both filters take one name at a time, in order. */
  lemma FiltersAppend(xs: seq<string>, q: string, records: seq<map<string, Value>>)
    ensures VaryingParameters(xs + [q], records) == VaryingParameters(xs, records) + (if Varies(records, q) then [q] else [])
    ensures FixedParameters(xs + [q], records) == FixedParameters(xs, records) + (if Varies(records, q) then [] else [q])
  {
    assert (xs + [q])[..|xs|] == xs;
  }

  lemma ExampleColumns(records: seq<map<string, Value>>)
    requires TwoPoints(records)
    ensures !Varies(records, "x1") && !Varies(records, "x3")
    ensures Varies(records, "x2") && Varies(records, "x4")
  {
    VariesIffDisagree(records, "x1");
    VariesIffDisagree(records, "x2");
    VariesIffDisagree(records, "x3");
    VariesIffDisagree(records, "x4");
    assert FrameColumn(records, "x2")[0] != FrameColumn(records, "x2")[1];
    assert FrameColumn(records, "x4")[0] != FrameColumn(records, "x4")[1];
  }
}

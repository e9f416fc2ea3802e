/**
  The chart data the workout page draws from the analytics records of one
  exercise: the dates as labels and three series (sets, average reps per set,
  average weight per set), one point per record in record order.
 */
module Analytics {
  import opened Js

  /** One analytics record as the API returns it. */
  datatype Record = Record(date: string, sets: int, reps: seq<int>, weights: seq<real>)

  datatype Series = Series(title: string, data: seq<Number>)

  datatype Chart = Chart(labels: seq<string>, sets: Series, reps: Series, weight: Series)

  const SetsLabel: string := "Sets"
  const RepsLabel: string := "Average Reps per Set"
  const WeightLabel: string := "Average Weight per Set"

  /** `reduce((sum, x) => sum + x, 0)` */
  function SumInts(xs: seq<int>): int {
    if |xs| == 0 then 0 else SumInts(xs[..|xs| - 1]) + xs[|xs| - 1]
  }

  function SumReals(xs: seq<real>): real {
    if |xs| == 0 then 0.0 else SumReals(xs[..|xs| - 1]) + xs[|xs| - 1]
  }

  /** The three per-record values the chart plots. */
  function SetsPoint(r: Record): Number {
    Finite(r.sets as real)
  }

  function RepsPoint(r: Record): Number {
    Divide(SumInts(r.reps) as real, r.sets as real)
  }

  function WeightPoint(r: Record): Number {
    Divide(SumReals(r.weights), r.sets as real)
  }

  /** `prepareChartData`: nothing without analytics data; otherwise one label and one
      point per record in each series. There is no guard for `sets == 0`: such a
      record plots a non-finite average. */
  function PrepareChartData(data: Option<seq<Record>>): (r: Option<Chart>)
    ensures r.None? <==> data.None?
    ensures r.Some? ==>
              var c := r.value;
              var rs := data.value;
              && |c.labels| == |rs| && |c.sets.data| == |rs|
              && |c.reps.data| == |rs| && |c.weight.data| == |rs|
              && c.sets.title == SetsLabel && c.reps.title == RepsLabel && c.weight.title == WeightLabel
              && (forall i :: 0 <= i < |rs| ==> c.labels[i] == rs[i].date)
              && (forall i :: 0 <= i < |rs| ==> c.sets.data[i] == Finite(rs[i].sets as real))
              && (forall i :: 0 <= i < |rs| ==>
                    (c.reps.data[i].Finite? <==> rs[i].sets != 0)
                    && (c.reps.data[i].Finite? ==> c.reps.data[i].r * rs[i].sets as real == SumInts(rs[i].reps) as real))
              && (forall i :: 0 <= i < |rs| ==>
                    (c.weight.data[i].Finite? <==> rs[i].sets != 0)
                    && (c.weight.data[i].Finite? ==> c.weight.data[i].r * rs[i].sets as real == SumReals(rs[i].weights)))
  {
    match data
    case None => None
    case Some(rs) =>
      Some(Chart(
        seq(|rs|, i requires 0 <= i < |rs| => rs[i].date),
        Series(SetsLabel, seq(|rs|, i requires 0 <= i < |rs| => SetsPoint(rs[i]))),
        Series(RepsLabel, seq(|rs|, i requires 0 <= i < |rs| => RepsPoint(rs[i]))),
        Series(WeightLabel, seq(|rs|, i requires 0 <= i < |rs| => WeightPoint(rs[i])))))
  }

  /** Charting is done record by record: the chart of `a + b` is the chart of `a`
      followed by the chart of `b`, series by series. */
  lemma ChartOfConcat(a: seq<Record>, b: seq<Record>)
    ensures var ca := PrepareChartData(Some(a)).value;
            var cb := PrepareChartData(Some(b)).value;
            var c := PrepareChartData(Some(a + b)).value;
            && c.labels == ca.labels + cb.labels
            && c.sets.data == ca.sets.data + cb.sets.data
            && c.reps.data == ca.reps.data + cb.reps.data
            && c.weight.data == ca.weight.data + cb.weight.data
  {
    var ca := PrepareChartData(Some(a)).value;
    var cb := PrepareChartData(Some(b)).value;
    var c := PrepareChartData(Some(a + b)).value;
    forall i | 0 <= i < |a + b|
      ensures c.labels[i] == (ca.labels + cb.labels)[i]
      ensures c.sets.data[i] == (ca.sets.data + cb.sets.data)[i]
      ensures c.reps.data[i] == (ca.reps.data + cb.reps.data)[i]
      ensures c.weight.data[i] == (ca.weight.data + cb.weight.data)[i]
    {
      if i < |a| {
        assert (a + b)[i] == a[i];
      } else {
        assert (a + b)[i] == b[i - |a|];
      }
    }
  }

  /** The worked example: two sets of 10 and 8 reps at 50 and 55 plot 2 sets,
      9 reps and 52.5 weight per set. */
  lemma ChartExample()
    ensures var c := PrepareChartData(Some([Record("2024-01-01", 2, [10, 8], [50.0, 55.0])])).value;
            && c.labels == ["2024-01-01"]
            && c.sets.data == [Finite(2.0)]
            && c.reps.data == [Finite(9.0)]
            && c.weight.data == [Finite(52.5)]
  {
    assert SumInts([10, 8]) == 18 by {
      assert [10, 8][..1] == [10];
      assert [10][..0] == [];
    }
    assert SumReals([50.0, 55.0]) == 105.0 by {
      assert [50.0, 55.0][..1] == [50.0];
      assert [50.0][..0] == [];
    }
  }

  /** A record with zero sets is not plotted as 0: its averages are `Infinity` when
      anything was lifted and `NaN` when nothing was. */
  lemma ZeroSetsIsNotFinite(date: string, reps: seq<int>, weights: seq<real>)
    ensures var c := PrepareChartData(Some([Record(date, 0, reps, weights)])).value;
            && c.reps.data == [if SumInts(reps) > 0 then PosInfinity else if SumInts(reps) < 0 then NegInfinity else NaN]
            && (SumReals(weights) == 0.0 ==> c.weight.data == [NaN])
  {
  }
}

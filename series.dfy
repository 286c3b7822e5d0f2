/** From month totals to monthly series and flat forecasts: the fiscal-order
    series the extractors build from a {month: total} map, the 3-window
    moving average they forecast with, and the '<month>_next' labels of
    the predicted entries. */
module Series {
  import opened Sheet
  import opened Months

  /** Parallel lists of month names and values. */
  datatype Series = Series(months: seq<string>, values: seq<real>)

  /** The loop over the first k fiscal months that keeps each month mv gives a value,
      collecting the month and its value. */
  function FiscalSeries(mv: map<string, Option<real>>, k: nat): (s: Series)
    requires k <= 12
    ensures |s.months| == |s.values|
    ensures forall i :: 0 <= i < |s.months| ==> s.months[i] in mv && mv[s.months[i]] == Some(s.values[i])
    ensures forall i :: 0 <= i < |s.months| ==> FiscalIndex(s.months[i]).Some? && FiscalIndex(s.months[i]).value < k
    ensures forall i, j :: 0 <= i < j < |s.months| ==> FiscalIndex(s.months[i]).value < FiscalIndex(s.months[j]).value
    ensures forall j :: 0 <= j < k ==> (FiscalMonths[j] in s.months <==> FiscalMonths[j] in mv && mv[FiscalMonths[j]].Some?)
  {
    if k == 0 then Series([], [])
    else
      var s := FiscalSeries(mv, k - 1);
      var m := FiscalMonths[k - 1];
      FiscalIndexOf(k - 1);
      assert m !in s.months;
      assert forall j :: 0 <= j < k - 1 ==> FiscalMonths[j] != m by {
        forall j | 0 <= j < k - 1 ensures FiscalMonths[j] != m { FiscalIndexOf(j); }
      }
      if m in mv && mv[m].Some? then Series(s.months + [m], s.values + [mv[m].value]) else s
  }

  /** The historical-series loop of the extractors. */
  method HistoricalSeries(mv: map<string, Option<real>>) returns (s: Series)
    ensures s == FiscalSeries(mv, 12)
  {
    var months: seq<string> := [];
    var historical: seq<real> := [];
    var k := 0;
    while k < 12
      invariant 0 <= k <= 12
      invariant Series(months, historical) == FiscalSeries(mv, k)
    {
      var m := FiscalMonths[k];
      if m in mv && mv[m].Some? {
        months := months + [m];
        historical := historical + [mv[m].value];
      }
      k := k + 1;
    }
    s := Series(months, historical);
  }

  // ---------------------------------------------------------------------
  // The 3-window moving average

  /** The window rule is the mean of the last min(3, k) values. */
  lemma WindowMeanIsTailMean(vals: seq<real>)
    requires |vals| > 0
    ensures WindowMean(vals) == Mean(vals[|vals| - Min(3, |vals|)..])
  {
    if |vals| == 2 {
      assert vals[0..] == vals;
    } else if |vals| == 1 {
      assert vals[0..] == vals;
      assert Sum(vals) == Sum(vals[..0]) + vals[0];
    }
  }

  lemma {:induction false} SumBetween(vals: seq<real>, lo: real, hi: real)
    requires forall i :: 0 <= i < |vals| ==> lo <= vals[i] <= hi
    ensures |vals| as real * lo <= Sum(vals) <= |vals| as real * hi
  {
    if |vals| > 0 {
      SumBetween(vals[..|vals| - 1], lo, hi);
    }
  }

  /** A mean lies between any bounds of its values. */
  lemma MeanBetween(vals: seq<real>, lo: real, hi: real)
    requires |vals| > 0
    requires forall i :: 0 <= i < |vals| ==> lo <= vals[i] <= hi
    ensures lo <= Mean(vals) <= hi
  {
    SumBetween(vals, lo, hi);
    var n := |vals| as real;
    assert n * lo <= Sum(vals) <= n * hi;
    assert Sum(vals) / n >= lo by {
      assert (Sum(vals) / n) * n == Sum(vals);
    }
    assert Sum(vals) / n <= hi by {
      assert (Sum(vals) / n) * n == Sum(vals);
    }
  }

  /** The forecast lies between the smallest and the largest of the values
      it averages: it never leaves the range of the last three months. */
  lemma WindowMeanBetween(vals: seq<real>, lo: real, hi: real)
    requires |vals| > 0
    requires forall i :: |vals| - Min(3, |vals|) <= i < |vals| ==> lo <= vals[i] <= hi
    ensures lo <= WindowMean(vals) <= hi
  {
    WindowMeanIsTailMean(vals);
    var t := vals[|vals| - Min(3, |vals|)..];
    assert forall i :: 0 <= i < |t| ==> t[i] == vals[|vals| - Min(3, |vals|) + i];
    MeanBetween(t, lo, hi);
  }

  /** A steady history forecasts itself. */
  lemma WindowMeanConstant(vals: seq<real>, x: real)
    requires |vals| > 0
    requires forall i :: 0 <= i < |vals| ==> vals[i] == x
    ensures WindowMean(vals) == x
  {
    WindowMeanBetween(vals, x, x);
  }

  // ---------------------------------------------------------------------
  // Forecasts and their labels

  /** calculate_forecast of the strict extractor: num_months copies of the
      window mean, or num_months Nones when there is no value. */
  function StrictForecast(vals: seq<real>, n: nat): (r: seq<Option<real>>)
    ensures |r| == n
    ensures |vals| == 0 ==> forall i :: 0 <= i < n ==> r[i].None?
    ensures |vals| > 0 ==> forall i :: 0 <= i < n ==> r[i] == Some(WindowMean(vals))
  {
    if |vals| == 0 then Repeat(None, n) else Repeat(Some(WindowMean(vals)), n)
  }

  /** calculate_forecast_from_historical of the comprehensive extractor:
      [] when there is no value. */
  function PlainForecast(vals: seq<real>, n: nat): (r: seq<real>)
    ensures |vals| == 0 ==> r == []
    ensures |vals| > 0 ==> |r| == n && forall i :: 0 <= i < n ==> r[i] == WindowMean(vals)
  {
    if |vals| == 0 then [] else Repeat(WindowMean(vals), n)
  }

  function NextLabel(m: string): string { m + "_next" }

  /** Each prediction that has a value, labelled with its fiscal month and `_next`, in
      order. */
  function Labelled(pv: seq<Option<real>>): seq<(string, real)>
    requires |pv| <= 12
  {
    if |pv| == 0 then []
    else
      Labelled(pv[..|pv| - 1])
      + (if pv[|pv| - 1].Some? then [(NextLabel(FiscalMonths[|pv| - 1]), pv[|pv| - 1].value)] else [])
  }

  /** The same zip without the filter (the comprehensive extractor). */
  function LabelledAll(pv: seq<real>): (r: seq<(string, real)>)
    requires |pv| <= 12
    ensures |r| == |pv|
    ensures forall i :: 0 <= i < |pv| ==> r[i] == (NextLabel(FiscalMonths[i]), pv[i])
  {
    seq(|pv|, i requires 0 <= i < |pv| => (NextLabel(FiscalMonths[i]), pv[i]))
  }

  /** Every value present: the label of entry i is the i-th fiscal month. */
  lemma {:induction false} LabelledPresent(pv: seq<Option<real>>, x: real)
    requires |pv| <= 12
    requires forall i :: 0 <= i < |pv| ==> pv[i] == Some(x)
    ensures |Labelled(pv)| == |pv|
    ensures forall i :: 0 <= i < |pv| ==> Labelled(pv)[i] == (NextLabel(FiscalMonths[i]), x)
  {
    if |pv| > 0 {
      LabelledPresent(pv[..|pv| - 1], x);
    }
  }

  lemma {:induction false} LabelledAbsent(pv: seq<Option<real>>)
    requires |pv| <= 12
    requires forall i :: 0 <= i < |pv| ==> pv[i].None?
    ensures Labelled(pv) == []
  {
    if |pv| > 0 {
      LabelledAbsent(pv[..|pv| - 1]);
    }
  }

  /** The predicted entries of the strict extractor are 'April_next' ..
      'March_next', all carrying the window mean, whatever months the
      history covers; none when there is no history. */
  lemma StrictPredictedLabels(vals: seq<real>)
    ensures var p := Labelled(StrictForecast(vals, 12));
            (|vals| == 0 ==> p == [])
            && (|vals| > 0 ==> |p| == 12 && forall i :: 0 <= i < 12 ==> p[i] == (NextLabel(FiscalMonths[i]), WindowMean(vals)))
  {
    if |vals| == 0 {
      LabelledAbsent(StrictForecast(vals, 12));
    } else {
      LabelledPresent(StrictForecast(vals, 12), WindowMean(vals));
    }
  }

  // ---------------------------------------------------------------------
  // Overall monthly totals

  /** The months of mv with a value. */
  function Known(mv: map<string, Option<real>>): (t: map<string, real>)
    ensures forall m :: m in t <==> m in mv && mv[m].Some?
    ensures forall m :: m in t ==> mv[m] == Some(t[m])
  {
    map m | m in mv && mv[m].Some? :: mv[m].value
  }

  /** Every total as a present value. */
  function Lift(t: map<string, real>): (mv: map<string, Option<real>>)
    ensures mv.Keys == t.Keys
    ensures forall m :: m in t ==> mv[m] == Some(t[m])
  {
    map m | m in t :: Some(t[m])
  }

  /** The total of month m, 0.0 when it has none. */
  function Get0(t: map<string, real>, m: string): real
  {
    if m in t then t[m] else 0.0
  }

  /** Add every month mv gives a value into the totals, starting an absent month at 0.0. */
  function Accumulate(t: map<string, real>, mv: map<string, Option<real>>): (r: map<string, real>)
  {
    map m | m in t.Keys + Known(mv).Keys :: Get0(t, m) + Get0(Known(mv), m)
  }

  /** What a month's running total becomes: its old total plus the new
      value, a month seen for the first time starting from 0.0; months
      without a value are untouched. */
  lemma AccumulateSpec(t: map<string, real>, mv: map<string, Option<real>>)
    ensures var r := Accumulate(t, mv);
            (forall m :: m in r <==> m in t || (m in mv && mv[m].Some?))
            && (forall m :: m in mv && mv[m].Some? ==> r[m] == Get0(t, m) + mv[m].value)
            && (forall m :: m in t && !(m in mv && mv[m].Some?) ==> r[m] == t[m])
  {
  }

  /** Adding into no totals gives the known values. */
  lemma AccumulateEmpty(t: map<string, real>)
    ensures Accumulate(map[], Lift(t)) == t
  {
  }

  /** mv without the months of `todo`. */
  function Without(mv: map<string, Option<real>>, todo: set<string>): (r: map<string, Option<real>>)
    ensures forall m :: m in r <==> m in mv && m !in todo
    ensures forall m :: m in r ==> r[m] == mv[m]
  {
    map m | m in mv && m !in todo :: mv[m]
  }

  lemma AccumulateStep(t: map<string, real>, mv: map<string, Option<real>>, todo: set<string>, m: string)
    requires m in todo && todo <= mv.Keys
    ensures Accumulate(t, Without(mv, todo - {m}))
            == if mv[m].Some? then Accumulate(t, Without(mv, todo))[m := Get0(Accumulate(t, Without(mv, todo)), m) + mv[m].value]
               else Accumulate(t, Without(mv, todo))
  {
  }

  /** The accumulation loop over the items of mv. */
  method AddTotals(t: map<string, real>, mv: map<string, Option<real>>) returns (out: map<string, real>)
    ensures out == Accumulate(t, mv)
  {
    out := t;
    var todo := mv.Keys;
    assert Without(mv, todo) == map[];
    assert Accumulate(t, map[]) == t;
    while todo != {}
      invariant todo <= mv.Keys
      invariant out == Accumulate(t, Without(mv, todo))
      decreases todo
    {
      var m :| m in todo;
      AccumulateStep(t, mv, todo, m);
      if mv[m].Some? {
        out := out[m := Get0(out, m) + mv[m].value];
      }
      todo := todo - {m};
    }
    assert Without(mv, {}) == mv;
  }
}

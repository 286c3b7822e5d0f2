/** chart_data_builder of excel_handler: the series the dashboard charts
    draw. Each chart is a list of months, their historical values and six
    predicted values. There is one overall chart and one chart per
    ingredient, read either from the sheet records or from the workflow-4
    demand trend and forecast table. */
module Chart {
  import opened Sheet
  import opened Months
  import opened Series
  import Extractor
  import Workflow4
  import Workflow4Tables
  import Prediction

  /** One chart: its months, their historical values and the predicted values. */
  datatype ChartSeries = ChartSeries(months: seq<string>, historical: seq<real>, predicted: seq<real>)

  /** {'overall': ..., 'ingredients': {name: ...}}, the ingredient dict as a map. */
  datatype ChartBundle = ChartBundle(overall: ChartSeries, ingredients: map<string, ChartSeries>)

  /** How many months ahead every chart predicts. */
  const Horizon: nat := 6

  /** The predicted values: six copies of the mean of the last three
      historical values, of the two, or of the single one; six zeros
      without history. */
  function SixAhead(hist: seq<real>): (p: seq<real>)
    ensures |p| == Horizon
  {
    if |hist| == 0 then Repeat(0.0, Horizon) else Repeat(WindowMean(hist), Horizon)
  }

  /** A positive history predicts a positive value. */
  lemma WindowMeanPositive(hist: seq<real>)
    requires |hist| > 0
    requires forall i :: 0 <= i < |hist| ==> hist[i] > 0.0
    ensures WindowMean(hist) > 0.0
  {
    WindowMeanBetween(hist, Prediction.Least(hist), Prediction.Greatest(hist));
    Prediction.LeastPositive(hist);
  }

  /** The six predicted values are equal, and lie within any range that
      holds the last three historical values. */
  lemma SixAheadBetween(hist: seq<real>, lo: real, hi: real)
    requires |hist| > 0
    requires forall i :: |hist| - Min(3, |hist|) <= i < |hist| ==> lo <= hist[i] <= hi
    ensures forall i :: 0 <= i < Horizon ==> SixAhead(hist)[i] == SixAhead(hist)[0] && lo <= SixAhead(hist)[i] <= hi
  {
    WindowMeanBetween(hist, lo, hi);
  }

  /** The chart of one series: its months, its values and their prediction. */
  function SeriesChart(s: Series): ChartSeries
  {
    ChartSeries(s.months, s.values, SixAhead(s.values))
  }

  // ---------------------------------------------------------------------
  // extract_real_data_from_excel

  /** The records whose set_type is 'previous' or 'current', in order. */
  function AnnualRows(rows: seq<Row>): (a: seq<Row>)
    ensures forall j :: 0 <= j < |a| ==> a[j].setType == Previous || a[j].setType == Current
  {
    if |rows| == 0 then []
    else
      var last := rows[|rows| - 1];
      AnnualRows(rows[..|rows| - 1]) + (if last.setType == Previous || last.setType == Current then [last] else [])
  }

  /** Month i's total over the annual records a, when it is positive: the
      sum of the non-zero parseable values of its column. */
  function OverallAt(a: seq<Row>, i: nat): Option<real>
  {
    if i >= 12 then None
    else
      var vs := Extractor.NonZero(a, MonthColumn(i));
      if |vs| > 0 && Sum(vs) > 0.0 then Some(Sum(vs)) else None
  }

  function OverallValue(a: seq<Row>): nat -> Option<real>
  {
    (i: nat) => OverallAt(a, i)
  }

  /** The overall chart of the annual records. */
  function OverallChart(rows: seq<Row>): ChartSeries
  {
    SeriesChart(Extractor.FiscalPairs(OverallValue(AnnualRows(rows)), 12))
  }

  /** Month i of a section series, when it holds a positive value (a
      series whose lists disagree in length holds none). */
  function PositiveAt(od: Series, i: nat): Option<real>
  {
    if |od.months| != |od.values| || i >= 12 then None
    else
      match Extractor.Lookup(od, FiscalMonths[i])
      case Some(v) => if v > 0.0 then Some(v) else None
      case None => None
  }

  function PositiveValue(od: Series): nat -> Option<real>
  {
    (i: nat) => PositiveAt(od, i)
  }

  /** The chart of one ingredient, from its section series. */
  function IngredientChart(od: Series): ChartSeries
  {
    SeriesChart(Extractor.FiscalPairs(PositiveValue(od), 12))
  }

  /** An ingredient gets a chart when it has records and its section
      series is not empty. */
  predicate Kept(entry: (string, seq<Row>))
  {
    |entry.1| > 0 && |Extractor.IngredientSeries(entry.1).months| > 0
  }

  /** A dict filled in order: each present entry sets its key, so a later
      entry with the same key replaces an earlier one. */
  function Keyed<T>(entries: seq<(string, Option<T>)>): map<string, T>
  {
    if |entries| == 0 then map[]
    else
      var before := Keyed(entries[..|entries| - 1]);
      var (k, v) := entries[|entries| - 1];
      if v.Some? then before[k := v.value] else before
  }

  /** The keys are those of the present entries. */
  lemma {:induction false} KeyedKeys<T>(entries: seq<(string, Option<T>)>, k: string)
    ensures k in Keyed(entries) <==> exists j :: 0 <= j < |entries| && entries[j].1.Some? && entries[j].0 == k
  {
    if |entries| > 0 {
      var init := entries[..|entries| - 1];
      KeyedKeys(init, k);
      if exists j :: 0 <= j < |entries| && entries[j].1.Some? && entries[j].0 == k {
        var j :| 0 <= j < |entries| && entries[j].1.Some? && entries[j].0 == k;
        if j < |init| {
          assert init[j] == entries[j];
        }
      }
      if exists j :: 0 <= j < |init| && init[j].1.Some? && init[j].0 == k {
        var j :| 0 <= j < |init| && init[j].1.Some? && init[j].0 == k;
        assert entries[j] == init[j];
      }
    }
  }

  /** A key holds the value of its last present entry. */
  lemma {:induction false} KeyedValue<T>(entries: seq<(string, Option<T>)>, j: nat)
    requires j < |entries| && entries[j].1.Some?
    requires forall q :: j < q < |entries| && entries[q].1.Some? ==> entries[q].0 != entries[j].0
    ensures entries[j].0 in Keyed(entries) && Keyed(entries)[entries[j].0] == entries[j].1.value
  {
    var init := entries[..|entries| - 1];
    if j < |init| {
      assert init[j] == entries[j];
      forall q | j < q < |init| && init[q].1.Some?
        ensures init[q].0 != init[j].0
      {
        assert init[q] == entries[q];
      }
      KeyedValue(init, j);
    }
  }

  /** Each value is that of some present entry with its key. */
  lemma {:induction false} KeyedFrom<T>(entries: seq<(string, Option<T>)>, k: string)
    requires k in Keyed(entries)
    ensures exists j :: 0 <= j < |entries| && entries[j] == (k, Some(Keyed(entries)[k]))
  {
    var init := entries[..|entries| - 1];
    var (k', v) := entries[|entries| - 1];
    if !(v.Some? && k' == k) {
      KeyedFrom(init, k);
      var j :| 0 <= j < |init| && init[j] == (k, Some(Keyed(init)[k]));
      assert entries[j] == init[j];
    }
  }

  /** What each ingredient contributes: its upper-cased name, and its
      chart when it is kept. */
  function Entry(entry: (string, seq<Row>)): (string, Option<ChartSeries>)
  {
    (Upper(entry.0), if Kept(entry) then Some(IngredientChart(Extractor.IngredientSeries(entry.1))) else None)
  }

  function Entries(list: seq<(string, seq<Row>)>): (es: seq<(string, Option<ChartSeries>)>)
    ensures |es| == |list| && forall j :: 0 <= j < |list| ==> es[j] == Entry(list[j])
  {
    seq(|list|, j requires 0 <= j < |list| => Entry(list[j]))
  }

  /** The ingredient charts, under the upper-cased names; a later
      ingredient with the same name replaces an earlier one. */
  function IngredientCharts(list: seq<(string, seq<Row>)>): map<string, ChartSeries>
  {
    Keyed(Entries(list))
  }

  /** extract_real_data_from_excel(ingredient_list, annual_data). */
  function RealData(list: seq<(string, seq<Row>)>, annual: seq<Row>): ChartBundle
  {
    ChartBundle(OverallChart(annual), IngredientCharts(list))
  }

  /** The inner loop for one month: its non-zero values over the annual
      records. */
  method AnnualMonthValues(annual: seq<Row>, col: nat) returns (vals: seq<real>)
    ensures vals == Extractor.NonZero(AnnualRows(annual), col)
  {
    vals := [];
    for j := 0 to |annual|
      invariant vals == Extractor.NonZero(AnnualRows(annual[..j]), col)
    {
      var row := annual[j];
      assert annual[..j + 1][..j] == annual[..j];
      var a := AnnualRows(annual[..j]);
      if row.setType == Previous || row.setType == Current {
        assert AnnualRows(annual[..j + 1]) == a + [row];
        assert (a + [row])[..|a|] == a;
        var v := NormalizeNumeric(Get(row, col));
        if v.Some? && v.value != 0.0 {
          vals := vals + [v.value];
        }
      } else {
        assert AnnualRows(annual[..j + 1]) == a;
      }
    }
    assert annual[..|annual|] == annual;
  }

  /** The fiscal-month loop over one section series. */
  method ChartOfSection(od: Series) returns (chart: ChartSeries)
    ensures chart == IngredientChart(od)
  {
    var months: seq<string> := [];
    var historical: seq<real> := [];
    for i := 0 to 12
      invariant Series(months, historical) == Extractor.FiscalPairs(PositiveValue(od), i)
    {
      Extractor.FiscalPairsStep(PositiveValue(od), i);
      assert PositiveValue(od)(i) == PositiveAt(od, i);
      var m := FiscalMonths[i];
      if |od.months| == |od.values| && m in od.months {
        var value := Extractor.Lookup(od, m).value;
        if value > 0.0 {
          months := months + [m];
          historical := historical + [value];
        }
      }
    }
    chart := ChartSeries(months, historical, SixAhead(historical));
  }

  /** extract_real_data_from_excel, as the code computes it. */
  method ExtractRealData(list: seq<(string, seq<Row>)>, annual: seq<Row>) returns (bundle: ChartBundle)
    ensures bundle == RealData(list, annual)
  {
    var months: seq<string> := [];
    var historical: seq<real> := [];
    var a := AnnualRows(annual);
    for i := 0 to 12
      invariant Series(months, historical) == Extractor.FiscalPairs(OverallValue(a), i)
    {
      var vals := AnnualMonthValues(annual, MonthColumn(i));
      Extractor.FiscalPairsStep(OverallValue(a), i);
      assert OverallValue(a)(i) == OverallAt(a, i);
      if |vals| > 0 {
        var total := Sum(vals);
        if total > 0.0 {
          months := months + [FiscalMonths[i]];
          historical := historical + [total];
        }
      }
    }
    var overall := ChartSeries(months, historical, SixAhead(historical));
    var ingredients: map<string, ChartSeries> := map[];
    var es := Entries(list);
    for j := 0 to |list|
      invariant ingredients == Keyed(es[..j])
    {
      assert es[..j + 1][..j] == es[..j];
      var (name, rows) := list[j];
      assert es[j] == Entry(list[j]);
      if |rows| == 0 {
        continue;
      }
      var od := Extractor.ExtractFromIngredientSection(rows);
      if |od.months| == 0 {
        continue;
      }
      var chart := ChartOfSection(od);
      ingredients := ingredients[Upper(name) := chart];
    }
    assert es[..|list|] == es;
    bundle := ChartBundle(overall, ingredients);
  }

  /** The overall history: the fiscal months, in order, whose total over
      the 'previous' and 'current' records is positive, each with that
      total, the sum of the non-zero parseable values of its column. */
  lemma OverallSpec(annual: seq<Row>)
    ensures var c := OverallChart(annual);
            |c.months| == |c.historical|
            && (forall i :: 0 <= i < 12 ==> (FiscalMonths[i] in c.months <==> OverallAt(AnnualRows(annual), i).Some?))
            && (forall j :: 0 <= j < |c.months| ==>
                  FiscalIndex(c.months[j]).Some? && c.historical[j] > 0.0
                  && c.historical[j] == Sum(Extractor.NonZero(AnnualRows(annual), MonthColumn(FiscalIndex(c.months[j]).value))))
            && (forall i, j :: 0 <= i < j < |c.months| ==> FiscalIndex(c.months[i]).value < FiscalIndex(c.months[j]).value)
  {
    var p := OverallValue(AnnualRows(annual));
    assert forall m: nat :: p(m) == OverallAt(AnnualRows(annual), m);
    Extractor.FiscalPairsSpec(p);
  }

  /** The overall prediction: six equal positive values, the 3-window mean
      of the history, or six zeros without history. */
  lemma OverallPredicted(annual: seq<Row>)
    ensures var c := OverallChart(annual);
            |c.predicted| == Horizon
            && (|c.historical| == 0 ==> forall i :: 0 <= i < Horizon ==> c.predicted[i] == 0.0)
            && (|c.historical| > 0 ==> forall i :: 0 <= i < Horizon ==> c.predicted[i] == WindowMean(c.historical) > 0.0)
  {
    var c := OverallChart(annual);
    OverallSpec(annual);
    if |c.historical| > 0 {
      WindowMeanPositive(c.historical);
    }
  }

  /** Records of another set type (header or separator rows) do not move
      the overall chart. */
  lemma OtherRowsIgnored(annual: seq<Row>, row: Row)
    requires row.setType != Previous && row.setType != Current
    ensures OverallChart(annual + [row]) == OverallChart(annual)
  {
    assert (annual + [row])[..|annual|] == annual;
    assert AnnualRows(annual + [row]) == AnnualRows(annual);
  }

  /** An ingredient's chart: the fiscal months, in order, for which its
      section series holds a positive value, with those values. */
  lemma IngredientChartSpec(od: Series)
    requires |od.months| == |od.values|
    ensures var c := IngredientChart(od);
            |c.months| == |c.historical| && |c.predicted| == Horizon
            && (forall i :: 0 <= i < 12 ==>
                  (FiscalMonths[i] in c.months <==> FiscalMonths[i] in od.months && Extractor.Lookup(od, FiscalMonths[i]).value > 0.0))
            && (forall j :: 0 <= j < |c.months| ==>
                  FiscalIndex(c.months[j]).Some? && c.historical[j] > 0.0 && Extractor.Lookup(od, c.months[j]) == Some(c.historical[j]))
            && (forall i, j :: 0 <= i < j < |c.months| ==> FiscalIndex(c.months[i]).value < FiscalIndex(c.months[j]).value)
  {
    var p := PositiveValue(od);
    assert forall m: nat :: p(m) == PositiveAt(od, m);
    Extractor.FiscalPairsSpec(p);
  }

  /** What every ingredient chart satisfies: positive values in fiscal
      order and six predicted values. */
  predicate PositiveChart(c: ChartSeries)
  {
    |c.months| == |c.historical| && |c.predicted| == Horizon
    && (forall j :: 0 <= j < |c.historical| ==> c.historical[j] > 0.0)
    && (forall j :: 0 <= j < |c.months| ==> FiscalIndex(c.months[j]).Some?)
    && (forall i, j :: 0 <= i < j < |c.months| ==> FiscalIndex(c.months[i]).value < FiscalIndex(c.months[j]).value)
  }

  /** The charts are those of the ingredients kept, by upper-cased name. */
  lemma IngredientChartKeys(list: seq<(string, seq<Row>)>, k: string)
    ensures k in IngredientCharts(list) <==> exists j :: 0 <= j < |list| && Kept(list[j]) && Upper(list[j].0) == k
  {
    var es := Entries(list);
    KeyedKeys(es, k);
    if exists j :: 0 <= j < |list| && Kept(list[j]) && Upper(list[j].0) == k {
      var j :| 0 <= j < |list| && Kept(list[j]) && Upper(list[j].0) == k;
      assert es[j].1.Some? && es[j].0 == k;
    }
  }

  /** Each chart is that of the last kept ingredient with its name. */
  lemma IngredientChartValue(list: seq<(string, seq<Row>)>, j: nat)
    requires j < |list| && Kept(list[j])
    requires forall q :: j < q < |list| && Kept(list[q]) ==> Upper(list[q].0) != Upper(list[j].0)
    ensures Upper(list[j].0) in IngredientCharts(list)
    ensures IngredientCharts(list)[Upper(list[j].0)] == IngredientChart(Extractor.IngredientSeries(list[j].1))
  {
    var es := Entries(list);
    assert es[j] == (Upper(list[j].0), Some(IngredientChart(Extractor.IngredientSeries(list[j].1))));
    forall q | j < q < |es| && es[q].1.Some?
      ensures es[q].0 != es[j].0
    {
      assert es[q] == Entry(list[q]);
    }
    KeyedValue(es, j);
  }

  /** Every ingredient chart holds positive values in fiscal order. */
  lemma IngredientChartsPositive(list: seq<(string, seq<Row>)>, k: string)
    requires k in IngredientCharts(list)
    ensures PositiveChart(IngredientCharts(list)[k])
  {
    var es := Entries(list);
    KeyedFrom(es, k);
    var j :| 0 <= j < |es| && es[j] == (k, Some(Keyed(es)[k]));
    assert es[j] == Entry(list[j]);
    var od := Extractor.IngredientSeries(list[j].1);
    Extractor.IngredientValues(list[j].1);
    IngredientChartSpec(od);
  }

  // ---------------------------------------------------------------------
  // build_chart_data_from_workflow4

  type TrendRow = Workflow4Tables.TrendRow
  type ForecastRow = Workflow4Tables.ForecastRow

  /** MONTH_NAMES.index of a trend month that is a month name; the code
      adds one, which changes no order. */
  function CalendarIndex(c: Cell): (k: Option<nat>)
    ensures k.Some? ==> k.value < 12 && c == Str(MonthNames[k.value])
    ensures k.None? ==> forall q :: 0 <= q < 12 ==> c != Str(MonthNames[q])
  {
    if c.Str? then Workflow4.IndexFrom(MonthNames, c.s, 0) else None
  }

  lemma CalendarIndexOf(i: nat)
    requires i < 12
    ensures CalendarIndex(Str(MonthNames[i])) == Some(i)
  {
    var k := CalendarIndex(Str(MonthNames[i]));
    assert k.Some?;
  }

  /** The demands of the trend rows of month m, in order. */
  function MonthDemands(trend: seq<TrendRow>, m: string): seq<real>
  {
    if |trend| == 0 then []
    else
      var last := trend[|trend| - 1];
      MonthDemands(trend[..|trend| - 1], m) + (if last.month == Str(m) then [last.demand] else [])
  }

  /** A month has summed demand exactly when some trend row is in it. */
  lemma {:induction false} MonthDemandsEmpty(trend: seq<TrendRow>, m: string)
    ensures MonthDemands(trend, m) == [] <==> forall j :: 0 <= j < |trend| ==> trend[j].month != Str(m)
  {
    if |trend| > 0 {
      var init := trend[..|trend| - 1];
      MonthDemandsEmpty(init, m);
      assert forall j :: 0 <= j < |init| ==> init[j] == trend[j];
      if trend[|trend| - 1].month == Str(m) {
        assert |MonthDemands(trend, m)| > 0;
      }
    }
  }

  /** Calendar month i's summed demand, when some trend row is in it. */
  function TrendTotalAt(trend: seq<TrendRow>, i: nat): Option<real>
  {
    if i < 12 && |MonthDemands(trend, MonthNames[i])| > 0 then Some(Sum(MonthDemands(trend, MonthNames[i]))) else None
  }

  function TrendTotal(trend: seq<TrendRow>): nat -> Option<real>
  {
    (i: nat) => TrendTotalAt(trend, i)
  }

  /** The calendar months before k to which p gives a value, in calendar
      order, with those values: the aggregated groups sorted by
      month_index. */
  function CalendarPairs(p: nat -> Option<real>, k: nat): (s: Series)
    requires k <= 12
    ensures |s.months| == |s.values|
    ensures forall j :: 0 <= j < |s.months| ==>
              CalendarIndex(Str(s.months[j])).Some? && CalendarIndex(Str(s.months[j])).value < k
              && p(CalendarIndex(Str(s.months[j])).value) == Some(s.values[j])
    ensures forall i, j :: 0 <= i < j < |s.months| ==>
              CalendarIndex(Str(s.months[i])).value < CalendarIndex(Str(s.months[j])).value
  {
    if k == 0 then Series([], [])
    else
      var s := CalendarPairs(p, k - 1);
      CalendarIndexOf(k - 1);
      match p(k - 1)
      case None => s
      case Some(v) => Series(s.months + [MonthNames[k - 1]], s.values + [v])
  }

  /** Month i before k is in CalendarPairs(p, k) exactly when p gives it a
      value. */
  lemma {:induction false} CalendarPairsMembers(p: nat -> Option<real>, k: nat)
    requires k <= 12
    ensures forall i :: 0 <= i < k ==> (MonthNames[i] in CalendarPairs(p, k).months <==> p(i).Some?)
  {
    if k > 0 {
      var s := CalendarPairs(p, k - 1);
      CalendarPairsMembers(p, k - 1);
      CalendarIndexOf(k - 1);
      forall i | 0 <= i < k ensures MonthNames[i] in CalendarPairs(p, k).months <==> p(i).Some? {
        if i == k - 1 {
          assert MonthNames[k - 1] !in s.months;
        } else {
          CalendarIndexOf(i);
          assert MonthNames[i] != MonthNames[k - 1];
        }
      }
    }
  }

  /** The overall chart of a workflow-4 run: the months of the trend rows,
      in calendar order, with their summed demand, and six predicted
      values; all three lists are empty for an empty trend. */
  function TrendOverall(trend: seq<TrendRow>): ChartSeries
  {
    if |trend| == 0 then ChartSeries([], [], []) else SeriesChart(CalendarPairs(TrendTotal(trend), 12))
  }

  /** The ingredient names the products are matched against, in order. */
  const IngredientNames: seq<string> := ["MCT360", "MCT165", "MCTSTICK10", "MCTSTICK30", "MCTSTICK16", "MCTITTO_C"]

  /** The first ingredient name at or after q that the product text
      contains. */
  function MatchFrom(product: string, q: nat): (r: Option<nat>)
    decreases |IngredientNames| - q
    ensures r.Some? ==> q <= r.value < |IngredientNames| && Contains(product, IngredientNames[r.value])
                        && forall q' :: q <= q' < r.value ==> !Contains(product, IngredientNames[q'])
    ensures r.None? ==> forall q' :: q <= q' < |IngredientNames| ==> !Contains(product, IngredientNames[q'])
  {
    if q >= |IngredientNames| then None
    else if Contains(product, IngredientNames[q]) then Some(q)
    else MatchFrom(product, q + 1)
  }

  /** The ingredient a product charts under: the first listed name that
      is a substring of the upper-cased product. */
  function MatchingIngredient(product: string): Option<string>
  {
    match MatchFrom(Upper(product), 0)
    case Some(q) => Some(IngredientNames[q])
    case None => None
  }

  /** The matching rule: a product has an ingredient exactly when some
      listed name is in its upper-cased text, and it is the first such. */
  lemma MatchingSpec(product: string)
    ensures MatchingIngredient(product).Some? <==>
              exists q :: 0 <= q < |IngredientNames| && Contains(Upper(product), IngredientNames[q])
    ensures MatchingIngredient(product).Some? ==>
              exists q :: 0 <= q < |IngredientNames| && IngredientNames[q] == MatchingIngredient(product).value
                && Contains(Upper(product), IngredientNames[q])
                && forall q' :: 0 <= q' < q ==> !Contains(Upper(product), IngredientNames[q'])
  {
    var r := MatchFrom(Upper(product), 0);
    if r.Some? {
      assert IngredientNames[r.value] == MatchingIngredient(product).value;
    }
  }

  /** The loop over the ingredient names that stops at the first one occurring in the product text. */
  method FindIngredient(product: string) returns (matching: Option<string>)
    ensures matching == MatchingIngredient(product)
  {
    var upper := Upper(product);
    var q := 0;
    while q < |IngredientNames|
      invariant 0 <= q <= |IngredientNames|
      invariant MatchFrom(upper, 0) == MatchFrom(upper, q)
    {
      if Contains(upper, IngredientNames[q]) {
        return Some(IngredientNames[q]);
      }
      q := q + 1;
    }
    matching := None;
  }

  /** The keys of monthly_trend.groupby('product'): each product once, in
      Python's str order. */
  function Products(trend: seq<TrendRow>): seq<string>
  {
    if |trend| == 0 then [] else Workflow4Tables.InsertKey(Products(trend[..|trend| - 1]), trend[|trend| - 1].product)
  }

  lemma {:induction false} ProductsSorted(trend: seq<TrendRow>)
    ensures Workflow4Tables.StrictlySorted(Products(trend))
  {
    if |trend| > 0 {
      ProductsSorted(trend[..|trend| - 1]);
      Workflow4Tables.InsertKeySorted(Products(trend[..|trend| - 1]), trend[|trend| - 1].product);
    }
  }

  /** The groups are the products of the trend rows. */
  lemma {:induction false} ProductsMember(trend: seq<TrendRow>, p: string)
    ensures p in Products(trend) <==> exists i :: 0 <= i < |trend| && trend[i].product == p
  {
    if |trend| > 0 {
      var init := trend[..|trend| - 1];
      ProductsMember(init, p);
      if p in Products(init) {
        var i :| 0 <= i < |init| && init[i].product == p;
        assert trend[i].product == p;
      }
      if exists i :: 0 <= i < |trend| && trend[i].product == p {
        var i :| 0 <= i < |trend| && trend[i].product == p;
        if i < |init| {
          assert init[i].product == p;
        }
      }
    }
  }

  /** The rows of one product group, in trend order. */
  function TrendGroup(trend: seq<TrendRow>, p: string): (g: seq<TrendRow>)
    ensures forall i :: 0 <= i < |g| ==> g[i].product == p
  {
    if |trend| == 0 then []
    else TrendGroup(trend[..|trend| - 1], p) + (if trend[|trend| - 1].product == p then [trend[|trend| - 1]] else [])
  }

  lemma {:induction false} TrendGroupMembers(trend: seq<TrendRow>, p: string, x: TrendRow)
    ensures x in TrendGroup(trend, p) <==> x in trend && x.product == p
  {
    if |trend| > 0 {
      var init := trend[..|trend| - 1];
      TrendGroupMembers(init, p, x);
      assert trend == init + [trend[|trend| - 1]];
    }
  }

  /** A group's rows whose month is a month name, as (month, demand)
      keyed by the month's calendar index, in group order. */
  function Dated(g: seq<TrendRow>): (d: seq<(nat, (string, real))>)
    ensures forall j :: 0 <= j < |d| ==> d[j].0 < 12 && d[j].1.0 == MonthNames[d[j].0]
  {
    if |g| == 0 then []
    else
      var last := g[|g| - 1];
      Dated(g[..|g| - 1])
      + (match CalendarIndex(last.month)
         case Some(k) => [(k, (MonthNames[k], last.demand))]
         case None => [])
  }

  lemma {:induction false} DatedMembers(g: seq<TrendRow>, k: nat, m: string, v: real)
    ensures (k, (m, v)) in Dated(g) <==>
              k < 12 && m == MonthNames[k] && exists j :: 0 <= j < |g| && g[j].month == Str(m) && g[j].demand == v
  {
    if |g| > 0 {
      var init := g[..|g| - 1];
      var last := g[|g| - 1];
      DatedMembers(init, k, m, v);
      if k < 12 && m == MonthNames[k] && exists j :: 0 <= j < |g| && g[j].month == Str(m) && g[j].demand == v {
        var j :| 0 <= j < |g| && g[j].month == Str(m) && g[j].demand == v;
        if j < |init| {
          assert init[j] == g[j];
        } else {
          CalendarIndexOf(k);
        }
      }
      if (k, (m, v)) in Dated(init) {
        var j :| 0 <= j < |init| && init[j].month == Str(m) && init[j].demand == v;
        assert g[j] == init[j];
      }
    }
  }

  /** An ingredient's history, corrected: its dated rows sorted by
      calendar month, ties in group order. */
  function ChronologicalHistory(g: seq<TrendRow>): seq<(nat, (string, real))>
  {
    Workflow4Tables.SortByKey(Dated(g))
  }

  function HistMonths(h: seq<(nat, (string, real))>): (ms: seq<string>)
    ensures |ms| == |h| && forall j :: 0 <= j < |h| ==> ms[j] == h[j].1.0
  {
    seq(|h|, j requires 0 <= j < |h| => h[j].1.0)
  }

  function HistDemands(h: seq<(nat, (string, real))>): (ds: seq<real>)
    ensures |ds| == |h| && forall j :: 0 <= j < |h| ==> ds[j] == h[j].1.1
  {
    seq(|h|, j requires 0 <= j < |h| => h[j].1.1)
  }

  /** The first forecast-table row at or after q for the product. */
  function FirstRow(table: seq<ForecastRow>, p: string, q: nat): (r: Option<nat>)
    decreases |table| - q
    ensures r.Some? ==> q <= r.value < |table| && table[r.value].product == p
                        && forall q' :: q <= q' < r.value ==> table[q'].product != p
    ensures r.None? ==> forall q' :: q <= q' < |table| ==> table[q'].product != p
  {
    if q >= |table| then None else if table[q].product == p then Some(q) else FirstRow(table, p, q + 1)
  }

  /** The predicted values of a product: six copies of its Forecast Demand
      when the table has a row for it, else the 3-window rule on its
      history. */
  function ProductPredicted(table: seq<ForecastRow>, p: string, hist: seq<real>): (pr: seq<real>)
    ensures |pr| == Horizon
  {
    match FirstRow(table, p, 0)
    case Some(q) => Repeat(table[q].forecast, Horizon)
    case None => SixAhead(hist)
  }

  /** The chart of one product, its history in calendar order. */
  function ProductChart(trend: seq<TrendRow>, table: seq<ForecastRow>, p: string): ChartSeries
  {
    var h := ChronologicalHistory(TrendGroup(trend, p));
    ChartSeries(HistMonths(h), HistDemands(h), ProductPredicted(table, p, HistDemands(h)))
  }

  /** What each product contributes: its ingredient, and its chart when it
      has one. */
  function ProductEntry(trend: seq<TrendRow>, table: seq<ForecastRow>, p: string): (string, Option<ChartSeries>)
  {
    match MatchingIngredient(p)
    case Some(ing) => (ing, Some(ProductChart(trend, table, p)))
    case None => ("", None)
  }

  function ProductEntries(trend: seq<TrendRow>, table: seq<ForecastRow>, ps: seq<string>): (es: seq<(string, Option<ChartSeries>)>)
    ensures |es| == |ps| && forall j :: 0 <= j < |ps| ==> es[j] == ProductEntry(trend, table, ps[j])
  {
    seq(|ps|, j requires 0 <= j < |ps| => ProductEntry(trend, table, ps[j]))
  }

  /** The ingredient charts of a workflow-4 run, product groups in key
      order; a later product with the same ingredient replaces an earlier
      one. */
  function TrendCharts(trend: seq<TrendRow>, table: seq<ForecastRow>): map<string, ChartSeries>
  {
    Keyed(ProductEntries(trend, table, Products(trend)))
  }

  /** build_chart_data_from_workflow4(result, ingredient_list, annual_data),
      with the trend rows and forecast table of result. */
  function Workflow4Chart(trend: seq<TrendRow>, table: seq<ForecastRow>, list: seq<(string, seq<Row>)>,
                          annual: seq<Row>): ChartBundle
  {
    var overall := TrendOverall(trend);
    if |overall.months| == 0 && |annual| > 0 then RealData(list, annual)
    else ChartBundle(overall, TrendCharts(trend, table))
  }

  /** The loop over the sorted rows of one product group. */
  method HistoryLists(h: seq<(nat, (string, real))>) returns (months: seq<string>, hist: seq<real>)
    ensures months == HistMonths(h) && hist == HistDemands(h)
  {
    months := [];
    hist := [];
    for j := 0 to |h|
      invariant |months| == |hist| == j
      invariant forall q :: 0 <= q < j ==> months[q] == h[q].1.0 && hist[q] == h[q].1.1
    {
      months := months + [h[j].1.0];
      hist := hist + [h[j].1.1];
    }
  }

  /** The product's forecast value: its Forecast Demand when the table has
      a row for it, else the 3-window rule on its history. */
  method ProductForecast(table: seq<ForecastRow>, p: string, hist: seq<real>) returns (forecast: real)
    ensures Repeat(forecast, Horizon) == ProductPredicted(table, p, hist)
  {
    var row := FirstRow(table, p, 0);
    if row.Some? {
      forecast := table[row.value].forecast;
    } else if |hist| >= 3 {
      forecast := Mean(hist[|hist| - 3..]);
    } else if |hist| >= 2 {
      forecast := Mean(hist);
    } else if |hist| >= 1 {
      forecast := hist[|hist| - 1];
    } else {
      forecast := 0.0;
    }
  }

  /** One product group's chart, its history in calendar order. */
  method ChartOfProduct(trend: seq<TrendRow>, table: seq<ForecastRow>, p: string) returns (chart: ChartSeries)
    ensures chart == ProductChart(trend, table, p)
  {
    var h := ChronologicalHistory(TrendGroup(trend, p));
    var months, hist := HistoryLists(h);
    var forecast := ProductForecast(table, p, hist);
    chart := ChartSeries(months, hist, Repeat(forecast, Horizon));
  }

  /** The overall part: the aggregated months in calendar order. */
  method OverallFromTrend(trend: seq<TrendRow>) returns (overall: ChartSeries)
    ensures overall == TrendOverall(trend)
  {
    if |trend| == 0 {
      return ChartSeries([], [], []);
    }
    var months: seq<string> := [];
    var historical: seq<real> := [];
    for i := 0 to 12
      invariant Series(months, historical) == CalendarPairs(TrendTotal(trend), i)
    {
      assert TrendTotal(trend)(i) == TrendTotalAt(trend, i);
      var ds := MonthDemands(trend, MonthNames[i]);
      if |ds| > 0 {
        months := months + [MonthNames[i]];
        historical := historical + [Sum(ds)];
      }
    }
    overall := ChartSeries(months, historical, SixAhead(historical));
  }

  /** The ingredient part: the product groups in key order. */
  method IngredientsFromTrend(trend: seq<TrendRow>, table: seq<ForecastRow>) returns (ingredients: map<string, ChartSeries>)
    ensures ingredients == TrendCharts(trend, table)
  {
    ingredients := map[];
    var ps := Products(trend);
    var es := ProductEntries(trend, table, ps);
    for j := 0 to |ps|
      invariant ingredients == Keyed(es[..j])
    {
      assert es[..j + 1][..j] == es[..j];
      assert es[j] == ProductEntry(trend, table, ps[j]);
      var matching := FindIngredient(ps[j]);
      if matching.Some? {
        var chart := ChartOfProduct(trend, table, ps[j]);
        ingredients := ingredients[matching.value := chart];
      }
    }
    assert es[..|ps|] == es;
  }

  /** build_chart_data_from_workflow4, except that each product's history
      is in calendar order (ProductChart); the code's own order is
      WrittenHistory, alphabetical by month name. */
  method BuildChartDataFromWorkflow4(trend: seq<TrendRow>, table: seq<ForecastRow>, list: seq<(string, seq<Row>)>,
                                     annual: seq<Row>) returns (bundle: ChartBundle)
    ensures bundle == Workflow4Chart(trend, table, list, annual)
  {
    var overall := OverallFromTrend(trend);
    var ingredients := IngredientsFromTrend(trend, table);
    if |overall.months| == 0 && |annual| > 0 {
      bundle := ExtractRealData(list, annual);
      return;
    }
    bundle := ChartBundle(overall, ingredients);
  }

  /** The overall chart of a workflow-4 run: each calendar month with a
      trend row, in calendar order, with the summed demand of its rows;
      nothing at all for an empty trend. */
  lemma TrendOverallSpec(trend: seq<TrendRow>)
    ensures var c := TrendOverall(trend);
            (|trend| == 0 ==> c.months == [] && c.historical == [] && c.predicted == [])
            && (|trend| > 0 ==>
                  |c.months| == |c.historical| && |c.predicted| == Horizon
                  && (forall i :: 0 <= i < 12 ==>
                        (MonthNames[i] in c.months <==> exists j :: 0 <= j < |trend| && trend[j].month == Str(MonthNames[i])))
                  && (forall j :: 0 <= j < |c.months| ==>
                        CalendarIndex(Str(c.months[j])).Some? && c.historical[j] == Sum(MonthDemands(trend, c.months[j])))
                  && (forall i, j :: 0 <= i < j < |c.months| ==>
                        CalendarIndex(Str(c.months[i])).value < CalendarIndex(Str(c.months[j])).value))
  {
    if |trend| > 0 {
      var p := TrendTotal(trend);
      assert forall m: nat :: p(m) == TrendTotalAt(trend, m);
      CalendarPairsMembers(p, 12);
      var c := TrendOverall(trend);
      forall j | 0 <= j < |c.months|
        ensures c.historical[j] == Sum(MonthDemands(trend, c.months[j]))
      {
        var k := CalendarIndex(Str(c.months[j])).value;
        assert c.months[j] == MonthNames[k];
      }
      forall i | 0 <= i < 12
        ensures MonthNames[i] in c.months <==> exists j :: 0 <= j < |trend| && trend[j].month == Str(MonthNames[i])
      {
        MonthDemandsEmpty(trend, MonthNames[i]);
      }
    }
  }

  /** A trend row with a month name puts that month in the overall chart. */
  lemma RowMonthListed(trend: seq<TrendRow>, j: nat)
    requires j < |trend|
    ensures CalendarIndex(trend[j].month).Some? ==> MonthNames[CalendarIndex(trend[j].month).value] in TrendOverall(trend).months
  {
    TrendOverallSpec(trend);
  }

  /** The overall chart has no month exactly when no trend row carries a
      month name. */
  lemma TrendOverallEmpty(trend: seq<TrendRow>)
    ensures |TrendOverall(trend).months| == 0 <==> forall j :: 0 <= j < |trend| ==> CalendarIndex(trend[j].month).None?
  {
    var c := TrendOverall(trend);
    forall j | 0 <= j < |trend|
      ensures CalendarIndex(trend[j].month).Some? ==> MonthNames[CalendarIndex(trend[j].month).value] in c.months
    {
      RowMonthListed(trend, j);
    }
    if |c.months| > 0 {
      TrendOverallSpec(trend);
      var k := CalendarIndex(Str(c.months[0])).value;
      assert MonthNames[k] in c.months;
      var j :| 0 <= j < |trend| && trend[j].month == Str(MonthNames[k]);
      CalendarIndexOf(k);
    }
  }

  /** The fallback rule: the sheet records are read instead exactly when
      no trend row carries a month name and there are annual records. */
  lemma FallbackSpec(trend: seq<TrendRow>, table: seq<ForecastRow>, list: seq<(string, seq<Row>)>, annual: seq<Row>)
    ensures Workflow4Chart(trend, table, list, annual) ==
            if (forall j :: 0 <= j < |trend| ==> CalendarIndex(trend[j].month).None?) && |annual| > 0
            then RealData(list, annual)
            else ChartBundle(TrendOverall(trend), TrendCharts(trend, table))
  {
    TrendOverallEmpty(trend);
  }

  /** The ingredient charts of a workflow-4 run are those of the
      ingredients some trend product matches. */
  lemma TrendChartKeys(trend: seq<TrendRow>, table: seq<ForecastRow>, ing: string)
    ensures ing in TrendCharts(trend, table) <==>
              exists i :: 0 <= i < |trend| && MatchingIngredient(trend[i].product) == Some(ing)
  {
    var ps := Products(trend);
    var es := ProductEntries(trend, table, ps);
    KeyedKeys(es, ing);
    if exists i :: 0 <= i < |trend| && MatchingIngredient(trend[i].product) == Some(ing) {
      var i :| 0 <= i < |trend| && MatchingIngredient(trend[i].product) == Some(ing);
      var p := trend[i].product;
      ProductsMember(trend, p);
      assert p in ps;
      var j :| 0 <= j < |ps| && ps[j] == p;
      assert es[j] == ProductEntry(trend, table, p);
    }
    if exists j :: 0 <= j < |es| && es[j].1.Some? && es[j].0 == ing {
      var j :| 0 <= j < |es| && es[j].1.Some? && es[j].0 == ing;
      var p := ps[j];
      assert es[j] == ProductEntry(trend, table, p);
      ProductsMember(trend, p);
      assert p in ps;
    }
  }

  /** An ingredient's chart is that of the last product, in key order,
      that matches it. */
  lemma TrendChartValue(trend: seq<TrendRow>, table: seq<ForecastRow>, j: nat, ing: string)
    requires j < |Products(trend)| && MatchingIngredient(Products(trend)[j]) == Some(ing)
    requires forall q :: j < q < |Products(trend)| ==> MatchingIngredient(Products(trend)[q]) != Some(ing)
    ensures ing in TrendCharts(trend, table)
    ensures TrendCharts(trend, table)[ing] == ProductChart(trend, table, Products(trend)[j])
  {
    var ps := Products(trend);
    var es := ProductEntries(trend, table, ps);
    assert es[j] == (ing, Some(ProductChart(trend, table, ps[j])));
    forall q | j < q < |es| && es[q].1.Some?
      ensures es[q].0 != es[j].0
    {
      assert es[q] == ProductEntry(trend, table, ps[q]);
    }
    KeyedValue(es, j);
  }

  /** A product's predicted values: six copies of the Forecast Demand of
      its first forecast-table row, or the 3-window rule on its history
      when the table has no row for it. */
  lemma ProductPredictedSpec(trend: seq<TrendRow>, table: seq<ForecastRow>, p: string, q: nat)
    requires q < |table| && table[q].product == p
    requires forall q' :: 0 <= q' < q ==> table[q'].product != p
    ensures forall i :: 0 <= i < Horizon ==> ProductChart(trend, table, p).predicted[i] == table[q].forecast
  {
    var r := FirstRow(table, p, 0);
    assert r == Some(q);
  }

  lemma NoForecastRow(trend: seq<TrendRow>, table: seq<ForecastRow>, p: string)
    requires forall q :: 0 <= q < |table| ==> table[q].product != p
    ensures ProductChart(trend, table, p).predicted == SixAhead(ProductChart(trend, table, p).historical)
  {
    assert FirstRow(table, p, 0).None?;
  }

  /** A product's history, in calendar order. */
  lemma ProductChartOrdered(trend: seq<TrendRow>, table: seq<ForecastRow>, p: string)
    ensures var c := ProductChart(trend, table, p);
            |c.months| == |c.historical|
            && (forall j :: 0 <= j < |c.months| ==> CalendarIndex(Str(c.months[j])).Some?)
            && (forall i, j :: 0 <= i < j < |c.months| ==>
                  CalendarIndex(Str(c.months[i])).value <= CalendarIndex(Str(c.months[j])).value)
  {
    var d := Dated(TrendGroup(trend, p));
    var h := ChronologicalHistory(TrendGroup(trend, p));
    Workflow4Tables.SortByKeySorted(d);
    forall j | 0 <= j < |h|
      ensures h[j].0 < 12 && h[j].1.0 == MonthNames[h[j].0]
    {
      assert h[j] in multiset(d);
    }
    forall j | 0 <= j < |h|
      ensures CalendarIndex(Str(h[j].1.0)) == Some(h[j].0)
    {
      CalendarIndexOf(h[j].0);
    }
  }

  /** A product's history holds a month and a demand exactly when one of
      its trend rows has that month name and that demand. */
  lemma ProductChartMember(trend: seq<TrendRow>, table: seq<ForecastRow>, p: string, m: string, v: real)
    ensures var c := ProductChart(trend, table, p);
            (exists j :: 0 <= j < |c.months| && c.months[j] == m && c.historical[j] == v) <==>
            m in MonthNames && exists r :: 0 <= r < |trend| && trend[r].product == p && trend[r].month == Str(m) && trend[r].demand == v
  {
    var g := TrendGroup(trend, p);
    var d := Dated(g);
    var h := ChronologicalHistory(g);
    var c := ProductChart(trend, table, p);
    if exists j :: 0 <= j < |c.months| && c.months[j] == m && c.historical[j] == v {
      var j :| 0 <= j < |c.months| && c.months[j] == m && c.historical[j] == v;
      var k := h[j].0;
      assert h[j] == (k, (m, v));
      Workflow4Tables.SortByKeyMember(d, (k, (m, v)));
      DatedMembers(g, k, m, v);
      var jj :| 0 <= jj < |g| && g[jj].month == Str(m) && g[jj].demand == v;
      TrendGroupMembers(trend, p, g[jj]);
      var r :| 0 <= r < |trend| && trend[r] == g[jj];
    }
    if m in MonthNames && exists r :: 0 <= r < |trend| && trend[r].product == p && trend[r].month == Str(m) && trend[r].demand == v {
      var r :| 0 <= r < |trend| && trend[r].product == p && trend[r].month == Str(m) && trend[r].demand == v;
      TrendGroupMembers(trend, p, trend[r]);
      var jj :| 0 <= jj < |g| && g[jj] == trend[r];
      var k :| 0 <= k < 12 && MonthNames[k] == m;
      DatedMembers(g, k, m, v);
      Workflow4Tables.SortByKeyMember(d, (k, (m, v)));
      var j :| 0 <= j < |h| && h[j] == (k, (m, v));
      assert c.months[j] == m && c.historical[j] == v;
    }
  }

  // ---------------------------------------------------------------------
  // The order of an ingredient's months as written: the trend rows sorted
  // by their month-name text

  /** The month names in Python's str order. */
  const Alphabetical: seq<string> := ["April", "August", "December", "February", "January", "July",
                                      "June", "March", "May", "November", "October", "September"]

  /** Each calendar month's position in that order. */
  const AlphaRank: seq<nat> := [4, 3, 7, 0, 8, 6, 5, 1, 11, 10, 9, 2]

  lemma {:induction false} ChainSorted(xs: seq<string>)
    requires forall k :: 0 <= k < |xs| - 1 ==> Workflow4Tables.StrLess(xs[k], xs[k + 1])
    ensures Workflow4Tables.StrictlySorted(xs)
  {
    if |xs| > 1 {
      var init := xs[..|xs| - 1];
      ChainSorted(init);
      forall i, j | 0 <= i < j < |xs|
        ensures Workflow4Tables.StrLess(xs[i], xs[j])
      {
        if j < |xs| - 1 {
          assert Workflow4Tables.StrLess(init[i], init[j]);
        } else if i < j - 1 {
          assert Workflow4Tables.StrLess(init[i], init[j - 1]);
          Workflow4Tables.StrLessTransitive(xs[i], xs[j - 1], xs[j]);
        }
      }
    }
  }

  lemma AlphabeticalSorted()
    ensures Workflow4Tables.StrictlySorted(Alphabetical)
  {
    assert Workflow4Tables.StrLess("April", "August");
    assert Workflow4Tables.StrLess("August", "December");
    assert Workflow4Tables.StrLess("December", "February");
    assert Workflow4Tables.StrLess("February", "January");
    assert Workflow4Tables.StrLess("anuary", "uly");
    assert Workflow4Tables.StrLess("ly", "ne");
    assert Workflow4Tables.StrLess("June", "March");
    assert Workflow4Tables.StrLess("rch", "y");
    assert Workflow4Tables.StrLess("May", "November");
    assert Workflow4Tables.StrLess("November", "October");
    assert Workflow4Tables.StrLess("October", "September");
    ChainSorted(Alphabetical);
  }

  /** Ordering by AlphaRank is ordering the month names as Python str
      values. */
  lemma AlphaRankOrder(i: nat, j: nat)
    requires i < 12 && j < 12
    ensures AlphaRank[i] < AlphaRank[j] <==> Workflow4Tables.StrLess(MonthNames[i], MonthNames[j])
  {
    AlphabeticalSorted();
    assert forall k :: 0 <= k < 12 ==> Alphabetical[AlphaRank[k]] == MonthNames[k];
    if Workflow4Tables.StrLess(MonthNames[i], MonthNames[j]) && AlphaRank[i] >= AlphaRank[j] {
      if AlphaRank[i] == AlphaRank[j] {
        Workflow4Tables.StrLessIrreflexive(MonthNames[i]);
      } else {
        Workflow4Tables.StrLessTransitive(MonthNames[i], MonthNames[j], MonthNames[i]);
        Workflow4Tables.StrLessIrreflexive(MonthNames[i]);
      }
    }
  }

  function Rekey(d: seq<(nat, (string, real))>): (r: seq<(nat, (string, real))>)
    requires forall j :: 0 <= j < |d| ==> d[j].0 < 12
    ensures |r| == |d| && forall j :: 0 <= j < |d| ==> r[j] == (AlphaRank[d[j].0], d[j].1)
  {
    seq(|d|, j requires 0 <= j < |d| => (AlphaRank[d[j].0], d[j].1))
  }

  /** An ingredient's history as the code orders it: the group sorted by
      its month text, so alphabetically (the rows without a month name,
      dropped after the sort, do not change the order of the others). */
  function WrittenHistory(g: seq<TrendRow>): seq<(nat, (string, real))>
  {
    Workflow4Tables.SortByKey(Rekey(Dated(g)))
  }

  /** The months of the written history are in Python's str order. */
  lemma WrittenHistorySorted(g: seq<TrendRow>)
    ensures var h := WrittenHistory(g);
            forall i, j :: 0 <= i < j < |h| ==> !Workflow4Tables.StrLess(h[j].1.0, h[i].1.0)
  {
    var d := Dated(g);
    var r := Rekey(d);
    var h := WrittenHistory(g);
    Workflow4Tables.SortByKeySorted(r);
    forall j | 0 <= j < |h|
      ensures exists k :: 0 <= k < 12 && h[j].0 == AlphaRank[k] && h[j].1.0 == MonthNames[k]
    {
      assert h[j] in multiset(r);
      var q :| 0 <= q < |r| && r[q] == h[j];
      assert h[j].0 == AlphaRank[d[q].0] && h[j].1.0 == MonthNames[d[q].0];
    }
    forall i, j | 0 <= i < j < |h|
      ensures !Workflow4Tables.StrLess(h[j].1.0, h[i].1.0)
    {
      var ki :| 0 <= ki < 12 && h[i].0 == AlphaRank[ki] && h[i].1.0 == MonthNames[ki];
      var kj :| 0 <= kj < 12 && h[j].0 == AlphaRank[kj] && h[j].1.0 == MonthNames[kj];
      AlphaRankOrder(kj, ki);
    }
  }

  /** One product's trend rows for January and February. */
  function JanuaryFebruary(p: string, jan: real, feb: real): seq<TrendRow>
  {
    [Workflow4Tables.TrendRow(Str("January"), jan, p), Workflow4Tables.TrendRow(Str("February"), feb, p)]
  }

  lemma JanuaryFebruaryDated(p: string, jan: real, feb: real)
    ensures Dated(JanuaryFebruary(p, jan, feb)) == [(0, ("January", jan)), (1, ("February", feb))]
  {
    var g := JanuaryFebruary(p, jan, feb);
    CalendarIndexOf(0);
    CalendarIndexOf(1);
    assert g[..1] == [g[0]];
    assert Dated([g[0]]) == [(0, ("January", jan))];
  }

  lemma JanuaryFebruaryWritten(p: string, jan: real, feb: real)
    ensures WrittenHistory(JanuaryFebruary(p, jan, feb)) == [(3, ("February", feb)), (4, ("January", jan))]
  {
    JanuaryFebruaryDated(p, jan, feb);
    var r := Rekey(Dated(JanuaryFebruary(p, jan, feb)));
    assert r == [(4, ("January", jan)), (3, ("February", feb))];
    assert r[..1] == [r[0]];
  }

  lemma JanuaryFebruaryChronological(p: string, jan: real, feb: real)
    ensures ChronologicalHistory(JanuaryFebruary(p, jan, feb)) == [(0, ("January", jan)), (1, ("February", feb))]
  {
    JanuaryFebruaryDated(p, jan, feb);
    var d := Dated(JanuaryFebruary(p, jan, feb));
    var first := d[..1];
    assert first == [d[0]];
    assert first[..0] == [];
    assert Workflow4Tables.SortByKey(first) == Workflow4Tables.InsertByKey([], d[0]) == [d[0]];
    assert d[0].0 <= d[1].0;
    assert Workflow4Tables.InsertByKey([d[0]], d[1]) == [d[0]] + [d[1]] == d;
    assert Workflow4Tables.SortByKey(d) == Workflow4Tables.InsertByKey(Workflow4Tables.SortByKey(first), d[1]);
  }

  /** A product's January and February rows come out February first as
      written, and January first in the corrected order. */
  lemma WrittenOrderIsAlphabetical(p: string, jan: real, feb: real)
    ensures var w := HistMonths(WrittenHistory(JanuaryFebruary(p, jan, feb)));
            |w| == 2 && w[0] == "February" && w[1] == "January"
    ensures var c := HistMonths(ChronologicalHistory(JanuaryFebruary(p, jan, feb)));
            |c| == 2 && c[0] == "January" && c[1] == "February"
  {
    JanuaryFebruaryWritten(p, jan, feb);
    JanuaryFebruaryChronological(p, jan, feb);
  }
}

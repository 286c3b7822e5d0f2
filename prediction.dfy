/** prediction_utils: per-month value lists from the annual and ingredient
    row records, the monthly totals, the next-months predictor, the
    forecast record and the Chart.js structure built from it. A Python dict
    whose order the code relies on is an association list in insertion
    order; its keys are distinct. */
module Prediction {
  import opened Sheet
  import opened Months
  import Series

  // ---------------------------------------------------------------------
  // One month cell of a row record

  /** The value a month cell contributes: '$' and ',' removed and the text
      stripped; an empty value gives 0.0, otherwise float() of it, and 0.0
      when float() fails. A missing column reads as empty. A blank cell
      counts as 0.0; text float() reads from the cleaned text gives what it
      reads, and a non-zero amount from text always comes from that read. */
  function CellAmount(c: Cell): (a: real)
    ensures c.Blank? ==> a == 0.0
    ensures c.Num? ==> a == c.r
    ensures c.Str? ==> forall v :: ParseFloat(Strip(Remove(Remove(c.s, '$'), ','))) == Some(v) ==> a == v
    ensures c.Str? && a != 0.0 ==> ParseFloat(Strip(Remove(Remove(c.s, '$'), ','))) == Some(a)
  {
    match c
    case Blank => 0.0
    case Num(x) => x
    case Str(s) =>
      var t := Strip(Remove(Remove(s, '$'), ','));
      if |t| == 0 then 0.0
      else match ParseFloat(t) case Some(v) => v case None => 0.0
  }

  /** A lone '-' counts as 0.0 here, where the extractors'
      normalize_numeric_value gives no number at all (NormalizeEmptyAndDash). */
  lemma DashIsZero()
    ensures CellAmount(Str("-")) == 0.0
  {
    DashUndecorated();
    DashUnparsed();
  }

  /** Stripping the symbols from '-' leaves '-'. */
  lemma DashUndecorated()
    ensures Strip(Remove(Remove("-", '$'), ',')) == "-"
  {
    var s := "-";
    assert Remove(s, '$') == s;
    assert Remove(s, ',') == s;
    StripId(s);
  }

  /** A lone sign is not a number. */
  lemma DashUnparsed()
    ensures ParseFloat("-") == None
  {
    assert Strip("-") == "-" by { StripId("-"); }
    SignAlone("-");
  }

  /** A stripped one-character sign has no digits after it. */
  lemma SignAlone(t: string)
    requires |t| == 1 && t[0] == '-' && Strip(t) == t
    ensures ParseFloat(t) == None
  {
    EmptyUnparsed(t[1..]);
  }

  /** The empty text is not a number. */
  lemma EmptyUnparsed(u: string)
    requires |u| == 0
    ensures ParseUnsigned(u) == None
  {
    assert DigitRun(u) == 0;
  }

  /** Removing '$' and ',' from '$' + t leaves t when t has neither. */
  lemma Undecorate(t: string)
    requires forall i :: 0 <= i < |t| ==> t[i] != '$' && t[i] != ','
    ensures Remove(Remove("$" + t, '$'), ',') == t
  {
    RemoveAppend("$", t, '$');
    assert Remove("$", '$') == [];
  }

  /** A currency sign is ignored: '$' + digits reads as the digits. */
  lemma DollarIntText(n: nat)
    ensures CellAmount(Str("$" + IntText(n))) == n as real
  {
    var t := IntText(n);
    IntTextUndecorated(t, n);
    Undecorate(t);
    IntTextStripped(t, n);
    ParseIntText(n);
    assert |t| > 0;
  }

  // ---------------------------------------------------------------------
  // extract_monthly_data_from_annual / _from_ingredients

  /** The row kinds the annual extraction reads ('previous' and 'current')
      and the one the ingredient extraction reads ('current'). */
  const AnnualKinds: set<SetType> := {Previous, Current}
  const IngredientKinds: set<SetType> := {Current}

  /** The rows whose set_type is one of the kinds, in order. */
  function Contributing(rows: seq<Row>, kinds: set<SetType>): (c: seq<Row>)
    ensures forall j :: 0 <= j < |c| ==> c[j].setType in kinds
  {
    if |rows| == 0 then []
    else Contributing(rows[..|rows| - 1], kinds) + (if rows[|rows| - 1].setType in kinds then [rows[|rows| - 1]] else [])
  }

  /** The list of one fiscal month: one value per contributing row. */
  function MonthValues(rows: seq<Row>, kinds: set<SetType>, i: nat): seq<real>
    requires i < 12
  {
    if |rows| == 0 then []
    else
      MonthValues(rows[..|rows| - 1], kinds, i)
      + (if rows[|rows| - 1].setType in kinds then [CellAmount(Get(rows[|rows| - 1], MonthColumn(i)))] else [])
  }

  /** monthly_data: the twelve fiscal months, in order, with their lists. */
  function MonthlyData(rows: seq<Row>, kinds: set<SetType>): (m: seq<(string, seq<real>)>)
    ensures |m| == 12
  {
    seq(12, i requires 0 <= i < 12 => (FiscalMonths[i], MonthValues(rows, kinds, i)))
  }

  /** Each contributing row adds exactly one value to every month, read from
      that month's column D..O; other rows add nothing. */
  lemma {:induction false} MonthValuesSpec(rows: seq<Row>, kinds: set<SetType>, i: nat)
    requires i < 12
    ensures |MonthValues(rows, kinds, i)| == |Contributing(rows, kinds)|
    ensures forall j :: 0 <= j < |Contributing(rows, kinds)| ==>
              MonthValues(rows, kinds, i)[j] == CellAmount(Get(Contributing(rows, kinds)[j], MonthColumn(i)))
  {
    if |rows| > 0 {
      MonthValuesSpec(rows[..|rows| - 1], kinds, i);
    }
  }

  /** The keys are the twelve fiscal months and all lists are equally long:
      one entry per contributing row. */
  lemma MonthlyDataShape(rows: seq<Row>, kinds: set<SetType>)
    ensures forall i :: 0 <= i < 12 ==> MonthlyData(rows, kinds)[i].0 == FiscalMonths[i]
    ensures forall i :: 0 <= i < 12 ==> |MonthlyData(rows, kinds)[i].1| == |Contributing(rows, kinds)|
  {
    forall i | 0 <= i < 12
      ensures |MonthlyData(rows, kinds)[i].1| == |Contributing(rows, kinds)|
    {
      MonthValuesSpec(rows, kinds, i);
    }
  }

  /** Rows of other kinds (header and separator rows, and 'previous' rows
      for an ingredient) change nothing. */
  lemma SkippedRow(rows: seq<Row>, kinds: set<SetType>, row: Row)
    requires row.setType !in kinds
    ensures MonthlyData(rows + [row], kinds) == MonthlyData(rows, kinds)
  {
    forall i | 0 <= i < 12
      ensures MonthValues(rows + [row], kinds, i) == MonthValues(rows, kinds, i)
    {
      assert (rows + [row])[..|rows|] == rows;
    }
  }

  lemma MonthValuesStep(rows: seq<Row>, kinds: set<SetType>, r: nat, i: nat)
    requires r < |rows| && i < 12
    ensures MonthValues(rows[..r + 1], kinds, i) ==
              MonthValues(rows[..r], kinds, i)
              + (if rows[r].setType in kinds then [CellAmount(Get(rows[r], MonthColumn(i)))] else [])
  {
    assert rows[..r + 1][..r] == rows[..r];
  }

  /** The loop both extractions share: one pass over the rows, appending one
      value per month for every contributing row. */
  method CollectMonthly(rows: seq<Row>, kinds: set<SetType>) returns (monthly: seq<(string, seq<real>)>)
    ensures monthly == MonthlyData(rows, kinds)
  {
    monthly := seq(12, i requires 0 <= i < 12 => (FiscalMonths[i], []));
    for r := 0 to |rows|
      invariant |monthly| == 12
      invariant forall k :: 0 <= k < 12 ==> monthly[k] == (FiscalMonths[k], MonthValues(rows[..r], kinds, k))
    {
      var row := rows[r];
      if row.setType in kinds {
        for i := 0 to 12
          invariant |monthly| == 12
          invariant forall k :: 0 <= k < i ==> monthly[k] == (FiscalMonths[k], MonthValues(rows[..r + 1], kinds, k))
          invariant forall k :: i <= k < 12 ==> monthly[k] == (FiscalMonths[k], MonthValues(rows[..r], kinds, k))
        {
          var value := CellAmount(Get(row, MonthColumn(i)));
          MonthValuesStep(rows, kinds, r, i);
          monthly := monthly[i := (monthly[i].0, monthly[i].1 + [value])];
        }
      } else {
        forall k | 0 <= k < 12
          ensures MonthValues(rows[..r + 1], kinds, k) == MonthValues(rows[..r], kinds, k)
        {
          MonthValuesStep(rows, kinds, r, k);
        }
      }
    }
    assert rows[..|rows|] == rows;
  }

  /** extract_monthly_data_from_annual. */
  method ExtractMonthlyFromAnnual(annual: seq<Row>) returns (monthly: seq<(string, seq<real>)>)
    ensures monthly == MonthlyData(annual, AnnualKinds)
  {
    monthly := CollectMonthly(annual, AnnualKinds);
  }

  /** The ingredient dict: upper-cased names to their monthly data; an
      ingredient without rows is skipped, and a later ingredient with the
      same upper-cased name replaces the earlier one. */
  function IngredientsMonthly(list: seq<(string, seq<Row>)>): map<string, seq<(string, seq<real>)>>
  {
    if |list| == 0 then map[]
    else
      var (name, rows) := list[|list| - 1];
      var before := IngredientsMonthly(list[..|list| - 1]);
      if |rows| == 0 then before else before[Upper(name) := MonthlyData(rows, IngredientKinds)]
  }

  /** extract_monthly_data_from_ingredients: only 'current' rows are read. */
  method ExtractMonthlyFromIngredients(list: seq<(string, seq<Row>)>) returns (out: map<string, seq<(string, seq<real>)>>)
    ensures out == IngredientsMonthly(list)
  {
    out := map[];
    for j := 0 to |list|
      invariant out == IngredientsMonthly(list[..j])
    {
      assert list[..j + 1][..j] == list[..j];
      var (name, rows) := list[j];
      if |rows| == 0 {
        continue;
      }
      var monthly := CollectMonthly(rows, IngredientKinds);
      out := out[Upper(name) := monthly];
    }
    assert list[..|list|] == list;
  }

  /** The keys are the upper-cased names of the ingredients that have rows. */
  lemma {:induction false} IngredientKeys(list: seq<(string, seq<Row>)>, k: string)
    ensures k in IngredientsMonthly(list) <==>
              exists j :: 0 <= j < |list| && |list[j].1| > 0 && Upper(list[j].0) == k
  {
    if |list| > 0 {
      var init := list[..|list| - 1];
      IngredientKeys(init, k);
      if exists j :: 0 <= j < |list| && |list[j].1| > 0 && Upper(list[j].0) == k {
        var j :| 0 <= j < |list| && |list[j].1| > 0 && Upper(list[j].0) == k;
        if j < |init| {
          assert init[j] == list[j];
        }
      }
      if exists j :: 0 <= j < |init| && |init[j].1| > 0 && Upper(init[j].0) == k {
        var j :| 0 <= j < |init| && |init[j].1| > 0 && Upper(init[j].0) == k;
        assert list[j] == init[j];
      }
    }
  }

  /** Each key holds the monthly data of the last ingredient with that
      upper-cased name and rows, read from its 'current' rows. */
  lemma {:induction false} IngredientValue(list: seq<(string, seq<Row>)>, j: nat)
    requires j < |list| && |list[j].1| > 0
    requires forall q :: j < q < |list| && |list[q].1| > 0 ==> Upper(list[q].0) != Upper(list[j].0)
    ensures Upper(list[j].0) in IngredientsMonthly(list)
    ensures IngredientsMonthly(list)[Upper(list[j].0)] == MonthlyData(list[j].1, IngredientKinds)
  {
    var init := list[..|list| - 1];
    if j < |init| {
      assert init[j] == list[j];
      forall q | j < q < |init| && |init[q].1| > 0
        ensures Upper(init[q].0) != Upper(init[j].0)
      {
        assert init[q] == list[q];
      }
      IngredientValue(init, j);
    }
  }

  // ---------------------------------------------------------------------
  // calculate_monthly_totals

  /** Each month's total: the sum of its list, 0.0 for an empty list. */
  function MonthlyTotals(monthly: seq<(string, seq<real>)>): (t: seq<(string, real)>)
    ensures |t| == |monthly|
    ensures forall i :: 0 <= i < |t| ==> t[i].0 == monthly[i].0
  {
    seq(|monthly|, i requires 0 <= i < |monthly| => (monthly[i].0, if |monthly[i].1| == 0 then 0.0 else Sum(monthly[i].1)))
  }

  /** One more contributing row adds its amount to every month's total, and
      a row of another kind leaves the totals as they were. */
  lemma TotalsAddRow(rows: seq<Row>, kinds: set<SetType>, row: Row, i: nat)
    requires i < 12
    ensures MonthlyTotals(MonthlyData(rows + [row], kinds))[i].1 ==
              MonthlyTotals(MonthlyData(rows, kinds))[i].1
              + (if row.setType in kinds then CellAmount(Get(row, MonthColumn(i))) else 0.0)
  {
    assert (rows + [row])[..|rows|] == rows;
    var before := MonthValues(rows, kinds, i);
    var after := MonthValues(rows + [row], kinds, i);
    assert (if |before| == 0 then 0.0 else Sum(before)) == Sum(before);
    assert (if |after| == 0 then 0.0 else Sum(after)) == Sum(after);
    if row.setType in kinds {
      SumAppend(before, [CellAmount(Get(row, MonthColumn(i)))]);
      assert Sum([CellAmount(Get(row, MonthColumn(i)))]) == CellAmount(Get(row, MonthColumn(i)));
    } else {
      assert after == before;
    }
  }

  /** Without contributing rows every total is 0.0. */
  lemma TotalsOfNothing(rows: seq<Row>, kinds: set<SetType>)
    requires forall j :: 0 <= j < |rows| ==> rows[j].setType !in kinds
    ensures forall i :: 0 <= i < 12 ==> MonthlyTotals(MonthlyData(rows, kinds))[i].1 == 0.0
  {
    forall i | 0 <= i < 12
      ensures |MonthValues(rows, kinds, i)| == 0
    {
      MonthValuesSpec(rows, kinds, i);
      NoneContribute(rows, kinds);
    }
  }

  lemma {:induction false} NoneContribute(rows: seq<Row>, kinds: set<SetType>)
    requires forall j :: 0 <= j < |rows| ==> rows[j].setType !in kinds
    ensures Contributing(rows, kinds) == []
  {
    if |rows| > 0 {
      NoneContribute(rows[..|rows| - 1], kinds);
    }
  }

  // ---------------------------------------------------------------------
  // predict_next_months

  /** [v for v in values if v > 0]. */
  function Positives(vs: seq<real>): (r: seq<real>)
    ensures |r| <= |vs|
    ensures forall i :: 0 <= i < |r| ==> r[i] > 0.0
  {
    if |vs| == 0 then []
    else Positives(vs[..|vs| - 1]) + (if vs[|vs| - 1] > 0.0 then [vs[|vs| - 1]] else [])
  }

  /** The positive values are exactly the values above zero. */
  lemma {:induction false} PositivesMembers(vs: seq<real>, x: real)
    ensures x in Positives(vs) <==> x in vs && x > 0.0
  {
    if |vs| > 0 {
      var init := vs[..|vs| - 1];
      PositivesMembers(init, x);
      assert vs == init + [vs[|vs| - 1]];
    }
  }

  /** A history of positive values is kept whole. */
  lemma {:induction false} PositivesAll(vs: seq<real>)
    requires forall i :: 0 <= i < |vs| ==> vs[i] > 0.0
    ensures Positives(vs) == vs
  {
    if |vs| > 0 {
      PositivesAll(vs[..|vs| - 1]);
      assert vs == vs[..|vs| - 1] + [vs[|vs| - 1]];
    }
  }

  /** max(0.0, x). */
  function Clamp(x: real): real
  {
    if x < 0.0 then 0.0 else x
  }

  /** np.mean(clean_values[-window:]) with window = min(3, len). */
  function TailMean(clean: seq<real>): real
    requires |clean| > 0
  {
    Mean(clean[|clean| - Min(3, |clean|)..])
  }

  /** sum of j over j < n: the x values 0..n-1 of the fit, summed. */
  function XSum(n: nat): real
  {
    if n == 0 then 0.0 else XSum(n - 1) + (n - 1) as real
  }

  /** sum of j * j over j < n. */
  function XXSum(n: nat): real
  {
    if n == 0 then 0.0 else XXSum(n - 1) + (n - 1) as real * (n - 1) as real
  }

  /** sum of j * ys[j]. */
  function XYSum(ys: seq<real>): real
  {
    if |ys| == 0 then 0.0 else XYSum(ys[..|ys| - 1]) + (|ys| - 1) as real * ys[|ys| - 1]
  }

  lemma {:induction false} XSumClosed(n: nat)
    ensures 2.0 * XSum(n) == n as real * (n as real - 1.0)
  {
    if n > 0 {
      XSumClosed(n - 1);
    }
  }

  lemma {:induction false} XXSumClosed(n: nat)
    ensures 6.0 * XXSum(n) == (n as real - 1.0) * n as real * (2.0 * n as real - 1.0)
  {
    if n > 0 {
      XXSumClosed(n - 1);
      var m := (n - 1) as real;
      assert 6.0 * XXSum(n) == (m - 1.0) * m * (2.0 * m - 1.0) + 6.0 * m * m;
      assert (m - 1.0) * m * (2.0 * m - 1.0) + 6.0 * m * m == m * (m + 1.0) * (2.0 * m + 1.0);
    }
  }

  /** The spread n * sum(x^2) - sum(x)^2 of the x values. */
  function Spread(n: nat): real
  {
    n as real * XXSum(n) - XSum(n) * XSum(n)
  }

  /** With two or more points the x values are not all equal, so the
      least-squares line is unique. */
  lemma SpreadPositive(n: nat)
    requires n >= 2
    ensures Spread(n) > 0.0
  {
    XSumClosed(n);
    XXSumClosed(n);
    var x := n as real;
    var sx := XSum(n);
    var sxx := XXSum(n);
    assert 12.0 * Spread(n) == 2.0 * x * (6.0 * sxx) - 3.0 * (2.0 * sx) * (2.0 * sx);
    assert 12.0 * Spread(n) == x * x * (x - 1.0) * (x + 1.0);
    assert x * x > 0.0;
    assert (x - 1.0) * (x + 1.0) > 0.0;
  }

  /** The normal-equation solution for the slope, from the sums. */
  function SlopeOf(n: real, sx: real, sxx: real, sy: real, sxy: real): real
    requires n * sxx - sx * sx > 0.0
  {
    (n * sxy - sx * sy) / (n * sxx - sx * sx)
  }

  /** The intercept, from the sums and the slope. */
  function InterceptOf(n: real, sx: real, sy: real, slope: real): real
    requires n > 0.0
  {
    (sy - slope * sx) / n
  }

  /** coeffs[0] of np.polyfit(range(n), ys, 1): the least-squares slope. */
  function Slope(ys: seq<real>): real
    requires |ys| >= 2
  {
    SpreadPositive(|ys|);
    SlopeOf(|ys| as real, XSum(|ys|), XXSum(|ys|), Sum(ys), XYSum(ys))
  }

  /** coeffs[1]: the least-squares intercept. */
  function Intercept(ys: seq<real>): real
    requires |ys| >= 2
  {
    InterceptOf(|ys| as real, XSum(|ys|), Sum(ys), Slope(ys))
  }

  /** The value of the line slope * x + intercept at x. */
  function LinePoint(slope: real, intercept: real, x: real): real
  {
    slope * x + intercept
  }

  /** The linear_trend predictions: the fitted line at x = len .. len+n-1,
      each clamped at 0. */
  function TrendPoints(clean: seq<real>, n: nat): (r: seq<real>)
    requires |clean| >= 2
    ensures |r| == n
  {
    seq(n, i requires 0 <= i < n => Clamp(LinePoint(Slope(clean), Intercept(clean), (|clean| + i) as real)))
  }

  /** predict_next_months(values, num_months, method). */
  function PredictNextMonths(values: seq<real>, n: nat, kind: string): seq<real>
  {
    if |values| == 0 then Repeat(0.0, n)
    else
      var clean := Positives(values);
      if |clean| == 0 then Repeat(0.0, n)
      else if kind == "moving_average" then Repeat(Clamp(TailMean(clean)), n)
      else if kind == "linear_trend" then
        if |clean| >= 2 then TrendPoints(clean, n) else Repeat(clean[|clean| - 1], n)
      else []
  }

  /** The loop of the linear_trend branch. */
  method TrendPredictions(clean: seq<real>, n: nat) returns (predictions: seq<real>)
    requires |clean| >= 2
    ensures predictions == TrendPoints(clean, n)
  {
    var slope := Slope(clean);
    var intercept := Intercept(clean);
    predictions := [];
    for i := 1 to n + 1
      invariant |predictions| == i - 1
      invariant forall k :: 0 <= k < i - 1 ==> predictions[k] == TrendPoints(clean, n)[k]
    {
      var pred := LinePoint(slope, intercept, (|clean| + i - 1) as real);
      predictions := predictions + [Clamp(pred)];
    }
  }

  /** predict_next_months, as the code computes it. */
  method PredictNext(values: seq<real>, n: nat, kind: string) returns (predictions: seq<real>)
    ensures predictions == PredictNextMonths(values, n, kind)
  {
    if |values| == 0 {
      return Repeat(0.0, n);
    }
    var clean := Positives(values);
    if |clean| == 0 {
      return Repeat(0.0, n);
    }
    predictions := [];
    if kind == "moving_average" {
      var window := Min(3, |clean|);
      var avg := Mean(clean[|clean| - window..]);
      predictions := Repeat(Clamp(avg), n);
    } else if kind == "linear_trend" {
      if |clean| >= 2 {
        predictions := TrendPredictions(clean, n);
      } else {
        predictions := Repeat(clean[|clean| - 1], n);
      }
    }
  }

  /** The moving average is the 3-window rule on the positive values: n
      equal, positive values, or n zeros when no value is positive. */
  lemma MovingAverageSpec(values: seq<real>, n: nat)
    ensures |PredictNextMonths(values, n, "moving_average")| == n
    ensures |Positives(values)| == 0 ==>
              forall i :: 0 <= i < n ==> PredictNextMonths(values, n, "moving_average")[i] == 0.0
    ensures |Positives(values)| > 0 ==>
              forall i :: 0 <= i < n ==>
                PredictNextMonths(values, n, "moving_average")[i] == WindowMean(Positives(values)) > 0.0
  {
    var clean := Positives(values);
    if |clean| > 0 {
      Series.WindowMeanIsTailMean(clean);
      Series.WindowMeanBetween(clean, Least(clean), Greatest(clean));
      LeastPositive(clean);
    }
  }

  function Least(vs: seq<real>): (m: real)
    requires |vs| > 0
    ensures forall i :: 0 <= i < |vs| ==> m <= vs[i]
    ensures exists i :: 0 <= i < |vs| && m == vs[i]
  {
    if |vs| == 1 then vs[0]
    else var m := Least(vs[..|vs| - 1]); if vs[|vs| - 1] < m then vs[|vs| - 1] else m
  }

  function Greatest(vs: seq<real>): (m: real)
    requires |vs| > 0
    ensures forall i :: 0 <= i < |vs| ==> vs[i] <= m
  {
    if |vs| == 1 then vs[0]
    else var m := Greatest(vs[..|vs| - 1]); if vs[|vs| - 1] > m then vs[|vs| - 1] else m
  }

  lemma LeastPositive(vs: seq<real>)
    requires |vs| > 0
    requires forall i :: 0 <= i < |vs| ==> vs[i] > 0.0
    ensures Least(vs) > 0.0
  {
  }

  /** Zeros and negative values are ignored: they never move the forecast. */
  lemma NonPositiveIgnored(values: seq<real>, x: real, n: nat, kind: string)
    requires x <= 0.0 && |values| > 0
    ensures PredictNextMonths(values + [x], n, kind) == PredictNextMonths(values, n, kind)
  {
    assert (values + [x])[..|values|] == values;
    assert Positives(values + [x]) == Positives(values);
  }

  /** A method other than the two known ones predicts nothing once some
      value is positive; without a positive value every method gives n
      zeros. */
  lemma UnknownMethod(values: seq<real>, n: nat, kind: string)
    requires kind != "moving_average" && kind != "linear_trend"
    ensures |Positives(values)| > 0 ==> PredictNextMonths(values, n, kind) == []
    ensures |Positives(values)| == 0 ==> PredictNextMonths(values, n, kind) == Repeat(0.0, n)
  {
  }

  /** The points a*j + b for j = 0 .. n-1. */
  function Line(a: real, b: real, n: nat): (ys: seq<real>)
    ensures |ys| == n
  {
    if n == 0 then [] else Line(a, b, n - 1) + [a * (n - 1) as real + b]
  }

  lemma {:induction false} LineAt(a: real, b: real, n: nat, j: nat)
    requires j < n
    ensures Line(a, b, n)[j] == a * j as real + b
  {
    if j < n - 1 {
      LineAt(a, b, n - 1, j);
    }
  }

  lemma LineStep(a: real, b: real, n: nat)
    requires n > 0
    ensures Sum(Line(a, b, n)) == Sum(Line(a, b, n - 1)) + (a * (n - 1) as real + b)
    ensures XYSum(Line(a, b, n)) == XYSum(Line(a, b, n - 1)) + (n - 1) as real * (a * (n - 1) as real + b)
  {
    var ys := Line(a, b, n);
    assert ys[..n - 1] == Line(a, b, n - 1);
  }

  /** The sums the fit reads, for a history on the line a*j + b. */
  lemma {:induction false} LineSum(a: real, b: real, n: nat)
    ensures Sum(Line(a, b, n)) == a * XSum(n) + n as real * b
  {
    if n > 0 {
      LineSum(a, b, n - 1);
      LineStep(a, b, n);
      var s, m := XSum(n - 1), (n - 1) as real;
      assert a * (s + m) + (m + 1.0) * b == (a * s + m * b) + (a * m + b);
    }
  }

  lemma {:induction false} LineCross(a: real, b: real, n: nat)
    ensures XYSum(Line(a, b, n)) == a * XXSum(n) + b * XSum(n)
  {
    if n > 0 {
      LineCross(a, b, n - 1);
      LineStep(a, b, n);
      var s, t, m := XSum(n - 1), XXSum(n - 1), (n - 1) as real;
      assert a * (t + m * m) + b * (s + m) == (a * t + b * s) + m * (a * m + b);
    }
  }

  /** The normal equations recover a line: when the sums are those of points
      on a*x + b (LineSum, LineCross), the fitted slope is a and the
      intercept b. */
  lemma LineSums(n: real, sx: real, sxx: real, sy: real, sxy: real, a: real, b: real)
    requires n > 0.0 && n * sxx - sx * sx > 0.0
    requires sy == a * sx + n * b && sxy == a * sxx + b * sx
    ensures SlopeOf(n, sx, sxx, sy, sxy) == a
    ensures InterceptOf(n, sx, sy, a) == b
  {
    var d := n * sxx - sx * sx;
    assert n * sxy - sx * sy == a * d;
    assert (a * d) / d == a;
    assert sy - a * sx == b * n;
    assert (b * n) / n == b;
  }

  /** A steady positive history predicts itself with the moving average. */
  lemma SteadyHistory(values: seq<real>, x: real, n: nat, i: nat)
    requires |values| > 0 && x > 0.0 && i < n
    requires forall j :: 0 <= j < |values| ==> values[j] == x
    ensures PredictNextMonths(values, n, "moving_average")[i] == x
  {
    PositivesAll(values);
    MovingAverageSpec(values, n);
    Series.WindowMeanConstant(values, x);
  }

  // ---------------------------------------------------------------------
  // generate_forecast_data

  /** The forecast record. NoHistory is the dict of five empty lists given
      when no month has a positive total (it has no future_months and no
      prediction_point). */
  datatype ForecastData =
    | NoHistory
    | WithHistory(months: seq<string>, historical: seq<real>, predicted: seq<real>, futureMonths: seq<string>,
                  allMonths: seq<string>, allValues: seq<real>, predictionPoint: int)

  /** The outcome of a call that can raise: FISCAL_MONTHS.index raises
      ValueError for a month name that is not a fiscal month. */
  datatype Outcome<T> = Ok(value: T) | NotFiscalMonth(month: string)

  /** The months with a positive total, with their totals, in dict order. */
  function History(totals: seq<(string, real)>): (h: seq<(string, real)>)
    ensures forall i :: 0 <= i < |h| ==> h[i].1 > 0.0
  {
    if |totals| == 0 then []
    else History(totals[..|totals| - 1]) + (if totals[|totals| - 1].1 > 0.0 then [totals[|totals| - 1]] else [])
  }

  function Names(h: seq<(string, real)>): (r: seq<string>)
    ensures |r| == |h| && forall i :: 0 <= i < |h| ==> r[i] == h[i].0
  {
    seq(|h|, i requires 0 <= i < |h| => h[i].0)
  }

  function Amounts(h: seq<(string, real)>): (r: seq<real>)
    ensures |r| == |h| && forall i :: 0 <= i < |h| ==> r[i] == h[i].1
  {
    seq(|h|, i requires 0 <= i < |h| => h[i].1)
  }

  /** The n fiscal months after the one at index last, wrapping after March. */
  function FutureMonths(last: nat, n: nat): (fm: seq<string>)
    requires last < 12
    ensures |fm| == n
  {
    seq(n, i requires 0 <= i < n => FiscalMonths[(last + i + 1) % 12])
  }

  /** The default horizon of generate_forecast_data and of the chart. */
  const DefaultFutureMonths: nat := 6

  /** generate_forecast_data(monthly_totals, n). */
  function ForecastOf(totals: seq<(string, real)>, n: nat): Outcome<ForecastData>
  {
    var h := History(totals);
    if |h| == 0 then Ok(NoHistory)
    else
      var months := Names(h);
      var values := Amounts(h);
      var predictions := PredictNextMonths(values, n, "moving_average");
      match FiscalIndex(months[|months| - 1])
      case None => NotFiscalMonth(months[|months| - 1])
      case Some(last) =>
        var future := FutureMonths(last, n);
        Ok(WithHistory(months, values, predictions, future, months + future, values + predictions, |months| - 1))
  }

  /** The loop that names the future months. */
  method NextMonthNames(last: nat, n: nat) returns (future: seq<string>)
    requires last < 12
    ensures future == FutureMonths(last, n)
  {
    future := [];
    for i := 1 to n + 1
      invariant |future| == i - 1
      invariant forall k :: 0 <= k < i - 1 ==> future[k] == FiscalMonths[(last + k + 1) % 12]
    {
      var next := (last + i) % 12;
      future := future + [FiscalMonths[next]];
    }
  }

  /** generate_forecast_data, as the code computes it. */
  method GenerateForecastData(totals: seq<(string, real)>, n: nat) returns (res: Outcome<ForecastData>)
    ensures res == ForecastOf(totals, n)
  {
    var h := History(totals);
    var months := Names(h);
    var values := Amounts(h);
    if |values| == 0 {
      return Ok(NoHistory);
    }
    var predictions := PredictNext(values, n, "moving_average");
    var last := FiscalIndex(months[|months| - 1]);
    if last.None? {
      return NotFiscalMonth(months[|months| - 1]);
    }
    var future := NextMonthNames(last.value, n);
    res := Ok(WithHistory(months, values, predictions, future, months + future, values + predictions, |months| - 1));
  }

  /** The historical months are exactly the keys with a positive total. */
  lemma {:induction false} HistoryMembers(totals: seq<(string, real)>, m: string, v: real)
    ensures (m, v) in History(totals) <==> (m, v) in totals && v > 0.0
  {
    if |totals| > 0 {
      var init := totals[..|totals| - 1];
      HistoryMembers(init, m, v);
      assert totals == init + [totals[|totals| - 1]];
    }
  }

  /** The historical months keep the dict order. */
  lemma {:induction false} HistoryOrder(totals: seq<(string, real)>, i: nat, j: nat)
    requires i < j < |History(totals)|
    ensures exists p, q :: 0 <= p < q < |totals| && totals[p] == History(totals)[i] && totals[q] == History(totals)[j]
  {
    var init := totals[..|totals| - 1];
    var h := History(init);
    if j < |h| {
      HistoryOrder(init, i, j);
      var p, q :| 0 <= p < q < |init| && init[p] == h[i] && init[q] == h[j];
      assert totals[p] == init[p] && totals[q] == init[q];
    } else {
      HistoryMembers(init, h[i].0, h[i].1);
      var p :| 0 <= p < |init| && init[p] == h[i];
      assert totals[p] == init[p];
      assert History(totals)[j] == totals[|totals| - 1];
    }
  }

  /** With no positive total the record is the empty one. */
  lemma {:induction false} NoHistoryIff(totals: seq<(string, real)>)
    ensures History(totals) == [] <==> forall i :: 0 <= i < |totals| ==> totals[i].1 <= 0.0
  {
    if |totals| > 0 {
      var init := totals[..|totals| - 1];
      NoHistoryIff(init);
      if History(totals) == [] {
        assert History(init) == [];
        forall i | 0 <= i < |totals|
          ensures totals[i].1 <= 0.0
        {
          if i < |init| {
            assert init[i] == totals[i];
          }
        }
      }
      if forall i :: 0 <= i < |totals| ==> totals[i].1 <= 0.0 {
        forall i | 0 <= i < |init|
          ensures init[i].1 <= 0.0
        {
          assert init[i] == totals[i];
        }
      }
    }
  }

  /** Each future month is the fiscal month after the previous one, and the
      first follows the last historical month. */
  lemma FutureMonthsFollow(last: nat, n: nat, i: nat)
    requires last < 12 && i < n
    ensures FiscalIndex(FutureMonths(last, n)[i]) == Some((last + i + 1) % 12)
    ensures i + 1 < n ==>
              FiscalIndex(FutureMonths(last, n)[i + 1]) == Some((FiscalIndex(FutureMonths(last, n)[i]).value + 1) % 12)
  {
    var k := (last + i + 1) % 12;
    assert FutureMonths(last, n)[i] == FiscalMonths[k];
    FiscalIndexOf(k);
    if i + 1 < n {
      var k' := (last + i + 2) % 12;
      NextModTwelve(last + i + 1);
      assert FutureMonths(last, n)[i + 1] == FiscalMonths[k'];
      FiscalIndexOf(k');
    }
  }

  lemma NextModTwelve(x: nat)
    ensures (x + 1) % 12 == (x % 12 + 1) % 12
  {
    var q, r := x / 12, x % 12;
    assert x == 12 * q + r;
    if r < 11 {
      assert x + 1 == 12 * q + (r + 1);
    } else {
      assert x + 1 == 12 * (q + 1);
    }
  }

  /** The record when some total is positive: the historical part, n
      predicted values all equal to the 3-window mean of the history, the
      n future months after the last historical month, their concatenations
      and the index where prediction starts. */
  lemma ForecastSpec(totals: seq<(string, real)>, n: nat)
    requires History(totals) != []
    ensures var h := History(totals);
            var last := Names(h)[|h| - 1];
            match ForecastOf(totals, n)
            case NotFiscalMonth(m) => m == last && last !in FiscalMonths
            case Ok(fd) =>
              last in FiscalMonths
              && fd.WithHistory?
              && fd.months == Names(h) && fd.historical == Amounts(h)
              && |fd.predicted| == n
              && (forall i :: 0 <= i < n ==> fd.predicted[i] == WindowMean(Amounts(h)))
              && fd.futureMonths == FutureMonths(FiscalIndex(last).value, n)
              && fd.allMonths == fd.months + fd.futureMonths
              && fd.allValues == fd.historical + fd.predicted
              && fd.predictionPoint == |fd.months| - 1
  {
    var h := History(totals);
    var months := Names(h);
    var values := Amounts(h);
    var predictions := PredictNextMonths(values, n, "moving_average");
    PositivesAll(values);
    MovingAverageSpec(values, n);
    assert |predictions| == n && forall i :: 0 <= i < n ==> predictions[i] == WindowMean(values);
    match FiscalIndex(months[|months| - 1])
    case None =>
      assert ForecastOf(totals, n) == NotFiscalMonth(months[|months| - 1]);
    case Some(last) =>
      var future := FutureMonths(last, n);
      assert ForecastOf(totals, n)
          == Ok(WithHistory(months, values, predictions, future, months + future, values + predictions, |months| - 1));
  }

  /** A predicted value lies within the range of the last three historical
      totals. */
  lemma PredictedInRange(totals: seq<(string, real)>, n: nat, lo: real, hi: real)
    requires History(totals) != []
    requires forall i :: |History(totals)| - Min(3, |History(totals)|) <= i < |History(totals)| ==>
               lo <= History(totals)[i].1 <= hi
    ensures ForecastOf(totals, n).Ok? && ForecastOf(totals, n).value.WithHistory? ==>
              forall i :: 0 <= i < n ==> lo <= ForecastOf(totals, n).value.predicted[i] <= hi
  {
    var h := History(totals);
    ForecastSpec(totals, n);
    Series.WindowMeanBetween(Amounts(h), lo, hi);
  }

  /** Totals computed from monthly data have the fiscal months as keys, so
      generate_forecast_data never raises on them. */
  lemma PipelineNeverRaises(rows: seq<Row>, kinds: set<SetType>, n: nat)
    ensures ForecastOf(MonthlyTotals(MonthlyData(rows, kinds)), n).Ok?
  {
    var totals := MonthlyTotals(MonthlyData(rows, kinds));
    var h := History(totals);
    if |h| > 0 {
      HistoryMembers(totals, h[|h| - 1].0, h[|h| - 1].1);
      var i :| 0 <= i < |totals| && totals[i] == h[|h| - 1];
      assert totals[i].0 == FiscalMonths[i];
      FiscalIndexOf(i);
    }
  }

  // ---------------------------------------------------------------------
  // prepare_chart_data

  /** One Chart.js dataset (title is its label); borderDash is [] where the dict has no such key. */
  datatype Dataset = Dataset(title: string, data: seq<Option<real>>, borderColor: string,
                             backgroundColor: string, borderDash: seq<nat>, tension: real)

  datatype ChartData = ChartData(labels: seq<string>, datasets: seq<Dataset>, allValues: seq<real>,
                                 predictionIndex: int)

  /** The lists prepare_chart_data reads from the record. */
  function AllMonthsOf(fd: ForecastData): seq<string>
  {
    if fd.NoHistory? then [] else fd.allMonths
  }

  function HistoricalOf(fd: ForecastData): seq<real>
  {
    if fd.NoHistory? then [] else fd.historical
  }

  function PredictedOf(fd: ForecastData): seq<real>
  {
    if fd.NoHistory? then [] else fd.predicted
  }

  function Present(vs: seq<real>): (r: seq<Option<real>>)
    ensures |r| == |vs| && forall i :: 0 <= i < |vs| ==> r[i] == Some(vs[i])
  {
    seq(|vs|, i requires 0 <= i < |vs| => Some(vs[i]))
  }

  /** The chart structure of a forecast record. */
  function ChartOf(fd: ForecastData): ChartData
  {
    var historical := HistoricalOf(fd);
    var predicted := PredictedOf(fd);
    ChartData(
      AllMonthsOf(fd),
      [Dataset("Historical Data", Present(historical) + Repeat(None, |predicted|),
               "rgb(75, 192, 192)", "rgba(75, 192, 192, 0.2)", [], 0.1),
       Dataset("Predicted", Repeat(None, |historical|) + Present(predicted),
               "rgb(255, 99, 132)", "rgba(255, 99, 132, 0.2)", [5, 5], 0.1)],
      historical + predicted,
      |historical| - 1)
  }

  /** prepare_chart_data(monthly_totals, forecast_data): without a record it
      builds one with the default horizon, and raises exactly when that
      does. A chart has two datasets spanning all values: at every position
      the historical one holds the value up to the prediction index and the
      predicted one after it. */
  function PrepareChartData(totals: seq<(string, real)>, forecast: Option<ForecastData>): (r: Outcome<ChartData>)
    ensures forecast.Some? ==> r.Ok?
    ensures forecast.None? ==> (r.Ok? <==> ForecastOf(totals, DefaultFutureMonths).Ok?)
    ensures r.NotFiscalMonth? ==> ForecastOf(totals, DefaultFutureMonths) == NotFiscalMonth(r.month)
    ensures r.Ok? ==> var c := r.value;
            |c.datasets| == 2
            && |c.datasets[0].data| == |c.datasets[1].data| == |c.allValues|
            && -1 <= c.predictionIndex < |c.allValues|
            && forall i :: 0 <= i < |c.allValues| ==>
                 c.datasets[0].data[i] == (if i <= c.predictionIndex then Some(c.allValues[i]) else None)
                 && c.datasets[1].data[i] == (if c.predictionIndex < i then Some(c.allValues[i]) else None)
  {
    match forecast
    case Some(fd) => Ok(ChartOf(fd))
    case None =>
      match ForecastOf(totals, DefaultFutureMonths)
      case NotFiscalMonth(m) => NotFiscalMonth(m)
      case Ok(fd) => Ok(ChartOf(fd))
  }

  /** The two datasets cover all values: at every position exactly one of
      them holds a value, the historical one before the prediction starts
      and the predicted one after, and that value is all_values there. */
  lemma ChartSplit(fd: ForecastData, i: nat)
    requires i < |HistoricalOf(fd)| + |PredictedOf(fd)|
    ensures var c := ChartOf(fd);
            |c.datasets| == 2
            && |c.datasets[0].data| == |c.datasets[1].data| == |c.allValues|
            && (c.datasets[0].data[i].Some? <==> i <= c.predictionIndex)
            && (c.datasets[1].data[i].Some? <==> c.predictionIndex < i)
            && (c.datasets[0].data[i].Some? ==> c.datasets[0].data[i].value == c.allValues[i])
            && (c.datasets[1].data[i].Some? ==> c.datasets[1].data[i].value == c.allValues[i])
  {
  }

  /** Without a record, a chart of positive totals labels the historical
      months and the six fiscal months after the last, and its predicted
      dataset is six copies of the 3-window mean of the history. */
  lemma DefaultChart(totals: seq<(string, real)>)
    requires History(totals) != []
    requires Names(History(totals))[|History(totals)| - 1] in FiscalMonths
    ensures PrepareChartData(totals, None).Ok?
    ensures var c := PrepareChartData(totals, None).value;
            var h := History(totals);
            |c.labels| == |h| + 6
            && c.labels[..|h|] == Names(h)
            && c.predictionIndex == |h| - 1
            && forall i :: |h| <= i < |h| + 6 ==> c.datasets[1].data[i] == Some(WindowMean(Amounts(h)))
  {
    var h := History(totals);
    ForecastSpec(totals, DefaultFutureMonths);
    var fd := ForecastOf(totals, DefaultFutureMonths).value;
    assert fd.allMonths[..|h|] == Names(h);
  }

  /** With no positive total the chart is empty and its prediction index is
      -1. */
  lemma EmptyChart(totals: seq<(string, real)>)
    requires forall i :: 0 <= i < |totals| ==> totals[i].1 <= 0.0
    ensures PrepareChartData(totals, None) == Ok(ChartData([], [Dataset("Historical Data", [],
               "rgb(75, 192, 192)", "rgba(75, 192, 192, 0.2)", [], 0.1), Dataset("Predicted", [],
               "rgb(255, 99, 132)", "rgba(255, 99, 132, 0.2)", [5, 5], 0.1)], [], -1))
  {
    NoHistoryIff(totals);
    assert ForecastOf(totals, DefaultFutureMonths) == Ok(NoHistory);
    assert Present([]) == [] && Repeat<Option<real>>(None, 0) == [];
    assert ChartOf(NoHistory).datasets[0].data == [] && ChartOf(NoHistory).datasets[1].data == [];
  }
}

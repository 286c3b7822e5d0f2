/** _build_forecast_tables of excel_handler/workflow4.py: the normalised
    records grouped by product, each group cleaned and ordered by month, a
    next-month forecast, the per-unit consumption and the raw material per
    product, the demand trend and the method used for each product. */
module Workflow4Tables {
  import opened Sheet
  import Series
  import opened Workflow4

  /** A row of the normalised frame: product, month, demand and per-unit
      consumption; None stands for NaN. */
  datatype Record = Record(product: string, month: Cell, demand: Option<real>, perUnit: Option<real>)

  // ---------------------------------------------------------------------
  // Python's ordering of str values, which groupby sorts its keys by

  /** a < b for Python str: code point by code point, a proper prefix first. */
  predicate StrLess(a: string, b: string)
  {
    if |a| == 0 then |b| > 0
    else if |b| == 0 then false
    else if a[0] != b[0] then a[0] < b[0]
    else StrLess(a[1..], b[1..])
  }

  lemma {:induction false} StrLessIrreflexive(a: string)
    ensures !StrLess(a, a)
  {
    if |a| > 0 {
      StrLessIrreflexive(a[1..]);
    }
  }

  lemma {:induction false} StrLessTransitive(a: string, b: string, c: string)
    requires StrLess(a, b) && StrLess(b, c)
    ensures StrLess(a, c)
  {
    if |a| > 0 && a[0] == b[0] && b[0] == c[0] {
      StrLessTransitive(a[1..], b[1..], c[1..]);
    }
  }

  lemma {:induction false} StrLessTotal(a: string, b: string)
    requires a != b
    ensures StrLess(a, b) || StrLess(b, a)
  {
    if |a| > 0 && |b| > 0 && a[0] == b[0] {
      assert a == [a[0]] + a[1..];
      assert b == [b[0]] + b[1..];
      StrLessTotal(a[1..], b[1..]);
    }
  }

  /** Strictly increasing, so also free of duplicates. */
  predicate StrictlySorted(ps: seq<string>)
  {
    forall i, j :: 0 <= i < j < |ps| ==> StrLess(ps[i], ps[j])
  }

  /** p added to a strictly sorted sequence of keys, unless it is there. */
  function InsertKey(ps: seq<string>, p: string): (r: seq<string>)
    ensures forall q :: q in r <==> q in ps || q == p
  {
    if |ps| == 0 then [p]
    else if p == ps[0] then ps
    else if StrLess(p, ps[0]) then [p] + ps
    else [ps[0]] + InsertKey(ps[1..], p)
  }

  lemma {:induction false} InsertKeySorted(ps: seq<string>, p: string)
    requires StrictlySorted(ps)
    ensures StrictlySorted(InsertKey(ps, p))
  {
    if |ps| == 0 {
    } else if p == ps[0] {
    } else if StrLess(p, ps[0]) {
      var r := [p] + ps;
      forall i, j | 0 <= i < j < |r|
        ensures StrLess(r[i], r[j])
      {
        if i == 0 && j > 1 {
          StrLessTransitive(p, ps[0], ps[j - 1]);
        }
      }
    } else {
      StrLessTotal(p, ps[0]);
      var tail := InsertKey(ps[1..], p);
      InsertKeySorted(ps[1..], p);
      var r := [ps[0]] + tail;
      forall i, j | 0 <= i < j < |r|
        ensures StrLess(r[i], r[j])
      {
        if i == 0 {
          assert r[j] in tail;
          assert r[j] in ps[1..] || r[j] == p;
          if r[j] != p {
            var k :| 0 <= k < |ps[1..]| && ps[1..][k] == r[j];
            assert ps[k + 1] == r[j];
          }
        }
      }
    }
  }

  /** The product groups' keys: every product, once, in Python's str
      order. */
  function GroupKeys(recs: seq<Record>): seq<string>
  {
    if |recs| == 0 then [] else InsertKey(GroupKeys(recs[..|recs| - 1]), recs[|recs| - 1].product)
  }

  lemma {:induction false} GroupKeysSpec(recs: seq<Record>)
    ensures StrictlySorted(GroupKeys(recs))
    ensures forall p :: p in GroupKeys(recs) <==> exists i :: 0 <= i < |recs| && recs[i].product == p
  {
    if |recs| > 0 {
      var init := recs[..|recs| - 1];
      GroupKeysSpec(init);
      InsertKeySorted(GroupKeys(init), recs[|recs| - 1].product);
      forall p
        ensures p in GroupKeys(recs) <==> exists i :: 0 <= i < |recs| && recs[i].product == p
      {
        if p in GroupKeys(init) {
          var i :| 0 <= i < |init| && init[i].product == p;
          assert recs[i].product == p;
        }
        if exists i :: 0 <= i < |recs| && recs[i].product == p {
          var i :| 0 <= i < |recs| && recs[i].product == p;
          if i < |init| {
            assert init[i].product == p;
          }
        }
      }
    }
  }

  // ---------------------------------------------------------------------
  // A stable sort by a natural-number key (the rows sorted by month index)

  predicate SortedByKey<T>(xs: seq<(nat, T)>)
  {
    forall i, j :: 0 <= i < j < |xs| ==> xs[i].0 <= xs[j].0
  }

  /** x placed after every element whose key is at most its own. */
  function InsertByKey<T>(xs: seq<(nat, T)>, x: (nat, T)): (r: seq<(nat, T)>)
    ensures multiset(r) == multiset(xs) + multiset{x}
  {
    if |xs| == 0 || xs[|xs| - 1].0 <= x.0 then xs + [x]
    else
      assert xs == xs[..|xs| - 1] + [xs[|xs| - 1]];
      InsertByKey(xs[..|xs| - 1], x) + [xs[|xs| - 1]]
  }

  lemma {:induction false} InsertByKeySorted<T>(xs: seq<(nat, T)>, x: (nat, T))
    requires SortedByKey(xs)
    ensures SortedByKey(InsertByKey(xs, x))
  {
    if |xs| > 0 && x.0 < xs[|xs| - 1].0 {
      var init := xs[..|xs| - 1];
      var last := xs[|xs| - 1];
      InsertByKeySorted(init, x);
      var front := InsertByKey(init, x);
      var r := front + [last];
      forall i, j | 0 <= i < j < |r|
        ensures r[i].0 <= r[j].0
      {
        if j == |r| - 1 {
          assert r[i] in multiset(front);
          if r[i] != x {
            assert r[i] in multiset(init);
            var k :| 0 <= k < |init| && init[k] == r[i];
            assert xs[k] == r[i];
          }
        }
      }
    }
  }

  /** The stable sort: insertion from the left, ties keep their order. */
  function SortByKey<T>(xs: seq<(nat, T)>): (r: seq<(nat, T)>)
    ensures multiset(r) == multiset(xs)
  {
    if |xs| == 0 then []
    else
      assert xs == xs[..|xs| - 1] + [xs[|xs| - 1]];
      InsertByKey(SortByKey(xs[..|xs| - 1]), xs[|xs| - 1])
  }

  lemma SortByKeyMember<T>(xs: seq<(nat, T)>, y: (nat, T))
    ensures y in SortByKey(xs) <==> y in xs
  {
    assert y in SortByKey(xs) <==> y in multiset(SortByKey(xs));
    assert y in xs <==> y in multiset(xs);
  }

  lemma {:induction false} SortByKeySorted<T>(xs: seq<(nat, T)>)
    ensures SortedByKey(SortByKey(xs))
  {
    if |xs| > 0 {
      SortByKeySorted(xs[..|xs| - 1]);
      InsertByKeySorted(SortByKey(xs[..|xs| - 1]), xs[|xs| - 1]);
    }
  }

  // ---------------------------------------------------------------------
  // One product group, cleaned

  /** The rows of one groupby group, in frame order. */
  function GroupOf(recs: seq<Record>, p: string): (g: seq<Record>)
    ensures forall i :: 0 <= i < |g| ==> g[i].product == p
  {
    if |recs| == 0 then []
    else GroupOf(recs[..|recs| - 1], p) + (if recs[|recs| - 1].product == p then [recs[|recs| - 1]] else [])
  }

  /** A cleaned row: demand present and the month understood. */
  datatype Clean = Clean(month: Cell, demand: real, perUnit: Option<real>)

  /** The cleaned row of a record with its month_index, or None when
      dropna drops it (no demand, or a month _month_index cannot read). */
  function KeyedRow(x: Record): Option<(nat, Clean)>
  {
    if x.demand.None? then None
    else
      match MonthIndex(x.month)
      case None => None
      case Some(idx) => Some((idx, Clean(x.month, x.demand.value, x.perUnit)))
  }

  /** Each record's cleaned row or None, in frame order. */
  function KeyedCandidates(g: seq<Record>): (c: seq<Option<(nat, Clean)>>)
    ensures |c| == |g|
  {
    if |g| == 0 then [] else KeyedCandidates(g[..|g| - 1]) + [KeyedRow(g[|g| - 1])]
  }

  lemma {:induction false} KeyedCandidateAt(g: seq<Record>, i: nat)
    requires i < |g|
    ensures KeyedCandidates(g)[i] == KeyedRow(g[i])
  {
    var init := KeyedCandidates(g[..|g| - 1]);
    var last := KeyedRow(g[|g| - 1]);
    assert KeyedCandidates(g) == init + [last];
    if i < |g| - 1 {
      KeyedCandidateAt(g[..|g| - 1], i);
      assert (init + [last])[i] == init[i];
      assert g[..|g| - 1][i] == g[i];
    }
  }

  /** The cleaned group before sorting, in frame order. */
  function KeyedRows(g: seq<Record>): seq<(nat, Clean)>
  {
    Somes(KeyedCandidates(g))
  }

  /** A group holds exactly the frame's rows of its product. */
  lemma {:induction false} GroupOfMembers(recs: seq<Record>, p: string)
    ensures forall x :: x in GroupOf(recs, p) <==> x in recs && x.product == p
  {
    if |recs| > 0 {
      var init := recs[..|recs| - 1];
      GroupOfMembers(init, p);
      assert recs == init + [recs[|recs| - 1]];
    }
  }

  /** A record survives dropna exactly when it has a demand and a month
      _month_index reads; it is then keyed by that month index. */
  lemma KeyedRowSpec(x: Record)
    ensures KeyedRow(x).Some? <==> x.demand.Some? && MonthIndex(x.month).Some?
    ensures KeyedRow(x).Some? ==>
              KeyedRow(x).value == (MonthIndex(x.month).value, Clean(x.month, x.demand.value, x.perUnit))
  {
  }

  lemma KeyedRowIn(g: seq<Record>, y: (nat, Clean))
    ensures y in KeyedRows(g) <==> exists i :: 0 <= i < |g| && KeyedRow(g[i]) == Some(y)
  {
    var c := KeyedCandidates(g);
    SomesMembers(c);
    assert KeyedRows(g) == Somes(c);
    if y in Somes(c) {
      var i :| 0 <= i < |c| && c[i] == Some(y);
      KeyedCandidateAt(g, i);
    }
    if exists i :: 0 <= i < |g| && KeyedRow(g[i]) == Some(y) {
      var i :| 0 <= i < |g| && KeyedRow(g[i]) == Some(y);
      KeyedCandidateAt(g, i);
      assert c[i] == Some(y);
    }
  }

  /** The cleaned group holds exactly the cleaned rows of its records. */
  lemma KeyedRowsMembers(g: seq<Record>)
    ensures forall y :: y in KeyedRows(g) <==> exists i :: 0 <= i < |g| && KeyedRow(g[i]) == Some(y)
  {
    forall y
      ensures y in KeyedRows(g) <==> exists i :: 0 <= i < |g| && KeyedRow(g[i]) == Some(y)
    {
      KeyedRowIn(g, y);
    }
  }

  /** cleaned: the group's rows with a demand and a month index, sorted by
      month index. */
  function Cleaned(recs: seq<Record>, p: string): seq<(nat, Clean)>
  {
    SortByKey(KeyedRows(GroupOf(recs, p)))
  }

  /** The cleaned group is ordered by month and holds exactly the group's
      rows that survive dropna. */
  lemma CleanedSpec(recs: seq<Record>, p: string)
    ensures SortedByKey(Cleaned(recs, p))
    ensures multiset(Cleaned(recs, p)) == multiset(KeyedRows(GroupOf(recs, p)))
  {
    SortByKeySorted(KeyedRows(GroupOf(recs, p)));
  }

  lemma GroupOfMember(recs: seq<Record>, p: string, x: Record)
    ensures x in GroupOf(recs, p) <==> x in recs && x.product == p
  {
    GroupOfMembers(recs, p);
  }

  /** A row survives dropna in product p's group exactly when some record
      of p yields it. */
  lemma KeyedGroupMember(recs: seq<Record>, p: string, y: (nat, Clean))
    ensures y in KeyedRows(GroupOf(recs, p)) <==>
              exists x :: x in recs && x.product == p && KeyedRow(x) == Some(y)
  {
    var g := GroupOf(recs, p);
    KeyedRowIn(g, y);
    if y in KeyedRows(g) {
      var i :| 0 <= i < |g| && KeyedRow(g[i]) == Some(y);
      GroupOfMember(recs, p, g[i]);
    }
    if exists x :: x in recs && x.product == p && KeyedRow(x) == Some(y) {
      var x :| x in recs && x.product == p && KeyedRow(x) == Some(y);
      GroupOfMember(recs, p, x);
      var i :| 0 <= i < |g| && g[i] == x;
      assert KeyedRow(g[i]) == Some(y);
    }
  }

  /** A cleaned row belongs to product p's cleaned group exactly when some
      record of p survives dropna as that row. */
  lemma CleanedMember(recs: seq<Record>, p: string, y: (nat, Clean))
    ensures y in Cleaned(recs, p) <==>
              exists x :: x in recs && x.product == p && KeyedRow(x) == Some(y)
  {
    SortByKeyMember(KeyedRows(GroupOf(recs, p)), y);
    KeyedGroupMember(recs, p, y);
  }

  /** cleaned["demand"].values */
  function Demands(cl: seq<(nat, Clean)>): (ds: seq<real>)
    ensures |ds| == |cl|
  {
    if |cl| == 0 then [] else Demands(cl[..|cl| - 1]) + [cl[|cl| - 1].1.demand]
  }

  /** cleaned["per_unit_consumption"].dropna(), in order. */
  function PerUnits(cl: seq<(nat, Clean)>): seq<real>
  {
    if |cl| == 0 then []
    else PerUnits(cl[..|cl| - 1]) + (match cl[|cl| - 1].1.perUnit case None => [] case Some(v) => [v])
  }

  // ---------------------------------------------------------------------
  // The forecast of one product

  const DefaultWindow: nat := 3

  /** The forecast branches: the mean of the last DefaultWindow demands,
      the mean of all when there are two, the single demand otherwise. */
  function RawForecast(ds: seq<real>): real
    requires |ds| > 0
  {
    if |ds| >= DefaultWindow then Mean(ds[|ds| - DefaultWindow..])
    else if |ds| >= 2 then Mean(ds)
    else ds[|ds| - 1]
  }

  /** The forecast made non-negative: max(0.0, ·). */
  function ForecastValue(ds: seq<real>): real
    requires |ds| > 0
  {
    var f := RawForecast(ds);
    if 0.0 < f then f else 0.0
  }

  /** The forecasting method recorded for a product. */
  datatype Method = MovingAverage(window: nat) | Average(months: nat) | SinglePeriod

  /** The method chosen for a product with n cleaned rows. */
  function MethodFor(n: nat): Method
  {
    if n >= DefaultWindow then MovingAverage(DefaultWindow)
    else if n >= 2 then Average(n)
    else SinglePeriod
  }

  /** The text the source stores in the method map. */
  function MethodText(m: Method): string
  {
    match m
    case MovingAverage(w) => IntText(w) + "-month moving average"
    case Average(n) => IntText(n) + "-month average"
    case SinglePeriod => "single period or insufficient data"
  }

  /** The method text recorded for a product with n cleaned rows. */
  function MethodLabel(n: nat): string
  {
    MethodText(MethodFor(n))
  }

  /** The forecast is the shared 3-window mean clamped at zero. */
  lemma ForecastIsClampedWindow(ds: seq<real>)
    requires |ds| > 0
    ensures ForecastValue(ds) >= 0.0
    ensures ForecastValue(ds) == if WindowMean(ds) > 0.0 then WindowMean(ds) else 0.0
  {
  }

  /** Demands between 0 and hi in the window give a forecast between them. */
  lemma ForecastBetween(ds: seq<real>, hi: real)
    requires |ds| > 0
    requires forall i :: |ds| - Min(3, |ds|) <= i < |ds| ==> 0.0 <= ds[i] <= hi
    ensures 0.0 <= ForecastValue(ds) <= hi
  {
    Series.WindowMeanBetween(ds, 0.0, hi);
  }

  /** The method text for a full window. */
  lemma MethodLabelWindow(n: nat)
    requires n >= 3
    ensures MethodLabel(n) == "3-month moving average"
  {
    assert IntText(3) == "3";
  }

  /** The method text for two months. */
  lemma MethodLabelTwo()
    ensures MethodLabel(2) == "2-month average"
  {
    assert IntText(2) == "2";
  }

  /** The method text for a single month. */
  lemma MethodLabelSingle(n: nat)
    requires n <= 1
    ensures MethodLabel(n) == "single period or insufficient data"
  {
  }

  /** A row of the forecast table (before rounding). */
  datatype ForecastRow = ForecastRow(product: string, forecast: real, perUnit: real, raw: real)

  /** A row of the demand trend, with its month_index as the key. */
  datatype TrendRow = TrendRow(month: Cell, demand: real, product: string)

  /** cleaned[["month", "demand"]].assign(product=product), keyed by month
      index. */
  function TrendOf(cl: seq<(nat, Clean)>, p: string): (t: seq<(nat, TrendRow)>)
    ensures |t| == |cl|
  {
    if |cl| == 0 then []
    else TrendOf(cl[..|cl| - 1], p) + [(cl[|cl| - 1].0, TrendRow(cl[|cl| - 1].1.month, cl[|cl| - 1].1.demand, p))]
  }

  /** What one group contributes: nothing (cleaned is empty), the missing
      per-unit error, or its table row, method and trend rows. */
  datatype Step = Skip | NoPerUnit | Done(row: ForecastRow, how: Method, trend: seq<(nat, TrendRow)>)

  /** One group's step, from its key and cleaned rows. */
  function StepOf(p: string, cl: seq<(nat, Clean)>): Step
  {
    if |cl| == 0 then Skip
    else
      var pu := PerUnits(cl);
      if |pu| == 0 then NoPerUnit
      else
        var f := ForecastValue(Demands(cl));
        Done(ForecastRow(p, f, pu[|pu| - 1], f * pu[|pu| - 1]), MethodFor(|cl|), TrendOf(cl, p))
  }

  // ---------------------------------------------------------------------
  // The whole table

  /** The step of every product group, in key order. */
  function Steps(recs: seq<Record>): (ss: seq<(string, Step)>)
    ensures |ss| == |GroupKeys(recs)|
  {
    var ps := GroupKeys(recs);
    seq(|ps|, (i: int) requires 0 <= i < |ps| => (ps[i], StepOf(ps[i], Cleaned(recs, ps[i]))))
  }

  lemma StepAt(recs: seq<Record>, i: nat)
    requires i < |GroupKeys(recs)|
    ensures Steps(recs)[i] == (GroupKeys(recs)[i], StepOf(GroupKeys(recs)[i], Cleaned(recs, GroupKeys(recs)[i])))
  {
  }

  /** The forecast table, the demand trend and the method map. */
  datatype Tables = Tables(rows: seq<ForecastRow>, trend: seq<(nat, TrendRow)>, methods: map<string, Method>)

  /** The three tables, or one of the two ValueErrors. */
  datatype Outcome = Built(tables: Tables) | MissingPerUnit(product: string) | EmptyTable

  /** The loop over the first k groups. */
  function TablesUpTo(ss: seq<(string, Step)>, k: nat): (o: Outcome)
    requires k <= |ss|
    ensures !o.EmptyTable?
  {
    if k == 0 then Built(Tables([], [], map[]))
    else
      match TablesUpTo(ss, k - 1)
      case Built(t) =>
        (match ss[k - 1].1
         case Skip => Built(t)
         case NoPerUnit => MissingPerUnit(ss[k - 1].0)
         case Done(row, m, tr) => Built(Tables(t.rows + [row], t.trend + tr, t.methods[ss[k - 1].0 := m])))
      case other => other
  }

  /** Once a group has raised, the later groups are never reached. */
  lemma {:induction false} MissingStays(ss: seq<(string, Step)>, k: nat, j: nat)
    requires k <= j <= |ss|
    requires TablesUpTo(ss, k).MissingPerUnit?
    ensures TablesUpTo(ss, j) == TablesUpTo(ss, k)
  {
    if j > k {
      MissingStays(ss, k, j - 1);
    }
  }

  /** The end of _build_forecast_tables: the empty-table error, or the
      tables with the trend sorted by month index. */
  function Finish(o: Outcome): Outcome
  {
    match o
    case Built(t) =>
      if |t.rows| == 0 then EmptyTable else Built(Tables(t.rows, SortByKey(t.trend), t.methods))
    case other => other
  }

  /** _build_forecast_tables */
  function ForecastTables(recs: seq<Record>): Outcome
  {
    var ss := Steps(recs);
    Finish(TablesUpTo(ss, |ss|))
  }

  /** The forecast branches of the loop body and the clamp after them. */
  method NextMonthForecast(demands: seq<real>) returns (forecast: real, how: Method)
    requires |demands| > 0
    ensures forecast == ForecastValue(demands)
    ensures how == MethodFor(|demands|)
  {
    if |demands| >= DefaultWindow {
      forecast := Mean(demands[|demands| - DefaultWindow..]);
      how := MovingAverage(DefaultWindow);
    } else if |demands| >= 2 {
      forecast := Mean(demands);
      how := Average(|demands|);
    } else {
      forecast := demands[|demands| - 1];
      how := SinglePeriod;
    }
    assert forecast == RawForecast(demands);
    if forecast <= 0.0 {
      forecast := 0.0;
    }
  }

  /** The body of the loop for one group. */
  method ForecastProduct(product: string, cleaned: seq<(nat, Clean)>) returns (step: Step)
    ensures step == StepOf(product, cleaned)
  {
    if |cleaned| == 0 {
      return Skip;
    }
    var trend := TrendOf(cleaned, product);
    var forecast, how := NextMonthForecast(Demands(cleaned));
    var perUnits := PerUnits(cleaned);
    if |perUnits| == 0 {
      return NoPerUnit;
    }
    var perUnit := perUnits[|perUnits| - 1];
    return Done(ForecastRow(product, forecast, perUnit, forecast * perUnit), how, trend);
  }

  /** The loop of _build_forecast_tables. */
  method BuildForecastTables(recs: seq<Record>) returns (res: Outcome)
    ensures res == ForecastTables(recs)
  {
    var keys := GroupKeys(recs);
    ghost var steps := Steps(recs);
    var rows: seq<ForecastRow> := [];
    var trend: seq<(nat, TrendRow)> := [];
    var methods: map<string, Method> := map[];
    for i := 0 to |keys|
      invariant TablesUpTo(steps, i) == Built(Tables(rows, trend, methods))
    {
      var product := keys[i];
      var step := ForecastProduct(product, Cleaned(recs, product));
      StepAt(recs, i);
      match step {
        case Skip =>
        case NoPerUnit =>
          MissingStays(steps, i + 1, |steps|);
          return MissingPerUnit(product);
        case Done(row, how, more) =>
          trend := trend + more;
          rows := rows + [row];
          methods := methods[product := how];
      }
    }
    if |rows| == 0 {
      return EmptyTable;
    }
    return Built(Tables(rows, SortByKey(trend), methods));
  }

  // ---------------------------------------------------------------------
  // What the loop over the groups promises

  /** The loop ends without raising exactly when no group lacks per-unit
      values. */
  lemma {:induction false} FoldBuilt(ss: seq<(string, Step)>, k: nat)
    requires k <= |ss|
    ensures TablesUpTo(ss, k).Built? <==> forall j :: 0 <= j < k ==> !ss[j].1.NoPerUnit?
  {
    if k > 0 {
      FoldBuilt(ss, k - 1);
    }
  }

  /** When the loop raises, it names the first group without per-unit
      values. */
  lemma {:induction false} FoldMissing(ss: seq<(string, Step)>, k: nat)
    requires k <= |ss|
    requires TablesUpTo(ss, k).MissingPerUnit?
    ensures exists j :: 0 <= j < k && ss[j].1.NoPerUnit? && ss[j].0 == TablesUpTo(ss, k).product
                        && forall i :: 0 <= i < j ==> !ss[i].1.NoPerUnit?
  {
    if TablesUpTo(ss, k - 1).MissingPerUnit? {
      FoldMissing(ss, k - 1);
      var j :| 0 <= j < k - 1 && ss[j].1.NoPerUnit? && ss[j].0 == TablesUpTo(ss, k - 1).product
               && forall i :: 0 <= i < j ==> !ss[i].1.NoPerUnit?;
      assert 0 <= j < k;
    } else {
      FoldBuilt(ss, k - 1);
      assert ss[k - 1].1.NoPerUnit?;
    }
  }

  /** The table's rows are the rows of the groups that are done. */
  lemma {:induction false} FoldRows(ss: seq<(string, Step)>, k: nat)
    requires k <= |ss|
    requires TablesUpTo(ss, k).Built?
    ensures forall x :: x in TablesUpTo(ss, k).tables.rows <==> exists j :: 0 <= j < k && ss[j].1.Done? && ss[j].1.row == x
  {
    if k > 0 {
      FoldRows(ss, k - 1);
      forall x
        ensures x in TablesUpTo(ss, k).tables.rows <==> exists j :: 0 <= j < k && ss[j].1.Done? && ss[j].1.row == x
      {
        if exists j :: 0 <= j < k && ss[j].1.Done? && ss[j].1.row == x {
          var j :| 0 <= j < k && ss[j].1.Done? && ss[j].1.row == x;
          if j < k - 1 {
            assert x in TablesUpTo(ss, k - 1).tables.rows;
          }
        }
      }
    }
  }

  /** The trend holds the trend rows of the groups that are done. */
  lemma {:induction false} FoldTrend(ss: seq<(string, Step)>, k: nat)
    requires k <= |ss|
    requires TablesUpTo(ss, k).Built?
    ensures forall x :: x in TablesUpTo(ss, k).tables.trend <==> exists j :: 0 <= j < k && ss[j].1.Done? && x in ss[j].1.trend
  {
    if k > 0 {
      FoldTrend(ss, k - 1);
      forall x
        ensures x in TablesUpTo(ss, k).tables.trend <==> exists j :: 0 <= j < k && ss[j].1.Done? && x in ss[j].1.trend
      {
        if exists j :: 0 <= j < k && ss[j].1.Done? && x in ss[j].1.trend {
          var j :| 0 <= j < k && ss[j].1.Done? && x in ss[j].1.trend;
          if j < k - 1 {
            assert x in TablesUpTo(ss, k - 1).tables.trend;
          }
        }
      }
    }
  }

  /** Distinct group keys, as groupby gives. */
  predicate DistinctKeys(ss: seq<(string, Step)>)
  {
    forall i, j :: 0 <= i < j < |ss| ==> ss[i].0 != ss[j].0
  }

  /** The method map has one entry per group that is done, holding that
      group's method. */
  lemma {:induction false} FoldMethods(ss: seq<(string, Step)>, k: nat)
    requires k <= |ss|
    requires DistinctKeys(ss)
    requires TablesUpTo(ss, k).Built?
    ensures forall p :: p in TablesUpTo(ss, k).tables.methods <==> exists j :: 0 <= j < k && ss[j].1.Done? && ss[j].0 == p
    ensures forall j :: 0 <= j < k && ss[j].1.Done? ==> TablesUpTo(ss, k).tables.methods[ss[j].0] == ss[j].1.how
  {
    if k > 0 {
      FoldMethods(ss, k - 1);
      var m := TablesUpTo(ss, k).tables.methods;
      forall p
        ensures p in m <==> exists j :: 0 <= j < k && ss[j].1.Done? && ss[j].0 == p
      {
        if exists j :: 0 <= j < k && ss[j].1.Done? && ss[j].0 == p {
          var j :| 0 <= j < k && ss[j].1.Done? && ss[j].0 == p;
          if j < k - 1 {
            assert p in TablesUpTo(ss, k - 1).tables.methods;
          }
        }
      }
    }
  }

  /** Group keys in str order, as groupby gives. */
  predicate KeysSorted(ss: seq<(string, Step)>)
  {
    forall i, j :: 0 <= i < j < |ss| ==> StrLess(ss[i].0, ss[j].0)
  }

  /** With keys in str order, the rows come in str order of product. */
  lemma {:induction false} FoldRowsOrdered(ss: seq<(string, Step)>, k: nat)
    requires k <= |ss|
    requires KeysSorted(ss)
    requires forall j :: 0 <= j < |ss| && ss[j].1.Done? ==> ss[j].1.row.product == ss[j].0
    requires TablesUpTo(ss, k).Built?
    ensures forall a, b :: 0 <= a < b < |TablesUpTo(ss, k).tables.rows| ==>
              StrLess(TablesUpTo(ss, k).tables.rows[a].product, TablesUpTo(ss, k).tables.rows[b].product)
  {
    if k > 0 && ss[k - 1].1.Done? {
      FoldRowsOrdered(ss, k - 1);
      var before := TablesUpTo(ss, k - 1).tables.rows;
      var rows := TablesUpTo(ss, k).tables.rows;
      assert rows == before + [ss[k - 1].1.row];
      FoldRows(ss, k - 1);
      forall a, b | 0 <= a < b < |rows|
        ensures StrLess(rows[a].product, rows[b].product)
      {
        if b == |rows| - 1 {
          assert rows[a] in before;
          var j :| 0 <= j < k - 1 && ss[j].1.Done? && ss[j].1.row == rows[a];
        } else {
          assert rows[a] == before[a] && rows[b] == before[b];
        }
      }
    } else if k > 0 {
      FoldRowsOrdered(ss, k - 1);
    }
  }

  // ---------------------------------------------------------------------
  // What one group's step promises

  lemma {:induction false} DemandsAt(cl: seq<(nat, Clean)>, i: nat)
    requires i < |cl|
    ensures Demands(cl)[i] == cl[i].1.demand
  {
    if i < |cl| - 1 {
      DemandsAt(cl[..|cl| - 1], i);
    }
  }

  /** The last per-unit value: that of the last cleaned row
      (in month order) that has one. */
  lemma {:induction false} PerUnitsLast(cl: seq<(nat, Clean)>)
    requires |PerUnits(cl)| > 0
    ensures exists i :: 0 <= i < |cl| && cl[i].1.perUnit == Some(PerUnits(cl)[|PerUnits(cl)| - 1])
                        && forall j :: i < j < |cl| ==> cl[j].1.perUnit.None?
  {
    var init := cl[..|cl| - 1];
    if cl[|cl| - 1].1.perUnit.None? {
      PerUnitsLast(init);
      var i :| 0 <= i < |init| && init[i].1.perUnit == Some(PerUnits(init)[|PerUnits(init)| - 1])
               && forall j :: i < j < |init| ==> init[j].1.perUnit.None?;
      assert cl[i] == init[i];
      forall j | i < j < |cl|
        ensures cl[j].1.perUnit.None?
      {
        if j < |init| {
          assert cl[j] == init[j];
        }
      }
    } else {
      assert cl[|cl| - 1].1.perUnit == Some(PerUnits(cl)[|PerUnits(cl)| - 1]);
    }
  }

  /** No per-unit value in any cleaned row. */
  lemma {:induction false} PerUnitsEmpty(cl: seq<(nat, Clean)>)
    ensures |PerUnits(cl)| == 0 <==> forall i :: 0 <= i < |cl| ==> cl[i].1.perUnit.None?
  {
    if |cl| > 0 {
      var init := cl[..|cl| - 1];
      PerUnitsEmpty(init);
      assert forall i :: 0 <= i < |init| ==> init[i] == cl[i];
    }
  }

  /** Each trend row is a cleaned row tagged with its product, keyed by its
      month index. */
  lemma {:induction false} TrendOfAt(cl: seq<(nat, Clean)>, p: string, i: nat)
    requires i < |cl|
    ensures TrendOf(cl, p)[i] == (cl[i].0, TrendRow(cl[i].1.month, cl[i].1.demand, p))
  {
    if i < |cl| - 1 {
      TrendOfAt(cl[..|cl| - 1], p, i);
    }
  }

  /** The three outcomes of one group. */
  lemma StepOfSpec(p: string, cl: seq<(nat, Clean)>)
    ensures StepOf(p, cl).Skip? <==> |cl| == 0
    ensures StepOf(p, cl).NoPerUnit? <==> |cl| > 0 && |PerUnits(cl)| == 0
    ensures StepOf(p, cl).Done? ==>
              var st := StepOf(p, cl);
              var pu := PerUnits(cl);
              && st.row.product == p
              && st.row.forecast == ForecastValue(Demands(cl))
              && st.row.perUnit == pu[|pu| - 1]
              && st.row.raw == st.row.forecast * st.row.perUnit
              && st.how == MethodFor(|cl|)
              && st.trend == TrendOf(cl, p)
  {
  }

  // ---------------------------------------------------------------------
  // What _build_forecast_tables promises

  /** The steps follow the group keys. */
  lemma StepsKeys(recs: seq<Record>)
    ensures forall i :: 0 <= i < |Steps(recs)| ==> Steps(recs)[i].0 == GroupKeys(recs)[i]
    ensures KeysSorted(Steps(recs)) && DistinctKeys(Steps(recs))
    ensures forall j :: 0 <= j < |Steps(recs)| && Steps(recs)[j].1.Done? ==> Steps(recs)[j].1.row.product == Steps(recs)[j].0
  {
    var ss := Steps(recs);
    var ks := GroupKeys(recs);
    GroupKeysSpec(recs);
    forall i | 0 <= i < |ss|
      ensures ss[i].0 == ks[i]
      ensures ss[i].1 == StepOf(ks[i], Cleaned(recs, ks[i]))
    {
      StepAt(recs, i);
    }
    forall i, j | 0 <= i < j < |ss|
      ensures ss[i].0 != ss[j].0
    {
      StrLessIrreflexive(ss[i].0);
    }
  }

  /** The step of the group with key p. */
  lemma StepOfKey(recs: seq<Record>, j: nat)
    requires j < |Steps(recs)|
    ensures j < |GroupKeys(recs)|
    ensures Steps(recs)[j] == (GroupKeys(recs)[j], StepOf(GroupKeys(recs)[j], Cleaned(recs, GroupKeys(recs)[j])))
  {
    StepAt(recs, j);
  }

  /** No row exactly when no group is done. */
  lemma {:induction false} FoldEmpty(ss: seq<(string, Step)>, k: nat)
    requires k <= |ss|
    requires TablesUpTo(ss, k).Built?
    ensures |TablesUpTo(ss, k).tables.rows| == 0 <==> forall j :: 0 <= j < k ==> !ss[j].1.Done?
  {
    if k > 0 {
      FoldEmpty(ss, k - 1);
    }
  }

  /** "Forecast table is empty" is raised exactly when no product has a
      row with both a demand and a month index. */
  lemma EmptyTableIff(recs: seq<Record>)
    ensures ForecastTables(recs) == EmptyTable <==> forall p :: p in GroupKeys(recs) ==> |Cleaned(recs, p)| == 0
  {
    var ss := Steps(recs);
    var ks := GroupKeys(recs);
    var n := |ss|;
    FoldBuilt(ss, n);
    forall j | 0 <= j < n
      ensures ss[j].1.Skip? <==> |Cleaned(recs, ks[j])| == 0
    {
      StepOfKey(recs, j);
      StepOfSpec(ks[j], Cleaned(recs, ks[j]));
    }
    if TablesUpTo(ss, n).Built? {
      FoldEmpty(ss, n);
    }
    if forall p :: p in ks ==> |Cleaned(recs, p)| == 0 {
      forall j | 0 <= j < n
        ensures ss[j].1.Skip?
      {
        assert ks[j] in ks;
      }
    }
  }

  /** In a strictly sorted sequence, a smaller key sits at a smaller index. */
  lemma SortedIndex(ks: seq<string>, i: nat, j: nat)
    requires StrictlySorted(ks)
    requires i < |ks| && j < |ks|
    requires StrLess(ks[i], ks[j])
    ensures i < j
  {
    if i == j {
      StrLessIrreflexive(ks[i]);
    } else if i > j {
      StrLessTransitive(ks[j], ks[i], ks[j]);
      StrLessIrreflexive(ks[j]);
    }
  }

  /** The i-th step raises exactly when its product's cleaned rows are
      there but hold no per-unit value. */
  lemma NoPerUnitStep(recs: seq<Record>, i: nat)
    requires i < |Steps(recs)|
    ensures i < |GroupKeys(recs)|
    ensures Steps(recs)[i].1.NoPerUnit? <==>
              |Cleaned(recs, GroupKeys(recs)[i])| > 0 && |PerUnits(Cleaned(recs, GroupKeys(recs)[i]))| == 0
  {
    StepOfKey(recs, i);
    StepOfSpec(GroupKeys(recs)[i], Cleaned(recs, GroupKeys(recs)[i]));
  }

  /** Groups before the j-th, in str order, do not lack per-unit values
      when their steps do not. */
  lemma EarlierHavePerUnit(recs: seq<Record>, j: nat)
    requires j < |Steps(recs)|
    requires forall i :: 0 <= i < j ==> !Steps(recs)[i].1.NoPerUnit?
    ensures forall q :: q in GroupKeys(recs) && StrLess(q, GroupKeys(recs)[j]) ==>
              |Cleaned(recs, q)| == 0 || |PerUnits(Cleaned(recs, q))| > 0
  {
    var ks := GroupKeys(recs);
    GroupKeysSpec(recs);
    forall q | q in ks && StrLess(q, ks[j])
      ensures |Cleaned(recs, q)| == 0 || |PerUnits(Cleaned(recs, q))| > 0
    {
      var i :| 0 <= i < |ks| && ks[i] == q;
      SortedIndex(ks, i, j);
      NoPerUnitStep(recs, i);
    }
  }

  /** The per-unit error names the first product, in str order, whose
      cleaned rows have no per-unit value at all. */
  lemma MissingPerUnitSpec(recs: seq<Record>)
    requires ForecastTables(recs).MissingPerUnit?
    ensures var p := ForecastTables(recs).product;
            && p in GroupKeys(recs)
            && |Cleaned(recs, p)| > 0
            && (forall i :: 0 <= i < |Cleaned(recs, p)| ==> Cleaned(recs, p)[i].1.perUnit.None?)
            && forall q :: q in GroupKeys(recs) && StrLess(q, p) ==>
                 |Cleaned(recs, q)| == 0 || |PerUnits(Cleaned(recs, q))| > 0
  {
    var ss := Steps(recs);
    var p := ForecastTables(recs).product;
    FoldMissing(ss, |ss|);
    var j :| 0 <= j < |ss| && ss[j].1.NoPerUnit? && ss[j].0 == p && forall i :: 0 <= i < j ==> !ss[i].1.NoPerUnit?;
    StepOfKey(recs, j);
    StepOfSpec(p, Cleaned(recs, p));
    PerUnitsEmpty(Cleaned(recs, p));
    EarlierHavePerUnit(recs, j);
  }

  /** A forecast row as the source computes it from cleaned rows: the
      clamped window forecast of the month-ordered demands, the last
      per-unit value in month order, and their product. */
  predicate RowFits(cl: seq<(nat, Clean)>, row: ForecastRow)
  {
    var pu := PerUnits(cl);
    && |cl| > 0
    && |pu| > 0
    && row.forecast == ForecastValue(Demands(cl))
    && row.perUnit == pu[|pu| - 1]
    && row.raw == row.forecast * row.perUnit
  }

  /** The row of a group that is done fits its cleaned rows. */
  lemma StepRowFits(p: string, cl: seq<(nat, Clean)>)
    requires StepOf(p, cl).Done?
    ensures StepOf(p, cl).row.product == p
    ensures RowFits(cl, StepOf(p, cl).row)
  {
  }

  /** The row fits the cleaned rows of its own product. */
  predicate RowOfProduct(recs: seq<Record>, row: ForecastRow)
  {
    RowFits(Cleaned(recs, row.product), row)
  }

  /** The loop over all groups, when it does not raise. */
  lemma AllBuilt(recs: seq<Record>)
    requires ForecastTables(recs).Built?
    ensures TablesUpTo(Steps(recs), |Steps(recs)|).Built?
    ensures ForecastTables(recs).tables.rows == TablesUpTo(Steps(recs), |Steps(recs)|).tables.rows
    ensures ForecastTables(recs).tables.methods == TablesUpTo(Steps(recs), |Steps(recs)|).tables.methods
    ensures ForecastTables(recs).tables.trend == SortByKey(TablesUpTo(Steps(recs), |Steps(recs)|).tables.trend)
  {
  }

  /** A group that is done yields the row of its product. */
  lemma DoneRow(recs: seq<Record>, j: nat)
    requires j < |Steps(recs)|
    requires Steps(recs)[j].1.Done?
    ensures j < |GroupKeys(recs)|
    ensures Steps(recs)[j].1.row.product == GroupKeys(recs)[j]
    ensures RowOfProduct(recs, Steps(recs)[j].1.row)
  {
    StepOfKey(recs, j);
    var p := GroupKeys(recs)[j];
    StepRowFits(p, Cleaned(recs, p));
  }

  /** Every row belongs to one product of the frame and is computed from
      that product's cleaned rows. */
  lemma BuiltRowsSound(recs: seq<Record>)
    requires ForecastTables(recs).Built?
    ensures forall row :: row in ForecastTables(recs).tables.rows ==> row.product in GroupKeys(recs) && RowOfProduct(recs, row)
  {
    var ss := Steps(recs);
    var n := |ss|;
    AllBuilt(recs);
    FoldRows(ss, n);
    forall row | row in ForecastTables(recs).tables.rows
      ensures row.product in GroupKeys(recs) && RowOfProduct(recs, row)
    {
      var j :| 0 <= j < n && ss[j].1.Done? && ss[j].1.row == row;
      DoneRow(recs, j);
    }
  }

  /** Every product with cleaned rows has a row. */
  lemma BuiltRowsComplete(recs: seq<Record>)
    requires ForecastTables(recs).Built?
    ensures forall p :: p in GroupKeys(recs) && |Cleaned(recs, p)| > 0 ==>
              exists row :: row in ForecastTables(recs).tables.rows && row.product == p
  {
    var ss := Steps(recs);
    var ks := GroupKeys(recs);
    var n := |ss|;
    AllBuilt(recs);
    FoldRows(ss, n);
    FoldBuilt(ss, n);
    forall p | p in ks && |Cleaned(recs, p)| > 0
      ensures exists row :: row in ForecastTables(recs).tables.rows && row.product == p
    {
      var j :| 0 <= j < |ks| && ks[j] == p;
      StepOfKey(recs, j);
      StepOfSpec(p, Cleaned(recs, p));
      DoneRow(recs, j);
      assert ss[j].1.row in ForecastTables(recs).tables.rows;
    }
  }

  /** No product has two rows: the rows follow str order of product. */
  lemma BuiltRowsOrdered(recs: seq<Record>)
    requires ForecastTables(recs).Built?
    ensures var rows := ForecastTables(recs).tables.rows;
            forall a, b :: 0 <= a < b < |rows| ==> StrLess(rows[a].product, rows[b].product)
  {
    AllBuilt(recs);
    StepsKeys(recs);
    FoldRowsOrdered(Steps(recs), |Steps(recs)|);
  }

  /** The method map has exactly the products with cleaned rows, each with
      the method chosen by its number of cleaned rows. */
  lemma BuiltMethods(recs: seq<Record>)
    requires ForecastTables(recs).Built?
    ensures var methods := ForecastTables(recs).tables.methods;
            && (forall p :: p in methods <==> p in GroupKeys(recs) && |Cleaned(recs, p)| > 0)
            && (forall p :: p in methods ==> methods[p] == MethodFor(|Cleaned(recs, p)|))
  {
    var ss := Steps(recs);
    var ks := GroupKeys(recs);
    var n := |ss|;
    AllBuilt(recs);
    var methods := ForecastTables(recs).tables.methods;
    StepsKeys(recs);
    FoldBuilt(ss, n);
    FoldMethods(ss, n);
    forall p
      ensures p in methods <==> p in ks && |Cleaned(recs, p)| > 0
      ensures p in methods ==> methods[p] == MethodFor(|Cleaned(recs, p)|)
    {
      if p in methods {
        var j :| 0 <= j < n && ss[j].1.Done? && ss[j].0 == p;
        StepOfKey(recs, j);
        StepOfSpec(p, Cleaned(recs, p));
      }
      if p in ks && |Cleaned(recs, p)| > 0 {
        var j :| 0 <= j < |ks| && ks[j] == p;
        StepOfKey(recs, j);
        StepOfSpec(p, Cleaned(recs, p));
      }
    }
  }

  /** The demand trend is ordered by month index. */
  lemma BuiltTrendSorted(recs: seq<Record>)
    requires ForecastTables(recs).Built?
    ensures SortedByKey(ForecastTables(recs).tables.trend)
  {
    AllBuilt(recs);
    SortByKeySorted(TablesUpTo(Steps(recs), |Steps(recs)|).tables.trend);
  }

  /** A group's trend rows, from its step. */
  lemma StepTrend(recs: seq<Record>, j: nat)
    requires j < |Steps(recs)|
    ensures j < |GroupKeys(recs)|
    ensures Steps(recs)[j].1.Done? ==> Steps(recs)[j].1.trend == TrendOf(Cleaned(recs, GroupKeys(recs)[j]), GroupKeys(recs)[j])
    ensures !Steps(recs)[j].1.Done? ==> TablesUpTo(Steps(recs), |Steps(recs)|).Built? ==>
              TrendOf(Cleaned(recs, GroupKeys(recs)[j]), GroupKeys(recs)[j]) == []
  {
    StepOfKey(recs, j);
    StepOfSpec(GroupKeys(recs)[j], Cleaned(recs, GroupKeys(recs)[j]));
    if TablesUpTo(Steps(recs), |Steps(recs)|).Built? {
      FoldBuilt(Steps(recs), |Steps(recs)|);
    }
  }

  /** The trend before sorting holds the trend rows of the groups. */
  lemma RawTrend(recs: seq<Record>)
    requires TablesUpTo(Steps(recs), |Steps(recs)|).Built?
    ensures forall x :: x in TablesUpTo(Steps(recs), |Steps(recs)|).tables.trend <==>
              exists j :: 0 <= j < |GroupKeys(recs)| && x in TrendOf(Cleaned(recs, GroupKeys(recs)[j]), GroupKeys(recs)[j])
  {
    var ss := Steps(recs);
    var n := |ss|;
    FoldTrend(ss, n);
    forall j | 0 <= j < n
      ensures ss[j].1.Done? ==> ss[j].1.trend == TrendOf(Cleaned(recs, GroupKeys(recs)[j]), GroupKeys(recs)[j])
      ensures !ss[j].1.Done? ==> TrendOf(Cleaned(recs, GroupKeys(recs)[j]), GroupKeys(recs)[j]) == []
    {
      StepTrend(recs, j);
    }
  }
}

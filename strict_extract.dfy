/** extract_strict_excel_data and extract_from_single_sheet_structure: the
    product entries and the overall monthly totals of a validated workbook.
    A one-sheet workbook is first read through its labelled regions (the
    single-sheet pass); then every sheet with month columns contributes its
    products, each summed over the current rows of its block, a product code
    being taken only once. */
module StrictExtract {
  import opened Sheet
  import opened Months
  import opened Scan
  import opened Series
  import opened Views
  import opened Strict
  import opened StrictValidation

  /** One {'month': m, 'value': v} entry. */
  type Entry = (string, real)

  /** One element of the 'products' list. */
  datatype ProductData = ProductData(code: string, sheet: string, historical: seq<Entry>, predicted: seq<Entry>)

  /** Each month of the series paired with its value, in order. */
  function Pairs(s: Series): (r: seq<Entry>)
    requires |s.months| == |s.values|
    ensures |r| == |s.months|
    ensures forall i :: 0 <= i < |r| ==> r[i] == (s.months[i], s.values[i])
  {
    seq(|s.months|, i requires 0 <= i < |s.months| => (s.months[i], s.values[i]))
  }

  /** The values of a list of entries. */
  function Values(h: seq<Entry>): (v: seq<real>)
    ensures |v| == |h|
    ensures forall i :: 0 <= i < |h| ==> v[i] == h[i].1
  {
    seq(|h|, i requires 0 <= i < |h| => h[i].1)
  }

  /** The entry of one product from its {month: total} map: the months with
      a total in fiscal order, and the predicted entries when there is any. */
  function ProductEntry(code: string, sheet: string, mv: map<string, Option<real>>): ProductData
  {
    var s := FiscalSeries(mv, 12);
    ProductData(code, sheet, Pairs(s), if |s.values| > 0 then Labelled(StrictForecast(s.values, 12)) else [])
  }

  /** The predicted entries of a product: none without history, else
      'April_next' .. 'March_next', each the window mean of its history. */
  predicate Forecasted(e: ProductData)
  {
    (|e.historical| == 0 ==> e.predicted == [])
    && (|e.historical| > 0 ==>
          |e.predicted| == 12
          && forall i :: 0 <= i < 12 ==> e.predicted[i] == (NextLabel(FiscalMonths[i]), WindowMean(Values(e.historical))))
  }

  /** A product entry lists exactly the months of mv with a total, in fiscal
      order, each with its total; its predicted entries are the flat forecast. */
  lemma ProductEntrySpec(code: string, sheet: string, mv: map<string, Option<real>>)
    ensures var e := ProductEntry(code, sheet, mv);
            e.code == code && e.sheet == sheet && Forecasted(e)
            && (forall i :: 0 <= i < |e.historical| ==> e.historical[i].0 in mv && mv[e.historical[i].0] == Some(e.historical[i].1))
            && (forall i, j :: 0 <= i < j < |e.historical| ==>
                  FiscalIndex(e.historical[i].0).Some? && FiscalIndex(e.historical[j].0).Some?
                  && FiscalIndex(e.historical[i].0).value < FiscalIndex(e.historical[j].0).value)
            && (forall j :: 0 <= j < 12 ==>
                  (FiscalMonths[j] in mv && mv[FiscalMonths[j]].Some? <==> exists i :: 0 <= i < |e.historical| && e.historical[i].0 == FiscalMonths[j]))
  {
    var s := FiscalSeries(mv, 12);
    var e := ProductEntry(code, sheet, mv);
    assert Values(e.historical) == s.values;
    StrictPredictedLabels(s.values);
    forall j | 0 <= j < 12
      ensures FiscalMonths[j] in s.months <==> exists i :: 0 <= i < |e.historical| && e.historical[i].0 == FiscalMonths[j]
    {
      if FiscalMonths[j] in s.months {
        var i :| 0 <= i < |s.months| && s.months[i] == FiscalMonths[j];
        assert e.historical[i].0 == FiscalMonths[j];
      }
    }
  }

  // ---------------------------------------------------------------------
  // extract_from_single_sheet_structure

  /** The ingredient of a region label 'ingredient_<x>': x uppercased
      ('ingredient_header' included). */
  function SectionName(lab: string): Option<string>
  {
    if StartsWith(lab, "ingredient_") then Some(Upper(lab[11..])) else None
  }

  /** The ingredient_sections dict: its names in insertion order and the rows of each. */
  datatype Sections = Sections(order: seq<string>, rows: map<string, seq<nat>>)

  function AddRow(s: Sections, name: string, i: nat): Sections
  {
    if name in s.rows then Sections(s.order, s.rows[name := s.rows[name] + [i]])
    else Sections(s.order + [name], s.rows[name := [i]])
  }

  /** The ingredient of each row's region label, as a function on rows. */
  function SectionOf(regions: Regions): nat -> Option<string>
  {
    (i: nat) => SectionName(Label(regions, i))
  }

  /** The sections of rows 0 .. n-1, given each row's ingredient. */
  function SectionsUpTo(sec: nat -> Option<string>, n: nat): Sections
  {
    if n == 0 then Sections([], map[])
    else
      var s := SectionsUpTo(sec, n - 1);
      match sec(n - 1)
      case None => s
      case Some(name) => AddRow(s, name, n - 1)
  }

  /** Row i is labelled annual data, as a predicate on rows. */
  function AnnualP(regions: Regions): nat -> bool
  {
    (i: nat) => Label(regions, i) == "annual_data"
  }

  /** The rows a section sums: the current rows of the span from its first
      to its last row, or, when there are none, its last ten rows. */
  function SectionRows(g: Grid, rows: seq<nat>): seq<nat>
    requires |rows| > 0
  {
    SpanRows(g, rows[0], Last(rows) + 1, rows)
  }

  /** The last of a section's rows. */
  function Last(rows: seq<nat>): nat
    requires |rows| > 0
  {
    rows[|rows| - 1]
  }

  function SpanRows(g: Grid, lo: nat, hi: nat, rows: seq<nat>): seq<nat>
  {
    var cur := CurrentRows(g, lo, hi);
    if |cur| > 0 then cur else Tail(rows, 10)
  }

  /** The entry of each section that has rows, on 'Main Sheet'. */
  function SectionEntries(g: Grid, mc: map<string, nat>, s: Sections): map<string, ProductData>
  {
    map name | name in s.rows && |s.rows[name]| > 0 :: ProductEntry(name, "Main Sheet", MonthTotals(g, SectionRows(g, s.rows[name]), mc))
  }

  /** The products of the first k sections, given their entries: those with some history. */
  function Sectioned(s: Sections, es: map<string, ProductData>, k: nat): seq<ProductData>
    requires k <= |s.order|
  {
    if k == 0 then []
    else
      var prev := Sectioned(s, es, k - 1);
      var name := s.order[k - 1];
      if name in es && |es[name].historical| > 0 then prev + [es[name]] else prev
  }

  function SectionProducts(g: Grid, mc: map<string, nat>, s: Sections): seq<ProductData>
  {
    Sectioned(s, SectionEntries(g, mc, s), |s.order|)
  }

  /** The result of the single-sheet pass. */
  datatype SheetData = SheetData(products: seq<ProductData>, totals: map<string, real>)

  function SingleSheet(g: Grid, regions: Regions): SheetData
  {
    var mc := StrictColumns(g);
    if |mc| == 0 then SheetData([], map[])
    else
      var annual := Hits(AnnualP(regions), 0, |g|);
      var secs := SectionsUpTo(SectionOf(regions), |g|);
      SheetData(SectionProducts(g, mc, secs),
                if |annual| > 0 then Known(MonthTotals(g, annual, mc)) else map[])
  }

  /** The annual-data rows loop. */
  method AnnualRows(regions: Regions, n: nat) returns (rows: seq<nat>)
    ensures rows == Hits(AnnualP(regions), 0, n)
  {
    var p := AnnualP(regions);
    rows := [];
    var i := 0;
    while i < n
      invariant 0 <= i <= n
      invariant rows == Hits(p, 0, i)
    {
      HitsSplit(p, 0, i, i + 1);
      if p(i) {
        rows := rows + [i];
      }
      i := i + 1;
    }
  }

  /** The section-building loop. */
  method BuildSections(regions: Regions, n: nat) returns (s: Sections)
    ensures s == SectionsUpTo(SectionOf(regions), n)
  {
    ghost var sec := SectionOf(regions);
    s := Sections([], map[]);
    var i := 0;
    while i < n
      invariant 0 <= i <= n
      invariant s == SectionsUpTo(sec, i)
    {
      var lab := Label(regions, i);
      if StartsWith(lab, "ingredient_") {
        var name := Upper(lab[11..]);
        assert sec(i) == Some(name);
        ghost var before := s;
        if name !in s.rows {
          s := Sections(s.order + [name], s.rows[name := []]);
        }
        s := Sections(s.order, s.rows[name := s.rows[name] + [i]]);
        assert [] + [i] == [i];
        assert s == AddRow(before, name, i);
      }
      i := i + 1;
    }
  }

  /** The rows-to-sum step of a section spanning [lo, hi). */
  method SpanRowsOf(g: Grid, lo: nat, hi: nat, rows: seq<nat>) returns (cur: seq<nat>)
    ensures cur == SpanRows(g, lo, hi, rows)
  {
    cur := IdentifyCurrentRows(g, lo, hi);
    if |cur| == 0 {
      cur := Tail(rows, 10);
    }
  }

  /** One product entry: the month totals over the rows, the fiscal-order
      history, and the forecast when there is a history. */
  method BuildEntry(code: string, sheet: string, g: Grid, rows: seq<nat>, mc: map<string, nat>) returns (e: ProductData)
    ensures e == ProductEntry(code, sheet, MonthTotals(g, rows, mc))
  {
    var mv := ExtractMonthlyValues(g, rows, mc);
    var series := HistoricalSeries(mv);
    var predicted: seq<Entry> := [];
    if |series.values| > 0 {
      predicted := Labelled(StrictForecast(series.values, 12));
    }
    e := ProductData(code, sheet, Pairs(series), predicted);
  }

  /** The product loop of the single-sheet pass. */
  method BuildSectionProducts(g: Grid, mc: map<string, nat>, s: Sections) returns (ps: seq<ProductData>)
    ensures ps == SectionProducts(g, mc, s)
  {
    ghost var es := SectionEntries(g, mc, s);
    ps := [];
    var k := 0;
    while k < |s.order|
      invariant 0 <= k <= |s.order|
      invariant ps == Sectioned(s, es, k)
    {
      var name := s.order[k];
      if name in s.rows && |s.rows[name]| > 0 {
        var e := SectionEntry(g, mc, name, s.rows[name]);
        if |e.historical| > 0 {
          ps := ps + [e];
        }
      }
      k := k + 1;
    }
  }

  /** The entry of one section with rows. */
  method SectionEntry(g: Grid, mc: map<string, nat>, name: string, rows: seq<nat>) returns (e: ProductData)
    requires |rows| > 0
    ensures e == ProductEntry(name, "Main Sheet", MonthTotals(g, SectionRows(g, rows), mc))
  {
    var cur := SpanRowsOf(g, rows[0], Last(rows) + 1, rows);
    e := BuildEntry(name, "Main Sheet", g, cur, mc);
  }

  /** extract_from_single_sheet_structure over the regions the region
      parser gives for the sheet. */
  method SingleSheetStructure(g: Grid, regions: Regions) returns (d: SheetData)
    ensures d == SingleSheet(g, regions)
  {
    var annual := AnnualRows(regions, |g|);
    var secs := BuildSections(regions, |g|);
    var mc := DetectMonthColumns(g);
    if |mc| == 0 {
      return SheetData([], map[]);
    }
    var totals: map<string, real> := map[];
    if |annual| > 0 {
      var mv := ExtractMonthlyValues(g, annual, mc);
      totals := Known(mv);
    }
    var ps := BuildSectionProducts(g, mc, secs);
    d := SheetData(ps, totals);
  }

  // ---------------------------------------------------------------------
  // What the single-sheet pass gives

  predicate StrictlyAscending(s: seq<nat>)
  {
    forall i, j :: 0 <= i < j < |s| ==> s[i] < s[j]
  }

  /** The sections after rows 0 .. n-1: a name per ingredient label, each
      listed once, its rows the labelled ones in ascending order. */
  ghost predicate SectionsWellFormed(sec: nat -> Option<string>, n: nat, s: Sections)
  {
    Distinct(s.order)
    && (forall name :: name in s.rows <==> name in s.order)
    && (forall name :: name in s.rows ==>
          |s.rows[name]| > 0 && StrictlyAscending(s.rows[name])
          && forall j :: 0 <= j < |s.rows[name]| ==>
               s.rows[name][j] < n && sec(s.rows[name][j]) == Some(name))
    && (forall r :: 0 <= r < n && sec(r).Some? ==>
          sec(r).value in s.rows
          && exists j :: 0 <= j < |s.rows[sec(r).value]|
                         && s.rows[sec(r).value][j] == r)
  }

  /** Adding row n keeps every labelled row up to n listed under its name. */
  lemma AddRowCovers(sec: nat -> Option<string>, n: nat, s: Sections, name: string)
    requires SectionsWellFormed(sec, n, s)
    requires sec(n) == Some(name)
    ensures var t := AddRow(s, name, n);
            forall r :: 0 <= r < n + 1 && sec(r).Some? ==>
              sec(r).value in t.rows
              && exists j :: 0 <= j < |t.rows[sec(r).value]| && t.rows[sec(r).value][j] == r
  {
    var t := AddRow(s, name, n);
    forall r | 0 <= r < n + 1 && sec(r).Some?
      ensures sec(r).value in t.rows
      ensures exists j :: 0 <= j < |t.rows[sec(r).value]|
                          && t.rows[sec(r).value][j] == r
    {
      var nm := sec(r).value;
      if r == n {
        assert t.rows[nm][|t.rows[nm]| - 1] == n;
      } else {
        var j :| 0 <= j < |s.rows[nm]| && s.rows[nm][j] == r;
        assert t.rows[nm][j] == r;
      }
    }
  }

  lemma AddRowWellFormed(sec: nat -> Option<string>, n: nat, s: Sections, name: string)
    requires SectionsWellFormed(sec, n, s)
    requires sec(n) == Some(name)
    ensures SectionsWellFormed(sec, n + 1, AddRow(s, name, n))
  {
    var t := AddRow(s, name, n);
    if name in s.rows {
      var old_rows := s.rows[name];
      assert t.rows[name] == old_rows + [n];
      forall j | 0 <= j < |old_rows| ensures t.rows[name][j] == old_rows[j] { }
    } else {
      assert name !in s.order;
      forall i, j | 0 <= i < j < |t.order| ensures t.order[i] != t.order[j] {
        if j == |s.order| {
          assert t.order[i] == s.order[i];
        }
      }
    }
    AddRowCovers(sec, n, s, name);
  }

  lemma {:induction false} SectionsSpec(sec: nat -> Option<string>, n: nat)
    ensures SectionsWellFormed(sec, n, SectionsUpTo(sec, n))
  {
    if n > 0 {
      SectionsSpec(sec, n - 1);
      var s := SectionsUpTo(sec, n - 1);
      match sec(n - 1)
      case None =>
        assert SectionsWellFormed(sec, n, s);
      case Some(name) =>
        AddRowWellFormed(sec, n - 1, s, name);
    }
  }

  predicate CodesDistinct(ps: seq<ProductData>)
  {
    forall i, j :: 0 <= i < j < |ps| ==> ps[i].code != ps[j].code
  }

  /** Each section's entry carries the section's name, 'Main Sheet' and its flat forecast. */
  lemma SectionEntriesShape(g: Grid, mc: map<string, nat>, s: Sections)
    ensures var es := SectionEntries(g, mc, s);
            forall name :: name in es ==> es[name].code == name && es[name].sheet == "Main Sheet" && Forecasted(es[name])
  {
    var es := SectionEntries(g, mc, s);
    forall name | name in es
      ensures es[name].code == name && es[name].sheet == "Main Sheet" && Forecasted(es[name])
    {
      EntryShape(name, "Main Sheet", MonthTotals(g, SectionRows(g, s.rows[name]), mc));
    }
  }

  lemma {:induction false} SectionProductsSpec(s: Sections, es: map<string, ProductData>, k: nat)
    requires k <= |s.order| && Distinct(s.order)
    requires forall name :: name in es ==> es[name].code == name && es[name].sheet == "Main Sheet" && Forecasted(es[name])
    ensures var ps := Sectioned(s, es, k);
            CodesDistinct(ps)
            && forall i :: 0 <= i < |ps| ==>
                 (exists j :: 0 <= j < k && ps[i].code == s.order[j])
                 && ps[i].sheet == "Main Sheet" && |ps[i].historical| > 0 && Forecasted(ps[i])
  {
    if k > 0 {
      SectionProductsSpec(s, es, k - 1);
      var prev := Sectioned(s, es, k - 1);
      var name := s.order[k - 1];
      if name in es && |es[name].historical| > 0 {
        var e := es[name];
        var ps := prev + [e];
        assert ps[|prev|] == e;
        forall i | 0 <= i < |prev| ensures ps[i] == prev[i] && prev[i].code != name {
          var j :| 0 <= j < k - 1 && prev[i].code == s.order[j];
        }
      }
    }
  }

  /** The single-sheet pass: nothing without month columns; otherwise one
      product per ingredient section that has a history, named by the
      section and listed once, and the overall totals are the known month
      totals of the annual-data rows. */
  lemma SingleSheetSpec(g: Grid, regions: Regions)
    ensures var d := SingleSheet(g, regions);
            (|StrictColumns(g)| == 0 ==> d.products == [] && d.totals == map[])
            && CodesDistinct(d.products)
            && (forall i :: 0 <= i < |d.products| ==>
                  d.products[i].sheet == "Main Sheet" && |d.products[i].historical| > 0 && Forecasted(d.products[i])
                  && d.products[i].code in SectionsUpTo(SectionOf(regions), |g|).rows)
            && (|StrictColumns(g)| > 0 ==>
                  d.totals == (var annual := Hits(AnnualP(regions), 0, |g|);
                               if |annual| > 0 then Known(MonthTotals(g, annual, StrictColumns(g))) else map[]))
  {
    var secs := SectionsUpTo(SectionOf(regions), |g|);
    SectionsSpec(SectionOf(regions), |g|);
    if |StrictColumns(g)| > 0 {
      SectionEntriesShape(g, StrictColumns(g), secs);
      SectionProductsSpec(secs, SectionEntries(g, StrictColumns(g), secs), |secs.order|);
    }
  }

  // ---------------------------------------------------------------------
  // The per-sheet assembly of extract_strict_excel_data

  /** `product_row_end`: the nearest row below `row` where one of the
      products starts, or n. */
  function BlockEnd(ps: seq<Product>, row: nat, n: nat): nat
  {
    if |ps| == 0 then n
    else
      var e := BlockEnd(ps[..|ps| - 1], row, n);
      if ps[|ps| - 1].row > row then Min(e, ps[|ps| - 1].row) else e
  }

  method NextProductRow(ps: seq<Product>, row: nat, n: nat) returns (end: nat)
    ensures end == BlockEnd(ps, row, n)
  {
    end := n;
    var k := 0;
    while k < |ps|
      invariant 0 <= k <= |ps|
      invariant end == BlockEnd(ps[..k], row, n)
    {
      assert ps[..k + 1][..k] == ps[..k];
      if ps[k].row > row {
        end := Min(end, ps[k].row);
      }
      k := k + 1;
    }
    assert ps[..|ps|] == ps;
  }

  /** A product's block ends at the first later product row, or at n: no
      product starts strictly between its row and the end. */
  lemma {:induction false} BlockEndSpec(ps: seq<Product>, row: nat, n: nat)
    ensures BlockEnd(ps, row, n) <= n
    ensures forall i :: 0 <= i < |ps| && ps[i].row > row ==> BlockEnd(ps, row, n) <= ps[i].row
    ensures BlockEnd(ps, row, n) == n || exists i :: 0 <= i < |ps| && row < ps[i].row == BlockEnd(ps, row, n)
  {
    if |ps| > 0 {
      var init := ps[..|ps| - 1];
      BlockEndSpec(init, row, n);
      assert forall i :: 0 <= i < |init| ==> init[i] == ps[i];
    }
  }

  /** The rows summed for the product at `row`: the current rows of its
      block, or the product row itself when there are none. */
  function BlockSumRows(g: Grid, ps: seq<Product>, row: nat): seq<nat>
  {
    var cur := CurrentRows(g, row, BlockEnd(ps, row, |g|));
    if |cur| > 0 then cur else [row]
  }

  /** The running all_products_data and overall_monthly_totals. */
  datatype State = State(products: seq<ProductData>, totals: map<string, real>)

  /** Some product of the list already has this code. */
  predicate HasEntry(ps: seq<ProductData>, code: string)
  {
    exists i :: 0 <= i < |ps| && ps[i].code == code
  }

  /** The {month: total} map of each product's block, in product order. */
  function BlockTotals(g: Grid, ps: seq<Product>, mc: map<string, nat>): (mvs: seq<map<string, Option<real>>>)
    ensures |mvs| == |ps|
  {
    seq(|ps|, i requires 0 <= i < |ps| => MonthTotals(g, BlockSumRows(g, ps, ps[i].row), mc))
  }

  /** A product whose code is already listed is skipped; otherwise its
      entry is appended and its month totals accumulated. */
  function AddProduct(st: State, e: ProductData, mv: map<string, Option<real>>): State
  {
    if HasEntry(st.products, e.code) then st
    else State(st.products + [e], Accumulate(st.totals, mv))
  }

  /** The entry of each product of a sheet from its block totals. */
  function Entries(sheet: string, codes: seq<string>, mvs: seq<map<string, Option<real>>>): (es: seq<ProductData>)
    requires |codes| == |mvs|
    ensures |es| == |codes|
  {
    seq(|codes|, i requires 0 <= i < |codes| => ProductEntry(codes[i], sheet, mvs[i]))
  }

  /** The first k products of a sheet, given their entries and block totals. */
  function AddEntries(st: State, es: seq<ProductData>, mvs: seq<map<string, Option<real>>>, k: nat): State
    requires k <= |es| == |mvs|
  {
    if k == 0 then st
    else AddProduct(AddEntries(st, es, mvs, k - 1), es[k - 1], mvs[k - 1])
  }

  /** The first k products of a sheet, in order. */
  function ProductsUpTo(st: State, sheet: string, g: Grid, mc: map<string, nat>, ps: seq<Product>, k: nat): State
    requires k <= |ps|
  {
    var mvs := BlockTotals(g, ps, mc);
    AddEntries(st, Entries(sheet, Codes(ps), mvs), mvs, k)
  }

  /** All products of a sheet, in order. */
  function ProductsStep(st: State, sheet: string, g: Grid, mc: map<string, nat>, ps: seq<Product>): State
  {
    ProductsUpTo(st, sheet, g, mc, ps, |ps|)
  }

  /** One sheet: skipped without month columns; without products, the
      totals of its rows with data are accumulated; then its products. */
  function SheetStep(st: State, sheet: string, g: Grid): State
  {
    var mc := StrictColumns(g);
    if |mc| == 0 then st
    else
      var ps := StrictProducts(g);
      var rows := DataRows(g, mc, 0, |g|);
      var st' := if |ps| == 0 && |rows| > 0 then State(st.products, Accumulate(st.totals, MonthTotals(g, rows, mc))) else st;
      ProductsStep(st', sheet, g, mc, ps)
  }

  /** The first k sheets, in order. */
  function SheetsFold(st: State, sheets: seq<(string, Grid)>, k: nat): State
    requires k <= |sheets|
  {
    Fold(SheetStep, st, sheets, k)
  }

  /** The first k sheets, in order, each taken by `step`. */
  function Fold(step: (State, string, Grid) -> State, st: State, sheets: seq<(string, Grid)>, k: nat): State
    requires k <= |sheets|
  {
    if k == 0 then st else step(Fold(step, st, sheets, k - 1), sheets[k - 1].0, sheets[k - 1].1)
  }

  /** What the single-sheet pass leaves (one-sheet workbooks only). */
  function InitialState(sheets: seq<(string, Grid)>, regions: Regions): State
  {
    if |sheets| == 1 then
      var d := SingleSheet(sheets[0].1, regions);
      State(d.products, d.totals)
    else State([], map[])
  }

  datatype Overall = Overall(months: seq<string>, historical: seq<real>, predicted: seq<Entry>)

  datatype Summary = Summary(products: nat, totalForecast: real, totalRawMaterial: real)

  datatype StrictResult =
    | Rejected(message: string, missingItems: seq<string>)
    | Extracted(products: seq<ProductData>, overall: Overall, summary: Summary)

  /** The overall block: the totals' months in fiscal order and their flat forecast. */
  function OverallOf(totals: map<string, real>): Overall
  {
    if |totals| == 0 then Overall([], [], [])
    else
      var s := FiscalSeries(Lift(totals), 12);
      if |s.values| > 0 then Overall(s.months, s.values, Labelled(StrictForecast(s.values, 12)))
      else Overall([], [], [])
  }

  function SummaryOf(products: seq<ProductData>, overall: Overall): Summary
  {
    Summary(|products|,
            if |overall.predicted| > 0 then Sum(Values(overall.predicted)) else 0.0,
            if |overall.historical| > 0 then Sum(overall.historical) else 0.0)
  }

  /** extract_strict_excel_data, `regions` being the region parser's
      labelling of the only sheet of a one-sheet workbook. */
  function ExtractStrict(sheets: seq<(string, Grid)>, regions: Regions): StrictResult
  {
    var v := Validate(Strictly(), sheets);
    if v.error then Rejected(v.message, v.missingItems)
    else
      var st := SheetsFold(InitialState(sheets, regions), sheets, |sheets|);
      var overall := OverallOf(st.totals);
      Extracted(st.products, overall, SummaryOf(st.products, overall))
  }

  // ---------------------------------------------------------------------
  // The loops

  method FindEntry(ps: seq<ProductData>, code: string) returns (found: bool)
    ensures found == HasEntry(ps, code)
  {
    var i := 0;
    while i < |ps|
      invariant 0 <= i <= |ps|
      invariant forall j :: 0 <= j < i ==> ps[j].code != code
    {
      if ps[i].code == code {
        return true;
      }
      i := i + 1;
    }
    return false;
  }

  /** The data-rows loop of a sheet without products. */
  method SheetDataRows(g: Grid, mc: map<string, nat>) returns (rows: seq<nat>)
    ensures rows == DataRows(g, mc, 0, |g|)
  {
    var p := DataP(g, mc);
    rows := [];
    var r := 0;
    while r < |g|
      invariant 0 <= r <= |g|
      invariant rows == Hits(p, 0, r)
    {
      HitsSplit(p, 0, r, r + 1);
      var has := RowHasData(g, r, mc);
      assert has == p(r);
      if has {
        rows := rows + [r];
      }
      r := r + 1;
    }
  }

  /** The product loop of one sheet. */
  method ProcessProducts(st: State, sheet: string, g: Grid, mc: map<string, nat>, ps: seq<Product>) returns (out: State)
    ensures out == ProductsStep(st, sheet, g, mc, ps)
  {
    out := st;
    var k := 0;
    while k < |ps|
      invariant 0 <= k <= |ps|
      invariant out == ProductsUpTo(st, sheet, g, mc, ps, k)
    {
      out := ProcessNextProduct(st, sheet, g, mc, ps, k, out);
      k := k + 1;
    }
  }

  /** Product k of the loop, taken after products 0 .. k-1. */
  method ProcessNextProduct(st: State, sheet: string, g: Grid, mc: map<string, nat>, ps: seq<Product>, k: nat, cur: State)
    returns (out: State)
    requires k < |ps| && cur == ProductsUpTo(st, sheet, g, mc, ps, k)
    ensures out == ProductsUpTo(st, sheet, g, mc, ps, k + 1)
  {
    out := ProcessProduct(cur, sheet, g, mc, ps, k);
  }

  /** One product of the loop over a sheet's products. */
  method ProcessProduct(st: State, sheet: string, g: Grid, mc: map<string, nat>, ps: seq<Product>, k: nat) returns (out: State)
    requires k < |ps|
    ensures out == AddProduct(st, Entries(sheet, Codes(ps), BlockTotals(g, ps, mc))[k], BlockTotals(g, ps, mc)[k])
  {
    var p := ps[k];
    out := st;
    var seen := FindEntry(out.products, p.code);
    if !seen {
      var end := NextProductRow(ps, p.row, |g|);
      var cur := IdentifyCurrentRows(g, p.row, end);
      if |cur| == 0 {
        cur := [p.row];
      }
      assert cur == BlockSumRows(g, ps, p.row);
      var e := BuildEntry(p.code, sheet, g, cur, mc);
      var mv := ExtractMonthlyValues(g, cur, mc);
      var totals := AddTotals(out.totals, mv);
      out := State(out.products + [e], totals);
    }
  }

  method ProcessSheet(st: State, sheet: string, g: Grid) returns (out: State)
    ensures out == SheetStep(st, sheet, g)
  {
    out := st;
    var mc := DetectMonthColumns(g);
    if |mc| == 0 {
      return;
    }
    var ps := DetectProductsInSheet(g);
    if |ps| == 0 {
      var rows := SheetDataRows(g, mc);
      if |rows| > 0 {
        var mv := ExtractMonthlyValues(g, rows, mc);
        var totals := AddTotals(out.totals, mv);
        out := State(out.products, totals);
      }
    }
    out := ProcessProducts(out, sheet, g, mc, ps);
  }

  /** The single-sheet pass of a one-sheet workbook, its totals added into
      the empty overall totals. */
  method SingleSheetPass(sheets: seq<(string, Grid)>) returns (st: State, ghost regions: Regions)
    ensures |sheets| == 1 ==> ParsedRegions(sheets[0].1, regions)
    ensures st == InitialState(sheets, regions)
  {
    regions := map[];
    st := State([], map[]);
    if |sheets| == 1 {
      var rs := ParseExcelRegions(sheets[0].1);
      regions := rs;
      var d := SingleSheetStructure(sheets[0].1, rs);
      AccumulateEmpty(d.totals);
      var totals := AddTotals(map[], Lift(d.totals));
      st := State(d.products, totals);
    }
  }

  /** The overall block from the final totals. */
  method BuildOverall(totals: map<string, real>) returns (overall: Overall)
    ensures overall == OverallOf(totals)
  {
    overall := Overall([], [], []);
    if |totals| > 0 {
      var series := HistoricalSeries(Lift(totals));
      if |series.values| > 0 {
        overall := Overall(series.months, series.values, Labelled(StrictForecast(series.values, 12)));
      }
    }
  }

  /** The loop over the sheets. */
  method ProcessSheets(st0: State, sheets: seq<(string, Grid)>) returns (st: State)
    ensures st == SheetsFold(st0, sheets, |sheets|)
  {
    st := st0;
    var i := 0;
    while i < |sheets|
      invariant 0 <= i <= |sheets|
      invariant st == SheetsFold(st0, sheets, i)
    {
      st := ProcessNextSheet(st0, sheets, i, st);
      i := i + 1;
    }
  }

  /** Sheet i of the loop, taken after sheets 0 .. i-1. */
  method ProcessNextSheet(st0: State, sheets: seq<(string, Grid)>, i: nat, st: State) returns (out: State)
    requires i < |sheets| && st == SheetsFold(st0, sheets, i)
    ensures out == SheetsFold(st0, sheets, i + 1)
  {
    out := ProcessSheet(st, sheets[i].0, sheets[i].1);
  }

  /** extract_strict_excel_data over the sheets of a workbook. */
  method ExtractStrictExcelData(sheets: seq<(string, Grid)>) returns (res: StrictResult, ghost regions: Regions)
    ensures res.Extracted? && |sheets| == 1 ==> ParsedRegions(sheets[0].1, regions)
    ensures res == ExtractStrict(sheets, regions)
  {
    regions := map[];
    var v := ValidateExcelStructure(sheets);
    if v.error {
      return Rejected(v.message, v.missingItems), regions;
    }
    var st0;
    st0, regions := SingleSheetPass(sheets);
    var st := ProcessSheets(st0, sheets);
    var overall := BuildOverall(st.totals);
    res := Extracted(st.products, overall, SummaryOf(st.products, overall));
  }

  // ---------------------------------------------------------------------
  // What the assembly promises

  /** The product list so far: each code once, each entry with its flat forecast. */
  predicate GoodProducts(ps: seq<ProductData>)
  {
    CodesDistinct(ps) && forall i :: 0 <= i < |ps| ==> Forecasted(ps[i])
  }

  /** A sheet's products only ever extend the list, keep every code once,
      and list each new entry under the sheet. */
  lemma {:induction false} AddEntriesSpec(st: State, sheet: string, es: seq<ProductData>, mvs: seq<map<string, Option<real>>>, k: nat)
    requires k <= |es| == |mvs| && GoodProducts(st.products)
    requires forall i :: 0 <= i < |es| ==> es[i].sheet == sheet && Forecasted(es[i])
    ensures var out := AddEntries(st, es, mvs, k);
            st.products <= out.products && GoodProducts(out.products)
            && forall i :: |st.products| <= i < |out.products| ==> out.products[i].sheet == sheet
  {
    if k > 0 {
      AddEntriesSpec(st, sheet, es, mvs, k - 1);
      var prev := AddEntries(st, es, mvs, k - 1);
      AddProductSpec(st.products, prev, es[k - 1], mvs[k - 1], sheet);
    }
  }

  /** Each entry of a sheet's products is listed under the sheet with its flat forecast. */
  lemma EntriesShape(sheet: string, codes: seq<string>, mvs: seq<map<string, Option<real>>>)
    requires |codes| == |mvs|
    ensures var es := Entries(sheet, codes, mvs);
            forall i :: 0 <= i < |es| ==> es[i].code == codes[i] && es[i].sheet == sheet && Forecasted(es[i])
  {
    forall i | 0 <= i < |codes|
      ensures var e := ProductEntry(codes[i], sheet, mvs[i]); e.code == codes[i] && e.sheet == sheet && Forecasted(e)
    {
      EntryShape(codes[i], sheet, mvs[i]);
    }
  }

  lemma AddProductSpec(base: seq<ProductData>, st: State, e: ProductData, mv: map<string, Option<real>>, sheet: string)
    requires base <= st.products && GoodProducts(st.products) && Forecasted(e) && e.sheet == sheet
    requires forall i :: |base| <= i < |st.products| ==> st.products[i].sheet == sheet
    ensures var out := AddProduct(st, e, mv);
            base <= out.products && GoodProducts(out.products)
            && forall i :: |base| <= i < |out.products| ==> out.products[i].sheet == sheet
  {
    if !HasEntry(st.products, e.code) {
      var out := st.products + [e];
      assert out[|st.products|] == e;
      forall i | 0 <= i < |st.products| ensures out[i] == st.products[i] && st.products[i].code != e.code { }
    }
  }

  lemma EntryShape(code: string, sheet: string, mv: map<string, Option<real>>)
    ensures var e := ProductEntry(code, sheet, mv);
            e.code == code && e.sheet == sheet && Forecasted(e)
  {
    ProductEntrySpec(code, sheet, mv);
  }

  lemma SheetStepSpec(st: State, sheet: string, g: Grid)
    requires GoodProducts(st.products)
    ensures var out := SheetStep(st, sheet, g);
            st.products <= out.products && GoodProducts(out.products)
            && forall i :: |st.products| <= i < |out.products| ==> out.products[i].sheet == sheet
  {
    var mc := StrictColumns(g);
    if |mc| > 0 {
      var ps := StrictProducts(g);
      var rows := DataRows(g, mc, 0, |g|);
      var st' := if |ps| == 0 && |rows| > 0 then State(st.products, Accumulate(st.totals, MonthTotals(g, rows, mc))) else st;
      var mvs := BlockTotals(g, ps, mc);
      EntriesShape(sheet, Codes(ps), mvs);
      AddEntriesSpec(st', sheet, Entries(sheet, Codes(ps), mvs), mvs, |ps|);
    }
  }

  /** `b` extends the product list of `a` and keeps it well formed. */
  predicate Keeps(a: State, b: State)
  {
    a.products <= b.products && GoodProducts(b.products)
  }

  lemma SheetStepKeeps()
    ensures forall a: State, n: string, g: Grid :: GoodProducts(a.products) ==> Keeps(a, SheetStep(a, n, g))
  {
    forall a: State, n: string, g: Grid | GoodProducts(a.products)
      ensures Keeps(a, SheetStep(a, n, g))
    {
      SheetStepSpec(a, n, g);
    }
  }

  lemma {:induction false} FoldKeeps(step: (State, string, Grid) -> State, st: State, sheets: seq<(string, Grid)>, k: nat)
    requires k <= |sheets| && GoodProducts(st.products)
    requires forall a: State, n: string, g: Grid :: GoodProducts(a.products) ==> Keeps(a, step(a, n, g))
    ensures Keeps(st, Fold(step, st, sheets, k))
  {
    if k > 0 {
      FoldKeeps(step, st, sheets, k - 1);
    }
  }

  lemma {:induction false} FoldEarlier(step: (State, string, Grid) -> State, st: State, sheets: seq<(string, Grid)>, j: nat, k: nat)
    requires j <= k <= |sheets| && GoodProducts(st.products)
    requires forall a: State, n: string, g: Grid :: GoodProducts(a.products) ==> Keeps(a, step(a, n, g))
    ensures Fold(step, st, sheets, j).products <= Fold(step, st, sheets, k).products
  {
    if j < k {
      FoldEarlier(step, st, sheets, j, k - 1);
      FoldKeeps(step, st, sheets, k - 1);
    }
  }

  /** The sheets only ever extend the single-sheet pass's product list and
      keep every code once, each entry with its flat forecast. */
  lemma SheetsFoldSpec(st: State, sheets: seq<(string, Grid)>, k: nat)
    requires k <= |sheets| && GoodProducts(st.products)
    ensures st.products <= SheetsFold(st, sheets, k).products
    ensures GoodProducts(SheetsFold(st, sheets, k).products)
  {
    SheetStepKeeps();
    FoldKeeps(SheetStep, st, sheets, k);
  }

  /** Sheets are taken in order: a later sheet never changes or repeats an
      entry made before it, so the first sheet naming a code wins. */
  lemma EarlierSheetsKept(st: State, sheets: seq<(string, Grid)>, j: nat, k: nat)
    requires j <= k <= |sheets| && GoodProducts(st.products)
    ensures SheetsFold(st, sheets, j).products <= SheetsFold(st, sheets, k).products
  {
    SheetStepKeeps();
    FoldEarlier(SheetStep, st, sheets, j, k);
  }

  lemma InitialStateSpec(sheets: seq<(string, Grid)>, regions: Regions)
    ensures GoodProducts(InitialState(sheets, regions).products)
  {
    if |sheets| == 1 {
      SingleSheetSpec(sheets[0].1, regions);
    }
  }

  /** The overall block: the months of the totals in fiscal order with
      their totals, twelve predicted entries 'April_next' .. 'March_next'
      carrying the window mean, or nothing at all when there is no total. */
  lemma OverallSpec(totals: map<string, real>)
    ensures var o := OverallOf(totals);
            |o.months| == |o.historical|
            && (forall i :: 0 <= i < |o.months| ==> o.months[i] in totals && totals[o.months[i]] == o.historical[i])
            && (forall i, j :: 0 <= i < j < |o.months| ==>
                  FiscalIndex(o.months[i]).Some? && FiscalIndex(o.months[j]).Some?
                  && FiscalIndex(o.months[i]).value < FiscalIndex(o.months[j]).value)
            && (forall j :: 0 <= j < 12 ==> (FiscalMonths[j] in o.months <==> FiscalMonths[j] in totals))
            && (|o.historical| == 0 ==> o.predicted == [])
            && (|o.historical| > 0 ==>
                  |o.predicted| == 12
                  && forall i :: 0 <= i < 12 ==> o.predicted[i] == (NextLabel(FiscalMonths[i]), WindowMean(o.historical)))
  {
    if |totals| > 0 {
      var s := FiscalSeries(Lift(totals), 12);
      if |s.values| > 0 {
        StrictPredictedLabels(s.values);
      }
    }
  }

  /** The summary: the number of products, the sum of the overall
      predicted values (twelve times the window mean) and of the overall
      historical values. */
  lemma SummarySpec(products: seq<ProductData>, totals: map<string, real>)
    ensures var o := OverallOf(totals);
            var sm := SummaryOf(products, o);
            sm.products == |products|
            && sm.totalRawMaterial == Sum(o.historical)
            && sm.totalForecast == (if |o.historical| > 0 then 12.0 * WindowMean(o.historical) else 0.0)
  {
    var o := OverallOf(totals);
    OverallSpec(totals);
    if |o.historical| > 0 {
      SumConstant(Values(o.predicted), WindowMean(o.historical));
    }
  }

  /** extract_strict_excel_data: a rejected workbook gives the validation's
      message and missing items; otherwise every product code appears
      once, the single-sheet pass's products come first and stay as they
      are, every entry carries its flat '<month>_next' forecast, and the
      summary counts the products and sums the overall series. */
  lemma ExtractSpec(sheets: seq<(string, Grid)>, regions: Regions)
    ensures var v := Validate(Strictly(), sheets);
            var res := ExtractStrict(sheets, regions);
            (v.error ==> res == Rejected(v.message, v.missingItems))
            && (!v.error ==>
                  res.Extracted?
                  && GoodProducts(res.products)
                  && (|sheets| == 1 ==> SingleSheet(sheets[0].1, regions).products <= res.products)
                  && res.summary.products == |res.products|
                  && res.summary.totalRawMaterial == Sum(res.overall.historical)
                  && res.summary.totalForecast
                     == (if |res.overall.historical| > 0 then 12.0 * WindowMean(res.overall.historical) else 0.0))
  {
    var v := Validate(Strictly(), sheets);
    if !v.error {
      var st0 := InitialState(sheets, regions);
      InitialStateSpec(sheets, regions);
      SheetsFoldSpec(st0, sheets, |sheets|);
      var st := SheetsFold(st0, sheets, |sheets|);
      SummarySpec(st.products, st.totals);
    }
  }

  /** A product entry sums rows of its own block: its current rows, which
      lie between its row and the next product row, or its row alone. */
  lemma BlockSumRowsSpec(g: Grid, ps: seq<Product>, row: nat)
    ensures var rows := BlockSumRows(g, ps, row);
            rows == [row]
            || forall i :: 0 <= i < |rows| ==> row <= rows[i] < BlockEnd(ps, row, |g|) && HasData(g, rows[i], StrictColumns(g))
  {
    CurrentRowsSpec(g, row, BlockEnd(ps, row, |g|));
  }
}

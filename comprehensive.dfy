/** The comprehensive extractor (excel_handler/comprehensive_extractor.py):
    every sheet gets a header row (the first of its first 20 rows with three
    or more month cells), month columns from that row (last occurrence wins,
    D..O when the row names no month), and product codes from the rows
    below it; each product's month columns are summed over 30 rows, and
    every product with some month becomes one entry of the result, tagged
    with its sheet. The month normaliser is the universal extractor's (the
    two files carry the same code), and so is the product-block summation. */
module Comprehensive {
  import opened Sheet
  import opened Months
  import opened Scan
  import opened Series
  import opened Universal

  // ---------------------------------------------------------------------
  // detect_header_row

  /** The cells among columns 0 .. c-1 of row r that norm reads as a month, counted. */
  function MonthCount(norm: Norm, g: Grid, r: nat, c: nat): (n: nat)
    ensures n <= c
  {
    if c == 0 then 0
    else MonthCount(norm, g, r, c - 1) + (if norm(At(g, r, c - 1)).Some? then 1 else 0)
  }

  /** The columns of row r below c whose cell norm reads as a month. */
  function MonthCells(norm: Norm, g: Grid, r: nat, c: nat): set<nat>
  {
    set k: nat | k < c && norm(At(g, r, k)).Some?
  }

  /** The counter counts the month cells. */
  lemma {:induction false} MonthCountCells(norm: Norm, g: Grid, r: nat, c: nat)
    ensures MonthCount(norm, g, r, c) == |MonthCells(norm, g, r, c)|
  {
    if c > 0 {
      MonthCountCells(norm, g, r, c - 1);
      if norm(At(g, r, c - 1)).Some? {
        assert MonthCells(norm, g, r, c) == MonthCells(norm, g, r, c - 1) + {c - 1};
      } else {
        assert MonthCells(norm, g, r, c) == MonthCells(norm, g, r, c - 1);
      }
    }
  }

  /** A header row has three or more month cells in its first 30 columns. */
  predicate IsHeader(g: Grid, r: nat)
  {
    MonthCount(UniversalMonth, g, r, Min(30, Width(g))) >= 3
  }

  /** The rows searched: the first 20. */
  function HeaderLimit(g: Grid): nat { Min(20, |g|) }

  /** The first header row at or after r among the searched rows. */
  function HeaderFrom(g: Grid, r: nat): (h: Option<nat>)
    ensures h.Some? ==> r <= h.value < HeaderLimit(g) && IsHeader(g, h.value)
                        && forall k :: r <= k < h.value ==> !IsHeader(g, k)
    ensures h.None? ==> forall k :: r <= k < HeaderLimit(g) ==> !IsHeader(g, k)
    decreases HeaderLimit(g) - r
  {
    if r >= HeaderLimit(g) then None
    else if IsHeader(g, r) then Some(r)
    else HeaderFrom(g, r + 1)
  }

  /** The header row of a sheet: the first row, among the first 20, that
      names at least three months (detect_header_row). */
  function HeaderRow(g: Grid): Option<nat>
  {
    HeaderFrom(g, 0)
  }

  /** The inner loop: `month_count` over columns 0 .. cols-1 of row r. */
  method CountMonths(norm: Norm, g: Grid, r: nat, cols: nat) returns (n: nat)
    ensures n == MonthCount(norm, g, r, cols)
  {
    n := 0;
    for c := 0 to cols
      invariant n == MonthCount(norm, g, r, c)
    {
      if norm(At(g, r, c)).Some? {
        n := n + 1;
      }
    }
  }

  /** The row loop, returning at the first row with three month cells. */
  method DetectHeaderRow(g: Grid) returns (h: Option<nat>)
    ensures h == HeaderRow(g)
  {
    var r := 0;
    while r < HeaderLimit(g)
      invariant r <= HeaderLimit(g)
      invariant HeaderFrom(g, r) == HeaderRow(g)
      decreases HeaderLimit(g) - r
    {
      var n := CountMonths(UniversalMonth, g, r, Min(30, Width(g)));
      if n >= 3 {
        return Some(r);
      }
      r := r + 1;
    }
    return None;
  }

  // ---------------------------------------------------------------------
  // detect_month_columns

  /** The header row's months over all its columns, last occurrence winning,
      or nothing when there is no header row inside the sheet. */
  function HeaderMonths(norm: Norm, g: Grid, hr: Option<nat>): map<string, nat>
  {
    if hr.Some? && hr.value < |g| then LastInRow(norm, g, hr.value, Width(g)) else map[]
  }

  /** The header row's months, or the fallback when it names none. */
  function RowColumns(norm: Norm, g: Grid, hr: Option<nat>, fallback: map<string, nat>): map<string, nat>
  {
    var h := HeaderMonths(norm, g, hr);
    if h == map[] then fallback else h
  }

  /** The month columns of a sheet, read from its header row with the
      positional fallback (detect_month_columns). */
  function ComprehensiveColumns(g: Grid, hr: Option<nat>): map<string, nat>
  {
    RowColumns(UniversalMonth, g, hr, Positional(Width(g), 12))
  }

  lemma RowColumnsKeys(norm: Norm, g: Grid, r: nat, fallback: map<string, nat>, m: string, m': string)
    requires r < |g| && InRow(norm, g, r, Width(g), m)
    ensures m' in RowColumns(norm, g, Some(r), fallback) <==> InRow(norm, g, r, Width(g), m')
  {
    LastKeys(norm, g, r, Width(g), m);
    LastKeys(norm, g, r, Width(g), m');
  }

  lemma RowColumnsLast(norm: Norm, g: Grid, r: nat, fallback: map<string, nat>, m: string)
    requires r < |g| && InRow(norm, g, r, Width(g), m)
    ensures var mc := RowColumns(norm, g, Some(r), fallback);
            m in mc && mc[m] < Width(g) && norm(At(g, r, mc[m])) == Some(m)
            && forall j :: mc[m] < j < Width(g) ==> norm(At(g, r, j)) != Some(m)
  {
    LastKeys(norm, g, r, Width(g), m);
    LastWins(norm, g, r, Width(g), m);
  }

  lemma RowColumnsFallback(norm: Norm, g: Grid, hr: Option<nat>, fallback: map<string, nat>)
    requires !(hr.Some? && hr.value < |g|) || forall m :: !InRow(norm, g, hr.value, Width(g), m)
    ensures RowColumns(norm, g, hr, fallback) == fallback
  {
    if hr.Some? && hr.value < |g| {
      var h := HeaderMonths(norm, g, hr);
      forall m ensures m !in h {
        assert !InRow(norm, g, hr.value, Width(g), m);
        LastKeys(norm, g, hr.value, Width(g), m);
      }
      assert h == map[];
    }
  }

  /** When the header row names some month, its months are the detected
      columns: exactly the months the row names. */
  lemma HeaderRowKeys(g: Grid, r: nat, m: string, m': string)
    requires r < |g| && InRow(UniversalMonth, g, r, Width(g), m)
    ensures m' in ComprehensiveColumns(g, Some(r)) <==> InRow(UniversalMonth, g, r, Width(g), m')
  {
    RowColumnsKeys(UniversalMonth, g, r, Positional(Width(g), 12), m, m');
  }

  /** A month the header row names is recorded at the last column that
      names it: a later column overwrites an earlier one. */
  lemma HeaderRowLast(g: Grid, r: nat, m: string)
    requires r < |g| && InRow(UniversalMonth, g, r, Width(g), m)
    ensures var mc := ComprehensiveColumns(g, Some(r));
            m in mc && mc[m] < Width(g) && UniversalMonth(At(g, r, mc[m])) == Some(m)
            && forall j :: mc[m] < j < Width(g) ==> UniversalMonth(At(g, r, j)) != Some(m)
  {
    RowColumnsLast(UniversalMonth, g, r, Positional(Width(g), 12), m);
  }

  /** The D..O mapping is used when the header row names no month, or
      there is no header row in the sheet. */
  lemma PositionalWhenNoHeader(g: Grid, hr: Option<nat>)
    requires !(hr.Some? && hr.value < |g|) || forall m :: !InRow(UniversalMonth, g, hr.value, Width(g), m)
    ensures ComprehensiveColumns(g, hr) == Positional(Width(g), 12)
  {
    RowColumnsFallback(UniversalMonth, g, hr, Positional(Width(g), 12));
  }

  /** Every detected month is a fiscal month. */
  lemma ColumnsAreFiscal(g: Grid, hr: Option<nat>, m: string)
    requires m in ComprehensiveColumns(g, hr)
    ensures m in FiscalMonths
  {
    if HeaderMonths(UniversalMonth, g, hr) == map[] {
      PositionalOnly(Width(g), m);
    } else {
      LastKeys(UniversalMonth, g, hr.value, Width(g), m);
      var k :| 0 <= k < Width(g) && UniversalMonth(At(g, hr.value, k)) == Some(m);
      NameIsFiscal(m);
    }
  }

  /** The calendar names are the fiscal names. */
  lemma NameIsFiscal(m: string)
    requires m in MonthNames
    ensures m in FiscalMonths
  {
    var k :| 0 <= k < 12 && MonthNames[k] == m;
    assert CalendarMonth(k + 1) == m;
  }

  /** The detector's loops. */
  method DetectMonthColumns(g: Grid, hr: Option<nat>) returns (mc: map<string, nat>)
    ensures mc == ComprehensiveColumns(g, hr)
  {
    mc := map[];
    if hr.Some? && hr.value < |g| {
      mc := ScanLast(UniversalMonth, g, hr.value, Width(g));
    }
    if mc == map[] {
      mc := PositionalColumns(Width(g));
    }
  }

  // ---------------------------------------------------------------------
  // detect_all_products

  /** What one cell announces: its stripped text, uppercased as the code,
      when that text is product-like. */
  function ComprehensiveSpot(c: Cell): Option<(string, string)>
  {
    if c.Blank? then None
    else
      var s := Strip(CellText(c));
      if |s| < 2 then None
      else if ProductLike(s) then Some((Upper(s), s))
      else None
  }

  /** The row the product search starts at: the one after the header row, or row 0 without one. */
  function StartRow(hr: Option<nat>): nat
  {
    if hr.Some? then hr.value + 1 else 0
  }

  /** The products of a sheet, scanned from row `start` on
      (detect_all_products). */
  function ComprehensiveProducts(g: Grid, start: nat): seq<Product>
  {
    ProductsFrom(ComprehensiveSpot, g, start, |g|, Min(3, Width(g)))
  }

  /** The codes are pairwise distinct; every product is announced by its own
      cell in the first three columns at or below the start row; every such
      announcing cell's code is listed; no earlier cell announces the same
      code; and the products are in row-major order. */
  lemma ComprehensiveProductsSpec(g: Grid, start: nat)
    ensures var ps, cols := ComprehensiveProducts(g, start), Min(3, Width(g));
            (forall i, j :: 0 <= i < j < |ps| ==> ps[i].code != ps[j].code)
            && (forall i :: 0 <= i < |ps| ==>
                  start <= ps[i].row < |g| && ps[i].col < cols
                  && ComprehensiveSpot(At(g, ps[i].row, ps[i].col)) == Some((ps[i].code, ps[i].name)))
            && (forall r, c :: start <= r < |g| && 0 <= c < cols && ComprehensiveSpot(At(g, r, c)).Some? ==>
                  HasCode(ps, ComprehensiveSpot(At(g, r, c)).value.0))
            && (forall i, r, c ::
                  0 <= i < |ps| && start <= r < |g| && 0 <= c < cols && CellBefore(r, c, ps[i].row, ps[i].col)
                  && ComprehensiveSpot(At(g, r, c)).Some? ==>
                  ComprehensiveSpot(At(g, r, c)).value.0 != ps[i].code)
            && (forall i, j :: 0 <= i < j < |ps| ==> CellBefore(ps[i].row, ps[i].col, ps[j].row, ps[j].col))
  {
    var cols := Min(3, Width(g));
    if start <= |g| {
      ProductsScanned(ComprehensiveSpot, g, start, |g|, cols);
      assert forall r, c :: start <= r < |g| && 0 <= c < cols ==> Seen(r, c, start, |g|, 0, cols);
    }
  }

  /** A cell announces a product exactly when its stripped text is
      product-like; the code is that text uppercased and the name the text. */
  lemma ComprehensiveSpotSpec(c: Cell)
    ensures var s := Strip(CellText(c));
            (ComprehensiveSpot(c).Some? <==> !c.Blank? && ProductLike(s))
            && (ComprehensiveSpot(c).Some? ==> ComprehensiveSpot(c).value == (Upper(s), s))
  {
  }

  /** Each product's code is its cell text uppercased, and that text has a
      letter, two or more characters and is not a number. */
  lemma ComprehensiveCodesQualify(g: Grid, start: nat, i: nat)
    requires i < |ComprehensiveProducts(g, start)|
    ensures var p := ComprehensiveProducts(g, start)[i];
            p.code == Upper(p.name) && ProductLike(p.name)
  {
    ComprehensiveProductsSpec(g, start);
    var p := ComprehensiveProducts(g, start)[i];
    ComprehensiveSpotSpec(At(g, p.row, p.col));
  }

  /** The detector's loops. */
  method DetectAllProducts(g: Grid, start: nat) returns (ps: seq<Product>)
    ensures ps == ComprehensiveProducts(g, start)
  {
    ps := ScanProducts(ComprehensiveSpot, g, start, |g|, Min(3, Width(g)));
  }

  // ---------------------------------------------------------------------
  // extract_all_sheets_data

  /** Each month of the series paired with its value, in order. */
  function Pairs(s: Series): seq<(string, real)>
    requires |s.months| == |s.values|
  {
    seq(|s.months|, i requires 0 <= i < |s.months| => (s.months[i], s.values[i]))
  }

  /** The values of month/value pairs, in order. */
  function Values(p: seq<(string, real)>): seq<real>
  {
    seq(|p|, i requires 0 <= i < |p| => p[i].1)
  }

  /** The twelve forecast target labels: each fiscal month followed by `_next`. */
  function TargetMonths(): seq<string>
  {
    seq(12, i requires 0 <= i < 12 => NextLabel(FiscalMonths[i]))
  }

  /** One product of raw_sheets[sheet_name]. */
  datatype SheetProduct = SheetProduct(historical: seq<(string, real)>, predicted: seq<(string, real)>, targets: seq<string>)

  /** One element of the products list. */
  datatype Entry = Entry(code: string, sheet: string, historical: seq<(string, real)>, predicted: seq<(string, real)>)

  /** The entry of a product with month totals mv: its present months in
      fiscal order and twelve '<month>_next' copies of their window mean. */
  function MakeEntry(sheet: string, code: string, mv: map<string, Option<real>>): Entry
  {
    var s := FiscalSeries(mv, 12);
    Entry(code, sheet, Pairs(s), LabelledAll(PlainForecast(s.values, 12)))
  }

  /** Some month of mv has a value. */
  predicate HasHistory(mv: map<string, Option<real>>)
  {
    |FiscalSeries(mv, 12).values| > 0
  }

  /** What the sheet loop carries: raw_sheets, the products list and the
      overall monthly totals. */
  datatype Acc = Acc(raw: map<string, map<string, SheetProduct>>, products: seq<Entry>, totals: map<string, real>)

  /** What the product loop of one sheet carries: sheet_products_data, the
      products list and the totals. */
  datatype Step = Step(local: map<string, SheetProduct>, products: seq<Entry>, totals: map<string, real>)

  /** One product: skipped without historical months; otherwise stored in
      the sheet's data and the products list, and every present month
      added to the overall totals. */
  function TakeProduct(st: Step, sheet: string, code: string, mv: map<string, Option<real>>): Step
  {
    if !HasHistory(mv) then st
    else
      var e := MakeEntry(sheet, code, mv);
      Step(st.local[code := SheetProduct(e.historical, e.predicted, TargetMonths())],
           st.products + [e],
           Accumulate(st.totals, mv))
  }

  /** The first k products of a sheet. */
  function TakeAll(st: Step, sheet: string, codes: seq<string>, mvs: seq<map<string, Option<real>>>, k: nat): Step
    requires k <= |codes| == |mvs|
  {
    if k == 0 then st else TakeProduct(TakeAll(st, sheet, codes, mvs, k - 1), sheet, codes[k - 1], mvs[k - 1])
  }

  /** One sheet: skipped without month columns; otherwise its products
      taken in detection order, and its data stored under its name when
      some product had historical months. */
  function SheetStep(acc: Acc, sheet: string, g: Grid): (r: Acc)
    ensures r.products == acc.products + SheetEntries(sheet, g)
  {
    var hr := HeaderRow(g);
    var mc := ComprehensiveColumns(g, hr);
    if mc == map[] then acc
    else
      var ps := ComprehensiveProducts(g, StartRow(hr));
      var st := TakeAll(Step(map[], acc.products, acc.totals), sheet, Codes(ps), ProductTotals(g, ps, mc), |ps|);
      TakeAllKept(Step(map[], acc.products, acc.totals), sheet, Codes(ps), ProductTotals(g, ps, mc), |ps|);
      Acc(if st.local != map[] then acc.raw[sheet := st.local] else acc.raw, st.products, st.totals)
  }

  /** The first k named sheets. */
  function SheetsFold(acc: Acc, sheets: seq<(string, Grid)>, k: nat): (r: Acc)
    requires k <= |sheets|
    ensures r.products == acc.products + AllEntries(sheets, k)
  {
    if k == 0 then acc else SheetStep(SheetsFold(acc, sheets, k - 1), sheets[k - 1].0, sheets[k - 1].1)
  }

  /** The entries the first k products of a sheet contribute: one per
      product with historical months, in detection order. */
  function Kept(sheet: string, codes: seq<string>, mvs: seq<map<string, Option<real>>>, k: nat): seq<Entry>
    requires k <= |codes| == |mvs|
  {
    if k == 0 then []
    else Kept(sheet, codes, mvs, k - 1) + (if HasHistory(mvs[k - 1]) then [MakeEntry(sheet, codes[k - 1], mvs[k - 1])] else [])
  }

  /** The entries one sheet contributes: none without month columns,
      otherwise one per detected product with historical months. */
  function SheetEntries(sheet: string, g: Grid): seq<Entry>
  {
    var hr := HeaderRow(g);
    var mc := ComprehensiveColumns(g, hr);
    if mc == map[] then []
    else
      var ps := ComprehensiveProducts(g, StartRow(hr));
      Kept(sheet, Codes(ps), ProductTotals(g, ps, mc), |ps|)
  }

  /** The entries of the first k sheets, sheet after sheet. */
  function AllEntries(sheets: seq<(string, Grid)>, k: nat): seq<Entry>
    requires k <= |sheets|
  {
    if k == 0 then [] else AllEntries(sheets, k - 1) + SheetEntries(sheets[k - 1].0, sheets[k - 1].1)
  }

  datatype Overall = Overall(months: seq<string>, historical: seq<real>, predicted: seq<(string, real)>)
  datatype Summary = Summary(totalSheets: nat, totalProducts: nat, totalForecast: real, totalRawMaterial: real)
  datatype AllSheetsData = AllSheetsData(rawSheets: map<string, map<string, SheetProduct>>, products: seq<Entry>,
                                         overall: Overall, summary: Summary)

  /** The overall months: the totals in fiscal order and twelve copies of
      their window mean; all empty without totals. */
  function OverallOf(totals: map<string, real>): Overall
  {
    if totals == map[] then Overall([], [], [])
    else
      var s := FiscalSeries(Lift(totals), 12);
      if |s.values| == 0 then Overall([], [], [])
      else Overall(s.months, s.values, LabelledAll(PlainForecast(s.values, 12)))
  }

  /** extract_all_sheets_data over the workbook's named sheets. */
  function ComprehensiveExtract(sheets: seq<(string, Grid)>): AllSheetsData
  {
    DataOf(Folded(sheets), |sheets|)
  }

  /** The result assembled from the loop's final state over n sheets. */
  function DataOf(acc: Acc, n: nat): AllSheetsData
  {
    var o := OverallOf(acc.totals);
    AllSheetsData(acc.raw, acc.products, o, Summary(n, |acc.products|, Sum(Values(o.predicted)), Sum(o.historical)))
  }

  // ---------------------------------------------------------------------
  // What an entry holds

  /** Some pair of h is for month m. */
  predicate HasMonth(h: seq<(string, real)>, m: string)
  {
    exists i :: 0 <= i < |h| && h[i].0 == m
  }

  /** The value h gives month m: the sum of its pairs for m, 0.0 without any. */
  function ValueAt(h: seq<(string, real)>, m: string): real
  {
    if |h| == 0 then 0.0 else ValueAt(h[..|h| - 1], m) + (if h[|h| - 1].0 == m then h[|h| - 1].1 else 0.0)
  }

  /** Month m summed over the entries' historical months. */
  function MonthSum(es: seq<Entry>, m: string): real
  {
    if |es| == 0 then 0.0 else MonthSum(es[..|es| - 1], m) + ValueAt(es[|es| - 1].historical, m)
  }

  /** An entry has some month, its months in strictly increasing fiscal
      order, and twelve '<month>_next' predictions, all the window mean of
      its values. */
  ghost predicate EntryGood(e: Entry)
  {
    |e.historical| > 0
    && (forall i :: 0 <= i < |e.historical| ==> FiscalIndex(e.historical[i].0).Some?)
    && (forall i, j :: 0 <= i < j < |e.historical| ==>
          FiscalIndex(e.historical[i].0).value < FiscalIndex(e.historical[j].0).value)
    && |e.predicted| == 12
    && forall i :: 0 <= i < 12 ==> e.predicted[i] == (NextLabel(FiscalMonths[i]), WindowMean(Values(e.historical)))
  }

  /** Every key of mv is a fiscal month. */
  predicate FiscalKeys(mv: map<string, Option<real>>)
  {
    forall m :: m in mv ==> m in FiscalMonths
  }

  /** A pair for m that is the only one gives m's value. */
  lemma {:induction false} ValueAtOnly(h: seq<(string, real)>, m: string, i: nat)
    requires i < |h| && h[i].0 == m
    requires forall j :: 0 <= j < |h| && j != i ==> h[j].0 != m
    ensures ValueAt(h, m) == h[i].1
  {
    var p := h[..|h| - 1];
    if i < |h| - 1 {
      ValueAtOnly(p, m, i);
    } else {
      ValueAtNone(p, m);
    }
  }

  /** Without a pair for m, m's value is 0.0. */
  lemma {:induction false} ValueAtNone(h: seq<(string, real)>, m: string)
    requires forall j :: 0 <= j < |h| ==> h[j].0 != m
    ensures ValueAt(h, m) == 0.0
  {
    if |h| > 0 {
      ValueAtNone(h[..|h| - 1], m);
    }
  }

  /** The entry of a product with some month is well formed and tagged
      with its code and sheet. */
  lemma MakeEntryGood(sheet: string, code: string, mv: map<string, Option<real>>)
    requires HasHistory(mv)
    ensures var e := MakeEntry(sheet, code, mv);
            e.code == code && e.sheet == sheet && EntryGood(e)
  {
    var s := FiscalSeries(mv, 12);
    assert Values(Pairs(s)) == s.values;
  }

  /** The entry has month m exactly when mv has a value for m, and gives
      m that value. */
  lemma MakeEntryMonth(sheet: string, code: string, mv: map<string, Option<real>>, m: string)
    requires FiscalKeys(mv)
    ensures var h := MakeEntry(sheet, code, mv).historical;
            (HasMonth(h, m) <==> m in mv && mv[m].Some?) && ValueAt(h, m) == Get0(Known(mv), m)
  {
    var s := FiscalSeries(mv, 12);
    if m in mv && mv[m].Some? {
      SeriesHas(s, mv, m);
    } else {
      SeriesLacks(s, mv, m);
    }
  }

  /** A month with a value is paired, once, with that value. */
  lemma SeriesHas(s: Series, mv: map<string, Option<real>>, m: string)
    requires s == FiscalSeries(mv, 12) && FiscalKeys(mv)
    requires m in mv && mv[m].Some?
    ensures HasMonth(Pairs(s), m) && ValueAt(Pairs(s), m) == mv[m].value
  {
    var h := Pairs(s);
    var j := FiscalIndex(m).value;
    assert FiscalMonths[j] in s.months;
    var i :| 0 <= i < |s.months| && s.months[i] == m;
    forall k | 0 <= k < |h| && k != i ensures h[k].0 != m {
      if k < i {
        assert FiscalIndex(s.months[k]).value < FiscalIndex(s.months[i]).value;
      } else {
        assert FiscalIndex(s.months[i]).value < FiscalIndex(s.months[k]).value;
      }
    }
    ValueAtOnly(h, m, i);
  }

  /** A month without a value is not paired. */
  lemma SeriesLacks(s: Series, mv: map<string, Option<real>>, m: string)
    requires s == FiscalSeries(mv, 12)
    requires !(m in mv && mv[m].Some?)
    ensures !HasMonth(Pairs(s), m) && ValueAt(Pairs(s), m) == 0.0
  {
    var h := Pairs(s);
    forall k | 0 <= k < |h| ensures h[k].0 != m {
      assert s.months[k] in mv && mv[s.months[k]].Some?;
    }
    ValueAtNone(h, m);
  }

  // ---------------------------------------------------------------------
  // What the loops keep

  /** Every entry is well formed. */
  ghost predicate EntriesGood(es: seq<Entry>)
  {
    forall i :: 0 <= i < |es| ==> EntryGood(es[i])
  }

  /** The totals are what the entries add up to: each month's total is its
      sum over the entries, and a month has a total exactly when some entry
      has it. */
  ghost predicate TotalsMatch(es: seq<Entry>, t: map<string, real>)
  {
    forall m :: Get0(t, m) == MonthSum(es, m) && (m in t <==> exists i :: 0 <= i < |es| && HasMonth(es[i].historical, m))
  }

  /** raw_sheets holds exactly the sheets that some entry is tagged with. */
  ghost predicate RawMatch(raw: map<string, map<string, SheetProduct>>, es: seq<Entry>)
  {
    forall n :: n in raw <==> exists i :: 0 <= i < |es| && es[i].sheet == n
  }

  /** Adding an entry and its months keeps one month's total matched. */
  lemma TotalsTakeAt(es: seq<Entry>, t: map<string, real>, e: Entry, mv: map<string, Option<real>>, m: string)
    requires Get0(t, m) == MonthSum(es, m)
    requires m in t <==> exists i :: 0 <= i < |es| && HasMonth(es[i].historical, m)
    requires (HasMonth(e.historical, m) <==> m in mv && mv[m].Some?) && ValueAt(e.historical, m) == Get0(Known(mv), m)
    ensures var es', t' := es + [e], Accumulate(t, mv);
            Get0(t', m) == MonthSum(es', m)
            && (m in t' <==> exists i :: 0 <= i < |es'| && HasMonth(es'[i].historical, m))
  {
    var es' := es + [e];
    assert es'[..|es|] == es;
    assert es'[|es|] == e;
    if exists i :: 0 <= i < |es| && HasMonth(es[i].historical, m) {
      var i :| 0 <= i < |es| && HasMonth(es[i].historical, m);
      assert es'[i] == es[i];
    }
    if exists i :: 0 <= i < |es'| && HasMonth(es'[i].historical, m) {
      var i :| 0 <= i < |es'| && HasMonth(es'[i].historical, m);
      if i < |es| {
        assert es'[i] == es[i];
      }
    }
  }

  /** Taking a product keeps the totals matched. */
  lemma TotalsTake(es: seq<Entry>, t: map<string, real>, sheet: string, code: string, mv: map<string, Option<real>>)
    requires TotalsMatch(es, t) && FiscalKeys(mv)
    ensures TotalsMatch(es + [MakeEntry(sheet, code, mv)], Accumulate(t, mv))
  {
    forall m
      ensures var es', t' := es + [MakeEntry(sheet, code, mv)], Accumulate(t, mv);
              Get0(t', m) == MonthSum(es', m)
              && (m in t' <==> exists i :: 0 <= i < |es'| && HasMonth(es'[i].historical, m))
    {
      MakeEntryMonth(sheet, code, mv, m);
      TotalsTakeAt(es, t, MakeEntry(sheet, code, mv), mv, m);
    }
  }

  /** The product loop keeps the entries well formed. */
  lemma {:induction false} TakeAllEntries(st: Step, sheet: string, codes: seq<string>, mvs: seq<map<string, Option<real>>>, k: nat)
    requires k <= |codes| == |mvs| && EntriesGood(st.products)
    ensures EntriesGood(TakeAll(st, sheet, codes, mvs, k).products)
  {
    if k > 0 {
      TakeAllEntries(st, sheet, codes, mvs, k - 1);
      TakeEntry(TakeAll(st, sheet, codes, mvs, k - 1), sheet, codes[k - 1], mvs[k - 1]);
    }
  }

  /** The product loop keeps the totals matched. */
  lemma {:induction false} TakeAllTotals(st: Step, sheet: string, codes: seq<string>, mvs: seq<map<string, Option<real>>>, k: nat)
    requires k <= |codes| == |mvs| && TotalsMatch(st.products, st.totals)
    requires forall i :: 0 <= i < |mvs| ==> FiscalKeys(mvs[i])
    ensures TotalsMatch(TakeAll(st, sheet, codes, mvs, k).products, TakeAll(st, sheet, codes, mvs, k).totals)
  {
    if k > 0 {
      TakeAllTotals(st, sheet, codes, mvs, k - 1);
      TakeTotals(TakeAll(st, sheet, codes, mvs, k - 1), sheet, codes[k - 1], mvs[k - 1]);
    }
  }

  /** Taking one product keeps the entries well formed. */
  lemma TakeEntry(p: Step, sheet: string, code: string, mv: map<string, Option<real>>)
    requires EntriesGood(p.products)
    ensures EntriesGood(TakeProduct(p, sheet, code, mv).products)
  {
    if HasHistory(mv) {
      MakeEntryGood(sheet, code, mv);
      assert TakeProduct(p, sheet, code, mv).products == p.products + [MakeEntry(sheet, code, mv)];
    }
  }

  /** Taking one product keeps the totals matched. */
  lemma TakeTotals(p: Step, sheet: string, code: string, mv: map<string, Option<real>>)
    requires TotalsMatch(p.products, p.totals) && FiscalKeys(mv)
    ensures TotalsMatch(TakeProduct(p, sheet, code, mv).products, TakeProduct(p, sheet, code, mv).totals)
  {
    if HasHistory(mv) {
      TotalsTake(p.products, p.totals, sheet, code, mv);
      assert TakeProduct(p, sheet, code, mv).products == p.products + [MakeEntry(sheet, code, mv)];
      assert TakeProduct(p, sheet, code, mv).totals == Accumulate(p.totals, mv);
    }
  }

  /** The product loop only appends, tags what it appends with the sheet,
      and has stored something in the sheet's data exactly when it appended. */
  lemma {:induction false} TakeAllAppends(st: Step, sheet: string, codes: seq<string>, mvs: seq<map<string, Option<real>>>, k: nat)
    requires k <= |codes| == |mvs|
    ensures var r := TakeAll(st, sheet, codes, mvs, k);
            |st.products| <= |r.products| && r.products[..|st.products|] == st.products
            && (forall i :: |st.products| <= i < |r.products| ==> r.products[i].sheet == sheet)
            && (|r.products| == |st.products| ==> r.local == st.local)
            && (|r.products| > |st.products| ==> r.local != map[])
  {
    if k > 0 {
      TakeAllAppends(st, sheet, codes, mvs, k - 1);
      var p := TakeAll(st, sheet, codes, mvs, k - 1);
      if HasHistory(mvs[k - 1]) {
        var r := TakeAll(st, sheet, codes, mvs, k);
        assert r.products[..|p.products|] == p.products;
        assert r.products[..|st.products|] == p.products[..|st.products|];
        assert codes[k - 1] in r.local;
      }
    }
  }

  /** The product loop appends exactly the kept entries. */
  lemma {:induction false} TakeAllKept(st: Step, sheet: string, codes: seq<string>, mvs: seq<map<string, Option<real>>>, k: nat)
    requires k <= |codes| == |mvs|
    ensures TakeAll(st, sheet, codes, mvs, k).products == st.products + Kept(sheet, codes, mvs, k)
  {
    if k > 0 {
      TakeAllKept(st, sheet, codes, mvs, k - 1);
    }
  }

  /** An entry is kept exactly when it is made from one of the first k
      products with historical months, and the entries follow the products'
      order. */
  lemma KeptSpec(sheet: string, codes: seq<string>, mvs: seq<map<string, Option<real>>>, k: nat)
    requires k <= |codes| == |mvs|
    ensures forall i :: 0 <= i < k && HasHistory(mvs[i]) ==> MakeEntry(sheet, codes[i], mvs[i]) in Kept(sheet, codes, mvs, k)
    ensures forall e :: e in Kept(sheet, codes, mvs, k) ==>
              exists i :: 0 <= i < k && HasHistory(mvs[i]) && e == MakeEntry(sheet, codes[i], mvs[i])
    ensures |Kept(sheet, codes, mvs, k)| <= k
  {
    KeptComplete(sheet, codes, mvs, k);
    KeptSound(sheet, codes, mvs, k);
  }

  lemma KeptComplete(sheet: string, codes: seq<string>, mvs: seq<map<string, Option<real>>>, k: nat)
    requires k <= |codes| == |mvs|
    ensures forall i :: 0 <= i < k && HasHistory(mvs[i]) ==> MakeEntry(sheet, codes[i], mvs[i]) in Kept(sheet, codes, mvs, k)
  {
    forall i | 0 <= i < k && HasHistory(mvs[i]) ensures MakeEntry(sheet, codes[i], mvs[i]) in Kept(sheet, codes, mvs, k) {
      KeptHas(sheet, codes, mvs, k, i);
    }
  }

  /** Product i, with historical months, has its entry among the first k. */
  lemma {:induction false} KeptHas(sheet: string, codes: seq<string>, mvs: seq<map<string, Option<real>>>, k: nat, i: nat)
    requires i < k <= |codes| == |mvs| && HasHistory(mvs[i])
    ensures MakeEntry(sheet, codes[i], mvs[i]) in Kept(sheet, codes, mvs, k)
  {
    var e := MakeEntry(sheet, codes[i], mvs[i]);
    var before := Kept(sheet, codes, mvs, k - 1);
    var last := if HasHistory(mvs[k - 1]) then [MakeEntry(sheet, codes[k - 1], mvs[k - 1])] else [];
    assert Kept(sheet, codes, mvs, k) == before + last;
    if i < k - 1 {
      KeptHas(sheet, codes, mvs, k - 1, i);
      assert e in before;
    } else {
      assert e in last;
    }
  }

  lemma {:induction false} KeptSound(sheet: string, codes: seq<string>, mvs: seq<map<string, Option<real>>>, k: nat)
    requires k <= |codes| == |mvs|
    ensures forall e :: e in Kept(sheet, codes, mvs, k) ==>
              exists i :: 0 <= i < k && HasHistory(mvs[i]) && e == MakeEntry(sheet, codes[i], mvs[i])
    ensures |Kept(sheet, codes, mvs, k)| <= k
  {
    if k > 0 {
      KeptSound(sheet, codes, mvs, k - 1);
      var before := Kept(sheet, codes, mvs, k - 1);
      assert Kept(sheet, codes, mvs, k) == before + (if HasHistory(mvs[k - 1]) then [MakeEntry(sheet, codes[k - 1], mvs[k - 1])] else []);
    }
  }

  /** Every product detected on a sheet with month columns and having
      historical months has its own entry for that sheet, and every entry
      of the sheet comes from such a product. */
  lemma SheetEntriesSpec(sheet: string, g: Grid)
    ensures var hr := HeaderRow(g);
            var mc := ComprehensiveColumns(g, hr);
            var ps := ComprehensiveProducts(g, StartRow(hr));
            var mvs := ProductTotals(g, ps, mc);
            (mc == map[] ==> SheetEntries(sheet, g) == [])
            && (mc != map[] ==>
                  (forall i :: 0 <= i < |ps| && HasHistory(mvs[i]) ==> MakeEntry(sheet, ps[i].code, mvs[i]) in SheetEntries(sheet, g))
                  && (forall e :: e in SheetEntries(sheet, g) ==>
                        exists i :: 0 <= i < |ps| && HasHistory(mvs[i]) && e == MakeEntry(sheet, ps[i].code, mvs[i])))
  {
    var hr := HeaderRow(g);
    var mc := ComprehensiveColumns(g, hr);
    var ps := ComprehensiveProducts(g, StartRow(hr));
    KeptSpec(sheet, Codes(ps), ProductTotals(g, ps, mc), |ps|);
  }

  /** The loop's state is well formed. */
  ghost predicate AccGood(acc: Acc)
  {
    EntriesGood(acc.products) && TotalsMatch(acc.products, acc.totals) && RawMatch(acc.raw, acc.products)
  }

  /** The month totals of a sheet's products are keyed by fiscal months. */
  lemma SheetMonthsFiscal(g: Grid, hr: Option<nat>, ps: seq<Product>)
    ensures var mvs := ProductTotals(g, ps, ComprehensiveColumns(g, hr));
            forall i :: 0 <= i < |mvs| ==> FiscalKeys(mvs[i])
  {
    var mc := ComprehensiveColumns(g, hr);
    var mvs := ProductTotals(g, ps, mc);
    forall i, m | 0 <= i < |mvs| && m in mvs[i] ensures m in FiscalMonths {
      assert mvs[i] == MonthTotals(g, BlockRows(g, ps[i].row, 30), mc);
      ColumnsAreFiscal(g, hr, m);
    }
  }

  /** A sheet keeps raw_sheets matched to the entries' tags. */
  lemma SheetRaw(acc: Acc, sheet: string, g: Grid)
    requires RawMatch(acc.raw, acc.products)
    ensures RawMatch(SheetStep(acc, sheet, g).raw, SheetStep(acc, sheet, g).products)
  {
    var hr := HeaderRow(g);
    var mc := ComprehensiveColumns(g, hr);
    if mc != map[] {
      var ps := ComprehensiveProducts(g, StartRow(hr));
      var st := Step(map[], acc.products, acc.totals);
      var t := TakeAll(st, sheet, Codes(ps), ProductTotals(g, ps, mc), |ps|);
      TakeAllAppends(st, sheet, Codes(ps), ProductTotals(g, ps, mc), |ps|);
      var r := SheetStep(acc, sheet, g);
      assert r.raw == (if t.local != map[] then acc.raw[sheet := t.local] else acc.raw);
      assert r.products == t.products;
      forall n ensures n in r.raw <==> exists i :: 0 <= i < |r.products| && r.products[i].sheet == n {
        RawAt(acc, t, sheet, n);
      }
    }
  }

  /** One sheet name's membership after the sheet's product loop. */
  lemma RawAt(acc: Acc, t: Step, sheet: string, n: string)
    requires RawMatch(acc.raw, acc.products)
    requires |acc.products| <= |t.products| && t.products[..|acc.products|] == acc.products
    requires forall i :: |acc.products| <= i < |t.products| ==> t.products[i].sheet == sheet
    requires |t.products| == |acc.products| ==> t.local == map[]
    requires |t.products| > |acc.products| ==> t.local != map[]
    ensures var raw := if t.local != map[] then acc.raw[sheet := t.local] else acc.raw;
            n in raw <==> exists i :: 0 <= i < |t.products| && t.products[i].sheet == n
  {
    var k := |acc.products|;
    if exists i :: 0 <= i < k && acc.products[i].sheet == n {
      var i :| 0 <= i < k && acc.products[i].sheet == n;
      assert t.products[i] == t.products[..k][i];
    }
    if exists i :: 0 <= i < |t.products| && t.products[i].sheet == n {
      var i :| 0 <= i < |t.products| && t.products[i].sheet == n;
      if i < k {
        assert t.products[i] == t.products[..k][i];
      }
    }
    if |t.products| > k {
      assert t.products[k].sheet == sheet;
    }
  }

  /** A sheet keeps the state well formed. */
  lemma SheetGood(acc: Acc, sheet: string, g: Grid)
    requires AccGood(acc)
    ensures AccGood(SheetStep(acc, sheet, g))
  {
    var hr := HeaderRow(g);
    var mc := ComprehensiveColumns(g, hr);
    if mc != map[] {
      var ps := ComprehensiveProducts(g, StartRow(hr));
      var st := Step(map[], acc.products, acc.totals);
      SheetMonthsFiscal(g, hr, ps);
      TakeAllEntries(st, sheet, Codes(ps), ProductTotals(g, ps, mc), |ps|);
      TakeAllTotals(st, sheet, Codes(ps), ProductTotals(g, ps, mc), |ps|);
    }
    SheetRaw(acc, sheet, g);
  }

  /** The sheet loop keeps the state well formed. */
  lemma {:induction false} SheetsGood(acc: Acc, sheets: seq<(string, Grid)>, k: nat)
    requires k <= |sheets| && AccGood(acc)
    ensures AccGood(SheetsFold(acc, sheets, k))
  {
    if k > 0 {
      var prev := SheetsFold(acc, sheets, k - 1);
      var (name, g) := sheets[k - 1];
      SheetsGood(acc, sheets, k - 1);
      SheetGood(prev, name, g);
      assert SheetsFold(acc, sheets, k) == SheetStep(prev, name, g);
    }
  }

  /** A month some entry has is a fiscal month. */
  lemma EntryMonthFiscal(es: seq<Entry>, i: nat, m: string)
    requires EntriesGood(es) && i < |es| && HasMonth(es[i].historical, m)
    ensures m in FiscalMonths
  {
    var j :| 0 <= j < |es[i].historical| && es[i].historical[j].0 == m;
    assert EntryGood(es[i]);
  }

  /** Matched totals are keyed by fiscal months, and have a month exactly
      when there is an entry. */
  lemma TotalsShape(es: seq<Entry>, t: map<string, real>)
    requires EntriesGood(es) && TotalsMatch(es, t)
    ensures forall m :: m in t ==> m in FiscalMonths
    ensures t == map[] <==> |es| == 0
  {
    forall m | m in t ensures m in FiscalMonths {
      var i :| 0 <= i < |es| && HasMonth(es[i].historical, m);
      EntryMonthFiscal(es, i, m);
    }
    if |es| > 0 {
      assert EntryGood(es[0]);
      var m := es[0].historical[0].0;
      assert HasMonth(es[0].historical, m);
      assert m in t;
    }
    if t != map[] {
      var m :| m in t;
      var i :| 0 <= i < |es| && HasMonth(es[i].historical, m);
      assert |es| > 0;
    }
  }

  /** The overall block of fiscal-month totals holds the months of the
      totals with their totals. */
  lemma OverallOfMonths(t: map<string, real>)
    requires forall m :: m in t ==> m in FiscalMonths
    ensures var o := OverallOf(t);
            |o.months| == |o.historical|
            && (forall j :: 0 <= j < |o.months| ==> o.months[j] in t && o.historical[j] == t[o.months[j]])
            && (forall m :: m in t <==> m in o.months)
  {
    if t != map[] {
      var s := FiscalSeries(Lift(t), 12);
      forall m | m in t ensures m in s.months {
        var k := FiscalIndex(m).value;
        assert FiscalMonths[k] == m;
      }
      var m0 :| m0 in t;
      assert m0 in s.months;
    }
  }

  /** The overall months are in fiscal order, and there are twelve
      predictions of their window mean; nothing at all without totals. */
  lemma OverallOfShape(t: map<string, real>)
    requires forall m :: m in t ==> m in FiscalMonths
    ensures var o := OverallOf(t);
            (forall i, j :: 0 <= i < j < |o.months| ==>
               FiscalIndex(o.months[i]).Some? && FiscalIndex(o.months[j]).Some?
               && FiscalIndex(o.months[i]).value < FiscalIndex(o.months[j]).value)
            && (|o.historical| == 0 <==> t == map[])
            && (t == map[] ==> o.predicted == [])
            && (t != map[] ==>
                  (|o.predicted| == 12
                   && forall i :: 0 <= i < 12 ==> o.predicted[i] == (NextLabel(FiscalMonths[i]), WindowMean(o.historical))))
  {
    if t != map[] {
      var s := FiscalSeries(Lift(t), 12);
      var m0 :| m0 in t;
      var k := FiscalIndex(m0).value;
      assert FiscalMonths[k] == m0;
      assert m0 in s.months;
    }
  }

  /** The loop over every named sheet, from the empty state. */
  function Folded(sheets: seq<(string, Grid)>): Acc
  {
    SheetsFold(Acc(map[], [], map[]), sheets, |sheets|)
  }

  lemma FoldedGood(sheets: seq<(string, Grid)>)
    ensures AccGood(Folded(sheets))
  {
    var acc0 := Acc(map[], [], map[]);
    assert AccGood(acc0) by {
      forall m ensures Get0(acc0.totals, m) == MonthSum(acc0.products, m) { }
    }
    SheetsGood(acc0, sheets, |sheets|);
  }

  /** The final totals are keyed by fiscal months, and there are some
      exactly when there are entries. */
  lemma FoldedShape(sheets: seq<(string, Grid)>)
    ensures forall m :: m in Folded(sheets).totals ==> m in FiscalMonths
    ensures Folded(sheets).totals == map[] <==> |Folded(sheets).products| == 0
  {
    FoldedGood(sheets);
    TotalsShape(Folded(sheets).products, Folded(sheets).totals);
  }

  /** The products and raw_sheets of a well-formed state: well-formed
      entries, and raw_sheets holds exactly the sheets they came from. */
  lemma DataProducts(acc: Acc, n: nat)
    requires AccGood(acc)
    ensures var d := DataOf(acc, n);
            EntriesGood(d.products)
            && forall s :: s in d.rawSheets <==> exists i :: 0 <= i < |d.products| && d.products[i].sheet == s
  {
  }

  /** The overall months of a well-formed state add the entries up month
      by month: exactly the months some entry has, each with its sum over
      the entries. */
  lemma DataMonths(acc: Acc, n: nat)
    requires EntriesGood(acc.products) && TotalsMatch(acc.products, acc.totals)
    ensures var d := DataOf(acc, n);
            var o := d.overall;
            |o.months| == |o.historical|
            && (forall j :: 0 <= j < |o.months| ==> o.historical[j] == MonthSum(d.products, o.months[j]))
            && (forall m :: m in o.months <==> exists i :: 0 <= i < |d.products| && HasMonth(d.products[i].historical, m))
  {
    TotalsShape(acc.products, acc.totals);
    OverallOfMonths(acc.totals);
    var o := OverallOf(acc.totals);
    forall j | 0 <= j < |o.months| ensures o.historical[j] == MonthSum(acc.products, o.months[j]) {
      assert Get0(acc.totals, o.months[j]) == MonthSum(acc.products, o.months[j]);
    }
  }

  /** The overall months of a well-formed state are in fiscal order, there
      are some exactly when there are entries, and then twelve predictions
      of their window mean. */
  lemma DataShape(acc: Acc, n: nat)
    requires forall m :: m in acc.totals ==> m in FiscalMonths
    requires acc.totals == map[] <==> |acc.products| == 0
    ensures var d := DataOf(acc, n);
            var o := d.overall;
            (forall i, j :: 0 <= i < j < |o.months| ==>
               FiscalIndex(o.months[i]).Some? && FiscalIndex(o.months[j]).Some?
               && FiscalIndex(o.months[i]).value < FiscalIndex(o.months[j]).value)
            && (|o.historical| == 0 <==> |d.products| == 0)
            && (|d.products| == 0 ==> o.predicted == [])
            && (|d.products| > 0 ==>
                  (|o.predicted| == 12
                   && forall i :: 0 <= i < 12 ==> o.predicted[i] == (NextLabel(FiscalMonths[i]), WindowMean(o.historical))))
  {
    OverallOfShape(acc.totals);
  }

  /** The summary of a state with fiscal-month totals: the number of
      sheets and of products, twelve times the window mean of the overall
      months (0.0 without any), and the sum of the overall months. */
  lemma DataSummary(acc: Acc, n: nat)
    requires forall m :: m in acc.totals ==> m in FiscalMonths
    ensures var d := DataOf(acc, n);
            d.summary.totalSheets == n
            && d.summary.totalProducts == |d.products|
            && d.summary.totalForecast == (if |d.overall.historical| == 0 then 0.0 else 12.0 * WindowMean(d.overall.historical))
            && d.summary.totalRawMaterial == Sum(d.overall.historical)
  {
    OverallOfShape(acc.totals);
    var o := OverallOf(acc.totals);
    if acc.totals != map[] {
      var x := WindowMean(o.historical);
      var v := Values(o.predicted);
      assert |v| == 12;
      forall i | 0 <= i < |v| ensures v[i] == x {
        assert o.predicted[i] == (NextLabel(FiscalMonths[i]), x);
      }
      SumConstant(v, x);
    }
  }

  /** extract_all_sheets_data over the workbook's named sheets: its final
      state is well formed, so DataProducts, DataMonths, DataShape and
      DataSummary describe its result; the main facts are restated here. */
  lemma ComprehensiveExtractSpec(sheets: seq<(string, Grid)>)
    ensures var d := ComprehensiveExtract(sheets);
            var o := d.overall;
            EntriesGood(d.products)
            && (forall s :: s in d.rawSheets <==> exists i :: 0 <= i < |d.products| && d.products[i].sheet == s)
            && (forall j :: 0 <= j < |o.months| ==> j < |o.historical| && o.historical[j] == MonthSum(d.products, o.months[j]))
            && (forall m :: m in o.months <==> exists i :: 0 <= i < |d.products| && HasMonth(d.products[i].historical, m))
            && (|o.historical| == 0 <==> |d.products| == 0)
            && d.summary.totalSheets == |sheets|
            && d.summary.totalProducts == |d.products|
            && d.products == AllEntries(sheets, |sheets|)
  {
    var acc := Folded(sheets);
    FoldedGood(sheets);
    DataProducts(acc, |sheets|);
    DataMonths(acc, |sheets|);
    TotalsShape(acc.products, acc.totals);
    DataShape(acc, |sheets|);
    DataSummary(acc, |sheets|);
  }

  /** A code found with data on two sheets gives two entries, one per
      sheet, in sheet order: the products list is the first sheet's
      entries followed by the second's. */
  lemma TwoSheetEntries(a: string, ga: Grid, b: string, gb: Grid)
    ensures ComprehensiveExtract([(a, ga), (b, gb)]).products == SheetEntries(a, ga) + SheetEntries(b, gb)
  {
    var sheets := [(a, ga), (b, gb)];
    assert AllEntries(sheets, 1) == SheetEntries(a, ga);
  }

  /** extract_all_sheets_data's forecast: the overall months in fiscal
      order, twelve '<month>_next' predictions of their window mean when
      there are products, and the summary's forecast and raw-material
      totals. */
  lemma ComprehensiveExtractForecast(sheets: seq<(string, Grid)>)
    ensures var d := ComprehensiveExtract(sheets);
            var o := d.overall;
            (forall i, j :: 0 <= i < j < |o.months| ==>
               FiscalIndex(o.months[i]).Some? && FiscalIndex(o.months[j]).Some?
               && FiscalIndex(o.months[i]).value < FiscalIndex(o.months[j]).value)
            && (|d.products| == 0 ==> o.predicted == [] && d.summary.totalForecast == 0.0)
            && (|d.products| > 0 ==>
                  (|o.historical| > 0 && |o.predicted| == 12
                   && (forall i :: 0 <= i < 12 ==> o.predicted[i] == (NextLabel(FiscalMonths[i]), WindowMean(o.historical)))
                   && d.summary.totalForecast == 12.0 * WindowMean(o.historical)))
            && d.summary.totalRawMaterial == Sum(o.historical)
  {
    var acc := Folded(sheets);
    FoldedShape(sheets);
    DataShape(acc, |sheets|);
    DataSummary(acc, |sheets|);
  }

  // ---------------------------------------------------------------------
  // The loops of extract_all_sheets_data

  /** One product of the product loop: its month totals over 30 rows, its
      present months in fiscal order and, when there is one, its entry,
      its raw_sheets data and its months added to the overall totals. */
  method TakeProductStep(st: Step, sheet: string, g: Grid, mc: map<string, nat>, p: Product) returns (out: Step)
    ensures out == TakeProduct(st, sheet, p.code, MonthTotals(g, BlockRows(g, p.row, 30), mc))
  {
    var mv := ExtractMonthlyValues(g, BlockRows(g, p.row, 30), mc);
    var s := HistoricalSeries(mv);
    if |s.values| == 0 {
      out := st;
    } else {
      var e := Entry(p.code, sheet, Pairs(s), LabelledAll(PlainForecast(s.values, 12)));
      var totals := AddTotals(st.totals, mv);
      out := Step(st.local[p.code := SheetProduct(e.historical, e.predicted, TargetMonths())], st.products + [e], totals);
    }
  }

  /** The product loop of one sheet, in detection order. */
  method TakeProducts(st: Step, sheet: string, g: Grid, mc: map<string, nat>, ps: seq<Product>) returns (out: Step)
    ensures out == TakeAll(st, sheet, Codes(ps), ProductTotals(g, ps, mc), |ps|)
  {
    out := st;
    for i := 0 to |ps|
      invariant out == TakeAll(st, sheet, Codes(ps), ProductTotals(g, ps, mc), i)
    {
      assert Codes(ps)[i] == ps[i].code;
      assert ProductTotals(g, ps, mc)[i] == MonthTotals(g, BlockRows(g, ps[i].row, 30), mc);
      out := TakeProductStep(out, sheet, g, mc, ps[i]);
    }
  }

  /** One sheet: its header row, its month columns (the sheet is skipped
      without any), its products from the row after the header, and its
      data stored under its name when some product had months. */
  method ProcessSheet(acc: Acc, sheet: string, g: Grid) returns (out: Acc)
    ensures out == SheetStep(acc, sheet, g)
  {
    var hr := DetectHeaderRow(g);
    var mc := DetectMonthColumns(g, hr);
    if mc == map[] {
      out := acc;
    } else {
      var ps := DetectAllProducts(g, StartRow(hr));
      var st := TakeProducts(Step(map[], acc.products, acc.totals), sheet, g, mc, ps);
      var raw := acc.raw;
      if st.local != map[] {
        raw := raw[sheet := st.local];
      }
      out := Acc(raw, st.products, st.totals);
    }
  }

  /** The sheet loop, over every named sheet in order. */
  method ProcessSheets(sheets: seq<(string, Grid)>) returns (acc: Acc)
    ensures acc == Folded(sheets)
  {
    acc := Acc(map[], [], map[]);
    for i := 0 to |sheets|
      invariant acc == SheetsFold(Acc(map[], [], map[]), sheets, i)
    {
      acc := ProcessSheet(acc, sheets[i].0, sheets[i].1);
    }
  }

  /** The overall block: the totals of the fiscal months in order and the
      forecast of their values. */
  method BuildOverall(totals: map<string, real>) returns (o: Overall)
    ensures o == OverallOf(totals)
  {
    o := Overall([], [], []);
    if totals != map[] {
      var s := HistoricalSeries(Lift(totals));
      if |s.values| > 0 {
        o := Overall(s.months, s.values, LabelledAll(PlainForecast(s.values, 12)));
      }
    }
  }

  /** extract_all_sheets_data over the workbook's named sheets. */
  method ExtractAllSheetsData(sheets: seq<(string, Grid)>) returns (d: AllSheetsData)
    ensures d == ComprehensiveExtract(sheets)
  {
    var acc := ProcessSheets(sheets);
    var o := BuildOverall(acc.totals);
    d := AllSheetsData(acc.raw, acc.products, o, Summary(|sheets|, |acc.products|, Sum(Values(o.predicted)), Sum(o.historical)));
  }
}

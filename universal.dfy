/** The universal extractor (excel_handler/universal_extractor.py): every
    sheet is scanned for month headers (first occurrence wins, D..O only
    when the header names no month), for product codes in its first three
    columns (known codes by containment, other product-like texts as
    themselves), and each product's month columns are summed over the 30
    rows from its own row. Products met on several sheets are merged month
    by month, and the overall month totals are forecast by the 3-window
    mean for the six fiscal months after the last one present. */
module Universal {
  import opened Sheet
  import opened Months
  import opened Scan
  import opened Series

  // ---------------------------------------------------------------------
  // normalize_month_name

  /** The header text a cell reads as: its text, stripped. */
  function HeaderText(c: Cell): string
  {
    Strip(CellText(c))
  }

  /** The text lowered, without dots, stripped. */
  function LoweredText(text: string): string
  {
    Strip(Remove(Lower(text), '.'))
  }

  /** normalize_month_name: a text with '月' takes the month of the first
      table key it contains; otherwise the lowered text is looked up in the
      whole table, with the digit fallback. */
  function UniversalMonth(c: Cell): (m: Option<string>)
    ensures m.Some? ==> m.value in MonthNames
    ensures c.Blank? ==> m.None?
  {
    if c.Blank? then None
    else
      var text := HeaderText(c);
      var hit := if Contains(text, "月") then FirstVariant(Variants, text) else None;
      if hit.Some? then Some(MonthNames[hit.value - 1])
      else LookupMonthJapanese(LoweredText(text))
  }

  /** A text holding '月' names the month of the first table key, in table
      order, that occurs in it. */
  lemma UniversalFirstKey(c: Cell, i: nat)
    requires !c.Blank? && Contains(HeaderText(c), "月")
    requires i < |Variants| && Contains(HeaderText(c), Variants[i].0)
    requires forall j :: 0 <= j < i ==> !Contains(HeaderText(c), Variants[j].0)
    ensures UniversalMonth(c) == Some(MonthNames[Variants[i].1 - 1])
  {
    FirstVariantIs(Variants, HeaderText(c), i);
  }

  /** A text that lacks a character lacks every text starting with it. */
  lemma {:induction false} LacksFirst(s: string, sub: string)
    requires |sub| > 0 && forall i :: 0 <= i < |s| ==> s[i] != sub[0]
    ensures !Contains(s, sub)
    decreases |s|
  {
    if |s| > 0 {
      assert s[0] != sub[0];
      assert forall i :: 0 <= i < |s[1..]| ==> s[1..][i] == s[i + 1];
      LacksFirst(s[1..], sub);
    }
  }

  /** A two-character key that occurs nowhere in a text of the form d0月. */
  lemma LacksPair(s: string, sub: string)
    requires |s| == 3 && |sub| == 2 && s[2] == '月'
    requires forall i :: 0 <= i < 2 ==> s[i] != sub[0] || s[i + 1] != sub[1]
    requires sub[0] != '月'
    ensures !Contains(s, sub)
  {
    assert !(sub <= s);
    assert s[1..][1..] == [s[2]];
    LacksFirst(s[1..][1..], sub);
    assert !(sub <= s[1..]);
  }

  /** A text of the form '1d月' holds '月' and key '1', but none of the
      three keys before '1' in the table. */
  lemma LateJapaneseKeys(t: string)
    requires |t| == 3 && t[0] == '1' && '0' <= t[1] <= '2' && t[2] == '月'
    ensures Contains(t, "月") && Contains(t, Variants[3].0)
    ensures forall j :: 0 <= j < 3 ==> !Contains(t, Variants[j].0)
  {
    assert t[..1] == "1";
    assert t[1..][1..] == "月";
    LacksFirst(t, "jan");
    LacksFirst(t, "january");
    LacksPair(t, "01");
    assert Variants[0].0 == "jan" && Variants[1].0 == "january" && Variants[2].0 == "01" && Variants[3].0 == "1";
  }

  /** A cell '1d月' reads as January: key '1', fourth in the table, is the
      first key it contains. */
  lemma LateJapaneseIsJanuary(t: string)
    requires |t| == 3 && t[0] == '1' && '0' <= t[1] <= '2' && t[2] == '月'
    ensures UniversalMonth(Str(t)) == Some("January")
  {
    StripId(t);
    LateJapaneseKeys(t);
    assert Variants[3].1 == 1;
    UniversalFirstKey(Str(t), 3);
  }

  /** '10月', '11月' and '12月' all read as January. */
  lemma LateJapaneseMonthsAreJanuary(t: string)
    requires t == "10月" || t == "11月" || t == "12月"
    ensures UniversalMonth(Str(t)) == Some("January")
  {
    LateJapaneseIsJanuary(t);
  }

  /** The digit fallback: a text without '月' whose lowered form is no table
      key but a digit string of value n in 1..12 names the n-th calendar
      month. */
  lemma UniversalDigitFallback(c: Cell, n: MonthNumber)
    requires !c.Blank? && !Contains(HeaderText(c), "月")
    requires VariantNumber(LoweredText(HeaderText(c))).None?
    requires DigitMonth(LoweredText(HeaderText(c))) == Some(n)
    ensures UniversalMonth(c) == Some(MonthNames[n - 1])
  {
    var t := LoweredText(HeaderText(c));
    DigitsNotJapanese(t);
    assert UniversalMonth(c) == LookupMonthJapanese(t);
  }

  /** The '月' keys are not digit strings. */
  lemma DigitsNotJapanese(t: string)
    requires IsDigits(t)
    ensures JapaneseNumber(t).None?
  {
    assert IsDigit(t[|t| - 1]);
  }

  // ---------------------------------------------------------------------
  // detect_month_columns

  /** The header window: the first 10 rows by the first 30 columns. */
  function HeaderRows(g: Grid): nat { Min(10, |g|) }
  function HeaderCols(g: Grid): nat { Min(30, Width(g)) }

  /** The header scan, first occurrence winning. */
  function HeaderColumns(g: Grid): map<string, nat>
  {
    FirstInWindow(UniversalMonth, g, HeaderRows(g), HeaderCols(g), map[])
  }

  /** detect_month_columns: the header scan, or D..O when it found nothing. */
  function UniversalColumns(g: Grid): map<string, nat>
  {
    var h := HeaderColumns(g);
    if h == map[] then Positional(Width(g), 12) else h
  }

  /** The header scan records exactly the months some window cell names. */
  lemma HeaderKeys(g: Grid, m: string)
    ensures m in HeaderColumns(g) <==> InWindow(UniversalMonth, g, HeaderRows(g), HeaderCols(g), m)
  {
    WindowKeys(UniversalMonth, g, HeaderRows(g), HeaderCols(g), map[], m);
  }

  /** Each month is recorded at the column of its first row-major occurrence
      in the window. */
  lemma HeaderFirstOccurrence(g: Grid, m: string)
    requires m in HeaderColumns(g)
    ensures var k, cols := HeaderColumns(g)[m], HeaderCols(g);
            k < cols
            && exists r :: (0 <= r < HeaderRows(g) && UniversalMonth(At(g, r, k)) == Some(m)
                            && forall r', c' :: Before(r', c', r, k, cols) ==> UniversalMonth(At(g, r', c')) != Some(m))
  {
    WindowFirst(UniversalMonth, g, HeaderRows(g), HeaderCols(g), map[], m);
  }

  /** The header wins whenever it names some month. */
  lemma HeaderWins(g: Grid, m: string)
    requires InWindow(UniversalMonth, g, HeaderRows(g), HeaderCols(g), m)
    ensures UniversalColumns(g) == HeaderColumns(g)
  {
    HeaderKeys(g, m);
  }

  /** The D..O mapping is used when the header names no month. */
  lemma PositionalFallback(g: Grid)
    requires forall m :: !InWindow(UniversalMonth, g, HeaderRows(g), HeaderCols(g), m)
    ensures UniversalColumns(g) == Positional(Width(g), 12)
  {
    if HeaderColumns(g) != map[] {
      var m :| m in HeaderColumns(g);
      HeaderKeys(g, m);
    }
  }

  /** The detector's loops. */
  method DetectMonthColumns(g: Grid) returns (mc: map<string, nat>)
    ensures mc == UniversalColumns(g)
  {
    mc := ScanFirst(UniversalMonth, g, HeaderRows(g), HeaderCols(g), map[]);
    if mc == map[] {
      mc := PositionalColumns(Width(g));
    }
  }

  // ---------------------------------------------------------------------
  // detect_product_blocks

  /** KNOWN_PRODUCTS, in list order. */
  const KnownProducts: seq<string> := ["MCT360", "MCT165", "MCTSTICK10", "MCTSTICK30", "MCTSTICK16", "MCTITTO_C"]

  /** Either text occurs in the other. */
  predicate Matches(cell: string, known: string)
  {
    Contains(cell, known) || Contains(known, cell)
  }

  /** The first entry of the list that the cell text matches. */
  function FirstKnown(tbl: seq<string>, cell: string): (r: Option<string>)
    ensures r.None? <==> forall i :: 0 <= i < |tbl| ==> !Matches(cell, tbl[i])
    ensures r.Some? ==> exists i :: 0 <= i < |tbl| && r.value == tbl[i] && Matches(cell, tbl[i])
                                   && forall j :: 0 <= j < i ==> !Matches(cell, tbl[j])
  {
    if |tbl| == 0 then None
    else if Matches(cell, tbl[0]) then Some(tbl[0])
    else
      var r := FirstKnown(tbl[1..], cell);
      assert forall i :: 1 <= i < |tbl| ==> tbl[i] == tbl[1..][i - 1];
      if r.Some? then
        var i :| 0 <= i < |tbl[1..]| && r.value == tbl[1..][i] && Matches(cell, tbl[1..][i])
                 && forall j :: 0 <= j < i ==> !Matches(cell, tbl[1..][j]);
        assert forall j :: 0 <= j < i + 1 ==> !Matches(cell, tbl[j]) by {
          forall j | 0 <= j < i + 1 ensures !Matches(cell, tbl[j]) {
            if j > 0 { assert tbl[j] == tbl[1..][j - 1]; }
          }
        }
        r
      else r
  }

  /** An unmatched text is a product code when it has a letter, two or more
      characters, and is not all digits once '.' and '-' are removed. */
  predicate ProductLike(s: string)
  {
    HasLetter(s) && |s| >= 2 && !IsDigits(Remove(Remove(s, '.'), '-'))
  }

  /** A cell's text, stripped and uppercased. */
  function CodeText(c: Cell): string
  {
    Upper(Strip(CellText(c)))
  }

  /** What one cell announces: a known product it matches, named by the cell
      text, or the product-like text itself. */
  function UniversalSpot(c: Cell): Option<(string, string)>
  {
    if c.Blank? then None
    else
      var s := CodeText(c);
      if |s| < 2 then None
      else
        match FirstKnown(KnownProducts, s)
        case Some(k) => Some((k, s))
        case None => if ProductLike(s) then Some((s, s)) else None
  }

  /** A cell announces a product exactly when it is not blank, its text has
      two or more characters, and the text matches a known product (which is
      then the code) or is product-like (and is then the code itself). */
  lemma UniversalSpotSpec(c: Cell)
    ensures var s := CodeText(c);
            var sp := UniversalSpot(c);
            (sp.Some? <==> !c.Blank? && |s| >= 2
                           && ((exists i :: 0 <= i < |KnownProducts| && Matches(s, KnownProducts[i])) || ProductLike(s)))
            && (sp.Some? ==>
                  sp.value.1 == s
                  && ((sp.value.0 in KnownProducts && Matches(s, sp.value.0))
                      || (sp.value.0 == s && ProductLike(s)
                          && forall i :: 0 <= i < |KnownProducts| ==> !Matches(s, KnownProducts[i]))))
  {
  }

  /** The product blocks of a sheet, scanned from row 0
      (detect_product_blocks). */
  function UniversalProducts(g: Grid): seq<Product>
  {
    ProductsFrom(UniversalSpot, g, 0, |g|, Min(3, Width(g)))
  }

  /** The codes are pairwise distinct (so each known product is reported at
      most once); every product is announced by its own cell in the first
      three columns; every announcing cell's code is listed; and no earlier
      cell announces the same code. */
  lemma UniversalProductsSpec(g: Grid)
    ensures var ps, cols := UniversalProducts(g), Min(3, Width(g));
            (forall i, j :: 0 <= i < j < |ps| ==> ps[i].code != ps[j].code)
            && (forall i :: 0 <= i < |ps| ==>
                  ps[i].row < |g| && ps[i].col < cols
                  && UniversalSpot(At(g, ps[i].row, ps[i].col)) == Some((ps[i].code, ps[i].name)))
            && (forall r, c :: 0 <= r < |g| && 0 <= c < cols && UniversalSpot(At(g, r, c)).Some? ==>
                  HasCode(ps, UniversalSpot(At(g, r, c)).value.0))
            && (forall i, r, c ::
                  0 <= i < |ps| && 0 <= r < |g| && 0 <= c < cols && CellBefore(r, c, ps[i].row, ps[i].col)
                  && UniversalSpot(At(g, r, c)).Some? ==>
                  UniversalSpot(At(g, r, c)).value.0 != ps[i].code)
  {
    var cols := Min(3, Width(g));
    ProductsScanned(UniversalSpot, g, 0, |g|, cols);
    assert forall r, c :: 0 <= r < |g| && 0 <= c < cols ==> Seen(r, c, 0, |g|, 0, cols);
  }

  /** Each product's code is a known product its cell text matches, or the
      product-like cell text itself. */
  lemma UniversalCodesQualify(g: Grid, i: nat)
    requires i < |UniversalProducts(g)|
    ensures var p := UniversalProducts(g)[i];
            (p.code in KnownProducts && Matches(p.name, p.code)) || (p.code == p.name && ProductLike(p.code))
  {
    UniversalProductsSpec(g);
    var p := UniversalProducts(g)[i];
    UniversalSpotSpec(At(g, p.row, p.col));
  }

  /** The detector's loops. */
  method DetectProductBlocks(g: Grid) returns (ps: seq<Product>)
    ensures ps == UniversalProducts(g)
  {
    ps := ScanProducts(UniversalSpot, g, 0, |g|, Min(3, Width(g)));
  }

  // ---------------------------------------------------------------------
  // _calculate_predictions

  /** The index of the last fiscal month among the first k present in h, or -1. */
  function LastFiscal(h: map<string, real>, k: nat): (i: int)
    requires k <= 12
    ensures -1 <= i < k
    ensures i >= 0 ==> FiscalMonths[i] in h
    ensures forall j :: i < j < k ==> FiscalMonths[j] !in h
  {
    if k == 0 then -1 else if FiscalMonths[k - 1] in h then k - 1 else LastFiscal(h, k - 1)
  }

  /** The fiscal month i places after fiscal month `last`, wrapping mod 12. */
  function MonthAfter(last: nat, i: nat): string
  {
    FiscalMonths[(last + i) % 12]
  }

  /** The n fiscal months after fiscal month `last`, each carrying v. */
  function Upcoming(last: nat, n: nat, v: real): map<string, real>
  {
    if n == 0 then map[] else Upcoming(last, n - 1, v)[MonthAfter(last, n) := v]
  }

  /** _calculate_predictions(historical_data, num_months). */
  function Predictions(h: map<string, real>, n: nat): map<string, real>
  {
    if h == map[] then map[]
    else
      var vals := FiscalSeries(Lift(h), 12).values;
      if |vals| == 0 then map[]
      else
        var last := LastFiscal(h, 12);
        if last >= 0 then Upcoming(last, n, WindowMean(vals)) else map[]
  }

  /** A month is a key exactly when it lies 1 .. n places after `last`, and
      every value is v. */
  lemma {:induction false} UpcomingHas(last: nat, n: nat, v: real, m: string)
    ensures m in Upcoming(last, n, v) <==> exists i :: 1 <= i <= n && m == MonthAfter(last, i)
    ensures m in Upcoming(last, n, v) ==> Upcoming(last, n, v)[m] == v
  {
    if n > 0 {
      UpcomingHas(last, n - 1, v, m);
      if m != MonthAfter(last, n) && exists i :: 1 <= i <= n && m == MonthAfter(last, i) {
        var i :| 1 <= i <= n && m == MonthAfter(last, i);
        assert i < n;
      }
    }
  }

  lemma UpcomingSpec(last: nat, n: nat, v: real)
    ensures forall m :: m in Upcoming(last, n, v) <==> exists i :: 1 <= i <= n && m == MonthAfter(last, i)
    ensures forall m :: m in Upcoming(last, n, v) ==> Upcoming(last, n, v)[m] == v
  {
    forall m ensures (m in Upcoming(last, n, v) <==> exists i :: 1 <= i <= n && m == MonthAfter(last, i))
                     && (m in Upcoming(last, n, v) ==> Upcoming(last, n, v)[m] == v) {
      UpcomingHas(last, n, v, m);
    }
  }

  /** Two distinct steps of fewer than a year land on distinct months. */
  lemma StepsDistinct(last: nat, i: nat, n: nat)
    requires 1 <= i < n <= 12
    ensures MonthAfter(last, i) != MonthAfter(last, n)
  {
    var q, r := (last + i) / 12, (last + i) % 12;
    var d := n - i;
    assert last + n == 12 * q + r + d;
    if r + d < 12 {
      assert (last + n) % 12 == r + d;
    } else {
      assert last + n == 12 * (q + 1) + (r + d - 12);
      assert (last + n) % 12 == r + d - 12;
    }
    FiscalIndexOf(r);
    FiscalIndexOf((last + n) % 12);
  }

  /** Up to a year ahead the months do not repeat: there are n of them. */
  lemma {:induction false} UpcomingSize(last: nat, n: nat, v: real)
    requires n <= 12
    ensures |Upcoming(last, n, v)| == n
  {
    if n > 0 {
      var prev := Upcoming(last, n - 1, v);
      UpcomingSize(last, n - 1, v);
      var m := MonthAfter(last, n);
      UpcomingHas(last, n - 1, v, m);
      if m in prev {
        var i :| 1 <= i <= n - 1 && m == MonthAfter(last, i);
        StepsDistinct(last, i, n);
      }
      assert Upcoming(last, n, v) == prev[m := v];
    }
  }

  /** A history without fiscal months has an empty fiscal series. */
  lemma {:induction false} SeriesWithoutFiscal(h: map<string, real>, k: nat)
    requires k <= 12
    requires forall j :: 0 <= j < 12 ==> FiscalMonths[j] !in h
    ensures FiscalSeries(Lift(h), k).values == []
  {
    if k > 0 {
      SeriesWithoutFiscal(h, k - 1);
    }
  }

  /** With no fiscal month in the history there is no prediction. */
  lemma PredictionsNone(h: map<string, real>, n: nat)
    requires forall j :: 0 <= j < 12 ==> FiscalMonths[j] !in h
    ensures Predictions(h, n) == map[]
  {
    SeriesWithoutFiscal(h, 12);
  }

  /** Otherwise the predictions are keyed by the n fiscal months after the
      last one present (wrapping mod 12), n distinct keys for n <= 12, all
      carrying the 3-window mean of the history in fiscal order. */
  lemma PredictionsSpec(h: map<string, real>, n: nat, j: nat)
    requires j < 12 && FiscalMonths[j] in h
    ensures var p, last := Predictions(h, n), LastFiscal(h, 12);
            var vals := FiscalSeries(Lift(h), 12).values;
            j <= last && FiscalMonths[last] in h && (forall j' :: last < j' < 12 ==> FiscalMonths[j'] !in h)
            && |vals| > 0
            && (forall m :: m in p <==> exists i :: 1 <= i <= n && m == MonthAfter(last, i))
            && (forall m :: m in p ==> p[m] == WindowMean(vals))
            && (n <= 12 ==> |p| == n)
  {
    var s := FiscalSeries(Lift(h), 12);
    assert FiscalMonths[j] in s.months;
    var last := LastFiscal(h, 12);
    assert Predictions(h, n) == Upcoming(last, n, WindowMean(s.values));
    UpcomingSpec(last, n, WindowMean(s.values));
    if n <= 12 {
      UpcomingSize(last, n, WindowMean(s.values));
    }
  }

  /** The loop that finds the fiscal index of the last month present in h. */
  method FindLastFiscal(h: map<string, real>) returns (last: int)
    ensures last == LastFiscal(h, 12)
  {
    last := -1;
    var i := 0;
    while i < 12
      invariant i <= 12
      invariant last == LastFiscal(h, i)
    {
      if FiscalMonths[i] in h {
        last := i;
      }
      i := i + 1;
    }
  }

  /** The loop that gives v to each of the next num_months fiscal months after the last one, wrapping round the year. */
  method FillUpcoming(last: nat, n: nat, v: real) returns (p: map<string, real>)
    ensures p == Upcoming(last, n, v)
  {
    p := map[];
    var k := 0;
    while k < n
      invariant k <= n
      invariant p == Upcoming(last, k, v)
    {
      p := p[MonthAfter(last, k + 1) := v];
      k := k + 1;
    }
  }

  /** _calculate_predictions. */
  method CalculatePredictions(h: map<string, real>, n: nat) returns (p: map<string, real>)
    ensures p == Predictions(h, n)
  {
    if h == map[] {
      return map[];
    }
    var s := HistoricalSeries(Lift(h));
    if |s.values| == 0 {
      return map[];
    }
    var forecast := WindowMean(s.values);
    var last := FindLastFiscal(h);
    p := map[];
    if last >= 0 {
      p := FillUpcoming(last, n, forecast);
    }
  }

  // ---------------------------------------------------------------------
  // extract: the merge loop

  /** A product's merged months: its historical and its predicted values by month. */
  datatype Merged = Merged(historical: map<string, real>, predicted: map<string, real>)

  /** What the sheet loop carries: the product codes in first-insertion
      order, their merged months, and the overall monthly totals. */
  datatype Accum = Accum(order: seq<string>, products: map<string, Merged>, totals: map<string, real>)

  /** The result: the products (with their dict order) and the overall
      historical and predicted months. */
  datatype Extraction = Extraction(order: seq<string>, products: map<string, Merged>,
                                   overallHistorical: map<string, real>, overallPredicted: map<string, real>)

  const NoProducts := Accum([], map[], map[])

  /** One product of one sheet: its present months, when there are any,
      are merged with dict.update into the product's entry (created empty
      on first sight), its predictions likewise, and added to the totals. */
  function Merge(st: Accum, code: string, mv: map<string, Option<real>>): Accum
  {
    var h := Known(mv);
    if h == map[] then st
    else
      var prev := if code in st.products then st.products[code] else Merged(map[], map[]);
      Accum(if code in st.products then st.order else st.order + [code],
            st.products[code := Merged(prev.historical + h, prev.predicted + Predictions(h, 6))],
            Accumulate(st.totals, Lift(h)))
  }

  /** The monthly values of every product, each summed over the 30 rows
      from its own row (extract_monthly_values_for_product). */
  function ProductTotals(g: Grid, ps: seq<Product>, mc: map<string, nat>): (mvs: seq<map<string, Option<real>>>)
    ensures |mvs| == |ps|
  {
    seq(|ps|, i requires 0 <= i < |ps| => MonthTotals(g, BlockRows(g, ps[i].row, 30), mc))
  }

  /** The first k products of a sheet merged in order. */
  function MergeAll(st: Accum, codes: seq<string>, mvs: seq<map<string, Option<real>>>, k: nat): Accum
    requires k <= |codes| == |mvs|
  {
    if k == 0 then st else Merge(MergeAll(st, codes, mvs, k - 1), codes[k - 1], mvs[k - 1])
  }

  /** One sheet: skipped without month columns, otherwise every detected
      product merged in detection order. */
  function MergeSheet(st: Accum, g: Grid): Accum
  {
    var mc := UniversalColumns(g);
    if mc == map[] then st
    else
      var ps := UniversalProducts(g);
      MergeAll(st, Codes(ps), ProductTotals(g, ps, mc), |ps|)
  }

  /** The first k sheets, each taken by `step`. */
  function SheetFold(step: (Accum, Grid) -> Accum, st: Accum, sheets: seq<Grid>, k: nat): Accum
    requires k <= |sheets|
  {
    if k == 0 then st else step(SheetFold(step, st, sheets, k - 1), sheets[k - 1])
  }

  /** The first k sheets merged. */
  function MergeSheets(st: Accum, sheets: seq<Grid>, k: nat): Accum
    requires k <= |sheets|
  {
    SheetFold(MergeSheet, st, sheets, k)
  }

  /** UniversalDataExtractor.extract over the workbook's sheets: the overall
      months are the totals and their predictions, or both empty when there
      are no totals. */
  function UniversalExtract(sheets: seq<Grid>): Extraction
  {
    Finish(MergeSheets(NoProducts, sheets, |sheets|))
  }

  /** The result built from the merged state. */
  function Finish(st: Accum): Extraction
  {
    if st.totals == map[] then Extraction(st.order, st.products, map[], map[])
    else Extraction(st.order, st.products, st.totals, Predictions(st.totals, 6))
  }

  // ---------------------------------------------------------------------
  // What merging keeps

  /** The carried state is well formed: the order lists each product once,
      exactly the products with an entry; every entry has some historical
      month; and the totals hold exactly the months some product has. */
  ghost predicate Good(st: Accum)
  {
    OrderGood(st) && HistoryGood(st) && TotalsGood(st)
  }

  ghost predicate OrderGood(st: Accum)
  {
    (forall i, j :: 0 <= i < j < |st.order| ==> st.order[i] != st.order[j])
    && (forall c :: c in st.products <==> c in st.order)
  }

  ghost predicate HistoryGood(st: Accum)
  {
    forall c :: c in st.products ==> st.products[c].historical != map[]
  }

  ghost predicate TotalsGood(st: Accum)
  {
    forall m :: m in st.totals <==> exists c :: c in st.products && m in st.products[c].historical
  }

  /** dict.update on the product's entry: the later sheet's months
      overwrite the earlier ones, months only the earlier sheet has are
      kept, predictions likewise, and other products are untouched; a
      product without a present month changes nothing. */
  lemma MergeEntry(st: Accum, code: string, mv: map<string, Option<real>>)
    ensures var h, r := Known(mv), Merge(st, code, mv);
            (h == map[] ==> r == st)
            && (h != map[] ==>
                  var old_ := if code in st.products then st.products[code] else Merged(map[], map[]);
                  var e := r.products[code];
                  r.products.Keys == st.products.Keys + {code}
                  && (forall c :: c in st.products && c != code ==> r.products[c] == st.products[c])
                  && (forall m :: m in e.historical <==> m in old_.historical || m in h)
                  && (forall m :: m in h ==> e.historical[m] == h[m])
                  && (forall m :: m in old_.historical && m !in h ==> e.historical[m] == old_.historical[m])
                  && (forall m :: m in e.predicted <==> m in old_.predicted || m in Predictions(h, 6))
                  && (forall m :: m in Predictions(h, 6) ==> e.predicted[m] == Predictions(h, 6)[m]))
  {
    var h, r := Known(mv), Merge(st, code, mv);
    if h != map[] {
      var prev := if code in st.products then st.products[code] else Merged(map[], map[]);
      assert r.products == st.products[code := Merged(prev.historical + h, prev.predicted + Predictions(h, 6))];
    }
  }

  /** Each present month is added to its overall total; the other totals
      are kept. */
  lemma MergeTotals(st: Accum, code: string, mv: map<string, Option<real>>)
    ensures var h, r := Known(mv), Merge(st, code, mv);
            (forall m :: m in r.totals <==> m in st.totals || m in h)
            && (forall m :: m in h ==> r.totals[m] == Get0(st.totals, m) + h[m])
            && (forall m :: m in st.totals && m !in h ==> r.totals[m] == st.totals[m])
  {
    var h := Known(mv);
    if h != map[] {
      AccumulateSpec(st.totals, Lift(h));
    }
  }

  /** The shape of a merge with some present month, on keys only. */
  lemma MergeKeys(st: Accum, code: string, mv: map<string, Option<real>>)
    requires Known(mv) != map[]
    ensures var h, r := Known(mv), Merge(st, code, mv);
            r.order == (if code in st.products then st.order else st.order + [code])
            && r.products.Keys == st.products.Keys + {code}
            && (forall c :: c in st.products && c != code ==> r.products[c] == st.products[c])
            && r.products[code].historical.Keys
               == (if code in st.products then st.products[code].historical.Keys else {}) + h.Keys
            && r.totals.Keys == st.totals.Keys + h.Keys
  {
    var h, r := Known(mv), Merge(st, code, mv);
    var prev := if code in st.products then st.products[code] else Merged(map[], map[]);
    assert r.products == st.products[code := Merged(prev.historical + h, prev.predicted + Predictions(h, 6))];
    assert r.products[code].historical.Keys == prev.historical.Keys + h.Keys;
    MergeTotals(st, code, mv);
    assert r.totals.Keys == st.totals.Keys + h.Keys;
  }

  /** The order still lists each product once, exactly those with an entry. */
  lemma OrderStep(st: Accum, r: Accum, code: string)
    requires OrderGood(st)
    requires r.order == (if code in st.products then st.order else st.order + [code])
    requires r.products.Keys == st.products.Keys + {code}
    ensures OrderGood(r)
  {
    if code !in st.products {
      forall i | 0 <= i < |st.order| ensures st.order[i] != code {
        assert st.order[i] in st.products;
      }
    }
  }

  /** The totals still hold exactly the months some product has: one month. */
  lemma TotalsStepAt(st: Accum, r: Accum, code: string, h: map<string, real>, m: string)
    requires TotalsGood(st)
    requires r.products.Keys == st.products.Keys + {code}
    requires forall c :: c in st.products && c != code ==> r.products[c] == st.products[c]
    requires r.products[code].historical.Keys
             == (if code in st.products then st.products[code].historical.Keys else {}) + h.Keys
    requires r.totals.Keys == st.totals.Keys + h.Keys
    ensures m in r.totals <==> exists c :: c in r.products && m in r.products[c].historical
  {
    if m in r.totals {
      TotalsHave(st, r, code, h, m);
    }
    forall c | c in r.products && m in r.products[c].historical ensures m in r.totals {
      TotalsHeld(st, r, code, h, c, m);
    }
  }

  /** A month some product of the new state has is in the new totals. */
  lemma TotalsHeld(st: Accum, r: Accum, code: string, h: map<string, real>, c: string, m: string)
    requires TotalsGood(st)
    requires r.products.Keys == st.products.Keys + {code}
    requires forall c :: c in st.products && c != code ==> r.products[c] == st.products[c]
    requires r.products[code].historical.Keys
             == (if code in st.products then st.products[code].historical.Keys else {}) + h.Keys
    requires r.totals.Keys == st.totals.Keys + h.Keys
    requires c in r.products && m in r.products[c].historical
    ensures m in r.totals
  {
    if c != code {
      assert m in st.products[c].historical;
    } else if m !in h {
      assert m in st.products[code].historical;
    }
  }

  /** A month of the new totals is held by some product. */
  lemma TotalsHave(st: Accum, r: Accum, code: string, h: map<string, real>, m: string)
    requires TotalsGood(st)
    requires r.products.Keys == st.products.Keys + {code}
    requires forall c :: c in st.products && c != code ==> r.products[c] == st.products[c]
    requires r.products[code].historical.Keys
             == (if code in st.products then st.products[code].historical.Keys else {}) + h.Keys
    requires m in st.totals.Keys + h.Keys
    ensures exists c :: c in r.products && m in r.products[c].historical
  {
    if m in h {
      assert m in r.products[code].historical;
    } else {
      var c :| c in st.products && m in st.products[c].historical;
      assert c in r.products && m in r.products[c].historical;
    }
  }

  lemma TotalsStep(st: Accum, r: Accum, code: string, h: map<string, real>)
    requires TotalsGood(st)
    requires r.products.Keys == st.products.Keys + {code}
    requires forall c :: c in st.products && c != code ==> r.products[c] == st.products[c]
    requires r.products[code].historical.Keys
             == (if code in st.products then st.products[code].historical.Keys else {}) + h.Keys
    requires r.totals.Keys == st.totals.Keys + h.Keys
    ensures TotalsGood(r)
  {
    forall m ensures m in r.totals <==> exists c :: c in r.products && m in r.products[c].historical {
      TotalsStepAt(st, r, code, h, m);
    }
  }

  /** Every entry still has some historical month. */
  lemma HistoryStep(st: Accum, r: Accum, code: string, h: map<string, real>)
    requires HistoryGood(st) && h != map[]
    requires r.products.Keys == st.products.Keys + {code}
    requires forall c :: c in st.products && c != code ==> r.products[c] == st.products[c]
    requires r.products[code].historical.Keys
             == (if code in st.products then st.products[code].historical.Keys else {}) + h.Keys
    ensures HistoryGood(r)
  {
    var m0 :| m0 in h;
    assert m0 in r.products[code].historical;
  }

  /** A state of that shape is well formed when the one it came from is. */
  lemma GoodStep(st: Accum, r: Accum, code: string, h: map<string, real>)
    requires Good(st) && h != map[]
    requires r.order == (if code in st.products then st.order else st.order + [code])
    requires r.products.Keys == st.products.Keys + {code}
    requires forall c :: c in st.products && c != code ==> r.products[c] == st.products[c]
    requires r.products[code].historical.Keys
             == (if code in st.products then st.products[code].historical.Keys else {}) + h.Keys
    requires r.totals.Keys == st.totals.Keys + h.Keys
    ensures Good(r)
  {
    OrderStep(st, r, code);
    HistoryStep(st, r, code, h);
    TotalsStep(st, r, code, h);
  }

  /** Merging one product keeps the state well formed. */
  lemma MergeGood(st: Accum, code: string, mv: map<string, Option<real>>)
    requires Good(st)
    ensures Good(Merge(st, code, mv))
  {
    if Known(mv) != map[] {
      MergeKeys(st, code, mv);
      GoodStep(st, Merge(st, code, mv), code, Known(mv));
    }
  }

  lemma {:induction false} MergeAllGood(st: Accum, codes: seq<string>, mvs: seq<map<string, Option<real>>>, k: nat)
    requires k <= |codes| == |mvs| && Good(st)
    ensures Good(MergeAll(st, codes, mvs, k))
  {
    if k > 0 {
      MergeAllGood(st, codes, mvs, k - 1);
      MergeGood(MergeAll(st, codes, mvs, k - 1), codes[k - 1], mvs[k - 1]);
    }
  }

  lemma MergeSheetGood(st: Accum, g: Grid)
    requires Good(st)
    ensures Good(MergeSheet(st, g))
  {
    var mc := UniversalColumns(g);
    if mc != map[] {
      var ps := UniversalProducts(g);
      MergeAllGood(st, Codes(ps), ProductTotals(g, ps, mc), |ps|);
    }
  }

  lemma {:induction false} FoldGood(step: (Accum, Grid) -> Accum, st: Accum, sheets: seq<Grid>, k: nat)
    requires k <= |sheets| && Good(st)
    requires forall a: Accum, g: Grid :: Good(a) ==> Good(step(a, g))
    ensures Good(SheetFold(step, st, sheets, k))
  {
    if k > 0 {
      FoldGood(step, st, sheets, k - 1);
    }
  }

  lemma MergeSheetsGood(sheets: seq<Grid>, k: nat)
    requires k <= |sheets|
    ensures Good(MergeSheets(NoProducts, sheets, k))
  {
    forall a: Accum, g: Grid | Good(a) ensures Good(MergeSheet(a, g)) {
      MergeSheetGood(a, g);
    }
    FoldGood(MergeSheet, NoProducts, sheets, k);
  }

  /** The result lists each product once, each with some historical month;
      the overall historical months are exactly the months some product
      has; the overall predictions are those of the overall history; and
      the overall months are empty exactly when no product was found. */
  lemma UniversalExtractSpec(sheets: seq<Grid>)
    ensures var x := UniversalExtract(sheets);
            (forall i, j :: 0 <= i < j < |x.order| ==> x.order[i] != x.order[j])
            && (forall c :: c in x.products <==> c in x.order)
            && (forall c :: c in x.products ==> x.products[c].historical != map[])
            && (forall m :: m in x.overallHistorical <==> exists c :: c in x.products && m in x.products[c].historical)
            && x.overallPredicted == Predictions(x.overallHistorical, 6)
            && (x.overallHistorical == map[] <==> x.products == map[])
  {
    var st := MergeSheets(NoProducts, sheets, |sheets|);
    MergeSheetsGood(sheets, |sheets|);
    if st.products != map[] {
      var c :| c in st.products;
      var m :| m in st.products[c].historical;
      assert m in st.totals;
    }
  }

  // ---------------------------------------------------------------------
  // The extractor's loops

  /** The loop that keeps each month with a value. */
  method PresentMonths(mv: map<string, Option<real>>) returns (h: map<string, real>)
    ensures h == Known(mv)
  {
    h := map[];
    var todo := mv.Keys;
    while todo != {}
      invariant todo <= mv.Keys
      invariant h == Known(Without(mv, todo))
      decreases todo
    {
      var m :| m in todo;
      KnownStep(mv, todo, m);
      if mv[m].Some? {
        h := h[m := mv[m].value];
      }
      todo := todo - {m};
    }
    assert Without(mv, {}) == mv;
  }

  lemma KnownStep(mv: map<string, Option<real>>, todo: set<string>, m: string)
    requires m in todo && todo <= mv.Keys
    ensures Known(Without(mv, todo - {m}))
            == if mv[m].Some? then Known(Without(mv, todo))[m := mv[m].value] else Known(Without(mv, todo))
  {
  }

  /** One product of a sheet. */
  method MergeProduct(st: Accum, g: Grid, mc: map<string, nat>, p: Product) returns (out: Accum)
    ensures out == Merge(st, p.code, MonthTotals(g, BlockRows(g, p.row, 30), mc))
  {
    var monthly := ExtractMonthlyValues(g, BlockRows(g, p.row, 30), mc);
    var h := PresentMonths(monthly);
    if h == map[] {
      return st;
    }
    var predicted := CalculatePredictions(h, 6);
    var order, prev := st.order, Merged(map[], map[]);
    if p.code in st.products {
      prev := st.products[p.code];
    } else {
      order := order + [p.code];
    }
    var totals := AddTotals(st.totals, Lift(h));
    out := Accum(order, st.products[p.code := Merged(prev.historical + h, prev.predicted + predicted)], totals);
  }

  /** The product loop of one sheet. */
  method MergeProducts(st: Accum, g: Grid, mc: map<string, nat>, ps: seq<Product>) returns (out: Accum)
    ensures out == MergeAll(st, Codes(ps), ProductTotals(g, ps, mc), |ps|)
  {
    out := st;
    var k := 0;
    while k < |ps|
      invariant k <= |ps|
      invariant out == MergeAll(st, Codes(ps), ProductTotals(g, ps, mc), k)
    {
      out := MergeProduct(out, g, mc, ps[k]);
      k := k + 1;
    }
  }

  /** One sheet of the loop. */
  method ProcessSheet(st: Accum, g: Grid) returns (out: Accum)
    ensures out == MergeSheet(st, g)
  {
    var mc := DetectMonthColumns(g);
    if mc == map[] {
      return st;
    }
    var ps := DetectProductBlocks(g);
    out := MergeProducts(st, g, mc, ps);
  }

  /** The result structure, with the overall predictions. */
  method BuildResult(st: Accum) returns (result: Extraction)
    ensures result == Finish(st)
  {
    result := Extraction(st.order, st.products, map[], map[]);
    if st.totals != map[] {
      var predicted := CalculatePredictions(st.totals, 6);
      result := Extraction(st.order, st.products, st.totals, predicted);
    }
  }

  /** The i-th turn of the sheet loop. */
  method ProcessNextSheet(st0: Accum, sheets: seq<Grid>, i: nat, st: Accum) returns (out: Accum)
    requires i < |sheets| && st == MergeSheets(st0, sheets, i)
    ensures out == MergeSheets(st0, sheets, i + 1)
  {
    out := ProcessSheet(st, sheets[i]);
  }

  /** The sheet loop of extract. */
  method ProcessSheets(st0: Accum, sheets: seq<Grid>) returns (st: Accum)
    ensures st == MergeSheets(st0, sheets, |sheets|)
  {
    st := st0;
    for i := 0 to |sheets|
      invariant st == MergeSheets(st0, sheets, i)
    {
      st := ProcessNextSheet(st0, sheets, i, st);
    }
  }

  /** UniversalDataExtractor: `extract` walks every sheet and stores its
      result in all_products_data. The workbook's sheets are given as grids. */
  class UniversalDataExtractor {
    var allProductsData: Extraction

    constructor ()
      ensures allProductsData == Extraction([], map[], map[], map[])
    {
      allProductsData := Extraction([], map[], map[], map[]);
    }

    method Extract(sheets: seq<Grid>) returns (result: Extraction)
      modifies this
      ensures result == UniversalExtract(sheets)
      ensures allProductsData == result
    {
      var st := ProcessSheets(NoProducts, sheets);
      result := BuildResult(st);
      allProductsData := result;
    }
  }
}

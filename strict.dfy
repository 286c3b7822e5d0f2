/** The strict extractor: values are taken only from the cells of the
    workbook. A workbook is validated first; then each product block's
    "current" rows are summed per month column and forecast with the
    3-window moving average. */
module Strict {
  import opened Sheet
  import opened Months
  import opened Scan
  import opened Series
  import opened Views

  // ---------------------------------------------------------------------
  // normalize_month_name

  /** The label after the case and '月' steps: dots dropped, then stripped. */
  function MonthText(t: string): string
  {
    Strip(Remove(DropJapanese(t), '.'))
  }

  /** normalize_month_name: the cell's text stripped and lowered, a trailing '月'
      dropped, dots dropped, stripped again, then the MONTH_VARIANTS table
      and the digit fallback. */
  function NormalizeMonthName(c: Cell): (m: Option<string>)
    ensures c.Blank? ==> m.None?
    ensures m.Some? ==> m.value in MonthNames
  {
    if c.Blank? then None else LookupMonth(MonthText(Lower(Strip(CellText(c)))))
  }

  /** A capitalised word is looked up as its lowered self. */
  lemma NormalizeCapitalised(s: string)
    requires Capitalised(s)
    ensures NormalizeMonthName(Str(s)) == LookupMonth(Lower(s))
  {
    StripId(s);
    var t := Lower(s);
    assert forall i :: 0 <= i < |t| ==> 'a' <= t[i] <= 'z';
    assert !EndsWith(t, "月");
    assert Remove(t, '.') == t;
    StripId(t);
  }

  /** Every month name normalises to itself. */
  lemma MonthNameFixed(n: MonthNumber)
    ensures NormalizeMonthName(Str(MonthNames[n - 1])) == Some(MonthNames[n - 1])
  {
    NameIsKey(n);
    NameLooksUp(n);
    NormalizeCapitalised(MonthNames[n - 1]);
  }

  /** Normalising an output again returns it. */
  lemma NormalizeIdempotent(c: Cell)
    requires NormalizeMonthName(c).Some?
    ensures NormalizeMonthName(Str(NormalizeMonthName(c).value)) == NormalizeMonthName(c)
  {
    NamesFixed(NormalizeMonthName(c).value);
  }

  lemma NamesFixed(m: string)
    requires m in MonthNames
    ensures NormalizeMonthName(Str(m)) == Some(m)
  {
    var k :| 0 <= k < 12 && MonthNames[k] == m;
    NameIsKey(k + 1);
    NameLooksUp(k + 1);
    NormalizeCapitalised(m);
  }

  /** A plain word (no spaces, dots or '月') is looked up as its lowered self. */
  lemma NormalizeWord(s: string, w: string)
    requires Strip(s) == w
    requires forall i :: 0 <= i < |w| ==> !IsSpace(w[i]) && w[i] != '.' && w[i] != '月'
    ensures NormalizeMonthName(Str(s)) == LookupMonth(Lower(w))
  {
    var t := Lower(w);
    assert forall i :: 0 <= i < |t| ==> t[i] != '.' && t[i] != '月';
    assert !EndsWith(t, "月");
    assert Remove(t, '.') == t;
    if |t| > 0 {
      StripId(t);
    }
  }

  /** Lowering distributes over concatenation. */
  lemma LowerAppend(a: string, b: string)
    ensures Lower(a + b) == Lower(a) + Lower(b)
  {
    assert forall i :: 0 <= i < |a + b| ==> Lower(a + b)[i] == (Lower(a) + Lower(b))[i];
  }

  /** The label steps of a text that is a lowered word and '月'. */
  lemma MonthTextJapanese(lw: string)
    requires forall i :: 0 <= i < |lw| ==> !IsSpace(lw[i]) && lw[i] != '.' && lw[i] != '月'
    ensures MonthText(lw + "月") == lw
  {
    RemoveAppend(lw, "月", '月');
    assert Remove("月", '月') == "";
    assert lw + "" == lw;
    if |lw| > 0 {
      StripId(lw);
    }
  }

  /** A text label goes through the steps on its stripped text. */
  lemma NormalizeStr(s: string)
    ensures NormalizeMonthName(Str(s)) == LookupMonth(MonthText(Lower(Strip(s))))
  {
  }

  /** A word followed by '月' loses the '月' and is lowered. */
  lemma JapaneseText(t: string)
    requires |t| > 0 && t[|t| - 1] == '月'
    requires forall i :: 0 <= i < |t| - 1 ==> !IsSpace(t[i]) && t[i] != '.' && t[i] != '月'
    ensures MonthText(Lower(t)) == Lower(t[..|t| - 1])
  {
    var w := t[..|t| - 1];
    assert t == w + "月";
    LowerAppend(w, "月");
    assert Lower("月") == "月";
    var lw := Lower(w);
    assert forall i :: 0 <= i < |lw| ==> !IsSpace(lw[i]) && lw[i] != '.' && lw[i] != '月';
    MonthTextJapanese(lw);
  }

  /** A label that strips to a word followed by '月' is looked up as the
      lowered word. */
  lemma NormalizeJapanese(s: string)
    requires var t := Strip(s); |t| > 0 && t[|t| - 1] == '月'
    requires var t := Strip(s); forall i :: 0 <= i < |t| - 1 ==> !IsSpace(t[i]) && t[i] != '.' && t[i] != '月'
    ensures var t := Strip(s); NormalizeMonthName(Str(s)) == LookupMonth(Lower(t[..|t| - 1]))
  {
    NormalizeStr(s);
    JapaneseText(Strip(s));
  }

  lemma JapaneseFour(t: string)
    requires t == "4月"
    ensures MonthText(Lower(t)) == "4"
  {
    JapaneseText(t);
    assert t[..1] == "4";
    assert Lower("4") == "4";
  }

  lemma LetterWord(s: string)
    requires Strip(s) == "Apr" || Strip(s) == "APRIL"
    ensures NormalizeMonthName(Str(s)) == LookupMonth(Lower(Strip(s)))
  {
    NormalizeWord(s, Strip(s));
  }

  lemma DigitWord(s: string)
    requires Strip(s) == "04" || Strip(s) == "4"
    ensures NormalizeMonthName(Str(s)) == LookupMonth(Lower(Strip(s)))
  {
    NormalizeWord(s, Strip(s));
  }

  /** '4月' is the word '4' and '月'. */
  lemma AprLabel(s: string)
    requires Strip(s) == "Apr"
    ensures NormalizeMonthName(Str(s)) == Some("April")
  {
    LetterWord(s);
    LowerApr(Strip(s));
  }

  lemma AprilUpperLabel(s: string)
    requires Strip(s) == "APRIL"
    ensures NormalizeMonthName(Str(s)) == Some("April")
  {
    LetterWord(s);
    LowerApril(Strip(s));
  }

  lemma AprilDigitLabel(s: string)
    requires Strip(s) == "04" || Strip(s) == "4"
    ensures NormalizeMonthName(Str(s)) == Some("April")
  {
    DigitWord(s);
    LowerDigits(Strip(s));
  }

  lemma AprilJapaneseLabel(s: string)
    requires Strip(s) == "4月"
    ensures NormalizeMonthName(Str(s)) == Some("April")
  {
    NormalizeStr(s);
    JapaneseFour(Strip(s));
    FourLooksUp(MonthText(Lower(Strip(s))));
  }

  /** The April labels: 'Apr', 'APRIL', '04', '4' and '4月', up to
      surrounding whitespace ('APRIL ' among them), all normalise to 'April'. */
  lemma AprilLabels(s: string)
    requires Strip(s) == "Apr" || Strip(s) == "APRIL" || Strip(s) == "04" || Strip(s) == "4" || Strip(s) == "4月"
    ensures NormalizeMonthName(Str(s)) == Some("April")
  {
    if Strip(s) == "Apr" {
      AprLabel(s);
    } else if Strip(s) == "APRIL" {
      AprilUpperLabel(s);
    } else if Strip(s) == "4月" {
      AprilJapaneseLabel(s);
    } else {
      AprilDigitLabel(s);
    }
  }

  lemma LowerApr(s: string)
    requires s == "Apr"
    ensures LookupMonth(Lower(s)) == Some("April")
  {
    assert Lower(s) == "apr";
  }

  lemma LowerApril(s: string)
    requires s == "APRIL"
    ensures LookupMonth(Lower(s)) == Some("April")
  {
    assert Lower(s) == "april";
  }

  lemma FourLooksUp(x: string)
    requires x == "4"
    ensures LookupMonth(x) == Some("April")
  {
    assert Lower(x) == x;
  }

  lemma LowerDigits(s: string)
    requires s == "04" || s == "4"
    ensures LookupMonth(Lower(s)) == Some("April")
  {
    assert Lower(s) == s;
  }


  // ---------------------------------------------------------------------
  // detect_month_columns

  /** The month columns of a sheet: D..O for the fiscal months whose column
      exists, then the header window (first 5 rows by first 30 columns)
      adding only months not mapped yet. */
  function StrictColumns(g: Grid): map<string, nat>
  {
    FirstInWindow(NormalizeMonthName, g, Min(5, |g|), Min(30, Width(g)), Positional(Width(g), 12))
  }

  method DetectMonthColumns(g: Grid) returns (mc: map<string, nat>)
    ensures mc == StrictColumns(g)
  {
    var seed := PositionalColumns(Width(g));
    mc := ScanFirst(NormalizeMonthName, g, Min(5, |g|), Min(30, Width(g)), seed);
  }

  /** The positional mapping always wins: fiscal month i is in column 3 + i
      whenever that column exists, whatever the header says. */
  lemma PositionalWins(g: Grid, i: nat)
    requires i < 12 && 3 + i < Width(g)
    ensures FiscalMonths[i] in StrictColumns(g)
    ensures StrictColumns(g)[FiscalMonths[i]] == 3 + i
  {
    PositionalKeys(Width(g), i);
    WindowKeeps(NormalizeMonthName, g, Min(5, |g|), Min(30, Width(g)), Positional(Width(g), 12), FiscalMonths[i]);
  }

  /** A month is mapped iff its D..O column exists or the header window
      names it. */
  lemma StrictColumnsKeys(g: Grid, m: string)
    ensures m in StrictColumns(g) <==>
              m in Positional(Width(g), 12) || InWindow(NormalizeMonthName, g, Min(5, |g|), Min(30, Width(g)), m)
  {
    WindowKeys(NormalizeMonthName, g, Min(5, |g|), Min(30, Width(g)), Positional(Width(g), 12), m);
  }

  /** A month the header adds (not a positional one) sits at its first
      row-major occurrence in the 5-by-30 window. */
  lemma StrictColumnsFirst(g: Grid, m: string)
    ensures (m in StrictColumns(g) && m !in Positional(Width(g), 12)) ==>
              var k := StrictColumns(g)[m];
              k < Min(30, Width(g)) && exists r :: (0 <= r < Min(5, |g|) && NormalizeMonthName(At(g, r, k)) == Some(m)
                && forall r', c' :: Before(r', c', r, k, Min(30, Width(g))) ==> NormalizeMonthName(At(g, r', c')) != Some(m))
  {
    if m in StrictColumns(g) && m !in Positional(Width(g), 12) {
      WindowFirst(NormalizeMonthName, g, Min(5, |g|), Min(30, Width(g)), Positional(Width(g), 12), m);
    }
  }

  // ---------------------------------------------------------------------
  // detect_products_in_sheet

  /** A cell announces a product when it is not blank and its stripped text
      has at least 3 characters and a letter; the code is that text
      uppercased. */
  function StrictSpot(c: Cell): Option<(string, string)>
  {
    if c.Blank? then None
    else
      var t := Strip(CellText(c));
      if |t| >= 3 && HasLetter(t) then Some((Upper(t), t)) else None
  }

  /** The products of a sheet: rows top to bottom, columns A..C. */
  function StrictProducts(g: Grid): seq<Product>
  {
    ProductsFrom(StrictSpot, g, 0, |g|, Min(3, Width(g)))
  }

  method DetectProductsInSheet(g: Grid) returns (ps: seq<Product>)
    ensures ps == StrictProducts(g)
  {
    ps := ScanProducts(StrictSpot, g, 0, |g|, Min(3, Width(g)));
  }

  /** The product scan's invariant holds of the whole sheet: distinct
      codes, each product announced by its own cell of columns A..C,
      every announcing cell's code present, no earlier cell announcing a
      product's code, and the products in row-major order. */
  lemma StrictProductsScanned(g: Grid)
    ensures Scanned(StrictSpot, g, 0, |g|, 0, Min(3, Width(g)), StrictProducts(g))
  {
    ProductsScanned(StrictSpot, g, 0, |g|, Min(3, Width(g)));
  }

  /** Each detected product comes from a non-blank cell of columns A..C
      whose stripped text has at least 3 characters and a letter; its code
      is that text uppercased. */
  lemma StrictProductShape(g: Grid, i: nat)
    requires i < |StrictProducts(g)|
    ensures var p := StrictProducts(g)[i];
            p.col < Min(3, Width(g)) && p.row < |g| && At(g, p.row, p.col) != Blank
            && p.name == Strip(CellText(At(g, p.row, p.col)))
            && |p.name| >= 3 && HasLetter(p.name) && p.code == Upper(p.name)
  {
    StrictProductsScanned(g);
  }

  /** Codes are distinct even ignoring case. */
  lemma StrictCodesDistinct(g: Grid, i: nat, j: nat)
    requires i < j < |StrictProducts(g)|
    ensures Upper(StrictProducts(g)[i].code) != Upper(StrictProducts(g)[j].code)
  {
    StrictProductsScanned(g);
    StrictProductShape(g, i);
    StrictProductShape(g, j);
    UpperIdempotent(StrictProducts(g)[i].name);
    UpperIdempotent(StrictProducts(g)[j].name);
  }

  // ---------------------------------------------------------------------
  // identify_current_rows

  /** Some month column of row r holds a parseable value. */
  predicate HasData(g: Grid, r: nat, mc: map<string, nat>)
  {
    exists m :: m in mc && NormalizeNumeric(At(g, r, mc[m])).Some?
  }

  /** Row r has data, as a predicate on rows. */
  function DataP(g: Grid, mc: map<string, nat>): nat -> bool
  {
    (r: nat) => HasData(g, r, mc)
  }

  /** The rows of [lo, hi) where p holds, in ascending order. */
  function Hits(p: nat -> bool, lo: nat, hi: nat): seq<nat>
    decreases hi - lo
  {
    if hi <= lo then [] else (if p(lo) then [lo] else []) + Hits(p, lo + 1, hi)
  }

  /** The rows of [lo, hi) with data, in ascending order. */
  function DataRows(g: Grid, mc: map<string, nat>, lo: nat, hi: nat): seq<nat>
  {
    Hits(DataP(g, mc), lo, hi)
  }

  /** The last min(k, |s|) elements of s. */
  function Tail<T>(s: seq<T>, k: nat): (t: seq<T>)
    ensures |t| == Min(k, |s|)
  {
    s[|s| - Min(k, |s|)..]
  }

  /** The current rows of the block [lo, hi): its bottom-most 15 rows with
      data, in ascending order; none when the sheet has no month columns. */
  function CurrentRows(g: Grid, lo: nat, hi: nat): seq<nat>
  {
    var mc := StrictColumns(g);
    if |mc| == 0 then [] else Tail(DataRows(g, mc, lo, hi), 15)
  }

  lemma {:induction false} HitsSplit(p: nat -> bool, lo: nat, mid: nat, hi: nat)
    requires lo <= mid <= hi
    ensures Hits(p, lo, hi) == Hits(p, lo, mid) + Hits(p, mid, hi)
    decreases mid - lo
  {
    if lo < mid {
      HitsSplit(p, lo + 1, mid, hi);
    }
  }

  /** Whether some month column of row r parses (the inner loop, with its break). */
  method RowHasData(g: Grid, r: nat, mc: map<string, nat>) returns (b: bool)
    ensures b == HasData(g, r, mc)
  {
    var todo := mc.Keys;
    while todo != {}
      invariant todo <= mc.Keys
      invariant forall m :: m in mc && m !in todo ==> NormalizeNumeric(At(g, r, mc[m])).None?
      decreases |todo|
    {
      var m :| m in todo;
      if NormalizeNumeric(At(g, r, mc[m])).Some? {
        return true;
      }
      todo := todo - {m};
    }
    return false;
  }

  /** identify_current_rows: the month columns, then the bottom-up walk. */
  method IdentifyCurrentRows(g: Grid, lo: nat, hi: nat) returns (rows: seq<nat>)
    ensures rows == CurrentRows(g, lo, hi)
  {
    var mc := DetectMonthColumns(g);
    rows := [];
    if |mc| > 0 {
      rows := BottomRows(g, mc, lo, hi);
    }
  }

  /** Rows from hi - 1 down to lo, each row with data inserted at the
      front, stopping at 15. */
  method BottomRows(g: Grid, mc: map<string, nat>, lo: nat, hi: nat) returns (rows: seq<nat>)
    ensures rows == Tail(DataRows(g, mc, lo, hi), 15)
  {
    rows := [];
    if hi <= lo {
      return;
    }
    var p := DataP(g, mc);
    var r := hi;
    while r > lo
      invariant lo <= r <= hi
      invariant rows == Hits(p, r, hi)
      invariant |rows| < 15
    {
      r := r - 1;
      var has := false;
      if r < |g| {
        has := RowHasData(g, r, mc);
      } else {
        NoDataBelow(g, r, mc);
      }
      assert has == p(r);
      if has {
        rows := [r] + rows;
        if |rows| >= 15 {
          HitsSplit(p, lo, r, hi);
          return;
        }
      }
    }
  }

  /** Rows at or below the sheet's end have no data. */
  lemma NoDataBelow(g: Grid, r: nat, mc: map<string, nat>)
    requires r >= |g|
    ensures !HasData(g, r, mc)
  {
  }

  predicate Ascending(s: seq<nat>)
  {
    forall i, j :: 0 <= i < j < |s| ==> s[i] < s[j]
  }

  /** The hits are ascending and lie in [lo, hi). */
  lemma {:induction false} HitsAscending(p: nat -> bool, lo: nat, hi: nat)
    ensures var d := Hits(p, lo, hi);
            Ascending(d) && forall i :: 0 <= i < |d| ==> lo <= d[i] < hi
    decreases hi - lo
  {
    if lo < hi {
      HitsAscending(p, lo + 1, hi);
    }
  }

  /** The hits are exactly the rows of [lo, hi) where p holds. */
  lemma {:induction false} HitsMembers(p: nat -> bool, lo: nat, hi: nat, x: nat)
    ensures (lo <= x < hi && p(x)) <==> x in Hits(p, lo, hi)
    decreases hi - lo
  {
    if lo < hi {
      HitsMembers(p, lo + 1, hi, x);
    }
  }

  /** The last k hits: ascending, in [lo, hi) and satisfying p. */
  lemma TailOfHits(p: nat -> bool, lo: nat, hi: nat, k: nat)
    ensures var c := Tail(Hits(p, lo, hi), k);
            |c| <= k && Ascending(c) && forall i :: 0 <= i < |c| ==> lo <= c[i] < hi && p(c[i])
  {
    var d := Hits(p, lo, hi);
    HitsAscending(p, lo, hi);
    var c := Tail(d, k);
    var off := |d| - Min(k, |d|);
    assert forall i :: 0 <= i < |c| ==> c[i] == d[off + i];
    forall i | 0 <= i < |c| ensures p(c[i]) {
      HitsMembers(p, lo, hi, c[i]);
    }
  }

  /** Every row of [lo, hi) satisfying p is among the last k hits, or lies
      above all of them and they are k. */
  lemma TailOfHitsBottom(p: nat -> bool, lo: nat, hi: nat, k: nat, x: nat)
    requires k > 0 && lo <= x < hi && p(x)
    ensures var c := Tail(Hits(p, lo, hi), k);
            (exists i :: 0 <= i < |c| && c[i] == x) || (|c| == k && x < c[0])
  {
    var d := Hits(p, lo, hi);
    HitsAscending(p, lo, hi);
    HitsMembers(p, lo, hi, x);
    var c := Tail(d, k);
    var off := |d| - Min(k, |d|);
    var j :| 0 <= j < |d| && d[j] == x;
    if j >= off {
      assert c[j - off] == d[j];
    } else {
      assert c[0] == d[off];
    }
  }

  /** identify_current_rows returns at most 15 ascending rows of [start,
      end), each with a parseable value in some month column; every other
      row of the block with such a value lies above all of them (they are
      the bottom-most), and then they are 15; no rows without month columns. */
  lemma CurrentRowsSpec(g: Grid, lo: nat, hi: nat)
    ensures var c := CurrentRows(g, lo, hi);
            |c| <= 15 && Ascending(c)
            && (|StrictColumns(g)| == 0 ==> c == [])
            && (forall i :: 0 <= i < |c| ==> lo <= c[i] < hi && c[i] < |g| && HasData(g, c[i], StrictColumns(g)))
            && (forall x :: lo <= x < hi && HasData(g, x, StrictColumns(g)) ==>
                  (exists i :: 0 <= i < |c| && c[i] == x) || (|c| == 15 && x < c[0]))
  {
    var mc := StrictColumns(g);
    if |mc| > 0 {
      var p := DataP(g, mc);
      TailOfHits(p, lo, hi, 15);
      var c := CurrentRows(g, lo, hi);
      forall i | 0 <= i < |c| ensures c[i] < |g| && HasData(g, c[i], mc) {
        assert p(c[i]);
        DataInSheet(g, c[i], mc);
      }
      forall x | lo <= x < hi && HasData(g, x, mc)
        ensures (exists i :: 0 <= i < |c| && c[i] == x) || (|c| == 15 && x < c[0])
      {
        assert p(x);
        TailOfHitsBottom(p, lo, hi, 15, x);
      }
    }
  }

  /** Rows below the sheet's end have no data. */
  lemma DataInSheet(g: Grid, r: nat, mc: map<string, nat>)
    requires HasData(g, r, mc)
    ensures r < |g|
  {
  }
}

/** The robust extractor (excel_handler/excel_extractor.py): one product's
    monthly series from a sheet (the first row whose column A names the
    product; its D..O cells when the sheet is wide enough, else its cells
    under month-labelled columns), and the series of an ingredient
    section's "current" records. Series are ordered dictionaries, kept as
    parallel lists of months and values in insertion order. */
module Extractor {
  import opened Sheet
  import opened Months
  import opened Series
  import Strict

  // ---------------------------------------------------------------------
  // normalize_month_name

  /** The label after lowering: a '月' suffix drops every '月', then every
      dot goes. */
  function LabelText(t: string): string
  {
    Remove(DropJapanese(t), '.')
  }

  /** normalize_month_name: the cell's text stripped and lowered, stripped again, the
      '月' and dot steps, then the MONTH_VARIANTS table and the digit
      fallback. Unlike the strict normaliser, nothing is stripped after the
      dots are dropped. */
  function NormalizeMonthName(c: Cell): (m: Option<string>)
    ensures c.Blank? ==> m.None?
    ensures m.Some? ==> m.value in MonthNames
  {
    if c.Blank? then None else LookupMonth(LabelText(Strip(Lower(Strip(CellText(c))))))
  }

  /** The second strip changes nothing: lowering keeps the stripped ends. */
  lemma StripLowered(s: string)
    ensures Strip(Lower(Strip(s))) == Lower(Strip(s))
  {
    var t := Lower(Strip(s));
    if |t| > 0 {
      StripId(t);
    }
  }

  /** The label steps with no space left at either end: the strict
      normaliser gives the same month. */
  lemma AgreesWithStrict(c: Cell)
    requires var t := LabelText(Lower(Strip(CellText(c)))); |t| == 0 || (!IsSpace(t[0]) && !IsSpace(t[|t| - 1]))
    ensures NormalizeMonthName(c) == Strict.NormalizeMonthName(c)
  {
    StripLowered(CellText(c));
    var t := LabelText(Lower(Strip(CellText(c))));
    if |t| > 0 {
      StripId(t);
    }
  }

  /** A plain word (no space, dot or '月') is looked up as its lowered self. */
  lemma NormalizeWord(s: string, w: string)
    requires Strip(s) == w
    requires forall i :: 0 <= i < |w| ==> !IsSpace(w[i]) && w[i] != '.' && w[i] != '月'
    ensures NormalizeMonthName(Str(s)) == LookupMonth(Lower(w))
  {
    StripLowered(s);
    var t := Lower(w);
    assert forall i :: 0 <= i < |t| ==> t[i] != '.' && t[i] != '月';
    assert |t| > 0 ==> t[|t| - 1] != '月';
    assert !EndsWith(t, "月");
    assert Remove(t, '.') == t;
  }

  /** A capitalised word is looked up as its lowered self. */
  lemma NormalizeCapitalised(s: string)
    requires Capitalised(s)
    ensures NormalizeMonthName(Str(s)) == LookupMonth(Lower(s))
  {
    StripId(s);
    NormalizeWord(s, s);
  }

  /** Every month name normalises to itself. */
  lemma MonthNameFixed(n: MonthNumber)
    ensures NormalizeMonthName(Str(MonthNames[n - 1])) == Some(MonthNames[n - 1])
  {
    NameIsKey(n);
    NameLooksUp(n);
    NormalizeCapitalised(MonthNames[n - 1]);
  }

  lemma NamesFixed(m: string)
    requires m in MonthNames
    ensures NormalizeMonthName(Str(m)) == Some(m)
  {
    var k :| 0 <= k < 12 && MonthNames[k] == m;
    NameIsKey(k + 1);
    NameLooksUp(k + 1);
    NormalizeCapitalised(m);
  }

  /** Normalising an output again returns it. */
  lemma NormalizeIdempotent(c: Cell)
    requires NormalizeMonthName(c).Some?
    ensures NormalizeMonthName(Str(NormalizeMonthName(c).value)) == NormalizeMonthName(c)
  {
    NamesFixed(NormalizeMonthName(c).value);
  }

  /** A text label goes through the label steps on its lowered, stripped
      text. */
  lemma NormalizeStr(s: string)
    ensures NormalizeMonthName(Str(s)) == LookupMonth(LabelText(Lower(Strip(s))))
  {
    StripLowered(s);
  }

  /** The label steps of a lowered word and '月'. */
  lemma LabelJapanese(lw: string)
    requires forall i :: 0 <= i < |lw| ==> lw[i] != '.' && lw[i] != '月'
    ensures LabelText(lw + "月") == lw
  {
    RemoveAppend(lw, "月", '月');
    assert Remove("月", '月') == "";
    assert lw + "" == lw;
  }

  /** A word followed by '月' loses the '月' and is lowered. */
  lemma JapaneseLabel(t: string)
    requires |t| > 0 && t[|t| - 1] == '月'
    requires forall i :: 0 <= i < |t| - 1 ==> t[i] != '.' && t[i] != '月'
    ensures LabelText(Lower(t)) == Lower(t[..|t| - 1])
  {
    var w := t[..|t| - 1];
    assert t == w + "月";
    Strict.LowerAppend(w, "月");
    assert Lower("月") == "月";
    LabelJapanese(Lower(w));
  }

  /** A label that strips to a word followed by '月' is looked up as the
      lowered word. */
  lemma NormalizeJapanese(s: string)
    requires var t := Strip(s); |t| > 0 && t[|t| - 1] == '月'
    requires var t := Strip(s); forall i :: 0 <= i < |t| - 1 ==> !IsSpace(t[i]) && t[i] != '.' && t[i] != '月'
    ensures var t := Strip(s); NormalizeMonthName(Str(s)) == LookupMonth(Lower(t[..|t| - 1]))
  {
    NormalizeStr(s);
    JapaneseLabel(Strip(s));
  }

  /** On a plain word the two normalisers agree. */
  lemma WordAgrees(s: string)
    requires forall i :: 0 <= i < |Strip(s)| ==> !IsSpace(Strip(s)[i]) && Strip(s)[i] != '.' && Strip(s)[i] != '月'
    ensures NormalizeMonthName(Str(s)) == Strict.NormalizeMonthName(Str(s))
  {
    NormalizeWord(s, Strip(s));
    Strict.NormalizeWord(s, Strip(s));
  }

  /** On a word followed by '月' the two normalisers agree. */
  lemma JapaneseAgrees(s: string)
    requires var t := Strip(s); |t| > 0 && t[|t| - 1] == '月'
    requires var t := Strip(s); forall i :: 0 <= i < |t| - 1 ==> !IsSpace(t[i]) && t[i] != '.' && t[i] != '月'
    ensures NormalizeMonthName(Str(s)) == Strict.NormalizeMonthName(Str(s))
  {
    NormalizeJapanese(s);
    Strict.NormalizeJapanese(s);
  }

  lemma AprilWordPlain(w: string)
    requires w == "Apr" || w == "APRIL" || w == "04" || w == "4"
    ensures forall i :: 0 <= i < |w| ==> !IsSpace(w[i]) && w[i] != '.' && w[i] != '月'
  {
  }

  lemma AprilWord(s: string)
    requires Strip(s) == "Apr" || Strip(s) == "APRIL" || Strip(s) == "04" || Strip(s) == "4"
    ensures NormalizeMonthName(Str(s)) == Some("April")
  {
    AprilWordPlain(Strip(s));
    WordAgrees(s);
    Strict.AprilLabels(s);
  }

  lemma AprilJapanese(s: string)
    requires Strip(s) == "4月"
    ensures NormalizeMonthName(Str(s)) == Some("April")
  {
    FourJapaneseShape(Strip(s));
    JapaneseAgrees(s);
    Strict.AprilLabels(s);
  }

  lemma FourJapaneseShape(t: string)
    requires t == "4月"
    ensures |t| > 0 && t[|t| - 1] == '月'
    ensures forall i :: 0 <= i < |t| - 1 ==> !IsSpace(t[i]) && t[i] != '.' && t[i] != '月'
  {
  }

  /** The April labels of the strict normaliser ('Apr', 'APRIL', '04', '4'
      and '4月', up to surrounding whitespace) are April here too. */
  lemma AprilLabels(s: string)
    requires Strip(s) == "Apr" || Strip(s) == "APRIL" || Strip(s) == "04" || Strip(s) == "4" || Strip(s) == "4月"
    ensures NormalizeMonthName(Str(s)) == Some("April")
  {
    if Strip(s) == "4月" {
      AprilJapanese(s);
    } else {
      AprilWord(s);
    }
  }

  /** 'Apr.', with its dot, is April. */
  lemma AprilDot(s: string)
    requires s == "Apr."
    ensures NormalizeMonthName(Str(s)) == Some("April")
  {
    NormalizeStr(s);
    AprDotText(s);
    AprLooksUp(LabelText(Lower(Strip(s))));
  }

  lemma AprDotText(s: string)
    requires s == "Apr."
    ensures LabelText(Lower(Strip(s))) == "apr"
  {
    StripId(s);
    assert Lower(s) == "apr.";
    assert !EndsWith("apr.", "月");
    assert Remove("apr.", '.') == "apr";
  }

  lemma AprLooksUp(x: string)
    requires x == "apr"
    ensures LookupMonth(x) == Some("April")
  {
  }

  // ---------------------------------------------------------------------
  // normalize_numeric_value (the same steps as Sheet.NormalizeNumeric)

  /** A currency symbol in front changes nothing. */
  lemma CurrencyPrefixed(s: string, v: real)
    requires forall i :: 0 <= i < |s| ==> !IsDecoration(s[i])
    requires Strip(s) == s && ParseFloat(s) == Some(v)
    ensures NormalizeNumeric(Str("$" + s)) == Some(v)
  {
    NormalizePlain(s, v);
    NormalizeDecorated("$" + s);
    DecorationAppend("$", s);
    DecorationNone(s);
    assert Decoration("$") == "";
    assert "" + s == s;
  }

  /** A thousands separator is dropped wherever it stands. */
  lemma SeparatorDropped(a: string, b: string)
    ensures NormalizeNumeric(Str(a + "," + b)) == NormalizeNumeric(Str(a + b))
  {
    NormalizeDecorated(a + "," + b);
    NormalizeDecorated(a + b);
    DecorationSeparator(a, b);
  }

  lemma DecorationSeparator(a: string, b: string)
    ensures Decoration(a + "," + b) == Decoration(a + b)
  {
    DecorationAppend(a + ",", b);
    DecorationAppend(a, ",");
    DecorationAppend(a, b);
    assert Decoration(",") == "";
    assert Decoration(a) + "" == Decoration(a);
  }

  // ---------------------------------------------------------------------
  // Ordered dictionaries of month values, as parallel key and value lists

  /** The position of k in ks, when it is there. */
  function IndexOf(ks: seq<string>, k: string): (j: Option<nat>)
    ensures j.Some? ==> j.value < |ks| && ks[j.value] == k
    ensures j.None? ==> k !in ks
  {
    if |ks| == 0 then None
    else if ks[|ks| - 1] == k then Some(|ks| - 1)
    else
      match IndexOf(ks[..|ks| - 1], k)
      case Some(j) => Some(j)
      case None => None
  }

  /** od[k], when k is a key. */
  function Lookup(od: Series, k: string): (v: Option<real>)
    requires |od.months| == |od.values|
    ensures v.Some? <==> k in od.months
  {
    match IndexOf(od.months, k)
    case Some(j) => Some(od.values[j])
    case None => None
  }

  /** od[k] = v: a new key goes last, an existing one keeps its place. */
  function Put(od: Series, k: string, v: real): (r: Series)
    requires |od.months| == |od.values|
    ensures |r.months| == |r.values|
    ensures k in od.months ==> r.months == od.months
    ensures k !in od.months ==> r.months == od.months + [k]
  {
    match IndexOf(od.months, k)
    case Some(j) => Series(od.months, od.values[j := v])
    case None => Series(od.months + [k], od.values + [v])
  }

  /** After od[k] = v, k reads v and every other key reads as before. */
  lemma PutLookup(od: Series, k: string, v: real, k': string)
    requires |od.months| == |od.values| && Distinct(od.months)
    ensures Lookup(Put(od, k, v), k') == if k' == k then Some(v) else Lookup(od, k')
  {
    var r := Put(od, k, v);
    if k' != k && k' in od.months {
      var i := IndexOf(od.months, k').value;
      var i' := IndexOf(r.months, k').value;
      assert r.months[i] == k';
      assert i' == i;
    }
    if k' == k && k in od.months {
      assert IndexOf(r.months, k) == IndexOf(od.months, k);
    }
  }

  /** Assignment keeps the keys distinct. */
  lemma PutDistinct(od: Series, k: string, v: real)
    requires |od.months| == |od.values| && Distinct(od.months)
    ensures Distinct(Put(od, k, v).months)
  {
  }

  // ---------------------------------------------------------------------
  // Series in fiscal order

  /** The loop over the first k fiscal months: month i is added
      with its value when p gives one. Every month added is a fiscal month
      before k carrying p's value for it, in fiscal order. */
  function FiscalPairs(p: nat -> Option<real>, k: nat): (s: Series)
    requires k <= 12
    ensures |s.months| == |s.values|
    ensures forall j :: 0 <= j < |s.months| ==>
              FiscalIndex(s.months[j]).Some? && FiscalIndex(s.months[j]).value < k
              && p(FiscalIndex(s.months[j]).value) == Some(s.values[j])
    ensures forall i, j :: 0 <= i < j < |s.months| ==> FiscalIndex(s.months[i]).value < FiscalIndex(s.months[j]).value
  {
    if k == 0 then Series([], [])
    else
      var s := FiscalPairs(p, k - 1);
      FiscalIndexOf(k - 1);
      match p(k - 1)
      case None => s
      case Some(v) => Series(s.months + [FiscalMonths[k - 1]], s.values + [v])
  }

  /** Month i before k is in FiscalPairs(p, k) exactly when p gives it a
      value. */
  lemma {:induction false} FiscalPairsMembers(p: nat -> Option<real>, k: nat)
    requires k <= 12
    ensures forall i :: 0 <= i < k ==> (FiscalMonths[i] in FiscalPairs(p, k).months <==> p(i).Some?)
  {
    if k > 0 {
      var s := FiscalPairs(p, k - 1);
      var m := FiscalMonths[k - 1];
      FiscalPairsMembers(p, k - 1);
      FiscalIndexOf(k - 1);
      forall i | 0 <= i < k ensures FiscalMonths[i] in FiscalPairs(p, k).months <==> p(i).Some? {
        if i == k - 1 {
          assert m !in s.months;
        } else {
          FiscalIndexOf(i);
          assert FiscalMonths[i] != m;
        }
      }
    }
  }

  /** What FiscalPairs(p, 12) holds: the fiscal months p gives a value, in
      fiscal order, with those values. */
  lemma FiscalPairsSpec(p: nat -> Option<real>)
    ensures var s := FiscalPairs(p, 12);
            (forall j :: 0 <= j < |s.months| ==>
              FiscalIndex(s.months[j]).Some? && p(FiscalIndex(s.months[j]).value) == Some(s.values[j]))
            && (forall i, j :: 0 <= i < j < |s.months| ==> FiscalIndex(s.months[i]).value < FiscalIndex(s.months[j]).value)
            && (forall i :: 0 <= i < 12 ==> (FiscalMonths[i] in s.months <==> p(i).Some?))
  {
    FiscalPairsMembers(p, 12);
  }

  /** One step of FiscalPairs: month k is appended when p gives it a value. */
  lemma FiscalPairsStep(p: nat -> Option<real>, k: nat)
    requires k < 12
    ensures FiscalPairs(p, k + 1) ==
            (if p(k).Some? then Series(FiscalPairs(p, k).months + [FiscalMonths[k]], FiscalPairs(p, k).values + [p(k).value])
             else FiscalPairs(p, k))
  {
  }

  /** The series is empty exactly when p gives no month a value. */
  lemma FiscalPairsEmpty(p: nat -> Option<real>)
    ensures FiscalPairs(p, 12).months == [] <==> forall i :: 0 <= i < 12 ==> p(i).None?
  {
    var s := FiscalPairs(p, 12);
    FiscalPairsSpec(p);
    if s.months != [] {
      assert p(FiscalIndex(s.months[0]).value).Some?;
    } else {
      forall i | 0 <= i < 12 ensures p(i).None? {
        assert FiscalMonths[i] !in s.months;
      }
    }
  }

  // ---------------------------------------------------------------------
  // extract_monthly_series

  /** A sheet as pandas reads it: the column labels as text and the
      data rows; a row has as many cells as there are columns. */
  datatype Frame = Frame(columns: seq<string>, rows: Grid)

  /** The first cell of every row as text, lowered and stripped, or '' without columns. */
  function FirstCells(f: Frame): (col: seq<string>)
    ensures |col| == |f.rows|
  {
    seq(|f.rows|, r requires 0 <= r < |f.rows| => if |f.columns| > 0 then Strip(Lower(CellText(At(f.rows, r, 0)))) else "")
  }

  /** The product code lowered and stripped. */
  function ProductKey(code: string): string
  {
    Strip(Lower(code))
  }

  /** A first cell names the product: it contains the key or is contained
      in it. */
  predicate Names(first: string, key: string)
  {
    Contains(first, key) || Contains(key, first)
  }

  /** The first row at or after r whose first cell names the product. */
  function FindFrom(col: seq<string>, key: string, r: nat): (p: Option<nat>)
    decreases |col| - r
    ensures p.Some? ==> r <= p.value < |col| && Names(col[p.value], key)
                        && forall q :: r <= q < p.value ==> !Names(col[q], key)
    ensures p.None? ==> forall q :: r <= q < |col| ==> !Names(col[q], key)
  {
    if r >= |col| then None else if Names(col[r], key) then Some(r) else FindFrom(col, key, r + 1)
  }

  /** The row of the product, when some row names it. */
  function ProductRow(f: Frame, code: string): Option<nat>
  {
    FindFrom(FirstCells(f), ProductKey(code), 0)
  }

  /** The D..O cell of fiscal month i in row r, parsed. */
  function PositionalAt(f: Frame, r: nat, i: nat): Option<real>
  {
    if 3 + i < |f.columns| then NormalizeNumeric(At(f.rows, r, 3 + i)) else None
  }

  /** PositionalAt as the month-index function FiscalPairs consumes. */
  function PositionalValue(f: Frame, r: nat): nat -> Option<real>
  {
    (i: nat) => PositionalAt(f, r, i)
  }

  /** Some D..O cell of row r parses. */
  predicate HasPositional(f: Frame, r: nat)
  {
    exists i :: 0 <= i < 12 && PositionalAt(f, r, i).Some?
  }

  /** Method 1: the D..O cells, read only when there are 16 columns or more. */
  function PositionalSeries(f: Frame, r: nat): Series
  {
    if |f.columns| >= 16 then FiscalPairs(PositionalValue(f, r), 12) else Series([], [])
  }

  /** The month of each column's label. */
  function Labels(f: Frame): (ms: seq<Option<string>>)
    ensures |ms| == |f.columns|
  {
    seq(|f.columns|, c requires 0 <= c < |f.columns| => NormalizeMonthName(Str(f.columns[c])))
  }

  /** Each cell of row r, parsed. */
  function Cells(f: Frame, r: nat): (vs: seq<Option<real>>)
    ensures |vs| == |f.columns|
  {
    seq(|f.columns|, c requires 0 <= c < |f.columns| => NormalizeNumeric(At(f.rows, r, c)))
  }

  /** The label loop over the first c columns: a column with a month and a
      value assigns that month. */
  function Assign(ms: seq<Option<string>>, vs: seq<Option<real>>, c: nat): (od: Series)
    requires c <= |ms| == |vs|
    ensures |od.months| == |od.values|
  {
    if c == 0 then Series([], [])
    else
      var od := Assign(ms, vs, c - 1);
      if ms[c - 1].Some? && vs[c - 1].Some? then Put(od, ms[c - 1].value, vs[c - 1].value) else od
  }

  /** The value of the last of the first c columns with month m and a value. */
  function LastAssigned(ms: seq<Option<string>>, vs: seq<Option<real>>, m: string, c: nat): Option<real>
    requires c <= |ms| == |vs|
  {
    if c == 0 then None
    else if ms[c - 1] == Some(m) && vs[c - 1].Some? then vs[c - 1]
    else LastAssigned(ms, vs, m, c - 1)
  }

  /** The loop keeps each month once, assigns only the months it is given,
      and leaves each with the value of its last column. */
  lemma {:induction false} AssignSpec(ms: seq<Option<string>>, vs: seq<Option<real>>, c: nat)
    requires c <= |ms| == |vs|
    ensures Distinct(Assign(ms, vs, c).months)
    ensures forall m :: Lookup(Assign(ms, vs, c), m) == LastAssigned(ms, vs, m, c)
    ensures forall m :: m in Assign(ms, vs, c).months ==> exists k :: 0 <= k < c && ms[k] == Some(m)
  {
    if c > 0 {
      AssignSpec(ms, vs, c - 1);
      var od := Assign(ms, vs, c - 1);
      if ms[c - 1].Some? && vs[c - 1].Some? {
        PutDistinct(od, ms[c - 1].value, vs[c - 1].value);
        forall m ensures Lookup(Assign(ms, vs, c), m) == LastAssigned(ms, vs, m, c) {
          PutLookup(od, ms[c - 1].value, vs[c - 1].value, m);
        }
      }
    }
  }

  /** Method 2: every month-labelled column with a parseable cell in row r
      assigns its month. */
  function LabelSeries(f: Frame, r: nat): Series
  {
    Assign(Labels(f), Cells(f, r), |f.columns|)
  }

  /** The value of the last column labelled m whose cell in row r parses. */
  function LastLabelled(f: Frame, r: nat, m: string): Option<real>
  {
    LastAssigned(Labels(f), Cells(f, r), m, |f.columns|)
  }

  /** The label series has each month once, only months, and for each
      month the value of the last such column. */
  lemma LabelSeriesSpec(f: Frame, r: nat)
    ensures Distinct(LabelSeries(f, r).months)
    ensures forall m :: Lookup(LabelSeries(f, r), m) == LastLabelled(f, r, m)
    ensures forall m :: m in LabelSeries(f, r).months ==> m in MonthNames
  {
    var ms := Labels(f);
    AssignSpec(ms, Cells(f, r), |f.columns|);
    forall m | m in LabelSeries(f, r).months ensures m in MonthNames {
      var k :| 0 <= k < |f.columns| && ms[k] == Some(m);
    }
  }

  /** extract_monthly_series: nothing when no row names the product;
      otherwise the positional series, or the label series when that is
      empty (a sheet with a named row has a header row). */
  function MonthlySeries(f: Frame, code: string): Series
  {
    match ProductRow(f, code)
    case None => Series([], [])
    case Some(r) =>
      var pos := PositionalSeries(f, r);
      if pos.months == [] && |f.columns| > 0 && |f.rows| > 0 then LabelSeries(f, r) else pos
  }

  /** The positional series holds exactly the fiscal months of parseable
      D..O cells, in fiscal order, with their values. */
  lemma PositionalSeriesSpec(f: Frame, r: nat)
    requires |f.columns| >= 16
    ensures var od := PositionalSeries(f, r);
            |od.months| == |od.values|
            && (forall i :: 0 <= i < 12 ==> (FiscalMonths[i] in od.months <==> PositionalAt(f, r, i).Some?))
            && (forall j :: 0 <= j < |od.months| ==>
                  FiscalIndex(od.months[j]).Some? && PositionalAt(f, r, FiscalIndex(od.months[j]).value) == Some(od.values[j]))
            && (forall i, j :: 0 <= i < j < |od.months| ==> FiscalIndex(od.months[i]).value < FiscalIndex(od.months[j]).value)
            && (od.months == [] <==> !HasPositional(f, r))
  {
    var p := PositionalValue(f, r);
    assert forall i: nat :: p(i) == PositionalAt(f, r, i);
    FiscalPairsSpec(p);
    FiscalPairsEmpty(p);
  }

  /** With 16 columns or more and a parseable D..O cell in the product's
      row, the series is the positional one. */
  lemma PositionalSpec(f: Frame, code: string, r: nat)
    requires ProductRow(f, code) == Some(r) && |f.columns| >= 16 && HasPositional(f, r)
    ensures MonthlySeries(f, code) == PositionalSeries(f, r)
  {
    PositionalSeriesSpec(f, r);
  }

  /** Otherwise (fewer than 16 columns, or no parseable D..O cell) the
      series holds the months of labelled columns, once each, with the
      value of the last such column whose cell parses. */
  lemma LabelFallbackSpec(f: Frame, code: string, r: nat)
    requires ProductRow(f, code) == Some(r)
    requires |f.columns| < 16 || !HasPositional(f, r)
    ensures var od := MonthlySeries(f, code);
            |od.months| == |od.values|
            && Distinct(od.months)
            && (forall m :: m in od.months ==> m in MonthNames)
            && forall m :: Lookup(od, m) == LastLabelled(f, r, m)
  {
    if |f.columns| >= 16 {
      PositionalSeriesSpec(f, r);
    }
    LabelSeriesSpec(f, r);
  }

  /** No row naming the product: the series is empty. */
  lemma MissingProductSpec(f: Frame, code: string)
    requires forall q :: 0 <= q < |f.rows| ==> !Names(FirstCells(f)[q], ProductKey(code))
    ensures MonthlySeries(f, code) == Series([], [])
  {
  }

  /** The row search of extract_monthly_series: iterrows until the first
      row naming the product. */
  method FindProductRow(f: Frame, code: string) returns (row: Option<nat>)
    ensures row == ProductRow(f, code)
  {
    var key := Strip(Lower(code));
    ghost var col := FirstCells(f);
    row := None;
    var r := 0;
    while r < |f.rows|
      invariant 0 <= r <= |f.rows|
      invariant FindFrom(col, key, r) == FindFrom(col, key, 0)
    {
      var first := if |f.columns| > 0 then Strip(Lower(CellText(At(f.rows, r, 0)))) else "";
      assert first == col[r];
      if Contains(first, key) || Contains(key, first) {
        row := Some(r);
        return;
      }
      r := r + 1;
    }
  }

  /** Method 1's loop over FISCAL_MONTHS. */
  method ReadPositional(f: Frame, r: nat) returns (od: Series)
    ensures od == PositionalSeries(f, r)
  {
    od := Series([], []);
    if |f.columns| >= 16 {
      for i := 0 to 12
        invariant od == FiscalPairs(PositionalValue(f, r), i)
      {
        FiscalPairsStep(PositionalValue(f, r), i);
        assert PositionalValue(f, r)(i) == PositionalAt(f, r, i);
        if 3 + i < |f.columns| {
          var v := NormalizeNumeric(At(f.rows, r, 3 + i));
          if v.Some? {
            od := Series(od.months + [FiscalMonths[i]], od.values + [v.value]);
          }
        }
      }
    }
  }

  /** Method 2's loop over the columns, given each column's month and cell
      value. */
  method AssignAll(ms: seq<Option<string>>, vs: seq<Option<real>>) returns (od: Series)
    requires |ms| == |vs|
    ensures od == Assign(ms, vs, |ms|)
  {
    od := Series([], []);
    for c := 0 to |ms|
      invariant od == Assign(ms, vs, c)
    {
      if ms[c].Some? && vs[c].Some? {
        od := Put(od, ms[c].value, vs[c].value);
      }
    }
  }

  /** Method 2 on the product's row. */
  method ReadLabelled(f: Frame, r: nat) returns (od: Series)
    ensures od == LabelSeries(f, r)
  {
    od := AssignAll(Labels(f), Cells(f, r));
  }

  /** extract_monthly_series. */
  method ExtractMonthlySeries(f: Frame, code: string) returns (od: Series)
    ensures od == MonthlySeries(f, code)
  {
    var row := FindProductRow(f, code);
    if row.None? {
      return Series([], []);
    }
    od := ReadPositional(f, row.value);
    if od.months == [] && |f.columns| > 0 && |f.rows| > 0 {
      od := ReadLabelled(f, row.value);
    }
  }

  // ---------------------------------------------------------------------
  // extract_from_ingredient_section

  /** The records whose set_type is 'current', in order. */
  function CurrentRows(rows: seq<Row>): seq<Row>
  {
    if |rows| == 0 then []
    else CurrentRows(rows[..|rows| - 1]) + (if rows[|rows| - 1].setType == Current then [rows[|rows| - 1]] else [])
  }

  /** The record's cell in column col parses to a non-zero number. */
  predicate NonZeroAt(row: Row, col: nat)
  {
    NormalizeNumeric(Get(row, col)).Some? && NormalizeNumeric(Get(row, col)).value != 0.0
  }

  /** The non-zero parseable values of one column over the records, in order. */
  function NonZero(rows: seq<Row>, col: nat): seq<real>
  {
    if |rows| == 0 then []
    else
      NonZero(rows[..|rows| - 1], col)
      + (if NonZeroAt(rows[|rows| - 1], col) then [NormalizeNumeric(Get(rows[|rows| - 1], col)).value] else [])
  }

  /** A column has no non-zero value exactly when no record gives one. */
  lemma {:induction false} NonZeroEmpty(rows: seq<Row>, col: nat)
    ensures NonZero(rows, col) == [] <==> forall j :: 0 <= j < |rows| ==> !NonZeroAt(rows[j], col)
  {
    if |rows| > 0 {
      var init := rows[..|rows| - 1];
      var last := rows[|rows| - 1];
      NonZeroEmpty(init, col);
      assert forall j :: 0 <= j < |init| ==> init[j] == rows[j];
      if NonZeroAt(last, col) {
        assert |NonZero(rows, col)| > |NonZero(init, col)|;
      } else {
        assert NonZero(rows, col) == NonZero(init, col);
      }
    }
  }

  /** The sum of month i's non-zero values, when there is one. */
  function SectionAt(cur: seq<Row>, i: nat): Option<real>
  {
    var vs := NonZero(cur, 3 + i); if |vs| > 0 then Some(Sum(vs)) else None
  }

  /** SectionAt as the month-index function FiscalPairs consumes. */
  function SectionValue(cur: seq<Row>): nat -> Option<real>
  {
    (i: nat) => SectionAt(cur, i)
  }

  /** extract_from_ingredient_section. */
  function IngredientSeries(rows: seq<Row>): Series
  {
    var cur := CurrentRows(rows);
    if |cur| == 0 then Series([], []) else FiscalPairs(SectionValue(cur), 12)
  }

  /** A column of the current records has no non-zero value exactly when
      no 'current' record gives one. */
  lemma {:induction false} CurrentNonZeroEmpty(rows: seq<Row>, col: nat)
    ensures NonZero(CurrentRows(rows), col) == [] <==>
            forall j :: 0 <= j < |rows| && rows[j].setType == Current ==> !NonZeroAt(rows[j], col)
  {
    if |rows| > 0 {
      var init := rows[..|rows| - 1];
      var last := rows[|rows| - 1];
      CurrentNonZeroEmpty(init, col);
      assert forall j :: 0 <= j < |init| ==> init[j] == rows[j];
      if last.setType == Current {
        var x := CurrentRows(rows);
        assert x == CurrentRows(init) + [last];
        assert x[..|x| - 1] == CurrentRows(init);
        assert NonZero(x, col) == NonZero(CurrentRows(init), col) + (if NonZeroAt(last, col) then [NormalizeNumeric(Get(last, col)).value] else []);
      } else {
        assert CurrentRows(rows) == CurrentRows(init);
      }
    }
  }

  /** Some 'current' record has a non-zero parseable value in column col. */
  predicate SomeCurrentNonZero(rows: seq<Row>, i: nat)
  {
    exists j :: 0 <= j < |rows| && rows[j].setType == Current && NonZeroAt(rows[j], 3 + i)
  }

  /** Month i has a value in the section exactly when some 'current'
      record has a non-zero parseable value in its column. */
  lemma SectionMonth(rows: seq<Row>, i: nat)
    requires i < 12
    ensures SectionAt(CurrentRows(rows), i).Some? <==> SomeCurrentNonZero(rows, i)
  {
    CurrentNonZeroEmpty(rows, 3 + i);
  }

  /** Month i is in the section's series exactly when some 'current'
      record has a non-zero parseable value in its column. */
  lemma IngredientMonth(rows: seq<Row>, i: nat)
    requires i < 12
    ensures FiscalMonths[i] in IngredientSeries(rows).months <==> SomeCurrentNonZero(rows, i)
  {
    var cur := CurrentRows(rows);
    SectionMonth(rows, i);
    if |cur| == 0 {
      NonZeroEmpty(cur, 3 + i);
    } else {
      assert SectionValue(cur)(i) == SectionAt(cur, i);
      FiscalPairsSpec(SectionValue(cur));
    }
  }

  /** The section's series is in fiscal order, each month with its
      section value: the sum of its column's non-zero values over the
      'current' records. */
  lemma IngredientValues(rows: seq<Row>)
    ensures var od := IngredientSeries(rows);
            |od.months| == |od.values|
            && (forall j :: 0 <= j < |od.months| ==>
                  FiscalIndex(od.months[j]).Some? && SectionAt(CurrentRows(rows), FiscalIndex(od.months[j]).value) == Some(od.values[j]))
            && (forall i, j :: 0 <= i < j < |od.months| ==> FiscalIndex(od.months[i]).value < FiscalIndex(od.months[j]).value)
  {
    var cur := CurrentRows(rows);
    if |cur| > 0 {
      var p := SectionValue(cur);
      assert forall m: nat :: p(m) == SectionAt(cur, m);
      FiscalPairsSpec(p);
    }
  }

  /** What extract_from_ingredient_section returns: the fiscal months in
      order, a month exactly when some 'current' record has a non-zero
      parseable value in its column (D..O), with the sum of those values. */
  lemma IngredientSeriesSpec(rows: seq<Row>)
    ensures var od := IngredientSeries(rows);
            |od.months| == |od.values|
            && (forall i :: 0 <= i < 12 ==> (FiscalMonths[i] in od.months <==> SomeCurrentNonZero(rows, i)))
            && (forall j :: 0 <= j < |od.months| ==>
                  FiscalIndex(od.months[j]).Some? && SectionAt(CurrentRows(rows), FiscalIndex(od.months[j]).value) == Some(od.values[j]))
            && (forall i, j :: 0 <= i < j < |od.months| ==> FiscalIndex(od.months[i]).value < FiscalIndex(od.months[j]).value)
  {
    IngredientValues(rows);
    forall i | 0 <= i < 12 ensures FiscalMonths[i] in IngredientSeries(rows).months <==> SomeCurrentNonZero(rows, i) {
      IngredientMonth(rows, i);
    }
  }

  /** One month of the section loop: the non-zero values of its column
      over the current records. */
  method ColumnValues(cur: seq<Row>, col: nat) returns (vals: seq<real>)
    ensures vals == NonZero(cur, col)
  {
    vals := [];
    for j := 0 to |cur|
      invariant vals == NonZero(cur[..j], col)
    {
      assert cur[..j + 1][..j] == cur[..j];
      var v := NormalizeNumeric(Get(cur[j], col));
      if v.Some? && v.value != 0.0 {
        vals := vals + [v.value];
      }
    }
    assert cur[..|cur|] == cur;
  }

  /** extract_from_ingredient_section. */
  method ExtractFromIngredientSection(rows: seq<Row>) returns (od: Series)
    ensures od == IngredientSeries(rows)
  {
    od := Series([], []);
    var cur := CurrentRows(rows);
    if |cur| == 0 {
      return;
    }
    for i := 0 to 12
      invariant od == FiscalPairs(SectionValue(cur), i)
    {
      var vals := ColumnValues(cur, 3 + i);
      FiscalPairsStep(SectionValue(cur), i);
      assert SectionValue(cur)(i) == SectionAt(cur, i);
      if |vals| > 0 {
        od := Series(od.months + [FiscalMonths[i]], od.values + [Sum(vals)]);
      }
    }
  }
}

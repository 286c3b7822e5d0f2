/** The single-sheet layout of the upload view: parse_excel_regions labels
    every row of a sheet (title, annual block, ingredient blocks), and the
    index view turns the labelled rows into set-typed annual records and
    per-ingredient row blocks. */
module Views {
  import opened Sheet

  /** Row index -> region label. */
  type Regions = map<nat, string>

  /** The ingredient codes the region parser looks for, in list order. */
  const Ingredients: seq<string> := ["MCT360", "MCT165", "MCTSTICK10", "MCTSTICK30", "MCTSTICK16", "MCTITTO_C"]

  /** The same codes as the index view lists them (lowercase). */
  const IngredientKeys: seq<string> := ["mct360", "mct165", "mctstick10", "mctstick30", "mctstick16", "mctitto_c"]

  /** Each listed code lowered is its key. */
  lemma KeysAreLowered(k: nat)
    requires k < 6
    ensures Lower(Ingredients[k]) == IngredientKeys[k]
  {
  }

  /** The region label of the ingredient with lowered code key. */
  function IngredientLabel(key: string): string { "ingredient_" + key }

  /** The text of row i's cell in column A, lowered. */
  function ColumnA(g: Grid, i: nat): string { Lower(CellText(At(g, i, 0))) }

  /** Column A of rows 0 .. n-1, as the searches read it. */
  function ColumnTexts(g: Grid, n: nat): (col: seq<string>)
    ensures |col| == n
  {
    if n == 0 then [] else ColumnTexts(g, n - 1) + [ColumnA(g, n - 1)]
  }

  /** Entry i of the column texts is row i's column A. */
  lemma {:induction false} ColumnTextsAt(g: Grid, n: nat, i: nat)
    requires i < n
    ensures ColumnTexts(g, n)[i] == ColumnA(g, i)
  {
    if i < n - 1 {
      ColumnTextsAt(g, n - 1, i);
    }
  }

  /** Row i's lowered text contains the lowered ingredient code key. */
  predicate Names(col: seq<string>, i: nat, key: string) { i < |col| && Contains(col[i], key) }

  /** Row i names one of the keys. */
  predicate NamesAny(col: seq<string>, keys: seq<string>, i: nat)
  {
    exists k :: 0 <= k < |keys| && Names(col, i, keys[k])
  }

  /** The label of row i, 'unknown' when it has none. */
  function Label(regions: Regions, i: nat): string
  {
    if i in regions then regions[i] else "unknown"
  }

  // ---------------------------------------------------------------------
  // Searches

  /** The first all-blank row in [i, hi). */
  function FirstBlank(g: Grid, i: nat, hi: nat): (r: Option<nat>)
    decreases hi - i
    ensures r.None? <==> forall k :: i <= k < hi ==> !RowBlank(g, k)
    ensures r.Some? ==> i <= r.value < hi && RowBlank(g, r.value) && forall k :: i <= k < r.value ==> !RowBlank(g, k)
  {
    if i >= hi then None else if RowBlank(g, i) then Some(i) else FirstBlank(g, i + 1, hi)
  }

  /** The separator: the first all-blank row among rows 2 .. min(n, 100) - 1. */
  function Separator(g: Grid): Option<nat>
  {
    FirstBlank(g, 2, Min(|g|, 100))
  }

  /** The first row in [lo, hi) whose column A names the ingredient. */
  function FirstNaming(col: seq<string>, key: string, lo: nat, hi: nat): (r: Option<nat>)
    decreases hi - lo
    ensures r.None? <==> forall i :: lo <= i < hi ==> !Names(col, i, key)
    ensures r.Some? ==> lo <= r.value < hi && Names(col, r.value, key) && forall i :: lo <= i < r.value ==> !Names(col, i, key)
  {
    if lo >= hi then None else if Names(col, lo, key) then Some(lo) else FirstNaming(col, key, lo + 1, hi)
  }

  /** The first row in [lo, hi) whose column A names any ingredient. */
  function FirstNamingAny(col: seq<string>, keys: seq<string>, lo: nat, hi: nat): (r: Option<nat>)
    decreases hi - lo
    ensures r.None? <==> forall i :: lo <= i < hi ==> !NamesAny(col, keys, i)
    ensures r.Some? ==> lo <= r.value < hi && NamesAny(col, keys, r.value) && forall i :: lo <= i < r.value ==> !NamesAny(col, keys, i)
  {
    if lo >= hi then None else if NamesAny(col, keys, lo) then Some(lo) else FirstNamingAny(col, keys, lo + 1, hi)
  }

  /** Every cell of row i is NaN. */
  method IsBlankRow(g: Grid, i: nat) returns (b: bool)
    ensures b == RowBlank(g, i)
  {
    var w := Width(g);
    var c := 0;
    while c < w
      invariant 0 <= c <= w
      invariant forall c' :: 0 <= c' < c ==> At(g, i, c') == Blank
    {
      if !At(g, i, c).Blank? {
        return false;
      }
      c := c + 1;
    }
    return true;
  }

  /** The separator search: the row found, or -1. */
  method FindSeparator(g: Grid) returns (sep: int)
    ensures Separator(g).None? ==> sep == -1
    ensures Separator(g).Some? ==> sep == Separator(g).value
  {
    var hi := Min(|g|, 100);
    var i := 2;
    while i < hi
      invariant 2 <= i
      invariant FirstBlank(g, i, hi) == Separator(g)
      decreases hi - i
    {
      var blank := IsBlankRow(g, i);
      if blank {
        return i;
      }
      i := i + 1;
    }
    return -1;
  }

  // ---------------------------------------------------------------------
  // The annual block (a separator was found)

  /** Columns C..P of row i are blank. */
  predicate BlankCP(g: Grid, i: nat)
  {
    forall c :: 2 <= c < Min(16, Width(g)) ==> At(g, i, c) == Blank
  }

  /** Row i opens a set of annual data rows: the sheet has no column C, or
      the row is not blank in C..P. */
  predicate SetStart(g: Grid, i: nat)
  {
    !(Min(16, Width(g)) > 2 && BlankCP(g, i))
  }

  method IsBlankCP(g: Grid, i: nat) returns (b: bool)
    ensures b == BlankCP(g, i)
  {
    var hi := Min(16, Width(g));
    var c := 2;
    while c < hi
      invariant 2 <= c
      invariant forall c' :: 2 <= c' < c && c' < hi ==> At(g, i, c') == Blank
      decreases hi - c
    {
      if !At(g, i, c).Blank? {
        return false;
      }
      c := c + 1;
    }
    return true;
  }

  /** The label the annual loop gives row i once it stands at row `row`
      (row <= i). With a column C, a row blank in C..P is an
      'annual_separator' and the loop moves on one row; any other row opens
      a set of five 'annual_data' rows, blank or not, and the loop moves on
      five rows. Without a column C every row is 'annual_data' and the loop
      moves on one row. */
  function WalkLabel(g: Grid, row: nat, i: nat): string
    requires row <= i
    decreases i - row
  {
    if Min(16, Width(g)) > 2 then
      if BlankCP(g, row) then (if i == row then "annual_separator" else WalkLabel(g, row + 1, i))
      else if i < row + 5 then "annual_data" else WalkLabel(g, row + 5, i)
    else if i == row then "annual_data" else WalkLabel(g, row + 1, i)
  }

  /** Row i (of the annual block) carries the label the loop from row 3
      gives it. */
  predicate AnnualOk(g: Grid, out: Regions, i: nat)
  {
    3 <= i && i in out && out[i] == WalkLabel(g, 3, i)
  }

  /** Every label of the walk is a separator blank in C..P, or annual data
      within five rows of a row that opened a set. */
  lemma {:induction false} WalkShape(g: Grid, row: nat, i: nat)
    requires row <= i
    ensures WalkLabel(g, row, i) == "annual_separator" || WalkLabel(g, row, i) == "annual_data"
    ensures WalkLabel(g, row, i) == "annual_separator" ==> !SetStart(g, i)
    ensures WalkLabel(g, row, i) == "annual_data" ==> exists j :: row <= j <= i < j + 5 && SetStart(g, j)
    decreases i - row
  {
    if Min(16, Width(g)) > 2 {
      if BlankCP(g, row) {
        if i > row {
          WalkShape(g, row + 1, i);
        }
      } else if i < row + 5 {
        assert row <= row <= i < row + 5 && SetStart(g, row);
      } else {
        WalkShape(g, row + 5, i);
      }
    } else if i == row {
      assert row <= row <= i < row + 5 && SetStart(g, row);
    } else {
      WalkShape(g, row + 1, i);
    }
  }

  /** A row that is not blank in C..P (or any row, without a column C) is
      annual data, wherever the walk's sets fall. */
  lemma {:induction false} SetStartIsData(g: Grid, row: nat, i: nat)
    requires row <= i && SetStart(g, i)
    ensures WalkLabel(g, row, i) == "annual_data"
    decreases i - row
  {
    if Min(16, Width(g)) > 2 {
      if BlankCP(g, row) {
        if i > row {
          SetStartIsData(g, row + 1, i);
        }
      } else if i >= row + 5 {
        SetStartIsData(g, row + 5, i);
      }
    } else if i > row {
      SetStartIsData(g, row + 1, i);
    }
  }

  /** Label as annual data the five rows from row, those before the separator. */
  method MarkSet(row: nat, sep: nat, regions: Regions) returns (out: Regions)
    ensures forall i :: i in out <==> i in regions || row <= i < Min(row + 5, sep)
    ensures forall i :: i in regions && !(row <= i < Min(row + 5, sep)) ==> out[i] == regions[i]
    ensures forall i :: row <= i < Min(row + 5, sep) ==> out[i] == "annual_data"
  {
    out := regions;
    var k := 0;
    while k < 5
      invariant 0 <= k <= 5
      invariant forall i :: i in out <==> i in regions || row <= i < Min(row + k, sep)
      invariant forall i :: i in regions && !(row <= i < Min(row + k, sep)) ==> out[i] == regions[i]
      invariant forall i :: row <= i < Min(row + k, sep) ==> out[i] == "annual_data"
    {
      if row + k < sep {
        out := out[row + k := "annual_data"];
      }
      k := k + 1;
    }
  }

  /** The loop over rows 3 .. sep-1: every row of the block gets the label
      WalkLabel gives it, and no other row changes. */
  method MarkAnnualRows(g: Grid, sep: nat, regions: Regions) returns (out: Regions)
    ensures forall i :: i in out <==> i in regions || 3 <= i < sep
    ensures forall i :: i in regions && !(3 <= i < sep) ==> out[i] == regions[i]
    ensures forall i :: 3 <= i < sep ==> AnnualOk(g, out, i)
  {
    out := regions;
    var maxc := Min(16, Width(g));
    var row: nat := 3;
    while row < sep
      invariant 3 <= row
      invariant forall i :: i in out <==> i in regions || 3 <= i < Min(row, sep)
      invariant forall i :: i in regions && !(3 <= i < sep) ==> out[i] == regions[i]
      invariant forall i :: 3 <= i < Min(row, sep) ==> AnnualOk(g, out, i)
      invariant forall i :: row <= i ==> WalkLabel(g, 3, i) == WalkLabel(g, row, i)
      decreases sep - row
    {
      ghost var before := out;
      if maxc > 2 {
        var blank := IsBlankCP(g, row);
        if blank {
          out := out[row := "annual_separator"];
          forall i | 3 <= i < Min(row + 1, sep) ensures AnnualOk(g, out, i) {
            if i < row {
              assert AnnualOk(g, before, i);
            }
          }
          forall i | row + 1 <= i ensures WalkLabel(g, 3, i) == WalkLabel(g, row + 1, i) {
            assert WalkLabel(g, 3, i) == WalkLabel(g, row, i);
          }
          row := row + 1;
        } else {
          out := MarkSet(row, sep, out);
          forall i | 3 <= i < Min(row + 5, sep) ensures AnnualOk(g, out, i) {
            if i >= row {
              assert WalkLabel(g, 3, i) == WalkLabel(g, row, i);
            } else {
              assert AnnualOk(g, before, i);
            }
          }
          forall i | row + 5 <= i ensures WalkLabel(g, 3, i) == WalkLabel(g, row + 5, i) {
            assert WalkLabel(g, 3, i) == WalkLabel(g, row, i);
          }
          row := row + 5;
        }
      } else {
        out := out[row := "annual_data"];
        forall i | 3 <= i < Min(row + 1, sep) ensures AnnualOk(g, out, i) {
          if i == row {
            assert WalkLabel(g, 3, i) == WalkLabel(g, row, i);
          } else {
            assert AnnualOk(g, before, i);
          }
        }
        forall i | row + 1 <= i ensures WalkLabel(g, 3, i) == WalkLabel(g, row + 1, i) {
          assert WalkLabel(g, 3, i) == WalkLabel(g, row, i);
        }
        row := row + 1;
      }
    }
  }


  // ---------------------------------------------------------------------
  // Laws of the first-match searches

  /** Extending a search window by one row. */
  lemma FirstNamingStep(col: seq<string>, ing: string, lo: nat, i: nat)
    requires lo <= i
    ensures FirstNaming(col, ing, lo, i + 1)
            == if FirstNaming(col, ing, lo, i).Some? then FirstNaming(col, ing, lo, i)
               else if Names(col, i, ing) then Some(i) else None
  {
    var r := FirstNaming(col, ing, lo, i + 1);
    var p := FirstNaming(col, ing, lo, i);
    if p.Some? {
      assert r.Some? && r.value <= p.value;
    } else if Names(col, i, ing) {
      assert r.Some?;
    }
  }

  /** A match in a prefix of the window is the match in the whole window. */
  lemma FirstNamingPrefix(col: seq<string>, ing: string, lo: nat, i: nat, hi: nat)
    requires lo <= i <= hi
    requires FirstNaming(col, ing, lo, i).Some?
    ensures FirstNaming(col, ing, lo, hi) == FirstNaming(col, ing, lo, i)
  {
    var p := FirstNaming(col, ing, lo, i);
    var r := FirstNaming(col, ing, lo, hi);
    assert r.Some? && r.value <= p.value;
  }

  lemma FirstNamingAnyStep(col: seq<string>, keys: seq<string>, lo: nat, i: nat)
    requires lo <= i
    ensures FirstNamingAny(col, keys, lo, i + 1)
            == if FirstNamingAny(col, keys, lo, i).Some? then FirstNamingAny(col, keys, lo, i)
               else if NamesAny(col, keys, i) then Some(i) else None
  {
    var r := FirstNamingAny(col, keys, lo, i + 1);
    var p := FirstNamingAny(col, keys, lo, i);
    if p.Some? {
      assert r.Some? && r.value <= p.value;
    } else if NamesAny(col, keys, i) {
      assert r.Some?;
    }
  }

  lemma FirstNamingAnyPrefix(col: seq<string>, keys: seq<string>, lo: nat, i: nat, hi: nat)
    requires lo <= i <= hi
    requires FirstNamingAny(col, keys, lo, i).Some?
    ensures FirstNamingAny(col, keys, lo, hi) == FirstNamingAny(col, keys, lo, i)
  {
    var p := FirstNamingAny(col, keys, lo, i);
    var r := FirstNamingAny(col, keys, lo, hi);
    assert r.Some? && r.value <= p.value;
  }

  // ---------------------------------------------------------------------
  // Ingredient starts

  /** The ingredients searched in list order, each from the row after the
      previous one found (from `temp` at first), within 500 rows. */
  function SearchStarts(col: seq<string>, keys: seq<string>, k: nat, temp: nat): seq<(nat, nat)>
    requires k <= |keys|
    decreases |keys| - k
  {
    if k == |keys| then []
    else
      match FirstNaming(col, keys[k], temp, Min(|col|, temp + 500))
      case Some(i) => [(k, i)] + SearchStarts(col, keys, k + 1, i + 1)
      case None => SearchStarts(col, keys, k + 1, temp)
  }

  /** The start rows found lie in [temp, n), name their ingredient, and
      belong to ingredients from the k-th on. */
  predicate StartsWithin(col: seq<string>, keys: seq<string>, k: nat, temp: nat, s: seq<(nat, nat)>)
  {
    forall j :: 0 <= j < |s| ==> k <= s[j].0 < |keys| && temp <= s[j].1 < |col| && Names(col, s[j].1, keys[s[j].0])
  }

  lemma {:induction false} StartsBounded(col: seq<string>, keys: seq<string>, k: nat, temp: nat)
    requires k <= |keys|
    ensures StartsWithin(col, keys, k, temp, SearchStarts(col, keys, k, temp))
    decreases |keys| - k
  {
    if k < |keys| {
      match FirstNaming(col, keys[k], temp, Min(|col|, temp + 500))
      case Some(i) => {
        StartsBounded(col, keys, k + 1, i + 1);
        var t := SearchStarts(col, keys, k + 1, i + 1);
        assert SearchStarts(col, keys, k, temp) == [(k, i)] + t;
        assert Names(col, i, keys[k]);
        assert StartsWithin(col, keys, k + 1, i + 1, t);
      }
      case None => {
        StartsBounded(col, keys, k + 1, temp);
        assert SearchStarts(col, keys, k, temp) == SearchStarts(col, keys, k + 1, temp);
      }
    }
  }

  predicate StrictlyOrdered(s: seq<(nat, nat)>)
  {
    forall a, b :: 0 <= a < b < |s| ==> s[a].1 < s[b].1 && s[a].0 < s[b].0
  }

  lemma ConsOrdered(x: (nat, nat), t: seq<(nat, nat)>)
    requires StrictlyOrdered(t)
    requires forall j :: 0 <= j < |t| ==> x.0 < t[j].0 && x.1 < t[j].1
    ensures StrictlyOrdered([x] + t)
  {
    var s := [x] + t;
    forall a, b | 0 <= a < b < |s| ensures s[a].1 < s[b].1 && s[a].0 < s[b].0 {
      assert s[b] == t[b - 1];
      if a > 0 { assert s[a] == t[a - 1]; }
    }
  }

  /** The start rows strictly increase, in ingredient list order. */
  lemma {:induction false} StartsIncreasing(col: seq<string>, keys: seq<string>, k: nat, temp: nat)
    requires k <= |keys|
    ensures StrictlyOrdered(SearchStarts(col, keys, k, temp))
    decreases |keys| - k
  {
    if k < |keys| {
      match FirstNaming(col, keys[k], temp, Min(|col|, temp + 500))
      case Some(i) => {
        StartsIncreasing(col, keys, k + 1, i + 1);
        StartsBounded(col, keys, k + 1, i + 1);
        var t := SearchStarts(col, keys, k + 1, i + 1);
        assert forall j :: 0 <= j < |t| ==> k < t[j].0 && i < t[j].1;
        ConsOrdered((k, i), t);
      }
      case None => {
        StartsIncreasing(col, keys, k + 1, temp);
      }
    }
  }

  /** One ingredient's search: the first row in [lo, hi) naming it. */
  method FindFrom(col: seq<string>, key: string, lo: nat, hi: nat) returns (r: Option<nat>)
    ensures r == FirstNaming(col, key, lo, hi)
  {
    var i: nat := lo;
    while i < hi
      invariant lo <= i
      invariant FirstNaming(col, key, i, hi) == FirstNaming(col, key, lo, hi)
      decreases hi - i
    {
      if Names(col, i, key) {
        return Some(i);
      }
      i := i + 1;
    }
    return None;
  }

  /** The start search of parse_excel_regions, for a sheet with a column A. */
  method FindIngredientStarts(col: seq<string>, keys: seq<string>, from: nat) returns (starts: seq<(nat, nat)>)
    ensures starts == SearchStarts(col, keys, 0, from)
  {
    starts := [];
    var temp: nat := from;
    var k: nat := 0;
    while k < |keys|
      invariant k <= |keys|
      invariant starts + SearchStarts(col, keys, k, temp) == SearchStarts(col, keys, 0, from)
    {
      var r := FindFrom(col, keys[k], temp, Min(|col|, temp + 500));
      if r.Some? {
        assert SearchStarts(col, keys, k, temp) == [(k, r.value)] + SearchStarts(col, keys, k + 1, r.value + 1);
        starts := starts + [(k, r.value)];
        temp := r.value + 1;
      }
      k := k + 1;
    }
    assert starts + [] == starts;
  }

  // ---------------------------------------------------------------------
  // Ingredient rows when there is no separator

  predicate InFound(found: seq<(nat, nat)>, k: nat)
  {
    exists j :: 0 <= j < |found| && found[j].0 == k
  }

  /** Keys k .. of the list checked against row i: each key that names
      the row and is not found yet is recorded at row i. */
  function RowFound(col: seq<string>, keys: seq<string>, i: nat, k: nat, found: seq<(nat, nat)>): seq<(nat, nat)>
    requires k <= |keys|
    decreases |keys| - k
  {
    if k == |keys| then found
    else if Names(col, i, keys[k]) && !InFound(found, k) then RowFound(col, keys, i, k + 1, found + [(k, i)])
    else RowFound(col, keys, i, k + 1, found)
  }

  /** The ingredients recorded once rows 2 .. i-1 of column A are checked. */
  function FoundUpTo(col: seq<string>, keys: seq<string>, i: nat): seq<(nat, nat)>
  {
    if i <= 2 then [] else RowFound(col, keys, i - 1, 0, FoundUpTo(col, keys, i - 1))
  }

  /** Ingredient indices distinct, rows nondecreasing. */
  predicate FoundOrdered(found: seq<(nat, nat)>)
  {
    forall a, b :: 0 <= a < b < |found| ==> found[a].0 != found[b].0 && found[a].1 <= found[b].1
  }

  /** What the column-A search has built once it has checked rows 2 .. i-1
      of the window [2, hi): each entry an ingredient at its first row in
      the window; every ingredient named before row i present; entries in
      order; the first entry the first row naming any ingredient. */
  predicate FoundSoFar(col: seq<string>, keys: seq<string>, i: nat, hi: nat, found: seq<(nat, nat)>)
  {
    2 <= i <= hi
    && (forall j :: 0 <= j < |found| ==> (found[j].0 < |keys| && found[j].1 < i
          && FirstNaming(col, keys[found[j].0], 2, hi) == Some(found[j].1)))
    && (forall k :: 0 <= k < |keys| && FirstNaming(col, keys[k], 2, i).Some? ==> InFound(found, k))
    && FoundOrdered(found)
    && (|found| == 0 ==> FirstNamingAny(col, keys, 2, i).None?)
    && (|found| > 0 ==> FirstNamingAny(col, keys, 2, hi) == Some(found[0].1))
  }

  /** FoundSoFar for row i, part way through the keys: keys 0 .. k-1 have
      been checked against row i. */
  predicate RowSoFar(col: seq<string>, keys: seq<string>, i: nat, hi: nat, k: nat, out: seq<(nat, nat)>)
  {
    2 <= i < hi && k <= |keys|
    && (forall j :: 0 <= j < |out| ==> (out[j].0 < |keys| && out[j].1 <= i
          && FirstNaming(col, keys[out[j].0], 2, hi) == Some(out[j].1)))
    && (forall k' :: 0 <= k' < |keys| && FirstNaming(col, keys[k'], 2, i).Some? ==> InFound(out, k'))
    && (forall k' :: 0 <= k' < k && Names(col, i, keys[k']) ==> InFound(out, k'))
    && FoundOrdered(out)
    && (|out| == 0 ==> FirstNamingAny(col, keys, 2, i).None? && forall k' :: 0 <= k' < k ==> !Names(col, i, keys[k']))
    && (|out| > 0 ==> FirstNamingAny(col, keys, 2, hi) == Some(out[0].1))
  }

  lemma InFoundAppend(found: seq<(nat, nat)>, x: (nat, nat))
    ensures forall k :: InFound(found, k) ==> InFound(found + [x], k)
    ensures InFound(found + [x], x.0)
  {
    var out := found + [x];
    forall k | InFound(found, k) ensures InFound(out, k) {
      var j :| 0 <= j < |found| && found[j].0 == k;
      assert out[j] == found[j];
    }
    assert out[|found|] == x;
  }

  /** Key k names row i and is new: it is found at row i, its first row. */
  lemma KeyAdded(col: seq<string>, keys: seq<string>, i: nat, hi: nat, k: nat, found: seq<(nat, nat)>)
    requires k < |keys|
    requires RowSoFar(col, keys, i, hi, k, found)
    requires Names(col, i, keys[k]) && !InFound(found, k)
    ensures RowSoFar(col, keys, i, hi, k + 1, found + [(k, i)])
  {
    FirstNamingStep(col, keys[k], 2, i);
    FirstNamingPrefix(col, keys[k], 2, i + 1, hi);
    if |found| == 0 {
      assert NamesAny(col, keys, i);
      FirstNamingAnyStep(col, keys, 2, i);
      FirstNamingAnyPrefix(col, keys, 2, i + 1, hi);
    }
    InFoundAppend(found, (k, i));
  }

  /** Key k does not name row i, or was found before: nothing to add. */
  lemma KeySkipped(col: seq<string>, keys: seq<string>, i: nat, hi: nat, k: nat, found: seq<(nat, nat)>)
    requires k < |keys|
    requires RowSoFar(col, keys, i, hi, k, found)
    requires !(Names(col, i, keys[k]) && !InFound(found, k))
    ensures RowSoFar(col, keys, i, hi, k + 1, found)
  {
  }

  /** One ingredient test of row i: the key is recorded at row i when the row names
      it and it was not found before. */
  method ScanKey(col: seq<string>, keys: seq<string>, i: nat, hi: nat, k: nat, found: seq<(nat, nat)>) returns (out: seq<(nat, nat)>)
    requires k < |keys|
    requires RowSoFar(col, keys, i, hi, k, found)
    ensures RowSoFar(col, keys, i, hi, k + 1, out)
    ensures RowFound(col, keys, i, k + 1, out) == RowFound(col, keys, i, k, found)
  {
    if Names(col, i, keys[k]) && !InFound(found, k) {
      KeyAdded(col, keys, i, hi, k, found);
      out := found + [(k, i)];
    } else {
      KeySkipped(col, keys, i, hi, k, found);
      out := found;
    }
  }

  /** The inner loop over the ingredients for row i. */
  method ScanRow(col: seq<string>, keys: seq<string>, i: nat, hi: nat, found: seq<(nat, nat)>) returns (out: seq<(nat, nat)>)
    requires i < hi
    requires FoundSoFar(col, keys, i, hi, found)
    requires found == FoundUpTo(col, keys, i)
    ensures FoundSoFar(col, keys, i + 1, hi, out)
    ensures out == FoundUpTo(col, keys, i + 1)
  {
    assert FoundUpTo(col, keys, i + 1) == RowFound(col, keys, i, 0, found);
    out := found;
    var k := 0;
    while k < |keys|
      invariant RowSoFar(col, keys, i, hi, k, out)
      invariant RowFound(col, keys, i, k, out) == RowFound(col, keys, i, 0, found)
    {
      out := ScanKey(col, keys, i, hi, k, out);
      k := k + 1;
    }
    forall k' | 0 <= k' < |keys| && FirstNaming(col, keys[k'], 2, i + 1).Some? ensures InFound(out, k') {
      FirstNamingStep(col, keys[k'], 2, i);
    }
    FirstNamingAnyStep(col, keys, 2, i);
  }

  /** The column-A search over rows 2 .. min(n, 200) - 1, each row checked
      against every ingredient not found yet. It finds exactly the
      ingredients named somewhere in the window, each at its first row,
      once, in nondecreasing row order (so sorting them by row, which is
      stable, leaves them as they are); the first entry is the first row
      that names any ingredient. */
  method FindIngredientRows(col: seq<string>, keys: seq<string>) returns (found: seq<(nat, nat)>)
    ensures found == FoundUpTo(col, keys, Min(|col|, 200))
    ensures forall j :: 0 <= j < |found| ==> (found[j].0 < |keys|
            && FirstNaming(col, keys[found[j].0], 2, Min(|col|, 200)) == Some(found[j].1))
    ensures forall k :: 0 <= k < |keys| && FirstNaming(col, keys[k], 2, Min(|col|, 200)).Some? ==> InFound(found, k)
    ensures FoundOrdered(found)
    ensures |found| > 0 <==> FirstNamingAny(col, keys, 2, Min(|col|, 200)).Some?
    ensures |found| > 0 ==> FirstNamingAny(col, keys, 2, Min(|col|, 200)) == Some(found[0].1)
  {
    var hi := Min(|col|, 200);
    found := [];
    if hi < 2 {
      return;
    }
    found := ScanRows(col, keys, hi);
    FoundDone(col, keys, hi, found);
  }

  /** The row loop of the column-A search, over rows 2 .. hi-1. */
  method ScanRows(col: seq<string>, keys: seq<string>, hi: nat) returns (found: seq<(nat, nat)>)
    requires 2 <= hi
    ensures FoundSoFar(col, keys, hi, hi, found)
    ensures found == FoundUpTo(col, keys, hi)
  {
    found := [];
    var i: nat := 2;
    while i < hi
      invariant FoundSoFar(col, keys, i, hi, found)
      invariant found == FoundUpTo(col, keys, i)
      decreases hi - i
    {
      found := ScanRow(col, keys, i, hi, found);
      i := i + 1;
    }
  }

  lemma FoundDone(col: seq<string>, keys: seq<string>, hi: nat, found: seq<(nat, nat)>)
    requires FoundSoFar(col, keys, hi, hi, found)
    ensures forall j :: 0 <= j < |found| ==> (found[j].0 < |keys| && FirstNaming(col, keys[found[j].0], 2, hi) == Some(found[j].1))
    ensures forall k :: 0 <= k < |keys| && FirstNaming(col, keys[k], 2, hi).Some? ==> InFound(found, k)
    ensures FoundOrdered(found)
    ensures |found| > 0 <==> FirstNamingAny(col, keys, 2, hi).Some?
    ensures |found| > 0 ==> FirstNamingAny(col, keys, 2, hi) == Some(found[0].1)
  {
  }

  // ---------------------------------------------------------------------
  // Labelling the ingredient segments

  /** Where the segment of starts[idx] ends: at the next start, or at n. */
  function SegmentEnd(starts: seq<(nat, nat)>, idx: nat, n: nat): nat
    requires idx < |starts|
  {
    if idx + 1 < |starts| then starts[idx + 1].1 else n
  }

  predicate StartsNondecreasing(starts: seq<(nat, nat)>)
  {
    forall a, b :: 0 <= a < b < |starts| ==> starts[a].1 <= starts[b].1
  }

  /** The region labels of the codes, in the same order. */
  function LabelsOf(keys: seq<string>): (r: seq<string>)
    ensures |r| == |keys|
    ensures forall k :: 0 <= k < |keys| ==> r[k] == IngredientLabel(keys[k])
  {
    seq(|keys|, k requires 0 <= k < |keys| => IngredientLabel(keys[k]))
  }

  /** Row i carries the label of one of the ingredients. */
  predicate IngredientLabelled(out: Regions, i: nat)
  {
    i in out && out[i] in LabelsOf(IngredientKeys)
  }

  /** b is a with rows lo .. hi-1 (re)labelled and nothing else changed. */
  ghost predicate Frame(a: Regions, b: Regions, lo: nat, hi: nat)
  {
    (forall i :: i in b <==> i in a || lo <= i < hi)
    && (forall i :: i in a && !(lo <= i < hi) ==> i in b && b[i] == a[i])
  }

  /** Each start's label covers its rows up to the next start (or n). */
  predicate Segmented(out: Regions, starts: seq<(nat, nat)>, labels: seq<string>, n: nat)
  {
    forall idx, i :: 0 <= idx < |starts| && starts[idx].0 < |labels| && starts[idx].1 <= i < SegmentEnd(starts, idx, n)
      ==> i in out && out[i] == labels[starts[idx].0]
  }

  lemma FrameCompose(a: Regions, b: Regions, c: Regions, lo: nat, mid: nat, hi: nat)
    requires lo <= mid
    requires Frame(a, b, lo, mid) && Frame(b, c, mid, hi)
    ensures Frame(a, c, lo, if mid <= hi then hi else mid)
  {
  }

  /** One segment: rows lo .. hi-1 get the label, no other row changes. */
  method LabelRange(regions: Regions, lo: nat, hi: nat, tag: string) returns (out: Regions)
    ensures Frame(regions, out, lo, hi)
    ensures forall i :: lo <= i < hi ==> i in out && out[i] == tag
  {
    out := regions;
    var j: nat := lo;
    while j < hi
      invariant j == lo || lo <= j <= hi
      invariant Frame(regions, out, lo, j)
      invariant forall i :: lo <= i < j ==> i in out && out[i] == tag
      decreases hi - j
    {
      out := out[j := tag];
      j := j + 1;
    }
  }

  /** Each start labels the rows from its row up to the next start (or the
      end of the sheet) with its label; every row from the first start on
      gets one of the labels, and no other row changes. */
  method LabelSegments(regions: Regions, starts: seq<(nat, nat)>, labels: seq<string>, n: nat) returns (out: Regions)
    requires |starts| > 0
    requires forall j :: 0 <= j < |starts| ==> starts[j].0 < |labels| && starts[j].1 <= n
    requires StartsNondecreasing(starts)
    ensures Frame(regions, out, starts[0].1, n)
    ensures Segmented(out, starts, labels, n)
    ensures forall i :: starts[0].1 <= i < n ==> i in out && out[i] in labels
  {
    out := regions;
    var idx := 0;
    while idx < |starts|
      invariant 0 <= idx <= |starts|
      invariant Frame(regions, out, starts[0].1, if idx < |starts| then starts[idx].1 else n)
      invariant Segmented(out, starts[..idx], labels, if idx < |starts| then starts[idx].1 else n)
      invariant forall i :: starts[0].1 <= i < (if idx < |starts| then starts[idx].1 else n) ==> i in out && out[i] in labels
    {
      var k := starts[idx].0;
      var lo := starts[idx].1;
      var hi := SegmentEnd(starts, idx, n);
      ghost var before := out;
      out := LabelRange(out, lo, hi, labels[k]);
      SegmentStep(before, out, starts, labels, n, idx);
      FrameCompose(regions, before, out, starts[0].1, lo, hi);
      forall i | starts[0].1 <= i < hi ensures i in out && out[i] in labels {
        if i < lo {
          assert i in before && before[i] in labels;
        } else {
          assert out[i] == labels[k];
        }
      }
      idx := idx + 1;
    }
    assert starts[..|starts|] == starts;
  }

  lemma SegmentStep(before: Regions, out: Regions, starts: seq<(nat, nat)>, labels: seq<string>, n: nat, idx: nat)
    requires idx < |starts|
    requires forall j :: 0 <= j < |starts| ==> starts[j].0 < |labels| && starts[j].1 <= n
    requires StartsNondecreasing(starts)
    requires Segmented(before, starts[..idx], labels, starts[idx].1)
    requires Frame(before, out, starts[idx].1, SegmentEnd(starts, idx, n))
    requires forall i :: starts[idx].1 <= i < SegmentEnd(starts, idx, n) ==> i in out && out[i] == labels[starts[idx].0]
    ensures Segmented(out, starts[..idx + 1], labels, SegmentEnd(starts, idx, n))
  {
    var p := starts[..idx + 1];
    var lo := starts[idx].1;
    forall d, i | 0 <= d < |p| && p[d].0 < |labels| && p[d].1 <= i < SegmentEnd(p, d, SegmentEnd(starts, idx, n))
      ensures i in out && out[i] == labels[p[d].0]
    {
      assert p[d] == starts[d];
      if d < idx {
        assert SegmentEnd(p, d, SegmentEnd(starts, idx, n)) == SegmentEnd(starts[..idx], d, lo);
        assert i in before && before[i] == labels[p[d].0];
      }
    }
  }

  // ---------------------------------------------------------------------
  // parse_excel_regions

  /** The title row, and row 1 when the sheet has one. */
  predicate TitleRows(g: Grid, regions: Regions)
  {
    (forall i :: i in regions ==> i < |g|)
    && 0 in regions && regions[0] == "title"
    && (|g| > 1 ==> 1 in regions && regions[1] == "empty")
  }

  /** Rows 2 .. first-1 before the first ingredient row: row 2 is the
      annual header, the others annual data; no other row changes. */
  method LabelLeading(regions: Regions, first: nat) returns (out: Regions)
    ensures Frame(regions, out, 2, first)
    ensures forall i :: 2 <= i < first ==> i in out && out[i] == (if i > 2 then "annual_data" else "annual_header")
  {
    out := regions;
    if 2 < first {
      out := out[2 := "annual_header"];
    }
    var tail := LabelRange(out, 3, first, "annual_data");
    FrameCompose(regions, out, tail, 2, if 2 < first then 3 else 2, first);
    out := tail;
  }

  /** Segments survive an update of rows lo .. hi-1 that all lie before
      the first start. */
  lemma SegmentedKept(a: Regions, b: Regions, starts: seq<(nat, nat)>, labels: seq<string>, n: nat, lo: nat, hi: nat)
    requires Segmented(a, starts, labels, n)
    requires Frame(a, b, lo, hi)
    requires forall j :: 0 <= j < |starts| ==> hi <= starts[j].1
    ensures Segmented(b, starts, labels, n)
  {
  }

  /** The rows of the branch without a separator: with no column A, or no
      ingredient named in rows 2 .. min(n, 200)-1, every row from 2 on is
      unknown; otherwise the rows before the first ingredient row are the
      annual header (row 2) and data, every later row carries an ingredient
      label, and each ingredient found labels the rows from its first
      naming row up to the next ingredient's. */
  predicate NoSeparatorRows(g: Grid, col: seq<string>, out: Regions)
  {
    var f := FirstNamingAny(col, IngredientKeys, 2, Min(|g|, 200));
    ((Width(g) == 0 || f.None?) ==> forall i :: 2 <= i < |g| ==> i in out && out[i] == "unknown")
    && ((Width(g) > 0 && f.Some?)
        ==> (forall i :: 2 <= i < f.value ==> i in out && out[i] == (if i > 2 then "annual_data" else "annual_header"))
            && (forall i :: f.value <= i < |g| ==> IngredientLabelled(out, i))
            && Segmented(out, FoundUpTo(col, IngredientKeys, Min(|g|, 200)), LabelsOf(IngredientKeys), |g|))
  }

  /** The branch without a separator: column A names no ingredient (or
      there is no column A) and every row from 2 on is unknown; or the rows
      before the first ingredient row are the annual header (row 2) and
      data, and every row from it on carries an ingredient label. */
  method LabelWithoutSeparator(g: Grid, col: seq<string>, regions: Regions) returns (out: Regions)
    requires |g| > 0 && |col| == |g| && TitleRows(g, regions)
    requires forall i :: i in regions ==> i < 2
    ensures TitleRows(g, out)
    ensures NoSeparatorRows(g, col, out)
  {
    var n := |g|;
    var found: seq<(nat, nat)> := [];
    if Width(g) > 0 {
      found := FindIngredientRows(col, IngredientKeys);
    }
    if |found| > 0 {
      // Sorting the found ingredients by their row changes nothing: the rows
      // are already in nondecreasing order and the sort is stable
      var labelled := LabelSegments(regions, found, LabelsOf(IngredientKeys), n);
      out := LabelLeading(labelled, found[0].1);
      SegmentedKept(labelled, out, found, LabelsOf(IngredientKeys), n, 2, found[0].1);
    } else {
      out := LabelRange(regions, 2, n, "unknown");
    }
  }

  /** The annual block and the ingredient headers of the branch with a
      separator row s. */
  predicate AnnualBlock(g: Grid, s: nat, regions: Regions)
  {
    (2 < s ==> 2 in regions && regions[2] == "annual_header")
    && (forall i :: 3 <= i < s ==> AnnualOk(g, regions, i))
    && s in regions && regions[s] == "empty"
    && (forall i :: s < i <= s + 3 && i < |g| ==> i in regions && regions[i] == "ingredient_header")
  }

  /** AnnualOk survives any update that leaves rows 3 .. s-1 alone. */
  lemma AnnualKept(g: Grid, a: Regions, b: Regions, s: nat)
    requires forall i :: 3 <= i < s ==> AnnualOk(g, a, i)
    requires forall i :: 3 <= i < s ==> i in a && i in b && b[i] == a[i]
    ensures forall i :: 3 <= i < s ==> AnnualOk(g, b, i)
  {
    forall i | 3 <= i < s ensures AnnualOk(g, b, i) {
      assert AnnualOk(g, a, i);
    }
  }

  /** The annual block: the header row, the sets of rows 3 .. s-1, the
      separator row as 'empty' and the three ingredient header rows; no
      row from s + 4 on is labelled. */
  method LabelAnnualBlock(g: Grid, s: nat, regions: Regions) returns (out: Regions)
    requires 2 <= s < |g| && RowBlank(g, s)
    requires TitleRows(g, regions)
    requires forall i :: i in regions ==> i < 2
    ensures TitleRows(g, out)
    ensures AnnualBlock(g, s, out)
    ensures forall i :: i in out ==> i < s + 4
  {
    var n := |g|;
    out := regions;
    if 2 < s {
      out := out[2 := "annual_header"];
    }
    var marked := MarkAnnualRows(g, s, out);
    var blank := IsBlankRow(g, s);
    out := marked[s := "empty"];
    AnnualKept(g, marked, out, s);
    var headers := LabelRange(out, s + 1, Min(s + 4, n), "ingredient_header");
    AnnualKept(g, out, headers, s);
    out := headers;
  }

  /** Labelling rows from lo >= s + 4 on keeps the title rows and the
      annual block. */
  lemma BlockKept(g: Grid, s: nat, a: Regions, b: Regions, lo: nat)
    requires s + 4 <= lo
    requires TitleRows(g, a) && AnnualBlock(g, s, a)
    requires Frame(a, b, lo, |g|)
    ensures TitleRows(g, b) && AnnualBlock(g, s, b)
  {
    forall i | 3 <= i < s ensures i in a && i in b && b[i] == a[i] {
      assert AnnualOk(g, a, i);
    }
    AnnualKept(g, a, b, s);
  }

  /** Where the ingredient segments of the branch with separator row s
      begin: the first start found after the headers, or the end of the
      sheet when there is none or the sheet has no column A. */
  function FirstStart(g: Grid, col: seq<string>, s: nat): nat
  {
    var starts := SearchStarts(col, IngredientKeys, 0, s + 4);
    if Width(g) > 0 && |starts| > 0 then starts[0].1 else |g|
  }

  /** The branch with a separator row s: the annual block, then each
      ingredient start found after the headers labels the rows up to the
      next start (or the end of the sheet); the rows from s + 4 before the
      first start stay unlabelled. */
  method LabelWithSeparator(g: Grid, col: seq<string>, s: nat, regions: Regions) returns (out: Regions)
    requires 2 <= s < |g| && |col| == |g| && RowBlank(g, s)
    requires TitleRows(g, regions)
    requires forall i :: i in regions ==> i < 2
    ensures TitleRows(g, out)
    ensures AnnualBlock(g, s, out)
    ensures Width(g) > 0 ==> Segmented(out, SearchStarts(col, IngredientKeys, 0, s + 4), LabelsOf(IngredientKeys), |g|)
    ensures forall i :: s + 4 <= i < FirstStart(g, col, s) ==> i !in out
  {
    out := LabelAnnualBlock(g, s, regions);
    if Width(g) > 0 {
      out := LabelIngredients(g, col, s, out);
    }
  }

  /** The ingredient search after the headers (the sheet has a column A)
      and the segments it finds; rows from s + 4 before the first start
      stay unlabelled. */
  method LabelIngredients(g: Grid, col: seq<string>, s: nat, regions: Regions) returns (out: Regions)
    requires |col| == |g| && Width(g) > 0
    requires TitleRows(g, regions) && AnnualBlock(g, s, regions)
    requires forall i :: i in regions ==> i < s + 4
    ensures TitleRows(g, out) && AnnualBlock(g, s, out)
    ensures Segmented(out, SearchStarts(col, IngredientKeys, 0, s + 4), LabelsOf(IngredientKeys), |g|)
    ensures forall i :: s + 4 <= i < FirstStart(g, col, s) ==> i !in out
  {
    out := regions;
    var starts := FindIngredientStarts(col, IngredientKeys, s + 4);
    if |starts| > 0 {
      StartsBounded(col, IngredientKeys, 0, s + 4);
      StartsIncreasing(col, IngredientKeys, 0, s + 4);
      assert StartsWithin(col, IngredientKeys, 0, s + 4, starts);
      assert StrictlyOrdered(starts);
      out := LabelSegments(regions, starts, LabelsOf(IngredientKeys), |g|);
      BlockKept(g, s, regions, out, starts[0].1);
    }
  }

  /** Row 0 is the title and row 1, when there is one, empty. */
  method LabelTitles(g: Grid) returns (regions: Regions)
    requires |g| > 0
    ensures TitleRows(g, regions)
    ensures forall i :: i in regions ==> i < 2
  {
    regions := map[0 := "title"];
    if 1 < |g| {
      regions := regions[1 := "empty"];
    }
  }

  /** Everything parse_excel_regions promises about the regions of g. */
  ghost predicate ParsedRegions(g: Grid, regions: Regions)
  {
    (|g| == 0 ==> regions == map[])
    && (|g| > 0 ==> TitleRows(g, regions))
    && (Separator(g).Some? ==> AnnualBlock(g, Separator(g).value, regions))
    && ((Separator(g).Some? && Width(g) > 0) ==>
          Segmented(regions, SearchStarts(ColumnTexts(g, |g|), IngredientKeys, 0, Separator(g).value + 4), LabelsOf(IngredientKeys), |g|))
    && (Separator(g).Some? ==>
          forall i :: Separator(g).value + 4 <= i < FirstStart(g, ColumnTexts(g, |g|), Separator(g).value) ==> i !in regions)
    && ((|g| > 0 && Separator(g).None?) ==> NoSeparatorRows(g, ColumnTexts(g, |g|), regions))
  }

  /** parse_excel_regions over a sheet. Labels only rows of the sheet; row 0
      is the title and row 1 empty. With a separator row: the annual block
      before it, and the ingredient segments after its headers; without
      one: the rows as column A's first ingredient mentions divide them. */
  method ParseExcelRegions(g: Grid) returns (regions: Regions)
    ensures |g| == 0 ==> regions == map[]
    ensures |g| > 0 ==> TitleRows(g, regions)
    ensures Separator(g).Some? ==> AnnualBlock(g, Separator(g).value, regions)
    ensures (Separator(g).Some? && Width(g) > 0) ==>
              Segmented(regions, SearchStarts(ColumnTexts(g, |g|), IngredientKeys, 0, Separator(g).value + 4), LabelsOf(IngredientKeys), |g|)
    ensures Separator(g).Some? ==>
              forall i :: Separator(g).value + 4 <= i < FirstStart(g, ColumnTexts(g, |g|), Separator(g).value) ==> i !in regions
    ensures (|g| > 0 && Separator(g).None?) ==> NoSeparatorRows(g, ColumnTexts(g, |g|), regions)
    ensures ParsedRegions(g, regions)
  {
    regions := map[];
    if |g| == 0 {
      return;
    }
    regions := LabelTitles(g);
    var col := ColumnTexts(g, |g|);
    var sep := FindSeparator(g);
    if sep == -1 {
      regions := LabelWithoutSeparator(g, col, regions);
    } else {
      regions := LabelWithSeparator(g, col, sep, regions);
    }
  }

  /** A sheet without a separator whose column A names MCT360 on row 2 and
      MCT165 on row 3: each row carries its own ingredient. */
  lemma TwoIngredientRows(g: Grid, regions: Regions)
    requires g == [[Str("t")], [Str("x")], [Str("mct360")], [Str("mct165")]]
    requires ParsedRegions(g, regions)
    ensures 2 in regions && regions[2] == "ingredient_mct360"
    ensures 3 in regions && regions[3] == "ingredient_mct165"
  {
    TwoRowShape(g);
    var col := ColumnTexts(g, |g|);
    assert NoSeparatorRows(g, col, regions);
    TwoRowsNamed(col);
    TwoRowsFound(col);
    TwoSegments(regions);
  }

  /** Row 2 of the sheet above names an ingredient. */
  lemma TwoRowsNamed(col: seq<string>)
    requires col == ["t", "x", "mct360", "mct165"]
    ensures FirstNamingAny(col, IngredientKeys, 2, 4).Some?
  {
    ContainsSelf(col[2]);
    assert Names(col, 2, IngredientKeys[0]);
    assert NamesAny(col, IngredientKeys, 2);
  }

  /** The two segments of the sheet above label rows 2 and 3. */
  lemma TwoSegments(regions: Regions)
    requires Segmented(regions, [(0, 2), (1, 3)], LabelsOf(IngredientKeys), 4)
    ensures 2 in regions && regions[2] == "ingredient_mct360"
    ensures 3 in regions && regions[3] == "ingredient_mct165"
  {
    var f := [(0, 2), (1, 3)];
    assert SegmentEnd(f, 0, 4) == 3 && SegmentEnd(f, 1, 4) == 4;
    assert f[0].1 <= 2 < SegmentEnd(f, 0, 4);
    assert f[1].1 <= 3 < SegmentEnd(f, 1, 4);
  }

  /** The sheet above has no separator, a column A, and those column texts. */
  lemma TwoRowShape(g: Grid)
    requires g == [[Str("t")], [Str("x")], [Str("mct360")], [Str("mct165")]]
    ensures Separator(g).None? && Width(g) > 0
    ensures ColumnTexts(g, |g|) == ["t", "x", "mct360", "mct165"]
  {
    TwoRowNoSeparator(g);
    TwoRowTexts(g);
  }

  lemma TwoRowNoSeparator(g: Grid)
    requires g == [[Str("t")], [Str("x")], [Str("mct360")], [Str("mct165")]]
    ensures Separator(g).None? && Width(g) > 0
  {
    assert At(g, 2, 0) != Blank && At(g, 3, 0) != Blank;
    assert !RowBlank(g, 2) && !RowBlank(g, 3);
  }

  lemma TwoRowTexts(g: Grid)
    requires g == [[Str("t")], [Str("x")], [Str("mct360")], [Str("mct165")]]
    ensures ColumnTexts(g, 4) == ["t", "x", "mct360", "mct165"]
  {
    var col := ["t", "x", "mct360", "mct165"];
    TwoRowCells(g);
    assert ColumnTexts(g, 1) == col[..1];
    assert ColumnTexts(g, 2) == col[..2];
    assert ColumnTexts(g, 3) == col[..3];
  }

  lemma TwoRowCells(g: Grid)
    requires g == [[Str("t")], [Str("x")], [Str("mct360")], [Str("mct165")]]
    ensures ColumnA(g, 0) == "t" && ColumnA(g, 1) == "x"
    ensures ColumnA(g, 2) == "mct360" && ColumnA(g, 3) == "mct165"
  {
    assert Lower("t") == "t" && Lower("x") == "x";
    LowerKeeps("mct360");
    LowerKeeps("mct165");
  }

  /** The lowercase ingredient texts are their own lowering. */
  lemma LowerKeeps(s: string)
    requires s == "mct360" || s == "mct165"
    ensures Lower(s) == s
  {
    var a, d := "mct", if s == "mct360" then "360" else "165";
    assert s == a + d;
    assert Lower(a) == a;
    assert Lower(d) == d;
    assert Lower(a + d) == Lower(a) + Lower(d);
  }

  /** The reference search over the two rows above. */
  lemma TwoRowsFound(col: seq<string>)
    requires col == ["t", "x", "mct360", "mct165"]
    ensures FoundUpTo(col, IngredientKeys, 4) == [(0, 2), (1, 3)]
  {
    FirstRowFound(col);
    forall k | 0 <= k < 6 && Names(col, 3, IngredientKeys[k]) ensures k == 1 {
      ContainsLength(col[3], IngredientKeys[k]);
    }
    ContainsSelf(col[3]);
    var one := [(0, 2)];
    assert one[0].0 == 0;
    assert InFound(one, 0) && !InFound(one, 1);
    assert FoundUpTo(col, IngredientKeys, 4) == RowFound(col, IngredientKeys, 3, 0, one);
  }

  lemma FirstRowFound(col: seq<string>)
    requires col == ["t", "x", "mct360", "mct165"]
    ensures FoundUpTo(col, IngredientKeys, 3) == [(0, 2)]
  {
    forall k | 0 <= k < 6 && Names(col, 2, IngredientKeys[k]) ensures k == 0 {
      ContainsLength(col[2], IngredientKeys[k]);
    }
    ContainsSelf(col[2]);
    assert !InFound([], 0);
    assert FoundUpTo(col, IngredientKeys, 3) == RowFound(col, IngredientKeys, 2, 0, []);
  }

  lemma ContainsSelf(s: string)
    ensures Contains(s, s)
  {
  }

  /** A text holds only texts at most as long as itself, and of its own
      length only itself. */
  lemma {:induction false} ContainsLength(s: string, sub: string)
    requires Contains(s, sub)
    ensures |sub| <= |s| && (|sub| == |s| ==> sub == s)
    decreases |s|
  {
    if !(sub <= s) {
      ContainsLength(s[1..], sub);
    }
  }

  /** A row blank in C..P inside a five-row set stays annual data: on the
      sheet below, row 3 opens the set 3 .. 7, the separator is row 5, and
      row 4 (blank in C..P) is 'annual_data', never 'annual_separator'. */
  lemma BlankRowInSet(g: Grid, regions: Regions)
    requires g == [[Str("t")], [Str("x")], [Str("h")], [Blank, Blank, Num(1.0)], [Str("a"), Blank, Blank], [Blank, Blank, Blank]]
    requires ParsedRegions(g, regions)
    ensures 3 in regions && regions[3] == "annual_data"
    ensures 4 in regions && regions[4] == "annual_data"
  {
    SetGridSeparator(g);
    SetGridWalk(g);
    assert AnnualBlock(g, 5, regions);
    assert AnnualOk(g, regions, 3) && AnnualOk(g, regions, 4);
  }

  /** The sheet above is three columns wide and its separator is row 5. */
  lemma SetGridSeparator(g: Grid)
    requires g == [[Str("t")], [Str("x")], [Str("h")], [Blank, Blank, Num(1.0)], [Str("a"), Blank, Blank], [Blank, Blank, Blank]]
    ensures Width(g) == 3
    ensures Separator(g) == Some(5)
  {
    assert |g[5]| == 3;
    assert At(g, 2, 0) != Blank && At(g, 3, 2) != Blank && At(g, 4, 0) != Blank;
    assert !RowBlank(g, 2) && !RowBlank(g, 3) && !RowBlank(g, 4);
    assert RowBlank(g, 5);
    assert FirstBlank(g, 5, 6) == Some(5);
  }

  /** The walk from row 3 labels rows 3 and 4 of the sheet above as data. */
  lemma SetGridWalk(g: Grid)
    requires Width(g) == 3
    requires At(g, 3, 2) == Num(1.0)
    ensures WalkLabel(g, 3, 3) == "annual_data"
    ensures WalkLabel(g, 3, 4) == "annual_data"
  {
    assert !BlankCP(g, 3);
  }

  // ---------------------------------------------------------------------
  // The index view: annual records and their set types

  /** An empty value of a row dict: NaN (turned into "") or "". */
  predicate EmptyCell(c: Cell) { c == Blank || c == Str("") }

  predicate AllEmpty(cells: seq<Cell>)
  {
    forall c :: 0 <= c < |cells| ==> EmptyCell(cells[c])
  }

  /** The cells of row i in the first k columns (16 reach column P). */
  function RowCells(g: Grid, i: nat, k: nat): (cells: seq<Cell>)
    ensures |cells| == Min(k, Width(g))
  {
    seq(Min(k, Width(g)), c requires 0 <= c < Min(k, Width(g)) => At(g, i, c))
  }

  /** The rows 0 .. n-1 labelled annual data or annual separator, cut to A..P. */
  function AnnualCandidates(g: Grid, regions: Regions, n: nat): seq<seq<Cell>>
  {
    if n == 0 then []
    else
      AnnualCandidates(g, regions, n - 1)
      + (if Label(regions, n - 1) == "annual_data" || Label(regions, n - 1) == "annual_separator"
         then [RowCells(g, n - 1, 16)] else [])
  }

  /** The annual records: the candidates after the first. */
  function AnnualRecords(g: Grid, regions: Regions): seq<seq<Cell>>
  {
    var all := AnnualCandidates(g, regions, |g|);
    if |all| == 0 then [] else all[1..]
  }

  /** How many of the rows are not entirely empty. */
  function DataCount(rows: seq<seq<Cell>>): nat
  {
    if |rows| == 0 then 0 else DataCount(rows[..|rows| - 1]) + (if AllEmpty(rows[|rows| - 1]) then 0 else 1)
  }

  /** The set type of record j: separator when all-empty, 'previous' while
      fewer than five data records come before it, 'current' after. */
  function AnnualType(rows: seq<seq<Cell>>, j: nat): SetType
    requires j < |rows|
  {
    if AllEmpty(rows[j]) then SeparatorRow else if DataCount(rows[..j]) < 5 then Previous else Current
  }

  /** The first i records carry their set types. */
  predicate AnnualTyped(rows: seq<seq<Cell>>, out: seq<Row>, i: nat)
  {
    i == |out| <= |rows| && forall j :: 0 <= j < i ==> out[j] == Row(AnnualType(rows, j), rows[j])
  }

  /** The set-type loop over the annual records: an all-empty record is a
      separator; the first five others are 'previous', the rest 'current'. */
  method AssignAnnualSetTypes(rows: seq<seq<Cell>>) returns (out: seq<Row>)
    ensures |out| == |rows|
    ensures forall i :: 0 <= i < |rows| ==> out[i].cells == rows[i]
    ensures forall i :: 0 <= i < |rows| ==> (out[i].setType == SeparatorRow <==> AllEmpty(rows[i]))
    ensures forall i :: 0 <= i < |rows| && !AllEmpty(rows[i]) ==> (out[i].setType == Previous <==> DataCount(rows[..i]) < 5)
    ensures forall i :: 0 <= i < |rows| ==> out[i].setType != HeaderRow
  {
    out := [];
    var dataRowCount := 0;
    var i := 0;
    while i < |rows|
      invariant 0 <= i <= |rows|
      invariant dataRowCount == DataCount(rows[..i])
      invariant AnnualTyped(rows, out, i)
    {
      assert rows[..i + 1][..i] == rows[..i];
      if AllEmpty(rows[i]) {
        out := out + [Row(SeparatorRow, rows[i])];
      } else {
        out := out + [Row(if dataRowCount < 5 then Previous else Current, rows[i])];
        dataRowCount := dataRowCount + 1;
      }
      i := i + 1;
    }
    AnnualTypedFacts(rows, out);
  }

  lemma AnnualTypedFacts(rows: seq<seq<Cell>>, out: seq<Row>)
    requires AnnualTyped(rows, out, |rows|)
    ensures forall i :: 0 <= i < |rows| ==> out[i].cells == rows[i]
    ensures forall i :: 0 <= i < |rows| ==> (out[i].setType == SeparatorRow <==> AllEmpty(rows[i]))
    ensures forall i :: 0 <= i < |rows| && !AllEmpty(rows[i]) ==> (out[i].setType == Previous <==> DataCount(rows[..i]) < 5)
    ensures forall i :: 0 <= i < |rows| ==> out[i].setType != HeaderRow
  {
  }

  /** At most five records are 'previous'. */
  lemma {:induction false} DataCountBound(rows: seq<seq<Cell>>, i: nat)
    requires i <= |rows|
    ensures DataCount(rows[..i]) <= i
  {
    if i > 0 {
      assert rows[..i][..i - 1] == rows[..i - 1];
      DataCountBound(rows, i - 1);
    }
  }

  // ---------------------------------------------------------------------
  // The index view: ingredient blocks

  /** The label carries this ingredient: it starts with 'ingredient_' and the rest
      after the first '_' is key. */
  predicate LabelOf(region: string, key: string)
  {
    StartsWith(region, "ingredient_") && region[11..] == key
  }

  /** The rows 0 .. n-1 labelled with the ingredient, cut to A..Q. */
  function IngredientBlock(g: Grid, regions: Regions, key: string, n: nat): seq<seq<Cell>>
  {
    if n == 0 then []
    else
      IngredientBlock(g, regions, key, n - 1)
      + (if LabelOf(Label(regions, n - 1), key) then [RowCells(g, n - 1, 17)] else [])
  }

  /** row.get(col, "") over the cells of a record. */
  function CellOf(cells: seq<Cell>, c: nat): Cell
  {
    if c < |cells| then cells[c] else Blank
  }

  /** The record is empty in C..F. */
  predicate BlankCF(cells: seq<Cell>)
  {
    forall c :: 2 <= c < 6 ==> EmptyCell(CellOf(cells, c))
  }

  /** The block with its trailing records that are empty in C..F removed. */
  function Trimmed(rows: seq<seq<Cell>>): (t: seq<seq<Cell>>)
    ensures |t| <= |rows| && t == rows[..|t|]
    ensures forall i :: |t| <= i < |rows| ==> BlankCF(rows[i])
    ensures |t| > 0 ==> !BlankCF(t[|t| - 1])
  {
    if |rows| > 0 && BlankCF(rows[|rows| - 1]) then Trimmed(rows[..|rows| - 1]) else rows
  }

  /** Drop trailing rows whose columns C to F are all empty. */
  method TrimTrailing(rows: seq<seq<Cell>>) returns (kept: seq<seq<Cell>>)
    ensures kept == Trimmed(rows)
  {
    kept := rows;
    while |kept| > 0 && BlankCF(kept[|kept| - 1])
      invariant Trimmed(kept) == Trimmed(rows)
    {
      kept := kept[..|kept| - 1];
    }
  }

  /** 0 is the header, 1..10 previous, the other rows among the last ten
      current, the rest separators. */
  function IngredientSetType(i: nat, len: nat): SetType
  {
    if i == 0 then HeaderRow
    else if 1 <= i <= 10 then Previous
    else if i >= len - 10 then Current
    else SeparatorRow
  }

  method AssignIngredientSetTypes(rows: seq<seq<Cell>>) returns (out: seq<Row>)
    ensures |out| == |rows|
    ensures forall i :: 0 <= i < |rows| ==> out[i] == Row(IngredientSetType(i, |rows|), rows[i])
  {
    out := [];
    var i := 0;
    while i < |rows|
      invariant 0 <= i <= |rows|
      invariant |out| == i
      invariant forall j :: 0 <= j < i ==> out[j] == Row(IngredientSetType(j, |rows|), rows[j])
    {
      out := out + [Row(IngredientSetType(i, |rows|), rows[i])];
      i := i + 1;
    }
  }

  /** The first row heads the block, rows 1..10 are previous; a row is
      current exactly when it is past row 10 and among the last ten; in a
      block of 11 rows or fewer nothing is current. */
  lemma SetTypesOfBlock(len: nat, i: nat)
    requires i < len
    ensures IngredientSetType(i, len) == HeaderRow <==> i == 0
    ensures IngredientSetType(i, len) == Previous <==> 1 <= i <= 10
    ensures IngredientSetType(i, len) == Current <==> i > 10 && i >= len - 10
    ensures len <= 11 ==> IngredientSetType(i, len) != Current
  {
  }

  /** The ingredient list of the index view: for each ingredient in list
      order, its labelled rows (cut to A..Q), trailing records empty in
      C..F removed, set-typed by position. */
  method BuildIngredientList(g: Grid, regions: Regions) returns (list: seq<(string, seq<Row>)>)
    ensures |list| == 6
    ensures forall k :: 0 <= k < 6 ==> list[k].0 == IngredientKeys[k]
    ensures forall k :: 0 <= k < 6 ==>
              var t := Trimmed(IngredientBlock(g, regions, IngredientKeys[k], |g|));
              |list[k].1| == |t| && forall i :: 0 <= i < |t| ==> list[k].1[i] == Row(IngredientSetType(i, |t|), t[i])
  {
    list := [];
    var k := 0;
    while k < 6
      invariant 0 <= k <= 6
      invariant |list| == k
      invariant forall k' :: 0 <= k' < k ==> list[k'].0 == IngredientKeys[k']
      invariant forall k' :: 0 <= k' < k ==>
                  var t := Trimmed(IngredientBlock(g, regions, IngredientKeys[k'], |g|));
                  |list[k'].1| == |t| && forall i :: 0 <= i < |t| ==> list[k'].1[i] == Row(IngredientSetType(i, |t|), t[i])
    {
      var block := IngredientBlock(g, regions, IngredientKeys[k], |g|);
      var kept := TrimTrailing(block);
      var typed := AssignIngredientSetTypes(kept);
      list := list + [(IngredientKeys[k], typed)];
      k := k + 1;
    }
  }

  /** The annual records of the index view, set-typed. */
  method BuildAnnualData(g: Grid, regions: Regions) returns (rows: seq<Row>)
    ensures |rows| == |AnnualRecords(g, regions)|
    ensures forall i :: 0 <= i < |rows| ==> rows[i].cells == AnnualRecords(g, regions)[i]
    ensures forall i :: 0 <= i < |rows| ==> (rows[i].setType == SeparatorRow <==> AllEmpty(rows[i].cells))
  {
    rows := AssignAnnualSetTypes(AnnualRecords(g, regions));
  }
}

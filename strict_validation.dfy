/** validate_excel_structure of the strict extractor: before anything is
    extracted, a workbook (its sheets given as named grids) is checked for a
    month header and for product-like cells; the workbook is rejected when
    it has no sheet, or when neither is found anywhere. */
module StrictValidation {
  import opened Sheet
  import opened Scan
  import opened Strict

  /** The result dict of the validation. */
  datatype Validation = Validation(
    error: bool,
    message: string,
    missingItems: seq<string>,
    detectedSheets: seq<string>,
    detectedProducts: seq<string>,
    hasMonthlyData: bool,
    hasAnnualData: bool)

  /** The substrings that make a cell product-like. */
  const ProductKeywords: seq<string> := ["mct", "product", "item", "code", "品目"]

  const NoSheetsMessage: string := "Excel file contains no sheets."
  const NoDataMessage: string :=
    "The Excel structure does not match expected format. Please upload a template with product sheets and monthly data."

  /** The three tests the validation applies: the month normaliser, the
      text of a cell and the product-like test; and whether the duplicate
      check compares the cut form of a text (`once`) or, as written, its
      full form. */
  datatype Checks = Checks(norm: Norm, key: Cell -> string, p: string -> bool, once: bool)

  /** The checks as the strict extractor makes them. */
  function Strictly(): Checks
  {
    Checks(NormalizeMonthName, CellLower, Mentions, false)
  }

  // ---------------------------------------------------------------------
  // The month check

  /** Some cell of the first `rows` rows by the first `cols` columns names a month. */
  predicate MonthBefore(norm: Norm, g: Grid, rows: nat, cols: nat)
  {
    exists r, c :: 0 <= r < rows && 0 <= c < cols && norm(At(g, r, c)).Some?
  }

  /** Some cell of the first 5 rows by the first 20 columns names a month. */
  predicate HasMonths(ch: Checks, g: Grid)
  {
    MonthBefore(ch.norm, g, Min(5, |g|), Min(20, Width(g)))
  }

  /** The column-major loop with its two breaks: true as soon as a month is met. */
  method HeaderHasMonth(norm: Norm, g: Grid, rows: nat, cols: nat) returns (has: bool)
    ensures has == MonthBefore(norm, g, rows, cols)
  {
    has := false;
    var c := 0;
    while c < cols
      invariant 0 <= c <= cols
      invariant !MonthBefore(norm, g, rows, c)
    {
      var r := 0;
      while r < rows
        invariant 0 <= r <= rows
        invariant forall r' :: 0 <= r' < r ==> norm(At(g, r', c)).None?
      {
        if norm(At(g, r, c)).Some? {
          has := true;
          return;
        }
        r := r + 1;
      }
      c := c + 1;
    }
  }

  // ---------------------------------------------------------------------
  // The product check

  /** A cell's text, lowered and stripped. */
  function CellLower(c: Cell): string
  {
    Strip(Lower(CellText(c)))
  }

  /** Some keyword occurs in the lowered cell text. */
  predicate Mentions(t: string)
  {
    exists k :: 0 <= k < |ProductKeywords| && Contains(t, ProductKeywords[k])
  }

  /** The first 20 characters, or the whole text when it is shorter. */
  function Short(t: string): (e: string)
    ensures |e| == Min(20, |t|) && e <= t
  {
    t[..Min(20, |t|)]
  }

  /** The form of a text the duplicate check looks up. */
  function Compared(ch: Checks, t: string): string
  {
    if ch.once then Short(t) else t
  }

  /** One cell: a product-like text not listed yet is added, cut to 20 characters. */
  function NoteBy(ch: Checks, found: seq<string>, t: string): seq<string>
  {
    if ch.p(t) && Compared(ch, t) !in found then found + [Short(t)] else found
  }

  /** Columns 0 .. c-1 of row r, left to right. */
  function NotesInRow(ch: Checks, g: Grid, r: nat, c: nat, found: seq<string>): seq<string>
  {
    if c == 0 then found else NoteBy(ch, NotesInRow(ch, g, r, c - 1, found), ch.key(At(g, r, c - 1)))
  }

  /** Rows 0 .. rows-1 by columns 0 .. cols-1, row-major. */
  function NotesInWindow(ch: Checks, g: Grid, rows: nat, cols: nat, found: seq<string>): seq<string>
  {
    if rows == 0 then found else NotesInRow(ch, g, rows - 1, cols, NotesInWindow(ch, g, rows - 1, cols, found))
  }

  /** The product check of one sheet: the first 50 rows by the first 5 columns. */
  function SheetNotes(ch: Checks, g: Grid, found: seq<string>): seq<string>
  {
    NotesInWindow(ch, g, Min(50, |g|), Min(5, Width(g)), found)
  }

  /** Some cell of the first `rows` rows by `cols` columns is product-like. */
  predicate MentionBefore(ch: Checks, g: Grid, rows: nat, cols: nat)
  {
    exists r, c :: 0 <= r < rows && 0 <= c < cols && ch.p(ch.key(At(g, r, c)))
  }

  /** Some cell of the first 50 rows by 5 columns is product-like. */
  predicate SheetMentions(ch: Checks, g: Grid)
  {
    MentionBefore(ch, g, Min(50, |g|), Min(5, Width(g)))
  }

  /** The nested product loop. */
  method ScanNotes(ch: Checks, g: Grid, rows: nat, cols: nat, found: seq<string>) returns (out: seq<string>)
    ensures out == NotesInWindow(ch, g, rows, cols, found)
  {
    out := found;
    var r := 0;
    while r < rows
      invariant 0 <= r <= rows
      invariant out == NotesInWindow(ch, g, r, cols, found)
    {
      var c := 0;
      while c < cols
        invariant 0 <= c <= cols
        invariant out == NotesInRow(ch, g, r, c, NotesInWindow(ch, g, r, cols, found))
      {
        var t := ch.key(At(g, r, c));
        if ch.p(t) && Compared(ch, t) !in out {
          out := out + [Short(t)];
        }
        c := c + 1;
      }
      r := r + 1;
    }
  }

  // ---------------------------------------------------------------------
  // The whole workbook

  function Names(sheets: seq<(string, Grid)>): (names: seq<string>)
    ensures |names| == |sheets|
    ensures forall i :: 0 <= i < |sheets| ==> names[i] == sheets[i].0
  {
    seq(|sheets|, i requires 0 <= i < |sheets| => sheets[i].0)
  }

  /** Some of the first k sheets has a month header. */
  predicate AnyMonths(ch: Checks, sheets: seq<(string, Grid)>, k: nat)
    requires k <= |sheets|
  {
    exists i :: 0 <= i < k && HasMonths(ch, sheets[i].1)
  }

  lemma AnyMonthsStep(ch: Checks, sheets: seq<(string, Grid)>, k: nat)
    requires k < |sheets|
    ensures AnyMonths(ch, sheets, k + 1) == (AnyMonths(ch, sheets, k) || HasMonths(ch, sheets[k].1))
  {
    if AnyMonths(ch, sheets, k + 1) && !HasMonths(ch, sheets[k].1) {
      var i :| 0 <= i < k + 1 && HasMonths(ch, sheets[i].1);
      assert i < k;
    }
  }

  /** The products noted over the first k sheets, in sheet order. */
  function AllNotes(ch: Checks, sheets: seq<(string, Grid)>, k: nat): seq<string>
    requires k <= |sheets|
  {
    if k == 0 then [] else SheetNotes(ch, sheets[k - 1].1, AllNotes(ch, sheets, k - 1))
  }

  /** The validation result of a workbook. */
  function Validate(ch: Checks, sheets: seq<(string, Grid)>): Validation
  {
    var names := Names(sheets);
    if |sheets| == 0 then Validation(true, NoSheetsMessage, ["sheets"], names, [], false, false)
    else
      var months := AnyMonths(ch, sheets, |sheets|);
      var products := AllNotes(ch, sheets, |sheets|);
      if !months && |products| == 0
      then Validation(true, NoDataMessage, ["monthly_data", "products"], names, products, months, false)
      else Validation(false, "", [], names, products, months, false)
  }

  /** validate_excel_structure over the sheets of a workbook. */
  method ValidateExcelStructure(sheets: seq<(string, Grid)>) returns (v: Validation)
    ensures v == Validate(Strictly(), sheets)
  {
    v := ValidateWith(Strictly(), sheets);
  }

  method ValidateWith(ch: Checks, sheets: seq<(string, Grid)>) returns (v: Validation)
    ensures v == Validate(ch, sheets)
  {
    var names := Names(sheets);
    if |sheets| == 0 {
      return Validation(true, NoSheetsMessage, ["sheets"], names, [], false, false);
    }
    var months := false;
    var products: seq<string> := [];
    var i := 0;
    while i < |sheets|
      invariant 0 <= i <= |sheets|
      invariant months == AnyMonths(ch, sheets, i)
      invariant products == AllNotes(ch, sheets, i)
    {
      months, products := CheckSheet(ch, sheets, i, months, products);
      i := i + 1;
    }
    if !months && |products| == 0 {
      v := Validation(true, NoDataMessage, ["monthly_data", "products"], names, products, months, false);
    } else {
      v := Validation(false, "", [], names, products, months, false);
    }
  }

  /** Sheet i of the loop: its header window, then its product notes. */
  method CheckSheet(ch: Checks, sheets: seq<(string, Grid)>, i: nat, months: bool, products: seq<string>)
    returns (months': bool, products': seq<string>)
    requires i < |sheets| && months == AnyMonths(ch, sheets, i) && products == AllNotes(ch, sheets, i)
    ensures months' == AnyMonths(ch, sheets, i + 1) && products' == AllNotes(ch, sheets, i + 1)
  {
    var g := sheets[i].1;
    var has := HeaderHasMonth(ch.norm, g, Min(5, |g|), Min(20, Width(g)));
    AnyMonthsStep(ch, sheets, i);
    months' := months || has;
    products' := ScanNotes(ch, g, Min(50, |g|), Min(5, Width(g)), products);
  }

  // ---------------------------------------------------------------------
  // What the validation decides

  /** A cell adds an entry only if it is product-like; the list never loses an entry. */
  lemma NoteGrows(ch: Checks, found: seq<string>, t: string)
    ensures found <= NoteBy(ch, found, t)
    ensures |NoteBy(ch, found, t)| > 0 <==> |found| > 0 || ch.p(t)
  {
  }

  lemma {:induction false} RowNotes(ch: Checks, g: Grid, r: nat, c: nat, found: seq<string>)
    ensures found <= NotesInRow(ch, g, r, c, found)
    ensures |NotesInRow(ch, g, r, c, found)| > 0
            <==> |found| > 0 || exists k :: 0 <= k < c && ch.p(ch.key(At(g, r, k)))
  {
    if c > 0 {
      RowNotes(ch, g, r, c - 1, found);
      NoteGrows(ch, NotesInRow(ch, g, r, c - 1, found), ch.key(At(g, r, c - 1)));
    }
  }

  /** The product list of a window is non-empty exactly when it was already,
      or some cell of the window is product-like. */
  lemma {:induction false} WindowNotes(ch: Checks, g: Grid, rows: nat, cols: nat, found: seq<string>)
    ensures found <= NotesInWindow(ch, g, rows, cols, found)
    ensures |NotesInWindow(ch, g, rows, cols, found)| > 0 <==> |found| > 0 || MentionBefore(ch, g, rows, cols)
  {
    if rows > 0 {
      var prev := NotesInWindow(ch, g, rows - 1, cols, found);
      WindowNotes(ch, g, rows - 1, cols, found);
      RowNotes(ch, g, rows - 1, cols, prev);
      if MentionBefore(ch, g, rows, cols) && !MentionBefore(ch, g, rows - 1, cols) {
        var r, c :| 0 <= r < rows && 0 <= c < cols && ch.p(ch.key(At(g, r, c)));
        assert r == rows - 1;
      }
    }
  }

  /** So over the first k sheets: some entry iff some sheet has a product-like cell. */
  lemma {:induction false} AllNotesNonEmpty(ch: Checks, sheets: seq<(string, Grid)>, k: nat)
    requires k <= |sheets|
    ensures |AllNotes(ch, sheets, k)| > 0 <==> exists i :: 0 <= i < k && SheetMentions(ch, sheets[i].1)
  {
    if k > 0 {
      AllNotesNonEmpty(ch, sheets, k - 1);
      var g := sheets[k - 1].1;
      WindowNotes(ch, g, Min(50, |g|), Min(5, Width(g)), AllNotes(ch, sheets, k - 1));
    }
  }

  /** The validation verdict: a workbook is rejected iff it has no sheet, or
      no sheet has a month in its header window and no sheet has a
      product-like cell; the missing items name what was not found. */
  lemma ValidateVerdict(ch: Checks, sheets: seq<(string, Grid)>)
    ensures var v := Validate(ch, sheets);
            (v.error <==> |sheets| == 0
                          || ((forall i :: 0 <= i < |sheets| ==> !HasMonths(ch, sheets[i].1))
                              && forall i :: 0 <= i < |sheets| ==> !SheetMentions(ch, sheets[i].1)))
            && (|sheets| == 0 ==> v.missingItems == ["sheets"] && v.message == NoSheetsMessage)
            && (v.error && |sheets| > 0 ==> v.missingItems == ["monthly_data", "products"] && v.message == NoDataMessage)
            && (!v.error ==> v.missingItems == [] && v.message == "")
            && v.detectedSheets == Names(sheets)
            && !v.hasAnnualData
            && (|sheets| > 0 ==> (v.hasMonthlyData <==> exists i :: 0 <= i < |sheets| && HasMonths(ch, sheets[i].1)))
  {
    if |sheets| > 0 {
      AllNotesNonEmpty(ch, sheets, |sheets|);
    }
  }

  /** Every entry the scan adds is at most 20 characters long. */
  lemma {:induction false} NotesShort(ch: Checks, g: Grid, rows: nat, cols: nat, found: seq<string>)
    requires forall i :: 0 <= i < |found| ==> |found[i]| <= 20
    ensures forall i :: 0 <= i < |NotesInWindow(ch, g, rows, cols, found)| ==> |NotesInWindow(ch, g, rows, cols, found)[i]| <= 20
  {
    if rows > 0 {
      NotesShort(ch, g, rows - 1, cols, found);
      RowShort(ch, g, rows - 1, cols, NotesInWindow(ch, g, rows - 1, cols, found));
    }
  }

  lemma {:induction false} RowShort(ch: Checks, g: Grid, r: nat, c: nat, found: seq<string>)
    requires forall i :: 0 <= i < |found| ==> |found[i]| <= 20
    ensures forall i :: 0 <= i < |NotesInRow(ch, g, r, c, found)| ==> |NotesInRow(ch, g, r, c, found)[i]| <= 20
  {
    if c > 0 {
      RowShort(ch, g, r, c - 1, found);
    }
  }

  /** Every detected product of a workbook is at most 20 characters long. */
  lemma {:induction false} DetectedShort(ch: Checks, sheets: seq<(string, Grid)>, k: nat)
    requires k <= |sheets|
    ensures forall i :: 0 <= i < |AllNotes(ch, sheets, k)| ==> |AllNotes(ch, sheets, k)[i]| <= 20
  {
    if k > 0 {
      DetectedShort(ch, sheets, k - 1);
      var g := sheets[k - 1].1;
      NotesShort(ch, g, Min(50, |g|), Min(5, Width(g)), AllNotes(ch, sheets, k - 1));
    }
  }

  // ---------------------------------------------------------------------
  // The duplicate check compares the full text with the cut entries

  /** As written, a product-like text longer than 20 characters is never
      found in the list (every entry is at most 20 long), so each cell
      holding it adds another copy. */
  lemma LongTextRepeats(ch: Checks, t: string)
    requires !ch.once
    requires |t| > 20 && ch.p(t)
    ensures NoteBy(ch, NoteBy(ch, [], t), t) == [Short(t), Short(t)]
  {
    assert NoteBy(ch, [], t) == [Short(t)];
    assert t != Short(t);
  }

  /** The evident intent: the cut form is compared. */
  function Corrected(ch: Checks): Checks
  {
    ch.(once := true)
  }

  /** With the cut form compared, the entries stay distinct. */
  lemma NoteDistinct(ch: Checks, found: seq<string>, t: string)
    requires ch.once && Distinct(found)
    ensures Distinct(NoteBy(ch, found, t))
  {
    var out := NoteBy(ch, found, t);
    if ch.p(t) && Short(t) !in found {
      assert out[|found|] == Short(t);
      forall i, j | 0 <= i < j < |out| ensures out[i] != out[j] {
        if j == |found| {
          assert out[i] == found[i];
        }
      }
    }
  }

  lemma {:induction false} RowDistinct(ch: Checks, g: Grid, r: nat, c: nat, found: seq<string>)
    requires ch.once && Distinct(found)
    ensures Distinct(NotesInRow(ch, g, r, c, found))
  {
    if c > 0 {
      RowDistinct(ch, g, r, c - 1, found);
      NoteDistinct(ch, NotesInRow(ch, g, r, c - 1, found), ch.key(At(g, r, c - 1)));
    }
  }

  lemma {:induction false} WindowDistinct(ch: Checks, g: Grid, rows: nat, cols: nat, found: seq<string>)
    requires ch.once && Distinct(found)
    ensures Distinct(NotesInWindow(ch, g, rows, cols, found))
  {
    if rows > 0 {
      WindowDistinct(ch, g, rows - 1, cols, found);
      RowDistinct(ch, g, rows - 1, cols, NotesInWindow(ch, g, rows - 1, cols, found));
    }
  }

  lemma {:induction false} AllNotesDistinct(ch: Checks, sheets: seq<(string, Grid)>, k: nat)
    requires ch.once && k <= |sheets|
    ensures Distinct(AllNotes(ch, sheets, k))
  {
    if k > 0 {
      AllNotesDistinct(ch, sheets, k - 1);
      var g := sheets[k - 1].1;
      WindowDistinct(ch, g, Min(50, |g|), Min(5, Width(g)), AllNotes(ch, sheets, k - 1));
    }
  }

  /** The corrected check lists every product exactly once and reaches the
      same verdict, with the same missing items and month flag. */
  lemma CorrectedValidation(ch: Checks, sheets: seq<(string, Grid)>)
    ensures var v, w := Validate(ch, sheets), Validate(Corrected(ch), sheets);
            Distinct(w.detectedProducts)
            && w.error == v.error && w.missingItems == v.missingItems && w.message == v.message
            && w.hasMonthlyData == v.hasMonthlyData && w.detectedSheets == v.detectedSheets
  {
    ValidateVerdict(ch, sheets);
    ValidateVerdict(Corrected(ch), sheets);
    if |sheets| > 0 {
      AllNotesDistinct(Corrected(ch), sheets, |sheets|);
      assert AnyMonths(ch, sheets, |sheets|) == AnyMonths(Corrected(ch), sheets, |sheets|);
      assert forall i :: 0 <= i < |sheets| ==> SheetMentions(ch, sheets[i].1) == SheetMentions(Corrected(ch), sheets[i].1);
    }
  }
}

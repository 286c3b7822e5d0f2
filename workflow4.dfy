/** The workflow-4 stage (excel_handler/workflow4.py): its month and number
    coercions, the column finder, the collection of earlier workflow sheets,
    the reshaping of a wide sheet into (product, month, demand, per-unit)
    records, and the per-product forecast table built from those records. */
module Workflow4 {
  import opened Sheet
  import opened Months
  import Extractor

  // ---------------------------------------------------------------------
  // _canonical_month and _month_index

  /** _canonical_month: None and NaN give None; otherwise the cell's text
      stripped and lowered, an empty text gives None, and then the '月' and
      dot steps, the MONTH_VARIANTS table and the digit fallback. */
  function CanonicalMonth(c: Cell): (m: Option<string>)
    ensures c.Blank? ==> m.None?
    ensures m.Some? ==> m.value in MonthNames
  {
    if c.Blank? then None
    else
      var text := Lower(Strip(CellText(c)));
      if |text| == 0 then None else LookupMonth(Extractor.LabelText(text))
  }

  lemma EmptyIsNoMonth()
    ensures LookupMonth(Extractor.LabelText("")) == None
  {
    assert Extractor.LabelText("") == "";
  }

  /** The empty check aside, _canonical_month is excel_extractor's
      normalize_month_name: the same steps on the same text. */
  lemma SameAsExtractor(c: Cell)
    ensures CanonicalMonth(c) == Extractor.NormalizeMonthName(c)
  {
    Extractor.StripLowered(CellText(c));
    if !c.Blank? && |Lower(Strip(CellText(c)))| == 0 {
      EmptyIsNoMonth();
    }
  }

  /** Normalising an output again returns it. */
  lemma CanonicalIdempotent(c: Cell)
    requires CanonicalMonth(c).Some?
    ensures CanonicalMonth(Str(CanonicalMonth(c).value)) == CanonicalMonth(c)
  {
    SameAsExtractor(c);
    SameAsExtractor(Str(CanonicalMonth(c).value));
    Extractor.NormalizeIdempotent(c);
  }

  /** Each month name is its own canonical month: lowered, it is a
      MONTH_VARIANTS key. */
  lemma NamesFixed(n: MonthNumber)
    ensures CanonicalMonth(Str(MonthNames[n - 1])) == Some(MonthNames[n - 1])
  {
    SameAsExtractor(Str(MonthNames[n - 1]));
    Extractor.MonthNameFixed(n);
  }

  /** 'Apr', 'APRIL', '04', '4' and '4月', with any surrounding spaces,
      are April. */
  lemma AprilLabels(s: string)
    requires Strip(s) == "Apr" || Strip(s) == "APRIL" || Strip(s) == "04" || Strip(s) == "4" || Strip(s) == "4月"
    ensures CanonicalMonth(Str(s)) == Some("April")
  {
    SameAsExtractor(Str(s));
    Extractor.AprilLabels(s);
  }

  /** '11月' loses its '月' and is November. */
  lemma NovemberJapanese()
    ensures CanonicalMonth(Str("11月")) == Some("November")
  {
    ElevenText();
    ElevenLooksUp();
  }

  lemma ElevenText()
    ensures Lower(Strip("11月")) == "11月"
    ensures Extractor.LabelText("11月") == "11"
  {
    StripId("11月");
    ElevenLower();
    ElevenDrop();
  }

  lemma ElevenLower()
    ensures Lower("11月") == "11月"
  {
  }

  lemma ElevenDrop()
    ensures Extractor.LabelText("11月") == "11"
  {
    assert EndsWith("11月", "月");
    assert DropJapanese("11月") == Remove("11月", '月');
    assert Remove("11月", '月') == "11";
    assert Remove("11", '.') == "11";
  }

  lemma ElevenLooksUp()
    ensures LookupMonth("11") == Some("November")
  {
    assert VariantNumber("11") == Some(11);
  }

  /** The position of k in ks at or after i (list.index from i). */
  function IndexFrom(ks: seq<string>, k: string, i: nat): (j: Option<nat>)
    decreases |ks| - i
    ensures j.Some? ==> i <= j.value < |ks| && ks[j.value] == k && forall q :: i <= q < j.value ==> ks[q] != k
    ensures j.None? ==> forall q :: i <= q < |ks| ==> ks[q] != k
  {
    if i >= |ks| then None else if ks[i] == k then Some(i) else IndexFrom(ks, k, i + 1)
  }

  /** _month_index: MONTH_NAMES.index of the canonical month, plus one. */
  function MonthIndex(c: Cell): Option<nat>
  {
    match CanonicalMonth(c)
    case None => None
    case Some(m) => Some(IndexFrom(MonthNames, m, 0).value + 1)
  }

  /** _month_index reads exactly the cells _canonical_month reads, as the
      1-based position of the canonical name. */
  lemma MonthIndexSpec(c: Cell)
    ensures MonthIndex(c).None? <==> CanonicalMonth(c).None?
    ensures MonthIndex(c).Some? ==>
              1 <= MonthIndex(c).value <= 12 && MonthNames[MonthIndex(c).value - 1] == CanonicalMonth(c).value
  {
    var cm := CanonicalMonth(c);
    if cm.Some? {
      var j := IndexFrom(MonthNames, cm.value, 0);
      assert j.Some?;
      assert MonthIndex(c) == Some(j.value + 1);
    }
  }

  // ---------------------------------------------------------------------
  // _coerce_number

  /** _coerce_number: a number as it is; other values as str(value) with
      the commas removed, through float(), None when that fails. */
  function CoerceNumber(c: Cell): (v: Option<real>)
    ensures c.Num? ==> v == Some(c.r)
    ensures c.Blank? ==> v.None?
  {
    match c
    case Blank => None
    case Num(x) => Some(x)
    case Str(s) => ParseFloat(Remove(s, ','))
  }

  /** A comma anywhere in the text is ignored. */
  lemma CoerceIgnoresCommas(a: string, b: string)
    ensures CoerceNumber(Str(a + "," + b)) == CoerceNumber(Str(a + b))
  {
    RemoveAppend(a + ",", b, ',');
    RemoveAppend(a, ",", ',');
    RemoveAppend(a, b, ',');
    assert Remove(",", ',') == "";
    assert Remove(a, ',') + "" == Remove(a, ',');
  }

  /** Text without commas is read by float() alone. */
  lemma CoercePlain(s: string)
    requires forall i :: 0 <= i < |s| ==> s[i] != ','
    ensures CoerceNumber(Str(s)) == ParseFloat(s)
  {
  }

  /** Unlike the cell normalisers, no currency symbol is removed: '$5' is
      no number here. */
  lemma CoerceKeepsCurrency()
    ensures CoerceNumber(Str("$5")) == None
  {
    assert Remove("$5", ',') == "$5";
    assert Strip("$5") == "$5" by { StripId("$5"); }
    assert DigitRun("$5") == 0;
  }

  // ---------------------------------------------------------------------
  // _find_column

  /** The stripped, lowered column name is a lowered candidate, or
      contains one. */
  predicate Matches(name: string, cands: seq<string>)
  {
    var cl := Lower(Strip(name));
    (exists k :: 0 <= k < |cands| && cl == Lower(cands[k]))
    || (exists k :: 0 <= k < |cands| && Contains(cl, Lower(cands[k])))
  }

  lemma ContainsSelf(s: string)
    ensures Contains(s, s)
  {
  }

  /** The exact-name check adds nothing to the containment check: a name
      matches exactly when it contains a lowered candidate. */
  lemma MatchesIsContainment(name: string, cands: seq<string>)
    ensures Matches(name, cands) <==> exists k :: 0 <= k < |cands| && Contains(Lower(Strip(name)), Lower(cands[k]))
  {
    var cl := Lower(Strip(name));
    if k :| 0 <= k < |cands| && cl == Lower(cands[k]) {
      ContainsSelf(cl);
    }
  }

  /** Whether each column matches. */
  function MatchFlags(columns: seq<string>, cands: seq<string>): (flags: seq<bool>)
    ensures |flags| == |columns|
    ensures forall i :: 0 <= i < |columns| ==> flags[i] == Matches(columns[i], cands)
  {
    seq(|columns|, i requires 0 <= i < |columns| => Matches(columns[i], cands))
  }

  /** The first true flag at or after i. */
  function FirstTrue(flags: seq<bool>, i: nat): (c: Option<nat>)
    decreases |flags| - i
    ensures c.Some? ==> i <= c.value < |flags| && flags[c.value] && forall q :: i <= q < c.value ==> !flags[q]
    ensures c.None? ==> forall q :: i <= q < |flags| ==> !flags[q]
  {
    if i >= |flags| then None else if flags[i] then Some(i) else FirstTrue(flags, i + 1)
  }

  /** The first matching column, in column order. */
  function FirstMatch(columns: seq<string>, cands: seq<string>): Option<nat>
  {
    FirstTrue(MatchFlags(columns, cands), 0)
  }

  /** What _find_column finds: a matching column with no matching column
      before it, or None when no column matches. */
  lemma FirstMatchSpec(columns: seq<string>, cands: seq<string>)
    ensures var c := FirstMatch(columns, cands);
            (c.Some? ==> c.value < |columns| && Matches(columns[c.value], cands)
                         && forall q :: 0 <= q < c.value ==> !Matches(columns[q], cands))
            && (c.None? ==> forall q :: 0 <= q < |columns| ==> !Matches(columns[q], cands))
  {
  }

  /** The candidate loop for one column: some lowered candidate is inside
      the lowered name. */
  method ContainsCandidate(cl: string, cands: seq<string>) returns (found: bool)
    ensures found <==> exists k :: 0 <= k < |cands| && Contains(cl, Lower(cands[k]))
  {
    for k := 0 to |cands|
      invariant forall q :: 0 <= q < k ==> !Contains(cl, Lower(cands[q]))
    {
      if Contains(cl, Lower(cands[k])) {
        return true;
      }
    }
    return false;
  }

  /** _find_column: the index of the first column, in column order, whose
      stripped, lowered name is or contains a lowered candidate. */
  method FindColumn(columns: seq<string>, cands: seq<string>) returns (col: Option<nat>)
    ensures col == FirstMatch(columns, cands)
  {
    var lowered := set k | 0 <= k < |cands| :: Lower(cands[k]);
    ghost var flags := MatchFlags(columns, cands);
    var i := 0;
    while i < |columns|
      invariant 0 <= i <= |columns|
      invariant FirstTrue(flags, i) == FirstTrue(flags, 0)
    {
      var colLower := Lower(Strip(columns[i]));
      if colLower in lowered {
        assert flags[i];
        return Some(i);
      }
      var found := ContainsCandidate(colLower, cands);
      if found {
        return Some(i);
      }
      assert !flags[i];
      i := i + 1;
    }
    return None;
  }

  // ---------------------------------------------------------------------
  // _collect_workflow_outputs

  /** What an output entry holds: the parsed sheet of that name, or the
      'No data provided' placeholder frame. */
  datatype Output = SheetData(sheet: string) | Placeholder

  /** A sheet is an earlier workflow's output when its lowered name
      contains 'workflow'. */
  predicate IsWorkflowSheet(name: string)
  {
    Contains(Lower(name), "workflow")
  }

  /** The label of the idx-th placeholder, f"Workflow {idx}". */
  function PlaceholderLabel(idx: nat): string
  {
    "Workflow " + IntText(idx)
  }

  /** The first loop over the first k sheet names. */
  function WorkflowSheets(names: seq<string>, k: nat): (out: map<string, Output>)
    requires k <= |names|
    ensures forall s :: s in out <==> exists j :: 0 <= j < k && names[j] == s && IsWorkflowSheet(s)
    ensures forall s :: s in out ==> out[s] == SheetData(s)
  {
    if k == 0 then map[]
    else
      var out := WorkflowSheets(names, k - 1);
      if IsWorkflowSheet(names[k - 1]) then out[names[k - 1] := SheetData(names[k - 1])] else out
  }

  /** The setdefault loop for the placeholders 1..idx - 1. */
  function WithPlaceholders(out: map<string, Output>, idx: nat): map<string, Output>
    requires 1 <= idx <= 4
  {
    if idx == 1 then out
    else
      var prev := WithPlaceholders(out, idx - 1);
      var tag := PlaceholderLabel(idx - 1);
      if tag in prev then prev else prev[tag := Placeholder]
  }

  /** _collect_workflow_outputs, over the workbook's sheet names. */
  function CollectOutputs(names: seq<string>): map<string, Output>
  {
    WithPlaceholders(WorkflowSheets(names, |names|), 4)
  }

  /** The placeholders add their labels and never overwrite an entry. */
  lemma {:induction false} PlaceholdersSpec(out: map<string, Output>, idx: nat)
    requires 1 <= idx <= 4
    ensures forall s :: s in WithPlaceholders(out, idx) <==> s in out || exists i :: 1 <= i < idx && s == PlaceholderLabel(i)
    ensures forall s :: s in out ==> WithPlaceholders(out, idx)[s] == out[s]
    ensures forall s :: s in WithPlaceholders(out, idx) && s !in out ==> WithPlaceholders(out, idx)[s] == Placeholder
  {
    if idx > 1 {
      PlaceholdersSpec(out, idx - 1);
    }
  }

  /** The keys are the workflow sheets and the three placeholder labels; a
      workflow sheet keeps its data, and a label that names no workflow
      sheet holds the placeholder. */
  lemma CollectOutputsSpec(names: seq<string>)
    ensures var out := CollectOutputs(names);
            (forall s :: s in out <==> (s in names && IsWorkflowSheet(s)) || exists i :: 1 <= i <= 3 && s == PlaceholderLabel(i))
            && (forall s :: s in names && IsWorkflowSheet(s) ==> out[s] == SheetData(s))
            && (forall i :: 1 <= i <= 3 && !(PlaceholderLabel(i) in names && IsWorkflowSheet(PlaceholderLabel(i))) ==>
                  out[PlaceholderLabel(i)] == Placeholder)
  {
    var first := WorkflowSheets(names, |names|);
    PlaceholdersSpec(first, 4);
    forall s | s in names && IsWorkflowSheet(s) ensures s in first {
      var j :| 0 <= j < |names| && names[j] == s;
    }
  }

  /** _collect_workflow_outputs. */
  method CollectWorkflowOutputs(names: seq<string>) returns (outputs: map<string, Output>)
    ensures outputs == CollectOutputs(names)
  {
    outputs := map[];
    for k := 0 to |names|
      invariant outputs == WorkflowSheets(names, k)
    {
      if Contains(Lower(names[k]), "workflow") {
        outputs := outputs[names[k] := SheetData(names[k])];
      }
    }
    ghost var first := outputs;
    for idx := 1 to 4
      invariant outputs == WithPlaceholders(first, idx)
    {
      var tag := "Workflow " + IntText(idx);
      if tag !in outputs {
        outputs := outputs[tag := Placeholder];
      }
    }
  }

  // ---------------------------------------------------------------------
  // The wide-to-long record loop of _normalize_input_dataframe

  /** One long record: the product text, the canonical month of the column,
      the demand and the row's raw per-unit cell. */
  datatype LongRecord = LongRecord(product: string, month: string, demand: real, perUnit: Cell)

  /** The product text of a row: its product cell stripped, unless that is
      NaN, empty or itself a month label (rows that only hold labels). */
  function ProductText(c: Cell): (t: Option<string>)
  {
    if c.Blank? then None
    else
      var text := Strip(CellText(c));
      if |text| == 0 || CanonicalMonth(Str(text)).Some? then None else Some(text)
  }

  /** The demand of a month cell: None for NaN, for text that is a month
      label, and for what _coerce_number cannot read. */
  function CellDemand(c: Cell): (v: Option<real>)
  {
    if c.Blank? then None
    else if c.Str? && CanonicalMonth(c).Some? then None
    else CoerceNumber(c)
  }

  /** The columns of the sheet as the loop sees them: the product column,
      the per-unit column and the detected (column, month) pairs. */
  datatype Layout = Layout(productCol: nat, consumptionCol: nat, monthCols: seq<(nat, string)>)

  /** The record of row r and month column k, when there is one. */
  function RecordAt(rows: Grid, lay: Layout, r: nat, k: nat): Option<LongRecord>
    requires k < |lay.monthCols|
  {
    match ProductText(At(rows, r, lay.productCol))
    case None => None
    case Some(p) =>
      match CellDemand(At(rows, r, lay.monthCols[k].0))
      case None => None
      case Some(v) => Some(LongRecord(p, lay.monthCols[k].1, v, At(rows, r, lay.consumptionCol)))
  }

  /** The present values of a sequence of options, in order. */
  function Somes<T>(xs: seq<Option<T>>): seq<T>
  {
    if |xs| == 0 then []
    else Somes(xs[..|xs| - 1]) + (match xs[|xs| - 1] case None => [] case Some(x) => [x])
  }

  lemma {:induction false} SomesMembers<T>(xs: seq<Option<T>>)
    ensures forall x :: x in Somes(xs) <==> exists q :: 0 <= q < |xs| && xs[q] == Some(x)
  {
    if |xs| > 0 {
      var init := xs[..|xs| - 1];
      SomesMembers(init);
      forall x
        ensures (exists q :: 0 <= q < |xs| && xs[q] == Some(x)) <==>
                ((exists q :: 0 <= q < |init| && init[q] == Some(x)) || xs[|xs| - 1] == Some(x))
      {
        if exists q :: 0 <= q < |xs| && xs[q] == Some(x) {
          var q :| 0 <= q < |xs| && xs[q] == Some(x);
          if q < |init| {
            assert init[q] == Some(x);
          }
        }
        if exists q :: 0 <= q < |init| && init[q] == Some(x) {
          var q :| 0 <= q < |init| && init[q] == Some(x);
          assert xs[q] == Some(x);
        }
      }
    }
  }

  /** The concatenation of a sequence of sequences, in order. */
  function Concat<T>(xss: seq<seq<T>>): seq<T>
  {
    if |xss| == 0 then [] else Concat(xss[..|xss| - 1]) + xss[|xss| - 1]
  }

  lemma {:induction false} ConcatMembers<T>(xss: seq<seq<T>>)
    ensures forall x :: x in Concat(xss) <==> exists r :: 0 <= r < |xss| && x in xss[r]
  {
    if |xss| > 0 {
      var init := xss[..|xss| - 1];
      ConcatMembers(init);
      assert Concat(xss) == Concat(init) + xss[|xss| - 1];
      forall x
        ensures x in Concat(xss) <==> exists r :: 0 <= r < |xss| && x in xss[r]
      {
        if exists r :: 0 <= r < |xss| && x in xss[r] {
          var r :| 0 <= r < |xss| && x in xss[r];
          if r < |init| {
            assert x in init[r];
          }
        }
        if exists r :: 0 <= r < |init| && x in init[r] {
          var r :| 0 <= r < |init| && x in init[r];
          assert x in xss[r];
        }
      }
    }
  }

  /** The possible records of row r over its first k month columns. */
  function Candidates(rows: Grid, lay: Layout, r: nat, k: nat): (c: seq<Option<LongRecord>>)
    requires k <= |lay.monthCols|
    ensures |c| == k
  {
    if k == 0 then [] else Candidates(rows, lay, r, k - 1) + [RecordAt(rows, lay, r, k - 1)]
  }

  lemma {:induction false} CandidateIs(rows: Grid, lay: Layout, r: nat, k: nat, q: nat)
    requires q < k <= |lay.monthCols|
    ensures Candidates(rows, lay, r, k)[q] == RecordAt(rows, lay, r, q)
  {
    var init := Candidates(rows, lay, r, k - 1);
    var last := RecordAt(rows, lay, r, k - 1);
    assert Candidates(rows, lay, r, k) == init + [last];
    if q < k - 1 {
      CandidateIs(rows, lay, r, k - 1, q);
      assert (init + [last])[q] == init[q];
    }
  }

  /** The records of row r, column by column. */
  function RowRecords(rows: Grid, lay: Layout, r: nat): seq<LongRecord>
  {
    Somes(Candidates(rows, lay, r, |lay.monthCols|))
  }

  /** The records of every row, row by row. */
  function RowsRecords(rows: Grid, lay: Layout): (rs: seq<seq<LongRecord>>)
    ensures |rs| == |rows|
    ensures forall r :: 0 <= r < |rs| ==> rs[r] == RowRecords(rows, lay, r)
  {
    seq(|rows|, (r: int) requires 0 <= r < |rows| => RowRecords(rows, lay, r))
  }

  /** The long records of the sheet. */
  function LongRecords(rows: Grid, lay: Layout): seq<LongRecord>
  {
    Concat(RowsRecords(rows, lay))
  }

  /** The long records are exactly the records of every (row, month
      column) pair with a product text and a demand. */
  lemma LongRecordsSpec(rows: Grid, lay: Layout)
    ensures forall x :: x in LongRecords(rows, lay) <==>
              exists r, q :: 0 <= r < |rows| && 0 <= q < |lay.monthCols| && RecordAt(rows, lay, r, q) == Some(x)
  {
    var rs := RowsRecords(rows, lay);
    ConcatMembers(rs);
    forall x
      ensures x in LongRecords(rows, lay) <==>
              exists r, q :: 0 <= r < |rows| && 0 <= q < |lay.monthCols| && RecordAt(rows, lay, r, q) == Some(x)
    {
      if x in LongRecords(rows, lay) {
        var r :| 0 <= r < |rs| && x in rs[r];
        var cands := Candidates(rows, lay, r, |lay.monthCols|);
        SomesMembers(cands);
        var q :| 0 <= q < |cands| && cands[q] == Some(x);
        CandidateIs(rows, lay, r, |lay.monthCols|, q);
      }
      if exists r, q :: 0 <= r < |rows| && 0 <= q < |lay.monthCols| && RecordAt(rows, lay, r, q) == Some(x) {
        var r, q :| 0 <= r < |rows| && 0 <= q < |lay.monthCols| && RecordAt(rows, lay, r, q) == Some(x);
        var cands := Candidates(rows, lay, r, |lay.monthCols|);
        SomesMembers(cands);
        CandidateIs(rows, lay, r, |lay.monthCols|, q);
        assert x in rs[r];
      }
    }
  }

  /** The reshaping loop, or None when it finds no value (the 'No monthly
      demand values' error). */
  function WideToLong(rows: Grid, lay: Layout): Option<seq<LongRecord>>
  {
    var out := LongRecords(rows, lay);
    if |out| == 0 then None else Some(out)
  }

  /** One more element of a sequence of options. */
  lemma SomesAppend<T>(xs: seq<Option<T>>, y: Option<T>)
    ensures Somes(xs + [y]) == Somes(xs) + (match y case None => [] case Some(x) => [x])
  {
    assert (xs + [y])[..|xs|] == xs;
  }

  /** A row without product text gives no record. */
  lemma {:induction false} NoProductNoRecords(rows: Grid, lay: Layout, r: nat, k: nat)
    requires k <= |lay.monthCols|
    requires ProductText(At(rows, r, lay.productCol)).None?
    ensures Somes(Candidates(rows, lay, r, k)) == []
  {
    if k > 0 {
      NoProductNoRecords(rows, lay, r, k - 1);
      SomesAppend(Candidates(rows, lay, r, k - 1), RecordAt(rows, lay, r, k - 1));
    }
  }

  /** The record of month column k of a row with product text p. */
  lemma RecordWith(rows: Grid, lay: Layout, r: nat, k: nat, p: string)
    requires k < |lay.monthCols|
    requires ProductText(At(rows, r, lay.productCol)) == Some(p)
    ensures var v := CellDemand(At(rows, r, lay.monthCols[k].0));
            RecordAt(rows, lay, r, k)
            == (if v.None? then None else Some(LongRecord(p, lay.monthCols[k].1, v.value, At(rows, r, lay.consumptionCol))))
  {
  }

  /** The inner loop over the month columns of row r. */
  method ReadRow(rows: Grid, lay: Layout, r: nat, p: string) returns (out: seq<LongRecord>)
    requires ProductText(At(rows, r, lay.productCol)) == Some(p)
    ensures out == RowRecords(rows, lay, r)
  {
    out := [];
    var perUnit := At(rows, r, lay.consumptionCol);
    for k := 0 to |lay.monthCols|
      invariant out == Somes(Candidates(rows, lay, r, k))
    {
      SomesAppend(Candidates(rows, lay, r, k), RecordAt(rows, lay, r, k));
      RecordWith(rows, lay, r, k, p);
      var (column, month) := lay.monthCols[k];
      var v := CellDemand(At(rows, r, column));
      if v.None? {
        continue;
      }
      out := out + [LongRecord(p, month, v.value, perUnit)];
    }
  }

  /** The wide-to-long loop of _normalize_input_dataframe. */
  method NormalizeWide(rows: Grid, lay: Layout) returns (res: Option<seq<LongRecord>>)
    ensures res == WideToLong(rows, lay)
  {
    var records: seq<LongRecord> := [];
    ghost var rs := RowsRecords(rows, lay);
    for r := 0 to |rows|
      invariant records == Concat(rs[..r])
    {
      assert rs[..r + 1][..r] == rs[..r];
      var product := ProductText(At(rows, r, lay.productCol));
      if product.None? {
        NoProductNoRecords(rows, lay, r, |lay.monthCols|);
        continue;
      }
      var more := ReadRow(rows, lay, r, product.value);
      records := records + more;
    }
    assert rs[..|rows|] == rs;
    if |records| == 0 {
      return None;
    }
    return Some(records);
  }
}

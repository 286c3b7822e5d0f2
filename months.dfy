/** Month vocabulary shared by the extractors: the fiscal and calendar month
    orders, the MONTH_VARIANTS lookup table (English names, abbreviations and
    numbers, plus the 'n月' keys of the universal and comprehensive tables),
    its digit fallback, and the ordered key list the '月' substring rule walks. */
module Months {
  import opened Sheet

  /** FISCAL_MONTHS: the fiscal year runs from April to March. */
  const FiscalMonths: seq<string> := ["April", "May", "June", "July", "August", "September",
                                      "October", "November", "December", "January", "February", "March"]

  /** MONTH_NAMES: the calendar order. */
  const MonthNames: seq<string> := ["January", "February", "March", "April", "May", "June",
                                    "July", "August", "September", "October", "November", "December"]

  /** A calendar month number, 1 for January. */
  type MonthNumber = n: nat | 1 <= n <= 12 witness 1

  /** FISCAL_MONTHS.index(m), when m is a fiscal month. */
  function FiscalIndex(m: string): (k: Option<nat>)
    ensures k.Some? ==> k.value < 12 && FiscalMonths[k.value] == m
    ensures k.None? ==> m !in FiscalMonths
  {
    if m == "April" then Some(0) else if m == "May" then Some(1) else if m == "June" then Some(2)
    else if m == "July" then Some(3) else if m == "August" then Some(4) else if m == "September" then Some(5)
    else if m == "October" then Some(6) else if m == "November" then Some(7) else if m == "December" then Some(8)
    else if m == "January" then Some(9) else if m == "February" then Some(10) else if m == "March" then Some(11)
    else None
  }

  /** The fiscal months are distinct: each is found at its own index. */
  lemma FiscalIndexOf(i: nat)
    requires i < 12
    ensures FiscalIndex(FiscalMonths[i]) == Some(i)
  {
  }

  /** MONTH_VARIANTS without the '月' keys: the month number of a lowered label. */
  function VariantNumber(t: string): Option<MonthNumber>
  {
    if t == "jan" || t == "january" || t == "01" || t == "1" then Some(1)
    else if t == "feb" || t == "february" || t == "02" || t == "2" then Some(2)
    else if t == "mar" || t == "march" || t == "03" || t == "3" then Some(3)
    else if t == "apr" || t == "april" || t == "04" || t == "4" then Some(4)
    else if t == "may" || t == "05" || t == "5" then Some(5)
    else if t == "jun" || t == "june" || t == "06" || t == "6" then Some(6)
    else if t == "jul" || t == "july" || t == "07" || t == "7" then Some(7)
    else if t == "aug" || t == "august" || t == "08" || t == "8" then Some(8)
    else if t == "sep" || t == "sept" || t == "september" || t == "09" || t == "9" then Some(9)
    else if t == "oct" || t == "october" || t == "10" then Some(10)
    else if t == "nov" || t == "november" || t == "11" then Some(11)
    else if t == "dec" || t == "december" || t == "12" then Some(12)
    else None
  }

  /** The '1月' .. '12月' keys of the universal and comprehensive tables. */
  function JapaneseNumber(t: string): Option<MonthNumber>
  {
    if t == "1月" then Some(1) else if t == "2月" then Some(2) else if t == "3月" then Some(3)
    else if t == "4月" then Some(4) else if t == "5月" then Some(5) else if t == "6月" then Some(6)
    else if t == "7月" then Some(7) else if t == "8月" then Some(8) else if t == "9月" then Some(9)
    else if t == "10月" then Some(10) else if t == "11月" then Some(11) else if t == "12月" then Some(12)
    else None
  }

  /** FISCAL_MONTHS[(n - 4) % 12 if n >= 4 else n + 8]: the n-th calendar month. */
  function CalendarMonth(n: MonthNumber): (m: string)
    ensures m == MonthNames[n - 1]
    ensures m in FiscalMonths
  {
    FiscalMonths[if n >= 4 then (n - 4) % 12 else n + 8]
  }

  /** The text is all ASCII digits and reads as a number from 1 to 12. */
  function DigitMonth(t: string): (n: Option<MonthNumber>)
    ensures n.Some? <==> IsDigits(t) && 1 <= DigitsValue(t) <= 12
    ensures n.Some? ==> n.value == DigitsValue(t)
  {
    if IsDigits(t) && 1 <= DigitsValue(t) <= 12 then Some(DigitsValue(t)) else None
  }

  /** The lookup every normaliser ends with: the table entry's month, else
      the digit fallback's calendar month, else None. */
  function LookupMonth(t: string): (m: Option<string>)
    ensures m.Some? ==> m.value in MonthNames
    ensures m.Some? <==> VariantNumber(t).Some? || DigitMonth(t).Some?
    ensures VariantNumber(t).Some? ==> m == Some(MonthNames[VariantNumber(t).value - 1])
  {
    match VariantNumber(t)
    case Some(n) => Some(MonthNames[n - 1])
    case None =>
      match DigitMonth(t)
      case Some(n) => Some(CalendarMonth(n))
      case None => None
  }

  /** A text ending in '月' loses every '月'; any other text is kept. */
  function DropJapanese(t: string): string
  {
    if EndsWith(t, "月") then Remove(t, '月') else t
  }

  /** The universal and comprehensive table: the '月' keys too. */
  function LookupMonthJapanese(t: string): (m: Option<string>)
    ensures m.Some? ==> m.value in MonthNames
    ensures JapaneseNumber(t).None? ==> m == LookupMonth(t)
  {
    match JapaneseNumber(t)
    case Some(n) => Some(MonthNames[n - 1])
    case None => LookupMonth(t)
  }

  /** The entries of the month-variant table of the universal and
      comprehensive extractors, key and month, in the order they are written. */
  const Variants: seq<(string, MonthNumber)> :=
    [("jan", 1), ("january", 1), ("01", 1), ("1", 1)]
    + [("feb", 2), ("february", 2), ("02", 2), ("2", 2)]
    + [("mar", 3), ("march", 3), ("03", 3), ("3", 3)]
    + [("apr", 4), ("april", 4), ("04", 4), ("4", 4)]
    + [("may", 5), ("05", 5), ("5", 5)]
    + [("jun", 6), ("june", 6), ("06", 6), ("6", 6)]
    + [("jul", 7), ("july", 7), ("07", 7), ("7", 7)]
    + [("aug", 8), ("august", 8), ("08", 8), ("8", 8)]
    + [("sep", 9), ("sept", 9), ("september", 9), ("09", 9), ("9", 9)]
    + [("oct", 10), ("october", 10), ("10", 10)]
    + [("nov", 11), ("november", 11), ("11", 11)]
    + [("dec", 12), ("december", 12), ("12", 12)]
    + [("1月", 1), ("2月", 2), ("3月", 3), ("4月", 4), ("5月", 5), ("6月", 6)]
    + [("7月", 7), ("8月", 8), ("9月", 9), ("10月", 10), ("11月", 11), ("12月", 12)]

  /** The first entry, in table order, whose key occurs in the text: the
      '月' rule, which scans the variant table in order for a key occurring in the text. */
  function FirstVariant(tbl: seq<(string, MonthNumber)>, text: string): (r: Option<MonthNumber>)
    ensures r.None? <==> forall i :: 0 <= i < |tbl| ==> !Contains(text, tbl[i].0)
    ensures r.Some? ==> exists i :: 0 <= i < |tbl| && Contains(text, tbl[i].0) && r.value == tbl[i].1
                                   && forall j :: 0 <= j < i ==> !Contains(text, tbl[j].0)
  {
    if |tbl| == 0 then None
    else if Contains(text, tbl[0].0) then Some(tbl[0].1)
    else
      var r := FirstVariant(tbl[1..], text);
      assert forall i :: 1 <= i < |tbl| ==> tbl[i] == tbl[1..][i - 1];
      if r.Some? then
        var i :| 0 <= i < |tbl[1..]| && Contains(text, tbl[1..][i].0) && r.value == tbl[1..][i].1
                 && forall j :: 0 <= j < i ==> !Contains(text, tbl[1..][j].0);
        assert forall j :: 0 <= j < i + 1 ==> !Contains(text, tbl[j].0) by {
          forall j | 0 <= j < i + 1 ensures !Contains(text, tbl[j].0) {
            if j > 0 { assert tbl[j] == tbl[1..][j - 1]; }
          }
        }
        r
      else r
  }

  /** The entry found is the first one whose key occurs in the text. */
  lemma FirstVariantIs(tbl: seq<(string, MonthNumber)>, text: string, i: nat)
    requires i < |tbl| && Contains(text, tbl[i].0)
    requires forall j :: 0 <= j < i ==> !Contains(text, tbl[j].0)
    ensures FirstVariant(tbl, text) == Some(tbl[i].1)
  {
    var r := FirstVariant(tbl, text);
    var k :| 0 <= k < |tbl| && Contains(text, tbl[k].0) && r.value == tbl[k].1
             && forall j :: 0 <= j < k ==> !Contains(text, tbl[j].0);
    assert !(k < i) && !(i < k);
  }

  // ---------------------------------------------------------------------
  // Month names are keys of the table

  /** A capital ASCII letter followed by lowercase ASCII letters. */
  predicate Capitalised(s: string)
  {
    |s| > 0 && 'A' <= s[0] <= 'Z' && forall i :: 1 <= i < |s| ==> 'a' <= s[i] <= 'z'
  }

  /** Lowering a capitalised word lowers its first letter only. */
  lemma LowerCapitalised(s: string, t: string)
    requires Capitalised(s)
    requires t == [LowerChar(s[0])] + s[1..]
    ensures Lower(s) == t
  {
  }

  lemma JanuaryIsKey(s: string)
    requires s == "January"
    ensures VariantNumber(Lower(s)) == Some(1)
    ensures Capitalised(s)
  {
    LowerCapitalised(s, "january");
  }

  lemma FebruaryIsKey(s: string)
    requires s == "February"
    ensures VariantNumber(Lower(s)) == Some(2)
    ensures Capitalised(s)
  {
    LowerCapitalised(s, "february");
  }

  lemma MarchIsKey(s: string)
    requires s == "March"
    ensures VariantNumber(Lower(s)) == Some(3)
    ensures Capitalised(s)
  {
    LowerCapitalised(s, "march");
  }

  lemma AprilIsKey(s: string)
    requires s == "April"
    ensures VariantNumber(Lower(s)) == Some(4)
    ensures Capitalised(s)
  {
    LowerCapitalised(s, "april");
  }

  lemma MayIsKey(s: string)
    requires s == "May"
    ensures VariantNumber(Lower(s)) == Some(5)
    ensures Capitalised(s)
  {
    LowerCapitalised(s, "may");
  }

  lemma JuneIsKey(s: string)
    requires s == "June"
    ensures VariantNumber(Lower(s)) == Some(6)
    ensures Capitalised(s)
  {
    LowerCapitalised(s, "june");
  }

  lemma JulyIsKey(s: string)
    requires s == "July"
    ensures VariantNumber(Lower(s)) == Some(7)
    ensures Capitalised(s)
  {
    LowerCapitalised(s, "july");
  }

  lemma AugustIsKey(s: string)
    requires s == "August"
    ensures VariantNumber(Lower(s)) == Some(8)
    ensures Capitalised(s)
  {
    LowerCapitalised(s, "august");
  }

  lemma SeptemberIsKey(s: string)
    requires s == "September"
    ensures VariantNumber(Lower(s)) == Some(9)
    ensures Capitalised(s)
  {
    LowerCapitalised(s, "september");
  }

  lemma OctoberIsKey(s: string)
    requires s == "October"
    ensures VariantNumber(Lower(s)) == Some(10)
    ensures Capitalised(s)
  {
    LowerCapitalised(s, "october");
  }

  lemma NovemberIsKey(s: string)
    requires s == "November"
    ensures VariantNumber(Lower(s)) == Some(11)
    ensures Capitalised(s)
  {
    LowerCapitalised(s, "november");
  }

  lemma DecemberIsKey(s: string)
    requires s == "December"
    ensures VariantNumber(Lower(s)) == Some(12)
    ensures Capitalised(s)
  {
    LowerCapitalised(s, "december");
  }

  /** Every month name, lowered, is a key of MONTH_VARIANTS for its own
      number: normalising a month name gives it back. */
  lemma NameIsKey(n: MonthNumber)
    ensures VariantNumber(Lower(MonthNames[n - 1])) == Some(n)
    ensures Capitalised(MonthNames[n - 1])
  {
    var s := MonthNames[n - 1];
    if n == 1 { JanuaryIsKey(s); }
    else if n == 2 { FebruaryIsKey(s); }
    else if n == 3 { MarchIsKey(s); }
    else if n == 4 { AprilIsKey(s); }
    else if n == 5 { MayIsKey(s); }
    else if n == 6 { JuneIsKey(s); }
    else if n == 7 { JulyIsKey(s); }
    else if n == 8 { AugustIsKey(s); }
    else if n == 9 { SeptemberIsKey(s); }
    else if n == 10 { OctoberIsKey(s); }
    else if n == 11 { NovemberIsKey(s); }
    else { DecemberIsKey(s); }
  }

  /** The lookup gives every month name, lowered, back. */
  lemma NameLooksUp(n: MonthNumber)
    ensures LookupMonth(Lower(MonthNames[n - 1])) == Some(MonthNames[n - 1])
  {
    NameIsKey(n);
  }
}

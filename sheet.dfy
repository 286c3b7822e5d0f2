/** The in-memory view of a workbook sheet shared by every extractor: cells,
    grids, the text operations the extractors apply to cell text (Python's
    strip, lower, upper, replace, `in` and isdigit over ASCII and the
    characters that matter here), the decimal parser standing for Python's
    float(), the number normaliser every extractor uses, and the sums and
    moving averages the forecasters are built from. */
module Sheet {

  datatype Option<T> = None | Some(value: T)

  /** One cell as pandas delivers it: Blank covers None and NaN. */
  datatype Cell = Blank | Num(r: real) | Str(s: string)

  /** A sheet read with header=None: rows of cells, possibly ragged. */
  type Grid = seq<seq<Cell>>

  function Max(a: int, b: int): int { if a < b then b else a }
  function Min(a: int, b: int): int { if a < b then a else b }

  /** Number of columns of the DataFrame: pandas pads short rows with NaN. */
  function Width(g: Grid): (w: nat)
    ensures forall r :: 0 <= r < |g| ==> |g[r]| <= w
    ensures |g| == 0 ==> w == 0
    ensures |g| > 0 ==> exists r :: 0 <= r < |g| && |g[r]| == w
  {
    if |g| == 0 then 0
    else
      var rest := Width(g[1..]);
      assert forall r :: 1 <= r < |g| ==> g[r] == g[1..][r - 1];
      if |g[0]| >= rest then |g[0]|
      else
        var k :| 0 <= k < |g[1..]| && |g[1..][k]| == rest;
        assert g[k + 1] == g[1..][k];
        rest
  }

  /** The cell at row r, column c, with the NaN padding outside the stored cells. */
  function At(g: Grid, r: int, c: int): Cell
  {
    if 0 <= r < |g| && 0 <= c < |g[r]| then g[r][c] else Blank
  }

  /** A row of the sheet is entirely NaN. */
  predicate RowBlank(g: Grid, r: int)
  {
    forall c :: 0 <= c < Width(g) ==> At(g, r, c) == Blank
  }

  // ---------------------------------------------------------------------
  // Characters and text

  predicate IsSpace(ch: char)
  {
    ch == ' ' || ch == '\t' || ch == '\n' || ch == '\r' || ch == '\U{000B}' || ch == '\U{000C}'
  }

  predicate IsDigit(ch: char) { '0' <= ch <= '9' }

  /** str.isalpha: ASCII letters, and the CJK month character. */
  predicate IsAlpha(ch: char)
  {
    'a' <= ch <= 'z' || 'A' <= ch <= 'Z' || ch == '月'
  }

  function LowerChar(ch: char): (r: char)
    ensures !('A' <= r <= 'Z')
    ensures IsDigit(r) <==> IsDigit(ch)
    ensures IsSpace(r) <==> IsSpace(ch)
  {
    if 'A' <= ch <= 'Z' then (ch as int + 32) as char else ch
  }

  function UpperChar(ch: char): (r: char)
    ensures !('a' <= r <= 'z')
    ensures IsDigit(r) <==> IsDigit(ch)
    ensures IsAlpha(r) <==> IsAlpha(ch)
  {
    if 'a' <= ch <= 'z' then (ch as int - 32) as char else ch
  }

  function Lower(s: string): (t: string)
    ensures |t| == |s|
    ensures forall i :: 0 <= i < |s| ==> t[i] == LowerChar(s[i])
  {
    seq(|s|, i requires 0 <= i < |s| => LowerChar(s[i]))
  }

  function Upper(s: string): (t: string)
    ensures |t| == |s|
    ensures forall i :: 0 <= i < |s| ==> t[i] == UpperChar(s[i])
  {
    seq(|s|, i requires 0 <= i < |s| => UpperChar(s[i]))
  }

  /** Uppercasing twice is uppercasing once. */
  lemma UpperIdempotent(s: string)
    ensures Upper(Upper(s)) == Upper(s)
  {
  }

  /** The leading whitespace removed (str.lstrip). */
  function TrimLeft(s: string): (t: string)
    ensures |t| <= |s| && t == s[|s| - |t|..]
    ensures |t| > 0 ==> !IsSpace(t[0])
    ensures forall i :: 0 <= i < |s| - |t| ==> IsSpace(s[i])
  {
    if |s| > 0 && IsSpace(s[0]) then TrimLeft(s[1..]) else s
  }

  /** The trailing whitespace removed (str.rstrip). */
  function TrimRight(s: string): (t: string)
    ensures |t| <= |s| && t == s[..|t|]
    ensures |t| > 0 ==> !IsSpace(t[|t| - 1])
    ensures forall i :: |t| <= i < |s| ==> IsSpace(s[i])
  {
    if |s| > 0 && IsSpace(s[|s| - 1]) then TrimRight(s[..|s| - 1]) else s
  }

  /** Leading and trailing whitespace removed (Python's strip). */
  function Strip(s: string): string
  {
    TrimRight(TrimLeft(s))
  }

  /** No text occurs twice in s. */
  predicate Distinct(s: seq<string>)
  {
    forall i, j :: 0 <= i < j < |s| ==> s[i] != s[j]
  }

  /** Every occurrence of one character removed. */
  function Remove(s: string, ch: char): (t: string)
    ensures |t| <= |s|
    ensures forall i :: 0 <= i < |t| ==> t[i] != ch
    ensures (forall i :: 0 <= i < |s| ==> s[i] != ch) ==> t == s
  {
    if |s| == 0 then []
    else (if s[0] == ch then [] else [s[0]]) + Remove(s[1..], ch)
  }

  predicate StartsWith(s: string, p: string) { p <= s }

  predicate EndsWith(s: string, suffix: string)
  {
    |suffix| <= |s| && s[|s| - |suffix|..] == suffix
  }

  /** Python's `sub in s` for strings. */
  predicate Contains(s: string, sub: string)
    decreases |s|
  {
    sub <= s || (|s| > 0 && Contains(s[1..], sub))
  }

  /** str.isdigit() over ASCII digits. */
  predicate IsDigits(s: string)
  {
    |s| > 0 && AllDigits(s)
  }

  /** Every character is an ASCII digit (the empty string included). */
  predicate AllDigits(s: string)
  {
    forall i :: 0 <= i < |s| ==> IsDigit(s[i])
  }

  /** Some character of s is a letter. */
  predicate HasLetter(s: string)
  {
    exists i :: 0 <= i < |s| && IsAlpha(s[i])
  }

  function DigitValue(ch: char): nat
    requires IsDigit(ch)
  {
    ch as int - '0' as int
  }

  function DigitChar(d: nat): (ch: char)
    requires d < 10
    ensures IsDigit(ch) && DigitValue(ch) == d
  {
    ('0' as int + d) as char
  }

  /** int(s) for a string of ASCII digits. */
  function DigitsValue(s: string): nat
    requires AllDigits(s)
  {
    if |s| == 0 then 0 else DigitsValue(s[..|s| - 1]) * 10 + DigitValue(s[|s| - 1])
  }

  function Pow10(k: nat): (p: nat)
    ensures p >= 1
  {
    if k == 0 then 1 else 10 * Pow10(k - 1)
  }

  /** str(n) for a non-negative Python int. */
  function IntText(n: nat): (s: string)
    ensures IsDigits(s)
    ensures DigitsValue(s) == n
  {
    if n < 10 then [DigitChar(n)]
    else
      var s := IntText(n / 10) + [DigitChar(n % 10)];
      assert s[..|s| - 1] == IntText(n / 10);
      s
  }

  /** Up to k decimal digits of a fraction 0 <= f < 1, trailing zeros dropped. */
  function FracDigits(f: real, k: nat): (s: string)
    requires 0.0 <= f < 1.0
    ensures AllDigits(s)
    decreases k
  {
    if k == 0 || f == 0.0 then ""
    else
      var d := (f * 10.0).Floor;
      [DigitChar(d)] + FracDigits(f * 10.0 - d as real, k - 1)
  }

  /** str() of a numeric cell. A whole number prints as the int openpyxl
      delivers for it; a fractional one prints its decimal expansion (to 17
      places; Python prints the shortest round-trip digits, which are also
      digits after a single point). */
  function NumText(x: real): (s: string)
    ensures forall i :: 0 <= i < |s| ==> IsDigit(s[i]) || s[i] == '.' || s[i] == '-'
    decreases if x < 0.0 then 1 else 0
  {
    if x < 0.0 then "-" + NumText(-x)
    else if x == x.Floor as real then IntText(x.Floor)
    else IntText(x.Floor) + "." + FracDigits(x - x.Floor as real, 17)
  }

  /** The text of a cell as Python prints it; NaN prints as 'nan'. */
  function CellText(c: Cell): string
  {
    match c
    case Blank => "nan"
    case Num(x) => NumText(x)
    case Str(s) => s
  }

  // ---------------------------------------------------------------------
  // Parsing numbers

  /** Length of the run of digits at the start of s. */
  function DigitRun(s: string): (k: nat)
    ensures k <= |s|
    ensures forall i :: 0 <= i < k ==> IsDigit(s[i])
    ensures k < |s| ==> !IsDigit(s[k])
  {
    if |s| > 0 && IsDigit(s[0]) then 1 + DigitRun(s[1..]) else 0
  }

  /** The value of the decimal text w.f. */
  function DecimalValue(w: string, f: string): real
    requires AllDigits(w) && AllDigits(f)
  {
    DigitsValue(w) as real + DigitsValue(f) as real / Pow10(|f|) as real
  }

  /** digits[.digits] with at least one digit. */
  function ParseUnsigned(t: string): Option<real>
  {
    var k := DigitRun(t);
    if k == |t| then (if k > 0 then Some(DigitsValue(t) as real) else None)
    else if t[k] == '.' then
      var frac := t[k + 1..];
      if AllDigits(frac) && (k > 0 || |frac| > 0)
      then Some(DecimalValue(t[..k], frac))
      else None
    else None
  }

  /** Python float(s) on plain decimal text: surrounding whitespace, an
      optional sign, digits and an optional fractional part. Empty text, a
      lone sign and parenthesised text are no number. */
  function ParseFloat(s: string): Option<real>
  {
    var t := Strip(s);
    if |t| > 0 && (t[0] == '-' || t[0] == '+') then
      match ParseUnsigned(t[1..])
      case None => None
      case Some(v) => Some(if t[0] == '-' then -v else v)
    else ParseUnsigned(t)
  }

  /** The currency symbols and thousands separators every normaliser drops. */
  function Decoration(s: string): string
  {
    Remove(Remove(Remove(Remove(Remove(s, '$'), '€'), '£'), '¥'), ',')
  }

  /** normalize_numeric_value / to_float: a number, or None for a blank or
      unparseable cell. Its laws are the lemmas below: absence is never read
      as 0 (BareTextIsNone, DecorationOnlyIsNone), plain text reads as
      float() of it (NormalizePlain), and '(x)' as its negation
      (NormalizeParenthesised). */
  function NormalizeNumeric(c: Cell): Option<real>
  {
    match c
    case Blank => None
    case Num(x) => Some(x)
    case Str(s) => NumericText(Strip(Decoration(s)))
  }

  /** The text steps after the symbols are gone: '(x)' is the negation of
      x, and '' or '-' is no number. (A text both starting with '(' and
      ending with ')' has two or more characters.) */
  function NumericText(t: string): Option<real>
  {
    var negative := |t| >= 2 && t[0] == '(' && t[|t| - 1] == ')';
    var body := Strip(if negative then t[1..|t| - 1] else t);
    if body == "" || body == "-" then None
    else
      match ParseFloat(body)
      case None => None
      case Some(v) => Some(if negative then -v else v)
  }

  predicate IsDecoration(ch: char) { ch == '$' || ch == '€' || ch == '£' || ch == '¥' || ch == ',' }

  // ---------------------------------------------------------------------
  // Laws of the text operations and of the number normaliser

  /** A letter is never a digit nor whitespace, so "has a letter" and "all
      digits" exclude each other in the product-code rules. */
  lemma LetterIsNoDigit(ch: char)
    requires IsAlpha(ch)
    ensures !IsDigit(ch) && !IsSpace(ch)
  {
  }

  lemma StripId(s: string)
    requires |s| > 0 && !IsSpace(s[0]) && !IsSpace(s[|s| - 1])
    ensures Strip(s) == s
  {
  }

  lemma StripAllSpace(s: string)
    requires forall i :: 0 <= i < |s| ==> IsSpace(s[i])
    ensures Strip(s) == ""
  {
  }

  lemma {:induction false} RemoveAppend(a: string, b: string, ch: char)
    ensures Remove(a + b, ch) == Remove(a, ch) + Remove(b, ch)
  {
    if |a| == 0 {
      assert a + b == b;
    } else {
      var h: string := if a[0] == ch then [] else [a[0]];
      calc {
        Remove(a + b, ch);
        { assert (a + b)[0] == a[0]; }
        h + Remove((a + b)[1..], ch);
        { assert (a + b)[1..] == a[1..] + b; }
        h + Remove(a[1..] + b, ch);
        { RemoveAppend(a[1..], b, ch); }
        h + (Remove(a[1..], ch) + Remove(b, ch));
        (h + Remove(a[1..], ch)) + Remove(b, ch);
      }
    }
  }

  /** replace keeps every other character and invents none. */
  lemma {:induction false} RemoveFrom(s: string, ch: char)
    ensures forall c :: c in Remove(s, ch) ==> c in s && c != ch
  {
    if |s| > 0 {
      RemoveFrom(s[1..], ch);
      forall c | c in Remove(s, ch) ensures c in s {
        if c !in (if s[0] == ch then [] else [s[0]]) {
          assert c in Remove(s[1..], ch);
          assert c in s[1..];
        }
      }
    }
  }

  lemma DecorationFrom(s: string)
    ensures forall c :: c in Decoration(s) ==> c in s && !IsDecoration(c)
  {
    var s1 := Remove(s, '$');
    var s2 := Remove(s1, '€');
    var s3 := Remove(s2, '£');
    var s4 := Remove(s3, '¥');
    RemoveFrom(s, '$'); RemoveFrom(s1, '€'); RemoveFrom(s2, '£'); RemoveFrom(s3, '¥'); RemoveFrom(s4, ',');
  }

  lemma DecorationAppend(a: string, b: string)
    ensures Decoration(a + b) == Decoration(a) + Decoration(b)
  {
    RemoveAppend(a, b, '$');
    var a1, b1 := Remove(a, '$'), Remove(b, '$');
    RemoveAppend(a1, b1, '€');
    var a2, b2 := Remove(a1, '€'), Remove(b1, '€');
    RemoveAppend(a2, b2, '£');
    var a3, b3 := Remove(a2, '£'), Remove(b2, '£');
    RemoveAppend(a3, b3, '¥');
    var a4, b4 := Remove(a3, '¥'), Remove(b3, '¥');
    RemoveAppend(a4, b4, ',');
  }

  /** A lone currency symbol or comma is removed entirely. */
  lemma DecorationOne(s: string)
    requires |s| == 1 && IsDecoration(s[0])
    ensures Decoration(s) == ""
  {
    DecorationFrom(s);
  }

  lemma DecorationNone(s: string)
    requires forall i :: 0 <= i < |s| ==> !IsDecoration(s[i])
    ensures Decoration(s) == s
  {
  }

  /** Every digit string is one run of digits. */
  lemma {:induction false} DigitRunAll(s: string)
    requires AllDigits(s)
    ensures DigitRun(s) == |s|
  {
    if |s| > 0 {
      DigitRunAll(s[1..]);
    }
  }

  /** The text of n, and of n with a leading '-', parse back to n and -n. */
  lemma ParseIntText(n: nat)
    ensures ParseFloat(IntText(n)) == Some(n as real)
    ensures ParseFloat("-" + IntText(n)) == Some(-(n as real))
  {
    var t := IntText(n);
    ParseDigits(t);
    ParseNegated(t);
  }

  /** '-' followed by digits parses as the negated digits. */
  lemma ParseNegated(t: string)
    requires IsDigits(t)
    ensures ParseFloat("-" + t) == Some(-(DigitsValue(t) as real))
  {
    var u := "-" + t;
    assert Strip(u) == u by { StripId(u); }
    assert ParseUnsigned(u[1..]) == Some(DigitsValue(t) as real) by {
      assert u[1..] == t;
      DigitRunAll(t);
    }
  }

  /** digits '.' digits parses as whole part plus fraction. */
  lemma ParseDecimal(w: string, f: string)
    requires IsDigits(w)
    requires AllDigits(f)
    ensures ParseFloat(w + "." + f) == Some(DecimalValue(w, f))
  {
    var s := w + "." + f;
    assert s[0] == w[0];
    assert s[|s| - 1] == (if |f| > 0 then f[|f| - 1] else '.');
    StripId(s);
    assert s[|w|] == '.';
    DigitRunPrefix(s, w);
    assert s[..|w|] == w;
    assert s[|w| + 1..] == f;
    assert ParseUnsigned(s) == Some(DecimalValue(w, f));
  }

  lemma {:induction false} DigitRunPrefix(s: string, w: string)
    requires w <= s
    requires forall i :: 0 <= i < |w| ==> IsDigit(w[i])
    requires |w| < |s| && !IsDigit(s[|w|])
    ensures DigitRun(s) == |w|
  {
    if |w| > 0 {
      DigitRunPrefix(s[1..], w[1..]);
    }
  }

  /** The currency symbols and thousands separators never matter: the
      normaliser sees the same number once they are removed. */
  lemma NormalizeDecorated(s: string)
    ensures NormalizeNumeric(Str(s)) == NormalizeNumeric(Str(Decoration(s)))
  {
    DecorationFrom(s);
    var d := Decoration(s);
    forall i | 0 <= i < |d| ensures !IsDecoration(d[i]) {
      assert d[i] in d;
    }
    DecorationNone(d);
  }

  /** What float() accepts is neither empty, nor '-', nor parenthesised. */
  lemma ParsedShape(s: string, v: real)
    requires Strip(s) == s
    requires ParseFloat(s) == Some(v)
    ensures s != "" && s != "-" && s[0] != '('
  {
    assert "-"[0] == '-';
  }

  lemma NumericTextPlain(s: string, v: real)
    requires Strip(s) == s
    requires ParseFloat(s) == Some(v)
    ensures NumericText(s) == Some(v)
  {
    ParsedShape(s, v);
  }

  lemma NumericTextParen(s: string, v: real)
    requires Strip(s) == s
    requires ParseFloat(s) == Some(v)
    ensures NumericText("(" + s + ")") == Some(-v)
  {
    ParsedShape(s, v);
    var p := "(" + s + ")";
    assert |p| >= 2 && p[0] == '(' && p[|p| - 1] == ')';
    assert p[1..|p| - 1] == s;
    assert Strip(p[1..|p| - 1]) == s;
  }

  /** Plain numeric text parses by float() ... */
  lemma NormalizePlain(s: string, v: real)
    requires forall i :: 0 <= i < |s| ==> !IsDecoration(s[i])
    requires Strip(s) == s
    requires ParseFloat(s) == Some(v)
    ensures NormalizeNumeric(Str(s)) == Some(v)
  {
    DecorationNone(s);
    NumericTextPlain(s, v);
  }

  /** ... and in parentheses as its negation. */
  lemma NormalizeParenthesised(s: string, v: real)
    requires forall i :: 0 <= i < |s| ==> !IsDecoration(s[i])
    requires Strip(s) == s
    requires ParseFloat(s) == Some(v)
    ensures NormalizeNumeric(Str("(" + s + ")")) == Some(-v)
  {
    ParsedShape(s, v);
    var p := "(" + s + ")";
    forall i | 0 <= i < |p| ensures !IsDecoration(p[i]) {
      if 0 < i < |p| - 1 { assert p[i] == s[i - 1]; }
    }
    DecorationNone(p);
    StripId(p);
    NumericTextParen(s, v);
  }

  /** Text made only of currency symbols, commas and spaces is not a number. */
  lemma DecorationOnlyIsNone(s: string)
    requires forall i :: 0 <= i < |s| ==> IsDecoration(s[i]) || IsSpace(s[i])
    ensures NormalizeNumeric(Str(s)) == None
  {
    DecorationFrom(s);
    var d := Decoration(s);
    forall i | 0 <= i < |d| ensures IsSpace(d[i]) {
      assert d[i] in d;
      assert d[i] in s;
      var j :| 0 <= j < |s| && s[j] == d[i];
    }
    StripAllSpace(d);
    assert Strip("") == "";
  }

  /** A whole number spelled out is read back as itself. */
  lemma NormalizeIntText(n: nat)
    ensures NormalizeNumeric(Str(IntText(n))) == Some(n as real)
  {
    var t := IntText(n);
    IntTextUndecorated(t, n);
    IntTextStripped(t, n);
    ParseIntText(n);
    NormalizePlain(t, n as real);
  }

  lemma IntTextUndecorated(t: string, n: nat)
    requires t == IntText(n)
    ensures forall i :: 0 <= i < |t| ==> !IsDecoration(t[i])
  {
  }

  lemma IntTextStripped(t: string, n: nat)
    requires t == IntText(n)
    ensures Strip(t) == t
  {
    StripId(t);
  }

  /** float() of a string of digits. */
  lemma ParseDigits(w: string)
    requires IsDigits(w)
    ensures ParseFloat(w) == Some(DigitsValue(w) as real)
  {
    StripId(w);
    DigitRunAll(w);
  }

  /** Text that is empty or a lone '-' once the currency symbols, commas and
      surrounding whitespace are gone is no number. */
  lemma BareTextIsNone(s: string)
    requires Strip(Decoration(s)) == "" || Strip(Decoration(s)) == "-"
    ensures NormalizeNumeric(Str(s)) == None
  {
    var t := Strip(Decoration(s));
    if t == "-" {
      assert t[0] == '-' && |t| == 1;
    }
  }

  /** '' and '-' are no number, not 0. */
  lemma NormalizeEmptyAndDash(s: string)
    requires s == "" || s == "-"
    ensures NormalizeNumeric(Str(s)) == None
  {
    if |s| == 1 {
      assert s[0] == '-';
      DecorationNone(s);
      StripId(s);
    }
  }

  // ---------------------------------------------------------------------
  // Sums and averages

  function Sum(s: seq<real>): real
  {
    if |s| == 0 then 0.0 else Sum(s[..|s| - 1]) + s[|s| - 1]
  }

  function Mean(s: seq<real>): real
    requires |s| > 0
  {
    Sum(s) / |s| as real
  }

  /** The values of the present entries, in order. */
  function Present(s: seq<Option<real>>): (r: seq<real>)
    ensures |r| <= |s|
    ensures (forall i :: 0 <= i < |s| ==> s[i].None?) <==> r == []
  {
    if |s| == 0 then []
    else Present(s[..|s| - 1]) + (if s[|s| - 1].Some? then [s[|s| - 1].value] else [])
  }

  /** n copies of x ([x] * n). */
  function Repeat<T>(x: T, n: nat): (r: seq<T>)
    ensures |r| == n && forall i :: 0 <= i < n ==> r[i] == x
  {
    seq(n, _ => x)
  }

  /** The 3-window rule every forecaster shares: the mean of the last three
      values, the mean of both when there are two, the value itself when
      there is one. */
  function WindowMean(vals: seq<real>): real
    requires |vals| > 0
  {
    if |vals| >= 3 then Mean(vals[|vals| - 3..])
    else if |vals| == 2 then Mean(vals)
    else vals[0]
  }

  // ---------------------------------------------------------------------
  // Column sums over blocks of rows

  /** range(lo, hi). */
  function Range(lo: nat, hi: nat): (r: seq<nat>)
    ensures |r| == if hi > lo then hi - lo else 0
    ensures forall i :: 0 <= i < |r| ==> r[i] == lo + i
  {
    if hi <= lo then [] else seq(hi - lo, i requires 0 <= i < hi - lo => lo + i)
  }

  /** The parseable values of one column over the given rows, in row order. */
  function Parsed(g: Grid, rows: seq<nat>, col: nat): seq<real>
  {
    if |rows| == 0 then []
    else
      Parsed(g, rows[..|rows| - 1], col)
      + (match NormalizeNumeric(At(g, rows[|rows| - 1], col)) case Some(v) => [v] case None => [])
  }

  /** sum of the parseable values of one column over the given rows, or None
      when none parses. */
  function ColumnTotal(g: Grid, rows: seq<nat>, col: nat): Option<real>
  {
    var vs := Parsed(g, rows, col);
    if vs == [] then None else Some(Sum(vs))
  }

  /** {month: column total} for every entry of a month-column map. */
  function MonthTotals(g: Grid, rows: seq<nat>, mc: map<string, nat>): (t: map<string, Option<real>>)
    ensures t.Keys == mc.Keys
  {
    map m | m in mc :: ColumnTotal(g, rows, mc[m])
  }

  /** The inner loop of extract_exact_monthly_values: the parseable values
      of one column over the given rows, summed, or None when none parses. */
  method SumColumn(g: Grid, rows: seq<nat>, col: nat) returns (total: Option<real>)
    ensures total == ColumnTotal(g, rows, col)
  {
    var vals: seq<real> := [];
    var i := 0;
    while i < |rows|
      invariant 0 <= i <= |rows|
      invariant vals == Parsed(g, rows[..i], col)
    {
      var v := NormalizeNumeric(At(g, rows[i], col));
      if v.Some? {
        vals := vals + [v.value];
      }
      assert rows[..i + 1][..i] == rows[..i];
      i := i + 1;
    }
    assert rows[..|rows|] == rows;
    if vals == [] {
      total := None;
    } else {
      total := Some(Sum(vals));
    }
  }

  /** extract_exact_monthly_values (and extract_monthly_values_for_product,
      extract_product_monthly_data, which are the same loops): one total per
      entry of the month-column map. */
  method ExtractMonthlyValues(g: Grid, rows: seq<nat>, mc: map<string, nat>) returns (vals: map<string, Option<real>>)
    ensures vals == MonthTotals(g, rows, mc)
  {
    vals := map[];
    var todo := mc.Keys;
    while todo != {}
      invariant todo <= mc.Keys
      invariant vals.Keys == mc.Keys - todo
      invariant forall m :: m in vals ==> vals[m] == ColumnTotal(g, rows, mc[m])
      decreases |todo|
    {
      var m :| m in todo;
      var t := SumColumn(g, rows, mc[m]);
      vals := vals[m := t];
      todo := todo - {m};
    }
  }

  /** A column total is None exactly when no cell of the column parses over
      the given rows. */
  lemma {:induction false} ParsedNone(g: Grid, rows: seq<nat>, col: nat)
    ensures Parsed(g, rows, col) == [] <==> forall i :: 0 <= i < |rows| ==> NormalizeNumeric(At(g, rows[i], col)).None?
  {
    if |rows| > 0 {
      var init := rows[..|rows| - 1];
      ParsedNone(g, init, col);
      var last := NormalizeNumeric(At(g, rows[|rows| - 1], col));
      var tail: seq<real> := match last case Some(v) => [v] case None => [];
      assert Parsed(g, rows, col) == Parsed(g, init, col) + tail;
      assert Parsed(g, rows, col) == [] <==> Parsed(g, init, col) == [] && last.None?;
      assert forall i :: 0 <= i < |init| ==> init[i] == rows[i];
    }
  }

  /** Rows outside the sheet contribute nothing to a column total. */
  lemma {:induction false} ParsedOutside(g: Grid, rows: seq<nat>, col: nat)
    requires forall i :: 0 <= i < |rows| ==> rows[i] >= |g|
    ensures ColumnTotal(g, rows, col) == None
  {
    ParsedNone(g, rows, col);
  }

  /** The parseable values over two row lists are those of each, in order:
      a block total splits over consecutive sub-blocks. */
  lemma {:induction false} ParsedAppend(g: Grid, a: seq<nat>, b: seq<nat>, col: nat)
    ensures Parsed(g, a + b, col) == Parsed(g, a, col) + Parsed(g, b, col)
    decreases |b|
  {
    if |b| > 0 {
      var b' := b[..|b| - 1];
      assert (a + b)[..|a + b| - 1] == a + b';
      ParsedAppend(g, a, b', col);
    } else {
      assert a + b == a;
    }
  }

  /** A sequence of n copies of x sums to n times x. */
  lemma {:induction false} SumConstant(vals: seq<real>, x: real)
    requires forall i :: 0 <= i < |vals| ==> vals[i] == x
    ensures Sum(vals) == |vals| as real * x
  {
    if |vals| > 0 {
      SumConstant(vals[..|vals| - 1], x);
    }
  }

  lemma {:induction false} SumAppend(a: seq<real>, b: seq<real>)
    ensures Sum(a + b) == Sum(a) + Sum(b)
    decreases |b|
  {
    if |b| > 0 {
      assert (a + b)[..|a + b| - 1] == a + b[..|b| - 1];
      SumAppend(a, b[..|b| - 1]);
    } else {
      assert a + b == a;
    }
  }

  /** The total over two row lists is the sum of the two totals (a missing
      total counting as nothing). */
  lemma TotalAppend(g: Grid, a: seq<nat>, b: seq<nat>, col: nat)
    ensures ColumnTotal(g, a + b, col) == match (ColumnTotal(g, a, col), ColumnTotal(g, b, col))
                                        case (None, t) => t
                                        case (t, None) => t
                                        case (Some(x), Some(y)) => Some(x + y)
  {
    var pa, pb := Parsed(g, a, col), Parsed(g, b, col);
    ParsedAppend(g, a, b, col);
    SumAppend(pa, pb);
    if pa == [] {
      assert pa + pb == pb;
    } else if pb == [] {
      assert pa + pb == pa;
    } else {
      assert |pa + pb| > 0;
    }
  }

  /** The rows of a product block starting at `row`: at most n rows, cut at the end of the sheet. */
  function BlockRows(g: Grid, row: nat, n: nat): seq<nat>
  {
    Range(row, Min(row + n, |g|))
  }

  // ---------------------------------------------------------------------
  // Row records (the dicts views.index builds: set_type plus column letters)

  datatype SetType = HeaderRow | Previous | Current | SeparatorRow

  datatype Row = Row(setType: SetType, cells: seq<Cell>)

  /** row.get(col, ""): a missing column reads as empty. */
  function Get(row: Row, col: nat): Cell
  {
    if col < |row.cells| then row.cells[col] else Blank
  }

  /** The column letters D..O of the fiscal months, as indices. */
  function MonthColumn(i: nat): nat
    requires i < 12
  {
    3 + i
  }
}

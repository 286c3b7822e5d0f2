# excel_handler: the spreadsheet-to-monthly-series engine, in Dafny

This project models the extraction core of the `excel_handler` Django app.
That core reads workbooks of fiscal-year consumption sheets (April to March),
finds the month columns and the product rows, sums each month over a block
of rows, and forecasts the next months with a flat moving average. An
ingredient chart and a forecast table are built from the results.

The repository implements the pipeline several times over, each time with a
slightly different policy, and each variant is modelled as its own module:

| module | file | what it models |
|---|---|---|
| `Sheet` | `sheet.dfy` | cells (`Blank`, `Num`, `Str`), grids padded like a DataFrame, `str()`, `strip`/`lower`/`upper`/`replace`, the shared numeric normaliser and the windowed column sums |
| `Months` | `months.dfy` | FISCAL_MONTHS, the MONTH_VARIANTS table, the digit fallback and the first-substring rule |
| `Scan` | `scan.dfy` | the nested detector loops: first occurrence, last occurrence, the D..O positional map and the row-major product scan |
| `Series` | `series.dfy` | the historical series loop, the 3-window mean forecasters and the `_next` labels, accumulating month totals |
| `Strict` | `strict.dfy` | `strict_excel_extractor.py`: month normaliser, month columns, product detector, current rows |
| `StrictExtract` | `strict_extract.dfy` | `strict_excel_extractor.py`: the single-sheet pass and `extract_strict_excel_data` |
| `StrictValidation` | `strict_validation.dfy` | `strict_excel_extractor.py`: `validate_excel_structure` over named grids |
| `Universal` | `universal.dfy` | `universal_extractor.py`, including the `UniversalDataExtractor` class |
| `Comprehensive` | `comprehensive.dfy` | `comprehensive_extractor.py` |
| `Extractor` | `extractor.dfy` | `excel_extractor.py` |
| `Views` | `views.dfy` | `views.py`: `parse_excel_regions` and the set-type rules of `index` |
| `Workflow4` | `workflow4.dfy` | `workflow4.py`: month canonicalisation, number coercion, the column finder, the workflow sheets and the wide-to-long loop |
| `Workflow4Tables` | `workflow4_tables.dfy` | `workflow4.py`: `_build_forecast_tables` |
| `Prediction` | `prediction.dfy` | `prediction_utils.py`, including the `linear_trend` branch of `predict_next_months`, which `generate_forecast_data` never selects and which lies outside the month-extraction pipeline and is kept as an exact least-squares model over reals |
| `Chart` | `chart.dfy` | `chart_data_builder.py` |

Conventions:

- A sheet is a `Grid = seq<seq<Cell>>`, and `Blank` stands for pandas `None`
  and `NaN`. `At(g, r, c)` is `Blank` outside a short row, as pandas pads
  ragged sheets.
- Numbers are `real`. Python's `float(str)` is the concrete parser
  `Sheet.ParseFloat`, which reads plain decimals.
- Imperative code (the detector loops, the accumulation loops,
  `parse_excel_regions`, the forecast table) is modelled as methods with
  loops. Each method is proved equal to a specification function, and the
  promised properties are lemmas about that function.
- Python dicts are maps, or sequences of pairs where their insertion order
  matters.
- The shared text and number primitives (`Sheet.NormalizeNumeric`,
  `Sheet.ParseFloat`, `Sheet.IsAlpha`) carry no `ensures` of their own, since
  every extractor's proofs see them. Their laws are separate lemmas, and each
  one's Model row names those lemmas.

Behaviour of the code that the model keeps as written:

- `extract_strict_excel_data` runs the single-sheet pass on a one-sheet
  workbook and then runs the multi-sheet loop over the same sheet, so that
  sheet's totals can be counted twice (`StrictExtract.ExtractStrictExcelData`).
- `validate_excel_structure` never sets `has_annual_data`, so it is always
  false (`StrictValidation.ValidateVerdict`).
- The universal month normaliser takes the first table key found in a text
  holding `月`. The key `'1'` comes before `'10'`, `'11'` and `'12'`, so
  `'10月'`, `'11月'` and `'12月'` all read as January
  (`Universal.LateJapaneseMonthsAreJanuary`).
- No forecaster of the code feeds its predictions back into its window. The
  moving-average forecasters give the same value for every future month.
  Month keys are bare month names; the code has no `YYYY-MM` form.

## Model

| member | source | states |
|---|---|---|
| Sheet.Width | excel_handler/strict_excel_extractor.py:187 | the column count bounds every row, is reached by some row, and is 0 for an empty sheet (`len(df.columns)` of a padded frame) |
| Sheet.Lower | excel_handler/strict_excel_extractor.py:42 | the ASCII model of `lower()`: each character lowered on its own, `A`-`Z` to `a`-`z`, so the length is kept |
| Sheet.Upper | excel_handler/strict_excel_extractor.py:224 | the ASCII model of `upper()`: each character raised on its own, `a`-`z` to `A`-`Z`, so the length is kept |
| Sheet.IsAlpha | excel_handler/strict_excel_extractor.py:220 | the model of `isalpha()`: the ASCII letters and `月`; its law is `Sheet.LetterIsNoDigit` |
| Sheet.LetterIsNoDigit | excel_handler/strict_excel_extractor.py:220 | a letter is never a digit nor whitespace, so the product rules' "has a letter" and "all digits" exclude each other |
| Sheet.UpperIdempotent | excel_handler/strict_excel_extractor.py:222-224 | uppercasing an uppercased code changes nothing, so the case-insensitive duplicate test compares stored codes |
| Sheet.TrimLeft | excel_handler/strict_excel_extractor.py:42 | the leading-whitespace strip yields a suffix that starts with no space, and only spaces were dropped |
| Sheet.TrimRight | excel_handler/strict_excel_extractor.py:42 | the trailing-whitespace strip yields a prefix that ends with no space, and only spaces were dropped |
| Sheet.Remove | excel_handler/strict_excel_extractor.py:81-83 | `replace(ch, '')` leaves no occurrence of ch and changes a string without ch not at all |
| Sheet.RemoveFrom | excel_handler/strict_excel_extractor.py:81-83 | `replace(ch, '')` invents no character |
| Sheet.RemoveAppend | excel_handler/strict_excel_extractor.py:81-83 | `replace(ch, '')` distributes over concatenation |
| Sheet.DecorationFrom | excel_handler/strict_excel_extractor.py:81-83 | removing the currency symbols and commas leaves none of them and invents no character |
| Sheet.IntText | excel_handler/strict_excel_extractor.py:215 | `str(n)` of a whole number is a digit string whose value is n |
| Sheet.NumText | excel_handler/strict_excel_extractor.py:215 | `str(x)` of a number is made of digits, `.` and `-` only |
| Sheet.ParseIntText | excel_handler/strict_excel_extractor.py:95 | `float(str(n)) == n` and `float('-' + str(n)) == -n` |
| Sheet.ParseDecimal | excel_handler/strict_excel_extractor.py:95 | `float` of digits, a point and digits is the whole part plus the fraction |
| Sheet.ParseFloat | excel_handler/strict_excel_extractor.py:94-98 | the model of `float()` on text: surrounding whitespace, an optional sign, digits and an optional fraction. Its laws are `ParseDigits`, `ParseDecimal` and `ParseIntText` (what it reads) and `ParsedShape` (empty text, a lone `-` and parenthesised text are no number) |
| Sheet.ParseDigits | excel_handler/strict_excel_extractor.py:95 | `float` of a digit string is its value |
| Sheet.NormalizeDecorated | excel_handler/strict_excel_extractor.py:79-98 | currency symbols and thousands separators never change the normalised number |
| Sheet.ParsedShape | excel_handler/strict_excel_extractor.py:91-96 | what `float` accepts is neither empty, nor `-`, nor parenthesised |
| Sheet.NumericTextPlain | excel_handler/strict_excel_extractor.py:85-96 | stripped text that parses is read as its value |
| Sheet.NumericTextParen | excel_handler/strict_excel_extractor.py:86-96 | parenthesised text that parses inside is read as the negated value |
| Sheet.NormalizePlain | excel_handler/strict_excel_extractor.py:66-100 | a plain number string normalises to `float` of it (`'720.5'` gives 720.5) |
| Sheet.NormalizeParenthesised | excel_handler/strict_excel_extractor.py:84-96 | `(x)` normalises to minus x (`'(500)'` gives -500) |
| Sheet.DecorationOnlyIsNone | excel_handler/strict_excel_extractor.py:79-92 | text made only of currency symbols, commas and spaces gives None, not 0 |
| Sheet.NormalizeIntText | excel_handler/strict_excel_extractor.py:66-100 | a whole number written out normalises to itself |
| Sheet.NormalizeEmptyAndDash | excel_handler/strict_excel_extractor.py:91-92 | `''` and `'-'` give None, not 0 |
| Sheet.NormalizeNumeric | excel_handler/strict_excel_extractor.py:66-100 | `normalize_numeric_value` (the variants at comprehensive_extractor.py:68-94 and excel_extractor.py:71-104, and `to_float`, agree on finite numbers): a blank cell gives None and a number gives itself. Its text cases are the lemmas `BareTextIsNone` and `DecorationOnlyIsNone` (None, never 0), `NormalizeEmptyAndDash`, `NormalizePlain` (float of the text), `NormalizeParenthesised` (its negation) and `NormalizeDecorated` (symbols and commas change nothing) |
| Sheet.BareTextIsNone | excel_handler/strict_excel_extractor.py:79-92 | text that is empty or a lone `-` once the currency symbols, commas and surrounding whitespace are removed gives None, not 0 |
| Sheet.Present | excel_handler/strict_excel_extractor.py:309 | the present values are at most as many as the entries, and there are none exactly when every entry is None |
| Sheet.Repeat | excel_handler/strict_excel_extractor.py:306 | `[x] * n` has length n and every entry is x |
| Sheet.Range | excel_handler/strict_excel_extractor.py:191 | `range(lo, hi)` is the consecutive numbers from lo, and empty when hi <= lo |
| Sheet.MonthTotals | excel_handler/strict_excel_extractor.py:239-261 | the monthly values have exactly the keys of the month-column map |
| Sheet.SumColumn | excel_handler/strict_excel_extractor.py:242-259 | the inner loop computes the column total: the sum of the parseable in-range cells, or None |
| Sheet.ExtractMonthlyValues | excel_handler/strict_excel_extractor.py:232-261 | the loop over the month-column map yields each month's column total |
| Sheet.ParsedNone | excel_handler/strict_excel_extractor.py:254-259 | a total is None exactly when no cell of the column parses over the rows |
| Sheet.ParsedOutside | excel_handler/strict_excel_extractor.py:245-246 | rows beyond the sheet contribute nothing |
| Sheet.ParsedAppend | excel_handler/strict_excel_extractor.py:244-253 | the values over two row lists are those of each list, in order |
| Sheet.TotalAppend | excel_handler/strict_excel_extractor.py:244-259 | the total over two row lists is the sum of the two totals, a missing total counting as nothing |
| Sheet.SumConstant | excel_handler/strict_excel_extractor.py:322 | n copies of x sum to n times x |
| Months.FiscalIndex | excel_handler/strict_excel_extractor.py:31-32 | `FISCAL_MONTHS.index(m)` finds m at its index, or m is not a fiscal month |
| Months.FiscalIndexOf | excel_handler/strict_excel_extractor.py:31-32 | the fiscal months are distinct: month i is found at index i |
| Months.CalendarMonth | excel_handler/strict_excel_extractor.py:58-61 | `FISCAL_MONTHS[(n-4) % 12 if n >= 4 else n+8]` is the n-th calendar month |
| Months.DigitMonth | excel_handler/strict_excel_extractor.py:56-58 | the digit fallback fires exactly for digit strings of value 1..12 |
| Months.LookupMonth | excel_handler/strict_excel_extractor.py:51-63 | a found month is a month name; one is found exactly when the text is a table key or a digit string 1..12; a key gives its own month |
| Months.LookupMonthJapanese | excel_handler/universal_extractor.py:16-33 | the table with the `月` keys gives month names, and agrees with the plain table on other text |
| Months.FirstVariant | excel_handler/universal_extractor.py:89-92 | the first table entry, in table order, whose key occurs in the text; None exactly when no key occurs |
| Months.FirstVariantIs | excel_handler/universal_extractor.py:89-92 | the entry found is the first one whose key occurs |
| Months.NameIsKey | excel_handler/strict_excel_extractor.py:16-32 | every month name, lowered, is a table key for its own month |
| Months.NameLooksUp | excel_handler/strict_excel_extractor.py:51-53 | looking up a lowered month name gives the name back |
| Series.FiscalSeries | excel_handler/strict_excel_extractor.py:518-523 | the months kept are the fiscal months with a value, in fiscal order, each paired with its value |
| Series.HistoricalSeries | excel_handler/strict_excel_extractor.py:518-523 | the loop over FISCAL_MONTHS builds the fiscal series |
| Series.WindowMeanIsTailMean | excel_handler/strict_excel_extractor.py:315-320 | the forecast value is the mean of the last min(3, k) values |
| Series.MeanBetween | excel_handler/strict_excel_extractor.py:316-318 | a mean lies between any bounds of its values |
| Series.WindowMeanBetween | excel_handler/strict_excel_extractor.py:315-320 | the forecast lies between bounds of the last three values |
| Series.WindowMeanConstant | excel_handler/strict_excel_extractor.py:315-320 | a steady history forecasts itself |
| Series.StrictForecast | excel_handler/strict_excel_extractor.py:300-322 | num_months entries, all None without values, else all the window mean |
| Series.PlainForecast | excel_handler/comprehensive_extractor.py:205-222 | `[]` without values, else num_months copies of the window mean |
| Series.LabelledAll | excel_handler/comprehensive_extractor.py:309-312 | entry i is labelled `<FISCAL_MONTHS[i]>_next` |
| Series.LabelledPresent | excel_handler/strict_excel_extractor.py:529-533 | with every value present, entry i is labelled `<FISCAL_MONTHS[i]>_next` |
| Series.LabelledAbsent | excel_handler/strict_excel_extractor.py:529-533 | with no value present, nothing is labelled |
| Series.StrictPredictedLabels | excel_handler/strict_excel_extractor.py:527-533 | predicted is empty without history, and otherwise `April_next` .. `March_next` with the window mean, whatever the last historical month is |
| Series.Known | excel_handler/strict_excel_extractor.py:550-551 | the months with a value, and their values |
| Series.Lift | excel_handler/strict_excel_extractor.py:451-452 | every total regarded as a present value |
| Series.AccumulateSpec | excel_handler/strict_excel_extractor.py:550-554 | adding month values into totals: a month with a value gains it (starting from 0.0), other totals are untouched |
| Series.AccumulateEmpty | excel_handler/strict_excel_extractor.py:451-455 | adding totals into no totals gives the totals |
| Series.Without | excel_handler/strict_excel_extractor.py:550 | the month values less some months |
| Series.AccumulateStep | excel_handler/strict_excel_extractor.py:550-554 | one turn of the accumulation loop |
| Series.AddTotals | excel_handler/strict_excel_extractor.py:550-554 | the accumulation loop computes the accumulated totals |
| Scan.RowKeys | excel_handler/strict_excel_extractor.py:192-196 | a first-occurrence row scan records the months already recorded and those the row names |
| Scan.RowKeeps | excel_handler/strict_excel_extractor.py:195 | a row scan never changes a recorded month |
| Scan.RowFirst | excel_handler/strict_excel_extractor.py:192-196 | a month the row scan adds is at the first column of the row naming it |
| Scan.WindowKeys | excel_handler/strict_excel_extractor.py:191-196 | a window scan records the seed's months and exactly those the window names |
| Scan.WindowKeeps | excel_handler/strict_excel_extractor.py:195 | a window scan never changes a seeded month |
| Scan.WindowFirst | excel_handler/strict_excel_extractor.py:191-196 | a month the window scan adds is at its first row-major occurrence |
| Scan.LastKeys | excel_handler/comprehensive_extractor.py:116-120 | a last-occurrence row scan records exactly the months the row names |
| Scan.LastWins | excel_handler/comprehensive_extractor.py:116-120 | each month is recorded at the last column of the row naming it |
| Scan.PositionalStep | excel_handler/strict_excel_extractor.py:185-188 | one turn of the D..O loop |
| Scan.PositionalKeys | excel_handler/strict_excel_extractor.py:185-188 | fiscal month i is mapped to column 3+i exactly when that column exists |
| Scan.PositionalOnly | excel_handler/strict_excel_extractor.py:185-188 | only fiscal months are mapped, each to its own column |
| Scan.Codes | excel_handler/strict_excel_extractor.py:499 | the product codes, in order |
| Scan.AddKeeps | excel_handler/strict_excel_extractor.py:209-227 | visiting one cell keeps the scan invariant: distinct codes, each product at its announcing cell, every visited code present, first occurrence kept, row-major order |
| Scan.RowScanned | excel_handler/strict_excel_extractor.py:210-227 | a row scan keeps the invariant |
| Scan.RowDone | excel_handler/strict_excel_extractor.py:209-210 | finishing a row is starting the next |
| Scan.ProductsScanned | excel_handler/strict_excel_extractor.py:209-229 | the whole product scan satisfies the invariant |
| Scan.PositionalColumns | excel_handler/strict_excel_extractor.py:185-188 | the loop builds the D..O positional map |
| Scan.ScanFirst | excel_handler/strict_excel_extractor.py:191-196 | the nested loops build the first-occurrence map |
| Scan.ScanLast | excel_handler/comprehensive_extractor.py:116-120 | the header-row loop builds the last-occurrence map |
| Scan.ScanProducts | excel_handler/strict_excel_extractor.py:209-227 | the row-major loop builds the product list |
| Strict.NormalizeMonthName | excel_handler/strict_excel_extractor.py:37-63 | a blank cell gives None, and every result is one of the 12 month names |
| Strict.NormalizeCapitalised | excel_handler/strict_excel_extractor.py:42-53 | a capitalised word is looked up as its lowered self |
| Strict.MonthNameFixed | excel_handler/strict_excel_extractor.py:37-63 | every month name normalises to itself |
| Strict.NormalizeIdempotent | excel_handler/strict_excel_extractor.py:37-63 | normalising an output again returns it |
| Strict.NamesFixed | excel_handler/strict_excel_extractor.py:37-63 | every member of the month names is a fixed point |
| Strict.NormalizeWord | excel_handler/strict_excel_extractor.py:42-53 | a plain word (no space, dot or `月`) is looked up as its lowered stripped self |
| Strict.LowerAppend | excel_handler/strict_excel_extractor.py:42 | lowering distributes over concatenation |
| Strict.MonthTextJapanese | excel_handler/strict_excel_extractor.py:45-49 | a word followed by `月` loses the `月` |
| Strict.NormalizeStr | excel_handler/strict_excel_extractor.py:42-53 | a text label goes through strip, lower, the `月` and dot removal, then the lookup |
| Strict.JapaneseText | excel_handler/strict_excel_extractor.py:45-49 | a word ending in `月` is lowered without the `月` |
| Strict.NormalizeJapanese | excel_handler/strict_excel_extractor.py:45-53 | a label stripping to a word and `月` is looked up as the lowered word |
| Strict.AprLabel | excel_handler/strict_excel_extractor.py:37-63 | `'Apr'`, up to surrounding spaces, gives April |
| Strict.AprilUpperLabel | excel_handler/strict_excel_extractor.py:37-63 | `'APRIL'` and `'APRIL '` give April |
| Strict.AprilDigitLabel | excel_handler/strict_excel_extractor.py:37-63 | `'04'` and `'4'` give April |
| Strict.AprilJapaneseLabel | excel_handler/strict_excel_extractor.py:37-63 | `'4月'` gives April |
| Strict.AprilLabels | excel_handler/strict_excel_extractor.py:37-63 | `'Apr'`, `'APRIL'`, `'04'`, `'4'` and `'4月'`, up to surrounding whitespace, all give April |
| Strict.DetectMonthColumns | excel_handler/strict_excel_extractor.py:177-198 | the positional loop then the header loops compute the strict month columns |
| Strict.PositionalWins | excel_handler/strict_excel_extractor.py:184-196 | fiscal month i sits in column 3+i whenever that column exists, whatever the header says |
| Strict.StrictColumnsKeys | excel_handler/strict_excel_extractor.py:184-196 | a month is mapped exactly when its D..O column exists or the first 5 rows by 30 columns name it |
| Strict.StrictColumnsFirst | excel_handler/strict_excel_extractor.py:191-196 | a month the header adds sits at its first row-major occurrence in that window |
| Strict.DetectProductsInSheet | excel_handler/strict_excel_extractor.py:201-229 | the row-major loop computes the strict products |
| Strict.StrictProductsScanned | excel_handler/strict_excel_extractor.py:209-229 | distinct codes; every announcing cell's code is present; each product is its code's first row-major occurrence; products in row-major order |
| Strict.StrictProductShape | excel_handler/strict_excel_extractor.py:210-227 | a product comes from a non-blank cell of the first 3 columns whose stripped text has at least 3 characters and a letter; the code is that text uppercased |
| Strict.StrictCodesDistinct | excel_handler/strict_excel_extractor.py:222 | codes are distinct even ignoring case |
| Strict.Tail | excel_handler/strict_excel_extractor.py:292-295 | the last min(k, n) rows |
| Strict.RowHasData | excel_handler/strict_excel_extractor.py:283-289 | the inner loop with its break says whether some month column of the row parses |
| Strict.IdentifyCurrentRows | excel_handler/strict_excel_extractor.py:264-297 | the detector and the bottom-up walk compute the current rows |
| Strict.BottomRows | excel_handler/strict_excel_extractor.py:278-295 | walking up with `insert(0)` and the break at 15 gives the last 15 rows with data, ascending |
| Strict.NoDataBelow | excel_handler/strict_excel_extractor.py:279-280 | rows at or below the sheet's end are skipped |
| Strict.HitsSplit | excel_handler/strict_excel_extractor.py:278 | the rows with data over a range split at any midpoint |
| Strict.HitsAscending | excel_handler/strict_excel_extractor.py:278-292 | the rows with data are ascending and lie in the range |
| Strict.HitsMembers | excel_handler/strict_excel_extractor.py:278-292 | the rows with data are exactly the rows of the range that have data |
| Strict.TailOfHits | excel_handler/strict_excel_extractor.py:278-295 | the last k rows with data are at most k, ascending, in range, each with data |
| Strict.TailOfHitsBottom | excel_handler/strict_excel_extractor.py:278-295 | every row with data is kept, or lies above all kept rows and k are kept |
| Strict.CurrentRowsSpec | excel_handler/strict_excel_extractor.py:264-297 | at most 15 ascending rows of [start, end) inside the sheet, each with a parseable month cell; they are the bottom-most such rows; none without month columns |
| Strict.DataInSheet | excel_handler/strict_excel_extractor.py:279-289 | a row with data lies inside the sheet |
| StrictExtract.Pairs | excel_handler/strict_excel_extractor.py:536-539 | `zip(months, historical)` pairs each month with its value |
| StrictExtract.Values | excel_handler/strict_excel_extractor.py:536-539 | the values of the formatted history, in order |
| StrictExtract.ProductEntrySpec | excel_handler/strict_excel_extractor.py:514-547 | an entry keeps its code and sheet, lists exactly the months with a total in fiscal order with those totals, and carries the flat forecast |
| StrictExtract.AnnualRows | excel_handler/strict_excel_extractor.py:334-338 | the loop collects the rows labelled `annual_data` |
| StrictExtract.BuildSections | excel_handler/strict_excel_extractor.py:341-349 | the loop groups the `ingredient_*` rows by uppercased name |
| StrictExtract.SpanRowsOf | excel_handler/strict_excel_extractor.py:366-368 | a section's rows to sum: its current rows, else its last 10 rows (all when fewer) |
| StrictExtract.BuildEntry | excel_handler/strict_excel_extractor.py:371-400 | one product entry from the month totals of its rows |
| StrictExtract.BuildSectionProducts | excel_handler/strict_excel_extractor.py:363-400 | the single-sheet product loop |
| StrictExtract.SectionEntry | excel_handler/strict_excel_extractor.py:365-400 | the entry of one section is built under `Main Sheet` |
| StrictExtract.SingleSheetStructure | excel_handler/strict_excel_extractor.py:325-405 | the single-sheet pass over the regions the region parser gives |
| StrictExtract.AddRowCovers | excel_handler/strict_excel_extractor.py:343-349 | after row n every labelled row so far is listed under its section |
| StrictExtract.AddRowWellFormed | excel_handler/strict_excel_extractor.py:343-349 | one row keeps the sections well formed: distinct names in first-seen order, ascending rows all carrying their section's label, every labelled row listed |
| StrictExtract.SectionsSpec | excel_handler/strict_excel_extractor.py:341-349 | the sections list each labelled row under its name, in ascending order, names in first-seen order |
| StrictExtract.SectionEntriesShape | excel_handler/strict_excel_extractor.py:395-400 | each section's entry carries the section's name, `Main Sheet` and the flat forecast |
| StrictExtract.SectionProductsSpec | excel_handler/strict_excel_extractor.py:364-400 | the single-sheet products have distinct codes taken from the sections, a non-empty history and the flat forecast |
| StrictExtract.SingleSheetSpec | excel_handler/strict_excel_extractor.py:325-405 | no month columns gives nothing; distinct codes from the sections with a history and the flat forecast; totals are the known totals of the annual-data rows |
| StrictExtract.NextProductRow | excel_handler/strict_excel_extractor.py:503-506 | the loop computes the block end |
| StrictExtract.BlockEndSpec | excel_handler/strict_excel_extractor.py:503-506 | a block ends at the nearest later product row or the sheet's end, and no product starts strictly inside it |
| StrictExtract.BlockTotals | excel_handler/strict_excel_extractor.py:503-515 | one month-total map per product |
| StrictExtract.Entries | excel_handler/strict_excel_extractor.py:517-547 | one entry per product |
| StrictExtract.FindEntry | excel_handler/strict_excel_extractor.py:499 | the `any(...)` test says whether the code is already listed |
| StrictExtract.SheetDataRows | excel_handler/strict_excel_extractor.py:475-482 | the loop collects the rows with a parseable month cell |
| StrictExtract.ProcessProducts | excel_handler/strict_excel_extractor.py:494-554 | the product loop of one sheet |
| StrictExtract.ProcessNextProduct | excel_handler/strict_excel_extractor.py:494-554 | product k after products 0..k-1 |
| StrictExtract.ProcessProduct | excel_handler/strict_excel_extractor.py:495-554 | one product: skipped when listed, else appended and added into the totals |
| StrictExtract.ProcessSheet | excel_handler/strict_excel_extractor.py:461-554 | one sheet: skipped without month columns, data rows summed without products, else the products |
| StrictExtract.SingleSheetPass | excel_handler/strict_excel_extractor.py:443-455 | a one-sheet workbook's single-sheet pass, its totals added into empty totals |
| StrictExtract.BuildOverall | excel_handler/strict_excel_extractor.py:561-582 | the overall block from the final totals |
| StrictExtract.ProcessSheets | excel_handler/strict_excel_extractor.py:460-558 | the sheet loop |
| StrictExtract.ProcessNextSheet | excel_handler/strict_excel_extractor.py:460-558 | sheet i after sheets 0..i-1 |
| StrictExtract.ExtractStrictExcelData | excel_handler/strict_excel_extractor.py:408-605 | validation, the single-sheet pass, the sheet loop, the overall block and the summary |
| StrictExtract.AddEntriesSpec | excel_handler/strict_excel_extractor.py:494-547 | a sheet's products only extend the list, keep every code once, and list each new entry under the sheet |
| StrictExtract.EntriesShape | excel_handler/strict_excel_extractor.py:542-547 | each entry has its product's code, the sheet and the flat forecast |
| StrictExtract.AddProductSpec | excel_handler/strict_excel_extractor.py:498-547 | one product keeps the list's prefix and its codes distinct |
| StrictExtract.EntryShape | excel_handler/strict_excel_extractor.py:542-547 | an entry keeps its code and sheet and has the flat forecast |
| StrictExtract.SheetStepSpec | excel_handler/strict_excel_extractor.py:461-554 | one sheet only extends the product list, keeps codes distinct, and tags new entries with the sheet |
| StrictExtract.FoldKeeps | excel_handler/strict_excel_extractor.py:460 | a list-extending step keeps extending over the sheet loop |
| StrictExtract.SheetsFoldSpec | excel_handler/strict_excel_extractor.py:460-558 | the sheets only extend the single-sheet pass's list and keep every code once |
| StrictExtract.EarlierSheetsKept | excel_handler/strict_excel_extractor.py:498-500 | a later sheet never changes or repeats an earlier entry: the earlier sheet wins |
| StrictExtract.InitialStateSpec | excel_handler/strict_excel_extractor.py:443-455 | the single-sheet pass starts a well-formed product list |
| StrictExtract.OverallSpec | excel_handler/strict_excel_extractor.py:561-582 | overall months are the months with a total in fiscal order with their totals; predicted is 12 `_next` entries of the window mean, or empty |
| StrictExtract.SummarySpec | excel_handler/strict_excel_extractor.py:584-595 | the summary counts the products; total_raw_material sums the overall history; total_forecast is 12 times the window mean |
| StrictExtract.ExtractSpec | excel_handler/strict_excel_extractor.py:414-605 | a failed validation is returned as is; otherwise distinct codes, the single-sheet products first, and the summary of the overall series |
| StrictExtract.BlockSumRowsSpec | excel_handler/strict_excel_extractor.py:503-512 | an entry sums its product row alone, or current rows between its row and the next product row |
| StrictValidation.HeaderHasMonth | excel_handler/strict_excel_extractor.py:134-146 | the column-major loop with its two breaks is true exactly when a cell of the first 5 rows and 20 columns names a month |
| StrictValidation.Short | excel_handler/strict_excel_extractor.py:156 | `[:20]` is the prefix of length min(20, n) |
| StrictValidation.ScanNotes | excel_handler/strict_excel_extractor.py:149-156 | the nested loop over the first 50 rows and 5 columns collects the product notes |
| StrictValidation.Names | excel_handler/strict_excel_extractor.py:120 | the detected sheets are the sheet names, in order |
| StrictValidation.AnyMonthsStep | excel_handler/strict_excel_extractor.py:129-146 | one more sheet sets the monthly flag exactly when that sheet has a month |
| StrictValidation.ValidateExcelStructure | excel_handler/strict_excel_extractor.py:103-174 | the validation of a workbook |
| StrictValidation.ValidateWith | excel_handler/strict_excel_extractor.py:108-167 | the validation loop over the sheets |
| StrictValidation.CheckSheet | excel_handler/strict_excel_extractor.py:129-156 | sheet i of the loop: its header window, then its product notes |
| StrictValidation.NoteGrows | excel_handler/strict_excel_extractor.py:154-156 | a cell adds an entry only when product-like, and the list never loses one |
| StrictValidation.RowNotes | excel_handler/strict_excel_extractor.py:150-156 | a row adds entries exactly when one of its cells is product-like |
| StrictValidation.WindowNotes | excel_handler/strict_excel_extractor.py:149-156 | a window's list is non-empty exactly when it was already or one of its cells is product-like |
| StrictValidation.AllNotesNonEmpty | excel_handler/strict_excel_extractor.py:129-156 | some product is detected exactly when some sheet has a product-like cell |
| StrictValidation.ValidateVerdict | excel_handler/strict_excel_extractor.py:103-174 | error exactly when there are no sheets or no sheet has a month or a product-like cell; no sheets gives `['sheets']`, otherwise the error gives `['monthly_data', 'products']`; success names nothing; has_annual_data is never set |
| StrictValidation.NotesShort | excel_handler/strict_excel_extractor.py:156 | every entry a window adds is at most 20 characters |
| StrictValidation.RowShort | excel_handler/strict_excel_extractor.py:156 | every entry a row adds is at most 20 characters |
| StrictValidation.DetectedShort | excel_handler/strict_excel_extractor.py:149-156 | every detected product of a workbook is at most 20 characters |
| StrictValidation.LongTextRepeats | excel_handler/strict_excel_extractor.py:155-156 | as written, a product-like text longer than 20 characters seen twice is listed twice |
| StrictValidation.NoteDistinct | excel_handler/strict_excel_extractor.py:155-156 | with the cut text compared, a cell keeps the entries distinct |
| StrictValidation.RowDistinct | excel_handler/strict_excel_extractor.py:150-156 | with the cut text compared, a row keeps the entries distinct |
| StrictValidation.WindowDistinct | excel_handler/strict_excel_extractor.py:149-156 | with the cut text compared, a window keeps the entries distinct |
| StrictValidation.AllNotesDistinct | excel_handler/strict_excel_extractor.py:129-156 | with the cut text compared, the workbook's entries are distinct |
| StrictValidation.CorrectedValidation | excel_handler/strict_excel_extractor.py:103-174 | the corrected check lists each product once and reaches the same verdict, missing items, message and month flag |
| Universal.UniversalMonth | excel_handler/universal_extractor.py:81-106 | a blank cell gives None, and every result is a month name |
| Universal.UniversalFirstKey | excel_handler/universal_extractor.py:89-92 | text holding `月` names the month of the first table key, in table order, that occurs in it |
| Universal.LacksFirst | excel_handler/universal_extractor.py:91 | a text lacking a character holds no key starting with it |
| Universal.LacksPair | excel_handler/universal_extractor.py:91 | a two-character key that occurs nowhere in a three-character text `d0月` |
| Universal.LateJapaneseKeys | excel_handler/universal_extractor.py:16-33 | `'1d月'` holds `月` and key `'1'`, but none of the three keys before `'1'` |
| Universal.LateJapaneseIsJanuary | excel_handler/universal_extractor.py:89-92 | `'1d月'` for d in 0..2 reads as January |
| Universal.LateJapaneseMonthsAreJanuary | excel_handler/universal_extractor.py:89-92 | `'10月'`, `'11月'` and `'12月'` all read as January |
| Universal.UniversalDigitFallback | excel_handler/universal_extractor.py:99-104 | a digit string n in 1..12 that is no key reads as the n-th calendar month |
| Universal.DigitsNotJapanese | excel_handler/universal_extractor.py:30-32 | the `月` keys are not digit strings |
| Universal.HeaderKeys | excel_handler/universal_extractor.py:113-119 | the header scan records exactly the months some cell of the first 10 rows by 30 columns names |
| Universal.HeaderFirstOccurrence | excel_handler/universal_extractor.py:113-119 | each month is at the column of its first row-major occurrence |
| Universal.HeaderWins | excel_handler/universal_extractor.py:121-122 | the header map is the result whenever the header names some month |
| Universal.PositionalFallback | excel_handler/universal_extractor.py:121-126 | the D..O map is used exactly when the header names no month |
| Universal.DetectMonthColumns | excel_handler/universal_extractor.py:109-128 | the loops compute the universal month columns |
| Universal.FirstKnown | excel_handler/universal_extractor.py:152-157 | the first known product the cell text contains or is contained in, or None when it matches none |
| Universal.UniversalSpotSpec | excel_handler/universal_extractor.py:144-181 | a cell announces a product exactly when it is non-blank, has at least 2 characters, and matches a known product or is product-like; a known match is the code, else the text itself |
| Universal.UniversalProductsSpec | excel_handler/universal_extractor.py:137-183 | distinct codes; each product at its announcing cell of the first 3 columns; every announced code present; each at its code's first row-major occurrence |
| Universal.UniversalCodesQualify | excel_handler/universal_extractor.py:159-181 | a code is a known product its text matches, or a product-like text: letters, at least 2 characters, not digits once `.` and `-` go |
| Universal.DetectProductBlocks | excel_handler/universal_extractor.py:131-183 | the loops compute the product blocks |
| Universal.LastFiscal | excel_handler/universal_extractor.py:379-382 | the index of the last fiscal month in the history, or -1 |
| Universal.UpcomingHas | excel_handler/universal_extractor.py:384-388 | the keys are exactly the months 1..n places after the last one, mod 12, all with the same value |
| Universal.UpcomingSpec | excel_handler/universal_extractor.py:384-388 | the same, for every month |
| Universal.StepsDistinct | excel_handler/universal_extractor.py:386 | two different steps of less than a year land on different months |
| Universal.UpcomingSize | excel_handler/universal_extractor.py:384-388 | up to a year ahead, n steps give n months |
| Universal.SeriesWithoutFiscal | excel_handler/universal_extractor.py:349-359 | a history without fiscal months has no values |
| Universal.PredictionsNone | excel_handler/universal_extractor.py:363-364 | a history without fiscal months predicts nothing |
| Universal.PredictionsSpec | excel_handler/universal_extractor.py:339-390 | with history, the keys are the num_months fiscal months after the last historical one, wrapping mod 12, all the 3-window mean of the fiscal-order history |
| Universal.FindLastFiscal | excel_handler/universal_extractor.py:379-382 | the loop finds the last fiscal month's index |
| Universal.FillUpcoming | excel_handler/universal_extractor.py:384-388 | the loop builds the upcoming months |
| Universal.CalculatePredictions | excel_handler/universal_extractor.py:339-390 | `_calculate_predictions` |
| Universal.ProductTotals | excel_handler/universal_extractor.py:264-271 | one month-total map per product |
| Universal.MergeEntry | excel_handler/universal_extractor.py:279-292 | a product with no present month changes nothing; otherwise `update` lets this sheet's months and predictions overwrite earlier ones and keeps the rest |
| Universal.MergeTotals | excel_handler/universal_extractor.py:295-298 | each present month is added to its overall total; other totals are kept |
| Universal.MergeKeys | excel_handler/universal_extractor.py:284-298 | the keys after a merge with a present month |
| Universal.OrderStep | excel_handler/universal_extractor.py:284-288 | the product order lists each product once, exactly those with an entry |
| Universal.TotalsStep | excel_handler/universal_extractor.py:291-298 | the totals hold exactly the months some product has |
| Universal.HistoryStep | excel_handler/universal_extractor.py:279-291 | every entry has some historical month |
| Universal.MergeGood | excel_handler/universal_extractor.py:264-298 | merging one product keeps the state well formed |
| Universal.MergeAllGood | excel_handler/universal_extractor.py:264-298 | the product loop keeps the state well formed |
| Universal.MergeSheetGood | excel_handler/universal_extractor.py:251-298 | one sheet keeps the state well formed |
| Universal.MergeSheetsGood | excel_handler/universal_extractor.py:248-302 | the sheet loop keeps the state well formed |
| Universal.UniversalExtractSpec | excel_handler/universal_extractor.py:237-330 | products listed once each, each with a history; overall totals have exactly the months some product has; overall predictions from the totals; overall empty exactly when no product was found |
| Universal.PresentMonths | excel_handler/universal_extractor.py:274-277 | the loop keeps the months with a value |
| Universal.KnownStep | excel_handler/universal_extractor.py:275-277 | one turn of that loop |
| Universal.MergeProduct | excel_handler/universal_extractor.py:265-298 | one product of a sheet |
| Universal.MergeProducts | excel_handler/universal_extractor.py:264-298 | the product loop of one sheet |
| Universal.ProcessSheet | excel_handler/universal_extractor.py:251-298 | one sheet: skipped without month columns, else its products |
| Universal.BuildResult | excel_handler/universal_extractor.py:304-327 | the result structure, with the overall predictions |
| Universal.ProcessNextSheet | excel_handler/universal_extractor.py:248-302 | sheet i after sheets 0..i-1 |
| Universal.ProcessSheets | excel_handler/universal_extractor.py:248-302 | the sheet loop |
| Universal.UniversalDataExtractor.constructor | excel_handler/universal_extractor.py:232-235 | a new extractor holds no product data |
| Universal.UniversalDataExtractor.Extract | excel_handler/universal_extractor.py:237-330 | `extract` returns the extraction and stores it in `all_products_data` |
| Comprehensive.MonthCount | excel_handler/comprehensive_extractor.py:100-104 | the count of a row's month cells never exceeds the columns scanned |
| Comprehensive.MonthCountCells | excel_handler/comprehensive_extractor.py:100-104 | the counter equals the number of columns whose cell reads as a month |
| Comprehensive.HeaderFrom | excel_handler/comprehensive_extractor.py:99-107 | the header row is the first of the first 20 rows with at least three month cells among the first 30 columns, or None when no such row exists |
| Comprehensive.CountMonths | excel_handler/comprehensive_extractor.py:100-104 | the inner loop computes the month count |
| Comprehensive.DetectHeaderRow | excel_handler/comprehensive_extractor.py:97-107 | the row loop with its early return computes the header row |
| Comprehensive.RowColumnsKeys | excel_handler/comprehensive_extractor.py:115-127 | when the header row names a month, the months mapped are exactly those the row names |
| Comprehensive.RowColumnsLast | excel_handler/comprehensive_extractor.py:116-120 | a month the row names sits at the last column that names it |
| Comprehensive.RowColumnsFallback | excel_handler/comprehensive_extractor.py:123-127 | with no header row, or a row naming no month, the fallback map is the result |
| Comprehensive.HeaderRowKeys | excel_handler/comprehensive_extractor.py:115-120 | the detected months are exactly those the header row names, when it names some |
| Comprehensive.HeaderRowLast | excel_handler/comprehensive_extractor.py:116-120 | a later column overwrites an earlier one for the same month |
| Comprehensive.PositionalWhenNoHeader | excel_handler/comprehensive_extractor.py:122-127 | without a header row inside the sheet, or one naming no month, the D..O map is the result |
| Comprehensive.ColumnsAreFiscal | excel_handler/comprehensive_extractor.py:110-129 | every detected month is a fiscal month |
| Comprehensive.NameIsFiscal | excel_handler/comprehensive_extractor.py:40-65 | every name the month normaliser gives is a fiscal month |
| Comprehensive.DetectMonthColumns | excel_handler/comprehensive_extractor.py:110-129 | the loops compute the comprehensive month columns |
| Comprehensive.ComprehensiveProductsSpec | excel_handler/comprehensive_extractor.py:132-168 | distinct codes; each product at its announcing cell of the first 3 columns at or after the start row; every announced code present; each at its code's first row-major occurrence; row-major order |
| Comprehensive.ComprehensiveSpotSpec | excel_handler/comprehensive_extractor.py:144-166 | a cell announces a product exactly when it is non-blank and its stripped text has a letter, two or more characters and is not digits once `.` and `-` go; code is the text uppercased, name the text |
| Comprehensive.ComprehensiveCodesQualify | excel_handler/comprehensive_extractor.py:153-166 | each product's code is its name uppercased and the name is product-like |
| Comprehensive.DetectAllProducts | excel_handler/comprehensive_extractor.py:132-168 | the loops compute the products |
| Comprehensive.ValueAtOnly | excel_handler/comprehensive_extractor.py:303-306 | the only pair for a month gives its value |
| Comprehensive.ValueAtNone | excel_handler/comprehensive_extractor.py:303-306 | a month without a pair counts as 0.0 |
| Comprehensive.MakeEntryGood | excel_handler/comprehensive_extractor.py:291-327 | an entry with some month keeps its code and sheet, pairs each month once in fiscal order, and carries twelve `_next` predictions of the window mean |
| Comprehensive.MakeEntryMonth | excel_handler/comprehensive_extractor.py:291-306 | an entry has a month exactly when the product's data has a value for it, with that value |
| Comprehensive.SeriesHas | excel_handler/comprehensive_extractor.py:293-296 | a month with a value is paired once with it |
| Comprehensive.SeriesLacks | excel_handler/comprehensive_extractor.py:293-296 | a month without a value is not paired |
| Comprehensive.TotalsTakeAt | excel_handler/comprehensive_extractor.py:322-334 | appending an entry and adding its months keeps one month's total equal to the sum over the entries, present exactly when some entry has it |
| Comprehensive.TotalsTake | excel_handler/comprehensive_extractor.py:322-334 | the same for every month |
| Comprehensive.TakeAllEntries | excel_handler/comprehensive_extractor.py:281-334 | the product loop keeps the entries well formed |
| Comprehensive.TakeAllTotals | excel_handler/comprehensive_extractor.py:281-334 | the product loop keeps every overall total equal to the sum over the entries |
| Comprehensive.TakeEntry | excel_handler/comprehensive_extractor.py:298-327 | one product keeps the entries well formed |
| Comprehensive.TakeTotals | excel_handler/comprehensive_extractor.py:298-334 | one product keeps the totals matched |
| Comprehensive.TakeAllAppends | excel_handler/comprehensive_extractor.py:279-334 | the product loop only appends, tags new entries with the sheet, and stores sheet data exactly when it appended |
| Comprehensive.TakeAllKept | excel_handler/comprehensive_extractor.py:279-327 | the product loop appends exactly one entry per product with historical months, in detection order |
| Comprehensive.KeptSpec | excel_handler/comprehensive_extractor.py:279-327 | every product with historical months has its entry among those appended, and every appended entry is made from such a product |
| Comprehensive.SheetStep | excel_handler/comprehensive_extractor.py:258-338 | one sheet appends exactly that sheet's entries to the products list |
| Comprehensive.SheetsFold | excel_handler/comprehensive_extractor.py:255-342 | the sheet loop appends the entries of each sheet in turn |
| Comprehensive.SheetEntriesSpec | excel_handler/comprehensive_extractor.py:258-327 | a sheet without month columns contributes nothing; otherwise each detected product with historical months has its own entry for that sheet, and every entry of the sheet comes from one |
| Comprehensive.SheetMonthsFiscal | excel_handler/comprehensive_extractor.py:286-288 | every product's month data is keyed by fiscal months |
| Comprehensive.SheetRaw | excel_handler/comprehensive_extractor.py:336-338 | `raw_sheets` holds exactly the sheets some entry came from |
| Comprehensive.RawAt | excel_handler/comprehensive_extractor.py:336-338 | one sheet name's membership in `raw_sheets` after a sheet |
| Comprehensive.SheetGood | excel_handler/comprehensive_extractor.py:258-338 | one sheet keeps the state well formed |
| Comprehensive.SheetsGood | excel_handler/comprehensive_extractor.py:255-342 | the sheet loop keeps the state well formed |
| Comprehensive.EntryMonthFiscal | excel_handler/comprehensive_extractor.py:293-296 | any month of an entry is fiscal |
| Comprehensive.TotalsShape | excel_handler/comprehensive_extractor.py:329-334 | matched totals have fiscal keys and are empty exactly when there are no entries |
| Comprehensive.OverallOfMonths | excel_handler/comprehensive_extractor.py:345-352 | the overall months are exactly the months with a total, each with its total |
| Comprehensive.OverallOfShape | excel_handler/comprehensive_extractor.py:345-365 | overall months in fiscal order, empty exactly without totals; twelve `_next` predictions of their window mean, none without totals |
| Comprehensive.FoldedGood | excel_handler/comprehensive_extractor.py:255-342 | the final state is well formed |
| Comprehensive.FoldedShape | excel_handler/comprehensive_extractor.py:255-342 | the final totals have fiscal keys and are empty exactly when no product was found |
| Comprehensive.DataProducts | excel_handler/comprehensive_extractor.py:337-368 | the result's entries are well formed and `raw_sheets` lists exactly their sheets |
| Comprehensive.DataMonths | excel_handler/comprehensive_extractor.py:345-365 | each overall value is that month's sum over the entries, and the overall months are the months some entry has |
| Comprehensive.DataShape | excel_handler/comprehensive_extractor.py:345-365 | overall months in fiscal order; empty exactly without products; twelve predictions of the window mean otherwise |
| Comprehensive.DataSummary | excel_handler/comprehensive_extractor.py:367-377 | the summary counts the sheets and products; `total_forecast` is 12 times the window mean (0.0 without history); `total_raw_material` sums the overall months |
| Comprehensive.ComprehensiveExtractSpec | excel_handler/comprehensive_extractor.py:225-392 | the products list is the entries of each sheet in turn; well-formed entries; `raw_sheets` lists exactly their sheets; overall values are the month sums over the entries; overall empty exactly without products; the summary's counts |
| Comprehensive.TwoSheetEntries | excel_handler/comprehensive_extractor.py:255-342 | over two sheets the products list is the first sheet's entries then the second's, so a code with data on both gives two entries |
| Comprehensive.ComprehensiveExtractForecast | excel_handler/comprehensive_extractor.py:345-377 | overall months in fiscal order; no products gives no forecast and 0.0; otherwise twelve predictions of the window mean, 12 times that as `total_forecast`, and `total_raw_material` the history's sum |
| Comprehensive.TakeProductStep | excel_handler/comprehensive_extractor.py:282-334 | one product: its month data over 30 rows, its entry, its sheet data and its totals |
| Comprehensive.TakeProducts | excel_handler/comprehensive_extractor.py:281-334 | the product loop, in detection order |
| Comprehensive.ProcessSheet | excel_handler/comprehensive_extractor.py:258-338 | one sheet: skipped without month columns, else its products searched from the row after the header |
| Comprehensive.ProcessSheets | excel_handler/comprehensive_extractor.py:255-342 | the sheet loop |
| Comprehensive.BuildOverall | excel_handler/comprehensive_extractor.py:345-365 | the overall block from the totals |
| Comprehensive.ExtractAllSheetsData | excel_handler/comprehensive_extractor.py:225-392 | `extract_all_sheets_data` over the named sheets: its result is the specification function whose products, months and summary the lemmas above fix |
| Extractor.NormalizeMonthName | excel_handler/excel_extractor.py:38-68 | a blank cell gives None, and every result is one of the 12 month names |
| Extractor.StripLowered | excel_handler/excel_extractor.py:46-49 | the second strip changes nothing |
| Extractor.AgreesWithStrict | excel_handler/excel_extractor.py:38-68 | when the label steps leave no space at either end, this normaliser and the strict one give the same month |
| Extractor.NormalizeWord | excel_handler/excel_extractor.py:46-60 | a plain word (no space, dot or `月`) is looked up as its lowered, stripped self |
| Extractor.NormalizeCapitalised | excel_handler/excel_extractor.py:46-60 | a capitalised word is looked up as its lowered self |
| Extractor.MonthNameFixed | excel_handler/excel_extractor.py:38-68 | every month name normalises to itself |
| Extractor.NamesFixed | excel_handler/excel_extractor.py:38-68 | every member of the month names is a fixed point |
| Extractor.NormalizeIdempotent | excel_handler/excel_extractor.py:38-68 | normalising an output again returns it |
| Extractor.NormalizeStr | excel_handler/excel_extractor.py:46-66 | a text label goes through strip, lower, the `月` and dot removal, then the lookup |
| Extractor.LabelJapanese | excel_handler/excel_extractor.py:52-56 | a lowered word followed by `月` keeps only the word |
| Extractor.JapaneseLabel | excel_handler/excel_extractor.py:52-56 | a word followed by `月` loses the `月` and is lowered |
| Extractor.NormalizeJapanese | excel_handler/excel_extractor.py:46-60 | a label stripping to a word and `月` is looked up as the lowered word |
| Extractor.WordAgrees | excel_handler/excel_extractor.py:38-68 | on a plain word the two normalisers agree |
| Extractor.JapaneseAgrees | excel_handler/excel_extractor.py:38-68 | on a word followed by `月` the two normalisers agree |
| Extractor.AprilWordPlain | excel_handler/excel_extractor.py:41 | `'Apr'`, `'APRIL'`, `'04'` and `'4'` are plain words |
| Extractor.AprilWord | excel_handler/excel_extractor.py:41 | those four, up to surrounding whitespace, give April |
| Extractor.AprilJapanese | excel_handler/excel_extractor.py:52-60 | `'4月'` gives April |
| Extractor.FourJapaneseShape | excel_handler/excel_extractor.py:52-53 | `'4月'` is a word followed by `月` |
| Extractor.AprilLabels | excel_handler/excel_extractor.py:41 | `'Apr'`, `'APRIL'`, `'04'`, `'4'` and `'4月'`, up to surrounding whitespace, all give April |
| Extractor.AprilDot | excel_handler/excel_extractor.py:55-60 | `'Apr.'`, with its dot, gives April |
| Extractor.CurrencyPrefixed | excel_handler/excel_extractor.py:84 | a `$` in front of a parseable number changes nothing |
| Extractor.SeparatorDropped | excel_handler/excel_extractor.py:86 | a comma is dropped wherever it stands |
| Extractor.DecorationSeparator | excel_handler/excel_extractor.py:84-86 | the decoration removal drops a comma |
| Extractor.IndexOf | excel_handler/excel_extractor.py:158 | the position of a key, or None exactly when it is absent |
| Extractor.Lookup | excel_handler/excel_extractor.py:158 | `od[k]` is defined exactly when k is a key |
| Extractor.Put | excel_handler/excel_extractor.py:158 | `od[k] = v` keeps the keys in place for an existing key and appends a new one |
| Extractor.PutLookup | excel_handler/excel_extractor.py:158 | after `od[k] = v`, k reads v and every other key reads as before |
| Extractor.PutDistinct | excel_handler/excel_extractor.py:158 | assignment keeps the keys distinct |
| Extractor.FiscalPairs | excel_handler/excel_extractor.py:150-158 | the months with a value before k, in fiscal order, each with its value |
| Extractor.FiscalPairsMembers | excel_handler/excel_extractor.py:150-158 | month i is listed exactly when it has a value |
| Extractor.FiscalPairsSpec | excel_handler/excel_extractor.py:150-158 | over all 12: the months with a value, in fiscal order, with their values, and no others |
| Extractor.FiscalPairsStep | excel_handler/excel_extractor.py:150-158 | one turn appends month k exactly when it has a value |
| Extractor.FiscalPairsEmpty | excel_handler/excel_extractor.py:150-158 | the series is empty exactly when no month has a value |
| Extractor.FirstCells | excel_handler/excel_extractor.py:129-130 | one first-column text per row |
| Extractor.FindFrom | excel_handler/excel_extractor.py:129-135 | the first row at or after r whose first cell contains or is contained in the product key, or None exactly when there is none |
| Extractor.Labels | excel_handler/excel_extractor.py:167-168 | one month label per column |
| Extractor.Cells | excel_handler/excel_extractor.py:170-171 | one parsed cell per column |
| Extractor.Assign | excel_handler/excel_extractor.py:167-173 | the label loop over the first c columns keeps keys and values aligned |
| Extractor.AssignSpec | excel_handler/excel_extractor.py:167-173 | each month once, only months some column names, and each with the value of its last column that parses |
| Extractor.LabelSeriesSpec | excel_handler/excel_extractor.py:163-173 | the label series has each month once, only month names, and the last column's value for each |
| Extractor.PositionalSeriesSpec | excel_handler/excel_extractor.py:149-161 | the D..O series holds exactly the fiscal months of parseable cells, in fiscal order, with their values, and is empty exactly when none parses |
| Extractor.PositionalSpec | excel_handler/excel_extractor.py:149-163 | with 16 or more columns and a parseable D..O cell, the result is the positional series |
| Extractor.LabelFallbackSpec | excel_handler/excel_extractor.py:162-173 | otherwise each month once, only month names, each with its last labelled column's value |
| Extractor.MissingProductSpec | excel_handler/excel_extractor.py:137-139 | no row naming the product gives an empty series |
| Extractor.FindProductRow | excel_handler/excel_extractor.py:124-135 | the `iterrows` loop with its break finds the product row |
| Extractor.ReadPositional | excel_handler/excel_extractor.py:149-158 | method 1's loop |
| Extractor.AssignAll | excel_handler/excel_extractor.py:167-173 | method 2's loop over the columns |
| Extractor.ReadLabelled | excel_handler/excel_extractor.py:163-173 | method 2 on the product's row |
| Extractor.ExtractMonthlySeries | excel_handler/excel_extractor.py:107-187 | `extract_monthly_series` |
| Extractor.NonZeroEmpty | excel_handler/excel_extractor.py:251-255 | a column has no non-zero value exactly when no record gives one |
| Extractor.CurrentNonZeroEmpty | excel_handler/excel_extractor.py:239-255 | over the current records: exactly when no `current` record gives one |
| Extractor.SectionMonth | excel_handler/excel_extractor.py:247-262 | month i has a total exactly when some `current` record has a non-zero parseable value in its column |
| Extractor.IngredientMonth | excel_handler/excel_extractor.py:247-262 | month i is in the series exactly when that holds |
| Extractor.IngredientValues | excel_handler/excel_extractor.py:247-262 | each listed month carries the sum of its non-zero values, in fiscal order |
| Extractor.IngredientSeriesSpec | excel_handler/excel_extractor.py:224-265 | the series holds exactly the fiscal months with a non-zero value in some `current` record, in fiscal order, with their sums; empty without current records |
| Extractor.ColumnValues | excel_handler/excel_extractor.py:251-255 | the inner loop collects the non-zero values of one column |
| Extractor.ExtractFromIngredientSection | excel_handler/excel_extractor.py:224-265 | `extract_from_ingredient_section` |
| Views.KeysAreLowered | excel_handler/views.py:251-262 | `ing.lower()` of each listed code is its lowercase key |
| Views.ColumnTexts | excel_handler/views.py:190 | one column-A text per row |
| Views.ColumnTextsAt | excel_handler/views.py:190 | entry i is row i's lowered column A |
| Views.FirstBlank | excel_handler/views.py:175-178 | the first all-blank row of the range, or None exactly when there is none |
| Views.FirstNaming | excel_handler/views.py:259-265 | the first row of the range whose column A contains the ingredient, or None exactly when there is none |
| Views.FirstNamingAny | excel_handler/views.py:188-193 | the first row of the range whose column A contains any ingredient, or None exactly when there is none |
| Views.IsBlankRow | excel_handler/views.py:176 | `isna().all()` of a row |
| Views.FindSeparator | excel_handler/views.py:174-178 | the separator loop gives the first blank row of rows 2..99, or -1 |
| Views.IsBlankCP | excel_handler/views.py:225 | a row is empty in C..P |
| Views.MarkSet | excel_handler/views.py:230-232 | rows row..row+4 below the separator become `annual_data`; every other row is unchanged |
| Views.MarkAnnualRows | excel_handler/views.py:220-237 | each row from 3 up to the separator gets exactly the label of the walk from row 3: a row empty in C..P met by the walk is `annual_separator` (one row on), any other row opens five `annual_data` rows, blank or not (five rows on), and without a column C every row is `annual_data`; other rows unchanged |
| Views.WalkShape | excel_handler/views.py:222-237 | the walk gives only `annual_separator`, to rows empty in C..P, and `annual_data`, to rows within five of a non-empty row that opened a set |
| Views.SetStartIsData | excel_handler/views.py:222-237 | a row not empty in C..P (or any row without a column C) is `annual_data`, wherever the sets fall |
| Views.FirstNamingStep | excel_handler/views.py:259-265 | widening the search window by one row |
| Views.FirstNamingPrefix | excel_handler/views.py:259-265 | a match in a prefix of the window is the match of the whole window |
| Views.FirstNamingAnyStep | excel_handler/views.py:188-193 | widening the any-ingredient window by one row |
| Views.FirstNamingAnyPrefix | excel_handler/views.py:188-193 | a match in a prefix is the match of the whole window |
| Views.StartsBounded | excel_handler/views.py:258-265 | each start lies inside its 500-row window, after the previous start |
| Views.ConsOrdered | excel_handler/views.py:271 | a smaller first pair keeps the starts strictly ordered |
| Views.StartsIncreasing | excel_handler/views.py:258-271 | the start rows strictly increase in ingredient order, so the sort keeps that order |
| Views.FindFrom | excel_handler/views.py:259-265 | one ingredient's search loop with its break |
| Views.FindIngredientStarts | excel_handler/views.py:257-267 | the start search, each ingredient searched after the previous one's start |
| Views.InFoundAppend | excel_handler/views.py:193 | recording an ingredient keeps the earlier ones |
| Views.KeyAdded | excel_handler/views.py:192-193 | a new ingredient naming row i is recorded at row i, its first row |
| Views.KeySkipped | excel_handler/views.py:192 | a key that does not name row i, or was found before, adds nothing |
| Views.ScanKey | excel_handler/views.py:192-193 | one ingredient test of row i: recorded when the lowered key occurs in the row's text and was not found before; the row's remaining scan is unchanged by it |
| Views.ScanRow | excel_handler/views.py:191-193 | the inner loop over the ingredients of row i: the found list after row i is the reference search up to row i + 1 |
| Views.ScanRows | excel_handler/views.py:188-199 | the outer loop: the found list is the reference search over rows 2..hi-1, with the loop's invariant |
| Views.FindIngredientRows | excel_handler/views.py:186-199 | the found list is the reference search over rows 2..199; each found ingredient at its first row; every ingredient that occurs is found; sorted by row; something found exactly when some row names an ingredient, the first at that row |
| Views.FoundDone | excel_handler/views.py:188-199 | the loop's invariant at the end gives those facts |
| Views.LabelsOf | excel_handler/views.py:203 | each ingredient's label is `ingredient_` and its lowered code |
| Views.FrameCompose | excel_handler/views.py:200-207 | two updates that each change only their rows change only the union |
| Views.LabelRange | excel_handler/views.py:202-203 | rows lo..hi-1 get the label; no other row changes |
| Views.LabelSegments | excel_handler/views.py:200-203 | each row from the first start to the end gets the label of the start it follows; no other row changes |
| Views.SegmentStep | excel_handler/views.py:200-203 | one more segment extends the segmentation |
| Views.LabelLeading | excel_handler/views.py:205-207 | rows 2 to the first ingredient row: the annual header then annual data; no other row changes |
| Views.SegmentedKept | excel_handler/views.py:200-207 | labelling rows before the first start keeps the segments |
| Views.TwoIngredientRows | excel_handler/views.py:181-207 | on a sheet without a separator whose column A names MCT360 on row 2 and MCT165 on row 3, the parsed regions label row 2 `ingredient_mct360` and row 3 `ingredient_mct165` |
| Views.BlankRowInSet | excel_handler/views.py:216-237 | on a sheet whose row 3 opens a set and whose separator is row 5, the parsed regions label row 4, blank in C..P, `annual_data` and not `annual_separator` |
| Views.LabelWithoutSeparator | excel_handler/views.py:181-212 | without a separator: when some ingredient is named, the leading annual rows and each found ingredient's segment up to the next one's row; else rows 2.. are `unknown` |
| Views.AnnualKept | excel_handler/views.py:220-237 | the annual labels survive updates that leave their rows alone |
| Views.LabelAnnualBlock | excel_handler/views.py:216-248 | the annual header, the sets up to the separator, the separator as `empty` and three ingredient header rows; nothing labelled from s + 4 on |
| Views.BlockKept | excel_handler/views.py:250-275 | labelling rows after the headers keeps the titles and the annual block |
| Views.LabelWithSeparator | excel_handler/views.py:214-275 | with a separator: the annual block; with a column A the ingredient segments from the row after the headers; the rows from s + 4 before the first start (all of them when none is found or there is no column A) stay unlabelled |
| Views.LabelIngredients | excel_handler/views.py:250-275 | the ingredient search and its segments; the rows from s + 4 before the first start stay unlabelled |
| Views.LabelTitles | excel_handler/views.py:166-171 | row 0 is `title` and row 1, when it exists, `empty` |
| Views.ParseExcelRegions | excel_handler/views.py:154-277 | an empty sheet gives no regions; otherwise the titles; after a separator the annual block, the ingredient segments and nothing between them; without one the no-separator labelling with each found ingredient's segment |
| Views.RowCells | excel_handler/views.py:61 | a row's cells in the columns up to the k-th letter |
| Views.AssignAnnualSetTypes | excel_handler/views.py:63-72 | an all-empty record is a separator; among the others the first five are `previous` and the rest `current`; cells unchanged |
| Views.AnnualTypedFacts | excel_handler/views.py:63-72 | the loop's invariant at the end gives those facts |
| Views.DataCountBound | excel_handler/views.py:63-72 | the data count never exceeds the records seen |
| Views.Trimmed | excel_handler/views.py:89-92 | the block with its trailing records empty in C..F removed: a prefix, what is cut is empty in C..F, and the last kept record is not |
| Views.TrimTrailing | excel_handler/views.py:89-92 | the `pop` loop computes that prefix |
| Views.AssignIngredientSetTypes | excel_handler/views.py:93-102 | each record keeps its cells and gets its positional set type |
| Views.SetTypesOfBlock | excel_handler/views.py:93-102 | header exactly at 0, previous exactly at 1..10, current exactly past 10 within the last 10; a block of 11 or fewer has no current record |
| Views.BuildIngredientList | excel_handler/views.py:76-102 | six blocks in ingredient order, each the trimmed rows of its region, set-typed by position |
| Views.BuildAnnualData | excel_handler/views.py:61-72 | the annual records after the first, with their set types |
| Workflow4.CanonicalMonth | excel_handler/workflow4.py:595-611 | a blank cell gives None, and every result is one of the 12 month names |
| Workflow4.EmptyIsNoMonth | excel_handler/workflow4.py:599-600 | the empty text is no month, so the early return agrees with the lookup |
| Workflow4.SameAsExtractor | excel_handler/workflow4.py:595-611 | `_canonical_month` gives what excel_extractor's `normalize_month_name` gives, on every cell |
| Workflow4.CanonicalIdempotent | excel_handler/workflow4.py:595-611 | normalising an output again returns it |
| Workflow4.NamesFixed | excel_handler/workflow4.py:18-79 | each month name is its own canonical month |
| Workflow4.AprilLabels | excel_handler/workflow4.py:46-49 | `'Apr'`, `'APRIL'`, `'04'`, `'4'` and `'4月'`, up to surrounding whitespace, give April |
| Workflow4.NovemberJapanese | excel_handler/workflow4.py:601-606 | `'11月'` loses its `月` and gives November |
| Workflow4.ElevenDrop | excel_handler/workflow4.py:601-603 | the label steps turn `'11月'` into `'11'` |
| Workflow4.IndexFrom | excel_handler/workflow4.py:618 | `list.index`: the first position at or after i holding k, or None exactly when there is none |
| Workflow4.MonthIndexSpec | excel_handler/workflow4.py:614-618 | `_month_index` is None exactly when `_canonical_month` is, and is otherwise the 1-based position of the canonical name |
| Workflow4.CoerceNumber | excel_handler/workflow4.py:621-629 | a number is returned as it is and a blank gives None |
| Workflow4.CoerceIgnoresCommas | excel_handler/workflow4.py:627 | a comma anywhere in the text is ignored |
| Workflow4.CoercePlain | excel_handler/workflow4.py:627 | text without commas is read by `float()` alone |
| Workflow4.CoerceKeepsCurrency | excel_handler/workflow4.py:626-629 | no currency symbol is removed, so `'$5'` is no number |
| Workflow4.ContainsSelf | excel_handler/workflow4.py:587-590 | a text contains itself |
| Workflow4.MatchesIsContainment | excel_handler/workflow4.py:583-591 | the exact-name test adds nothing: a column matches exactly when its stripped, lowered name contains a lowered candidate |
| Workflow4.MatchFlags | excel_handler/workflow4.py:584-591 | one match flag per column |
| Workflow4.FirstTrue | excel_handler/workflow4.py:584-592 | the first true flag at or after i, or None exactly when there is none |
| Workflow4.FirstMatchSpec | excel_handler/workflow4.py:582-592 | the found column matches and no earlier column does; None exactly when no column matches |
| Workflow4.ContainsCandidate | excel_handler/workflow4.py:589-591 | the candidate loop: some lowered candidate is inside the lowered name |
| Workflow4.FindColumn | excel_handler/workflow4.py:582-592 | `_find_column` computes the first matching column |
| Workflow4.WorkflowSheets | excel_handler/workflow4.py:168-170 | the sheets kept are exactly those whose lowered name contains `workflow`, each its own data |
| Workflow4.PlaceholdersSpec | excel_handler/workflow4.py:171-173 | `setdefault` adds the missing labels and never overwrites an entry |
| Workflow4.CollectOutputsSpec | excel_handler/workflow4.py:166-174 | the keys are the workflow sheets plus `Workflow 1`..`Workflow 3`; a workflow sheet keeps its data; a label with no such sheet holds the placeholder |
| Workflow4.CollectWorkflowOutputs | excel_handler/workflow4.py:166-174 | `_collect_workflow_outputs` |
| Workflow4.SomesMembers | excel_handler/workflow4.py:237-246 | the present values are exactly the `Some` entries |
| Workflow4.ConcatMembers | excel_handler/workflow4.py:222-246 | a record of the concatenation is a record of some row |
| Workflow4.Candidates | excel_handler/workflow4.py:230-246 | one possible record per month column |
| Workflow4.CandidateIs | excel_handler/workflow4.py:230-246 | entry q is the record of month column q |
| Workflow4.RowsRecords | excel_handler/workflow4.py:222-246 | one list of records per row |
| Workflow4.LongRecordsSpec | excel_handler/workflow4.py:221-246 | the long records are exactly those of each (row, month column) pair with a product text and a demand |
| Workflow4.SomesAppend | excel_handler/workflow4.py:239-246 | a present record is appended, an absent one skipped |
| Workflow4.NoProductNoRecords | excel_handler/workflow4.py:223-228 | a row without product text gives no record |
| Workflow4.RecordWith | excel_handler/workflow4.py:229-246 | the record of a month column of a row with product text: the text, the column's month, its demand and the row's per-unit cell, or none without a demand |
| Workflow4.ReadRow | excel_handler/workflow4.py:229-246 | the inner loop over the month columns |
| Workflow4.NormalizeWide | excel_handler/workflow4.py:221-251 | the wide-to-long loop, None for the 'no monthly demand values' error |
| Workflow4Tables.StrLessIrreflexive | excel_handler/workflow4.py:297 | no key sorts before itself |
| Workflow4Tables.StrLessTransitive | excel_handler/workflow4.py:297 | the key order is transitive |
| Workflow4Tables.StrLessTotal | excel_handler/workflow4.py:297 | two different keys are comparable |
| Workflow4Tables.InsertKey | excel_handler/workflow4.py:297 | inserting a key gives the old keys and the new one |
| Workflow4Tables.InsertKeySorted | excel_handler/workflow4.py:297 | insertion keeps the keys strictly sorted |
| Workflow4Tables.GroupKeysSpec | excel_handler/workflow4.py:297 | `groupby` meets each product of the frame once, in str order |
| Workflow4Tables.InsertByKey | excel_handler/workflow4.py:303 | inserting a keyed row adds exactly that row |
| Workflow4Tables.InsertByKeySorted | excel_handler/workflow4.py:303 | insertion keeps the rows ordered by key |
| Workflow4Tables.SortByKey | excel_handler/workflow4.py:303 | the sort by month index is a permutation |
| Workflow4Tables.SortByKeyMember | excel_handler/workflow4.py:303 | sorting keeps exactly the same rows |
| Workflow4Tables.SortByKeySorted | excel_handler/workflow4.py:303 | the sort orders by month index |
| Workflow4Tables.GroupOf | excel_handler/workflow4.py:297 | a group holds only rows of its product |
| Workflow4Tables.KeyedCandidates | excel_handler/workflow4.py:298-302 | one cleaned row or None per record |
| Workflow4Tables.KeyedCandidateAt | excel_handler/workflow4.py:298-302 | entry i is record i's cleaned row |
| Workflow4Tables.GroupOfMembers | excel_handler/workflow4.py:297 | a group holds exactly the frame's rows of its product |
| Workflow4Tables.KeyedRowSpec | excel_handler/workflow4.py:298-302 | a record survives both `dropna` calls exactly when it has a demand and a month `_month_index` reads, keyed by that index |
| Workflow4Tables.KeyedRowIn | excel_handler/workflow4.py:298-302 | a row is in the cleaned group exactly when some record yields it |
| Workflow4Tables.KeyedRowsMembers | excel_handler/workflow4.py:298-302 | the same for every row |
| Workflow4Tables.CleanedSpec | excel_handler/workflow4.py:298-304 | the cleaned group is ordered by month index and is a permutation of the group's surviving rows |
| Workflow4Tables.GroupOfMember | excel_handler/workflow4.py:297 | a record is in p's group exactly when it is a record of p |
| Workflow4Tables.KeyedGroupMember | excel_handler/workflow4.py:297-302 | a row survives in p's group exactly when some record of p yields it |
| Workflow4Tables.CleanedMember | excel_handler/workflow4.py:297-304 | a row is in p's cleaned group exactly when some record of p survives `dropna` as that row |
| Workflow4Tables.Demands | excel_handler/workflow4.py:312 | one demand per cleaned row |
| Workflow4Tables.ForecastIsClampedWindow | excel_handler/workflow4.py:315-330 | the forecast is the 3-window mean clamped at zero, never negative |
| Workflow4Tables.ForecastBetween | excel_handler/workflow4.py:315-330 | window demands between 0 and hi give a forecast between them |
| Workflow4Tables.MethodLabelWindow | excel_handler/workflow4.py:316-319 | three or more months give `3-month moving average` |
| Workflow4Tables.MethodLabelTwo | excel_handler/workflow4.py:320-323 | two months give `2-month average` |
| Workflow4Tables.MethodLabelSingle | excel_handler/workflow4.py:324-327 | one month gives `single period or insufficient data` |
| Workflow4Tables.TrendOf | excel_handler/workflow4.py:308-310 | one trend row per cleaned row |
| Workflow4Tables.Steps | excel_handler/workflow4.py:297-350 | one step per group |
| Workflow4Tables.StepAt | excel_handler/workflow4.py:297-350 | step i is the step of the i-th group over its cleaned rows |
| Workflow4Tables.TablesUpTo | excel_handler/workflow4.py:297-350 | the loop never yields the empty-table error by itself |
| Workflow4Tables.MissingStays | excel_handler/workflow4.py:333-336 | once a group raises, later groups are never reached |
| Workflow4Tables.NextMonthForecast | excel_handler/workflow4.py:315-330 | the three branches and the clamp give the forecast and the method |
| Workflow4Tables.ForecastProduct | excel_handler/workflow4.py:305-350 | the loop body for one group |
| Workflow4Tables.BuildForecastTables | excel_handler/workflow4.py:284-367 | `_build_forecast_tables` |
| Workflow4Tables.FoldBuilt | excel_handler/workflow4.py:297-350 | the loop ends without raising exactly when no group lacks per-unit values |
| Workflow4Tables.FoldMissing | excel_handler/workflow4.py:333-336 | a raise names the first group without per-unit values |
| Workflow4Tables.FoldRows | excel_handler/workflow4.py:342-349 | the rows are those of the groups that are done |
| Workflow4Tables.FoldTrend | excel_handler/workflow4.py:308-310 | the trend holds the trend rows of the groups that are done |
| Workflow4Tables.FoldMethods | excel_handler/workflow4.py:350 | one method entry per group that is done, holding its method |
| Workflow4Tables.FoldRowsOrdered | excel_handler/workflow4.py:297-349 | with keys in str order, the rows are in str order of product |
| Workflow4Tables.DemandsAt | excel_handler/workflow4.py:312 | entry i is row i's demand |
| Workflow4Tables.PerUnitsLast | excel_handler/workflow4.py:332-337 | `per_unit_series.iloc[-1]` is the per-unit value of the last cleaned row that has one |
| Workflow4Tables.PerUnitsEmpty | excel_handler/workflow4.py:332-333 | the per-unit series is empty exactly when no cleaned row has a value |
| Workflow4Tables.TrendOfAt | excel_handler/workflow4.py:308-310 | each trend row is a cleaned row tagged with its product |
| Workflow4Tables.StepOfSpec | excel_handler/workflow4.py:305-350 | skip exactly without cleaned rows; raise exactly with rows but no per-unit value; otherwise the row holds the clamped forecast, the last per-unit value and their product, with its method and trend |
| Workflow4Tables.StepsKeys | excel_handler/workflow4.py:297 | the steps follow the group keys, distinct and in str order |
| Workflow4Tables.StepOfKey | excel_handler/workflow4.py:297-350 | step j belongs to the j-th group key |
| Workflow4Tables.FoldEmpty | excel_handler/workflow4.py:352-354 | no row exactly when no group is done |
| Workflow4Tables.EmptyTableIff | excel_handler/workflow4.py:352-354 | `Forecast table is empty` is raised exactly when no product has a row with a demand and a month index |
| Workflow4Tables.SortedIndex | excel_handler/workflow4.py:297 | in sorted keys a smaller key sits earlier |
| Workflow4Tables.NoPerUnitStep | excel_handler/workflow4.py:332-336 | step i raises exactly when its cleaned rows exist but hold no per-unit value |
| Workflow4Tables.EarlierHavePerUnit | excel_handler/workflow4.py:297-336 | the groups before the j-th all have per-unit values or no rows |
| Workflow4Tables.MissingPerUnitSpec | excel_handler/workflow4.py:332-336 | the error names the first product, in str order, whose cleaned rows have no per-unit value |
| Workflow4Tables.StepRowFits | excel_handler/workflow4.py:315-349 | a done group's row fits its cleaned rows |
| Workflow4Tables.AllBuilt | excel_handler/workflow4.py:352-367 | without a raise, the result is the loop's rows and methods and its trend sorted by month index |
| Workflow4Tables.DoneRow | excel_handler/workflow4.py:342-349 | a done group yields its product's row |
| Workflow4Tables.BuiltRowsSound | excel_handler/workflow4.py:342-352 | every row belongs to a product of the frame and is computed from that product's cleaned rows |
| Workflow4Tables.BuiltRowsComplete | excel_handler/workflow4.py:305-349 | every product with cleaned rows has a row |
| Workflow4Tables.BuiltRowsOrdered | excel_handler/workflow4.py:297-352 | no product has two rows: they follow str order |
| Workflow4Tables.BuiltMethods | excel_handler/workflow4.py:316-350 | the method map has exactly the products with cleaned rows, each with the method its row count picks |
| Workflow4Tables.BuiltTrendSorted | excel_handler/workflow4.py:356-365 | the demand trend is ordered by month index |
| Workflow4Tables.StepTrend | excel_handler/workflow4.py:305-310 | a group's trend rows come from its step |
| Workflow4Tables.RawTrend | excel_handler/workflow4.py:308-310 | before the sort, the trend holds the trend rows of the groups |
| Prediction.CellAmount | excel_handler/prediction_utils.py:26-34 | one month cell of a row record: a blank cell counts as 0.0 (unlike the extractors' None), a number as itself; text that `float()` reads as v, once `$` and `,` are removed and the text is stripped, gives v, and a non-zero amount from text always comes from that read, so text `float()` rejects gives 0.0 |
| Prediction.DashIsZero | excel_handler/prediction_utils.py:29-34 | a lone `-` reads as 0.0 here, where the extractors' normaliser gives no number |
| Prediction.Undecorate | excel_handler/prediction_utils.py:30 | removing `$` and `,` from `'$' + t` leaves t when t has neither |
| Prediction.DollarIntText | excel_handler/prediction_utils.py:29-32 | `'$'` followed by digits reads as the number |
| Prediction.Contributing | excel_handler/prediction_utils.py:23 | only rows of the contributing set types are kept |
| Prediction.MonthlyData | excel_handler/prediction_utils.py:20 | there are twelve month lists |
| Prediction.MonthValuesSpec | excel_handler/prediction_utils.py:22-34 | each contributing row adds exactly one value to every month, read from its D..O column; other rows add nothing |
| Prediction.MonthlyDataShape | excel_handler/prediction_utils.py:15-36 | the keys are the twelve fiscal months in order and every list has one entry per contributing row |
| Prediction.SkippedRow | excel_handler/prediction_utils.py:23 | a row of another set type changes nothing |
| Prediction.MonthValuesStep | excel_handler/prediction_utils.py:22-34 | one more row appends its value exactly when it contributes |
| Prediction.CollectMonthly | excel_handler/prediction_utils.py:20-36 | the shared row loop computes the month lists |
| Prediction.ExtractMonthlyFromAnnual | excel_handler/prediction_utils.py:15-36 | `extract_monthly_data_from_annual` reads `previous` and `current` rows |
| Prediction.ExtractMonthlyFromIngredients | excel_handler/prediction_utils.py:39-69 | `extract_monthly_data_from_ingredients` |
| Prediction.IngredientKeys | excel_handler/prediction_utils.py:46-67 | the keys are exactly the uppercased names of the ingredients that have rows |
| Prediction.IngredientValue | excel_handler/prediction_utils.py:50-67 | each key holds the month lists of the last ingredient with that name and rows, from its `current` rows |
| Prediction.MonthlyTotals | excel_handler/prediction_utils.py:72-74 | the totals keep the keys in order |
| Prediction.TotalsAddRow | excel_handler/prediction_utils.py:22-74 | one more contributing row adds its amount to every month's total; another row leaves them |
| Prediction.TotalsOfNothing | excel_handler/prediction_utils.py:72-74 | without contributing rows every total is 0.0 |
| Prediction.NoneContribute | excel_handler/prediction_utils.py:23 | without contributing rows nothing is kept |
| Prediction.Positives | excel_handler/prediction_utils.py:93 | the kept values are positive and no more than the input |
| Prediction.PositivesMembers | excel_handler/prediction_utils.py:93 | a value is kept exactly when it is in the input and above zero |
| Prediction.PositivesAll | excel_handler/prediction_utils.py:93 | a positive history is kept whole |
| Prediction.XSumClosed | excel_handler/prediction_utils.py:111-114 | the x values 0..n-1 sum to n(n-1)/2 |
| Prediction.XXSumClosed | excel_handler/prediction_utils.py:111-114 | their squares sum to (n-1)n(2n-1)/6 |
| Prediction.SpreadPositive | excel_handler/prediction_utils.py:110-114 | with two or more points the least-squares line is unique |
| Prediction.TrendPoints | excel_handler/prediction_utils.py:116-118 | one prediction per month |
| Prediction.TrendPredictions | excel_handler/prediction_utils.py:116-118 | the `linear_trend` loop |
| Prediction.PredictNext | excel_handler/prediction_utils.py:77-122 | `predict_next_months` |
| Prediction.MovingAverageSpec | excel_handler/prediction_utils.py:89-106 | `moving_average` gives n values: zeros when no value is positive, else each the positive 3-window mean |
| Prediction.Least | excel_handler/prediction_utils.py:103 | the least value of a list |
| Prediction.Greatest | excel_handler/prediction_utils.py:103 | the greatest value of a list |
| Prediction.LeastPositive | excel_handler/prediction_utils.py:93 | the least of positive values is positive |
| Prediction.NonPositiveIgnored | excel_handler/prediction_utils.py:93 | appending a zero or negative value never changes the predictions |
| Prediction.UnknownMethod | excel_handler/prediction_utils.py:89-122 | another method gives `[]` when some value is positive, and n zeros otherwise |
| Prediction.Line | excel_handler/prediction_utils.py:111-112 | n points of a line |
| Prediction.LineAt | excel_handler/prediction_utils.py:111-112 | point j is a*j + b |
| Prediction.LineStep | excel_handler/prediction_utils.py:114 | one more point adds its value to both sums |
| Prediction.LineSum | excel_handler/prediction_utils.py:114 | the sum of a line's points |
| Prediction.LineCross | excel_handler/prediction_utils.py:114 | the cross sum of a line's points |
| Prediction.LineSums | excel_handler/prediction_utils.py:114 | sums from a line a*j + b fit back to slope a and intercept b |
| Prediction.SteadyHistory | excel_handler/prediction_utils.py:99-104 | a steady positive history predicts itself |
| Prediction.History | excel_handler/prediction_utils.py:133-134 | historical totals are positive |
| Prediction.Names | excel_handler/prediction_utils.py:133 | the historical months |
| Prediction.Amounts | excel_handler/prediction_utils.py:134 | the historical values |
| Prediction.FutureMonths | excel_handler/prediction_utils.py:151-154 | n future months |
| Prediction.NextMonthNames | excel_handler/prediction_utils.py:151-154 | the loop naming the future months |
| Prediction.GenerateForecastData | excel_handler/prediction_utils.py:125-169 | `generate_forecast_data` |
| Prediction.HistoryMembers | excel_handler/prediction_utils.py:133-134 | a month is historical exactly when its total is positive |
| Prediction.HistoryOrder | excel_handler/prediction_utils.py:133 | the historical months keep the dict order |
| Prediction.NoHistoryIff | excel_handler/prediction_utils.py:136-143 | the empty record is returned exactly when no total is positive |
| Prediction.FutureMonthsFollow | excel_handler/prediction_utils.py:150-154 | future month i is `FISCAL_MONTHS[(last + i + 1) mod 12]`, each following the previous one |
| Prediction.NextModTwelve | excel_handler/prediction_utils.py:153 | stepping mod 12 |
| Prediction.ForecastSpec | excel_handler/prediction_utils.py:125-169 | a last month outside FISCAL_MONTHS raises; otherwise months and values are the history, n equal predictions of its window mean, the future months after the last one, `all_*` the concatenations and `prediction_point` the last history index |
| Prediction.PredictedInRange | excel_handler/prediction_utils.py:146 | a prediction lies within the range of the last three historical totals |
| Prediction.PipelineNeverRaises | excel_handler/prediction_utils.py:72-169 | totals from monthly data have fiscal keys, so `generate_forecast_data` never raises on them |
| Prediction.Present | excel_handler/prediction_utils.py:193 | values wrapped as present |
| Prediction.PrepareChartData | excel_handler/prediction_utils.py:172-213 | a given record always gives a chart; without one it raises exactly when `generate_forecast_data` does, with the same month; a chart has two datasets as long as `all_values`, the historical one holding the value exactly up to `prediction_index` and the predicted one exactly after; its laws on the default record are `DefaultChart` and `EmptyChart` |
| Prediction.ChartSplit | excel_handler/prediction_utils.py:186-212 | both datasets span all values; the historical one is present exactly up to `prediction_index`, the predicted one exactly after, each with the value there |
| Prediction.DefaultChart | excel_handler/prediction_utils.py:179-212 | without forecast data: history plus six labels, `prediction_index` the last history index, and six copies of the window mean |
| Prediction.EmptyChart | excel_handler/prediction_utils.py:136-212 | no positive total gives the empty chart with `prediction_index` -1 |
| Chart.SixAhead | excel_handler/chart_data_builder.py:58-71 | six predictions |
| Chart.WindowMeanPositive | excel_handler/chart_data_builder.py:58-69 | a positive history predicts a positive value |
| Chart.SixAheadBetween | excel_handler/chart_data_builder.py:58-71 | the six predictions are equal and lie in any range that holds the last three historical values |
| Chart.AnnualRows | excel_handler/chart_data_builder.py:42 | only `previous` and `current` records are read |
| Chart.KeyedKeys | excel_handler/chart_data_builder.py:112 | the dict's keys are those of the present entries |
| Chart.KeyedValue | excel_handler/chart_data_builder.py:112 | a key holds the value of its last present entry |
| Chart.KeyedFrom | excel_handler/chart_data_builder.py:112 | each value comes from a present entry with its key |
| Chart.Entries | excel_handler/chart_data_builder.py:76-116 | one possible chart per ingredient |
| Chart.AnnualMonthValues | excel_handler/chart_data_builder.py:41-46 | the inner loop collects a month's non-zero values over the annual records |
| Chart.ChartOfSection | excel_handler/chart_data_builder.py:87-110 | the fiscal-month loop over one section series |
| Chart.ExtractRealData | excel_handler/chart_data_builder.py:23-125 | `extract_real_data_from_excel` |
| Chart.OverallSpec | excel_handler/chart_data_builder.py:37-54 | the overall months are exactly those whose non-zero values sum above zero, in fiscal order, each with that sum |
| Chart.OverallPredicted | excel_handler/chart_data_builder.py:56-71 | six equal positive values, the 3-window mean, or six zeros without history |
| Chart.OtherRowsIgnored | excel_handler/chart_data_builder.py:42 | header and separator records never move the overall chart |
| Chart.IngredientChartSpec | excel_handler/chart_data_builder.py:86-110 | an ingredient's chart holds exactly the fiscal months whose section value is positive, in fiscal order, with those values |
| Chart.IngredientChartKeys | excel_handler/chart_data_builder.py:76-112 | the charts are keyed by the uppercased names of the ingredients kept |
| Chart.IngredientChartValue | excel_handler/chart_data_builder.py:81-116 | each chart is that of the last kept ingredient with its name |
| Chart.IngredientChartsPositive | excel_handler/chart_data_builder.py:94-96 | every ingredient chart holds positive values in fiscal order |
| Chart.CalendarIndex | excel_handler/chart_data_builder.py:145-147 | `MONTH_NAMES.index` of a month name, None exactly for other values |
| Chart.CalendarIndexOf | excel_handler/chart_data_builder.py:145-147 | month name i has index i |
| Chart.MonthDemandsEmpty | excel_handler/chart_data_builder.py:150-153 | a month has summed demand exactly when some trend row is in it |
| Chart.CalendarPairs | excel_handler/chart_data_builder.py:150-163 | the months with a sum, in calendar order, with their sums |
| Chart.CalendarPairsMembers | excel_handler/chart_data_builder.py:150-163 | month i is listed exactly when it has a sum |
| Chart.MatchFrom | excel_handler/chart_data_builder.py:190-193 | the first ingredient name at or after q in the product text, or None exactly when there is none |
| Chart.MatchingSpec | excel_handler/chart_data_builder.py:183-195 | a product matches exactly when some listed name is in its uppercased text, and it matches the first such |
| Chart.FindIngredient | excel_handler/chart_data_builder.py:189-193 | the loop with its break finds the matching ingredient |
| Chart.ProductsSorted | excel_handler/chart_data_builder.py:182 | the product groups come in str order |
| Chart.ProductsMember | excel_handler/chart_data_builder.py:182 | the groups are exactly the trend's products |
| Chart.TrendGroup | excel_handler/chart_data_builder.py:182 | a group holds only rows of its product |
| Chart.TrendGroupMembers | excel_handler/chart_data_builder.py:182 | a group holds exactly its product's trend rows |
| Chart.Dated | excel_handler/chart_data_builder.py:202-208 | the group's rows whose month is a month name, keyed by calendar index |
| Chart.DatedMembers | excel_handler/chart_data_builder.py:202-208 | a dated row is exactly a group row whose month is that month name, with its demand |
| Chart.HistMonths | excel_handler/chart_data_builder.py:207 | the months of a history |
| Chart.HistDemands | excel_handler/chart_data_builder.py:208 | the demands of a history |
| Chart.FirstRow | excel_handler/chart_data_builder.py:211-216 | the first forecast-table row of the product, or None exactly when there is none |
| Chart.ProductPredicted | excel_handler/chart_data_builder.py:210-231 | six predictions |
| Chart.ProductEntries | excel_handler/chart_data_builder.py:182-232 | one possible chart per product |
| Chart.HistoryLists | excel_handler/chart_data_builder.py:202-208 | the loop over the sorted rows of a group |
| Chart.ProductForecast | excel_handler/chart_data_builder.py:210-226 | `Forecast Demand` when the table has the product, else the 3-window rule on its history |
| Chart.ChartOfProduct | excel_handler/chart_data_builder.py:195-232 | one product group's chart, its history in calendar order (the corrected order) |
| Chart.OverallFromTrend | excel_handler/chart_data_builder.py:142-175 | the aggregated months in calendar order |
| Chart.IngredientsFromTrend | excel_handler/chart_data_builder.py:180-232 | the product groups in key order, each history in calendar order (the corrected order) |
| Chart.BuildChartDataFromWorkflow4 | excel_handler/chart_data_builder.py:128-246 | `build_chart_data_from_workflow4` |
| Chart.TrendOverallSpec | excel_handler/chart_data_builder.py:142-175 | an empty trend gives nothing; otherwise exactly the months some trend row names, in calendar order, each with its summed demand, and six predictions |
| Chart.RowMonthListed | excel_handler/chart_data_builder.py:150-163 | a trend row with a month name puts that month in the overall chart |
| Chart.TrendOverallEmpty | excel_handler/chart_data_builder.py:150-163 | the overall chart has no month exactly when no trend row has a month name |
| Chart.FallbackSpec | excel_handler/chart_data_builder.py:234-246 | the sheet records are read exactly when no trend row has a month name and there are annual records |
| Chart.TrendChartKeys | excel_handler/chart_data_builder.py:180-232 | the ingredient charts are exactly those of ingredients some trend product matches |
| Chart.TrendChartValue | excel_handler/chart_data_builder.py:182-232 | an ingredient's chart is that of the last product, in key order, matching it |
| Chart.ProductPredictedSpec | excel_handler/chart_data_builder.py:211-216 | with a table row, all six predictions are its `Forecast Demand` |
| Chart.NoForecastRow | excel_handler/chart_data_builder.py:217-226 | without one, the predictions are the 3-window rule on the history |
| Chart.ProductChartOrdered | excel_handler/chart_data_builder.py:197-208 | with the corrected order, a product's history is in calendar order |
| Chart.ProductChartMember | excel_handler/chart_data_builder.py:197-208 | a product's history holds a month and demand exactly when one of its trend rows has that month name and demand |
| Chart.ChainSorted | excel_handler/chart_data_builder.py:197 | adjacent order gives sortedness |
| Chart.AlphabeticalSorted | excel_handler/chart_data_builder.py:197 | the month names in alphabetical order are sorted as str values |
| Chart.AlphaRankOrder | excel_handler/chart_data_builder.py:197 | ordering by alphabetical rank is ordering the month names as str values |
| Chart.Rekey | excel_handler/chart_data_builder.py:197 | each row rekeyed by the alphabetical rank of its month |
| Chart.WrittenHistorySorted | excel_handler/chart_data_builder.py:197 | as written, a history is in str order of month name |
| Chart.JanuaryFebruaryDated | excel_handler/chart_data_builder.py:202-208 | the two-row group dates January at 0 and February at 1 |
| Chart.JanuaryFebruaryWritten | excel_handler/chart_data_builder.py:197 | as written, February comes first |
| Chart.JanuaryFebruaryChronological | excel_handler/chart_data_builder.py:197 | in the corrected order, January comes first |
| Chart.WrittenOrderIsAlphabetical | excel_handler/chart_data_builder.py:197 | January and February rows come out February first as written, January first as corrected |

## Left out

- Workbook loading and writing (`pd.ExcelFile`, `read_excel`, openpyxl), `extract_from_workflow4_sheet`, `run_workflow4_pipeline` and `write_results_to_original_excel` are I/O. Sheets enter the model as in-memory grids.
- The Django request, response and session handling of `views.py`, the ORM models and the URL routing are framework I/O. Only `parse_excel_regions` and the set-type rules of `index` are modelled.
- matplotlib chart generation, timestamps, logging, and the `try`/`except` blocks that only catch I/O errors are left out.
- `parse_excel_regions` is a parameter of the single-sheet pass in `strict_excel_extractor.py`. The regions it returns are a ghost out-parameter of `StrictExtract.SingleSheetPass`, constrained by `Views.ParsedRegions`.
- Floating point is not modelled: numbers are mathematical reals. NaN and infinite values, and NaN-demand checks, do not arise.
- `round(x, 2)` and `round(x, 4)` are not modelled. Forecast Demand in `_build_forecast_tables` is kept unrounded.
- Sheet.ParseFloat: reads only plain decimals (sign, digits, optional fraction, surrounding whitespace). Python `float()` also accepts exponents, `inf`, `nan`, underscores and non-ASCII digits.
- Sheet.NumText: prints a whole number as an integer and a fraction as its decimal expansion cut to 17 places. Python prints the shortest round-trip digits and uses an exponent from 1e16 upwards. A consequence: a whole-number month header such as 4.0 renders as `4` and reads as April, whereas Python's `str(4.0)` is `'4.0'`, which the month tables do not hold, so the code reads no month there.
- Sheet.Lower: maps only `A`-`Z`. Python's `lower()` also maps other letters (full-width `Ａ`, Greek, Cyrillic) and can change the length (`'İ'.lower()` has two characters).
- Sheet.Upper: maps only `a`-`z`. Python's `upper()` also maps other letters (full-width `ａ`) and can change the length (`'ß'.upper()` is `'SS'`).
- Sheet.TrimLeft: drops only the six ASCII whitespace characters. Python's `strip()` also drops other Unicode whitespace, such as U+00A0, U+2000-U+200A and the ideographic space U+3000.
- Sheet.TrimRight: drops only the six ASCII whitespace characters, like `Sheet.TrimLeft`; the other Unicode whitespace Python's `strip()` drops is kept.
- Sheet.IsAlpha: covers the ASCII letters and `月`. Other letters that Python's `isalpha` accepts are left out.
- Workflow4.CoerceNumber: does not model NaN. Python's `float('nan')` yields a NaN value rather than `None`; here any cell that parses yields a real.
- Prediction.CellAmount: does not model `bool` cells, NaN or infinite values.
- Sheet.NormalizeNumeric: `Cell` has no boolean variant. In Python `isinstance(True, int)` holds, so every numeric normaliser reads an Excel TRUE as 1.0 and FALSE as 0.0; the model has no such cell.
- Prediction.TrendPoints: the `linear_trend` branch is the exact least-squares line over reals. `np.polyfit` rounding is not modelled, and the fit is proved exact only through the sums (`Prediction.LineSums`, `Prediction.LineSum`, `Prediction.LineCross`).
- Prediction.ExtractMonthlyFromIngredients: the result is a map, so the insertion order of the ingredient dict is lost. A repeated ingredient name keeps its last value.
- Prediction.GenerateForecastData: `num_months` is a `nat`. A negative count, which `range` would treat as zero, is not modelled.
- Workflow4Tables.BuildForecastTables: pandas `groupby` and `sort_values` are modelled as a stable sort by key. The method text is a `Method` value rendered by `Workflow4Tables.MethodText`.
- Workflow4Tables.BuildForecastTables: the window is fixed at `DEFAULT_WINDOW` (3). The `window` keyword is not a parameter.
- Workflow4Tables.BuildForecastTables: the trend frame is proved sorted and made of the per-product trend rows. Membership of each row after the final sort is not stated separately.
- Workflow4.NormalizeWide: only the wide-format loop of `_normalize_input_dataframe` is modelled. The long-format branch, `_detect_month_columns` and the missing-column errors are left out. The column layout is a `Layout` parameter.
- The `ffill`/`bfill` of per-unit consumption, and the error when some value is still missing (`workflow4.py:252-262`), are left out. The records keep the raw per-unit cell.
- Views.AssignAnnualSetTypes: the in-place `set_type` writes of `index` are modelled as returning new rows.
- Extractor: `extract_from_ingredient_section` never uses its `product_code` parameter, so the parameter is dropped.
- Extractor: the worked month cases `'11月'`, `'Nov'`, `'4 .'` and `'invalid'` are not stated as lemmas. `Workflow4.SameAsExtractor` and `Workflow4.NovemberJapanese` cover `'11月'`, and the general normaliser lemmas cover the rest.
- The numeric worked cases `'720.5'` and `'(500)'` are covered by the general lemmas `Sheet.NormalizePlain` and `Sheet.NormalizeParenthesised`, not stated as literals.
- Chart.BuildChartDataFromWorkflow4: `month_index` is 0-based. A month cell of any other type is dropped, and the NaN checks on demand are not modelled.
- Chart.FindIngredient: the `any(...)` test and the matching loop are modelled as the loop alone. The two agree: the loop finds a match exactly when `any` holds.
- Chart.BuildChartDataFromWorkflow4: the model orders each product's history by calendar month. The code sorts month names alphabetically (see Findings).
- Chart.ProductChart: each product's history is in calendar order, the corrected order of the Findings row; the code's alphabetical order is `Chart.WrittenHistory`.
- Chart.ChartOfProduct: the chart it builds uses the calendar-ordered history of `Chart.ProductChart`, not the code's alphabetical order.
- Chart.IngredientsFromTrend: every ingredient chart uses the calendar-ordered history of `Chart.ProductChart`, not the code's alphabetical order.

## Findings

| source | as written | input that shows it | evidently intended | confidence | as-written member | corrected member |
|---|---|---|---|---|---|---|
| excel_handler/strict_excel_extractor.py:155-156 | the duplicate test compares the full cell text with entries that were cut to 20 characters | a product-like cell longer than 20 characters, seen twice, is listed twice | each product listed once | not executed | StrictValidation.LongTextRepeats | StrictValidation.CorrectedValidation |
| excel_handler/chart_data_builder.py:197 | `group.sort_values('month')` sorts each product's history by month name | a product with January and February rows lists February first | each history in calendar order | not executed | Chart.WrittenOrderIsAlphabetical | Chart.ProductChartOrdered |

# Blood-test report generators: a Dafny model of their kernel

Two Python scripts draw fake blood-test ("血常规") report images.

- `generate_two_cols.py` lays 25 catalog items out in two side-by-side tables, 13 on the left and 12 on the right.
  Each item's reference-range text, for example `"3.5-5.5"` or `"男：0-15"`, is parsed by `parse_reference_range`.
  A value is drawn by `generate_value_with_variation`, which decides the status code (1 above, -1 below, 0 normal) by which random branch it took.
  ESR uses a gender-dependent range.
  `draw_table_row` places each row's cells, and an arrow when the status is non-zero, by column widths.
  `create_report_image` stacks the title, patient info, header, rule, table and footer down the page.
- `generate_one_col.py` draws one 25-row table.
  `random_value` keeps 80% of the draws inside [low, high] and pushes the rest 20%..50% of the range width outside it.
  The arrow ("tip") is decided afterwards by comparing the rounded value with the bounds.
  Column x positions are prefix sums of the column widths, rows are 50 px apart, and `generate_batch` writes `report_1.png` .. `report_n.png`.

## How the model is laid out

| module | file | what it holds |
|---|---|---|
| `PyText` | pytext.dfy | `str.split`/`join` on one separator, `str(n)` for naturals, with their inverse laws |
| `PyFloat` | pyfloat.dfy | `float()` as a partial decimal parser; `round(v, 2)`, `f"{v:.2f}"` and `str(round(v, 2))` on exact reals; catalog literals (`3.5`, `130`) as `PyNum` |
| `PyRandom` | pyrandom.dfy | a draw `u` in [0, 1) and `random.uniform(a, b) = a + (b - a) * u` |
| `Canvas` | canvas.dfy | drawing as data: one `DrawOp` record per `draw.text`/`draw.line`, plus the stacked-lines and columns loops |
| `TwoColValues` | two_cols_values.dfy | the parser, the value synthesizers, the two catalogs and the result-list loops |
| `TwoColLayout` | two_cols_layout.dfy | `draw_table_row`, the table loop, the page bands of `create_report_image`, and the `generate_report` loop |
| `OneCol` | one_col.dfy | the template, `random_value`, the tip, the row tuple, `col_x`, the data-row loop, `generate_one` and `generate_batch` |

The scripts' loops are methods with loop invariants.
Each method takes the operations drawn so far and returns them extended.
Its `ensures` ties the result to a specification function, and the lemmas state the layout properties about that function.
Every random draw is a parameter.
Each catalog item gets one triple `Draws(u1, u2, u3)`, taken in the order the source calls `random.random()` and `random.uniform`. In both scripts the normal-range path makes only two calls (`u1` picks the path, `u2` is the uniform draw), so `u3` goes unused there. Only the out-of-range path reads `u3`.

## Model

| member | source | states |
|---|---|---|
| PyText.Split | generate_two_cols.py:101 | `str.split(sep)` always gives at least one piece |
| PyText.JoinSplit | generate_two_cols.py:101 | joining the pieces of a split with the separator gives back the original text |
| PyText.SplitPiecesFree | generate_two_cols.py:101 | no piece of a split contains the separator |
| PyText.SplitPiecesLack | generate_two_cols.py:101 | a character absent from the text is absent from every piece of its split |
| PyText.SplitLength | generate_two_cols.py:101 | a split has exactly one piece more than the text has separators |
| PyText.SplitWithoutSeparator | generate_two_cols.py:84-99 | a text without the separator splits into itself alone |
| PyText.SplitAfterPiece | generate_two_cols.py:101 | splitting `a + sep + b`, with `a` free of `sep`, gives `[a]` followed by the split of `b` |
| PyText.SplitJoin | generate_two_cols.py:101 | splitting the join of separator-free pieces gives back the pieces |
| PyText.SplitPair | generate_two_cols.py:101 | `"L-H"` with `L` and `H` free of `-` splits into exactly `[L, H]` |
| PyText.CountZero | generate_two_cols.py:99 | a character occurs zero times exactly when it is not in the text |
| PyText.DigitValue | generate_one_col.py:118 | a decimal digit character denotes a value 0..9 |
| PyText.DigitChar | generate_one_col.py:118 | the character written for 0..9 is a digit that denotes that value back |
| PyText.NatText | generate_one_col.py:118 | `str(n)` is a non-empty string of decimal digits |
| PyText.NatTextValue | generate_one_col.py:118 | `str(n)` read back as digits is `n` |
| PyText.NatTextInjective | generate_one_col.py:138-139 | different numbers have different decimal texts |
| PyText.DigitsFree | generate_one_col.py:138-139 | helper: a digit string contains no given non-digit character |
| PyText.CancelPrefix | generate_one_col.py:138-139 | helper: equal texts with an equal prefix are equal after it |
| PyText.CancelSuffix | generate_one_col.py:138-139 | helper: equal texts with an equal suffix are equal before it |
| PyFloat.Pow10 | generate_two_cols.py:101 | helper: ten to a natural power is at least 1, so the fraction scale never vanishes |
| PyFloat.DecimalValue | generate_two_cols.py:101 | the value of a digits-dot-digits text is non-negative |
| PyFloat.ParseUnsigned | generate_two_cols.py:101 | `float()` of a text without a sign is non-negative when it succeeds |
| PyFloat.ParseDecimal | generate_two_cols.py:101 | `float()` of a text with no leading `-` is non-negative when it succeeds |
| PyFloat.ParseUnsignedAccepts | generate_two_cols.py:101 | the unsigned parser succeeds exactly on texts of the decimal grammar |
| PyFloat.ParseUnsignedSound | generate_two_cols.py:101 | every text the unsigned parser accepts is in the decimal grammar |
| PyFloat.ParseUnsignedComplete | generate_two_cols.py:101 | every text of the decimal grammar is accepted by the unsigned parser |
| PyFloat.ParseDecimalAccepts | generate_two_cols.py:101 | `float()` succeeds exactly on an optional `+` or `-` followed by the unsigned decimal grammar |
| PyFloat.DecimalCharacters | generate_two_cols.py:101-104 | every text `float()` accepts is non-empty, starts with a digit, `.`, `+` or `-`, and continues with digits and `.` only |
| PyFloat.UnsignedCharacters | generate_two_cols.py:101-104 | every text the unsigned grammar accepts is made of digits and `.` |
| PyFloat.ParseWholeDotFrac | generate_two_cols.py:101 | `float("W.F")` is W plus F scaled by its digit count |
| PyFloat.ParseNatText | generate_one_col.py:118 | `float(str(n)) == n` |
| PyFloat.Hundredths | generate_one_col.py:67 | `round(v, 2)` in hundredths is within half a hundredth of `v` |
| PyFloat.TwoDigits | generate_two_cols.py:323 | the fraction of a `.2f` text is exactly two digits that denote `c`, for `c` in 0..99 |
| PyFloat.FracText | generate_one_col.py:118 | `repr` writes at least one fraction digit for a hundredths value (`130.0`, `4.5`, `0.06`) |
| PyFloat.FracTextValue | generate_one_col.py:118 | those fraction digits denote the hundredths they were made from |
| PyFloat.WholeAndHundredths | generate_one_col.py:118 | splitting a count of hundredths into a whole part and a remainder loses nothing |
| PyFloat.ParseSigned | generate_two_cols.py:323 | `float()` of the sign of `v`, a whole part, `.` and a fraction reads back the value with that sign |
| PyFloat.TwoDigitsDenote | generate_two_cols.py:323 | `float("W.dd")` is W + dd/100 |
| PyFloat.FracTextDenotes | generate_one_col.py:118 | `float("W." + repr digits)` is W plus the hundredths |
| PyFloat.RoundedClose | generate_one_col.py:67 | `round(v, 2)` lies within 0.005 of `v` |
| PyFloat.Fixed2RoundTrip | generate_two_cols.py:322-323 | `float(f"{v:.2f}")` is `round(v, 2)`, so the shown text is within 0.005 of the value |
| PyFloat.Repr2RoundTrip | generate_one_col.py:118 | `float(str(round(v, 2)))` is `round(v, 2)`, the same number `f"{v:.2f}"` reads back as |
| PyFloat.NumValue | generate_one_col.py:35-61 | a catalog literal denotes its count of hundredths divided by 100 |
| PyFloat.NumText | generate_one_col.py:118 | `str()` of a catalog literal is a non-empty text of digits and `.` |
| PyFloat.NumTextParses | generate_one_col.py:118 | `float(str(x)) == x` for every catalog literal |
| PyRandom.Scale | generate_one_col.py:69 | `c * u` lies between 0 and `c`, and strictly below `c` when `c > 0` |
| PyRandom.Uniform | generate_one_col.py:67 | `random.uniform(a, b)` lies between `a` and `b` whichever is larger, and below `b` when `a < b` |
| Canvas.DrawStacked | generate_two_cols.py:237-241 | the loop draws line `i` at `(x, y + i * pitch)`, in order, after the operations already drawn |
| Canvas.SumStep | generate_two_cols.py:254-257 | the running `x` gains the width of column i at step i |
| Canvas.DrawColumns | generate_two_cols.py:254-263 | the header loop draws text `i` at the start plus the widths of the columns before it |
| Canvas.TextsWithinAppend | generate_two_cols.py:275-284 | two lists of texts within a vertical band join into one within the band |
| TwoColValues.ParseReferenceRange | generate_two_cols.py:81-105 | both parsed bounds are non-negative for every input text |
| TwoColValues.DashPairNonNegative | generate_two_cols.py:99-105 | the `-`-split step never yields a negative bound |
| TwoColValues.ColonSelectsSecondPiece | generate_two_cols.py:84-97 | with a `：` present, parsing continues on the piece after the first `：`, whatever the gender |
| TwoColValues.GenderIrrelevant | generate_two_cols.py:84-97 | the gender argument never changes the parsed range |
| TwoColValues.NoColonParsesWhole | generate_two_cols.py:99-102 | without a `：` the whole text is split on `-` |
| TwoColValues.NoDashFallback | generate_two_cols.py:82-105 | a text with no `-` gives (0, 100), whether or not it carries a `：` label |
| TwoColValues.WrongPieceCountFallback | generate_two_cols.py:100-104 | a split on `-` that does not give exactly two pieces gives (0, 100) |
| TwoColValues.UnparseablePieceFallback | generate_two_cols.py:100-104 | two pieces of which `float()` rejects one give (0, 100) |
| TwoColValues.ParseLowHigh | generate_two_cols.py:101-102 | `"L-H"` with decimal L and H parses to (L, H) unchanged, without reordering |
| TwoColValues.DashPairOf | generate_two_cols.py:101-102 | the `-` step of `"L-H"` returns the two parsed numbers in order |
| TwoColValues.LowHighHasNoColon | generate_two_cols.py:84 | `"L-H"` built from decimals contains no `：`, so no colon branch runs |
| TwoColValues.NoColonIn | generate_two_cols.py:84 | a text `float()` accepts has no `：` |
| TwoColValues.ParseIntLiteral | generate_two_cols.py:101 | `float()` of an integer text is that integer |
| TwoColValues.ParsePlainExample | generate_two_cols.py:99-102 | `"100-300"` parses to (100, 300) for any gender |
| TwoColValues.ParseDecimalExample | generate_two_cols.py:99-102 | `"0.05-0.5"` parses to (0.05, 0.5) |
| TwoColValues.ParseFiveHundredths | generate_two_cols.py:101 | `float("0.05")` is 0.05 |
| TwoColValues.ParseFiveTenths | generate_two_cols.py:101 | `float("0.5")` is 0.5 |
| TwoColValues.ParseGenderedExample | generate_two_cols.py:84-102 | `"男：0-15"` parses to (0, 15) for either gender |
| TwoColValues.DashPairRange015 | generate_two_cols.py:101-102 | the `-` step of `"0-15"` gives (0, 15) |
| TwoColValues.ParseFallbackExamples | generate_two_cols.py:99-105 | `"a-b"`, `"1-2-3"`, `"-5-10"` and `"4"` all give (0, 100) |
| TwoColValues.UnparseableExample | generate_two_cols.py:100-104 | `"a-b"` splits into two pieces that `float()` rejects, so it gives (0, 100) |
| TwoColValues.TooManyPiecesExample | generate_two_cols.py:99-105 | `"1-2-3"` and `"-5-10"` split into three pieces and `"4"` into one, so each gives (0, 100) |
| TwoColValues.OrderedRange | generate_two_cols.py:109-112 | after the swap `low <= high`, both non-negative, and the pair is the parsed one or its reverse |
| TwoColValues.GenerateValueWithVariation | generate_two_cols.py:107-123 | status 1 iff the high branch, -1 iff the low branch, 0 iff the normal branch; the pre-rounding value lies in [1.05·high, 1.3·high], [0.7·low, 0.95·low] or [0.98·low, 1.02·high] respectively |
| TwoColValues.AboveIsAboveRange | generate_two_cols.py:114-117 | a status-1 value lies strictly above the range when the upper bound is positive |
| TwoColValues.NormalPathMayLeaveRange | generate_two_cols.py:121-123 | a normal-branch value can fall outside the range and still carry status 0 |
| TwoColValues.ZeroLowBelowPathIsInRange | generate_two_cols.py:118-120 | with low = 0 the low branch yields 0, inside the range, yet flagged -1 |
| TwoColValues.ChanceExtremes | generate_two_cols.py:114 | a chance of 0 never varies and a chance of 1 always does |
| TwoColValues.SampleScenarios | generate_two_cols.py:114-123 | for `"100-300"` a normal draw of 0.5 gives 202 with status 0, and the high branch gives a value in [315, 390] with status 1 |
| TwoColValues.EsrRanges | generate_two_cols.py:150-155 | the two ESR range texts parse to (0, 15) and (0, 20) |
| TwoColValues.GenerateEsr | generate_two_cols.py:150-155 | ESR uses the range 0-15 for 男 and 0-20 for any other gender; status 1 exactly when `u1 < 0.2` and `u2 < 0.5`, -1 exactly when `u1 < 0.2` and not `u2 < 0.5`, 0 exactly when not `u1 < 0.2` |
| TwoColValues.CatalogShape | generate_two_cols.py:17-46 | 13 left and 12 right items numbered 1..25; every item but ESR draws from its own reference text |
| TwoColValues.EsrDisplayForFemale | generate_two_cols.py:45 | the ESR row shows the text 0-15 while a female value is drawn from 0-20 |
| TwoColValues.Results | generate_two_cols.py:358-369 | a result list has its catalog's length and order; row i carries item i's seq, code, name, unit and ref and the value and status generated for it |
| TwoColValues.BuildResults | generate_two_cols.py:358-362 | the append loop builds exactly that result list |
| TwoColValues.StatusCodes | generate_two_cols.py:114-123 | every status in a result list is -1, 0 or 1 |
| TwoColLayout.LayoutConstants | generate_two_cols.py:212-248 | the right info column is at x = 1250 and the right table at 1180; the five columns are 790 wide, so the left table ends before the right one starts |
| TwoColLayout.DrawTableRow | generate_two_cols.py:307-347 | advancing `x` column by column draws the row's cells (and the arrow) in source order |
| TwoColLayout.RowLayout | generate_two_cols.py:310-347 | code at start+10, name at start+w0+10, result at start+w0+w1+(w2−width)//2−20, arrow at start+w0+w1+w2−30, unit at start+w0+w1+w2+10, ref at start+w0+w1+w2+w3+10, all at the row's y |
| TwoColLayout.ArrowIffAbnormal | generate_two_cols.py:333-337 | an arrow is drawn iff the status is non-zero; it is ↑ for status 1 and ↓ otherwise |
| TwoColLayout.LineYStep | generate_two_cols.py:273-276 | consecutive table lines are 42 px apart, none above the first |
| TwoColLayout.TableRowsNext | generate_two_cols.py:275-284 | the first i+1 table lines are the first i followed by line i |
| TwoColLayout.TableRowsStep | generate_two_cols.py:275-284 | drawing line i after the first i lines gives the first i+1 |
| TwoColLayout.DrawTableLine | generate_two_cols.py:278-284 | one loop iteration draws the left row if i < len(left), then the right row if i < len(right) |
| TwoColLayout.DrawTable | generate_two_cols.py:272-284 | the table loop draws max(len(left), len(right)) lines in order |
| TwoColLayout.TableRowsPrefix | generate_two_cols.py:275-284 | the operations of the first k lines are a prefix of those of the first m, for k <= m |
| TwoColLayout.TableLineAt | generate_two_cols.py:272-284 | line i, for i below max(len(left), len(right)), sits at `y_position + 42 i` and holds the left row iff i < len(left) and the right row iff i < len(right) |
| TwoColLayout.LineOnRow | generate_two_cols.py:276-284 | every cell of one table line is a text on that line's y |
| TwoColLayout.TableBand | generate_two_cols.py:272-284 | every cell of the first k lines is a text with y in [y_position, y_position + 42 k) |
| TwoColLayout.FrameStacking | generate_two_cols.py:203-286 | title, info, header, rule, table and footer come down the page in that order with no overlap |
| TwoColLayout.TableBetweenRuleAndFooter | generate_two_cols.py:265-286 | the whole table lies below the header rule and above the footer |
| TwoColLayout.CreateReportImage | generate_two_cols.py:197-305 | advancing `y_position` band by band draws the title, both info columns, both headers, the rule, the table and the footer |
| TwoColLayout.GeneratePatient | generate_two_cols.py:355-372 | one iteration builds both result lists from the patient's gender and draws the image |
| TwoColLayout.GenerateReport | generate_two_cols.py:354-372 | `patient_count` patients give one image each, in order: image i is the report of patient i over the same two catalogs |
| TwoColLayout.ReportTableShape | generate_two_cols.py:272-284 | every report's table has 13 lines; the last holds only the left row |
| OneCol.TemplateShape | generate_one_col.py:35-61 | 25 items, 6 headers and 6 column widths; every item's range is at least 0.03 wide |
| OneCol.Shift | generate_one_col.py:69 | the shift is between 0.2 and 0.5 times the range width |
| OneCol.Portion | generate_one_col.py:69 | a width times a factor in [0.2, 0.5] lies between 0.2 and 0.5 times the width |
| OneCol.PortionBounds | generate_one_col.py:69 | the bounds of that product, for a non-negative width |
| OneCol.RandomValue | generate_one_col.py:63-73 | with u1 < 0.8 the pre-rounding value lies in [low, high]; otherwise in [low − 0.5·w, low − 0.2·w] or [high + 0.2·w, high + 0.5·w], w = high − low |
| OneCol.ShiftLeavesRange | generate_one_col.py:68-73 | for low < high a shifted value lies strictly outside [low, high], below it iff the third draw is < 0.5 |
| OneCol.TipCases | generate_one_col.py:113-117 | the tip is ↓ iff value < low, ↑ iff value > high, and empty iff low <= value <= high |
| OneCol.RoundedStaysBetween | generate_one_col.py:67 | rounding to hundredths keeps a value between two bounds that are themselves hundredths |
| OneCol.RoundedKeepsSide | generate_one_col.py:71-73 | rounding keeps a value more than 0.005 beyond a bound on the same side |
| OneCol.TipMatchesCase | generate_one_col.py:112-117 | for an item at least 0.03 wide, the tip of the rounded value is empty on the in-range path, ↓ on the low path and ↑ on the high path |
| OneCol.TemplateTipsMatchCases | generate_one_col.py:111-117 | so every template row's tip matches the branch `random_value` took |
| OneCol.RefTextReadsBack | generate_one_col.py:118 | the reference text `f"{low}-{high}"` parses back to (low, high) |
| OneCol.Fields | generate_one_col.py:118-120 | the row tuple has one field per header |
| OneCol.RowReadsBack | generate_one_col.py:118 | the index text reads back as idx, the name and unit are the item's, the value text reads back as the rounded value, the reference as (low, high), and the tip is empty exactly when the rounded value is in range |
| OneCol.TemplateRowAt | generate_one_col.py:111-118 | row i of a template is the tuple of entry i, numbered i + 1, with the value drawn from its own draws |
| OneCol.ColXShape | generate_one_col.py:99-102 | `col_x` has one entry more than the widths, starts at the margin and grows by width i at step i |
| OneCol.ColumnOffsets | generate_one_col.py:99-102 | the append loop builds exactly that list |
| OneCol.DefaultColX | generate_one_col.py:99-102 | with margin 50 the offsets are [50, 120, 400, 560, 680, 900, 1020] |
| OneCol.DrawCells | generate_one_col.py:119-120 | the cell loop draws field i at `(col_x[i] + 5, y)` in order |
| OneCol.RowYValue | generate_one_col.py:104-121 | data row k (0-based) has y = 380 + 50 k |
| OneCol.DataRowsUnfold | generate_one_col.py:111-122 | the first i+1 rows are the first i followed by row i |
| OneCol.DataRowsNext | generate_one_col.py:111-122 | drawing row i after the first i rows gives the first i+1 |
| OneCol.DrawDataRow | generate_one_col.py:112-122 | one iteration draws the cells of the entry's row tuple at y, then the separator 10 px above the next y; y grows by 50 |
| OneCol.DrawDataRows | generate_one_col.py:110-122 | the data loop draws the rows of the whole template, entry i as row i + 1 at its own y, in order |
| OneCol.DataRowsPrefix | generate_one_col.py:110-122 | the operations of the first k rows are a prefix of those of the first m, for k <= m |
| OneCol.DataRowAt | generate_one_col.py:104-122 | row idx (1-based) is drawn right after the rows before it, its cells at y = 380 + 50 (idx − 1) and its separator at 380 + 50 idx − 10, and what is drawn up to there starts the table body |
| OneCol.RowBlockAt | generate_one_col.py:119-122 | the block of row i is its cells at y = 380 + 50 i followed by a line from the margin to the last column edge at 380 + 50 (i + 1) − 10 |
| OneCol.CellsAt | generate_one_col.py:119-120 | cell i of a row is its field i at `(col_x[i] + 5, y)` |
| OneCol.DrawHead | generate_one_col.py:80-107 | draws the title, the six info lines 30 px apart from y = 120, both times, the headers at y = 320 and the rule 40 px below, and returns `col_x` |
| OneCol.DrawFoot | generate_one_col.py:124-126 | draws the tester and reviewer at height − 120 and the disclaimer at height − 80 |
| OneCol.GenerateOne | generate_one_col.py:75-127 | draws the head, the data rows of the generator's template and the footer, in order |
| OneCol.DefaultPageFits | generate_one_col.py:90-125 | on the default 1000 x 1800 page the last separator (y + 40 of row 25) lies above the footer at height − 120, and the six info lines end above the header at 320 |
| OneCol.PathJoinInjective | generate_one_col.py:139 | joining one directory with different file names gives different paths |
| OneCol.BatchNamesDistinct | generate_one_col.py:138-139 | different indices give different patient names and different paths |
| OneCol.Batch | generate_one_col.py:137-140 | the first k files of a batch are k files |
| OneCol.BatchAt | generate_one_col.py:137-140 | file i of a batch holds report i under `output_dir/report_(i+1).png` |
| OneCol.BatchPathsDistinct | generate_one_col.py:137-140 | no two files of a batch share a path |
| OneCol.GenerateBatch | generate_one_col.py:133-141 | the loop writes exactly the batch of the reports of patients 病人1..病人n, report i to `report_i.png` |

## Left out

- PIL canvas creation, pixels and `image.save`: drawing is a list of `(text, x, y)` and line records, and saving is not modelled. `GenerateBatch` returns the paths and images it would write.
- Font probing and loading, their fallback policies, and the `RuntimeError` when no font exists: font-library and filesystem work.
- `get_text_size`: font metrics are external. The title's width and height and a function giving each result text's width are parameters.
- Faker names, `datetime.now()` timestamps, the patient-info dictionary, the random offset of the modification time and `random.randint` for age and case number: these are parameters (`PatientInfo`, `Footer`, `PatientDraws`).
- `os.makedirs` and the timestamped file name of the two-column `generate_report`: filesystem and clock work. That loop returns its images in order.
- `print` messages: console output.
- Python's `random` module: every `random.random()` and `random.uniform` the source makes is a draw in [0, 1) passed in by the caller.
- PyFloat.Rounded: `round(v, 2)` is rounding half up on exact reals. Python rounds the binary double half to even, so ties and representation errors can differ.
- PyFloat.ParseDecimal: `float()` accepts only an optional sign followed by digits with at most one `.` (`5`, `5.`, `.5`, `0.05`). Whitespace, exponents, `inf`/`nan`, underscores and non-ASCII Unicode decimal digits (full-width `１５`, say) are not modelled. Every catalog text is in the grammar.
- PyFloat.Repr2: `str()` of a rounded value is modelled for plain fixed-point output. It does not cover exponent notation above 1e16 or below 1e-4, or binary artifacts.
- OneCol.PathJoin: `os.path.join` is the POSIX form. The directory is joined with `/` unless it already ends in one; Windows separators and absolute file names are not modelled.
- Both `BloodReportGenerator` classes set their fields once in `__init__` and never change them, so they are values and not classes. The one-column generator is `OneCol.Generator` (width, height and data template). The two-column catalogs are `TwoColLayout.Catalogs`, and its other fields are constants.
- The result text of the two-column table is `f"{value:.2f}"` of the pre-rounding value. On exact reals this equals formatting `round(value, 2)`, as the source does.

Two behaviours of the code, modelled as written:

- Gender does not select a segment in `parse_reference_range` (generate_two_cols.py:82-97). All three branches take the piece after the first `：`, including the fallback branch commented 如果没有明确性别，取通用值 at line 94. Every text therefore yields the same range for every gender (`TwoColValues.GenderIrrelevant`).
- In `generate_value_with_variation` (generate_two_cols.py:114-123) the status is fixed by the branch taken, not by where the sampled value falls. A normal-path value can lie outside the range and still have status 0 (`TwoColValues.NormalPathMayLeaveRange`). A below-path value can lie inside it when the lower bound is 0 (`TwoColValues.ZeroLowBelowPathIsInRange`).
- The one-column script does classify the rounded value against the bounds (`OneCol.TipCases`).

/** The one-column report (generate_one_col.py): the 25-item catalog, the
    value synthesizer `random_value`, the arrow shown beside a value, the
    row of six cells, the column offsets and row positions of
    `generate_one`, and the file and patient names of `generate_batch`. */
module OneCol {
  import opened PyText
  import opened PyFloat
  import opened PyRandom
  import opened Canvas
  import opened TwoColValues

  /** The generator object: its page size (1000 x 1800 unless given) and
      its catalog `data_template`. */
  datatype Generator = Generator(width: int, height: int, template: seq<Item>)
  const DefaultGenerator: Generator := Generator(1000, 1800, DataTemplate)

  const Margin: int := 50
  const LineHeight: int := 50
  const YStart: int := 320
  const DataStartY: int := YStart + 60
  const Title: string := "血 常 规 检 验 报 告 单"
  const Headers: seq<string> := ["序号", "项目名称", "结果", "单位", "参考值", "提示"]
  const ColWidths: seq<int> := [70, 280, 160, 120, 220, 120]

  // ---------------------------------------------------------------------
  // The catalog
  // ---------------------------------------------------------------------

  /** One catalog entry: name, unit and the reference bounds as written. */
  datatype Item = Item(name: string, unit: string, low: PyNum, high: PyNum)

  function Low(x: Item): real { NumValue(x.low) }
  function High(x: Item): real { NumValue(x.high) }

  const DataTemplate: seq<Item> := [
    Item("白细胞计数 WBC", "10^9/L", PyFloat(350), PyFloat(950)),
    Item("红细胞计数 RBC", "10^12/L", PyFloat(430), PyFloat(580)),
    Item("血红蛋白 HGB", "g/L", PyInt(130), PyInt(175)),
    Item("红细胞压积 HCT", "%", PyInt(40), PyInt(50)),
    Item("平均红细胞体积 MCV", "fL", PyInt(80), PyInt(100)),
    Item("平均血红蛋白含量 MCH", "pg", PyInt(27), PyInt(34)),
    Item("平均血红蛋白浓度 MCHC", "g/L", PyInt(320), PyInt(360)),
    Item("红细胞体积分布宽度 RDW-CV", "%", PyInt(11), PyInt(16)),
    Item("血小板计数 PLT", "10^9/L", PyInt(125), PyInt(350)),
    Item("平均血小板体积 MPV", "fL", PyFloat(750), PyFloat(1150)),
    Item("血小板分布宽度 PDW", "%", PyInt(10), PyInt(18)),
    Item("大血小板比率 P-LCR", "%", PyInt(13), PyInt(43)),
    Item("中性粒细胞比率 NEUT%", "%", PyInt(40), PyInt(75)),
    Item("中性粒细胞绝对值 NEUT#", "10^9/L", PyFloat(180), PyFloat(630)),
    Item("淋巴细胞比率 LYM%", "%", PyInt(20), PyInt(50)),
    Item("淋巴细胞绝对值 LYM#", "10^9/L", PyFloat(110), PyFloat(320)),
    Item("单核细胞比率 MONO%", "%", PyInt(3), PyInt(10)),
    Item("单核细胞绝对值 MONO#", "10^9/L", PyFloat(10), PyFloat(60)),
    Item("嗜酸细胞比率 EOS%", "%", PyFloat(50), PyInt(5)),
    Item("嗜酸细胞绝对值 EOS#", "10^9/L", PyFloat(2), PyFloat(50)),
    Item("嗜碱细胞比率 BASO%", "%", PyInt(0), PyInt(1)),
    Item("嗜碱细胞绝对值 BASO#", "10^9/L", PyInt(0), PyFloat(6)),
    Item("红细胞分布宽度 SD-RDW", "fL", PyInt(35), PyInt(56)),
    Item("血沉 ESR", "mm/h", PyInt(0), PyInt(15)),
    Item("C反应蛋白 CRP", "mg/L", PyInt(0), PyInt(8))
  ]

  /** Every entry's range is wider than two hundredths: low + 0.03 <= high. */
  predicate WideRange(x: Item) { NumCents(x.low) + 3 <= NumCents(x.high) }

  lemma TemplateShape()
    ensures |DataTemplate| == 25 && |Headers| == 6 && |ColWidths| == 6
    ensures forall i :: 0 <= i < |DataTemplate| ==> WideRange(DataTemplate[i])
  {
  }

  // ---------------------------------------------------------------------
  // random_value
  // ---------------------------------------------------------------------

  /** `(high - low) * random.uniform(0.2, 0.5)` for the draw u: between a
      fifth and a half of the range. */
  function Shift(low: real, high: real, u: Unit): (r: real)
    ensures low <= high ==> 0.2 * (high - low) <= r <= 0.5 * (high - low)
  {
    Portion(high - low, Uniform(0.2, 0.5, u))
  }

  /** `c * s` for a factor s between 0.2 and 0.5. */
  function Portion(c: real, s: real): (r: real)
    requires 0.2 <= s <= 0.5
    ensures c >= 0.0 ==> 0.2 * c <= r <= 0.5 * c
  {
    PortionBounds(c, s);
    c * s
  }

  lemma PortionBounds(c: real, s: real)
    requires 0.2 <= s <= 0.5
    ensures c >= 0.0 ==> 0.2 * c <= c * s <= 0.5 * c
  {
    if c >= 0.0 {
      assert c * s - 0.2 * c == c * (s - 0.2);
      assert 0.5 * c - c * s == c * (0.5 - s);
    }
  }

  /** `random_value(low, high)` before `round(·, 2)`. The first draw picks
      the normal case (below 0.8): uniform between the bounds on the second
      draw. Otherwise the second draw sizes a shift and the third picks its
      side: below low (third draw below 0.5) or above high. */
  function RandomValue(low: real, high: real, d: Draws): (v: real)
    ensures d.u1 < 0.8 && low <= high ==> low <= v <= high
    ensures d.u1 < 0.8 && high <= low ==> high <= v <= low
    ensures d.u1 >= 0.8 && d.u3 < 0.5 && low <= high ==> low - 0.5 * (high - low) <= v <= low - 0.2 * (high - low)
    ensures d.u1 >= 0.8 && d.u3 >= 0.5 && low <= high ==> high + 0.2 * (high - low) <= v <= high + 0.5 * (high - low)
  {
    if d.u1 < 0.8 then Uniform(low, high, d.u2)
    else
      var shift := Shift(low, high, d.u2);
      if d.u3 < 0.5 then low - shift else high + shift
  }

  /** The shifted cases land strictly outside a non-empty range. */
  lemma ShiftLeavesRange(low: real, high: real, d: Draws)
    requires low < high && d.u1 >= 0.8
    ensures RandomValue(low, high, d) < low || RandomValue(low, high, d) > high
    ensures d.u3 < 0.5 <==> RandomValue(low, high, d) < low
  {
  }

  /** The arrow beside a value: "↓" below low, else "↑" above high, else
      nothing. */
  function Tip(value: real, low: real, high: real): (t: string)
  {
    if value < low then "↓" else if value > high then "↑" else ""
  }

  /** The three tips are mutually exclusive and decided by the value alone. */
  lemma TipCases(value: real, low: real, high: real)
    requires low <= high
    ensures Tip(value, low, high) == "↓" <==> value < low
    ensures Tip(value, low, high) == "↑" <==> value > high
    ensures Tip(value, low, high) == "" <==> low <= value <= high
  {
  }

  // ---------------------------------------------------------------------
  // Rounding against hundredth bounds
  // ---------------------------------------------------------------------

  /** A value between two bounds that are whole hundredths still lies
      between them once rounded to hundredths. */
  lemma RoundedStaysBetween(v: real, lo: nat, hi: nat)
    requires lo as real / 100.0 <= v <= hi as real / 100.0
    ensures lo as real / 100.0 <= Rounded(v) <= hi as real / 100.0
  {
    assert Abs(v) == v;
    var n := Hundredths(v);
    assert v * 100.0 >= lo as real && v * 100.0 <= hi as real;
    assert n as int == (v * 100.0 + 0.5).Floor;
    assert lo <= n <= hi;
  }

  /** A value more than half a hundredth below (above) a bound stays below
      (above) it once rounded. */
  lemma RoundedKeepsSide(v: real, bound: real)
    ensures v < bound - 0.005 ==> Rounded(v) < bound
    ensures v > bound + 0.005 ==> Rounded(v) > bound
  {
    RoundedClose(v);
  }

  /** For an entry whose range is wider than two hundredths, the arrow shown
      next to the rounded value is exactly the case `random_value` took:
      none in the normal case, "↓" for a downward shift, "↑" for an upward
      one. */
  lemma TipMatchesCase(x: Item, d: Draws)
    requires WideRange(x)
    ensures var t := Tip(Rounded(RandomValue(Low(x), High(x), d)), Low(x), High(x));
      (d.u1 < 0.8 ==> t == "") &&
      (d.u1 >= 0.8 && d.u3 < 0.5 ==> t == "↓") &&
      (d.u1 >= 0.8 && d.u3 >= 0.5 ==> t == "↑")
  {
    var low, high := Low(x), High(x);
    var v := RandomValue(low, high, d);
    assert high - low >= 0.03;
    if d.u1 < 0.8 {
      RoundedStaysBetween(v, NumCents(x.low), NumCents(x.high));
    } else {
      RoundedKeepsSide(v, low);
      RoundedKeepsSide(v, high);
    }
  }

  /** So in every row of the catalog the arrow tells which case was drawn. */
  lemma TemplateTipsMatchCases(i: nat, d: Draws)
    requires i < |DataTemplate|
    ensures var x := DataTemplate[i];
      var t := Tip(Rounded(RandomValue(Low(x), High(x), d)), Low(x), High(x));
      (t == "" <==> d.u1 < 0.8) && (t == "↓" <==> d.u1 >= 0.8 && d.u3 < 0.5)
  {
    TemplateShape();
    TipMatchesCase(DataTemplate[i], d);
  }

  // ---------------------------------------------------------------------
  // The row tuple
  // ---------------------------------------------------------------------

  /** `f"{low}-{high}"`. */
  function RefText(x: Item): string { NumText(x.low) + "-" + NumText(x.high) }

  /** The six-field row tuple, one field per header. */
  datatype Row = Row(index: string, name: string, result: string, unit: string, reference: string, tip: string)

  /** The fields in column order. */
  function Fields(r: Row): (f: seq<string>)
    ensures |f| == |Headers|
  {
    [r.index, r.name, r.result, r.unit, r.reference, r.tip]
  }

  /** `(str(idx), name, str(value), unit, f"{low}-{high}", tip)` for the
      pre-rounding value v; the shown value and the tip use round(v, 2). */
  function RowTexts(idx: nat, x: Item, v: real): Row
  {
    Row(NatText(idx), x.name, Repr2(v), x.unit, RefText(x), Tip(Rounded(v), Low(x), High(x)))
  }

  /** The reference text reads back, through the two-column generator's
      range parser, as the entry's own bounds, whatever the gender. */
  lemma RefTextReadsBack(x: Item, gender: string)
    ensures ParseReferenceRange(RefText(x), gender) == (Low(x), High(x))
  {
    NumTextParses(x.low);
    NumTextParses(x.high);
    DigitsFree(NatText(0), '-');
    assert '-' !in NumText(x.low) && '-' !in NumText(x.high);
    ParseLowHigh(NumText(x.low), NumText(x.high), gender, Low(x), High(x));
  }

  /** One cell per header; the index, the value and the range read back as
      what they were made from, and the tip is empty exactly when the shown
      value is within the range. */
  lemma RowReadsBack(idx: nat, x: Item, v: real, gender: string)
    requires Low(x) <= High(x)
    ensures var row := RowTexts(idx, x, v);
      AllDigits(row.index) && DigitsValue(row.index) == idx &&
      row.name == x.name && row.unit == x.unit &&
      ParseDecimal(row.result) == Some(Rounded(v)) && -0.005 <= Rounded(v) - v <= 0.005 &&
      ParseReferenceRange(row.reference, gender) == (Low(x), High(x)) &&
      (row.tip == "" <==> Low(x) <= Rounded(v) <= High(x))
  {
    NatTextValue(idx);
    Repr2RoundTrip(v);
    RoundedClose(v);
    RefTextReadsBack(x, gender);
    TipCases(Rounded(v), Low(x), High(x));
  }

  // ---------------------------------------------------------------------
  // Column offsets (col_x)
  // ---------------------------------------------------------------------

  /** `col_x`: the margin, then each column's left edge plus its width. */
  function ColX(margin: int, widths: seq<int>): seq<int>
  {
    seq(|widths| + 1, i requires 0 <= i <= |widths| => margin + Sum(widths[..i]))
  }

  lemma ColXShape(margin: int, widths: seq<int>)
    ensures var c := ColX(margin, widths);
      |c| == |widths| + 1 && c[0] == margin &&
      forall i :: 0 <= i < |widths| ==> c[i + 1] == c[i] + widths[i]
  {
    var c := ColX(margin, widths);
    assert widths[..0] == [];
    forall i | 0 <= i < |widths| ensures c[i + 1] == c[i] + widths[i] {
      SumStep(widths, i);
    }
  }

  /** `col_x = [margin]; for w in col_widths: col_x.append(col_x[-1] + w)` */
  method ColumnOffsets(margin: int, widths: seq<int>) returns (colX: seq<int>)
    ensures colX == ColX(margin, widths)
  {
    colX := [margin];
    assert widths[..0] == [];
    for i := 0 to |widths|
      invariant |colX| == i + 1
      invariant forall j :: 0 <= j <= i ==> colX[j] == margin + Sum(widths[..j])
    {
      SumStep(widths, i);
      colX := colX + [colX[|colX| - 1] + widths[i]];
    }
  }

  lemma DefaultColX()
    ensures ColX(Margin, ColWidths) == [50, 120, 400, 560, 680, 900, 1020]
  {
    var c := ColX(Margin, ColWidths);
    ColXShape(Margin, ColWidths);
    assert c[0] == 50;
    assert c[1] == 50 + 70;
    assert c[2] == 120 + 280;
    assert c[3] == 400 + 160;
    assert c[4] == 560 + 120;
    assert c[5] == 680 + 220;
    assert c[6] == 900 + 120;
  }

  // ---------------------------------------------------------------------
  // Cells and data rows of generate_one
  // ---------------------------------------------------------------------

  /** Texts in the columns, text i 5px right of column i's edge. */
  function Cells(texts: seq<string>, colX: seq<int>, y: int): seq<DrawOp>
    requires |texts| <= |colX|
  {
    seq(|texts|, i requires 0 <= i < |texts| => Text(texts[i], colX[i] + 5, y))
  }

  /** `for i, val in enumerate(row): draw.text((col_x[i] + 5, y), val)` */
  method DrawCells(ops: seq<DrawOp>, texts: seq<string>, colX: seq<int>, y: int) returns (out: seq<DrawOp>)
    requires |texts| <= |colX|
    ensures out == ops + Cells(texts, colX, y)
  {
    out := ops;
    for i := 0 to |texts|
      invariant out == ops + Cells(texts[..i], colX, y)
    {
      out := out + [Text(texts[i], colX[i] + 5, y)];
      assert Cells(texts[..i + 1], colX, y) == Cells(texts[..i], colX, y) + [Text(texts[i], colX[i] + 5, y)];
    }
    assert texts[..|texts|] == texts;
  }

  /** The y of data row k (0-based): `y_start + 60`, then one line height
      per row. */
  function RowY(k: nat): int { DataStartY + k * LineHeight }

  lemma RowYValue(k: nat)
    ensures RowY(k) == 380 + 50 * k
  {
    assert k * LineHeight == k * 50;
  }

  /** What one data row draws at y: its six cells, then the grey separator
      `line_height - 10` below its top edge. */
  function RowBlock(row: Row, colX: seq<int>, y: int): seq<DrawOp>
    requires |colX| >= |Headers|
  {
    Cells(Fields(row), colX, y) + [Line(Margin, y + 40, colX[|colX| - 1], y + 40)]
  }

  /** The row tuples of a template: entry i (0-based) shows index i + 1 and
      the value `random_value` makes from its own draws. */
  function TemplateRows(template: seq<Item>, draws: seq<Draws>): seq<Row>
    requires |template| <= |draws|
  {
    seq(|template|, i requires 0 <= i < |template| =>
      RowTexts(i + 1, template[i], RandomValue(Low(template[i]), High(template[i]), draws[i])))
  }

  lemma TemplateRowAt(template: seq<Item>, draws: seq<Draws>, i: nat)
    requires i < |template| <= |draws|
    ensures TemplateRows(template, draws)[i]
         == RowTexts(i + 1, template[i], RandomValue(Low(template[i]), High(template[i]), draws[i]))
  {
  }

  /** The first k data rows, row i (0-based) at RowY(i). */
  function DataRows(colX: seq<int>, rows: seq<Row>, k: nat): seq<DrawOp>
    requires k <= |rows| && |colX| >= |Headers|
  {
    if k == 0 then [] else DataRows(colX, rows, k - 1) + RowBlock(rows[k - 1], colX, RowY(k - 1))
  }

  lemma DataRowsUnfold(colX: seq<int>, rows: seq<Row>, i: nat)
    requires i < |rows| && |colX| >= |Headers|
    ensures DataRows(colX, rows, i + 1) == DataRows(colX, rows, i) + RowBlock(rows[i], colX, RowY(i))
  {
  }

  lemma DataRowsNext(ops: seq<DrawOp>, before: seq<DrawOp>, after: seq<DrawOp>, colX: seq<int>, rows: seq<Row>, i: nat, row: Row)
    requires i < |rows| && |colX| >= |Headers| && rows[i] == row
    requires before == ops + DataRows(colX, rows, i)
    requires after == before + RowBlock(row, colX, RowY(i))
    ensures after == ops + DataRows(colX, rows, i + 1)
  {
    DataRowsUnfold(colX, rows, i);
  }

  /** One pass of the data loop of `generate_one`: draw a value for the
      entry, classify it, draw the six cells at y, advance y by the line
      height and draw the separator 10px above the new y. */
  method DrawDataRow(ops: seq<DrawOp>, colX: seq<int>, idx: nat, x: Item, d: Draws, y: int)
    returns (out: seq<DrawOp>, yNext: int)
    requires |colX| >= |Headers|
    ensures out == ops + RowBlock(RowTexts(idx, x, RandomValue(Low(x), High(x), d)), colX, y)
    ensures yNext == y + LineHeight
  {
    var low, high := Low(x), High(x);
    // random_value returns round(v, 2); v is kept and the rounding
    // applied where the value is compared and printed.
    var v := RandomValue(low, high, d);
    var value := Rounded(v);
    var tip := "";
    if value < low {
      tip := "↓";
    } else if value > high {
      tip := "↑";
    }
    var row := Row(NatText(idx), x.name, Repr2(v), x.unit, NumText(x.low) + "-" + NumText(x.high), tip);
    out := DrawCells(ops, Fields(row), colX, y);
    yNext := y + LineHeight;
    out := out + [Line(Margin, yNext - 10, colX[|colX| - 1], yNext - 10)];
  }

  /** The data loop of `generate_one`, entries in catalog order, index from 1. */
  method DrawDataRows(ops: seq<DrawOp>, colX: seq<int>, template: seq<Item>, draws: seq<Draws>)
    returns (out: seq<DrawOp>)
    requires |template| <= |draws| && |colX| >= |Headers|
    ensures out == ops + DataRows(colX, TemplateRows(template, draws), |template|)
  {
    ghost var rows := TemplateRows(template, draws);
    out := ops;
    var y := DataStartY;
    for i := 0 to |template|
      invariant y == RowY(i)
      invariant out == ops + DataRows(colX, rows, i)
    {
      ghost var before := out;
      ghost var row := RowTexts(i + 1, template[i], RandomValue(Low(template[i]), High(template[i]), draws[i]));
      TemplateRowAt(template, draws, i);
      out, y := DrawDataRow(out, colX, i + 1, template[i], draws[i], y);
      DataRowsNext(ops, before, out, colX, rows, i, row);
      RowYValue(i);
      RowYValue(i + 1);
    }
  }

  /** The first k rows are a prefix of the first m, for k <= m. */
  lemma {:induction false} DataRowsPrefix(colX: seq<int>, rows: seq<Row>, k: nat, m: nat)
    requires k <= m <= |rows| && |colX| >= |Headers|
    ensures var small := DataRows(colX, rows, k);
      var big := DataRows(colX, rows, m);
      |small| <= |big| && big[..|small|] == small
  {
    if k < m {
      DataRowsPrefix(colX, rows, k, m - 1);
      DataRowsUnfold(colX, rows, m - 1);
      PrefixThrough(DataRows(colX, rows, k), DataRows(colX, rows, m - 1), RowBlock(rows[m - 1], colX, RowY(m - 1)));
    }
  }

  /** Data row idx = i + 1 (1-based) is drawn right after the rows before
      it: its cells at y = 380 + 50 (idx - 1), each 5px into its column, and
      then a separator at 380 + 50 idx - 10 across the table; what is drawn
      up to there is the start of the table body. */
  lemma DataRowAt(colX: seq<int>, rows: seq<Row>, i: nat)
    requires i < |rows| && |colX| >= |Headers|
    ensures DataRows(colX, rows, i + 1) == DataRows(colX, rows, i)
              + Cells(Fields(rows[i]), colX, 380 + 50 * i)
              + [Line(50, 380 + 50 * (i + 1) - 10, colX[|colX| - 1], 380 + 50 * (i + 1) - 10)]
    ensures var upTo := DataRows(colX, rows, i + 1);
      var all := DataRows(colX, rows, |rows|);
      |upTo| <= |all| && all[..|upTo|] == upTo
  {
    DataRowsPrefix(colX, rows, i + 1, |rows|);
    DataRowsUnfold(colX, rows, i);
    RowBlockAt(rows[i], colX, i);
    var prev := DataRows(colX, rows, i);
    var cells := Cells(Fields(rows[i]), colX, 380 + 50 * i);
    var sep := [Line(50, 380 + 50 * (i + 1) - 10, colX[|colX| - 1], 380 + 50 * (i + 1) - 10)];
    assert prev + (cells + sep) == prev + cells + sep;
  }

  /** Row i's block: its cells at 380 + 50 i, the separator 40px lower. */
  lemma RowBlockAt(row: Row, colX: seq<int>, i: nat)
    requires |colX| >= |Headers|
    ensures RowBlock(row, colX, RowY(i))
         == Cells(Fields(row), colX, 380 + 50 * i) + [Line(50, 380 + 50 * (i + 1) - 10, colX[|colX| - 1], 380 + 50 * (i + 1) - 10)]
  {
    RowYValue(i);
  }

  /** The cells of a row are its fields, field i at col_x[i] + 5. */
  lemma CellsAt(row: seq<string>, colX: seq<int>, y: int, i: nat)
    requires |row| <= |colX| && i < |row|
    ensures Cells(row, colX, y)[i] == Text(row[i], colX[i] + 5, y)
  {
  }

  // ---------------------------------------------------------------------
  // generate_one
  // ---------------------------------------------------------------------

  /** The per-report inputs from outside: age (randint(18, 70)), patient
      number (randint(10000, 99999)), the formatted report time, and the
      draws for each catalog entry. */
  datatype PatientDraws = PatientDraws(age: nat, caseNo: nat, time: string, draws: seq<Draws>)

  predicate DrawsFit(g: Generator, p: PatientDraws) { |p.draws| == |g.template| }

  function InfoLines(name: string, age: nat, caseNo: nat): seq<string>
  {
    ["姓名: " + name, "性别: 男", "年龄: " + NatText(age), "病员号: " + NatText(caseNo), "科室: 门诊抽血室", "标本: 静脉血"]
  }

  /** What `generate_one` draws before the data rows: the title, the
      patient block, both times, the header cells and the rule under them. */
  function ReportHead(g: Generator, name: string, p: PatientDraws): seq<DrawOp>
  {
    var colX := ColX(Margin, ColWidths);
    [Text(Title, g.width / 2 - 250, 40)]
    + Stacked(InfoLines(name, p.age, p.caseNo), Margin, 120, 30)
    + [Text("送检时间: " + p.time, g.width - 400, 120), Text("报告时间: " + p.time, g.width - 400, 160)]
    + Cells(Headers, colX, YStart)
    + [Line(Margin, YStart + 40, colX[|colX| - 1], YStart + 40)]
  }

  /** The footer: tester, reviewer and the disclaimer, 120px and 80px above
      the bottom edge. */
  function ReportFoot(g: Generator): seq<DrawOp>
  {
    [Text("检验者: 李技师", Margin, g.height - 120), Text("审核者: 曹大夫", Margin + 300, g.height - 120),
     Text("本报告仅对本次送检标本负责", Margin, g.height - 80)]
  }

  /** Everything `generate_one` draws, in call order. */
  function OneReport(g: Generator, name: string, p: PatientDraws): seq<DrawOp>
    requires DrawsFit(g, p)
  {
    ReportHead(g, name, p)
    + DataRows(ColX(Margin, ColWidths), TemplateRows(g.template, p.draws), |g.template|)
    + ReportFoot(g)
  }

  method DrawHead(g: Generator, name: string, p: PatientDraws) returns (ops: seq<DrawOp>, colX: seq<int>)
    ensures ops == ReportHead(g, name, p)
    ensures colX == ColX(Margin, ColWidths)
  {
    ops := [Text(Title, g.width / 2 - 250, 40)];
    ops := DrawStacked(ops, InfoLines(name, p.age, p.caseNo), Margin, 120, 30);
    ops := ops + [Text("送检时间: " + p.time, g.width - 400, 120)];
    ops := ops + [Text("报告时间: " + p.time, g.width - 400, 160)];
    colX := ColumnOffsets(Margin, ColWidths);
    ops := DrawCells(ops, Headers, colX, YStart);
    ops := ops + [Line(Margin, YStart + 40, colX[|colX| - 1], YStart + 40)];
  }

  method DrawFoot(ops: seq<DrawOp>, g: Generator) returns (out: seq<DrawOp>)
    ensures out == ops + ReportFoot(g)
  {
    out := ops + [Text("检验者: 李技师", Margin, g.height - 120)];
    out := out + [Text("审核者: 曹大夫", Margin + 300, g.height - 120)];
    out := out + [Text("本报告仅对本次送检标本负责", Margin, g.height - 80)];
  }

  method GenerateOne(g: Generator, name: string, p: PatientDraws) returns (ops: seq<DrawOp>)
    requires DrawsFit(g, p)
    ensures ops == OneReport(g, name, p)
  {
    var colX;
    ops, colX := DrawHead(g, name, p);
    ColXShape(Margin, ColWidths);
    ops := DrawDataRows(ops, colX, g.template, p.draws);
    ops := DrawFoot(ops, g);
  }

  /** With the default page the header rule and every data row lie between
      the patient block and the footer: the last separator is at
      380 + 25 * 50 - 10 = 1620, above the footer at 1680. */
  lemma DefaultPageFits()
    ensures RowY(|DefaultGenerator.template| - 1) + 40 < DefaultGenerator.height - 120
    ensures 120 + 5 * 30 < YStart
  {
    TemplateShape();
    RowYValue(24);
  }

  // ---------------------------------------------------------------------
  // generate_batch
  // ---------------------------------------------------------------------

  /** `os.path.join(dir, file)` for a relative file name, POSIX rules. */
  function PathJoin(dir: string, file: string): string
  {
    if dir == [] || dir[|dir| - 1] == '/' then dir + file else dir + "/" + file
  }

  function PatientName(i: nat): string { "病人" + NatText(i) }

  function ReportName(i: nat): string { "report_" + NatText(i) + ".png" }

  function ReportPath(dir: string, i: nat): string { PathJoin(dir, ReportName(i)) }

  lemma PathJoinInjective(dir: string, a: string, b: string)
    requires PathJoin(dir, a) == PathJoin(dir, b)
    ensures a == b
  {
    if dir == [] || dir[|dir| - 1] == '/' {
      CancelPrefix(dir, a, b);
    } else {
      CancelPrefix(dir + "/", a, b);
    }
  }

  /** Different numbers give different patient names and different paths. */
  lemma BatchNamesDistinct(dir: string, i: nat, j: nat)
    requires i != j
    ensures PatientName(i) != PatientName(j)
    ensures ReportPath(dir, i) != ReportPath(dir, j)
  {
    if PatientName(i) == PatientName(j) {
      CancelPrefix("病人", NatText(i), NatText(j));
      NatTextInjective(i, j);
    }
    if ReportPath(dir, i) == ReportPath(dir, j) {
      PathJoinInjective(dir, ReportName(i), ReportName(j));
      CancelSuffix("report_" + NatText(i), "report_" + NatText(j), ".png");
      CancelPrefix("report_", NatText(i), NatText(j));
      NatTextInjective(i, j);
    }
  }

  /** One generated file: where it goes and what is drawn on it. */
  datatype ReportFile = ReportFile(path: string, ops: seq<DrawOp>)

  /** The drawings of a batch: report i (0-based) is `generate_one` for
      patient "病人(i+1)" on the i-th inputs. */
  function Reports(g: Generator, inputs: seq<PatientDraws>): seq<seq<DrawOp>>
    requires forall i :: 0 <= i < |inputs| ==> DrawsFit(g, inputs[i])
  {
    seq(|inputs|, i requires 0 <= i < |inputs| => OneReport(g, PatientName(i + 1), inputs[i]))
  }

  /** The first k files a batch writes, report i + 1 to `report_(i+1).png`. */
  function Batch(dir: string, reports: seq<seq<DrawOp>>, k: nat): (r: seq<ReportFile>)
    requires k <= |reports|
    ensures |r| == k
  {
    if k == 0 then [] else Batch(dir, reports, k - 1) + [ReportFile(ReportPath(dir, k), reports[k - 1])]
  }

  /** File i of a batch holds report i under the path numbered i + 1. */
  lemma {:induction false} BatchAt(dir: string, reports: seq<seq<DrawOp>>, k: nat, i: nat)
    requires i < k <= |reports|
    ensures Batch(dir, reports, k)[i] == ReportFile(ReportPath(dir, i + 1), reports[i])
  {
    if i < k - 1 {
      BatchAt(dir, reports, k - 1, i);
    }
  }

  /** No two files of a batch share a path. */
  lemma BatchPathsDistinct(dir: string, reports: seq<seq<DrawOp>>, k: nat, i: nat, j: nat)
    requires i < j < k <= |reports|
    ensures Batch(dir, reports, k)[i].path != Batch(dir, reports, k)[j].path
  {
    BatchAt(dir, reports, k, i);
    BatchAt(dir, reports, k, j);
    BatchNamesDistinct(dir, i + 1, j + 1);
  }

  /** `generate_batch(n, output_dir)`: for i from 1 to n, draw the report
      of patient "病人i" and save it as `output_dir/report_i.png`. The loop
      below counts from 0 and numbers the report i + 1. */
  method GenerateBatch(g: Generator, n: nat, dir: string, inputs: seq<PatientDraws>)
    returns (files: seq<ReportFile>)
    requires |inputs| == n && forall i :: 0 <= i < n ==> DrawsFit(g, inputs[i])
    ensures files == Batch(dir, Reports(g, inputs), n)
  {
    ghost var reports := Reports(g, inputs);
    files := [];
    for i := 0 to n
      invariant files == Batch(dir, reports, i)
    {
      var name := PatientName(i + 1);
      var filePath := PathJoin(dir, ReportName(i + 1));
      var ops := GenerateOne(g, name, inputs[i]);
      assert ops == reports[i];
      files := files + [ReportFile(filePath, ops)];
    }
  }
}

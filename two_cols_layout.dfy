/** The layout side of the two-column report (generate_two_cols.py): where
    `draw_table_row` puts each cell of a result row, how
    `create_report_image` stacks title, patient block, table and footer, and
    the per-patient loop of `generate_report`. Text extents come from the
    font library and are inputs: the title's size, and a `measure` function
    for the width of a result text in the table font. */
module TwoColLayout {
  import opened PyText
  import opened PyFloat
  import opened PyRandom
  import opened Canvas
  import opened TwoColValues

  const Width: int := 2480
  const Margin: int := 80
  const InfoLineHeight: int := 45
  const RowHeight: int := 42
  const ColWidths: seq<int> := [160, 250, 120, 120, 140]
  const Headers: seq<string> := ["序号代码", "项目名称", "结果", "单位", "参考值"]
  const Title: string := "知己知医血常规报告单"

  /** x of the left and right patient-info columns: margin, and margin plus
      half of the width left after three margins, plus 50. */
  const LeftInfoX: int := Margin
  const RightInfoX: int := Margin + (Width - 3 * Margin) / 2 + 50

  /** x where the left and right result tables start. */
  const LeftTableStart: int := Margin
  const RightTableStart: int := Width / 2 - 60

  lemma LayoutConstants()
    ensures RightInfoX == 1250 && RightTableStart == 1180
    ensures Sum(ColWidths) == 790
    ensures LeftTableStart + Sum(ColWidths) < RightTableStart
  {
    SumStep(ColWidths, 0);
    SumStep(ColWidths, 1);
    SumStep(ColWidths, 2);
    SumStep(ColWidths, 3);
    SumStep(ColWidths, 4);
    assert ColWidths[..0] == [];
    assert ColWidths[..5] == ColWidths;
  }

  // ---------------------------------------------------------------------
  // draw_table_row
  // ---------------------------------------------------------------------

  /** The glyph drawn for a non-zero status. */
  function Arrow(status: int): string { if status == 1 then "↑" else "↓" }

  /** `f"{seq} {code}"`. */
  function CodeText(row: ResultRow): string { NatText(row.seqNo) + " " + row.code }

  /** The drawing calls of `draw_table_row(row, start_x, y, col_widths)`, in
      call order. The result is always a float, so its text is `.2f`. */
  function RowOps(row: ResultRow, startX: int, y: int, widths: seq<int>, measure: string -> int): seq<DrawOp>
    requires |widths| >= 4
  {
    var x2 := startX + widths[0] + widths[1];
    var x3 := x2 + widths[2];
    var text := Fixed2(row.value);
    [Text(CodeText(row), startX + 10, y), Text(row.name, startX + widths[0] + 10, y),
     Text(text, x2 + (widths[2] - measure(text)) / 2 - 20, y)]
    + (if row.status != 0 then [Text(Arrow(row.status), x3 - 30, y)] else [])
    + [Text(row.unit, x3 + 10, y), Text(row.ref, x3 + widths[3] + 10, y)]
  }

  /** `draw_table_row`, advancing x column by column as the source does. */
  method DrawTableRow(ops: seq<DrawOp>, row: ResultRow, startX: int, y: int, widths: seq<int>, measure: string -> int)
    returns (out: seq<DrawOp>)
    requires |widths| >= 4
    ensures out == ops + RowOps(row, startX, y, widths, measure)
  {
    var x := startX;
    out := ops + [Text(CodeText(row), x + 10, y)];
    x := x + widths[0];
    out := out + [Text(row.name, x + 10, y)];
    x := x + widths[1];
    var resultText := Fixed2(row.value);
    var resultWidth := measure(resultText);
    // Python's `//` floors; Dafny's `/` by a positive divisor does too.
    var resultX := x + (widths[2] - resultWidth) / 2 - 20;
    out := out + [Text(resultText, resultX, y)];
    if row.status != 0 {
      var arrowX := x + widths[2] - 30;
      out := out + [Text(Arrow(row.status), arrowX, y)];
    }
    x := x + widths[2];
    out := out + [Text(row.unit, x + 10, y)];
    x := x + widths[3];
    out := out + [Text(row.ref, x + 10, y)];
  }

  /** Where the cells of a row go: code, name, unit and reference each 10px
      into their own column (whose left edge is start plus the widths before
      it); the result centred in its column and pulled 20px left; an arrow,
      ↑ for status 1 and ↓ otherwise, exactly when the status is not 0, 30px
      before the unit column; every cell on the row's y. */
  lemma RowLayout(row: ResultRow, startX: int, y: int, widths: seq<int>, measure: string -> int)
    requires |widths| >= 4
    ensures var ops := RowOps(row, startX, y, widths, measure);
      var text := Fixed2(row.value);
      var k := if row.status != 0 then 1 else 0;
      |ops| == 5 + k &&
      (forall j :: 0 <= j < |ops| ==> ops[j].Text? && ops[j].y == y) &&
      ops[0] == Text(CodeText(row), startX + Sum(widths[..0]) + 10, y) &&
      ops[1] == Text(row.name, startX + Sum(widths[..1]) + 10, y) &&
      ops[2] == Text(text, startX + Sum(widths[..2]) + (widths[2] - measure(text)) / 2 - 20, y) &&
      (row.status != 0 ==> ops[3] == Text(if row.status == 1 then "↑" else "↓", startX + Sum(widths[..3]) - 30, y)) &&
      ops[3 + k] == Text(row.unit, startX + Sum(widths[..3]) + 10, y) &&
      ops[4 + k] == Text(row.ref, startX + Sum(widths[..4]) + 10, y)
  {
    SumStep(widths, 0);
    SumStep(widths, 1);
    SumStep(widths, 2);
    SumStep(widths, 3);
  }

  /** The arrow shows up iff the status is non-zero: no row of status 0 has
      a fourth cell between result and unit. */
  lemma ArrowIffAbnormal(row: ResultRow, startX: int, y: int, widths: seq<int>, measure: string -> int)
    requires |widths| >= 4
    ensures |RowOps(row, startX, y, widths, measure)| == 6 <==> row.status != 0
  {
    RowLayout(row, startX, y, widths, measure);
  }

  // ---------------------------------------------------------------------
  // The table body of create_report_image
  // ---------------------------------------------------------------------

  /** Line i of the table: the left row if the left list is long enough,
      then the right row if the right list is. */
  function TableLine(left: seq<ResultRow>, right: seq<ResultRow>, i: nat, y: int, measure: string -> int): seq<DrawOp>
  {
    (if i < |left| then RowOps(left[i], LeftTableStart, y, ColWidths, measure) else [])
    + (if i < |right| then RowOps(right[i], RightTableStart, y, ColWidths, measure) else [])
  }

  /** The y of table line i: `y_position + i * row_height`. */
  function LineY(y0: int, i: nat): int { y0 + i * RowHeight }

  /** Consecutive lines are one row pitch apart. */
  lemma LineYStep(y0: int, i: nat)
    ensures LineY(y0, i) >= y0 && LineY(y0, i + 1) == LineY(y0, i) + 42
  {
    assert i * RowHeight == i * 42;
    assert (i + 1) * RowHeight == (i + 1) * 42;
  }

  /** The first k lines of the table, line i at y0 + 42 i. */
  function TableRows(left: seq<ResultRow>, right: seq<ResultRow>, y0: int, measure: string -> int, k: nat): seq<DrawOp>
  {
    if k == 0 then []
    else TableRows(left, right, y0, measure, k - 1) + TableLine(left, right, k - 1, LineY(y0, k - 1), measure)
  }

  lemma TableRowsNext(left: seq<ResultRow>, right: seq<ResultRow>, y0: int, measure: string -> int, i: nat)
    ensures TableRows(left, right, y0, measure, i + 1)
         == TableRows(left, right, y0, measure, i) + TableLine(left, right, i, LineY(y0, i), measure)
  {
  }

  /** Drawing line i after the first i lines gives the first i + 1. */
  lemma TableRowsStep(ops: seq<DrawOp>, before: seq<DrawOp>, after: seq<DrawOp>,
                      left: seq<ResultRow>, right: seq<ResultRow>, y0: int, measure: string -> int, i: nat)
    requires before == ops + TableRows(left, right, y0, measure, i)
    requires after == before + TableLine(left, right, i, LineY(y0, i), measure)
    ensures after == ops + TableRows(left, right, y0, measure, i + 1)
  {
  }

  /** The table body: max(len(left), len(right)) lines, one after another. */
  function TableOps(left: seq<ResultRow>, right: seq<ResultRow>, y0: int, measure: string -> int): seq<DrawOp>
  {
    TableRows(left, right, y0, measure, Max(|left|, |right|))
  }

  /** One iteration of the table loop: the left row, then the right row,
      each only if its list reaches that far. */
  method DrawTableLine(ops: seq<DrawOp>, left: seq<ResultRow>, right: seq<ResultRow>, i: nat, y: int, measure: string -> int)
    returns (out: seq<DrawOp>)
    ensures out == ops + TableLine(left, right, i, y, measure)
  {
    out := ops;
    if i < |left| {
      out := DrawTableRow(out, left[i], LeftTableStart, y, ColWidths, measure);
    }
    if i < |right| {
      out := DrawTableRow(out, right[i], RightTableStart, y, ColWidths, measure);
    }
  }

  /** `for i in range(max_lines): current_y = y_position + i * row_height ...` */
  method DrawTable(ops: seq<DrawOp>, left: seq<ResultRow>, right: seq<ResultRow>, y0: int, measure: string -> int)
    returns (out: seq<DrawOp>)
    ensures out == ops + TableOps(left, right, y0, measure)
  {
    var maxLines := Max(|left|, |right|);
    out := ops;
    for i := 0 to maxLines
      invariant out == ops + TableRows(left, right, y0, measure, i)
    {
      var currentY := LineY(y0, i);
      ghost var before := out;
      out := DrawTableLine(out, left, right, i, currentY, measure);
      TableRowsStep(ops, before, out, left, right, y0, measure, i);
    }
  }

  /** The first k lines are a prefix of the first m, for k <= m. */
  lemma {:induction false} TableRowsPrefix(left: seq<ResultRow>, right: seq<ResultRow>, y0: int, measure: string -> int, k: nat, m: nat)
    requires k <= m
    ensures var big := TableRows(left, right, y0, measure, m);
      |TableRows(left, right, y0, measure, k)| <= |big| &&
      big[..|TableRows(left, right, y0, measure, k)|] == TableRows(left, right, y0, measure, k)
  {
    if k < m {
      TableRowsPrefix(left, right, y0, measure, k, m - 1);
      TableRowsNext(left, right, y0, measure, m - 1);
      PrefixThrough(TableRows(left, right, y0, measure, k), TableRows(left, right, y0, measure, m - 1),
                    TableLine(left, right, m - 1, LineY(y0, m - 1), measure));
    }
  }

  /** Line i of the table is drawn right after lines 0..i-1, at y0 + 42 i,
      and holds the left row iff i < len(left) and the right row iff
      i < len(right); what is drawn up to there is the start of the table. */
  lemma TableLineAt(left: seq<ResultRow>, right: seq<ResultRow>, y0: int, measure: string -> int, i: nat)
    requires i < Max(|left|, |right|)
    ensures var upTo := TableRows(left, right, y0, measure, i + 1);
      var table := TableOps(left, right, y0, measure);
      upTo == TableRows(left, right, y0, measure, i)
              + (if i < |left| then RowOps(left[i], LeftTableStart, LineY(y0, i), ColWidths, measure) else [])
              + (if i < |right| then RowOps(right[i], RightTableStart, LineY(y0, i), ColWidths, measure) else []) &&
      |upTo| <= |table| && table[..|upTo|] == upTo
  {
    TableRowsPrefix(left, right, y0, measure, i + 1, Max(|left|, |right|));
    var a := if i < |left| then RowOps(left[i], LeftTableStart, LineY(y0, i), ColWidths, measure) else [];
    var b := if i < |right| then RowOps(right[i], RightTableStart, LineY(y0, i), ColWidths, measure) else [];
    var before := TableRows(left, right, y0, measure, i);
    TableRowsNext(left, right, y0, measure, i);
    assert TableLine(left, right, i, LineY(y0, i), measure) == a + b;
    assert before + (a + b) == before + a + b;
  }

  /** Every cell of one table line is a text on that line's y. */
  lemma LineOnRow(left: seq<ResultRow>, right: seq<ResultRow>, i: nat, y: int, measure: string -> int)
    ensures TextsWithin(TableLine(left, right, i, y, measure), y, y + 1)
  {
    if i < |left| { RowLayout(left[i], LeftTableStart, y, ColWidths, measure); }
    if i < |right| { RowLayout(right[i], RightTableStart, y, ColWidths, measure); }
    var a := if i < |left| then RowOps(left[i], LeftTableStart, y, ColWidths, measure) else [];
    var b := if i < |right| then RowOps(right[i], RightTableStart, y, ColWidths, measure) else [];
    TextsWithinAppend(a, b, y, y + 1);
  }

  /** Every table cell is a text whose y lies on one of the lines:
      y0 <= y < y0 + 42 k for the first k lines, that is above the y
      where line k would go. */
  lemma {:induction false} TableBand(left: seq<ResultRow>, right: seq<ResultRow>, y0: int, measure: string -> int, k: nat)
    ensures TextsWithin(TableRows(left, right, y0, measure, k), y0, LineY(y0, k))
  {
    if k > 0 {
      var i := k - 1;
      LineYStep(y0, i);
      TableBand(left, right, y0, measure, i);
      var prev := TableRows(left, right, y0, measure, i);
      var line := TableLine(left, right, i, LineY(y0, i), measure);
      LineOnRow(left, right, i, LineY(y0, i), measure);
      TextsWithinAppend(prev, line, y0, LineY(y0, i + 1));
      TableRowsNext(left, right, y0, measure, i);
    }
  }

  // ---------------------------------------------------------------------
  // create_report_image
  // ---------------------------------------------------------------------

  /** The patient record the patient-info synthesizer produces. */
  datatype PatientInfo = PatientInfo(
    name: string, caseNo: string, fee: string, specimenNo: string, gender: string,
    department: string, physician: string, barcode: string, age: string, bed: string,
    specimenKind: string, diagnosis: string)

  /** The footer's varying parts: two timestamps and two staff names. */
  datatype Footer = Footer(modifyTime: string, reportTime: string, tester: string, reviewer: string)

  function LeftInfo(p: PatientInfo): seq<string>
  {
    ["姓    名：" + p.name, "病    案：" + p.caseNo, "费    别：" + p.fee, "标本编号：" + p.specimenNo,
     "性    别：" + p.gender, "申请科室：" + p.department, "送检医师：" + p.physician]
  }

  function RightInfo(p: PatientInfo): seq<string>
  {
    ["条码编号：" + p.barcode, "年    龄：" + p.age, "床    号：" + p.bed,
     "标本种类：" + p.specimenKind, "临床诊断：" + p.diagnosis]
  }

  function BottomInfo(f: Footer): seq<string>
  {
    ["修改时间：" + f.modifyTime, "报告时间：" + f.reportTime, "检验者：" + f.tester,
     "审核者：" + f.reviewer, "", "备注：", "此结果仅对本样本负责！"]
  }

  /** The y of each band of the page. */
  datatype Frame = Frame(title: int, info: int, header: int, rule: int, rows: int, footer: int)

  /** The bands for a title of the given height, `infoLines` patient lines
      per column at most and `tableLines` table lines. */
  function PageFrame(titleHeight: int, infoLines: nat, tableLines: nat): Frame
  {
    var title := Margin;
    var info := title + titleHeight + 60;
    var header := info + infoLines * InfoLineHeight + 80;
    var rule := header + 60;
    var rows := rule + 40;
    Frame(title, info, header, rule, rows, rows + (tableLines + 2) * RowHeight + 60)
  }

  /** The bands come in page order and do not overlap: the last patient line
      ends above the header, the separator lies between header and first
      row, and the footer starts more than two row pitches below the last
      table line. */
  lemma FrameStacking(titleHeight: int, infoLines: nat, tableLines: nat)
    requires titleHeight >= 0
    ensures var f := PageFrame(titleHeight, infoLines, tableLines);
      f.title < f.info <= f.header - 80 &&
      (forall i :: 0 <= i < infoLines ==> f.info + i * InfoLineHeight < f.header) &&
      f.header < f.rule < f.rows &&
      (forall i :: 0 <= i < tableLines ==> f.rows + i * RowHeight + 2 * RowHeight < f.footer)
  {
  }

  /** On the page, the whole table lies below the separator rule and above
      the footer. */
  lemma TableBetweenRuleAndFooter(titleHeight: int, infoLines: nat, left: seq<ResultRow>, right: seq<ResultRow>, measure: string -> int)
    requires titleHeight >= 0
    ensures var f := PageFrame(titleHeight, infoLines, Max(|left|, |right|));
      TextsWithin(TableOps(left, right, f.rows, measure), f.rule + 1, f.footer)
  {
    var n := Max(|left|, |right|);
    var f := PageFrame(titleHeight, infoLines, n);
    TableBand(left, right, f.rows, measure, n);
    assert n * RowHeight == n * 42 && (n + 2) * RowHeight == n * 42 + 84;
    assert LineY(f.rows, n) < f.footer;
  }

  /** Everything `create_report_image` draws, in call order. */
  function ReportOps(p: PatientInfo, footer: Footer, left: seq<ResultRow>, right: seq<ResultRow>,
                     titleWidth: int, titleHeight: int, measure: string -> int): seq<DrawOp>
  {
    var f := PageFrame(titleHeight, Max(|LeftInfo(p)|, |RightInfo(p)|), Max(|left|, |right|));
    [Text(Title, (Width - titleWidth) / 2, f.title)]
    + Stacked(LeftInfo(p), LeftInfoX, f.info, InfoLineHeight)
    + Stacked(RightInfo(p), RightInfoX, f.info, InfoLineHeight)
    + Columns(Headers, LeftTableStart, ColWidths, f.header)
    + Columns(Headers, RightTableStart, ColWidths, f.header)
    + [Line(Margin, f.rule, Width - Margin, f.rule)]
    + TableOps(left, right, f.rows, measure)
    + Stacked(BottomInfo(footer), Margin, f.footer, InfoLineHeight)
  }

  /** `create_report_image`, advancing `y_position` band by band. */
  method CreateReportImage(p: PatientInfo, footer: Footer, left: seq<ResultRow>, right: seq<ResultRow>,
                           titleWidth: int, titleHeight: int, measure: string -> int)
    returns (ops: seq<DrawOp>)
    ensures ops == ReportOps(p, footer, left, right, titleWidth, titleHeight, measure)
  {
    var yPosition := Margin;
    ops := [Text(Title, (Width - titleWidth) / 2, yPosition)];
    yPosition := yPosition + titleHeight + 60;

    var leftInfo := LeftInfo(p);
    var rightInfo := RightInfo(p);
    ops := DrawStacked(ops, leftInfo, LeftInfoX, yPosition, InfoLineHeight);
    ops := DrawStacked(ops, rightInfo, RightInfoX, yPosition, InfoLineHeight);
    yPosition := yPosition + Max(|leftInfo|, |rightInfo|) * InfoLineHeight + 80;

    ops := DrawColumns(ops, Headers, LeftTableStart, ColWidths, yPosition);
    ops := DrawColumns(ops, Headers, RightTableStart, ColWidths, yPosition);
    yPosition := yPosition + 60;

    ops := ops + [Line(Margin, yPosition, Width - Margin, yPosition)];
    yPosition := yPosition + 40;

    var maxLines := Max(|left|, |right|);
    ops := DrawTable(ops, left, right, yPosition, measure);
    yPosition := yPosition + (maxLines + 2) * RowHeight + 60;

    ops := DrawStacked(ops, BottomInfo(footer), Margin, yPosition, InfoLineHeight);
  }

  // ---------------------------------------------------------------------
  // generate_report
  // ---------------------------------------------------------------------

  /** The generator's two catalogs (`self.projects_left`, `self.projects_right`). */
  datatype Catalogs = Catalogs(left: seq<Project>, right: seq<Project>)

  const Standard: Catalogs := Catalogs(ProjectsLeft, ProjectsRight)

  /** What one iteration of `generate_report` takes from outside: the
      synthesized patient and footer, and the draws for each catalog item. */
  datatype PatientInput = PatientInput(info: PatientInfo, footer: Footer, leftDraws: seq<Draws>, rightDraws: seq<Draws>)

  predicate DrawsFit(c: Catalogs, q: PatientInput)
  {
    |q.leftDraws| == |c.left| && |q.rightDraws| == |c.right|
  }

  /** The image of one patient: both result lists from the catalogs, with
      that patient's gender, then the page layout. */
  function PatientReport(c: Catalogs, q: PatientInput, titleWidth: int, titleHeight: int, measure: string -> int): seq<DrawOp>
    requires DrawsFit(c, q)
  {
    ReportOps(q.info, q.footer,
              Results(c.left, q.info.gender, q.leftDraws),
              Results(c.right, q.info.gender, q.rightDraws),
              titleWidth, titleHeight, measure)
  }

  /** The body of the per-patient loop: results for both catalogs, then
      the image. */
  method GeneratePatient(c: Catalogs, q: PatientInput, titleWidth: int, titleHeight: int, measure: string -> int)
    returns (image: seq<DrawOp>)
    requires DrawsFit(c, q)
    ensures image == PatientReport(c, q, titleWidth, titleHeight, measure)
  {
    var leftResults := BuildResults(c.left, q.info.gender, q.leftDraws);
    var rightResults := BuildResults(c.right, q.info.gender, q.rightDraws);
    image := CreateReportImage(q.info, q.footer, leftResults, rightResults, titleWidth, titleHeight, measure);
  }

  /** `generate_report(patient_count)`: one image per patient, in order. */
  method GenerateReport(c: Catalogs, patients: seq<PatientInput>, titleWidth: int, titleHeight: int, measure: string -> int)
    returns (images: seq<seq<DrawOp>>)
    requires forall i :: 0 <= i < |patients| ==> DrawsFit(c, patients[i])
    ensures |images| == |patients|
    ensures forall i :: 0 <= i < |patients| ==> images[i] == PatientReport(c, patients[i], titleWidth, titleHeight, measure)
  {
    ghost var reports := seq(|patients|, j requires 0 <= j < |patients| => PatientReport(c, patients[j], titleWidth, titleHeight, measure));
    images := [];
    for i := 0 to |patients|
      invariant images == reports[..i]
    {
      var image := GeneratePatient(c, patients[i], titleWidth, titleHeight, measure);
      assert image == reports[i];
      TakeOneMore(reports, i);
      images := images + [image];
    }
    assert reports[..|patients|] == reports;
  }

  /** In every report the left table has 13 lines and the right 12, so the
      table has 13 lines and its last line holds only a left row. */
  lemma ReportTableShape(q: PatientInput, measure: string -> int, y0: int)
    requires DrawsFit(Standard, q)
    ensures var left := Results(ProjectsLeft, q.info.gender, q.leftDraws);
      var right := Results(ProjectsRight, q.info.gender, q.rightDraws);
      Max(|left|, |right|) == 13 &&
      TableLine(left, right, 12, y0 + 12 * 42, measure) == RowOps(left[12], LeftTableStart, y0 + 12 * 42, ColWidths, measure)
  {
  }
}

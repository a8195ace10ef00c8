/** The value side of the two-column report (generate_two_cols.py): the test
    catalog, the reference-range parser, the value synthesizer with its
    status code, the ESR special case, and the result lists built from the
    catalog. */
module TwoColValues {
  import opened PyText
  import opened PyFloat
  import opened PyRandom

  const Male: string := "男"
  const Female: string := "女"

  /** The full-width colon that separates a gender label from its range. */
  const FullColon: char := '：'

  /** What `parse_reference_range` returns when it cannot read two numbers. */
  const Fallback: (real, real) := (0.0, 100.0)

  /** The default `variation_chance` every generator uses. */
  const VariationChance: real := 0.2

  // ---------------------------------------------------------------------
  // parse_reference_range
  // ---------------------------------------------------------------------

  /** `parts = ref_str.split("：")`, then `parts[1]` when there are several. */
  function AfterColon(refStr: string): string
  {
    var parts := Split(refStr, FullColon);
    if |parts| > 1 then parts[1] else refStr
  }

  /** The "low-high" step: split on '-', require exactly two pieces that
      float() accepts, otherwise the fallback. */
  function ParseDashPair(s: string): (real, real)
  {
    if '-' in s then
      var parts := Split(s, '-');
      if |parts| == 2 then
        match (ParseDecimal(parts[0]), ParseDecimal(parts[1]))
        case (Some(low), Some(high)) => (low, high)
        case _ => Fallback
      else Fallback
    else Fallback
  }

  /** `parse_reference_range(ref_str, gender)`. The three colon branches all
      continue with `parts[1]`. Both bounds are non-negative: a piece of a
      '-' split holds no '-', so float() never sees a minus sign. */
  function ParseReferenceRange(refStr: string, gender: string): (r: (real, real))
    ensures r.0 >= 0.0 && r.1 >= 0.0
  {
    var s :=
      if FullColon in refStr then
        if gender == Male && '男' in refStr then AfterColon(refStr)
        else if gender == Female && '女' in refStr then AfterColon(refStr)
        else if FullColon in refStr then AfterColon(refStr)
        else refStr
      else refStr;
    DashPairNonNegative(s);
    ParseDashPair(s)
  }

  lemma DashPairNonNegative(s: string)
    ensures ParseDashPair(s).0 >= 0.0 && ParseDashPair(s).1 >= 0.0
  {
    if '-' in s {
      var parts := Split(s, '-');
      SplitPiecesFree(s, '-');
      if |parts| == 2 {
        assert '-' !in parts[0] && '-' !in parts[1];
        if parts[0] != [] { assert parts[0][0] != '-'; }
        if parts[1] != [] { assert parts[1][0] != '-'; }
      }
    }
  }

  /** With a full-width colon present, parsing goes on with the text between
      the first colon and the next one (or the end), whatever the gender
      argument and whatever gender label the text carries. */
  lemma ColonSelectsSecondPiece(refStr: string, gender: string)
    requires FullColon in refStr
    ensures |Split(refStr, FullColon)| >= 2
    ensures ParseReferenceRange(refStr, gender) == ParseDashPair(Split(refStr, FullColon)[1])
  {
    CountZero(refStr, FullColon);
    SplitLength(refStr, FullColon);
  }

  /** The gender argument never changes the parsed range. */
  lemma GenderIrrelevant(refStr: string, g1: string, g2: string)
    ensures ParseReferenceRange(refStr, g1) == ParseReferenceRange(refStr, g2)
  {
    if FullColon in refStr {
      ColonSelectsSecondPiece(refStr, g1);
      ColonSelectsSecondPiece(refStr, g2);
    }
  }

  /** Without a colon the whole text is the "low-high" part. */
  lemma NoColonParsesWhole(refStr: string, gender: string)
    requires FullColon !in refStr
    ensures ParseReferenceRange(refStr, gender) == ParseDashPair(refStr)
  {
  }

  /** A text with no '-' gives (0, 100), labelled with a '：' or not: no
      piece of it holds a '-' either. */
  lemma NoDashFallback(refStr: string, gender: string)
    requires '-' !in refStr
    ensures ParseReferenceRange(refStr, gender) == Fallback
  {
    if FullColon in refStr {
      ColonSelectsSecondPiece(refStr, gender);
      SplitPiecesLack(refStr, FullColon, '-');
    }
  }

  /** Unless the selected part has exactly one '-', the result is (0, 100):
      Python's tuple unpacking of `map(float, ...)` raises on any other
      number of pieces. */
  lemma WrongPieceCountFallback(s: string)
    requires Count(s, '-') != 1
    ensures ParseDashPair(s) == Fallback
  {
    SplitLength(s, '-');
  }

  /** One '-' but a piece float() rejects also gives (0, 100). */
  lemma UnparseablePieceFallback(s: string)
    requires |Split(s, '-')| == 2
    requires ParseDecimal(Split(s, '-')[0]).None? || ParseDecimal(Split(s, '-')[1]).None?
    ensures ParseDashPair(s) == Fallback
  {
    SplitLength(s, '-');
    CountZero(s, '-');
  }

  /** "L-H" with decimals L and H (neither starting with '-') parses to
      exactly (L, H): in the order written, never swapped. */
  lemma ParseLowHigh(lo: string, hi: string, gender: string, a: real, b: real)
    requires ParseDecimal(lo) == Some(a) && ParseDecimal(hi) == Some(b)
    requires '-' !in lo && '-' !in hi
    ensures ParseReferenceRange(lo + "-" + hi, gender) == (a, b)
  {
    LowHighHasNoColon(lo, hi);
    DashPairOf(lo, hi);
  }

  lemma DashPairOf(lo: string, hi: string)
    requires ParseDecimal(lo).Some? && ParseDecimal(hi).Some?
    requires '-' !in lo && '-' !in hi
    ensures ParseDashPair(lo + "-" + hi) == (ParseDecimal(lo).value, ParseDecimal(hi).value)
  {
    var s := lo + "-" + hi;
    SplitPair(lo, '-', hi);
    assert s[|lo|] == '-';
  }

  lemma LowHighHasNoColon(lo: string, hi: string)
    requires ParseDecimal(lo).Some? && ParseDecimal(hi).Some?
    ensures FullColon !in lo + "-" + hi
  {
    var s := lo + "-" + hi;
    DecimalCharacters(lo);
    DecimalCharacters(hi);
    NoColonIn(lo);
    NoColonIn(hi);
    assert FullColon !in s by {
      forall i | 0 <= i < |s| ensures s[i] != FullColon {
        if i < |lo| { assert s[i] == lo[i]; }
        else if i > |lo| { assert s[i] == hi[i - |lo| - 1]; }
      }
    }
  }

  lemma NoColonIn(s: string)
    requires ParseDecimal(s).Some?
    ensures FullColon !in s
  {
    DecimalCharacters(s);
  }

  // Concrete cases of the parser.

  /** float() of a literal integer text. */
  lemma ParseIntLiteral(n: nat, s: string)
    requires NatText(n) == s
    ensures ParseDecimal(s) == Some(n as real)
  {
    ParseNatText(n);
  }

  lemma ParsePlainExample()
    ensures forall g :: ParseReferenceRange("100-300", g) == (100.0, 300.0)
  {
    ParseIntLiteral(100, "100");
    ParseIntLiteral(300, "300");
    assert "100-300" == "100" + "-" + "300";
    assert FullColon !in "100-300";
    DashPairOf("100", "300");
  }

  lemma ParseDecimalExample()
    ensures ParseReferenceRange("0.05-0.5", Female) == (0.05, 0.5)
  {
    var lo, hi := "0.05", "0.5";
    ParseFiveHundredths();
    ParseFiveTenths();
    assert '-' !in lo && '-' !in hi;
    assert "0.05-0.5" == lo + "-" + hi;
    ParseLowHigh(lo, hi, Female, 0.05, 0.5);
  }

  lemma ParseFiveHundredths()
    ensures ParseDecimal("0.05") == Some(0.05)
  {
    ParseWholeDotFrac("0", "05");
    assert "0.05" == "0" + "." + "05";
  }

  lemma ParseFiveTenths()
    ensures ParseDecimal("0.5") == Some(0.5)
  {
    ParseWholeDotFrac("0", "5");
    assert "0.5" == "0" + "." + "5";
  }

  /** The gender-labelled ESR text reads as 0-15 for either gender. */
  lemma ParseGenderedExample(gender: string)
    ensures ParseReferenceRange("男：0-15", gender) == (0.0, 15.0)
  {
    var t := "男：0-15";
    SplitPair("男", FullColon, "0-15");
    assert t == "男" + [FullColon] + "0-15";
    assert t[1] == FullColon;
    ColonSelectsSecondPiece(t, gender);
    DashPairRange015();
  }

  lemma DashPairRange015()
    ensures ParseDashPair("0-15") == (0.0, 15.0)
  {
    ParseIntLiteral(0, "0");
    ParseIntLiteral(15, "15");
    assert "0-15" == "0" + "-" + "15";
    DashPairOf("0", "15");
  }

  lemma ParseFallbackExamples(gender: string)
    ensures ParseReferenceRange("a-b", gender) == Fallback
    ensures ParseReferenceRange("1-2-3", gender) == Fallback
    ensures ParseReferenceRange("-5-10", gender) == Fallback
    ensures ParseReferenceRange("4", gender) == Fallback
  {
    UnparseableExample(gender);
    TooManyPiecesExample("1-2-3", gender);
    TooManyPiecesExample("-5-10", gender);
    TooManyPiecesExample("4", gender);
  }

  /** "a-b" splits into two pieces, and float("a") fails. */
  lemma UnparseableExample(gender: string)
    ensures ParseReferenceRange("a-b", gender) == Fallback
  {
    assert ParseDecimal("a").None? by { ParseDecimalAccepts("a"); }
    assert Split("a-b", '-') == ["a", "b"] by {
      assert "a-b" == "a" + "-" + "b";
      SplitPair("a", '-', "b");
    }
    UnparseablePieceFallback("a-b");
    NoColonParsesWhole("a-b", gender);
  }

  /** A colon-free text whose '-' count is not one falls back. */
  lemma TooManyPiecesExample(s: string, gender: string)
    requires s in {"1-2-3", "-5-10", "4"}
    ensures ParseReferenceRange(s, gender) == Fallback
  {
    WrongPieceCountFallback(s);
    NoColonParsesWhole(s, gender);
  }

  // ---------------------------------------------------------------------
  // generate_value_with_variation
  // ---------------------------------------------------------------------

  /** The parsed bounds, swapped when `low >= high`: low <= high holds before
      any value is drawn, and the pair is the parsed one, maybe reversed. */
  function OrderedRange(refStr: string, gender: string): (r: (real, real))
    ensures r.0 <= r.1 && 0.0 <= r.0
    ensures var p := ParseReferenceRange(refStr, gender); r == p || r == (p.1, p.0)
  {
    var (low, high) := ParseReferenceRange(refStr, gender);
    if low >= high then (high, low) else (low, high)
  }

  /** A synthesized value before `round(x, 2)`, and its status code:
      1 above, -1 below, 0 normal. */
  datatype Sample = Sample(value: real, status: int)

  /** `generate_value_with_variation(ref_str, gender, variation_chance)`.
      The first draw picks variation or normal, the second picks high or low
      in a variation, and the uniform value takes the next draw (the second
      one on the normal path). The branch alone fixes the status. */
  function GenerateValueWithVariation(refStr: string, gender: string, variationChance: real, d: Draws)
    : (s: Sample)
    ensures s.status == 1 <==> d.u1 < variationChance && d.u2 < 0.5
    ensures s.status == -1 <==> d.u1 < variationChance && !(d.u2 < 0.5)
    ensures s.status == 0 <==> !(d.u1 < variationChance)
    ensures var (low, high) := OrderedRange(refStr, gender);
      (s.status == 1 ==> high * 1.05 <= s.value <= high * 1.3) &&
      (s.status == -1 ==> low * 0.7 <= s.value <= low * 0.95) &&
      (s.status == 0 ==> low * 0.98 <= s.value <= high * 1.02)
  {
    var (low, high) := OrderedRange(refStr, gender);
    if d.u1 < variationChance then
      if d.u2 < 0.5 then Sample(Uniform(high * 1.05, high * 1.3, d.u3), 1)
      else Sample(Uniform(low * 0.7, low * 0.95, d.u3), -1)
    else
      Sample(Uniform(low * 0.98, high * 1.02, d.u2), 0)
  }

  /** An "above" sample lies strictly above the range, whenever the upper
      bound is positive. */
  lemma AboveIsAboveRange(refStr: string, gender: string, vc: real, d: Draws)
    requires GenerateValueWithVariation(refStr, gender, vc, d).status == 1
    requires OrderedRange(refStr, gender).1 > 0.0
    ensures GenerateValueWithVariation(refStr, gender, vc, d).value > OrderedRange(refStr, gender).1
  {
  }

  /** The status follows the branch, not the value: a normal-path draw can
      land below the range and still be status 0. */
  lemma NormalPathMayLeaveRange()
    ensures var s := GenerateValueWithVariation("100-300", Male, VariationChance, Draws(0.5, 0.0, 0.0));
      s.status == 0 && s.value == 98.0 && s.value < 100.0
  {
    ParsePlainExample();
  }

  /** With a lower bound of 0 the "below" path yields exactly 0, which is
      inside the range, yet carries status -1. */
  lemma ZeroLowBelowPathIsInRange(d: Draws)
    requires d.u1 < VariationChance && !(d.u2 < 0.5)
    ensures var s := GenerateValueWithVariation("0-15", Male, VariationChance, d);
      s.status == -1 && s.value == 0.0
  {
    EsrRanges();
  }

  /** A chance of 0 never varies; a chance of 1 always does. */
  lemma ChanceExtremes(refStr: string, gender: string, d: Draws)
    ensures GenerateValueWithVariation(refStr, gender, 0.0, d).status == 0
    ensures GenerateValueWithVariation(refStr, gender, 1.0, d).status != 0
  {
  }

  /** The worked cases: "100-300" with a normal draw of 0.5 gives 202
      (0.98*100 + 0.5*(1.02*300 - 0.98*100)), and a forced "above" draw stays
      in [315, 390]. */
  lemma SampleScenarios(d: Draws)
    ensures GenerateValueWithVariation("100-300", Male, 0.0, Draws(d.u1, 0.5, d.u3)) == Sample(202.0, 0)
    ensures d.u2 < 0.5 ==>
      var s := GenerateValueWithVariation("100-300", Male, 1.0, d);
      s.status == 1 && 315.0 <= s.value <= 390.0
  {
    ParsePlainExample();
  }

  // ---------------------------------------------------------------------
  // generate_esr and the catalog
  // ---------------------------------------------------------------------

  /** The range text `generate_esr` passes on. */
  function EsrRangeText(gender: string): string
  {
    if gender == Male then "0-15" else "0-20"
  }

  lemma EsrRanges()
    ensures forall g :: ParseReferenceRange("0-15", g) == (0.0, 15.0)
    ensures forall g :: ParseReferenceRange("0-20", g) == (0.0, 20.0)
  {
    ParseIntLiteral(0, "0");
    ParseIntLiteral(15, "15");
    ParseIntLiteral(20, "20");
    assert "0-15" == "0" + "-" + "15";
    assert "0-20" == "0" + "-" + "20";
    DashPairOf("0", "15");
    DashPairOf("0", "20");
    assert FullColon !in "0-15" && FullColon !in "0-20";
  }

  /** `generate_esr(gender)`: the range is 0-15 for 男 and 0-20 for any
      other gender; so a normal value stays within [0, 15.3] resp. [0, 20.4],
      an "above" one within [15.75, 19.5] resp. [21, 26], a "below" one is 0. */
  function GenerateEsr(gender: string, d: Draws): (s: Sample)
    ensures var top := if gender == Male then 15.0 else 20.0;
      (s.status == 0 ==> 0.0 <= s.value <= top * 1.02) &&
      (s.status == 1 ==> top * 1.05 <= s.value <= top * 1.3) &&
      (s.status == -1 ==> s.value == 0.0)
    ensures s.status == 1 <==> d.u1 < VariationChance && d.u2 < 0.5
    ensures s.status == -1 <==> d.u1 < VariationChance && !(d.u2 < 0.5)
    ensures s.status == 0 <==> !(d.u1 < VariationChance)
  {
    EsrRanges();
    GenerateValueWithVariation(EsrRangeText(gender), gender, VariationChance, d)
  }

  /** How a catalog item makes its value: one fixed range text, or the ESR
      rule. */
  datatype ValueRule = Fixed(rangeText: string) | Esr

  /** One catalog row: (seq, code, name, unit, ref, func). */
  datatype Project = Project(seqNo: nat, code: string, name: string, unit: string, ref: string, gen: ValueRule)

  function GenerateItem(p: Project, gender: string, d: Draws): Sample
  {
    match p.gen
    case Fixed(text) => GenerateValueWithVariation(text, gender, VariationChance, d)
    case Esr => GenerateEsr(gender, d)
  }

  const ProjectsLeft: seq<Project> := [
    Project(1, "WBC", "白细胞", "10^9/L", "4-10", Fixed("4-10")),
    Project(2, "RBC", "红细胞", "10^12/L", "3.5-5.5", Fixed("3.5-5.5")),
    Project(3, "HGB", "血红蛋白", "g/L", "110-160", Fixed("110-160")),
    Project(4, "HCT", "红细胞压积", "%", "36-50", Fixed("36-50")),
    Project(5, "MCV", "红细胞平均体积", "fL", "82-100", Fixed("82-100")),
    Project(6, "MCH", "平均血红蛋白量", "pg", "25-32", Fixed("25-32")),
    Project(7, "MCHC", "平均血红蛋白浓度", "g/L", "320-360", Fixed("320-360")),
    Project(8, "PLT", "血小板", "10^9/L", "100-300", Fixed("100-300")),
    Project(9, "LYMPH%", "淋巴细胞比率", "%", "20-40", Fixed("20-40")),
    Project(10, "NEUT%", "中性细胞比率", "%", "50-70", Fixed("50-70")),
    Project(11, "MONO%", "单核细胞比率", "%", "3-8", Fixed("3-8")),
    Project(12, "EO%", "嗜酸性粒细胞比率", "%", "0.5-5", Fixed("0.5-5")),
    Project(13, "BASO%", "嗜碱性粒细胞比率", "%", "0-1", Fixed("0-1"))
  ]

  const ProjectsRight: seq<Project> := [
    Project(14, "LYMPH#", "淋巴细胞数", "10^9/L", "0.8-4", Fixed("0.8-4")),
    Project(15, "NEUT#", "中性细胞数", "10^9/L", "2-7", Fixed("2-7")),
    Project(16, "MONO#", "单核细胞", "10^9/L", "0-0.8", Fixed("0-0.8")),
    Project(17, "EO#", "嗜酸性粒细胞", "10^9/L", "0.05-0.5", Fixed("0.05-0.5")),
    Project(18, "BASO#", "嗜碱性粒细胞", "10^9/L", "0-0.1", Fixed("0-0.1")),
    Project(19, "RDW-CV", "红细胞分布宽度CV", "%", "10.9-15.4", Fixed("10.9-15.4")),
    Project(20, "RDW-SD", "红细胞分布宽度SD", "fL", "37-54", Fixed("37-54")),
    Project(21, "PDW", "血小板分布宽度", "fL", "9-17", Fixed("9-17")),
    Project(22, "MPV", "平均血小板体积", "fL", "9-13", Fixed("9-13")),
    Project(23, "PCT", "血小板压积", "%", "0.17-0.35", Fixed("0.17-0.35")),
    Project(24, "P-LCR", "大型血小板比率", "%", "13-43", Fixed("13-43")),
    Project(25, "ESR", "血沉", "mm/h", "男：0-15", Esr)
  ]

  /** The catalog numbers its 25 items 1..25 across the two columns; every
      item but ESR draws from the range it displays, and ESR displays the
      male range "男：0-15" whatever the patient's gender. */
  lemma CatalogShape()
    ensures |ProjectsLeft| == 13 && |ProjectsRight| == 12
    ensures forall i :: 0 <= i < |ProjectsLeft| ==> ProjectsLeft[i].seqNo == i + 1
    ensures forall i :: 0 <= i < |ProjectsRight| ==> ProjectsRight[i].seqNo == i + 14
    ensures forall i :: 0 <= i < |ProjectsLeft| ==> ProjectsLeft[i].gen == Fixed(ProjectsLeft[i].ref)
    ensures forall i :: 0 <= i < |ProjectsRight| - 1 ==> ProjectsRight[i].gen == Fixed(ProjectsRight[i].ref)
    ensures ProjectsRight[11].gen == Esr && ProjectsRight[11].ref == "男：0-15"
  {
  }

  /** For a female patient the ESR row shows 0-15 while its value is drawn
      from 0-20: the displayed range and the drawn one differ. */
  lemma EsrDisplayForFemale()
    ensures ParseReferenceRange(ProjectsRight[11].ref, Female) == (0.0, 15.0)
    ensures OrderedRange(EsrRangeText(Female), Female) == (0.0, 20.0)
  {
    ParseGenderedExample(Female);
    EsrRanges();
  }

  // ---------------------------------------------------------------------
  // The result lists of generate_report
  // ---------------------------------------------------------------------

  /** One result tuple (seq, code, name, value, unit, ref, status). */
  datatype ResultRow = ResultRow(seqNo: nat, code: string, name: string, value: real, unit: string, ref: string, status: int)

  /** The result list for a catalog, one row per item in catalog order. */
  function Results(projects: seq<Project>, gender: string, draws: seq<Draws>): (rows: seq<ResultRow>)
    requires |draws| == |projects|
    ensures |rows| == |projects|
    ensures forall i :: 0 <= i < |rows| ==>
      var p := projects[i];
      var s := GenerateItem(p, gender, draws[i]);
      rows[i].seqNo == p.seqNo && rows[i].code == p.code && rows[i].name == p.name &&
      rows[i].unit == p.unit && rows[i].ref == p.ref &&
      rows[i].value == s.value && rows[i].status == s.status
  {
    seq(|projects|, i requires 0 <= i < |projects| =>
      var p := projects[i];
      var s := GenerateItem(p, gender, draws[i]);
      ResultRow(p.seqNo, p.code, p.name, s.value, p.unit, p.ref, s.status))
  }

  /** The `for project in projects: ... results.append(...)` loop of
      `generate_report`, one call of the item's generator per project. */
  method BuildResults(projects: seq<Project>, gender: string, draws: seq<Draws>)
    returns (results: seq<ResultRow>)
    requires |draws| == |projects|
    ensures results == Results(projects, gender, draws)
  {
    results := [];
    for i := 0 to |projects|
      invariant results == Results(projects, gender, draws)[..i]
    {
      var p := projects[i];
      var s := GenerateItem(p, gender, draws[i]);
      results := results + [ResultRow(p.seqNo, p.code, p.name, s.value, p.unit, p.ref, s.status)];
    }
  }

  /** Every status in a result list is -1, 0 or 1. */
  lemma StatusCodes(projects: seq<Project>, gender: string, draws: seq<Draws>, i: nat)
    requires |draws| == |projects| && i < |projects|
    ensures Results(projects, gender, draws)[i].status in {-1, 0, 1}
  {
    var s := GenerateItem(projects[i], gender, draws[i]);
    match projects[i].gen
    case Fixed(text) =>
    case Esr =>
  }
}

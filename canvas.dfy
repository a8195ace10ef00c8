/** What the generators hand to the image library, kept as data: each call of
    `draw.text` or `draw.line` appends one record to a list of operations,
    in call order. Canvas creation, fonts and pixels are not modelled. */
module Canvas {

  datatype DrawOp =
    | Text(text: string, x: int, y: int)
    | Line(x0: int, y0: int, x1: int, y1: int)

  /** Lines of text at one x, line i at y + i * pitch. */
  function Stacked(lines: seq<string>, x: int, y: int, pitch: int): seq<DrawOp>
  {
    seq(|lines|, i requires 0 <= i < |lines| => Text(lines[i], x, y + i * pitch))
  }

  /** `for i, line in enumerate(lines): draw.text((x, y + i * pitch), line)` */
  method DrawStacked(ops: seq<DrawOp>, lines: seq<string>, x: int, y: int, pitch: int)
    returns (out: seq<DrawOp>)
    ensures out == ops + Stacked(lines, x, y, pitch)
  {
    out := ops;
    for i := 0 to |lines|
      invariant out == ops + Stacked(lines[..i], x, y, pitch)
    {
      out := out + [Text(lines[i], x, y + i * pitch)];
      assert Stacked(lines[..i + 1], x, y, pitch) == Stacked(lines[..i], x, y, pitch) + [Text(lines[i], x, y + i * pitch)];
    }
    assert lines[..|lines|] == lines;
  }

  /** Python's `sum(s)`. */
  function Sum(s: seq<int>): int
  {
    if s == [] then 0 else Sum(s[..|s| - 1]) + s[|s| - 1]
  }

  lemma SumStep(s: seq<int>, i: nat)
    requires i < |s|
    ensures Sum(s[..i + 1]) == Sum(s[..i]) + s[i]
  {
    assert s[..i + 1][..i] == s[..i];
  }

  /** Texts laid out left to right in columns of the given widths, text i at
      the left edge of column i. */
  function Columns(texts: seq<string>, startX: int, widths: seq<int>, y: int): seq<DrawOp>
    requires |texts| <= |widths|
  {
    seq(|texts|, i requires 0 <= i < |texts| => Text(texts[i], startX + Sum(widths[..i]), y))
  }

  /** `x = start; for i, t in enumerate(texts): draw.text((x, y), t); x += widths[i]` */
  method DrawColumns(ops: seq<DrawOp>, texts: seq<string>, startX: int, widths: seq<int>, y: int)
    returns (out: seq<DrawOp>)
    requires |texts| <= |widths|
    ensures out == ops + Columns(texts, startX, widths, y)
  {
    out := ops;
    var x := startX;
    for i := 0 to |texts|
      invariant x == startX + Sum(widths[..i])
      invariant out == ops + Columns(texts[..i], startX, widths, y)
    {
      out := out + [Text(texts[i], x, y)];
      assert Columns(texts[..i + 1], startX, widths, y) == Columns(texts[..i], startX, widths, y) + [Text(texts[i], x, y)];
      SumStep(widths, i);
      x := x + widths[i];
    }
    assert texts[..|texts|] == texts;
  }

  function Max(a: int, b: int): int { if a >= b then a else b }

  /** Every operation is a text with lo <= y < hi. */
  predicate TextsWithin(ops: seq<DrawOp>, lo: int, hi: int)
  {
    forall j :: 0 <= j < |ops| ==> ops[j].Text? && lo <= ops[j].y < hi
  }

  lemma TextsWithinAppend(a: seq<DrawOp>, b: seq<DrawOp>, lo: int, hi: int)
    requires TextsWithin(a, lo, hi) && TextsWithin(b, lo, hi)
    ensures TextsWithin(a + b, lo, hi)
  {
    forall j | 0 <= j < |a + b| ensures (a + b)[j].Text? && lo <= (a + b)[j].y < hi {
      if j < |a| { assert (a + b)[j] == a[j]; } else { assert (a + b)[j] == b[j - |a|]; }
    }
  }

  /** Taking one more element of a sequence appends that element. */
  lemma TakeOneMore<T>(s: seq<T>, i: nat)
    requires i < |s|
    ensures s[..i + 1] == s[..i] + [s[i]]
  {
  }

  /** A prefix of a list stays a prefix when more is appended. */
  lemma PrefixThrough(small: seq<DrawOp>, mid: seq<DrawOp>, tail: seq<DrawOp>)
    requires |small| <= |mid| && mid[..|small|] == small
    ensures |small| <= |mid + tail| && (mid + tail)[..|small|] == small
  {
    assert (mid + tail)[..|mid|] == mid;
  }
}

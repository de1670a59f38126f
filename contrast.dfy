/** The contrast engine of lib/contrast.ts: the WCAG 2.1 contrast ratio of two parsed
    colours and the N-by-N contrast matrix of a palette. */
module Contrast {
  import opened Numeric
  import opened Colors

  /** `(L1 + 0.05) / (L2 + 0.05)` with L1 the larger and L2 the smaller luminance. */
  function RawRatio(a: Unit, b: Unit): real {
    var l1: real := if a >= b then a else b;
    var l2: real := if a >= b then b else a;
    (l1 + 0.05) / (l2 + 0.05)
  }

  /** The unrounded ratio lies in [1, 21]: the lighter colour is never darker than the
      darker one, and white over black is 1.05 / 0.05. */
  lemma RawRatioBounds(a: Unit, b: Unit)
    ensures 1.0 <= RawRatio(a, b) <= 21.0
  {
    var l1: real := if a >= b then a else b;
    var l2: real := if a >= b then b else a;
    var d := l2 + 0.05;
    assert d > 0.0;
    assert l1 + 0.05 >= d;
    assert l1 + 0.05 <= 21.0 * d;
    DivBounds(l1 + 0.05, d);
  }

  lemma DivBounds(x: real, d: real)
    requires d > 0.0 && d <= x <= 21.0 * d
    ensures 1.0 <= x / d <= 21.0
  {
    DivMonotone(d, x, d);
    DivMonotone(x, 21.0 * d, d);
  }

  lemma DivSelf(x: real)
    requires x > 0.0
    ensures x / x == 1.0
  {
  }

  /** `contrastRatio`: the ratio rounded to two decimals, `+(...).toFixed(2)`. */
  function ContrastRatio(fg: ParsedColor, bg: ParsedColor): (r: real)
    ensures 1.0 <= r <= 21.0
  {
    RawRatioBounds(fg.luminance, bg.luminance);
    ToFixedMonotone(1.0, RawRatio(fg.luminance, bg.luminance), 2);
    ToFixedMonotone(RawRatio(fg.luminance, bg.luminance), 21.0, 2);
    ToFixedKeepsWhole(1, 2);
    ToFixedKeepsWhole(21, 2);
    ToFixed(RawRatio(fg.luminance, bg.luminance), 2)
  }

  /** The ratio does not depend on which colour is the foreground. */
  lemma ContrastRatioSymmetric(fg: ParsedColor, bg: ParsedColor)
    ensures ContrastRatio(fg, bg) == ContrastRatio(bg, fg)
  {
    assert RawRatio(fg.luminance, bg.luminance) == RawRatio(bg.luminance, fg.luminance);
  }

  /** Two colours of the same luminance (a colour against itself in particular) have ratio 1. */
  lemma ContrastRatioEqualLuminance(fg: ParsedColor, bg: ParsedColor)
    requires fg.luminance == bg.luminance
    ensures ContrastRatio(fg, bg) == 1.0
  {
    var l: real := fg.luminance + 0.05;
    assert RawRatio(fg.luminance, bg.luminance) == l / l;
    DivSelf(l);
    ToFixedKeepsWhole(1, 2);
  }

  /** Black against white, in either order, is the maximum ratio 21. */
  lemma ContrastRatioBlackWhite(fg: ParsedColor, bg: ParsedColor)
    requires fg.luminance == 0.0 && bg.luminance == 1.0
    ensures ContrastRatio(fg, bg) == 21.0 && ContrastRatio(bg, fg) == 21.0
  {
    assert RawRatio(fg.luminance, bg.luminance) == 1.05 / 0.05 == 21.0;
    ToFixedKeepsWhole(21, 2);
    ContrastRatioSymmetric(fg, bg);
  }

  /** The parsed `#000000` and `#FFFFFF` are 21 apart. */
  lemma BlackOnWhite()
    ensures ParseColor("#000000").Success? && ParseColor("#FFFFFF").Success?
    ensures ContrastRatio(ParseColor("#000000").value, ParseColor("#FFFFFF").value) == 21.0
  {
    BlackIsZero();
    WhiteIsOne();
    ContrastRatioBlackWhite(ParseColor("#000000").value, ParseColor("#FFFFFF").value);
  }

  /** Entry `[i][j]` of the matrix: 1 on the diagonal unless `includeSelf`, else the ratio. */
  function MatrixEntry(colors: seq<ParsedColor>, includeSelf: bool, i: nat, j: nat): real
    requires i < |colors| && j < |colors|
  {
    if i == j && !includeSelf then 1.0 else ContrastRatio(colors[i], colors[j])
  }

  /** `buildContrastMatrix`: one row per colour, one column per colour. */
  function BuildContrastMatrix(colors: seq<ParsedColor>, includeSelf: bool): (m: seq<seq<real>>)
    ensures |m| == |colors|
    ensures forall i :: 0 <= i < |m| ==> |m[i]| == |colors|
    ensures forall i, j :: 0 <= i < |m| && 0 <= j < |colors| ==> m[i][j] == MatrixEntry(colors, includeSelf, i, j)
  {
    seq(|colors|, i requires 0 <= i < |colors| =>
      seq(|colors|, j requires 0 <= j < |colors| => MatrixEntry(colors, includeSelf, i, j)))
  }

  /** Without `includeSelf` the diagonal is 1; off the diagonal the entry is the ratio of
      the two colours. */
  lemma MatrixEntries(colors: seq<ParsedColor>, includeSelf: bool, i: nat, j: nat)
    requires i < |colors| && j < |colors|
    ensures !includeSelf && i == j ==> BuildContrastMatrix(colors, includeSelf)[i][j] == 1.0
    ensures i != j ==> BuildContrastMatrix(colors, includeSelf)[i][j] == ContrastRatio(colors[i], colors[j])
  {
  }

  /** The matrix is symmetric and every entry lies in [1, 21]. */
  lemma MatrixSymmetricInRange(colors: seq<ParsedColor>, includeSelf: bool, i: nat, j: nat)
    requires i < |colors| && j < |colors|
    ensures BuildContrastMatrix(colors, includeSelf)[i][j] == BuildContrastMatrix(colors, includeSelf)[j][i]
    ensures 1.0 <= BuildContrastMatrix(colors, includeSelf)[i][j] <= 21.0
  {
    ContrastRatioSymmetric(colors[i], colors[j]);
  }

  /** The diagonal policy makes no difference: a colour against itself has ratio 1 anyway. */
  lemma IncludeSelfIrrelevant(colors: seq<ParsedColor>)
    ensures BuildContrastMatrix(colors, true) == BuildContrastMatrix(colors, false)
  {
    var t := BuildContrastMatrix(colors, true);
    var f := BuildContrastMatrix(colors, false);
    forall i | 0 <= i < |colors| ensures t[i] == f[i] {
      ContrastRatioEqualLuminance(colors[i], colors[i]);
      assert t[i][i] == f[i][i];
    }
  }
}

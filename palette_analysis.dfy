/** The palette entry points of lib/index.ts: `analyzePalette` (parsed colours, contrast
    matrix and criteria) and `accessiblePairs` (every ordered pair of distinct colours that
    meets a level, strongest contrast first). */
module PaletteAnalysis {
  import opened Results
  import opened Numeric
  import opened Colors
  import opened Contrast
  import opened Wcag
  import opened SeqFacts

  /** The first failure among `results`, or all their values. */
  function Collect(results: seq<Result<ParsedColor, ColorError>>): (r: Result<seq<ParsedColor>, ColorError>)
    ensures r.Success? ==> |r.value| == |results|
                           && forall i :: 0 <= i < |results| ==> results[i] == Success(r.value[i])
    ensures r.Failure? ==> exists k :: 0 <= k < |results| && results[k] == Failure(r.error)
                                       && forall i :: 0 <= i < k ==> results[i].Success?
  {
    if results == [] then Success([])
    else
      var head :- results[0];
      var rest :- Collect(results[1..]);
      assert forall i :: 1 <= i < |results| ==> results[i] == results[1..][i - 1];
      var r := [head] + rest;
      assert forall i :: 1 <= i < |results| ==> r[i] == rest[i - 1];
      Success(r)
  }

  /** `palette.map(parseColor)` before anything throws: the outcome of every entry. */
  function ParsedEntries(palette: seq<string>): (r: seq<Result<ParsedColor, ColorError>>)
    ensures |r| == |palette| && forall i :: 0 <= i < |palette| ==> r[i] == ParseColor(palette[i])
  {
    seq(|palette|, i requires 0 <= i < |palette| => ParseColor(palette[i]))
  }

  /** `palette.map(parseColor)`: the first entry that does not parse throws, so there is no
      partial result. */
  function ParseAll(palette: seq<string>): (r: Result<seq<ParsedColor>, ColorError>)
    ensures r.Success? ==> |r.value| == |palette|
  {
    Collect(ParsedEntries(palette))
  }

  /** A collection succeeds exactly when every result does. */
  lemma CollectAll(results: seq<Result<ParsedColor, ColorError>>)
    ensures Collect(results).Success? <==> forall i :: 0 <= i < |results| ==> results[i].Success?
  {
    if Collect(results).Failure? {
      var k :| 0 <= k < |results| && results[k] == Failure(Collect(results).error);
      assert !results[k].Success?;
    }
  }

  /** The palette parses exactly when every entry does, and then entry by entry. */
  lemma ParseAllEntries(palette: seq<string>)
    ensures ParseAll(palette).Success? <==> forall i :: 0 <= i < |palette| ==> ParseColor(palette[i]).Success?
    ensures ParseAll(palette).Success? ==>
      forall i :: 0 <= i < |palette| ==> ParseColor(palette[i]) == Success(ParseAll(palette).value[i])
  {
    var results := ParsedEntries(palette);
    CollectAll(results);
  }

  /** Otherwise the error is that of the first entry that does not parse, an entry that is
      neither `#rgb` nor `#rrggbb`. */
  lemma ParseAllFirstError(palette: seq<string>)
    requires ParseAll(palette).Failure?
    ensures exists k :: 0 <= k < |palette| && ParseColor(palette[k]) == Failure(ParseAll(palette).error)
                        && forall i :: 0 <= i < k ==> ParseColor(palette[i]).Success?
  {
    var results := ParsedEntries(palette);
    var k :| 0 <= k < |results| && results[k] == Failure(ParseAll(palette).error)
             && forall i :: 0 <= i < k ==> results[i].Success?;
    assert ParseColor(palette[k]) == results[k];
    forall i | 0 <= i < k ensures ParseColor(palette[i]).Success? {
      assert results[i] == ParseColor(palette[i]);
    }
  }

  lemma ParseAllErrorNamesEntry(palette: seq<string>)
    requires ParseAll(palette).Failure?
    ensures exists k :: 0 <= k < |palette| && ParseAll(palette).error == InvalidColor(palette[k])
                        && !IsShortHex(palette[k]) && !IsLongHex(palette[k])
  {
    ParseAllFirstError(palette);
  }

  datatype Analysis = Analysis(colors: seq<ParsedColor>, matrix: seq<seq<real>>, criteria: map<Threshold, real>)

  /** `analyzePalette`: `includeSelfPairs` defaults to false, though the matrix comes out
      the same either way. */
  function AnalyzePalette(palette: seq<string>, includeSelfPairs: Option<bool>): (r: Result<Analysis, ColorError>)
    ensures r.Success? <==> ParseAll(palette).Success?
    ensures r.Failure? ==> r.error == ParseAll(palette).error
    ensures r.Success? ==> && r.value.colors == ParseAll(palette).value
                           && r.value.matrix == BuildContrastMatrix(r.value.colors, false)
                           && |r.value.matrix| == |palette|
                           && r.value.criteria == Criteria()
  {
    var colors :- ParseAll(palette);
    var matrix := BuildContrastMatrix(colors, includeSelfPairs.GetOr(false));
    IncludeSelfIrrelevant(colors);
    Success(Analysis(colors, matrix, Criteria()))
  }

  /** One entry of the `pairs` list. */
  datatype PairResult = PairResult(fg: string, bg: string, ratio: real, passes: seq<Threshold>)

  /** The entry for foreground `colors[i]` on background `colors[j]`. */
  function PairOf(colors: seq<ParsedColor>, i: nat, j: nat): PairResult
    requires i < |colors| && j < |colors|
  {
    var ratio := ContrastRatio(colors[i], colors[j]);
    PairResult(colors[i].hex, colors[j].hex, ratio, Passes(ratio))
  }

  predicate Square(cells: seq<seq<PairResult>>) {
    forall i :: 0 <= i < |cells| ==> |cells[i]| == |cells|
  }

  /** The candidate entry of every ordered pair of colours. */
  function Cells(colors: seq<ParsedColor>): (cells: seq<seq<PairResult>>)
    ensures |cells| == |colors| && Square(cells)
  {
    seq(|colors|, i requires 0 <= i < |colors| =>
      seq(|colors|, j requires 0 <= j < |colors| => PairOf(colors, i, j)))
  }

  /** Whether candidate `(i, j)` is reported: distinct indices and `threshold` met. */
  predicate Keeps(threshold: Threshold, i: nat, j: nat, cell: PairResult) {
    i != j && threshold in cell.passes
  }

  /** The entries the inner loop pushes for row `i`, whose candidates are `row`, over the
      columns `0 .. m-1`. */
  function Row(row: seq<PairResult>, threshold: Threshold, i: nat, m: nat): seq<PairResult>
    requires m <= |row|
  {
    if m == 0 then []
    else Row(row, threshold, i, m - 1) + (if Keeps(threshold, i, m - 1, row[m - 1]) then [row[m - 1]] else [])
  }

  /** The entries the outer loop pushes for the rows `0 .. k-1`, before sorting. */
  function Grid(cells: seq<seq<PairResult>>, threshold: Threshold, k: nat): seq<PairResult>
    requires k <= |cells|
  {
    if k == 0 then [] else Grid(cells, threshold, k - 1) + Row(cells[k - 1], threshold, k - 1, |cells[k - 1]|)
  }

  /** `pairs.sort((a, b) => b.ratio - a.ratio)`: the sort is stable, so it is insertion of
      each entry, in list order, after every entry of at least its ratio. */
  function InsertByRatio(x: PairResult, s: seq<PairResult>): seq<PairResult> {
    if s == [] then [x]
    else if s[0].ratio >= x.ratio then [s[0]] + InsertByRatio(x, s[1..])
    else [x] + s
  }

  function SortByRatio(s: seq<PairResult>): seq<PairResult> {
    if s == [] then [] else InsertByRatio(s[|s| - 1], SortByRatio(s[..|s| - 1]))
  }

  predicate SortedByRatio(s: seq<PairResult>) {
    forall i, j :: 0 <= i < j < |s| ==> s[i].ratio >= s[j].ratio
  }

  /** The entries of ratio `v`, in list order. */
  function WithRatio(s: seq<PairResult>, v: real): seq<PairResult> {
    if s == [] then []
    else (if s[0].ratio == v then [s[0]] else []) + WithRatio(s[1..], v)
  }

  /** What `accessiblePairs` returns for an already parsed palette. */
  function PairsOf(colors: seq<ParsedColor>, threshold: Threshold): seq<PairResult> {
    SortByRatio(Grid(Cells(colors), threshold, |colors|))
  }

  /** `accessiblePairs(palette, threshold)`: parse every entry (a bad entry throws), then
      scan the parsed colours. */
  method AccessiblePairs(palette: seq<string>, threshold: Threshold := AaNormal)
    returns (r: Result<seq<PairResult>, ColorError>)
    ensures r.Success? <==> ParseAll(palette).Success?
    ensures r.Failure? ==> r.error == ParseAll(palette).error
    ensures r.Success? ==> r.value == PairsOf(ParseAll(palette).value, threshold)
  {
    var parsed := ParseAll(palette);
    if parsed.Failure? {
      return Failure(parsed.error);
    }
    var pairs := ScanPairs(parsed.value, threshold);
    return Success(pairs);
  }

  /** The body of `accessiblePairs` after parsing: visit every ordered pair of indices,
      push those whose ratio meets `threshold`, then sort by ratio, highest first. */
  method ScanPairs(colors: seq<ParsedColor>, threshold: Threshold) returns (pairs: seq<PairResult>)
    ensures pairs == PairsOf(colors, threshold)
  {
    pairs := [];
    for i := 0 to |colors|
      invariant pairs == Grid(Cells(colors), threshold, i)
    {
      pairs := PushRow(colors, threshold, i, pairs);
    }
    pairs := SortByRatio(pairs);
  }

  /** One pass of the inner loop of `accessiblePairs`: foreground `colors[i]` against every
      background, skipping `j == i`, pushing the entries whose ratio meets `threshold`. */
  method PushRow(colors: seq<ParsedColor>, threshold: Threshold, i: nat, pairs0: seq<PairResult>)
    returns (pairs: seq<PairResult>)
    requires i < |colors|
    ensures pairs == pairs0 + Row(Cells(colors)[i], threshold, i, |colors|)
  {
    pairs := pairs0;
    for j := 0 to |colors|
      invariant pairs == pairs0 + Row(Cells(colors)[i], threshold, i, j)
    {
      if i == j {
        RowSkipsDiagonal(Cells(colors)[i], threshold, i);
        continue;
      }
      pairs := PushPair(colors, threshold, i, j, pairs, pairs0);
    }
  }

  /** Column `i` of row `i` adds nothing. */
  lemma RowSkipsDiagonal(row: seq<PairResult>, threshold: Threshold, i: nat)
    requires i < |row|
    ensures Row(row, threshold, i, i + 1) == Row(row, threshold, i, i)
  {
    assert Row(row, threshold, i, i) + [] == Row(row, threshold, i, i);
  }

  /** One step of the inner loop of `accessiblePairs` for `j != i`: the ratio of foreground
      `colors[i]` on background `colors[j]` is computed inline (lighter over darker luminance,
      rounded to two decimals), and the entry is pushed when its levels include `threshold`.
      The entry built is the candidate entry, so its ratio is `contrastRatio`, and the list
      grows by column `j` of row `i`. */
  method PushPair(colors: seq<ParsedColor>, threshold: Threshold, i: nat, j: nat, pairs0: seq<PairResult>,
                  ghost start: seq<PairResult>)
    returns (pairs: seq<PairResult>)
    requires i < |colors| && j < |colors| && i != j
    requires pairs0 == start + Row(Cells(colors)[i], threshold, i, j)
    ensures pairs == start + Row(Cells(colors)[i], threshold, i, j + 1)
  {
    var fg, bg := colors[i], colors[j];
    var l1: real := if fg.luminance >= bg.luminance then fg.luminance else bg.luminance;
    var l2: real := if fg.luminance >= bg.luminance then bg.luminance else fg.luminance;
    InlineRatio(fg, bg, l1, l2);
    var ratio := ToFixed((l1 + 0.05) / (l2 + 0.05), 2);
    var p := Passes(ratio);
    ghost var row := Cells(colors)[i];
    assert PairOf(colors, i, j) == PairResult(fg.hex, bg.hex, ratio, p);
    ghost var kept := if threshold in p then [PairOf(colors, i, j)] else [];
    RowStep(colors, threshold, i, j);
    AppendAssoc(start, Row(row, threshold, i, j), kept);
    pairs := pairs0;
    if threshold in p {
      pairs := pairs + [PairResult(fg.hex, bg.hex, ratio, p)];
    }
  }

  /** The ratio `accessiblePairs` computes inline is `contrastRatio`. */
  lemma InlineRatio(fg: ParsedColor, bg: ParsedColor, l1: real, l2: real)
    requires l1 == if fg.luminance >= bg.luminance then fg.luminance else bg.luminance
    requires l2 == if fg.luminance >= bg.luminance then bg.luminance else fg.luminance
    ensures ToFixed((l1 + 0.05) / (l2 + 0.05), 2) == ContrastRatio(fg, bg)
  {
    assert (l1 + 0.05) / (l2 + 0.05) == RawRatio(fg.luminance, bg.luminance);
  }

  /** Column `j` of row `i` adds the candidate entry exactly when it meets `threshold`. */
  lemma RowStep(colors: seq<ParsedColor>, threshold: Threshold, i: nat, j: nat)
    requires i < |colors| && j < |colors| && i != j
    ensures Row(Cells(colors)[i], threshold, i, j + 1) == Row(Cells(colors)[i], threshold, i, j) +
      (if threshold in PairOf(colors, i, j).passes then [PairOf(colors, i, j)] else [])
  {
    assert Cells(colors)[i][j] == PairOf(colors, i, j);
  }

  // ---------------------------------------------------------------------------------------
  // The sort: sorted, a permutation, and stable.

  lemma {:induction false} InsertMultiset(x: PairResult, s: seq<PairResult>)
    ensures multiset(InsertByRatio(x, s)) == multiset(s) + multiset{x}
  {
    if s != [] && s[0].ratio >= x.ratio {
      InsertMultiset(x, s[1..]);
      assert s == [s[0]] + s[1..];
    }
  }

  lemma {:induction false} InsertSorted(x: PairResult, s: seq<PairResult>)
    requires SortedByRatio(s)
    ensures SortedByRatio(InsertByRatio(x, s))
  {
    if s != [] && s[0].ratio >= x.ratio {
      var t := InsertByRatio(x, s[1..]);
      InsertSorted(x, s[1..]);
      InsertMultiset(x, s[1..]);
      forall k | 0 <= k < |t| ensures s[0].ratio >= t[k].ratio {
        assert t[k] in multiset(t);
        assert t[k] in multiset(s[1..]) || t[k] == x;
      }
    }
  }

  lemma {:induction false} WithRatioAppend(a: seq<PairResult>, b: seq<PairResult>, v: real)
    ensures WithRatio(a + b, v) == WithRatio(a, v) + WithRatio(b, v)
  {
    if a == [] {
      assert a + b == b;
    } else {
      var head := if a[0].ratio == v then [a[0]] else [];
      WithRatioAppend(a[1..], b, v);
      assert (a + b)[0] == a[0] && (a + b)[1..] == a[1..] + b;
      assert WithRatio(a + b, v) == head + WithRatio(a[1..] + b, v);
      assert WithRatio(a, v) == head + WithRatio(a[1..], v);
      AppendAssoc(head, WithRatio(a[1..], v), WithRatio(b, v));
    }
  }

  lemma {:induction false} WithRatioNone(s: seq<PairResult>, v: real)
    requires forall k :: 0 <= k < |s| ==> s[k].ratio < v
    ensures WithRatio(s, v) == []
  {
    if s != [] {
      WithRatioNone(s[1..], v);
    }
  }

  lemma {:induction false} InsertWithRatio(x: PairResult, s: seq<PairResult>, v: real)
    requires SortedByRatio(s)
    ensures WithRatio(InsertByRatio(x, s), v) == WithRatio(s, v) + (if x.ratio == v then [x] else [])
  {
    var extra := if x.ratio == v then [x] else [];
    var u := InsertByRatio(x, s);
    if s == [] {
      assert WithRatio(u, v) == extra + WithRatio([], v);
    } else if s[0].ratio >= x.ratio {
      var head := if s[0].ratio == v then [s[0]] else [];
      var t := InsertByRatio(x, s[1..]);
      InsertWithRatio(x, s[1..], v);
      assert u[0] == s[0] && u[1..] == t;
      assert WithRatio(u, v) == head + WithRatio(t, v);
      assert WithRatio(s, v) == head + WithRatio(s[1..], v);
      AppendAssoc(head, WithRatio(s[1..], v), extra);
    } else {
      assert u[0] == x && u[1..] == s;
      assert WithRatio(u, v) == extra + WithRatio(s, v);
      if x.ratio == v {
        WithRatioNone(s, v);
      }
    }
  }

  /** The sorted list runs from the highest ratio down. */
  lemma {:induction false} SortSorted(s: seq<PairResult>)
    ensures SortedByRatio(SortByRatio(s))
  {
    if s != [] {
      SortSorted(s[..|s| - 1]);
      InsertSorted(s[|s| - 1], SortByRatio(s[..|s| - 1]));
    }
  }

  /** Sorting neither loses nor adds an entry. */
  lemma {:induction false} SortPermutation(s: seq<PairResult>)
    ensures multiset(SortByRatio(s)) == multiset(s)
  {
    if s != [] {
      SortPermutation(s[..|s| - 1]);
      InsertMultiset(s[|s| - 1], SortByRatio(s[..|s| - 1]));
      assert s == s[..|s| - 1] + [s[|s| - 1]];
    }
  }

  /** The sorted list is ordered and as long as the input. */
  lemma SortShape(s: seq<PairResult>)
    ensures SortedByRatio(SortByRatio(s)) && |SortByRatio(s)| == |s|
  {
    SortSorted(s);
    SortPermutation(s);
    assert |multiset(SortByRatio(s))| == |multiset(s)|;
  }

  /** Entries of equal ratio keep their relative order. */
  lemma {:induction false} SortStable(s: seq<PairResult>, v: real)
    ensures WithRatio(SortByRatio(s), v) == WithRatio(s, v)
  {
    if s != [] {
      var init, last := s[..|s| - 1], s[|s| - 1];
      var extra := if last.ratio == v then [last] else [];
      SortStable(init, v);
      SortSorted(init);
      assert SortByRatio(s) == InsertByRatio(last, SortByRatio(init));
      InsertWithRatio(last, SortByRatio(init), v);
      assert s == init + [last];
      WithRatioAppend(init, [last], v);
      assert [last][1..] == [];
      assert WithRatio([last], v) == extra + WithRatio([], v);
    }
  }

  // ---------------------------------------------------------------------------------------
  // What the loops collect.

  lemma {:induction false} RowSound(row: seq<PairResult>, threshold: Threshold, i: nat, m: nat, x: PairResult)
    requires m <= |row| && x in Row(row, threshold, i, m)
    ensures exists j :: 0 <= j < m && Keeps(threshold, i, j, row[j]) && x == row[j]
  {
    var last := if Keeps(threshold, i, m - 1, row[m - 1]) then [row[m - 1]] else [];
    InAppend(x, Row(row, threshold, i, m - 1), last);
    if x in Row(row, threshold, i, m - 1) {
      RowSound(row, threshold, i, m - 1, x);
    } else {
      assert Keeps(threshold, i, m - 1, row[m - 1]) && x == row[m - 1];
    }
  }

  lemma {:induction false} GridSound(cells: seq<seq<PairResult>>, threshold: Threshold, k: nat, x: PairResult)
    requires k <= |cells| && x in Grid(cells, threshold, k)
    ensures exists i, j :: 0 <= i < k && 0 <= j < |cells[i]| && Keeps(threshold, i, j, cells[i][j]) && x == cells[i][j]
  {
    var row := cells[k - 1];
    InAppend(x, Grid(cells, threshold, k - 1), Row(row, threshold, k - 1, |row|));
    if x in Grid(cells, threshold, k - 1) {
      GridSound(cells, threshold, k - 1, x);
      var i, j :| 0 <= i < k - 1 && 0 <= j < |cells[i]| && Keeps(threshold, i, j, cells[i][j]) && x == cells[i][j];
    } else {
      RowSound(row, threshold, k - 1, |row|, x);
      var j :| 0 <= j < |row| && Keeps(threshold, k - 1, j, row[j]) && x == row[j];
    }
  }

  lemma {:induction false} RowComplete(row: seq<PairResult>, threshold: Threshold, i: nat, j: nat, m: nat)
    requires j < m <= |row| && Keeps(threshold, i, j, row[j])
    ensures row[j] in Row(row, threshold, i, m)
  {
    var last := if Keeps(threshold, i, m - 1, row[m - 1]) then [row[m - 1]] else [];
    InAppend(row[j], Row(row, threshold, i, m - 1), last);
    if j < m - 1 {
      RowComplete(row, threshold, i, j, m - 1);
    }
  }

  lemma {:induction false} GridComplete(cells: seq<seq<PairResult>>, threshold: Threshold, i: nat, j: nat, k: nat)
    requires i < k <= |cells| && j < |cells[i]| && Keeps(threshold, i, j, cells[i][j])
    ensures cells[i][j] in Grid(cells, threshold, k)
  {
    var row := cells[k - 1];
    InAppend(cells[i][j], Grid(cells, threshold, k - 1), Row(row, threshold, k - 1, |row|));
    if i < k - 1 {
      GridComplete(cells, threshold, i, j, k - 1);
    } else {
      RowComplete(row, threshold, i, j, |row|);
    }
  }

  lemma {:induction false} RowCount(row: seq<PairResult>, threshold: Threshold, i: nat, m: nat)
    requires m <= |row|
    ensures |Row(row, threshold, i, m)| <= (if i < m then m - 1 else m)
  {
    if m > 0 {
      RowCount(row, threshold, i, m - 1);
    }
  }

  lemma {:induction false} GridCount(cells: seq<seq<PairResult>>, threshold: Threshold, k: nat)
    requires Square(cells) && k <= |cells|
    ensures |Grid(cells, threshold, k)| <= k * (|cells| - 1)
  {
    if k > 0 {
      GridCount(cells, threshold, k - 1);
      RowCount(cells[k - 1], threshold, k - 1, |cells|);
      MulStep(k, |cells| - 1);
    }
  }

  lemma MulStep(k: nat, m: int)
    requires k > 0
    ensures (k - 1) * m + m == k * m
  {
  }

  /** Every reported pair joins two distinct colours, carries their ratio and the levels
      that ratio meets, among them `threshold`, and names the colours by their normal form. */
  lemma PairsSound(colors: seq<ParsedColor>, threshold: Threshold, x: PairResult)
    requires x in PairsOf(colors, threshold)
    ensures exists i, j :: 0 <= i < |colors| && 0 <= j < |colors| && i != j
                          && x.fg == colors[i].hex && x.bg == colors[j].hex
                          && x.ratio == ContrastRatio(colors[i], colors[j])
                          && x.passes == Passes(x.ratio) && threshold in x.passes
  {
    var cells := Cells(colors);
    var g := Grid(cells, threshold, |colors|);
    SortPermutation(g);
    assert x in multiset(g);
    GridSound(cells, threshold, |colors|, x);
    var i, j :| 0 <= i < |colors| && 0 <= j < |cells[i]| && Keeps(threshold, i, j, cells[i][j]) && x == cells[i][j];
    assert cells[i][j] == PairOf(colors, i, j);
  }

  /** Every ordered pair of distinct colours whose ratio meets `threshold` is reported. */
  lemma PairsComplete(colors: seq<ParsedColor>, threshold: Threshold, i: nat, j: nat)
    requires i < |colors| && j < |colors| && i != j
    requires threshold in Passes(ContrastRatio(colors[i], colors[j]))
    ensures PairOf(colors, i, j) in PairsOf(colors, threshold)
  {
    var cells := Cells(colors);
    var g := Grid(cells, threshold, |colors|);
    assert cells[i][j] == PairOf(colors, i, j);
    GridComplete(cells, threshold, i, j, |colors|);
    SortPermutation(g);
    assert PairOf(colors, i, j) in multiset(PairsOf(colors, threshold));
  }

  /** The list is ordered by ratio, highest first, holds at most n(n-1) entries, and is
      empty for fewer than two colours. */
  lemma PairsShape(colors: seq<ParsedColor>, threshold: Threshold)
    ensures SortedByRatio(PairsOf(colors, threshold))
    ensures |PairsOf(colors, threshold)| <= |colors| * (|colors| - 1)
    ensures |colors| < 2 ==> PairsOf(colors, threshold) == []
  {
    var cells := Cells(colors);
    var g := Grid(cells, threshold, |colors|);
    SortShape(g);
    GridCount(cells, threshold, |colors|);
    if |colors| < 2 {
      assert |colors| * (|colors| - 1) == 0;
    }
  }
}

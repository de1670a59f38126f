/** The rule-based validators of src/app/components/ColorValidator.tsx: the checks on one
    colour string, the checks on a whole palette, and the ratio classifier shown next to a
    contrast ratio. Messages are the component's own (Spanish) texts. */
module ColorValidator {
  import opened Results
  import opened Text
  import opened Colors
  import opened Wcag
  import opened SeqFacts

  /** The outcome of a validation: whether the input passed, and its errors, warnings and
      suggestions in the order they were found. */
  datatype Validation = Validation(isValid: bool, errors: seq<string>, warnings: seq<string>, suggestions: seq<string>)

  const EmptyColor := "El color no puede estar vacío"
  const BadFormat := "Formato HEX inválido. Use #RGB o #RRGGBB"
  const FormatExamples := "Ejemplos válidos: #000, #000000, #fff, #ffffff"
  const Monochrome := "Color monocromático detectado"
  const VeryDark := "Color muy oscuro detectado"
  const LighterAdvice := "Considere usar un color más claro para mejor legibilidad"
  const VeryLight := "Color muy claro detectado"
  const DarkerAdvice := "Considere usar un color más oscuro para mejor legibilidad"

  // ---------------------------------------------------------------------------------------
  // The channel means. A mean `(a + b + c) / 3` is compared with a bound `x` by comparing the
  // integer total `a + b + c` with `3 * x`, which is exact.

  /** The mean of three channels whose sum is `total` lies below `x`. */
  predicate MeanBelow(total: int, x: int) {
    total < 3 * x
  }

  /** The mean of three channels whose sum is `total` lies above `x`. */
  predicate MeanAbove(total: int, x: int) {
    total > 3 * x
  }

  /** The comparisons on the total are the comparisons of the real mean. */
  lemma MeanComparisons(total: int, x: int)
    ensures MeanBelow(total, x) <==> (total as real) / 3.0 < x as real
    ensures MeanAbove(total, x) <==> (total as real) / 3.0 > x as real
  {
  }

  // ---------------------------------------------------------------------------------------
  // validateColor

  /** Every character of `chars` equals the first one (true on the empty string). */
  predicate AllSame(chars: string) {
    forall k :: 0 <= k < |chars| ==> chars[k] == chars[0]
  }

  /** `t.slice(k, k + 2)` on a seven-character code: the two digits of one channel. */
  function ChannelText(t: string, k: nat): string
    requires k + 1 < |t|
  {
    [t[k], t[k + 1]]
  }

  /** What `validateColor(color)` returns. */
  function ColorReport(color: string): (r: Validation)
    ensures r.isValid <==> r.errors == []
    ensures |r.errors| <= 1
  {
    var t := Trim(color);
    if t == [] then Validation(false, [EmptyColor], [], []) else CodeReport(t)
  }

  /** What `validateColor` returns for a non-blank colour whose trimmed text is `t`. */
  function CodeReport(t: string): (r: Validation)
    ensures r.isValid <==> r.errors == []
    ensures |r.errors| <= 1
  {
    if !(IsShortHex(t) || IsLongHex(t)) then Validation(false, [BadFormat], [], [FormatExamples])
    else if |t| == 4 then Validation(true, [], if AllSame(t[1..]) then [Monochrome] else [], [])
    else
      var r, g, b := ChannelText(t, 1), ChannelText(t, 3), ChannelText(t, 5);
      var total := ParseByte(r) + ParseByte(g) + ParseByte(b);
      var mono := if r == g && g == b then [Monochrome] else [];
      if MeanBelow(total, 20) then Validation(true, [], mono + [VeryDark], [LighterAdvice])
      else if MeanAbove(total, 235) then Validation(true, [], mono + [VeryLight], [DarkerAdvice])
      else Validation(true, [], mono, [])
  }

  /** `validateColor`: empty or blank input and a malformed hex code end the check early;
      a valid code may collect warnings about its channels. */
  method ValidateColor(color: string) returns (v: Validation)
    ensures v == ColorReport(color)
  {
    if color == [] || Trim(color) == [] {
      var errors: seq<string> := [];
      errors := errors + [EmptyColor];
      assert ColorReport(color) == Validation(false, [EmptyColor], [], []);
      return Validation(false, errors, [], []);
    }
    var trimmed := Trim(color);
    v := ValidateCode(trimmed);
  }

  /** The format check and the notes on the trimmed, non-blank text `t`. */
  method ValidateCode(t: string) returns (v: Validation)
    ensures v == CodeReport(t)
  {
    var errors: seq<string> := [];
    var warnings: seq<string> := [];
    var suggestions: seq<string> := [];
    if !(IsShortHex(t) || IsLongHex(t)) {
      errors := errors + [BadFormat];
      suggestions := suggestions + [FormatExamples];
      return Validation(false, errors, warnings, suggestions);
    }
    if |t| == 4 {
      var chars := t[1..];
      if forall k :: 0 <= k < |chars| ==> chars[k] == chars[0] {
        warnings := warnings + [Monochrome];
      }
    } else if |t| == 7 {
      warnings, suggestions := LongCodeNotes(t);
    }
    return Validation(true, errors, warnings, suggestions);
  }

  /** The notes on a `#RRGGBB` code: monochrome when the three pairs agree, then very dark or
      very light by the channel mean. */
  method LongCodeNotes(t: string) returns (warnings: seq<string>, suggestions: seq<string>)
    requires IsLongHex(t)
    ensures CodeReport(t) == Validation(true, [], warnings, suggestions)
  {
    assert |t| == 7 && !IsShortHex(t);
    warnings, suggestions := [], [];
    var r, g, b := ChannelText(t, 1), ChannelText(t, 3), ChannelText(t, 5);
    if r == g && g == b {
      warnings := warnings + [Monochrome];
    }
    var total := ParseByte(r) + ParseByte(g) + ParseByte(b);
    if MeanBelow(total, 20) {
      warnings := warnings + [VeryDark];
      suggestions := suggestions + [LighterAdvice];
    } else if MeanAbove(total, 235) {
      warnings := warnings + [VeryLight];
      suggestions := suggestions + [DarkerAdvice];
    }
  }

  /** On a `#RRGGBB` code `parseInt(…, 16)` of each channel pair is the channel byte, so the
      mean `validateColor` compares is never NaN. */
  lemma LongHexChannels(t: string)
    requires IsLongHex(t)
    ensures forall k :: k in {1, 3, 5} ==>
      ParseIntHex(ChannelText(t, k)).Some? && ParseIntHex(ChannelText(t, k)).value == ParseByte(ChannelText(t, k))
  {
    forall k | k in {1, 3, 5}
      ensures ParseIntHex(ChannelText(t, k)).Some? && ParseIntHex(ChannelText(t, k)).value == ParseByte(ChannelText(t, k))
    {
      ParseByteIsParseInt(ChannelText(t, k));
    }
  }

  /** The sum of the three channel bytes of a `#RRGGBB` code. */
  function ChannelSum(t: string): nat
    requires IsLongHex(t)
  {
    ParseByte(ChannelText(t, 1)) + ParseByte(ChannelText(t, 3)) + ParseByte(ChannelText(t, 5))
  }

  /** Blank input: invalid, exactly one error, nothing else. */
  lemma BlankColor(color: string)
    requires forall i :: 0 <= i < |color| ==> IsWhitespace(color[i])
    ensures ColorReport(color) == Validation(false, [EmptyColor], [], [])
  {
  }

  /** A trimmed code is valid exactly when it is `#RGB` or `#RRGGBB`; a valid code has no
      error, a rejected one exactly one error and one suggestion and no warning. */
  lemma CodeValidity(t: string)
    ensures CodeReport(t).isValid <==> IsShortHex(t) || IsLongHex(t)
    ensures CodeReport(t).isValid ==> CodeReport(t).errors == []
    ensures !CodeReport(t).isValid ==> CodeReport(t) == Validation(false, [BadFormat], [], [FormatExamples])
  {
  }

  /** A colour is valid exactly when `normalizeHex` accepts its trimmed text; an invalid
      colour has exactly one error. */
  lemma ColorValidity(color: string)
    ensures ColorReport(color).isValid <==> NormalizeHex(Trim(color)).Success?
    ensures ColorReport(color).isValid ==> ColorReport(color).errors == []
    ensures !ColorReport(color).isValid ==> |ColorReport(color).errors| == 1
  {
    var t := Trim(color);
    if t != [] {
      CodeValidity(t);
    }
  }

  /** On a `#RRGGBB` code the monochrome warning appears exactly when the three channel
      pairs are equal; a `#RGB` code gets it exactly when its three digits are equal. */
  lemma MonochromeWarning(t: string)
    ensures IsLongHex(t) ==> (Monochrome in CodeReport(t).warnings <==> t[1] == t[3] == t[5] && t[2] == t[4] == t[6])
    ensures IsShortHex(t) ==> (Monochrome in CodeReport(t).warnings <==> t[1] == t[2] == t[3])
  {
    if IsLongHex(t) {
      ColorMessagesDistinct();
    }
    if IsShortHex(t) {
      assert AllSame(t[1..]) <==> t[1] == t[2] == t[3] by {
        assert t[1..][1] == t[2] && t[1..][2] == t[3];
      }
    }
  }

  /** The darkness and lightness warnings: only a `#RRGGBB` code can get one, "very dark"
      needs a channel mean below 20, "very light" a mean above 235, so they never come
      together; each comes with its advice. */
  lemma LightnessWarnings(t: string)
    ensures VeryDark in CodeReport(t).warnings <==> IsLongHex(t) && ChannelSum(t) < 60
    ensures VeryLight in CodeReport(t).warnings <==> IsLongHex(t) && ChannelSum(t) > 705
    ensures !(VeryDark in CodeReport(t).warnings && VeryLight in CodeReport(t).warnings)
    ensures LighterAdvice in CodeReport(t).suggestions <==> VeryDark in CodeReport(t).warnings
    ensures DarkerAdvice in CodeReport(t).suggestions <==> VeryLight in CodeReport(t).warnings
  {
    ColorMessagesDistinct();
    if (IsShortHex(t) || IsLongHex(t)) && |t| != 4 {
      assert !IsShortHex(t) && IsLongHex(t);
    }
  }

  /** The warnings and suggestions `validateColor` can give are pairwise different. */
  lemma ColorMessagesDistinct()
    ensures Monochrome != VeryDark && Monochrome != VeryLight && VeryDark != VeryLight
    ensures FormatExamples != LighterAdvice && FormatExamples != DarkerAdvice && LighterAdvice != DarkerAdvice
  {
    assert Monochrome[7] == 'o' && VeryDark[7] == 'u' && VeryLight[7] == 'u';
    assert VeryDark[10] == 'o' && VeryLight[10] == 'c';
    assert FormatExamples[42] == 'f' && LighterAdvice[42] == 'o' && DarkerAdvice[42] == 'j';
  }

  // ---------------------------------------------------------------------------------------
  // validatePalette

  const EmptyPalette := "La paleta no puede estar vacía"
  const TooFew := "Se necesitan al menos 2 colores para analizar"
  const ManyColors := "Muchos colores en la paleta"
  const FewerAdvice := "Considere reducir a 5-7 colores para mejor usabilidad"
  const Duplicates := "Colores duplicados detectados"
  const DuplicatesAdvice := "Elimine los colores duplicados para optimizar el análisis"
  const Similar := "Paleta con colores muy similares"
  const SimilarAdvice := "Considere agregar más contraste entre los colores"

  /** The header counting the invalid colours. */
  function InvalidHeader(n: nat): string {
    NatToString(n) + " color(es) inválido(s)"
  }

  /** `Color ${i + 1}: ${m}`: a message about the colour at (zero-based) position `i`. */
  function Label(i: nat, m: string): string {
    "Color " + NatToString(i + 1) + ": " + m
  }

  /** Each of `msgs`, labelled with the colour at position `i`. */
  function Labelled(i: nat, msgs: seq<string>): (r: seq<string>)
    ensures |r| == |msgs| && forall k :: 0 <= k < |msgs| ==> r[k] == Label(i, msgs[k])
  {
    seq(|msgs|, k requires 0 <= k < |msgs| => Label(i, msgs[k]))
  }

  /** The validation of each colour, in palette order. */
  function Reports(colors: seq<string>): (reports: seq<Validation>)
    ensures |reports| == |colors|
  {
    seq(|colors|, i requires 0 <= i < |colors| => ColorReport(colors[i]))
  }

  /** Which list of a report a step collects; errors are collected from invalid reports only. */
  datatype Part = Errors | Warnings | Suggestions

  function Entries(v: Validation, part: Part): seq<string> {
    match part
    case Errors => if v.isValid then [] else v.errors
    case Warnings => v.warnings
    case Suggestions => v.suggestions
  }

  /** The labelled `part` messages of `reports[..k]`, each under its position in `reports`. */
  function Gathered(reports: seq<Validation>, part: Part, k: nat): seq<string>
    requires k <= |reports|
  {
    if k == 0 then [] else Gathered(reports, part, k - 1) + Labelled(k - 1, Entries(reports[k - 1], part))
  }

  /** `colorValidations.filter(v => !v.isValid)` over `reports[..k]`. */
  function InvalidList(reports: seq<Validation>, k: nat): seq<Validation>
    requires k <= |reports|
  {
    if k == 0 then []
    else InvalidList(reports, k - 1) + (if reports[k - 1].isValid then [] else [reports[k - 1]])
  }

  /** The errors the invalid colours contribute, each labelled with the colour's position in
      the palette. */
  function InvalidErrors(reports: seq<Validation>): seq<string> {
    var invalid := InvalidList(reports, |reports|);
    if |invalid| > 0 then [InvalidHeader(|invalid|)] + Gathered(reports, Errors, |reports|) else []
  }

  /** The same errors as the component numbers them: by position in the list of invalid
      colours, not in the palette. */
  function InvalidErrorsAsWritten(reports: seq<Validation>): seq<string> {
    var invalid := InvalidList(reports, |reports|);
    if |invalid| > 0 then [InvalidHeader(|invalid|)] + Gathered(invalid, Errors, |invalid|) else []
  }

  /** Each colour in lower case. */
  function Lowered(colors: seq<string>): (lowered: seq<string>)
    ensures |lowered| == |colors|
  {
    seq(|colors|, i requires 0 <= i < |colors| => Lower(colors[i]))
  }

  /** Two palette entries that are equal up to case. */
  predicate HasDuplicates(colors: seq<string>) {
    exists i, j :: 0 <= i < j < |colors| && Lower(colors[i]) == Lower(colors[j])
  }

  /** A sum of two `parseInt` results, with NaN written `None`: NaN absorbs. */
  function AddParsed(a: Option<int>, b: Option<int>): (s: Option<int>)
    ensures s.Some? <==> a.Some? && b.Some?
    ensures s.Some? ==> s.value == a.value + b.value
  {
    if a.Some? && b.Some? then Some(a.value + b.value) else None
  }

  /** `r + g + b` over the first `k` digit pairs, `parseInt(hex.slice(2i, 2i + 2), 16)` each. */
  function PairsTotal(hex: string, k: nat): Option<int>
    decreases k
  {
    if k == 0 then Some(0) else AddParsed(PairsTotal(hex, k - 1), ParseIntHex(Slice(hex, 2 * k - 2, 2 * k)))
  }

  /** The colour in lower case, with its first `#` removed. */
  function HexDigitsOf(c: string): string {
    RemoveFirst(Lower(c), '#')
  }

  /** `Math.abs(avg - 128) < 50` for the mean of `parseInt` of the first three digit pairs; a
      NaN mean fails it. */
  predicate NearGray(hex: string) {
    var total := PairsTotal(hex, 3);
    total.Some? && -150 < total.value - 384 < 150
  }

  /** The hex text of each colour: lower case, with the first `#` removed. */
  function HexValues(colors: seq<string>): (hexes: seq<string>)
    ensures |hexes| == |colors|
  {
    seq(|colors|, i requires 0 <= i < |colors| => HexDigitsOf(colors[i]))
  }

  /** Whether each hex text is near middle grey. */
  function NearFlags(hexes: seq<string>): (flags: seq<bool>)
    ensures |flags| == |hexes|
  {
    seq(|hexes|, i requires 0 <= i < |hexes| => NearGray(hexes[i]))
  }

  /** The first `k` flags are all true. */
  predicate AllTrue(flags: seq<bool>, k: nat)
    requires k <= |flags|
  {
    k == 0 || (AllTrue(flags, k - 1) && flags[k - 1])
  }

  /** `hexValues.every(...)`: every colour is near middle grey. */
  predicate AllSimilar(colors: seq<string>) {
    AllTrue(NearFlags(HexValues(colors)), |colors|)
  }

  /** What `validatePalette(colors)` returns. The errors of the invalid colours are numbered
      as the component numbers them, by position among the invalid colours. */
  function PaletteReportAsWritten(colors: seq<string>): (r: Validation)
    ensures r.isValid <==> r.errors == []
    ensures |colors| < 2 ==> !r.isValid
  {
    if |colors| == 0 then Validation(false, [EmptyPalette], [], [])
    else if |colors| < 2 then Validation(false, [TooFew], [], [])
    else
      var reports := Reports(colors);
      PaletteChecks(colors, reports, InvalidErrorsAsWritten(reports))
  }

  /** The same report with the invalid colours' errors numbered by palette position, as the
      warnings and suggestions are. */
  function PaletteReport(colors: seq<string>): (r: Validation)
    ensures r.isValid <==> r.errors == []
    ensures |colors| < 2 ==> !r.isValid
  {
    if |colors| < 2 then PaletteReportAsWritten(colors)
    else
      var reports := Reports(colors);
      PaletteChecks(colors, reports, InvalidErrors(reports))
  }

  /** The report on a palette of at least two colours whose colours validate to `reports`,
      with `errors` as the invalid colours' errors: the many-colours and duplicate notes, the
      colours' own notes, then the diversity note; valid exactly when there are no errors. */
  function PaletteChecks(colors: seq<string>, reports: seq<Validation>, errors: seq<string>): Validation {
    var many := |colors| > 10;
    var dup := |SetOf(Lowered(colors))| != |colors|;
    var similar := |colors| >= 3 && AllSimilar(colors);
    var warnings := Push(Push([], many, ManyColors), dup, Duplicates) + Gathered(reports, Warnings, |reports|);
    var suggestions := Push(Push([], many, FewerAdvice), dup, DuplicatesAdvice) + Gathered(reports, Suggestions, |reports|);
    Validation(errors == [], errors, Push(warnings, similar, Similar), Push(suggestions, similar, SimilarAdvice))
  }

  /** `validatePalette`: the size checks return early; then the many-colours and duplicate
      checks, the per-colour validations and the diversity check push their messages. */
  method ValidatePalette(colors: seq<string>) returns (v: Validation)
    ensures v == PaletteReportAsWritten(colors)
  {
    var errors: seq<string> := [];
    var warnings: seq<string> := [];
    var suggestions: seq<string> := [];
    if |colors| == 0 {
      errors := errors + [EmptyPalette];
      return Validation(false, errors, warnings, suggestions);
    }
    if |colors| < 2 {
      errors := errors + [TooFew];
      return Validation(false, errors, warnings, suggestions);
    }
    if |colors| > 10 {
      warnings := warnings + [ManyColors];
      suggestions := suggestions + [FewerAdvice];
    }
    var uniqueColors := SetOf(Lowered(colors));
    if |uniqueColors| != |colors| {
      warnings := warnings + [Duplicates];
      suggestions := suggestions + [DuplicatesAdvice];
    }
    var reports := ValidateAll(colors);
    errors := PushInvalidErrors(reports, errors);
    warnings, suggestions := PushNotes(reports, warnings, suggestions);
    if |colors| >= 3 {
      var allSimilar := AllNearGray(colors);
      if allSimilar {
        warnings := warnings + [Similar];
        suggestions := suggestions + [SimilarAdvice];
      }
    }
    assert errors == InvalidErrorsAsWritten(Reports(colors));
    return Validation(|errors| == 0, errors, warnings, suggestions);
  }

  /** One more report: its messages are appended, and nothing when it has none. */
  lemma GatheredNext(reports: seq<Validation>, part: Part, i: nat)
    requires i < |reports|
    ensures Entries(reports[i], part) != [] ==>
      Gathered(reports, part, i + 1) == Gathered(reports, part, i) + Labelled(i, Entries(reports[i], part))
    ensures Entries(reports[i], part) == [] ==> Gathered(reports, part, i + 1) == Gathered(reports, part, i)
    ensures part == Warnings ==> Entries(reports[i], part) == reports[i].warnings
    ensures part == Suggestions ==> Entries(reports[i], part) == reports[i].suggestions
    ensures part == Errors ==> Entries(reports[i], part) == if reports[i].isValid then [] else reports[i].errors
  {
    assert Labelled(i, []) == [];
    assert Gathered(reports, part, i) + [] == Gathered(reports, part, i);
  }

  /** Once a flag is false, every longer prefix fails `every`. */
  lemma {:induction false} AllTrueFalse(flags: seq<bool>, i: nat, k: nat)
    requires 0 < i <= k <= |flags| && !flags[i - 1]
    ensures !AllTrue(flags, k)
    decreases k
  {
    if k > i {
      AllTrueFalse(flags, i, k - 1);
    }
  }

  /** Validates each colour in turn, collecting the results in palette order. */
  method ValidateAll(colors: seq<string>) returns (reports: seq<Validation>)
    ensures reports == Reports(colors)
  {
    reports := [];
    for i := 0 to |colors|
      invariant reports == Reports(colors)[..i]
    {
      var v := ValidateColor(colors[i]);
      TakeStep(Reports(colors), i);
      reports := reports + [v];
    }
  }

  /** The invalid-colour step: when some colour is invalid, a header with the number of
      invalid colours, then the errors of each invalid colour, labelled with its position in
      the list of invalid colours. */
  method PushInvalidErrors(reports: seq<Validation>, errors0: seq<string>) returns (errors: seq<string>)
    ensures errors == errors0 + InvalidErrorsAsWritten(reports)
  {
    var invalidColors := FilterInvalid(reports);
    errors := errors0;
    if |invalidColors| > 0 {
      InvalidListMembers(reports, |reports|);
      errors := PushLabelledErrors(invalidColors, errors + [InvalidHeader(|invalidColors|)]);
      AppendAssoc(errors0, [InvalidHeader(|invalidColors|)], Gathered(invalidColors, Errors, |invalidColors|));
    }
  }

  /** Keeps the invalid reports, in palette order. */
  method FilterInvalid(reports: seq<Validation>) returns (invalidColors: seq<Validation>)
    ensures invalidColors == InvalidList(reports, |reports|)
  {
    invalidColors := [];
    for i := 0 to |reports|
      invariant invalidColors == InvalidList(reports, i)
    {
      if !reports[i].isValid {
        invalidColors := invalidColors + [reports[i]];
      }
    }
  }

  /** `invalidColors.forEach((validation, index) => ...)`: the errors of each invalid report,
      labelled with its index in `invalidColors`, after `errors0`. */
  method PushLabelledErrors(invalidColors: seq<Validation>, errors0: seq<string>) returns (errors: seq<string>)
    requires forall v :: v in invalidColors ==> !v.isValid
    ensures errors == errors0 + Gathered(invalidColors, Errors, |invalidColors|)
  {
    errors := errors0;
    for index := 0 to |invalidColors|
      invariant errors == errors0 + Gathered(invalidColors, Errors, index)
    {
      GatheredNext(invalidColors, Errors, index);
      AppendAssoc(errors0, Gathered(invalidColors, Errors, index), Labelled(index, invalidColors[index].errors));
      errors := errors + Labelled(index, invalidColors[index].errors);
    }
  }

  /** The step that copies every colour's warnings and suggestions, labelled with the
      colour's position in the palette. */
  method PushNotes(reports: seq<Validation>, warnings0: seq<string>, suggestions0: seq<string>)
    returns (warnings: seq<string>, suggestions: seq<string>)
    ensures warnings == warnings0 + Gathered(reports, Warnings, |reports|)
    ensures suggestions == suggestions0 + Gathered(reports, Suggestions, |reports|)
  {
    warnings, suggestions := warnings0, suggestions0;
    for i := 0 to |reports|
      invariant warnings == warnings0 + Gathered(reports, Warnings, i)
      invariant suggestions == suggestions0 + Gathered(reports, Suggestions, i)
    {
      GatheredNext(reports, Warnings, i);
      GatheredNext(reports, Suggestions, i);
      AppendAssoc(warnings0, Gathered(reports, Warnings, i), Labelled(i, reports[i].warnings));
      AppendAssoc(suggestions0, Gathered(reports, Suggestions, i), Labelled(i, reports[i].suggestions));
      warnings := warnings + Labelled(i, reports[i].warnings);
      suggestions := suggestions + Labelled(i, reports[i].suggestions);
    }
  }

  /** The diversity check: the colours' hex texts, then whether every one is near middle grey. */
  method AllNearGray(colors: seq<string>) returns (all: bool)
    ensures all == AllSimilar(colors)
  {
    var hexValues := HexValues(colors);
    all := Every(NearFlags(hexValues));
  }

  /** `flags.every(f => f)`: it stops at the first false flag. */
  method Every(flags: seq<bool>) returns (all: bool)
    ensures all == AllTrue(flags, |flags|)
  {
    for i := 0 to |flags|
      invariant AllTrue(flags, i)
    {
      if !flags[i] {
        AllTrueFalse(flags, i + 1, |flags|);
        return false;
      }
    }
    return true;
  }

  // ---------------------------------------------------------------------------------------
  // What validatePalette promises

  /** An empty or one-colour palette is invalid with exactly one error and nothing else. */
  lemma PaletteTooSmall(colors: seq<string>)
    requires |colors| < 2
    ensures var v := PaletteReportAsWritten(colors);
      !v.isValid && |v.errors| == 1 && v.warnings == [] && v.suggestions == []
    ensures PaletteReportAsWritten(colors).errors == [if colors == [] then EmptyPalette else TooFew]
    ensures PaletteReport(colors) == PaletteReportAsWritten(colors)
  {
  }

  lemma {:induction false} InvalidListMembers(reports: seq<Validation>, k: nat)
    requires k <= |reports|
    ensures |InvalidList(reports, k)| <= k
    ensures |InvalidList(reports, k)| == 0 <==> forall i :: 0 <= i < k ==> reports[i].isValid
    ensures forall v :: v in InvalidList(reports, k) ==> !v.isValid
  {
    if k > 0 {
      InvalidListMembers(reports, k - 1);
    }
  }

  /** Under either numbering, the invalid colours contribute no error exactly when every
      report is valid, and otherwise their errors start with the header counting them. */
  lemma InvalidErrorsValidity(reports: seq<Validation>)
    ensures InvalidErrorsAsWritten(reports) == [] <==> forall i :: 0 <= i < |reports| ==> reports[i].isValid
    ensures InvalidErrors(reports) == [] <==> forall i :: 0 <= i < |reports| ==> reports[i].isValid
    ensures InvalidErrorsAsWritten(reports) != [] ==>
      InvalidErrorsAsWritten(reports)[0] == InvalidErrors(reports)[0] == InvalidHeader(|InvalidList(reports, |reports|)|)
  {
    InvalidListMembers(reports, |reports|);
  }

  /** From two colours on, the palette is valid exactly when every colour is, under either
      numbering. */
  lemma PaletteValidity(colors: seq<string>)
    requires |colors| >= 2
    ensures PaletteReportAsWritten(colors).isValid <==> forall i :: 0 <= i < |colors| ==> ColorReport(colors[i]).isValid
    ensures PaletteReport(colors).isValid <==> forall i :: 0 <= i < |colors| ==> ColorReport(colors[i]).isValid
  {
    var reports := Reports(colors);
    InvalidErrorsValidity(reports);
    assert forall i :: 0 <= i < |colors| ==> reports[i].isValid == ColorReport(colors[i]).isValid;
  }

  /** The number of `part` messages of `reports[..k]`. */
  function EntryCount(reports: seq<Validation>, part: Part, k: nat): nat
    requires k <= |reports|
  {
    if k == 0 then 0 else EntryCount(reports, part, k - 1) + |Entries(reports[k - 1], part)|
  }

  /** Gathering keeps every message: one labelled message per message of the reports. */
  lemma {:induction false} GatheredLength(reports: seq<Validation>, part: Part, k: nat)
    requires k <= |reports|
    ensures |Gathered(reports, part, k)| == EntryCount(reports, part, k)
  {
    if k > 0 {
      GatheredLength(reports, part, k - 1);
    }
  }

  /** Counting over a prefix of a longer list gives what counting over the prefix alone
      gives. */
  lemma {:induction false} EntryCountPrefix(xs: seq<Validation>, ys: seq<Validation>, part: Part, k: nat)
    requires k <= |xs|
    ensures EntryCount(xs + ys, part, k) == EntryCount(xs, part, k)
  {
    if k > 0 {
      EntryCountPrefix(xs, ys, part, k - 1);
      assert (xs + ys)[k - 1] == xs[k - 1];
    }
  }

  /** The invalid reports alone carry as many errors as all reports do. */
  lemma {:induction false} InvalidEntryCount(reports: seq<Validation>, k: nat)
    requires k <= |reports|
    ensures EntryCount(InvalidList(reports, k), Errors, |InvalidList(reports, k)|) == EntryCount(reports, Errors, k)
  {
    if k > 0 {
      InvalidEntryCount(reports, k - 1);
      var prev := InvalidList(reports, k - 1);
      if reports[k - 1].isValid {
        assert InvalidList(reports, k) == prev + [] == prev;
      } else {
        var cur := prev + [reports[k - 1]];
        assert InvalidList(reports, k) == cur;
        EntryCountPrefix(prev, [reports[k - 1]], Errors, |prev|);
        assert cur[|prev|] == reports[k - 1];
      }
    }
  }

  /** The two numberings give reports that differ only in the labels of the invalid colours'
      errors: the same validity, the same warnings and suggestions, as many errors, and the
      same first error. */
  lemma NumberingOnlyRelabels(colors: seq<string>)
    ensures PaletteReportAsWritten(colors).isValid == PaletteReport(colors).isValid
    ensures PaletteReportAsWritten(colors).warnings == PaletteReport(colors).warnings
    ensures PaletteReportAsWritten(colors).suggestions == PaletteReport(colors).suggestions
    ensures |PaletteReportAsWritten(colors).errors| == |PaletteReport(colors).errors|
    ensures PaletteReportAsWritten(colors).errors != [] ==>
      PaletteReportAsWritten(colors).errors[0] == PaletteReport(colors).errors[0]
  {
    if |colors| >= 2 {
      var reports := Reports(colors);
      var invalid := InvalidList(reports, |reports|);
      InvalidErrorsValidity(reports);
      GatheredLength(reports, Errors, |reports|);
      GatheredLength(invalid, Errors, |invalid|);
      InvalidEntryCount(reports, |reports|);
    }
  }

  /** Every collected message carries a `Color n: ` label: a space at position 5. */
  lemma {:induction false} GatheredLabelled(reports: seq<Validation>, part: Part, k: nat)
    requires k <= |reports|
    ensures forall m :: m in Gathered(reports, part, k) ==> |m| > 6 && m[..6] == "Color "
  {
    if k > 0 {
      GatheredLabelled(reports, part, k - 1);
      var msgs := Entries(reports[k - 1], part);
      forall m | m in Labelled(k - 1, msgs) ensures |m| > 6 && m[..6] == "Color " {
        var j :| 0 <= j < |msgs| && m == Label(k - 1, msgs[j]);
      }
    }
  }

  /** Each message of the report at position `i` appears among the collected messages,
      labelled with `i + 1`. */
  lemma {:induction false} GatheredComplete(reports: seq<Validation>, part: Part, k: nat, i: nat, m: string)
    requires i < k <= |reports| && m in Entries(reports[i], part)
    ensures Label(i, m) in Gathered(reports, part, k)
  {
    var last := Labelled(k - 1, Entries(reports[k - 1], part));
    InAppend(Label(i, m), Gathered(reports, part, k - 1), last);
    if i < k - 1 {
      GatheredComplete(reports, part, k - 1, i, m);
    } else {
      var j :| 0 <= j < |Entries(reports[i], part)| && Entries(reports[i], part)[j] == m;
      assert last[j] == Label(i, m);
    }
  }

  /** Every warning, suggestion and error of a report reaches the palette's lists,
      labelled with the report's position (errors only for invalid reports). */
  lemma ChecksLabels(colors: seq<string>, reports: seq<Validation>, errors: seq<string>, i: nat, m: string)
    requires i < |reports|
    ensures m in reports[i].warnings ==> Label(i, m) in PaletteChecks(colors, reports, errors).warnings
    ensures m in reports[i].suggestions ==> Label(i, m) in PaletteChecks(colors, reports, errors).suggestions
    ensures !reports[i].isValid && m in reports[i].errors ==> Label(i, m) in InvalidErrors(reports)
  {
    InvalidListMembers(reports, |reports|);
    if m in reports[i].warnings {
      GatheredComplete(reports, Warnings, |reports|, i, m);
    }
    if m in reports[i].suggestions {
      GatheredComplete(reports, Suggestions, |reports|, i, m);
    }
    if !reports[i].isValid && m in reports[i].errors {
      GatheredComplete(reports, Errors, |reports|, i, m);
    }
  }

  /** As written, every warning and suggestion of a colour reaches the palette's lists,
      labelled with the colour's position in the palette. */
  lemma PaletteNotesLabels(colors: seq<string>, i: nat, m: string)
    requires 2 <= |colors| && i < |colors|
    ensures m in ColorReport(colors[i]).warnings ==> Label(i, m) in PaletteReportAsWritten(colors).warnings
    ensures m in ColorReport(colors[i]).suggestions ==> Label(i, m) in PaletteReportAsWritten(colors).suggestions
  {
    var reports := Reports(colors);
    assert reports[i] == ColorReport(colors[i]);
    ReportChecks(colors);
    ChecksLabels(colors, reports, InvalidErrorsAsWritten(reports), i, m);
  }

  /** With the corrected numbering, every warning, suggestion and error of a colour reaches
      the palette's lists, labelled with the colour's position in the palette (errors only
      for invalid colours). */
  lemma PaletteLabels(colors: seq<string>, i: nat, m: string)
    requires 2 <= |colors| && i < |colors|
    ensures m in ColorReport(colors[i]).warnings ==> Label(i, m) in PaletteReport(colors).warnings
    ensures m in ColorReport(colors[i]).suggestions ==> Label(i, m) in PaletteReport(colors).suggestions
    ensures !ColorReport(colors[i]).isValid && m in ColorReport(colors[i]).errors ==>
      Label(i, m) in PaletteReport(colors).errors
  {
    var reports := Reports(colors);
    assert reports[i] == ColorReport(colors[i]);
    ReportChecks(colors);
    ChecksLabels(colors, reports, InvalidErrors(reports), i, m);
  }

  /** As written, every error of the invalid colour at index `j` of the invalid list is
      reported, labelled with `j + 1`. */
  lemma InvalidLabelsAsWritten(reports: seq<Validation>, j: nat, m: string)
    requires j < |InvalidList(reports, |reports|)| && m in InvalidList(reports, |reports|)[j].errors
    ensures Label(j, m) in InvalidErrorsAsWritten(reports)
  {
    var invalid := InvalidList(reports, |reports|);
    InvalidListMembers(reports, |reports|);
    assert invalid[j] in invalid;
    GatheredComplete(invalid, Errors, |invalid|, j, m);
  }

  /** Two entries equal up to case are a repeat among the lower-cased entries. */
  lemma DuplicatesAreRepeats(colors: seq<string>)
    ensures HasDuplicates(colors) <==> HasRepeat(Lowered(colors))
  {
    var lowered := Lowered(colors);
    if HasRepeat(lowered) {
      var i, j :| 0 <= i < j < |lowered| && lowered[i] == lowered[j];
      assert Lower(colors[i]) == Lower(colors[j]);
    }
    if HasDuplicates(colors) {
      var i, j :| 0 <= i < j < |colors| && Lower(colors[i]) == Lower(colors[j]);
      assert lowered[i] == lowered[j];
    }
  }

  lemma {:induction false} AllTrueEvery(flags: seq<bool>, k: nat)
    requires k <= |flags|
    ensures AllTrue(flags, k) <==> forall i :: 0 <= i < k ==> flags[i]
  {
    if k > 0 {
      AllTrueEvery(flags, k - 1);
    }
  }

  /** In a warning list built as `validatePalette` builds it, each palette-level warning is
      present exactly when its condition held: the per-colour warnings are all labelled
      "Color ...", so none of them is mistaken for one. */
  lemma NoteFlags(many: bool, dup: bool, similar: bool, gathered: seq<string>, a: string, b: string, c: string)
    requires forall m :: m in gathered ==> |m| > 6 && m[..6] == "Color "
    requires |a| > 5 && a[5] != ' ' && |b| > 5 && b[5] != ' ' && |c| > 5 && c[5] != ' '
    requires a != b && a != c && b != c
    ensures var w := Push(Push(Push([], many, a), dup, b) + gathered, similar, c);
      (a in w <==> many) && (b in w <==> dup) && (c in w <==> similar)
  {
    NotLabelled(a, gathered);
    NotLabelled(b, gathered);
    NotLabelled(c, gathered);
    var front := Push(Push([], many, a), dup, b);
    InAppend(a, front, gathered);
    InAppend(b, front, gathered);
    InAppend(c, front, gathered);
  }

  /** The three palette-level warnings differ from each other and from every "Color ..."
      label. */
  lemma PaletteWarningsDistinct()
    ensures |ManyColors| > 5 && ManyColors[5] != ' ' && |Duplicates| > 5 && Duplicates[5] != ' '
    ensures |Similar| > 5 && Similar[5] != ' '
    ensures ManyColors != Duplicates && ManyColors != Similar && Duplicates != Similar
  {
    assert ManyColors[0] == 'M' && ManyColors[5] == 's';
    assert Duplicates[0] == 'C' && Duplicates[5] == 'e';
    assert Similar[0] == 'P' && Similar[5] == 'a';
  }

  /** A message whose sixth character is not a space is none of the labelled warnings. */
  lemma NotLabelled(m: string, gathered: seq<string>)
    requires forall x :: x in gathered ==> |x| > 6 && x[..6] == "Color "
    requires |m| > 5 && m[5] != ' '
    ensures m !in gathered
  {
    assert "Color "[5] == ' ';
  }

  /** The palette-level warnings: "many colours" beyond 10 colours, "duplicates" exactly
      when two entries are equal up to case, "very similar" exactly when there are at least
      three colours and all are near middle grey. */
  lemma ChecksWarnings(colors: seq<string>, reports: seq<Validation>, errors: seq<string>)
    ensures ManyColors in PaletteChecks(colors, reports, errors).warnings <==> |colors| > 10
    ensures Duplicates in PaletteChecks(colors, reports, errors).warnings <==> HasDuplicates(colors)
    ensures Similar in PaletteChecks(colors, reports, errors).warnings <==> |colors| >= 3 && AllSimilar(colors)
  {
    GatheredLabelled(reports, Warnings, |reports|);
    SetOfSize(Lowered(colors));
    DuplicatesAreRepeats(colors);
    PaletteWarningsDistinct();
    NoteFlags(|colors| > 10, |SetOf(Lowered(colors))| != |colors|, |colors| >= 3 && AllSimilar(colors),
      Gathered(reports, Warnings, |reports|), ManyColors, Duplicates, Similar);
  }

  /** `every` holds exactly when each colour is near middle grey. */
  lemma AllSimilarEvery(colors: seq<string>)
    ensures AllSimilar(colors) <==> forall i :: 0 <= i < |colors| ==> NearGray(HexDigitsOf(colors[i]))
  {
    var hexes := HexValues(colors);
    AllTrueEvery(NearFlags(hexes), |colors|);
    forall i | 0 <= i < |colors|
      ensures NearFlags(hexes)[i] == NearGray(HexDigitsOf(colors[i]))
    {
      assert hexes[i] == HexDigitsOf(colors[i]);
    }
  }

  /** A three-digit code with all digits equal is valid, with the monochrome warning only. */
  lemma ShortMonoReport(color: string)
    requires IsShortHex(color) && color[1] == color[2] == color[3]
    ensures ColorReport(color) == Validation(true, [], [Monochrome], [])
  {
    TrimUnchanged(color);
    assert AllSame(color[1..]);
  }

  /** A text with no white space at its ends that is no hex code fails with the format error. */
  lemma NonCodeReport(color: string)
    requires color != [] && !IsWhitespace(color[0]) && !IsWhitespace(color[|color| - 1])
    requires !IsShortHex(color) && !IsLongHex(color)
    ensures ColorReport(color) == Validation(false, [BadFormat], [], [FormatExamples])
  {
    TrimUnchanged(color);
  }

  /** Both numberings of a valid colour followed by an invalid one with the single error `e`:
      as written the error is labelled colour 1, by palette position colour 2. */
  lemma ValidThenInvalid(reports: seq<Validation>, e: string)
    requires |reports| == 2 && reports[0].isValid && !reports[1].isValid && reports[1].errors == [e]
    ensures InvalidErrorsAsWritten(reports) == [InvalidHeader(1), Label(0, e)]
    ensures InvalidErrors(reports) == [InvalidHeader(1), Label(1, e)]
  {
    assert InvalidList(reports, 1) == [];
    var invalid := InvalidList(reports, 2);
    assert invalid == [reports[1]];
    assert Labelled(0, [e]) == [Label(0, e)];
    assert Labelled(1, [e]) == [Label(1, e)];
    assert Gathered(invalid, Errors, 1) == [Label(0, e)];
    assert Gathered(reports, Errors, 1) == [];
  }

  /** The numbering of the invalid colours' errors. As written, the component numbers them
      by position among the invalid colours: in `["#fff", "oops"]` the error of `"oops"`, the
      second colour, is reported as colour 1, the number the monochrome warning about `"#fff"`,
      the first colour, carries. Numbered by palette position, it is colour 2. */
  lemma InvalidNumbering(white: string, oops: string)
    requires white == "#fff" && oops == "oops"
    ensures PaletteReportAsWritten([white, oops]).errors == [InvalidHeader(1), Label(0, BadFormat)]
    ensures PaletteReport([white, oops]).errors == [InvalidHeader(1), Label(1, BadFormat)]
    ensures Label(0, Monochrome) in PaletteReportAsWritten([white, oops]).warnings
  {
    ShortMonoReport(white);
    NonCodeReport(oops);
    var colors := [white, oops];
    var reports := Reports(colors);
    assert reports[0] == ColorReport(white) && reports[1] == ColorReport(oops);
    ValidThenInvalid(reports, BadFormat);
    ReportChecks(colors);
    PaletteNotesLabels(colors, 0, Monochrome);
  }

  /** From two colours on, both reports are the palette checks with their own numbering of
      the invalid colours' errors. */
  lemma ReportChecks(colors: seq<string>)
    requires |colors| >= 2
    ensures PaletteReportAsWritten(colors) == PaletteChecks(colors, Reports(colors), InvalidErrorsAsWritten(Reports(colors)))
    ensures PaletteReport(colors) == PaletteChecks(colors, Reports(colors), InvalidErrors(Reports(colors)))
  {
  }

  // ---------------------------------------------------------------------------------------
  // getContrastLevel

  datatype ContrastLevel = ContrastLevel(level: string, color: string)

  /** `getContrastLevel(ratio)`: four tiers, cut at 7, 4.5 and 3 inclusive. */
  function GetContrastLevel(ratio: real): (c: ContrastLevel)
    ensures c.level == "Excelente" <==> AaaNormal in Passes(ratio)
    ensures c.level == "Bueno" <==> AaNormal in Passes(ratio) && AaaNormal !in Passes(ratio)
    ensures c.level == "Aceptable" <==> AaLarge in Passes(ratio) && AaNormal !in Passes(ratio)
    ensures c.level == "Pobre" <==> AaLarge !in Passes(ratio)
  {
    if ratio >= 7.0 then ContrastLevel("Excelente", "text-green-600")
    else if ratio >= 4.5 then ContrastLevel("Bueno", "text-blue-600")
    else if ratio >= 3.0 then ContrastLevel("Aceptable", "text-yellow-600")
    else ContrastLevel("Pobre", "text-red-600")
  }

  /** The tier's rank, 0 for "Pobre" up to 3 for "Excelente". */
  function Tier(c: ContrastLevel): nat {
    if c.level == "Excelente" then 3
    else if c.level == "Bueno" then 2
    else if c.level == "Aceptable" then 1
    else 0
  }

  /** The tiers are the WCAG levels: "Excelente" is AAA for normal text, "Bueno" or better
      is AA for normal text, "Aceptable" or better is AA for large text. */
  lemma ContrastLevelIsWcag(ratio: real)
    ensures Tier(GetContrastLevel(ratio)) == 3 <==> AaaNormal in Passes(ratio)
    ensures Tier(GetContrastLevel(ratio)) >= 2 <==> AaNormal in Passes(ratio)
    ensures Tier(GetContrastLevel(ratio)) >= 1 <==> AaLarge in Passes(ratio)
  {
    PassesMembers(ratio);
  }

  /** A higher ratio never gets a lower tier. */
  lemma ContrastLevelMonotone(lo: real, hi: real)
    requires lo <= hi
    ensures Tier(GetContrastLevel(lo)) <= Tier(GetContrastLevel(hi))
  {
  }
}

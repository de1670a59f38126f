# ColorCheck core, modelled in Dafny

ColorCheck is a web tool for checking colour palettes against the contrast rules of WCAG 2.1.
This project models its deterministic core and proves properties of it:

- **Colour parser** (`lib/colors.ts`): `#RGB`/`#RRGGBB` validation and normalization, the
  split into 8-bit channels, the sRGB decoding curve of IEC 61966-2-1, BT.709 relative
  luminance, and `parseColor` with the luminance rounded to six decimals.
- **Contrast engine** (`lib/contrast.ts`): the WCAG 2.1 contrast ratio rounded to two decimals,
  and the N×N contrast matrix with its diagonal policy.
- **Threshold table** (`lib/wcag.ts`): the five levels of success criteria 1.4.3, 1.4.6 and
  1.4.11 of WCAG 2.1, and `passes`.
- **Palette entry points** (`lib/index.ts`):
  - `analyzePalette`;
  - `accessiblePairs`, as two nested loops pushing into a list, followed by a stable sort by
    descending ratio.
- **Validators** (`src/app/components/ColorValidator.tsx`):
  - `validateColor` and `validatePalette`, which build their error, warning and suggestion
    lists step by step;
  - the `getContrastLevel` tiers.
- **Saved-palette store** (`src/app/hooks/usePaletteStorage.ts`): a class holding the list of
  saved palettes, with save, update and delete guarded by name, emptiness and id checks, and
  the load and statistics queries.
- **Rule-based recommender** (`src/app/api/ai/recommend/route.ts`): the two-flag palette
  analysis, the theme suggestions, the recommendation list with its summary, and the clamped
  confidence score.

Modules:

- `Results`: Option and Result types.
- `SeqFacts`: generic sequence facts and `new Set(...)`.
- `Numeric`: `+x.toFixed(k)` as exact round-half-up on reals.
- `Text`: the JavaScript string primitives used.
- `SrgbCurve`: the power branch of the decoding curve.
- One module per source file: `Colors`, `Contrast`, `Wcag`, `PaletteAnalysis`,
  `ColorValidator`, `PaletteStorage`, `Recommender`.

Numbers are `real`. `toFixed` is modelled exactly as ECMAScript defines it: the nearest
multiple, with the larger one on a tie. `Math.pow(x, 2.4)` has no exact counterpart in Dafny.
The power branch of the curve is a table of the 245 values for channels 11..255, and each entry
is proved to lie between the cube and the square of its base. The curve is also proved
strictly increasing over 0..255, so the entries ascend as the formula does.

## Model

| member | source | states |
|---|---|---|
| SeqFacts.SetOfMembers | src/app/components/ColorValidator.tsx:87 | `new Set(xs)` holds exactly the elements of `xs` |
| SeqFacts.SetOfSize | src/app/components/ColorValidator.tsx:87-88 | the set is never larger than the list, and is as large exactly when no element repeats |
| Numeric.RoundHalfUpMonotone | lib/contrast.ts:6 | rounding to a multiple of 1/scale never reverses the order of two numbers |
| Numeric.ToFixedMonotone | lib/contrast.ts:6 | `+x.toFixed(k)` never reverses the order of two numbers |
| Numeric.RoundHalfUpWhole | lib/contrast.ts:6 | a whole number is its own rounding |
| Numeric.ToFixedKeepsWhole | lib/contrast.ts:6 | `+n.toFixed(k)` is `n` for a whole `n`, so the ratios 1 and 21 survive rounding |
| Numeric.RoundHalfUpNear | lib/colors.ts:37 | the rounding is within half a unit of the input |
| Numeric.ToFixedError | lib/colors.ts:37 | `+x.toFixed(k)` differs from `x` by at most half a unit in the k-th decimal |
| Text.HexDigitValue | lib/colors.ts:20 | a hex digit's value is below 16 |
| Text.HexDigitChar | lib/colors.ts:12 | the digit written for a value below 16 is an upper-case hex digit that reads back as that value |
| Text.Upper | lib/colors.ts:12-14 | `toUpperCase` keeps the length and maps each character |
| Text.Lower | src/app/components/ColorValidator.tsx:87 | `toLowerCase` keeps the length and maps each character |
| Text.TrimStart | src/app/components/ColorValidator.tsx:16 | removes exactly the leading white space: what goes is white space, what stays starts with something else |
| Text.TrimEnd | src/app/components/ColorValidator.tsx:16 | removes exactly the trailing white space |
| Text.Trim | src/app/components/ColorValidator.tsx:16-21 | `trim()` is empty exactly when every character is white space, and otherwise starts and ends with a visible character |
| Text.TrimUnchanged | src/app/components/ColorValidator.tsx:21 | a string with no white space at its ends is its own trim |
| Text.Slice | src/app/components/ColorValidator.tsx:40-42 | `slice(a, b)` within bounds is the subsequence `s[a..b]`; an end past the length is clamped to it, and a start at or past the length, or past the end, gives the empty string (indices count characters, not UTF-16 code units) |
| Text.RemoveFirst | src/app/components/ColorValidator.tsx:112 | `replace('#', '')` changes nothing when there is no `#`; otherwise it removes exactly the first `#`: the result is the text before the first occurrence followed by the text after it |
| Text.NatToString | src/app/components/ColorValidator.tsx:98 | a count renders as a non-empty run of decimal digits with no leading zero whose decimal value is the count |
| Text.NatToStringInjective | src/app/components/ColorValidator.tsx:98 | two counts render the same exactly when they are equal |
| Text.DigitRunSplit | src/app/api/ai/recommend/route.ts:68 | a digit run followed by a text starting with a non-digit splits back into the same run and text |
| Text.DigitRunsInjective | src/app/api/ai/recommend/route.ts:68 | a template filled with two digit runs, whose middle and tail start with a non-digit, determines both runs |
| Text.HexPrefix | src/app/components/ColorValidator.tsx:114-116 | the longest prefix made of hex digits, as `parseInt(s, 16)` reads it |
| Text.ParseIntHex | src/app/components/ColorValidator.tsx:114-116 | `parseInt(s, 16)` is a number only when `s` holds a hex digit |
| Text.HexPrefixWhole | src/app/components/ColorValidator.tsx:49-51 | a run of hex digits is read whole |
| Text.HexValueTwo | src/app/components/ColorValidator.tsx:49-51 | two hex digits have value 16·hi + lo |
| Text.ParseIntHexTwoDigits | src/app/components/ColorValidator.tsx:49-51 | `parseInt` of two hex digits is the byte they spell |
| SrgbCurve.PowerBranch | lib/colors.ts:25 | `((c/255 + 0.055)/1.055)^2.4` for c in 11..255 lies in (0, 1], between the cube and the square of its base, and is 1 at 255 |
| SrgbCurve.PowerBranch11 | lib/colors.ts:25 | the same bounds for channels 11..40 |
| SrgbCurve.PowerBranch41 | lib/colors.ts:25 | the same bounds for channels 41..70 |
| SrgbCurve.PowerBranch71 | lib/colors.ts:25 | the same bounds for channels 71..100 |
| SrgbCurve.PowerBranch101 | lib/colors.ts:25 | the same bounds for channels 101..130 |
| SrgbCurve.PowerBranch131 | lib/colors.ts:25 | the same bounds for channels 131..160 |
| SrgbCurve.PowerBranch161 | lib/colors.ts:25 | the same bounds for channels 161..190 |
| SrgbCurve.PowerBranch191 | lib/colors.ts:25 | the same bounds for channels 191..220 |
| SrgbCurve.PowerBranch221 | lib/colors.ts:25 | the same bounds for channels 221..255 |
| Colors.ErrorMessage | lib/colors.ts:15 | the thrown message ends with the rejected input |
| Colors.Doubled | lib/colors.ts:12 | `split/map(c + c)/join` doubles the length, and each character is the digit it came from |
| Colors.UpperIsNormal | lib/colors.ts:14 | upper-casing `#` and six hex digits gives the normal form |
| Colors.DoubledIsNormal | lib/colors.ts:10-12 | `#` plus three doubled, upper-cased hex digits is a normal form |
| Colors.NormalizeHex | lib/colors.ts:9-16 | succeeds exactly on `#RGB` and `#RRGGBB`; otherwise fails naming the input; a success is `#` and six upper-case hex digits |
| Colors.NormalizeHexShort | lib/colors.ts:6-12 | shorthand becomes `#` and each digit doubled and upper-cased |
| Colors.NormalizeHexLong | lib/colors.ts:7-14 | the long form is only upper-cased |
| Colors.NormalizeHexKeepsDigits | lib/colors.ts:9-16 | each digit of the normal form has the value of the input digit it came from |
| Colors.NormalizeHexIdempotent | lib/colors.ts:9-16 | normalizing an accepted input twice gives what normalizing once gives |
| Colors.NormalizeHexCaseInsensitive | lib/colors.ts:6-16 | two inputs that differ only in letter case are accepted together and normalize alike |
| Colors.NormalizeHexExamples | lib/colors.ts:9-16 | `#abc` gives `#AABBCC`, `#0ea5e9` gives `#0EA5E9`; no `#`, a wrong length or a non-hex digit is rejected |
| Colors.ParseByteIsParseInt | lib/colors.ts:20 | `parseInt(pair, 16)` of a digit pair is a number, and it is the pair's byte |
| Colors.HexToRgb | lib/colors.ts:18-21 | succeeds exactly when normalization does, fails with the same error, and reads the three digit pairs of the normal form as channels 0..255 |
| Colors.PairsOfNormal | lib/colors.ts:19-20 | the slices `0,2`, `2,4`, `4,6` after the `#` are the three digit pairs |
| Colors.FormatHex | lib/colors.ts:18-21 | the inverse rendering of a channel triple is a normal form |
| Colors.ByteDigitsRoundTrip | lib/colors.ts:20 | an upper-case digit pair read as a byte and written back is the same pair |
| Colors.FormatOfNormal | lib/colors.ts:18-21 | a normal form is the rendering of the triple its pairs spell |
| Colors.HexToRgbThenFormat | lib/colors.ts:18-21 | rendering the channels of an accepted input gives its normal form |
| Colors.NormalIsFixed | lib/colors.ts:9-16 | a normal form normalizes to itself |
| Colors.FormatThenHexToRgb | lib/colors.ts:18-21 | reading the rendering of a triple gives the triple back |
| Colors.SrgbToLinear | lib/colors.ts:23-26 | the decoded channel lies in [0, 1], is 0 for channel 0 and 1 for channel 255 |
| Colors.SrgbToLinearStep | lib/colors.ts:23-26 | each channel decodes above the one before it, across the branch split too |
| Colors.SrgbToLinearIncreasing | lib/colors.ts:23-26 | a smaller channel decodes to a smaller value |
| Colors.SrgbToLinearMonotone | lib/colors.ts:23-26 | the curve is strictly increasing: one channel decodes below another exactly when it is smaller |
| SrgbCurve.PowerBranchRises | lib/colors.ts:25 | consecutive table entries increase, within a table and across two |
| Colors.LinearBranchExactlyUpTo10 | lib/colors.ts:25 | `c/255 <= 0.04045` holds exactly for channels 0..10, which take `c/255/12.92`; channels 11..255 take the power branch |
| Colors.RelativeLuminance | lib/colors.ts:28-31 | the weighted sum lies in [0, 1], equals the decoded channel for a grey, is 0 for black and 1 for white |
| Colors.RoundedLuminanceInUnit | lib/colors.ts:37 | rounding a luminance to six decimals keeps it in [0, 1] |
| Colors.RoundedLuminance | lib/colors.ts:37 | `Number(l.toFixed(6))` of a luminance in [0, 1] stays in [0, 1] and within 5·10⁻⁷ of it |
| Colors.StoredLuminance | lib/colors.ts:37 | the stored luminance is within 5·10⁻⁷ of the exact one |
| Colors.HexToRgbOfNormal | lib/colors.ts:34-35 | reading channels from the normal form gives the channels of the input |
| Colors.ParseColor | lib/colors.ts:33-38 | succeeds exactly when normalization does; keeps the input verbatim, with the normal form, the channels of `hexToRgb` and the rounded luminance |
| Colors.BlackIsZero | lib/colors.ts:33-38 | `#000000` parses to channels 0 and luminance 0 |
| Colors.WhiteIsOne | lib/colors.ts:33-38 | `#FFFFFF` and `#fff` parse to channels 255 and luminance 1 |
| Contrast.RawRatioBounds | lib/contrast.ts:4-6 | the unrounded ratio lies in [1, 21] |
| Contrast.ContrastRatio | lib/contrast.ts:3-7 | the rounded ratio lies in [1, 21] |
| Contrast.ContrastRatioSymmetric | lib/contrast.ts:4-5 | the ratio does not depend on which colour is the foreground |
| Contrast.ContrastRatioEqualLuminance | lib/contrast.ts:4-6 | colours of equal luminance (a colour and itself) have ratio 1 |
| Contrast.ContrastRatioBlackWhite | lib/contrast.ts:4-6 | luminances 0 and 1 give exactly 21 in either order |
| Contrast.BlackOnWhite | lib/contrast.ts:3-7 | the parsed `#000000` and `#FFFFFF` are 21 apart |
| Contrast.BuildContrastMatrix | lib/contrast.ts:9-13 | the matrix is N×N, entry `[i][j]` following the diagonal policy |
| Contrast.MatrixEntries | lib/contrast.ts:10-12 | without `includeSelf` the diagonal is 1; off the diagonal `[i][j]` is `contrastRatio(colors[i], colors[j])` |
| Contrast.MatrixSymmetricInRange | lib/contrast.ts:9-13 | the matrix is symmetric and every entry lies in [1, 21] |
| Contrast.IncludeSelfIrrelevant | lib/contrast.ts:11 | both diagonal policies give the same matrix |
| Wcag.TablePosition | lib/wcag.ts:3-9 | every level has a place in the declared order |
| Wcag.MinimumRatio | lib/wcag.ts:3-9 | every minimum ratio lies between 3 and 7 |
| Wcag.Passes | lib/wcag.ts:11-13 | a level is in `passes(r)` exactly when `r` reaches its minimum, the boundary included |
| Wcag.Criteria | lib/index.ts:8 | `criteria` maps each level to its minimum ratio |
| Wcag.PassingFromMembers | lib/wcag.ts:11-13 | the filter over the table from position k keeps exactly the later levels whose minimum the ratio reaches |
| Wcag.PassingFromOrdered | lib/wcag.ts:11-13 | that filter keeps the table order |
| Wcag.PassesMembers | lib/wcag.ts:11-13 | a level is in `passes(r)` exactly when `r` reaches its minimum, the boundary included |
| Wcag.PassesOrdered | lib/wcag.ts:3-13 | `passes(r)` follows the table order, so no level appears twice |
| Wcag.PassesMonotone | lib/wcag.ts:12 | a higher ratio passes every level a lower one passes |
| Wcag.EqualMinimumsGoTogether | lib/wcag.ts:4-8 | AA normal passes with AAA large, and AA large with UI graphics |
| Wcag.PassesExtremes | lib/wcag.ts:4-13 | below 3 nothing passes; from 7 on all five levels pass |
| Wcag.PassesBetween | lib/wcag.ts:4-13 | from 4.5 up to 7 all but AAA normal pass; from 3 up to 4.5 only AA large and UI graphics |
| PaletteAnalysis.Collect | lib/index.ts:6 | a success holds one value per entry; a failure is the failure of some entry |
| PaletteAnalysis.ParsedEntries | lib/index.ts:6 | entry `i` is `parseColor(palette[i])` |
| PaletteAnalysis.ParseAll | lib/index.ts:6 | a parsed palette has one colour per entry |
| PaletteAnalysis.CollectAll | lib/index.ts:6 | the collection succeeds exactly when every entry does |
| PaletteAnalysis.ParseAllEntries | lib/index.ts:6 | the palette parses exactly when every entry parses, and then colour `i` is `parseColor(palette[i])` |
| PaletteAnalysis.ParseAllFirstError | lib/index.ts:6-12 | otherwise the error is that of an entry that does not parse: no partial result |
| PaletteAnalysis.ParseAllErrorNamesEntry | lib/index.ts:6 | the error names one of the palette's entries |
| PaletteAnalysis.AnalyzePalette | lib/index.ts:5-9 | fails exactly when parsing does; returns the parsed colours, the matrix with `includeSelf` defaulting to false, and the threshold table |
| PaletteAnalysis.Cells | lib/index.ts:15-23 | the candidate entry of every ordered pair, N×N |
| PaletteAnalysis.AccessiblePairs | lib/index.ts:11-28 | fails exactly when parsing does; otherwise returns the sorted entries of the passing ordered pairs |
| PaletteAnalysis.ScanPairs | lib/index.ts:15-26 | the nested loops followed by the sort give the specified pair list |
| PaletteAnalysis.PushRow | lib/index.ts:16-24 | one inner loop appends the kept entries of row `i` in column order |
| PaletteAnalysis.RowSkipsDiagonal | lib/index.ts:17 | column `i` of row `i` adds nothing |
| PaletteAnalysis.PushPair | lib/index.ts:18-23 | one step computes the inline ratio, which equals `contrastRatio`, and appends the entry exactly when its `passes` list holds the threshold |
| PaletteAnalysis.InlineRatio | lib/index.ts:19-21 | the ratio written out inline, lighter over darker luminance rounded to two decimals, equals `contrastRatio` |
| PaletteAnalysis.RowStep | lib/index.ts:18-23 | for a column other than the diagonal, a row grows by the candidate entry exactly when it meets the threshold |
| PaletteAnalysis.InsertMultiset | lib/index.ts:26 | insertion adds exactly the inserted entry |
| PaletteAnalysis.InsertSorted | lib/index.ts:26 | insertion into a list ordered by descending ratio keeps it ordered |
| PaletteAnalysis.WithRatioAppend | lib/index.ts:26 | the entries of one ratio in a concatenation are those of each part, in order |
| PaletteAnalysis.WithRatioNone | lib/index.ts:26 | a list with no entry of ratio `v` has none to pick |
| PaletteAnalysis.InsertWithRatio | lib/index.ts:26 | insertion puts the new entry after the existing entries of its ratio |
| PaletteAnalysis.SortSorted | lib/index.ts:26 | the sorted list runs from the highest ratio down |
| PaletteAnalysis.SortPermutation | lib/index.ts:26 | sorting is a permutation |
| PaletteAnalysis.SortShape | lib/index.ts:26 | the sorted list is ordered and as long as the input |
| PaletteAnalysis.SortStable | lib/index.ts:26 | entries of equal ratio keep their relative order |
| PaletteAnalysis.RowSound | lib/index.ts:16-23 | every entry of a row's output is a kept candidate of that row |
| PaletteAnalysis.GridSound | lib/index.ts:15-23 | every entry of the loops' output is a kept candidate of some row and column |
| PaletteAnalysis.RowComplete | lib/index.ts:16-23 | every kept candidate of a row is in that row's output |
| PaletteAnalysis.GridComplete | lib/index.ts:15-25 | every kept candidate is in the loops' output |
| PaletteAnalysis.RowCount | lib/index.ts:16-17 | a row outputs at most one entry per column other than the diagonal |
| PaletteAnalysis.GridCount | lib/index.ts:15-17 | the loops output at most n(n−1) entries |
| PaletteAnalysis.PairsSound | lib/index.ts:15-23 | every reported pair joins distinct colours `i ≠ j`: `fg`/`bg` are their normal forms, the ratio is `contrastRatio`, `passes` is `passes(ratio)` and holds the threshold |
| PaletteAnalysis.PairsComplete | lib/index.ts:15-25 | every ordered pair of distinct colours whose ratio passes the threshold is reported |
| PaletteAnalysis.PairsShape | lib/index.ts:15-26 | the list is sorted by descending ratio, has at most n(n−1) entries, and is empty below two colours |
| ColorValidator.MeanComparisons | src/app/components/ColorValidator.tsx:52-60 | comparing the channel total with 3·x decides `avg < x` and `avg > x` for the real mean |
| ColorValidator.ValidateColor | src/app/components/ColorValidator.tsx:10-64 | the step-by-step pushes with early returns produce the specified report |
| ColorValidator.ColorReport | src/app/components/ColorValidator.tsx:10-64 | a colour is valid exactly when it has no error, and it has at most one error |
| ColorValidator.CodeReport | src/app/components/ColorValidator.tsx:21-63 | a non-blank colour is valid exactly when it has no error, and it has at most one error |
| ColorValidator.ValidateCode | src/app/components/ColorValidator.tsx:21-63 | the format check and the notes on the trimmed text produce the specified report |
| ColorValidator.LongCodeNotes | src/app/components/ColorValidator.tsx:38-61 | the notes on a `#RRGGBB` code are those of the specified report |
| ColorValidator.LongHexChannels | src/app/components/ColorValidator.tsx:40-51 | each channel slice of a `#RRGGBB` code parses to its byte |
| ColorValidator.BlankColor | src/app/components/ColorValidator.tsx:16-19 | blank input is invalid with exactly the empty-colour error and nothing else |
| ColorValidator.CodeValidity | src/app/components/ColorValidator.tsx:24-63 | a trimmed text is valid exactly when it is `#RGB` or `#RRGGBB`; valid means no error; invalid means one error and one suggestion |
| ColorValidator.ColorValidity | src/app/components/ColorValidator.tsx:16-63 | a colour is valid exactly when `normalizeHex` accepts its trimmed text; valid means no error; invalid means exactly one |
| ColorValidator.MonochromeWarning | src/app/components/ColorValidator.tsx:32-46 | the monochrome warning appears exactly when the three channel pairs (or the three short digits) are equal |
| ColorValidator.LightnessWarnings | src/app/components/ColorValidator.tsx:32-60 | "very dark" exactly for a long code of mean below 20, "very light" exactly above 235; never both, never on a short code; each comes with its suggestion |
| ColorValidator.ColorMessagesDistinct | src/app/components/ColorValidator.tsx:27-59 | the warnings and suggestions a colour can get are pairwise different |
| ColorValidator.Labelled | src/app/components/ColorValidator.tsx:100-107 | each message is prefixed with `Color n: ` for the same position |
| ColorValidator.Reports | src/app/components/ColorValidator.tsx:94 | one report per colour |
| ColorValidator.Lowered | src/app/components/ColorValidator.tsx:87 | one lower-cased entry per colour |
| ColorValidator.AddParsed | src/app/components/ColorValidator.tsx:114-117 | the sum is a number exactly when both parts are, and then it is their sum |
| ColorValidator.HexValues | src/app/components/ColorValidator.tsx:112 | one hex text per colour |
| ColorValidator.NearFlags | src/app/components/ColorValidator.tsx:113-119 | one near-grey flag per hex text |
| ColorValidator.ValidatePalette | src/app/components/ColorValidator.tsx:66-133 | the step-by-step pushes produce the palette report as the component builds it, the invalid colours' errors numbered by their index among the invalid colours |
| ColorValidator.PaletteReportAsWritten | src/app/components/ColorValidator.tsx:66-133 | the palette is valid exactly when it has no error, and never with fewer than two colours |
| ColorValidator.PaletteReport | src/app/components/ColorValidator.tsx:66-133 | with palette-position numbering, still valid exactly when there is no error, and never with fewer than two colours |
| ColorValidator.GatheredNext | src/app/components/ColorValidator.tsx:99-108 | each report appends its labelled messages; errors come only from invalid reports |
| ColorValidator.AllTrueFalse | src/app/components/ColorValidator.tsx:113 | once a flag is false, `every` fails on every longer prefix |
| ColorValidator.ValidateAll | src/app/components/ColorValidator.tsx:94 | the loop computes `colors.map(validateColor)` |
| ColorValidator.PushInvalidErrors | src/app/components/ColorValidator.tsx:95-102 | when some colour is invalid, appends the header counting the invalid colours and then their errors, each labelled with its index in the invalid list |
| ColorValidator.FilterInvalid | src/app/components/ColorValidator.tsx:95 | the loop keeps exactly the invalid reports, in palette order |
| ColorValidator.PushLabelledErrors | src/app/components/ColorValidator.tsx:99-101 | walks the invalid list and appends each report's errors labelled with its own index in that list |
| ColorValidator.PushNotes | src/app/components/ColorValidator.tsx:105-108 | appends every report's warnings and suggestions, labelled |
| ColorValidator.AllNearGray | src/app/components/ColorValidator.tsx:111-119 | decides whether every colour is near middle grey |
| ColorValidator.Every | src/app/components/ColorValidator.tsx:113-119 | the loop stopping at the first false flag computes `every` |
| ColorValidator.PaletteTooSmall | src/app/components/ColorValidator.tsx:71-79 | zero or one colour: invalid with exactly one error, the empty or the too-few one, and nothing else; the numbering plays no part |
| ColorValidator.InvalidListMembers | src/app/components/ColorValidator.tsx:95-97 | the invalid list holds only invalid reports and is empty exactly when all are valid |
| ColorValidator.InvalidErrorsValidity | src/app/components/ColorValidator.tsx:95-102 | under either numbering, the invalid colours add no error exactly when every report is valid; otherwise the first error is the header counting them |
| ColorValidator.PaletteValidity | src/app/components/ColorValidator.tsx:66-133 | from two colours on, the report as written (and the corrected one) is valid exactly when every colour is; duplicates do not matter |
| ColorValidator.GatheredLength | src/app/components/ColorValidator.tsx:99-108 | collecting keeps every message: one labelled message per message of the reports |
| ColorValidator.EntryCountPrefix | src/app/components/ColorValidator.tsx:99-101 | counting messages over a prefix of a longer list counts the prefix alone |
| ColorValidator.InvalidEntryCount | src/app/components/ColorValidator.tsx:95-101 | the invalid reports alone carry as many errors as all reports do |
| ColorValidator.NumberingOnlyRelabels | src/app/components/ColorValidator.tsx:66-133 | the report as written and the corrected one have the same validity, warnings and suggestions, as many errors and the same first error: they differ only in the labels of the invalid colours' errors |
| ColorValidator.GatheredLabelled | src/app/components/ColorValidator.tsx:99-108 | every collected message starts with `Color ` |
| ColorValidator.GatheredComplete | src/app/components/ColorValidator.tsx:99-108 | every message of report `i` is collected under label `i + 1` |
| ColorValidator.ChecksLabels | src/app/components/ColorValidator.tsx:97-108 | every warning and suggestion of a colour reaches the palette lists under its palette position; with the corrected numbering so does every error of an invalid colour |
| ColorValidator.PaletteNotesLabels | src/app/components/ColorValidator.tsx:104-108 | as written, every warning and suggestion of a colour appears labelled with the colour's palette position |
| ColorValidator.PaletteLabels | src/app/components/ColorValidator.tsx:94-108 | in the corrected report every warning, suggestion and invalid colour's error appears labelled with the colour's palette position |
| ColorValidator.InvalidLabelsAsWritten | src/app/components/ColorValidator.tsx:97-101 | as written, every error of the invalid colour at index `j` of the invalid list appears labelled `Color j+1` |
| ColorValidator.DuplicatesAreRepeats | src/app/components/ColorValidator.tsx:87-88 | entries equal up to case are exactly a repeat among the lower-cased entries |
| ColorValidator.AllTrueEvery | src/app/components/ColorValidator.tsx:113 | `every` holds exactly when all flags are true |
| ColorValidator.NoteFlags | src/app/components/ColorValidator.tsx:81-124 | in a list built this way each palette-level warning is present exactly when its condition held |
| ColorValidator.PaletteWarningsDistinct | src/app/components/ColorValidator.tsx:82-122 | the three palette-level warnings differ and none looks like a `Color n: ` label |
| ColorValidator.NotLabelled | src/app/components/ColorValidator.tsx:106 | a message with no space at position 5 is no labelled message |
| ColorValidator.ChecksWarnings | src/app/components/ColorValidator.tsx:81-124 | "many colours" exactly above 10; "duplicates" exactly for case-insensitive repeats; "similar" exactly for three or more colours all near grey |
| ColorValidator.AllSimilarEvery | src/app/components/ColorValidator.tsx:111-119 | the diversity check holds exactly when each colour is near middle grey |
| ColorValidator.ShortMonoReport | src/app/components/ColorValidator.tsx:32-37 | `#RGB` with three equal digits is valid with the monochrome warning only |
| ColorValidator.NonCodeReport | src/app/components/ColorValidator.tsx:24-29 | a trimmed text that is no hex code fails with the format error and the examples suggestion |
| ColorValidator.ValidThenInvalid | src/app/components/ColorValidator.tsx:99-100 | a valid colour followed by an invalid one: as written the error says `Color 1`, corrected `Color 2` |
| ColorValidator.InvalidNumbering | src/app/components/ColorValidator.tsx:66-133 | for `["#fff", "oops"]` the report as written labels the bad colour's error `Color 1`, the label the monochrome warning of `#fff` also carries; the corrected report says `Color 2` |
| ColorValidator.ContrastLevelIsWcag | src/app/components/ColorValidator.tsx:135-145 | "Excelente" exactly when AAA normal passes, "Bueno" or better when AA normal does, "Aceptable" or better when AA large does |
| ColorValidator.GetContrastLevel | src/app/components/ColorValidator.tsx:135-145 | "Excelente" exactly when AAA normal text passes, "Bueno" when AA normal passes but not AAA, "Aceptable" when only large-text levels pass, "Pobre" when AA large fails |
| ColorValidator.ContrastLevelMonotone | src/app/components/ColorValidator.tsx:135-145 | a higher ratio never gets a lower tier |
| PaletteStorage.IndexOfId | src/app/hooks/usePaletteStorage.ts:83-86 | `findIndex` gives the first position holding the id, or -1 exactly when no palette has it |
| PaletteStorage.MergeKeeps | src/app/hooks/usePaletteStorage.ts:98-102 | an update keeps id and creation date, takes the new time, and takes each field the changes carry |
| PaletteStorage.Without | src/app/hooks/usePaletteStorage.ts:113 | the filtered list holds no palette with the id and is the list itself when none had it |
| PaletteStorage.WithoutMembers | src/app/hooks/usePaletteStorage.ts:113 | a palette stays exactly when it was there and has another id |
| PaletteStorage.WithoutAppend | src/app/hooks/usePaletteStorage.ts:113 | the filter works piece by piece, so the order is kept |
| PaletteStorage.TotalColorsAppend | src/app/hooks/usePaletteStorage.ts:126 | the colour total adds up over concatenation, so a save adds the new palette's colours |
| PaletteStorage.LatestUpdate | src/app/hooks/usePaletteStorage.ts:127 | the latest update time is one of the palettes' and no palette's is later |
| PaletteStorage.PaddedNameNotInUse | src/app/hooks/usePaletteStorage.ts:62-69 | a name with leading white space never matches a stored name that starts with a visible character: the check uses the untrimmed name, and storage uses the trimmed one |
| PaletteStorage.PaddedNameClash | src/app/hooks/usePaletteStorage.ts:62-69 | a name with leading white space whose trimmed form equals a stored name ignoring case (` Foo` beside `foo`) passes the untrimmed check, and once stored trimmed the list holds two names equal ignoring case |
| PaletteStorage.SaveTrimmed | src/app/hooks/usePaletteStorage.ts:51-69 | the save with the trimmed name compared: it succeeds exactly when the trimmed name is non-blank, there are colours and no stored name equals the trimmed name ignoring case, and then appends the palette |
| PaletteStorage.SaveTrimmedKeepsNamesDistinct | src/app/hooks/usePaletteStorage.ts:61-65 | that save keeps the stored names distinct ignoring case |
| PaletteStorage.PaletteStore.constructor | src/app/hooks/usePaletteStorage.ts:16 | the store starts empty |
| PaletteStorage.PaletteStore.SavePalette | src/app/hooks/usePaletteStorage.ts:52-79 | blank name, no colours, name in use: each refused with its error in that order, list unchanged; otherwise one palette with the trimmed name is appended |
| PaletteStorage.PaletteStore.UpdatePalette | src/app/hooks/usePaletteStorage.ts:82-109 | unknown id refused; a new name another palette uses refused; list unchanged on error; otherwise only the first entry with the id is replaced by the merge |
| PaletteStorage.PaletteStore.DeletePalette | src/app/hooks/usePaletteStorage.ts:112-115 | the list becomes the filtered list |
| PaletteStorage.PaletteStore.LoadPalette | src/app/hooks/usePaletteStorage.ts:118-120 | the first palette with the id, or none exactly when no palette has it |
| PaletteStorage.PaletteStore.GetStats | src/app/hooks/usePaletteStorage.ts:123-129 | the palette count, the colour total, and the latest update time, present exactly when there is a palette |
| Recommender.SomeListed | src/app/api/ai/recommend/route.ts:75-139 | the front-to-back `some` holds exactly when some lower-cased colour is in the list |
| Recommender.EveryGrey | src/app/api/ai/recommend/route.ts:80-86 | the front-to-back `every` holds exactly when every lower-cased colour passes the grey test |
| Recommender.AnalyzeColorPalette | src/app/api/ai/recommend/route.ts:73-89 | low contrast exactly when some colour lower-cased is `#000000`, `#333333` or `#666666`; monochromatic exactly when every colour passes the grey test |
| Recommender.GreyCodeIff | src/app/api/ai/recommend/route.ts:80-86 | the grey test holds exactly for a `#RRGGBB` code whose three channels use the same two digits, ignoring case |
| Recommender.LowContrastIsProfessional | src/app/api/ai/recommend/route.ts:77-139 | a low-contrast palette always has a professional colour |
| Recommender.GetThemeSuggestions | src/app/api/ai/recommend/route.ts:91-115 | the dark-theme item exactly for theme `dark`, then the professional item exactly for context `professional`, in that order and nothing else |
| Recommender.RawConfidenceRange | src/app/api/ai/recommend/route.ts:119-146 | the unclamped score lies in 82..98, so the clamp never acts; 98 and 82 are reached only in the stated cases |
| Recommender.RawConfidence | src/app/api/ai/recommend/route.ts:119-146 | the unclamped score lies in 82..98 |
| Recommender.SummaryDeterminesCounts | src/app/api/ai/recommend/route.ts:68 | two summaries are equal exactly when they report the same number of colours and of recommendations |
| Recommender.ConfidenceFalls | src/app/api/ai/recommend/route.ts:128-133 | more recommendations never raise the score |
| Recommender.CalculateConfidence | src/app/api/ai/recommend/route.ts:117-147 | the stepwise score with the clamp equals the unclamped score and lies in 82..98 |
| Recommender.Recommend | src/app/api/ai/recommend/route.ts:26-61 | the list holds the accessibility item exactly when contrast is low, the harmony item exactly when monochromatic, the theme items per theme and context, and ends with the trends item; the order is accessibility, harmony, theme items, trends |
| Recommender.ItemsFound | src/app/api/ai/recommend/route.ts:26-61 | in the assembled list each item is found exactly where it was pushed |
| Recommender.GenerateAIRecommendations | src/app/api/ai/recommend/route.ts:21-71 | the items follow the analysis, the theme and the context, in push order, ending with the trends item; the summary counts the colours and the items; the confidence is the unclamped score of the final list |

## Left out

- Text.Slice: strings are sequences of Unicode characters, not of UTF-16 code units, so `slice` indices count characters; on colour text holding a character outside the Basic Multilingual Plane the JavaScript slices differ.
- ColorValidator.NearGray: inherits that difference through `Text.Slice` and `parseInt`; for a text such as `#1😀7fff` the JavaScript slice `(2, 4)` starts with a lone surrogate and gives NaN, while the model reads the pairs `1😀`, `7f`, `ff`.
- Input and output: the HTTP handlers (`POST` in `src/app/api/ai/recommend/route.ts`, and the pairs, analyze and tokens routes) are not part of this model, including the 200-entry cap of the pairs route. Their request checks happen before the modelled functions run.
- The React state and `localStorage` in `usePaletteStorage`:
  - loading and saving of the JSON;
  - the conversion of dates from strings;
  - the `No se pudo guardar la paleta` error `saveToStorage` can throw.
  Each operation instead replaces the class's list directly.
- Ids and clocks: `Date.now()`/`Math.random()` ids and `new Date()` timestamps are parameters (`id`, `now`). The two `new Date()` calls of `savePalette` are taken as the same instant.
- PaletteStorage.PaletteStore.UpdatePalette: an `updates` object that carries a key with the value `undefined` is not modelled; an absent field is `None`.
- The exact IEEE-754 doubles:
  - `Math.pow` is the table described above;
  - `toFixed` and the arithmetic are exact on reals, so the last bit of a double may differ from the model.
- Case mapping is ASCII only. `toLowerCase`/`toUpperCase` of non-ASCII letters (for example a dotted capital I) are not modelled.
- ColorValidator.MeanComparisons: `avg < 20` is decided on the integer channel total compared with 3·20, and is proved equal to the comparison on the real mean.
- ColorValidator.AllNearGray: `every` is modelled over a precomputed list of near-grey flags, which the method builds first and then scans.
- PaletteAnalysis.ScanPairs: `pairs.sort` in place is modelled as a stable insertion sort on the sequence, so aliasing of the array is not captured. ECMAScript's sort is stable, so the result is the same.
- PaletteAnalysis.PushPair: one step of the inner loop is a helper method; it adds nothing to the source's behaviour.
- Recommender.GenerateAIRecommendations: the response is returned synchronously; the `async` wrapper adds nothing.
- Recommender.GenerateAIRecommendations: `theme` and `context` are strings; a missing value behaves as a string other than `dark`/`professional`, as it does in the source.
- Recommender.AnalyzeColorPalette: `colors` is a list of strings; the route's check that it is a non-empty array runs before, in the handler.
- UI components and hooks, HSL conversions, export templating, AI palette generation and the browser `fetch` are outside the core.

## Findings

| source | as written | input that shows it | evidently intended | confidence | as-written member | corrected member |
|---|---|---|---|---|---|---|
| src/app/components/ColorValidator.tsx:99-100 | the errors of invalid colours are labelled with the position in the list of invalid colours (`index` of `invalidColors.forEach`) | `["#fff", "oops"]`: the bad second colour is reported as `Color 1` | label with the colour's position in the palette, as the warnings and suggestions at lines 105-107 do (`Color 2`) | not executed | ColorValidator.ValidatePalette, ColorValidator.InvalidNumbering | ColorValidator.PaletteReport, ColorValidator.PaletteLabels |
| src/app/hooks/usePaletteStorage.ts:62-68 | the name check compares the untrimmed name, but the palette is stored with the trimmed name | a stored `foo` and the new name ` Foo`: the check finds nothing, and `Foo` is stored beside `foo` | compare the trimmed name, so stored names stay distinct ignoring case | not executed | PaletteStorage.PaletteStore.SavePalette, PaletteStorage.PaddedNameClash | PaletteStorage.SaveTrimmed, PaletteStorage.SaveTrimmedKeepsNamesDistinct |

/** The rule-based recommender behind the `/api/ai/recommend` route
    (src/app/api/ai/recommend/route.ts): a two-flag analysis of the palette, the
    recommendation list built from it and from the theme and context, a summary line and a
    confidence score. */
module Recommender {
  import opened Text
  import opened SeqFacts
  import Colors

  /** The `type` field of a recommendation. */
  datatype Kind = Accessibility | Harmony | Theme | Context | Trends

  datatype Priority = High | Medium | Low

  datatype Recommendation = Recommendation(kind: Kind, title: string, description: string, action: string, priority: Priority)

  /** What `analyzeColorPalette` returns. */
  datatype Analysis = Analysis(hasLowContrast: bool, isMonochromatic: bool)

  /** What `generateAIRecommendations` returns. */
  datatype Response = Response(recommendations: seq<Recommendation>, summary: string, confidence: int)

  const AccessibilityItem := Recommendation(
    Accessibility, "\U{1F6A8} Problemas de Accesibilidad",
    "Algunos colores tienen bajo contraste. Te recomendamos ajustar los tonos para cumplir WCAG AA.",
    "Mejorar contraste", High)

  const HarmonyItem := Recommendation(
    Harmony, "\U{1F3A8} Paleta Monocromática",
    "Tu paleta es monocromática. ¿Te gustaría explorar variaciones con colores complementarios?",
    "Agregar colores complementarios", Medium)

  const DarkThemeItem := Recommendation(
    Theme, "\U{1F319} Modo Oscuro Optimizado",
    "Para modo oscuro, considera usar tonos más cálidos y menos saturados.",
    "Optimizar para oscuro", Medium)

  const ProfessionalItem := Recommendation(
    Context, "\U{1F4BC} Estilo Profesional",
    "Para un look más corporativo, te sugiero colores más neutros y sobrios.",
    "Aplicar estilo corporativo", Medium)

  const TrendsItem := Recommendation(
    Trends, "\U{2728} Tendencias 2024",
    "Los colores neutros y tonos tierra están muy de moda. ¿Quieres probar una paleta más moderna?",
    "Aplicar tendencias", Low)

  /** The colours the analysis treats as low-contrast. */
  const LowContrastColors: seq<string> := ["#000000", "#333333", "#666666"]

  /** The colours `calculateConfidence` treats as common in professional work. */
  const ProfessionalColors: seq<string> := ["#000000", "#ffffff", "#333333", "#666666", "#999999", "#cccccc"]

  function Flag(b: bool): nat {
    if b then 1 else 0
  }

  /** Some colour, in lower case, is in `list`; the scan goes from the front. */
  function SomeListed(colors: seq<string>, list: seq<string>): (r: bool)
    ensures r <==> exists k :: 0 <= k < |colors| && Lower(colors[k]) in list
  {
    if colors == [] then false
    else
      assert forall k :: 1 <= k < |colors| ==> colors[1..][k - 1] == colors[k];
      Lower(colors[0]) in list || SomeListed(colors[1..], list)
  }

  /** The `every` callback on the lower-cased colour `s`: it matches `/^#[0-9a-f]{6}$/`, starts
      with `#`, and `slice(1, 3)`, `slice(3, 5)` and `slice(5, 7)` are equal. */
  predicate IsGreyCode(s: string) {
    && |s| == 7 && s[0] == '#' && (forall i :: 1 <= i < 7 ==> '0' <= s[i] <= '9' || 'a' <= s[i] <= 'f')
    && s[0] == '#'
    && Slice(s, 1, 3) == Slice(s, 3, 5) && Slice(s, 3, 5) == Slice(s, 5, 7)
  }

  /** `colors.every(...)` with that callback, scanning from the front; true on no colours. */
  function EveryGrey(colors: seq<string>): (r: bool)
    ensures r <==> forall k :: 0 <= k < |colors| ==> IsGreyCode(Lower(colors[k]))
  {
    if colors == [] then true
    else
      assert forall k :: 1 <= k < |colors| ==> colors[1..][k - 1] == colors[k];
      IsGreyCode(Lower(colors[0])) && EveryGrey(colors[1..])
  }

  /** The palette analysis: whether some colour is one of the low-contrast greys, and whether
      every colour is a grey. */
  function AnalyzeColorPalette(colors: seq<string>): (a: Analysis)
    ensures a.hasLowContrast <==> exists k :: 0 <= k < |colors| && Lower(colors[k]) in LowContrastColors
    ensures a.isMonochromatic <==> forall k :: 0 <= k < |colors| ==> IsGreyCode(Lower(colors[k]))
  {
    Analysis(SomeListed(colors, LowContrastColors), EveryGrey(colors))
  }

  /** A colour counts as grey exactly when it is a `#RRGGBB` code whose three channels are
      written with the same two digits, ignoring case. */
  lemma GreyCodeIff(c: string)
    ensures IsGreyCode(Lower(c)) <==>
      && Colors.IsLongHex(c)
      && LowerChar(c[1]) == LowerChar(c[3]) == LowerChar(c[5])
      && LowerChar(c[2]) == LowerChar(c[4]) == LowerChar(c[6])
  {
    var s := Lower(c);
    if |c| == 7 {
      assert Slice(s, 1, 3) == [s[1], s[2]] && Slice(s, 3, 5) == [s[3], s[4]] && Slice(s, 5, 7) == [s[5], s[6]];
      forall i | 1 <= i < 7
        ensures ('0' <= s[i] <= '9' || 'a' <= s[i] <= 'f') <==> IsHexDigit(c[i])
      {
        assert s[i] == LowerChar(c[i]);
      }
    }
  }

  /** Every low-contrast colour is also a professional one, so a palette that gets the
      accessibility recommendation always gets the professional-colour bonus. */
  lemma LowContrastIsProfessional(colors: seq<string>)
    requires SomeListed(colors, LowContrastColors)
    ensures SomeListed(colors, ProfessionalColors)
  {
    var k :| 0 <= k < |colors| && Lower(colors[k]) in LowContrastColors;
    assert ProfessionalColors[0] == LowContrastColors[0];
    assert ProfessionalColors[2] == LowContrastColors[1];
    assert ProfessionalColors[3] == LowContrastColors[2];
  }

  /** `getThemeSuggestions(theme, context)`: the dark-theme item when the theme is `dark`,
      then the professional item when the context is `professional`. */
  method GetThemeSuggestions(theme: string, context: string) returns (suggestions: seq<Recommendation>)
    ensures DarkThemeItem in suggestions <==> theme == "dark"
    ensures ProfessionalItem in suggestions <==> context == "professional"
    ensures |suggestions| == Flag(theme == "dark") + Flag(context == "professional")
    ensures forall r :: r in suggestions ==> r == DarkThemeItem || r == ProfessionalItem
    ensures theme == "dark" ==> suggestions[0] == DarkThemeItem
    ensures suggestions == Push(Push([], theme == "dark", DarkThemeItem), context == "professional", ProfessionalItem)
  {
    suggestions := [];
    if theme == "dark" {
      suggestions := suggestions + [DarkThemeItem];
    }
    if context == "professional" {
      suggestions := suggestions + [ProfessionalItem];
    }
  }

  /** The adjustment for the palette size: +5 for three to five colours, +2 above five. */
  function SizeBonus(count: nat): int {
    if 3 <= count <= 5 then 5 else if count > 5 then 2 else 0
  }

  /** The adjustment for the number of recommendations: +5 up to two, -3 from four on. */
  function ListBonus(found: nat): int {
    if found <= 2 then 5 else if found >= 4 then -3 else 0
  }

  /** The score before `Math.max(80, Math.min(98, ...))`. */
  function RawConfidence(count: nat, found: nat, professional: bool): (score: int)
    ensures 82 <= score <= 98
  {
    85 + SizeBonus(count) + ListBonus(found) + (if professional then 3 else 0)
  }

  /** The unclamped score already lies in 82..98, so the clamp to 80..98 never changes it. */
  lemma RawConfidenceRange(count: nat, found: nat, professional: bool)
    ensures 82 <= RawConfidence(count, found, professional) <= 98
    ensures RawConfidence(count, found, professional) == 98 <==> 3 <= count <= 5 && found <= 2 && professional
    ensures RawConfidence(count, found, professional) == 82 <==> count < 3 && found >= 4 && !professional
  {
  }

  /** More recommendations never raise the score. */
  lemma ConfidenceFalls(count: nat, found: nat, more: nat, professional: bool)
    requires found <= more
    ensures RawConfidence(count, more, professional) <= RawConfidence(count, found, professional)
  {
  }

  /** `calculateConfidence(colors, recommendations)`: the base of 85 is adjusted step by step
      and clamped; the result is the unclamped score. */
  method CalculateConfidence(colors: seq<string>, recommendations: seq<Recommendation>) returns (confidence: int)
    ensures confidence == RawConfidence(|colors|, |recommendations|, SomeListed(colors, ProfessionalColors))
    ensures 82 <= confidence <= 98
  {
    var base := 85;
    if |colors| >= 3 && |colors| <= 5 {
      base := base + 5;
    } else if |colors| > 5 {
      base := base + 2;
    }
    if |recommendations| <= 2 {
      base := base + 5;
    } else if |recommendations| >= 4 {
      base := base - 3;
    }
    var professional := SomeListed(colors, ProfessionalColors);
    if professional {
      base := base + 3;
    }
    var capped := if base < 98 then base else 98;
    confidence := if capped > 80 then capped else 80;
  }

  /** The summary template literal. */
  function Summary(count: nat, found: nat): string {
    SummaryHead + NatToString(count) + SummaryMiddle + NatToString(found) + SummaryTail
  }

  const SummaryHead := "Analicé tu paleta de "
  const SummaryMiddle := " colores y encontré "
  const SummaryTail := " oportunidades de mejora."

  /** The summary states both counts readably: two summaries are equal only when they report
      the same number of colours and the same number of recommendations. */
  lemma SummaryDeterminesCounts(count: nat, found: nat, count': nat, found': nat)
    ensures Summary(count, found) == Summary(count', found') <==> count == count' && found == found'
  {
    assert SummaryMiddle[0] == ' ' && SummaryTail[0] == ' ';
    if Summary(count, found) == Summary(count', found') {
      DigitRunsInjective(SummaryHead, SummaryMiddle, SummaryTail,
        NatToString(count), NatToString(found), NatToString(count'), NatToString(found'));
      NatToStringInjective(count, count');
      NatToStringInjective(found, found');
    }
  }

  /** `generateAIRecommendations(colors, theme, context)`: the accessibility item exactly for
      a low-contrast palette, the harmony item exactly for a monochromatic one, the theme
      suggestions, and always the trends item last; the summary counts the colours and the
      items, and the confidence is the unclamped score of the final list. */
  method GenerateAIRecommendations(colors: seq<string>, theme: string, context: string) returns (r: Response)
    ensures var a := AnalyzeColorPalette(colors);
      && (AccessibilityItem in r.recommendations <==> a.hasLowContrast)
      && (HarmonyItem in r.recommendations <==> a.isMonochromatic)
      && |r.recommendations| == 1 + Flag(a.hasLowContrast) + Flag(a.isMonochromatic)
                                  + Flag(theme == "dark") + Flag(context == "professional")
    ensures DarkThemeItem in r.recommendations <==> theme == "dark"
    ensures ProfessionalItem in r.recommendations <==> context == "professional"
    ensures r.recommendations[|r.recommendations| - 1] == TrendsItem
    ensures var a := AnalyzeColorPalette(colors);
      r.recommendations == Push(Push([], a.hasLowContrast, AccessibilityItem), a.isMonochromatic, HarmonyItem)
                           + Push(Push([], theme == "dark", DarkThemeItem), context == "professional", ProfessionalItem)
                           + [TrendsItem]
    ensures r.summary == Summary(|colors|, |r.recommendations|)
    ensures r.confidence == RawConfidence(|colors|, |r.recommendations|, SomeListed(colors, ProfessionalColors))
  {
    var analysis := AnalyzeColorPalette(colors);
    var recommendations := Recommend(analysis, theme, context);
    var confidence := CalculateConfidence(colors, recommendations);
    r := Response(recommendations, Summary(|colors|, |recommendations|), confidence);
  }

  /** The recommendation list of `generateAIRecommendations`, pushed item by item. */
  method Recommend(analysis: Analysis, theme: string, context: string) returns (recommendations: seq<Recommendation>)
    ensures AccessibilityItem in recommendations <==> analysis.hasLowContrast
    ensures HarmonyItem in recommendations <==> analysis.isMonochromatic
    ensures DarkThemeItem in recommendations <==> theme == "dark"
    ensures ProfessionalItem in recommendations <==> context == "professional"
    ensures |recommendations| == 1 + Flag(analysis.hasLowContrast) + Flag(analysis.isMonochromatic)
                                   + Flag(theme == "dark") + Flag(context == "professional")
    ensures recommendations[|recommendations| - 1] == TrendsItem
    ensures recommendations == Push(Push([], analysis.hasLowContrast, AccessibilityItem), analysis.isMonochromatic, HarmonyItem)
                               + Push(Push([], theme == "dark", DarkThemeItem), context == "professional", ProfessionalItem)
                               + [TrendsItem]
  {
    recommendations := [];
    if analysis.hasLowContrast {
      recommendations := recommendations + [AccessibilityItem];
    }
    if analysis.isMonochromatic {
      recommendations := recommendations + [HarmonyItem];
    }
    ghost var front := recommendations;
    assert front == Push(Push([], analysis.hasLowContrast, AccessibilityItem), analysis.isMonochromatic, HarmonyItem);
    var themeSuggestions := GetThemeSuggestions(theme, context);
    recommendations := recommendations + themeSuggestions;
    recommendations := recommendations + [TrendsItem];
    ItemsFound(front, themeSuggestions, analysis.hasLowContrast, analysis.isMonochromatic);
  }

  /** Where each item can come from in the assembled list. */
  lemma ItemsFound(front: seq<Recommendation>, suggestions: seq<Recommendation>, low: bool, mono: bool)
    requires front == Push(Push([], low, AccessibilityItem), mono, HarmonyItem)
    requires forall r :: r in suggestions ==> r == DarkThemeItem || r == ProfessionalItem
    ensures var all := front + suggestions + [TrendsItem];
      && (AccessibilityItem in all <==> low)
      && (HarmonyItem in all <==> mono)
      && (DarkThemeItem in all <==> DarkThemeItem in suggestions)
      && (ProfessionalItem in all <==> ProfessionalItem in suggestions)
      && |front| == Flag(low) + Flag(mono)
  {
    var all := front + suggestions + [TrendsItem];
    InAppend(AccessibilityItem, front + suggestions, [TrendsItem]);
    InAppend(AccessibilityItem, front, suggestions);
    InAppend(HarmonyItem, front + suggestions, [TrendsItem]);
    InAppend(HarmonyItem, front, suggestions);
    InAppend(DarkThemeItem, front + suggestions, [TrendsItem]);
    InAppend(DarkThemeItem, front, suggestions);
    InAppend(ProfessionalItem, front + suggestions, [TrendsItem]);
    InAppend(ProfessionalItem, front, suggestions);
  }
}

/** The threshold table of lib/wcag.ts: the minimum contrast ratios of WCAG 2.1 success
    criteria 1.4.3 (AA), 1.4.6 (AAA) and 1.4.11 (non-text contrast), and the list of levels a
    ratio meets. */
module Wcag {

  datatype Threshold = AaNormal | AaLarge | AaaNormal | AaaLarge | UiGraphic

  /** The `thresholds` record: every minimum lies between the 3:1 of large text and the 7:1
      of enhanced contrast. */
  function MinimumRatio(t: Threshold): (m: real)
    ensures 3.0 <= m <= 7.0
  {
    match t
    case AaNormal => 4.5
    case AaLarge => 3.0
    case AaaNormal => 7.0
    case AaaLarge => 4.5
    case UiGraphic => 3.0
  }

  /** `Object.keys(thresholds)`: the levels in the order the record declares them. */
  const Levels: seq<Threshold> := [AaNormal, AaLarge, AaaNormal, AaaLarge, UiGraphic]

  /** The position of a level in `Levels`. */
  function TablePosition(t: Threshold): (k: nat)
    ensures k < |Levels| && Levels[k] == t
  {
    match t
    case AaNormal => 0
    case AaLarge => 1
    case AaaNormal => 2
    case AaaLarge => 3
    case UiGraphic => 4
  }

  /** The record as `analyzePalette` hands it out under `criteria`. */
  function Criteria(): (m: map<Threshold, real>)
    ensures forall t: Threshold :: t in m && m[t] == MinimumRatio(t)
  {
    forall t: Threshold ensures t in Levels {
      assert Levels[TablePosition(t)] == t;
    }
    map t: Threshold | t in Levels :: MinimumRatio(t)
  }

  /** The levels among `Levels[k..]` whose minimum `ratio` reaches, in table order. */
  function PassingFrom(ratio: real, k: nat): seq<Threshold>
    requires k <= |Levels|
    decreases |Levels| - k
  {
    if k == |Levels| then []
    else
      var rest := PassingFrom(ratio, k + 1);
      if ratio >= MinimumRatio(Levels[k]) then [Levels[k]] + rest else rest
  }

  /** `passes(ratio)`: the levels whose minimum `ratio` reaches, boundary included. */
  function Passes(ratio: real): (r: seq<Threshold>)
    ensures forall t :: t in r <==> ratio >= MinimumRatio(t)
  {
    PassingFromMembers(ratio, 0);
    PassingFrom(ratio, 0)
  }

  lemma {:induction false} PassingFromMembers(ratio: real, k: nat)
    requires k <= |Levels|
    ensures forall t :: t in PassingFrom(ratio, k) <==> TablePosition(t) >= k && ratio >= MinimumRatio(t)
    decreases |Levels| - k
  {
    if k < |Levels| {
      PassingFromMembers(ratio, k + 1);
    }
  }

  lemma {:induction false} PassingFromOrdered(ratio: real, k: nat)
    requires k <= |Levels|
    ensures forall i :: 0 <= i < |PassingFrom(ratio, k)| ==> TablePosition(PassingFrom(ratio, k)[i]) >= k
    ensures forall i, j :: 0 <= i < j < |PassingFrom(ratio, k)| ==>
      TablePosition(PassingFrom(ratio, k)[i]) < TablePosition(PassingFrom(ratio, k)[j])
    decreases |Levels| - k
  {
    if k < |Levels| {
      PassingFromOrdered(ratio, k + 1);
    }
  }

  /** A level is met exactly when the ratio reaches its minimum; the boundary counts. */
  lemma PassesMembers(ratio: real)
    ensures forall t :: t in Passes(ratio) <==> ratio >= MinimumRatio(t)
  {
    PassingFromMembers(ratio, 0);
  }

  /** The result keeps the table order, so no level appears twice. */
  lemma PassesOrdered(ratio: real)
    ensures forall i, j :: 0 <= i < j < |Passes(ratio)| ==>
      TablePosition(Passes(ratio)[i]) < TablePosition(Passes(ratio)[j])
    ensures forall i, j :: 0 <= i < j < |Passes(ratio)| ==> Passes(ratio)[i] != Passes(ratio)[j]
  {
    PassingFromOrdered(ratio, 0);
  }

  /** A higher ratio meets every level a lower one meets. */
  lemma PassesMonotone(lo: real, hi: real, t: Threshold)
    requires lo <= hi && t in Passes(lo)
    ensures t in Passes(hi)
  {
    PassesMembers(lo);
    PassesMembers(hi);
  }

  /** AA normal text and AAA large text share the minimum 4.5, and AA large text and
      graphical objects share 3, so each pair is met together. */
  lemma EqualMinimumsGoTogether(ratio: real)
    ensures AaNormal in Passes(ratio) <==> AaaLarge in Passes(ratio)
    ensures AaLarge in Passes(ratio) <==> UiGraphic in Passes(ratio)
  {
    PassesMembers(ratio);
  }

  /** Below 3 nothing is met; from 7 on everything is. */
  lemma PassesExtremes(ratio: real)
    ensures ratio < 3.0 ==> Passes(ratio) == []
    ensures ratio >= 7.0 ==> Passes(ratio) == Levels
  {
    if ratio >= 7.0 {
      assert PassingFrom(ratio, 4) == [UiGraphic];
      assert PassingFrom(ratio, 3) == [AaaLarge, UiGraphic];
      assert PassingFrom(ratio, 2) == [AaaNormal, AaaLarge, UiGraphic];
      assert PassingFrom(ratio, 1) == [AaLarge, AaaNormal, AaaLarge, UiGraphic];
    }
  }

  /** From 4.5 up to 7 everything but AAA normal text is met; from 3 up to 4.5 only the
      levels whose minimum is 3. */
  lemma PassesBetween(ratio: real)
    ensures 4.5 <= ratio < 7.0 ==> Passes(ratio) == [AaNormal, AaLarge, AaaLarge, UiGraphic]
    ensures 3.0 <= ratio < 4.5 ==> Passes(ratio) == [AaLarge, UiGraphic]
  {
    if 3.0 <= ratio < 7.0 {
      assert PassingFrom(ratio, 4) == [UiGraphic];
      assert PassingFrom(ratio, 2) == PassingFrom(ratio, 3);
    }
  }
}

/** The hypothesis the script tests: the strongest winds of a storm lie in the
    quadrant 45 to 90 degrees clockwise of its heading. The hypothetical
    quadrants come from the bearing of each segment, the actual quadrant from
    the wind radii of the row that ends the segment, and the accuracy is the
    share of determinable segments where the two agree. */
module Quadrants {
  import opened Common
  import opened Compass
  import opened Geodesy
  import opened Hurdat
  import opened Track

  /** The four radii of one wind-speed threshold, in HURDAT2 column order. */
  datatype Tier = Tier(ne: int, se: int, sw: int, nw: int)

  function Extent(t: Tier, q: Quadrant): int
    requires q != NA
  {
    match q
    case NE => t.ne
    case SE => t.se
    case SW => t.sw
    case NW => t.nw
  }

  /** The position of a quadrant in the order the script tests them. */
  function Rank(q: Quadrant): nat {
    match q
    case NE => 0
    case SE => 1
    case SW => 2
    case NW => 3
    case NA => 4
  }

  function Sum(t: Tier): int {
    t.ne + t.se + t.sw + t.nw
  }

  /** A tier whose four radii are equal says nothing about direction. */
  predicate AllEqual(t: Tier) {
    t.ne == t.se && t.se == t.sw && t.sw == t.nw
  }

  /** `max(...)` of four integers. */
  function Max4(a: int, b: int, c: int, d: int): (m: int)
    ensures m >= a && m >= b && m >= c && m >= d
    ensures m == a || m == b || m == c || m == d
  {
    var ab := if a >= b then a else b;
    var cd := if c >= d then c else d;
    if ab >= cd then ab else cd
  }

  /** The quadrant of the largest radius, ties going NE, SE, SW, NW. */
  function ArgMax(t: Tier): (q: Quadrant)
    ensures q != NA
    ensures forall p :: p != NA ==> Extent(t, p) <= Extent(t, q)
    ensures forall p :: p != NA && Rank(p) < Rank(q) ==> Extent(t, p) < Extent(t, q)
  {
    var m := Max4(t.nw, t.sw, t.se, t.ne);
    if m == t.ne then NE
    else if m == t.se then SE
    else if m == t.sw then SW
    else NW
  }

  /** A row with all twelve wind radii: the last twelve integers of the row. */
  predicate HasRadii(o: Observation) {
    |o.numbers| >= 12
  }

  /** `row[j]` for a negative j, which counts from the end of the row. */
  function Column(o: Observation, j: int): int
    requires HasRadii(o) && -12 <= j <= -1
  {
    o.numbers[|o.numbers| + j]
  }

  /** The tier the scan looks at with its `index` at 0 (64 kt), -4 (50 kt) or
      -8 (34 kt): `row[index - 4]` to `row[index - 1]`. */
  function TierAt(o: Observation, index: int): Tier
    requires HasRadii(o) && (index == 0 || index == -4 || index == -8)
  {
    Tier(Column(o, index - 4), Column(o, index - 3), Column(o, index - 2), Column(o, index - 1))
  }

  /** The rule `actual_quadrant` applies, tier by tier. A 64-kt tier with a
      positive sum only stops the scan (NA); the 50-kt tier decides unless its
      radii are all equal; the 34-kt tier is consulted only after a 50-kt tier
      of equal radii summing to at most zero. */
  function TierRule(t34: Tier, t50: Tier, t64: Tier): Quadrant {
    if Sum(t64) > 0 then NA
    else if !AllEqual(t50) then ArgMax(t50)
    else if Sum(t50) > 0 then NA
    else if !AllEqual(t34) then ArgMax(t34)
    else NA
  }

  /** The actual quadrant of one row. */
  function RowQuadrant(o: Observation): Quadrant
    requires HasRadii(o)
  {
    TierRule(TierAt(o, -8), TierAt(o, -4), TierAt(o, 0))
  }

  /** When the rule cannot determine a quadrant, in both directions. */
  lemma TierRuleUndetermined(t34: Tier, t50: Tier, t64: Tier)
    ensures TierRule(t34, t50, t64) == NA
        <==> Sum(t64) > 0 || (AllEqual(t50) && (Sum(t50) > 0 || AllEqual(t34)))
  {
  }

  /** A determined quadrant holds the largest radius of the tier that decided,
      and no quadrant tested before it has an equal one. */
  lemma TierRuleMaximal(t34: Tier, t50: Tier, t64: Tier)
    ensures var q := TierRule(t34, t50, t64);
            var t := if AllEqual(t50) then t34 else t50;
            q != NA ==>
              (Sum(t64) <= 0 && !AllEqual(t) &&
               (forall p :: p != NA ==> Extent(t, p) <= Extent(t, q)) &&
               (forall p :: p != NA && Rank(p) < Rank(q) ==> Extent(t, p) < Extent(t, q)))
  {
  }

  /** The 34-kt tier matters only when the 50-kt tier is uninformative. */
  lemma TierRuleIgnores34(t34: Tier, u34: Tier, t50: Tier, t64: Tier)
    requires !AllEqual(t50)
    ensures TierRule(t34, t50, t64) == TierRule(u34, t50, t64)
  {
  }

  /** Where the code and its doc string part ways: a row with 64-kt radii is
      not classified by them but comes out NA, while the same 50-kt radii
      without 64-kt ones decide SE. Ties go to the quadrant tested first, and
      -999 (missing) radii fall through to the 34-kt tier. */
  lemma TierRuleExamples()
    ensures TierRule(Tier(90, 120, 90, 90), Tier(30, 60, 30, 30), Tier(10, 0, 0, 0)) == NA
    ensures TierRule(Tier(90, 120, 90, 90), Tier(30, 60, 30, 30), Tier(0, 0, 0, 0)) == SE
    ensures TierRule(Tier(0, 0, 0, 0), Tier(50, 0, 0, 50), Tier(0, 0, 0, 0)) == NE
    ensures TierRule(Tier(0, 0, 20, 20), Tier(-999, -999, -999, -999), Tier(-999, -999, -999, -999)) == SW
    ensures TierRule(Tier(40, 40, 40, 40), Tier(20, 20, 20, 20), Tier(0, 0, 0, 0)) == NA
  {
  }

  /** The `while` loop of `actual_quadrant` for one row: the sum test comes
      before `index -= 4`, so the tier summed is always the one above the tier
      then classified. */
  method ClassifyRow(row: Observation) returns (realQuadrant: Quadrant)
    requires HasRadii(row)
    ensures realQuadrant == RowQuadrant(row)
  {
    realQuadrant := NA;
    var index := 0;
    while Column(row, index - 1) + Column(row, index - 2) + Column(row, index - 3) + Column(row, index - 4) <= 0 && index > -7
      invariant index == 0 || index == -4 || index == -8
      invariant realQuadrant == NA
      invariant index <= -4 ==> Sum(TierAt(row, 0)) <= 0 && AllEqual(TierAt(row, -4))
      invariant index == -8 ==> Sum(TierAt(row, -4)) <= 0 && AllEqual(TierAt(row, -8))
      decreases index + 8
    {
      index := index - 4;
      var maxVal := Max4(Column(row, index - 1), Column(row, index - 2), Column(row, index - 3), Column(row, index - 4));
      if Column(row, index - 1) == Column(row, index - 2) == Column(row, index - 3) == Column(row, index - 4) {
        continue;
      } else {
        if maxVal == Column(row, index - 4) {
          realQuadrant := NE;
          break;
        } else if maxVal == Column(row, index - 3) {
          realQuadrant := SE;
          break;
        } else if maxVal == Column(row, index - 2) {
          realQuadrant := SW;
          break;
        } else if maxVal == Column(row, index - 1) {
          realQuadrant := NW;
          break;
        } else {
          assert false;
        }
      }
    }
  }

  /** Every row after the first is checked for radii. */
  predicate RadiiAfterFirst(storm: Storm) {
    forall k :: 1 <= k < |storm| ==> HasRadii(storm[k])
  }

  /** The actual quadrants of a storm, one per segment. */
  function Actuals(storm: Storm): (r: seq<Quadrant>)
    requires RadiiAfterFirst(storm)
    ensures |r| == Segments(storm)
    ensures forall i :: 0 <= i < |r| ==> r[i] == RowQuadrant(storm[i + 1])
  {
    seq(Segments(storm), i requires 0 <= i < Segments(storm) => RowQuadrant(storm[i + 1]))
  }

  /** `actual_quadrant`: the rows after the first, each classified in turn. */
  method ActualQuadrant(storm: Storm) returns (realQuadrants: seq<Quadrant>)
    requires RadiiAfterFirst(storm)
    ensures |realQuadrants| == Segments(storm)
    ensures realQuadrants == Actuals(storm)
  {
    realQuadrants := [];
    if |storm| == 0 {
      return;
    }
    var rest := storm[1..];
    var i := 0;
    while i < |rest|
      invariant 0 <= i <= |rest| && |realQuadrants| == i
      invariant forall j :: 0 <= j < i ==> realQuadrants[j] == RowQuadrant(storm[j + 1])
    {
      var realQuadrant := ClassifyRow(rest[i]);
      realQuadrants := realQuadrants + [realQuadrant];
      i := i + 1;
    }
  }

  /** The heading of one segment, 0 where the geodesy fails. */
  function SegmentBearing(earth: Earth, a: Position, b: Position): (d: Bearing)
    ensures earth.bearing(a, b).None? ==> d == 0.0
    ensures earth.bearing(a, b).Some? ==> d == earth.bearing(a, b).value
  {
    match earth.bearing(a, b)
    case None => 0.0
    case Some(degree) => degree
  }

  /** The lower and upper hypothetical quadrants for one heading: those of the
      heading turned 45 and 90 degrees clockwise. */
  function HypoBounds(degree: Bearing): (Quadrant, Quadrant) {
    (DegreeToQuadrant(NormalizeDegree(degree + 45.0)), DegreeToQuadrant(NormalizeDegree(degree + 90.0)))
  }

  /** Both bounds are real quadrants, and the upper one is the lower one or the
      next one clockwise. */
  lemma HypoBoundsAdjacent(degree: Bearing)
    ensures HypoBounds(degree).0 != NA && HypoBounds(degree).1 != NA
    ensures HypoBounds(degree).1 == HypoBounds(degree).0 || HypoBounds(degree).1 == Clockwise(HypoBounds(degree).0)
  {
    var lo, hi := degree + 45.0, degree + 90.0;
    if hi < 360.0 {
      NormalizeInTurn(lo);
      NormalizeInTurn(hi);
    } else if lo < 360.0 {
      NormalizeInTurn(lo);
      NormalizeNextTurn(hi);
    } else {
      NormalizeNextTurn(lo);
      NormalizeNextTurn(hi);
    }
  }

  lemma NormalizeInTurn(d: real)
    requires 0.0 <= d < 360.0
    ensures NormalizeDegree(d) == d
  {
    assert (d / 360.0).Floor == 0;
  }

  lemma NormalizeNextTurn(d: real)
    requires 360.0 <= d < 720.0
    ensures NormalizeDegree(d) == d - 360.0
  {
    assert (d / 360.0).Floor == 1;
  }

  /** A failed bearing (0 degrees) gives NE and SE. */
  lemma HypoBoundsOfZero()
    ensures HypoBounds(0.0) == (NE, SE)
  {
    NormalizeInTurn(45.0);
    NormalizeInTurn(90.0);
  }

  /** On every heading the script produces, the reduction as written and the
      corrected one agree, so the hypothetical quadrants are not affected by the
      negative-degree defect. */
  lemma HypoBoundsAsWritten(degree: Bearing)
    ensures HypoBounds(degree)
         == (DegreeToQuadrant(DegreeNormalized(degree + 45.0)), DegreeToQuadrant(DegreeNormalized(degree + 90.0)))
  {
  }

  /** The two hypothetical quadrants of segment i. */
  function SegmentBounds(earth: Earth, storm: Storm, i: nat): (Quadrant, Quadrant)
    requires i + 1 < |storm|
  {
    HypoBounds(SegmentBearing(earth, storm[i].pos, storm[i + 1].pos))
  }

  /** The lower hypothetical quadrant of every segment. */
  function Lowers(earth: Earth, storm: Storm): (r: seq<Quadrant>)
    ensures |r| == Segments(storm)
    ensures forall i :: 0 <= i < |r| ==> r[i] == SegmentBounds(earth, storm, i).0
  {
    seq(Segments(storm), i requires 0 <= i < Segments(storm) => SegmentBounds(earth, storm, i).0)
  }

  /** The upper hypothetical quadrant of every segment. */
  function Uppers(earth: Earth, storm: Storm): (r: seq<Quadrant>)
    ensures |r| == Segments(storm)
    ensures forall i :: 0 <= i < |r| ==> r[i] == SegmentBounds(earth, storm, i).1
  {
    seq(Segments(storm), i requires 0 <= i < Segments(storm) => SegmentBounds(earth, storm, i).1)
  }

  /** `hypothetical_quadrant`: per segment, the bearing (0 on failure) and the
      quadrants of bearing + 45 and bearing + 90, appended to two lists. */
  method HypotheticalQuadrant(earth: Earth, storm: Storm) returns (hypoLower: seq<Quadrant>, hypoUpper: seq<Quadrant>)
    ensures |hypoLower| == Segments(storm) && |hypoUpper| == Segments(storm)
    ensures forall i :: 0 <= i < Segments(storm) ==>
              (hypoLower[i], hypoUpper[i]) == HypoBounds(SegmentBearing(earth, storm[i].pos, storm[i + 1].pos))
    ensures forall i :: 0 <= i < Segments(storm) ==> hypoLower[i] != NA && hypoUpper[i] != NA
    ensures hypoLower == Lowers(earth, storm) && hypoUpper == Uppers(earth, storm)
  {
    var positions := Positions(storm);
    hypoLower, hypoUpper := [], [];
    var i := 0;
    while i < |positions| - 1
      invariant 0 <= i <= Segments(storm) && |hypoLower| == i && |hypoUpper| == i
      invariant forall j :: 0 <= j < i ==>
                  (hypoLower[j], hypoUpper[j]) == HypoBounds(SegmentBearing(earth, storm[j].pos, storm[j + 1].pos))
      invariant forall j :: 0 <= j < i ==> hypoLower[j] != NA && hypoUpper[j] != NA
    {
      var degree: Bearing := match earth.bearing(positions[i], positions[i + 1])
        case None => 0.0
        case Some(d) => d;
      var hypoDegreeLower := NormalizeDegree(degree + 45.0);
      var hypoDegreeUpper := NormalizeDegree(degree + 90.0);
      assert degree == SegmentBearing(earth, storm[i].pos, storm[i + 1].pos);
      HypoBoundsAdjacent(degree);
      hypoLower := hypoLower + [DegreeToQuadrant(hypoDegreeLower)];
      hypoUpper := hypoUpper + [DegreeToQuadrant(hypoDegreeUpper)];
      i := i + 1;
    }
    BoundsAgree(earth, storm, hypoLower, hypoUpper);
  }

  lemma BoundsAgree(earth: Earth, storm: Storm, lower: seq<Quadrant>, upper: seq<Quadrant>)
    requires |lower| == Segments(storm) && |upper| == Segments(storm)
    requires forall i :: 0 <= i < Segments(storm) ==>
               (lower[i], upper[i]) == HypoBounds(SegmentBearing(earth, storm[i].pos, storm[i + 1].pos))
    ensures lower == Lowers(earth, storm) && upper == Uppers(earth, storm)
  {
    assert forall i :: 0 <= i < Segments(storm) ==> (lower[i], upper[i]) == SegmentBounds(earth, storm, i);
  }

  /** The number of entries whose quadrant could be determined. */
  function Known(actual: seq<Quadrant>): (n: nat)
    ensures n <= |actual|
    decreases |actual|
  {
    if |actual| == 0 then 0
    else Known(actual[..|actual| - 1]) + (if actual[|actual| - 1] != NA then 1 else 0)
  }

  /** The number of determined entries that match either hypothetical bound. */
  function Hits(actual: seq<Quadrant>, lower: seq<Quadrant>, upper: seq<Quadrant>): (n: nat)
    requires |lower| >= |actual| && |upper| >= |actual|
    ensures n <= Known(actual)
    decreases |actual|
  {
    if |actual| == 0 then 0
    else
      var i := |actual| - 1;
      Hits(actual[..i], lower, upper) + (if actual[i] != NA && (actual[i] == lower[i] || actual[i] == upper[i]) then 1 else 0)
  }

  /** Nothing is counted exactly when no quadrant could be determined. */
  lemma {:induction false} KnownZeroIffUndetermined(actual: seq<Quadrant>)
    ensures Known(actual) == 0 <==> forall i :: 0 <= i < |actual| ==> actual[i] == NA
    decreases |actual|
  {
    if |actual| > 0 {
      var prefix := actual[..|actual| - 1];
      KnownZeroIffUndetermined(prefix);
      assert forall i :: 0 <= i < |prefix| ==> prefix[i] == actual[i];
    }
  }

  /** Every determined entry is a hit exactly when each one matches a bound. */
  lemma {:induction false} HitsAllIffAgree(actual: seq<Quadrant>, lower: seq<Quadrant>, upper: seq<Quadrant>)
    requires |lower| >= |actual| && |upper| >= |actual|
    ensures Hits(actual, lower, upper) == Known(actual)
        <==> forall i :: 0 <= i < |actual| && actual[i] != NA ==> actual[i] == lower[i] || actual[i] == upper[i]
    decreases |actual|
  {
    if |actual| > 0 {
      var prefix := actual[..|actual| - 1];
      HitsAllIffAgree(prefix, lower, upper);
      assert forall i :: 0 <= i < |prefix| ==> prefix[i] == actual[i];
    }
  }

  /** `accuracy_rate`: two counters over the actual quadrants. */
  method AccuracyRate(actual: seq<Quadrant>, hypoLower: seq<Quadrant>, hypoUpper: seq<Quadrant>) returns (correct: nat, total: nat)
    requires |hypoLower| >= |actual| && |hypoUpper| >= |actual|
    ensures correct == Hits(actual, hypoLower, hypoUpper) && total == Known(actual)
    ensures correct <= total <= |actual|
  {
    correct, total := 0, 0;
    var i := 0;
    while i < |actual|
      invariant 0 <= i <= |actual|
      invariant correct == Hits(actual[..i], hypoLower, hypoUpper) && total == Known(actual[..i])
    {
      assert actual[..i + 1][..i] == actual[..i];
      if actual[i] != NA {
        if actual[i] == hypoLower[i] || actual[i] == hypoUpper[i] {
          correct := correct + 1;
          total := total + 1;
        } else {
          total := total + 1;
        }
      }
      i := i + 1;
    }
    assert actual[..|actual|] == actual;
  }

  /** One storm's contribution to the running tally: its hypothetical and
      actual quadrants compared segment by segment. */
  method StormTally(earth: Earth, storm: Storm) returns (correct: nat, total: nat)
    requires RadiiAfterFirst(storm)
    ensures total == Known(Actuals(storm))
    ensures correct == Hits(Actuals(storm), Lowers(earth, storm), Uppers(earth, storm))
    ensures correct <= total <= Segments(storm)
  {
    var hypoLower, hypoUpper := HypotheticalQuadrant(earth, storm);
    var actual := ActualQuadrant(storm);
    correct, total := AccuracyRate(actual, hypoLower, hypoUpper);
  }
}

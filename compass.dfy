/** Compass directions, degree arithmetic and the four wind quadrants. */
module Compass {
  import opened Common

  /** The quadrant of a storm a wind extent or a heading falls in; NA is
      "cannot be determined". */
  datatype Quadrant = NE | SE | SW | NW | NA

  /** The next quadrant clockwise. */
  function Clockwise(q: Quadrant): Quadrant {
    match q
    case NE => SE
    case SE => SW
    case SW => NW
    case NW => NE
    case NA => NA
  }

  predicate IsCardinal(d: string) {
    d == "N" || d == "E" || d == "S" || d == "W"
  }

  /** `flip_direction`: the opposite of a cardinal direction letter. */
  function FlipDirection(direction: string): (r: Result<string>)
    ensures r.Ok? <==> IsCardinal(direction)
    ensures r.Ok? ==> IsCardinal(r.value) && r.value != direction
    ensures r.Err? ==> r.error == ValueError("Invalid or unsupported direction " + direction + " given.")
  {
    if direction == "E" then Ok("W")
    else if direction == "W" then Ok("E")
    else if direction == "N" then Ok("S")
    else if direction == "S" then Ok("N")
    else Err(ValueError("Invalid or unsupported direction " + direction + " given."))
  }

  /** Flipping twice gives the direction back, and east/west stay on their axis. */
  lemma FlipInvolution(direction: string)
    requires IsCardinal(direction)
    ensures FlipDirection(FlipDirection(direction).value) == Ok(direction)
    ensures (direction == "E" || direction == "W") <==> (FlipDirection(direction).value == "E" || FlipDirection(direction).value == "W")
  {
  }

  /** `flip_direction('SE')` raises: only single cardinal letters are accepted. */
  lemma FlipRejectsIntercardinal()
    ensures FlipDirection("SE").Err? && FlipDirection("").Err?
  {
  }

  /** Two headings that differ by a whole number of turns. */
  predicate Coterminal(a: real, b: real) {
    var turns := (a - b) / 360.0;
    turns.Floor as real == turns
  }

  lemma WholeTurns(a: real, b: real, turns: int)
    requires a - b == 360.0 * turns as real
    ensures Coterminal(a, b)
  {
    assert (a - b) / 360.0 == turns as real;
  }

  /** `degree_normalized` as written: for a negative degree it ADDS the whole
      turns of |degree|, which leaves the result in (-360, 0]. */
  function DegreeNormalized(degree: real): (r: real)
    ensures 0.0 <= degree ==> 0.0 <= r < 360.0
    ensures degree < 0.0 ==> -360.0 < r <= 0.0
    ensures Coterminal(degree, r)
  {
    if degree < 0.0 then
      var turns := ((-degree) / 360.0).Floor;
      WholeTurns(degree, degree + 360.0 * turns as real, -turns);
      degree + 360.0 * turns as real
    else if degree < 360.0 then
      WholeTurns(degree, degree, 0);
      degree
    else
      var turns := (degree / 360.0).Floor;
      WholeTurns(degree, degree - 360.0 * turns as real, turns);
      degree - 360.0 * turns as real
  }

  /** The doc string promises [0, 360) for any degree; -420 comes back as -60,
      where the intended reduction gives 300. */
  lemma DegreeNormalizedMissesRange()
    ensures DegreeNormalized(-420.0) == -60.0
    ensures !(0.0 <= DegreeNormalized(-90.0) < 360.0)
    ensures NormalizeDegree(-420.0) == 300.0
  {
    assert (420.0 / 360.0).Floor == 1;
    assert (90.0 / 360.0).Floor == 0;
    assert (-420.0 / 360.0).Floor == -2;
  }

  /** The reduction the doc string describes: into [0, 360), by whole turns. */
  function NormalizeDegree(degree: real): (r: real)
    ensures 0.0 <= r < 360.0
    ensures Coterminal(degree, r)
    ensures 0.0 <= degree ==> r == DegreeNormalized(degree)
  {
    var turns := (degree / 360.0).Floor;
    WholeTurns(degree, degree - 360.0 * turns as real, turns);
    degree - 360.0 * turns as real
  }

  /** Normalising is idempotent and forgets whole turns. */
  lemma NormalizeDegreeTurns(degree: real, k: int)
    ensures NormalizeDegree(NormalizeDegree(degree)) == NormalizeDegree(degree)
    ensures NormalizeDegree(degree + 360.0 * k as real) == NormalizeDegree(degree)
  {
    var x := degree / 360.0;
    assert (degree + 360.0 * k as real) / 360.0 == x + k as real;
    assert (x + k as real).Floor == x.Floor + k;
    assert (NormalizeDegree(degree) / 360.0).Floor == 0;
  }

  /** `degree_2_quadrant`: quarter turns clockwise from north, NA outside [0, 360). */
  function DegreeToQuadrant(degree: real): (q: Quadrant)
    ensures q == NA <==> degree < 0.0 || 360.0 <= degree
    ensures 0.0 <= degree < 90.0 ==> q == NE
    ensures 90.0 <= degree < 180.0 ==> q == SE
    ensures 180.0 <= degree < 270.0 ==> q == SW
    ensures 270.0 <= degree < 360.0 ==> q == NW
  {
    if degree < 0.0 then NA
    else if degree < 90.0 then NE
    else if degree < 180.0 then SE
    else if degree < 270.0 then SW
    else if degree < 360.0 then NW
    else NA
  }

  /** A quarter turn clockwise moves the heading one quadrant clockwise. */
  lemma QuarterTurn(degree: real)
    requires 0.0 <= degree < 270.0
    ensures DegreeToQuadrant(degree + 90.0) == Clockwise(DegreeToQuadrant(degree))
  {
  }

  /** The doc-string examples of `degree_normalized` and `degree_2_quadrant`. */
  lemma DocExamples()
    ensures DegreeNormalized(420.0) == 60.0
    ensures DegreeToQuadrant(45.0) == NE && DegreeToQuadrant(300.0) == NW
    ensures DegreeToQuadrant(365.0) == NA && DegreeToQuadrant(-1.0) == NA
  {
    assert (420.0 / 360.0).Floor == 1;
  }
}

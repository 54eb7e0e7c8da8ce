/**
 * The age colour scale: the share of residents over 65, in percent, picks one of
 * seven blues, scanning the band thresholds from the highest down with a strict
 * greater-than and falling back to the lightest blue.
 */
module AgeScale {

  /** Band lower bounds, in percent, highest first. */
  const Thresholds: seq<int> := [30, 20, 15, 10, 5, 2]

  /** Band colours, darkest first; the last one is the fallback. */
  const AgePalette: seq<string> :=
    ["#08306b", "#2171b5", "#4292c6", "#6baed6", "#9ecae1", "#c6dbef", "#d9ecff"]

  /**
   * The band a percentage belongs to: band `i` lies strictly above
   * `Thresholds[i]` (no bound for the last band) and at or below the threshold
   * before it (no bound for the first band).
   */
  predicate InBand(percent: real, i: nat)
    requires i < |AgePalette|
  {
    (i == 0 || percent <= Thresholds[i - 1] as real) &&
    (i == |Thresholds| || percent > Thresholds[i] as real)
  }

  /** The colour a percentage gets. */
  function AgeColor(percent: real): (color: string)
    ensures color in AgePalette
    ensures forall i | 0 <= i < |AgePalette| :: color == AgePalette[i] <==> InBand(percent, i)
  {
    if percent > 30.0 then "#08306b"
    else if percent > 20.0 then "#2171b5"
    else if percent > 15.0 then "#4292c6"
    else if percent > 10.0 then "#6baed6"
    else if percent > 5.0 then "#9ecae1"
    else if percent > 2.0 then "#c6dbef"
    else "#d9ecff"
  }

  /** Position of a colour in the palette, 0 being the darkest. */
  function Shade(color: string): (rank: nat)
    requires color in AgePalette
    ensures rank < |AgePalette| && AgePalette[rank] == color
  {
    if color == AgePalette[0] then 0
    else if color == AgePalette[1] then 1
    else if color == AgePalette[2] then 2
    else if color == AgePalette[3] then 3
    else if color == AgePalette[4] then 4
    else if color == AgePalette[5] then 5
    else 6
  }

  /** A higher share over 65 never gets a lighter colour than a lower share. */
  lemma AgeColorMonotone(p: real, q: real)
    requires p <= q
    ensures Shade(AgeColor(q)) <= Shade(AgeColor(p))
  {
  }

  /** Thresholds are strict: exactly 30 percent is in the second band, and anything up to 2 percent gets the fallback. */
  lemma AgeColorBoundaries(p: real)
    ensures AgeColor(30.0) == "#2171b5"
    ensures AgeColor(20.0) == "#4292c6"
    ensures p <= 2.0 ==> AgeColor(p) == "#d9ecff"
    ensures p > 30.0 ==> AgeColor(p) == "#08306b"
  {
  }

  /** The share the map colours by: `(over65 / ageTotal) * 100`, for a non-empty age table. */
  function PercentOver65(over65: nat, total: nat): (percent: real)
    requires 0 < total
    ensures over65 <= total ==> 0.0 <= percent <= 100.0
  {
    (over65 as real / total as real) * 100.0
  }

  /** The percentage exceeds a bound exactly when the integer comparison `over65 * 100 > bound * total` holds. */
  lemma ExceedsIff(over65: nat, total: nat, bound: int)
    requires 0 < total
    ensures PercentOver65(over65, total) > bound as real <==> over65 * 100 > bound * total
  {
    var t := total as real;
    var p := PercentOver65(over65, total);
    assert p * t == over65 as real * 100.0;
    if p > bound as real {
      assert p * t > bound as real * t;
    } else {
      assert p * t <= bound as real * t;
    }
  }

  /**
   * The colour of a count-based share, stated on integers only: the band is
   * decided by comparing `over65 * 100` with each `threshold * total`.
   */
  lemma AgeColorOfCounts(over65: nat, total: nat, i: nat)
    requires 0 < total && i < |AgePalette|
    ensures AgeColor(PercentOver65(over65, total)) == AgePalette[i] <==>
      (i == 0 || over65 * 100 <= Thresholds[i - 1] * total) &&
      (i == |Thresholds| || over65 * 100 > Thresholds[i] * total)
  {
    if i > 0 { ExceedsIff(over65, total, Thresholds[i - 1]); }
    if i < |Thresholds| { ExceedsIff(over65, total, Thresholds[i]); }
  }
}

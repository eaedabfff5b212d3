/**
 * Score inputs: typing into a number input clamps it to [0, 100] and then
 * colours its border by score band.
 */
module ScoreInputs {
  import opened Wrappers
  import opened Form

  /** The CSS variable used for the border colour. */
  datatype Colour = Success | AccentPrimary | Warning | Danger | GlassBorder

  /** The colour band of an integer score. */
  function Band(v: int): (c: Colour)
    ensures c == Success <==> v >= 80
    ensures c == AccentPrimary <==> 60 <= v < 80
    ensures c == Warning <==> 40 <= v < 60
    ensures c == Danger <==> 0 < v < 40
    ensures c == GlassBorder <==> v <= 0
  {
    if v >= 80 then Success
    else if v >= 60 then AccentPrimary
    else if v >= 40 then Warning
    else if v > 0 then Danger
    else GlassBorder
  }

  /** The bands in increasing order of score. */
  function Rank(c: Colour): nat
  {
    match c
    case GlassBorder => 0
    case Danger => 1
    case Warning => 2
    case AccentPrimary => 3
    case Success => 4
  }

  /** A higher score never falls in a lower band. */
  lemma BandMonotone(v: int, w: int)
    requires v <= w
    ensures Rank(Band(v)) <= Rank(Band(w))
  {
  }

  /** `parseInt(value) || 0`: NaN is falsy, so an unparsable value counts as 0. */
  function OrZero(p: Option<int>): int
  {
    match p
    case None => 0
    case Some(n) => n
  }

  /** `updateScoreVisual`: the band of the parsed score, unparsable input counting as 0. */
  function ScoreColour(p: Option<int>): (c: Colour)
    ensures p.None? ==> c == GlassBorder
  {
    Band(OrZero(p))
  }

  /** The clamp on the parsed integer: below 0 becomes 0, above 100 becomes 100, anything else is kept. */
  function Clamp(p: Option<int>): (q: Option<int>)
    ensures q.None? <==> p.None?
    ensures q.Some? ==> 0 <= q.value <= 100
    ensures p.Some? && 0 <= p.value <= 100 ==> q == p
    ensures p.Some? && p.value < 0 ==> q == Some(0)
    ensures p.Some? && p.value > 100 ==> q == Some(100)
  {
    match p
    case None => None
    case Some(v) => if v < 0 then Some(0) else if v > 100 then Some(100) else p
  }

  /** Clamping twice is clamping once. */
  lemma ClampIdempotent(p: Option<int>)
    ensures Clamp(Clamp(p)) == Clamp(p)
  {
  }

  /** Clamping never changes the colour: scores at or below 0 and at or above 80 each share one band. */
  lemma ClampKeepsColour(p: Option<int>)
    ensures ScoreColour(Clamp(p)) == ScoreColour(p)
  {
  }

  /**
   * The `input` handler of a number input: overwrite the value with 0 or 100
   * when its integer parse is out of range, then choose the border colour.
   */
  method OnScoreInput(input: Field) returns (colour: Colour)
    requires input.Parsed()
    modifies input
    ensures input.Parsed()
    ensures input.asInt == Clamp(old(input.asInt))
    ensures input.asInt == old(input.asInt) ==>
              input.value == old(input.value) && input.asFloat == old(input.asFloat)
    ensures input.asInt != old(input.asInt) ==>
              && input.value == (if input.asInt == Some(0) then "0" else "100")
              && input.asFloat == Some(input.asInt.value as real)
    ensures colour == ScoreColour(input.asInt)
  {
    var value := input.asInt;
    if value.Some? && value.value < 0 {
      input.value, input.asFloat, input.asInt := "0", Some(0.0), Some(0);
    }
    if value.Some? && value.value > 100 {
      input.value, input.asFloat, input.asInt := "100", Some(100.0), Some(100);
    }
    colour := ScoreColour(input.asInt);
  }
}

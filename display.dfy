// Classification of a reading against its band and the colour of its text on
// the LED display (the two if/elif chains of draw_data in main.py).

module Display {
  import opened Rules

  /** The five places a reading can fall relative to `[min, target, max]`. */
  datatype Tier = FarBelow | Below | AtTarget | Above | FarAbove

  /** Position of a tier from lowest (0) to highest (4). */
  function Rank(t: Tier): nat {
    match t
    case FarBelow => 0
    case Below => 1
    case AtTarget => 2
    case Above => 3
    case FarAbove => 4
  }

  /**
   * The comparison chain both metrics use, first match wins:
   * `v < min`, `v < target`, `v == target`, `v < max`, otherwise.
   */
  function Classify(v: real, b: Band): (t: Tier)
    ensures t == FarBelow <==> v < b.lo
    ensures t == Below <==> b.lo <= v < b.target
    ensures t == AtTarget <==> b.lo <= v == b.target
    ensures t == Above <==> b.lo <= v && b.target < v < b.hi
    ensures t == FarAbove <==> b.lo <= v && b.target < v && b.hi <= v
  {
    if v < b.lo then FarBelow
    else if v < b.target then Below
    else if v == b.target then AtTarget
    else if v < b.hi then Above
    else FarAbove
  }

  /** The tier at the same distance from the middle, on the other side. */
  function Mirror(t: Tier): (m: Tier)
    ensures Rank(m) == 4 - Rank(t)
  {
    match t
    case FarBelow => FarAbove
    case Below => Above
    case AtTarget => AtTarget
    case Above => Below
    case FarAbove => FarBelow
  }

  /** The five text colours of the display. */
  datatype Colour = Blue | LightBlue | Green | Yellow | Red

  /** The RGB triple the source passes to the display for each colour. */
  function Rgb(c: Colour): (int, int, int) {
    match c
    case Blue => (0, 0, 255)
    case LightBlue => (173, 216, 230)
    case Green => (0, 255, 0)
    case Yellow => (255, 255, 0)
    case Red => (255, 0, 0)
  }

  /** Temperature palette: cold is blue, on target green, hot red. */
  function TempPalette(t: Tier): Colour {
    match t
    case FarBelow => Blue
    case Below => LightBlue
    case AtTarget => Green
    case Above => Yellow
    case FarAbove => Red
  }

  /** Humidity palette: the temperature palette read from the other end. */
  function HumPalette(t: Tier): (c: Colour)
    ensures c == TempPalette(Mirror(t))
  {
    match t
    case FarBelow => Red
    case Below => Yellow
    case AtTarget => Green
    case Above => LightBlue
    case FarAbove => Blue
  }

  /** The temperature chain of draw_data, written out as the source has it. */
  function TempColour(temp: real, rules: Band): (c: Colour)
    ensures c == TempPalette(Classify(temp, rules))
  {
    if temp < rules.lo then Blue
    else if temp < rules.target then LightBlue
    else if temp == rules.target then Green
    else if temp < rules.hi then Yellow
    else Red
  }

  /** The humidity chain of draw_data, written out as the source has it. */
  function HumColour(hum: real, rules: Band): (c: Colour)
    ensures c == HumPalette(Classify(hum, rules))
  {
    if hum < rules.lo then Red
    else if hum < rules.target then Yellow
    else if hum == rules.target then Green
    else if hum < rules.hi then LightBlue
    else Blue
  }

  /** A higher reading never lands in a lower tier, for any band at all. */
  lemma ClassifyMonotone(b: Band, v: real, w: real)
    requires v <= w
    ensures Rank(Classify(v, b)) <= Rank(Classify(w, b))
  {
  }

  /** On an ordered band each tier is one interval, and the target itself is AtTarget. */
  lemma ClassifyOrdered(b: Band, v: real)
    requires Ordered(b)
    ensures Classify(v, b) == FarBelow <==> v < b.lo
    ensures Classify(v, b) == Below <==> b.lo <= v < b.target
    ensures Classify(v, b) == AtTarget <==> v == b.target
    ensures Classify(v, b) == Above <==> b.target < v < b.hi
    ensures Classify(v, b) == FarAbove <==> b.hi <= v && v != b.target
  {
  }

  /** A reading at the target is AtTarget exactly when the band's min does not exceed it. */
  lemma TargetIsAtTargetIff(b: Band)
    ensures Classify(b.target, b) == AtTarget <==> b.lo <= b.target
  {
  }

  /** Humidity colour is the temperature colour of the mirrored tier. */
  lemma ColoursMirror(v: real, b: Band)
    ensures HumColour(v, b) == TempPalette(Mirror(Classify(v, b)))
    ensures TempColour(v, b) == HumPalette(Mirror(Classify(v, b)))
  {
  }

  /** Each palette tells the tiers apart: the colour determines the tier. */
  lemma PalettesInjective(s: Tier, t: Tier)
    ensures TempPalette(s) == TempPalette(t) ==> s == t
    ensures HumPalette(s) == HumPalette(t) ==> s == t
  {
  }

  /** The five colours have five different RGB triples. */
  lemma RgbInjective(c: Colour, d: Colour)
    ensures Rgb(c) == Rgb(d) ==> c == d
  {
  }

  /** Temperature colour against the band built from target `t`; at `t + 3` it is red. */
  lemma TempColourOnTempBand(v: real, t: real)
    ensures TempColour(v, TempBand(t)) == Blue <==> v < t - 3.0
    ensures TempColour(v, TempBand(t)) == LightBlue <==> t - 3.0 <= v < t
    ensures TempColour(v, TempBand(t)) == Green <==> v == t
    ensures TempColour(v, TempBand(t)) == Yellow <==> t < v < t + 3.0
    ensures TempColour(v, TempBand(t)) == Red <==> t + 3.0 <= v
  {
    ClassifyOrdered(TempBand(t), v);
  }

  /** Humidity colour against the band built from a positive target `h`; at max it is blue. */
  lemma HumColourOnHumBand(v: real, h: real)
    requires h > 0.0
    ensures HumColour(v, HumBand(h)) == Red <==> v < h - h / 10.0
    ensures HumColour(v, HumBand(h)) == Yellow <==> h - h / 10.0 <= v < h
    ensures HumColour(v, HumBand(h)) == Green <==> v == h
    ensures HumColour(v, HumBand(h)) == LightBlue <==> h < v < h + h / 10.0
    ensures HumColour(v, HumBand(h)) == Blue <==> h + h / 10.0 <= v
  {
    ClassifyOrdered(HumBand(h), v);
  }

  /** With a zero humidity target every reading is red, green or blue. */
  lemma HumColourZeroTarget(v: real)
    ensures HumColour(v, HumBand(0.0)) == (if v < 0.0 then Red else if v == 0.0 then Green else Blue)
  {
  }

  /** With a negative humidity target a reading equal to the target is shown red, not green. */
  lemma HumColourNegativeTarget(h: real)
    requires h < 0.0
    ensures HumColour(h, HumBand(h)) == Red
  {
  }
}

// Tolerance bands derived from a plant's reference profile (set_rules in main.py).

module Rules {

  /** A plant row as the plant table returns it: id, name and the two targets. */
  datatype Plant = Plant(plantId: int, name: string, temp: real, hum: real)

  /** A `[min, target, max]` triple; `lo` is index 0, `target` index 1, `hi` index 2. */
  datatype Band = Band(lo: real, target: real, hi: real)

  /** Absolute offset of the temperature band around its target. */
  const TempMargin: real := 3.0

  /** The temperature triple: the target plus or minus three units. */
  function TempBand(t: real): (b: Band)
    ensures b.target == t
    ensures b.lo < b.target < b.hi
    ensures b.target - b.lo == TempMargin && b.hi - b.target == TempMargin
  {
    Band(t - TempMargin, t, t + TempMargin)
  }

  /** The humidity triple, computed as the source does: `hum / 100 * 10` either side. */
  function HumBand(h: real): (b: Band)
    ensures b.target == h
    ensures b.lo == h - h / 10.0 && b.hi == h + h / 10.0
    ensures b.target - b.lo == b.hi - b.target
  {
    Band(h - (h / 100.0 * 10.0), h, h + (h / 100.0 * 10.0))
  }

  /** set_rules: the temperature triple and the humidity triple of a plant. */
  function SetRules(p: Plant): (rules: (Band, Band))
    ensures rules.0.target == p.temp && rules.1.target == p.hum
    ensures rules.0.lo == p.temp - 3.0 && rules.0.hi == p.temp + 3.0
    ensures rules.1.lo == p.hum - p.hum / 10.0 && rules.1.hi == p.hum + p.hum / 10.0
  {
    (TempBand(p.temp), HumBand(p.hum))
  }

  /** A band is ordered when its three values do not decrease. */
  predicate Ordered(b: Band) {
    b.lo <= b.target <= b.hi
  }

  /** The humidity band is ordered exactly when the target is not negative. */
  lemma HumBandOrderedIff(h: real)
    ensures Ordered(HumBand(h)) <==> h >= 0.0
  {
  }

  /** The humidity band is strictly ordered exactly when the target is positive. */
  lemma HumBandStrictIff(h: real)
    ensures (HumBand(h).lo < HumBand(h).target < HumBand(h).hi) <==> h > 0.0
  {
  }

  /** The humidity band collapses to a single point exactly when the target is zero. */
  lemma HumBandDegenerateIff(h: real)
    ensures (HumBand(h).lo == HumBand(h).target == HumBand(h).hi) <==> h == 0.0
  {
  }

  /** A negative humidity target gives an inverted band: min above target above max. */
  lemma HumBandInvertedBelowZero(h: real)
    requires h < 0.0
    ensures HumBand(h).hi < HumBand(h).target < HumBand(h).lo
  {
  }
}

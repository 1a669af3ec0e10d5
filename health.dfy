/**
 * Health pattern selection of the NESPi 4 safe-shutdown daemon.
 *
 * While no shutdown is in progress, every LED tick samples the 1-minute load
 * average and the CPU temperature and classifies them into one of four blink
 * patterns.  The daemon writes this as an if/elif cascade from the most severe
 * pattern down; here the cascade is a pure function, and its meaning is stated
 * against an independent per-metric classification: the selected pattern is
 * the more severe of the temperature tier and the load tier.
 *
 * Both metrics are floating-point numbers in the daemon; only comparisons
 * against the constants below are involved, so they are modelled as `real`.
 */
module Health {

  /** Temperature thresholds, in degrees Celsius. */
  const LowTempC: real := 60.0
  const MediumTempC: real := 67.0
  const HighTempC: real := 75.0

  /** 1-minute load-average thresholds. */
  const LowLoad1: real := 1.1
  const MediumLoad1: real := 2.2
  const HighLoad1: real := 3.3

  /** The four health patterns, from least to most severe. */
  datatype Pattern = Idle | Low | Medium | High

  /** Rank of a pattern: Idle < Low < Medium < High. */
  function Severity(p: Pattern): (r: nat)
    ensures r <= 3
  {
    match p
    case Idle => 0
    case Low => 1
    case Medium => 2
    case High => 3
  }

  /** The more severe of two patterns. */
  function MoreSevere(a: Pattern, b: Pattern): (r: Pattern)
    ensures r == a || r == b
    ensures Severity(r) >= Severity(a) && Severity(r) >= Severity(b)
  {
    if Severity(a) >= Severity(b) then a else b
  }

  /** Classification of the temperature alone against its three thresholds. */
  function TempTier(tempC: real): Pattern
  {
    if tempC >= HighTempC then High
    else if tempC >= MediumTempC then Medium
    else if tempC >= LowTempC then Low
    else Idle
  }

  /** Classification of the load average alone against its three thresholds. */
  function LoadTier(load1: real): Pattern
  {
    if load1 >= HighLoad1 then High
    else if load1 >= MediumLoad1 then Medium
    else if load1 >= LowLoad1 then Low
    else Idle
  }

  /**
   * The daemon's cascade: the first tier (checked from high to low) that
   * either metric reaches wins; Idle when neither reaches the low threshold.
   */
  function Select(load1: real, tempC: real): (r: Pattern)
    ensures r == MoreSevere(TempTier(tempC), LoadTier(load1))
  {
    if tempC >= HighTempC || load1 >= HighLoad1 then High
    else if tempC >= MediumTempC || load1 >= MediumLoad1 then Medium
    else if tempC >= LowTempC || load1 >= LowLoad1 then Low
    else Idle
  }

  /** Reaching the high threshold on either metric selects High, whatever the other metric is. */
  lemma HighDominates(load1: real, tempC: real)
    ensures tempC >= HighTempC ==> Select(load1, tempC) == High
    ensures load1 >= HighLoad1 ==> Select(load1, tempC) == High
    ensures Select(load1, tempC) == High ==> tempC >= HighTempC || load1 >= HighLoad1
  {
  }

  /** The pattern is Idle exactly when both metrics are below their low thresholds. */
  lemma IdleIffBothBelowLow(load1: real, tempC: real)
    ensures Select(load1, tempC) == Idle <==> tempC < LowTempC && load1 < LowLoad1
  {
  }

  /** Each per-metric tier never drops when its metric rises. */
  lemma TiersMonotone(x: real, y: real)
    requires x <= y
    ensures Severity(TempTier(x)) <= Severity(TempTier(y))
    ensures Severity(LoadTier(x)) <= Severity(LoadTier(y))
  {
  }

  /** Raising either metric (or both) never lowers the severity of the selected pattern. */
  lemma SelectMonotone(load1: real, tempC: real, load1': real, tempC': real)
    requires load1 <= load1' && tempC <= tempC'
    ensures Severity(Select(load1, tempC)) <= Severity(Select(load1', tempC'))
  {
  }

  /**
   * Worked samples: a cool, idle board stays Idle; a hot board with almost no
   * load shows High, because temperature severity dominates; a warm board under
   * medium load shows Medium, because load severity dominates.
   */
  lemma Samples()
    ensures Select(0.05, 40.0) == Idle
    ensures Select(0.2, 78.0) == High
    ensures Select(2.5, 61.0) == Medium
  {
  }
}

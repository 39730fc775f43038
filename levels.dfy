/** The classifications the dashboard derives from numbers: the severity of
    one alert (from the classifier's attack probability), the score an alert
    reports, and the two threat tiers reported by the stats endpoint. */
module ThreatLevels {

  /** An alert's "severity" field. */
  datatype Severity = Medium | High {
    function Label(): string {
      match this
      case Medium => "Medium"
      case High => "High"
    }
  }

  /** The cumulative tier reported as "threat_level". */
  datatype ThreatLevel = Normal | Elevated | Critical {
    function Label(): string {
      match this
      case Normal => "Normal"
      case Elevated => "Elevated"
      case Critical => "Critical"
    }

    /** Position of the tier in the order Normal < Elevated < Critical. */
    function Rank(): nat {
      match this
      case Normal => 0
      case Elevated => 1
      case Critical => 2
    }
  }

  /** The rate-based tier reported as "threat_level_normalized". */
  datatype RateLevel = RateNormal | RateHigh {
    function Label(): string {
      match this
      case RateNormal => "Normal"
      case RateHigh => "High"
    }
  }

  /** An attack probability above this makes an alert "High". The value is
      the exact value of the double that the literal 0.8 denotes, so that a
      probability equal to that double (40 votes out of 50 trees, say) is
      "Medium", as the floating-point comparison makes it. */
  const SevereProbability: real := 0.8000000000000000444089209850062616169452667236328125
  /** More threats than this make the cumulative tier at least "Elevated". */
  const ElevatedAbove: nat := 20
  /** More threats than this make the cumulative tier "Critical". */
  const CriticalAbove: nat := 100
  /** A share of attacks below this keeps the rate-based tier "Normal". */
  const RateThreshold: real := 0.1

  function SeverityOf(proba: real): Severity {
    if proba > SevereProbability then High else Medium
  }

  /** A probability equal to the double 0.8 (40 attack votes of 50 trees)
      gives a "Medium" alert scored 0.80; the next hundredth up is "High". */
  lemma SeverityAtThreshold()
    ensures SeverityOf(SevereProbability) == Medium && ScoreHundredths(SevereProbability) == 80
    ensures SeverityOf(0.81) == High
  {
  }

  /** The alert's "score": the probability rounded to two decimals, given as
      a whole number of hundredths. Python's two-decimal format rounds the
      exact value of the probability to the nearest hundredth and a tie to
      the even neighbour. */
  function ScoreHundredths(proba: real): (k: int)
    ensures (k as real) - 0.5 <= proba * 100.0 <= (k as real) + 0.5
    ensures proba * 100.0 == (k as real) - 0.5 || proba * 100.0 == (k as real) + 0.5 ==> k % 2 == 0
    ensures 0.0 <= proba <= 1.0 ==> 0 <= k <= 100
  {
    var x := proba * 100.0;
    var f := x.Floor;
    var frac := x - f as real;
    if frac < 0.5 then f
    else if frac > 0.5 then f + 1
    else if f % 2 == 0 then f
    else f + 1
  }

  /** A "High" alert never reports a score below 0.80 and a "Medium" one
      never reports a score above 0.80, although severity is decided on the
      unrounded probability. */
  lemma SeverityAgreesWithScore(proba: real)
    ensures SeverityOf(proba) == High ==> ScoreHundredths(proba) >= 80
    ensures SeverityOf(proba) == Medium ==> ScoreHundredths(proba) <= 80
  {
    var k := ScoreHundredths(proba);
    if proba > SevereProbability {
      assert proba * 100.0 > 80.0;
    } else {
      assert proba * 100.0 < 80.5;
    }
  }

  function ThreatLevelOf(threats: nat): (l: ThreatLevel)
    ensures l == Normal <==> threats <= ElevatedAbove
    ensures l == Elevated <==> ElevatedAbove < threats <= CriticalAbove
    ensures l == Critical <==> CriticalAbove < threats
  {
    if threats > CriticalAbove then Critical
    else if threats > ElevatedAbove then Elevated
    else Normal
  }

  /** More threats never give a lower cumulative tier. */
  lemma ThreatLevelMonotone(a: nat, b: nat)
    requires a <= b
    ensures ThreatLevelOf(a).Rank() <= ThreatLevelOf(b).Rank()
  {
  }

  /** The denominator of the attack rate: the total, or 1 when nothing has
      been sampled yet, so the rate is always defined. */
  function RateDenominator(total: nat): (d: nat)
    ensures d >= 1
    ensures total == 0 ==> d == 1
    ensures total > 0 ==> d == total
  {
    if total == 0 then 1 else total
  }

  function RateLevelOf(threats: nat, total: nat): RateLevel {
    if (threats as real) / (RateDenominator(total) as real) < RateThreshold then RateNormal
    else RateHigh
  }

  /** The rate-based tier in integers: it is "Normal" exactly when ten times
      the threat count is below the denominator. With nothing sampled and
      nothing detected it is "Normal". */
  lemma RateLevelIntegerForm(threats: nat, total: nat)
    ensures RateLevelOf(threats, total) == RateNormal <==> 10 * threats < RateDenominator(total)
    ensures total == 0 && threats == 0 ==> RateLevelOf(threats, total) == RateNormal
  {
    var d := RateDenominator(total) as real;
    var t := threats as real;
    assert t / d * d == t;
    if t / d < RateThreshold {
      assert t < RateThreshold * d;
      assert 10.0 * t < d;
    } else {
      assert t >= RateThreshold * d;
      assert 10.0 * t >= d;
    }
  }

  /** The two tiers are independent: a session can be "Critical" by count
      while its attack rate is "Normal". */
  lemma TiersCanDisagree()
    ensures ThreatLevelOf(101) == Critical && RateLevelOf(101, 2000) == RateNormal
  {
    RateLevelIntegerForm(101, 2000);
  }
}

/** The classifier: a reading's status against its thresholds, the 0-100
    parameter score used for plant health, the colour and growth bands of a
    health score, and the worst-of status of a whole system. Numbers are exact
    reals; `Math.round` is Floor(x + 0.5). */
module SensorUtils {

  datatype SensorStatusValue = Critical | Warning | Optimal

  function StatusValueKey(s: SensorStatusValue): string {
    match s
    case Critical => "critical"
    case Warning => "warning"
    case Optimal => "optimal"
  }

  /** A range breach wins over the optimal band; inside [min, max] the
      optimal band is closed at both ends. The thresholds are used as given,
      even when they are not ordered min <= optimalMin <= optimalMax <= max. */
  function GetSensorStatus(value: real, min: real, max: real, optimalMin: real, optimalMax: real): (r: SensorStatusValue)
    ensures r == Critical <==> value < min || max < value
    ensures r == Optimal <==> min <= value <= max && optimalMin <= value <= optimalMax
    ensures r == Warning <==> min <= value <= max && !(optimalMin <= value <= optimalMax)
  {
    if value < min || value > max then Critical
    else if value >= optimalMin && value <= optimalMax then Optimal
    else Warning
  }

  /** Under ordered thresholds the status partitions the line into the
      critical outside, the optimal band, and the warning margins between. */
  lemma StatusBands(value: real, min: real, max: real, optimalMin: real, optimalMax: real)
    requires min <= optimalMin <= optimalMax <= max
    ensures optimalMin <= value <= optimalMax ==> GetSensorStatus(value, min, max, optimalMin, optimalMax) == Optimal
    ensures (min <= value < optimalMin || optimalMax < value <= max) ==> GetSensorStatus(value, min, max, optimalMin, optimalMax) == Warning
    ensures (value < min || max < value) ==> GetSensorStatus(value, min, max, optimalMin, optimalMax) == Critical
  {
  }

  /** With inverted thresholds a value inside the optimal band is still
      critical when it breaches [min, max]. */
  lemma BreachWinsOverOptimalBand()
    ensures GetSensorStatus(5.0, 6.0, 10.0, 4.0, 6.0) == Critical
  {
  }

  /** `Math.round` on exact reals: the nearest integer, halves rounded up. */
  function Round(x: real): (r: int)
    ensures r as real <= x + 0.5 < r as real + 1.0
  {
    (x + 0.5).Floor
  }

  function Max0(n: int): int {
    if n < 0 then 0 else n
  }

  /** One side of the score: `max(0, round(80 * num / den))`. The source
      divides by zero when an optimal bound equals its absolute bound; the
      numerator is then negative, the quotient -Infinity, and the score 0.
      Otherwise the score is the integer nearest the scaled quotient, or 0
      when that quotient is nearer a negative integer. */
  function Ramp(num: real, den: real): (r: int)
    requires den == 0.0 ==> num < 0.0
    ensures r >= 0
    ensures den == 0.0 ==> r == 0
    ensures den != 0.0 && num / den * 80.0 >= -0.5 ==> r as real - 0.5 <= num / den * 80.0 < r as real + 0.5
    ensures den != 0.0 && num / den * 80.0 < -0.5 ==> r == 0
  {
    if den == 0.0 then 0 else Max0(Round(num / den * 80.0))
  }

  /** The parameter score: 100 inside the closed optimal band, otherwise a
      linear ramp from the absolute bound (0) toward the optimal bound (80). */
  function CalculateParameterScore(value: real, optimalMin: real, optimalMax: real, absMin: real, absMax: real): (r: int)
    ensures r >= 0
    ensures optimalMin <= value <= optimalMax ==> r == 100
    ensures !(optimalMin <= value <= optimalMax) && value < optimalMin && absMin == optimalMin ==> r == 0
    ensures !(optimalMin <= value <= optimalMax) && optimalMin <= value && absMax == optimalMax ==> r == 0
    ensures absMin <= value < optimalMin ==>
      r as real - 0.5 <= (value - absMin) / (optimalMin - absMin) * 80.0 < r as real + 0.5
    ensures optimalMin <= value && optimalMax < value <= absMax ==>
      r as real - 0.5 <= (absMax - value) / (absMax - optimalMax) * 80.0 < r as real + 0.5
  {
    if value >= optimalMin && value <= optimalMax then 100
    else if value < optimalMin then Ramp(value - absMin, optimalMin - absMin)
    else Ramp(absMax - value, absMax - optimalMax)
  }

  lemma RoundMonotone(x: real, y: real)
    requires x <= y
    ensures Round(x) <= Round(y)
  {
  }

  /** 80 * num / den grows with num when den is positive. */
  lemma ScaledMonotone(a: real, b: real, den: real)
    requires a <= b && den > 0.0
    ensures a / den * 80.0 <= b / den * 80.0
  {
    assert a / den <= b / den;
  }

  /** A ramp over a positive span: 0 at or below the absolute bound, at most
      80 short of the optimal bound, and non-decreasing in the distance. */
  lemma RampBounds(num: real, den: real)
    requires den > 0.0 && num < den
    ensures num <= 0.0 ==> Ramp(num, den) == 0
    ensures 0 <= Ramp(num, den) <= 80
  {
    var q := num / den;
    assert q < 1.0;
    assert q * 80.0 < 80.0;
    if num <= 0.0 {
      assert q <= 0.0;
    }
  }

  /** Below the band, with absMin < optimalMin: the score lies in [0, 80],
      is 0 at or below absMin, and never decreases as the value rises. */
  lemma ScoreBelowBand(a: real, b: real, optimalMin: real, optimalMax: real, absMin: real, absMax: real)
    requires absMin < optimalMin
    requires a <= b < optimalMin
    ensures 0 <= CalculateParameterScore(a, optimalMin, optimalMax, absMin, absMax) <= 80
    ensures a <= absMin ==> CalculateParameterScore(a, optimalMin, optimalMax, absMin, absMax) == 0
    ensures CalculateParameterScore(a, optimalMin, optimalMax, absMin, absMax)
         <= CalculateParameterScore(b, optimalMin, optimalMax, absMin, absMax)
  {
    var den := optimalMin - absMin;
    RampBounds(a - absMin, den);
    ScaledMonotone(a - absMin, b - absMin, den);
    RoundMonotone((a - absMin) / den * 80.0, (b - absMin) / den * 80.0);
  }

  /** Above the band, with optimalMax < absMax: the score lies in [0, 80],
      is 0 at or above absMax, and never increases as the value rises. */
  lemma ScoreAboveBand(a: real, b: real, optimalMin: real, optimalMax: real, absMin: real, absMax: real)
    requires optimalMin <= optimalMax < absMax
    requires optimalMax < a <= b
    ensures 0 <= CalculateParameterScore(b, optimalMin, optimalMax, absMin, absMax) <= 80
    ensures absMax <= b ==> CalculateParameterScore(b, optimalMin, optimalMax, absMin, absMax) == 0
    ensures CalculateParameterScore(b, optimalMin, optimalMax, absMin, absMax)
         <= CalculateParameterScore(a, optimalMin, optimalMax, absMin, absMax)
  {
    var den := absMax - optimalMax;
    RampBounds(absMax - b, den);
    ScaledMonotone(absMax - b, absMax - a, den);
    RoundMonotone((absMax - b) / den * 80.0, (absMax - a) / den * 80.0);
  }

  /** Approaching the optimal band from below never lowers the score, up to
      the band's upper end (where it is 100). */
  lemma ScoreNonDecreasingTowardBand(a: real, b: real, optimalMin: real, optimalMax: real, absMin: real, absMax: real)
    requires absMin <= optimalMin <= optimalMax
    requires a <= b <= optimalMax
    ensures CalculateParameterScore(a, optimalMin, optimalMax, absMin, absMax)
         <= CalculateParameterScore(b, optimalMin, optimalMax, absMin, absMax)
  {
    if b < optimalMin && absMin < optimalMin {
      ScoreBelowBand(a, b, optimalMin, optimalMax, absMin, absMax);
    } else if a < optimalMin && absMin < optimalMin {
      ScoreBelowBand(a, a, optimalMin, optimalMax, absMin, absMax);
    }
  }

  /** Leaving the optimal band upward never raises the score. */
  lemma ScoreNonIncreasingAwayFromBand(a: real, b: real, optimalMin: real, optimalMax: real, absMin: real, absMax: real)
    requires optimalMin <= optimalMax <= absMax
    requires optimalMin <= a <= b
    ensures CalculateParameterScore(b, optimalMin, optimalMax, absMin, absMax)
         <= CalculateParameterScore(a, optimalMin, optimalMax, absMin, absMax)
  {
    if optimalMax < a && optimalMax < absMax {
      ScoreAboveBand(a, b, optimalMin, optimalMax, absMin, absMax);
    } else if optimalMax < b && optimalMax < absMax {
      ScoreAboveBand(b, b, optimalMin, optimalMax, absMin, absMax);
    }
  }

  /** With ordered thresholds the score never exceeds 100. */
  lemma ScoreAtMost100(value: real, optimalMin: real, optimalMax: real, absMin: real, absMax: real)
    requires absMin <= optimalMin <= optimalMax <= absMax
    ensures CalculateParameterScore(value, optimalMin, optimalMax, absMin, absMax) <= 100
  {
    if value < optimalMin && absMin < optimalMin {
      ScoreBelowBand(value, value, optimalMin, optimalMax, absMin, absMax);
    } else if optimalMax < value && optimalMax < absMax {
      ScoreAboveBand(value, value, optimalMin, optimalMax, absMin, absMax);
    }
  }

  /** No threshold check is made: an absolute minimum above the optimal
      minimum turns the ramp's quotient above 1, and the score above 100. */
  lemma ScoreExceeds100WhenThresholdsInverted()
    ensures CalculateParameterScore(3.0, 5.0, 6.0, 10.0, 20.0) == 112
  {
    assert (3.0 - 10.0) / (5.0 - 10.0) * 80.0 == 112.0;
  }

  /** The five bands of a health score, 0 the best: lower bounds 90, 75, 60
      and 40, each inclusive. */
  function Band(score: real): (r: nat)
    ensures r <= 4
    ensures r == 0 <==> 90.0 <= score
    ensures r == 1 <==> 75.0 <= score < 90.0
    ensures r == 2 <==> 60.0 <= score < 75.0
    ensures r == 3 <==> 40.0 <= score < 60.0
    ensures r == 4 <==> score < 40.0
  {
    if score >= 90.0 then 0
    else if score >= 75.0 then 1
    else if score >= 60.0 then 2
    else if score >= 40.0 then 3
    else 4
  }

  datatype HealthStatusColor = HealthStatusColor(color: string)

  /** The colour class of a health score, one per band, best first. */
  function GetHealthStatusColor(score: real): (r: HealthStatusColor)
    ensures r.color == ["text-green-500 dark:text-green-400", "text-green-600 dark:text-green-500",
                        "text-yellow-500 dark:text-yellow-400", "text-orange-500 dark:text-orange-400",
                        "text-red-500 dark:text-red-400"][Band(score)]
  {
    if score >= 90.0 then HealthStatusColor("text-green-500 dark:text-green-400")
    else if score >= 75.0 then HealthStatusColor("text-green-600 dark:text-green-500")
    else if score >= 60.0 then HealthStatusColor("text-yellow-500 dark:text-yellow-400")
    else if score >= 40.0 then HealthStatusColor("text-orange-500 dark:text-orange-400")
    else HealthStatusColor("text-red-500 dark:text-red-400")
  }

  datatype GrowthPrediction = Excellent | Good | Fair | Poor | Failing

  /** The prediction's name in the source: `Failing` is the source's 'Critical'. */
  function GrowthKey(g: GrowthPrediction): string {
    match g
    case Excellent => "Excellent"
    case Good => "Good"
    case Fair => "Fair"
    case Poor => "Poor"
    case Failing => "Critical"
  }

  /** The growth prediction of a health score, named as the source names it. */
  function GetGrowthPrediction(score: real): (r: GrowthPrediction)
    ensures GrowthKey(r) == ["Excellent", "Good", "Fair", "Poor", "Critical"][Band(score)]
  {
    if score >= 90.0 then Excellent
    else if score >= 75.0 then Good
    else if score >= 60.0 then Fair
    else if score >= 40.0 then Poor
    else Failing
  }

  /** The prediction is determined by the band, and names each band apart. */
  lemma GrowthPredictionFollowsBand(score: real)
    ensures GetGrowthPrediction(score) == [Excellent, Good, Fair, Poor, Failing][Band(score)]
  {
  }

  /** Colour and prediction cut the score at the same points: two scores get
      the same colour exactly when they get the same prediction, exactly when
      they fall in the same band. */
  lemma ColorAndPredictionAgree(a: real, b: real)
    ensures GetHealthStatusColor(a) == GetHealthStatusColor(b) <==> Band(a) == Band(b)
    ensures GetGrowthPrediction(a) == GetGrowthPrediction(b) <==> Band(a) == Band(b)
  {
  }

  datatype SystemStatus = SystemCritical | SystemWarning | SystemNormal

  function SystemStatusKey(s: SystemStatus): string {
    match s
    case SystemCritical => "critical"
    case SystemWarning => "warning"
    case SystemNormal => "normal"
  }

  /** Worst of the statuses: critical if any is, else warning if any is,
      else normal (the empty list included). */
  function GetSystemStatus(statuses: seq<SensorStatusValue>): (r: SystemStatus)
    ensures r == SystemCritical <==> Critical in statuses
    ensures r == SystemWarning <==> Critical !in statuses && Warning in statuses
    ensures r == SystemNormal <==> Critical !in statuses && Warning !in statuses
  {
    if Critical in statuses then SystemCritical
    else if Warning in statuses then SystemWarning
    else SystemNormal
  }

  /** Normal means every sensor is optimal; the empty list is normal. */
  lemma NormalMeansAllOptimal(statuses: seq<SensorStatusValue>)
    ensures GetSystemStatus(statuses) == SystemNormal <==> forall i :: 0 <= i < |statuses| ==> statuses[i] == Optimal
    ensures GetSystemStatus([]) == SystemNormal
  {
    if GetSystemStatus(statuses) == SystemNormal {
      forall i | 0 <= i < |statuses| ensures statuses[i] == Optimal {
        assert statuses[i] in statuses;
      }
    }
  }

  function Severity(s: SensorStatusValue): nat {
    match s
    case Optimal => 0
    case Warning => 1
    case Critical => 2
  }

  function SystemSeverity(s: SystemStatus): nat {
    match s
    case SystemNormal => 0
    case SystemWarning => 1
    case SystemCritical => 2
  }

  /** An independent definition of worst-of: the largest severity, folded
      from the front of the list. */
  function MaxSeverity(statuses: seq<SensorStatusValue>): nat {
    if |statuses| == 0 then 0
    else
      var rest := MaxSeverity(statuses[1..]);
      if Severity(statuses[0]) > rest then Severity(statuses[0]) else rest
  }

  lemma {:induction false} MaxSeverityBounds(statuses: seq<SensorStatusValue>)
    ensures MaxSeverity(statuses) <= 2
    ensures MaxSeverity(statuses) == 2 <==> Critical in statuses
    ensures MaxSeverity(statuses) >= 1 <==> Critical in statuses || Warning in statuses
  {
    if |statuses| > 0 {
      MaxSeverityBounds(statuses[1..]);
      assert statuses == [statuses[0]] + statuses[1..];
    }
  }

  /** The system status is the fold's worst-of. */
  lemma SystemStatusIsWorstOf(statuses: seq<SensorStatusValue>)
    ensures SystemSeverity(GetSystemStatus(statuses)) == MaxSeverity(statuses)
  {
    MaxSeverityBounds(statuses);
  }

  /** Reordering the statuses does not change the system status. */
  lemma SystemStatusPermutationInvariant(a: seq<SensorStatusValue>, b: seq<SensorStatusValue>)
    requires multiset(a) == multiset(b)
    ensures GetSystemStatus(a) == GetSystemStatus(b)
  {
    assert Critical in a <==> Critical in multiset(a);
    assert Critical in b <==> Critical in multiset(b);
    assert Warning in a <==> Warning in multiset(a);
    assert Warning in b <==> Warning in multiset(b);
  }
}

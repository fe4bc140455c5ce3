/** The two pure functions behind the blood-glucose calculator: an advisory
    classifier for a single glucose reading (mg/dL) and the affine estimate of
    HbA1c (percent) from an average glucose reading.

    Readings are modelled as exact `real` numbers (the Python function accepts
    any number); the entry form only ever produces non-negative integers, and
    `AdviceForReading` models the classifier on that domain. */
module Glucose {

  /** The four fixed advisories, from lowest to highest glucose. */
  datatype Advice = Hypoglycemia | Normal | Prediabetic | Hyperglycemia
  {
    /** The exact text shown to the user. */
    function Text(): string {
      match this
      case Hypoglycemia => "Your blood glucose is too low (hypoglycemia). Consider eating something sugary."
      case Normal => "Your blood glucose is normal."
      case Prediabetic => "You are in the prediabetic range. Consider consulting a doctor."
      case Hyperglycemia => "Your blood glucose is high (hyperglycemia). You should seek medical advice."
    }

    /** Position of the band on the glucose scale: low < normal < prediabetic < high. */
    function Rank(): nat {
      match this
      case Hypoglycemia => 0
      case Normal => 1
      case Prediabetic => 2
      case Hyperglycemia => 3
    }
  }

  // ---------------------------------------------------------------------------
  // Health advice
  // ---------------------------------------------------------------------------

  /** The classifier exactly as its guard chain is written: `< 70`, then
      `70 <= g <= 99`, then `100 <= g <= 125`, else high. Over the reals the
      two middle guards leave the open interval (99, 100) uncovered, so those
      readings fall through to the hyperglycemia advisory. */
  function ProvideHealthAdvice(glucose: real): (advice: Advice)
    ensures advice == Hypoglycemia <==> glucose < 70.0
    ensures advice == Normal <==> 70.0 <= glucose <= 99.0
    ensures advice == Prediabetic <==> 100.0 <= glucose <= 125.0
    ensures advice == Hyperglycemia <==> (99.0 < glucose < 100.0 || 125.0 < glucose)
  {
    if glucose < 70.0 then Hypoglycemia
    else if 70.0 <= glucose <= 99.0 then Normal
    else if 100.0 <= glucose <= 125.0 then Prediabetic
    else Hyperglycemia
  }

  /** The reference band table for whole-number readings, as closed integer
      intervals: up to 69 low, 70..99 normal, 100..125 prediabetic, 126 and up
      high. It is an independent reference for the guard chain above. */
  predicate InBand(glucose: int, advice: Advice) {
    match advice
    case Hypoglycemia => glucose <= 69
    case Normal => 70 <= glucose <= 99
    case Prediabetic => 100 <= glucose <= 125
    case Hyperglycemia => 126 <= glucose
  }

  /** The string the classifier returns: the message of the selected band.
      Each of the four messages is returned for exactly the readings of its band. */
  function HealthAdviceMessage(glucose: real): (message: string)
    ensures message == Hypoglycemia.Text() <==> glucose < 70.0
    ensures message == Normal.Text() <==> 70.0 <= glucose <= 99.0
    ensures message == Prediabetic.Text() <==> 100.0 <= glucose <= 125.0
    ensures message == Hyperglycemia.Text() <==> (99.0 < glucose < 100.0 || 125.0 < glucose)
  {
    ProvideHealthAdvice(glucose).Text()
  }

  /** The advice for a reading as the entry form delivers it: a whole number
      of at least 0. On such readings the guard chain agrees with the band table. */
  function AdviceForReading(glucose: nat): (advice: Advice)
    ensures InBand(glucose, advice)
  {
    ProvideHealthAdvice(glucose as real)
  }

  /** No whole number lies in two bands, so the band table determines the advice. */
  lemma BandsDisjoint(glucose: int, a: Advice, b: Advice)
    requires InBand(glucose, a) && InBand(glucose, b)
    ensures a == b
  {
  }

  /** Every whole number, negative ones included, lies in some band, namely
      the one the guard chain selects for it: over the integers the four bands
      tile the line with no gap. */
  lemma BandsCoverIntegers(glucose: int)
    ensures InBand(glucose, ProvideHealthAdvice(glucose as real))
    ensures exists advice :: InBand(glucose, advice)
  {
    var advice := ProvideHealthAdvice(glucose as real);
    assert InBand(glucose, advice);
  }

  /** Over whole-number readings the advice never moves to a lower band as the
      reading increases. */
  lemma AdviceMonotone(lower: nat, higher: nat)
    requires lower <= higher
    ensures AdviceForReading(lower).Rank() <= AdviceForReading(higher).Rank()
  {
  }

  /** Raising a whole-number reading by one moves the advice up by at most one
      band: no band is ever skipped. */
  lemma AdviceContiguous(glucose: nat)
    ensures AdviceForReading(glucose).Rank() <= AdviceForReading(glucose + 1).Rank() <= AdviceForReading(glucose).Rank() + 1
  {
  }

  /** Over the reals the ordering fails: a reading strictly between 99 and 100
      is classified as hyperglycemia, above the prediabetic advice given to the
      larger reading 100. */
  lemma AdviceNotMonotoneOverReals()
    ensures exists lower: real, higher: real ::
              lower < higher && ProvideHealthAdvice(higher).Rank() < ProvideHealthAdvice(lower).Rank()
  {
    assert ProvideHealthAdvice(99.5) == Hyperglycemia;
    assert ProvideHealthAdvice(100.0) == Prediabetic;
  }

  /** The four advisory texts are pairwise different, so the text shown
      identifies the band. */
  lemma TextInjective(a: Advice, b: Advice)
    requires a.Text() == b.Text()
    ensures a == b
  {
  }

  // ---------------------------------------------------------------------------
  // HbA1c estimate
  // ---------------------------------------------------------------------------

  /** Estimated HbA1c (percent) from average glucose (mg/dL), in exact
      arithmetic. Its inverse is `28.7 * h - 46.7`; on the non-negative
      readings the form allows, the estimate is at least 46.7 / 28.7 and
      reaches it only at 0. */
  function CalculateHbA1c(avgGlucose: real): (hba1c: real)
    ensures 28.7 * hba1c - 46.7 == avgGlucose
    ensures avgGlucose >= 0.0 ==> hba1c >= 46.7 / 28.7
    ensures hba1c == 46.7 / 28.7 <==> avgGlucose == 0.0
  {
    (avgGlucose + 46.7) / 28.7
  }

  /** The average glucose that yields a given HbA1c estimate. */
  function AverageGlucoseFor(hba1c: real): (avgGlucose: real)
    ensures CalculateHbA1c(avgGlucose) == hba1c
  {
    28.7 * hba1c - 46.7
  }

  /** Converting an average to HbA1c and back gives the average again: the
      first postcondition of `CalculateHbA1c`, phrased with the inverse map. */
  lemma HbA1cRoundTrip(avgGlucose: real)
    ensures AverageGlucoseFor(CalculateHbA1c(avgGlucose)) == avgGlucose
  {
  }

  /** A higher average glucose always gives a strictly higher estimate. */
  lemma HbA1cStrictlyIncreasing(lower: real, higher: real)
    requires lower < higher
    ensures CalculateHbA1c(lower) < CalculateHbA1c(higher)
  {
  }

  /** An average of 120 mg/dL gives exactly 1667/287, about 5.8084, which
      shows as 5.81 when rounded to two decimals. */
  lemma HbA1cAt120()
    ensures CalculateHbA1c(120.0) == 1667.0 / 287.0
    ensures 5.808 < CalculateHbA1c(120.0) < 5.809
  {
  }
}

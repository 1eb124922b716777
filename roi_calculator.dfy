/**
 * The ROI estimate shown on the report: efficiency gains from review time
 * saved, compliance savings from violations avoided, and their sum.
 *
 * JavaScript numbers are IEEE-754 doubles; this model computes over exact
 * reals. The formulas agree with the doubles up to their rounding error
 * (for example `300 / 3600` is not exact in binary), so a product that lands
 * within one rounding error of a half cent may round the other way in the
 * running service.
 */
module RoiCalculator {
  import opened Js

  datatype CalculatorInputs = CalculatorInputs(
    annualLifelineEnrollments: real,
    averageReviewTimeSeconds: real,
    annualOrderVolume: real,
    averageNonComplianceCost: real)

  /**
   * The calculator inputs of a request body, which both endpoints require
   * alike: present exactly when all four fields are truthy (present and
   * non-zero), and then made of those four values unchanged.
   */
  function CalculatorDataFrom(enrollments: Option<real>, seconds: Option<real>, volume: Option<real>, cost: Option<real>)
    : (data: Option<CalculatorInputs>)
    ensures data.Some? <==> TruthyNumber(enrollments) && TruthyNumber(seconds) && TruthyNumber(volume) && TruthyNumber(cost)
    ensures data.Some? ==> data.value == CalculatorInputs(enrollments.value, seconds.value, volume.value, cost.value)
  {
    if TruthyNumber(enrollments) && TruthyNumber(seconds) && TruthyNumber(volume) && TruthyNumber(cost)
    then Some(CalculatorInputs(enrollments.value, seconds.value, volume.value, cost.value))
    else None
  }

  /** Three amounts in dollars; each of the first two is a whole number of cents. */
  datatype ROIResults = ROIResults(
    efficiencyGains: real,
    complianceAccuracy: real,
    annualValueSave: real)

  /** `Math.round`: the nearest integer, halves rounded toward +infinity. */
  function MathRound(x: real): (n: int)
    ensures n as real - 0.5 <= x < n as real + 0.5
  {
    (x + 0.5).Floor
  }

  /** Efficiency gains in whole cents: 0.9 h saved per hour of review, at $50/h, is 5/4 cent per order-second. */
  function EfficiencyCents(volume: real, seconds: real): int
  {
    MathRound(volume * seconds * 1.25)
  }

  /** Compliance savings in whole cents: 5% of orders, each at the cost of one violation, is 5 cents per order-dollar. */
  function ComplianceCents(volume: real, cost: real): int
  {
    MathRound(5.0 * volume * cost)
  }

  lemma HoursAsCents(volume: real, seconds: real, hoursSaved: real)
    requires hoursSaved == (volume * (seconds / 3600.0)) * 0.9
    ensures MathRound(hoursSaved * 50.0 * 100.0) == EfficiencyCents(volume, seconds)
  {
    var p := volume * seconds;
    assert volume * (seconds / 3600.0) == p / 3600.0;
    assert hoursSaved * 50.0 * 100.0 == p * 1.25;
  }

  lemma ViolationsAsCents(volume: real, cost: real, violationsPrevented: real)
    requires violationsPrevented == volume * 0.05
    ensures MathRound(violationsPrevented * cost * 100.0) == ComplianceCents(volume, cost)
  {
    var p := volume * cost;
    assert violationsPrevented * cost == p * 0.05;
    assert 5.0 * volume * cost == p * 5.0;
  }

  /** Hours saved (90% of the review time), valued at $50 an hour and rounded to cents. */
  function EfficiencyGains(volume: real, seconds: real): (g: real)
    ensures g == EfficiencyCents(volume, seconds) as real / 100.0
  {
    var hoursSaved := (volume * (seconds / 3600.0)) * 0.9;
    HoursAsCents(volume, seconds, hoursSaved);
    MathRound(hoursSaved * 50.0 * 100.0) as real / 100.0
  }

  /** Violations prevented (5% of orders), valued at the cost of one violation and rounded to cents. */
  function ComplianceAccuracy(volume: real, cost: real): (c: real)
    ensures c == ComplianceCents(volume, cost) as real / 100.0
  {
    var violationsPrevented := volume * 0.05;
    ViolationsAsCents(volume, cost, violationsPrevented);
    MathRound(violationsPrevented * cost * 100.0) as real / 100.0
  }

  /**
   * The calculation as written: the two rounded components and their plain
   * sum. The annual enrollment count takes no part.
   */
  function CalculateROI(inputs: CalculatorInputs): (r: ROIResults)
    ensures r.efficiencyGains == EfficiencyCents(inputs.annualOrderVolume, inputs.averageReviewTimeSeconds) as real / 100.0
    ensures r.complianceAccuracy == ComplianceCents(inputs.annualOrderVolume, inputs.averageNonComplianceCost) as real / 100.0
    ensures r.annualValueSave == r.efficiencyGains + r.complianceAccuracy
  {
    var efficiencyGains := EfficiencyGains(inputs.annualOrderVolume, inputs.averageReviewTimeSeconds);
    var complianceAccuracy := ComplianceAccuracy(inputs.annualOrderVolume, inputs.averageNonComplianceCost);
    ROIResults(efficiencyGains, complianceAccuracy, efficiencyGains + complianceAccuracy)
  }

  /** Rounding an integer leaves it unchanged. */
  lemma MathRoundOfInteger(n: int)
    ensures MathRound(n as real) == n
  {
  }

  /** Rounding is monotone. */
  lemma MathRoundMonotone(x: real, y: real)
    requires x <= y
    ensures MathRound(x) <= MathRound(y)
  {
  }

  /** With whole-number volume and cost, compliance savings are exactly 5 * volume * cost cents. */
  lemma ComplianceExactForIntegers(inputs: CalculatorInputs, volume: int, cost: int)
    requires inputs.annualOrderVolume == volume as real
    requires inputs.averageNonComplianceCost == cost as real
    ensures CalculateROI(inputs).complianceAccuracy * 100.0 == (5 * volume * cost) as real
  {
    assert 5.0 * inputs.annualOrderVolume * inputs.averageNonComplianceCost == (5 * volume * cost) as real;
    MathRoundOfInteger(5 * volume * cost);
  }

  /** Inputs that differ only in the enrollment count give identical results. */
  lemma EnrollmentsIgnored(a: CalculatorInputs, b: CalculatorInputs)
    requires a.averageReviewTimeSeconds == b.averageReviewTimeSeconds
    requires a.annualOrderVolume == b.annualOrderVolume
    requires a.averageNonComplianceCost == b.averageNonComplianceCost
    ensures CalculateROI(a) == CalculateROI(b)
  {
    assert EfficiencyCents(a.annualOrderVolume, a.averageReviewTimeSeconds) == EfficiencyCents(b.annualOrderVolume, b.averageReviewTimeSeconds);
    assert ComplianceCents(a.annualOrderVolume, a.averageNonComplianceCost) == ComplianceCents(b.annualOrderVolume, b.averageNonComplianceCost);
  }

  /** Non-negative inputs give non-negative amounts. */
  lemma NonNegative(inputs: CalculatorInputs)
    requires inputs.averageReviewTimeSeconds >= 0.0
    requires inputs.annualOrderVolume >= 0.0
    requires inputs.averageNonComplianceCost >= 0.0
    ensures CalculateROI(inputs).efficiencyGains >= 0.0
    ensures CalculateROI(inputs).complianceAccuracy >= 0.0
    ensures CalculateROI(inputs).annualValueSave >= 0.0
  {
    var v, s, c := inputs.annualOrderVolume, inputs.averageReviewTimeSeconds, inputs.averageNonComplianceCost;
    assert v * s >= 0.0;
    assert v * c >= 0.0;
    MathRoundMonotone(0.0, v * s * 1.25);
    MathRoundMonotone(0.0, 5.0 * v * c);
  }

  lemma ScaleMonotone(x: real, y: real, k: real)
    requires x <= y && k >= 0.0
    ensures x * k <= y * k
  {
  }

  /** Efficiency gains never decrease when the order volume or the review time grows. */
  lemma EfficiencyMonotone(a: CalculatorInputs, b: CalculatorInputs)
    requires 0.0 <= a.annualOrderVolume <= b.annualOrderVolume
    requires 0.0 <= a.averageReviewTimeSeconds <= b.averageReviewTimeSeconds
    ensures CalculateROI(a).efficiencyGains <= CalculateROI(b).efficiencyGains
  {
    var va, sa, vb, sb := a.annualOrderVolume, a.averageReviewTimeSeconds, b.annualOrderVolume, b.averageReviewTimeSeconds;
    ScaleMonotone(va, vb, sa);
    ScaleMonotone(sa, sb, vb);
    assert sa * vb == vb * sa;
    ScaleMonotone(va * sa, vb * sb, 1.25);
    MathRoundMonotone(va * sa * 1.25, vb * sb * 1.25);
    assert EfficiencyCents(va, sa) <= EfficiencyCents(vb, sb);
  }

  /** 10000 orders of 300 s at $500 per violation: $37,500 + $250,000 = $287,500. */
  lemma WorkedExample(enrollments: real)
    ensures CalculateROI(CalculatorInputs(enrollments, 300.0, 10000.0, 500.0))
         == ROIResults(37500.0, 250000.0, 287500.0)
  {
    MathRoundOfInteger(3750000);
    MathRoundOfInteger(25000000);
  }
}

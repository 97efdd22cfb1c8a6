/**
 * The clinical calculations of the charting app (core/calculations.js): day of life and
 * day post admission, gestational and corrected age, maturity category, weight change,
 * weight-based doses and the medication table, maintenance IV fluids, normal vital-sign
 * ranges and APGAR interpretation.
 *
 * Instants are integer milliseconds since the epoch, passed in by the caller (the code
 * reads the clock itself). Weights and doses are exact reals; `Number.prototype.toFixed`
 * is `ToFixed` below, which rounds the magnitude to the nearest multiple of 10^-places,
 * ties away from zero.
 */
module Calculations {
  import opened Options
  import opened Decimal

  // ----------------------------------------------------------------------------------
  // Elapsed days
  // ----------------------------------------------------------------------------------

  /** Milliseconds in one day (1000 * 60 * 60 * 24). */
  const MsPerDay: nat := 86_400_000

  /** |a - b|, as `Math.abs(today - date)`. */
  function Distance(a: int, b: int): nat {
    if a <= b then b - a else a - b
  }

  /** The number of whole days needed to cover `ms` milliseconds: ceil(ms / MsPerDay). */
  function CeilDays(ms: nat): (days: nat)
    ensures ms <= days * 86_400_000
    ensures days > 0 ==> (days - 1) * 86_400_000 < ms
  {
    (ms + MsPerDay - 1) / MsPerDay
  }

  /** Elapsed days between two instants, rounded up; the rule of calculateDOL and calculateDPA. */
  function DaysBetween(from: int, to: int): (days: nat)
    ensures Distance(from, to) <= days * 86_400_000
    ensures days > 0 ==> (days - 1) * 86_400_000 < Distance(from, to)
    ensures days == 0 <==> from == to
  {
    CeilDays(Distance(from, to))
  }

  /** Day of life: days from birth to now, rounded up. */
  function CalculateDOL(dateOfBirthMs: int, nowMs: int): (dol: nat)
    ensures dol == DaysBetween(dateOfBirthMs, nowMs)
  {
    DaysBetween(dateOfBirthMs, nowMs)
  }

  /** Day post admission: days from admission to now, rounded up. */
  function CalculateDPA(admissionMs: int, nowMs: int): (dpa: nat)
    ensures dpa == DaysBetween(admissionMs, nowMs)
  {
    DaysBetween(admissionMs, nowMs)
  }

  /** The day count does not depend on which instant comes first. */
  lemma DaysBetweenSymmetric(a: int, b: int)
    ensures DaysBetween(a, b) == DaysBetween(b, a)
  {
  }

  /** Any positive gap of at most one day, e.g. a few hours after birth, already counts as day 1. */
  lemma DaysBetweenWithinFirstDay(from: int, to: int)
    requires from < to <= from + MsPerDay
    ensures DaysBetween(from, to) == 1
  {
  }

  /** Moving `to` further from `from` never decreases the day count. */
  lemma DaysBetweenMonotone(from: int, to1: int, to2: int)
    requires from <= to1 <= to2
    ensures DaysBetween(from, to1) <= DaysBetween(from, to2)
  {
  }

  // ----------------------------------------------------------------------------------
  // Gestational and corrected age
  // ----------------------------------------------------------------------------------

  datatype GestationalAge = GestationalAge(weeks: int, days: int, totalDays: int)

  /** Gestational age given as weeks+days; `days` defaults to 0 as in the code. */
  function CalculateGA(weeks: int, days: int := 0): (ga: GestationalAge)
    ensures ga.weeks == weeks && ga.days == days
    ensures 0 <= days < 7 ==> ga.totalDays / 7 == weeks && ga.totalDays % 7 == days
    ensures ga.totalDays - days == 7 * weeks
  {
    GestationalAge(weeks, days, weeks * 7 + days)
  }

  /** Weeks and days are recovered from the total day count when days is a proper remainder. */
  lemma GestationalAgeRoundTrip(totalDays: int)
    ensures CalculateGA(totalDays / 7, totalDays % 7).totalDays == totalDays
  {
  }

  /** Term equivalent, in weeks, used by the corrected-age calculation. */
  const TermEquivalentWeeks: int := 40

  datatype CorrectedAge = CorrectedAge(chronological: nat, corrected: nat, correction: int)

  /** Age corrected for prematurity: day of life minus the weeks missing to term, floored at 0. */
  function CalculateCorrectedAge(dateOfBirthMs: int, gaWeeks: int, nowMs: int): (age: CorrectedAge)
    ensures age.chronological == CalculateDOL(dateOfBirthMs, nowMs)
    ensures age.correction == (40 - gaWeeks) * 7
    ensures age.corrected >= age.chronological - age.correction
    ensures age.corrected == 0 || age.corrected == age.chronological - age.correction
    ensures age.corrected <= age.chronological <==> gaWeeks <= 40
    ensures gaWeeks == 40 ==> age.corrected == age.chronological
  {
    var chronological := CalculateDOL(dateOfBirthMs, nowMs);
    var correction := (TermEquivalentWeeks - gaWeeks) * 7;
    var correctedAge := chronological - correction;
    CorrectedAge(chronological, if correctedAge < 0 then 0 else correctedAge, correction)
  }

  // ----------------------------------------------------------------------------------
  // Maturity category
  // ----------------------------------------------------------------------------------

  datatype Maturity = ExtremelyPreterm | VeryPreterm | LatePreterm | Term | PostTerm {

    function Key(): string {
      match this
      case ExtremelyPreterm => "extremely_preterm"
      case VeryPreterm => "very_preterm"
      case LatePreterm => "late_preterm"
      case Term => "term"
      case PostTerm => "post_term"
    }

    function Label(): string {
      match this
      case ExtremelyPreterm => "Extremely Preterm"
      case VeryPreterm => "Very Preterm"
      case LatePreterm => "Moderate/Late Preterm"
      case Term => "Term"
      case PostTerm => "Post-term"
    }

    /** Position in order of increasing maturity. */
    function Rank(): nat {
      match this
      case ExtremelyPreterm => 0
      case VeryPreterm => 1
      case LatePreterm => 2
      case Term => 3
      case PostTerm => 4
    }

    predicate IsPreterm() {
      Rank() < 3
    }
  }

  /** Maturity category from completed gestational weeks. */
  function GetMaturityCategory(weeks: int): (m: Maturity)
    ensures m == ExtremelyPreterm <==> weeks < 28
    ensures m == VeryPreterm <==> 28 <= weeks < 32
    ensures m == LatePreterm <==> 32 <= weeks < 37
    ensures m == Term <==> 37 <= weeks <= 42
    ensures m == PostTerm <==> 42 < weeks
    ensures m.IsPreterm() <==> weeks < 37
  {
    if weeks < 28 then ExtremelyPreterm
    else if weeks < 32 then VeryPreterm
    else if weeks < 37 then LatePreterm
    else if weeks <= 42 then Term
    else PostTerm
  }

  /** More weeks of gestation never give a less mature category. */
  lemma MaturityMonotone(w1: int, w2: int)
    requires w1 <= w2
    ensures GetMaturityCategory(w1).Rank() <= GetMaturityCategory(w2).Rank()
  {
  }

  /** Distinct categories have distinct keys. */
  lemma MaturityKeysDistinct(m1: Maturity, m2: Maturity)
    requires m1 != m2
    ensures m1.Key() != m2.Key()
  {
  }

  // ----------------------------------------------------------------------------------
  // Weights
  // ----------------------------------------------------------------------------------

  function KgToGrams(kg: real): (grams: real)
    ensures grams / 1000.0 == kg
    ensures 0.0 <= kg <==> 0.0 <= grams
  {
    kg * 1000.0
  }

  function GramsToKg(grams: real): (kg: real)
    ensures kg * 1000.0 == grams
    ensures 0.0 <= grams <==> 0.0 <= kg
  {
    grams / 1000.0
  }

  /** The two conversions are inverse to each other. */
  lemma WeightConversionRoundTrip(kg: real, grams: real)
    ensures GramsToKg(KgToGrams(kg)) == kg
    ensures KgToGrams(GramsToKg(grams)) == grams
  {
  }

  datatype WeightStatus = Gain | Loss

  /**
   * Weight change since birth. `absolute` is rounded to 2 decimals and `percent` to 1; the
   * percentage is absent when the birth weight is 0, where JavaScript yields a non-finite number.
   */
  datatype WeightChange = WeightChange(absolute: real, percent: Option<real>, status: WeightStatus)

  function CalculateWeightChange(currentWeight: real, birthWeight: real): (c: WeightChange)
    ensures c.status == Gain <==> currentWeight >= birthWeight
    ensures WithinHalfUnit(c.absolute, currentWeight - birthWeight, 2)
    ensures c.status == Gain ==> c.absolute >= 0.0
    ensures c.status == Loss ==> c.absolute <= 0.0
    ensures HasDecimals(c.absolute, 2)
    ensures c.percent.Some? <==> birthWeight != 0.0
    ensures c.percent.Some? ==>
      WithinHalfUnit(c.percent.value, (currentWeight - birthWeight) / birthWeight * 100.0, 1)
    ensures c.percent.Some? ==> HasDecimals(c.percent.value, 1)
    ensures c.absolute == ToFixed(currentWeight - birthWeight, 2)
    ensures c.percent.Some? ==> c.percent.value == ToFixed((currentWeight - birthWeight) / birthWeight * 100.0, 1)
  {
    var change := currentWeight - birthWeight;
    WeightChange(
      ToFixed(change, 2),
      if birthWeight == 0.0 then None else Some(ToFixed(change / birthWeight * 100.0, 1)),
      if change >= 0.0 then Gain else Loss)
  }

  /** Worked example: 2.5 kg at birth, 2.6 kg now is +0.10 kg, 4.0 %, a gain. */
  lemma WeightChangeExample()
    ensures CalculateWeightChange(2.6, 2.5) == WeightChange(0.1, Some(4.0), Gain)
  {
  }

  // ----------------------------------------------------------------------------------
  // Weight-based doses
  // ----------------------------------------------------------------------------------

  datatype Dose = Dose(singleDose: real, dailyDose: real, unit: string)

  /**
   * Dose for a weight: the single dose is rounded to 2 decimals first, and the daily dose is
   * that rounded single dose times the frequency, rounded to 2 decimals again.
   */
  function CalculateDose(weightKg: real, dosePerKg: real, frequency: real := 1.0): (d: Dose)
    ensures WithinHalfUnit(d.singleDose, weightKg * dosePerKg, 2)
    ensures HasDecimals(d.singleDose, 2) && HasDecimals(d.dailyDose, 2)
    ensures IsWhole(frequency) ==> d.dailyDose == d.singleDose * frequency
    ensures 0.0 <= weightKg * dosePerKg && 0.0 <= frequency ==> 0.0 <= d.singleDose && 0.0 <= d.dailyDose
    ensures d.unit == "mg"
    ensures d.singleDose == ToFixed(weightKg * dosePerKg, 2)
    ensures d.dailyDose == ToFixed(ToFixed(weightKg * dosePerKg, 2) * frequency, 2)
  {
    var singleDose := ToFixed(weightKg * dosePerKg, 2);
    WholeMultipleNeedsNoRounding(singleDose, frequency, 2);
    var product := singleDose * frequency;
    assert product == ToFixed(weightKg * dosePerKg, 2) * frequency;
    Dose(singleDose, ToFixed(product, 2), "mg")
  }

  /** With the default frequency the daily dose is the single dose. */
  lemma DefaultFrequencyDailyIsSingle(weightKg: real, dosePerKg: real)
    ensures CalculateDose(weightKg, dosePerKg).dailyDose == CalculateDose(weightKg, dosePerKg).singleDose
  {
  }

  datatype Medication =
    | Ampicillin
    | Gentamicin
    | Ceftriaxone
    | Cipro
    | PhenobarbitalLoading
    | PhenobarbitalMaintenance
    | UrsodeoxycholicAcid

  /** mg/kg per dose; ampicillin and gentamicin step up after the first week of life. */
  function DosePerKg(m: Medication, ageInDays: int): (dose: real)
    ensures 0.0 < dose <= 100.0 && IsWhole(dose)
    ensures ageInDays <= 7 ==> dose <= 50.0
  {
    match m
    case Ampicillin => if ageInDays <= 7 then 50.0 else 100.0
    case Gentamicin => if ageInDays <= 7 then 4.0 else 5.0
    case Ceftriaxone => 50.0
    case Cipro => 10.0
    case PhenobarbitalLoading => 20.0
    case PhenobarbitalMaintenance => 5.0
    case UrsodeoxycholicAcid => 10.0
  }

  /** Doses per day: twice daily (BID) or once daily. */
  function DosesPerDay(m: Medication): (n: nat)
    ensures n == 1 || n == 2
    ensures n == 2 <==> m in {Ampicillin, Cipro, UrsodeoxycholicAcid}
  {
    match m
    case Ampicillin | Cipro | UrsodeoxycholicAcid => 2
    case Gentamicin | Ceftriaxone | PhenobarbitalLoading | PhenobarbitalMaintenance => 1
  }

  const CeftriaxoneWarning: string := "CONTRAINDICATED with jaundice/hyperbilirubinemia"

  datatype Prescription = Prescription(dose: Dose, warning: Option<string>)

  /** The entry of the medication table for `m`. */
  function Prescribe(m: Medication, weightKg: real, ageInDays: int): (p: Prescription)
    ensures p.dose == CalculateDose(weightKg, DosePerKg(m, ageInDays), DosesPerDay(m) as real)
    ensures p.dose.unit == "mg"
    ensures WithinHalfUnit(p.dose.singleDose, weightKg * DosePerKg(m, ageInDays), 2)
    ensures p.dose.dailyDose == p.dose.singleDose * DosesPerDay(m) as real
    ensures 0.0 <= weightKg ==> 0.0 <= p.dose.singleDose <= p.dose.dailyDose
    ensures p.warning.Some? <==> m == Ceftriaxone
    ensures p.warning.Some? ==> p.warning.value == CeftriaxoneWarning
  {
    assert IsWhole(DosesPerDay(m) as real);
    var dose := CalculateDose(weightKg, DosePerKg(m, ageInDays), DosesPerDay(m) as real);
    Prescription(dose, if m == Ceftriaxone then Some(CeftriaxoneWarning) else None)
  }

  /**
   * Only ampicillin and gentamicin depend on age, and their dose per kg never decreases with
   * age; ampicillin doubles after day 7.
   */
  lemma DosePerKgByAge(m: Medication, a1: int, a2: int)
    requires a1 <= a2
    ensures DosePerKg(m, a1) <= DosePerKg(m, a2)
    ensures m != Ampicillin && m != Gentamicin ==> DosePerKg(m, a1) == DosePerKg(m, a2)
    ensures m == Ampicillin && a1 <= 7 < a2 ==> DosePerKg(m, a2) == 2.0 * DosePerKg(m, a1)
  {
  }

  // ----------------------------------------------------------------------------------
  // Maintenance IV fluids
  // ----------------------------------------------------------------------------------

  /** mL/kg/day by age in days: 60, 80, 100 on days 1-3, 120 up to day 7, 150 to day 30, then 100. */
  function MaintenanceRate(ageInDays: int): (rate: nat)
    ensures rate in {60, 80, 100, 120, 150}
    ensures ageInDays <= 7 && ageInDays !in {1, 2, 3} ==> rate == 120
    ensures 7 < ageInDays <= 30 <==> rate == 150
    ensures rate == 60 <==> ageInDays == 1
    ensures rate == 80 <==> ageInDays == 2
    ensures rate == 100 <==> ageInDays == 3 || 30 < ageInDays
  {
    if ageInDays == 1 then 60
    else if ageInDays == 2 then 80
    else if ageInDays == 3 then 100
    else if ageInDays <= 7 then 120
    else if ageInDays <= 30 then 150
    else 100
  }

  /** The rate rises over the first month of life and falls back to 100 afterwards. */
  lemma MaintenanceRateSchedule(a1: int, a2: int)
    requires 1 <= a1 <= a2
    ensures a2 <= 30 ==> MaintenanceRate(a1) <= MaintenanceRate(a2)
    ensures 30 < a1 ==> MaintenanceRate(a1) == 100
  {
  }

  datatype FluidPlan = FluidPlan(dailyTotal: real, hourlyRate: real, mlPerKgPerDay: nat)

  /** Daily volume rounded to whole mL and hourly rate rounded to 0.1 mL, from the unrounded total. */
  function CalculateIVFluids(weightKg: real, ageInDays: int): (f: FluidPlan)
    ensures f.mlPerKgPerDay == MaintenanceRate(ageInDays)
    ensures WithinHalfUnit(f.dailyTotal, weightKg * f.mlPerKgPerDay as real, 0) && IsWhole(f.dailyTotal)
    ensures WithinHalfUnit(f.hourlyRate, weightKg * f.mlPerKgPerDay as real / 24.0, 1)
    ensures HasDecimals(f.hourlyRate, 1)
    ensures f.dailyTotal == ToFixed(weightKg * f.mlPerKgPerDay as real, 0)
    ensures f.hourlyRate == ToFixed(weightKg * f.mlPerKgPerDay as real / 24.0, 1)
  {
    var mlPerKgPerDay := MaintenanceRate(ageInDays);
    var totalDaily := weightKg * mlPerKgPerDay as real;
    FluidPlan(ToFixed(totalDaily, 0), ToFixed(totalDaily / 24.0, 1), mlPerKgPerDay)
  }

  /** Worked example: 2.0 kg on day 1 gets 120 mL a day, 5.0 mL an hour. */
  lemma IVFluidsExample()
    ensures CalculateIVFluids(2.0, 1) == FluidPlan(120.0, 5.0, 60)
  {
    ToFixedExact(120.0, 0);
    ToFixedExact(5.0, 1);
  }

  // ----------------------------------------------------------------------------------
  // Vital signs and APGAR
  // ----------------------------------------------------------------------------------

  datatype Range = Range(min: real, max: real) {
    predicate WellFormed() {
      min <= max
    }
  }

  datatype NormalVitals = NormalVitals(hr: Range, rr: Range, temp: Range, spo2: Range)

  /** Normal ranges: heart rate by age, respiratory rate, temperature (Celsius) and SpO2 (%). */
  function GetNormalVitals(ageInDays: int): (v: NormalVitals)
    ensures v.hr == Range(120.0, 160.0) <==> ageInDays <= 7
    ensures ageInDays > 7 ==> v.hr == Range(100.0, 150.0)
    ensures v.hr.WellFormed() && v.rr.WellFormed() && v.temp.WellFormed() && v.spo2.WellFormed()
    ensures v.rr == Range(30.0, 60.0) && v.temp == Range(36.5, 37.5) && v.spo2 == Range(90.0, 100.0)
  {
    var hr := if ageInDays <= 7 then Range(120.0, 160.0) else Range(100.0, 150.0);
    NormalVitals(hr, Range(30.0, 60.0), Range(36.5, 37.5), Range(90.0, 100.0))
  }

  datatype VitalStatus = Low | Normal | High

  /** Below the minimum is low, otherwise above the maximum is high, otherwise normal. */
  function CheckVitalStatus(value: real, range: Range): (s: VitalStatus)
    ensures s == Low <==> value < range.min
    ensures s == High <==> range.min <= value && range.max < value
    ensures range.WellFormed() ==> (s == Normal <==> range.min <= value <= range.max)
  {
    if value < range.min then Low
    else if value > range.max then High
    else Normal
  }

  /** A higher reading never moves the status down (low before normal before high). */
  lemma VitalStatusMonotone(v1: real, v2: real, range: Range)
    requires v1 <= v2
    ensures CheckVitalStatus(v2, range) == Low ==> CheckVitalStatus(v1, range) == Low
    ensures CheckVitalStatus(v1, range) == High ==> CheckVitalStatus(v2, range) == High
  {
  }

  datatype ApgarStatus = NormalApgar | ModerateDistress | SevereDistress {

    function Key(): string {
      match this
      case NormalApgar => "normal"
      case ModerateDistress => "moderate_distress"
      case SevereDistress => "severe_distress"
    }

    function Color(): string {
      match this
      case NormalApgar => "success"
      case ModerateDistress => "warning"
      case SevereDistress => "danger"
    }

    function Severity(): nat {
      match this
      case NormalApgar => 0
      case ModerateDistress => 1
      case SevereDistress => 2
    }
  }

  function InterpretApgar(score: int): (s: ApgarStatus)
    ensures s == NormalApgar <==> 7 <= score
    ensures s == ModerateDistress <==> 4 <= score < 7
    ensures s == SevereDistress <==> score < 4
  {
    if score >= 7 then NormalApgar
    else if score >= 4 then ModerateDistress
    else SevereDistress
  }

  /** A lower score is never read as less severe. */
  lemma ApgarMonotone(s1: int, s2: int)
    requires s1 <= s2
    ensures InterpretApgar(s2).Severity() <= InterpretApgar(s1).Severity()
  {
  }
}

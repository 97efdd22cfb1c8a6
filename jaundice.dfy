/**
 * Jaundice decision rules after Kramer's visual grading, as set out in the Tanzania National
 * Guideline for Neonatal Care 2019: the high-risk assessment, the grade 0-5 recommendation
 * table and the record saved with a daily round. The HTML around the table is not modelled;
 * the texts of the table are kept as the program holds them.
 *
 * The module reads the gestational age of the patient it is showing; here that age is passed
 * explicitly. A gestational age is `None` when it was never entered, and JavaScript's truthiness
 * test on it (`gaWeeks && ...`) is `GaPresent`.
 */
module Jaundice {
  import opened Options
  import Calculations

  // ----------------------------------------------------------------------------------
  // High-risk assessment
  // ----------------------------------------------------------------------------------

  const PretermReason: string := "Preterm baby (GA <37 weeks)"
  const EarlyOnsetReason: string := "Jaundice onset before 24 hours of life"

  /** `gaWeeks` is truthy: entered and not zero. */
  function GaPresent(gaWeeks: Option<int>): (present: bool)
    ensures gaWeeks == None ==> !present
    ensures gaWeeks == Some(0) ==> !present
    ensures gaWeeks.Some? && gaWeeks.value != 0 ==> present
  {
    gaWeeks.Some? && gaWeeks.value != 0
  }

  /** `gaWeeks && gaWeeks < 37`: a missing gestational age never makes a baby preterm. */
  function IsPreterm(gaWeeks: Option<int>): (preterm: bool)
    ensures preterm ==> gaWeeks.Some? && Calculations.GetMaturityCategory(gaWeeks.value).IsPreterm()
    ensures gaWeeks.Some? && gaWeeks.value != 0 && Calculations.GetMaturityCategory(gaWeeks.value).IsPreterm()
      ==> preterm
    ensures gaWeeks == None || gaWeeks == Some(0) ==> !preterm
  {
    GaPresent(gaWeeks) && gaWeeks.value < 37
  }

  /** The reasons the assessment lists, in the order it checks them. */
  function RiskReasons(gaWeeks: Option<int>, dol: int): (reasons: seq<string>)
    ensures PretermReason in reasons <==> IsPreterm(gaWeeks)
    ensures EarlyOnsetReason in reasons <==> dol < 1
    ensures forall i :: 0 <= i < |reasons| ==> reasons[i] == PretermReason || reasons[i] == EarlyOnsetReason
    ensures |reasons| == 2 <==> IsPreterm(gaWeeks) && dol < 1
    ensures IsPreterm(gaWeeks) ==> reasons[0] == PretermReason
    ensures forall i, j :: 0 <= i < j < |reasons| ==> reasons[i] != reasons[j]
  {
    (if IsPreterm(gaWeeks) then [PretermReason] else [])
      + (if dol < 1 then [EarlyOnsetReason] else [])
  }

  datatype RiskAssessment = RiskAssessment(isRisk: bool, reasons: seq<string>)

  /** Collects the reasons one check at a time and raises the flag with each one found. */
  method AssessHighRisk(gaWeeks: Option<int>, dol: int) returns (a: RiskAssessment)
    ensures a.reasons == RiskReasons(gaWeeks, dol)
    ensures a.isRisk <==> |a.reasons| > 0
  {
    var reasons: seq<string> := [];
    var isRisk := false;
    if IsPreterm(gaWeeks) {
      reasons := reasons + [PretermReason];
      isRisk := true;
    }
    if dol < 1 {
      reasons := reasons + [EarlyOnsetReason];
      isRisk := true;
    }
    return RiskAssessment(isRisk, reasons);
  }

  /** So the assessment is high risk exactly when the baby is preterm or jaundiced on day 0. */
  lemma HighRiskIff(gaWeeks: Option<int>, dol: int)
    ensures |RiskReasons(gaWeeks, dol)| > 0 <==> IsPreterm(gaWeeks) || dol < 1
  {
  }

  /**
   * The day of life is a ceiling of elapsed days, so it is 1 throughout the first 24 hours and 0
   * only at the instant of birth itself: as written, the early-onset reason is given only when
   * the assessment happens at that exact millisecond.
   */
  lemma EarlyOnsetOnlyAtBirthInstant(gaWeeks: Option<int>, dateOfBirthMs: int, nowMs: int)
    ensures EarlyOnsetReason in RiskReasons(gaWeeks, Calculations.CalculateDOL(dateOfBirthMs, nowMs))
        <==> nowMs == dateOfBirthMs
  {
  }

  /** For example, jaundice seen three hours after birth is not flagged as early onset. */
  lemma ThreeHoursOldNotEarlyOnset()
    ensures Calculations.CalculateDOL(0, 3 * 3_600_000) == 1
    ensures RiskReasons(None, Calculations.CalculateDOL(0, 3 * 3_600_000)) == []
  {
  }

  /** The reasons with the early-onset test on the first day of life (day of life at most 1). */
  function IntendedRiskReasons(gaWeeks: Option<int>, dol: int): (reasons: seq<string>)
    ensures PretermReason in reasons <==> IsPreterm(gaWeeks)
    ensures EarlyOnsetReason in reasons <==> dol <= 1
    ensures IsPreterm(gaWeeks) ==> reasons[0] == PretermReason
  {
    (if IsPreterm(gaWeeks) then [PretermReason] else [])
      + (if dol <= 1 then [EarlyOnsetReason] else [])
  }

  /** With that test the early-onset reason is given exactly within 24 hours of birth. */
  lemma IntendedEarlyOnsetWithinFirstDay(gaWeeks: Option<int>, dateOfBirthMs: int, nowMs: int)
    ensures EarlyOnsetReason in IntendedRiskReasons(gaWeeks, Calculations.CalculateDOL(dateOfBirthMs, nowMs))
        <==> Calculations.Distance(dateOfBirthMs, nowMs) <= Calculations.MsPerDay
  {
  }

  /** For an entered gestational age the preterm test agrees with the maturity categories. */
  lemma PretermAgreesWithMaturity(gaWeeks: Option<int>)
    requires GaPresent(gaWeeks)
    ensures IsPreterm(gaWeeks) <==> Calculations.GetMaturityCategory(gaWeeks.value).IsPreterm()
  {
  }

  // ----------------------------------------------------------------------------------
  // Kramer recommendation table
  // ----------------------------------------------------------------------------------

  datatype Recommendation = Recommendation(title: string, bili: string, action: string, source: string)

  const Grade1PretermAction: string := "Preterm baby - Already in HIGH RISK pathway above"
  const Grade1TermAction: string :=
    "Check for red flags (anaemia, lethargy). Advise frequent breastfeeding. Follow-up in daily rounds."

  const Grade2PretermAction: string := "Preterm baby - Already in HIGH RISK pathway"
  const Grade2PhototherapyAction: string :=
    "<strong>START PHOTOTHERAPY</strong><br>Reason: Age <3 days<br><br>Also do basic investigations (FBC, blood groups, bilirubin)"
  const Grade2MonitorAction: string :=
    "Monitor closely. Check for anaemia. If anaemia present → start phototherapy.<br><br>Advise frequent breastfeeding. Reassess daily."

  /** Grade 2: prematurity takes precedence over age; under three days of life means phototherapy. */
  function Grade2Action(dol: int, isPreterm: bool): (action: string)
    ensures action == Grade2PretermAction <==> isPreterm
    ensures action == Grade2PhototherapyAction <==> !isPreterm && dol < 3
    ensures action == Grade2MonitorAction <==> !isPreterm && 3 <= dol
  {
    if isPreterm then Grade2PretermAction
    else if dol < 3 then Grade2PhototherapyAction
    else Grade2MonitorAction
  }

  const Grade0: Recommendation := Recommendation(
    "No Visible Jaundice",
    "Bilirubin likely <4 mg/dL",
    "Continue normal care. Monitor for development of jaundice.",
    "Clinical assessment")

  const Grade1Title: string := "Grade 1: Head and Neck Only"
  const Grade1Bili: string := "Estimated: 4-8 mg/dL (68-133 μmol/L)"
  const Grade1Source: string := "Tanzania National Guideline 2019, Kramer's Rule"

  const Grade2Title: string := "Grade 2: To Umbilicus"
  const Grade2Bili: string := "Estimated: 5-12 mg/dL (85-204 μmol/L)"
  const Grade2Source: string := "Tanzania National Guideline 2019 - \"Treat if: Age <3 days OR Anaemia\""

  const Grade3: Recommendation := Recommendation(
    "Grade 3: Below Umbilicus to Knees",
    "Estimated: 8-16 mg/dL (136-272 μmol/L)",
    "<strong>Action Required:</strong><br>1. Get Total AND Direct bilirubin levels<br>2. Basic investigations (FBC, blood groups)<br>3. Phototherapy likely needed (after confirming unconjugated)",
    "Tanzania National Guideline 2019 - \"Always treat Grade 3+\"")

  const Grade4: Recommendation := Recommendation(
    "Grade 4: Arms and Lower Legs",
    "Estimated: 11-18 mg/dL (187-306 μmol/L)",
    "<strong>URGENT Action:</strong><br>1. URGENT Total AND Direct bilirubin<br>2. Full investigations<br>3. Intensive phototherapy likely needed<br>4. Monitor for exchange transfusion threshold",
    "Tanzania National Guideline 2019")

  const Grade5: Recommendation := Recommendation(
    "Grade 5: Palms and Soles",
    "Estimated: >18 mg/dL (>306 μmol/L)",
    "<strong>CRITICAL - IMMEDIATE ACTION:</strong><br>1. STAT Total AND Direct bilirubin<br>2. Prepare for intensive phototherapy<br>3. Consider exchange transfusion<br>4. May need transfer to higher facility",
    "Tanzania National Guideline 2019 - Danger signs")

  /**
   * The table entry for `grade`; `None` for a grade outside 0-5, where the JavaScript table has
   * no entry and reading its title fails.
   */
  function KramerRecommendation(grade: int, dol: int, isPreterm: bool): (r: Option<Recommendation>)
    ensures r.Some? <==> 0 <= grade <= 5
    ensures grade == 1 ==> r.value.action == (if isPreterm then Grade1PretermAction else Grade1TermAction)
    ensures grade == 2 ==> r.value.action == Grade2Action(dol, isPreterm)
  {
    if grade == 0 then Some(Grade0)
    else if grade == 1 then
      Some(Recommendation(Grade1Title, Grade1Bili, if isPreterm then Grade1PretermAction else Grade1TermAction, Grade1Source))
    else if grade == 2 then
      Some(Recommendation(Grade2Title, Grade2Bili, Grade2Action(dol, isPreterm), Grade2Source))
    else if grade == 3 then Some(Grade3)
    else if grade == 4 then Some(Grade4)
    else if grade == 5 then Some(Grade5)
    else None
  }

  /** Grades 0, 3, 4 and 5 do not depend on the day of life or on prematurity. */
  lemma FixedGradesIgnoreAgeAndMaturity(grade: int, dol1: int, dol2: int, preterm1: bool, preterm2: bool)
    requires grade in {0, 3, 4, 5}
    ensures KramerRecommendation(grade, dol1, preterm1) == KramerRecommendation(grade, dol2, preterm2)
  {
  }

  /** Grade 1 depends on prematurity only. */
  lemma Grade1IgnoresAge(dol1: int, dol2: int, isPreterm: bool)
    ensures KramerRecommendation(1, dol1, isPreterm) == KramerRecommendation(1, dol2, isPreterm)
  {
  }

  /** Only grade 2 changes with the day of life, and only for a baby born at term. */
  lemma OnlyGrade2DependsOnAge(grade: int, dol1: int, dol2: int, isPreterm: bool)
    requires KramerRecommendation(grade, dol1, isPreterm) != KramerRecommendation(grade, dol2, isPreterm)
    ensures grade == 2 && !isPreterm
    ensures (dol1 < 3) != (dol2 < 3)
  {
  }

  /**
   * For a preterm baby, the grade 1 and 2 actions defer to the high-risk pathway, and the
   * assessment shown with them does list prematurity among its reasons.
   */
  lemma PretermDefersToHighRisk(gaWeeks: Option<int>, dol: int)
    requires IsPreterm(gaWeeks)
    ensures PretermReason in RiskReasons(gaWeeks, dol)
    ensures KramerRecommendation(1, dol, IsPreterm(gaWeeks)).value.action == Grade1PretermAction
    ensures KramerRecommendation(2, dol, IsPreterm(gaWeeks)).value.action == Grade2PretermAction
  {
  }

  datatype Border = Danger | Warning

  /** The colour of the recommendation's left border. */
  function BorderFor(grade: int): (b: Border)
    ensures b == Danger <==> grade >= 3
  {
    if grade >= 3 then Danger else Warning
  }

  datatype KramerAdvice = KramerAdvice(recommendation: Recommendation, border: Border)

  /**
   * What is shown for a selected grade, with prematurity computed from the gestational age in
   * the same truthy-and-below-37 way as the risk assessment.
   */
  function GetKramerRecommendation(grade: int, dol: int, gaWeeks: Option<int>): (advice: Option<KramerAdvice>)
    ensures advice.Some? <==> 0 <= grade <= 5
    ensures advice.Some? ==> advice.value.recommendation == KramerRecommendation(grade, dol, IsPreterm(gaWeeks)).value
    ensures advice.Some? ==> (advice.value.border == Danger <==> 3 <= grade)
  {
    match KramerRecommendation(grade, dol, IsPreterm(gaWeeks))
    case None => None
    case Some(rec) => Some(KramerAdvice(rec, BorderFor(grade)))
  }

  // ----------------------------------------------------------------------------------
  // Record saved with a round
  // ----------------------------------------------------------------------------------

  datatype JaundiceRecord = JaundiceRecord(
    kramerScore: int,
    isHighRisk: bool,
    riskReasons: seq<string>,
    assessmentDate: int)

  /**
   * The record saved with a daily round, or `None` when no grade is selected. Grade 0 is
   * selected as the string "0", which is truthy, so it does produce a record.
   */
  method GetData(selectedGrade: Option<int>, gaWeeks: Option<int>, dateOfBirthMs: int, nowMs: int)
    returns (record: Option<JaundiceRecord>)
    ensures record.None? <==> selectedGrade.None?
    ensures record.Some? ==> record.value.kramerScore == selectedGrade.value
    ensures record.Some? ==>
      record.value.riskReasons == RiskReasons(gaWeeks, Calculations.CalculateDOL(dateOfBirthMs, nowMs))
    ensures record.Some? ==> (record.value.isHighRisk <==> IsPreterm(gaWeeks) || Calculations.CalculateDOL(dateOfBirthMs, nowMs) == 0)
    ensures record.Some? ==> record.value.assessmentDate == nowMs
  {
    if selectedGrade.None? {
      return None;
    }
    var dol := Calculations.CalculateDOL(dateOfBirthMs, nowMs);
    var assessment := AssessHighRisk(gaWeeks, dol);
    HighRiskIff(gaWeeks, dol);
    return Some(JaundiceRecord(selectedGrade.value, assessment.isRisk, assessment.reasons, nowMs));
  }
}

# NICU rounds: a Dafny model of the charting app's core

This project models the logic of a browser app for neonatal intensive care rounds:

- **Clinical calculations.** Day of life and day post admission, gestational and corrected age, maturity category, weight change, weight-based doses and the medication table, maintenance IV fluids, normal vital-sign ranges and APGAR interpretation.
  - `Calculations` (calculations.dfy) holds these.
  - `Decimal` (decimal.dfy) holds `toFixed` rounding on exact reals.
- **Jaundice decision rules** (`Jaundice`, jaundice.dfy). These follow Kramer's visual grading as given in the Tanzania National Guideline for Neonatal Care 2019:
  - the high-risk assessment with its ordered list of reasons;
  - the grade 0–5 recommendation table;
  - the record saved with a round.
- **Patient record store** (`Storage`, storage.dfy). This is a class over the three browser-storage entries (patients, settings, language) and covers:
  - upsert by id, delete, active/archived filtering and archiving;
  - appending rounds and reading the latest round;
  - settings with defaults;
  - export/import and clearing.
- **Language state** (`Language`, language.dfy). The current language, the lookup with fallback to the key, `setLanguage` and `toggle`.

`Options` (options.dfy) gives the `Option` type. It stands for the program's `null`/`undefined`.

Modelling conventions:
- Instants are integer milliseconds passed in by the caller.
- Weights, doses and volumes are reals.
- `toFixed(n)` is `Decimal.ToFixed(x, n)`, read back as the number it denotes. It rounds the magnitude to the nearest multiple of 10^-n, with ties away from zero; the contract of `Decimal.ToFixed` states that direction: a non-negative value never ends half a unit above its rounding, a non-positive one never half a unit below it.
- Stored values are structured values, not JSON text.
- A new patient's identifier is a parameter.

## Model

| member | source | states |
|---|---|---|
| Decimal.ToFixed | core/calculations.js:65-66 | the rounded value is within half a unit of the last kept decimal, has at most `places` decimals and keeps the sign; a tie goes away from zero |
| Decimal.ToFixedExact | core/calculations.js:65-66 | a value already written with `places` decimals is returned unchanged |
| Decimal.ToFixedIdempotent | core/calculations.js:65-66 | rounding an already rounded value changes nothing |
| Decimal.WholeMultipleNeedsNoRounding | core/calculations.js:66 | a value with `places` decimals times a whole number needs no second rounding |
| Calculations.CeilDays | core/calculations.js:11 | the result is the least whole number of days covering the elapsed milliseconds |
| Calculations.DaysBetween | core/calculations.js:10-11 | the ceiling of the absolute gap in days, and it is 0 exactly when the two instants coincide |
| Calculations.CalculateDOL | core/calculations.js:7-13 | day of life is the rounded-up day count from birth to now |
| Calculations.CalculateDPA | core/calculations.js:16-22 | day post admission is the rounded-up day count from admission to now |
| Calculations.DaysBetweenSymmetric | core/calculations.js:10 | the day count does not depend on which instant is earlier |
| Calculations.DaysBetweenWithinFirstDay | core/calculations.js:11 | any positive gap up to 24 hours counts as day 1 |
| Calculations.DaysBetweenMonotone | core/calculations.js:10-11 | a later instant never gives a smaller day count |
| Calculations.CalculateGA | core/calculations.js:25-32 | weeks and days are kept; totalDays − days = 7·weeks; for 0 ≤ days < 7, totalDays div/mod 7 gives weeks and days back |
| Calculations.GestationalAgeRoundTrip | core/calculations.js:29 | splitting a day count into weeks and days and recombining it gives the count back |
| Calculations.CalculateCorrectedAge | core/calculations.js:166-177 | chronological = day of life, correction = (40 − gaWeeks)·7, corrected = max(0, chronological − correction); corrected ≤ chronological iff gaWeeks ≤ 40 |
| Calculations.GetMaturityCategory | core/calculations.js:35-41 | each category holds exactly on its week range (<28, 28–31, 32–36, 37–42, >42); preterm iff weeks < 37 |
| Calculations.MaturityMonotone | core/calculations.js:35-41 | more weeks never give a less mature category |
| Calculations.MaturityKeysDistinct | core/calculations.js:36-40 | the five category keys are pairwise different |
| Calculations.KgToGrams | core/calculations.js:44-46 | the grams divided by 1000 are the kilograms, with the same sign |
| Calculations.GramsToKg | core/calculations.js:48-50 | the kilograms times 1000 are the grams, with the same sign |
| Calculations.WeightConversionRoundTrip | core/calculations.js:44-50 | kg→g→kg and g→kg→g are identities |
| Calculations.CalculateWeightChange | core/calculations.js:53-61 | status is gain iff current ≥ birth weight; absolute is `toFixed(2)` of current − birth (ties away from zero), with the sign of the status and at most 2 decimals; percent is present iff birth weight ≠ 0 and is `toFixed(1)` of the change in percent, with at most 1 decimal |
| Calculations.WeightChangeExample | core/calculations.js:53-61 | 2.6 kg against 2.5 kg at birth gives 0.1, 4.0 %, gain |
| Calculations.CalculateDose | core/calculations.js:64-72 | the single dose is `toFixed(2)` of weight × dose/kg; the daily dose is `toFixed(2)` of that rounded single dose × frequency, for any frequency; both doses have 2 decimals; for a whole frequency the daily dose is exactly single × frequency; non-negative inputs give non-negative doses; unit is mg |
| Calculations.DefaultFrequencyDailyIsSingle | core/calculations.js:64 | with the default frequency 1 the daily dose equals the single dose |
| Calculations.DosePerKg | core/calculations.js:77-107 | the mg/kg of each medication, as the table gives it (the values themselves are data): a whole number between 1 and 100, at most 50 in the first week of life |
| Calculations.DosesPerDay | core/calculations.js:77-107 | twice daily for ampicillin, cipro and ursodeoxycholic acid, once daily for the others |
| Calculations.Prescribe | core/calculations.js:77-107 | the dose is `calculateDose` with the medication's dose/kg and doses per day, in mg; each medication's single dose is weight × its dose/kg rounded; daily = single × doses per day (2 for ampicillin, cipro, ursodeoxycholic acid, else 1); the warning is present iff ceftriaxone |
| Calculations.DosePerKgByAge | core/calculations.js:77-85 | only ampicillin and gentamicin depend on age, never decreasing with it; ampicillin doubles after day 7 |
| Calculations.MaintenanceRate | core/calculations.js:113-120 | the rate is one of 60/80/100/120/150; 60 iff day 1; 80 iff day 2; 100 iff day 3 or after day 30; 150 iff day 8–30; every other age ≤ 7 (0 and negatives included) gives 120 |
| Calculations.MaintenanceRateSchedule | core/calculations.js:115-120 | the rate never falls over days 1–30 and is 100 after day 30 |
| Calculations.CalculateIVFluids | core/calculations.js:111-130 | mL/kg/day is the maintenance rate; the daily total is `toFixed(0)` of weight × rate; the hourly rate is `toFixed(1)` of weight × rate / 24, taken before the daily total is rounded, with at most 1 decimal |
| Calculations.IVFluidsExample | core/calculations.js:111-130 | 2.0 kg on day 1 gives 120 mL a day at 5.0 mL an hour |
| Calculations.GetNormalVitals | core/calculations.js:133-149 | heart rate is 120–160 iff age ≤ 7, otherwise 100–150; the respiratory, temperature and SpO2 ranges are fixed; every range has min ≤ max |
| Calculations.CheckVitalStatus | core/calculations.js:152-156 | low iff below min; high iff not low and above max; for min ≤ max, normal iff min ≤ value ≤ max |
| Calculations.VitalStatusMonotone | core/calculations.js:152-156 | a higher reading never moves the status down |
| Calculations.InterpretApgar | core/calculations.js:159-163 | normal iff score ≥ 7, moderate distress iff 4–6, severe distress iff < 4 |
| Calculations.ApgarMonotone | core/calculations.js:159-163 | a lower score is never less severe |
| Jaundice.GaPresent | modules/pathologies/jaundice.js:36 | JavaScript truthiness of the gestational age: false when it was never entered or is 0, true for any other number |
| Jaundice.IsPreterm | modules/pathologies/jaundice.js:36 | the test `gaWeeks && gaWeeks < 37` (repeated at line 136): preterm only for an entered age in a preterm maturity category, and always for a non-zero entered age in one; never for a missing or zero age |
| Jaundice.RiskReasons | modules/pathologies/jaundice.js:31-48 | the preterm reason is listed iff gaWeeks is present, non-zero and < 37; the early-onset reason iff dol < 1; only those two strings appear, without repeats, preterm first; two reasons iff both hold |
| Jaundice.AssessHighRisk | modules/pathologies/jaundice.js:31-48 | the reasons pushed are those of RiskReasons and the flag is raised iff the list is non-empty |
| Jaundice.HighRiskIff | modules/pathologies/jaundice.js:35-47 | the assessment is high risk iff the baby is preterm or dol < 1 |
| Jaundice.PretermAgreesWithMaturity | modules/pathologies/jaundice.js:36 | for an entered age, the preterm test agrees with the preterm maturity categories |
| Jaundice.EarlyOnsetOnlyAtBirthInstant | modules/pathologies/jaundice.js:42-45 | the early-onset reason appears iff now is exactly the birth instant |
| Jaundice.ThreeHoursOldNotEarlyOnset | modules/pathologies/jaundice.js:42-45 | three hours after birth the day of life is 1 and no reason is listed |
| Jaundice.IntendedRiskReasons | modules/pathologies/jaundice.js:41-45 | the corrected rule: early onset iff the day of life is at most 1 |
| Jaundice.IntendedEarlyOnsetWithinFirstDay | modules/pathologies/jaundice.js:41-45 | under the corrected rule the early-onset reason appears iff at most 24 hours have passed since birth |
| Jaundice.Grade2Action | modules/pathologies/jaundice.js:203-213 | the preterm text iff preterm; start phototherapy iff not preterm and dol < 3; monitor iff not preterm and dol ≥ 3 |
| Jaundice.KramerRecommendation | modules/pathologies/jaundice.js:144-186 | an entry exists iff 0 ≤ grade ≤ 5; the grade 1 action depends on prematurity; the grade 2 action is Grade2Action |
| Jaundice.FixedGradesIgnoreAgeAndMaturity | modules/pathologies/jaundice.js:146-183 | the entries for grades 0, 3, 4 and 5 do not depend on day of life or prematurity |
| Jaundice.Grade1IgnoresAge | modules/pathologies/jaundice.js:152-159 | the grade 1 entry does not depend on day of life |
| Jaundice.OnlyGrade2DependsOnAge | modules/pathologies/jaundice.js:144-186 | if two ages give different entries, the grade is 2, the baby is not preterm and the ages fall on opposite sides of day 3 |
| Jaundice.PretermDefersToHighRisk | modules/pathologies/jaundice.js:152-165 | for a preterm baby, grades 1 and 2 defer to the high-risk pathway, and the assessment lists prematurity |
| Jaundice.BorderFor | modules/pathologies/jaundice.js:189 | the border is danger iff grade ≥ 3 |
| Jaundice.GetKramerRecommendation | modules/pathologies/jaundice.js:135-138 | prematurity is the truthy-and-below-37 test; there is advice iff the grade is 0–5, with that table entry and a danger border iff grade ≥ 3 |
| Jaundice.GetData | modules/pathologies/jaundice.js:231-247 | there is no record iff no grade is selected; otherwise it holds the selected grade, the assessment's reasons for the day of life, its high-risk flag and the current instant |
| Storage.IndexOf | core/storage.js:27 | returns the first position holding the id, or −1 iff no record has it |
| Storage.IndexOfAfterUpdate | core/storage.js:29-31 | replacing a record by one with the same id leaves every first position unchanged |
| Storage.IndexOfAppended | core/storage.js:32-37 | a record with a new id is found at the end once appended |
| Storage.UpdatedRecordFound | core/storage.js:29-31 | after an update the length is unchanged and the id's first record is the new one |
| Storage.ActiveOf | core/storage.js:51-53 | keeps exactly the records whose status is active |
| Storage.ArchivedOf | core/storage.js:56-58 | keeps exactly the records whose status is not active |
| Storage.WithoutId | core/storage.js:46 | keeps exactly the records whose id differs |
| Storage.ActiveOfDistributes | core/storage.js:52 | the active filter keeps list order (it distributes over concatenation) |
| Storage.ArchivedOfDistributes | core/storage.js:57 | the archived filter keeps list order |
| Storage.WithoutIdDistributes | core/storage.js:46 | the delete filter keeps list order |
| Storage.ActiveArchivedPartition | core/storage.js:51-58 | the active and archived lists partition the patient list (lengths sum, multisets add up) |
| Storage.WithoutAbsentId | core/storage.js:44-48 | deleting an id no record carries changes nothing |
| Storage.ActiveCountAfterUpdate | core/storage.js:61-69 | replacing one record changes the active count only by that record's change of status |
| Storage.ArchivedRecordMovesLists | core/storage.js:61-69 | after archiving with a non-active status the record is archived and not active, and the active count drops by one iff it had been active |
| Storage.LastRound | core/storage.js:85-86 | present iff the round list exists and is non-empty, and then its last element |
| Storage.Store.constructor | core/storage.js:4-10 | a new store holds nothing under any of its three keys (patients, settings, language) |
| Storage.Store.GetPatients | core/storage.js:13-16 | the stored list, or the empty list when nothing is stored |
| Storage.Store.GetPatient | core/storage.js:19-22 | present iff some record has the id, and then the first such record |
| Storage.Store.GetActivePatients | core/storage.js:51-53 | the active filter of the stored list |
| Storage.Store.GetArchivedPatients | core/storage.js:56-58 | the archived filter of the stored list |
| Storage.Store.SavePatient | core/storage.js:25-41 | a known id replaces the first record with it in place (length and other slots unchanged); otherwise the record gets the fresh id and creation time and is appended, and when the fresh id was unused it is then found by it; settings and language are untouched |
| Storage.Store.DeletePatient | core/storage.js:44-48 | the list becomes the order-preserving filter without the id |
| Storage.Store.ArchivePatient | core/storage.js:61-69 | unknown id: nothing changes; otherwise only that record's status, reason and time change |
| Storage.Store.AddRound | core/storage.js:72-80 | unknown id: nothing changes; otherwise the round, stamped now, is appended to that record's rounds (created if absent), no other record changes, and it becomes the latest round |
| Storage.Store.GetLatestRound | core/storage.js:83-89 | the last round of the id's first record; none for an unknown id or no rounds |
| Storage.Store.GetSettings | core/storage.js:92-99 | the stored settings, or language en, theme light, default view patients |
| Storage.Store.SaveSetting | core/storage.js:101-105 | the settings become the previous (possibly default) settings with that one key set; nothing else changes |
| Storage.Store.GetLanguage | core/storage.js:108-110 | the stored language when non-empty, otherwise en; never empty |
| Storage.Store.SetLanguage | core/storage.js:112-114 | stores the language, after which GetLanguage returns it (en for the empty string); nothing else changes |
| Storage.Store.ExportData | core/storage.js:122-128 | the backup holds the current patients, the current settings and the export instant |
| Storage.Store.ImportData | core/storage.js:131-138 | overwrites exactly the parts present in the backup |
| Storage.Store.ExportThenImport | core/storage.js:122-138 | importing a fresh export leaves patients, settings and language unchanged |
| Storage.Store.ClearAll | core/storage.js:141-149 | reports the confirmation; when confirmed all three entries are removed (so defaults are read back), otherwise nothing changes |
| Language.Toggled | core/language.js:49 | sw iff the language is en, en otherwise |
| Language.ToggleChanges | core/language.js:49 | toggling always changes the language |
| Language.ToggleTwice | core/language.js:48-51 | toggling twice restores en or sw, and turns any other language into sw |
| Language.LanguageState.constructor | core/language.js:10 | starts in the stored language |
| Language.LanguageState.T | core/language.js:34-37 | the current language's text when present and non-empty, otherwise the key itself |
| Language.LanguageState.SetLanguage | core/language.js:40-45 | sets current and persists it, so the store's language is the new one; the patients and settings are untouched |
| Language.LanguageState.Toggle | core/language.js:48-51 | current becomes Toggled(current), and it is written to the store's language entry |
| Language.LanguageState.GetCurrentLanguageName | core/language.js:70-72 | English iff current is en, otherwise Kiswahili |

## Findings

| source | as written | input that shows it | evidently intended | confidence | as-written member | corrected member |
|---|---|---|---|---|---|---|
| modules/pathologies/jaundice.js:42 | the onset-before-24-hours reason needs `dol < 1`, but `calculateDOL` rounds elapsed days up, so it is 1 throughout the first 24 hours and 0 only at the birth instant | date of birth t, assessment at t + 3 hours: the day of life is 1 and no early-onset reason is listed | flag jaundice assessed within the first 24 hours, i.e. day of life at most 1 | medium, not executed | Jaundice.EarlyOnsetOnlyAtBirthInstant | Jaundice.IntendedEarlyOnsetWithinFirstDay |

`Jaundice.RiskReasons`, `Jaundice.AssessHighRisk` and `Jaundice.GetData` keep the rule as written. `Jaundice.IntendedRiskReasons` is the corrected rule, with its property proved.

## Left out

- Rendering is not modelled. This covers the HTML templates, DOM reads and writes, event wiring, `alert`/`confirm`, `renderHighRiskSection`, `renderKramerSection`, `showKramerInfo`, `updateRecommendations`' DOM access, `Language.applyTranslations`, `updateLanguageButton` and the other modules' forms and cards. They only display data.
- `Language.loadTranslations` (`fetch` of the translation files and its fallback tables) is I/O. The tables are a constructor parameter instead.
- `generateId` uses the clock and a random number. The fresh identifier is a parameter of `SavePatient`, and its uniqueness is an assumption of the caller.
- Wall-clock reads (`new Date()`) are parameters. This covers the day counts, creation, archive and round timestamps, and the export and assessment dates. ISO-8601 strings are not modelled.
- JSON serialisation is not modelled. Stored values are structured values; malformed stored text and the parse errors it would raise are out of scope.
- IEEE-754 floating point is not modelled. Arithmetic is on exact reals, so binary representation errors in `weight * dosePerKg` and similar products are not captured.
- `toFixed` returns a string. `calculateWeightChange` and `calculateIVFluids` return some results as that string. The model keeps the number the string denotes, and does not model `-0`, exponent notation above 10^21 or the string type itself.
- `formatDate`, `formatDateTime` and the GA `formatted` string (`weeks+days`) are locale/text formatting and are not modelled.
- Calculations.CalculateWeightChange: for a birth weight of 0 the percentage is `None`. JavaScript yields `Infinity`, `-Infinity` or `NaN` there.
- Calculations.CalculateCorrectedAge: takes gaWeeks as a number. A missing value, which JavaScript coerces to 0, is not modelled.
- Jaundice.KramerRecommendation: a grade outside 0–5 gives `None`. In JavaScript that is a `TypeError` when the missing entry's title is read; the selector only offers 0–5.
- JaundiceModule's `currentPatient` field, set by `render`, is not modelled. Its gestational age and date of birth are passed to the operations instead.
- Storage.Store.SavePatient, Storage.Store.AddRound: the program also writes into the caller's own object (aliasing): `savePatient` the new id and creation time, `addRound` the round's timestamp. The model returns or stores the stamped record instead.
- Patient fields the store never reads (name, dates, gestational age, admission data) are kept as an opaque `details` map.

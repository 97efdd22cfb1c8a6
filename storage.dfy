/**
 * The patient record store. The browser's key/value storage holds three entries (patients,
 * settings, language); each is a field of `Store` that is `None` while the key is absent. Stored
 * values are kept as structured values, so serialisation to text is not part of the model.
 *
 * Every patient operation reads the whole list, changes it and writes it back, as the program
 * does. Instants are integer milliseconds supplied by the caller, and so is the identifier a new
 * patient receives.
 */
module Storage {
  import opened Options
  import Jaundice

  /** One daily round: when the store saved it, the observations, and the jaundice assessment. */
  datatype Round = Round(
    timestamp: Option<int>,
    observations: map<string, string>,
    jaundice: Option<Jaundice.JaundiceRecord>)

  /**
   * A patient record. The store itself reads and writes only the fields named here; the
   * demographics and admission data the forms enter are kept together in `details`.
   */
  datatype Patient = Patient(
    id: Option<string>,
    status: string,
    archiveReason: Option<string>,
    archivedAt: Option<int>,
    createdAt: Option<int>,
    rounds: Option<seq<Round>>,
    details: map<string, string>)

  const ActiveStatus: string := "active"

  // ----------------------------------------------------------------------------------
  // Searching and filtering the patient list
  // ----------------------------------------------------------------------------------

  /** `findIndex` on the id: the first position holding `id`, or -1. */
  function IndexOf(patients: seq<Patient>, id: Option<string>): (i: int)
    ensures -1 <= i < |patients|
    ensures 0 <= i ==> patients[i].id == id
    ensures 0 <= i ==> forall j :: 0 <= j < i ==> patients[j].id != id
    ensures i == -1 <==> forall j :: 0 <= j < |patients| ==> patients[j].id != id
  {
    if |patients| == 0 then -1
    else if patients[0].id == id then 0
    else
      var k := IndexOf(patients[1..], id);
      if k == -1 then -1 else k + 1
  }

  /** Replacing a record by one with the same id leaves every first position unchanged. */
  lemma {:induction false} IndexOfAfterUpdate(patients: seq<Patient>, i: int, p: Patient, id: Option<string>)
    requires 0 <= i < |patients| && p.id == patients[i].id
    ensures IndexOf(patients[i := p], id) == IndexOf(patients, id)
  {
    if i > 0 {
      assert patients[i := p][1..] == patients[1..][i - 1 := p];
      IndexOfAfterUpdate(patients[1..], i - 1, p, id);
    }
  }

  /** A record whose id is new is found last once it is appended. */
  lemma {:induction false} IndexOfAppended(patients: seq<Patient>, p: Patient)
    requires IndexOf(patients, p.id) == -1
    ensures IndexOf(patients + [p], p.id) == |patients|
  {
    if |patients| > 0 {
      assert (patients + [p])[1..] == patients[1..] + [p];
      IndexOfAppended(patients[1..], p);
    }
  }

  /** `filter(p => p.status === 'active')`. */
  function ActiveOf(patients: seq<Patient>): (active: seq<Patient>)
    ensures |active| <= |patients|
    ensures forall p :: p in active <==> p in patients && p.status == ActiveStatus
  {
    if |patients| == 0 then []
    else (if patients[0].status == ActiveStatus then [patients[0]] else []) + ActiveOf(patients[1..])
  }

  /** `filter(p => p.status !== 'active')`. */
  function ArchivedOf(patients: seq<Patient>): (archived: seq<Patient>)
    ensures |archived| <= |patients|
    ensures forall p :: p in archived <==> p in patients && p.status != ActiveStatus
  {
    if |patients| == 0 then []
    else (if patients[0].status != ActiveStatus then [patients[0]] else []) + ArchivedOf(patients[1..])
  }

  /** `filter(p => p.id !== id)`. */
  function WithoutId(patients: seq<Patient>, id: Option<string>): (kept: seq<Patient>)
    ensures |kept| <= |patients|
    ensures forall p :: p in kept <==> p in patients && p.id != id
  {
    if |patients| == 0 then []
    else (if patients[0].id != id then [patients[0]] else []) + WithoutId(patients[1..], id)
  }

  /**
   * The filters keep the order of the list: filtering a concatenation filters each part.
   * Together with the contracts above this pins each filter down as the order-preserving one.
   */
  lemma {:induction false} ActiveOfDistributes(xs: seq<Patient>, ys: seq<Patient>)
    ensures ActiveOf(xs + ys) == ActiveOf(xs) + ActiveOf(ys)
  {
    if |xs| == 0 {
      assert xs + ys == ys;
    } else {
      assert (xs + ys)[1..] == xs[1..] + ys;
      ActiveOfDistributes(xs[1..], ys);
    }
  }

  lemma {:induction false} ArchivedOfDistributes(xs: seq<Patient>, ys: seq<Patient>)
    ensures ArchivedOf(xs + ys) == ArchivedOf(xs) + ArchivedOf(ys)
  {
    if |xs| == 0 {
      assert xs + ys == ys;
    } else {
      assert (xs + ys)[1..] == xs[1..] + ys;
      ArchivedOfDistributes(xs[1..], ys);
    }
  }

  lemma {:induction false} WithoutIdDistributes(xs: seq<Patient>, ys: seq<Patient>, id: Option<string>)
    ensures WithoutId(xs + ys, id) == WithoutId(xs, id) + WithoutId(ys, id)
  {
    if |xs| == 0 {
      assert xs + ys == ys;
    } else {
      assert (xs + ys)[1..] == xs[1..] + ys;
      WithoutIdDistributes(xs[1..], ys, id);
    }
  }

  /** The active and archived lists partition the patient list. */
  lemma {:induction false} ActiveArchivedPartition(patients: seq<Patient>)
    ensures |ActiveOf(patients)| + |ArchivedOf(patients)| == |patients|
    ensures multiset(ActiveOf(patients)) + multiset(ArchivedOf(patients)) == multiset(patients)
  {
    if |patients| > 0 {
      ActiveArchivedPartition(patients[1..]);
      assert patients == [patients[0]] + patients[1..];
    }
  }

  /** Deleting an id that no record carries leaves the list as it is. */
  lemma {:induction false} WithoutAbsentId(patients: seq<Patient>, id: Option<string>)
    requires IndexOf(patients, id) == -1
    ensures WithoutId(patients, id) == patients
  {
    if |patients| > 0 {
      WithoutAbsentId(patients[1..], id);
      assert patients == [patients[0]] + patients[1..];
    }
  }

  /** Replacing one record moves the active count by that record's change of status only. */
  lemma {:induction false} ActiveCountAfterUpdate(patients: seq<Patient>, i: int, p: Patient)
    requires 0 <= i < |patients|
    ensures |ActiveOf(patients[i := p])|
         == |ActiveOf(patients)|
            - (if patients[i].status == ActiveStatus then 1 else 0)
            + (if p.status == ActiveStatus then 1 else 0)
  {
    if i > 0 {
      assert patients[i := p][1..] == patients[1..][i - 1 := p];
      ActiveCountAfterUpdate(patients[1..], i - 1, p);
    }
  }

  /** The last round of a patient's round list, if there is one. */
  function LastRound(p: Patient): (r: Option<Round>)
    ensures r.Some? <==> p.rounds.Some? && |p.rounds.value| > 0
    ensures r.Some? ==> r.value in p.rounds.value
    ensures r.Some? ==> r.value == p.rounds.value[|p.rounds.value| - 1]
  {
    if p.rounds.Some? && |p.rounds.value| > 0 then Some(p.rounds.value[|p.rounds.value| - 1]) else None
  }

  // ----------------------------------------------------------------------------------
  // Settings
  // ----------------------------------------------------------------------------------

  const DefaultSettings: map<string, string> :=
    map["language" := "en", "theme" := "light", "defaultView" := "patients"]

  /** A backup: the patient list, the settings and when it was taken. Absent parts are `None`. */
  datatype Backup = Backup(
    patients: Option<seq<Patient>>,
    settings: Option<map<string, string>>,
    exportDate: Option<int>)

  class Store {
    /** The stored patient list, `None` while nothing has been stored. */
    var patientsSlot: Option<seq<Patient>>
    /** The stored settings object. */
    var settingsSlot: Option<map<string, string>>
    /** The stored language preference. */
    var languageSlot: Option<string>

    /** A store over empty browser storage. */
    constructor ()
      ensures patientsSlot == None && settingsSlot == None && languageSlot == None
    {
      patientsSlot := None;
      settingsSlot := None;
      languageSlot := None;
    }

    /** The patient list; the empty list while nothing is stored. */
    function GetPatients(): (patients: seq<Patient>)
      reads this
      ensures patientsSlot.Some? ==> patients == patientsSlot.value
      ensures patientsSlot.None? ==> patients == []
    {
      patientsSlot.GetOr([])
    }

    /** `find` on the id: the first record with that id. */
    function GetPatient(id: string): (p: Option<Patient>)
      reads this
      ensures p.Some? <==> exists j :: 0 <= j < |GetPatients()| && GetPatients()[j].id == Some(id)
      ensures p.Some? ==> p.value == GetPatients()[IndexOf(GetPatients(), Some(id))]
    {
      var i := IndexOf(GetPatients(), Some(id));
      if i == -1 then None else Some(GetPatients()[i])
    }

    function GetActivePatients(): (active: seq<Patient>)
      reads this
      ensures active == ActiveOf(GetPatients())
    {
      ActiveOf(GetPatients())
    }

    function GetArchivedPatients(): (archived: seq<Patient>)
      reads this
      ensures archived == ArchivedOf(GetPatients())
    {
      ArchivedOf(GetPatients())
    }

    /**
     * Update or insert. A record whose id is already stored replaces the first record with that
     * id; any other record is given `freshId` and `nowMs` as its creation time and appended.
     */
    method SavePatient(patient: Patient, freshId: string, nowMs: int) returns (saved: Patient)
      modifies this
      ensures var before := old(GetPatients());
        var i := IndexOf(before, patient.id);
        if 0 <= i then saved == patient && GetPatients() == before[i := patient]
        else
          saved == patient.(id := Some(freshId), createdAt := Some(nowMs)) && GetPatients() == before + [saved]
          && (IndexOf(before, Some(freshId)) == -1 ==> GetPatient(freshId) == Some(saved))
      ensures patientsSlot.Some?
      ensures settingsSlot == old(settingsSlot) && languageSlot == old(languageSlot)
    {
      var patients := GetPatients();
      var index := IndexOf(patients, patient.id);
      if index != -1 {
        patients := patients[index := patient];
        saved := patient;
      } else {
        saved := patient.(id := Some(freshId), createdAt := Some(nowMs));
        if IndexOf(patients, Some(freshId)) == -1 {
          IndexOfAppended(patients, saved);
        }
        patients := patients + [saved];
      }
      patientsSlot := Some(patients);
    }

    /** Removes every record with the id and keeps the others in order. */
    method DeletePatient(id: string)
      modifies this
      ensures GetPatients() == WithoutId(old(GetPatients()), Some(id))
      ensures patientsSlot.Some?
      ensures settingsSlot == old(settingsSlot) && languageSlot == old(languageSlot)
    {
      patientsSlot := Some(WithoutId(GetPatients(), Some(id)));
    }

    /**
     * Archive (discharge, transfer, death): sets the status, the reason and the time on the
     * first record with the id and saves it back. Nothing happens for an unknown id.
     */
    method ArchivePatient(id: string, status: string, reason: string, nowMs: int)
      modifies this
      ensures var before := old(GetPatients());
        var i := IndexOf(before, Some(id));
        if i == -1 then patientsSlot == old(patientsSlot)
        else GetPatients() == before[i := before[i].(status := status, archiveReason := Some(reason), archivedAt := Some(nowMs))]
      ensures settingsSlot == old(settingsSlot) && languageSlot == old(languageSlot)
    {
      var patient := GetPatient(id);
      if patient.Some? {
        var archived := patient.value.(status := status, archiveReason := Some(reason), archivedAt := Some(nowMs));
        // The record keeps its id, so the save replaces it and the fresh id is not used.
        var _ := SavePatient(archived, id, nowMs);
      }
    }

    /**
     * Appends a round, stamped with `nowMs`, to the first record with the id and saves it back;
     * a record without a round list gets one. Nothing happens for an unknown id.
     */
    method AddRound(patientId: string, round: Round, nowMs: int)
      modifies this
      ensures var before := old(GetPatients());
        var i := IndexOf(before, Some(patientId));
        if i == -1 then patientsSlot == old(patientsSlot)
        else
          var stamped := round.(timestamp := Some(nowMs));
          GetPatients() == before[i := before[i].(rounds := Some(before[i].rounds.GetOr([]) + [stamped]))]
          && GetLatestRound(patientId) == Some(stamped)
      ensures settingsSlot == old(settingsSlot) && languageSlot == old(languageSlot)
    {
      var patient := GetPatient(patientId);
      if patient.Some? {
        var p := patient.value;
        var rounds := p.rounds.GetOr([]);
        var stamped := round.(timestamp := Some(nowMs));
        var updated := p.(rounds := Some(rounds + [stamped]));
        ghost var before := GetPatients();
        ghost var i := IndexOf(before, Some(patientId));
        var _ := SavePatient(updated, patientId, nowMs);
        IndexOfAfterUpdate(before, i, updated, Some(patientId));
      }
    }

    /** The last round of the first record with the id; `None` for an unknown id or no rounds. */
    function GetLatestRound(patientId: string): (r: Option<Round>)
      reads this
      ensures GetPatient(patientId).None? ==> r.None?
      ensures GetPatient(patientId).Some? ==> r == LastRound(GetPatient(patientId).value)
    {
      match GetPatient(patientId)
      case None => None
      case Some(p) => LastRound(p)
    }

    /** The stored settings, or the defaults (English, light theme, patient list) when none are stored. */
    function GetSettings(): (settings: map<string, string>)
      reads this
      ensures settingsSlot.None? ==> settings == DefaultSettings
      ensures settingsSlot.Some? ==> settings == settingsSlot.value
    {
      settingsSlot.GetOr(DefaultSettings)
    }

    /** Sets one setting on top of the current (possibly default) settings. */
    method SaveSetting(key: string, value: string)
      modifies this
      ensures GetSettings() == old(GetSettings())[key := value]
      ensures patientsSlot == old(patientsSlot) && languageSlot == old(languageSlot)
    {
      settingsSlot := Some(GetSettings()[key := value]);
    }

    /** The stored language, or English when none (or an empty one) is stored. */
    function GetLanguage(): (lang: string)
      reads this
      ensures lang != ""
      ensures languageSlot.Some? && languageSlot.value != "" ==> lang == languageSlot.value
      ensures languageSlot.None? || languageSlot.value == "" ==> lang == "en"
    {
      if languageSlot.Some? && languageSlot.value != "" then languageSlot.value else "en"
    }

    method SetLanguage(lang: string)
      modifies this
      ensures languageSlot == Some(lang)
      ensures GetLanguage() == if lang == "" then "en" else lang
      ensures patientsSlot == old(patientsSlot) && settingsSlot == old(settingsSlot)
    {
      languageSlot := Some(lang);
    }

    /** A backup of the patients and the settings, both always present. */
    function ExportData(nowMs: int): (backup: Backup)
      reads this
      ensures backup.patients == Some(GetPatients())
      ensures backup.settings == Some(GetSettings())
      ensures backup.exportDate == Some(nowMs)
    {
      Backup(Some(GetPatients()), Some(GetSettings()), Some(nowMs))
    }

    /** Restores the parts of a backup that are present and leaves the rest alone. */
    method ImportData(data: Backup)
      modifies this
      ensures patientsSlot == if data.patients.Some? then data.patients else old(patientsSlot)
      ensures settingsSlot == if data.settings.Some? then data.settings else old(settingsSlot)
      ensures languageSlot == old(languageSlot)
    {
      if data.patients.Some? {
        patientsSlot := data.patients;
      }
      if data.settings.Some? {
        settingsSlot := data.settings;
      }
    }

    /** Importing a fresh export changes neither the patients nor the settings. */
    method ExportThenImport(nowMs: int)
      modifies this
      ensures GetPatients() == old(GetPatients())
      ensures GetSettings() == old(GetSettings())
      ensures GetLanguage() == old(GetLanguage())
    {
      var backup := ExportData(nowMs);
      ImportData(backup);
    }

    /** Removes all three entries when the user confirms; reports whether it did. */
    method ClearAll(confirmed: bool) returns (cleared: bool)
      modifies this
      ensures cleared == confirmed
      ensures confirmed ==> patientsSlot.None? && settingsSlot.None? && languageSlot.None?
      ensures confirmed ==> GetPatients() == [] && GetSettings() == DefaultSettings && GetLanguage() == "en"
      ensures !confirmed ==>
        patientsSlot == old(patientsSlot) && settingsSlot == old(settingsSlot) && languageSlot == old(languageSlot)
    {
      if confirmed {
        patientsSlot := None;
        settingsSlot := None;
        languageSlot := None;
        return true;
      }
      return false;
    }
  }

  /**
   * After an archive with a non-active status, the record is in the archived list and not in the
   * active one, and the active count drops by one exactly when the record had been active.
   */
  lemma ArchivedRecordMovesLists(patients: seq<Patient>, i: int, status: string, reason: string, nowMs: int)
    requires 0 <= i < |patients| && status != ActiveStatus
    ensures var archived := patients[i].(status := status, archiveReason := Some(reason), archivedAt := Some(nowMs));
      var after := patients[i := archived];
      archived in ArchivedOf(after) && archived !in ActiveOf(after)
      && |ActiveOf(after)| == |ActiveOf(patients)| - (if patients[i].status == ActiveStatus then 1 else 0)
  {
    var archived := patients[i].(status := status, archiveReason := Some(reason), archivedAt := Some(nowMs));
    assert patients[i := archived][i] == archived;
    ActiveCountAfterUpdate(patients, i, archived);
  }

  /** A saved update is found again by its id: the first record with the id is the new one. */
  lemma UpdatedRecordFound(patients: seq<Patient>, p: Patient)
    requires 0 <= IndexOf(patients, p.id)
    ensures var after := patients[IndexOf(patients, p.id) := p];
      |after| == |patients| && IndexOf(after, p.id) == IndexOf(patients, p.id) && after[IndexOf(after, p.id)] == p
  {
    IndexOfAfterUpdate(patients, IndexOf(patients, p.id), p, p.id);
  }
}

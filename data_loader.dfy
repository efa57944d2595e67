/**
 * The in-memory part of `PatientDataManager`
 * (MedAi-Assistant/fl-backend/client/data_loader.py:123-162): a dictionary from
 * patient id to the patient's name and the list of their image records.
 *
 * `add_patient_record` as written stamps each record with `datetime.now()`, but the
 * file never imports `datetime`; the model keeps that version
 * (`AddPatientRecordAsWritten`) beside the intended one, which takes the upload
 * time as a parameter (`AddPatientRecord`).
 */
module DataLoader {
  import opened Wrappers
  import opened Diagnosis

  /** One entry of a patient's `records` list (data_loader.py:150-155). */
  datatype ImageRecord = ImageRecord(
    imagePath: string,
    imageType: string,
    uploadTime: string,
    analysisResult: Option<AnalysisResult>)

  /** `{'name': ..., 'records': [...]}`. */
  datatype PatientEntry = PatientEntry(name: string, records: seq<ImageRecord>)

  type PatientRecords = map<string, PatientEntry>

  /** `NameError`: the name `datetime` is not defined in data_loader.py. */
  datatype LoaderError = DatetimeNotDefined

  /**
   * The records after adding `rec` for `id` (data_loader.py:144-155): a patient
   * seen for the first time gets an entry under `name` holding just `rec`; a known
   * patient keeps their stored name and gets `rec` appended; nobody else changes.
   */
  function WithRecord(db: PatientRecords, id: string, name: string, rec: ImageRecord): (r: PatientRecords)
    ensures r.Keys == db.Keys + {id}
    ensures id !in db ==> r[id] == PatientEntry(name, [rec])
    ensures id in db ==> r[id].name == db[id].name && r[id].records == db[id].records + [rec]
    ensures forall p :: p in db && p != id ==> r[p] == db[p]
  {
    var entry := if id in db then db[id] else PatientEntry(name, []);
    db[id := entry.(records := entry.records + [rec])]
  }

  /** `get_patient_history` (data_loader.py:159-162): the stored records, or `[]` for an unknown id. */
  function History(db: PatientRecords, id: string): (h: seq<ImageRecord>)
    ensures id in db ==> h == db[id].records
    ensures id !in db ==> h == []
  {
    if id in db then db[id].records else []
  }

  /**
   * After an add, the patient's history is their previous history followed by the
   * new record, whatever it held before; every other patient's history is as it was.
   */
  lemma HistoryAfterAdd(db: PatientRecords, id: string, name: string, rec: ImageRecord)
    ensures History(WithRecord(db, id, name, rec), id) == History(db, id) + [rec]
    ensures forall p :: p != id ==> History(WithRecord(db, id, name, rec), p) == History(db, p)
  {
  }

  /** Adding records one after another keeps them in the order they were added. */
  lemma {:induction false} HistoryOfSuccessiveAdds(db: PatientRecords, id: string, name: string, recs: seq<ImageRecord>)
    requires id !in db
    ensures History(AddAll(db, id, name, recs), id) == recs
    ensures recs != [] ==> AddAll(db, id, name, recs)[id].name == name
  {
    if recs != [] {
      var n := |recs| - 1;
      HistoryOfSuccessiveAdds(db, id, name, recs[..n]);
      HistoryAfterAdd(AddAll(db, id, name, recs[..n]), id, name, recs[n]);
      assert recs[..n] + [recs[n]] == recs;
    }
  }

  /** The records after adding each of `recs` for `id`, in order. */
  function AddAll(db: PatientRecords, id: string, name: string, recs: seq<ImageRecord>): PatientRecords {
    if recs == [] then db else WithRecord(AddAll(db, id, name, recs[..|recs| - 1]), id, name, recs[|recs| - 1])
  }

  /**
   * `add_patient_record` exactly as written: the entry for a new patient is
   * created with an empty list, and then evaluating `datetime.now()` raises
   * before the record is appended.
   */
  function AddAsWritten(db: PatientRecords, id: string, name: string): (res: (Result<(), LoaderError>, PatientRecords))
    ensures res.0 == Failure(DatetimeNotDefined)
    ensures res.1.Keys == db.Keys + {id}
    ensures forall p :: p in db ==> res.1[p] == db[p]
  {
    (Failure(DatetimeNotDefined), if id in db then db else db[id := PatientEntry(name, [])])
  }

  /**
   * As written, no record is ever stored: the history of any patient after the
   * call equals their history before it, where the intended add would have
   * appended the record. A brand-new patient is left registered with no records.
   */
  lemma AsWrittenLosesTheRecord(db: PatientRecords, id: string, name: string, rec: ImageRecord)
    ensures History(AddAsWritten(db, id, name).1, id) == History(db, id)
    ensures History(AddAsWritten(db, id, name).1, id) != History(WithRecord(db, id, name, rec), id)
    ensures id !in db ==> AddAsWritten(db, id, name).1[id] == PatientEntry(name, [])
  {
    HistoryAfterAdd(db, id, name, rec);
    assert |History(db, id) + [rec]| == |History(db, id)| + 1;
  }

  class PatientDataManager {
    var patientRecords: PatientRecords

    /** `__init__` (data_loader.py:124-127), with the contents read from `patient_records.json` given as `loaded`. */
    constructor (loaded: PatientRecords)
      ensures patientRecords == loaded
    {
      patientRecords := loaded;
    }

    /**
     * `add_patient_record` with the upload time supplied by the caller: the
     * entry is created if needed, then the record is appended to it.
     */
    method AddPatientRecord(patientId: string, patientName: string, imagePath: string, imageType: string,
                            analysisResult: Option<AnalysisResult>, uploadTime: string)
      modifies this
      ensures patientRecords
        == WithRecord(old(patientRecords), patientId, patientName,
                      ImageRecord(imagePath, imageType, uploadTime, analysisResult))
    {
      if patientId !in patientRecords {
        patientRecords := patientRecords[patientId := PatientEntry(patientName, [])];
      }
      var entry := patientRecords[patientId];
      var record := ImageRecord(imagePath, imageType, uploadTime, analysisResult);
      patientRecords := patientRecords[patientId := entry.(records := entry.records + [record])];
      // Writing the records back to patient_records.json is not part of this model.
    }

    /** `add_patient_record` as written: it raises after creating the entry. */
    method AddPatientRecordAsWritten(patientId: string, patientName: string, imagePath: string, imageType: string,
                                     analysisResult: Option<AnalysisResult>)
      returns (r: Result<(), LoaderError>)
      modifies this
      ensures (r, patientRecords) == AddAsWritten(old(patientRecords), patientId, patientName)
    {
      if patientId !in patientRecords {
        patientRecords := patientRecords[patientId := PatientEntry(patientName, [])];
      }
      return Failure(DatetimeNotDefined);
    }

    /** `get_patient_history`. */
    function GetPatientHistory(patientId: string): (h: seq<ImageRecord>)
      reads this
      ensures h == History(patientRecords, patientId)
    {
      if patientId in patientRecords then patientRecords[patientId].records else []
    }
  }
}

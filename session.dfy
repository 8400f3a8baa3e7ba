/** The session-selection store: the active practitioner id and the active
    patient id, each mirrored best-effort into the browser's string key-value
    storage, with the reaction that clears the patient whenever the
    practitioner changes to something falsy. */
module Session {
  import opened Js

  const PractitionerKey := "activePractitionerId"
  const PatientKey := "activePatientId"

  /** The two cells and the storage, as one value. */
  datatype State = State(practitioner: Option<string>, patient: Option<string>, storage: map<string, string>)

  /** No patient without a practitioner: what the clearing effect restores each
      time the practitioner becomes falsy. */
  predicate PatientNeedsPractitioner(s: State) {
    !Truthy(s.practitioner) ==> s.patient == None
  }

  /** `localStorage.getItem(key) || undefined` inside a `try`: a missing key,
      an empty value and a failing read all give `undefined`. */
  function ReadCell(storage: map<string, string>, key: string, readOk: bool): (r: Option<string>)
    ensures r == None || Truthy(r)
    ensures Truthy(r) <==> readOk && key in storage && storage[key] != ""
    ensures r.Some? ==> key in storage && r.value == storage[key]
  {
    if readOk && key in storage then OrUndefined(storage[key]) else None
  }

  /** `if (id) setItem(key, id) else removeItem(key)` inside a `try` that
      swallows failures: a failed write leaves storage as it was, and no other
      key is ever touched. */
  function Store(storage: map<string, string>, key: string, id: Option<string>, ok: bool): (r: map<string, string>)
    ensures !ok ==> r == storage
    ensures ok ==> (key in r <==> Truthy(id)) && (key in r ==> r[key] == id.value)
    ensures forall k :: k != key ==> (k in r <==> k in storage) && (k in r ==> r[k] == storage[k])
  {
    if !ok then storage
    else if Truthy(id) then storage[key := id.value]
    else storage - {key}
  }

  /** The effect body: with a falsy practitioner, unset the patient and remove
      its key (best-effort); otherwise nothing. */
  function ClearPatient(s: State, removeOk: bool): (r: State)
    ensures r.practitioner == s.practitioner
    ensures Truthy(s.practitioner) ==> r == s
    ensures !Truthy(s.practitioner) ==> r.patient == None && r.storage == Store(s.storage, PatientKey, None, removeOk)
    ensures PatientNeedsPractitioner(r)
  {
    if Truthy(s.practitioner) then s
    else s.(patient := None, storage := Store(s.storage, PatientKey, None, removeOk))
  }

  /** Mounting the provider: both cells read from storage, then the effect runs once. */
  function Start(storage: map<string, string>, readPractitionerOk: bool, readPatientOk: bool, removeOk: bool): (r: State)
    ensures PatientNeedsPractitioner(r)
  {
    ClearPatient(State(ReadCell(storage, PractitionerKey, readPractitionerOk),
                       ReadCell(storage, PatientKey, readPatientOk), storage), removeOk)
  }

  /** `setActivePractitionerId(id)`; the effect runs when the value changed. */
  function SetPractitioner(s: State, id: Option<string>, writeOk: bool, removeOk: bool): (r: State)
    ensures r.practitioner == id
    ensures r.patient == if id != s.practitioner && !Truthy(id) then None else s.patient
    ensures id != s.practitioner && !Truthy(id) ==>
      r.storage == Store(Store(s.storage, PractitionerKey, id, writeOk), PatientKey, None, removeOk)
    ensures !(id != s.practitioner && !Truthy(id)) ==>
      (PatientKey in r.storage <==> PatientKey in s.storage)
      && (PatientKey in s.storage ==> r.storage[PatientKey] == s.storage[PatientKey])
    ensures forall k :: k != PractitionerKey && k != PatientKey ==>
      (k in r.storage <==> k in s.storage) && (k in r.storage ==> r.storage[k] == s.storage[k])
  {
    var t := s.(practitioner := id, storage := Store(s.storage, PractitionerKey, id, writeOk));
    if id != s.practitioner then ClearPatient(t, removeOk) else t
  }

  /** `setActivePatientId(id)`. */
  function SetPatient(s: State, id: Option<string>, writeOk: bool): (r: State)
    ensures r.practitioner == s.practitioner && r.patient == id
    ensures r.storage == Store(s.storage, PatientKey, id, writeOk)
  {
    s.(patient := id, storage := Store(s.storage, PatientKey, id, writeOk))
  }

  /** At start-up each cell is what its key holds, with missing, empty and
      unreadable all unset; the patient only survives beside a practitioner,
      otherwise its key goes too. */
  lemma StartCells(storage: map<string, string>, readPractitionerOk: bool, readPatientOk: bool, removeOk: bool)
    ensures var r := Start(storage, readPractitionerOk, readPatientOk, removeOk);
      && r.practitioner == ReadCell(storage, PractitionerKey, readPractitionerOk)
      && (Truthy(r.practitioner) ==> r.patient == ReadCell(storage, PatientKey, readPatientOk) && r.storage == storage)
      && (!Truthy(r.practitioner) ==> r.patient == None && (removeOk ==> PatientKey !in r.storage))
  {
  }

  /** The in-memory practitioner is always `id`; storage holds `id` exactly when
      `id` is non-empty and the write succeeded, and a failed write does not undo
      the in-memory value. */
  lemma SetPractitionerCell(s: State, id: Option<string>, writeOk: bool, removeOk: bool)
    ensures var r := SetPractitioner(s, id, writeOk, removeOk);
      && r.practitioner == id
      && (writeOk ==> (PractitionerKey in r.storage <==> Truthy(id)))
      && (writeOk && Truthy(id) ==> r.storage[PractitionerKey] == id.value)
      && (!writeOk ==> (PractitionerKey in r.storage <==> PractitionerKey in s.storage))
      && (!writeOk && PractitionerKey in s.storage ==> r.storage[PractitionerKey] == s.storage[PractitionerKey])
  {
  }

  /** Setting the practitioner to "" keeps "" in memory, removes its key and,
      being a change to a falsy value, clears the patient. */
  lemma SetPractitionerEmpty(s: State, removeOk: bool)
    requires s.practitioner != Some("")
    ensures var r := SetPractitioner(s, Some(""), true, removeOk);
      && r.practitioner == Some("") && PractitionerKey !in r.storage
      && r.patient == None && (removeOk ==> PatientKey !in r.storage)
  {
  }

  /** Any change to a falsy practitioner, `undefined` or "", and whether or not
      its own write succeeds, clears the patient and removes the patient key
      when that removal succeeds. */
  lemma SetPractitionerFalsy(s: State, id: Option<string>, writeOk: bool, removeOk: bool)
    requires id != s.practitioner && !Truthy(id)
    ensures var r := SetPractitioner(s, id, writeOk, removeOk);
      && r.practitioner == id && r.patient == None
      && (removeOk ==> PatientKey !in r.storage)
      && (!removeOk ==> (PatientKey in r.storage <==> PatientKey in s.storage))
  {
  }

  /** Moving between two non-empty practitioners leaves the patient alone. */
  lemma SwitchPractitionerKeepsPatient(s: State, id: string, writeOk: bool, removeOk: bool)
    requires id != ""
    ensures var r := SetPractitioner(s, Some(id), writeOk, removeOk);
      r.patient == s.patient
      && (PatientKey in r.storage <==> PatientKey in s.storage)
      && (PatientKey in s.storage ==> r.storage[PatientKey] == s.storage[PatientKey])
  {
  }

  /** Setting the patient touches nothing but the patient cell and its key. */
  lemma SetPatientOnlyPatient(s: State, id: Option<string>, writeOk: bool)
    ensures var r := SetPatient(s, id, writeOk);
      && r.practitioner == s.practitioner && r.patient == id
      && (PractitionerKey in r.storage <==> PractitionerKey in s.storage)
      && (PractitionerKey in s.storage ==> r.storage[PractitionerKey] == s.storage[PractitionerKey])
  {
  }

  /** A practitioner change keeps "no patient without a practitioner". */
  lemma SetPractitionerKeepsDependency(s: State, id: Option<string>, writeOk: bool, removeOk: bool)
    requires PatientNeedsPractitioner(s)
    ensures PatientNeedsPractitioner(SetPractitioner(s, id, writeOk, removeOk))
  {
  }

  /** Setting a patient directly is not checked against the practitioner: with
      no practitioner selected it yields a state the dependency rules out, and
      it stays that way until the practitioner next changes. */
  lemma SetPatientCanBreakDependency(storage: map<string, string>)
    ensures !PatientNeedsPractitioner(SetPatient(State(None, None, storage), Some("p"), true))
  {
  }

  /** Selecting a practitioner and then a patient, both stored successfully,
      is what the next start-up reads back. */
  lemma Restore(s: State, practitioner: string, patient: string, removeOk1: bool, removeOk2: bool)
    requires practitioner != "" && patient != ""
    ensures var t := SetPatient(SetPractitioner(s, Some(practitioner), true, removeOk1), Some(patient), true);
      var r := Start(t.storage, true, true, removeOk2);
      r.practitioner == Some(practitioner) && r.patient == Some(patient)
  {
    var t1 := SetPractitioner(s, Some(practitioner), true, removeOk1);
    var t := SetPatient(t1, Some(patient), true);
    assert t.storage[PractitionerKey] == practitioner;
    assert t.storage[PatientKey] == patient;
  }

  /** `AppStateProvider`: the two cells and the storage they are mirrored into. */
  class SessionStore {
    var activePractitionerId: Option<string>
    var activePatientId: Option<string>
    var storage: map<string, string>

    function Current(): State
      reads this
    {
      State(activePractitionerId, activePatientId, storage)
    }

    /** Mounting: the lazy initialisers read both keys, then the effect runs once. */
    constructor (stored: map<string, string>, readPractitionerOk: bool, readPatientOk: bool, removeOk: bool)
      ensures Current() == Start(stored, readPractitionerOk, readPatientOk, removeOk)
    {
      activePractitionerId := ReadCell(stored, PractitionerKey, readPractitionerOk);
      activePatientId := ReadCell(stored, PatientKey, readPatientOk);
      storage := stored;
      new;
      ClearPatientEffect(removeOk);
    }

    /** One guarded storage write; a failure is swallowed. */
    method Persist(key: string, id: Option<string>, ok: bool)
      modifies this`storage
      ensures storage == Store(old(storage), key, id, ok)
    {
      if ok {
        if Truthy(id) {
          storage := storage[key := id.value];
        } else {
          storage := storage - {key};
        }
      }
    }

    /** The effect on the practitioner cell. */
    method ClearPatientEffect(removeOk: bool)
      modifies this
      ensures Current() == ClearPatient(old(Current()), removeOk)
    {
      if !Truthy(activePractitionerId) {
        activePatientId := None;
        Persist(PatientKey, None, removeOk);
      }
    }

    method SetActivePractitionerId(id: Option<string>, writeOk: bool, removeOk: bool)
      modifies this
      ensures Current() == SetPractitioner(old(Current()), id, writeOk, removeOk)
    {
      var previous := activePractitionerId;
      activePractitionerId := id;
      Persist(PractitionerKey, id, writeOk);
      if activePractitionerId != previous {
        ClearPatientEffect(removeOk);
      }
    }

    method SetActivePatientId(id: Option<string>, writeOk: bool)
      modifies this
      ensures Current() == SetPatient(old(Current()), id, writeOk)
    {
      activePatientId := id;
      Persist(PatientKey, id, writeOk);
    }
  }
}

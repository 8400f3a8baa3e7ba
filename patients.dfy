/** The patients screen: the active practitioner's patients with a preview of
    each one's latest note, and creating and selecting a patient. */
module Patients {
  import opened Js
  import opened Fhir
  import opened ViewModel
  import opened Session
  import Practitioners

  type NameForm = Practitioners.NameForm

  const SelectPractitionerFirst := "Please select a practitioner first"
  const PreviewLength := 80

  /** `text.slice(0, 80) + (text.length > 80 ? "..." : "")` */
  function Preview(text: string): (r: string)
    ensures |r| <= PreviewLength + 3
    ensures |text| <= PreviewLength ==> r == text
    ensures |text| > PreviewLength ==> StartsWith(r, text[..PreviewLength]) && r[PreviewLength..] == "..."
  {
    if |text| > PreviewLength then text[..PreviewLength] + "..." else text
  }

  /** `notesBundle?.entry?.[0]?.resource?.content?.[0]?.attachment?.data` when
      truthy: the data of the first attachment of the first note. */
  function LatestData(notes: Resource): (r: Option<string>)
    ensures r.Some? <==>
      && notes.entry.Some? && |notes.entry.value| > 0
      && notes.entry.value[0].resource.content.Some?
      && |notes.entry.value[0].resource.content.value| > 0
      && Truthy(notes.entry.value[0].resource.content.value[0].data)
    ensures r.Some? ==> r == notes.entry.value[0].resource.content.value[0].data && r.value != ""
  {
    if notes.entry.Some? && |notes.entry.value| > 0 then FirstData(notes.entry.value[0].resource) else None
  }

  /** The preview of one patient: the latest note's decoded text, shortened; ""
      when the lookup failed or the latest note carries no data. */
  function PreviewFor(pid: string, lookup: string -> Response, decode: string -> string): (r: string)
    ensures |r| <= PreviewLength + 3
    ensures NormalizeSearch(lookup(pid), LoadNotesFailed).Fail? ==> r == ""
    ensures NormalizeSearch(lookup(pid), LoadNotesFailed).Ok? ==>
      var data := LatestData(NormalizeSearch(lookup(pid), LoadNotesFailed).value);
      && (data.None? ==> r == "")
      && (data.Some? ==> r == Preview(decode(data.value)))
  {
    match NormalizeSearch(lookup(pid), LoadNotesFailed)
    case Fail(_) => ""
    case Ok(notes) =>
      var data := LatestData(notes);
      if data.Some? then Preview(decode(data.value)) else ""
  }

  /** A patient's preview depends on its own notes lookup alone. */
  lemma PreviewForOwnLookup(pid: string, l1: string -> Response, l2: string -> Response, decode: string -> string)
    requires l1(pid) == l2(pid)
    ensures PreviewFor(pid, l1, decode) == PreviewFor(pid, l2, decode)
  {
  }

  /** `(data?.entry || []).map(e => e.resource?.id).filter(Boolean)`: every
      truthy id among the entries, of whatever resource type. */
  function EntryIds(entries: seq<Entry>): (r: seq<string>)
    ensures forall k :: 0 <= k < |r| ==> r[k] != ""
    ensures forall x :: x in r <==> exists e :: e in entries && e.resource.id == Some(x) && x != ""
  {
    if entries == [] then []
    else
      var rest := EntryIds(entries[1..]);
      assert forall e :: e in entries[1..] ==> e in entries;
      assert forall e :: e in entries ==> e == entries[0] || e in entries[1..];
      if Truthy(entries[0].resource.id) then [entries[0].resource.id.value] + rest else rest
  }

  /** `Object.fromEntries(notes.filter(([, text]) => text))`: a patient is in the
      map exactly when its own preview is non-empty; what the other lookups
      return has no bearing on it. */
  function PreviewMap(ids: seq<string>, lookup: string -> Response, decode: string -> string): (m: map<string, string>)
    ensures forall pid :: pid in m <==> pid in ids && PreviewFor(pid, lookup, decode) != ""
    ensures forall pid :: pid in m ==> m[pid] == PreviewFor(pid, lookup, decode)
  {
    if ids == [] then map[]
    else
      var front := ids[..|ids| - 1];
      var pid := ids[|ids| - 1];
      var m := PreviewMap(front, lookup, decode);
      assert forall x :: x in ids <==> x in front || x == pid;
      var t := PreviewFor(pid, lookup, decode);
      if t != "" then m[pid := t] else m
  }

  /** Whether a patient is in the preview map, and with which text, depends on
      that patient's own notes lookup alone. */
  lemma PreviewMapOwnLookup(ids: seq<string>, l1: string -> Response, l2: string -> Response,
                            decode: string -> string, pid: string)
    requires l1(pid) == l2(pid)
    ensures pid in PreviewMap(ids, l1, decode) <==> pid in PreviewMap(ids, l2, decode)
    ensures pid in PreviewMap(ids, l1, decode) ==> PreviewMap(ids, l1, decode)[pid] == PreviewMap(ids, l2, decode)[pid]
  {
    PreviewForOwnLookup(pid, l1, l2, decode);
  }

  /** `!!activePractitionerId && (given.trim().length > 0 || family.trim().length > 0)`:
      creating needs an active practitioner and a visible character in one of
      the names. */
  predicate CanCreate(activePractitionerId: Option<string>, form: NameForm)
    ensures CanCreate(activePractitionerId, form) <==>
      Truthy(activePractitionerId) && (!AllSpace(form.given) || !AllSpace(form.family))
  {
    Truthy(activePractitionerId) && Practitioners.CanCreate(form)
  }

  /** The search the loading effect sends for `query` and the active practitioner. */
  function ListRequest(query: string, practitionerId: string): (r: Request)
    ensures r.verb == GET && r.path == "/Patient" && r.body == None
    ensures r.params.Keys == {SortKey, "general-practitioner"} + (if query != "" then {"name"} else {})
    ensures r.params[SortKey] == NewestFirst
    ensures r.params["general-practitioner"] == "Practitioner/" + practitionerId
    ensures query != "" ==> r.params["name"] == query
  {
    var params := map[SortKey := NewestFirst, "general-practitioner" := "Practitioner/" + practitionerId];
    Request(GET, "/Patient", if query != "" then params["name" := query] else params, None)
  }

  /** The body POSTed by `createPatient`: active, one name entry built like the
      practitioner's, and exactly one general practitioner. */
  function PatientBody(form: NameForm, practitionerId: string): (r: Resource)
    ensures r.resourceType == Some("Patient") && r.active == Some(true)
    ensures r.name == Some([Practitioners.NameEntry(form)])
    ensures r.generalPractitioner == Some(["Practitioner/" + practitionerId])
    ensures r.id == None && r.entry == None
  {
    Blank.(resourceType := Some("Patient"), active := Some(true),
           name := Some([Practitioners.NameEntry(form)]),
           generalPractitioner := Some(["Practitioner/" + practitionerId]))
  }

  /** A patient created under practitioner "42" references "Practitioner/42". */
  lemma CreatedUnderFortyTwo(form: NameForm)
    ensures PatientBody(form, "42").generalPractitioner.value[0] == "Practitioner/42"
  {
  }

  /** Once created, the patient's label is the form's trimmed "given family". */
  lemma CreatedLabel(form: NameForm, practitionerId: string, id: string)
    ensures Label(PatientBody(form, practitionerId).(id := Some(id))) == Some(Trim(form.given + " " + form.family))
  {
    assert FullName(Practitioners.NameEntry(form)) == form.given + " " + form.family;
  }

  class PatientsScreen {
    var bundle: Option<Resource>
    var notesMap: map<string, string>
    var error: Option<string>
    var query: string
    var form: NameForm
    const session: SessionStore

    constructor (session: SessionStore)
      ensures this.session == session
      ensures bundle == None && notesMap == map[] && error == None && query == "" && form == Practitioners.EmptyForm
    {
      this.session := session;
      bundle, notesMap, error, query, form := None, map[], None, "", Practitioners.EmptyForm;
    }

    /** The loading effect: nothing without a practitioner; otherwise search that
        practitioner's patients, then fill the preview map from one notes lookup
        per id. */
    method Load(resp: Response, lookup: string -> Response, decode: string -> string) returns (req: Option<Request>)
      modifies this
      ensures query == old(query) && form == old(form)
      ensures !Truthy(session.activePractitionerId) ==>
        req == None && bundle == old(bundle) && notesMap == old(notesMap) && error == old(error)
      ensures Truthy(session.activePractitionerId) ==>
        && req == Some(ListRequest(query, session.activePractitionerId.value))
        && (match NormalizeSearch(resp, LoadPatientsFailed)
            case Ok(data) => bundle == Some(data) && error == None
                             && notesMap == PreviewMap(EntryIds(Entries(Some(data))), lookup, decode)
            case Fail(m) => bundle == old(bundle) && notesMap == old(notesMap) && error == Some(ErrorText(m)))
    {
      if !Truthy(session.activePractitionerId) {
        return None;
      }
      error := None;
      var r, out := SearchPatients(OrUndefined(query), session.activePractitionerId, resp);
      assert r.params == ListRequest(query, session.activePractitionerId.value).params;
      req := Some(r);
      match out
      case Ok(data) =>
        bundle := Some(data);
        notesMap := PreviewMap(EntryIds(Entries(Some(data))), lookup, decode);
      case Fail(m) =>
        error := Some(ErrorText(m));
    }

    /** `createPatient`: refused without a practitioner; otherwise POST the body
        and, on success, select the new patient and reset the form. */
    method CreatePatient(resp: Response, writeOk: bool) returns (sent: Option<Request>)
      modifies this, session
      ensures query == old(query) && bundle == old(bundle) && notesMap == old(notesMap)
      ensures !Truthy(old(session.activePractitionerId)) ==>
        && sent == None && error == Some(SelectPractitionerFirst)
        && form == old(form) && session.Current() == old(session.Current())
      ensures Truthy(old(session.activePractitionerId)) ==>
        && sent == Some(Request(POST, "/Patient", map[],
                                Some(PatientBody(old(form), old(session.activePractitionerId).value))))
        && (match CheckCreated(resp, CreatePatientFailed)
            case Ok(created) =>
              session.Current() == SetPatient(old(session.Current()), created.id, writeOk)
              && form == Practitioners.EmptyForm && error == None
            case Fail(m) =>
              session.Current() == old(session.Current()) && form == old(form) && error == Some(ErrorText(m)))
    {
      if !Truthy(session.activePractitionerId) {
        error := Some(SelectPractitionerFirst);
        return None;
      }
      error := None;
      var body := PatientBody(form, session.activePractitionerId.value);
      var r, out := Fhir.CreatePatient(body, resp);
      sent := Some(r);
      match out
      case Ok(created) =>
        session.SetActivePatientId(created.id, writeOk);
        form := Practitioners.EmptyForm;
      case Fail(m) =>
        error := Some(ErrorText(m));
    }

    /** `selectPatient(id)`: the active patient becomes exactly `id`. */
    method SelectPatient(id: string, writeOk: bool)
      modifies session
      ensures session.Current() == SetPatient(old(session.Current()), Some(id), writeOk)
    {
      session.SetActivePatientId(Some(id), writeOk);
    }
  }
}

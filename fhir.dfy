/** The FHIR client: the resources it exchanges, the requests it sends for the
    search, create and update interactions of the HL7 FHIR R4 RESTful API, and
    how it turns the server's reply into a result or a user-facing error. */
module Fhir {
  import opened Js

  datatype HumanName = HumanName(family: Option<string>, given: Option<seq<string>>, prefix: Option<seq<string>>)

  datatype Attachment = Attachment(contentType: Option<string>, data: Option<string>, title: Option<string>)

  datatype Meta = Meta(lastUpdated: Option<string>)

  /** One JSON object as the client sees it. The same record serves for a
      Practitioner, a Patient, a DocumentReference and a search Bundle; every
      member is optional, as in the source's type declarations. References
      (`subject`, `author`, `generalPractitioner`) are kept as their
      `reference` strings, and `type` as its `text`. */
  datatype Resource = Resource(
    resourceType: Option<string>,
    id: Option<string>,
    active: Option<bool>,
    name: Option<seq<HumanName>>,
    generalPractitioner: Option<seq<string>>,
    status: Option<string>,
    typeText: Option<string>,
    subject: Option<string>,
    author: Option<seq<string>>,
    description: Option<string>,
    content: Option<seq<Attachment>>,
    meta: Option<Meta>,
    entry: Option<seq<Entry>>)

  /** A Bundle entry; `resource` is where the screens look. */
  datatype Entry = Entry(resource: Resource)

  /** `{}`: an object with no members at all. */
  const Blank: Resource := Resource(None, None, None, None, None, None, None, None, None, None, None, None, None)

  /** What `return { entry: [] }` builds. */
  const EmptyBundle: Resource := Blank.(entry := Some([]))

  datatype Verb = GET | POST | PUT

  /** A request as handed to the transport: verb, path below the base URL,
      query parameters and JSON body. */
  datatype Request = Request(verb: Verb, path: string, params: map<string, string>, body: Option<Resource>)

  /** What the transport delivers: a failure (network error or a non-2xx status),
      or a 2xx reply whose body is an object (`Some`) or something without members (`None`). */
  datatype Response = TransportFailure | Received(data: Option<Resource>)

  /** A resolved promise carrying a value, or a rejected one carrying an `Error` message. */
  datatype Outcome<T> = Ok(value: T) | Fail(message: string)

  const SortKey := "_sort"
  const NewestFirst := "-_lastUpdated"

  const LoadPractitionersFailed := "Failed to load practitioners. Please try again."
  const LoadPatientsFailed := "Failed to load patients. Please try again."
  const LoadNotesFailed := "Failed to load notes. Please try again."
  const CreatePractitionerFailed := "Failed to create practitioner. Please try again."
  const CreatePatientFailed := "Failed to create patient. Please try again."
  const CreateNoteFailed := "Failed to create note. Please try again."
  const UpdateNoteFailed := "Failed to update note. Please try again."

  /** `String(e)` of an `Error` carrying `message`. */
  function ErrorText(message: string): (r: string)
    ensures |r| == |message| + 7 && r[7..] == message && r[..7] == "Error: "
  {
    "Error: " + message
  }

  /** `res.data?.entry` is truthy: any present array is. */
  predicate HasEntry(data: Option<Resource>) {
    data.Some? && data.value.entry.Some?
  }

  /** `res.data?.id` is truthy. */
  predicate HasId(data: Option<Resource>) {
    data.Some? && Truthy(data.value.id)
  }

  /** The shared tail of every search: a missing `entry` becomes an empty bundle,
      any other reply is passed through, a transport failure becomes `failure`. */
  function NormalizeSearch(resp: Response, failure: string): (r: Outcome<Resource>)
    ensures r.Fail? <==> resp.TransportFailure?
    ensures r.Fail? ==> r.message == failure
    ensures resp.Received? && HasEntry(resp.data) ==> r == Ok(resp.data.value)
    ensures resp.Received? && !HasEntry(resp.data) ==> r == Ok(EmptyBundle)
    ensures r.Ok? ==> r.value.entry.Some?
  {
    match resp
    case TransportFailure => Fail(failure)
    case Received(data) => if HasEntry(data) then Ok(data.value) else Ok(EmptyBundle)
  }

  /** The shared tail of create and update: the reply is returned unchanged when it
      carries a non-empty id; otherwise the "Invalid response from server" error
      is thrown inside the same `try` and so ends as `failure`, like a transport failure. */
  function CheckCreated(resp: Response, failure: string): (r: Outcome<Resource>)
    ensures r.Ok? <==> resp.Received? && HasId(resp.data)
    ensures r.Ok? ==> r.value == resp.data.value && Truthy(r.value.id)
    ensures r.Fail? ==> r.message == failure
  {
    if resp.Received? && HasId(resp.data) then Ok(resp.data.value) else Fail(failure)
  }

  /** A 2xx reply without an id and a transport failure look the same to the caller. */
  lemma MissingIdLikeTransportFailure(data: Option<Resource>, failure: string)
    requires !HasId(data)
    ensures CheckCreated(Received(data), failure) == CheckCreated(TransportFailure, failure)
  {
  }

  /** The body of `updateNote`: `{resourceType: "DocumentReference", id, ...note}`.
      Members of `note` come last and therefore win, `resourceType` and `id` included. */
  function UpdateBody(id: string, note: Resource): (r: Resource)
    ensures r.resourceType == (if note.resourceType.Some? then note.resourceType else Some("DocumentReference"))
    ensures r.id == (if note.id.Some? then note.id else Some(id))
    ensures r.(resourceType := note.resourceType, id := note.id) == note
  {
    note.(resourceType := if note.resourceType.Some? then note.resourceType else Some("DocumentReference"),
          id := if note.id.Some? then note.id else Some(id))
  }

  /** `searchPractitioners(name?)`: GET /Practitioner, newest first, with `name` only when truthy. */
  method SearchPractitioners(name: Option<string>, resp: Response) returns (req: Request, out: Outcome<Resource>)
    ensures req.verb == GET && req.path == "/Practitioner" && req.body == None
    ensures req.params.Keys == {SortKey} + (if Truthy(name) then {"name"} else {})
    ensures req.params[SortKey] == NewestFirst
    ensures Truthy(name) ==> req.params["name"] == name.value
    ensures out == NormalizeSearch(resp, LoadPractitionersFailed)
  {
    var params := map[SortKey := NewestFirst];
    if Truthy(name) {
      params := params["name" := name.value];
    }
    req := Request(GET, "/Practitioner", params, None);
    out := NormalizeSearch(resp, LoadPractitionersFailed);
  }

  /** `createPractitioner(prac)`: POST /Practitioner with `prac` as the body. */
  method CreatePractitioner(prac: Resource, resp: Response) returns (req: Request, out: Outcome<Resource>)
    ensures req == Request(POST, "/Practitioner", map[], Some(prac))
    ensures out == CheckCreated(resp, CreatePractitionerFailed)
  {
    req := Request(POST, "/Practitioner", map[], Some(prac));
    out := CheckCreated(resp, CreatePractitionerFailed);
  }

  /** `searchPatients({name, practitionerId})`: GET /Patient, newest first, with
      `name` and `general-practitioner` each only when the argument is truthy. */
  method SearchPatients(name: Option<string>, practitionerId: Option<string>, resp: Response)
    returns (req: Request, out: Outcome<Resource>)
    ensures req.verb == GET && req.path == "/Patient" && req.body == None
    ensures req.params.Keys == {SortKey} + (if Truthy(name) then {"name"} else {})
                               + (if Truthy(practitionerId) then {"general-practitioner"} else {})
    ensures req.params[SortKey] == NewestFirst
    ensures Truthy(name) ==> req.params["name"] == name.value
    ensures Truthy(practitionerId) ==> req.params["general-practitioner"] == "Practitioner/" + practitionerId.value
    ensures out == NormalizeSearch(resp, LoadPatientsFailed)
  {
    var query := map[SortKey := NewestFirst];
    if Truthy(name) {
      query := query["name" := name.value];
    }
    if Truthy(practitionerId) {
      query := query["general-practitioner" := "Practitioner/" + practitionerId.value];
    }
    req := Request(GET, "/Patient", query, None);
    out := NormalizeSearch(resp, LoadPatientsFailed);
  }

  /** `createPatient(patient)`: POST /Patient. */
  method CreatePatient(patient: Resource, resp: Response) returns (req: Request, out: Outcome<Resource>)
    ensures req == Request(POST, "/Patient", map[], Some(patient))
    ensures out == CheckCreated(resp, CreatePatientFailed)
  {
    req := Request(POST, "/Patient", map[], Some(patient));
    out := CheckCreated(resp, CreatePatientFailed);
  }

  /** `searchNotes(patientId)`: GET /DocumentReference for `Patient/{patientId}`,
      newest first; the subject is sent even for an empty id. */
  method SearchNotes(patientId: string, resp: Response) returns (req: Request, out: Outcome<Resource>)
    ensures req.verb == GET && req.path == "/DocumentReference" && req.body == None
    ensures req.params.Keys == {"subject", SortKey}
    ensures req.params["subject"] == "Patient/" + patientId && req.params[SortKey] == NewestFirst
    ensures out == NormalizeSearch(resp, LoadNotesFailed)
  {
    req := Request(GET, "/DocumentReference", map["subject" := "Patient/" + patientId, SortKey := NewestFirst], None);
    out := NormalizeSearch(resp, LoadNotesFailed);
  }

  /** `createNote(note)`: POST /DocumentReference. */
  method CreateNote(note: Resource, resp: Response) returns (req: Request, out: Outcome<Resource>)
    ensures req == Request(POST, "/DocumentReference", map[], Some(note))
    ensures out == CheckCreated(resp, CreateNoteFailed)
  {
    req := Request(POST, "/DocumentReference", map[], Some(note));
    out := CheckCreated(resp, CreateNoteFailed);
  }

  /** `updateNote(id, note)`: PUT at the argument id, whatever `note.id` says. */
  method UpdateNote(id: string, note: Resource, resp: Response) returns (req: Request, out: Outcome<Resource>)
    ensures req == Request(PUT, "/DocumentReference/" + id, map[], Some(UpdateBody(id, note)))
    ensures out == CheckCreated(resp, UpdateNoteFailed)
  {
    req := Request(PUT, "/DocumentReference/" + id, map[], Some(UpdateBody(id, note)));
    out := CheckCreated(resp, UpdateNoteFailed);
  }

  /** Searching practitioners for "Smith" sends `GET /Practitioner?_sort=-_lastUpdated&name=Smith`. */
  method SearchSmith(resp: Response) returns (req: Request)
    ensures req == Request(GET, "/Practitioner", map["_sort" := "-_lastUpdated", "name" := "Smith"], None)
  {
    var out;
    req, out := SearchPractitioners(Some("Smith"), resp);
    assert req.params == map["_sort" := "-_lastUpdated", "name" := "Smith"];
  }

  /** Updating note "7" with only a new description sends
      `PUT /DocumentReference/7` with the type tag and the id filled in. */
  method UpdateSeven(resp: Response) returns (req: Request)
    ensures req.verb == PUT && req.path == "/DocumentReference/7"
    ensures req.body == Some(Blank.(resourceType := Some("DocumentReference"), id := Some("7"), description := Some("New title")))
  {
    var out;
    req, out := UpdateNote("7", Blank.(description := Some("New title")), resp);
  }
}

/** The practitioners screen: list, search, create and select a practitioner. */
module Practitioners {
  import opened Js
  import opened Fhir
  import opened ViewModel
  import opened Session

  /** The two inputs of the "add" form. */
  datatype NameForm = NameForm(given: string, family: string)

  const EmptyForm := NameForm("", "")

  /** `form.given.trim().length > 0 || form.family.trim().length > 0`: creating
      is offered exactly when one of the names has a visible character; no
      session state is consulted. */
  predicate CanCreate(form: NameForm)
    ensures CanCreate(form) <==> !AllSpace(form.given) || !AllSpace(form.family)
  {
    TrimEmptyIffAllSpace(form.given);
    TrimEmptyIffAllSpace(form.family);
    Trim(form.given) != "" || Trim(form.family) != ""
  }

  /** The search `loadPractitioners` sends for a search box holding `query`. */
  function ListRequest(query: string): (r: Request)
    ensures r.verb == GET && r.path == "/Practitioner" && r.body == None
    ensures r.params.Keys == {SortKey} + (if query != "" then {"name"} else {})
    ensures r.params[SortKey] == NewestFirst && (query != "" ==> r.params["name"] == query)
  {
    Request(GET, "/Practitioner", if query != "" then map[SortKey := NewestFirst, "name" := query] else map[SortKey := NewestFirst], None)
  }

  /** `{ given: given ? [given] : undefined, family: family || undefined }` */
  function NameEntry(form: NameForm): (r: HumanName)
    ensures r.given.Some? <==> form.given != ""
    ensures r.given.Some? ==> r.given.value == [form.given]
    ensures r.family.Some? <==> form.family != ""
    ensures r.family.Some? ==> r.family.value == form.family
    ensures r.prefix == None
  {
    HumanName(OrUndefined(form.family), if form.given != "" then Some([form.given]) else None, None)
  }

  /** The body POSTed by `createPractitioner`. */
  function PractitionerBody(form: NameForm): (r: Resource)
    ensures r.resourceType == Some("Practitioner") && r.active == Some(true)
    ensures r.name == Some([NameEntry(form)])
    ensures r.id == None && r.generalPractitioner == None && r.entry == None
  {
    Blank.(resourceType := Some("Practitioner"), active := Some(true), name := Some([NameEntry(form)]))
  }

  /** Once the server has given the new practitioner an id, its label is the
      form's "given family", trimmed, whichever of the two was left empty. */
  lemma CreatedLabel(form: NameForm, id: string)
    ensures Label(PractitionerBody(form).(id := Some(id))) == Some(Trim(form.given + " " + form.family))
  {
    assert FullName(NameEntry(form)) == form.given + " " + form.family;
  }

  class PractitionersScreen {
    var bundle: Option<Resource>
    var error: Option<string>
    var query: string
    var form: NameForm
    const session: SessionStore

    constructor (session: SessionStore)
      ensures this.session == session
      ensures bundle == None && error == None && query == "" && form == EmptyForm
    {
      this.session := session;
      bundle, error, query, form := None, None, "", EmptyForm;
    }

    /** `loadPractitioners`: search with `query || undefined`; the bundle on
        success, the error text on failure. */
    method LoadPractitioners(resp: Response) returns (req: Request)
      modifies this
      ensures req == ListRequest(query)
      ensures query == old(query) && form == old(form)
      ensures match NormalizeSearch(resp, LoadPractitionersFailed)
              case Ok(data) => bundle == Some(data) && error == None
              case Fail(m) => bundle == old(bundle) && error == Some(ErrorText(m))
    {
      error := None;
      var out;
      req, out := SearchPractitioners(OrUndefined(query), resp);
      assert req.params == ListRequest(query).params;
      match out
      case Ok(data) => bundle := Some(data);
      case Fail(m) => error := Some(ErrorText(m));
    }

    /** `createPractitioner`: POST the form; on success select the new id,
        reset the form and reload the list (errors of the reload stay inside it). */
    method CreatePractitioner(resp: Response, refreshResp: Response, writeOk: bool, removeOk: bool)
      returns (sent: Request, refresh: Option<Request>)
      modifies this, session
      ensures sent == Request(POST, "/Practitioner", map[], Some(PractitionerBody(old(form))))
      ensures query == old(query)
      ensures match CheckCreated(resp, CreatePractitionerFailed)
              case Ok(created) =>
                && session.Current() == SetPractitioner(old(session.Current()), created.id, writeOk, removeOk)
                && form == EmptyForm && refresh == Some(ListRequest(query))
                && (match NormalizeSearch(refreshResp, LoadPractitionersFailed)
                    case Ok(data) => bundle == Some(data) && error == None
                    case Fail(m) => bundle == old(bundle) && error == Some(ErrorText(m)))
              case Fail(m) =>
                && session.Current() == old(session.Current())
                && form == old(form) && bundle == old(bundle) && refresh == None
                && error == Some(ErrorText(m))
    {
      error := None;
      var body := PractitionerBody(form);
      var out;
      sent, out := Fhir.CreatePractitioner(body, resp);
      match out
      case Ok(created) =>
        session.SetActivePractitionerId(created.id, writeOk, removeOk);
        form := EmptyForm;
        var r := LoadPractitioners(refreshResp);
        refresh := Some(r);
      case Fail(m) =>
        error := Some(ErrorText(m));
        refresh := None;
    }

    /** `selectPractitioner(id)`: the active practitioner becomes exactly `id`. */
    method SelectPractitioner(id: string, writeOk: bool, removeOk: bool)
      modifies session
      ensures session.Current() == SetPractitioner(old(session.Current()), Some(id), writeOk, removeOk)
      ensures session.activePractitionerId == Some(id)
    {
      session.SetActivePractitionerId(Some(id), writeOk, removeOk);
    }
  }
}

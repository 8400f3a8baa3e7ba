/** The notes screen: the active patient's clinical notes (DocumentReference
    resources), writing a new note or editing one, and the PDF file name.
    Note bodies travel base64-encoded; the browser's `btoa` and `atob` are
    passed in as `encode` and `decode` and left uninterpreted. */
module Notes {
  import opened Js
  import opened Fhir
  import opened ViewModel
  import opened Session
  import Patients

  datatype NoteForm = NoteForm(title: string, text: string)

  const EmptyForm := NoteForm("", "")

  /** A note as listed. */
  datatype NoteItem = NoteItem(id: Option<string>, title: Option<string>, text: Option<string>, meta: Option<Meta>)

  const SelectPatientFirst := "Please select a patient first"

  /** `decodeAttachmentToText`: the id, the description as title, the decoded
      data of the first attachment when there is any, and the meta unchanged. */
  function DecodeAttachment(note: Resource, decode: string -> string): (r: NoteItem)
    ensures r.id == note.id && r.title == note.description && r.meta == note.meta
    ensures r.text.Some? <==> FirstData(note).Some?
    ensures r.text.Some? ==> r.text.value == decode(FirstData(note).value)
  {
    var data := FirstData(note);
    NoteItem(note.id, note.description, if data.Some? then Some(decode(data.value)) else None, note.meta)
  }

  /** `notes`: the DocumentReference resources of the bundle, each decoded, in order. */
  function NotesList(bundle: Option<Resource>, decode: string -> string): (r: seq<NoteItem>)
    ensures bundle.None? ==> r == []
    ensures |r| == |ResourcesOf(bundle, "DocumentReference")|
    ensures forall k :: 0 <= k < |r| ==> r[k] == DecodeAttachment(ResourcesOf(bundle, "DocumentReference")[k], decode)
  {
    var docs := ResourcesOf(bundle, "DocumentReference");
    seq(|docs|, k requires 0 <= k < |docs| => DecodeAttachment(docs[k], decode))
  }

  /** `notes.find(n => n.id === id)`: the first note carrying the id. */
  function Find(notes: seq<NoteItem>, id: string): (r: Option<NoteItem>)
    ensures r.None? <==> forall k :: 0 <= k < |notes| ==> notes[k].id != Some(id)
    ensures r.Some? ==> exists k :: 0 <= k < |notes| && notes[k] == r.value && r.value.id == Some(id)
                                    && forall j :: 0 <= j < k ==> notes[j].id != Some(id)
  {
    if notes == [] then None
    else if notes[0].id == Some(id) then Some(notes[0])
    else
      var r := Find(notes[1..], id);
      if r.Some? then
        var k :| 0 <= k < |notes[1..]| && notes[1..][k] == r.value && r.value.id == Some(id)
                 && forall j :: 0 <= j < k ==> notes[1..][j].id != Some(id);
        assert notes[k + 1] == r.value;
        r
      else r
  }

  /** `canCreate`: both ids set and a visible character in the title or the text. */
  predicate CanCreate(practitionerId: Option<string>, patientId: Option<string>, form: NoteForm)
    ensures CanCreate(practitionerId, patientId, form) <==>
      Truthy(practitionerId) && Truthy(patientId) && (!AllSpace(form.title) || !AllSpace(form.text))
  {
    TrimEmptyIffAllSpace(form.title);
    TrimEmptyIffAllSpace(form.text);
    Truthy(practitionerId) && Truthy(patientId) && (Trim(form.title) != "" || Trim(form.text) != "")
  }

  /** `baseNote`: a current clinical note about the patient by the practitioner,
      with exactly one plain-text attachment carrying the encoded text. */
  function NoteBody(form: NoteForm, patientId: string, practitionerId: string, encode: string -> string): (r: Resource)
    ensures r.resourceType == Some("DocumentReference") && r.status == Some("current")
    ensures r.typeText == Some("Clinical Note")
    ensures r.subject == Some("Patient/" + patientId)
    ensures r.author == Some(["Practitioner/" + practitionerId])
    ensures r.description == Some(if form.title != "" then form.title else "Untitled Note")
    ensures r.content.Some? && |r.content.value| == 1
    ensures r.content.value[0].contentType == Some("text/plain")
    ensures r.content.value[0].title == Some(if form.title != "" then form.title else "note.txt")
    ensures r.content.value[0].data == Some(encode(form.text))
    ensures r.id == None && r.entry == None
  {
    Blank.(resourceType := Some("DocumentReference"),
           status := Some("current"),
           typeText := Some("Clinical Note"),
           subject := Some("Patient/" + patientId),
           author := Some(["Practitioner/" + practitionerId]),
           description := Some(Or(Some(form.title), "Untitled Note")),
           content := Some([Attachment(Some("text/plain"), Some(encode(form.text)), Some(Or(Some(form.title), "note.txt")))]))
  }

  /** What `startEdit` loads from a listed note. */
  function EditForm(n: NoteItem): (r: NoteForm)
    ensures r.title == (if Truthy(n.title) then n.title.value else "")
    ensures r.text == (if Truthy(n.text) then n.text.value else "")
  {
    NoteForm(Or(n.title, ""), Or(n.text, ""))
  }

  /** A saved note reads back as written, when the codec is lossless on the text
      and `btoa` gives "" only for "": the listed text is the form's, absent
      where the form's was empty, and editing it reloads the same form,
      except that an empty title comes back as "Untitled Note". */
  lemma SavedNoteReadsBack(form: NoteForm, patientId: string, practitionerId: string,
                           encode: string -> string, decode: string -> string, id: string)
    requires decode(encode(form.text)) == form.text
    requires encode(form.text) == "" <==> form.text == ""
    ensures var n := DecodeAttachment(NoteBody(form, patientId, practitionerId, encode).(id := Some(id)), decode);
      && n.id == Some(id)
      && n.text == (if form.text == "" then None else Some(form.text))
      && EditForm(n) == NoteForm(if form.title != "" then form.title else "Untitled Note", form.text)
  {
  }

  const DefaultFileBase := "clinical-note"

  lemma DefaultFileBaseKept()
    ensures ReplaceSpaceRuns(DefaultFileBase, '-') == DefaultFileBase
  {
    VisibleAscii('-');
    forall i | 0 <= i < |DefaultFileBase| ensures !IsSpace(DefaultFileBase[i]) {
      VisibleAscii(DefaultFileBase[i]);
    }
    ReplaceSpaceRunsNoSpace(DefaultFileBase, '-');
  }

  /** Appending ".pdf" adds no whitespace. */
  lemma PdfSuffixNoSpace(base: string)
    requires forall i :: 0 <= i < |base| ==> !IsSpace(base[i])
    ensures forall i :: 0 <= i < |base + ".pdf"| ==> !IsSpace((base + ".pdf")[i])
  {
    forall i | 0 <= i < |base + ".pdf"| ensures !IsSpace((base + ".pdf")[i]) {
      if i < |base| {
        assert (base + ".pdf")[i] == base[i];
      } else {
        VisibleAscii((base + ".pdf")[i]);
      }
    }
  }

  /** The PDF file name: the title, or "clinical-note", with each whitespace run
      turned into "-", then ".pdf". */
  function PdfFileName(title: Option<string>): (r: string)
    ensures |r| > 4 && r[|r| - 4..] == ".pdf"
    ensures forall i :: 0 <= i < |r| ==> !IsSpace(r[i])
    ensures !Truthy(title) ==> r == DefaultFileBase + ".pdf"
    ensures r == ReplaceSpaceRuns(Or(title, DefaultFileBase), '-') + ".pdf"
  {
    VisibleAscii('-');
    var base := ReplaceSpaceRuns(Or(title, DefaultFileBase), '-');
    ReplaceSpaceRunsVisible(Or(title, DefaultFileBase), '-');
    DefaultFileBaseKept();
    PdfSuffixNoSpace(base);
    base + ".pdf"
  }

  /** A title without whitespace is kept as it is. */
  lemma PdfFileNamePlainTitle(title: string)
    requires title != ""
    requires forall i :: 0 <= i < |title| ==> !IsSpace(title[i])
    ensures PdfFileName(Some(title)) == title + ".pdf"
  {
    VisibleAscii('-');
    ReplaceSpaceRunsNoSpace(title, '-');
  }

  /** A run of blanks between two words of a title becomes a single dash. */
  lemma PdfFileNameSpacedTitle(a: string, w: string, b: string)
    requires a != [] && forall i :: 0 <= i < |a| ==> !IsSpace(a[i])
    requires w != [] && AllSpace(w)
    requires b != [] && forall i :: 0 <= i < |b| ==> !IsSpace(b[i])
    ensures PdfFileName(Some(a + w + b)) == a + "-" + b + ".pdf"
  {
    ReplaceSpaceRunsSplit(a, w, b, '-');
    ReplaceSpaceRunsNoSpace(a, '-');
    ReplaceSpaceRunsNoSpace(b, '-');
    assert Or(Some(a + w + b), DefaultFileBase) == a + w + b;
  }

  class NotesScreen {
    var bundle: Option<Resource>
    var error: Option<string>
    var form: NoteForm
    var editingId: Option<string>
    const session: SessionStore

    constructor (session: SessionStore)
      ensures this.session == session
      ensures bundle == None && error == None && form == EmptyForm && editingId == None
    {
      this.session := session;
      bundle, error, form, editingId := None, None, EmptyForm, None;
    }

    /** The notes-loading effect: nothing without a patient; otherwise search its notes. */
    method Load(resp: Response) returns (req: Option<Request>)
      modifies this
      ensures form == old(form) && editingId == old(editingId)
      ensures !Truthy(session.activePatientId) ==> req == None && bundle == old(bundle) && error == old(error)
      ensures Truthy(session.activePatientId) ==>
        && req == Some(Request(GET, "/DocumentReference",
                            map["subject" := "Patient/" + session.activePatientId.value, SortKey := NewestFirst], None))
        && (match NormalizeSearch(resp, LoadNotesFailed)
            case Ok(data) => bundle == Some(data) && error == None
            case Fail(m) => bundle == old(bundle) && error == Some(ErrorText(m)))
    {
      if !Truthy(session.activePatientId) {
        return None;
      }
      error := None;
      var r, out := SearchNotes(session.activePatientId.value, resp);
      assert r.params == map["subject" := "Patient/" + session.activePatientId.value, SortKey := NewestFirst];
      req := Some(r);
      match out
      case Ok(data) => bundle := Some(data);
      case Fail(m) => error := Some(ErrorText(m));
    }

    /** `saveNote`: refused without a practitioner, then without a patient;
        otherwise update the note being edited (and stop editing) or create a
        new one, and only on success reset the form and reload the list. */
    method SaveNote(resp: Response, refreshResp: Response, encode: string -> string)
      returns (sent: Option<Request>, refresh: Option<Request>)
      modifies this
      ensures !Truthy(session.activePractitionerId) ==>
        sent == None && refresh == None && error == Some(Patients.SelectPractitionerFirst)
        && form == old(form) && editingId == old(editingId) && bundle == old(bundle)
      ensures Truthy(session.activePractitionerId) && !Truthy(session.activePatientId) ==>
        sent == None && refresh == None && error == Some(SelectPatientFirst)
        && form == old(form) && editingId == old(editingId) && bundle == old(bundle)
      ensures Truthy(session.activePractitionerId) && Truthy(session.activePatientId) ==>
        var body := NoteBody(old(form), session.activePatientId.value, session.activePractitionerId.value, encode);
        var updating := Truthy(old(editingId));
        && sent == Some(if updating then Request(PUT, "/DocumentReference/" + old(editingId).value, map[],
                                                 Some(UpdateBody(old(editingId).value, body)))
                        else Request(POST, "/DocumentReference", map[], Some(body)))
        && match CheckCreated(resp, if updating then UpdateNoteFailed else CreateNoteFailed)
           case Ok(_) =>
             && form == EmptyForm && editingId == (if updating then None else old(editingId))
             && refresh == Some(Request(GET, "/DocumentReference",
                                 map["subject" := "Patient/" + session.activePatientId.value, SortKey := NewestFirst], None))
             && (match NormalizeSearch(refreshResp, LoadNotesFailed)
                 case Ok(data) => bundle == Some(data) && error == None
                 case Fail(m) => bundle == old(bundle) && error == Some(ErrorText(m)))
           case Fail(m) =>
             form == old(form) && editingId == old(editingId) && bundle == old(bundle)
             && refresh == None && error == Some(ErrorText(m))
    {
      if !Truthy(session.activePractitionerId) {
        error := Some(Patients.SelectPractitionerFirst);
        return None, None;
      }
      if !Truthy(session.activePatientId) {
        error := Some(SelectPatientFirst);
        return None, None;
      }
      error := None;
      var patientId := session.activePatientId.value;
      var body := NoteBody(form, patientId, session.activePractitionerId.value, encode);
      var r, out;
      if Truthy(editingId) {
        r, out := UpdateNote(editingId.value, body, resp);
        if out.Ok? {
          editingId := None;
        }
      } else {
        r, out := CreateNote(body, resp);
      }
      sent := Some(r);
      if out.Fail? {
        error := Some(ErrorText(out.message));
        return sent, None;
      }
      form := EmptyForm;
      var q, notes := SearchNotes(patientId, refreshResp);
      assert q.params == map["subject" := "Patient/" + patientId, SortKey := NewestFirst];
      refresh := Some(q);
      match notes
      case Ok(data) => bundle := Some(data);
      case Fail(m) => error := Some(ErrorText(m));
    }

    /** `startEdit(id)`: an id not among the listed notes changes nothing;
        otherwise edit that note, its title and text in the form. */
    method StartEdit(id: string, decode: string -> string)
      modifies this
      ensures bundle == old(bundle) && error == old(error)
      ensures Find(NotesList(bundle, decode), id).None? ==> form == old(form) && editingId == old(editingId)
      ensures Find(NotesList(bundle, decode), id).Some? ==>
        editingId == Some(id) && form == EditForm(Find(NotesList(bundle, decode), id).value)
    {
      var note := Find(NotesList(bundle, decode), id);
      if note.None? {
        return;
      }
      editingId := Some(id);
      form := EditForm(note.value);
    }

    /** The Cancel button while editing. */
    method CancelEdit()
      modifies this
      ensures editingId == None && form == EmptyForm
      ensures bundle == old(bundle) && error == old(error)
    {
      editingId := None;
      form := EmptyForm;
    }
  }
}

# Clinical notes front-end: a verified model of its logic

The application is a browser front-end over a public HL7 FHIR R4 server. A
user picks a practitioner, then one of that practitioner's patients, and
writes, edits and exports plain-text clinical notes. The notes are stored as
DocumentReference resources. This project models the parts of it that are
logic rather than rendering:

- **The FHIR client** (`fhir.dfy`, module `Fhir`). It shapes the requests for
  three interactions of the FHIR R4 RESTful API: search (section 3.1.0.8 of
  the R4 `http` page, always with `_sort=-_lastUpdated`), create (3.1.0.7)
  and update (3.1.0.4). A request is a value: verb, path, query map and
  optional body. The server's reply is an abstract input: a transport failure,
  or a 2xx body. The model proves what each call sends and what it returns or
  raises.
- **The session store** (`session.dfy`, module `Session`). It holds the
  active practitioner id and the active patient id, and mirrors both
  best-effort into a string key-value store under `activePractitionerId` and
  `activePatientId`. A reaction clears the patient when the practitioner
  changes to a falsy value. The transitions are functions on a `State` value.
  The class `SessionStore` has the three fields, and each of its methods is
  proved to perform one of those transitions.
- **The screens' view-model logic** (`viewmodel.dfy`, `practitioners.dfy`,
  `patients.dfy`, `notes.dfy`, `app.dfy`). This covers:
  - reading resources out of a bundle;
  - labels and initials;
  - the latest-note preview and the map of previews;
  - the "can create" guards;
  - the Practitioner, Patient and DocumentReference bodies;
  - saving and editing a note;
  - the PDF file name;
  - the navigation "is active" test.

  Each screen is a class. Its fields are the React state the screen updates
  (form, error, bundle, editing id), plus a reference to the session store.
- `js.dfy` (module `Js`) models the JavaScript built-ins this logic depends on:
  - truthiness, with `""` and `undefined` both falsy;
  - `trim`, using ECMAScript's WhiteSpace and LineTerminator set;
  - `split` and `join`;
  - `startsWith`;
  - `toUpperCase`, for ASCII only;
  - `replace(/\s+/g, "-")`.

Inputs that come from outside the program are parameters:
- server replies;
- whether each storage access succeeds;
- the base64 functions `btoa` and `atob`, passed as `encode`/`decode` and left
  uninterpreted.

JavaScript `||` is modelled exactly. An empty string counts as unset in every
`if (id)`, `x || undefined` and `x || default`.

Behaviour of the code that the model makes explicit:
- `setActivePatientId` does not look at the practitioner. The rule "no
  patient without a practitioner" is restored only at start-up and when the
  practitioner value changes. `Session.SetPatientCanBreakDependency` exhibits
  a state that breaks the rule. `Session.SetPractitionerKeepsDependency`
  shows that practitioner changes preserve it.
- The clearing reaction runs when the practitioner value changes, not on every
  call. Setting the practitioner to the falsy value it already holds does not
  clear the patient.
- A 2xx create/update reply without an id throws "Invalid response from
  server" inside the same `try` as the request. The `catch` replaces it, so
  the caller sees the same resource-specific message as for a transport
  failure.
- The screens show `String(e)` of the client's error, i.e. `"Error: "` followed
  by the message (`Fhir.ErrorText`). The "select first" guard messages are
  shown as they are.
- `replace(/\s+/g, "-")` is modelled as a left-to-right scan that writes one
  dash at the start of each whitespace run and copies every other character
  (`Js.Dashes`).

## Model

| member | source | states |
|---|---|---|
| `Fhir.NormalizeSearch` | src/fhir.ts:79-86 | a reply without a truthy `entry` gives exactly `{entry: []}`; any other reply is returned unchanged; only a transport failure fails, with the fixed message; a success always has an entry list |
| `Fhir.CheckCreated` | src/fhir.ts:91-98 | success, with the reply unchanged, iff the reply has a non-empty id; otherwise the resource-specific failure message |
| `Fhir.MissingIdLikeTransportFailure` | src/fhir.ts:91-98 | a 2xx reply without an id and a transport failure give the same outcome |
| `Fhir.ErrorText` | src/routes/Patients.tsx:131-133 | the text the screens show for a client error is "Error: " followed by the message |
| `Fhir.SearchPractitioners` | src/fhir.ts:71-87 | GET /Practitioner whose parameters are exactly `_sort=-_lastUpdated`, plus `name` iff the argument is non-empty; result as `NormalizeSearch` with "Failed to load practitioners. Please try again." |
| `Fhir.CreatePractitioner` | src/fhir.ts:89-100 | POST /Practitioner with the argument as the body; result as `CheckCreated` with the practitioner message |
| `Fhir.SearchPatients` | src/fhir.ts:103-122 | GET /Patient with `_sort`, `name` iff non-empty, `general-practitioner=Practitioner/{id}` iff the id is non-empty, and nothing else |
| `Fhir.CreatePatient` | src/fhir.ts:124-135 | POST /Patient with the argument as the body; result as `CheckCreated` with the patient message |
| `Fhir.SearchNotes` | src/fhir.ts:138-154 | GET /DocumentReference with exactly `subject=Patient/{patientId}` and `_sort`, even for an empty id |
| `Fhir.CreateNote` | src/fhir.ts:156-167 | POST /DocumentReference with the argument as the body; result as `CheckCreated` with the note message |
| `Fhir.UpdateNote` | src/fhir.ts:169-184 | PUT at "/DocumentReference/" + the argument id, whatever the note's own id, with body `UpdateBody`; result as `CheckCreated` with the update message |
| `Fhir.UpdateBody` | src/fhir.ts:171-175 | the type tag and id are injected only where the note has none; every other member is the note's |
| `Fhir.SearchSmith` | src/fhir.ts:73-78 | searching "Smith" sends GET /Practitioner with `_sort=-_lastUpdated&name=Smith` |
| `Fhir.UpdateSeven` | src/fhir.ts:171-175 | updating note "7" with only a description sends PUT /DocumentReference/7 with `resourceType`, `id` "7" and the description |
| `Session.ReadCell` | src/state.tsx:16-20 | a start-up cell is the stored value when it is non-empty and readable; a missing key, an empty value or a failed read give unset |
| `Session.Store` | src/state.tsx:46-51 | a successful write stores the id iff it is non-empty, otherwise removes the key; a failed write changes nothing; no other key is touched |
| `Session.ClearPatient` | src/state.tsx:34-41 | with a falsy practitioner the patient becomes unset and its key is removed (best-effort); otherwise nothing changes |
| `Session.Start` | src/state.tsx:13-41 | after start-up there is no patient without a practitioner |
| `Session.SetPractitioner` | src/state.tsx:33-51 | the practitioner becomes the argument; on a change to a falsy value the patient is cleared and storage is the practitioner write followed by the best-effort removal of the patient key; otherwise the patient and its key are untouched; no other key is touched |
| `Session.SetPatient` | src/state.tsx:54-60 | the patient becomes the argument, the practitioner is kept, and storage is `Store` of the patient key |
| `Session.StartCells` | src/state.tsx:13-41 | the practitioner is read from its key; the patient survives only beside a practitioner, and otherwise its key goes too |
| `Session.SetPractitionerCell` | src/state.tsx:46-51 | the in-memory practitioner is always the argument; after a successful write, storage holds it iff it is non-empty; a failed write leaves the key and its value as they were |
| `Session.SetPractitionerEmpty` | src/state.tsx:34-51 | setting "" keeps "" in memory, removes the key and clears the patient |
| `Session.SetPractitionerFalsy` | src/state.tsx:34-51 | any change to `undefined` or "", whatever the outcome of its own write, clears the patient and removes its key when the removal succeeds, and leaves the key when it fails |
| `Session.SwitchPractitionerKeepsPatient` | src/state.tsx:33-51 | changing to another non-empty practitioner leaves the patient and its key untouched |
| `Session.SetPatientOnlyPatient` | src/state.tsx:54-60 | setting the patient changes neither the practitioner nor its key |
| `Session.SetPractitionerKeepsDependency` | src/state.tsx:33-51 | every practitioner change preserves "no patient without a practitioner" |
| `Session.SetPatientCanBreakDependency` | src/state.tsx:54-60 | with no practitioner, setting a patient yields a state that breaks that rule |
| `Session.Restore` | src/state.tsx:13-60 | after both ids are set non-empty and stored, the next start-up restores both |
| `Session.SessionStore.constructor` | src/state.tsx:13-41 | the new store is in the `Start` state |
| `Session.SessionStore.Persist` | src/state.tsx:48-51 | storage becomes `Store` of the old storage |
| `Session.SessionStore.ClearPatientEffect` | src/state.tsx:34-41 | the new state is `ClearPatient` of the old |
| `Session.SessionStore.SetActivePractitionerId` | src/state.tsx:46-51 | the new state is `SetPractitioner` of the old: write, then the reaction if the value changed |
| `Session.SessionStore.SetActivePatientId` | src/state.tsx:54-60 | the new state is `SetPatient` of the old |
| `Js.TrimEmptyIffAllSpace` | src/routes/Patients.tsx:105 | a trimmed string is empty iff the string is all whitespace |
| `Js.JoinAppend` | src/routes/Patients.tsx:277 | joining two non-empty lists is the two joins with one separator between them, so the parts always appear in order, one separator apart |
| `Js.JoinSplit` | src/routes/Patients.tsx:283 | the pieces `split(" ")` produces, joined back with the separator, are the string: splitting loses no character |
| `Js.ReplaceSpaceRuns` | src/routes/Notes.tsx:178 | never lengthens the string, and is empty iff its input is |
| `Js.DashesAppend` | src/routes/Notes.tsx:178 | the scan of a concatenation is the scan of the first part followed by the scan of the second, started in a run iff the first part ended in whitespace |
| `Js.ReplaceSpaceRunsSplit` | src/routes/Notes.tsx:178 | a whitespace run between a part ending visibly and one starting visibly becomes exactly one dash, with both parts replaced independently |
| `Js.ReplaceSpaceRunsVisible` | src/routes/Notes.tsx:178 | with a visible dash, the result has no whitespace at all |
| `Js.ReplaceSpaceRunsNoSpace` | src/routes/Notes.tsx:178 | a string without whitespace is left unchanged |
| `ViewModel.Entries` | src/routes/Patients.tsx:41 | no bundle, or a bundle without `entry`, gives no entries; otherwise the bundle's entry list |
| `ViewModel.OfType` | src/routes/Patients.tsx:40-45 | the result holds exactly the entry resources of the given type, and nothing else |
| `ViewModel.ResourcesOf` | src/routes/Patients.tsx:40-45 | no bundle, or a bundle without `entry`, gives []; otherwise the entries filtered by type in bundle order; every resource has the type |
| `ViewModel.FirstData` | src/routes/Notes.tsx:19-20 | present iff the note has a first attachment with non-empty data, and then exactly that data |
| `ViewModel.OfTypeAppend` | src/routes/Patients.tsx:42-44 | the filter preserves order: it distributes over concatenation |
| `ViewModel.OfTypeAllMatch` | src/routes/Patients.tsx:42-44 | when every entry has the type, the list is the entries' resources one for one |
| `ViewModel.FullName` | src/routes/Patients.tsx:277-279 | without given names it is " " and the family name; one given name, a space and the family name; it always ends with the family name ("" if absent) |
| `ViewModel.FullNameGivenAppend` | src/routes/Patients.tsx:277-279 | further given names are appended one space apart, ahead of the space and the family name |
| `ViewModel.Label` | src/routes/Patients.tsx:276-280 | without a first name entry, the label is the id (possibly absent); with one, it is `FullName` of that entry trimmed, so it neither starts nor ends with whitespace; a name entry with no parts gives "" |
| `ViewModel.Heads` | src/routes/Patients.tsx:284-285 | at most one character per piece; empty iff every piece is empty |
| `ViewModel.HeadsOfSplit` | src/routes/Patients.tsx:282-285 | splitting on " " and joining first characters yields exactly the word-starting characters |
| `ViewModel.Initials` | src/routes/Patients.tsx:282-287 | at most two characters: the first two word-starting characters upper-cased (fewer if there are fewer) |
| `ViewModel.InitialsUpper` | src/routes/Patients.tsx:286 | no initial is a lower-case ASCII letter |
| `Practitioners.CanCreate` | src/routes/Practitioners.tsx:63-64 | creating is allowed iff the given or family name has a non-whitespace character; no session state is read |
| `Practitioners.ListRequest` | src/routes/Practitioners.tsx:44-48 | GET /Practitioner with no body, `_sort=-_lastUpdated`, and `name` = the query iff the query is non-empty |
| `Practitioners.NameEntry` | src/routes/Practitioners.tsx:73-76 | `given` is `[given]` iff given is non-empty; `family` is present iff non-empty, untrimmed |
| `Practitioners.PractitionerBody` | src/routes/Practitioners.tsx:69-78 | resourceType Practitioner, active, exactly one name entry, no id, no general practitioner |
| `Practitioners.CreatedLabel` | src/routes/Practitioners.tsx:210-214 | the created practitioner's label is the form's "given family" trimmed |
| `Practitioners.PractitionersScreen.constructor` | src/routes/Practitioners.tsx:31-62 | no bundle, no error, empty query and form |
| `Practitioners.PractitionersScreen.LoadPractitioners` | src/routes/Practitioners.tsx:44-55 | sends exactly `ListRequest` of the query; on success the bundle is the result and the error cleared; on failure the error text is set and the bundle kept |
| `Practitioners.PractitionersScreen.CreatePractitioner` | src/routes/Practitioners.tsx:66-88 | POSTs the form's body; on success the active practitioner becomes the returned id, the form resets and the reload sends exactly `ListRequest` of the unchanged query; on failure only the error changes and nothing is reloaded |
| `Practitioners.PractitionersScreen.SelectPractitioner` | src/routes/Practitioners.tsx:90-93 | the active practitioner becomes exactly the id |
| `Patients.Preview` | src/routes/Patients.tsx:90 | at most 83 characters; the text itself when at most 80 long; otherwise its first 80 followed by "..." |
| `Patients.LatestData` | src/routes/Patients.tsx:85-88 | present iff the first entry's resource has a first attachment with non-empty data, and then exactly that data |
| `Patients.PreviewFor` | src/routes/Patients.tsx:83-94 | a failing notes lookup, or a latest note without data, gives ""; otherwise `Preview` of the decoded data; at most 83 characters |
| `Patients.PreviewForOwnLookup` | src/routes/Patients.tsx:83-94 | a patient's preview depends only on its own notes lookup |
| `Patients.EntryIds` | src/routes/Patients.tsx:80-82 | exactly the non-empty ids of the entry resources, whatever their type |
| `Patients.PreviewMap` | src/routes/Patients.tsx:83-96 | a patient is a key iff its own preview is non-empty, and maps to that preview; other patients' lookups do not affect it |
| `Patients.PreviewMapOwnLookup` | src/routes/Patients.tsx:83-96 | two lookups that agree on a patient give it the same membership and text in the map |
| `Patients.CanCreate` | src/routes/Patients.tsx:103-105 | creating is allowed iff a practitioner is set and a name field has a non-whitespace character |
| `Patients.ListRequest` | src/routes/Patients.tsx:72-77 | GET /Patient with no body, `_sort=-_lastUpdated`, `general-practitioner=Practitioner/{id}`, and `name` = the query iff the query is non-empty |
| `Patients.PatientBody` | src/routes/Patients.tsx:114-126 | resourceType Patient, active, one name entry built from the form, exactly one general practitioner "Practitioner/{id}" |
| `Patients.CreatedUnderFortyTwo` | src/routes/Patients.tsx:123-125 | a patient created under "42" references "Practitioner/42" |
| `Patients.CreatedLabel` | src/routes/Patients.tsx:276-280 | the created patient's label is the form's "given family" trimmed |
| `Patients.PatientsScreen.constructor` | src/routes/Patients.tsx:33-38 | no bundle, empty preview map, no error, empty query and form |
| `Patients.PatientsScreen.Load` | src/routes/Patients.tsx:69-100 | nothing is sent or changed without a practitioner; otherwise sends exactly `ListRequest` of the query and the practitioner; on success sets the bundle and `PreviewMap` of the entry ids; on failure sets the error |
| `Patients.PatientsScreen.CreatePatient` | src/routes/Patients.tsx:107-134 | without a practitioner: "Please select a practitioner first" and no request; otherwise POSTs `PatientBody`; on success the active patient becomes the returned id and the form resets |
| `Patients.PatientsScreen.SelectPatient` | src/routes/Patients.tsx:136-139 | the active patient becomes exactly the id |
| `Notes.DecodeAttachment` | src/routes/Notes.tsx:17-27 | id, title = description, meta passed through; text is the decoded first attachment iff its data is present |
| `Notes.NotesList` | src/routes/Notes.tsx:38-44 | one decoded item per DocumentReference resource, in order |
| `Notes.Find` | src/routes/Notes.tsx:138 | nothing iff no note has the id; otherwise the first note carrying it |
| `Notes.CanCreate` | src/routes/Notes.tsx:86-89 | saving is allowed iff both ids are set and the title or text has a non-whitespace character |
| `Notes.NoteBody` | src/routes/Notes.tsx:103-119 | status current, type "Clinical Note", subject Patient/{pid}, one author Practitioner/{prid}, description = title or "Untitled Note", one text/plain attachment titled title or "note.txt" with the encoded text |
| `Notes.EditForm` | src/routes/Notes.tsx:141 | the form gets the title and the text, each "" when absent or empty |
| `Notes.SavedNoteReadsBack` | src/routes/Notes.tsx:17-27 | with a lossless codec, a saved note lists with its own text (absent for ""), and edits back into the same form, except an empty title becomes "Untitled Note" |
| `Notes.DefaultFileBaseKept` | src/routes/Notes.tsx:178 | the default base name has no whitespace to replace |
| `Notes.PdfFileName` | src/routes/Notes.tsx:178 | the title, or "clinical-note" when it is absent or empty, with each whitespace run replaced by one "-", then ".pdf"; it never contains whitespace |
| `Notes.PdfFileNamePlainTitle` | src/routes/Notes.tsx:178 | a title without whitespace gives title + ".pdf" |
| `Notes.PdfFileNameSpacedTitle` | src/routes/Notes.tsx:178 | two words separated by a run of whitespace give the words joined by a single "-", then ".pdf" |
| `Notes.NotesScreen.constructor` | src/routes/Notes.tsx:32-85 | no bundle, no error, empty form, not editing |
| `Notes.NotesScreen.Load` | src/routes/Notes.tsx:73-82 | nothing without a patient; otherwise sends exactly GET /DocumentReference with `subject=Patient/{id}` and `_sort=-_lastUpdated`, no body, and sets the bundle or the error |
| `Notes.NotesScreen.SaveNote` | src/routes/Notes.tsx:91-135 | the practitioner guard comes first, then the patient guard, and neither sends anything; when editing, PUTs to the edited id and stops editing on success, otherwise POSTs; only after success are the form reset and the list reloaded, with exactly the same search as `Load` |
| `Notes.NotesScreen.StartEdit` | src/routes/Notes.tsx:137-142 | an unknown id changes nothing; otherwise edits that id with the note's title and text, each defaulting to "" |
| `Notes.NotesScreen.CancelEdit` | src/routes/Notes.tsx:237-240 | stops editing and empties the form |
| `App.IsActive` | src/App.tsx:16-19 | "/" is active iff the pathname is exactly "/"; any other path is active iff the pathname starts with it |
| `App.ActiveOnOwnPath` | src/App.tsx:16-19 | every path is active on itself |
| `App.ActiveOnExtension` | src/App.tsx:16-19 | a non-root path is active on every extension of it; the root only on itself |
| `App.PrefixNotSegment` | src/App.tsx:18 | "/patients" is active at "/patients/123" and at "/patientsX" |

## Left out

- Rendering: JSX, CSS classes, icons, loading flags and empty-state messages have no contract.
- `navigate(...)` calls and the router set-up in `src/main.tsx`: framework side effects. The model does not record where a screen navigates.
- The HTTP transport: axios, the base URL, the `application/fhir+json` headers, and the query string's encoding. The raw `fetch` calls that load practitioner and patient details (src/routes/Patients.tsx:54-65, src/routes/Notes.tsx:53-69) and the names shown from them in the page headers are also left out. Replies are abstract inputs.
- Concurrency: `Promise.all` fan-out, late or stale replies, and React's effect scheduling and batching. The session reaction is applied right after the practitioner write. Preview lookups are a function from patient id to reply.
- `btoa`/`atob`: they are browser built-ins. The model does not capture their Latin-1 restriction or their exceptions.
- The jsPDF document layout and date formatting (src/routes/Notes.tsx:146-176, 271): foreign library and locale-dependent. The model also leaves out the "Failed to generate PDF. Please try again." error its exceptions raise (src/routes/Notes.tsx:179-181); only the file name is modelled.
- `console.error` logging and the `useAppState` provider check (src/state.tsx:68-71): diagnostics.
- `loading` and `query` updates from the search input: direct field assignments with no logic.
- `ViewModel.Initials` always takes a string: in the source a resource with neither a name entry nor an id has an `undefined` label, and `.split` on it throws a TypeError at render. The model does not capture that failure.
- Bundle entries always carry a `resource`. In the source, an entry without one makes the screen throw a TypeError, which the model does not capture.
- `Fhir.UpdateBody`: a member present in the note with the value `undefined` is the same as an absent one in this model. The source's spread would copy it over the injected `id`/`resourceType`; `JSON.stringify` then drops it from the request.
- JavaScript numbers, and JSON members the model does not name: a resource is a record of the members the application reads or writes.
- `Js.Upper`: `toUpperCase` is modelled for ASCII letters only. Unicode case mappings, including ones that change length, are not modelled. Strings are sequences of code points, not UTF-16 code units, so `slice` and `[0]` on astral characters are not modelled.
- `Patients.Preview`: the length bound is in code points, not in UTF-16 code units.

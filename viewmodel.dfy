/** View-model logic the three screens share, written once: reading the
    resources out of a search bundle, the display label of a person and its
    initials. Practitioners.tsx and Patients.tsx carry the same expressions. */
module ViewModel {
  import opened Js
  import opened Fhir

  /** `bundle?.entry ?? []` */
  function Entries(bundle: Option<Resource>): (r: seq<Entry>)
    ensures bundle.None? || bundle.value.entry.None? ==> r == []
    ensures bundle.Some? && bundle.value.entry.Some? ==> r == bundle.value.entry.value
  {
    if bundle.Some? && bundle.value.entry.Some? then bundle.value.entry.value else []
  }

  /** `entries.map(e => e.resource).filter(r => r.resourceType === kind)` */
  function OfType(entries: seq<Entry>, kind: string): (r: seq<Resource>)
    ensures |r| <= |entries|
    ensures forall k :: 0 <= k < |r| ==> r[k].resourceType == Some(kind)
    ensures forall x :: x in r <==> exists e :: e in entries && e.resource == x && x.resourceType == Some(kind)
  {
    if entries == [] then []
    else
      var rest := OfType(entries[1..], kind);
      assert forall e :: e in entries[1..] ==> e in entries;
      assert forall e :: e in entries ==> e == entries[0] || e in entries[1..];
      if entries[0].resource.resourceType == Some(kind) then [entries[0].resource] + rest else rest
  }

  /** `useMemo` over the bundle in each screen: the bundle's resources of one type,
      in bundle order; nothing when there is no bundle or it has no `entry`. */
  function ResourcesOf(bundle: Option<Resource>, kind: string): (r: seq<Resource>)
    ensures bundle.None? || bundle.value.entry.None? ==> r == []
    ensures bundle.Some? && bundle.value.entry.Some? ==> r == OfType(bundle.value.entry.value, kind)
    ensures forall k :: 0 <= k < |r| ==> r[k].resourceType == Some(kind)
  {
    OfType(Entries(bundle), kind)
  }

  /** `note.content?.[0]?.attachment?.data` when truthy: the first attachment's
      data, and nothing when there is no attachment or its data is empty. */
  function FirstData(note: Resource): (r: Option<string>)
    ensures r.Some? <==> note.content.Some? && |note.content.value| > 0 && Truthy(note.content.value[0].data)
    ensures r.Some? ==> r == note.content.value[0].data && r.value != ""
  {
    if note.content.Some? && |note.content.value| > 0 && Truthy(note.content.value[0].data)
    then note.content.value[0].data else None
  }

  /** The filter keeps order: it distributes over concatenation. */
  lemma {:induction false} OfTypeAppend(a: seq<Entry>, b: seq<Entry>, kind: string)
    ensures OfType(a + b, kind) == OfType(a, kind) + OfType(b, kind)
  {
    if a != [] {
      var head := if a[0].resource.resourceType == Some(kind) then [a[0].resource] else [];
      assert (a + b)[0] == a[0] && (a + b)[1..] == a[1..] + b;
      assert OfType(a, kind) == head + OfType(a[1..], kind);
      assert OfType(a + b, kind) == head + OfType(a[1..] + b, kind);
      OfTypeAppend(a[1..], b, kind);
    } else {
      assert a + b == b;
    }
  }

  /** When every entry is of the kind, the list is the entries' resources, one for one. */
  lemma {:induction false} OfTypeAllMatch(entries: seq<Entry>, kind: string)
    requires forall k :: 0 <= k < |entries| ==> entries[k].resource.resourceType == Some(kind)
    ensures |OfType(entries, kind)| == |entries|
    ensures forall k :: 0 <= k < |entries| ==> OfType(entries, kind)[k] == entries[k].resource
  {
    if entries != [] {
      OfTypeAllMatch(entries[1..], kind);
    }
  }

  /** `p.name?.[0]` is present. */
  predicate HasNameEntry(p: Resource) {
    p.name.Some? && |p.name.value| > 0
  }

  /** `${name.given?.join(" ") ?? ""} ${name.family ?? ""}` before trimming. */
  function FullName(n: HumanName): (r: string)
    ensures n.given.None? ==> r == " " + n.family.GetOr("")
    ensures n.given.Some? && |n.given.value| == 1 ==> r == n.given.value[0] + " " + n.family.GetOr("")
    ensures |r| > |n.family.GetOr("")| && r[|r| - |n.family.GetOr("")|..] == n.family.GetOr("")
  {
    (if n.given.Some? then Join(n.given.value, " ") else "") + " " + n.family.GetOr("")
  }

  /** More given names are joined on with one space each: the full name of
      given names `a + b` is `a` joined, a space, then the full name of `b`. */
  lemma FullNameGivenAppend(n: HumanName, a: seq<string>, b: seq<string>)
    requires a != [] && b != []
    ensures FullName(n.(given := Some(a + b))) == Join(a, " ") + " " + FullName(n.(given := Some(b)))
  {
    JoinAppend(a, b, " ");
  }

  /** The card label: the trimmed full name of the first name entry, or else the
      id (the non-null assertion `p.id!` checks nothing, so that may be absent). */
  function Label(p: Resource): (r: Option<string>)
    ensures !HasNameEntry(p) ==> r == p.id
    ensures HasNameEntry(p) ==> r == Some(Trim(FullName(p.name.value[0])))
    ensures HasNameEntry(p) ==> r.Some? && (r.value != "" ==> !IsSpace(r.value[0]) && !IsSpace(r.value[|r.value| - 1]))
    ensures HasNameEntry(p) && p.name.value[0].given.None? && p.name.value[0].family.None? ==> r == Some("")
  {
    if HasNameEntry(p) then
      var n := p.name.value[0];
      assert n.given.None? && n.family.None? ==> AllSpace(FullName(n));
      TrimEmptyIffAllSpace(FullName(n));
      Some(Trim(FullName(n)))
    else p.id
  }

  /** `.map(n => n[0]).join("")`: the first character of each piece, where an
      empty piece gives `undefined` and `join` writes that as nothing. */
  function Heads(words: seq<string>): (r: string)
    ensures |r| <= |words|
    ensures r == "" <==> forall k :: 0 <= k < |words| ==> words[k] == ""
  {
    if words == [] then ""
    else (if words[0] == "" then "" else [words[0][0]]) + Heads(words[1..])
  }

  /** Reference definition: the characters that begin a space-separated word,
      one that is not a space and follows a space or the start. */
  function WordStarts(s: string, afterSpace: bool): string {
    if s == [] then ""
    else (if s[0] != ' ' && afterSpace then [s[0]] else "") + WordStarts(s[1..], s[0] == ' ')
  }

  /** Splitting on " " and taking heads picks exactly the word-starting characters;
      after the first piece, exactly those past the first space. */
  lemma {:induction false} HeadsOfSplit(s: string)
    ensures Heads(Split(s, ' ')) == WordStarts(s, true)
    ensures Heads(Split(s, ' ')[1..]) == WordStarts(s, false)
  {
    if s != [] {
      HeadsOfSplit(s[1..]);
      var rest := Split(s[1..], ' ');
      if s[0] == ' ' {
        assert Split(s, ' ') == [""] + rest;
        assert ([""] + rest)[1..] == rest;
      } else {
        assert Split(s, ' ') == [[s[0]] + rest[0]] + rest[1..];
        assert ([[s[0]] + rest[0]] + rest[1..])[1..] == rest[1..];
      }
    }
  }

  /** `label.split(" ").map(n => n[0]).join("").toUpperCase().slice(0, 2)` */
  function Initials(caption: string): (r: string)
    ensures |r| <= 2
    ensures |r| == if |WordStarts(caption, true)| < 2 then |WordStarts(caption, true)| else 2
    ensures r == Upper(WordStarts(caption, true))[..|r|]
  {
    var up := Upper(Heads(Split(caption, ' ')));
    HeadsOfSplit(caption);
    if |up| <= 2 then up else up[..2]
  }

  /** Initials are upper case wherever the label's letters are ASCII. */
  lemma InitialsUpper(caption: string, k: nat)
    requires k < |Initials(caption)|
    ensures !('a' <= Initials(caption)[k] <= 'z')
  {
    var w := WordStarts(caption, true);
    assert Initials(caption)[k] == Upper(w)[k] == UpperChar(w[k]);
  }
}

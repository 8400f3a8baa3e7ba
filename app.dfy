/** The navigation bar's notion of the current section. */
module App {
  import opened Js

  /** `isActive(path)` for the current `pathname`: the root link is lit exactly
      on "/", every other link exactly on the pathnames it is a prefix of. */
  predicate IsActive(pathname: string, path: string)
    ensures path == "/" ==> (IsActive(pathname, path) <==> pathname == "/")
    ensures path != "/" ==> (IsActive(pathname, path) <==> |path| <= |pathname| && pathname[..|path|] == path)
  {
    if path == "/" then pathname == "/" else StartsWith(pathname, path)
  }

  /** A link is always lit on its own path. */
  lemma ActiveOnOwnPath(path: string)
    ensures IsActive(path, path)
  {
    assert path[..|path|] == path;
  }

  /** Any extension of a link's path lights it; for the root only "/" itself does. */
  lemma ActiveOnExtension(path: string, rest: string)
    ensures path != "/" ==> IsActive(path + rest, path)
    ensures path == "/" ==> (IsActive(path + rest, path) <==> rest == "")
  {
    assert (path + rest)[..|path|] == path;
  }

  /** Matching is by prefix, not by path segment. */
  lemma PrefixNotSegment()
    ensures IsActive("/patients/123", "/patients")
    ensures IsActive("/patientsX", "/patients")
    ensures !IsActive("/patients", "/")
  {
    ActiveOnExtension("/patients", "/123");
    ActiveOnExtension("/patients", "X");
  }
}

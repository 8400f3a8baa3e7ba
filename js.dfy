/** The small part of the JavaScript runtime the application leans on:
    optional values and their truthiness, String.prototype.trim, split,
    join, startsWith, toUpperCase and the `/\s+/g` replacement. */
module Js {

  /** `undefined` (or `null`) versus a present value. */
  datatype Option<+T> = None | Some(value: T) {
    function GetOr(default: T): T {
      match this
      case Some(v) => v
      case None => default
    }
  }

  /** JavaScript truthiness of an optional string: `undefined` and `""` are falsy. */
  predicate Truthy(s: Option<string>) {
    s.Some? && s.value != ""
  }

  /** `s || undefined`: the empty string collapses to `undefined`. */
  function OrUndefined(s: string): (r: Option<string>)
    ensures Truthy(r) <==> s != ""
    ensures r.Some? ==> r.value == s
  {
    if s != "" then Some(s) else None
  }

  /** `a || b` on optional strings, with a present default. */
  function Or(a: Option<string>, b: string): (r: string)
    ensures Truthy(a) ==> r == a.value
    ensures !Truthy(a) ==> r == b
  {
    if Truthy(a) then a.value else b
  }

  /** ECMAScript WhiteSpace and LineTerminator code points: the set that both
      `trim` and the regular-expression class `\s` use. */
  predicate IsSpace(c: char) {
    c == '\t' || c == '\n' || c == '\U{000B}' || c == '\U{000C}' || c == '\r' || c == ' '
    || c == '\U{00A0}' || c == '\U{1680}' || ('\U{2000}' <= c <= '\U{200A}')
    || c == '\U{2028}' || c == '\U{2029}' || c == '\U{202F}' || c == '\U{205F}'
    || c == '\U{3000}' || c == '\U{FEFF}'
  }

  /** Printable ASCII other than the space is never whitespace. */
  lemma VisibleAscii(c: char)
    requires '!' <= c <= '~'
    ensures !IsSpace(c)
  {
  }

  predicate AllSpace(s: string) {
    forall i :: 0 <= i < |s| ==> IsSpace(s[i])
  }

  /** Drops leading whitespace. */
  function TrimStart(s: string): (r: string)
    ensures |r| <= |s| && r == s[|s| - |r|..]
    ensures AllSpace(s[..|s| - |r|])
    ensures r != [] ==> !IsSpace(r[0])
  {
    if s != [] && IsSpace(s[0]) then
      var r := TrimStart(s[1..]);
      TrimStartStep(s, r);
      r
    else s
  }

  /** One step of `TrimStart`: a leading blank joins the blank prefix the rest drops. */
  lemma TrimStartStep(s: string, r: string)
    requires s != [] && IsSpace(s[0])
    requires |r| <= |s| - 1 && r == s[1..][|s| - 1 - |r|..]
    requires AllSpace(s[1..][..|s| - 1 - |r|])
    ensures r == s[|s| - |r|..]
    ensures AllSpace(s[..|s| - |r|])
  {
    var dropped := s[..|s| - |r|];
    forall k | 0 <= k < |dropped| ensures IsSpace(dropped[k]) {
      if k > 0 { assert dropped[k] == s[1..][..|s| - 1 - |r|][k - 1]; }
    }
  }

  /** Drops trailing whitespace. */
  function TrimEnd(s: string): (r: string)
    ensures |r| <= |s| && r == s[..|r|]
    ensures AllSpace(s[|r|..])
    ensures r != [] ==> !IsSpace(r[|r| - 1])
  {
    if s != [] && IsSpace(s[|s| - 1]) then
      var r := TrimEnd(s[..|s| - 1]);
      assert s[..|s| - 1][|r|..] == s[|r|..|s| - 1];
      forall k | |r| <= k < |s| ensures IsSpace(s[k]) {
        if k < |s| - 1 { assert s[..|s| - 1][|r|..][k - |r|] == s[k]; }
      }
      r
    else s
  }

  /** String.prototype.trim: the slice left after removing whitespace at both ends. */
  function Trim(s: string): (r: string)
    ensures exists i, j :: 0 <= i <= j <= |s| && r == s[i..j] && AllSpace(s[..i]) && AllSpace(s[j..])
    ensures r != [] ==> !IsSpace(r[0]) && !IsSpace(r[|r| - 1])
  {
    var t := TrimStart(s);
    var r := TrimEnd(t);
    InnerSlice(s, t, r);
    r
  }

  /** Cutting whitespace off the front and then off the back leaves a slice
      with whitespace on both sides of it. */
  lemma InnerSlice(s: string, t: string, r: string)
    requires |t| <= |s| && t == s[|s| - |t|..] && AllSpace(s[..|s| - |t|])
    requires |r| <= |t| && r == t[..|r|] && AllSpace(t[|r|..])
    ensures exists i, j :: 0 <= i <= j <= |s| && r == s[i..j] && AllSpace(s[..i]) && AllSpace(s[j..])
  {
    var i := |s| - |t|;
    var j := i + |r|;
    assert r == s[i..j];
    assert s[j..] == t[|r|..];
  }

  /** Trimming leaves nothing exactly when the string is all whitespace. */
  lemma TrimEmptyIffAllSpace(s: string)
    ensures Trim(s) == "" <==> AllSpace(s)
  {
    var t := TrimStart(s);
    var r := TrimEnd(t);
    var i := |s| - |t|;
    assert Trim(s) == r;
    if r == "" {
      assert t[|r|..] == t;
      forall k | 0 <= k < |s| ensures IsSpace(s[k]) {
        if k < i { assert s[..i][k] == s[k]; } else { assert t[k - i] == s[k]; }
      }
    } else {
      assert r[0] == t[0] == s[i] && !IsSpace(s[i]);
    }
  }

  /** Array.prototype.join on strings. */
  function Join(parts: seq<string>, sep: string): (r: string)
    ensures |parts| == 1 ==> r == parts[0]
    ensures parts == [] ==> r == ""
  {
    if parts == [] then ""
    else if |parts| == 1 then parts[0]
    else parts[0] + sep + Join(parts[1..], sep)
  }

  /** String.prototype.split with a one-character separator: always at least one
      piece, with an empty piece around each adjacent or outer separator. */
  function Split(s: string, sep: char): (r: seq<string>)
    ensures |r| >= 1
    ensures forall k :: 0 <= k < |r| ==> sep !in r[k]
  {
    if s == [] then [""]
    else
      var rest := Split(s[1..], sep);
      if s[0] == sep then [""] + rest
      else [[s[0]] + rest[0]] + rest[1..]
  }

  /** Joining two non-empty lists is joining each and putting one separator
      between them; with the one-part case this fixes `Join` on every list. */
  lemma {:induction false} JoinAppend(a: seq<string>, b: seq<string>, sep: string)
    requires a != [] && b != []
    ensures Join(a + b, sep) == Join(a, sep) + sep + Join(b, sep)
  {
    var ab := a + b;
    assert |ab| > 1 && ab[0] == a[0] && ab[1..] == a[1..] + b;
    assert Join(ab, sep) == a[0] + sep + Join(a[1..] + b, sep);
    if |a| == 1 {
      assert a[1..] + b == b;
    } else {
      JoinAppend(a[1..], b, sep);
      var x, y := Join(a[1..], sep), Join(b, sep);
      assert Join(a, sep) == a[0] + sep + x;
      assert a[0] + sep + (x + sep + y) == (a[0] + sep + x) + sep + y;
    }
  }

  /** Splitting on a character and joining with it gives back the string. */
  lemma {:induction false} JoinSplit(s: string, c: char)
    ensures Join(Split(s, c), [c]) == s
  {
    if s != [] {
      JoinSplit(s[1..], c);
      var rest := Split(s[1..], c);
      assert s == [s[0]] + s[1..];
      if s[0] == c {
        assert Split(s, c) == [""] + rest && ([""] + rest)[1..] == rest;
      } else {
        var parts := [[s[0]] + rest[0]] + rest[1..];
        assert Split(s, c) == parts && parts[1..] == rest[1..];
        if |rest| > 1 {
          assert Join(rest, [c]) == rest[0] + [c] + Join(rest[1..], [c]);
          assert Join(parts, [c]) == ([s[0]] + rest[0]) + [c] + Join(rest[1..], [c]);
        }
      }
    }
  }

  /** String.prototype.startsWith. */
  predicate StartsWith(s: string, prefix: string) {
    |prefix| <= |s| && s[..|prefix|] == prefix
  }

  /** toUpperCase on one character: ASCII letters only. */
  function UpperChar(c: char): (r: char)
    ensures 'a' <= c <= 'z' ==> 'A' <= r <= 'Z'
    ensures !('a' <= c <= 'z') ==> r == c
  {
    if 'a' <= c <= 'z' then (c as int - 32) as char else c
  }

  function Upper(s: string): (r: string)
    ensures |r| == |s|
    ensures forall i :: 0 <= i < |s| ==> r[i] == UpperChar(s[i])
  {
    if s == [] then [] else [UpperChar(s[0])] + Upper(s[1..])
  }

  /** The scan behind `s.replace(/\s+/g, dash)`: a whitespace character
      writes `dash` when it opens a run and nothing inside one; any other
      character is copied. `inRun` says whether a run is open. */
  function Dashes(s: string, dash: char, inRun: bool): (r: string)
    ensures |r| <= |s|
    ensures !inRun ==> (r == [] <==> s == [])
  {
    if s == [] then []
    else if IsSpace(s[0]) then (if inRun then [] else [dash]) + Dashes(s[1..], dash, true)
    else [s[0]] + Dashes(s[1..], dash, false)
  }

  /** Whether a run is open after scanning `s` from state `inRun`. */
  function EndsInRun(s: string, inRun: bool): bool {
    if s == [] then inRun else IsSpace(s[|s| - 1])
  }

  /** `s.replace(/\s+/g, dash)`: every maximal whitespace run becomes one `dash`. */
  function ReplaceSpaceRuns(s: string, dash: char): (r: string)
    ensures |r| <= |s|
    ensures r == [] <==> s == []
  {
    Dashes(s, dash, false)
  }

  /** One step of the scan over a string with a given first character. */
  lemma DashesCons(c: char, y: string, dash: char, inRun: bool)
    ensures Dashes([c] + y, dash, inRun)
            == (if IsSpace(c) then (if inRun then [] else [dash]) else [c]) + Dashes(y, dash, IsSpace(c))
  {
    assert ([c] + y)[0] == c && ([c] + y)[1..] == y;
  }

  /** The scan of a concatenation is the scan of each part, the second one
      started in the state the first ends in. */
  lemma {:induction false} DashesAppend(x: string, y: string, dash: char, inRun: bool)
    ensures Dashes(x + y, dash, inRun) == Dashes(x, dash, inRun) + Dashes(y, dash, EndsInRun(x, inRun))
  {
    if x == [] {
      assert x + y == y;
    } else {
      var c, x' := x[0], x[1..];
      var head := if IsSpace(c) then (if inRun then [] else [dash]) else [c];
      var p, q := Dashes(x', dash, IsSpace(c)), Dashes(y, dash, EndsInRun(x, inRun));
      assert x == [c] + x' && x + y == [c] + (x' + y);
      DashesAppend(x', y, dash, IsSpace(c));
      assert EndsInRun(x', IsSpace(c)) == EndsInRun(x, inRun);
      DashesCons(c, x' + y, dash, inRun);
      DashesCons(c, x', dash, inRun);
      AppendAssoc(head, p, q);
    }
  }

  /** Concatenation regrouped, out of the way of the larger proof above, where
      proving it in place exhausts the solver. */
  lemma AppendAssoc(h: string, p: string, q: string)
    ensures h + (p + q) == (h + p) + q
  {
  }

  /** A non-empty whitespace run writes one `dash`, or nothing if a run is already open. */
  lemma {:induction false} DashesRun(w: string, dash: char, inRun: bool)
    requires w != [] && AllSpace(w)
    ensures Dashes(w, dash, inRun) == (if inRun then [] else [dash])
  {
    if |w| > 1 {
      DashesRun(w[1..], dash, true);
    }
  }

  /** A part that starts visibly scans the same whether or not a run was open. */
  lemma DashesVisibleStart(b: string, dash: char)
    requires b == [] || !IsSpace(b[0])
    ensures Dashes(b, dash, true) == Dashes(b, dash, false)
  {
  }

  /** The replacement leaves no whitespace, provided `dash` is not whitespace. */
  lemma {:induction false} DashesVisible(s: string, dash: char, inRun: bool)
    requires !IsSpace(dash)
    ensures forall i :: 0 <= i < |Dashes(s, dash, inRun)| ==> !IsSpace(Dashes(s, dash, inRun)[i])
  {
    if s != [] {
      var next := IsSpace(s[0]);
      DashesVisible(s[1..], dash, next);
      var r, rest := Dashes(s, dash, inRun), Dashes(s[1..], dash, next);
      assert forall i :: |r| - |rest| <= i < |r| ==> r[i] == rest[i - (|r| - |rest|)];
    }
  }

  lemma ReplaceSpaceRunsVisible(s: string, dash: char)
    requires !IsSpace(dash)
    ensures forall i :: 0 <= i < |ReplaceSpaceRuns(s, dash)| ==> !IsSpace(ReplaceSpaceRuns(s, dash)[i])
  {
    DashesVisible(s, dash, false);
  }

  /** The replacement works run by run: a whitespace run between two parts
      becomes one `dash`, and each part is replaced on its own. With
      `ReplaceSpaceRunsNoSpace` this fixes the result for every string. */
  lemma ReplaceSpaceRunsSplit(a: string, w: string, b: string, dash: char)
    requires a == [] || !IsSpace(a[|a| - 1])
    requires w != [] && AllSpace(w)
    requires b == [] || !IsSpace(b[0])
    ensures ReplaceSpaceRuns(a + w + b, dash) == ReplaceSpaceRuns(a, dash) + [dash] + ReplaceSpaceRuns(b, dash)
  {
    DashesAppend(a, w, dash, false);
    DashesAppend(a + w, b, dash, false);
    assert EndsInRun(a, false) == false;
    DashesRun(w, dash, false);
    assert EndsInRun(a + w, false) by { assert (a + w)[|a + w| - 1] == w[|w| - 1]; }
    DashesVisibleStart(b, dash);
  }

  /** A string with no whitespace is left unchanged by the replacement. */
  lemma {:induction false} ReplaceSpaceRunsNoSpace(s: string, dash: char)
    requires forall i :: 0 <= i < |s| ==> !IsSpace(s[i])
    ensures ReplaceSpaceRuns(s, dash) == s
  {
    if s != [] {
      ReplaceSpaceRunsNoSpace(s[1..], dash);
    }
  }
}

/**
  Path handling of app/tools/synology.py, and the three searches for the allowed root that contains a
  path. A path error is `None`.
*/
module SynologyPaths {
  import opened Values

  /** Python's `path.split("/")`. */
  function Split(s: string): (parts: seq<string>)
    ensures parts != []
  {
    if s == "" then [""]
    else
      var rest := Split(s[1..]);
      if s[0] == '/' then [""] + rest else [[s[0]] + rest[0]] + rest[1..]
  }

  /** Python's `"/".join(parts)`. */
  function Join(parts: seq<string>): string {
    if parts == [] then ""
    else if |parts| == 1 then parts[0]
    else parts[0] + "/" + Join(parts[1..])
  }

  function NonEmpty(parts: seq<string>): (r: seq<string>)
    ensures forall part :: part in r <==> part in parts && part != ""
  {
    if parts == [] then []
    else if parts[0] == "" then NonEmpty(parts[1..])
    else [parts[0]] + NonEmpty(parts[1..])
  }

  function Components(s: string): seq<string> {
    NonEmpty(Split(s))
  }

  predicate Acceptable(path: string) {
    && |path| > 0 && path[0] == '/'
    && '\\' !in path && '\0' !in path
    && "." !in Split(path) && ".." !in Split(path)
  }

  /** `_canonical` */
  function Canonical(path: string): Option<string> {
    if Acceptable(path) then Some("/" + Join(Components(path))) else None
  }

  predicate IsCanonical(path: string) {
    Canonical(path) == Some(path)
  }

  /** `canonical_under_root`: pure paths compare component by component. */
  function CanonicalUnderRoot(root: string, candidate: string): Option<string> {
    var r := Canonical(root);
    var c := Canonical(candidate);
    if r.None? || c.None? then None
    else if Components(r.value) <= Components(c.value) then c
    else None
  }

  /* ---- Splitting and joining ---- */

  predicate SlashFree(parts: seq<string>) {
    forall part :: part in parts ==> '/' !in part
  }

  lemma {:induction false} SplitIsSlashFree(s: string)
    ensures SlashFree(Split(s))
    ensures forall part, c :: part in Split(s) && c in part ==> c in s
  {
    if s != "" {
      SplitIsSlashFree(s[1..]);
    }
  }

  /** Splitting at a separator that is known. */
  lemma {:induction false} SplitAt(a: string, b: string)
    requires '/' !in a
    ensures Split(a + "/" + b) == [a] + Split(b)
  {
    var s := a + "/" + b;
    if a == "" {
      assert s[1..] == b;
    } else {
      SplitAt(a[1..], b);
      assert s[1..] == a[1..] + "/" + b;
      assert a[0] in a && a == [a[0]] + a[1..];
    }
  }

  lemma {:induction false} SplitSolid(a: string)
    requires '/' !in a
    ensures Split(a) == [a]
  {
    if a != "" {
      SplitSolid(a[1..]);
      assert a[0] in a && a == [a[0]] + a[1..];
    }
  }

  lemma {:induction false} SplitUndoesJoin(parts: seq<string>)
    requires parts != [] && SlashFree(parts)
    ensures Split(Join(parts)) == parts
  {
    if |parts| == 1 {
      SplitSolid(parts[0]);
    } else {
      SplitUndoesJoin(parts[1..]);
      SplitAt(parts[0], Join(parts[1..]));
    }
  }

  lemma {:induction false} NonEmptyKeepsAll(parts: seq<string>)
    requires "" !in parts
    ensures NonEmpty(parts) == parts
  {
    if parts != [] {
      NonEmptyKeepsAll(parts[1..]);
    }
  }

  lemma {:induction false} JoinedCharacters(parts: seq<string>, c: char)
    requires c in Join(parts)
    ensures c == '/' || exists part :: part in parts && c in part
  {
    if |parts| > 1 && c !in parts[0] && c != '/' {
      JoinedCharacters(parts[1..], c);
    }
  }

  /** A list of clean components, written out after a slash, splits into exactly those components. */
  lemma WrittenOut(parts: seq<string>)
    requires SlashFree(parts) && "" !in parts
    ensures Components("/" + Join(parts)) == parts
    ensures Split("/" + Join(parts)) == [""] + if parts == [] then [""] else parts
  {
    var s := "/" + Join(parts);
    assert s[1..] == Join(parts);
    NonEmptyKeepsAll(parts);
    if parts != [] {
      SplitUndoesJoin(parts);
      assert NonEmpty([""] + parts) == NonEmpty(parts);
    } else {
      assert Split(s) == [""] + Split("") == ["", ""];
      assert NonEmpty(["", ""]) == NonEmpty([""]) == [];
    }
  }

  /** Names that may stand in a normal form. */
  predicate Clean(parts: seq<string>) {
    forall part :: part in parts ==>
      part != "" && part != "." && part != ".." && '/' !in part && '\\' !in part && '\0' !in part
  }

  lemma CleanNamesAreCanonical(parts: seq<string>)
    requires Clean(parts)
    ensures IsCanonical("/" + Join(parts)) && Components("/" + Join(parts)) == parts
  {
    var c := "/" + Join(parts);
    WrittenOut(parts);
    forall bad | bad in {'\\', '\0'}
      ensures bad !in c
    {
      if bad in Join(parts) {
        JoinedCharacters(parts, bad);
      }
    }
    assert Acceptable(c);
  }

  /** Normalising keeps exactly the non-empty components of the input, and a second pass changes
      nothing. */
  lemma CanonicalKeepsComponentsAndIsIdempotent(path: string)
    requires Canonical(path).Some?
    ensures Components(Canonical(path).value) == Components(path)
    ensures IsCanonical(Canonical(path).value)
  {
    SplitIsSlashFree(path);
    CleanNamesAreCanonical(Components(path));
  }

  /** Acceptance under a root is exactly the component prefix, and what is accepted is the candidate's
      normal form. */
  lemma UnderRootIsComponentPrefix(root: string, candidate: string)
    ensures CanonicalUnderRoot(root, candidate).Some?
            <==> Acceptable(root) && Acceptable(candidate) && Components(root) <= Components(candidate)
    ensures CanonicalUnderRoot(root, candidate).Some?
            ==> CanonicalUnderRoot(root, candidate) == Canonical(candidate)
  {
    if Acceptable(root) && Acceptable(candidate) {
      CanonicalKeepsComponentsAndIsIdempotent(root);
      CanonicalKeepsComponentsAndIsIdempotent(candidate);
    }
  }

  /** Roots nest: what is under a root that is itself under `outer` is under `outer`, in one form. */
  lemma UnderRootIsTransitive(outer: string, inner: string, path: string)
    requires CanonicalUnderRoot(outer, inner).Some? && CanonicalUnderRoot(inner, path).Some?
    ensures CanonicalUnderRoot(outer, path) == CanonicalUnderRoot(inner, path)
  {
    UnderRootIsComponentPrefix(outer, inner);
    UnderRootIsComponentPrefix(inner, path);
    UnderRootIsComponentPrefix(outer, path);
  }

  /** Equal components mean equal normal forms. */
  lemma CanonicalIsDeterminedByComponents(a: string, b: string)
    requires Acceptable(a) && Acceptable(b)
    ensures Canonical(a) == Canonical(b) <==> Components(a) == Components(b)
  {
    CanonicalKeepsComponentsAndIsIdempotent(a);
    CanonicalKeepsComponentsAndIsIdempotent(b);
  }

  /* ---- The first allowed root ---- */

  /** `_require_allowed_interview_path` and `_allowed_root`: the root itself. */
  function AllowedRoot(roots: seq<string>, path: string): Option<string> {
    if roots == [] then None
    else if CanonicalUnderRoot(roots[0], path).Some? then Some(roots[0])
    else AllowedRoot(roots[1..], path)
  }

  /** `_canonical_allowed_destination`: the normal form of the path together with the root. */
  function CanonicalAllowedDestination(roots: seq<string>, path: string): Option<(string, string)> {
    if roots == [] then None
    else
      match CanonicalUnderRoot(roots[0], path)
      case Some(folder) => Some((folder, roots[0]))
      case None => CanonicalAllowedDestination(roots[1..], path)
  }

  predicate Contains(root: string, path: string) {
    Acceptable(root) && Acceptable(path) && Components(root) <= Components(path)
  }

  /** The search answers the earliest root that contains the path, and nothing when there is none. */
  lemma {:induction false} AllowedRootIsTheFirst(roots: seq<string>, path: string)
    ensures AllowedRoot(roots, path).None? <==> forall i :: 0 <= i < |roots| ==> !Contains(roots[i], path)
    ensures AllowedRoot(roots, path).Some? ==>
              exists i :: && 0 <= i < |roots| && roots[i] == AllowedRoot(roots, path).value
                          && Contains(roots[i], path)
                          && forall j :: 0 <= j < i ==> !Contains(roots[j], path)
  {
    if roots != [] {
      UnderRootIsComponentPrefix(roots[0], path);
      AllowedRootIsTheFirst(roots[1..], path);
      if !Contains(roots[0], path) && AllowedRoot(roots, path).Some? {
        var i :| && 0 <= i < |roots| - 1 && roots[1..][i] == AllowedRoot(roots[1..], path).value
                 && Contains(roots[1..][i], path)
                 && forall j :: 0 <= j < i ==> !Contains(roots[1..][j], path);
        assert roots[i + 1] == AllowedRoot(roots, path).value;
        forall j | 0 <= j < i + 1
          ensures !Contains(roots[j], path)
        {
          if j > 0 {
            assert roots[1..][j - 1] == roots[j];
          }
        }
      } else if Contains(roots[0], path) {
        assert roots[0] == AllowedRoot(roots, path).value;
      } else {
        forall j | 0 <= j < |roots|
          ensures !Contains(roots[j], path)
        {
          if j > 0 {
            assert roots[1..][j - 1] == roots[j];
          }
        }
      }
    }
  }

  /** The searches of the transfer and of the services pick the same root, with the normal form. */
  lemma {:induction false} SearchesAgree(roots: seq<string>, path: string)
    ensures CanonicalAllowedDestination(roots, path).Some? <==> AllowedRoot(roots, path).Some?
    ensures AllowedRoot(roots, path).Some? ==>
              && CanonicalAllowedDestination(roots, path).value.1 == AllowedRoot(roots, path).value
              && Some(CanonicalAllowedDestination(roots, path).value.0) == Canonical(path)
  {
    if roots != [] {
      UnderRootIsComponentPrefix(roots[0], path);
      SearchesAgree(roots[1..], path);
    }
  }
}

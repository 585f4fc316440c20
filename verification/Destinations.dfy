/** The destination catalogue of app/services/destinations.py: the SQL filter and the duplicate check. */
module Destinations {
  import opened Values
  import opened SynologyPaths

  /** SQL `LIKE` with its default escape character. */
  predicate Like(pattern: string, s: string)
    decreases |pattern|, |s|
  {
    if pattern == "" then s == ""
    else if pattern[0] == '%' then Like(pattern[1..], s) || (s != "" && Like(pattern, s[1..]))
    else if pattern[0] == '_' then s != "" && Like(pattern[1..], s[1..])
    else if pattern[0] == '\\' then
      |pattern| > 1 && s != "" && s[0] == pattern[1] && Like(pattern[2..], s[1..])
    else s != "" && s[0] == pattern[0] && Like(pattern[1..], s[1..])
  }

  /** A backslash takes away the meaning of what follows it, and stands for nothing itself. */
  lemma EscapedIsLiteral(c: char, rest: string, s: string)
    ensures Like(['\\', c] + rest, s) <==> s != "" && s[0] == c && Like(rest, s[1..])
    ensures !Like("\\", s)
  {
    var pattern := ['\\', c] + rest;
    assert pattern[0] == '\\' && pattern[1] == c && pattern[2..] == rest;
  }

  /** `_allowed_destination_clause` on one stored path. */
  predicate AllowedClause(roots: seq<string>, path: string) {
    exists i :: 0 <= i < |roots| && MatchesRoot(roots[i], path)
  }

  predicate MatchesRoot(root: string, path: string) {
    path == root || Like(root + "/%", path)
  }

  predicate WildcardFree(s: string) {
    '%' !in s && '_' !in s && '\\' !in s
  }

  lemma {:induction false} PercentMatchesAll(s: string)
    ensures Like("%", s)
  {
    if s != "" {
      PercentMatchesAll(s[1..]);
    }
  }

  lemma {:induction false} LikeLiteralPrefix(prefix: string, s: string)
    requires WildcardFree(prefix)
    ensures Like(prefix + "%", s) <==> prefix <= s
  {
    var pattern := prefix + "%";
    if prefix == "" {
      PercentMatchesAll(s);
      assert pattern == "%";
    } else {
      assert pattern[1..] == prefix[1..] + "%";
      if s != "" {
        LikeLiteralPrefix(prefix[1..], s[1..]);
        if s[0] == prefix[0] && prefix[1..] <= s[1..] {
          assert prefix == [prefix[0]] + prefix[1..] && s == [s[0]] + s[1..];
        }
      }
    }
  }

  /** Writing a component list out under a longer one only appends after a slash. */
  lemma {:induction false} JoinPrefix(a: seq<string>, b: seq<string>)
    requires a != [] && a < b
    ensures Join(a) + "/" <= Join(b)
  {
    assert b[0] == a[0] && |b| > 1;
    if |a| > 1 {
      JoinPrefix(a[1..], b[1..]);
      assert Join(a) + "/" == a[0] + "/" + (Join(a[1..]) + "/");
    } else {
      assert Join(a) == a[0];
      assert Join(b) == (a[0] + "/") + Join(b[1..]);
    }
  }

  lemma WrittenOutStep(a: seq<string>, rest: string)
    requires |a| > 1
    ensures Join(a) + "/" + rest == a[0] + "/" + (Join(a[1..]) + "/" + rest)
  {
  }

  lemma HeadAndTail<T>(a: seq<T>, b: seq<T>)
    requires a != []
    ensures a + b == [a[0]] + (a[1..] + b)
  {
  }

  /** Text that continues a written-out list after a slash continues its component list. */
  lemma {:induction false} SplitAfterPrefix(a: seq<string>, rest: string)
    requires a != [] && SlashFree(a)
    ensures Split(Join(a) + "/" + rest) == a + Split(rest)
  {
    if |a| == 1 {
      SplitAt(a[0], rest);
    } else {
      SplitAfterPrefix(a[1..], rest);
      WrittenOutStep(a, rest);
      SplitAt(a[0], Join(a[1..]) + "/" + rest);
      HeadAndTail(a, Split(rest));
    }
  }

  lemma {:induction false} NonEmptyOfConcat(a: seq<string>, b: seq<string>)
    requires "" !in a
    ensures NonEmpty(a + b) == a + NonEmpty(b)
  {
    if a != [] {
      NonEmptyOfConcat(a[1..], b);
      assert (a + b)[1..] == a[1..] + b;
    } else {
      assert a + b == b;
    }
  }

  /** For normal forms below a real root, "equal, or continues after a slash" is the component
      prefix. */
  lemma TextPrefixIsComponentPrefix(root: string, path: string)
    requires IsCanonical(root) && IsCanonical(path) && root != "/"
    ensures path == root || root + "/" <= path <==> Components(root) <= Components(path)
  {
    var r, p := Components(root), Components(path);
    assert root == "/" + Join(r) && path == "/" + Join(p) && r != [];
    if root + "/" <= path {
      LongerTextHasMoreComponents(root, path);
    }
    if r < p {
      JoinPrefix(r, p);
      assert root + "/" == "/" + (Join(r) + "/");
      assert root + "/" <= path;
    } else if r == p {
      assert path == root;
    }
  }

  lemma LongerTextHasMoreComponents(root: string, path: string)
    requires IsCanonical(root) && IsCanonical(path) && root != "/" && root + "/" <= path
    ensures Components(root) <= Components(path)
  {
    var r, rest := Components(root), path[|root| + 1..];
    SplitIsSlashFree(root);
    assert root == "/" + Join(r) && r != [];
    assert path[1..] == Join(r) + "/" + rest by {
      assert path == root + "/" + rest;
    }
    SplitAfterPrefix(r, rest);
    NonEmptyOfConcat(r, Split(rest));
    assert Split(path) == [""] + (r + Split(rest));
    assert ([""] + (r + Split(rest)))[1..] == r + Split(rest);
  }

  /** The SQL filter selects exactly the stored paths that the root search accepts. */
  lemma SqlFilterIsTheRootSearch(roots: seq<string>, path: string)
    requires IsCanonical(path)
    requires forall i :: 0 <= i < |roots| ==> IsCanonical(roots[i]) && WildcardFree(roots[i]) && roots[i] != "/"
    ensures AllowedClause(roots, path) <==> AllowedRoot(roots, path).Some?
  {
    AllowedRootIsTheFirst(roots, path);
    forall i | 0 <= i < |roots|
      ensures MatchesRoot(roots[i], path) <==> Contains(roots[i], path)
    {
      TextPrefixIsComponentPrefix(roots[i], path);
      LikeLiteralPrefix(roots[i] + "/", path);
      assert roots[i] + "/" + "%" == roots[i] + "/%";
    }
  }

  /* ---- Roots with wildcards ---- */

  predicate Wildcard(c: char) {
    c == '%' || c == '_'
  }

  /** Text of the pattern's length that differs from it at wildcards only. */
  predicate Resembles(pattern: string, s: string) {
    && |pattern| == |s|
    && forall i :: 0 <= i < |pattern| ==> pattern[i] != '\\' && (pattern[i] == s[i] || Wildcard(pattern[i]))
  }

  lemma {:induction false} ResemblingTextMatches(pattern: string, s: string, rest: string, tail: string)
    requires Resembles(pattern, s) && Like(rest, tail)
    ensures Like(pattern + rest, s + tail)
  {
    if pattern == "" {
      assert pattern + rest == rest && s + tail == tail;
    } else {
      ResemblingTextMatches(pattern[1..], s[1..], rest, tail);
      var more, text := pattern[1..] + rest, s[1..] + tail;
      assert pattern + rest == [pattern[0]] + more && s + tail == [s[0]] + text;
      assert ([pattern[0]] + more)[1..] == more && ([s[0]] + text)[1..] == text;
      if pattern[0] == '%' {
        assert Like([pattern[0]] + more, text);
      }
    }
  }

  lemma {:induction false} JoinResembles(a: seq<string>, b: seq<string>)
    requires |a| == |b| && forall i :: 0 <= i < |a| ==> Resembles(a[i], b[i])
    ensures Resembles(Join(a), Join(b))
  {
    if |a| > 1 {
      JoinResembles(a[1..], b[1..]);
    }
  }

  lemma {:induction false} JoinAppend(a: seq<string>, b: string)
    requires a != []
    ensures Join(a + [b]) == Join(a) + "/" + b
  {
    if |a| == 1 {
      assert a + [b] == [a[0], b] && [a[0], b][1..] == [b];
    } else {
      JoinAppend(a[1..], b);
      assert (a + [b])[1..] == a[1..] + [b];
      assert a[0] + "/" + (Join(a[1..]) + "/" + b) == a[0] + "/" + Join(a[1..]) + "/" + b;
    }
  }

  /** The components of a root with one wildcard written over, and a folder below. */
  function Sibling(r: seq<string>, k: nat, j: nat, c: char): seq<string>
    requires k < |r| && j < |r[k]|
  {
    r[k := r[k][j := c]] + ["x"]
  }

  predicate Ordinary(c: char) {
    c !in ['/', '\\', '\0', '.', '%', '_']
  }

  /** The filter of a root lets every such sibling through. */
  lemma SiblingsMatch(root: string, k: nat, j: nat, c: char)
    requires IsCanonical(root) && k < |Components(root)| && j < |Components(root)[k]|
    requires Wildcard(Components(root)[k][j]) && Ordinary(c)
    ensures var p := Sibling(Components(root), k, j, c);
            Clean(p) && IsCanonical("/" + Join(p)) && Components("/" + Join(p)) == p
            && MatchesRoot(root, "/" + Join(p))
  {
    var r := Components(root);
    var other := r[k := r[k][j := c]];
    ComponentsAreClean(root);
    SiblingIsClean(r, k, j, c);
    CleanNamesAreCanonical(Sibling(r, k, j, c));
    forall i | 0 <= i < |r|
      ensures Resembles(r[i], other[i])
    {
      assert r[i] in r;
    }
    ResemblingSiblingMatches(r, other);
  }

  /** One more folder below a path that the root's pattern takes for the root. */
  lemma ResemblingSiblingMatches(r: seq<string>, other: seq<string>)
    requires |r| == |other| && |r| > 0 && forall i :: 0 <= i < |r| ==> Resembles(r[i], other[i])
    ensures Like("/" + Join(r) + "/%", "/" + Join(other + ["x"]))
  {
    JoinResembles(r, other);
    assert Resembles("/" + Join(r), "/" + Join(other));
    PercentMatchesAll("x");
    LikeLiteralPrefix("/", "/x");
    ResemblingTextMatches("/" + Join(r), "/" + Join(other), "/%", "/x");
    JoinAppend(other, "x");
    assert "/" + Join(other) + "/x" == "/" + Join(other + ["x"]);
  }

  lemma ComponentsAreClean(path: string)
    requires Acceptable(path)
    ensures Clean(Components(path))
  {
    SplitIsSlashFree(path);
  }

  lemma SiblingIsClean(r: seq<string>, k: nat, j: nat, c: char)
    requires Clean(r) && k < |r| && j < |r[k]| && Ordinary(c)
    ensures Clean(Sibling(r, k, j, c))
  {
    var name := r[k][j := c];
    assert name[j] == c && r[k] in r;
    forall part | part in Sibling(r, k, j, c)
      ensures part != "" && part != "." && part != ".." && '/' !in part && '\\' !in part && '\0' !in part
    {
      if part == name {
        assert "."[0] == '.' && ".."[0] == '.' && ".."[1] == '.';
      } else if part != "x" {
        assert part in r;
      }
    }
  }

  /** A wildcard of a normal form stands in one of its components. */
  lemma WildcardPlace(root: string) returns (k: nat, j: nat)
    requires IsCanonical(root) && !WildcardFree(root)
    ensures k < |Components(root)| && j < |Components(root)[k]| && Wildcard(Components(root)[k][j])
    ensures forall i :: 0 <= i < k ==> WildcardFree(Components(root)[i])
  {
    var r := Components(root);
    ComponentsAreClean(root);
    var w := if '%' in root then '%' else '_';
    assert root == "/" + Join(r) && w in root && w in Join(r);
    JoinedCharacters(r, w);
    k := 0;
    while WildcardFree(r[k])
      invariant k < |r| && forall i :: 0 <= i < k ==> WildcardFree(r[i])
      invariant exists part :: part in r[k..] && w in part
      decreases |r| - k
    {
      assert r[k..] == [r[k]] + r[k + 1..];
      k := k + 1;
    }
    assert r[k] in r;
    j :| 0 <= j < |r[k]| && Wildcard(r[k][j]);
  }

  ghost predicate FilterAgrees(roots: seq<string>) {
    forall path :: IsCanonical(path) ==> (AllowedClause(roots, path) <==> AllowedRoot(roots, path).Some?)
  }

  /** Every root with a wildcard, wherever it stands, lets a folder through that is not under it. */
  lemma WildcardRootLeaks(root: string) returns (path: string)
    requires IsCanonical(root) && !WildcardFree(root)
    ensures IsCanonical(path) && AllowedClause([root], path) && AllowedRoot([root], path).None?
  {
    var k, j := WildcardPlace(root);
    var p := Sibling(Components(root), k, j, 'x');
    path := "/" + Join(p);
    SiblingsMatch(root, k, j, 'x');
    assert MatchesRoot([root][0], path);
    AllowedRootIsTheFirst([root], path);
    assert p[k][j] == 'x' != Components(root)[k][j];
  }

  /** For one root the filter and the search agree exactly when the root holds no wildcard. */
  lemma FilterAgreesExactlyWithoutWildcards(root: string)
    requires IsCanonical(root) && root != "/"
    ensures FilterAgrees([root]) <==> WildcardFree(root)
  {
    if WildcardFree(root) {
      forall path | IsCanonical(path)
        ensures AllowedClause([root], path) <==> AllowedRoot([root], path).Some?
      {
        SqlFilterIsTheRootSearch([root], path);
      }
    } else {
      var path := WildcardRootLeaks(root);
    }
  }

  /* ---- Several roots ---- */

  /** A root without wildcards that contains `path`. */
  predicate Covered(roots: seq<string>, path: string) {
    exists j :: 0 <= j < |roots| && WildcardFree(roots[j]) && Contains(roots[j], path)
  }

  predicate Usable(roots: seq<string>) {
    forall i :: 0 <= i < |roots| ==> IsCanonical(roots[i]) && roots[i] != "/"
  }

  lemma {:induction false} LiteralPrefixOfMatch(literal: string, pattern: string, s: string)
    requires WildcardFree(literal) && Like(literal + pattern, s)
    ensures literal <= s
  {
    if literal != "" {
      assert (literal + pattern)[1..] == literal[1..] + pattern;
      LiteralPrefixOfMatch(literal[1..], pattern, s[1..]);
      assert literal == [literal[0]] + literal[1..] && s == [s[0]] + s[1..];
    }
  }

  /** What the filter of a covered root lets through is under the covering root. */
  lemma CoveredRootKeepsIn(cover: string, root: string, path: string)
    requires IsCanonical(cover) && IsCanonical(root) && IsCanonical(path) && cover != "/"
    requires WildcardFree(cover) && Contains(cover, root) && MatchesRoot(root, path)
    ensures Contains(cover, path)
  {
    TextPrefixIsComponentPrefix(cover, root);
    TextPrefixIsComponentPrefix(cover, path);
    if path != root {
      if root == cover {
        assert root + "/%" == (cover + "/") + "%";
        LiteralPrefixOfMatch(cover + "/", "%", path);
      } else {
        var rest := root[|cover| + 1..];
        assert root + "/%" == (cover + "/") + (rest + "/%");
        LiteralPrefixOfMatch(cover + "/", rest + "/%", path);
      }
    }
  }

  /** The filter misses nothing that the search accepts. */
  lemma ContainedPathMatches(root: string, path: string)
    requires IsCanonical(root) && IsCanonical(path) && root != "/" && Contains(root, path)
    ensures MatchesRoot(root, path)
  {
    TextPrefixIsComponentPrefix(root, path);
    if path != root {
      var rest := path[|root| + 1..];
      PercentMatchesAll(rest);
      assert "/%"[1..] == "%" && ("/" + rest)[1..] == rest;
      ResemblingTextMatches(root, root, "/%", "/" + rest);
      assert path == root + ("/" + rest);
    }
  }

  lemma CoveredMatchIsAccepted(roots: seq<string>, i: nat, path: string)
    requires Usable(roots) && IsCanonical(path) && i < |roots|
    requires Covered(roots, roots[i]) && MatchesRoot(roots[i], path)
    ensures AllowedRoot(roots, path).Some?
  {
    var j :| 0 <= j < |roots| && WildcardFree(roots[j]) && Contains(roots[j], roots[i]);
    CoveredRootKeepsIn(roots[j], roots[i], path);
    AllowedRootIsTheFirst(roots, path);
  }

  lemma AcceptedMatches(roots: seq<string>, path: string)
    requires Usable(roots) && IsCanonical(path) && AllowedRoot(roots, path).Some?
    ensures AllowedClause(roots, path)
  {
    AllowedRootIsTheFirst(roots, path);
    var i :| 0 <= i < |roots| && Contains(roots[i], path);
    ContainedPathMatches(roots[i], path);
  }

  lemma CoveredRootsAgree(roots: seq<string>, path: string)
    requires Usable(roots) && IsCanonical(path) && forall i :: 0 <= i < |roots| ==> Covered(roots, roots[i])
    ensures AllowedClause(roots, path) <==> AllowedRoot(roots, path).Some?
  {
    if AllowedClause(roots, path) {
      var i :| 0 <= i < |roots| && MatchesRoot(roots[i], path);
      CoveredMatchIsAccepted(roots, i, path);
    } else if AllowedRoot(roots, path).Some? {
      AcceptedMatches(roots, path);
    }
  }

  lemma WildcardFreeComponents(root: string)
    requires IsCanonical(root) && forall i :: 0 <= i < |Components(root)| ==> WildcardFree(Components(root)[i])
    ensures WildcardFree(root)
  {
    var r := Components(root);
    forall w | w in {'%', '_', '\\'}
      ensures w !in root
    {
      if w in Join(r) {
        JoinedCharacters(r, w);
      }
    }
  }

  lemma UncoveredRootLeaks(roots: seq<string>, i: nat, c: char)
    requires Usable(roots) && i < |roots| && !Covered(roots, roots[i])
    requires Ordinary(c) && forall m :: 0 <= m < |roots| ==> c !in roots[m]
    ensures !FilterAgrees(roots)
  {
    var r := Components(roots[i]);
    assert Contains(roots[i], roots[i]);
    var k, j := WildcardPlace(roots[i]);
    var p := Sibling(r, k, j, c);
    SiblingsMatch(roots[i], k, j, c);
    var path := "/" + Join(p);
    assert AllowedClause(roots, path);
    AllowedRootIsTheFirst(roots, path);
    forall m | 0 <= m < |roots|
      ensures !Contains(roots[m], path)
    {
      OtherRootsMissTheSibling(roots, i, m, k, j, c);
    }
  }

  lemma OtherRootsMissTheSibling(roots: seq<string>, i: nat, m: nat, k: nat, j: nat, c: char)
    requires Usable(roots) && i < |roots| && m < |roots| && !Covered(roots, roots[i]) && c !in roots[m]
    requires k < |Components(roots[i])| && j < |Components(roots[i])[k]|
    requires forall n :: 0 <= n < k ==> WildcardFree(Components(roots[i])[n])
    ensures !(Components(roots[m]) <= Sibling(Components(roots[i]), k, j, c))
  {
    var r, q := Components(roots[i]), Components(roots[m]);
    var p := Sibling(r, k, j, c);
    assert p[k][j] == c;
    if |q| > k {
      SplitIsSlashFree(roots[m]);
      assert q[k] in q && c !in q[k];
    } else if q <= p {
      assert forall n :: 0 <= n < |q| ==> q[n] == p[n] == r[n];
      WildcardFreeComponents(roots[m]);
      assert Contains(roots[m], roots[i]);
    }
  }

  /** For any list of roots the filter and the search agree exactly when every root lies under one
      without wildcards, provided some ordinary character occurs in no root. */
  lemma FilterAgreesExactlyWhenCovered(roots: seq<string>, c: char)
    requires Usable(roots) && Ordinary(c) && forall m :: 0 <= m < |roots| ==> c !in roots[m]
    ensures FilterAgrees(roots) <==> forall i :: 0 <= i < |roots| ==> Covered(roots, roots[i])
  {
    if forall i :: 0 <= i < |roots| ==> Covered(roots, roots[i]) {
      forall path | IsCanonical(path)
        ensures AllowedClause(roots, path) <==> AllowedRoot(roots, path).Some?
      {
        CoveredRootsAgree(roots, path);
      }
    } else {
      var i :| 0 <= i < |roots| && !Covered(roots, roots[i]);
      UncoveredRootLeaks(roots, i, c);
    }
  }

  /** The file-system root as an allowed root contains every path, but the filter finds only itself.
      (Configuration strips trailing slashes and refuses what is then empty.) */
  lemma SlashRootIsLost(path: string)
    requires IsCanonical(path)
    ensures AllowedRoot(["/"], path).Some?
    ensures AllowedClause(["/"], path) <==> path == "/"
  {
    WrittenOut([]);
    assert "/" + Join([]) == "/";
    UnderRootIsComponentPrefix("/", path);
    LikeLiteralPrefix("//", path);
    assert ["/"][0] + "/%" == "//" + "%";
    var p := Components(path);
    SplitIsSlashFree(path);
    assert path == "/" + Join(p);
    if p != [] {
      assert p[0] in p && p[0][0] in p[0];
      assert path[1] == Join(p)[0] == p[0][0] != '/';
    }
    if path == "/" {
      assert MatchesRoot(["/"][0], path);
    }
  }

  /** `_reject_duplicate_paths`: passes exactly when no two folders share a path. */
  method RejectDuplicatePaths(paths: seq<string>) returns (ok: bool)
    ensures ok <==> forall i, j :: 0 <= i < j < |paths| ==> paths[i] != paths[j]
  {
    var seen: set<string> := {};
    for n := 0 to |paths|
      invariant seen == set k | 0 <= k < n :: paths[k]
      invariant forall i, j :: 0 <= i < j < n ==> paths[i] != paths[j]
    {
      if paths[n] in seen {
        return false;
      }
      seen := seen + {paths[n]};
    }
    return true;
  }
}

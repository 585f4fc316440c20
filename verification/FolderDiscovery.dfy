/** The bounded, paginated folder discovery of app/tools/synology.py. */
module FolderDiscovery {
  import opened Values
  import opened SynologyPaths

  /** One item of a directory listing; `Malformed` has no usable path or name. */
  datatype Entry = Malformed | Entry(path: string, name: string, realPath: Option<string>, writable: bool)

  datatype Folder = Folder(path: string, name: string, writable: bool, symlink: bool)

  datatype Discovery = BadBounds | BadPath | Found(folders: seq<Folder>)

  /** What the NAS answers: the directory listing of every path, and whether it reports totals. */
  datatype Nas = Nas(listing: string -> seq<Entry>, reportsTotal: bool)

  function Page(entries: seq<Entry>, offset: nat, limit: nat): (page: seq<Entry>)
    requires offset <= |entries|
    ensures |page| <= limit && offset + |page| <= |entries|
    ensures page == entries[offset..offset + |page|]
    ensures |page| < limit ==> offset + |page| == |entries|
  {
    if offset + limit <= |entries| then entries[offset..offset + limit] else entries[offset..]
  }

  /** `_is_symlink`: the share-relative components must be the tail of the real path. */
  function IsSymlink(path: string, realPath: Option<string>): Option<bool> {
    if realPath.None? then Some(false)
    else
      match Canonical(realPath.value)
      case None => None
      case Some(target) =>
        var all := Components(path);
        var relative := if all == [] then [] else all[1..];
        var parts := Components(target);
        Some(relative != []
             && !(|relative| <= |parts| && parts[|parts| - |relative|..] == relative))
  }

  /** What an entry comes to: nothing, a real folder, or a path error. */
  datatype Reading = Skip | Keep(folder: Folder) | Raise

  function ReadEntry(root: string, e: Entry): Reading {
    if e.Malformed? then Skip
    else
      match CanonicalUnderRoot(root, e.path)
      case None => Raise
      case Some(path) =>
        match IsSymlink(path, e.realPath)
        case None => Raise
        case Some(symlink) =>
          if symlink then Skip
          else Keep(Folder(path, if |e.name| > 200 then e.name[..200] else e.name, e.writable, false))
  }

  /** The share-relative names of a folder are the last ones of its real path. */
  ghost predicate InPlace(path: string, realPath: string) {
    Components(path) == [] || exists volume :: Components(realPath) == volume + Components(path)[1..]
  }

  /** An entry without path or name is skipped. Any other one raises exactly when it leaves the root or one of
      its paths is unacceptable, and is kept exactly when it does not and is no symbolic link: as its normal form
      and the first two hundred characters of its name. */
  lemma EntryIsReadExactly(root: string, e: Entry)
    requires Acceptable(root)
    ensures match e
            case Malformed => ReadEntry(root, e) == Skip
            case Entry(path, name, realPath, writable) =>
              if !Acceptable(path) || !(Components(root) <= Components(path))
                 || (realPath.Some? && !Acceptable(realPath.value))
              then ReadEntry(root, e) == Raise
              else if realPath.None? || InPlace(path, realPath.value) then
                && ReadEntry(root, e).Keep?
                && var folder := ReadEntry(root, e).folder;
                && folder.path == "/" + Join(Components(path)) && folder.writable == writable && !folder.symlink
                && folder.name <= name && |folder.name| == (if |name| > 200 then 200 else |name|)
              else ReadEntry(root, e) == Skip
  {
    if e.Entry? && Acceptable(e.path) {
      CanonicalKeepsComponentsAndIsIdempotent(root);
      CanonicalKeepsComponentsAndIsIdempotent(e.path);
      if e.realPath.Some? && Acceptable(e.realPath.value) {
        CanonicalKeepsComponentsAndIsIdempotent(e.realPath.value);
        var all, parts := Components(e.path), Components(e.realPath.value);
        if all != [] {
          TailMeans(parts, all[1..]);
        }
      }
    }
  }

  lemma TailMeans(parts: seq<string>, tail: seq<string>)
    ensures |tail| <= |parts| && parts[|parts| - |tail|..] == tail <==> exists volume :: parts == volume + tail
  {
    if |tail| <= |parts| && parts[|parts| - |tail|..] == tail {
      assert parts == parts[..|parts| - |tail|] + tail;
    }
    if volume :| parts == volume + tail {
      assert parts[|volume|..] == tail;
    }
  }

  /** A directory tree: what is in each directory, and how its entries are read. */
  datatype Tree = Tree(listing: string -> seq<Entry>, read: Entry -> Reading)

  function TreeUnder(nas: Nas, root: string): Tree {
    Tree(nas.listing, e => ReadEntry(root, e))
  }

  function Kept(reading: Reading): seq<Folder> {
    if reading.Keep? then [reading.folder] else []
  }

  /** The real folders among the entries. */
  function RealFolders(t: Tree, entries: seq<Entry>): seq<Folder> {
    if entries == [] then [] else Kept(t.read(entries[0])) + RealFolders(t, entries[1..])
  }

  function Paths(folders: seq<Folder>): (r: seq<string>)
    ensures |r| == |folders|
    ensures forall i :: 0 <= i < |folders| ==> r[i] == folders[i].path
  {
    seq(|folders|, i requires 0 <= i < |folders| => folders[i].path)
  }

  /* ---- The breadth-first listing, level by level ---- */

  function Children(t: Tree, parent: string): seq<Folder> {
    RealFolders(t, t.listing(parent))
  }

  function LevelBelow(t: Tree, parents: seq<string>): seq<Folder> {
    if parents == [] then []
    else Children(t, parents[0]) + LevelBelow(t, parents[1..])
  }

  /** The real folders below `parents`, `levels` levels deep, a whole level before the next. */
  function BreadthFirst(t: Tree, parents: seq<string>, levels: nat): seq<Folder>
    decreases levels
  {
    if levels == 0 then []
    else
      var level := LevelBelow(t, parents);
      level + BreadthFirst(t, Paths(level), levels - 1)
  }

  /** `f` is reached from `parent` through `n` steps from a real folder to a real folder inside it. */
  ghost predicate Reached(t: Tree, parent: string, f: Folder, n: nat)
    decreases n
  {
    if n == 0 then false
    else if n == 1 then f in Children(t, parent)
    else exists g :: g in Children(t, parent) && Reached(t, g.path, f, n - 1)
  }

  lemma InPaths(folders: seq<Folder>, path: string)
    ensures path in Paths(folders) <==> exists f :: f in folders && f.path == path
  {
    if f :| f in folders && f.path == path {
      var i :| 0 <= i < |folders| && folders[i] == f;
      assert Paths(folders)[i] == path;
    }
  }

  lemma {:induction false} InLevelBelow(t: Tree, parents: seq<string>, f: Folder)
    ensures f in LevelBelow(t, parents)
            <==> exists p :: p in parents && f in Children(t, p)
  {
    if parents != [] {
      InLevelBelow(t, parents[1..], f);
      if f in LevelBelow(t, parents[1..]) {
        var p :| p in parents[1..] && f in Children(t, p);
        assert p in parents;
      }
    }
  }

  lemma {:induction false} ListedIsReached(t: Tree, parents: seq<string>, levels: nat, f: Folder)
    requires f in BreadthFirst(t, parents, levels)
    ensures exists n, p :: 1 <= n <= levels && p in parents && Reached(t, p, f, n)
    decreases levels
  {
    var level := LevelBelow(t, parents);
    InLevelBelow(t, parents, f);
    if f in level {
      var p :| p in parents && f in Children(t, p);
      assert Reached(t, p, f, 1);
    } else {
      ListedIsReached(t, Paths(level), levels - 1, f);
      var n, q :| 1 <= n <= levels - 1 && q in Paths(level) && Reached(t, q, f, n);
      InPaths(level, q);
      var g :| g in level && g.path == q;
      InLevelBelow(t, parents, g);
      var p :| p in parents && g in Children(t, p);
      assert Reached(t, p, f, n + 1);
    }
  }

  lemma {:induction false} ReachedIsListed(t: Tree, parents: seq<string>, levels: nat, f: Folder, n: nat, p: string)
    requires 1 <= n <= levels && p in parents && Reached(t, p, f, n)
    ensures f in BreadthFirst(t, parents, levels)
    decreases levels
  {
    var level := LevelBelow(t, parents);
    var deeper := BreadthFirst(t, Paths(level), levels - 1);
    if n == 1 {
      ChildInLevel(t, parents, p, f);
    } else {
      var g :| g in Children(t, p) && Reached(t, g.path, f, n - 1);
      ChildInLevel(t, parents, p, g);
      ReachedIsListed(t, Paths(level), levels - 1, f, n - 1, g.path);
    }
    InEither(level, deeper, f);
  }

  lemma InEither<T>(a: seq<T>, b: seq<T>, x: T)
    requires x in a || x in b
    ensures x in a + b
  {
  }

  lemma ChildInLevel(t: Tree, parents: seq<string>, p: string, f: Folder)
    requires p in parents && f in Children(t, p)
    ensures f in LevelBelow(t, parents) && f.path in Paths(LevelBelow(t, parents))
  {
    InLevelBelow(t, parents, f);
    InPaths(LevelBelow(t, parents), f.path);
  }

  /** The listing holds exactly the folders that real folders lead to within the depth. */
  lemma ListedExactlyWhenReached(t: Tree, parents: seq<string>, levels: nat, f: Folder)
    ensures f in BreadthFirst(t, parents, levels)
            <==> exists n, p :: 1 <= n <= levels && p in parents && Reached(t, p, f, n)
  {
    if f in BreadthFirst(t, parents, levels) {
      ListedIsReached(t, parents, levels, f);
    }
    forall n, p | 1 <= n <= levels && p in parents && Reached(t, p, f, n)
      ensures f in BreadthFirst(t, parents, levels)
    {
      ReachedIsListed(t, parents, levels, f, n, p);
    }
  }

  /** Real, in normal form and under the root. */
  predicate Genuine(root: string, f: Folder) {
    !f.symlink && Contains(root, f.path) && IsCanonical(f.path)
  }

  ghost predicate ReadsGenuine(t: Tree, root: string) {
    forall e :: t.read(e).Keep? ==> Genuine(root, t.read(e).folder)
  }

  lemma TreeReadsGenuine(nas: Nas, root: string)
    ensures ReadsGenuine(TreeUnder(nas, root), root)
  {
    forall e | ReadEntry(root, e).Keep?
      ensures Genuine(root, ReadEntry(root, e).folder)
    {
      UnderRootIsComponentPrefix(root, e.path);
      CanonicalKeepsComponentsAndIsIdempotent(e.path);
    }
  }

  lemma {:induction false} RealFoldersAreGenuine(t: Tree, root: string, entries: seq<Entry>)
    requires ReadsGenuine(t, root)
    ensures forall f :: f in RealFolders(t, entries) ==> Genuine(root, f)
  {
    if entries != [] {
      RealFoldersAreGenuine(t, root, entries[1..]);
    }
  }

  lemma {:induction false} LevelIsGenuine(t: Tree, root: string, parents: seq<string>)
    requires ReadsGenuine(t, root)
    ensures forall f :: f in LevelBelow(t, parents) ==> Genuine(root, f)
  {
    if parents != [] {
      RealFoldersAreGenuine(t, root, t.listing(parents[0]));
      LevelIsGenuine(t, root, parents[1..]);
    }
  }

  /** Whatever is listed is a real folder under the root. */
  lemma {:induction false} ListedAreGenuine(t: Tree, root: string, parents: seq<string>, levels: nat)
    requires ReadsGenuine(t, root)
    ensures forall f :: f in BreadthFirst(t, parents, levels) ==> Genuine(root, f)
    decreases levels
  {
    if levels > 0 {
      LevelIsGenuine(t, root, parents);
      ListedAreGenuine(t, root, Paths(LevelBelow(t, parents)), levels - 1);
    }
  }

  /* ---- The rest of a traversal ---- */

  /** What is still to be listed: the rest of the level being read, then everything below the folders
      queued so far and those the rest will queue. */
  function Rest(t: Tree, current: seq<string>, next: seq<string>, levels: nat): seq<Folder>
    requires levels > 0
  {
    var level := LevelBelow(t, current);
    level + BreadthFirst(t, next + Paths(level), levels - 1)
  }

  lemma PathsConcat(a: seq<Folder>, b: seq<Folder>)
    ensures Paths(a + b) == Paths(a) + Paths(b)
  {
  }

  /** The folders queued for the next level, after reading `folders`. */
  function Queued(next: seq<string>, folders: seq<Folder>, levels: nat): seq<string> {
    if levels > 1 then next + Paths(folders) else next
  }

  lemma QueuedConcat(next: seq<string>, a: seq<Folder>, b: seq<Folder>, levels: nat)
    ensures Queued(Queued(next, a, levels), b, levels) == Queued(next, a + b, levels)
  {
    PathsConcat(a, b);
  }

  /** Reading one directory moves its children from the rest to the results. */
  lemma AfterOneFolder(t: Tree, done: seq<Folder>, current: seq<string>, next: seq<string>, levels: nat)
    requires levels > 0 && current != []
    ensures var kids := Children(t, current[0]);
            done + Rest(t, current, next, levels)
            == (done + kids) + Rest(t, current[1..], Queued(next, kids, levels), levels)
  {
    var kids := Children(t, current[0]);
    var others := LevelBelow(t, current[1..]);
    PathsConcat(kids, others);
    var below := BreadthFirst(t, next + Paths(kids + others), levels - 1);
    assert next + Paths(kids + others) == (next + Paths(kids)) + Paths(others);
    assert done + ((kids + others) + below) == (done + kids) + (others + below);
  }

  lemma RestAtLevelEnd(t: Tree, next: seq<string>, levels: nat)
    requires levels > 0
    ensures Rest(t, [], next, levels) == BreadthFirst(t, next, levels - 1)
    ensures levels > 1 ==> Rest(t, [], next, levels) == Rest(t, next, [], levels - 1)
  {
    assert next + Paths([]) == next;
    if levels > 1 {
      assert [] + Paths(LevelBelow(t, next)) == Paths(LevelBelow(t, next));
    }
  }

  lemma {:induction false} RestOfNothing(t: Tree, levels: nat)
    requires levels > 0
    ensures Rest(t, [], [], levels) == []
  {
    assert [] + Paths([]) == [];
    if levels > 1 {
      RestOfNothing(t, levels - 1);
    }
  }

  /* ---- Facts the loops need ---- */

  lemma PrefixTransitive<T>(a: seq<T>, b: seq<T>, c: seq<T>)
    requires a <= b <= c
    ensures a <= c
  {
  }

  lemma PrefixAfter<T>(base: seq<T>, a: seq<T>, b: seq<T>)
    requires a <= b
    ensures base + a <= base + b
  {
  }

  lemma Associative<T>(a: seq<T>, b: seq<T>, c: seq<T>)
    ensures (a + b) + c == a + (b + c)
  {
  }

  lemma {:induction false} RealFoldersConcat(t: Tree, a: seq<Entry>, b: seq<Entry>)
    ensures RealFolders(t, a + b) == RealFolders(t, a) + RealFolders(t, b)
  {
    if a == [] {
      assert a + b == b;
    } else {
      RealFoldersConcat(t, a[1..], b);
      assert a + b == [a[0]] + (a[1..] + b);
      Associative(Kept(t.read(a[0])), RealFolders(t, a[1..]), RealFolders(t, b));
    }
  }

  /** Reading entries `from..to` of a listing after the ones before them. */
  lemma ReadOn(t: Tree, entries: seq<Entry>, from: nat, to: nat)
    requires from <= to <= |entries|
    ensures RealFolders(t, entries[..from]) + RealFolders(t, entries[from..to])
            == RealFolders(t, entries[..to]) <= RealFolders(t, entries)
  {
    RealFoldersConcat(t, entries[..from], entries[from..to]);
    assert entries[..from] + entries[from..to] == entries[..to];
    RealFoldersConcat(t, entries[..to], entries[to..]);
    assert entries[..to] + entries[to..] == entries;
  }

  lemma ReadOneMore(t: Tree, entries: seq<Entry>, n: nat)
    requires n < |entries|
    ensures RealFolders(t, entries[..n]) + Kept(t.read(entries[n]))
            == RealFolders(t, entries[..n + 1]) <= RealFolders(t, entries)
  {
    ReadOn(t, entries, n, n + 1);
    assert entries[n..n + 1] == [entries[n]];
    assert RealFolders(t, [entries[n]]) == Kept(t.read(entries[n])) + [];
  }

  /* ---- The discovery ---- */

  datatype Waiting = Waiting(path: string, depth: nat)

  /** The queue holds what is left of one level, then what was found for the next. */
  predicate Layered(queue: seq<Waiting>, current: seq<string>, next: seq<string>, depth: nat) {
    && |queue| == |current| + |next|
    && (forall i :: 0 <= i < |current| ==> queue[i] == Waiting(current[i], depth))
    && (forall i :: |current| <= i < |queue| ==> queue[i] == Waiting(next[i - |current|], depth + 1))
  }

  lemma LayeredPush(queue: seq<Waiting>, current: seq<string>, next: seq<string>, depth: nat, path: string)
    requires Layered(queue, current, next, depth)
    ensures Layered(queue + [Waiting(path, depth + 1)], current, next + [path], depth)
  {
  }

  /** The loop over one page. It stops in the middle only when the results are full. */
  method TakePage(t: Tree, page: seq<Entry>, depth: nat, maxDepth: nat, maxResults: nat,
                  results: seq<Folder>, queue: seq<Waiting>, ghost current: seq<string>, ghost next: seq<string>)
    returns (ok: bool, results': seq<Folder>, queue': seq<Waiting>)
    requires |results| < maxResults && depth <= maxDepth
    requires Layered(queue, current, next, depth)
    ensures ok ==> |results'| <= maxResults && results' <= results + RealFolders(t, page)
    ensures ok && |results'| < maxResults ==>
              && results' == results + RealFolders(t, page)
              && Layered(queue', current, Queued(next, RealFolders(t, page), maxDepth + 1 - depth), depth)
    ensures !ok ==> exists e :: e in page && t.read(e).Raise?
  {
    results', queue' := results, queue;
    ghost var read: seq<Folder> := [];
    ghost var levels := maxDepth + 1 - depth;
    assert Queued(next, [], levels) == next;
    var n := 0;
    while n < |page|
      invariant 0 <= n <= |page|
      invariant |results'| < maxResults
      invariant read == RealFolders(t, page[..n])
      invariant results' == results + read
      invariant Layered(queue', current, Queued(next, read, levels), depth)
    {
      var item := page[n];
      ReadOneMore(t, page, n);
      var reading := t.read(item);
      if reading.Raise? {
        assert item in page;
        return false, results', queue';
      }
      if reading.Keep? {
        QueuedConcat(next, read, [reading.folder], levels);
        ghost var before := Queued(next, read, levels);
        read := read + [reading.folder];
        results' := results' + [reading.folder];
        if depth < maxDepth {
          LayeredPush(queue', current, before, depth, reading.folder.path);
          queue' := queue' + [Waiting(reading.folder.path, depth + 1)];
        }
      }
      if |results'| >= maxResults {
        PrefixAfter(results, read, RealFolders(t, page));
        return true, results', queue';
      }
      n := n + 1;
    }
    assert page[..n] == page;
    ok := true;
  }

  /** The first `offset` entries of a directory are read: their folders follow `base`, and their paths
      wait behind the queue the directory started with. */
  predicate ReadTo(t: Tree, entries: seq<Entry>, offset: nat, base: seq<Folder>, results: seq<Folder>,
                   queue: seq<Waiting>, current: seq<string>, next: seq<string>, levels: nat, depth: nat)
  {
    && offset <= |entries|
    && results == base + RealFolders(t, entries[..offset])
    && Layered(queue, current, Queued(next, RealFolders(t, entries[..offset]), levels), depth)
  }

  lemma AfterPage(t: Tree, entries: seq<Entry>, from: nat, to: nat, base: seq<Folder>, results: seq<Folder>,
                  next: seq<string>, levels: nat)
    requires from <= to <= |entries|
    requires results == base + RealFolders(t, entries[..from])
    ensures results + RealFolders(t, entries[from..to]) == base + RealFolders(t, entries[..to])
            <= base + RealFolders(t, entries)
    ensures Queued(Queued(next, RealFolders(t, entries[..from]), levels), RealFolders(t, entries[from..to]), levels)
            == Queued(next, RealFolders(t, entries[..to]), levels)
  {
    var read, page := RealFolders(t, entries[..from]), RealFolders(t, entries[from..to]);
    ReadOn(t, entries, from, to);
    QueuedConcat(next, read, page, levels);
    PrefixAfter(base, read + page, RealFolders(t, entries));
    Associative(base, read, page);
  }

  /** One request of the inner loop and what it brings. */
  method ReadPage(t: Tree, entries: seq<Entry>, offset: nat, depth: nat, maxDepth: nat, maxResults: nat,
                  pageSize: nat, ghost base: seq<Folder>, results: seq<Folder>, queue: seq<Waiting>,
                  ghost current: seq<string>, ghost next: seq<string>)
    returns (ok: bool, results': seq<Folder>, queue': seq<Waiting>, size: nat)
    requires |results| < maxResults && depth <= maxDepth
    requires ReadTo(t, entries, offset, base, results, queue, current, next, maxDepth + 1 - depth, depth)
    ensures size <= pageSize && offset + size <= |entries| && (size < pageSize ==> offset + size == |entries|)
    ensures ok ==> |results'| <= maxResults && results' <= base + RealFolders(t, entries)
    ensures ok && |results'| < maxResults ==>
              ReadTo(t, entries, offset + size, base, results', queue', current, next, maxDepth + 1 - depth, depth)
    ensures !ok ==> exists e :: e in entries && t.read(e).Raise?
  {
    var page := Page(entries, offset, pageSize);
    size := |page|;
    ghost var levels := maxDepth + 1 - depth;
    AfterPage(t, entries, offset, offset + size, base, results, next, levels);
    ok, results', queue' :=
      TakePage(t, page, depth, maxDepth, maxResults, results, queue, current,
               Queued(next, RealFolders(t, entries[..offset]), levels));
    if ok {
      PrefixTransitive(results', results + RealFolders(t, page), base + RealFolders(t, entries));
    }
  }

  /** The inner loop: the pages of one directory. */
  method ReadDirectory(t: Tree, entries: seq<Entry>, reportsTotal: bool, depth: nat, maxDepth: nat,
                       maxPages: nat, maxResults: nat, pageSize: nat, results: seq<Folder>,
                       queue: seq<Waiting>, pages: nat, ghost current: seq<string>, ghost next: seq<string>)
    returns (ok: bool, results': seq<Folder>, queue': seq<Waiting>, pages': nat)
    requires |results| < maxResults && pages < maxPages && 0 < pageSize && depth <= maxDepth
    requires Layered(queue, current, next, depth)
    ensures pages < pages' <= maxPages
    ensures ok ==> |results'| <= maxResults && results' <= results + RealFolders(t, entries)
    ensures ok && |results'| < maxResults && pages' < maxPages ==>
              && results' == results + RealFolders(t, entries)
              && Layered(queue', current, Queued(next, RealFolders(t, entries), maxDepth + 1 - depth), depth)
    ensures !ok ==> exists e :: e in entries && t.read(e).Raise?
  {
    results', queue', pages' := results, queue, pages;
    ghost var levels := maxDepth + 1 - depth;
    NothingRead(t, entries, results, queue, current, next, levels, depth);
    var offset := 0;
    while pages' < maxPages && |results'| < maxResults
      invariant pages <= pages' <= maxPages && (pages' == pages ==> |results'| < maxResults)
      invariant |results'| <= maxResults && results' <= results + RealFolders(t, entries)
      invariant 0 <= offset <= |entries|
      invariant |results'| < maxResults ==>
                  ReadTo(t, entries, offset, results, results', queue', current, next, levels, depth)
      decreases maxPages - pages'
    {
      var total := if reportsTotal then Some(|entries|) else None;
      pages' := pages' + 1;
      var size;
      ok, results', queue', size :=
        ReadPage(t, entries, offset, depth, maxDepth, maxResults, pageSize, results, results', queue', current, next);
      if !ok {
        return;
      }
      offset := offset + size;
      if size == 0 || size < pageSize || (total.Some? && offset >= total.value) {
        AllRead(t, entries, results, results', queue', current, next, levels, depth);
        break;
      }
    }
    ok := true;
  }

  lemma NothingRead(t: Tree, entries: seq<Entry>, base: seq<Folder>, queue: seq<Waiting>, current: seq<string>,
                    next: seq<string>, levels: nat, depth: nat)
    requires Layered(queue, current, next, depth)
    ensures ReadTo(t, entries, 0, base, base, queue, current, next, levels, depth)
    ensures base <= base + RealFolders(t, entries)
  {
    assert Queued(next, [], levels) == next;
  }

  lemma AllRead(t: Tree, entries: seq<Entry>, base: seq<Folder>, results: seq<Folder>, queue: seq<Waiting>,
                current: seq<string>, next: seq<string>, levels: nat, depth: nat)
    ensures ReadTo(t, entries, |entries|, base, results, queue, current, next, levels, depth) ==>
              && results == base + RealFolders(t, entries)
              && Layered(queue, current, Queued(next, RealFolders(t, entries), levels), depth)
  {
    assert entries[..|entries|] == entries;
  }

  /** Only the root and listed folders are ever opened. */
  predicate Known(paths: seq<string>, root: string, listed: seq<Folder>) {
    forall i :: 0 <= i < |paths| ==> paths[i] == root || paths[i] in Paths(listed)
  }

  lemma KnownAfterDirectory(current: seq<string>, next: seq<string>, root: string, results: seq<Folder>,
                            kids: seq<Folder>, levels: nat)
    requires Known(current, root, results) && Known(next, root, results)
    ensures Known(current, root, results + kids) && Known(Queued(next, kids, levels), root, results + kids)
  {
    PathsConcat(results, kids);
  }

  lemma KnownInAll(path: string, results: seq<Folder>, all: seq<Folder>)
    requires results <= all && path in Paths(results)
    ensures path in Paths(all)
  {
    var i :| 0 <= i < |results| && Paths(results)[i] == path;
    assert Paths(all)[i] == path;
  }

  /** A traversal in progress: what it has listed and what the queue still leads to make up `all`. */
  predicate Underway(t: Tree, root: string, all: seq<Folder>, results: seq<Folder>, queue: seq<Waiting>,
                     current: seq<string>, next: seq<string>, depth: nat, maxDepth: nat)
  {
    && depth <= maxDepth
    && Layered(queue, current, next, depth)
    && (depth == maxDepth ==> next == [])
    && all == results + Rest(t, current, next, maxDepth + 1 - depth)
    && Known(current, root, results) && Known(next, root, results)
  }

  lemma NextLevel(t: Tree, root: string, all: seq<Folder>, results: seq<Folder>, queue: seq<Waiting>,
                  next: seq<string>, depth: nat, maxDepth: nat)
    requires Underway(t, root, all, results, queue, [], next, depth, maxDepth) && queue != []
    ensures Underway(t, root, all, results, queue, next, [], depth + 1, maxDepth)
  {
    RestAtLevelEnd(t, next, maxDepth + 1 - depth);
  }

  lemma AfterDirectory(t: Tree, root: string, all: seq<Folder>, results: seq<Folder>, queue: seq<Waiting>,
                       current: seq<string>, next: seq<string>, depth: nat, maxDepth: nat)
    requires Underway(t, root, all, results, queue, current, next, depth, maxDepth) && current != []
    ensures queue[0] == Waiting(current[0], depth) && Layered(queue[1..], current[1..], next, depth)
    ensures current[0] == root || current[0] in Paths(all)
    ensures var kids := Children(t, current[0]);
            var next' := Queued(next, kids, maxDepth + 1 - depth);
            && results + kids <= all
            && forall queue' :: Layered(queue', current[1..], next', depth)
                 ==> Underway(t, root, all, results + kids, queue', current[1..], next', depth, maxDepth)
  {
    AfterOneFolder(t, results, current, next, maxDepth + 1 - depth);
    KnownAfterDirectory(current, next, root, results, Children(t, current[0]), maxDepth + 1 - depth);
    if current[0] != root {
      KnownInAll(current[0], results, all);
    }
  }

  lemma Finished(t: Tree, root: string, all: seq<Folder>, results: seq<Folder>, current: seq<string>, next: seq<string>,
                 depth: nat, maxDepth: nat)
    requires Underway(t, root, all, results, [], current, next, depth, maxDepth)
    ensures results == all
  {
    assert current == [] && next == [];
    RestOfNothing(t, maxDepth + 1 - depth);
  }

  /** The outer loop. */
  method Explore(t: Tree, root: string, reportsTotal: bool, maxDepth: nat, maxPages: nat, maxResults: nat,
                 pageSize: nat)
    returns (ok: bool, results: seq<Folder>, pages: nat)
    requires 0 < maxPages && 0 < maxResults && 0 < pageSize
    ensures ok ==> pages <= maxPages && |results| <= maxResults
    ensures ok ==> results <= BreadthFirst(t, [root], maxDepth + 1)
    ensures ok && pages < maxPages && |results| < maxResults ==>
              results == BreadthFirst(t, [root], maxDepth + 1)
    ensures !ok ==> exists w, e :: && (w == root || w in Paths(BreadthFirst(t, [root], maxDepth + 1)))
                                   && e in t.listing(w) && t.read(e).Raise?
  {
    var queue := [Waiting(root, 0)];
    results, pages := [], 0;
    ghost var all := BreadthFirst(t, [root], maxDepth + 1);
    ghost var current, next, depth: nat := [root], [], 0;
    assert [] + Paths(LevelBelow(t, [root])) == Paths(LevelBelow(t, [root]));
    while queue != [] && pages < maxPages && |results| < maxResults
      invariant pages <= maxPages && |results| <= maxResults && results <= all
      invariant pages < maxPages && |results| < maxResults ==>
                  Underway(t, root, all, results, queue, current, next, depth, maxDepth)
      decreases maxPages - pages
    {
      if current == [] {
        NextLevel(t, root, all, results, queue, next, depth, maxDepth);
        current, next, depth := next, [], depth + 1;
      }
      AfterDirectory(t, root, all, results, queue, current, next, depth, maxDepth);
      var parent, at := queue[0].path, queue[0].depth;
      queue, current := queue[1..], current[1..];
      ghost var goal := results + Children(t, parent);
      ok, results, queue, pages :=
        ReadDirectory(t, t.listing(parent), reportsTotal, at, maxDepth, maxPages, maxResults, pageSize,
                      results, queue, pages, current, next);
      if !ok {
        return;
      }
      PrefixTransitive(results, goal, all);
      next := Queued(next, Children(t, parent), maxDepth + 1 - depth);
    }
    if pages < maxPages && |results| < maxResults {
      Finished(t, root, all, results, current, next, depth, maxDepth);
    }
    ok := true;
  }

  /** `discover_folders`. Whatever the page size, the result is a prefix of the breadth-first listing,
      and the whole of it when the scan stops below both bounds. */
  method DiscoverFolders(nas: Nas, root: string, maxDepth: int, maxPages: int, maxResults: int, pageSize: int)
    returns (r: Discovery, pages: nat)
    ensures r.BadBounds? <==> !(0 <= maxDepth <= 8 && 1 <= maxPages <= 50 && 1 <= maxResults <= 500
                                && 1 <= pageSize <= 100)
    ensures r.Found? ==> Canonical(root).Some?
    ensures r.Found? ==> pages <= maxPages && |r.folders| <= maxResults
    ensures r.Found? ==> forall f :: f in r.folders ==> Genuine(Canonical(root).value, f)
    ensures r.Found? ==>
              var c := Canonical(root).value;
              r.folders <= BreadthFirst(TreeUnder(nas, c), [c], maxDepth + 1)
    ensures r.Found? && pages < maxPages && |r.folders| < maxResults ==>
              var c := Canonical(root).value;
              r.folders == BreadthFirst(TreeUnder(nas, c), [c], maxDepth + 1)
    ensures r.BadPath? ==>
              Canonical(root).None?
              || var c := Canonical(root).value;
                 exists w, e :: && (w == c || w in Paths(BreadthFirst(TreeUnder(nas, c), [c], maxDepth + 1)))
                                && e in nas.listing(w) && ReadEntry(c, e).Raise?
  {
    pages := 0;
    if !(0 <= maxDepth <= 8) || !(1 <= maxPages <= 50) || !(1 <= maxResults <= 500) || !(1 <= pageSize <= 100) {
      return BadBounds, pages;
    }
    var canonicalRoot := CanonicalUnderRoot(root, root);
    UnderRootIsComponentPrefix(root, root);
    if canonicalRoot.None? {
      return BadPath, pages;
    }
    var c := canonicalRoot.value;
    var tree := TreeUnder(nas, c);
    var ok, folders;
    ok, folders, pages := Explore(tree, c, nas.reportsTotal, maxDepth, maxPages, maxResults, pageSize);
    if !ok {
      ghost var w, e :| && (w == c || w in Paths(BreadthFirst(tree, [c], maxDepth + 1)))
                        && e in tree.listing(w) && tree.read(e).Raise?;
      assert e in nas.listing(w) && ReadEntry(c, e).Raise?;
      return BadPath, pages;
    }
    TreeReadsGenuine(nas, c);
    ListedAreGenuine(tree, c, [c], maxDepth + 1);
    r := Found(folders);
  }
}

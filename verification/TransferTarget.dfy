/** The choice of the folder and the file name in app/services/transfer.py. */
module TransferTarget {
  import opened Values
  import opened SynologyPaths
  import P = Pipeline

  /** Columns of the recording that the choice reads; an empty string is a column that is not set. */
  datatype Columns = Columns(
    destination: Option<string>, key: string, filename: string,
    eventDate: Option<string>, safeCandidate: string, diskFilename: string)

  /** What the choice depends on besides: the store, its base folder, the allowed roots, and whether the
      destination row and its directory are usable. */
  datatype Setting = Setting(provider: P.Provider, base: string, roots: seq<string>, usable: bool)

  datatype Choice = Target(folder: string, filename: string) | Failure

  /** Python's `s.rpartition("/")`, without the separator. */
  function RPartition(s: string): (r: (string, string))
    ensures '/' !in r.1
    ensures '/' in s ==> r.0 + "/" + r.1 == s
    ensures '/' !in s ==> r == ("", s)
  {
    if s == "" then ("", "")
    else if '/' in s[1..] then
      var (head, tail) := RPartition(s[1..]);
      ([s[0]] + head, tail)
    else if s[0] == '/' then ("", s[1..])
    else ("", s)
  }

  function StripSlashes(s: string): string {
    if s != "" && s[|s| - 1] == '/' then StripSlashes(s[..|s| - 1]) else s
  }

  function FromDestination(c: Columns, s: Setting, path: string): Choice {
    if c.filename == "" || !s.usable then Failure
    else
      match CanonicalAllowedDestination(s.roots, path)
      case None => Failure
      case Some((folder, _)) => Target(folder, c.filename)
  }

  function FromKey(c: Columns, s: Setting): Choice {
    var (folder, name) := RPartition(c.key);
    if folder == "" || name != c.filename then Failure
    else if s.provider.ObjectStore? then Target(folder, name)
    else
      match CanonicalUnderRoot(s.base, StripSlashes(s.base) + "/" + folder)
      case None => Failure
      case Some(canonical) => Target(canonical, name)
  }

  function FromCalendar(c: Columns, s: Setting): Choice {
    match c.eventDate
    case None => Failure
    case Some(date) => Target(StripSlashes(s.base) + "/" + date + "/" + c.safeCandidate, c.diskFilename)
  }

  function Choose(c: Columns, s: Setting): Choice {
    if c.destination.Some? && s.provider.Synology? then FromDestination(c, s, c.destination.value)
    else if c.key != "" && c.filename != "" then FromKey(c, s)
    else FromCalendar(c, s)
  }

  /** A chosen destination is uploaded to exactly when it lies under an allowed root, and then in its
      normal form, under the generated name. */
  lemma DestinationStaysUnderItsRoot(c: Columns, s: Setting)
    requires c.destination.Some? && s.provider.Synology?
    ensures Choose(c, s).Target?
            <==> c.filename != "" && s.usable
                 && exists i :: 0 <= i < |s.roots| && Contains(s.roots[i], c.destination.value)
    ensures Choose(c, s).Target? ==>
              && Some(Choose(c, s).folder) == Canonical(c.destination.value) && Choose(c, s).filename == c.filename
              && exists i :: 0 <= i < |s.roots| && Contains(s.roots[i], Choose(c, s).folder)
  {
    var path := c.destination.value;
    SearchesAgree(s.roots, path);
    AllowedRootIsTheFirst(s.roots, path);
    if Choose(c, s).Target? {
      var i :| 0 <= i < |s.roots| && Contains(s.roots[i], path);
      CanonicalKeepsComponentsAndIsIdempotent(path);
      assert Contains(s.roots[i], Choose(c, s).folder);
    }
  }

  /** The last slash is where the name begins, and nowhere else. */
  lemma {:induction false} SplitAtLastSlash(head: string, tail: string)
    requires '/' !in tail
    ensures RPartition(head + "/" + tail) == (head, tail)
  {
    var s := head + "/" + tail;
    if head == "" {
      assert s[1..] == tail;
    } else {
      SplitAtLastSlash(head[1..], tail);
      assert s[1..] == head[1..] + "/" + tail;
      assert s[1..][|head| - 1] == '/';
      assert [s[0]] + head[1..] == head;
    }
  }

  /** A persisted key is accepted by an object store exactly when it is a folder, a slash and the
      generated name; the two together are then the key again. */
  lemma KeyIsFolderAndName(c: Columns, s: Setting)
    requires s.provider.ObjectStore? && c.key != "" && c.filename != ""
    ensures Choose(c, s).Target?
            <==> '/' !in c.filename && exists folder :: folder != "" && c.key == folder + "/" + c.filename
    ensures Choose(c, s).Target? ==> Choose(c, s).folder + "/" + Choose(c, s).filename == c.key
  {
    var (folder, name) := RPartition(c.key);
    if '/' !in c.filename {
      forall f | f != "" && c.key == f + "/" + c.filename
        ensures folder == f && name == c.filename
      {
        SplitAtLastSlash(f, c.filename);
      }
    }
    if Choose(c, s).Target? {
      assert c.key == folder + "/" + name;
    }
  }

  /** On a Synology store a key leads below the base folder. */
  lemma KeyStaysUnderTheBase(c: Columns, s: Setting)
    requires s.provider.Synology? && c.destination.None? && c.key != "" && c.filename != ""
    requires Choose(c, s).Target?
    ensures Contains(s.base, Choose(c, s).folder) && IsCanonical(Choose(c, s).folder)
    ensures Choose(c, s).filename == c.filename
  {
    var (folder, _) := RPartition(c.key);
    var candidate := StripSlashes(s.base) + "/" + folder;
    UnderRootIsComponentPrefix(s.base, candidate);
    CanonicalKeepsComponentsAndIsIdempotent(candidate);
  }

  function Slashes(n: nat): string {
    seq(n, _ => '/')
  }

  /** All slashes at the end are taken off, and nothing else. */
  lemma {:induction false} OnlySlashesAreStripped(s: string) returns (n: nat)
    ensures s == StripSlashes(s) + Slashes(n)
    ensures StripSlashes(s) != "" ==> StripSlashes(s)[|StripSlashes(s)| - 1] != '/'
  {
    if s != "" && s[|s| - 1] == '/' {
      var m := OnlySlashesAreStripped(s[..|s| - 1]);
      n := m + 1;
      assert s == s[..|s| - 1] + ['/'] && Slashes(n) == Slashes(m) + ['/'];
    } else {
      n := 0;
    }
  }

  /** Without a destination on the NAS, and without a key and a name for it, the file goes below the base folder, by
      the date of its event and the name of the candidate, under its own name; without an event it goes nowhere. */
  lemma OtherwiseTheCalendarDecides(c: Columns, s: Setting) returns (base: string, n: nat)
    requires !(c.destination.Some? && s.provider.Synology?) && (c.key == "" || c.filename == "")
    ensures s.base == base + Slashes(n) && (base != "" ==> base[|base| - 1] != '/')
    ensures Choose(c, s)
            == if c.eventDate.Some? then Target(base + "/" + c.eventDate.value + "/" + c.safeCandidate, c.diskFilename)
               else Failure
  {
    n := OnlySlashesAreStripped(s.base);
    base := StripSlashes(s.base);
  }

  /** The columns of a row, as the pipeline sees them. */
  predicate Describes(c: Columns, f: P.Fields) {
    && (f.destination <==> c.destination.Some?)
    && (f.key <==> c.key != "") && (f.filename <==> c.filename != "")
  }

  /** Once a transfer was promised, only an object store without a key still falls back to a folder
      made of the calendar date, and with a Synology store nothing does. */
  lemma PromisedTransfersHaveAPlace(st: P.State, events: seq<P.Event>, c: Columns, s: Setting)
    requires P.Initial(st) && P.Committed(P.Run(st, events).row.status)
    requires Describes(c, P.Run(st, events).row.fields) && s.provider == st.provider
    ensures var falls := !(c.destination.Some? && s.provider.Synology?) && !(c.key != "" && c.filename != "");
            && (falls <==> s.provider.ObjectStore? && c.key == "")
            && (falls ==> c.destination.Some?)
            && (!falls ==> Choose(c, s) == if c.destination.Some? && s.provider.Synology?
                                           then FromDestination(c, s, c.destination.value) else FromKey(c, s))
  {
    P.CommittedStatesAreComplete(st, events);
  }
}

/** What every step of the reroute saga keeps. */
module RerouteInvariant {
  import opened Values
  import opened Reroute

  predicate IsCopy(nas: Nas, p: Path) {
    p in nas && nas[p].kind.RecordingData?
  }

  /** Where the operation wants the file, or where the file is as long as there is no operation. */
  function Goal(w: World): Path {
    if w.operation.Some? then TargetIn(w.job, w.operation.value.folder) else w.source
  }

  function CopyPath(w: World): Path {
    if w.moves == 0 then w.source else Goal(w)
  }

  /** The file is in exactly one place. */
  ghost predicate OneCopy(w: World) {
    && (forall p :: IsCopy(w.nas, p) <==> p == CopyPath(w))
    && w.source.name == Data(w.job.filename)
    && w.moves <= 1
    && (w.moves == 1 ==> w.operation.Some? && Goal(w) != w.source)
  }

  /** A move this operation may ask for. */
  predicate Ours(w: World, m: Move) {
    && w.operation.Some?
    && m.folder == w.operation.value.folder
    && (m.source == w.source || m.source == MarkerIn(w.job, w.source.folder))
  }

  predicate LateInv(w: World) {
    forall i :: 0 <= i < |w.late| ==> Ours(w, w.late[i])
  }

  /** The file is proven at its target, with its marker. */
  predicate Settled(w: World) {
    && w.operation.Some? && w.moves == 1
    && HasSize(w.nas, Goal(w), w.job.size)
    && HasOwner(w.nas, MarkerIn(w.job, w.operation.value.folder), w.job.owner)
  }

  predicate OperationInv(w: World) {
    w.operation.Some? ==>
      var op := w.operation.value;
      && (op.target.Some? ==> op.target.value == Goal(w))
      && (op.status !in {Pending, Failed} ==> Settled(w) && op.target.Some?)
      && (op.status == Pending ==> op.url.None?)
      && (op.status in {Linked, NotionUpdated, Completed} ==> op.url.Some?)
      && (op.url.Some? ==> Settled(w) && op.target.Some? && Link(op.url.value, Goal(w)) in w.links)
      && (op.status == Failed ==> w.failedOnce)
      && (op.status == NotionUpdated ==> w.readBack)
      && (op.status == Completed ==> w.readBack || w.failedOnce)
  }

  /** What the program point may rely on. */
  predicate PcInv(w: World, pc: Pc) {
    pc != Idle ==>
      && w.operation.Some?
      && var op := w.operation.value;
      && op.status != Completed
      && w.recording.version == op.expectedVersion
      && match pc
         case ProbeTarget | ProbeSource | MoveProbe | MoveSize | MoveOwner | MoveData => op.status == Pending
         case VerifySize | MovedSize => op.status == Pending && w.moves == 1
         case VerifyOwner | MarkerProbe | MoveMarker | MovedOwner =>
           op.status == Pending && w.moves == 1 && HasSize(w.nas, Goal(w), w.job.size)
         case SourceGone | MarkerGone | CommitMoved => op.status == Pending && Settled(w)
         case LookUpLink => op.status == MovedFile
         case CreateLink => op.status == MovedFile && FindLink(w.links, Goal(w)).None?
         case CommitLinked(url) => op.status == MovedFile && Link(url, Goal(w)) in w.links
         case WriteCard | ReadCard => op.status == Linked
         case CommitNotion => op.status == Linked && w.readBack
         case Swap => op.status in {NotionUpdated, Failed} && op.target.Some? && op.url.Some?
         case _ => true
  }

  function CountActive(artifacts: seq<Artifact>): nat {
    if artifacts == [] then 0
    else (if artifacts[0].active then 1 else 0) + CountActive(artifacts[1..])
  }

  predicate DistinctPaths(artifacts: seq<Artifact>) {
    forall i, j :: 0 <= i < j < |artifacts| ==> artifacts[i].path != artifacts[j].path
  }

  predicate ArtifactInv(w: World) {
    && DistinctPaths(w.artifacts)
    && CountActive(w.artifacts) == 1
    && if w.operation.Some? && w.operation.value.status == Completed
       then ActiveAt(w.artifacts) == Some(Goal(w))
       else ActiveAt(w.artifacts) == Some(w.source)
  }

  function CountLinks(links: seq<Link>, path: Path): nat {
    if links == [] then 0
    else (if links[0].path == path then 1 else 0) + CountLinks(links[1..], path)
  }

  /** At most one public link per place the file is moved to. */
  ghost predicate LinkInv(w: World) {
    forall folder :: folder != w.source.folder ==>
      CountLinks(w.links, TargetIn(w.job, folder))
      <= if w.operation.Some? && w.operation.value.folder == folder then 1 else 0
  }

  ghost predicate WorldInv(w: World) {
    OneCopy(w) && LateInv(w) && OperationInv(w) && ArtifactInv(w) && LinkInv(w)
  }

  ghost predicate Inv(s: State) {
    WorldInv(s.w) && PcInv(s.w, s.pc)
  }

  /** A stored recording that was not rerouted yet. */
  ghost predicate Initial(s: State) {
    && s.pc == Idle
    && var w := s.w;
    && w.operation.None? && w.late == []
    && w.requests == 0 && w.moves == 0 && !w.failedOnce && !w.readBack
    && w.source.name == Data(w.job.filename)
    && (forall p :: IsCopy(w.nas, p) <==> p == w.source)
    && DistinctPaths(w.artifacts) && CountActive(w.artifacts) == 1 && ActiveAt(w.artifacts) == Some(w.source)
    && (forall folder :: folder != w.source.folder ==> CountLinks(w.links, TargetIn(w.job, folder)) == 0)
  }

  /* ---- Lists of links and artifacts ---- */

  lemma {:induction false} FoundLinkIsListed(links: seq<Link>, path: Path)
    ensures FindLink(links, path).Some? ==> Link(FindLink(links, path).value, path) in links
    ensures FindLink(links, path).None? ==> CountLinks(links, path) == 0
  {
    if links != [] {
      FoundLinkIsListed(links[1..], path);
      assert links[0] == Link(links[0].url, links[0].path);
    }
  }

  lemma {:induction false} CountLinksAppend(links: seq<Link>, link: Link, path: Path)
    ensures CountLinks(links + [link], path) == CountLinks(links, path) + if link.path == path then 1 else 0
  {
    if links == [] {
      assert links + [link] == [link];
    } else {
      CountLinksAppend(links[1..], link, path);
      assert (links + [link])[1..] == links[1..] + [link];
    }
  }

  lemma {:induction false} NoActiveNoPath(artifacts: seq<Artifact>)
    ensures CountActive(artifacts) == 0 <==> ActiveAt(artifacts).None?
    ensures ActiveAt(artifacts).Some? ==>
              exists i :: 0 <= i < |artifacts| && artifacts[i].active && Some(artifacts[i].path) == ActiveAt(artifacts)
    ensures ActiveAt(artifacts).None? ==> forall i :: 0 <= i < |artifacts| ==> !artifacts[i].active
  {
    if artifacts != [] {
      NoActiveNoPath(artifacts[1..]);
      if !artifacts[0].active && ActiveAt(artifacts).Some? {
        var i :| 0 <= i < |artifacts| - 1 && artifacts[1..][i].active
                 && Some(artifacts[1..][i].path) == ActiveAt(artifacts);
        assert artifacts[i + 1] == artifacts[1..][i];
      } else if ActiveAt(artifacts).None? {
        forall i | 0 <= i < |artifacts|
          ensures !artifacts[i].active
        {
          if i > 0 {
            assert artifacts[i] == artifacts[1..][i - 1];
          }
        }
      }
    }
  }

  lemma {:induction false} NothingDeactivated(artifacts: seq<Artifact>, path: Path)
    requires !InHistory(artifacts, path)
    ensures Deactivated(artifacts, path) == artifacts
  {
    forall i | 0 <= i < |artifacts|
      ensures Deactivated(artifacts, path)[i] == artifacts[i]
    {
    }
  }

  /** Switching the one active artifact off leaves none. */
  lemma {:induction false} LastActiveDeactivated(artifacts: seq<Artifact>, path: Path)
    requires DistinctPaths(artifacts) && CountActive(artifacts) == 1 && ActiveAt(artifacts) == Some(path)
    ensures CountActive(Deactivated(artifacts, path)) == 0
  {
    var rest := artifacts[1..];
    assert DistinctPaths(rest);
    if artifacts[0].active {
      forall i | 0 <= i < |rest|
        ensures rest[i].path != path
      {
        assert artifacts[i + 1] == rest[i];
      }
      NothingDeactivated(rest, path);
    } else {
      LastActiveDeactivated(rest, path);
      assert artifacts[0].path != path by {
        NoActiveNoPath(rest);
        var i :| 0 <= i < |rest| && rest[i].active && rest[i].path == path;
        assert artifacts[i + 1] == rest[i];
      }
    }
  }

  lemma {:induction false} ActiveAppend(artifacts: seq<Artifact>, a: Artifact)
    requires CountActive(artifacts) == 0 && a.active
    ensures CountActive(artifacts + [a]) == 1 && ActiveAt(artifacts + [a]) == Some(a.path)
  {
    if artifacts == [] {
      assert artifacts + [a] == [a];
    } else {
      ActiveAppend(artifacts[1..], a);
      assert (artifacts + [a])[1..] == artifacts[1..] + [a];
    }
  }

  /** The swap leaves exactly one active artifact, the new one. */
  lemma SwapLeavesOneActive(artifacts: seq<Artifact>, before: Path, a: Artifact)
    requires DistinctPaths(artifacts) && CountActive(artifacts) == 1 && ActiveAt(artifacts) == Some(before)
    requires a.active && !InHistory(artifacts, a.path)
    ensures var swapped := Deactivated(artifacts, before) + [a];
            DistinctPaths(swapped) && CountActive(swapped) == 1 && ActiveAt(swapped) == Some(a.path)
  {
    LastActiveDeactivated(artifacts, before);
    ActiveAppend(Deactivated(artifacts, before), a);
    var swapped := Deactivated(artifacts, before) + [a];
    forall i, j | 0 <= i < j < |swapped|
      ensures swapped[i].path != swapped[j].path
    {
      assert swapped[i].path == artifacts[i].path;
      if j < |artifacts| {
        assert swapped[j].path == artifacts[j].path;
      }
    }
  }

  lemma {:induction false} FindLinkAppend(links: seq<Link>, link: Link, path: Path)
    requires link.path != path
    ensures FindLink(links + [link], path) == FindLink(links, path)
  {
    if links == [] {
      assert links + [link] == [link];
    } else {
      FindLinkAppend(links[1..], link, path);
      assert (links + [link])[1..] == links[1..] + [link];
    }
  }

  /* ---- Parts of the world that a step leaves alone ---- */

  /** The NAS, the links, the artifacts and the operation's folder are as before. */
  predicate SameStores(w: World, v: World) {
    && v.job == w.job && v.nas == w.nas && v.late == w.late && v.links == w.links
    && v.artifacts == w.artifacts && v.source == w.source && v.moves == w.moves
    && w.operation.Some? && v.operation.Some?
    && v.operation.value.folder == w.operation.value.folder
    && (v.operation.value.status == Completed <==> w.operation.value.status == Completed)
  }

  lemma LinksUnchanged(w: World, v: World)
    requires LinkInv(w) && v.links == w.links && v.source == w.source && v.job == w.job
    requires w.operation.Some? ==> v.operation.Some? && v.operation.value.folder == w.operation.value.folder
    ensures LinkInv(v)
  {
    forall f | f != v.source.folder
      ensures CountLinks(v.links, TargetIn(v.job, f))
              <= if v.operation.Some? && v.operation.value.folder == f then 1 else 0
    {
      assert CountLinks(w.links, TargetIn(w.job, f))
             <= if w.operation.Some? && w.operation.value.folder == f then 1 else 0;
    }
  }

  lemma CopyUnchanged(w: World, v: World)
    requires OneCopy(w) && v.nas == w.nas && v.source == w.source && v.job == w.job && v.moves == w.moves
    requires CopyPath(v) == CopyPath(w)
    requires w.operation.Some? ==> v.operation.Some? && v.operation.value.folder == w.operation.value.folder
    ensures OneCopy(v)
  {
    forall p
      ensures IsCopy(v.nas, p) <==> p == CopyPath(v)
    {
      assert IsCopy(w.nas, p) <==> p == CopyPath(w);
    }
  }

  lemma StoresUnchanged(w: World, v: World)
    requires WorldInv(w) && SameStores(w, v) && OperationInv(v)
    ensures WorldInv(v)
  {
    LinksUnchanged(w, v);
    CopyUnchanged(w, v);
    forall i | 0 <= i < |v.late|
      ensures Ours(v, v.late[i])
    {
      assert Ours(w, w.late[i]);
    }
  }

  /** A new phase, target or link in the operation row. */
  lemma RowUpdateKeepsInv(w: World, v: World)
    requires WorldInv(w) && w.operation.Some? && v.operation.Some?
    requires v == w.(operation := v.operation, leaseUntil := v.leaseUntil, failedOnce := v.failedOnce)
    requires v.operation.value.folder == w.operation.value.folder
    requires v.operation.value.status != Completed && w.operation.value.status != Completed
    requires OperationInv(v)
    ensures WorldInv(v)
  {
    StoresUnchanged(w, v);
  }

  /** Counters, the card and the lease carry no fact about the stores. */
  lemma SideFieldsKeepInv(w: World, v: World)
    requires WorldInv(w)
    requires v == w.(requests := v.requests, card := v.card, readBack := v.readBack,
                     leaseUntil := v.leaseUntil, now := v.now, recording := v.recording,
                     elsewhere := v.elsewhere)
    requires w.readBack ==> v.readBack
    ensures WorldInv(v)
  {
    LinksUnchanged(w, v);
    CopyUnchanged(w, v);
  }

  /* ---- Moves ---- */

  lemma PerformedKeepsOneCopy(w: World, m: Move)
    requires OneCopy(w) && Ours(w, m)
    ensures OneCopy(Performed(w, m))
    ensures w.moves == 1 ==> Performed(w, m).moves == 1
    ensures CanMove(w.nas, m) && m.source == w.source ==> Performed(w, m).moves == 1
  {
    var v := Performed(w, m);
    assert IsCopy(w.nas, CopyPath(w));
    assert m.source == w.source ==> Landing(m) == Goal(w);
    if CanMove(w.nas, m) {
      forall p
        ensures IsCopy(v.nas, p) <==> p == CopyPath(v)
      {
        assert IsCopy(w.nas, p) <==> p == CopyPath(w);
        assert IsCopy(w.nas, m.source) <==> m.source == CopyPath(w);
      }
    }
  }

  /** A move takes nothing away from the proven target. */
  lemma PerformedKeepsTarget(w: World, m: Move)
    requires OneCopy(w) && Ours(w, m) && w.moves == 1
    ensures HasSize(w.nas, Goal(w), w.job.size) ==> HasSize(Performed(w, m).nas, Goal(w), w.job.size)
    ensures Settled(w) ==> Settled(Performed(w, m))
  {
    PerformedKeepsOneCopy(w, m);
  }

  lemma PerformedKeepsInv(w: World, m: Move)
    requires WorldInv(w) && Ours(w, m)
    ensures WorldInv(Performed(w, m))
  {
    PerformedKeepsOneCopy(w, m);
    if w.moves == 1 {
      PerformedKeepsTarget(w, m);
    }
    LinksUnchanged(w, Performed(w, m));
  }

  lemma PerformedKeepsPcInv(w: World, m: Move, pc: Pc)
    requires OneCopy(w) && Ours(w, m) && PcInv(w, pc)
    ensures PcInv(Performed(w, m), pc)
  {
    if w.moves == 1 {
      PerformedKeepsOneCopy(w, m);
      PerformedKeepsTarget(w, m);
    }
  }

  lemma LateQueueKeepsInv(w: World, late: seq<Move>)
    requires WorldInv(w) && LateInv(w.(late := late))
    ensures WorldInv(w.(late := late))
  {
    LinksUnchanged(w, w.(late := late));
    CopyUnchanged(w, w.(late := late));
  }

  lemma LateMoveAskedKeepsInv(w: World, m: Move)
    requires WorldInv(w) && Ours(w, m)
    ensures WorldInv(w.(late := w.late + [m]))
  {
    LateQueueKeepsInv(w, w.late + [m]);
  }

  lemma AskedKeepsInv(w: World, m: Move, pc: Pc)
    requires WorldInv(w) && PcInv(w, pc)
    ensures Inv(State(Asked(w, m), pc))
  {
    SideFieldsKeepInv(w, Asked(w, m));
  }

  lemma AskedKeepsPcInv(w: World, m: Move, pc: Pc)
    requires PcInv(Performed(w, m), pc)
    ensures PcInv(Performed(Asked(w, m), m), pc)
  {
  }

  lemma DoneKeepsInv(w: World, m: Move, pc: Pc)
    requires WorldInv(w) && Ours(w, m) && PcInv(Performed(w, m), pc)
    ensures Inv(State(Performed(Asked(w, m), m), pc))
  {
    SideFieldsKeepInv(w, Asked(w, m));
    PerformedKeepsInv(Asked(w, m), m);
    AskedKeepsPcInv(w, m, pc);
  }

  lemma MoveStepKeepsInv(w: World, a: Answer, m: Move, next: Pc)
    requires WorldInv(w) && Ours(w, m) && PcInv(w, Releasing)
    requires CanMove(w.nas, m) ==> PcInv(Performed(w, m), next)
    ensures Inv(MoveStep(w, a, m, next))
  {
    match a
    case Late =>
      AskedKeepsInv(w, m, Releasing);
      LateMoveAskedKeepsInv(Asked(w, m), m);
    case Refused => AskedKeepsInv(w, m, Releasing);
    case Denied => AskedKeepsInv(w, m, Releasing);
    case Lost =>
      PerformedKeepsPcInv(w, m, Releasing);
      DoneKeepsInv(w, m, Releasing);
    case Ok =>
      PerformedKeepsPcInv(w, m, Releasing);
      DoneKeepsInv(w, m, if CanMove(w.nas, m) then next else Releasing);
  }

  lemma MoveDataKeepsInv(w: World, a: Answer)
    requires WorldInv(w) && PcInv(w, MoveData)
    ensures Inv(MoveStep(w, a, Move(w.source, w.operation.value.folder), MovedSize))
  {
    var m := Move(w.source, w.operation.value.folder);
    PerformedKeepsOneCopy(w, m);
    MoveStepKeepsInv(w, a, m, MovedSize);
  }

  lemma MoveMarkerKeepsInv(w: World, a: Answer)
    requires WorldInv(w) && PcInv(w, MoveMarker)
    ensures Inv(MoveStep(w, a, Move(MarkerIn(w.job, w.source.folder), w.operation.value.folder), MovedOwner))
  {
    var m := Move(MarkerIn(w.job, w.source.folder), w.operation.value.folder);
    PerformedKeepsPcInv(w, m, MovedOwner);
    MoveStepKeepsInv(w, a, m, MovedOwner);
  }

  /* ---- The other steps of an attempt ---- */

  lemma BeginKeepsInv(s: State, folder: string, expectedVersion: nat)
    requires Inv(s)
    ensures Inv(Begin(s, folder, expectedVersion))
  {
    var t := Begin(s, folder, expectedVersion);
    if t != s {
      LinksUnchanged(s.w, t.w);
      CopyUnchanged(s.w, t.w);
    }
  }

  /** A look that finds all well entitles the operation to what it does next. */
  lemma InspectionEntitles(w: World, pc: Pc)
    requires OneCopy(w) && PcInv(w, pc) && Inspects(pc)
    requires Inspect(w, w.operation.value, pc).ok
    ensures PcInv(w, Inspect(w, w.operation.value, pc).next)
  {
    assert IsCopy(w.nas, CopyPath(w));
  }

  lemma InspectionKeepsInv(w: World, pc: Pc, a: Answer)
    requires WorldInv(w) && PcInv(w, pc) && Inspects(pc)
    ensures Inv(State(w, Judge(a, Inspect(w, w.operation.value, pc))))
  {
    if Inspect(w, w.operation.value, pc).ok {
      InspectionEntitles(w, pc);
    }
  }

  lemma ChooseTargetKeepsInv(w: World, a: Answer)
    requires WorldInv(w) && PcInv(w, ChooseTarget)
    ensures Inv(ChooseTargetStep(w, w.operation.value, a))
  {
    var t := ChooseTargetStep(w, w.operation.value, a);
    if t.w != w {
      RowUpdateKeepsInv(w, t.w);
    }
  }

  lemma CommitMovedKeepsInv(w: World, a: Answer)
    requires WorldInv(w) && PcInv(w, CommitMoved)
    ensures Inv(CommitMovedStep(w, w.operation.value, a))
  {
    if a == Ok {
      RowUpdateKeepsInv(w, CommitMovedStep(w, w.operation.value, a).w);
    }
  }

  lemma CommitLinkedKeepsInv(w: World, a: Answer, url: string)
    requires WorldInv(w) && PcInv(w, CommitLinked(url))
    ensures Inv(CommitLinkedStep(w, w.operation.value, a, url))
  {
    if a == Ok {
      var v := w.(operation := Some(w.operation.value.(status := Linked, url := Some(url))));
      assert Settled(v) && Goal(v) == Goal(w);
      RowUpdateKeepsInv(w, v);
    }
  }

  lemma CommitNotionKeepsInv(w: World, a: Answer)
    requires WorldInv(w) && PcInv(w, CommitNotion)
    ensures Inv(CommitNotionStep(w, w.operation.value, a))
  {
    if a == Ok {
      RowUpdateKeepsInv(w, CommitNotionStep(w, w.operation.value, a).w);
    }
  }

  lemma RejectKeepsInv(w: World, a: Answer)
    requires WorldInv(w) && PcInv(w, Rejecting)
    ensures Inv(RejectStep(w, w.operation.value, a))
  {
    if a == Ok {
      RowUpdateKeepsInv(w, RejectStep(w, w.operation.value, a).w);
    }
  }

  lemma ReleaseKeepsInv(w: World, a: Answer)
    requires WorldInv(w)
    ensures Inv(ReleaseStep(w, a))
  {
    SideFieldsKeepInv(w, ReleaseStep(w, a).w);
  }

  lemma LookUpLinkKeepsInv(w: World, a: Answer)
    requires WorldInv(w) && PcInv(w, LookUpLink)
    ensures Inv(LookUpLinkStep(w, w.operation.value, a))
  {
    FoundLinkIsListed(w.links, Goal(w));
  }

  lemma WriteCardKeepsInv(w: World, a: Answer)
    requires WorldInv(w) && PcInv(w, WriteCard)
    ensures Inv(WriteCardStep(w, w.operation.value, a))
  {
    SideFieldsKeepInv(w, WriteCardStep(w, w.operation.value, a).w);
  }

  lemma ReadCardKeepsInv(w: World, a: Answer)
    requires WorldInv(w) && PcInv(w, ReadCard)
    ensures Inv(ReadCardStep(w, w.operation.value, a))
  {
    SideFieldsKeepInv(w, ReadCardStep(w, w.operation.value, a).w);
  }

  lemma SharingKeepsLinkInv(w: World, link: Link)
    requires LinkInv(w)
    requires w.operation.Some? && link.path == Goal(w) ==> FindLink(w.links, Goal(w)).None?
    requires link.path.name == Data(w.job.filename) ==> w.operation.Some? && link.path == Goal(w)
    ensures LinkInv(w.(links := w.links + [link]))
  {
    var v := w.(links := w.links + [link]);
    FoundLinkIsListed(w.links, Goal(w));
    forall f | f != v.source.folder
      ensures CountLinks(v.links, TargetIn(v.job, f))
              <= if v.operation.Some? && v.operation.value.folder == f then 1 else 0
    {
      CountLinksAppend(w.links, link, TargetIn(w.job, f));
      assert CountLinks(w.links, TargetIn(w.job, f))
             <= if w.operation.Some? && w.operation.value.folder == f then 1 else 0;
    }
  }

  lemma NewLinkKeepsInv(w: World, link: Link)
    requires WorldInv(w)
    requires w.operation.Some? && link.path == Goal(w) ==> FindLink(w.links, Goal(w)).None?
    requires link.path.name == Data(w.job.filename) ==> w.operation.Some? && link.path == Goal(w)
    ensures WorldInv(w.(links := w.links + [link]))
  {
    SharingKeepsLinkInv(w, link);
    CopyUnchanged(w, w.(links := w.links + [link]));
  }

  lemma CreateLinkKeepsInv(w: World, a: Answer, freshUrl: string)
    requires WorldInv(w) && PcInv(w, CreateLink)
    ensures Inv(CreateLinkStep(w, w.operation.value, a, freshUrl))
  {
    NewLinkKeepsInv(w, Link(freshUrl, Goal(w)));
  }

  lemma SwappedKeepsInv(w: World)
    requires WorldInv(w) && PcInv(w, Swap) && !PathTaken(w, Goal(w))
    ensures WorldInv(Swapped(w, w.operation.value))
  {
    var op := w.operation.value;
    SwapLeavesOneActive(w.artifacts, w.source, Artifact(op.target.value, op.url.value, true));
    LinksUnchanged(w, Swapped(w, op));
    CopyUnchanged(w, Swapped(w, op));
  }

  lemma SwapKeepsInv(w: World, a: Answer)
    requires WorldInv(w) && PcInv(w, Swap)
    ensures Inv(SwapStep(w, w.operation.value, a))
  {
    if a == Ok && !PathTaken(w, Goal(w)) {
      SwappedKeepsInv(w);
    }
  }

  lemma SharingKeepsInv(w: World, pc: Pc, a: Answer, freshUrl: string)
    requires WorldInv(w) && PcInv(w, pc) && Shares(pc)
    ensures Inv(SharingStep(w, w.operation.value, pc, a, freshUrl))
  {
    match pc
    case CommitMoved => CommitMovedKeepsInv(w, a);
    case LookUpLink => LookUpLinkKeepsInv(w, a);
    case CreateLink => CreateLinkKeepsInv(w, a, freshUrl);
    case CommitLinked(url) => CommitLinkedKeepsInv(w, a, url);
    case WriteCard => WriteCardKeepsInv(w, a);
    case ReadCard => ReadCardKeepsInv(w, a);
    case CommitNotion => CommitNotionKeepsInv(w, a);
  }

  lemma MovingKeepsInv(w: World, pc: Pc, a: Answer)
    requires WorldInv(w) && PcInv(w, pc) && w.operation.Some? && !Inspects(pc) && !Shares(pc)
    ensures Inv(MovingStep(w, w.operation.value, pc, a))
  {
    match pc
    case Idle =>
    case ChooseTarget => ChooseTargetKeepsInv(w, a);
    case ProbeTarget =>
    case MoveData => MoveDataKeepsInv(w, a);
    case MoveMarker => MoveMarkerKeepsInv(w, a);
    case Swap => SwapKeepsInv(w, a);
    case Rejecting => RejectKeepsInv(w, a);
    case Releasing => ReleaseKeepsInv(w, a);
  }

  lemma AdvanceKeepsInv(s: State, a: Answer, freshUrl: string)
    requires Inv(s)
    ensures Inv(Advance(s, a, freshUrl))
  {
    if s.w.operation.Some? {
      if Inspects(s.pc) {
        InspectionKeepsInv(s.w, s.pc, a);
      } else if Shares(s.pc) {
        SharingKeepsInv(s.w, s.pc, a, freshUrl);
      } else {
        MovingKeepsInv(s.w, s.pc, a);
      }
    }
  }

  /* ---- What happens beside the attempt ---- */

  lemma LateMoveKeepsInv(s: State, i: nat)
    requires Inv(s) && i < |s.w.late|
    ensures Inv(Step(s, LateMove(i)))
  {
    var m := s.w.late[i];
    PerformedKeepsInv(s.w, m);
    PerformedKeepsPcInv(s.w, m, s.pc);
    LateQueueKeepsInv(Performed(s.w, m), s.w.late[..i] + s.w.late[i + 1..]);
  }

  lemma OthersCreateKeepsInv(s: State, path: Path, id: nat, size: nat)
    requires Inv(s) && path !in s.w.nas
    ensures Inv(State(s.w.(nas := s.w.nas[path := Item(Unrelated(id), size)]), s.pc))
  {
    var v := s.w.(nas := s.w.nas[path := Item(Unrelated(id), size)]);
    forall p
      ensures IsCopy(v.nas, p) <==> p == CopyPath(v)
    {
      assert IsCopy(s.w.nas, p) <==> p == CopyPath(s.w);
    }
    LinksUnchanged(s.w, v);
  }

  lemma OthersShareKeepsInv(s: State, link: Link)
    requires Inv(s) && link.path.name != Data(s.w.job.filename)
    ensures Inv(State(s.w.(links := s.w.links + [link]), s.pc))
  {
    NewLinkKeepsInv(s.w, link);
    if s.w.operation.Some? {
      FindLinkAppend(s.w.links, link, Goal(s.w));
    }
  }

  lemma MeanwhileKeepsInv(s: State, e: Event)
    requires Inv(s) && (e.Wait? || e.OthersEditCard? || e.OthersPlace? || e.OthersBumpVersion?)
    ensures Inv(Step(s, e))
  {
    SideFieldsKeepInv(s.w, Step(s, e).w);
  }

  lemma NasAndLinksKeepInv(s: State, e: Event)
    requires Inv(s) && (e.LateMove? || e.OthersCreate? || e.OthersShare?)
    ensures Inv(Step(s, e))
  {
    match e
    case LateMove(i) =>
      if i < |s.w.late| {
        LateMoveKeepsInv(s, i);
      }
    case OthersCreate(path, id, size) =>
      if path !in s.w.nas {
        OthersCreateKeepsInv(s, path, id, size);
      }
    case OthersShare(path, url) =>
      if path.name != Data(s.w.job.filename) {
        OthersShareKeepsInv(s, Link(url, path));
      }
  }

  lemma StepKeepsInv(s: State, e: Event)
    requires Inv(s)
    ensures Inv(Step(s, e))
  {
    if e.BeginAttempt? {
      BeginKeepsInv(s, e.folder, e.expectedVersion);
    } else if e.Next? {
      AdvanceKeepsInv(s, e.answer, e.freshUrl);
    } else if e.LateMove? || e.OthersCreate? || e.OthersShare? {
      NasAndLinksKeepInv(s, e);
    } else if !e.CutOff? {
      MeanwhileKeepsInv(s, e);
    }
  }

  lemma {:induction false} RunKeepsInv(s: State, events: seq<Event>)
    requires Inv(s)
    ensures Inv(Run(s, events))
    decreases |events|
  {
    if events != [] {
      StepKeepsInv(s, events[0]);
      RunKeepsInv(Step(s, events[0]), events[1..]);
    }
  }
}

/**
  What the requests and commits of a reroute attempt lead to, and what an attempt leaves that nothing disturbs
  (app/services/reroute.py:49-235, app/tools/synology.py:618-694, app/tools/notion.py:694-701).
*/
module RerouteOutcomes {
  import opened Values
  import opened Reroute
  import opened RerouteInvariant

  /* ---- The card ---- */

  /** Nobody but the saga edits the card. */
  predicate CardIsLeftAlone(events: seq<Event>) {
    forall k :: 0 <= k < |events| ==> !events[k].OthersEditCard?
  }

  /** As long as nothing has failed: once it is written, the card shows the new link and nothing else. */
  predicate CardInv(s: State) {
    s.w.operation.Some? && !s.w.failedOnce
    && (s.w.operation.value.status in {NotionUpdated, Completed} || s.pc in {ReadCard, CommitNotion}) ==>
      s.w.operation.value.url.Some? && s.w.card == {s.w.operation.value.url.value}
  }

  lemma SharingKeepsCard(w: World, pc: Pc, a: Answer, freshUrl: string)
    requires PcInv(w, pc) && Shares(pc) && CardInv(State(w, pc))
    ensures CardInv(SharingStep(w, w.operation.value, pc, a, freshUrl))
  {
    match pc
    case CommitMoved =>
    case LookUpLink =>
    case CreateLink =>
    case CommitLinked(_) =>
    case WriteCard =>
    case ReadCard =>
    case CommitNotion =>
  }

  lemma MovingKeepsCard(w: World, pc: Pc, a: Answer)
    requires OperationInv(w) && PcInv(w, pc) && w.operation.Some? && !Inspects(pc) && !Shares(pc)
    requires CardInv(State(w, pc))
    ensures CardInv(MovingStep(w, w.operation.value, pc, a))
  {
    match pc
    case Idle =>
    case ChooseTarget =>
    case ProbeTarget =>
    case MoveData =>
    case MoveMarker =>
    case Swap =>
    case Rejecting =>
    case Releasing =>
  }

  lemma StepKeepsCard(s: State, e: Event)
    requires Inv(s) && CardInv(s) && !e.OthersEditCard?
    ensures CardInv(Step(s, e))
  {
    match e
    case BeginAttempt(_, _) =>
    case Next(a, freshUrl) =>
      if s.w.operation.Some? {
        if Shares(s.pc) {
          SharingKeepsCard(s.w, s.pc, a, freshUrl);
        } else if !Inspects(s.pc) {
          MovingKeepsCard(s.w, s.pc, a);
        }
      }
    case CutOff =>
    case Wait(_) =>
    case LateMove(_) =>
    case OthersCreate(_, _, _) =>
    case OthersShare(_, _) =>
    case OthersPlace(_) =>
    case OthersBumpVersion =>
  }

  lemma {:induction false} RunKeepsCard(s: State, events: seq<Event>)
    requires Inv(s) && CardInv(s) && CardIsLeftAlone(events)
    ensures CardInv(Run(s, events))
    decreases |events|
  {
    if events != [] {
      StepKeepsInv(s, events[0]);
      StepKeepsCard(s, events[0]);
      RunKeepsCard(Step(s, events[0]), events[1..]);
    }
  }

  /** Along every run in which nobody edits the card and nothing fails, with whatever crashes and retries: an
      operation that has updated the card, or is completed, leaves the new link alone on it. */
  lemma CardShowsOnlyTheNewLink(s: State, events: seq<Event>)
    requires Inv(s) && s.w.operation.None? && CardIsLeftAlone(events)
    ensures var w := Run(s, events).w;
            w.operation.Some? && !w.failedOnce && w.operation.value.status in {NotionUpdated, Completed} ==>
              w.operation.value.url.Some? && w.card == {w.operation.value.url.value}
  {
    RunKeepsCard(s, events);
  }

  /* ---- How an attempt begins ---- */

  /** The same operation, not completed, or none yet. */
  predicate MayGoOn(w: World, folder: string, expectedVersion: nat) {
    w.operation.Some? ==>
      && w.operation.value.status != Completed
      && w.operation.value.folder == folder && w.operation.value.expectedVersion == expectedVersion
  }

  /** An attempt begins exactly for its own operation, under a free lease, at the expected version, for a recording
      that may be rerouted. It takes the lease for ten minutes, and a new operation is pending. */
  lemma AttemptBeginsExactly(s: State, folder: string, expectedVersion: nat)
    requires Inv(s) && s.pc == Idle
    ensures var t, w := Step(s, BeginAttempt(folder, expectedVersion)), s.w;
            if MayGoOn(w, folder, expectedVersion) && w.leaseUntil <= w.now
               && w.recording.version == expectedVersion && w.recording.reroutable
            then
              t == State(w.(leaseUntil := w.now + 600,
                            operation := Some(if w.operation.Some? then w.operation.value
                                              else Operation(folder, expectedVersion, Pending, None, None))),
                         ChooseTarget)
            else t == s
    ensures BeginResult(s.w, folder, expectedVersion) == Replayed
            <==> s.w.operation.Some? && s.w.operation.value.status == Completed
  {
    NoActiveNoPath(s.w.artifacts);
  }

  /* ---- How an attempt goes wrong ---- */

  /** The attempt is over, its lease is free, and its rows are as they were. */
  predicate LetGo(w: World, t: State) {
    && t.pc == Idle && t.w.leaseUntil == 0
    && t.w.operation == w.operation && t.w.recording == w.recording && t.w.artifacts == w.artifacts
    && t.w.failedOnce == w.failedOnce && t.w.readBack == w.readBack && t.w.elsewhere == w.elsewhere
  }

  /** And nothing outside has changed. */
  predicate NothingDone(w: World, v: World) {
    v.nas == w.nas && v.late == w.late && v.links == w.links && v.card == w.card && v.requests == w.requests
  }

  lemma LetsGo(w: World, url: string)
    requires w.operation.Some?
    ensures LetGo(w, Step(State(w, Releasing), Next(Ok, url)))
    ensures NothingDone(w, Step(State(w, Releasing), Next(Ok, url)).w)
  {
  }

  /** A look that raises another error than a rejection leaves the phase as it is, and the lease free. */
  lemma UnansweredLookReleases(s: State, a: Answer, url: string)
    requires s.w.operation.Some? && a in {Refused, Lost, Late}
    requires Inspects(s.pc) || s.pc in {ChooseTarget, ProbeTarget}
    ensures var t := Step(Step(s, Next(a, url)), Next(Ok, url));
            LetGo(s.w, t) && NothingDone(s.w, t.w)
  {
    assert Step(s, Next(a, url)) == State(s.w, Releasing);
    LetsGo(s.w, url);
  }

  /** So does a move; one that was lost has happened, and a late one will be possible from now on. */
  lemma UnansweredMoveReleases(s: State, a: Answer, url: string)
    requires Inv(s) && a in {Refused, Lost, Late} && s.pc in {MoveData, MoveMarker}
    ensures var t, w := Step(Step(s, Next(a, url)), Next(Ok, url)), s.w;
            var m := Move(if s.pc == MoveData then w.source else MarkerIn(w.job, w.source.folder),
                          w.operation.value.folder);
            && LetGo(w, t) && t.w.links == w.links && t.w.card == w.card
            && t.w.nas == (if a == Lost then Moved(w.nas, m) else w.nas)
            && t.w.late == (if a == Late then w.late + [m] else w.late)
            && t.w.requests == w.requests + (if s.pc == MoveData then 1 else 0)
  {
    LetsGo(Step(s, Next(a, url)).w, url);
  }

  /** What a sharing step without an answer leaves: a lost link, or a lost card. */
  function LeftBehind(w: World, pc: Pc, a: Answer, url: string): World
    requires w.operation.Some?
  {
    if a == Lost && pc == CreateLink then w.(links := w.links + [Link(url, Goal(w))])
    else if a == Lost && pc == WriteCard && w.operation.value.url.Some?
    then w.(card := {w.operation.value.url.value})
    else w
  }

  lemma SharingStops(w: World, pc: Pc, a: Answer, url: string)
    requires w.operation.Some? && a in {Refused, Lost, Late} && Shares(pc)
    ensures SharingStep(w, w.operation.value, pc, a, url) == State(LeftBehind(w, pc, a, url), Releasing)
  {
    match pc
    case CommitMoved =>
    case LookUpLink =>
    case CreateLink =>
    case CommitLinked(_) =>
    case WriteCard =>
    case ReadCard =>
    case CommitNotion =>
  }

  /** So does a commit, and a request to share or to write the card; what was lost has happened. */
  lemma UnansweredShareReleases(s: State, a: Answer, url: string)
    requires s.w.operation.Some? && a in {Refused, Lost, Late} && Shares(s.pc)
    ensures var t := Step(Step(s, Next(a, url)), Next(Ok, url));
            LetGo(s.w, t) && NothingDone(LeftBehind(s.w, s.pc, a, url), t.w)
  {
    SharingStops(s.w, s.pc, a, url);
    LetsGo(LeftBehind(s.w, s.pc, a, url), url);
  }

  /** What a look has to find. */
  predicate Wanted(w: World, pc: Pc)
    requires w.operation.Some?
  {
    var marker := MarkerIn(w.job, w.operation.value.folder);
    match pc
    case ProbeSource | SourceGone => w.source !in w.nas
    case VerifySize | MovedSize => Goal(w) in w.nas && w.job.size == Some(w.nas[Goal(w)].size)
    case VerifyOwner | MovedOwner => marker in w.nas && w.nas[marker].kind == OwnerMarker(w.job.owner)
    case MoveProbe => Goal(w) !in w.nas
    case MoveSize => w.source in w.nas && w.job.size == Some(w.nas[w.source].size)
    case MoveOwner =>
      var from := MarkerIn(w.job, w.source.folder);
      from in w.nas && w.nas[from].kind == OwnerMarker(w.job.owner)
    case MarkerProbe => marker !in w.nas
    case MarkerGone => MarkerIn(w.job, w.source.folder) !in w.nas
    case ReadCard => w.operation.value.url.Some? && w.operation.value.url.value in w.card
    case _ => true
  }

  /** The row after a rejection: failed, with the lease free, and nothing else changed. */
  function Rejected(w: World): World
    requires w.operation.Some?
  {
    w.(operation := Some(w.operation.value.(status := Failed)), failedOnce := true, leaseUntil := 0)
  }

  /** A look fails the operation exactly when it does not find what it wants, or when what it finds cannot be
      read as one; otherwise the attempt goes on with everything as it was. */
  lemma LookFailsExactly(s: State, a: Answer, url: string)
    requires s.w.operation.Some? && Inspects(s.pc) && a in {Ok, Denied}
    ensures var looked := Step(s, Next(a, url));
            if a == Denied || !Wanted(s.w, s.pc) then Step(looked, Next(Ok, url)) == State(Rejected(s.w), Idle)
            else looked.w == s.w && looked.pc !in {Idle, Rejecting, Releasing}
  {
    match s.pc
    case ProbeSource =>
    case VerifySize =>
    case VerifyOwner =>
    case MoveProbe =>
    case MoveSize =>
    case MoveOwner =>
    case MovedSize =>
    case MarkerProbe =>
    case MovedOwner =>
    case SourceGone =>
    case MarkerGone =>
  }

  /** So does the card when it does not show the link. */
  lemma CardFailsExactly(s: State, url: string)
    requires Inv(s) && s.pc == ReadCard
    ensures var looked := Step(s, Next(Ok, url));
            if Wanted(s.w, ReadCard) then looked == State(s.w.(readBack := true), CommitNotion)
            else Step(looked, Next(Ok, url)) == State(Rejected(s.w), Idle)
  {
  }

  /** What a phase needs in the row: no other target than the one that is wanted, and what later phases stored. */
  predicate RowFits(w: World)
    requires w.operation.Some?
  {
    var op := w.operation.value;
    match op.status
    case Pending => op.target.None? || op.target.value == Goal(w)
    case MovedFile => op.target.Some?
    case _ => op.target.Some? && op.url.Some?
  }

  /** A refused root or property map fails the operation as well, and so does a row that does not fit its phase, as
      that of a failed operation without a link. */
  lemma ChoiceFailsExactly(s: State, a: Answer, url: string)
    requires s.w.operation.Some? && s.pc == ChooseTarget && a in {Ok, Denied}
    ensures var op, chosen := s.w.operation.value, Step(s, Next(a, url));
            if a == Denied || !RowFits(s.w) then Step(chosen, Next(Ok, url)) == State(Rejected(s.w), Idle)
            else
              && chosen.w == (if op.status == Pending then s.w.(operation := Some(op.(target := Some(Goal(s.w)))))
                              else s.w)
              && chosen.pc == match op.status
                              case Pending => ProbeTarget
                              case MovedFile => LookUpLink
                              case Linked => WriteCard
                              case _ => Swap
  {
    match s.w.operation.value.status
    case Pending =>
    case MovedFile =>
    case Linked =>
    case NotionUpdated =>
    case Completed =>
    case Failed =>
  }

  /** The swap fails the operation as well when its row has no target or no link. */
  lemma SwapFailsExactly(s: State, url: string)
    requires s.w.operation.Some? && s.pc == Swap
    ensures var op := s.w.operation.value;
            Step(s, Next(Ok, url)).pc == Rejecting <==> op.target.None? || op.url.None?
    ensures Step(s, Next(Ok, url)).pc == Rejecting ==>
              Step(Step(s, Next(Ok, url)), Next(Ok, url)) == State(Rejected(s.w), Idle)
  {
  }

  /** A commit that fails at the very end ends the attempt; the lease then runs out by itself. */
  lemma LastCommitFails(s: State, a: Answer, url: string)
    requires Inv(s) && s.pc in {Swap, Rejecting, Releasing} && a != Ok
    ensures Step(s, Next(a, url)) == State(s.w, Idle)
  {
  }

  /* ---- What happens beside an attempt ---- */

  /** A move that was asked for long ago happens once, if it still can, and leaves the rows alone. */
  lemma LateMoveHappensOnce(s: State, i: nat)
    requires i < |s.w.late|
    ensures var t, m := Step(s, LateMove(i)), s.w.late[i];
            && t.pc == s.pc && t.w.nas == (if CanMove(s.w.nas, m) then Moved(s.w.nas, m) else s.w.nas)
            && t.w.late == s.w.late[..i] + s.w.late[i + 1..]
            && t.w.operation == s.w.operation && t.w.recording == s.w.recording && t.w.links == s.w.links
  {
  }

  /** Another recording gets an artifact at any path but those of this one, and that path is taken then. */
  lemma OtherArtifactTakesPath(s: State, path: Path)
    ensures PathTaken(Step(s, OthersPlace(path)).w, path)
    ensures Step(s, OthersPlace(path)).w.artifacts == s.w.artifacts
  {
  }

  /* ---- How an attempt goes well ---- */

  /** Requests and commits that all go well. */
  function Sailed(s: State, url: string, n: nat): State
    decreases n
  {
    if n == 0 then s else Sailed(Step(s, Next(Ok, url)), url, n - 1)
  }

  lemma {:induction false} SailedAddsUp(s: State, url: string, m: nat, n: nat)
    ensures Sailed(s, url, m + n) == Sailed(Sailed(s, url, m), url, n)
    decreases m
  {
    if m > 0 {
      SailedAddsUp(Step(s, Next(Ok, url)), url, m - 1, n);
    }
  }

  lemma SailedTwice(s: State, url: string)
    ensures Sailed(s, url, 1) == Step(s, Next(Ok, url))
    ensures Sailed(s, url, 2) == Step(Step(s, Next(Ok, url)), Next(Ok, url))
  {
    var t := Step(s, Next(Ok, url));
    assert Sailed(s, url, 1) == Sailed(t, url, 0);
    assert Sailed(t, url, 1) == Sailed(Step(t, Next(Ok, url)), url, 0);
    assert Sailed(s, url, 2) == Sailed(t, url, 1);
  }

  /** Three steps in a row. */
  lemma SailedThrice(s: State, t: State, u: State, v: State, url: string)
    requires t == Step(s, Next(Ok, url)) && u == Step(t, Next(Ok, url)) && v == Step(u, Next(Ok, url))
    ensures Sailed(s, url, 3) == v
  {
    SailedTwice(s, url);
    SailedAddsUp(s, url, 2, 1);
    SailedTwice(u, url);
  }

  /** The file and its marker as they were meant to be: complete, owned and free to move. */
  predicate ReadyToMove(w: World)
    requires w.operation.Some?
  {
    && w.moves == 0 && Goal(w) !in w.nas
    && w.source in w.nas && w.job.size == Some(w.nas[w.source].size)
    && HasOwner(w.nas, MarkerIn(w.job, w.source.folder), w.job.owner)
    && MarkerIn(w.job, w.operation.value.folder) !in w.nas
  }

  /** The first five steps look at everything before the file is moved. */
  lemma LooksBeforeMoving(w: World, url: string)
    requires Inv(State(w, ProbeTarget)) && ReadyToMove(w)
    ensures Sailed(State(w, ProbeTarget), url, 4) == State(w, MoveData)
  {
    SailedThrice(State(w, ProbeTarget), State(w, MoveProbe), State(w, MoveSize), State(w, MoveOwner), url);
    SailedTwice(State(w, MoveOwner), url);
    SailedAddsUp(State(w, ProbeTarget), url, 3, 1);
  }

  /** The world with the file moved, and with its marker moved as well. */
  function DataMoved(w: World): World
    requires w.operation.Some?
  {
    w.(nas := Moved(w.nas, Move(w.source, w.operation.value.folder)), requests := w.requests + 1,
       moves := w.moves + 1)
  }

  function MarkerMoved(w: World): World
    requires w.operation.Some?
  {
    w.(nas := Moved(w.nas, Move(MarkerIn(w.job, w.source.folder), w.operation.value.folder)))
  }

  lemma MovesData(w: World, url: string)
    requires Inv(State(w, MoveData)) && ReadyToMove(w)
    ensures Sailed(State(w, MoveData), url, 3) == State(DataMoved(w), MoveMarker)
  {
    var data := DataMoved(w);
    assert CanMove(w.nas, Move(w.source, w.operation.value.folder));
    assert Step(State(w, MoveData), Next(Ok, url)) == State(data, MovedSize);
    SailedThrice(State(w, MoveData), State(data, MovedSize), State(data, MarkerProbe), State(data, MoveMarker), url);
  }

  lemma MovesMarker(w: World, url: string)
    requires w.operation.Some? && w.source !in w.nas && w.source.name.Data?
    requires HasOwner(w.nas, MarkerIn(w.job, w.source.folder), w.job.owner)
    requires MarkerIn(w.job, w.operation.value.folder) !in w.nas
    ensures Sailed(State(w, MoveMarker), url, 4) == State(MarkerMoved(w), CommitMoved)
  {
    var v := MarkerMoved(w);
    assert Step(State(w, MoveMarker), Next(Ok, url)) == State(v, MovedOwner);
    SailedThrice(State(w, MoveMarker), State(v, MovedOwner), State(v, SourceGone), State(v, MarkerGone), url);
    SailedTwice(State(v, MarkerGone), url);
    SailedAddsUp(State(w, MoveMarker), url, 3, 1);
  }

  lemma MovesBoth(w: World, url: string)
    requires Inv(State(w, MoveData)) && ReadyToMove(w)
    ensures Sailed(State(w, MoveData), url, 7) == State(MarkerMoved(DataMoved(w)), CommitMoved)
  {
    MovesData(w, url);
    MovesMarker(DataMoved(w), url);
    SailedAddsUp(State(w, MoveData), url, 3, 4);
  }

  /** The world with the file shared, and with the link on the card. */
  function LinkStored(w: World, url: string): World
    requires w.operation.Some?
  {
    w.(operation := Some(w.operation.value.(status := Linked, target := Some(Goal(w)), url := Some(url))),
       links := w.links + [Link(url, Goal(w))])
  }

  function CardWritten(w: World, url: string): World
    requires w.operation.Some?
  {
    w.(operation := Some(w.operation.value.(status := NotionUpdated)), card := {url}, readBack := true)
  }

  lemma SharesFile(w: World, url: string)
    requires w.operation.Some? && FindLink(w.links, Goal(w)).None?
    ensures Sailed(State(w, CommitMoved), url, 4) == State(LinkStored(w, url), WriteCard)
  {
    var moved := w.(operation := Some(w.operation.value.(status := MovedFile, target := Some(Goal(w)))));
    var shared := moved.(links := w.links + [Link(url, Goal(w))]);
    SailedThrice(State(w, CommitMoved), State(moved, LookUpLink), State(moved, CreateLink),
                 State(shared, CommitLinked(url)), url);
    SailedTwice(State(shared, CommitLinked(url)), url);
    SailedAddsUp(State(w, CommitMoved), url, 3, 1);
  }

  lemma WritesCard(w: World, url: string)
    requires w.operation.Some? && w.operation.value.url == Some(url)
    ensures Sailed(State(w, WriteCard), url, 3) == State(CardWritten(w, url), Swap)
  {
    var shown := w.(card := {url});
    SailedThrice(State(w, WriteCard), State(shown, ReadCard), State(shown.(readBack := true), CommitNotion),
                 State(CardWritten(w, url), Swap), url);
  }

  /** The file stands at the target as it was, with its marker; everything else but the two moved items stays. */
  predicate FileArrived(w: World, v: World)
    requires w.operation.Some? && w.source in w.nas
  {
    var from, to := MarkerIn(w.job, w.source.folder), MarkerIn(w.job, w.operation.value.folder);
    && w.source !in v.nas && from !in v.nas
    && Goal(w) in v.nas && v.nas[Goal(w)] == w.nas[w.source]
    && HasOwner(v.nas, to, w.job.owner)
    && (forall p :: p in w.nas && p != w.source && p != from ==> p in v.nas && v.nas[p] == w.nas[p])
    && (forall p :: p in v.nas && p != Goal(w) && p != to ==> p in w.nas)
  }

  /** One active artifact more, at the target, and the recording is where it says. */
  predicate SwappedIn(w: World, v: World, url: string) {
    && |v.artifacts| == |w.artifacts| + 1
    && v.artifacts[|w.artifacts|] == Artifact(Goal(w), url, true)
    && (forall i :: 0 <= i < |w.artifacts| ==>
          v.artifacts[i] == if w.artifacts[i].path == w.source then w.artifacts[i].(active := false)
                            else w.artifacts[i])
    && v.recording == w.recording.(version := w.recording.version + 1, filePath := Goal(w), shareUrl := url)
  }

  /** The world when only the swap is left. */
  function BeforeSwap(w: World, url: string): World
    requires w.operation.Some?
  {
    CardWritten(LinkStored(MarkerMoved(DataMoved(w)), url), url)
  }

  lemma ReachesSwap(w: World, url: string)
    requires Inv(State(w, ProbeTarget)) && ReadyToMove(w) && FindLink(w.links, Goal(w)).None?
    ensures Sailed(State(w, ProbeTarget), url, 18) == State(BeforeSwap(w, url), Swap)
  {
    var probe := State(w, ProbeTarget);
    LooksBeforeMoving(w, url);
    MovesBoth(w, url);
    SharesFile(MarkerMoved(DataMoved(w)), url);
    WritesCard(LinkStored(MarkerMoved(DataMoved(w)), url), url);
    SailedAddsUp(probe, url, 4, 7);
    SailedAddsUp(probe, url, 11, 4);
    SailedAddsUp(probe, url, 15, 3);
  }

  lemma MovedArrives(w: World)
    requires w.operation.Some? && ReadyToMove(w) && w.source.name == Data(w.job.filename)
    ensures FileArrived(w, MarkerMoved(DataMoved(w)))
  {
  }

  lemma SwapsIn(w: World, url: string)
    requires w.operation.Some? && w.operation.value.target == Some(Goal(w)) && w.operation.value.url == Some(url)
    requires !PathTaken(w, Goal(w))
    ensures var t := Step(State(w, Swap), Next(Ok, url));
            && t == State(t.w.(nas := w.nas, links := w.links, card := w.card, requests := w.requests,
                               moves := w.moves, readBack := w.readBack, failedOnce := w.failedOnce), Idle)
            && t.w.leaseUntil == 0 && t.w.operation == Some(w.operation.value.(status := Completed))
            && SwappedIn(w, t.w, url)
  {
  }

  /** What an attempt leaves: the file and its marker at the target, one link more, which is all that the card
      shows, the artifacts swapped, path, link and a new version in the recording, and the lease free. */
  predicate Done(w: World, t: State, url: string)
    requires w.operation.Some? && w.source in w.nas
  {
    && t.pc == Idle && t.w.leaseUntil == 0
    && t.w.operation == Some(w.operation.value.(status := Completed, target := Some(Goal(w)), url := Some(url)))
    && FileArrived(w, t.w) && SwappedIn(w, t.w, url)
    && t.w.links == w.links + [Link(url, Goal(w))] && t.w.card == {url}
    && t.w.requests == w.requests + 1 && t.w.moves == 1 && t.w.readBack && t.w.failedOnce == w.failedOnce
  }

  lemma SwapFinishes(w: World, url: string)
    requires w.operation.Some? && ReadyToMove(w) && w.source.name == Data(w.job.filename) && !PathTaken(w, Goal(w))
    ensures Done(w, Step(State(BeforeSwap(w, url), Swap), Next(Ok, url)), url)
  {
    MovedArrives(w);
    SwapsIn(BeforeSwap(w, url), url);
  }

  /** An attempt that nothing disturbs completes in twenty requests and commits. */
  lemma UndisturbedAttemptLeaves(w: World, url: string)
    requires Inv(State(w, ChooseTarget)) && w.operation.value.status == Pending && ReadyToMove(w)
    requires FindLink(w.links, Goal(w)).None? && !PathTaken(w, Goal(w))
    ensures Done(w, Sailed(State(w, ChooseTarget), url, 20), url)
  {
    var start := State(w, ChooseTarget);
    var chosen := w.(operation := Some(w.operation.value.(target := Some(Goal(w)))));
    ChooseTargetKeepsInv(w, Ok);
    SailedTwice(start, url);
    assert Step(start, Next(Ok, url)) == State(chosen, ProbeTarget);
    ReachesSwap(chosen, url);
    SwapFinishes(chosen, url);
    LastStep(start, State(chosen, ProbeTarget), State(BeforeSwap(chosen, url), Swap), url);
    ChosenIsTheSame(w, Sailed(start, url, 20), url);
  }

  lemma LastStep(start: State, probe: State, last: State, url: string)
    requires Sailed(start, url, 1) == probe && Sailed(probe, url, 18) == last
    ensures Sailed(start, url, 20) == Step(last, Next(Ok, url))
  {
    SailedAddsUp(start, url, 1, 18);
    SailedAddsUp(start, url, 19, 1);
    SailedTwice(last, url);
  }

  lemma ChosenIsTheSame(w: World, t: State, url: string)
    requires w.operation.Some? && w.source in w.nas
    requires Done(w.(operation := Some(w.operation.value.(target := Some(Goal(w))))), t, url)
    ensures Done(w, t, url)
  {
  }
}

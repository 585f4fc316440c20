/**
  Reroute attempts that overlap. The lease of an attempt runs out after ten minutes and is cleared by
  whoever ends first (app/services/reroute.py:79-118, 221-235), so further attempts with the same key can
  begin while an earlier one is still under way. Each works on the copies of the rows that it loaded, and
  its commits write only the columns that it changed.
*/
module RerouteOverlap {
  import opened Values
  import opened Reroute
  import opened RerouteInvariant
  import opened RerouteSafety

  /** An attempt under way: where it is, its copy of the operation, and the version it loaded. */
  datatype Attempt = Attempt(pc: Pc, op: Operation, version: nat)

  datatype Crowd = Crowd(w: World, attempts: seq<Attempt>)

  datatype CrowdEvent =
    | Start(folder: string, expectedVersion: nat)
    | Act(i: nat, answer: Answer, freshUrl: string)
    | Stop(i: nat)
    | Around(e: Event)

  /** The world as an attempt sees it. */
  function Seen(w: World, a: Attempt): World {
    w.(operation := Some(a.op), recording := w.recording.(version := a.version))
  }

  function WrittenRow(row: Operation, before: Operation, after: Operation): Operation {
    row.(status := if after.status != before.status then after.status else row.status,
         target := if after.target != before.target then after.target else row.target,
         url := if after.url != before.url then after.url else row.url)
  }

  function WrittenRecording(row: Recording, before: Recording, after: Recording): Recording {
    row.(version := if after.version != before.version then after.version else row.version,
         filePath := if after.filePath != before.filePath then after.filePath else row.filePath,
         shareUrl := if after.shareUrl != before.shareUrl then after.shareUrl else row.shareUrl)
  }

  /** What is left of a step on the seen world in the shared one. */
  function Merged(w: World, before: World, after: World): World
    requires w.operation.Some? && before.operation.Some? && after.operation.Some?
  {
    after.(operation := Some(WrittenRow(w.operation.value, before.operation.value, after.operation.value)),
           recording := WrittenRecording(w.recording, before.recording, after.recording))
  }

  lemma SharingKeepsRequest(w: World, pc: Pc, a: Answer, freshUrl: string)
    requires w.operation.Some? && Shares(pc)
    ensures SameRequest(w, SharingStep(w, w.operation.value, pc, a, freshUrl).w)
  {
    SharingLeavesNas(w, pc, a, freshUrl);
  }

  lemma MoveKeepsRequest(w: World, a: Answer, m: Move, next: Pc)
    ensures SameRequest(w, MoveStep(w, a, m, next).w)
  {
  }

  lemma AdvanceKeepsRequest(s: State, a: Answer, freshUrl: string)
    requires s.w.operation.Some?
    ensures SameRequest(s.w, Advance(s, a, freshUrl).w)
  {
    var folder := s.w.operation.value.folder;
    if Shares(s.pc) {
      SharingKeepsRequest(s.w, s.pc, a, freshUrl);
    } else if s.pc == MoveData {
      MoveKeepsRequest(s.w, a, Move(s.w.source, folder), MovedSize);
    } else if s.pc == MoveMarker {
      MoveKeepsRequest(s.w, a, Move(MarkerIn(s.w.job, s.w.source.folder), folder), MovedOwner);
    } else if !Inspects(s.pc) {
      MovingLeavesNas(s.w, s.pc, a);
    }
  }

  function ActStep(c: Crowd, i: nat, answer: Answer, freshUrl: string): Crowd {
    if i >= |c.attempts| || c.w.operation.None? then c
    else
      var a := c.attempts[i];
      var before := Seen(c.w, a);
      AdvanceKeepsRequest(State(before, a.pc), answer, freshUrl);
      var after := Advance(State(before, a.pc), answer, freshUrl);
      Crowd(Merged(c.w, before, after.w), c.attempts[i := Attempt(after.pc, after.w.operation.value, a.version)])
  }

  function StartStep(c: Crowd, folder: string, expectedVersion: nat): Crowd {
    if BeginResult(c.w, folder, expectedVersion) != Started then c
    else
      var w := Begin(State(c.w, Idle), folder, expectedVersion).w;
      Crowd(w, c.attempts + [Attempt(ChooseTarget, w.operation.value, w.recording.version)])
  }

  function AroundStep(w: World, e: Event): World {
    if e.OthersBumpVersion? then w.(recording := w.recording.(version := w.recording.version + 1))
    else Meanwhile(w, e)
  }

  function CrowdStep(c: Crowd, e: CrowdEvent): Crowd {
    match e
    case Start(folder, expectedVersion) => StartStep(c, folder, expectedVersion)
    case Act(i, answer, freshUrl) => ActStep(c, i, answer, freshUrl)
    case Stop(i) => if i < |c.attempts| then c.(attempts := c.attempts[i := c.attempts[i].(pc := Idle)]) else c
    case Around(other) => c.(w := AroundStep(c.w, other))
  }

  function CrowdRun(c: Crowd, events: seq<CrowdEvent>): Crowd
    decreases |events|
  {
    if events == [] then c else CrowdRun(CrowdStep(c, events[0]), events[1..])
  }

  ghost predicate CrowdInitial(c: Crowd) {
    Initial(State(c.w, Idle)) && c.attempts == []
  }

  /* ---- What an attempt may rely on, whoever else is at work ---- */

  /** A phase, a target and a link in a row or in a copy of it. */
  predicate Founded(w: World, op: Operation) {
    && w.operation.Some?
    && op.folder == w.operation.value.folder && op.expectedVersion == w.operation.value.expectedVersion
    && (op.target.Some? ==> op.target.value == Goal(w))
    && (op.status !in {Pending, Failed} ==> Settled(w) && op.target.Some?)
    && (op.status in {Linked, NotionUpdated, Completed} ==> op.url.Some?)
    && (op.url.Some? ==> Settled(w) && op.target.Some? && Link(op.url.value, Goal(w)) in w.links)
  }

  /** That no link was found says nothing once others may have created one. */
  function Lasting(pc: Pc): Pc {
    if pc == CreateLink then LookUpLink else pc
  }

  /** A seen world and where its attempt is. */
  ghost predicate Sound(w: World, pc: Pc) {
    && OneCopy(w) && LateInv(w) && w.operation.Some? && Founded(w, w.operation.value)
    && PcInv(w, Lasting(pc))
  }

  /** What all attempts can rely on to stay. */
  ghost predicate Onward(w: World, v: World) {
    && SameRequest(w, v)
    && (w.operation.Some? ==>
          && (w.operation.value.target.Some? ==> v.operation.value.target.Some?)
          && (w.operation.value.url.Some? ==> v.operation.value.url.Some?))
    && (w.moves == 1 ==> v.moves == 1)
    && (w.moves == 1 && HasSize(w.nas, Goal(w), w.job.size) ==> HasSize(v.nas, Goal(v), v.job.size))
    && (Settled(w) ==> Settled(v))
    && (forall link :: link in w.links ==> link in v.links)
    && (w.readBack ==> v.readBack)
  }

  lemma SameStoresGoOnward(w: World, v: World)
    requires SameRequest(w, v) && w.operation.Some?
    requires v.nas == w.nas && v.moves == w.moves && (w.readBack ==> v.readBack)
    requires w.operation.value.target.Some? ==> v.operation.value.target.Some?
    requires w.operation.value.url.Some? ==> v.operation.value.url.Some?
    requires forall link :: link in w.links ==> link in v.links
    ensures Onward(w, v)
  {
  }

  lemma SameCopy(w: World, v: World)
    requires OneCopy(w) && LateInv(w) && w.operation.Some? && SameRequest(w, v)
    requires v.nas == w.nas && v.moves == w.moves && v.late == w.late
    ensures OneCopy(v) && LateInv(v)
  {
    CopyUnchanged(w, v);
    forall i | 0 <= i < |v.late|
      ensures Ours(v, v.late[i])
    {
      assert Ours(w, w.late[i]);
    }
  }

  /** A step that leaves NAS, queue and links to what they were, or longer. */
  lemma RowStepIsSound(w: World, v: World, pc: Pc)
    requires OneCopy(w) && LateInv(w) && w.operation.Some? && SameRequest(w, v)
    requires v.nas == w.nas && v.moves == w.moves && v.late == w.late && (w.readBack ==> v.readBack)
    requires w.operation.value.target.Some? ==> v.operation.value.target.Some?
    requires w.operation.value.url.Some? ==> v.operation.value.url.Some?
    requires forall link :: link in w.links ==> link in v.links
    requires Founded(v, v.operation.value) && PcInv(v, Lasting(pc))
    ensures Sound(v, pc) && Onward(w, v)
  {
    SameCopy(w, v);
    SameStoresGoOnward(w, v);
  }

  lemma LooksAreSound(w: World, pc: Pc, a: Answer)
    requires Sound(w, pc) && Inspects(pc)
    ensures var next := Judge(a, Inspect(w, w.operation.value, pc));
            Sound(w, next) && Onward(w, w)
  {
    if Inspect(w, w.operation.value, pc).ok {
      InspectionEntitles(w, pc);
    }
  }

  lemma CommitMovedIsSound(w: World, a: Answer)
    requires Sound(w, CommitMoved)
    ensures var t := CommitMovedStep(w, w.operation.value, a);
            Sound(t.w, t.pc) && Onward(w, t.w)
  {
    var t := CommitMovedStep(w, w.operation.value, a);
    RowStepIsSound(w, t.w, t.pc);
  }

  lemma LookUpLinkIsSound(w: World, a: Answer)
    requires Sound(w, LookUpLink)
    ensures var t := LookUpLinkStep(w, w.operation.value, a);
            Sound(t.w, t.pc) && Onward(w, t.w)
  {
    FoundLinkIsListed(w.links, Goal(w));
  }

  lemma CreateLinkIsSound(w: World, a: Answer, freshUrl: string)
    requires Sound(w, CreateLink)
    ensures var t := CreateLinkStep(w, w.operation.value, a, freshUrl);
            Sound(t.w, t.pc) && Onward(w, t.w)
  {
    var t := CreateLinkStep(w, w.operation.value, a, freshUrl);
    var link := Link(freshUrl, Goal(w));
    assert t.w.links == w.links + [link] || t.w.links == w.links;
    assert t.w.links == w.links + [link] ==> t.w.links[|w.links|] == link;
    RowStepIsSound(w, t.w, t.pc);
  }

  lemma CommitLinkedIsSound(w: World, a: Answer, url: string)
    requires Sound(w, CommitLinked(url))
    ensures var t := CommitLinkedStep(w, w.operation.value, a, url);
            Sound(t.w, t.pc) && Onward(w, t.w)
  {
    var t := CommitLinkedStep(w, w.operation.value, a, url);
    RowStepIsSound(w, t.w, t.pc);
  }

  lemma WriteCardIsSound(w: World, a: Answer)
    requires Sound(w, WriteCard)
    ensures var t := WriteCardStep(w, w.operation.value, a);
            Sound(t.w, t.pc) && Onward(w, t.w)
  {
    var t := WriteCardStep(w, w.operation.value, a);
    assert t.w == w.(card := t.w.card);
    RowStepIsSound(w, t.w, t.pc);
  }

  lemma ReadCardIsSound(w: World, a: Answer)
    requires Sound(w, ReadCard)
    ensures var t := ReadCardStep(w, w.operation.value, a);
            Sound(t.w, t.pc) && Onward(w, t.w)
  {
    var t := ReadCardStep(w, w.operation.value, a);
    assert t.w == w || t.w == w.(readBack := true);
    RowStepIsSound(w, t.w, t.pc);
  }

  lemma CommitNotionIsSound(w: World, a: Answer)
    requires Sound(w, CommitNotion)
    ensures var t := CommitNotionStep(w, w.operation.value, a);
            Sound(t.w, t.pc) && Onward(w, t.w)
  {
    var t := CommitNotionStep(w, w.operation.value, a);
    RowStepIsSound(w, t.w, t.pc);
  }

  lemma SharingIsSound(w: World, pc: Pc, a: Answer, freshUrl: string)
    requires Sound(w, pc) && Shares(pc)
    ensures var t := SharingStep(w, w.operation.value, pc, a, freshUrl);
            Sound(t.w, t.pc) && Onward(w, t.w)
  {
    match pc
    case CommitMoved => CommitMovedIsSound(w, a);
    case LookUpLink => LookUpLinkIsSound(w, a);
    case CreateLink => CreateLinkIsSound(w, a, freshUrl);
    case CommitLinked(url) => CommitLinkedIsSound(w, a, url);
    case WriteCard => WriteCardIsSound(w, a);
    case ReadCard => ReadCardIsSound(w, a);
    case CommitNotion => CommitNotionIsSound(w, a);
  }

  lemma QueueStaysOurs(w: World, v: World)
    requires LateInv(w) && SameRequest(w, v) && v.late == w.late
    ensures LateInv(v)
  {
    forall i | 0 <= i < |v.late|
      ensures Ours(v, v.late[i])
    {
      assert Ours(w, w.late[i]);
    }
  }

  lemma PerformedGoesOnward(w: World, m: Move)
    requires OneCopy(w) && LateInv(w) && Ours(w, m)
    ensures Onward(w, Performed(w, m)) && OneCopy(Performed(w, m)) && LateInv(Performed(w, m))
  {
    PerformedKeepsOneCopy(w, m);
    QueueStaysOurs(w, Performed(w, m));
    if w.moves == 1 {
      PerformedKeepsTarget(w, m);
    }
  }

  lemma OnwardKeepsFounded(w: World, v: World, op: Operation)
    requires Founded(w, op) && Onward(w, v)
    ensures Founded(v, op)
  {
  }

  lemma OnwardAddsUp(u: World, v: World, w: World)
    requires Onward(u, v) && Onward(v, w)
    ensures Onward(u, w)
  {
  }

  lemma AskedIsSound(w: World, m: Move)
    requires Sound(w, Releasing)
    ensures Sound(Asked(w, m), Releasing) && Onward(w, Asked(w, m))
  {
    RowStepIsSound(w, Asked(w, m), Releasing);
  }

  lemma PerformedIsSound(w: World, m: Move, pc: Pc)
    requires Sound(w, Releasing) && Ours(w, m) && PcInv(Performed(w, m), pc) && pc != CreateLink
    ensures Sound(Performed(w, m), pc) && Onward(w, Performed(w, m))
  {
    PerformedGoesOnward(w, m);
    OnwardKeepsFounded(w, Performed(w, m), w.operation.value);
  }

  lemma DoneIsSound(w: World, m: Move, pc: Pc)
    requires Sound(w, Releasing) && Ours(w, m) && PcInv(Performed(w, m), pc) && pc != CreateLink
    ensures Sound(Performed(Asked(w, m), m), pc) && Onward(w, Performed(Asked(w, m), m))
  {
    AskedIsSound(w, m);
    AskedKeepsPcInv(w, m, pc);
    PerformedIsSound(Asked(w, m), m, pc);
    OnwardAddsUp(w, Asked(w, m), Performed(Asked(w, m), m));
  }

  lemma LateIsSound(w: World, m: Move)
    requires Sound(w, Releasing) && Ours(w, m)
    ensures var v := w.(late := w.late + [m]);
            Sound(v, Releasing) && Onward(w, v)
  {
    var v := w.(late := w.late + [m]);
    CopyUnchanged(w, v);
    forall i | 0 <= i < |v.late|
      ensures Ours(v, v.late[i])
    {
      assert i < |w.late| ==> Ours(w, w.late[i]);
    }
  }

  lemma QueuedIsSound(w: World, m: Move)
    requires Sound(w, Releasing) && Ours(w, m)
    ensures var v := Asked(w, m).(late := w.late + [m]);
            Sound(v, Releasing) && Onward(w, v)
  {
    AskedIsSound(w, m);
    LateIsSound(Asked(w, m), m);
    OnwardAddsUp(w, Asked(w, m), Asked(w, m).(late := w.late + [m]));
  }

  lemma MoveStepIsSound(w: World, a: Answer, m: Move, next: Pc)
    requires Sound(w, Releasing) && Ours(w, m) && next != CreateLink
    requires CanMove(w.nas, m) ==> PcInv(Performed(w, m), next)
    ensures var t := MoveStep(w, a, m, next);
            Sound(t.w, t.pc) && Onward(w, t.w)
  {
    match a
    case Late => QueuedIsSound(w, m);
    case Refused => AskedIsSound(w, m);
    case Denied => AskedIsSound(w, m);
    case Lost =>
      PerformedKeepsPcInv(w, m, Releasing);
      DoneIsSound(w, m, Releasing);
    case Ok =>
      PerformedKeepsPcInv(w, m, Releasing);
      DoneIsSound(w, m, if CanMove(w.nas, m) then next else Releasing);
  }

  lemma MoveDataIsSound(w: World, a: Answer)
    requires Sound(w, MoveData)
    ensures var t := MoveStep(w, a, Move(w.source, w.operation.value.folder), MovedSize);
            Sound(t.w, t.pc) && Onward(w, t.w)
  {
    var m := Move(w.source, w.operation.value.folder);
    PerformedKeepsOneCopy(w, m);
    MoveStepIsSound(w, a, m, MovedSize);
  }

  lemma MoveMarkerIsSound(w: World, a: Answer)
    requires Sound(w, MoveMarker)
    ensures var t := MoveStep(w, a, Move(MarkerIn(w.job, w.source.folder), w.operation.value.folder), MovedOwner);
            Sound(t.w, t.pc) && Onward(w, t.w)
  {
    var m := Move(MarkerIn(w.job, w.source.folder), w.operation.value.folder);
    PerformedKeepsPcInv(w, m, MovedOwner);
    MoveStepIsSound(w, a, m, MovedOwner);
  }

  lemma ChooseTargetIsSound(w: World, a: Answer)
    requires Sound(w, ChooseTarget)
    ensures var t := ChooseTargetStep(w, w.operation.value, a);
            Sound(t.w, t.pc) && Onward(w, t.w)
  {
    var op := w.operation.value;
    var t := ChooseTargetStep(w, op, a);
    assert t.w == w || t.w == w.(operation := Some(op.(target := Some(Goal(w)))));
    RowStepIsSound(w, t.w, t.pc);
  }

  lemma SwapIsSound(w: World, a: Answer)
    requires Sound(w, Swap)
    ensures var t := SwapStep(w, w.operation.value, a);
            Sound(t.w, t.pc) && Onward(w, t.w)
  {
    var t := SwapStep(w, w.operation.value, a);
    RowStepIsSound(w, t.w, t.pc);
  }

  lemma EndingsAreSound(w: World, pc: Pc, a: Answer)
    requires Sound(w, pc) && pc in {Rejecting, Releasing}
    ensures var t := MovingStep(w, w.operation.value, pc, a);
            Sound(t.w, t.pc) && Onward(w, t.w)
  {
    var t := MovingStep(w, w.operation.value, pc, a);
    RowStepIsSound(w, t.w, t.pc);
  }

  lemma MovingIsSound(w: World, pc: Pc, a: Answer)
    requires Sound(w, pc) && !Inspects(pc) && !Shares(pc)
    ensures var t := MovingStep(w, w.operation.value, pc, a);
            Sound(t.w, t.pc) && Onward(w, t.w)
  {
    match pc
    case Idle =>
    case ChooseTarget => ChooseTargetIsSound(w, a);
    case ProbeTarget =>
    case MoveData => MoveDataIsSound(w, a);
    case MoveMarker => MoveMarkerIsSound(w, a);
    case Swap => SwapIsSound(w, a);
    case Rejecting => EndingsAreSound(w, pc, a);
    case Releasing => EndingsAreSound(w, pc, a);
  }

  /** A step of an attempt is sound by what it sees, and takes nothing from the others. */
  lemma AdvanceIsSound(w: World, pc: Pc, a: Answer, freshUrl: string)
    requires Sound(w, pc)
    ensures var t := Advance(State(w, pc), a, freshUrl);
            Sound(t.w, t.pc) && Onward(w, t.w)
  {
    if Inspects(pc) {
      LooksAreSound(w, pc, a);
    } else if Shares(pc) {
      SharingIsSound(w, pc, a, freshUrl);
    } else {
      MovingIsSound(w, pc, a);
    }
  }

  /* ---- The shared rows ---- */

  /** What is true of an attempt in the shared world. */
  predicate AttemptInv(w: World, a: Attempt) {
    && w.operation.Some? && Founded(w, a.op) && a.version == a.op.expectedVersion
    && PcInv(Seen(w, a), Lasting(a.pc))
    && (a.op.target.Some? ==> w.operation.value.target.Some?)
    && (a.op.url.Some? ==> w.operation.value.url.Some?)
  }

  /** The artifacts are the first ones, or those of the one swap, which every later attempt meets as a new
      version and as a path in the history. */
  predicate ArtifactsInv(w: World, first: seq<Artifact>) {
    || w.artifacts == first
    || (&& w.operation.Some? && w.recording.version > w.operation.value.expectedVersion && Settled(w)
        && w.recording.filePath == Goal(w)
        && Link(w.recording.shareUrl, Goal(w)) in w.links
        && w.artifacts == Deactivated(first, w.source) + [Artifact(Goal(w), w.recording.shareUrl, true)])
  }

  ghost predicate SharedInv(w: World, first: seq<Artifact>) {
    && OneCopy(w) && LateInv(w) && (w.operation.Some? ==> Founded(w, w.operation.value))
    && DistinctPaths(first) && CountActive(first) == 1 && ActiveAt(first) == Some(w.source)
    && ArtifactsInv(w, first)
  }

  ghost predicate CrowdInv(c: Crowd, first: seq<Artifact>) {
    && SharedInv(c.w, first)
    && forall i :: 0 <= i < |c.attempts| ==> AttemptInv(c.w, c.attempts[i])
  }

  lemma PcFactsStay(w: World, v: World, pc: Pc)
    requires PcInv(w, pc) && pc != CreateLink && Onward(w, v) && v.recording.version == w.recording.version
    requires v.operation == w.operation
    ensures PcInv(v, pc)
  {
  }

  /** What others do leaves an attempt what it relies on. */
  lemma OnwardKeepsAttempt(w: World, v: World, a: Attempt)
    requires AttemptInv(w, a) && Onward(w, v)
    ensures AttemptInv(v, a)
  {
    OnwardKeepsFounded(w, v, a.op);
    assert Onward(Seen(w, a), Seen(v, a));
    PcFactsStay(Seen(w, a), Seen(v, a), Lasting(a.pc));
  }

  lemma SeenIsSound(w: World, a: Attempt)
    requires OneCopy(w) && LateInv(w) && AttemptInv(w, a)
    ensures Sound(Seen(w, a), a.pc)
  {
    CopyUnchanged(w, Seen(w, a));
    forall i | 0 <= i < |w.late|
      ensures Ours(Seen(w, a), w.late[i])
    {
      assert Ours(w, w.late[i]);
    }
  }

  /** The shared world goes on as the seen one did. */
  lemma MergedGoesOnward(w: World, a: Attempt, after: World)
    requires AttemptInv(w, a) && Onward(Seen(w, a), after)
    ensures Onward(w, Merged(w, Seen(w, a), after))
  {
  }

  lemma MergedKeepsCopy(w: World, a: Attempt, after: World)
    requires AttemptInv(w, a) && SameRequest(Seen(w, a), after) && OneCopy(after) && LateInv(after)
    ensures OneCopy(Merged(w, Seen(w, a), after)) && LateInv(Merged(w, Seen(w, a), after))
  {
    SameCopy(after, Merged(w, Seen(w, a), after));
  }

  lemma MergedRowIsFounded(w: World, a: Attempt, after: World)
    requires AttemptInv(w, a) && Founded(w, w.operation.value)
    requires Onward(Seen(w, a), after) && Founded(after, after.operation.value)
    ensures var v := Merged(w, Seen(w, a), after);
            Founded(v, v.operation.value)
  {
    var v := Merged(w, Seen(w, a), after);
    MergedGoesOnward(w, a, after);
    OnwardKeepsFounded(w, v, w.operation.value);
  }

  lemma MergedKeepsOwn(w: World, a: Attempt, after: State)
    requires AttemptInv(w, a) && Onward(Seen(w, a), after.w) && Sound(after.w, after.pc)
    requires after.pc == Idle || after.w.recording.version == a.version
    ensures AttemptInv(Merged(w, Seen(w, a), after.w), Attempt(after.pc, after.w.operation.value, a.version))
  {
    var v := Merged(w, Seen(w, a), after.w);
    MergedPcFacts(after.w, v.recording.(version := a.version), after.pc);
    assert Seen(v, Attempt(after.pc, after.w.operation.value, a.version))
        == after.w.(recording := v.recording.(version := a.version));
  }

  lemma MergedPcFacts(w: World, recording: Recording, pc: Pc)
    requires PcInv(w, Lasting(pc)) && (pc == Idle || recording.version == w.recording.version)
    ensures PcInv(w.(recording := recording), Lasting(pc))
  {
  }

  /* ---- The swap happens once ---- */

  predicate SameArtifacts(w: World, v: World) {
    v.artifacts == w.artifacts && v.recording == w.recording
  }

  lemma SharingKeepsRecording(w: World, pc: Pc, a: Answer, freshUrl: string)
    requires w.operation.Some? && Shares(pc)
    ensures SameArtifacts(w, SharingStep(w, w.operation.value, pc, a, freshUrl).w)
  {
    match pc
    case CommitMoved =>
    case LookUpLink =>
    case CreateLink =>
    case CommitLinked(_) =>
    case WriteCard =>
    case ReadCard =>
    case CommitNotion =>
  }

  lemma MovingKeepsRecording(w: World, pc: Pc, a: Answer)
    requires w.operation.Some? && !Inspects(pc) && !Shares(pc) && pc != Swap
    ensures SameArtifacts(w, MovingStep(w, w.operation.value, pc, a).w)
  {
    match pc
    case Idle =>
    case ChooseTarget =>
    case ProbeTarget =>
    case MoveData =>
    case MoveMarker =>
    case Rejecting =>
    case Releasing =>
  }

  /** The commit of the swap goes through. */
  predicate Swaps(w: World, pc: Pc, a: Answer) {
    && pc == Swap && a == Ok && w.operation.Some?
    && var op := w.operation.value;
       op.target.Some? && op.url.Some? && !PathTaken(w, op.target.value)
  }

  lemma ArtifactsChangeOnlyBySwap(w: World, pc: Pc, a: Answer, freshUrl: string)
    requires w.operation.Some?
    ensures var t := Advance(State(w, pc), a, freshUrl);
            if Swaps(w, pc, a) then t == State(Swapped(w, w.operation.value), Idle) else SameArtifacts(w, t.w)
  {
    if Shares(pc) {
      SharingKeepsRecording(w, pc, a, freshUrl);
    } else if !Inspects(pc) && pc != Swap {
      MovingKeepsRecording(w, pc, a);
    }
  }

  lemma OnwardKeepsArtifacts(w: World, v: World, first: seq<Artifact>)
    requires ArtifactsInv(w, first) && Onward(w, v) && v.artifacts == w.artifacts
    requires v.recording.version >= w.recording.version
    requires v.recording.filePath == w.recording.filePath && v.recording.shareUrl == w.recording.shareUrl
    ensures ArtifactsInv(v, first)
  {
  }

  lemma SwappedPathIsTaken(w: World, first: seq<Artifact>)
    requires ArtifactsInv(w, first)
    ensures w.artifacts == first || InHistory(w.artifacts, Goal(w))
  {
    if w.artifacts != first {
      assert w.artifacts[|w.artifacts| - 1].path == Goal(w);
    }
  }

  /** The swap of an attempt finds the first artifacts, because a path of the history stops it. */
  lemma MergedSwapKeepsArtifacts(w: World, a: Attempt, first: seq<Artifact>)
    requires ArtifactsInv(w, first) && AttemptInv(w, a) && Swaps(Seen(w, a), a.pc, Ok)
    ensures w.artifacts == first
    ensures ArtifactsInv(Merged(w, Seen(w, a), Swapped(Seen(w, a), a.op)), first)
  {
    SwappedPathIsTaken(w, first);
  }

  lemma MergedKeepsArtifacts(w: World, a: Attempt, first: seq<Artifact>, answer: Answer, freshUrl: string)
    requires ArtifactsInv(w, first) && AttemptInv(w, a)
    requires Onward(Seen(w, a), Advance(State(Seen(w, a), a.pc), answer, freshUrl).w)
    ensures ArtifactsInv(Merged(w, Seen(w, a), Advance(State(Seen(w, a), a.pc), answer, freshUrl).w), first)
  {
    var after := Advance(State(Seen(w, a), a.pc), answer, freshUrl).w;
    ArtifactsChangeOnlyBySwap(Seen(w, a), a.pc, answer, freshUrl);
    if Swaps(Seen(w, a), a.pc, answer) {
      MergedSwapKeepsArtifacts(w, a, first);
    } else {
      MergedGoesOnward(w, a, after);
      OnwardKeepsArtifacts(w, Merged(w, Seen(w, a), after), first);
    }
  }

  /* ---- Every event of a crowd ---- */

  lemma ActKeepsShared(c: Crowd, i: nat, answer: Answer, freshUrl: string, first: seq<Artifact>)
    requires CrowdInv(c, first) && i < |c.attempts|
    ensures var d := ActStep(c, i, answer, freshUrl);
            && SharedInv(d.w, first) && Onward(c.w, d.w) && i < |d.attempts| && AttemptInv(d.w, d.attempts[i])
  {
    var a := c.attempts[i];
    var seen := Seen(c.w, a);
    SeenIsSound(c.w, a);
    AdvanceIsSound(seen, a.pc, answer, freshUrl);
    var after := Advance(State(seen, a.pc), answer, freshUrl);
    ArtifactsChangeOnlyBySwap(seen, a.pc, answer, freshUrl);
    MergedGoesOnward(c.w, a, after.w);
    MergedKeepsCopy(c.w, a, after.w);
    MergedRowIsFounded(c.w, a, after.w);
    MergedKeepsOwn(c.w, a, after);
    MergedKeepsArtifacts(c.w, a, first, answer, freshUrl);
  }

  lemma ActKeepsInv(c: Crowd, i: nat, answer: Answer, freshUrl: string, first: seq<Artifact>)
    requires CrowdInv(c, first) && i < |c.attempts|
    ensures CrowdInv(ActStep(c, i, answer, freshUrl), first)
  {
    var d := ActStep(c, i, answer, freshUrl);
    ActKeepsShared(c, i, answer, freshUrl, first);
    forall k | 0 <= k < |d.attempts|
      ensures AttemptInv(d.w, d.attempts[k])
    {
      if k != i {
        OnwardKeepsAttempt(c.w, d.w, c.attempts[k]);
      }
    }
  }

  /** No attempt begins any more once the swap has happened, so all of them have the same source. */
  lemma StartFindsFirstArtifacts(c: Crowd, folder: string, expectedVersion: nat, first: seq<Artifact>)
    requires SharedInv(c.w, first) && BeginResult(c.w, folder, expectedVersion) == Started
    ensures c.w.artifacts == first && ActiveAt(c.w.artifacts) == Some(c.w.source)
  {
  }

  lemma StartKeepsShared(c: Crowd, folder: string, expectedVersion: nat, first: seq<Artifact>)
    requires SharedInv(c.w, first) && BeginResult(c.w, folder, expectedVersion) == Started
    ensures var d := StartStep(c, folder, expectedVersion);
            && SharedInv(d.w, first) && (c.w.operation.Some? ==> Onward(c.w, d.w))
            && AttemptInv(d.w, d.attempts[|c.attempts|])
  {
    StartFindsFirstArtifacts(c, folder, expectedVersion, first);
    CopyUnchanged(c.w, StartStep(c, folder, expectedVersion).w);
  }

  lemma StartKeepsInv(c: Crowd, folder: string, expectedVersion: nat, first: seq<Artifact>)
    requires CrowdInv(c, first)
    ensures CrowdInv(StartStep(c, folder, expectedVersion), first)
  {
    if BeginResult(c.w, folder, expectedVersion) == Started {
      var d := StartStep(c, folder, expectedVersion);
      StartKeepsShared(c, folder, expectedVersion, first);
      forall k | 0 <= k < |d.attempts|
        ensures AttemptInv(d.w, d.attempts[k])
      {
        if k < |c.attempts| {
          assert AttemptInv(c.w, c.attempts[k]);
          OnwardKeepsAttempt(c.w, d.w, c.attempts[k]);
        }
      }
    }
  }

  lemma StopKeepsInv(c: Crowd, i: nat, first: seq<Artifact>)
    requires CrowdInv(c, first)
    ensures CrowdInv(CrowdStep(c, Stop(i)), first)
  {
    var d := CrowdStep(c, Stop(i));
    forall k | 0 <= k < |d.attempts|
      ensures AttemptInv(d.w, d.attempts[k])
    {
      assert AttemptInv(c.w, c.attempts[k]);
    }
  }

  lemma LateMoveKeepsShared(w: World, i: nat, first: seq<Artifact>)
    requires SharedInv(w, first) && i < |w.late|
    ensures var v := AroundStep(w, LateMove(i));
            SharedInv(v, first) && Onward(w, v)
  {
    var m := w.late[i];
    PerformedGoesOnward(w, m);
    var done := Performed(w, m);
    var v := done.(late := w.late[..i] + w.late[i + 1..]);
    CopyUnchanged(done, v);
    forall k | 0 <= k < |v.late|
      ensures Ours(v, v.late[k])
    {
      assert Ours(w, if k < i then w.late[k] else w.late[k + 1]);
    }
    OnwardKeepsFounded(w, v, w.operation.value);
    OnwardKeepsArtifacts(w, v, first);
  }

  lemma OthersCreateKeepsShared(w: World, path: Path, id: nat, size: nat, first: seq<Artifact>)
    requires SharedInv(w, first)
    ensures var v := AroundStep(w, OthersCreate(path, id, size));
            SharedInv(v, first) && Onward(w, v)
  {
    if path !in w.nas {
      var v := w.(nas := w.nas[path := Item(Unrelated(id), size)]);
      forall p
        ensures IsCopy(v.nas, p) <==> p == CopyPath(v)
      {
        assert IsCopy(w.nas, p) <==> p == CopyPath(w);
      }
    }
  }

  predicate Elsewhere(e: Event) {
    e.Wait? || e.OthersShare? || e.OthersEditCard? || e.OthersPlace? || e.OthersBumpVersion?
  }

  lemma ElsewhereGoesOnward(w: World, e: Event)
    requires Elsewhere(e)
    ensures Onward(w, AroundStep(w, e))
  {
    match e
    case Wait(_) =>
    case OthersShare(_, _) =>
    case OthersEditCard(_) =>
    case OthersPlace(_) =>
    case OthersBumpVersion =>
  }

  /** The clock, other links, the card, other artifacts and the version. */
  lemma ElsewhereKeepsShared(w: World, e: Event, first: seq<Artifact>)
    requires SharedInv(w, first) && Elsewhere(e)
    ensures SharedInv(AroundStep(w, e), first) && Onward(w, AroundStep(w, e))
  {
    var v := AroundStep(w, e);
    ElsewhereGoesOnward(w, e);
    ElsewhereKeepsFields(w, e);
    CopyUnchanged(w, v);
    QueueStaysOurs(w, v);
    OnwardKeepsArtifacts(w, v, first);
    if w.operation.Some? {
      OnwardKeepsFounded(w, v, w.operation.value);
    }
  }

  lemma ElsewhereKeepsFields(w: World, e: Event)
    requires Elsewhere(e)
    ensures var v := AroundStep(w, e);
            && v.job == w.job && v.nas == w.nas && v.late == w.late && v.source == w.source && v.moves == w.moves
            && v.operation == w.operation && v.artifacts == w.artifacts
            && v.recording == w.recording.(version := v.recording.version)
            && v.recording.version >= w.recording.version
  {
    match e
    case Wait(_) =>
    case OthersShare(_, _) =>
    case OthersEditCard(_) =>
    case OthersPlace(_) =>
    case OthersBumpVersion =>
  }

  lemma AroundKeepsShared(w: World, e: Event, first: seq<Artifact>)
    requires SharedInv(w, first)
    ensures SharedInv(AroundStep(w, e), first) && Onward(w, AroundStep(w, e))
  {
    if e.LateMove? {
      if e.i < |w.late| {
        LateMoveKeepsShared(w, e.i, first);
      }
    } else if e.OthersCreate? {
      OthersCreateKeepsShared(w, e.path, e.id, e.size, first);
    } else if Elsewhere(e) {
      ElsewhereKeepsShared(w, e, first);
    }
  }

  lemma AroundKeepsInv(c: Crowd, e: Event, first: seq<Artifact>)
    requires CrowdInv(c, first)
    ensures CrowdInv(CrowdStep(c, Around(e)), first)
  {
    var d := CrowdStep(c, Around(e));
    AroundKeepsShared(c.w, e, first);
    forall k | 0 <= k < |d.attempts|
      ensures AttemptInv(d.w, d.attempts[k])
    {
      OnwardKeepsAttempt(c.w, d.w, c.attempts[k]);
    }
  }

  lemma CrowdStepKeepsInv(c: Crowd, e: CrowdEvent, first: seq<Artifact>)
    requires CrowdInv(c, first)
    ensures CrowdInv(CrowdStep(c, e), first)
  {
    match e
    case Start(folder, expectedVersion) => StartKeepsInv(c, folder, expectedVersion, first);
    case Act(i, answer, freshUrl) =>
      if i < |c.attempts| {
        ActKeepsInv(c, i, answer, freshUrl, first);
      }
    case Stop(i) => StopKeepsInv(c, i, first);
    case Around(other) => AroundKeepsInv(c, other, first);
  }

  lemma {:induction false} CrowdRunKeepsInv(c: Crowd, events: seq<CrowdEvent>, first: seq<Artifact>)
    requires CrowdInv(c, first)
    ensures CrowdInv(CrowdRun(c, events), first)
    decreases |events|
  {
    if events != [] {
      CrowdStepKeepsInv(c, events[0], first);
      CrowdRunKeepsInv(CrowdStep(c, events[0]), events[1..], first);
    }
  }

  lemma CrowdStartsSound(c: Crowd)
    requires CrowdInitial(c)
    ensures CrowdInv(c, c.w.artifacts)
  {
    InitialInv(State(c.w, Idle));
  }

  /* ---- Guarantees over all runs of a crowd ---- */

  lemma FollowsInShared(w: World, a: Attempt, after: World)
    requires AttemptInv(w, a) && Follows(Seen(w, a), after)
    ensures Follows(w, Merged(w, Seen(w, a), after))
  {
  }

  lemma CrowdStepFollows(c: Crowd, e: CrowdEvent, first: seq<Artifact>)
    requires CrowdInv(c, first)
    ensures Follows(c.w, CrowdStep(c, e).w)
  {
    match e
    case Start(folder, expectedVersion) =>
      if BeginResult(c.w, folder, expectedVersion) == Started {
        StartFindsFirstArtifacts(c, folder, expectedVersion, first);
      }
      SameNasFollows(c.w, StartStep(c, folder, expectedVersion).w);
    case Act(i, answer, freshUrl) =>
      if i < |c.attempts| {
        var a := c.attempts[i];
        SeenIsSound(c.w, a);
        AdvanceFollows(State(Seen(c.w, a), a.pc), answer, freshUrl);
        FollowsInShared(c.w, a, Advance(State(Seen(c.w, a), a.pc), answer, freshUrl).w);
      } else {
        SameNasFollows(c.w, c.w);
      }
    case Stop(_) => SameNasFollows(c.w, c.w);
    case Around(other) => AroundFollows(c.w, other, first);
  }

  lemma AroundFollows(w: World, e: Event, first: seq<Artifact>)
    requires SharedInv(w, first)
    ensures Follows(w, AroundStep(w, e))
  {
    if e.LateMove? {
      LateMoveFollowsInOverlap(w, e.i, first);
    } else if e.OthersCreate? {
      assert IsCopy(w.nas, CopyPath(w));
    } else {
      if Elsewhere(e) {
        ElsewhereGoesOnward(w, e);
      }
      SameNasFollows(w, AroundStep(w, e));
    }
  }

  lemma LateMoveFollowsInOverlap(w: World, i: nat, first: seq<Artifact>)
    requires SharedInv(w, first)
    ensures Follows(w, AroundStep(w, LateMove(i)))
  {
    if i < |w.late| {
      PerformedFollows(w, w.late[i]);
    } else {
      SameNasFollows(w, w);
    }
  }

  lemma {:induction false} CrowdRunFollows(c: Crowd, events: seq<CrowdEvent>, first: seq<Artifact>)
    requires CrowdInv(c, first)
    ensures Follows(c.w, CrowdRun(c, events).w)
    decreases |events|
  {
    if events == [] {
      SameNasFollows(c.w, c.w);
    } else {
      CrowdStepKeepsInv(c, events[0], first);
      CrowdStepFollows(c, events[0], first);
      CrowdRunFollows(CrowdStep(c, events[0]), events[1..], first);
    }
  }

  /** However many attempts overlap: the file is never lost, doubled or changed, it is moved at most once,
      and what others stored stays where it is. */
  lemma TheFileSurvivesOverlap(c: Crowd, events: seq<CrowdEvent>)
    requires CrowdInitial(c)
    ensures var v := CrowdRun(c, events).w;
            && v.moves <= 1
            && (v.moves == 1 ==> v.operation.Some?)
            && var here := if v.moves == 0 then c.w.source else TargetIn(c.w.job, v.operation.value.folder);
            && (forall p :: IsCopy(v.nas, p) <==> p == here)
            && c.w.source in c.w.nas && here in v.nas && v.nas[here] == c.w.nas[c.w.source]
    ensures var v := CrowdRun(c, events).w;
            forall p :: p in c.w.nas && p != c.w.source && p != MarkerIn(c.w.job, c.w.source.folder) ==>
              p in v.nas && v.nas[p] == c.w.nas[p]
  {
    CrowdStartsSound(c);
    CrowdRunKeepsInv(c, events, c.w.artifacts);
    CrowdRunFollows(c, events, c.w.artifacts);
    var v := CrowdRun(c, events).w;
    forall p
      ensures IsCopy(v.nas, p) <==> p == CopyPath(v)
    {
    }
  }

  /** A phase in the row or in the copy of any attempt was proven, and a link leads to the file. */
  lemma PhasesAreProvenInOverlap(c: Crowd, events: seq<CrowdEvent>)
    requires CrowdInitial(c)
    ensures var d := CrowdRun(c, events);
            forall op :: (d.w.operation == Some(op) || exists i :: 0 <= i < |d.attempts| && d.attempts[i].op == op) ==>
              && (op.status !in {Pending, Failed} ==>
                    && op.target == Some(TargetIn(c.w.job, op.folder))
                    && HasSize(d.w.nas, op.target.value, c.w.job.size)
                    && HasOwner(d.w.nas, MarkerIn(c.w.job, op.folder), c.w.job.owner))
              && (op.url.Some? ==> Link(op.url.value, TargetIn(c.w.job, op.folder)) in d.w.links)
  {
    CrowdStartsSound(c);
    CrowdRunKeepsInv(c, events, c.w.artifacts);
    CrowdRunFollows(c, events, c.w.artifacts);
    var d := CrowdRun(c, events);
    forall op | d.w.operation == Some(op) || exists i :: 0 <= i < |d.attempts| && d.attempts[i].op == op
      ensures Founded(d.w, op)
    {
      if d.w.operation != Some(op) {
        var i :| 0 <= i < |d.attempts| && d.attempts[i].op == op;
        assert AttemptInv(d.w, d.attempts[i]);
      }
    }
  }

  /** The artifacts are swapped at most once: until then they are the first ones, afterwards the one active
      artifact is the new one, at the target, with the link that the recording shows and a version above
      the expected one. */
  lemma ArtifactsAreSwappedOnce(c: Crowd, events: seq<CrowdEvent>)
    requires CrowdInitial(c)
    ensures var w := CrowdRun(c, events).w;
            && CountActive(w.artifacts) == 1
            && (w.artifacts != c.w.artifacts ==>
                  && w.operation.Some?
                  && var op := w.operation.value;
                  && ActiveAt(w.artifacts) == Some(TargetIn(c.w.job, op.folder))
                  && w.artifacts == Deactivated(c.w.artifacts, c.w.source)
                                    + [Artifact(TargetIn(c.w.job, op.folder), w.recording.shareUrl, true)]
                  && w.recording.filePath == TargetIn(c.w.job, op.folder)
                  && w.recording.version > op.expectedVersion)
  {
    CrowdStartsSound(c);
    CrowdRunKeepsInv(c, events, c.w.artifacts);
    CrowdRunFollows(c, events, c.w.artifacts);
    var w := CrowdRun(c, events).w;
    if w.artifacts != c.w.artifacts {
      LastActiveDeactivated(c.w.artifacts, c.w.source);
      ActiveAppend(Deactivated(c.w.artifacts, c.w.source), Artifact(Goal(w), w.recording.shareUrl, true));
    }
  }

  predicate SamePlace(w: World, v: World) {
    && v.artifacts == w.artifacts
    && v.recording.filePath == w.recording.filePath && v.recording.shareUrl == w.recording.shareUrl
  }

  lemma SwapIsOver(w: World, a: Attempt, first: seq<Artifact>, answer: Answer)
    requires ArtifactsInv(w, first) && AttemptInv(w, a) && w.artifacts != first
    ensures !Swaps(Seen(w, a), a.pc, answer)
  {
    SwappedPathIsTaken(w, first);
  }

  lemma SwapStaysFinal(c: Crowd, e: CrowdEvent, first: seq<Artifact>)
    requires CrowdInv(c, first) && c.w.artifacts != first
    ensures SamePlace(c.w, CrowdStep(c, e).w)
  {
    match e
    case Start(_, _) =>
    case Act(i, answer, freshUrl) =>
      if i < |c.attempts| {
        var a := c.attempts[i];
        SwapIsOver(c.w, a, first, answer);
        ArtifactsChangeOnlyBySwap(Seen(c.w, a), a.pc, answer, freshUrl);
      }
    case Stop(_) =>
    case Around(_) =>
  }

  /** And once they are, no attempt changes them or the recording's place again. */
  lemma {:induction false} SwapIsFinalInOverlap(c: Crowd, events: seq<CrowdEvent>, first: seq<Artifact>)
    requires CrowdInv(c, first) && c.w.artifacts != first
    ensures SamePlace(c.w, CrowdRun(c, events).w)
    decreases |events|
  {
    if events != [] {
      CrowdStepKeepsInv(c, events[0], first);
      SwapStaysFinal(c, events[0], first);
      SwapIsFinalInOverlap(CrowdStep(c, events[0]), events[1..], first);
    }
  }

  /* ---- The version ---- */

  lemma ActWritesVersionExactly(c: Crowd, i: nat, answer: Answer, freshUrl: string)
    requires i < |c.attempts| && AttemptInv(c.w, c.attempts[i])
    ensures var a, w := c.attempts[i], ActStep(c, i, answer, freshUrl).w;
            if Swaps(Seen(c.w, a), a.pc, answer) then w.recording.version == a.version + 1
            else SameArtifacts(c.w, w)
    ensures c.attempts[i].version == c.w.operation.value.expectedVersion
  {
    ArtifactsChangeOnlyBySwap(Seen(c.w, c.attempts[i]), c.attempts[i].pc, answer, freshUrl);
  }

  lemma OnlyActsSwap(c: Crowd, e: CrowdEvent, first: seq<Artifact>)
    requires CrowdInv(c, first) && !(e.Act? && e.i < |c.attempts|)
    ensures CrowdStep(c, e).w.artifacts == c.w.artifacts
    ensures CrowdStep(c, e).w.recording.version >= c.w.recording.version
  {
    match e
    case Start(_, _) =>
    case Act(_, _, _) =>
    case Stop(_) =>
    case Around(other) =>
      if Elsewhere(other) {
        ElsewhereKeepsFields(c.w, other);
      }
  }

  /** A swap writes the version that its attempt loaded plus one. It raises the version by one exactly when
      nobody raised it since, and lowers it exactly when it was raised by more than one. */
  lemma SwapVersion(c: Crowd, e: CrowdEvent, first: seq<Artifact>)
    requires CrowdInv(c, first) && CrowdStep(c, e).w.artifacts != c.w.artifacts
    ensures c.w.operation.Some?
    ensures var expected := c.w.operation.value.expectedVersion;
            var before, after := c.w.recording.version, CrowdStep(c, e).w.recording.version;
            && after == expected + 1
            && (after == before + 1 <==> before == expected)
            && (after < before <==> before > expected + 1)
  {
    if e.Act? && e.i < |c.attempts| {
      ActWritesVersionExactly(c, e.i, e.answer, e.freshUrl);
    } else {
      OnlyActsSwap(c, e, first);
    }
  }

  /** The swap of an attempt whose recording was raised by more than one since it began. */
  predicate SwapsLate(c: Crowd, e: CrowdEvent) {
    && e.Act? && e.i < |c.attempts| && c.w.operation.Some?
    && Swaps(Seen(c.w, c.attempts[e.i]), c.attempts[e.i].pc, e.answer)
    && c.w.recording.version > c.attempts[e.i].version + 1
  }

  /** Nothing else that attempts or others do lowers a version. */
  lemma VersionFallsExactlyByLateSwap(c: Crowd, e: CrowdEvent, first: seq<Artifact>)
    requires CrowdInv(c, first)
    ensures CrowdStep(c, e).w.recording.version < c.w.recording.version <==> SwapsLate(c, e)
  {
    if e.Act? && e.i < |c.attempts| {
      ActWritesVersionExactly(c, e.i, e.answer, e.freshUrl);
    } else {
      OnlyActsSwap(c, e, first);
    }
  }

  /** Two bumps before the swap are enough. */
  lemma VersionFallsUnderLateSwap(c: Crowd, i: nat, first: seq<Artifact>)
    requires CrowdInv(c, first) && i < |c.attempts| && c.attempts[i].pc == Swap && c.w.operation.Some?
    requires c.w.recording.version == c.attempts[i].version && !PathTaken(c.w, Goal(c.w))
    ensures var bump := Around(OthersBumpVersion);
            var raised := CrowdStep(CrowdStep(c, bump), bump);
            CrowdStep(raised, Act(i, Ok, "")).w.recording.version == raised.w.recording.version - 1
  {
    var bump := Around(OthersBumpVersion);
    CrowdStepKeepsInv(c, bump, first);
    CrowdStepKeepsInv(CrowdStep(c, bump), bump, first);
    var raised := CrowdStep(CrowdStep(c, bump), bump);
    ActWritesVersionExactly(raised, i, Ok, "");
  }

  /* ---- What overlapping attempts can still do to each other ---- */

  /** An attempt whose copy of the operation is older writes its phase over the completed row. */
  predicate OverwritesStatus(c: Crowd, e: CrowdEvent) {
    && e.Act? && e.i < |c.attempts| && e.answer == Ok
    && var a := c.attempts[e.i];
       || a.pc in {CommitMoved, CommitNotion} || a.pc.CommitLinked?
       || (a.pc == Rejecting && a.op.status != Failed)
  }

  lemma SharingCommitsExactly(w: World, pc: Pc, a: Answer, freshUrl: string)
    requires PcInv(w, Lasting(pc)) && Shares(pc)
    ensures var before, v := w.operation.value, SharingStep(w, w.operation.value, pc, a, freshUrl).w;
            && v.operation.Some? && v.operation.value.status != Completed
            && (v.operation.value.status != before.status <==>
                  a == Ok && (pc in {CommitMoved, CommitNotion} || pc.CommitLinked?))
  {
    match pc
    case CommitMoved =>
    case LookUpLink =>
    case CreateLink =>
    case CommitLinked(_) =>
    case WriteCard =>
    case ReadCard =>
    case CommitNotion =>
  }

  lemma MovingCommitsExactly(w: World, pc: Pc, a: Answer)
    requires w.operation.Some? && PcInv(w, Lasting(pc)) && !Inspects(pc) && !Shares(pc)
    ensures var before, v := w.operation.value, MovingStep(w, w.operation.value, pc, a).w;
            && v.operation.Some?
            && (v.operation.value.status == before.status || v.operation.value.status == Completed
                <==> !(a == Ok && pc == Rejecting && before.status != Failed))
  {
    match pc
    case Idle =>
    case ChooseTarget =>
    case ProbeTarget =>
    case MoveData =>
    case MoveMarker =>
    case Swap =>
    case Rejecting =>
    case Releasing =>
  }

  lemma AdvanceCommitsExactly(w: World, pc: Pc, a: Answer, freshUrl: string)
    requires w.operation.Some? && PcInv(w, Lasting(pc))
    ensures var before, v := w.operation.value, Advance(State(w, pc), a, freshUrl).w;
            && v.operation.Some?
            && (v.operation.value.status != before.status && v.operation.value.status != Completed <==>
                  a == Ok && (pc in {CommitMoved, CommitNotion} || pc.CommitLinked?
                              || (pc == Rejecting && before.status != Failed)))
  {
    if Shares(pc) {
      SharingCommitsExactly(w, pc, a, freshUrl);
    } else if !Inspects(pc) {
      MovingCommitsExactly(w, pc, a);
    }
  }

  /** A completed row stops being one exactly by such a commit. */
  lemma CompletedRowIsOverwrittenExactly(c: Crowd, e: CrowdEvent, first: seq<Artifact>)
    requires CrowdInv(c, first) && c.w.operation.Some? && c.w.operation.value.status == Completed
    ensures CrowdStep(c, e).w.operation.Some?
    ensures CrowdStep(c, e).w.operation.value.status != Completed <==> OverwritesStatus(c, e)
  {
    match e
    case Start(_, _) =>
    case Act(i, answer, freshUrl) =>
      if i < |c.attempts| {
        var a := c.attempts[i];
        assert AttemptInv(c.w, a);
        AdvanceCommitsExactly(Seen(c.w, a), a.pc, answer, freshUrl);
      }
    case Stop(_) =>
    case Around(_) =>
  }

  /** An attempt creates a link although one exists by now. */
  predicate SharesAgain(c: Crowd, e: CrowdEvent) {
    && e.Act? && e.i < |c.attempts| && c.attempts[e.i].pc == CreateLink && (e.answer == Ok || e.answer == Lost)
    && c.w.operation.Some? && FindLink(c.w.links, Goal(c.w)).Some?
  }

  predicate NothingSharesAgain(c: Crowd, events: seq<CrowdEvent>)
    decreases |events|
  {
    events == [] || (!SharesAgain(c, events[0]) && NothingSharesAgain(CrowdStep(c, events[0]), events[1..]))
  }

  lemma {:induction false} ListedLinkCounts(links: seq<Link>, path: Path)
    requires FindLink(links, path).Some?
    ensures CountLinks(links, path) >= 1
  {
    if links[0].path != path {
      ListedLinkCounts(links[1..], path);
    }
  }

  /** What a step does to the links. */
  predicate AddsLink(w: World, v: World, link: Link) {
    v.links == w.links + [link]
  }

  lemma SharingAddsLinkExactly(w: World, pc: Pc, a: Answer, freshUrl: string)
    requires w.operation.Some? && Shares(pc)
    ensures var v := SharingStep(w, w.operation.value, pc, a, freshUrl).w;
            if pc == CreateLink && (a == Ok || a == Lost) then AddsLink(w, v, Link(freshUrl, Goal(w)))
            else v.links == w.links
  {
    match pc
    case CommitMoved =>
    case LookUpLink =>
    case CreateLink =>
    case CommitLinked(_) =>
    case WriteCard =>
    case ReadCard =>
    case CommitNotion =>
  }

  lemma MovingKeepsLinks(w: World, pc: Pc, a: Answer)
    requires w.operation.Some? && !Inspects(pc) && !Shares(pc)
    ensures MovingStep(w, w.operation.value, pc, a).w.links == w.links
  {
    match pc
    case Idle =>
    case ChooseTarget =>
    case ProbeTarget =>
    case MoveData =>
    case MoveMarker =>
    case Swap =>
    case Rejecting =>
    case Releasing =>
  }

  lemma ActAddsLinkExactly(c: Crowd, i: nat, answer: Answer, freshUrl: string)
    requires i < |c.attempts| && AttemptInv(c.w, c.attempts[i])
    ensures var v := ActStep(c, i, answer, freshUrl).w;
            if c.attempts[i].pc == CreateLink && (answer == Ok || answer == Lost)
            then AddsLink(c.w, v, Link(freshUrl, Goal(c.w)))
            else v.links == c.w.links
  {
    var a := c.attempts[i];
    if Shares(a.pc) {
      SharingAddsLinkExactly(Seen(c.w, a), a.pc, answer, freshUrl);
    } else if !Inspects(a.pc) {
      MovingKeepsLinks(Seen(c.w, a), a.pc, answer);
    }
  }

  /** At most one public link per place other than the first. */
  ghost predicate LinkedOnce(w: World) {
    forall folder :: folder != w.source.folder ==> CountLinks(w.links, TargetIn(w.job, folder)) <= 1
  }

  lemma SharingAgainCountsTwo(c: Crowd, e: CrowdEvent, first: seq<Artifact>)
    requires CrowdInv(c, first) && SharesAgain(c, e)
    ensures CountLinks(CrowdStep(c, e).w.links, Goal(c.w)) >= 2
    ensures Goal(c.w) == TargetIn(c.w.job, c.w.operation.value.folder)
    ensures c.w.operation.value.folder != c.w.source.folder
  {
    var a := c.attempts[e.i];
    assert AttemptInv(c.w, a);
    ActAddsLinkExactly(c, e.i, e.answer, e.freshUrl);
    ListedLinkCounts(c.w.links, Goal(c.w));
    CountLinksAppend(c.w.links, Link(e.freshUrl, Goal(c.w)), Goal(c.w));
  }

  lemma LinkInvStays(c: Crowd, e: CrowdEvent, first: seq<Artifact>)
    requires CrowdInv(c, first) && LinkInv(c.w) && !SharesAgain(c, e)
    ensures LinkInv(CrowdStep(c, e).w)
  {
    var v := CrowdStep(c, e).w;
    CrowdStepFollows(c, e, first);
    match e
    case Start(_, _) => LinksUnchanged(c.w, v);
    case Act(i, answer, freshUrl) =>
      if i < |c.attempts| {
        ActAddsLinkExactly(c, i, answer, freshUrl);
        if v.links == c.w.links {
          LinksUnchanged(c.w, v);
        } else {
          SharingKeepsLinkInv(c.w, Link(freshUrl, Goal(c.w)));
          LinksUnchanged(c.w.(links := v.links), v);
        }
      }
    case Stop(_) =>
    case Around(other) =>
      if other.OthersShare? && v.links != c.w.links {
        SharingKeepsLinkInv(c.w, Link(other.url, other.path));
      } else {
        LinksUnchanged(c.w, v);
      }
  }

  lemma {:induction false} LinksNeverLessen(c: Crowd, events: seq<CrowdEvent>, first: seq<Artifact>, path: Path)
    requires CrowdInv(c, first)
    ensures CountLinks(CrowdRun(c, events).w.links, path) >= CountLinks(c.w.links, path)
    decreases |events|
  {
    if events != [] {
      CrowdStepKeepsInv(c, events[0], first);
      LinksOnlyGrow(c, events[0], first, path);
      LinksNeverLessen(CrowdStep(c, events[0]), events[1..], first, path);
    }
  }

  lemma LinksOnlyGrow(c: Crowd, e: CrowdEvent, first: seq<Artifact>, path: Path)
    requires CrowdInv(c, first)
    ensures CountLinks(CrowdStep(c, e).w.links, path) >= CountLinks(c.w.links, path)
  {
    if e.Act? && e.i < |c.attempts| {
      ActAddsLinkExactly(c, e.i, e.answer, e.freshUrl);
      CountLinksAppend(c.w.links, Link(e.freshUrl, if c.w.operation.Some? then Goal(c.w) else path), path);
    } else if e.Around? && e.e.OthersShare? {
      CountLinksAppend(c.w.links, Link(e.e.url, e.e.path), path);
    }
  }

  lemma {:induction false} CrowdLinksOnceExactly(c: Crowd, events: seq<CrowdEvent>, first: seq<Artifact>)
    requires CrowdInv(c, first) && LinkInv(c.w)
    ensures LinkedOnce(CrowdRun(c, events).w) <==> NothingSharesAgain(c, events)
    decreases |events|
  {
    if events == [] {
      OnceByLinkInv(c.w);
    } else {
      var d := CrowdStep(c, events[0]);
      CrowdStepKeepsInv(c, events[0], first);
      if SharesAgain(c, events[0]) {
        SharingAgainCountsTwo(c, events[0], first);
        LinksNeverLessen(d, events[1..], first, Goal(c.w));
        CrowdRunFollows(c, events, first);
        var w := CrowdRun(c, events).w;
        assert CountLinks(w.links, TargetIn(w.job, c.w.operation.value.folder)) >= 2;
      } else {
        LinkInvStays(c, events[0], first);
        CrowdLinksOnceExactly(d, events[1..], first);
      }
    }
  }

  lemma OnceByLinkInv(w: World)
    requires LinkInv(w)
    ensures LinkedOnce(w)
  {
    forall folder | folder != w.source.folder
      ensures CountLinks(w.links, TargetIn(w.job, folder)) <= 1
    {
      assert CountLinks(w.links, TargetIn(w.job, folder))
             <= if w.operation.Some? && w.operation.value.folder == folder then 1 else 0;
    }
  }

  /** The file gets at most one public link exactly when no attempt creates one that another attempt has
      created since the look for it. */
  lemma LinkedOnceExactlyUnlessSharedAgain(c: Crowd, events: seq<CrowdEvent>)
    requires CrowdInitial(c)
    ensures LinkedOnce(CrowdRun(c, events).w) <==> NothingSharesAgain(c, events)
  {
    CrowdStartsSound(c);
    InitialInv(State(c.w, Idle));
    CrowdLinksOnceExactly(c, events, c.w.artifacts);
  }

  lemma ActMovesOnly(c: Crowd, i: nat, answer: Answer, freshUrl: string, next: Pc)
    requires i < |c.attempts| && AttemptInv(c.w, c.attempts[i])
    requires var seen := Seen(c.w, c.attempts[i]);
             Advance(State(seen, c.attempts[i].pc), answer, freshUrl) == State(seen, next)
    ensures ActStep(c, i, answer, freshUrl)
            == Crowd(c.w, c.attempts[i := Attempt(next, c.attempts[i].op, c.attempts[i].version)])
  {
    var row := c.w.operation.value;
    assert WrittenRow(row, c.attempts[i].op, c.attempts[i].op) == row;
  }

  /** Another attempt can begin, and finds the move recorded and no link. */
  predicate LeaseRanOut(w: World) {
    && w.operation.Some? && w.operation.value.status == MovedFile
    && w.leaseUntil <= w.now && w.recording.reroutable
    && w.recording.version == w.operation.value.expectedVersion
    && FindLink(w.links, Goal(w)).None?
  }

  function Again(c: Crowd): Crowd
    requires c.w.operation.Some?
  {
    StartStep(c, c.w.operation.value.folder, c.w.operation.value.expectedVersion)
  }

  lemma NextAttemptBegins(c: Crowd, first: seq<Artifact>)
    requires CrowdInv(c, first) && LeaseRanOut(c.w)
    ensures var op := c.w.operation.value;
            Again(c) == Crowd(c.w.(leaseUntil := c.w.now + LEASE),
                              c.attempts + [Attempt(ChooseTarget, op, op.expectedVersion)])
    ensures CrowdInv(Again(c), first)
  {
    var op := c.w.operation.value;
    assert BeginResult(c.w, op.folder, op.expectedVersion) == Started;
    StartFindsFirstArtifacts(c, op.folder, op.expectedVersion, first);
    StartKeepsInv(c, op.folder, op.expectedVersion, first);
  }

  lemma NextAttemptChooses(c: Crowd, j: nat)
    requires j < |c.attempts| && AttemptInv(c.w, c.attempts[j]) && c.attempts[j].pc == ChooseTarget
    requires c.attempts[j].op.status == MovedFile
    ensures ActStep(c, j, Ok, "")
            == Crowd(c.w, c.attempts[j := Attempt(LookUpLink, c.attempts[j].op, c.attempts[j].version)])
  {
    ActMovesOnly(c, j, Ok, "", LookUpLink);
  }

  lemma NextAttemptLooks(c: Crowd, j: nat)
    requires j < |c.attempts| && AttemptInv(c.w, c.attempts[j]) && c.attempts[j].pc == LookUpLink
    requires FindLink(c.w.links, Goal(c.w)).None?
    ensures ActStep(c, j, Ok, "")
            == Crowd(c.w, c.attempts[j := Attempt(CreateLink, c.attempts[j].op, c.attempts[j].version)])
  {
    ActMovesOnly(c, j, Ok, "", CreateLink);
  }

  lemma BothCreate(c: Crowd, i: nat, j: nat, url: string, secondUrl: string, first: seq<Artifact>)
    requires CrowdInv(c, first) && i < |c.attempts| && j < |c.attempts| && i != j
    requires c.attempts[i].pc == CreateLink && c.attempts[j].pc == CreateLink
    requires c.w.operation.Some? && FindLink(c.w.links, Goal(c.w)).None?
    ensures CountLinks(ActStep(ActStep(c, j, Ok, url), i, Ok, secondUrl).w.links, Goal(c.w)) == 2
  {
    ActKeepsInv(c, j, Ok, url, first);
    ActAddsLinkExactly(c, j, Ok, url);
    CrowdStepFollows(c, Act(j, Ok, url), first);
    var shared := ActStep(c, j, Ok, url);
    assert shared.attempts[i] == c.attempts[i];
    ActAddsLinkExactly(shared, i, Ok, secondUrl);
    FoundLinkIsListed(c.w.links, Goal(c.w));
    CountLinksAppend(c.w.links, Link(url, Goal(c.w)), Goal(c.w));
    CountLinksAppend(shared.w.links, Link(secondUrl, Goal(c.w)), Goal(c.w));
  }

  /** Such a pair: an attempt outlives its lease between looking for a link and creating one, and the next
      attempt looks and creates as well. */
  lemma SlowAttemptSharesTwice(c: Crowd, i: nat, url: string, secondUrl: string, first: seq<Artifact>)
    requires CrowdInv(c, first) && i < |c.attempts| && c.attempts[i].pc == CreateLink && LeaseRanOut(c.w)
    ensures var j := |c.attempts|;
            var looking := ActStep(ActStep(Again(c), j, Ok, ""), j, Ok, "");
            CountLinks(ActStep(ActStep(looking, j, Ok, url), i, Ok, secondUrl).w.links, Goal(c.w)) == 2
  {
    var j := |c.attempts|;
    NextAttemptBegins(c, first);
    NextAttemptChooses(Again(c), j);
    ActKeepsInv(Again(c), j, Ok, "", first);
    var chosen := ActStep(Again(c), j, Ok, "");
    NextAttemptLooks(chosen, j);
    ActKeepsInv(chosen, j, Ok, "", first);
    var looking := ActStep(chosen, j, Ok, "");
    assert looking.attempts[i] == c.attempts[i] && looking.attempts[j].pc == CreateLink;
    BothCreate(looking, i, j, url, secondUrl, first);
  }

  /* ---- An attempt that nothing overlaps is the saga ---- */

  /** The attempt works on what the rows say. */
  predicate UpToDate(c: Crowd, i: nat) {
    && i < |c.attempts| && c.w.operation == Some(c.attempts[i].op)
    && c.w.recording.version == c.attempts[i].version
  }

  /** Then a step of it is the step of the saga, and its copy follows the row. */
  lemma UndisturbedAttemptIsTheSaga(c: Crowd, i: nat, answer: Answer, freshUrl: string)
    requires UpToDate(c, i)
    ensures var d := CrowdStep(c, Act(i, answer, freshUrl));
            var t := Step(State(c.w, c.attempts[i].pc), Next(answer, freshUrl));
            && d.w == t.w && |d.attempts| == |c.attempts|
            && d.attempts[i].pc == t.pc && Some(d.attempts[i].op) == t.w.operation
            && d.attempts[i].version == c.attempts[i].version
            && forall k :: 0 <= k < |c.attempts| && k != i ==> d.attempts[k] == c.attempts[k]
  {
    var a := c.attempts[i];
    assert Seen(c.w, a) == c.w;
    AdvanceKeepsRequest(State(c.w, a.pc), answer, freshUrl);
  }

  /** An attempt starts as the saga begins, and with what the rows then say; one that is stopped does nothing
      more. What happens around it is what happens around the saga. */
  lemma AroundIsTheSaga(c: Crowd, folder: string, expectedVersion: nat, i: nat, e: Event)
    ensures var d := CrowdStep(c, Start(folder, expectedVersion));
            var t := Step(State(c.w, Idle), BeginAttempt(folder, expectedVersion));
            && d.w == t.w
            && (if t.pc == ChooseTarget then |d.attempts| == |c.attempts| + 1 && UpToDate(d, |c.attempts|)
                                             && d.attempts[|c.attempts|].pc == ChooseTarget
                                             && d.attempts[..|c.attempts|] == c.attempts
                else d == c)
    ensures CrowdStep(c, Stop(i)).w == c.w
            && (i < |c.attempts| ==>
                  CrowdStep(c, Stop(i)).attempts == c.attempts[i := c.attempts[i].(pc := Idle)])
    ensures !e.BeginAttempt? && !e.Next? ==>
              CrowdStep(c, Around(e)) == c.(w := Step(State(c.w, Idle), e).w)
  {
  }
}

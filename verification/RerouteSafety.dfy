/** The guarantees of the reroute saga over all runs, and exactly where they end. */
module RerouteSafety {
  import opened Values
  import opened Reroute
  import opened RerouteInvariant

  lemma InitialInv(s: State)
    requires Initial(s)
    ensures Inv(s)
  {
    var w := s.w;
    forall p
      ensures IsCopy(w.nas, p) <==> p == CopyPath(w)
    {
      assert IsCopy(w.nas, p) <==> p == w.source;
    }
    forall f | f != w.source.folder
      ensures CountLinks(w.links, TargetIn(w.job, f))
              <= if w.operation.Some? && w.operation.value.folder == f then 1 else 0
    {
      assert CountLinks(w.links, TargetIn(w.job, f)) == 0;
    }
  }

  /* ---- The file and its neighbours ---- */

  /** What was asked for stays fixed. */
  predicate SameRequest(w: World, v: World) {
    && v.job == w.job && v.source == w.source
    && (w.operation.Some? ==> v.operation.Some?
                              && v.operation.value.folder == w.operation.value.folder
                              && v.operation.value.expectedVersion == w.operation.value.expectedVersion)
  }

  /** What a run can neither forget nor exchange: the request, the item that is the file, and every
      stored item other than the file and its marker. */
  ghost predicate Follows(w: World, v: World) {
    && SameRequest(w, v)
    && (forall p :: p in w.nas && p != w.source && p != MarkerIn(w.job, w.source.folder) ==>
          p in v.nas && v.nas[p] == w.nas[p])
    && CopyPath(w) in w.nas && CopyPath(v) in v.nas && v.nas[CopyPath(v)] == w.nas[CopyPath(w)]
  }

  lemma PerformedFollows(w: World, m: Move)
    requires OneCopy(w) && Ours(w, m)
    ensures Follows(w, Performed(w, m))
  {
    var v := Performed(w, m);
    PerformedKeepsOneCopy(w, m);
    assert IsCopy(w.nas, CopyPath(w)) && IsCopy(v.nas, CopyPath(v));
    assert CanMove(w.nas, m) ==> (IsCopy(w.nas, m.source) <==> m.source == CopyPath(w));
    assert m.source == w.source ==> Landing(m) == Goal(w);
  }

  lemma SameNasFollows(w: World, v: World)
    requires OneCopy(w) && SameRequest(w, v) && v.nas == w.nas && v.moves == w.moves
    ensures Follows(w, v)
  {
    assert IsCopy(w.nas, CopyPath(w));
  }

  lemma SameStoresFollow(w: World, v: World, u: World)
    requires Follows(w, v) && u == v.(requests := u.requests)
    ensures Follows(w, u)
  {
  }

  lemma MoveStepFollows(w: World, a: Answer, m: Move, next: Pc)
    requires OneCopy(w) && Ours(w, m)
    ensures Follows(w, MoveStep(w, a, m, next).w)
  {
    if a == Ok || a == Lost {
      PerformedFollows(w, m);
      SameStoresFollow(w, Performed(w, m), Performed(Asked(w, m), m));
    } else {
      SameNasFollows(w, MoveStep(w, a, m, next).w);
    }
  }

  /** Only the two move steps write to the NAS. */
  predicate LeavesNas(w: World, v: World) {
    SameRequest(w, v) && v.nas == w.nas && v.moves == w.moves
  }

  lemma SharingLeavesNas(w: World, pc: Pc, a: Answer, freshUrl: string)
    requires w.operation.Some? && Shares(pc)
    ensures LeavesNas(w, SharingStep(w, w.operation.value, pc, a, freshUrl).w)
  {
    match pc
    case CommitMoved =>
    case LookUpLink =>
    case CreateLink =>
    case CommitLinked(_) =>
    case WriteCard =>
    case ReadCard =>
    case CommitNotion =>
  }

  lemma MovingLeavesNas(w: World, pc: Pc, a: Answer)
    requires w.operation.Some? && !Inspects(pc) && !Shares(pc) && pc != MoveData && pc != MoveMarker
    ensures LeavesNas(w, MovingStep(w, w.operation.value, pc, a).w)
  {
    match pc
    case Idle =>
    case ChooseTarget =>
    case ProbeTarget =>
    case Swap =>
    case Rejecting =>
    case Releasing =>
  }

  lemma MovesFollow(w: World, pc: Pc, a: Answer)
    requires OneCopy(w) && w.operation.Some? && (pc == MoveData || pc == MoveMarker)
    ensures Follows(w, MovingStep(w, w.operation.value, pc, a).w)
  {
    var folder := w.operation.value.folder;
    if pc == MoveData {
      MoveStepFollows(w, a, Move(w.source, folder), MovedSize);
    } else {
      MoveStepFollows(w, a, Move(MarkerIn(w.job, w.source.folder), folder), MovedOwner);
    }
  }

  lemma AdvanceFollows(s: State, a: Answer, freshUrl: string)
    requires OneCopy(s.w)
    ensures Follows(s.w, Advance(s, a, freshUrl).w)
  {
    if s.w.operation.None? || Inspects(s.pc) {
      SameNasFollows(s.w, s.w);
    } else if Shares(s.pc) {
      SharingLeavesNas(s.w, s.pc, a, freshUrl);
      SameNasFollows(s.w, SharingStep(s.w, s.w.operation.value, s.pc, a, freshUrl).w);
    } else if s.pc == MoveData || s.pc == MoveMarker {
      MovesFollow(s.w, s.pc, a);
    } else {
      MovingLeavesNas(s.w, s.pc, a);
      SameNasFollows(s.w, MovingStep(s.w, s.w.operation.value, s.pc, a).w);
    }
  }

  lemma LateMoveFollows(s: State, i: nat)
    requires Inv(s)
    ensures Follows(s.w, Step(s, LateMove(i)).w)
  {
    if i < |s.w.late| {
      PerformedFollows(s.w, s.w.late[i]);
    } else {
      SameNasFollows(s.w, s.w);
    }
  }

  lemma OthersCreateFollows(s: State, e: Event)
    requires Inv(s) && e.OthersCreate?
    ensures Follows(s.w, Step(s, e).w)
  {
    assert IsCopy(s.w.nas, CopyPath(s.w));
  }

  lemma BeginFollows(s: State, e: Event)
    requires Inv(s) && e.BeginAttempt?
    ensures Follows(s.w, Step(s, e).w)
  {
    SameNasFollows(s.w, Step(s, e).w);
  }

  lemma OtherEventsFollow(s: State, e: Event)
    requires Inv(s) && !e.BeginAttempt? && !e.Next? && !e.LateMove? && !e.OthersCreate?
    ensures Follows(s.w, Step(s, e).w)
  {
    SameNasFollows(s.w, Step(s, e).w);
  }

  lemma StepFollows(s: State, e: Event)
    requires Inv(s)
    ensures Follows(s.w, Step(s, e).w)
  {
    if e.Next? {
      AdvanceFollows(s, e.answer, e.freshUrl);
    } else if e.LateMove? {
      LateMoveFollows(s, e.i);
    } else if e.OthersCreate? {
      OthersCreateFollows(s, e);
    } else if e.BeginAttempt? {
      BeginFollows(s, e);
    } else {
      OtherEventsFollow(s, e);
    }
  }

  lemma {:induction false} RunFollows(s: State, events: seq<Event>)
    requires Inv(s)
    ensures Follows(s.w, Run(s, events).w)
    decreases |events|
  {
    if events == [] {
      SameNasFollows(s.w, s.w);
    } else {
      StepKeepsInv(s, events[0]);
      StepFollows(s, events[0]);
      RunFollows(Step(s, events[0]), events[1..]);
    }
  }

  /** A phase beyond the move was proven: size and owner at the target, one public link at most, and
      a stored link that leads to the file. */
  lemma PhasesAreProven(s: State, events: seq<Event>)
    requires Initial(s)
    ensures var v := Run(s, events).w;
            v.operation.Some? && v.operation.value.status !in {Pending, Failed} ==>
              var op := v.operation.value;
              && op.target == Some(TargetIn(s.w.job, op.folder))
              && HasSize(v.nas, op.target.value, s.w.job.size)
              && HasOwner(v.nas, MarkerIn(s.w.job, op.folder), s.w.job.owner)
    ensures var v := Run(s, events).w;
            v.operation.Some? && v.operation.value.url.Some? ==>
              Link(v.operation.value.url.value, TargetIn(s.w.job, v.operation.value.folder)) in v.links
    ensures var v := Run(s, events).w;
            forall folder :: folder != s.w.source.folder ==> CountLinks(v.links, TargetIn(s.w.job, folder)) <= 1
  {
    InitialInv(s);
    RunKeepsInv(s, events);
    RunFollows(s, events);
    var v := Run(s, events).w;
    forall folder | folder != s.w.source.folder
      ensures CountLinks(v.links, TargetIn(s.w.job, folder)) <= 1
    {
      assert CountLinks(v.links, TargetIn(v.job, folder))
             <= if v.operation.Some? && v.operation.value.folder == folder then 1 else 0;
    }
  }

  /* ---- Progress of the operation ---- */

  function Rank(status: OpStatus): nat {
    match status
    case Pending => 0
    case MovedFile => 1
    case Linked => 2
    case NotionUpdated => 3
    case Completed => 4
    case Failed => 5
  }

  /** One step goes one phase on, or into failure; only completion leads out of failure. Artifacts
      change with completion alone. */
  ghost predicate OnePhaseOn(w: World, v: World) {
    && (w.failedOnce ==> v.failedOnce)
    && (w.operation.Some? ==>
          && v.operation.Some?
          && var before := w.operation.value.status;
             var after := v.operation.value.status;
             || after == before
             || Rank(after) == Rank(before) + 1
             || (after == Failed && before != Completed && v.failedOnce)
             || (before == Failed && after == Completed && w.failedOnce))
    && (v.artifacts != w.artifacts ==> v.operation.Some? && v.operation.value.status == Completed)
  }

  lemma SharingGoesOnePhaseOn(w: World, pc: Pc, a: Answer, freshUrl: string)
    requires OperationInv(w) && PcInv(w, pc) && Shares(pc)
    ensures OnePhaseOn(w, SharingStep(w, w.operation.value, pc, a, freshUrl).w)
  {
    match pc
    case CommitMoved =>
    case LookUpLink =>
    case CreateLink =>
    case CommitLinked(_) =>
    case WriteCard =>
    case ReadCard =>
    case CommitNotion =>
  }

  lemma MovesKeepPhase(w: World, a: Answer, m: Move, next: Pc)
    ensures OnePhaseOn(w, MoveStep(w, a, m, next).w)
  {
  }

  lemma MovingGoesOnePhaseOn(w: World, pc: Pc, a: Answer)
    requires OperationInv(w) && PcInv(w, pc) && w.operation.Some? && !Inspects(pc) && !Shares(pc)
    ensures OnePhaseOn(w, MovingStep(w, w.operation.value, pc, a).w)
  {
    var folder := w.operation.value.folder;
    match pc
    case Idle =>
    case ChooseTarget =>
    case ProbeTarget =>
    case MoveData => MovesKeepPhase(w, a, Move(w.source, folder), MovedSize);
    case MoveMarker => MovesKeepPhase(w, a, Move(MarkerIn(w.job, w.source.folder), folder), MovedOwner);
    case Swap =>
    case Rejecting =>
    case Releasing =>
  }

  lemma StatusGoesOnePhaseOn(s: State, e: Event)
    requires Inv(s)
    ensures OnePhaseOn(s.w, Step(s, e).w)
  {
    if e.Next? && s.w.operation.Some? {
      if Shares(s.pc) {
        SharingGoesOnePhaseOn(s.w, s.pc, e.answer, e.freshUrl);
      } else if !Inspects(s.pc) {
        MovingGoesOnePhaseOn(s.w, s.pc, e.answer);
      }
    }
  }

  /** Without a failure the phases are passed in order, and completion means a card read back. */
  lemma {:induction false} PhasesAreOrderedWithoutFailure(s: State, events: seq<Event>)
    requires Inv(s) && s.w.operation.Some? && !Run(s, events).w.failedOnce
    ensures Run(s, events).w.operation.Some? && !s.w.failedOnce
    ensures var before := Rank(s.w.operation.value.status);
            before <= Rank(Run(s, events).w.operation.value.status) <= 4
            && Rank(Run(s, events).w.operation.value.status) <= before + |events|
    ensures Run(s, events).w.operation.value.status == Completed ==> Run(s, events).w.readBack
    decreases |events|
  {
    if events != [] {
      StepKeepsInv(s, events[0]);
      StatusGoesOnePhaseOn(s, events[0]);
      PhasesAreOrderedWithoutFailure(Step(s, events[0]), events[1..]);
    }
  }

  /* ---- Whether the card was read ---- */

  predicate NoBegin(events: seq<Event>) {
    forall k :: 0 <= k < |events| ==> !events[k].BeginAttempt?
  }

  /** An attempt that found the operation failed goes straight to the swap, or nowhere. */
  predicate PassesCard(s: State, readBack: bool) {
    && s.w.operation.Some? && s.w.readBack == readBack
    && match s.w.operation.value.status
       case Failed => s.pc in {Idle, ChooseTarget, Swap, Rejecting, Releasing}
       case Completed => s.pc == Idle
       case _ => false
  }

  /** Any other attempt is over once the operation fails, and completes after reading the card. */
  predicate ReadsCard(s: State) {
    && s.w.operation.Some?
    && (s.w.operation.value.status == Failed ==> s.pc == Idle)
    && (s.w.operation.value.status == Completed ==> s.w.readBack)
  }

  lemma AdvancePassesCard(s: State, readBack: bool, a: Answer, freshUrl: string)
    requires PassesCard(s, readBack)
    ensures PassesCard(Advance(s, a, freshUrl), readBack)
  {
    match s.pc
    case Idle =>
    case ChooseTarget =>
    case Swap =>
    case Rejecting =>
    case Releasing =>
  }

  lemma StepPassesCard(s: State, readBack: bool, e: Event)
    requires PassesCard(s, readBack) && !e.BeginAttempt?
    ensures PassesCard(Step(s, e), readBack)
  {
    if e.Next? {
      AdvancePassesCard(s, readBack, e.answer, e.freshUrl);
    }
  }

  lemma {:induction false} RunPassesCard(s: State, readBack: bool, events: seq<Event>)
    requires PassesCard(s, readBack) && NoBegin(events)
    ensures PassesCard(Run(s, events), readBack)
    decreases |events|
  {
    if events != [] {
      StepPassesCard(s, readBack, events[0]);
      RunPassesCard(Step(s, events[0]), readBack, events[1..]);
    }
  }

  lemma SharingReadsCard(w: World, pc: Pc, a: Answer, freshUrl: string)
    requires PcInv(w, pc) && Shares(pc) && ReadsCard(State(w, pc))
    ensures ReadsCard(SharingStep(w, w.operation.value, pc, a, freshUrl))
  {
    match pc
    case CommitMoved =>
    case LookUpLink =>
    case CreateLink =>
    case CommitLinked(_) =>
    case WriteCard =>
    case ReadCard =>
    case CommitNotion =>
  }

  lemma MoveReadsCard(w: World, a: Answer, m: Move, next: Pc)
    requires w.operation.Some? && w.operation.value.status == Pending
    ensures ReadsCard(MoveStep(w, a, m, next))
  {
  }

  lemma MovingReadsCard(w: World, pc: Pc, a: Answer)
    requires OperationInv(w) && PcInv(w, pc) && !Inspects(pc) && !Shares(pc) && ReadsCard(State(w, pc))
    ensures ReadsCard(MovingStep(w, w.operation.value, pc, a))
  {
    var folder := w.operation.value.folder;
    match pc
    case Idle =>
    case ChooseTarget =>
    case ProbeTarget =>
    case MoveData => MoveReadsCard(w, a, Move(w.source, folder), MovedSize);
    case MoveMarker => MoveReadsCard(w, a, Move(MarkerIn(w.job, w.source.folder), folder), MovedOwner);
    case Swap =>
    case Rejecting =>
    case Releasing =>
  }

  lemma StepReadsCard(s: State, e: Event)
    requires Inv(s) && ReadsCard(s) && !e.BeginAttempt?
    ensures ReadsCard(Step(s, e))
  {
    if e.Next? {
      if Shares(s.pc) {
        SharingReadsCard(s.w, s.pc, e.answer, e.freshUrl);
      } else if !Inspects(s.pc) {
        MovingReadsCard(s.w, s.pc, e.answer);
      }
    }
  }

  lemma {:induction false} RunReadsCard(s: State, events: seq<Event>)
    requires Inv(s) && ReadsCard(s) && NoBegin(events)
    ensures ReadsCard(Run(s, events))
    decreases |events|
  {
    if events != [] {
      StepKeepsInv(s, events[0]);
      StepReadsCard(s, events[0]);
      RunReadsCard(Step(s, events[0]), events[1..]);
    }
  }

  /** An attempt that completes does so with the card read back exactly when the operation had not failed
      when it began, or the card had been read back before. */
  lemma CompletesWithCardReadExactlyUnlessFailed(s: State, folder: string, version: nat, events: seq<Event>)
    requires Inv(s) && s.pc == Idle && BeginResult(s.w, folder, version) == Started && NoBegin(events)
    requires var w := Run(Step(s, BeginAttempt(folder, version)), events).w;
             w.operation.Some? && w.operation.value.status == Completed
    ensures Run(Step(s, BeginAttempt(folder, version)), events).w.readBack
            <==> s.w.readBack || s.w.operation.None? || s.w.operation.value.status != Failed
  {
    var begun := Step(s, BeginAttempt(folder, version));
    if s.w.operation.Some? && s.w.operation.value.status == Failed {
      RunPassesCard(begun, s.w.readBack, events);
    } else {
      StepKeepsInv(s, BeginAttempt(folder, version));
      RunReadsCard(begun, events);
    }
  }

  /* ---- The swap ---- */

  /** One active artifact, agreeing with the recording and the operation, at a path that was never
      used before, and a version one above the expected one. */
  ghost predicate SwappedTo(w: World, v: World) {
    && v.operation.Some?
    && var op := v.operation.value;
    && op.target.Some? && op.url.Some?
    && CountActive(v.artifacts) == 1 && ActiveAt(v.artifacts) == Some(op.target.value)
    && Artifact(op.target.value, op.url.value, true) in v.artifacts
    && v.recording.filePath == op.target.value && v.recording.shareUrl == op.url.value
    && v.recording.version == op.expectedVersion + 1
    && !PathTaken(w, op.target.value)
    && v.leaseUntil == 0
  }

  predicate Unfinished(w: World) {
    w.operation.Some? && w.operation.value.status != Completed
  }

  lemma SharingDoesNotComplete(w: World, pc: Pc, a: Answer, freshUrl: string)
    requires Unfinished(w) && Shares(pc)
    ensures Unfinished(SharingStep(w, w.operation.value, pc, a, freshUrl).w)
  {
    match pc
    case CommitMoved =>
    case LookUpLink =>
    case CreateLink =>
    case CommitLinked(_) =>
    case WriteCard =>
    case ReadCard =>
    case CommitNotion =>
  }

  lemma MovingDoesNotComplete(w: World, pc: Pc, a: Answer)
    requires Unfinished(w) && !Inspects(pc) && !Shares(pc) && pc != Swap
    ensures Unfinished(MovingStep(w, w.operation.value, pc, a).w)
  {
    match pc
    case Idle =>
    case ChooseTarget =>
    case ProbeTarget =>
    case MoveData =>
    case MoveMarker =>
    case Rejecting =>
    case Releasing =>
  }

  lemma OnlySwapsComplete(s: State, e: Event)
    requires Inv(s) && Unfinished(s.w) && !Unfinished(Step(s, e).w)
    ensures e.Next? && e.answer == Ok && s.pc == Swap && !PathTaken(s.w, Goal(s.w))
    ensures Step(s, e) == State(Swapped(s.w, s.w.operation.value), Idle)
  {
    if e.Next? {
      if Shares(s.pc) {
        SharingDoesNotComplete(s.w, s.pc, e.answer, e.freshUrl);
      } else if !Inspects(s.pc) && s.pc != Swap {
        MovingDoesNotComplete(s.w, s.pc, e.answer);
      }
    }
  }

  lemma CompletingLeavesOneArtifact(s: State, e: Event)
    requires Inv(s) && Unfinished(s.w) && !Unfinished(Step(s, e).w)
    ensures SwappedTo(s.w, Step(s, e).w)
  {
    OnlySwapsComplete(s, e);
    SwappedKeepsInv(s.w);
    var op := s.w.operation.value;
    var v := Swapped(s.w, op);
    assert v.artifacts[|s.w.artifacts|] == Artifact(op.target.value, op.url.value, true);
  }

  /** The swap completes exactly when its commit goes through and no recording ever used the path. */
  lemma SwapCompletesExactlyOnFreshPath(w: World, a: Answer)
    requires OperationInv(w) && PcInv(w, Swap)
    ensures !Unfinished(SwapStep(w, w.operation.value, a).w) <==> a == Ok && !PathTaken(w, Goal(w))
  {
  }

  lemma {:induction false} DeactivatedKeepsHistory(artifacts: seq<Artifact>, before: Path, a: Artifact, path: Path)
    requires InHistory(artifacts, path)
    ensures InHistory(Deactivated(artifacts, before) + [a], path)
  {
    var i :| 0 <= i < |artifacts| && artifacts[i].path == path;
    assert (Deactivated(artifacts, before) + [a])[i].path == path;
  }

  lemma SharingKeepsArtifacts(w: World, pc: Pc, a: Answer, freshUrl: string)
    requires w.operation.Some? && Shares(pc)
    ensures var v := SharingStep(w, w.operation.value, pc, a, freshUrl).w;
            v.artifacts == w.artifacts && v.elsewhere == w.elsewhere
  {
    match pc
    case CommitMoved =>
    case LookUpLink =>
    case CreateLink =>
    case CommitLinked(_) =>
    case WriteCard =>
    case ReadCard =>
    case CommitNotion =>
  }

  lemma MovingKeepsTaken(w: World, pc: Pc, a: Answer, path: Path)
    requires w.operation.Some? && !Inspects(pc) && !Shares(pc) && PathTaken(w, path)
    ensures PathTaken(MovingStep(w, w.operation.value, pc, a).w, path)
  {
    match pc
    case Idle =>
    case ChooseTarget =>
    case ProbeTarget =>
    case MoveData =>
    case MoveMarker =>
    case Swap =>
      var op := w.operation.value;
      if op.target.Some? && op.url.Some? && InHistory(w.artifacts, path) {
        DeactivatedKeepsHistory(w.artifacts, w.source, Artifact(op.target.value, op.url.value, true), path);
      }
    case Rejecting =>
    case Releasing =>
  }

  lemma PathStaysTaken(s: State, e: Event, path: Path)
    requires PathTaken(s.w, path)
    ensures PathTaken(Step(s, e).w, path)
  {
    if e.Next? && s.w.operation.Some? {
      if Shares(s.pc) {
        SharingKeepsArtifacts(s.w, s.pc, e.answer, e.freshUrl);
      } else if !Inspects(s.pc) {
        MovingKeepsTaken(s.w, s.pc, e.answer, path);
      }
    }
  }

  lemma UsedPathStep(s: State, e: Event)
    requires Inv(s) && Unfinished(s.w) && PathTaken(s.w, Goal(s.w))
    ensures var w := Step(s, e).w;
            Unfinished(w) && Goal(w) == Goal(s.w) && PathTaken(w, Goal(w))
  {
    StepFollows(s, e);
    PathStaysTaken(s, e, Goal(s.w));
    if !Unfinished(Step(s, e).w) {
      OnlySwapsComplete(s, e);
      assert false;
    }
  }

  /** An operation towards a path that any recording ever used, as on the way back from A to B to A, never
      completes. */
  lemma {:induction false} UsedPathNeverCompletes(s: State, events: seq<Event>)
    requires Inv(s) && Unfinished(s.w) && PathTaken(s.w, Goal(s.w))
    ensures Unfinished(Run(s, events).w)
    decreases |events|
  {
    if events != [] {
      StepKeepsInv(s, events[0]);
      UsedPathStep(s, events[0]);
      UsedPathNeverCompletes(Step(s, events[0]), events[1..]);
    }
  }

  ghost predicate SameResult(w: World, v: World) {
    && v.operation == w.operation && v.artifacts == w.artifacts
    && v.recording.filePath == w.recording.filePath && v.recording.shareUrl == w.recording.shareUrl
    && v.requests == w.requests && v.moves == w.moves
  }

  lemma CompletedStepIsFinal(s: State, e: Event)
    requires Inv(s) && s.w.operation.Some? && s.w.operation.value.status == Completed
    ensures SameResult(s.w, Step(s, e).w)
  {
    if e.LateMove? && e.i < |s.w.late| {
      PerformedKeepsOneCopy(s.w, s.w.late[e.i]);
    }
  }

  /** After completion further attempts with the key change nothing and ask for nothing. */
  lemma {:induction false} CompletedIsFinal(s: State, events: seq<Event>)
    requires Inv(s) && s.w.operation.Some? && s.w.operation.value.status == Completed
    ensures SameResult(s.w, Run(s, events).w)
    decreases |events|
  {
    if events != [] {
      StepKeepsInv(s, events[0]);
      CompletedStepIsFinal(s, events[0]);
      CompletedIsFinal(Step(s, events[0]), events[1..]);
    }
  }

  /* ---- What a retry does ---- */

  /** `n` requests or commits in a row that all go well. */
  function Undisturbed(s: State, n: nat): State
    decreases n
  {
    if n == 0 then s else Undisturbed(Advance(s, Ok, ""), n - 1)
  }

  function Retry(s: State): State
    requires s.w.operation.Some?
  {
    Begin(s, s.w.operation.value.folder, s.w.operation.value.expectedVersion)
  }

  /** A retry of a pending operation looks for the file at its target first. */
  lemma RetryProbesTarget(s: State)
    requires Inv(s) && s.pc == Idle && s.w.operation.Some? && s.w.operation.value.status == Pending
    requires s.w.leaseUntil <= s.w.now && s.w.recording.reroutable
    requires s.w.recording.version == s.w.operation.value.expectedVersion
    ensures var t := Undisturbed(Retry(s), 2);
            && t.w.nas == s.w.nas && t.w.requests == s.w.requests
            && t.w.operation.Some? && t.w.operation.value.status == Pending
            && t.pc == if Goal(s.w) in s.w.nas then ProbeSource else MoveProbe
  {
    NoActiveNoPath(s.w.artifacts);
    var s1 := Retry(s);
    assert s1 == State(s.w.(leaseUntil := s.w.now + LEASE), ChooseTarget);
    var s2 := Advance(s1, Ok, "");
    assert s2 == State(s1.w.(operation := Some(s.w.operation.value.(target := Some(Goal(s.w))))), ProbeTarget);
    assert Advance(s2, Ok, "") == State(s2.w, if Goal(s.w) in s.w.nas then ProbeSource else MoveProbe);
    assert Undisturbed(s1, 2) == Undisturbed(s2, 1) == Advance(s2, Ok, "");
  }

  lemma RejectionEnds(s: State, n: nat)
    requires s.pc == Rejecting && s.w.operation.Some? && n <= 2
    ensures Undisturbed(s, n).pc in {Rejecting, Idle}
  {
    if n > 0 {
      var s1 := Advance(s, Ok, "");
      assert s1.pc == Idle;
      assert n == 2 ==> Undisturbed(s1, 1) == Advance(s1, Ok, "") == s1;
    }
  }

  /** Three looks in a row: all well, or a rejection. */
  lemma ThreeLooks(s: State, second: Pc, third: Pc, last: Pc, ok1: bool, ok2: bool, ok3: bool)
    requires s.w.operation.Some? && Inspects(s.pc) && Inspects(second) && Inspects(third)
    requires var op := s.w.operation.value;
             && Inspect(s.w, op, s.pc) == Finding(ok1, second)
             && Inspect(s.w, op, second) == Finding(ok2, third)
             && Inspect(s.w, op, third) == Finding(ok3, last)
    ensures if ok1 && ok2 && ok3 then Undisturbed(s, 3) == State(s.w, last)
            else Undisturbed(s, 3).pc in {Rejecting, Idle}
  {
    var s1 := State(s.w, if ok1 then second else Rejecting);
    assert Undisturbed(s, 3) == Undisturbed(s1, 2);
    if !ok1 {
      RejectionEnds(s1, 2);
    } else {
      var s2 := State(s.w, if ok2 then third else Rejecting);
      assert Undisturbed(s1, 2) == Undisturbed(s2, 1);
      if !ok2 {
        RejectionEnds(s2, 1);
      } else {
        assert Undisturbed(s2, 1) == Undisturbed(State(s.w, if ok3 then last else Rejecting), 0);
      }
    }
  }

  lemma LooksBeforeMove(w: World)
    requires w.operation.Some?
    ensures var op := w.operation.value;
            && Inspect(w, op, MoveProbe) == Finding(Goal(w) !in w.nas, MoveSize)
            && Inspect(w, op, MoveSize) == Finding(HasSize(w.nas, w.source, w.job.size), MoveOwner)
            && Inspect(w, op, MoveOwner)
               == Finding(HasOwner(w.nas, MarkerIn(w.job, w.source.folder), w.job.owner), MoveData)
  {
  }

  lemma MoveDataAsks(w: World)
    requires w.operation.Some? && w.source.name.Data?
    ensures Advance(State(w, MoveData), Ok, "").w.requests == w.requests + 1
  {
  }

  /** The move can be asked for more than once: a retry asks again exactly when the target is still
      free and the source still carries the file and its marker. */
  lemma RetryAsksAgainExactlyWhenNotMoved(s: State)
    requires Inv(s) && s.pc == MoveProbe
    ensures (Undisturbed(s, 3).pc == MoveData)
            <==> Goal(s.w) !in s.w.nas && HasSize(s.w.nas, s.w.source, s.w.job.size)
                 && HasOwner(s.w.nas, MarkerIn(s.w.job, s.w.source.folder), s.w.job.owner)
    ensures Undisturbed(s, 3).pc == MoveData ==>
              Advance(Undisturbed(s, 3), Ok, "").w.requests == s.w.requests + 1
  {
    MoveDataAsks(s.w);
    LooksBeforeMove(s.w);
    ThreeLooks(s, MoveSize, MoveOwner, MoveData,
               Goal(s.w) !in s.w.nas, HasSize(s.w.nas, s.w.source, s.w.job.size),
               HasOwner(s.w.nas, MarkerIn(s.w.job, s.w.source.folder), s.w.job.owner));
  }

  /** An interrupted move is recognised as done exactly when the source is gone and the file stands at
      the target in full size beside its marker. */
  lemma InterruptedMoveIsRecoveredExactlyWhenComplete(s: State)
    requires Inv(s) && s.pc == ProbeSource
    ensures (Undisturbed(s, 3).pc == CommitMoved) <==> s.w.source !in s.w.nas && Settled(s.w)
  {
    assert IsCopy(s.w.nas, CopyPath(s.w));
    ThreeLooks(s, VerifySize, VerifyOwner, CommitMoved,
               s.w.source !in s.w.nas, HasSize(s.w.nas, Goal(s.w), s.w.job.size),
               HasOwner(s.w.nas, MarkerIn(s.w.job, s.w.operation.value.folder), s.w.job.owner));
  }

  /** The file was moved and its marker was not, and no request for the marker is under way. */
  predicate Stranded(s: State) {
    && s.w.operation.Some?
    && s.w.operation.value.status in {Pending, Failed} && s.w.operation.value.url.None?
    && Goal(s.w) in s.w.nas
    && !HasOwner(s.w.nas, MarkerIn(s.w.job, s.w.operation.value.folder), s.w.job.owner)
    && (forall i :: 0 <= i < |s.w.late| ==> s.w.late[i].source.name.Data?)
    && s.pc in {Idle, ChooseTarget, ProbeTarget, ProbeSource, VerifySize, VerifyOwner, Rejecting, Releasing}
  }

  lemma StrandedLook(w: World, pc: Pc, a: Answer)
    requires Inv(State(w, pc)) && Stranded(State(w, pc)) && Inspects(pc)
    ensures Stranded(State(w, Judge(a, Inspect(w, w.operation.value, pc))))
  {
    match pc
    case ProbeSource =>
    case VerifySize =>
    case VerifyOwner =>
  }

  lemma StrandedMoving(w: World, pc: Pc, a: Answer)
    requires Inv(State(w, pc)) && Stranded(State(w, pc)) && !Inspects(pc)
    ensures Stranded(MovingStep(w, w.operation.value, pc, a))
  {
    match pc
    case Idle =>
    case ChooseTarget =>
    case ProbeTarget =>
    case Rejecting =>
    case Releasing =>
  }

  lemma StrandedLateMove(s: State, i: nat)
    requires Inv(s) && Stranded(s) && i < |s.w.late|
    ensures Stranded(Step(s, LateMove(i)))
  {
    assert Ours(s.w, s.w.late[i]);
  }

  lemma StrandedBegin(s: State, folder: string, version: nat)
    requires Inv(s) && Stranded(s)
    ensures Stranded(Begin(s, folder, version))
  {
  }

  lemma StrandedOtherwise(s: State, e: Event)
    requires Inv(s) && Stranded(s) && !e.Next? && !e.LateMove? && !e.BeginAttempt?
    ensures Stranded(Step(s, e))
  {
    match e
    case CutOff =>
    case Wait(_) =>
    case OthersCreate(_, _, _) =>
    case OthersShare(_, _) =>
    case OthersEditCard(_) =>
    case OthersPlace(_) =>
    case OthersBumpVersion =>
  }

  lemma StrandedNext(w: World, pc: Pc, a: Answer, freshUrl: string)
    requires Inv(State(w, pc)) && Stranded(State(w, pc))
    ensures Stranded(Advance(State(w, pc), a, freshUrl))
  {
    if Inspects(pc) {
      StrandedLook(w, pc, a);
    } else {
      StrandedMoving(w, pc, a);
    }
  }

  lemma StrandedStep(s: State, e: Event)
    requires Inv(s) && Stranded(s)
    ensures Stranded(Step(s, e))
  {
    if e.Next? {
      StrandedNext(s.w, s.pc, e.answer, e.freshUrl);
    } else if e.LateMove? {
      if e.i < |s.w.late| {
        StrandedLateMove(s, e.i);
      }
    } else if e.BeginAttempt? {
      StrandedBegin(s, e.folder, e.expectedVersion);
    } else {
      StrandedOtherwise(s, e);
    }
  }

  /** A crash between the two moves is final: whatever happens afterwards, no retry ever gets beyond
      the move, because nothing carries the marker over. */
  lemma {:induction false} CrashBetweenTheMovesIsFinal(s: State, events: seq<Event>)
    requires Inv(s) && Stranded(s)
    ensures Stranded(Run(s, events))
    decreases |events|
  {
    if events != [] {
      StepKeepsInv(s, events[0]);
      StrandedStep(s, events[0]);
      CrashBetweenTheMovesIsFinal(Step(s, events[0]), events[1..]);
    }
  }

  /** Such a crash: right after the first move was answered, at a target without a foreign marker. */
  lemma CrashAfterFileMoveStrands(s: State)
    requires Inv(s) && s.pc == MovedSize && s.w.late == [] && s.w.operation.value.url.None?
    requires MarkerIn(s.w.job, s.w.operation.value.folder) !in s.w.nas
    ensures Stranded(Step(s, CutOff))
  {
    assert IsCopy(s.w.nas, CopyPath(s.w));
  }

  lemma LostCardRejects(w: World)
    requires w.operation.Some? && w.operation.value.url.Some? && w.operation.value.url.value !in w.card
    ensures Advance(State(w, ReadCard), Ok, "") == State(w, Rejecting)
  {
  }

  lemma RejectionFails(w: World)
    requires w.operation.Some?
    ensures Advance(State(w, Rejecting), Ok, "") == RejectStep(w, w.operation.value, Ok)
  {
  }

  lemma UndisturbedTwice(s: State)
    ensures Undisturbed(s, 2) == Advance(Advance(s, Ok, ""), Ok, "")
  {
    var s1 := Advance(s, Ok, "");
    assert Undisturbed(s, 2) == Undisturbed(s1, 1);
    assert Undisturbed(s1, 1) == Undisturbed(Advance(s1, Ok, ""), 0);
  }

  /** A card that lost the new link is rejected, and the same key then completes the operation
      without another look at the card. */
  lemma RetryAfterFailureSkipsCard(s: State)
    requires Inv(s) && s.pc == ReadCard && s.w.operation.value.url.value !in s.w.card
    requires s.w.recording.reroutable && !PathTaken(s.w, Goal(s.w))
    ensures var failed := Undisturbed(s, 2);
            && failed.pc == Idle && failed.w.operation.Some? && failed.w.operation.value.status == Failed
            && var done := Undisturbed(Retry(failed), 2);
               && done.w.operation.Some? && done.w.operation.value.status == Completed
               && done.w.operation.value.url == s.w.operation.value.url
               && done.w.card == s.w.card && done.w.readBack == s.w.readBack
  {
    LostCardRejects(s.w);
    RejectionFails(s.w);
    UndisturbedTwice(s);
    NoActiveNoPath(s.w.artifacts);
    RetryOfFailed(RejectStep(s.w, s.w.operation.value, Ok));
  }

  /** A failed operation that stored its link goes straight to the swap. */
  lemma RetryOfFailed(s: State)
    requires s.pc == Idle && s.w.operation.Some? && s.w.operation.value.status == Failed && s.w.leaseUntil == 0
    requires s.w.operation.value.target == Some(Goal(s.w)) && s.w.operation.value.url.Some?
    requires s.w.recording.reroutable && s.w.recording.version == s.w.operation.value.expectedVersion
    requires ActiveAt(s.w.artifacts).Some? && !PathTaken(s.w, Goal(s.w))
    ensures var done := Undisturbed(Retry(s), 2);
            && done.w.operation == Some(s.w.operation.value.(status := Completed))
            && done.w.card == s.w.card && done.w.readBack == s.w.readBack
  {
    var s1 := Retry(s);
    var w := s.w.(leaseUntil := s.w.now + LEASE, source := ActiveAt(s.w.artifacts).value);
    assert s1 == State(w, ChooseTarget);
    var s2 := Advance(s1, Ok, "");
    assert s2 == State(w, Swap);
    UndisturbedTwice(s1);
  }
}

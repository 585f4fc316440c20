/**
  Exactly when an interrupted reroute can still be finished under its key: what its row, the NAS and the
  moves that may still happen have to allow (app/services/reroute.py:79-234,
  app/tools/synology.py:618-694).
*/
module RerouteCompletion {
  import opened Values
  import opened Reroute
  import opened RerouteInvariant
  import opened RerouteSafety

  ghost predicate CanFinish(s: State) {
    exists events :: Completes(s, events)
  }

  predicate Completes(s: State, events: seq<Event>) {
    var w := Run(s, events).w;
    w.operation.Some? && w.operation.value.status == Completed
  }

  /* ---- The two markers and the moves under way ---- */

  /** The operation's own marker stands beside the target. */
  predicate MarkerThere(w: World)
    requires w.operation.Some?
  {
    HasOwner(w.nas, MarkerIn(w.job, w.operation.value.folder), w.job.owner)
  }

  predicate MarkerFree(w: World)
    requires w.operation.Some?
  {
    MarkerIn(w.job, w.operation.value.folder) !in w.nas
  }

  predicate SourceOwned(w: World) {
    HasOwner(w.nas, MarkerIn(w.job, w.source.folder), w.job.owner)
  }

  predicate SizeFits(w: World) {
    HasSize(w.nas, CopyPath(w), w.job.size)
  }

  predicate DataUnderWay(w: World) {
    exists i :: 0 <= i < |w.late| && w.late[i].source == w.source
  }

  predicate MarkerUnderWay(w: World) {
    exists i :: 0 <= i < |w.late| && w.late[i].source == MarkerIn(w.job, w.source.folder)
  }

  /** The marker is beside the target, or a move that is still to happen will bring it there. */
  predicate MarkerArrives(w: World)
    requires w.operation.Some?
  {
    MarkerThere(w) || (MarkerUnderWay(w) && MarkerFree(w) && SourceOwned(w))
  }

  /** The file can be moved and proven: once moved, with its marker; before, either by a new request, which
      asks for the marker at the source, or by one that is still to happen. */
  predicate FileCanBeProven(w: World)
    requires w.operation.Some?
  {
    && SizeFits(w)
    && if w.moves == 1 then w.source !in w.nas && MarkerArrives(w)
       else Goal(w) !in w.nas && ((SourceOwned(w) && (MarkerFree(w) || MarkerThere(w)))
                                  || (DataUnderWay(w) && MarkerThere(w)))
  }

  /** What the phase still asks for; a failed operation only goes on if it has a link. */
  predicate PhaseAllows(w: World)
    requires w.operation.Some?
  {
    match w.operation.value.status
    case Pending => FileCanBeProven(w)
    case Failed => w.operation.value.url.Some?
    case _ => true
  }

  /** The recording has not left the version, it may be rerouted, and the path was never used. */
  predicate StillWanted(w: World)
    requires w.operation.Some?
  {
    && w.recording.version <= w.operation.value.expectedVersion
    && w.recording.reroutable && !PathTaken(w, Goal(w))
  }

  predicate Finishable(w: World)
    requires w.operation.Some?
  {
    StillWanted(w) && PhaseAllows(w)
  }

  /* ---- It can be finished ---- */

  lemma OneStepBack(s: State, e: Event)
    requires CanFinish(Step(s, e))
    ensures CanFinish(s)
  {
    var events :| Completes(Step(s, e), events);
    assert ([e] + events)[1..] == events;
    assert Run(s, [e] + events) == Run(Step(s, e), events);
    assert Completes(s, [e] + events);
  }

  /** An attempt is under way, and nothing stands against its swap. */
  ghost predicate Going(s: State) {
    && Inv(s) && Unfinished(s.w)
    && s.w.recording.version == s.w.operation.value.expectedVersion
    && s.w.recording.reroutable && !PathTaken(s.w, Goal(s.w))
  }

  lemma SwapFinishes(s: State)
    requires Going(s) && s.pc == Swap
    ensures CanFinish(s)
  {
    var t := SwapStep(s.w, s.w.operation.value, Ok);
    assert t == Step(s, Next(Ok, ""));
    assert t.w.operation.value.status == Completed;
    assert Completes(t, []);
    OneStepBack(s, Next(Ok, ""));
  }

  /** A request or commit that goes well, and leaves what the swap needs. */
  lemma GoesOn(s: State, url: string, t: State)
    requires Going(s) && t == Step(s, Next(Ok, url))
    requires t.w.recording == s.w.recording && t.w.artifacts == s.w.artifacts && t.w.elsewhere == s.w.elsewhere
    requires t.w.operation.Some? && t.w.operation.value.status != Completed
    ensures Going(t)
    ensures CanFinish(t) ==> CanFinish(s)
  {
    StepKeepsInv(s, Next(Ok, url));
    StepFollows(s, Next(Ok, url));
    if CanFinish(t) {
      OneStepBack(s, Next(Ok, url));
    }
  }

  lemma CommitNotionFinishes(s: State)
    requires Going(s) && s.pc == CommitNotion
    ensures CanFinish(s)
  {
    var t := CommitNotionStep(s.w, s.w.operation.value, Ok);
    GoesOn(s, "", t);
    SwapFinishes(t);
  }

  lemma ReadCardFinishes(s: State)
    requires Going(s) && s.pc == ReadCard && s.w.operation.value.url.value in s.w.card
    ensures CanFinish(s)
  {
    var t := ReadCardStep(s.w, s.w.operation.value, Ok);
    GoesOn(s, "", t);
    CommitNotionFinishes(t);
  }

  lemma WriteCardFinishes(s: State)
    requires Going(s) && s.pc == WriteCard
    ensures CanFinish(s)
  {
    var t := WriteCardStep(s.w, s.w.operation.value, Ok);
    GoesOn(s, "", t);
    ReadCardFinishes(t);
  }

  lemma CommitLinkedFinishes(s: State)
    requires Going(s) && s.pc.CommitLinked?
    ensures CanFinish(s)
  {
    var t := CommitLinkedStep(s.w, s.w.operation.value, Ok, s.pc.url);
    GoesOn(s, "", t);
    WriteCardFinishes(t);
  }

  lemma CreateLinkFinishes(s: State)
    requires Going(s) && s.pc == CreateLink
    ensures CanFinish(s)
  {
    var t := CreateLinkStep(s.w, s.w.operation.value, Ok, "");
    GoesOn(s, "", t);
    CommitLinkedFinishes(t);
  }

  lemma LookUpLinkFinishes(s: State)
    requires Going(s) && s.pc == LookUpLink
    ensures CanFinish(s)
  {
    var t := LookUpLinkStep(s.w, s.w.operation.value, Ok);
    GoesOn(s, "", t);
    if t.pc == CreateLink {
      CreateLinkFinishes(t);
    } else {
      CommitLinkedFinishes(t);
    }
  }

  lemma CommitMovedFinishes(s: State)
    requires Going(s) && s.pc == CommitMoved
    ensures CanFinish(s)
  {
    var t := CommitMovedStep(s.w, s.w.operation.value, Ok);
    GoesOn(s, "", t);
    LookUpLinkFinishes(t);
  }

  lemma LookGoesOn(s: State)
    requires Going(s) && Inspects(s.pc) && Inspect(s.w, s.w.operation.value, s.pc).ok
    ensures var t := State(s.w, Inspect(s.w, s.w.operation.value, s.pc).next);
            Going(t) && (CanFinish(t) ==> CanFinish(s))
  {
    GoesOn(s, "", State(s.w, Inspect(s.w, s.w.operation.value, s.pc).next));
  }

  /** The file has arrived with its marker. */
  lemma ProbeSourceFinishes(s: State)
    requires Going(s) && s.pc == ProbeSource && s.w.source !in s.w.nas && Settled(s.w)
    ensures CanFinish(s)
  {
    LookGoesOn(s);
    LookGoesOn(State(s.w, VerifySize));
    LookGoesOn(State(s.w, VerifyOwner));
    CommitMovedFinishes(State(s.w, CommitMoved));
  }

  /** After the first move of an attempt, to a target folder without a marker. */
  lemma MovedSizeFinishes(s: State)
    requires Going(s) && s.pc == MovedSize && SizeFits(s.w) && s.w.source !in s.w.nas
    requires MarkerFree(s.w) && SourceOwned(s.w)
    ensures CanFinish(s)
  {
    LookGoesOn(s);
    LookGoesOn(State(s.w, MarkerProbe));
    MoveMarkerFinishes(State(s.w, MoveMarker));
  }

  lemma MoveMarkerFinishes(s: State)
    requires Going(s) && s.pc == MoveMarker && s.w.source !in s.w.nas
    requires MarkerFree(s.w) && SourceOwned(s.w)
    ensures CanFinish(s)
  {
    var m := Move(MarkerIn(s.w.job, s.w.source.folder), s.w.operation.value.folder);
    var t := MoveStep(s.w, Ok, m, MovedOwner);
    assert t == State(Performed(Asked(s.w, m), m), MovedOwner);
    GoesOn(s, "", t);
    LookGoesOn(t);
    LookGoesOn(State(t.w, SourceGone));
    LookGoesOn(State(t.w, MarkerGone));
    CommitMovedFinishes(State(t.w, CommitMoved));
  }

  /** A crash that leaves the operation open. */
  lemma CutOffGoesOn(s: State)
    requires Going(s)
    ensures Going(State(s.w, Idle)) && (CanFinish(State(s.w, Idle)) ==> CanFinish(s))
  {
    StepKeepsInv(s, CutOff);
    if CanFinish(State(s.w, Idle)) {
      OneStepBack(s, CutOff);
    }
  }

  lemma MoveDataFinishes(s: State)
    requires Going(s) && s.pc == MoveData && s.w.moves == 0 && SizeFits(s.w) && Goal(s.w) !in s.w.nas
    requires SourceOwned(s.w) && (MarkerFree(s.w) || MarkerThere(s.w))
    ensures CanFinish(s)
  {
    var m := Move(s.w.source, s.w.operation.value.folder);
    var t := MoveStep(s.w, Ok, m, MovedSize);
    assert IsCopy(s.w.nas, CopyPath(s.w));
    assert t == State(Performed(Asked(s.w, m), m), MovedSize);
    GoesOn(s, "", t);
    if MarkerFree(s.w) {
      MovedSizeFinishes(t);
    } else {
      CutOffGoesOn(t);
      RecoveryFinishes(State(t.w, Idle));
    }
  }

  lemma MoveProbeFinishes(s: State)
    requires Going(s) && s.pc == MoveProbe && s.w.moves == 0 && SizeFits(s.w) && Goal(s.w) !in s.w.nas
    requires SourceOwned(s.w) && (MarkerFree(s.w) || MarkerThere(s.w))
    ensures CanFinish(s)
  {
    LookGoesOn(s);
    LookGoesOn(State(s.w, MoveSize));
    LookGoesOn(State(s.w, MoveOwner));
    MoveDataFinishes(State(s.w, MoveData));
  }

  /** The next attempt with the key, when the lease has run out. */
  function Again(s: State): State
    requires s.w.operation.Some?
  {
    Step(Step(s, Wait(s.w.leaseUntil)),
         BeginAttempt(s.w.operation.value.folder, s.w.operation.value.expectedVersion))
  }

  lemma AttemptStarts(s: State)
    requires Going(s) && s.pc == Idle
    ensures var w := s.w.(now := s.w.now + s.w.leaseUntil);
            Again(s) == State(w.(leaseUntil := w.now + LEASE), ChooseTarget)
  {
    var op := s.w.operation.value;
    var w := s.w.(now := s.w.now + s.w.leaseUntil);
    NoActiveNoPath(s.w.artifacts);
    assert BeginResult(w, op.folder, op.expectedVersion) == Started;
  }

  lemma AgainBegins(s: State)
    requires Going(s) && s.pc == Idle
    ensures var w := s.w.(now := s.w.now + s.w.leaseUntil);
            Again(s) == State(w.(leaseUntil := w.now + LEASE), ChooseTarget)
    ensures Going(Again(s)) && (CanFinish(Again(s)) ==> CanFinish(s))
  {
    var wait := Wait(s.w.leaseUntil);
    var begin := BeginAttempt(s.w.operation.value.folder, s.w.operation.value.expectedVersion);
    AttemptStarts(s);
    StepKeepsInv(s, wait);
    StepKeepsInv(Step(s, wait), begin);
    if CanFinish(Again(s)) {
      OneStepBack(Step(s, wait), begin);
      OneStepBack(s, wait);
    }
  }

  /** A pending operation chooses its target and looks for it. */
  lemma PendingLooks(s: State)
    requires Going(s) && s.pc == ChooseTarget && s.w.operation.value.status == Pending
    ensures var w := s.w.(operation := Some(s.w.operation.value.(target := Some(Goal(s.w)))));
            var t := State(w, if Goal(s.w) in s.w.nas then ProbeSource else MoveProbe);
            Going(t) && (CanFinish(t) ==> CanFinish(s))
  {
    var op := s.w.operation.value;
    var w := s.w.(operation := Some(op.(target := Some(Goal(s.w)))));
    assert op.target.Some? ==> op.(target := Some(Goal(s.w))) == op;
    assert ChooseTargetStep(s.w, op, Ok) == State(w, ProbeTarget);
    GoesOn(s, "", State(w, ProbeTarget));
    GoesOn(State(w, ProbeTarget), "", ProbeTargetStep(w, w.operation.value, Ok));
  }

  lemma RecoveryFinishes(s: State)
    requires Going(s) && s.pc == Idle && s.w.operation.value.status == Pending
    requires s.w.source !in s.w.nas && Settled(s.w)
    ensures CanFinish(s)
  {
    AgainBegins(s);
    PendingLooks(Again(s));
    var w := Again(s).w;
    ProbeSourceFinishes(State(w.(operation := Some(w.operation.value.(target := Some(Goal(w))))), ProbeSource));
  }

  lemma NewMoveFinishes(s: State)
    requires Going(s) && s.pc == Idle && s.w.operation.value.status == Pending && s.w.moves == 0
    requires SizeFits(s.w) && Goal(s.w) !in s.w.nas && SourceOwned(s.w) && (MarkerFree(s.w) || MarkerThere(s.w))
    ensures CanFinish(s)
  {
    AgainBegins(s);
    PendingLooks(Again(s));
    var w := Again(s).w;
    MoveProbeFinishes(State(w.(operation := Some(w.operation.value.(target := Some(Goal(w))))), MoveProbe));
  }

  /** A move that was asked for long ago brings what is missing. */
  lemma LateMoveFinishes(s: State, i: nat)
    requires Going(s) && s.pc == Idle && s.w.operation.value.status == Pending && i < |s.w.late|
    requires CanMove(s.w.nas, s.w.late[i]) && SizeFits(s.w)
    requires if s.w.late[i].source == s.w.source then s.w.moves == 0 && MarkerThere(s.w)
             else s.w.moves == 1 && s.w.source !in s.w.nas && SourceOwned(s.w)
    ensures CanFinish(s)
  {
    var m := s.w.late[i];
    assert Ours(s.w, m);
    var t := Step(s, LateMove(i));
    StepKeepsInv(s, LateMove(i));
    StepFollows(s, LateMove(i));
    RecoveryFinishes(t);
    OneStepBack(s, LateMove(i));
  }

  lemma PendingFinishes(s: State)
    requires Going(s) && s.pc == Idle && s.w.operation.value.status == Pending && FileCanBeProven(s.w)
    ensures CanFinish(s)
  {
    var w := s.w;
    assert IsCopy(w.nas, CopyPath(w));
    if w.moves == 1 {
      if MarkerThere(w) {
        RecoveryFinishes(s);
      } else {
        var i :| 0 <= i < |w.late| && w.late[i].source == MarkerIn(w.job, w.source.folder);
        assert Ours(w, w.late[i]);
        LateMoveFinishes(s, i);
      }
    } else if SourceOwned(w) && (MarkerFree(w) || MarkerThere(w)) {
      NewMoveFinishes(s);
    } else {
      var i :| 0 <= i < |w.late| && w.late[i].source == w.source;
      assert Ours(w, w.late[i]);
      LateMoveFinishes(s, i);
    }
  }

  /** Every later phase only needs its own steps again. */
  lemma LaterPhaseFinishes(s: State)
    requires Going(s) && s.pc == Idle && s.w.operation.value.status != Pending && PhaseAllows(s.w)
    ensures CanFinish(s)
  {
    AgainBegins(s);
    var chosen := ChooseTargetStep(Again(s).w, s.w.operation.value, Ok);
    GoesOn(Again(s), "", chosen);
    match s.w.operation.value.status
    case MovedFile => LookUpLinkFinishes(chosen);
    case Linked => WriteCardFinishes(chosen);
    case NotionUpdated => SwapFinishes(chosen);
    case Failed => SwapFinishes(chosen);
  }

  lemma {:induction false} RaisedToExpected(s: State)
    requires Inv(s) && s.pc == Idle && Unfinished(s.w) && Finishable(s.w)
    ensures CanFinish(s)
    decreases s.w.operation.value.expectedVersion - s.w.recording.version
  {
    if s.w.recording.version == s.w.operation.value.expectedVersion {
      if s.w.operation.value.status == Pending {
        PendingFinishes(s);
      } else {
        LaterPhaseFinishes(s);
      }
    } else {
      StepKeepsInv(s, OthersBumpVersion);
      RaisedToExpected(Step(s, OthersBumpVersion));
      OneStepBack(s, OthersBumpVersion);
    }
  }

  /* ---- It cannot ---- */

  /** What keeps a file from ever being proven at its target. */
  datatype Obstacle =
    | Occupied        // the target path is taken, and so is the source path
    | SizeDiffers     // the file does not have the size of the recording
    | MarkerBlocked   // something else stands where the marker belongs
    | MarkerMissing   // the marker is neither at the source nor at the target
    | NothingMoves    // no marker at the source, and no move of the file under way
    | AlreadyFailed   // the operation failed before it had a link

  predicate Stands(w: World, o: Obstacle)
    requires w.operation.Some?
  {
    match o
    case Occupied => Goal(w) in w.nas && w.source in w.nas
    case SizeDiffers => !SizeFits(w)
    case MarkerBlocked => !MarkerFree(w) && !MarkerThere(w)
    case MarkerMissing => !SourceOwned(w) && !MarkerThere(w)
    case NothingMoves => w.moves == 0 && !SourceOwned(w) && !DataUnderWay(w)
    case AlreadyFailed => w.operation.value.status == Failed
  }

  /** How far an attempt gets before the obstacle. */
  predicate GetsTo(w: World, o: Obstacle, pc: Pc)
    requires w.operation.Some?
  {
    match pc
    case Idle | ChooseTarget | Rejecting | Releasing => true
    case ProbeTarget | ProbeSource => o != AlreadyFailed
    case MoveProbe | MoveSize => o !in {AlreadyFailed, Occupied}
    case VerifySize => o in {SizeDiffers, MarkerBlocked, MarkerMissing}
    case VerifyOwner => o in {MarkerBlocked, MarkerMissing}
    case MoveOwner => o in {MarkerBlocked, MarkerMissing, NothingMoves} || (o == SizeDiffers && Goal(w) in w.nas)
    case MoveData => o == MarkerBlocked || (o == SizeDiffers && Goal(w) in w.nas)
    case MovedSize | MarkerProbe => o == MarkerBlocked
    case _ => false
  }

  /** Pending or failed, without a link. */
  predicate Open(w: World) {
    w.operation.Some? && w.operation.value.status in {Pending, Failed} && w.operation.value.url.None?
  }

  predicate StoppedBy(s: State, o: Obstacle) {
    Open(s.w) && Stands(s.w, o) && GetsTo(s.w, o, s.pc)
  }

  ghost predicate Stuck(s: State, o: Obstacle) {
    Inv(s) && StoppedBy(s, o)
  }

  lemma StuckLook(w: World, pc: Pc, a: Answer, o: Obstacle)
    requires Stuck(State(w, pc), o) && Inspects(pc)
    ensures StoppedBy(State(w, Judge(a, Inspect(w, w.operation.value, pc))), o)
  {
    assert IsCopy(w.nas, CopyPath(w));
    match pc
    case ProbeSource =>
    case VerifySize =>
    case VerifyOwner =>
    case MoveProbe =>
    case MoveSize =>
    case MoveOwner =>
    case MovedSize =>
    case MarkerProbe =>
  }

  lemma StuckChoice(w: World, a: Answer, o: Obstacle)
    requires Stuck(State(w, ChooseTarget), o)
    ensures StoppedBy(ChooseTargetStep(w, w.operation.value, a), o)
  {
  }

  lemma StuckEnd(w: World, a: Answer, o: Obstacle)
    requires StoppedBy(State(w, Idle), o)
    ensures StoppedBy(RejectStep(w, w.operation.value, a), o)
    ensures StoppedBy(ReleaseStep(w, a), o)
  {
  }

  lemma StuckMoving(w: World, pc: Pc, a: Answer, o: Obstacle)
    requires Stuck(State(w, pc), o) && !Inspects(pc) && pc != MoveData
    ensures StoppedBy(MovingStep(w, w.operation.value, pc, a), o)
  {
    match pc
    case Idle =>
    case ChooseTarget => StuckChoice(w, a, o);
    case ProbeTarget =>
    case Rejecting => StuckEnd(w, a, o);
    case Releasing => StuckEnd(w, a, o);
  }

  /** What a step does not undo: the obstacle, and that the target path is taken. */
  ghost predicate StaysStuck(w: World, v: World, o: Obstacle) {
    && w.operation.Some? && v.operation == w.operation && v.job == w.job && v.source == w.source
    && Stands(v, o) && (Goal(w) in w.nas ==> Goal(v) in v.nas)
  }

  lemma StuckPerformed(w: World, m: Move, o: Obstacle)
    requires OneCopy(w) && Ours(w, m) && Stands(w, o)
    requires o == NothingMoves ==> m.source != w.source
    ensures StaysStuck(w, Performed(w, m), o)
  {
    PerformedFollows(w, m);
    match o
    case Occupied =>
    case SizeDiffers =>
    case MarkerBlocked =>
    case MarkerMissing =>
    case NothingMoves =>
    case AlreadyFailed =>
  }

  lemma StuckAnswer(w: World, a: Answer, m: Move, o: Obstacle)
    requires StoppedBy(State(w, MoveData), o) && StaysStuck(w, Performed(w, m), o)
    requires CanMove(w.nas, m) ==> o == MarkerBlocked
    ensures StoppedBy(MoveStep(w, a, m, MovedSize), o)
  {
    match a
    case Ok =>
    case Refused =>
    case Lost =>
    case Late =>
    case Denied =>
  }

  lemma StuckMoveData(w: World, a: Answer, o: Obstacle)
    requires Stuck(State(w, MoveData), o)
    ensures StoppedBy(MoveStep(w, a, Move(w.source, w.operation.value.folder), MovedSize), o)
  {
    var m := Move(w.source, w.operation.value.folder);
    StuckPerformed(w, m, o);
    StuckAnswer(w, a, m, o);
  }

  lemma StuckQueue(w: World, pc: Pc, i: nat, o: Obstacle)
    requires StoppedBy(State(w, pc), o) && i < |w.late|
    ensures StoppedBy(State(w.(late := w.late[..i] + w.late[i + 1..]), pc), o)
  {
  }

  lemma StuckLateMove(s: State, i: nat, o: Obstacle)
    requires Stuck(s, o) && i < |s.w.late|
    ensures StoppedBy(Step(s, LateMove(i)), o)
  {
    var m := s.w.late[i];
    assert Ours(s.w, m);
    StuckPerformed(s.w, m, o);
    assert StoppedBy(State(Performed(s.w, m), s.pc), o);
    StuckQueue(Performed(s.w, m), s.pc, i, o);
  }

  lemma StuckCreate(s: State, e: Event, o: Obstacle)
    requires Stuck(s, o) && e.OthersCreate?
    ensures StoppedBy(Step(s, e), o)
  {
    OthersCreateFollows(s, e);
  }

  lemma StuckOtherwise(s: State, e: Event, o: Obstacle)
    requires Stuck(s, o) && !e.Next? && !e.LateMove? && !e.OthersCreate?
    ensures StoppedBy(Step(s, e), o)
  {
    match e
    case BeginAttempt(_, _) =>
    case CutOff =>
    case Wait(_) =>
    case OthersShare(_, _) =>
    case OthersEditCard(_) =>
    case OthersPlace(_) =>
    case OthersBumpVersion =>
  }

  lemma StuckNext(w: World, pc: Pc, a: Answer, freshUrl: string, o: Obstacle)
    requires Stuck(State(w, pc), o)
    ensures StoppedBy(Advance(State(w, pc), a, freshUrl), o)
  {
    if Inspects(pc) {
      StuckLook(w, pc, a, o);
    } else if pc == MoveData {
      StuckMoveData(w, a, o);
    } else {
      StuckMoving(w, pc, a, o);
    }
  }

  lemma StuckStep(s: State, e: Event, o: Obstacle)
    requires Stuck(s, o)
    ensures StoppedBy(Step(s, e), o)
  {
    if e.Next? {
      StuckNext(s.w, s.pc, e.answer, e.freshUrl, o);
    } else if e.LateMove? {
      if e.i < |s.w.late| {
        StuckLateMove(s, e.i, o);
      }
    } else if e.OthersCreate? {
      StuckCreate(s, e, o);
    } else {
      StuckOtherwise(s, e, o);
    }
  }

  lemma {:induction false} StuckForever(s: State, o: Obstacle, events: seq<Event>)
    requires Stuck(s, o)
    ensures !Completes(s, events)
    decreases |events|
  {
    if events != [] {
      StepKeepsInv(s, events[0]);
      StuckStep(s, events[0], o);
      StuckForever(Step(s, events[0]), o, events[1..]);
    }
  }

  /** Of a recording that left the version, or may not be rerouted, every attempt is refused. */
  predicate Refusing(s: State) {
    && Unfinished(s.w) && s.pc == Idle
    && (s.w.recording.version > s.w.operation.value.expectedVersion || !s.w.recording.reroutable)
  }

  lemma {:induction false} RefusedForever(s: State, events: seq<Event>)
    requires Refusing(s)
    ensures !Completes(s, events)
    decreases |events|
  {
    if events != [] {
      assert Refusing(Step(s, events[0]));
      RefusedForever(Step(s, events[0]), events[1..]);
    }
  }

  lemma UnprovenIsStuck(s: State) returns (o: Obstacle)
    requires Inv(s) && s.pc == Idle && Open(s.w) && s.w.operation.value.status == Pending
    requires !FileCanBeProven(s.w)
    ensures Stuck(s, o) || Stranded(s)
  {
    var w := s.w;
    assert IsCopy(w.nas, CopyPath(w));
    if !SizeFits(w) {
      return SizeDiffers;
    } else if Goal(w) in w.nas && w.source in w.nas {
      return Occupied;
    } else if !MarkerThere(w) && !MarkerFree(w) {
      return MarkerBlocked;
    } else if !MarkerThere(w) && !SourceOwned(w) {
      return MarkerMissing;
    } else if w.moves == 0 {
      return NothingMoves;
    } else {
      forall i | 0 <= i < |w.late|
        ensures w.late[i].source.name.Data?
      {
        assert Ours(w, w.late[i]);
      }
      return AlreadyFailed;
    }
  }

  lemma UnfinishableNeverCompletes(s: State, events: seq<Event>)
    requires Inv(s) && s.pc == Idle && Unfinished(s.w) && !Finishable(s.w)
    ensures !Completes(s, events)
  {
    if PathTaken(s.w, Goal(s.w)) {
      UsedPathNeverCompletes(s, events);
    } else if !StillWanted(s.w) {
      RefusedForever(s, events);
    } else if s.w.operation.value.status == Failed {
      StuckForever(s, AlreadyFailed, events);
    } else {
      var o := UnprovenIsStuck(s);
      if Stuck(s, o) {
        StuckForever(s, o, events);
      } else {
        CrashBetweenTheMovesIsFinal(s, events);
      }
    }
  }

  /** An operation at rest can still be finished under its key exactly when the recording is wanted where it
      was, the path was never used, and the phase allows it: a pending file can be proven, and a failed
      operation has its link. */
  lemma CanFinishExactlyWhenFinishable(s: State)
    requires Inv(s) && s.pc == Idle && Unfinished(s.w)
    ensures CanFinish(s) <==> Finishable(s.w)
  {
    if Finishable(s.w) {
      RaisedToExpected(s);
    } else {
      forall events
        ensures !Completes(s, events)
      {
        UnfinishableNeverCompletes(s, events);
      }
    }
  }
}

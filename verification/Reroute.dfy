/**
  The reroute saga of app/services/reroute.py, with the verified move of app/tools/synology.py.

  One operation moves the file of a recording to another folder, shares it, rewrites the Notion card
  and swaps the active artifact. Every request to an outside system and every commit is one step; an
  attempt may be cut off after any of them and be started again with the same key. A NAS move whose
  answer never came may still happen at any later time.
*/
module Reroute {
  import opened Values

  /* ---- The outside systems ---- */

  datatype Name = Data(text: string) | MarkerFor(text: string)
  datatype Path = Path(folder: string, name: Name)

  datatype Kind = RecordingData | OwnerMarker(owner: string) | Unrelated(id: nat)
  datatype Item = Item(kind: Kind, size: nat)

  datatype Move = Move(source: Path, folder: string)
  datatype Link = Link(url: string, path: Path)

  type Nas = map<Path, Item>

  function Landing(m: Move): Path {
    Path(m.folder, m.source.name)
  }

  predicate CanMove(nas: Nas, m: Move) {
    m.source in nas && Landing(m) !in nas
  }

  /** A move without overwrite. */
  function Moved(nas: Nas, m: Move): Nas {
    if CanMove(nas, m) then nas[Landing(m) := nas[m.source]] - {m.source} else nas
  }

  function FindLink(links: seq<Link>, path: Path): Option<string> {
    if links == [] then None
    else if links[0].path == path then Some(links[0].url)
    else FindLink(links[1..], path)
  }

  /* ---- The rows ---- */

  datatype OpStatus = Pending | MovedFile | Linked | NotionUpdated | Completed | Failed

  datatype Operation = Operation(
    folder: string, expectedVersion: nat, status: OpStatus, target: Option<Path>, url: Option<string>)

  datatype Artifact = Artifact(path: Path, url: string, active: bool)

  datatype Recording = Recording(version: nat, reroutable: bool, filePath: Path, shareUrl: string)

  /** What the recording row fixes about the stored file. */
  datatype Job = Job(filename: string, size: Option<nat>, owner: string)

  datatype Pc =
    | Idle
    | ChooseTarget
    | ProbeTarget | ProbeSource | VerifySize | VerifyOwner
    | MoveProbe | MoveSize | MoveOwner | MoveData | MovedSize
    | MarkerProbe | MoveMarker | MovedOwner | SourceGone | MarkerGone
    | CommitMoved
    | LookUpLink | CreateLink | CommitLinked(url: string)
    | WriteCard | ReadCard | CommitNotion
    | Swap
    | Rejecting | Releasing

  /** How a request or a commit ends: well, without effect, or with an effect and no answer. A move
      can also stay behind in the NAS. `Denied` is an error that rejects the operation: a refused root or
      property map, or a size or marker on the NAS that cannot be read as one. */
  datatype Answer = Ok | Refused | Lost | Late | Denied

  /** The outside systems, the rows, the clock and what the attempt in flight takes as its source. */
  datatype World = World(
    job: Job,
    nas: Nas, late: seq<Move>, links: seq<Link>, card: set<string>,
    recording: Recording, artifacts: seq<Artifact>, operation: Option<Operation>,
    elsewhere: set<Path>,   // the artifact paths of other recordings
    leaseUntil: nat, now: nat,
    source: Path,
    // history, written but never read by the saga
    requests: nat, moves: nat, failedOnce: bool, readBack: bool)

  datatype State = State(w: World, pc: Pc)

  const LEASE: nat := 600

  function TargetIn(job: Job, folder: string): Path {
    Path(folder, Data(job.filename))
  }

  function MarkerIn(job: Job, folder: string): Path {
    Path(folder, MarkerFor(job.filename))
  }

  predicate HasSize(nas: Nas, path: Path, size: Option<nat>) {
    path in nas && size == Some(nas[path].size)
  }

  predicate HasOwner(nas: Nas, marker: Path, owner: string) {
    marker in nas && nas[marker].kind == OwnerMarker(owner)
  }

  function ActiveAt(artifacts: seq<Artifact>): Option<Path> {
    if artifacts == [] then None
    else if artifacts[0].active then Some(artifacts[0].path)
    else ActiveAt(artifacts[1..])
  }

  function Deactivated(artifacts: seq<Artifact>, path: Path): (r: seq<Artifact>)
    ensures |r| == |artifacts|
    ensures forall i :: 0 <= i < |r| ==>
              r[i] == if artifacts[i].path == path then artifacts[i].(active := false) else artifacts[i]
  {
    if artifacts == [] then []
    else
      [if artifacts[0].path == path then artifacts[0].(active := false) else artifacts[0]]
      + Deactivated(artifacts[1..], path)
  }

  predicate InHistory(artifacts: seq<Artifact>, path: Path) {
    exists i :: 0 <= i < |artifacts| && artifacts[i].path == path
  }

  /** Artifact paths are unique over all recordings and all time. */
  predicate PathTaken(w: World, path: Path) {
    InHistory(w.artifacts, path) || path in w.elsewhere
  }

  /* ---- The steps ---- */

  datatype Begun = Started | Replayed | BadInputs | Busy | Stale | NotReroutable | NoArtifact

  /** The checks that precede the first commit. */
  function BeginResult(w: World, folder: string, expectedVersion: nat): Begun {
    if w.operation.Some? && w.operation.value.status.Completed? then Replayed
    else if w.operation.Some? && (w.operation.value.folder != folder
                                  || w.operation.value.expectedVersion != expectedVersion) then BadInputs
    else if w.leaseUntil > w.now then Busy
    else if w.recording.version != expectedVersion then Stale
    else if !w.recording.reroutable then NotReroutable
    else if ActiveAt(w.artifacts).None? then NoArtifact
    else Started
  }

  function Begin(s: State, folder: string, expectedVersion: nat): State {
    if s.pc != Idle || BeginResult(s.w, folder, expectedVersion) != Started then s
    else
      var w := s.w;
      State(w.(operation := if w.operation.Some? then w.operation
                            else Some(Operation(folder, expectedVersion, Pending, None, None)),
               leaseUntil := w.now + LEASE,
               source := ActiveAt(w.artifacts).value),
            ChooseTarget)
  }

  /** The NAS carries out a move, or refuses it. */
  function Performed(w: World, m: Move): World {
    w.(nas := Moved(w.nas, m),
       moves := if CanMove(w.nas, m) && m.source.name.Data? then w.moves + 1 else w.moves)
  }

  /** A move is asked for. */
  function Asked(w: World, m: Move): World {
    if m.source.name.Data? then w.(requests := w.requests + 1) else w
  }

  function MoveStep(w: World, a: Answer, m: Move, next: Pc): State {
    match a
    case Late => State(Asked(w, m).(late := w.late + [m]), Releasing)
    case Refused | Denied => State(Asked(w, m), Releasing)
    case Lost => State(Performed(Asked(w, m), m), Releasing)
    case Ok => State(Performed(Asked(w, m), m), if CanMove(w.nas, m) then next else Releasing)
  }

  /** Raise an error that leaves the phase as it is, or one that fails the operation. */
  function Raised(a: Answer): Pc {
    if a == Denied then Rejecting else Releasing
  }

  function ChooseTargetStep(w: World, op: Operation, a: Answer): State {
    if a != Ok then State(w, Raised(a))
    else
      match op.status
      case Pending =>
        var intended := TargetIn(w.job, op.folder);
        if op.target.None? then State(w.(operation := Some(op.(target := Some(intended)))), ProbeTarget)
        else State(w, if op.target.value == intended then ProbeTarget else Rejecting)
      case MovedFile => State(w, if op.target.Some? then LookUpLink else Rejecting)
      case Linked => State(w, if op.target.Some? && op.url.Some? then WriteCard else Rejecting)
      case _ => State(w, if op.target.Some? && op.url.Some? then Swap else Rejecting)
  }

  function Swapped(w: World, op: Operation): World
    requires op.target.Some? && op.url.Some?
  {
    w.(artifacts := Deactivated(w.artifacts, w.source) + [Artifact(op.target.value, op.url.value, true)],
       recording := w.recording.(version := w.recording.version + 1,
                                 filePath := op.target.value, shareUrl := op.url.value),
       operation := Some(op.(status := Completed)),
       leaseUntil := 0)
  }

  /** The last commit: the artifact swap. A path that any recording ever used violates the unique
      constraint, and the failed session ends without releasing anything. */
  function SwapStep(w: World, op: Operation, a: Answer): State {
    if op.target.None? || op.url.None? then State(w, Rejecting)
    else if a != Ok || PathTaken(w, op.target.value) then State(w, Idle)
    else State(Swapped(w, op), Idle)
  }

  datatype Finding = Finding(ok: bool, next: Pc)

  /** Every look at the NAS that can reject the operation, and where it leads when all is well: first
      those that recover a move whose answer was lost, then those around the two moves. */
  function Inspect(w: World, op: Operation, pc: Pc): Finding {
    var target := TargetIn(w.job, op.folder);
    var marker := MarkerIn(w.job, op.folder);
    var sourceMarker := MarkerIn(w.job, w.source.folder);
    match pc
    case ProbeSource => Finding(w.source !in w.nas, VerifySize)
    case VerifySize => Finding(HasSize(w.nas, target, w.job.size), VerifyOwner)
    case VerifyOwner => Finding(HasOwner(w.nas, marker, w.job.owner), CommitMoved)
    case MoveProbe => Finding(target !in w.nas, MoveSize)
    case MoveSize => Finding(HasSize(w.nas, w.source, w.job.size), MoveOwner)
    case MoveOwner => Finding(HasOwner(w.nas, sourceMarker, w.job.owner), MoveData)
    case MovedSize => Finding(HasSize(w.nas, target, w.job.size), MarkerProbe)
    case MarkerProbe => Finding(marker !in w.nas, MoveMarker)
    case MovedOwner => Finding(HasOwner(w.nas, marker, w.job.owner), SourceGone)
    case SourceGone => Finding(w.source !in w.nas, MarkerGone)
    case _ => Finding(sourceMarker !in w.nas, CommitMoved)
  }

  /** Raise an error, or reject, or go on. */
  function Judge(a: Answer, found: Finding): Pc {
    if a != Ok then Raised(a) else if found.ok then found.next else Rejecting
  }

  function ProbeTargetStep(w: World, op: Operation, a: Answer): State {
    State(w, if a != Ok then Raised(a)
             else if TargetIn(w.job, op.folder) in w.nas then ProbeSource else MoveProbe)
  }

  function CommitMovedStep(w: World, op: Operation, a: Answer): State {
    if a != Ok then State(w, Releasing)
    else State(w.(operation := Some(op.(status := MovedFile, target := Some(TargetIn(w.job, op.folder))))), LookUpLink)
  }

  function LookUpLinkStep(w: World, op: Operation, a: Answer): State {
    var found := FindLink(w.links, TargetIn(w.job, op.folder));
    State(w, if a != Ok then Releasing
             else if found.Some? then CommitLinked(found.value) else CreateLink)
  }

  function Shared(w: World, op: Operation, url: string): World {
    w.(links := w.links + [Link(url, TargetIn(w.job, op.folder))])
  }

  function CreateLinkStep(w: World, op: Operation, a: Answer, freshUrl: string): State {
    match a
    case Ok => State(Shared(w, op, freshUrl), CommitLinked(freshUrl))
    case Lost => State(Shared(w, op, freshUrl), Releasing)
    case _ => State(w, Releasing)
  }

  function CommitLinkedStep(w: World, op: Operation, a: Answer, url: string): State {
    if a != Ok then State(w, Releasing)
    else State(w.(operation := Some(op.(status := Linked, url := Some(url)))), WriteCard)
  }

  function WriteCardStep(w: World, op: Operation, a: Answer): State {
    if op.url.None? || (a != Ok && a != Lost) then State(w, Releasing)
    else State(w.(card := {op.url.value}), if a == Ok then ReadCard else Releasing)
  }

  function ReadCardStep(w: World, op: Operation, a: Answer): State {
    if a != Ok || op.url.None? then State(w, Releasing)
    else if op.url.value in w.card then State(w.(readBack := true), CommitNotion)
    else State(w, Rejecting)
  }

  function CommitNotionStep(w: World, op: Operation, a: Answer): State {
    if a != Ok then State(w, Releasing)
    else State(w.(operation := Some(op.(status := NotionUpdated))), Swap)
  }

  function RejectStep(w: World, op: Operation, a: Answer): State {
    if a != Ok then State(w, Idle)
    else State(w.(operation := Some(op.(status := Failed)), failedOnce := true, leaseUntil := 0), Idle)
  }

  function ReleaseStep(w: World, a: Answer): State {
    State(if a == Ok then w.(leaseUntil := 0) else w, Idle)
  }

  /** The looks at the NAS. */
  predicate Inspects(pc: Pc) {
    pc in {ProbeSource, VerifySize, VerifyOwner, MoveProbe, MoveSize, MoveOwner, MovedSize, MarkerProbe,
           MovedOwner, SourceGone, MarkerGone}
  }

  /** From the moved file to the card that shows its link. */
  predicate Shares(pc: Pc) {
    pc in {CommitMoved, LookUpLink, CreateLink, WriteCard, ReadCard, CommitNotion} || pc.CommitLinked?
  }

  function SharingStep(w: World, op: Operation, pc: Pc, a: Answer, freshUrl: string): State
    requires Shares(pc)
  {
    match pc
    case CommitMoved => CommitMovedStep(w, op, a)
    case LookUpLink => LookUpLinkStep(w, op, a)
    case CreateLink => CreateLinkStep(w, op, a, freshUrl)
    case CommitLinked(url) => CommitLinkedStep(w, op, a, url)
    case WriteCard => WriteCardStep(w, op, a)
    case ReadCard => ReadCardStep(w, op, a)
    case CommitNotion => CommitNotionStep(w, op, a)
  }

  function MovingStep(w: World, op: Operation, pc: Pc, a: Answer): State
    requires !Inspects(pc) && !Shares(pc)
  {
    match pc
    case Idle => State(w, Idle)
    case ChooseTarget => ChooseTargetStep(w, op, a)
    case ProbeTarget => ProbeTargetStep(w, op, a)
    case MoveData => MoveStep(w, a, Move(w.source, op.folder), MovedSize)
    case MoveMarker => MoveStep(w, a, Move(MarkerIn(w.job, w.source.folder), op.folder), MovedOwner)
    case Swap => SwapStep(w, op, a)
    case Rejecting => RejectStep(w, op, a)
    case Releasing => ReleaseStep(w, a)
  }

  /** One request or one commit of the attempt in flight. */
  function Advance(s: State, a: Answer, freshUrl: string): State {
    if s.w.operation.None? then s
    else
      var op := s.w.operation.value;
      if Inspects(s.pc) then State(s.w, Judge(a, Inspect(s.w, op, s.pc)))
      else if Shares(s.pc) then SharingStep(s.w, op, s.pc, a, freshUrl)
      else MovingStep(s.w, op, s.pc, a)
  }

  datatype Event =
    | BeginAttempt(folder: string, expectedVersion: nat)
    | Next(answer: Answer, freshUrl: string)
    | CutOff
    | Wait(seconds: nat)
    | LateMove(i: nat)            // the NAS gets round to a move whose answer was not awaited
    | OthersCreate(path: Path, id: nat, size: nat)
    | OthersShare(path: Path, url: string)
    | OthersEditCard(urls: set<string>)
    | OthersPlace(path: Path)     // another recording gets an artifact there
    | OthersBumpVersion

  /** What happens beside the attempt in flight. */
  function Meanwhile(w: World, e: Event): World {
    match e
    case Wait(seconds) => w.(now := w.now + seconds)
    case LateMove(i) =>
      if i >= |w.late| then w else Performed(w, w.late[i]).(late := w.late[..i] + w.late[i + 1..])
    case OthersCreate(path, id, size) =>
      if path in w.nas then w else w.(nas := w.nas[path := Item(Unrelated(id), size)])
    case OthersShare(path, url) =>
      if path.name == Data(w.job.filename) then w else w.(links := w.links + [Link(url, path)])
    case OthersEditCard(urls) => w.(card := urls)
    case OthersPlace(path) =>
      if InHistory(w.artifacts, path) then w else w.(elsewhere := w.elsewhere + {path})
    case _ => w
  }

  function Step(s: State, e: Event): State {
    match e
    case BeginAttempt(folder, expectedVersion) => Begin(s, folder, expectedVersion)
    case Next(a, freshUrl) => Advance(s, a, freshUrl)
    case CutOff => State(s.w, Idle)
    case OthersBumpVersion =>
      if s.pc != Idle then s
      else State(s.w.(recording := s.w.recording.(version := s.w.recording.version + 1)), Idle)
    case _ => State(Meanwhile(s.w, e), s.pc)
  }

  function Run(s: State, events: seq<Event>): State
    decreases |events|
  {
    if events == [] then s else Run(Step(s, events[0]), events[1..])
  }

  /* ---- The objects that take the steps ---- */

  class Saga {
    const job: Job
    var nas: Nas
    var late: seq<Move>
    var links: seq<Link>
    var card: set<string>
    var recording: Recording
    var artifacts: seq<Artifact>
    var operation: Option<Operation>
    var elsewhere: set<Path>
    var leaseUntil: nat
    var now: nat
    var pc: Pc
    var source: Path
    ghost var requests: nat
    ghost var moves: nat
    ghost var failedOnce: bool
    ghost var readBack: bool

    ghost function Outside(): World
      reads this
    {
      World(job, nas, late, links, card, recording, artifacts, operation, elsewhere, leaseUntil, now, source,
            requests, moves, failedOnce, readBack)
    }

    ghost function View(): State
      reads this
    {
      State(Outside(), pc)
    }

    constructor (job: Job, nas: Nas, links: seq<Link>, card: set<string>, recording: Recording,
                 artifacts: seq<Artifact>, elsewhere: set<Path>)
      ensures View() == State(World(job, nas, [], links, card, recording, artifacts, None, elsewhere, 0, 0,
                                    recording.filePath, 0, 0, false, false), Idle)
    {
      this.job, this.nas, this.late, this.links, this.card := job, nas, [], links, card;
      this.recording, this.artifacts, operation, this.elsewhere := recording, artifacts, None, elsewhere;
      leaseUntil, now, pc, source := 0, 0, Idle, recording.filePath;
      requests, moves, failedOnce, readBack := 0, 0, false, false;
    }

    /** The checks, in their order. */
    method CheckRequest(folder: string, expectedVersion: nat) returns (begun: Begun)
      ensures begun == BeginResult(Outside(), folder, expectedVersion)
    {
      if operation.Some? && operation.value.status.Completed? {
        return Replayed;
      }
      if operation.Some?
         && (operation.value.folder != folder || operation.value.expectedVersion != expectedVersion) {
        return BadInputs;
      }
      if leaseUntil > now {
        return Busy;
      }
      if recording.version != expectedVersion {
        return Stale;
      }
      if !recording.reroutable {
        return NotReroutable;
      }
      var active := ActiveAt(artifacts);
      begun := if active.None? then NoArtifact else Started;
    }

    method BeginAttempt(folder: string, expectedVersion: nat) returns (begun: Begun)
      requires pc == Idle
      modifies this`operation, this`leaseUntil, this`pc, this`source
      ensures begun == BeginResult(old(Outside()), folder, expectedVersion)
      ensures View() == Begin(old(View()), folder, expectedVersion)
    {
      begun := CheckRequest(folder, expectedVersion);
      if begun != Started {
        return;
      }
      if operation.None? {
        operation := Some(Operation(folder, expectedVersion, Pending, None, None));
      }
      leaseUntil := now + LEASE;
      source := ActiveAt(artifacts).value;
      pc := ChooseTarget;
    }

    /** A move without overwrite: what stands at the destination stays. */
    method Perform(m: Move) returns (done: bool)
      modifies this`nas, this`moves
      ensures done == CanMove(old(nas), m)
      ensures Outside() == Performed(old(Outside()), m)
    {
      done := m.source in nas && Landing(m) !in nas;
      if done {
        nas := nas[Landing(m) := nas[m.source]] - {m.source};
        if m.source.name.Data? {
          moves := moves + 1;
        }
      }
    }

    method StartMove(a: Answer, m: Move, next: Pc)
      modifies this`nas, this`late, this`pc, this`requests, this`moves
      ensures View() == MoveStep(old(Outside()), a, m, next)
    {
      if m.source.name.Data? {
        requests := requests + 1;
      }
      pc := Releasing;
      if a == Ok || a == Lost {
        var done := Perform(m);
        if done && a == Ok {
          pc := next;
        }
      } else if a == Late {
        late := late + [m];
      }
    }

    /** The phase tests at the head of the saga; a failed operation passes all of them. */
    method ChooseTargetPath(op: Operation, a: Answer)
      requires operation == Some(op)
      modifies this`operation, this`pc
      ensures View() == ChooseTargetStep(old(Outside()), op, a)
    {
      var intended := TargetIn(job, op.folder);
      if a != Ok {
        pc := Raised(a);
      } else if op.status == Pending {
        if op.target.None? {
          operation := Some(op.(target := Some(intended)));
          pc := ProbeTarget;
        } else {
          pc := if op.target.value == intended then ProbeTarget else Rejecting;
        }
      } else if op.status == MovedFile {
        pc := if op.target.Some? then LookUpLink else Rejecting;
      } else if op.target.None? || op.url.None? {
        pc := Rejecting;
      } else {
        pc := if op.status == Linked then WriteCard else Swap;
      }
    }

    /** A phase checkpoint: the next step once the row is committed, nothing otherwise. */
    method Checkpoint(row: Operation, a: Answer, next: Pc)
      modifies this`operation, this`pc
      ensures View() == if a == Ok then State(old(Outside()).(operation := Some(row)), next)
                        else State(old(Outside()), Releasing)
    {
      if a == Ok {
        operation := Some(row);
        pc := next;
      } else {
        pc := Releasing;
      }
    }

    method LookUpPublicLink(op: Operation, a: Answer)
      modifies this`pc
      ensures View() == LookUpLinkStep(old(Outside()), op, a)
    {
      if a != Ok {
        pc := Releasing;
        return;
      }
      var found := FindLink(links, TargetIn(job, op.folder));
      match found
      case Some(url) => pc := CommitLinked(url);
      case None => pc := CreateLink;
    }

    method CreatePublicLink(op: Operation, a: Answer, freshUrl: string)
      modifies this`links, this`pc
      ensures View() == CreateLinkStep(old(Outside()), op, a, freshUrl)
    {
      if a == Ok || a == Lost {
        links := links + [Link(freshUrl, TargetIn(job, op.folder))];
      }
      pc := if a == Ok then CommitLinked(freshUrl) else Releasing;
    }

    method ReplaceCardLink(op: Operation, a: Answer)
      modifies this`card, this`pc
      ensures View() == WriteCardStep(old(Outside()), op, a)
    {
      if op.url.None? || (a != Ok && a != Lost) {
        pc := Releasing;
      } else {
        card := {op.url.value};
        pc := if a == Ok then ReadCard else Releasing;
      }
    }

    method ReadCardBack(op: Operation, a: Answer)
      modifies this`pc, this`readBack
      ensures View() == ReadCardStep(old(Outside()), op, a)
    {
      if a != Ok || op.url.None? {
        pc := Releasing;
      } else if op.url.value in card {
        readBack := true;
        pc := CommitNotion;
      } else {
        pc := Rejecting;
      }
    }

    method CommitSwap(op: Operation)
      requires operation == Some(op) && op.target.Some? && op.url.Some?
      modifies this`artifacts, this`recording, this`operation, this`leaseUntil
      ensures Outside() == Swapped(old(Outside()), op)
    {
      artifacts := Deactivated(artifacts, source) + [Artifact(op.target.value, op.url.value, true)];
      recording := recording.(version := recording.version + 1, filePath := op.target.value,
                              shareUrl := op.url.value);
      operation := Some(op.(status := Completed));
      leaseUntil := 0;
    }

    method SwapArtifact(op: Operation, a: Answer)
      requires operation == Some(op)
      modifies this`artifacts, this`recording, this`operation, this`leaseUntil, this`pc
      ensures View() == SwapStep(old(Outside()), op, a)
    {
      if op.target.None? || op.url.None? {
        pc := Rejecting;
        return;
      }
      pc := Idle;
      if a == Ok && !InHistory(artifacts, op.target.value) && op.target.value !in elsewhere {
        CommitSwap(op);
      }
    }

    method Reject(op: Operation, a: Answer)
      modifies this`operation, this`leaseUntil, this`pc, this`failedOnce
      ensures View() == RejectStep(old(Outside()), op, a)
    {
      if a == Ok {
        operation := Some(op.(status := Failed));
        failedOnce := true;
        leaseUntil := 0;
      }
      pc := Idle;
    }

    method InspectNas(op: Operation, a: Answer)
      modifies this`pc
      ensures View() == State(old(Outside()), Judge(a, Inspect(old(Outside()), op, old(pc))))
    {
      var target := TargetIn(job, op.folder);
      var marker := MarkerIn(job, op.folder);
      var sourceMarker := MarkerIn(job, source.folder);
      var ok, next;
      match pc {
        case ProbeSource => ok, next := source !in nas, VerifySize;
        case VerifySize => ok, next := HasSize(nas, target, job.size), VerifyOwner;
        case VerifyOwner => ok, next := HasOwner(nas, marker, job.owner), CommitMoved;
        case MoveProbe => ok, next := target !in nas, MoveSize;
        case MoveSize => ok, next := HasSize(nas, source, job.size), MoveOwner;
        case MoveOwner => ok, next := HasOwner(nas, sourceMarker, job.owner), MoveData;
        case MovedSize => ok, next := HasSize(nas, target, job.size), MarkerProbe;
        case MarkerProbe => ok, next := marker !in nas, MoveMarker;
        case MovedOwner => ok, next := HasOwner(nas, marker, job.owner), SourceGone;
        case SourceGone => ok, next := source !in nas, MarkerGone;
        case _ => ok, next := sourceMarker !in nas, CommitMoved;
      }
      if a != Ok {
        pc := Raised(a);
      } else if ok {
        pc := next;
      } else {
        pc := Rejecting;
      }
    }

    method AdvanceSharing(op: Operation, a: Answer, freshUrl: string)
      requires operation == Some(op) && Shares(pc)
      modifies this`links, this`card, this`operation, this`pc, this`readBack
      ensures View() == SharingStep(old(Outside()), op, old(pc), a, freshUrl)
    {
      match pc
      case CommitMoved =>
        Checkpoint(op.(status := MovedFile, target := Some(TargetIn(job, op.folder))), a, LookUpLink);
      case LookUpLink => LookUpPublicLink(op, a);
      case CreateLink => CreatePublicLink(op, a, freshUrl);
      case CommitLinked(url) => Checkpoint(op.(status := Linked, url := Some(url)), a, WriteCard);
      case WriteCard => ReplaceCardLink(op, a);
      case ReadCard => ReadCardBack(op, a);
      case CommitNotion => Checkpoint(op.(status := NotionUpdated), a, Swap);
    }

    method AdvanceMoving(op: Operation, a: Answer)
      requires operation == Some(op) && !Shares(pc) && !Inspects(pc)
      modifies this
      ensures View() == MovingStep(old(Outside()), op, old(pc), a)
    {
      match pc
      case Idle =>
      case ChooseTarget => ChooseTargetPath(op, a);
      case ProbeTarget =>
        pc := if a != Ok then Raised(a)
        else if TargetIn(job, op.folder) in nas then ProbeSource else MoveProbe;
      case MoveData => StartMove(a, Move(source, op.folder), MovedSize);
      case MoveMarker => StartMove(a, Move(MarkerIn(job, source.folder), op.folder), MovedOwner);
      case Swap => SwapArtifact(op, a);
      case Rejecting => Reject(op, a);
      case Releasing =>
        if a == Ok {
          leaseUntil := 0;
        }
        pc := Idle;
    }

    /** One request or one commit. */
    method AdvanceAttempt(a: Answer, freshUrl: string)
      modifies this
      ensures View() == Advance(old(View()), a, freshUrl)
    {
      if operation.None? {
        return;
      }
      if Inspects(pc) {
        InspectNas(operation.value, a);
      } else if Shares(pc) {
        AdvanceSharing(operation.value, a, freshUrl);
      } else {
        AdvanceMoving(operation.value, a);
      }
    }
  }
}

/**
  A Synology transfer that is cut off and resumed (app/scheduler/cron.py, app/services/transfer.py,
  app/tools/synology.py): upload, commit, share, commit, for one recording. Each attempt runs the upload
  protocol of SynologyUpload at the chosen target and looks for a public link before it creates one.

  The lease lets one attempt run at a time. It may be cut off between any call and its commit, its
  upload call may still finish afterwards, and a failed transfer may be sent to the same or to another
  target. Other recordings upload wherever they like, under owner records of their own.
*/
module TransferRecovery {
  import opened Values
  import U = SynologyUpload

  /** `own` marks the links that this recording's attempts made. */
  datatype Link = Link(url: string, path: string, own: bool)

  datatype Status = Started | Uploaded | Linked | Stopped

  datatype Row = Row(status: Status, target: string, path: Option<string>, url: Option<string>)

  /** Where the attempt stands. `Uploading` names its call among the calls at the target. */
  datatype Pc = Idle | Uploading(call: nat) | CommitUpload | LookUp | Create | CommitLink(url: string)

  datatype World = World(
    recording: string, nas: map<string, U.System>, links: seq<Link>, row: Row,
    tried: set<string>)   // history: every target this recording was sent to

  datatype State = State(w: World, pc: Pc)

  function At(nas: map<string, U.System>, path: string): U.System {
    if path in nas then nas[path] else U.System(U.Slot(None, None), [])
  }

  function FindLink(links: seq<Link>, path: string): Option<string> {
    if links == [] then None
    else if links[0].path == path then Some(links[0].url)
    else FindLink(links[1..], path)
  }

  datatype Event =
    | Begin(identity: string, size: Option<nat>, length: nat)
    | UploadStep(outcome: Outcome)
    | Next(outcome: Outcome, freshUrl: string)  // the next commit or link request
    | CutOff
    | Retry(target: string)                     // after a failure or a collision
    | Elsewhere(path: string, e: U.Event)       // other recordings, and calls that outlived their attempt
    | OthersShare(path: string, url: string)

  function OnNas(w: World, path: string, e: U.Event): World {
    w.(nas := w.nas[path := U.Step(At(w.nas, path), e)])
  }

  /** A resumed attempt starts from the committed status. */
  function BeginStep(s: State, identity: string, size: Option<nat>, length: nat): State {
    if s.pc != Idle then s
    else
      match s.w.row.status
      case Started =>
        var owner := U.Owner(identity, s.w.recording, size);
        State(OnNas(s.w, s.w.row.target, U.Start(owner, length)), Uploading(|At(s.w.nas, s.w.row.target).calls|))
      case Uploaded => State(s.w, LookUp)
      case _ => s
  }

  function UploadAdvance(s: State, outcome: Outcome): State {
    if !s.pc.Uploading? then s
    else
      var target := s.w.row.target;
      var w := OnNas(s.w, target, U.Advance(s.pc.call, outcome));
      var calls := At(w.nas, target).calls;
      if s.pc.call >= |calls| then s
      else
        match calls[s.pc.call].pc
        case Returned => State(w, CommitUpload)
        case Failed => State(w.(row := w.row.(status := Stopped)), Idle)
        case _ => State(w, s.pc)
  }

  function LinkStep(s: State, outcome: Outcome, freshUrl: string): State {
    var w, row := s.w, s.w.row;
    match s.pc
    case CommitUpload =>
      if outcome.Fine? then State(w.(row := row.(status := Uploaded, path := Some(row.target))), LookUp)
      else State(w, Idle)
    case LookUp =>
      if row.path.None? then State(w, Idle)
      else if !outcome.Fine? then State(w.(row := row.(status := Stopped)), Idle)
      else
        var found := FindLink(w.links, row.path.value);
        State(w, if found.Some? then CommitLink(found.value) else Create)
    case Create =>
      if row.path.None? then State(w, Idle)
      else
        var link := Link(freshUrl, row.path.value, true);
        (match outcome
         case Fine => State(w.(links := w.links + [link]), CommitLink(freshUrl))
         case Broken => State(w.(row := row.(status := Stopped)), Idle)
         case BrokenAfter(_) => State(w.(links := w.links + [link], row := row.(status := Stopped)), Idle))
    case CommitLink(url) =>
      if outcome.Fine? then State(w.(row := row.(status := Linked, url := Some(url))), Idle) else State(w, Idle)
    case _ => s
  }

  /** The attempt's own call moves only with the attempt, and nobody else speaks for the recording. */
  predicate MayHappen(s: State, path: string, e: U.Event) {
    match e
    case Start(owner, _) => owner.recordingId != s.w.recording
    case Advance(call, _) => !(s.pc == Uploading(call) && path == s.w.row.target)
    case CutOff(call) => !(s.pc == Uploading(call) && path == s.w.row.target)
  }

  function Step(s: State, e: Event): State {
    match e
    case Begin(identity, size, length) => BeginStep(s, identity, size, length)
    case UploadStep(outcome) => UploadAdvance(s, outcome)
    case Next(outcome, freshUrl) => LinkStep(s, outcome, freshUrl)
    case CutOff => State(s.w, Idle)
    case Retry(target) =>
      if s.pc == Idle && s.w.row.status.Stopped?
      then State(s.w.(row := Row(Started, target, None, None), tried := s.w.tried + {target}), Idle)
      else s
    case Elsewhere(path, u) => if MayHappen(s, path, u) then State(OnNas(s.w, path, u), s.pc) else s
    case OthersShare(path, url) =>
      if path in s.w.tried then s else State(s.w.(links := s.w.links + [Link(url, path, false)]), s.pc)
  }

  function Run(s: State, events: seq<Event>): State
    decreases |events|
  {
    if events == [] then s else Run(Step(s, events[0]), events[1..])
  }

  /* ---- The invariant ---- */

  /** The file stands under a marker of this recording, written under that very marker. */
  predicate Owned(slot: U.Slot, recording: string) {
    && slot.marker.Some? && slot.marker.value.recordingId == recording
    && slot.file.Some? && slot.file.value.writer.Upload?
    && slot.file.value.writer.owner == slot.marker.value
  }

  predicate HasOwnFile(w: World, path: string) {
    var slot := At(w.nas, path).slot;
    slot.file.Some? && slot.file.value.writer.Upload? && slot.file.value.writer.owner.recordingId == w.recording
  }

  function OwnLinks(links: seq<Link>, path: string): nat {
    if links == [] then 0
    else (if links[0].path == path && links[0].own then 1 else 0) + OwnLinks(links[1..], path)
  }

  predicate LeadsTo(links: seq<Link>, url: string, path: string) {
    exists i :: 0 <= i < |links| && links[i].url == url && links[i].path == path
  }

  /** A path this recording uploads to is one of its targets. */
  predicate SystemInv(w: World, path: string) {
    var sys := At(w.nas, path);
    && U.Inv(sys)
    && (path !in w.tried ==>
          forall i :: 0 <= i < |sys.calls| ==> sys.calls[i].owner.recordingId != w.recording)
  }

  predicate RowInv(w: World) {
    var row := w.row;
    && row.target in w.tried
    && (row.status in {Uploaded, Linked} ==> row.path.Some?)
    && (row.path.Some? ==> row.path.value == row.target && Owned(At(w.nas, row.target).slot, w.recording))
    && (row.status.Linked? ==> row.url.Some?)
    && (row.url.Some? ==> row.path.Some? && LeadsTo(w.links, row.url.value, row.path.value))
  }

  predicate PcInv(w: World, pc: Pc) {
    var sys := At(w.nas, w.row.target);
    match pc
    case Idle => true
    case Uploading(call) =>
      w.row.status.Started? && call < |sys.calls| && sys.calls[call].owner.recordingId == w.recording
    case CommitUpload => w.row.status.Started? && Owned(sys.slot, w.recording)
    case LookUp => w.row.status.Uploaded?
    case Create => w.row.status.Uploaded? && FindLink(w.links, w.row.target).None?
    case CommitLink(url) => w.row.status.Uploaded? && LeadsTo(w.links, url, w.row.target)
  }

  ghost predicate Inv(s: State) {
    && (forall path :: SystemInv(s.w, path))
    && RowInv(s.w)
    && PcInv(s.w, s.pc)
    && (forall path :: OwnLinks(s.w.links, path) <= if path in s.w.tried then 1 else 0)
  }

  /** A recording sent to its first target, at which it left nothing yet. */
  ghost predicate Initial(s: State) {
    && s.pc == Idle && s.w.row == Row(Started, s.w.row.target, None, None) && s.w.tried == {s.w.row.target}
    && (forall path :: OwnLinks(s.w.links, path) == 0)
    && forall path :: U.Untouched(At(s.w.nas, path).slot) && At(s.w.nas, path).calls == []
  }

  /* ---- The NAS ---- */

  /** A request on the NAS keeps every path in order, and takes nothing away that is stored. */
  lemma OnNasKeepsSystems(w: World, path: string, e: U.Event)
    requires forall p :: SystemInv(w, p)
    requires e.Start? && path !in w.tried ==> e.owner.recordingId != w.recording
    ensures forall p :: SystemInv(OnNas(w, path, e), p)
    ensures forall p :: Owned(At(w.nas, p).slot, w.recording) ==> At(OnNas(w, path, e).nas, p).slot == At(w.nas, p).slot
  {
    var v := OnNas(w, path, e);
    assert SystemInv(w, path);
    U.StepKeepsInv(At(w.nas, path), e);
    forall p
      ensures SystemInv(v, p)
    {
      assert SystemInv(w, p);
    }
  }

  /** Own files stand only where the recording was sent. */
  lemma OwnFileAtTarget(w: World, path: string)
    requires SystemInv(w, path) && HasOwnFile(w, path)
    ensures path in w.tried
  {
  }

  lemma {:induction false} HasOwnFileStays(s: State, e: Event, path: string)
    requires HasOwnFile(s.w, path)
    ensures HasOwnFile(Step(s, e).w, path)
  {
  }

  /* ---- The links ---- */

  lemma {:induction false} FoundLinkLeadsThere(links: seq<Link>, path: string)
    ensures FindLink(links, path).Some? ==> LeadsTo(links, FindLink(links, path).value, path)
    ensures FindLink(links, path).None? ==> OwnLinks(links, path) == 0
  {
    if links != [] {
      FoundLinkLeadsThere(links[1..], path);
      if FindLink(links, path).Some? && links[0].path != path {
        var i :| 0 <= i < |links| - 1 && links[1..][i].url == FindLink(links, path).value && links[1..][i].path == path;
        assert links[i + 1] == links[1..][i];
      }
    }
  }

  lemma {:induction false} LinkAdded(links: seq<Link>, link: Link, path: string)
    ensures OwnLinks(links + [link], path)
            == OwnLinks(links, path) + if link.path == path && link.own then 1 else 0
    ensures link.path != path ==> FindLink(links + [link], path) == FindLink(links, path)
  {
    if links == [] {
      assert links + [link] == [link];
    } else {
      LinkAdded(links[1..], link, path);
      assert (links + [link])[1..] == links[1..] + [link];
    }
  }

  lemma LinkStaysListed(links: seq<Link>, link: Link, url: string, path: string)
    requires LeadsTo(links, url, path)
    ensures LeadsTo(links + [link], url, path)
  {
    var i :| 0 <= i < |links| && links[i].url == url && links[i].path == path;
    assert (links + [link])[i] == links[i];
  }

  /* ---- The invariant is kept ---- */

  lemma BeginKeepsInv(s: State, e: Event)
    requires Inv(s) && e.Begin?
    ensures Inv(Step(s, e))
  {
    if s.pc == Idle && s.w.row.status.Started? {
      OnNasKeepsSystems(s.w, s.w.row.target, U.Start(U.Owner(e.identity, s.w.recording, e.size), e.length));
    }
  }

  lemma UploadKeepsInv(s: State, outcome: Outcome)
    requires Inv(s)
    ensures Inv(UploadAdvance(s, outcome))
  {
    if s.pc.Uploading? {
      var u := U.Advance(s.pc.call, outcome);
      OnNasKeepsSystems(s.w, s.w.row.target, u);
      var sys := At(OnNas(s.w, s.w.row.target, u).nas, s.w.row.target);
      assert SystemInv(OnNas(s.w, s.w.row.target, u), s.w.row.target);
      assert U.CallInv(sys.slot, s.pc.call, sys.calls[s.pc.call]);
      var moved := State(OnNas(s.w, s.w.row.target, u), s.pc);
      RowStepKeepsInv(moved, UploadAdvance(s, outcome).w.row, UploadAdvance(s, outcome).pc);
    }
  }

  lemma ElsewhereKeepsInv(s: State, path: string, u: U.Event)
    requires Inv(s) && MayHappen(s, path, u)
    ensures Inv(State(OnNas(s.w, path, u), s.pc))
  {
    OnNasKeepsSystems(s.w, path, u);
  }

  lemma LinkKeepsInv(s: State, link: Link)
    requires Inv(s) && (link.own ==> FindLink(s.w.links, link.path).None? && link.path in s.w.tried)
    requires s.pc.Create? ==> link.path != s.w.row.target
    ensures Inv(State(s.w.(links := s.w.links + [link]), s.pc))
  {
    var v := s.w.(links := s.w.links + [link]);
    forall path
      ensures SystemInv(v, path) && OwnLinks(v.links, path) <= if path in v.tried then 1 else 0
    {
      assert SystemInv(s.w, path);
      LinkAdded(s.w.links, link, path);
      FoundLinkLeadsThere(s.w.links, path);
    }
    if s.w.row.url.Some? {
      LinkStaysListed(s.w.links, link, s.w.row.url.value, s.w.row.target);
    }
    LinkAdded(s.w.links, link, s.w.row.target);
    if s.pc.CommitLink? {
      LinkStaysListed(s.w.links, link, s.pc.url, s.w.row.target);
    }
  }

  /** A step that touches the row and the program point only. */
  lemma RowStepKeepsInv(s: State, row: Row, pc: Pc)
    requires Inv(s) && RowInv(s.w.(row := row)) && PcInv(s.w.(row := row), pc)
    ensures Inv(State(s.w.(row := row), pc))
  {
    forall path
      ensures SystemInv(s.w.(row := row), path)
    {
      assert SystemInv(s.w, path);
    }
  }

  lemma LinkStepKeepsInv(s: State, outcome: Outcome, freshUrl: string)
    requires Inv(s)
    ensures Inv(LinkStep(s, outcome, freshUrl))
  {
    var t := LinkStep(s, outcome, freshUrl);
    FoundLinkLeadsThere(s.w.links, s.w.row.target);
    if s.pc.Create? && !outcome.Broken? {
      var link := Link(freshUrl, s.w.row.target, true);
      var idle := State(s.w, Idle);
      LinkKeepsInv(idle, link);
      var w := s.w.(links := s.w.links + [link]);
      assert w.links[|s.w.links|] == link;
      RowStepKeepsInv(State(w, Idle), t.w.row, t.pc);
    } else {
      RowStepKeepsInv(s, t.w.row, t.pc);
    }
  }

  lemma RetryKeepsInv(s: State, target: string)
    requires Inv(s)
    ensures Inv(Step(s, Retry(target)))
  {
    var t := Step(s, Retry(target));
    forall path
      ensures SystemInv(t.w, path)
    {
      assert SystemInv(s.w, path);
    }
  }

  lemma StepKeepsInv(s: State, e: Event)
    requires Inv(s)
    ensures Inv(Step(s, e))
  {
    match e
    case Begin(_, _, _) => BeginKeepsInv(s, e);
    case UploadStep(outcome) => UploadKeepsInv(s, outcome);
    case Next(outcome, freshUrl) => LinkStepKeepsInv(s, outcome, freshUrl);
    case CutOff => RowStepKeepsInv(s, s.w.row, Idle);
    case Retry(target) => RetryKeepsInv(s, target);
    case Elsewhere(path, u) =>
      if MayHappen(s, path, u) {
        ElsewhereKeepsInv(s, path, u);
      }
    case OthersShare(path, url) =>
      if path !in s.w.tried {
        LinkKeepsInv(s, Link(url, path, false));
      }
  }

  lemma {:induction false} RunKeepsInv(s: State, events: seq<Event>)
    requires Inv(s)
    ensures Inv(Run(s, events))
    ensures Run(s, events).w.recording == s.w.recording && s.w.tried <= Run(s, events).w.tried
    decreases |events|
  {
    if events != [] {
      StepKeepsInv(s, events[0]);
      StepKeepsRecording(s, events[0]);
      RunKeepsInv(Step(s, events[0]), events[1..]);
    }
  }

  lemma StepKeepsRecording(s: State, e: Event)
    ensures Step(s, e).w.recording == s.w.recording && s.w.tried <= Step(s, e).w.tried
  {
    match e
    case Begin(_, _, _) =>
    case UploadStep(_) =>
    case Next(_, _) =>
    case CutOff =>
    case Retry(_) =>
    case Elsewhere(_, _) =>
    case OthersShare(_, _) =>
  }

  lemma InitialInv(s: State)
    requires Initial(s)
    ensures Inv(s)
  {
    forall path
      ensures SystemInv(s.w, path) && OwnLinks(s.w.links, path) <= if path in s.w.tried then 1 else 0
    {
      assert U.Untouched(At(s.w.nas, path).slot) && At(s.w.nas, path).calls == [];
    }
  }

  /* ---- What every run guarantees ---- */

  /** A recording counted as uploaded has its file, under its own marker; a stored link leads to that
      file; and no target ever gets a second link from this recording. */
  lemma StoredFileAndLinkAreOwn(s: State, events: seq<Event>)
    requires Initial(s)
    ensures var w := Run(s, events).w;
            && (w.row.status in {Uploaded, Linked} ==>
                  w.row.path == Some(w.row.target) && Owned(At(w.nas, w.row.target).slot, w.recording))
            && (w.row.status.Linked? ==>
                  w.row.url.Some? && LeadsTo(w.links, w.row.url.value, w.row.target))
            && (forall path :: OwnLinks(w.links, path) <= 1)
  {
    InitialInv(s);
    RunKeepsInv(s, events);
    var w := Run(s, events).w;
    forall path
      ensures OwnLinks(w.links, path) <= 1
    {
      assert OwnLinks(w.links, path) <= if path in w.tried then 1 else 0;
    }
  }

  /** However often the transfer is cut off and resumed, files of the recording stand only at targets
      it was sent to. */
  lemma OwnFilesStandAtTargets(s: State, events: seq<Event>, path: string)
    requires Initial(s)
    ensures HasOwnFile(Run(s, events).w, path) ==> path in Run(s, events).w.tried
  {
    InitialInv(s);
    RunKeepsInv(s, events);
    if HasOwnFile(Run(s, events).w, path) {
      assert SystemInv(Run(s, events).w, path);
      OwnFileAtTarget(Run(s, events).w, path);
    }
  }

  predicate KeepsTarget(target: string, events: seq<Event>) {
    forall i :: 0 <= i < |events| ==> events[i].Retry? ==> events[i].target == target
  }

  lemma {:induction false} SameTargetTried(s: State, events: seq<Event>)
    requires KeepsTarget(s.w.row.target, events)
    ensures Run(s, events).w.tried <= s.w.tried + {s.w.row.target}
    decreases |events|
  {
    if events != [] {
      var t := Step(s, events[0]);
      assert t.w.row.target == s.w.row.target;
      SameTargetTried(t, events[1..]);
    }
  }

  /** So a transfer whose target is never changed leaves at most one file and one link behind. */
  lemma OneFileAndOneLink(s: State, events: seq<Event>, p: string, q: string)
    requires Initial(s) && KeepsTarget(s.w.row.target, events)
    ensures var w := Run(s, events).w;
            && (HasOwnFile(w, p) && HasOwnFile(w, q) ==> p == q)
            && (OwnLinks(w.links, p) > 0 && OwnLinks(w.links, q) > 0 ==> p == q && OwnLinks(w.links, p) == 1)
  {
    SameTargetTried(s, events);
    OwnFilesStandAtTargets(s, events, p);
    OwnFilesStandAtTargets(s, events, q);
    InitialInv(s);
    RunKeepsInv(s, events);
    var w := Run(s, events).w;
    assert OwnLinks(w.links, p) <= if p in w.tried then 1 else 0;
    assert OwnLinks(w.links, q) <= if q in w.tried then 1 else 0;
  }

  lemma {:induction false} OwnFileStaysOverRun(s: State, events: seq<Event>, path: string)
    requires HasOwnFile(s.w, path)
    ensures HasOwnFile(Run(s, events).w, path)
    decreases |events|
  {
    if events != [] {
      HasOwnFileStays(s, events[0], path);
      OwnFileStaysOverRun(Step(s, events[0]), events[1..], path);
    }
  }

  /** The condition is needed: once a file of the recording stands somewhere, a transfer that completes
      at another target leaves two of them, because nothing removes the first. */
  lemma ChangedTargetLeavesTwoFiles(s: State, before: seq<Event>, after: seq<Event>, path: string)
    requires Initial(s)
    requires HasOwnFile(Run(s, before).w, path)
    requires var w := Run(Run(s, before), after).w; w.row.status in {Uploaded, Linked} && w.row.target != path
    ensures var w := Run(Run(s, before), after).w;
            HasOwnFile(w, path) && HasOwnFile(w, w.row.target)
  {
    InitialInv(s);
    RunKeepsInv(s, before);
    RunKeepsInv(Run(s, before), after);
    OwnFileStaysOverRun(Run(s, before), after, path);
  }

  /* ---- Exactly when a second file stands ---- */

  /** A call of this recording creates its file at a path that holds none. */
  predicate CreatesOwn(sys: U.System, call: nat, outcome: Outcome, recording: string) {
    && call < |sys.calls| && sys.calls[call].pc.WriteFile? && sys.calls[call].owner.recordingId == recording
    && sys.slot.file.None? && !outcome.Broken?
  }

  /** Where an event creates a file of this recording: the attempt under way at its target, or a call that
      outlived its attempt. */
  function CreatedAt(s: State, e: Event): Option<string> {
    match e
    case UploadStep(outcome) =>
      if s.pc.Uploading? && CreatesOwn(At(s.w.nas, s.w.row.target), s.pc.call, outcome, s.w.recording)
      then Some(s.w.row.target) else None
    case Elsewhere(path, u) =>
      if MayHappen(s, path, u) && u.Advance? && CreatesOwn(At(s.w.nas, path), u.call, u.outcome, s.w.recording)
      then Some(path) else None
    case _ => None
  }

  lemma OwnFileOnNas(w: World, path: string, e: U.Event, p: string)
    ensures HasOwnFile(OnNas(w, path, e), p)
            <==> HasOwnFile(w, p)
                 || (p == path && e.Advance? && CreatesOwn(At(w.nas, path), e.call, e.outcome, w.recording))
  {
  }

  lemma OwnFilesGrowExactly(s: State, e: Event, p: string)
    requires Inv(s)
    ensures HasOwnFile(Step(s, e).w, p) <==> HasOwnFile(s.w, p) || CreatedAt(s, e) == Some(p)
  {
    match e
    case Begin(identity, size, length) =>
      OwnFileOnNas(s.w, s.w.row.target, U.Start(U.Owner(identity, s.w.recording, size), length), p);
    case UploadStep(outcome) =>
      if s.pc.Uploading? {
        OwnFileOnNas(s.w, s.w.row.target, U.Advance(s.pc.call, outcome), p);
      }
    case Next(_, _) =>
    case CutOff =>
    case Retry(_) =>
    case Elsewhere(path, u) => OwnFileOnNas(s.w, path, u, p);
    case OthersShare(_, _) =>
  }

  /** A file is created while another one of the recording stands somewhere else. */
  ghost predicate CreatesBeside(s: State, e: Event) {
    CreatedAt(s, e).Some? && exists q :: q != CreatedAt(s, e).value && HasOwnFile(s.w, q)
  }

  ghost predicate NothingCreatesBeside(s: State, events: seq<Event>)
    decreases |events|
  {
    events == [] || (!CreatesBeside(s, events[0]) && NothingCreatesBeside(Step(s, events[0]), events[1..]))
  }

  ghost predicate OneOwnFile(w: World) {
    forall p, q :: HasOwnFile(w, p) && HasOwnFile(w, q) ==> p == q
  }

  lemma SecondFileExactlyBeside(s: State, e: Event)
    requires Inv(s) && OneOwnFile(s.w)
    ensures !OneOwnFile(Step(s, e).w) <==> CreatesBeside(s, e)
  {
    forall p
      ensures HasOwnFile(Step(s, e).w, p) <==> HasOwnFile(s.w, p) || CreatedAt(s, e) == Some(p)
    {
      OwnFilesGrowExactly(s, e, p);
    }
    if CreatesBeside(s, e) {
      var q :| q != CreatedAt(s, e).value && HasOwnFile(s.w, q);
      assert HasOwnFile(Step(s, e).w, q) && HasOwnFile(Step(s, e).w, CreatedAt(s, e).value);
    }
  }

  lemma {:induction false} OneFileExactly(s: State, events: seq<Event>)
    requires Inv(s) && OneOwnFile(s.w)
    ensures OneOwnFile(Run(s, events).w) <==> NothingCreatesBeside(s, events)
    decreases |events|
  {
    if events != [] {
      var t := Step(s, events[0]);
      StepKeepsInv(s, events[0]);
      SecondFileExactlyBeside(s, events[0]);
      if CreatesBeside(s, events[0]) {
        var p, q :| HasOwnFile(t.w, p) && HasOwnFile(t.w, q) && p != q;
        OwnFileStaysOverRun(t, events[1..], p);
        OwnFileStaysOverRun(t, events[1..], q);
      } else {
        OneFileExactly(t, events[1..]);
      }
    }
  }

  /** Through any retries, to the same or to other targets: the NAS ends with at most one file of the
      recording exactly when no call of its creates one while another stands at another target; nothing
      looks for that one. */
  lemma OneFileExactlyWithoutSecondCreation(s: State, events: seq<Event>)
    requires Initial(s)
    ensures OneOwnFile(Run(s, events).w) <==> NothingCreatesBeside(s, events)
  {
    InitialInv(s);
    OneFileExactly(s, events);
  }

  /* ---- What an attempt ends in ---- */

  /** Upload requests that are all answered. */
  function Uploads(s: State, n: nat): State
    decreases n
  {
    if n == 0 then s else Uploads(Step(s, UploadStep(Fine)), n - 1)
  }

  lemma {:induction false} NothingToUpload(s: State, n: nat)
    requires !s.pc.Uploading?
    ensures Uploads(s, n) == s
    decreases n
  {
    if n > 0 {
      NothingToUpload(s, n - 1);
    }
  }

  lemma {:induction false} EndedCallIsStable(sys: U.System, i: nat, n: nat)
    requires i < |sys.calls| && U.Ended(sys.calls[i].pc)
    ensures U.Run(sys, U.Answered(i, n)) == sys
    decreases n
  {
    if n == 0 {
      assert U.Answered(i, 0) == [];
    } else {
      U.FirstAnswer(sys, i, n);
      assert U.Step(sys, U.Advance(i, Fine)) == sys;
      EndedCallIsStable(sys, i, n - 1);
    }
  }

  /** The attempt goes where its call goes. */
  lemma {:induction false} UploadsFollowTheCall(s: State, call: nat, n: nat, end: U.System)
    requires s.pc == Uploading(call)
    requires end == U.Run(At(s.w.nas, s.w.row.target), U.Answered(call, n))
    requires call < |At(s.w.nas, s.w.row.target).calls| && !U.Ended(At(s.w.nas, s.w.row.target).calls[call].pc)
    requires call < |end.calls| && U.Ended(end.calls[call].pc)
    ensures var w := s.w.(nas := s.w.nas[s.w.row.target := end]);
            Uploads(s, n) == if end.calls[call].pc.Returned? then State(w, CommitUpload)
                             else State(w.(row := w.row.(status := Stopped)), Idle)
    decreases n
  {
    var sys := At(s.w.nas, s.w.row.target);
    if n > 0 {
      U.FirstAnswer(sys, call, n);
      var next := U.Step(sys, U.Advance(call, Fine));
      var t := Step(s, UploadStep(Fine));
      if U.Ended(next.calls[call].pc) {
        EndedCallIsStable(next, call, n - 1);
        NothingToUpload(t, n - 1);
      } else {
        UploadsFollowTheCall(t, call, n - 1, end);
        assert s.w.nas[s.w.row.target := next][s.w.row.target := end] == s.w.nas[s.w.row.target := end];
      }
    }
  }

  /** An attempt that nothing disturbs uploads exactly to a target that is free or its own and not spoilt, where it
      leaves its marker and the file; elsewhere it changes nothing and stops the transfer. */
  lemma UndisturbedUploadEndsAs(s: State, identity: string, size: Option<nat>, length: nat, n: nat)
    requires s.pc == Idle && s.w.row.status == Started && n >= 6
    ensures var owner := U.Owner(identity, s.w.recording, size);
            var before := At(s.w.nas, s.w.row.target);
            var t := Uploads(Step(s, Begin(identity, size, length)), n);
            var after := At(t.w.nas, s.w.row.target);
            && t.w.links == s.w.links && t.w.tried == s.w.tried
            && (forall p :: p != s.w.row.target ==> At(t.w.nas, p) == At(s.w.nas, p))
            && if U.Usable(before.slot, owner) then
                 && t.pc == CommitUpload && t.w.row == s.w.row
                 && U.Filled(before.slot, after.slot, |before.calls|, U.Call(owner, length, U.Returned))
               else
                 t.pc == Idle && t.w.row == s.w.row.(status := Stopped) && after.slot == before.slot
  {
    var owner := U.Owner(identity, s.w.recording, size);
    var before := At(s.w.nas, s.w.row.target);
    U.StartedCallEnds(before, owner, length, n);
    var started := U.Step(before, U.Start(owner, length));
    var begun := Step(s, Begin(identity, size, length));
    assert At(begun.w.nas, s.w.row.target) == started;
    UploadsFollowTheCall(begun, |before.calls|, n, U.Run(started, U.Answered(|before.calls|, n)));
  }

  /** Commits and link requests that go well. */
  function Shares(s: State, url: string): State {
    Step(Step(Step(Step(s, Next(Fine, url)), Next(Fine, url)), Next(Fine, url)), Next(Fine, url))
  }

  /** An uploaded file is linked: by the link that is found, or else by one new link of the recording. */
  lemma UndisturbedSharingEndsAs(s: State, url: string)
    requires s.pc == CommitUpload
    ensures var target, found := s.w.row.target, FindLink(s.w.links, s.w.row.target);
            var t := Shares(s, url);
            && t.pc == Idle && t.w.nas == s.w.nas && t.w.tried == s.w.tried
            && t.w.row == Row(Linked, target, Some(target), Some(if found.Some? then found.value else url))
            && t.w.links == if found.Some? then s.w.links else s.w.links + [Link(url, target, true)]
  {
  }

  /** A link request that fails stops the transfer, and a lost one leaves its link; a commit that fails, like a
      cut-off, leaves the row as it is. */
  lemma FailedSharingEndsAs(s: State, o: Outcome, url: string)
    requires Inv(s) && !o.Fine? && s.pc != Idle && !s.pc.Uploading?
    ensures var t := Step(s, Next(o, url));
            && t.pc == Idle && t.w.nas == s.w.nas && t.w.tried == s.w.tried
            && t.w.row == (if s.pc in {LookUp, Create} then s.w.row.(status := Stopped) else s.w.row)
            && t.w.links == if s.pc == Create && o.BrokenAfter? then s.w.links + [Link(url, s.w.row.target, true)]
                            else s.w.links
    ensures Step(s, CutOff) == State(s.w, Idle)
  {
  }

  /** A stopped transfer starts anew at the target it is sent to; an uploaded one goes on with its link, and nothing
      else is taken up. */
  lemma AttemptIsTakenUpExactly(s: State, target: string, identity: string, size: Option<nat>, length: nat)
    ensures Step(s, Retry(target))
            == if s.pc == Idle && s.w.row.status == Stopped
               then State(s.w.(row := Row(Started, target, None, None), tried := s.w.tried + {target}), Idle) else s
    ensures s.pc != Idle || s.w.row.status in {Linked, Stopped} ==> Step(s, Begin(identity, size, length)) == s
    ensures s.pc == Idle && s.w.row.status == Uploaded ==> Step(s, Begin(identity, size, length)) == State(s.w, LookUp)
  {
  }

  /** Calls of other recordings go on anywhere, and so do calls of this one that outlived their attempt; only the
      call that the attempt is waiting for moves with it alone, and nobody else starts one for the recording. */
  lemma OthersUploadExactly(s: State, path: string, e: U.Event)
    ensures var own := match e
                       case Start(owner, _) => owner.recordingId == s.w.recording
                       case Advance(call, _) => path == s.w.row.target && s.pc == Uploading(call)
                       case CutOff(call) => path == s.w.row.target && s.pc == Uploading(call);
            Step(s, Elsewhere(path, e))
            == if own then s else State(s.w.(nas := s.w.nas[path := U.Step(At(s.w.nas, path), e)]), s.pc)
  {
  }

  /* ---- The paginated look for a public link ---- */

  const PAGE: nat := 100
  const SCAN_BOUND: nat := 1000

  datatype LookedUp = Url(url: string) | NoLink | BoundExceeded

  lemma {:induction false} FindLinkConcat(a: seq<Link>, b: seq<Link>, path: string)
    ensures FindLink(a + b, path) == if FindLink(a, path).Some? then FindLink(a, path) else FindLink(b, path)
  {
    if a == [] {
      assert a + b == b;
    } else {
      FindLinkConcat(a[1..], b, path);
      assert (a + b)[1..] == a[1..] + b;
    }
  }

  function Page(links: seq<Link>, offset: nat): seq<Link>
    requires offset <= |links|
  {
    links[offset..if offset + PAGE <= |links| then offset + PAGE else |links|]
  }

  lemma OnePageMore(links: seq<Link>, offset: nat, path: string)
    requires offset <= |links|
    ensures var page := Page(links, offset);
            && FindLink(links[..offset + |page|], path)
               == (if FindLink(links[..offset], path).Some? then FindLink(links[..offset], path)
                   else FindLink(page, path))
            && (FindLink(links[..offset + |page|], path).Some? ==>
                  FindLink(links, path) == FindLink(links[..offset + |page|], path))
  {
    var page := Page(links, offset);
    FindLinkConcat(links[..offset], page, path);
    assert links[..offset] + page == links[..offset + |page|];
    FindLinkConcat(links[..offset + |page|], links[offset + |page|..], path);
    assert links[..offset + |page|] + links[offset + |page|..] == links;
  }

  method ScanPage(page: seq<Link>, path: string) returns (found: Option<string>)
    ensures found == FindLink(page, path)
  {
    var i := 0;
    while i < |page|
      invariant 0 <= i <= |page|
      invariant FindLink(page[..i], path).None?
    {
      FindLinkConcat(page[..i], page[i..], path);
      assert page == page[..i] + page[i..];
      if page[i].path == path {
        return Some(page[i].url);
      }
      FindLinkConcat(page[..i], [page[i]], path);
      assert page[..i + 1] == page[..i] + [page[i]];
      i := i + 1;
    }
    assert page[..i] == page;
    found := None;
  }

  /** The exact link of a path, or its absence, whatever the page boundaries; the scan gives up exactly
      when the bound hides the answer. */
  method FindPublicShareLink(links: seq<Link>, path: string, reportsTotal: bool) returns (r: LookedUp)
    ensures r.Url? ==> FindLink(links, path) == Some(r.url)
    ensures r.NoLink? ==> FindLink(links, path) == None
    ensures r.BoundExceeded?
            <==> |links| >= SCAN_BOUND && FindLink(links[..SCAN_BOUND], path).None?
                 && !(reportsTotal && |links| == SCAN_BOUND)
  {
    var offset := 0;
    while offset < SCAN_BOUND
      invariant offset % PAGE == 0 && offset <= SCAN_BOUND && offset <= |links|
      invariant FindLink(links[..offset], path).None?
      invariant reportsTotal ==> offset < |links| || offset == 0
    {
      var page := Page(links, offset);
      OnePageMore(links, offset, path);
      var found := ScanPage(page, path);
      if found.Some? {
        if |links| >= SCAN_BOUND {
          FindLinkConcat(links[..offset + |page|], links[offset + |page|..SCAN_BOUND], path);
          assert links[..offset + |page|] + links[offset + |page|..SCAN_BOUND] == links[..SCAN_BOUND];
        }
        return Url(found.value);
      }
      if |page| < PAGE || (reportsTotal && offset + PAGE >= |links|) {
        assert links[..offset + |page|] == links;
        return NoLink;
      }
      offset := offset + PAGE;
    }
    r := BoundExceeded;
  }
}

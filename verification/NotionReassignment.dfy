/**
  Moving a recording's link from one Notion card to another (app/services/notion_reassignment.py):
  write and verify the target, remember that, clear the source, complete. Confirmations lock the
  proposal and the recording until their first commit, so several of them can be under way; each may
  fail or be cut off at any request or commit, and nothing keeps people from editing the cards meanwhile.
*/
module NotionReassignment {
  import opened Values

  /** The links in the recording field of a card. */
  type Files = seq<string>

  datatype Status = Pending | Completed | Expired

  datatype Proposal = Proposal(
    source: string, target: string, version: nat, sourceSnapshot: Files, targetSnapshot: Files,
    expires: nat, status: Status, written: bool, key: string)

  datatype Recording = Recording(version: nat, page: string, url: string)

  datatype Pc =
    | ReadSource | ReadTarget(seen: Files) | WriteTarget | VerifyTarget | CommitWritten
    | ClearSource | CommitDone
    | Ended(ok: bool)

  /** A confirmation, with what it loaded. */
  datatype Session = Session(key: string, version: nat, written: bool, pc: Pc)

  datatype State = State(
    now: nat, pages: map<string, Files>, proposal: Proposal, recording: Recording,
    sessions: seq<Session>, holder: Option<nat>,
    completions: nat)   // history

  /** A request or commit goes well, has no effect, or has its effect without an answer. */
  datatype Answer = Ok | Refused | Lost

  datatype Event =
    | Confirm(key: string)
    | Next(session: nat, answer: Answer)
    | CutOff(session: nat)
    | Wait(seconds: nat)
    | Edit(page: string, files: Files)   // somebody else's work on a card
    | BumpVersion                        // another writer of the recording, which waits for its lock

  function At(pages: map<string, Files>, page: string): Files {
    if page in pages then pages[page] else []
  }

  predicate Live(c: Session) {
    !c.pc.Ended?
  }

  predicate Idle(s: State) {
    forall i :: 0 <= i < |s.sessions| ==> !Live(s.sessions[i])
  }

  function GoTo(s: State, i: nat, pc: Pc): State
    requires i < |s.sessions|
  {
    s.(sessions := s.sessions[i := s.sessions[i].(pc := pc)])
  }

  function Released(s: State, i: nat): State {
    if s.holder == Some(i) then s.(holder := None) else s
  }

  function End(s: State, i: nat, ok: bool): State
    requires i < |s.sessions|
  {
    Released(GoTo(s, i, Ended(ok)), i)
  }

  /** The checks under the lock; a proposal that is neither pending nor completed counts as expired. */
  function ConfirmStep(s: State, key: string): State {
    var p := s.proposal;
    if s.holder.Some? then s
    else if p.status.Completed? then
      s.(sessions := s.sessions + [Session(key, s.recording.version, p.written, Ended(p.key == key))])
    else if !p.status.Pending? || p.expires <= s.now then
      s.(proposal := p.(status := Expired),
         sessions := s.sessions + [Session(key, s.recording.version, p.written, Ended(false))])
    else if s.recording.version != p.version then
      s.(sessions := s.sessions + [Session(key, s.recording.version, p.written, Ended(false))])
    else
      s.(sessions := s.sessions + [Session(key, s.recording.version, p.written, ReadSource)],
         holder := Some(|s.sessions|))
  }

  /** Both cards against what the proposal and an earlier confirmation left. */
  predicate CardsAsLeft(s: State, written: bool, source: Files, target: Files) {
    && source == s.proposal.sourceSnapshot
    && if written then s.recording.url in target else target == s.proposal.targetSnapshot
  }

  predicate BeforeFirstCommit(pc: Pc) {
    pc in {ReadSource, WriteTarget, VerifyTarget, CommitWritten} || pc.ReadTarget?
  }

  /** Up to the first commit, under the lock. */
  function LockedStep(s: State, i: nat, a: Answer): State
    requires i < |s.sessions| && BeforeFirstCommit(s.sessions[i].pc)
  {
    var c := s.sessions[i];
    var p := s.proposal;
    match c.pc
    case ReadSource => if a.Ok? then GoTo(s, i, ReadTarget(At(s.pages, p.source))) else End(s, i, false)
    case ReadTarget(seen) =>
      if a.Ok? && CardsAsLeft(s, c.written, seen, At(s.pages, p.target))
      then GoTo(s, i, if c.written then ClearSource else WriteTarget)
      else End(s, i, false)
    case WriteTarget =>
      var written := s.(pages := s.pages[p.target := [s.recording.url]]);
      (match a
       case Ok => GoTo(written, i, VerifyTarget)
       case Lost => End(written, i, false)
       case Refused => End(s, i, false))
    case VerifyTarget =>
      if a.Ok? && s.recording.url in At(s.pages, p.target) then GoTo(s, i, CommitWritten) else End(s, i, false)
    case CommitWritten =>
      if a.Ok? then Released(GoTo(s.(proposal := p.(written := true)), i, ClearSource), i) else End(s, i, false)
  }

  /** From clearing the source on; only a confirmation that found the target written still holds the lock. */
  function LateStep(s: State, i: nat, a: Answer): State
    requires i < |s.sessions| && s.sessions[i].pc in {ClearSource, CommitDone}
  {
    var c := s.sessions[i];
    var p := s.proposal;
    if c.pc.ClearSource? then
      var cleared := s.(pages := s.pages[p.source := []]);
      match a
      case Ok => GoTo(cleared, i, CommitDone)
      case Lost => End(cleared, i, false)
      case Refused => End(s, i, false)
    else if a.Ok? then
      End(s.(proposal := p.(status := Completed, key := c.key),
             recording := s.recording.(page := p.target, version := c.version + 1),
             completions := s.completions + 1), i, true)
    else End(s, i, false)
  }

  function NextStep(s: State, i: nat, a: Answer): State {
    if i >= |s.sessions| || !Live(s.sessions[i]) then s
    else if BeforeFirstCommit(s.sessions[i].pc) then LockedStep(s, i, a)
    else LateStep(s, i, a)
  }

  function Step(s: State, e: Event): State {
    match e
    case Confirm(key) => ConfirmStep(s, key)
    case Next(i, a) => NextStep(s, i, a)
    case CutOff(i) => if i < |s.sessions| && Live(s.sessions[i]) then End(s, i, false) else s
    case Wait(seconds) => s.(now := s.now + seconds)
    case Edit(page, files) => s.(pages := s.pages[page := files])
    case BumpVersion =>
      if s.holder.None? then s.(recording := s.recording.(version := s.recording.version + 1)) else s
  }

  function Run(s: State, events: seq<Event>): State
    decreases |events|
  {
    if events == [] then s else Run(Step(s, events[0]), events[1..])
  }

  /** Right after the proposal: both cards are as its snapshots say. */
  predicate Proposed(s: State) {
    && s.sessions == [] && s.holder.None? && s.completions == 0
    && s.proposal.status.Pending? && !s.proposal.written
    && s.proposal.version == s.recording.version
    && At(s.pages, s.proposal.source) == s.proposal.sourceSnapshot
    && At(s.pages, s.proposal.target) == s.proposal.targetSnapshot
  }

  /* ---- What every step keeps, for two different cards ---- */

  predicate TargetHolds(s: State) {
    s.recording.url in At(s.pages, s.proposal.target)
  }

  predicate SourceAsProposed(s: State) {
    At(s.pages, s.proposal.source) == s.proposal.sourceSnapshot
  }

  predicate SessionInv(s: State, i: nat)
    requires i < |s.sessions|
  {
    var c := s.sessions[i];
    && (BeforeFirstCommit(c.pc) ==> s.holder == Some(i))
    && (Live(c) ==> c.version == s.proposal.version)
    && (c.pc in {WriteTarget, VerifyTarget, CommitWritten} ==> !c.written && SourceAsProposed(s))
    && (c.pc.ReadTarget? && c.pc.seen == s.proposal.sourceSnapshot ==>
          SourceAsProposed(s) || (c.written && At(s.pages, s.proposal.source) == []))
    && (c.pc.CommitWritten? ==> TargetHolds(s))
    && (c.pc in {ClearSource, CommitDone} ==>
          s.proposal.written && TargetHolds(s)
          && (SourceAsProposed(s) || At(s.pages, s.proposal.source) == []))
  }

  predicate Inv(s: State) {
    && (s.holder.Some? ==>
          s.holder.value < |s.sessions| && Live(s.sessions[s.holder.value])
          && s.sessions[s.holder.value].written == s.proposal.written)
    && (forall i :: 0 <= i < |s.sessions| ==> SessionInv(s, i))
  }

  /** What a step of session `i` may change for the others. */
  predicate Tame(s: State, t: State, i: nat) {
    && i < |s.sessions| && |t.sessions| == |s.sessions|
    && (forall k :: 0 <= k < |s.sessions| && k != i ==> t.sessions[k] == s.sessions[k])
    && t.proposal.source == s.proposal.source && t.proposal.target == s.proposal.target
    && t.proposal.version == s.proposal.version && t.proposal.sourceSnapshot == s.proposal.sourceSnapshot
    && t.recording.url == s.recording.url && (s.proposal.written ==> t.proposal.written)
    && (TargetHolds(s) ==> TargetHolds(t))
    && (At(t.pages, t.proposal.source) == At(s.pages, s.proposal.source)
        || (s.proposal.written && At(t.pages, t.proposal.source) == []))
    && (t.holder == s.holder || (s.holder == Some(i) && t.holder.None?))
    && (t.proposal.written != s.proposal.written ==> s.holder == Some(i) && t.holder.None?)
  }

  lemma OthersKept(s: State, t: State, i: nat)
    requires Inv(s) && Tame(s, t, i)
    ensures forall k :: 0 <= k < |t.sessions| && k != i ==> SessionInv(t, k)
  {
    forall k | 0 <= k < |t.sessions| && k != i
      ensures SessionInv(t, k)
    {
      assert SessionInv(s, k);
    }
  }

  lemma LockedIsTame(s: State, i: nat, a: Answer)
    requires i < |s.sessions| && SessionInv(s, i) && s.proposal.source != s.proposal.target
    requires BeforeFirstCommit(s.sessions[i].pc)
    ensures Tame(s, LockedStep(s, i, a), i)
  {
    match s.sessions[i].pc
    case ReadSource =>
    case ReadTarget(_) =>
    case WriteTarget =>
    case VerifyTarget =>
    case CommitWritten =>
  }

  lemma LateIsTame(s: State, i: nat, a: Answer)
    requires i < |s.sessions| && SessionInv(s, i) && s.proposal.source != s.proposal.target
    requires s.sessions[i].pc in {ClearSource, CommitDone}
    ensures Tame(s, LateStep(s, i, a), i)
  {
  }

  lemma NextIsTame(s: State, i: nat, a: Answer)
    requires i < |s.sessions| && SessionInv(s, i) && s.proposal.source != s.proposal.target
    ensures Tame(s, NextStep(s, i, a), i)
  {
    if !Live(s.sessions[i]) {
    } else if BeforeFirstCommit(s.sessions[i].pc) {
      LockedIsTame(s, i, a);
    } else {
      LateIsTame(s, i, a);
    }
  }

  /** What a step of session `i` has to leave of its own. */
  predicate OwnKept(s: State, t: State, i: nat) {
    && i < |s.sessions| && i < |t.sessions| && SessionInv(t, i)
    && (t.holder == Some(i) ==> Live(t.sessions[i]) || t == s)
    && t.sessions[i].written == s.sessions[i].written
  }

  lemma LockedKeepsOwn(s: State, i: nat, a: Answer)
    requires i < |s.sessions| && SessionInv(s, i) && s.proposal.source != s.proposal.target
    requires s.holder == Some(i) ==> s.sessions[i].written == s.proposal.written
    requires BeforeFirstCommit(s.sessions[i].pc)
    ensures OwnKept(s, LockedStep(s, i, a), i)
  {
    match s.sessions[i].pc
    case ReadSource =>
    case ReadTarget(_) =>
    case WriteTarget =>
    case VerifyTarget =>
    case CommitWritten =>
  }

  lemma LateKeepsOwn(s: State, i: nat, a: Answer)
    requires i < |s.sessions| && SessionInv(s, i) && s.proposal.source != s.proposal.target
    requires s.sessions[i].pc in {ClearSource, CommitDone}
    ensures OwnKept(s, LateStep(s, i, a), i)
  {
  }

  lemma NextKeepsInv(s: State, i: nat, a: Answer)
    requires Inv(s) && s.proposal.source != s.proposal.target && i < |s.sessions| && Live(s.sessions[i])
    ensures Inv(NextStep(s, i, a))
  {
    assert SessionInv(s, i);
    var t := NextStep(s, i, a);
    if BeforeFirstCommit(s.sessions[i].pc) {
      LockedKeepsOwn(s, i, a);
    } else {
      LateKeepsOwn(s, i, a);
    }
    NextIsTame(s, i, a);
    OthersKept(s, t, i);
    forall k | 0 <= k < |t.sessions|
      ensures SessionInv(t, k)
    {
    }
  }

  lemma CutOffKeepsInv(s: State, i: nat)
    requires Inv(s) && i < |s.sessions| && Live(s.sessions[i])
    ensures Inv(End(s, i, false))
  {
    OthersKept(s, End(s, i, false), i);
  }

  lemma ConfirmKeepsInv(s: State, key: string)
    requires Inv(s)
    ensures Inv(ConfirmStep(s, key))
  {
    var t := ConfirmStep(s, key);
    forall k | 0 <= k < |t.sessions|
      ensures SessionInv(t, k)
    {
      if k < |s.sessions| {
        assert SessionInv(s, k);
      }
    }
  }

  /** Without a confirmation under way the cards are free, and the version always is. */
  lemma QuietKeepsInv(s: State, t: State)
    requires Inv(s) && t.sessions == s.sessions && t.holder == s.holder && t.proposal == s.proposal
    requires t.recording.url == s.recording.url && (t.pages == s.pages || Idle(s))
    ensures Inv(t)
  {
    forall k | 0 <= k < |t.sessions|
      ensures SessionInv(t, k)
    {
      assert SessionInv(s, k);
    }
  }

  /** Cards are edited between confirmations only. */
  predicate Quiet(s: State, e: Event) {
    e.Edit? ==> Idle(s)
  }

  predicate AllQuiet(s: State, events: seq<Event>)
    decreases |events|
  {
    events == [] || (Quiet(s, events[0]) && AllQuiet(Step(s, events[0]), events[1..]))
  }

  lemma StepKeepsInv(s: State, e: Event)
    requires Inv(s) && s.proposal.source != s.proposal.target && Quiet(s, e)
    ensures Inv(Step(s, e))
  {
    match e
    case Next(i, a) =>
      if i < |s.sessions| && Live(s.sessions[i]) {
        NextKeepsInv(s, i, a);
      }
    case CutOff(i) =>
      if i < |s.sessions| && Live(s.sessions[i]) {
        CutOffKeepsInv(s, i);
      }
    case Confirm(key) => ConfirmKeepsInv(s, key);
    case Wait(_) => QuietKeepsInv(s, Step(s, e));
    case Edit(_, _) => QuietKeepsInv(s, Step(s, e));
    case BumpVersion => QuietKeepsInv(s, Step(s, e));
  }

  /** What no step ever changes. */
  predicate SameSubject(s: State, t: State) {
    && t.proposal.source == s.proposal.source && t.proposal.target == s.proposal.target
    && t.proposal.version == s.proposal.version && t.proposal.sourceSnapshot == s.proposal.sourceSnapshot
    && t.recording.url == s.recording.url
  }

  lemma LockedKeepsSubject(s: State, i: nat, a: Answer)
    requires i < |s.sessions| && BeforeFirstCommit(s.sessions[i].pc)
    ensures SameSubject(s, LockedStep(s, i, a))
  {
    match s.sessions[i].pc
    case ReadSource =>
    case ReadTarget(_) =>
    case WriteTarget =>
    case VerifyTarget =>
    case CommitWritten =>
  }

  lemma StepKeepsSubject(s: State, e: Event)
    ensures SameSubject(s, Step(s, e))
  {
    if e.Next? && e.session < |s.sessions| && BeforeFirstCommit(s.sessions[e.session].pc) {
      LockedKeepsSubject(s, e.session, e.answer);
    }
  }

  lemma {:induction false} RunKeepsInv(s: State, events: seq<Event>)
    requires Inv(s) && s.proposal.source != s.proposal.target && AllQuiet(s, events)
    ensures Inv(Run(s, events)) && SameSubject(s, Run(s, events))
    decreases |events|
  {
    if events != [] {
      StepKeepsInv(s, events[0]);
      StepKeepsSubject(s, events[0]);
      RunKeepsInv(Step(s, events[0]), events[1..]);
    }
  }

  /* ---- The link is never lost ---- */

  /** A confirmation clears the source only while the target holds the link; it writes nothing but the
      target card and the empty source. */
  lemma SourceIsClearedOnlyBehindTheTarget(s: State, i: nat, a: Answer, page: string)
    requires Inv(s) && s.proposal.source != s.proposal.target
    requires At(NextStep(s, i, a).pages, page) != At(s.pages, page)
    ensures page == s.proposal.target || page == s.proposal.source
    ensures page == s.proposal.source ==>
              TargetHolds(s) && SourceAsProposed(s) && At(NextStep(s, i, a).pages, page) == []
    ensures page == s.proposal.target ==> At(NextStep(s, i, a).pages, page) == [s.recording.url]
  {
    if i < |s.sessions| {
      assert SessionInv(s, i);
    }
  }

  predicate LinkKept(s: State) {
    SourceAsProposed(s) || TargetHolds(s)
  }

  /** An edit that takes the link from the target when the source has changed, or changes the source while
      the target is without the link. */
  predicate TakesLink(s: State, e: Event) {
    e.Edit? && ((e.page == s.proposal.target && s.recording.url !in e.files && !SourceAsProposed(s))
                || (e.page == s.proposal.source && e.files != s.proposal.sourceSnapshot && !TargetHolds(s)))
  }

  /** The source is cleared although the target, once verified, is now without the link. */
  predicate ClearsBlindly(s: State, e: Event) {
    && e.Next? && e.session < |s.sessions| && s.sessions[e.session].pc.ClearSource? && !e.answer.Refused?
    && !TargetHolds(s) && s.proposal.sourceSnapshot != []
  }

  lemma LockedStepKeepsLink(s: State, i: nat, a: Answer)
    requires s.proposal.source != s.proposal.target && LinkKept(s)
    requires i < |s.sessions| && BeforeFirstCommit(s.sessions[i].pc)
    ensures LinkKept(LockedStep(s, i, a))
  {
    match s.sessions[i].pc
    case ReadSource =>
    case ReadTarget(_) =>
    case WriteTarget =>
    case VerifyTarget =>
    case CommitWritten =>
  }

  /** The link is lost by such an edit or by such a clearing, and by nothing else. */
  lemma LinkIsLostExactlyHere(s: State, e: Event)
    requires s.proposal.source != s.proposal.target && LinkKept(s)
    ensures !LinkKept(Step(s, e)) <==> TakesLink(s, e) || ClearsBlindly(s, e)
  {
    if e.Next? && e.session < |s.sessions| && BeforeFirstCommit(s.sessions[e.session].pc) {
      LockedStepKeepsLink(s, e.session, e.answer);
    }
  }

  /** No clearing is blind where cards are edited between confirmations only. */
  lemma ClearingSeesTheTarget(s: State, e: Event)
    requires Inv(s)
    ensures !ClearsBlindly(s, e)
  {
    if e.Next? && e.session < |s.sessions| {
      assert SessionInv(s, e.session);
    }
  }

  ghost predicate LinkKeptThroughout(s: State, events: seq<Event>)
    decreases |events|
  {
    LinkKept(s) && (events != [] ==> LinkKeptThroughout(Step(s, events[0]), events[1..]))
  }

  predicate NobodyTakesLink(s: State, events: seq<Event>)
    decreases |events|
  {
    events == [] || (!TakesLink(s, events[0]) && NobodyTakesLink(Step(s, events[0]), events[1..]))
  }

  predicate NothingClearsBlindly(s: State, events: seq<Event>)
    decreases |events|
  {
    events == [] || (!ClearsBlindly(s, events[0]) && NothingClearsBlindly(Step(s, events[0]), events[1..]))
  }

  /** Whoever edits the cards and whenever: the source card is as it was proposed or the target card holds
      the link, at every moment, exactly when no edit takes the link and no clearing is blind. */
  lemma {:induction false} LinkIsKeptExactly(s: State, events: seq<Event>)
    requires s.proposal.source != s.proposal.target && LinkKept(s)
    ensures LinkKeptThroughout(s, events) <==> NobodyTakesLink(s, events) && NothingClearsBlindly(s, events)
    decreases |events|
  {
    if events != [] {
      var t := Step(s, events[0]);
      LinkIsLostExactlyHere(s, events[0]);
      StepKeepsSubject(s, events[0]);
      if LinkKept(t) {
        LinkIsKeptExactly(t, events[1..]);
      }
    }
  }

  lemma {:induction false} QuietRunsClearOpenEyed(s: State, events: seq<Event>)
    requires Inv(s) && s.proposal.source != s.proposal.target && AllQuiet(s, events)
    ensures NothingClearsBlindly(s, events)
    decreases |events|
  {
    if events != [] {
      ClearingSeesTheTarget(s, events[0]);
      StepKeepsInv(s, events[0]);
      StepKeepsSubject(s, events[0]);
      QuietRunsClearOpenEyed(Step(s, events[0]), events[1..]);
    }
  }

  /** From the proposal on, through any number of overlapping confirmations, crashes and failures, and with
      people at the cards between confirmations: only such an edit loses the link, never the service. */
  lemma LinkIsNeverLost(s: State, events: seq<Event>)
    requires Proposed(s) && s.proposal.source != s.proposal.target && AllQuiet(s, events)
    ensures LinkKeptThroughout(s, events) <==> NobodyTakesLink(s, events)
  {
    LinkIsKeptExactly(s, events);
    QuietRunsClearOpenEyed(s, events);
  }

  predicate NoEdits(events: seq<Event>) {
    forall k :: 0 <= k < |events| ==> !events[k].Edit?
  }

  /* ---- Completion ---- */

  /** A completion leaves the recording on the target card, one version above the proposal's, with the
      link in place; in the end it is the recording of a completed proposal. */
  lemma CompletionPointsAtTarget(s: State, i: nat, a: Answer)
    requires Inv(s) && s.proposal.source != s.proposal.target
    requires NextStep(s, i, a).completions > s.completions
    ensures var t := NextStep(s, i, a);
            && t.completions == s.completions + 1
            && t.recording == s.recording.(page := s.proposal.target, version := s.proposal.version + 1)
            && (t.recording.version == s.recording.version + 1 <==> s.recording.version == s.proposal.version)
            && t.proposal.status.Completed? && TargetHolds(t)
  {
    assert SessionInv(s, i);
  }

  lemma NextLeavesOtherSessions(s: State, i: nat, a: Answer)
    requires i < |s.sessions|
    ensures |NextStep(s, i, a).sessions| == |s.sessions|
    ensures forall k :: 0 <= k < |s.sessions| && k != i ==> NextStep(s, i, a).sessions[k] == s.sessions[k]
  {
  }

  lemma NextCompletesOnce(s: State, i: nat, a: Answer)
    requires i < |s.sessions|
    ensures var t := NextStep(s, i, a);
            && |t.sessions| == |s.sessions|
            && ((t.completions == s.completions && t.proposal.status == s.proposal.status)
                || (t.completions == s.completions + 1 && t.proposal.status.Completed? && !Live(t.sessions[i])))
  {
  }

  /** A last commit that finds the proposal completed by another confirmation; nothing checks for that. */
  predicate CompletesAgain(s: State, e: Event) {
    && e.Next? && e.session < |s.sessions| && s.sessions[e.session].pc.CommitDone? && e.answer.Ok?
    && s.proposal.status.Completed?
  }

  predicate NothingCompletesAgain(s: State, events: seq<Event>)
    decreases |events|
  {
    events == [] || (!CompletesAgain(s, events[0]) && NothingCompletesAgain(Step(s, events[0]), events[1..]))
  }

  predicate CountedByStatus(s: State) {
    s.completions == if s.proposal.status.Completed? then 1 else 0
  }

  lemma CountStaysUnlessAgain(s: State, e: Event)
    requires CountedByStatus(s)
    ensures if CompletesAgain(s, e) then Step(s, e).completions == 2 else CountedByStatus(Step(s, e))
  {
    if e.Next? && e.session < |s.sessions| {
      NextCompletesOnce(s, e.session, e.answer);
    }
  }

  lemma {:induction false} CountNeverFalls(s: State, events: seq<Event>)
    ensures Run(s, events).completions >= s.completions
    decreases |events|
  {
    if events != [] {
      if events[0].Next? && events[0].session < |s.sessions| {
        NextCompletesOnce(s, events[0].session, events[0].answer);
      }
      CountNeverFalls(Step(s, events[0]), events[1..]);
    }
  }

  lemma {:induction false} CountedOnceExactly(s: State, events: seq<Event>)
    requires CountedByStatus(s)
    ensures Run(s, events).completions <= 1 <==> NothingCompletesAgain(s, events)
    decreases |events|
  {
    if events != [] {
      CountStaysUnlessAgain(s, events[0]);
      if CompletesAgain(s, events[0]) {
        CountNeverFalls(Step(s, events[0]), events[1..]);
      } else {
        CountedOnceExactly(Step(s, events[0]), events[1..]);
      }
    }
  }

  /** However confirmations overlap: the proposal is completed at most once exactly when no last commit
      meets a proposal that is completed already. */
  lemma CompletedOnceExactlyWithoutOverlappingCommits(s: State, events: seq<Event>)
    requires Proposed(s)
    ensures Run(s, events).completions <= 1 <==> NothingCompletesAgain(s, events)
  {
    CountedOnceExactly(s, events);
  }

  /* ---- Where it ends ---- */

  function Undisturbed(s: State, i: nat, n: nat): State
    decreases n
  {
    if n == 0 then s else Undisturbed(NextStep(s, i, Ok), i, n - 1)
  }

  /** While a confirmation that let go of the lock has not committed yet, a further one that nothing
      disturbs completes as well exactly when it still finds the source as proposed; the first one then
      completes in any case. */
  lemma OverlapCompletesTwiceExactlyBeforeClearing(s: State, i: nat, key: string)
    requires Inv(s) && s.proposal.source != s.proposal.target && s.holder.None?
    requires s.proposal.status.Pending? && s.now < s.proposal.expires && s.recording.version == s.proposal.version
    requires i < |s.sessions| && s.sessions[i].pc in {ClearSource, CommitDone}
    ensures var further := Undisturbed(Step(s, Confirm(key)), |s.sessions|, 4);
            var both := Undisturbed(further, i, if s.sessions[i].pc.ClearSource? then 2 else 1);
            && (further.completions == s.completions + 1 <==> SourceAsProposed(s))
            && (both.completions == s.completions + 2 <==> SourceAsProposed(s))
            && both.completions > s.completions
  {
    assert SessionInv(s, i);
    var j := |s.sessions|;
    var begun := Step(s, Confirm(key));
    assert begun.sessions[j] == Session(key, s.recording.version, true, ReadSource);
    assert begun.sessions[i] == s.sessions[i];
    if SourceAsProposed(s) {
      ClearsAndCompletes(begun, j);
    } else {
      TurnsBack(begun, j);
    }
    var further := Undisturbed(begun, j, 4);
    assert further.sessions[i] == s.sessions[i];
    if s.sessions[i].pc.ClearSource? {
      TwoSteps(further, i);
    } else {
      assert Undisturbed(further, i, 1) == NextStep(further, i, Ok);
    }
  }

  /** A resuming confirmation that does not find the source as proposed changes nothing. */
  lemma TurnsBack(s: State, i: nat)
    requires i < |s.sessions| && s.holder == Some(i) && s.sessions[i].pc.ReadSource? && s.sessions[i].written
    requires !SourceAsProposed(s)
    ensures Undisturbed(s, i, 4) == s.(holder := None, sessions := s.sessions[i := s.sessions[i].(pc := Ended(false))])
  {
    var c := s.sessions[i];
    var s1 := NextStep(s, i, Ok);
    assert s1 == s.(sessions := s.sessions[i := c.(pc := ReadTarget(At(s.pages, s.proposal.source)))]);
    var s2 := NextStep(s1, i, Ok);
    assert s2 == s.(holder := None, sessions := s.sessions[i := c.(pc := Ended(false))]);
    assert Undisturbed(s, i, 4) == Undisturbed(s1, i, 3) == Undisturbed(s2, i, 2) == Undisturbed(s2, i, 1);
  }

  /** So every proposal can be completed twice: the first confirmation lets go of the lock before it
      clears. */
  lemma OverlappingConfirmationsCompleteTwice(s: State, first: string, second: string)
    requires Proposed(s) && s.proposal.source != s.proposal.target && s.now < s.proposal.expires
    ensures var written := Undisturbed(Step(s, Confirm(first)), 0, 5);
            var both := Undisturbed(Step(written, Confirm(second)), 1, 4);
            var end := Undisturbed(both, 0, 2);
            end.completions == s.completions + 2
  {
    var begun := Step(s, Confirm(first));
    WritesTarget(begun, 0);
    var written := Undisturbed(begun, 0, 5);
    OverlapCompletesTwiceExactlyBeforeClearing(written, 0, second);
  }

  /** A fresh confirmation that nothing disturbs writes and verifies the target, and lets go of the lock. */
  lemma WritesTarget(s: State, i: nat)
    requires i < |s.sessions| && s.holder == Some(i) && s.sessions[i].pc.ReadSource? && !s.sessions[i].written
    requires SourceAsProposed(s) && At(s.pages, s.proposal.target) == s.proposal.targetSnapshot
    ensures Undisturbed(s, i, 5) == s.(
              pages := s.pages[s.proposal.target := [s.recording.url]],
              proposal := s.proposal.(written := true),
              holder := None,
              sessions := s.sessions[i := s.sessions[i].(pc := ClearSource)])
  {
    var c := s.sessions[i];
    var seen := At(s.pages, s.proposal.source);
    var s1 := NextStep(s, i, Ok);
    assert s1 == s.(sessions := s.sessions[i := c.(pc := ReadTarget(seen))]);
    var s2 := NextStep(s1, i, Ok);
    assert s2 == s.(sessions := s.sessions[i := c.(pc := WriteTarget)]);
    var w := s.(pages := s.pages[s.proposal.target := [s.recording.url]]);
    var s3 := NextStep(s2, i, Ok);
    assert s3 == w.(sessions := s.sessions[i := c.(pc := VerifyTarget)]);
    var s4 := NextStep(s3, i, Ok);
    assert s4 == w.(sessions := s.sessions[i := c.(pc := CommitWritten)]);
    assert Undisturbed(s, i, 5) == Undisturbed(s1, i, 4) == Undisturbed(s2, i, 3) == Undisturbed(s3, i, 2)
        == Undisturbed(s4, i, 1) == NextStep(s4, i, Ok);
  }

  /** A confirmation that resumes after the target was written. */
  lemma ClearsAndCompletes(s: State, i: nat)
    requires i < |s.sessions| && s.holder == Some(i) && s.sessions[i].pc.ReadSource? && s.sessions[i].written
    requires SourceAsProposed(s) && TargetHolds(s)
    ensures var t := Undisturbed(s, i, 4);
            && t.completions == s.completions + 1 && t.proposal.status.Completed? && t.holder.None?
            && |t.sessions| == |s.sessions|
            && (forall k :: 0 <= k < |s.sessions| && k != i ==> t.sessions[k] == s.sessions[k])
            && t.proposal.source == s.proposal.source && t.proposal.target == s.proposal.target
  {
    var c := s.sessions[i];
    var s1 := NextStep(s, i, Ok);
    assert s1 == s.(sessions := s.sessions[i := c.(pc := ReadTarget(At(s.pages, s.proposal.source)))]);
    var s2 := NextStep(s1, i, Ok);
    assert s2 == s.(sessions := s.sessions[i := c.(pc := ClearSource)]);
    TwoSteps(s2, i);
    assert Undisturbed(s, i, 4) == Undisturbed(s1, i, 3) == Undisturbed(s2, i, 2);
  }

  lemma TwoSteps(s: State, i: nat)
    requires i < |s.sessions| && s.sessions[i].pc.ClearSource?
    ensures var t := Undisturbed(s, i, 2);
            && t.completions == s.completions + 1 && t.proposal.status.Completed?
            && t.pages == s.pages[s.proposal.source := []]
            && |t.sessions| == |s.sessions| && (s.holder == Some(i) || s.holder.None? ==> t.holder.None?)
            && (forall k :: 0 <= k < |s.sessions| && k != i ==> t.sessions[k] == s.sessions[k])
            && t.proposal.source == s.proposal.source && t.proposal.target == s.proposal.target
            && t.recording == s.recording.(page := s.proposal.target, version := s.sessions[i].version + 1)
  {
    var s1 := NextStep(s, i, Ok);
    assert Undisturbed(s, i, 2) == Undisturbed(s1, i, 1) == NextStep(s1, i, Ok);
  }

  /** The two cards must differ, which nothing checks: for one and the same card a confirmation without
      any failure completes and leaves the link nowhere. */
  lemma SameCardLosesTheLink(s: State, key: string)
    requires Proposed(s) && s.proposal.source == s.proposal.target && s.now < s.proposal.expires
    ensures var t := Undisturbed(Step(s, Confirm(key)), 0, 7);
            && t.proposal.status.Completed? && t.recording.page == s.proposal.target
            && At(t.pages, t.recording.page) == []
  {
    var begun := Step(s, Confirm(key));
    WritesTarget(begun, 0);
    TwoSteps(Undisturbed(begun, 0, 5), 0);
    UndisturbedAddsUp(begun, 0, 5, 2);
  }

  /** So the confirmation that nothing disturbs completes in any case, and the recording's card then holds
      the link exactly when the two cards differ. */
  lemma UndisturbedKeepsLinkExactlyForTwoCards(s: State, key: string)
    requires Proposed(s) && s.now < s.proposal.expires
    ensures var t := Undisturbed(Step(s, Confirm(key)), 0, 7);
            && t.proposal.status.Completed? && t.recording.page == s.proposal.target
            && (s.recording.url in At(t.pages, t.recording.page) <==> s.proposal.source != s.proposal.target)
  {
    if s.proposal.source == s.proposal.target {
      SameCardLosesTheLink(s, key);
    } else {
      var begun := Step(s, Confirm(key));
      WritesTarget(begun, 0);
      var written := Undisturbed(begun, 0, 5);
      TwoSteps(written, 0);
      UndisturbedAddsUp(begun, 0, 5, 2);
    }
  }

  lemma {:induction false} UndisturbedAddsUp(s: State, i: nat, m: nat, n: nat)
    ensures Undisturbed(s, i, m + n) == Undisturbed(Undisturbed(s, i, m), i, n)
    decreases m
  {
    if m > 0 {
      UndisturbedAddsUp(NextStep(s, i, Ok), i, m - 1, n);
    }
  }

  /** A confirmation of a half-done proposal gets as far as clearing the source exactly when the source
      is still as it was proposed and the target holds the link. */
  lemma ResumesExactlyFromTheSnapshot(s: State, i: nat)
    requires i < |s.sessions| && s.sessions[i].pc.ReadSource? && s.sessions[i].written
    ensures (Undisturbed(s, i, 2).sessions[i].pc.ClearSource?) <==> SourceAsProposed(s) && TargetHolds(s)
  {
    var s1 := NextStep(s, i, Ok);
    assert s1.sessions[i] == s.sessions[i].(pc := ReadTarget(At(s.pages, s.proposal.source)));
    assert Undisturbed(s, i, 2) == Undisturbed(s1, i, 1) == NextStep(s1, i, Ok);
  }

  /** The cards are as a further confirmation needs them: as both snapshots say, or, once it is recorded
      that the target was written, with the source as proposed and the link at the target. */
  predicate CardsFit(s: State) {
    CardsAsLeft(s, s.proposal.written, At(s.pages, s.proposal.source), At(s.pages, s.proposal.target))
  }

  /** What a further confirmation needs. */
  predicate CanResume(s: State) {
    && s.proposal.status.Pending? && s.now < s.proposal.expires && s.recording.version == s.proposal.version
    && CardsFit(s)
  }

  /** No version falls below the proposal's. */
  predicate VersionInv(s: State) {
    && s.proposal.version <= s.recording.version
    && forall i :: 0 <= i < |s.sessions| ==> s.proposal.version <= s.sessions[i].version
  }

  lemma {:induction false} VersionsNeverFallBelow(s: State, events: seq<Event>)
    requires VersionInv(s)
    ensures VersionInv(Run(s, events))
    decreases |events|
  {
    if events != [] {
      var t := Step(s, events[0]);
      StepKeepsSubject(s, events[0]);
      if events[0].Next? && events[0].session < |s.sessions| {
        NextKeepsVersions(s, events[0].session, events[0].answer);
      }
      VersionsNeverFallBelow(t, events[1..]);
    }
  }

  lemma NextKeepsVersions(s: State, i: nat, a: Answer)
    requires VersionInv(s) && i < |s.sessions|
    ensures VersionInv(NextStep(s, i, a))
  {
    var t := NextStep(s, i, a);
    NextLeavesOtherSessions(s, i, a);
    StepKeepsSubject(s, Next(i, a));
    if Live(s.sessions[i]) && BeforeFirstCommit(s.sessions[i].pc) {
      LockedKeepsVersions(s, i, a);
    }
    forall k | 0 <= k < |t.sessions|
      ensures t.proposal.version <= t.sessions[k].version
    {
      assert k != i ==> t.sessions[k] == s.sessions[k];
    }
  }

  lemma LockedKeepsVersions(s: State, i: nat, a: Answer)
    requires i < |s.sessions| && BeforeFirstCommit(s.sessions[i].pc)
    ensures LockedStep(s, i, a).recording == s.recording
    ensures |LockedStep(s, i, a).sessions| == |s.sessions|
    ensures LockedStep(s, i, a).sessions[i].version == s.sessions[i].version
  {
    match s.sessions[i].pc
    case ReadSource =>
    case ReadTarget(_) =>
    case WriteTarget =>
    case VerifyTarget =>
    case CommitWritten =>
  }

  /** Not completed, and nobody works on it. */
  predicate AtRest(s: State) {
    !s.proposal.status.Completed? && s.holder.None? && forall i :: 0 <= i < |s.sessions| ==> !Live(s.sessions[i])
  }

  /** The cards are not as a confirmation needs them, or none gets past its first checks any more. */
  predicate Hopeless(s: State) {
    && !s.proposal.status.Completed?
    && (CardsFit(s) ==> Outdated(s))
    && forall i :: 0 <= i < |s.sessions| ==> OnlyReads(s, s.sessions[i])
  }

  predicate Outdated(s: State) {
    !s.proposal.status.Pending? || s.proposal.expires <= s.now || s.proposal.version < s.recording.version
  }

  predicate OnlyReads(s: State, c: Session) {
    || !Live(c)
    || (!CardsFit(s) && c.written == s.proposal.written
        && (c.pc.ReadSource?
            || (c.pc.ReadTarget? && !CardsAsLeft(s, c.written, c.pc.seen, At(s.pages, s.proposal.target)))))
  }

  lemma HopelessNext(s: State, i: nat, a: Answer)
    requires Hopeless(s) && i < |s.sessions| && Live(s.sessions[i])
    ensures var t := NextStep(s, i, a);
            && t.pages == s.pages && t.proposal == s.proposal && t.recording == s.recording && t.now == s.now
            && |t.sessions| == |s.sessions| && OnlyReads(t, t.sessions[i])
            && (forall k :: 0 <= k < |s.sessions| && k != i ==> t.sessions[k] == s.sessions[k])
  {
    assert OnlyReads(s, s.sessions[i]);
  }

  lemma HopelessStep(s: State, e: Event)
    requires Hopeless(s) && !e.Edit?
    ensures Hopeless(Step(s, e))
  {
    var t := Step(s, e);
    match e
    case Next(i, a) =>
      if i < |s.sessions| && Live(s.sessions[i]) {
        HopelessNext(s, i, a);
      }
    case CutOff(_) =>
    case Confirm(_) =>
    case Wait(_) =>
    case BumpVersion =>
    case Edit(_, _) =>
  }

  lemma {:induction false} HopelessForGood(s: State, events: seq<Event>)
    requires Hopeless(s) && NoEdits(events)
    ensures !Run(s, events).proposal.status.Completed?
    decreases |events|
  {
    if events != [] {
      HopelessStep(s, events[0]);
      HopelessForGood(Step(s, events[0]), events[1..]);
    }
  }

  /** A confirmation and `n` requests or commits of it that go well. */
  function Confirming(i: nat, key: string, n: nat): seq<Event> {
    [Confirm(key)] + Continuing(i, n)
  }

  function Continuing(i: nat, n: nat): seq<Event> {
    if n == 0 then [] else [Next(i, Ok)] + Continuing(i, n - 1)
  }

  lemma {:induction false} ContinuingIsUndisturbed(s: State, i: nat, n: nat)
    ensures Run(s, Continuing(i, n)) == Undisturbed(s, i, n) && NoEdits(Continuing(i, n))
    decreases n
  {
    if n > 0 {
      assert Continuing(i, n)[1..] == Continuing(i, n - 1);
      ContinuingIsUndisturbed(NextStep(s, i, Ok), i, n - 1);
    }
  }

  lemma ConfirmingIsUndisturbed(s: State, i: nat, key: string, n: nat)
    ensures Run(s, Confirming(i, key, n)) == Undisturbed(Step(s, Confirm(key)), i, n)
    ensures NoEdits(Confirming(i, key, n))
  {
    assert Confirming(i, key, n)[1..] == Continuing(i, n);
    ContinuingIsUndisturbed(Step(s, Confirm(key)), i, n);
  }

  /** A confirmation that finds the cards fit completes: four requests and commits when the target is known
      to be written, seven when it is not. */
  lemma FitCardsComplete(s: State, key: string)
    requires AtRest(s) && CanResume(s)
    ensures exists events :: NoEdits(events) && Run(s, events).proposal.status.Completed?
  {
    var i := |s.sessions|;
    var begun := Step(s, Confirm(key));
    assert begun.sessions[i] == Session(key, s.recording.version, s.proposal.written, ReadSource);
    if s.proposal.written {
      ClearsAndCompletes(begun, i);
      ConfirmingIsUndisturbed(s, i, key, 4);
    } else {
      WritesTarget(begun, i);
      TwoSteps(Undisturbed(begun, i, 5), i);
      UndisturbedAddsUp(begun, i, 5, 2);
      ConfirmingIsUndisturbed(s, i, key, 7);
    }
  }

  /** A proposal at rest, wherever its confirmations were cut off, can still be completed, nobody editing
      the cards, exactly when it is pending, unexpired and at its version and the cards are as it was left:
      as both snapshots say, or after the recorded write with the source as proposed and the link at the
      target. */
  lemma RestCompletesExactlyWhileCardsFit(s: State, key: string)
    requires AtRest(s) && VersionInv(s)
    ensures (exists events :: NoEdits(events) && Run(s, events).proposal.status.Completed?) <==> CanResume(s)
  {
    if CanResume(s) {
      FitCardsComplete(s, key);
    } else {
      forall events | NoEdits(events)
        ensures !Run(s, events).proposal.status.Completed?
      {
        HopelessForGood(s, events);
      }
    }
  }

  /** The same at every state at rest that any run from the proposal leads to. */
  lemma CutShortRunsCompleteExactlyWhileCardsFit(s: State, before: seq<Event>, key: string)
    requires Proposed(s) && AtRest(Run(s, before))
    ensures (exists events :: NoEdits(events) && Run(Run(s, before), events).proposal.status.Completed?)
            <==> CanResume(Run(s, before))
  {
    VersionsNeverFallBelow(s, before);
    RestCompletesExactlyWhileCardsFit(Run(s, before), key);
  }

  /** Cut off after the target was written and before that was recorded: the source is as proposed and the
      target holds the link, yet no confirmation can be completed any more, unless the target held exactly
      that link from the beginning. */
  lemma UnrecordedWriteIsStuck(s: State, key: string)
    requires Proposed(s) && s.proposal.source != s.proposal.target && s.now < s.proposal.expires
    ensures var t := NextStep(Undisturbed(Step(s, Confirm(key)), 0, 2), 0, Lost);
            && AtRest(t) && SourceAsProposed(t) && TargetHolds(t)
            && t.proposal == s.proposal && t.recording == s.recording && t.now == s.now
            && ((exists events :: NoEdits(events) && Run(t, events).proposal.status.Completed?)
                <==> s.proposal.targetSnapshot == [s.recording.url])
  {
    var begun := Step(s, Confirm(key));
    var c := begun.sessions[0];
    var read := NextStep(begun, 0, Ok);
    assert read == begun.(sessions := begun.sessions[0 := c.(pc := ReadTarget(At(s.pages, s.proposal.source)))]);
    var compared := NextStep(read, 0, Ok);
    assert compared == begun.(sessions := begun.sessions[0 := c.(pc := WriteTarget)]);
    assert Undisturbed(begun, 0, 2) == Undisturbed(read, 0, 1) == compared;
    var t := NextStep(compared, 0, Lost);
    assert t.pages == s.pages[s.proposal.target := [s.recording.url]];
    RestCompletesExactlyWhileCardsFit(t, key);
  }

  /** And cut off after the source was cleared, unless the source card was empty to begin with; a further
      confirmation may be reading already. */
  predicate ClearedInVain(s: State) {
    && s.proposal.written && !s.proposal.status.Completed?
    && At(s.pages, s.proposal.source) == [] != s.proposal.sourceSnapshot
    && forall i :: 0 <= i < |s.sessions| ==>
         s.sessions[i].pc.Ended? || (s.sessions[i].written && s.sessions[i].pc.ReadSource?)
         || (s.sessions[i].written && s.sessions[i].pc == ReadTarget([]))
  }

  lemma ClearedInVainIsStuck(s: State, events: seq<Event>)
    requires ClearedInVain(s) && NoEdits(events)
    ensures !Run(s, events).proposal.status.Completed?
  {
    HopelessForGood(s, events);
  }

  /* ---- What a confirmation is answered ---- */

  /** Another session at the end, and nothing else but what is said. */
  predicate Answers(s: State, t: State, key: string, pc: Pc) {
    && |t.sessions| == |s.sessions| + 1 && t.sessions[..|s.sessions|] == s.sessions
    && t.sessions[|s.sessions|].key == key && t.sessions[|s.sessions|].pc == pc
    && t.pages == s.pages && t.recording == s.recording && t.completions == s.completions && t.now == s.now
  }

  /** A confirmation that finds the proposal unlocked starts exactly when it is pending, unexpired and at its
      version, and then it has the lock. A completed proposal is replayed to the key that completed it and
      to no other; one that is too late is marked as expired. */
  lemma ConfirmationIsAnsweredExactly(s: State, seconds: nat, key: string)
    requires s.holder.None?
    ensures var later, p := Step(s, Wait(seconds)), s.proposal;
            var t := Step(later, Confirm(key));
            if p.status == Completed then
              Answers(later, t, key, Ended(key == p.key)) && t.proposal == p && t.holder.None?
            else if p.status == Pending && s.now + seconds < p.expires && s.recording.version == p.version then
              Answers(later, t, key, ReadSource) && t.proposal == p && t.holder == Some(|s.sessions|)
            else
              && Answers(later, t, key, Ended(false)) && t.holder.None?
              && t.proposal == if p.status == Pending && s.now + seconds < p.expires then p else p.(status := Expired)
  {
  }

  /** While one confirmation has the lock, another one waits, and so does whoever raises the version. */
  lemma LockKeepsOthersWaiting(s: State, key: string)
    ensures s.holder.Some? ==> Step(s, Confirm(key)) == s
    ensures Step(s, BumpVersion).recording.version == s.recording.version + (if s.holder.Some? then 0 else 1)
  {
  }

  /** A request or commit without an answer ends its confirmation and frees the lock, and so does a cut-off.
      Only a write to a card may have happened; proposal and recording are as they were. */
  lemma UnansweredStepEnds(s: State, i: nat, a: Answer)
    requires i < |s.sessions| && Live(s.sessions[i]) && a != Ok
    ensures var over := s.(sessions := s.sessions[i := s.sessions[i].(pc := Ended(false))],
                           holder := if s.holder == Some(i) then None else s.holder);
            && Step(s, CutOff(i)) == over
            && Step(s, Next(i, a))
               == if a == Lost && s.sessions[i].pc == WriteTarget
                  then over.(pages := s.pages[s.proposal.target := [s.recording.url]])
                  else if a == Lost && s.sessions[i].pc == ClearSource
                  then over.(pages := s.pages[s.proposal.source := []])
                  else over
  {
  }

  /** Cards that are not as the proposal left them end a confirmation before it writes anything. */
  lemma ChangedCardsEnd(s: State, i: nat)
    requires i < |s.sessions| && s.sessions[i].pc == ReadSource && s.holder == Some(i)
    requires s.sessions[i].written == s.proposal.written && !CardsFit(s)
    ensures var t := Step(Step(s, Next(i, Ok)), Next(i, Ok));
            t == s.(sessions := s.sessions[i := s.sessions[i].(pc := Ended(false))], holder := None)
  {
    var c := s.sessions[i];
    var read := Step(s, Next(i, Ok));
    assert read == s.(sessions := s.sessions[i := c.(pc := ReadTarget(At(s.pages, s.proposal.source)))]);
    assert Step(read, Next(i, Ok)).sessions == s.sessions[i := c.(pc := Ended(false))];
  }

  /** A target that does not show the link after the write ends the confirmation as well. */
  lemma UnverifiedTargetEnds(s: State, i: nat)
    requires i < |s.sessions| && s.sessions[i].pc == VerifyTarget && s.holder == Some(i) && !TargetHolds(s)
    ensures Step(s, Next(i, Ok))
            == s.(sessions := s.sessions[i := s.sessions[i].(pc := Ended(false))], holder := None)
  {
  }

  /** From the written target to the completed proposal. */
  lemma ClearedAndCommitted(s: State, i: nat)
    requires i < |s.sessions| && s.sessions[i].pc == ClearSource && s.holder.None?
    ensures Undisturbed(s, i, 2) == s.(
              pages := s.pages[s.proposal.source := []],
              proposal := s.proposal.(status := Completed, key := s.sessions[i].key),
              recording := s.recording.(page := s.proposal.target, version := s.sessions[i].version + 1),
              sessions := s.sessions[i := s.sessions[i].(pc := Ended(true))],
              completions := s.completions + 1)
  {
    var cleared := s.(pages := s.pages[s.proposal.source := []],
                      sessions := s.sessions[i := s.sessions[i].(pc := CommitDone)]);
    assert NextStep(s, i, Ok) == cleared;
    assert Undisturbed(s, i, 2) == Undisturbed(cleared, i, 1) == NextStep(cleared, i, Ok);
  }

  /** All that a confirmation of a fresh proposal leaves, when nothing disturbs it: the link alone on the target
      card and nothing on the source card, the recording on the target card with a new version, and a completed
      proposal that is replayed to its key, and to that key only, however late. */
  lemma UndisturbedConfirmationLeaves(s: State, key: string, later: nat, other: string)
    requires Proposed(s) && s.now < s.proposal.expires && s.proposal.source != s.proposal.target
    ensures var t := Undisturbed(Step(s, Confirm(key)), 0, 7);
            && t.pages == s.pages[s.proposal.target := [s.recording.url]][s.proposal.source := []]
            && t.recording == s.recording.(page := s.proposal.target, version := s.recording.version + 1)
            && t.proposal.status == Completed && t.holder.None? && t.completions == 1
            && |t.sessions| == 1 && t.sessions[0].pc == Ended(true)
            && Answers(Step(t, Wait(later)), Step(Step(t, Wait(later)), Confirm(other)), other, Ended(other == key))
  {
    var begun := Step(s, Confirm(key));
    WritesTarget(begun, 0);
    var written := Undisturbed(begun, 0, 5);
    ClearedAndCommitted(written, 0);
    UndisturbedAddsUp(begun, 0, 5, 2);
    ConfirmationIsAnsweredExactly(Undisturbed(begun, 0, 7), later, other);
  }

  /* ---- The confirmation as an object ---- */

  class Confirmation {
    var now: nat
    var pages: map<string, Files>
    var proposal: Proposal
    var recording: Recording
    var sessions: seq<Session>
    var holder: Option<nat>
    ghost var completions: nat

    ghost function View(): State
      reads this
    {
      State(now, pages, proposal, recording, sessions, holder, completions)
    }

    constructor (pages: map<string, Files>, recording: Recording, target: string, expires: nat)
      ensures Proposed(View()) && proposal.source == recording.page && proposal.target == target
      ensures this.pages == pages && this.recording == recording && proposal.expires == expires
    {
      this.pages, this.recording := pages, recording;
      proposal := Proposal(recording.page, target, recording.version, At(pages, recording.page), At(pages, target),
                           expires, Pending, false, "");
      now, sessions, holder, completions := 0, [], None, 0;
    }

    method Begin(key: string) returns (started: bool)
      requires holder.None?
      modifies this`proposal, this`sessions, this`holder
      ensures View() == ConfirmStep(old(View()), key)
      ensures started <==> holder.Some?
    {
      var loaded := Session(key, recording.version, proposal.written, Ended(false));
      started := false;
      if proposal.status.Completed? {
        sessions := sessions + [loaded.(pc := Ended(proposal.key == key))];
      } else if !proposal.status.Pending? || proposal.expires <= now {
        proposal := proposal.(status := Expired);
        sessions := sessions + [loaded];
      } else if recording.version != proposal.version {
        sessions := sessions + [loaded];
      } else {
        holder := Some(|sessions|);
        sessions := sessions + [loaded.(pc := ReadSource)];
        started := true;
      }
    }

    method Finish(i: nat, ok: bool)
      requires i < |sessions|
      modifies this`sessions, this`holder
      ensures View() == End(old(View()), i, ok)
    {
      sessions := sessions[i := sessions[i].(pc := Ended(ok))];
      if holder == Some(i) {
        holder := None;
      }
    }

    method GoOn(i: nat, pc: Pc)
      requires i < |sessions|
      modifies this`sessions
      ensures View() == GoTo(old(View()), i, pc)
    {
      sessions := sessions[i := sessions[i].(pc := pc)];
    }

    /** Under the lock: read both cards, write and verify the target, and remember that. */
    method AdvanceLocked(i: nat, a: Answer)
      requires i < |sessions| && BeforeFirstCommit(sessions[i].pc)
      modifies this`pages, this`proposal, this`sessions, this`holder
      ensures View() == LockedStep(old(View()), i, a)
    {
      var c := sessions[i];
      match c.pc
      case ReadSource =>
        if a.Ok? { GoOn(i, ReadTarget(At(pages, proposal.source))); } else { Finish(i, false); }
      case ReadTarget(seen) =>
        var target := At(pages, proposal.target);
        if !a.Ok? || seen != proposal.sourceSnapshot {
          Finish(i, false);
        } else if c.written {
          if recording.url in target { GoOn(i, ClearSource); } else { Finish(i, false); }
        } else {
          if target == proposal.targetSnapshot { GoOn(i, WriteTarget); } else { Finish(i, false); }
        }
      case WriteTarget =>
        if !a.Refused? {
          pages := pages[proposal.target := [recording.url]];
        }
        if a.Ok? { GoOn(i, VerifyTarget); } else { Finish(i, false); }
      case VerifyTarget =>
        if a.Ok? && recording.url in At(pages, proposal.target) { GoOn(i, CommitWritten); } else { Finish(i, false); }
      case CommitWritten =>
        if a.Ok? {
          proposal := proposal.(written := true);
          GoOn(i, ClearSource);
          if holder == Some(i) {
            holder := None;
          }
        } else {
          Finish(i, false);
        }
    }

    /** Clear the source and complete. */
    method AdvanceLate(i: nat, a: Answer)
      requires i < |sessions| && sessions[i].pc in {ClearSource, CommitDone}
      modifies this
      ensures View() == LateStep(old(View()), i, a)
    {
      var c := sessions[i];
      if c.pc.ClearSource? {
        if !a.Refused? {
          pages := pages[proposal.source := []];
        }
        if a.Ok? { GoOn(i, CommitDone); } else { Finish(i, false); }
      } else {
        if a.Ok? {
          recording := recording.(page := proposal.target, version := c.version + 1);
          proposal := proposal.(status := Completed, key := c.key);
          completions := completions + 1;
        }
        Finish(i, a.Ok?);
      }
    }

    /** The next request or commit of confirmation `i`. */
    method Advance(i: nat, a: Answer)
      requires i < |sessions|
      modifies this
      ensures View() == NextStep(old(View()), i, a)
    {
      if Live(sessions[i]) {
        if BeforeFirstCommit(sessions[i].pc) {
          AdvanceLocked(i, a);
        } else {
          AdvanceLate(i, a);
        }
      }
    }
  }
}

/**
  Answers to review questions (app/services/reviews.py) and batches of them
  (app/services/question_queue.py): replay, binding, expiry, the version guard, and what an accepted
  answer does to its recording. One answer is one step on locked rows; a batch is one transaction.
*/
module Reviews {
  import opened Values
  import P = Pipeline
  import U = UnleasedRoute

  /** What an option of a question offers, with what its own validation says. */
  datatype Choice =
    | Card(spotValid: bool)
    | CalendarEvent(hasStart: bool, dateValid: bool)
    | Folder(usable: bool)
    | Email(messageId: string, dateValid: bool)
    | Approval(approve: bool, deliverable: bool)
    | Unusable

  datatype QuestionType = Candidate | Routing | SummaryApproval | SummaryEmail

  datatype ReviewStatus = Pending | Processing | Completed | Suppressed

  datatype Review = Review(
    recording: nat, version: nat, questionType: QuestionType, choices: seq<Choice>,
    actor: string, dm: string, questionSet: nat,
    status: ReviewStatus, consumed: bool, token: string, expires: Option<nat>)

  datatype Recording = Recording(status: P.Status, version: nat, summaryEmail: string)

  datatype Action = Resolve(choice: Option<nat>) | Ignore

  /** Everything a request says; its fingerprint is all of it but the idempotency key. */
  datatype Answer = Answer(
    review: nat, action: Action, actor: string, dm: string, token: string, expectedVersion: nat,
    questionSet: nat, key: string, inScope: bool)

  datatype Fingerprint = Fingerprint(
    review: nat, action: Action, actor: string, dm: string, token: string, expectedVersion: nat)

  datatype ReplayKey = ReplayKey(actor: string, review: nat, ignore: bool, key: string)

  datatype Mutation = Mutation(review: nat, recording: nat, status: P.Status, version: nat)

  datatype Replay = Replay(fingerprint: Fingerprint, response: Mutation)

  datatype State = State(
    now: nat, recordings: map<nat, Recording>, reviews: seq<Review>, replays: map<ReplayKey, Replay>,
    acceptances: seq<nat>)   // history: the reviews that were answered, in order

  /** `Raised` is an error that no handler of the batch catches. */
  datatype Verdict = Accepted(m: Mutation) | Replayed(m: Mutation) | Rejected | Raised

  datatype Outcome = Outcome(s: State, verdict: Verdict)

  function FingerprintOf(a: Answer): Fingerprint {
    Fingerprint(a.review, a.action, a.actor, a.dm, a.token, a.expectedVersion)
  }

  function KeyOf(a: Answer): ReplayKey {
    ReplayKey(a.actor, a.review, a.action.Ignore?, a.key)
  }

  predicate DiscardOnly(q: QuestionType) {
    q in {SummaryApproval, SummaryEmail}
  }

  /** The checks of the binding, up to the expiry. */
  predicate Bound(r: Review, a: Answer) {
    r.status.Pending? && !r.consumed && r.actor == a.actor && r.dm == a.dm && r.expires.Some?
  }

  /** The recording as an answer leaves it, before the version is raised: changed, or as it stands when
      the answer is refused. `Failed` is an error of another kind. */
  datatype Effect = Changed(recording: Recording) | Refused(recording: Recording) | Failed

  function Advanced(recording: Recording, to: P.Status): Effect {
    if to in P.Transitions(recording.status) then Changed(recording.(status := to)) else Failed
  }

  function IgnoreEffect(r: Review, recording: Recording): Effect {
    if DiscardOnly(r.questionType) then Changed(recording) else Advanced(recording, P.Ignored)
  }

  function ChoiceEffect(r: Review, recording: Recording, choice: Option<nat>): Effect {
    if choice.None? || choice.value < 1 || choice.value > |r.choices| then Refused(recording)
    else
      var selected := r.choices[choice.value - 1];
      match r.questionType
      case SummaryApproval =>
        if selected.Approval? && selected.approve && !selected.deliverable then Refused(recording)
        else Changed(recording)
      case SummaryEmail =>
        if !selected.Email? || selected.messageId == "" then Refused(recording)
        else
          // the message is stored before its date is read
          var stored := recording.(summaryEmail := selected.messageId);
          if selected.dateValid then Changed(stored) else Refused(stored)
      case _ =>
        match selected
        case Card(spotValid) => if spotValid then Advanced(recording, P.Matched) else Refused(recording)
        case CalendarEvent(hasStart, dateValid) =>
          if !hasStart then Refused(recording)
          else if !dateValid then Failed
          else Advanced(recording, P.EventFound)
        case Folder(usable) =>
          if r.questionType.Routing? && usable then Advanced(recording, P.TransferStarted) else Refused(recording)
        case _ => Refused(recording)
  }

  function EffectOf(r: Review, recording: Recording, action: Action): Effect {
    match action
    case Ignore => IgnoreEffect(r, recording)
    case Resolve(choice) => ChoiceEffect(r, recording, choice)
  }

  function Accept(s: State, a: Answer, recording: Recording): Outcome
    requires a.review < |s.reviews|
  {
    var r := s.reviews[a.review];
    var bumped := recording.(version := recording.version + 1);
    var m := Mutation(a.review, r.recording, bumped.status, bumped.version);
    Outcome(s.(recordings := s.recordings[r.recording := bumped],
               reviews := s.reviews[a.review := r.(status := Processing, consumed := true)],
               replays := s.replays[KeyOf(a) := Replay(FingerprintOf(a), m)],
               acceptances := s.acceptances + [a.review]),
            Accepted(m))
  }

  /** `mutate`. */
  function Mutate(s: State, a: Answer): Outcome {
    if a.review >= |s.reviews| || s.reviews[a.review].recording !in s.recordings || !a.inScope then Outcome(s, Rejected)
    else if KeyOf(a) in s.replays then
      var replay := s.replays[KeyOf(a)];
      Outcome(s, if replay.fingerprint == FingerprintOf(a) then Replayed(replay.response) else Rejected)
    else
      var r := s.reviews[a.review];
      var recording := s.recordings[r.recording];
      if !Bound(r, a) then Outcome(s, Rejected)
      else if r.expires.value <= s.now then
        Outcome(s.(reviews := s.reviews[a.review := r.(status := Suppressed)]), Rejected)
      else if recording.version != a.expectedVersion || r.version != a.expectedVersion || r.token != a.token then
        Outcome(s, Rejected)
      else
        match EffectOf(r, recording, a.action)
        case Failed => Outcome(s, Raised)
        case Refused(left) => Outcome(s.(recordings := s.recordings[r.recording := left]), Rejected)
        case Changed(changed) => Accept(s, a, changed)
  }

  /* ---- Batches ---- */

  datatype BatchResult = BatchResult(s: State, accepted: seq<Mutation>, rejected: seq<nat>, raised: bool)

  predicate WellFormed(a: Answer) {
    a.action.Resolve? ==> a.action.choice.Some?
  }

  /** One answer of a batch. */
  function AnswerStep(s: State, a: Answer): Outcome {
    if !WellFormed(a) || a.review >= |s.reviews| || s.reviews[a.review].questionSet != a.questionSet
    then Outcome(s, Rejected)
    else Mutate(s, a)
  }

  function Collected(b: BatchResult, a: Answer): BatchResult {
    if b.raised then b
    else
      var o := AnswerStep(b.s, a);
      match o.verdict
      case Accepted(m) => b.(s := o.s, accepted := b.accepted + [m])
      case Replayed(m) => b.(s := o.s, accepted := b.accepted + [m])
      case Rejected => b.(s := o.s, rejected := b.rejected + [a.review])
      case Raised => b.(raised := true)
  }

  function Fold(s: State, answers: seq<Answer>): BatchResult {
    if answers == [] then BatchResult(s, [], [], false)
    else Collected(Fold(s, answers[..|answers| - 1]), answers[|answers| - 1])
  }

  predicate DistinctReviews(answers: seq<Answer>) {
    forall i, j :: 0 <= i < j < |answers| ==> answers[i].review != answers[j].review
  }

  /** A batch that raises is rolled back as a whole; one of the wrong shape is refused. */
  function Batch(s: State, answers: seq<Answer>): State {
    if answers == [] || |answers| > 50 || !DistinctReviews(answers) || Fold(s, answers).raised then s
    else Fold(s, answers).s
  }

  datatype Event =
    | AnswerBatch(answers: seq<Answer>)
    | Enqueue(r: Review)
    | Rotate(review: nat, token: string, expires: nat, questionSet: nat)
    | CloseReview(review: nat)
    | Wait(seconds: nat)
    | OthersWrite(recording: nat, row: Recording)

  /** What the rest of the pipeline may do to a recording: versions never fall, and manual review is left
      only together with a new version. */
  predicate Allowed(before: Recording, after: Recording) {
    && before.version <= after.version
    && (before.status.Manual? && !after.status.Manual? ==> before.version < after.version)
  }

  /** That is what every commit of the pipeline does, except the disorderly ones of its unleased route. */
  lemma PipelineIsAllowed(st: P.State, e: P.Event, summaryEmail: string, later: string)
    requires P.Inv(st)
    ensures var row := P.Step(st, e).row;
            Allowed(Recording(st.row.status, st.row.version, summaryEmail), Recording(row.status, row.version, later))
            <==> !U.Disorderly(st, e)
  {
    U.OrderBreaksExactlyByDisorderlyCommits(st, e);
  }

  function Step(s: State, e: Event): State {
    match e
    case AnswerBatch(answers) => Batch(s, answers)
    case Enqueue(r) =>
      if r.recording in s.recordings && r.version == s.recordings[r.recording].version
         && (DiscardOnly(r.questionType) || s.recordings[r.recording].status.Manual?)
         && r.status.Pending? && !r.consumed
      then s.(reviews := s.reviews + [r])
      else s
    case Rotate(i, token, expires, questionSet) =>
      if i < |s.reviews| && s.reviews[i].status.Pending?
      then s.(reviews := s.reviews[i := s.reviews[i].(token := token, expires := Some(expires),
                                                      questionSet := questionSet, consumed := false)])
      else s
    case CloseReview(i) =>
      if i < |s.reviews| then s.(reviews := s.reviews[i := s.reviews[i].(status := Completed)]) else s
    case Wait(seconds) => s.(now := s.now + seconds)
    case OthersWrite(recording, row) =>
      if recording in s.recordings && !Allowed(s.recordings[recording], row) then s
      else s.(recordings := s.recordings[recording := row])
  }

  function Run(s: State, events: seq<Event>): State
    decreases |events|
  {
    if events == [] then s else Run(Step(s, events[0]), events[1..])
  }

  predicate Initial(s: State) {
    s.reviews == [] && s.replays == map[] && s.acceptances == []
  }

  /* ---- What every answer keeps ---- */

  predicate ReviewInv(s: State, r: Review) {
    && r.recording in s.recordings
    && r.version <= s.recordings[r.recording].version
    && (!DiscardOnly(r.questionType) && r.version == s.recordings[r.recording].version ==>
          s.recordings[r.recording].status.Manual?)
  }

  predicate AcceptedInv(s: State, i: nat) {
    && i < |s.reviews| && !s.reviews[i].status.Pending?
    && s.reviews[i].recording in s.recordings
    && s.reviews[i].version < s.recordings[s.reviews[i].recording].version
  }

  predicate Inv(s: State) {
    && (forall i :: 0 <= i < |s.reviews| ==> ReviewInv(s, s.reviews[i]))
    && (forall key :: key in s.replays ==> s.replays[key].response.review == key.review)
    && (forall k :: 0 <= k < |s.acceptances| ==> AcceptedInv(s, s.acceptances[k]))
    && (forall k, l :: 0 <= k < l < |s.acceptances| ==> s.acceptances[k] != s.acceptances[l])
    && (forall k, l :: 0 <= k < l < |s.acceptances| ==>
          var a, b := s.reviews[s.acceptances[k]], s.reviews[s.acceptances[l]];
          a.recording == b.recording ==> a.version != b.version)
  }

  /** Where an answer gets past every check of its binding. */
  predicate Current(s: State, a: Answer) {
    && a.review < |s.reviews| && s.reviews[a.review].recording in s.recordings && a.inScope
    && KeyOf(a) !in s.replays
    && var r := s.reviews[a.review];
       && r.status == Pending && !r.consumed && r.actor == a.actor && r.dm == a.dm && r.token == a.token
       && r.expires.Some? && s.now < r.expires.value
       && r.version == a.expectedVersion == s.recordings[r.recording].version
  }

  /** Keeping the versions and statuses keeps the questions in order. */
  lemma SameStatusesKeepInv(s: State, t: State)
    requires Inv(s) && t.reviews == s.reviews && t.replays == s.replays && t.acceptances == s.acceptances
    requires forall r :: r in s.recordings ==> r in t.recordings && t.recordings[r].version == s.recordings[r].version
                                               && t.recordings[r].status == s.recordings[r].status
    ensures Inv(t)
  {
    forall i | 0 <= i < |t.reviews|
      ensures ReviewInv(t, t.reviews[i])
    {
      assert ReviewInv(s, s.reviews[i]);
    }
    forall k | 0 <= k < |t.acceptances|
      ensures AcceptedInv(t, t.acceptances[k])
    {
      assert AcceptedInv(s, s.acceptances[k]);
    }
  }

  lemma AcceptKeepsInv(s: State, a: Answer, changed: Recording)
    requires Inv(s) && Current(s, a)
    requires changed.version == s.recordings[s.reviews[a.review].recording].version
    ensures Inv(Accept(s, a, changed).s)
  {
    var t := Accept(s, a, changed).s;
    var recording := s.reviews[a.review].recording;
    forall i | 0 <= i < |t.reviews|
      ensures ReviewInv(t, t.reviews[i])
    {
      assert ReviewInv(s, s.reviews[i]);
    }
    forall k | 0 <= k < |t.acceptances|
      ensures AcceptedInv(t, t.acceptances[k])
    {
      if k < |s.acceptances| {
        assert AcceptedInv(s, s.acceptances[k]);
      }
    }
    forall k, l | 0 <= k < l < |t.acceptances|
      ensures t.acceptances[k] != t.acceptances[l]
      ensures var x, y := t.reviews[t.acceptances[k]], t.reviews[t.acceptances[l]];
              x.recording == y.recording ==> x.version != y.version
    {
      assert AcceptedInv(s, s.acceptances[k]);
      if l < |s.acceptances| {
        assert AcceptedInv(s, s.acceptances[l]);
      }
    }
  }

  lemma MutateKeepsInv(s: State, a: Answer)
    requires Inv(s)
    ensures Inv(Mutate(s, a).s)
  {
    if Current(s, a) {
      var r := s.reviews[a.review];
      match EffectOf(r, s.recordings[r.recording], a.action)
      case Failed =>
      case Refused(left) => SameStatusesKeepInv(s, Mutate(s, a).s);
      case Changed(changed) => AcceptKeepsInv(s, a, changed);
    }
  }

  lemma {:induction false} FoldKeepsInv(s: State, answers: seq<Answer>)
    requires Inv(s)
    ensures Inv(Fold(s, answers).s)
  {
    if answers != [] {
      FoldKeepsInv(s, answers[..|answers| - 1]);
      var b := Fold(s, answers[..|answers| - 1]);
      MutateKeepsInv(b.s, answers[|answers| - 1]);
    }
  }

  lemma OthersKeepInv(s: State, recording: nat, row: Recording)
    requires Inv(s)
    ensures Inv(Step(s, OthersWrite(recording, row)))
  {
    var t := Step(s, OthersWrite(recording, row));
    forall i | 0 <= i < |t.reviews|
      ensures ReviewInv(t, t.reviews[i])
    {
      assert ReviewInv(s, s.reviews[i]);
    }
    forall k | 0 <= k < |t.acceptances|
      ensures AcceptedInv(t, t.acceptances[k])
    {
      assert AcceptedInv(s, s.acceptances[k]);
    }
  }

  lemma StepKeepsInv(s: State, e: Event)
    requires Inv(s)
    ensures Inv(Step(s, e))
  {
    match e
    case AnswerBatch(answers) => FoldKeepsInv(s, answers);
    case OthersWrite(recording, row) => OthersKeepInv(s, recording, row);
    case _ =>
  }

  lemma {:induction false} RunKeepsInv(s: State, events: seq<Event>)
    requires Inv(s)
    ensures Inv(Run(s, events))
    decreases |events|
  {
    if events != [] {
      StepKeepsInv(s, events[0]);
      RunKeepsInv(Step(s, events[0]), events[1..]);
    }
  }

  /* ---- Guarantees over all runs ---- */

  /** No review is accepted twice, and of the reviews issued for one version of a recording at most one
      is. */
  lemma AcceptedOnce(s: State, events: seq<Event>, k: nat, l: nat)
    requires Initial(s)
    ensures var t := Run(s, events);
            k < l < |t.acceptances| ==>
              && t.acceptances[k] != t.acceptances[l]
              && t.acceptances[k] < |t.reviews| && t.acceptances[l] < |t.reviews|
              && var a, b := t.reviews[t.acceptances[k]], t.reviews[t.acceptances[l]];
                 !(a.recording == b.recording && a.version == b.version)
  {
    RunKeepsInv(s, events);
    var t := Run(s, events);
    if k < l < |t.acceptances| {
      assert AcceptedInv(t, t.acceptances[k]) && AcceptedInv(t, t.acceptances[l]);
    }
  }

  /** The answer to a pipeline question that gets past its checks finds the recording in manual review,
      so the transition it asks for is legal; only an unreadable calendar date can still raise. */
  lemma AnswersFindManualReview(s: State, events: seq<Event>, a: Answer)
    requires Initial(s)
    ensures var t := Run(s, events);
            Current(t, a) && !DiscardOnly(t.reviews[a.review].questionType) ==>
              var r := t.reviews[a.review];
              && t.recordings[r.recording].status.Manual?
              && (Mutate(t, a).verdict.Raised? <==>
                    && a.action.Resolve? && a.action.choice.Some? && 1 <= a.action.choice.value <= |r.choices|
                    && var selected := r.choices[a.action.choice.value - 1];
                       selected.CalendarEvent? && selected.hasStart && !selected.dateValid)
  {
    RunKeepsInv(s, events);
    var t := Run(s, events);
    if Current(t, a) {
      assert ReviewInv(t, t.reviews[a.review]);
    }
  }

  /** Replies stay, reviews keep their recordings, and nothing is dropped. */
  ghost predicate GrownFrom(s: State, t: State) {
    && (forall key :: key in s.replays ==> key in t.replays && t.replays[key] == s.replays[key])
    && (forall r :: r in s.recordings ==> r in t.recordings)
    && |s.reviews| <= |t.reviews|
    && (forall i :: 0 <= i < |s.reviews| ==> t.reviews[i].recording == s.reviews[i].recording)
  }

  lemma GrowthAddsUp(s: State, t: State, u: State)
    requires GrownFrom(s, t) && GrownFrom(t, u)
    ensures GrownFrom(s, u)
  {
  }

  lemma MutateGrows(s: State, a: Answer)
    ensures GrownFrom(s, Mutate(s, a).s)
  {
  }

  lemma {:induction false} FoldGrows(s: State, answers: seq<Answer>)
    ensures GrownFrom(s, Fold(s, answers).s)
  {
    if answers != [] {
      var before := Fold(s, answers[..|answers| - 1]);
      FoldGrows(s, answers[..|answers| - 1]);
      MutateGrows(before.s, answers[|answers| - 1]);
      GrowthAddsUp(s, before.s, Mutate(before.s, answers[|answers| - 1]).s);
    }
  }

  lemma StepGrows(s: State, e: Event)
    ensures GrownFrom(s, Step(s, e))
  {
    match e
    case AnswerBatch(answers) => FoldGrows(s, answers);
    case Enqueue(r) =>
    case Rotate(_, _, _, _) =>
    case CloseReview(_) =>
    case Wait(_) =>
    case OthersWrite(_, _) =>
  }

  lemma {:induction false} RunGrows(s: State, events: seq<Event>)
    ensures GrownFrom(s, Run(s, events))
    decreases |events|
  {
    if events != [] {
      StepGrows(s, events[0]);
      RunGrows(Step(s, events[0]), events[1..]);
      GrowthAddsUp(s, Step(s, events[0]), Run(s, events));
    }
  }

  /** Once an answer was accepted, the same request gets the same result and changes nothing, however
      late it comes; another request under its key is turned down. */
  lemma ReplayAnswersAlike(s: State, a: Answer, events: seq<Event>, later: Answer)
    requires Mutate(s, a).verdict.Accepted?
    requires KeyOf(later) == KeyOf(a) && later.inScope
    ensures var t := Run(Mutate(s, a).s, events);
            Mutate(t, later) == Outcome(t, if FingerprintOf(later) == FingerprintOf(a)
                                           then Replayed(Mutate(s, a).verdict.m) else Rejected)
  {
    RunGrows(Mutate(s, a).s, events);
  }

  /* ---- What a batch guarantees ---- */

  function IdsOf(accepted: seq<Mutation>): seq<nat> {
    seq(|accepted|, i requires 0 <= i < |accepted| => accepted[i].review)
  }

  predicate Listed(b: BatchResult, id: nat) {
    id in IdsOf(b.accepted) || id in b.rejected
  }

  /** Both lists together hold the reviews of the answers, each once. */
  ghost predicate Partitions(b: BatchResult, answers: seq<Answer>) {
    && |b.accepted| + |b.rejected| == |answers|
    && (forall i :: 0 <= i < |answers| ==>
          (answers[i].review in IdsOf(b.accepted)) != (answers[i].review in b.rejected))
    && (forall id :: Listed(b, id) ==> exists i :: 0 <= i < |answers| && answers[i].review == id)
  }

  /** One more answer, to a review that no earlier answer is about, goes to one of the lists. */
  lemma OneMoreListed(before: BatchResult, after: BatchResult, answers: seq<Answer>, a: Answer)
    requires Partitions(before, answers) && forall i :: 0 <= i < |answers| ==> answers[i].review != a.review
    requires || (after.accepted == before.accepted && after.rejected == before.rejected + [a.review])
             || (IdsOf(after.accepted) == IdsOf(before.accepted) + [a.review] && after.rejected == before.rejected)
    ensures Partitions(after, answers + [a])
  {
    var all := answers + [a];
    assert !Listed(before, a.review);
    assert |IdsOf(after.accepted)| == |after.accepted| && |IdsOf(before.accepted)| == |before.accepted|;
    forall i | 0 <= i < |all|
      ensures (all[i].review in IdsOf(after.accepted)) != (all[i].review in after.rejected)
    {
      if i < |answers| {
        assert all[i] == answers[i];
      }
    }
    forall id | Listed(after, id)
      ensures exists i :: 0 <= i < |all| && all[i].review == id
    {
      if id == a.review {
        assert all[|answers|].review == id;
      } else {
        assert Listed(before, id);
        var k :| 0 <= k < |answers| && answers[k].review == id;
        assert all[k].review == id;
      }
    }
  }

  lemma MutationNamesItsReview(s: State, a: Answer)
    requires Inv(s)
    ensures var verdict := AnswerStep(s, a).verdict;
            verdict.Accepted? || verdict.Replayed? ==> verdict.m.review == a.review
  {
  }

  lemma CollectedUnderItsReview(before: BatchResult, a: Answer)
    requires Inv(before.s) && !Collected(before, a).raised
    ensures var after := Collected(before, a);
            || (after.accepted == before.accepted && after.rejected == before.rejected + [a.review])
            || (IdsOf(after.accepted) == IdsOf(before.accepted) + [a.review] && after.rejected == before.rejected)
  {
    MutationNamesItsReview(before.s, a);
    var verdict := AnswerStep(before.s, a).verdict;
    if verdict.Accepted? || verdict.Replayed? {
      assert IdsOf(before.accepted + [verdict.m]) == IdsOf(before.accepted) + [verdict.m.review];
    }
  }

  /** Accepted and rejected answers make up the batch: none is in both lists, none is missing. */
  lemma {:induction false} BatchPartitionsItsAnswers(s: State, answers: seq<Answer>)
    requires Inv(s) && DistinctReviews(answers) && !Fold(s, answers).raised
    ensures Partitions(Fold(s, answers), answers)
  {
    if answers != [] {
      var n := |answers| - 1;
      var before, b := Fold(s, answers[..n]), Fold(s, answers);
      BatchPartitionsItsAnswers(s, answers[..n]);
      FoldKeepsInv(s, answers[..n]);
      CollectedUnderItsReview(before, answers[n]);
      OneMoreListed(before, b, answers[..n], answers[n]);
      assert answers[..n] + [answers[n]] == answers;
    }
  }

  function AcceptancesOn(s: State, from: nat, recording: nat): nat
    requires from <= |s.acceptances|
    decreases |s.acceptances| - from
  {
    if from == |s.acceptances| then 0
    else
      (if s.acceptances[from] < |s.reviews| && s.reviews[s.acceptances[from]].recording == recording then 1 else 0)
      + AcceptancesOn(s, from + 1, recording)
  }

  lemma {:induction false} AcceptancesAppend(s: State, t: State, from: nat, recording: nat)
    requires from <= |s.acceptances| && |t.reviews| == |s.reviews|
    requires forall i :: 0 <= i < |s.reviews| ==> t.reviews[i].recording == s.reviews[i].recording
    ensures t.acceptances == s.acceptances ==> AcceptancesOn(t, from, recording) == AcceptancesOn(s, from, recording)
    ensures |t.acceptances| == |s.acceptances| + 1 && t.acceptances[..|s.acceptances|] == s.acceptances ==>
              var id := t.acceptances[|s.acceptances|];
              AcceptancesOn(t, from, recording)
              == AcceptancesOn(s, from, recording)
                 + (if id < |s.reviews| && s.reviews[id].recording == recording then 1 else 0)
    decreases |s.acceptances| - from
  {
    if from < |s.acceptances| {
      AcceptancesAppend(s, t, from + 1, recording);
      assert |t.acceptances| == |s.acceptances| + 1 && t.acceptances[..|s.acceptances|] == s.acceptances ==>
          t.acceptances[from] == s.acceptances[from];
    }
  }

  predicate KnownRecordings(s: State) {
    forall i :: 0 <= i < |s.reviews| ==> s.reviews[i].recording in s.recordings
  }

  predicate SameSubjects(s: State, t: State) {
    && |t.reviews| == |s.reviews|
    && forall i :: 0 <= i < |s.reviews| ==> t.reviews[i].recording == s.reviews[i].recording
  }

  /** From `s` to `t`, the recording got `newly` new versions, and a new status only with one of them. */
  predicate RaisedBy(s: State, t: State, recording: nat, newly: nat) {
    && recording in s.recordings && recording in t.recordings && KnownRecordings(t) && SameSubjects(s, t)
    && t.recordings[recording].version == s.recordings[recording].version + newly
    && (newly == 0 ==> t.recordings[recording].status == s.recordings[recording].status)
  }

  lemma AnswerBumpsOnce(s: State, a: Answer, recording: nat)
    requires recording in s.recordings && KnownRecordings(s)
    ensures var t := AnswerStep(s, a).s;
            if AnswerStep(s, a).verdict.Accepted? then
              t.acceptances == s.acceptances + [a.review] && a.review < |s.reviews|
              && RaisedBy(s, t, recording, if s.reviews[a.review].recording == recording then 1 else 0)
            else t.acceptances == s.acceptances && RaisedBy(s, t, recording, 0)
  {
  }

  /** Counting one more answer. */
  lemma OneMoreCounted(s: State, mid: State, t: State, recording: nat, review: nat, accepted: bool)
    requires |s.acceptances| <= |mid.acceptances|
    requires RaisedBy(s, mid, recording, AcceptancesOn(mid, |s.acceptances|, recording))
    requires if accepted then
               t.acceptances == mid.acceptances + [review] && review < |mid.reviews|
               && RaisedBy(mid, t, recording, if mid.reviews[review].recording == recording then 1 else 0)
             else t.acceptances == mid.acceptances && RaisedBy(mid, t, recording, 0)
    ensures |s.acceptances| <= |t.acceptances|
    ensures RaisedBy(s, t, recording, AcceptancesOn(t, |s.acceptances|, recording))
  {
    AcceptancesAppend(mid, t, |s.acceptances|, recording);
    if accepted {
      assert t.acceptances[..|mid.acceptances|] == mid.acceptances;
    }
  }

  /** A batch raises the version of a recording by exactly the number of answers it newly accepted on
      it; without any, status and version stay, whatever was rejected or replayed. */
  lemma {:induction false} VersionsCountAcceptances(s: State, answers: seq<Answer>, recording: nat)
    requires recording in s.recordings && KnownRecordings(s)
    ensures var t := Fold(s, answers).s;
            |s.acceptances| <= |t.acceptances|
            && RaisedBy(s, t, recording, AcceptancesOn(t, |s.acceptances|, recording))
  {
    if answers != [] {
      var a := answers[|answers| - 1];
      var before := Fold(s, answers[..|answers| - 1]);
      VersionsCountAcceptances(s, answers[..|answers| - 1], recording);
      if !before.raised {
        AnswerBumpsOnce(before.s, a, recording);
        OneMoreCounted(s, before.s, AnswerStep(before.s, a).s, recording, a.review,
                       AnswerStep(before.s, a).verdict.Accepted?);
      }
    }
  }

  /** What a rejected answer may leave behind on its recording, exactly: the message of an e-mail option
      whose date cannot be read. Status and version it never touches. */
  lemma RejectedAnswerLeavesOnlyTheMessage(s: State, a: Answer)
    requires Mutate(s, a).verdict.Rejected?
    ensures var t := Mutate(s, a).s;
            && (forall r :: r in s.recordings ==>
                  (r in t.recordings
                   && t.recordings[r].status == s.recordings[r].status
                   && t.recordings[r].version == s.recordings[r].version))
            && (t.recordings != s.recordings ==>
                  && Current(s, a) && s.reviews[a.review].questionType.SummaryEmail?
                  && a.action.Resolve? && a.action.choice.Some?
                  && 1 <= a.action.choice.value <= |s.reviews[a.review].choices|
                  && var selected := s.reviews[a.review].choices[a.action.choice.value - 1];
                     selected.Email? && !selected.dateValid)
  {
  }

  lemma UnreadableDateLeavesTheMessage(s: State, a: Answer)
    requires Current(s, a) && s.reviews[a.review].questionType.SummaryEmail?
    requires a.action.Resolve? && a.action.choice.Some? && 1 <= a.action.choice.value <= |s.reviews[a.review].choices|
    requires var selected := s.reviews[a.review].choices[a.action.choice.value - 1];
             selected.Email? && !selected.dateValid && selected.messageId != ""
    ensures Mutate(s, a).verdict.Rejected?
    ensures Mutate(s, a).s.recordings[s.reviews[a.review].recording].summaryEmail
            == s.reviews[a.review].choices[a.action.choice.value - 1].messageId
  {
    var r := s.reviews[a.review];
    assert EffectOf(r, s.recordings[r.recording], a.action).Refused?;
  }

  /* ---- What an answer leads to ---- */

  /** The answer goes through: its review is taken and its recording gets a new version and this status; the
      same request will be answered with just that. */
  ghost predicate GoesThrough(s: State, a: Answer, status: P.Status, summaryEmail: string)
    requires a.review < |s.reviews| && s.reviews[a.review].recording in s.recordings
  {
    var r, o := s.reviews[a.review], Mutate(s, a);
    var before := s.recordings[r.recording];
    && o.verdict == Accepted(Mutation(a.review, r.recording, status, before.version + 1))
    && o.s.recordings == s.recordings[r.recording := Recording(status, before.version + 1, summaryEmail)]
    && o.s.reviews == s.reviews[a.review := r.(status := Processing, consumed := true)]
    && o.s.acceptances == s.acceptances + [a.review] && o.s.now == s.now
    && forall key :: key in s.replays ==> key in o.s.replays && o.s.replays[key] == s.replays[key]
  }

  /** Ignoring takes a recording out of the pipeline, except where the question is about its summary. */
  lemma IgnoringLeadsTo(s: State, a: Answer)
    requires Inv(s) && Current(s, a) && a.action.Ignore?
    ensures var r := s.reviews[a.review];
            var before := s.recordings[r.recording];
            GoesThrough(s, a, if r.questionType in {Candidate, Routing} then P.Ignored else before.status,
                        before.summaryEmail)
  {
    var r := s.reviews[a.review];
    assert ReviewInv(s, r);
    match r.questionType
    case Candidate =>
    case Routing =>
    case SummaryApproval =>
    case SummaryEmail =>
  }

  /** Nothing but the list of options can be chosen from. */
  lemma OutsideChoiceIsRejected(s: State, a: Answer)
    requires Current(s, a) && a.action.Resolve?
    requires a.action.choice.None? || a.action.choice.value == 0
             || a.action.choice.value > |s.reviews[a.review].choices|
    ensures Mutate(s, a) == Outcome(s, Rejected)
  {
    var r := s.reviews[a.review];
    assert s.recordings[r.recording := s.recordings[r.recording]] == s.recordings;
  }

  /** The option that a choice picks. */
  function Picked(s: State, a: Answer): Choice
    requires a.review < |s.reviews| && a.action.Resolve? && a.action.choice.Some?
    requires 1 <= a.action.choice.value <= |s.reviews[a.review].choices|
  {
    s.reviews[a.review].choices[a.action.choice.value - 1]
  }

  /** On a pipeline question a card matches the recording, an event finds it its event, and a folder, where one is
      asked for, starts the transfer. Every other option changes nothing, and only an unreadable date raises. */
  lemma PipelineAnswerLeadsTo(s: State, a: Answer)
    requires Inv(s) && Current(s, a) && s.reviews[a.review].questionType in {Candidate, Routing}
    requires a.action.Resolve? && a.action.choice.Some?
    requires 1 <= a.action.choice.value <= |s.reviews[a.review].choices|
    ensures var r, picked := s.reviews[a.review], Picked(s, a);
            var email := s.recordings[r.recording].summaryEmail;
            if picked == Card(true) then GoesThrough(s, a, P.Matched, email)
            else if picked == CalendarEvent(true, true) then GoesThrough(s, a, P.EventFound, email)
            else if picked == Folder(true) && r.questionType == Routing then GoesThrough(s, a, P.TransferStarted, email)
            else Mutate(s, a) == Outcome(s, if picked == CalendarEvent(true, false) then Raised else Rejected)
  {
    var r := s.reviews[a.review];
    assert ReviewInv(s, r);
    assert s.recordings[r.recording := s.recordings[r.recording]] == s.recordings;
  }

  /** On a summary question the status stays. An approval counts exactly when it can be delivered, a rejection
      always; an e-mail is taken exactly with a message and a readable date. */
  lemma SummaryAnswerLeadsTo(s: State, a: Answer)
    requires Current(s, a) && s.reviews[a.review].questionType in {SummaryApproval, SummaryEmail}
    requires a.action.Resolve? && a.action.choice.Some?
    requires 1 <= a.action.choice.value <= |s.reviews[a.review].choices|
    ensures var r, picked := s.reviews[a.review], Picked(s, a);
            var before := s.recordings[r.recording];
            if r.questionType == SummaryApproval then
              if picked == Approval(true, false) then Mutate(s, a) == Outcome(s, Rejected)
              else GoesThrough(s, a, before.status, before.summaryEmail)
            else if picked.Email? && picked.messageId != "" && picked.dateValid then
              GoesThrough(s, a, before.status, picked.messageId)
            else
              Mutate(s, a) == Outcome(
                s.(recordings := if picked.Email? && picked.messageId != ""
                                 then s.recordings[r.recording := before.(summaryEmail := picked.messageId)]
                                 else s.recordings), Rejected)
  {
    var r := s.reviews[a.review];
    assert s.recordings[r.recording := s.recordings[r.recording]] == s.recordings;
  }

  /** An answer to a question that is not current, and that was not given before, is turned down. That leaves
      no trace, except that a question past its time, asked for by whom it is addressed to, is suppressed. */
  lemma StaleAnswerIsTurnedDown(s: State, a: Answer)
    requires !Current(s, a) && (a.review < |s.reviews| ==> KeyOf(a) !in s.replays)
    ensures Mutate(s, a).verdict == Rejected
    ensures if && a.review < |s.reviews| && s.reviews[a.review].recording in s.recordings && a.inScope
               && var r := s.reviews[a.review];
                  r.status == Pending && !r.consumed && r.actor == a.actor && r.dm == a.dm
                  && r.expires.Some? && r.expires.value <= s.now
            then Mutate(s, a).s
                 == s.(reviews := s.reviews[a.review := s.reviews[a.review].(status := Suppressed)])
            else Mutate(s, a).s == s
  {
  }

  /** What two halves of a batch come to together. */
  predicate Joins(before: BatchResult, after: BatchResult, all: BatchResult) {
    && all.raised == after.raised
    && (!all.raised ==> all.s == after.s && all.accepted == before.accepted + after.accepted
                        && all.rejected == before.rejected + after.rejected)
  }

  lemma JoinsOneMore(before: BatchResult, after: BatchResult, all: BatchResult, a: Answer)
    requires Joins(before, after, all)
    ensures Joins(before, Collected(after, a), Collected(all, a))
  {
    if !all.raised {
      match AnswerStep(all.s, a).verdict
      case Accepted(m) => assert before.accepted + (after.accepted + [m]) == all.accepted + [m];
      case Replayed(m) => assert before.accepted + (after.accepted + [m]) == all.accepted + [m];
      case Rejected => assert before.rejected + (after.rejected + [a.review]) == all.rejected + [a.review];
      case Raised =>
    }
  }

  /** A batch is its answers one after the other: the second half of it works on what the first one left. */
  lemma {:induction false} BatchSplits(s: State, first: seq<Answer>, rest: seq<Answer>)
    requires !Fold(s, first).raised
    ensures Joins(Fold(s, first), Fold(Fold(s, first).s, rest), Fold(s, first + rest))
    decreases |rest|
  {
    if rest == [] {
      assert first + rest == first;
    } else {
      var shorter := rest[..|rest| - 1];
      BatchSplits(s, first, shorter);
      assert (first + rest)[..|first + rest| - 1] == first + shorter;
      JoinsOneMore(Fold(s, first), Fold(Fold(s, first).s, shorter), Fold(s, first + shorter), rest[|rest| - 1]);
    }
  }

  /** A batch of one answer is that answer, or nothing when it raises. */
  lemma SingleAnswerIsItself(s: State, a: Answer)
    ensures var o := AnswerStep(s, a);
            Fold(s, [a]) == match o.verdict
                            case Accepted(m) => BatchResult(o.s, [m], [], false)
                            case Replayed(m) => BatchResult(o.s, [m], [], false)
                            case Rejected => BatchResult(o.s, [], [a.review], false)
                            case Raised => BatchResult(s, [], [], true)
  {
    assert [a][..0] == [];
    assert Fold(s, [a]) == Collected(Fold(s, []), a);
  }

  /** A question is issued exactly for the recording as it is: at its version and, unless it is about the summary,
      in manual review. A new digest renews its token, time and set as long as it is pending; a closed one
      is answered no more. */
  lemma QuestionIsIssuedExactly(s: State, r: Review, i: nat, token: string, expires: nat, questionSet: nat)
    ensures Step(s, Enqueue(r))
            == if r.recording in s.recordings && r.version == s.recordings[r.recording].version
                  && (r.questionType in {SummaryApproval, SummaryEmail} || s.recordings[r.recording].status == P.Manual)
                  && r.status == Pending && !r.consumed
               then s.(reviews := s.reviews + [r]) else s
    ensures Step(s, Rotate(i, token, expires, questionSet))
            == if i < |s.reviews| && s.reviews[i].status == Pending
               then s.(reviews := s.reviews[i := s.reviews[i].(token := token, expires := Some(expires),
                                                               questionSet := questionSet, consumed := false)])
               else s
    ensures Step(s, CloseReview(i)).reviews
            == if i < |s.reviews| then s.reviews[i := s.reviews[i].(status := Completed)] else s.reviews
  {
  }

  /** A batch is refused as a whole exactly when it is empty, too long, asks twice or raises. One answer of it
      is turned down without a look at its question when it is incomplete or of another question set. */
  lemma BatchIsTakenExactly(s: State, answers: seq<Answer>, a: Answer)
    ensures Step(s, AnswerBatch(answers))
            == if 1 <= |answers| <= 50 && !Fold(s, answers).raised
                  && (forall i, j :: 0 <= i < j < |answers| ==> answers[i].review != answers[j].review)
               then Fold(s, answers).s else s
    ensures AnswerStep(s, a)
            == if a.review < |s.reviews| && a.questionSet == s.reviews[a.review].questionSet
                  && (a.action.Ignore? || a.action.choice.Some?)
               then Mutate(s, a) else Outcome(s, Rejected)
  {
  }

  /* ---- The service ---- */

  class ReviewService {
    var now: nat
    var recordings: map<nat, Recording>
    var reviews: seq<Review>
    var replays: map<ReplayKey, Replay>
    ghost var acceptances: seq<nat>

    ghost function View(): State
      reads this
    {
      State(now, recordings, reviews, replays, acceptances)
    }

    constructor (recordings: map<nat, Recording>)
      ensures Initial(View()) && this.recordings == recordings
    {
      now, reviews, replays, acceptances := 0, [], map[], [];
      this.recordings := recordings;
    }

    /** Suppresses an expired question before it raises. */
    method ValidateBinding(a: Answer) returns (ok: bool)
      requires a.review < |reviews| && reviews[a.review].recording in recordings
      modifies this`reviews
      ensures var r := old(reviews[a.review]);
              && ok == (Bound(r, a) && r.expires.value > now && r.token == a.token
                        && r.version == a.expectedVersion == recordings[r.recording].version)
              && reviews == if Bound(r, a) && r.expires.value <= now
                            then old(reviews)[a.review := r.(status := Suppressed)] else old(reviews)
    {
      var r := reviews[a.review];
      if !r.status.Pending? || r.consumed || r.actor != a.actor || r.dm != a.dm {
        return false;
      }
      match r.expires
      case None => return false;
      case Some(expires) =>
        if expires <= now {
          reviews := reviews[a.review := r.(status := Suppressed)];
          return false;
        }
        if recordings[r.recording].version != a.expectedVersion || r.version != a.expectedVersion {
          return false;
        }
        ok := r.token == a.token;
    }

    method MutateReview(a: Answer) returns (verdict: Verdict)
      modifies this
      ensures Outcome(View(), verdict) == Mutate(old(View()), a)
    {
      if a.review >= |reviews| || reviews[a.review].recording !in recordings || !a.inScope {
        return Rejected;
      }
      if KeyOf(a) in replays {
        var replay := replays[KeyOf(a)];
        return if replay.fingerprint == FingerprintOf(a) then Replayed(replay.response) else Rejected;
      }
      var r := reviews[a.review];
      var ok := ValidateBinding(a);
      if !ok {
        return Rejected;
      }
      match EffectOf(r, recordings[r.recording], a.action)
      case Failed => verdict := Raised;
      case Refused(left) =>
        recordings := recordings[r.recording := left];
        verdict := Rejected;
      case Changed(changed) =>
        var bumped := changed.(version := changed.version + 1);
        recordings := recordings[r.recording := bumped];
        reviews := reviews[a.review := r.(status := Processing, consumed := true)];
        var m := Mutation(a.review, r.recording, bumped.status, bumped.version);
        replays := replays[KeyOf(a) := Replay(FingerprintOf(a), m)];
        acceptances := acceptances + [a.review];
        verdict := Accepted(m);
    }

    method AnswerOne(a: Answer) returns (verdict: Verdict)
      modifies this
      ensures Outcome(View(), verdict) == AnswerStep(old(View()), a)
    {
      if a.action.Resolve? && a.action.choice.None? {
        return Rejected;
      }
      if a.review >= |reviews| || reviews[a.review].questionSet != a.questionSet {
        return Rejected;
      }
      verdict := MutateReview(a);
    }

    /** The body of the loop over a batch. */
    method CollectOne(ghost s: State, answers: seq<Answer>, n: nat, accepted: seq<Mutation>, rejected: seq<nat>)
      returns (accepted': seq<Mutation>, rejected': seq<nat>, raised: bool)
      requires n < |answers| && Fold(s, answers[..n]) == BatchResult(View(), accepted, rejected, false)
      modifies this
      ensures now == old(now)
      ensures raised == Fold(s, answers[..n + 1]).raised
      ensures !raised ==> Fold(s, answers[..n + 1]) == BatchResult(View(), accepted', rejected', false)
    {
      assert answers[..n + 1][..n] == answers[..n];
      accepted', rejected', raised := accepted, rejected, false;
      ghost var before := BatchResult(View(), accepted, rejected, false);
      assert Fold(s, answers[..n + 1]) == Collected(before, answers[n]);
      var verdict := AnswerOne(answers[n]);
      match verdict
      case Accepted(m) => accepted' := accepted + [m];
      case Replayed(m) => accepted' := accepted + [m];
      case Rejected => rejected' := rejected + [answers[n].review];
      case Raised => raised := true;
    }

    /** `apply_partial`, with the rollback of its caller when an answer raises. */
    method ApplyPartial(answers: seq<Answer>) returns (accepted: seq<Mutation>, rejected: seq<nat>, refused: bool)
      modifies this
      ensures View() == Batch(old(View()), answers)
      ensures !refused ==>
                var b := Fold(old(View()), answers);
                !b.raised && accepted == b.accepted && rejected == b.rejected
      ensures refused ==> View() == old(View())
    {
      accepted, rejected, refused := [], [], true;
      if answers == [] || |answers| > 50 || !DistinctReviews(answers) {
        return;
      }
      var recordings0, reviews0, replays0 := recordings, reviews, replays;
      ghost var acceptances0 := acceptances;
      var n := 0;
      while n < |answers|
        invariant 0 <= n <= |answers| && now == old(now)
        invariant Fold(old(View()), answers[..n]) == BatchResult(View(), accepted, rejected, false)
      {
        var raised;
        accepted, rejected, raised := CollectOne(old(View()), answers, n, accepted, rejected);
        if raised {
          RaisedStays(old(View()), answers, n + 1);
          recordings, reviews, replays := recordings0, reviews0, replays0;
          acceptances := acceptances0;
          return;
        }
        n := n + 1;
      }
      assert answers[..n] == answers;
      refused := false;
    }
  }

  lemma {:induction false} RaisedStays(s: State, answers: seq<Answer>, n: nat)
    requires n <= |answers| && Fold(s, answers[..n]).raised
    ensures Fold(s, answers).raised
  {
    if n == |answers| {
      assert answers[..n] == answers;
    } else {
      var before := answers[..|answers| - 1];
      assert before[..n] == answers[..n];
      RaisedStays(s, before, n);
    }
  }
}

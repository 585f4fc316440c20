/**
  What the second transaction of the non-interview route can do to a recording: it holds no lease and
  writes its columns over whatever the row has become since it was loaded
  (app/services/non_interview.py:78-96). For each guarantee that this breaks there is the exact commit
  that breaks it, and a run that gets there.
*/
module UnleasedRoute {
  import opened Values
  import opened Pipeline

  /* ---- Runs, one event at a time ---- */

  /** The state before event k of a run. */
  function At(st: State, events: seq<Event>, k: nat): State
    requires k <= |events|
  {
    Run(st, events[..k])
  }

  lemma {:induction false} RunGoesOn(st: State, events: seq<Event>, e: Event)
    ensures Run(st, events + [e]) == Step(Run(st, events), e)
    decreases |events|
  {
    if events == [] {
      assert events + [e] == [e];
    } else {
      assert (events + [e])[1..] == events[1..] + [e];
      RunGoesOn(Step(st, events[0]), events[1..], e);
    }
  }

  lemma AtGoesOn(st: State, events: seq<Event>, k: nat)
    requires k < |events|
    ensures At(st, events, k + 1) == Step(At(st, events, k), events[k])
  {
    assert events[..k + 1] == events[..k] + [events[k]];
    RunGoesOn(st, events[..k], events[k]);
  }

  lemma AtKeepsInv(st: State, events: seq<Event>, k: nat)
    requires Inv(st) && k <= |events|
    ensures Inv(At(st, events, k))
  {
    RunKeepsInv(st, events[..k]);
  }

  /* ---- The commits of the route ---- */

  /** The first commit: the file is stored, and the session had loaded a promised transfer. */
  predicate Stores(st: State, e: Event) {
    && e.StoreDirect? && e.ok && e.i < |st.direct|
    && st.direct[e.i].at.Loaded? && st.direct[e.i].status.TransferStarted?
  }

  /** The last commit: link, completion, and the loaded version plus one. */
  predicate Finishes(st: State, e: Event) {
    e.FinishDirect? && e.ok && e.i < |st.direct| && st.direct[e.i].at.Stored?
  }

  /* ---- Versions never fall, and manual review ends with a new version ---- */

  predicate InOrder(before: Row, after: Row) {
    && before.version <= after.version
    && (before.status.Manual? && !after.status.Manual? ==> before.version < after.version)
  }

  /** An upload that meets manual review, or a completion over a row that is newer than the one loaded, or
      that was sent to manual review at its own new version. */
  predicate Disorderly(st: State, e: Event) {
    || (Stores(st, e) && st.row.status.Manual?)
    || (Finishes(st, e) &&
        (st.direct[e.i].version + 1 < st.row.version
         || (st.row.status.Manual? && st.direct[e.i].version + 1 == st.row.version)))
  }

  lemma SessionsKeepOrder(st: State, s: Session, reply: Reply)
    requires Inv(st) && ResumeInv(st.row, s.mem, st.provider)
    ensures InOrder(st.row, SessionCommit(st, s, reply).row)
  {
    if s.mem.status.Matched? && st.provider.Synology? {
    } else {
      CommitsOutsideReview(st.row, s.mem, st.provider);
    }
  }

  lemma ResumesKeepOrder(st: State, reply: Reply)
    requires Inv(st)
    ensures InOrder(st.row, ResumeCommit(st, reply).row)
  {
    if st.resume.None? && st.row.status in RESUMABLE - {EventFound, Matched} {
      CommittedRowIsOwnCopy(st.row, st.provider);
      SessionsKeepOrder(st, Session(st.row, false), reply);
    }
  }

  /** Every other writer keeps the order, and so does every other commit of the route. */
  lemma OrderBreaksExactlyByDisorderlyCommits(st: State, e: Event)
    requires Inv(st)
    ensures !InOrder(st.row, Step(st, e).row) <==> Disorderly(st, e)
  {
    if e.Resume? {
      ResumesKeepOrder(st, e.reply);
    } else if e.Continue? && st.resume.Some? {
      SessionsKeepOrder(st, st.resume.value, e.reply);
    }
  }

  lemma {:induction false} OrderlyStretch(st: State, events: seq<Event>, i: nat, j: nat)
    requires i <= j <= |events|
    requires forall k :: 0 <= k < |events| ==> InOrder(At(st, events, k).row, At(st, events, k + 1).row)
    ensures InOrder(At(st, events, i).row, At(st, events, j).row)
    decreases j - i
  {
    if i < j {
      OrderlyStretch(st, events, i, j - 1);
      assert InOrder(At(st, events, j - 1).row, At(st, events, j - 1 + 1).row);
    }
  }

  ghost predicate AllInOrder(st: State, events: seq<Event>) {
    forall i, j :: 0 <= i <= j <= |events| ==> InOrder(At(st, events, i).row, At(st, events, j).row)
  }

  /** Between any two moments of a run versions do not fall and manual review is left only together with a
      new version, exactly when no commit of the run is disorderly where it happens. */
  lemma RunsAreInOrderExactlyWithoutDisorder(st: State, events: seq<Event>)
    requires Initial(st)
    ensures AllInOrder(st, events)
            <==> forall k :: 0 <= k < |events| ==> !Disorderly(At(st, events, k), events[k])
  {
    forall k | 0 <= k < |events|
      ensures InOrder(At(st, events, k).row, At(st, events, k + 1).row) <==> !Disorderly(At(st, events, k), events[k])
    {
      AtKeepsInv(st, events, k);
      AtGoesOn(st, events, k);
      OrderBreaksExactlyByDisorderlyCommits(At(st, events, k), events[k]);
    }
    if AllInOrder(st, events) {
      forall k | 0 <= k < |events|
        ensures !Disorderly(At(st, events, k), events[k])
      {
        assert InOrder(At(st, events, k).row, At(st, events, k + 1).row);
      }
    }
    if forall k :: 0 <= k < |events| ==> !Disorderly(At(st, events, k), events[k]) {
      forall i, j | 0 <= i <= j <= |events|
        ensures InOrder(At(st, events, i).row, At(st, events, j).row)
      {
        OrderlyStretch(st, events, i, j);
      }
    }
  }

  /* ---- A completed recording has its path ---- */

  predicate StoredRow(row: Row) {
    row.status.Completed? ==> row.fields.path && row.fields.url
  }

  predicate FinishesWithoutPath(st: State, e: Event) {
    Finishes(st, e) && !st.row.fields.path
  }

  lemma SessionCompletionIsStored(st: State, s: Session, reply: Reply)
    requires ResumeInv(st.row, s.mem, st.provider) && StoredRow(st.row)
    ensures StoredRow(SessionCommit(st, s, reply).row)
  {
    NextStatusIsLegal(s, reply);
  }

  lemma ResumedCompletionIsStored(st: State, reply: Reply)
    requires Inv(st) && StoredRow(st.row)
    ensures StoredRow(ResumeCommit(st, reply).row)
  {
    if st.resume.None? && st.row.status in RESUMABLE - {EventFound, Matched} {
      CommittedRowIsOwnCopy(st.row, st.provider);
      SessionCompletionIsStored(st, Session(st.row, false), reply);
    }
  }

  /** Only the last commit of the route completes a recording without its path or its link. */
  lemma CompletionIsStoredExactlyWithPath(st: State, e: Event)
    requires Inv(st) && StoredRow(st.row)
    ensures !StoredRow(Step(st, e).row) <==> FinishesWithoutPath(st, e)
  {
    if e.Resume? {
      ResumedCompletionIsStored(st, e.reply);
    } else if e.Continue? && st.resume.Some? {
      SessionCompletionIsStored(st, st.resume.value, e.reply);
    }
  }

  /** A route decision that starts a failed transfer over. */
  predicate Resets(st: State, e: Event) {
    && st.row.status.Failed?
    && ((e.RouteInterview? && MayRouteInterview(st.row, e.expected))
        || (e.RouteElsewhere? && MayRouteElsewhere(st.row, e.expected)))
  }

  /** The session that the next commit of a resume belongs to. */
  function Committing(st: State, e: Event): Option<Session> {
    match e
    case Resume(_) =>
      if st.resume.None? && st.row.status in RESUMABLE - {EventFound, Matched}
      then Some(Session(st.row, false)) else None
    case Continue(_) => st.resume
    case _ => None
  }

  /** The commit of an upload, by a resume or by the route. */
  predicate WritesPath(st: State, e: Event) {
    || Stores(st, e)
    || (Committing(st, e).Some? && Committing(st, e).value.mem.status.TransferStarted? && e.reply.Success?)
  }

  lemma WrittenPath(row: Row, to: Status)
    ensures Written(row, to).fields.path == (to.Uploaded? || row.fields.path)
  {
  }

  lemma UploadedNext(s: Session, reply: Reply)
    ensures NextStatus(s, reply) == Some(Uploaded) <==> s.mem.status.TransferStarted? && reply.Success?
  {
  }

  lemma SessionPath(st: State, s: Session, reply: Reply)
    ensures SessionCommit(st, s, reply).row.fields.path
            == ((s.mem.status.TransferStarted? && reply.Success?) || st.row.fields.path)
  {
    UploadedNext(s, reply);
    if NextStatus(s, reply).Some? {
      WrittenPath(st.row, NextStatus(s, reply).value);
    }
    WrittenPath(st.row, Manual);
  }

  lemma ResumePath(st: State, e: Event)
    requires Inv(st) && (e.Resume? || e.Continue?)
    ensures Step(st, e).row.fields.path == (WritesPath(st, e) || st.row.fields.path)
  {
    if Committing(st, e).Some? {
      if e.Resume? {
        CommittedRowIsOwnCopy(st.row, st.provider);
      }
      SessionPath(st, Committing(st, e).value, e.reply);
    }
  }

  lemma RoutePath(st: State, e: Event)
    requires Inv(st) && (e.RouteInterview? || e.RouteElsewhere? || e.StoreDirect? || e.FinishDirect?)
    ensures Step(st, e).row.fields.path == if Resets(st, e) then false else WritesPath(st, e) || st.row.fields.path
  {
  }

  lemma NeitherResetNorUpload(st: State, e: Event)
    requires !e.Resume? && !e.Continue? && !e.RouteInterview? && !e.RouteElsewhere? && !e.StoreDirect?
    ensures !Resets(st, e) && !WritesPath(st, e)
  {
    assert Committing(st, e) == None;
  }

  lemma ChosenPath(row: Row, choices: Choices, named: bool, identified: bool)
    ensures Chosen(row, choices, named, identified).fields.path == row.fields.path
  {
    match choices
    case NoChoice =>
    case Events =>
    case Cards =>
    case Destinations =>
  }

  lemma AnswerPath(st: State, e: Event)
    requires e.Choose? || e.Ignore? || e.CloseJob?
    ensures Step(st, e).row.fields.path == st.row.fields.path
  {
    if e.Choose? && e.question < |st.questions| {
      ChosenPath(st.row, st.questions[e.question].choices, e.named, e.identified);
    }
  }

  lemma OtherPath(st: State, e: Event)
    requires e.MatchCalendar? || e.MatchRefused? || e.CutOff? || e.LoadDirect? || e.BumpVersion? || e.Enqueue?
    ensures Step(st, e).row.fields.path == st.row.fields.path
  {
    match e
    case MatchCalendar(_, _) =>
    case MatchRefused =>
    case CutOff =>
    case LoadDirect =>
    case BumpVersion =>
    case Enqueue =>
  }

  lemma PathChangesExactlyHere(st: State, e: Event)
    requires Inv(st)
    ensures Step(st, e).row.fields.path == if Resets(st, e) then false else WritesPath(st, e) || st.row.fields.path
  {
    if e.Resume? || e.Continue? {
      ResumePath(st, e);
    } else if e.RouteInterview? || e.RouteElsewhere? || e.StoreDirect? || e.FinishDirect? {
      RoutePath(st, e);
    } else {
      NeitherResetNorUpload(st, e);
      if e.Choose? || e.Ignore? || e.CloseJob? {
        AnswerPath(st, e);
      } else {
        OtherPath(st, e);
      }
    }
  }

  /** A failed transfer was started over, and nothing has been uploaded since. */
  ghost predicate ResetUnrepaired(st: State, events: seq<Event>) {
    exists k :: 0 <= k < |events| && ResetForGood(st, events, k)
  }

  ghost predicate ResetForGood(st: State, events: seq<Event>, k: nat)
    requires k < |events|
  {
    && Resets(At(st, events, k), events[k])
    && forall j :: k < j < |events| ==> !WritesPath(At(st, events, j), events[j])
  }

  lemma AtOfPrefix(st: State, events: seq<Event>, n: nat, k: nat)
    requires k <= n <= |events|
    ensures At(st, events[..n], k) == At(st, events, k)
  {
    assert events[..n][..k] == events[..k];
  }

  lemma ResetForGoodGoesOn(st: State, events: seq<Event>, k: nat)
    requires events != [] && k < |events| - 1
    ensures var n := |events| - 1;
            ResetForGood(st, events, k)
            <==> ResetForGood(st, events[..n], k) && !WritesPath(At(st, events, n), events[n])
  {
    var n := |events| - 1;
    forall j | 0 <= j < n
      ensures At(st, events[..n], j) == At(st, events, j) && events[..n][j] == events[j]
    {
      AtOfPrefix(st, events, n, j);
    }
    if ResetForGood(st, events[..n], k) && !WritesPath(At(st, events, n), events[n]) {
      forall j | k < j < |events|
        ensures !WritesPath(At(st, events, j), events[j])
      {
        if j < n {
          assert !WritesPath(At(st, events[..n], j), events[..n][j]);
        }
      }
    }
    if ResetForGood(st, events, k) {
      forall j | k < j < n
        ensures !WritesPath(At(st, events[..n], j), events[..n][j])
      {
        assert !WritesPath(At(st, events, j), events[j]);
      }
    }
  }

  /** The last event either resets, or repairs, or leaves things as they were. */
  lemma ResetUnrepairedGoesOn(st: State, events: seq<Event>)
    requires events != []
    ensures var n := |events| - 1;
            ResetUnrepaired(st, events)
            <==> Resets(At(st, events, n), events[n])
                 || (ResetUnrepaired(st, events[..n]) && !WritesPath(At(st, events, n), events[n]))
  {
    var n := |events| - 1;
    if Resets(At(st, events, n), events[n]) {
      assert ResetForGood(st, events, n);
    }
    if ResetUnrepaired(st, events[..n]) && !WritesPath(At(st, events, n), events[n]) {
      var k :| 0 <= k < n && ResetForGood(st, events[..n], k);
      ResetForGoodGoesOn(st, events, k);
      assert ResetForGood(st, events, k);
    }
    if ResetUnrepaired(st, events) && !Resets(At(st, events, n), events[n]) {
      var k :| 0 <= k < |events| && ResetForGood(st, events, k);
      assert k < n;
      ResetForGoodGoesOn(st, events, k);
    }
  }

  lemma {:induction false} PathIsLostExactlyByReset(st: State, events: seq<Event>)
    requires Inv(st) && st.row.fields.path
    ensures !Run(st, events).row.fields.path <==> ResetUnrepaired(st, events)
    decreases |events|
  {
    if events != [] {
      var n := |events| - 1;
      assert events[..n + 1] == events;
      PathIsLostExactlyByReset(st, events[..n]);
      AtKeepsInv(st, events, n);
      AtGoesOn(st, events, n);
      PathChangesExactlyHere(At(st, events, n), events[n]);
      ResetUnrepairedGoesOn(st, events);
    }
  }

  /** Whatever happens between the two commits of a session, the last one completes the recording with its
      link, and without a path exactly when in between a failed transfer was started over and not uploaded
      again. */
  lemma CompletesWithoutPathExactlyAfterReset(st: State, i: nat, events: seq<Event>)
    requires Inv(st) && Stores(st, StoreDirect(i, true))
    requires Finishes(Run(Step(st, StoreDirect(i, true)), events), FinishDirect(i, true))
    ensures var uploaded := Step(st, StoreDirect(i, true));
            var row := Step(Run(uploaded, events), FinishDirect(i, true)).row;
            && row.status.Completed? && row.fields.url
            && (!row.fields.path <==> ResetUnrepaired(uploaded, events))
  {
    var uploaded := Step(st, StoreDirect(i, true));
    StepKeepsInv(st, StoreDirect(i, true));
    PathIsLostExactlyByReset(uploaded, events);
  }

  /* ---- Both, with the questions that are waiting ---- */

  /** A completed recording has its path and its link, no question is ahead of its recording, and every
      question of the current version finds manual review. */
  predicate Settled(st: State) {
    StoredRow(st.row) && forall i :: 0 <= i < |st.questions| ==> AskedInTime(st.row, st.questions[i])
  }

  predicate AskedInTime(row: Row, q: Question) {
    q.version <= row.version && (q.version == row.version ==> row.status.Manual?)
  }

  /** A commit of the route that takes the row from under a question, or completes it without a path. */
  predicate Unsettles(st: State, e: Event) {
    || FinishesWithoutPath(st, e)
    || (exists i :: 0 <= i < |st.questions| && Strands(st, e, st.questions[i]))
  }

  predicate Strands(st: State, e: Event, q: Question) {
    (Stores(st, e) && q.version == st.row.version) || (Finishes(st, e) && q.version > st.direct[e.i].version)
  }

  lemma QuestionsStayInTime(before: Row, after: Row, q: Question)
    requires AskedInTime(before, q) && InOrder(before, after)
    ensures AskedInTime(after, q)
  {
  }

  lemma QuestionsFallOutExactlyWhenStranded(st: State, e: Event, q: Question)
    requires Inv(st) && AskedInTime(st.row, q)
    ensures !AskedInTime(Step(st, e).row, q) <==> Strands(st, e, q)
  {
    OrderBreaksExactlyByDisorderlyCommits(st, e);
    if InOrder(st.row, Step(st, e).row) {
      QuestionsStayInTime(st.row, Step(st, e).row, q);
    }
  }

  lemma QuestionsOnlyGrow(st: State, e: Event)
    ensures Step(st, e).questions
            == if e.Enqueue? && st.row.status.Manual?
               then st.questions + [Question(st.row.version, st.row.choices)] else st.questions
  {
  }

  lemma SettledBreaksExactlyHere(st: State, e: Event)
    requires Inv(st) && Settled(st)
    ensures !Settled(Step(st, e)) <==> Unsettles(st, e)
  {
    CompletionIsStoredExactlyWithPath(st, e);
    QuestionsOnlyGrow(st, e);
    forall i | 0 <= i < |st.questions|
      ensures !AskedInTime(Step(st, e).row, st.questions[i]) <==> Strands(st, e, st.questions[i])
    {
      QuestionsFallOutExactlyWhenStranded(st, e, st.questions[i]);
    }
    var t := Step(st, e);
    if Unsettles(st, e) && !FinishesWithoutPath(st, e) {
      var i :| 0 <= i < |st.questions| && Strands(st, e, st.questions[i]);
      assert t.questions[i] == st.questions[i];
    }
    if !Unsettles(st, e) {
      forall i | 0 <= i < |t.questions|
        ensures AskedInTime(t.row, t.questions[i])
      {
        if i < |st.questions| {
          assert t.questions[i] == st.questions[i];
          assert !Strands(st, e, st.questions[i]);
        }
      }
    }
  }

  /** Every commit that unsettles a recording is disorderly, or completes it without a path. */
  lemma OnlyDisorderUnsettles(st: State, e: Event)
    requires Inv(st) && Settled(st) && Unsettles(st, e)
    ensures Disorderly(st, e) || FinishesWithoutPath(st, e)
  {
    if !FinishesWithoutPath(st, e) {
      var i :| 0 <= i < |st.questions| && Strands(st, e, st.questions[i]);
      QuestionsFallOutExactlyWhenStranded(st, e, st.questions[i]);
      assert AskedInTime(st.row, st.questions[i]);
    }
  }

  ghost predicate SettledThroughout(st: State, events: seq<Event>) {
    forall k :: 0 <= k <= |events| ==> Settled(At(st, events, k))
  }

  ghost predicate NothingUnsettles(st: State, events: seq<Event>) {
    forall k :: 0 <= k < |events| ==> !Unsettles(At(st, events, k), events[k])
  }

  lemma {:induction false} StaysSettled(st: State, events: seq<Event>, k: nat)
    requires Initial(st) && NothingUnsettles(st, events) && k <= |events|
    ensures Settled(At(st, events, k))
  {
    if k > 0 {
      StaysSettled(st, events, k - 1);
      AtKeepsInv(st, events, k - 1);
      AtGoesOn(st, events, k - 1);
      SettledBreaksExactlyHere(At(st, events, k - 1), events[k - 1]);
    }
  }

  /** A recording is settled at every moment of a run exactly when no commit of the unleased route
      unsettles it where it happens. */
  lemma RunsAreSettledExactlyUntilUnsettled(st: State, events: seq<Event>)
    requires Initial(st)
    ensures SettledThroughout(st, events) <==> NothingUnsettles(st, events)
  {
    if NothingUnsettles(st, events) {
      forall k | 0 <= k <= |events|
        ensures Settled(At(st, events, k))
      {
        StaysSettled(st, events, k);
      }
    }
    if SettledThroughout(st, events) {
      forall k | 0 <= k < |events|
        ensures !Unsettles(At(st, events, k), events[k])
      {
        AtKeepsInv(st, events, k);
        AtGoesOn(st, events, k);
        assert Settled(At(st, events, k)) && Settled(At(st, events, k + 1));
        SettledBreaksExactlyHere(At(st, events, k), events[k]);
      }
    }
  }

  /* ---- Such runs exist ---- */

  function Steps3(st: State, a: Event, b: Event, c: Event): State {
    Step(Step(Step(st, a), b), c)
  }

  /** A route to another folder that has just stored its file and goes on to the link. */
  lemma ElsewhereStored(st: State, f: Fields)
    requires st == State(Synology, Row(Manual, 0, true, f, NoChoice), None, [], [], [])
    ensures var stored := f.(filename := true, identity := true, destination := true, key := true, path := true);
            && Steps3(st, RouteElsewhere(0), LoadDirect, StoreDirect(0, true))
               == State(Synology, Row(Uploaded, 1, false, stored, NoChoice), None,
                        [Direct(Stored, TransferStarted, 1)], [], [])
  {
    var promised := f.(filename := true, identity := true, destination := true, key := true);
    var s1 := Step(st, RouteElsewhere(0));
    assert s1.row == Row(TransferStarted, 1, false, promised, NoChoice);
    var s2 := Step(s1, LoadDirect);
    assert s2.direct == [Direct(Loaded, TransferStarted, 1)];
    assert s2.direct[0 := Direct(Stored, TransferStarted, 1)] == [Direct(Stored, TransferStarted, 1)];
  }

  lemma ResumeFailsUpload(st: State)
    requires st.resume.None? && st.row.status.Uploaded? && Complete(st.row)
    ensures Step(st, Resume(Broke)) == st.(row := st.row.(status := Failed))
  {
    assert NextStatus(Session(st.row, false), Broke) == Some(Failed);
  }

  /** A second decision starts the failed transfer over, and the first session completes it. */
  lemma ResetUnderTheUpload(st: State)
    requires st.row.status.Failed? && !st.row.interview && st.row.version == 1
    requires |st.direct| == 1 && st.direct[0].at.Stored?
    ensures var end := Step(Step(st, RouteElsewhere(1)), FinishDirect(0, true));
            end.row.status.Completed? && !end.row.fields.path
  {
    var again := Step(st, RouteElsewhere(1));
    assert again == st.(row := ElsewhereRouted(st.row));
    assert Step(again, FinishDirect(0, true)) == FinishDirectStep(again, 0, true);
  }

  /** A resume fails the upload that the route has stored, a second decision resets the row, and the
      first session completes it without a path. */
  lemma LateRouteCompletesWithoutPath(st: State)
    requires Initial(st) && st.provider.Synology?
    ensures var manual := Step(st, MatchCalendar(false, NoChoice));
            var stored := Steps3(manual, RouteElsewhere(0), LoadDirect, StoreDirect(0, true));
            var end := Steps3(stored, Resume(Broke), RouteElsewhere(1), FinishDirect(0, true));
            end.row.status.Completed? && !end.row.fields.path
  {
    var manual := Step(st, MatchCalendar(false, NoChoice));
    ElsewhereStored(manual, manual.row.fields);
    var stored := Steps3(manual, RouteElsewhere(0), LoadDirect, StoreDirect(0, true));
    ResumeFailsUpload(stored);
    ResetUnderTheUpload(Step(stored, Resume(Broke)));
  }

  lemma ResumeAsks(st: State)
    requires st.resume.None? && st.row.status.TransferStarted? && Complete(st.row)
    ensures Step(st, Resume(Ask(NoChoice))) == st.(row := Written(st.row, Manual))
  {
    assert NextStatus(Session(st.row, false), Ask(NoChoice)) == Some(Manual);
  }

  /** The route uploads a row that a resume has sent to manual review: the status changes, the version
      does not, and the question asked there is still current. */
  lemma LateRouteLeavesManualReview(st: State)
    requires Initial(st) && st.provider.Synology?
    ensures var manual := Step(st, MatchCalendar(false, NoChoice));
            var collided := Steps3(manual, RouteElsewhere(0), LoadDirect, Resume(Ask(NoChoice)));
            var asked := Step(collided, Enqueue);
            var end := Step(asked, StoreDirect(0, true));
            && asked.row.status.Manual? && end.row.status.Uploaded? && end.row.version == asked.row.version
            && |end.questions| == 1 && end.questions[0].version == end.row.version
  {
    var manual := Step(st, MatchCalendar(false, NoChoice));
    var s1 := Step(manual, RouteElsewhere(0));
    var s2 := Step(s1, LoadDirect);
    assert s2.direct == [Direct(Loaded, TransferStarted, 1)];
    ResumeAsks(s2);
  }
}

/**
  What every commit of the pipeline leaves in the row, in terms of statuses, replies and columns
  (app/scheduler/cron.py:1071-1294, app/routers/tools.py:500-548, app/services/non_interview.py:38-95,
  app/services/reviews.py:469-547, app/services/routing_jobs.py:170-259).
*/
module PipelineOutcomes {
  import opened Values
  import opened Pipeline

  /* ---- The leased resume ---- */

  /** Where a stage ends, by the status it starts from and by how its outside calls went; None leaves the row
      to the next scan. `own` is the run that matched the candidate itself. */
  predicate StageEnds(from: Status, interview: bool, own: bool, reply: Reply, to: Option<Status>) {
    && (to == Some(Failed) <==>
          reply == Broke && (from in {TransferStarted, Uploaded, AwaitingEmail} || (from == Linked && interview)
                             || (from == CardUpdated && own)))
    && (to == Some(Manual) <==> from == TransferStarted && reply.Ask?)
    && (to == Some(TransferStarted) <==> from == Matched)
    && (to == Some(Uploaded) <==> from == TransferStarted && reply == Success)
    && (to == Some(Linked) <==> from == Uploaded && reply == Success)
    && (to == Some(CardUpdated) <==> from == Linked && interview && reply == Success)
    && (to == Some(AwaitingEmail) <==> from == CardUpdated && !own)
    && (to == Some(SourceMarked) <==> reply == Marked && (from == AwaitingEmail || (from == CardUpdated && own)))
    && (to == Some(Completed) <==>
          || (from == Linked && !interview) || from == SourceMarked
          || (reply == Success && (from == AwaitingEmail || (from == CardUpdated && own))))
    && to !in {Some(Found), Some(EventFound), Some(Matched), Some(Ignored), Some(SourceDeleted)}
  }

  /** The status, the path of an upload or the link of a share, and no choices for the recruiter. */
  predicate Wrote(before: Row, after: Row, to: Status) {
    && after.status == to && after.version == before.version && after.interview == before.interview
    && after.fields == before.fields.(path := before.fields.path || to == Uploaded,
                                      url := before.fields.url || to == Linked)
    && after.choices == if to == Manual then NoChoice else before.choices
  }

  /** The row is written so, and the session goes on with its own copy, unless that was the end. */
  predicate StageCommits(st: State, t: State, mem: Row, own: bool, to: Option<Status>) {
    && t == st.(row := t.row, resume := t.resume)
    && (to.None? ==> t.row == st.row && t.resume.None?)
    && (to.Some? ==>
          && Wrote(st.row, t.row, to.value)
          && (t.resume.None? <==> to.value in {Manual, Failed, Completed})
          && (t.resume.Some? ==> t.resume.value.ownMatch == own && Wrote(mem, t.resume.value.mem, to.value)))
  }

  /** The columns a stage needs are there. */
  predicate HasColumns(m: Row) {
    && m.status in {Matched, TransferStarted, Uploaded, Linked, CardUpdated, AwaitingEmail, SourceMarked}
    && (m.status == Uploaded ==> m.fields.path)
    && (m.status == Linked && m.interview ==> m.fields.url && m.fields.eventStart)
  }

  lemma StageEndsSo(s: Session, reply: Reply)
    requires HasColumns(s.mem)
    ensures StageEnds(s.mem.status, s.mem.interview, s.ownMatch, reply, NextStatus(s, reply))
  {
    match s.mem.status
    case Matched =>
    case TransferStarted =>
    case Uploaded =>
    case Linked =>
    case CardUpdated =>
    case AwaitingEmail =>
    case SourceMarked =>
  }

  lemma WritesSo(row: Row, to: Status)
    ensures Wrote(row, Written(row, to), to)
  {
  }

  lemma StageCommitsSo(st: State, s: Session, reply: Reply)
    requires !(s.mem.status == Matched && st.provider == Synology && !s.mem.fields.destination)
    ensures StageCommits(st, SessionCommit(st, s, reply), s.mem, s.ownMatch, NextStatus(s, reply))
  {
    var to := NextStatus(s, reply);
    if to.Some? {
      WritesSo(st.row, to.value);
      WritesSo(s.mem, to.value);
    }
  }

  /** A committed transfer that is taken up again: its stage ends by what the outside calls said. */
  lemma ResumedStageEndsAs(st: State, reply: Reply)
    requires Inv(st) && st.resume.None?
    requires st.row.status in {TransferStarted, Uploaded, Linked, CardUpdated, AwaitingEmail}
    ensures exists to :: StageEnds(st.row.status, st.row.interview, false, reply, to)
                         && StageCommits(st, Step(st, Resume(reply)), st.row, false, to)
  {
    StageEndsSo(Session(st.row, false), reply);
    StageCommitsSo(st, Session(st.row, false), reply);
  }

  /** So a broken call fails the recording exactly where one is made, and only a collision asks the recruiter. */
  lemma BrokenCallFailsExactly(st: State, reply: Reply)
    requires Inv(st) && st.resume.None?
    requires st.row.status in {TransferStarted, Uploaded, Linked, CardUpdated, AwaitingEmail}
    ensures Step(st, Resume(reply)).row.status == Failed <==>
            reply == Broke && (st.row.status in {TransferStarted, Uploaded, AwaitingEmail}
                               || (st.row.status == Linked && st.row.interview))
    ensures Step(st, Resume(reply)).row.status == Manual <==> st.row.status == TransferStarted && reply.Ask?
  {
    ResumedStageEndsAs(st, reply);
  }

  /** The session that follows it, over whatever has become of the row. A matched candidate without a destination
      gets a routing job, or a question if none can be made. */
  lemma NextStageEndsAs(st: State, reply: Reply)
    requires Inv(st) && st.resume.Some?
    ensures var mem, own, t := st.resume.value.mem, st.resume.value.ownMatch, Step(st, Continue(reply));
            if mem.status == Matched && st.provider == Synology then
              if reply == Success then t == st.(resume := None, jobs := st.jobs + [mem.version])
              else t == st.(resume := None, row := t.row) && Wrote(st.row, t.row, Manual)
            else
              exists to :: StageEnds(mem.status, mem.interview, own, reply, to) && StageCommits(st, t, mem, own, to)
  {
    var s := st.resume.value;
    if !(s.mem.status == Matched && st.provider == Synology) {
      StageEndsSo(s, reply);
      StageCommitsSo(st, s, reply);
    }
  }

  /** The look for the candidate, on a row that has its event or was matched before. */
  lemma MatchingEndsAs(st: State, reply: Reply)
    requires Inv(st) && st.resume.None? && st.row.status in {EventFound, Matched}
    ensures var row, t := st.row, Step(st, Resume(reply));
            var lost := row.status == Matched && !(row.fields.candidate && row.fields.page);
            && t == st.(row := t.row, resume := t.resume)
            && (t.resume.Some? <==> !lost && reply == Success)
            && if lost || (reply == Broke && row.status == EventFound) then Wrote(row, t.row, Failed)
               else if reply == Success then
                 && t.row.status == Matched && t.row.interview == row.interview && t.row.choices == row.choices
                 && t.row.version == row.version + (if row.status == EventFound then 1 else 0)
                 && t.row.fields == row.fields.(candidate := true, page := true, filename := true, identity := true,
                                                key := st.provider == ObjectStore)
                 && t.resume == Some(Session(t.row, true))
               else if reply.Ask? then
                 var cards := row.status == EventFound && reply.choices == Cards;
                 t.row == row.(status := Manual, choices := if cards then Cards else NoChoice)
               else t.row == row
  {
  }

  /** Nobody resumes a recording that is being resumed, or that is at rest. */
  lemma OthersAreNotResumed(st: State, reply: Reply)
    requires st.resume.Some?
             || st.row.status in {Found, Manual, SourceMarked, SourceDeleted, Completed, Ignored, Failed}
    ensures Step(st, Resume(reply)) == st
    ensures st.resume.None? ==> Step(st, Continue(reply)) == st
    ensures Step(st, CutOff) == st.(resume := None)
  {
  }

  /* ---- The calendar ---- */

  lemma CalendarEndsAs(st: State, matched: bool, choices: Choices)
    requires st.row.status == Found && st.resume.None?
    ensures Step(st, MatchCalendar(matched, choices))
            == st.(row := st.row.(status := if matched then EventFound else Manual,
                                  fields := st.row.fields.(eventStart := matched),
                                  choices := if !matched && choices == Events then Events else NoChoice))
    ensures Step(st, MatchRefused) == st.(row := st.row.(status := Failed))
  {
  }

  /* ---- The recruiter ---- */

  /** What an answer changes beside the status. */
  predicate AnsweredWith(st: State, t: State, status: Status, fields: Fields) {
    t == st.(row := st.row.(status := status, version := st.row.version + 1, fields := fields))
  }

  /** An answer counts exactly at the version of its question and in manual review. Then an event, a card or a
      destination takes the recording to where the pipeline goes on with it. */
  lemma ChoiceEndsAs(st: State, q: nat, named: bool, identified: bool)
    requires q < |st.questions|
    ensures var t, f := Step(st, Choose(q, named, identified)), st.row.fields;
            if st.row.version == st.questions[q].version && st.row.status == Manual then
              match st.questions[q].choices
              case NoChoice => t == st
              case Events => AnsweredWith(st, t, EventFound, f.(eventStart := true))
              case Cards => AnsweredWith(st, t, Matched, f.(candidate := named, page := identified))
              case Destinations =>
                AnsweredWith(st, t, TransferStarted, f.(destination := true, identity := true, key := false))
            else t == st
    ensures if st.row.version == st.questions[q].version && st.row.status == Manual
            then AnsweredWith(st, Step(st, Ignore(q)), Ignored, st.row.fields)
            else Step(st, Ignore(q)) == st
  {
  }

  /** A question is asked exactly in manual review, of the row as it is then. */
  lemma QuestionIsAskedExactly(st: State)
    ensures Step(st, Enqueue)
            == if st.row.status == Manual
               then st.(questions := st.questions + [Question(st.row.version, st.row.choices)]) else st
  {
  }

  /* ---- The routes ---- */

  /** An interview is routed exactly at the expected version, matched, in review or failed, with its filename,
      candidate and card. The transfer starts anew: a destination instead of a key, and after a failure without
      the path and link of before. */
  lemma InterviewIsRoutedExactly(st: State, expected: nat)
    ensures var row, f, t := st.row, st.row.fields, Step(st, RouteInterview(expected));
            if row.version == expected && row.interview && row.status in {Matched, Manual, Failed}
               && f.filename && f.candidate && f.page
            then
              t == st.(row := row.(
                status := TransferStarted, version := row.version + 1,
                fields := f.(destination := true, key := false, identity := true,
                             path := f.path && row.status != Failed, url := f.url && row.status != Failed)))
            else t == st
  {
  }

  /** Elsewhere a recording is routed exactly at the expected version, from review, or once it has failed there
      before; it stops being an interview. */
  lemma OtherIsRoutedExactly(st: State, expected: nat)
    ensures var row, f, t := st.row, st.row.fields, Step(st, RouteElsewhere(expected));
            if row.version == expected && (row.status == Manual || (row.status == Failed && !row.interview)) then
              t == st.(row := row.(
                status := TransferStarted, version := row.version + 1, interview := false,
                fields := f.(filename := true, identity := true, destination := true, key := true,
                             path := f.path && row.status != Failed, url := f.url && row.status != Failed)))
            else t == st
  {
  }

  /** The second transaction of that route loads the row, uploads exactly from a transfer that has started, and
      exactly after that shares and completes under the version it loaded plus one. A failed call ends it. */
  lemma UnleasedRouteEndsAs(st: State, i: nat, ok: bool)
    ensures Step(st, LoadDirect)
            == if st.row.interview then st
               else st.(direct := st.direct + [Direct(Loaded, st.row.status, st.row.version)])
    ensures i < |st.direct| ==>
              var d := st.direct[i];
              && (if d.at == Loaded && ok && d.status == TransferStarted then
                    var t := Step(st, StoreDirect(i, ok));
                    Wrote(st.row, t.row, Uploaded) && t == st.(row := t.row, direct := st.direct[i := d.(at := Stored)])
                  else
                    Step(st, StoreDirect(i, ok))
                    == if d.at == Loaded then st.(direct := st.direct[i := d.(at := Over)]) else st)
              && (if d.at == Stored then
                    Step(st, FinishDirect(i, ok))
                    == st.(direct := st.direct[i := d.(at := Over)],
                           row := if ok then st.row.(status := Completed, version := d.version + 1,
                                                     fields := st.row.fields.(url := true)) else st.row)
                  else Step(st, FinishDirect(i, ok)) == st)
  {
  }

  /* ---- The routing jobs ---- */

  /** A routing job is closed exactly while the recording is matched at its version: a destination starts the
      transfer, and a deferral asks for one. */
  lemma JobIsClosedExactly(st: State, i: nat, resolved: bool)
    requires i < |st.jobs|
    ensures var row, f, t := st.row, st.row.fields, Step(st, CloseJob(i, resolved));
            if row.version == st.jobs[i] && row.status == Matched then
              t == st.(row := if resolved
                              then row.(status := TransferStarted, version := row.version + 1,
                                        fields := f.(destination := true, identity := true, key := false))
                              else row.(status := Manual, version := row.version + 1, choices := Destinations))
            else t == st
  {
  }
}

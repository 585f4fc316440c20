/**
  Which recordings can still be completed, and where the pipeline leaves them for good
  (app/scheduler/cron.py, app/routers/tools.py:500-548, app/services/non_interview.py:38-95).
*/
module DeadEnds {
  import opened Values
  import opened Pipeline

  /** A session of the unleased route that goes on whatever has become of the row. */
  predicate Underway(d: Direct) {
    d.at.Stored? || (d.at.Loaded? && d.status.TransferStarted?)
  }

  predicate NobodyUnderway(st: State) {
    forall i :: 0 <= i < |st.direct| ==> !Underway(st.direct[i])
  }

  /** Ignored, or cut off after marking or deleting the source; or an interview that failed before its
      candidate was settled, or that an answer matched without a candidate or a card. */
  predicate NoWayOut(row: Row) {
    || row.status in {Ignored, SourceMarked, SourceDeleted}
    || (row.interview && row.status.Failed? && !Ready(row))
    || (row.status.Matched? && !(row.fields.candidate && row.fields.page))
  }

  predicate DeadEnd(st: State) {
    NobodyUnderway(st) && NoWayOut(st.row)
  }

  ghost predicate CanComplete(st: State) {
    exists events :: Run(st, events).row.status.Completed?
  }

  /* ---- No way out ---- */

  lemma DeadResume(st: State, reply: Reply)
    requires Inv(st) && st.resume.None? && DeadEnd(st)
    ensures DeadEnd(ResumeCommit(st, reply)) && ResumeCommit(st, reply).resume.None?
  {
    if st.row.status.Matched? {
      assert MatchCommit(st.row, st.provider, reply) == Written(st.row, Failed);
    }
  }

  lemma DeadDirect(st: State, e: Event)
    requires Inv(st) && st.resume.None? && DeadEnd(st) && (e.LoadDirect? || e.StoreDirect? || e.FinishDirect?)
    ensures DeadEnd(Step(st, e)) && Step(st, e).resume.None?
  {
    var t := Step(st, e);
    assert e.StoreDirect? && e.i < |st.direct| ==> !Underway(st.direct[e.i]);
    assert e.FinishDirect? && e.i < |st.direct| ==> !Underway(st.direct[e.i]);
    forall i | 0 <= i < |t.direct|
      ensures !Underway(t.direct[i])
    {
      assert i < |st.direct| ==> !Underway(st.direct[i]);
    }
  }

  lemma DeadRoutes(st: State, e: Event)
    requires Inv(st) && st.resume.None? && DeadEnd(st) && (e.RouteInterview? || e.RouteElsewhere? || e.CloseJob?)
    ensures Step(st, e) == st
  {
    if e.CloseJob? && e.i < |st.jobs| {
      assert JobInv(st.row, st.jobs[e.i]);
    }
  }

  lemma DeadStays(st: State, e: Event)
    requires Inv(st) && st.resume.None? && DeadEnd(st)
    ensures DeadEnd(Step(st, e)) && Step(st, e).resume.None?
  {
    match e
    case MatchCalendar(_, _) =>
    case MatchRefused =>
    case Resume(reply) => DeadResume(st, reply);
    case Continue(_) =>
    case CutOff =>
    case Enqueue =>
    case Choose(_, _, _) =>
    case Ignore(_) =>
    case RouteInterview(_) => DeadRoutes(st, e);
    case RouteElsewhere(_) => DeadRoutes(st, e);
    case LoadDirect => DeadDirect(st, e);
    case StoreDirect(_, _) => DeadDirect(st, e);
    case FinishDirect(_, _) => DeadDirect(st, e);
    case CloseJob(_, _) => DeadRoutes(st, e);
    case BumpVersion =>
  }

  lemma {:induction false} DeadForGood(st: State, events: seq<Event>)
    requires Inv(st) && st.resume.None? && DeadEnd(st)
    ensures !Run(st, events).row.status.Completed?
    decreases |events|
  {
    if events != [] {
      StepKeepsInv(st, events[0]);
      DeadStays(st, events[0]);
      DeadForGood(Step(st, events[0]), events[1..]);
    }
  }

  /* ---- Ways out ---- */

  lemma OneStepBack(st: State, e: Event)
    requires CanComplete(Step(st, e))
    ensures CanComplete(st)
  {
    var events :| Run(Step(st, e), events).row.status.Completed?;
    assert ([e] + events)[1..] == events;
    assert Run(st, [e] + events) == Run(Step(st, e), events);
  }

  lemma CompletedAlready(st: State)
    requires st.row.status.Completed?
    ensures CanComplete(st)
  {
    assert Run(st, []) == st;
  }

  lemma StoredCanComplete(st: State, i: nat)
    requires i < |st.direct| && st.direct[i].at.Stored?
    ensures CanComplete(st)
  {
    CompletedAlready(Step(st, FinishDirect(i, true)));
    OneStepBack(st, FinishDirect(i, true));
  }

  lemma UnderwayCanComplete(st: State, i: nat)
    requires i < |st.direct| && Underway(st.direct[i])
    ensures CanComplete(st)
  {
    if st.direct[i].at.Stored? {
      StoredCanComplete(st, i);
    } else {
      StoredCanComplete(Step(st, StoreDirect(i, true)), i);
      OneStepBack(st, StoreDirect(i, true));
    }
  }

  lemma PromisedElsewhereCanComplete(st: State)
    requires !st.row.interview && st.row.status.TransferStarted?
    ensures CanComplete(st)
  {
    var t := Step(st, LoadDirect);
    assert t.direct[|st.direct|] == Direct(Loaded, st.row.status, st.row.version);
    UnderwayCanComplete(t, |st.direct|);
    OneStepBack(st, LoadDirect);
  }

  /** By the route to another folder, which manual review and a failure of that route allow. */
  lemma RoutableElsewhereCanComplete(st: State)
    requires MayRouteElsewhere(st.row, st.row.version)
    ensures CanComplete(st)
  {
    var e := RouteElsewhere(st.row.version);
    assert Step(st, e).row == ElsewhereRouted(st.row);
    PromisedElsewhereCanComplete(Step(st, e));
    OneStepBack(st, e);
  }

  /** A run that asks the recruiter ends in manual review. */
  lemma AskingCanComplete(st: State)
    requires Inv(st) && st.resume.None?
    requires st.row.status.EventFound? || (st.row.status.Matched? && !NoWayOut(st.row))
             || (st.row.status.TransferStarted? && st.row.interview)
    ensures CanComplete(st)
  {
    var e := Resume(Ask(NoChoice));
    if st.row.status.TransferStarted? {
      assert NextStatus(Session(st.row, false), Ask(NoChoice)) == Some(Manual);
    }
    assert Step(st, e).row.status.Manual?;
    RoutableElsewhereCanComplete(Step(st, e));
    OneStepBack(st, e);
  }

  lemma FailedInterviewCanComplete(st: State)
    requires Inv(st) && st.resume.None? && st.row.status.Failed? && st.row.interview && Ready(st.row)
    ensures CanComplete(st)
  {
    var e := RouteInterview(st.row.version);
    StepKeepsInv(st, e);
    assert Step(st, e).row == InterviewRouted(st.row);
    AskingCanComplete(Step(st, e));
    OneStepBack(st, e);
  }

  /** An upload or a shared interview can fail and be routed anew. */
  lemma FailingCanComplete(st: State)
    requires Inv(st) && st.resume.None?
    requires st.row.status.Uploaded? || (st.row.status.Linked? && st.row.interview)
    ensures CanComplete(st)
  {
    var e := Resume(Broke);
    StepKeepsInv(st, e);
    assert NextStatus(Session(st.row, false), Broke) == Some(Failed);
    assert Step(st, e) == st.(row := Written(st.row, Failed));
    if st.row.interview {
      FailedInterviewCanComplete(Step(st, e));
    } else {
      RoutableElsewhereCanComplete(Step(st, e));
    }
    OneStepBack(st, e);
  }

  lemma SharedElsewhereCanComplete(st: State)
    requires Inv(st) && st.resume.None? && st.row.status.Linked? && !st.row.interview
    ensures CanComplete(st)
  {
    var e := Resume(Success);
    assert NextStatus(Session(st.row, false), Success) == Some(Completed);
    CompletedAlready(Step(st, e));
    OneStepBack(st, e);
  }

  lemma AwaitingCanComplete(st: State)
    requires Inv(st) && st.resume.None? && st.row.status.AwaitingEmail?
    ensures CanComplete(st)
  {
    var e := Resume(Success);
    assert NextStatus(Session(st.row, false), Success) == Some(Completed);
    CompletedAlready(Step(st, e));
    OneStepBack(st, e);
  }

  lemma CardUpdatedCanComplete(st: State)
    requires Inv(st) && st.resume.None? && st.row.status.CardUpdated?
    ensures CanComplete(st)
  {
    var e := Resume(Success);
    var t := Step(st, e);
    assert NextStatus(Session(st.row, false), Success) == Some(AwaitingEmail);
    assert t.row.status.AwaitingEmail?;
    StepKeepsInv(st, e);
    StepKeepsInv(t, CutOff);
    AwaitingCanComplete(Step(t, CutOff));
    OneStepBack(t, CutOff);
    OneStepBack(st, e);
  }

  lemma FoundCanComplete(st: State)
    requires st.resume.None? && st.row.status.Found?
    ensures CanComplete(st)
  {
    var e := MatchCalendar(false, NoChoice);
    RoutableElsewhereCanComplete(Step(st, e));
    OneStepBack(st, e);
  }

  lemma LiveCanComplete(st: State)
    requires Inv(st) && st.resume.None? && !NoWayOut(st.row)
    ensures CanComplete(st)
  {
    match st.row.status
    case Found => FoundCanComplete(st);
    case EventFound => AskingCanComplete(st);
    case Matched => AskingCanComplete(st);
    case Manual => RoutableElsewhereCanComplete(st);
    case TransferStarted =>
      if st.row.interview {
        AskingCanComplete(st);
      } else {
        PromisedElsewhereCanComplete(st);
      }
    case Uploaded => FailingCanComplete(st);
    case Linked =>
      if st.row.interview {
        FailingCanComplete(st);
      } else {
        SharedElsewhereCanComplete(st);
      }
    case CardUpdated => CardUpdatedCanComplete(st);
    case AwaitingEmail => AwaitingCanComplete(st);
    case Completed => CompletedAlready(st);
    case Failed =>
      if st.row.interview {
        FailedInterviewCanComplete(st);
      } else {
        RoutableElsewhereCanComplete(st);
      }
    case _ =>
  }

  /** A recording that no resume is working on can still be completed by some run exactly when it is not
      at a dead end. */
  lemma CanCompleteExactlyOutsideDeadEnds(st: State)
    requires Inv(st) && st.resume.None?
    ensures CanComplete(st) <==> !DeadEnd(st)
  {
    if DeadEnd(st) {
      forall events
        ensures !Run(st, events).row.status.Completed?
      {
        DeadForGood(st, events);
      }
    } else if !NobodyUnderway(st) {
      var i :| 0 <= i < |st.direct| && Underway(st.direct[i]);
      UnderwayCanComplete(st, i);
    } else {
      LiveCanComplete(st);
    }
  }

  /* ---- The dead ends are reached ---- */

  /** An interview that fails in its first run, before any candidate, cannot be completed any more. */
  lemma EarlyFailureIsFinal(st: State)
    requires Initial(st)
    ensures Step(st, MatchRefused).row.status.Failed? && !CanComplete(Step(st, MatchRefused))
  {
    StepKeepsInv(st, MatchRefused);
    CanCompleteExactlyOutsideDeadEnds(Step(st, MatchRefused));
  }

  ghost predicate CanStrand(st: State) {
    exists events ::
      var end := Run(st, events);
      end.row.status.SourceMarked? && end.resume.None? && !CanComplete(end)
  }

  lemma OneStepBackStranded(st: State, e: Event)
    requires CanStrand(Step(st, e))
    ensures CanStrand(st)
  {
    var events :|
      var end := Run(Step(st, e), events);
      end.row.status.SourceMarked? && end.resume.None? && !CanComplete(end);
    assert ([e] + events)[1..] == events;
    assert Run(st, [e] + events) == Run(Step(st, e), events);
  }

  lemma MarkedIsStranded(st: State)
    requires Inv(st) && st.row.status.SourceMarked? && st.row.interview && st.resume.None?
    ensures CanStrand(st)
  {
    CanCompleteExactlyOutsideDeadEnds(st);
    assert Run(st, []) == st;
  }

  /** One stage of a resume, after which its run is cut off. */
  lemma CutOffAfter(st: State, reply: Reply, to: Status)
    requires Inv(st) && st.resume.None? && st.row.status in RESUMABLE - {EventFound, Matched} && st.row.interview
    requires NextStatus(Session(st.row, false), reply) == Some(to) && to !in {Manual, Failed, Completed}
    ensures var t := Step(Step(st, Resume(reply)), CutOff);
            Inv(t) && t.resume.None? && t.row == Written(st.row, to)
    ensures CanStrand(Step(Step(st, Resume(reply)), CutOff)) ==> CanStrand(st)
  {
    StepKeepsInv(st, Resume(reply));
    StepKeepsInv(Step(st, Resume(reply)), CutOff);
    if CanStrand(Step(Step(st, Resume(reply)), CutOff)) {
      OneStepBackStranded(Step(st, Resume(reply)), CutOff);
      OneStepBackStranded(st, Resume(reply));
    }
  }

  /** Every interview whose transfer was promised can be cut off between marking its source and completing. */
  lemma PromisedCanStrand(st: State)
    requires Inv(st) && st.resume.None? && st.row.interview
    requires st.row.status in RESUMABLE - {EventFound, Matched}
    ensures CanStrand(st)
    decreases 5 - StageOf(st.row.status)
  {
    if st.row.status.AwaitingEmail? {
      CutOffAfter(st, Marked, SourceMarked);
      MarkedIsStranded(Step(Step(st, Resume(Marked)), CutOff));
    } else {
      var next := NextStatus(Session(st.row, false), Success);
      assert next.Some? && StageOf(next.value) == StageOf(st.row.status) + 1;
      CutOffAfter(st, Success, next.value);
      PromisedCanStrand(Step(Step(st, Resume(Success)), CutOff));
    }
  }

  lemma RoutableCanStrand(st: State)
    requires Inv(st) && st.resume.None? && MayRouteInterview(st.row, st.row.version)
    ensures CanStrand(st)
  {
    var e := RouteInterview(st.row.version);
    StepKeepsInv(st, e);
    assert Step(st, e).row == InterviewRouted(st.row) && Step(st, e).resume.None?;
    PromisedCanStrand(Step(st, e));
    OneStepBackStranded(st, e);
  }

  /** So every recording can end up there, on either store. */
  lemma MarkedSourceIsReached(st: State)
    requires Initial(st)
    ensures CanStrand(st)
  {
    var found := Step(st, MatchCalendar(true, NoChoice));
    var matched := Step(found, Resume(Success));
    var rest := Step(matched, CutOff);
    StepKeepsInv(st, MatchCalendar(true, NoChoice));
    StepKeepsInv(found, Resume(Success));
    StepKeepsInv(matched, CutOff);
    RoutableCanStrand(rest);
    OneStepBackStranded(matched, CutOff);
    OneStepBackStranded(found, Resume(Success));
    OneStepBackStranded(st, MatchCalendar(true, NoChoice));
  }

  /** An answer that picks a card without a name or without a card leads to a match that no run completes. */
  lemma UnnamedAnswerIsFinal(st: State, q: nat, named: bool, identified: bool)
    requires Inv(st) && st.resume.None? && q < |st.questions| && st.questions[q].choices.Cards?
    requires st.questions[q].version == st.row.version && !(named && identified)
    ensures var t := Step(st, Choose(q, named, identified));
            t.row.status.Matched? && !CanComplete(t)
  {
    assert QuestionInv(st.row, st.direct, st.provider, st.questions[q]);
    var t := Step(st, Choose(q, named, identified));
    StepKeepsInv(st, Choose(q, named, identified));
    CanCompleteExactlyOutsideDeadEnds(t);
  }
}

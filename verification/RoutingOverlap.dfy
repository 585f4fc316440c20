/**
  Routing workers that close jobs while others write the recording (app/services/routing_jobs.py:170-259).
  The job is locked from the checks to the commit, the recording is not: it is read with the job and
  written back as the version read plus one, whatever has happened to it in between.
*/
module RoutingOverlap {
  import opened Values
  import opened RoutingJobs

  /** A transaction that has passed its checks: the recording as it was read, and what it will write. */
  datatype Closing = Closing(loaded: Recording, after: JobStatus, destination: string, choices: seq<string>)

  datatype Overlap = Overlap(s: State, closing: map<nat, Closing>)

  datatype OverlapEvent =
    | CheckResolve(i: nat, nonce: nat, snapshot: Snapshot, destination: string, usable: bool)
    | CheckDefer(i: nat, nonce: nat, snapshot: Snapshot, candidates: seq<string>, usable: bool)
    | Commit(i: nat)
    | Undo(i: nat)
    | Around(e: Event)

  function Checked(o: Overlap, i: nat, accepted: bool, c: Closing): Overlap {
    if i in o.closing || !accepted then o else o.(closing := o.closing[i := c])
  }

  /** Only the columns that the transaction changed are written. */
  function Written(r: Recording, c: Closing): Recording {
    Recording(c.loaded.version + 1, false,
              if c.after.Resolved? then Some(c.destination) else r.destination,
              if c.after.Resolved? then r.choices else c.choices)
  }

  function CommitStep(o: Overlap, i: nat): Overlap {
    if i !in o.closing || i >= |o.s.jobs| || o.s.jobs[i].recording !in o.s.recordings then o
    else
      var job, c := o.s.jobs[i], o.closing[i];
      Overlap(o.s.(recordings := o.s.recordings[job.recording := Written(o.s.recordings[job.recording], c)],
                   jobs := o.s.jobs[i := job.(status := c.after)]),
              o.closing - {i})
  }

  /** The dispatcher skips locked jobs, and everybody else waits for them. */
  function AroundStep(o: Overlap, e: Event): Overlap {
    match e
    case CreateJob(_, _, _, _) => o.(s := Step(o.s, e))
    case DispatchNext(locked) => o.(s := Dispatch(o.s, locked + o.closing.Keys))
    case ActivateJob(i, _) => if i in o.closing then o else o.(s := Step(o.s, e))
    case ResolveJob(_, _, _, _, _) => o
    case DeferJob(_, _, _, _, _) => o
    case Wait(_) => o.(s := Step(o.s, e))
    case OthersWrite(_, _) => o.(s := Step(o.s, e))
  }

  function OverlapStep(o: Overlap, e: OverlapEvent): Overlap {
    match e
    case CheckResolve(i, nonce, snapshot, destination, usable) =>
      if ResolveVerdict(o.s, i, nonce, snapshot, destination, usable).Accepted?
      then Checked(o, i, true, Closing(o.s.recordings[o.s.jobs[i].recording], Resolved, destination, []))
      else o
    case CheckDefer(i, nonce, snapshot, candidates, usable) =>
      if DeferVerdict(o.s, i, nonce, snapshot, candidates, usable).Accepted?
      then Checked(o, i, true, Closing(o.s.recordings[o.s.jobs[i].recording], Deferred, "", Distinct(candidates)))
      else o
    case Commit(i) => CommitStep(o, i)
    case Undo(i) => o.(closing := o.closing - {i})
    case Around(other) => AroundStep(o, other)
  }

  function OverlapRun(o: Overlap, events: seq<OverlapEvent>): Overlap
    decreases |events|
  {
    if events == [] then o else OverlapRun(OverlapStep(o, events[0]), events[1..])
  }

  predicate OverlapInitial(o: Overlap) {
    Initial(o.s) && o.closing == map[]
  }

  /* ---- What every step keeps ---- */

  /** What the checks found, as far as it lasts while the job is locked. */
  predicate ClosingInv(s: State, i: nat, c: Closing) {
    && i < |s.jobs| && s.jobs[i].status.Active?
    && c.after in {Resolved, Deferred}
    && c.loaded.matched && c.loaded.version == s.jobs[i].version
    && (c.after.Resolved? ==> c.destination in s.jobs[i].snapshot.destinations)
    && (c.after.Deferred? ==>
          |c.choices| <= MAX_DEFER_CANDIDATES && forall d :: d in c.choices ==> d in s.jobs[i].snapshot.destinations)
    && (forall k :: 0 <= k < |s.jobs| && k != i && s.jobs[k].recording == s.jobs[i].recording ==>
          !Open(s.jobs[k]) && s.jobs[k].version < s.jobs[i].version)
  }

  predicate OverlapInv(o: Overlap) {
    Inv(o.s) && forall i :: i in o.closing ==> ClosingInv(o.s, i, o.closing[i])
  }

  /** An open job of the current version is newer than every other job of its recording. */
  lemma OpenJobIsNewest(s: State, i: nat)
    requires Inv(s) && i < |s.jobs| && Open(s.jobs[i])
    requires s.jobs[i].version == s.recordings[s.jobs[i].recording].version
    ensures forall k :: 0 <= k < |s.jobs| && k != i && s.jobs[k].recording == s.jobs[i].recording ==>
              !Open(s.jobs[k]) && s.jobs[k].version < s.jobs[i].version
  {
    forall k | 0 <= k < |s.jobs| && k != i && s.jobs[k].recording == s.jobs[i].recording
      ensures !Open(s.jobs[k]) && s.jobs[k].version < s.jobs[i].version
    {
      assert JobInv(s, s.jobs[k]);
    }
  }

  lemma CheckKeepsInv(o: Overlap, e: OverlapEvent)
    requires OverlapInv(o) && (e.CheckResolve? || e.CheckDefer?)
    ensures OverlapInv(OverlapStep(o, e))
  {
    if e.CheckResolve? {
      if ResolveVerdict(o.s, e.i, e.nonce, e.snapshot, e.destination, e.usable).Accepted? {
        OpenJobIsNewest(o.s, e.i);
      }
    } else if DeferVerdict(o.s, e.i, e.nonce, e.snapshot, e.candidates, e.usable).Accepted? {
      OpenJobIsNewest(o.s, e.i);
      DistinctIsOnceEach(e.candidates);
    }
  }

  lemma CommitKeepsJobs(o: Overlap, i: nat)
    requires OverlapInv(o) && i in o.closing
    ensures Inv(CommitStep(o, i).s)
  {
    assert ClosingInv(o.s, i, o.closing[i]);
    assert JobInv(o.s, o.s.jobs[i]);
    var t := CommitStep(o, i).s;
    forall k | 0 <= k < |t.jobs|
      ensures JobInv(t, t.jobs[k])
    {
      assert JobInv(o.s, o.s.jobs[k]);
    }
  }

  lemma CommitKeepsInv(o: Overlap, i: nat)
    requires OverlapInv(o)
    ensures OverlapInv(CommitStep(o, i))
  {
    if i in o.closing {
      CommitKeepsJobs(o, i);
      var p := CommitStep(o, i);
      forall k | k in p.closing
        ensures ClosingInv(p.s, k, p.closing[k])
      {
        assert ClosingInv(o.s, k, o.closing[k]) && ClosingInv(o.s, i, o.closing[i]);
      }
    }
  }

  /** Nothing that others may do reaches a locked job, or makes another one for its recording. */
  lemma AroundLeavesLocked(o: Overlap, e: Event, i: nat)
    requires OverlapInv(o) && i in o.closing
    ensures ClosingInv(AroundStep(o, e).s, i, o.closing[i])
  {
    assert ClosingInv(o.s, i, o.closing[i]);
    match e
    case CreateJob(_, _, _, _) =>
    case DispatchNext(locked) => DispatchLeavesLocked(o, locked, i);
    case ActivateJob(_, _) =>
    case ResolveJob(_, _, _, _, _) =>
    case DeferJob(_, _, _, _, _) =>
    case Wait(_) =>
    case OthersWrite(_, _) =>
  }

  lemma DispatchLeavesLocked(o: Overlap, locked: set<nat>, i: nat)
    requires OverlapInv(o) && i in o.closing
    ensures ClosingInv(Dispatch(o.s, locked + o.closing.Keys), i, o.closing[i])
  {
    assert ClosingInv(o.s, i, o.closing[i]);
    var t := Dispatch(o.s, locked + o.closing.Keys);
    assert t.jobs[i] == o.s.jobs[i];
    forall k | 0 <= k < |t.jobs| && k != i && t.jobs[k].recording == t.jobs[i].recording
      ensures !Open(t.jobs[k]) && t.jobs[k].version < t.jobs[i].version
    {
      assert t.jobs[k].recording == o.s.jobs[k].recording;
    }
  }

  lemma AroundKeepsJobs(o: Overlap, e: Event)
    requires Inv(o.s)
    ensures Inv(AroundStep(o, e).s) && AroundStep(o, e).closing == o.closing
  {
    match e
    case CreateJob(_, _, _, _) => StepKeepsInv(o.s, e);
    case DispatchNext(locked) => DispatchKeepsInv(o.s, locked + o.closing.Keys);
    case ActivateJob(_, _) => StepKeepsInv(o.s, e);
    case ResolveJob(_, _, _, _, _) =>
    case DeferJob(_, _, _, _, _) =>
    case Wait(_) => StepKeepsInv(o.s, e);
    case OthersWrite(_, _) => StepKeepsInv(o.s, e);
  }

  lemma AroundKeepsInv(o: Overlap, e: Event)
    requires OverlapInv(o)
    ensures OverlapInv(AroundStep(o, e))
  {
    AroundKeepsJobs(o, e);
    forall i | i in o.closing
      ensures ClosingInv(AroundStep(o, e).s, i, o.closing[i])
    {
      AroundLeavesLocked(o, e, i);
    }
  }

  lemma OverlapStepKeepsInv(o: Overlap, e: OverlapEvent)
    requires OverlapInv(o)
    ensures OverlapInv(OverlapStep(o, e))
  {
    match e
    case CheckResolve(_, _, _, _, _) => CheckKeepsInv(o, e);
    case CheckDefer(_, _, _, _, _) => CheckKeepsInv(o, e);
    case Commit(i) => CommitKeepsInv(o, i);
    case Undo(_) =>
    case Around(other) => AroundKeepsInv(o, other);
  }

  lemma {:induction false} OverlapRunKeepsInv(o: Overlap, events: seq<OverlapEvent>)
    requires OverlapInv(o)
    ensures OverlapInv(OverlapRun(o, events))
    decreases |events|
  {
    if events != [] {
      OverlapStepKeepsInv(o, events[0]);
      OverlapRunKeepsInv(OverlapStep(o, events[0]), events[1..]);
    }
  }

  /* ---- Guarantees over all runs ---- */

  /** Whoever else writes the recordings meanwhile: a recording never has two open jobs, and of all jobs
      made for one of its versions at most one is ever closed. */
  lemma OneOpenAndOneClosedInOverlap(o: Overlap, events: seq<OverlapEvent>)
    requires OverlapInitial(o)
    ensures var jobs := OverlapRun(o, events).s.jobs;
            forall i, j :: 0 <= i < j < |jobs| && jobs[i].recording == jobs[j].recording ==>
              !(Open(jobs[i]) && Open(jobs[j]))
              && (jobs[i].version == jobs[j].version ==> Open(jobs[i]) || Open(jobs[j]))
  {
    OverlapRunKeepsInv(o, events);
  }

  lemma OverlapStepFollows(o: Overlap, e: OverlapEvent)
    requires OverlapInv(o)
    ensures Follows(o.s.jobs, OverlapStep(o, e).s.jobs)
  {
    match e
    case CheckResolve(_, _, _, _, _) =>
    case CheckDefer(_, _, _, _, _) =>
    case Commit(i) =>
      if i in o.closing {
        assert ClosingInv(o.s, i, o.closing[i]);
      }
    case Undo(_) =>
    case Around(other) =>
  }

  /** A closed job stays exactly as it was closed. */
  lemma {:induction false} ClosedForAllInOverlap(o: Overlap, events: seq<OverlapEvent>, i: nat)
    requires OverlapInv(o) && i < |o.s.jobs| && !Open(o.s.jobs[i])
    ensures i < |OverlapRun(o, events).s.jobs| && OverlapRun(o, events).s.jobs[i] == o.s.jobs[i]
    decreases |events|
  {
    if events != [] {
      OverlapStepKeepsInv(o, events[0]);
      OverlapStepFollows(o, events[0]);
      ClosedForAllInOverlap(OverlapStep(o, events[0]), events[1..], i);
    }
  }

  /** A job is closed by a commit alone, which leaves its recording one version above the job's, with a
      destination or candidates of its snapshot, and touches nothing else. That is one version above what
      the recording had exactly when nobody raised it since the checks, and below what it had exactly when
      it was raised by more than one. */
  lemma ClosingCommit(o: Overlap, e: OverlapEvent, i: nat)
    requires OverlapInv(o) && i < |o.s.jobs| && Open(o.s.jobs[i]) && !Open(OverlapStep(o, e).s.jobs[i])
    ensures e == Commit(i) && i in o.closing
    ensures var job := o.s.jobs[i];
            var before, after := o.s.recordings[job.recording], OverlapStep(o, e).s.recordings[job.recording];
            && after.version == job.version + 1 && !after.matched
            && (after.version == before.version + 1 <==> before.version == job.version)
            && (after.version < before.version <==> before.version > job.version + 1)
            && (if o.closing[i].after.Resolved?
                then after.destination.Some? && after.destination.value in job.snapshot.destinations
                else after.destination == before.destination && |after.choices| <= MAX_DEFER_CANDIDATES
                     && forall c :: c in after.choices ==> c in job.snapshot.destinations)
    ensures forall k :: 0 <= k < |o.s.jobs| && k != i ==> OverlapStep(o, e).s.jobs[k] == o.s.jobs[k]
    ensures forall r :: r in o.s.recordings && r != o.s.jobs[i].recording ==>
              r in OverlapStep(o, e).s.recordings && OverlapStep(o, e).s.recordings[r] == o.s.recordings[r]
  {
    assert JobInv(o.s, o.s.jobs[i]);
    match e
    case CheckResolve(_, _, _, _, _) =>
    case CheckDefer(_, _, _, _, _) =>
    case Commit(k) => assert k in o.closing ==> ClosingInv(o.s, k, o.closing[k]);
    case Undo(_) =>
    case Around(_) =>
  }

  /** Such runs exist: somebody raises the version by two between the checks and the commit. */
  lemma VersionFallsUnderLateCommit(o: Overlap, i: nat, raised: Recording)
    requires OverlapInv(o) && i in o.closing
    requires o.s.recordings[o.s.jobs[i].recording].version == o.s.jobs[i].version
    requires raised.version == o.s.jobs[i].version + 2
    ensures var write := Around(OthersWrite(o.s.jobs[i].recording, raised));
            var end := OverlapStep(OverlapStep(o, write), Commit(i));
            end.s.recordings[o.s.jobs[i].recording].version == raised.version - 1
  {
    assert ClosingInv(o.s, i, o.closing[i]) && JobInv(o.s, o.s.jobs[i]);
  }

  /* ---- A closing that nothing overlaps is the service ---- */

  /** Checks and commit without anything in between are the one step of the service, and checks that are undone
      leave nothing behind. */
  lemma UndisturbedResolutionIsTheService(
      o: Overlap, i: nat, nonce: nat, snapshot: Snapshot, destination: string, usable: bool)
    requires i !in o.closing
    ensures var checked := OverlapStep(o, CheckResolve(i, nonce, snapshot, destination, usable));
            && OverlapStep(checked, Commit(i))
               == o.(s := Step(o.s, ResolveJob(i, nonce, snapshot, destination, usable)))
            && OverlapStep(checked, Undo(i)) == o
  {
    var checked := OverlapStep(o, CheckResolve(i, nonce, snapshot, destination, usable));
    assert checked.closing - {i} == o.closing;
  }

  lemma UndisturbedDeferralIsTheService(
      o: Overlap, i: nat, nonce: nat, snapshot: Snapshot, candidates: seq<string>, usable: bool)
    requires i !in o.closing
    ensures var checked := OverlapStep(o, CheckDefer(i, nonce, snapshot, candidates, usable));
            && OverlapStep(checked, Commit(i)) == o.(s := Step(o.s, DeferJob(i, nonce, snapshot, candidates, usable)))
            && OverlapStep(checked, Undo(i)) == o
  {
    var checked := OverlapStep(o, CheckDefer(i, nonce, snapshot, candidates, usable));
    assert checked.closing - {i} == o.closing;
  }

  /** A job that is being closed keeps its place: others wait for it, and the dispatcher passes it by. */
  predicate Passes(o: Overlap, e: Event, later: Event) {
    match e
    case DispatchNext(locked) => later == DispatchNext(locked + o.closing.Keys)
    case ActivateJob(i, _) => later == if i in o.closing then Wait(0) else e
    case _ => later == e
  }

  /** Everything else is as in the service. */
  lemma AroundIsTheService(o: Overlap, e: Event, later: Event)
    requires !e.ResolveJob? && !e.DeferJob? && Passes(o, e, later)
    ensures OverlapStep(o, Around(e)) == o.(s := Step(o.s, later))
  {
    match e
    case CreateJob(_, _, _, _) =>
    case DispatchNext(_) =>
    case ActivateJob(_, _) =>
    case Wait(_) =>
    case OthersWrite(_, _) =>
  }
}

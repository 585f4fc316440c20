/**
  The routing jobs of app/services/routing_jobs.py over any number of recordings: creation, dispatch
  under a five minute lease with a fresh nonce, activation, and the two ways a worker can close a job.
  Every request of a worker is one transaction; a rejected one is rolled back by its router.
*/
module RoutingJobs {
  import opened Values

  const DISPATCH_LEASE: nat := 300
  const MAX_DESTINATIONS: nat := 100
  const MAX_DEFER_CANDIDATES: nat := 10

  datatype JobStatus = Queued | Dispatched | Active | Resolved | Deferred

  /** What a worker is shown; its hash stands for it. */
  datatype Snapshot = Snapshot(context: string, destinations: seq<string>)

  datatype Job = Job(
    recording: nat, version: nat, snapshot: Snapshot, status: JobStatus,
    nonce: Option<nat>, leaseUntil: nat, attempts: nat)

  datatype Recording = Recording(version: nat, matched: bool, destination: Option<string>, choices: seq<string>)

  datatype State = State(now: nat, recordings: map<nat, Recording>, jobs: seq<Job>, nextNonce: nat)

  predicate Open(job: Job) {
    job.status in {Queued, Dispatched, Active}
  }

  predicate HasOpenJob(jobs: seq<Job>, recording: nat) {
    exists i :: 0 <= i < |jobs| && Open(jobs[i]) && jobs[i].recording == recording
  }

  /* ---- Creation and dispatch ---- */

  function Shortened(destinations: seq<string>): seq<string> {
    if |destinations| <= MAX_DESTINATIONS then destinations else destinations[..MAX_DESTINATIONS]
  }

  /** An open job is reused whatever its version; the unique index refuses a second one. */
  function Create(s: State, recording: nat, version: nat, context: string, destinations: seq<string>): State {
    if recording !in s.recordings || version > s.recordings[recording].version
       || destinations == [] || HasOpenJob(s.jobs, recording)
    then s
    else
      var snapshot := Snapshot(context, Shortened(destinations));
      s.(jobs := s.jobs + [Job(recording, version, snapshot, Queued, None, 0, 0)])
  }

  predicate Dispatchable(job: Job, now: nat) {
    job.status.Queued? || (job.status in {Dispatched, Active} && job.leaseUntil <= now)
  }

  /** The oldest dispatchable job that no other dispatcher has locked. */
  function FirstDispatchable(jobs: seq<Job>, now: nat, locked: set<nat>, from: nat): (r: Option<nat>)
    requires from <= |jobs|
    ensures r.Some? ==> from <= r.value < |jobs| && Dispatchable(jobs[r.value], now) && r.value !in locked
    decreases |jobs| - from
  {
    if from == |jobs| then None
    else if Dispatchable(jobs[from], now) && from !in locked then Some(from)
    else FirstDispatchable(jobs, now, locked, from + 1)
  }

  function Leased(job: Job, now: nat, nonce: nat): Job {
    job.(status := Dispatched, nonce := Some(nonce), leaseUntil := now + DISPATCH_LEASE, attempts := job.attempts + 1)
  }

  function Dispatch(s: State, locked: set<nat>): State {
    var i := FirstDispatchable(s.jobs, s.now, locked, 0);
    if i.None? then s
    else s.(jobs := s.jobs[i.value := Leased(s.jobs[i.value], s.now, s.nextNonce)], nextNonce := s.nextNonce + 1)
  }

  /* ---- The worker's requests ---- */

  datatype Verdict = Accepted | Replayed | Rejected

  /** The worker holds the latest lease, and it has not run out. */
  predicate OwnsLease(s: State, i: nat, nonce: nat) {
    i < |s.jobs| && s.jobs[i].nonce == Some(nonce) && s.now < s.jobs[i].leaseUntil
    && s.jobs[i].recording in s.recordings
  }

  predicate Unchanged(s: State, job: Job)
    requires job.recording in s.recordings
  {
    var r := s.recordings[job.recording];
    r.version == job.version && r.matched
  }

  function ActivateVerdict(s: State, i: nat, nonce: nat): Verdict {
    if OwnsLease(s, i, nonce) && Unchanged(s, s.jobs[i]) then Accepted else Rejected
  }

  function Activate(s: State, i: nat, nonce: nat): State {
    if ActivateVerdict(s, i, nonce).Rejected? || !s.jobs[i].status.Dispatched? then s
    else s.(jobs := s.jobs[i := s.jobs[i].(status := Active)])
  }

  /** `usable` stands for the checks of the destination and of the recruiter. */
  function ResolveVerdict(s: State, i: nat, nonce: nat, snapshot: Snapshot, destination: string, usable: bool)
    : Verdict
  {
    if !OwnsLease(s, i, nonce) then Rejected
    else if s.jobs[i].status.Resolved? then Replayed
    else if s.jobs[i].status.Active? && s.jobs[i].snapshot == snapshot && Unchanged(s, s.jobs[i])
            && destination in s.jobs[i].snapshot.destinations && usable
    then Accepted
    else Rejected
  }

  function Resolve(s: State, i: nat, nonce: nat, snapshot: Snapshot, destination: string, usable: bool): State {
    if !ResolveVerdict(s, i, nonce, snapshot, destination, usable).Accepted? then s
    else
      var job := s.jobs[i];
      var r := s.recordings[job.recording];
      s.(recordings := s.recordings[job.recording :=
           Recording(r.version + 1, false, Some(destination), r.choices)],
         jobs := s.jobs[i := job.(status := Resolved)])
  }

  /** The candidates in their order, each once. */
  function Distinct(items: seq<string>): seq<string> {
    if items == [] then []
    else
      var before := Distinct(items[..|items| - 1]);
      var last := items[|items| - 1];
      if last in before then before else before + [last]
  }

  function DeferVerdict(s: State, i: nat, nonce: nat, snapshot: Snapshot, candidates: seq<string>, usable: bool)
    : Verdict
  {
    if OwnsLease(s, i, nonce) && s.jobs[i].status.Active? && s.jobs[i].snapshot == snapshot
       && Unchanged(s, s.jobs[i]) && usable
       && (forall c :: c in candidates ==> c in s.jobs[i].snapshot.destinations)
       && |Distinct(candidates)| <= MAX_DEFER_CANDIDATES
    then Accepted
    else Rejected
  }

  function Defer(s: State, i: nat, nonce: nat, snapshot: Snapshot, candidates: seq<string>, usable: bool): State {
    if !DeferVerdict(s, i, nonce, snapshot, candidates, usable).Accepted? then s
    else
      var job := s.jobs[i];
      var r := s.recordings[job.recording];
      s.(recordings := s.recordings[job.recording :=
           Recording(r.version + 1, false, r.destination, Distinct(candidates))],
         jobs := s.jobs[i := job.(status := Deferred)])
  }

  datatype Event =
    | CreateJob(recording: nat, version: nat, context: string, destinations: seq<string>)
    | DispatchNext(locked: set<nat>)
    | ActivateJob(i: nat, nonce: nat)
    | ResolveJob(i: nat, nonce: nat, snapshot: Snapshot, destination: string, usable: bool)
    | DeferJob(i: nat, nonce: nat, snapshot: Snapshot, candidates: seq<string>, usable: bool)
    | Wait(seconds: nat)
    | OthersWrite(recording: nat, r: Recording)   // the rest of the pipeline; versions never fall

  function Step(s: State, e: Event): State {
    match e
    case CreateJob(recording, version, context, destinations) => Create(s, recording, version, context, destinations)
    case DispatchNext(locked) => Dispatch(s, locked)
    case ActivateJob(i, nonce) => Activate(s, i, nonce)
    case ResolveJob(i, nonce, snapshot, destination, usable) => Resolve(s, i, nonce, snapshot, destination, usable)
    case DeferJob(i, nonce, snapshot, candidates, usable) => Defer(s, i, nonce, snapshot, candidates, usable)
    case Wait(seconds) => s.(now := s.now + seconds)
    case OthersWrite(recording, r) =>
      if recording in s.recordings && r.version < s.recordings[recording].version then s
      else s.(recordings := s.recordings[recording := r])
  }

  function Run(s: State, events: seq<Event>): State
    decreases |events|
  {
    if events == [] then s else Run(Step(s, events[0]), events[1..])
  }

  predicate Initial(s: State) {
    s.jobs == []
  }

  /* ---- What every step keeps ---- */

  predicate OneOpenJob(jobs: seq<Job>) {
    forall i, j :: 0 <= i < j < |jobs| && Open(jobs[i]) && Open(jobs[j]) ==> jobs[i].recording != jobs[j].recording
  }

  /** A job lags behind its recording by at least one version once it is closed. */
  predicate JobInv(s: State, job: Job) {
    && job.recording in s.recordings
    && job.version <= s.recordings[job.recording].version
    && (!Open(job) ==> job.version < s.recordings[job.recording].version)
    && (job.status.Queued? ==> job.nonce.None?)
    && (job.nonce.Some? ==> job.nonce.value < s.nextNonce)
    && job.snapshot.destinations != [] && |job.snapshot.destinations| <= MAX_DESTINATIONS
  }

  /** No two closed jobs share a recording and its version. */
  predicate OneClosedPerVersion(jobs: seq<Job>) {
    forall i, j :: 0 <= i < j < |jobs| && !Open(jobs[i]) && !Open(jobs[j]) && jobs[i].recording == jobs[j].recording ==>
      jobs[i].version != jobs[j].version
  }

  /** Nonces are never shared. */
  predicate DistinctNonces(jobs: seq<Job>) {
    forall i, j :: 0 <= i < j < |jobs| && jobs[i].nonce.Some? ==> jobs[i].nonce != jobs[j].nonce
  }

  predicate Inv(s: State) {
    && OneOpenJob(s.jobs) && OneClosedPerVersion(s.jobs) && DistinctNonces(s.jobs)
    && forall i :: 0 <= i < |s.jobs| ==> JobInv(s, s.jobs[i])
  }

  lemma CreateKeepsInv(s: State, e: Event)
    requires Inv(s) && e.CreateJob?
    ensures Inv(Step(s, e))
  {
  }

  lemma DispatchKeepsInv(s: State, locked: set<nat>)
    requires Inv(s)
    ensures Inv(Dispatch(s, locked))
  {
  }

  lemma ActivateKeepsInv(s: State, i: nat, nonce: nat)
    requires Inv(s)
    ensures Inv(Activate(s, i, nonce))
  {
  }

  /** Closing a job of the current version, together with the new version of its recording. */
  lemma CloseKeepsInv(s: State, i: nat, status: JobStatus, r: Recording)
    requires Inv(s) && i < |s.jobs| && Open(s.jobs[i]) && status in {Resolved, Deferred}
    requires s.jobs[i].version == s.recordings[s.jobs[i].recording].version && r.version == s.jobs[i].version + 1
    requires s.jobs[i].status.Active?
    ensures Inv(s.(recordings := s.recordings[s.jobs[i].recording := r],
                   jobs := s.jobs[i := s.jobs[i].(status := status)]))
  {
    var t := s.(recordings := s.recordings[s.jobs[i].recording := r],
                jobs := s.jobs[i := s.jobs[i].(status := status)]);
    forall k | 0 <= k < |t.jobs|
      ensures JobInv(t, t.jobs[k])
    {
      assert JobInv(s, s.jobs[k]);
    }
  }

  lemma OthersKeepInv(s: State, recording: nat, r: Recording)
    requires Inv(s)
    ensures Inv(Step(s, OthersWrite(recording, r)))
  {
    var t := Step(s, OthersWrite(recording, r));
    forall k | 0 <= k < |t.jobs|
      ensures JobInv(t, t.jobs[k])
    {
      assert JobInv(s, s.jobs[k]);
    }
  }

  lemma StepKeepsInv(s: State, e: Event)
    requires Inv(s)
    ensures Inv(Step(s, e))
  {
    match e
    case CreateJob(_, _, _, _) => CreateKeepsInv(s, e);
    case DispatchNext(locked) => DispatchKeepsInv(s, locked);
    case ActivateJob(i, nonce) => ActivateKeepsInv(s, i, nonce);
    case ResolveJob(i, nonce, snapshot, destination, usable) =>
      if ResolveVerdict(s, i, nonce, snapshot, destination, usable).Accepted? {
        var r := s.recordings[s.jobs[i].recording];
        CloseKeepsInv(s, i, Resolved, Recording(r.version + 1, false, Some(destination), r.choices));
      }
    case DeferJob(i, nonce, snapshot, candidates, usable) =>
      if DeferVerdict(s, i, nonce, snapshot, candidates, usable).Accepted? {
        var r := s.recordings[s.jobs[i].recording];
        CloseKeepsInv(s, i, Deferred, Recording(r.version + 1, false, r.destination, Distinct(candidates)));
      }
    case Wait(_) =>
    case OthersWrite(recording, r) => OthersKeepInv(s, recording, r);
  }

  lemma {:induction false} RunKeepsInv(s: State, events: seq<Event>)
    requires Inv(s)
    ensures Inv(Run(s, events))
    decreases |events|
  {
    if events != [] {
      StepKeepsInv(s, events[0]);
      RunKeepsInv(Step(s, events[0]), events[1..]);
    }
  }

  /* ---- Guarantees over all runs ---- */

  /** A recording never has two open jobs, and of all jobs made for one of its versions at most one is
      ever closed. */
  lemma OneOpenAndOneClosedPerVersion(s: State, events: seq<Event>)
    requires Initial(s)
    ensures var jobs := Run(s, events).jobs;
            forall i, j :: 0 <= i < j < |jobs| && jobs[i].recording == jobs[j].recording ==>
              !(Open(jobs[i]) && Open(jobs[j]))
              && (jobs[i].version == jobs[j].version ==> Open(jobs[i]) || Open(jobs[j]))
  {
    RunKeepsInv(s, events);
  }

  /** What the steps may do to the jobs that exist: nothing to a closed one, and to an open one neither
      its subject nor a step back from being closed. */
  predicate Follows(jobs: seq<Job>, later: seq<Job>) {
    && |jobs| <= |later|
    && forall i :: 0 <= i < |jobs| ==>
         && later[i].recording == jobs[i].recording && later[i].version == jobs[i].version
         && later[i].snapshot == jobs[i].snapshot
         && (!Open(jobs[i]) ==> later[i] == jobs[i])
  }

  lemma {:induction false} RunFollows(s: State, events: seq<Event>)
    ensures Follows(s.jobs, Run(s, events).jobs)
    decreases |events|
  {
    if events != [] {
      RunFollows(Step(s, events[0]), events[1..]);
    }
  }

  /** A closed job stays exactly as it was closed: it is resolved or deferred once and for all. */
  lemma ClosedOnceAndForAll(s: State, events: seq<Event>, i: nat)
    requires i < |s.jobs| && !Open(s.jobs[i])
    ensures i < |Run(s, events).jobs| && Run(s, events).jobs[i] == s.jobs[i]
  {
    RunFollows(s, events);
  }

  predicate ByWorker(e: Event) {
    e.ActivateJob? || e.ResolveJob? || e.DeferJob?
  }

  /** A worker changes something only with the nonce of the latest dispatch, before its lease runs
      out, on a recording that is still as the job found it. */
  lemma WorkerNeedsCurrentLease(s: State, e: Event)
    requires ByWorker(e) && Step(s, e) != s
    ensures OwnsLease(s, e.i, e.nonce) && Unchanged(s, s.jobs[e.i]) && Open(s.jobs[e.i])
  {
  }

  /** Once a job was dispatched again, an older nonce can never change anything any more. */
  lemma {:induction false} OldNonceIsPowerless(s: State, events: seq<Event>, i: nat, nonce: nat)
    requires i < |s.jobs| && s.jobs[i].nonce != Some(nonce) && nonce < s.nextNonce
    ensures i < |Run(s, events).jobs| && Run(s, events).jobs[i].nonce != Some(nonce)
    ensures forall e :: ByWorker(e) && e.i == i && e.nonce == nonce ==> Step(Run(s, events), e) == Run(s, events)
    decreases |events|
  {
    if events != [] {
      OldNonceIsPowerless(Step(s, events[0]), events[1..], i, nonce);
    }
  }

  /** Dispatching hands out a nonce that no job ever carried, to the oldest job that is due. */
  lemma DispatchIsFreshAndOldestFirst(s: State, locked: set<nat>)
    requires Inv(s)
    ensures var i := FirstDispatchable(s.jobs, s.now, locked, 0);
            && (i.None? <==> forall k :: 0 <= k < |s.jobs| ==> !Dispatchable(s.jobs[k], s.now) || k in locked)
            && (i.Some? ==>
                  && (forall k :: 0 <= k < i.value ==> !Dispatchable(s.jobs[k], s.now) || k in locked)
                  && (forall k :: 0 <= k < |s.jobs| ==> s.jobs[k].nonce != Dispatch(s, locked).jobs[i.value].nonce)
                  && OwnsLease(Dispatch(s, locked), i.value, s.nextNonce))
  {
    OldestFirst(s.jobs, s.now, locked, 0);
    var i := FirstDispatchable(s.jobs, s.now, locked, 0);
    forall k | 0 <= k < |s.jobs|
      ensures i.Some? ==> s.jobs[k].nonce != Dispatch(s, locked).jobs[i.value].nonce
    {
      assert JobInv(s, s.jobs[k]);
    }
  }

  lemma {:induction false} OldestFirst(jobs: seq<Job>, now: nat, locked: set<nat>, from: nat)
    requires from <= |jobs|
    ensures var i := FirstDispatchable(jobs, now, locked, from);
            forall k :: from <= k < (if i.Some? then i.value else |jobs|) ==> !Dispatchable(jobs[k], now) || k in locked
    decreases |jobs| - from
  {
    if from < |jobs| && !(Dispatchable(jobs[from], now) && from !in locked) {
      OldestFirst(jobs, now, locked, from + 1);
    }
  }

  lemma {:induction false} DistinctIsOnceEach(items: seq<string>)
    ensures forall x :: x in Distinct(items) <==> x in items
    ensures forall i, j :: 0 <= i < j < |Distinct(items)| ==> Distinct(items)[i] != Distinct(items)[j]
  {
    if items != [] {
      var before := items[..|items| - 1];
      DistinctIsOnceEach(before);
      assert items == before + [items[|items| - 1]];
    }
  }

  /** The price of reusing an open job without a look at its version: once its recording has moved on,
      the job stays open for good, and the recording never gets another one. */
  lemma {:induction false} OutdatedJobBlocksForGood(s: State, events: seq<Event>, i: nat)
    requires Inv(s) && i < |s.jobs| && Open(s.jobs[i])
    requires s.jobs[i].version < s.recordings[s.jobs[i].recording].version
    ensures var t := Run(s, events);
            && i < |t.jobs| && Open(t.jobs[i])
            && forall k :: |s.jobs| <= k < |t.jobs| ==> t.jobs[k].recording != s.jobs[i].recording
    decreases |events|
  {
    if events != [] {
      var t := Step(s, events[0]);
      StepKeepsInv(s, events[0]);
      OutdatedStaysOpen(s, events[0], i);
      OutdatedJobBlocksForGood(t, events[1..], i);
      RunFollows(t, events[1..]);
      var u := Run(t, events[1..]);
      forall k | |s.jobs| <= k < |u.jobs|
        ensures u.jobs[k].recording != s.jobs[i].recording
      {
        if k < |t.jobs| {
          assert u.jobs[k].recording == t.jobs[k].recording;
        }
      }
    }
  }

  lemma OutdatedStaysOpen(s: State, e: Event, i: nat)
    requires Inv(s) && i < |s.jobs| && Open(s.jobs[i])
    requires s.jobs[i].version < s.recordings[s.jobs[i].recording].version
    ensures var t := Step(s, e);
            && i < |t.jobs| && Open(t.jobs[i]) && t.jobs[i].recording == s.jobs[i].recording
            && t.jobs[i].version < t.recordings[s.jobs[i].recording].version
            && forall k :: |s.jobs| <= k < |t.jobs| ==> t.jobs[k].recording != s.jobs[i].recording
  {
    if ByWorker(e) && Step(s, e) != s {
      WorkerNeedsCurrentLease(s, e);
    }
  }

  /* ---- When an open job can still close ---- */

  function Below(i: nat): (r: set<nat>)
    ensures forall k: nat :: k in r <==> k < i
  {
    if i == 0 then {} else Below(i - 1) + {i - 1}
  }

  predicate Closes(s: State, events: seq<Event>, i: nat) {
    i < |Run(s, events).jobs| && !Open(Run(s, events).jobs[i])
  }

  /** What closes a job whose recording is as it was: its lease runs out, it is dispatched past the older
      jobs, and the worker activates and resolves it. */
  function ClosingRun(s: State, i: nat): seq<Event>
    requires i < |s.jobs| && s.jobs[i].snapshot.destinations != []
  {
    [Wait(s.jobs[i].leaseUntil), DispatchNext(Below(i)), ActivateJob(i, s.nextNonce),
     ResolveJob(i, s.nextNonce, s.jobs[i].snapshot, s.jobs[i].snapshot.destinations[0], true)]
  }

  lemma RunFour(s: State, a: Event, b: Event, c: Event, d: Event)
    ensures Run(s, [a, b, c, d]) == Step(Step(Step(Step(s, a), b), c), d)
  {
    var two := Step(Step(s, a), b);
    assert [a, b, c, d][1..] == [b, c, d] && [b, c, d][1..] == [c, d] && [c, d][1..] == [d];
    assert Run(two, [c, d]) == Run(Step(two, c), [d]);
    assert Run(Step(two, c), [d]) == Step(Step(two, c), d);
  }

  lemma DueJobIsDispatched(s: State, i: nat)
    requires i < |s.jobs| && Open(s.jobs[i]) && s.jobs[i].leaseUntil <= s.now
    ensures Dispatch(s, Below(i)).jobs == s.jobs[i := Leased(s.jobs[i], s.now, s.nextNonce)]
  {
    OldestFirst(s.jobs, s.now, Below(i), 0);
  }

  lemma UnchangedJobCloses(s: State, i: nat)
    requires Inv(s) && i < |s.jobs| && Open(s.jobs[i]) && Unchanged(s, s.jobs[i])
    ensures Closes(s, ClosingRun(s, i), i)
  {
    var job := s.jobs[i];
    var due := s.(now := s.now + job.leaseUntil);
    DueJobIsDispatched(due, i);
    var leased := Dispatch(due, Below(i));
    assert leased.jobs[i] == Leased(job, due.now, s.nextNonce) && leased.recordings == s.recordings;
    assert Activate(leased, i, s.nextNonce).jobs[i] == leased.jobs[i].(status := Active);
    var events := ClosingRun(s, i);
    RunFour(s, events[0], events[1], events[2], events[3]);
  }

  /** The price of reusing an open job without a look at its version: whatever happens around it, it can
      be closed exactly as long as its recording has not moved on to another version. */
  lemma OpenJobCanCloseExactlyAtItsVersion(s: State, i: nat)
    requires Inv(s) && i < |s.jobs| && Open(s.jobs[i])
    ensures (exists events :: Closes(s, events, i)) <==>
            s.jobs[i].version == s.recordings[s.jobs[i].recording].version
  {
    var job := s.jobs[i];
    var r := s.recordings[job.recording];
    if job.version == r.version {
      var rematch := OthersWrite(job.recording, r.(matched := true));
      var again := Step(s, rematch);
      StepKeepsInv(s, rematch);
      UnchangedJobCloses(again, i);
      var events := [rematch] + ClosingRun(again, i);
      assert events[1..] == ClosingRun(again, i);
      assert Closes(s, events, i);
    } else {
      assert JobInv(s, job);
      forall events
        ensures !Closes(s, events, i)
      {
        OutdatedJobBlocksForGood(s, events, i);
      }
    }
  }

  /** As the pipeline writes recordings: they become matched only together with a new version. */
  predicate MatchesAnew(s: State, e: Event) {
    e.OthersWrite? && e.recording in s.recordings && e.r.matched ==>
      s.recordings[e.recording].matched || e.r.version > s.recordings[e.recording].version
  }

  predicate AllMatchAnew(s: State, events: seq<Event>)
    decreases |events|
  {
    events == [] || (MatchesAnew(s, events[0]) && AllMatchAnew(Step(s, events[0]), events[1..]))
  }

  lemma ChangedStaysChanged(s: State, e: Event, i: nat)
    requires Inv(s) && i < |s.jobs| && Open(s.jobs[i]) && !Unchanged(s, s.jobs[i]) && MatchesAnew(s, e)
    ensures var t := Step(s, e);
            i < |t.jobs| && Open(t.jobs[i]) && t.jobs[i].recording in t.recordings && !Unchanged(t, t.jobs[i])
  {
    assert JobInv(s, s.jobs[i]);
    if ByWorker(e) && Step(s, e) != s {
      WorkerNeedsCurrentLease(s, e);
    }
  }

  lemma {:induction false} ChangedJobStaysOpen(s: State, events: seq<Event>, i: nat)
    requires Inv(s) && i < |s.jobs| && Open(s.jobs[i]) && !Unchanged(s, s.jobs[i]) && AllMatchAnew(s, events)
    ensures !Closes(s, events, i)
    decreases |events|
  {
    if events != [] {
      StepKeepsInv(s, events[0]);
      ChangedStaysChanged(s, events[0], i);
      ChangedJobStaysOpen(Step(s, events[0]), events[1..], i);
    }
  }

  /** When the others write recordings as the pipeline does, a job can be closed exactly as long as its
      recording is matched at the version the job was made for. */
  lemma OpenJobCanCloseExactlyWhileUnchanged(s: State, i: nat)
    requires Inv(s) && i < |s.jobs| && Open(s.jobs[i])
    ensures (exists events :: AllMatchAnew(s, events) && Closes(s, events, i)) <==> Unchanged(s, s.jobs[i])
  {
    if Unchanged(s, s.jobs[i]) {
      UnchangedJobCloses(s, i);
      ClosingRunMatchesAnew(s, i);
    } else {
      forall events | AllMatchAnew(s, events)
        ensures !Closes(s, events, i)
      {
        ChangedJobStaysOpen(s, events, i);
      }
    }
  }

  lemma ClosingRunMatchesAnew(s: State, i: nat)
    requires i < |s.jobs| && s.jobs[i].snapshot.destinations != []
    ensures AllMatchAnew(s, ClosingRun(s, i))
  {
    NobodyElseMatchesAnew(s, ClosingRun(s, i));
  }

  lemma {:induction false} NobodyElseMatchesAnew(s: State, events: seq<Event>)
    requires forall e :: e in events ==> !e.OthersWrite?
    ensures AllMatchAnew(s, events)
    decreases |events|
  {
    if events != [] {
      NobodyElseMatchesAnew(Step(s, events[0]), events[1..]);
    }
  }

  /** Any recording gets there: a job is created, and then somebody else raises the version. */
  lemma JobsBecomeOutdated(s: State, recording: nat, context: string, destinations: seq<string>)
    requires Inv(s) && recording in s.recordings && !HasOpenJob(s.jobs, recording) && destinations != []
    ensures var r := s.recordings[recording];
            var t := Step(Step(s, CreateJob(recording, r.version, context, destinations)),
                          OthersWrite(recording, r.(version := r.version + 1)));
            Inv(t) && |t.jobs| == |s.jobs| + 1 && Open(t.jobs[|s.jobs|]) && t.jobs[|s.jobs|].recording == recording
            && forall events :: !Closes(t, events, |s.jobs|)
  {
    var r := s.recordings[recording];
    var create := CreateJob(recording, r.version, context, destinations);
    var bump := OthersWrite(recording, r.(version := r.version + 1));
    StepKeepsInv(s, create);
    StepKeepsInv(Step(s, create), bump);
    var t := Step(Step(s, create), bump);
    forall events
      ensures !Closes(t, events, |s.jobs|)
    {
      OutdatedJobBlocksForGood(t, events, |s.jobs|);
    }
  }

  /* ---- What a request leads to ---- */

  /** A job is created exactly for a known recording that has no open one, for no later version than its own,
      with some destination; it shows the worker the first hundred of them and waits to be dispatched. */
  lemma JobIsCreatedExactly(s: State, recording: nat, version: nat, context: string, destinations: seq<string>)
    ensures var t := Step(s, CreateJob(recording, version, context, destinations));
            if && recording in s.recordings && version <= s.recordings[recording].version && destinations != []
               && !(exists i :: 0 <= i < |s.jobs| && s.jobs[i].recording == recording
                                && s.jobs[i].status in {Queued, Dispatched, Active})
            then
              && |t.jobs| == |s.jobs| + 1 && t.jobs[..|s.jobs|] == s.jobs
              && t.recordings == s.recordings && t.nextNonce == s.nextNonce
              && var job := t.jobs[|s.jobs|];
              && job.recording == recording && job.version == version && job.snapshot.context == context
              && job.status == Queued && job.nonce.None? && job.attempts == 0
              && |job.snapshot.destinations| == (if |destinations| > 100 then 100 else |destinations|)
              && job.snapshot.destinations <= destinations
            else t == s
  {
    if HasOpenJob(s.jobs, recording) {
      var i :| 0 <= i < |s.jobs| && Open(s.jobs[i]) && s.jobs[i].recording == recording;
      assert s.jobs[i].status in {Queued, Dispatched, Active};
    }
  }

  /** A dispatch counts the attempt and leases one job that is waiting, or whose lease has run out, for five
      minutes to the second; the others stay. It does so exactly when such a job is not locked. */
  lemma DispatchLeasesForFiveMinutes(s: State, locked: set<nat>, seconds: nat)
    ensures var t := Step(s, DispatchNext(locked));
            if exists k: nat :: k < |s.jobs| && k !in locked
                 && (s.jobs[k].status == Queued
                     || (s.jobs[k].status in {Dispatched, Active} && s.jobs[k].leaseUntil <= s.now))
            then
              exists i: nat :: i < |s.jobs| && i !in locked && |t.jobs| == |s.jobs| && t.recordings == s.recordings
                && (s.jobs[i].status == Queued
                    || (s.jobs[i].status in {Dispatched, Active} && s.jobs[i].leaseUntil <= s.now))
                && t.jobs[i].status == Dispatched && t.jobs[i].attempts == s.jobs[i].attempts + 1
                && t.jobs[i].nonce == Some(s.nextNonce)
                && (forall k :: 0 <= k < |s.jobs| && k != i ==> t.jobs[k] == s.jobs[k])
                && (s.jobs[i].recording in s.recordings ==>
                      (OwnsLease(Step(t, Wait(seconds)), i, s.nextNonce) <==> seconds < 300))
            else t == s
  {
    OldestFirst(s.jobs, s.now, locked, 0);
    var i := FirstDispatchable(s.jobs, s.now, locked, 0);
    if i.Some? {
      var t := Step(s, DispatchNext(locked));
      assert t.jobs[i.value] == Leased(s.jobs[i.value], s.now, s.nextNonce);
    } else {
      forall k: nat | k < |s.jobs| && k !in locked
        ensures !Dispatchable(s.jobs[k], s.now)
      {
      }
    }
  }

  /** What a worker's request needs: its lease, and the recording matched at the version of the job. */
  predicate Entitled(s: State, i: nat, nonce: nat) {
    && i < |s.jobs| && s.jobs[i].nonce == Some(nonce) && s.now < s.jobs[i].leaseUntil
    && s.jobs[i].recording in s.recordings
    && s.recordings[s.jobs[i].recording].version == s.jobs[i].version
    && s.recordings[s.jobs[i].recording].matched
  }

  /** An activation is accepted exactly from the entitled worker, and then a dispatched job is active; nothing
      else changes. */
  lemma ActivationIsAcceptedExactly(s: State, i: nat, nonce: nat)
    ensures ActivateVerdict(s, i, nonce) == if Entitled(s, i, nonce) then Accepted else Rejected
    ensures Step(s, ActivateJob(i, nonce))
            == if Entitled(s, i, nonce) && s.jobs[i].status == Dispatched
               then s.(jobs := s.jobs[i := s.jobs[i].(status := Active)]) else s
  {
  }

  /** The other jobs and recordings are as they were, and the closed one has moved its recording on. */
  predicate ClosesOnly(s: State, t: State, i: nat, status: JobStatus)
    requires i < |s.jobs| && s.jobs[i].recording in s.recordings
  {
    var id := s.jobs[i].recording;
    && t.jobs == s.jobs[i := s.jobs[i].(status := status)]
    && t.now == s.now && t.nextNonce == s.nextNonce && t.recordings.Keys == s.recordings.Keys
    && t.recordings[id].version == s.recordings[id].version + 1 && !t.recordings[id].matched
    && forall k :: k in s.recordings && k != id ==> t.recordings[k] == s.recordings[k]
  }

  /** A resolution is accepted exactly from the entitled worker of an active job that shows the snapshot it was
      given and picks a usable destination out of it. That destination goes into the recording, and its choices
      stay. Whatever is not accepted changes nothing; a job that is resolved already is answered as such. */
  lemma ResolutionIsAcceptedExactly(
      s: State, i: nat, nonce: nat, snapshot: Snapshot, destination: string, usable: bool)
    ensures var t := Step(s, ResolveJob(i, nonce, snapshot, destination, usable));
            if && Entitled(s, i, nonce) && s.jobs[i].status == Active && s.jobs[i].snapshot == snapshot
               && destination in snapshot.destinations && usable
            then
              var id := s.jobs[i].recording;
              && ResolveVerdict(s, i, nonce, snapshot, destination, usable) == Accepted
              && ClosesOnly(s, t, i, Resolved) && t.recordings[id].destination == Some(destination)
              && t.recordings[id].choices == s.recordings[id].choices
            else
              && t == s
              && ResolveVerdict(s, i, nonce, snapshot, destination, usable)
                 == if OwnsLease(s, i, nonce) && s.jobs[i].status == Resolved then Replayed else Rejected
  {
  }

  /** A deferral is accepted exactly from the entitled worker of an active job that shows the snapshot it was
      given and at most ten different destinations out of it. Exactly those become the choices of the recording,
      each once, and its destination stays. Whatever is not accepted changes nothing. */
  lemma DeferralIsAcceptedExactly(
      s: State, i: nat, nonce: nat, snapshot: Snapshot, candidates: seq<string>, usable: bool)
    ensures var t := Step(s, DeferJob(i, nonce, snapshot, candidates, usable));
            if && Entitled(s, i, nonce) && s.jobs[i].status == Active && s.jobs[i].snapshot == snapshot && usable
               && (forall c :: c in candidates ==> c in snapshot.destinations)
               && |set c | c in candidates| <= 10
            then
              var id := s.jobs[i].recording;
              && DeferVerdict(s, i, nonce, snapshot, candidates, usable) == Accepted
              && ClosesOnly(s, t, i, Deferred) && t.recordings[id].destination == s.recordings[id].destination
              && var choices := t.recordings[id].choices;
              && (forall c :: c in choices <==> c in candidates)
              && (forall k, l :: 0 <= k < l < |choices| ==> choices[k] != choices[l])
            else t == s && DeferVerdict(s, i, nonce, snapshot, candidates, usable) == Rejected
  {
    DistinctIsOnceEach(candidates);
    CountDistinct(Distinct(candidates));
    assert (set c | c in Distinct(candidates)) == (set c | c in candidates);
  }

  lemma {:induction false} CountDistinct(items: seq<string>)
    requires forall i, j :: 0 <= i < j < |items| ==> items[i] != items[j]
    ensures |set c | c in items| == |items|
  {
    if items != [] {
      var before := items[..|items| - 1];
      CountDistinct(before);
      assert (set c | c in items) == (set c | c in before) + {items[|items| - 1]};
    }
  }

  /** Until its lease runs out, the worker that resolved a job is told so again, whatever it asks for. */
  lemma ResolvedJobIsReplayed(
      s: State, i: nat, nonce: nat, a: Snapshot, b: string, seconds: nat, c: Snapshot, d: string)
    requires ResolveVerdict(s, i, nonce, a, b, true) == Accepted
    ensures var t := Step(Step(s, ResolveJob(i, nonce, a, b, true)), Wait(seconds));
            ResolveVerdict(t, i, nonce, c, d, true)
            == if t.now < s.jobs[i].leaseUntil then Replayed else Rejected
  {
  }

  /* ---- The service ---- */

  class RoutingJobService {
    var now: nat
    var recordings: map<nat, Recording>
    var jobs: seq<Job>
    var nextNonce: nat

    ghost function View(): State
      reads this
    {
      State(now, recordings, jobs, nextNonce)
    }

    constructor (recordings: map<nat, Recording>)
      ensures View() == State(0, recordings, [], 0)
    {
      now, jobs, nextNonce := 0, [], 0;
      this.recordings := recordings;
    }

    method CreateOrReuse(recording: nat, version: nat, context: string, destinations: seq<string>)
      returns (created: bool)
      modifies this`jobs
      ensures View() == Create(old(View()), recording, version, context, destinations)
      ensures created == (jobs != old(jobs))
    {
      if recording !in recordings || version > recordings[recording].version || destinations == [] {
        return false;
      }
      if HasOpenJob(jobs, recording) {
        return false;
      }
      jobs := jobs + [Job(recording, version, Snapshot(context, Shortened(destinations)), Queued, None, 0, 0)];
      created := true;
    }

    method DispatchNext(locked: set<nat>) returns (lease: Option<(nat, nat)>)
      modifies this`jobs, this`nextNonce
      ensures View() == Dispatch(old(View()), locked)
      ensures lease.Some? ==> lease.value.1 == old(nextNonce) && OwnsNonce(lease.value.0, lease.value.1)
      ensures lease.None? ==> View() == old(View())
    {
      var i := FirstDispatchable(jobs, now, locked, 0);
      if i.None? {
        return None;
      }
      var nonce := nextNonce;
      var job := jobs[i.value];
      job := job.(status := Dispatched, nonce := Some(nonce));
      job := job.(leaseUntil := now + DISPATCH_LEASE);
      jobs := jobs[i.value := job.(attempts := job.attempts + 1)];
      nextNonce := nonce + 1;
      lease := Some((i.value, nonce));
    }

    predicate OwnsNonce(i: nat, nonce: nat)
      reads this
    {
      i < |jobs| && jobs[i].nonce == Some(nonce) && now < jobs[i].leaseUntil
    }

    method LeaseOwnedJob(i: nat, nonce: nat) returns (owned: bool)
      ensures owned == OwnsLease(View(), i, nonce)
    {
      if i >= |jobs| || jobs[i].leaseUntil <= now {
        return false;
      }
      owned := jobs[i].nonce == Some(nonce) && jobs[i].recording in recordings;
    }

    /** Writes first and checks afterwards, as the service does; the router undoes a rejected write. */
    method ActivateJob(i: nat, nonce: nat) returns (verdict: Verdict)
      modifies this`jobs
      ensures verdict == ActivateVerdict(old(View()), i, nonce)
      ensures View() == Activate(old(View()), i, nonce)
    {
      var owned := LeaseOwnedJob(i, nonce);
      if !owned {
        return Rejected;
      }
      var rollback := jobs;
      if jobs[i].status.Dispatched? {
        jobs := jobs[i := jobs[i].(status := Active)];
      }
      var r := recordings[jobs[i].recording];
      if r.version != jobs[i].version || !r.matched {
        jobs := rollback;
        return Rejected;
      }
      verdict := Accepted;
    }

    method ResolveJob(i: nat, nonce: nat, snapshot: Snapshot, destination: string, usable: bool)
      returns (verdict: Verdict)
      modifies this`jobs, this`recordings
      ensures verdict == ResolveVerdict(old(View()), i, nonce, snapshot, destination, usable)
      ensures View() == Resolve(old(View()), i, nonce, snapshot, destination, usable)
    {
      var owned := LeaseOwnedJob(i, nonce);
      if !owned {
        return Rejected;
      }
      var job := jobs[i];
      if job.status.Resolved? {
        return Replayed;
      }
      var r := recordings[job.recording];
      if !job.status.Active? || job.snapshot != snapshot || r.version != job.version || !r.matched
         || destination !in job.snapshot.destinations || !usable {
        return Rejected;
      }
      r := r.(destination := Some(destination), matched := false);
      recordings := recordings[job.recording := r.(version := r.version + 1)];
      jobs := jobs[i := job.(status := Resolved)];
      verdict := Accepted;
    }

    method DeferJob(i: nat, nonce: nat, snapshot: Snapshot, candidates: seq<string>, usable: bool)
      returns (verdict: Verdict)
      modifies this`jobs, this`recordings
      ensures verdict == DeferVerdict(old(View()), i, nonce, snapshot, candidates, usable)
      ensures View() == Defer(old(View()), i, nonce, snapshot, candidates, usable)
    {
      var owned := LeaseOwnedJob(i, nonce);
      if !owned {
        return Rejected;
      }
      var job := jobs[i];
      var r := recordings[job.recording];
      if !job.status.Active? || job.snapshot != snapshot || r.version != job.version || !r.matched || !usable {
        return Rejected;
      }
      var chosen := EachOnce(candidates);
      DistinctIsOnceEach(candidates);
      if |chosen| > MAX_DEFER_CANDIDATES || exists c :: c in chosen && c !in job.snapshot.destinations {
        return Rejected;
      }
      r := r.(matched := false, choices := chosen);
      recordings := recordings[job.recording := r.(version := r.version + 1)];
      jobs := jobs[i := job.(status := Deferred)];
      verdict := Accepted;
    }

    /** Drops repetitions and keeps the order. */
    method EachOnce(items: seq<string>) returns (chosen: seq<string>)
      ensures chosen == Distinct(items)
    {
      chosen := [];
      var n := 0;
      while n < |items|
        invariant 0 <= n <= |items|
        invariant chosen == Distinct(items[..n])
      {
        assert items[..n + 1][..n] == items[..n];
        if items[n] !in chosen {
          chosen := chosen + [items[n]];
        }
        n := n + 1;
      }
      assert items[..n] == items;
    }
  }
}

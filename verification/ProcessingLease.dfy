/**
  The processing lease of one recording: the two resume functions of app/scheduler/cron.py, which claim
  and release it by conditional updates on a token of their own, and the reroute of
  app/services/reroute.py, which takes it for ten minutes and clears it without looking.
*/
module ProcessingLease {
  import opened Values

  const RESUME_LEASE: nat := 21600
  const REROUTE_LEASE: nat := 600

  datatype Lease = Lease(token: nat, until: nat)

  datatype Kind = Resume | Reroute

  /** A caller that got the lease; its token is its place in the sequence. */
  datatype Caller = Caller(kind: Kind, until: nat, running: bool)

  datatype State = State(now: nat, lease: Option<Lease>, callers: seq<Caller>)

  datatype Event =
    | ClaimResume(eligible: bool)   // the status is one the function resumes
    | ClaimReroute
    | Release(caller: nat)
    | Crash(caller: nat)
    | Wait(seconds: nat)

  predicate Free(s: State) {
    s.lease.None? || s.lease.value.until <= s.now
  }

  function Claimed(s: State, kind: Kind, seconds: nat): State {
    s.(lease := Some(Lease(|s.callers|, s.now + seconds)),
       callers := s.callers + [Caller(kind, s.now + seconds, true)])
  }

  function Stopped(s: State, i: nat): State
    requires i < |s.callers|
  {
    s.(callers := s.callers[i := s.callers[i].(running := false)])
  }

  predicate OwnsLease(s: State, i: nat) {
    s.lease.Some? && s.lease.value.token == i
  }

  function ReleaseStep(s: State, i: nat): State {
    if i >= |s.callers| || !s.callers[i].running then s
    else if s.callers[i].kind.Reroute? || OwnsLease(s, i) then Stopped(s, i).(lease := None)
    else Stopped(s, i)
  }

  function Step(s: State, e: Event): State {
    match e
    case ClaimResume(eligible) => if eligible && Free(s) then Claimed(s, Resume, RESUME_LEASE) else s
    case ClaimReroute => if Free(s) then Claimed(s, Reroute, REROUTE_LEASE) else s
    case Release(i) => ReleaseStep(s, i)
    case Crash(i) => if i < |s.callers| then Stopped(s, i) else s
    case Wait(seconds) => s.(now := s.now + seconds)
  }

  function Run(s: State, events: seq<Event>): State
    decreases |events|
  {
    if events == [] then s else Run(Step(s, events[0]), events[1..])
  }

  predicate Initial(s: State) {
    s.callers == [] && s.lease.None?
  }

  /** A caller at work within its lease. */
  predicate Holds(s: State, i: nat) {
    i < |s.callers| && s.callers[i].running && s.now < s.callers[i].until
  }

  /** No release clears a lease that somebody else holds. */
  predicate Orderly(s: State, e: Event) {
    e.Release? && e.caller < |s.callers| && s.callers[e.caller].running && s.lease.Some? && !OwnsLease(s, e.caller) ==>
      s.callers[e.caller].kind.Resume? || s.lease.value.until <= s.now
  }

  predicate AllOrderly(s: State, events: seq<Event>)
    decreases |events|
  {
    events == [] || (Orderly(s, events[0]) && AllOrderly(Step(s, events[0]), events[1..]))
  }

  /** Whoever is at work within its lease is the one the row names. */
  predicate Inv(s: State) {
    && (s.lease.Some? ==> s.lease.value.token < |s.callers|)
    && forall i :: 0 <= i < |s.callers| && Holds(s, i) ==> s.lease == Some(Lease(i, s.callers[i].until))
  }

  lemma StepKeepsInv(s: State, e: Event)
    requires Inv(s) && Orderly(s, e)
    ensures Inv(Step(s, e))
  {
    var t := Step(s, e);
    forall i | 0 <= i < |t.callers| && Holds(t, i)
      ensures t.lease == Some(Lease(i, t.callers[i].until))
    {
      assert i < |s.callers| ==> Holds(s, i);
    }
  }

  lemma {:induction false} RunKeepsInv(s: State, events: seq<Event>)
    requires Inv(s) && AllOrderly(s, events)
    ensures Inv(Run(s, events))
    decreases |events|
  {
    if events != [] {
      StepKeepsInv(s, events[0]);
      RunKeepsInv(Step(s, events[0]), events[1..]);
    }
  }

  /** As long as no reroute clears another caller's lease, two callers are never at work within their
      leases at the same time, whatever crashes, waits and late releases lie in between. */
  lemma AtMostOneHolder(s: State, events: seq<Event>, i: nat, j: nat)
    requires Initial(s) && AllOrderly(s, events)
    ensures !(i != j && Holds(Run(s, events), i) && Holds(Run(s, events), j))
  {
    RunKeepsInv(s, events);
  }

  predicate NoReroute(events: seq<Event>) {
    forall k :: 0 <= k < |events| ==> !events[k].ClaimReroute?
  }

  lemma {:induction false} ResumesAreOrderly(s: State, events: seq<Event>)
    requires NoReroute(events) && forall i :: 0 <= i < |s.callers| ==> s.callers[i].kind.Resume?
    ensures AllOrderly(s, events)
    decreases |events|
  {
    if events != [] {
      ResumesAreOrderly(Step(s, events[0]), events[1..]);
    }
  }

  /** So the resume functions exclude each other. */
  lemma ResumesExcludeEachOther(s: State, events: seq<Event>, i: nat, j: nat)
    requires Initial(s) && NoReroute(events)
    ensures !(i != j && Holds(Run(s, events), i) && Holds(Run(s, events), j))
  {
    ResumesAreOrderly(s, events);
    AtMostOneHolder(s, events, i, j);
  }

  /** Tokens are never used again. */
  lemma {:induction false} LostLeaseStaysLost(s: State, events: seq<Event>, i: nat)
    requires i < |s.callers| && !OwnsLease(s, i)
    ensures var t := Run(s, events);
            i < |t.callers| && t.callers[i].kind == s.callers[i].kind && !OwnsLease(t, i)
    decreases |events|
  {
    if events != [] {
      LostLeaseStaysLost(Step(s, events[0]), events[1..], i);
    }
  }

  /** A resume that lost its lease, to whomever and however long ago, clears nobody's lease any more. */
  lemma LateReleaseKeepsNewHolder(s: State, events: seq<Event>, i: nat)
    requires i < |s.callers| && s.callers[i].kind.Resume? && !OwnsLease(s, i)
    ensures Step(Run(s, events), Release(i)).lease == Run(s, events).lease
  {
    LostLeaseStaysLost(s, events, i);
  }

  /** Exactly the disorderly release lets a second caller in beside a holder. */
  lemma SecondClaimSucceedsExactlyAfterDisorder(s: State, i: nat, r: nat)
    requires Inv(s) && Holds(s, i) && r != i && r < |s.callers| && s.callers[r].running
    ensures var next := Step(Step(s, Release(r)), ClaimResume(true));
            (Holds(next, i) && Holds(next, |s.callers|)) <==> !Orderly(s, Release(r))
  {
    var released := Step(s, Release(r));
    assert released.callers[i] == s.callers[i];
  }

  /** It does happen: a reroute that outlives its ten minutes. */
  lemma SlowRerouteLetsTwoResumesIn(s: State)
    requires Initial(s)
    ensures var events := [ClaimReroute, Wait(600), ClaimResume(true), Release(0), ClaimResume(true)];
            Holds(Run(s, events), 1) && Holds(Run(s, events), 2)
  {
    var s1 := Step(s, ClaimReroute);
    var s2 := Step(s1, Wait(600));
    var s3 := Step(s2, ClaimResume(true));
    var s4 := Step(s3, Release(0));
    var s5 := Step(s4, ClaimResume(true));
    var events := [ClaimReroute, Wait(600), ClaimResume(true), Release(0), ClaimResume(true)];
    assert events[1..] == [Wait(600), ClaimResume(true), Release(0), ClaimResume(true)];
    assert events[1..][1..] == [ClaimResume(true), Release(0), ClaimResume(true)];
    assert events[1..][1..][1..] == [Release(0), ClaimResume(true)];
    assert events[1..][1..][1..][1..] == [ClaimResume(true)];
    assert events[1..][1..][1..][1..][1..] == [];
    assert Run(s, events) == Run(s1, events[1..]) == Run(s2, events[1..][1..]) == Run(s3, events[1..][1..][1..])
        == Run(s4, events[1..][1..][1..][1..]) == Run(s5, []);
  }

  class Recording {
    var now: nat
    var lease: Option<Lease>
    var callers: seq<Caller>

    ghost function View(): State
      reads this
    {
      State(now, lease, callers)
    }

    constructor ()
      ensures Initial(View())
    {
      now, lease, callers := 0, None, [];
    }

    /** The conditional update that claims the row. */
    method ClaimForResume(eligible: bool) returns (claimed: bool)
      modifies this`lease, this`callers
      ensures claimed == (eligible && Free(old(View())))
      ensures View() == Step(old(View()), ClaimResume(eligible))
    {
      claimed := eligible && (lease.None? || lease.value.until <= now);
      if claimed {
        lease := Some(Lease(|callers|, now + RESUME_LEASE));
        callers := callers + [Caller(Resume, now + RESUME_LEASE, true)];
      }
    }

    /** The release in the `finally` block: by token for a resume, without a look for a reroute. */
    method ReleaseLease(i: nat)
      requires i < |callers| && callers[i].running
      modifies this`lease, this`callers
      ensures View() == Step(old(View()), Release(i))
    {
      if callers[i].kind.Reroute? || (lease.Some? && lease.value.token == i) {
        lease := None;
      }
      callers := callers[i := callers[i].(running := false)];
    }
  }
}

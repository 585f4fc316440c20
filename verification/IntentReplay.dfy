/**
  Idempotent requests (app/services/intents.py, and the release of a scan in app/routers/tools.py).

  A request first tries to insert a pending row for its key; when that fails it locks the row that
  exists and replays it, refuses, or takes over an expired claim. Both halves, completion and release
  are commits of their own, so any number of requests interleave between them.
*/
module IntentReplay {
  import opened Values

  /** Actor, operation and idempotency key. */
  datatype Key = Key(actor: string, operation: string, idempotencyKey: string)

  datatype Claim = Pending(owner: nat, expires: nat) | Completed(response: string)

  datatype Row = Row(id: nat, fingerprint: string, claim: Claim)

  /** Where a request stands: after a refused insert, doing its work, or answered. */
  datatype Pc =
    | Contending(since: nat)
    | Working(row: nat)
    | Returned(response: string)    // its own work, completed
    | Replayed(response: string)
    | Refused
    | Lost
    | Gone

  /** Every request draws an owner token of its own: its place in the sequence. */
  datatype Request = Request(key: Key, fingerprint: string, pc: Pc)

  datatype Win = Win(owner: nat, response: string)

  datatype State = State(
    now: nat, ttl: nat, rows: map<Key, Row>, nextRow: nat, requests: seq<Request>,
    wins: map<Key, seq<Win>>)   // history: the completions of each key that went through

  datatype Event =
    | Arrive(key: Key, fingerprint: string)
    | TakeOver(request: nat)
    | Complete(request: nat, response: string)
    | Release(request: nat)
    | CutOff(request: nat)
    | Wait(seconds: nat)

  function ArriveStep(s: State, key: Key, fingerprint: string): State {
    if key in s.rows then s.(requests := s.requests + [Request(key, fingerprint, Contending(s.now))])
    else
      s.(rows := s.rows[key := Row(s.nextRow, fingerprint, Pending(|s.requests|, s.now + s.ttl))],
         nextRow := s.nextRow + 1,
         requests := s.requests + [Request(key, fingerprint, Working(s.nextRow))])
  }

  function At(s: State, i: nat, pc: Pc): State
    requires i < |s.requests|
  {
    s.(requests := s.requests[i := s.requests[i].(pc := pc)])
  }

  function TakeOverStep(s: State, i: nat): State {
    if i >= |s.requests| || !s.requests[i].pc.Contending? then s
    else
      var r := s.requests[i];
      if r.key !in s.rows || s.rows[r.key].fingerprint != r.fingerprint then At(s, i, Refused)
      else
        var row := s.rows[r.key];
        match row.claim
        case Completed(response) => At(s, i, Replayed(response))
        case Pending(_, expires) =>
          if expires > r.pc.since then At(s, i, Refused)
          else
            At(s, i, Working(row.id)).(rows := s.rows[r.key := row.(claim := Pending(i, r.pc.since + s.ttl))])
  }

  /** The conditional update and delete: same row, still pending, still ours. */
  predicate Owns(s: State, i: nat) {
    i < |s.requests|
    && var r := s.requests[i];
       r.pc.Working? && r.key in s.rows && s.rows[r.key].id == r.pc.row
       && s.rows[r.key].claim.Pending? && s.rows[r.key].claim.owner == i
  }

  function WinsOf(s: State, key: Key): seq<Win> {
    if key in s.wins then s.wins[key] else []
  }

  function CompleteStep(s: State, i: nat, response: string): State {
    if i >= |s.requests| || !s.requests[i].pc.Working? then s
    else if !Owns(s, i) then At(s, i, Lost)
    else
      var key := s.requests[i].key;
      At(s, i, Returned(response)).(
        rows := s.rows[key := s.rows[key].(claim := Completed(response))],
        wins := s.wins[key := WinsOf(s, key) + [Win(i, response)]])
  }

  function ReleaseStep(s: State, i: nat): State {
    if i >= |s.requests| || !s.requests[i].pc.Working? then s
    else if !Owns(s, i) then At(s, i, Gone)
    else At(s, i, Gone).(rows := s.rows - {s.requests[i].key})
  }

  function Step(s: State, e: Event): State {
    match e
    case Arrive(key, fingerprint) => ArriveStep(s, key, fingerprint)
    case TakeOver(i) => TakeOverStep(s, i)
    case Complete(i, response) => CompleteStep(s, i, response)
    case Release(i) => ReleaseStep(s, i)
    case CutOff(i) =>
      if i < |s.requests| && (s.requests[i].pc.Contending? || s.requests[i].pc.Working?) then At(s, i, Gone) else s
    case Wait(seconds) => s.(now := s.now + seconds)
  }

  function Run(s: State, events: seq<Event>): State
    decreases |events|
  {
    if events == [] then s else Run(Step(s, events[0]), events[1..])
  }

  predicate Initial(s: State) {
    s.rows == map[] && s.requests == [] && s.wins == map[]
  }

  /* ---- What every step keeps ---- */

  /** A pending row belongs to the request of the same key and fingerprint that works on it, or did. */
  predicate RowInv(s: State, key: Key) {
    key in s.rows ==>
      && s.rows[key].id < s.nextRow
      && (s.rows[key].claim.Pending? ==>
            s.rows[key].claim.owner < |s.requests|
            && s.requests[s.rows[key].claim.owner].key == key
            && s.requests[s.rows[key].claim.owner].fingerprint == s.rows[key].fingerprint)
  }

  /** A key is completed exactly when one request completed it, and then with that response. */
  predicate WinInv(s: State, key: Key) {
    if key in s.rows && s.rows[key].claim.Completed?
    then |WinsOf(s, key)| == 1 && WinsOf(s, key)[0].response == s.rows[key].claim.response
    else WinsOf(s, key) == []
  }

  /** What a request was told is what the row says. */
  predicate RequestInv(s: State, i: nat)
    requires i < |s.requests|
  {
    var r := s.requests[i];
    match r.pc
    case Returned(response) => Says(s, r, response) && WinsOf(s, r.key) == [Win(i, response)]
    case Replayed(response) => Says(s, r, response)
    case _ => true
  }

  predicate Says(s: State, r: Request, response: string) {
    r.key in s.rows && s.rows[r.key].fingerprint == r.fingerprint && s.rows[r.key].claim == Completed(response)
  }

  ghost predicate Inv(s: State) {
    && (forall key :: RowInv(s, key))
    && (forall key :: WinInv(s, key))
    && (forall i :: 0 <= i < |s.requests| ==> RequestInv(s, i))
  }

  /** A step of one request, seen by the others. */
  lemma OthersUnmoved(s: State, t: State, i: nat)
    requires Inv(s) && i < |t.requests| && |s.requests| <= |t.requests| <= |s.requests| + 1
    requires forall k :: 0 <= k < |s.requests| && k != i ==> t.requests[k] == s.requests[k]
    requires |t.requests| > |s.requests| ==> i == |s.requests|
    requires forall key :: key in s.rows && s.rows[key].claim.Completed? ==>
               key in t.rows && t.rows[key] == s.rows[key] && WinsOf(t, key) == WinsOf(s, key)
    requires RequestInv(t, i)
    ensures forall k :: 0 <= k < |t.requests| ==> RequestInv(t, k)
  {
    forall k | 0 <= k < |t.requests|
      ensures RequestInv(t, k)
    {
      if k != i {
        assert RequestInv(s, k);
      }
    }
  }

  lemma ArriveKeepsInv(s: State, key: Key, fingerprint: string)
    requires Inv(s)
    ensures Inv(ArriveStep(s, key, fingerprint))
  {
    var t := ArriveStep(s, key, fingerprint);
    forall k
      ensures RowInv(t, k) && WinInv(t, k)
    {
      assert RowInv(s, k) && WinInv(s, k);
    }
    OthersUnmoved(s, t, |s.requests|);
  }

  lemma TakeOverKeepsInv(s: State, i: nat)
    requires Inv(s) && i < |s.requests| && s.requests[i].pc.Contending?
    ensures Inv(TakeOverStep(s, i))
  {
    var t := TakeOverStep(s, i);
    forall k
      ensures RowInv(t, k) && WinInv(t, k)
    {
      assert RowInv(s, k) && WinInv(s, k);
    }
    OthersUnmoved(s, t, i);
  }

  lemma CompleteKeepsInv(s: State, i: nat, response: string)
    requires Inv(s) && i < |s.requests| && s.requests[i].pc.Working?
    ensures Inv(CompleteStep(s, i, response))
  {
    var t := CompleteStep(s, i, response);
    assert RowInv(s, s.requests[i].key) && WinInv(s, s.requests[i].key);
    forall k
      ensures RowInv(t, k) && WinInv(t, k)
    {
      assert RowInv(s, k) && WinInv(s, k);
    }
    OthersUnmoved(s, t, i);
  }

  lemma ReleaseKeepsInv(s: State, i: nat)
    requires Inv(s) && i < |s.requests| && s.requests[i].pc.Working?
    ensures Inv(ReleaseStep(s, i))
  {
    var t := ReleaseStep(s, i);
    forall k
      ensures RowInv(t, k) && WinInv(t, k)
    {
      assert RowInv(s, k) && WinInv(s, k);
    }
    OthersUnmoved(s, t, i);
  }

  lemma CutOffKeepsInv(s: State, i: nat)
    requires Inv(s) && i < |s.requests|
    ensures Inv(At(s, i, Gone))
  {
    var t := At(s, i, Gone);
    forall k
      ensures RowInv(t, k) && WinInv(t, k)
    {
      assert RowInv(s, k) && WinInv(s, k);
    }
    OthersUnmoved(s, t, i);
  }

  lemma StepKeepsInv(s: State, e: Event)
    requires Inv(s)
    ensures Inv(Step(s, e))
  {
    match e
    case Arrive(key, fingerprint) => ArriveKeepsInv(s, key, fingerprint);
    case TakeOver(i) =>
      if i < |s.requests| && s.requests[i].pc.Contending? {
        TakeOverKeepsInv(s, i);
      }
    case Complete(i, response) =>
      if i < |s.requests| && s.requests[i].pc.Working? {
        CompleteKeepsInv(s, i, response);
      }
    case Release(i) =>
      if i < |s.requests| && s.requests[i].pc.Working? {
        ReleaseKeepsInv(s, i);
      }
    case CutOff(i) =>
      if i < |s.requests| {
        CutOffKeepsInv(s, i);
      }
    case Wait(_) =>
      forall k
        ensures RowInv(Step(s, e), k) && WinInv(Step(s, e), k)
      {
        assert RowInv(s, k) && WinInv(s, k);
      }
      forall k | 0 <= k < |s.requests|
        ensures RequestInv(Step(s, e), k)
      {
        assert RequestInv(s, k);
      }
  }

  lemma {:induction false} RunKeepsInv(s: State, events: seq<Event>)
    requires Inv(s)
    ensures Inv(Run(s, events))
    decreases |events|
  {
    if events != [] {
      StepKeepsInv(s, events[0]);
      RunKeepsInv(Step(s, events[0]), events[1..]);
    }
  }

  /* ---- Guarantees over all runs ---- */

  /** At most one request of a key completes; whoever was told a response was told the same one, for
      the same fingerprint. */
  lemma OneCompletionOneAnswer(s: State, events: seq<Event>, i: nat, j: nat)
    requires Initial(s)
    ensures var t := Run(s, events);
            forall key :: |WinsOf(t, key)| <= 1
    ensures var t := Run(s, events);
            i < |t.requests| && j < |t.requests| && t.requests[i].key == t.requests[j].key ==>
              var a, b := t.requests[i], t.requests[j];
              && (a.pc.Returned? && b.pc.Returned? ==> i == j)
              && (a.pc.Returned? && b.pc.Replayed? ==> a.pc.response == b.pc.response && a.fingerprint == b.fingerprint)
              && (a.pc.Replayed? && b.pc.Replayed? ==> a.pc.response == b.pc.response && a.fingerprint == b.fingerprint)
  {
    InitialInv(s);
    RunKeepsInv(s, events);
    var t := Run(s, events);
    forall key
      ensures |WinsOf(t, key)| <= 1
    {
      assert WinInv(t, key);
    }
    if i < |t.requests| && j < |t.requests| {
      assert RequestInv(t, i) && RequestInv(t, j);
    }
  }

  lemma InitialInv(s: State)
    requires Initial(s)
    ensures Inv(s)
  {
  }

  /** A completed key stays completed, word for word. */
  lemma {:induction false} CompletedIsFinal(s: State, events: seq<Event>, key: Key)
    requires key in s.rows && s.rows[key].claim.Completed?
    ensures key in Run(s, events).rows && Run(s, events).rows[key] == s.rows[key]
    decreases |events|
  {
    if events != [] {
      CompletedIsFinal(Step(s, events[0]), events[1..], key);
    }
  }

  /** The request that an event acts for. */
  function Actor(e: Event): Option<nat> {
    match e
    case Arrive(_, _) => None
    case TakeOver(i) => Some(i)
    case Complete(i, _) => Some(i)
    case Release(i) => Some(i)
    case CutOff(i) => Some(i)
    case Wait(_) => None
  }

  predicate LeaveAlone(events: seq<Event>, i: nat) {
    forall k :: 0 <= k < |events| ==> Actor(events[k]) != Some(i)
  }

  lemma {:induction false} RequestsStay(s: State, events: seq<Event>, i: nat)
    requires i < |s.requests| && LeaveAlone(events, i)
    ensures i < |Run(s, events).requests| && Run(s, events).requests[i] == s.requests[i]
    decreases |events|
  {
    if events != [] {
      RequestsStay(Step(s, events[0]), events[1..], i);
    }
  }

  /** Every later request with that key gets exactly the stored response when its fingerprint is the
      stored one, and is refused otherwise, however much happens before and between its two halves. */
  lemma LaterRequestsGetTheAnswer(s: State, before: seq<Event>, between: seq<Event>, key: Key, fingerprint: string)
    requires key in s.rows && s.rows[key].claim.Completed?
    requires LeaveAlone(between, |Run(s, before).requests|)
    ensures var i := |Run(s, before).requests|;
            var met := Run(Step(Run(s, before), Arrive(key, fingerprint)), between);
            var answered := Step(met, TakeOver(i));
            && i < |answered.requests| && answered.rows == met.rows
            && answered.requests[i].pc
               == if fingerprint == s.rows[key].fingerprint then Replayed(s.rows[key].claim.response) else Refused
  {
    CompletedIsFinal(s, before, key);
    var arrived := Step(Run(s, before), Arrive(key, fingerprint));
    CompletedIsFinal(arrived, between, key);
    RequestsStay(arrived, between, |Run(s, before).requests|);
  }

  /** The two halves of a request, with time in between. */
  function Claimed(s: State, key: Key, fingerprint: string, seconds: nat): State {
    Step(Step(Step(s, Arrive(key, fingerprint)), Wait(seconds)), TakeOver(|s.requests|))
  }

  /** A request that nobody disturbs works exactly when the key is free, or its pending claim has the same
      fingerprint and had run out when the request arrived. Then its response is stored and returned; otherwise
      nothing changes, and it is answered from the row or refused. */
  lemma UndisturbedRequestWorksExactlyWhenFreeOrExpired(
      s: State, key: Key, fingerprint: string, seconds: nat, response: string)
    ensures var i, t := |s.requests|, Claimed(s, key, fingerprint, seconds);
            && i < |t.requests|
            && (t.requests[i].pc.Working? <==>
                  key !in s.rows
                  || (s.rows[key].fingerprint == fingerprint && s.rows[key].claim.Pending?
                      && s.rows[key].claim.expires <= s.now))
            && (if t.requests[i].pc.Working? then
                  var done := Step(t, Complete(i, response));
                  && done.requests[i].pc == Returned(response) && key in done.rows
                  && done.rows[key].fingerprint == fingerprint && done.rows[key].claim == Completed(response)
                else
                  && t.rows == s.rows
                  && t.requests[i].pc
                     == if s.rows[key].fingerprint == fingerprint && s.rows[key].claim.Completed?
                        then Replayed(s.rows[key].claim.response) else Refused)
  {
  }

  /** The claim of a request that works: its own, for the whole time from its arrival. */
  lemma WorkIsClaimed(s: State, key: Key, fingerprint: string, seconds: nat)
    ensures var i, t := |s.requests|, Claimed(s, key, fingerprint, seconds);
            && |t.requests| == i + 1 && t.requests[i].key == key && t.now == s.now + seconds && t.ttl == s.ttl
            && (t.requests[i].pc.Working? ==>
                  && key in t.rows && t.rows[key].fingerprint == fingerprint
                  && t.rows[key].claim == Pending(i, s.now + s.ttl) && Owns(t, i)
                  && forall k :: k in s.rows && k != key ==> k in t.rows && t.rows[k] == s.rows[k])
  {
  }

  /** A claim keeps every other request away that arrives before it has run for the whole of its time; the first
      one for the same work that arrives later takes it over. */
  lemma ClaimLastsItsTime(s: State, key: Key, a: string, b: string, first: nat, until: nat, second: nat)
    requires |Claimed(s, key, a, first).requests| > |s.requests|
    requires Claimed(s, key, a, first).requests[|s.requests|].pc.Working?
    ensures var t := Step(Claimed(s, key, a, first), Wait(until));
            Claimed(t, key, b, second).requests[|t.requests|].pc.Working? <==> a == b && first + until >= s.ttl
  {
    WorkIsClaimed(s, key, a, first);
    UndisturbedRequestWorksExactlyWhenFreeOrExpired(Step(Claimed(s, key, a, first), Wait(until)), key, b, second, "");
  }

  /** A request that is cut off before its answer is over, and leaves its claim to run out. */
  lemma CutOffIsTheEnd(s: State, i: nat)
    requires i < |s.requests|
    ensures var t := Step(s, CutOff(i));
            && t.rows == s.rows && t.now == s.now
            && t.requests == if s.requests[i].pc.Contending? || s.requests[i].pc.Working?
                             then s.requests[i := s.requests[i].(pc := Gone)] else s.requests
  {
  }

  /** A released key is free again, whatever happens meanwhile to other keys; the request is over. */
  lemma ReleasedKeyIsFree(s: State, key: Key, fingerprint: string, seconds: nat)
    requires |Claimed(s, key, fingerprint, seconds).requests| > |s.requests|
    requires Claimed(s, key, fingerprint, seconds).requests[|s.requests|].pc.Working?
    ensures var t := Step(Claimed(s, key, fingerprint, seconds), Release(|s.requests|));
            && key !in t.rows && t.requests[|s.requests|].pc == Gone
            && forall k :: k in s.rows && k != key ==> k in t.rows && t.rows[k] == s.rows[k]
  {
    WorkIsClaimed(s, key, fingerprint, seconds);
  }

  /** A claim that disappeared between the two halves leaves the request refused. */
  lemma VanishedClaimRefuses(s: State, i: nat)
    requires i < |s.requests| && s.requests[i].pc.Contending? && s.requests[i].key !in s.rows
    ensures Step(s, TakeOver(i)).rows == s.rows && Step(s, TakeOver(i)).requests[i].pc == Refused
  {
  }

  /** A request that lost its claim, by a take-over or by any other way, never gets it back: it can
      neither complete nor release anything any more. */
  lemma {:induction false} LostClaimIsPowerless(s: State, events: seq<Event>, i: nat)
    requires i < |s.requests| && s.requests[i].pc.Working? && !Owns(s, i)
    ensures i < |Run(s, events).requests| && !Owns(Run(s, events), i)
    ensures forall response :: Step(Run(s, events), Complete(i, response)).rows == Run(s, events).rows
    ensures Step(Run(s, events), Release(i)).rows == Run(s, events).rows
    ensures LeaveAlone(events, i) ==>
              && (forall response :: Step(Run(s, events), Complete(i, response)).requests[i].pc == Lost)
              && Step(Run(s, events), Release(i)).requests[i].pc == Gone
    decreases |events|
  {
    if events != [] {
      var t := Step(s, events[0]);
      if t.requests[i].pc.Working? {
        LostClaimIsPowerless(t, events[1..], i);
      } else {
        IdleIsPowerless(t, events[1..], i);
      }
    }
  }

  lemma {:induction false} IdleIsPowerless(s: State, events: seq<Event>, i: nat)
    requires i < |s.requests| && !s.requests[i].pc.Working? && !s.requests[i].pc.Contending?
    ensures i < |Run(s, events).requests| && Run(s, events).requests[i] == s.requests[i]
    decreases |events|
  {
    if events != [] {
      IdleIsPowerless(Step(s, events[0]), events[1..], i);
    }
  }

  /** A pending claim changes hands only after it has run out. */
  lemma TakeOverWaitsForExpiry(s: State, e: Event, key: Key)
    requires key in s.rows && s.rows[key].claim.Pending?
    requires key in Step(s, e).rows && Step(s, e).rows[key].claim.Pending? && Step(s, e).rows[key] != s.rows[key]
    ensures e.TakeOver? && e.request < |s.requests| && s.requests[e.request].pc.Contending?
    ensures s.rows[key].claim.expires <= s.requests[e.request].pc.since
  {
  }

  /* ---- The store ---- */

  class IntentStore {
    var now: nat
    var ttl: nat
    var rows: map<Key, Row>
    var nextRow: nat
    var requests: seq<Request>
    ghost var wins: map<Key, seq<Win>>

    ghost function View(): State
      reads this
    {
      State(now, ttl, rows, nextRow, requests, wins)
    }

    constructor (ttl: nat)
      ensures Initial(View()) && this.ttl == ttl
    {
      now, rows, nextRow, requests, wins := 0, map[], 0, [], map[];
      this.ttl := ttl;
    }

    /** The first half of a claim: the insert. */
    method InsertClaim(key: Key, fingerprint: string) returns (request: nat)
      modifies this`rows, this`nextRow, this`requests
      ensures request == |old(requests)|
      ensures View() == ArriveStep(old(View()), key, fingerprint)
    {
      request := |requests|;
      if key in rows {
        requests := requests + [Request(key, fingerprint, Contending(now))];
        return;
      }
      rows := rows[key := Row(nextRow, fingerprint, Pending(request, now + ttl))];
      requests := requests + [Request(key, fingerprint, Working(nextRow))];
      nextRow := nextRow + 1;
    }

    /** The second half, on the locked row. */
    method ReplayOrTakeOver(i: nat)
      requires i < |requests| && requests[i].pc.Contending?
      modifies this`rows, this`requests
      ensures View() == TakeOverStep(old(View()), i)
    {
      var r := requests[i];
      if r.key !in rows || rows[r.key].fingerprint != r.fingerprint {
        requests := requests[i := r.(pc := Refused)];
        return;
      }
      var row := rows[r.key];
      match row.claim
      case Completed(response) =>
        requests := requests[i := r.(pc := Replayed(response))];
      case Pending(_, expires) =>
        if expires > r.pc.since {
          requests := requests[i := r.(pc := Refused)];
        } else {
          rows := rows[r.key := row.(claim := Pending(i, r.pc.since + ttl))];
          requests := requests[i := r.(pc := Working(row.id))];
        }
    }

    predicate StillOurs(i: nat)
      requires i < |requests| && requests[i].pc.Working?
      reads this
    {
      var r := requests[i];
      && r.key in rows && rows[r.key].id == r.pc.row
      && rows[r.key].claim.Pending? && rows[r.key].claim.owner == i
    }

    method CompleteIntent(i: nat, response: string) returns (ok: bool)
      requires i < |requests| && requests[i].pc.Working?
      modifies this`rows, this`requests, this`wins
      ensures ok == Owns(old(View()), i)
      ensures View() == CompleteStep(old(View()), i, response)
    {
      var r := requests[i];
      ok := StillOurs(i);
      if ok {
        rows := rows[r.key := rows[r.key].(claim := Completed(response))];
        requests := requests[i := r.(pc := Returned(response))];
        wins := wins[r.key := WinsOf(old(View()), r.key) + [Win(i, response)]];
      } else {
        requests := requests[i := r.(pc := Lost)];
      }
    }

    method ReleaseIntent(i: nat)
      requires i < |requests| && requests[i].pc.Working?
      modifies this`rows, this`requests
      ensures View() == ReleaseStep(old(View()), i)
    {
      var r := requests[i];
      if StillOurs(i) {
        rows := rows - {r.key};
      }
      requests := requests[i := r.(pc := Gone)];
    }
  }
}

/**
  Several drains of the outbox at the same time (app/scheduler/cron.py:1845-1866,
  app/services/question_queue.py:681-782). A drain looks for items, claims what it saw in a second
  statement, and delivers from the copies it read then, however long that takes. The claim tests the
  status of the look no more, and a delivery tests nothing in the row.
*/
module QuestionQueueOverlap {
  import opened Values
  import opened QuestionQueue

  /** A drain that looked, and one that claimed, with the number of tries it read for each item. */
  datatype Drain =
    | Looking(at: nat, ids: set<nat>)
    | Holding(until: nat, held: map<nat, nat>)

  /** `tries` is history: the items whose delivery was tried, in order. */
  datatype System = System(q: State, drains: seq<Drain>, tries: seq<nat>)

  datatype Act =
    | Beside(e: Event)                  // everything that is not a drain
    | Look(wanted: set<nat>)
    | Take(d: nat)
    | Post(d: nat, i: nat, ok: bool)

  function Claims(items: seq<Item>, at: nat, ids: set<nat>): set<nat> {
    set i | i in ids && i < |items| && Unclaimed(items[i], at)
  }

  function Taken(items: seq<Item>, worker: nat, at: nat, ids: set<nat>): seq<Item> {
    seq(|items|, i requires 0 <= i < |items| =>
      if i in Claims(items, at, ids) then Claimed(items[i], worker, at) else items[i])
  }

  function TakenBy(s: System, d: nat, at: nat, ids: set<nat>): System
    requires d < |s.drains|
  {
    var held := map i | i in Claims(s.q.items, at, ids) :: s.q.items[i].attempts;
    s.(q := s.q.(items := Taken(s.q.items, d, at, ids)),
       drains := s.drains[d := Holding(at + OUTBOX_CLAIM_TTL, held)])
  }

  predicate MayPost(s: System, d: nat, i: nat) {
    d < |s.drains| && s.drains[d].Holding? && i in s.drains[d].held && i < |s.q.items|
  }

  function Posted(s: System, d: nat, i: nat, ok: bool): System
    requires MayPost(s, d, i)
  {
    var held := s.drains[d].held;
    System(HandedOver(s.q, i, held[i] + 1, ok), s.drains[d := s.drains[d].(held := held - {i})], s.tries + [i])
  }

  function Do(s: System, a: Act): System {
    match a
    case Beside(e) => if e.ClaimOutbox? || e.DeliverItem? then s else s.(q := Step(s.q, e))
    case Look(wanted) =>
      var seen := set i | i in wanted && i < |s.q.items| && Claimable(s.q.items[i], s.q.now);
      s.(drains := s.drains + [Looking(s.q.now, seen)])
    case Take(d) =>
      if d < |s.drains| && s.drains[d].Looking? then TakenBy(s, d, s.drains[d].at, s.drains[d].ids) else s
    case Post(d, i, ok) => if MayPost(s, d, i) then Posted(s, d, i, ok) else s
  }

  function DoAll(s: System, acts: seq<Act>): System
    decreases |acts|
  {
    if acts == [] then s else DoAll(Do(s, acts[0]), acts[1..])
  }

  predicate Start(s: System) {
    Initial(s.q) && s.drains == [] && s.tries == []
  }

  /* ---- Exactly when a settled item is taken up again ---- */

  function Tries(tries: seq<nat>, i: nat): nat {
    if tries == [] then 0
    else Tries(tries[..|tries| - 1], i) + if tries[|tries| - 1] == i then 1 else 0
  }

  /** An item that was sent or given up stays as it is, and is not delivered again. */
  predicate StaysSettled(s: System, t: System) {
    && |s.q.items| <= |t.q.items|
    && forall i :: 0 <= i < |s.q.items| && !Outstanding(s.q.items[i]) ==>
         t.q.items[i] == s.q.items[i] && Tries(t.tries, i) == Tries(s.tries, i)
  }

  /** A claim of an item that somebody else settled since the look, or a delivery of one that somebody else
      settled since the claim. */
  predicate Disorderly(s: System, a: Act) {
    match a
    case Take(d) =>
      && d < |s.drains| && s.drains[d].Looking?
      && exists i :: i in Claims(s.q.items, s.drains[d].at, s.drains[d].ids) && !Outstanding(s.q.items[i])
    case Post(d, i, _) => MayPost(s, d, i) && !Outstanding(s.q.items[i])
    case _ => false
  }

  lemma TryCounts(tries: seq<nat>, i: nat, j: nat)
    ensures Tries(tries + [j], i) == Tries(tries, i) + if i == j then 1 else 0
  {
    assert (tries + [j])[..|tries|] == tries;
  }

  lemma BesideStaysSettled(s: System, e: Event)
    ensures StaysSettled(s, Do(s, Beside(e)))
  {
  }

  lemma TakeSettledExactly(s: System, d: nat)
    ensures StaysSettled(s, Do(s, Take(d))) <==> !Disorderly(s, Take(d))
  {
    if d < |s.drains| && s.drains[d].Looking? {
      var claims := Claims(s.q.items, s.drains[d].at, s.drains[d].ids);
      var t := Do(s, Take(d));
      forall i | i in claims && !Outstanding(s.q.items[i])
        ensures t.q.items[i] != s.q.items[i]
      {
        assert t.q.items[i].status.Sending?;
      }
    }
  }

  lemma PostSettledExactly(s: System, d: nat, i: nat, ok: bool)
    ensures StaysSettled(s, Do(s, Post(d, i, ok))) <==> !Disorderly(s, Post(d, i, ok))
  {
    if MayPost(s, d, i) {
      forall j: nat
        ensures Tries(s.tries + [i], j) == Tries(s.tries, j) + if j == i then 1 else 0
      {
        TryCounts(s.tries, j, i);
      }
    }
  }

  lemma SettledStaysExactlyWithoutDisorder(s: System, a: Act)
    ensures StaysSettled(s, Do(s, a)) <==> !Disorderly(s, a)
  {
    match a
    case Beside(e) => BesideStaysSettled(s, e);
    case Look(_) =>
    case Take(d) => TakeSettledExactly(s, d);
    case Post(d, i, ok) => PostSettledExactly(s, d, i, ok);
  }

  predicate InOrder(s: System, acts: seq<Act>)
    decreases |acts|
  {
    acts == [] || (!Disorderly(s, acts[0]) && InOrder(Do(s, acts[0]), acts[1..]))
  }

  /** Between any two moments of the run. */
  ghost predicate AlwaysSettled(s: System, acts: seq<Act>) {
    forall m, n :: 0 <= m <= n <= |acts| ==> StaysSettled(DoAll(s, acts[..m]), DoAll(s, acts[..n]))
  }

  lemma {:induction false} OneMore(s: System, acts: seq<Act>, n: nat)
    requires n < |acts|
    ensures DoAll(s, acts[..n + 1]) == Do(DoAll(s, acts[..n]), acts[n])
    decreases n
  {
    if n == 0 {
      assert acts[..1] == [acts[0]];
      assert DoAll(s, [acts[0]]) == DoAll(Do(s, acts[0]), []);
    } else {
      OneMore(Do(s, acts[0]), acts[1..], n - 1);
      assert acts[..n + 1][1..] == acts[1..][..n];
      assert acts[..n][1..] == acts[1..][..n - 1];
    }
  }

  lemma {:induction false} OrderAt(s: System, acts: seq<Act>)
    ensures InOrder(s, acts) <==> forall n :: 0 <= n < |acts| ==> !Disorderly(DoAll(s, acts[..n]), acts[n])
    decreases |acts|
  {
    if acts != [] {
      var t, rest := Do(s, acts[0]), acts[1..];
      OrderAt(t, rest);
      assert DoAll(s, acts[..0]) == s;
      forall n | 0 <= n < |rest|
        ensures DoAll(t, rest[..n]) == DoAll(s, acts[..n + 1]) && rest[n] == acts[n + 1]
      {
        assert acts[..n + 1][1..] == rest[..n];
      }
      forall n | 1 <= n < |acts|
        ensures DoAll(s, acts[..n]) == DoAll(t, rest[..n - 1]) && acts[n] == rest[n - 1]
      {
        assert acts[..n][1..] == rest[..n - 1];
      }
    }
  }

  lemma {:induction false} SettledBetween(s: System, acts: seq<Act>, m: nat, n: nat)
    requires m <= n <= |acts|
    requires forall k :: m <= k < n ==> !Disorderly(DoAll(s, acts[..k]), acts[k])
    ensures StaysSettled(DoAll(s, acts[..m]), DoAll(s, acts[..n]))
    decreases n
  {
    if m < n {
      SettledBetween(s, acts, m, n - 1);
      OneMore(s, acts, n - 1);
      SettledStaysExactlyWithoutDisorder(DoAll(s, acts[..n - 1]), acts[n - 1]);
    }
  }

  /** However many drains are at work: at every moment of a run what was sent or given up stays so and is not
      delivered again, exactly when no drain of the run takes up an item that another one settled. */
  lemma ItemsStaySettledExactlyInOrder(s: System, acts: seq<Act>)
    ensures AlwaysSettled(s, acts) <==> InOrder(s, acts)
  {
    OrderAt(s, acts);
    if InOrder(s, acts) {
      forall m, n | 0 <= m <= n <= |acts|
        ensures StaysSettled(DoAll(s, acts[..m]), DoAll(s, acts[..n]))
      {
        SettledBetween(s, acts, m, n);
      }
    } else {
      var n :| 0 <= n < |acts| && Disorderly(DoAll(s, acts[..n]), acts[n]);
      OneMore(s, acts, n);
      SettledStaysExactlyWithoutDisorder(DoAll(s, acts[..n]), acts[n]);
      assert !StaysSettled(DoAll(s, acts[..n]), DoAll(s, acts[..n + 1]));
    }
  }

  /* ---- What then holds of the digests ---- */

  /** What a drain read of its items. */
  predicate CopiesInv(s: System) {
    forall d :: 0 <= d < |s.drains| && s.drains[d].Holding? ==>
      forall i :: i in s.drains[d].held ==> s.drains[d].held[i] < MAX_ATTEMPTS
  }

  predicate SystemInv(s: System) {
    Inv(s.q) && CopiesInv(s)
  }

  lemma TakeKeepsInv(s: System, d: nat)
    requires SystemInv(s) && !Disorderly(s, Take(d))
    ensures SystemInv(Do(s, Take(d)))
  {
    var t := Do(s, Take(d));
    if d < |s.drains| && s.drains[d].Looking? {
      var claims := Claims(s.q.items, s.drains[d].at, s.drains[d].ids);
      assert forall i :: i in claims ==> Outstanding(s.q.items[i]);
      assert ItemsFollow(s.q.items, t.q.items);
      forall k | 0 <= k < |t.q.questions|
        ensures QuestionInv(t.q.items, t.q.questions[k])
      {
        QuestionKept(s.q.items, t.q.items, s.q.questions[k]);
      }
    }
  }

  lemma HandedOverKeepsInv(q: State, i: nat, attempts: nat, ok: bool)
    requires Inv(q) && i < |q.items| && Outstanding(q.items[i]) && attempts <= MAX_ATTEMPTS
    ensures Inv(HandedOver(q, i, attempts, ok))
  {
    var t := HandedOver(q, i, attempts, ok);
    assert ItemsFollow(q.items, t.items);
    forall k | 0 <= k < |t.questions|
      ensures QuestionInv(t.items, t.questions[k])
    {
      if ok {
        CountedKept(q.items, i, t.items[i], q.questions[k]);
      } else {
        QuestionKept(q.items, t.items, q.questions[k]);
      }
    }
  }

  lemma OrderlyActKeepsInv(s: System, a: Act)
    requires SystemInv(s) && !Disorderly(s, a)
    ensures SystemInv(Do(s, a))
  {
    match a
    case Beside(e) => StepKeepsInv(s.q, e);
    case Look(_) =>
    case Take(d) => TakeKeepsInv(s, d);
    case Post(d, i, ok) =>
      if MayPost(s, d, i) {
        HandedOverKeepsInv(s.q, i, s.drains[d].held[i] + 1, ok);
      }
  }

  lemma {:induction false} OrderlyRunKeepsInv(s: System, acts: seq<Act>)
    requires SystemInv(s) && InOrder(s, acts)
    ensures SystemInv(DoAll(s, acts))
    decreases |acts|
  {
    if acts != [] {
      OrderlyActKeepsInv(s, acts[0]);
      OrderlyRunKeepsInv(Do(s, acts[0]), acts[1..]);
    }
  }

  /** On such runs the bounds of the digests hold for any number of drains. */
  lemma DigestsAreBoundedInOrder(s: System, acts: seq<Act>)
    requires Start(s) && InOrder(s, acts)
    ensures var t := DoAll(s, acts).q;
            && (forall k :: 0 <= k < |t.questions| ==> t.questions[k].deliveries <= MAX_DELIVERIES)
            && (forall i :: 0 <= i < |t.items| ==> t.items[i].attempts <= MAX_ATTEMPTS)
            && (forall i, j :: 0 <= i < j < |t.items| ==>
                  && t.items[i].key != t.items[j].key
                  && (t.items[i].key.dm == t.items[j].key.dm ==>
                        !Outstanding(t.items[i]) || !Outstanding(t.items[j])))
  {
    OrderlyRunKeepsInv(s, acts);
    var t := DoAll(s, acts).q;
    forall k | 0 <= k < |t.questions|
      ensures t.questions[k].deliveries <= MAX_DELIVERIES
    {
      assert QuestionInv(t.items, t.questions[k]);
    }
  }

  /* ---- Drains that keep to their leases ---- */

  /** A claim finds the items as the look left them, and every delivery is within its lease. */
  predicate Prompt(s: System, a: Act) {
    match a
    case Take(d) =>
      d < |s.drains| && s.drains[d].Looking? ==>
        && s.drains[d].at == s.q.now
        && forall i :: i in s.drains[d].ids ==> i < |s.q.items| && Claimable(s.q.items[i], s.q.now)
    case Post(d, i, _) => MayPost(s, d, i) ==> s.q.now < s.drains[d].until
    case _ => true
  }

  predicate AllPrompt(s: System, acts: seq<Act>)
    decreases |acts|
  {
    acts == [] || (Prompt(s, acts[0]) && AllPrompt(Do(s, acts[0]), acts[1..]))
  }

  /** A drain within its lease still owns what it holds, and read what the row says. */
  predicate Leased(s: System, d: nat, i: nat)
    requires d < |s.drains| && s.drains[d].Holding? && i in s.drains[d].held
  {
    s.q.now < s.drains[d].until ==>
      && i < |s.q.items| && s.q.items[i].status.Sending?
      && s.q.items[i].owner == Some(d) && s.q.items[i].claimUntil == Some(s.drains[d].until)
      && s.q.items[i].attempts == s.drains[d].held[i]
  }

  predicate LeaseInv(s: System) {
    forall d, i :: 0 <= d < |s.drains| && s.drains[d].Holding? && i in s.drains[d].held ==> Leased(s, d, i)
  }

  /** The same act with the claim and the delivery as one step each. */
  function Atomic(s: System, a: Act): Event {
    match a
    case Beside(e) => if e.ClaimOutbox? || e.DeliverItem? then Wait(0) else e
    case Look(_) => Wait(0)
    case Take(d) =>
      if d < |s.drains| && s.drains[d].Looking? then ClaimOutbox(d, s.drains[d].ids) else Wait(0)
    case Post(d, i, ok) => if MayPost(s, d, i) then DeliverItem(i, d, ok) else Wait(0)
  }

  lemma PromptActIsAtomic(s: System, a: Act)
    requires LeaseInv(s) && Prompt(s, a)
    ensures Do(s, a).q == Step(s.q, Atomic(s, a)) && !Disorderly(s, a)
  {
    match a
    case Beside(_) =>
    case Look(_) =>
    case Take(d) =>
      if d < |s.drains| && s.drains[d].Looking? {
        assert Do(s, a).q.items == Step(s.q, Atomic(s, a)).items;
      }
    case Post(d, i, _) =>
      if MayPost(s, d, i) {
        assert Leased(s, d, i);
      }
  }

  lemma TakeKeepsLease(s: System, e: nat, d: nat, i: nat)
    requires LeaseInv(s) && Prompt(s, Take(e)) && e < |s.drains| && s.drains[e].Looking?
    requires var t := Do(s, Take(e)); d < |t.drains| && t.drains[d].Holding? && i in t.drains[d].held
    ensures Leased(Do(s, Take(e)), d, i)
  {
    if d != e {
      assert Leased(s, d, i);
    }
  }

  lemma PostKeepsLease(s: System, e: nat, j: nat, ok: bool, d: nat, i: nat)
    requires LeaseInv(s) && Prompt(s, Post(e, j, ok)) && MayPost(s, e, j)
    requires var t := Posted(s, e, j, ok); d < |t.drains| && t.drains[d].Holding? && i in t.drains[d].held
    ensures Leased(Posted(s, e, j, ok), d, i)
  {
    assert Leased(s, e, j);
    assert Leased(s, d, i);
  }

  lemma BesideKeepsLease(s: System, e: Event, d: nat, i: nat)
    requires LeaseInv(s) && d < |s.drains| && s.drains[d].Holding? && i in s.drains[d].held
    ensures Leased(Do(s, Beside(e)), d, i)
  {
    assert Leased(s, d, i);
  }

  lemma PromptActKeepsLeases(s: System, a: Act)
    requires LeaseInv(s) && Prompt(s, a)
    ensures LeaseInv(Do(s, a))
  {
    var t := Do(s, a);
    forall d, i | 0 <= d < |t.drains| && t.drains[d].Holding? && i in t.drains[d].held
      ensures Leased(t, d, i)
    {
      match a
      case Beside(e) => BesideKeepsLease(s, e, d, i);
      case Look(_) => assert Leased(s, d, i);
      case Take(e) =>
        if e < |s.drains| && s.drains[e].Looking? {
          TakeKeepsLease(s, e, d, i);
        } else {
          assert Leased(s, d, i);
        }
      case Post(e, j, ok) =>
        if MayPost(s, e, j) {
          PostKeepsLease(s, e, j, ok, d, i);
        } else {
          assert Leased(s, d, i);
        }
    }
  }

  function AtomicRun(s: System, acts: seq<Act>): seq<Event>
    decreases |acts|
  {
    if acts == [] then [] else [Atomic(s, acts[0])] + AtomicRun(Do(s, acts[0]), acts[1..])
  }

  lemma {:induction false} PromptRunIsAtomic(s: System, acts: seq<Act>)
    requires LeaseInv(s) && AllPrompt(s, acts)
    ensures DoAll(s, acts).q == Run(s.q, AtomicRun(s, acts)) && InOrder(s, acts)
    decreases |acts|
  {
    if acts != [] {
      PromptActIsAtomic(s, acts[0]);
      PromptActKeepsLeases(s, acts[0]);
      PromptRunIsAtomic(Do(s, acts[0]), acts[1..]);
      assert AtomicRun(s, acts)[1..] == AtomicRun(Do(s, acts[0]), acts[1..]);
    }
  }

  /* ---- Without that there is no bound ---- */

  /** Drains that all looked at an item before any of them claimed it. */
  predicate AllLooked(s: System, i: nat, from: nat) {
    && i < |s.q.items| && from <= |s.drains|
    && Unclaimed(s.q.items[i], 0) && s.q.items[i].key in s.q.digests
    && forall d :: from <= d < |s.drains| ==> s.drains[d].Looking? && i in s.drains[d].ids
  }

  /** A question that waits in the digest of an item. */
  predicate WaitsIn(s: System, i: nat, k: nat) {
    && i < |s.q.items| && k < |s.q.questions|
    && s.q.questions[k].status.Pending? && s.q.questions[k].digest == Some(s.q.items[i].key)
  }

  /** One of the drains claims the item and delivers it. */
  function Turn(s: System, d: nat, i: nat): System {
    Do(Do(s, Take(d)), Post(d, i, true))
  }

  lemma OneAfterTheOther(s: System, i: nat, k: nat, d: nat)
    requires AllLooked(s, i, d) && d < |s.drains| && WaitsIn(s, i, k)
    ensures var t := Turn(s, d, i);
            && AllLooked(t, i, d + 1) && |t.drains| == |s.drains| && WaitsIn(t, i, k)
            && t.q.questions[k].deliveries == s.q.questions[k].deliveries + 1
  {
    assert i in Claims(s.q.items, s.drains[d].at, s.drains[d].ids);
    assert MayPost(Do(s, Take(d)), d, i);
  }

  lemma TurnFirst(s: System, d: nat, i: nat, rest: seq<Act>)
    ensures DoAll(s, [Take(d), Post(d, i, true)] + rest) == DoAll(Turn(s, d, i), rest)
  {
    var acts := [Take(d), Post(d, i, true)] + rest;
    assert acts[1..] == [Post(d, i, true)] + rest;
    assert acts[1..][1..] == rest;
  }

  lemma {:induction false} EachCounts(s: System, i: nat, k: nat, d: nat) returns (acts: seq<Act>)
    requires AllLooked(s, i, d) && WaitsIn(s, i, k)
    ensures k < |DoAll(s, acts).q.questions|
    ensures DoAll(s, acts).q.questions[k].deliveries == s.q.questions[k].deliveries + |s.drains| - d
    decreases |s.drains| - d
  {
    if d == |s.drains| {
      acts := [];
    } else {
      OneAfterTheOther(s, i, k, d);
      var rest := EachCounts(Turn(s, d, i), i, k, d + 1);
      TurnFirst(s, d, i, rest);
      acts := [Take(d), Post(d, i, true)] + rest;
    }
  }

  lemma {:induction false} Looks(s: System, i: nat, k: nat, n: nat, from: nat) returns (acts: seq<Act>)
    requires i < |s.q.items| && s.q.items[i].status.Queued? && s.q.items[i].notBefore <= s.q.now
    requires AllLooked(s, i, from) && WaitsIn(s, i, k)
    ensures k < |DoAll(s, acts).q.questions|
    ensures DoAll(s, acts).q.questions[k].deliveries == s.q.questions[k].deliveries + |s.drains| - from + n
    decreases n
  {
    if n == 0 {
      acts := EachCounts(s, i, k, from);
    } else {
      var t := Do(s, Look({i}));
      var rest := Looks(t, i, k, n - 1, from);
      acts := [Look({i})] + rest;
      assert acts[1..] == rest;
    }
  }

  /** Then one digest counts any number of times for a question that waits in it. */
  lemma DigestCountsAnyNumberOfTimes(s: System, i: nat, k: nat, n: nat) returns (acts: seq<Act>)
    requires i < |s.q.items| && s.q.items[i].status.Queued? && s.q.items[i].notBefore <= s.q.now
    requires s.q.items[i].key in s.q.digests && WaitsIn(s, i, k)
    ensures k < |DoAll(s, acts).q.questions|
    ensures DoAll(s, acts).q.questions[k].deliveries == s.q.questions[k].deliveries + n
  {
    acts := Looks(s, i, k, n, |s.drains|);
  }

  /** Such a state is reached at once, for any DM and day. */
  lemma QuestionIsDeliveredAnyNumberOfTimes(s: System, dm: nat, date: nat, n: nat) returns (acts: seq<Act>)
    requires Start(s)
    ensures |DoAll(s, acts).q.questions| > 0 && DoAll(s, acts).q.questions[0].deliveries == n
  {
    var ask, build := Beside(Ask(dm)), Beside(BuildDigest(Key(dm, date), true, {}));
    var s1 := Do(s, ask);
    var s2 := Do(s1, build);
    assert SweptAll(s1.q.questions, dm, {}) == s1.q.questions;
    assert Selected(s1.q.questions, dm, DIGEST_LIMIT, 0) == [0];
    var rest := DigestCountsAnyNumberOfTimes(s2, 0, 0, n);
    acts := [ask, build] + rest;
    assert acts[1..] == [build] + rest;
    assert acts[1..][1..] == rest;
  }
}

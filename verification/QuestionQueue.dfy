/**
  The daily question digests and their outbox (app/services/question_queue.py, and the daily claim of
  app/scheduler/cron.py) for any number of recruiter DMs. Building a digest, claiming outbox items,
  delivering one item and claiming a day are transactions of their own and interleave freely.
*/
module QuestionQueue {
  import opened Values

  const MAX_DELIVERIES: nat := 2
  const DIGEST_LIMIT: nat := 50
  const MAX_ATTEMPTS: nat := 5
  const SUMMARY_CLAIM_TTL: nat := 900
  const OUTBOX_CLAIM_TTL: nat := 900

  /** A digest and its outbox item belong to one DM and one local date. */
  datatype Key = Key(dm: nat, date: nat)

  datatype QuestionStatus = Pending | Closed | Suppressed
  datatype Question = Question(dm: nat, status: QuestionStatus, deliveries: nat, digest: Option<Key>)

  datatype DigestStatus = Waiting | Delivered | Aborted
  datatype Digest = Digest(status: DigestStatus, claimedAt: nat)

  datatype ItemStatus = Queued | Sending | Sent | GivenUp
  datatype Item = Item(
    key: Key, status: ItemStatus, attempts: nat, owner: Option<nat>, claimUntil: Option<nat>, notBefore: nat)

  datatype State = State(now: nat, questions: seq<Question>, digests: map<Key, Digest>, items: seq<Item>)

  predicate Outstanding(item: Item) {
    item.status in {Queued, Sending}
  }

  predicate OtherSummaryOutstanding(items: seq<Item>, key: Key) {
    exists i :: 0 <= i < |items| && Outstanding(items[i]) && items[i].key.dm == key.dm && items[i].key != key
  }

  predicate HasItem(items: seq<Item>, key: Key) {
    exists i :: 0 <= i < |items| && items[i].key == key
  }

  /* ---- Building a digest ---- */

  /** The sweeps that precede the selection: settled recordings close their questions, and a question
      that was delivered often enough is suppressed. */
  function Swept(q: Question, dm: nat, settled: bool): Question {
    if q.dm != dm || !q.status.Pending? then q
    else if settled then q.(status := Closed)
    else if q.deliveries >= MAX_DELIVERIES then q.(status := Suppressed)
    else q
  }

  function SweptAll(questions: seq<Question>, dm: nat, settled: set<nat>): seq<Question> {
    seq(|questions|, i requires 0 <= i < |questions| => Swept(questions[i], dm, i in settled))
  }

  predicate Selectable(q: Question, dm: nat) {
    q.dm == dm && q.status.Pending? && q.deliveries < MAX_DELIVERIES
  }

  /** The first selectable questions, oldest first. */
  function Selected(questions: seq<Question>, dm: nat, limit: nat, from: nat): (r: seq<nat>)
    requires from <= |questions|
    ensures |r| <= limit
    ensures forall i :: 0 <= i < |r| ==> from <= r[i] < |questions| && Selectable(questions[r[i]], dm)
    decreases |questions| - from
  {
    if limit == 0 || from == |questions| then []
    else if Selectable(questions[from], dm) then [from] + Selected(questions, dm, limit - 1, from + 1)
    else Selected(questions, dm, limit, from + 1)
  }

  function Assigned(questions: seq<Question>, selected: seq<nat>, key: Key): (r: seq<Question>)
    ensures |r| == |questions|
    ensures forall i :: 0 <= i < |r| ==>
              r[i] == if i in selected then questions[i].(digest := Some(key)) else questions[i]
  {
    seq(|questions|, i requires 0 <= i < |questions| =>
      if i in selected then questions[i].(digest := Some(key)) else questions[i])
  }

  predicate BuildsNothing(s: State, key: Key) {
    || OtherSummaryOutstanding(s.items, key)
    || (key in s.digests && (!s.digests[key].status.Waiting? || HasItem(s.items, key)))
  }

  function FreshItem(key: Key): Item {
    Item(key, Queued, 0, None, None, 0)
  }

  function Build(s: State, key: Key, send: bool, settled: set<nat>): State {
    if BuildsNothing(s, key) then s
    else
      var swept := SweptAll(s.questions, key.dm, settled);
      var selected := Selected(swept, key.dm, DIGEST_LIMIT, 0);
      if !send || selected == [] then
        s.(questions := swept,
           digests := if key in s.digests then s.digests[key := s.digests[key].(status := Delivered)] else s.digests)
      else
        s.(questions := Assigned(swept, selected, key),
           digests := if key in s.digests then s.digests else s.digests[key := Digest(Waiting, s.now)],
           items := if HasItem(s.items, key) then s.items else s.items + [FreshItem(key)])
  }

  /* ---- The outbox ---- */

  predicate Unclaimed(item: Item, now: nat) {
    item.status.Queued? || item.claimUntil.None? || item.claimUntil.value <= now
  }

  predicate Claimable(item: Item, now: nat) {
    Outstanding(item) && Unclaimed(item, now) && item.notBefore <= now
  }

  function Claimed(item: Item, worker: nat, now: nat): Item {
    item.(status := Sending, owner := Some(worker), claimUntil := Some(now + OUTBOX_CLAIM_TTL))
  }

  /** One drain claims some of the claimable items, in one step. */
  function Claim(s: State, worker: nat, wanted: set<nat>): State {
    s.(items := seq(|s.items|, i requires 0 <= i < |s.items| =>
         if i in wanted && Claimable(s.items[i], s.now) then Claimed(s.items[i], worker, s.now) else s.items[i]))
  }

  /** Seconds until the next attempt: two to the power of the attempts, at most ten of them, which stays
      below the cap of an hour. */
  function Backoff(attempts: nat): nat {
    if attempts >= 10 then 1024 else Power2(attempts)
  }

  function Power2(n: nat): nat {
    if n == 0 then 1 else 2 * Power2(n - 1)
  }

  /** A delivered digest counts for the questions that still wait in it. */
  function Counted(questions: seq<Question>, key: Key): seq<Question> {
    seq(|questions|, i requires 0 <= i < |questions| =>
      if questions[i].digest == Some(key) && questions[i].status.Pending?
      then questions[i].(deliveries := questions[i].deliveries + 1) else questions[i])
  }

  predicate MayDeliver(s: State, i: nat, worker: nat) {
    i < |s.items| && s.items[i].status.Sending? && s.items[i].owner == Some(worker)
  }

  /** Another try later, or none after the fifth. */
  function Postponed(item: Item, attempts: nat, now: nat): Item {
    item.(attempts := attempts, status := if attempts >= MAX_ATTEMPTS then GivenUp else Queued,
          owner := None, claimUntil := None, notBefore := now + Backoff(attempts))
  }

  /** A try, the given number of its item, and how it went. */
  function HandedOver(s: State, i: nat, attempts: nat, ok: bool): State
    requires i < |s.items|
  {
    var item := s.items[i];
    if !ok then s.(items := s.items[i := Postponed(item, attempts, s.now)])
    else
      var sent := item.(attempts := attempts, status := Sent, owner := None, claimUntil := None);
      if item.key !in s.digests then s.(items := s.items[i := sent])
      else
        s.(items := s.items[i := sent],
           questions := Counted(s.questions, item.key),
           digests := s.digests[item.key := s.digests[item.key].(status := Delivered)])
  }

  function Deliver(s: State, i: nat, worker: nat, ok: bool): State {
    if !MayDeliver(s, i, worker) then s else HandedOver(s, i, s.items[i].attempts + 1, ok)
  }

  /* ---- The daily claim ---- */

  predicate DayIsFree(s: State, key: Key) {
    key in s.digests ==>
      && !s.digests[key].status.Delivered?
      && (s.digests[key].status.Waiting? ==> s.digests[key].claimedAt + SUMMARY_CLAIM_TTL <= s.now)
  }

  function ClaimDay(s: State, key: Key): State {
    if DayIsFree(s, key) then s.(digests := s.digests[key := Digest(Waiting, s.now)]) else s
  }

  function FailDay(s: State, key: Key): State {
    if key in s.digests then s.(digests := s.digests[key := s.digests[key].(status := Aborted)]) else s
  }

  datatype Event =
    | Ask(dm: nat)
    | Close(question: nat)
    | ClaimDigest(key: Key)
    | FailDigest(key: Key)
    | BuildDigest(key: Key, send: bool, settled: set<nat>)
    | ClaimOutbox(worker: nat, wanted: set<nat>)
    | DeliverItem(i: nat, worker: nat, ok: bool)
    | Wait(seconds: nat)

  function Step(s: State, e: Event): State {
    match e
    case Ask(dm) => s.(questions := s.questions + [Question(dm, Pending, 0, None)])
    case Close(i) =>
      if i < |s.questions| then s.(questions := s.questions[i := s.questions[i].(status := Closed)]) else s
    case ClaimDigest(key) => ClaimDay(s, key)
    case FailDigest(key) => FailDay(s, key)
    case BuildDigest(key, send, settled) => Build(s, key, send, settled)
    case ClaimOutbox(worker, wanted) => Claim(s, worker, wanted)
    case DeliverItem(i, worker, ok) => Deliver(s, i, worker, ok)
    case Wait(seconds) => s.(now := s.now + seconds)
  }

  function Run(s: State, events: seq<Event>): State
    decreases |events|
  {
    if events == [] then s else Run(Step(s, events[0]), events[1..])
  }

  predicate Initial(s: State) {
    s.questions == [] && s.digests == map[] && s.items == []
  }

  /* ---- What every step keeps ---- */

  predicate ItemsInv(s: State) {
    && (forall i, j :: 0 <= i < j < |s.items| ==> s.items[i].key != s.items[j].key)
    && (forall i, j :: 0 <= i < j < |s.items| && Outstanding(s.items[i]) && Outstanding(s.items[j]) ==>
          s.items[i].key.dm != s.items[j].key.dm)
    && (forall i :: 0 <= i < |s.items| ==> s.items[i].key in s.digests)
    && (forall i :: 0 <= i < |s.items| ==>
          s.items[i].attempts <= MAX_ATTEMPTS && (Outstanding(s.items[i]) ==> s.items[i].attempts < MAX_ATTEMPTS))
  }

  /** A question in an outstanding digest still has a delivery to spare. */
  predicate QuestionInv(items: seq<Item>, q: Question) {
    && q.deliveries <= MAX_DELIVERIES
    && (q.digest.Some? ==> q.digest.value.dm == q.dm && HasItem(items, q.digest.value))
    && (forall i :: 0 <= i < |items| && q.digest == Some(items[i].key) && Outstanding(items[i]) && q.status.Pending? ==>
          q.deliveries < MAX_DELIVERIES)
  }

  predicate Inv(s: State) {
    ItemsInv(s) && forall k :: 0 <= k < |s.questions| ==> QuestionInv(s.items, s.questions[k])
  }

  /** Items keep their keys, and none of them becomes outstanding again. */
  predicate ItemsFollow(items: seq<Item>, later: seq<Item>) {
    && |items| <= |later|
    && forall i :: 0 <= i < |items| ==>
         later[i].key == items[i].key && (Outstanding(later[i]) ==> Outstanding(items[i]))
  }

  lemma HasItemStays(items: seq<Item>, later: seq<Item>, key: Key)
    requires ItemsFollow(items, later) && HasItem(items, key)
    ensures HasItem(later, key)
  {
    var i :| 0 <= i < |items| && items[i].key == key;
    assert later[i].key == key;
  }

  /** A question that stays as it is does not mind what happens to the items. */
  lemma QuestionKept(items: seq<Item>, later: seq<Item>, q: Question)
    requires QuestionInv(items, q) && ItemsFollow(items, later) && |later| == |items|
    ensures QuestionInv(later, q)
  {
    if q.digest.Some? {
      HasItemStays(items, later, q.digest.value);
    }
  }

  lemma SweptKept(items: seq<Item>, q: Question, dm: nat, settled: bool)
    requires QuestionInv(items, q)
    ensures QuestionInv(items, Swept(q, dm, settled))
  {
  }

  /** The new item takes over the questions that are assigned to it and leaves the others alone. */
  lemma AssignedKept(items: seq<Item>, key: Key, q: Question, chosen: bool)
    requires QuestionInv(items, q) && !HasItem(items, key)
    requires chosen ==> Selectable(q, key.dm)
    ensures QuestionInv(items + [FreshItem(key)], if chosen then q.(digest := Some(key)) else q)
  {
    var later := items + [FreshItem(key)];
    assert ItemsFollow(items, later);
    assert later[|items|].key == key;
    if !chosen && q.digest.Some? {
      HasItemStays(items, later, q.digest.value);
    }
    forall i | 0 <= i < |later| && chosen && later[i].key == key && Outstanding(later[i])
      ensures q.deliveries < MAX_DELIVERIES
    {
    }
    forall i | 0 <= i < |later| && !chosen && q.digest == Some(later[i].key) && Outstanding(later[i])
               && q.status.Pending?
      ensures q.deliveries < MAX_DELIVERIES
    {
      assert i < |items|;
    }
  }

  lemma NoItemNoDigest(s: State, key: Key)
    requires Inv(s) && key !in s.digests
    ensures !HasItem(s.items, key)
  {
  }

  /** The guard of the builder leaves the DM without any outstanding summary. */
  lemma BuilderFindsDmFree(s: State, key: Key)
    requires Inv(s) && !BuildsNothing(s, key)
    ensures !HasItem(s.items, key)
    ensures forall i :: 0 <= i < |s.items| && Outstanding(s.items[i]) ==> s.items[i].key.dm != key.dm
  {
    if key !in s.digests {
      NoItemNoDigest(s, key);
    }
    forall i | 0 <= i < |s.items| && Outstanding(s.items[i])
      ensures s.items[i].key.dm != key.dm
    {
      assert s.items[i].key != key;
    }
  }

  lemma BuildKeepsItemsInv(s: State, key: Key, send: bool, settled: set<nat>)
    requires Inv(s) && !BuildsNothing(s, key)
    ensures ItemsInv(Build(s, key, send, settled))
  {
    BuilderFindsDmFree(s, key);
  }

  lemma BuildKeepsInv(s: State, key: Key, send: bool, settled: set<nat>)
    requires Inv(s)
    ensures Inv(Build(s, key, send, settled))
  {
    if !BuildsNothing(s, key) {
      var t := Build(s, key, send, settled);
      BuildKeepsItemsInv(s, key, send, settled);
      BuilderFindsDmFree(s, key);
      var swept := SweptAll(s.questions, key.dm, settled);
      var selected := Selected(swept, key.dm, DIGEST_LIMIT, 0);
      forall k | 0 <= k < |t.questions|
        ensures QuestionInv(t.items, t.questions[k])
      {
        SweptKept(s.items, s.questions[k], key.dm, k in settled);
        if send && selected != [] {
          AssignedKept(s.items, key, swept[k], k in selected);
        }
      }
    }
  }

  lemma ClaimKeepsInv(s: State, worker: nat, wanted: set<nat>)
    requires Inv(s)
    ensures Inv(Claim(s, worker, wanted))
  {
    var t := Claim(s, worker, wanted);
    assert ItemsFollow(s.items, t.items);
    forall k | 0 <= k < |t.questions|
      ensures QuestionInv(t.items, t.questions[k])
    {
      QuestionKept(s.items, t.items, s.questions[k]);
    }
  }

  /** A delivery uses up the spare one, and its item is no longer outstanding. */
  lemma CountedKept(items: seq<Item>, i: nat, sent: Item, q: Question)
    requires i < |items| && Outstanding(items[i]) && sent.key == items[i].key && !Outstanding(sent)
    requires forall k, l :: 0 <= k < l < |items| ==> items[k].key != items[l].key
    requires QuestionInv(items, q)
    ensures QuestionInv(items[i := sent], if q.digest == Some(sent.key) && q.status.Pending?
                                          then q.(deliveries := q.deliveries + 1) else q)
  {
    assert ItemsFollow(items, items[i := sent]);
    QuestionKept(items, items[i := sent], q);
  }

  lemma DeliverKeepsInv(s: State, i: nat, worker: nat, ok: bool)
    requires Inv(s)
    ensures Inv(Deliver(s, i, worker, ok))
  {
    if MayDeliver(s, i, worker) {
      var t := Deliver(s, i, worker, ok);
      assert ItemsFollow(s.items, t.items);
      forall k | 0 <= k < |t.questions|
        ensures QuestionInv(t.items, t.questions[k])
      {
        if ok {
          CountedKept(s.items, i, t.items[i], s.questions[k]);
        } else {
          QuestionKept(s.items, t.items, s.questions[k]);
        }
      }
    }
  }

  lemma StepKeepsInv(s: State, e: Event)
    requires Inv(s)
    ensures Inv(Step(s, e))
  {
    match e
    case BuildDigest(key, send, settled) => BuildKeepsInv(s, key, send, settled);
    case ClaimOutbox(worker, wanted) => ClaimKeepsInv(s, worker, wanted);
    case DeliverItem(i, worker, ok) => DeliverKeepsInv(s, i, worker, ok);
    case _ =>
  }

  lemma {:induction false} RunKeepsInv(s: State, events: seq<Event>)
    requires Inv(s)
    ensures Inv(Run(s, events))
    decreases |events|
  {
    if events != [] {
      StepKeepsInv(s, events[0]);
      RunKeepsInv(Step(s, events[0]), events[1..]);
    }
  }

  /* ---- Guarantees over all runs ---- */

  /** No question is ever delivered more than twice; each day of a DM gets at most one summary item,
      tried at most five times; and of all summaries of a DM at most one is pending or being sent. */
  lemma DigestsAreBounded(s: State, events: seq<Event>)
    requires Initial(s)
    ensures var t := Run(s, events);
            && (forall k :: 0 <= k < |t.questions| ==> t.questions[k].deliveries <= MAX_DELIVERIES)
            && (forall i :: 0 <= i < |t.items| ==> t.items[i].attempts <= MAX_ATTEMPTS)
            && (forall i, j :: 0 <= i < j < |t.items| ==>
                  && t.items[i].key != t.items[j].key
                  && (t.items[i].key.dm == t.items[j].key.dm ==>
                        !Outstanding(t.items[i]) || !Outstanding(t.items[j])))
  {
    RunKeepsInv(s, events);
    var t := Run(s, events);
    forall k | 0 <= k < |t.questions|
      ensures t.questions[k].deliveries <= MAX_DELIVERIES
    {
      assert QuestionInv(t.items, t.questions[k]);
    }
  }

  /** An item that was sent, or given up after five failures, is never touched again. */
  lemma {:induction false} SettledItemStays(s: State, events: seq<Event>, i: nat)
    requires i < |s.items| && !Outstanding(s.items[i])
    ensures i < |Run(s, events).items| && Run(s, events).items[i] == s.items[i]
    decreases |events|
  {
    if events != [] {
      SettledItemStays(Step(s, events[0]), events[1..], i);
    }
  }

  predicate SameCounts(questions: seq<Question>, later: seq<Question>) {
    && |questions| <= |later|
    && forall k :: 0 <= k < |questions| ==> later[k].deliveries == questions[k].deliveries
  }

  lemma SweepCountsNothing(questions: seq<Question>, dm: nat, settled: set<nat>)
    ensures SameCounts(questions, SweptAll(questions, dm, settled))
  {
  }

  lemma AssigningCountsNothing(questions: seq<Question>, selected: seq<nat>, key: Key)
    ensures SameCounts(questions, Assigned(questions, selected, key))
  {
  }

  lemma BuildingCountsNothing(s: State, key: Key, send: bool, settled: set<nat>)
    ensures SameCounts(s.questions, Build(s, key, send, settled).questions)
  {
    var swept := SweptAll(s.questions, key.dm, settled);
    SweepCountsNothing(s.questions, key.dm, settled);
    AssigningCountsNothing(swept, Selected(swept, key.dm, DIGEST_LIMIT, 0), key);
  }

  lemma OnlyDeliveriesCount(s: State, e: Event)
    requires !e.DeliverItem?
    ensures SameCounts(s.questions, Step(s, e).questions)
  {
    match e
    case Ask(_) =>
    case Close(_) =>
    case ClaimDigest(_) =>
    case FailDigest(_) =>
    case BuildDigest(key, send, settled) => BuildingCountsNothing(s, key, send, settled);
    case ClaimOutbox(_, _) =>
    case Wait(_) =>
  }

  /** The counter of a question moves by one, and only when the digest it waits in is delivered. */
  lemma CountRisesOnlyByDelivery(s: State, e: Event, k: nat)
    requires Inv(s) && k < |s.questions|
    ensures k < |Step(s, e).questions|
    ensures var q, later := s.questions[k], Step(s, e).questions[k];
            if e.DeliverItem? && e.ok && MayDeliver(s, e.i, e.worker)
               && q.status.Pending? && q.digest == Some(s.items[e.i].key)
            then later.deliveries == q.deliveries + 1
            else later.deliveries == q.deliveries
  {
    if !e.DeliverItem? {
      OnlyDeliveriesCount(s, e);
    } else if e.i < |s.items| {
      assert s.items[e.i].key in s.digests;
    }
  }

  lemma {:induction false} SelectionIsComplete(questions: seq<Question>, dm: nat, limit: nat, from: nat)
    requires from <= |questions|
    ensures var chosen := Selected(questions, dm, limit, from);
            |chosen| < limit ==> forall i :: from <= i < |questions| && Selectable(questions[i], dm) ==> i in chosen
    decreases |questions| - from
  {
    if limit > 0 && from < |questions| {
      var rest := Selected(questions, dm, if Selectable(questions[from], dm) then limit - 1 else limit, from + 1);
      SelectionIsComplete(questions, dm, if Selectable(questions[from], dm) then limit - 1 else limit, from + 1);
      forall i | from <= i < |questions| && Selectable(questions[i], dm)
                 && |Selected(questions, dm, limit, from)| < limit
        ensures i in Selected(questions, dm, limit, from)
      {
        if i != from {
          assert i in rest;
        }
      }
    }
  }

  /** A digest that is built retires what was delivered twice, and takes in everything that still may be
      delivered unless it is full. */
  lemma BuiltDigestCoversTheDm(s: State, key: Key, settled: set<nat>, k: nat)
    requires Inv(s) && !BuildsNothing(s, key)
    requires k < |s.questions| && s.questions[k].dm == key.dm && s.questions[k].status.Pending? && k !in settled
    ensures var t := Build(s, key, true, settled);
            && (s.questions[k].deliveries == MAX_DELIVERIES ==> t.questions[k].status.Suppressed?)
            && (s.questions[k].deliveries < MAX_DELIVERIES ==>
                  || t.questions[k] == s.questions[k].(digest := Some(key))
                  || |Selected(SweptAll(s.questions, key.dm, settled), key.dm, DIGEST_LIMIT, 0)| == DIGEST_LIMIT)
  {
    var swept := SweptAll(s.questions, key.dm, settled);
    SelectionIsComplete(swept, key.dm, DIGEST_LIMIT, 0);
    assert QuestionInv(s.items, s.questions[k]);
    assert swept[k] == Swept(s.questions[k], key.dm, false);
  }

  /** Nobody marks the day as failed. */
  predicate NotFailed(events: seq<Event>, key: Key) {
    forall i :: 0 <= i < |events| ==> events[i] != FailDigest(key)
  }

  lemma {:induction false} ClaimLasts(s: State, events: seq<Event>, key: Key, since: nat)
    requires key in s.digests && !s.digests[key].status.Aborted? && s.digests[key].claimedAt == since
    requires NotFailed(events, key) && Run(s, events).now < since + SUMMARY_CLAIM_TTL
    ensures s.now <= Run(s, events).now
    ensures !DayIsFree(Run(s, events), key)
    decreases |events|
  {
    if events != [] {
      TimeOnlyPasses(Step(s, events[0]), events[1..]);
      ClaimLasts(Step(s, events[0]), events[1..], key, since);
    }
  }

  lemma {:induction false} TimeOnlyPasses(s: State, events: seq<Event>)
    ensures s.now <= Run(s, events).now
    decreases |events|
  {
    if events != [] {
      TimeOnlyPasses(Step(s, events[0]), events[1..]);
    }
  }

  /** A claimed day is not claimed again within its fifteen minutes, unless it is marked as failed. */
  lemma DayIsClaimedOncePerTtl(s: State, key: Key, events: seq<Event>)
    requires DayIsFree(s, key)
    requires NotFailed(events, key) && Run(ClaimDay(s, key), events).now < s.now + SUMMARY_CLAIM_TTL
    ensures !DayIsFree(Run(ClaimDay(s, key), events), key)
  {
    ClaimLasts(ClaimDay(s, key), events, key, s.now);
  }

  /* ---- What becomes of an item ---- */

  /** A claim takes exactly the wanted items that are due and that nobody holds: new ones, and those whose claim
      has run out. They are the claimer's for fifteen minutes. */
  lemma ClaimTakesExactly(s: State, worker: nat, wanted: set<nat>, i: nat)
    requires i < |s.items|
    ensures var t, item := Step(s, ClaimOutbox(worker, wanted)), s.items[i];
            && |t.items| == |s.items| && t.questions == s.questions && t.digests == s.digests
            && if && i in wanted && item.notBefore <= s.now
                  && (item.status == Queued
                      || (item.status == Sending
                          && (item.claimUntil.None? || item.claimUntil.value <= s.now)))
               then
                 t.items[i].status == Sending && t.items[i].owner == Some(worker)
                 && t.items[i].claimUntil == Some(s.now + 900) && t.items[i].attempts == item.attempts
                 && t.items[i].key == item.key
               else t.items[i] == item
  {
  }

  /** The seconds until another try, after that many. */
  function Pause(attempts: nat): nat {
    match attempts
    case 1 => 2
    case 2 => 4
    case 3 => 8
    case 4 => 16
    case _ => 32
  }

  /** A delivery that fails leaves questions and digests alone. Up to the fourth failure the item can be claimed
      again, by anybody, exactly when its pause is over; the fifth one is the last. */
  lemma FailedDeliveryIsRepeatedExactly(s: State, i: nat, worker: nat, seconds: nat, other: nat)
    requires i < |s.items| && s.items[i].status == Sending && s.items[i].owner == Some(worker)
    requires s.items[i].attempts < 5
    ensures var attempts := s.items[i].attempts + 1;
            var failed := Step(s, DeliverItem(i, worker, false));
            var t := Step(Step(failed, Wait(seconds)), ClaimOutbox(other, {i}));
            && failed.questions == s.questions && failed.digests == s.digests
            && failed.items[i]
               == s.items[i].(attempts := attempts, status := if attempts == 5 then GivenUp else Queued,
                              owner := None, claimUntil := None, notBefore := s.now + Pause(attempts))
            && (MayDeliver(t, i, other) <==> attempts < 5 && seconds >= Pause(attempts))
            && forall k :: 0 <= k < |s.items| && k != i ==> failed.items[k] == s.items[k]
  {
    var attempts := s.items[i].attempts + 1;
    assert Power2(1) == 2 && Power2(2) == 4;
    assert Power2(3) == 2 * Power2(2) && Power2(4) == 2 * Power2(3) && Power2(5) == 2 * Power2(4);
  }

  /** A delivery that succeeds sends the item for good, closes its digest, and counts exactly for the questions
      that wait in it. */
  lemma DeliveryCountsExactly(s: State, i: nat, worker: nat, k: nat)
    requires Inv(s) && i < |s.items| && s.items[i].status == Sending && s.items[i].owner == Some(worker)
    requires k < |s.questions|
    ensures var t, key := Step(s, DeliverItem(i, worker, true)), s.items[i].key;
            && t.items[i] == s.items[i].(status := Sent, attempts := s.items[i].attempts + 1,
                                         owner := None, claimUntil := None)
            && key in t.digests && t.digests[key].status == Delivered
            && |t.questions| == |s.questions|
            && t.questions[k]
               == (if s.questions[k].digest == Some(key) && s.questions[k].status == Pending
                   then s.questions[k].(deliveries := s.questions[k].deliveries + 1) else s.questions[k])
            && (forall d :: d in s.digests && d != key ==> d in t.digests && t.digests[d] == s.digests[d])
            && forall j :: 0 <= j < |s.items| && j != i ==> t.items[j] == s.items[j]
  {
    assert s.items[i].key in s.digests;
  }

  /** Nobody else's item is delivered. */
  lemma OnlyTheClaimerDelivers(s: State, i: nat, worker: nat, ok: bool)
    requires i >= |s.items| || s.items[i].status != Sending || s.items[i].owner != Some(worker)
    ensures Step(s, DeliverItem(i, worker, ok)) == s
  {
  }

  /* ---- When a summary goes out ---- */

  lemma {:induction false} SomethingSelected(questions: seq<Question>, dm: nat, limit: nat, from: nat)
    requires from <= |questions| && limit > 0
    ensures Selected(questions, dm, limit, from) != []
            <==> exists i :: from <= i < |questions| && Selectable(questions[i], dm)
    decreases |questions| - from
  {
    if from < |questions| && !Selectable(questions[from], dm) {
      SomethingSelected(questions, dm, limit, from + 1);
    }
  }

  /** Another summary of the DM is pending or being sent. */
  predicate DmIsBusy(s: State, key: Key) {
    exists i :: 0 <= i < |s.items| && s.items[i].key.dm == key.dm && s.items[i].key != key
                && s.items[i].status in {Queued, Sending}
  }

  /** The day is closed, or its summary was prepared before. */
  predicate DayIsOver(s: State, key: Key) {
    key in s.digests && (s.digests[key].status != Waiting || exists i :: 0 <= i < |s.items| && s.items[i].key == key)
  }

  /** A question of the DM is pending, not settled, and was delivered less than twice. */
  predicate SomethingToAsk(s: State, key: Key, settled: set<nat>) {
    exists k :: 0 <= k < |s.questions| && k !in settled && s.questions[k].dm == key.dm
                && s.questions[k].status == Pending && s.questions[k].deliveries < 2
  }

  lemma BuildsNothingExactly(s: State, key: Key)
    ensures BuildsNothing(s, key) <==> DmIsBusy(s, key) || DayIsOver(s, key)
  {
    if OtherSummaryOutstanding(s.items, key) {
      var i :| 0 <= i < |s.items| && Outstanding(s.items[i]) && s.items[i].key.dm == key.dm && s.items[i].key != key;
      assert s.items[i].status in {Queued, Sending};
    }
  }

  lemma SelectsSomethingExactly(s: State, key: Key, settled: set<nat>)
    ensures Selected(SweptAll(s.questions, key.dm, settled), key.dm, DIGEST_LIMIT, 0) != []
            <==> SomethingToAsk(s, key, settled)
  {
    var swept := SweptAll(s.questions, key.dm, settled);
    SomethingSelected(swept, key.dm, DIGEST_LIMIT, 0);
    forall k | 0 <= k < |s.questions|
      ensures Selectable(swept[k], key.dm) <==>
              k !in settled && s.questions[k].dm == key.dm && s.questions[k].status == Pending
              && s.questions[k].deliveries < 2
    {
      assert swept[k] == Swept(s.questions[k], key.dm, k in settled);
    }
  }

  /** A new item of this key, untried and due at once, in a day that waits for it. */
  predicate QueuesSummary(s: State, t: State, key: Key) {
    && |t.items| == |s.items| + 1 && t.items[..|s.items|] == s.items
    && var item := t.items[|s.items|];
    && item.key == key && item.status == Queued && item.attempts == 0 && Claimable(item, s.now)
    && key in t.digests && t.digests[key].status == Waiting
  }

  lemma SummaryIsQueued(s: State, key: Key, settled: set<nat>)
    requires !BuildsNothing(s, key) && !HasItem(s.items, key)
    requires Selected(SweptAll(s.questions, key.dm, settled), key.dm, DIGEST_LIMIT, 0) != []
    ensures QueuesSummary(s, Build(s, key, true, settled), key)
  {
    assert Build(s, key, true, settled).items == s.items + [FreshItem(key)];
  }

  /** A summary of the day goes into the outbox exactly when sending is wanted, the DM has no other one
      outstanding, the day is not over, and there is something to ask. It is due at once. */
  lemma SummaryGoesOutExactly(s: State, key: Key, send: bool, settled: set<nat>)
    requires Inv(s)
    ensures var t := Step(s, BuildDigest(key, send, settled));
            if send && !DmIsBusy(s, key) && !DayIsOver(s, key) && SomethingToAsk(s, key, settled) then
              QueuesSummary(s, t, key)
            else t.items == s.items
  {
    BuildsNothingExactly(s, key);
    SelectsSomethingExactly(s, key, settled);
    if !BuildsNothing(s, key) {
      BuilderFindsDmFree(s, key);
      if send && SomethingToAsk(s, key, settled) {
        SummaryIsQueued(s, key, settled);
      }
    }
  }

  /** The builder closes exactly the questions of the DM that are settled, and suppresses exactly the others of it
      that were delivered twice; with nothing to send, it closes the day. */
  lemma BuilderSettlesExactly(s: State, key: Key, send: bool, settled: set<nat>, k: nat)
    requires Inv(s) && !BuildsNothing(s, key) && k < |s.questions|
    ensures var t, q := Step(s, BuildDigest(key, send, settled)), s.questions[k];
            && |t.questions| == |s.questions|
            && t.questions[k].status
               == (if q.status != Pending || q.dm != key.dm then q.status
                   else if k in settled then Closed
                   else if q.deliveries >= 2 then Suppressed else Pending)
            && t.questions[k].deliveries == q.deliveries && t.questions[k].dm == q.dm
            && (t.questions[k].digest != q.digest ==> t.questions[k].digest == Some(key) && t.items != s.items)
            && (t.items == s.items && key in s.digests ==> key in t.digests && t.digests[key].status == Delivered)
            && forall d :: d in s.digests && d != key ==> d in t.digests && t.digests[d] == s.digests[d]
  {
    var swept := SweptAll(s.questions, key.dm, settled);
    assert swept[k] == Swept(s.questions[k], key.dm, k in settled);
    BuilderFindsDmFree(s, key);
  }

  /** A day is free exactly when it has no digest, or one that was neither delivered nor claimed within the last
      fifteen minutes; a failure frees it at once. */
  lemma DayIsClaimedExactly(s: State, key: Key, later: Key)
    ensures var t := Step(s, ClaimDigest(key));
            if key in s.digests
               && (s.digests[key].status == Delivered
                   || (s.digests[key].status == Waiting && s.now < s.digests[key].claimedAt + 900))
            then t == s
            else key in t.digests && t.digests[key] == Digest(Waiting, s.now)
                 && t.items == s.items && t.questions == s.questions
    ensures key in s.digests ==>
              var t := Step(Step(s, FailDigest(key)), ClaimDigest(key));
              key in t.digests && t.digests[key] == Digest(Waiting, s.now)
  {
  }

  lemma {:induction false} RunConcat(s: State, a: seq<Event>, b: seq<Event>)
    ensures Run(s, a + b) == Run(Run(s, a), b)
    decreases |a|
  {
    if a == [] {
      assert a + b == b;
    } else {
      assert (a + b)[1..] == a[1..] + b;
      RunConcat(Step(s, a[0]), a[1..], b);
    }
  }

  /* ---- The service ---- */

  /** The items a drain holds after its claim, oldest first. */
  function HeldBy(items: seq<Item>, worker: nat, from: nat): (r: seq<nat>)
    requires from <= |items|
    ensures forall i :: 0 <= i < |r| ==> from <= r[i] < |items|
    decreases |items| - from
  {
    if from == |items| then []
    else
      var rest := HeldBy(items, worker, from + 1);
      if items[from].status.Sending? && items[from].owner == Some(worker) then [from] + rest else rest
  }

  function Deliveries(held: seq<nat>, worker: nat, answers: nat -> bool): seq<Event> {
    seq(|held|, n requires 0 <= n < |held| => DeliverItem(held[n], worker, answers(held[n])))
  }

  class QuestionQueueService {
    var now: nat
    var questions: seq<Question>
    var digests: map<Key, Digest>
    var items: seq<Item>

    ghost function View(): State
      reads this
    {
      State(now, questions, digests, items)
    }

    constructor ()
      ensures Initial(View())
    {
      now, questions, digests, items := 0, [], map[], [];
    }

    method BuildSummary(key: Key, send: bool, settled: set<nat>)
      modifies this`questions, this`digests, this`items
      ensures View() == Build(old(View()), key, send, settled)
    {
      if OtherSummaryOutstanding(items, key) {
        return;
      }
      var existing := if key in digests then Some(digests[key]) else None;
      if existing.Some? && !existing.value.status.Waiting? {
        return;
      }
      if existing.Some? && HasItem(items, key) {
        return;
      }
      questions := SweptAll(questions, key.dm, settled);
      var selected := Selected(questions, key.dm, DIGEST_LIMIT, 0);
      if !send || selected == [] {
        if existing.Some? {
          digests := digests[key := existing.value.(status := Delivered)];
        }
        return;
      }
      if existing.None? {
        digests := digests[key := Digest(Waiting, now)];
      }
      AssignAll(selected, key);
      if !HasItem(items, key) {
        items := items + [FreshItem(key)];
      }
    }

    method AssignAll(selected: seq<nat>, key: Key)
      requires forall i :: 0 <= i < |selected| ==> selected[i] < |questions|
      modifies this`questions
      ensures questions == Assigned(old(questions), selected, key)
    {
      var n := 0;
      while n < |selected|
        invariant 0 <= n <= |selected| && |questions| == |old(questions)|
        invariant questions == Assigned(old(questions), selected[..n], key)
      {
        questions := questions[selected[n] := questions[selected[n]].(digest := Some(key))];
        n := n + 1;
      }
      assert selected[..n] == selected;
    }

    method ClaimItems(worker: nat, wanted: set<nat>)
      modifies this`items
      ensures View() == Claim(old(View()), worker, wanted)
    {
      items := seq(|items|, i requires 0 <= i < |items| reads this =>
        if i in wanted && Claimable(items[i], now) then Claimed(items[i], worker, now) else items[i]);
    }

    method DeliverClaimed(i: nat, worker: nat, ok: bool) returns (owned: bool)
      modifies this`questions, this`digests, this`items
      ensures owned == MayDeliver(old(View()), i, worker)
      ensures View() == Deliver(old(View()), i, worker, ok)
    {
      if i >= |items| || !items[i].status.Sending? || items[i].owner != Some(worker) {
        return false;
      }
      owned := true;
      var item := items[i].(attempts := items[i].attempts + 1, owner := None, claimUntil := None);
      if !ok {
        item := item.(status := if item.attempts >= MAX_ATTEMPTS then GivenUp else Queued);
        items := items[i := item.(notBefore := now + Backoff(item.attempts))];
        return;
      }
      items := items[i := item.(status := Sent)];
      if item.key in digests {
        questions := Counted(questions, item.key);
        digests := digests[item.key := digests[item.key].(status := Delivered)];
      }
    }

    /** `drain_notification_outbox`: one claim, then the claimed items one after the other. */
    method Drain(worker: nat, wanted: set<nat>, answers: nat -> bool)
      modifies this`questions, this`digests, this`items
      ensures View() == Run(Claim(old(View()), worker, wanted),
                            Deliveries(HeldBy(Claim(old(View()), worker, wanted).items, worker, 0), worker, answers))
    {
      ClaimItems(worker, wanted);
      ghost var claimed := View();
      var held := HeldBy(items, worker, 0);
      ghost var events := Deliveries(held, worker, answers);
      var n := 0;
      while n < |held|
        invariant 0 <= n <= |held|
        invariant View() == Run(claimed, events[..n])
      {
        RunConcat(claimed, events[..n], [events[n]]);
        assert events[..n + 1] == events[..n] + [events[n]];
        assert Run(View(), [events[n]]) == Run(Step(View(), events[n]), []);
        var owned := DeliverClaimed(held[n], worker, answers(held[n]));
        n := n + 1;
      }
      assert events[..n] == events;
    }

    method ClaimDailyDigest(key: Key) returns (claimed: bool)
      modifies this`digests
      ensures claimed == DayIsFree(old(View()), key)
      ensures View() == ClaimDay(old(View()), key)
    {
      if key in digests {
        var existing := digests[key];
        if existing.status.Delivered? || (existing.status.Waiting? && existing.claimedAt + SUMMARY_CLAIM_TTL > now) {
          return false;
        }
      }
      digests := digests[key := Digest(Waiting, now)];
      claimed := true;
    }
  }
}

/**
  The calendar match of app/services/matching.py: which events are compatible with a recording, the one
  decision taken on them, and the bounded list of candidates for the recruiter. Times are in seconds,
  confidences in hundredths; titles are compared after normalisation.
*/
module Matching {
  import opened Values

  const MARGIN: int := 15 * 60
  const MAX_SPAN: int := 20 * 60 * 60
  const MAX_SHIFT: int := 6 * 60 * 60
  const MAX_CANDIDATES: nat := 5
  const DEFAULT_THRESHOLD: nat := 70

  datatype Key = Key(calendar: Option<string>, uid: string, recurrence: Option<string>)

  /** An event, with the title after normalisation and the outcome of the pattern searches. */
  datatype Event = Event(
    key: Key, start: int, end: int, eligible: bool, title: string,
    telemost: bool, nameInSummary: bool, interviewWord: bool, booking: bool)

  datatype Parsed = Parsed(start: int, title: string)

  datatype Recording = Recording(filename: Option<Parsed>, createdAt: Option<int>)

  datatype Reason =
    | FilenameInvalid | TimestampInconsistent
    | NoCompatibleEvent | UnmonitoredOnly | MultipleEligible | UnmonitoredCollision | LowConfidence

  datatype Match = Accepted(event: Event, confidence: nat) | Manual(reason: Reason, confidence: nat)

  predicate InWindow(e: Event, start: int) {
    e.start - MARGIN <= start <= e.end + MARGIN
  }

  predicate Compatible(p: Parsed, e: Event) {
    && e.end - e.start < MAX_SPAN
    && InWindow(e, p.start)
    && (e.title == p.title || e.booking)
  }

  function Points(yes: bool, points: nat): nat {
    if yes then points else 0
  }

  function Min(a: nat, b: nat): nat {
    if a <= b then a else b
  }

  function Score(e: Event, start: int): nat {
    var sum := Points(e.telemost, 5) + Points(InWindow(e, start), 35) + Points(e.nameInSummary, 25)
               + Points(e.interviewWord, 5) + Points(e.booking, 30);
    Min(sum, 100)
  }

  /* ---- The decision, on the events that count ---- */

  /** Equal keys mean equal events. */
  predicate KeysIdentify(events: seq<Event>) {
    forall i, j :: 0 <= i < |events| && 0 <= j < |events| && events[i].key == events[j].key ==> events[i] == events[j]
  }

  function Pool(p: Parsed, events: seq<Event>): set<Event> {
    set e | e in events && Compatible(p, e)
  }

  function EligibleOf(pool: set<Event>): set<Event> {
    set e | e in pool && e.eligible
  }

  predicate TooFarApart(r: Recording, p: Parsed) {
    r.createdAt.Some? && (r.createdAt.value - p.start > MAX_SHIFT || p.start - r.createdAt.value > MAX_SHIFT)
  }

  /** What the compatible events come to. */
  ghost function Verdict(start: int, threshold: nat, pool: set<Event>): Match {
    var eligible := EligibleOf(pool);
    if pool == {} then Manual(NoCompatibleEvent, 0)
    else if eligible == {} then Manual(UnmonitoredOnly, 0)
    else if |eligible| > 1 then Manual(MultipleEligible, 0)
    else if pool != eligible then Manual(UnmonitoredCollision, 0)
    else
      var e :| e in eligible;
      if Score(e, start) < threshold then Manual(LowConfidence, Score(e, start)) else Accepted(e, Score(e, start))
  }

  /** The decision depends on the compatible events alone, not on how they were listed. */
  ghost function Decision(r: Recording, threshold: nat, events: seq<Event>): Match {
    match r.filename
    case None => Manual(FilenameInvalid, 0)
    case Some(p) =>
      if TooFarApart(r, p) then Manual(TimestampInconsistent, 0)
      else Verdict(p.start, threshold, Pool(p, events))
  }

  lemma DecisionIgnoresOrder(r: Recording, threshold: nat, events: seq<Event>, others: seq<Event>)
    requires forall e :: e in events <==> e in others
    ensures Decision(r, threshold, events) == Decision(r, threshold, others)
  {
    if r.filename.Some? {
      assert Pool(r.filename.value, events) == Pool(r.filename.value, others);
    }
  }

  lemma OneMember(s: set<Event>, e: Event)
    requires e in s && |s| <= 1
    ensures s == {e}
  {
    if x :| x in s && x != e {
      assert {x, e} <= s;
      SubsetSize({x, e}, s);
    }
  }

  lemma {:induction false} SubsetSize(a: set<Event>, b: set<Event>)
    requires a <= b
    ensures |a| <= |b|
    decreases |a|
  {
    if a != {} {
      var x :| x in a;
      SubsetSize(a - {x}, b - {x});
    }
  }

  lemma DecisionAcceptsExactlyWhenAlone(r: Recording, threshold: nat, events: seq<Event>, e: Event)
    ensures (exists confidence :: Decision(r, threshold, events) == Accepted(e, confidence))
            <==> && r.filename.Some? && !TooFarApart(r, r.filename.value)
                 && Pool(r.filename.value, events) == {e} && e.eligible
                 && Score(e, r.filename.value.start) >= threshold
  {
    if r.filename.Some? {
      var p := r.filename.value;
      var pool := Pool(p, events);
      if pool == {e} && e.eligible {
        assert EligibleOf(pool) == {e};
        if !TooFarApart(r, p) && Score(e, p.start) >= threshold {
          assert Decision(r, threshold, events) == Accepted(e, Score(e, p.start));
        }
      } else if Decision(r, threshold, events).Accepted? {
        var f := Decision(r, threshold, events).event;
        OneMember(EligibleOf(pool), f);
        assert pool == {f} && f.eligible;
      }
    }
  }

  lemma DecisionReviewsSecondEvent(r: Recording, threshold: nat, events: seq<Event>, e: Event)
    requires Decision(r, threshold, events).Accepted? && e !in events
    requires r.filename.Some? && Compatible(r.filename.value, e)
    ensures Decision(r, threshold, events + [e])
            == Manual(if e.eligible then MultipleEligible else UnmonitoredCollision, 0)
  {
    var p := r.filename.value;
    var match0 := Decision(r, threshold, events);
    DecisionAcceptsExactlyWhenAlone(r, threshold, events, match0.event);
    var f := match0.event;
    assert f in Pool(p, events);
    assert Pool(p, events + [e]) == {f, e};
    if e.eligible {
      assert EligibleOf({f, e}) == {f, e};
      assert |{f, e}| == 2;
    } else {
      assert EligibleOf({f, e}) == {f};
    }
  }

  /** What the threshold of seventy hundredths comes down to for a compatible event. */
  lemma DefaultThresholdMeans(p: Parsed, e: Event)
    requires Compatible(p, e)
    ensures 35 <= Score(e, p.start) <= 100
    ensures Score(e, p.start) >= DEFAULT_THRESHOLD
            <==> (e.booking && (e.telemost || e.nameInSummary || e.interviewWord))
                 || (e.nameInSummary && e.telemost && e.interviewWord)
  {
  }

  /** An event is compatible exactly when it is shorter than twenty hours, the recording starts within it or at
      most a quarter of an hour before or after, and its title is the one of the file or it has a booking
      marker. */
  lemma CompatibleMeans(p: Parsed, e: Event)
    ensures Compatible(p, e) <==>
            && e.end < e.start + 72000 && e.start <= p.start + 900 && p.start <= e.end + 900
            && (e.booking || e.title == p.title)
  {
  }

  predicate CompatibleAmong(p: Parsed, events: seq<Event>, e: Event, eligible: bool) {
    e in events && Compatible(p, e) && e.eligible == eligible
  }

  /** Some compatible event is monitored, or some is not. */
  ghost predicate SomeAmong(p: Parsed, events: seq<Event>, eligible: bool) {
    exists e :: CompatibleAmong(p, events, e, eligible)
  }

  /** Exactly one of them is monitored. */
  ghost predicate OneMonitored(p: Parsed, events: seq<Event>) {
    exists a :: CompatibleAmong(p, events, a, true) && forall b :: CompatibleAmong(p, events, b, true) ==> b == a
  }

  lemma MonitoredOf(p: Parsed, events: seq<Event>)
    ensures EligibleOf(Pool(p, events)) != {} <==> SomeAmong(p, events, true)
    ensures |EligibleOf(Pool(p, events))| == 1 <==> OneMonitored(p, events)
  {
    var eligible := EligibleOf(Pool(p, events));
    if a :| a in eligible {
      assert CompatibleAmong(p, events, a, true);
      if |eligible| > 1 {
        assert |eligible - {a}| > 0;
        var b :| b in eligible - {a};
        assert CompatibleAmong(p, events, b, true);
      } else {
        OneMember(eligible, a);
        assert forall b :: CompatibleAmong(p, events, b, true) ==> b in eligible;
      }
    }
    if a :| CompatibleAmong(p, events, a, true) {
      assert a in eligible;
    }
  }

  lemma UnmonitoredOf(p: Parsed, events: seq<Event>)
    ensures Pool(p, events) != EligibleOf(Pool(p, events)) <==> SomeAmong(p, events, false)
    ensures Pool(p, events) == {} <==> !SomeAmong(p, events, true) && !SomeAmong(p, events, false)
  {
    var pool := Pool(p, events);
    if e :| e in pool && !e.eligible {
      assert CompatibleAmong(p, events, e, false);
    }
    if e :| CompatibleAmong(p, events, e, false) {
      assert e in pool && e !in EligibleOf(pool);
    }
    if e :| CompatibleAmong(p, events, e, true) {
      assert e in pool;
    }
    if e :| e in pool && e.eligible {
      assert CompatibleAmong(p, events, e, true);
    }
  }

  /** What each verdict says of the events: whether there is a compatible one, and how many of the compatible
      ones are monitored. */
  lemma ReasonMeans(p: Parsed, threshold: nat, events: seq<Event>)
    ensures var v := Verdict(p.start, threshold, Pool(p, events));
            var monitored, unmonitored := SomeAmong(p, events, true), SomeAmong(p, events, false);
            var one := OneMonitored(p, events);
            && (v == Manual(NoCompatibleEvent, 0) <==> !monitored && !unmonitored)
            && (v == Manual(UnmonitoredOnly, 0) <==> !monitored && unmonitored)
            && (v == Manual(MultipleEligible, 0) <==> monitored && !one)
            && (v == Manual(UnmonitoredCollision, 0) <==> one && unmonitored)
            && ((v.Manual? ==> v.reason == LowConfidence && v.confidence < threshold) <==> one && !unmonitored)
            && (v.Accepted? ==> v.confidence >= threshold)
  {
    MonitoredOf(p, events);
    UnmonitoredOf(p, events);
    if EligibleOf(Pool(p, events)) != {} {
      var e :| e in EligibleOf(Pool(p, events));
      assert |EligibleOf(Pool(p, events))| >= 1;
    }
  }

  /** A recording whose file name does not parse, or says another time than the Disk by more than six hours, is
      not matched at all. */
  lemma UnmatchableMeans(r: Recording, threshold: nat, events: seq<Event>)
    ensures Decision(r, threshold, events)
            == match r.filename
               case None => Manual(FilenameInvalid, 0)
               case Some(p) =>
                 if r.createdAt.Some?
                    && (r.createdAt.value > p.start + 21600 || p.start > r.createdAt.value + 21600)
                 then Manual(TimestampInconsistent, 0) else Verdict(p.start, threshold, Pool(p, events))
  {
  }

  /* ---- The matcher ---- */

  /** The first compatible event of each key, in the order of the calendar. */
  function FirstPerKey(p: Parsed, events: seq<Event>): seq<Event> {
    if events == [] then []
    else
      var before := FirstPerKey(p, events[..|events| - 1]);
      var last := events[|events| - 1];
      if Compatible(p, last) && !HasKey(before, last.key) then before + [last] else before
  }

  predicate AllCompatible(p: Parsed, events: seq<Event>, compatible: seq<Event>) {
    forall i :: 0 <= i < |compatible| ==> compatible[i] in events && Compatible(p, compatible[i])
  }

  predicate DistinctKeys(compatible: seq<Event>) {
    forall i, j :: 0 <= i < j < |compatible| ==> compatible[i].key != compatible[j].key
  }

  predicate EveryKey(p: Parsed, events: seq<Event>, compatible: seq<Event>) {
    forall e :: e in events && Compatible(p, e) ==> HasKey(compatible, e.key)
  }

  /** Compatible events of different keys, one for each key that has any. */
  predicate Deduplicated(p: Parsed, events: seq<Event>, compatible: seq<Event>) {
    AllCompatible(p, events, compatible) && DistinctKeys(compatible) && EveryKey(p, events, compatible)
  }

  predicate HasKey(events: seq<Event>, key: Key) {
    exists i :: 0 <= i < |events| && events[i].key == key
  }

  lemma {:induction false} FirstPerKeyIsDeduplicated(p: Parsed, events: seq<Event>)
    ensures Deduplicated(p, events, FirstPerKey(p, events))
  {
    if events != [] {
      var rest, last := events[..|events| - 1], events[|events| - 1];
      FirstPerKeyIsDeduplicated(p, rest);
      assert events == rest + [last];
      if Compatible(p, last) && !HasKey(FirstPerKey(p, rest), last.key) {
        TakeFirst(p, rest, FirstPerKey(p, rest), last);
      } else {
        SkipRepeated(p, rest, FirstPerKey(p, rest), last);
      }
    }
  }

  /** When keys identify events, the list without repetitions is the pool. */
  lemma DeduplicatedIsThePool(p: Parsed, events: seq<Event>, compatible: seq<Event>)
    requires KeysIdentify(events) && Deduplicated(p, events, compatible)
    ensures forall e :: e in compatible <==> e in Pool(p, events)
  {
    forall e | e in Pool(p, events)
      ensures e in compatible
    {
      var i :| 0 <= i < |compatible| && compatible[i].key == e.key;
      var j :| 0 <= j < |events| && events[j] == e;
      var k :| 0 <= k < |events| && events[k] == compatible[i];
      assert events[j] == events[k];
    }
  }

  /** So dropping repetitions by key changes no decision. */
  lemma DroppingRepetitionsDoesNotMatter(r: Recording, threshold: nat, events: seq<Event>)
    requires r.filename.Some? && KeysIdentify(events)
    ensures Decision(r, threshold, FirstPerKey(r.filename.value, events)) == Decision(r, threshold, events)
  {
    var p := r.filename.value;
    FirstPerKeyIsDeduplicated(p, events);
    DeduplicatedIsThePool(p, events, FirstPerKey(p, events));
    assert Pool(p, FirstPerKey(p, events)) == Pool(p, events);
  }

  /* ---- What the matcher's answer depends on ---- */

  /** The answer: the decision on the first compatible event of each key. */
  ghost function Answer(r: Recording, threshold: nat, events: seq<Event>): Match {
    Decision(r, threshold, if r.filename.Some? then FirstPerKey(r.filename.value, events) else events)
  }

  lemma AnswerIsTheDecision(r: Recording, threshold: nat, events: seq<Event>)
    requires KeysIdentify(events)
    ensures Answer(r, threshold, events) == Decision(r, threshold, events)
  {
    if r.filename.Some? {
      DroppingRepetitionsDoesNotMatter(r, threshold, events);
    }
  }

  lemma SameEventsIdentify(events: seq<Event>, others: seq<Event>)
    requires KeysIdentify(events) && forall e :: e in others ==> e in events
    ensures KeysIdentify(others)
  {
    forall i, j | 0 <= i < |others| && 0 <= j < |others| && others[i].key == others[j].key
      ensures others[i] == others[j]
    {
      assert others[i] in others && others[j] in others;
      var k :| 0 <= k < |events| && events[k] == others[i];
      var l :| 0 <= l < |events| && events[l] == others[j];
      assert events[k] == events[l];
    }
  }

  /** When keys identify events, permutations and repetitions of the calendar do not matter. */
  lemma OrderAndRepetitionDoNotMatter(r: Recording, threshold: nat, events: seq<Event>, others: seq<Event>)
    requires KeysIdentify(events) && forall e :: e in events <==> e in others
    ensures Answer(r, threshold, events) == Answer(r, threshold, others)
  {
    SameEventsIdentify(events, others);
    AnswerIsTheDecision(r, threshold, events);
    AnswerIsTheDecision(r, threshold, others);
    DecisionIgnoresOrder(r, threshold, events, others);
  }

  lemma {:induction false} IncompatibleIsSkipped(p: Parsed, before: seq<Event>, e: Event, after: seq<Event>)
    requires !Compatible(p, e)
    ensures FirstPerKey(p, before + [e] + after) == FirstPerKey(p, before + after)
  {
    var all := before + [e] + after;
    if after == [] {
      assert all[..|all| - 1] == before && before + after == before;
    } else {
      var rest, last := after[..|after| - 1], after[|after| - 1];
      IncompatibleIsSkipped(p, before, e, rest);
      assert all[..|all| - 1] == before + [e] + rest;
      assert (before + after)[..|before + after| - 1] == before + rest;
    }
  }

  /** Events that are not compatible never matter, whatever their keys. */
  lemma IncompatibleEventsDoNotMatter(r: Recording, threshold: nat, before: seq<Event>, e: Event, after: seq<Event>)
    requires r.filename.Some? ==> !Compatible(r.filename.value, e)
    ensures Answer(r, threshold, before + [e] + after) == Answer(r, threshold, before + after)
  {
    if r.filename.Some? {
      IncompatibleIsSkipped(r.filename.value, before, e, after);
    }
  }

  /** An event is accepted exactly when it is the only compatible one, monitored, and good enough. */
  lemma AcceptedExactlyWhenAlone(r: Recording, threshold: nat, events: seq<Event>, e: Event)
    requires KeysIdentify(events)
    ensures (exists confidence :: Answer(r, threshold, events) == Accepted(e, confidence))
            <==> && r.filename.Some? && !TooFarApart(r, r.filename.value)
                 && Pool(r.filename.value, events) == {e} && e.eligible
                 && Score(e, r.filename.value.start) >= threshold
  {
    AnswerIsTheDecision(r, threshold, events);
    DecisionAcceptsExactlyWhenAlone(r, threshold, events, e);
  }

  /** A new compatible event, wherever it is listed, never switches a match silently: it always asks the
      recruiter. */
  lemma SecondCompatibleEventForcesReview(
      r: Recording, threshold: nat, before: seq<Event>, e: Event, after: seq<Event>)
    requires KeysIdentify(before + [e] + after) && e !in before + after
    requires Answer(r, threshold, before + after).Accepted?
    requires r.filename.Some? && Compatible(r.filename.value, e)
    ensures Answer(r, threshold, before + [e] + after)
            == Manual(if e.eligible then MultipleEligible else UnmonitoredCollision, 0)
  {
    var all, known := before + [e] + after, before + after;
    SameEventsIdentify(all, known);
    SameEventsIdentify(all, known + [e]);
    AnswerIsTheDecision(r, threshold, known);
    AnswerIsTheDecision(r, threshold, known + [e]);
    DecisionReviewsSecondEvent(r, threshold, known, e);
    OrderAndRepetitionDoNotMatter(r, threshold, all, known + [e]);
  }

  function Filtered(events: seq<Event>, eligible: bool): seq<Event> {
    if events == [] then []
    else
      var before := Filtered(events[..|events| - 1], eligible);
      if events[|events| - 1].eligible == eligible then before + [events[|events| - 1]] else before
  }

  predicate DistinctEvents(events: seq<Event>) {
    forall i, j :: 0 <= i < j < |events| ==> events[i] != events[j]
  }

  lemma {:induction false} FilteredIsTheSubset(events: seq<Event>, eligible: bool)
    requires DistinctEvents(events)
    ensures DistinctEvents(Filtered(events, eligible))
    ensures forall e :: e in Filtered(events, eligible) <==> e in events && e.eligible == eligible
  {
    if events != [] {
      var rest := events[..|events| - 1];
      FilteredIsTheSubset(rest, eligible);
      assert events == rest + [events[|events| - 1]];
    }
  }

  /** A list without repetitions is as long as its set is large. */
  lemma {:induction false} DistinctSize(events: seq<Event>)
    requires DistinctEvents(events)
    ensures |set e | e in events| == |events|
  {
    if events != [] {
      var rest, last := events[..|events| - 1], events[|events| - 1];
      DistinctSize(rest);
      assert events == rest + [last];
      assert (set e | e in events) == (set e | e in rest) + {last};
    }
  }

  class InterviewMatcher {
    const threshold: nat

    constructor (threshold: nat)
      ensures this.threshold == threshold
    {
      this.threshold := threshold;
    }

    /** The loop over the calendar. */
    method CollectCompatible(p: Parsed, events: seq<Event>) returns (compatible: seq<Event>)
      ensures compatible == FirstPerKey(p, events)
    {
      compatible := [];
      var n := 0;
      while n < |events|
        invariant 0 <= n <= |events|
        invariant compatible == FirstPerKey(p, events[..n])
      {
        var e := events[n];
        assert events[..n + 1][..n] == events[..n];
        if e.end - e.start < MAX_SPAN && InWindow(e, p.start) && (e.title == p.title || e.booking) {
          if !HasKey(compatible, e.key) {
            compatible := compatible + [e];
          }
        }
        n := n + 1;
      }
      assert events[..n] == events;
    }

    method SelectBy(events: seq<Event>, eligible: bool) returns (selected: seq<Event>)
      ensures selected == Filtered(events, eligible)
    {
      selected := [];
      var n := 0;
      while n < |events|
        invariant 0 <= n <= |events|
        invariant selected == Filtered(events[..n], eligible)
      {
        assert events[..n + 1][..n] == events[..n];
        if events[n].eligible == eligible {
          selected := selected + [events[n]];
        }
        n := n + 1;
      }
      assert events[..n] == events;
    }

    /** The running score. */
    method ScoreEvent(e: Event, start: int) returns (score: nat)
      ensures score == Score(e, start)
    {
      score := 0;
      if e.telemost {
        score := score + 5;
      }
      if e.start - MARGIN <= start <= e.end + MARGIN {
        score := score + 35;
      }
      if e.nameInSummary {
        score := score + 25;
      }
      if e.interviewWord {
        score := score + 5;
      }
      if e.booking {
        score := score + 30;
      }
      score := Min(score, 100);
    }

    /** `score`: the decision on the first compatible event of each key. */
    method MatchRecording(r: Recording, events: seq<Event>) returns (result: Match)
      ensures result == Answer(r, threshold, events)
    {
      if r.filename.None? {
        return Manual(FilenameInvalid, 0);
      }
      var p := r.filename.value;
      if r.createdAt.Some? {
        var shift := r.createdAt.value - p.start;
        if shift > MAX_SHIFT || -shift > MAX_SHIFT {
          return Manual(TimestampInconsistent, 0);
        }
      }
      var compatible := CollectCompatible(p, events);
      FirstPerKeyIsDistinct(p, events);
      result := Decide(p, compatible);
    }

    method Decide(p: Parsed, compatible: seq<Event>) returns (result: Match)
      requires DistinctEvents(compatible) && forall e :: e in compatible ==> Compatible(p, e)
      ensures result == Verdict(p.start, threshold, Pool(p, compatible))
    {
      var eligible := SelectBy(compatible, true);
      var unmonitored := SelectBy(compatible, false);
      SelectionsAreThePool(p, compatible);
      if compatible == [] {
        return Manual(NoCompatibleEvent, 0);
      }
      if eligible == [] {
        return Manual(UnmonitoredOnly, 0);
      }
      if |eligible| > 1 {
        return Manual(MultipleEligible, 0);
      }
      if unmonitored != [] {
        return Manual(UnmonitoredCollision, 0);
      }
      var e := eligible[0];
      assert EligibleOf(Pool(p, compatible)) == {e};
      var confidence := ScoreEvent(e, p.start);
      result := if confidence < threshold then Manual(LowConfidence, confidence) else Accepted(e, confidence);
    }
  }

  lemma FirstPerKeyIsDistinct(p: Parsed, events: seq<Event>)
    ensures DistinctEvents(FirstPerKey(p, events))
    ensures forall e :: e in FirstPerKey(p, events) ==> Compatible(p, e)
  {
    FirstPerKeyIsDeduplicated(p, events);
  }

  lemma HasKeyGrows(compatible: seq<Event>, e: Event, key: Key)
    requires HasKey(compatible, key) || e.key == key
    ensures HasKey(compatible + [e], key)
  {
    if e.key == key {
      assert (compatible + [e])[|compatible|].key == key;
    } else {
      var i :| 0 <= i < |compatible| && compatible[i].key == key;
      assert (compatible + [e])[i].key == key;
    }
  }

  lemma TakeFirst(p: Parsed, events: seq<Event>, compatible: seq<Event>, e: Event)
    requires Deduplicated(p, events, compatible) && Compatible(p, e) && !HasKey(compatible, e.key)
    ensures Deduplicated(p, events + [e], compatible + [e])
  {
    forall f | f in events + [e] && Compatible(p, f)
      ensures HasKey(compatible + [e], f.key)
    {
      HasKeyGrows(compatible, e, f.key);
    }
  }

  lemma SkipRepeated(p: Parsed, events: seq<Event>, compatible: seq<Event>, e: Event)
    requires Deduplicated(p, events, compatible) && (Compatible(p, e) ==> HasKey(compatible, e.key))
    ensures Deduplicated(p, events + [e], compatible)
  {
  }

  /** The two selections, as sets and by size. */
  lemma SelectionsAreThePool(p: Parsed, compatible: seq<Event>)
    requires DistinctEvents(compatible) && forall e :: e in compatible ==> Compatible(p, e)
    ensures var pool := Pool(p, compatible);
            var eligible, unmonitored := Filtered(compatible, true), Filtered(compatible, false);
            && (compatible == [] <==> pool == {})
            && (forall e :: e in eligible <==> e in EligibleOf(pool))
            && |eligible| == |EligibleOf(pool)|
            && (unmonitored == [] <==> pool == EligibleOf(pool))
  {
    var pool := Pool(p, compatible);
    FilteredIsTheSubset(compatible, true);
    EligibleSize(p, compatible);
    UnmonitoredIsTheRest(p, compatible);
    if compatible != [] {
      assert compatible[0] in pool;
    }
  }

  lemma EligibleSize(p: Parsed, compatible: seq<Event>)
    requires DistinctEvents(compatible) && forall e :: e in compatible ==> Compatible(p, e)
    ensures |Filtered(compatible, true)| == |EligibleOf(Pool(p, compatible))|
  {
    FilteredIsTheSubset(compatible, true);
    DistinctSize(Filtered(compatible, true));
    assert (set e | e in Filtered(compatible, true)) == EligibleOf(Pool(p, compatible));
  }

  lemma UnmonitoredIsTheRest(p: Parsed, compatible: seq<Event>)
    requires DistinctEvents(compatible) && forall e :: e in compatible ==> Compatible(p, e)
    ensures Filtered(compatible, false) == [] <==> Pool(p, compatible) == EligibleOf(Pool(p, compatible))
  {
    var pool, unmonitored := Pool(p, compatible), Filtered(compatible, false);
    FilteredIsTheSubset(compatible, false);
    if unmonitored != [] {
      assert unmonitored[0] in unmonitored;
      assert unmonitored[0] in pool && unmonitored[0] !in EligibleOf(pool);
    } else {
      forall e | e in pool
        ensures e in EligibleOf(pool)
      {
        assert e in compatible && e !in unmonitored;
      }
    }
  }

  /* ---- Candidates for the recruiter ---- */

  /** The longest run of at most five first events whose payload fits at every length. */
  method BoundedCandidates(events: seq<Event>, size: seq<Event> -> nat, limit: nat) returns (candidates: seq<Event>)
    ensures candidates <= events && |candidates| <= MAX_CANDIDATES
    ensures forall n :: 0 < n <= |candidates| ==> size(events[..n]) <= limit
    ensures |candidates| < |events| && |candidates| < MAX_CANDIDATES ==> size(events[..|candidates| + 1]) > limit
  {
    candidates := [];
    var n := 0;
    while n < |events| && n < MAX_CANDIDATES
      invariant 0 <= n <= |events| && n <= MAX_CANDIDATES
      invariant candidates == events[..n]
      invariant forall k :: 0 < k <= n ==> size(events[..k]) <= limit
    {
      var trial := candidates + [events[n]];
      assert trial == events[..n + 1];
      if size(trial) > limit {
        break;
      }
      candidates := trial;
      n := n + 1;
    }
  }
}

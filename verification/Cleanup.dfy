/**
  Moving the sources of completed recordings to the trash (app/services/cleanup.py): a preview takes a
  snapshot, a confirmation works through it item by item, recording "processing" before each move.
  Confirmations run one at a time and may be cut off after any commit or request; a confirmation of the
  same preview takes the work up again from the first item.
*/
module Cleanup {
  import opened Values

  datatype Recording = Recording(
    version: nat, path: string, link: string, completed: bool, durable: bool, deleted: bool,
    inPlace: bool)   // whether the source file is still on the Disk

  /** One snapshot entry: what the preview saw. */
  datatype Item = Item(recording: nat, version: nat, path: string, link: string)

  datatype FileState = Processing | Moved | FailedMove | Drifted

  datatype FileResult = FileResult(preview: nat, recording: nat, state: FileState)

  datatype Entry = Entry(recording: nat, state: FileState)

  datatype PreviewStatus = Pending | Confirmed | Finished | Expired

  datatype Preview = Preview(
    snapshot: seq<Item>, expires: nat, status: PreviewStatus, fingerprint: Option<string>,
    result: Option<seq<Entry>>)

  datatype Pc =
    | Idle
    | Walk(preview: nat, done: seq<Entry>)
    | Move(preview: nat, done: seq<Entry>, row: nat)
    | Settle(preview: nat, done: seq<Entry>, row: nat, moved: bool)

  datatype State = State(
    now: nat, recordings: map<nat, Recording>, previews: seq<Preview>, results: seq<FileResult>, pc: Pc,
    requests: seq<nat>)   // history: the recordings the Disk was asked to move, in order

  /** A request or commit goes well, has no effect, or has its effect without an answer. */
  datatype Answer = Ok | Refused | Lost

  datatype Event =
    | TakePreview(ids: seq<nat>, ttl: nat)
    | Confirm(preview: nat, fingerprint: string, valid: bool)
    | Next(answer: Answer)
    | CutOff
    | Wait(seconds: nat)
    | OthersWrite(recording: nat, row: Recording)

  /* ---- Previews and confirmations ---- */

  predicate Listable(r: Recording) {
    r.completed && r.link != "" && r.durable && !r.deleted
  }

  predicate AllListable(recordings: map<nat, Recording>, ids: seq<nat>) {
    && (forall i :: 0 <= i < |ids| ==> ids[i] in recordings && Listable(recordings[ids[i]]))
    && (forall i, j :: 0 <= i < j < |ids| ==> ids[i] != ids[j])
  }

  function Snapshot(recordings: map<nat, Recording>, ids: seq<nat>): (r: seq<Item>)
    requires AllListable(recordings, ids)
    ensures |r| == |ids|
    ensures forall i :: 0 <= i < |r| ==>
              r[i] == Item(ids[i], recordings[ids[i]].version, recordings[ids[i]].path, recordings[ids[i]].link)
  {
    seq(|ids|, i requires 0 <= i < |ids| =>
      Item(ids[i], recordings[ids[i]].version, recordings[ids[i]].path, recordings[ids[i]].link))
  }

  /** `valid` stands for the identity, capability and snapshot-hash checks. */
  function ConfirmStep(s: State, p: nat, fingerprint: string, valid: bool): State {
    if s.pc != Idle || p >= |s.previews| then s
    else
      var preview := s.previews[p];
      if preview.fingerprint.Some? then
        if preview.fingerprint.value != fingerprint || preview.result.Some? || !preview.status.Confirmed? || !valid
        then s
        else s.(pc := Walk(p, []))
      else if !preview.status.Pending? || !valid then s
      else if preview.expires <= s.now then s.(previews := s.previews[p := preview.(status := Expired)])
      else
        s.(previews := s.previews[p := preview.(status := Confirmed, fingerprint := Some(fingerprint))],
           pc := Walk(p, []))
  }

  /** What a confirmation with this fingerprint is answered at once. */
  function ReplayOf(s: State, p: nat, fingerprint: string): Option<seq<Entry>> {
    if p < |s.previews| && s.previews[p].fingerprint == Some(fingerprint) then s.previews[p].result else None
  }

  /* ---- One item ---- */

  predicate Unresolved(state: FileState) {
    state in {Processing, Moved}
  }

  /** The first row that satisfies the query. */
  function FindOwn(results: seq<FileResult>, preview: nat, recording: nat): Option<FileState> {
    if results == [] then None
    else if results[0].preview == preview && results[0].recording == recording then Some(results[0].state)
    else FindOwn(results[1..], preview, recording)
  }

  function FindUnresolved(results: seq<FileResult>, recording: nat): Option<FileState> {
    if results == [] then None
    else if results[0].recording == recording && Unresolved(results[0].state) then Some(results[0].state)
    else FindUnresolved(results[1..], recording)
  }

  predicate Eligible(recordings: map<nat, Recording>, item: Item) {
    && item.recording in recordings
    && var r := recordings[item.recording];
       r.version == item.version && r.path == item.path && r.link == item.link && Listable(r)
  }

  function WalkStep(s: State, p: nat, done: seq<Entry>, item: Item): State {
    var own := FindOwn(s.results, p, item.recording);
    var unresolved := FindUnresolved(s.results, item.recording);
    if own.Some? then s.(pc := Walk(p, done + [Entry(item.recording, own.value)]))
    else if unresolved.Some? then s.(pc := Walk(p, done + [Entry(item.recording, unresolved.value)]))
    else if !Eligible(s.recordings, item) then
      s.(results := s.results + [FileResult(p, item.recording, Drifted)],
         pc := Walk(p, done + [Entry(item.recording, Drifted)]))
    else
      s.(results := s.results + [FileResult(p, item.recording, Processing)], pc := Move(p, done, |s.results|))
  }

  /** The Disk refuses to move a file that is not there. */
  function MoveStep(s: State, p: nat, done: seq<Entry>, row: nat, a: Answer): State {
    if row >= |s.results| || s.results[row].recording !in s.recordings then s.(pc := Idle)
    else
      var id := s.results[row].recording;
      var r := s.recordings[id];
      var asked := s.(requests := s.requests + [id]);
      if a.Refused? || !r.inPlace then asked.(pc := Settle(p, done, row, false))
      else asked.(recordings := s.recordings[id := r.(inPlace := false)], pc := Settle(p, done, row, a.Ok?))
  }

  function SettleStep(s: State, p: nat, done: seq<Entry>, row: nat, moved: bool, a: Answer): State {
    if !a.Ok? || row >= |s.results| || s.results[row].recording !in s.recordings then s.(pc := Idle)
    else
      var id := s.results[row].recording;
      var state := if moved then Moved else FailedMove;
      var r := s.recordings[id];
      s.(results := s.results[row := s.results[row].(state := state)],
         recordings := if moved then s.recordings[id := r.(deleted := true)] else s.recordings,
         pc := Walk(p, done + [Entry(id, state)]))
  }

  function NextStep(s: State, a: Answer): State {
    match s.pc
    case Idle => s
    case Walk(p, done) =>
      if !a.Ok? || p >= |s.previews| then s.(pc := Idle)
      else if |done| < |s.previews[p].snapshot| then WalkStep(s, p, done, s.previews[p].snapshot[|done|])
      else s.(previews := s.previews[p := s.previews[p].(status := Finished, result := Some(done))], pc := Idle)
    case Move(p, done, row) => MoveStep(s, p, done, row, a)
    case Settle(p, done, row, moved) => SettleStep(s, p, done, row, moved, a)
  }

  function Step(s: State, e: Event): State {
    match e
    case TakePreview(ids, ttl) =>
      if AllListable(s.recordings, ids)
      then s.(previews := s.previews + [Preview(Snapshot(s.recordings, ids), s.now + ttl, Pending, None, None)])
      else s
    case Confirm(p, fingerprint, valid) => ConfirmStep(s, p, fingerprint, valid)
    case Next(a) => NextStep(s, a)
    case CutOff => s.(pc := Idle)
    case Wait(seconds) => s.(now := s.now + seconds)
    case OthersWrite(id, row) =>
      if id in s.recordings && (row.deleted != s.recordings[id].deleted || row.inPlace != s.recordings[id].inPlace)
      then s else s.(recordings := s.recordings[id := row])
  }

  function Run(s: State, events: seq<Event>): State
    decreases |events|
  {
    if events == [] then s else Run(Step(s, events[0]), events[1..])
  }

  predicate Initial(s: State) {
    s.previews == [] && s.results == [] && s.pc == Idle && s.requests == []
    && forall id :: id in s.recordings ==> !s.recordings[id].deleted
  }

  /* ---- What every step keeps ---- */

  predicate InOrder(entries: seq<Entry>, snapshot: seq<Item>) {
    && |entries| <= |snapshot|
    && forall k :: 0 <= k < |entries| ==> entries[k].recording == snapshot[k].recording
  }

  predicate PreviewInv(preview: Preview) {
    && (preview.result.Some? ==>
          preview.status.Finished? && preview.fingerprint.Some?
          && |preview.result.value| == |preview.snapshot| && InOrder(preview.result.value, preview.snapshot))
    && (preview.status.Confirmed? ==> preview.fingerprint.Some?)
    && (preview.fingerprint.Some? ==> preview.status in {Confirmed, Finished})
  }

  /** At most one row per recording is open or successful. */
  predicate OneUnresolved(results: seq<FileResult>) {
    forall i, j :: 0 <= i < j < |results| && Unresolved(results[i].state) && Unresolved(results[j].state) ==>
      results[i].recording != results[j].recording
  }

  predicate PcInv(s: State) {
    match s.pc
    case Idle => true
    case Walk(p, done) => p < |s.previews| && s.previews[p].status.Confirmed? && InOrder(done, s.previews[p].snapshot)
    case Move(p, done, row) => AtRow(s, p, done, row)
    case Settle(p, done, row, moved) =>
      AtRow(s, p, done, row) && (moved ==> !s.recordings[s.results[row].recording].inPlace)
  }

  predicate AtRow(s: State, p: nat, done: seq<Entry>, row: nat) {
    && p < |s.previews| && s.previews[p].status.Confirmed? && InOrder(done, s.previews[p].snapshot)
    && row < |s.results| && s.results[row].state.Processing?
    && |done| < |s.previews[p].snapshot| && s.previews[p].snapshot[|done|].recording == s.results[row].recording
    && s.results[row].recording in s.recordings
  }

  predicate Inv(s: State) {
    && (forall p :: 0 <= p < |s.previews| ==> PreviewInv(s.previews[p]))
    && OneUnresolved(s.results)
    && (forall i :: 0 <= i < |s.results| && s.results[i].state.Moved? ==>
          s.results[i].recording in s.recordings && s.recordings[s.results[i].recording].deleted
          && !s.recordings[s.results[i].recording].inPlace)
    && PcInv(s)
  }

  lemma {:induction false} NothingUnresolved(results: seq<FileResult>, recording: nat)
    ensures FindUnresolved(results, recording).None?
            <==> forall i :: 0 <= i < |results| && results[i].recording == recording ==> !Unresolved(results[i].state)
  {
    if results != [] {
      NothingUnresolved(results[1..], recording);
      forall i | 1 <= i < |results|
        ensures results[i] == results[1..][i - 1]
      {
      }
      if FindUnresolved(results, recording).None? {
        forall i | 0 <= i < |results| && results[i].recording == recording
          ensures !Unresolved(results[i].state)
        {
          if i > 0 {
            assert results[1..][i - 1] == results[i];
          }
        }
      }
    }
  }

  lemma WalkKeepsInv(s: State, p: nat, done: seq<Entry>)
    requires Inv(s) && s.pc == Walk(p, done) && |done| < |s.previews[p].snapshot|
    ensures Inv(WalkStep(s, p, done, s.previews[p].snapshot[|done|]))
  {
    NothingUnresolved(s.results, s.previews[p].snapshot[|done|].recording);
  }

  lemma MoveKeepsInv(s: State, a: Answer)
    requires Inv(s) && s.pc.Move?
    ensures Inv(MoveStep(s, s.pc.preview, s.pc.done, s.pc.row, a))
  {
  }

  lemma SettleKeepsInv(s: State, a: Answer)
    requires Inv(s) && s.pc.Settle?
    ensures Inv(SettleStep(s, s.pc.preview, s.pc.done, s.pc.row, s.pc.moved, a))
  {
  }

  lemma NextKeepsInv(s: State, a: Answer)
    requires Inv(s)
    ensures Inv(NextStep(s, a))
  {
    match s.pc
    case Idle =>
    case Walk(p, done) =>
      if |done| < |s.previews[p].snapshot| {
        WalkKeepsInv(s, p, done);
      }
    case Move(_, _, _) => MoveKeepsInv(s, a);
    case Settle(_, _, _, _) => SettleKeepsInv(s, a);
  }

  lemma StepKeepsInv(s: State, e: Event)
    requires Inv(s)
    ensures Inv(Step(s, e))
  {
    match e
    case Next(a) => NextKeepsInv(s, a);
    case _ =>
  }

  lemma {:induction false} RunKeepsInv(s: State, events: seq<Event>)
    requires Inv(s)
    ensures Inv(Run(s, events))
    decreases |events|
  {
    if events != [] {
      StepKeepsInv(s, events[0]);
      RunKeepsInv(Step(s, events[0]), events[1..]);
    }
  }

  /* ---- Moves ---- */

  /** The row a confirmation is working on. */
  function Busy(pc: Pc): Option<nat> {
    match pc
    case Move(_, _, row) => Some(row)
    case Settle(_, _, row, _) => Some(row)
    case _ => None
  }

  /** The Disk is asked only for a row that was committed as processing, for the item in turn of a
      confirmed preview. */
  lemma RequestIsRecordedFirst(s: State, e: Event)
    requires Inv(s) && Step(s, e).requests != s.requests
    ensures s.pc.Move? && Step(s, e).requests == s.requests + [s.results[s.pc.row].recording]
    ensures s.results[s.pc.row].state.Processing? && s.previews[s.pc.preview].status.Confirmed?
    ensures s.previews[s.pc.preview].snapshot[|s.pc.done|].recording == s.results[s.pc.row].recording
  {
  }

  /** Such a row is committed only for a recording that still matches the snapshot in version, path and
      link, is completed, durable and not deleted, and has no open or successful row anywhere. */
  lemma OnlyMatchingItemsAreMoved(s: State, e: Event)
    requires Inv(s) && !s.pc.Move? && Step(s, e).pc.Move?
    ensures s.pc.Walk? && |s.pc.done| < |s.previews[s.pc.preview].snapshot|
    ensures var item := s.previews[s.pc.preview].snapshot[|s.pc.done|];
            && item.recording in s.recordings
            && var r := s.recordings[item.recording];
            && r.version == item.version && r.path == item.path && r.link == item.link
            && r.completed && r.durable && r.link != "" && !r.deleted
            && Step(s, e).results == s.results + [FileResult(s.pc.preview, item.recording, Processing)]
            && forall i :: 0 <= i < |s.results| && s.results[i].recording == item.recording ==>
                 s.results[i].state !in {Processing, Moved}
  {
    NothingUnresolved(s.results, s.previews[s.pc.preview].snapshot[|s.pc.done|].recording);
  }

  function CountOf(requests: seq<nat>, id: nat): nat {
    if requests == [] then 0
    else CountOf(requests[..|requests| - 1], id) + if requests[|requests| - 1] == id then 1 else 0
  }

  /** A recording with an open or successful row that nobody works on. */
  predicate Done(s: State, i: nat) {
    i < |s.results| && s.results[i].state in {Processing, Moved} && Busy(s.pc) != Some(i)
  }

  /** Its row stays, and its recording is not asked for again. */
  predicate StaysDone(s: State, t: State, i: nat)
    requires i < |s.results|
  {
    && Done(t, i) && t.results[i] == s.results[i]
    && CountOf(t.requests, s.results[i].recording) == CountOf(s.requests, s.results[i].recording)
  }

  lemma DoneMove(s: State, a: Answer, i: nat)
    requires Inv(s) && Done(s, i) && s.pc.Move?
    ensures StaysDone(s, MoveStep(s, s.pc.preview, s.pc.done, s.pc.row, a), i)
  {
    var id := s.results[s.pc.row].recording;
    assert (s.requests + [id])[..|s.requests|] == s.requests;
  }

  lemma DoneNext(s: State, a: Answer, i: nat)
    requires Inv(s) && Done(s, i)
    ensures StaysDone(s, NextStep(s, a), i)
  {
    match s.pc
    case Idle =>
    case Walk(p, done) =>
    case Move(_, _, _) => DoneMove(s, a, i);
    case Settle(_, _, _, _) =>
  }

  lemma DoneStep(s: State, e: Event, i: nat)
    requires Inv(s) && Done(s, i)
    ensures StaysDone(s, Step(s, e), i)
  {
    match e
    case Next(a) => DoneNext(s, a, i);
    case TakePreview(_, _) =>
    case Confirm(_, _, _) =>
    case CutOff =>
    case Wait(_) =>
    case OthersWrite(_, _) =>
  }

  /** After a successful move, and just as well after a crash in the middle of one, the Disk is never
      asked for that recording again, by no preview and no confirmation. */
  lemma {:induction false} NoSecondMove(s: State, events: seq<Event>, i: nat)
    requires Inv(s) && Done(s, i)
    ensures Done(Run(s, events), i) && Run(s, events).results[i] == s.results[i]
    ensures CountOf(Run(s, events).requests, s.results[i].recording) == CountOf(s.requests, s.results[i].recording)
    decreases |events|
  {
    if events != [] {
      StepKeepsInv(s, events[0]);
      DoneStep(s, events[0], i);
      NoSecondMove(Step(s, events[0]), events[1..], i);
    }
  }

  /* ---- Results ---- */

  /** A reported state is the state of a row of that recording that nobody works on. */
  predicate Backed(results: seq<FileResult>, entry: Entry, busy: Option<nat>) {
    exists i :: 0 <= i < |results| && busy != Some(i)
                && results[i].recording == entry.recording && results[i].state == entry.state
  }

  predicate AllBacked(results: seq<FileResult>, entries: seq<Entry>, busy: Option<nat>) {
    forall k :: 0 <= k < |entries| ==> Backed(results, entries[k], busy)
  }

  predicate ReportInv(s: State) {
    && (forall p :: 0 <= p < |s.previews| && s.previews[p].result.Some? ==>
          AllBacked(s.results, s.previews[p].result.value, Busy(s.pc)))
    && (match s.pc
        case Idle => true
        case Walk(_, done) => AllBacked(s.results, done, None)
        case Move(_, done, row) => AllBacked(s.results, done, Some(row))
        case Settle(_, done, row, _) => AllBacked(s.results, done, Some(row)))
  }

  /** Rows that nobody works on keep what they say. */
  lemma BackedStays(before: seq<FileResult>, after: seq<FileResult>, entries: seq<Entry>,
                    busy: Option<nat>, later: Option<nat>)
    requires AllBacked(before, entries, busy) && |before| <= |after|
    requires forall i :: 0 <= i < |before| && busy != Some(i) ==> after[i] == before[i] && later != Some(i)
    ensures AllBacked(after, entries, later)
  {
    forall k | 0 <= k < |entries|
      ensures Backed(after, entries[k], later)
    {
      assert Backed(before, entries[k], busy);
      var i :| 0 <= i < |before| && busy != Some(i)
               && before[i].recording == entries[k].recording && before[i].state == entries[k].state;
      assert after[i] == before[i];
    }
  }

  lemma {:induction false} FoundOwn(results: seq<FileResult>, p: nat, recording: nat)
    ensures FindOwn(results, p, recording).Some? ==>
              Backed(results, Entry(recording, FindOwn(results, p, recording).value), None)
    ensures FindUnresolved(results, recording).Some? ==>
              Backed(results, Entry(recording, FindUnresolved(results, recording).value), None)
  {
    if results != [] {
      FoundOwn(results[1..], p, recording);
      forall entry | Backed(results[1..], entry, None)
        ensures Backed(results, entry, None)
      {
        var i :| 0 <= i < |results| - 1 && results[1..][i].recording == entry.recording
                 && results[1..][i].state == entry.state;
        assert results[i + 1] == results[1..][i];
      }
      assert Backed(results, Entry(results[0].recording, results[0].state), None);
    }
  }

  lemma IdleRowsStay(s: State, e: Event)
    ensures |s.results| <= |Step(s, e).results|
    ensures forall i :: 0 <= i < |s.results| && Busy(s.pc) != Some(i) ==>
              Step(s, e).results[i] == s.results[i] && Busy(Step(s, e).pc) != Some(i)
  {
  }

  lemma StoredReportsStay(s: State, e: Event, p: nat)
    requires ReportInv(s) && p < |s.previews| && s.previews[p].result.Some?
    ensures AllBacked(Step(s, e).results, s.previews[p].result.value, Busy(Step(s, e).pc))
  {
    IdleRowsStay(s, e);
    BackedStays(s.results, Step(s, e).results, s.previews[p].result.value, Busy(s.pc), Busy(Step(s, e).pc));
  }

  /** The entries collected so far. */
  function Collected(pc: Pc): seq<Entry> {
    match pc
    case Idle => []
    case Walk(_, done) => done
    case Move(_, done, _) => done
    case Settle(_, done, _, _) => done
  }

  lemma CollectedStay(s: State, e: Event)
    requires ReportInv(s)
    ensures AllBacked(Step(s, e).results, Collected(s.pc), Busy(Step(s, e).pc))
  {
    IdleRowsStay(s, e);
    BackedStays(s.results, Step(s, e).results, Collected(s.pc), Busy(s.pc), Busy(Step(s, e).pc));
  }

  /** The newest entry says what its row says. */
  lemma NewestIsBacked(s: State, e: Event)
    requires Inv(s)
    ensures var t := Step(s, e);
            |Collected(t.pc)| <= |Collected(s.pc)|
            || (Collected(t.pc)[..|Collected(s.pc)|] == Collected(s.pc) && |Collected(t.pc)| == |Collected(s.pc)| + 1
                && Backed(t.results, Collected(t.pc)[|Collected(s.pc)|], Busy(t.pc)))
  {
    var t := Step(s, e);
    if e.Next? && s.pc.Walk? && |s.pc.done| < |s.previews[s.pc.preview].snapshot| {
      FoundOwn(s.results, s.pc.preview, s.previews[s.pc.preview].snapshot[|s.pc.done|].recording);
      if t.pc.Walk? && |t.results| > |s.results| {
        assert t.results[|s.results|] == FileResult(s.pc.preview, t.pc.done[|s.pc.done|].recording, Drifted);
      }
    } else if e.Next? && s.pc.Settle? && t.pc.Walk? {
      assert t.results[s.pc.row].state == t.pc.done[|s.pc.done|].state;
    }
  }

  lemma CollectedAreBacked(s: State, e: Event)
    requires Inv(s) && ReportInv(s)
    ensures AllBacked(Step(s, e).results, Collected(Step(s, e).pc), Busy(Step(s, e).pc))
  {
    CollectedStay(s, e);
    NewestIsBacked(s, e);
  }

  /** A result is what was collected, and stays. */
  lemma ResultsComeFromCollected(s: State, e: Event, p: nat)
    requires Inv(s) && p < |Step(s, e).previews| && Step(s, e).previews[p].result.Some?
    ensures || (p < |s.previews| && Step(s, e).previews[p].result == s.previews[p].result)
            || (Step(s, e).previews[p].result == Some(Collected(s.pc)) && Busy(Step(s, e).pc).None?)
  {
    match e
    case TakePreview(_, _) =>
    case Confirm(_, _, _) =>
    case Next(_) =>
    case CutOff =>
    case Wait(_) =>
    case OthersWrite(_, _) =>
  }

  lemma StepKeepsReports(s: State, e: Event)
    requires Inv(s) && ReportInv(s)
    ensures ReportInv(Step(s, e))
  {
    var t := Step(s, e);
    CollectedAreBacked(s, e);
    CollectedStay(s, e);
    forall p | 0 <= p < |t.previews| && t.previews[p].result.Some?
      ensures AllBacked(t.results, t.previews[p].result.value, Busy(t.pc))
    {
      ResultsComeFromCollected(s, e, p);
      if p < |s.previews| && t.previews[p].result == s.previews[p].result {
        StoredReportsStay(s, e, p);
      }
    }
  }

  lemma {:induction false} RunKeepsReports(s: State, events: seq<Event>)
    requires Inv(s) && ReportInv(s)
    ensures ReportInv(Run(s, events))
    decreases |events|
  {
    if events != [] {
      StepKeepsInv(s, events[0]);
      StepKeepsReports(s, events[0]);
      RunKeepsReports(Step(s, events[0]), events[1..]);
    }
  }

  /** A finished confirmation reports one entry per snapshot item, in order, each with the state that a
      row of that recording still has. */
  lemma FinishedReportsAreTrue(s: State, events: seq<Event>, p: nat)
    requires Initial(s)
    ensures var t := Run(s, events);
            p < |t.previews| && t.previews[p].result.Some? ==>
              var entries := t.previews[p].result.value;
              && |entries| == |t.previews[p].snapshot|
              && (forall k :: 0 <= k < |entries| ==> entries[k].recording == t.previews[p].snapshot[k].recording)
              && AllBacked(t.results, entries, Busy(t.pc))
  {
    RunKeepsInv(s, events);
    RunKeepsReports(s, events);
    var t := Run(s, events);
    if p < |t.previews| {
      assert PreviewInv(t.previews[p]);
    }
  }

  /** A result never changes again: the same confirmation is answered with it, another one by nothing,
      and neither starts any work. */
  lemma {:induction false} ResultIsFinal(s: State, events: seq<Event>, p: nat)
    requires Inv(s) && p < |s.previews| && s.previews[p].result.Some?
    ensures var t := Run(s, events);
            p < |t.previews| && t.previews[p] == s.previews[p]
    ensures forall fingerprint, valid :: ConfirmStep(Run(s, events), p, fingerprint, valid) == Run(s, events)
    ensures forall fingerprint ::
              ReplayOf(Run(s, events), p, fingerprint)
              == if s.previews[p].fingerprint == Some(fingerprint) then s.previews[p].result else None
    decreases |events|
  {
    assert PreviewInv(s.previews[p]);
    if events != [] {
      StepKeepsInv(s, events[0]);
      ResultIsFinal(Step(s, events[0]), events[1..], p);
    }
  }

  /* ---- What a confirmation ends in ---- */

  /** A success is never recorded for a file that is still there. */
  lemma MovedMeansGone(s: State, events: seq<Event>, i: nat)
    requires Initial(s)
    ensures var t := Run(s, events);
            i < |t.results| && t.results[i].state.Moved? ==>
              var id := t.results[i].recording;
              id in t.recordings && t.recordings[id].deleted && !t.recordings[id].inPlace
  {
    RunKeepsInv(s, events);
  }

  /** A preview is taken exactly of different recordings that are completed, linked, durable and not deleted,
      and holds what they are at that time. */
  lemma PreviewIsTakenExactly(s: State, ids: seq<nat>, ttl: nat)
    ensures var t := Step(s, TakePreview(ids, ttl));
            if && (forall i, j :: 0 <= i < j < |ids| ==> ids[i] != ids[j])
               && (forall i :: 0 <= i < |ids| ==>
                     && ids[i] in s.recordings
                     && var r := s.recordings[ids[i]]; r.completed && r.durable && r.link != "" && !r.deleted)
            then
              && |t.previews| == |s.previews| + 1 && t.previews[..|s.previews|] == s.previews
              && var preview := t.previews[|s.previews|];
              && preview.status == Pending && preview.expires == s.now + ttl
              && preview.fingerprint.None? && preview.result.None? && |preview.snapshot| == |ids|
              && forall i :: 0 <= i < |ids| ==>
                   && preview.snapshot[i].recording == ids[i] && ids[i] in s.recordings
                   && var r := s.recordings[ids[i]];
                      preview.snapshot[i] == Item(ids[i], r.version, r.path, r.link)
            else t == s
  {
  }

  /** A confirmation starts work exactly when it is valid and the preview is pending and unexpired, or was begun
      by the same confirmation and not brought to an end. A valid one that comes too late expires the preview. */
  lemma ConfirmationBeginsExactly(s: State, seconds: nat, p: nat, fingerprint: string, valid: bool)
    requires Inv(s) && s.pc == Idle && p < |s.previews|
    ensures var t, preview := Step(Step(s, Wait(seconds)), Confirm(p, fingerprint, valid)), s.previews[p];
            && t.results == s.results && t.recordings == s.recordings && t.requests == s.requests
            && |t.previews| == |s.previews|
            && (t.pc == Walk(p, []) <==>
                  valid && ((preview.status == Pending && s.now + seconds < preview.expires)
                            || (preview.status == Confirmed && preview.fingerprint == Some(fingerprint)
                                && preview.result.None?)))
            && (t.pc == Walk(p, []) ==>
                  t.previews[p].status == Confirmed && t.previews[p].fingerprint == Some(fingerprint))
            && (t.pc != Walk(p, []) ==>
                  && t.pc == Idle && t.previews[p].fingerprint == preview.fingerprint
                  && t.previews[p].status
                     == if valid && preview.status == Pending then Expired else preview.status)
  {
    assert PreviewInv(s.previews[p]);
  }

  /** A move that was asked for is recorded as it went: as a success exactly when the Disk took it and said so,
      and otherwise as a failure, even if the file has gone. */
  lemma MoveIsRecordedAsItWent(s: State, a: Answer)
    requires Inv(s) && s.pc.Move?
    ensures var row := s.pc.row;
            var id := s.results[row].recording;
            var t := Step(Step(s, Next(a)), Next(Ok));
            var state := if a.Ok? && s.recordings[id].inPlace then Moved else FailedMove;
            && t.pc == Walk(s.pc.preview, s.pc.done + [Entry(id, state)])
            && t.results == s.results[row := s.results[row].(state := state)]
            && t.requests == s.requests + [id]
            && id in t.recordings && t.recordings.Keys == s.recordings.Keys
            && t.recordings[id].deleted == (s.recordings[id].deleted || state == Moved)
            && t.recordings[id].inPlace == (s.recordings[id].inPlace && a.Refused?)
            && forall k :: k in s.recordings && k != id ==> t.recordings[k] == s.recordings[k]
  {
  }

  lemma {:induction false} NoOwnRow(results: seq<FileResult>, p: nat, recording: nat)
    ensures FindOwn(results, p, recording).None?
            <==> forall i :: 0 <= i < |results| ==> !(results[i].preview == p && results[i].recording == recording)
  {
    if results != [] {
      NoOwnRow(results[1..], p, recording);
      forall i | 1 <= i < |results|
        ensures results[i] == results[1..][i - 1]
      {
      }
      if FindOwn(results, p, recording).None? {
        forall i | 0 <= i < |results|
          ensures !(results[i].preview == p && results[i].recording == recording)
        {
          if i > 0 {
            assert results[1..][i - 1] == results[i];
          }
        }
      }
    }
  }

  /** The item in turn gets no further row, and is reported with the state of one, exactly when this preview has
      a row for it already, or any preview an open or successful one. */
  lemma ItemIsReportedExactlyWhenKnown(s: State)
    requires Inv(s) && s.pc.Walk? && |s.pc.done| < |s.previews[s.pc.preview].snapshot|
    ensures var p, done := s.pc.preview, s.pc.done;
            var id := s.previews[p].snapshot[|done|].recording;
            var t := Step(s, Next(Ok));
            if exists i :: 0 <= i < |s.results| && s.results[i].recording == id
                           && (s.results[i].preview == p || s.results[i].state in {Processing, Moved})
            then t.results == s.results && t.pc.Walk? && t.pc.preview == p && |t.pc.done| == |done| + 1
                 && t.pc.done[..|done|] == done && t.pc.done[|done|].recording == id
                 && Backed(s.results, t.pc.done[|done|], None)
            else |t.results| == |s.results| + 1
  {
    var p, done := s.pc.preview, s.pc.done;
    var id := s.previews[p].snapshot[|done|].recording;
    NoOwnRow(s.results, p, id);
    NothingUnresolved(s.results, id);
    FoundOwn(s.results, p, id);
  }

  /** A request or commit without an answer stops the confirmation; only a move leaves something behind. */
  lemma UnansweredStepStops(s: State, a: Answer)
    requires Inv(s) && (s.pc.Walk? || s.pc.Settle?) && a != Ok
    ensures Step(s, Next(a)) == s.(pc := Idle) == Step(s, CutOff)
  {
  }

  function Answers(n: nat): seq<Event> {
    seq(n, _ => Next(Ok))
  }

  lemma FirstAnswer(s: State, n: nat)
    requires n > 0
    ensures Run(s, Answers(n)) == Run(Step(s, Next(Ok)), Answers(n - 1))
  {
    assert Answers(n)[1..] == Answers(n - 1);
  }

  /** How many answers a confirmation still needs at most. */
  function Needed(s: State): nat
    requires Inv(s)
  {
    match s.pc
    case Idle => 0
    case Walk(p, done) => 3 * (|s.previews[p].snapshot| - |done|) + 1
    case Move(p, done, _) => 3 * (|s.previews[p].snapshot| - |done|)
    case Settle(p, done, _, _) => 3 * (|s.previews[p].snapshot| - |done|) - 1
  }

  lemma AnswerGetsOn(s: State)
    requires Inv(s) && s.pc != Idle
    ensures var t := Step(s, Next(Ok));
            && Inv(t) && Needed(t) < Needed(s)
            && match t.pc
               case Idle =>
                 s.pc.Walk? && |s.pc.done| == |s.previews[s.pc.preview].snapshot|
                 && t.previews[s.pc.preview].status == Finished && t.previews[s.pc.preview].result == Some(s.pc.done)
               case Walk(p, done) => s.pc.preview == p && Collected(s.pc) <= done
               case Move(p, done, _) => s.pc.preview == p && Collected(s.pc) == done
               case Settle(p, done, _, _) => s.pc.preview == p && Collected(s.pc) == done
  {
    StepKeepsInv(s, Next(Ok));
  }

  /** A confirmation that nothing disturbs comes to its end, and what it has collected is what it reports. */
  lemma {:induction false} UndisturbedConfirmationFinishes(s: State) returns (n: nat)
    requires Inv(s) && s.pc != Idle
    ensures var t := Run(s, Answers(n));
            && t.pc == Idle && s.pc.preview < |t.previews| && t.previews[s.pc.preview].status == Finished
            && t.previews[s.pc.preview].result.Some? && Collected(s.pc) <= t.previews[s.pc.preview].result.value
    decreases Needed(s)
  {
    AnswerGetsOn(s);
    var t := Step(s, Next(Ok));
    if t.pc == Idle {
      n := 1;
      FirstAnswer(s, 1);
    } else {
      var m := UndisturbedConfirmationFinishes(t);
      n := m + 1;
      FirstAnswer(s, n);
    }
  }

  /* ---- The service ---- */

  function Nexts(answers: seq<Answer>): seq<Event> {
    seq(|answers|, i requires 0 <= i < |answers| => Next(answers[i]))
  }

  lemma {:induction false} RunOneMore(s: State, events: seq<Event>, e: Event)
    ensures Run(s, events + [e]) == Step(Run(s, events), e)
    decreases |events|
  {
    if events == [] {
      assert events + [e] == [e] && [e][1..] == [];
    } else {
      assert (events + [e])[1..] == events[1..] + [e];
      RunOneMore(Step(s, events[0]), events[1..], e);
    }
  }

  class CleanupService {
    var now: nat
    var recordings: map<nat, Recording>
    var previews: seq<Preview>
    var results: seq<FileResult>
    var pc: Pc
    ghost var requests: seq<nat>

    ghost function View(): State
      reads this
    {
      State(now, recordings, previews, results, pc, requests)
    }

    constructor (recordings: map<nat, Recording>)
      requires forall id :: id in recordings ==> !recordings[id].deleted
      ensures Initial(View()) && this.recordings == recordings
    {
      now, previews, results, pc, requests := 0, [], [], Idle, [];
      this.recordings := recordings;
    }

    method BeginConfirm(p: nat, fingerprint: string, valid: bool) returns (replay: Option<seq<Entry>>)
      requires pc == Idle
      modifies this`previews, this`pc
      ensures View() == ConfirmStep(old(View()), p, fingerprint, valid)
      ensures replay == ReplayOf(old(View()), p, fingerprint)
    {
      replay := None;
      if p >= |previews| {
        return;
      }
      var preview := previews[p];
      if preview.fingerprint.Some? {
        if preview.fingerprint.value != fingerprint {
          return;
        }
        replay := preview.result;
        if replay.None? && preview.status.Confirmed? && valid {
          pc := Walk(p, []);
        }
      } else if preview.status.Pending? && valid {
        if preview.expires <= now {
          previews := previews[p := preview.(status := Expired)];
        } else {
          previews := previews[p := preview.(status := Confirmed, fingerprint := Some(fingerprint))];
          pc := Walk(p, []);
        }
      }
    }

    method ProcessItem(p: nat, done: seq<Entry>, item: Item)
      modifies this`results, this`pc
      ensures View() == WalkStep(old(View()), p, done, item)
    {
      var previous := FindOwn(results, p, item.recording);
      if previous.Some? {
        pc := Walk(p, done + [Entry(item.recording, previous.value)]);
        return;
      }
      var unresolved := FindUnresolved(results, item.recording);
      if unresolved.Some? {
        pc := Walk(p, done + [Entry(item.recording, unresolved.value)]);
        return;
      }
      if !Eligible(recordings, item) {
        results := results + [FileResult(p, item.recording, Drifted)];
        pc := Walk(p, done + [Entry(item.recording, Drifted)]);
        return;
      }
      results := results + [FileResult(p, item.recording, Processing)];
      pc := Move(p, done, |results| - 1);
    }

    method MoveToTrash(p: nat, done: seq<Entry>, row: nat, a: Answer)
      modifies this`recordings, this`pc, this`requests
      ensures View() == MoveStep(old(View()), p, done, row, a)
    {
      if row >= |results| || results[row].recording !in recordings {
        pc := Idle;
        return;
      }
      var id := results[row].recording;
      var r := recordings[id];
      requests := requests + [id];
      var effect := !a.Refused? && r.inPlace;
      if effect {
        recordings := recordings[id := r.(inPlace := false)];
      }
      pc := Settle(p, done, row, effect && a.Ok?);
    }

    method RecordOutcome(p: nat, done: seq<Entry>, row: nat, moved: bool, a: Answer)
      modifies this`recordings, this`results, this`pc
      ensures View() == SettleStep(old(View()), p, done, row, moved, a)
    {
      if !a.Ok? || row >= |results| || results[row].recording !in recordings {
        pc := Idle;
        return;
      }
      var id := results[row].recording;
      var state := if moved then Moved else FailedMove;
      if moved {
        recordings := recordings[id := recordings[id].(deleted := true)];
      }
      results := results[row := results[row].(state := state)];
      pc := Walk(p, done + [Entry(id, state)]);
    }

    method Advance(a: Answer)
      modifies this
      ensures View() == NextStep(old(View()), a)
    {
      match pc
      case Idle =>
      case Walk(p, done) =>
        if !a.Ok? || p >= |previews| {
          pc := Idle;
        } else if |done| < |previews[p].snapshot| {
          ProcessItem(p, done, previews[p].snapshot[|done|]);
        } else {
          previews := previews[p := previews[p].(status := Finished, result := Some(done))];
          pc := Idle;
        }
      case Move(p, done, row) => MoveToTrash(p, done, row, a);
      case Settle(p, done, row, moved) => RecordOutcome(p, done, row, moved, a);
    }

    /** The loop over the snapshot, for as long as answers come. */
    method WorkThrough(answers: seq<Answer>)
      modifies this
      ensures View() == Run(old(View()), Nexts(answers))
    {
      var n := 0;
      while n < |answers|
        invariant 0 <= n <= |answers|
        invariant View() == Run(old(View()), Nexts(answers[..n]))
      {
        assert Nexts(answers[..n + 1]) == Nexts(answers[..n]) + [Next(answers[n])];
        RunOneMore(old(View()), Nexts(answers[..n]), Next(answers[n]));
        Advance(answers[n]);
        n := n + 1;
      }
      assert answers[..n] == answers;
    }
  }
}

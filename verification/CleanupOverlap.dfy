/**
  Confirmations of cleanup previews that overlap (app/services/cleanup.py:94-246). The preview is locked
  only until the first commit, and the look at the rows of an item and the commit of its own row are two
  steps, so several confirmations can be at work, of one preview or of several that list the same
  recording.
*/
module CleanupOverlap {
  import opened Values
  import opened Cleanup

  /** A confirmation under way: looking at the next item, about to commit a row for it, with a committed
      row about to ask the Disk, or about to record the outcome. */
  datatype Progress =
    | Look(done: seq<Entry>)
    | Insert(done: seq<Entry>, item: Item, state: FileState)
    | Ask(done: seq<Entry>, row: nat)
    | Record(done: seq<Entry>, row: nat, moved: bool)
    | Over

  datatype Walker = Walker(preview: nat, at: Progress)

  /** The program counter of `s` is not used: each walker has its own. */
  datatype Crowd = Crowd(s: State, walkers: seq<Walker>)

  datatype CrowdEvent =
    | Enter(preview: nat, fingerprint: string, valid: bool)
    | Work(i: nat, answer: Answer)
    | Stop(i: nat)
    | Around(e: Event)

  function EnterStep(c: Crowd, p: nat, fingerprint: string, valid: bool): Crowd {
    var t := ConfirmStep(c.s.(pc := Idle), p, fingerprint, valid);
    Crowd(t.(pc := Idle), if t.pc.Walk? then c.walkers + [Walker(p, Look([]))] else c.walkers)
  }

  function GoTo(c: Crowd, i: nat, at: Progress): Crowd
    requires i < |c.walkers|
  {
    c.(walkers := c.walkers[i := c.walkers[i].(at := at)])
  }

  /** What the rows and the recording say about an item. */
  function Looked(s: State, p: nat, done: seq<Entry>, item: Item): Progress {
    var own := FindOwn(s.results, p, item.recording);
    var unresolved := FindUnresolved(s.results, item.recording);
    if own.Some? then Look(done + [Entry(item.recording, own.value)])
    else if unresolved.Some? then Look(done + [Entry(item.recording, unresolved.value)])
    else Insert(done, item, if Eligible(s.recordings, item) then Processing else Drifted)
  }

  function LookStep(c: Crowd, i: nat, done: seq<Entry>): Crowd
    requires i < |c.walkers|
  {
    var p := c.walkers[i].preview;
    if p >= |c.s.previews| then GoTo(c, i, Over)
    else if |done| < |c.s.previews[p].snapshot|
    then GoTo(c, i, Looked(c.s, p, done, c.s.previews[p].snapshot[|done|]))
    else
      var finished := c.s.previews[p].(status := Finished, result := Some(done));
      GoTo(c.(s := c.s.(previews := c.s.previews[p := finished])), i, Over)
  }

  /** A second row for the same preview and recording violates the unique constraint. */
  predicate Inserts(c: Crowd, i: nat) {
    && i < |c.walkers| && c.walkers[i].at.Insert?
    && FindOwn(c.s.results, c.walkers[i].preview, c.walkers[i].at.item.recording).None?
  }

  function InsertStep(c: Crowd, i: nat): Crowd
    requires i < |c.walkers| && c.walkers[i].at.Insert?
  {
    var at := c.walkers[i].at;
    if !Inserts(c, i) then GoTo(c, i, Over)
    else
      var row := FileResult(c.walkers[i].preview, at.item.recording, at.state);
      GoTo(c.(s := c.s.(results := c.s.results + [row])), i,
           if at.state.Processing? then Ask(at.done, |c.s.results|)
           else Look(at.done + [Entry(at.item.recording, at.state)]))
  }

  /** The Disk refuses to move a file that is not there. */
  function AskStep(c: Crowd, i: nat, row: nat, a: Answer): Crowd
    requires i < |c.walkers| && c.walkers[i].at.Ask?
  {
    var s, done := c.s, c.walkers[i].at.done;
    if row >= |s.results| || s.results[row].recording !in s.recordings then GoTo(c, i, Over)
    else
      var id := s.results[row].recording;
      var asked := s.(requests := s.requests + [id]);
      if a.Refused? || !s.recordings[id].inPlace then GoTo(c.(s := asked), i, Record(done, row, false))
      else
        GoTo(c.(s := asked.(recordings := s.recordings[id := s.recordings[id].(inPlace := false)])), i,
             Record(done, row, a.Ok?))
  }

  function RecordStep(c: Crowd, i: nat, row: nat, moved: bool): Crowd
    requires i < |c.walkers| && c.walkers[i].at.Record?
  {
    var s, done := c.s, c.walkers[i].at.done;
    if row >= |s.results| || s.results[row].recording !in s.recordings then GoTo(c, i, Over)
    else
      var id := s.results[row].recording;
      var state := if moved then Moved else FailedMove;
      GoTo(c.(s := s.(results := s.results[row := s.results[row].(state := state)],
                      recordings := if moved then s.recordings[id := s.recordings[id].(deleted := true)]
                                    else s.recordings)),
           i, Look(done + [Entry(id, state)]))
  }

  function WorkStep(c: Crowd, i: nat, a: Answer): Crowd {
    if i >= |c.walkers| then c
    else
      match c.walkers[i].at
      case Look(done) => if a.Ok? then LookStep(c, i, done) else GoTo(c, i, Over)
      case Insert(_, _, _) => if a.Ok? then InsertStep(c, i) else GoTo(c, i, Over)
      case Ask(_, row) => AskStep(c, i, row, a)
      case Record(_, row, moved) => if a.Ok? then RecordStep(c, i, row, moved) else GoTo(c, i, Over)
      case Over => c
  }

  function CrowdStep(c: Crowd, e: CrowdEvent): Crowd {
    match e
    case Enter(p, fingerprint, valid) => EnterStep(c, p, fingerprint, valid)
    case Work(i, a) => WorkStep(c, i, a)
    case Stop(i) => if i < |c.walkers| then GoTo(c, i, Over) else c
    case Around(other) =>
      if other.TakePreview? || other.Wait? || other.OthersWrite? then c.(s := Step(c.s, other)) else c
  }

  function CrowdRun(c: Crowd, events: seq<CrowdEvent>): Crowd
    decreases |events|
  {
    if events == [] then c else CrowdRun(CrowdStep(c, events[0]), events[1..])
  }

  predicate CrowdInitial(c: Crowd) {
    Initial(c.s) && c.walkers == []
  }

  /* ---- What every step keeps ---- */

  /** The row that a confirmation works on. */
  function RowOf(at: Progress): Option<nat> {
    match at
    case Ask(_, row) => Some(row)
    case Record(_, row, _) => Some(row)
    case _ => None
  }

  predicate Gone(s: State, id: nat) {
    id in s.recordings && !s.recordings[id].inPlace
  }

  predicate KnowsOf(at: Progress, row: nat) {
    at.Record? && at.row == row && at.moved
  }

  /** A row that was moved, or whose confirmation knows that it was. */
  predicate Succeeded(c: Crowd, row: nat) {
    row < |c.s.results|
    && (c.s.results[row].state.Moved?
        || exists i :: 0 <= i < |c.walkers| && KnowsOf(c.walkers[i].at, row))
  }

  predicate WorkersInv(c: Crowd) {
    forall i :: 0 <= i < |c.walkers| ==> WorkerInv(c.s, c.walkers[i].at)
  }

  predicate WorkerInv(s: State, at: Progress) {
    RowOf(at).Some? ==>
      var row := RowOf(at).value;
      row < |s.results| && s.results[row].state.Processing? && s.results[row].recording in s.recordings
  }

  /** Nobody works on somebody else's row. */
  predicate OwnRows(walkers: seq<Walker>) {
    forall i, j :: 0 <= i < j < |walkers| && RowOf(walkers[i].at).Some? ==> RowOf(walkers[i].at) != RowOf(walkers[j].at)
  }

  predicate MovedInv(s: State) {
    forall row :: 0 <= row < |s.results| && s.results[row].state.Moved? ==>
      s.results[row].recording in s.recordings && s.recordings[s.results[row].recording].deleted
  }

  /** Every success left the Disk without the file, and no two are of the same recording. */
  ghost predicate SuccessInv(c: Crowd) {
    && (forall row: nat :: Succeeded(c, row) ==> Gone(c.s, c.s.results[row].recording))
    && (forall row: nat, other: nat :: row != other && Succeeded(c, row) && Succeeded(c, other) ==>
          c.s.results[row].recording != c.s.results[other].recording)
  }

  ghost predicate CrowdInv(c: Crowd) {
    WorkersInv(c) && OwnRows(c.walkers) && MovedInv(c.s) && SuccessInv(c)
  }

  /** Successes are what they were, and files that are gone stay gone. */
  ghost predicate SameSuccesses(c: Crowd, d: Crowd) {
    && |c.s.results| <= |d.s.results|
    && (forall row: nat :: Succeeded(d, row) ==> Succeeded(c, row))
    && (forall row :: 0 <= row < |c.s.results| ==> d.s.results[row].recording == c.s.results[row].recording)
    && (forall id :: Gone(c.s, id) ==> Gone(d.s, id))
  }

  lemma SuccessesStay(c: Crowd, d: Crowd)
    requires SuccessInv(c) && SameSuccesses(c, d)
    ensures SuccessInv(d)
  {
  }

  /** A walker that holds no proof of a move goes on to another point that holds none. */
  lemma GoToKeepsSuccesses(c: Crowd, i: nat, at: Progress)
    requires i < |c.walkers| && !(at.Record? && at.moved)
    ensures SameSuccesses(c, GoTo(c, i, at))
  {
    var d := GoTo(c, i, at);
    forall row: nat | Succeeded(d, row)
      ensures Succeeded(c, row)
    {
      if !d.s.results[row].state.Moved? {
        var k :| 0 <= k < |d.walkers| && KnowsOf(d.walkers[k].at, row);
        assert c.walkers[k] == d.walkers[k];
      }
    }
  }

  lemma GoToKeepsWorkers(c: Crowd, i: nat, at: Progress)
    requires WorkersInv(c) && OwnRows(c.walkers) && i < |c.walkers|
    requires WorkerInv(c.s, at) && (RowOf(at).Some? ==> RowOf(at) == RowOf(c.walkers[i].at))
    ensures WorkersInv(GoTo(c, i, at)) && OwnRows(GoTo(c, i, at).walkers)
  {
  }

  lemma GoToKeepsInv(c: Crowd, i: nat, at: Progress)
    requires CrowdInv(c) && i < |c.walkers| && RowOf(at).None?
    ensures CrowdInv(GoTo(c, i, at))
  {
    GoToKeepsWorkers(c, i, at);
    GoToKeepsSuccesses(c, i, at);
    SuccessesStay(c, GoTo(c, i, at));
  }

  lemma NewRowKeepsInv(c: Crowd, row: FileResult)
    requires CrowdInv(c) && !row.state.Moved?
    ensures CrowdInv(c.(s := c.s.(results := c.s.results + [row])))
  {
    var d := c.(s := c.s.(results := c.s.results + [row]));
    forall k | 0 <= k < |d.walkers|
      ensures WorkerInv(d.s, d.walkers[k].at)
    {
      assert WorkerInv(c.s, c.walkers[k].at);
    }
    forall k: nat | Succeeded(d, k)
      ensures Succeeded(c, k)
    {
      if !d.s.results[k].state.Moved? {
        var w :| 0 <= w < |d.walkers| && KnowsOf(d.walkers[w].at, k);
        assert WorkerInv(c.s, c.walkers[w].at);
      }
    }
    SuccessesStay(c, d);
  }

  /** The row that was just committed is nobody else's. */
  lemma AskingKeepsInv(c: Crowd, i: nat, done: seq<Entry>)
    requires CrowdInv(c) && i < |c.walkers| && RowOf(c.walkers[i].at).None? && c.s.results != []
    requires c.s.results[|c.s.results| - 1].state.Processing?
    requires c.s.results[|c.s.results| - 1].recording in c.s.recordings
    requires forall k :: 0 <= k < |c.walkers| ==> RowOf(c.walkers[k].at) != Some(|c.s.results| - 1)
    ensures CrowdInv(GoTo(c, i, Ask(done, |c.s.results| - 1)))
  {
    var d := GoTo(c, i, Ask(done, |c.s.results| - 1));
    forall k | 0 <= k < |d.walkers|
      ensures WorkerInv(d.s, d.walkers[k].at)
    {
      if k != i {
        assert WorkerInv(c.s, c.walkers[k].at);
      }
    }
    GoToKeepsSuccesses(c, i, Ask(done, |c.s.results| - 1));
    SuccessesStay(c, d);
  }

  /** A row marked as processing is committed only for a recording that exists. */
  predicate InsertInv(c: Crowd) {
    forall i :: 0 <= i < |c.walkers| && c.walkers[i].at.Insert? ==> PendingInv(c.s, c.walkers[i].at)
  }

  predicate PendingInv(s: State, at: Progress)
    requires at.Insert?
  {
    && at.state in {Processing, Drifted}
    && (at.state.Processing? ==> at.item.recording in s.recordings)
  }

  lemma InsertKeepsInv(c: Crowd, i: nat)
    requires CrowdInv(c) && InsertInv(c) && i < |c.walkers| && c.walkers[i].at.Insert?
    ensures CrowdInv(InsertStep(c, i))
  {
    var at := c.walkers[i].at;
    assert PendingInv(c.s, at);
    if !Inserts(c, i) {
      GoToKeepsInv(c, i, Over);
    } else {
      var row := FileResult(c.walkers[i].preview, at.item.recording, at.state);
      var d := c.(s := c.s.(results := c.s.results + [row]));
      NewRowKeepsInv(c, row);
      if at.state.Processing? {
        forall k | 0 <= k < |d.walkers|
          ensures RowOf(d.walkers[k].at) != Some(|d.s.results| - 1)
        {
          assert WorkerInv(c.s, c.walkers[k].at);
        }
        AskingKeepsInv(d, i, at.done);
      } else {
        GoToKeepsInv(d, i, Look(at.done + [Entry(at.item.recording, at.state)]));
      }
    }
  }

  lemma LookKeepsInv(c: Crowd, i: nat, done: seq<Entry>)
    requires CrowdInv(c) && i < |c.walkers|
    ensures CrowdInv(LookStep(c, i, done))
  {
    var p := c.walkers[i].preview;
    if p >= |c.s.previews| {
      GoToKeepsInv(c, i, Over);
    } else if |done| < |c.s.previews[p].snapshot| {
      GoToKeepsInv(c, i, Looked(c.s, p, done, c.s.previews[p].snapshot[|done|]));
    } else {
      var finished := c.s.previews[p].(status := Finished, result := Some(done));
      PreviewsKeepInv(c, c.s.(previews := c.s.previews[p := finished]));
      GoToKeepsInv(c.(s := c.s.(previews := c.s.previews[p := finished])), i, Over);
    }
  }

  /** Rows and recordings stay, as far as the invariant looks at them. */
  lemma PreviewsKeepInv(c: Crowd, s: State)
    requires CrowdInv(c) && s.results == c.s.results
    requires forall id :: id in c.s.recordings ==>
               id in s.recordings && s.recordings[id].inPlace == c.s.recordings[id].inPlace
               && s.recordings[id].deleted == c.s.recordings[id].deleted
    ensures CrowdInv(c.(s := s))
  {
    var d := c.(s := s);
    forall k | 0 <= k < |d.walkers|
      ensures WorkerInv(d.s, d.walkers[k].at)
    {
      assert WorkerInv(c.s, c.walkers[k].at);
    }
    forall row: nat | Succeeded(d, row)
      ensures Succeeded(c, row)
    {
    }
    SuccessesStay(c, d);
  }

  /** Asking the Disk without success, or without an answer. */
  lemma FruitlessAskKeepsInv(c: Crowd, i: nat, row: nat, recordings: map<nat, Recording>, requests: seq<nat>)
    requires CrowdInv(c) && i < |c.walkers| && c.walkers[i].at.Ask? && c.walkers[i].at.row == row
    requires forall id :: id in c.s.recordings ==>
               id in recordings && recordings[id].deleted == c.s.recordings[id].deleted
               && (recordings[id].inPlace ==> c.s.recordings[id].inPlace)
    ensures CrowdInv(GoTo(c.(s := c.s.(requests := requests, recordings := recordings)), i,
                          Record(c.walkers[i].at.done, row, false)))
  {
    var b := c.(s := c.s.(requests := requests, recordings := recordings));
    forall k | 0 <= k < |b.walkers|
      ensures WorkerInv(b.s, b.walkers[k].at)
    {
      assert WorkerInv(c.s, c.walkers[k].at);
    }
    forall k: nat | Succeeded(b, k)
      ensures Succeeded(c, k)
    {
    }
    SuccessesStay(c, b);
    var d := GoTo(b, i, Record(c.walkers[i].at.done, row, false));
    GoToKeepsWorkers(b, i, Record(c.walkers[i].at.done, row, false));
    GoToKeepsSuccesses(b, i, Record(c.walkers[i].at.done, row, false));
    SuccessesStay(b, d);
  }

  /** The one success: the file was there, so no other row of the recording has succeeded. */
  lemma MoveKeepsInv(c: Crowd, i: nat, row: nat, requests: seq<nat>)
    requires CrowdInv(c) && i < |c.walkers| && c.walkers[i].at.Ask? && c.walkers[i].at.row == row
    requires row < |c.s.results| && c.s.results[row].recording in c.s.recordings
    requires c.s.recordings[c.s.results[row].recording].inPlace
    ensures var id := c.s.results[row].recording;
            CrowdInv(GoTo(c.(s := c.s.(requests := requests,
                                       recordings := c.s.recordings[id := c.s.recordings[id].(inPlace := false)])),
                          i, Record(c.walkers[i].at.done, row, true)))
  {
    var id := c.s.results[row].recording;
    var recordings := c.s.recordings[id := c.s.recordings[id].(inPlace := false)];
    var b := c.(s := c.s.(requests := requests, recordings := recordings));
    var d := GoTo(b, i, Record(c.walkers[i].at.done, row, true));
    forall k | 0 <= k < |b.walkers|
      ensures WorkerInv(b.s, b.walkers[k].at)
    {
      assert WorkerInv(c.s, c.walkers[k].at);
    }
    GoToKeepsWorkers(b, i, Record(c.walkers[i].at.done, row, true));
    forall k: nat | Succeeded(d, k)
      ensures k == row || (Succeeded(c, k) && c.s.results[k].recording != id)
    {
      if k != row && !d.s.results[k].state.Moved? {
        var w :| 0 <= w < |d.walkers| && KnowsOf(d.walkers[w].at, k);
        assert c.walkers[w] == d.walkers[w];
      }
      if k != row {
        assert Succeeded(c, k);
      }
    }
  }

  lemma AskKeepsInv(c: Crowd, i: nat, row: nat, a: Answer)
    requires CrowdInv(c) && i < |c.walkers| && c.walkers[i].at.Ask? && c.walkers[i].at.row == row
    ensures CrowdInv(AskStep(c, i, row, a))
  {
    assert WorkerInv(c.s, c.walkers[i].at);
    var id := c.s.results[row].recording;
    var requests := c.s.requests + [id];
    if a.Refused? || !c.s.recordings[id].inPlace {
      FruitlessAskKeepsInv(c, i, row, c.s.recordings, requests);
    } else if a.Ok? {
      MoveKeepsInv(c, i, row, requests);
    } else {
      FruitlessAskKeepsInv(c, i, row, c.s.recordings[id := c.s.recordings[id].(inPlace := false)], requests);
    }
  }

  lemma RecordKeepsInv(c: Crowd, i: nat, row: nat, moved: bool)
    requires CrowdInv(c) && i < |c.walkers| && c.walkers[i].at.Record?
    requires c.walkers[i].at.row == row && c.walkers[i].at.moved == moved
    ensures CrowdInv(RecordStep(c, i, row, moved))
  {
    assert WorkerInv(c.s, c.walkers[i].at);
    var d := RecordStep(c, i, row, moved);
    forall k | 0 <= k < |d.walkers|
      ensures WorkerInv(d.s, d.walkers[k].at)
    {
      if k != i {
        assert WorkerInv(c.s, c.walkers[k].at);
        assert RowOf(c.walkers[k].at) != Some(row);
      }
    }
    forall k: nat | Succeeded(d, k)
      ensures Succeeded(c, k)
    {
      if !d.s.results[k].state.Moved? {
        var w :| 0 <= w < |d.walkers| && KnowsOf(d.walkers[w].at, k);
        assert c.walkers[w] == d.walkers[w];
      } else if k == row {
        assert KnowsOf(c.walkers[i].at, row);
      }
    }
    SuccessesStay(c, d);
  }

  lemma WorkKeepsInv(c: Crowd, i: nat, a: Answer)
    requires CrowdInv(c) && InsertInv(c) && i < |c.walkers|
    ensures CrowdInv(WorkStep(c, i, a))
  {
    match c.walkers[i].at
    case Look(done) =>
      if a.Ok? {
        LookKeepsInv(c, i, done);
      } else {
        GoToKeepsInv(c, i, Over);
      }
    case Insert(_, _, _) =>
      if a.Ok? {
        InsertKeepsInv(c, i);
      } else {
        GoToKeepsInv(c, i, Over);
      }
    case Ask(_, row) => AskKeepsInv(c, i, row, a);
    case Record(_, row, moved) =>
      if a.Ok? {
        RecordKeepsInv(c, i, row, moved);
      } else {
        GoToKeepsInv(c, i, Over);
      }
    case Over =>
  }

  ghost predicate Inv(c: Crowd) {
    CrowdInv(c) && InsertInv(c)
  }

  predicate SameRecordings(s: State, t: State) {
    forall id :: id in s.recordings ==> id in t.recordings
  }

  lemma WorkKeepsRecordings(c: Crowd, i: nat, a: Answer)
    ensures SameRecordings(c.s, WorkStep(c, i, a).s)
    ensures |WorkStep(c, i, a).walkers| == |c.walkers|
    ensures forall k :: 0 <= k < |c.walkers| && k != i ==> WorkStep(c, i, a).walkers[k] == c.walkers[k]
  {
  }

  lemma OwnInsertIsPending(c: Crowd, i: nat, a: Answer)
    requires InsertInv(c) && i < |c.walkers| && WorkStep(c, i, a).walkers[i].at.Insert?
    ensures PendingInv(WorkStep(c, i, a).s, WorkStep(c, i, a).walkers[i].at)
  {
    match c.walkers[i].at
    case Look(_) =>
    case Insert(_, _, _) =>
    case Ask(_, _) =>
    case Record(_, _, _) =>
    case Over =>
  }

  lemma WorkKeepsInsertInv(c: Crowd, i: nat, a: Answer)
    requires InsertInv(c) && i < |c.walkers|
    ensures InsertInv(WorkStep(c, i, a))
  {
    var d := WorkStep(c, i, a);
    WorkKeepsRecordings(c, i, a);
    forall k | 0 <= k < |d.walkers| && d.walkers[k].at.Insert?
      ensures PendingInv(d.s, d.walkers[k].at)
    {
      if k == i {
        OwnInsertIsPending(c, i, a);
      } else {
        assert PendingInv(c.s, c.walkers[k].at);
      }
    }
  }

  lemma EnterKeepsInv(c: Crowd, p: nat, fingerprint: string, valid: bool)
    requires Inv(c)
    ensures Inv(EnterStep(c, p, fingerprint, valid))
  {
    var t := ConfirmStep(c.s.(pc := Idle), p, fingerprint, valid).(pc := Idle);
    PreviewsKeepInv(c, t);
    var b := c.(s := t);
    var d := EnterStep(c, p, fingerprint, valid);
    assert d.walkers == b.walkers || d.walkers == b.walkers + [Walker(p, Look([]))];
    forall row: nat | Succeeded(d, row)
      ensures Succeeded(b, row)
    {
      if !d.s.results[row].state.Moved? {
        var w :| 0 <= w < |d.walkers| && KnowsOf(d.walkers[w].at, row);
        assert b.walkers[w] == d.walkers[w];
      }
    }
    SuccessesStay(b, d);
  }

  lemma AroundKeepsInv(c: Crowd, e: Event)
    requires Inv(c) && (e.TakePreview? || e.Wait? || e.OthersWrite?)
    ensures Inv(c.(s := Step(c.s, e)))
  {
    PreviewsKeepInv(c, Step(c.s, e));
  }

  lemma CrowdStepKeepsInv(c: Crowd, e: CrowdEvent)
    requires Inv(c)
    ensures Inv(CrowdStep(c, e))
  {
    match e
    case Enter(p, fingerprint, valid) => EnterKeepsInv(c, p, fingerprint, valid);
    case Work(i, a) =>
      if i < |c.walkers| {
        WorkKeepsInv(c, i, a);
        WorkKeepsInsertInv(c, i, a);
      }
    case Stop(i) =>
      if i < |c.walkers| {
        GoToKeepsInv(c, i, Over);
      }
    case Around(other) =>
      if other.TakePreview? || other.Wait? || other.OthersWrite? {
        AroundKeepsInv(c, other);
      }
  }

  lemma {:induction false} CrowdRunKeepsInv(c: Crowd, events: seq<CrowdEvent>)
    requires Inv(c)
    ensures Inv(CrowdRun(c, events))
    decreases |events|
  {
    if events != [] {
      CrowdStepKeepsInv(c, events[0]);
      CrowdRunKeepsInv(CrowdStep(c, events[0]), events[1..]);
    }
  }

  /* ---- Moved at most once ---- */

  /** However confirmations overlap: each recording has at most one successful move over all previews, is
      then marked deleted, and its source is gone. */
  lemma MovedAtMostOnceInOverlap(c: Crowd, events: seq<CrowdEvent>, i: nat, j: nat)
    requires CrowdInitial(c)
    ensures var s := CrowdRun(c, events).s;
            && (i < j < |s.results| && s.results[i].state.Moved? && s.results[j].state.Moved? ==>
                  s.results[i].recording != s.results[j].recording)
            && (i < |s.results| && s.results[i].state.Moved? ==>
                  && s.results[i].recording in s.recordings
                  && s.recordings[s.results[i].recording].deleted && !s.recordings[s.results[i].recording].inPlace)
  {
    CrowdRunKeepsInv(c, events);
    var d := CrowdRun(c, events);
    if i < |d.s.results| && d.s.results[i].state.Moved? {
      assert Succeeded(d, i);
      if i < j < |d.s.results| && d.s.results[j].state.Moved? {
        assert Succeeded(d, j);
      }
    }
  }

  /* ---- Asked at most once ---- */

  /** A confirmation commits its row although another one has committed an open row for the recording since
      it looked. */
  predicate Races(c: Crowd, e: CrowdEvent) {
    && e.Work? && e.answer.Ok? && Inserts(c, e.i) && c.walkers[e.i].at.state.Processing?
    && FindUnresolved(c.s.results, c.walkers[e.i].at.item.recording).Some?
  }

  /** Rows are added at the end, and an open row keeps its recording. */
  predicate RowsGoOn(before: seq<FileResult>, after: seq<FileResult>) {
    && |before| <= |after|
    && forall k :: 0 <= k < |before| ==>
         after[k].recording == before[k].recording && (Unresolved(after[k].state) ==> Unresolved(before[k].state))
  }

  lemma RowsGoOnUnresolved(before: seq<FileResult>, after: seq<FileResult>)
    requires RowsGoOn(before, after) && |after| == |before| && OneUnresolved(before)
    ensures OneUnresolved(after)
  {
  }

  lemma MostWorkAddsNoRow(c: Crowd, i: nat, a: Answer)
    requires CrowdInv(c) && i < |c.walkers| && !(a.Ok? && Inserts(c, i))
    ensures RowsGoOn(c.s.results, WorkStep(c, i, a).s.results)
    ensures |WorkStep(c, i, a).s.results| == |c.s.results|
  {
    assert WorkerInv(c.s, c.walkers[i].at);
    match c.walkers[i].at
    case Look(_) =>
    case Insert(_, _, _) =>
    case Ask(_, _) =>
    case Record(_, _, _) =>
    case Over =>
  }

  lemma InsertAddsRow(c: Crowd, i: nat)
    requires Inserts(c, i)
    ensures WorkStep(c, i, Ok).s.results
            == c.s.results + [FileResult(c.walkers[i].preview, c.walkers[i].at.item.recording, c.walkers[i].at.state)]
  {
  }

  lemma NewRowDoublesExactly(results: seq<FileResult>, row: FileResult)
    requires OneUnresolved(results)
    ensures OneUnresolved(results + [row])
            <==> !(Unresolved(row.state) && FindUnresolved(results, row.recording).Some?)
  {
    NothingUnresolved(results, row.recording);
    var more := results + [row];
    if Unresolved(row.state) && FindUnresolved(results, row.recording).Some? {
      var k :| 0 <= k < |results| && results[k].recording == row.recording && Unresolved(results[k].state);
      assert more[k] == results[k] && more[|results|] == row;
    } else {
      forall i, j | 0 <= i < j < |more| && Unresolved(more[i].state) && Unresolved(more[j].state)
        ensures more[i].recording != more[j].recording
      {
        assert more[i] == results[i];
        if j < |results| {
          assert more[j] == results[j];
        }
      }
    }
  }

  /** Two open or successful rows for one recording arise exactly by such a commit. */
  lemma RowsDoubleExactlyByRaces(c: Crowd, e: CrowdEvent)
    requires Inv(c) && OneUnresolved(c.s.results)
    ensures !OneUnresolved(CrowdStep(c, e).s.results) <==> Races(c, e)
  {
    match e
    case Enter(_, _, _) =>
    case Work(i, a) =>
      if a.Ok? && Inserts(c, i) {
        InsertAddsRow(c, i);
        assert PendingInv(c.s, c.walkers[i].at);
        NewRowDoublesExactly(c.s.results,
          FileResult(c.walkers[i].preview, c.walkers[i].at.item.recording, c.walkers[i].at.state));
      } else if i < |c.walkers| {
        MostWorkAddsNoRow(c, i, a);
        RowsGoOnUnresolved(c.s.results, WorkStep(c, i, a).s.results);
      }
    case Stop(_) =>
    case Around(_) =>
  }

  predicate NothingRaces(c: Crowd, events: seq<CrowdEvent>)
    decreases |events|
  {
    events == [] || (!Races(c, events[0]) && NothingRaces(CrowdStep(c, events[0]), events[1..]))
  }

  predicate OneRowThroughout(c: Crowd, events: seq<CrowdEvent>)
    decreases |events|
  {
    OneUnresolved(c.s.results) && (events != [] ==> OneRowThroughout(CrowdStep(c, events[0]), events[1..]))
  }

  lemma {:induction false} OneRowExactly(c: Crowd, events: seq<CrowdEvent>)
    requires Inv(c) && OneUnresolved(c.s.results)
    ensures OneRowThroughout(c, events) <==> NothingRaces(c, events)
    decreases |events|
  {
    if events != [] {
      RowsDoubleExactlyByRaces(c, events[0]);
      CrowdStepKeepsInv(c, events[0]);
      if !Races(c, events[0]) {
        OneRowExactly(CrowdStep(c, events[0]), events[1..]);
      }
    }
  }

  /** A recording has at most one open or successful row at every moment exactly when no confirmation races
      another one between its look and its commit. */
  lemma OneRowExactlyWithoutRaces(c: Crowd, events: seq<CrowdEvent>)
    requires CrowdInitial(c)
    ensures OneRowThroughout(c, events) <==> NothingRaces(c, events)
  {
    OneRowExactly(c, events);
  }

  /** An open or successful row that nobody works on. */
  predicate Done(c: Crowd, row: nat) {
    && row < |c.s.results| && Unresolved(c.s.results[row].state)
    && forall i :: 0 <= i < |c.walkers| ==> RowOf(c.walkers[i].at) != Some(row)
  }

  lemma AskedRowIsAnother(c: Crowd, row: nat, i: nat)
    requires Inv(c) && OneUnresolved(c.s.results) && Done(c, row) && i < |c.walkers| && c.walkers[i].at.Ask?
    ensures c.walkers[i].at.row < |c.s.results|
    ensures c.s.results[c.walkers[i].at.row].recording != c.s.results[row].recording
  {
    assert WorkerInv(c.s, c.walkers[i].at);
    assert RowOf(c.walkers[i].at) != Some(row);
  }

  /** The row stays, nobody takes it up, and its recording is not asked for. */
  predicate LeavesDone(c: Crowd, d: Crowd, row: nat)
    requires row < |c.s.results|
  {
    && Done(d, row) && d.s.results[row] == c.s.results[row]
    && CountOf(d.s.requests, c.s.results[row].recording) == CountOf(c.s.requests, c.s.results[row].recording)
  }

  lemma GoToLeavesDone(c: Crowd, s: State, i: nat, at: Progress, row: nat)
    requires Done(c, row) && i < |c.walkers| && RowOf(at) != Some(row)
    requires row < |s.results| && s.results[row] == c.s.results[row]
    requires CountOf(s.requests, c.s.results[row].recording) == CountOf(c.s.requests, c.s.results[row].recording)
    ensures LeavesDone(c, GoTo(c.(s := s), i, at), row)
  {
    var d := GoTo(c.(s := s), i, at);
    forall k | 0 <= k < |d.walkers|
      ensures RowOf(d.walkers[k].at) != Some(row)
    {
      assert k != i ==> d.walkers[k] == c.walkers[k];
    }
  }

  lemma LookLeavesDone(c: Crowd, i: nat, done: seq<Entry>, row: nat)
    requires Done(c, row) && i < |c.walkers|
    ensures LeavesDone(c, LookStep(c, i, done), row)
  {
    var p := c.walkers[i].preview;
    if p < |c.s.previews| && |done| >= |c.s.previews[p].snapshot| {
      var finished := c.s.previews[p].(status := Finished, result := Some(done));
      GoToLeavesDone(c, c.s.(previews := c.s.previews[p := finished]), i, Over, row);
    } else if p < |c.s.previews| {
      GoToLeavesDone(c, c.s, i, Looked(c.s, p, done, c.s.previews[p].snapshot[|done|]), row);
    } else {
      GoToLeavesDone(c, c.s, i, Over, row);
    }
  }

  lemma InsertLeavesDone(c: Crowd, i: nat, row: nat)
    requires Done(c, row) && i < |c.walkers| && c.walkers[i].at.Insert?
    ensures LeavesDone(c, InsertStep(c, i), row)
  {
    var at := c.walkers[i].at;
    if Inserts(c, i) {
      var s := c.s.(results := c.s.results + [FileResult(c.walkers[i].preview, at.item.recording, at.state)]);
      GoToLeavesDone(c, s, i, if at.state.Processing? then Ask(at.done, |c.s.results|)
                              else Look(at.done + [Entry(at.item.recording, at.state)]), row);
    } else {
      GoToLeavesDone(c, c.s, i, Over, row);
    }
  }

  lemma CountOneMore(requests: seq<nat>, id: nat, other: nat)
    ensures CountOf(requests + [other], id) == CountOf(requests, id) + if other == id then 1 else 0
  {
    assert (requests + [other])[..|requests|] == requests;
  }

  lemma AskLeavesDone(c: Crowd, i: nat, a: Answer, row: nat)
    requires Inv(c) && OneUnresolved(c.s.results) && Done(c, row) && i < |c.walkers| && c.walkers[i].at.Ask?
    ensures LeavesDone(c, AskStep(c, i, c.walkers[i].at.row, a), row)
  {
    AskedRowIsAnother(c, row, i);
    assert WorkerInv(c.s, c.walkers[i].at);
    var done, own := c.walkers[i].at.done, c.walkers[i].at.row;
    var id := c.s.results[own].recording;
    CountOneMore(c.s.requests, c.s.results[row].recording, id);
    var asked := c.s.(requests := c.s.requests + [id]);
    if a.Refused? || !c.s.recordings[id].inPlace {
      GoToLeavesDone(c, asked, i, Record(done, own, false), row);
    } else {
      var gone := c.s.recordings[id := c.s.recordings[id].(inPlace := false)];
      GoToLeavesDone(c, asked.(recordings := gone), i, Record(done, own, a.Ok?), row);
    }
  }

  lemma RecordLeavesDone(c: Crowd, i: nat, row: nat)
    requires Inv(c) && Done(c, row) && i < |c.walkers| && c.walkers[i].at.Record?
    ensures LeavesDone(c, RecordStep(c, i, c.walkers[i].at.row, c.walkers[i].at.moved), row)
  {
    assert WorkerInv(c.s, c.walkers[i].at) && RowOf(c.walkers[i].at) != Some(row);
    var own, moved := c.walkers[i].at.row, c.walkers[i].at.moved;
    var id := c.s.results[own].recording;
    var state := if moved then Moved else FailedMove;
    var s := c.s.(results := c.s.results[own := c.s.results[own].(state := state)],
                  recordings := if moved then c.s.recordings[id := c.s.recordings[id].(deleted := true)]
                                else c.s.recordings);
    GoToLeavesDone(c, s, i, Look(c.walkers[i].at.done + [Entry(id, state)]), row);
  }

  lemma WorkLeavesDone(c: Crowd, i: nat, a: Answer, row: nat)
    requires Inv(c) && OneUnresolved(c.s.results) && Done(c, row) && i < |c.walkers|
    ensures LeavesDone(c, WorkStep(c, i, a), row)
  {
    GoToLeavesDone(c, c.s, i, Over, row);
    match c.walkers[i].at
    case Look(done) => LookLeavesDone(c, i, done, row);
    case Insert(_, _, _) => InsertLeavesDone(c, i, row);
    case Ask(_, _) => AskLeavesDone(c, i, a, row);
    case Record(_, _, _) => RecordLeavesDone(c, i, row);
    case Over =>
  }

  lemma DoneStays(c: Crowd, e: CrowdEvent, row: nat)
    requires Inv(c) && OneUnresolved(c.s.results) && Done(c, row)
    ensures LeavesDone(c, CrowdStep(c, e), row)
  {
    match e
    case Enter(_, _, _) =>
    case Work(i, a) =>
      if i < |c.walkers| {
        WorkLeavesDone(c, i, a, row);
      }
    case Stop(i) =>
      if i < |c.walkers| {
        GoToLeavesDone(c, c.s, i, Over, row);
      }
    case Around(_) =>
  }

  /** As long as nothing races, the Disk is never asked again for a recording with an open or successful row
      that nobody works on: not after a success, and not after a crash in the middle of a move. */
  lemma {:induction false} NoSecondMoveWithoutRaces(c: Crowd, events: seq<CrowdEvent>, row: nat)
    requires Inv(c) && OneUnresolved(c.s.results) && Done(c, row) && NothingRaces(c, events)
    ensures Done(CrowdRun(c, events), row) && CrowdRun(c, events).s.results[row] == c.s.results[row]
    ensures CountOf(CrowdRun(c, events).s.requests, c.s.results[row].recording)
            == CountOf(c.s.requests, c.s.results[row].recording)
    decreases |events|
  {
    if events != [] {
      CrowdStepKeepsInv(c, events[0]);
      RowsDoubleExactlyByRaces(c, events[0]);
      DoneStays(c, events[0], row);
      NoSecondMoveWithoutRaces(CrowdStep(c, events[0]), events[1..], row);
    }
  }

  /* ---- One confirmation is the service ---- */

  /** Walker `i` stands where the one confirmation of `s` stands, and the stores are the same. */
  predicate Mirrors(c: Crowd, s: State, i: nat) {
    && i < |c.walkers| && c.s.(pc := s.pc) == s
    && match s.pc
       case Idle => c.walkers[i].at == Over
       case Walk(p, done) => c.walkers[i] == Walker(p, Look(done))
       case Move(p, done, row) => c.walkers[i] == Walker(p, Ask(done, row))
       case Settle(p, done, row, moved) => c.walkers[i] == Walker(p, Record(done, row, moved))
  }

  /** A confirmation that enters is answered as one alone, and a walker follows it exactly when that starts work;
      previews, the clock and other writers go on as beside one alone. */
  lemma EnteringIsTheService(c: Crowd, p: nat, fingerprint: string, valid: bool, e: Event)
    ensures var t := Step(c.s.(pc := Idle), Confirm(p, fingerprint, valid));
            CrowdStep(c, Enter(p, fingerprint, valid))
            == Crowd(t.(pc := Idle), if t.pc == Idle then c.walkers else c.walkers + [Walker(p, Look([]))])
    ensures CrowdStep(c, Around(e))
            == match e
               case TakePreview(_, _) => c.(s := Step(c.s, e))
               case Wait(_) => c.(s := Step(c.s, e))
               case OthersWrite(_, _) => c.(s := Step(c.s, e))
               case _ => c
  {
  }

  /** A walker that nobody disturbs does what a confirmation alone does; only the look at an item and the
      commit of its row are two steps. */
  lemma UndisturbedWalkerIsTheService(c: Crowd, s: State, i: nat, a: Answer)
    requires Cleanup.Inv(s) && Mirrors(c, s, i) && s.pc != Idle
    ensures var d := CrowdStep(c, Work(i, a));
            && i < |d.walkers|
            && Mirrors(if d.walkers[i].at.Insert? then CrowdStep(d, Work(i, Ok)) else d, NextStep(s, a), i)
  {
    match s.pc
    case Walk(p, done) =>
    case Move(p, done, row) =>
    case Settle(p, done, row, moved) =>
  }

  /** Two previews that list a recording do race: both confirmations look, and both commit. */
  lemma TwoPreviewsRace(c: Crowd, i: nat, j: nat, id: nat)
    requires Inv(c) && OneUnresolved(c.s.results) && i < |c.walkers| && j < |c.walkers|
    requires c.walkers[i].preview != c.walkers[j].preview
    requires forall w :: w in {c.walkers[i], c.walkers[j]} ==>
               w.at.Look? && w.preview < |c.s.previews| && |w.at.done| < |c.s.previews[w.preview].snapshot|
               && c.s.previews[w.preview].snapshot[|w.at.done|].recording == id
               && Eligible(c.s.recordings, c.s.previews[w.preview].snapshot[|w.at.done|])
               && FindOwn(c.s.results, w.preview, id).None?
    requires FindUnresolved(c.s.results, id).None?
    ensures var looked := WorkStep(WorkStep(c, i, Ok), j, Ok);
            !Races(looked, Work(i, Ok)) && Races(WorkStep(looked, i, Ok), Work(j, Ok))
  {
    var w, v := c.walkers[i], c.walkers[j];
    var item := c.s.previews[w.preview].snapshot[|w.at.done|];
    assert w in {w, v} && v in {w, v};
    var first := WorkStep(c, i, Ok);
    assert first.walkers[i].at == Insert(w.at.done, item, Processing) && first.walkers[j] == v;
    var looked := WorkStep(first, j, Ok);
    var other := c.s.previews[v.preview].snapshot[|v.at.done|];
    assert looked.walkers[j].at == Insert(v.at.done, other, Processing) && looked.walkers[i] == first.walkers[i];
    InsertAddsRow(looked, i);
    var row := FileResult(w.preview, id, Processing);
    var inserted := WorkStep(looked, i, Ok);
    assert inserted.s.results == c.s.results + [row] && inserted.walkers[j] == looked.walkers[j];
    OwnRowOfAnother(c.s.results, row, v.preview);
    NothingUnresolved(inserted.s.results, id);
    assert inserted.s.results[|c.s.results|] == row;
  }

  lemma {:induction false} OwnRowOfAnother(results: seq<FileResult>, row: FileResult, p: nat)
    requires row.preview != p
    ensures FindOwn(results + [row], p, row.recording) == FindOwn(results, p, row.recording)
  {
    if results == [] {
      assert results + [row] == [row] && [row][1..] == [];
    } else {
      OwnRowOfAnother(results[1..], row, p);
      assert (results + [row])[1..] == results[1..] + [row];
    }
  }
}

/**
  The ownership-marker upload of app/tools/synology.py, for one target path.

  The NAS offers no lock. A caller claims the path by creating a marker file next to it, and
  creation without overwrite is the only atomic primitive. Any number of `upload` calls run against
  the same path; every call on the NAS is one step, so a run is any interleaving of steps, of calls
  that start, and of calls that are cut off.
*/
module SynologyUpload {
  import opened Values

  /** The dictionary written into the marker. */
  datatype Owner = Owner(contentIdentity: string, recordingId: string, size: Option<nat>)

  /** Who put a file on the NAS: something that predates the protocol, or the upload call `id`. */
  datatype Writer = Foreign | Upload(id: nat, owner: Owner)

  datatype StoredFile = StoredFile(length: nat, writer: Writer)

  /** A target path together with its marker path. */
  datatype Slot = Slot(marker: Option<Owner>, file: Option<StoredFile>)

  /** The three places where `upload` reads the marker. */
  datatype Stage = OnEntry | AfterClaim | AfterUpload

  /** The next NAS request of a call. */
  datatype Pc =
    | ProbeMarker(stage: Stage)
    | FetchMarker(stage: Stage)
    | CheckSize(seen: Option<Owner>)
    | ClaimMarker
    | SizeAfterClaim
    | WriteFile
    | RecoverSize(seen: Option<Owner>)
    | Returned
    | Failed

  datatype Call = Call(owner: Owner, streamLength: nat, pc: Pc)

  function Complete(actual: nat, expected: Option<nat>): bool {
    expected.Some? && actual == expected.value
  }

  /** What a marker read that answered `seen` leads to. */
  function AfterRead(c: Call, stage: Stage, seen: Option<Owner>): Pc {
    match stage
    case OnEntry => CheckSize(seen)
    case AfterClaim => if seen == Some(c.owner) then SizeAfterClaim else Failed
    case AfterUpload => RecoverSize(seen)
  }

  /** Creation without overwrite: an existing path makes the request fail. */
  function CreateMarker(slot: Slot, owner: Owner, o: Outcome): Slot {
    if slot.marker.None? && !o.Broken? then slot.(marker := Some(owner)) else slot
  }

  function CreateFile(slot: Slot, id: nat, c: Call, o: Outcome): Slot {
    if slot.file.Some? || o.Broken? then slot
    else
      var length := if o.Fine? then c.streamLength else o.kept;
      slot.(file := Some(StoredFile(length, Upload(id, c.owner))))
  }

  function SlotAfter(slot: Slot, id: nat, c: Call, o: Outcome): Slot {
    match c.pc
    case ClaimMarker => CreateMarker(slot, c.owner, o)
    case WriteFile => CreateFile(slot, id, c, o)
    case _ => slot
  }

  /** The next step of a call, given what the NAS holds and how the request ends. A read that does
      not end well always raises out of `upload`. */
  function PcAfter(slot: Slot, c: Call, o: Outcome): Pc {
    match c.pc
    case ProbeMarker(stage) =>
      if !o.Fine? then Failed
      else if slot.marker.None? then AfterRead(c, stage, None)
      else FetchMarker(stage)
    case FetchMarker(stage) =>
      if o.Fine? then AfterRead(c, stage, slot.marker) else Failed
    case CheckSize(seen) =>
      if !o.Fine? then Failed
      else if seen.Some? then
        if seen.value != c.owner then Failed
        else if slot.file.None? then WriteFile
        else if Complete(slot.file.value.length, c.owner.size) then Returned else Failed
      else if slot.file.Some? then Failed
      else ClaimMarker
    case ClaimMarker =>
      if slot.marker.None? && o.Fine? then SizeAfterClaim else ProbeMarker(AfterClaim)
    case SizeAfterClaim =>
      if !o.Fine? then Failed
      else if slot.file.None? then WriteFile
      else if Complete(slot.file.value.length, c.owner.size) then Returned else Failed
    case WriteFile =>
      if slot.file.None? && o.Fine? then Returned else ProbeMarker(AfterUpload)
    case RecoverSize(seen) =>
      if o.Fine? && seen == Some(c.owner) && slot.file.Some?
         && Complete(slot.file.value.length, c.owner.size)
      then Returned else Failed
    case Returned => Returned
    case Failed => Failed
  }

  /* ---- Any number of concurrent calls ---- */

  datatype System = System(slot: Slot, calls: seq<Call>)

  datatype Event =
    | Start(owner: Owner, streamLength: nat)
    | Advance(call: nat, outcome: Outcome)
    | CutOff(call: nat)

  function Step(s: System, e: Event): System {
    match e
    case Start(owner, streamLength) =>
      s.(calls := s.calls + [Call(owner, streamLength, ProbeMarker(OnEntry))])
    case Advance(i, o) =>
      if i >= |s.calls| then s
      else
        var c := s.calls[i];
        System(SlotAfter(s.slot, i, c, o), s.calls[i := c.(pc := PcAfter(s.slot, c, o))])
    case CutOff(i) =>
      if i >= |s.calls| || s.calls[i].pc.Returned? then s
      else s.(calls := s.calls[i := s.calls[i].(pc := Failed)])
  }

  function Run(s: System, events: seq<Event>): System
    decreases |events|
  {
    if events == [] then s else Run(Step(s, events[0]), events[1..])
  }

  /** The target before any upload: no marker, and at most a file the protocol did not write. */
  predicate Untouched(slot: Slot) {
    slot.marker.None? && (slot.file.Some? ==> slot.file.value.writer.Foreign?)
  }

  /** What call `i` may rely on at its program point. */
  predicate CallInv(slot: Slot, i: nat, c: Call) {
    match c.pc
    case ProbeMarker(stage) => stage.AfterUpload? ==> slot.marker == Some(c.owner)
    case FetchMarker(stage) =>
      slot.marker.Some? && (stage.AfterUpload? ==> slot.marker == Some(c.owner))
    case CheckSize(seen) => seen.Some? ==> slot.marker == seen
    case ClaimMarker => true
    case SizeAfterClaim => slot.marker == Some(c.owner)
    case WriteFile => slot.marker == Some(c.owner)
    case RecoverSize(seen) => slot.marker == Some(c.owner)
    case Returned => Justified(slot, i, c)
    case Failed => true
  }

  /** What a returning call has a right to: the path carries its own owner record, the file was
      written under that same record, and unless it wrote the file itself the size was proven. */
  predicate Justified(slot: Slot, i: nat, c: Call) {
    && slot.marker == Some(c.owner)
    && slot.file.Some?
    && slot.file.value.writer.Upload?
    && slot.file.value.writer.owner == c.owner
    && (slot.file.value.writer.id == i || c.owner.size == Some(slot.file.value.length))
  }

  /** A foreign file keeps every call out: nobody gets as far as claiming the marker. */
  predicate KeptOut(s: System) {
    && s.slot.marker.None?
    && forall i :: 0 <= i < |s.calls| ==> s.calls[i].pc in {ProbeMarker(OnEntry), CheckSize(None), Failed}
  }

  predicate FileInv(s: System) {
    s.slot.file.Some? ==>
      match s.slot.file.value.writer
      case Foreign => KeptOut(s)
      case Upload(id, owner) =>
        id < |s.calls| && s.calls[id].owner == owner && s.slot.marker == Some(owner)
  }

  predicate Inv(s: System) {
    && FileInv(s)
    && (forall i :: 0 <= i < |s.calls| ==> CallInv(s.slot, i, s.calls[i]))
  }

  lemma StepKeepsInv(s: System, e: Event)
    requires Inv(s)
    ensures Inv(Step(s, e))
  {
    if e.Advance? && e.call < |s.calls| {
      var c := s.calls[e.call];
      var t := Step(s, e);
      assert CallInv(s.slot, e.call, c);
      assert CallInv(t.slot, e.call, t.calls[e.call]);
      forall i | 0 <= i < |t.calls|
        ensures CallInv(t.slot, i, t.calls[i])
      {
        assert CallInv(s.slot, i, s.calls[i]);
      }
    }
  }

  lemma {:induction false} RunKeepsInv(s: System, events: seq<Event>)
    requires Inv(s)
    ensures Inv(Run(s, events))
    decreases |events|
  {
    if events != [] {
      StepKeepsInv(s, events[0]);
      RunKeepsInv(Step(s, events[0]), events[1..]);
    }
  }

  /** The safety of `upload`, over every interleaving of any number of calls. */
  lemma ReturningCallsAreJustified(slot: Slot, events: seq<Event>)
    requires Untouched(slot)
    ensures var s := Run(System(slot, []), events);
            forall i :: 0 <= i < |s.calls| && s.calls[i].pc.Returned? ==> Justified(s.slot, i, s.calls[i])
  {
    RunKeepsInv(System(slot, []), events);
    var s := Run(System(slot, []), events);
    forall i | 0 <= i < |s.calls| && s.calls[i].pc.Returned?
      ensures Justified(s.slot, i, s.calls[i])
    {
      assert CallInv(s.slot, i, s.calls[i]);
    }
  }

  /** Two calls with different owner records never both succeed. */
  lemma DifferentOwnersNeverBothReturn(slot: Slot, events: seq<Event>, i: nat, j: nat)
    requires Untouched(slot)
    requires var s := Run(System(slot, []), events);
             i < |s.calls| && j < |s.calls| && s.calls[i].owner != s.calls[j].owner
    ensures var s := Run(System(slot, []), events);
            !(s.calls[i].pc.Returned? && s.calls[j].pc.Returned?)
  {
    ReturningCallsAreJustified(slot, events);
  }

  /** Nothing that was stored is ever replaced: what a caller saw when it returned stays. */
  lemma {:induction false} NothingIsOverwritten(s: System, events: seq<Event>)
    ensures s.slot.marker.Some? ==> Run(s, events).slot.marker == s.slot.marker
    ensures s.slot.file.Some? ==> Run(s, events).slot.file == s.slot.file
    decreases |events|
  {
    if events != [] {
      NothingIsOverwritten(Step(s, events[0]), events[1..]);
    }
  }

  /** A path that already holds somebody's file is never taken, however many calls try. */
  lemma ForeignFileIsNeverTaken(slot: Slot, events: seq<Event>)
    requires Untouched(slot) && slot.file.Some?
    ensures Run(System(slot, []), events).slot == slot
    ensures forall i :: 0 <= i < |Run(System(slot, []), events).calls| ==>
              !Run(System(slot, []), events).calls[i].pc.Returned?
  {
    RunKeepsInv(System(slot, []), events);
    NothingIsOverwritten(System(slot, []), events);
  }

  /* ---- Lost answers and retries ---- */

  /** Three requests that all get an answer. */
  function Thrice(s: System, call: nat): System {
    Step(Step(Step(s, Advance(call, Fine)), Advance(call, Fine)), Advance(call, Fine))
  }

  /** A call that meets its own marker beside a stored file, be it a retry that has just started or a
      writer whose answer was lost, succeeds exactly when the stored length is the announced size. */
  lemma OwnMarkerIsReusedExactlyWhenComplete(s: System, i: nat, stage: Stage, stored: StoredFile)
    requires i < |s.calls| && s.calls[i].pc == ProbeMarker(stage) && !stage.AfterClaim?
    requires s.slot == Slot(Some(s.calls[i].owner), Some(stored))
    ensures var t := Thrice(s, i);
            && t.slot == s.slot
            && t.calls[i].pc.Returned? == (s.calls[i].owner.size == Some(stored.length))
            && t.calls[i].pc.Failed? == (s.calls[i].owner.size != Some(stored.length))
  {
    var s1 := Step(s, Advance(i, Fine));
    assert s1.calls[i] == s.calls[i].(pc := FetchMarker(stage)) && s1.slot == s.slot;
    var s2 := Step(s1, Advance(i, Fine));
    assert s2.calls[i] == s.calls[i].(pc := AfterRead(s.calls[i], stage, s.slot.marker));
  }

  /* ---- What a call ends in ---- */

  /** The next `n` requests of a call, all of them answered. */
  function Answered(i: nat, n: nat): seq<Event> {
    seq(n, _ => Advance(i, Fine))
  }

  lemma FirstOf(s: System, e: Event, rest: seq<Event>)
    ensures Run(s, [e] + rest) == Run(Step(s, e), rest)
  {
    assert ([e] + rest)[1..] == rest;
  }

  lemma FirstAnswer(s: System, i: nat, n: nat)
    requires n > 0
    ensures Run(s, Answered(i, n)) == Run(Step(s, Advance(i, Fine)), Answered(i, n - 1))
  {
    assert Answered(i, n) == [Advance(i, Fine)] + Answered(i, n - 1);
    FirstOf(s, Advance(i, Fine), Answered(i, n - 1));
  }

  predicate Ended(pc: Pc) {
    pc == Returned || pc == Failed
  }

  /** A call that returned or failed asks for nothing more, and stays as it is whatever others do. */
  lemma {:induction false} EndedStays(s: System, i: nat, events: seq<Event>)
    requires i < |s.calls| && Ended(s.calls[i].pc)
    ensures i < |Run(s, events).calls| && Run(s, events).calls[i] == s.calls[i]
    ensures (forall k :: 0 <= k < |events| ==> events[k] == Advance(i, Fine)) ==> Run(s, events).slot == s.slot
    decreases |events|
  {
    if events != [] {
      EndedStays(Step(s, events[0]), i, events[1..]);
    }
  }

  /** The path is free, or carries the owner's marker alone, or beside a file of the announced size. */
  predicate Usable(slot: Slot, owner: Owner) {
    || slot == Slot(None, None)
    || slot == Slot(Some(owner), None)
    || (slot.marker == Some(owner) && slot.file.Some? && owner.size == Some(slot.file.value.length))
  }

  /** The path carries the marker of the call beside the file that stood there, or the one the call wrote. */
  predicate Filled(before: Slot, after: Slot, i: nat, c: Call) {
    && after.marker == Some(c.owner)
    && after.file == Some(if before.file.Some? then before.file.value
                          else StoredFile(c.streamLength, Upload(i, c.owner)))
  }

  /** Call `i` ends by itself, well exactly when the path is usable. */
  predicate EndsByUse(s: System, t: System, i: nat)
    requires i < |s.calls|
  {
    && i < |t.calls|
    && if Usable(s.slot, s.calls[i].owner)
       then t.calls[i].pc == Returned && Filled(s.slot, t.slot, i, s.calls[i])
       else t.calls[i].pc == Failed && t.slot == s.slot
  }

  lemma WritingEnds(s: System, i: nat, n: nat)
    requires n >= 1 && i < |s.calls| && s.calls[i].pc == WriteFile
    requires s.slot == Slot(Some(s.calls[i].owner), None)
    ensures EndsByUse(s, Run(s, Answered(i, n)), i)
  {
    FirstAnswer(s, i, n);
    EndedStays(Step(s, Advance(i, Fine)), i, Answered(i, n - 1));
  }

  /** From the size check behind the caller's own marker. */
  lemma ClaimedEnds(s: System, i: nat, n: nat)
    requires n >= 2 && i < |s.calls| && s.calls[i].pc == SizeAfterClaim
    requires s.slot.marker == Some(s.calls[i].owner)
    ensures EndsByUse(s, Run(s, Answered(i, n)), i)
  {
    FirstAnswer(s, i, n);
    var t := Step(s, Advance(i, Fine));
    if s.slot.file.None? {
      WritingEnds(t, i, n - 1);
    } else {
      EndedStays(t, i, Answered(i, n - 1));
    }
  }

  lemma CheckedEnds(s: System, i: nat, n: nat)
    requires n >= 4 && i < |s.calls| && s.calls[i].pc == CheckSize(s.slot.marker)
    ensures EndsByUse(s, Run(s, Answered(i, n)), i)
  {
    FirstAnswer(s, i, n);
    var t := Step(s, Advance(i, Fine));
    if s.slot == Slot(None, None) {
      FirstAnswer(t, i, n - 1);
      ClaimedEnds(Step(t, Advance(i, Fine)), i, n - 2);
    } else if s.slot == Slot(Some(s.calls[i].owner), None) {
      WritingEnds(t, i, n - 1);
    } else {
      EndedStays(t, i, Answered(i, n - 1));
    }
  }

  /** A call that starts among others and is not disturbed by them. */
  lemma StartedCallEnds(s: System, owner: Owner, streamLength: nat, n: nat)
    requires n >= 6
    ensures var t := Step(s, Start(owner, streamLength));
            t.calls == s.calls + [t.calls[|s.calls|]] && t.calls[|s.calls|].owner == owner
            && t.calls[|s.calls|].streamLength == streamLength
            && EndsByUse(t, Run(t, Answered(|s.calls|, n)), |s.calls|)
  {
    var i := |s.calls|;
    var t := Step(s, Start(owner, streamLength));
    FirstAnswer(t, i, n);
    var s1 := Step(t, Advance(i, Fine));
    if s.slot.marker.Some? {
      FirstAnswer(s1, i, n - 1);
      CheckedEnds(Step(s1, Advance(i, Fine)), i, n - 2);
    } else {
      CheckedEnds(s1, i, n - 1);
    }
  }

  /** A call that nothing disturbs returns exactly when the path is free, or its own marker stands there alone,
      or beside a file of the announced size. Then its marker stands beside that file, or beside one it wrote
      itself; otherwise it fails and leaves everything as it was. */
  lemma UndisturbedCallReturnsExactlyWhenUsable(slot: Slot, owner: Owner, streamLength: nat, n: nat)
    requires n >= 6
    ensures var t := Run(System(slot, []), [Start(owner, streamLength)] + Answered(0, n));
            && |t.calls| > 0
            && (t.calls[0].pc == Returned <==>
                  || slot == Slot(None, None)
                  || slot == Slot(Some(owner), None)
                  || (slot.marker == Some(owner) && slot.file.Some? && owner.size == Some(slot.file.value.length)))
            && (t.calls[0].pc == Returned ==> t.slot.marker == Some(owner) && t.slot.file.Some?)
            && (t.calls[0].pc == Returned && slot.file.None? ==>
                  t.slot.file.value == StoredFile(streamLength, Upload(0, owner)))
            && (t.calls[0].pc == Returned && slot.file.Some? ==> t.slot == slot)
            && (t.calls[0].pc != Returned ==> t.calls[0].pc == Failed && t.slot == slot)
  {
    FirstOf(System(slot, []), Start(owner, streamLength), Answered(0, n));
    StartedCallEnds(System(slot, []), owner, streamLength, n);
  }

  /** A claim that lost its answer, or came too late, goes on exactly when the marker that stands there then is
      the caller's. */
  lemma UnansweredClaimIsReadBack(s: System, i: nat, o: Outcome, n: nat)
    requires n >= 4 && i < |s.calls| && s.calls[i].pc == ClaimMarker && (!o.Fine? || s.slot.marker.Some?)
    ensures var claimed := if s.slot.marker.None? && o.BrokenAfter? then s.slot.(marker := Some(s.calls[i].owner))
                           else s.slot;
            var t := Run(Step(s, Advance(i, o)), Answered(i, n));
            && i < |t.calls|
            && if claimed.marker == Some(s.calls[i].owner)
               then EndsByUse(System(claimed, s.calls), t, i)
               else t.calls[i].pc == Failed && t.slot == s.slot
  {
    var s1 := Step(s, Advance(i, o));
    FirstAnswer(s1, i, n);
    var s2 := Step(s1, Advance(i, Fine));
    if s1.slot.marker.None? {
      EndedStays(s2, i, Answered(i, n - 1));
    } else {
      FirstAnswer(s2, i, n - 1);
      var s3 := Step(s2, Advance(i, Fine));
      if s1.slot.marker == Some(s.calls[i].owner) {
        ClaimedEnds(s3, i, n - 2);
      } else {
        EndedStays(s3, i, Answered(i, n - 2));
      }
    }
  }

  /** A writer that got no answer, or met a file, returns exactly when the file that stands there then has the
      announced size. */
  lemma UnansweredWriteIsReadBack(s: System, i: nat, o: Outcome, n: nat)
    requires n >= 3 && i < |s.calls| && s.calls[i].pc == WriteFile && (!o.Fine? || s.slot.file.Some?)
    requires s.slot.marker == Some(s.calls[i].owner)
    ensures var size := s.calls[i].owner.size;
            var kept := if s.slot.file.Some? then Some(s.slot.file.value.length)
                        else if o.BrokenAfter? then Some(o.kept) else None;
            var t := Run(Step(s, Advance(i, o)), Answered(i, n));
            && i < |t.calls|
            && t.calls[i].pc == (if kept.Some? && kept == size then Returned else Failed)
  {
    var s1 := Step(s, Advance(i, o));
    FirstAnswer(s1, i, n);
    var s2 := Step(s1, Advance(i, Fine));
    FirstAnswer(s2, i, n - 1);
    var s3 := Step(s2, Advance(i, Fine));
    FirstAnswer(s3, i, n - 2);
    EndedStays(Step(s3, Advance(i, Fine)), i, Answered(i, n - 3));
  }

  /** A look without an answer ends the call. */
  lemma UnansweredLookFails(s: System, i: nat, o: Outcome, events: seq<Event>)
    requires i < |s.calls| && !o.Fine? && s.calls[i].pc !in {ClaimMarker, WriteFile, Returned}
    ensures Step(s, Advance(i, o)).slot == s.slot
    ensures var t := Run(Step(s, Advance(i, o)), events); i < |t.calls| && t.calls[i].pc == Failed
  {
    EndedStays(Step(s, Advance(i, o)), i, events);
  }

  /** A call that is cut off never asks again; one that has returned cannot be cut off. */
  lemma CutOffIsTheEnd(s: System, i: nat, events: seq<Event>)
    requires i < |s.calls|
    ensures Step(s, CutOff(i)).slot == s.slot
    ensures var t := Run(Step(s, CutOff(i)), events);
            i < |t.calls| && t.calls[i].pc == if s.calls[i].pc == Returned then Returned else Failed
  {
    EndedStays(Step(s, CutOff(i)), i, events);
  }

  /* ---- The objects that take the steps ---- */

  /** The NAS paths of one target. */
  class NasTarget {
    var marker: Option<Owner>
    var file: Option<StoredFile>

    ghost function View(): Slot
      reads this
    {
      Slot(marker, file)
    }

    constructor (slot: Slot)
      ensures View() == slot
    {
      marker, file := slot.marker, slot.file;
    }
  }

  /** One execution of `upload`. */
  class UploadCall {
    const id: nat
    const owner: Owner
    const streamLength: nat
    var pc: Pc

    ghost function View(): Call
      reads this
    {
      Call(owner, streamLength, pc)
    }

    constructor (id: nat, owner: Owner, streamLength: nat)
      ensures this.id == id && View() == Call(owner, streamLength, ProbeMarker(OnEntry))
    {
      this.id, this.owner, this.streamLength := id, owner, streamLength;
      pc := ProbeMarker(OnEntry);
    }

    /** Sends the next request and takes in its answer. */
    method Advance(nas: NasTarget, o: Outcome)
      modifies this`pc, nas
      ensures nas.View() == SlotAfter(old(nas.View()), id, old(View()), o)
      ensures pc == PcAfter(old(nas.View()), old(View()), o)
    {
      match pc
      case ProbeMarker(stage) =>
        if !o.Fine? {
          pc := Failed;
        } else if nas.marker.Some? {
          pc := FetchMarker(stage);
        } else {
          TakeMarker(stage, None);
        }
      case FetchMarker(stage) =>
        if o.Fine? {
          TakeMarker(stage, nas.marker);
        } else {
          pc := Failed;
        }
      case CheckSize(seen) =>
        if !o.Fine? || (seen.Some? && seen.value != owner) || (seen.None? && nas.file.Some?) {
          pc := Failed;
        } else if seen.None? {
          pc := ClaimMarker;
        } else {
          ReuseOrWrite(nas);
        }
      case ClaimMarker =>
        var accepted := nas.marker.None? && o.Fine?;
        if nas.marker.None? && !o.Broken? {
          nas.marker := Some(owner);
        }
        pc := if accepted then SizeAfterClaim else ProbeMarker(AfterClaim);
      case SizeAfterClaim =>
        if o.Fine? {
          ReuseOrWrite(nas);
        } else {
          pc := Failed;
        }
      case WriteFile =>
        var accepted := nas.file.None? && o.Fine?;
        if nas.file.None? && !o.Broken? {
          var length := if o.Fine? then streamLength else o.kept;
          nas.file := Some(StoredFile(length, Upload(id, owner)));
        }
        pc := if accepted then Returned else ProbeMarker(AfterUpload);
      case RecoverSize(seen) =>
        if !o.Fine? || seen != Some(owner) || nas.file.None? {
          pc := Failed;
        } else {
          ReuseOrWrite(nas);
        }
      case Returned =>
      case Failed =>
    }

    method TakeMarker(stage: Stage, seen: Option<Owner>)
      modifies this`pc
      ensures pc == AfterRead(old(View()), stage, seen)
    {
      match stage
      case OnEntry => pc := CheckSize(seen);
      case AfterClaim => pc := if seen == Some(owner) then SizeAfterClaim else Failed;
      case AfterUpload => pc := RecoverSize(seen);
    }

    /** The size check under a marker that is known to be our own. */
    method ReuseOrWrite(nas: NasTarget)
      modifies this`pc
      ensures pc == if nas.file.None? then WriteFile
                    else if Complete(nas.file.value.length, owner.size) then Returned else Failed
    {
      if nas.file.None? {
        pc := WriteFile;
      } else if owner.size.Some? && nas.file.value.length == owner.size.value {
        pc := Returned;
      } else {
        pc := Failed;
      }
    }
  }
}

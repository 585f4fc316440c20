/**
  The S3 upload of app/services/storage.py: the re-chunking of a byte stream into parts, and the
  creation of one object without overwrite, with the recovery of an answer that was lost.
*/
module ObjectStorage {
  import opened Values

  /* ---- Parts ---- */

  const PART_SIZE: nat := 5 * 1024 * 1024

  type Bytes = seq<bv8>

  datatype Part = Part(number: nat, body: Bytes)

  function Joined(chunks: seq<Bytes>): Bytes {
    if chunks == [] then [] else chunks[0] + Joined(chunks[1..])
  }

  /** The cut of a stream into parts: full ones, then what is left. */
  function PartsOf(stream: Bytes): seq<Bytes>
    decreases |stream|
  {
    if stream == [] then []
    else if |stream| <= PART_SIZE then [stream]
    else [stream[..PART_SIZE]] + PartsOf(stream[PART_SIZE..])
  }

  /** Every part is full but the last, which holds something. */
  predicate WellCut(parts: seq<Bytes>) {
    && (forall i :: 0 <= i < |parts| - 1 ==> |parts[i]| == PART_SIZE)
    && (parts != [] ==> 0 < |parts[|parts| - 1]| <= PART_SIZE)
  }

  lemma {:induction false} PartsAreWellCut(stream: Bytes)
    ensures WellCut(PartsOf(stream)) && Joined(PartsOf(stream)) == stream
    ensures PartsOf(stream) == [] <==> stream == []
    decreases |stream|
  {
    if |stream| > PART_SIZE {
      var rest := stream[PART_SIZE..];
      PartsAreWellCut(rest);
      var parts := PartsOf(stream);
      assert parts == [stream[..PART_SIZE]] + PartsOf(rest);
      assert parts[1..] == PartsOf(rest);
      forall i | 0 <= i < |parts| - 1
        ensures |parts[i]| == PART_SIZE
      {
        if i > 0 {
          assert parts[i] == PartsOf(rest)[i - 1];
        }
      }
      assert parts[|parts| - 1] == PartsOf(rest)[|PartsOf(rest)| - 1];
      assert stream == stream[..PART_SIZE] + rest;
    } else if stream != [] {
      assert Joined([stream]) == stream + Joined([]);
    }
  }

  /** There is only one such cut. */
  lemma {:induction false} WellCutIsUnique(parts: seq<Bytes>, stream: Bytes)
    requires WellCut(parts) && Joined(parts) == stream
    ensures parts == PartsOf(stream)
    decreases |parts|
  {
    if parts != [] {
      var rest := parts[1..];
      assert stream == parts[0] + Joined(rest);
      if rest == [] {
        assert stream == parts[0];
      } else {
        assert rest[|rest| - 1] == parts[|parts| - 1];
        NonEmptyJoin(rest);
        assert stream[..PART_SIZE] == parts[0] && stream[PART_SIZE..] == Joined(rest);
        WellCutIsUnique(rest, Joined(rest));
        assert parts == [parts[0]] + rest;
      }
    }
  }

  lemma {:induction false} NonEmptyJoin(parts: seq<Bytes>)
    requires parts != [] && |parts[|parts| - 1]| > 0
    ensures Joined(parts) != []
  {
    if |parts| > 1 {
      assert parts[1..][|parts| - 2] == parts[|parts| - 1];
      NonEmptyJoin(parts[1..]);
    } else {
      assert Joined(parts) == parts[0] + Joined([]);
    }
  }

  lemma {:induction false} JoinedAppend(a: seq<Bytes>, b: Bytes)
    ensures Joined(a + [b]) == Joined(a) + b
  {
    if a == [] {
      assert a + [b] == [b];
      assert Joined([b]) == b + Joined([]);
    } else {
      JoinedAppend(a[1..], b);
      assert (a + [b])[1..] == a[1..] + [b];
    }
  }

  function Bodies(parts: seq<Part>): (r: seq<Bytes>)
    ensures |r| == |parts| && forall i :: 0 <= i < |r| ==> r[i] == parts[i].body
  {
    seq(|parts|, i requires 0 <= i < |parts| => parts[i].body)
  }

  predicate Numbered(parts: seq<Part>) {
    forall i :: 0 <= i < |parts| ==> parts[i].number == i + 1
  }

  /** Full parts sent so far, and the buffer with the rest of what was read. */
  predicate Rechunked(parts: seq<Part>, buffer: Bytes, read: Bytes) {
    && Numbered(parts)
    && (forall i :: 0 <= i < |parts| ==> |parts[i].body| == PART_SIZE)
    && |buffer| < PART_SIZE
    && Joined(Bodies(parts)) + buffer == read
  }

  lemma PartSent(parts: seq<Part>, body: Bytes, read: Bytes)
    requires Numbered(parts) && (forall i :: 0 <= i < |parts| ==> |parts[i].body| == PART_SIZE)
    requires |body| == PART_SIZE && Joined(Bodies(parts)) + body == read
    ensures Rechunked(parts + [Part(|parts| + 1, body)], [], read)
  {
    var sent := parts + [Part(|parts| + 1, body)];
    JoinedAppend(Bodies(parts), body);
    assert Bodies(sent) == Bodies(parts) + [body];
    assert Joined(Bodies(sent)) + [] == read;
  }

  /** The inner loop: one chunk of the stream goes into the buffer, a full buffer out as a part. */
  method TakeChunk(parts: seq<Part>, buffer: Bytes, chunk: Bytes, ghost read: Bytes)
    returns (parts': seq<Part>, buffer': Bytes)
    requires Rechunked(parts, buffer, read)
    ensures Rechunked(parts', buffer', read + chunk)
  {
    parts', buffer' := parts, buffer;
    var offset := 0;
    assert read + chunk[..0] == read;
    while offset < |chunk|
      invariant 0 <= offset <= |chunk|
      invariant Rechunked(parts', buffer', read + chunk[..offset])
    {
      var take := if PART_SIZE - |buffer'| <= |chunk| - offset then PART_SIZE - |buffer'| else |chunk| - offset;
      var piece := chunk[offset..offset + take];
      TookPiece(parts', buffer', read, chunk, offset, take);
      buffer' := buffer' + piece;
      offset := offset + take;
      if |buffer'| == PART_SIZE {
        PartSent(parts', buffer', read + chunk[..offset]);
        parts' := parts' + [Part(|parts'| + 1, buffer')];
        buffer' := [];
      }
    }
    assert chunk[..offset] == chunk;
  }

  lemma TookPiece(parts: seq<Part>, buffer: Bytes, read: Bytes, chunk: Bytes, offset: nat, take: nat)
    requires offset + take <= |chunk| && Joined(Bodies(parts)) + buffer == read + chunk[..offset]
    ensures Joined(Bodies(parts)) + (buffer + chunk[offset..offset + take]) == read + chunk[..offset + take]
  {
    assert chunk[..offset + take] == chunk[..offset] + chunk[offset..offset + take];
    assert Joined(Bodies(parts)) + (buffer + chunk[offset..offset + take])
        == (Joined(Bodies(parts)) + buffer) + chunk[offset..offset + take];
  }

  /** The parts of a stream, however it was chunked: numbered from one, and the one well-formed cut of
      its bytes. */
  method Rechunk(chunks: seq<Bytes>) returns (parts: seq<Part>)
    ensures Numbered(parts) && Bodies(parts) == PartsOf(Joined(chunks))
  {
    parts := [];
    var buffer: Bytes := [];
    var n := 0;
    assert Joined(Bodies([])) + [] == Joined(chunks[..0]);
    while n < |chunks|
      invariant 0 <= n <= |chunks|
      invariant Rechunked(parts, buffer, Joined(chunks[..n]))
    {
      JoinedAppend(chunks[..n], chunks[n]);
      assert chunks[..n + 1] == chunks[..n] + [chunks[n]];
      parts, buffer := TakeChunk(parts, buffer, chunks[n], Joined(chunks[..n]));
      n := n + 1;
    }
    assert chunks[..n] == chunks;
    LastPart(parts, buffer, Joined(chunks));
    if buffer != [] {
      parts := parts + [Part(|parts| + 1, buffer)];
    }
  }

  lemma LastPart(parts: seq<Part>, buffer: Bytes, read: Bytes)
    requires Rechunked(parts, buffer, read)
    ensures var all := if buffer != [] then parts + [Part(|parts| + 1, buffer)] else parts;
            Numbered(all) && Bodies(all) == PartsOf(read)
  {
    var all := if buffer != [] then parts + [Part(|parts| + 1, buffer)] else parts;
    if buffer != [] {
      JoinedAppend(Bodies(parts), buffer);
      assert Bodies(all) == Bodies(parts) + [buffer];
    } else {
      assert Joined(Bodies(all)) == read;
    }
    WellCutIsUnique(Bodies(all), read);
  }

  /** Two chunkings of the same bytes give the same parts. */
  lemma ChunkingDoesNotMatter(a: seq<Part>, b: seq<Part>, chunks: seq<Bytes>, others: seq<Bytes>)
    requires Joined(chunks) == Joined(others)
    requires Numbered(a) && Bodies(a) == PartsOf(Joined(chunks))
    requires Numbered(b) && Bodies(b) == PartsOf(Joined(others))
    ensures a == b
  {
    forall i | 0 <= i < |Bodies(a)|
      ensures a[i] == b[i]
    {
      assert Bodies(a)[i] == a[i].body && Bodies(b)[i] == b[i].body;
    }
    assert |a| == |Bodies(a)| == |Bodies(b)| == |b|;
  }

  /* ---- One object, any number of uploads ---- */

  datatype Metadata = Metadata(recordingId: string, contentIdentity: string)

  /** Who wrote an object: somebody before this protocol, or the upload call `id`. */
  datatype Writer = Foreign | Upload(id: nat)

  datatype Object = Object(metadata: Metadata, body: Bytes, writer: Writer)

  /** A call that returned remembers whether it could compare sizes. */
  datatype Pc = Head | Stream | Finish | HeadAgain | Returned(sized: bool) | Failed

  datatype Call = Call(metadata: Metadata, size: Option<nat>, stream: Bytes, pc: Pc)

  datatype Store = Store(stored: Option<Object>, calls: seq<Call>)

  datatype Event =
    | Start(metadata: Metadata, size: Option<nat>, stream: Bytes)
    | Advance(call: nat, outcome: Outcome, sized: bool)   // whether a head answer carries a content length
    | CutOff(call: nat)

  predicate SameOwner(stored: Object, c: Call, sized: bool) {
    stored.metadata == c.metadata && (c.size.None? || !sized || c.size.value == |stored.body|)
  }

  /** What the store makes of the parts. */
  function Assembled(c: Call): Bytes {
    Joined(PartsOf(c.stream))
  }

  /** Creation only if nothing is there; an empty stream goes the same way without parts. */
  function ObjectAfter(stored: Option<Object>, id: nat, c: Call, o: Outcome): Option<Object> {
    if c.pc.Finish? && stored.None? && !o.Broken? then Some(Object(c.metadata, Assembled(c), Upload(id))) else stored
  }

  function PcAfter(stored: Option<Object>, c: Call, o: Outcome, sized: bool): Pc {
    match c.pc
    case Head =>
      if !o.Fine? then Failed
      else if stored.None? then Stream
      else if SameOwner(stored.value, c, sized) then Returned(sized) else Failed
    case Stream => if o.Fine? then Finish else Failed
    case Finish => if o.Fine? && stored.None? then Returned(false) else HeadAgain
    case HeadAgain =>
      if o.Fine? && stored.Some? && SameOwner(stored.value, c, sized) then Returned(sized) else Failed
    case Returned(_) => c.pc
    case Failed => Failed
  }

  function Step(s: Store, e: Event): Store {
    match e
    case Start(metadata, size, stream) => s.(calls := s.calls + [Call(metadata, size, stream, Head)])
    case Advance(i, o, sized) =>
      if i >= |s.calls| then s
      else
        var c := s.calls[i];
        Store(ObjectAfter(s.stored, i, c, o), s.calls[i := c.(pc := PcAfter(s.stored, c, o, sized))])
    case CutOff(i) =>
      if i >= |s.calls| || s.calls[i].pc.Returned? then s
      else s.(calls := s.calls[i := s.calls[i].(pc := Failed)])
  }

  function Run(s: Store, events: seq<Event>): Store
    decreases |events|
  {
    if events == [] then s else Run(Step(s, events[0]), events[1..])
  }

  /** What a returning call finds: an object of its own metadata, of exactly its bytes when it wrote it,
      and otherwise of its size when it knows one and the store told it the length. */
  predicate Justified(stored: Option<Object>, i: nat, c: Call) {
    && stored.Some? && stored.value.metadata == c.metadata
    && (stored.value.writer == Upload(i) ==> stored.value.body == c.stream)
    && (stored.value.writer != Upload(i) && c.size.Some? && c.pc == Returned(true) ==>
          c.size.value == |stored.value.body|)
  }

  predicate Inv(s: Store) {
    && (s.stored.Some? && s.stored.value.writer.Upload? ==>
          var id := s.stored.value.writer.id;
          id < |s.calls| && s.calls[id].metadata == s.stored.value.metadata
          && s.calls[id].stream == s.stored.value.body)
    && (forall i :: 0 <= i < |s.calls| && s.calls[i].pc.Returned? ==> Justified(s.stored, i, s.calls[i]))
  }

  lemma StepKeepsInv(s: Store, e: Event)
    requires Inv(s)
    ensures Inv(Step(s, e))
  {
    if e.Advance? && e.call < |s.calls| {
      var t := Step(s, e);
      PartsAreWellCut(s.calls[e.call].stream);
      forall i | 0 <= i < |t.calls| && t.calls[i].pc.Returned?
        ensures Justified(t.stored, i, t.calls[i])
      {
        if i != e.call {
          assert Justified(s.stored, i, s.calls[i]);
        }
      }
    }
  }

  lemma {:induction false} RunKeepsInv(s: Store, events: seq<Event>)
    requires Inv(s)
    ensures Inv(Run(s, events))
    decreases |events|
  {
    if events != [] {
      StepKeepsInv(s, events[0]);
      RunKeepsInv(Step(s, events[0]), events[1..]);
    }
  }

  /** A stored object is never replaced. */
  lemma {:induction false} ObjectsStay(s: Store, events: seq<Event>)
    requires s.stored.Some?
    ensures Run(s, events).stored == s.stored
    decreases |events|
  {
    if events != [] {
      ObjectsStay(Step(s, events[0]), events[1..]);
    }
  }

  /** The object that any interleaving of uploads leaves is the one that was there, or byte for byte the
      stream of one of the calls under that call's metadata; every call that returns is justified. */
  lemma StoredObjectIsOneStream(stored: Option<Object>, events: seq<Event>)
    requires stored.Some? ==> stored.value.writer.Foreign?
    ensures var t := Run(Store(stored, []), events);
            && (t.stored == stored
                || (t.stored.Some? && t.stored.value.writer.Upload?
                    && var id := t.stored.value.writer.id;
                       id < |t.calls|
                       && t.stored.value == Object(t.calls[id].metadata, t.calls[id].stream, Upload(id))))
            && forall i :: 0 <= i < |t.calls| && t.calls[i].pc.Returned? ==> Justified(t.stored, i, t.calls[i])
  {
    RunKeepsInv(Store(stored, []), events);
    WriterIsOldOrUpload(Store(stored, []), events);
  }

  lemma {:induction false} WriterIsOldOrUpload(s: Store, events: seq<Event>)
    ensures var t := Run(s, events);
            t.stored == s.stored || (t.stored.Some? && t.stored.value.writer.Upload?)
    decreases |events|
  {
    if events != [] {
      WriterIsOldOrUpload(Step(s, events[0]), events[1..]);
    }
  }

  /** Calls for different recordings or contents never both succeed. */
  lemma DifferentOwnersNeverBothReturn(stored: Option<Object>, events: seq<Event>, i: nat, j: nat)
    requires stored.Some? ==> stored.value.writer.Foreign?
    ensures var t := Run(Store(stored, []), events);
            i < |t.calls| && j < |t.calls| && t.calls[i].metadata != t.calls[j].metadata ==>
              !(t.calls[i].pc.Returned? && t.calls[j].pc.Returned?)
  {
    StoredObjectIsOneStream(stored, events);
  }

  /* ---- What a call ends in ---- */

  lemma {:induction false} EndedStays(s: Store, i: nat, events: seq<Event>)
    requires i < |s.calls| && (s.calls[i].pc.Returned? || s.calls[i].pc == Failed)
    ensures i < |Run(s, events).calls| && Run(s, events).calls[i] == s.calls[i]
    decreases |events|
  {
    if events != [] {
      EndedStays(Step(s, events[0]), i, events[1..]);
    }
  }

  /** What a look at the stored object lets a call conclude: its metadata, and its size where both know one. */
  predicate Agrees(stored: Object, metadata: Metadata, size: Option<nat>, sized: bool) {
    stored.metadata == metadata && (size.Some? && sized ==> size == Some(|stored.body|))
  }

  lemma ThreeRequests(s: Store, a: Event, b: Event, c: Event)
    ensures Run(s, [a, b, c]) == Step(Step(Step(s, a), b), c)
  {
    assert [a, b, c][1..] == [b, c] && [b, c][1..] == [c];
    assert Run(Step(Step(s, a), b), [c]) == Run(Step(Step(Step(s, a), b), c), []);
  }

  /** A call that nothing disturbs writes its stream under a free key with its third request, and returns; under
      a taken one it asks once, writes nothing, and returns exactly when metadata and known sizes agree. */
  lemma UndisturbedCallReturnsExactlyWhenFreeOrOwn(
      stored: Option<Object>, metadata: Metadata, size: Option<nat>, stream: Bytes, sized: bool)
    ensures var s := Step(Store(stored, []), Start(metadata, size, stream));
            var head := Advance(0, Fine, sized);
            var t := Run(s, [head, Advance(0, Fine, sized), Advance(0, Fine, sized)]);
            && |t.calls| == 1
            && (t.calls[0].pc.Returned? <==> stored.None? || Agrees(stored.value, metadata, size, sized))
            && (!t.calls[0].pc.Returned? ==> t.calls[0].pc == Failed)
            && t.stored == (if stored.None? then Some(Object(metadata, stream, Upload(0))) else stored)
            && Step(Step(s, head), head).stored == stored
            && (stored.Some? ==> Step(s, head) == t)
  {
    PartsAreWellCut(stream);
    var s := Step(Store(stored, []), Start(metadata, size, stream));
    var head := Advance(0, Fine, sized);
    ThreeRequests(s, head, head, head);
  }

  /** A creation without an answer, or at a key taken meanwhile, is decided by another look: the call returns
      exactly when there is an object then that agrees. Its own object always does, unless the size announced
      is not the one of the stream. */
  lemma UnansweredCreationIsReadBack(s: Store, i: nat, o: Outcome, first: bool, sized: bool)
    requires i < |s.calls| && s.calls[i].pc == Finish && (!o.Fine? || s.stored.Some?)
    ensures var c := s.calls[i];
            var there := if s.stored.None? && o.BrokenAfter? then Some(Object(c.metadata, c.stream, Upload(i)))
                         else s.stored;
            var t := Step(Step(s, Advance(i, o, first)), Advance(i, Fine, sized));
            && t.stored == there
            && t.calls[i].pc == if there.Some? && Agrees(there.value, c.metadata, c.size, sized)
                                then Returned(sized) else Failed
  {
    PartsAreWellCut(s.calls[i].stream);
  }

  /** Any other request without an answer ends the call, with nothing stored by it. */
  lemma UnansweredRequestFails(s: Store, i: nat, o: Outcome, sized: bool, events: seq<Event>)
    requires i < |s.calls| && !o.Fine? && !s.calls[i].pc.Returned? && s.calls[i].pc != Finish
    ensures Step(s, Advance(i, o, sized)).stored == s.stored
    ensures var t := Run(Step(s, Advance(i, o, sized)), events); i < |t.calls| && t.calls[i].pc == Failed
  {
    EndedStays(Step(s, Advance(i, o, sized)), i, events);
  }

  /** A call that is cut off never asks again; one that has returned cannot be cut off. */
  lemma CutOffIsTheEnd(s: Store, i: nat, events: seq<Event>)
    requires i < |s.calls|
    ensures Step(s, CutOff(i)).stored == s.stored
    ensures var t := Run(Step(s, CutOff(i)), events);
            i < |t.calls| && t.calls[i].pc == if s.calls[i].pc.Returned? then s.calls[i].pc else Failed
  {
    EndedStays(Step(s, CutOff(i)), i, events);
  }

  /** The object behind one key. */
  class Bucket {
    var stored: Option<Object>

    constructor ()
      ensures stored.None?
    {
      stored := None;
    }

    /** Creation with the condition that nothing exists under the key. */
    method CreateIfAbsent(id: nat, metadata: Metadata, parts: seq<Part>, o: Outcome) returns (ok: bool)
      modifies this
      ensures ok == (old(stored).None? && o.Fine?)
      ensures stored == if old(stored).None? && !o.Broken?
                        then Some(Object(metadata, Joined(Bodies(parts)), Upload(id))) else old(stored)
    {
      ok := stored.None? && o.Fine?;
      if stored.None? && !o.Broken? {
        stored := Some(Object(metadata, Joined(Bodies(parts)), Upload(id)));
      }
    }
  }

  /** One execution of `upload`, whatever the chunks its stream arrives in. */
  class UploadCall {
    const id: nat
    const metadata: Metadata
    const size: Option<nat>
    const chunks: seq<Bytes>
    var parts: seq<Part>
    var pc: Pc

    ghost function View(): Call
      reads this
    {
      Call(metadata, size, Joined(chunks), pc)
    }

    ghost predicate Valid()
      reads this
    {
      pc.Finish? ==> Numbered(parts) && Bodies(parts) == PartsOf(Joined(chunks))
    }

    constructor (id: nat, metadata: Metadata, size: Option<nat>, chunks: seq<Bytes>)
      ensures Valid() && this.id == id && View() == Call(metadata, size, Joined(chunks), Head)
    {
      this.id, this.metadata, this.size, this.chunks := id, metadata, size, chunks;
      parts, pc := [], Head;
    }

    method Advance(bucket: Bucket, o: Outcome, sized: bool)
      requires Valid()
      modifies this`pc, this`parts, bucket
      ensures Valid()
      ensures bucket.stored == ObjectAfter(old(bucket.stored), id, old(View()), o)
      ensures pc == PcAfter(old(bucket.stored), old(View()), o, sized)
    {
      match pc
      case Head =>
        if !o.Fine? {
          pc := Failed;
        } else if bucket.stored.None? {
          pc := Stream;
        } else {
          RequireSameOwner(bucket.stored.value, sized);
        }
      case Stream =>
        if o.Fine? {
          parts := Rechunk(chunks);
          pc := Finish;
        } else {
          pc := Failed;
        }
      case Finish =>
        var ok := bucket.CreateIfAbsent(id, metadata, parts, o);
        pc := if ok then Returned(false) else HeadAgain;
      case HeadAgain =>
        if o.Fine? && bucket.stored.Some? {
          RequireSameOwner(bucket.stored.value, sized);
        } else {
          pc := Failed;
        }
      case Returned(_) =>
      case Failed =>
    }

    method RequireSameOwner(existing: Object, sized: bool)
      modifies this`pc
      ensures pc == if SameOwner(existing, old(View()), sized) then Returned(sized) else Failed
    {
      var sameSize := size.None? || !sized || size.value == |existing.body|;
      pc := if sameSize && existing.metadata == metadata then Returned(sized) else Failed;
    }
  }
}

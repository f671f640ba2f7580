/** Histories of the FAISS store: every interleaving of uses, failures and crashes. */
module FaissHistory {
  import opened Options
  import opened FaissModel
  import opened FaissAlignment

  // -------------------------------------------------------------------- histories

  datatype Op =
    | Ready                                     // ensure_ready
    | Open                                      // what search does before it looks anything up
    | OpenFails                                 // ... when nothing can be embedded
    | Batch(chunks: seq<Chunk>)                 // upsert
    | BatchFails(chunks: seq<Chunk>)            // upsert whose rows cannot be embedded
    | Crash(chunks: seq<Chunk>, writes: nat)    // the process dies within an upsert
    | Reboot

  predicate Identified(chunks: seq<Chunk>) {
    forall c :: c in chunks ==> Identifier(c) != ""
  }

  function PairsIn(op: Op): Stored {
    match op
    case Batch(chunks) => PairsOf(chunks)
    case BatchFails(chunks) => PairsOf(chunks)
    case Crash(chunks, _) => PairsOf(chunks)
    case _ => {}
  }

  predicate CanStep(s: Store, op: Op) {
    match op
    case Ready => CanStage(LoadPayloads(s))
    case Open => CanStage(LoadIfEmpty(s))
    case OpenFails => CanStage(LoadIfEmpty(s))
    case Batch(chunks) => CanStage(Taken(s, chunks).0)
    case BatchFails(chunks) => CanStage(Taken(s, chunks).0)
    case Crash(chunks, _) => CanStage(Taken(s, chunks).0)
    case Reboot => true
  }

  function Do(embed: string -> Vec, s: Store, op: Op): Store
    requires CanStep(s, op)
  {
    match op
    case Ready => EnsureIndex(embed, LoadPayloads(s))
    case Open => EnsureIndex(embed, LoadIfEmpty(s))
    case OpenFails =>
      var t := LoadIfEmpty(s);
      if t.index.None? && t.disk.index.None? && t.ordered != [] then t.(index := Some([])) else EnsureIndex(embed, t)
    case Batch(chunks) => Upsert(embed, s, chunks).0
    case BatchFails(chunks) =>
      var (t, accepted) := Taken(s, chunks);
      if chunks == [] then s else if !accepted then t else UpsertStage(embed, t, 2).(index := Some([]))
    case Crash(chunks, writes) =>
      var (t, accepted) := Taken(s, chunks);
      if chunks == [] || !accepted then Restart(s.disk) else Restart(UpsertStage(embed, t, writes).disk)
    case Reboot => Restart(s.disk)
  }

  lemma CanAlwaysStep(embed: string -> Vec, stored: Stored, s: Store, op: Op)
    requires Aligned(embed, stored, s)
    ensures CanStep(s, op)
  {
    match op
    case Ready => LoadAligned(embed, stored, s);
    case Open => LoadIfEmptyAligned(embed, stored, s);
    case OpenFails => LoadIfEmptyAligned(embed, stored, s);
    case Batch(chunks) => TakenAhead(embed, stored, s, chunks);
    case BatchFails(chunks) => TakenAhead(embed, stored, s, chunks);
    case Crash(chunks, _) => TakenAhead(embed, stored, s, chunks);
    case _ =>
  }

  lemma NoRowsAligned(embed: string -> Vec, stored: Stored, s: Store)
    requires DiskSound(embed, stored, s.disk) && MemorySound(stored, s) && s.index == Some([])
    ensures Aligned(embed, stored, s)
  {
  }

  lemma ReadyAligned(embed: string -> Vec, stored: Stored, s: Store)
    requires Aligned(embed, stored, s)
    ensures CanStep(s, Ready) && Aligned(embed, stored, Do(embed, s, Ready))
  {
    LoadAligned(embed, stored, s);
    var t := LoadPayloads(s);
    assert !Unsaved(t);
    EnsureIndexAligned(embed, stored, t);
  }

  lemma OpenAligned(embed: string -> Vec, stored: Stored, s: Store)
    requires Aligned(embed, stored, s)
    ensures CanStep(s, Open) && CanStep(s, OpenFails) && Aligned(embed, stored, Do(embed, s, OpenFails))
    ensures Aligned(embed, stored, Do(embed, s, Open)) <==> !WritesUnsaved(s)
  {
    CanAlwaysStep(embed, stored, s, Open);
    LoadIfEmptyAligned(embed, stored, s);
    var t := LoadIfEmpty(s);
    assert LoadIfEmpty(t) == t;
    EnsureIndexAlignedIff(embed, stored, t);
    if t.index.None? && t.disk.index.None? && t.ordered != [] {
      NoRowsAligned(embed, stored, t.(index := Some([])));
    }
    hide Aligned;
  }

  /** Every step of any history keeps the store aligned, except an opening that would index
      unsaved ids. */
  lemma DoAligned(embed: string -> Vec, stored: Stored, s: Store, op: Op)
    requires Aligned(embed, stored, s) && (op.Open? ==> !WritesUnsaved(s))
    ensures CanStep(s, op) && Aligned(embed, stored + PairsIn(op), Do(embed, s, op))
  {
    CanAlwaysStep(embed, stored, s, op);
    match op {
      case Ready => ReadyAligned(embed, stored, s); assert stored + {} == stored;
      case Open => OpenAligned(embed, stored, s); assert stored + {} == stored;
      case OpenFails => OpenAligned(embed, stored, s); assert stored + {} == stored;
      case Reboot => assert stored + {} == stored;
      case _ => BatchAligned(embed, stored, s, op);
    }
  }

  lemma RebootAligned(embed: string -> Vec, stored: Stored, s: Store)
    requires Aligned(embed, stored, s)
    ensures Aligned(embed, stored, Restart(s.disk))
  {
    RestartAligned(embed, stored, s.disk);
  }

  lemma AheadIsAligned(embed: string -> Vec, stored: Stored, s: Store)
    requires Ahead(embed, stored, s)
    ensures Aligned(embed, stored, s) && CanStage(s)
  {
  }

  /** A batch whose files were written, fully or in part. */
  lemma StagedAligned(embed: string -> Vec, stored: Stored, t: Store, writes: nat)
    requires Ahead(embed, stored, t)
    ensures CanStage(t) && Aligned(embed, stored, UpsertStage(embed, t, writes))
    ensures Aligned(embed, stored, Restart(UpsertStage(embed, t, writes).disk))
    ensures Aligned(embed, stored, UpsertStage(embed, t, writes).(index := Some([])))
  {
    StagesAligned(embed, stored, t, writes);
    var u := UpsertStage(embed, t, writes);
    hide UpsertStage, RowsAligned;
    RebootAligned(embed, stored, u);
    NoRowsAligned(embed, stored, u.(index := Some([])));
  }

  lemma BatchAligned(embed: string -> Vec, stored: Stored, s: Store, op: Op)
    requires Aligned(embed, stored, s) && (op.Batch? || op.BatchFails? || op.Crash?)
    ensures CanStep(s, op) && Aligned(embed, stored + PairsIn(op), Do(embed, s, op))
  {
    CanAlwaysStep(embed, stored, s, op);
    TakenAhead(embed, stored, s, op.chunks);
    var (t, accepted) := Taken(s, op.chunks);
    var more := stored + PairsOf(op.chunks);
    StoredGrows(embed, stored, more, s);
    AheadIsAligned(embed, more, t);
    RebootAligned(embed, more, s);
    StagedAligned(embed, more, t, if op.Crash? then op.writes else if op.Batch? then 3 else 2);
    hide Ahead, Aligned, Taken, PairsOf, UpsertStage, CanStage;
  }

  function After(embed: string -> Vec, s: Store, ops: seq<Op>): Store
    decreases |ops|
  {
    if ops == [] || !CanStep(s, ops[0]) then s else After(embed, Do(embed, s, ops[0]), ops[1..])
  }

  function PairsOver(ops: seq<Op>): Stored {
    if ops == [] then {} else PairsIn(ops[0]) + PairsOver(ops[1..])
  }

  /** No opening of the index happens while a rejected batch's ids are only in memory. */
  predicate Careful(embed: string -> Vec, s: Store, ops: seq<Op>)
    decreases |ops|
  {
    ops == [] || !CanStep(s, ops[0])
    || ((ops[0].Open? ==> !WritesUnsaved(s)) && Careful(embed, Do(embed, s, ops[0]), ops[1..]))
  }

  /** Main result: the store is aligned after any careful history of uses, failures and crashes. */
  lemma {:induction false} HistoryAligned(embed: string -> Vec, stored: Stored, s: Store, ops: seq<Op>)
    requires Aligned(embed, stored, s) && Careful(embed, s, ops)
    ensures Aligned(embed, stored + PairsOver(ops), After(embed, s, ops))
    decreases |ops|
  {
    hide Aligned, WritesUnsaved;
    if ops == [] {
      assert stored + PairsOver(ops) == stored;
    } else {
      CanAlwaysStep(embed, stored, s, ops[0]);
      DoAligned(embed, stored, s, ops[0]);
      HistoryAligned(embed, stored + PairsIn(ops[0]), Do(embed, s, ops[0]), ops[1..]);
      assert stored + PairsIn(ops[0]) + PairsOver(ops[1..]) == stored + PairsOver(ops);
      hide Do, PairsIn, CanStep;
    }
  }

  predicate AllIdentified(ops: seq<Op>) {
    forall op :: op in ops && (op.Batch? || op.BatchFails? || op.Crash?) ==> Identified(op.chunks)
  }

  lemma {:induction false} IdentifiedAccepted(s: Store, chunks: seq<Chunk>)
    requires Identified(chunks)
    ensures PutChunks(s, chunks).1
    decreases |chunks|
  {
    if chunks != [] {
      assert chunks[0] in chunks;
      IdentifiedAccepted(PutChunk(s, chunks[0]), chunks[1..]);
    }
  }

  /** Memory holds no id that the files lack. */
  predicate Level(s: Store) {
    s.payloads.items != map[] ==> s.ordered == DiskOrdered(s.disk)
  }

  lemma LevelIsSaved(s: Store)
    requires Level(s)
    ensures !Unsaved(s)
  {
  }

  lemma DoLevel(embed: string -> Vec, stored: Stored, s: Store, op: Op)
    requires Aligned(embed, stored, s) && Level(s) && AllIdentified([op])
    ensures CanStep(s, op) && Level(Do(embed, s, op))
  {
    CanAlwaysStep(embed, stored, s, op);
    if op.Batch? || op.BatchFails? || op.Crash? {
      assert op in [op];
      TakenAhead(embed, stored, s, op.chunks);
      IdentifiedAccepted(LoadIfEmpty(s), op.chunks);
      StagesAligned(embed, stored + PairsOf(op.chunks), Taken(s, op.chunks).0,
                    if op.Crash? then op.writes else if op.Batch? then 3 else 2);
      hide Ahead, Aligned, PutChunks, PairsOf, UpsertStage, DiskOrdered, CanStage;
    } else {
      LoadIfEmptyAligned(embed, stored, s);
      OpenLevel(embed, stored, s, op);
    }
  }

  /** The index file plays no part in what a load takes as ids and payloads. */
  lemma IndexFileApart(disk: Disk, index: Option<seq<Vec>>)
    ensures DiskOrdered(disk.(index := index)) == DiskOrdered(disk)
    ensures DiskDict(disk.(index := index)) == DiskDict(disk)
  {
  }

  lemma OpenLevel(embed: string -> Vec, stored: Stored, s: Store, op: Op)
    requires Aligned(embed, stored, s) && Level(s) && CanStep(s, op)
    requires op.Ready? || op.Open? || op.OpenFails? || op.Reboot?
    ensures Level(Do(embed, s, op))
  {
    var t := Do(embed, s, op);
    IndexFileApart(s.disk, t.disk.index);
    hide Aligned, DiskDict, KeepKnown, Rows, DiskOrdered;
  }

  /** When every chunk carries an identifier, every history is careful. */
  lemma {:induction false} IdentifiedHistoriesAligned(embed: string -> Vec, stored: Stored, s: Store, ops: seq<Op>)
    requires Aligned(embed, stored, s) && Level(s) && AllIdentified(ops)
    ensures Careful(embed, s, ops) && Level(After(embed, s, ops))
    ensures Aligned(embed, stored + PairsOver(ops), After(embed, s, ops))
    decreases |ops|
  {
    if ops != [] {
      assert ops[0] in ops;
      LevelIsSaved(s);
      DoLevel(embed, stored, s, ops[0]);
      DoAligned(embed, stored, s, ops[0]);
      hide Aligned, Level, Do, Unsaved, PairsIn, CanStep;
      IdentifiedHistoriesAligned(embed, stored + PairsIn(ops[0]), Do(embed, s, ops[0]), ops[1..]);
    }
    hide Aligned, Level, Do, Unsaved, PairsIn, CanStep;
    HistoryAligned(embed, stored, s, ops);
  }

  // -------------------------------------------------------- what an upsert leaves

  /** The identifiers not seen before, each where it first appears. */
  function FirstSeen(chunks: seq<Chunk>, seen: seq<string>): seq<string>
    decreases |chunks|
  {
    if chunks == [] then []
    else
      var id := Identifier(chunks[0]);
      if id in seen then FirstSeen(chunks[1..], seen) else [id] + FirstSeen(chunks[1..], seen + [id])
  }

  predicate FirstWith(chunks: seq<Chunk>, i: nat)
    requires i < |chunks|
  {
    forall k | 0 <= k < i :: Identifier(chunks[k]) != Identifier(chunks[i])
  }

  /** New identifiers keep the order of their first appearance in the batch. */
  lemma {:induction false} FirstSeenInOrder(chunks: seq<Chunk>, seen: seq<string>, i: nat, j: nat)
    returns (a: nat, b: nat)
    requires i < j < |chunks| && FirstWith(chunks, i) && FirstWith(chunks, j)
    requires Identifier(chunks[i]) !in seen && Identifier(chunks[j]) !in seen
    ensures a < b < |FirstSeen(chunks, seen)|
    ensures FirstSeen(chunks, seen)[a] == Identifier(chunks[i])
    ensures FirstSeen(chunks, seen)[b] == Identifier(chunks[j])
    decreases |chunks|
  {
    var id := Identifier(chunks[0]);
    var rest := chunks[1..];
    assert forall k | 0 <= k < |rest| :: rest[k] == chunks[k + 1];
    if i > 0 {
      assert Identifier(chunks[0]) != Identifier(chunks[i]) && Identifier(chunks[0]) != Identifier(chunks[j]);
      a, b := FirstSeenInOrder(rest, if id in seen then seen else seen + [id], i - 1, j - 1);
      if id !in seen { a, b := a + 1, b + 1; }
    } else {
      assert Identifier(chunks[0]) != Identifier(chunks[j]);
      b := FirstSeenHas(rest, seen + [id], j - 1);
      a, b := 0, b + 1;
    }
  }

  lemma {:induction false} FirstSeenHas(chunks: seq<Chunk>, seen: seq<string>, j: nat) returns (b: nat)
    requires j < |chunks| && Identifier(chunks[j]) !in seen
    ensures b < |FirstSeen(chunks, seen)| && FirstSeen(chunks, seen)[b] == Identifier(chunks[j])
    decreases |chunks|
  {
    var id := Identifier(chunks[0]);
    if Identifier(chunks[j]) == id {
      b := 0;
    } else {
      b := FirstSeenHas(chunks[1..], if id in seen then seen else seen + [id], j - 1);
      if id !in seen { b := b + 1; }
    }
  }

  lemma {:induction false} PutChunksOrder(s: Store, chunks: seq<Chunk>)
    requires Identified(chunks)
    ensures PutChunks(s, chunks).0.ordered == s.ordered + FirstSeen(chunks, s.ordered)
    decreases |chunks|
  {
    if chunks == [] {
      assert s.ordered + FirstSeen(chunks, s.ordered) == s.ordered;
    } else {
      var t, rest := PutChunk(s, chunks[0]), chunks[1..];
      OneOrdered(s, chunks);
      assert Identified(rest);
      PutChunksOrder(t, rest);
      hide *;
    }
  }

  lemma OneOrdered(s: Store, chunks: seq<Chunk>)
    requires chunks != [] && Identified(chunks)
    ensures PutChunks(s, chunks) == PutChunks(PutChunk(s, chunks[0]), chunks[1..])
    ensures var t := PutChunk(s, chunks[0]);
      s.ordered + FirstSeen(chunks, s.ordered) == t.ordered + FirstSeen(chunks[1..], t.ordered)
  {
    assert chunks[0] in chunks;
    var t, id := PutChunk(s, chunks[0]), Identifier(chunks[0]);
    assert t.ordered == if id in s.ordered then s.ordered else s.ordered + [id];
    hide Put, Identifier, PutChunks, PutChunk;
    assert s.ordered + [id] + FirstSeen(chunks[1..], t.ordered) == s.ordered + ([id] + FirstSeen(chunks[1..], t.ordered));
  }

  predicate LastWith(chunks: seq<Chunk>, i: nat)
    requires i < |chunks|
  {
    forall k | i < k < |chunks| :: Identifier(chunks[k]) != Identifier(chunks[i])
  }

  predicate Untouched(chunks: seq<Chunk>, id: string) {
    forall c :: c in chunks ==> Identifier(c) != id
  }

  /** The last chunk with an identifier decides its payload. */
  lemma {:induction false} LastWriteWins(s: Store, chunks: seq<Chunk>, i: nat)
    requires Identified(chunks) && i < |chunks| && LastWith(chunks, i)
    ensures var items := PutChunks(s, chunks).0.payloads.items;
      Identifier(chunks[i]) in items && items[Identifier(chunks[i])] == chunks[i].payload
    decreases |chunks|
  {
    assert chunks[0] in chunks;
    var rest := chunks[1..];
    if i == 0 {
      forall c | c in rest ensures Identifier(c) != Identifier(chunks[0]) {
        var k :| 0 <= k < |rest| && rest[k] == c;
        assert c == chunks[k + 1];
      }
      UntouchedKept(PutChunk(s, chunks[0]), rest, Identifier(chunks[0]));
    } else {
      assert forall k | 0 <= k < |rest| :: rest[k] == chunks[k + 1];
      LastWriteWins(PutChunk(s, chunks[0]), rest, i - 1);
    }
  }

  lemma {:induction false} UntouchedKept(s: Store, chunks: seq<Chunk>, id: string)
    requires Identified(chunks) && Untouched(chunks, id)
    ensures var items := PutChunks(s, chunks).0.payloads.items;
      (id in items <==> id in s.payloads.items) && (id in items ==> items[id] == s.payloads.items[id])
    decreases |chunks|
  {
    if chunks != [] {
      assert chunks[0] in chunks;
      UntouchedKept(PutChunk(s, chunks[0]), chunks[1..], id);
    }
  }

  /** Main result: after a completed upsert every row embeds the current text of its id, the
      files say the same as memory, new ids follow the old in order of first appearance,
      and the last payload of each id wins. */
  lemma UpsertCompletes(embed: string -> Vec, stored: Stored, s: Store, chunks: seq<Chunk>)
    requires Aligned(embed, stored, s) && chunks != [] && Identified(chunks)
    ensures CanStage(Taken(s, chunks).0) && Upsert(embed, s, chunks).1
    ensures var t := Upsert(embed, s, chunks).0;
      && CanStage(t) && t.index == Some(Rows(embed, t)) && t.disk.index == t.index
      && DiskDict(t.disk) == t.payloads && DiskOrdered(t.disk) == t.ordered
      && t.ordered == LoadIfEmpty(s).ordered + FirstSeen(chunks, LoadIfEmpty(s).ordered)
    ensures var t := Upsert(embed, s, chunks).0;
      forall i | 0 <= i < |chunks| && LastWith(chunks, i) ::
        Identifier(chunks[i]) in t.payloads.items && t.payloads.items[Identifier(chunks[i])] == chunks[i].payload
    ensures var t, before := Upsert(embed, s, chunks).0.payloads.items, LoadIfEmpty(s).payloads.items;
      forall id | Untouched(chunks, id) ::
        (id in t <==> id in before) && (id in t ==> t[id] == before[id])
  {
    var s1 := LoadIfEmpty(s);
    TakenAhead(embed, stored, s, chunks);
    IdentifiedAccepted(s1, chunks);
    var (t, accepted) := Taken(s, chunks);
    assert accepted && t == PutChunks(s1, chunks).0;
    hide *;
    PutChunksOrder(s1, chunks);
    SomeOrdered(s1, chunks);
    UpsertMirrored(embed, stored + PairsOf(chunks), t);
    UpsertAccepted(embed, s, chunks);
    LastWritesWin(s1, chunks);
  }

  lemma UpsertAccepted(embed: string -> Vec, s: Store, chunks: seq<Chunk>)
    requires chunks != [] && CanStage(Taken(s, chunks).0) && Taken(s, chunks).1
    ensures Upsert(embed, s, chunks) == (UpsertStage(embed, Taken(s, chunks).0, 3), true)
    ensures var (t, u) := (Taken(s, chunks).0, Upsert(embed, s, chunks).0);
      u.payloads == t.payloads && u.ordered == t.ordered
  {
  }

  lemma LastWritesWin(s: Store, chunks: seq<Chunk>)
    requires Identified(chunks)
    ensures var items := PutChunks(s, chunks).0.payloads.items;
      forall i | 0 <= i < |chunks| && LastWith(chunks, i) ::
        Identifier(chunks[i]) in items && items[Identifier(chunks[i])] == chunks[i].payload
    ensures var items := PutChunks(s, chunks).0.payloads.items;
      forall id | Untouched(chunks, id) ::
        (id in items <==> id in s.payloads.items) && (id in items ==> items[id] == s.payloads.items[id])
  {
    var items := PutChunks(s, chunks).0.payloads.items;
    hide *;
    forall i | 0 <= i < |chunks| && LastWith(chunks, i)
      ensures Identifier(chunks[i]) in items && items[Identifier(chunks[i])] == chunks[i].payload
    {
      LastWriteWins(s, chunks, i);
    }
    forall id | Untouched(chunks, id)
      ensures (id in items <==> id in s.payloads.items) && (id in items ==> items[id] == s.payloads.items[id])
    {
      UntouchedKept(s, chunks, id);
    }
  }

  lemma SomeOrdered(s: Store, chunks: seq<Chunk>)
    requires chunks != [] && Identified(chunks)
    ensures PutChunks(s, chunks).0.ordered != []
  {
    PutChunksOrder(s, chunks);
    if Identifier(chunks[0]) !in s.ordered { assert FirstSeen(chunks, s.ordered) != []; }
  }

  /** Three writes leave the files saying what memory says. */
  lemma UpsertMirrored(embed: string -> Vec, stored: Stored, s: Store)
    requires Ahead(embed, stored, s) && s.ordered != []
    ensures var t := UpsertStage(embed, s, 3);
      && CanStage(t) && t.index == Some(Rows(embed, t)) && t.disk.index == t.index
      && DiskDict(t.disk) == t.payloads && DiskOrdered(t.disk) == t.ordered
  {
    StagesAligned(embed, stored, s, 3);
    PayloadsWritten(embed, stored, s);
    MappingWritten(embed, stored, WritePayloads(s));
    IndexFileApart(WriteMapping(WritePayloads(s)).disk, UpsertStage(embed, s, 3).disk.index);
    hide Ahead, DiskDict, DiskOrdered;
  }

  const NOTHING: Disk := Disk(None, None, None)

  lemma PutOne(s: Store, c: Chunk, rest: seq<Chunk>)
    requires Identifier(c) != ""
    ensures PutChunks(s, [c] + rest) == PutChunks(PutChunk(s, c), rest)
  {
    assert ([c] + rest)[1..] == rest;
  }

  lemma AfterOne(embed: string -> Vec, s: Store, op: Op, rest: seq<Op>)
    requires CanStep(s, op)
    ensures After(embed, s, [op] + rest) == After(embed, Do(embed, s, op), rest)
  {
    assert ([op] + rest)[1..] == rest;
  }

  lemma PairOfOne(c: Chunk, rest: seq<Chunk>)
    requires Identifier(c) != "" && (rest == [] || Identifier(rest[0]) == "")
    ensures PairsOf([c] + rest) == {(Identifier(c), c.payload.text)}
  {
    assert ([c] + rest)[1..] == rest;
  }

  lemma FirstPut(disk: Disk, c: Chunk)
    ensures PutChunk(Restart(disk), c)
         == Store(disk, Dict(map[Identifier(c) := c.payload], [Identifier(c)]), [Identifier(c)], None)
  {
    var id := Identifier(c);
    var none: seq<string> := [];
    assert none + [id] == [id];
    assert EMPTY.items[id := c.payload] == map[id := c.payload];
  }

  /** The first half of the breaking use: an id that no file knows gets the only row. */
  lemma RejectedBatchIndexed(embed: string -> Vec, first: Payload)
    ensures var a := Chunk("a", "", first);
      var s0 := Restart(NOTHING);
      var batch := Batch([a] + [Chunk("", "", first)]);
      CanStep(s0, batch) && CanStep(Do(embed, s0, batch), Open)
      && Do(embed, Do(embed, s0, batch), Open).disk == Disk(None, None, Some([embed(first.text)]))
  {
    var a, rejected := Chunk("a", "", first), Chunk("", "", first);
    var s0 := Restart(NOTHING);
    assert LoadIfEmpty(s0) == s0;
    PutOne(s0, a, [rejected]);
    FirstPut(NOTHING, a);
    var s1 := Store(NOTHING, Dict(map["a" := first], ["a"]), ["a"], None);
    assert Taken(s0, [a] + [rejected]) == (s1, false);
    assert Rows(embed, s1) == [embed(first.text)];
  }

  /** The second half: the next upsert's id lands on that row. */
  lemma OrphanRowRelabelled(embed: string -> Vec, row: Vec, other: Payload)
    ensures var s3 := Restart(Disk(None, None, Some([row])));
      var crash := Crash([Chunk("b", "", other)] + [], 2);
      CanStep(s3, crash) && CanStep(Do(embed, s3, crash), Open)
      && var t := Do(embed, Do(embed, s3, crash), Open);
      && t.ordered == ["b"] && t.payloads.items == map["b" := other] && t.index == Some([row])
  {
    var b := Chunk("b", "", other);
    var s3 := Restart(Disk(None, None, Some([row])));
    assert LoadIfEmpty(s3) == s3;
    PutOne(s3, b, []);
    FirstPut(s3.disk, b);
    var d := Dict(map["b" := other], ["b"]);
    assert Taken(s3, [b] + []) == (Store(s3.disk, d, ["b"], None), true);
    var s4 := Restart(Disk(Some(Entries(d)), Some(Ids(["b"])), Some([row])));
    assert Do(embed, s3, Crash([b] + [], 2)) == s4;
    PayloadsRoundTrip(d);
    assert LoadIfEmpty(s4) == Store(s4.disk, d, ["b"], None) by {
      hide Entries, FromEntries;
    }
    hide Entries, FromEntries, PutChunks, KeepKnown, LoadIfEmpty;
  }

  lemma Rebooted(embed: string -> Vec, s: Store)
    ensures CanStep(s, Reboot) && Do(embed, s, Reboot) == Restart(s.disk)
  {
  }

  /** The concrete use that breaks alignment: a rejected batch, a search, a restart, an
      upsert that dies before its third write; row 0 then stands for the wrong document. */
  lemma RejectedBatchMislabels(embed: string -> Vec, first: Payload, other: Payload)
    requires embed(first.text) != embed(other.text)
    ensures var ops := [Batch([Chunk("a", "", first)] + [Chunk("", "", first)])]
                     + ([Open] + ([Reboot] + ([Crash([Chunk("b", "", other)] + [], 2)] + ([Open] + []))));
      var end := After(embed, Restart(NOTHING), ops);
      && end.ordered == ["b"] && end.payloads.items == map["b" := other]
      && end.index == Some([embed(first.text)])
      && !Aligned(embed, PairsOver(ops), end)
  {
    var batch := Batch([Chunk("a", "", first)] + [Chunk("", "", first)]);
    var crash := Crash([Chunk("b", "", other)] + [], 2);
    hide *;
    RejectedBatchIndexed(embed, first);
    OrphanRowRelabelled(embed, embed(first.text), other);
    var s0 := Restart(NOTHING);
    var s1 := Do(embed, s0, batch);
    var s2 := Do(embed, s1, Open);
    Rebooted(embed, s2);
    var s3 := Restart(s2.disk);
    var s4 := Do(embed, s3, crash);
    AfterFive(embed, s0, batch, Open, Reboot, crash, Open);
    BreakingPairs(first, other);
    WrongRow(embed, first, other, Do(embed, s4, Open));
  }

  lemma AfterFive(embed: string -> Vec, s: Store, a: Op, b: Op, c: Op, d: Op, e: Op)
    requires CanStep(s, a) && CanStep(Do(embed, s, a), b)
    requires CanStep(Do(embed, Do(embed, s, a), b), c)
    requires CanStep(Do(embed, Do(embed, Do(embed, s, a), b), c), d)
    requires CanStep(Do(embed, Do(embed, Do(embed, Do(embed, s, a), b), c), d), e)
    ensures After(embed, s, [a] + ([b] + ([c] + ([d] + ([e] + [])))))
         == Do(embed, Do(embed, Do(embed, Do(embed, Do(embed, s, a), b), c), d), e)
  {
    hide Do, CanStep;
    var s1 := Do(embed, s, a);
    var s2 := Do(embed, s1, b);
    var s3 := Do(embed, s2, c);
    var s4 := Do(embed, s3, d);
    AfterOne(embed, s, a, [b] + ([c] + ([d] + ([e] + []))));
    AfterOne(embed, s1, b, [c] + ([d] + ([e] + [])));
    AfterOne(embed, s2, c, [d] + ([e] + []));
    AfterOne(embed, s3, d, [e] + []);
    AfterOne(embed, s4, e, []);
  }

  lemma PairsCons(op: Op, rest: seq<Op>)
    ensures PairsOver([op] + rest) == PairsIn(op) + PairsOver(rest)
  {
    assert ([op] + rest)[1..] == rest;
  }

  lemma BreakingPairs(first: Payload, other: Payload)
    ensures PairsOver([Batch([Chunk("a", "", first)] + [Chunk("", "", first)])]
                      + ([Open] + ([Reboot] + ([Crash([Chunk("b", "", other)] + [], 2)] + ([Open] + [])))))
         == {("a", first.text), ("b", other.text)}
  {
    var batch := Batch([Chunk("a", "", first)] + [Chunk("", "", first)]);
    var crash := Crash([Chunk("b", "", other)] + [], 2);
    PairOfOne(Chunk("a", "", first), [Chunk("", "", first)]);
    PairOfOne(Chunk("b", "", other), []);
    PairsCons(Open, []);
    PairsCons(crash, [Open] + []);
    PairsCons(Reboot, [crash] + ([Open] + []));
    PairsCons(Open, [Reboot] + ([crash] + ([Open] + [])));
    PairsCons(batch, [Open] + ([Reboot] + ([crash] + ([Open] + []))));
    hide PairsOver, PairsOf;
  }

  lemma WrongRow(embed: string -> Vec, first: Payload, other: Payload, s: Store)
    requires embed(first.text) != embed(other.text)
    requires s.ordered == ["b"] && s.index == Some([embed(first.text)])
    ensures !Aligned(embed, {("a", first.text), ("b", other.text)}, s)
  {
    var stored := {("a", first.text), ("b", other.text)};
    assert !RowFor(embed, stored, s.ordered[0], s.index.value[0]);
  }
}

/** Rows and ids stay aligned across every crash - and the one use that breaks it. */
module FaissAlignment {
  import opened Options
  import opened FaissModel

  /** Every (id, text) pair that was ever put. */
  type Stored = set<(string, string)>

  predicate RowFor(embed: string -> Vec, stored: Stored, id: string, row: Vec) {
    exists p | p in stored :: p.0 == id && row == embed(p.1)
  }

  /** The rows belong, in order, to the first ids; each embeds a text once stored there. */
  ghost predicate RowsAligned(embed: string -> Vec, stored: Stored, rows: seq<Vec>, ids: seq<string>) {
    |rows| <= |ids| && forall i :: 0 <= i < |rows| ==> RowFor(embed, stored, ids[i], rows[i])
  }

  ghost predicate TextsStored(stored: Stored, d: Dict) {
    forall id :: id in d.items ==> (id, d.items[id].text) in stored
  }

  /** What a restart would find is consistent. */
  ghost predicate DiskSound(embed: string -> Vec, stored: Stored, disk: Disk) {
    && GoodDict(DiskDict(disk)) && TextsStored(stored, DiskDict(disk))
    && (disk.mapping.Some? ==>
          disk.mapping.value.Ids? && Distinct(disk.mapping.value.ids)
          && forall id :: id in disk.mapping.value.ids ==> id in DiskDict(disk).items)
    && (disk.index.Some? ==> RowsAligned(embed, stored, disk.index.value, DiskOrdered(disk)))
  }

  ghost predicate MemorySound(stored: Stored, s: Store) {
    && GoodDict(s.payloads) && TextsStored(stored, s.payloads) && Distinct(s.ordered)
    && (forall id :: id in s.ordered ==> id in s.payloads.items)
    && (s.payloads.items != map[] ==>
          && DiskOrdered(s.disk) <= s.ordered && DiskDict(s.disk).order <= s.payloads.order
          && (s.disk.mapping.None? ==> s.ordered == s.payloads.order))
  }

  /** The alignment invariant. */
  ghost predicate Aligned(embed: string -> Vec, stored: Stored, s: Store) {
    && DiskSound(embed, stored, s.disk) && MemorySound(stored, s)
    && (s.index.Some? ==>
          && RowsAligned(embed, stored, s.index.value, s.ordered)
          && RowsAligned(embed, stored, s.index.value, DiskOrdered(s.disk)))
  }

  // ----------------------------------------------------------------- monotony

  lemma RowsGrow(embed: string -> Vec, stored: Stored, more: Stored, rows: seq<Vec>, ids: seq<string>, ids': seq<string>)
    requires RowsAligned(embed, stored, rows, ids) && ids <= ids' && stored <= more
    ensures RowsAligned(embed, more, rows, ids')
  {
    forall i | 0 <= i < |rows| ensures RowFor(embed, more, ids'[i], rows[i]) {
      assert RowFor(embed, stored, ids[i], rows[i]);
      var p :| p in stored && p.0 == ids[i] && rows[i] == embed(p.1);
      assert p in more;
    }
  }

  lemma FreshRowsAligned(embed: string -> Vec, stored: Stored, s: Store)
    requires TextsStored(stored, s.payloads) && forall id :: id in s.ordered ==> id in s.payloads.items
    ensures RowsAligned(embed, stored, Rows(embed, s), s.ordered)
  {
    forall i | 0 <= i < |s.ordered| ensures RowFor(embed, stored, s.ordered[i], Rows(embed, s)[i]) {
      var p := (s.ordered[i], s.payloads.items[s.ordered[i]].text);
      assert p in stored;
    }
  }

  /** In a sound directory the mapping file is taken as it is. */
  lemma DiskOrderedSound(embed: string -> Vec, stored: Stored, disk: Disk)
    requires DiskSound(embed, stored, disk)
    ensures Distinct(DiskOrdered(disk)) && forall id :: id in DiskOrdered(disk) ==> id in DiskDict(disk).items
    ensures disk.mapping.Some? ==> DiskOrdered(disk) == disk.mapping.value.ids
  {
  }

  // --------------------------------------------------------------------- loading

  lemma RestartAligned(embed: string -> Vec, stored: Stored, disk: Disk)
    requires DiskSound(embed, stored, disk)
    ensures Aligned(embed, stored, Restart(disk))
  {
  }

  lemma LoadAligned(embed: string -> Vec, stored: Stored, s: Store)
    requires Aligned(embed, stored, s)
    ensures Aligned(embed, stored, LoadPayloads(s))
  {
    DiskOrderedSound(embed, stored, s.disk);
  }

  lemma LoadIfEmptyAligned(embed: string -> Vec, stored: Stored, s: Store)
    requires Aligned(embed, stored, s)
    ensures Aligned(embed, stored, LoadIfEmpty(s))
    ensures DiskOrdered(s.disk) <= LoadIfEmpty(s).ordered && DiskDict(s.disk).order <= LoadIfEmpty(s).payloads.order
    ensures LoadIfEmpty(s).disk == s.disk && LoadIfEmpty(s).index == s.index
  {
    if s.payloads.items == map[] { LoadAligned(embed, stored, s); }
  }

  /** Ids that a rejected batch left in memory but not in the files. */
  predicate Unsaved(s: Store) {
    LoadIfEmpty(s).ordered != DiskOrdered(s.disk)
  }

  /** Opening the index here would write rows for ids that no file knows. */
  predicate WritesUnsaved(s: Store) {
    s.index.None? && s.disk.index.None? && Unsaved(s)
  }

  lemma RebuildAligned(embed: string -> Vec, stored: Stored, s: Store)
    requires DiskSound(embed, stored, s.disk.(index := None)) && MemorySound(stored, s)
    requires s.ordered == DiskOrdered(s.disk)
    ensures Aligned(embed, stored, RebuildIndex(embed, s))
  {
    FreshRowsAligned(embed, stored, s);
    var t := RebuildIndex(embed, s);
    assert DiskDict(t.disk) == DiskDict(s.disk) && DiskOrdered(t.disk) == DiskOrdered(s.disk);
  }

  lemma EnsureIndexAligned(embed: string -> Vec, stored: Stored, s: Store)
    requires Aligned(embed, stored, s) && !WritesUnsaved(s)
    ensures s.index.None? ==> forall id :: id in LoadIfEmpty(s).ordered ==> id in LoadIfEmpty(s).payloads.items
    ensures Aligned(embed, stored, EnsureIndex(embed, s)) && EnsureIndex(embed, s).index.Some?
  {
    if s.index.None? {
      LoadIfEmptyAligned(embed, stored, s);
      var s1 := LoadIfEmpty(s);
      if s1.disk.index.Some? {
        RowsGrow(embed, stored, stored, s1.disk.index.value, DiskOrdered(s.disk), s1.ordered);
      } else {
        assert s1.disk.(index := None) == s1.disk;
        RebuildAligned(embed, stored, s1);
      }
    }
  }

  /** Opening the index keeps the store aligned exactly when it would not index ids that
      only a rejected batch left in memory. */
  lemma EnsureIndexAlignedIff(embed: string -> Vec, stored: Stored, s: Store)
    requires Aligned(embed, stored, s)
    ensures s.index.None? ==> forall id :: id in LoadIfEmpty(s).ordered ==> id in LoadIfEmpty(s).payloads.items
    ensures Aligned(embed, stored, EnsureIndex(embed, s)) <==> !WritesUnsaved(s)
  {
    LoadIfEmptyAligned(embed, stored, s);
    if WritesUnsaved(s) {
      var s1 := LoadIfEmpty(s);
      assert |s1.ordered| > |DiskOrdered(s.disk)|;
      var t := EnsureIndex(embed, s);
      assert t == RebuildIndex(embed, s1);
      assert DiskOrdered(t.disk) == DiskOrdered(s.disk);
      assert !RowsAligned(embed, stored, t.disk.index.value, DiskOrdered(t.disk));
    } else {
      EnsureIndexAligned(embed, stored, s);
    }
  }

  // ---------------------------------------------------------------------- upsert

  /** The pairs a batch stores, up to the first chunk without an identifier. */
  function PairsOf(chunks: seq<Chunk>): Stored
    decreases |chunks|
  {
    if chunks == [] || Identifier(chunks[0]) == "" then {}
    else {(Identifier(chunks[0]), chunks[0].payload.text)} + PairsOf(chunks[1..])
  }

  /** Memory ahead of, or level with, the files. */
  ghost predicate Ahead(embed: string -> Vec, stored: Stored, s: Store) {
    && Aligned(embed, stored, s)
    && DiskOrdered(s.disk) <= s.ordered && DiskDict(s.disk).order <= s.payloads.order
    && (s.disk.mapping.None? ==> s.ordered == s.payloads.order)
  }

  lemma StoredGrows(embed: string -> Vec, stored: Stored, more: Stored, s: Store)
    requires Aligned(embed, stored, s) && stored <= more
    ensures Aligned(embed, more, s)
  {
    if s.disk.index.Some? { RowsGrow(embed, stored, more, s.disk.index.value, DiskOrdered(s.disk), DiskOrdered(s.disk)); }
    if s.index.Some? {
      RowsGrow(embed, stored, more, s.index.value, s.ordered, s.ordered);
      RowsGrow(embed, stored, more, s.index.value, DiskOrdered(s.disk), DiskOrdered(s.disk));
    }
    hide RowsAligned;
  }

  lemma PutDictGood(d: Dict, id: string, p: Payload)
    requires GoodDict(d)
    ensures GoodDict(Put(d, id, p)) && d.order <= Put(d, id, p).order
  {
  }

  lemma PutChunkMemory(stored: Stored, s: Store, c: Chunk)
    requires MemorySound(stored, s) && (Identifier(c), c.payload.text) in stored
    ensures var t := PutChunk(s, c);
      && GoodDict(t.payloads) && TextsStored(stored, t.payloads) && Distinct(t.ordered)
      && (forall id :: id in t.ordered ==> id in t.payloads.items)
      && s.ordered <= t.ordered && s.payloads.order <= t.payloads.order
    ensures s.ordered == s.payloads.order ==> PutChunk(s, c).ordered == PutChunk(s, c).payloads.order
  {
    PutDictGood(s.payloads, Identifier(c), c.payload);
  }

  lemma PutChunkAhead(embed: string -> Vec, stored: Stored, s: Store, c: Chunk)
    requires Ahead(embed, stored, s) && (Identifier(c), c.payload.text) in stored
    ensures Ahead(embed, stored, PutChunk(s, c))
    ensures s.ordered <= PutChunk(s, c).ordered
  {
    var t := PutChunk(s, c);
    PutChunkMemory(stored, s, c);
    if s.index.Some? { RowsGrow(embed, stored, stored, s.index.value, s.ordered, t.ordered); }
    PrefixesGrow(s, t);
    hide RowsAligned, DiskSound, GoodDict, TextsStored, Distinct, DiskOrdered, DiskDict, Put, Identifier;
  }

  lemma PrefixesGrow(s: Store, t: Store)
    requires DiskOrdered(s.disk) <= s.ordered <= t.ordered
    requires DiskDict(s.disk).order <= s.payloads.order <= t.payloads.order
    ensures DiskOrdered(s.disk) <= t.ordered && DiskDict(s.disk).order <= t.payloads.order
  {
    hide *;
  }

  lemma {:induction false} PutChunksAhead(embed: string -> Vec, stored: Stored, s: Store, chunks: seq<Chunk>)
    requires Ahead(embed, stored, s) && PairsOf(chunks) <= stored
    ensures Ahead(embed, stored, PutChunks(s, chunks).0) && PutChunks(s, chunks).0.disk == s.disk
    ensures s.ordered <= PutChunks(s, chunks).0.ordered
    decreases |chunks|
  {
    if chunks != [] && Identifier(chunks[0]) != "" {
      PutChunkAhead(embed, stored, s, chunks[0]);
      PutChunksAhead(embed, stored, PutChunk(s, chunks[0]), chunks[1..]);
    }
  }

  predicate CanStage(s: Store) {
    (forall id :: id in s.payloads.order ==> id in s.payloads.items)
    && forall id :: id in s.ordered ==> id in s.payloads.items
  }

  /** The store after each of the upsert's three file writes. */
  function UpsertStage(embed: string -> Vec, s: Store, writes: nat): Store
    requires CanStage(s)
  {
    if writes == 0 then s
    else if writes == 1 then WritePayloads(s)
    else if writes == 2 then WriteMapping(WritePayloads(s))
    else RebuildIndex(embed, WriteMapping(WritePayloads(s)))
  }

  lemma KeepKnownAll(ids: seq<string>, d: Dict)
    requires forall id :: id in ids ==> id in d.items
    ensures KeepKnown(ids, d) == ids
  {
  }

  /** Writing the payloads leaves what a restart takes as the id order a prefix of memory's. */
  lemma WrittenOrder(embed: string -> Vec, stored: Stored, s: Store)
    requires Ahead(embed, stored, s)
    ensures DiskDict(WritePayloads(s).disk) == s.payloads
    ensures DiskOrdered(s.disk) <= DiskOrdered(WritePayloads(s).disk) <= s.ordered
    ensures s.disk.mapping.Some? ==> DiskOrdered(WritePayloads(s).disk) == s.disk.mapping.value.ids
    ensures s.disk.mapping.None? ==> DiskOrdered(WritePayloads(s).disk) == s.payloads.order
  {
    hide RowsAligned, GoodDict, TextsStored;
    PayloadsRoundTrip(s.payloads);
    DiskOrderedSound(embed, stored, s.disk);
    if s.disk.mapping.Some? {
      assert forall id :: id in s.disk.mapping.value.ids ==> id in s.ordered;
      KeepKnownAll(s.disk.mapping.value.ids, s.payloads);
    }
  }

  lemma PayloadsWritten(embed: string -> Vec, stored: Stored, s: Store)
    requires Ahead(embed, stored, s)
    ensures Ahead(embed, stored, WritePayloads(s)) && DiskDict(WritePayloads(s).disk) == s.payloads
  {
    WrittenOrder(embed, stored, s);
    var t := WritePayloads(s);
    if t.disk.index.Some? { RowsGrow(embed, stored, stored, t.disk.index.value, DiskOrdered(s.disk), DiskOrdered(t.disk)); }
    if t.index.Some? { RowsGrow(embed, stored, stored, t.index.value, DiskOrdered(s.disk), DiskOrdered(t.disk)); }
    hide RowsAligned, GoodDict, TextsStored, WritePayloads, DiskDict, DiskOrdered;
    SoundAfterPayloads(embed, stored, s);
  }

  lemma SoundAfterPayloads(embed: string -> Vec, stored: Stored, s: Store)
    requires Ahead(embed, stored, s)
    requires var t := WritePayloads(s);
      t.disk.index.Some? ==> RowsAligned(embed, stored, t.disk.index.value, DiskOrdered(t.disk))
    ensures DiskSound(embed, stored, WritePayloads(s).disk) && MemorySound(stored, WritePayloads(s))
  {
    var t := WritePayloads(s);
    hide RowsAligned, GoodDict, TextsStored, Entries, FromEntries, KeepKnown;
    WrittenOrder(embed, stored, s);
    if s.disk.mapping.Some? { MappedKnown(embed, stored, s); }
    hide DiskOrdered, DiskDict, Distinct;
  }

  /** Ids the mapping file names are ids memory holds. */
  lemma MappedKnown(embed: string -> Vec, stored: Stored, s: Store)
    requires Ahead(embed, stored, s) && s.disk.mapping.Some?
    ensures s.disk.mapping.value.Ids? && forall id :: id in s.disk.mapping.value.ids ==> id in s.payloads.items
  {
    DiskOrderedSound(embed, stored, s.disk);
    hide RowsAligned, GoodDict, TextsStored, DiskDict, DiskOrdered, Distinct;
    assert forall id :: id in s.disk.mapping.value.ids ==> id in s.ordered;
  }

  lemma MappingWritten(embed: string -> Vec, stored: Stored, s: Store)
    requires Ahead(embed, stored, s) && DiskDict(s.disk) == s.payloads
    ensures Ahead(embed, stored, WriteMapping(s)) && DiskDict(WriteMapping(s).disk) == s.payloads
    ensures DiskOrdered(WriteMapping(s).disk) == s.ordered
  {
    var t := WriteMapping(s);
    KeepKnownAll(s.ordered, s.payloads);
    if t.disk.index.Some? { RowsGrow(embed, stored, stored, t.disk.index.value, DiskOrdered(s.disk), DiskOrdered(t.disk)); }
    hide RowsAligned, GoodDict, TextsStored;
  }

  lemma IndexWritten(embed: string -> Vec, stored: Stored, s: Store)
    requires Ahead(embed, stored, s) && DiskDict(s.disk) == s.payloads && DiskOrdered(s.disk) == s.ordered
    ensures Ahead(embed, stored, RebuildIndex(embed, s))
    ensures DiskOrdered(RebuildIndex(embed, s).disk) == s.ordered
  {
    RebuildAligned(embed, stored, s);
  }

  /** However many of an upsert's three files were written, memory and files are aligned. */
  lemma StagesAligned(embed: string -> Vec, stored: Stored, s: Store, writes: nat)
    requires Ahead(embed, stored, s)
    ensures Ahead(embed, stored, UpsertStage(embed, s, writes))
    ensures writes >= 2 ==> DiskOrdered(UpsertStage(embed, s, writes).disk) == s.ordered
    ensures UpsertStage(embed, s, writes).ordered == s.ordered && UpsertStage(embed, s, writes).payloads == s.payloads
  {
    assert CanStage(s);
    hide Ahead, DiskDict, DiskOrdered;
    if writes >= 1 { PayloadsWritten(embed, stored, s); }
    if writes >= 2 { MappingWritten(embed, stored, WritePayloads(s)); }
    if writes >= 3 { IndexWritten(embed, stored, WriteMapping(WritePayloads(s))); }
  }

  // ----------------------------------------------------------- completed upserts

  /** The batch in memory, before any file is written. */
  function Taken(s: Store, chunks: seq<Chunk>): (Store, bool) {
    PutChunks(LoadIfEmpty(s), chunks)
  }

  lemma TakenAhead(embed: string -> Vec, stored: Stored, s: Store, chunks: seq<Chunk>)
    requires Aligned(embed, stored, s)
    ensures Ahead(embed, stored + PairsOf(chunks), Taken(s, chunks).0) && CanStage(Taken(s, chunks).0)
    ensures Taken(s, chunks).0.disk == s.disk && LoadIfEmpty(s).ordered <= Taken(s, chunks).0.ordered
  {
    LoadIfEmptyAligned(embed, stored, s);
    LoadedLevel(embed, stored, s);
    var more := stored + PairsOf(chunks);
    StoredGrows(embed, stored, more, LoadIfEmpty(s));
    PutChunksAhead(embed, more, LoadIfEmpty(s), chunks);
    hide RowsAligned, DiskSound, TextsStored;
  }

  /** Without a mapping file the ids are the payload keys, in order. */
  lemma LoadedLevel(embed: string -> Vec, stored: Stored, s: Store)
    requires Aligned(embed, stored, s)
    ensures s.disk.mapping.None? ==> LoadIfEmpty(s).ordered == LoadIfEmpty(s).payloads.order
  {
    hide RowsAligned, GoodDict, TextsStored;
  }

  function Upsert(embed: string -> Vec, s: Store, chunks: seq<Chunk>): (Store, bool)
    requires CanStage(Taken(s, chunks).0)
  {
    var (t, accepted) := Taken(s, chunks);
    if chunks == [] then (s, true)
    else if !accepted then (t, false)
    else (UpsertStage(embed, t, 3), true)
  }
}

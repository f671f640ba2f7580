/** The store itself: fields and files updated in place, held to the value-level store. */
module FaissStore {
  import opened Options
  import opened FaissModel
  import opened FaissAlignment
  import opened FaissHistory
  import opened FaissFilters
  import opened FaissSearch

  function Each(f: string -> Vec, texts: seq<string>): (r: seq<Vec>)
    ensures |r| == |texts| && forall i | 0 <= i < |r| :: r[i] == f(texts[i])
  {
    seq(|texts|, i requires 0 <= i < |texts| => f(texts[i]))
  }

  /** The model embeds each text of a batch by itself. */
  ghost predicate RowWise(encode: seq<string> -> seq<Vec>, f: string -> Vec) {
    forall texts: seq<string> :: encode(texts) == Each(f, texts)
  }

  /** Encoding in batches gives the rows of the whole list, whatever the batch size. */
  method BatchedEncode(encode: seq<string> -> seq<Vec>, ghost f: string -> Vec, normalise: Vec -> Vec,
                       texts: seq<string>, embedBatchSize: int)
    returns (rows: seq<Vec>)
    requires RowWise(encode, f)
    ensures |rows| == |texts| && forall i | 0 <= i < |texts| :: rows[i] == normalise(f(texts[i]))
  {
    if texts == [] { return []; }
    var batchSize := if embedBatchSize > 1 then embedBatchSize else 1;
    var encoded: seq<Vec> := [];
    var start := 0;
    while start < |texts|
      invariant 0 <= start
      invariant |encoded| == if start < |texts| then start else |texts|
      invariant forall i | 0 <= i < |encoded| :: encoded[i] == f(texts[i])
    {
      var end := if start + batchSize < |texts| then start + batchSize else |texts|;
      var batch := encode(texts[start..end]);
      assert batch == Each(f, texts[start..end]);
      encoded := encoded + batch;
      start := start + batchSize;
    }
    rows := seq(|encoded|, i requires 0 <= i < |encoded| => normalise(encoded[i]));
  }

  class FaissVectorStore {
    // the files
    var payloadsFile: Option<seq<Entry>>
    var mappingFile: Option<MappingFile>
    var indexFile: Option<seq<Vec>>
    // memory
    var payloads: map<string, Payload>
    var payloadOrder: seq<string>
    var orderedIds: seq<string>
    var index: Option<seq<Vec>>
    // the model and the index library
    const encode: seq<string> -> seq<Vec>
    ghost const embedding: string -> Vec
    const normalise: Vec -> Vec
    const passage: string -> string
    const rank: (seq<Vec>, string) -> seq<Candidate>
    const embedBatchSize: int

    ghost predicate Working() {
      RowWise(encode, embedding)
    }

    /** What a stored text is indexed as. */
    ghost function Embed(): string -> Vec {
      text => normalise(embedding(passage(text)))
    }

    ghost function Value(): Store
      reads this
    {
      Store(Disk(payloadsFile, mappingFile, indexFile), Dict(payloads, payloadOrder), orderedIds, index)
    }

    /** A new process on the files left by another. */
    constructor (disk: Disk, encode: seq<string> -> seq<Vec>, ghost embedding: string -> Vec,
                 normalise: Vec -> Vec, passage: string -> string,
                 rank: (seq<Vec>, string) -> seq<Candidate>, embedBatchSize: int)
      requires RowWise(encode, embedding)
      ensures Working() && Value() == Restart(disk)
    {
      this.payloadsFile, this.mappingFile, this.indexFile := disk.payloads, disk.mapping, disk.index;
      this.payloads, this.payloadOrder, this.orderedIds, this.index := map[], [], [], None;
      this.encode, this.embedding, this.normalise, this.passage := encode, embedding, normalise, passage;
      this.rank, this.embedBatchSize := rank, embedBatchSize;
    }

    method LoadPayloads()
      modifies this
      ensures Value() == FaissModel.LoadPayloads(old(Value()))
    {
      payloads, payloadOrder := map[], [];
      if payloadsFile.Some? {
        var raw := payloadsFile.value;
        var i := 0;
        while i < |raw|
          invariant 0 <= i <= |raw|
          invariant Dict(payloads, payloadOrder) == FromEntries(raw[..i])
          invariant payloadsFile == old(payloadsFile) && mappingFile == old(mappingFile)
          invariant indexFile == old(indexFile) && index == old(index)
        {
          assert raw[..i + 1][..i] == raw[..i];
          PutPayload(raw[i].id, raw[i].payload);
          i := i + 1;
        }
        assert raw[..i] == raw;
      }
      match mappingFile {
        case None => orderedIds := payloadOrder;
        case Some(NotAList) => orderedIds := [];
        case Some(Ids(ids)) => orderedIds := KeepKnown(ids, Dict(payloads, payloadOrder));
      }
    }

    method PutPayload(id: string, payload: Payload)
      modifies this`payloads, this`payloadOrder
      ensures Dict(payloads, payloadOrder) == Put(old(Dict(payloads, payloadOrder)), id, payload)
    {
      if id !in payloads { payloadOrder := payloadOrder + [id]; }
      payloads := payloads[id := payload];
    }

    /** Two writes, payloads before ids. */
    method PersistPayloads()
      requires CanStage(Value())
      modifies this`payloadsFile, this`mappingFile
      ensures Value() == WriteMapping(WritePayloads(old(Value())))
    {
      payloadsFile := Some(Entries(Dict(payloads, payloadOrder)));
      mappingFile := Some(Ids(orderedIds));
    }

    method RebuildIndex()
      requires Working() && CanStage(Value())
      modifies this`index, this`indexFile
      ensures Value() == FaissModel.RebuildIndex(Embed(), old(Value()))
    {
      index := Some([]);
      if orderedIds == [] {
        indexFile := None;
        return;
      }
      var texts := seq(|orderedIds|, i requires 0 <= i < |orderedIds|
        reads this requires forall id :: id in orderedIds ==> id in payloads
        => passage(payloads[orderedIds[i]].text));
      var embeddings := BatchedEncode(encode, embedding, normalise, texts, embedBatchSize);
      assert embeddings == Rows(Embed(), old(Value()));
      index := Some(embeddings);
      indexFile := Some(embeddings);
    }

    method EnsureIndexLoaded()
      requires Working() && (index.None? ==> CanStage(LoadIfEmpty(Value())))
      modifies this
      ensures Value() == EnsureIndex(Embed(), old(Value()))
    {
      if index.Some? { return; }
      if payloads == map[] { LoadPayloads(); }
      if indexFile.Some? {
        index := indexFile;
      } else {
        RebuildIndex();
      }
    }

    method EnsureReady()
      requires Working() && CanStep(Value(), Ready)
      modifies this
      ensures Value() == Do(Embed(), old(Value()), Ready)
    {
      LoadPayloads();
      EnsureIndexLoaded();
    }

    method TakeChunk(c: Chunk)
      modifies this`payloads, this`payloadOrder, this`orderedIds
      ensures Value() == PutChunk(old(Value()), c)
    {
      var id := Identifier(c);
      PutPayload(id, c.payload);
      if id !in orderedIds { orderedIds := orderedIds + [id]; }
    }

    /** The loop over a batch, in memory. */
    method TakeChunks(chunks: seq<Chunk>) returns (accepted: bool)
      modifies this`payloads, this`payloadOrder, this`orderedIds
      ensures (Value(), accepted) == PutChunks(old(Value()), chunks)
    {
      ghost var start := Value();
      var i := 0;
      while i < |chunks|
        invariant 0 <= i <= |chunks|
        invariant PutChunks(start, chunks) == PutChunks(Value(), chunks[i..])
      {
        var id := Identifier(chunks[i]);
        ghost var prior := Value();
        PutChunksStep(prior, chunks[i..]);
        assert chunks[i..][1..] == chunks[i + 1..];
        hide PutChunks, PutChunk, Identifier;
        if id == "" { return false; }
        TakeChunk(chunks[i]);
        i := i + 1;
      }
      return true;
    }

    /** Whether the batch was taken; it is rejected at the first chunk without an identifier. */
    method UpsertChunks(chunks: seq<Chunk>) returns (accepted: bool)
      requires Working() && CanStep(Value(), Batch(chunks))
      modifies this
      ensures (Value(), accepted) == Upsert(Embed(), old(Value()), chunks)
    {
      hide PutChunks, WritePayloads, WriteMapping, FaissModel.RebuildIndex, FaissModel.LoadPayloads;
      if chunks == [] { return true; }
      if payloads == map[] { LoadPayloads(); }
      accepted := TakeChunks(chunks);
      if !accepted { return false; }
      ghost var taken := Value();
      assert CanStage(taken);
      PersistStillStaged(taken);
      PersistPayloads();
      RebuildIndex();
    }

    /** The post-filter over the fetched candidates, stopping at the requested number. */
    method Collect(candidates: seq<Candidate>, topK: nat, filters: Filters) returns (hits: seq<Hit>)
      ensures hits == Take(Matches(Value(), filters, candidates), topK)
    {
      hide Passes;
      hits := [];
      var i := 0;
      while i < |candidates| && |hits| < topK
        invariant 0 <= i <= |candidates|
        invariant hits == Matches(Value(), filters, candidates[..i])
        invariant |hits| <= topK
      {
        assert candidates[..i + 1][..i] == candidates[..i];
        var c := candidates[i];
        i := i + 1;
        if c.row < 0 || c.row >= |orderedIds| { continue; }
        var id := orderedIds[c.row];
        var payload := if id in payloads then payloads[id] else NO_PAYLOAD;
        if Passes(filters, payload) { hits := hits + [Hit(id, payload, c.score)]; }
      }
      MatchesAppend(Value(), filters, candidates[..i], candidates[i..]);
      assert candidates[..i] + candidates[i..] == candidates;
    }

    method Search(query: string, topK: int, filters: Filters) returns (hits: seq<Hit>)
      requires Working() && CanStep(Value(), Open)
      modifies this
      ensures topK <= 0 ==> Value() == old(Value()) && hits == []
      ensures topK > 0 ==>
        && Value() == Do(Embed(), old(Value()), Open) && Value().index.Some?
        && hits == Answer(Value(), filters, topK, rank(Value().index.value, query))
      ensures forall h :: h in hits ==> TenantOf(h.payload) == filters.tenant && Wanted(filters, h.payload)
    {
      hide Passes, FaissModel.RebuildIndex, FaissModel.LoadPayloads, RowWise;
      if topK <= 0 { return []; }
      if payloads == map[] { LoadPayloads(); }
      LoadedOnce(old(Value()));
      EnsureIndexLoaded();
      EnsuredHasIndex(Embed(), LoadIfEmpty(old(Value())));
      var ranking := rank(index.value, query);
      var candidates := Fetched(ranking, CandidateLimit(topK));
      if orderedIds == [] {
        NothingOrdered(Value(), filters, candidates);
        return [];
      }
      hits := Collect(candidates, topK, filters);
      hide Answer, TenantOf, Wanted;
      forall h | h in hits ensures TenantOf(h.payload) == filters.tenant && Wanted(filters, h.payload) {
        HitsAreWanted(Value(), filters, topK, ranking, h);
      }
    }
  }

  lemma PutChunksStep(s: Store, chunks: seq<Chunk>)
    requires chunks != []
    ensures PutChunks(s, chunks)
         == if Identifier(chunks[0]) == "" then (s, false) else PutChunks(PutChunk(s, chunks[0]), chunks[1..])
    ensures PutChunks(s, []) == (s, true)
  {
  }

  lemma LoadedOnce(s: Store)
    ensures LoadIfEmpty(LoadIfEmpty(s)) == LoadIfEmpty(s)
  {
  }

  lemma PersistStillStaged(s: Store)
    requires CanStage(s)
    ensures CanStage(WriteMapping(WritePayloads(s)))
  {
  }

  lemma EnsuredHasIndex(embed: string -> Vec, s: Store)
    requires s.index.None? ==> CanStage(LoadIfEmpty(s))
    ensures EnsureIndex(embed, s).index.Some?
  {
  }

  lemma {:induction false} NothingOrdered(s: Store, f: Filters, candidates: seq<Candidate>)
    requires s.ordered == []
    ensures Matches(s, f, candidates) == []
  {
    if candidates != [] { NothingOrdered(s, f, candidates[..|candidates| - 1]); }
  }
}

/** Persisting a file's pages and chunks: one batch counter through the whole file. */
module IngestPages {
  import opened Seqs
  import opened ChunkWindows

  datatype SourcePage = SourcePage(number: int, text: string)

  /** A piece of a page, with its place on it counted from 1. */
  datatype Part = Part(page: int, index: nat, text: string)

  datatype ChunkRow = ChunkRow(part: Part, batch: nat, sha256: string)

  datatype IndexPayload = IndexPayload(file: string, page: int, sha256: string, text: string)

  /** The pieces of one page, in order. */
  function PartsOf(split: string -> seq<string>, page: SourcePage): (r: seq<Part>)
    ensures |r| == |split(page.text)|
    ensures forall i | 0 <= i < |r| :: r[i] == Part(page.number, i + 1, split(page.text)[i])
  {
    seq(|split(page.text)|, i requires 0 <= i < |split(page.text)| => Part(page.number, i + 1, split(page.text)[i]))
  }

  /** The pieces of a file's pages, in order. */
  function AllParts(split: string -> seq<string>, pages: seq<SourcePage>): seq<Part> {
    if pages == [] then [] else AllParts(split, pages[..|pages| - 1]) + PartsOf(split, pages[|pages| - 1])
  }

  lemma AllPartsSnoc(split: string -> seq<string>, pages: seq<SourcePage>, i: nat)
    requires i < |pages|
    ensures AllParts(split, pages[..i + 1]) == AllParts(split, pages[..i]) + PartsOf(split, pages[i])
  {
    TakeOfTake(pages, i + 1, i);
  }

  /** Rows and payloads for the same pieces; row i of the file is in batch i div size. */
  ghost predicate Written(sha: Part -> string, filename: string, size: nat, parts: seq<Part>,
                          rows: seq<ChunkRow>, payloads: seq<IndexPayload>)
  {
    && size >= 1 && |rows| == |parts| == |payloads|
    && forall i | 0 <= i < |rows| ::
         && rows[i] == ChunkRow(parts[i], i / size, sha(parts[i]))
         && payloads[i] == IndexPayload(filename, parts[i].page, sha(parts[i]), parts[i].text)
  }

  lemma WrittenSnoc(sha: Part -> string, filename: string, size: nat, parts: seq<Part>,
                    rows: seq<ChunkRow>, payloads: seq<IndexPayload>, part: Part)
    requires Written(sha, filename, size, parts, rows, payloads)
    ensures Written(sha, filename, size, parts + [part], rows + [ChunkRow(part, |rows| / size, sha(part))],
                    payloads + [IndexPayload(filename, part.page, sha(part), part.text)])
  {
  }

  lemma Divided(n: nat, d: nat, q: nat, r: nat)
    requires d >= 1 && n == q * d + r && r < d
    ensures n / d == q && n % d == r
  {
    DivUnique(n, d, q, r);
  }

  /** The running counter is always the number of chunks so far, divided by the batch size. */
  lemma NextBatch(n: nat, size: nat)
    requires size >= 1
    ensures (n + 1) / size == if (n + 1) % size == 0 then n / size + 1 else n / size
    ensures (n + 1) % size == if (n + 1) % size == 0 then 0 else n % size + 1
  {
    var q, r := n / size, n % size;
    if r + 1 == size {
      Multiples(q, size);
      Divided(n + 1, size, q + 1, 0);
    } else {
      Divided(n + 1, size, q, r + 1);
    }
  }

  /** Chunk rows of the file being ingested, and how many of them are committed. */
  class PageWriter {
    var pageNumbers: seq<int>
    var rows: seq<ChunkRow>
    var committed: nat
    const embedBatchSize: nat
    const split: string -> seq<string>
    const sha: Part -> string

    /** Fewer rows than a batch are ever at risk. */
    ghost predicate Valid()
      reads this
    {
      embedBatchSize >= 1 && committed <= |rows| < committed + embedBatchSize
    }

    constructor (embedBatchSize: nat, split: string -> seq<string>, sha: Part -> string)
      requires embedBatchSize >= 1
      ensures Valid() && rows == [] && pageNumbers == []
      ensures this.embedBatchSize == embedBatchSize && this.split == split && this.sha == sha
    {
      this.embedBatchSize, this.split, this.sha := embedBatchSize, split, sha;
      pageNumbers, rows, committed := [], [], 0;
    }

    method Commit()
      requires embedBatchSize >= 1
      modifies this`committed
      ensures Valid() && committed == |rows|
    {
      committed := |rows|;
    }

    /** One chunk, and a commit when a batch is full. */
    method PersistChunk(filename: string, part: Part, batchIndex: nat, chunkCounter: nat,
                        ghost parts: seq<Part>, ghost payloads: seq<IndexPayload>)
      returns (newBatchIndex: nat, newChunkCounter: nat, payload: IndexPayload)
      requires embedBatchSize >= 1 && Written(sha, filename, embedBatchSize, parts, rows, payloads)
      requires chunkCounter == |rows| && batchIndex == chunkCounter / embedBatchSize
      requires committed <= |rows| && |rows| - committed <= chunkCounter % embedBatchSize
      modifies this`rows, this`committed
      ensures Written(sha, filename, embedBatchSize, parts + [part], rows, payloads + [payload])
      ensures newChunkCounter == |rows| == old(|rows|) + 1 && newBatchIndex == newChunkCounter / embedBatchSize
      ensures committed <= |rows| && |rows| - committed <= newChunkCounter % embedBatchSize
    {
      payload := IndexPayload(filename, part.page, sha(part), part.text);
      WrittenSnoc(sha, filename, embedBatchSize, parts, rows, payloads, part);
      NextBatch(chunkCounter, embedBatchSize);
      hide Written;
      rows := rows + [ChunkRow(part, batchIndex, sha(part))];
      newBatchIndex, newChunkCounter := batchIndex, chunkCounter + 1;
      if newChunkCounter % embedBatchSize == 0 {
        newBatchIndex := newBatchIndex + 1;
        Commit();
      }
    }

    method PersistPage(filename: string, page: SourcePage, batchIndex: nat, chunkCounter: nat,
                       ghost parts: seq<Part>, ghost payloads: seq<IndexPayload>)
      returns (newBatchIndex: nat, newChunkCounter: nat, pagePayloads: seq<IndexPayload>)
      requires Valid() && Written(sha, filename, embedBatchSize, parts, rows, payloads)
      requires chunkCounter == |rows| && batchIndex == chunkCounter / embedBatchSize
      modifies this
      ensures Valid() && committed == |rows| && pageNumbers == old(pageNumbers) + [page.number]
      ensures Written(sha, filename, embedBatchSize, parts + PartsOf(split, page), rows, payloads + pagePayloads)
      ensures newChunkCounter == |rows| && newBatchIndex == newChunkCounter / embedBatchSize
      ensures |pagePayloads| == |split(page.text)|
    {
      pageNumbers := pageNumbers + [page.number];
      Commit();
      pagePayloads := [];
      newBatchIndex, newChunkCounter := batchIndex, chunkCounter;
      var chunks := split(page.text);
      ghost var pageParts := PartsOf(split, page);
      EmptyEnds(parts);
      EmptyEnds(payloads);
      TakeNone(pageParts);
      hide Written;
      var offset := 1;
      while offset <= |chunks|
        invariant 1 <= offset <= |chunks| + 1 && |pagePayloads| == offset - 1
        invariant pageNumbers == old(pageNumbers) + [page.number]
        invariant Written(sha, filename, embedBatchSize, parts + pageParts[..offset - 1], rows, payloads + pagePayloads)
        invariant newChunkCounter == |rows| && newBatchIndex == newChunkCounter / embedBatchSize
        invariant committed <= |rows| && |rows| - committed <= newChunkCounter % embedBatchSize
      {
        var part := Part(page.number, offset, chunks[offset - 1]);
        TakeOneMore(pageParts, offset - 1);
        Assoc(parts, pageParts[..offset - 1], [part]);
        ghost var before := pagePayloads;
        var payload;
        newBatchIndex, newChunkCounter, payload := PersistChunk(filename, part, newBatchIndex, newChunkCounter,
                                                                parts + pageParts[..offset - 1], payloads + pagePayloads);
        Assoc(payloads, before, [payload]);
        pagePayloads := pagePayloads + [payload];
        offset := offset + 1;
      }
      TakeAll(pageParts);
      Commit();
    }

    /** Main result: row i of the file is in batch i div size, places on a page run 1, 2, 3,
        ..., and the count returned is that of the rows and of the payloads, in the same order. */
    method IngestFile(filename: string, pages: seq<SourcePage>) returns (count: nat, payloads: seq<IndexPayload>)
      requires Valid() && rows == [] && pageNumbers == []
      modifies this
      ensures Valid() && count == |rows| == |payloads| && committed == |rows|
      ensures Written(sha, filename, embedBatchSize, AllParts(split, pages), rows, payloads)
      ensures |pageNumbers| == |pages| && forall i | 0 <= i < |pages| :: pageNumbers[i] == pages[i].number
    {
      payloads := [];
      var batchIndex, chunkCounter := 0, 0;
      var i := 0;
      TakeNone(pages);
      while i < |pages|
        invariant 0 <= i <= |pages| && Valid()
        invariant i == 0 ==> rows == []
        invariant i > 0 ==> committed == |rows|
        invariant Written(sha, filename, embedBatchSize, AllParts(split, pages[..i]), rows, payloads)
        invariant chunkCounter == |rows| && batchIndex == chunkCounter / embedBatchSize
        invariant |pageNumbers| == i && forall j | 0 <= j < i :: pageNumbers[j] == pages[j].number
      {
        var pagePayloads;
        AllPartsSnoc(split, pages, i);
        batchIndex, chunkCounter, pagePayloads :=
          PersistPage(filename, pages[i], batchIndex, chunkCounter, AllParts(split, pages[..i]), payloads);
        payloads := payloads + pagePayloads;
        i := i + 1;
      }
      TakeAll(pages);
      count := |payloads|;
    }
  }
}

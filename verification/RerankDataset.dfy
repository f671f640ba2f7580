/** Building the reranker's training set: append a chunk at a time, resume after kills. */
module RerankDataset {
  import opened Options

  datatype Query = Query(text: string, sourceKey: string)

  datatype Passage = Passage(chunkKey: string, text: string)

  datatype Pair = Pair(query: string, chunkKey: string, text: string, sourceKey: string)

  datatype Row = Row(pair: Pair, teacherScore: real)

  /** A line of the file: a record (an old one may lack its source key), blank, or torn. */
  datatype Line = Record(row: Row) | Keyless(row: Row) | Blank | Torn

  datatype Chunk = Chunk(id: int, text: string)

  /** What a run calls and reads. */
  datatype Env = Env(
    generate: Chunk -> seq<string>,
    keyOf: int -> Option<string>,
    retrieve: (string, nat) -> seq<Passage>,
    score: seq<Pair> -> seq<real>,
    normalise: string -> string,
    golden: set<string>,
    k: nat)

  function Banned(env: Env): set<string> {
    set q | q in env.golden :: env.normalise(q)
  }

  // ------------------------------------------------------------ one chunk's rows

  function Dedupe(normalise: string -> string, queries: seq<Query>): seq<Query> {
    if queries == [] then []
    else
      var kept, last := Dedupe(normalise, queries[..|queries| - 1]), queries[|queries| - 1];
      if Asked(normalise, queries[..|queries| - 1], last.text) then kept else kept + [last]
  }

  predicate Asked(normalise: string -> string, queries: seq<Query>, text: string) {
    exists q :: q in queries && normalise(q.text) == normalise(text)
  }

  function Mined(query: Query, passages: seq<Passage>): (r: seq<Pair>)
    ensures |r| == |passages|
    ensures forall i | 0 <= i < |r| :: r[i] == Pair(query.text, passages[i].chunkKey, passages[i].text, query.sourceKey)
  {
    seq(|passages|, i requires 0 <= i < |passages| =>
      Pair(query.text, passages[i].chunkKey, passages[i].text, query.sourceKey))
  }

  function Pairs(env: Env, queries: seq<Query>): seq<Pair> {
    if queries == [] then []
    else
      var last := queries[|queries| - 1];
      Pairs(env, queries[..|queries| - 1])
      + if env.normalise(last.text) in Banned(env) then [] else Mined(last, env.retrieve(last.text, env.k))
  }

  function Asking(texts: seq<string>, key: string): (r: seq<Query>)
    ensures |r| == |texts| && forall i | 0 <= i < |r| :: r[i] == Query(texts[i], key)
  {
    seq(|texts|, i requires 0 <= i < |texts| => Query(texts[i], key))
  }

  function Zip(pairs: seq<Pair>, scores: seq<real>): (r: seq<Row>)
    requires |pairs| == |scores|
    ensures |r| == |pairs| && forall i | 0 <= i < |r| :: r[i] == Row(pairs[i], scores[i])
  {
    seq(|pairs|, i requires 0 <= i < |pairs| => Row(pairs[i], scores[i]))
  }

  function ChunkPairs(env: Env, c: Chunk): seq<Pair> {
    match env.keyOf(c.id)
    case None => []
    case Some(key) => Pairs(env, Dedupe(env.normalise, Asking(env.generate(c), key)))
  }

  /** The scorer gives one score per pair; otherwise appending raises an error. */
  predicate Scored(env: Env, c: Chunk) {
    ChunkPairs(env, c) == [] || |env.score(ChunkPairs(env, c))| == |ChunkPairs(env, c)|
  }

  function ChunkRows(env: Env, c: Chunk): (r: seq<Row>)
    ensures Scored(env, c) ==> |r| == |ChunkPairs(env, c)|
  {
    var pairs := ChunkPairs(env, c);
    if pairs != [] && Scored(env, c) then Zip(pairs, env.score(pairs)) else []
  }

  /** Every row a run over these chunks appends, in order. */
  function RowsOver(env: Env, chunks: seq<Chunk>): seq<Row> {
    if chunks == [] then [] else RowsOver(env, chunks[..|chunks| - 1]) + ChunkRows(env, chunks[|chunks| - 1])
  }

  function Lines(rows: seq<Row>): seq<Line> {
    seq(|rows|, i requires 0 <= i < |rows| => Record(rows[i]))
  }

  // ------------------------------------------------------------------- resuming

  predicate Marks(line: Line, key: string) {
    line.Record? && line.row.pair.sourceKey == key && key != ""
  }

  function Done(lines: seq<Line>): set<string> {
    if lines == [] then {}
    else
      var last, done := lines[|lines| - 1], Done(lines[..|lines| - 1]);
      if last.Record? && last.row.pair.sourceKey != "" then done + {last.row.pair.sourceKey} else done
  }

  lemma {:induction false} DoneMarks(lines: seq<Line>, key: string)
    ensures key in Done(lines) <==> exists i | 0 <= i < |lines| :: Marks(lines[i], key)
  {
    if lines != [] {
      DoneMarks(lines[..|lines| - 1], key);
      assert forall i | 0 <= i < |lines| - 1 :: lines[..|lines| - 1][i] == lines[i];
    }
  }

  predicate IsPending(env: Env, done: set<string>, c: Chunk) {
    match env.keyOf(c.id)
    case None => true
    case Some(key) => key !in done
  }

  function PendingChunks(env: Env, chunks: seq<Chunk>, done: set<string>): (r: seq<Chunk>)
    ensures |r| <= |chunks|
  {
    if chunks == [] then []
    else
      var last := chunks[|chunks| - 1];
      PendingChunks(env, chunks[..|chunks| - 1], done) + if IsPending(env, done, last) then [last] else []
  }

  function Cut(chunks: seq<Chunk>, alive: nat): seq<Chunk> {
    if alive < |chunks| then chunks[..alive] else chunks
  }

  /** The file after a run that died when it had been through `alive` chunks. */
  function Session(env: Env, chunks: seq<Chunk>, lines: seq<Line>, alive: nat): seq<Line>
  {
    lines + Lines(RowsOver(env, Cut(PendingChunks(env, chunks, Done(lines)), alive)))
  }

  /** A fresh run, killed, then resumed and killed any number of times. */
  function AfterKills(env: Env, chunks: seq<Chunk>, kills: seq<nat>): seq<Line>
  {
    if kills == [] then []
    else Session(env, chunks, AfterKills(env, chunks, kills[..|kills| - 1]), kills[|kills| - 1])
  }

  /** ... and then resumed to the end. */
  function Completed(env: Env, chunks: seq<Chunk>, kills: seq<nat>): seq<Line>
  {
    Session(env, chunks, AfterKills(env, chunks, kills), |chunks|)
  }

  predicate HasRows(env: Env, c: Chunk) {
    ChunkRows(env, c) != []
  }

  /** Chunks that yield rows have non-empty and different keys. */
  predicate KeysServe(env: Env, chunks: seq<Chunk>) {
    && (forall i | 0 <= i < |chunks| :: HasRows(env, chunks[i]) ==> env.keyOf(chunks[i].id) != Some(""))
    && forall i, j | 0 <= i < j < |chunks| ::
         HasRows(env, chunks[i]) && HasRows(env, chunks[j]) ==> env.keyOf(chunks[i].id) != env.keyOf(chunks[j].id)
  }
}

/** Exactly which rows a chunk gives: one for each question form asked first and each passage
    retrieved for it, in that order. */
module RerankRows {
  import opened Options
  import opened RerankDataset
  import opened RerankResume
  import opened Seqs

  /** No earlier generated question has the form of question `p`. */
  predicate NewForm(env: Env, texts: seq<string>, p: int) {
    0 <= p < |texts| && forall q :: 0 <= q < p ==> env.normalise(texts[q]) != env.normalise(texts[p])
  }

  predicate Golden(env: Env, text: string) {
    exists g :: g in env.golden && env.normalise(g) == env.normalise(text)
  }

  /** Question `p` is to be asked, and `a` is one of the passages retrieved for it. */
  predicate Due(env: Env, texts: seq<string>, p: int, a: int) {
    NewForm(env, texts, p) && !Golden(env, texts[p]) && 0 <= a < |env.retrieve(texts[p], env.k)|
  }

  function PairAt(env: Env, texts: seq<string>, key: string, p: int, a: int): Pair
    requires Due(env, texts, p, a)
  {
    var passage := env.retrieve(texts[p], env.k)[a];
    Pair(texts[p], passage.chunkKey, passage.text, key)
  }

  predicate Before(x: (int, int), y: (int, int)) {
    x.0 < y.0 || (x.0 == y.0 && x.1 < y.1)
  }

  /** The pairs stand at these places, in order. */
  ghost predicate Placed(env: Env, texts: seq<string>, key: string, pairs: seq<Pair>, places: seq<(int, int)>) {
    && |places| == |pairs|
    && (forall i :: 0 <= i < |places| ==>
          Due(env, texts, places[i].0, places[i].1) && pairs[i] == PairAt(env, texts, key, places[i].0, places[i].1))
    && (forall i, j :: 0 <= i < j < |places| ==> Before(places[i], places[j]))
  }

  /** Nothing below question `n` is left out. */
  ghost predicate Complete(env: Env, texts: seq<string>, places: seq<(int, int)>, n: int) {
    && (forall i :: 0 <= i < |places| ==> places[i].0 < n)
    && forall p: int, a: int :: p < n && Due(env, texts, p, a) ==> (p, a) in places
  }

  lemma GoldenBanned(env: Env, text: string)
    ensures env.normalise(text) in Banned(env) <==> Golden(env, text)
  {
  }

  // ------------------------------------------------------------- pairs of the questions

  /** The places of one question's passages. */
  function PlacesOf(p: int, n: nat): (r: seq<(int, int)>)
    ensures |r| == n && forall a :: 0 <= a < n ==> r[a] == (p, a)
  {
    seq(n, a => (p, a))
  }

  lemma MinedPlaced(env: Env, texts: seq<string>, key: string, p: nat)
    requires NewForm(env, texts, p) && !Golden(env, texts[p])
    ensures var passages := env.retrieve(texts[p], env.k);
      Placed(env, texts, key, Mined(Query(texts[p], key), passages), PlacesOf(p, |passages|))
  {
  }

  lemma PlacedAppend(env: Env, texts: seq<string>, key: string, a: seq<Pair>, x: seq<(int, int)>, b: seq<Pair>,
                     y: seq<(int, int)>, n: int)
    requires Placed(env, texts, key, a, x) && Placed(env, texts, key, b, y)
    requires (forall i :: 0 <= i < |x| ==> x[i].0 < n) && forall i :: 0 <= i < |y| ==> y[i].0 >= n
    ensures Placed(env, texts, key, a + b, x + y)
  {
    hide Due, PairAt;
    forall i, j | 0 <= i < j < |x + y| ensures Before((x + y)[i], (x + y)[j]) {
      if j < |x| {
        assert (x + y)[i] == x[i] && (x + y)[j] == x[j];
      } else if i >= |x| {
        assert (x + y)[i] == y[i - |x|] && (x + y)[j] == y[j - |x|];
      }
    }
  }

  lemma CompleteAppend(env: Env, texts: seq<string>, x: seq<(int, int)>, n: nat, y: seq<(int, int)>)
    requires Complete(env, texts, x, n) && n < |texts|
    requires forall i :: 0 <= i < |y| ==> y[i].0 == n
    requires forall a: int :: Due(env, texts, n, a) ==> (n, a) in y
    ensures Complete(env, texts, x + y, n + 1)
  {
    hide Due;
    forall i | 0 <= i < |x + y| ensures (x + y)[i].0 < n + 1 {
      if i < |x| { assert (x + y)[i] == x[i]; } else { assert (x + y)[i] == y[i - |x|]; }
    }
  }

  /** The questions of the first n that have a new form. */
  lemma DedupeOne(env: Env, texts: seq<string>, key: string, n: nat)
    requires n < |texts|
    ensures Dedupe(env.normalise, Asking(texts[..n + 1], key))
      == Dedupe(env.normalise, Asking(texts[..n], key)) + if NewForm(env, texts, n) then [Query(texts[n], key)] else []
  {
    var queries := Asking(texts[..n + 1], key);
    assert queries[..n] == Asking(texts[..n], key);
    assert forall q :: 0 <= q < n ==> queries[..n][q] == Query(texts[q], key);
    assert Asked(env.normalise, queries[..n], texts[n]) <==> !NewForm(env, texts, n) by {
      if !NewForm(env, texts, n) {
        var q :| 0 <= q < n && env.normalise(texts[q]) == env.normalise(texts[n]);
        assert queries[..n][q] in queries[..n];
      }
    }
    hide Asked, NewForm;
  }

  lemma PairsOne(env: Env, queries: seq<Query>, q: Query)
    ensures Pairs(env, queries + [q])
      == Pairs(env, queries) + if Golden(env, q.text) then [] else Mined(q, env.retrieve(q.text, env.k))
  {
    assert (queries + [q])[..|queries|] == queries;
    GoldenBanned(env, q.text);
    hide Golden, Banned;
  }

  /** The pairs of the first n generated questions. */
  function PairsUpTo(env: Env, texts: seq<string>, key: string, n: nat): seq<Pair>
    requires n <= |texts|
  {
    Pairs(env, Dedupe(env.normalise, Asking(texts[..n], key)))
  }

  /** What the next question adds to them. */
  function PairsNext(env: Env, texts: seq<string>, key: string, n: nat): seq<Pair>
    requires n < |texts|
  {
    if NewForm(env, texts, n) && !Golden(env, texts[n]) then Mined(Query(texts[n], key), env.retrieve(texts[n], env.k))
    else []
  }

  lemma PairsUpToNext(env: Env, texts: seq<string>, key: string, n: nat)
    requires n < |texts|
    ensures PairsUpTo(env, texts, key, n + 1) == PairsUpTo(env, texts, key, n) + PairsNext(env, texts, key, n)
  {
    hide Pairs, Dedupe, Asking, NewForm, Golden, Mined;
    var queries := Dedupe(env.normalise, Asking(texts[..n], key));
    DedupeOne(env, texts, key, n);
    EmptyEnds(queries);
    EmptyEnds(PairsUpTo(env, texts, key, n));
    if NewForm(env, texts, n) { PairsOne(env, queries, Query(texts[n], key)); }
  }

  /** ... and where that stands. */
  function PlacesNext(env: Env, texts: seq<string>, n: nat): seq<(int, int)>
    requires n < |texts|
  {
    if NewForm(env, texts, n) && !Golden(env, texts[n]) then PlacesOf(n, |env.retrieve(texts[n], env.k)|) else []
  }

  lemma NextPlaced(env: Env, texts: seq<string>, key: string, n: nat)
    requires n < |texts|
    ensures Placed(env, texts, key, PairsNext(env, texts, key, n), PlacesNext(env, texts, n))
    ensures forall i :: 0 <= i < |PlacesNext(env, texts, n)| ==> PlacesNext(env, texts, n)[i].0 == n
    ensures forall a: int :: Due(env, texts, n, a) ==> (n, a) in PlacesNext(env, texts, n)
  {
    hide Mined, PairAt;
    if NewForm(env, texts, n) && !Golden(env, texts[n]) {
      MinedPlaced(env, texts, key, n);
      PlacesHave(n, |env.retrieve(texts[n], env.k)|);
    }
  }

  /** The pairs of the first n generated questions and where they come from. */
  lemma {:induction false} PairPlaces(env: Env, texts: seq<string>, key: string, n: nat) returns (places: seq<(int, int)>)
    requires n <= |texts|
    ensures Placed(env, texts, key, PairsUpTo(env, texts, key, n), places) && Complete(env, texts, places, n)
  {
    if n == 0 {
      places := [];
    } else {
      hide *;
      places := PairPlaces(env, texts, key, n - 1);
      var next := PlacesNext(env, texts, n - 1);
      NextPlaced(env, texts, key, n - 1);
      PairsUpToNext(env, texts, key, n - 1);
      PlacesBelow(env, texts, places, n - 1);
      PlacedAppend(env, texts, key, PairsUpTo(env, texts, key, n - 1), places, PairsNext(env, texts, key, n - 1), next, n - 1);
      CompleteAppend(env, texts, places, n - 1, next);
      places := places + next;
    }
  }

  lemma PlacesHave(p: int, n: nat)
    ensures forall a: int :: 0 <= a < n ==> (p, a) in PlacesOf(p, n)
  {
    forall a: int | 0 <= a < n ensures (p, a) in PlacesOf(p, n) {
      assert PlacesOf(p, n)[a] == (p, a);
    }
  }

  lemma PlacesBelow(env: Env, texts: seq<string>, places: seq<(int, int)>, n: int)
    requires Complete(env, texts, places, n)
    ensures forall i :: 0 <= i < |places| ==> places[i].0 < n
  {
  }

  // ----------------------------------------------------------------------- rows

  function PairsOf(rows: seq<Row>): (r: seq<Pair>)
    ensures |r| == |rows| && forall i :: 0 <= i < |r| ==> r[i] == rows[i].pair
  {
    seq(|rows|, i requires 0 <= i < |rows| => rows[i].pair)
  }

  /** Rows are the pairs with the scores the scorer gives for all of them together. */
  lemma RowsScored(env: Env, c: Chunk)
    ensures var rows := ChunkRows(env, c);
      rows != [] ==>
        && |env.score(PairsOf(rows))| == |rows|
        && forall i :: 0 <= i < |rows| ==> rows[i].teacherScore == env.score(PairsOf(rows))[i]
    ensures Scored(env, c) ==> PairsOf(ChunkRows(env, c)) == ChunkPairs(env, c)
    ensures (forall pairs :: |env.score(pairs)| == |pairs|) ==> Scored(env, c)
  {
    hide ChunkPairs;
    if Scored(env, c) { assert PairsOf(ChunkRows(env, c)) == ChunkPairs(env, c); }
  }

  /** Main result: the rows of a chunk with a key, when it is scored, are one for each passage
      retrieved for each question that is the first of its form and not golden - in the order
      of the questions, and of the passages. */
  lemma RowsAre(env: Env, c: Chunk) returns (places: seq<(int, int)>)
    requires env.keyOf(c.id).Some? && Scored(env, c)
    ensures Placed(env, env.generate(c), env.keyOf(c.id).value, PairsOf(ChunkRows(env, c)), places)
    ensures forall p: int, a: int :: Due(env, env.generate(c), p, a) ==> (p, a) in places
  {
    var texts, key := env.generate(c), env.keyOf(c.id).value;
    TakeAll(texts);
    places := PairPlaces(env, texts, key, |texts|);
    RowsScored(env, c);
    assert ChunkPairs(env, c) == PairsUpTo(env, texts, key, |texts|);
    hide Placed, ChunkRows, ChunkPairs, PairsUpTo, Scored;
    forall p: int, a: int | Due(env, texts, p, a) ensures (p, a) in places {
      assert p < |texts|;
    }
  }

  /** Retrieval never returns two passages under one chunk key. */
  ghost predicate KeysDiffer(env: Env) {
    forall text: string, i, j :: 0 <= i < j < |env.retrieve(text, env.k)| ==>
      env.retrieve(text, env.k)[i].chunkKey != env.retrieve(text, env.k)[j].chunkKey
  }

  predicate Alike(env: Env, x: Pair, y: Pair) {
    env.normalise(x.query) == env.normalise(y.query) && x.chunkKey == y.chunkKey
  }

  lemma PlacesDiffer(env: Env, texts: seq<string>, key: string, x: (int, int), y: (int, int))
    requires KeysDiffer(env) && Due(env, texts, x.0, x.1) && Due(env, texts, y.0, y.1) && Before(x, y)
    ensures !Alike(env, PairAt(env, texts, key, x.0, x.1), PairAt(env, texts, key, y.0, y.1))
  {
    if x.0 == y.0 {
      assert env.retrieve(texts[x.0], env.k)[x.1].chunkKey != env.retrieve(texts[x.0], env.k)[y.1].chunkKey;
    }
  }

  /** So no two rows of a chunk ask the same form about the same passage. */
  lemma RowsDiffer(env: Env, c: Chunk, i: nat, j: nat)
    requires KeysDiffer(env) && i < j < |ChunkRows(env, c)|
    ensures !Alike(env, ChunkRows(env, c)[i].pair, ChunkRows(env, c)[j].pair)
  {
    var places := RowsAre(env, c);
    var texts, key := env.generate(c), env.keyOf(c.id).value;
    hide ChunkRows, KeysDiffer, Due, PairAt, Alike;
    PlacesDiffer(env, texts, key, places[i], places[j]);
  }

  lemma {:induction false} FirstOfForm(env: Env, texts: seq<string>, q: nat) returns (p: nat)
    requires q < |texts|
    ensures p <= q && NewForm(env, texts, p) && env.normalise(texts[p]) == env.normalise(texts[q])
  {
    if NewForm(env, texts, q) {
      p := q;
    } else {
      var r :| 0 <= r < q && env.normalise(texts[r]) == env.normalise(texts[q]);
      p := FirstOfForm(env, texts, r);
    }
  }

  /** Every generated question outside the golden set has, for each passage retrieved for the
      first question of its form, exactly one row. */
  lemma ExactlyOneRow(env: Env, c: Chunk, q: nat, a: nat) returns (p: nat, i: nat)
    requires env.keyOf(c.id).Some? && Scored(env, c) && KeysDiffer(env)
    requires q < |env.generate(c)| && !Golden(env, env.generate(c)[q])
    ensures var texts := env.generate(c);
      p <= q && NewForm(env, texts, p) && env.normalise(texts[p]) == env.normalise(texts[q])
    ensures var passages := env.retrieve(env.generate(c)[p], env.k);
      a < |passages| ==>
        && i < |ChunkRows(env, c)|
        && ChunkRows(env, c)[i].pair
             == Pair(env.generate(c)[p], passages[a].chunkKey, passages[a].text, env.keyOf(c.id).value)
        && forall j :: 0 <= j < |ChunkRows(env, c)| && j != i ==>
             !Alike(env, ChunkRows(env, c)[j].pair, ChunkRows(env, c)[i].pair)
  {
    var texts := env.generate(c);
    p := FirstOfForm(env, texts, q);
    i := 0;
    var passages := env.retrieve(texts[p], env.k);
    if a < |passages| {
      var places := RowsAre(env, c);
      assert Due(env, texts, p, a);
      i :| 0 <= i < |places| && places[i] == (p as int, a as int);
      assert PairsOf(ChunkRows(env, c))[i] == PairAt(env, texts, env.keyOf(c.id).value, p, a);
      hide ChunkRows, KeysDiffer, Scored;
      forall j | 0 <= j < |ChunkRows(env, c)| && j != i
        ensures !Alike(env, ChunkRows(env, c)[j].pair, ChunkRows(env, c)[i].pair)
      {
        if j < i { RowsDiffer(env, c, j, i); } else { RowsDiffer(env, c, i, j); }
      }
    }
  }

  // -------------------------------------------------------------------- the whole file

  /** Chunks that yield rows have different keys. */
  ghost predicate ChunkKeysDiffer(env: Env, chunks: seq<Chunk>) {
    forall i, j :: 0 <= i < j < |chunks| && HasRows(env, chunks[i]) && HasRows(env, chunks[j]) ==>
      env.keyOf(chunks[i].id) != env.keyOf(chunks[j].id)
  }

  lemma {:induction false} RowOfChunk(env: Env, chunks: seq<Chunk>, r: Row) returns (i: nat)
    requires r in RowsOver(env, chunks)
    ensures i < |chunks| && HasRows(env, chunks[i]) && env.keyOf(chunks[i].id) == Some(r.pair.sourceKey)
  {
    var n := |chunks| - 1;
    if r in ChunkRows(env, chunks[n]) {
      ChunkRowsKeyed(env, chunks[n]);
      i := n;
    } else {
      i := RowOfChunk(env, chunks[..n], r);
    }
  }

  lemma LastChunkDiffers(env: Env, chunks: seq<Chunk>, x: Row, y: Row)
    requires chunks != [] && ChunkKeysDiffer(env, chunks)
    requires x in RowsOver(env, chunks[..|chunks| - 1]) && y in ChunkRows(env, chunks[|chunks| - 1])
    ensures x.pair.sourceKey != y.pair.sourceKey
  {
    hide ChunkRows, RowsOver;
    var i := RowOfChunk(env, chunks[..|chunks| - 1], x);
    ChunkRowsKeyed(env, chunks[|chunks| - 1]);
    assert HasRows(env, chunks[|chunks| - 1]);
  }

  /** Nor do two rows of the whole file, of one source, when the chunks that yield rows have
      different keys. */
  lemma {:induction false} FileRowsDiffer(env: Env, chunks: seq<Chunk>, i: nat, j: nat)
    requires KeysDiffer(env) && ChunkKeysDiffer(env, chunks) && i < j < |RowsOver(env, chunks)|
    ensures var x, y := RowsOver(env, chunks)[i].pair, RowsOver(env, chunks)[j].pair;
      x.sourceKey != y.sourceKey || !Alike(env, x, y)
    decreases |chunks|
  {
    var n := |chunks| - 1;
    hide *;
    RowsNeedChunks(env, chunks);
    EarlierKeysDiffer(env, chunks);
    RowsOfLast(env, chunks);
    var before, last := RowsOver(env, chunks[..n]), ChunkRows(env, chunks[n]);
    RowAtSum(before, last, i);
    RowAtSum(before, last, j);
    if j < |before| {
      FileRowsDiffer(env, chunks[..n], i, j);
    } else if i >= |before| {
      RowsDiffer(env, chunks[n], i - |before|, j - |before|);
    } else {
      LastChunkDiffers(env, chunks, before[i], last[j - |before|]);
    }
  }

  lemma RowsNeedChunks(env: Env, chunks: seq<Chunk>)
    ensures RowsOver(env, chunks) != [] ==> chunks != []
  {
  }

  lemma EarlierKeysDiffer(env: Env, chunks: seq<Chunk>)
    requires chunks != [] && ChunkKeysDiffer(env, chunks)
    ensures ChunkKeysDiffer(env, chunks[..|chunks| - 1])
  {
    hide HasRows;
  }

  lemma RowsOfLast(env: Env, chunks: seq<Chunk>)
    requires chunks != []
    ensures RowsOver(env, chunks) == RowsOver(env, chunks[..|chunks| - 1]) + ChunkRows(env, chunks[|chunks| - 1])
  {
    hide ChunkRows;
  }

  lemma RowAtSum(a: seq<Row>, b: seq<Row>, i: nat)
    requires i < |a| + |b|
    ensures (a + b)[i] == if i < |a| then a[i] else b[i - |a|]
    ensures i < |a| ==> a[i] in a
    ensures i >= |a| ==> b[i - |a|] in b
  {
  }
}

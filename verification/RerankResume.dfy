/** Killed and resumed runs against one uninterrupted run. */
module RerankResume {
  import opened Options
  import opened RerankDataset
  import opened Seqs

  // ------------------------------------------------------------ what rows carry

  lemma {:induction false} DedupeAsks(normalise: string -> string, queries: seq<Query>)
    ensures forall q :: q in Dedupe(normalise, queries) ==> q in queries
  {
    if queries != [] { DedupeAsks(normalise, queries[..|queries| - 1]); }
  }

  lemma {:induction false} PairsKeyed(env: Env, queries: seq<Query>, key: string)
    requires forall q :: q in queries ==> q.sourceKey == key
    ensures forall p :: p in Pairs(env, queries) ==> p.sourceKey == key && env.normalise(p.query) !in Banned(env)
  {
    if queries != [] {
      PairsKeyed(env, queries[..|queries| - 1], key);
      assert queries[|queries| - 1] in queries;
    }
  }

  /** A chunk's rows carry its key and no question of the public golden set. */
  lemma ChunkRowsKeyed(env: Env, c: Chunk)
    ensures forall r :: r in ChunkRows(env, c) ==>
      env.keyOf(c.id) == Some(r.pair.sourceKey) && env.normalise(r.pair.query) !in Banned(env)
  {
    if env.keyOf(c.id).Some? {
      var key := env.keyOf(c.id).value;
      DedupeAsks(env.normalise, Asking(env.generate(c), key));
      PairsKeyed(env, Dedupe(env.normalise, Asking(env.generate(c), key)), key);
    }
    forall r | r in ChunkRows(env, c)
      ensures env.keyOf(c.id) == Some(r.pair.sourceKey) && env.normalise(r.pair.query) !in Banned(env)
    {
      assert r.pair in ChunkPairs(env, c);
    }
  }

  /** Main result: no row of the training set asks a golden question. */
  lemma {:induction false} NoLeak(env: Env, chunks: seq<Chunk>)
    ensures forall r :: r in RowsOver(env, chunks) ==> env.normalise(r.pair.query) !in Banned(env)
  {
    if chunks != [] {
      NoLeak(env, chunks[..|chunks| - 1]);
      ChunkRowsKeyed(env, chunks[|chunks| - 1]);
    }
  }

  /** No earlier query normalises like this one. */
  predicate AskedFirst(normalise: string -> string, queries: seq<Query>, p: int) {
    0 <= p < |queries| && !Asked(normalise, queries[..p], queries[p].text)
  }

  /** The places of the queries that ask first, in order. */
  function FirstPlaces(normalise: string -> string, queries: seq<Query>): seq<int> {
    if queries == [] then []
    else
      var n := |queries| - 1;
      FirstPlaces(normalise, queries[..n]) + if AskedFirst(normalise, queries, n) then [n] else []
  }

  lemma {:induction false} FirstPlacesAre(normalise: string -> string, queries: seq<Query>, p: int)
    ensures p in FirstPlaces(normalise, queries) <==> AskedFirst(normalise, queries, p)
  {
    if queries != [] {
      FirstPlacesAre(normalise, queries[..|queries| - 1], p);
      AskedFirstEarlier(normalise, queries, p);
      hide AskedFirst;
    }
  }

  /** Of the queries that normalise alike the first is kept, and only it, in order. */
  lemma {:induction false} DedupeKeepsFirst(normalise: string -> string, queries: seq<Query>)
    ensures var places, kept := FirstPlaces(normalise, queries), Dedupe(normalise, queries);
      && |kept| == |places|
      && (forall i | 0 <= i < |places| :: 0 <= places[i] < |queries| && kept[i] == queries[places[i]])
      && forall i, j | 0 <= i < j < |places| :: places[i] < places[j]
  {
    if queries != [] {
      var n := |queries| - 1;
      DedupeKeepsFirst(normalise, queries[..n]);
      assert Dedupe(normalise, queries)
          == Dedupe(normalise, queries[..n]) + if AskedFirst(normalise, queries, n) then [queries[n]] else [];
      assert FirstPlaces(normalise, queries)
          == FirstPlaces(normalise, queries[..n]) + if AskedFirst(normalise, queries, n) then [n] else [];
      hide *;
    }
  }

  lemma AskedFirstEarlier(normalise: string -> string, queries: seq<Query>, p: int)
    requires queries != []
    ensures AskedFirst(normalise, queries[..|queries| - 1], p)
      <==> AskedFirst(normalise, queries, p) && p != |queries| - 1
    ensures AskedFirst(normalise, queries, p) ==> 0 <= p < |queries|
  {
    var rest := queries[..|queries| - 1];
    assert 0 <= p < |rest| ==> rest[..p] == queries[..p] && rest[p] == queries[p];
    hide Asked;
  }

  // ------------------------------------------------------------------- splitting

  lemma RowsSnoc(env: Env, chunks: seq<Chunk>, c: Chunk)
    ensures RowsOver(env, chunks + [c]) == RowsOver(env, chunks) + ChunkRows(env, c)
  {
    assert (chunks + [c])[..|chunks|] == chunks;
    hide ChunkRows;
  }

  lemma {:induction false} RowsAppend(env: Env, a: seq<Chunk>, b: seq<Chunk>)
    ensures RowsOver(env, a + b) == RowsOver(env, a) + RowsOver(env, b)
  {
    if b == [] {
      EmptyEnds(a);
      EmptyEnds(RowsOver(env, a));
      hide ChunkRows;
    } else {
      hide *;
      var rest, last := b[..|b| - 1], b[|b| - 1];
      RowsAppend(env, a, rest);
      RowsSnoc(env, a + rest, last);
      RowsSnoc(env, rest, last);
      SplitLast(b);
      Assoc(a, rest, [last]);
      Assoc(RowsOver(env, a), RowsOver(env, rest), ChunkRows(env, last));
    }
  }

  lemma PendingSnoc(env: Env, chunks: seq<Chunk>, c: Chunk, done: set<string>)
    ensures PendingChunks(env, chunks + [c], done)
         == PendingChunks(env, chunks, done) + if IsPending(env, done, c) then [c] else []
  {
    assert (chunks + [c])[..|chunks|] == chunks;
    hide IsPending;
  }

  lemma {:induction false} PendingAppend(env: Env, a: seq<Chunk>, b: seq<Chunk>, done: set<string>)
    ensures PendingChunks(env, a + b, done) == PendingChunks(env, a, done) + PendingChunks(env, b, done)
  {
    if b == [] {
      EmptyEnds(a);
      EmptyEnds(PendingChunks(env, a, done));
    } else {
      hide *;
      var rest, last := b[..|b| - 1], b[|b| - 1];
      PendingAppend(env, a, rest, done);
      PendingSnoc(env, a + rest, last, done);
      PendingSnoc(env, rest, last, done);
      SplitLast(b);
      Assoc(a, rest, [last]);
      Assoc(PendingChunks(env, a, done), PendingChunks(env, rest, done), if IsPending(env, done, last) then [last] else []);
    }
  }

  lemma LinesAppend(a: seq<Row>, b: seq<Row>)
    ensures Lines(a + b) == Lines(a) + Lines(b)
  {
  }

  // ------------------------------------------------------------- what is done

  lemma {:induction false} DoneAppend(a: seq<Line>, b: seq<Line>)
    ensures Done(a + b) == Done(a) + Done(b)
  {
    if b == [] {
      assert a + b == a;
    } else {
      DoneAppend(a, b[..|b| - 1]);
      assert (a + b)[..|a + b| - 1] == a + b[..|b| - 1] && (a + b)[|a + b| - 1] == b[|b| - 1];
    }
  }

  predicate Serves(env: Env, c: Chunk, key: string) {
    HasRows(env, c) && env.keyOf(c.id) == Some(key) && key != ""
  }

  lemma ChunkDone(env: Env, c: Chunk)
    ensures forall key :: key in Done(Lines(ChunkRows(env, c))) <==> Serves(env, c, key)
  {
    ChunkRowsKeyed(env, c);
    var lines := Lines(ChunkRows(env, c));
    hide ChunkPairs, ChunkRows;
    forall key ensures key in Done(lines) <==> Serves(env, c, key) {
      DoneMarks(lines, key);
      if key in Done(lines) {
        var i :| 0 <= i < |lines| && Marks(lines[i], key);
        assert ChunkRows(env, c)[i] in ChunkRows(env, c);
      }
      if Serves(env, c, key) {
        assert ChunkRows(env, c)[0] in ChunkRows(env, c);
        assert Marks(lines[0], key);
      }
    }
  }

  predicate SomeServes(env: Env, chunks: seq<Chunk>, key: string) {
    exists i | 0 <= i < |chunks| :: Serves(env, chunks[i], key)
  }

  lemma SomeServesLast(env: Env, chunks: seq<Chunk>, key: string)
    requires chunks != []
    ensures SomeServes(env, chunks, key)
      <==> SomeServes(env, chunks[..|chunks| - 1], key) || Serves(env, chunks[|chunks| - 1], key)
  {
    hide Serves;
    var rest := chunks[..|chunks| - 1];
    if i :| 0 <= i < |rest| && Serves(env, rest[i], key) { assert Serves(env, chunks[i], key); }
    if i :| 0 <= i < |chunks| && Serves(env, chunks[i], key) {
      if i < |rest| { assert Serves(env, rest[i], key); }
    }
  }

  /** The keys found in the file are those of the chunks that gave rows. */
  lemma {:induction false} DoneKeys(env: Env, chunks: seq<Chunk>, key: string)
    ensures key in Done(Lines(RowsOver(env, chunks))) <==> SomeServes(env, chunks, key)
  {
    if chunks != [] {
      var rest, last := chunks[..|chunks| - 1], chunks[|chunks| - 1];
      assert RowsOver(env, chunks) == RowsOver(env, rest) + ChunkRows(env, last);
      hide *;
      DoneKeys(env, rest, key);
      ChunkDone(env, last);
      LinesAppend(RowsOver(env, rest), ChunkRows(env, last));
      DoneAppend(Lines(RowsOver(env, rest)), Lines(ChunkRows(env, last)));
      SomeServesLast(env, chunks, key);
    }
  }

  // ------------------------------------------------------------ one resumed run

  predicate RowsDone(env: Env, chunks: seq<Chunk>, done: set<string>) {
    forall c :: c in chunks && HasRows(env, c) ==> !IsPending(env, done, c)
  }

  predicate RowsPending(env: Env, chunks: seq<Chunk>, done: set<string>) {
    forall c :: c in chunks && HasRows(env, c) ==> IsPending(env, done, c)
  }

  /** Chunks with rows that are already done leave nothing to append. */
  lemma {:induction false} DoneChunksGiveNothing(env: Env, chunks: seq<Chunk>, done: set<string>, m: nat)
    requires m <= |PendingChunks(env, chunks, done)|
    requires RowsDone(env, chunks, done)
    ensures RowsOver(env, PendingChunks(env, chunks, done)[..m]) == []
  {
    hide ChunkRows, IsPending;
    if chunks != [] && m > 0 {
      var last, rest := chunks[|chunks| - 1], chunks[..|chunks| - 1];
      var pending := PendingChunks(env, rest, done);
      assert last in chunks;
      if m <= |pending| {
        DoneChunksGiveNothing(env, rest, done, m);
        assert PendingChunks(env, chunks, done)[..m] == pending[..m];
      } else {
        DoneChunksGiveNothing(env, rest, done, m - 1);
        assert PendingChunks(env, chunks, done)[..m] == pending + [last] && pending[..m - 1] == pending;
        assert ChunkRows(env, last) == [];
      }
    }
  }

  lemma PendingLast(env: Env, chunks: seq<Chunk>, done: set<string>) returns (tail: seq<Chunk>)
    requires chunks != [] && RowsPending(env, chunks, done)
    ensures PendingChunks(env, chunks, done) == PendingChunks(env, chunks[..|chunks| - 1], done) + tail
    ensures RowsOver(env, chunks) == RowsOver(env, chunks[..|chunks| - 1]) + RowsOver(env, tail)
    ensures |tail| <= 1 && RowsPending(env, chunks[..|chunks| - 1], done)
  {
    var last := chunks[|chunks| - 1];
    assert last in chunks;
    tail := if IsPending(env, done, last) then [last] else [];
    assert tail == [] ==> ChunkRows(env, last) == [];
    hide *;
    SplitLast(chunks);
    RowsSnoc(env, chunks[..|chunks| - 1], last);
    PendingSnoc(env, chunks[..|chunks| - 1], last, done);
    OneChunkRows(env, last);
    NoChunksNoRows(env);
    RestPending(env, chunks, done);
  }

  lemma RestPending(env: Env, chunks: seq<Chunk>, done: set<string>)
    requires chunks != [] && RowsPending(env, chunks, done)
    ensures RowsPending(env, chunks[..|chunks| - 1], done)
  {
    hide HasRows, IsPending;
  }

  /** When every chunk with rows is pending, the pending chunks give the rows of all. */
  lemma {:induction false} PendingChunksGiveAll(env: Env, chunks: seq<Chunk>, done: set<string>)
    requires RowsPending(env, chunks, done)
    ensures RowsOver(env, PendingChunks(env, chunks, done)) == RowsOver(env, chunks)
  {
    if chunks != [] {
      hide *;
      var tail := PendingLast(env, chunks, done);
      PendingChunksGiveAll(env, chunks[..|chunks| - 1], done);
      RowsAppend(env, PendingChunks(env, chunks[..|chunks| - 1], done), tail);
    }
  }

  /** ... and a prefix of them the rows of a prefix of all. */
  lemma {:induction false} PendingChunksGivePrefix(env: Env, chunks: seq<Chunk>, done: set<string>, m: nat)
    returns (n: nat)
    requires m <= |PendingChunks(env, chunks, done)|
    requires RowsPending(env, chunks, done)
    ensures n <= |chunks| && (m == |PendingChunks(env, chunks, done)| ==> n == |chunks|)
    ensures RowsOver(env, PendingChunks(env, chunks, done)[..m]) == RowsOver(env, chunks[..n])
  {
    hide *;
    if m == |PendingChunks(env, chunks, done)| {
      n := |chunks|;
      PendingChunksGiveAll(env, chunks, done);
      TakeAll(chunks);
      TakeAll(PendingChunks(env, chunks, done));
    } else {
      PendingTake(env, chunks, done, m);
      n := PendingChunksGivePrefix(env, chunks[..|chunks| - 1], done, m);
      TakeOfTake(chunks, |chunks| - 1, n);
    }
  }

  lemma PendingTake(env: Env, chunks: seq<Chunk>, done: set<string>, m: nat)
    requires m < |PendingChunks(env, chunks, done)| && RowsPending(env, chunks, done)
    ensures chunks != [] && RowsPending(env, chunks[..|chunks| - 1], done)
    ensures var pending := PendingChunks(env, chunks[..|chunks| - 1], done);
      m <= |pending| && PendingChunks(env, chunks, done)[..m] == pending[..m]
  {
    hide *;
    var tail := PendingLast(env, chunks, done);
    TakeOfSum(PendingChunks(env, chunks[..|chunks| - 1], done), tail, m);
  }

  lemma OneChunkRows(env: Env, c: Chunk)
    ensures RowsOver(env, [c]) == ChunkRows(env, c)
  {
    assert [c][..0] == [];
    assert RowsOver(env, [c]) == RowsOver(env, []) + ChunkRows(env, c);
  }

  /** From the file of a run cut at some chunk, a resumed run goes on to the file of a run
      cut at some later chunk; not cut, it completes it. */
  lemma ResumeStep(env: Env, chunks: seq<Chunk>, n: nat, alive: nat) returns (next: nat)
    requires KeysServe(env, chunks) && n <= |chunks|
    ensures n <= next <= |chunks|
    ensures Session(env, chunks, Lines(RowsOver(env, chunks[..n])), alive) == Lines(RowsOver(env, chunks[..next]))
    ensures alive >= |chunks| ==> next == |chunks|
  {
    hide *;
    var k := TodoRows(env, chunks, n, alive);
    next := n + k;
    Rejoined(env, chunks, n, k);
    ResumedLines(env, chunks, n, k, alive);
  }

  lemma TodoRows(env: Env, chunks: seq<Chunk>, n: nat, alive: nat) returns (k: nat)
    requires KeysServe(env, chunks) && n <= |chunks|
    ensures n + k <= |chunks| && (alive >= |chunks| ==> n + k == |chunks|)
    ensures RowsOver(env, Todo(env, chunks, n, alive)) == RowsOver(env, chunks[n..][..k])
  {
    hide *;
    DoneBefore(env, chunks, n);
    TodoSplit(env, chunks, n, alive);
    k := TodoGivesPrefix(env, chunks[..n], chunks[n..], Done(Lines(RowsOver(env, chunks[..n]))),
                         |Todo(env, chunks, n, alive)|);
  }

  lemma Rejoined(env: Env, chunks: seq<Chunk>, n: nat, k: nat)
    requires n + k <= |chunks|
    ensures RowsOver(env, chunks[..n + k]) == RowsOver(env, chunks[..n]) + RowsOver(env, chunks[n..][..k])
  {
    TakeMore(chunks, n, k);
    RowsAppend(env, chunks[..n], chunks[n..][..k]);
    hide *;
  }

  lemma ResumedLines(env: Env, chunks: seq<Chunk>, n: nat, k: nat, alive: nat)
    requires n + k <= |chunks|
    requires RowsOver(env, Todo(env, chunks, n, alive)) == RowsOver(env, chunks[n..][..k])
    requires RowsOver(env, chunks[..n + k]) == RowsOver(env, chunks[..n]) + RowsOver(env, chunks[n..][..k])
    ensures Session(env, chunks, Lines(RowsOver(env, chunks[..n])), alive) == Lines(RowsOver(env, chunks[..n + k]))
  {
    assert Session(env, chunks, Lines(RowsOver(env, chunks[..n])), alive)
        == Lines(RowsOver(env, chunks[..n])) + Lines(RowsOver(env, Todo(env, chunks, n, alive)));
    hide *;
    LinesAppend(RowsOver(env, chunks[..n]), RowsOver(env, chunks[n..][..k]));
  }

  /** The chunks a run resumed from the file of a run cut at chunk n goes through. */
  function Todo(env: Env, chunks: seq<Chunk>, n: nat, alive: nat): seq<Chunk>
    requires n <= |chunks|
  {
    Cut(PendingChunks(env, chunks, Done(Lines(RowsOver(env, chunks[..n])))), alive)
  }

  lemma TodoSplit(env: Env, chunks: seq<Chunk>, n: nat, alive: nat)
    requires n <= |chunks|
    ensures var done := Done(Lines(RowsOver(env, chunks[..n])));
      var all := PendingChunks(env, chunks[..n], done) + PendingChunks(env, chunks[n..], done);
      var m := |Todo(env, chunks, n, alive)|;
      m <= |all| && Todo(env, chunks, n, alive) == all[..m] && (alive >= |chunks| ==> m == |all|)
  {
    var done := Done(Lines(RowsOver(env, chunks[..n])));
    var pending := PendingChunks(env, chunks, done);
    assert Todo(env, chunks, n, alive) == Cut(pending, alive);
    hide PendingChunks, Done, RowsOver, Lines, Todo;
    PendingAppend(env, chunks[..n], chunks[n..], done);
    Rejoin(chunks, n);
    CutIsTake(pending, alive);
    hide *;
  }

  lemma CutIsTake(chunks: seq<Chunk>, alive: nat)
    ensures Cut(chunks, alive) == chunks[..|Cut(chunks, alive)|]
    ensures alive >= |chunks| ==> Cut(chunks, alive) == chunks
    ensures |Cut(chunks, alive)| <= |chunks|
  {
  }

  /** The first chunks still to do give the rows of the first chunks not yet reached. */
  lemma TodoGivesPrefix(env: Env, before: seq<Chunk>, after: seq<Chunk>, done: set<string>, m: nat) returns (k: nat)
    requires m <= |PendingChunks(env, before, done) + PendingChunks(env, after, done)|
    requires RowsDone(env, before, done) && RowsPending(env, after, done)
    ensures k <= |after|
    ensures m == |PendingChunks(env, before, done) + PendingChunks(env, after, done)| ==> k == |after|
    ensures RowsOver(env, (PendingChunks(env, before, done) + PendingChunks(env, after, done))[..m])
         == RowsOver(env, after[..k])
  {
    var redone, ahead := PendingChunks(env, before, done), PendingChunks(env, after, done);
    hide *;
    TakeOfSum(redone, ahead, m);
    if m < |redone| || (m == |redone| && ahead != []) {
      DoneChunksGiveNothing(env, before, done, m);
      k := 0;
      TakeNone(after);
      NoChunksNoRows(env);
    } else {
      DoneChunksGiveNothing(env, before, done, |redone|);
      TakeAll(redone);
      TakeNone(ahead);
      NoChunksNoRows(env);
      RowsAppend(env, redone, ahead[..m - |redone|]);
      k := PendingChunksGivePrefix(env, after, done, m - |redone|);
      EmptyEnds(RowsOver(env, after[..k]));
    }
  }

  lemma NoChunksNoRows(env: Env)
    ensures RowsOver(env, []) == []
  {
  }

  /** After a run cut at chunk n, the chunks with rows before it are done and those after
      it are not. */
  lemma DoneBefore(env: Env, chunks: seq<Chunk>, n: nat)
    requires KeysServe(env, chunks) && n <= |chunks|
    ensures var done := Done(Lines(RowsOver(env, chunks[..n])));
      RowsDone(env, chunks[..n], done) && RowsPending(env, chunks[n..], done)
  {
    var done := Done(Lines(RowsOver(env, chunks[..n])));
    hide Done, RowsOver, Lines, ChunkRows;
    forall c | c in chunks[..n] && HasRows(env, c) ensures !IsPending(env, done, c) {
      var i :| 0 <= i < n && chunks[i] == c;
      RowsNeedKey(env, c);
      assert Serves(env, chunks[..n][i], env.keyOf(c.id).value);
      DoneKeys(env, chunks[..n], env.keyOf(c.id).value);
    }
    forall c | c in chunks[n..] && HasRows(env, c) ensures IsPending(env, done, c) {
      var j :| 0 <= j < |chunks[n..]| && chunks[n..][j] == c;
      RowsNeedKey(env, c);
      var key := env.keyOf(c.id).value;
      DoneKeys(env, chunks[..n], key);
      assert !SomeServes(env, chunks[..n], key);
    }
  }

  lemma RowsNeedKey(env: Env, c: Chunk)
    requires HasRows(env, c)
    ensures env.keyOf(c.id).Some?
  {
  }

  lemma {:induction false} KillsKeepPrefix(env: Env, chunks: seq<Chunk>, kills: seq<nat>) returns (n: nat)
    requires KeysServe(env, chunks)
    ensures n <= |chunks| && AfterKills(env, chunks, kills) == Lines(RowsOver(env, chunks[..n]))
  {
    hide KeysServe, RowsOver, Lines, Session;
    if kills == [] {
      n := 0;
      NoChunksNoRows(env);
      NoLines();
    } else {
      n := KillsKeepPrefix(env, chunks, kills[..|kills| - 1]);
      n := ResumeStep(env, chunks, n, kills[|kills| - 1]);
    }
  }

  lemma NoLines()
    ensures Lines([]) == []
  {
  }

  /** Main result: whatever the kills, resuming to the end gives the rows of one
      uninterrupted run, in the same order. */
  lemma ResumeExact(env: Env, chunks: seq<Chunk>, kills: seq<nat>)
    requires KeysServe(env, chunks)
    ensures Completed(env, chunks, kills) == Lines(RowsOver(env, chunks))
  {
    var n := KillsKeepPrefix(env, chunks, kills);
    var all := ResumeStep(env, chunks, n, |chunks|);
    assert chunks[..all] == chunks;
    hide *;
  }

  // ----------------------------------------------------------------- the converse

  function Count(rows: seq<Row>, key: string): nat {
    if rows == [] then 0
    else Count(rows[..|rows| - 1], key) + if rows[|rows| - 1].pair.sourceKey == key then 1 else 0
  }

  lemma {:induction false} CountAppend(a: seq<Row>, b: seq<Row>, key: string)
    ensures Count(a + b, key) == Count(a, key) + Count(b, key)
  {
    if b == [] {
      assert a + b == a;
    } else {
      CountAppend(a, b[..|b| - 1], key);
      assert (a + b)[..|a + b| - 1] == a + b[..|b| - 1] && (a + b)[|a + b| - 1] == b[|b| - 1];
    }
  }

  lemma {:induction false} CountAlike(rows: seq<Row>, key: string, own: string)
    requires forall r :: r in rows ==> r.pair.sourceKey == own
    ensures Count(rows, key) == if key == own then |rows| else 0
  {
    if rows != [] { CountAlike(rows[..|rows| - 1], key, own); }
  }

  lemma CountChunk(env: Env, c: Chunk, key: string)
    ensures Count(ChunkRows(env, c), key) == if env.keyOf(c.id) == Some(key) then |ChunkRows(env, c)| else 0
  {
    ChunkRowsKeyed(env, c);
    if env.keyOf(c.id).Some? { CountAlike(ChunkRows(env, c), key, env.keyOf(c.id).value); }
  }

  /** How many rows one more chunk adds under a key. */
  function Adds(env: Env, c: Chunk, key: string): nat {
    if env.keyOf(c.id) == Some(key) then |ChunkRows(env, c)| else 0
  }

  lemma CountLast(env: Env, chunks: seq<Chunk>, key: string)
    requires chunks != []
    ensures Count(RowsOver(env, chunks), key)
         == Count(RowsOver(env, chunks[..|chunks| - 1]), key) + Adds(env, chunks[|chunks| - 1], key)
  {
    var c := chunks[|chunks| - 1];
    CountAppend(RowsOver(env, chunks[..|chunks| - 1]), ChunkRows(env, c), key);
    CountChunk(env, c, key);
    hide ChunkRows, Count;
  }

  lemma PendingCountLast(env: Env, chunks: seq<Chunk>, done: set<string>, key: string)
    requires chunks != []
    ensures Count(RowsOver(env, PendingChunks(env, chunks, done)), key)
         == Count(RowsOver(env, PendingChunks(env, chunks[..|chunks| - 1], done)), key)
          + if key in done then 0 else Adds(env, chunks[|chunks| - 1], key)
  {
    var rest, last := chunks[..|chunks| - 1], chunks[|chunks| - 1];
    SplitLast(chunks);
    PendingSnoc(env, rest, last, done);
    if IsPending(env, done, last) {
      assert key in done ==> Adds(env, last, key) == 0;
      hide *;
      var pending := PendingChunks(env, rest, done);
      TakeOfSum(pending, [last], |pending|);
      TakeAll(pending);
      CountLast(env, pending + [last], key);
    } else {
      assert key !in done ==> Adds(env, last, key) == 0;
      hide *;
      EmptyEnds(PendingChunks(env, rest, done));
    }
  }

  /** Pending chunks hold the rows of every key not done, and none of a key done. */
  lemma {:induction false} PendingCount(env: Env, chunks: seq<Chunk>, done: set<string>, key: string)
    ensures Count(RowsOver(env, PendingChunks(env, chunks, done)), key)
         == if key in done then 0 else Count(RowsOver(env, chunks), key)
  {
    if chunks == [] {
      NoChunksNoRows(env);
    } else {
      hide *;
      PendingCount(env, chunks[..|chunks| - 1], done, key);
      PendingCountLast(env, chunks, done, key);
      CountLast(env, chunks, key);
    }
  }

  lemma {:induction false} PendingAll(env: Env, chunks: seq<Chunk>)
    ensures PendingChunks(env, chunks, {}) == chunks
  {
    if chunks != [] {
      PendingAll(env, chunks[..|chunks| - 1]);
    }
  }

  /** One kill after n chunks, then a resume: rows of the first n, then of what is pending. */
  lemma OneKill(env: Env, chunks: seq<Chunk>, n: nat)
    requires n <= |chunks|
    ensures var first := RowsOver(env, chunks[..n]);
      Completed(env, chunks, [n])
        == Lines(first + RowsOver(env, PendingChunks(env, chunks, Done(Lines(first)))))
  {
    assert [n][..0] == [] && AfterKills(env, chunks, []) == [];
    PendingAll(env, chunks);
    NoLines();
    assert Cut(chunks, n) == chunks[..n];
    var first := RowsOver(env, chunks[..n]);
    assert Session(env, chunks, [], n) == [] + Lines(first);
    assert AfterKills(env, chunks, [n]) == Lines(first);
    var pending := PendingChunks(env, chunks, Done(Lines(first)));
    CutIsTake(pending, |chunks|);
    assert Completed(env, chunks, [n]) == Lines(first) + Lines(RowsOver(env, pending));
    hide *;
    LinesAppend(first, RowsOver(env, pending));
  }

  /** How many lines of the file record a row under a key. */
  function Recorded(lines: seq<Line>, key: string): nat {
    if lines == [] then 0
    else
      var last := lines[|lines| - 1];
      Recorded(lines[..|lines| - 1], key) + if last.Record? && last.row.pair.sourceKey == key then 1 else 0
  }

  lemma {:induction false} RecordedRows(rows: seq<Row>, key: string)
    ensures Recorded(Lines(rows), key) == Count(rows, key)
  {
    if rows != [] {
      RecordedRows(rows[..|rows| - 1], key);
      assert Lines(rows)[..|rows| - 1] == Lines(rows[..|rows| - 1]);
    }
  }

  /** The lines under a key after one kill and a resume. */
  lemma OneKillRecords(env: Env, chunks: seq<Chunk>, n: nat, key: string)
    requires n <= |chunks|
    ensures var first := RowsOver(env, chunks[..n]);
      Recorded(Completed(env, chunks, [n]), key)
        == Count(first, key) + if key in Done(Lines(first)) then 0 else Count(RowsOver(env, chunks), key)
  {
    hide *;
    var first := RowsOver(env, chunks[..n]);
    var later := RowsOver(env, PendingChunks(env, chunks, Done(Lines(first))));
    OneKill(env, chunks, n);
    RecordedRows(first + later, key);
    CountAppend(first, later, key);
    PendingCount(env, chunks, Done(Lines(first)), key);
  }

  lemma {:induction false} CountHas(env: Env, chunks: seq<Chunk>, i: nat, key: string)
    requires i < |chunks| && HasRows(env, chunks[i]) && env.keyOf(chunks[i].id) == Some(key)
    ensures Count(RowsOver(env, chunks), key) > 0
  {
    CountLast(env, chunks, key);
    hide ChunkRows, RowsOver, Count;
    if i < |chunks| - 1 { CountHas(env, chunks[..|chunks| - 1], i, key); }
  }

  /** An empty key is never seen as done: a kill once its rows are written has them twice. */
  lemma EmptyKeyRepeats(env: Env, chunks: seq<Chunk>, i: nat)
    requires i < |chunks| && HasRows(env, chunks[i]) && env.keyOf(chunks[i].id) == Some("")
    ensures var first, whole := Lines(RowsOver(env, chunks[..i + 1])), Lines(RowsOver(env, chunks));
      && Recorded(Completed(env, chunks, [i + 1]), "") == Recorded(whole, "") + Recorded(first, "")
      && Recorded(first, "") > 0
  {
    var first := RowsOver(env, chunks[..i + 1]);
    CountHas(env, chunks[..i + 1], i, "");
    DoneMarks(Lines(first), "");
    OneKillRecords(env, chunks, i + 1, "");
    RecordedRows(first, "");
    RecordedRows(RowsOver(env, chunks), "");
    hide *;
  }

  /** A key two chunks share is done when the first is: of its rows, a kill in between leaves
      only those written before it. */
  lemma SharedKeyLoses(env: Env, chunks: seq<Chunk>, i: nat, j: nat, key: string)
    requires i < j < |chunks| && HasRows(env, chunks[i]) && HasRows(env, chunks[j])
    requires env.keyOf(chunks[i].id) == env.keyOf(chunks[j].id) == Some(key) && key != ""
    ensures var first, whole := Lines(RowsOver(env, chunks[..i + 1])), Lines(RowsOver(env, chunks));
      Recorded(Completed(env, chunks, [i + 1]), key) == Recorded(first, key) < Recorded(whole, key)
  {
    hide *;
    KeyDone(env, chunks, i, key);
    OneKillRecords(env, chunks, i + 1, key);
    RecordedRows(RowsOver(env, chunks[..i + 1]), key);
    RecordedRows(RowsOver(env, chunks), key);
    CountAfter(env, chunks, i, j, key);
  }

  lemma CountAfter(env: Env, chunks: seq<Chunk>, i: nat, j: nat, key: string)
    requires i < j < |chunks| && HasRows(env, chunks[j]) && env.keyOf(chunks[j].id) == Some(key)
    ensures Count(RowsOver(env, chunks), key) > Count(RowsOver(env, chunks[..i + 1]), key)
  {
    hide *;
    assert chunks[i + 1..][j - i - 1] == chunks[j];
    CountHas(env, chunks[i + 1..], j - i - 1, key);
    RowsSplit(env, chunks, i + 1);
    CountAppend(RowsOver(env, chunks[..i + 1]), RowsOver(env, chunks[i + 1..]), key);
  }

  lemma KeyDone(env: Env, chunks: seq<Chunk>, i: nat, key: string)
    requires i < |chunks| && HasRows(env, chunks[i]) && env.keyOf(chunks[i].id) == Some(key) && key != ""
    ensures key in Done(Lines(RowsOver(env, chunks[..i + 1])))
  {
    hide HasRows, Done, RowsOver, Lines;
    assert Serves(env, chunks[..i + 1][i], key);
    DoneKeys(env, chunks[..i + 1], key);
  }

  lemma RowsSplit(env: Env, chunks: seq<Chunk>, n: nat)
    requires n <= |chunks|
    ensures RowsOver(env, chunks) == RowsOver(env, chunks[..n]) + RowsOver(env, chunks[n..])
  {
    assert chunks == chunks[..n] + chunks[n..];
    RowsAppend(env, chunks[..n], chunks[n..]);
  }

  ghost predicate ExactAfterAnyKills(env: Env, chunks: seq<Chunk>) {
    forall kills: seq<nat> :: Completed(env, chunks, kills) == Lines(RowsOver(env, chunks))
  }

  lemma KillThatShows(env: Env, chunks: seq<Chunk>) returns (kills: seq<nat>)
    requires !KeysServe(env, chunks)
    ensures Completed(env, chunks, kills) != Lines(RowsOver(env, chunks))
  {
    hide HasRows, Recorded, Completed, Lines, RowsOver;
    if i :| 0 <= i < |chunks| && HasRows(env, chunks[i]) && env.keyOf(chunks[i].id) == Some("") {
      EmptyKeyRepeats(env, chunks, i);
      kills := [i + 1];
    } else {
      var i, j :| 0 <= i < j < |chunks| && HasRows(env, chunks[i]) && HasRows(env, chunks[j])
        && env.keyOf(chunks[i].id) == env.keyOf(chunks[j].id);
      RowsNeedKey(env, chunks[i]);
      SharedKeyLoses(env, chunks, i, j, env.keyOf(chunks[i].id).value);
      kills := [i + 1];
    }
  }

  /** Main result: resuming is exact, for every history of kills, exactly when the chunks
      that yield rows have non-empty and different keys. */
  lemma ResumeExactIff(env: Env, chunks: seq<Chunk>)
    ensures ExactAfterAnyKills(env, chunks) <==> KeysServe(env, chunks)
  {
    hide KeysServe, Completed, Lines, RowsOver;
    if KeysServe(env, chunks) {
      forall kills: seq<nat> ensures Completed(env, chunks, kills) == Lines(RowsOver(env, chunks)) {
        ResumeExact(env, chunks, kills);
      }
    } else {
      var kills := KillThatShows(env, chunks);
    }
  }
}

/** The builder's loops and its file, held to what one run and its resumptions should write. */
module RerankBuilder {
  import opened RerankDataset
  import opened RerankResume
  import opened Seqs

  /** The normalised forms asked so far. */
  function Forms(normalise: string -> string, queries: seq<Query>): set<string> {
    set q | q in queries :: normalise(q.text)
  }

  lemma FormsOneMore(normalise: string -> string, queries: seq<Query>, i: nat)
    requires i < |queries|
    ensures Forms(normalise, queries[..i + 1]) == Forms(normalise, queries[..i]) + {normalise(queries[i].text)}
    ensures normalise(queries[i].text) in Forms(normalise, queries[..i])
      <==> Asked(normalise, queries[..i], queries[i].text)
  {
    TakeOneMore(queries, i);
  }

  lemma DedupeOneMore(normalise: string -> string, queries: seq<Query>, i: nat)
    requires i < |queries|
    ensures Dedupe(normalise, queries[..i + 1])
      == Dedupe(normalise, queries[..i]) + if Asked(normalise, queries[..i], queries[i].text) then [] else [queries[i]]
  {
    assert queries[..i + 1][..i] == queries[..i];
    hide Asked;
  }

  method DedupeQueries(normalise: string -> string, queries: seq<Query>) returns (kept: seq<Query>)
    ensures kept == Dedupe(normalise, queries)
  {
    var seen: set<string> := {};
    kept := [];
    var i := 0;
    while i < |queries|
      invariant 0 <= i <= |queries|
      invariant kept == Dedupe(normalise, queries[..i])
      invariant seen == Forms(normalise, queries[..i])
    {
      hide Dedupe, Asked, Forms;
      var norm := normalise(queries[i].text);
      FormsOneMore(normalise, queries, i);
      DedupeOneMore(normalise, queries, i);
      if norm !in seen {
        kept := kept + [queries[i]];
      }
      seen := seen + {norm};
      i := i + 1;
    }
    TakeAll(queries);
  }

  /** One query's candidates. */
  method Mine(query: Query, passages: seq<Passage>) returns (pairs: seq<Pair>)
    ensures pairs == Mined(query, passages)
  {
    pairs := [];
    var j := 0;
    while j < |passages|
      invariant 0 <= j <= |passages| && pairs == Mined(query, passages[..j])
    {
      pairs := pairs + [Pair(query.text, passages[j].chunkKey, passages[j].text, query.sourceKey)];
      j := j + 1;
    }
    assert passages[..j] == passages;
  }

  /** The closing leak check of the mining loop can never fail. */
  method BuildPairs(env: Env, queries: seq<Query>) returns (pairs: seq<Pair>)
    ensures pairs == Pairs(env, queries)
    ensures forall p :: p in pairs ==> env.normalise(p.query) !in Banned(env)
  {
    var banned := Banned(env);
    pairs := [];
    var i := 0;
    while i < |queries|
      invariant 0 <= i <= |queries|
      invariant pairs == Pairs(env, queries[..i])
      invariant forall p :: p in pairs ==> env.normalise(p.query) !in banned
    {
      var query := queries[i];
      assert queries[..i + 1][..i] == queries[..i];
      if env.normalise(query.text) !in banned {
        var mined := Mine(query, env.retrieve(query.text, env.k));
        pairs := pairs + mined;
      }
      i := i + 1;
    }
    assert queries[..i] == queries;
    var leaked := (set p | p in pairs :: env.normalise(p.query)) * banned;
    assert leaked == {};
  }

  method CompletedSourceKeys(lines: seq<Line>) returns (done: set<string>)
    ensures done == Done(lines)
  {
    done := {};
    var i := 0;
    while i < |lines|
      invariant 0 <= i <= |lines|
      invariant done == Done(lines[..i])
    {
      assert lines[..i + 1][..i] == lines[..i];
      if lines[i].Record? && lines[i].row.pair.sourceKey != "" {
        done := done + {lines[i].row.pair.sourceKey};
      }
      i := i + 1;
    }
    assert lines[..i] == lines;
  }

  class PairsFile {
    var present: bool
    var lines: seq<Line>

    ghost predicate Valid()
      reads this
    {
      !present ==> lines == []
    }

    constructor ()
      ensures Valid() && !present
    {
      present, lines := false, [];
    }

    /** Refuses, leaving the file alone, when scores and pairs do not match in number. */
    method AppendRows(pairs: seq<Pair>, scores: seq<real>) returns (accepted: bool)
      requires Valid()
      modifies this
      ensures Valid() && (accepted <==> |pairs| == |scores|)
      ensures !accepted || pairs == [] ==> lines == old(lines) && present == old(present)
      ensures accepted ==> lines == old(lines) + Lines(Zip(pairs, scores))
    {
      if |pairs| != |scores| { return false; }
      if pairs == [] { return true; }
      present := true;
      var i := 0;
      while i < |pairs|
        invariant 0 <= i <= |pairs| && present
        invariant lines == old(lines) + Lines(Zip(pairs[..i], scores[..i]))
      {
        assert Lines(Zip(pairs[..i + 1], scores[..i + 1]))
            == Lines(Zip(pairs[..i], scores[..i])) + [Record(Row(pairs[i], scores[i]))];
        lines := lines + [Record(Row(pairs[i], scores[i]))];
        i := i + 1;
      }
      assert pairs[..i] == pairs && scores[..i] == scores;
      return true;
    }

    /** One chunk; a scorer that miscounts leaves the file alone and stops the run. */
    method DoChunk(env: Env, c: Chunk) returns (newPairs: nat, accepted: bool)
      requires Valid()
      modifies this
      ensures Valid() && (accepted <==> Scored(env, c))
      ensures lines == old(lines) + Lines(ChunkRows(env, c))
      ensures newPairs == |ChunkRows(env, c)|
    {
      hide Pairs, Dedupe, Asking;
      newPairs, accepted := 0, true;
      var sourceKey := env.keyOf(c.id);
      if sourceKey.None? { return; }
      var queries := DedupeQueries(env.normalise, Asking(env.generate(c), sourceKey.value));
      var chunkPairs := BuildPairs(env, queries);
      assert chunkPairs == ChunkPairs(env, c);
      if chunkPairs == [] { return; }
      accepted := AppendRows(chunkPairs, env.score(chunkPairs));
      if accepted { newPairs := |chunkPairs|; }
    }

    /** Generate, mine, score and append chunk by chunk, until done, killed after `alive`
        chunks, or stopped. */
    method GenerateScoreFlush(env: Env, chunks: seq<Chunk>, alive: nat)
      returns (newPairs: nat, accepted: bool, ghost through: nat)
      requires Valid()
      modifies this
      ensures Valid() && Written(env, chunks, through, old(lines), lines, newPairs)
      ensures if accepted then chunks[..through] == Cut(chunks, alive)
              else through < |chunks| && through < alive && !Scored(env, chunks[through])
    {
      newPairs, accepted, through := 0, true, 0;
      NothingWritten(env, chunks, lines);
      hide *;
      var i := 0;
      while i < |chunks| && i < alive
        invariant through == i <= |chunks| && i <= alive && Valid() && accepted
        invariant Written(env, chunks, i, old(lines), lines, newPairs)
      {
        OneMoreWritten(env, chunks, i, old(lines), lines, newPairs);
        var more;
        more, accepted := DoChunk(env, chunks[i]);
        newPairs := newPairs + more;
        if !accepted { return; }
        i := i + 1;
        through := i;
      }
      AllCut(chunks, alive, i);
    }

    /** One session of the builder; a stopped one is like one killed where it stopped. */
    method Build(env: Env, chunks: seq<Chunk>, resume: bool, alive: nat)
      returns (accepted: bool, ghost through: nat)
      requires Valid()
      modifies this
      ensures Valid()
      ensures lines == Session(env, chunks, if resume then old(lines) else [], if accepted then alive else through)
      ensures !accepted ==> through < alive
    {
      if !resume && present {
        present, lines := false, [];
      }
      var done := {};
      if resume { done := CompletedSourceKeys(lines); }
      var pending := PendingChunks(env, chunks, done);
      var newPairs;
      newPairs, accepted, through := GenerateScoreFlush(env, pending, alive);
      hide PendingChunks, RowsOver, Done, Scored, Lines;
      assert pending[..through] == Cut(pending, if accepted then alive else through);
    }
  }

  /** What the first chunks, all scored, leave in a file that held `start`. */
  ghost predicate Written(env: Env, chunks: seq<Chunk>, through: nat, start: seq<Line>, now: seq<Line>, newPairs: nat) {
    && through <= |chunks|
    && (forall j | 0 <= j < through :: Scored(env, chunks[j]))
    && now == start + Lines(RowsOver(env, chunks[..through]))
    && newPairs == |RowsOver(env, chunks[..through])|
  }

  lemma NothingWritten(env: Env, chunks: seq<Chunk>, start: seq<Line>)
    ensures Written(env, chunks, 0, start, start, 0)
  {
    TakeNone(chunks);
    NoChunksNoRows(env);
    NoLines();
    EmptyEnds(start);
  }

  lemma OneMoreWritten(env: Env, chunks: seq<Chunk>, i: nat, start: seq<Line>, now: seq<Line>, newPairs: nat)
    requires Written(env, chunks, i, start, now, newPairs) && i < |chunks|
    ensures Written(env, chunks, if Scored(env, chunks[i]) then i + 1 else i, start,
                    now + Lines(ChunkRows(env, chunks[i])), newPairs + |ChunkRows(env, chunks[i])|)
  {
    hide Lines, RowsOver, ChunkRows, Scored, ChunkPairs;
    if Scored(env, chunks[i]) {
      RowsSoFar(env, chunks, i);
      Assoc(start, Lines(RowsOver(env, chunks[..i])), Lines(ChunkRows(env, chunks[i])));
    } else {
      NothingUnscored(env, chunks[i]);
      EmptyEnds(now);
    }
  }

  lemma NothingUnscored(env: Env, c: Chunk)
    requires !Scored(env, c)
    ensures ChunkRows(env, c) == [] && Lines(ChunkRows(env, c)) == []
  {
  }

  lemma AllCut(chunks: seq<Chunk>, alive: nat, i: nat)
    requires i <= |chunks| && i <= alive && (i == |chunks| || i == alive)
    ensures chunks[..i] == Cut(chunks, alive)
  {
  }

  lemma RowsSoFar(env: Env, chunks: seq<Chunk>, i: nat)
    requires i < |chunks|
    ensures RowsOver(env, chunks[..i + 1]) == RowsOver(env, chunks[..i]) + ChunkRows(env, chunks[i])
    ensures Lines(RowsOver(env, chunks[..i + 1])) == Lines(RowsOver(env, chunks[..i])) + Lines(ChunkRows(env, chunks[i]))
  {
    hide *;
    TakeOneMore(chunks, i);
    RowsSnoc(env, chunks[..i], chunks[i]);
    LinesAppend(RowsOver(env, chunks[..i]), ChunkRows(env, chunks[i]));
  }
}

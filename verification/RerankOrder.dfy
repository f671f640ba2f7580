/** The production reranker: batched scores, one order, a cut. */
module RerankOrder {
  import opened Seqs

  datatype Hit = Hit(key: string, text: string)

  // ------------------------------------------------------------------- the order

  /** Better score first; of equal scores the earlier. */
  predicate Before(scores: seq<real>, i: nat, j: nat) {
    i < |scores| && j < |scores| && (scores[i] > scores[j] || (scores[i] == scores[j] && i < j))
  }

  ghost predicate Indices(order: seq<nat>, n: nat) {
    forall i :: i in order <==> 0 <= i < n
  }

  ghost predicate Ordered(scores: seq<real>, order: seq<nat>) {
    forall a, b | 0 <= a < b < |order| :: Before(scores, order[a], order[b])
  }

  /** Every index, each once, each before those after it. */
  ghost predicate IsRanking(scores: seq<real>, order: seq<nat>) {
    Indices(order, |scores|) && Ordered(scores, order)
  }

  predicate Under(order: seq<nat>, n: nat) {
    forall k | 0 <= k < |order| :: order[k] < n
  }

  /** Puts index n, whose equals all come earlier, into a ranking. */
  function Insert(scores: seq<real>, order: seq<nat>, n: nat): seq<nat>
  {
    if order == [] then [n]
    else
      var last := order[|order| - 1];
      if Before(scores, last, n) then order + [n] else Insert(scores, order[..|order| - 1], n) + [last]
  }

  function RankFirst(scores: seq<real>, n: nat): seq<nat> {
    if n == 0 then [] else Insert(scores, RankFirst(scores, n - 1), n - 1)
  }

  /** The result of sorting the indices by (score, -index), descending. */
  function Ranked(scores: seq<real>): seq<nat> {
    RankFirst(scores, |scores|)
  }

  lemma {:induction false} InsertKeeps(scores: seq<real>, order: seq<nat>, n: nat)
    ensures forall i :: i in Insert(scores, order, n) <==> i in order || i == n
  {
    if order != [] {
      var rest, last := order[..|order| - 1], order[|order| - 1];
      InsertKeeps(scores, rest, n);
      SplitLast(order);
      hide Before;
    }
  }

  lemma OrderedSnoc(scores: seq<real>, order: seq<nat>, n: nat)
    requires Ordered(scores, order) && forall k | 0 <= k < |order| :: Before(scores, order[k], n)
    ensures Ordered(scores, order + [n])
  {
  }

  lemma OrderedInit(scores: seq<real>, order: seq<nat>)
    requires Ordered(scores, order) && order != []
    ensures Ordered(scores, order[..|order| - 1])
    ensures forall k | 0 <= k < |order| - 1 :: Before(scores, order[k], order[|order| - 1])
  {
  }

  lemma BeforeChain(scores: seq<real>, i: nat, j: nat, k: nat)
    requires Before(scores, i, j) && Before(scores, j, k)
    ensures Before(scores, i, k)
  {
  }

  lemma {:induction false} InsertOrdered(scores: seq<real>, order: seq<nat>, n: nat)
    requires n < |scores| && Under(order, n) && Ordered(scores, order)
    ensures Ordered(scores, Insert(scores, order, n))
  {
    if order != [] {
      var rest, last := order[..|order| - 1], order[|order| - 1];
      OrderedInit(scores, order);
      if Before(scores, last, n) {
        forall k | 0 <= k < |order| ensures Before(scores, order[k], n) {
          if k < |rest| { BeforeChain(scores, order[k], last, n); }
        }
        OrderedSnoc(scores, order, n);
      } else {
        assert Before(scores, n, last);
        InsertOrdered(scores, rest, n);
        InsertKeeps(scores, rest, n);
        var inner := Insert(scores, rest, n);
        forall k | 0 <= k < |inner| ensures Before(scores, inner[k], last) {
          assert inner[k] in inner;
          if inner[k] != n {
            var m :| 0 <= m < |rest| && rest[m] == inner[k];
            assert Before(scores, order[m], last);
          }
        }
        hide Before, Ordered;
        OrderedSnoc(scores, inner, last);
      }
    }
  }

  lemma IndicesUnder(order: seq<nat>, n: nat)
    requires Indices(order, n)
    ensures Under(order, n)
  {
    forall k | 0 <= k < |order| ensures order[k] < n {
      assert order[k] in order;
    }
  }

  lemma {:induction false} RankFirstRanks(scores: seq<real>, n: nat)
    requires n <= |scores|
    ensures Indices(RankFirst(scores, n), n) && Ordered(scores, RankFirst(scores, n))
  {
    if n > 0 {
      hide Insert, Ordered, Before;
      RankFirstRanks(scores, n - 1);
      IndicesUnder(RankFirst(scores, n - 1), n - 1);
      var order := RankFirst(scores, n - 1);
      InsertKeeps(scores, order, n - 1);
      InsertOrdered(scores, order, n - 1);
      assert RankFirst(scores, n) == Insert(scores, order, n - 1);
      hide RankFirst;
    }
  }

  /** Main result: sorting gives a ranking, and there is no other. */
  lemma RankedIsTheRanking(scores: seq<real>, order: seq<nat>)
    ensures IsRanking(scores, Ranked(scores))
    ensures IsRanking(scores, order) ==> order == Ranked(scores)
  {
    RankFirstRanks(scores, |scores|);
    if IsRanking(scores, order) { OneRanking(scores, order, Ranked(scores)); }
  }

  /** Two strictly ordered lists of the same indices are the same list. */
  lemma {:induction false} OneRanking(scores: seq<real>, a: seq<nat>, b: seq<nat>)
    requires Ordered(scores, a) && Ordered(scores, b)
    requires forall i :: i in a <==> i in b
    requires forall i :: i in a ==> i < |scores|
    ensures a == b
  {
    if a == [] {
      if b != [] { FirstIsIn(b); }
    } else {
      assert a[0] in b;
      FirstsAgree(scores, a, b);
      RestsAgree(scores, a, b);
      OneRanking(scores, a[1..], b[1..]);
    }
  }

  lemma FirstIsIn(s: seq<nat>)
    requires s != []
    ensures s[0] in s
  {
  }

  lemma FirstsAgree(scores: seq<real>, a: seq<nat>, b: seq<nat>)
    requires Ordered(scores, a) && Ordered(scores, b) && a != [] && b != []
    requires forall i :: i in a <==> i in b
    ensures a[0] == b[0]
  {
    assert a[0] in b && b[0] in a;
    var i :| 0 <= i < |b| && b[i] == a[0];
    var j :| 0 <= j < |a| && a[j] == b[0];
    assert i > 0 ==> Before(scores, b[0], b[i]);
    assert j > 0 ==> Before(scores, a[0], a[j]);
  }

  lemma RestsAgree(scores: seq<real>, a: seq<nat>, b: seq<nat>)
    requires Ordered(scores, a) && Ordered(scores, b) && a != [] && b != [] && a[0] == b[0]
    requires forall i :: i in a <==> i in b
    ensures forall i :: i in a[1..] <==> i in b[1..]
    ensures Ordered(scores, a[1..]) && Ordered(scores, b[1..])
  {
    RestMembers(scores, a);
    RestMembers(scores, b);
    hide Before;
  }

  lemma RestMembers(scores: seq<real>, a: seq<nat>)
    requires Ordered(scores, a) && a != []
    ensures forall i :: i in a[1..] <==> i in a && i != a[0]
  {
    forall k | 0 < k < |a| ensures a[k] != a[0] {
      assert Before(scores, a[0], a[k]);
    }
    forall i ensures i in a[1..] <==> i in a && i != a[0] {
      if i in a && i != a[0] {
        var k :| 0 <= k < |a| && a[k] == i;
        assert a[1..][k - 1] == i;
      }
    }
  }

  /** There are as many places as indices. */
  lemma {:induction false} RankFirstLength(scores: seq<real>, n: nat)
    ensures |RankFirst(scores, n)| == n
  {
    if n > 0 {
      RankFirstLength(scores, n - 1);
      InsertLength(scores, RankFirst(scores, n - 1), n - 1);
    }
  }

  lemma {:induction false} InsertLength(scores: seq<real>, order: seq<nat>, n: nat)
    ensures |Insert(scores, order, n)| == |order| + 1
  {
    if order != [] { InsertLength(scores, order[..|order| - 1], n); }
  }

  // ------------------------------------------------------------------- the scores

  type Predict = (string, seq<string>) -> seq<real>

  /** The model scores each pair by itself. */
  ghost predicate PairWise(predict: Predict, f: (string, string) -> real) {
    forall query: string, texts: seq<string> :: predict(query, texts) == ScoresOf(f, query, texts)
  }

  function ScoresOf(f: (string, string) -> real, query: string, texts: seq<string>): (r: seq<real>)
    ensures |r| == |texts| && forall i | 0 <= i < |r| :: r[i] == f(query, texts[i])
  {
    seq(|texts|, i requires 0 <= i < |texts| => f(query, texts[i]))
  }

  function Texts(hits: seq<Hit>): (r: seq<string>)
    ensures |r| == |hits| && forall i | 0 <= i < |r| :: r[i] == hits[i].text
  {
    seq(|hits|, i requires 0 <= i < |hits| => hits[i].text)
  }

  /** The batches' answers end to end, whatever their number. */
  function Batched(predict: Predict, query: string, texts: seq<string>, batchSize: nat): seq<real>
    requires batchSize >= 1
  {
    if |texts| <= batchSize then if texts == [] then [] else predict(query, texts)
    else predict(query, texts[..batchSize]) + Batched(predict, query, texts[batchSize..], batchSize)
  }

  /** Missing scores count as 0.0, surplus ones are dropped. */
  function Padded(scores: seq<real>, n: nat): (r: seq<real>)
    ensures |r| == n
    ensures forall i | 0 <= i < n :: r[i] == if i < |scores| then scores[i] else 0.0
  {
    seq(n, i requires 0 <= i < n => if i < |scores| then scores[i] else 0.0)
  }

  /** A pair-wise model gives the same scores for every batch size. */
  lemma {:induction false} BatchesAgree(predict: Predict, f: (string, string) -> real, query: string, texts: seq<string>, batchSize: nat)
    requires batchSize >= 1 && PairWise(predict, f)
    ensures Batched(predict, query, texts, batchSize) == ScoresOf(f, query, texts)
    decreases |texts|
  {
    if |texts| > batchSize {
      BatchesAgree(predict, f, query, texts[batchSize..], batchSize);
    }
  }

  /** The items at the places an order names. */
  function Picked<T>(items: seq<T>, order: seq<nat>): (r: seq<T>)
    requires Under(order, |items|)
    ensures |r| == |order| && forall i | 0 <= i < |r| :: r[i] == items[order[i]]
  {
    seq(|order|, i requires 0 <= i < |order| => items[order[i]])
  }

  function Limit(topK: int, n: nat): int {
    var least := if topK < n then topK else n;
    if least > 1 then least else 1
  }

  lemma RankedFits(scores: seq<real>)
    ensures Under(Ranked(scores), |scores|) && |Ranked(scores)| == |scores|
  {
    RankFirstRanks(scores, |scores|);
    RankFirstLength(scores, |scores|);
    IndicesUnder(Ranked(scores), |scores|);
  }

  /** What reranking gives, score and order. */
  function Reranked(scores: seq<real>, hits: seq<Hit>, topK: int): seq<Hit>
    requires |scores| == |hits|
  {
    RankedFits(scores);
    if hits == [] then [] else Picked(hits, Ranked(scores))[..Limit(topK, |hits|)]
  }

  /** The first hits by score, of equal scores the earlier: as many as asked for, at least one
      and at most all. */
  lemma RerankedAre(scores: seq<real>, hits: seq<Hit>, topK: int, order: seq<nat>)
    requires |scores| == |hits| && IsRanking(scores, order)
    ensures |Reranked(scores, hits, topK)|
      == if |hits| == 0 then 0 else if topK <= 1 then 1 else if topK <= |hits| then topK else |hits|
    ensures forall i | 0 <= i < |Reranked(scores, hits, topK)| ::
      i < |order| && order[i] < |hits| && Reranked(scores, hits, topK)[i] == hits[order[i]]
  {
    RankedIsTheRanking(scores, order);
    RankedFits(scores);
  }

  /** Better scores first, and equal ones in the order they came in. */
  lemma BetterFirst(scores: seq<real>, a: nat, b: nat)
    requires a < b < |scores|
    ensures |Ranked(scores)| == |scores|
    ensures var i, j := Ranked(scores)[a], Ranked(scores)[b];
      i < |scores| && j < |scores| && scores[i] >= scores[j] && (scores[i] == scores[j] ==> i < j)
  {
    RankedIsTheRanking(scores, Ranked(scores));
    RankedFits(scores);
    assert Before(scores, Ranked(scores)[a], Ranked(scores)[b]);
  }

  function InPlace(n: nat): (r: seq<nat>)
    ensures |r| == n && forall i | 0 <= i < n :: r[i] == i
  {
    seq(n, i requires 0 <= i < n => i)
  }

  lemma EqualScoresRank(scores: seq<real>)
    requires forall i | 0 <= i < |scores| :: scores[i] == scores[0]
    ensures IsRanking(scores, InPlace(|scores|))
  {
    var order := InPlace(|scores|);
    hide InPlace;
    forall i ensures i in order <==> 0 <= i < |scores| {
      if 0 <= i < |scores| { assert order[i] == i; }
    }
  }

  /** So when the scores tell no hits apart, reranking only cuts. */
  lemma EqualScoresKeepOrder(scores: seq<real>, hits: seq<Hit>, topK: int)
    requires |scores| == |hits| > 0 && forall i | 0 <= i < |scores| :: scores[i] == scores[0]
    ensures Reranked(scores, hits, topK) == hits[..Limit(topK, |hits|)]
  {
    EqualScoresRank(scores);
    RerankedAre(scores, hits, topK, InPlace(|scores|));
    hide Reranked, IsRanking, InPlace;
  }

  /** A hit the model left without a score stands behind those scored 0.0 or better and before
      those scored worse. */
  lemma UnscoredRank(scores: seq<real>, n: nat, i: nat, j: nat)
    requires j < |scores| <= i < n
    ensures scores[j] >= 0.0 ==> Before(Padded(scores, n), j, i)
    ensures scores[j] < 0.0 ==> Before(Padded(scores, n), i, j)
  {
  }

  class CrossEncoderReranker {
    const predict: Predict
    const batchSize: nat

    constructor (predict: Predict, batchSize: int)
      ensures this.predict == predict && this.batchSize == (if batchSize > 1 then batchSize else 1)
    {
      this.predict := predict;
      this.batchSize := if batchSize > 1 then batchSize else 1;
    }

    method Rerank(query: string, hits: seq<Hit>, topK: int) returns (r: seq<Hit>)
      requires batchSize >= 1
      ensures r == Reranked(Padded(Batched(predict, query, Texts(hits), batchSize), |hits|), hits, topK)
    {
      if hits == [] { return []; }
      var limit := Limit(topK, |hits|);
      var texts := Texts(hits);
      var scores: seq<real> := [];
      var start := 0;
      while start < |texts|
        invariant 0 <= start
        invariant Batched(predict, query, texts, batchSize)
          == scores + if start < |texts| then Batched(predict, query, texts[start..], batchSize) else []
      {
        var end := if start + batchSize < |texts| then start + batchSize else |texts|;
        var batchScores := predict(query, texts[start..end]);
        BatchedStep(predict, query, texts, batchSize, start);
        Assoc(scores, batchScores, if end < |texts| then Batched(predict, query, texts[end..], batchSize) else []);
        EmptyEnds(batchScores);
        scores := scores + batchScores;
        start := start + batchSize;
      }
      EmptyEnds(scores);
      scores := Padded(scores, |hits|);
      RankedFits(scores);
      r := Picked(hits, Ranked(scores))[..limit];
    }
  }

  lemma BatchedStep(predict: Predict, query: string, texts: seq<string>, batchSize: nat, start: nat)
    requires batchSize >= 1 && start < |texts|
    ensures var end := if start + batchSize < |texts| then start + batchSize else |texts|;
      Batched(predict, query, texts[start..], batchSize)
        == predict(query, texts[start..end])
         + if end < |texts| then Batched(predict, query, texts[end..], batchSize) else []
  {
    var rest := texts[start..];
    if start + batchSize < |texts| {
      assert rest[..batchSize] == texts[start..start + batchSize] && rest[batchSize..] == texts[start + batchSize..];
    } else {
      assert texts[start..|texts|] == rest;
      EmptyEnds(predict(query, rest));
    }
  }

  /** Conditional reranking: without a reranker the base order is only cut. */
  method ApplyRerank(query: string, hits: seq<Hit>, topK: int, enabled: bool, reranker: CrossEncoderReranker?)
    returns (r: seq<Hit>)
    requires reranker != null ==> reranker.batchSize >= 1
    ensures hits == [] ==> r == []
    ensures hits != [] && enabled && reranker != null ==>
      r == Reranked(Padded(Batched(reranker.predict, query, Texts(hits), reranker.batchSize), |hits|), hits,
                    if topK > 0 then topK else |hits|)
    ensures !(enabled && reranker != null) ==> r == hits[..if topK > 0 && topK < |hits| then topK else |hits|]
  {
    if hits == [] { return []; }
    var limit := if topK > 0 then topK else |hits|;
    if enabled && reranker != null {
      r := reranker.Rerank(query, hits, limit);
      return;
    }
    limit := Limit(limit, |hits|);
    return hits[..limit];
  }
}

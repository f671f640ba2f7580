/** The offline sweep over numbers of candidates, against the production reranker. */
module CandidateSweep {
  import opened Seqs
  import opened RerankOrder
  import opened RetrievalMetrics

  datatype Kind = HitAt | RecallAt | MrrAt

  datatype Metric = Metric(kind: Kind, k: int)

  type MetricRow = map<Metric, real>

  datatype Item = Item(relevant: set<string>, shortlist: seq<string>, teacherScores: seq<real>)

  datatype Quality = Quality(base: MetricRow, teacher: MetricRow)

  function Value(relevant: set<string>, retrieved: seq<string>, m: Metric): real {
    match m.kind
    case HitAt => HitAtK(relevant, retrieved, m.k)
    case RecallAt => RecallAtK(relevant, retrieved, m.k)
    case MrrAt => MrrAtK(relevant, retrieved, m.k)
  }

  predicate Listed(ks: seq<int>, m: Metric) {
    m.k in ks
  }

  /** One question's metrics. */
  ghost predicate IsRow(relevant: set<string>, retrieved: seq<string>, ks: seq<int>, row: MetricRow) {
    && (forall m :: m in row <==> Listed(ks, m))
    && forall m :: m in row ==> row[m] == Value(relevant, retrieved, m)
  }

  method ScoreItem(relevant: set<string>, retrieved: seq<string>, ks: seq<int>) returns (row: MetricRow)
    ensures IsRow(relevant, retrieved, ks, row)
  {
    row := map[];
    var i := 0;
    while i < |ks|
      invariant 0 <= i <= |ks| && IsRow(relevant, retrieved, ks[..i], row)
    {
      var k := ks[i];
      row := row[Metric(HitAt, k) := HitAtK(relevant, retrieved, k)];
      row := row[Metric(RecallAt, k) := RecallAtK(relevant, retrieved, k)];
      var mrr := ScanMrr(relevant, retrieved, k);
      row := row[Metric(MrrAt, k) := mrr];
      forall m ensures Listed(ks[..i + 1], m) <==> Listed(ks[..i], m) || m in {Metric(HitAt, k), Metric(RecallAt, k), Metric(MrrAt, k)} {
        TakeOneMore(ks, i);
        if m.k == k { KindCases(m); }
      }
      i := i + 1;
    }
    TakeAll(ks);
  }

  lemma KindCases(m: Metric)
    ensures m in {Metric(HitAt, m.k), Metric(RecallAt, m.k), Metric(MrrAt, m.k)}
  {
    match m.kind
    case HitAt => assert m == Metric(HitAt, m.k);
    case RecallAt => assert m == Metric(RecallAt, m.k);
    case MrrAt => assert m == Metric(MrrAt, m.k);
  }

  function Sum(rows: seq<MetricRow>, m: Metric): real
    requires forall i | 0 <= i < |rows| :: m in rows[i]
  {
    if rows == [] then 0.0 else Sum(rows[..|rows| - 1], m) + rows[|rows| - 1][m]
  }

  /** All rows hold the same metrics. */
  predicate Alike(rows: seq<MetricRow>) {
    forall i | 0 <= i < |rows| :: rows[i].Keys == rows[0].Keys
  }

  function Aggregate(rows: seq<MetricRow>): MetricRow
    requires Alike(rows)
  {
    if rows == [] then map[] else map m | m in rows[0] :: Sum(rows, m) / |rows| as real
  }

  // ------------------------------------------------------------------ reconstruction

  function BaseTopK(shortlist: seq<string>, k: int): seq<string> {
    TakeUpTo(shortlist, if k > 0 then k else 0)
  }

  function ScoresUpTo(scores: seq<real>, k: int): seq<real> {
    if 0 <= k < |scores| then scores[..k] else if k < 0 then [] else scores
  }

  function RerankTopK(shortlist: seq<string>, scores: seq<real>, k: int): seq<string>
    requires |shortlist| == |scores|
  {
    RankedFits(ScoresUpTo(scores, k));
    Picked(BaseTopK(shortlist, k), Ranked(ScoresUpTo(scores, k)))
  }

  function HitKeys(hits: seq<Hit>): (r: seq<string>)
    ensures |r| == |hits| && forall i | 0 <= i < |r| :: r[i] == hits[i].key
  {
    seq(|hits|, i requires 0 <= i < |hits| => hits[i].key)
  }

  /** Main result: fed the model's scores of all hits, the reconstruction for k candidates
      gives the order the production reranker gives on the first k hits, whatever its
      batch size. */
  lemma SweepMatchesProduction(predict: Predict, f: (string, string) -> real, query: string, hits: seq<Hit>, k: nat,
                               batchSize: nat)
    requires PairWise(predict, f) && batchSize >= 1
    ensures var first := if k < |hits| then hits[..k] else hits;
      HitKeys(Reranked(Padded(Batched(predict, query, Texts(first), batchSize), |first|), first, |first|))
        == RerankTopK(HitKeys(hits), ScoresOf(f, query, Texts(hits)), k)
  {
    var first := if k < |hits| then hits[..k] else hits;
    BatchesAgree(predict, f, query, Texts(first), batchSize);
    var scores := ScoresOf(f, query, Texts(first));
    assert Padded(scores, |first|) == scores;
    assert scores == ScoresUpTo(ScoresOf(f, query, Texts(hits)), k);
    assert HitKeys(first) == BaseTopK(HitKeys(hits), k);
    RankedFits(scores);
    hide Batched, Ranked, PairWise;
    if first != [] {
      var picked := Picked(first, Ranked(scores));
      assert picked[..|first|] == picked;
      assert Reranked(scores, first, |first|) == picked;
      assert HitKeys(picked) == Picked(HitKeys(first), Ranked(scores));
    }
  }

  /** A smaller top k only cuts the production order. */
  lemma ProductionCuts(scores: seq<real>, hits: seq<Hit>, topK: nat)
    requires |scores| == |hits| && 1 <= topK <= |hits|
    ensures |Reranked(scores, hits, |hits|)| == |hits|
    ensures Reranked(scores, hits, topK) == Reranked(scores, hits, |hits|)[..topK]
  {
    RankedFits(scores);
    var picked := Picked(hits, Ranked(scores));
    hide Ranked;
    assert picked[..|hits|] == picked;
  }

  // -------------------------------------------------------------------- equal metrics

  lemma SameKeys(shortlist: seq<string>, scores: seq<real>, k: int)
    requires |shortlist| == |scores|
    ensures |RerankTopK(shortlist, scores, k)| == |BaseTopK(shortlist, k)| <= (if k > 0 then k else 0)
    ensures forall x :: x in RerankTopK(shortlist, scores, k) <==> x in BaseTopK(shortlist, k)
  {
    var keys, s := BaseTopK(shortlist, k), ScoresUpTo(scores, k);
    RankedFits(s);
    RankFirstRanks(s, |s|);
    var order := Ranked(s);
    var reranked := RerankTopK(shortlist, scores, k);
    hide Ranked;
    forall x ensures x in reranked <==> x in keys {
      if x in reranked {
        var i :| 0 <= i < |reranked| && reranked[i] == x;
        assert x == keys[order[i]];
      }
      if x in keys {
        var j :| 0 <= j < |keys| && keys[j] == x;
        assert j in order;
        var i :| 0 <= i < |order| && order[i] == j;
        assert reranked[i] == x;
      }
    }
  }

  /** Reranking the candidates cannot change hit or recall at or beyond their number. */
  lemma SameHitAndRecall(relevant: set<string>, shortlist: seq<string>, scores: seq<real>, k: int, m: int)
    requires |shortlist| == |scores| && m >= k && m >= 0
    ensures HitAtK(relevant, RerankTopK(shortlist, scores, k), m) == HitAtK(relevant, BaseTopK(shortlist, k), m)
    ensures RecallAtK(relevant, RerankTopK(shortlist, scores, k), m) == RecallAtK(relevant, BaseTopK(shortlist, k), m)
  {
    SameKeys(shortlist, scores, k);
    OrderDoesNotMatter(relevant, RerankTopK(shortlist, scores, k), BaseTopK(shortlist, k), m);
  }

  // --------------------------------------------------------------------- averaging

  lemma {:induction false} SumsCompare(a: seq<MetricRow>, x: Metric, b: seq<MetricRow>, y: Metric, c: real)
    requires |a| == |b| && forall i | 0 <= i < |a| :: x in a[i] && y in b[i] && a[i][x] <= c * b[i][y]
    ensures Sum(a, x) <= c * Sum(b, y)
  {
    if a != [] {
      var n := |a| - 1;
      SumsCompare(a[..n], x, b[..n], y, c);
      assert a[n][x] <= c * b[n][y];
      Distribute(c, Sum(b[..n], y), b[n][y]);
    }
  }

  lemma Distribute(c: real, p: real, q: real)
    ensures c * (p + q) == c * p + c * q
  {
  }

  /** Main result: whatever holds of every row - a metric at most c times another - holds of
      the averages. */
  lemma AveragesCompare(a: seq<MetricRow>, x: Metric, b: seq<MetricRow>, y: Metric, c: real)
    requires |a| == |b| > 0 && Alike(a) && Alike(b)
    requires forall i | 0 <= i < |a| :: x in a[i] && y in b[i] && a[i][x] <= c * b[i][y]
    ensures x in Aggregate(a) && y in Aggregate(b) && Aggregate(a)[x] <= c * Aggregate(b)[y]
  {
    SumsCompare(a, x, b, y, c);
    assert x in a[0] && y in b[0];
    var n := |a| as real;
    DivideMonotone(Sum(a, x), c * Sum(b, y), n);
    DivideProduct(c, Sum(b, y), n);
  }

  lemma DivideProduct(c: real, p: real, n: real)
    requires n > 0.0
    ensures (c * p) / n == c * (p / n)
  {
    var q := p / n;
    assert q * n == p;
    assert (c * q) * n == c * p;
  }

  // ------------------------------------------------------------------------ sweep

  predicate WellFormed(item: Item) {
    |item.shortlist| == |item.teacherScores|
  }

  /** What is retrieved for an item with k candidates, reranked or not. */
  function Retrieved(item: Item, k: int, reranked: bool): seq<string>
    requires WellFormed(item)
  {
    if reranked then RerankTopK(item.shortlist, item.teacherScores, k) else BaseTopK(item.shortlist, k)
  }

  ghost predicate RowsFor(items: seq<Item>, k: int, ks: seq<int>, reranked: bool, rows: seq<MetricRow>) {
    |rows| == |items|
    && (forall i | 0 <= i < |items| :: WellFormed(items[i]))
    && forall i | 0 <= i < |items| :: IsRow(items[i].relevant, Retrieved(items[i], k, reranked), ks, rows[i])
  }

  /** A metric summed over the items. */
  function Total(items: seq<Item>, k: int, reranked: bool, x: Metric): real
    requires forall i | 0 <= i < |items| :: WellFormed(items[i])
  {
    if items == [] then 0.0
    else
      var n := |items| - 1;
      Total(items[..n], k, reranked, x) + Value(items[n].relevant, Retrieved(items[n], k, reranked), x)
  }

  /** The averages over the items of every metric asked for; nothing without items. */
  ghost predicate IsMean(items: seq<Item>, k: int, ks: seq<int>, reranked: bool, row: MetricRow)
    requires forall i | 0 <= i < |items| :: WellFormed(items[i])
  {
    && (forall x :: x in row <==> items != [] && Listed(ks, x))
    && forall x :: x in row ==> row[x] == Total(items, k, reranked, x) / |items| as real
  }

  /** Totals add up over the questions. */
  lemma {:induction false} TotalJoins(items: seq<Item>, more: seq<Item>, k: int, reranked: bool, x: Metric)
    requires forall i | 0 <= i < |items + more| :: WellFormed((items + more)[i])
    requires forall i | 0 <= i < |items| :: WellFormed(items[i])
    requires forall i | 0 <= i < |more| :: WellFormed(more[i])
    ensures Total(items + more, k, reranked, x) == Total(items, k, reranked, x) + Total(more, k, reranked, x)
  {
    hide Value, Retrieved, WellFormed;
    var n := |more| - 1;
    if more == [] {
      assert items + more == items;
    } else {
      assert (items + more)[..|items| + n] == items + more[..n];
      TotalJoins(items, more[..n], k, reranked, x);
    }
  }

  lemma {:induction false} TotalOfSame(items: seq<Item>, k: int, reranked: bool, x: Metric, value: real)
    requires forall i | 0 <= i < |items| :: WellFormed(items[i])
    requires forall i | 0 <= i < |items| :: Value(items[i].relevant, Retrieved(items[i], k, reranked), x) == value
    ensures Total(items, k, reranked, x) == |items| as real * value
  {
    hide Value, Retrieved, WellFormed;
    if items != [] {
      TotalOfSame(items[..|items| - 1], k, reranked, x, value);
    }
  }

  /** So each question counts once: when all have the same value, that is the average. */
  lemma MeanOfSame(items: seq<Item>, k: int, ks: seq<int>, reranked: bool, row: MetricRow, x: Metric, value: real)
    requires forall i | 0 <= i < |items| :: WellFormed(items[i])
    requires forall i | 0 <= i < |items| :: Value(items[i].relevant, Retrieved(items[i], k, reranked), x) == value
    requires IsMean(items, k, ks, reranked, row) && x in row
    ensures row[x] == value
  {
    hide Value, Retrieved, WellFormed, Total;
    TotalOfSame(items, k, reranked, x, value);
    Share(|items|, value);
  }

  lemma Share(n: nat, value: real)
    requires n > 0
    ensures n as real * value / n as real == value
  {
  }

  ghost predicate IsQuality(items: seq<Item>, k: int, ks: seq<int>, q: Quality)
    requires forall i | 0 <= i < |items| :: WellFormed(items[i])
  {
    IsMean(items, k, ks, false, q.base) && IsMean(items, k, ks, true, q.teacher)
  }

  lemma {:induction false} RowsSum(items: seq<Item>, k: int, ks: seq<int>, reranked: bool, rows: seq<MetricRow>, x: Metric)
    requires RowsFor(items, k, ks, reranked, rows) && Listed(ks, x)
    ensures forall i | 0 <= i < |rows| :: x in rows[i]
    ensures Sum(rows, x) == Total(items, k, reranked, x)
  {
    if items != [] {
      hide Retrieved, Value, Listed;
      RowsSum(items[..|items| - 1], k, ks, reranked, rows[..|rows| - 1], x);
    }
  }

  lemma AggregateIsMean(items: seq<Item>, k: int, ks: seq<int>, reranked: bool, rows: seq<MetricRow>)
    requires RowsFor(items, k, ks, reranked, rows) && Alike(rows)
    ensures IsMean(items, k, ks, reranked, Aggregate(rows))
  {
    if items != [] {
      assert IsRow(items[0].relevant, Retrieved(items[0], k, reranked), ks, rows[0]);
      forall x | x in rows[0] ensures Sum(rows, x) == Total(items, k, reranked, x) {
        hide Retrieved, Value, Aggregate, Alike;
        RowsSum(items, k, ks, reranked, rows, x);
      }
      hide Retrieved, Value, Listed, Total, Sum;
    }
  }

  lemma RowsAlike(ks: seq<int>, rows: seq<MetricRow>)
    requires forall i | 0 <= i < |rows| :: forall m :: m in rows[i] <==> Listed(ks, m)
    ensures Alike(rows)
  {
    forall i | 0 <= i < |rows| ensures rows[i].Keys == rows[0].Keys {
      forall m ensures m in rows[i].Keys <==> m in rows[0].Keys {}
    }
  }

  lemma MoreRows(items: seq<Item>, i: nat, k: int, ks: seq<int>, reranked: bool, rows: seq<MetricRow>, row: MetricRow)
    requires i < |items| && WellFormed(items[i]) && RowsFor(items[..i], k, ks, reranked, rows)
    requires IsRow(items[i].relevant, Retrieved(items[i], k, reranked), ks, row)
    ensures RowsFor(items[..i + 1], k, ks, reranked, rows + [row])
  {
    hide IsRow, Retrieved;
  }

  /** A row's metrics at a cut: recall is at most hit; reciprocal rank is between a k-th of
      hit and hit. */
  ghost predicate Bounded(row: MetricRow, m: int) {
    && Metric(HitAt, m) in row && Metric(RecallAt, m) in row && Metric(MrrAt, m) in row
    && row[Metric(RecallAt, m)] <= row[Metric(HitAt, m)]
    && row[Metric(MrrAt, m)] <= row[Metric(HitAt, m)]
    && (m >= 1 ==> row[Metric(HitAt, m)] <= m as real * row[Metric(MrrAt, m)])
  }

  ghost predicate SameAt(a: MetricRow, b: MetricRow, m: int) {
    && Metric(HitAt, m) in a && Metric(HitAt, m) in b && a[Metric(HitAt, m)] == b[Metric(HitAt, m)]
    && Metric(RecallAt, m) in a && Metric(RecallAt, m) in b && a[Metric(RecallAt, m)] == b[Metric(RecallAt, m)]
  }

  /** What the sweep reports for one number of candidates at one cut. */
  ghost predicate HonestAt(k: int, m: int, base: MetricRow, teacher: MetricRow) {
    Bounded(base, m) && Bounded(teacher, m) && (m >= k && m >= 0 ==> SameAt(base, teacher, m))
  }

  ghost predicate Honest(items: seq<Item>, k: int, ks: seq<int>, q: Quality) {
    items != [] ==> forall m: int | m in ks :: HonestAt(k, m, q.base, q.teacher)
  }

  lemma ValuesBounded(relevant: set<string>, retrieved: seq<string>, m: int)
    ensures RecallAtK(relevant, retrieved, m) <= HitAtK(relevant, retrieved, m)
    ensures MrrAtK(relevant, retrieved, m) <= HitAtK(relevant, retrieved, m)
    ensures m >= 1 ==> HitAtK(relevant, retrieved, m) <= m as real * MrrAtK(relevant, retrieved, m)
  {
    hide *;
    RecallAtMostHit(relevant, retrieved, m);
    if m >= 1 {
      MrrWithinHit(relevant, retrieved, m);
      QuotientBound(HitAtK(relevant, retrieved, m), MrrAtK(relevant, retrieved, m), m as real);
    } else {
      NoRank(relevant, retrieved, m);
    }
  }

  lemma NoRank(relevant: set<string>, retrieved: seq<string>, m: int)
    requires m <= 0
    ensures MrrAtK(relevant, retrieved, m) == 0.0
  {
  }

  lemma QuotientBound(x: real, y: real, c: real)
    requires c > 0.0 && x / c <= y
    ensures x <= c * y
  {
    TimesQuotient(x, c);
    LessTimes(x / c, y, c);
  }

  lemma RowBounded(relevant: set<string>, retrieved: seq<string>, ks: seq<int>, row: MetricRow, m: int)
    requires IsRow(relevant, retrieved, ks, row) && m in ks
    ensures Bounded(row, m)
  {
    hide HitAtK, RecallAtK, MrrAtK;
    assert Listed(ks, Metric(HitAt, m)) && Listed(ks, Metric(RecallAt, m)) && Listed(ks, Metric(MrrAt, m));
    assert row[Metric(HitAt, m)] == HitAtK(relevant, retrieved, m);
    assert row[Metric(RecallAt, m)] == RecallAtK(relevant, retrieved, m);
    assert row[Metric(MrrAt, m)] == MrrAtK(relevant, retrieved, m);
    ValuesBounded(relevant, retrieved, m);
  }

  lemma TimesQuotient(x: real, c: real)
    requires c > 0.0
    ensures c * (x / c) == x
  {
  }

  lemma LessTimes(x: real, y: real, c: real)
    requires x <= y && c >= 0.0
    ensures c * x <= c * y
  {
    assert c * (y - x) >= 0.0;
  }

  /** Averages of bounded rows are bounded. */
  lemma AggregateBounded(rows: seq<MetricRow>, m: int)
    requires rows != [] && Alike(rows)
    requires forall i | 0 <= i < |rows| :: Bounded(rows[i], m)
    ensures Bounded(Aggregate(rows), m)
  {
    AveragesCompare(rows, Metric(RecallAt, m), rows, Metric(HitAt, m), 1.0);
    AveragesCompare(rows, Metric(MrrAt, m), rows, Metric(HitAt, m), 1.0);
    if m >= 1 { AveragesCompare(rows, Metric(HitAt, m), rows, Metric(MrrAt, m), m as real); }
  }

  lemma AggregateSame(a: seq<MetricRow>, b: seq<MetricRow>, x: Metric)
    requires |a| == |b| > 0 && Alike(a) && Alike(b)
    requires forall i | 0 <= i < |a| :: x in a[i] && x in b[i] && a[i][x] == b[i][x]
    ensures x in Aggregate(a) && x in Aggregate(b) && Aggregate(a)[x] == Aggregate(b)[x]
  {
    AveragesCompare(a, x, b, x, 1.0);
    AveragesCompare(b, x, a, x, 1.0);
  }

  lemma AggregateHonest(k: int, m: int, base: seq<MetricRow>, teacher: seq<MetricRow>)
    requires |base| == |teacher| > 0 && Alike(base) && Alike(teacher)
    requires forall i | 0 <= i < |base| :: HonestAt(k, m, base[i], teacher[i])
    ensures HonestAt(k, m, Aggregate(base), Aggregate(teacher))
  {
    hide Aggregate, Alike;
    AggregateBounded(base, m);
    AggregateBounded(teacher, m);
    if m >= k && m >= 0 {
      AggregateSame(base, teacher, Metric(HitAt, m));
      AggregateSame(base, teacher, Metric(RecallAt, m));
    }
  }

  lemma RowHonest(item: Item, k: int, ks: seq<int>, m: int, base: MetricRow, teacher: MetricRow)
    requires WellFormed(item) && m in ks
    requires IsRow(item.relevant, BaseTopK(item.shortlist, k), ks, base)
    requires IsRow(item.relevant, RerankTopK(item.shortlist, item.teacherScores, k), ks, teacher)
    ensures HonestAt(k, m, base, teacher)
  {
    hide HitAtK, RecallAtK, MrrAtK, BaseTopK, RerankTopK, Bounded;
    RowBounded(item.relevant, BaseTopK(item.shortlist, k), ks, base, m);
    RowBounded(item.relevant, RerankTopK(item.shortlist, item.teacherScores, k), ks, teacher, m);
    if m >= k && m >= 0 {
      SameHitAndRecall(item.relevant, item.shortlist, item.teacherScores, k, m);
      assert Listed(ks, Metric(HitAt, m)) && Listed(ks, Metric(RecallAt, m));
    }
  }

  /** Main result: through the averages, base and reranked hit and recall agree at every cut
      not below the number of candidates, and the bounds between metrics hold. */
  lemma SweepHonest(items: seq<Item>, k: int, ks: seq<int>, base: seq<MetricRow>, teacher: seq<MetricRow>)
    requires RowsFor(items, k, ks, false, base) && RowsFor(items, k, ks, true, teacher) && Alike(base) && Alike(teacher)
    ensures Honest(items, k, ks, Quality(Aggregate(base), Aggregate(teacher)))
  {
    if items != [] {
      hide Aggregate, IsRow, Alike, HonestAt, BaseTopK, RerankTopK;
      forall m: int | m in ks ensures HonestAt(k, m, Aggregate(base), Aggregate(teacher)) {
        forall i | 0 <= i < |items| ensures HonestAt(k, m, base[i], teacher[i]) {
          assert WellFormed(items[i]);
          RowHonest(items[i], k, ks, m, base[i], teacher[i]);
        }
        AggregateHonest(k, m, base, teacher);
      }
    }
  }

  /** One number of candidates. */
  method SweepOne(items: seq<Item>, k: int, ks: seq<int>) returns (q: Quality)
    requires forall i | 0 <= i < |items| :: WellFormed(items[i])
    ensures IsQuality(items, k, ks, q) && Honest(items, k, ks, q)
  {
    var bases: seq<MetricRow>, teachers: seq<MetricRow> := [], [];
    var i := 0;
    while i < |items|
      invariant 0 <= i <= |items|
      invariant RowsFor(items[..i], k, ks, false, bases) && RowsFor(items[..i], k, ks, true, teachers)
    {
      var it := items[i];
      var base := ScoreItem(it.relevant, BaseTopK(it.shortlist, k), ks);
      MoreRows(items, i, k, ks, false, bases, base);
      var teacher := ScoreItem(it.relevant, RerankTopK(it.shortlist, it.teacherScores, k), ks);
      MoreRows(items, i, k, ks, true, teachers, teacher);
      hide *;
      bases := bases + [base];
      teachers := teachers + [teacher];
      i := i + 1;
    }
    TakeAll(items);
    RowsAlike(ks, bases);
    RowsAlike(ks, teachers);
    q := Quality(Aggregate(bases), Aggregate(teachers));
    hide RowsFor, Alike, Aggregate, IsMean, Honest;
    AggregateIsMean(items, k, ks, false, bases);
    AggregateIsMean(items, k, ks, true, teachers);
    SweepHonest(items, k, ks, bases, teachers);
  }

  method SweepQuality(items: seq<Item>, candidateKs: seq<int>, metricKs: seq<int>) returns (out: map<int, Quality>)
    requires forall i | 0 <= i < |items| :: WellFormed(items[i])
    ensures forall k :: k in out <==> k in candidateKs
    ensures forall k :: k in out ==> IsQuality(items, k, metricKs, out[k]) && Honest(items, k, metricKs, out[k])
  {
    hide IsQuality, Honest;
    out := map[];
    var i := 0;
    while i < |candidateKs|
      invariant 0 <= i <= |candidateKs|
      invariant forall k :: k in out <==> k in candidateKs[..i]
      invariant forall k :: k in out ==> IsQuality(items, k, metricKs, out[k]) && Honest(items, k, metricKs, out[k])
    {
      var k := candidateKs[i];
      var q := SweepOne(items, k, metricKs);
      out := out[k := q];
      TakeOneMore(candidateKs, i);
      i := i + 1;
    }
    TakeAll(candidateKs);
  }
}

/** Over-fetch then post-filter, against the exact filtered answer. */
module FaissSearch {
  import opened Options
  import opened FaissModel

  /** A row the index proposes; a negative row pads a short answer. */
  datatype Candidate = Candidate(row: int, score: real)

  datatype Hit = Hit(id: string, payload: Payload, score: real)

  const NO_PAYLOAD: Payload := Payload("", "", "", None, Meta("", "", "", None))

  function PayloadOf(s: Store, id: string): Payload {
    if id in s.payloads.items then s.payloads.items[id] else NO_PAYLOAD
  }

  predicate Accepts(s: Store, f: Filters, c: Candidate) {
    0 <= c.row < |s.ordered| && Passes(f, PayloadOf(s, s.ordered[c.row]))
  }

  function HitOf(s: Store, c: Candidate): Hit
    requires 0 <= c.row < |s.ordered|
  {
    Hit(s.ordered[c.row], PayloadOf(s, s.ordered[c.row]), c.score)
  }

  /** The accepted candidates, in order. */
  function Matches(s: Store, f: Filters, candidates: seq<Candidate>): (r: seq<Hit>)
    ensures |r| <= |candidates|
  {
    if candidates == [] then []
    else
      var last := candidates[|candidates| - 1];
      Matches(s, f, candidates[..|candidates| - 1]) + if Accepts(s, f, last) then [HitOf(s, last)] else []
  }

  function CandidateLimit(topK: int): int {
    if topK * 20 > topK then topK * 20 else topK
  }

  /** What the index returns for a limit: its best rows, padded when there are fewer. */
  function Fetched(ranking: seq<Candidate>, limit: nat): (r: seq<Candidate>)
    ensures |r| == limit
  {
    if limit <= |ranking| then ranking[..limit]
    else ranking + seq(limit - |ranking|, _ => Candidate(-1, 0.0))
  }

  function Take(hits: seq<Hit>, n: nat): seq<Hit> {
    if n <= |hits| then hits[..n] else hits
  }

  function Answer(s: Store, f: Filters, topK: int, ranking: seq<Candidate>): seq<Hit> {
    if topK <= 0 then [] else Take(Matches(s, f, Fetched(ranking, CandidateLimit(topK))), topK)
  }

  /** Every index row is ranked once, with its score, best first. */
  ghost predicate Ranks(score: Vec -> real, rows: seq<Vec>, ranking: seq<Candidate>) {
    && |ranking| == |rows|
    && (forall i | 0 <= i < |ranking| ::
          0 <= ranking[i].row < |rows| && ranking[i].score == score(rows[ranking[i].row]))
    && (forall i, j | 0 <= i < j < |ranking| ::
          ranking[i].row != ranking[j].row && ranking[i].score >= ranking[j].score)
  }

  // ------------------------------------------------------------------- matching

  lemma {:induction false} MatchesAppend(s: Store, f: Filters, xs: seq<Candidate>, ys: seq<Candidate>)
    ensures Matches(s, f, xs + ys) == Matches(s, f, xs) + Matches(s, f, ys)
  {
    if ys == [] {
      assert xs + ys == xs;
    } else {
      MatchesAppend(s, f, xs, ys[..|ys| - 1]);
      assert (xs + ys)[..|xs + ys| - 1] == xs + ys[..|ys| - 1];
      assert (xs + ys)[|xs + ys| - 1] == ys[|ys| - 1];
    }
  }

  lemma {:induction false} PaddingMatchesNothing(s: Store, f: Filters, pad: seq<Candidate>)
    requires forall c :: c in pad ==> c.row < 0
    ensures Matches(s, f, pad) == []
  {
    if pad != [] { PaddingMatchesNothing(s, f, pad[..|pad| - 1]); }
  }

  lemma FetchedMatches(s: Store, f: Filters, ranking: seq<Candidate>, limit: nat)
    ensures limit >= |ranking| ==> Matches(s, f, Fetched(ranking, limit)) == Matches(s, f, ranking)
    ensures limit < |ranking| ==>
      Matches(s, f, ranking) == Matches(s, f, Fetched(ranking, limit)) + Matches(s, f, ranking[limit..])
  {
    if limit > |ranking| {
      var pad := seq(limit - |ranking|, _ => Candidate(-1, 0.0));
      MatchesAppend(s, f, ranking, pad);
      PaddingMatchesNothing(s, f, pad);
    } else if limit == |ranking| {
      assert ranking[..limit] == ranking;
    } else {
      MatchesAppend(s, f, ranking[..limit], ranking[limit..]);
      assert ranking[..limit] + ranking[limit..] == ranking;
    }
  }

  /** Beyond the candidate limit nothing passes the filters. */
  predicate NothingBeyond(s: Store, f: Filters, topK: nat, ranking: seq<Candidate>) {
    CandidateLimit(topK) < |ranking| ==> Matches(s, f, ranking[CandidateLimit(topK)..]) == []
  }

  predicate EnoughFetched(s: Store, f: Filters, topK: nat, ranking: seq<Candidate>) {
    |Matches(s, f, Fetched(ranking, CandidateLimit(topK)))| >= topK
  }

  predicate Suffices(s: Store, f: Filters, topK: nat, ranking: seq<Candidate>) {
    EnoughFetched(s, f, topK, ranking) || NothingBeyond(s, f, topK, ranking)
  }

  /** Main result: the answer is always a prefix of the exact filtered top k, and is all of it
      exactly when enough fetched candidates pass or no passing row lies beyond the limit. */
  lemma AnswerAgainstExact(s: Store, f: Filters, topK: nat, ranking: seq<Candidate>)
    ensures var exact := Take(Matches(s, f, ranking), topK);
      && Answer(s, f, topK, ranking) <= exact
      && (Answer(s, f, topK, ranking) == exact <==> Suffices(s, f, topK, ranking))
  {
    FetchedMatches(s, f, ranking, CandidateLimit(topK));
    hide Matches, Fetched, Passes, Take;
    var fetched := Matches(s, f, Fetched(ranking, CandidateLimit(topK)));
    var beyond :=
      if CandidateLimit(topK) < |ranking| then Matches(s, f, ranking[CandidateLimit(topK)..]) else [];
    assert Matches(s, f, ranking) == fetched + beyond;
    TakeLonger(fetched, beyond, topK);
    NoHits(fetched);
  }

  lemma NoHits(hits: seq<Hit>)
    ensures Take(hits, 0) == []
  {
  }

  lemma TakeLonger(xs: seq<Hit>, ys: seq<Hit>, n: nat)
    ensures Take(xs, n) <= Take(xs + ys, n)
    ensures Take(xs, n) == Take(xs + ys, n) <==> |xs| >= n || ys == []
  {
    if ys == [] { assert xs + ys == xs; }
  }

  /** With at most twenty rows per requested hit nothing is lost. */
  lemma SmallIndexExact(s: Store, f: Filters, topK: nat, ranking: seq<Candidate>)
    requires |ranking| <= 20 * topK
    ensures Answer(s, f, topK, ranking) == Take(Matches(s, f, ranking), topK)
  {
    AnswerAgainstExact(s, f, topK, ranking);
  }

  // ------------------------------------------------------------ what the hits are

  /** Hit h is row p of the ranking. */
  predicate HitAt(s: Store, f: Filters, ranking: seq<Candidate>, h: Hit, p: int) {
    0 <= p < |ranking| && Accepts(s, f, ranking[p]) && h == HitOf(s, ranking[p])
  }

  /** The places in the ranking of the matches, increasing. */
  lemma {:induction false} MatchPlaces(s: Store, f: Filters, ranking: seq<Candidate>) returns (places: seq<int>)
    ensures |places| == |Matches(s, f, ranking)|
    ensures forall i | 0 <= i < |places| :: HitAt(s, f, ranking, Matches(s, f, ranking)[i], places[i])
    ensures forall i, j | 0 <= i < j < |places| :: places[i] < places[j]
    ensures forall p | 0 <= p < |ranking| && Accepts(s, f, ranking[p]) :: p in places
  {
    places := [];
    if ranking != [] {
      var n := |ranking| - 1;
      places := MatchPlaces(s, f, ranking[..n]);
      hide Passes, PayloadOf;
      forall i | 0 <= i < |places| ensures HitAt(s, f, ranking, Matches(s, f, ranking[..n])[i], places[i]) {
        assert HitAt(s, f, ranking[..n], Matches(s, f, ranking[..n])[i], places[i]);
      }
      forall p | 0 <= p < n && Accepts(s, f, ranking[p]) ensures p in places {
        assert ranking[..n][p] == ranking[p];
      }
      if Accepts(s, f, ranking[n]) { places := places + [n]; }
    }
  }

  /** Every hit passes every filter under its own id, hits are of distinct documents and come
      best first, and no passing row scores above a hit unless it is a hit itself. */
  lemma ExactIsBest(s: Store, f: Filters, topK: nat, score: Vec -> real, rows: seq<Vec>, ranking: seq<Candidate>)
    requires Ranks(score, rows, ranking) && Distinct(s.ordered) && |rows| <= |s.ordered|
    ensures var exact := Take(Matches(s, f, ranking), topK);
      && (forall h | h in exact ::
            h.id in s.ordered && h.payload == PayloadOf(s, h.id) && Passes(f, h.payload))
      && (forall i, j | 0 <= i < j < |exact| :: exact[i].id != exact[j].id && exact[i].score >= exact[j].score)
      && forall p | 0 <= p < |ranking| && Accepts(s, f, ranking[p]) ::
           HitOf(s, ranking[p]) in exact
           || (|exact| == topK && forall h | h in exact :: h.score >= ranking[p].score)
  {
    var all := Matches(s, f, ranking);
    var places := MatchPlaces(s, f, ranking);
    hide Matches;
    var exact := Take(all, topK);
    HitsPass(s, f, ranking, exact, places);
    HitsOrdered(s, f, score, rows, ranking, exact, places);
    forall p | 0 <= p < |ranking| && Accepts(s, f, ranking[p])
      ensures HitOf(s, ranking[p]) in exact
           || (|exact| == topK && forall h | h in exact :: h.score >= ranking[p].score)
    {
      hide Accepts, HitOf;
      NoneBetter(s, f, score, rows, ranking, all, places, |exact|, p);
    }
  }

  ghost predicate Placed(s: Store, f: Filters, ranking: seq<Candidate>, hits: seq<Hit>, places: seq<int>) {
    |hits| <= |places|
    && (forall i | 0 <= i < |hits| :: HitAt(s, f, ranking, hits[i], places[i]))
    && forall i, j | 0 <= i < j < |places| :: places[i] < places[j]
  }

  lemma HitsPass(s: Store, f: Filters, ranking: seq<Candidate>, hits: seq<Hit>, places: seq<int>)
    requires Placed(s, f, ranking, hits, places)
    ensures forall h | h in hits :: h.id in s.ordered && h.payload == PayloadOf(s, h.id) && Passes(f, h.payload)
  {
    hide Passes, PayloadOf;
    forall h | h in hits ensures h.id in s.ordered && h.payload == PayloadOf(s, h.id) && Passes(f, h.payload) {
      var i :| 0 <= i < |hits| && hits[i] == h;
      assert HitAt(s, f, ranking, hits[i], places[i]);
    }
  }

  lemma HitsOrdered(s: Store, f: Filters, score: Vec -> real, rows: seq<Vec>, ranking: seq<Candidate>,
                    hits: seq<Hit>, places: seq<int>)
    requires Ranks(score, rows, ranking) && Distinct(s.ordered) && Placed(s, f, ranking, hits, places)
    ensures forall i, j | 0 <= i < j < |hits| :: hits[i].id != hits[j].id && hits[i].score >= hits[j].score
  {
    hide Passes, PayloadOf;
    forall i, j | 0 <= i < j < |hits| ensures hits[i].id != hits[j].id && hits[i].score >= hits[j].score {
      assert HitAt(s, f, ranking, hits[i], places[i]) && HitAt(s, f, ranking, hits[j], places[j]);
      assert ranking[places[i]].row != ranking[places[j]].row;
    }
  }

  lemma NoneBetter(s: Store, f: Filters, score: Vec -> real, rows: seq<Vec>, ranking: seq<Candidate>,
                   all: seq<Hit>, places: seq<int>, n: nat, p: nat)
    requires Ranks(score, rows, ranking) && Placed(s, f, ranking, all, places) && |all| == |places|
    requires p < |ranking| && Accepts(s, f, ranking[p]) && p in places && n <= |all|
    ensures HitOf(s, ranking[p]) in all[..n]
         || (n < |all| && forall h | h in all[..n] :: h.score >= ranking[p].score)
  {
    hide Passes, PayloadOf;
    var i :| 0 <= i < |places| && places[i] == p;
    assert HitAt(s, f, ranking, all[i], places[i]);
    if i < n {
      assert all[..n][i] == HitOf(s, ranking[p]);
    } else {
      forall h | h in all[..n] ensures h.score >= ranking[p].score {
        var k :| 0 <= k < n && all[..n][k] == h;
        assert HitAt(s, f, ranking, all[k], places[k]) && places[k] < places[i];
      }
    }
  }
}

/** What the metrics are worth, said of the retrieved list itself. */
module MetricValues {
  import opened RetrievalMetrics

  /** The key is among the first k retrieved. */
  predicate Among(retrieved: seq<string>, k: int, key: string) {
    exists i :: 0 <= i < |retrieved| && i < k && retrieved[i] == key
  }

  lemma AmongTaken(retrieved: seq<string>, k: nat, key: string)
    ensures Among(retrieved, k, key) <==> key in TakeUpTo(retrieved, k)
  {
    var top := TakeUpTo(retrieved, k);
    if i :| 0 <= i < |retrieved| && i < k && retrieved[i] == key { assert top[i] == key; }
    if key in top {
      var i :| 0 <= i < |top| && top[i] == key;
      assert retrieved[i] == key;
    }
  }

  /** Hit is 1 exactly when some relevant key is among the first k, and 0 otherwise. */
  lemma HitValue(relevant: set<string>, retrieved: seq<string>, k: int)
    ensures HitAtK(relevant, retrieved, k) == 1.0 <==> exists x :: x in relevant && Among(retrieved, k, x)
    ensures HitAtK(relevant, retrieved, k) == 0.0 || HitAtK(relevant, retrieved, k) == 1.0
  {
    if k > 0 {
      forall x ensures Among(retrieved, k, x) <==> x in TakeUpTo(retrieved, k) { AmongTaken(retrieved, k, x); }
    }
  }

  // ------------------------------------------------------------------------- recall

  /** The relevant keys among the first k. */
  function Found(relevant: set<string>, retrieved: seq<string>, k: int): set<string> {
    set x | x in relevant && Among(retrieved, k, x)
  }

  lemma Divide(a: real, b: real)
    requires b != 0.0
    ensures a / b * b == a
  {
  }

  lemma SumTimes(a: real, b: real, c: real)
    ensures (a + b) * c == a * c + b * c
  {
  }

  lemma FoundTaken(relevant: set<string>, retrieved: seq<string>, k: nat)
    ensures Found(relevant, retrieved, k) == relevant * Keys(TakeUpTo(retrieved, k))
  {
    forall x ensures Among(retrieved, k, x) <==> x in TakeUpTo(retrieved, k) { AmongTaken(retrieved, k, x); }
    hide Among, TakeUpTo;
  }

  /** Recall is the share of the relevant keys that were found. */
  lemma RecallValue(relevant: set<string>, retrieved: seq<string>, k: int)
    ensures RecallAtK(relevant, retrieved, k) * |relevant| as real == |Found(relevant, retrieved, k)| as real
  {
    if relevant == {} || k <= 0 {
      assert Found(relevant, retrieved, k) == {};
    } else {
      FoundTaken(relevant, retrieved, k);
      hide Found, TakeUpTo, Keys;
      Divide(|Found(relevant, retrieved, k)| as real, |relevant| as real);
    }
  }

  lemma Cancel(a: real, b: real, c: real)
    requires a * c == b * c && c != 0.0
    ensures a == b
  {
    SumTimes(a - b, b, c);
    assert (a - b) * c == 0.0;
  }

  lemma WholeSet(part: set<string>, whole: set<string>)
    requires part <= whole
    ensures |part| == |whole| <==> part == whole
  {
    assert whole == part + (whole - part);
  }

  /** It is 1 exactly when there are relevant keys and all of them were found. */
  lemma FullRecall(relevant: set<string>, retrieved: seq<string>, k: int)
    ensures RecallAtK(relevant, retrieved, k) == 1.0
      <==> relevant != {} && forall x :: x in relevant ==> Among(retrieved, k, x)
  {
    var found := Found(relevant, retrieved, k);
    RecallValue(relevant, retrieved, k);
    WholeSet(found, relevant);
    assert found == relevant <==> forall x :: x in relevant ==> Among(retrieved, k, x);
    if relevant == {} {
      assert RecallAtK(relevant, retrieved, k) == 0.0;
    } else if |found| == |relevant| {
      Cancel(RecallAtK(relevant, retrieved, k), 1.0, |relevant| as real);
    }
  }

  /** Recall times the number of relevant keys adds up over disjoint sets of them. */
  lemma RecallAdds(a: set<string>, b: set<string>, retrieved: seq<string>, k: int)
    requires a !! b
    ensures RecallAtK(a + b, retrieved, k) * |a + b| as real
      == RecallAtK(a, retrieved, k) * |a| as real + RecallAtK(b, retrieved, k) * |b| as real
  {
    RecallValue(a + b, retrieved, k);
    RecallValue(a, retrieved, k);
    RecallValue(b, retrieved, k);
    hide RecallAtK, Among;
    assert Found(a + b, retrieved, k) == Found(a, retrieved, k) + Found(b, retrieved, k);
  }

  /** Looking one further adds 1/|relevant| when that finds a new relevant key, and else nothing. */
  lemma RecallOneFurther(relevant: set<string>, retrieved: seq<string>, k: nat)
    requires relevant != {}
    ensures var finds := k < |retrieved| && retrieved[k] in relevant && !Among(retrieved, k, retrieved[k]);
      RecallAtK(relevant, retrieved, k + 1)
        == RecallAtK(relevant, retrieved, k) + if finds then 1.0 / |relevant| as real else 0.0
  {
    hide *;
    var n := |relevant| as real;
    var before, after := RecallAtK(relevant, retrieved, k), RecallAtK(relevant, retrieved, k + 1);
    RecallValue(relevant, retrieved, k);
    RecallValue(relevant, retrieved, k + 1);
    FoundOneFurther(relevant, retrieved, k);
    if k < |retrieved| && retrieved[k] in relevant && !Among(retrieved, k, retrieved[k]) {
      OneMoreShare(before, after, n, |Found(relevant, retrieved, k)| as real);
    } else {
      Cancel(after, before, n);
    }
  }

  lemma OneMoreShare(before: real, after: real, n: real, count: real)
    requires n != 0.0 && before * n == count && after * n == count + 1.0
    ensures after == before + 1.0 / n
  {
    var share := 1.0 / n;
    Divide(1.0, n);
    SumTimes(before, share, n);
    Cancel(after, before + share, n);
  }

  lemma FoundOneFurther(relevant: set<string>, retrieved: seq<string>, k: nat)
    ensures |Found(relevant, retrieved, k + 1)|
      == |Found(relevant, retrieved, k)|
       + if k < |retrieved| && retrieved[k] in relevant && !Among(retrieved, k, retrieved[k]) then 1 else 0
  {
    var near, far := Found(relevant, retrieved, k), Found(relevant, retrieved, k + 1);
    forall x ensures Among(retrieved, k + 1, x) <==> Among(retrieved, k, x) || (k < |retrieved| && retrieved[k] == x) {
      if k < |retrieved| && retrieved[k] == x { assert Among(retrieved, k + 1, x); }
    }
    hide Among;
    if k < |retrieved| && retrieved[k] in relevant {
      assert far == near + {retrieved[k]};
    } else {
      assert far == near;
    }
  }

  // ----------------------------------------------------------------- reciprocal rank

  /** The first relevant key stands at rank r, from 1, no further than k. */
  predicate FirstAt(relevant: set<string>, retrieved: seq<string>, k: int, r: int) {
    && 1 <= r <= |retrieved| && r <= k && retrieved[r - 1] in relevant
    && forall i :: 0 <= i < r - 1 ==> retrieved[i] !in relevant
  }

  lemma ReciprocalsDiffer(a: nat, b: nat)
    requires a >= 1 && b >= 1 && 1.0 / a as real == 1.0 / b as real
    ensures a == b
  {
    Divide(1.0, a as real);
    Divide(1.0, b as real);
    var x := 1.0 / a as real;
    assert x * a as real == x * b as real && x != 0.0;
    Cancel(a as real, b as real, x);
  }

  /** Reciprocal rank is 1/r exactly when the first relevant key among the first k has rank r,
      and 0 exactly when there is none. */
  lemma MrrValue(relevant: set<string>, retrieved: seq<string>, k: int, r: nat)
    requires r >= 1
    ensures MrrAtK(relevant, retrieved, k) == 1.0 / r as real <==> FirstAt(relevant, retrieved, k, r)
    ensures MrrAtK(relevant, retrieved, k) == 0.0 <==> forall x :: x in relevant ==> !Among(retrieved, k, x)
  {
    Divide(1.0, r as real);
    assert 1.0 / r as real != 0.0;
    if k > 0 && relevant != {} {
      var top := TakeUpTo(retrieved, k);
      var rank := FirstRank(relevant, top);
      RankIsFirst(relevant, retrieved, k);
      if rank > 0 {
        Divide(1.0, rank as real);
        assert 1.0 / rank as real != 0.0;
        if 1.0 / rank as real == 1.0 / r as real { ReciprocalsDiffer(rank, r); }
        if FirstAt(relevant, retrieved, k, r) { FirstIsOne(relevant, retrieved, k, rank, r); }
        assert Among(retrieved, k, retrieved[rank - 1]);
      } else if FirstAt(relevant, retrieved, k, r) {
        assert Among(retrieved, k, retrieved[r - 1]);
      }
    }
  }

  lemma FirstIsOne(relevant: set<string>, retrieved: seq<string>, k: int, r: nat, q: nat)
    requires FirstAt(relevant, retrieved, k, r) && FirstAt(relevant, retrieved, k, q)
    ensures r == q
  {
  }

  lemma RankIsFirst(relevant: set<string>, retrieved: seq<string>, k: nat)
    requires k > 0
    ensures var rank := FirstRank(relevant, TakeUpTo(retrieved, k));
      && (rank > 0 ==> FirstAt(relevant, retrieved, k, rank))
      && (rank == 0 ==> forall x :: x in relevant ==> !Among(retrieved, k, x))
  {
    var top := TakeUpTo(retrieved, k);
    var rank := FirstRank(relevant, top);
    if rank == 0 {
      forall x | x in relevant ensures !Among(retrieved, k, x) { AmongTaken(retrieved, k, x); }
    } else {
      assert forall i :: 0 <= i < |top| ==> top[i] == retrieved[i];
    }
  }
}

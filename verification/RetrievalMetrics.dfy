/** Hit, recall and reciprocal rank over the first k retrieved keys, and their averages. */
module RetrievalMetrics {

  function TakeUpTo(s: seq<string>, k: nat): seq<string> {
    if k < |s| then s[..k] else s
  }

  function Keys(s: seq<string>): set<string> {
    set x | x in s
  }

  predicate AnyIn(relevant: set<string>, s: seq<string>) {
    exists x :: x in s && x in relevant
  }

  function HitAtK(relevant: set<string>, retrieved: seq<string>, k: int): real {
    if k <= 0 || relevant == {} then 0.0
    else if AnyIn(relevant, TakeUpTo(retrieved, k)) then 1.0 else 0.0
  }

  function RecallAtK(relevant: set<string>, retrieved: seq<string>, k: int): real {
    if k <= 0 || relevant == {} then 0.0
    else |relevant * Keys(TakeUpTo(retrieved, k))| as real / |relevant| as real
  }

  /** The rank, from 1, of the first relevant key; 0 if there is none. */
  function FirstRank(relevant: set<string>, s: seq<string>): (r: nat)
    ensures r <= |s|
    ensures r == 0 <==> !AnyIn(relevant, s)
    ensures r > 0 ==> s[r - 1] in relevant && forall i | 0 <= i < r - 1 :: s[i] !in relevant
  {
    if s == [] then 0
    else if s[0] in relevant then 1
    else
      var rest := FirstRank(relevant, s[1..]);
      assert s == [s[0]] + s[1..];
      assert forall i | 0 < i < |s| :: s[i] == s[1..][i - 1];
      if rest == 0 then 0 else rest + 1
  }

  function MrrAtK(relevant: set<string>, retrieved: seq<string>, k: int): real {
    if k <= 0 || relevant == {} then 0.0
    else
      var rank := FirstRank(relevant, TakeUpTo(retrieved, k));
      if rank == 0 then 0.0 else 1.0 / rank as real
  }

  /** The early-return scan. */
  method ScanMrr(relevant: set<string>, retrieved: seq<string>, k: int) returns (r: real)
    ensures r == MrrAtK(relevant, retrieved, k)
  {
    if k <= 0 || relevant == {} { return 0.0; }
    var top := TakeUpTo(retrieved, k);
    var rank := 1;
    while rank <= |top|
      invariant 1 <= rank <= |top| + 1
      invariant forall i | 0 <= i < rank - 1 :: top[i] !in relevant
    {
      if top[rank - 1] in relevant {
        FoundFirst(relevant, top, rank);
        return 1.0 / rank as real;
      }
      rank := rank + 1;
    }
    return 0.0;
  }

  lemma FoundFirst(relevant: set<string>, s: seq<string>, rank: nat)
    requires 1 <= rank <= |s| && s[rank - 1] in relevant && forall i | 0 <= i < rank - 1 :: s[i] !in relevant
    ensures FirstRank(relevant, s) == rank
  {
    var r := FirstRank(relevant, s);
    assert s[rank - 1] in s;
    assert AnyIn(relevant, s);
  }

  // ------------------------------------------------------------------ inequalities

  lemma DivideMonotone(a: real, b: real, c: real)
    requires a <= b && c > 0.0
    ensures a / c <= b / c
  {
  }

  lemma Reciprocals(a: nat, b: nat)
    requires 1 <= a <= b
    ensures 0.0 < 1.0 / b as real <= 1.0 / a as real <= 1.0
  {
    var x, y := 1.0 / a as real, 1.0 / b as real;
    assert x * (a as real) == 1.0 && y * (b as real) == 1.0;
    if y > x { ProductGrows(x, y, a as real, b as real); }
    if x > 1.0 { ProductGrows(1.0, x, 1.0, a as real); }
  }

  lemma Positive(x: real, y: real)
    requires x > 0.0 && y > 0.0
    ensures x * y > 0.0
  {
  }

  lemma ProductGrows(x: real, y: real, a: real, b: real)
    requires 0.0 <= x < y && 0.0 < a <= b
    ensures x * a < y * b
  {
    Positive(y - x, a);
    assert x * a < y * a;
    if a < b { Positive(y, b - a); }
    assert y * a <= y * b;
  }

  lemma RatioAtMostOne(part: nat, whole: nat)
    requires part <= whole && whole > 0
    ensures 0.0 <= part as real / whole as real <= 1.0
    ensures part == 0 <==> part as real / whole as real == 0.0
  {
    DivideMonotone(part as real, whole as real, whole as real);
    if part > 0 { assert (part as real / whole as real) * whole as real == part as real; }
  }

  lemma SubsetSize(a: set<string>, b: set<string>)
    requires a <= b
    ensures |a| <= |b|
  {
    assert b == a + (b - a);
  }

  /** Recall never exceeds hit, and they vanish together. */
  lemma RecallAtMostHit(relevant: set<string>, retrieved: seq<string>, k: int)
    ensures 0.0 <= RecallAtK(relevant, retrieved, k) <= HitAtK(relevant, retrieved, k) <= 1.0
    ensures RecallAtK(relevant, retrieved, k) == 0.0 <==> HitAtK(relevant, retrieved, k) == 0.0
  {
    if k > 0 && relevant != {} {
      var found := relevant * Keys(TakeUpTo(retrieved, k));
      SubsetSize(found, relevant);
      RatioAtMostOne(|found|, |relevant|);
      if found == {} {
        forall x | x in TakeUpTo(retrieved, k) ensures x !in relevant {
          assert x in found <==> x in relevant;
        }
      } else {
        var x :| x in found;
        assert AnyIn(relevant, TakeUpTo(retrieved, k));
      }
    }
  }

  /** Reciprocal rank lies between a k-th of hit and hit. */
  lemma MrrWithinHit(relevant: set<string>, retrieved: seq<string>, k: nat)
    requires k >= 1
    ensures HitAtK(relevant, retrieved, k) / k as real <= MrrAtK(relevant, retrieved, k) <= HitAtK(relevant, retrieved, k)
  {
    if relevant != {} {
      var rank := FirstRank(relevant, TakeUpTo(retrieved, k));
      if rank > 0 { Reciprocals(rank, k); }
    }
  }

  /** Looking further never lowers a metric. */
  lemma MetricsMonotone(relevant: set<string>, retrieved: seq<string>, k: int, m: int)
    requires k <= m
    ensures HitAtK(relevant, retrieved, k) <= HitAtK(relevant, retrieved, m)
    ensures RecallAtK(relevant, retrieved, k) <= RecallAtK(relevant, retrieved, m)
    ensures MrrAtK(relevant, retrieved, k) <= MrrAtK(relevant, retrieved, m)
  {
    if k > 0 && relevant != {} {
      var near, far := TakeUpTo(retrieved, k), TakeUpTo(retrieved, m);
      assert near <= far;
      HitMonotone(relevant, retrieved, k, m);
      var a, b := relevant * Keys(near), relevant * Keys(far);
      SubsetSize(a, b);
      DivideMonotone(|a| as real, |b| as real, |relevant| as real);
      var rank := FirstRank(relevant, near);
      if rank > 0 {
        assert far[rank - 1] == near[rank - 1] && forall i | 0 <= i < rank - 1 :: far[i] == near[i];
        FoundFirst(relevant, far, rank);
      } else if FirstRank(relevant, far) > 0 {
        Reciprocals(FirstRank(relevant, far), FirstRank(relevant, far));
      }
    } else if m > 0 && relevant != {} {
      RecallAtMostHit(relevant, retrieved, m);
      if FirstRank(relevant, TakeUpTo(retrieved, m)) > 0 {
        Reciprocals(FirstRank(relevant, TakeUpTo(retrieved, m)), FirstRank(relevant, TakeUpTo(retrieved, m)));
      }
    }
  }

  lemma HitMonotone(relevant: set<string>, retrieved: seq<string>, k: nat, m: nat)
    requires 1 <= k <= m
    ensures HitAtK(relevant, retrieved, k) <= HitAtK(relevant, retrieved, m)
  {
    var near, far := TakeUpTo(retrieved, k), TakeUpTo(retrieved, m);
    if AnyIn(relevant, near) {
      var x :| x in near && x in relevant;
      var i :| 0 <= i < |near| && near[i] == x;
      assert far[i] == x;
    }
  }

  /** Hit and recall see only which keys were retrieved, not in which order. */
  lemma OrderDoesNotMatter(relevant: set<string>, a: seq<string>, b: seq<string>, m: int)
    requires |a| <= m && |b| <= m && forall x :: x in a <==> x in b
    ensures HitAtK(relevant, a, m) == HitAtK(relevant, b, m)
    ensures RecallAtK(relevant, a, m) == RecallAtK(relevant, b, m)
  {
    assert TakeUpTo(a, if m > 0 then m else 0) == a && TakeUpTo(b, if m > 0 then m else 0) == b;
    assert Keys(a) == Keys(b);
    assert AnyIn(relevant, a) <==> AnyIn(relevant, b);
  }
}

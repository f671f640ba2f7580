/** Sliding windows with an anchored tail, and the second routine beside it. */
module ChunkWindows {
  import opened Options

  /** A half-open range of positions. */
  datatype Window = Window(first: nat, end: nat)

  function Min(a: int, b: int): int {
    if a < b then a else b
  }

  function Max(a: int, b: int): int {
    if a < b then b else a
  }

  /** A value that is not a number counts as a window of one and no overlap. */
  function WindowAndStep(chunk: Option<int>, overlap: Option<int>): (r: (int, int))
    ensures 1 <= r.1 <= r.0
    ensures chunk.Some? && chunk.value >= 1 ==> r.0 == chunk.value
    ensures overlap.Some? && 0 <= overlap.value < r.0 ==> r.1 == r.0 - overlap.value
    ensures chunk.None? || chunk.value < 1 ==> r.0 == 1
    ensures overlap.None? || overlap.value < 0 ==> r.1 == r.0
    ensures overlap.Some? && overlap.value >= r.0 ==> r.1 == 1
  {
    var window := Max(chunk.Or(Some(1)).value, 1);
    var overlapValue := Max(0, Min(overlap.Or(Some(0)).value, window - 1));
    (window, Max(window - overlapValue, 1))
  }

  function NormaliseOverlap(chunk: int, overlap: int): (r: int)
    ensures chunk >= 1 ==> 0 <= r < chunk
  {
    if chunk <= 1 then 0 else Min(if overlap < 0 then 0 else overlap, chunk - 1)
  }

  /** Both routines move by the same step. */
  lemma SameStep(window: int, overlap: int)
    requires window >= 1
    ensures WindowAndStep(Some(window), Some(overlap)) == (window, window - NormaliseOverlap(window, overlap))
  {
  }

  // ------------------------------------------------------------ anchored windows

  /** Starts from s on, one step at a time, the last one anchored. */
  function StartsFrom(s: nat, last: nat, step: nat): (r: seq<nat>)
    requires step >= 1
    ensures r != [] && r[|r| - 1] == last
    decreases last - s
  {
    if s >= last then [last] else [s] + StartsFrom(s + step, last, step)
  }

  function WindowAt(length: nat, window: nat, s: nat): Window
    requires s <= length
  {
    Window(s, Min(s + window, length))
  }

  lemma {:induction false} StartsShape(s: nat, last: nat, step: nat, i: nat)
    requires step >= 1 && i < |StartsFrom(s, last, step)|
    ensures StartsFrom(s, last, step)[i] <= last
    ensures i < |StartsFrom(s, last, step)| - 1 ==> StartsFrom(s, last, step)[i] == s + i * step < last
    ensures s <= last ==> s <= StartsFrom(s, last, step)[i]
    decreases last - s
  {
    if s < last && i > 0 {
      StartsShape(s + step, last, step, i - 1);
      assert (i - 1) * step + step == i * step;
    }
  }

  function Windows(length: int, window: nat, step: nat): (r: seq<Window>)
    requires window >= 1 && step >= 1
    ensures length <= 0 <==> r == []
  {
    if length <= 0 then []
    else
      var starts := StartsFrom(0, Max(length - window, 0), step);
      seq(|starts|, i requires 0 <= i < |starts| => 
        (StartsShape(0, Max(length - window, 0), step, i); WindowAt(length, window, starts[i])))
  }

  /** The last window's start: the tail is always represented. */
  function TailStart(length: nat, window: nat): nat {
    Max(length - window, 0)
  }

  /** Where window i is: on the grid, except the last, which ends the source. */
  lemma WindowsAre(length: nat, window: nat, step: nat, i: nat)
    requires window >= 1 && step >= 1 && i < |Windows(length, window, step)|
    ensures var w := Windows(length, window, step)[i];
      && w.first <= TailStart(length, window) && w.end == w.first + Min(window, length) <= length
      && (i < |Windows(length, window, step)| - 1 ==> w.first == i * step < TailStart(length, window))
      && (i == |Windows(length, window, step)| - 1 ==> w.first == TailStart(length, window) && w.end == length)
  {
    StartsShape(0, TailStart(length, window), step, i);
  }

  lemma {:induction false} StartsClose(s: nat, last: nat, step: nat, i: nat)
    requires step >= 1 && i + 1 < |StartsFrom(s, last, step)|
    ensures StartsFrom(s, last, step)[i] < StartsFrom(s, last, step)[i + 1] <= StartsFrom(s, last, step)[i] + step
    decreases last - s
  {
    if i > 0 { StartsClose(s + step, last, step, i - 1); }
  }

  /** Neighbours move forward and leave no gap. */
  lemma WindowsClose(length: nat, window: nat, step: nat, i: nat)
    requires 1 <= step <= window && i + 1 < |Windows(length, window, step)|
    ensures var (a, b) := (Windows(length, window, step)[i], Windows(length, window, step)[i + 1]);
      a.first < b.first <= a.first + step && b.first <= a.end <= b.end
  {
    StartsClose(0, TailStart(length, window), step, i);
    WindowsAre(length, window, step, i);
    WindowsAre(length, window, step, i + 1);
  }

  lemma {:induction false} WindowsIncrease(length: nat, window: nat, step: nat, i: nat, j: nat)
    requires 1 <= step <= window && i < j < |Windows(length, window, step)|
    ensures Windows(length, window, step)[i].first < Windows(length, window, step)[j].first
  {
    hide Windows, StartsFrom;
    WindowsClose(length, window, step, j - 1);
    if i < j - 1 { WindowsIncrease(length, window, step, i, j - 1); }
  }

  /** Every position lies in a window. */
  lemma {:induction false} WindowsCover(length: nat, window: nat, step: nat, p: nat) returns (i: nat)
    requires 1 <= step <= window && p < length
    ensures i < |Windows(length, window, step)|
    ensures Windows(length, window, step)[i].first <= p < Windows(length, window, step)[i].end
  {
    var ws := Windows(length, window, step);
    i := |ws| - 1;
    WindowsAre(length, window, step, i);
    while p < ws[i].first
      invariant 0 <= i < |ws| && p < ws[i].end
    {
      WindowsAre(length, window, step, i);
      WindowsClose(length, window, step, i - 1);
      i := i - 1;
    }
  }

  // ----------------------------------------------------------------------- count

  function CeilDiv(n: nat, d: nat): nat
    requires d >= 1
  {
    (n + d - 1) / d
  }

  lemma DivStep(n: nat, d: nat)
    requires d >= 1
    ensures (n + d) / d == n / d + 1
  {
    var q, r := n / d, n % d;
    assert n == q * d + r;
    assert n + d == (q + 1) * d + r;
    DivUnique(n + d, d, q + 1, r);
  }

  lemma Below(a: nat, b: nat, d: nat)
    requires a < b
    ensures a * d + d <= b * d
  {
    assert (b - a - 1) * d >= 0;
    assert b * d == a * d + d + (b - a - 1) * d;
  }

  lemma DivUnique(n: nat, d: nat, q: nat, r: nat)
    requires n == q * d + r && r < d
    ensures n / d == q
  {
    var q', r' := n / d, n % d;
    assert n == q' * d + r';
    if q' < q { Below(q', q, d); }
    if q < q' { Below(q, q', d); }
  }

  lemma {:induction false} StartsCount(s: nat, last: nat, step: nat)
    requires step >= 1
    ensures |StartsFrom(s, last, step)| == 1 + if s >= last then 0 else CeilDiv(last - s, step)
    decreases last - s
  {
    if s < last {
      StartsCount(s + step, last, step);
      DivStep(last - s - 1, step);
      if s + step >= last { DivUnique(last - s - 1, step, 0, last - s - 1); }
    }
  }

  /** Main result: one window for a short source, else one plus as many as steps needed. */
  lemma WindowsCount(length: nat, window: nat, step: nat)
    requires 1 <= step <= window && length > 0
    ensures |Windows(length, window, step)| == if length <= window then 1 else 1 + CeilDiv(length - window, step)
  {
    StartsCount(0, TailStart(length, window), step);
  }

  // ------------------------------------------------------------------------ grid

  /** The first n windows on the grid. */
  function GridWindows(length: nat, window: nat, step: nat, n: nat): (r: seq<Window>)
    ensures |r| == n && forall i | 0 <= i < n :: r[i] == Window(i * step, Min(i * step + window, length))
  {
    seq(n, i requires 0 <= i < n => Window(i * step, Min(i * step + window, length)))
  }

  lemma {:induction false} StartsOnGrid(s: nat, last: nat, step: nat, n: nat)
    requires step >= 1 && n >= 1 && s + (n - 1) * step <= last < s + n * step
    ensures |StartsFrom(s, last, step)| == if s + (n - 1) * step == last then n else n + 1
    ensures forall i | 0 <= i < n :: StartsFrom(s, last, step)[i] == s + i * step
    decreases n
  {
    if n == 1 {
      if s < last { assert StartsFrom(s + step, last, step) == [last]; }
    } else {
      Multiples(n - 1, step);
      Multiples(n - 2, step);
      var rest := StartsFrom(s + step, last, step);
      assert StartsFrom(s, last, step) == [s] + rest;
      hide StartsFrom;
      StartsOnGrid(s + step, last, step, n - 1);
      forall i | 0 <= i < n ensures ([s] + rest)[i] == s + i * step {
        if i > 0 {
          Multiples(i - 1, step);
          assert rest[i - 1] == s + step + (i - 1) * step;
        } else {
          ZeroSteps(step);
        }
      }
    }
  }

  lemma ZeroSteps(step: nat)
    ensures 0 * step == 0
  {
  }

  lemma Multiples(n: nat, step: nat)
    ensures (n + 1) * step == n * step + step && n * step >= 0
  {
  }

  lemma WindowsCounted(length: nat, window: nat, step: nat, n: nat)
    requires 1 <= window <= length && step >= 1 && n >= 1 && (n - 1) * step <= length - window < n * step
    ensures |Windows(length, window, step)| == if (n - 1) * step == length - window then n else n + 1
    ensures forall i | 0 <= i < n :: Windows(length, window, step)[i].first == i * step
  {
    StartsOnGrid(0, length - window, step, n);
    var starts := StartsFrom(0, length - window, step);
    assert |Windows(length, window, step)| == |starts|;
    forall i | 0 <= i < n ensures Windows(length, window, step)[i].first == i * step {
      assert Windows(length, window, step)[i].first == starts[i];
    }
  }

  /** All windows are those on the grid, and the anchored one unless it is on the grid. */
  lemma WindowsOnGrid(length: nat, window: nat, step: nat, n: nat)
    requires 1 <= window <= length && step >= 1 && n >= 1 && (n - 1) * step <= length - window < n * step
    ensures Windows(length, window, step) == GridWindows(length, window, step, n)
      + if (n - 1) * step == length - window then [] else [Window(length - window, length)]
  {
    WindowsCounted(length, window, step, n);
    var ws := Windows(length, window, step);
    hide Windows, StartsFrom, GridWindows;
    forall i | 0 <= i < n ensures ws[i] == GridWindows(length, window, step, n)[i] {
      WindowsAre(length, window, step, i);
      WindowFits(ws[i], length, window);
    }
    if |ws| == n + 1 { WindowsAre(length, window, step, n); }
  }

  lemma WindowFits(w: Window, length: nat, window: nat)
    requires w.end == w.first + Min(window, length) <= length && window <= length
    ensures w == Window(w.first, Min(w.first + window, length))
  {
  }
}

/** The routine without an anchored tail, against the one with it. */
module OpenWindows {
  import opened Seqs
  import opened ChunkWindows
  import opened ChunkText

  /** Windows from s on, until one reaches the end. */
  function OpenFrom(length: nat, window: nat, step: nat, s: nat): (r: seq<Window>)
    requires window >= 1 && step >= 1 && s < length
    ensures r != []
    decreases length - s
  {
    if s + window >= length then [Window(s, length)]
    else if s + step >= length then [Window(s, s + window)] // not reached when step <= window
    else [Window(s, s + window)] + OpenFrom(length, window, step, s + step)
  }

  function Open(length: nat, window: nat, step: nat): seq<Window>
    requires window >= 1 && step >= 1
  {
    if length == 0 then [] else OpenFrom(length, window, step, 0)
  }

  function AllFetched(fetch: (nat, nat) -> string, windows: seq<Window>): (r: seq<string>)
    ensures |r| == |windows| && forall i | 0 <= i < |r| :: r[i] == fetch(windows[i].first, windows[i].end)
  {
    seq(|windows|, i requires 0 <= i < |windows| => fetch(windows[i].first, windows[i].end))
  }

  lemma AllFetchedAppend(fetch: (nat, nat) -> string, a: seq<Window>, b: seq<Window>)
    ensures AllFetched(fetch, a + b) == AllFetched(fetch, a) + AllFetched(fetch, b)
  {
  }

  lemma FetchOne(fetch: (nat, nat) -> string, first: nat, end: nat)
    ensures AllFetched(fetch, [Window(first, end)]) == [fetch(first, end)]
  {
  }

  lemma OpenUnfold(length: nat, window: nat, step: nat, s: nat, done: seq<Window>)
    requires 1 <= step <= window && s < length
    ensures done + OpenFrom(length, window, step, s)
      == done + [Window(s, Min(s + window, length))]
       + if s + window >= length then [] else OpenFrom(length, window, step, s + step)
  {
    if s + window < length { Assoc(done, [Window(s, s + window)], OpenFrom(length, window, step, s + step)); }
  }

  /** Its guard against standing still never acts. */
  method IterateWindows(total: nat, window: nat, overlap: int, fetch: (nat, nat) -> string)
    returns (pieces: seq<string>)
    requires window >= 1
    ensures pieces == AllFetched(fetch, Open(total, window, window - NormaliseOverlap(window, overlap)))
  {
    if total == 0 { return []; }
    var stepOverlap := NormaliseOverlap(window, overlap);
    ghost var step := window - stepOverlap;
    ghost var done: seq<Window> := [];
    pieces := [];
    var start := 0;
    while start < total
      invariant 0 <= start < total
      invariant pieces == AllFetched(fetch, done)
      invariant Open(total, window, step) == done + OpenFrom(total, window, step, start)
      decreases total - start
    {
      var end := Min(start + window, total);
      pieces := pieces + [fetch(start, end)];
      OpenUnfold(total, window, step, start, done);
      AllFetchedAppend(fetch, done, [Window(start, end)]);
      FetchOne(fetch, start, end);
      hide AllFetched, OpenFrom, Open;
      done := done + [Window(start, end)];
      if end >= total { break; }
      var nextStart := end - stepOverlap;
      if nextStart <= start {
        nextStart := start + 1;
      }
      start := nextStart;
    }
  }

  // ------------------------------------------------------------------ comparison

  /** As StartsFrom, but the last start stays on the grid. */
  lemma {:induction false} OpenAgainstAnchored(length: nat, window: nat, step: nat, s: nat, i: nat)
    requires 1 <= step <= window && s < length && i < |OpenFrom(length, window, step, s)|
    ensures |OpenFrom(length, window, step, s)| == |StartsFrom(s, TailStart(length, window), step)|
    ensures var w, n := OpenFrom(length, window, step, s)[i], |OpenFrom(length, window, step, s)|;
      && w.first == s + i * step && w.end == Min(w.first + window, length)
      && (i < n - 1 ==> w.first == StartsFrom(s, TailStart(length, window), step)[i] && w.end < length)
      && (i == n - 1 ==> w.end == length && TailStart(length, window) <= w.first)
      && (i == n - 1 && s <= TailStart(length, window) ==> w.first < TailStart(length, window) + step)
    decreases length - s
  {
    if s + window >= length {
      ZeroSteps(step);
    } else if i > 0 {
      OpenAgainstAnchored(length, window, step, s + step, i - 1);
      Multiples(i - 1, step);
    } else {
      ZeroSteps(step);
      OpenAgainstAnchored(length, window, step, s + step, 0);
    }
  }

  /** Main result: as many windows, equal but for the last; both last windows end the
      source, the open one starting no earlier, and less than a step later. */
  lemma OpenAndAnchored(length: nat, window: nat, step: nat)
    requires 1 <= step <= window && length > 0
    ensures var open, anchored := Open(length, window, step), Windows(length, window, step);
      && |open| == |anchored|
      && (forall i | 0 <= i < |open| - 1 :: open[i] == anchored[i])
      && open[|open| - 1].end == anchored[|open| - 1].end == length
      && anchored[|open| - 1].first <= open[|open| - 1].first < anchored[|open| - 1].first + step
  {
    var open, anchored := Open(length, window, step), Windows(length, window, step);
    forall i | 0 <= i < |open| - 1 ensures |open| == |anchored| && open[i] == anchored[i] {
      OpenAgainstAnchored(length, window, step, 0, i);
    }
    OpenAgainstAnchored(length, window, step, 0, |open| - 1);
    WindowsAre(length, window, step, |open| - 1);
  }

  lemma MultipleHasNoRest(q: nat, d: nat)
    requires d >= 1
    ensures (q * d) % d == 0
  {
    DivUnique(q * d, d, q, 0);
    assert q * d == (q * d) / d * d + (q * d) % d;
  }

  lemma NextMultiple(a: nat, b: nat, d: nat)
    requires d >= 1 && a * d <= b * d < a * d + d
    ensures a == b
  {
    if a < b { Below(a, b, d); }
    if b < a { Below(b, a, d); }
  }

  /** The last windows are the same exactly when the steps fit the source. */
  lemma SameIffStepsFit(length: nat, window: nat, step: nat)
    requires 1 <= step <= window && length > 0
    ensures Open(length, window, step) == Windows(length, window, step)
      <==> length <= window || (length - window) % step == 0
  {
    OpenAndAnchored(length, window, step);
    var open, anchored := Open(length, window, step), Windows(length, window, step);
    var n := |open| - 1;
    OpenAgainstAnchored(length, window, step, 0, n);
    WindowsAre(length, window, step, n);
    if length <= window {
      TailShort(length, window);
    } else if (length - window) % step == 0 {
      var q := (length - window) / step;
      assert length - window == q * step;
      NextMultiple(q, n, step);
    } else if open[n] == anchored[n] {
      MultipleHasNoRest(n, step);
    }
    hide Open, Windows;
    if open[n] == anchored[n] {
      forall i | 0 <= i < |open| ensures open[i] == anchored[i] {}
    }
  }

  lemma TailShort(length: nat, window: nat)
    requires length <= window
    ensures TailStart(length, window) == 0
  {
  }

  /** Windows that agree but for the last, both of which end the text. */
  ghost predicate SameButLast(text: string, open: seq<Window>, anchored: seq<Window>) {
    && |open| == |anchored| > 0
    && (forall i | 0 <= i < |open| - 1 :: open[i] == anchored[i])
    && open[|open| - 1].end == anchored[|open| - 1].end == |text|
    && anchored[|open| - 1].first <= open[|open| - 1].first <= |text|
  }

  lemma OpenInText(text: string, open: seq<Window>, anchored: seq<Window>)
    requires SameButLast(text, open, anchored) && InText(text, anchored)
    ensures InText(text, open)
  {
    forall i | 0 <= i < |open| ensures open[i].first <= open[i].end <= |text| {
      assert anchored[i].first <= anchored[i].end <= |text|;
      if i < |open| - 1 { assert open[i] == anchored[i]; }
    }
  }

  lemma SuffixOfSlice(text: string, a: nat, b: nat)
    requires a <= b <= |text|
    ensures text[b..] == text[a..][|text[a..]| - |text[b..]|..]
  {
  }

  lemma PiecesBeforeLast(text: string, open: seq<Window>, anchored: seq<Window>)
    requires SameButLast(text, open, anchored) && InText(text, open) && InText(text, anchored)
    ensures Slices(text, open)[..|open| - 1] == Slices(text, anchored)[..|open| - 1]
  {
    var n := |open| - 1;
    forall i | 0 <= i < n ensures Slices(text, open)[i] == Slices(text, anchored)[i] {
      assert open[i] == anchored[i];
    }
  }

  lemma LastPieces(text: string, open: seq<Window>, anchored: seq<Window>)
    requires SameButLast(text, open, anchored) && InText(text, open) && InText(text, anchored)
    ensures var n := |open| - 1;
      && Slices(text, open)[n] == text[open[n].first..] && Slices(text, anchored)[n] == text[anchored[n].first..]
  {
    var n := |open| - 1;
    assert text[open[n].first..|text|] == text[open[n].first..];
    assert text[anchored[n].first..|text|] == text[anchored[n].first..];
  }

  lemma SuffixPieces(text: string, open: seq<Window>, anchored: seq<Window>)
    requires SameButLast(text, open, anchored) && InText(text, open) && InText(text, anchored)
    ensures var o, a := Slices(text, open), Slices(text, anchored);
      && |o| == |a| > 0 && o[..|o| - 1] == a[..|o| - 1]
      && |o[|o| - 1]| <= |a[|o| - 1]|
      && o[|o| - 1] == a[|o| - 1][|a[|o| - 1]| - |o[|o| - 1]|..]
  {
    hide InText;
    PiecesBeforeLast(text, open, anchored);
    LastPieces(text, open, anchored);
    SuffixOfSlice(text, anchored[|open| - 1].first, open[|open| - 1].first);
  }

  /** For a text: the last piece of the one is a suffix of the last piece of the other. */
  lemma LastPieceIsSuffix(text: string, window: nat, step: nat)
    requires 1 <= step <= window && text != ""
    ensures InText(text, Open(|text|, window, step)) && InText(text, Windows(|text|, window, step))
    ensures var open, anchored := Slices(text, Open(|text|, window, step)), Slices(text, Windows(|text|, window, step));
      && |open| == |anchored| > 0
      && open[..|open| - 1] == anchored[..|open| - 1]
      && |open[|open| - 1]| <= |anchored[|open| - 1]|
      && open[|open| - 1] == anchored[|open| - 1][|anchored[|open| - 1]| - |open[|open| - 1]|..]
  {
    var open, anchored := Open(|text|, window, step), Windows(|text|, window, step);
    EndsAlike(text, window, step);
    WindowsInText(text, window, step);
    hide *;
    OpenInText(text, open, anchored);
    SuffixPieces(text, open, anchored);
  }

  lemma EndsAlike(text: string, window: nat, step: nat)
    requires 1 <= step <= window && text != ""
    ensures SameButLast(text, Open(|text|, window, step), Windows(|text|, window, step))
  {
    OpenAndAnchored(|text|, window, step);
    var n := |Open(|text|, window, step)| - 1;
    OpenAgainstAnchored(|text|, window, step, 0, n);
    hide Open, Windows;
  }
}

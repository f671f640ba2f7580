/** Cutting a text into overlapping pieces, and putting it together again. */
module ChunkText {
  import opened Options
  import opened Seqs
  import opened ChunkWindows

  // ----------------------------------------------------------------- the routines

  /** The non-empty pieces of a list of windows, in order. */
  function Fetched(fetch: (nat, nat) -> string, windows: seq<Window>): seq<string> {
    if windows == [] then []
    else
      var last := windows[|windows| - 1];
      Fetched(fetch, windows[..|windows| - 1])
      + if fetch(last.first, last.end) != "" then [fetch(last.first, last.end)] else []
  }

  /** Slide a window, collecting non-empty pieces, and anchor one at the end if it would be missed. */
  method CollectWindows(length: int, window: nat, step: nat, fetch: (nat, nat) -> string) returns (pieces: seq<string>)
    requires window >= 1 && step >= 1
    ensures pieces == Fetched(fetch, Windows(length, window, step))
  {
    if length <= 0 { return []; }
    pieces := [];
    var lastStart: Option<nat> := None;
    var limit := Max(length - window + 1, 0);
    var start: nat := 0;
    ghost var n: nat := 0;
    NotYetSlid(fetch, length, window, step);
    hide *;
    while start < limit
      invariant n > 0 ==> start < limit + step
      invariant Slid(fetch, length, window, step, n, start, pieces, lastStart)
    {
      var end: nat := Min(start + window, length);
      var piece := fetch(start, end);
      SlidMore(fetch, length, window, step, n, start, pieces, lastStart);
      if piece != "" {
        pieces := pieces + [piece];
        lastStart := Some(start);
      }
      start := start + step;
      n := n + 1;
    }
    SlidAll(fetch, length, window, step, n, start, pieces, lastStart);
    EmptyEnds(pieces);
    var tailStart: nat := Max(length - window, 0);
    TailBefore(length, window);
    if tailStart < length && (lastStart == None || tailStart > lastStart.value) {
      var tailPiece := fetch(tailStart, length);
      if tailPiece != "" { pieces := pieces + [tailPiece]; }
    }
    assert pieces == Fetched(fetch, Windows(length, window, step));
    if pieces == [] {
      var tailPiece := fetch(tailStart, length);
      if tailPiece != "" { pieces := pieces + [tailPiece]; }
    }
  }

  lemma TailBefore(length: nat, window: nat)
    requires length > 0 && window > 0
    ensures Max(length - window, 0) < length
  {
  }

  /** The loop's state once the first n windows on the grid were fetched. */
  ghost predicate Slid(fetch: (nat, nat) -> string, length: nat, window: nat, step: nat, n: nat, start: nat,
                       pieces: seq<string>, lastStart: Option<nat>) {
    && start == n * step
    && pieces == Fetched(fetch, GridWindows(length, window, step, n))
    && (lastStart.Some? ==> n > 0 && lastStart.value <= start - step)
    && (n > 0 ==> start >= step)
    && (n > 0 && fetch(start - step, Min(start - step + window, length)) != "" ==> lastStart == Some(start - step))
    && (pieces == [] ==> lastStart == None)
  }

  lemma NotYetSlid(fetch: (nat, nat) -> string, length: nat, window: nat, step: nat)
    ensures Slid(fetch, length, window, step, 0, 0, [], None)
  {
  }

  lemma SlidMore(fetch: (nat, nat) -> string, length: nat, window: nat, step: nat, n: nat, start: nat,
                 pieces: seq<string>, lastStart: Option<nat>)
    requires step >= 1 && Slid(fetch, length, window, step, n, start, pieces, lastStart)
    ensures var piece := fetch(start, Min(start + window, length));
      Slid(fetch, length, window, step, n + 1, start + step,
           if piece != "" then pieces + [piece] else pieces, if piece != "" then Some(start) else lastStart)
  {
    var end := Min(start + window, length);
    Multiples(n, step);
    GridOneMore(length, window, step, n);
    FetchedOneMore(fetch, GridWindows(length, window, step, n), Window(start, end));
    EmptyEnds(pieces);
    hide Fetched, GridWindows;
  }

  lemma SlidAll(fetch: (nat, nat) -> string, length: nat, window: nat, step: nat, n: nat, start: nat,
                pieces: seq<string>, lastStart: Option<nat>)
    requires window >= 1 && step >= 1 && length >= 1
    requires Slid(fetch, length, window, step, n, start, pieces, lastStart)
    requires start >= Max(length - window + 1, 0) && (n > 0 ==> start < Max(length - window + 1, 0) + step)
    ensures var tailStart := Max(length - window, 0);
      var tail := fetch(tailStart, length);
      Fetched(fetch, Windows(length, window, step))
        == pieces + if tail != "" && (lastStart == None || tailStart > lastStart.value) then [tail] else []
    ensures pieces == [] ==> lastStart == None
  {
    hide Fetched, GridWindows, Windows;
    if n > 0 { Multiples(n - 1, step); }
    GridFetched(fetch, length, window, step, n, start);
  }

  lemma GridOneMore(length: nat, window: nat, step: nat, n: nat)
    ensures GridWindows(length, window, step, n + 1)
         == GridWindows(length, window, step, n) + [Window(n * step, Min(n * step + window, length))]
  {
  }

  lemma FetchedOneMore(fetch: (nat, nat) -> string, windows: seq<Window>, w: Window)
    ensures Fetched(fetch, windows + [w])
         == Fetched(fetch, windows) + if fetch(w.first, w.end) != "" then [fetch(w.first, w.end)] else []
  {
    assert (windows + [w])[..|windows|] == windows;
  }

  /** What the loop has fetched, against all there is to fetch. */
  lemma GridFetched(fetch: (nat, nat) -> string, length: nat, window: nat, step: nat, n: nat, start: nat)
    requires window >= 1 && step >= 1 && length >= 1 && start == n * step
    requires start >= Max(length - window + 1, 0)
    requires n > 0 ==> 0 <= start - step == (n - 1) * step < Max(length - window + 1, 0)
    ensures var tail := fetch(TailStart(length, window), length);
      Fetched(fetch, Windows(length, window, step)) == Fetched(fetch, GridWindows(length, window, step, n))
        + if tail == "" || (n > 0 && start - step == length - window) then [] else [tail]
  {
    var grid := GridWindows(length, window, step, n);
    if length < window {
      assert n == 0;
      assert Windows(length, window, step) == [Window(0, length)];
    } else {
      if n == 0 { ZeroSteps(step); }
      WindowsOnGrid(length, window, step, n);
      hide Windows, GridWindows;
      if start - step == length - window {
        EmptyEnds(grid);
        EmptyEnds(Fetched(fetch, grid));
      } else {
        FetchedOneMore(fetch, grid, Window(length - window, length));
      }
    }
  }

  // ---------------------------------------------------------------------- slices

  function Slices(text: string, windows: seq<Window>): (r: seq<string>)
    requires InText(text, windows)
    ensures |r| == |windows| && forall i | 0 <= i < |r| :: r[i] == text[windows[i].first..windows[i].end]
  {
    seq(|windows|, i requires 0 <= i < |windows| => text[windows[i].first..windows[i].end])
  }

  predicate InText(text: string, windows: seq<Window>) {
    forall i | 0 <= i < |windows| :: windows[i].first <= windows[i].end <= |text|
  }

  function SliceOf(text: string): (nat, nat) -> string {
    (first: nat, end: nat) => if first <= end <= |text| then text[first..end] else ""
  }

  lemma {:induction false} FetchedSlices(text: string, windows: seq<Window>)
    requires InText(text, windows) && forall i | 0 <= i < |windows| :: windows[i].first < windows[i].end
    ensures Fetched(SliceOf(text), windows) == Slices(text, windows)
  {
    if windows != [] {
      var n := |windows| - 1;
      var w := windows[n];
      hide Slices;
      FetchedSlices(text, windows[..n]);
      SlicesTake(text, windows, n);
      SplitLast(windows);
      FetchedOneMore(SliceOf(text), windows[..n], w);
      hide Fetched;
      SplitLast(Slices(text, windows));
      assert Slices(text, windows)[n] == text[w.first..w.end] && SliceOf(text)(w.first, w.end) != "";
    }
  }

  lemma WindowsInText(text: string, window: nat, step: nat)
    requires 1 <= step <= window
    ensures InText(text, Windows(|text|, window, step))
    ensures forall i | 0 <= i < |Windows(|text|, window, step)| ::
      Windows(|text|, window, step)[i].first < Windows(|text|, window, step)[i].end
  {
    forall i | 0 <= i < |Windows(|text|, window, step)|
      ensures var w := Windows(|text|, window, step)[i]; w.first < w.end <= |text|
    {
      WindowsAre(|text|, window, step, i);
    }
  }

  /** Cut from each piece what its predecessor already gave, and join. */
  function Rebuild(pieces: seq<string>, windows: seq<Window>): string
    requires |pieces| == |windows|
  {
    if pieces == [] then ""
    else
      var n := |pieces| - 1;
      var overlap := if n == 0 then 0 else windows[n - 1].end - windows[n].first;
      Rebuild(pieces[..n], windows[..n]) + if 0 <= overlap <= |pieces[n]| then pieces[n][overlap..] else pieces[n]
  }

  lemma Glue(text: string, i: nat, j: nat, k: nat)
    requires i <= j <= k <= |text|
    ensures text[..j] + text[i..k][j - i..] == text[..k]
  {
  }

  lemma RebuildUnfold(pieces: seq<string>, windows: seq<Window>, n: nat, overlap: nat)
    requires |pieces| == |windows| == n + 1 && n > 0
    requires overlap == windows[n - 1].end - windows[n].first && overlap <= |pieces[n]|
    ensures Rebuild(pieces, windows) == Rebuild(pieces[..n], windows[..n]) + pieces[n][overlap..]
  {
  }

  lemma RebuildStep(text: string, pieces: seq<string>, windows: seq<Window>, n: nat, i: nat, j: nat, k: nat)
    requires |pieces| == |windows| == n + 1 && n > 0
    requires i == windows[n].first && j == windows[n - 1].end && k == windows[n].end
    requires i <= j <= k <= |text| && pieces[n] == text[i..k]
    requires Rebuild(pieces[..n], windows[..n]) == text[..j]
    ensures Rebuild(pieces, windows) == text[..k]
  {
    hide *;
    assert |pieces[n]| == k - i;
    RebuildUnfold(pieces, windows, n, j - i);
    Glue(text, i, j, k);
  }

  lemma RebuildOne(piece: string, w: Window)
    ensures Rebuild([piece], [w]) == piece
  {
    assert [piece][..0] == [] && [w][..0] == [];
    assert piece[0..] == piece;
  }

  /** Windows that start at 0 and leave no gap. */
  predicate Chained(windows: seq<Window>) {
    && windows != [] && windows[0].first == 0
    && forall i | 0 < i < |windows| :: windows[i].first <= windows[i - 1].end <= windows[i].end
  }

  lemma SlicesTake(text: string, windows: seq<Window>, n: nat)
    requires InText(text, windows) && n <= |windows|
    ensures InText(text, windows[..n]) && Slices(text, windows)[..n] == Slices(text, windows[..n])
  {
  }

  lemma {:induction false} RebuildChain(text: string, windows: seq<Window>)
    requires InText(text, windows) && Chained(windows)
    ensures Rebuild(Slices(text, windows), windows) == text[..windows[|windows| - 1].end]
  {
    var n := |windows| - 1;
    hide Rebuild;
    if n == 0 {
      RebuildOne(Slices(text, windows)[0], windows[0]);
      assert windows == [windows[0]] && Slices(text, windows) == [Slices(text, windows)[0]];
    } else {
      SlicesTake(text, windows, n);
      RebuildChain(text, windows[..n]);
      hide Slices;
      RebuildStep(text, Slices(text, windows), windows, n, windows[n].first, windows[n - 1].end, windows[n].end);
    }
  }

  lemma WindowsChained(length: nat, window: nat, step: nat)
    requires 1 <= step <= window && length > 0
    ensures Chained(Windows(length, window, step))
  {
    var ws := Windows(length, window, step);
    WindowsAre(length, window, step, 0);
    forall i | 0 < i < |ws| ensures ws[i].first <= ws[i - 1].end <= ws[i].end {
      WindowsClose(length, window, step, i - 1);
    }
  }

  /** Main result: dropping each piece's overlap with its predecessor gives the text back. */
  lemma RebuildsText(text: string, window: nat, step: nat)
    requires 1 <= step <= window
    ensures InText(text, Windows(|text|, window, step))
    ensures var ws := Windows(|text|, window, step); Rebuild(Slices(text, ws), ws) == text
  {
    WindowsInText(text, window, step);
    if text != "" {
      WindowsChained(|text|, window, step);
      RebuildChain(text, Windows(|text|, window, step));
      WindowsAre(|text|, window, step, |Windows(|text|, window, step)| - 1);
      TakeAll(text);
    }
  }
}

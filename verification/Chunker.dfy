/** Splitting a text by tokens, with characters as the tokens when nothing better is loaded. */
module Chunker {
  import opened Options
  import opened Seqs
  import opened ChunkWindows
  import opened ChunkText

  /** None stands for a call that raises. */
  datatype Tokenizer = Tokenizer(encode: string -> Option<seq<int>>, decode: seq<int> -> Option<string>)

  function Codes(text: string): (r: seq<int>)
    ensures |r| == |text| && forall i | 0 <= i < |r| :: r[i] == text[i] as int
  {
    seq(|text|, i requires 0 <= i < |text| => text[i] as int)
  }

  predicate IsCode(code: int) {
    0 <= code < 0xD800 || 0xE000 <= code < 0x11_0000
  }

  function CharOf(code: int): char
    requires IsCode(code)
  {
    code as char
  }

  function Characters(codes: seq<int>): (r: string)
    requires forall i | 0 <= i < |codes| :: IsCode(codes[i])
    ensures |r| == |codes| && forall i | 0 <= i < |r| :: r[i] == CharOf(codes[i])
  {
    seq(|codes|, i requires 0 <= i < |codes| && IsCode(codes[i]) => CharOf(codes[i]))
  }

  function DecodeCodes(codes: seq<int>): Option<string> {
    if forall i | 0 <= i < |codes| :: IsCode(codes[i]) then Some(Characters(codes)) else None
  }

  const CHAR_TOKENIZER: Tokenizer := Tokenizer(text => Some(Codes(text)), codes => DecodeCodes(codes))

  /** Any slice of a text's codes reads back as that slice of the text. */
  lemma CodesRoundTrip(text: string, first: nat, end: nat)
    requires first <= end <= |text|
    ensures DecodeCodes(Codes(text)[first..end]) == Some(text[first..end])
  {
    var part := Codes(text)[first..end];
    assert forall i | 0 <= i < |part| :: part[i] == text[first + i] as int;
    assert Characters(part) == text[first..end];
  }

  /** Each character alone. */
  function Characterwise(text: string): (r: seq<string>)
    ensures |r| == |text| && forall i | 0 <= i < |r| :: r[i] == [text[i]]
  {
    seq(|text|, i requires 0 <= i < |text| => [text[i]])
  }

  predicate AllDecode(tokenizer: Tokenizer, tokens: seq<int>, windows: seq<Window>) {
    forall i | 0 <= i < |windows| ::
      windows[i].first <= windows[i].end <= |tokens|
      && tokenizer.decode(tokens[windows[i].first..windows[i].end]).Some?
  }

  function DecodeOf(tokenizer: Tokenizer, tokens: seq<int>): (nat, nat) -> string {
    (first: nat, end: nat) =>
      if first <= end <= |tokens| then tokenizer.decode(tokens[first..end]).Or(Some("")).value else ""
  }

  /** The tokens to slide over; none when encoding raises. */
  function TokensOf(tokenizer: Tokenizer, text: string, tokenIds: Option<seq<int>>): seq<int> {
    if tokenIds.Some? then tokenIds.value else tokenizer.encode(text).Or(Some([])).value
  }

  function DecodedFull(tokenizer: Tokenizer, tokens: seq<int>): string {
    if tokens == [] then "" else tokenizer.decode(tokens).Or(Some("")).value
  }

  /** Whether the pieces are runs of tokens; otherwise they are runs of characters. */
  predicate ByTokens(tokenizer: Tokenizer, tokens: seq<int>, window: nat, step: nat)
    requires window >= 1 && step >= 1
  {
    var full := DecodedFull(tokenizer, tokens);
    tokens != [] && (full == "" || |tokens| > window || |full| <= window)
    && AllDecode(tokenizer, tokens, Windows(|tokens|, window, step))
  }

  function Pieces(tokenizer: Tokenizer, text: string, window: nat, step: nat, tokenIds: Option<seq<int>>): seq<string>
    requires window >= 1 && step >= 1
  {
    var tokens := TokensOf(tokenizer, text, tokenIds);
    var full := DecodedFull(tokenizer, tokens);
    var source := if full != "" then full else text;
    if text == "" then []
    else if window == 1 then Characterwise(text)
    else if ByTokens(tokenizer, tokens, window, step) then
      Fetched(DecodeOf(tokenizer, tokens), Windows(|tokens|, window, step))
    else Fetched(SliceOf(source), Windows(|source|, window, step))
  }

  /** `default` is the tokenizer the module is configured with, for callers that bring none. */
  method Chunk(text: string, chunk: Option<int>, overlap: Option<int>, encoder: Option<Tokenizer>,
               tokenIds: Option<seq<int>>, default: Tokenizer)
    returns (pieces: seq<string>)
    ensures var (window, step) := WindowAndStep(chunk, overlap);
      pieces == Pieces(encoder.Or(Some(default)).value, text, window, step, tokenIds)
  {
    if text == "" { return []; }
    var (window, step) := WindowAndStep(chunk, overlap);
    if window == 1 { return Characterwise(text); }
    var tokenizer := encoder.Or(Some(default)).value;
    var tokens: seq<int>;
    if tokenIds.Some? {
      tokens := tokenIds.value;
    } else {
      tokens := tokenizer.encode(text).Or(Some([])).value;
    }
    var decodedFull := "";
    if tokens != [] {
      decodedFull := tokenizer.decode(tokens).Or(Some("")).value;
      if decodedFull == "" || |tokens| > window || |decodedFull| <= window {
        if AllDecode(tokenizer, tokens, Windows(|tokens|, window, step)) {
          pieces := CollectWindows(|tokens|, window, step, DecodeOf(tokenizer, tokens));
          return;
        }
      }
    }
    var sourceText := if decodedFull != "" then decodedFull else text;
    pieces := CollectWindows(|sourceText|, window, step, SliceOf(sourceText));
  }

  // ------------------------------------------------------------- with characters

  lemma {:induction false} FetchedSame(f: (nat, nat) -> string, g: (nat, nat) -> string, windows: seq<Window>)
    requires forall i | 0 <= i < |windows| :: f(windows[i].first, windows[i].end) == g(windows[i].first, windows[i].end)
    ensures Fetched(f, windows) == Fetched(g, windows)
  {
    if windows != [] { FetchedSame(f, g, windows[..|windows| - 1]); }
  }

  lemma SingleCharacters(text: string)
    ensures InText(text, Windows(|text|, 1, 1)) && Characterwise(text) == Slices(text, Windows(|text|, 1, 1))
  {
    WindowsInText(text, 1, 1);
    var ws := Windows(|text|, 1, 1);
    if text != "" {
      WindowsCount(|text|, 1, 1);
      forall i | 0 <= i < |text| ensures ws[i] == Window(i, i + 1) {
        WindowsAre(|text|, 1, 1, i);
      }
    }
    hide Windows;
    forall i | 0 <= i < |text| ensures Slices(text, ws)[i] == [text[i]] {
    }
  }

  lemma CharDecode(text: string)
    requires text != ""
    ensures DecodedFull(CHAR_TOKENIZER, Codes(text)) == text
  {
    CodesRoundTrip(text, 0, |text|);
    TakeAll(Codes(text));
    TakeAll(text);
  }

  lemma CharsAllDecode(text: string, window: nat, step: nat)
    requires 1 <= step <= window
    ensures var ws := Windows(|text|, window, step);
      InText(text, ws) && AllDecode(CHAR_TOKENIZER, Codes(text), ws)
      && Fetched(DecodeOf(CHAR_TOKENIZER, Codes(text)), ws) == Fetched(SliceOf(text), ws)
  {
    WindowsInText(text, window, step);
    var ws := Windows(|text|, window, step);
    hide Windows;
    forall i | 0 <= i < |ws|
      ensures CHAR_TOKENIZER.decode(Codes(text)[ws[i].first..ws[i].end]) == Some(text[ws[i].first..ws[i].end])
    {
      CodesRoundTrip(text, ws[i].first, ws[i].end);
    }
    FetchedSame(DecodeOf(CHAR_TOKENIZER, Codes(text)), SliceOf(text), ws);
  }

  /** With the character tokenizer the pieces are the windows of the text, whatever the
      chunk and overlap asked for. */
  lemma CharPieces(text: string, chunk: Option<int>, overlap: Option<int>)
    ensures var (window, step) := WindowAndStep(chunk, overlap);
      InText(text, Windows(|text|, window, step))
      && Pieces(CHAR_TOKENIZER, text, window, step, None) == Slices(text, Windows(|text|, window, step))
  {
    var (window, step) := WindowAndStep(chunk, overlap);
    WindowsInText(text, window, step);
    if text == "" {
    } else if window == 1 {
      SingleCharacters(text);
    } else {
      CharDecode(text);
      CharsAllDecode(text, window, step);
      FetchedSlices(text, Windows(|text|, window, step));
      hide Windows, Fetched, AllDecode, Slices, DecodedFull;
      assert TokensOf(CHAR_TOKENIZER, text, None) == Codes(text);
    }
  }

  /** Each piece is the text's slice at its window, as long as the window (the text, if
      shorter). */
  ghost predicate PiecesAtWindows(text: string, window: nat, pieces: seq<string>, windows: seq<Window>) {
    && |pieces| == |windows| && InText(text, windows)
    && forall i | 0 <= i < |pieces| ::
         |pieces[i]| == Min(window, |text|) && pieces[i] == text[windows[i].first..windows[i].end]
  }

  ghost predicate Increasing(windows: seq<Window>) {
    forall i, j | 0 <= i < j < |windows| :: windows[i].first < windows[j].first
  }

  predicate Within(p: int, w: Window) {
    w.first <= p < w.end
  }

  predicate SomeCovers(windows: seq<Window>, p: int) {
    exists i | 0 <= i < |windows| :: Within(p, windows[i])
  }

  ghost predicate Covers(windows: seq<Window>, length: nat) {
    forall p | 0 <= p < length :: SomeCovers(windows, p)
  }

  function PieceCount(length: nat, window: nat, step: nat): nat
    requires 1 <= step <= window
  {
    if length == 0 then 0 else if length <= window then 1 else 1 + CeilDiv(length - window, step)
  }

  ghost predicate SoundPieces(text: string, window: nat, step: nat, pieces: seq<string>, windows: seq<Window>)
    requires 1 <= step <= window
  {
    && PiecesAtWindows(text, window, pieces, windows) && Increasing(windows) && Covers(windows, |text|)
    && |pieces| == PieceCount(|text|, window, step)
    && Rebuild(pieces, windows) == text
  }

  /** Main result: every piece has the window's length, starts move strictly forward, every
      position is covered, the number of pieces is exact, and cutting the overlaps gives the
      text back - for any chunk and overlap asked for. */
  lemma CharChunks(text: string, chunk: Option<int>, overlap: Option<int>)
    ensures var (window, step) := WindowAndStep(chunk, overlap);
      SoundPieces(text, window, step, Pieces(CHAR_TOKENIZER, text, window, step, None), Windows(|text|, window, step))
  {
    CharPieces(text, chunk, overlap);
    var (window, step) := WindowAndStep(chunk, overlap);
    hide *;
    SlicesSound(text, window, step);
  }

  lemma SlicesSound(text: string, window: nat, step: nat)
    requires 1 <= step <= window
    ensures InText(text, Windows(|text|, window, step))
    ensures SoundPieces(text, window, step, Slices(text, Windows(|text|, window, step)), Windows(|text|, window, step))
  {
    RebuildsText(text, window, step);
    CountSound(text, window, step);
    SlicesAtWindows(text, window, step);
    WindowsSpread(|text|, window, step);
    hide Windows, Slices, Rebuild, PiecesAtWindows, Increasing, Covers, InText, PieceCount;
  }

  lemma CountSound(text: string, window: nat, step: nat)
    requires 1 <= step <= window
    ensures |Windows(|text|, window, step)| == PieceCount(|text|, window, step)
  {
    if text != "" { WindowsCount(|text|, window, step); }
  }

  lemma SlicesAtWindows(text: string, window: nat, step: nat)
    requires 1 <= step <= window && InText(text, Windows(|text|, window, step))
    ensures PiecesAtWindows(text, window, Slices(text, Windows(|text|, window, step)), Windows(|text|, window, step))
  {
    var ws := Windows(|text|, window, step);
    hide Windows, Slices;
    forall i | 0 <= i < |ws| ensures |Slices(text, ws)[i]| == Min(window, |text|) {
      WindowsAre(|text|, window, step, i);
    }
  }

  lemma WindowsSpread(length: nat, window: nat, step: nat)
    requires 1 <= step <= window
    ensures Increasing(Windows(length, window, step)) && Covers(Windows(length, window, step), length)
  {
    var ws := Windows(length, window, step);
    hide Windows;
    forall i, j | 0 <= i < j < |ws| ensures ws[i].first < ws[j].first {
      WindowsIncrease(length, window, step, i, j);
    }
    forall p | 0 <= p < length ensures SomeCovers(ws, p) {
      var i := WindowsCover(length, window, step, p);
      assert Within(p, ws[i]);
    }
  }

  // -------------------------------------------------------------- with other tokenizers

  lemma {:induction false} AllFetched(fetch: (nat, nat) -> string, windows: seq<Window>)
    requires forall i | 0 <= i < |windows| :: fetch(windows[i].first, windows[i].end) != ""
    ensures |Fetched(fetch, windows)| == |windows|
    ensures forall i | 0 <= i < |windows| :: Fetched(fetch, windows)[i] == fetch(windows[i].first, windows[i].end)
  {
    if windows != [] { AllFetched(fetch, windows[..|windows| - 1]); }
  }

  /** Every slice of the tokens decodes, to some text. */
  ghost predicate Decodes(tokenizer: Tokenizer, tokens: seq<int>) {
    forall first: nat, end: nat :: first < end <= |tokens| ==>
      tokenizer.decode(tokens[first..end]).Some? && tokenizer.decode(tokens[first..end]).value != ""
  }

  /** Where piece i of n tokens begins. */
  function PieceStart(n: nat, window: nat, step: nat, i: nat): nat
    requires 1 <= step <= window
  {
    if i + 1 < PieceCount(n, window, step) then i * step else if n <= window then 0 else n - window
  }

  lemma WindowStarts(n: nat, window: nat, step: nat, i: nat)
    requires 1 <= step <= window && n > 0 && i < |Windows(n, window, step)|
    ensures |Windows(n, window, step)| == PieceCount(n, window, step)
    ensures var w := Windows(n, window, step)[i];
      w.first == PieceStart(n, window, step, i) && w.end == w.first + Min(window, n) <= n
  {
    WindowsCount(n, window, step);
    WindowsAre(n, window, step, i);
    hide Windows;
  }

  /** The tokens decode in every window of them. */
  lemma TokensDecode(tokenizer: Tokenizer, tokens: seq<int>, window: nat, step: nat)
    requires 1 <= step <= window && tokens != [] && Decodes(tokenizer, tokens)
    ensures var ws := Windows(|tokens|, window, step);
      && AllDecode(tokenizer, tokens, ws) && |ws| == PieceCount(|tokens|, window, step)
      && forall i | 0 <= i < |ws| ::
           DecodeOf(tokenizer, tokens)(ws[i].first, ws[i].end) != ""
           && ws[i].first == PieceStart(|tokens|, window, step, i)
           && ws[i].end == ws[i].first + Min(window, |tokens|) <= |tokens|
           && Some(DecodeOf(tokenizer, tokens)(ws[i].first, ws[i].end)) == tokenizer.decode(tokens[ws[i].first..ws[i].end])
  {
    var ws := Windows(|tokens|, window, step);
    WindowsCount(|tokens|, window, step);
    hide Windows, PieceStart;
    forall i | 0 <= i < |ws|
      ensures ws[i].first == PieceStart(|tokens|, window, step, i)
      ensures ws[i].first < ws[i].end == ws[i].first + Min(window, |tokens|) <= |tokens|
    {
      WindowStarts(|tokens|, window, step, i);
    }
  }

  lemma CutByTokens(tokenizer: Tokenizer, text: string, window: nat, step: nat, tokenIds: Option<seq<int>>)
    requires window >= 2 && step >= 1 && text != "" && TokensOf(tokenizer, text, tokenIds) != []
    requires var tokens := TokensOf(tokenizer, text, tokenIds);
      && AllDecode(tokenizer, tokens, Windows(|tokens|, window, step))
      && (|tokens| > window || |tokenizer.decode(tokens).Or(Some("")).value| <= window)
    ensures var tokens := TokensOf(tokenizer, text, tokenIds);
      Pieces(tokenizer, text, window, step, tokenIds)
        == Fetched(DecodeOf(tokenizer, tokens), Windows(|tokens|, window, step))
  {
    hide Windows, Fetched, TokensOf, AllDecode, DecodeOf;
  }

  /** A text of more tokens than the window, or that fits the window as text, is cut by tokens:
      one window, and one more for each further step. */
  lemma TokenPieces(tokenizer: Tokenizer, text: string, window: nat, step: nat, tokenIds: Option<seq<int>>)
    requires 1 <= step <= window && window >= 2 && text != ""
    requires TokensOf(tokenizer, text, tokenIds) != [] && Decodes(tokenizer, TokensOf(tokenizer, text, tokenIds))
    requires var tokens := TokensOf(tokenizer, text, tokenIds);
      |tokens| > window || |tokenizer.decode(tokens).Or(Some("")).value| <= window
    ensures var tokens := TokensOf(tokenizer, text, tokenIds);
      var pieces := Pieces(tokenizer, text, window, step, tokenIds);
      && |pieces| == PieceCount(|tokens|, window, step)
      && forall i :: 0 <= i < |pieces| ==>
           var first := PieceStart(|tokens|, window, step, i);
           first + Min(window, |tokens|) <= |tokens|
           && Some(pieces[i]) == tokenizer.decode(tokens[first..first + Min(window, |tokens|)])
  {
    hide *;
    var tokens := TokensOf(tokenizer, text, tokenIds);
    TokensDecode(tokenizer, tokens, window, step);
    CutByTokens(tokenizer, text, window, step, tokenIds);
    AllFetched(DecodeOf(tokenizer, tokens), Windows(|tokens|, window, step));
  }

  /** When encoding raises, or the tokens fit the window but their text does not, the text is
      cut by characters: that of the tokens, or the text itself. */
  lemma CharacterFallback(tokenizer: Tokenizer, text: string, window: nat, step: nat)
    requires 1 <= step <= window && window >= 2 && text != ""
    requires tokenizer.encode(text) == None
      || (tokenizer.encode(text).value != [] && |tokenizer.encode(text).value| <= window
          && |tokenizer.decode(tokenizer.encode(text).value).Or(Some("")).value| > window)
    ensures var source :=
        if tokenizer.encode(text) == None then text else tokenizer.decode(tokenizer.encode(text).value).Or(Some("")).value;
      InText(source, Windows(|source|, window, step))
      && Pieces(tokenizer, text, window, step, None) == Slices(source, Windows(|source|, window, step))
  {
    var source :=
      if tokenizer.encode(text) == None then text else tokenizer.decode(tokenizer.encode(text).value).Or(Some("")).value;
    WindowsInText(source, window, step);
    FetchedSlices(source, Windows(|source|, window, step));
    hide Windows, Fetched, Slices, AllDecode;
  }
}

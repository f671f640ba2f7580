/** Words of a text, and the two ways whitespace is normalised. */
module TextWords {
  import opened Seqs

  /** The characters Python's `isspace` and `\s` know as whitespace. */
  predicate IsSpace(c: char) {
    var code := c as int;
    || 0x09 <= code <= 0x0D || 0x1C <= code <= 0x20 || code == 0x85 || code == 0xA0 || code == 0x1680
    || 0x2000 <= code <= 0x200A || code == 0x2028 || code == 0x2029 || code == 0x202F || code == 0x205F || code == 0x3000
  }

  predicate EndsInSpace(s: string) {
    s != "" && IsSpace(s[|s| - 1])
  }

  predicate EndsInWord(s: string) {
    s != "" && !IsSpace(s[|s| - 1])
  }

  /** The last word, one character longer. */
  function Extend(words: seq<string>, c: char): (r: seq<string>)
    requires words != []
    ensures r != []
  {
    words[..|words| - 1] + [words[|words| - 1] + [c]]
  }

  /** The maximal runs of characters that are not whitespace. */
  function Words(s: string): (r: seq<string>)
    ensures EndsInWord(s) ==> r != []
  {
    if s == "" then []
    else
      var before, c := s[..|s| - 1], s[|s| - 1];
      if IsSpace(c) then Words(before)
      else if EndsInWord(before) then Extend(Words(before), c)
      else Words(before) + [[c]]
  }

  lemma WordsSnoc(s: string, c: char)
    ensures Words(s + [c]) == if IsSpace(c) then Words(s)
      else if EndsInWord(s) then Extend(Words(s), c) else Words(s) + [[c]]
    ensures EndsInWord(s + [c]) <==> !IsSpace(c)
  {
    assert (s + [c])[..|s|] == s;
    hide IsSpace, Extend;
  }

  lemma ExtendAppend(a: seq<string>, b: seq<string>, c: char)
    requires b != []
    ensures Extend(a + b, c) == a + Extend(b, c)
  {
  }

  lemma EndsAfter(a: string, b: string)
    requires b != "" || !EndsInWord(a)
    ensures EndsInWord(a + b) <==> EndsInWord(b)
  {
  }

  /** Two texts with whitespace between them have the words of both. */
  lemma {:induction false} WordsApart(a: string, b: string)
    requires !EndsInWord(a) || b == "" || IsSpace(b[0])
    ensures Words(a + b) == Words(a) + Words(b)
  {
    if b == "" {
      EmptyEnds(a);
      EmptyEnds(Words(a));
    } else {
      var rest, c := b[..|b| - 1], b[|b| - 1];
      SplitLast(b);
      Assoc(a, rest, [c]);
      assert rest != "" ==> rest[0] == b[0];
      hide Words, IsSpace, Extend;
      WordsApart(a, rest);
      WordsSnoc(a + rest, c);
      WordsSnoc(rest, c);
      if !IsSpace(c) {
        if rest == "" { EmptyEnds(a); }
        EndsAfter(a, rest);
        hide EndsInWord;
        if EndsInWord(rest) {
          ExtendAppend(Words(a), Words(rest), c);
        } else {
          Assoc(Words(a), Words(rest), [[c]]);
        }
      }
    }
  }

  // -------------------------------------------------------------------- trimming

  function TrimRight(s: string): string {
    if EndsInSpace(s) then TrimRight(s[..|s| - 1]) else s
  }

  function TrimLeft(s: string): string {
    if s != "" && IsSpace(s[0]) then TrimLeft(s[1..]) else s
  }

  function Strip(s: string): string {
    TrimLeft(TrimRight(s))
  }

  lemma {:induction false} TrimRightWords(s: string)
    ensures Words(TrimRight(s)) == Words(s)
  {
    if EndsInSpace(s) { TrimRightWords(s[..|s| - 1]); }
  }

  lemma OneSpace(c: char)
    requires IsSpace(c)
    ensures Words([c]) == []
  {
    assert [c][..0] == [];
  }

  lemma {:induction false} TrimLeftWords(s: string)
    ensures Words(TrimLeft(s)) == Words(s)
  {
    if s != "" && IsSpace(s[0]) {
      TrimLeftWords(s[1..]);
      WordsApart([s[0]], s[1..]);
      OneSpace(s[0]);
      assert [s[0]] + s[1..] == s;
      EmptyEnds(Words(s[1..]));
    }
  }

  /** Trimming loses no words. */
  lemma StripWords(s: string)
    ensures Words(Strip(s)) == Words(s)
  {
    TrimRightWords(s);
    TrimLeftWords(TrimRight(s));
  }

  lemma {:induction false} TrimRightEnds(s: string)
    ensures TrimRight(s) == "" || EndsInWord(TrimRight(s))
  {
    if EndsInSpace(s) { TrimRightEnds(s[..|s| - 1]); }
  }

  lemma {:induction false} TrimLeftEnds(s: string)
    requires s == "" || EndsInWord(s)
    ensures TrimLeft(s) == "" || EndsInWord(TrimLeft(s))
  {
    if s != "" && IsSpace(s[0]) { TrimLeftEnds(s[1..]); }
  }

  /** What is left after trimming holds a word, or is nothing. */
  lemma StrippedHasWord(s: string)
    ensures Strip(s) == "" <==> Words(s) == []
  {
    TrimRightEnds(s);
    TrimLeftEnds(TrimRight(s));
    StripWords(s);
  }

  // ------------------------------------------------------------------- collapsing

  /** Every run of whitespace becomes one blank. */
  function Collapse(s: string): string {
    if s == "" then ""
    else
      var before, c := s[..|s| - 1], s[|s| - 1];
      if !IsSpace(c) then Collapse(before) + [c]
      else if EndsInSpace(before) then Collapse(before)
      else Collapse(before) + " "
  }

  function Clean(s: string): string {
    Strip(Collapse(s))
  }

  lemma {:induction false} CollapseEnds(s: string)
    ensures (Collapse(s) == "" <==> s == "") && (EndsInWord(Collapse(s)) <==> EndsInWord(s))
  {
    if s != "" {
      CollapseEnds(s[..|s| - 1]);
    }
  }

  lemma {:induction false} CollapseWords(s: string)
    ensures Words(Collapse(s)) == Words(s)
  {
    if s != "" {
      var before, c := s[..|s| - 1], s[|s| - 1];
      CollapseWords(before);
      CollapseEnds(before);
      SplitLast(s);
      WordsSnoc(before, c);
      hide Words, Extend, IsSpace, EndsInWord, EndsInSpace;
      WordsSnoc(Collapse(before), c);
      WordsSnoc(Collapse(before), ' ');
      BlankIsSpace();
    }
  }

  lemma BlankIsSpace()
    ensures IsSpace(' ') && IsSpace('\n')
  {
  }

  /** Cleaning loses no words. */
  lemma CleanWords(s: string)
    ensures Words(Clean(s)) == Words(s)
  {
    CollapseWords(s);
    StripWords(Collapse(s));
  }

  lemma CleanHasWord(s: string)
    ensures Clean(s) == "" <==> Words(s) == []
  {
    CollapseWords(s);
    StrippedHasWord(Collapse(s));
  }

  // ------------------------------------------------------- what is left, exactly

  /** The words with one blank between neighbours. */
  function Blanked(words: seq<string>): string {
    if words == [] then ""
    else if |words| == 1 then words[0]
    else Blanked(words[..|words| - 1]) + " " + words[|words| - 1]
  }

  lemma {:induction false} BlankedExtend(words: seq<string>, c: char)
    requires words != []
    ensures Blanked(Extend(words, c)) == Blanked(words) + [c]
  {
    var rest, last := words[..|words| - 1], words[|words| - 1];
    assert Extend(words, c)[..|words| - 1] == rest;
    if |words| > 1 { Assoc(Blanked(rest) + " ", last, [c]); }
  }

  lemma {:induction false} BlankedMore(words: seq<string>, c: char)
    ensures Blanked(words + [[c]]) == if words == [] then [c] else Blanked(words) + " " + [c]
  {
    assert (words + [[c]])[..|words|] == words;
  }

  lemma {:induction false} TrimLeftSnoc(s: string, c: char)
    requires !IsSpace(c) || EndsInWord(s)
    ensures TrimLeft(s + [c]) == TrimLeft(s) + [c]
  {
    if s != "" && IsSpace(s[0]) {
      assert (s + [c])[1..] == s[1..] + [c];
      TrimLeftSnoc(s[1..], c);
    }
  }

  lemma CollapseSnoc(s: string, c: char)
    ensures Collapse(s + [c])
      == if !IsSpace(c) then Collapse(s) + [c] else if EndsInSpace(s) then Collapse(s) else Collapse(s) + " "
  {
    assert (s + [c])[..|s|] == s;
  }

  lemma OnlyBlank()
    ensures TrimLeft(" ") == "" && TrimLeft("") == "" && Collapse("") == "" && Words("") == []
  {
    assert " "[1..] == "";
  }

  /** Collapsed and trimmed on the left, a text is its words, and a blank if it ends in space. */
  lemma {:induction false} CollapsedLeft(s: string)
    ensures TrimLeft(Collapse(s)) == Blanked(Words(s)) + if EndsInSpace(s) && Words(s) != [] then " " else ""
  {
    if s == "" {
      OnlyBlank();
    } else {
      var before, c := s[..|s| - 1], s[|s| - 1];
      SplitLast(s);
      CollapsedLeft(before);
      CollapseSnoc(before, c);
      CollapseEnds(before);
      WordsSnoc(before, c);
      hide Words, Collapse, TrimLeft, Blanked, IsSpace;
      EmptyEnds(Blanked(Words(before)));
      if !IsSpace(c) {
        TrimLeftSnoc(Collapse(before), c);
        if EndsInWord(before) {
          BlankedExtend(Words(before), c);
        } else {
          BlankedMore(Words(before), c);
          LeftOfNew(before, c);
        }
      } else if !EndsInSpace(before) {
        SpaceAfterWord(before, c);
      }
    }
  }

  /** A new word after what ends in space, or after nothing. */
  lemma LeftOfNew(before: string, c: char)
    requires !EndsInWord(before)
    requires TrimLeft(Collapse(before))
      == Blanked(Words(before)) + if EndsInSpace(before) && Words(before) != [] then " " else ""
    ensures TrimLeft(Collapse(before)) + [c] == if Words(before) == [] then [c] else Blanked(Words(before)) + " " + [c]
  {
    if before == "" { OnlyBlank(); }
    if Words(before) == [] { assert Blanked(Words(before)) == ""; }
  }

  lemma SpaceAfterWord(before: string, c: char)
    requires IsSpace(c) && !EndsInSpace(before) && (EndsInWord(Collapse(before)) <==> EndsInWord(before))
    requires TrimLeft(Collapse(before)) == Blanked(Words(before))
    ensures TrimLeft(Collapse(before) + " ") == Blanked(Words(before)) + if Words(before) != [] then " " else ""
  {
    OnlyBlank();
    if before != "" {
      assert EndsInWord(before);
      hide TrimLeft, Blanked, Words, Collapse, IsSpace;
      TrimLeftSnoc(Collapse(before), ' ');
    } else {
      assert Collapse(before) + " " == " ";
      assert Blanked([]) + "" == "";
    }
  }

  lemma {:induction false} TrimRightSnoc(s: string)
    requires !EndsInSpace(s)
    ensures TrimRight(s) == s && TrimRight(s + " ") == s
  {
    BlankIsSpace();
    assert (s + " ")[..|s|] == s;
  }

  /** Cleaned, a text is its words with one blank between neighbours. */
  lemma CleanIsWords(s: string)
    ensures Clean(s) == Blanked(Words(s))
  {
    CollapsedLeft(s);
    CollapseEnds(s);
    hide Words, Blanked;
    if EndsInSpace(s) {
      var n := CollapsedEnd(s);
      SplitLast(Collapse(s));
      hide Collapse, TrimLeft, TrimRight, IsSpace;
      TrimRightSnoc(n);
      if EndsInWord(n) {
        TrimLeftSnoc(n, ' ');
      } else {
        OnlyBlank();
      }
      LeftEnds(n, Words(s), Collapse(s));
    } else {
      TrimRightSnoc(Collapse(s));
      EmptyEnds(Blanked(Words(s)));
    }
  }

  /** What is before the one blank that a text ending in space collapses to. */
  lemma {:induction false} CollapsedEnd(s: string) returns (n: string)
    requires EndsInSpace(s)
    ensures Collapse(s) == n + " " && !EndsInSpace(n)
  {
    var before, c := s[..|s| - 1], s[|s| - 1];
    if EndsInSpace(before) {
      n := CollapsedEnd(before);
    } else {
      n := Collapse(before);
      CollapseEnds(before);
    }
  }

  lemma LeftEnds(n: string, words: seq<string>, collapsed: string)
    requires collapsed == n + " " && !EndsInSpace(n)
    requires TrimLeft(collapsed) == Blanked(words) + if words != [] then " " else ""
    requires if EndsInWord(n) then TrimLeft(collapsed) == TrimLeft(n) + " " else TrimLeft(collapsed) == "" == TrimLeft(n)
    ensures TrimLeft(n) == Blanked(words)
  {
    if words == [] { assert Blanked(words) == ""; }
    if EndsInWord(n) { assert TrimLeft(n) == TrimLeft(collapsed)[..|TrimLeft(collapsed)| - 1]; }
  }

  /** Trimming takes exactly the whitespace around a text. */
  lemma {:induction false} StripIsCore(left: string, core: string, right: string)
    requires (forall i | 0 <= i < |left| :: IsSpace(left[i])) && (forall i | 0 <= i < |right| :: IsSpace(right[i]))
    requires core == "" || (!IsSpace(core[0]) && !IsSpace(core[|core| - 1]))
    ensures Strip(left + core + right) == core
  {
    if core == "" {
      assert left + core + right == "" + (left + right);
      TrimRightCore("", left + right);
      OnlyBlank();
    } else {
      TrimRightCore(left + core, right);
      TrimLeftCore(left, core);
    }
  }

  lemma {:induction false} TrimRightCore(core: string, right: string)
    requires !EndsInSpace(core) && forall i | 0 <= i < |right| :: IsSpace(right[i])
    ensures TrimRight(core + right) == core
  {
    if right == "" {
      EmptyEnds(core);
    } else {
      var n := |right| - 1;
      assert (core + right)[..|core + right| - 1] == core + right[..n] && (core + right)[|core + right| - 1] == right[n];
      assert TrimRight(core + right) == TrimRight(core + right[..n]);
      hide TrimRight, IsSpace;
      TrimRightCore(core, right[..n]);
    }
  }

  lemma {:induction false} TrimLeftCore(left: string, core: string)
    requires (core == "" || !IsSpace(core[0])) && forall i | 0 <= i < |left| :: IsSpace(left[i])
    ensures TrimLeft(left + core) == core
  {
    if left == "" {
      EmptyEnds(core);
    } else {
      assert (left + core)[1..] == left[1..] + core;
      assert TrimLeft(left + core) == TrimLeft(left[1..] + core);
      hide TrimLeft, IsSpace;
      TrimLeftCore(left[1..], core);
    }
  }
}

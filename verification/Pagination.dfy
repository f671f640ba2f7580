/** The paginators for plain text and for paragraphs: the same loop, another separator. */
module Pagination {
  import opened Seqs
  import opened TextWords

  datatype Page = Page(number: nat, text: string)

  const PAGE_LIMIT: nat := 8000

  /** The lines that hold anything, trimmed. */
  function NonBlank(lines: seq<string>): seq<string> {
    if lines == [] then []
    else
      var stripped := Strip(lines[|lines| - 1]);
      NonBlank(lines[..|lines| - 1]) + if stripped == "" then [] else [stripped]
  }

  function Join(parts: seq<string>, separator: char): string {
    if parts == [] then ""
    else if |parts| == 1 then parts[0]
    else Join(parts[..|parts| - 1], separator) + [separator] + parts[|parts| - 1]
  }

  function Flatten(groups: seq<seq<string>>): seq<string> {
    if groups == [] then [] else Flatten(groups[..|groups| - 1]) + groups[|groups| - 1]
  }

  predicate Overfull(group: seq<string>, separator: char) {
    |Join(group, separator)| > PAGE_LIMIT
  }

  /** No proper prefix is overfull: the page was cut as soon as it could be. */
  predicate Prompt(group: seq<string>, separator: char) {
    group != [] && !Overfull(group[..|group| - 1], separator)
  }

  /** The lines in order, cut into pages: every page but the last overfull, none before its
      last line. */
  ghost predicate Grouped(lines: seq<string>, separator: char, groups: seq<seq<string>>) {
    && Flatten(groups) == NonBlank(lines)
    && (forall i | 0 <= i < |groups| :: Prompt(groups[i], separator))
    && forall i | 0 <= i < |groups| - 1 :: Overfull(groups[i], separator)
  }

  ghost predicate PagesOf(groups: seq<seq<string>>, separator: char, pages: seq<Page>) {
    && |pages| == |groups|
    && forall i | 0 <= i < |pages| :: pages[i] == Page(i + 1, Clean(Join(groups[i], separator)))
  }

  /** The pages are the cleaned joins of such a cut. */
  ghost predicate Paginated(lines: seq<string>, separator: char, pages: seq<Page>) {
    exists groups :: Grouped(lines, separator, groups) && PagesOf(groups, separator, pages)
  }

  // ------------------------------------------------------------------------ loop

  lemma NonBlankSnoc(lines: seq<string>, line: string)
    ensures NonBlank(lines + [line]) == NonBlank(lines) + if Strip(line) == "" then [] else [Strip(line)]
  {
    assert (lines + [line])[..|lines|] == lines;
  }

  lemma JoinSnoc(parts: seq<string>, separator: char, part: string)
    requires parts != []
    ensures Join(parts + [part], separator) == Join(parts, separator) + [separator] + part
  {
    assert (parts + [part])[..|parts|] == parts;
  }

  lemma FlattenSnoc(groups: seq<seq<string>>, group: seq<string>)
    ensures Flatten(groups + [group]) == Flatten(groups) + group
  {
    assert (groups + [group])[..|groups|] == groups;
  }

  /** Lines that hold words, none of them at risk of being cleaned away. */
  ghost predicate Solid(parts: seq<string>) {
    forall p :: p in parts ==> p != "" && Words(p) != []
  }

  lemma StrippedSolid(line: string)
    requires Strip(line) != ""
    ensures Words(Strip(line)) != []
  {
    StrippedHasWord(line);
    StripWords(line);
  }

  lemma {:induction false} JoinWords(parts: seq<string>, separator: char)
    requires IsSpace(separator)
    ensures Words(Join(parts, separator)) == WordsOf(parts)
  {
    if |parts| == 1 {
      assert parts == [] + [parts[0]];
      WordsOfSnoc([], parts[0]);
      EmptyEnds(Words(parts[0]));
    } else if |parts| > 1 {
      var rest, last := parts[..|parts| - 1], parts[|parts| - 1];
      JoinWords(rest, separator);
      hide IsSpace, Words;
      WordsApart(Join(rest, separator) + [separator], last);
      WordsSnoc(Join(rest, separator), separator);
      SplitLast(parts);
      WordsOfSnoc(rest, last);
    }
  }

  /** The words of a list of texts, in order. */
  function WordsOf(parts: seq<string>): seq<string> {
    if parts == [] then [] else WordsOf(parts[..|parts| - 1]) + Words(parts[|parts| - 1])
  }

  lemma WordsOfSnoc(parts: seq<string>, part: string)
    ensures WordsOf(parts + [part]) == WordsOf(parts) + Words(part)
  {
    assert (parts + [part])[..|parts|] == parts;
  }

  lemma {:induction false} WordsOfAppend(a: seq<string>, b: seq<string>)
    ensures WordsOf(a + b) == WordsOf(a) + WordsOf(b)
  {
    if b == [] {
      EmptyEnds(a);
      EmptyEnds(WordsOf(a));
    } else {
      var rest, last := b[..|b| - 1], b[|b| - 1];
      SplitLast(b);
      Assoc(a, rest, [last]);
      hide WordsOf;
      WordsOfAppend(a, rest);
      WordsOfSnoc(a + rest, last);
      WordsOfSnoc(rest, last);
      Assoc(WordsOf(a), WordsOf(rest), Words(last));
    }
  }

  lemma {:induction false} SolidWords(parts: seq<string>)
    requires Solid(parts) && parts != []
    ensures WordsOf(parts) != []
  {
    assert parts[|parts| - 1] in parts;
  }

  /** A buffer that received a line is never cleaned away. */
  lemma SolidPage(parts: seq<string>, separator: char)
    requires Solid(parts) && parts != [] && IsSpace(separator)
    ensures Clean(Join(parts, separator)) != ""
  {
    SolidWords(parts);
    JoinWords(parts, separator);
    CleanHasWord(Join(parts, separator));
  }

  /** The state between lines: pages closed so far, and the lines in the buffer. */
  ghost predicate Filled(lines: seq<string>, separator: char, groups: seq<seq<string>>, current: seq<string>, buffer: string) {
    && buffer == Join(current, separator) && Solid(current)
    && Flatten(groups) + current == NonBlank(lines)
    && forall k | 0 <= k < |groups| :: Prompt(groups[k], separator) && Overfull(groups[k], separator)
  }

  lemma NotYetFilled(separator: char)
    ensures Filled([], separator, [], [], "") && !Overfull([], separator) && PagesOf([], separator, [])
  {
  }

  lemma BlankLine(lines: seq<string>, separator: char, groups: seq<seq<string>>, current: seq<string>, buffer: string,
                  line: string)
    requires Filled(lines, separator, groups, current, buffer) && Strip(line) == ""
    ensures Filled(lines + [line], separator, groups, current, buffer)
  {
    NonBlankSnoc(lines, line);
    EmptyEnds(NonBlank(lines));
    hide NonBlank, Flatten, Join, Solid, Prompt, Overfull, Strip;
  }

  lemma AddLine(lines: seq<string>, separator: char, groups: seq<seq<string>>, current: seq<string>, buffer: string,
                line: string)
    requires Filled(lines, separator, groups, current, buffer) && !Overfull(current, separator) && Strip(line) != ""
    ensures Filled(lines + [line], separator, groups, current + [Strip(line)],
                   (if buffer != "" then buffer + [separator] else buffer) + Strip(line))
    ensures Prompt(current + [Strip(line)], separator)
  {
    NonBlankSnoc(lines, line);
    StrippedSolid(line);
    Assoc(Flatten(groups), current, [Strip(line)]);
    GrowBuffer(current, separator, Strip(line));
    hide NonBlank, Flatten, Join, Solid, Prompt, Overfull, Strip;
  }

  lemma ClosePage(lines: seq<string>, separator: char, groups: seq<seq<string>>, current: seq<string>, buffer: string,
                  pages: seq<Page>)
    requires IsSpace(separator) && PagesOf(groups, separator, pages) && Prompt(current, separator)
    requires Filled(lines, separator, groups, current, buffer)
    ensures Clean(buffer) != ""
    ensures PagesOf(groups + [current], separator, pages + [Page(|pages| + 1, Clean(buffer))])
    ensures Overfull(current, separator) ==> Filled(lines, separator, groups + [current], [], "")
    ensures Flatten(groups + [current]) == NonBlank(lines)
  {
    SolidPage(current, separator);
    FlattenSnoc(groups, current);
    EmptyEnds(Flatten(groups + [current]));
    NotYetFilled(separator);
    hide NonBlank, Flatten, Join, Prompt, Overfull, Clean;
  }

  lemma LastPage(lines: seq<string>, separator: char, groups: seq<seq<string>>, current: seq<string>, buffer: string,
                 pages: seq<Page>)
    requires IsSpace(separator) && PagesOf(groups, separator, pages) && !Overfull(current, separator)
    requires Filled(lines, separator, groups, current, buffer)
    ensures var more := if Clean(buffer) != "" then [Page(|pages| + 1, Clean(buffer))] else [];
      var last := if Clean(buffer) != "" then [current] else [];
      PagesOf(groups + last, separator, pages + more) && Grouped(lines, separator, groups + last)
  {
    if current == [] {
      NothingToClean();
      EmptyEnds(Flatten(groups));
      EmptyEnds(groups);
      EmptyEnds(pages);
      assert buffer == "";
    } else {
      NotOverfullPrompt(current, separator);
      ClosePage(lines, separator, groups, current, buffer, pages);
    }
    hide NonBlank, Flatten, Join, Prompt, Overfull, Clean;
  }

  /** Both paginators; the separator is a blank for text lines, a line feed for paragraphs. */
  method Paginate(lines: seq<string>, separator: char) returns (pages: seq<Page>)
    requires IsSpace(separator)
    ensures Paginated(lines, separator, pages)
  {
    var buffer := "";
    var pageNumber := 1;
    pages := [];
    ghost var groups: seq<seq<string>> := [];
    ghost var current: seq<string> := [];
    NotYetFilled(separator);
    TakeNone(lines);
    var i := 0;
    while i < |lines|
      invariant 0 <= i <= |lines| && pageNumber == |pages| + 1
      invariant Filled(lines[..i], separator, groups, current, buffer) && !Overfull(current, separator)
      invariant PagesOf(groups, separator, pages)
    {
      var stripped := Strip(lines[i]);
      TakeOneMore(lines, i);
      i := i + 1;
      if stripped == "" {
        BlankLine(lines[..i - 1], separator, groups, current, buffer, lines[i - 1]);
        continue;
      }
      AddLine(lines[..i - 1], separator, groups, current, buffer, lines[i - 1]);
      if buffer != "" { buffer := buffer + [separator]; }
      buffer := buffer + stripped;
      current := current + [stripped];
      BufferIsJoin(lines[..i], separator, groups, current, buffer);
      if |buffer| > 8000 {
        hide *;
        var text := Clean(buffer);
        ClosePage(lines[..i], separator, groups, current, buffer, pages);
        if text != "" {
          pages := pages + [Page(pageNumber, text)];
          pageNumber := pageNumber + 1;
        }
        groups := groups + [current];
        buffer := "";
        current := [];
        NotYetFilled(separator);
      }
      hide *;
    }
    TakeAll(lines);
    LastPage(lines, separator, groups, current, buffer, pages);
    hide *;
    EmptyEnds(pages);
    EmptyEnds(groups);
    var remaining := Clean(buffer);
    if remaining != "" {
      pages := pages + [Page(pageNumber, remaining)];
      groups := groups + [current];
    }
    assert Grouped(lines, separator, groups) && PagesOf(groups, separator, pages);
    PaginatedBy(lines, separator, groups, pages);
  }

  lemma PaginatedBy(lines: seq<string>, separator: char, groups: seq<seq<string>>, pages: seq<Page>)
    requires Grouped(lines, separator, groups) && PagesOf(groups, separator, pages)
    ensures Paginated(lines, separator, pages)
  {
  }

  lemma BufferIsJoin(lines: seq<string>, separator: char, groups: seq<seq<string>>, current: seq<string>, buffer: string)
    requires Filled(lines, separator, groups, current, buffer)
    ensures Overfull(current, separator) <==> |buffer| > 8000
  {
  }

  lemma NothingToClean()
    ensures Clean("") == ""
  {
  }

  lemma JoinNothing(parts: seq<string>, separator: char)
    requires Solid(parts)
    ensures Join(parts, separator) == "" <==> parts == []
  {
    if |parts| == 1 { assert parts[0] in parts; }
  }

  lemma GrowBuffer(current: seq<string>, separator: char, part: string)
    requires Solid(current) && !Overfull(current, separator) && part != "" && Words(part) != []
    ensures Join(current + [part], separator)
         == (if Join(current, separator) != "" then Join(current, separator) + [separator] else "") + part
    ensures Solid(current + [part]) && Prompt(current + [part], separator)
  {
    hide Words;
    JoinNothing(current, separator);
    assert (current + [part])[..|current|] == current;
    if current != [] { JoinSnoc(current, separator, part); }
  }

  lemma NotOverfullPrompt(group: seq<string>, separator: char)
    requires group != [] && !Overfull(group, separator)
    ensures Prompt(group, separator)
  {
    JoinShorter(group, separator);
  }

  lemma JoinShorter(group: seq<string>, separator: char)
    requires group != []
    ensures |Join(group[..|group| - 1], separator)| <= |Join(group, separator)|
  {
  }

  // -------------------------------------------------------------------- guarantees

  /** Main result: the words of the pages in order are the words of the lines in order. */
  lemma WordsConserved(lines: seq<string>, separator: char, pages: seq<Page>)
    requires IsSpace(separator) && Paginated(lines, separator, pages)
    ensures PageWords(pages) == WordsOf(lines)
  {
    var groups :| Grouped(lines, separator, groups) && PagesOf(groups, separator, pages);
    GroupWords(groups, separator, pages);
    NonBlankWords(lines);
    hide *;
  }

  function PageWords(pages: seq<Page>): seq<string> {
    if pages == [] then [] else PageWords(pages[..|pages| - 1]) + Words(pages[|pages| - 1].text)
  }

  lemma {:induction false} GroupWords(groups: seq<seq<string>>, separator: char, pages: seq<Page>)
    requires IsSpace(separator) && PagesOf(groups, separator, pages)
    ensures PageWords(pages) == WordsOf(Flatten(groups))
  {
    if groups != [] {
      var n := |groups| - 1;
      GroupWords(groups[..n], separator, pages[..n]);
      hide IsSpace, Words, Clean, Join;
      CleanWords(Join(groups[n], separator));
      JoinWords(groups[n], separator);
      WordsOfAppend(Flatten(groups[..n]), groups[n]);
    }
  }

  lemma {:induction false} NonBlankWords(lines: seq<string>)
    ensures WordsOf(NonBlank(lines)) == WordsOf(lines)
  {
    if lines != [] {
      var n := |lines| - 1;
      NonBlankWords(lines[..n]);
      StripWords(lines[n]);
      StrippedHasWord(lines[n]);
      hide Words, Strip;
      if Strip(lines[n]) == "" {
        EmptyEnds(NonBlank(lines[..n]));
        EmptyEnds(WordsOf(lines[..n]));
      } else {
        WordsOfSnoc(NonBlank(lines[..n]), Strip(lines[n]));
      }
    }
  }

  /** Main result: pages are numbered 1, 2, 3, ..., none is empty, and every page but the
      last came from a buffer of more than 8000 characters. */
  lemma PagesWell(lines: seq<string>, separator: char, groups: seq<seq<string>>, pages: seq<Page>)
    requires IsSpace(separator) && Grouped(lines, separator, groups) && PagesOf(groups, separator, pages)
    ensures forall i | 0 <= i < |pages| :: pages[i].number == i + 1 && pages[i].text != ""
    ensures forall i | 0 <= i < |pages| - 1 :: |Join(groups[i], separator)| > 8000
  {
    forall i | 0 <= i < |pages| ensures pages[i].number == i + 1 && pages[i].text != "" {
      GroupSolid(lines, groups, i, separator);
      SolidPage(groups[i], separator);
    }
  }

  lemma {:induction false} NonBlankSolid(lines: seq<string>)
    ensures Solid(NonBlank(lines))
  {
    if lines != [] {
      NonBlankSolid(lines[..|lines| - 1]);
      if Strip(lines[|lines| - 1]) != "" { StrippedSolid(lines[|lines| - 1]); }
      hide Strip, Words;
    }
  }

  lemma {:induction false} FlattenHas(groups: seq<seq<string>>, i: nat)
    requires i < |groups|
    ensures forall p :: p in groups[i] ==> p in Flatten(groups)
  {
    if i < |groups| - 1 { FlattenHas(groups[..|groups| - 1], i); }
  }

  lemma GroupSolid(lines: seq<string>, groups: seq<seq<string>>, i: nat, separator: char)
    requires Grouped(lines, separator, groups) && i < |groups|
    ensures Solid(groups[i]) && groups[i] != []
  {
    NonBlankSolid(lines);
    FlattenHas(groups, i);
    hide Words, NonBlank, Flatten, Overfull;
  }

  // -------------------------------------------------------------------- uniqueness

  ghost predicate Greedy(groups: seq<seq<string>>, separator: char) {
    && (forall i | 0 <= i < |groups| :: Prompt(groups[i], separator))
    && forall i | 0 <= i < |groups| - 1 :: Overfull(groups[i], separator)
  }

  lemma {:induction false} FlattenCons(groups: seq<seq<string>>)
    requires groups != []
    ensures Flatten(groups) == groups[0] + Flatten(groups[1..])
  {
    if |groups| == 1 {
      AloneFlat(groups);
    } else {
      var n := |groups| - 1;
      hide *;
      FlattenCons(groups[..n]);
      RestAndLast(groups);
      FlattenSnoc(groups[..n][1..], groups[n]);
      SplitLast(groups);
      FlattenSnoc(groups[..n], groups[n]);
      Assoc(groups[0], Flatten(groups[..n][1..]), groups[n]);
    }
  }

  lemma AloneFlat(groups: seq<seq<string>>)
    requires groups != []
    ensures |groups| == 1 ==> Flatten(groups[1..]) == [] && Flatten(groups) == groups[0] + Flatten(groups[1..])
  {
    if |groups| == 1 {
      assert groups[..0] == [] && groups[1..] == [];
      EmptyEnds(groups[0]);
    }
  }

  lemma {:induction false} JoinPrefix(group: seq<string>, separator: char, n: nat)
    requires n <= |group|
    ensures |Join(group[..n], separator)| <= |Join(group, separator)|
  {
    if n == |group| {
      TakeAll(group);
    } else {
      JoinShorter(group, separator);
      JoinPrefix(group[..|group| - 1], separator, n);
      TakeOfTake(group, |group| - 1, n);
    }
  }

  /** A first page cannot be shorter than another first page of the same lines. */
  lemma FirstNotShorter(a: seq<seq<string>>, b: seq<seq<string>>, separator: char)
    requires Greedy(a, separator) && Greedy(b, separator) && a != [] && b != [] && Flatten(a) == Flatten(b)
    ensures |a[0]| >= |b[0]|
  {
    FlattenCons(a);
    FlattenCons(b);
    hide Flatten, Join, Overfull;
    if |a[0]| < |b[0]| {
      var n, m := |a[0]|, |b[0]|;
      assert a[0] == b[0][..n] by { assert a[0] == Flatten(a)[..n] && b[0] == Flatten(b)[..m]; }
      AloneFlat(a);
      TakeOfTake(b[0], m - 1, n);
      JoinPrefix(b[0][..m - 1], separator, n);
      PromptNotOverfull(b[0], separator, n);
    }
  }

  lemma NothingFlat()
    ensures Flatten([]) == []
  {
  }

  lemma PromptNotOverfull(group: seq<string>, separator: char, n: nat)
    requires Prompt(group, separator) && n < |group|
    ensures !Overfull(group[..n], separator)
  {
    JoinPrefix(group[..|group| - 1], separator, n);
    TakeOfTake(group, |group| - 1, n);
  }

  /** Main result: there is only one way to cut the lines into such pages. */
  lemma {:induction false} CutUnique(a: seq<seq<string>>, b: seq<seq<string>>, separator: char)
    requires Greedy(a, separator) && Greedy(b, separator) && Flatten(a) == Flatten(b)
    ensures a == b
  {
    if a == [] || b == [] {
      NothingFlat();
      if a != [] { FlattenCons(a); }
      if b != [] { FlattenCons(b); }
      hide Flatten, Overfull;
    } else {
      FirstNotShorter(a, b, separator);
      FirstNotShorter(b, a, separator);
      FlattenCons(a);
      FlattenCons(b);
      RestGreedy(a, separator);
      RestGreedy(b, separator);
      hide *;
      SameParts(a[0], Flatten(a[1..]), b[0], Flatten(b[1..]));
      CutUnique(a[1..], b[1..], separator);
      SplitFirst(a);
      SplitFirst(b);
    }
  }

  lemma SameParts(a: seq<string>, x: seq<string>, b: seq<string>, y: seq<string>)
    requires a + x == b + y && |a| == |b|
    ensures a == b && x == y
  {
    assert a == (a + x)[..|a|] && b == (b + y)[..|b|];
    assert x == (a + x)[|a|..] && y == (b + y)[|b|..];
  }

  lemma RestGreedy(groups: seq<seq<string>>, separator: char)
    requires Greedy(groups, separator) && groups != []
    ensures Greedy(groups[1..], separator)
  {
    hide Prompt, Overfull;
  }

  /** Main result: the lines determine the pages. */
  lemma PagesUnique(lines: seq<string>, separator: char, a: seq<Page>, b: seq<Page>)
    requires Paginated(lines, separator, a) && Paginated(lines, separator, b)
    ensures a == b
  {
    var f :| Grouped(lines, separator, f) && PagesOf(f, separator, a);
    var g :| Grouped(lines, separator, g) && PagesOf(g, separator, b);
    hide Flatten, NonBlank, Prompt, Overfull, Join, Clean;
    CutUnique(f, g, separator);
  }
}

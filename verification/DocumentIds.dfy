/** Decimal suffixes of document ids. */
module DocumentIds {
  import opened Options
  import opened Seqs

  predicate IsDigit(c: char) {
    '0' <= c <= '9'
  }

  function DigitOf(n: nat): char
    requires n < 10
  {
    '0' + n as char
  }

  function ValueOf(c: char): nat
    requires IsDigit(c)
  {
    (c - '0') as int
  }

  lemma DigitRoundTrip(n: nat)
    requires n < 10
    ensures IsDigit(DigitOf(n)) && ValueOf(DigitOf(n)) == n
  {
  }

  function Decimal(n: nat): (s: string)
    ensures s != ""
  {
    if n < 10 then [DigitOf(n)] else Decimal(n / 10) + [DigitOf(n % 10)]
  }

  predicate AllDigits(s: string) {
    forall i | 0 <= i < |s| :: IsDigit(s[i])
  }

  function Parse(s: string): nat
    requires AllDigits(s)
  {
    if s == "" then 0 else 10 * Parse(s[..|s| - 1]) + ValueOf(s[|s| - 1])
  }

  lemma {:induction false} DecimalParses(n: nat)
    ensures AllDigits(Decimal(n)) && Parse(Decimal(n)) == n
  {
    DigitRoundTrip(n % 10);
    if n >= 10 {
      DecimalParses(n / 10);
      assert Decimal(n)[..|Decimal(n)| - 1] == Decimal(n / 10);
    } else {
      assert Decimal(n)[..0] == "";
    }
  }

  /** Different numbers are written differently. */
  lemma DecimalInjective(m: nat, n: nat)
    requires Decimal(m) == Decimal(n)
    ensures m == n
  {
    DecimalParses(m);
    DecimalParses(n);
  }

  /** The longest run of digits at the end. */
  function TrailingDigits(s: string): (r: string)
    ensures AllDigits(r) && |r| <= |s|
  {
    if s != "" && IsDigit(s[|s| - 1]) then TrailingDigits(s[..|s| - 1]) + [s[|s| - 1]] else ""
  }

  function TrailingNumber(id: string): Option<nat> {
    if TrailingDigits(id) == "" then None else Some(Parse(TrailingDigits(id)))
  }

  lemma {:induction false} TrailingAfter(prefix: string, digits: string)
    requires AllDigits(digits) && (prefix == "" || !IsDigit(prefix[|prefix| - 1]))
    ensures TrailingDigits(prefix + digits) == digits
  {
    if digits == "" {
      EmptyEnds(prefix);
    } else {
      var n := |digits| - 1;
      TrailingAfter(prefix, digits[..n]);
      assert (prefix + digits)[..|prefix + digits| - 1] == prefix + digits[..n];
    }
  }

  /** A generated or suffixed id ends in exactly the number it was made from. */
  lemma NumberRoundTrip(prefix: string, n: nat)
    requires prefix == "" || !IsDigit(prefix[|prefix| - 1])
    ensures TrailingNumber(prefix + Decimal(n)) == Some(n)
  {
    DecimalParses(n);
    TrailingAfter(prefix, Decimal(n));
  }

  // ------------------------------------------------------------------- sanitising

  predicate IsPlain(c: char) {
    'A' <= c <= 'Z' || 'a' <= c <= 'z' || IsDigit(c) || c == '_' || c == '-'
  }

  /** Every run of other characters becomes one dash. */
  function Dashed(raw: string): string {
    if raw == "" then ""
    else
      var before, c := raw[..|raw| - 1], raw[|raw| - 1];
      if IsPlain(c) then Dashed(before) + [c]
      else if before != "" && !IsPlain(before[|before| - 1]) then Dashed(before)
      else Dashed(before) + "-"
  }

  predicate IsEdge(c: char) {
    c == '-' || c == '_'
  }

  function TrimEnd(s: string): string {
    if s != "" && IsEdge(s[|s| - 1]) then TrimEnd(s[..|s| - 1]) else s
  }

  function TrimStart(s: string): string {
    if s != "" && IsEdge(s[0]) then TrimStart(s[1..]) else s
  }

  function Base(raw: string): string {
    TrimStart(TrimEnd(Dashed(raw)))
  }

  predicate AllPlain(s: string) {
    forall i | 0 <= i < |s| :: IsPlain(s[i])
  }

  lemma {:induction false} DashedPlain(raw: string)
    ensures AllPlain(Dashed(raw))
  {
    if raw != "" { DashedPlain(raw[..|raw| - 1]); }
  }

  lemma {:induction false} TrimEndPlain(s: string)
    requires AllPlain(s)
    ensures AllPlain(TrimEnd(s)) && (TrimEnd(s) != "" ==> !IsEdge(TrimEnd(s)[|TrimEnd(s)| - 1]))
  {
    if s != "" && IsEdge(s[|s| - 1]) { TrimEndPlain(s[..|s| - 1]); }
  }

  lemma {:induction false} TrimStartPlain(s: string)
    requires AllPlain(s) && (s != "" ==> !IsEdge(s[|s| - 1]))
    ensures var t := TrimStart(s);
      AllPlain(t) && (t != "" ==> !IsEdge(t[0]) && !IsEdge(t[|t| - 1]))
  {
    if s != "" && IsEdge(s[0]) { TrimStartPlain(s[1..]); }
  }

  /** A base holds only letters, digits, dashes and underscores, and neither begins nor ends
      with the latter two. */
  lemma BasePlain(raw: string)
    ensures AllPlain(Base(raw)) && (Base(raw) != "" ==> !IsEdge(Base(raw)[0]) && !IsEdge(Base(raw)[|Base(raw)| - 1]))
  {
    DashedPlain(raw);
    TrimEndPlain(Dashed(raw));
    TrimStartPlain(TrimEnd(Dashed(raw)));
  }

  /** An id that is already plain stays as it is. */
  lemma {:induction false} PlainKept(raw: string)
    requires AllPlain(raw)
    ensures Dashed(raw) == raw
  {
    if raw != "" {
      PlainKept(raw[..|raw| - 1]);
      SplitLast(raw);
    }
  }

  /** Allowed characters only, with a letter or a digit at both ends. */
  predicate Kept(s: string) {
    s != "" && AllPlain(s) && !IsEdge(s[0]) && !IsEdge(s[|s| - 1])
  }

  predicate AllEdge(s: string) {
    forall i | 0 <= i < |s| :: IsEdge(s[i])
  }

  lemma {:induction false} TrimEndDrops(core: string, right: string)
    requires AllEdge(right) && (core == "" || !IsEdge(core[|core| - 1]))
    ensures TrimEnd(core + right) == core
  {
    if right == "" {
      EmptyEnds(core);
    } else {
      var n := |right| - 1;
      assert (core + right)[..|core + right| - 1] == core + right[..n] && (core + right)[|core + right| - 1] == right[n];
      assert TrimEnd(core + right) == TrimEnd(core + right[..n]);
      hide TrimEnd;
      TrimEndDrops(core, right[..n]);
    }
  }

  lemma {:induction false} TrimStartDrops(left: string, core: string)
    requires AllEdge(left) && (core == "" || !IsEdge(core[0]))
    ensures TrimStart(left + core) == core
  {
    if left == "" {
      EmptyEnds(core);
    } else {
      TrimStartDrops(left[1..], core);
      assert (left + core)[1..] == left[1..] + core;
    }
  }

  /** An id of allowed characters loses the dashes and underscores around it, and nothing else:
      between letters or digits it stays as it is. */
  lemma BaseStrips(left: string, core: string, right: string)
    requires AllEdge(left) && AllEdge(right) && Kept(core)
    ensures Base(left + core + right) == core && Base(core) == core
  {
    PlainKept(left + core + right);
    PlainKept(core);
    TrimEndDrops(left + core, right);
    TrimStartDrops(left, core);
    TrimEndDrops(core, "");
    TrimStartDrops("", core);
    EmptyEnds(core);
  }

  /** The substitution, one more character. */
  lemma {:induction false} DashedOneMore(s: string, c: char)
    ensures Dashed(s + [c])
      == if IsPlain(c) then Dashed(s) + [c]
         else if s != "" && !IsPlain(s[|s| - 1]) then Dashed(s) else Dashed(s) + "-"
  {
    assert (s + [c])[..|s|] == s;
  }

  lemma {:induction false} RunEnds(before: string, run: string)
    requires run != "" && (forall i | 0 <= i < |run| :: !IsPlain(run[i]))
    requires before == "" || IsPlain(before[|before| - 1])
    ensures Dashed(before + run) == Dashed(before) + "-"
  {
    hide Dashed, IsPlain;
    var n := |run| - 1;
    SplitLast(run);
    Assoc(before, run[..n], [run[n]]);
    DashedOneMore(before + run[..n], run[n]);
    if n == 0 {
      EmptyEnds(before);
      assert run[..n] == "";
    } else {
      RunEnds(before, run[..n]);
      assert (before + run[..n])[|before| + n - 1] == run[n - 1];
    }
  }

  /** A run of other characters between two parts becomes one dash. */
  lemma {:induction false} RunBecomesDash(before: string, run: string, after: string)
    requires run != "" && (forall i | 0 <= i < |run| :: !IsPlain(run[i]))
    requires before == "" || IsPlain(before[|before| - 1])
    requires after == "" || IsPlain(after[0])
    ensures Dashed(before + run + after) == Dashed(before) + "-" + Dashed(after)
  {
    hide Dashed, IsPlain;
    RunEnds(before, run);
    if after == "" {
      EmptyEnds(before + run);
      EmptyEnds(Dashed(before) + "-");
      NothingDashed();
    } else {
      var n := |after| - 1;
      RunBecomesDash(before, run, after[..n]);
      SplitLast(after);
      Assoc(before + run, after[..n], [after[n]]);
      if n > 0 { DashStays(before, run, after, n); }
      DashedAlike(before + run + after[..n], after[..n], after[n], Dashed(before) + "-");
    }
  }

  /** One more character has the same effect on both. */
  lemma {:induction false} DashedAlike(whole: string, part: string, c: char, prefix: string)
    requires Dashed(whole) == prefix + Dashed(part)
    requires if part == "" then IsPlain(c) else whole != "" && whole[|whole| - 1] == part[|part| - 1]
    ensures Dashed(whole + [c]) == prefix + Dashed(part + [c])
  {
    hide Dashed, IsPlain;
    DashedOneMore(whole, c);
    DashedOneMore(part, c);
    Assoc(prefix, Dashed(part), [c]);
    Assoc(prefix, Dashed(part), "-");
  }

  lemma NothingDashed()
    ensures Dashed("") == ""
  {
  }

  lemma DashStays(before: string, run: string, after: string, n: nat)
    requires 0 < n < |after|
    ensures var whole := before + run + after[..n];
      whole != "" && whole[|whole| - 1] == after[..n][n - 1]
  {
  }

  lemma NothingKept()
    ensures Base("") == "" && !Kept("")
  {
  }

  lemma KeptIsBase(raw: string)
    requires Kept(raw)
    ensures Base(raw) == raw
  {
    hide Base, Kept;
    BaseStrips("", raw, "");
  }

  // ------------------------------------------------------------------- candidates

  /** The n-th id tried for a base: the base, base-2, base-3, ... */
  function Candidate(base: string, n: nat): string {
    if n <= 1 then base else base + "-" + Decimal(n)
  }

  lemma CandidatesDiffer(base: string, m: nat, n: nat)
    requires 1 <= m && 1 <= n && Candidate(base, m) == Candidate(base, n)
    ensures m == n
  {
    if m > 1 && n > 1 {
      var prefix := base + "-";
      assert (prefix + Decimal(m))[|prefix|..] == Decimal(m);
      assert (prefix + Decimal(n))[|prefix|..] == Decimal(n);
      DecimalInjective(m, n);
    }
  }

  /** Candidates all taken are no more than the ids taking them. */
  lemma {:induction false} TakenCandidates(base: string, n: nat, ids: set<string>)
    requires forall k | 1 <= k <= n :: Candidate(base, k) in ids
    ensures n <= |ids|
  {
    if n > 0 {
      forall k | 1 <= k <= n - 1 ensures Candidate(base, k) in ids - {Candidate(base, n)} {
        if Candidate(base, k) == Candidate(base, n) { CandidatesDiffer(base, k, n); }
      }
      TakenCandidates(base, n - 1, ids - {Candidate(base, n)});
      assert Candidate(base, n) in ids;
    }
  }
}

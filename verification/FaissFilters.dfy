/** What a search may return: the filters field by field, and one tenant's documents apart
    from another's. */
module FaissFilters {
  import opened Options
  import opened FaissModel
  import opened FaissSearch

  /** A document belongs to its tenant, or when it names none, to its owner. */
  function TenantOf(p: Payload): string {
    if p.tenant != "" then p.tenant else p.owner
  }

  /** The part occurs in the text, with something before it and something after. */
  ghost predicate Occurs(part: string, text: string) {
    exists before: string, after: string :: text == before + part + after
  }

  lemma ContainsOccurs(text: string, part: string)
    ensures Contains(text, part) <==> Occurs(part, text)
  {
    if i :| 0 <= i <= |text| && PartAt(text, part, i) {
      assert text == text[..i] + part + text[i + |part|..];
    }
    if before: string, after: string :| text == before + part + after {
      assert text[|before|..] == part + after;
      assert PartAt(text, part, |before|);
    }
  }

  /** What a document may say when it is returned under filters that ask for something. */
  ghost predicate Wanted(f: Filters, p: Payload) {
    && (f.owner != "" ==> f.owner == p.owner)
    && (forall tag :: tag in f.tags ==> p.tags.Some? && tag in p.tags.value)
    && (f.actType != "" ==> f.actType == p.meta.actType)
    && (f.issuer != "" ==> Occurs(f.issuer, p.meta.issuer))
    && (f.regNumber != "" ==> f.regNumber == p.meta.regNumber)
    && (f.isActive == Some(true) ==> p.meta.isActive != Some(false))
    && (f.isActive == Some(false) ==> p.meta.isActive == Some(false))
    && (f.mode == Current ==> p.meta.isActive != Some(false))
    && (f.mode == Historical ==> p.meta.isActive != Some(true))
  }

  lemma OneOfThree(flag: Option<bool>)
    ensures flag == None || flag == Some(true) || flag == Some(false)
  {
    if flag.Some? {
      var value := flag.value;
      assert flag == Some(value);
    }
  }

  /** Exactly the tenant's documents with everything asked for pass. */
  lemma PassesIff(f: Filters, p: Payload)
    ensures Passes(f, p) <==> f.tenant == TenantOf(p) && Wanted(f, p)
  {
    ContainsOccurs(p.meta.issuer, f.issuer);
    hide Contains, Occurs;
    OneOfThree(f.isActive);
    OneOfThree(p.meta.isActive);
    assert (f.tags != {} ==> p.tags.Some? && f.tags <= p.tags.value)
      <==> forall tag :: tag in f.tags ==> p.tags.Some? && tag in p.tags.value;
  }

  // ---------------------------------------------------------------------- all hits

  /** The hits of any list of candidates are documents of the store that pass. */
  lemma {:induction false} MatchesPass(s: Store, f: Filters, candidates: seq<Candidate>, h: Hit)
    requires h in Matches(s, f, candidates)
    ensures h.id in s.ordered && h.payload == PayloadOf(s, h.id) && Passes(f, h.payload)
  {
    hide Passes, PayloadOf;
    var n := |candidates| - 1;
    if h in Matches(s, f, candidates[..n]) {
      MatchesPass(s, f, candidates[..n], h);
    }
  }

  lemma TakenIsIn(hits: seq<Hit>, n: nat, h: Hit)
    requires h in Take(hits, n)
    ensures h in hits
  {
  }

  /** Main result: every hit is a document of the tenant that was asked for, as stored, with
      everything else the filters ask for - whatever the index proposes. */
  lemma HitsAreWanted(s: Store, f: Filters, topK: int, ranking: seq<Candidate>, h: Hit)
    requires h in Answer(s, f, topK, ranking)
    ensures h.id in s.ordered && h.payload == PayloadOf(s, h.id)
    ensures TenantOf(h.payload) == f.tenant && Wanted(f, h.payload)
  {
    hide Matches, Passes, PayloadOf;
    TakenIsIn(Matches(s, f, Fetched(ranking, CandidateLimit(topK))), topK, h);
    MatchesPass(s, f, Fetched(ranking, CandidateLimit(topK)), h);
    PassesIff(f, h.payload);
  }

  /** Two tenants never see the same document. */
  lemma TenantsApart(s: Store, f: Filters, g: Filters, k: int, m: int, ranking: seq<Candidate>, other: seq<Candidate>,
                     a: Hit, b: Hit)
    requires f.tenant != g.tenant && a in Answer(s, f, k, ranking) && b in Answer(s, g, m, other)
    ensures a.id != b.id
  {
    hide Answer;
    HitsAreWanted(s, f, k, ranking, a);
    HitsAreWanted(s, g, m, other, b);
  }

  /** `current` and `historical` share only documents that do not say whether they are active. */
  lemma RevisionsApart(s: Store, f: Filters, k: int, m: int, ranking: seq<Candidate>, h: Hit)
    requires h in Answer(s, f.(mode := Current), k, ranking) || h in Answer(s, f.(mode := Historical), m, ranking)
    ensures h in Answer(s, f.(mode := Current), k, ranking) ==> h.payload.meta.isActive != Some(false)
    ensures h in Answer(s, f.(mode := Historical), m, ranking) ==> h.payload.meta.isActive != Some(true)
  {
    hide Answer;
    if h in Answer(s, f.(mode := Current), k, ranking) { HitsAreWanted(s, f.(mode := Current), k, ranking, h); }
    if h in Answer(s, f.(mode := Historical), m, ranking) { HitsAreWanted(s, f.(mode := Historical), m, ranking, h); }
  }

  // ------------------------------------------------------- what an answer depends on

  /** The stores hold the same ids in the same order, and the same payloads where either has
      one of the tenant. */
  ghost predicate SameForTenant(s: Store, t: Store, tenant: string) {
    && s.ordered == t.ordered
    && forall id :: id in s.ordered && (TenantOf(PayloadOf(s, id)) == tenant || TenantOf(PayloadOf(t, id)) == tenant) ==>
         PayloadOf(s, id) == PayloadOf(t, id)
  }

  lemma SameCandidate(s: Store, t: Store, f: Filters, c: Candidate)
    requires SameForTenant(s, t, f.tenant)
    ensures Accepts(s, f, c) <==> Accepts(t, f, c)
    ensures Accepts(s, f, c) ==> HitOf(s, c) == HitOf(t, c)
  {
    hide PayloadOf, Passes, Wanted;
    if 0 <= c.row < |s.ordered| {
      var id := s.ordered[c.row];
      assert id in s.ordered;
      PassesIff(f, PayloadOf(s, id));
      PassesIff(f, PayloadOf(t, id));
    }
  }

  lemma {:induction false} SameMatches(s: Store, t: Store, f: Filters, candidates: seq<Candidate>)
    requires SameForTenant(s, t, f.tenant)
    ensures Matches(s, f, candidates) == Matches(t, f, candidates)
  {
    if candidates != [] {
      var n := |candidates| - 1;
      SameMatches(s, t, f, candidates[..n]);
      SameCandidate(s, t, f, candidates[n]);
      hide Accepts, HitOf, SameForTenant;
    }
  }

  /** Main result: an answer does not depend on what other tenants store under the same ids. */
  lemma OtherTenantsDoNotMatter(s: Store, t: Store, f: Filters, topK: int, ranking: seq<Candidate>)
    requires SameForTenant(s, t, f.tenant)
    ensures Answer(s, f, topK, ranking) == Answer(t, f, topK, ranking)
  {
    hide Matches, SameForTenant;
    if topK > 0 { SameMatches(s, t, f, Fetched(ranking, CandidateLimit(topK))); }
  }

  // -------------------------------------------------------------------- nothing lost

  /** Nothing but the tenant is asked for. */
  predicate TenantOnly(f: Filters) {
    && f.owner == "" && f.tags == {} && f.actType == "" && f.issuer == "" && f.regNumber == ""
    && f.isActive == None && f.mode == AnyRevision
  }

  lemma {:induction false} MatchFound(s: Store, f: Filters, ranking: seq<Candidate>, p: nat)
    requires p < |ranking| && Accepts(s, f, ranking[p])
    ensures HitOf(s, ranking[p]) in Matches(s, f, ranking)
  {
    hide Accepts, HitOf;
    var n := |ranking| - 1;
    if p < n { MatchFound(s, f, ranking[..n], p); }
  }

  /** Every ranked document of the tenant with everything asked for is among the matches, and
      with nothing else asked for, every ranked document of the tenant. */
  lemma WantedAreFound(s: Store, f: Filters, ranking: seq<Candidate>, p: nat)
    requires p < |ranking| && 0 <= ranking[p].row < |s.ordered|
    ensures var payload := PayloadOf(s, s.ordered[ranking[p].row]);
      && (TenantOf(payload) == f.tenant && Wanted(f, payload) ==> HitOf(s, ranking[p]) in Matches(s, f, ranking))
      && (TenantOnly(f) ==> Wanted(f, payload))
  {
    var payload := PayloadOf(s, s.ordered[ranking[p].row]);
    PassesIff(f, payload);
    hide Passes, Matches;
    if TenantOf(payload) == f.tenant && Wanted(f, payload) { MatchFound(s, f, ranking, p); }
  }

  /** Twenty candidates are fetched for each hit asked for, and no more: when none of those
      passes, nothing is returned, whatever comes after them. */
  lemma BeyondLimitLost(s: Store, f: Filters, topK: nat, ranking: seq<Candidate>)
    requires forall p :: 0 <= p < |ranking| && p < 20 * topK ==> !Accepts(s, f, ranking[p])
    ensures Answer(s, f, topK, ranking) == []
  {
    if topK > 0 {
      var candidates := Fetched(ranking, CandidateLimit(topK));
      forall c | c in candidates ensures !Accepts(s, f, c) {
        var p :| 0 <= p < |candidates| && candidates[p] == c;
        assert p < |ranking| ==> ranking[p] == c;
      }
      hide Accepts, Fetched;
      NoneMatch(s, f, candidates);
    }
  }

  lemma {:induction false} NoneMatch(s: Store, f: Filters, candidates: seq<Candidate>)
    requires forall c :: c in candidates ==> !Accepts(s, f, c)
    ensures Matches(s, f, candidates) == []
  {
    hide Accepts;
    if candidates != [] {
      assert candidates[|candidates| - 1] in candidates;
      NoneMatch(s, f, candidates[..|candidates| - 1]);
    }
  }

  // ------------------------------------------------------------------------- identity

  /** Chunks with one digest are one document, whatever their ids: the last one's payload. */
  lemma SameDigestOneDocument(s: Store, c: Chunk, d: Chunk)
    requires c.sha256 == d.sha256 != ""
    ensures var end := PutChunks(s, [c, d]);
      && end.1 && c.sha256 in end.0.payloads.items && end.0.payloads.items[c.sha256] == d.payload
      && forall id :: id in end.0.payloads.items && id !in s.payloads.items ==> id == c.sha256
  {
    TwoChunks(s, c, d);
  }

  /** Without a digest the id decides. */
  lemma IdsDecide(s: Store, c: Chunk, d: Chunk)
    requires c.sha256 == d.sha256 == "" && c.id != "" && d.id != "" && c.id != d.id
    ensures var end := PutChunks(s, [c, d]);
      && end.1 && c.id in end.0.payloads.items && end.0.payloads.items[c.id] == c.payload
      && d.id in end.0.payloads.items && end.0.payloads.items[d.id] == d.payload
  {
    TwoChunks(s, c, d);
  }

  lemma TwoChunks(s: Store, c: Chunk, d: Chunk)
    requires Identifier(c) != "" && Identifier(d) != ""
    ensures PutChunks(s, [c, d]) == (PutChunk(PutChunk(s, c), d), true)
  {
    assert [c, d][1..] == [d] && [d][1..] == [];
    assert PutChunks(s, [c, d]) == PutChunks(PutChunk(s, c), [d]);
    assert PutChunks(PutChunk(s, c), [d]) == PutChunks(PutChunk(PutChunk(s, c), d), []);
  }
}

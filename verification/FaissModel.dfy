/** The FAISS store as a value: three in-memory parts mirrored by three files. */
module FaissModel {
  import opened Options
  import opened Seqs

  type Vec = seq<real>

  /** Text fields are as the filters compare them: trimmed and lower-cased. */
  datatype Meta = Meta(actType: string, issuer: string, regNumber: string, isActive: Option<bool>)

  datatype Payload = Payload(text: string, tenant: string, owner: string, tags: Option<set<string>>, meta: Meta)

  datatype Chunk = Chunk(sha256: string, id: string, payload: Payload)

  datatype Entry = Entry(id: string, payload: Payload)

  /** An insertion-ordered dictionary. */
  datatype Dict = Dict(items: map<string, Payload>, order: seq<string>)

  datatype MappingFile = Ids(ids: seq<string>) | NotAList

  datatype Disk = Disk(payloads: Option<seq<Entry>>, mapping: Option<MappingFile>, index: Option<seq<Vec>>)

  datatype Store = Store(disk: Disk, payloads: Dict, ordered: seq<string>, index: Option<seq<Vec>>)

  const EMPTY: Dict := Dict(map[], [])

  /** A new process on the files as they are. */
  function Restart(disk: Disk): Store {
    Store(disk, EMPTY, [], None)
  }

  // ------------------------------------------------------------- dictionaries

  ghost predicate Distinct(ids: seq<string>) {
    forall i, j :: 0 <= i < j < |ids| ==> ids[i] != ids[j]
  }

  ghost predicate GoodDict(d: Dict) {
    Distinct(d.order) && forall id :: id in d.items <==> id in d.order
  }

  function Put(d: Dict, id: string, p: Payload): Dict {
    Dict(d.items[id := p], if id in d.items then d.order else d.order + [id])
  }

  function Entries(d: Dict): (r: seq<Entry>)
    requires forall id :: id in d.order ==> id in d.items
    ensures |r| == |d.order|
    ensures forall i :: 0 <= i < |r| ==> r[i] == Entry(d.order[i], d.items[d.order[i]])
  {
    seq(|d.order|, i requires 0 <= i < |d.order| => Entry(d.order[i], d.items[d.order[i]]))
  }

  function FromEntries(entries: seq<Entry>): Dict {
    if entries == [] then EMPTY
    else
      var last := entries[|entries| - 1];
      Put(FromEntries(entries[..|entries| - 1]), last.id, last.payload)
  }

  /** The dictionary holds exactly these keys, in this order, as the other one has them. */
  ghost predicate PartOf(r: Dict, d: Dict, ids: seq<string>) {
    && r.order == ids && (forall id :: id in r.items <==> id in ids)
    && forall id :: id in r.items ==> id in d.items && r.items[id] == d.items[id]
  }

  lemma PutPart(r: Dict, d: Dict, ids: seq<string>, id: string)
    requires PartOf(r, d, ids) && id !in ids && id in d.items
    ensures PartOf(Put(r, id, d.items[id]), d, ids + [id])
  {
  }

  lemma TakeKey(ids: seq<string>, n: nat)
    requires Distinct(ids) && 0 < n <= |ids|
    ensures ids[..n] == ids[..n - 1] + [ids[n - 1]] && ids[n - 1] !in ids[..n - 1]
  {
  }

  lemma FromEntriesLast(entries: seq<Entry>, n: nat)
    requires 0 < n <= |entries|
    ensures FromEntries(entries[..n]) == Put(FromEntries(entries[..n - 1]), entries[n - 1].id, entries[n - 1].payload)
  {
    assert entries[..n][..n - 1] == entries[..n - 1];
    hide Put;
  }

  lemma {:induction false} FromEntriesPrefix(d: Dict, n: nat)
    requires GoodDict(d) && n <= |d.order|
    ensures PartOf(FromEntries(Entries(d)[..n]), d, d.order[..n])
  {
    if n > 0 {
      FromEntriesPrefix(d, n - 1);
      FromEntriesLast(Entries(d), n);
      TakeKey(d.order, n);
      hide FromEntries, PartOf, Put, Distinct;
      PutPart(FromEntries(Entries(d)[..n - 1]), d, d.order[..n - 1], d.order[n - 1]);
    }
  }

  lemma WholeIsSame(r: Dict, d: Dict)
    requires PartOf(r, d, d.order) && forall id :: id in d.items <==> id in d.order
    ensures r == d
  {
    assert r.items.Keys == d.items.Keys;
    assert r.items == d.items;
  }

  /** payloads.json reads back as what was written. */
  lemma PayloadsRoundTrip(d: Dict)
    requires GoodDict(d)
    ensures FromEntries(Entries(d)) == d
  {
    hide FromEntries, PartOf, Distinct;
    FromEntriesPrefix(d, |d.order|);
    TakeAll(Entries(d));
    TakeAll(d.order);
    WholeIsSame(FromEntries(Entries(d)), d);
  }

  // -------------------------------------------------------------- load and save

  function KeepKnown(ids: seq<string>, d: Dict): (r: seq<string>)
    ensures (forall id :: id in ids ==> id in d.items) ==> r == ids
  {
    if ids == [] then [] else (if ids[0] in d.items then [ids[0]] else []) + KeepKnown(ids[1..], d)
  }

  function DiskDict(disk: Disk): Dict {
    if disk.payloads.Some? then FromEntries(disk.payloads.value) else EMPTY
  }

  function DiskOrdered(disk: Disk): seq<string> {
    match disk.mapping
    case None => DiskDict(disk).order
    case Some(NotAList) => []
    case Some(Ids(ids)) => KeepKnown(ids, DiskDict(disk))
  }

  function LoadPayloads(s: Store): Store {
    s.(payloads := DiskDict(s.disk), ordered := DiskOrdered(s.disk))
  }

  function LoadIfEmpty(s: Store): Store {
    if s.payloads.items == map[] then LoadPayloads(s) else s
  }

  lemma {:induction false} KnownStay(ids: seq<string>, d: Dict, id: string)
    ensures id in KeepKnown(ids, d) <==> id in ids && id in d.items
  {
    if ids != [] {
      KnownStay(ids[1..], d, id);
      var first := ids[0];
      assert id in ids <==> id == first || id in ids[1..];
    }
  }

  /** A mapping is read line by line, whatever stands before or after. */
  lemma {:induction false} KnownJoin(a: seq<string>, b: seq<string>, d: Dict)
    ensures KeepKnown(a + b, d) == KeepKnown(a, d) + KeepKnown(b, d)
  {
    if a == [] {
      assert a + b == b;
    } else {
      assert (a + b)[1..] == a[1..] + b;
      KnownJoin(a[1..], b, d);
    }
  }

  /** What a new process counts as stored: with no mapping file every saved document, in the
      order of payloads.json; of a mapping the ids that have a payload, in its order; of one
      that is no list, nothing. */
  lemma LoadedIds(s: Store, ids: seq<string>, more: seq<string>, id: string)
    ensures var disk := s.disk;
      && (disk.mapping == None ==> LoadPayloads(s).ordered == LoadPayloads(s).payloads.order)
      && (disk.mapping == Some(NotAList) ==> LoadPayloads(s).ordered == [])
      && (disk.mapping == Some(Ids(ids)) ==>
            (id in LoadPayloads(s).ordered <==> id in ids && id in LoadPayloads(s).payloads.items))
      && LoadPayloads(s.(disk := disk.(mapping := Some(Ids(ids + more))))).ordered
           == LoadPayloads(s.(disk := disk.(mapping := Some(Ids(ids))))).ordered
            + LoadPayloads(s.(disk := disk.(mapping := Some(Ids(more))))).ordered
  {
    hide KeepKnown;
    KnownStay(ids, DiskDict(s.disk), id);
    KnownJoin(ids, more, DiskDict(s.disk));
  }

  function WritePayloads(s: Store): Store
    requires forall id :: id in s.payloads.order ==> id in s.payloads.items
  {
    s.(disk := s.disk.(payloads := Some(Entries(s.payloads))))
  }

  function WriteMapping(s: Store): Store {
    s.(disk := s.disk.(mapping := Some(Ids(s.ordered))))
  }

  function Rows(embed: string -> Vec, s: Store): (r: seq<Vec>)
    requires forall id :: id in s.ordered ==> id in s.payloads.items
    ensures |r| == |s.ordered|
    ensures forall i :: 0 <= i < |r| ==> r[i] == embed(s.payloads.items[s.ordered[i]].text)
  {
    seq(|s.ordered|, i requires 0 <= i < |s.ordered| => embed(s.payloads.items[s.ordered[i]].text))
  }

  function RebuildIndex(embed: string -> Vec, s: Store): Store
    requires forall id :: id in s.ordered ==> id in s.payloads.items
  {
    if s.ordered == [] then s.(disk := s.disk.(index := None), index := Some([]))
    else s.(disk := s.disk.(index := Some(Rows(embed, s))), index := Some(Rows(embed, s)))
  }

  function EnsureIndex(embed: string -> Vec, s: Store): Store
    requires s.index.None? ==> forall id :: id in LoadIfEmpty(s).ordered ==> id in LoadIfEmpty(s).payloads.items
  {
    if s.index.Some? then s
    else
      var s1 := LoadIfEmpty(s);
      if s1.disk.index.Some? then s1.(index := s1.disk.index) else RebuildIndex(embed, s1)
  }

  // ------------------------------------------------------------------ upsert

  function Identifier(c: Chunk): string {
    if c.sha256 != "" then c.sha256 else c.id
  }

  function PutChunk(s: Store, c: Chunk): Store {
    var id := Identifier(c);
    s.(payloads := Put(s.payloads, id, c.payload),
       ordered := if id in s.ordered then s.ordered else s.ordered + [id])
  }

  /** The loop over the batch: it stops, raising, at the first chunk without an identifier,
      and what the earlier chunks changed in memory stays. */
  function PutChunks(s: Store, chunks: seq<Chunk>): (Store, bool)
    decreases |chunks|
  {
    if chunks == [] then (s, true)
    else if Identifier(chunks[0]) == "" then (s, false)
    else PutChunks(PutChunk(s, chunks[0]), chunks[1..])
  }

  // ------------------------------------------------------------------ filters

  datatype Mode = AnyRevision | Current | Historical

  datatype Filters = Filters(
    tenant: string, owner: string, tags: set<string>, actType: string, issuer: string,
    regNumber: string, isActive: Option<bool>, mode: Mode)

  predicate PartAt(text: string, part: string, i: int) {
    0 <= i <= |text| - |part| && part <= text[i..]
  }

  predicate Contains(text: string, part: string) {
    exists i | 0 <= i <= |text| :: PartAt(text, part, i)
  }

  predicate Passes(f: Filters, p: Payload) {
    && (if p.tenant != "" then p.tenant else p.owner) == f.tenant
    && (f.owner != "" ==> p.owner == f.owner)
    && (f.tags != {} ==> p.tags.Some? && f.tags <= p.tags.value)
    && (f.actType != "" ==> p.meta.actType == f.actType)
    && (f.issuer != "" ==> Contains(p.meta.issuer, f.issuer))
    && (f.regNumber != "" ==> f.regNumber == p.meta.regNumber)
    && (f.isActive.Some? ==> p.meta.isActive.Or(Some(true)) == f.isActive)
    && (f.mode == Current ==> p.meta.isActive != Some(false))
    && (f.mode == Historical ==> p.meta.isActive != Some(true))
  }
}

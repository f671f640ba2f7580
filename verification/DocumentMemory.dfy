/** The document memory: id allocation over a table that only this class changes. */
module DocumentMemories {
  import opened Options
  import opened Seqs
  import opened DocumentIds

  datatype Document = Document(id: string, content: string, tags: seq<string>)

  /** The storage file: unreadable, or entries of which some do not describe a document. */
  datatype Storage = Missing | Unreadable | Entries(items: seq<Option<Document>>)

  /** Numbers at the end of stored ids stay below the counter. */
  ghost predicate Below(ids: set<string>, next: nat) {
    forall id :: id in ids && TrailingNumber(id).Some? ==> TrailingNumber(id).value < next
  }

  function DocumentsOf(items: seq<Option<Document>>): map<string, Document> {
    if items == [] then map[]
    else
      var before, last := DocumentsOf(items[..|items| - 1]), items[|items| - 1];
      if last.Some? then before[last.value.id := last.value] else before
  }

  predicate Describes(item: Option<Document>, id: string) {
    item.Some? && item.value.id == id
  }

  /** The last entry with an id is the one that is loaded, and no other id is. */
  lemma {:induction false} LastEntryWins(items: seq<Option<Document>>, id: string)
    ensures id in DocumentsOf(items) <==> exists i | 0 <= i < |items| :: Describes(items[i], id)
    ensures id in DocumentsOf(items) ==>
      exists i | 0 <= i < |items| ::
        && Describes(items[i], id) && DocumentsOf(items)[id] == items[i].value
        && forall j | i < j < |items| :: !Describes(items[j], id)
  {
    if items != [] {
      var n := |items| - 1;
      LastEntryWins(items[..n], id);
      assert forall i | 0 <= i < n :: items[..n][i] == items[i];
      if !Describes(items[n], id) && id in DocumentsOf(items[..n]) {
        var i :| 0 <= i < n && Describes(items[i], id) && DocumentsOf(items[..n])[id] == items[i].value
                 && forall j | i < j < n :: !Describes(items[..n][j], id);
        assert Describes(items[i], id);
      }
    }
  }

  class DocumentMemory {
    var documents: map<string, Document>
    var nextId: nat
    /** Every id stored since this process loaded the memory, removed ones included. */
    ghost var ever: set<string>

    ghost predicate Valid()
      reads this
    {
      && nextId >= 1
      && documents.Keys <= ever
      && Below(ever, nextId)
      && forall id :: id in documents ==> documents[id].id == id
    }

    constructor (storage: Storage)
      ensures Valid() && ever == documents.Keys
      ensures documents == if storage.Entries? then DocumentsOf(storage.items) else map[]
    {
      documents, nextId, ever := map[], 1, {};
      new;
      if storage.Entries? {
        var i := 0;
        while i < |storage.items|
          invariant 0 <= i <= |storage.items|
          invariant Valid() && ever == documents.Keys && documents == DocumentsOf(storage.items[..i])
        {
          TakeOneMore(storage.items, i);
          assert storage.items[..i + 1][..i] == storage.items[..i];
          match storage.items[i] {
            case None =>
            case Some(document) =>
              documents := documents[document.id := document];
              ever := ever + {document.id};
              UpdateCounterFromId(document.id);
          }
          i := i + 1;
        }
        TakeAll(storage.items);
      }
    }

    method UpdateCounterFromId(id: string)
      requires nextId >= 1
      modifies this`nextId
      ensures nextId >= old(nextId)
      ensures TrailingNumber(id).Some? ==> TrailingNumber(id).value < nextId
      ensures nextId != old(nextId) ==> TrailingNumber(id) == Some(nextId - 1)
    {
      var number := TrailingNumber(id);
      if number.Some? {
        var candidate := number.value + 1;
        if candidate > nextId { nextId := candidate; }
      }
    }

    /** The first candidate is always free - of every id ever stored, not only of those kept. */
    method GenerateId() returns (id: string)
      requires Valid()
      modifies this`nextId
      ensures id == "doc-" + Decimal(old(nextId)) && nextId == old(nextId) + 1
      ensures id !in ever && Valid() && Below(ever + {id}, nextId)
    {
      NumberRoundTrip("doc-", nextId);
      id := "";
      var found := false;
      while !found
        invariant if found then id == "doc-" + Decimal(old(nextId)) && nextId == old(nextId) + 1 && id !in ever
                  else nextId == old(nextId)
        decreases !found
      {
        id := "doc-" + Decimal(nextId);
        nextId := nextId + 1;
        found := id !in documents;
      }
    }

    /** At most one try more than there are documents; never an id in use. */
    method NormaliseId(raw: Option<string>) returns (id: string, ghost tries: nat)
      requires Valid()
      modifies this`nextId
      ensures id !in documents && tries <= |documents| + 1
      ensures Valid() && Below(ever + {id}, nextId) && nextId >= old(nextId)
      ensures raw == None || Base(raw.value) == "" ==> id == "doc-" + Decimal(old(nextId)) && id !in ever
      ensures raw.Some? && Base(raw.value) != "" ==>
        tries >= 1 && id == Candidate(Base(raw.value), tries)
        && forall k | 1 <= k < tries :: Candidate(Base(raw.value), k) in documents
      ensures raw.Some? && Kept(raw.value) && raw.value !in documents ==> id == raw.value
    {
      tries := 1;
      hide Base, Kept, Decimal;
      if raw.Some? && Kept(raw.value) { KeptIsBase(raw.value); }
      if raw == None || raw.value == "" {
        if raw.Some? { NothingKept(); }
        id := GenerateId();
        return;
      }
      var base := Base(raw.value);
      if base == "" {
        id := GenerateId();
        return;
      }
      var candidate := base;
      var counter := 1;
      while candidate in documents
        invariant nextId == old(nextId)
        invariant counter >= 1 && tries == counter && candidate == Candidate(base, counter)
        invariant forall k | 1 <= k < counter :: Candidate(base, k) in documents
        invariant counter <= |documents| + 1
        decreases |documents| + 1 - counter
      {
        TakenCandidates(base, counter, documents.Keys);
        counter := counter + 1;
        candidate := base + "-" + Decimal(counter);
        tries := counter;
      }
      UpdateCounterFromId(candidate);
      id := candidate;
    }

    method Add(raw: Option<string>, content: string, tags: seq<string>) returns (document: Document)
      requires Valid()
      modifies this
      ensures Valid() && document.content == content && document.tags == tags
      ensures document.id !in old(documents) && documents == old(documents)[document.id := document]
      ensures ever == old(ever) + {document.id}
      ensures raw == None || Base(raw.value) == "" ==> document.id !in old(ever)
      ensures raw.Some? && Kept(raw.value) && raw.value !in old(documents) ==> document.id == raw.value
    {
      var id, tries := NormaliseId(raw);
      document := Document(id, content, tags);
      documents := documents[id := document];
      ever := ever + {id};
    }

    method Remove(id: string) returns (removed: bool)
      requires Valid()
      modifies this`documents
      ensures Valid() && (removed <==> id in old(documents))
      ensures documents == old(documents) - {id}
    {
      if id !in documents { return false; }
      documents := documents - {id};
      return true;
    }
  }
}

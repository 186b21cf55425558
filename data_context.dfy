/** The document store: one collection of documents, loaded once at startup and
    replaced as a whole by each mutation. */
module DataContext {
  import opened Types
  import opened Collections
  import Constants

  /** What the storage key held when the store was created. */
  datatype StoredPayload =
    | NotStored                    // nothing saved under the key, or an empty string
    | Unreadable                   // reading the key or parsing its text threw
    | Stored(docs: seq<Document>)  // a saved collection that parsed

  /** The value handed to `importDatabase`, which is only checked for being an array. */
  datatype ImportPayload = DocumentArray(docs: seq<Document>) | NotAnArray

  datatype Result<T> = Ok(value: T) | Error(message: string)

  const InvalidFormatMessage: string := "Invalid data format: Expected an array of documents."

  /** The starting collection: what was saved if it parsed, the seed set otherwise. */
  function InitialDocuments(saved: StoredPayload): (docs: seq<Document>)
    ensures saved.Stored? ==> docs == saved.docs
    ensures !saved.Stored? ==> docs == Constants.MockDocuments
  {
    match saved
    case Stored(docs) => docs
    case _ => Constants.MockDocuments
  }

  /** `[doc, ...prev]`: the new document first, the old collection after it. */
  function Prepended(docs: seq<Document>, doc: Document): (r: seq<Document>)
    ensures |r| == |docs| + 1
    ensures r[0] == doc && r[1..] == docs
  {
    [doc] + docs
  }

  /** A property of a patch overrides the document's own when it is present. */
  function Override<T>(current: T, f: Field<T>): T {
    if f.Present? then f.value else current
  }

  /** `{ ...doc, ...patch }`: each property present in the patch is overwritten,
      every other property keeps its value. */
  function Merge(d: Document, patch: PartialDocument): (r: Document)
    ensures patch.id.Present? ==> r.id == patch.id.value
    ensures patch.id.Absent? ==> r.id == d.id
    ensures patch.title.Present? ==> r.title == patch.title.value
    ensures patch.title.Absent? ==> r.title == d.title
    ensures patch.category.Present? ==> r.category == patch.category.value
    ensures patch.category.Absent? ==> r.category == d.category
    ensures patch.date.Present? ==> r.date == patch.date.value
    ensures patch.date.Absent? ==> r.date == d.date
    ensures patch.description.Present? ==> r.description == patch.description.value
    ensures patch.description.Absent? ==> r.description == d.description
    ensures patch.content.Present? ==> r.content == patch.content.value
    ensures patch.content.Absent? ==> r.content == d.content
    ensures patch.tags.Present? ==> r.tags == patch.tags.value
    ensures patch.tags.Absent? ==> r.tags == d.tags
    ensures patch.locationData.Present? ==> r.locationData == patch.locationData.value
    ensures patch.locationData.Absent? ==> r.locationData == d.locationData
  {
    Document(
      Override(d.id, patch.id),
      Override(d.title, patch.title),
      Override(d.category, patch.category),
      Override(d.date, patch.date),
      Override(d.description, patch.description),
      Override(d.content, patch.content),
      Override(d.tags, patch.tags),
      Override(d.locationData, patch.locationData))
  }

  /** The empty patch changes nothing. */
  lemma MergeNoFields(d: Document)
    ensures Merge(d, NoFields) == d
  {
  }

  /** Applying the same patch twice is the same as applying it once. */
  lemma MergeIdempotent(d: Document, patch: PartialDocument)
    ensures Merge(Merge(d, patch), patch) == Merge(d, patch)
  {
  }

  /** `prev.map(doc => doc.id === id ? { ...doc, ...patch } : doc)`: same length and
      order; every record with the id is patched, every other record is unchanged. */
  function Updated(docs: seq<Document>, id: string, patch: PartialDocument): (r: seq<Document>)
    ensures |r| == |docs|
    ensures forall i :: 0 <= i < |docs| && docs[i].id != id ==> r[i] == docs[i]
    ensures forall i :: 0 <= i < |docs| && docs[i].id == id ==> r[i] == Merge(docs[i], patch)
  {
    seq(|docs|, i requires 0 <= i < |docs| => if docs[i].id == id then Merge(docs[i], patch) else docs[i])
  }

  /** Updating an id that no record has leaves the collection as it was. */
  lemma UpdatedAbsentId(docs: seq<Document>, id: string, patch: PartialDocument)
    requires forall d :: d in docs ==> d.id != id
    ensures Updated(docs, id, patch) == docs
  {
    var r := Updated(docs, id, patch);
    forall i | 0 <= i < |docs| ensures r[i] == docs[i] {
      assert docs[i] in docs;
    }
  }

  /** Repeating an update changes nothing more, even when the patch renames the
      records it matched. */
  lemma UpdatedIdempotent(docs: seq<Document>, id: string, patch: PartialDocument)
    ensures Updated(Updated(docs, id, patch), id, patch) == Updated(docs, id, patch)
  {
    var once := Updated(docs, id, patch);
    var twice := Updated(once, id, patch);
    forall i | 0 <= i < |docs| ensures twice[i] == once[i] {
      if docs[i].id == id {
        MergeIdempotent(docs[i], patch);
      }
    }
  }

  /** An update that does not touch ids keeps the ids unique. */
  lemma UpdatedKeepsUniqueIds(docs: seq<Document>, id: string, patch: PartialDocument)
    requires UniqueIds(docs) && patch.id.Absent?
    ensures UniqueIds(Updated(docs, id, patch))
  {
    var r := Updated(docs, id, patch);
    assert forall i :: 0 <= i < |docs| ==> r[i].id == docs[i].id;
  }

  /** `prev.filter(doc => doc.id !== id)`: no record with the id is left, every other
      record stays, as often as before and in its original order. */
  function Deleted(docs: seq<Document>, id: string): (r: seq<Document>)
    ensures forall d :: d in r ==> d.id != id
    ensures forall d :: d in docs && d.id != id ==> d in r
    ensures forall d: Document :: d.id != id ==> multiset(r)[d] == multiset(docs)[d]
    ensures IsSubsequence(r, docs)
  {
    Filter(docs, (d: Document) => d.id != id)
  }

  /** Deleting an id that no record has leaves the collection as it was. */
  lemma DeletedAbsentId(docs: seq<Document>, id: string)
    requires forall d :: d in docs ==> d.id != id
    ensures Deleted(docs, id) == docs
  {
    FilterKeepsAll(docs, (d: Document) => d.id != id);
  }

  /** Deleting twice is deleting once. */
  lemma DeletedIdempotent(docs: seq<Document>, id: string)
    ensures Deleted(Deleted(docs, id), id) == Deleted(docs, id)
  {
    DeletedAbsentId(Deleted(docs, id), id);
  }

  /** Adding a document whose id is new keeps the ids unique. */
  lemma PrependedKeepsUniqueIds(docs: seq<Document>, doc: Document)
    requires UniqueIds(docs)
    requires forall d :: d in docs ==> d.id != doc.id
    ensures UniqueIds(Prepended(docs, doc))
  {
    var r := Prepended(docs, doc);
    forall i, j | 0 <= i < j < |r| ensures r[i].id != r[j].id {
      assert r[j] == docs[j - 1];
      if i == 0 {
        assert docs[j - 1] in docs;
      } else {
        assert r[i] == docs[i - 1];
      }
    }
  }

  /** Deleting keeps unique ids unique. */
  lemma {:induction false} DeletedKeepsUniqueIds(docs: seq<Document>, id: string)
    requires UniqueIds(docs)
    ensures UniqueIds(Deleted(docs, id))
    decreases |docs|
  {
    if docs != [] {
      var rest := docs[1..];
      assert UniqueIds(rest) by {
        forall i, j | 0 <= i < j < |rest| ensures rest[i].id != rest[j].id {
          assert rest[i] == docs[i + 1] && rest[j] == docs[j + 1];
        }
      }
      DeletedKeepsUniqueIds(rest, id);
      if docs[0].id != id {
        assert Deleted(docs, id) == [docs[0]] + Deleted(rest, id);
        forall d | d in Deleted(rest, id) ensures d.id != docs[0].id {
          var k :| 0 <= k < |rest| && rest[k] == d;
          assert docs[k + 1] == d;
        }
        PrependedKeepsUniqueIds(Deleted(rest, id), docs[0]);
      } else {
        assert Deleted(docs, id) == Deleted(rest, id);
      }
    }
  }

  /** With unique ids, deleting an id that occurs removes exactly one record. */
  lemma {:induction false} DeletedUniqueRemovesOne(docs: seq<Document>, id: string)
    requires UniqueIds(docs)
    requires exists d :: d in docs && d.id == id
    ensures |Deleted(docs, id)| == |docs| - 1
    decreases |docs|
  {
    var rest := docs[1..];
    if docs[0].id == id {
      forall d | d in rest ensures d.id != id {
        var k :| 0 <= k < |rest| && rest[k] == d;
        assert docs[k + 1] == d;
      }
      DeletedAbsentId(rest, id);
      assert Deleted(docs, id) == Deleted(rest, id);
    } else {
      assert UniqueIds(rest) by {
        forall i, j | 0 <= i < j < |rest| ensures rest[i].id != rest[j].id {
          assert rest[i] == docs[i + 1] && rest[j] == docs[j + 1];
        }
      }
      var d :| d in docs && d.id == id;
      assert d in rest by {
        assert docs == [docs[0]] + rest;
      }
      DeletedUniqueRemovesOne(rest, id);
      assert Deleted(docs, id) == [docs[0]] + Deleted(rest, id);
    }
  }

  /** `importDatabase`: an array replaces the collection; anything else is refused. */
  function Imported(data: ImportPayload): (r: Result<seq<Document>>)
    ensures r.Ok? <==> data.DocumentArray?
    ensures r.Ok? ==> r.value == data.docs
    ensures r.Error? ==> r.message == InvalidFormatMessage
  {
    match data
    case DocumentArray(docs) => Ok(docs)
    case NotAnArray => Error(InvalidFormatMessage)
  }

  /** The store shared by every page. Saving to storage after each change is not
      part of this model: a failed save leaves this state as it is. */
  class DataStore {
    var documents: seq<Document>

    constructor (saved: StoredPayload)
      ensures documents == InitialDocuments(saved)
    {
      documents := InitialDocuments(saved);
    }

    method AddDocument(doc: Document)
      modifies this
      ensures documents == Prepended(old(documents), doc)
    {
      documents := Prepended(documents, doc);
    }

    method UpdateDocument(id: string, patch: PartialDocument)
      modifies this
      ensures documents == Updated(old(documents), id, patch)
    {
      documents := Updated(documents, id, patch);
    }

    method DeleteDocument(id: string)
      modifies this
      ensures documents == Deleted(old(documents), id)
    {
      documents := Deleted(documents, id);
    }

    /** Restores the seed set, but only when the user confirmed. */
    method ResetData(confirmed: bool)
      modifies this
      ensures confirmed ==> documents == Constants.MockDocuments
      ensures !confirmed ==> documents == old(documents)
    {
      if confirmed {
        documents := Constants.MockDocuments;
      }
    }

    /** Replaces the collection by an array, or raises the format error and leaves
        the collection untouched. */
    method ImportDatabase(data: ImportPayload) returns (r: Result<seq<Document>>)
      modifies this
      ensures r == Imported(data)
      ensures r.Ok? ==> documents == data.docs
      ensures r.Error? ==> documents == old(documents)
    {
      r := Imported(data);
      if r.Ok? {
        documents := r.value;
      }
    }
  }
}

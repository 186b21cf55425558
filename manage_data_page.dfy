/** The data management screen: a form that adds a document, a list that deletes
    documents after confirmation, and a restore from a backup file. */
module ManageDataPage {
  import opened Types
  import opened Text
  import opened Collections
  import opened DataContext
  import Constants

  const DocumentIdPrefix: string := "doc-"

  /** The form's values when the page opens and after each successful submit. */
  function DefaultForm(today: string): (form: PartialDocument)
    ensures !CanSubmit(form)
    ensures form.date == Present(today) && form.category == Present(Laws)
    ensures CurrentTags(form) == [] && form.id.Absent? && form.locationData.Absent?
  {
    PartialDocument(Absent, Present(""), Present(Laws), Present(today), Present(Some("")),
                    Present(""), Present(Some([])), Absent)
  }

  /** A submit goes ahead only with a non-empty title and a category. */
  predicate CanSubmit(form: PartialDocument)
    ensures form.title.Absent? || form.title == Present("") ==> !CanSubmit(form)
    ensures form.category.Absent? ==> !CanSubmit(form)
  {
    form.title.Present? && form.title.value != "" && form.category.Present?
  }

  /** `doc-${Date.now()}`. */
  function NewDocumentId(now: nat): (id: string)
    ensures |id| > |DocumentIdPrefix| && id[..|DocumentIdPrefix|] == DocumentIdPrefix
    ensures IsDigits(id[|DocumentIdPrefix|..])
  {
    DocumentIdPrefix + NatToString(now)
  }

  /** Documents submitted at different times get different ids. */
  lemma NewDocumentIdInjective(m: nat, n: nat)
    ensures NewDocumentId(m) == NewDocumentId(n) ==> m == n
  {
    if NewDocumentId(m) == NewDocumentId(n) {
      assert NatToString(m) == NewDocumentId(m)[|DocumentIdPrefix|..];
      assert NatToString(n) == NewDocumentId(n)[|DocumentIdPrefix|..];
      NatToStringInjective(m, n);
    }
  }

  /** No seed document has an id of the submitted form. */
  lemma NewDocumentIdNotSeeded(now: nat)
    ensures forall d :: d in Constants.MockDocuments ==> d.id != NewDocumentId(now)
  {
    var id := NewDocumentId(now);
    var seed := Constants.MockDocuments;
    assert id[0] == 'd' by { assert id[..|DocumentIdPrefix|][0] == id[0]; }
    Constants.MockDocumentsShape();
    forall i | 0 <= i < |seed| ensures seed[i].id != id {
      assert seed[i].id[0] != 'd';
    }
  }

  /** The tag list of the form, `prev.tags || []`. */
  function CurrentTags(form: PartialDocument): seq<string> {
    if form.tags.Present? && form.tags.value.Some? then form.tags.value.value else []
  }

  /** The record a submit builds: a time-based id, the title and category as
      entered, the date defaulting to today, the content to "" and the tags to an
      empty list, the description as entered and no location data. */
  function NewDocument(form: PartialDocument, now: nat, today: string): (d: Document)
    requires CanSubmit(form)
    ensures d.id == NewDocumentId(now) && d.title == form.title.value && d.category == form.category.value
    ensures d.title != ""
    ensures d.date == if form.date.Present? && form.date.value != "" then form.date.value else today
    ensures d.description == if form.description.Present? then form.description.value else None
    ensures d.content == if form.content.Present? then form.content.value else ""
    ensures d.tags == Some(CurrentTags(form))
    ensures d.locationData.None?
  {
    Document(
      NewDocumentId(now),
      form.title.value,
      form.category.value,
      if form.date.Present? && form.date.value != "" then form.date.value else today,
      if form.description.Present? then form.description.value else None,
      if form.content.Present? then form.content.value else "",
      Some(CurrentTags(form)),
      None)
  }

  /** `[...tags, input.trim()]`: the trimmed input goes last, the other tags keep
      their order. */
  function AppendedTag(tags: seq<string>, input: string): (r: seq<string>)
    requires Trim(input) != ""
    ensures |r| == |tags| + 1 && r[..|tags|] == tags
    ensures r[|tags|] == Trim(input)
    ensures r[|tags|] != "" && !IsWhitespace(r[|tags|][0]) && !IsWhitespace(r[|tags|][|r[|tags|]| - 1])
  {
    tags + [Trim(input)]
  }

  /** `tags.filter(t => t !== tag)`: every copy of the tag goes, the others stay in
      order and as often as before. */
  function RemovedTag(tags: seq<string>, tag: string): (r: seq<string>)
    ensures tag !in r
    ensures forall t :: t != tag ==> multiset(r)[t] == multiset(tags)[t]
    ensures IsSubsequence(r, tags)
  {
    Filter(tags, (t: string) => t != tag)
  }

  /** Removing a tag that was just added, and was not there before, restores the
      previous tags. */
  lemma RemoveUndoesAppend(tags: seq<string>, input: string)
    requires Trim(input) != "" && Trim(input) !in tags
    ensures RemovedTag(AppendedTag(tags, input), Trim(input)) == tags
  {
    var tag := Trim(input);
    FilterAppend(tags, tag, (t: string) => t != tag);
    FilterKeepsAll(tags, (t: string) => t != tag);
  }

  /** The shallow check a backup file must pass: an array that is empty, or whose
      first record has a non-empty id and title. It is stricter than the store's own
      check, so an accepted file never makes the store raise its format error. */
  function ImportAccepted(data: ImportPayload): (ok: bool)
    ensures ok ==> data.DocumentArray? && Imported(data) == Ok(data.docs)
    ensures data == DocumentArray([]) ==> ok
    ensures data.DocumentArray? && data.docs != [] && (data.docs[0].id == "" || data.docs[0].title == "") ==> !ok
  {
    data.DocumentArray? && (|data.docs| == 0 || (data.docs[0].id != "" && data.docs[0].title != ""))
  }

  /** Only the first record is looked at: a file whose later records lack ids or
      titles is still accepted. */
  lemma ImportCheckIsShallow(good: Document, rest: seq<Document>)
    requires good.id != "" && good.title != ""
    ensures ImportAccepted(DocumentArray([good] + rest))
  {
  }

  /** After a submit, a backup of the collection passes the import check and would
      restore exactly that collection. */
  lemma SubmittedCollectionReimports(docs: seq<Document>, form: PartialDocument, now: nat, today: string)
    requires CanSubmit(form)
    ensures var after := Prepended(docs, NewDocument(form, now, today));
            ImportAccepted(DocumentArray(after)) && Imported(DocumentArray(after)) == Ok(after)
  {
  }

  /** Submitting right after a reset keeps the ids unique. */
  lemma SubmitAfterResetKeepsUniqueIds(form: PartialDocument, now: nat, today: string)
    requires CanSubmit(form)
    ensures UniqueIds(Prepended(Constants.MockDocuments, NewDocument(form, now, today)))
  {
    Constants.MockDocumentsShape();
    NewDocumentIdNotSeeded(now);
    PrependedKeepsUniqueIds(Constants.MockDocuments, NewDocument(form, now, today));
  }

  /** What the user picked in the file dialog. */
  datatype ChosenFile =
    | NoFile                      // the dialog was cancelled
    | Unparsable                  // the file's text is not JSON
    | Parsed(data: ImportPayload)

  datatype ImportOutcome = NothingChosen | Rejected | Declined | Replaced

  /** The page's state: the entry form, the tag being typed, and the shared store. */
  class ManageForm {
    const store: DataStore
    var form: PartialDocument
    var tagInput: string

    constructor (store: DataStore, today: string)
      ensures this.store == store
      ensures form == DefaultForm(today) && tagInput == ""
    {
      this.store := store;
      form := DefaultForm(today);
      tagInput := "";
    }

    /** Adds the new document and clears the form, or does nothing when the title
        is empty or the category missing. */
    method HandleSubmit(now: nat, today: string) returns (added: bool)
      modifies this, store
      ensures added == CanSubmit(old(form))
      ensures added ==> store.documents == Prepended(old(store.documents), NewDocument(old(form), now, today))
      ensures added ==> form == DefaultForm(today) && tagInput == ""
      ensures !added ==> store.documents == old(store.documents) && form == old(form) && tagInput == old(tagInput)
    {
      added := CanSubmit(form);
      if added {
        store.AddDocument(NewDocument(form, now, today));
        form := DefaultForm(today);
        tagInput := "";
      }
    }

    /** Appends the trimmed input to the tags and clears the input, unless the input
        is only white space. */
    method HandleAddTag()
      modifies this
      ensures Trim(old(tagInput)) == "" ==> form == old(form) && tagInput == old(tagInput)
      ensures Trim(old(tagInput)) != "" ==>
        form == old(form).(tags := Present(Some(AppendedTag(CurrentTags(old(form)), old(tagInput)))))
        && tagInput == ""
    {
      if Trim(tagInput) != "" {
        form := form.(tags := Present(Some(AppendedTag(CurrentTags(form), tagInput))));
        tagInput := "";
      }
    }

    /** `prev.tags?.filter(t => t !== tag)`: a missing tag list stays missing. */
    method RemoveTag(tag: string)
      modifies this
      ensures tagInput == old(tagInput)
      ensures form == old(form).(tags := Present(
        if old(form).tags.Present? && old(form).tags.value.Some?
        then Some(RemovedTag(old(form).tags.value.value, tag)) else None))
    {
      var tags := if form.tags.Present? && form.tags.value.Some?
        then Some(RemovedTag(form.tags.value.value, tag)) else None;
      form := form.(tags := Present(tags));
    }

    /** Restores a backup: the store is replaced only by a file that parses, passes
        the import check and is confirmed. */
    method HandleImport(file: ChosenFile, confirmed: bool) returns (outcome: ImportOutcome)
      modifies store
      ensures outcome == NothingChosen <==> file.NoFile?
      ensures outcome == Rejected <==> file.Unparsable? || (file.Parsed? && !ImportAccepted(file.data))
      ensures outcome == Declined <==> file.Parsed? && ImportAccepted(file.data) && !confirmed
      ensures outcome == Replaced ==> store.documents == file.data.docs
      ensures outcome != Replaced ==> store.documents == old(store.documents)
    {
      match file
      case NoFile =>
        outcome := NothingChosen;
      case Unparsable =>
        outcome := Rejected;
      case Parsed(data) =>
        if !ImportAccepted(data) {
          outcome := Rejected;
        } else if !confirmed {
          outcome := Declined;
        } else {
          var r := store.ImportDatabase(data);
          outcome := Replaced;
        }
    }

    /** Deletes from the list only after confirmation. */
    method DeleteFromList(id: string, confirmed: bool)
      modifies store
      ensures confirmed ==> store.documents == Deleted(old(store.documents), id)
      ensures !confirmed ==> store.documents == old(store.documents)
    {
      if confirmed {
        store.DeleteDocument(id);
      }
    }
  }
}

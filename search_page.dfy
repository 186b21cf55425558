/** The global search: every document, optionally narrowed to one category, whose
    text fields contain the query. Nothing is listed until a query is typed. */
module SearchPage {
  import opened Types
  import opened Text
  import opened Collections
  import CategoryPage

  /** The filter value that places no category restriction. */
  const AllFilter: string := "all"

  /** Whether the search keeps `doc`: it must pass the category filter, the query
      must be non-empty, and the lower-cased title, description or a tag must
      contain the lower-cased query. The address is not searched. */
  predicate Keep(doc: Document, activeFilter: string, query: string)
    ensures Keep(doc, activeFilter, query) ==> query != ""
    ensures Keep(doc, activeFilter, query) ==> activeFilter == AllFilter || CategoryId(doc.category) == activeFilter
  {
    if activeFilter != AllFilter && CategoryId(doc.category) != activeFilter then false
    else if query == "" then false
    else CategoryPage.TextFieldsContain(doc, ToLower(query))
  }

  /** The search results: the documents kept, in collection order. */
  function FilteredDocs(docs: seq<Document>, activeFilter: string, query: string): (r: seq<Document>)
    ensures IsSubsequence(r, docs)
    ensures query == "" ==> r == []
    ensures activeFilter != AllFilter ==> forall d :: d in r ==> CategoryId(d.category) == activeFilter
    ensures forall d :: d in r <==> d in docs && Keep(d, activeFilter, query)
    ensures forall d :: multiset(r)[d] == if Keep(d, activeFilter, query) then multiset(docs)[d] else 0
  {
    Filter(docs, (d: Document) => Keep(d, activeFilter, query))
  }

  /** With the `all` filter, a document is found exactly when its text matches. */
  lemma AllFilterHasNoCategoryRestriction(docs: seq<Document>, query: string)
    ensures forall d :: d in FilteredDocs(docs, AllFilter, query) <==>
      d in docs && query != "" && CategoryPage.TextFieldsContain(d, ToLower(query))
  {
  }

  /** The location data never affects the verdict. */
  lemma AddressIgnored(doc: Document, activeFilter: string, query: string, loc: Option<LocationData>)
    ensures Keep(doc.(locationData := loc), activeFilter, query) == Keep(doc, activeFilter, query)
  {
  }

  /** The results under a category filter are a subsequence of the results under
      `all` for the same query. */
  lemma FilterNarrowsAll(docs: seq<Document>, activeFilter: string, query: string)
    ensures IsSubsequence(FilteredDocs(docs, activeFilter, query), FilteredDocs(docs, AllFilter, query))
  {
    FilterMonotone(docs, (d: Document) => Keep(d, activeFilter, query), (d: Document) => Keep(d, AllFilter, query));
  }

  /** The query's letter case does not matter. */
  lemma CaseInsensitive(docs: seq<Document>, activeFilter: string, query: string)
    ensures FilteredDocs(docs, activeFilter, ToLower(query)) == FilteredDocs(docs, activeFilter, query)
  {
    ToLowerIdempotent(query);
    FilterCongruent(docs, (d: Document) => Keep(d, activeFilter, ToLower(query)),
                    (d: Document) => Keep(d, activeFilter, query));
  }

  /** Searching within one category finds a subsequence of that category's listing
      for the same query. */
  lemma SearchWithinCategoryListing(docs: seq<Document>, c: CategoryType, query: string)
    ensures IsSubsequence(FilteredDocs(docs, CategoryId(c), query), CategoryPage.FilteredDocs(docs, CategoryId(c), query))
  {
    assert CategoryId(c) != AllFilter;
    FilterMonotone(docs, (d: Document) => Keep(d, CategoryId(c), query),
                   (d: Document) => CategoryPage.Keep(d, CategoryId(c), query));
  }

  /** For a non-empty query, the listing and the search of a category differ only
      in documents found by their address. */
  lemma ListingAndSearchAgreeWithoutAddress(doc: Document, c: CategoryType, query: string)
    requires query != ""
    requires doc.locationData.None? || !Contains(doc.locationData.value.address, ToLower(query))
    ensures CategoryPage.Keep(doc, CategoryId(c), query) == Keep(doc, CategoryId(c), query)
  {
    assert CategoryId(c) != AllFilter;
  }
}

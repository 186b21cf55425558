/** The category listing: the documents of one category, narrowed by a search box. */
module CategoryPage {
  import opened Types
  import opened Text
  import opened Collections
  import Constants

  /** The first entry of `table` whose category id is `id`. */
  function FindConfig(table: seq<CategoryConfig>, id: string): (r: Option<CategoryConfig>)
    ensures r.Some? ==> r.value in table && CategoryId(r.value.id) == id
    ensures r.None? ==> forall c :: c in table ==> CategoryId(c.id) != id
    ensures r.Some? ==> exists i :: 0 <= i < |table| && table[i] == r.value
                                    && forall j :: 0 <= j < i ==> CategoryId(table[j].id) != id
    decreases |table|
  {
    if table == [] then None
    else if CategoryId(table[0].id) == id then Some(table[0])
    else
      var r := FindConfig(table[1..], id);
      assert r.Some? ==> exists i :: 1 <= i < |table| && table[i] == r.value
                                     && forall j :: 0 <= j < i ==> CategoryId(table[j].id) != id by {
        if r.Some? {
          var k :| 0 <= k < |table[1..]| && table[1..][k] == r.value
                   && forall j :: 0 <= j < k ==> CategoryId(table[1..][j].id) != id;
          assert table[k + 1] == r.value;
          forall j | 0 <= j < k + 1 ensures CategoryId(table[j].id) != id {
            if j > 0 { assert table[j] == table[1..][j - 1]; }
          }
        }
      }
      r
  }

  /** `CATEGORIES.find(c => c.id === id)`: found exactly when the route names one of
      the five categories. */
  function FindCategory(id: string): (r: Option<CategoryConfig>)
    ensures r.Some? <==> exists c :: CategoryId(c) == id
    ensures r.Some? ==> r.value in Constants.Categories && CategoryId(r.value.id) == id
  {
    Constants.CategoriesFollowEnum();
    var r := FindConfig(Constants.Categories, id);
    assert forall c :: Constants.Categories[Constants.CategoryIndex(c)] in Constants.Categories;
    r
  }

  /** The text search shared by the category page and the global search: the
      lower-cased title, description or one of the tags contains `q`. A missing
      description or tag list contributes `false`. */
  predicate TextFieldsContain(d: Document, q: string) {
    Contains(ToLower(d.title), q)
    || (d.description.Some? && Contains(ToLower(d.description.value), q))
    || (d.tags.Some? && exists t :: t in d.tags.value && Contains(ToLower(t), q))
  }

  /** Whether the listing keeps `doc`: it must be in the category; an empty query
      keeps all of the category; otherwise the lower-cased title, description or a
      tag, or the address exactly as stored, must contain the lower-cased query. */
  predicate Keep(doc: Document, id: string, query: string)
    ensures Keep(doc, id, query) ==> CategoryId(doc.category) == id
    ensures CategoryId(doc.category) == id && query == "" ==> Keep(doc, id, query)
  {
    if CategoryId(doc.category) != id then false
    else if query == "" then true
    else
      var q := ToLower(query);
      TextFieldsContain(doc, q)
      || (doc.locationData.Some? && Contains(doc.locationData.value.address, q))
  }

  /** The listed documents: those kept, in collection order. */
  function FilteredDocs(docs: seq<Document>, id: string, query: string): (r: seq<Document>)
    ensures IsSubsequence(r, docs)
    ensures forall d :: d in r ==> CategoryId(d.category) == id
    ensures forall d :: d in r <==> d in docs && Keep(d, id, query)
    ensures forall d :: multiset(r)[d] == if Keep(d, id, query) then multiset(docs)[d] else 0
  {
    Filter(docs, (d: Document) => Keep(d, id, query))
  }

  /** What the page shows: a redirect home for an unknown category, otherwise the
      category's header and its filtered documents. */
  datatype View = RedirectHome | Listing(config: CategoryConfig, docs: seq<Document>)

  function Render(id: string, query: string, docs: seq<Document>): (v: View)
    ensures v.RedirectHome? <==> forall c :: CategoryId(c) != id
    ensures v.Listing? ==> CategoryId(v.config.id) == id && v.docs == FilteredDocs(docs, id, query)
    ensures v.Listing? ==> v.config in Constants.Categories && FindCategory(id) == Some(v.config)
  {
    match FindCategory(id)
    case None => RedirectHome
    case Some(config) => Listing(config, FilteredDocs(docs, id, query))
  }

  /** With an empty query the listing is exactly the category's documents. */
  lemma EmptyQueryListsCategory(docs: seq<Document>, id: string)
    ensures FilteredDocs(docs, id, "") == Filter(docs, (d: Document) => CategoryId(d.category) == id)
  {
    FilterCongruent(docs, (d: Document) => Keep(d, id, ""), (d: Document) => CategoryId(d.category) == id);
  }

  /** A document without description, tags or location data is found by its title
      alone. */
  lemma MissingFieldsCountAsNoMatch(doc: Document, id: string, query: string)
    requires doc.description.None? && doc.tags.None? && doc.locationData.None?
    requires query != ""
    ensures Keep(doc, id, query) <==> CategoryId(doc.category) == id && Contains(ToLower(doc.title), ToLower(query))
  {
  }

  /** The query's letter case does not matter for the title, description and tags. */
  lemma CaseInsensitive(docs: seq<Document>, id: string, query: string)
    ensures FilteredDocs(docs, id, ToLower(query)) == FilteredDocs(docs, id, query)
  {
    ToLowerIdempotent(query);
    FilterCongruent(docs, (d: Document) => Keep(d, id, ToLower(query)), (d: Document) => Keep(d, id, query));
  }

  /** The address is compared without lower-casing it: an address written with a
      capital letter is missed even by a query typed exactly as stored, while the
      same address in small letters is found. */
  lemma AddressIsNotLowerCased()
    ensures !Keep(Office("A"), "locations", "A")
    ensures Keep(Office("a"), "locations", "A")
  {
    assert ToLower("A") == "a";
    assert ToLower("x") == "x";
    assert !Contains("x", "a") by {
      assert "x"[..1][0] == 'x';
      assert !Contains("x"[1..], "a");
    }
    assert !Contains("A", "a") by {
      assert "A"[..1][0] == 'A';
      assert !Contains("A"[1..], "a");
    }
    assert Contains("a", "a");
  }

  /** A location document with title "x" and the given address. */
  function Office(address: string): Document {
    Document("o", "x", Locations, "2024-01-01", None, "", None, Some(LocationData(address, "1", "Cairo")))
  }
}

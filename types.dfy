/** The record types of the catalogue: a document, its optional office-location
    sub-record, the per-category display configuration and a partial document as
    used for patches and for the entry form. */
module Types {

  /** An optional value: a property that may be missing or `undefined`. */
  datatype Option<T> = None | Some(value: T)

  /** A property of a partial object: absent, or present with a value (which, for
      an optional property, may itself be `undefined`). */
  datatype Field<T> = Absent | Present(value: T)

  /** The five document categories, in their declaration order. */
  datatype CategoryType = Laws | Locations | Instructions | Decisions | Fatwas

  /** The string each category stands for in routes, filters and stored data. */
  function CategoryId(c: CategoryType): string {
    match c
    case Laws => "laws"
    case Locations => "locations"
    case Instructions => "instructions"
    case Decisions => "decisions"
    case Fatwas => "fatwas"
  }

  lemma CategoryIdInjective(c: CategoryType, d: CategoryType)
    ensures CategoryId(c) == CategoryId(d) ==> c == d
  {
  }

  datatype LocationData = LocationData(address: string, code: string, area: string)

  datatype Document = Document(
    id: string,
    title: string,
    category: CategoryType,
    date: string,
    description: Option<string>,
    content: string,
    tags: Option<seq<string>>,
    locationData: Option<LocationData>)

  /** No two documents of `docs` share an id. */
  predicate UniqueIds(docs: seq<Document>) {
    forall i, j :: 0 <= i < j < |docs| ==> docs[i].id != docs[j].id
  }

  /** The display configuration of one category (its icon is a rendering concern
      and is not part of this model). */
  datatype CategoryConfig = CategoryConfig(id: CategoryType, title: string, color: string, description: string)

  /** `Partial<Document>`: every property may be absent; an optional property may
      also be present and `undefined`. */
  datatype PartialDocument = PartialDocument(
    id: Field<string>,
    title: Field<string>,
    category: Field<CategoryType>,
    date: Field<string>,
    description: Field<Option<string>>,
    content: Field<string>,
    tags: Field<Option<seq<string>>>,
    locationData: Field<Option<LocationData>>)

  /** The empty object `{}`. */
  const NoFields: PartialDocument :=
    PartialDocument(Absent, Absent, Absent, Absent, Absent, Absent, Absent, Absent)
}

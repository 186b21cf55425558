# Expert Tax document library: a verified model of its core

Expert Tax is a single-page reference library of Egyptian tax documents: laws,
tax-office addresses, executive instructions, court decisions and research
fatwas. All pages share one in-memory collection of documents, held by a data
context. The collection starts from the browser's storage or from a built-in
seed set. The management page builds new records from a form and prepends them,
deletes records, resets the collection to the seed set and restores it from a
backup. The store also offers a patch by id, which no page currently calls. The
category listing and the global search filter the collection. The viewer looks
up one document by id and keeps a zoom and rotation state.

This project models that core in Dafny. It has one module per source file:

- `Types` (types.ts)
- `Constants` (constants.tsx)
- `DataContext` (context/DataContext.tsx)
- `CategoryPage`, `SearchPage`, `ManageDataPage` and `DocumentPage` (the pages)

Two helper modules sit beside them:

- `Text` models `toLowerCase`, `includes`, `trim` and the rendering of a number in a template literal.
- `Collections` models the array `filter`, with its order and multiplicity facts.

Where the source changes state, the model is a class:

- `DataContext.DataStore` holds the shared document collection.
- `ManageDataPage.ManageForm` holds the entry form and the tag being typed.
- `DocumentPage.Viewer` holds the zoom and rotation.

Each method assigns its field a pure function of the old value. That function carries the properties.

## Model

| member | source | states |
|---|---|---|
| Types.CategoryIdInjective | types.ts:3-9 | distinct categories have distinct string values |
| Text.ToLower | pages/CategoryPage.tsx:23 | lower-casing keeps the length and lower-cases each character (ASCII letters only) |
| Text.ToLowerIdempotent | pages/CategoryPage.tsx:23 | lower-casing an already lower-cased string changes nothing |
| Text.ContainsAt | pages/CategoryPage.tsx:25 | `includes` holds exactly when the query occurs at some offset of the text |
| Text.Trim | pages/ManageDataPage.tsx:56 | the trimmed string is a slice of the input with only white space before and after it; it neither starts nor ends with white space, and it is empty exactly when the input is all white space |
| Text.TrimCharacterised | pages/ManageDataPage.tsx:56 | any slice with only white space around it that is empty or has non-blank ends is the trimmed string, so the contract of `Trim` fixes its result |
| Text.NatToString | pages/ManageDataPage.tsx:30 | the decimal rendering of a number is a non-empty string of digits |
| Text.ParseNatToString | pages/ManageDataPage.tsx:30 | reading the decimal rendering back gives the number |
| Text.NatToStringInjective | pages/ManageDataPage.tsx:30 | distinct numbers render as distinct strings |
| Collections.Filter | context/DataContext.tsx:47 | `filter` keeps exactly the elements satisfying the predicate, each as often as before, in their original order, and never lengthens the array |
| Collections.FilterKeepsAll | pages/CategoryPage.tsx:20 | a predicate that holds of every element keeps the whole array |
| Collections.FilterCongruent | pages/CategoryPage.tsx:20 | predicates agreeing on the elements give the same result |
| Collections.FilterMonotone | pages/SearchPage.tsx:12 | a stronger predicate keeps a subsequence of what a weaker one keeps |
| Collections.FilterAppend | pages/ManageDataPage.tsx:213 | filtering an array with one element appended is filtering the array, then appending that element if it passes |
| Constants.CategoriesFollowEnum | constants.tsx:4-40 | the table has exactly five entries, one per category, in the enumeration's order |
| Constants.MockDocumentsShape | constants.tsx:43-129 | the seed set has eight documents with pairwise distinct ids |
| Constants.MockDocumentsWellFormed | constants.tsx:43-129 | every seed document has a non-empty id and title and a `YYYY-MM-DD` date |
| Constants.MockCategoriesConfigured | constants.tsx:43-129 | every seed document's category has an entry in the table |
| Constants.MockLocationsOnly | constants.tsx:64-89 | location data is present exactly on the two tax-office documents |
| DataContext.InitialDocuments | context/DataContext.tsx:18-26 | the start state is the saved collection when one parsed, the seed set when nothing was saved or reading failed |
| DataContext.DataStore.constructor | context/DataContext.tsx:18-26 | the store starts from `InitialDocuments` of the saved payload |
| DataContext.Prepended | context/DataContext.tsx:38-40 | adding gives a collection one longer whose head is the new document and whose tail is the old collection |
| DataContext.DataStore.AddDocument | context/DataContext.tsx:38-40 | the new collection is the old one with the document prepended |
| DataContext.Merge | context/DataContext.tsx:43 | each property present in the patch is overwritten, every absent one keeps the document's value |
| DataContext.MergeNoFields | context/DataContext.tsx:43 | the empty patch changes nothing |
| DataContext.MergeIdempotent | context/DataContext.tsx:43 | applying a patch twice equals applying it once |
| DataContext.Updated | context/DataContext.tsx:42-44 | an update keeps length and order, patches every record with the id (however many) and leaves every other record unchanged |
| DataContext.UpdatedAbsentId | context/DataContext.tsx:42-44 | updating an id no record has leaves the collection as it was |
| DataContext.UpdatedIdempotent | context/DataContext.tsx:42-44 | repeating an update changes nothing more, even when the patch renames the matched records |
| DataContext.UpdatedKeepsUniqueIds | context/DataContext.tsx:42-44 | a patch without an id keeps unique ids unique |
| DataContext.DataStore.UpdateDocument | context/DataContext.tsx:42-44 | the new collection is `Updated` of the old one |
| DataContext.Deleted | context/DataContext.tsx:46-48 | no record with the id is left; every other record stays, as often as before and in order |
| DataContext.DeletedAbsentId | context/DataContext.tsx:46-48 | deleting an id no record has leaves the collection as it was |
| DataContext.DeletedIdempotent | context/DataContext.tsx:46-48 | deleting twice is deleting once |
| DataContext.DeletedKeepsUniqueIds | context/DataContext.tsx:46-48 | deleting keeps unique ids unique |
| DataContext.DeletedUniqueRemovesOne | context/DataContext.tsx:46-48 | with unique ids, deleting an id that occurs removes exactly one record |
| DataContext.PrependedKeepsUniqueIds | context/DataContext.tsx:38-40 | adding a document with a fresh id keeps ids unique |
| DataContext.DataStore.DeleteDocument | context/DataContext.tsx:46-48 | the new collection is `Deleted` of the old one |
| DataContext.DataStore.ResetData | context/DataContext.tsx:50-54 | when confirmed the collection becomes exactly the seed set; when declined nothing changes |
| DataContext.Imported | context/DataContext.tsx:56-61 | an array is accepted as the new collection; anything else is refused with the format error message |
| DataContext.DataStore.ImportDatabase | context/DataContext.tsx:56-61 | on an array the collection becomes exactly that array; on an error it is untouched |
| CategoryPage.FindConfig | pages/CategoryPage.tsx:13 | the first table entry with the id is found, and none is found only when no entry has it |
| CategoryPage.FindCategory | pages/CategoryPage.tsx:13 | an entry of the category table is found exactly when the route names one of the five categories |
| CategoryPage.Keep | pages/CategoryPage.tsx:21-29 | a kept document is in the route's category, and with an empty query every document of the category is kept |
| CategoryPage.FilteredDocs | pages/CategoryPage.tsx:19-31 | the listing is an ordered subsequence of the collection, only of the route's category, and holds each document the predicate keeps exactly as often as the collection does, and no other |
| CategoryPage.Render | pages/CategoryPage.tsx:13-17 | an unknown category redirects home; a known one shows the category table's own entry for it (the one the lookup finds) and its filtered documents |
| CategoryPage.EmptyQueryListsCategory | pages/CategoryPage.tsx:22 | with an empty query the listing is exactly the category's documents |
| CategoryPage.MissingFieldsCountAsNoMatch | pages/CategoryPage.tsx:26-28 | missing description, tags and location data count as no match, so only the title decides |
| CategoryPage.CaseInsensitive | pages/CategoryPage.tsx:23 | the query's letter case does not change the listing |
| CategoryPage.AddressIsNotLowerCased | pages/CategoryPage.tsx:28 | the raw address is compared with the lower-cased query, so an upper-case address misses a query typed exactly as stored |
| SearchPage.Keep | pages/SearchPage.tsx:14-23 | a kept document was found by a non-empty query and passes the category filter |
| SearchPage.FilteredDocs | pages/SearchPage.tsx:12-24 | results are an ordered subsequence of the collection; an empty query finds nothing; a category filter restricts the category; each document the predicate keeps appears exactly as often as in the collection, and no other does |
| SearchPage.AllFilterHasNoCategoryRestriction | pages/SearchPage.tsx:14 | with `all`, a document is found exactly when the query is non-empty and its title, description or a tag matches |
| SearchPage.AddressIgnored | pages/SearchPage.tsx:18-23 | location data never changes the verdict |
| SearchPage.FilterNarrowsAll | pages/SearchPage.tsx:14 | the results under a category filter are a subsequence of those under `all` |
| SearchPage.CaseInsensitive | pages/SearchPage.tsx:18 | the query's letter case does not change the results |
| SearchPage.SearchWithinCategoryListing | pages/SearchPage.tsx:12-24 | searching within a category finds a subsequence of that category's listing for the same query |
| SearchPage.ListingAndSearchAgreeWithoutAddress | pages/SearchPage.tsx:18-23 | for a non-empty query, the listing and the search give the same verdict unless the address matches |
| ManageDataPage.DefaultForm | pages/ManageDataPage.tsx:15-22 | the default form has today's date, the laws category and no tags, and it cannot be submitted as it stands because its title is empty |
| ManageDataPage.CanSubmit | pages/ManageDataPage.tsx:27 | a form with a missing or empty title, or without a category, is not submitted |
| ManageDataPage.NewDocumentId | pages/ManageDataPage.tsx:30 | the generated id is `doc-` followed by decimal digits |
| ManageDataPage.NewDocumentIdInjective | pages/ManageDataPage.tsx:30 | submits at different times produce different ids |
| ManageDataPage.NewDocumentIdNotSeeded | pages/ManageDataPage.tsx:30 | no seed document has a generated id |
| ManageDataPage.NewDocument | pages/ManageDataPage.tsx:29-38 | the record has the generated id and the entered title and category. Date defaults to today, content to "", tags to []. Description is as entered; no location data |
| ManageDataPage.AppendedTag | pages/ManageDataPage.tsx:59 | the trimmed input goes last, the other tags keep their order, and the new tag is non-blank at both ends |
| ManageDataPage.RemovedTag | pages/ManageDataPage.tsx:213 | every copy of the tag goes, the other tags stay as often as before and in order |
| ManageDataPage.RemoveUndoesAppend | pages/ManageDataPage.tsx:55-63 | removing a newly added tag that was not there before restores the tags |
| ManageDataPage.ImportAccepted | pages/ManageDataPage.tsx:87 | an accepted file is an array, which the store then takes without its format error; the empty array is accepted; a non-empty array whose first record lacks an id or a title is rejected |
| ManageDataPage.ImportCheckIsShallow | pages/ManageDataPage.tsx:87 | only the first record is checked: a good first record lets any later records through |
| ManageDataPage.SubmittedCollectionReimports | pages/ManageDataPage.tsx:87 | after a submit, a backup of the collection passes the check and restores exactly that collection |
| ManageDataPage.SubmitAfterResetKeepsUniqueIds | pages/ManageDataPage.tsx:29-40 | a submit right after a reset keeps ids unique |
| ManageDataPage.ManageForm.constructor | pages/ManageDataPage.tsx:15-23 | the form starts at its default values with an empty tag input |
| ManageDataPage.ManageForm.HandleSubmit | pages/ManageDataPage.tsx:25-53 | an empty title or missing category changes nothing. Otherwise exactly one new record is prepended, and the form and tag input are reset |
| ManageDataPage.ManageForm.HandleAddTag | pages/ManageDataPage.tsx:55-63 | a blank input changes nothing. Otherwise the trimmed input is appended to the tags and the input cleared |
| ManageDataPage.ManageForm.RemoveTag | pages/ManageDataPage.tsx:213 | the form's tags lose every copy of the tag; a missing tag list stays missing; nothing else changes |
| ManageDataPage.ManageForm.HandleImport | pages/ManageDataPage.tsx:78-101 | the store is replaced only by a parsed, accepted and confirmed file. Otherwise it is untouched, and the outcome says why |
| ManageDataPage.ManageForm.DeleteFromList | pages/ManageDataPage.tsx:277-278 | a confirmed delete applies `Deleted`; a declined one changes nothing |
| DocumentPage.Find | pages/DocumentPage.tsx:11 | the lookup finds nothing exactly when no record has the id, and otherwise the first record with it |
| DocumentPage.AddedIsFound | pages/DocumentPage.tsx:11 | a document just added is what its id shows |
| DocumentPage.UniqueIdIsFound | pages/DocumentPage.tsx:11 | with unique ids, every stored document is what its id shows |
| DocumentPage.ZoomedOut | pages/DocumentPage.tsx:109 | zoom-out never goes below 50, steps down by 10 when it can, and keeps a valid zoom valid |
| DocumentPage.ZoomedIn | pages/DocumentPage.tsx:113 | zoom-in never goes above 200, steps up by 10 when it can, and keeps a valid zoom valid |
| DocumentPage.ZoomInThenOut | pages/DocumentPage.tsx:109-113 | zooming in then out returns to the start below the maximum |
| DocumentPage.ZoomOutThenIn | pages/DocumentPage.tsx:109-113 | zooming out then in returns to the start above the minimum |
| DocumentPage.JsRemainder | pages/DocumentPage.tsx:78 | the remainder differs from the dividend by a multiple of the divisor, takes the dividend's sign and is smaller in magnitude than the divisor |
| DocumentPage.Rotated | pages/DocumentPage.tsx:77-79 | from any rotation of at least -90 the result is `(r + 90) mod 360`; on the four valid rotations it turns by 90 degrees, with 270 going to 0, and so stays in {0, 90, 180, 270} |
| DocumentPage.FourRotations | pages/DocumentPage.tsx:77-79 | four rotations return to the start |
| DocumentPage.MarginTop | pages/DocumentPage.tsx:165 | the top margin is 0 or 100 pixels, and it is non-zero exactly for the sideways rotations |
| DocumentPage.Viewer.constructor | pages/DocumentPage.tsx:12-13 | the viewer starts at zoom 100 and rotation 0 |
| DocumentPage.Viewer.ZoomOut | pages/DocumentPage.tsx:109 | zooming out keeps the viewer valid and leaves the rotation alone |
| DocumentPage.Viewer.ZoomIn | pages/DocumentPage.tsx:113 | zooming in keeps the viewer valid and leaves the rotation alone |
| DocumentPage.Viewer.Rotate | pages/DocumentPage.tsx:77-79 | rotating keeps the viewer valid and leaves the zoom alone |
| DocumentPage.Viewer.Reset | pages/DocumentPage.tsx:81-84 | from any state, reset gives zoom 100 and rotation 0 |

## Left out

- Browser storage and JSON are not modelled. These are the reads and writes under the storage key and the text parsing of a saved or restored file. The saved payload is a parameter: nothing saved, unreadable, or a parsed collection. A failed save leaves the in-memory state as it is.
- The store's write-through save after every change is not modelled. Neither is the data provider's hook wiring: state hooks, effects, memoisation and context lookup.
- `window.confirm` answers are boolean parameters. `alert` messages are not modelled.
- `Date.now()` and `new Date()` are parameters: `now` for the id and `today` for the default date. One `today` serves both the date default and the reset form. The source reads the clock twice and could straddle midnight.
- Exporting a backup is not modelled: the Blob, the object URL and the download link. In the import path, `FileReader` is replaced by `ChosenFile`: no file, text that does not parse, or a parsed value.
- The viewer's PDF download is not modelled. It depends on foreign rendering libraries and floating-point page ratios.
- The compare page's scroll synchronisation is not part of this model. It is timer and event behaviour.
- The AI image editor page is not part of this model. It calls an external image service.
- The layout, the home and settings pages, the document list and the router are not part of this model. They only render, route and toggle the theme.
- Text.ToLower: maps only the ASCII letters A-Z. Full Unicode case folding is not modelled. The catalogue's text is Arabic, which has no letter case.
- Records are typed: a category outside the five values cannot be represented. Neither can a non-array JSON value saved under the storage key, nor an imported element that is not a document (`null`, or missing required properties). So the import check's first-element test is modelled as non-empty id and title.
- A patch cannot set a required property to `undefined`: `PartialDocument` gives every required property a value when present.
- The unused search-result record type in types.ts is not modelled.
- DataContext.Deleted removes every record with the id, as the code does. "Deletes exactly one document" holds only when ids are unique; `DataContext.DeletedUniqueRemovesOne` proves that case.

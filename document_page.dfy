/** The document viewer: the document is looked up by the id in the route, and a
    toolbar zooms and rotates the rendered page. */
module DocumentPage {
  import opened Types
  import DataContext

  /** `documents.find(d => d.id === id)`: the first record with the id. When there
      is none, the page redirects home. */
  function Find(docs: seq<Document>, id: string): (r: Option<Document>)
    ensures r.None? <==> forall d :: d in docs ==> d.id != id
    ensures r.Some? ==> r.value.id == id
    ensures r.Some? ==> exists i :: 0 <= i < |docs| && docs[i] == r.value && forall j :: 0 <= j < i ==> docs[j].id != id
    decreases |docs|
  {
    if docs == [] then None
    else if docs[0].id == id then Some(docs[0])
    else
      var r := Find(docs[1..], id);
      assert r.Some? ==> exists i :: 1 <= i < |docs| && docs[i] == r.value && forall j :: 0 <= j < i ==> docs[j].id != id by {
        if r.Some? {
          var k :| 0 <= k < |docs[1..]| && docs[1..][k] == r.value && forall j :: 0 <= j < k ==> docs[1..][j].id != id;
          assert docs[k + 1] == r.value;
          assert forall j :: 0 <= j < k + 1 ==> docs[j].id != id by {
            forall j | 0 <= j < k + 1 ensures docs[j].id != id {
              if j > 0 { assert docs[j] == docs[1..][j - 1]; }
            }
          }
        }
      }
      r
  }

  /** A document just added is what a lookup of its id shows. */
  lemma AddedIsFound(docs: seq<Document>, doc: Document)
    ensures Find(DataContext.Prepended(docs, doc), doc.id) == Some(doc)
  {
  }

  /** When ids are unique, looking up the id of any stored document shows that
      document. */
  lemma UniqueIdIsFound(docs: seq<Document>, doc: Document)
    requires UniqueIds(docs) && doc in docs
    ensures Find(docs, doc.id) == Some(doc)
  {
    var r := Find(docs, doc.id);
    var k :| 0 <= k < |docs| && docs[k] == doc;
    var i :| 0 <= i < |docs| && docs[i] == r.value && forall j :: 0 <= j < i ==> docs[j].id != doc.id;
    assert docs[i].id == docs[k].id;
  }

  const MinZoom: int := 50
  const MaxZoom: int := 200
  const ZoomStep: int := 10
  const DefaultZoom: int := 100
  /** The top margin, in pixels, of a page turned on its side. */
  const SidewaysMargin: int := 100

  /** The zoom levels the toolbar can reach: multiples of 10 from 50 to 200. */
  predicate ZoomValid(z: int) {
    MinZoom <= z <= MaxZoom && z % ZoomStep == 0
  }

  /** The rotations the toolbar can reach, in degrees. */
  predicate RotationValid(r: int) {
    r == 0 || r == 90 || r == 180 || r == 270
  }

  /** `Math.max(50, z - 10)`. */
  function ZoomedOut(z: int): (r: int)
    ensures r >= MinZoom
    ensures z - ZoomStep >= MinZoom ==> r == z - ZoomStep
    ensures ZoomValid(z) ==> ZoomValid(r) && r <= z
  {
    if z - ZoomStep > MinZoom then z - ZoomStep else MinZoom
  }

  /** `Math.min(200, z + 10)`. */
  function ZoomedIn(z: int): (r: int)
    ensures r <= MaxZoom
    ensures z + ZoomStep <= MaxZoom ==> r == z + ZoomStep
    ensures ZoomValid(z) ==> ZoomValid(r) && r >= z
  {
    if z + ZoomStep < MaxZoom then z + ZoomStep else MaxZoom
  }

  /** The remainder of JavaScript's `%`, whose sign follows the dividend. */
  function JsRemainder(a: int, b: int): (r: int)
    requires b > 0
    ensures -b < r < b
    ensures a >= 0 ==> 0 <= r
    ensures a < 0 ==> r <= 0
    ensures (a - r) % b == 0
  {
    var r := if a >= 0 then a % b else -((-a) % b);
    var q := if a >= 0 then a / b else -((-a) / b);
    assert a - r == q * b;
    MultipleHasNoRemainder(q, b);
    r
  }

  lemma MultipleHasNoRemainder(q: int, b: int)
    requires b > 0
    ensures (q * b) % b == 0
  {
    var x := q * b;
    var k := q - x / b;
    assert x % b == k * b;
    assert k >= 1 ==> k * b >= b;
    assert k <= -1 ==> k * b <= -b;
  }

  /** `(r + 90) % 360`. */
  function Rotated(r: int): (r': int)
    ensures r >= -90 ==> r' == (r + 90) % 360
    ensures RotationValid(r) ==> r' == (if r == 270 then 0 else r + 90)
    ensures RotationValid(r) ==> RotationValid(r')
  {
    JsRemainder(r + 90, 360)
  }

  /** The top margin of the page: non-zero exactly for the sideways rotations, the
      odd multiples of 90 degrees. */
  function MarginTop(rotation: int): (px: int)
    ensures px == 0 || px == SidewaysMargin
    ensures RotationValid(rotation) ==> (px != 0 <==> (rotation / 90) % 2 == 1)
  {
    if rotation == 90 || rotation == 270 then SidewaysMargin else 0
  }

  /** Zooming in and then out returns to the start, unless already at the maximum. */
  lemma ZoomInThenOut(z: int)
    requires ZoomValid(z) && z < MaxZoom
    ensures ZoomedOut(ZoomedIn(z)) == z
  {
  }

  /** Zooming out and then in returns to the start, unless already at the minimum. */
  lemma ZoomOutThenIn(z: int)
    requires ZoomValid(z) && z > MinZoom
    ensures ZoomedIn(ZoomedOut(z)) == z
  {
  }

  /** Four rotations return to the starting rotation. */
  lemma FourRotations(r: int)
    requires RotationValid(r)
    ensures Rotated(Rotated(Rotated(Rotated(r)))) == r
  {
  }

  /** The zoom and rotation of the viewer's toolbar. */
  class Viewer {
    var zoom: int
    var rotation: int

    ghost predicate Valid()
      reads this
    {
      ZoomValid(zoom) && RotationValid(rotation)
    }

    constructor ()
      ensures Valid()
      ensures zoom == DefaultZoom && rotation == 0
    {
      zoom := DefaultZoom;
      rotation := 0;
    }

    method ZoomOut()
      requires Valid()
      modifies this
      ensures Valid()
      ensures zoom == ZoomedOut(old(zoom)) && rotation == old(rotation)
    {
      zoom := ZoomedOut(zoom);
    }

    method ZoomIn()
      requires Valid()
      modifies this
      ensures Valid()
      ensures zoom == ZoomedIn(old(zoom)) && rotation == old(rotation)
    {
      zoom := ZoomedIn(zoom);
    }

    method Rotate()
      requires Valid()
      modifies this
      ensures Valid()
      ensures rotation == Rotated(old(rotation)) && zoom == old(zoom)
    {
      rotation := Rotated(rotation);
    }

    /** Back to the initial view from any state. */
    method Reset()
      modifies this
      ensures Valid()
      ensures zoom == DefaultZoom && rotation == 0
    {
      zoom := DefaultZoom;
      rotation := 0;
    }
  }
}

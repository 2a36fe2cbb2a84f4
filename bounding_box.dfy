/** The `BoundingBox` dataclass: four integer coordinates, derived size, and
    conversion to and from a keyed record (`asdict` / `cls(**d)`). */
module BoundingBoxes {
  import opened Errors

  /** No ordering of the coordinates is enforced, so width and height may be
      negative. Equality is the dataclass's field-by-field `__eq__`. */
  datatype BoundingBox = BoundingBox(top: int, left: int, bottom: int, right: int) {

    function Width(): int {
      right - left
    }

    function Height(): int {
      bottom - top
    }

    function Area(): int {
      Height() * Width()
    }
  }

  /** A keyed record of integer values, as `asdict` produces it. */
  type Record = map<string, int>

  const FieldNames: set<string> := {"top", "left", "bottom", "right"}

  /** `to_dict`: one entry per dataclass field. */
  function ToDict(b: BoundingBox): (d: Record)
    ensures d.Keys == FieldNames
  {
    map["top" := b.top, "left" := b.left, "bottom" := b.bottom, "right" := b.right]
  }

  /** `from_dict`: `cls(**d)`. A missing field or an unexpected key makes the
      constructor call raise `TypeError`. */
  function FromDict(d: Record): (r: Result<BoundingBox>)
    ensures r.Ok? <==> d.Keys == FieldNames
    ensures r.Err? ==> r.error == TypeError
  {
    if d.Keys == FieldNames then Ok(BoundingBox(d["top"], d["left"], d["bottom"], d["right"]))
    else Err(TypeError)
  }

  /** Every box survives the trip through its record. */
  lemma RecordRoundTrip(b: BoundingBox)
    ensures FromDict(ToDict(b)) == Ok(b)
  {
  }

  /** Every record `from_dict` accepts is exactly the record of the box it
      builds, so the two conversions are mutually inverse. */
  lemma DictRoundTrip(d: Record)
    requires FromDict(d).Ok?
    ensures ToDict(FromDict(d).value) == d
  {
    var e := ToDict(FromDict(d).value);
    assert e.Keys == d.Keys;
    forall k | k in d ensures e[k] == d[k] {
      assert k == "top" || k == "left" || k == "bottom" || k == "right";
    }
  }

  /** Two boxes with the same record are the same box. */
  lemma ToDictInjective(a: BoundingBox, b: BoundingBox)
    requires ToDict(a) == ToDict(b)
    ensures a == b
  {
    assert ToDict(a)["top"] == a.top && ToDict(b)["top"] == b.top;
    assert ToDict(a)["left"] == a.left && ToDict(b)["left"] == b.left;
    assert ToDict(a)["bottom"] == a.bottom && ToDict(b)["bottom"] == b.bottom;
    assert ToDict(a)["right"] == a.right && ToDict(b)["right"] == b.right;
  }

  /** The box with corners `(x, y)` and `(x + w, y + h)`. */
  function FromRect(x: int, y: int, w: int, h: int): (b: BoundingBox)
    ensures b.Width() == w && b.Height() == h && b.Area() == w * h
    ensures b.top == y && b.left == x
  {
    BoundingBox(top := y, left := x, bottom := y + h, right := x + w)
  }

  /** Nothing orders the coordinates: a box may have negative width and
      height, and then a positive area. */
  lemma UnorderedCoordinatesAllowed()
    ensures BoundingBox(10, 10, 5, 5).Width() == -5
    ensures BoundingBox(10, 10, 5, 5).Height() == -5
    ensures BoundingBox(10, 10, 5, 5).Area() == 25
  {
  }
}

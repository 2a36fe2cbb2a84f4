/** The older plain-class `BoundingBox`. Its attributes live in the instance's
    `__dict__`, which `to_dict` hands out by reference; `from_dict` reads the
    four keys it needs; `__repr__` names the fields in declaration order. */
module LegacyBoundingBoxes {
  import opened Errors
  import opened Strings

  const FieldNames: set<string> := {"top", "left", "bottom", "right"}

  /** A mutable Python dict with integer values. */
  class Dict {
    var entries: map<string, int>

    constructor (entries: map<string, int>)
      ensures this.entries == entries
    {
      this.entries := entries;
    }

    /** `d[key] = value` */
    method SetItem(key: string, value: int)
      modifies this
      ensures entries == old(entries)[key := value]
    {
      entries := entries[key := value];
    }
  }

  class BoundingBox {
    /** The instance's `__dict__`, where the four attributes are stored. */
    const attrs: Dict

    constructor (top: int, left: int, bottom: int, right: int)
      ensures fresh(attrs)
      ensures attrs.entries == map["top" := top, "left" := left, "bottom" := bottom, "right" := right]
    {
      attrs := new Dict(map["top" := top, "left" := left, "bottom" := bottom, "right" := right]);
    }

    /** The four attributes are present (nothing in the model deletes them). */
    predicate HasFields()
      reads attrs
    {
      FieldNames <= attrs.entries.Keys
    }

    function Top(): int
      reads attrs
      requires HasFields()
    {
      attrs.entries["top"]
    }

    function Left(): int
      reads attrs
      requires HasFields()
    {
      attrs.entries["left"]
    }

    function Bottom(): int
      reads attrs
      requires HasFields()
    {
      attrs.entries["bottom"]
    }

    function Right(): int
      reads attrs
      requires HasFields()
    {
      attrs.entries["right"]
    }

    function Width(): int
      reads attrs
      requires HasFields()
    {
      Right() - Left()
    }

    function Height(): int
      reads attrs
      requires HasFields()
    {
      Bottom() - Top()
    }

    function Area(): int
      reads attrs
      requires HasFields()
    {
      Height() * Width()
    }

    /** `__repr__` */
    function Repr(): string
      reads attrs
      requires HasFields()
    {
      ReprOf(Top(), Left(), Bottom(), Right())
    }

    /** `to_dict` returns the attribute dict itself, not a copy. */
    method ToDict() returns (d: Dict)
      ensures d == attrs
    {
      d := attrs;
    }

    /** `from_dict`: the four keys are looked up, a missing one raises
      `KeyError`, any other key is ignored. The result is a new object. */
    static method FromDict(d: map<string, int>) returns (r: Result<BoundingBox>)
      ensures r.Ok? <==> FieldNames <= d.Keys
      ensures r.Err? ==> r.error == KeyError
      ensures r.Ok? ==> fresh(r.value) && fresh(r.value.attrs) && r.value.HasFields()
      ensures r.Ok? ==> r.value.attrs.entries == map k | k in FieldNames :: d[k]
    {
      var fields := ReadFields(d);
      match fields
      case Ok((top, left, bottom, right)) =>
        var b := new BoundingBox(top, left, bottom, right);
        assert b.attrs.entries == map k | k in FieldNames :: d[k];
        r := Ok(b);
      case Err(e) =>
        r := Err(e);
    }
  }

  /** The four lookups `from_dict` performs. */
  function ReadFields(d: map<string, int>): (r: Result<(int, int, int, int)>)
    ensures r.Ok? <==> FieldNames <= d.Keys
    ensures r.Ok? ==> r.value == (d["top"], d["left"], d["bottom"], d["right"])
    ensures r.Err? ==> r.error == KeyError
  {
    if "top" in d && "left" in d && "bottom" in d && "right" in d
    then Ok((d["top"], d["left"], d["bottom"], d["right"]))
    else Err(KeyError)
  }

  /** Writing through the dict `to_dict` returned changes the box: the
      attribute dict and the returned dict are one object. */
  method AssignTopThroughDict(b: BoundingBox, value: int)
    requires b.HasFields()
    modifies b.attrs
    ensures b.HasFields()
    ensures b.Top() == value
    ensures b.Left() == old(b.Left()) && b.Bottom() == old(b.Bottom()) && b.Right() == old(b.Right())
  {
    var d := b.ToDict();
    d.SetItem("top", value);
  }

  /** A box rebuilt from its own dict has the same four fields but is a new
      object: the class defines no `__eq__`, so only the fields compare equal. */
  method DictRoundTrip(b: BoundingBox) returns (c: BoundingBox)
    requires b.HasFields()
    ensures fresh(c) && c != b && c.HasFields()
    ensures c.Top() == b.Top() && c.Left() == b.Left()
    ensures c.Bottom() == b.Bottom() && c.Right() == b.Right()
  {
    var d := b.ToDict();
    var r := BoundingBox.FromDict(d.entries);
    c := r.value;
  }

  // ----- __repr__ -----

  const ReprHead: string := "BoundingBox(top="

  function ReprOf(top: int, left: int, bottom: int, right: int): string {
    ReprHead + IntToString(top) + ", left=" + IntToString(left) + ", bottom=" + IntToString(bottom)
      + ", right=" + IntToString(right) + ")"
  }

  /** The integer after `tag` at the start of `part`, if any. */
  function FieldAfter(part: string, tag: string): Option<int> {
    if |part| >= |tag| && part[..|tag|] == tag then ParseInt(part[|tag|..]) else None
  }

  /** Reads the four fields back out of a representation. */
  function ParseRepr(s: string): Option<(int, int, int, int)> {
    if |s| < |ReprHead| + 1 || s[..|ReprHead|] != ReprHead || s[|s| - 1] != ')' then None
    else
      var parts := Split(s[|ReprHead|..|s| - 1], ',');
      if |parts| != 4 then None
      else
        match (ParseInt(parts[0]), FieldAfter(parts[1], " left="), FieldAfter(parts[2], " bottom="),
               FieldAfter(parts[3], " right="))
        case (Some(t), Some(l), Some(b), Some(r)) => Some((t, l, b, r))
        case _ => None
  }

  lemma FieldAfterTag(tag: string, i: int)
    ensures FieldAfter(tag + IntToString(i), tag) == Some(i)
  {
    var part := tag + IntToString(i);
    assert part[..|tag|] == tag;
    assert part[|tag|..] == IntToString(i);
    IntToStringRoundTrip(i);
  }

  /** The four comma-separated pieces between the parentheses. */
  function ReprParts(top: int, left: int, bottom: int, right: int): seq<string> {
    [IntToString(top), " left=" + IntToString(left), " bottom=" + IntToString(bottom),
     " right=" + IntToString(right)]
  }

  lemma Join4(p0: string, p1: string, p2: string, p3: string, sep: char)
    ensures Join([p0, p1, p2, p3], sep) == p0 + [sep] + p1 + [sep] + p2 + [sep] + p3
  {
    assert [p2, p3][1..] == [p3];
    assert Join([p2, p3], sep) == p2 + [sep] + p3;
    assert [p1, p2, p3][1..] == [p2, p3];
    assert Join([p1, p2, p3], sep) == p1 + [sep] + (p2 + [sep] + p3);
    assert [p0, p1, p2, p3][1..] == [p1, p2, p3];
  }

  lemma CommaTags(h: string, a: string, b: string, c: string, d: string)
    ensures h + a + ", left=" + b + ", bottom=" + c + ", right=" + d + ")"
         == h + (a + [','] + (" left=" + b) + [','] + (" bottom=" + c) + [','] + (" right=" + d)) + ")"
  {
    assert ", left=" == [','] + " left=";
    assert ", bottom=" == [','] + " bottom=";
    assert ", right=" == [','] + " right=";
  }

  lemma ReprIsJoin(top: int, left: int, bottom: int, right: int)
    ensures ReprOf(top, left, bottom, right) == ReprHead + Join(ReprParts(top, left, bottom, right), ',') + ")"
  {
    var a, b, c, d := IntToString(top), IntToString(left), IntToString(bottom), IntToString(right);
    Join4(a, " left=" + b, " bottom=" + c, " right=" + d, ',');
    CommaTags(ReprHead, a, b, c, d);
  }

  lemma SplitReprParts(top: int, left: int, bottom: int, right: int)
    ensures Split(Join(ReprParts(top, left, bottom, right), ','), ',') == ReprParts(top, left, bottom, right)
  {
    var parts := ReprParts(top, left, bottom, right);
    IntToStringHasNo(top, ',');
    IntToStringHasNo(left, ',');
    IntToStringHasNo(bottom, ',');
    IntToStringHasNo(right, ',');
    forall k | 0 <= k < 4 ensures ',' !in parts[k] {
    }
    SplitJoin(parts, ',');
  }

  /** The representation names the four fields in order and determines them:
      reading it back gives top, left, bottom and right. */
  lemma ReprRoundTrip(top: int, left: int, bottom: int, right: int)
    ensures ParseRepr(ReprOf(top, left, bottom, right)) == Some((top, left, bottom, right))
  {
    var s := ReprOf(top, left, bottom, right);
    var inner := Join(ReprParts(top, left, bottom, right), ',');
    ReprIsJoin(top, left, bottom, right);
    assert s[..|ReprHead|] == ReprHead;
    assert s[|ReprHead|..|s| - 1] == inner;
    SplitReprParts(top, left, bottom, right);
    IntToStringRoundTrip(top);
    FieldAfterTag(" left=", left);
    FieldAfterTag(" bottom=", bottom);
    FieldAfterTag(" right=", right);
  }

  /** So two boxes print alike only if their fields agree. */
  lemma ReprInjective(a: BoundingBox, b: BoundingBox)
    requires a.HasFields() && b.HasFields()
    requires a.Repr() == b.Repr()
    ensures a.Top() == b.Top() && a.Left() == b.Left() && a.Bottom() == b.Bottom() && a.Right() == b.Right()
  {
    ReprRoundTrip(a.Top(), a.Left(), a.Bottom(), a.Right());
    ReprRoundTrip(b.Top(), b.Left(), b.Bottom(), b.Right());
  }
}

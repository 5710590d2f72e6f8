/** The logic of the panel's property editor (`PropertiesPanel.tsx`): the
    classifier that picks an editor for a property from its name and
    value, and the record updates the point, size and object editors emit. */
module PropertiesPanel {
  import opened Wrappers
  import opened Text
  import opened JsValues
  import SceneTree

  datatype PropertyType =
    | ColorType | OpacityType | AngleType | PointType | SizeType | RectangleType
    | ArrayType | ObjectType | BooleanType | NumberType | StringType

  /** The string the classifier returns for each kind. */
  function Tag(t: PropertyType): string {
    match t
    case ColorType => "color"
    case OpacityType => "opacity"
    case AngleType => "angle"
    case PointType => "point"
    case SizeType => "size"
    case RectangleType => "rectangle"
    case ArrayType => "array"
    case ObjectType => "object"
    case BooleanType => "boolean"
    case NumberType => "number"
    case StringType => "string"
  }

  /** Different kinds are returned as different strings, so the editor
      switch on the returned string tells every kind apart. */
  lemma TagInjective(a: PropertyType, b: PropertyType)
    ensures Tag(a) == Tag(b) <==> a == b
  {
  }

  /** `typeof v === 'object' && v !== null`. */
  predicate IsRecord(v: JsValue) {
    v.Arr? || v.Obj?
  }

  predicate HasAll(v: JsValue, keys: seq<string>)
    requires IsRecord(v)
  {
    forall k :: k in keys ==> HasKey(v, k)
  }

  /** `detectPropertyType(propName, propValue)`: the tests of the source,
      tried in its order. */
  function DetectPropertyType(propName: string, value: JsValue): PropertyType {
    var name := Lower(propName);
    if Includes(name, "color") then ColorType
    else if Includes(name, "opacity") || Includes(name, "alpha") then OpacityType
    else if Includes(name, "angle") || Includes(name, "rotation") || name == "rotate" then AngleType
    else if IsRecord(value) && HasAll(value, ["x", "y"]) then PointType
    else if IsRecord(value) && HasAll(value, ["width", "height"]) then SizeType
    else if IsRecord(value) && HasAll(value, ["x", "y", "width", "height"]) then RectangleType
    else if value.Arr? then ArrayType
    else if IsRecord(value) then ObjectType
    else if value.Bool? then BooleanType
    else if value.Num? then NumberType
    else StringType
  }

  /** Each kind's own test, independent of the others. */
  predicate Fits(t: PropertyType, propName: string, value: JsValue) {
    var name := Lower(propName);
    match t
    case ColorType => Includes(name, "color")
    case OpacityType => Includes(name, "opacity") || Includes(name, "alpha")
    case AngleType => Includes(name, "angle") || Includes(name, "rotation") || name == "rotate"
    case PointType => IsRecord(value) && HasKey(value, "x") && HasKey(value, "y")
    case SizeType => IsRecord(value) && HasKey(value, "width") && HasKey(value, "height")
    case RectangleType =>
      IsRecord(value) && HasKey(value, "x") && HasKey(value, "y") && HasKey(value, "width") && HasKey(value, "height")
    case ArrayType => value.Arr?
    case ObjectType => IsRecord(value)
    case BooleanType => value.Bool?
    case NumberType => value.Num?
    case StringType => true
  }

  /** The fixed order in which the kinds are tried. */
  const Precedence: seq<PropertyType> :=
    [ColorType, OpacityType, AngleType, PointType, SizeType, RectangleType,
     ArrayType, ObjectType, BooleanType, NumberType, StringType]

  /** The position of a kind in `Precedence`. */
  function Rank(t: PropertyType): (k: nat)
    ensures k < |Precedence| && Precedence[k] == t
  {
    match t
    case ColorType => 0
    case OpacityType => 1
    case AngleType => 2
    case PointType => 3
    case SizeType => 4
    case RectangleType => 5
    case ArrayType => 6
    case ObjectType => 7
    case BooleanType => 8
    case NumberType => 9
    case StringType => 10
  }

  /** The classifier answers the first kind in `Precedence` whose test the
      property passes. */
  lemma DetectIsFirstFit(propName: string, value: JsValue)
    ensures exists k :: (0 <= k < |Precedence| && DetectPropertyType(propName, value) == Precedence[k] &&
      Fits(Precedence[k], propName, value) &&
      forall j :: 0 <= j < k ==> !Fits(Precedence[j], propName, value))
  {
    var t := DetectPropertyType(propName, value);
    var k := Rank(t);
    if IsRecord(value) {
      assert HasAll(value, ["x", "y"]) <==> HasKey(value, "x") && HasKey(value, "y") by {
        assert "x" in ["x", "y"] && "y" in ["x", "y"];
      }
      assert HasAll(value, ["width", "height"]) <==> HasKey(value, "width") && HasKey(value, "height") by {
        assert "width" in ["width", "height"] && "height" in ["width", "height"];
      }
    }
    assert Precedence[k] == t && Fits(t, propName, value);
    assert forall j :: 0 <= j < k ==> !Fits(Precedence[j], propName, value);
  }

  /** Every value with `x`, `y`, `width` and `height` already passes the
      point test, so the classifier never answers `rectangle`. */
  lemma RectangleUnreachable(propName: string, value: JsValue)
    ensures Fits(RectangleType, propName, value) ==> Fits(PointType, propName, value)
    ensures DetectPropertyType(propName, value) != RectangleType
  {
    if IsRecord(value) && HasAll(value, ["x", "y", "width", "height"]) {
      assert "x" in ["x", "y", "width", "height"] && "y" in ["x", "y", "width", "height"];
      assert HasAll(value, ["x", "y"]);
    }
  }

  /** The name is compared in lower case only. */
  lemma CaseInsensitive(propName: string, value: JsValue)
    ensures DetectPropertyType(Lower(propName), value) == DetectPropertyType(propName, value)
  {
    LowerIdempotent(propName);
  }

  /** The serializer's `bounds` record is edited as a point (with `x`
      and `y` inputs only), like `position`. */
  lemma SerializedBoundsArePoints(item: SceneTree.Item)
    ensures item.bounds.Some? ==>
      DetectPropertyType("bounds", SceneTree.Properties(item)["bounds"]) == PointType
    ensures item.position.Some? ==>
      DetectPropertyType("position", SceneTree.Properties(item)["position"]) == PointType
  {
    SceneTree.PropertiesPresence(item);
    if item.bounds.Some? {
      var b := item.bounds.value;
      RecordNamedWithoutKeyword("bounds", SceneTree.BoxValue(b));
    }
    if item.position.Some? {
      RecordNamedWithoutKeyword("position", SceneTree.CoordsValue(item.position.value));
    }
  }

  /** A record with `x` and `y` under a name that mentions no colour,
      opacity or angle is a point. */
  lemma RecordNamedWithoutKeyword(name: string, value: JsValue)
    requires name == "bounds" || name == "position"
    requires value.Obj? && "x" in value.fields && "y" in value.fields
    ensures DetectPropertyType(name, value) == PointType
  {
    assert Lower(name) == name;
    if name == "bounds" {
      BoundsNamesNoKeyword(name);
    } else {
      PositionNamesNoKeyword(name);
    }
    assert HasAll(value, ["x", "y"]);
  }

  /** Both colours are classified by name, whatever their value. */
  lemma ColorsByName(name: string, value: JsValue)
    requires name == "fillColor" || name == "strokeColor"
    ensures DetectPropertyType(name, value) == ColorType
  {
    var lower := Lower(name);
    if name == "fillColor" {
      assert lower == "fillcolor";
      assert OccursAt(lower, "color", 4);
    } else {
      assert lower == "strokecolor";
      assert OccursAt(lower, "color", 6);
    }
    IncludesAt(lower, "color");
  }

  lemma BoundsNamesNoKeyword(name: string)
    requires name == "bounds"
    ensures !Includes(name, "color") && !Includes(name, "opacity") && !Includes(name, "alpha")
    ensures !Includes(name, "angle") && !Includes(name, "rotation") && name != "rotate"
  {
    FirstCharAbsent(name, "color");
    FirstCharAbsent(name, "alpha");
    FirstCharAbsent(name, "angle");
    FirstCharAbsent(name, "rotation");
    NoOccurrence(name, "opacity");
  }

  lemma PositionNamesNoKeyword(name: string)
    requires name == "position"
    ensures !Includes(name, "color") && !Includes(name, "opacity") && !Includes(name, "alpha")
    ensures !Includes(name, "angle") && !Includes(name, "rotation") && name != "rotate"
  {
    FirstCharAbsent(name, "color");
    FirstCharAbsent(name, "alpha");
    FirstCharAbsent(name, "angle");
    FirstCharAbsent(name, "rotation");
    assert !OccursAt(name, "opacity", 0) by {
      assert name[0..7][0] == 'p';
    }
    assert !OccursAt(name, "opacity", 1) by {
      assert name[1..8][1] == 's';
    }
    NoOccurrence(name, "opacity");
  }

  lemma NoOccurrence(s: string, sub: string)
    requires forall i :: 0 <= i <= |s| - |sub| ==> !OccursAt(s, sub, i)
    ensures !Includes(s, sub)
  {
    IncludesAt(s, sub);
  }

  lemma FirstCharAbsent(s: string, sub: string)
    requires sub != [] && sub[0] !in s
    ensures !Includes(s, sub)
  {
    forall i | 0 <= i <= |s| - |sub|
      ensures !OccursAt(s, sub, i)
    {
      assert s[i..i + |sub|][0] == s[i] && s[i] in s;
    }
    NoOccurrence(s, sub);
  }

  // ------------------------------------------------------------ the editors

  /** A numeric input's change in the point editor (`x`, `y`) or the size
      editor (`width`, `height`): `{...value, [key]: input}`, and nothing
      when the input was cleared. */
  function NumberFieldChange(value: JsValue, key: string, input: Option<real>): (r: Option<JsValue>)
    ensures input.None? <==> r.None?
    ensures r.Some? ==> r.value.Obj? && key in r.value.fields && r.value.fields[key] == Num(input.value)
    ensures r.Some? ==> forall k :: k != key ==>
      (k in r.value.fields <==> k in Spread(value)) && (k in Spread(value) ==> r.value.fields[k] == Spread(value)[k])
  {
    match input
    case None => None
    case Some(x) => Some(Obj(Spread(value)[key := Num(x)]))
  }

  /** The object editor's nested change: `{...value, [key]: newValue}`. */
  function NestedChange(value: JsValue, key: string, newValue: JsValue): (r: JsValue)
    ensures r.Obj? && key in r.fields && r.fields[key] == newValue
    ensures forall k :: k != key ==>
      (k in r.fields <==> k in Spread(value)) && (k in Spread(value) ==> r.fields[k] == Spread(value)[k])
  {
    Obj(Spread(value)[key := newValue])
  }

  /** Editing a point's `x` and then its `y` keeps every other field and
      holds both new coordinates. */
  lemma EditPointBothAxes(fields: map<string, JsValue>, x: real, y: real)
    ensures var afterX := NumberFieldChange(Obj(fields), "x", Some(x)).value;
            var afterY := NumberFieldChange(afterX, "y", Some(y)).value;
            afterY == Obj(fields["x" := Num(x)]["y" := Num(y)])
  {
  }

  /** The last nested edit of a key wins. */
  lemma NestedChangeTwice(fields: map<string, JsValue>, key: string, a: JsValue, b: JsValue)
    ensures NestedChange(NestedChange(Obj(fields), key, a), key, b) == NestedChange(Obj(fields), key, b)
  {
  }
}

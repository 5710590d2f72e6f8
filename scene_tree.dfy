/** The page-side scene model: live paper.js items as a tree with optional
    attributes, the serializer that turns them into `SceneNode`s with path
    ids `root_i_j...`, the lookup that walks such an id back through
    `children`, and the pre-order search over serialized nodes. */
module SceneTree {
  import opened Wrappers
  import opened Text
  import opened JsValues
  import opened Protocol

  /** The two coordinates the serializer reads from `item.position`. */
  datatype Coords = Coords(x: JsValue, y: JsValue)

  /** The four numbers the serializer reads from `item.bounds`. */
  datatype Box = Box(x: JsValue, y: JsValue, width: JsValue, height: JsValue)

  /** A colour attribute: an engine colour object, which has `toCSS` (and
      `css` is what `toCSS(true)` gives), or a plain string. */
  datatype ColorAttr = ColorObject(css: string) | ColorText(text: string)

  /** The `children` attribute: absent (leaf items), or an array whose
      `None` slots are null children. */
  datatype Children = NoChildren | Kids(slots: seq<Option<Item>>)

  /** A live item. An absent attribute is `None` (or `Undefined`). */
  datatype Item = Item(
    name: Option<string>,
    className: Option<string>,
    visible: Option<bool>,
    selected: Option<bool>,
    position: Option<Coords>,
    bounds: Option<Box>,
    fillColor: Option<ColorAttr>,
    strokeColor: Option<ColorAttr>,
    strokeWidth: JsValue,
    opacity: JsValue,
    closed: JsValue,
    children: Children)

  /** The page's `window.__PAPER_JS__`: its active project, if any. */
  datatype Paper = Paper(project: Option<Item>)

  // ------------------------------------------------------------ properties

  predicate ColorTruthy(c: Option<ColorAttr>) {
    c.Some? && (c.value.ColorObject? || c.value.text != "")
  }

  /** `c.toCSS ? c.toCSS(true) : String(c)`. */
  function ColorCss(c: ColorAttr): string {
    match c
    case ColorObject(css) => css
    case ColorText(t) => t
  }

  function CoordsValue(c: Coords): JsValue {
    Obj(map["x" := c.x, "y" := c.y])
  }

  function BoxValue(b: Box): JsValue {
    Obj(map["x" := b.x, "y" := b.y, "width" := b.width, "height" := b.height])
  }

  const PropertyKeys: set<string> := {"position", "bounds", "fillColor", "strokeColor", "strokeWidth", "opacity", "closed"}

  /** The value the serializer records under `key`, if it records one:
      position and bounds when present, colours when truthy (as CSS text),
      the three plain values whenever they are not `undefined`. */
  function PropertyOf(item: Item, key: string): Option<JsValue> {
    if key == "position" then (if item.position.Some? then Some(CoordsValue(item.position.value)) else None)
    else if key == "bounds" then (if item.bounds.Some? then Some(BoxValue(item.bounds.value)) else None)
    else if key == "fillColor" then (if ColorTruthy(item.fillColor) then Some(Str(ColorCss(item.fillColor.value))) else None)
    else if key == "strokeColor" then (if ColorTruthy(item.strokeColor) then Some(Str(ColorCss(item.strokeColor.value))) else None)
    else if key == "strokeWidth" then (if item.strokeWidth != Undefined then Some(item.strokeWidth) else None)
    else if key == "opacity" then (if item.opacity != Undefined then Some(item.opacity) else None)
    else if key == "closed" then (if item.closed != Undefined then Some(item.closed) else None)
    else None
  }

  /** The `properties` record of a serialized item. */
  function Properties(item: Item): map<string, JsValue> {
    map key | key in PropertyKeys && PropertyOf(item, key).Some? :: PropertyOf(item, key).value
  }

  /** A property key appears exactly when its attribute is there, holding
      that attribute's value, and no other key appears. */
  lemma PropertiesPresence(item: Item)
    ensures var props := Properties(item);
      ("position" in props <==> item.position.Some?) &&
      (item.position.Some? ==> props["position"] == CoordsValue(item.position.value)) &&
      ("bounds" in props <==> item.bounds.Some?) &&
      (item.bounds.Some? ==> props["bounds"] == BoxValue(item.bounds.value)) &&
      ("fillColor" in props <==> ColorTruthy(item.fillColor)) &&
      (ColorTruthy(item.fillColor) ==> props["fillColor"] == Str(ColorCss(item.fillColor.value))) &&
      ("strokeColor" in props <==> ColorTruthy(item.strokeColor)) &&
      (ColorTruthy(item.strokeColor) ==> props["strokeColor"] == Str(ColorCss(item.strokeColor.value))) &&
      ("strokeWidth" in props <==> item.strokeWidth != Undefined) &&
      (item.strokeWidth != Undefined ==> props["strokeWidth"] == item.strokeWidth) &&
      ("opacity" in props <==> item.opacity != Undefined) &&
      (item.opacity != Undefined ==> props["opacity"] == item.opacity) &&
      ("closed" in props <==> item.closed != Undefined) &&
      (item.closed != Undefined ==> props["closed"] == item.closed) &&
      props.Keys <= PropertyKeys
  {
  }

  // ------------------------------------------------------------ serializer

  /** `id || 'root'`. */
  function NodeId(id: string): string {
    if id == "" then "root" else id
  }

  /** `${nodeId}_${index}`. */
  function ChildId(nodeId: string, index: nat): string {
    nodeId + "_" + NatToString(index)
  }

  /** `item.className || 'Item'`. */
  function TypeName(item: Item): string {
    if item.className.Some? && item.className.value != "" then item.className.value else "Item"
  }

  /** The child slots of an item (none when `children` is absent). */
  function Slots(item: Item): seq<Option<Item>> {
    if item.children.Kids? then item.children.slots else []
  }

  /** The values of the present entries, in order. */
  function Present<T>(s: seq<Option<T>>): (r: seq<T>)
    ensures |r| <= |s|
  {
    if s == [] then []
    else Present(s[..|s| - 1]) + (if s[|s| - 1].Some? then [s[|s| - 1].value] else [])
  }

  /** The positions of the present entries, in order. */
  function PresentIndices<T>(s: seq<Option<T>>): seq<nat> {
    if s == [] then []
    else PresentIndices(s[..|s| - 1]) + (if s[|s| - 1].Some? then [|s| - 1] else [])
  }

  /** The serialized slots of an item: slot i, when not null, becomes the
      node of that child under id `ChildId(nodeId, i)`. */
  function ChildNodes(item: Item, nodeId: string): (s: seq<Option<SceneNode>>)
    ensures |s| == |Slots(item)|
    decreases item, 0
  {
    match item.children
    case NoChildren => []
    case Kids(cs) =>
      seq(|cs|, i requires 0 <= i < |cs| =>
        if cs[i].Some? then Some(Serialize(cs[i].value, ChildId(nodeId, i))) else None)
  }

  /** The node `buildSceneTree(item, id)` returns for a present item. */
  function Serialize(item: Item, id: string): (node: SceneNode)
    ensures node.id == NodeId(id)
    ensures node.name == (if item.name.Some? then item.name.value else "")
    ensures node.nodeType == TypeName(item)
    ensures node.visible == (item.visible.None? || item.visible.value)
    ensures node.selected == (item.selected.Some? && item.selected.value)
    ensures node.properties == Properties(item)
    decreases item, 1
  {
    var nodeId := NodeId(id);
    SceneNode(nodeId, item.name.GetOr(""), TypeName(item), Present(ChildNodes(item, nodeId)),
              Properties(item), item.visible.GetOr(true), item.selected.GetOr(false))
  }

  /** `buildSceneTree(item, id)`: null for an absent item; otherwise the
      node is built and each non-null child's node is pushed in order. */
  /** Slot i of the serialized children is the node of child i under its
      child id, or null. */
  lemma ChildNodesAt(item: Item, nodeId: string, i: nat)
    requires item.children.Kids? && i < |item.children.slots|
    ensures var c := item.children.slots[i];
            ChildNodes(item, nodeId)[i] == if c.Some? then Some(Serialize(c.value, nodeId + "_" + NatToString(i))) else None
  {
  }

  method BuildSceneTree(item: Option<Item>, id: string) returns (r: Option<SceneNode>)
    ensures item.None? ==> r.None?
    ensures item.Some? ==> r == Some(Serialize(item.value, id))
    decreases item
  {
    if item.None? {
      return None;
    }
    var it := item.value;
    var nodeId := if id == "" then "root" else id;
    var children: seq<SceneNode> := [];
    if it.children.Kids? && |it.children.slots| > 0 {
      var cs := it.children.slots;
      var i := 0;
      while i < |cs|
        invariant 0 <= i <= |cs|
        invariant children == Present(ChildNodes(it, nodeId)[..i])
      {
        var childNode := BuildSceneTree(cs[i], nodeId + "_" + NatToString(i));
        ChildNodesAt(it, nodeId, i);
        PresentSnoc(ChildNodes(it, nodeId), i);
        if childNode.Some? {
          children := children + [childNode.value];
        }
        i := i + 1;
      }
      assert ChildNodes(it, nodeId)[..i] == ChildNodes(it, nodeId);
    }
    r := Some(SceneNode(nodeId, it.name.GetOr(""), TypeName(it), children, Properties(it),
                        it.visible.GetOr(true), it.selected.GetOr(false)));
  }

  lemma PresentSnoc<T>(s: seq<Option<T>>, i: nat)
    requires i < |s|
    ensures Present(s[..i + 1]) == Present(s[..i]) + (if s[i].Some? then [s[i].value] else [])
  {
    assert s[..i + 1][..i] == s[..i];
  }

  /** What `Present` keeps: the present entries, in their order. */
  lemma {:induction false} PresentAt<T>(s: seq<Option<T>>)
    ensures |PresentIndices(s)| == |Present(s)|
    ensures forall k :: 0 <= k < |Present(s)| ==>
      PresentIndices(s)[k] < |s| && s[PresentIndices(s)[k]] == Some(Present(s)[k])
    ensures forall k, l :: 0 <= k < l < |PresentIndices(s)| ==> PresentIndices(s)[k] < PresentIndices(s)[l]
    ensures forall i :: 0 <= i < |s| && s[i].Some? ==> i in PresentIndices(s)
  {
    if s != [] {
      var init := s[..|s| - 1];
      PresentAt(init);
      forall i | 0 <= i < |s| - 1 && s[i].Some?
        ensures i in PresentIndices(s)
      {
        assert init[i] == s[i];
      }
    }
  }

  /** Which entries are present depends only on which are null. */
  lemma {:induction false} PresentIndicesSamePattern<A, B>(s: seq<Option<A>>, t: seq<Option<B>>)
    requires |s| == |t|
    requires forall i :: 0 <= i < |s| ==> (s[i].Some? <==> t[i].Some?)
    ensures PresentIndices(s) == PresentIndices(t)
  {
    if s != [] {
      PresentIndicesSamePattern(s[..|s| - 1], t[..|t| - 1]);
    }
  }

  /** Children of a serialized node: the non-null slots in source order,
      the k-th being the node of slot `ix[k]` under id `ChildId(nodeId, ix[k])`. */
  lemma SerializeChildren(item: Item, id: string)
    ensures var node := Serialize(item, id);
      var ix := PresentIndices(Slots(item));
      |node.children| == |ix| &&
      (forall k :: 0 <= k < |ix| ==>
        ix[k] < |Slots(item)| && Slots(item)[ix[k]].Some? &&
        node.children[k] == Serialize(Slots(item)[ix[k]].value, ChildId(NodeId(id), ix[k]))) &&
      (forall k, l :: 0 <= k < l < |ix| ==> ix[k] < ix[l]) &&
      (forall i :: 0 <= i < |Slots(item)| && Slots(item)[i].Some? ==> i in ix)
  {
    var cn := ChildNodes(item, NodeId(id));
    PresentAt(cn);
    PresentAt(Slots(item));
    PresentIndicesSamePattern(cn, Slots(item));
  }

  /** With no null children, the k-th child node is the node of child k. */
  lemma SerializeChildrenNoNulls(item: Item, id: string)
    requires forall i :: 0 <= i < |Slots(item)| ==> Slots(item)[i].Some?
    ensures var node := Serialize(item, id);
      |node.children| == |Slots(item)| &&
      forall k :: 0 <= k < |Slots(item)| ==>
        node.children[k] == Serialize(Slots(item)[k].value, ChildId(NodeId(id), k))
  {
    var cn := ChildNodes(item, NodeId(id));
    forall k | 0 <= k < |cn|
      ensures cn[k] == Some(Serialize(Slots(item)[k].value, ChildId(NodeId(id), k)))
    {
      ChildNodesAt(item, NodeId(id), k);
    }
    PresentAllSome(cn);
  }

  /** With no null entries, `Present` keeps every entry. */
  lemma {:induction false} PresentAllSome<T>(s: seq<Option<T>>)
    requires forall i :: 0 <= i < |s| ==> s[i].Some?
    ensures |Present(s)| == |s| && forall k :: 0 <= k < |s| ==> Present(s)[k] == s[k].value
  {
    if s != [] {
      PresentAllSome(s[..|s| - 1]);
    }
  }

  /** A strictly increasing list of indices below n that contains all of
      them is 0, 1, ..., n - 1. */
  lemma AllIndicesPresent(ix: seq<nat>, n: nat)
    requires forall k :: 0 <= k < |ix| ==> ix[k] < n
    requires forall k, l :: 0 <= k < l < |ix| ==> ix[k] < ix[l]
    requires forall i :: 0 <= i < n ==> i in ix
    ensures |ix| == n && forall k :: 0 <= k < n ==> ix[k] == k
  {
    if |ix| > 0 {
      IncreasingAtLeastIndex(ix, |ix| - 1);
      IndicesIdentity(ix, n, |ix| - 1);
    }
    if n > 0 {
      var j := IndexIn(ix, n - 1);
      assert ix[j] == j;
    }
  }

  lemma {:induction false} IncreasingAtLeastIndex(ix: seq<nat>, k: nat)
    requires k < |ix|
    requires forall a, b :: 0 <= a < b < |ix| ==> ix[a] < ix[b]
    ensures ix[k] >= k
  {
    if k > 0 {
      IncreasingAtLeastIndex(ix, k - 1);
    }
  }

  lemma {:induction false} IndicesIdentity(ix: seq<nat>, n: nat, k: nat)
    requires k < |ix| <= n
    requires forall a, b :: 0 <= a < b < |ix| ==> ix[a] < ix[b]
    requires forall i :: 0 <= i < n ==> i in ix
    ensures forall m :: 0 <= m <= k ==> ix[m] == m
  {
    if k > 0 {
      IndicesIdentity(ix, n, k - 1);
    }
    // k occurs at a position j; not below k (those hold their own index),
    // so ix[k] <= ix[j] == k <= ix[k].
    var j := IndexIn(ix, k);
    assert j >= k;
    IncreasingAtLeastIndex(ix, k);
  }

  /** The position of a value in a list that holds it. */
  function IndexIn(ix: seq<nat>, i: nat): (j: nat)
    requires i in ix
    ensures j < |ix| && ix[j] == i
  {
    if ix[0] == i then 0 else IndexIn(ix[1..], i) + 1
  }

  // ----------------------------------------------------------------- paths

  /** The id the serializer gives the item reached by index path `p`. */
  function PathId(p: seq<nat>): string {
    if p == [] then "root" else ChildId(PathId(p[..|p| - 1]), p[|p| - 1])
  }

  /** Child slot i of an item, or none. */
  function Slot(item: Item, i: nat): Option<Item> {
    if i < |Slots(item)| then Slots(item)[i] else None
  }

  /** The item an index path reaches from `root`, if every step exists. */
  function ItemAt(root: Item, p: seq<nat>): Option<Item>
    decreases |p|
  {
    if p == [] then Some(root)
    else match Slot(root, p[0])
      case None => None
      case Some(c) => ItemAt(c, p[1..])
  }

  lemma {:induction false} ItemAtSnoc(root: Item, p: seq<nat>, i: nat)
    ensures ItemAt(root, p + [i]) == (if ItemAt(root, p).Some? then Slot(ItemAt(root, p).value, i) else None)
    decreases |p|
  {
    if p == [] {
      assert ItemAt(root, [i]) == (match Slot(root, i) case None => None case Some(c) => ItemAt(c, []));
    } else {
      assert (p + [i])[0] == p[0];
      assert (p + [i])[1..] == p[1..] + [i];
      match Slot(root, p[0])
      case None =>
      case Some(c) => ItemAtSnoc(c, p[1..], i);
    }
  }

  /** The decimal renderings of the steps of a path. */
  function PathStrings(p: seq<nat>): (parts: seq<string>)
    ensures |parts| == |p|
  {
    seq(|p|, i requires 0 <= i < |p| => NatToString(p[i]))
  }

  /** Extending a path appends one `_`-separated piece to its id. */
  lemma PathIdSnoc(p: seq<nat>)
    requires p != []
    ensures PathId(p) == PathId(p[..|p| - 1]) + ['_'] + NatToString(p[|p| - 1])
  {
  }

  /** ... and one rendered step to its step strings. */
  lemma PathStringsSnoc(p: seq<nat>)
    requires p != []
    ensures PathStrings(p) == PathStrings(p[..|p| - 1]) + [NatToString(p[|p| - 1])]
  {
  }

  /** A rendered step holds no separator. */
  lemma NoSeparator(n: nat)
    ensures '_' !in NatToString(n)
  {
    var s := NatToString(n);
    assert forall j :: 0 <= j < |s| ==> s[j] != '_';
  }

  /** A path id splits at `_` into `"root"` and the rendered steps. */
  lemma {:induction false} SplitPathId(p: seq<nat>)
    ensures Split(PathId(p), '_') == ["root"] + PathStrings(p)
  {
    if p == [] {
      assert '_' !in "root";
    } else {
      var init := p[..|p| - 1];
      SplitPathId(init);
      PathIdSnoc(p);
      PathStringsSnoc(p);
      NoSeparator(p[|p| - 1]);
      SplitSnoc(PathId(init), '_', NatToString(p[|p| - 1]));
    }
  }

  // ---------------------------------------------------------------- lookup

  /** What `findPaperItemById` ends in: an item together with the index
      path it followed, null/undefined, or a TypeError (reading `children`
      of a null or undefined `current`). */
  datatype Lookup = Found(path: seq<nat>, item: Item) | Missing | Threw

  /** The index steps of a `_`-separated id, when every one is a
      non-negative integer to `parseInt`. */
  function ParsedIndices(parts: seq<string>): Option<seq<nat>> {
    if parts == [] then Some([])
    else
      var index := ParseInt(parts[0]);
      if index.NaN? || index.value < 0 then None
      else match ParsedIndices(parts[1..])
        case None => None
        case Some(rest) => Some([index.value as nat] + rest)
  }

  /** The rest of the loop of `findPaperItemById`, from `current` having
      followed `path`, over the remaining id segments. */
  function Walk(current: Option<Item>, path: seq<nat>, parts: seq<string>): Lookup
    decreases |parts|
  {
    if parts == [] then (if current.Some? then Found(path, current.value) else Missing)
    else if current.None? then Threw
    else
      var index := ParseInt(parts[0]);
      var kids := current.value.children;
      if kids.NoChildren? || index.NaN? || index.value >= |kids.slots| then Missing
      else if index.value < 0 then Walk(None, path, parts[1..])
      else Walk(kids.slots[index.value], path + [index.value], parts[1..])
  }

  /** The path an id names to the lookup: none for `"root"`, else the
      steps after the first segment, which is never checked. */
  function IdPath(id: string): Option<seq<nat>> {
    if id == "root" then Some([]) else ParsedIndices(Split(id, '_')[1..])
  }

  /** The walk succeeds exactly when the segments are non-negative indices
      and the path they spell exists; it then reports that path and item. */
  lemma {:induction false} WalkFound(x: Item, acc: seq<nat>, parts: seq<string>)
    ensures Walk(Some(x), acc, parts).Found? <==>
      (ParsedIndices(parts).Some? && ItemAt(x, ParsedIndices(parts).value).Some?)
    ensures Walk(Some(x), acc, parts).Found? ==>
      Walk(Some(x), acc, parts) == Found(acc + ParsedIndices(parts).value, ItemAt(x, ParsedIndices(parts).value).value)
    decreases |parts|
  {
    if parts == [] {
      return;
    }
    var index := ParseInt(parts[0]);
    var kids := x.children;
    var w := Walk(Some(x), acc, parts);
    if index.NaN? || index.value < 0 {
      assert ParsedIndices(parts).None?;
      if kids.Kids? && index.Int? && index.value < |kids.slots| {
        WalkNone(acc, parts[1..]);
      }
      return;
    }
    var k := index.value as nat;
    var tail := ParsedIndices(parts[1..]);
    assert ParsedIndices(parts) == if tail.Some? then Some([k] + tail.value) else None;
    if kids.NoChildren? || k >= |kids.slots| {
      assert w == Missing;
      assert Slot(x, k).None?;
      if tail.Some? {
        ItemAtCons(x, k, tail.value);
      }
      return;
    }
    assert w == Walk(kids.slots[k], acc + [k], parts[1..]);
    assert Slot(x, k) == kids.slots[k];
    match kids.slots[k]
    case None =>
      WalkNone(acc + [k], parts[1..]);
      if tail.Some? {
        ItemAtCons(x, k, tail.value);
      }
    case Some(c) =>
      WalkFound(c, acc + [k], parts[1..]);
      assert w == Walk(Some(c), acc + [k], parts[1..]);
      if tail.Some? {
        ItemAtCons(x, k, tail.value);
        assert ItemAt(x, [k] + tail.value) == ItemAt(c, tail.value);
        AppendAssoc(acc, [k], tail.value);
      } else {
        assert ParsedIndices(parts).None?;
      }
  }

  lemma AppendAssoc<T>(a: seq<T>, b: seq<T>, c: seq<T>)
    ensures a + b + c == a + (b + c)
  {
  }

  /** A walk that has lost its item finds nothing. */
  lemma WalkNone(path: seq<nat>, parts: seq<string>)
    ensures !Walk(None, path, parts).Found?
  {
  }

  lemma ItemAtCons(x: Item, k: nat, rest: seq<nat>)
    ensures ItemAt(x, [k] + rest) == if Slot(x, k).Some? then ItemAt(Slot(x, k).value, rest) else None
  {
    assert ([k] + rest)[0] == k && ([k] + rest)[1..] == rest;
  }

  /** `findPaperItemById(id)` as a value: null without `__PAPER_JS__`, the
      project for `"root"`, and otherwise the walk over the segments after
      the first. */
  function Resolve(paper: Option<Paper>, id: string): Lookup {
    if paper.None? then Missing
    else if id == "root" then
      (if paper.value.project.Some? then Found([], paper.value.project.value) else Missing)
    else Walk(paper.value.project, [], Split(id, '_')[1..])
  }

  /** `findPaperItemById`: the loop over the id segments, reassigning
      `current` step by step. */
  method FindPaperItemById(paper: Option<Paper>, id: string) returns (r: Lookup)
    ensures r == Resolve(paper, id)
  {
    if paper.None? {
      return Missing;
    }
    if id == "root" {
      return if paper.value.project.Some? then Found([], paper.value.project.value) else Missing;
    }
    var parts := Split(id, '_');
    var current := paper.value.project;
    var path: seq<nat> := [];
    ghost var target := Resolve(paper, id);
    assert target == Walk(current, path, parts[1..]);
    var i := 1;
    while i < |parts|
      invariant 1 <= i <= |parts|
      invariant Walk(current, path, parts[i..]) == target
    {
      WalkStep(current, path, parts[i..]);
      assert parts[i..][0] == parts[i] && parts[i..][1..] == parts[i + 1..];
      if current.None? {
        return Threw;
      }
      var index := ParseInt(parts[i]);
      var kids := current.value.children;
      if kids.NoChildren? || index.NaN? || index.value >= |kids.slots| {
        return Missing;
      }
      if index.value < 0 {
        current := None;
      } else {
        current := kids.slots[index.value];
        path := path + [index.value];
      }
      i := i + 1;
    }
    return if current.Some? then Found(path, current.value) else Missing;
  }

  /** One turn of the lookup loop. */
  lemma WalkStep(current: Option<Item>, path: seq<nat>, parts: seq<string>)
    requires parts != []
    ensures current.None? ==> Walk(current, path, parts) == Threw
    ensures current.Some? ==>
      var index := ParseInt(parts[0]);
      var kids := current.value.children;
      if kids.NoChildren? || index.NaN? || index.value >= |kids.slots| then Walk(current, path, parts) == Missing
      else if index.value < 0 then Walk(current, path, parts) == Walk(None, path, parts[1..])
      else Walk(current, path, parts) == Walk(kids.slots[index.value], path + [index.value], parts[1..])
  {
  }

  /** Characterisation of the lookup on a page with a project. */
  lemma ResolveFound(root: Item, id: string)
    ensures Resolve(Some(Paper(Some(root))), id).Found? <==>
      (IdPath(id).Some? && ItemAt(root, IdPath(id).value).Some?)
    ensures Resolve(Some(Paper(Some(root))), id).Found? ==>
      Resolve(Some(Paper(Some(root))), id) == Found(IdPath(id).value, ItemAt(root, IdPath(id).value).value)
  {
    if id != "root" {
      WalkFound(root, [], Split(id, '_')[1..]);
    }
  }

  /** A found item is the one its path reaches in the project. */
  lemma ResolveFoundItem(paper: Option<Paper>, id: string)
    ensures var r := Resolve(paper, id);
      r.Found? ==> (paper.Some? && paper.value.project.Some? &&
                    ItemAt(paper.value.project.value, r.path) == Some(r.item))
  {
    if paper.Some? && paper.value.project.Some? {
      ResolveFound(paper.value.project.value, id);
    }
  }

  /** Without `__PAPER_JS__` or without a project nothing is found. */
  lemma ResolveNoProject(paper: Option<Paper>, id: string)
    requires paper.None? || paper.value.project.None?
    ensures !Resolve(paper, id).Found?
  {
  }

  /** The first segment is skipped unchecked: any id without `_` names the project. */
  lemma ResolveFirstSegmentUnchecked(root: Item, id: string)
    requires '_' !in id
    ensures Resolve(Some(Paper(Some(root))), id) == Found([], root)
  {
  }

  /** Segments that each parse to the matching step parse to the path. */
  lemma {:induction false} ParsedIndicesOf(parts: seq<string>, p: seq<nat>)
    requires |parts| == |p|
    requires forall i :: 0 <= i < |p| ==> ParseInt(parts[i]) == Int(p[i])
    ensures ParsedIndices(parts) == Some(p)
  {
    if p != [] {
      assert ParseInt(parts[0]) == Int(p[0]);
      ParsedIndicesOf(parts[1..], p[1..]);
      assert [p[0]] + p[1..] == p;
    }
  }

  lemma ParsedPathStrings(p: seq<nat>)
    ensures ParsedIndices(PathStrings(p)) == Some(p)
  {
    forall i | 0 <= i < |p|
      ensures ParseInt(PathStrings(p)[i]) == Int(p[i])
    {
      ParseIntOfNatToString(p[i]);
    }
    ParsedIndicesOf(PathStrings(p), p);
  }

  /** The lookup reads back exactly the path a path id was built from. */
  lemma IdPathOfPathId(p: seq<nat>)
    ensures IdPath(PathId(p)) == Some(p)
  {
    SplitPathId(p);
    ParsedPathStrings(p);
    if p != [] {
      assert '_' in PathId(p) by {
        var prefix := PathId(p[..|p| - 1]);
        assert PathId(p)[|prefix|] == '_';
      }
      assert PathId(p) != "root";
      assert (["root"] + PathStrings(p))[1..] == PathStrings(p);
    }
  }

  lemma PathIdInjective(p: seq<nat>, q: seq<nat>)
    requires PathId(p) == PathId(q)
    ensures p == q
  {
    IdPathOfPathId(p);
    IdPathOfPathId(q);
  }

  /** Lookup inverts the id scheme: the id of an existing path finds the
      item at that path. */
  lemma ResolvePathId(root: Item, p: seq<nat>)
    requires ItemAt(root, p).Some?
    ensures Resolve(Some(Paper(Some(root))), PathId(p)) == Found(p, ItemAt(root, p).value)
  {
    IdPathOfPathId(p);
    ResolveFound(root, PathId(p));
  }

  // ------------------------------------------------------ serialized nodes

  function Flatten<T>(ss: seq<seq<T>>): seq<T> {
    if ss == [] then [] else ss[0] + Flatten(ss[1..])
  }

  lemma {:induction false} InFlatten<T>(ss: seq<seq<T>>, x: T)
    ensures x in Flatten(ss) <==> exists i :: 0 <= i < |ss| && x in ss[i]
  {
    if ss != [] {
      InFlatten(ss[1..], x);
      if exists i :: 1 <= i < |ss| && x in ss[i] {
        var i :| 1 <= i < |ss| && x in ss[i];
        assert ss[1..][i - 1] == ss[i];
      }
      if exists i :: 0 <= i < |ss| - 1 && x in ss[1..][i] {
        var i :| 0 <= i < |ss| - 1 && x in ss[1..][i];
        assert ss[i + 1] == ss[1..][i];
      }
    }
  }

  /** The pre-order subtrees of each child, in child order. */
  function ChildOrders(n: SceneNode): seq<seq<SceneNode>>
    decreases n, 0
  {
    seq(|n.children|, i requires 0 <= i < |n.children| => PreOrder(n.children[i]))
  }

  /** A node, then its children's subtrees in order. */
  function PreOrder(n: SceneNode): (s: seq<SceneNode>)
    ensures |s| >= 1 && s[0] == n
    decreases n, 1
  {
    [n] + Flatten(ChildOrders(n))
  }

  /** The first node of a sequence with the given id. */
  function FirstWithId(s: seq<SceneNode>, id: string): (r: Option<SceneNode>)
    ensures r.Some? ==> r.value in s && r.value.id == id
    ensures r.None? ==> forall k :: 0 <= k < |s| ==> s[k].id != id
  {
    if s == [] then None else if s[0].id == id then Some(s[0]) else FirstWithId(s[1..], id)
  }

  lemma {:induction false} FirstWithIdAppend(a: seq<SceneNode>, b: seq<SceneNode>, id: string)
    ensures FirstWithId(a + b, id) == (if FirstWithId(a, id).Some? then FirstWithId(a, id) else FirstWithId(b, id))
  {
    if a != [] {
      assert (a + b)[0] == a[0];
      assert (a + b)[1..] == a[1..] + b;
      FirstWithIdAppend(a[1..], b, id);
    } else {
      assert a + b == b;
    }
  }

  /** `findNodeById` over one present node: itself when its id matches, else
      the first match among its children's subtrees, searched in order. */
  method FindNodeIn(n: SceneNode, id: string) returns (r: Option<SceneNode>)
    ensures r == FirstWithId(PreOrder(n), id)
    decreases n
  {
    if n.id == id {
      return Some(n);
    }
    var subtrees := ChildOrders(n);
    assert PreOrder(n)[1..] == Flatten(subtrees);
    var i := 0;
    while i < |n.children|
      invariant 0 <= i <= |n.children|
      invariant FirstWithId(PreOrder(n), id) == FirstWithId(Flatten(subtrees[i..]), id)
    {
      var found := FindNodeIn(n.children[i], id);
      assert subtrees[i..] == [subtrees[i]] + subtrees[i + 1..];
      FirstWithIdAppend(subtrees[i], Flatten(subtrees[i + 1..]), id);
      if found.Some? {
        return found;
      }
      i := i + 1;
    }
    return None;
  }

  /** `findNodeById(root, id)`: null for an absent root, otherwise the first
      pre-order node with that id, or null when none has it. */
  method FindNodeById(root: Option<SceneNode>, id: string) returns (r: Option<SceneNode>)
    ensures root.None? ==> r.None?
    ensures root.Some? ==> r == FirstWithId(PreOrder(root.value), id)
  {
    if root.None? {
      return None;
    }
    r := FindNodeIn(root.value, id);
  }

  /** Every serialized node is the node of the item at its own path. */
  lemma {:induction false} SerializedNodesAreItems(root: Item, p: seq<nat>, n: SceneNode)
    requires ItemAt(root, p).Some?
    requires n in PreOrder(Serialize(ItemAt(root, p).value, PathId(p)))
    ensures exists q :: ItemAt(root, q).Some? && n == Serialize(ItemAt(root, q).value, PathId(q))
    decreases ItemAt(root, p).value
  {
    var it := ItemAt(root, p).value;
    var node := Serialize(it, PathId(p));
    if n != node {
      assert n in Flatten(ChildOrders(node));
      InFlatten(ChildOrders(node), n);
      var k :| 0 <= k < |ChildOrders(node)| && n in ChildOrders(node)[k];
      SerializeChildren(it, PathId(p));
      var j := PresentIndices(Slots(it))[k];
      var c := Slots(it)[j].value;
      assert node.children[k] == Serialize(c, ChildId(NodeId(PathId(p)), j));
      assert NodeId(PathId(p)) == PathId(p);
      ItemAtSnoc(root, p, j);
      assert ItemAt(root, p + [j]) == Some(c);
      assert (p + [j])[..|p + [j]| - 1] == p;
      assert PathId(p + [j]) == ChildId(PathId(p), j);
      assert it.children.Kids? && it.children.slots[j] == Some(c);
      SerializedNodesAreItems(root, p + [j], n);
    }
  }

  /** The id round-trip: each node of the serialized project, looked up by
      its id, finds the item whose serialization it is. */
  lemma {:induction false} IdRoundTrip(root: Item, n: SceneNode)
    requires n in PreOrder(Serialize(root, ""))
    ensures Resolve(Some(Paper(Some(root))), n.id).Found?
    ensures Serialize(Resolve(Some(Paper(Some(root))), n.id).item, n.id) == n
  {
    assert Serialize(root, "") == Serialize(root, PathId([]));
    SerializedNodesAreItems(root, [], n);
    var q :| ItemAt(root, q).Some? && n == Serialize(ItemAt(root, q).value, PathId(q));
    ResolvePathId(root, q);
  }

  /** Ids of serialized nodes are unique, so the pre-order search by the
      id of an item's path finds that item's node. */
  lemma {:induction false} FindNodeByPathId(root: Item, p: seq<nat>)
    requires ItemAt(root, p).Some?
    ensures FirstWithId(PreOrder(Serialize(root, "")), PathId(p)) == Some(Serialize(ItemAt(root, p).value, PathId(p)))
  {
    var all := PreOrder(Serialize(root, ""));
    var target := Serialize(ItemAt(root, p).value, PathId(p));
    NodeInTree(root, p);
    NodeIdOfPath(ItemAt(root, p).value, p);
    FirstWithIdFinds(all, target);
    var r := FirstWithId(all, PathId(p)).value;
    NodeOfTreeIsItem(root, r);
    var q :| ItemAt(root, q).Some? && r == Serialize(ItemAt(root, q).value, PathId(q));
    NodeIdOfPath(ItemAt(root, q).value, q);
    PathIdInjective(p, q);
  }

  lemma NodeInTree(root: Item, p: seq<nat>)
    requires ItemAt(root, p).Some?
    ensures Serialize(ItemAt(root, p).value, PathId(p)) in PreOrder(Serialize(root, ""))
  {
    assert [] + p == p;
    TargetInPreOrder(root, [], p);
    assert Serialize(root, "") == Serialize(root, PathId([]));
  }

  lemma NodeOfTreeIsItem(root: Item, n: SceneNode)
    requires n in PreOrder(Serialize(root, ""))
    ensures exists q :: ItemAt(root, q).Some? && n == Serialize(ItemAt(root, q).value, PathId(q))
  {
    assert Serialize(root, "") == Serialize(root, PathId([]));
    SerializedNodesAreItems(root, [], n);
  }

  lemma FirstWithIdFinds(s: seq<SceneNode>, x: SceneNode)
    requires x in s
    ensures FirstWithId(s, x.id).Some?
  {
    var k :| 0 <= k < |s| && s[k] == x;
  }

  lemma NodeIdOfPath(it: Item, q: seq<nat>)
    ensures Serialize(it, PathId(q)).id == PathId(q)
  {
    if q != [] {
      assert PathId(q) != "";
    }
  }

  /** The node of the item at `p ++ r` lies in the subtree serialized for `p`. */
  lemma {:induction false} TargetInPreOrder(root: Item, p: seq<nat>, r: seq<nat>)
    requires ItemAt(root, p + r).Some?
    ensures ItemAt(root, p).Some?
    ensures Serialize(ItemAt(root, p + r).value, PathId(p + r)) in PreOrder(Serialize(ItemAt(root, p).value, PathId(p)))
    decreases |r|
  {
    PrefixExists(root, p, r);
    if r == [] {
      assert p + r == p;
    } else {
      var j := r[0];
      var it := ItemAt(root, p).value;
      ItemAtSnoc(root, p, j);
      assert p + r == (p + [j]) + r[1..];
      PrefixExists(root, p + [j], r[1..]);
      TargetInPreOrder(root, p + [j], r[1..]);
      var c := ItemAt(root, p + [j]).value;
      assert Slot(it, j) == Some(c);
      SerializeChildren(it, PathId(p));
      PresentAt(Slots(it));
      var ix := PresentIndices(Slots(it));
      var k := IndexIn(ix, j);
      var node := Serialize(it, PathId(p));
      assert NodeId(PathId(p)) == PathId(p);
      assert (p + [j])[..|p + [j]| - 1] == p;
      assert node.children[k] == Serialize(c, PathId(p + [j]));
      var target := Serialize(ItemAt(root, p + r).value, PathId(p + r));
      assert target in ChildOrders(node)[k];
      InFlatten(ChildOrders(node), target);
    }
  }

  lemma {:induction false} PrefixExists(root: Item, p: seq<nat>, r: seq<nat>)
    requires ItemAt(root, p + r).Some?
    ensures ItemAt(root, p).Some?
    decreases |r|
  {
    if r == [] {
      assert p + r == p;
    } else {
      var init := r[..|r| - 1];
      assert p + r == (p + init) + [r[|r| - 1]];
      ItemAtSnoc(root, p + init, r[|r| - 1]);
      PrefixExists(root, p, init);
    }
  }
}

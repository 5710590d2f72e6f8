/** The page-side `PAPER_DEVTOOLS_MESSAGE` handler: it looks an item up by
    its path id, changes it in place (selection, visibility, a property),
    and answers with a `PAPER_DEVTOOLS_RESPONSE` that echoes the request id.
    Changing an item in place is modelled as replacing the item at its
    index path in the project tree. */
module MessageRouter {
  import opened Wrappers
  import opened JsValues
  import opened Protocol
  import opened SceneTree

  // ------------------------------------------------------- tree updates

  /** `project.deselectAll()`: every item with a `selected` attribute has
      it set to false; nothing else changes. */
  function DeselectAll(item: Item): Item
    decreases item
  {
    item.(selected := if item.selected.Some? then Some(false) else None,
          children := match item.children
            case NoChildren => NoChildren
            case Kids(cs) => Kids(seq(|cs|, i requires 0 <= i < |cs| =>
              if cs[i].Some? then Some(DeselectAll(cs[i].value)) else None)))
  }

  /** An item with its children left out: what an in-place change may touch. */
  function Attributes(item: Item): Item {
    item.(children := NoChildren)
  }

  /** The tree with the item at path `p` replaced by `x`. */
  function ReplaceAt(root: Item, p: seq<nat>, x: Item): Item
    requires ItemAt(root, p).Some?
    decreases |p|
  {
    if p == [] then x
    else
      var cs := root.children.slots;
      root.(children := Kids(cs[p[0] := Some(ReplaceAt(cs[p[0]].value, p[1..], x))]))
  }

  /** Deselecting keeps every path and deselects the item found there. */
  lemma {:induction false} DeselectAllAt(root: Item, q: seq<nat>)
    ensures ItemAt(DeselectAll(root), q).Some? <==> ItemAt(root, q).Some?
    ensures ItemAt(root, q).Some? ==> ItemAt(DeselectAll(root), q) == Some(DeselectAll(ItemAt(root, q).value))
    decreases |q|
  {
    if q != [] {
      var d := DeselectAll(root);
      assert Slot(d, q[0]).Some? <==> Slot(root, q[0]).Some?;
      if Slot(root, q[0]).Some? {
        var c := Slot(root, q[0]).value;
        assert Slot(d, q[0]) == Some(DeselectAll(c));
        DeselectAllAt(c, q[1..]);
      }
    }
  }

  /** After deselecting, no item is selected. */
  lemma DeselectedEverywhere(root: Item, q: seq<nat>)
    requires ItemAt(root, q).Some?
    ensures ItemAt(DeselectAll(root), q).Some?
    ensures ItemAt(DeselectAll(root), q).value.selected != Some(true)
    ensures ItemAt(DeselectAll(root), q).value.selected.Some? <==> ItemAt(root, q).value.selected.Some?
  {
    DeselectAllAt(root, q);
  }

  /** Replacing keeps the replacement at its path. */
  lemma {:induction false} ReplaceAtTarget(root: Item, p: seq<nat>, x: Item)
    requires ItemAt(root, p).Some?
    ensures ItemAt(ReplaceAt(root, p, x), p) == Some(x)
    decreases |p|
  {
    if p != [] {
      var c := root.children.slots[p[0]].value;
      ReplaceAtTarget(c, p[1..], x);
    }
  }

  /** Replacing an item by one with the same children keeps every path;
      each item keeps its attributes except the replaced one, which takes
      those of the replacement. */
  lemma {:induction false} ReplaceAtElsewhere(root: Item, p: seq<nat>, x: Item, q: seq<nat>)
    requires ItemAt(root, p).Some? && x.children == ItemAt(root, p).value.children
    ensures ItemAt(ReplaceAt(root, p, x), q).Some? <==> ItemAt(root, q).Some?
    ensures ItemAt(root, q).Some? ==>
      Attributes(ItemAt(ReplaceAt(root, p, x), q).value) ==
        (if q == p then Attributes(x) else Attributes(ItemAt(root, q).value))
    decreases |p|
  {
    var r := ReplaceAt(root, p, x);
    if p == [] {
      if q != [] {
        assert Slot(r, q[0]) == Slot(root, q[0]);
      }
    } else if q != [] {
      var cs := root.children.slots;
      var c := cs[p[0]].value;
      if q[0] == p[0] {
        assert Slot(r, q[0]) == Some(ReplaceAt(c, p[1..], x));
        ReplaceAtElsewhere(c, p[1..], x, q[1..]);
        assert q == p <==> q[1..] == p[1..] by {
          if q[1..] == p[1..] {
            assert q == [q[0]] + q[1..] && p == [p[0]] + p[1..];
          }
        }
      } else {
        assert Slot(r, q[0]) == Slot(root, q[0]);
      }
    }
  }

  /** Putting the item that is already at a path back changes nothing. */
  lemma {:induction false} ReplaceAtSame(root: Item, p: seq<nat>)
    requires ItemAt(root, p).Some?
    ensures ReplaceAt(root, p, ItemAt(root, p).value) == root
    decreases |p|
  {
    if p != [] {
      var cs := root.children.slots;
      ReplaceAtSame(cs[p[0]].value, p[1..]);
      assert cs[p[0] := cs[p[0]]] == cs;
    }
  }

  /** A second replacement at the same path overrides the first. */
  lemma {:induction false} ReplaceAtTwice(root: Item, p: seq<nat>, x: Item, y: Item)
    requires ItemAt(root, p).Some?
    ensures ItemAt(ReplaceAt(root, p, x), p).Some?
    ensures ReplaceAt(ReplaceAt(root, p, x), p, y) == ReplaceAt(root, p, y)
    decreases |p|
  {
    ReplaceAtTarget(root, p, x);
    if p != [] {
      var cs := root.children.slots;
      var c := cs[p[0]].value;
      ReplaceAtTwice(c, p[1..], x, y);
      var inner := ReplaceAt(c, p[1..], x);
      var once := root.(children := Kids(cs[p[0] := Some(inner)]));
      assert ReplaceAt(root, p, x) == once;
      assert ReplaceAt(once, p, y) == root.(children := Kids(cs[p[0] := Some(inner)][p[0] := Some(ReplaceAt(inner, p[1..], y))]));
      assert cs[p[0] := Some(inner)][p[0] := Some(ReplaceAt(inner, p[1..], y))] == cs[p[0] := Some(ReplaceAt(c, p[1..], y))];
    }
  }

  // ------------------------------------------------------------- handler

  /** An engine assignment `item[key] = value` (the `fillColor` and
      `strokeColor` setters included): the updated item, or `None` when the
      engine throws. */
  type Assign = (Item, string, JsValue) -> Option<Item>

  /** `item.position.x = value.x; item.position.y = value.y`: a TypeError
      when the item has no position or the value is null. */
  function SetPosition(item: Item, value: JsValue): (r: Option<Item>)
    requires IsObjectType(value)
    ensures r.Some? <==> item.position.Some? && !value.Null?
    ensures r.Some? ==> r.value == item.(position := Some(Coords(Get(value, "x"), Get(value, "y"))))
  {
    if item.position.None? || value.Null? then None
    else Some(item.(position := Some(Coords(Get(value, "x"), Get(value, "y")))))
  }

  /** The assignment inside the `try` of `UPDATE_NODE_PROPERTY`. */
  function AssignProperty(item: Item, property: string, value: JsValue, assign: Assign): Option<Item> {
    if property == "position" && IsObjectType(value) then SetPosition(item, value)
    else assign(item, property, value)
  }

  /** What one message does: the page's new `__PAPER_JS__` and the
      response event, if one is sent. */
  datatype Outcome = Outcome(paper: Option<Paper>, response: Option<ResponseEnvelope>)

  function SelectNodeOutcome(paper: Option<Paper>, m: Envelope): Outcome {
    var nodeId := m.request.nodeId;
    if !TruthyString(nodeId) then Outcome(paper, None)
    else match Resolve(paper, nodeId.value)
      case Found(p, it) =>
        ResolveFoundItem(paper, nodeId.value);
        var cleared := DeselectAll(paper.value.project.value);
        DeselectAllAt(paper.value.project.value, p);
        var target := ItemAt(cleared, p).value;
        var root := if target.selected.Some? then ReplaceAt(cleared, p, target.(selected := Some(true))) else cleared;
        ReplaceAtTarget(cleared, p, target.(selected := Some(true)));
        Outcome(Some(Paper(Some(root))), Some(ResponseEnvelope(m.id, NodeReply(Serialize(ItemAt(root, p).value, nodeId.value)))))
      case _ => Outcome(paper, None)
  }

  function ToggleVisibilityOutcome(paper: Option<Paper>, m: Envelope): Outcome {
    var nodeId := m.request.nodeId;
    if !TruthyString(nodeId) then Outcome(paper, None)
    else match Resolve(paper, nodeId.value)
      case Found(p, it) =>
        if it.visible.None? then Outcome(paper, None)
        else
          ResolveFoundItem(paper, nodeId.value);
          var root := ReplaceAt(paper.value.project.value, p, it.(visible := Some(!it.visible.value)));
          Outcome(Some(Paper(Some(root))), Some(ResponseEnvelope(m.id, SceneTreeReply(Serialize(root, "")))))
      case _ => Outcome(paper, None)
  }

  function UpdatePropertyOutcome(paper: Option<Paper>, m: Envelope, assign: Assign): Outcome {
    var nodeId := m.request.nodeId;
    var property := m.request.property;
    if !TruthyString(nodeId) || !TruthyString(property) then Outcome(paper, None)
    else match Resolve(paper, nodeId.value)
      case Found(p, it) =>
        (match AssignProperty(it, property.value, m.request.value, assign)
         case None => Outcome(paper, None)
         case Some(updated) =>
           ResolveFoundItem(paper, nodeId.value);
           var root := ReplaceAt(paper.value.project.value, p, updated);
           Outcome(Some(Paper(Some(root))), Some(ResponseEnvelope(m.id, NodeReply(Serialize(updated, nodeId.value))))))
      case _ => Outcome(paper, None)
  }

  /** The whole listener: a message without an action, or with an unknown
      one, does nothing; every response carries the request's id. */
  function Dispatch(paper: Option<Paper>, message: Option<Envelope>, assign: Assign): (o: Outcome)
    ensures o.response.Some? ==> message.Some? && o.response.value.id == message.value.id
    ensures o.response.None? ==> o.paper == paper
  {
    if message.None? || !TruthyString(message.value.request.action) then Outcome(paper, None)
    else
      var m := message.value;
      var action := m.request.action.value;
      if action == GetSceneTreeAction then
        (if paper.Some? && paper.value.project.Some?
         then Outcome(paper, Some(ResponseEnvelope(m.id, SceneTreeReply(Serialize(paper.value.project.value, "")))))
         else Outcome(paper, None))
      else if action == SelectNodeAction then SelectNodeOutcome(paper, m)
      else if action == ToggleVisibilityAction then ToggleVisibilityOutcome(paper, m)
      else if action == UpdatePropertyAction then UpdatePropertyOutcome(paper, m, assign)
      else Outcome(paper, None)
  }

  /** The page: `window.__PAPER_JS__` and the response events sent so far. */
  class PageContext {
    var paper: Option<Paper>
    var responses: seq<ResponseEnvelope>

    constructor(paper: Option<Paper>)
      ensures this.paper == paper && responses == []
    {
      this.paper := paper;
      responses := [];
    }

    /** The `PAPER_DEVTOOLS_MESSAGE` listener. */
    method OnDevtoolsMessage(message: Option<Envelope>, assign: Assign)
      modifies this
      ensures paper == Dispatch(old(paper), message, assign).paper
      ensures var r := Dispatch(old(paper), message, assign).response;
        responses == old(responses) + (if r.Some? then [r.value] else [])
    {
      if message.None? || !TruthyString(message.value.request.action) {
        return;
      }
      var m := message.value;
      var action := m.request.action.value;
      var response: Option<Payload> := None;
      if action == GetSceneTreeAction {
        if paper.Some? && paper.value.project.Some? {
          var tree := BuildSceneTree(paper.value.project, "");
          response := Some(SceneTreeReply(tree.value));
        }
      } else if action == SelectNodeAction {
        response := SelectNode(m);
      } else if action == ToggleVisibilityAction {
        response := ToggleNodeVisibility(m);
      } else if action == UpdatePropertyAction {
        response := UpdateNodeProperty(m, assign);
      }
      if response.Some? {
        responses := responses + [ResponseEnvelope(m.id, response.value)];
      }
    }

    method SelectNode(m: Envelope) returns (response: Option<Payload>)
      modifies this
      ensures var o := SelectNodeOutcome(old(paper), m);
        paper == o.paper && responses == old(responses) &&
        (o.response.Some? ==> response == Some(o.response.value.response)) && (o.response.None? ==> response.None?)
    {
      response := None;
      if !TruthyString(m.request.nodeId) {
        return;
      }
      var nodeId := m.request.nodeId.value;
      var found := FindPaperItemById(paper, nodeId);
      if found.Found? {
        var p := found.path;
        ResolveFoundItem(paper, nodeId);
        var root := DeselectAll(paper.value.project.value);
        DeselectAllAt(paper.value.project.value, p);
        var item := ItemAt(root, p).value;
        if item.selected.Some? {
          ReplaceAtTarget(root, p, item.(selected := Some(true)));
          root := ReplaceAt(root, p, item.(selected := Some(true)));
        }
        paper := Some(Paper(Some(root)));
        var node := BuildSceneTree(ItemAt(root, p), nodeId);
        response := Some(NodeReply(node.value));
      }
    }

    method ToggleNodeVisibility(m: Envelope) returns (response: Option<Payload>)
      modifies this
      ensures var o := ToggleVisibilityOutcome(old(paper), m);
        paper == o.paper && responses == old(responses) &&
        (o.response.Some? ==> response == Some(o.response.value.response)) && (o.response.None? ==> response.None?)
    {
      response := None;
      if !TruthyString(m.request.nodeId) {
        return;
      }
      var nodeId := m.request.nodeId.value;
      var found := FindPaperItemById(paper, nodeId);
      if found.Found? && found.item.visible.Some? {
        var item := found.item;
        ResolveFoundItem(paper, nodeId);
        var root := ReplaceAt(paper.value.project.value, found.path, item.(visible := Some(!item.visible.value)));
        paper := Some(Paper(Some(root)));
        var tree := BuildSceneTree(Some(root), "");
        response := Some(SceneTreeReply(tree.value));
      }
    }

    method UpdateNodeProperty(m: Envelope, assign: Assign) returns (response: Option<Payload>)
      modifies this
      ensures var o := UpdatePropertyOutcome(old(paper), m, assign);
        paper == o.paper && responses == old(responses) &&
        (o.response.Some? ==> response == Some(o.response.value.response)) && (o.response.None? ==> response.None?)
    {
      response := None;
      if !TruthyString(m.request.nodeId) || !TruthyString(m.request.property) {
        return;
      }
      var nodeId := m.request.nodeId.value;
      var found := FindPaperItemById(paper, nodeId);
      if found.Found? {
        var updated := AssignProperty(found.item, m.request.property.value, m.request.value, assign);
        if updated.Some? {
          ResolveFoundItem(paper, nodeId);
          var root := ReplaceAt(paper.value.project.value, found.path, updated.value);
          paper := Some(Paper(Some(root)));
          var node := BuildSceneTree(updated, nodeId);
          response := Some(NodeReply(node.value));
        }
      }
    }
  }

  // ------------------------------------------------------------ properties

  function SelectMessage(id: string, nodeId: string): Envelope {
    Envelope(id, Request(Some(SelectNodeAction), Some(nodeId), None, Undefined))
  }

  function ToggleMessage(id: string, nodeId: string): Envelope {
    Envelope(id, Request(Some(ToggleVisibilityAction), Some(nodeId), None, Undefined))
  }

  function UpdateMessage(id: string, nodeId: string, property: string, value: JsValue): Envelope {
    Envelope(id, Request(Some(UpdatePropertyAction), Some(nodeId), Some(property), value))
  }

  /** The scene tree is sent exactly when there is a project. */
  lemma GetSceneTreeReplies(paper: Option<Paper>, id: string, assign: Assign)
    ensures var o := Dispatch(paper, Some(Envelope(id, Request(Some(GetSceneTreeAction), None, None, Undefined))), assign);
      o.paper == paper &&
      (o.response.Some? <==> paper.Some? && paper.value.project.Some?) &&
      (o.response.Some? ==> o.response.value == ResponseEnvelope(id, SceneTreeReply(Serialize(paper.value.project.value, ""))))
  {
  }

  /** Selecting a node that resolves deselects every other item and marks
      the target (when it has a `selected` attribute) as the only selected
      one; a node that does not resolve gets no answer. */
  lemma {:induction false} SelectNodeSelectsOnlyTarget(paper: Option<Paper>, id: string, nodeId: string, assign: Assign, q: seq<nat>)
    requires nodeId != ""
    ensures var o := Dispatch(paper, Some(SelectMessage(id, nodeId)), assign);
      var r := Resolve(paper, nodeId);
      (o.response.Some? <==> r.Found?) &&
      (r.Found? ==>
        o.paper.Some? && o.paper.value.project.Some? &&
        var root := o.paper.value.project.value;
        (ItemAt(root, q).Some? <==> ItemAt(paper.value.project.value, q).Some?) &&
        (ItemAt(root, q).Some? ==>
          (ItemAt(root, q).value.selected == Some(true) <==> q == r.path && r.item.selected.Some?)))
  {
    var r := Resolve(paper, nodeId);
    if r.Found? {
      ResolveFoundItem(paper, nodeId);
      var old_root := paper.value.project.value;
      var p := r.path;
      var cleared := DeselectAll(old_root);
      DeselectAllAt(old_root, p);
      DeselectAllAt(old_root, q);
      var target := ItemAt(cleared, p).value;
      if target.selected.Some? {
        var x := target.(selected := Some(true));
        ReplaceAtElsewhere(cleared, p, x, q);
        ReplaceAtTarget(cleared, p, x);
        if ItemAt(cleared, q).Some? && q != p {
          DeselectedEverywhere(old_root, q);
        }
      } else {
        if ItemAt(cleared, q).Some? {
          DeselectedEverywhere(old_root, q);
        }
      }
    }
  }

  /** Toggling the same node twice restores the page; the first toggle
      flips the target's `visible` and answers with the whole new tree. */
  lemma {:induction false} ToggleTwiceRestores(paper: Option<Paper>, id: string, nodeId: string, assign: Assign)
    requires nodeId != ""
    ensures var o1 := Dispatch(paper, Some(ToggleMessage(id, nodeId)), assign);
      var o2 := Dispatch(o1.paper, Some(ToggleMessage(id, nodeId)), assign);
      o1.response.Some? ==> o2.response.Some? && o2.paper == paper
    ensures var o1 := Dispatch(paper, Some(ToggleMessage(id, nodeId)), assign);
      var r := Resolve(paper, nodeId);
      o1.response.Some? <==> r.Found? && r.item.visible.Some?
    ensures var o1 := Dispatch(paper, Some(ToggleMessage(id, nodeId)), assign);
      var r := Resolve(paper, nodeId);
      o1.response.Some? ==>
        r.Found? && r.item.visible.Some? && o1.paper.Some? && o1.paper.value.project.Some? &&
        ItemAt(o1.paper.value.project.value, r.path) == Some(r.item.(visible := Some(!r.item.visible.value))) &&
        o1.response.value.response == SceneTreeReply(Serialize(o1.paper.value.project.value, ""))
  {
    var r := Resolve(paper, nodeId);
    if r.Found? && r.item.visible.Some? {
      ResolveFoundItem(paper, nodeId);
      var root := paper.value.project.value;
      var p := r.path;
      var flipped := r.item.(visible := Some(!r.item.visible.value));
      ResolveFound(root, nodeId);
      ToggleResolvesAgain(root, nodeId, p, flipped);
      ReplaceAtTarget(root, p, flipped);
      var back := flipped.(visible := Some(!flipped.visible.value));
      assert back == r.item;
      ReplaceAtTwice(root, p, flipped, back);
      ReplaceAtSame(root, p);
    }
  }

  /** After an in-place change that keeps the children, the same id still
      resolves, to the changed item at the same path. */
  lemma ToggleResolvesAgain(root: Item, nodeId: string, p: seq<nat>, x: Item)
    requires ItemAt(root, p).Some? && Resolve(Some(Paper(Some(root))), nodeId) == Found(p, ItemAt(root, p).value)
    requires x.children == ItemAt(root, p).value.children
    ensures Resolve(Some(Paper(Some(ReplaceAt(root, p, x)))), nodeId) == Found(p, x)
  {
    var root1 := ReplaceAt(root, p, x);
    ResolveFound(root, nodeId);
    ResolveFound(root1, nodeId);
    ReplaceAtElsewhere(root, p, x, p);
    ReplaceAtTarget(root, p, x);
  }

  /** Updating `position` with an object sets x and y on the existing
      position from the value's own `x` and `y`, and the answer shows them. */
  lemma UpdatePositionSetsCoordinates(paper: Option<Paper>, id: string, nodeId: string, value: JsValue, assign: Assign)
    requires nodeId != "" && value.Obj?
    requires Resolve(paper, nodeId).Found? && Resolve(paper, nodeId).item.position.Some?
    ensures var o := Dispatch(paper, Some(UpdateMessage(id, nodeId, "position", value)), assign);
      var r := Resolve(paper, nodeId);
      var moved := r.item.(position := Some(Coords(Get(value, "x"), Get(value, "y"))));
      o.paper.Some? && o.paper.value.project.Some? &&
      ItemAt(o.paper.value.project.value, r.path) == Some(moved) &&
      o.response == Some(ResponseEnvelope(id, NodeReply(Serialize(moved, nodeId)))) &&
      "position" in Serialize(moved, nodeId).properties &&
      Serialize(moved, nodeId).properties["position"] == Obj(map["x" := Get(value, "x"), "y" := Get(value, "y")])
  {
    ResolveFoundItem(paper, nodeId);
    var r := Resolve(paper, nodeId);
    var moved := r.item.(position := Some(Coords(Get(value, "x"), Get(value, "y"))));
    ReplaceAtTarget(paper.value.project.value, r.path, moved);
    PropertiesPresence(moved);
  }

  /** A position update on an item without a position, or with a null
      value, throws inside the `try`: no answer and no change. */
  lemma UpdatePositionThrows(paper: Option<Paper>, id: string, nodeId: string, value: JsValue, assign: Assign)
    requires IsObjectType(value)
    requires Resolve(paper, nodeId).Found?
    requires Resolve(paper, nodeId).item.position.None? || value.Null?
    ensures Dispatch(paper, Some(UpdateMessage(id, nodeId, "position", value)), assign) == Outcome(paper, None)
  {
  }

  /** A thrown assignment is caught and answered with nothing. */
  lemma ThrownAssignmentNoResponse(paper: Option<Paper>, id: string, nodeId: string, property: string, value: JsValue, assign: Assign)
    requires Resolve(paper, nodeId).Found?
    requires AssignProperty(Resolve(paper, nodeId).item, property, value, assign).None?
    ensures Dispatch(paper, Some(UpdateMessage(id, nodeId, property, value)), assign) == Outcome(paper, None)
  {
  }

  /** An id that does not resolve gets no answer, and nothing changes. */
  lemma UnresolvedNoResponse(paper: Option<Paper>, m: Envelope, assign: Assign)
    requires m.request.nodeId.Some? && !Resolve(paper, m.request.nodeId.value).Found?
    requires m.request.action == Some(SelectNodeAction) || m.request.action == Some(ToggleVisibilityAction) ||
             m.request.action == Some(UpdatePropertyAction)
    ensures Dispatch(paper, Some(m), assign) == Outcome(paper, None)
  {
  }

  /** A message without an action, or with one the page does not know, is ignored. */
  lemma UnknownActionIgnored(paper: Option<Paper>, m: Envelope, assign: Assign)
    requires m.request.action.None? ||
             m.request.action.value !in {GetSceneTreeAction, SelectNodeAction, ToggleVisibilityAction, UpdatePropertyAction}
    ensures Dispatch(paper, Some(m), assign) == Outcome(paper, None)
  {
  }
}

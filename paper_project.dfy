/** What the example app's tools share through paper.js: the project's
    items with their bounds and `selected` flags, the paths the drawing
    tools build, the canvas cursor, and the window events the tools
    dispatch. Items are opaque references; hit testing and containment
    are left to the callers as given answers. */
module PaperProject {
  import opened Wrappers
  import opened Geometry

  /** A project item the select tool can pick. */
  datatype Item = Item(id: nat)

  /** A path segment. A polygon corner is kept symbolically, as the
      `index`-th of `sides` corners of the regular polygon around `center`
      through `through`; its coordinates (trigonometry) are not computed. */
  datatype Segment =
    | At(point: Point)
    | Corner(center: Point, through: Point, index: nat, sides: nat)

  datatype BoxKind = RectangleBox | EllipseBox

  /** A free path with its segment list, or a `Path.Rectangle` /
      `Path.Ellipse` described by its bounding rectangle. */
  datatype Shape =
    | Polyline(segments: seq<Segment>, closed: bool)
    | Box(kind: BoxKind, rect: Rect)

  /** `strokeColor`, `strokeWidth` and an optional `fillColor`. */
  datatype Style = Style(strokeColor: string, strokeWidth: real, fillColor: Option<string>)

  /** A drawn path and the number of `simplify` calls applied to it. */
  datatype PathItem = PathItem(shape: Shape, style: Style, simplified: nat)

  function Simplify(p: PathItem): (q: PathItem)
    ensures q.shape == p.shape && q.style == p.style && q.simplified == p.simplified + 1
  {
    p.(simplified := p.simplified + 1)
  }

  /** `path.removeSegment(i)`: the segment at `i`, when there is one, is
      taken out. */
  function RemoveSegment(segments: seq<Segment>, i: nat): (r: seq<Segment>)
    ensures i < |segments| ==> |r| == |segments| - 1 && r[..i] == segments[..i] && r[i..] == segments[i + 1..]
    ensures i >= |segments| ==> r == segments
  {
    if i < |segments| then segments[..i] + segments[i + 1..] else segments
  }

  /** The tools' window events. */
  datatype Event =
    | PathCreated(path: PathItem)
    | ToolActivated
    | ToolDeactivated
    | ToolChanged(toolType: string)
    | ItemSelected(item: Item)
    | ItemUnselected
    | ItemMoved(item: Item, position: Point)
    | ItemResized(item: Item, bounds: Rect)

  class Project {
    /** The bounds of every item the select tool can pick. */
    var bounds: map<Item, Rect>
    /** The items whose `selected` flag is set. */
    var selected: set<Item>
    /** The canvas element's `style.cursor`. */
    var cursor: string
    /** The events dispatched on `window`, oldest first. */
    var events: seq<Event>

    constructor(bounds: map<Item, Rect>)
      ensures this.bounds == bounds && selected == {} && cursor == "default" && events == []
    {
      this.bounds := bounds;
      selected := {};
      cursor := "default";
      events := [];
    }

    /** `project.deselectAll()`. */
    method DeselectAll()
      modifies this
      ensures selected == {}
      ensures bounds == old(bounds) && cursor == old(cursor) && events == old(events)
    {
      selected := {};
    }

    method Dispatch(e: Event)
      modifies this
      ensures events == old(events) + [e]
      ensures bounds == old(bounds) && selected == old(selected) && cursor == old(cursor)
    {
      events := events + [e];
    }
  }
}

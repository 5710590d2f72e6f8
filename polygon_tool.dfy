/** `PolygonTool`: a press starts a closed regular polygon centred on the
    press point, dragging resizes and turns it, and the release keeps it
    only when the mouse position ended at least 5 from the centre. A press less
    than 300 ms after the previous one counts as a double click. The
    clock (`Date.now()`) is the `now` argument of the press. */
module PolygonTool {
  import opened Wrappers
  import opened Geometry
  import opened PaperProject
  import opened Drawing

  const DoubleClickMillis := 300
  const DefaultSides := 5

  /** The `sides` corners `updatePolygonPath` adds, in order. */
  function Vertices(center: Point, through: Point, sides: nat): (corners: seq<Segment>)
    ensures |corners| == sides
    ensures forall i :: 0 <= i < sides ==> corners[i] == Corner(center, through, i, sides)
  {
    seq(sides, i requires 0 <= i < sides => Corner(center, through, i, sides))
  }

  /** `Math.max(3, Math.floor(s))`. */
  function SidesFor(s: real): (n: int)
    ensures n >= 3 && (s >= 3.0 ==> n == s.Floor) && (s < 3.0 ==> n == 3)
  {
    if 3 <= s.Floor then s.Floor else 3
  }

  class PolygonTool {
    const base: BaseTool
    var isDrawing: bool
    var lastClickTime: int
    var sides: int

    /** At least three sides, and a polygon in progress is a closed path.
        (Its corner count follows `sides` only from the next redraw on.) */
    predicate Valid()
      reads this, base
    {
      sides >= 3 &&
      (base.path.Some? ==>
        base.startPoint.Some? && base.path.value.shape.Polyline? && base.path.value.shape.closed)
    }

    constructor(project: Project)
      ensures fresh(base) && base.project == project && Valid()
      ensures base.Fields() == DefaultStyle
      ensures base.path.None? && base.startPoint.None? && base.currentPoint.None? && base.removed == []
      ensures !isDrawing && lastClickTime == 0 && sides == DefaultSides
    {
      base := new BaseTool(project, true);
      isDrawing := false;
      lastClickTime := 0;
      sides := DefaultSides;
    }

    /** `setSides(s)`. */
    method SetSides(s: real)
      requires Valid()
      modifies this
      ensures Valid() && sides == SidesFor(s)
      ensures isDrawing == old(isDrawing) && lastClickTime == old(lastClickTime)
    {
      sides := if 3 <= s.Floor then s.Floor else 3;
    }

    /** `updatePolygonPath(center, through)`: the path's segments are
        replaced by exactly `sides` corners. */
    method UpdatePolygonPath(center: Point, through: Point)
      requires sides >= 3
      requires base.path.Some? ==> base.path.value.shape.Polyline?
      modifies base
      ensures old(base.path).None? ==> unchanged(base)
      ensures old(base.path).Some? ==>
        base.path == Some(old(base.path).value.(shape := Polyline(Vertices(center, through, sides), old(base.path).value.shape.closed)))
      ensures base.startPoint == old(base.startPoint) && base.currentPoint == old(base.currentPoint)
      ensures base.removed == old(base.removed) && base.Fields() == old(base.Fields())
    {
      if base.path.None? {
        return;
      }
      var path := base.path.value;
      var closed := path.shape.closed;
      path := path.(shape := Polyline([], closed));
      for i := 0 to sides
        invariant path == base.path.value.(shape := Polyline(Vertices(center, through, sides)[..i], closed))
      {
        assert Vertices(center, through, sides)[..i + 1] == Vertices(center, through, sides)[..i] + [Corner(center, through, i, sides)];
        path := path.(shape := path.shape.(segments := path.shape.segments + [Corner(center, through, i, sides)]));
      }
      assert Vertices(center, through, sides)[..sides] == Vertices(center, through, sides);
      base.path := Some(path);
    }

    /** The press at `point` at time `now`. */
    method OnMouseDown(point: Point, now: int)
      requires Valid()
      modifies this, base, base.project
      ensures Valid() && sides == old(sides)
      // a double click: a polygon in progress is finished, no new one starts
      ensures now - old(lastClickTime) < DoubleClickMillis ==>
        lastClickTime == 0 && !isDrawing && base.removed == old(base.removed) &&
        (old(isDrawing) ==>
          base.path.None? && base.startPoint.None? && base.currentPoint.None? &&
          base.project.events == old(base.project.events) + if old(base.path).Some? then [PathCreated(Simplify(old(base.path).value))] else []) &&
        (!old(isDrawing) ==> unchanged(base) && unchanged(base.project))
      // a first press while idle: a fresh closed polygon around the point
      ensures now - old(lastClickTime) >= DoubleClickMillis && !old(isDrawing) ==>
        lastClickTime == now && isDrawing &&
        base.path == Some(PathItem(Polyline(Vertices(point, point, sides), true), old(base.PathOptions()), 0)) &&
        base.startPoint == Some(point) && base.currentPoint == Some(point) &&
        base.removed == old(base.removed) + (if old(base.path).Some? then [old(base.path).value] else []) &&
        unchanged(base.project)
      // a press while drawing only records the time
      ensures now - old(lastClickTime) >= DoubleClickMillis && old(isDrawing) ==>
        lastClickTime == now && isDrawing && unchanged(base) && unchanged(base.project)
      ensures base.Fields() == old(base.Fields())
      ensures base.project.bounds == old(base.project.bounds) && base.project.selected == old(base.project.selected)
      ensures base.project.cursor == old(base.project.cursor)
    {
      if now - lastClickTime < DoubleClickMillis {
        if isDrawing {
          base.FinishDrawing();
          isDrawing := false;
        }
        lastClickTime := 0;
        return;
      }
      lastClickTime := now;
      if !isDrawing {
        base.CancelDrawing();
        base.startPoint := Some(point);
        base.currentPoint := Some(point);
        var path := base.CreatePath();
        base.path := Some(path.(shape := path.shape.(closed := true)));
        UpdatePolygonPath(point, point);
        isDrawing := true;
      }
    }

    /** A drag redraws the polygon through the mouse position; it does nothing
        unless a path, a start point and `isDrawing` are all set. */
    method OnMouseDrag(point: Point)
      requires Valid()
      modifies base
      ensures Valid()
      ensures old(base.path).None? || old(base.startPoint).None? || !isDrawing ==> unchanged(base)
      ensures old(base.path).Some? && old(base.startPoint).Some? && isDrawing ==>
        base.currentPoint == Some(point) &&
        base.path == Some(old(base.path).value.(shape := Polyline(Vertices(old(base.startPoint).value, point, sides), true)))
      ensures base.startPoint == old(base.startPoint)
      ensures base.removed == old(base.removed) && base.Fields() == old(base.Fields())
    {
      if base.path.None? || base.startPoint.None? || !isDrawing {
        return;
      }
      base.currentPoint := Some(point);
      UpdatePolygonPath(base.startPoint.value, point);
    }

    /** The release: the polygon is redrawn through the mouse position, then
        removed when the mouse position is closer than 5 to the centre and
        finished otherwise; `isDrawing` ends false either way. */
    method OnMouseUp(point: Point)
      requires Valid()
      modifies this, base, base.project
      ensures Valid() && sides == old(sides) && lastClickTime == old(lastClickTime)
      ensures old(base.path).None? || old(base.startPoint).None? || !old(isDrawing) ==>
        isDrawing == old(isDrawing) && unchanged(base) && unchanged(base.project)
      ensures old(base.path).Some? && old(base.startPoint).Some? && old(isDrawing) ==>
        var drawn := old(base.path).value.(shape := Polyline(Vertices(old(base.startPoint).value, point, sides), true));
        !isDrawing && base.path.None? && base.startPoint.None? && base.currentPoint.None? &&
        (CloserThan(old(base.startPoint).value, point, 5.0) ==>
          base.removed == old(base.removed) + [drawn] && unchanged(base.project)) &&
        (!CloserThan(old(base.startPoint).value, point, 5.0) ==>
          base.removed == old(base.removed) &&
          base.project.events == old(base.project.events) + [PathCreated(Simplify(drawn))] &&
          base.project.bounds == old(base.project.bounds) && base.project.selected == old(base.project.selected) &&
          base.project.cursor == old(base.project.cursor))
      ensures base.Fields() == old(base.Fields())
    {
      if base.path.None? || base.startPoint.None? || !isDrawing {
        return;
      }
      base.currentPoint := Some(point);
      UpdatePolygonPath(base.startPoint.value, point);
      if CloserThan(base.startPoint.value, base.currentPoint.value, 5.0) {
        base.CancelDrawing();
        isDrawing := false;
        return;
      }
      base.FinishDrawing();
      isDrawing := false;
    }

    /** Escape cancels the polygon and ends `isDrawing`; other keys do
        nothing. */
    method OnKeyDown(key: string)
      requires Valid()
      modifies this, base
      ensures Valid() && sides == old(sides) && lastClickTime == old(lastClickTime)
      ensures key == "escape" ==>
        !isDrawing && base.path.None? && base.startPoint.None? && base.currentPoint.None? &&
        base.removed == old(base.removed) + if old(base.path).Some? then [old(base.path).value] else []
      ensures key != "escape" ==> isDrawing == old(isDrawing) && unchanged(base)
      ensures base.Fields() == old(base.Fields())
    {
      if key == "escape" {
        base.CancelDrawing();
        isDrawing := false;
      }
    }
  }
}

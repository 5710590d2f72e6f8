/** `LineTool`: a press starts a two-segment line at the press point, each
    drag moves its second segment to the mouse position, and the release keeps the
    line only when it is at least 2 long. */
module LineTool {
  import opened Wrappers
  import opened Geometry
  import opened PaperProject
  import opened Drawing

  /** The path a press at `p` starts: stroke colour and width only (never a
      fill), and both segments at the press point. */
  function StartedLine(t: ToolStyle, p: Point): (path: PathItem)
    ensures path.shape == Polyline([At(p), At(p)], false) && path.simplified == 0
    ensures path.style.fillColor.None?
    ensures path.style.strokeColor == t.strokeColor && path.style.strokeWidth == t.strokeWidth
  {
    PathItem(Polyline([At(p), At(p)], false), Style(t.strokeColor, t.strokeWidth, None), 0)
  }

  /** The line after a drag to `p`: segment 1 removed, `p` appended. */
  function DraggedLine(path: PathItem, p: Point): (r: PathItem)
    requires path.shape.Polyline?
    ensures r.shape.Polyline? && r.style == path.style && r.simplified == path.simplified
    ensures |path.shape.segments| == 2 ==> r.shape.segments == [path.shape.segments[0], At(p)]
  {
    path.(shape := path.shape.(segments := RemoveSegment(path.shape.segments, 1) + [At(p)]))
  }

  class LineTool {
    const base: BaseTool

    /** A line in progress has two segments, the first at the start point. */
    predicate Valid()
      reads this, base
    {
      base.path.Some? ==>
        base.startPoint.Some? && base.path.value.shape.Polyline? && !base.path.value.shape.closed &&
        |base.path.value.shape.segments| == 2 && base.path.value.shape.segments[0] == At(base.startPoint.value)
    }

    /** `fill` is false by default. */
    constructor(project: Project)
      ensures fresh(base) && base.project == project && Valid()
      ensures base.Fields() == DefaultStyle.(fill := false)
      ensures base.path.None? && base.startPoint.None? && base.currentPoint.None? && base.removed == []
    {
      base := new BaseTool(project, false);
    }

    method OnMouseDown(point: Point)
      modifies base
      ensures Valid()
      ensures base.path == Some(StartedLine(old(base.Fields()), point))
      ensures base.startPoint == Some(point) && base.currentPoint.None?
      ensures base.removed == old(base.removed) + if old(base.path).Some? then [old(base.path).value] else []
      ensures base.Fields() == old(base.Fields())
    {
      base.CancelDrawing();
      base.startPoint := Some(point);
      var path := PathItem(Polyline([], false), Style(base.strokeColor, base.strokeWidth, None), 0);
      path := path.(shape := path.shape.(segments := path.shape.segments + [At(point)]));
      path := path.(shape := path.shape.(segments := path.shape.segments + [At(point)]));
      assert path.shape.segments == [At(point), At(point)];
      base.path := Some(path);
    }

    /** Without a path and a start point a drag does nothing; otherwise the
        line keeps its start and ends at the mouse position. */
    method OnMouseDrag(point: Point)
      requires Valid()
      modifies base
      ensures Valid()
      ensures old(base.path).None? || old(base.startPoint).None? ==> unchanged(base)
      ensures old(base.path).Some? && old(base.startPoint).Some? ==>
        base.path == Some(DraggedLine(old(base.path).value, point)) &&
        base.path.value.shape.segments == [At(old(base.startPoint).value), At(point)]
      ensures base.startPoint == old(base.startPoint) && base.currentPoint == old(base.currentPoint)
      ensures base.removed == old(base.removed) && base.Fields() == old(base.Fields())
    {
      if base.path.None? || base.startPoint.None? {
        return;
      }
      base.path := Some(DraggedLine(base.path.value, point));
    }

    /** The release: a line shorter than 2 is removed, a longer one
        finished. Without a path and a start point nothing happens. */
    method OnMouseUp(point: Point)
      requires Valid()
      modifies base, base.project
      ensures Valid()
      ensures old(base.path).None? || old(base.startPoint).None? ==> unchanged(base) && unchanged(base.project)
      ensures old(base.path).Some? && old(base.startPoint).Some? && CloserThan(old(base.startPoint).value, point, 2.0) ==>
        base.path.None? && base.startPoint.None? && base.currentPoint.None? &&
        base.removed == old(base.removed) + [old(base.path).value] &&
        unchanged(base.project)
      ensures old(base.path).Some? && old(base.startPoint).Some? && !CloserThan(old(base.startPoint).value, point, 2.0) ==>
        base.path.None? && base.startPoint.None? && base.currentPoint.None? &&
        base.removed == old(base.removed) &&
        base.project.events == old(base.project.events) + [PathCreated(Simplify(old(base.path).value))] &&
        base.project.bounds == old(base.project.bounds) && base.project.selected == old(base.project.selected) &&
        base.project.cursor == old(base.project.cursor)
      ensures base.Fields() == old(base.Fields())
    {
      if base.path.None? || base.startPoint.None? {
        return;
      }
      if CloserThan(base.startPoint.value, point, 2.0) {
        base.CancelDrawing();
        return;
      }
      base.FinishDrawing();
    }

    /** Escape cancels the line; other keys do nothing. */
    method OnKeyDown(key: string)
      requires Valid()
      modifies base
      ensures Valid()
      ensures key == "escape" ==>
        base.path.None? && base.startPoint.None? && base.currentPoint.None? &&
        base.removed == old(base.removed) + if old(base.path).Some? then [old(base.path).value] else []
      ensures key != "escape" ==> unchanged(base)
      ensures base.Fields() == old(base.Fields())
    {
      if key == "escape" {
        base.CancelDrawing();
      }
    }
  }
}

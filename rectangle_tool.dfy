/** `RectangleTool`: a press starts a rectangle from the press point to itself, every
    drag replaces it by a rectangle from the press point to the mouse position, and the
    release keeps it only when its bounds are at least 2 wide and 2 high. */
module RectangleTool {
  import opened Wrappers
  import opened Geometry
  import opened PaperProject
  import opened Drawing

  class RectangleTool {
    const base: BaseTool

    /** The path in progress is a rectangle and the start point is set. */
    predicate Valid()
      reads this, base
    {
      base.path.Some? ==>
        base.startPoint.Some? && base.path.value.shape.Box? && base.path.value.shape.kind == RectangleBox
    }

    constructor(project: Project)
      ensures fresh(base) && base.project == project && Valid()
      ensures base.Fields() == DefaultStyle
      ensures base.path.None? && base.startPoint.None? && base.currentPoint.None? && base.removed == []
    {
      base := new BaseTool(project, true);
    }

    /** The press: any old path is removed, and a rectangle from `point` to
        `point` is started in the tool's style. */
    method OnMouseDown(point: Point)
      modifies base
      ensures Valid()
      ensures base.path == Some(BoxPath(RectangleBox, old(base.PathOptions()), point, point))
      ensures base.startPoint == Some(point) && base.currentPoint.None?
      ensures base.removed == old(base.removed) + if old(base.path).Some? then [old(base.path).value] else []
      ensures base.Fields() == old(base.Fields())
    {
      base.CancelDrawing();
      base.startPoint := Some(point);
      base.path := Some(PathItem(Box(RectangleBox, Between(point, point)), base.PathOptions(), 0));
    }

    /** A drag removes the old path and draws a rectangle from the start to the mouse
        position; without a path and a start point nothing happens. */
    method OnMouseDrag(point: Point)
      requires Valid()
      modifies base
      ensures Valid()
      ensures old(base.path).None? || old(base.startPoint).None? ==> unchanged(base)
      ensures old(base.path).Some? && old(base.startPoint).Some? ==>
        base.path == Some(BoxPath(RectangleBox, old(base.PathOptions()), old(base.startPoint).value, point)) &&
        base.removed == old(base.removed) + [old(base.path).value]
      ensures base.startPoint == old(base.startPoint) && base.currentPoint == old(base.currentPoint)
      ensures base.Fields() == old(base.Fields())
    {
      if base.path.None? || base.startPoint.None? {
        return;
      }
      base.removed := base.removed + [base.path.value];
      base.path := Some(PathItem(Box(RectangleBox, Between(base.startPoint.value, point)), base.PathOptions(), 0));
    }

    /** The release: bounds narrower or lower than 2 cancel, anything else
        is finished. Without a path and a start point nothing happens. */
    method OnMouseUp(point: Point)
      requires Valid()
      modifies base, base.project
      ensures Valid()
      ensures old(base.path).None? || old(base.startPoint).None? ==> unchanged(base) && unchanged(base.project)
      ensures old(base.path).Some? && old(base.startPoint).Some? && TooSmall(old(base.path).value.shape.rect) ==>
        base.path.None? && base.startPoint.None? && base.currentPoint.None? &&
        base.removed == old(base.removed) + [old(base.path).value] &&
        unchanged(base.project)
      ensures old(base.path).Some? && old(base.startPoint).Some? && !TooSmall(old(base.path).value.shape.rect) ==>
        base.path.None? && base.startPoint.None? && base.currentPoint.None? &&
        base.removed == old(base.removed) &&
        base.project.events == old(base.project.events) + [PathCreated(Simplify(old(base.path).value))] &&
        base.project.bounds == old(base.project.bounds) && base.project.selected == old(base.project.selected) &&
        base.project.cursor == old(base.project.cursor)
      ensures base.Fields() == old(base.Fields())
    {
      if base.path.None? || base.startPoint.None? {
        return;
      }
      var bounds := base.path.value.shape.rect;
      if bounds.Width() < 2.0 || bounds.Height() < 2.0 {
        assert TooSmall(bounds);
        base.CancelDrawing();
        return;
      }
      base.FinishDrawing();
    }

    /** Escape cancels the drawing; other keys do nothing. */
    method OnKeyDown(key: string)
      requires Valid()
      modifies base
      ensures Valid()
      ensures key == "escape" ==>
        base.path.None? && base.startPoint.None? && base.currentPoint.None? &&
        base.removed == old(base.removed) + if old(base.path).Some? then [old(base.path).value] else []
      ensures key != "escape" ==> unchanged(base)
      ensures base.Fields() == old(base.Fields())
    {
      if key == "escape" {
        base.CancelDrawing();
      }
    }
  }
}

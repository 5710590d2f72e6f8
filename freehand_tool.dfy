/** `FreehandTool`: a press starts an open path at the press point, every
    drag appends the mouse position, and the release keeps the path (simplified)
    only when it has at least two segments. */
module FreehandTool {
  import opened Wrappers
  import opened Geometry
  import opened PaperProject
  import opened Drawing

  class FreehandTool {
    const base: BaseTool

    /** A path in progress is an open polyline that starts at the press
        point. */
    predicate Valid()
      reads this, base
    {
      base.path.Some? ==>
        base.path.value.shape.Polyline? && !base.path.value.shape.closed &&
        base.startPoint.Some? && |base.path.value.shape.segments| >= 1 &&
        base.path.value.shape.segments[0] == At(base.startPoint.value)
    }

    /** `fill` is false by default. */
    constructor(project: Project)
      ensures fresh(base) && base.project == project && Valid()
      ensures base.Fields() == DefaultStyle.(fill := false)
      ensures base.path.None? && base.startPoint.None? && base.currentPoint.None? && base.removed == []
    {
      base := new BaseTool(project, false);
    }

    /** The press: any old path is removed and a path with the single
        segment `point` is started in the tool's style. */
    method OnMouseDown(point: Point)
      modifies base
      ensures Valid()
      ensures base.path == Some(old(base.CreatePath()).(shape := Polyline([At(point)], false)))
      ensures base.startPoint == Some(point) && base.currentPoint.None?
      ensures base.removed == old(base.removed) + if old(base.path).Some? then [old(base.path).value] else []
      ensures base.Fields() == old(base.Fields())
    {
      base.CancelDrawing();
      base.startPoint := Some(point);
      var path := base.CreatePath();
      path := path.(shape := path.shape.(segments := path.shape.segments + [At(point)]));
      assert path.shape.segments == [At(point)];
      base.path := Some(path);
    }

    /** Each drag appends exactly the mouse position; without a path nothing
        happens. */
    method OnMouseDrag(point: Point)
      requires Valid()
      modifies base
      ensures Valid()
      ensures old(base.path).None? ==> unchanged(base)
      ensures old(base.path).Some? ==>
        base.path == Some(old(base.path).value.(shape := old(base.path).value.shape.(
          segments := old(base.path).value.shape.segments + [At(point)])))
      ensures base.startPoint == old(base.startPoint) && base.currentPoint == old(base.currentPoint)
      ensures base.removed == old(base.removed) && base.Fields() == old(base.Fields())
    {
      if base.path.None? {
        return;
      }
      var path := base.path.value;
      base.path := Some(path.(shape := path.shape.(segments := path.shape.segments + [At(point)])));
    }

    /** The release: no path or fewer than two segments cancels; otherwise
        the path is simplified (`simplify(2.5)`) and finished, which
        simplifies it once more. */
    method OnMouseUp(point: Point)
      requires Valid()
      modifies base, base.project
      ensures Valid()
      ensures base.path.None? && base.startPoint.None? && base.currentPoint.None?
      ensures old(base.path).None? || |old(base.path).value.shape.segments| < 2 ==>
        base.removed == old(base.removed) + (if old(base.path).Some? then [old(base.path).value] else []) &&
        unchanged(base.project)
      ensures old(base.path).Some? && |old(base.path).value.shape.segments| >= 2 ==>
        base.removed == old(base.removed) &&
        base.project.events == old(base.project.events) + [PathCreated(Simplify(Simplify(old(base.path).value)))] &&
        base.project.bounds == old(base.project.bounds) && base.project.selected == old(base.project.selected) &&
        base.project.cursor == old(base.project.cursor)
      ensures base.Fields() == old(base.Fields())
    {
      if base.path.None? || |base.path.value.shape.segments| < 2 {
        base.CancelDrawing();
        return;
      }
      base.path := Some(Simplify(base.path.value));
      base.FinishDrawing();
    }

    /** Escape cancels the path; other keys do nothing. */
    method OnKeyDown(key: string)
      requires Valid()
      modifies base
      ensures Valid()
      ensures key == "escape" ==>
        base.path.None? && base.startPoint.None? && base.currentPoint.None? &&
        base.removed == old(base.removed) + if old(base.path).Some? then [old(base.path).value] else []
      ensures key != "escape" ==> unchanged(base)
      ensures base.Fields() == old(base.Fields())
    {
      if key == "escape" {
        base.CancelDrawing();
      }
    }
  }
}

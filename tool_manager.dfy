/** `ToolManager`: the seven tools of the example app registered under
    their type names, the currently active type, and the operations that
    switch, look up and configure them. A returned tool is identified by
    the type it is registered under. */
module ToolManager {
  import opened Wrappers
  import opened PaperProject
  import opened Drawing
  import PaperTools
  import RectangleTool
  import EllipseTool
  import LineTool
  import FreehandTool
  import PolygonTool

  /** The `ToolType` enum's string values. */
  type ToolType = string

  const SelectType: ToolType := "select"
  const RectangleType: ToolType := "rectangle"
  const CircleType: ToolType := "circle"
  const EllipseType: ToolType := "ellipse"
  const LineType: ToolType := "line"
  const FreehandType: ToolType := "freehand"
  const PolygonType: ToolType := "polygon"

  const AllTypes: set<ToolType> :=
    {SelectType, RectangleType, CircleType, EllipseType, LineType, FreehandType, PolygonType}

  /** What `getActiveTool()` returns. */
  datatype ActiveTool = ActiveTool(toolType: Option<ToolType>, tool: Option<ToolType>)

  class ToolManager {
    const project: Project
    const select: PaperTools.SelectTool
    const rectangle: RectangleTool.RectangleTool
    /** The circle tool is a drawing tool with the base behaviour only. */
    const circle: BaseTool
    const ellipse: EllipseTool.EllipseTool
    const line: LineTool.LineTool
    const freehand: FreehandTool.FreehandTool
    const polygon: PolygonTool.PolygonTool
    /** The keys of the `tools` map. */
    var tools: set<ToolType>
    var activeTool: Option<ToolType>

    /** All seven types are registered, every tool draws on the shared
        project, and each tool's own invariant holds. */
    predicate Valid()
      reads this, project, select, rectangle, rectangle.base, circle, ellipse, ellipse.base
      reads line, line.base, freehand, freehand.base, polygon, polygon.base
    {
      tools == AllTypes &&
      select.project == project && rectangle.base.project == project && circle.project == project &&
      ellipse.base.project == project && line.base.project == project && freehand.base.project == project &&
      polygon.base.project == project &&
      select.Valid() && rectangle.Valid() && ellipse.Valid() && line.Valid() && freehand.Valid() && polygon.Valid() &&
      DistinctBases()
    }

    /** The six drawing tools are six separate objects. */
    predicate DistinctBases()
      reads this, rectangle, ellipse, line, freehand, polygon
    {
      rectangle.base != circle && rectangle.base != ellipse.base && rectangle.base != line.base &&
      rectangle.base != freehand.base && rectangle.base != polygon.base &&
      circle != ellipse.base && circle != line.base && circle != freehand.base && circle != polygon.base &&
      ellipse.base != line.base && ellipse.base != freehand.base && ellipse.base != polygon.base &&
      line.base != freehand.base && line.base != polygon.base &&
      freehand.base != polygon.base
    }

    /** The drawing tool registered under `t`. */
    function DrawingTool(t: ToolType): BaseTool
      requires t in AllTypes - {SelectType}
      reads this, rectangle, ellipse, line, freehand, polygon
    {
      if t == RectangleType then rectangle.base
      else if t == CircleType then circle
      else if t == EllipseType then ellipse.base
      else if t == LineType then line.base
      else if t == FreehandType then freehand.base
      else polygon.base
    }

    /** The constructor registers the seven tools and activates SELECT. */
    constructor(project: Project)
      modifies project
      ensures Valid() && this.project == project
      ensures activeTool == Some(SelectType) && tools == AllTypes
      ensures project.events == old(project.events) + [ToolChanged(SelectType)]
      ensures project.bounds == old(project.bounds) && project.selected == old(project.selected)
      ensures project.cursor == old(project.cursor)
    {
      this.project := project;
      select := new PaperTools.SelectTool(project);
      rectangle := new RectangleTool.RectangleTool(project);
      circle := new BaseTool(project, true);
      ellipse := new EllipseTool.EllipseTool(project);
      line := new LineTool.LineTool(project);
      freehand := new FreehandTool.FreehandTool(project);
      polygon := new PolygonTool.PolygonTool(project);
      tools := AllTypes;
      activeTool := None;
      new;
      var _ := ActivateTool(SelectType);
    }

    /** `activateTool(t)`. Re-activating the active type only returns its
        tool; an unregistered type returns nothing; otherwise the tool is
        activated (a drawing tool deselects everything and shows a
        crosshair), becomes the active one, and `paper:tool:changed` is
        dispatched. */
    method ActivateTool(t: ToolType) returns (r: Option<ToolType>)
      requires Valid()
      modifies this, project
      ensures Valid() && tools == old(tools)
      ensures old(activeTool) == Some(t) ==>
        r == (if t in tools then Some(t) else None) && activeTool == old(activeTool) && unchanged(project)
      ensures old(activeTool) != Some(t) && t !in tools ==>
        r.None? && activeTool == old(activeTool) && unchanged(project)
      ensures old(activeTool) != Some(t) && t in tools ==>
        r == Some(t) && activeTool == Some(t) && project.bounds == old(project.bounds) &&
        (t == SelectType ==>
          project.events == old(project.events) + [ToolChanged(t)] &&
          project.selected == old(project.selected) && project.cursor == old(project.cursor)) &&
        (t != SelectType ==>
          project.events == old(project.events) + [ToolActivated, ToolChanged(t)] &&
          project.selected == {} && project.cursor == "crosshair")
    {
      if activeTool == Some(t) {
        return if t in tools then Some(t) else None;
      }
      if t !in tools {
        return None;
      }
      if t != SelectType {
        DrawingTool(t).Activate();
      }
      activeTool := Some(t);
      project.Dispatch(ToolChanged(t));
      return Some(t);
    }

    /** The `paper:path:created` listener: a finished path switches back
        to the select tool. */
    method OnPathCreated() returns (r: Option<ToolType>)
      requires Valid()
      modifies this, project
      ensures Valid() && activeTool == Some(SelectType) && r == Some(SelectType)
      ensures project.bounds == old(project.bounds) && project.selected == old(project.selected)
      ensures project.cursor == old(project.cursor)
      ensures project.events == old(project.events) + if old(activeTool) == Some(SelectType) then [] else [ToolChanged(SelectType)]
    {
      r := ActivateTool(SelectType);
    }

    /** `getActiveTool()`: nothing without an active type, otherwise the
        type and the tool registered under it. */
    function GetActiveTool(): (a: ActiveTool)
      reads this
      ensures activeTool.None? || activeTool == Some("") ==> a == ActiveTool(None, None)
      ensures activeTool.Some? && activeTool.value != "" ==>
        a.toolType == activeTool && (a.tool.Some? <==> activeTool.value in tools) && (a.tool.Some? ==> a.tool == activeTool)
    {
      if activeTool.None? || activeTool.value == "" then ActiveTool(None, None)
      else ActiveTool(activeTool, if activeTool.value in tools then activeTool else None)
    }

    /** `getTool(t)`. */
    function GetTool(t: ToolType): (r: Option<ToolType>)
      reads this
      ensures r.Some? <==> t in tools
      ensures r.Some? ==> r.value == t
    {
      if t in tools then Some(t) else None
    }

    /** `setToolStyle(t, options)`: restyles the drawing tool registered
        under `t` and no other; the select tool and unknown types are left
        alone. */
    method SetToolStyle(t: ToolType, options: StyleOptions)
      requires Valid()
      modifies rectangle.base, circle, ellipse.base, line.base, freehand.base, polygon.base
      ensures Valid()
      ensures t == SelectType || t !in tools ==>
        unchanged(rectangle.base, circle, ellipse.base, line.base, freehand.base, polygon.base)
      ensures t != SelectType && t in tools ==>
        DrawingTool(t).Fields() == Restyle(old(DrawingTool(t).Fields()), options) &&
        DrawingTool(t).path == old(DrawingTool(t).path) &&
        DrawingTool(t).startPoint == old(DrawingTool(t).startPoint) &&
        DrawingTool(t).currentPoint == old(DrawingTool(t).currentPoint) &&
        DrawingTool(t).removed == old(DrawingTool(t).removed)
      ensures t != RectangleType ==> unchanged(rectangle.base)
      ensures t != CircleType ==> unchanged(circle)
      ensures t != EllipseType ==> unchanged(ellipse.base)
      ensures t != LineType ==> unchanged(line.base)
      ensures t != FreehandType ==> unchanged(freehand.base)
      ensures t != PolygonType ==> unchanged(polygon.base)
    {
      if t in tools && t != SelectType {
        DrawingTool(t).SetStyle(options);
      }
    }

    /** `setPolygonSides(s)`. */
    method SetPolygonSides(s: real)
      requires Valid()
      modifies polygon
      ensures Valid() && polygon.sides == PolygonTool.SidesFor(s)
      ensures polygon.isDrawing == old(polygon.isDrawing) && polygon.lastClickTime == old(polygon.lastClickTime)
    {
      polygon.SetSides(s);
    }
  }
}

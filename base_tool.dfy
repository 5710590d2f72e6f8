/** `BaseTool`, the drawing tools' common part: the style the next path
    gets, the path being drawn with its start and current points, and the
    finish / cancel / activate / deactivate steps. Each concrete tool holds
    one `BaseTool` and drives it from its mouse handlers. */
module Drawing {
  import opened Wrappers
  import opened Geometry
  import opened PaperProject

  /** The argument of `setStyle`; a missing field is `None`. */
  datatype StyleOptions = StyleOptions(
    fill: Option<bool>,
    fillColor: Option<string>,
    strokeColor: Option<string>,
    strokeWidth: Option<real>)

  /** A colour option counts only when it is truthy (present and not ''). */
  predicate TruthyColor(c: Option<string>) {
    c.Some? && c.value != ""
  }

  const DefaultFillColor := "#4285F4"
  const DefaultStrokeColor := "#000000"
  const DefaultStrokeWidth := 2.0

  /** A tool's style fields. */
  datatype ToolStyle = ToolStyle(fill: bool, fillColor: string, strokeColor: string, strokeWidth: real)

  const DefaultStyle := ToolStyle(true, DefaultFillColor, DefaultStrokeColor, DefaultStrokeWidth)

  /** The fields after `setStyle(o)`. */
  function Restyle(t: ToolStyle, o: StyleOptions): (r: ToolStyle)
    ensures r.fill == if o.fill.Some? then o.fill.value else t.fill
    ensures r.fillColor == if TruthyColor(o.fillColor) then o.fillColor.value else t.fillColor
    ensures r.strokeColor == if TruthyColor(o.strokeColor) then o.strokeColor.value else t.strokeColor
    ensures r.strokeWidth == if o.strokeWidth.Some? then o.strokeWidth.value else t.strokeWidth
  {
    var t1 := if o.fill.Some? then t.(fill := o.fill.value) else t;
    var t2 := if TruthyColor(o.fillColor) then t1.(fillColor := o.fillColor.value) else t1;
    var t3 := if TruthyColor(o.strokeColor) then t2.(strokeColor := o.strokeColor.value) else t2;
    if o.strokeWidth.Some? then t3.(strokeWidth := o.strokeWidth.value) else t3
  }

  /** The style a path created with these fields gets (`getPathOptions`,
      and what `createPath` assigns). */
  function PathStyle(t: ToolStyle): (s: Style)
    ensures s.strokeColor == t.strokeColor && s.strokeWidth == t.strokeWidth
    ensures s.fillColor.Some? <==> t.fill
    ensures t.fill ==> s.fillColor == Some(t.fillColor)
  {
    var s := Style(t.strokeColor, t.strokeWidth, None);
    if t.fill then s.(fillColor := Some(t.fillColor)) else s
  }

  /** Options that name nothing, or only falsy colours, change nothing. */
  lemma RestyleWithNothing(t: ToolStyle, fillColor: Option<string>, strokeColor: Option<string>)
    requires !TruthyColor(fillColor) && !TruthyColor(strokeColor)
    ensures Restyle(t, StyleOptions(None, fillColor, strokeColor, None)) == t
  {
  }

  /** Applying the same options again changes nothing more. */
  lemma RestyleIdempotent(t: ToolStyle, o: StyleOptions)
    ensures Restyle(Restyle(t, o), o) == Restyle(t, o)
  {
  }

  /** Turning `fill` off drops the fill colour from new paths, and turning
      it back on restores the colour the tool kept. */
  lemma FillToggle(t: ToolStyle)
    ensures PathStyle(Restyle(t, StyleOptions(Some(false), None, None, None))).fillColor.None?
    ensures PathStyle(Restyle(Restyle(t, StyleOptions(Some(false), None, None, None)),
                              StyleOptions(Some(true), None, None, None))).fillColor == Some(t.fillColor)
  {
  }

  /** `new Path.Rectangle({from, to, ...options})`, or `new Path.Ellipse`
      inscribed in `new Rectangle(from, to)`: a fresh path whose bounds are
      the rectangle with corners `from` and `to`. */
  function BoxPath(kind: BoxKind, style: Style, from: Point, to: Point): (p: PathItem)
    ensures p.shape == Box(kind, Between(from, to)) && p.style == style && p.simplified == 0
  {
    PathItem(Box(kind, Between(from, to)), style, 0)
  }

  /** The release's test `bounds.width < 2 || bounds.height < 2`. */
  predicate TooSmall(r: Rect) {
    r.Width() < 2.0 || r.Height() < 2.0
  }

  /** A box the release measures is kept exactly when it spans at least 2
      along both axes; a press without a drag is always too small. */
  lemma BoxKeptIffLargeEnough(kind: BoxKind, style: Style, from: Point, to: Point)
    ensures var r := BoxPath(kind, style, from, to).shape.rect;
            !TooSmall(r) <==>
            (from.x - to.x >= 2.0 || to.x - from.x >= 2.0) && (from.y - to.y >= 2.0 || to.y - from.y >= 2.0)
    ensures TooSmall(BoxPath(kind, style, from, from).shape.rect)
  {
  }

  class BaseTool {
    const project: Project
    var path: Option<PathItem>
    var fill: bool
    var fillColor: string
    var strokeColor: string
    var strokeWidth: real
    var startPoint: Option<Point>
    var currentPoint: Option<Point>
    /** The paths `path.remove()` took off the canvas, oldest first. */
    var removed: seq<PathItem>

    /** A tool with the default style; `fill` is the subclass's default
        (false for the line and freehand tools). */
    constructor(project: Project, fill: bool)
      ensures this.project == project && Fields() == DefaultStyle.(fill := fill)
      ensures path.None? && startPoint.None? && currentPoint.None? && removed == []
    {
      this.project := project;
      this.fill := fill;
      fillColor := DefaultFillColor;
      strokeColor := DefaultStrokeColor;
      strokeWidth := DefaultStrokeWidth;
      path := None;
      startPoint := None;
      currentPoint := None;
      removed := [];
    }

    function Fields(): ToolStyle
      reads this
    {
      ToolStyle(fill, fillColor, strokeColor, strokeWidth)
    }

    /** `setStyle(options)`; the drawing state is kept. */
    method SetStyle(options: StyleOptions)
      modifies this
      ensures Fields() == Restyle(old(Fields()), options)
      ensures path == old(path) && startPoint == old(startPoint) && currentPoint == old(currentPoint)
      ensures removed == old(removed)
    {
      if options.fill.Some? {
        fill := options.fill.value;
      }
      if TruthyColor(options.fillColor) {
        fillColor := options.fillColor.value;
      }
      if TruthyColor(options.strokeColor) {
        strokeColor := options.strokeColor.value;
      }
      if options.strokeWidth.Some? {
        strokeWidth := options.strokeWidth.value;
      }
    }

    /** `getPathOptions()`. */
    function PathOptions(): (s: Style)
      reads this
      ensures s == PathStyle(Fields())
    {
      PathStyle(Fields())
    }

    /** `createPath()`: an empty open path in the tool's style. */
    function CreatePath(): (p: PathItem)
      reads this
      ensures p.shape == Polyline([], false) && p.simplified == 0 && p.style == PathStyle(Fields())
    {
      PathItem(Polyline([], false), PathOptions(), 0)
    }

    /** `finishDrawing()`: a path in progress is simplified and announced
        with `paper:path:created` (it stays on the canvas); then the
        drawing state is cleared. */
    method FinishDrawing()
      modifies this, project
      ensures path.None? && startPoint.None? && currentPoint.None?
      ensures project.events == old(project.events) + if old(path).Some? then [PathCreated(Simplify(old(path).value))] else []
      ensures project.bounds == old(project.bounds) && project.selected == old(project.selected)
      ensures project.cursor == old(project.cursor)
      ensures Fields() == old(Fields()) && removed == old(removed)
    {
      if path.Some? {
        var simplified := Simplify(path.value);
        project.Dispatch(PathCreated(simplified));
        path := None;
      }
      startPoint := None;
      currentPoint := None;
    }

    /** `cancelDrawing()`: a path in progress is removed from the canvas;
        then the drawing state is cleared. No event is dispatched. */
    method CancelDrawing()
      modifies this
      ensures path.None? && startPoint.None? && currentPoint.None?
      ensures removed == old(removed) + if old(path).Some? then [old(path).value] else []
      ensures Fields() == old(Fields())
    {
      if path.Some? {
        removed := removed + [path.value];
        path := None;
      }
      startPoint := None;
      currentPoint := None;
    }

    /** `activate()`: every item is deselected, the cursor becomes a
        crosshair and `paper:tool:activated` is dispatched. */
    method Activate()
      modifies project
      ensures project.selected == {} && project.cursor == "crosshair"
      ensures project.events == old(project.events) + [ToolActivated]
      ensures project.bounds == old(project.bounds)
    {
      project.DeselectAll();
      project.cursor := "crosshair";
      project.Dispatch(ToolActivated);
    }

    /** `deactivate()`: the drawing is cancelled, the cursor reset and
        `paper:tool:deactivated` dispatched. */
    method Deactivate()
      modifies this, project
      ensures path.None? && startPoint.None? && currentPoint.None?
      ensures removed == old(removed) + if old(path).Some? then [old(path).value] else []
      ensures project.cursor == "default" && project.events == old(project.events) + [ToolDeactivated]
      ensures project.bounds == old(project.bounds) && project.selected == old(project.selected)
      ensures Fields() == old(Fields())
    {
      CancelDrawing();
      project.cursor := "default";
      project.Dispatch(ToolDeactivated);
    }
  }
}

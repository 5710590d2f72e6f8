/** The example app's select tool (`paperTools.ts`): a press on a control
    point starts a resize, a press on the selected item (or inside it)
    starts a move, a press on another item selects it, and a press on
    empty space clears the selection. The module-level variables of the
    source are the fields of `SelectTool`. `project.hitTest` and
    `path.contains` are given to the handlers as answers: `hit` is the item
    under the mouse position, `contains(center, point)` says whether the control
    point circle at `center` contains `point`, and `isAncestor(a, b)` says
    whether `a` is an ancestor of `b`. */
module PaperTools {
  import opened Wrappers
  import opened Geometry
  import opened PaperProject

  datatype Handle = TopLeft | TopRight | BottomLeft | BottomRight | Top | Right | Bottom | Left

  datatype Mode = SelectMode | MoveMode | ResizeMode

  /** A control point: its handle and the centre of its circle. */
  datatype ControlPoint = ControlPoint(handle: Handle, center: Point)

  const MinSize := 10.0

  /** Where `updateControlPoints` puts each handle. */
  function HandlePosition(b: Rect, h: Handle): Point {
    match h
    case TopLeft => Point(b.left, b.top)
    case TopRight => Point(b.right, b.top)
    case BottomLeft => Point(b.left, b.bottom)
    case BottomRight => Point(b.right, b.bottom)
    case Top => Point(b.Center().x, b.top)
    case Right => Point(b.right, b.Center().y)
    case Bottom => Point(b.Center().x, b.bottom)
    case Left => Point(b.left, b.Center().y)
  }

  /** The `positions` list `createControlPoints` builds its circles from. */
  function Positions(b: Rect): seq<ControlPoint> {
    [ControlPoint(TopLeft, Point(b.left, b.top)),
     ControlPoint(TopRight, Point(b.right, b.top)),
     ControlPoint(BottomLeft, Point(b.left, b.bottom)),
     ControlPoint(BottomRight, Point(b.right, b.bottom)),
     ControlPoint(Top, Point(b.Center().x, b.top)),
     ControlPoint(Right, Point(b.right, b.Center().y)),
     ControlPoint(Bottom, Point(b.Center().x, b.bottom)),
     ControlPoint(Left, Point(b.left, b.Center().y))]
  }

  /** The position of each handle in `positions`. */
  function HandleIndex(h: Handle): (i: nat)
    ensures i < 8
  {
    match h
    case TopLeft => 0
    case TopRight => 1
    case BottomLeft => 2
    case BottomRight => 3
    case Top => 4
    case Right => 5
    case Bottom => 6
    case Left => 7
  }

  /** There is exactly one control point per handle, and each sits where
      `updateControlPoints` would put it: at the corners and the edge
      midpoints. */
  lemma PositionsOnePerHandle(b: Rect)
    ensures |Positions(b)| == 8
    ensures forall h: Handle :: Positions(b)[HandleIndex(h)].handle == h
    ensures forall i :: 0 <= i < 8 ==> HandleIndex(Positions(b)[i].handle) == i
    ensures forall i :: 0 <= i < 8 ==> Positions(b)[i].center == HandlePosition(b, Positions(b)[i].handle)
  {
    var ps := Positions(b);
    forall i | 0 <= i < 8
      ensures HandleIndex(ps[i].handle) == i && ps[i].center == HandlePosition(b, ps[i].handle)
    {
      assert i == 0 || i == 1 || i == 2 || i == 3 || i == 4 || i == 5 || i == 6 || i == 7;
    }
  }

  /** Hence no two control points share a handle. */
  lemma PositionsDistinct(b: Rect, i: nat, j: nat)
    requires i < j < 8
    ensures Positions(b)[i].handle != Positions(b)[j].handle
  {
    PositionsOnePerHandle(b);
  }

  /** The control points after `updateControlPoints` for bounds `b`. */
  function Repositioned(cps: seq<ControlPoint>, b: Rect): (r: seq<ControlPoint>)
    ensures |r| == |cps|
    ensures forall i :: 0 <= i < |cps| ==> r[i] == ControlPoint(cps[i].handle, HandlePosition(b, cps[i].handle))
  {
    seq(|cps|, i requires 0 <= i < |cps| => ControlPoint(cps[i].handle, HandlePosition(b, cps[i].handle)))
  }

  /** Repositioning the control points made for old bounds gives the ones
      that would be made for the new bounds. */
  lemma RepositionedPositions(b1: Rect, b2: Rect)
    ensures Repositioned(Positions(b1), b2) == Positions(b2)
  {
    PositionsOnePerHandle(b1);
    PositionsOnePerHandle(b2);
    var r := Repositioned(Positions(b1), b2);
    forall i | 0 <= i < 8
      ensures r[i] == Positions(b2)[i]
    {
      assert Positions(b1)[i].handle == Positions(b2)[i].handle;
    }
  }

  /** `getHandleAtPoint`: the handle of the first control point whose
      circle contains the point. */
  function FirstHandle(cps: seq<ControlPoint>, point: Point, contains: (Point, Point) -> bool): (h: Option<Handle>)
    ensures h.None? <==> forall i :: 0 <= i < |cps| ==> !contains(cps[i].center, point)
    ensures h.Some? ==> exists i :: 0 <= i < |cps| && cps[i].handle == h.value && contains(cps[i].center, point) &&
                          forall j :: 0 <= j < i ==> !contains(cps[j].center, point)
  {
    if cps == [] then None
    else if contains(cps[0].center, point) then Some(cps[0].handle)
    else
      var h := FirstHandle(cps[1..], point, contains);
      assert forall i :: 1 <= i < |cps| ==> cps[i] == cps[1..][i - 1];
      h
  }

  /** `getCursorForHandle`. */
  function CursorForHandle(h: Handle): string {
    match h
    case TopLeft => "nwse-resize"
    case BottomRight => "nwse-resize"
    case TopRight => "nesw-resize"
    case BottomLeft => "nesw-resize"
    case Top => "ns-resize"
    case Bottom => "ns-resize"
    case Left => "ew-resize"
    case Right => "ew-resize"
  }

  // ------------------------------------------------------------ resizing

  predicate MovesLeft(h: Handle) { h == Left || h == TopLeft || h == BottomLeft }
  predicate MovesRight(h: Handle) { h == Right || h == TopRight || h == BottomRight }
  predicate MovesTop(h: Handle) { h == Top || h == TopLeft || h == TopRight }
  predicate MovesBottom(h: Handle) { h == Bottom || h == BottomLeft || h == BottomRight }

  /** One axis of a resize: the edges `lo` and `hi`, of which the handle
      drags `lo` (`moveLo`), `hi` (`moveHi`) or neither by `delta`; a span
      shorter than `MinSize` is then widened away from the dragged side. */
  function ResizeSpan(lo: real, hi: real, moveLo: bool, moveHi: bool, delta: real): (r: (real, real))
    requires !(moveLo && moveHi)
    ensures r.1 - r.0 >= MinSize
    ensures moveLo ==> r.1 == hi
    ensures !moveLo ==> r.0 == lo
    ensures (hi + (if moveHi then delta else 0.0)) - (lo + (if moveLo then delta else 0.0)) >= MinSize ==>
      r == (lo + (if moveLo then delta else 0.0), hi + (if moveHi then delta else 0.0))
  {
    var lo' := if moveLo then lo + delta else lo;
    var hi' := if moveHi then hi + delta else hi;
    if hi' - lo' >= MinSize then (lo', hi')
    else if moveLo then (hi' - MinSize, hi')
    else (lo', lo' + MinSize)
  }

  /** The bounds a resize from `orig` with handle `h` and mouse offset `d`
      produces, axis by axis. */
  function ResizedBounds(orig: Rect, h: Handle, d: Point): Rect {
    var x := ResizeSpan(orig.left, orig.right, MovesLeft(h), MovesRight(h), d.x);
    var y := ResizeSpan(orig.top, orig.bottom, MovesTop(h), MovesBottom(h), d.y);
    Rect(x.0, y.0, x.1, y.1)
  }

  /** A resize never leaves the bounds narrower or lower than 10; a left or
      top handle keeps the right or bottom edge, any other handle the left
      or top edge; and a drag that needs no clamping moves exactly the
      handle's own edges by the mouse position's offset. */
  lemma ResizeProperties(orig: Rect, h: Handle, d: Point)
    ensures var r := ResizedBounds(orig, h, d);
            r.Width() >= MinSize && r.Height() >= MinSize &&
            (MovesLeft(h) ==> r.right == orig.right) && (!MovesLeft(h) ==> r.left == orig.left) &&
            (MovesTop(h) ==> r.bottom == orig.bottom) && (!MovesTop(h) ==> r.top == orig.top)
    ensures var s := Stretched(orig, h, d);
            s.Width() >= MinSize && s.Height() >= MinSize ==> ResizedBounds(orig, h, d) == s
  {
  }

  /** The bounds with the handle's own edges moved by `d`, before any
      clamping. */
  function Stretched(orig: Rect, h: Handle, d: Point): Rect {
    Rect(orig.left + (if MovesLeft(h) then d.x else 0.0),
         orig.top + (if MovesTop(h) then d.y else 0.0),
         orig.right + (if MovesRight(h) then d.x else 0.0),
         orig.bottom + (if MovesBottom(h) then d.y else 0.0))
  }

  /** The cursor names the axes the handle resizes along. */
  lemma CursorNamesAxes(h: Handle)
    ensures CursorForHandle(h) == "ns-resize" <==> !MovesLeft(h) && !MovesRight(h)
    ensures CursorForHandle(h) == "ew-resize" <==> !MovesTop(h) && !MovesBottom(h)
    ensures CursorForHandle(h) == "nwse-resize" <==> (MovesLeft(h) && MovesTop(h)) || (MovesRight(h) && MovesBottom(h))
    ensures CursorForHandle(h) == "nesw-resize" <==> (MovesRight(h) && MovesTop(h)) || (MovesLeft(h) && MovesBottom(h))
  {
  }

  /** Without clamping, the dragged handle follows the mouse position along the
      axes it resizes. */
  lemma {:induction false} HandleFollowsMouse(orig: Rect, h: Handle, d: Point)
    requires Stretched(orig, h, d).Width() >= MinSize && Stretched(orig, h, d).Height() >= MinSize
    ensures HandlePosition(ResizedBounds(orig, h, d), h) ==
      Add(HandlePosition(orig, h), Point(if MovesLeft(h) || MovesRight(h) then d.x else 0.0,
                                         if MovesTop(h) || MovesBottom(h) then d.y else 0.0))
  {
    ResizeProperties(orig, h, d);
  }

  // -------------------------------------------------------------- moving

  /** Where a sequence of move drags from `start` through `points` leaves
      bounds `b`: each drag moves by the offset from the previous point. */
  function Dragged(b: Rect, start: Point, points: seq<Point>): Rect
    decreases |points|
  {
    if points == [] then b else Dragged(Translate(b, Sub(points[0], start)), points[0], points[1..])
  }

  /** A drag sequence moves the item by the last point minus the first. */
  lemma {:induction false} DragsTelescope(b: Rect, start: Point, points: seq<Point>)
    requires points != []
    ensures Dragged(b, start, points) == Translate(b, Sub(points[|points| - 1], start))
    decreases |points|
  {
    var b1 := Translate(b, Sub(points[0], start));
    if |points| == 1 {
    } else {
      DragsTelescope(b1, points[0], points[1..]);
      TranslateTwice(b, Sub(points[0], start), Sub(points[|points| - 1], points[0]));
    }
  }

  // ------------------------------------------------------- the tool state

  class SelectTool {
    const project: Project
    var selectedItem: Option<Item>
    var controlPoints: seq<ControlPoint>
    var currentMode: Mode
    var activeHandle: Option<Handle>
    var dragStartPoint: Option<Point>
    var originalBounds: Option<Rect>

    /** A selected item is in the project and carries the eight control
        points of its current bounds; with no selection there are none. */
    predicate Valid()
      reads this, project
    {
      (selectedItem.Some? ==>
        selectedItem.value in project.bounds && controlPoints == Positions(project.bounds[selectedItem.value])) &&
      (selectedItem.None? ==> controlPoints == [])
    }

    constructor(project: Project)
      ensures this.project == project && Valid()
      ensures selectedItem.None? && controlPoints == [] && currentMode == SelectMode
      ensures activeHandle.None? && dragStartPoint.None? && originalBounds.None?
    {
      this.project := project;
      selectedItem := None;
      controlPoints := [];
      currentMode := SelectMode;
      activeHandle := None;
      dragStartPoint := None;
      originalBounds := None;
    }

    /** Whether the hit item is the selected item or lies inside it. */
    predicate OnSelection(hit: Option<Item>, isAncestor: (Item, Item) -> bool)
      reads this
    {
      hit.Some? && (selectedItem == hit || (selectedItem.Some? && isAncestor(selectedItem.value, hit.value)))
    }

    /** `getHandleAtPoint(point)`. */
    method GetHandleAtPoint(point: Point, contains: (Point, Point) -> bool) returns (h: Option<Handle>)
      ensures h == FirstHandle(controlPoints, point, contains)
    {
      var i := 0;
      while i < |controlPoints|
        invariant 0 <= i <= |controlPoints|
        invariant FirstHandle(controlPoints[i..], point, contains) == FirstHandle(controlPoints, point, contains)
      {
        if contains(controlPoints[i].center, point) {
          return Some(controlPoints[i].handle);
        }
        assert controlPoints[i..][1..] == controlPoints[i + 1..];
        i := i + 1;
      }
      return None;
    }

    /** `removeControlPoints()`. */
    method RemoveControlPoints()
      modifies this
      ensures controlPoints == []
      ensures selectedItem == old(selectedItem) && currentMode == old(currentMode) && activeHandle == old(activeHandle)
      ensures dragStartPoint == old(dragStartPoint) && originalBounds == old(originalBounds)
    {
      controlPoints := [];
    }

    /** `createControlPoints()`: the old points are removed and one point
        per entry of `positions` is made. */
    method CreateControlPoints()
      requires selectedItem.Some? ==> selectedItem.value in project.bounds
      modifies this
      ensures selectedItem == old(selectedItem) && currentMode == old(currentMode) && activeHandle == old(activeHandle)
      ensures selectedItem.None? ==> unchanged(this)
      ensures selectedItem.Some? ==> controlPoints == Positions(project.bounds[selectedItem.value])
      ensures dragStartPoint == old(dragStartPoint) && originalBounds == old(originalBounds)
    {
      if selectedItem.None? {
        return;
      }
      RemoveControlPoints();
      var positions := Positions(project.bounds[selectedItem.value]);
      var created: seq<ControlPoint> := [];
      for i := 0 to |positions|
        invariant created == positions[..i]
      {
        assert positions[..i + 1] == positions[..i] + [positions[i]];
        created := created + [ControlPoint(positions[i].handle, positions[i].center)];
      }
      assert positions[..|positions|] == positions;
      controlPoints := created;
    }

    /** `updateControlPoints()`: every point is moved to its handle's place
        on the selected item's bounds. */
    method UpdateControlPoints()
      requires selectedItem.Some? ==> selectedItem.value in project.bounds
      modifies this
      ensures selectedItem == old(selectedItem) && currentMode == old(currentMode) && activeHandle == old(activeHandle)
      ensures selectedItem.None? ==> unchanged(this)
      ensures selectedItem.Some? ==> controlPoints == Repositioned(old(controlPoints), project.bounds[selectedItem.value])
      ensures dragStartPoint == old(dragStartPoint) && originalBounds == old(originalBounds)
    {
      if selectedItem.None? {
        return;
      }
      var bounds := project.bounds[selectedItem.value];
      var cps := controlPoints;
      for i := 0 to |cps|
        invariant |cps| == |controlPoints|
        invariant forall k :: 0 <= k < i ==> cps[k] == Repositioned(controlPoints, bounds)[k]
        invariant forall k :: i <= k < |cps| ==> cps[k] == controlPoints[k]
      {
        var cp := cps[i];
        cps := cps[i := ControlPoint(cp.handle, HandlePosition(bounds, cp.handle))];
      }
      assert cps == Repositioned(controlPoints, bounds);
      controlPoints := cps;
    }

    /** `unselectItem()`: a selected item loses its flag and its control
        points and `paper:item:unselected` is dispatched; the mode returns
        to SELECT in every case. */
    method UnselectItem()
      requires Valid()
      modifies this, project
      ensures Valid()
      ensures selectedItem.None? && controlPoints == [] && currentMode == SelectMode
      ensures project.selected == if old(selectedItem).Some? then old(project.selected) - {old(selectedItem).value} else old(project.selected)
      ensures project.events == old(project.events) + if old(selectedItem).Some? then [ItemUnselected] else []
      ensures project.bounds == old(project.bounds) && project.cursor == old(project.cursor)
      ensures activeHandle == old(activeHandle) && dragStartPoint == old(dragStartPoint) && originalBounds == old(originalBounds)
    {
      if selectedItem.Some? {
        project.selected := project.selected - {selectedItem.value};
        selectedItem := None;
        RemoveControlPoints();
        project.Dispatch(ItemUnselected);
      }
      currentMode := SelectMode;
    }

    /** `selectItem(item)`: the previous selection is dropped, `item`
        becomes the selected item with its flag set and its eight control
        points, and `paper:item:selected` is dispatched. */
    method SelectItem(item: Item)
      requires Valid() && item in project.bounds
      modifies this, project
      ensures Valid()
      ensures selectedItem == Some(item) && currentMode == SelectMode
      ensures controlPoints == Positions(project.bounds[item])
      ensures project.selected ==
        (if old(selectedItem).Some? then old(project.selected) - {old(selectedItem).value} else old(project.selected)) + {item}
      ensures project.events == old(project.events) + (if old(selectedItem).Some? then [ItemUnselected] else []) + [ItemSelected(item)]
      ensures project.bounds == old(project.bounds) && project.cursor == old(project.cursor)
      ensures activeHandle == old(activeHandle) && dragStartPoint == old(dragStartPoint) && originalBounds == old(originalBounds)
    {
      UnselectItem();
      selectedItem := Some(item);
      project.selected := project.selected + {item};
      CreateControlPoints();
      project.Dispatch(ItemSelected(item));
    }

    /** `moveItem(event)`: the selected item moves by the mouse position's offset
        from the drag start, which then advances to the mouse position. */
    method MoveItem(point: Point)
      requires Valid()
      modifies this, project
      ensures Valid()
      ensures old(selectedItem).None? || old(dragStartPoint).None? ==> unchanged(this) && unchanged(project)
      ensures old(selectedItem).Some? && old(dragStartPoint).Some? ==>
        var item := old(selectedItem).value;
        var moved := Translate(old(project.bounds)[item], Sub(point, old(dragStartPoint).value));
        project.bounds == old(project.bounds)[item := moved] &&
        dragStartPoint == Some(point) &&
        project.events == old(project.events) + [ItemMoved(item, moved.Center())]
      ensures selectedItem == old(selectedItem) && currentMode == old(currentMode) && activeHandle == old(activeHandle)
      ensures originalBounds == old(originalBounds)
      ensures project.selected == old(project.selected) && project.cursor == old(project.cursor)
    {
      if selectedItem.None? || dragStartPoint.None? {
        return;
      }
      var item := selectedItem.value;
      var delta := Sub(point, dragStartPoint.value);
      var old_bounds := project.bounds[item];
      project.bounds := project.bounds[item := Translate(old_bounds, delta)];
      dragStartPoint := Some(point);
      UpdateControlPoints();
      RepositionedPositions(old_bounds, project.bounds[item]);
      project.Dispatch(ItemMoved(item, project.bounds[item].Center()));
    }

    /** `resizeItem(event)`: from the bounds snapshotted at the press, the
        handle's edges move by the mouse position's offset and the result is
        clamped to at least 10 by 10. A no-op unless the selection, the
        handle, the drag start and the snapshot are all set. */
    method ResizeItem(point: Point)
      requires Valid()
      modifies this, project
      ensures Valid()
      ensures old(selectedItem).None? || old(activeHandle).None? || old(dragStartPoint).None? || old(originalBounds).None? ==>
        unchanged(this) && unchanged(project)
      ensures old(selectedItem).Some? && old(activeHandle).Some? && old(dragStartPoint).Some? && old(originalBounds).Some? ==>
        var item := old(selectedItem).value;
        var resized := ResizedBounds(old(originalBounds).value, old(activeHandle).value, Sub(point, old(dragStartPoint).value));
        project.bounds == old(project.bounds)[item := resized] &&
        project.events == old(project.events) + [ItemResized(item, resized)]
      ensures selectedItem == old(selectedItem) && currentMode == old(currentMode) && activeHandle == old(activeHandle)
      ensures dragStartPoint == old(dragStartPoint) && originalBounds == old(originalBounds)
      ensures project.selected == old(project.selected) && project.cursor == old(project.cursor)
    {
      if selectedItem.None? || activeHandle.None? || dragStartPoint.None? || originalBounds.None? {
        return;
      }
      var item := selectedItem.value;
      var handle := activeHandle.value;
      var delta := Sub(point, dragStartPoint.value);
      var newBounds := ResizeBounds(originalBounds.value, handle, delta);
      var old_bounds := project.bounds[item];
      project.bounds := project.bounds[item := newBounds];
      UpdateControlPoints();
      RepositionedPositions(old_bounds, newBounds);
      project.Dispatch(ItemResized(item, newBounds));
    }

    /** The switch of `resizeItem`: the handle's own edges move by the
        mouse's offset. */
    static method StretchBounds(orig: Rect, handle: Handle, delta: Point) returns (newBounds: Rect)
      ensures newBounds == Stretched(orig, handle, delta)
    {
      newBounds := orig;
      match handle {
        case TopLeft =>
          newBounds := newBounds.(left := newBounds.left + delta.x);
          newBounds := newBounds.(top := newBounds.top + delta.y);
        case TopRight =>
          newBounds := newBounds.(right := newBounds.right + delta.x);
          newBounds := newBounds.(top := newBounds.top + delta.y);
        case BottomLeft =>
          newBounds := newBounds.(left := newBounds.left + delta.x);
          newBounds := newBounds.(bottom := newBounds.bottom + delta.y);
        case BottomRight =>
          newBounds := newBounds.(right := newBounds.right + delta.x);
          newBounds := newBounds.(bottom := newBounds.bottom + delta.y);
        case Top =>
          newBounds := newBounds.(top := newBounds.top + delta.y);
        case Right =>
          newBounds := newBounds.(right := newBounds.right + delta.x);
        case Bottom =>
          newBounds := newBounds.(bottom := newBounds.bottom + delta.y);
        case Left =>
          newBounds := newBounds.(left := newBounds.left + delta.x);
      }
    }

    /** The field-by-field edit of `newBounds` in `resizeItem`: the switch,
        then the two minimum-size clamps. */
    static method ResizeBounds(orig: Rect, handle: Handle, delta: Point) returns (newBounds: Rect)
      ensures newBounds == ResizedBounds(orig, handle, delta)
    {
      newBounds := StretchBounds(orig, handle, delta);
      assert newBounds == Stretched(orig, handle, delta);
      ghost var x := ResizeSpan(orig.left, orig.right, MovesLeft(handle), MovesRight(handle), delta.x);
      ghost var y := ResizeSpan(orig.top, orig.bottom, MovesTop(handle), MovesBottom(handle), delta.y);
      assert (handle in [Left, TopLeft, BottomLeft]) == MovesLeft(handle);
      assert (handle in [Top, TopLeft, TopRight]) == MovesTop(handle);
      ghost var top, bottom := newBounds.top, newBounds.bottom;
      if newBounds.Width() < MinSize {
        if handle in [Left, TopLeft, BottomLeft] {
          newBounds := newBounds.(left := newBounds.right - MinSize);
        } else {
          newBounds := newBounds.(right := newBounds.left + MinSize);
        }
      }
      assert (newBounds.left, newBounds.right) == x;
      assert newBounds.top == top && newBounds.bottom == bottom;
      if newBounds.Height() < MinSize {
        if handle in [Top, TopLeft, TopRight] {
          newBounds := newBounds.(top := newBounds.bottom - MinSize);
        } else {
          newBounds := newBounds.(bottom := newBounds.top + MinSize);
        }
      }
      assert (newBounds.top, newBounds.bottom) == y;
    }

    /** The press at `point`. */
    method OnMouseDown(point: Point, contains: (Point, Point) -> bool, hit: Option<Item>, isAncestor: (Item, Item) -> bool)
      requires Valid() && (hit.Some? ==> hit.value in project.bounds)
      modifies this, project
      ensures Valid()
      ensures activeHandle == FirstHandle(old(controlPoints), point, contains)
      // on a control point: resize from a snapshot of the selection's bounds
      ensures activeHandle.Some? ==>
        currentMode == ResizeMode && dragStartPoint == Some(point) &&
        selectedItem == old(selectedItem) && selectedItem.Some? &&
        originalBounds == Some(project.bounds[selectedItem.value]) &&
        controlPoints == old(controlPoints) && unchanged(project)
      // on the selection or inside it: move
      ensures activeHandle.None? && old(OnSelection(hit, isAncestor)) ==>
        currentMode == MoveMode && dragStartPoint == Some(point) &&
        selectedItem == old(selectedItem) && controlPoints == old(controlPoints) &&
        originalBounds == old(originalBounds) && unchanged(project)
      // on another item: select it
      ensures activeHandle.None? && hit.Some? && !old(OnSelection(hit, isAncestor)) ==>
        currentMode == SelectMode && selectedItem == hit &&
        project.selected ==
          (if old(selectedItem).Some? then old(project.selected) - {old(selectedItem).value} else old(project.selected)) + {hit.value} &&
        project.events == old(project.events) + (if old(selectedItem).Some? then [ItemUnselected] else []) + [ItemSelected(hit.value)] &&
        dragStartPoint == old(dragStartPoint) && originalBounds == old(originalBounds)
      // on empty space: clear the selection
      ensures activeHandle.None? && hit.None? ==>
        currentMode == SelectMode && selectedItem.None? && controlPoints == [] &&
        project.selected == (if old(selectedItem).Some? then old(project.selected) - {old(selectedItem).value} else old(project.selected)) &&
        project.events == old(project.events) + (if old(selectedItem).Some? then [ItemUnselected] else []) &&
        dragStartPoint == old(dragStartPoint) && originalBounds == old(originalBounds)
      ensures project.bounds == old(project.bounds) && project.cursor == old(project.cursor)
    {
      var onSelection := OnSelection(hit, isAncestor);
      var handle := GetHandleAtPoint(point, contains);
      activeHandle := handle;
      if handle.Some? {
        assert controlPoints != [] && selectedItem.Some?;
        currentMode := ResizeMode;
        dragStartPoint := Some(point);
        if selectedItem.Some? {
          originalBounds := Some(project.bounds[selectedItem.value]);
        }
      } else if hit.Some? {
        if onSelection {
          currentMode := MoveMode;
          dragStartPoint := Some(point);
        } else {
          SelectItem(hit.value);
          currentMode := SelectMode;
        }
      } else {
        UnselectItem();
        currentMode := SelectMode;
      }
    }

    /** A drag moves in MOVE mode, resizes in RESIZE mode, and does nothing
        in SELECT mode. */
    method OnMouseDrag(point: Point)
      requires Valid()
      modifies this, project
      ensures Valid()
      ensures old(currentMode) == SelectMode ==> unchanged(this) && unchanged(project)
      ensures old(currentMode) == MoveMode && old(selectedItem).Some? && old(dragStartPoint).Some? ==>
        var item := old(selectedItem).value;
        var moved := Translate(old(project.bounds)[item], Sub(point, old(dragStartPoint).value));
        project.bounds == old(project.bounds)[item := moved] &&
        dragStartPoint == Some(point) &&
        project.events == old(project.events) + [ItemMoved(item, moved.Center())]
      ensures old(currentMode) == MoveMode && (old(selectedItem).None? || old(dragStartPoint).None?) ==>
        unchanged(this) && unchanged(project)
      ensures old(currentMode) == ResizeMode && old(selectedItem).Some? && old(activeHandle).Some? &&
              old(dragStartPoint).Some? && old(originalBounds).Some? ==>
        var item := old(selectedItem).value;
        var resized := ResizedBounds(old(originalBounds).value, old(activeHandle).value, Sub(point, old(dragStartPoint).value));
        project.bounds == old(project.bounds)[item := resized] &&
        dragStartPoint == old(dragStartPoint) &&
        project.events == old(project.events) + [ItemResized(item, resized)]
      ensures old(currentMode) == ResizeMode &&
              (old(selectedItem).None? || old(activeHandle).None? || old(dragStartPoint).None? || old(originalBounds).None?) ==>
        unchanged(this) && unchanged(project)
      ensures old(currentMode) != MoveMode ==> dragStartPoint == old(dragStartPoint)
      ensures selectedItem == old(selectedItem) && currentMode == old(currentMode) && activeHandle == old(activeHandle)
      ensures originalBounds == old(originalBounds)
      ensures project.selected == old(project.selected) && project.cursor == old(project.cursor)
    {
      if currentMode == MoveMode {
        MoveItem(point);
      } else if currentMode == ResizeMode {
        ResizeItem(point);
      }
    }

    /** The release: the drag state is cleared, and a move or resize ends
        back in SELECT mode without an active handle. */
    method OnMouseUp()
      requires Valid()
      modifies this
      ensures Valid()
      ensures dragStartPoint.None? && originalBounds.None? && currentMode == SelectMode
      ensures old(currentMode) != SelectMode ==> activeHandle.None?
      ensures old(currentMode) == SelectMode ==> activeHandle == old(activeHandle)
      ensures selectedItem == old(selectedItem) && controlPoints == old(controlPoints)
    {
      dragStartPoint := None;
      originalBounds := None;
      if currentMode != SelectMode {
        activeHandle := None;
        currentMode := SelectMode;
      }
    }

    /** `updateCursor(point)` on a mouse move: a handle's resize cursor
        over a control point, `move` over the selection, `default`
        elsewhere. */
    method OnMouseMove(point: Point, contains: (Point, Point) -> bool, hit: Option<Item>, isAncestor: (Item, Item) -> bool)
      requires Valid()
      modifies project
      ensures Valid()
      ensures project.cursor ==
        match FirstHandle(controlPoints, point, contains)
        case Some(h) => CursorForHandle(h)
        case None => if OnSelection(hit, isAncestor) then "move" else "default"
      ensures project.bounds == old(project.bounds) && project.selected == old(project.selected)
      ensures project.events == old(project.events)
    {
      var handle := GetHandleAtPoint(point, contains);
      if handle.Some? {
        project.cursor := CursorForHandle(handle.value);
      } else if OnSelection(hit, isAncestor) {
        project.cursor := "move";
      } else {
        project.cursor := "default";
      }
    }
  }
}

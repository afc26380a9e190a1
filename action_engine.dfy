/** Gesture dispatch on the layer plot (click/ActionEngine.py): which
    event-controller call a click or a drag issues, the grab state a
    plotted event keeps while it is dragged, and the shift-drag region
    select with its rectangle filter. The event controller itself is not
    part of this model; its calls are recorded as `Call` values. */
module ActionEngine {
  import opened Wrappers

  datatype Point = Point(x: real, y: real)

  function Plus(p: Point, q: Point): Point
  {
    Point(p.x + q.x, p.y + q.y)
  }

  function Minus(p: Point, q: Point): Point
  {
    Point(p.x - q.x, p.y - q.y)
  }

  /** Qt's QPointF is false exactly at the origin. */
  predicate PointTruthy(p: Point)
  {
    p != Point(0.0, 0.0)
  }

  datatype MouseButton = LeftButton | RightButton | MiddleButton

  /** The keyboard modifiers held during a mouse event, a flag set: no flag
      set is Python-false, and `== Qt.ShiftModifier` means shift alone. */
  datatype Modifier = Shift | Control | Alt | Meta | Keypad

  /** A scatter item on the layer plot standing for one event; its drag
      fields start out as None (view/LayerPlotItem.py). */
  class EventPlotItem {
    const parentLayerName: string
    const frameNum: int
    /** `points()[0].pos()`: where the event is drawn. */
    const anchor: Point
    var dragPoint: bool
    var dragOffset: Point
    var dragStart: Point

    constructor (parentLayerName: string, frameNum: int, anchor: Point)
      ensures this.parentLayerName == parentLayerName && this.frameNum == frameNum && this.anchor == anchor
      ensures Grab() == Released
    {
      this.parentLayerName := parentLayerName;
      this.frameNum := frameNum;
      this.anchor := anchor;
      dragPoint := false;
      dragOffset := Point(0.0, 0.0);
      dragStart := Point(0.0, 0.0);
    }

    function Grab(): DragState
      reads this
    {
      DragState(dragPoint, dragOffset, dragStart)
    }
  }

  /** A plotted region item: its first data point decides region membership. */
  datatype ChildItem = ChildItem(id: nat, isLayerPlotItem: bool, first: Point)

  /** A call made on the event controller. */
  datatype Call =
    | SelectEvent(item: EventPlotItem)
    | AddEventToSelection(item: EventPlotItem)
    | EditEvent(layerName: string, frame: int)
    | StartDrag
    | DragSelectedEvents(delta: Point)
    | EndDrag
    | ClearSelection
    | SelectRoiEvents(items: seq<ChildItem>)

  /** `EventAction.click`: three independent tests on (button, modifiers). */
  function EventClickCalls(button: MouseButton, mods: set<Modifier>, item: EventPlotItem): (r: seq<Call>)
    ensures |r| <= 1
    ensures SelectEvent(item) in r <==> button == LeftButton && mods == {}
    ensures AddEventToSelection(item) in r <==> button == LeftButton && mods == {Shift}
    ensures EditEvent(item.parentLayerName, item.frameNum) in r <==> button == RightButton
    ensures r == [] <==> button == MiddleButton || (button == LeftButton && mods != {} && mods != {Shift})
  {
    (if button == LeftButton && mods == {} then [SelectEvent(item)] else [])
    + (if button == LeftButton && mods == {Shift} then [AddEventToSelection(item)] else [])
    + (if button == RightButton then [EditEvent(item.parentLayerName, item.frameNum)] else [])
  }

  /** `LayerAction.click`: a plain left click on empty layer space clears the
      selection; shift-left and everything else do nothing. */
  function LayerClickCalls(button: MouseButton, mods: set<Modifier>): (r: seq<Call>)
    ensures r == [ClearSelection] <==> button == LeftButton && mods == {}
    ensures r != [ClearSelection] ==> r == []
  {
    if button == LeftButton && mods == {} then [ClearSelection] else []
  }

  /** The drag fields of an item: whether it is grabbed, the offset from the
      press to the drawn point, and the press position. */
  datatype DragState = DragState(grabbed: bool, offset: Point, pressedAt: Point)

  const Released := DragState(false, Point(0.0, 0.0), Point(0.0, 0.0))

  /** One drag event: its button, whether it starts or finishes the drag,
      the current position and the position the button went down at. */
  datatype DragEvent = DragEvent(button: MouseButton, isStart: bool, isFinish: bool, pos: Point, downPos: Point)

  /** What the drag handler did with the Qt event. */
  datatype Response = Accepted | Ignored | Untouched

  datatype DragOutcome = DragOutcome(grab: DragState, calls: seq<Call>, response: Response)

  /** The delta `drag_selected_events` receives for a grabbed item. */
  function MoveDelta(s: DragState, pos: Point): Point
  {
    Minus(Plus(pos, s.offset), s.pressedAt)
  }

  /** `EventAction.drag` on an item in the current selection. */
  function DragStep(s: DragState, anchor: Point, ev: DragEvent): (r: DragOutcome)
    ensures ev.button != LeftButton ==> r == DragOutcome(s, [], Ignored)
    ensures ev.button == LeftButton && ev.isStart ==>
              && r.grab == DragState(true, Minus(anchor, ev.downPos), ev.downPos)
              && |r.calls| > 0 && r.calls[0] == StartDrag
    ensures ev.button == LeftButton && !ev.isStart ==> r.grab == s
    ensures ev.button == LeftButton ==> (r.response == Accepted <==> ev.isStart || s.grabbed)
    ensures ev.button == LeftButton && ev.isFinish ==> |r.calls| > 0 && r.calls[|r.calls| - 1] == EndDrag
  {
    if ev.button != LeftButton then DragOutcome(s, [], Ignored)
    else
      var s1 := if ev.isStart then DragState(true, Minus(anchor, ev.downPos), ev.downPos) else s;
      var c1 := if ev.isStart then [StartDrag] else [];
      var c2 := if s1.grabbed then [DragSelectedEvents(MoveDelta(s1, ev.pos))] else [];
      var c3 := if ev.isFinish then [EndDrag] else [];
      DragOutcome(s1, c1 + c2 + c3, if ev.isStart || s1.grabbed then Accepted else Untouched)
  }

  /** The whole handler: an item outside the selection is left alone. */
  function DragHandled(s: DragState, anchor: Point, selected: bool, ev: DragEvent): (r: DragOutcome)
    ensures !selected ==> r == DragOutcome(s, [], Untouched)
    ensures selected ==> r == DragStep(s, anchor, ev)
  {
    if selected then DragStep(s, anchor, ev) else DragOutcome(s, [], Untouched)
  }

  /** Once grabbed at press position `d` with the item drawn at `a`, a move
      to `p` reports (p - d) + (a - d): the mouse's travel from the press
      plus the grab offset, whatever moves came before. */
  lemma MoveDeltaFromPress(anchor: Point, press: Point, ev: DragEvent, p: Point)
    requires ev.button == LeftButton && ev.isStart && ev.downPos == press
    ensures var s := DragStep(Released, anchor, ev).grab;
            MoveDelta(s, p) == Plus(Minus(p, press), Minus(anchor, press))
  {
  }

  /** A left-button run of drag events, in order. */
  function DragRun(s: DragState, anchor: Point, evs: seq<DragEvent>): (r: DragOutcome)
    decreases |evs|
  {
    if |evs| == 0 then DragOutcome(s, [], Untouched)
    else
      var first := DragStep(s, anchor, evs[0]);
      var rest := DragRun(first.grab, anchor, evs[1..]);
      DragOutcome(rest.grab, first.calls + rest.calls, rest.response)
  }

  /** The deltas in a list of controller calls, in order. */
  function MoveDeltas(calls: seq<Call>): (r: seq<Point>)
    ensures |r| <= |calls|
  {
    if |calls| == 0 then []
    else (if calls[0].DragSelectedEvents? then [calls[0].delta] else []) + MoveDeltas(calls[1..])
  }

  /** The deltas listed are exactly those of the drag calls made. */
  lemma {:induction false} MoveDeltasMembers(calls: seq<Call>, d: Point)
    ensures d in MoveDeltas(calls) <==> DragSelectedEvents(d) in calls
    decreases |calls|
  {
    if |calls| > 0 {
      MoveDeltasMembers(calls[1..], d);
      assert calls == [calls[0]] + calls[1..];
    }
  }

  lemma {:induction false} MoveDeltasAppend(a: seq<Call>, b: seq<Call>)
    ensures MoveDeltas(a + b) == MoveDeltas(a) + MoveDeltas(b)
    decreases |a|
  {
    if |a| == 0 {
      assert a + b == b;
    } else {
      var head: seq<Point> := if a[0].DragSelectedEvents? then [a[0].delta] else [];
      assert (a + b)[0] == a[0];
      assert (a + b)[1..] == a[1..] + b;
      assert MoveDeltas(a + b) == head + MoveDeltas(a[1..] + b);
      MoveDeltasAppend(a[1..], b);
      assert MoveDeltas(a) == head + MoveDeltas(a[1..]);
    }
  }

  /** After the press, every move of a left drag is measured from the
      recorded press, never from the previous move: the grab state does not
      change and the deltas are the press-relative ones, one per event. */
  lemma {:induction false} MovesMeasuredFromPress(s: DragState, anchor: Point, evs: seq<DragEvent>)
    requires s.grabbed
    requires forall i :: 0 <= i < |evs| ==> evs[i].button == LeftButton && !evs[i].isStart
    ensures DragRun(s, anchor, evs).grab == s
    ensures MoveDeltas(DragRun(s, anchor, evs).calls) == seq(|evs|, i requires 0 <= i < |evs| => MoveDelta(s, evs[i].pos))
    decreases |evs|
  {
    if |evs| > 0 {
      var first := DragStep(s, anchor, evs[0]);
      MovesMeasuredFromPress(s, anchor, evs[1..]);
      MoveDeltasAppend(first.calls, DragRun(s, anchor, evs[1..]).calls);
      var c2 := [DragSelectedEvents(MoveDelta(s, evs[0].pos))];
      var c3: seq<Call> := if evs[0].isFinish then [EndDrag] else [];
      assert first.calls == c2 + c3;
      MoveDeltasAppend(c2, c3);
      assert MoveDeltas(c3) == [];
      assert MoveDeltas(c2) == [MoveDelta(s, evs[0].pos)];
    }
  }

  /** `EventAction.drag`: the item's drag fields follow `DragHandled`. */
  method Drag(ev: DragEvent, item: EventPlotItem, selectedEvents: seq<EventPlotItem>) returns (calls: seq<Call>, response: Response)
    modifies item
    ensures var r := DragHandled(old(item.Grab()), item.anchor, item in selectedEvents, ev);
            item.Grab() == r.grab && calls == r.calls && response == r.response
  {
    calls := [];
    response := Untouched;
    if item !in selectedEvents {
      return;
    }
    if ev.button != LeftButton {
      response := Ignored;
      return;
    }
    if ev.isStart {
      item.dragOffset := Minus(item.anchor, ev.downPos);
      item.dragPoint := true;
      item.dragStart := ev.downPos;
      calls := calls + [StartDrag];
      response := Accepted;
    }
    if item.dragPoint {
      var newPos := Plus(ev.pos, item.dragOffset);
      var posDelta := Minus(newPos, item.dragStart);
      calls := calls + [DragSelectedEvents(posDelta)];
      response := Accepted;
    }
    if ev.isFinish {
      calls := calls + [EndDrag];
    }
  }

  /** A region rectangle: its origin (the drag start) and a size that may be
      negative. */
  datatype Rect = Rect(origin: Point, size: Point)

  function Low(o: real, s: real): real
  {
    if s < 0.0 then o + s else o
  }

  function High(o: real, s: real): real
  {
    if s < 0.0 then o else o + s
  }

  /** Qt 5's `QRectF.contains(QPointF)`: a rectangle with no width or no
      height contains nothing; otherwise the point lies within the
      normalised rectangle, edges included. */
  predicate Contains(r: Rect, p: Point)
  {
    && Low(r.origin.x, r.size.x) < High(r.origin.x, r.size.x)
    && Low(r.origin.y, r.size.y) < High(r.origin.y, r.size.y)
    && Low(r.origin.x, r.size.x) <= p.x <= High(r.origin.x, r.size.x)
    && Low(r.origin.y, r.size.y) <= p.y <= High(r.origin.y, r.size.y)
  }

  /** A region with no width or no height contains no point, not even its
      own corner. */
  lemma FlatRegionContainsNothing(r: Rect, p: Point)
    requires r.size.x == 0.0 || r.size.y == 0.0
    ensures !Contains(r, p)
  {
  }

  /** Dragging from a to b spans the same region as dragging from b to a. */
  lemma RegionIgnoresDirection(a: Point, b: Point, p: Point)
    ensures Contains(Rect(a, Minus(b, a)), p) <==> Contains(Rect(b, Minus(a, b)), p)
  {
  }

  /** The region items of `get_items_in_roi`, in child order. */
  function InRoi(bounds: Rect, children: seq<ChildItem>): (r: seq<ChildItem>)
    ensures |r| <= |children|
    ensures forall c :: c in r <==> c in children && c.isLayerPlotItem && Contains(bounds, c.first)
    decreases |children|
  {
    if |children| == 0 then []
    else
      var last := children[|children| - 1];
      InRoi(bounds, children[..|children| - 1])
      + (if last.isLayerPlotItem && Contains(bounds, last.first) then [last] else [])
  }

  /** `get_items_in_roi`'s loop over the view box children. */
  method ItemsInRoi(bounds: Rect, children: seq<ChildItem>) returns (selected: seq<ChildItem>)
    ensures selected == InRoi(bounds, children)
  {
    selected := [];
    var i := 0;
    while i < |children|
      invariant 0 <= i <= |children|
      invariant selected == InRoi(bounds, children[..i])
    {
      var item := children[i];
      assert children[..i + 1][..i] == children[..i];
      if item.isLayerPlotItem && Contains(bounds, item.first) {
        selected := selected + [item];
      }
      i := i + 1;
    }
    assert children[..|children|] == children;
  }

  /** A region-drag event: the button, modifiers, phase and the mouse
      position already mapped into view coordinates. */
  datatype RoiEvent = RoiEvent(button: MouseButton, mods: set<Modifier>, isStart: bool, isFinish: bool, viewPos: Point)

  /** The view box fields `roi` and `dragStartPos`. */
  datatype RoiState = RoiState(roi: Option<Rect>, dragStartPos: Option<Point>)

  const NoRegion := RoiState(None, None)

  datatype RoiOutcome = RoiOutcome(state: RoiState, calls: seq<Call>, outcome: Outcome)

  /** `LayerAction.roi_drag` as a step on the view box fields. */
  function RoiStep(s: RoiState, children: seq<ChildItem>, ev: RoiEvent): (r: RoiOutcome)
    ensures !(ev.button == LeftButton && ev.mods == {Shift}) ==> r == RoiOutcome(s, [], Ok)
    ensures r.calls != [] ==> ev.isFinish && s.roi.Some? && r.calls == [SelectRoiEvents(InRoi(s.roi.value, children))]
    ensures r.calls != [] ==> r.state == NoRegion
    ensures r.outcome.Raised? <==> ev.button == LeftButton && ev.mods == {Shift} && !ev.isStart && ev.isFinish && s.roi.None?
  {
    if !(ev.button == LeftButton && ev.mods == {Shift}) then RoiOutcome(s, [], Ok)
    else if ev.isStart then
      RoiOutcome(RoiState(Some(Rect(ev.viewPos, Point(1.0, 1.0))), Some(ev.viewPos)), [], Ok)
    else if ev.isFinish then
      if s.roi.None? then RoiOutcome(s, [], Raised(AttributeError))
      else RoiOutcome(NoRegion, [SelectRoiEvents(InRoi(s.roi.value, children))], Ok)
    else if s.roi.Some? && s.dragStartPos.Some? && PointTruthy(s.dragStartPos.value) then
      RoiOutcome(s.(roi := Some(Rect(s.roi.value.origin, Minus(ev.viewPos, s.dragStartPos.value)))), [], Ok)
    else RoiOutcome(s, [], Ok)
  }

  /** A shift-drag pressed at `d`, moved last to `p` and released selects
      exactly the layer items whose first point lies between `d` and `p`,
      and leaves no region behind. */
  lemma ShiftDragSelectsSpannedItems(children: seq<ChildItem>, d: Point, p: Point, q: Point, c: ChildItem)
    requires PointTruthy(d)
    ensures var s1 := RoiStep(NoRegion, children, RoiEvent(LeftButton, {Shift}, true, false, d)).state;
            var s2 := RoiStep(s1, children, RoiEvent(LeftButton, {Shift}, false, false, p)).state;
            var r := RoiStep(s2, children, RoiEvent(LeftButton, {Shift}, false, true, q));
            && r.state == NoRegion
            && |r.calls| == 1 && r.calls[0].SelectRoiEvents?
            && (c in r.calls[0].items <==> c in children && c.isLayerPlotItem && Contains(Rect(d, Minus(p, d)), c.first))
  {
  }

  /** A shift-drag released on the vertical or horizontal line through its
      press spans a region with no area, and selects nothing even from
      items on that line. */
  lemma StraightShiftDragSelectsNothing(children: seq<ChildItem>, d: Point, p: Point, q: Point)
    requires PointTruthy(d) && (p.x == d.x || p.y == d.y)
    ensures var s1 := RoiStep(NoRegion, children, RoiEvent(LeftButton, {Shift}, true, false, d)).state;
            var s2 := RoiStep(s1, children, RoiEvent(LeftButton, {Shift}, false, false, p)).state;
            var r := RoiStep(s2, children, RoiEvent(LeftButton, {Shift}, false, true, q));
            && |r.calls| == 1 && r.calls[0].SelectRoiEvents?
            && forall c :: c !in r.calls[0].items
  {
    var s1 := RoiStep(NoRegion, children, RoiEvent(LeftButton, {Shift}, true, false, d)).state;
    var s2 := RoiStep(s1, children, RoiEvent(LeftButton, {Shift}, false, false, p)).state;
    var region := Rect(d, Minus(p, d));
    assert s2.roi == Some(region);
    forall c | c in children
      ensures !Contains(region, c.first)
    {
      FlatRegionContainsNothing(region, c.first);
    }
  }

  /** A shift-drag pressed exactly at the view origin never resizes its
      region: the press position is Qt-false, so the update step skips it. */
  lemma OriginPressKeepsUnitRegion(children: seq<ChildItem>, p: Point)
    ensures var s1 := RoiStep(NoRegion, children, RoiEvent(LeftButton, {Shift}, true, false, Point(0.0, 0.0))).state;
            var s2 := RoiStep(s1, children, RoiEvent(LeftButton, {Shift}, false, false, p)).state;
            s2.roi == Some(Rect(Point(0.0, 0.0), Point(1.0, 1.0)))
  {
  }

  /** The view box the layer plot draws into. */
  class ViewBox {
    var roi: Option<Rect>
    var dragStartPos: Option<Point>
    var children: seq<ChildItem>

    constructor (children: seq<ChildItem>)
      ensures Region() == NoRegion && this.children == children
    {
      roi := None;
      dragStartPos := None;
      this.children := children;
    }

    function Region(): RoiState
      reads this
    {
      RoiState(roi, dragStartPos)
    }
  }

  /** `LayerAction.roi_drag`. */
  method RoiDrag(ev: RoiEvent, viewbox: ViewBox) returns (calls: seq<Call>, outcome: Outcome)
    modifies viewbox
    ensures viewbox.children == old(viewbox.children)
    ensures var r := RoiStep(old(viewbox.Region()), viewbox.children, ev);
            viewbox.Region() == r.state && calls == r.calls && outcome == r.outcome
  {
    calls := [];
    outcome := Ok;
    if ev.button == LeftButton && ev.mods == {Shift} {
      var pos := ev.viewPos;
      if ev.isStart {
        viewbox.dragStartPos := Some(pos);
        viewbox.roi := Some(Rect(pos, Point(1.0, 1.0)));
      } else if ev.isFinish {
        if viewbox.roi.None? {
          return [], Raised(AttributeError);
        }
        var selectedItems := ItemsInRoi(viewbox.roi.value, viewbox.children);
        calls := [SelectRoiEvents(selectedItems)];
        viewbox.roi := None;
        viewbox.dragStartPos := None;
      } else {
        if viewbox.roi.Some? && viewbox.dragStartPos.Some? && PointTruthy(viewbox.dragStartPos.value) {
          var currentPos := pos;
          viewbox.roi := Some(Rect(viewbox.roi.value.origin, Minus(currentPos, viewbox.dragStartPos.value)));
        }
      }
    }
  }
}

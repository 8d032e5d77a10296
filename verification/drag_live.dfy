/**
 * useDraggable.ts, the hook the windows use: pointer-down on a drag or a
 * resize handle opens a session, pointer-move moves or resizes the
 * rectangle relative to where the session opened, pointer-up closes it.
 * The hook's React state (`isDragging`, `isResizing`, `coords`,
 * `offsetCoords`) is the state of a `LiveHook` object; each setter takes
 * effect at once.
 */
module LiveDraggable {
  import opened Wrappers
  import opened Numbers
  import opened Text
  import opened Geometry
  import opened InlineStyle

  /** `offsetCoords`: where the pointer was relative to the container, and the size, at pointer-down. */
  datatype Offset = Offset(dragOffsetLeft: real, dragOffsetTop: real, height: real, width: real)

  datatype State = State(isDragging: bool, isResizing: bool, coords: RealRect, offset: Option<Offset>)

  /** The hook's settings, fixed for the life of the hook. */
  datatype Settings = Settings(restrictBounds: bool, setStyles: bool)

  function Init(initial: Option<PartialRect>): (s: State)
    ensures !s.isDragging && !s.isResizing && s.offset.None?
    ensures s.coords == ToReal(InitialRect(initial))
  {
    State(false, false, ToReal(InitialRect(initial)), None)
  }

  /** An open offset always belongs to an active drag or resize. */
  ghost predicate Consistent(s: State) {
    s.offset.Some? ==> s.isDragging || s.isResizing
  }

  function Active(s: State, kind: Kind): bool {
    if kind == Drag then s.isDragging else s.isResizing
  }

  function OffsetLeftOf(container: Option<Element>): int {
    if container.Some? then container.value.offsetLeft else 0
  }

  function OffsetTopOf(container: Option<Element>): int {
    if container.Some? then container.value.offsetTop else 0
  }

  /** `handlePointerDown`: ignored while a session of the same kind runs. */
  function Down(s: State, kind: Kind, p: Pointer, container: Option<Element>): (r: State)
    ensures Consistent(r) || (Active(s, kind) && r == s)
    ensures Active(s, kind) ==> r == s
    ensures !Active(s, kind) ==> Active(r, kind) && r.offset.Some? && r.coords == s.coords
    ensures !Active(s, kind) ==>
      && r.offset.value.dragOffsetLeft + OffsetLeftOf(container) as real == p.clientX
      && r.offset.value.dragOffsetTop + OffsetTopOf(container) as real == p.clientY
      && r.offset.value.height == s.coords.height && r.offset.value.width == s.coords.width
    ensures Active(r, if kind == Drag then Resize else Drag) == Active(s, if kind == Drag then Resize else Drag)
  {
    if Active(s, kind) then s
    else
      var offset := Offset(p.clientX - OffsetLeftOf(container) as real, p.clientY - OffsetTopOf(container) as real,
                           s.coords.height, s.coords.width);
      State(s.isDragging || kind == Drag, s.isResizing || kind == Resize, s.coords, Some(offset))
  }

  /** `handlePointerUp`: the offset goes and so does the flag of this handle's kind. */
  function Up(s: State, kind: Kind): (r: State)
    ensures Consistent(r) && r.offset.None? && !Active(r, kind) && r.coords == s.coords
    ensures Active(r, if kind == Drag then Resize else Drag) == Active(s, if kind == Drag then Resize else Drag)
  {
    if kind == Drag then s.(isDragging := false, offset := None) else s.(isResizing := false, offset := None)
  }

  function NewLeft(o: Offset, p: Pointer): real {
    p.clientX - o.dragOffsetLeft
  }

  function NewTop(o: Offset, p: Pointer): real {
    p.clientY - o.dragOffsetTop
  }

  function NewHeight(s: State, o: Offset, p: Pointer): real {
    if s.isResizing then o.height + NewTop(o, p) - s.coords.top else s.coords.height
  }

  function NewWidth(s: State, o: Offset, p: Pointer): real {
    if s.isResizing then o.width + NewLeft(o, p) - s.coords.left else s.coords.width
  }

  function HandleWidth(handle: Option<Element>): int {
    if handle.Some? then handle.value.offsetWidth else 0
  }

  function HandleHeight(handle: Option<Element>): int {
    if handle.Some? then handle.value.offsetHeight else 0
  }

  /** Whether a move does anything: some session runs and an offset is recorded. */
  predicate Moving(s: State) {
    (s.isDragging || s.isResizing) && s.offset.Some?
  }

  /** `handlePointerMove`'s new coordinates. */
  function Move(s: State, p: Pointer, handle: Option<Element>, vp: Viewport, settings: Settings): (r: State)
    ensures !Moving(s) ==> r == s
    ensures r.isDragging == s.isDragging && r.isResizing == s.isResizing && r.offset == s.offset
    ensures !s.isDragging ==> r.coords.left == s.coords.left && r.coords.top == s.coords.top
    ensures !s.isResizing ==> r.coords.height == s.coords.height && r.coords.width == s.coords.width
  {
    if !Moving(s) then s
    else
      var o := s.offset.value;
      var newLeft := NewLeft(o, p);
      var newTop := NewTop(o, p);
      var restrictedLeft := if settings.restrictBounds then Clamp(newLeft, (vp.innerWidth - HandleWidth(handle)) as real) else 0.0;
      var restrictedTop := if settings.restrictBounds then Clamp(newTop, (vp.innerHeight - HandleHeight(handle)) as real) else 0.0;
      s.(coords := RealRect(
        left := if s.isDragging then (if settings.restrictBounds then restrictedLeft else newLeft) else s.coords.left,
        top := if s.isDragging then (if settings.restrictBounds then restrictedTop else newTop) else s.coords.top,
        height := if s.isResizing then NewHeight(s, o, p) else s.coords.height,
        width := if s.isResizing then NewWidth(s, o, p) else s.coords.width))
  }

  /** `${v.toFixed(3)}px`. */
  function Fixed3Px(v: real): string {
    ToFixed(v, 3) + "px"
  }

  /** The array the move writes before `.filter((f) => f)`: a declaration, or false, per property. */
  function StyleParts(s: State, o: Offset, p: Pointer): seq<Option<string>> {
    [ if s.isResizing then Some("height: " + Fixed3Px(NewHeight(s, o, p))) else None,
      if s.isDragging then Some("left: " + Fixed3Px(NewLeft(o, p))) else None,
      if s.isDragging then Some("top: " + Fixed3Px(NewTop(o, p))) else None,
      if s.isResizing then Some("width: " + Fixed3Px(NewWidth(s, o, p))) else None ]
  }

  /** The `style` attribute a move writes, when `setStyles` is on and the container is mounted. */
  function MoveStyle(s: State, p: Pointer, container: Option<Element>, settings: Settings): (r: Option<string>)
    ensures r.Some? <==> Moving(s) && settings.setStyles && container.Some?
  {
    if !Moving(s) || !settings.setStyles || container.None? then None
    else Some(Join(Truthy(StyleParts(s, s.offset.value, p)), "; "))
  }

  /** The same declarations as (property, value) pairs, undefined where the kind is inactive. */
  function StyleEntries(s: State, o: Offset, p: Pointer): seq<Entry> {
    [ ("height", if s.isResizing then Some(Fixed3Px(NewHeight(s, o, p))) else None),
      ("left", if s.isDragging then Some(Fixed3Px(NewLeft(o, p))) else None),
      ("top", if s.isDragging then Some(Fixed3Px(NewTop(o, p))) else None),
      ("width", if s.isResizing then Some(Fixed3Px(NewWidth(s, o, p))) else None) ]
  }

  /** The hand-built style is `buildInlineStyle` of the active properties, in the order height, left, top, width. */
  lemma MoveStyleIsInlineStyle(s: State, p: Pointer, container: Option<Element>, settings: Settings)
    requires Moving(s) && settings.setStyles && container.Some?
    ensures MoveStyle(s, p, container, settings) == Some(BuildInlineStyle(FromPairs(StyleEntries(s, s.offset.value, p))))
  {
    var o := s.offset.value;
    var entries := StyleEntries(s, o, p);
    assert "height" + ": " == "height: " && "left" + ": " == "left: ";
    assert "top" + ": " == "top: " && "width" + ": " == "width: ";
    assert Declarations(entries) == StyleParts(s, o, p);
    TruthyMatchesInlineStyle(entries);
  }

  /** After any pointer-up nothing moves until the next pointer-down. */
  lemma UpStopsMoves(s: State, kind: Kind, p: Pointer, handle: Option<Element>, container: Option<Element>,
                     vp: Viewport, settings: Settings)
    ensures Move(Up(s, kind), p, handle, vp, settings) == Up(s, kind)
    ensures MoveStyle(Up(s, kind), p, container, settings).None?
  {
  }

  /** The container sits where the coordinates say. */
  predicate Placed(s: State, container: Element) {
    container.offsetLeft as real == s.coords.left && container.offsetTop as real == s.coords.top
  }

  /**
   * Dragging from rest moves the rectangle by the pointer's displacement
   * since pointer-down, and keeps its size.
   */
  lemma DragFollowsPointer(s: State, p0: Pointer, p1: Pointer, container: Element, handle: Option<Element>, vp: Viewport)
    requires !s.isDragging && !s.isResizing && Placed(s, container)
    ensures var moved := Move(Down(s, Drag, p0, Some(container)), p1, handle, vp, Settings(false, false));
      moved.coords == RealRect(s.coords.left + (p1.clientX - p0.clientX), s.coords.top + (p1.clientY - p0.clientY),
                               s.coords.height, s.coords.width)
  {
  }

  /**
   * Resizing from rest grows the rectangle by the pointer's displacement
   * since pointer-down, and keeps its position.
   */
  lemma ResizeFollowsPointer(s: State, p0: Pointer, p1: Pointer, container: Element, handle: Option<Element>,
                             vp: Viewport, settings: Settings)
    requires !s.isDragging && !s.isResizing && Placed(s, container)
    ensures var moved := Move(Down(s, Resize, p0, Some(container)), p1, handle, vp, settings);
      moved.coords == RealRect(s.coords.left, s.coords.top, s.coords.height + (p1.clientY - p0.clientY),
                               s.coords.width + (p1.clientX - p0.clientX))
  {
  }

  /**
   * While only one kind of session runs, where the rectangle ends up depends
   * on the last pointer position only, not on the path the pointer took.
   */
  lemma MovesArePathIndependent(s: State, p1: Pointer, p2: Pointer, handle: Option<Element>, vp: Viewport, settings: Settings)
    requires !(s.isDragging && s.isResizing)
    ensures Move(Move(s, p1, handle, vp, settings), p2, handle, vp, settings) == Move(s, p2, handle, vp, settings)
  {
  }

  /**
   * With `restrictBounds`, dragging from rest moves the window by the
   * pointer's displacement while that keeps it between the viewport's
   * corner and the viewport's size less the handle's; beyond that it stops
   * at the limit, and it never goes left of or above the corner. The size
   * is kept.
   */
  lemma DragStaysInViewport(s: State, p0: Pointer, p1: Pointer, container: Element, handle: Option<Element>,
                            vp: Viewport, setStyles: bool)
    requires !s.isDragging && !s.isResizing && Placed(s, container)
    ensures var r := Move(Down(s, Drag, p0, Some(container)), p1, handle, vp, Settings(true, setStyles));
      var left := s.coords.left + (p1.clientX - p0.clientX);
      var top := s.coords.top + (p1.clientY - p0.clientY);
      var maxLeft := (vp.innerWidth - HandleWidth(handle)) as real;
      var maxTop := (vp.innerHeight - HandleHeight(handle)) as real;
      && r.coords.left == Clamp(left, maxLeft) && r.coords.top == Clamp(top, maxTop)
      && (0.0 <= left <= maxLeft ==> r.coords.left == left)
      && (0.0 <= maxLeft <= left ==> r.coords.left == maxLeft)
      && (left <= 0.0 || maxLeft < 0.0 ==> r.coords.left == 0.0)
      && (0.0 <= top <= maxTop ==> r.coords.top == top)
      && (0.0 <= maxTop <= top ==> r.coords.top == maxTop)
      && (top <= 0.0 || maxTop < 0.0 ==> r.coords.top == 0.0)
      && r.coords.height == s.coords.height && r.coords.width == s.coords.width
  {
    var o := Down(s, Drag, p0, Some(container)).offset.value;
    assert NewLeft(o, p1) == s.coords.left + (p1.clientX - p0.clientX);
    assert NewTop(o, p1) == s.coords.top + (p1.clientY - p0.clientY);
  }

  /** A window at the default place, grabbed at (110, 110) and dragged to (210, 160), ends at (200, 150). */
  lemma DefaultDragExample(container: Element, handle: Option<Element>, vp: Viewport)
    requires container.offsetLeft == 100 && container.offsetTop == 100
    ensures var s := Down(Init(None), Drag, Pointer(110.0, 110.0), Some(container));
      Move(s, Pointer(210.0, 160.0), handle, vp, Settings(false, false)).coords == RealRect(200.0, 150.0, 240.0, 320.0)
  {
    DragFollowsPointer(Init(None), Pointer(110.0, 110.0), Pointer(210.0, 160.0), container, handle, vp);
  }

  /** The hook object: React state as fields, the three handlers as methods. */
  class LiveHook {
    const settings: Settings
    var isDragging: bool
    var isResizing: bool
    var coords: RealRect
    var offsetCoords: Option<Offset>

    function Current(): State
      reads this
    {
      State(isDragging, isResizing, coords, offsetCoords)
    }

    ghost predicate Valid()
      reads this
    {
      Consistent(Current())
    }

    constructor(initialCoords: Option<PartialRect>, settings: Settings)
      ensures Valid() && Current() == Init(initialCoords) && this.settings == settings
    {
      this.settings := settings;
      isDragging := false;
      isResizing := false;
      coords := ToReal(InitialRect(initialCoords));
      offsetCoords := None;
    }

    method HandlePointerDown(e: Pointer, container: Option<Element>, kind: Kind)
      requires Valid()
      modifies this
      ensures Valid()
      ensures Current() == Down(old(Current()), kind, e, container)
    {
      if (kind == Drag && isDragging) || (kind == Resize && isResizing) {
        return;
      }
      offsetCoords := Some(Offset(e.clientX - OffsetLeftOf(container) as real, e.clientY - OffsetTopOf(container) as real,
                                  coords.height, coords.width));
      if kind == Drag {
        isDragging := true;
      } else {
        isResizing := true;
      }
    }

    method HandlePointerUp(kind: Kind)
      requires Valid()
      modifies this
      ensures Valid()
      ensures Current() == Up(old(Current()), kind)
    {
      offsetCoords := None;
      if kind == Drag {
        isDragging := false;
      } else {
        isResizing := false;
      }
    }

    /** Returns the `style` attribute written, if any. */
    method HandlePointerMove(e: Pointer, handle: Option<Element>, container: Option<Element>, vp: Viewport)
      returns (style: Option<string>)
      requires Valid()
      modifies this
      ensures Valid()
      ensures Current() == Move(old(Current()), e, handle, vp, settings)
      ensures style == MoveStyle(old(Current()), e, container, settings)
    {
      style := None;
      if (!isDragging && !isResizing) || offsetCoords.None? {
        return;
      }
      var s := Current();
      var o := offsetCoords.value;
      var newLeft := e.clientX - o.dragOffsetLeft;
      var newTop := e.clientY - o.dragOffsetTop;
      var newHeight := if isResizing then o.height + newTop - coords.top else coords.height;
      var newWidth := if isResizing then o.width + newLeft - coords.left else coords.width;
      assert s.offset == Some(o);
      assert newLeft == NewLeft(o, e) && newTop == NewTop(o, e);
      assert isResizing ==> newHeight == NewHeight(s, o, e) && newWidth == NewWidth(s, o, e);
      if settings.setStyles && container.Some? {
        style := Some(Join(Truthy(StyleParts(s, o, e)), "; "));
      }
      var restrictedLeft := if settings.restrictBounds then Clamp(newLeft, (vp.innerWidth - HandleWidth(handle)) as real) else 0.0;
      var restrictedTop := if settings.restrictBounds then Clamp(newTop, (vp.innerHeight - HandleHeight(handle)) as real) else 0.0;
      coords := RealRect(
        left := if isDragging then (if settings.restrictBounds then restrictedLeft else newLeft) else coords.left,
        top := if isDragging then (if settings.restrictBounds then restrictedTop else newTop) else coords.top,
        height := if isResizing then newHeight else coords.height,
        width := if isResizing then newWidth else coords.width);
    }
  }
}

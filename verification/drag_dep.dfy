/**
 * DEP_useDraggable.ts, the earlier drag hook. It keeps one offset record
 * whose fields say which kind of session runs (`dragOffset*` or
 * `resizeOffset*`), works in whole pixels (`Math.trunc`) and writes
 * `${n}px` values.
 */
module DepDraggable {
  import opened Wrappers
  import opened Numbers
  import opened Text
  import opened Geometry
  import opened InlineStyle

  /**
   * `offsetCoords`: the size at pointer-down and one pair of offsets; `kind`
   * says whether they are the drag pair or the resize pair.
   */
  datatype Offset = Offset(kind: Kind, offsetLeft: real, offsetTop: real, height: int, width: int)

  datatype State = State(coords: Rect, offset: Option<Offset>)

  datatype Settings = Settings(restrictBounds: bool, setStyles: bool)

  function Init(initial: Option<PartialRect>): (s: State)
    ensures s.offset.None? && s.coords == InitialRect(initial)
  {
    State(InitialRect(initial), None)
  }

  /** A session of this kind runs: its `OffsetTop` field is defined. */
  predicate Running(s: State, kind: Kind) {
    s.offset.Some? && s.offset.value.kind == kind
  }

  /**
   * `handlePointerDown`: ignored while a session of the same kind runs;
   * otherwise a fresh record of this kind replaces whatever was there.
   */
  function Down(s: State, kind: Kind, p: Pointer, container: Option<Element>): (r: State)
    ensures Running(r, kind) && r.coords == s.coords
    ensures Running(s, kind) ==> r == s
    ensures !Running(s, kind) ==> r.offset.value.height == s.coords.height && r.offset.value.width == s.coords.width
    ensures !Running(s, kind) ==>
      && r.offset.value.offsetLeft + (if container.Some? then container.value.offsetLeft else 0) as real == p.clientX
      && r.offset.value.offsetTop + (if container.Some? then container.value.offsetTop else 0) as real == p.clientY
  {
    if Running(s, kind) then s
    else
      var offsetLeft := p.clientX - (if container.Some? then container.value.offsetLeft else 0) as real;
      var offsetTop := p.clientY - (if container.Some? then container.value.offsetTop else 0) as real;
      s.(offset := Some(Offset(kind, offsetLeft, offsetTop, s.coords.height, s.coords.width)))
  }

  /** `handlePointerUp`: whatever runs stops, whichever handle was released. */
  function Up(s: State): (r: State)
    ensures r.offset.None? && r.coords == s.coords
  {
    s.(offset := None)
  }

  /** `Math.trunc(e.clientX - (offsetCoords.dragOffsetLeft ?? 0))`: only a drag record has drag offsets. */
  function NewLeft(o: Offset, p: Pointer): int {
    Trunc(p.clientX - (if o.kind == Drag then o.offsetLeft else 0.0))
  }

  function NewTop(o: Offset, p: Pointer): int {
    Trunc(p.clientY - (if o.kind == Drag then o.offsetTop else 0.0))
  }

  function NewHeight(s: State, o: Offset, p: Pointer): int {
    if o.kind == Resize then o.height + NewTop(o, p) - s.coords.top else s.coords.height
  }

  function NewWidth(s: State, o: Offset, p: Pointer): int {
    if o.kind == Resize then o.width + NewLeft(o, p) - s.coords.left else s.coords.width
  }

  function HandleWidth(handle: Option<Element>): int {
    if handle.Some? then handle.value.offsetWidth else 0
  }

  function HandleHeight(handle: Option<Element>): int {
    if handle.Some? then handle.value.offsetHeight else 0
  }

  /** `handlePointerMove`'s new coordinates. */
  function Move(s: State, p: Pointer, handle: Option<Element>, vp: Viewport, settings: Settings): (r: State)
    ensures s.offset.None? ==> r == s
    ensures r.offset == s.offset
    ensures !Running(s, Drag) ==> r.coords.left == s.coords.left && r.coords.top == s.coords.top
    ensures !Running(s, Resize) ==> r.coords.height == s.coords.height && r.coords.width == s.coords.width
  {
    if s.offset.None? then s
    else
      var o := s.offset.value;
      var isDragging := o.kind == Drag;
      var isResizing := o.kind == Resize;
      var newLeft := NewLeft(o, p);
      var newTop := NewTop(o, p);
      var restrictedLeft := if settings.restrictBounds then ClampInt(newLeft, vp.innerWidth - HandleWidth(handle)) else 0;
      var restrictedTop := if settings.restrictBounds then ClampInt(newTop, vp.innerHeight - HandleHeight(handle)) else 0;
      s.(coords := Rect(
        left := if isDragging then (if settings.restrictBounds then restrictedLeft else newLeft) else s.coords.left,
        top := if isDragging then (if settings.restrictBounds then restrictedTop else newTop) else s.coords.top,
        height := if isResizing then NewHeight(s, o, p) else s.coords.height,
        width := if isResizing then NewWidth(s, o, p) else s.coords.width))
  }

  /** The array the move writes before `.filter((f) => f)`. */
  function StyleParts(s: State, o: Offset, p: Pointer): seq<Option<string>> {
    [ if o.kind == Resize then Some("height: " + Px(NewHeight(s, o, p))) else None,
      if o.kind == Drag then Some("left: " + Px(NewLeft(o, p))) else None,
      if o.kind == Drag then Some("top: " + Px(NewTop(o, p))) else None,
      if o.kind == Resize then Some("width: " + Px(NewWidth(s, o, p))) else None ]
  }

  /** The `style` attribute a move writes, when `setStyles` is on and the container is mounted. */
  function MoveStyle(s: State, p: Pointer, container: Option<Element>, settings: Settings): (r: Option<string>)
    ensures r.Some? <==> s.offset.Some? && settings.setStyles && container.Some?
  {
    if s.offset.None? || !settings.setStyles || container.None? then None
    else Some(Join(Truthy(StyleParts(s, s.offset.value, p)), "; "))
  }

  /** The pairs of the session's kind: size while resizing, position while dragging. */
  function StyleEntries(s: State, o: Offset, p: Pointer): seq<Entry> {
    if o.kind == Resize then [("height", Some(Px(NewHeight(s, o, p)))), ("width", Some(Px(NewWidth(s, o, p))))]
    else [("left", Some(Px(NewLeft(o, p)))), ("top", Some(Px(NewTop(o, p))))]
  }

  /** Undefined parts in the middle or at the ends are filtered out. */
  lemma TruthyOuter(x: Option<string>, y: Option<string>)
    ensures Truthy([x, None, None, y]) == Truthy([x, y])
  {
    var head := if x.Some? && x.value != "" then [x.value] else [];
    assert [x, None, None, y][1..] == [None, None, y];
    assert Truthy([x, None, None, y]) == head + Truthy([None, None, y]);
    assert [None, None, y][1..] == [None, y];
    assert Truthy([None, None, y]) == Truthy([None, y]);
    assert [None, y][1..] == [y];
    assert Truthy([None, y]) == Truthy([y]);
    assert [x, y][1..] == [y];
    assert Truthy([x, y]) == head + Truthy([y]);
  }

  lemma TruthyInner(x: Option<string>, y: Option<string>)
    ensures Truthy([None, x, y, None]) == Truthy([x, y])
  {
    assert [None, x, y, None][1..] == [x, y, None];
    assert [x, y, None][1..] == [y, None];
    assert [y, None][1..] == [None];
    assert [x, y][1..] == [y];
    assert [y, None][1..][1..] == [] && [x, y][1..][1..] == [];
    assert Truthy([y, None]) == Truthy([y]);
  }

  /** A move's style holds exactly the two properties of its session's kind. */
  lemma MoveStyleIsInlineStyle(s: State, p: Pointer, container: Option<Element>, settings: Settings)
    requires s.offset.Some? && settings.setStyles && container.Some?
    ensures MoveStyle(s, p, container, settings) == Some(BuildInlineStyle(FromPairs(StyleEntries(s, s.offset.value, p))))
  {
    var o := s.offset.value;
    var entries := StyleEntries(s, o, p);
    var decls := Declarations(entries);
    TruthyMatchesInlineStyle(entries);
    if o.kind == Resize {
      assert "height" + ": " == "height: " && "width" + ": " == "width: ";
      assert StyleParts(s, o, p) == [decls[0], None, None, decls[1]];
      TruthyOuter(decls[0], decls[1]);
      assert [decls[0], decls[1]] == decls;
    } else {
      assert "left" + ": " == "left: " && "top" + ": " == "top: ";
      assert StyleParts(s, o, p) == [None, decls[0], decls[1], None];
      TruthyInner(decls[0], decls[1]);
      assert [decls[0], decls[1]] == decls;
    }
  }

  /** After pointer-up nothing moves until the next pointer-down. */
  lemma UpStopsMoves(s: State, p: Pointer, handle: Option<Element>, container: Option<Element>, vp: Viewport, settings: Settings)
    ensures Move(Up(s), p, handle, vp, settings) == Up(s)
    ensures MoveStyle(Up(s), p, container, settings).None?
  {
  }

  /** Pressing the other kind's handle ends the running session and starts one of the other kind. */
  lemma OtherKindTakesOver(s: State, kind: Kind, p: Pointer, container: Option<Element>)
    requires s.offset.Some? && s.offset.value.kind != kind
    ensures Running(Down(s, kind, p, container), kind) && !Running(Down(s, kind, p, container), s.offset.value.kind)
  {
  }

  /** The container sits where the coordinates say. */
  predicate Placed(s: State, container: Element) {
    container.offsetLeft == s.coords.left && container.offsetTop == s.coords.top
  }

  /**
   * Dragging from rest moves the rectangle by the pointer's displacement
   * since pointer-down, truncated to whole pixels, and keeps its size.
   */
  lemma DragFollowsPointer(s: State, p0: Pointer, p1: Pointer, container: Element, handle: Option<Element>, vp: Viewport)
    requires s.offset.None? && Placed(s, container)
    ensures var moved := Move(Down(s, Drag, p0, Some(container)), p1, handle, vp, Settings(false, false));
      moved.coords == Rect(Trunc(s.coords.left as real + (p1.clientX - p0.clientX)),
                           Trunc(s.coords.top as real + (p1.clientY - p0.clientY)),
                           s.coords.height, s.coords.width)
  {
    var o := Down(s, Drag, p0, Some(container)).offset.value;
    assert p1.clientX - o.offsetLeft == s.coords.left as real + (p1.clientX - p0.clientX);
    assert p1.clientY - o.offsetTop == s.coords.top as real + (p1.clientY - p0.clientY);
  }

  /**
   * Resizing measures the pointer from the viewport's corner, not from
   * where it went down: a resize session's record has no drag offsets, so
   * the new size depends on where the pointer is, not on how far it moved,
   * and pressing and releasing without moving (p1 == p0) still resizes.
   */
  lemma ResizeFromViewport(s: State, p0: Pointer, p1: Pointer, container: Element, handle: Option<Element>,
                           vp: Viewport, settings: Settings)
    requires s.offset.None?
    ensures var moved := Move(Down(s, Resize, p0, Some(container)), p1, handle, vp, settings);
      moved.coords == Rect(s.coords.left, s.coords.top,
                           s.coords.height + Trunc(p1.clientY) - s.coords.top,
                           s.coords.width + Trunc(p1.clientX) - s.coords.left)
  {
  }

  /** The default window, resized from its bottom-right corner at (420, 340) without moving, doubles in size. */
  lemma ResizeAtRestExample(container: Element, handle: Option<Element>, vp: Viewport, settings: Settings)
    ensures var s := Down(Init(None), Resize, Pointer(420.0, 340.0), Some(container));
      Move(s, Pointer(420.0, 340.0), handle, vp, settings).coords == Rect(100, 100, 480, 640)
  {
    ResizeFromViewport(Init(None), Pointer(420.0, 340.0), Pointer(420.0, 340.0), container, handle, vp, settings);
    assert Trunc(340.0) == 340 && Trunc(420.0) == 420;
  }

  /** Where the rectangle ends up depends on the last pointer position only. */
  lemma MovesArePathIndependent(s: State, p1: Pointer, p2: Pointer, handle: Option<Element>, vp: Viewport, settings: Settings)
    ensures Move(Move(s, p1, handle, vp, settings), p2, handle, vp, settings) == Move(s, p2, handle, vp, settings)
  {
  }

  /**
   * With `restrictBounds`, dragging from rest moves the window to its start
   * plus the pointer's displacement, truncated, while that keeps it between
   * the viewport's corner and the viewport's size less the handle's; beyond
   * that it stops at the limit, and it never goes left of or above the
   * corner. The size is kept.
   */
  lemma DragStaysInViewport(s: State, p0: Pointer, p1: Pointer, container: Element, handle: Option<Element>,
                            vp: Viewport, setStyles: bool)
    requires s.offset.None? && Placed(s, container)
    ensures var r := Move(Down(s, Drag, p0, Some(container)), p1, handle, vp, Settings(true, setStyles));
      var left := Trunc(s.coords.left as real + (p1.clientX - p0.clientX));
      var top := Trunc(s.coords.top as real + (p1.clientY - p0.clientY));
      var maxLeft := vp.innerWidth - HandleWidth(handle);
      var maxTop := vp.innerHeight - HandleHeight(handle);
      && r.coords.left == ClampInt(left, maxLeft) && r.coords.top == ClampInt(top, maxTop)
      && (0 <= left <= maxLeft ==> r.coords.left == left)
      && (0 <= maxLeft <= left ==> r.coords.left == maxLeft)
      && (left <= 0 || maxLeft < 0 ==> r.coords.left == 0)
      && (0 <= top <= maxTop ==> r.coords.top == top)
      && (0 <= maxTop <= top ==> r.coords.top == maxTop)
      && (top <= 0 || maxTop < 0 ==> r.coords.top == 0)
      && r.coords.height == s.coords.height && r.coords.width == s.coords.width
  {
    var o := Down(s, Drag, p0, Some(container)).offset.value;
    assert p1.clientX - o.offsetLeft == s.coords.left as real + (p1.clientX - p0.clientX);
    assert p1.clientY - o.offsetTop == s.coords.top as real + (p1.clientY - p0.clientY);
  }

  /** The hook object: `coords` and `offsetCoords` as fields, the three handlers as methods. */
  class DepHook {
    const settings: Settings
    var coords: Rect
    var offsetCoords: Option<Offset>

    function Current(): State
      reads this
    {
      State(coords, offsetCoords)
    }

    constructor(initialCoords: Option<PartialRect>, settings: Settings)
      ensures Current() == Init(initialCoords) && this.settings == settings
    {
      this.settings := settings;
      coords := InitialRect(initialCoords);
      offsetCoords := None;
    }

    method HandlePointerDown(e: Pointer, container: Option<Element>, kind: Kind)
      modifies this
      ensures Current() == Down(old(Current()), kind, e, container)
    {
      if offsetCoords.Some? && offsetCoords.value.kind == kind {
        return;
      }
      var offsetLeft := e.clientX - (if container.Some? then container.value.offsetLeft else 0) as real;
      var offsetTop := e.clientY - (if container.Some? then container.value.offsetTop else 0) as real;
      offsetCoords := Some(Offset(kind, offsetLeft, offsetTop, coords.height, coords.width));
    }

    method HandlePointerUp()
      modifies this
      ensures Current() == Up(old(Current()))
    {
      offsetCoords := None;
    }

    /** Returns the `style` attribute written, if any. */
    method HandlePointerMove(e: Pointer, handle: Option<Element>, container: Option<Element>, vp: Viewport)
      returns (style: Option<string>)
      modifies this
      ensures Current() == Move(old(Current()), e, handle, vp, settings)
      ensures style == MoveStyle(old(Current()), e, container, settings)
    {
      style := None;
      if offsetCoords.None? {
        return;
      }
      var s := Current();
      var o := offsetCoords.value;
      var isResizing := o.kind == Resize;
      var isDragging := o.kind == Drag;
      var newLeft := Trunc(e.clientX - (if isDragging then o.offsetLeft else 0.0));
      var newTop := Trunc(e.clientY - (if isDragging then o.offsetTop else 0.0));
      var newHeight := if isResizing then o.height + newTop - coords.top else coords.height;
      var newWidth := if isResizing then o.width + newLeft - coords.left else coords.width;
      assert newLeft == NewLeft(o, e) && newTop == NewTop(o, e);
      assert isResizing ==> newHeight == NewHeight(s, o, e) && newWidth == NewWidth(s, o, e);
      if settings.setStyles && container.Some? {
        style := Some(Join(Truthy(StyleParts(s, o, e)), "; "));
      }
      var restrictedLeft := if settings.restrictBounds then ClampInt(newLeft, vp.innerWidth - HandleWidth(handle)) else 0;
      var restrictedTop := if settings.restrictBounds then ClampInt(newTop, vp.innerHeight - HandleHeight(handle)) else 0;
      coords := Rect(
        left := if isDragging then (if settings.restrictBounds then restrictedLeft else newLeft) else coords.left,
        top := if isDragging then (if settings.restrictBounds then restrictedTop else newTop) else coords.top,
        height := if isResizing then newHeight else coords.height,
        width := if isResizing then newWidth else coords.width);
    }
  }
}

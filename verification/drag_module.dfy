/**
 * useDraggable/index.ts: the hook whose session record lives at module
 * level, shared by every window that uses it. A move does not keep
 * coordinates of its own; it writes the container's `style` from the
 * bounding rectangle an IntersectionObserver last reported.
 */
module ModuleDraggable {
  import opened Wrappers
  import opened Numbers
  import opened Text
  import opened CssValue
  import opened Geometry
  import opened BoxSize

  /**
   * The module-level `offsetCoords`: the kind and offsets of the session,
   * the padding-and-border sums, and the border-box size at pointer-down.
   */
  datatype Offset = Offset(kind: Kind, offsetLeft: real, offsetTop: real,
                           boxHeight: int, boxWidth: int, height: int, width: int)

  /** `window.getComputedStyle(container)`, or nothing to read when the container is gone. */
  function StyleOf(container: Option<Element>): ComputedStyle {
    if container.Some? && container.value.computed.Some? then container.value.computed.value else map[]
  }

  /** The mount effect: the initial coordinates written as the style, when `setStyles` is on. */
  function MountStyle(initial: Option<PartialRect>, setStyles: bool, container: Option<Element>): (r: Option<string>)
    ensures r.Some? <==> setStyles && container.Some?
    ensures r.Some? ==> r.value == RectStyle(InitialRect(initial))
  {
    if setStyles && container.Some? then Some(InitialStyle(initial)) else None
  }

  function OffsetLeftOf(container: Option<Element>): int {
    if container.Some? then container.value.offsetLeft else 0
  }

  function OffsetTopOf(container: Option<Element>): int {
    if container.Some? then container.value.offsetTop else 0
  }

  /**
   * The record a pointer-down makes: the padding-and-border sums, the
   * border-box size, and the pointer's offset from the container.
   */
  function Measure(kind: Kind, p: Pointer, container: Option<Element>): (o: Offset)
    ensures o.kind == kind
    ensures o.boxHeight == VerticalEdges(StyleOf(container)) && o.boxWidth == HorizontalEdges(StyleOf(container))
    ensures o.height == (if container.Some? then container.value.offsetHeight else 0) + o.boxHeight
    ensures o.width == (if container.Some? then container.value.offsetWidth else 0) + o.boxWidth
    ensures o.offsetLeft + OffsetLeftOf(container) as real == p.clientX
    ensures o.offsetTop + OffsetTopOf(container) as real == p.clientY
  {
    var style := StyleOf(container);
    var boxHeight := VerticalEdges(style);
    var boxWidth := HorizontalEdges(style);
    Offset(kind, p.clientX - OffsetLeftOf(container) as real, p.clientY - OffsetTopOf(container) as real,
           boxHeight, boxWidth,
           (if container.Some? then container.value.offsetHeight else 0) + boxHeight,
           (if container.Some? then container.value.offsetWidth else 0) + boxWidth)
  }

  /**
   * `handlePointerDown`: ignored while a session of the same kind runs;
   * otherwise a record of this kind, measured on the container, replaces
   * whatever was there.
   */
  function Down(offset: Option<Offset>, kind: Kind, p: Pointer, container: Option<Element>): (r: Option<Offset>)
    ensures r.Some? && r.value.kind == kind
    ensures offset.Some? && offset.value.kind == kind ==> r == offset
    ensures !(offset.Some? && offset.value.kind == kind) ==> r == Some(Measure(kind, p, container))
  {
    if offset.Some? && offset.value.kind == kind then offset
    else Some(Measure(kind, p, container))
  }

  /** The observed bounding rectangle (zeros before the first report), less padding and border. */
  function CurrentRect(o: Offset, observed: Option<Rect>): (r: Rect)
    ensures observed.Some? ==> r == Rect(observed.value.left, observed.value.top,
                                         observed.value.height - o.boxHeight, observed.value.width - o.boxWidth)
    ensures observed.None? ==> r == Rect(0, 0, -o.boxHeight, -o.boxWidth)
  {
    var rect := observed.GetOr(Rect(0, 0, 0, 0));
    Rect(rect.left, rect.top, rect.height - o.boxHeight, rect.width - o.boxWidth)
  }

  function NewLeft(o: Offset, p: Pointer): int {
    Trunc(p.clientX - (if o.kind == Drag then o.offsetLeft else 0.0))
  }

  function NewTop(o: Offset, p: Pointer): int {
    Trunc(p.clientY - (if o.kind == Drag then o.offsetTop else 0.0))
  }

  /** The four coordinates a move writes. */
  function Written(o: Offset, p: Pointer, observed: Option<Rect>): (r: Rect)
    ensures o.kind == Drag ==> r.height == CurrentRect(o, observed).height && r.width == CurrentRect(o, observed).width
    ensures o.kind == Resize ==> r.left == CurrentRect(o, observed).left && r.top == CurrentRect(o, observed).top
  {
    var current := CurrentRect(o, observed);
    var isResizing := o.kind == Resize;
    var isDragging := o.kind == Drag;
    var newLeft := NewLeft(o, p);
    var newTop := NewTop(o, p);
    var newHeight := if isResizing then o.height + newTop - current.top else current.height;
    var newWidth := if isResizing then o.width + newLeft - current.left else current.width;
    Rect(left := if isDragging then newLeft else current.left,
         top := if isDragging then newTop else current.top,
         height := if isResizing then newHeight else current.height,
         width := if isResizing then newWidth else current.width)
  }

  /** `handlePointerMove`: the `style` written, if any; the module state is left as it is. */
  function MoveStyle(offset: Option<Offset>, p: Pointer, container: Option<Element>, observed: Option<Rect>,
                     setStyles: bool): (r: Option<string>)
    ensures r.Some? <==> offset.Some? && container.Some? && setStyles
    ensures r.Some? ==> r.value == RectStyle(Written(offset.value, p, observed))
  {
    if offset.None? || container.None? || !setStyles then None
    else Some(RectStyle(Written(offset.value, p, observed)))
  }

  /**
   * Dragging moves the window by the pointer's displacement since
   * pointer-down, truncated to whole pixels, and keeps the content size
   * the observer reported.
   */
  lemma DragFollowsPointer(offset: Option<Offset>, p0: Pointer, p1: Pointer, container: Element, observed: Rect)
    requires offset.None?
    ensures var o := Down(offset, Drag, p0, Some(container)).value;
      Written(o, p1, Some(observed)) == Rect(
        Trunc(container.offsetLeft as real + (p1.clientX - p0.clientX)),
        Trunc(container.offsetTop as real + (p1.clientY - p0.clientY)),
        observed.height - VerticalEdges(StyleOf(Some(container))),
        observed.width - HorizontalEdges(StyleOf(Some(container))))
  {
    var o := Down(offset, Drag, p0, Some(container)).value;
    assert p1.clientX - o.offsetLeft == container.offsetLeft as real + (p1.clientX - p0.clientX);
    assert p1.clientY - o.offsetTop == container.offsetTop as real + (p1.clientY - p0.clientY);
  }

  /**
   * A resize record has no drag offsets, so the pointer is measured from
   * the viewport's corner: the written height is the border-box height at
   * pointer-down plus the pointer's distance, now, below the observed top,
   * wherever the pointer was pressed; the observed position is kept.
   */
  lemma ResizeMeasuresFromViewport(offset: Option<Offset>, p0: Pointer, p1: Pointer, container: Element, observed: Rect)
    requires offset.None?
    ensures var o := Down(offset, Resize, p0, Some(container)).value;
      && Written(o, p1, Some(observed)).height == container.offsetHeight + VerticalEdges(StyleOf(Some(container))) + Trunc(p1.clientY) - observed.top
      && Written(o, p1, Some(observed)).width == container.offsetWidth + HorizontalEdges(StyleOf(Some(container))) + Trunc(p1.clientX) - observed.left
      && Written(o, p1, Some(observed)).left == observed.left && Written(o, p1, Some(observed)).top == observed.top
  {
  }

  /** The module's state: the shared session record and the last observed rectangle. */
  class DraggableModule {
    var offsetCoords: Option<Offset>
    var draggableRect: Option<Rect>

    constructor()
      ensures offsetCoords.None? && draggableRect.None?
    {
      offsetCoords := None;
      draggableRect := None;
    }

    /** The observer's callback: the first entry's bounding rectangle, if any. */
    method Observed(entry: Option<Rect>)
      modifies this
      ensures draggableRect == entry && offsetCoords == old(offsetCoords)
    {
      draggableRect := entry;
    }

    method HandlePointerDown(e: Pointer, container: Option<Element>, kind: Kind)
      modifies this
      ensures offsetCoords == Down(old(offsetCoords), kind, e, container)
      ensures draggableRect == old(draggableRect)
    {
      if offsetCoords.Some? && offsetCoords.value.kind == kind {
        return;
      }
      offsetCoords := Some(Measure(kind, e, container));
    }

    method HandlePointerUp()
      modifies this
      ensures offsetCoords.None? && draggableRect == old(draggableRect)
    {
      offsetCoords := None;
    }

    /** Returns the `style` attribute written, if any; changes nothing. */
    method HandlePointerMove(e: Pointer, container: Option<Element>, setStyles: bool) returns (style: Option<string>)
      ensures style == MoveStyle(offsetCoords, e, container, draggableRect, setStyles)
    {
      style := None;
      if offsetCoords.None? || container.None? {
        return;
      }
      var o := offsetCoords.value;
      var rect := if draggableRect.Some? then draggableRect.value else Rect(0, 0, 0, 0);
      var current := Rect(rect.left, rect.top, rect.height - o.boxHeight, rect.width - o.boxWidth);
      var isResizing := o.kind == Resize;
      var isDragging := o.kind == Drag;
      var newLeft := Trunc(e.clientX - (if isDragging then o.offsetLeft else 0.0));
      var newTop := Trunc(e.clientY - (if isDragging then o.offsetTop else 0.0));
      var newHeight := if isResizing then o.height + newTop - current.top else current.height;
      var newWidth := if isResizing then o.width + newLeft - current.left else current.width;
      assert current == CurrentRect(o, draggableRect);
      assert newLeft == NewLeft(o, e) && newTop == NewTop(o, e);
      if setStyles {
        style := Some(RectStyle(Rect(
          left := if isDragging then newLeft else current.left,
          top := if isDragging then newTop else current.top,
          height := if isResizing then newHeight else current.height,
          width := if isResizing then newWidth else current.width)));
      }
    }
  }
}

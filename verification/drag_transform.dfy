/**
 * useDraggableTransform/index.ts: the hook that shows a drag as a CSS
 * `transform` while the pointer moves and writes the final `left`/`top`
 * when it is released. The rectangle at pointer-down (`startCoords`) and
 * the session offsets (`offsetCoords`) are two refs, set together and
 * cleared together.
 */
module TransformDraggable {
  import opened Wrappers
  import opened Numbers
  import opened Text
  import opened CssValue
  import opened Geometry
  import opened BoxSize
  import opened InlineStyle

  /** `offsetCoords.current`: the pointer's offset from the start rectangle, as a drag pair or a resize pair. */
  datatype Offset = Offset(kind: Kind, offsetLeft: real, offsetTop: real)

  datatype State = State(startCoords: Option<Rect>, offset: Option<Offset>)

  datatype Settings = Settings(initialCoords: Option<PartialRect>, setStyles: bool)

  ghost predicate Consistent(s: State) {
    s.startCoords.Some? <==> s.offset.Some?
  }

  function Idle(): (s: State)
    ensures Consistent(s) && s.offset.None?
  {
    State(None, None)
  }

  /** `window.getComputedStyle(container)`, or nothing to read when the container is gone. */
  function StyleOf(container: Option<Element>): ComputedStyle {
    if container.Some? && container.value.computed.Some? then container.value.computed.value else map[]
  }

  /**
   * `parseFloat(currentStyle?.f?.replace(/px^/, "") ?? "")`: the pattern
   * asks for "px" before the start of the text, which never matches, so the
   * text is read as it is.
   */
  function StyleNumber(container: Option<Element>, property: string): Parsed {
    ParseFloat(GetPropertyValue(StyleOf(container), property))
  }

  /**
   * `startCoords` at pointer-down. Because `??` binds more loosely than
   * `+`, the size fallbacks are the bare `offsetHeight`/`offsetWidth`
   * whenever the container exists; the padding-and-border sums only enter
   * when it does not.
   */
  function StartRect(container: Option<Element>): (r: Rect)
    ensures container.None? ==> r == Rect(0, 0, 0, 0)
  {
    var style := StyleOf(container);
    var boxHeight := VerticalEdges(style);
    var boxWidth := HorizontalEdges(style);
    Rect(
      left := StartField(container, "left", if container.Some? then container.value.offsetLeft else 0),
      top := StartField(container, "top", if container.Some? then container.value.offsetTop else 0),
      height := StartField(container, "height", if container.Some? then container.value.offsetHeight else 0 + boxHeight),
      width := StartField(container, "width", if container.Some? then container.value.offsetWidth else 0 + boxWidth))
  }

  /** One start field: the computed value when it reads as a non-zero number, else the fallback. */
  function StartField(container: Option<Element>, property: string, fallback: int): (r: int)
    ensures var v := StyleNumber(container, property);
      && (v.Number? && v.value != 0 ==> r == v.value)
      && (v.NaN? || v.value == 0 ==> r == fallback)
  {
    OrElse(StyleNumber(container, property), fallback)
  }

  function Running(s: State, kind: Kind): bool {
    s.offset.Some? && s.offset.value.kind == kind
  }

  /** `handlePointerDown`: ignored while a session of the same kind runs; otherwise both refs are set afresh. */
  function Down(s: State, kind: Kind, p: Pointer, container: Option<Element>): (r: State)
    requires Consistent(s)
    ensures Consistent(r) && Running(r, kind)
    ensures Running(s, kind) ==> r == s
    ensures !Running(s, kind) ==> r.startCoords == Some(StartRect(container))
    ensures !Running(s, kind) ==>
      && r.offset.value.offsetLeft + r.startCoords.value.left as real == p.clientX
      && r.offset.value.offsetTop + r.startCoords.value.top as real == p.clientY
  {
    if Running(s, kind) then s
    else
      var start := StartRect(container);
      State(Some(start), Some(Grab(kind, p, start)))
  }

  /** The offsets of the pointer from the start corner. */
  function Grab(kind: Kind, p: Pointer, start: Rect): (o: Offset)
    ensures o.kind == kind
    ensures o.offsetLeft + start.left as real == p.clientX && o.offsetTop + start.top as real == p.clientY
  {
    Offset(kind, p.clientX - start.left as real, p.clientY - start.top as real)
  }

  function Start(s: State): Rect {
    s.startCoords.GetOr(Rect(0, 0, 0, 0))
  }

  /** Where a move puts the window and how large it makes it, before rounding. */
  function MoveGeometry(s: State, p: Pointer): (r: RealRect)
    requires s.offset.Some?
    ensures s.offset.value.kind == Drag ==> r.height == Start(s).height as real && r.width == Start(s).width as real
    ensures s.offset.value.kind == Resize ==> r.left == Start(s).left as real && r.top == Start(s).top as real
  {
    var o := s.offset.value;
    var start := Start(s);
    var isDragging := o.kind == Drag;
    var isResizing := o.kind == Resize;
    RealRect(
      left := if isDragging then p.clientX - o.offsetLeft else start.left as real,
      top := if isDragging then p.clientY - o.offsetTop else start.top as real,
      height := if isResizing then start.top as real - start.height as real + p.clientY + o.offsetTop else start.height as real,
      width := if isResizing then start.left as real - start.width as real + p.clientX + o.offsetLeft else start.width as real)
  }

  /** `${v.toFixed(0)}px`. */
  function Fixed0Px(v: real): string {
    ToFixed(v, 0) + "px"
  }

  /** `translateX(${x.toFixed(0)}px) translateY(${y.toFixed(0)}px)`. */
  function Translation(g: RealRect): string {
    "translateX(" + Fixed0Px(g.left) + ") translateY(" + Fixed0Px(g.top) + ")"
  }

  /** The three declarations of a move: the translation, then height and width. */
  function MoveParts(g: RealRect): seq<string> {
    [ "transform: " + Translation(g),
      "height: " + Fixed0Px(g.height),
      "width: " + Fixed0Px(g.width) ]
  }

  /** `handlePointerMove`: the `style` written, if any; the refs are left as they are. */
  function MoveStyle(s: State, p: Pointer, container: Option<Element>, settings: Settings): (r: Option<string>)
    ensures r.Some? <==> s.offset.Some? && container.Some? && settings.setStyles
  {
    if s.offset.None? || container.None? || !settings.setStyles then None
    else
      var parts := MoveParts(MoveGeometry(s, p));
      Some(Join(Truthy([Some(parts[0]), Some(parts[1]), Some(parts[2])]), "; "))
  }

  /** `e.clientX - (dragOffsetLeft ?? 0)` and its vertical counterpart: only a drag pair is subtracted. */
  function ReleaseLeft(s: State, p: Pointer): real {
    p.clientX - (if Running(s, Drag) then s.offset.value.offsetLeft else 0.0)
  }

  function ReleaseTop(s: State, p: Pointer): real {
    p.clientY - (if Running(s, Drag) then s.offset.value.offsetTop else 0.0)
  }

  /** The four declarations written at pointer-up: height, width, left, top. */
  function UpParts(s: State, p: Pointer, container: Element): seq<string> {
    var style := StyleOf(Some(container));
    [ "height: " + GetPropertyValue(style, "height"),
      "width: " + GetPropertyValue(style, "width"),
      "left: " + Fixed0Px(ReleaseLeft(s, p)),
      "top: " + Fixed0Px(ReleaseTop(s, p)) ]
  }

  /** `handlePointerUp`: the style written, if any (even with no session running). */
  function UpStyle(s: State, p: Pointer, container: Option<Element>, settings: Settings): (r: Option<string>)
    ensures r.Some? <==> container.Some? && settings.setStyles
  {
    if container.None? || !settings.setStyles then None
    else
      var parts := UpParts(s, p, container.value);
      Some(Join(Truthy([Some(parts[0]), Some(parts[1]), Some(parts[2]), Some(parts[3])]), "; "))
  }

  /** `handlePointerUp`: both refs cleared. */
  function Up(s: State): (r: State)
    ensures Consistent(r) && r.offset.None?
  {
    Idle()
  }

  /** After pointer-up, moves write nothing until the next pointer-down. */
  lemma UpStopsMoves(s: State, p: Pointer, container: Option<Element>, settings: Settings)
    ensures MoveStyle(Up(s), p, container, settings).None?
  {
  }

  /** A move's style is `buildInlineStyle` of its three properties. */
  lemma MoveStyleIsInlineStyle(s: State, p: Pointer, container: Option<Element>, settings: Settings)
    requires s.offset.Some? && container.Some? && settings.setStyles
    ensures var g := MoveGeometry(s, p);
      MoveStyle(s, p, container, settings) == Some(BuildInlineStyle(FromPairs([
        ("transform", Some(Translation(g))), ("height", Some(Fixed0Px(g.height))), ("width", Some(Fixed0Px(g.width)))])))
  {
    var g := MoveGeometry(s, p);
    var parts := MoveParts(g);
    var entries := [
      ("transform", Some(Translation(g))), ("height", Some(Fixed0Px(g.height))), ("width", Some(Fixed0Px(g.width)))];
    var decls := Declarations(entries);
    assert "transform" + ": " == "transform: ";
    assert "height" + ": " == "height: " && "width" + ": " == "width: ";
    assert decls == [Some(parts[0]), Some(parts[1]), Some(parts[2])];
    TruthyPresent(decls);
    assert Truthy(decls) == parts;
    TruthyMatchesInlineStyle(entries);
  }

  /**
   * The release writes the computed height and width as they stand, then
   * the pointer less the drag offset, rounded, as left and top: the style
   * `buildInlineStyle` makes of those four entries.
   */
  lemma UpStyleIsInlineStyle(s: State, p: Pointer, container: Element, settings: Settings)
    requires settings.setStyles
    ensures var style := StyleOf(Some(container));
      UpStyle(s, p, Some(container), settings) == Some(BuildInlineStyle(FromPairs([
        ("height", Some(GetPropertyValue(style, "height"))), ("width", Some(GetPropertyValue(style, "width"))),
        ("left", Some(Fixed0Px(ReleaseLeft(s, p)))), ("top", Some(Fixed0Px(ReleaseTop(s, p))))])))
  {
    var style := StyleOf(Some(container));
    var parts := UpParts(s, p, container);
    var entries := [
      ("height", Some(GetPropertyValue(style, "height"))), ("width", Some(GetPropertyValue(style, "width"))),
      ("left", Some(Fixed0Px(ReleaseLeft(s, p)))), ("top", Some(Fixed0Px(ReleaseTop(s, p))))];
    var decls := Declarations(entries);
    assert "height" + ": " == "height: " && "width" + ": " == "width: ";
    assert "left" + ": " == "left: " && "top" + ": " == "top: ";
    assert decls == [Some(parts[0]), Some(parts[1]), Some(parts[2]), Some(parts[3])];
    TruthyPresent(decls);
    assert Truthy(decls) == parts;
    TruthyMatchesInlineStyle(entries);
  }

  /**
   * Outside a drag no offset is subtracted: releasing a resize writes the
   * pointer's own position as the window's left and top.
   */
  lemma ResizeReleasesAtPointer(s: State, p: Pointer)
    requires Running(s, Resize)
    ensures ReleaseLeft(s, p) == p.clientX && ReleaseTop(s, p) == p.clientY
  {
  }

  /** The start rectangle and `computeBoxSize` agree on the position. */
  lemma StartPositionMatchesBoxSize(container: Element)
    requires container.computed.Some?
    ensures var start := StartRect(Some(container));
      var box := ComputeBoxSize(Some(container)).value;
      start.left == box.left && start.top == box.top
  {
    StartFields(container);
    BoxSizeFields(container);
    FieldAgrees(container, "left", container.offsetLeft, container.offsetLeft);
    FieldAgrees(container, "top", container.offsetTop, container.offsetTop);
  }

  /** A start field and the matching `computeBoxSize` field agree unless they fall back to different values. */
  lemma FieldAgrees(container: Element, property: string, fallback: int, boxFallback: int)
    requires container.computed.Some?
    ensures var v := StyleNumber(Some(container), property);
      (v.Number? && v.value != 0) || fallback == boxFallback ==>
        StartField(Some(container), property, fallback) == Field(container.computed.value, property, boxFallback)
  {
    assert StyleOf(Some(container)) == container.computed.value;
    PropertyReadsRawValue(container.computed.value, property);
  }

  /** The start rectangle's fields, each a computed value with its fallback. */
  lemma StartFields(container: Element)
    requires container.computed.Some?
    ensures var start := StartRect(Some(container));
      && start.left == StartField(Some(container), "left", container.offsetLeft)
      && start.top == StartField(Some(container), "top", container.offsetTop)
      && start.height == StartField(Some(container), "height", container.offsetHeight)
      && start.width == StartField(Some(container), "width", container.offsetWidth)
  {
  }

  /**
   * When the computed height does not read as a non-zero number, the start
   * height leaves out padding and border where `computeBoxSize` adds them.
   */
  lemma StartHeightOmitsEdges(container: Element)
    requires container.computed.Some?
    requires StyleNumber(Some(container), "height").NaN?
    ensures ComputeBoxSize(Some(container)).value.height - StartRect(Some(container)).height
      == VerticalEdges(container.computed.value)
  {
    StartFields(container);
    BoxSizeFields(container);
    var style := container.computed.value;
    assert StyleOf(Some(container)) == style;
    PropertyReadsRawValue(style, "height");
  }

  /**
   * Dragging translates the window by the pointer's displacement since
   * pointer-down and keeps the start size.
   */
  lemma DragFollowsPointer(s: State, p0: Pointer, p1: Pointer, container: Option<Element>)
    requires Consistent(s) && !Running(s, Drag)
    ensures var d := Down(s, Drag, p0, container);
      var start := StartRect(container);
      MoveGeometry(d, p1) == RealRect(start.left as real + (p1.clientX - p0.clientX), start.top as real + (p1.clientY - p0.clientY),
                                      start.height as real, start.width as real)
  {
  }

  /**
   * The resize formula counts the pointer twice and the start size
   * negatively: the width is the pointer's x at pointer-down plus its x now
   * less the start width, so a resize that has not moved yet (p1 == p0)
   * already sets the width to twice the pointer's x less the start width.
   * The same holds for the height.
   */
  lemma ResizeCountsPointerTwice(s: State, p0: Pointer, p1: Pointer, container: Option<Element>)
    requires Consistent(s) && !Running(s, Resize)
    ensures var d := Down(s, Resize, p0, container);
      var start := StartRect(container);
      && MoveGeometry(d, p1).width == p0.clientX + p1.clientX - start.width as real
      && MoveGeometry(d, p1).height == p0.clientY + p1.clientY - start.height as real
      && MoveGeometry(d, p1).left == start.left as real && MoveGeometry(d, p1).top == start.top as real
  {
  }

  /**
   * Releasing a drag writes as `left`/`top` exactly the numbers the last
   * move at the same pointer position showed as its translation, and
   * `parseFloat` reads them back as the rounded position.
   */
  lemma ReleaseMatchesLastMove(s: State, p: Pointer)
    requires Running(s, Drag)
    ensures ReleaseLeft(s, p) == MoveGeometry(s, p).left && ReleaseTop(s, p) == MoveGeometry(s, p).top
    ensures ParseFloat(ToFixed(ReleaseLeft(s, p), 0)).Number?
    ensures IsRoundedHalfAway(ReleaseLeft(s, p), ParseFloat(ToFixed(ReleaseLeft(s, p), 0)).value)
  {
    ToFixedZeroParsesBack(ReleaseLeft(s, p));
  }

  /** The hook object: the two refs as fields, the three handlers as methods. */
  class TransformHook {
    const settings: Settings
    var startCoords: Option<Rect>
    var offsetCoords: Option<Offset>

    function Current(): State
      reads this
    {
      State(startCoords, offsetCoords)
    }

    ghost predicate Valid()
      reads this
    {
      Consistent(Current())
    }

    constructor(settings: Settings)
      ensures Valid() && Current() == Idle() && this.settings == settings
    {
      this.settings := settings;
      startCoords := None;
      offsetCoords := None;
    }

    /** The mount effect: the initial coordinates, when `setStyles` is on and the container is mounted. */
    method MountEffect(container: Option<Element>) returns (style: Option<string>)
      ensures style.Some? <==> settings.setStyles && container.Some?
      ensures style.Some? ==> style.value == RectStyle(InitialRect(settings.initialCoords))
    {
      style := None;
      if settings.setStyles && container.Some? {
        style := Some(InitialStyle(settings.initialCoords));
      }
    }

    method HandlePointerDown(e: Pointer, container: Option<Element>, kind: Kind)
      requires Valid()
      modifies this
      ensures Valid()
      ensures Current() == Down(old(Current()), kind, e, container)
    {
      if offsetCoords.Some? && offsetCoords.value.kind == kind {
        return;
      }
      var start := StartRect(container);
      startCoords := Some(start);
      offsetCoords := Some(Grab(kind, e, start));
    }

    /** Returns the `style` attribute written, if any. */
    method HandlePointerUp(e: Pointer, container: Option<Element>) returns (style: Option<string>)
      modifies this
      ensures Valid() && Current() == Up(old(Current()))
      ensures style == UpStyle(old(Current()), e, container, settings)
    {
      style := None;
      if settings.setStyles && container.Some? {
        var parts := UpParts(Current(), e, container.value);
        style := Some(Join(Truthy([Some(parts[0]), Some(parts[1]), Some(parts[2]), Some(parts[3])]), "; "));
      }
      offsetCoords := None;
      startCoords := None;
    }

    /** Returns the `style` attribute written, if any; changes nothing. */
    method HandlePointerMove(e: Pointer, container: Option<Element>) returns (style: Option<string>)
      ensures style == MoveStyle(Current(), e, container, settings)
    {
      style := None;
      if offsetCoords.None? || container.None? {
        return;
      }
      var o := offsetCoords.value;
      var start := if startCoords.Some? then startCoords.value else Rect(0, 0, 0, 0);
      var isResizing := o.kind == Resize;
      var isDragging := o.kind == Drag;
      var newLeft := if isDragging then e.clientX - o.offsetLeft else start.left as real;
      var newTop := if isDragging then e.clientY - o.offsetTop else start.top as real;
      var newWidth := if isResizing then start.left as real - start.width as real + e.clientX + o.offsetLeft else start.width as real;
      var newHeight := if isResizing then start.top as real - start.height as real + e.clientY + o.offsetTop else start.height as real;
      var g := RealRect(newLeft, newTop, newHeight, newWidth);
      assert g == MoveGeometry(Current(), e);
      if settings.setStyles {
        var parts := MoveParts(g);
        style := Some(Join(Truthy([Some(parts[0]), Some(parts[1]), Some(parts[2])]), "; "));
      }
    }
  }
}

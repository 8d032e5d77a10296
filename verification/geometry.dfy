/**
 * Shared vocabulary of the drag/resize hooks: the `ICoords` rectangle, the
 * element metrics the hooks read from the DOM, the drag/resize handle kind,
 * the initial-coordinates defaults and the viewport clamp.
 */
module Geometry {
  import opened Wrappers
  import opened Numbers
  import opened Text
  import opened CssValue
  import opened InlineStyle

  /** `EUseDraggableContainerType`: which handle a pointer event came from. */
  datatype Kind = Drag | Resize

  /** `ICoords` in whole pixels. */
  datatype Rect = Rect(left: int, top: int, height: int, width: int)

  /** `ICoords` while it follows fractional pointer positions. */
  datatype RealRect = RealRect(left: real, top: real, height: real, width: real)

  /** `Partial<ICoords>`: each field may be missing. */
  datatype PartialRect = PartialRect(left: Option<int>, top: Option<int>, height: Option<int>, width: Option<int>)

  /**
   * What the hooks read from an element: its layout box (`offsetLeft`,
   * `offsetTop`, `offsetWidth`, `offsetHeight`) and, when the browser gives
   * one, its computed style.
   */
  datatype Element = Element(offsetLeft: int, offsetTop: int, offsetWidth: int, offsetHeight: int,
                             computed: Option<ComputedStyle>)

  /** `window.innerWidth` and `window.innerHeight`. */
  datatype Viewport = Viewport(innerWidth: int, innerHeight: int)

  /** A pointer event's `clientX` and `clientY`. */
  datatype Pointer = Pointer(clientX: real, clientY: real)

  const DefaultLeft: int := 100
  const DefaultTop: int := 100
  const DefaultHeight: int := 240
  const DefaultWidth: int := 320

  /** `initialCoords?.f ?? default` for each field. */
  function InitialRect(initial: Option<PartialRect>): (r: Rect)
    ensures initial.None? ==> r == Rect(DefaultLeft, DefaultTop, DefaultHeight, DefaultWidth)
    ensures initial.Some? ==>
      && r.left == (if initial.value.left.Some? then initial.value.left.value else DefaultLeft)
      && r.top == (if initial.value.top.Some? then initial.value.top.value else DefaultTop)
      && r.height == (if initial.value.height.Some? then initial.value.height.value else DefaultHeight)
      && r.width == (if initial.value.width.Some? then initial.value.width.value else DefaultWidth)
  {
    match initial
    case None => Rect(DefaultLeft, DefaultTop, DefaultHeight, DefaultWidth)
    case Some(p) =>
      Rect(p.left.GetOr(DefaultLeft), p.top.GetOr(DefaultTop), p.height.GetOr(DefaultHeight), p.width.GetOr(DefaultWidth))
  }

  function ToReal(r: Rect): RealRect {
    RealRect(r.left as real, r.top as real, r.height as real, r.width as real)
  }

  /** `${n}px`. */
  function Px(n: int): string {
    FormatInt(n) + "px"
  }

  /** The four coordinates as `style` declarations, in the order height, left, top, width. */
  function RectStyle(r: Rect): string {
    Join(["height: " + Px(r.height), "left: " + Px(r.left), "top: " + Px(r.top), "width: " + Px(r.width)], "; ")
  }

  /** The four coordinates as (property, `${n}px`) pairs. */
  function RectEntries(r: Rect): seq<Entry> {
    [("height", Some(Px(r.height))), ("left", Some(Px(r.left))), ("top", Some(Px(r.top))), ("width", Some(Px(r.width)))]
  }

  /** The hand-joined declarations are `buildInlineStyle` of the four pairs. */
  lemma RectStyleIsInlineStyle(r: Rect)
    ensures RectStyle(r) == BuildInlineStyle(FromPairs(RectEntries(r)))
  {
    var entries := RectEntries(r);
    var parts := ["height: " + Px(r.height), "left: " + Px(r.left), "top: " + Px(r.top), "width: " + Px(r.width)];
    var decls := Declarations(entries);
    assert "height" + ": " == "height: " && "left" + ": " == "left: ";
    assert "top" + ": " == "top: " && "width" + ": " == "width: ";
    assert forall i :: 0 <= i < 4 ==> decls[i] == Some(parts[i]);
    TruthyPresent(decls);
    assert Truthy(decls) == parts;
    TruthyMatchesInlineStyle(entries);
  }

  /**
   * The style the later hooks write when they mount with `setStyles`: the
   * four initial coordinates.
   */
  function InitialStyle(initial: Option<PartialRect>): string {
    RectStyle(InitialRect(initial))
  }

  /** The initial style with no initial coordinates given. */
  lemma InitialStyleDefaults()
    ensures InitialStyle(None) == "height: 240px; left: 100px; top: 100px; width: 320px"
  {
    DefaultsRendered();
    var parts := ["height: " + Px(240), "left: " + Px(100), "top: " + Px(100), "width: " + Px(320)];
    assert InitialStyle(None) == Join(parts, "; ");
    assert parts[0] == "height: 240px";
    assert parts[1] == "left: 100px";
    assert parts[2] == "top: 100px";
    assert parts[3] == "width: 320px";
    assert parts == ["height: 240px", "left: 100px", "top: 100px", "width: 320px"];
    Join4("height: 240px", "left: 100px", "top: 100px", "width: 320px", "; ");
    DefaultsJoined();
  }

  lemma DefaultsJoined()
    ensures "height: 240px" + "; " + "left: 100px" + "; " + "top: 100px" + "; " + "width: 320px"
      == "height: 240px; left: 100px; top: 100px; width: 320px"
  {
  }

  lemma DefaultsRendered()
    ensures Px(240) == "240px" && Px(100) == "100px" && Px(320) == "320px"
  {
    assert NatToString(24) == "24" by { assert NatToString(2) == "2"; }
    assert NatToString(10) == "10" by { assert NatToString(1) == "1"; }
    assert NatToString(32) == "32" by { assert NatToString(3) == "3"; }
  }

  /** `Math.max(Math.min(v, limit), 0)`: the drag clamp against the viewport. */
  function Clamp(v: real, limit: real): (r: real)
    ensures 0.0 <= r
    ensures limit >= 0.0 ==> r <= limit
    ensures limit < 0.0 ==> r == 0.0
    ensures 0.0 <= v <= limit ==> r == v
    ensures limit >= 0.0 && v >= limit ==> r == limit
    ensures v <= 0.0 ==> r == 0.0
  {
    var m := if v < limit then v else limit;
    if m > 0.0 then m else 0.0
  }

  /** The clamp on whole pixels agrees with the clamp on reals. */
  function ClampInt(v: int, limit: int): (r: int)
    ensures r as real == Clamp(v as real, limit as real)
    ensures 0 <= v <= limit ==> r == v
    ensures 0 <= limit <= v ==> r == limit
    ensures v <= 0 || limit < 0 ==> r == 0
  {
    var m := if v < limit then v else limit;
    if m > 0 then m else 0
  }
}

/**
 * computeBoxSize.ts: the rectangle of an element, each field taken from its
 * computed style when that reads as a non-zero number, and otherwise from
 * its layout box.
 */
module BoxSize {
  import opened Wrappers
  import opened Numbers
  import opened CssValue
  import opened Geometry

  /** `value || fallback` on a number read by `parseFloat`: 0 and NaN are both falsy. */
  function OrElse(p: Parsed, fallback: int): (r: int)
    ensures p.Number? && p.value != 0 ==> r == p.value
    ensures p.NaN? || p.value == 0 ==> r == fallback
  {
    if p.Number? && p.value != 0 then p.value else fallback
  }

  /** A padding or border width as it enters a sum (a value that does not parse counts as 0). */
  function EdgeWidth(style: ComputedStyle, property: string): int {
    match PropertyWithDangerouslyRemovedCssUnit(style, property)
    case Number(v) => v
    case NaN => 0
  }

  /** Top and bottom padding plus top and bottom border. */
  function VerticalEdges(style: ComputedStyle): int {
    EdgeWidth(style, "padding-top") + EdgeWidth(style, "padding-bottom")
      + EdgeWidth(style, "border-top-width") + EdgeWidth(style, "border-bottom-width")
  }

  /** Left and right padding plus left and right border. */
  function HorizontalEdges(style: ComputedStyle): int {
    EdgeWidth(style, "padding-left") + EdgeWidth(style, "padding-right")
      + EdgeWidth(style, "border-left-width") + EdgeWidth(style, "border-right-width")
  }

  /** One field: the computed value when it reads as a non-zero number, else the fallback. */
  function Field(style: ComputedStyle, property: string, fallback: int): (r: int)
    ensures var v := PropertyWithDangerouslyRemovedCssUnit(style, property);
      && (v.Number? && v.value != 0 ==> r == v.value)
      && (v.NaN? || v.value == 0 ==> r == fallback)
  {
    OrElse(PropertyWithDangerouslyRemovedCssUnit(style, property), fallback)
  }

  function ComputeBoxSize(container: Option<Element>): (r: Option<Rect>)
    ensures container.None? ==> r.None?
    ensures container.Some? && container.value.computed.None? ==> r.None?
    ensures container.Some? && container.value.computed.Some? ==> r.Some?
  {
    match container
    case None => None
    case Some(e) =>
      match e.computed
      case None => None
      case Some(style) =>
        Some(Rect(
          left := Field(style, "left", e.offsetLeft),
          top := Field(style, "top", e.offsetTop),
          height := Field(style, "height", e.offsetHeight + VerticalEdges(style)),
          width := Field(style, "width", e.offsetWidth + HorizontalEdges(style))))
  }

  /** The rectangle's fields, each the number read from the computed style with its fallback. */
  lemma BoxSizeFields(e: Element)
    requires e.computed.Some?
    ensures var box := ComputeBoxSize(Some(e)).value;
      var style := e.computed.value;
      && box.left == Field(style, "left", e.offsetLeft)
      && box.top == Field(style, "top", e.offsetTop)
      && box.height == Field(style, "height", e.offsetHeight + VerticalEdges(style))
      && box.width == Field(style, "width", e.offsetWidth + HorizontalEdges(style))
  {
  }

  /** Non-zero pixel values in the computed style are taken as they are. */
  lemma ComputedPixelsAreUsed(e: Element, style: ComputedStyle, left: int, top: int, height: int, width: int)
    requires e.computed == Some(style)
    requires "left" in style && style["left"] == Px(left) && left != 0
    requires "top" in style && style["top"] == Px(top) && top != 0
    requires "height" in style && style["height"] == Px(height) && height != 0
    requires "width" in style && style["width"] == Px(width) && width != 0
    ensures ComputeBoxSize(Some(e)) == Some(Rect(left, top, height, width))
  {
    PixelValueRoundTrip(style, "left", left);
    PixelValueRoundTrip(style, "top", top);
    PixelValueRoundTrip(style, "height", height);
    PixelValueRoundTrip(style, "width", width);
  }

  /**
   * Values that do not read as a number ("auto", or missing) fall back to the
   * layout box: offset size plus padding and border, offset position.
   */
  lemma UnreadableValuesFallBack(e: Element, style: ComputedStyle)
    requires e.computed == Some(style)
    requires forall p :: p in ["left", "top", "height", "width"] ==> PropertyWithDangerouslyRemovedCssUnit(style, p).NaN?
    ensures ComputeBoxSize(Some(e)) == Some(Rect(e.offsetLeft, e.offsetTop,
                                                 e.offsetHeight + VerticalEdges(style),
                                                 e.offsetWidth + HorizontalEdges(style)))
  {
    BoxSizeFields(e);
    assert "left" in ["left", "top", "height", "width"];
    assert "top" in ["left", "top", "height", "width"];
    assert "height" in ["left", "top", "height", "width"];
    assert "width" in ["left", "top", "height", "width"];
  }

  /** A genuine computed left of 0px is indistinguishable from a missing one: offsetLeft is used. */
  lemma ZeroLeftIsReplaced(e: Element, style: ComputedStyle)
    requires e.computed == Some(style)
    requires "left" in style && style["left"] == "0px"
    ensures ComputeBoxSize(Some(e)).value.left == e.offsetLeft
  {
    assert Px(0) == "0px";
    PixelValueRoundTrip(style, "left", 0);
  }
}

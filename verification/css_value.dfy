/**
 * Reading one numeric value out of a computed style: the file
 * propertyWithDangerouslyRemovedCssUnit.ts and the identical local helper
 * in computeBoxSize.ts.
 */
module CssValue {
  import opened Numbers
  import opened Text

  /** A computed style declaration: property name (hyphenated) to its text. */
  type ComputedStyle = map<string, string>

  /** `style.getPropertyValue(property)`: the empty string for a property that is not set. */
  function GetPropertyValue(style: ComputedStyle, property: string): (v: string)
    ensures property !in style ==> v == ""
  {
    if property in style then style[property] else ""
  }

  /** `value.replace(/px$/, "")`: drops one "px" at the very end, and nothing else. */
  function StripPx(value: string): (r: string)
    ensures EndsWith(value, "px") ==> r + "px" == value
    ensures !EndsWith(value, "px") ==> r == value
  {
    if EndsWith(value, "px") then value[..|value| - 2] else value
  }

  /**
   * The value of `property` with a trailing "px" removed, read by
   * `parseFloat`: an empty value, as a property the style does not hold
   * gives, reads as NaN.
   */
  function PropertyWithDangerouslyRemovedCssUnit(style: ComputedStyle, property: string): (r: Parsed)
    ensures |GetPropertyValue(style, property)| == 0 ==> r.NaN?
  {
    ParseFloat(StripPx(GetPropertyValue(style, property)))
  }

  /** The number read is the one `parseFloat` reads from the raw value: removing "px" never changes it. */
  lemma PropertyReadsRawValue(style: ComputedStyle, property: string)
    ensures PropertyWithDangerouslyRemovedCssUnit(style, property) == ParseFloat(GetPropertyValue(style, property))
  {
    StripPxKeepsNumber(GetPropertyValue(style, property));
  }

  /** Only the final "px" goes: a "px" written before it stays in place. */
  lemma StripPxOnlyLast(s: string)
    ensures StripPx(s + "px") == s
  {
    assert EndsWith(s + "px", "px") by {
      assert (s + "px")[|s + "px"| - 2..] == "px";
    }
    assert (s + "px")[..|s|] == s;
  }

  /**
   * Stripping the unit never changes the number read: `parseFloat` already
   * stops at the first character that cannot continue a number.
   */
  lemma StripPxKeepsNumber(s: string)
    ensures ParseFloat(StripPx(s)) == ParseFloat(s)
  {
    if EndsWith(s, "px") {
      var t := StripPx(s);
      assert t + "px" == s;
      ParseIgnoresUnitSuffix(t, "px");
    }
  }

  /** A pixel value written as `${n}px` is read back as `n`. */
  lemma PixelValueRoundTrip(style: ComputedStyle, property: string, n: int)
    requires property in style && style[property] == FormatInt(n) + "px"
    ensures PropertyWithDangerouslyRemovedCssUnit(style, property) == Number(n)
  {
    PropertyReadsRawValue(style, property);
    ParseFormatInt(n, "px");
  }
}

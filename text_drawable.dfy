/**
 * The frozen drawable that `TextDrawable.Builder` produces: the private
 * constructor, the darker border shade, the intrinsic size getters, and
 * `draw`, which here returns a description of what it would paint instead
 * of calling a canvas.
 */
module TextDrawables {
  import opened Wrappers
  import opened JavaInt
  import opened AndroidColor
  import opened JavaString
  import opened TypefaceHelper

  /** The background shape: `RectShape`, `OvalShape`, or `RoundRectShape` with all eight radii equal. */
  datatype Shape = RectShape | OvalShape | RoundRectShape(cornerRadius: Int32)

  /** The fields of a `Builder`, as the constructor reads them. */
  datatype Config = Config(
    text: string,
    color: ColorInt,
    borderThickness: Int32,
    width: Int32,
    height: Int32,
    font: Option<Typeface>,
    shape: Shape,
    textColor: ColorInt,
    fontSize: Int32,
    isBold: bool,
    toUpperCase: bool,
    radius: Int32)

  /** The fill shape's corner radius and the radius the border uses agree. */
  predicate Consistent(c: Config)
  {
    c.shape.RoundRectShape? ==> c.shape.cornerRadius == c.radius
  }

  /** A built `TextDrawable`: its final fields and the colours of its three paints. */
  datatype TextDrawable = TextDrawable(
    text: string,
    shape: Shape,
    height: Int32,
    width: Int32,
    fontSize: Int32,
    radius: Int32,
    borderThickness: Int32,
    fillColor: ColorInt,
    textColor: ColorInt,
    borderColor: ColorInt,
    font: Option<Typeface>,
    isBold: bool)

  /** `(int) (SHADE_FACTOR * c)` with `SHADE_FACTOR = 0.9f`: nine tenths of the channel, truncated. */
  function Shade(c: Channel): (s: Channel)
    ensures 10 * s <= 9 * c < 10 * s + 10
    ensures s <= c && (c > 0 ==> s < c)
  {
    9 * c / 10
  }

  /** `getDarkerShade(color)`: the border colour, opaque, each channel nine tenths of the fill's. */
  function DarkerShade(color: ColorInt): (d: ColorInt)
    ensures Alpha(d) == 255
    ensures Red(d) == Shade(Red(color)) && Green(d) == Shade(Green(color)) && Blue(d) == Shade(Blue(color))
    ensures Red(d) <= Red(color) && Green(d) <= Green(color) && Blue(d) <= Blue(color)
  {
    Rgb(Shade(Red(color)), Shade(Green(color)), Shade(Blue(color)))
  }

  /** The border colour for a pure red fill: 0.9 x 255 = 229.5, truncated to 229. */
  lemma DarkerShadeOfRed()
    ensures DarkerShade(0xFF0000) == Rgb(229, 0, 0)
  {
    assert Red(0xFF0000) == 255 && Green(0xFF0000) == 0 && Blue(0xFF0000) == 0;
  }

  /** The fill's alpha takes no part in the border colour. */
  lemma DarkerShadeIgnoresAlpha(color: ColorInt, alpha: Channel)
    ensures DarkerShade(Argb(alpha, Red(color), Green(color), Blue(color))) == DarkerShade(color)
  {
  }

  /** The private constructor `TextDrawable(Builder)`: copies the builder's fields and applies the upper-case option. */
  function Create(c: Config): (d: TextDrawable)
    ensures d.text == if c.toUpperCase then ToUpperCase(c.text) else c.text
    ensures c.toUpperCase ==> HasNoLowerCase(d.text) && |d.text| == |c.text|
    ensures IntrinsicWidth(d) == c.width && IntrinsicHeight(d) == c.height
    ensures d.shape == c.shape && d.radius == c.radius && d.fontSize == c.fontSize
    ensures d.borderThickness == c.borderThickness && d.textColor == c.textColor
    ensures d.font == c.font && d.isBold == c.isBold && d.fillColor == c.color
    ensures d.borderColor == DarkerShade(c.color)
    ensures Alpha(d.borderColor) == 255 && Red(d.borderColor) <= Red(c.color)
    ensures Green(d.borderColor) <= Green(c.color) && Blue(d.borderColor) <= Blue(c.color)
    ensures Consistent(c) ==> WellFormed(d)
  {
    ToUpperCaseHasNoLowerCase(c.text);
    TextDrawable(
      text := if c.toUpperCase then ToUpperCase(c.text) else c.text,
      shape := c.shape,
      height := c.height,
      width := c.width,
      fontSize := c.fontSize,
      radius := c.radius,
      borderThickness := c.borderThickness,
      fillColor := c.color,
      textColor := c.textColor,
      borderColor := DarkerShade(c.color),
      font := c.font,
      isBold := c.isBold)
  }

  /** A drawable whose fill and border agree on the corner radius. */
  predicate WellFormed(d: TextDrawable)
  {
    d.shape.RoundRectShape? ==> d.shape.cornerRadius == d.radius
  }

  /** `getIntrinsicWidth()`: the configured width, -1 when unset. */
  function IntrinsicWidth(d: TextDrawable): Int32
  {
    d.width
  }

  /** `getIntrinsicHeight()`: the configured height, -1 when unset. */
  function IntrinsicHeight(d: TextDrawable): Int32
  {
    d.height
  }

  /** The drawable's bounds, an `android.graphics.Rect`. */
  datatype Bounds = Bounds(left: Int32, top: Int32, right: Int32, bottom: Int32)

  /** `Rect.width()`, computed in `int` arithmetic. */
  function BoundsWidth(b: Bounds): Int32
  {
    Wrap(b.right - b.left)
  }

  /** `Rect.height()`, computed in `int` arithmetic. */
  function BoundsHeight(b: Bounds): Int32
  {
    Wrap(b.bottom - b.top)
  }

  /** A `RectF` whose coordinates are whole numbers. */
  datatype RectF = RectF(left: int, top: int, right: int, bottom: int)

  /** The border outline `drawBorder` strokes. */
  datatype Outline = RectOutline(box: RectF) | OvalOutline(box: RectF) | RoundRectOutline(box: RectF, rx: int, ry: int)

  /** A stroke painted with the border paint. */
  datatype Stroke = Stroke(outline: Outline, strokeWidth: int, color: ColorInt)

  /** The `drawText` call: text, horizontal anchor (the paint centres on it), size and paint settings. */
  datatype TextRun = TextRun(text: string, x: int, size: int, color: ColorInt, font: Option<Typeface>, fakeBold: bool)

  /** What one `draw(canvas)` paints, in order: the filled shape, the optional border, the text after translating to the bounds' corner. */
  datatype Frame = Frame(
    fillShape: Shape,
    fillBounds: Bounds,
    fillColor: ColorInt,
    border: Option<Stroke>,
    translateX: int,
    translateY: int,
    textRun: TextRun)

  /** A configured extent, or the bounds' extent when the configured one is negative (unset); zero counts as set. */
  function Resolve(configured: Int32, fromBounds: Int32): (e: Int32)
    ensures configured >= 0 ==> e == configured
    ensures configured < 0 ==> e == fromBounds
  {
    if configured < 0 then fromBounds else configured
  }

  /** The automatic font size `Math.min(width, height) / 2`: for non-negative sides, the largest size whose double fits both. */
  function AutoFontSize(width: Int32, height: Int32): (s: int)
    ensures Min(width, height) >= 0 ==> 0 <= s && 2 * s <= width && 2 * s <= height && (width <= 2 * s + 1 || height <= 2 * s + 1)
    ensures Min(width, height) < 0 ==> s <= 0 && -1 <= Min(width, height) - 2 * s <= 0
  {
    Half(Min(width, height))
  }

  /** `RectF(bounds).inset(d, d)`: every side moved inward by `d`. */
  function Inset(b: Bounds, d: int): RectF
  {
    RectF(b.left + d, b.top + d, b.right - d, b.bottom - d)
  }

  /** The outline `drawBorder` picks for a shape: an oval, a round-rect with the drawable's `radius`, or a rectangle. */
  function BorderOutline(shape: Shape, box: RectF, radius: int): Outline
  {
    if shape.OvalShape? then OvalOutline(box)
    else if shape.RoundRectShape? then RoundRectOutline(box, radius, radius)
    else RectOutline(box)
  }

  /** The outline has the shape's kind, and a round-rect outline has the given corner radius. */
  predicate Traces(shape: Shape, outline: Outline, radius: int)
  {
    match shape
    case RectShape => outline.RectOutline?
    case OvalShape => outline.OvalOutline?
    case RoundRectShape(_) => outline.RoundRectOutline? && outline.rx == radius && outline.ry == radius
  }

  /** `drawBorder`, reached only when the thickness is positive: the shape's outline, inset by half the thickness, stroked in the darker shade. */
  function DrawBorder(d: TextDrawable, bounds: Bounds): (border: Option<Stroke>)
    ensures border.Some? <==> d.borderThickness > 0
    ensures border.Some? ==>
              var s := border.value;
              var inset := s.outline.box.left - bounds.left;
              && s.strokeWidth == d.borderThickness && s.color == d.borderColor
              && Traces(d.shape, s.outline, d.radius)
              && s.outline.box == Inset(bounds, inset)
              && 0 <= inset && 0 <= d.borderThickness - 2 * inset <= 1
  {
    if d.borderThickness > 0 then
      var box := Inset(bounds, Half(d.borderThickness));
      Some(Stroke(BorderOutline(d.shape, box, d.radius), d.borderThickness, d.borderColor))
    else
      None
  }

  /** The text step of `draw`: sizes resolved against the bounds, text anchored at half the effective width. */
  function DrawText(d: TextDrawable, bounds: Bounds): (run: TextRun)
    ensures var w := Resolve(d.width, BoundsWidth(bounds));
            var h := Resolve(d.height, BoundsHeight(bounds));
            && (d.fontSize >= 0 ==> run.size == d.fontSize)
            && (d.fontSize < 0 ==> run.size == AutoFontSize(w, h))
            && (w >= 0 ==> 0 <= w - 2 * run.x <= 1)
            && (w < 0 ==> -1 <= w - 2 * run.x <= 0)
    ensures run.text == d.text && run.color == d.textColor
    ensures run.font == d.font && run.fakeBold == d.isBold
  {
    var width := Resolve(d.width, BoundsWidth(bounds));
    var height := Resolve(d.height, BoundsHeight(bounds));
    var fontSize := if d.fontSize < 0 then AutoFontSize(width, height) else d.fontSize;
    TextRun(d.text, Half(width), fontSize, d.textColor, d.font, d.isBold)
  }

  /** `draw(canvas)` on a drawable with the given bounds: the fill over the whole bounds, then the border, then the text. */
  function Draw(d: TextDrawable, bounds: Bounds): (f: Frame)
    ensures f.fillShape == d.shape && f.fillBounds == bounds && f.fillColor == d.fillColor
    ensures f.translateX == bounds.left && f.translateY == bounds.top
    ensures f.border == DrawBorder(d, bounds) && f.textRun == DrawText(d, bounds)
  {
    Frame(d.shape, bounds, d.fillColor, DrawBorder(d, bounds), bounds.left, bounds.top, DrawText(d, bounds))
  }

  /** The border traces the same shape as the fill: a round-rect border uses the fill's own corner radius. */
  lemma BorderMatchesFill(d: TextDrawable, bounds: Bounds)
    requires WellFormed(d) && d.borderThickness > 0
    ensures var s := DrawBorder(d, bounds).value;
            Traces(d.shape, s.outline, d.radius)
            && (d.shape.RoundRectShape? ==> s.outline.rx == d.shape.cornerRadius)
  {
  }
}

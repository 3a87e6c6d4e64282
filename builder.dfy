/**
 * `TextDrawable.Builder`: a mutable record of rendering options with
 * documented defaults, fluent setters that each assign one field and return
 * the same builder, shape selectors, and `build` steps that freeze the fields
 * into a `TextDrawable`. The setters check no ranges: a negative width,
 * height or font size is stored as given and later read as "unset".
 * The three builder interfaces of the source only narrow the static type of
 * the same object; here every method is on the one class.
 */
module DrawableBuilder {
  import opened Wrappers
  import opened JavaInt
  import opened AndroidColor
  import JavaString
  import opened TypefaceHelper
  import opened TextDrawables

  /** The font family `build` falls back to when no font was chosen. */
  const DEFAULT_FONT: string := "sans-serif-light"

  /** The fields of a fresh builder. */
  const DEFAULTS: Config := Config(
    text := "",
    color := GRAY,
    borderThickness := 0,
    width := -1,
    height := -1,
    font := None,
    shape := RectShape,
    textColor := WHITE,
    fontSize := -1,
    isBold := false,
    toUpperCase := false,
    radius := 0)

  /**
   * What `build` does to the font and the typeface cache: when no font is
   * set it looks up the default family in the cache (which may load it, and
   * may still leave the font null); otherwise neither changes.
   */
  predicate DefaultFontRule(fontBefore: Option<Typeface>, fontAfter: Option<Typeface>,
                            entriesBefore: Entries, entriesAfter: Entries, create: Loader)
  {
    if fontBefore.None? then
      Outcome(fontAfter, entriesAfter) == Lookup(entriesBefore, DEFAULT_FONT, NORMAL, create)
    else
      fontAfter == fontBefore && entriesAfter == entriesBefore
  }

  class Builder {
    var text: string
    var color: ColorInt
    var borderThickness: Int32
    var width: Int32
    var height: Int32
    var font: Option<Typeface>
    var shape: Shape
    var textColor: ColorInt
    var fontSize: Int32
    var isBold: bool
    var toUpperCase: bool
    var radius: Int32

    /** The builder's fields as one value, the way the drawable's constructor reads them. */
    function Config(): Config
      reads this
    {
      TextDrawables.Config(text, color, borderThickness, width, height, font, shape,
                           textColor, fontSize, isBold, toUpperCase, radius)
    }

    /** A round-rect shape was made with the radius the border will use. */
    ghost predicate Valid()
      reads this
    {
      Consistent(Config())
    }

    /** `new Builder(context)`: the documented defaults. */
    constructor ()
      ensures Valid()
      ensures Config() == DEFAULTS
    {
      text := "";
      color := GRAY;
      textColor := WHITE;
      borderThickness := 0;
      width := -1;
      height := -1;
      shape := RectShape;
      fontSize := -1;
      isBold := false;
      toUpperCase := false;
      font := None;
      radius := 0;
    }

    /** `width(w)`: sets the width, nothing else. */
    method Width(w: Int32) returns (b: Builder)
      requires Valid()
      modifies this
      ensures b == this && Valid()
      ensures Config() == old(Config()).(width := w)
    {
      width := w;
      b := this;
    }

    /** `height(h)`: sets the height, nothing else. */
    method Height(h: Int32) returns (b: Builder)
      requires Valid()
      modifies this
      ensures b == this && Valid()
      ensures Config() == old(Config()).(height := h)
    {
      height := h;
      b := this;
    }

    /** `textColor(c)`: sets the text colour, nothing else. */
    method TextColor(c: ColorInt) returns (b: Builder)
      requires Valid()
      modifies this
      ensures b == this && Valid()
      ensures Config() == old(Config()).(textColor := c)
    {
      textColor := c;
      b := this;
    }

    /** `withBorder(thickness)`: sets the border thickness, nothing else. */
    method WithBorder(thickness: Int32) returns (b: Builder)
      requires Valid()
      modifies this
      ensures b == this && Valid()
      ensures Config() == old(Config()).(borderThickness := thickness)
    {
      borderThickness := thickness;
      b := this;
    }

    /** `useFont(Typeface)`: sets the font, nothing else. */
    method UseFont(f: Typeface) returns (b: Builder)
      requires Valid()
      modifies this
      ensures b == this && Valid()
      ensures Config() == old(Config()).(font := Some(f))
    {
      font := Some(f);
      b := this;
    }

    /** `useFont(name, style)`: sets the font to what the typeface cache answers, which is null when loading threw. */
    method UseFontNamed(cache: TypefaceCache, name: string, style: int, create: Loader) returns (b: Builder)
      requires Valid()
      modifies this, cache
      ensures b == this && Valid()
      ensures Outcome(font, cache.entries) == Lookup(old(cache.entries), name, style, create)
      ensures Config() == old(Config()).(font := font)
    {
      font := cache.Get(name, style, create);
      b := this;
    }

    /** `fontSize(size)`: sets the font size, nothing else. */
    method FontSize(size: Int32) returns (b: Builder)
      requires Valid()
      modifies this
      ensures b == this && Valid()
      ensures Config() == old(Config()).(fontSize := size)
    {
      fontSize := size;
      b := this;
    }

    /** `bold()`: turns on fake-bold text, nothing else. */
    method Bold() returns (b: Builder)
      requires Valid()
      modifies this
      ensures b == this && Valid()
      ensures Config() == old(Config()).(isBold := true)
    {
      isBold := true;
      b := this;
    }

    /** `toUpperCase()`: turns on upper-casing of the text, nothing else. */
    method ToUpperCase() returns (b: Builder)
      requires Valid()
      modifies this
      ensures b == this && Valid()
      ensures Config() == old(Config()).(toUpperCase := true)
    {
      toUpperCase := true;
      b := this;
    }

    /** `beginConfig()` and `endConfig()`: return the same builder and change nothing. */
    method BeginConfig() returns (b: Builder)
      ensures b == this
    {
      b := this;
    }

    method EndConfig() returns (b: Builder)
      ensures b == this
    {
      b := this;
    }

    /** `rect()`: a rectangle; the radius is left as it was. */
    method Rect() returns (b: Builder)
      requires Valid()
      modifies this
      ensures b == this && Valid()
      ensures Config() == old(Config()).(shape := RectShape)
    {
      shape := RectShape;
      b := this;
    }

    /** `round()`: an oval; the radius is left as it was. */
    method Round() returns (b: Builder)
      requires Valid()
      modifies this
      ensures b == this && Valid()
      ensures Config() == old(Config()).(shape := OvalShape)
    {
      shape := OvalShape;
      b := this;
    }

    /** `roundRect(r)`: a rounded rectangle with corner radius `r`, which is also the border's radius. */
    method RoundRect(r: Int32) returns (b: Builder)
      requires Valid()
      modifies this
      ensures b == this && Valid()
      ensures Config() == old(Config()).(shape := RoundRectShape(r), radius := r)
    {
      radius := r;
      shape := RoundRectShape(r);
      b := this;
    }

    /**
     * `build(text, color)`: loads the default font when none is set, stores
     * the text and colour, and freezes the fields into a drawable.
     */
    method Build(cache: TypefaceCache, create: Loader, text: string, color: ColorInt) returns (d: TextDrawable)
      requires Valid()
      modifies this, cache
      ensures Valid()
      ensures DefaultFontRule(old(font), font, old(cache.entries), cache.entries, create)
      ensures Config() == old(Config()).(text := text, color := color, font := font)
      ensures d == Create(Config())
      ensures d.text == if toUpperCase then JavaString.ToUpperCase(text) else text
      ensures d.fillColor == color && d.borderColor == DarkerShade(color)
      ensures d.shape == shape && d.radius == radius && d.fontSize == fontSize
      ensures d.borderThickness == borderThickness
      ensures IntrinsicWidth(d) == width && IntrinsicHeight(d) == height
      ensures WellFormed(d)
    {
      if font.None? {
        font := cache.Get(DEFAULT_FONT, NORMAL, create);
      }
      this.color := color;
      this.text := text;
      d := Create(Config());
    }

    /** `buildRect(text, color)`: `rect()`, then `build`. */
    method BuildRect(cache: TypefaceCache, create: Loader, text: string, color: ColorInt) returns (d: TextDrawable)
      requires Valid()
      modifies this, cache
      ensures Valid()
      ensures DefaultFontRule(old(font), font, old(cache.entries), cache.entries, create)
      ensures Config() == old(Config()).(shape := RectShape, text := text, color := color, font := font)
      ensures d == Create(Config())
    {
      var _ := Rect();
      d := Build(cache, create, text, color);
    }

    /** `buildRound(text, color)`: `round()`, then `build`. */
    method BuildRound(cache: TypefaceCache, create: Loader, text: string, color: ColorInt) returns (d: TextDrawable)
      requires Valid()
      modifies this, cache
      ensures Valid()
      ensures DefaultFontRule(old(font), font, old(cache.entries), cache.entries, create)
      ensures Config() == old(Config()).(shape := OvalShape, text := text, color := color, font := font)
      ensures d == Create(Config())
    {
      var _ := Round();
      d := Build(cache, create, text, color);
    }

    /** `buildRoundRect(text, color, radius)`: `roundRect(radius)`, then `build`. */
    method BuildRoundRect(cache: TypefaceCache, create: Loader, text: string, color: ColorInt, r: Int32)
      returns (d: TextDrawable)
      requires Valid()
      modifies this, cache
      ensures Valid()
      ensures DefaultFontRule(old(font), font, old(cache.entries), cache.entries, create)
      ensures Config() == old(Config()).(shape := RoundRectShape(r), radius := r, text := text, color := color, font := font)
      ensures d == Create(Config())
    {
      var _ := RoundRect(r);
      d := Build(cache, create, text, color);
    }
  }

  /** A default builder's drawable for "AB" in 100x100 bounds: a rectangle, no border, text centred at x 50 in size 50. */
  method DefaultRectangleScenario(cache: TypefaceCache, create: Loader) returns (f: Frame)
    modifies cache
    ensures f.fillShape == RectShape && f.fillColor == 0x00FF00 && f.border == None
    ensures f.textRun.text == "AB" && f.textRun.x == 50 && f.textRun.size == 50
  {
    var b := new Builder();
    var d := b.Build(cache, create, "AB", 0x00FF00);
    f := Draw(d, Bounds(0, 0, 100, 100));
  }

  /**
   * `beginConfig().withBorder(2).endConfig().roundRect(10)` on red: the border is a round-rect
   * inset by 1 with radius 10, in the darker red.
   */
  method BorderedRoundRectScenario(cache: TypefaceCache, create: Loader) returns (f: Frame)
    modifies cache
    ensures f.fillShape == RoundRectShape(10)
    ensures f.border == Some(Stroke(RoundRectOutline(RectF(1, 1, 99, 99), 10, 10), 2, Rgb(229, 0, 0)))
  {
    var b := new Builder();
    b := b.BeginConfig();
    b := b.WithBorder(2);
    b := b.EndConfig();
    b := b.RoundRect(10);
    var d := b.Build(cache, create, "X", 0xFF0000);
    DarkerShadeOfRed();
    var s := DrawBorder(d, Bounds(0, 0, 100, 100)).value;
    assert Traces(RoundRectShape(10), s.outline, 10);
    assert s.outline.box.left == 1;
    f := Draw(d, Bounds(0, 0, 100, 100));
  }
}

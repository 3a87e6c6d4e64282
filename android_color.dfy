/**
 * The parts of Android's `Color` contract the drawable uses: a colour is a
 * packed ARGB `int` (alpha in bits 24..31, red 16..23, green 8..15, blue
 * 0..7); the channel getters are shifts and masks, `Color.rgb` packs three
 * channels under an opaque alpha. Shifts and masks are written as division
 * and remainder on the unsigned bit pattern.
 */
module AndroidColor {
  import opened JavaInt

  /** A `@ColorInt`: a packed ARGB colour. */
  type ColorInt = Int32

  /** One 8-bit colour channel. */
  type Channel = c: int | 0 <= c < 256

  /** `Color.GRAY`, 0xFF888888. */
  const GRAY: ColorInt := -0x77_7778

  /** `Color.WHITE`, 0xFFFFFFFF. */
  const WHITE: ColorInt := -1

  /** `Color.alpha(c)`, that is `c >>> 24`. */
  function Alpha(c: ColorInt): Channel
  {
    Unsigned(c) / 0x100_0000
  }

  /** `Color.red(c)`, that is `(c >> 16) & 0xFF`. */
  function Red(c: ColorInt): Channel
  {
    Unsigned(c) / 0x1_0000 % 0x100
  }

  /** `Color.green(c)`, that is `(c >> 8) & 0xFF`. */
  function Green(c: ColorInt): Channel
  {
    Unsigned(c) / 0x100 % 0x100
  }

  /** `Color.blue(c)`, that is `c & 0xFF`. */
  function Blue(c: ColorInt): Channel
  {
    Unsigned(c) % 0x100
  }

  /** `Color.argb(a, r, g, b)`, that is `a << 24 | r << 16 | g << 8 | b`: the channel getters read back what was packed. */
  function Argb(a: Channel, r: Channel, g: Channel, b: Channel): (c: ColorInt)
    ensures Alpha(c) == a && Red(c) == r && Green(c) == g && Blue(c) == b
  {
    var u := a * 0x100_0000 + r * 0x1_0000 + g * 0x100 + b;
    PackedChannels(a, r, g, b);
    Wrap(u)
  }

  /** A byte appended below `q` is taken off again by division and remainder by 256. */
  lemma SplitByte(q: int, low: Channel)
    ensures (q * 0x100 + low) / 0x100 == q && (q * 0x100 + low) % 0x100 == low
  {
  }

  /** Shifting right by 8 bits twice, or three times, is shifting by 16 or 24. */
  lemma ShiftTwice(x: nat)
    ensures x / 0x100 / 0x100 == x / 0x1_0000
    ensures x / 0x100 / 0x100 / 0x100 == x / 0x100_0000
  {
  }

  /** Division and remainder by powers of two take a packed value apart again. */
  lemma PackedChannels(a: Channel, r: Channel, g: Channel, b: Channel)
    ensures var u := a * 0x100_0000 + r * 0x1_0000 + g * 0x100 + b;
            && 0 <= u < TWO_32 && Unsigned(Wrap(u)) == u
            && u / 0x100_0000 == a && u / 0x1_0000 % 0x100 == r
            && u / 0x100 % 0x100 == g && u % 0x100 == b
  {
    var w := a * 0x100 + r;
    var v := w * 0x100 + g;
    var u := v * 0x100 + b;
    assert u == a * 0x100_0000 + r * 0x1_0000 + g * 0x100 + b;
    SplitByte(v, b);
    SplitByte(w, g);
    SplitByte(a, r);
    ShiftTwice(u);
  }

  /** `Color.rgb(r, g, b)`, that is `0xFF000000 | r << 16 | g << 8 | b`: always fully opaque. */
  function Rgb(r: Channel, g: Channel, b: Channel): (c: ColorInt)
    ensures Alpha(c) == 255 && Red(c) == r && Green(c) == g && Blue(c) == b
  {
    Argb(255, r, g, b)
  }

  /** A colour is determined by its four channels: unpacking and repacking gives it back. */
  lemma ChannelsRoundTrip(c: ColorInt)
    ensures Argb(Alpha(c), Red(c), Green(c), Blue(c)) == c
  {
    var u := Unsigned(c);
    assert u == c || u == c + TWO_32;
    var hi1 := u / 0x100;
    var hi2 := hi1 / 0x100;
    assert hi2 == u / 0x1_0000;
    assert hi2 / 0x100 == u / 0x100_0000;
    assert u == ((Alpha(c) * 0x100 + Red(c)) * 0x100 + Green(c)) * 0x100 + Blue(c);
  }

  /** Colours with the same channels are the same colour. */
  lemma ChannelsDetermineColor(c: ColorInt, d: ColorInt)
    requires Alpha(c) == Alpha(d) && Red(c) == Red(d) && Green(c) == Green(d) && Blue(c) == Blue(d)
    ensures c == d
  {
    ChannelsRoundTrip(c);
    ChannelsRoundTrip(d);
  }

  /** The two named colours the builder defaults to. */
  lemma NamedColors()
    ensures GRAY == Rgb(0x88, 0x88, 0x88)
    ensures WHITE == Rgb(0xFF, 0xFF, 0xFF)
  {
    ChannelsDetermineColor(GRAY, Rgb(0x88, 0x88, 0x88));
    ChannelsDetermineColor(WHITE, Rgb(0xFF, 0xFF, 0xFF));
  }
}

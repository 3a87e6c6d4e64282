# TextDrawable, modelled in Dafny

TextDrawable is a small Android library that paints a coloured shape with centred text. The shape can be a rectangle, an oval or a rounded rectangle, and the text is usually someone's initials. This project models the library's configuration and arithmetic, and proves properties of that model:

- **`TextDrawable.Builder`** (`builder.dfy`, class `DrawableBuilder.Builder`). This is the fluent builder. It is a class with the source's mutable fields. Each setter assigns one field and returns the same builder. The shape selectors replace the shape. The `build*` methods may load the default font, store the text and colour, and then freeze the fields into a drawable. Each setter's contract says the whole new state: `Config() == old(Config()).(field := value)`. The class keeps one invariant: a round-rect shape and the `radius` field agree.
- **The drawable** (`text_drawable.dfy`, module `TextDrawables`). A built drawable is an immutable datatype. The module holds the private constructor (`Create`), the darker border shade, and the size decisions inside `draw`. `draw` does not call a canvas. It returns a `Frame` value that describes what would be painted: the fill, the optional border stroke, the translation, and the text run with its anchor and size.
- **`TypefaceHelper.get`** (`typeface_helper.dfy`). This is a memo from font name to loaded typeface. The function `Lookup` specifies one call. The class `TypefaceCache` holds the map and implements `get` as a method. `Replay` runs a history of calls. The platform loader `Typeface.create` is a function parameter of each call. It either throws or returns a typeface, which may be null.
- **`ColorGenerator`** (`color_generator.dfy`). This covers the two built-in palettes, `getColor` (a palette index computed from the key's hash code), and `randomColor`. The hash code is an input. The random pick is an unconstrained choice.
- **Supporting modules.** `java_int.dfy` models Java's 32-bit `int`: wrap-around, `/ 2` truncated toward zero, `%`, and Kotlin's wrapping `abs`. `android_color.dfy` models Android's packed ARGB colours: the channel getters, `Color.rgb`, `GRAY` and `WHITE`. `java_string.dfy` models `String.toUpperCase()`. `wrappers.dfy` holds Option and Result, which stand for null and for thrown exceptions.

## Assumptions

- **`(int) (0.9f * c)` equals `9 * c / 10` for every channel value `c` in 0..255** (`TextDrawables.Shade`). The model uses this identity in place of float arithmetic. It holds because the error of the float product `0.9f * c` stays below half a unit in the last place of the result for every `c` up to 255. A product that should be a whole number therefore rounds to that number and does not fall just below it. The model states this and does not prove it.
- **Channel getters and `Color.rgb` follow Android's `Color` contract.** `red = (c >> 16) & 0xFF`, and similarly for the other channels. `rgb = 0xFF000000 | r << 16 | g << 8 | b`. The model writes these as division and remainder on the unsigned 32-bit pattern.

## Where the code and its description differ

The model follows the code in each case:

- **Range checks.** The builder does not reject non-positive widths, heights, font sizes, border thicknesses or radii. The `@IntRange` annotations are only lint hints. A negative size is stored as given and later means "use the bounds". A zero size counts as set.
- **Cache key.** The font cache key is the name alone. The `style` argument is used only when loading. A later call with the same name and another style returns the entry cached for the first style (`TypefaceHelper.CachedNameIsStable`).
- **Failed loads.** A failed load is not cached, so a later call with that name loads again. A loader that returns null without throwing gets null cached, and every later call for that name returns null.

## Model

| member | source | states |
|---|---|---|
| AndroidColor.Rgb | library/src/main/java/com/amulyakhare/textdrawable/TextDrawable.java:78-80 | `Color.rgb` is fully opaque, and the channel getters read back exactly the red, green and blue that were packed |
| AndroidColor.Argb | library/src/main/java/com/amulyakhare/textdrawable/TextDrawable.java:78-80 | packing four channels and reading them back gives the same four channels |
| AndroidColor.ChannelsRoundTrip | library/src/main/java/com/amulyakhare/textdrawable/TextDrawable.java:77-81 | the other direction of the round trip: unpacking a colour into its channels and repacking gives the same colour |
| AndroidColor.ChannelsDetermineColor | library/src/main/java/com/amulyakhare/textdrawable/TextDrawable.java:77-81 | two colours with equal channels are equal |
| AndroidColor.NamedColors | library/src/main/java/com/amulyakhare/textdrawable/TextDrawable.java:167-168 | the default fill `GRAY` is opaque 0x88 grey, and the default text colour `WHITE` is opaque white |
| JavaString.ToUpperCase | library/src/main/java/com/amulyakhare/textdrawable/TextDrawable.java:51 | upper-casing keeps the length and upper-cases each character in place |
| JavaString.ToUpperCaseHasNoLowerCase | library/src/main/java/com/amulyakhare/textdrawable/TextDrawable.java:51 | upper-cased text contains no lower-case letter |
| JavaString.ToUpperCaseFixedPoints | library/src/main/java/com/amulyakhare/textdrawable/TextDrawable.java:51 | upper-casing leaves a text unchanged exactly when the text has no lower-case letter (both directions) |
| JavaString.ToUpperCaseIdempotent | library/src/main/java/com/amulyakhare/textdrawable/TextDrawable.java:51 | upper-casing twice gives the same text as upper-casing once |
| TextDrawables.Shade | library/src/main/java/com/amulyakhare/textdrawable/TextDrawable.java:32 | the shade is 0.9 times the channel, truncated. It is never above the channel, and it is strictly below any non-zero channel |
| TextDrawables.DarkerShade | library/src/main/java/com/amulyakhare/textdrawable/TextDrawable.java:77-81 | the border colour is fully opaque, each channel is the truncated 0.9 times the fill's channel, and no channel is greater than the fill's |
| TextDrawables.DarkerShadeIgnoresAlpha | library/src/main/java/com/amulyakhare/textdrawable/TextDrawable.java:77-81 | the fill's alpha takes no part in the border colour |
| TextDrawables.DarkerShadeOfRed | library/src/main/java/com/amulyakhare/textdrawable/TextDrawable.java:77-81 | a pure red fill gets the border colour `rgb(229, 0, 0)` |
| TextDrawables.Create | library/src/main/java/com/amulyakhare/textdrawable/TextDrawable.java:41-75 | the constructor gives: exactly the upper-cased text when the flag is set (so no lower-case letter and the same length), otherwise the text verbatim; `getIntrinsicWidth/Height` return the configured width and height (-1 when unset); shape, radius, font size, border thickness, text colour, font, bold flag and fill colour copied from the builder; a border colour that is exactly the darker shade of the fill, opaque and no brighter than it; a corner radius that agrees between fill and border |
| TextDrawables.Resolve | library/src/main/java/com/amulyakhare/textdrawable/TextDrawable.java:96-97 | the effective width or height is the configured value when it is at least 0 (0 included), otherwise the bounds' value |
| TextDrawables.AutoFontSize | library/src/main/java/com/amulyakhare/textdrawable/TextDrawable.java:98 | the automatic font size is the largest size whose double fits within both effective sides, which is `min(w, h) / 2` truncated; for a negative side it is that side halved toward zero (`min - 2s` is 0 or -1) |
| TextDrawables.DrawBorder | library/src/main/java/com/amulyakhare/textdrawable/TextDrawable.java:89-90 | a border is drawn exactly when the thickness is positive. It has stroke width equal to the thickness and uses the darker shade. Its box is the bounds inset on every side by half the thickness, truncated. Its outline is an oval for an oval shape, a round-rect with `radius` for a round-rect shape, and a rectangle otherwise |
| TextDrawables.DrawText | library/src/main/java/com/amulyakhare/textdrawable/TextDrawable.java:96-100 | the font size is the configured one when it is at least 0, otherwise the automatic size of the effective sides. The text anchor x is half the effective width, truncated toward zero. The text, colour, typeface and bold flag are the drawable's |
| TextDrawables.Draw | library/src/main/java/com/amulyakhare/textdrawable/TextDrawable.java:84-104 | the fill paints the drawable's shape and colour over the whole bounds. The border is exactly the one `drawBorder` strokes and the text run exactly the one drawn after the canvas is translated to the bounds' top-left corner |
| TextDrawables.BorderMatchesFill | library/src/main/java/com/amulyakhare/textdrawable/TextDrawable.java:106-117 | on a built drawable the border traces the fill's shape, and a round-rect border uses the fill's own corner radius |
| TypefaceHelper.Lookup | library/src/main/java/com/amulyakhare/textdrawable/util/TypefaceHelper.java:33-46 | on a hit, the cached entry is returned and the cache is unchanged. On a miss whose load returns t, the cache gains name→t and t is returned. On a miss whose load throws, null is returned and the cache is unchanged. No binding is ever removed or overwritten |
| TypefaceHelper.CachedNameIsStable | library/src/main/java/com/amulyakhare/textdrawable/util/TypefaceHelper.java:35-44 | once a name is cached, even as null, every later call with that name returns the same entry, whatever its style and whatever the loader would do, and changes nothing |
| TypefaceHelper.FailureIsNotCached | library/src/main/java/com/amulyakhare/textdrawable/util/TypefaceHelper.java:36-42 | a load that throws leaves the cache as it was, so a later call loads again as if the failed call had not happened |
| TypefaceHelper.ReplayExtends | library/src/main/java/com/amulyakhare/textdrawable/util/TypefaceHelper.java:31-45 | across any history of calls the cache only grows |
| TypefaceHelper.ReplayAnswersFromFirstEntry | library/src/main/java/com/amulyakhare/textdrawable/util/TypefaceHelper.java:31-45 | after any history of calls, a name that was cached at the start still answers with its original entry |
| TypefaceHelper.TypefaceCache.constructor | library/src/main/java/com/amulyakhare/textdrawable/util/TypefaceHelper.java:31 | the cache starts empty |
| TypefaceHelper.TypefaceCache.Get | library/src/main/java/com/amulyakhare/textdrawable/util/TypefaceHelper.java:33-46 | `get` returns what `Lookup` specifies and leaves the cache `Lookup` specifies. The new cache extends the old one |
| DrawableBuilder.Builder.constructor | library/src/main/java/com/amulyakhare/textdrawable/TextDrawable.java:164-176 | a fresh builder has: text "", colour GRAY, text colour WHITE, border 0, width, height and font size -1, a rectangle, not bold, not upper-case, no font, radius 0 |
| DrawableBuilder.Builder.Width | library/src/main/java/com/amulyakhare/textdrawable/TextDrawable.java:178-182 | sets the width to the given value without a range check, leaves every other field, and returns the same builder |
| DrawableBuilder.Builder.Height | library/src/main/java/com/amulyakhare/textdrawable/TextDrawable.java:189-193 | sets the height only, with no range check, and returns the same builder |
| DrawableBuilder.Builder.TextColor | library/src/main/java/com/amulyakhare/textdrawable/TextDrawable.java:200-204 | sets the text colour only and returns the same builder |
| DrawableBuilder.Builder.WithBorder | library/src/main/java/com/amulyakhare/textdrawable/TextDrawable.java:212-216 | sets the border thickness only, with no range check, and returns the same builder |
| DrawableBuilder.Builder.UseFont | library/src/main/java/com/amulyakhare/textdrawable/TextDrawable.java:223-227 | sets the font only and returns the same builder |
| DrawableBuilder.Builder.UseFontNamed | library/src/main/java/com/amulyakhare/textdrawable/TextDrawable.java:229-233 | sets the font to what the typeface cache returns for the name and style (null when loading threw), changes the cache only as a cache lookup does, and leaves every other field |
| DrawableBuilder.Builder.FontSize | library/src/main/java/com/amulyakhare/textdrawable/TextDrawable.java:235-239 | sets the font size only, with no range check, and returns the same builder |
| DrawableBuilder.Builder.Bold | library/src/main/java/com/amulyakhare/textdrawable/TextDrawable.java:246-250 | turns on the bold flag only and returns the same builder |
| DrawableBuilder.Builder.ToUpperCase | library/src/main/java/com/amulyakhare/textdrawable/TextDrawable.java:252-256 | turns on the upper-case flag only and returns the same builder |
| DrawableBuilder.Builder.BeginConfig | library/src/main/java/com/amulyakhare/textdrawable/TextDrawable.java:258-261 | returns the same builder and changes nothing |
| DrawableBuilder.Builder.EndConfig | library/src/main/java/com/amulyakhare/textdrawable/TextDrawable.java:263-266 | returns the same builder and changes nothing |
| DrawableBuilder.Builder.Rect | library/src/main/java/com/amulyakhare/textdrawable/TextDrawable.java:268-272 | replaces the shape with a rectangle and leaves the radius and every other field |
| DrawableBuilder.Builder.Round | library/src/main/java/com/amulyakhare/textdrawable/TextDrawable.java:274-278 | replaces the shape with an oval and leaves the radius and every other field |
| DrawableBuilder.Builder.RoundRect | library/src/main/java/com/amulyakhare/textdrawable/TextDrawable.java:280-286 | sets the shape to a round-rect with corner radius r and sets `radius` to r, so fill and border agree |
| DrawableBuilder.Builder.Build | library/src/main/java/com/amulyakhare/textdrawable/TextDrawable.java:331-338 | looks up "sans-serif-light" in the typeface cache only when no font is set. Stores the text and colour. Returns the frozen drawable, whose text is upper-cased exactly when the flag is set, whose border colour is the darker shade of the colour, and whose shape, radius, sizes and border are the builder's |
| DrawableBuilder.Builder.BuildRect | library/src/main/java/com/amulyakhare/textdrawable/TextDrawable.java:293-297 | selects a rectangle, then behaves exactly like `build` |
| DrawableBuilder.Builder.BuildRound | library/src/main/java/com/amulyakhare/textdrawable/TextDrawable.java:319-323 | selects an oval, then behaves exactly like `build` |
| DrawableBuilder.Builder.BuildRoundRect | library/src/main/java/com/amulyakhare/textdrawable/TextDrawable.java:306-310 | selects a round-rect with radius r, then behaves exactly like `build` |
| DrawableBuilder.DefaultRectangleScenario | library/src/main/java/com/amulyakhare/textdrawable/TextDrawable.java:84-104 | a default builder built with "AB" and drawn in 100x100 bounds paints a rectangle with no border, and text anchored at x 50 in size 50 |
| DrawableBuilder.BorderedRoundRectScenario | library/src/main/java/com/amulyakhare/textdrawable/TextDrawable.java:106-117 | `roundRect(10)` with a 2-pixel border on red, in 100x100 bounds, strokes a round-rect of radius 10 inset by 1 pixel, 2 pixels wide, in `rgb(229, 0, 0)` |
| JavaInt.KotlinAbs | library/src/main/java/com/amulyakhare/textdrawable/util/ColorGenerator.kt:60 | Kotlin's `abs` is non-negative and equals ±x for every x except `Int.MIN_VALUE`, which it returns unchanged |
| JavaInt.Rem | library/src/main/java/com/amulyakhare/textdrawable/util/ColorGenerator.kt:60 | `%` by a positive size agrees with the mathematical remainder on non-negative operands, and lies in (-size, 0] on negative ones; quotient times size plus remainder gives back the operand |
| JavaInt.Quot | library/src/main/java/com/amulyakhare/textdrawable/util/ColorGenerator.kt:60 | the quotient that pairs with `%` truncates toward zero: `b*q ≤ a < b*q + b` for `a ≥ 0`, and `b*q - b < a ≤ b*q` for `a < 0` |
| JavaInt.Half | library/src/main/java/com/amulyakhare/textdrawable/TextDrawable.java:98 | `/ 2` halves toward zero: `a - 2h` is 0 or 1 for `a ≥ 0`, and 0 or -1 for `a < 0` |
| ColorGenerators.ColorGenerator.GetColor | library/src/main/java/com/amulyakhare/textdrawable/util/ColorGenerator.kt:59-61 | an empty palette throws (modulo by zero). For a non-empty palette and hash ≠ `Int.MIN_VALUE`, the result is `palette[abs(hash) % size]`. Every colour returned is an element of the palette |
| ColorGenerators.ColorGenerator.RandomColor | library/src/main/java/com/amulyakhare/textdrawable/util/ColorGenerator.kt:55-57 | returns an element of the palette, and throws exactly when the palette is empty |
| ColorGenerators.PalettesAreOpaque | library/src/main/java/com/amulyakhare/textdrawable/util/ColorGenerator.kt:14-47 | `DEFAULT` has 9 entries and `MATERIAL` has 17, so the valid indices are 0..8 and 0..16. Every entry is fully opaque |
| ColorGenerators.GetColorIgnoresSign | library/src/main/java/com/amulyakhare/textdrawable/util/ColorGenerator.kt:60 | hashes h and -h pick the same colour |
| ColorGenerators.GetColorAtMinValue | library/src/main/java/com/amulyakhare/textdrawable/util/ColorGenerator.kt:60 | for hash `Int.MIN_VALUE`, `getColor` throws with index -(2^31 mod size), unless the size divides 2^31, in which case it picks entry 0 |
| ColorGenerators.BuiltInPalettesFailAtMinValue | library/src/main/java/com/amulyakhare/textdrawable/util/ColorGenerator.kt:59-61 | with the built-in palettes, a key hashing to `Int.MIN_VALUE` throws an index-out-of-bounds exception, at index -2 for `DEFAULT` and -9 for `MATERIAL` |
| ColorGenerators.ColorGenerator.GetColorFixed | library/src/main/java/com/amulyakhare/textdrawable/util/ColorGenerator.kt:59-61 | the corrected pick `abs(hash % size)` returns a palette entry for every hash when the palette is non-empty |
| ColorGenerators.GetColorFixedAgrees | library/src/main/java/com/amulyakhare/textdrawable/util/ColorGenerator.kt:59-61 | the corrected pick agrees with `getColor` on every hash for which `getColor` returns |

## Findings

| source | as written | input that shows it | evidently intended | confidence | as-written member | corrected member |
|---|---|---|---|---|---|---|
| library/src/main/java/com/amulyakhare/textdrawable/util/ColorGenerator.kt:60 | the index is Kotlin's `abs` of the hash code, then `%` by the palette size. `abs(Int.MIN_VALUE)` is `Int.MIN_VALUE`, so the index can be negative | any key whose `hashCode()` is -2147483648: the index is -2 with `DEFAULT` and -9 with `MATERIAL`, and the list access throws | every key maps to some palette colour | high; not executed | ColorGenerators.BuiltInPalettesFailAtMinValue | ColorGenerators.ColorGenerator.GetColorFixed |

## Left out

- Painting itself is not modelled: `Canvas`, `Paint`, `ShapeDrawable.draw`, `save`, `translate` and `restoreToCount` are platform calls. `draw` returns a `Frame` that describes them instead.
- The vertical text baseline `height / 2 - (descent + ascent) / 2` is not modelled, because it depends on float font metrics from `Paint`.
- The paint settings that are constants are not modelled: anti-aliasing, the fill and stroke styles, centred alignment, and the text paint's stroke width. That stroke width is set to the border thickness, but it has no effect on text drawn with a fill style.
- The `*Res` builder variants are not modelled. They resolve values through Android `Resources`, an external collaborator, and then call the primary setter or `build`. The builder's `Context` field is used only by them.
- `setAlpha` and `setColorFilter` are not modelled. They only pass the value to the text paint. `getOpacity` is not modelled either; it returns the constant `PixelFormat.TRANSLUCENT`.
- The `synchronized (cache)` lock is not modelled. Concurrency is out of scope, so `get` is a sequential method on an injected cache object rather than on static state.
- `Typeface.create` is a foreign call. Each call takes it as a function parameter, so the model does not fix what the platform loads.
- `java.util.Random` is not modelled. `randomColor` is an unconstrained choice of index.
- `Object.hashCode` is not modelled. `getColor` takes the hash code as an input.
- Float precision is not modelled. The drawable's `radius` is a float set from an int, but the model keeps it as an `int`, so rounding of radii beyond 2^24 is not captured. The same holds for the float `RectF` coordinates and the float text size and anchor. Their values are whole numbers, and the model keeps them exact.
- JavaString.ToUpperCase: only the ASCII letters a-z are mapped. Java's locale-sensitive, full Unicode case mapping is not modelled; it can change the length of a text (for example "ß" becomes "SS").
- AndroidColor.Rgb: defined only for channels 0..255, the only values the core passes to it. `Color.rgb` would OR out-of-range channels into other bits, and that is not modelled.
- Direct writes to the public builder fields `textColor` and `radius` are not modelled. The builder's invariant says that a round-rect shape's radius equals the `radius` field, and every setter keeps it. A client that writes `radius` after `roundRect` breaks it: the border is then stroked with the new radius while the fill keeps the old corner radii, a state the model leaves out.
- The narrowing interfaces `IShapeBuilder`, `IConfigBuilder` and `IBuilder`, and the `builder(context)` factory, are not modelled. They only restrict which builder methods a caller can reach in which order. Every such chain is a sequence of calls on the one `Builder` class, as the bordered scenario shows.
- Null arguments passed to `@NonNull` parameters (text, typeface, font name) are not modelled.
- The sample application is demonstration UI and is not modelled: `MainActivity`, `DataSource`, `DataItem` and `DrawableProvider`.

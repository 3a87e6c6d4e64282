/**
 * `ColorGenerator`: a fixed palette, a deterministic pick by a key's hash
 * code, and a random pick. The key's `hashCode()` is taken as an input, and
 * the `Random` behind `randomColor` as an unconstrained choice.
 */
module ColorGenerators {
  import opened Wrappers
  import opened JavaInt
  import opened AndroidColor

  /** The exceptions the palette picks can throw. */
  datatype Error =
    | ArithmeticException          // `x % 0` on an empty palette
    | IndexOutOfBounds(index: int) // `colors[index]` with a negative index
    | IllegalArgument              // `Random.nextInt(0)` on an empty palette

  /** A Kotlin `List<Int>` of colours: its `size` is an `Int`. */
  type Palette = s: seq<ColorInt> | |s| <= MAX_VALUE

  datatype ColorGenerator = ColorGenerator(colors: Palette)
  {
    /**
     * `getColor(key)` for a key whose `hashCode()` is `hash`, as written:
     * `colors[abs(hash) % colors.size]` with Kotlin's wrapping `abs` and
     * truncating `%`.
     */
    function GetColor(hash: Int32): (r: Result<ColorInt, Error>)
      ensures |colors| == 0 <==> r == Failure(ArithmeticException)
      ensures |colors| > 0 && hash != MIN_VALUE ==>
                r.Success? && r.value == colors[(if hash < 0 then -hash else hash) % |colors|]
      ensures r.Success? ==> r.value in colors
    {
      if |colors| == 0 then
        Failure(ArithmeticException)
      else
        var index := Rem(KotlinAbs(hash), |colors|);
        if index < 0 then Failure(IndexOutOfBounds(index)) else Success(colors[index])
    }

    /** `getColor` with the index taken as `abs(hash % colors.size)`, which is in range for every hash. */
    function GetColorFixed(hash: Int32): (r: Result<ColorInt, Error>)
      ensures |colors| == 0 <==> r == Failure(ArithmeticException)
      ensures |colors| > 0 ==> r.Success? && r.value in colors
    {
      if |colors| == 0 then
        Failure(ArithmeticException)
      else
        var index := KotlinAbs(Rem(hash, |colors|));
        Success(colors[index])
    }

    /** `randomColor`: some entry of the palette; `Random.nextInt(0)` throws on an empty one. */
    method RandomColor() returns (r: Result<ColorInt, Error>)
      ensures |colors| == 0 <==> r == Failure(IllegalArgument)
      ensures |colors| > 0 <==> r.Success?
      ensures r.Success? ==> r.value in colors
    {
      if |colors| == 0 {
        return Failure(IllegalArgument);
      }
      var index :| 0 <= index < |colors|;
      r := Success(colors[index]);
    }
  }

  /** `ColorGenerator.DEFAULT`. */
  const DEFAULT: ColorGenerator := ColorGenerator([
    -0xe9c9c, -0xa7aa7, -0x65bc2, -0x1b39d2, -0x98408c,
    -0xa65d42, -0xdf6c33, -0x529d59, -0x7fa87f])

  /** `ColorGenerator.MATERIAL`. */
  const MATERIAL: ColorGenerator := ColorGenerator([
    -0x1a8c8d, -0xf9d6e, -0x459738, -0x6a8a33, -0x867935, -0x9b4a0a,
    -0xb03c09, -0xb22f1f, -0xb24954, -0x7e387c, -0x512a7f, -0x759b,
    -0x2b1ea9, -0x2ab1, -0x48b3, -0x5e7781, -0x6f5b52])

  /** The two palettes have 9 and 17 entries, all fully opaque. */
  lemma PalettesAreOpaque()
    ensures |DEFAULT.colors| == 9 && |MATERIAL.colors| == 17
    ensures forall c :: c in DEFAULT.colors ==> Alpha(c) == 255
    ensures forall c :: c in MATERIAL.colors ==> Alpha(c) == 255
  {
    forall c | c in DEFAULT.colors + MATERIAL.colors
      ensures Alpha(c) == 255
    {
      assert -0x100_0000 <= c < 0;
      assert Unsigned(c) == c + TWO_32;
    }
  }

  /** A hash and its negation pick the same colour. */
  lemma GetColorIgnoresSign(g: ColorGenerator, hash: Int32)
    requires hash != MIN_VALUE
    ensures g.GetColor(hash) == g.GetColor(-hash)
  {
  }

  /**
   * The one hash `abs` cannot make non-negative: `getColor` throws for it
   * unless the palette size divides 2^31, and then it picks the first entry.
   */
  lemma GetColorAtMinValue(g: ColorGenerator)
    requires |g.colors| > 0
    ensures var n := |g.colors|;
            if 0x8000_0000 % n == 0 then g.GetColor(MIN_VALUE) == Success(g.colors[0])
            else g.GetColor(MIN_VALUE) == Failure(IndexOutOfBounds(-(0x8000_0000 % n)))
  {
  }

  /** For both built-in palettes, a key hashing to `Int.MIN_VALUE` makes `getColor` throw. */
  lemma BuiltInPalettesFailAtMinValue()
    ensures DEFAULT.GetColor(MIN_VALUE) == Failure(IndexOutOfBounds(-2))
    ensures MATERIAL.GetColor(MIN_VALUE) == Failure(IndexOutOfBounds(-9))
  {
    GetColorAtMinValue(DEFAULT);
    GetColorAtMinValue(MATERIAL);
  }

  /** The fixed pick agrees with `getColor` wherever `getColor` returns. */
  lemma GetColorFixedAgrees(g: ColorGenerator, hash: Int32)
    requires g.GetColor(hash).Success?
    ensures g.GetColorFixed(hash) == g.GetColor(hash)
  {
  }
}

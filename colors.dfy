/** Packed colours: `RGBW` and `Color`. A colour is a Python int laid out as
    w << 24 | r << 16 | g << 8 | b, one byte per component. */
module Colors {
  import opened Errors

  /** A component value as the docstrings ask for it: 0 (off) to 255 (full). */
  predicate IsByte(x: int) { 0 <= x < 0x100 }

  /** One slot of the native LED array, an unsigned 32-bit integer. */
  type u32 = x: int | 0 <= x < 0x1_0000_0000

  // The accessors are `(c >> k) & 0xff`. Python's `>>` floors and `& 0xff` keeps the
  // low byte of the two's-complement value; with a positive divisor Dafny's `/` and `%`
  // compute exactly these, negative c included.

  /** `RGBW.r` */
  function Red(c: int): (r: int)
    ensures IsByte(r)
  {
    (c / 0x1_0000) % 0x100
  }

  /** `RGBW.g` */
  function Green(c: int): (g: int)
    ensures IsByte(g)
  {
    (c / 0x100) % 0x100
  }

  /** `RGBW.b` */
  function Blue(c: int): (b: int)
    ensures IsByte(b)
  {
    c % 0x100
  }

  /** `RGBW.w` */
  function White(c: int): (w: int)
    ensures IsByte(w)
  {
    (c / 0x100_0000) % 0x100
  }

  /** `(w << 24) | (r << 16) | (g << 8) | b` for byte components: the four shifted
      fields have no bit in common, so the bitwise or is their sum. */
  function Pack(r: int, g: int, b: int, w: int): (c: u32)
    requires IsByte(r) && IsByte(g) && IsByte(b) && IsByte(w)
  {
    w * 0x100_0000 + r * 0x1_0000 + g * 0x100 + b
  }

  /** Splitting off the low byte of q * 256 + d gives back q and d. */
  lemma ByteDigit(q: int, d: int)
    requires IsByte(d)
    ensures (q * 0x100 + d) / 0x100 == q && (q * 0x100 + d) % 0x100 == d
  {
  }

  /** `x >> 16` and `x >> 24` are `x >> 8` applied two and three times. */
  lemma ShiftSplit(x: int)
    ensures x / 0x1_0000 == (x / 0x100) / 0x100
    ensures x / 0x100_0000 == ((x / 0x100) / 0x100) / 0x100
  {
  }

  /** Unpacking a packed colour gives back each component. */
  lemma {:induction false} PackRoundTrip(r: int, g: int, b: int, w: int)
    requires IsByte(r) && IsByte(g) && IsByte(b) && IsByte(w)
    ensures Red(Pack(r, g, b, w)) == r && Green(Pack(r, g, b, w)) == g
    ensures Blue(Pack(r, g, b, w)) == b && White(Pack(r, g, b, w)) == w
  {
    var c := Pack(r, g, b, w);
    var wr := w * 0x100 + r;
    var wrg := wr * 0x100 + g;
    assert c == wrg * 0x100 + b;
    ByteDigit(wrg, b);
    ByteDigit(wr, g);
    ByteDigit(w, r);
    ByteDigit(0, w);
    ShiftSplit(c);
  }

  /** Every 32-bit slot value is the packing of its own four components, so the
      accessors lose nothing. */
  lemma {:induction false} UnpackRoundTrip(c: u32)
    ensures Pack(Red(c), Green(c), Blue(c), White(c)) == c
  {
    var c1 := c / 0x100;
    var c2 := c1 / 0x100;
    var c3 := c2 / 0x100;
    ShiftSplit(c);
    assert c == c1 * 0x100 + Blue(c);
    assert c1 == c2 * 0x100 + Green(c);
    assert c2 == c3 * 0x100 + Red(c);
    assert c3 == White(c);
  }

  /** What `RGBW(r, g, b, w)` asks of its components: when it packs, every given one
      is a byte. */
  predicate RgbwArgsOk(r: int, g: Option<int>, b: Option<int>, w: Option<int>)
  {
    (g.Some? || b.Some? || w.Some?) ==>
      IsByte(r) && (g.Some? ==> IsByte(g.value)) && (b.Some? ==> IsByte(b.value))
      && (w.Some? ==> IsByte(w.value))
  }

  /** `RGBW.__new__(r, g=None, b=None, w=None)`. With only r it is r itself; with g and b
      it packs, w defaulting to 0; with g or b missing but not all three, the shift of
      None raises TypeError. */
  function Rgbw(r: int, g: Option<int> := None, b: Option<int> := None, w: Option<int> := None): (res: Result<int>)
    requires RgbwArgsOk(r, g, b, w)
    ensures g.None? && b.None? && w.None? ==> res == Ok(r)
    ensures (g.Some? || b.Some? || w.Some?) && (g.None? || b.None?) ==> res == Err(TypeError)
    ensures g.Some? && b.Some? ==>
      res.Ok? && 0 <= res.value < 0x1_0000_0000
      && Red(res.value) == r && Green(res.value) == g.value && Blue(res.value) == b.value
      && White(res.value) == (if w.Some? then w.value else 0)
  {
    if g.None? && b.None? && w.None? then
      Ok(r)
    else if g.None? || b.None? then
      Err(TypeError)
    else
      var white := if w.None? then 0 else w.value;
      PackRoundTrip(r, g.value, b.value, white);
      Ok(Pack(r, g.value, b.value, white))
  }

  /** `Color(red, green, blue, white=0)`: always passes all four components to `RGBW`,
      so it always packs. */
  function Color(red: int, green: int, blue: int, white: int := 0): (c: u32)
    requires IsByte(red) && IsByte(green) && IsByte(blue) && IsByte(white)
    ensures Red(c) == red && Green(c) == green && Blue(c) == blue && White(c) == white
  {
    Rgbw(red, Some(green), Some(blue), Some(white)).value
  }

  /** A colour given as red, green and blue only has no white. */
  lemma ColorWithoutWhite(red: int, green: int, blue: int)
    requires IsByte(red) && IsByte(green) && IsByte(blue)
    ensures White(Color(red, green, blue)) == 0
    ensures Color(red, green, blue) == Pack(red, green, blue, 0)
  {
    UnpackRoundTrip(Color(red, green, blue));
  }
}

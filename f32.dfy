/**
 * The few `f32` operations the file format needs, computed exactly on
 * IEEE-754 single-precision bit patterns: the conversions between `u8` and
 * `f32` (`f32::from(u8)` and `as u8`), the comparison with zero and the
 * membership test of an inclusive range with positive finite bounds.
 *
 * Bit pattern: sign in bit 31, biased exponent in bits 23..30, mantissa in
 * bits 0..22.
 */
module F32 {
  import opened Base

  function Exponent(bits: u32): nat { (bits / 0x80_0000) % 0x100 }
  function Mantissa(bits: u32): nat { bits % 0x80_0000 }
  predicate Negative(bits: u32) { bits >= 0x8000_0000 }
  predicate IsNaN(bits: u32) { Exponent(bits) == 0xFF && Mantissa(bits) != 0 }

  /** `x == 0.0`, which holds for both +0.0 and -0.0. */
  predicate IsZero(bits: u32) { bits == 0 || bits == 0x8000_0000 }

  /** 2^(23 - e), the weight of the lowest integer bit of a value with exponent e. */
  function Scale(e: nat): nat
    requires e < 8
  {
    match e
    case 0 => 0x80_0000
    case 1 => 0x40_0000
    case 2 => 0x20_0000
    case 3 => 0x10_0000
    case 4 => 0x8_0000
    case 5 => 0x4_0000
    case 6 => 0x2_0000
    case _ => 0x1_0000
  }

  /** 2^e for e < 8. */
  function Power(e: nat): nat
    requires e < 8
  {
    match e
    case 0 => 1
    case 1 => 2
    case 2 => 4
    case 3 => 8
    case 4 => 16
    case 5 => 32
    case 6 => 64
    case _ => 128
  }

  /** The exponent of a non-zero byte: the position of its highest set bit. */
  function Log2(r: u8): (e: nat)
    requires r > 0
    ensures e < 8 && Power(e) <= r < 2 * Power(e)
  {
    if r >= 128 then 7 else if r >= 64 then 6 else if r >= 32 then 5 else if r >= 16 then 4
    else if r >= 8 then 3 else if r >= 4 then 2 else if r >= 2 then 1 else 0
  }

  /** `f32::from(r)`: a byte as a single-precision value (exact). */
  function FromU8(r: u8): u32
  {
    if r == 0 then 0
    else
      var e := Log2(r);
      (127 + e) * 0x80_0000 + (r - Power(e)) * Scale(e)
  }

  /**
   * `x as u8` on an `f32`: truncation toward zero, saturating at 0 and 255,
   * with NaN giving 0.
   */
  function ToU8(bits: u32): u8
  {
    var e := Exponent(bits);
    if IsNaN(bits) || Negative(bits) || e < 127 then 0
    else if e >= 127 + 8 then 255
    else
      var k := e - 127;
      var v := (0x80_0000 + Mantissa(bits)) / Scale(k);
      assert v < 0x100 by { ScaleBound(k, Mantissa(bits)); }
      v
  }

  lemma ScaleBound(k: nat, m: nat)
    requires k < 8 && m < 0x80_0000
    ensures (0x80_0000 + m) / Scale(k) < 2 * Power(k)
  {
    DivModUnique(0x100_0000, Scale(k), 2 * Power(k), 0);
  }

  /** An inclusive range `lo..=hi` of `f32` with positive finite bounds contains `x`. */
  predicate InRange(bits: u32, lo: u32, hi: u32)
  {
    !IsNaN(bits) && !Negative(bits) && lo <= bits <= hi
  }

  /** Converting a byte to `f32` and back with `as u8` gives the byte. */
  lemma ToU8FromU8(r: u8)
    ensures ToU8(FromU8(r)) == r
    ensures IsZero(FromU8(r)) <==> r == 0
  {
    if r > 0 {
      var e := Log2(r);
      var m := (r - Power(e)) * Scale(e);
      var bits := FromU8(r);
      assert m < 0x80_0000 by {
        assert r - Power(e) < Power(e);
        assert Power(e) * Scale(e) == 0x80_0000;
      }
      DivModUnique(bits, 0x80_0000, 127 + e, m);
      assert Exponent(bits) == 127 + e && Mantissa(bits) == m;
      assert 0x80_0000 + m == r * Scale(e);
      DivModUnique(r * Scale(e), Scale(e), r, 0);
    }
  }
}

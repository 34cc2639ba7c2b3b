/**
 * Machine integer widths, little-endian byte layouts, two's-complement
 * reinterpretation, release-build wrap-around and bitwise OR, shared by
 * every other module of the model.
 */
module Base {

  type u8 = x: int | 0 <= x < 0x100
  type u16 = x: int | 0 <= x < 0x1_0000
  type u32 = x: int | 0 <= x < 0x1_0000_0000
  type u64 = x: int | 0 <= x < 0x1_0000_0000_0000_0000
  type i8 = x: int | -0x80 <= x < 0x80
  type i16 = x: int | -0x8000 <= x < 0x8000
  type i32 = x: int | -0x8000_0000 <= x < 0x8000_0000

  datatype Option<+T> = None | Some(value: T)

  datatype Result<+T, +E> = Ok(value: T) | Err(error: E) {
    predicate IsFailure() { Err? }
    function PropagateFailure<U>(): Result<U, E> requires Err? { Err(error) }
    function Extract(): T requires Ok? { value }
  }

  /** 2 to the power k. */
  function Pow2(k: nat): (p: nat)
    ensures p >= 1
  {
    if k == 0 then 1 else 2 * Pow2(k - 1)
  }

  /** Rust's `u32` arithmetic in a release build: the result modulo 2^32. */
  function Wrap32(x: int): u32 { x % 0x1_0000_0000 }

  /** Rust's `u64`/`usize` arithmetic in a release build. */
  function Wrap64(x: int): u64 { x % 0x1_0000_0000_0000_0000 }

  /** Rust's `i32` arithmetic in a release build (and `as i32` casts). */
  function WrapI32(x: int): (r: i32)
    ensures (r - x) % 0x1_0000_0000 == 0
  {
    var m := x % 0x1_0000_0000;
    if m < 0x8000_0000 then m else m - 0x1_0000_0000
  }

  /** Rust's `i16` arithmetic in a release build (`wrapping_mul`, `as i16`). */
  function WrapI16(x: int): (r: i16)
    ensures (r - x) % 0x1_0000 == 0
  {
    var m := x % 0x1_0000;
    if m < 0x8000 then m else m - 0x1_0000
  }

  /** Rust's `as u8` on an integer: the low eight bits. */
  function LowByte(x: int): u8 { x % 0x100 }

  /** Rust's integer `/`, which truncates toward zero (Dafny's is Euclidean). */
  function TruncDiv(a: int, b: int): (q: int)
    requires b != 0
    ensures b > 0 && a >= 0 ==> q == a / b
  {
    if a >= 0 then (if b > 0 then a / b else -(a / -b))
    else (if b > 0 then -((-a) / b) else (-a) / (-b))
  }

  /** `Ord::clamp`. */
  function Clamp(x: int, lo: int, hi: int): (r: int)
    requires lo <= hi
    ensures lo <= r <= hi
    ensures lo <= x <= hi ==> r == x
  {
    if x < lo then lo else if x > hi then hi else x
  }

  function Min(a: int, b: int): int { if a <= b then a else b }
  function Max(a: int, b: int): int { if a >= b then a else b }

  // ---- two's complement (`cast_signed`, `cast_unsigned`, `as` between widths) ----

  function AsSigned8(b: u8): i8 { if b < 0x80 then b else b - 0x100 }
  function AsUnsigned8(x: i8): u8 { if x >= 0 then x else x + 0x100 }
  function AsSigned16(b: u16): i16 { if b < 0x8000 then b else b - 0x1_0000 }
  function AsUnsigned16(x: i16): u16 { if x >= 0 then x else x + 0x1_0000 }
  function AsSigned32(b: u32): i32 { if b < 0x8000_0000 then b else b - 0x1_0000_0000 }
  function AsUnsigned32(x: i32): u32 { if x >= 0 then x else x + 0x1_0000_0000 }

  // ---- little-endian layouts (the `bytemuck` casts on a little-endian target) ----

  function Le16(x: u16): (b: seq<u8>)
    ensures |b| == 2
  {
    [x % 0x100, x / 0x100]
  }

  function Le32(x: u32): (b: seq<u8>)
    ensures |b| == 4
  {
    [x % 0x100, (x / 0x100) % 0x100, (x / 0x1_0000) % 0x100, x / 0x100_0000]
  }

  function FromLe16(b: seq<u8>): u16
    requires |b| == 2
  {
    b[0] as int + 0x100 * (b[1] as int)
  }

  function FromLe32(b: seq<u8>): u32
    requires |b| == 4
  {
    b[0] as int + 0x100 * (b[1] as int) + 0x1_0000 * (b[2] as int) + 0x100_0000 * (b[3] as int)
  }

  lemma Le16Inverse(x: u16)
    ensures FromLe16(Le16(x)) == x
  {
  }

  lemma Le32Inverse(x: u32)
    ensures FromLe32(Le32(x)) == x
  {
    var r0, q1 := x % 0x100, x / 0x100;
    var r1, q2 := q1 % 0x100, q1 / 0x100;
    var r2, q3 := q2 % 0x100, q2 / 0x100;
    DivModUnique(x, 0x1_0000, q2, r1 * 0x100 + r0);
    DivModUnique(x, 0x100_0000, q3, r2 * 0x1_0000 + r1 * 0x100 + r0);
    assert Le32(x) == [r0, r1, r2, q3];
  }

  lemma FromLe32Inverse(b: seq<u8>)
    requires |b| == 4
    ensures Le32(FromLe32(b)) == b
  {
    var v := FromLe32(b);
    var b0, b1, b2, b3 := b[0] as int, b[1] as int, b[2] as int, b[3] as int;
    assert v % 0x100 == b0;
    assert v / 0x100 == b1 + 0x100 * b2 + 0x1_0000 * b3;
    assert v / 0x1_0000 == b2 + 0x100 * b3;
    assert v / 0x100_0000 == b3;
  }

  /** Euclidean division is determined by any quotient/remainder pair. */
  lemma DivModUnique(v: int, d: int, q: int, r: int)
    requires d > 0 && 0 <= r < d && v == q * d + r
    ensures v / d == q && v % d == r
  {
    var q', r' := v / d, v % d;
    assert (q - q') * d == r' - r;
    if q' < q {
      MulAtLeast(q - q', d);
    } else if q < q' {
      MulAtLeast(q' - q, d);
    }
  }

  lemma MulAtLeast(k: int, d: int)
    requires k >= 1 && d > 0
    ensures k * d >= d
  {
  }

  lemma MulMonotone(i: nat, k: nat, m: nat)
    requires i <= k
    ensures i * m <= k * m
  {
  }

  lemma DivMonotone(x: nat, y: nat, d: nat)
    requires x <= y && d > 0
    ensures x / d <= y / d
  {
    var qx, qy := x / d, y / d;
    assert qx * d <= x;
    assert y < (qy + 1) * d;
    if qx > qy {
      MulMonotone(qy + 1, qx, d);
    }
  }

  /** A quotient stays below `k` exactly when the dividend stays below `k` divisors. */
  lemma DivBelow(x: nat, d: nat, k: nat)
    requires d > 0
    ensures x / d < k <==> x < k * d
  {
    var q := x / d;
    assert q * d <= x < (q + 1) * d;
    if q < k {
      MulMonotone(q + 1, k, d);
    } else {
      MulMonotone(k, q, d);
    }
  }

  /** A value already in the `i32` range is unchanged by wrapping. */
  lemma WrapI32Exact(x: int)
    requires -0x8000_0000 <= x < 0x8000_0000
    ensures WrapI32(x) == x
  {
    if x >= 0 {
      DivModUnique(x, 0x1_0000_0000, 0, x);
    } else {
      DivModUnique(x, 0x1_0000_0000, -1, x + 0x1_0000_0000);
    }
  }

  /** Counting on from a wrapped `u32` counter is counting on from the exact count. */
  lemma Wrap32Succ(n: int)
    ensures Wrap32(Wrap32(n) + 1) == Wrap32(n + 1)
  {
    var q, r := n / 0x1_0000_0000, n % 0x1_0000_0000;
    if r + 1 < 0x1_0000_0000 {
      DivModUnique(n + 1, 0x1_0000_0000, q, r + 1);
    } else {
      DivModUnique(n + 1, 0x1_0000_0000, q + 1, 0);
    }
  }

  /** Wrapping an `i32` sum: a wrapped operand can be used in place of the exact one. */
  lemma WrapI32AddWrapped(a: int, b: int)
    ensures WrapI32(a + WrapI32(b)) == WrapI32(a + b)
  {
    var w := WrapI32(b);
    var t := (w - b) / 0x1_0000_0000;
    assert w - b == t * 0x1_0000_0000;
    var m, q := (a + b) % 0x1_0000_0000, (a + b) / 0x1_0000_0000;
    DivModUnique(a + w, 0x1_0000_0000, q + t, m);
  }

  // ---- bitwise OR on non-negative integers of a given width ----

  /** `a | b` on `width`-bit unsigned integers, bit by bit from the least significant. */
  function BitOr(a: nat, b: nat, width: nat): (r: nat)
    requires a < Pow2(width) && b < Pow2(width)
    ensures r < Pow2(width)
    ensures r >= a && r >= b
    decreases width
  {
    if width == 0 then 0
    else
      var bit := if a % 2 == 1 || b % 2 == 1 then 1 else 0;
      2 * BitOr(a / 2, b / 2, width - 1) + bit
  }

  /** `a | b` on bytes. */
  function Or8(a: u8, b: u8): u8
  {
    assert Pow2(8) == 0x100;
    BitOr(a, b, 8)
  }

  /** OR of a value below 2^k with a multiple of 2^k (their set bits do not overlap) is their sum. */
  lemma {:induction false} BitOrDisjoint(a: nat, c: nat, k: nat, width: nat)
    requires a < Pow2(k) && a < Pow2(width) && c * Pow2(k) < Pow2(width)
    ensures BitOr(a, c * Pow2(k), width) == a + c * Pow2(k)
    decreases width
  {
    if width == 0 {
    } else if k == 0 {
      BitOrZero(c, width);
    } else {
      var p := Pow2(k - 1);
      assert c * Pow2(k) == 2 * (c * p);
      assert (c * Pow2(k)) / 2 == c * p;
      BitOrDisjoint(a / 2, c, k - 1, width - 1);
    }
  }

  lemma {:induction false} BitOrZero(b: nat, width: nat)
    requires b < Pow2(width)
    ensures BitOr(0, b, width) == b
    decreases width
  {
    if width > 0 {
      BitOrZero(b / 2, width - 1);
    }
  }

  /** The same for bytes, with the weight m = 2^k given as a separate (usually literal) argument. */
  lemma Or8Disjoint(a: u8, c: nat, k: nat, m: nat)
    requires m == Pow2(k) && a < m && c * m < 0x100
    ensures Or8(a, c * m) == a + c * m
  {
    assert Pow2(8) == 0x100;
    BitOrDisjoint(a, c, k, 8);
  }

  /** Bit k of x is set (`x & (1 << k) != 0`). */
  predicate HasBit(x: nat, k: nat) { (x / Pow2(k)) % 2 == 1 }

  // ---- byte-string literals (`b"..."`) ----

  /** Every character of `s` is 7-bit ASCII. */
  predicate Ascii(s: string) { forall i | 0 <= i < |s| :: s[i] as int < 0x80 }

  /** The bytes of an ASCII string literal. */
  function Bytes(s: string): (b: seq<u8>)
    requires Ascii(s)
    ensures |b| == |s| && forall i | 0 <= i < |s| :: b[i] == s[i] as int
  {
    seq(|s|, i requires 0 <= i < |s| => s[i] as int)
  }

  // ---- crate-level audio types ----

  /** `NATIVE_SAMPLE_RATE`: the sample rate the player works at. */
  const NATIVE_SAMPLE_RATE: u16 := 44100

  /** `ChNum`: mono or stereo; its discriminant is the channel count. */
  datatype ChNum = Mono | Stereo

  function ChCount(c: ChNum): nat { if c == Mono then 1 else 2 }

  /** `Bps`: bits per sample; its discriminant is the bit count. */
  datatype Bps = B8 | B16

  function Bits(b: Bps): nat { if b == B8 then 8 else 16 }
}

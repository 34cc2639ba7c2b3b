/**
 * The byte cursor every reader works through, the 7-bit little-endian
 * variable-length integer ("varint") codec and the output byte vector every
 * writer appends to.
 *
 * Each reading operation is a method on `Reader` that moves the cursor, and
 * is specified by a pure function of the data and the starting position that
 * yields the value read and the position after it (`Parse`).
 */
module Io {
  import opened Base
  import opened Errors

  /** A value read and the cursor position just after it. */
  datatype Parsed<+T> = Parsed(value: T, next: nat)

  type Parse<+T> = Result<Parsed<T>, ReadError>

  /** What a reader method's result and final cursor say, in the form of a `Parse`. */
  function Outcome<T>(r: Result<T, ReadError>, cur: nat): Parse<T>
  {
    if r.Ok? then Ok(Parsed(r.value, cur)) else Err(r.error)
  }

  /** The `amount` bytes at `cur`, or `Data` when the input ends first. */
  function Take(data: seq<u8>, cur: nat, amount: nat): (r: Parse<seq<u8>>)
    ensures cur <= |data| && r.Ok? ==> cur <= r.value.next <= |data|
  {
    if cur + amount <= |data| then Ok(Parsed(data[cur..cur + amount], cur + amount)) else Err(Data)
  }

  function ParseU8(data: seq<u8>, cur: nat): (r: Parse<u8>)
    ensures cur <= |data| && r.Ok? ==> cur <= r.value.next <= |data|
  {
    var p :- Take(data, cur, 1);
    Ok(Parsed(p.value[0], p.next))
  }

  function ParseI8(data: seq<u8>, cur: nat): (r: Parse<i8>)
    ensures cur <= |data| && r.Ok? ==> cur <= r.value.next <= |data|
  {
    var p :- Take(data, cur, 1);
    Ok(Parsed(AsSigned8(p.value[0]), p.next))
  }

  function ParseU16(data: seq<u8>, cur: nat): (r: Parse<u16>)
    ensures cur <= |data| && r.Ok? ==> cur <= r.value.next <= |data|
  {
    var p :- Take(data, cur, 2);
    Ok(Parsed(FromLe16(p.value), p.next))
  }

  function ParseU32(data: seq<u8>, cur: nat): (r: Parse<u32>)
    ensures cur <= |data| && r.Ok? ==> cur <= r.value.next <= |data|
  {
    var p :- Take(data, cur, 4);
    Ok(Parsed(FromLe32(p.value), p.next))
  }

  function ParseI32(data: seq<u8>, cur: nat): (r: Parse<i32>)
    ensures cur <= |data| && r.Ok? ==> cur <= r.value.next <= |data|
  {
    var p :- Take(data, cur, 4);
    Ok(Parsed(AsSigned32(FromLe32(p.value)), p.next))
  }

  // ---------------------------------------------------------------------
  // The varint codec
  // ---------------------------------------------------------------------

  /** `b << k` on a `u8`: b times 2^k, the bits shifted past bit 7 lost. */
  function Shl8(b: u8, k: nat): u8
    requires k < 8
  {
    if k == 0 then b
    else if k == 1 then (b * 2) % 0x100
    else if k == 2 then (b * 4) % 0x100
    else if k == 3 then (b * 8) % 0x100
    else if k == 4 then (b * 0x10) % 0x100
    else if k == 5 then (b * 0x20) % 0x100
    else if k == 6 then (b * 0x40) % 0x100
    else (b * 0x80) % 0x100
  }

  /** `b >> k`: b divided by 2^k. */
  function Shr8(b: u8, k: nat): u8
    requires k < 8
  {
    if k == 0 then b
    else if k == 1 then b / 2
    else if k == 2 then b / 4
    else if k == 3 then b / 8
    else if k == 4 then b / 0x10
    else if k == 5 then b / 0x20
    else if k == 6 then b / 0x40
    else b / 0x80
  }

  /** `b & 0x7F`: the low seven bits. */
  function Low7(b: u8): u8 { b % 0x80 }

  /** Encodes `num` in 1 to 5 bytes, seven bits per byte, least significant group first. */
  function IntToVarint(num: u32): (out: seq<u8>)
    ensures 1 <= |out| <= 5
  {
    var a := Le32(num);
    if num < 0x80 then
      [a[0]]
    else if num < 0x4000 then
      [Or8(Low7(a[0]), 0x80),
       Or8(Shr8(a[0], 7), Low7(Shl8(a[1], 1)))]
    else if num < 0x20_0000 then
      [Or8(Low7(a[0]), 0x80),
       Or8(Or8(Shr8(a[0], 7), Low7(Shl8(a[1], 1))), 0x80),
       Or8(Shr8(a[1], 6), Low7(Shl8(a[2], 2)))]
    else if num < 0x1000_0000 then
      [Or8(Low7(a[0]), 0x80),
       Or8(Or8(Shr8(a[0], 7), Low7(Shl8(a[1], 1))), 0x80),
       Or8(Or8(Shr8(a[1], 6), Low7(Shl8(a[2], 2))), 0x80),
       Or8(Shr8(a[2], 5), Low7(Shl8(a[3], 3)))]
    else
      [Or8(Low7(a[0]), 0x80),
       Or8(Or8(Shr8(a[0], 7), Low7(Shl8(a[1], 1))), 0x80),
       Or8(Or8(Shr8(a[1], 6), Low7(Shl8(a[2], 2))), 0x80),
       Or8(Or8(Shr8(a[2], 5), Low7(Shl8(a[3], 3))), 0x80),
       Shr8(a[3], 4)]
  }

  /** Decodes a buffer of 1 to 5 bytes; any other length has no value. */
  function VarintToInt(buf: seq<u8>): Option<u32>
  {
    if |buf| == 0 || |buf| > 5 then None
    else
      var b0 := if |buf| == 1 then Low7(buf[0]) else Or8(Low7(buf[0]), Shl8(buf[1], 7));
      var b1 :=
        if |buf| == 1 then 0
        else if |buf| == 2 then Shr8(Low7(buf[1]), 1)
        else Or8(Shr8(Low7(buf[1]), 1), Shl8(buf[2], 6));
      var b2 :=
        if |buf| <= 2 then 0
        else if |buf| == 3 then Shr8(Low7(buf[2]), 2)
        else Or8(Shr8(Low7(buf[2]), 2), Shl8(buf[3], 5));
      var b3 :=
        if |buf| <= 3 then 0
        else if |buf| == 4 then Shr8(Low7(buf[3]), 3)
        else Or8(Shr8(Low7(buf[3]), 3), Shl8(buf[4], 4));
      Some(FromLe32([b0, b1, b2, b3]))
  }

  // ---- reference definitions: the 7-bit groups of a number ----

  /** Weight of the k-th 7-bit group, 128^k. */
  function Radix(k: nat): nat
    requires k < 5
  {
    if k == 0 then 1
    else if k == 1 then 0x80
    else if k == 2 then 0x4000
    else if k == 3 then 0x20_0000
    else 0x1000_0000
  }

  /** Number of 7-bit groups `IntToVarint` uses for `num`. */
  function VarintLen(num: u32): nat
  {
    if num < 0x80 then 1
    else if num < 0x4000 then 2
    else if num < 0x20_0000 then 3
    else if num < 0x1000_0000 then 4
    else 5
  }

  /** The k-th 7-bit group of `num`. */
  function Group(num: u32, k: nat): nat
    requires k < 5
  {
    (num / Radix(k)) % 0x80
  }

  /**
   * The reference encoding: `VarintLen(num)` bytes, the k-th holding the k-th
   * 7-bit group of `num`, with bit 7 (the continuation flag) set on every
   * byte but the last.
   */
  function Varint(num: u32): (s: seq<u8>)
    ensures |s| == VarintLen(num)
  {
    var n := VarintLen(num);
    seq(n, k requires 0 <= k < n => Group(num, k) + (if k < n - 1 then 0x80 else 0))
  }

  lemma Pow2Values()
    ensures Pow2(1) == 2 && Pow2(2) == 4 && Pow2(3) == 8 && Pow2(4) == 16
    ensures Pow2(5) == 32 && Pow2(6) == 64 && Pow2(7) == 128
  {
  }

  /** `x | 0x80` for x below 0x80 adds the continuation flag. */
  lemma SetTop(x: u8)
    requires x < 0x80
    ensures Or8(x, 0x80) == x + 0x80
  {
    Pow2Values();
    Or8Disjoint(x, 1, 7, 0x80);
  }

  lemma Low7Shl1(lo: u8)
    ensures Low7(Shl8(lo, 1)) == (lo % 0x40) * 2
  {
    DivModUnique(lo * 2, 0x100, lo / 0x80, (lo * 2) % 0x100);
    DivModUnique(lo * 2, 0x80, lo / 0x40, (lo % 0x40) * 2);
  }

  lemma Low7Shl2(lo: u8)
    ensures Low7(Shl8(lo, 2)) == (lo % 0x20) * 4
  {
    DivModUnique(lo * 4, 0x100, lo / 0x40, (lo * 4) % 0x100);
    DivModUnique(lo * 4, 0x80, lo / 0x20, (lo % 0x20) * 4);
  }

  lemma Low7Shl3(lo: u8)
    ensures Low7(Shl8(lo, 3)) == (lo % 0x10) * 8
  {
    var h, l := lo / 0x10, lo % 0x10;
    assert lo * 8 == 0x80 * h + 8 * l;
    DivModUnique(lo * 8, 0x100, h / 2, 0x80 * (h % 2) + 8 * l);
    DivModUnique(0x80 * (h % 2) + 8 * l, 0x80, h % 2, 8 * l);
    assert Shl8(lo, 3) == 0x80 * (h % 2) + 8 * l;
  }

  /**
   * `(hi >> (8 - j)) | ((lo << j) & 0x7F)` for j = 1, 2, 3: the bits of `hi`
   * above bit 7-j followed by the low 7-j bits of `lo`.
   */
  lemma Splice1(hi: u8, lo: u8)
    ensures Or8(Shr8(hi, 7), Low7(Shl8(lo, 1))) == hi / 0x80 + 2 * (lo % 0x40)
  {
    Low7Shl1(lo);
    Pow2Values();
    Or8Disjoint(hi / 0x80, lo % 0x40, 1, 2);
    var x, y := Shr8(hi, 7), Low7(Shl8(lo, 1));
    assert x == hi / 0x80;
    assert y == (lo % 0x40) * 2;
    assert Or8(x, y) == Or8(hi / 0x80, (lo % 0x40) * 2);
  }

  lemma Splice2(hi: u8, lo: u8)
    ensures Or8(Shr8(hi, 6), Low7(Shl8(lo, 2))) == hi / 0x40 + 4 * (lo % 0x20)
  {
    Low7Shl2(lo);
    Pow2Values();
    Or8Disjoint(hi / 0x40, lo % 0x20, 2, 4);
    var x, y := Shr8(hi, 6), Low7(Shl8(lo, 2));
    assert x == hi / 0x40;
    assert y == (lo % 0x20) * 4;
    assert Or8(x, y) == Or8(hi / 0x40, (lo % 0x20) * 4);
  }

  lemma Splice3(hi: u8, lo: u8)
    ensures Or8(Shr8(hi, 5), Low7(Shl8(lo, 3))) == hi / 0x20 + 8 * (lo % 0x10)
  {
    Low7Shl3(lo);
    Pow2Values();
    Or8Disjoint(hi / 0x20, lo % 0x10, 3, 8);
    var x, y := Shr8(hi, 5), Low7(Shl8(lo, 3));
    assert x == hi / 0x20;
    assert y == (lo % 0x10) * 8;
    assert Or8(x, y) == Or8(hi / 0x20, (lo % 0x10) * 8);
  }

  /** The groups of a number in terms of its little-endian bytes. */
  lemma GroupsOfBytes(num: u32)
    ensures var a := Le32(num);
      && Group(num, 0) == a[0] % 0x80
      && Group(num, 1) == a[0] / 0x80 + 2 * (a[1] % 0x40)
      && Group(num, 2) == a[1] / 0x40 + 4 * (a[2] % 0x20)
      && Group(num, 3) == a[2] / 0x20 + 8 * (a[3] % 0x10)
      && Group(num, 4) == a[3] / 0x10
  {
    var a := Le32(num);
    Le32Inverse(num);
    var a0, a1, a2, a3 := a[0] as int, a[1] as int, a[2] as int, a[3] as int;
    assert num == a0 + 0x100 * a1 + 0x1_0000 * a2 + 0x100_0000 * a3;
    hide Le32, FromLe32;
    LowGroupsOfDigits(num, a0, a1, a2, a3);
    HighGroupsOfDigits(num, a0, a1, a2, a3);
  }

  /** Groups 0 and 1 of a number given by its four base-256 digits. */
  lemma LowGroupsOfDigits(num: nat, a0: int, a1: int, a2: int, a3: int)
    requires 0 <= a0 < 0x100 && 0 <= a1 < 0x100 && 0 <= a2 < 0x100 && 0 <= a3 < 0x100
    requires num == a0 + 0x100 * a1 + 0x1_0000 * a2 + 0x100_0000 * a3
    ensures num % 0x80 == a0 % 0x80
    ensures (num / 0x80) % 0x80 == a0 / 0x80 + 2 * (a1 % 0x40)
  {
    DivModUnique(num, 0x80, a0 / 0x80 + 2 * a1 + 0x200 * a2 + 0x2_0000 * a3, a0 % 0x80);
    var g1 := a0 / 0x80 + 2 * a1 + 0x200 * a2 + 0x2_0000 * a3;
    DivModUnique(g1, 0x80, a1 / 0x40 + 4 * a2 + 0x400 * a3, a0 / 0x80 + 2 * (a1 % 0x40));
  }

  /** Groups 2, 3 and 4 of a number given by its four base-256 digits. */
  lemma HighGroupsOfDigits(num: nat, a0: int, a1: int, a2: int, a3: int)
    requires 0 <= a0 < 0x100 && 0 <= a1 < 0x100 && 0 <= a2 < 0x100 && 0 <= a3 < 0x100
    requires num == a0 + 0x100 * a1 + 0x1_0000 * a2 + 0x100_0000 * a3
    ensures (num / 0x4000) % 0x80 == a1 / 0x40 + 4 * (a2 % 0x20)
    ensures (num / 0x20_0000) % 0x80 == a2 / 0x20 + 8 * (a3 % 0x10)
    ensures (num / 0x1000_0000) % 0x80 == a3 / 0x10
  {
    DivModUnique(num, 0x4000, a1 / 0x40 + 4 * a2 + 0x400 * a3, a0 + 0x100 * (a1 % 0x40));
    var g2 := a1 / 0x40 + 4 * a2 + 0x400 * a3;
    DivModUnique(g2, 0x80, a2 / 0x20 + 8 * a3, a1 / 0x40 + 4 * (a2 % 0x20));
    DivModUnique(num, 0x20_0000, a2 / 0x20 + 8 * a3, a0 + 0x100 * a1 + 0x1_0000 * (a2 % 0x20));
    var g3 := a2 / 0x20 + 8 * a3;
    DivModUnique(g3, 0x80, a3 / 0x10, a2 / 0x20 + 8 * (a3 % 0x10));
    DivModUnique(num, 0x1000_0000, a3 / 0x10, a0 + 0x100 * a1 + 0x1_0000 * a2 + 0x100_0000 * (a3 % 0x10));
    DivModUnique(a3 / 0x10, 0x80, 0, a3 / 0x10);
  }

  /** The bytes above the ones a short encoding covers are zero. */
  lemma HighBytesZero(num: u32)
    ensures var a := Le32(num);
      && (num < 0x80 ==> a[0] < 0x80 && a[1] == 0 && a[2] == 0 && a[3] == 0)
      && (num < 0x4000 ==> a[1] < 0x40 && a[2] == 0 && a[3] == 0)
      && (num < 0x20_0000 ==> a[2] < 0x20 && a[3] == 0)
      && (num < 0x1000_0000 ==> a[3] < 0x10)
  {
    Le32Inverse(num);
  }

  lemma Encode1(num: u32)
    requires num < 0x80
    ensures IntToVarint(num) == [Group(num, 0)]
  {
    GroupsOfBytes(num);
    HighBytesZero(num);
  }

  lemma Encode2(num: u32)
    requires 0x80 <= num < 0x4000
    ensures IntToVarint(num) == [Group(num, 0) + 0x80, Group(num, 1)]
  {
    hide Or8, Shl8, Group, Le32, VarintToInt, ParseVarint, Varint;
    var a := Le32(num);
    GroupsOfBytes(num);
    var e0 := Or8(Low7(a[0]), 0x80);
    SetTop(Low7(a[0]));
    var e1 := Or8(Shr8(a[0], 7), Low7(Shl8(a[1], 1)));
    Splice1(a[0], a[1]);
    assert IntToVarint(num) == [e0, e1];
  }

  lemma Encode3(num: u32)
    requires 0x4000 <= num < 0x20_0000
    ensures IntToVarint(num) == [Group(num, 0) + 0x80, Group(num, 1) + 0x80, Group(num, 2)]
  {
    hide Or8, Shl8, Group, Le32, VarintToInt, ParseVarint, Varint;
    var a := Le32(num);
    GroupsOfBytes(num);
    var e0 := Or8(Low7(a[0]), 0x80);
    SetTop(Low7(a[0]));
    var s1 := Or8(Shr8(a[0], 7), Low7(Shl8(a[1], 1)));
    Splice1(a[0], a[1]);
    SetTop(s1);
    var e2 := Or8(Shr8(a[1], 6), Low7(Shl8(a[2], 2)));
    Splice2(a[1], a[2]);
    assert IntToVarint(num) == [e0, Or8(s1, 0x80), e2];
  }

  lemma Encode4(num: u32)
    requires 0x20_0000 <= num < 0x1000_0000
    ensures IntToVarint(num) ==
      [Group(num, 0) + 0x80, Group(num, 1) + 0x80, Group(num, 2) + 0x80, Group(num, 3)]
  {
    hide Or8, Shl8, Group, Le32, VarintToInt, ParseVarint, Varint;
    var a := Le32(num);
    GroupsOfBytes(num);
    var e0 := Or8(Low7(a[0]), 0x80);
    SetTop(Low7(a[0]));
    var s1 := Or8(Shr8(a[0], 7), Low7(Shl8(a[1], 1)));
    Splice1(a[0], a[1]);
    SetTop(s1);
    var s2 := Or8(Shr8(a[1], 6), Low7(Shl8(a[2], 2)));
    Splice2(a[1], a[2]);
    SetTop(s2);
    var e3 := Or8(Shr8(a[2], 5), Low7(Shl8(a[3], 3)));
    Splice3(a[2], a[3]);
    assert IntToVarint(num) == [e0, Or8(s1, 0x80), Or8(s2, 0x80), e3];
  }

  lemma Encode5(num: u32)
    requires 0x1000_0000 <= num
    ensures IntToVarint(num) ==
      [Group(num, 0) + 0x80, Group(num, 1) + 0x80, Group(num, 2) + 0x80, Group(num, 3) + 0x80, Group(num, 4)]
  {
    hide Or8, Shl8, Group, Le32, VarintToInt, ParseVarint, Varint;
    var a := Le32(num);
    GroupsOfBytes(num);
    var e0 := Or8(Low7(a[0]), 0x80);
    SetTop(Low7(a[0]));
    var s1 := Or8(Shr8(a[0], 7), Low7(Shl8(a[1], 1)));
    Splice1(a[0], a[1]);
    SetTop(s1);
    var s2 := Or8(Shr8(a[1], 6), Low7(Shl8(a[2], 2)));
    Splice2(a[1], a[2]);
    SetTop(s2);
    var s3 := Or8(Shr8(a[2], 5), Low7(Shl8(a[3], 3)));
    Splice3(a[2], a[3]);
    SetTop(s3);
    assert IntToVarint(num) == [e0, Or8(s1, 0x80), Or8(s2, 0x80), Or8(s3, 0x80), Shr8(a[3], 4)];
  }

  lemma VarintShape(num: u32)
    ensures num < 0x80 ==> Varint(num) == [Group(num, 0)]
    ensures 0x80 <= num < 0x4000 ==> Varint(num) == [Group(num, 0) + 0x80, Group(num, 1)]
    ensures 0x4000 <= num < 0x20_0000 ==>
      Varint(num) == [Group(num, 0) + 0x80, Group(num, 1) + 0x80, Group(num, 2)]
    ensures 0x20_0000 <= num < 0x1000_0000 ==>
      Varint(num) == [Group(num, 0) + 0x80, Group(num, 1) + 0x80, Group(num, 2) + 0x80, Group(num, 3)]
    ensures 0x1000_0000 <= num ==>
      Varint(num) == [Group(num, 0) + 0x80, Group(num, 1) + 0x80, Group(num, 2) + 0x80, Group(num, 3) + 0x80, Group(num, 4)]
  {
  }

  /** `IntToVarint` produces exactly the reference encoding. */
  lemma IntToVarintIsVarint(num: u32)
    ensures IntToVarint(num) == Varint(num)
  {
    VarintShape(num);
    if num < 0x80 {
      Encode1(num);
    } else if num < 0x4000 {
      Encode2(num);
    } else if num < 0x20_0000 {
      Encode3(num);
    } else if num < 0x1000_0000 {
      Encode4(num);
    } else {
      Encode5(num);
    }
  }

  /**
   * `x | (y << (7 - j))` after `x >> j`, for x below 0x80 and j = 0..3: the
   * bits of x above bit j-1 followed by the low j+1 bits of y.
   */
  lemma Join0(x: u8, y: u8)
    requires x < 0x80
    ensures Or8(x, Shl8(y, 7)) == x + (y % 2) * 0x80
  {
    DivModUnique(y * 0x80, 0x100, y / 2, (y % 2) * 0x80);
    Pow2Values();
    Or8Disjoint(x, y % 2, 7, 0x80);
    var z := Shl8(y, 7);
    assert z == (y % 2) * 0x80;
    assert Or8(x, z) == Or8(x, (y % 2) * 0x80);
  }

  lemma Join1(x: u8, y: u8)
    requires x < 0x80
    ensures Or8(Shr8(x, 1), Shl8(y, 6)) == x / 2 + (y % 4) * 0x40
  {
    DivModUnique(y * 0x40, 0x100, y / 4, (y % 4) * 0x40);
    Pow2Values();
    Or8Disjoint(x / 2, y % 4, 6, 0x40);
    var w, z := Shr8(x, 1), Shl8(y, 6);
    assert w == x / 2;
    assert z == (y % 4) * 0x40;
    assert Or8(w, z) == Or8(x / 2, (y % 4) * 0x40);
  }

  lemma Join2(x: u8, y: u8)
    requires x < 0x80
    ensures Or8(Shr8(x, 2), Shl8(y, 5)) == x / 4 + (y % 8) * 0x20
  {
    DivModUnique(y * 0x20, 0x100, y / 8, (y % 8) * 0x20);
    Pow2Values();
    Or8Disjoint(x / 4, y % 8, 5, 0x20);
    var w, z := Shr8(x, 2), Shl8(y, 5);
    assert w == x / 4;
    assert z == (y % 8) * 0x20;
    assert Or8(w, z) == Or8(x / 4, (y % 8) * 0x20);
  }

  lemma Join3(x: u8, y: u8)
    requires x < 0x80
    ensures Or8(Shr8(x, 3), Shl8(y, 4)) == x / 8 + (y % 0x10) * 0x10
  {
    DivModUnique(y * 0x10, 0x100, y / 0x10, (y % 0x10) * 0x10);
    Pow2Values();
    Or8Disjoint(x / 8, y % 0x10, 4, 0x10);
    var w, z := Shr8(x, 3), Shl8(y, 4);
    assert w == x / 8;
    assert z == (y % 0x10) * 0x10;
    assert Or8(w, z) == Or8(x / 8, (y % 0x10) * 0x10);
  }

  /** An encoded byte: the group, possibly with the continuation flag. */
  predicate Carries(e: u8, g: nat)
  {
    e == g || e == g + 0x80
  }

  lemma CarriesLow7(e: u8, g: nat)
    requires g < 0x80 && Carries(e, g)
    ensures Low7(e) == g
    ensures e % 2 == g % 2 && e % 4 == g % 4 && e % 8 == g % 8 && e % 0x10 == g % 0x10
  {
  }

  /** Each byte of a little-endian `u32` comes back from the two encoded bytes that hold its bits. */
  lemma DecodeByte0(a0: u8, a1: u8, e0: u8, e1: u8)
    requires Carries(e0, a0 % 0x80) && Carries(e1, a0 / 0x80 + 2 * (a1 % 0x40))
    ensures Or8(Low7(e0), Shl8(e1, 7)) == a0
  {
    var g1 := a0 / 0x80 + 2 * (a1 % 0x40);
    CarriesLow7(e0, a0 % 0x80);
    CarriesLow7(e1, g1);
    DivModUnique(g1, 2, a1 % 0x40, a0 / 0x80);
    Join0(Low7(e0), e1);
  }

  lemma DecodeByte1(a0: u8, a1: u8, a2: u8, e1: u8, e2: u8)
    requires Carries(e1, a0 / 0x80 + 2 * (a1 % 0x40)) && Carries(e2, a1 / 0x40 + 4 * (a2 % 0x20))
    ensures Or8(Shr8(Low7(e1), 1), Shl8(e2, 6)) == a1
  {
    var g1 := a0 / 0x80 + 2 * (a1 % 0x40);
    var g2 := a1 / 0x40 + 4 * (a2 % 0x20);
    CarriesLow7(e1, g1);
    CarriesLow7(e2, g2);
    DivModUnique(g1, 2, a1 % 0x40, a0 / 0x80);
    DivModUnique(g2, 4, a2 % 0x20, a1 / 0x40);
    Join1(Low7(e1), e2);
  }

  lemma DecodeByte2(a1: u8, a2: u8, a3: u8, e2: u8, e3: u8)
    requires Carries(e2, a1 / 0x40 + 4 * (a2 % 0x20)) && Carries(e3, a2 / 0x20 + 8 * (a3 % 0x10))
    ensures Or8(Shr8(Low7(e2), 2), Shl8(e3, 5)) == a2
  {
    var g2 := a1 / 0x40 + 4 * (a2 % 0x20);
    var g3 := a2 / 0x20 + 8 * (a3 % 0x10);
    CarriesLow7(e2, g2);
    CarriesLow7(e3, g3);
    DivModUnique(g2, 4, a2 % 0x20, a1 / 0x40);
    DivModUnique(g3, 8, a3 % 0x10, a2 / 0x20);
    Join2(Low7(e2), e3);
  }

  lemma DecodeByte3(a2: u8, a3: u8, e3: u8, e4: u8)
    requires Carries(e3, a2 / 0x20 + 8 * (a3 % 0x10)) && Carries(e4, a3 / 0x10)
    ensures Or8(Shr8(Low7(e3), 3), Shl8(e4, 4)) == a3
  {
    var g3 := a2 / 0x20 + 8 * (a3 % 0x10);
    CarriesLow7(e3, g3);
    CarriesLow7(e4, a3 / 0x10);
    DivModUnique(g3, 8, a3 % 0x10, a2 / 0x20);
    assert Low7(e3) / 8 == a3 % 0x10;
    assert e4 % 0x10 == a3 / 0x10;
    Join3(Low7(e3), e4);
  }

  /** The last encoded byte alone gives back the top byte of a short number. */
  lemma DecodeLast1(lo: u8, hi: u8, e: u8)
    requires hi < 0x40 && Carries(e, lo / 0x80 + 2 * hi)
    ensures Shr8(Low7(e), 1) == hi
  {
    CarriesLow7(e, lo / 0x80 + 2 * hi);
  }

  lemma DecodeLast2(lo: u8, hi: u8, e: u8)
    requires hi < 0x20 && Carries(e, lo / 0x40 + 4 * hi)
    ensures Shr8(Low7(e), 2) == hi
  {
    CarriesLow7(e, lo / 0x40 + 4 * hi);
  }

  lemma DecodeLast3(lo: u8, hi: u8, e: u8)
    requires hi < 0x10 && Carries(e, lo / 0x20 + 8 * hi)
    ensures Shr8(Low7(e), 3) == hi
  {
    CarriesLow7(e, lo / 0x20 + 8 * hi);
  }

  lemma Decode1(num: u32)
    requires num < 0x80
    ensures VarintToInt(Varint(num)) == Some(num)
  {
    var a := Le32(num);
    VarintShape(num);
    HighBytesZero(num);
    GroupsOfBytes(num);
    var e := Varint(num);
    CarriesLow7(e[0], Group(num, 0));
    assert [Low7(e[0]), 0, 0, 0] == a;
    Le32Inverse(num);
  }

  lemma Decode2(num: u32)
    requires 0x80 <= num < 0x4000
    ensures VarintToInt(Varint(num)) == Some(num)
  {
    var a := Le32(num);
    VarintShape(num);
    HighBytesZero(num);
    var e := Varint(num);
    GroupsOfBytes(num);
    DecodeByte0(a[0], a[1], e[0], e[1]);
    DecodeLast1(a[0], a[1], e[1]);
    assert [Or8(Low7(e[0]), Shl8(e[1], 7)), Shr8(Low7(e[1]), 1), 0, 0] == a;
    Le32Inverse(num);
  }

  lemma Decode3(num: u32)
    requires 0x4000 <= num < 0x20_0000
    ensures VarintToInt(Varint(num)) == Some(num)
  {
    hide Or8, Shl8, Shr8, Low7, BitOr;
    var a := Le32(num);
    VarintShape(num);
    HighBytesZero(num);
    var e := Varint(num);
    GroupsOfBytes(num);
    DecodeByte0(a[0], a[1], e[0], e[1]);
    DecodeByte1(a[0], a[1], a[2], e[1], e[2]);
    DecodeLast2(a[1], a[2], e[2]);
    assert [Or8(Low7(e[0]), Shl8(e[1], 7)), Or8(Shr8(Low7(e[1]), 1), Shl8(e[2], 6)),
            Shr8(Low7(e[2]), 2), 0] == a;
    Le32Inverse(num);
  }

  lemma Decode4(num: u32)
    requires 0x20_0000 <= num < 0x1000_0000
    ensures VarintToInt(Varint(num)) == Some(num)
  {
    hide Or8, Shl8, Shr8, Low7, BitOr;
    var a := Le32(num);
    VarintShape(num);
    var e := Varint(num);
    GroupsOfBytes(num);
    HighBytesZero(num);
    DecodeByte0(a[0], a[1], e[0], e[1]);
    DecodeByte1(a[0], a[1], a[2], e[1], e[2]);
    DecodeByte2(a[1], a[2], a[3], e[2], e[3]);
    DecodeLast3(a[2], a[3], e[3]);
    assert [Or8(Low7(e[0]), Shl8(e[1], 7)), Or8(Shr8(Low7(e[1]), 1), Shl8(e[2], 6)),
            Or8(Shr8(Low7(e[2]), 2), Shl8(e[3], 5)), Shr8(Low7(e[3]), 3)] == a;
    Le32Inverse(num);
  }

  lemma Decode5(num: u32)
    requires 0x1000_0000 <= num
    ensures VarintToInt(Varint(num)) == Some(num)
  {
    hide Or8, Shl8, Shr8, Low7, BitOr;
    var a := Le32(num);
    VarintShape(num);
    var e := Varint(num);
    GroupsOfBytes(num);
    DecodeByte0(a[0], a[1], e[0], e[1]);
    DecodeByte1(a[0], a[1], a[2], e[1], e[2]);
    DecodeByte2(a[1], a[2], a[3], e[2], e[3]);
    DecodeByte3(a[2], a[3], e[3], e[4]);
    assert [Or8(Low7(e[0]), Shl8(e[1], 7)), Or8(Shr8(Low7(e[1]), 1), Shl8(e[2], 6)),
            Or8(Shr8(Low7(e[2]), 2), Shl8(e[3], 5)), Or8(Shr8(Low7(e[3]), 3), Shl8(e[4], 4))] == a;
    Le32Inverse(num);
  }

  /** Decoding the reference encoding of any `u32` gives it back. */
  lemma VarintDecodes(num: u32)
    ensures VarintToInt(Varint(num)) == Some(num)
  {
    if num < 0x80 {
      Decode1(num);
    } else if num < 0x4000 {
      Decode2(num);
    } else if num < 0x20_0000 {
      Decode3(num);
    } else if num < 0x1000_0000 {
      Decode4(num);
    } else {
      Decode5(num);
    }
  }

  /** The round trip: `varint_to_int(int_to_varint(n)) == n` for every `u32`. */
  lemma VarintRoundTrip(num: u32)
    ensures VarintToInt(IntToVarint(num)) == Some(num)
  {
    IntToVarintIsVarint(num);
    VarintDecodes(num);
  }

  /** `varint_to_int` has a value exactly for buffers of 1 to 5 bytes. */
  lemma VarintToIntDefined(buf: seq<u8>)
    ensures VarintToInt(buf).None? <==> |buf| == 0 || |buf| > 5
  {
  }

  // ---------------------------------------------------------------------
  // Reading a varint from the cursor
  // ---------------------------------------------------------------------

  /**
   * The bytes `next_varint` collects after having collected `got` from
   * `start`: it takes bytes until one has bit 7 clear, or until it holds five.
   */
  function ScanVarint(data: seq<u8>, start: nat, got: seq<u8>): (r: Result<seq<u8>, ReadError>)
    requires |got| <= 5
    ensures r.Ok? && start + |got| <= |data| ==> start + |r.value| <= |data|
    decreases 5 - |got|
  {
    if |got| == 5 then Ok(got)
    else if start + |got| + 1 > |data| then Err(Data)
    else
      var b := data[start + |got|];
      if b < 0x80 then Ok(got + [b]) else ScanVarint(data, start, got + [b])
  }

  /** `next_varint` as a function of the data and the cursor. */
  function ParseVarint(data: seq<u8>, cur: nat): (r: Parse<u32>)
    ensures cur <= |data| && r.Ok? ==> cur <= r.value.next <= |data|
  {
    var bytes :- ScanVarint(data, cur, []);
    var v :- DecodeVarint(bytes);
    Ok(Parsed(v, cur + |bytes|))
  }

  /** `varint_to_int(..).ok_or(ReadError)`. */
  function DecodeVarint(bytes: seq<u8>): Result<u32, ReadError>
  {
    match VarintToInt(bytes)
    case None => Err(Data)
    case Some(v) => Ok(v)
  }

  /**
   * What `ScanVarint` collects: 1 to 5 bytes read in order from `start`, every
   * byte but the last with bit 7 set, and the last with bit 7 clear unless
   * there are five. It fails only when the data ends first: fewer than five
   * bytes remain, all with bit 7 set.
   */
  lemma {:induction false} ScanVarintShape(data: seq<u8>, start: nat, got: seq<u8>)
    requires |got| <= 5 && start + |got| <= |data| && got == data[start..start + |got|]
    requires forall k :: 0 <= k < |got| ==> got[k] >= 0x80
    ensures var r := ScanVarint(data, start, got);
      r.Ok? ==>
        && 1 <= |r.value| <= 5 && start + |r.value| <= |data|
        && r.value == data[start..start + |r.value|]
        && (forall k :: 0 <= k < |r.value| - 1 ==> r.value[k] >= 0x80)
        && (|r.value| < 5 ==> r.value[|r.value| - 1] < 0x80)
    ensures var r := ScanVarint(data, start, got);
      r.Err? ==>
        && |data| < start + 5
        && forall k :: start + |got| <= k < |data| ==> data[k] >= 0x80
    decreases 5 - |got|
  {
    if |got| < 5 && start + |got| + 1 <= |data| {
      var b := data[start + |got|];
      assert data[start..start + |got| + 1] == got + [b];
      if b >= 0x80 {
        ScanVarintShape(data, start, got + [b]);
      }
    }
  }

  /**
   * `next_varint` consumes 1 to 5 bytes, stopping at the first byte with bit 7
   * clear; the value is `varint_to_int` of the bytes consumed.
   */
  lemma ParseVarintShape(data: seq<u8>, cur: nat)
    requires cur <= |data|
    ensures var r := ParseVarint(data, cur);
      r.Ok? ==>
        var n := r.value.next - cur;
        && 1 <= n <= 5 && r.value.next <= |data|
        && (forall k :: cur <= k < r.value.next - 1 ==> data[k] >= 0x80)
        && (n < 5 ==> data[r.value.next - 1] < 0x80)
        && Some(r.value.value) == VarintToInt(data[cur..r.value.next])
  {
    hide Or8, Shl8, Shr8, Low7, BitOr;
    ScanVarintShape(data, cur, []);
    var s := ScanVarint(data, cur, []);
    if s.Ok? {
      var bytes := s.value;
      VarintToIntDefined(bytes);
      forall k | cur <= k < cur + |bytes| - 1
        ensures data[k] >= 0x80
      {
        assert data[k] == bytes[k - cur];
      }
    }
  }

  /** Scanning an encoding that sits in the data stops exactly at its end. */
  lemma {:induction false} ScanVarintOfEncoding(data: seq<u8>, start: nat, num: u32, got: seq<u8>)
    requires start + VarintLen(num) <= |data| && data[start..start + VarintLen(num)] == Varint(num)
    requires |got| < VarintLen(num) && got == Varint(num)[..|got|]
    ensures ScanVarint(data, start, got) == Ok(Varint(num))
    decreases 5 - |got|
  {
    var v := Varint(num);
    var b := data[start + |got|];
    assert b == v[|got|];
    assert got + [b] == v[..|got| + 1];
    if |got| + 1 < |v| {
      assert b >= 0x80;
      ScanVarintOfEncoding(data, start, num, got + [b]);
    } else {
      assert got + [b] == v;
      assert b < 0x80 || |got + [b]| == 5;
      GroupBound(num, |got|);
    }
  }

  lemma GroupBound(num: u32, k: nat)
    requires k < 5
    ensures Group(num, k) < 0x80
  {
  }

  /**
   * Reading back what `write_varint` appended gives the same number, and the
   * cursor moves past exactly the bytes written, whatever surrounds them.
   */
  lemma ReadWrittenVarint(before: seq<u8>, num: u32, after: seq<u8>)
    ensures ParseVarint(before + IntToVarint(num) + after, |before|)
      == Ok(Parsed(num, |before| + |IntToVarint(num)|))
  {
    hide IntToVarint, ParseVarint, VarintToInt;
    var e := IntToVarint(num);
    var data := before + e + after;
    SliceOf(before, e, after, 0, |e|);
    assert e[0..|e|] == e;
    ReadVarintAt(data, |before|, num);
  }

  /** The same, for an encoding found at `cur` in any data. */
  lemma ReadVarintAt(data: seq<u8>, cur: nat, num: u32)
    requires cur + |IntToVarint(num)| <= |data| && data[cur..cur + |IntToVarint(num)|] == IntToVarint(num)
    ensures ParseVarint(data, cur) == Ok(Parsed(num, cur + |IntToVarint(num)|))
  {
    hide Or8, VarintToInt;
    IntToVarintIsVarint(num);
    ScanVarintOfEncoding(data, cur, num, []);
    VarintDecodes(num);
  }

  /** A piece found at `cur` holds its own sub-pieces at their offsets. */
  lemma SubSlice(data: seq<u8>, cur: nat, e: seq<u8>, k: nat, n: nat)
    requires cur + |e| <= |data| && data[cur..cur + |e|] == e && k + n <= |e|
    ensures data[cur + k..cur + k + n] == e[k..k + n]
  {
    var s1, s2 := data[cur + k..cur + k + n], e[k..k + n];
    forall i | 0 <= i < n
      ensures s1[i] == s2[i]
    {
      assert data[cur..cur + |e|][k + i] == e[k + i];
    }
  }

  /** A piece written between two others is found again at its offset. */
  lemma SliceOf(before: seq<u8>, e: seq<u8>, after: seq<u8>, k: nat, n: nat)
    requires k + n <= |e|
    ensures (before + e + after)[|before| + k..|before| + k + n] == e[k..k + n]
  {
  }

  /** `e` is found in `data` at `cur`. */
  predicate At(data: seq<u8>, cur: nat, e: seq<u8>)
  {
    cur + |e| <= |data| && data[cur..cur + |e|] == e
  }

  /** A concatenation found at `cur` is its first part at `cur` followed by its second part. */
  lemma AtSplit(data: seq<u8>, cur: nat, a: seq<u8>, b: seq<u8>)
    requires At(data, cur, a + b)
    ensures At(data, cur, a) && At(data, cur + |a|, b)
  {
    SubSlice(data, cur, a + b, 0, |a|);
    SubSlice(data, cur, a + b, |a|, |b|);
    assert (a + b)[0..|a|] == a;
    assert (a + b)[|a|..|a| + |b|] == b;
  }

  /** An encoding written between two pieces is found after the first. */
  lemma AtWritten(before: seq<u8>, e: seq<u8>, after: seq<u8>)
    ensures At(before + e + after, |before|, e)
  {
    assert (before + e + after)[|before|..|before| + |e|] == e;
  }

  lemma TakeAt(data: seq<u8>, cur: nat, e: seq<u8>)
    requires At(data, cur, e)
    ensures Take(data, cur, |e|) == Ok(Parsed(e, cur + |e|))
  {
  }

  lemma ReadU8At(data: seq<u8>, cur: nat, x: u8)
    requires At(data, cur, [x])
    ensures ParseU8(data, cur) == Ok(Parsed(x, cur + 1))
  {
    assert data[cur..cur + 1][0] == x;
  }

  lemma ReadI8At(data: seq<u8>, cur: nat, x: i8)
    requires At(data, cur, [AsUnsigned8(x)])
    ensures ParseI8(data, cur) == Ok(Parsed(x, cur + 1))
  {
    assert data[cur..cur + 1][0] == AsUnsigned8(x);
  }

  lemma ReadU16At(data: seq<u8>, cur: nat, x: u16)
    requires At(data, cur, Le16(x))
    ensures ParseU16(data, cur) == Ok(Parsed(x, cur + 2))
  {
    Le16Inverse(x);
  }

  lemma ReadU32At(data: seq<u8>, cur: nat, x: u32)
    requires At(data, cur, Le32(x))
    ensures ParseU32(data, cur) == Ok(Parsed(x, cur + 4))
  {
    Le32Inverse(x);
  }

  lemma ReadI32At(data: seq<u8>, cur: nat, x: i32)
    requires At(data, cur, Le32(AsUnsigned32(x)))
    ensures ParseI32(data, cur) == Ok(Parsed(x, cur + 4))
  {
    Le32Inverse(AsUnsigned32(x));
  }

  // ---------------------------------------------------------------------
  // The cursor
  // ---------------------------------------------------------------------

  /** `Reader`: the whole input and the position of the next byte to read. */
  class Reader {
    const data: seq<u8>
    var cur: nat

    constructor (data: seq<u8>)
      ensures this.data == data && cur == 0
    {
      this.data := data;
      cur := 0;
    }

    /**
     * `next::<[u8; amount]>`: the next `amount` bytes, or `Data` with the
     * cursor left where it was when fewer remain.
     */
    method Next(amount: nat) returns (r: Result<seq<u8>, ReadError>)
      modifies this`cur
      ensures Outcome(r, cur) == Take(data, old(cur), amount)
      ensures r.Ok? <==> old(cur) + amount <= |data|
      ensures r.Ok? ==> cur == old(cur) + amount
      ensures r.Err? ==> cur == old(cur)
    {
      if cur + amount <= |data| {
        r := Ok(data[cur..cur + amount]);
        cur := cur + amount;
      } else {
        r := Err(Data);
      }
    }

    method NextU8() returns (r: Result<u8, ReadError>)
      modifies this`cur
      ensures Outcome(r, cur) == ParseU8(data, old(cur))
      ensures r.Err? ==> cur == old(cur)
    {
      var b := Next(1);
      if b.Err? { return Err(b.error); }
      r := Ok(b.value[0]);
    }

    method NextI8() returns (r: Result<i8, ReadError>)
      modifies this`cur
      ensures Outcome(r, cur) == ParseI8(data, old(cur))
      ensures r.Err? ==> cur == old(cur)
    {
      var b := Next(1);
      if b.Err? { return Err(b.error); }
      r := Ok(AsSigned8(b.value[0]));
    }

    method NextU16() returns (r: Result<u16, ReadError>)
      modifies this`cur
      ensures Outcome(r, cur) == ParseU16(data, old(cur))
      ensures r.Err? ==> cur == old(cur)
    {
      var b := Next(2);
      if b.Err? { return Err(b.error); }
      r := Ok(FromLe16(b.value));
    }

    method NextU32() returns (r: Result<u32, ReadError>)
      modifies this`cur
      ensures Outcome(r, cur) == ParseU32(data, old(cur))
      ensures r.Err? ==> cur == old(cur)
    {
      var b := Next(4);
      if b.Err? { return Err(b.error); }
      r := Ok(FromLe32(b.value));
    }

    method NextI32() returns (r: Result<i32, ReadError>)
      modifies this`cur
      ensures Outcome(r, cur) == ParseI32(data, old(cur))
      ensures r.Err? ==> cur == old(cur)
    {
      var b := Next(4);
      if b.Err? { return Err(b.error); }
      r := Ok(AsSigned32(FromLe32(b.value)));
    }

    /**
     * `fill_slice`: copies the next `dst.Length` bytes into `dst`; when fewer
     * remain, fails with neither the cursor nor `dst` changed.
     */
    method FillSlice(dst: array<u8>) returns (r: Result<(), ReadError>)
      modifies this`cur, dst
      ensures r.Ok? <==> old(cur) + dst.Length <= |data|
      ensures r.Ok? ==> cur == old(cur) + dst.Length && dst[..] == data[old(cur)..cur]
      ensures r.Err? ==> cur == old(cur) && dst[..] == old(dst[..])
    {
      var amount := dst.Length;
      if cur + amount > |data| {
        return Err(Data);
      }
      var src := data[cur..cur + amount];
      forall i | 0 <= i < amount {
        dst[i] := src[i];
      }
      cur := cur + amount;
      r := Ok(());
    }

    /**
     * `next_varint`: reads bytes until one has bit 7 clear or five have been
     * read, then decodes them.
     */
    method NextVarint() returns (r: Result<u32, ReadError>)
      modifies this`cur
      ensures Outcome(r, cur) == ParseVarint(data, old(cur))
      ensures r.Err? ==> cur == Max(old(cur), |data|)
    {
      hide VarintToInt;
      var start := cur;
      var a: seq<u8> := [];
      var count := 0;
      while count < 5
        invariant count == |a| <= 5
        invariant cur == start + count
        invariant ScanVarint(data, start, []) == ScanVarint(data, start, a)
        invariant start + count <= |data| ==> a == data[start..cur]
        invariant count > 0 ==> start + count <= |data|
        decreases 5 - count
      {
        var byte := NextU8();
        if byte.Err? {
          return Err(Data);
        }
        assert byte.value == data[start + count];
        assert data[start..cur] == data[start..start + count] + [data[start + count]];
        a := a + [byte.value];
        if byte.value < 0x80 {
          break;
        }
        count := count + 1;
      }
      assert ScanVarint(data, start, []) == Ok(a);
      VarintToIntDefined(a);
      r := DecodeVarint(a);
    }
  }

  // ---------------------------------------------------------------------
  // The output vector
  // ---------------------------------------------------------------------

  /** The `Vec<u8>` every writer appends to. */
  class ByteVec {
    var bytes: seq<u8>

    constructor ()
      ensures bytes == []
    {
      bytes := [];
    }

    /** `extend_from_slice`. */
    method Extend(s: seq<u8>)
      modifies this
      ensures bytes == old(bytes) + s
    {
      bytes := bytes + s;
    }

    /** `push`. */
    method Push(b: u8)
      modifies this
      ensures bytes == old(bytes) + [b]
    {
      bytes := bytes + [b];
    }

    /** `out[at..at + s.len()].copy_from_slice(s)`: a back-patch; it panics past the end. */
    method Patch(at: nat, s: seq<u8>)
      requires at + |s| <= |bytes|
      modifies this
      ensures bytes == old(bytes)[..at] + s + old(bytes)[at + |s|..]
      ensures |bytes| == |old(bytes)|
    {
      bytes := bytes[..at] + s + bytes[at + |s|..];
    }
  }

  /** `write_varint`: appends the encoding of `num`, leaving what was already written unchanged. */
  method WriteVarint(num: u32, out: ByteVec)
    modifies out
    ensures out.bytes == old(out.bytes) + IntToVarint(num)
    ensures out.bytes[..|old(out.bytes)|] == old(out.bytes)
  {
    var v := IntToVarint(num);
    out.Extend(v);
  }

  // ---- fixed-width values read back ----

  lemma ReadWrittenU8(before: seq<u8>, x: u8, after: seq<u8>)
    ensures ParseU8(before + [x] + after, |before|) == Ok(Parsed(x, |before| + 1))
  {
    assert (before + [x] + after)[|before|..|before| + 1] == [x];
  }

  lemma ReadWrittenI8(before: seq<u8>, x: i8, after: seq<u8>)
    ensures ParseI8(before + [AsUnsigned8(x)] + after, |before|) == Ok(Parsed(x, |before| + 1))
  {
    assert (before + [AsUnsigned8(x)] + after)[|before|..|before| + 1] == [AsUnsigned8(x)];
  }

  lemma ReadWrittenU16(before: seq<u8>, x: u16, after: seq<u8>)
    ensures ParseU16(before + Le16(x) + after, |before|) == Ok(Parsed(x, |before| + 2))
  {
    assert (before + Le16(x) + after)[|before|..|before| + 2] == Le16(x);
    Le16Inverse(x);
  }

  lemma ReadWrittenU32(before: seq<u8>, x: u32, after: seq<u8>)
    ensures ParseU32(before + Le32(x) + after, |before|) == Ok(Parsed(x, |before| + 4))
  {
    assert (before + Le32(x) + after)[|before|..|before| + 4] == Le32(x);
    Le32Inverse(x);
  }

  lemma ReadWrittenI32(before: seq<u8>, x: i32, after: seq<u8>)
    ensures ParseI32(before + Le32(AsUnsigned32(x)) + after, |before|) == Ok(Parsed(x, |before| + 4))
  {
    ReadWrittenU32(before, AsUnsigned32(x), after);
  }
}

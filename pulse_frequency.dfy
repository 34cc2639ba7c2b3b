/**
 * The pulse frequency table: 16 octaves of 12 keys, each key divided into
 * 16 steps, and the two ways a key is turned into a table index. The
 * table's values (frequency ratios computed in floating point) are carried
 * as opaque `f32` bit patterns.
 */
module PulseFrequency {
  import opened Base

  const OCTAVE_NUM: nat := 16
  const KEY_PER_OCTAVE: nat := 12
  const FREQUENCY_PER_KEY: nat := 0x10
  const TABLE_SIZE: nat := OCTAVE_NUM * KEY_PER_OCTAVE * FREQUENCY_PER_KEY

  /** A `usize` on a 64-bit target. */
  type usize = u64

  const USIZE_MODULUS: nat := 0x1_0000_0000_0000_0000

  /** `k as usize` for a signed integer: two's complement sign extension. */
  function AsUsize(k: int): (u: usize)
    requires -0x8000_0000_0000_0000 <= k < 0x8000_0000_0000_0000
    ensures k >= 0 ==> u == k
    ensures k < 0 ==> u == k + USIZE_MODULUS
  {
    if k >= 0 then k else k + USIZE_MODULUS
  }

  /**
   * `get`'s index: `(key + 0x6000) * 16 / 0x100` with wrapping `usize`
   * arithmetic, then lowered to the last index when it is past the table.
   */
  function GetIndex(key: usize): (i: nat)
    ensures i < TABLE_SIZE
  {
    var raw := Wrap64(Wrap64(key + 0x6000) * FREQUENCY_PER_KEY) / 0x100;
    if raw >= TABLE_SIZE then TABLE_SIZE - 1 else raw
  }

  /** `get2`'s index: `key >> 4`, lowered to the last index when it is past the table. */
  function Get2Index(key: usize): (i: nat)
    ensures i < TABLE_SIZE
  {
    var raw := key / 0x10;
    if raw >= TABLE_SIZE then TABLE_SIZE - 1 else raw
  }

  /** `PulseFrequency`: the table, one `f32` bit pattern per entry. */
  datatype PulseFrequency = PulseFrequency(table: seq<u32>)
  {
    predicate Valid()
    {
      |table| == TABLE_SIZE
    }

    /** `get`: the entry at `GetIndex(key)`, which is always inside the table. */
    function Get(key: usize): u32
      requires Valid()
    {
      table[GetIndex(key)]
    }

    /** `get2`: the entry at `Get2Index(key)`, which is always inside the table. */
    function Get2(key: usize): u32
      requires Valid()
    {
      table[Get2Index(key)]
    }
  }

  /** The table has 16 × 12 × 16 = 3072 entries; `generate` visits octave `i / 192` for entry `i`. */
  lemma TableShape()
    ensures TABLE_SIZE == 3072
    ensures forall i :: 0 <= i < TABLE_SIZE ==> i / (KEY_PER_OCTAVE * FREQUENCY_PER_KEY) < OCTAVE_NUM
  {
  }

  /**
   * While `key + 0x6000` stays below 2^60 nothing wraps, and `get` reads
   * entry `(key + 0x6000) / 16`, or the last one when that is past the
   * table.
   */
  lemma GetIndexUnwrapped(key: usize)
    requires key + 0x6000 < 0x1000_0000_0000_0000
    ensures GetIndex(key) == Min((key + 0x6000) / 0x10, TABLE_SIZE - 1)
  {
    var x := key + 0x6000;
    assert Wrap64(x) == x;
    assert Wrap64(x * 0x10) == x * 0x10;
    DivModUnique(x * 0x10, 0x100, x / 0x10, (x % 0x10) * 0x10);
  }

  /**
   * A negative key down to -0x6000, cast `as usize`, wraps back into
   * range: the addition cancels the sign extension, so `get` reads entry
   * `(key + 0x6000) / 16` as if the key were signed.
   */
  lemma GetIndexNegative(k: int)
    requires -0x6000 <= k < 0
    ensures GetIndex(AsUsize(k)) == (k + 0x6000) / 0x10
  {
    var key: int := AsUsize(k);
    var m := k + 0x6000;
    DivModUnique(key + 0x6000, USIZE_MODULUS, 1, m);
    assert Wrap64(key + 0x6000) == m;
    assert Wrap64(m * 0x10) == m * 0x10;
    DivModUnique(m * 0x10, 0x100, m / 0x10, (m % 0x10) * 0x10);
    assert m / 0x10 < TABLE_SIZE;
  }

  /**
   * A key below -0x6000, cast `as usize`, does not: the sum stays negative,
   * wraps to a value near 2^64, and `get` reads the last entry of the
   * table, the highest ratio, instead of the first.
   */
  lemma GetIndexBelowRange(k: int)
    requires -0x0800_0000_0000_0000 <= k < -0x6000
    ensures GetIndex(AsUsize(k)) == TABLE_SIZE - 1
  {
    var key: int := AsUsize(k);
    var m := k + 0x6000;
    DivModUnique(key + 0x6000, USIZE_MODULUS, 0, USIZE_MODULUS + m);
    assert Wrap64(key + 0x6000) == USIZE_MODULUS + m;
    DivModUnique((USIZE_MODULUS + m) * 0x10, USIZE_MODULUS, 0xF, USIZE_MODULUS + 0x10 * m);
    assert Wrap64((USIZE_MODULUS + m) * 0x10) == USIZE_MODULUS + 0x10 * m;
    assert USIZE_MODULUS + 0x10 * m >= 0x8000_0000_0000_0000;
    DivMonotone(0x8000_0000_0000_0000, USIZE_MODULUS + 0x10 * m, 0x100);
  }

  /** `get2` reads entry `key / 16` inside the table and the last entry past it. */
  lemma Get2IndexMeaning(key: usize)
    ensures key < TABLE_SIZE * 0x10 ==> Get2Index(key) == key / 0x10
    ensures key >= TABLE_SIZE * 0x10 ==> Get2Index(key) == TABLE_SIZE - 1
  {
  }

  /** A larger key never reads an earlier entry through `get2`. */
  lemma Get2IndexMonotone(k1: usize, k2: usize)
    requires k1 <= k2
    ensures Get2Index(k1) <= Get2Index(k2)
  {
    DivMonotone(k1, k2, 0x10);
  }

  /** Below the wrap-around, a larger key never reads an earlier entry through `get`. */
  lemma GetIndexMonotone(k1: usize, k2: usize)
    requires k1 <= k2 && k2 + 0x6000 < 0x1000_0000_0000_0000
    ensures GetIndex(k1) <= GetIndex(k2)
  {
    GetIndexUnwrapped(k1);
    GetIndexUnwrapped(k2);
    DivMonotone(k1 + 0x6000, k2 + 0x6000, 0x10);
  }

  /** Every index past the table reads the last entry, through either lookup. */
  lemma PastTableReadsLast(pf: PulseFrequency, key: usize)
    requires pf.Valid()
    ensures key / 0x10 >= TABLE_SIZE ==> pf.Get2(key) == pf.table[TABLE_SIZE - 1]
    ensures Wrap64(Wrap64(key + 0x6000) * FREQUENCY_PER_KEY) / 0x100 >= TABLE_SIZE ==>
      pf.Get(key) == pf.table[TABLE_SIZE - 1]
  {
  }
}

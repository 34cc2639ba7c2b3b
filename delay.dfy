/**
 * The delay (echo) effect: a ring buffer per channel whose current slot is
 * mixed into a sample group and then overwritten with the group's new value.
 *
 * The buffer length comes from a floating-point formula over the tempo, the
 * sample rate and the frequency; `Rebuild` takes that formula's truncated
 * result as a parameter and keeps the integer checks around it.
 */
module Delay {
  import opened Base
  import opened F32
  import Unit

  /** `DelayUnit`: what the frequency is counted in; its file code is the discriminant. */
  datatype DelayUnit = Beat | Meas | Second

  /** The fields a delay chunk stores: unit, group, rate (a percentage) and frequency (`f32` bits). */
  datatype DelayConfig = DelayConfig(unit: DelayUnit, group: u8, rate: u8, freq: u32)

  /** `MAX_BUF_LEN`: 2^24 samples. */
  const MAX_BUF_LEN: nat := 16_777_216

  datatype BufLenError = TooLarge | ZeroFreq

  /**
   * `calc_buf_len`, given `size`, the value its floating-point formula
   * yields: a zero frequency is refused before the formula is used, and a
   * length above `MAX_BUF_LEN` is refused after.
   */
  function CalcBufLen(freq: u32, size: nat): (r: Result<nat, BufLenError>)
    ensures r.Ok? <==> !IsZero(freq) && size <= MAX_BUF_LEN
    ensures r.Ok? ==> r.value == size
    ensures IsZero(freq) ==> r == Err(ZeroFreq)
    ensures !IsZero(freq) && size > MAX_BUF_LEN ==> r == Err(TooLarge)
  {
    if IsZero(freq) then Err(ZeroFreq)
    else if size > MAX_BUF_LEN then Err(TooLarge)
    else Ok(size)
  }

  /**
   * The new value of the group slot in `tone_supple`: the buffered sample
   * times the rate, divided by 100 toward zero, added to the slot, all in
   * wrapping `i32` arithmetic.
   */
  function Mix(acc: i32, sample: i32, rate: u8): i32
  {
    WrapI32(acc + TruncDiv(WrapI32(sample * rate), 100))
  }

  /** Without overflow, the slot simply gains `sample * rate / 100`. */
  lemma MixExact(acc: i32, sample: i32, rate: u8)
    requires -0x80_0000 <= sample < 0x80_0000 && -0x4000_0000 <= acc < 0x4000_0000
    ensures Mix(acc, sample, rate) == acc + TruncDiv(sample * rate, 100)
  {
    var prod := sample * rate;
    ProductBound(sample, rate);
    WrapI32Exact(prod);
    var q := TruncDiv(prod, 100);
    assert -0x200_0000 <= q <= 0x200_0000 by {
      if prod >= 0 {
        assert q == prod / 100;
      } else {
        assert q == -((-prod) / 100);
      }
    }
    WrapI32Exact(acc + q);
  }

  lemma ProductBound(sample: int, rate: u8)
    requires -0x80_0000 <= sample < 0x80_0000
    ensures -0x8000_0000 <= sample * rate < 0x8000_0000
  {
    if sample >= 0 {
      MulLe(sample, rate, 0x80_0000, 0xFF);
    } else {
      MulLe(-sample, rate, 0x80_0000, 0xFF);
      assert sample * rate == -((-sample) * rate);
    }
  }

  lemma MulLe(a: nat, b: nat, c: nat, d: nat)
    requires a <= c && b <= d
    ensures a * b <= c * d
  {
    assert a * b <= c * b;
    assert c * b <= c * d;
  }

  /** The offset after one `tone_increment` over buffers of length `len`. */
  function Advance(offset: nat, len: nat): (r: nat)
    ensures r < len || r == 0
  {
    if offset + 1 >= len then 0 else offset + 1
  }

  /** The offset after n increments. */
  function AdvanceN(offset: nat, len: nat, n: nat): nat
  {
    if n == 0 then offset else Advance(AdvanceN(offset, len, n - 1), len)
  }

  /** Starting from slot 0, n increments land on slot n mod len: the ring visits every slot in turn. */
  lemma {:induction false} AdvanceFromZero(len: nat, n: nat)
    requires len > 0
    ensures AdvanceN(0, len, n) == n % len
  {
    if n > 0 {
      AdvanceFromZero(len, n - 1);
      var p, q := (n - 1) % len, (n - 1) / len;
      assert n - 1 == q * len + p;
      assert AdvanceN(0, len, n) == Advance(p, len);
      hide AdvanceN;
      if p + 1 < len {
        DivModUnique(n, len, q, p + 1);
      } else {
        assert n == q * len + len;
        assert q * len + len == (q + 1) * len;
        DivModUnique(n, len, q + 1, 0);
      }
    }
  }

  /** The fields of a `Delay`. */
  datatype DelayState = DelayState(config: DelayConfig, offset: nat, bufs: seq<seq<i32>>)

  /** Both channels' buffers exist and have the same length. */
  predicate WellFormed(d: DelayState)
  {
    |d.bufs| == 2 && |d.bufs[0]| == |d.bufs[1]|
  }

  /**
   * `tone_supple` on values: the delay and the group slots after mixing
   * channel `ch`.
   */
  function SuppleOf(d: DelayState, ch: nat, g: seq<i32>): (DelayState, seq<i32>)
    requires WellFormed(d) && ch < 2 && |g| == Unit.GROUP_NUM && d.config.group < Unit.GROUP_NUM
  {
    if d.offset >= |d.bufs[ch]| then (d.(offset := 0), g)
    else
      var v: i32 := Mix(g[d.config.group], d.bufs[ch][d.offset], d.config.rate);
      var buf: seq<i32> := d.bufs[ch][d.offset := v];
      (d.(bufs := d.bufs[ch := buf]), g[d.config.group := v])
  }

  /** `tone_supple` keeps the buffers' shape and the configuration, and changes only its own group slot. */
  lemma SuppleKeepsShape(d: DelayState, ch: nat, g: seq<i32>)
    requires WellFormed(d) && ch < 2 && |g| == Unit.GROUP_NUM && d.config.group < Unit.GROUP_NUM
    ensures var (e, h) := SuppleOf(d, ch, g);
            && WellFormed(e) && e.config == d.config && |e.bufs[0]| == |d.bufs[0]|
            && |h| == |g| && forall k | 0 <= k < |g| && k != d.config.group :: h[k] == g[k]
  {
  }

  /** `tone_increment` on values. */
  function IncrementOf(d: DelayState): (r: DelayState)
    requires WellFormed(d)
    ensures WellFormed(r)
  {
    d.(offset := Advance(d.offset, |d.bufs[0]|))
  }

  /** `Delay`: the stored configuration and the ring buffers with their shared offset. */
  class Delay {
    var unit: DelayUnit
    var group: u8
    var rate: u8
    var freq: u32
    var offset: nat
    /** `bufs`: one buffer per channel. */
    var bufs: seq<seq<i32>>

    /** Both channels' buffers exist and have the same length, as `Rebuild` keeps them. */
    predicate Valid()
      reads this
    {
      WellFormed(State())
    }

    function Config(): DelayConfig
      reads this
    {
      DelayConfig(unit, group, rate, freq)
    }

    function State(): DelayState
      reads this
    {
      DelayState(Config(), offset, bufs)
    }

    /** A delay as `read_delay` creates it: the stored fields, offset 0 and empty buffers. */
    constructor (c: DelayConfig)
      ensures Valid() && Config() == c && offset == 0 && bufs == [[], []]
    {
      unit, group, rate, freq := c.unit, c.group, c.rate, c.freq;
      offset := 0;
      bufs := [[], []];
    }

    /**
     * `rebuild`, given the truncated result `size` of the length formula:
     * the offset returns to 0; a valid length replaces both buffers by
     * zero-filled ones, and a refused one leaves them as they were.
     */
    method Rebuild(size: nat)
      requires Valid()
      modifies this
      ensures Valid() && Config() == old(Config()) && offset == 0
      ensures CalcBufLen(freq, size).Ok? ==> bufs == [seq(size, _ => 0), seq(size, _ => 0)]
      ensures CalcBufLen(freq, size).Err? ==> bufs == old(bufs)
    {
      offset := 0;
      var len := CalcBufLen(freq, size);
      if len.Ok? {
        bufs := [seq(len.value, _ => 0), seq(len.value, _ => 0)];
      }
    }

    /**
     * `tone_supple` for channel `ch`: when the offset is past the buffer it
     * returns to 0 and nothing else changes; otherwise the buffered sample is
     * mixed into this delay's group slot, and that slot's new value replaces
     * the buffered sample. No other slot and no other buffer entry changes.
     * An index past the seven groups panics in the source, hence the
     * precondition on `group`.
     */
    method ToneSupple(ch: nat, groupSmps: array<i32>)
      requires Valid() && ch < 2 && groupSmps.Length == Unit.GROUP_NUM && group < Unit.GROUP_NUM
      modifies this, groupSmps
      ensures Valid() && Config() == old(Config())
      ensures old(offset) >= |old(bufs[ch])| ==>
                offset == 0 && bufs == old(bufs) && groupSmps[..] == old(groupSmps[..])
      ensures old(offset) < |old(bufs[ch])| ==>
                offset == old(offset) &&
                groupSmps[..] == old(groupSmps[..])[group := Mix(old(groupSmps[group]), old(bufs[ch][offset]), rate)] &&
                bufs == old(bufs)[ch := old(bufs[ch])[offset := groupSmps[group]]]
      ensures (State(), groupSmps[..]) == SuppleOf(old(State()), ch, old(groupSmps[..]))
    {
      if offset >= |bufs[ch]| {
        offset := 0;
        return;
      }
      var sample := bufs[ch][offset];
      groupSmps[group] := Mix(groupSmps[group], sample, rate);
      bufs := bufs[ch := bufs[ch][offset := groupSmps[group]]];
    }

    /** `tone_increment`: the offset moves to the next slot, wrapping to 0 at the end of the buffer. */
    method ToneIncrement()
      requires Valid()
      modifies this`offset
      ensures offset == Advance(old(offset), |bufs[0]|)
      ensures offset < |bufs[0]| || offset == 0
      ensures State() == IncrementOf(old(State()))
    {
      offset := offset + 1;
      if offset >= |bufs[0]| {
        offset := 0;
      }
    }
  }
}

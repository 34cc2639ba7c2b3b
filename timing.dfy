/**
 * Ticks, measures and the conversions between them.
 *
 * `bpm` is an `f32` in the source; it is carried here as its IEEE-754 bit
 * pattern and never computed with. The sample conversions (`samples_per_tick`,
 * `tick_to_sample`, `meas_to_sample`) are floating point and are not part of
 * this module.
 */
module Timing {
  import opened Base

  /** Timing information: ticks per beat, tempo (as `f32` bits) and beats per measure. */
  datatype Timing = Timing(ticksPerBeat: u16, bpm: u32, beatsPerMeas: u8)

  const DEFAULT_BEATS_PER_MEAS: u8 := 4
  /** The bit pattern of the `f32` value 120.0. */
  const DEFAULT_BPM: u32 := 0x42F0_0000
  const DEFAULT_TICKS_PER_BEAT: u16 := 480

  /** `Timing::default()`: 480 ticks per beat, 120 beats per minute, 4 beats per measure. */
  function DefaultTiming(): (t: Timing)
    ensures t.ticksPerBeat == 480 && t.beatsPerMeas == 4 && t.bpm == DEFAULT_BPM
    ensures Divisible(t)
  {
    Timing(DEFAULT_TICKS_PER_BEAT, DEFAULT_BPM, DEFAULT_BEATS_PER_MEAS)
  }

  /** Both divisors of `tick_to_meas` are non-zero (`div_ceil` panics on a zero divisor). */
  predicate Divisible(t: Timing)
  {
    t.ticksPerBeat > 0 && t.beatsPerMeas > 0
  }

  /** Ticks in one measure, without the 32-bit truncation `meas_to_tick` applies. */
  function TicksPerMeas(t: Timing): nat
  {
    t.ticksPerBeat * t.beatsPerMeas
  }

  /** `u32::div_ceil`: the least q with q * b >= a. */
  function DivCeil(a: nat, b: nat): nat
    requires b > 0
  {
    a / b + (if a % b == 0 then 0 else 1)
  }

  lemma DivCeilLeast(a: nat, b: nat)
    requires b > 0
    ensures DivCeil(a, b) * b >= a
    ensures DivCeil(a, b) > 0 ==> (DivCeil(a, b) - 1) * b < a
  {
    var q, r := a / b, a % b;
    assert a == q * b + r;
    if r != 0 {
      assert DivCeil(a, b) * b == q * b + b;
    } else if q > 0 {
      assert (q - 1) * b == q * b - b;
    }
  }

  /** `tick_to_meas`: the number of whole measures needed to reach `tick`, rounding up twice. */
  function TickToMeas(tick: u32, t: Timing): u32
    requires Divisible(t)
  {
    DivCeil(DivCeil(tick, t.ticksPerBeat), t.beatsPerMeas)
  }

  /** `meas_to_tick`: `meas * ticks_per_beat * beats_per_meas` in `u32`, wrapping in a release build. */
  function MeasToTick(meas: u32, t: Timing): u32
  {
    Wrap32(meas * t.ticksPerBeat * t.beatsPerMeas)
  }

  /** A measure count whose tick count fits in a `u32`. */
  predicate MeasFits(meas: nat, t: Timing)
  {
    meas * TicksPerMeas(t) < 0x1_0000_0000
  }

  lemma MulAssoc(m: nat, a: nat, b: nat)
    ensures m * a * b == m * (a * b)
  {
  }

  /** Without wrap-around, `meas_to_tick` is the measure count times the ticks per measure. */
  lemma MeasToTickExact(meas: u32, t: Timing)
    requires MeasFits(meas, t)
    ensures MeasToTick(meas, t) == meas * TicksPerMeas(t)
  {
    MulAssoc(meas, t.ticksPerBeat, t.beatsPerMeas);
  }

  /** `tick_to_meas` is zero exactly at tick zero. */
  lemma TickToMeasZero(tick: u32, t: Timing)
    requires Divisible(t)
    ensures TickToMeas(tick, t) == 0 <==> tick == 0
  {
  }

  lemma DivCeilMonotone(a1: nat, a2: nat, b: nat)
    requires b > 0 && a1 <= a2
    ensures DivCeil(a1, b) <= DivCeil(a2, b)
  {
    var q1, q2 := DivCeil(a1, b), DivCeil(a2, b);
    DivCeilLeast(a1, b);
    DivCeilLeast(a2, b);
    if q1 > q2 {
      assert (q1 - 1) * b < a1;
      MulMonotone(q2, q1 - 1, b);
    }
  }

  /** `tick_to_meas` is monotone in the tick. */
  lemma TickToMeasMonotone(t1: u32, t2: u32, t: Timing)
    requires Divisible(t) && t1 <= t2
    ensures TickToMeas(t1, t) <= TickToMeas(t2, t)
  {
    DivCeilMonotone(t1, t2, t.ticksPerBeat);
    DivCeilMonotone(DivCeil(t1, t.ticksPerBeat), DivCeil(t2, t.ticksPerBeat), t.beatsPerMeas);
  }

  /**
   * `tick_to_meas(t)` is the least measure count whose ticks cover t: its
   * ticks reach t and one measure fewer does not.
   */
  lemma TickToMeasCovers(tick: u32, t: Timing)
    requires Divisible(t)
    ensures TickToMeas(tick, t) * TicksPerMeas(t) >= tick
    ensures TickToMeas(tick, t) > 0 ==> (TickToMeas(tick, t) - 1) * TicksPerMeas(t) < tick
  {
    var a, b := t.ticksPerBeat as nat, t.beatsPerMeas as nat;
    var beats := DivCeil(tick, a);
    var m := DivCeil(beats, b);
    DivCeilLeast(tick, a);
    DivCeilLeast(beats, b);
    CoverStep(tick, a, b, beats, m);
    if m > 0 {
      LeastStep(tick, a, b, beats, m);
    }
  }

  lemma CoverStep(tick: nat, a: nat, b: nat, beats: nat, m: nat)
    requires beats * a >= tick && m * b >= beats
    ensures m * (a * b) >= tick
  {
    MulMonotone(beats, m * b, a);
    MulAssoc(m, b, a);
    assert a * b == b * a;
  }

  lemma LeastStep(tick: nat, a: nat, b: nat, beats: nat, m: nat)
    requires m > 0 && beats > 0 && (beats - 1) * a < tick && (m - 1) * b < beats
    ensures (m - 1) * (a * b) < tick
  {
    var k := m - 1;
    MulMonotone(k * b, beats - 1, a);
    MulAssoc(k, b, a);
    assert a * b == b * a;
  }

  /** Converting whole measures to ticks and back is the identity when the ticks fit in a `u32`. */
  lemma TickToMeasOfMeasToTick(meas: u32, t: Timing)
    requires Divisible(t) && MeasFits(meas, t)
    ensures TickToMeas(MeasToTick(meas, t), t) == meas
  {
    MeasToTickExact(meas, t);
    var tick := MeasToTick(meas, t);
    var a, b := t.ticksPerBeat as nat, t.beatsPerMeas as nat;
    MulAssoc(meas, a, b);
    assert tick == (meas * b) * a by {
      assert meas * (a * b) == (meas * b) * a;
    }
    DivModUnique(tick, a, meas * b, 0);
    assert DivCeil(tick, a) == meas * b;
    DivModUnique(meas * b, b, meas, 0);
  }

  /** Rounding up to a whole measure never moves a tick backwards. */
  lemma MeasToTickOfTickToMeas(tick: u32, t: Timing)
    requires Divisible(t) && MeasFits(TickToMeas(tick, t), t)
    ensures MeasToTick(TickToMeas(tick, t), t) >= tick
  {
    TickToMeasCovers(tick, t);
    MeasToTickExact(TickToMeas(tick, t), t);
  }
}

/**
 * The master chunk: the song's timing, its loop points in whole measures and
 * the measure count playback runs to.
 */
module Master {
  import opened Base
  import opened Errors
  import opened Io
  import opened Timing

  /**
   * `LoopPoints`: the measure playback repeats from, and the last measure
   * played (`None`: until the last event). `last` is a `NonZeroMeas`, so a
   * present value is never zero (see `ValidLoopPoints`).
   */
  datatype LoopPoints = LoopPoints(repeat: u32, last: Option<u32>)

  predicate ValidLoopPoints(lp: LoopPoints)
  {
    lp.last.Some? ==> lp.last.value > 0
  }

  /** `NonZeroMeas::new`. */
  function NonZeroMeas(m: u32): Option<u32>
  {
    if m == 0 then None else Some(m)
  }

  /** The value of a `Master`. */
  datatype MasterState = MasterState(timing: Timing, loopPoints: LoopPoints, measNum: u32)

  /** `Master::default()`. */
  function DefaultMaster(): MasterState
  {
    MasterState(DefaultTiming(), LoopPoints(0, None), 1)
  }

  /** `LoopPoints::from_ticks`: both ticks rounded up to whole measures; a last measure of zero means none. */
  function FromTicks(repeat: u32, last: u32, timing: Timing): LoopPoints
    requires Divisible(timing)
  {
    LoopPoints(TickToMeas(repeat, timing), NonZeroMeas(TickToMeas(last, timing)))
  }

  /**
   * `from_ticks` yields valid loop points: `last` is absent exactly when the
   * last tick is zero, each measure is the least one whose start is at or
   * past its tick, and nothing relates repeat to last.
   */
  lemma FromTicksMeaning(repeat: u32, last: u32, timing: Timing)
    requires Divisible(timing)
    ensures ValidLoopPoints(FromTicks(repeat, last, timing))
    ensures FromTicks(repeat, last, timing).last.None? <==> last == 0
    ensures FromTicks(repeat, last, timing).repeat == 0 <==> repeat == 0
    ensures FromTicks(repeat, last, timing).repeat * TicksPerMeas(timing) >= repeat
    ensures FromTicks(repeat, last, timing).last.Some? ==>
              FromTicks(repeat, last, timing).last.value * TicksPerMeas(timing) >= last &&
              (FromTicks(repeat, last, timing).last.value - 1) * TicksPerMeas(timing) < last
  {
    TickToMeasZero(repeat, timing);
    TickToMeasZero(last, timing);
    TickToMeasCovers(repeat, timing);
    TickToMeasCovers(last, timing);
  }

  /** `get_last_tick`: the tick of the last measure, or 0 without one. */
  function LastTick(m: MasterState): u32
  {
    match m.loopPoints.last
    case None => 0
    case Some(last) => MeasToTick(last, m.timing)
  }

  /** `get_play_meas`: the last measure when set, else the measure count. */
  function PlayMeas(m: MasterState): u32
  {
    match m.loopPoints.last
    case None => m.measNum
    case Some(last) => last
  }

  /**
   * The last tick is zero exactly when no last measure is set (for a valid,
   * representable master), and it converts back to the last measure played.
   */
  lemma LastTickMeaning(m: MasterState)
    requires Divisible(m.timing) && ValidLoopPoints(m.loopPoints)
    requires m.loopPoints.last.Some? ==> MeasFits(m.loopPoints.last.value, m.timing)
    ensures LastTick(m) == 0 <==> m.loopPoints.last.None?
    ensures m.loopPoints.last.Some? ==> TickToMeas(LastTick(m), m.timing) == PlayMeas(m)
    ensures m.loopPoints.last.None? ==> PlayMeas(m) == m.measNum
  {
    if m.loopPoints.last.Some? {
      var last := m.loopPoints.last.value;
      TickToMeasOfMeasToTick(last, m.timing);
      TickToMeasZero(LastTick(m), m.timing);
    }
  }

  /** `adjust_meas_num` as a function of the master value. */
  function AdjustedMeasNum(m: MasterState, tick: u32): MasterState
    requires Divisible(m.timing)
  {
    var measNum := Max(m.measNum, TickToMeas(tick, m.timing));
    var repeat := if m.loopPoints.repeat >= measNum then 0 else m.loopPoints.repeat;
    var last :=
      if m.loopPoints.last.Some? && m.loopPoints.last.value > measNum then NonZeroMeas(measNum)
      else m.loopPoints.last;
    MasterState(m.timing, LoopPoints(repeat, last), measNum)
  }

  /**
   * After `adjust_meas_num(tick)`: the measure count has not shrunk and
   * covers `tick`; the repeat measure lies before the end or is 0; a present
   * last measure is within the count; the timing is unchanged, loop points
   * stay valid and no later than before, and adjusting again with the same
   * tick changes nothing.
   */
  lemma AdjustMeasNumInvariant(m: MasterState, tick: u32)
    requires Divisible(m.timing)
    ensures AdjustedMeasNum(m, tick).measNum >= m.measNum
    ensures AdjustedMeasNum(m, tick).measNum >= TickToMeas(tick, m.timing)
    ensures AdjustedMeasNum(m, tick).measNum * TicksPerMeas(m.timing) >= tick
    ensures AdjustedMeasNum(m, tick).loopPoints.repeat < AdjustedMeasNum(m, tick).measNum ||
            AdjustedMeasNum(m, tick).loopPoints.repeat == 0
    ensures AdjustedMeasNum(m, tick).loopPoints.last.Some? ==>
              AdjustedMeasNum(m, tick).loopPoints.last.value <= AdjustedMeasNum(m, tick).measNum
    ensures PlayMeas(AdjustedMeasNum(m, tick)) <= AdjustedMeasNum(m, tick).measNum
    ensures AdjustedMeasNum(m, tick).timing == m.timing
    ensures ValidLoopPoints(m.loopPoints) ==> ValidLoopPoints(AdjustedMeasNum(m, tick).loopPoints)
    ensures AdjustedMeasNum(m, tick).loopPoints.repeat <= m.loopPoints.repeat
    ensures AdjustedMeasNum(AdjustedMeasNum(m, tick), tick) == AdjustedMeasNum(m, tick)
  {
    var r := AdjustedMeasNum(m, tick);
    TickToMeasCovers(tick, m.timing);
    MulMonotone(TickToMeas(tick, m.timing), r.measNum, TicksPerMeas(m.timing));
  }

  /** A master whose every field is already within the measure count is left as it is. */
  lemma AdjustMeasNumKeepsFitting(m: MasterState, tick: u32)
    requires Divisible(m.timing) && ValidLoopPoints(m.loopPoints)
    requires m.measNum * TicksPerMeas(m.timing) >= tick
    requires m.loopPoints.repeat < m.measNum || m.loopPoints.repeat == 0
    requires m.loopPoints.last.Some? ==> m.loopPoints.last.value <= m.measNum
    ensures AdjustedMeasNum(m, tick) == m
  {
    var k := TickToMeas(tick, m.timing);
    TickToMeasCovers(tick, m.timing);
    if k > m.measNum {
      MulMonotone(m.measNum, k - 1, TicksPerMeas(m.timing));
    }
  }

  // ---- the chunk body ----

  /** The chunk body's size field. */
  const MASTER_V5_SIZE: u32 := 15

  /**
   * `read_v5` as a function of the data and the cursor: size (must be 15),
   * ticks per beat, beats per measure, tempo bits, repeat tick and last tick;
   * the ticks become loop points and the measure count starts at 1.
   * `from_ticks` divides by both divisors, which panics when either is zero.
   */
  function ParseMasterV5(data: seq<u8>, cur: nat): (r: Parse<MasterState>)
    ensures cur <= |data| && r.Ok? ==> cur <= r.value.next <= |data|
  {
    var size :- ParseU32(data, cur);
    if size.value != MASTER_V5_SIZE then Err(FmtUnknown)
    else
      var tpb :- ParseU16(data, size.next);
      var beats :- ParseU8(data, tpb.next);
      var bpm :- ParseU32(data, beats.next);
      var repeat :- ParseU32(data, bpm.next);
      var last :- ParseU32(data, repeat.next);
      var timing := Timing(tpb.value, bpm.value, beats.value);
      if !Divisible(timing) then Err(ReadError.Panic)
      else Ok(Parsed(MasterState(timing, FromTicks(repeat.value, last.value, timing), 1), last.next))
  }

  /** The bytes `write_v5` appends: 15, the timing fields, then both loop points as ticks. */
  function EncodeMasterV5(m: MasterState): (bytes: seq<u8>)
    ensures |bytes| == 19
  {
    Le32(MASTER_V5_SIZE) + Le16(m.timing.ticksPerBeat) + [m.timing.beatsPerMeas] + Le32(m.timing.bpm)
    + Le32(MeasToTick(m.loopPoints.repeat, m.timing)) + Le32(LastTick(m))
  }

  /** A chunk whose size field is not 15 is refused with `FmtUnknown`; a read that succeeds spans 19 bytes. */
  lemma ParseMasterV5Shape(data: seq<u8>, cur: nat)
    ensures ParseU32(data, cur).Ok? && ParseU32(data, cur).value.value != 15 ==>
              ParseMasterV5(data, cur) == Err(FmtUnknown)
    ensures ParseMasterV5(data, cur).Ok? ==>
              ParseMasterV5(data, cur).value.next == cur + 19 <= |data| &&
              ParseMasterV5(data, cur).value.value.measNum == 1 &&
              Divisible(ParseMasterV5(data, cur).value.value.timing) &&
              ValidLoopPoints(ParseMasterV5(data, cur).value.value.loopPoints)
  {
    var p := ParseMasterV5(data, cur);
    if p.Ok? {
      var tpb := FromLe16(data[cur + 4..cur + 6]);
      var timing := Timing(tpb, FromLe32(data[cur + 7..cur + 11]), data[cur + 6]);
      FromTicksMeaning(FromLe32(data[cur + 11..cur + 15]), FromLe32(data[cur + 15..cur + 19]), timing);
    }
  }

  /**
   * Round trip of the master chunk: reading back what `write_v5` wrote
   * yields the same timing and loop points (and a measure count of 1), when
   * the divisors are non-zero and both loop points fit in a `u32` tick.
   */
  lemma MasterV5RoundTrip(before: seq<u8>, m: MasterState, after: seq<u8>)
    requires Divisible(m.timing) && ValidLoopPoints(m.loopPoints)
    requires MeasFits(m.loopPoints.repeat, m.timing)
    requires m.loopPoints.last.Some? ==> MeasFits(m.loopPoints.last.value, m.timing)
    ensures ParseMasterV5(before + EncodeMasterV5(m) + after, |before|)
            == Ok(Parsed(MasterState(m.timing, m.loopPoints, 1), |before| + 19))
  {
    var t := m.timing;
    var rt := MeasToTick(m.loopPoints.repeat, t);
    var lt := LastTick(m);
    MasterV5Fields(before, m, after);
    hide ParseU32, ParseU16, ParseU8, EncodeMasterV5;
    TickToMeasOfMeasToTick(m.loopPoints.repeat, t);
    LastTickMeaning(m);
    assert FromTicks(rt, lt, t) == m.loopPoints;
  }

  /** The six fixed-width fields of a written `MasterV5` chunk read back in order. */
  lemma MasterV5Fields(before: seq<u8>, m: MasterState, after: seq<u8>)
    ensures var data, c, t := before + EncodeMasterV5(m) + after, |before|, m.timing;
            && ParseU32(data, c) == Ok(Parsed(MASTER_V5_SIZE, c + 4))
            && ParseU16(data, c + 4) == Ok(Parsed(t.ticksPerBeat, c + 6))
            && ParseU8(data, c + 6) == Ok(Parsed(t.beatsPerMeas, c + 7))
            && ParseU32(data, c + 7) == Ok(Parsed(t.bpm, c + 11))
            && ParseU32(data, c + 11) == Ok(Parsed(MeasToTick(m.loopPoints.repeat, t), c + 15))
            && ParseU32(data, c + 15) == Ok(Parsed(LastTick(m), c + 19))
  {
    var e := EncodeMasterV5(m);
    var t := m.timing;
    var rt := MeasToTick(m.loopPoints.repeat, t);
    var lt := LastTick(m);
    SliceOf(before, e, after, 0, 4);
    SliceOf(before, e, after, 4, 2);
    SliceOf(before, e, after, 6, 1);
    SliceOf(before, e, after, 7, 4);
    SliceOf(before, e, after, 11, 4);
    SliceOf(before, e, after, 15, 4);
    assert e[0..4] == Le32(MASTER_V5_SIZE);
    assert e[4..6] == Le16(t.ticksPerBeat);
    assert e[6..7] == [t.beatsPerMeas];
    assert e[7..11] == Le32(t.bpm);
    assert e[11..15] == Le32(rt);
    assert e[15..19] == Le32(lt);
    Le32Inverse(MASTER_V5_SIZE);
    Le16Inverse(t.ticksPerBeat);
    Le32Inverse(t.bpm);
    Le32Inverse(rt);
    Le32Inverse(lt);
  }

  // ---- the object ----

  /** `Master`: timing, loop points and the measure count, the last two adjusted in place. */
  class Master {
    var timing: Timing
    var loopPoints: LoopPoints
    var measNum: u32

    function State(): MasterState
      reads this
    {
      MasterState(timing, loopPoints, measNum)
    }

    /** `Master::default()`. */
    constructor ()
      ensures State() == DefaultMaster()
    {
      timing := DefaultTiming();
      loopPoints := LoopPoints(0, None);
      measNum := 1;
    }

    /** Replaces the whole value (`song.master = …`). */
    method Set(s: MasterState)
      modifies this
      ensures State() == s
    {
      timing, loopPoints, measNum := s.timing, s.loopPoints, s.measNum;
    }

    /** `adjust_meas_num`; it panics on a zero divisor, hence the precondition. */
    method AdjustMeasNum(tick: u32)
      requires Divisible(timing)
      modifies this
      ensures State() == AdjustedMeasNum(old(State()), tick)
    {
      measNum := Max(measNum, TickToMeas(tick, timing));
      if loopPoints.repeat >= measNum {
        loopPoints := loopPoints.(repeat := 0);
      }
      if loopPoints.last.Some? && loopPoints.last.value > measNum {
        loopPoints := loopPoints.(last := NonZeroMeas(measNum));
      }
    }

    /** `read_v5`: on success the master takes the value read; on error it is unchanged. */
    method ReadV5(rd: Reader) returns (r: Result<(), ReadError>)
      modifies this, rd`cur
      ensures var p := ParseMasterV5(rd.data, old(rd.cur));
              if p.Ok? then r.Ok? && State() == p.value.value && rd.cur == p.value.next
              else r == Err(p.error) && State() == old(State())
    {
      var size := rd.NextU32();
      if size.Err? { return Err(size.error); }
      if size.value != MASTER_V5_SIZE { return Err(FmtUnknown); }
      var tpb := rd.NextU16();
      if tpb.Err? { return Err(tpb.error); }
      var beats := rd.NextU8();
      if beats.Err? { return Err(beats.error); }
      var bpm := rd.NextU32();
      if bpm.Err? { return Err(bpm.error); }
      var repeat := rd.NextU32();
      if repeat.Err? { return Err(repeat.error); }
      var last := rd.NextU32();
      if last.Err? { return Err(last.error); }
      var t := Timing(tpb.value, bpm.value, beats.value);
      if !Divisible(t) { return Err(ReadError.Panic); }
      timing, loopPoints, measNum := t, FromTicks(repeat.value, last.value, t), 1;
      r := Ok(());
    }

    /** `write_v5`: appends the chunk body, leaving the master unchanged. */
    method WriteV5(out: ByteVec)
      modifies out
      ensures out.bytes == old(out.bytes) + EncodeMasterV5(State())
    {
      out.Extend(Le32(MASTER_V5_SIZE));
      out.Extend(Le16(timing.ticksPerBeat));
      out.Extend([timing.beatsPerMeas]);
      out.Extend(Le32(timing.bpm));
      out.Extend(Le32(MeasToTick(loopPoints.repeat, timing)));
      out.Extend(Le32(LastTick(State())));
    }
  }
}

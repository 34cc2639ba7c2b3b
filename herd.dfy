/**
 * The herd: the playback state of a song (sample counters, the event
 * cursor, the pan-time ring index, the end flag) together with its units and
 * delay effects; the song value whose length is recalculated from its
 * master and its events; and the instructions playback is given.
 */
module Herd {
  import opened Base
  import opened Timing
  import Unit
  import Delay
  import Event
  import Master

  /** `MAX_UNITS`: the capacity of the unit list. */
  const MAX_UNITS: nat := 50

  /** The capacity of the delay list. */
  const MAX_DELAYS: nat := 4

  /** The bit pattern of the `f32` value 1.0. */
  const ONE_F32: u32 := 0x3F80_0000

  /**
   * A unit/instance pair of a voice as playback sees it: the timing
   * `reset_voice` derives from it with floating-point maths, the instance's
   * release length, and whether its prepared envelope is empty.
   */
  datatype PairView = PairView(timing: Unit.ToneTiming, envRelease: u32, envEmpty: bool)

  /**
   * `MooInstructions`: the output rate, each voice as the list of its pairs,
   * and `samples_per_tick` as its `f32` bit pattern.
   */
  datatype MooInstructions = MooInstructions(outSampleRate: u16, voices: seq<seq<PairView>>, samplesPerTick: u32)

  /** `MooInstructions::new`: no voices yet and one sample per tick. */
  function NewMooInstructions(outSampleRate: u16): (r: MooInstructions)
    ensures r.outSampleRate == outSampleRate && r.voices == [] && r.samplesPerTick == ONE_F32
  {
    MooInstructions(outSampleRate, [], ONE_F32)
  }

  /** The pair timings of every voice, as `reset_voice` takes them. */
  function Timings(voices: seq<seq<PairView>>): (r: seq<seq<Unit.ToneTiming>>)
    ensures |r| == |voices|
    ensures forall v | 0 <= v < |voices| :: |r[v]| == |voices[v]|
    ensures forall v, p | 0 <= v < |voices| && 0 <= p < |voices[v]| :: r[v][p] == voices[v][p].timing
  {
    seq(|voices|, v requires 0 <= v < |voices| =>
      seq(|voices[v]|, p requires 0 <= p < |voices[v]| => voices[v][p].timing))
  }

  /** Fresh instructions hold no voice, so `reset_voice` keeps every tone as it is. */
  lemma NewInstructionsHaveNoTimings(outSampleRate: u16)
    ensures Timings(NewMooInstructions(outSampleRate).voices) == []
  {
  }

  // ---- the song ----

  /**
   * `Song`: the master and the event list (the name, comment and format
   * information are not part of this model).
   */
  class Song {
    const master: Master.Master
    const events: Event.EveList

    constructor (master: Master.Master, events: Event.EveList)
      ensures this.master == master && this.events == events
    {
      this.master := master;
      this.events := events;
    }

    /**
     * `recalculate_length`: the master's measure count is adjusted to the
     * later of the last measure's tick and the events' end. Adjusting
     * panics on a zero divisor, hence the precondition.
     */
    method RecalculateLength()
      requires Divisible(master.timing)
      modifies master
      ensures master.State() ==
                Master.AdjustedMeasNum(old(master.State()),
                                       Max(Master.LastTick(old(master.State())), Event.MaxTick(events.eves)))
    {
      var lastTick := Master.LastTick(master.State());
      var maxTick := events.GetMaxTick();
      master.AdjustMeasNum(Max(lastTick, maxTick));
    }
  }

  /** The master value `recalculate_length` leaves. */
  function Recalculated(m: Master.MasterState, eves: seq<Event.Event>): Master.MasterState
    requires Divisible(m.timing)
  {
    Master.AdjustedMeasNum(m, Max(Master.LastTick(m), Event.MaxTick(eves)))
  }

  /**
   * After `recalculate_length` the song is long enough: every event ends
   * within the measure count, and so does the last measure's tick; the
   * count has not shrunk and the loop points lie within it.
   */
  lemma RecalculatedCoversEvents(m: Master.MasterState, eves: seq<Event.Event>)
    requires Divisible(m.timing)
    ensures var r := Recalculated(m, eves);
            && (forall i | 0 <= i < |eves| :: Event.EndTick(eves[i]) <= r.measNum * TicksPerMeas(m.timing))
            && Master.LastTick(m) <= r.measNum * TicksPerMeas(m.timing)
            && r.measNum >= m.measNum
            && (r.loopPoints.repeat < r.measNum || r.loopPoints.repeat == 0)
            && (r.loopPoints.last.Some? ==> r.loopPoints.last.value <= r.measNum)
  {
    var tick := Max(Master.LastTick(m), Event.MaxTick(eves));
    Master.AdjustMeasNumInvariant(m, tick);
    Event.MaxTickIsMaximum(eves);
  }

  // ---- the herd ----

  /** What `tune_cow_voices` does to one unit: `tone_init`, then `reset_voice` to voice 0. */
  function TunedOf(s: Unit.UnitState, timings: seq<seq<Unit.ToneTiming>>): Unit.UnitState
    requires Unit.WellFormed(s)
  {
    var t := Unit.ToneInitOf(s);
    Unit.SameShape(s, t);
    Unit.ResetVoiceOf(t, timings, 0)
  }

  /** `tune_cow_voices` over a whole unit list. */
  function TunedAll(us: seq<Unit.UnitState>, timings: seq<seq<Unit.ToneTiming>>): (r: seq<Unit.UnitState>)
    requires forall k | 0 <= k < |us| :: Unit.WellFormed(us[k])
    ensures |r| == |us|
  {
    seq(|us|, k requires 0 <= k < |us| => TunedOf(us[k], timings))
  }

  /**
   * A tuned unit is back at its defaults: group 0, default velocity and
   * volume, centred pan, voice 0 at the default key without a slide, no
   * portamento; each tone that voice 0 has a pair for is silent. Its name,
   * mute flag and pan-time buffers are kept.
   */
  lemma TunedUnitIsReset(s: Unit.UnitState, timings: seq<seq<Unit.ToneTiming>>)
    requires Unit.WellFormed(s)
    ensures var t := TunedOf(s, timings);
            && Unit.WellFormed(t)
            && t.group == 0 && t.velocity == Event.DEFAULT_VELOCITY && t.volume == Event.DEFAULT_VOLUME
            && t.panVols == [64, 64] && t.panTimeOffs == [0, 0]
            && t.voiceIdx == 0 && t.keyNow == Event.DEFAULT_KEY && t.keyStart == Event.DEFAULT_KEY && t.keyMargin == 0
            && t.portaPos == 0 && t.portaDestination == 0
            && t.name == s.name && t.mute == s.mute && t.panTimeBufs == s.panTimeBufs
            && (forall ch | 0 <= ch < Unit.MAX_CHANNEL && |timings| > 0 && ch < |timings[0]| ::
                  t.tones[ch].lifeCount == 0 && t.tones[ch].onCount == 0 && t.tones[ch].smpPos == 0)
  {
    var i := Unit.ToneInitOf(s);
    Unit.SameShape(s, i);
  }

  /** The scalar fields of a `Herd`. */
  datatype Counters = Counters(
    mooEnd: bool,
    loop: bool,
    smpSmooth: u16,
    smpCount: u32,
    smpStart: u32,
    smpEnd: u32,
    smpRepeat: u32,
    timePanIndex: u64,
    evtIdx: nat)

  /** The whole playback state of a herd as a value. */
  datatype PlayState = PlayState(counts: Counters, units: seq<Unit.UnitState>, delays: seq<Delay.DelayState>)

  /** Every unit and every delay has its fixed shape, and the capacities hold. */
  predicate WellFormedPlay(p: PlayState)
  {
    && |p.units| <= MAX_UNITS && |p.delays| <= MAX_DELAYS
    && (forall k | 0 <= k < |p.units| :: Unit.WellFormed(p.units[k]))
    && (forall k | 0 <= k < |p.delays| :: Delay.WellFormed(p.delays[k]))
  }

  /**
   * `Herd`: the playback counters, the units (at most 50) and the delay
   * effects (at most 4). The overdrive effects and the float sample stride
   * are not part of this model.
   */
  class Herd {
    var mooEnd: bool
    var loop: bool
    var smpSmooth: u16
    var smpCount: u32
    var smpStart: u32
    var smpEnd: u32
    var smpRepeat: u32
    var timePanIndex: u64
    var evtIdx: nat
    var units: seq<Unit.Unit>
    var delays: seq<Delay.Delay>

    function Counts(): Counters
      reads this
    {
      Counters(mooEnd, loop, smpSmooth, smpCount, smpStart, smpEnd, smpRepeat, timePanIndex, evtIdx)
    }

    /** At most 50 units, none of them twice, each valid. */
    predicate UnitsValid()
      reads this`units, units
    {
      && |units| <= MAX_UNITS
      && (forall j, k | 0 <= j < k < |units| :: units[j] != units[k])
      && (forall k | 0 <= k < |units| :: units[k].Valid())
    }

    /** At most 4 delays, none of them twice, each valid. */
    predicate DelaysValid()
      reads this`delays, delays
    {
      && |delays| <= MAX_DELAYS
      && (forall j, k | 0 <= j < k < |delays| :: delays[j] != delays[k])
      && (forall k | 0 <= k < |delays| :: delays[k].Valid())
    }

    /** The capacities hold, no unit or delay appears twice, and each of them is valid. */
    predicate Valid()
      reads this`units, this`delays, units, delays
    {
      UnitsValid() && DelaysValid()
    }

    /** The state of every unit, in order. */
    function UnitStates(): (r: seq<Unit.UnitState>)
      reads this`units, units
      ensures |r| == |units|
      ensures forall k | 0 <= k < |units| :: r[k] == units[k].State()
    {
      var us := units;
      seq(|us|, k requires 0 <= k < |us| reads us => us[k].State())
    }

    /** The state of every delay, in order. */
    function DelayStates(): (r: seq<Delay.DelayState>)
      reads this`delays, delays
      ensures |r| == |delays|
      ensures forall k | 0 <= k < |delays| :: r[k] == delays[k].State()
    {
      var ds := delays;
      seq(|ds|, k requires 0 <= k < |ds| reads ds => ds[k].State())
    }

    function Play(): PlayState
      reads this, units, delays
    {
      PlayState(Counts(), UnitStates(), DelayStates())
    }

    /** The state of a herd is made of its counters, its units' states and its delays' states. */
    lemma PlayParts()
      ensures Play() == PlayState(Counts(), UnitStates(), DelayStates())
    {
    }

    /** Validity is that of the units together with that of the delays. */
    lemma ValidParts()
      ensures Valid() <==> UnitsValid() && DelaysValid()
    {
    }

    /** A valid herd's state is well-formed. */
    lemma ValidIsWellFormed()
      requires Valid()
      ensures WellFormedPlay(Play())
    {
    }

    /** `Herd::default`: every counter zero, no end, no loop, no units and no delays. */
    constructor ()
      ensures Valid() && Counts() == Counters(false, false, 0, 0, 0, 0, 0, 0, 0)
      ensures units == [] && delays == []
    {
      mooEnd, loop, smpSmooth := false, false, 0;
      smpCount, smpStart, smpEnd, smpRepeat := 0, 0, 0, 0;
      timePanIndex, evtIdx := 0, 0;
      units, delays := [], [];
    }

    /** `Units::len`: the `as u8` cast never truncates, since there are at most 50 units. */
    function Len(): (r: u8)
      requires |units| <= MAX_UNITS
      reads this
      ensures r == |units|
    {
      LowByte(|units|)
    }

    /** `Units::is_empty`. */
    function IsEmpty(): (r: bool)
      requires |units| <= MAX_UNITS
      reads this
      ensures r <==> |units| == 0
    {
      Len() == 0
    }

    /**
     * `seek_to_sample`: the sample counter moves to `sample` and the event
     * cursor restarts at the first event; nothing else changes.
     */
    method SeekToSample(sample: u32)
      modifies this`smpCount, this`evtIdx
      ensures Counts() == old(Counts()).(smpCount := sample, evtIdx := 0)
    {
      smpCount := sample;
      evtIdx := 0;
    }

    /** Setting the end flag, as `moo` does when the song ends; nothing else changes. */
    method SetEnd()
      requires Valid()
      modifies this`mooEnd
      ensures Valid() && Counts() == old(Counts()).(mooEnd := true)
      ensures UnitStates() == old(UnitStates()) && DelayStates() == old(DelayStates())
    {
      mooEnd := true;
    }

    /** `tune_cow_voices`: every unit is initialised and reset to voice 0. */
    method TuneCowVoices(ins: MooInstructions)
      requires Valid()
      modifies units
      ensures Valid()
      ensures UnitStates() == TunedAll(old(UnitStates()), Timings(ins.voices))
    {
      hide TunedOf;
      var timings := Timings(ins.voices);
      ghost var us := UnitStates();
      for k := 0 to |units|
        invariant UnitsValid()
        invariant forall j | 0 <= j < |units| :: units[j].State() == if j < k then TunedOf(us[j], timings) else us[j]
      {
        TuneUnit(units[k], timings);
      }
    }
  }

  /** One unit of `tune_cow_voices`: `tone_init`, then `reset_voice` to voice 0. */
  method TuneUnit(unit: Unit.Unit, timings: seq<seq<Unit.ToneTiming>>)
    requires unit.Valid()
    modifies unit
    ensures unit.Valid() && unit.State() == TunedOf(old(unit.State()), timings)
  {
    unit.ToneInit();
    unit.ResetVoice(timings, 0);
  }
}

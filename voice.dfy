/**
 * Voices: what a voice is made of (its units, each with sample data and an
 * envelope description) and the per-unit instance state the player derives
 * from it (the prepared envelope, its release length and the sample buffer).
 */
module Voice {
  import opened Base
  import opened Point
  import opened Envelope
  import Noise
  import Pcm
  import Event

  /** `VoiceData`: where a voice unit's samples come from. */
  datatype VoiceData =
    | NoiseVoice(design: Noise.NoiseDesign)
    | PcmVoice(pcm: Pcm.PcmState)
    | WaveVoice(wave: WaveData)

  /** `VoiceFlags` bits. */
  const WAVE_LOOP: u32 := 1
  const SMOOTH: u32 := 2
  const BEAT_FIT: u32 := 4

  /** The bit pattern of the `f32` value 1.0, the default tuning. */
  const ONE_F32: u32 := 0x3F80_0000

  /** `VoiceUnit`; `tuning` is carried as its `f32` bit pattern. */
  datatype VoiceUnit = VoiceUnit(
    basicKey: i32,
    volume: i16,
    pan: i16,
    tuning: u32,
    flags: u32,
    data: VoiceData,
    envelope: EnvelopeSrc)

  /** The unit `allocate` creates: default basic key, tuning 1.0, smoothing on, an empty noise design, no envelope. */
  const DEFAULT_VOICE_UNIT: VoiceUnit :=
    VoiceUnit(Event.DEFAULT_BASICKEY, 0, 0, ONE_F32, SMOOTH, NoiseVoice(Noise.NoiseDesign(0, [])), EnvelopeSrc(0, []))

  /** The fields of a `VoiceInstance`. */
  datatype InstanceState = InstanceState(numSamples: u32, sampleBuf: seq<u8>, env: seq<u8>, envRelease: u32)

  const DEFAULT_INSTANCE: InstanceState := InstanceState(0, [], [], 0)

  /**
   * The instance after `recalc_envelope`: unchanged when the envelope cannot
   * be prepared; otherwise the prepared envelope, and as release length the
   * step of the point at index `head`, the last point (so the source's
   * fallback release of 0 never applies).
   */
  function RecalcEnvelopeOf(st: InstanceState, unit: VoiceUnit, sps: u16): InstanceState
  {
    var env := unit.envelope;
    match Prepared(env, sps)
    case None => st
    case Some((prepared, head)) =>
      st.(env := prepared,
          envRelease := Step(env.points[head].x, sps, env.secondsPerPoint))
  }

  /**
   * What `recalc_envelope` guarantees: an envelope that cannot be prepared
   * leaves the instance as it was; a preparable one installs an envelope of
   * 1 to 2^20 levels whose release is the last point's step, and touches
   * nothing else.
   */
  lemma RecalcEnvelopeEffect(st: InstanceState, unit: VoiceUnit, sps: u16)
    ensures var r := RecalcEnvelopeOf(st, unit, sps);
            var pts := unit.envelope.points;
            && (Prepared(unit.envelope, sps).None? <==> r == st && (|pts| == 0 || EnvSize(unit.envelope, sps) > ENV_SIZE_SAFETY_LIMIT))
            && (Prepared(unit.envelope, sps).Some? ==>
                  && 1 <= |r.env| <= ENV_SIZE_SAFETY_LIMIT
                  && r.envRelease == Step(pts[|pts| - 1].x, sps, unit.envelope.secondsPerPoint)
                  && r.numSamples == st.numSamples && r.sampleBuf == st.sampleBuf)
  {
  }

  /**
   * `VoiceTone`: a unit's play state for one voice unit. The sample position
   * (`f64`) and the frequency step (`f32`) are carried as bit patterns.
   */
  datatype VoiceTone = VoiceTone(
    smpPos: u64,
    offsetFreq: u32,
    envVolume: u8,
    lifeCount: i32,
    onCount: i32,
    envStart: u8,
    envPos: nat,
    envReleaseClock: u32)

  /** `VoiceTone::default`: every field zero (0.0 for the floats). */
  const DEFAULT_TONE: VoiceTone := VoiceTone(0, 0, 0, 0, 0, 0, 0, 0)

  /** `VoiceInstance`: the play data derived from one voice unit. */
  class VoiceInstance {
    var numSamples: u32
    var sampleBuf: seq<u8>
    var env: seq<u8>
    var envRelease: u32

    function State(): InstanceState
      reads this
    {
      InstanceState(numSamples, sampleBuf, env, envRelease)
    }

    /** `VoiceInstance::default`. */
    constructor ()
      ensures State() == DEFAULT_INSTANCE
    {
      numSamples, sampleBuf, env, envRelease := 0, [], [], 0;
    }

    /** `recalc_envelope`. */
    method RecalcEnvelope(unit: VoiceUnit, sps: u16)
      modifies this
      ensures State() == RecalcEnvelopeOf(old(State()), unit, sps)
    {
      var envelope := unit.envelope;
      var r := ToPrepared(envelope, sps);
      if r.None? {
        return;
      }
      var (prepared, head) := r.value;
      env := prepared;
      if head < |envelope.points| {
        envRelease := Step(envelope.points[head].x, sps, envelope.secondsPerPoint);
      } else {
        // `head` is always the last point's index, so the source's fallback to 0 is unreachable.
        assert false;
      }
    }

    /**
     * `recalc_wave_data`: 400 stereo 16-bit samples, a 1600-byte buffer; the
     * envelope is left alone.
     */
    method RecalcWaveData(wave: WaveData, volume: i16, pan: i16)
      modifies this
      ensures numSamples == 400 && |sampleBuf| == 1600
      ensures |sampleBuf| == numSamples * 2 * 2
      ensures env == old(env) && envRelease == old(envRelease)
    {
      numSamples := 400;
      var size := numSamples * 2 * 2;
      sampleBuf := seq(size, _ => 0);
    }
  }

  /** `Voice`: up to two units, each paired with its instance. */
  class Voice {
    var units: seq<VoiceUnit>
    var insts: seq<VoiceInstance>
    var name: string

    /** The `ArrayVec` capacities hold, and no instance is shared between two slots. */
    predicate Valid()
      reads this
    {
      && |units| <= 2 && |insts| <= 2
      && forall j, k | 0 <= j < k < |insts| :: insts[j] != insts[k]
    }

    /** `Voice::default`. */
    constructor ()
      ensures Valid() && units == [] && insts == [] && name == "<no name>"
    {
      units, insts, name := [], [], "<no name>";
    }

    /**
     * `allocate::<BOTH>`: one default unit and a fresh default instance are
     * pushed, twice when `both`. Pushing past the capacity of two panics in
     * the source, hence the precondition.
     */
    method Allocate(both: bool)
      requires Valid()
      requires |units| + (if both then 2 else 1) <= 2 && |insts| + (if both then 2 else 1) <= 2
      modifies this
      ensures Valid() && name == old(name)
      ensures units == old(units) + (if both then [DEFAULT_VOICE_UNIT, DEFAULT_VOICE_UNIT] else [DEFAULT_VOICE_UNIT])
      ensures |insts| == |old(insts)| + (if both then 2 else 1) && insts[..|old(insts)|] == old(insts)
      ensures forall k | |old(insts)| <= k < |insts| :: fresh(insts[k]) && insts[k].State() == DEFAULT_INSTANCE
      ensures |old(units)| == |old(insts)| ==> |units| == |insts|
    {
      var u := DEFAULT_VOICE_UNIT;
      units := units + [u];
      var first := new VoiceInstance();
      insts := insts + [first];
      if both {
        units := units + [u];
        var second := new VoiceInstance();
        insts := insts + [second];
      }
    }

    /**
     * `tone_ready_envelopes`: each instance is recalculated from the unit at
     * the same index; an instance without a unit is left alone.
     */
    method ToneReadyEnvelopes(sps: u16)
      requires Valid()
      modifies set k | 0 <= k < |insts| :: insts[k]
      ensures forall k | 0 <= k < |insts| ::
                insts[k].State() ==
                  if k < |units| then RecalcEnvelopeOf(old(insts[k].State()), units[k], sps) else old(insts[k].State())
    {
      var n := Min(|insts|, |units|);
      for k := 0 to n
        invariant forall j | 0 <= j < |insts| ::
                    insts[j].State() ==
                      if j < k then RecalcEnvelopeOf(old(insts[j].State()), units[j], sps) else old(insts[j].State())
      {
        insts[k].RecalcEnvelope(units[k], sps);
      }
    }
  }
}

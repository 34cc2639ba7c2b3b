/**
 * Units, the "cows" that each play one channel of a song. A unit keeps its
 * key and portamento state, a volume per output channel, a pan-time offset
 * per output channel, and a 64-slot pan-time ring buffer per output channel.
 * It also keeps its sample group, its volume and velocity, and one voice tone
 * per voice unit. The `tone_*` operations update these fields in place.
 * The pan-time conversions between a `PanTime` value and the left/right
 * offsets are pure.
 *
 * Key arithmetic is `i32` arithmetic and wraps as in a release build.
 */
module Unit {
  import opened Base
  import opened Voice
  import Event

  /** `MAX_CHANNEL`: stereo output. */
  const MAX_CHANNEL: nat := 2

  /** `PanTimeBuf::LEN`. */
  const PAN_TIME_BUF_LEN: nat := 64

  /** `GroupSamples::LEN`: the number of sample groups. */
  const GROUP_NUM: nat := 7

  /** `PanTime::default`: the centre, no delay on either side. */
  const PAN_TIME_CENTRE: u8 := 64

  // ---- pan time ----

  /**
   * `calc_pan_time`: the offset, clamped to 63, rescaled from the native
   * 44100 Hz to `sps` and rounded down; a result that does not fit a byte
   * falls back to 0. Division by a zero rate panics in the source.
   */
  function CalcPanTime(offset: u8, sps: u16): (r: u8)
    requires sps > 0
    ensures var off := Min(offset, 63);
            off * NATIVE_SAMPLE_RATE < 0x100 * sps ==> r * sps <= off * NATIVE_SAMPLE_RATE < (r + 1) * sps
    ensures var off := Min(offset, 63);
            off * NATIVE_SAMPLE_RATE >= 0x100 * sps ==> r == 0
    ensures sps == NATIVE_SAMPLE_RATE ==> r == Min(offset, 63)
  {
    var off := Min(offset, 63);
    var scaled := off * NATIVE_SAMPLE_RATE / sps;
    DivBelow(off * NATIVE_SAMPLE_RATE, sps, 0x100);
    if scaled < 0x100 then scaled else 0
  }

  /**
   * `inv_calc_pan_time`: an offset in samples at `sps` back to a pan-time
   * distance at 44100 Hz, rounded down and capped at 63; zero stays zero.
   */
  function InvCalcPanTime(val: u8, sps: u16): (r: u8)
    ensures r <= 63
    ensures val == 0 ==> r == 0
    ensures val > 0 && r < 63 ==> r * NATIVE_SAMPLE_RATE <= val * sps < (r + 1) * NATIVE_SAMPLE_RATE
    ensures val > 0 && r == 63 ==> 63 * NATIVE_SAMPLE_RATE <= val * sps
    ensures sps == NATIVE_SAMPLE_RATE ==> r == Min(val, 63)
  {
    if val == 0 then 0
    else Min(val * sps / NATIVE_SAMPLE_RATE, 63)
  }

  /**
   * `PanTime::to_lr_offsets`: at or right of the centre, the left channel
   * lags by the distance from the centre; left of it, the right channel
   * does. The other side never lags.
   */
  function ToLrOffsets(pan: u8, sps: u16): (r: seq<u8>)
    requires sps > 0
    ensures |r| == 2 && (r[0] == 0 || r[1] == 0)
    ensures sps == NATIVE_SAMPLE_RATE ==>
              r == if pan >= PAN_TIME_CENTRE then [Min(pan - 64, 63), 0] else [0, Min(64 - pan, 63)]
  {
    if pan >= 64 then [CalcPanTime(pan - 64, sps), 0]
    else [0, CalcPanTime(64 - pan, sps)]
  }

  /**
   * `PanTime::from_lr_offsets`: a lagging left side moves right of the
   * centre, a lagging right side moves left of it; no lag, or lag on both
   * sides, is the centre. The result is always within 1..=127.
   */
  function FromLrOffsets(offs: seq<u8>, sps: u16): (r: u8)
    requires |offs| == 2
    ensures 1 <= r <= 127
    ensures (offs[0] == 0) == (offs[1] == 0) ==> r == PAN_TIME_CENTRE
    ensures offs[0] > 0 && offs[1] == 0 ==> r >= PAN_TIME_CENTRE
    ensures offs[0] == 0 && offs[1] > 0 ==> r <= PAN_TIME_CENTRE
  {
    if offs[0] > 0 && offs[1] == 0 then 64 + InvCalcPanTime(offs[0], sps)
    else if offs[0] == 0 && offs[1] > 0 then 64 - InvCalcPanTime(offs[1], sps)
    else 64
  }

  /** At the native rate, every pan time in 1..=127 survives the trip through the offsets. */
  lemma PanTimeRoundTrip(pan: u8)
    requires 1 <= pan <= 127
    ensures FromLrOffsets(ToLrOffsets(pan, NATIVE_SAMPLE_RATE), NATIVE_SAMPLE_RATE) == pan
  {
    var offs := ToLrOffsets(pan, NATIVE_SAMPLE_RATE);
    if pan > 64 {
      assert offs == [pan - 64, 0];
    } else if pan < 64 {
      assert offs == [0, 64 - pan];
    }
  }

  /**
   * `PanTime::RANGE` includes 0, but 0 is 64 steps left of the centre and
   * the offset is capped at 63, so it comes back as 1.
   */
  lemma PanTimeZeroComesBackAsOne()
    ensures FromLrOffsets(ToLrOffsets(0, NATIVE_SAMPLE_RATE), NATIVE_SAMPLE_RATE) == 1
  {
    assert ToLrOffsets(0, NATIVE_SAMPLE_RATE) == [0, 63];
  }

  /** At any rate, the trip through the offsets never moves a pan time across the centre. */
  lemma PanTimeKeepsSide(pan: u8, sps: u16)
    requires sps > 0
    ensures var back := FromLrOffsets(ToLrOffsets(pan, sps), sps);
            (pan >= PAN_TIME_CENTRE ==> back >= PAN_TIME_CENTRE) && (pan <= PAN_TIME_CENTRE ==> back <= PAN_TIME_CENTRE)
  {
    var offs := ToLrOffsets(pan, sps);
    if pan > 64 {
      assert offs[1] == 0;
    } else if pan < 64 {
      assert offs[0] == 0;
    } else {
      assert offs == [0, 0];
    }
  }

  // ---- unit state ----

  /** The per-voice-unit values `reset_voice` derives with floating-point maths: the release in ticks and the frequency step. */
  datatype ToneTiming = ToneTiming(envReleaseClock: u32, offsetFreq: u32)

  /** The fields of a `Unit`; `tuning` is the bit pattern of its `f32`. */
  datatype UnitState = UnitState(
    name: string,
    keyNow: i32,
    keyStart: i32,
    keyMargin: i32,
    portaPos: u32,
    portaDestination: u32,
    panVols: seq<i16>,
    panTimeOffs: seq<u8>,
    panTimeBufs: seq<seq<i32>>,
    volume: i16,
    velocity: i16,
    group: u8,
    tuning: u32,
    voiceIdx: u8,
    tones: seq<VoiceTone>,
    mute: bool)

  /** The fixed array lengths of a `Unit`: two channels, 64-slot pan-time buffers. */
  predicate WellFormed(s: UnitState)
  {
    && |s.panVols| == MAX_CHANNEL && |s.panTimeOffs| == MAX_CHANNEL && |s.tones| == MAX_CHANNEL
    && |s.panTimeBufs| == MAX_CHANNEL
    && forall ch | 0 <= ch < MAX_CHANNEL :: |s.panTimeBufs[ch]| == PAN_TIME_BUF_LEN
  }

  /** A state whose sequences have the lengths of a well-formed one is well-formed. */
  lemma SameShape(s: UnitState, t: UnitState)
    requires WellFormed(s)
    requires |t.panVols| == |s.panVols| && |t.panTimeOffs| == |s.panTimeOffs| && |t.tones| == |s.tones|
    requires t.panTimeBufs == s.panTimeBufs
    ensures WellFormed(t)
  {
  }

  /** `Unit::new`: the default unit named `<no name>`; everything else is zero. */
  const NEW_UNIT: UnitState :=
    UnitState("<no name>", 0, 0, 0, 0, 0, [0, 0], [0, 0],
              [seq(PAN_TIME_BUF_LEN, _ => 0), seq(PAN_TIME_BUF_LEN, _ => 0)],
              0, 0, 0, 0, 0, [DEFAULT_TONE, DEFAULT_TONE], false)

  /**
   * The unit after `tone_init`: group 0, default velocity, volume and
   * tuning, no portamento, both channels at volume 64 and without pan-time
   * lag. Keys, tones, buffers, voice, name and mute are kept.
   */
  function ToneInitOf(s: UnitState): UnitState
  {
    s.(group := 0,
       velocity := Event.DEFAULT_VELOCITY,
       volume := Event.DEFAULT_VOLUME,
       tuning := ONE_F32,
       portaDestination := 0,
       portaPos := 0,
       panVols := [64, 64],
       panTimeOffs := [0, 0])
  }

  /**
   * `tone_pan_volume`'s channel volumes: exactly one channel is attenuated,
   * by the distance of `vol` from the centre 64 (the left one right of the
   * centre, the right one left of it).
   */
  function PanVolumes(vol: u8): (r: seq<i16>)
    ensures |r| == MAX_CHANNEL
    ensures r[0] == 64 - Max(vol - 64, 0) && r[1] == 64 - Max(64 - vol, 0)
    ensures r[0] == 64 || r[1] == 64
  {
    if vol >= 64 then [128 - vol, 64] else [64, vol]
  }

  /** `tone_init` centres the unit: its pan volumes and pan-time offsets are those of the centre positions. */
  lemma ToneInitCentred(s: UnitState, sps: u16)
    requires sps > 0
    ensures ToneInitOf(s).panVols == PanVolumes(64)
    ensures ToneInitOf(s).panTimeOffs == ToLrOffsets(PAN_TIME_CENTRE, sps)
  {
  }

  /** The unit after `tone_key(key)`: the slide starts at the current key and aims `key - key_now` above it. */
  function ToneKeyOf(s: UnitState, key: i32): UnitState
  {
    s.(keyStart := s.keyNow, keyMargin := WrapI32(key - s.keyNow), portaPos := 0)
  }

  /** The unit after `tone_key_on`: the key jumps to the target of the slide. */
  function ToneKeyOnOf(s: UnitState): UnitState
  {
    var k := WrapI32(s.keyStart + s.keyMargin);
    s.(keyNow := k, keyStart := k, keyMargin := 0)
  }

  /** A key set by `tone_key` and then struck by `tone_key_on` is the key that sounds, with no slide left. */
  lemma KeyThenKeyOn(s: UnitState, key: i32)
    ensures var t := ToneKeyOnOf(ToneKeyOf(s, key));
            t.keyNow == key && t.keyStart == key && t.keyMargin == 0
    ensures var t := ToneKeyOnOf(ToneKeyOf(s, key));
            t.portaPos == 0 && t.tones == s.tones && t.panVols == s.panVols && t.voiceIdx == s.voiceIdx
  {
    WrapI32AddWrapped(s.keyNow, key - s.keyNow);
    WrapI32Exact(key);
  }

  /** `tone_zero_lives`: every tone stops; nothing else about the tones changes. */
  function ZeroLivesOf(s: UnitState): UnitState
    requires WellFormed(s)
  {
    s.(tones := [s.tones[0].(lifeCount := 0), s.tones[1].(lifeCount := 0)])
  }

  /** The unit after `set_voice(idx)`: that voice, at the default key, without a slide. */
  function SetVoiceOf(s: UnitState, idx: u8): UnitState
  {
    s.(voiceIdx := idx, keyNow := Event.DEFAULT_KEY, keyMargin := 0, keyStart := Event.DEFAULT_KEY)
  }

  /** What `reset_voice` does to one tone: silent, at sample 0, with the voice unit's derived timing. */
  function ResetTone(t: VoiceTone, timing: ToneTiming): VoiceTone
  {
    t.(lifeCount := 0, onCount := 0, smpPos := 0,
       envReleaseClock := timing.envReleaseClock, offsetFreq := timing.offsetFreq)
  }

  /**
   * The voice `reset_voice` selects: the requested one, or voice 0 when the
   * index is past the voice list.
   */
  function ChosenVoice(voices: seq<seq<ToneTiming>>, idx: u8): (v: u8)
    ensures v == idx || v == 0
    ensures |voices| > 0 ==> v < |voices|
  {
    if idx < |voices| then idx else 0
  }

  /**
   * The unit after `reset_voice(idx)`. Each voice is given as the timing of
   * its unit/instance pairs. The chosen voice is set; when a voice exists,
   * the tone of each of its pairs is reset, and a tone without a pair keeps
   * its state.
   */
  function ResetVoiceOf(s: UnitState, voices: seq<seq<ToneTiming>>, idx: u8): UnitState
    requires WellFormed(s)
  {
    var v := ChosenVoice(voices, idx);
    var s1 := SetVoiceOf(s, v);
    if |voices| == 0 then s1
    else
      s1.(tones := seq(MAX_CHANNEL, ch requires 0 <= ch < MAX_CHANNEL =>
                         if ch < |voices[v]| then ResetTone(s.tones[ch], voices[v][ch]) else s.tones[ch]))
  }

  /**
   * After `reset_voice`, the unit sounds nothing. It plays an existing voice,
   * at the default key, and keeps its pan and group.
   */
  lemma ResetVoiceSilences(s: UnitState, voices: seq<seq<ToneTiming>>, idx: u8)
    requires WellFormed(s)
    requires forall ch | 0 <= ch < MAX_CHANNEL :: s.tones[ch].lifeCount == 0 || (|voices| > 0 && ch < |voices[ChosenVoice(voices, idx)]|)
    ensures var t := ResetVoiceOf(s, voices, idx);
            && WellFormed(t)
            && (forall ch | 0 <= ch < MAX_CHANNEL :: t.tones[ch].lifeCount == 0)
            && (|voices| > 0 ==> t.voiceIdx < |voices|)
            && t.keyNow == Event.DEFAULT_KEY && t.keyMargin == 0
            && t.panVols == s.panVols && t.panTimeOffs == s.panTimeOffs && t.group == s.group
  {
  }

  /**
   * The slot `tone_supple` reads: `off` slots behind `idx` in the 64-slot
   * ring, computed with a wrapping `usize` subtraction masked to 6 bits.
   */
  function RingIndex(idx: u64, off: u8): nat
  {
    Wrap64(idx - off) % PAN_TIME_BUF_LEN
  }

  /** The slot read is the one written `off` samples before `idx`, whatever the wrap-around. */
  lemma RingIndexLags(idx: u64, off: u8)
    ensures RingIndex(idx, off) < PAN_TIME_BUF_LEN
    ensures (RingIndex(idx, off) + off) % PAN_TIME_BUF_LEN == idx % PAN_TIME_BUF_LEN
  {
    var w := Wrap64(idx - off);
    var k := if idx >= off then 0 else 1;
    DivModUnique(idx - off, 0x1_0000_0000_0000_0000, -k, w);
    var q, r := (idx - off) / 64, (idx - off) % 64;
    assert w == (q + k * 0x400_0000_0000_0000) * 64 + r;
    DivModUnique(w, 64, q + k * 0x400_0000_0000_0000, r);
    assert idx == (idx / 64) * 64 + idx % 64;
    DivModUnique(r + off, 64, idx / 64 - q, idx % 64);
  }

  /**
   * `Unit`. `pan_vols`, `pan_time_offs`, `pan_time_bufs` and `tones` are
   * fixed-size arrays in the source and sequences of fixed length here.
   */
  class Unit {
    var name: string
    var keyNow: i32
    var keyStart: i32
    var keyMargin: i32
    var portaPos: u32
    var portaDestination: u32
    var panVols: seq<i16>
    var panTimeOffs: seq<u8>
    var panTimeBufs: seq<seq<i32>>
    var volume: i16
    var velocity: i16
    var group: u8
    var tuning: u32
    var voiceIdx: u8
    var tones: seq<VoiceTone>
    var mute: bool

    function State(): UnitState
      reads this
    {
      UnitState(name, keyNow, keyStart, keyMargin, portaPos, portaDestination, panVols, panTimeOffs,
                panTimeBufs, volume, velocity, group, tuning, voiceIdx, tones, mute)
    }

    /** The state has the fixed shape of a unit. */
    predicate Valid()
      reads this
    {
      WellFormed(State())
    }

    /** `Unit::new`. */
    constructor ()
      ensures Valid() && State() == NEW_UNIT
    {
      name := "<no name>";
      keyNow, keyStart, keyMargin := 0, 0, 0;
      portaPos, portaDestination := 0, 0;
      panVols, panTimeOffs := [0, 0], [0, 0];
      panTimeBufs := [seq(PAN_TIME_BUF_LEN, _ => 0), seq(PAN_TIME_BUF_LEN, _ => 0)];
      volume, velocity, group, tuning, voiceIdx := 0, 0, 0, 0, 0;
      tones := [DEFAULT_TONE, DEFAULT_TONE];
      mute := false;
    }

    /** `tone_init`. */
    method ToneInit()
      requires Valid()
      modifies this
      ensures State() == ToneInitOf(old(State()))
      ensures Valid()
    {
      ghost var s0 := State();
      ResetControls();
      SameShape(s0, State());
      CentrePan();
    }

    /** The field resets of `tone_init` ahead of its channel loop. */
    method ResetControls()
      requires Valid()
      modifies this
      ensures State() == ToneInitOf(old(State())).(panVols := old(panVols), panTimeOffs := old(panTimeOffs))
    {
      group, velocity, volume := 0, Event.DEFAULT_VELOCITY, Event.DEFAULT_VOLUME;
      tuning, portaDestination, portaPos := ONE_F32, 0, 0;
    }

    /** The channel loop of `tone_init`: both channels at volume 64, without pan-time lag. */
    method CentrePan()
      requires Valid()
      modifies this
      ensures Valid() && State() == old(State()).(panVols := [64, 64], panTimeOffs := [0, 0])
    {
      var vols, offs := panVols, panTimeOffs;
      for i := 0 to MAX_CHANNEL
        invariant |vols| == MAX_CHANNEL && |offs| == MAX_CHANNEL
        invariant forall j | 0 <= j < MAX_CHANNEL :: vols[j] == if j < i then 64 else old(panVols[j])
        invariant forall j | 0 <= j < MAX_CHANNEL :: offs[j] == if j < i then 0 else old(panTimeOffs[j])
      {
        vols := vols[i := 64];
        offs := offs[i := 0];
      }
      assert vols == [64, 64] && offs == [0, 0];
      panVols, panTimeOffs := vols, offs;
    }

    /** `tone_key_on`. */
    method ToneKeyOn()
      modifies this
      ensures State() == ToneKeyOnOf(old(State()))
    {
      keyNow := WrapI32(keyStart + keyMargin);
      keyStart := keyNow;
      keyMargin := 0;
    }

    /** `tone_zero_lives`. */
    method ToneZeroLives()
      requires Valid()
      modifies this
      ensures Valid() && State() == ZeroLivesOf(old(State()))
    {
      for ch := 0 to MAX_CHANNEL
        invariant State() == old(State()).(tones := tones) && |tones| == MAX_CHANNEL
        invariant forall j | 0 <= j < MAX_CHANNEL :: tones[j] == if j < ch then old(tones[j]).(lifeCount := 0) else old(tones[j])
      {
        tones := tones[ch := tones[ch].(lifeCount := 0)];
      }
      assert tones == [old(tones[0]).(lifeCount := 0), old(tones[1]).(lifeCount := 0)];
    }

    /** `tone_key`. */
    method ToneKey(key: i32)
      modifies this
      ensures State() == ToneKeyOf(old(State()), key)
    {
      keyStart := keyNow;
      keyMargin := WrapI32(key - keyStart);
      portaPos := 0;
    }

    /** `tone_pan_volume`. */
    method TonePanVolume(vol: u8)
      requires Valid()
      modifies this
      ensures Valid() && State() == old(State()).(panVols := PanVolumes(vol))
    {
      panVols := panVols[0 := 64][1 := 64];
      if vol >= 64 {
        panVols := panVols[0 := 128 - vol];
      } else {
        panVols := panVols[1 := vol];
      }
    }

    /** `tone_pan_time`. */
    method TonePanTime(panTime: u8, sps: u16)
      requires Valid() && sps > 0
      modifies this
      ensures Valid() && State() == old(State()).(panTimeOffs := ToLrOffsets(panTime, sps))
    {
      panTimeOffs := ToLrOffsets(panTime, sps);
    }

    /**
     * `tone_supple`: the pan-time buffer of channel `ch`, at the slot `off`
     * samples behind `timePanIndex`, is added (wrapping) to this unit's group
     * slot; no other slot changes. Indexing past the seven groups panics in
     * the source, hence the precondition on `group`.
     */
    method ToneSupple(groupSmps: array<i32>, ch: nat, timePanIndex: u64)
      requires Valid() && ch < MAX_CHANNEL && groupSmps.Length == GROUP_NUM && group < GROUP_NUM
      modifies groupSmps
      ensures groupSmps[..] ==
                old(groupSmps[..])[group := WrapI32(old(groupSmps[group]) as int + panTimeBufs[ch][RingIndex(timePanIndex, panTimeOffs[ch])])]
    {
      var idx := Wrap64(timePanIndex - panTimeOffs[ch]) % PAN_TIME_BUF_LEN;
      groupSmps[group] := WrapI32(groupSmps[group] as int + panTimeBufs[ch][idx]);
    }

    /** `set_voice`. */
    method SetVoice(idx: u8)
      modifies this
      ensures State() == SetVoiceOf(old(State()), idx)
    {
      voiceIdx, keyNow, keyMargin, keyStart := idx, Event.DEFAULT_KEY, 0, Event.DEFAULT_KEY;
    }

    /**
     * `reset_voice`, given for each voice the floating-point timing of its
     * unit/instance pairs.
     */
    method ResetVoice(voices: seq<seq<ToneTiming>>, idx: u8)
      requires Valid()
      modifies this
      ensures Valid() && State() == ResetVoiceOf(old(State()), voices, idx)
    {
      var v := idx;
      if v >= |voices| {
        v := 0;
      }
      SetVoice(v);
      if |voices| == 0 {
        return;
      }
      var timings := voices[v];
      var n := Min(|timings|, MAX_CHANNEL);
      ghost var s1 := State();
      for ch := 0 to n
        invariant State() == s1.(tones := tones) && |tones| == MAX_CHANNEL
        invariant forall j | 0 <= j < MAX_CHANNEL ::
                    tones[j] == if j < ch then ResetTone(old(tones[j]), timings[j]) else old(tones[j])
      {
        tones := tones[ch := ResetTone(tones[ch], timings[ch])];
      }
    }
  }
}

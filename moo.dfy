/**
 * Playback ("mooing"): the integer skeleton of producing one stereo sample.
 * The events due at the current tick are dispatched to their units; every
 * unit and every delay adds into seven sample groups per channel; the
 * groups are summed and clamped to the `i16` range; the counters advance
 * and wrap to the repeat point at the end of the song, or playback stops.
 *
 * The floating-point quantities (the current tick of a sample count, a
 * portamento length in samples, a note's on and life counts) are given as
 * functions. The per-unit envelope, sampling and frequency steps and the
 * overdrive effects are not part of this model.
 */
module Moo {
  import opened Base
  import opened Unit
  import Delay
  import Event
  import Herd
  import Voice

  /** `ControlFlow<()>`: whether the event loop goes on. */
  datatype Flow = Continue | Break

  /** Indexing the seven sample groups past their end panics. */
  datatype Panic = GroupIndexPanic

  /** What the life count of one tone of a note depends on. */
  datatype LifeInputs = LifeInputs(
    cursor: nat, evt: Event.Event, clock: u32, duration: u32, envRelease: u32, envReleaseClock: u32)

  /**
   * The floating-point quantities of playback: `current_tick` of a sample
   * count, `tick_to_sample` of a portamento duration, and the on count
   * (from the event tick, the duration and the clock) and per-tone life
   * count `do_on_event` computes.
   */
  datatype FloatParts = FloatParts(
    currentTick: u32 -> u32,
    tickToSample: u32 -> u32,
    onCount: (u32, u32, u32) -> i32,
    lifeCount: LifeInputs -> i32)

  // ---- one event ----

  /**
   * One tone of a note that starts: its life count is set; a living tone
   * also takes the on count and restarts at sample 0 and envelope position
   * 0, at full envelope volume when its instance has no envelope and at 0
   * otherwise.
   */
  function OnToneOf(t: Voice.VoiceTone, life: i32, on: i32, envEmpty: bool): Voice.VoiceTone
  {
    if life > 0 then
      var e: u8 := if envEmpty then 128 else 0;
      t.(lifeCount := life, onCount := on, smpPos := 0, envPos := 0, envVolume := e, envStart := e)
    else
      t.(lifeCount := life)
  }

  /**
   * `do_on_event`: a note whose on count is not positive silences the unit;
   * otherwise the key is struck and, when the unit's voice exists, each tone
   * paired with one of the voice's instances starts.
   */
  function OnEventOf(s: UnitState, voices: seq<seq<Herd.PairView>>, fl: FloatParts, cursor: nat,
                     evt: Event.Event, clock: u32, duration: u32): (r: UnitState)
    requires WellFormed(s)
    ensures WellFormed(r)
  {
    var on := fl.onCount(evt.tick, duration, clock);
    if on <= 0 then ZeroLivesOf(s)
    else
      var k := ToneKeyOnOf(s);
      if k.voiceIdx >= |voices| then k
      else
        var pairs := voices[k.voiceIdx];
        k.(tones := seq(MAX_CHANNEL, ch requires 0 <= ch < MAX_CHANNEL =>
             if ch < |pairs| then
               OnToneOf(k.tones[ch],
                        fl.lifeCount(LifeInputs(cursor, evt, clock, duration, pairs[ch].envRelease, k.tones[ch].envReleaseClock)),
                        on, pairs[ch].envEmpty)
             else k.tones[ch]))
  }

  /** The unit an event addresses, after the event. */
  function UnitEventOf(s: UnitState, ins: Herd.MooInstructions, fl: FloatParts, cursor: nat,
                       evt: Event.Event, clock: u32, dstSps: u16): (r: UnitState)
    requires WellFormed(s) && dstSps > 0
    ensures WellFormed(r)
  {
    match evt.payload
    case On(duration) => OnEventOf(s, ins.voices, fl, cursor, evt, clock, duration)
    case Key(key) => ToneKeyOf(s, key)
    case PanVol(vol) => s.(panVols := PanVolumes(vol))
    case PanTime(pan) => s.(panTimeOffs := ToLrOffsets(pan, dstSps))
    case Velocity(v) => s.(velocity := v)
    case Volume(v) => s.(volume := v)
    case Portament(d) => s.(portaDestination := fl.tickToSample(d))
    case SetVoice(n) => ResetVoiceOf(s, Herd.Timings(ins.voices), n)
    case SetGroup(g) => s.(group := g)
    case Tuning(bits) => s.(tuning := bits)
    case _ => s
  }

  /** Whether an event stops the event loop: its unit does not exist, or it is `Null`. */
  predicate Breaks(units: nat, evt: Event.Event)
  {
    evt.unit >= units || evt.payload.Null?
  }

  /** `do_event` on the unit states. */
  function DoEventOf(us: seq<UnitState>, ins: Herd.MooInstructions, fl: FloatParts, cursor: nat,
                     evt: Event.Event, clock: u32, dstSps: u16): (r: (Flow, seq<UnitState>))
    requires (forall k | 0 <= k < |us| :: WellFormed(us[k])) && dstSps > 0
    ensures |r.1| == |us| && forall k | 0 <= k < |us| :: WellFormed(r.1[k])
  {
    if evt.unit >= |us| then (Break, us)
    else (if evt.payload.Null? then Break else Continue,
          us[evt.unit := UnitEventOf(us[evt.unit], ins, fl, cursor, evt, clock, dstSps)])
  }

  /**
   * `do_event` stops exactly at an event for a missing unit or a `Null`
   * event, and such an event changes nothing. Otherwise only the addressed
   * unit changes; the timing and loop events and the debug events change
   * nothing, and velocity, volume, group and tuning events set exactly that
   * field.
   */
  lemma DoEventDispatch(us: seq<UnitState>, ins: Herd.MooInstructions, fl: FloatParts, cursor: nat,
                        evt: Event.Event, clock: u32, dstSps: u16)
    requires (forall k | 0 <= k < |us| :: WellFormed(us[k])) && dstSps > 0
    ensures var (f, vs) := DoEventOf(us, ins, fl, cursor, evt, clock, dstSps);
            && (f == Break <==> Breaks(|us|, evt))
            && (f == Break ==> vs == us)
            && (forall k | 0 <= k < |us| && k != evt.unit :: vs[k] == us[k])
            && ((evt.payload.BeatClock? || evt.payload.BeatTempo? || evt.payload.BeatNum? ||
                 evt.payload.Repeat? || evt.payload.Last? || evt.payload.PtcowDebug?) ==> vs == us)
            && (evt.unit < |us| ==>
                  var s := us[evt.unit];
                  && (evt.payload.Velocity? ==> vs[evt.unit] == s.(velocity := evt.payload.velocity))
                  && (evt.payload.Volume? ==> vs[evt.unit] == s.(volume := evt.payload.volume))
                  && (evt.payload.SetGroup? ==> vs[evt.unit] == s.(group := evt.payload.group))
                  && (evt.payload.Tuning? ==> vs[evt.unit] == s.(tuning := evt.payload.bits)))
  {
    if evt.unit < |us| {
      var s := us[evt.unit];
      if !evt.payload.On? && !evt.payload.Key? && !evt.payload.PanVol? && !evt.payload.PanTime? &&
         !evt.payload.Velocity? && !evt.payload.Volume? && !evt.payload.Portament? &&
         !evt.payload.SetVoice? && !evt.payload.SetGroup? && !evt.payload.Tuning? {
        assert UnitEventOf(s, ins, fl, cursor, evt, clock, dstSps) == s;
        assert us[evt.unit := s] == us;
      }
    }
  }

  // ---- the event loop ----

  /**
   * The event loop of `next_sample` from cursor `i`: while the event at the
   * cursor is due at `clock`, it is done; the cursor passes it unless it
   * stops the loop. The result is the final cursor and the unit states.
   */
  function EventsFrom(us: seq<UnitState>, events: seq<Event.Event>, i: nat, ins: Herd.MooInstructions,
                      fl: FloatParts, clock: u32, dstSps: u16): (r: (nat, seq<UnitState>))
    requires (forall k | 0 <= k < |us| :: WellFormed(us[k])) && dstSps > 0
    ensures |r.1| == |us| && forall k | 0 <= k < |us| :: WellFormed(r.1[k])
    decreases |events| - i
  {
    if i < |events| && events[i].tick <= clock then
      var (f, vs) := DoEventOf(us, ins, fl, i, events[i], clock, dstSps);
      if f == Break then (i, vs) else EventsFrom(vs, events, i + 1, ins, fl, clock, dstSps)
    else (i, us)
  }

  /**
   * The event loop never moves the cursor back nor past the last event,
   * passes only due events that do not stop it, and stops at the end of the
   * list, at the first event not yet due, or at a due event that stops it,
   * which is then left where it is with the units unchanged by it.
   */
  lemma {:induction false} EventsFromStops(us: seq<UnitState>, events: seq<Event.Event>, i: nat,
                                           ins: Herd.MooInstructions, fl: FloatParts, clock: u32, dstSps: u16)
    requires (forall k | 0 <= k < |us| :: WellFormed(us[k])) && dstSps > 0
    ensures var (j, vs) := EventsFrom(us, events, i, ins, fl, clock, dstSps);
            && i <= j && (j <= |events| || j == i)
            && (forall n | i <= n < j :: events[n].tick <= clock && !Breaks(|us|, events[n]))
            && (j >= |events| || events[j].tick > clock || Breaks(|us|, events[j]))
            && (i == j ==> vs == us)
    decreases |events| - i
  {
    if i < |events| && events[i].tick <= clock {
      DoEventDispatch(us, ins, fl, i, events[i], clock, dstSps);
      var (f, vs) := DoEventOf(us, ins, fl, i, events[i], clock, dstSps);
      if f == Continue {
        EventsFromStops(vs, events, i + 1, ins, fl, clock, dstSps);
      }
    }
  }

  /** A due event that stops the loop holds the cursor: the loop makes no progress past it. */
  lemma BreakingEventHolds(us: seq<UnitState>, events: seq<Event.Event>, i: nat,
                           ins: Herd.MooInstructions, fl: FloatParts, clock: u32, dstSps: u16)
    requires (forall k | 0 <= k < |us| :: WellFormed(us[k])) && dstSps > 0
    requires i < |events| && events[i].tick <= clock && Breaks(|us|, events[i])
    ensures EventsFrom(us, events, i, ins, fl, clock, dstSps) == (i, us)
  {
    DoEventDispatch(us, ins, fl, i, events[i], clock, dstSps);
  }

  // ---- mixing ----

  /** The group slots of one channel before any unit adds into them. */
  const NO_GROUPS: seq<i32> := [0, 0, 0, 0, 0, 0, 0]

  /** A unit's `tone_supple` on values. */
  function SuppleUnitOf(s: UnitState, g: seq<i32>, ch: nat, tpi: u64): (r: seq<i32>)
    requires WellFormed(s) && ch < MAX_CHANNEL && |g| == GROUP_NUM && s.group < GROUP_NUM
    ensures |r| == GROUP_NUM
  {
    g[s.group := WrapI32(g[s.group] as int + s.panTimeBufs[ch][RingIndex(tpi, s.panTimeOffs[ch])])]
  }

  /** Every unit that sounds has a group within range. */
  predicate UnitGroupsFit(us: seq<UnitState>)
  {
    forall k | 0 <= k < |us| :: !us[k].mute ==> us[k].group < GROUP_NUM
  }

  /** Every delay has a group within range. */
  predicate DelayGroupsFit(ds: seq<Delay.DelayState>)
  {
    forall k | 0 <= k < |ds| :: ds[k].config.group < GROUP_NUM
  }

  /** Every group index the mix uses is within range. */
  predicate GroupsInRange(us: seq<UnitState>, ds: seq<Delay.DelayState>)
  {
    UnitGroupsFit(us) && DelayGroupsFit(ds)
  }

  /** The units' contributions to one channel, added in unit order; a muted unit adds nothing. */
  function UnitsSuppleOf(g: seq<i32>, us: seq<UnitState>, ch: nat, tpi: u64): (r: seq<i32>)
    requires |g| == GROUP_NUM && ch < MAX_CHANNEL
    requires forall k | 0 <= k < |us| :: WellFormed(us[k]) && (!us[k].mute ==> us[k].group < GROUP_NUM)
    ensures |r| == GROUP_NUM
  {
    if |us| == 0 then g
    else
      var h := UnitsSuppleOf(g, us[..|us| - 1], ch, tpi);
      var s := us[|us| - 1];
      if s.mute then h else SuppleUnitOf(s, h, ch, tpi)
  }

  /** The delays applied to one channel in order, each changing its own state. */
  function DelaysSuppleOf(ds: seq<Delay.DelayState>, g: seq<i32>, ch: nat): (r: (seq<Delay.DelayState>, seq<i32>))
    requires |g| == GROUP_NUM && ch < MAX_CHANNEL
    requires forall k | 0 <= k < |ds| :: Delay.WellFormed(ds[k]) && ds[k].config.group < GROUP_NUM
    ensures |r.0| == |ds| && |r.1| == GROUP_NUM
    ensures forall k | 0 <= k < |ds| ::
              Delay.WellFormed(r.0[k]) && r.0[k].config == ds[k].config
  {
    if |ds| == 0 then ([], g)
    else
      var (es, h) := DelaysSuppleOf(ds[..|ds| - 1], g, ch);
      Delay.SuppleKeepsShape(ds[|ds| - 1], ch, h);
      var (e, h2) := Delay.SuppleOf(ds[|ds| - 1], ch, h);
      (es + [e], h2)
  }

  /** The units up to `k` inclusive: unit `k` adds into the groups unless it is muted. */
  lemma UnitsSuppleStep(g: seq<i32>, us: seq<UnitState>, k: nat, ch: nat, tpi: u64)
    requires |g| == GROUP_NUM && ch < MAX_CHANNEL && k < |us|
    requires forall j | 0 <= j < |us| :: WellFormed(us[j]) && (!us[j].mute ==> us[j].group < GROUP_NUM)
    ensures UnitsSuppleOf(g, us[..k + 1], ch, tpi) ==
              if us[k].mute then UnitsSuppleOf(g, us[..k], ch, tpi)
              else SuppleUnitOf(us[k], UnitsSuppleOf(g, us[..k], ch, tpi), ch, tpi)
  {
    assert us[..k + 1][..k] == us[..k];
  }

  /** The delays up to `k` inclusive: delay `k` applies to the groups the earlier ones left. */
  lemma DelaysSuppleStep(ds: seq<Delay.DelayState>, g: seq<i32>, k: nat, ch: nat)
    requires |g| == GROUP_NUM && ch < MAX_CHANNEL && k < |ds|
    requires forall j | 0 <= j < |ds| :: Delay.WellFormed(ds[j]) && ds[j].config.group < GROUP_NUM
    ensures var (es, h) := DelaysSuppleOf(ds[..k], g, ch);
            var (e, h2) := Delay.SuppleOf(ds[k], ch, h);
            DelaysSuppleOf(ds[..k + 1], g, ch) == (es + [e], h2)
  {
    assert ds[..k + 1][..k] == ds[..k];
  }

  /** `out_samp += group_smp` over the groups, in wrapping `i32` arithmetic. */
  function WrappingSum(g: seq<i32>): i32
  {
    if |g| == 0 then 0 else WrapI32(WrappingSum(g[..|g| - 1]) as int + g[|g| - 1])
  }

  /** The exact sum of the groups. */
  function Sum(g: seq<i32>): int
  {
    if |g| == 0 then 0 else Sum(g[..|g| - 1]) + g[|g| - 1]
  }

  /** The wrapping sum is the exact sum wrapped once to `i32`; when the exact sum fits, they agree. */
  lemma {:induction false} WrappingSumWraps(g: seq<i32>)
    ensures WrappingSum(g) == WrapI32(Sum(g))
    ensures -0x8000_0000 <= Sum(g) < 0x8000_0000 ==> WrappingSum(g) == Sum(g)
  {
    if |g| == 0 {
      WrapI32Exact(0);
    } else {
      var p := g[..|g| - 1];
      WrappingSumWraps(p);
      WrapI32AddWrapped(g[|g| - 1], Sum(p));
      assert WrappingSum(p) as int + g[|g| - 1] == g[|g| - 1] + WrapI32(Sum(p));
      assert Sum(g) == g[|g| - 1] + Sum(p);
    }
    if -0x8000_0000 <= Sum(g) < 0x8000_0000 {
      WrapI32Exact(Sum(g));
    }
  }

  /** The output sample of one channel: the wrapped sum of the groups, clamped to `i16`. */
  function OutSample(g: seq<i32>): (r: i16)
  {
    Clamp(WrappingSum(g), -0x8000, 0x7FFF)
  }

  /**
   * The output sample is the exact sum of the groups whenever that sum is
   * a valid `i16`, and the nearest bound when the sum fits `i32` but not
   * `i16`.
   */
  lemma OutSampleClamps(g: seq<i32>)
    ensures -0x8000 <= Sum(g) <= 0x7FFF ==> OutSample(g) == Sum(g)
    ensures 0x7FFF < Sum(g) < 0x8000_0000 ==> OutSample(g) == 0x7FFF
    ensures -0x8000_0000 <= Sum(g) < -0x8000 ==> OutSample(g) == -0x8000
  {
    WrappingSumWraps(g);
  }

  /**
   * One channel's groups: the units add in, then the delays apply, each
   * changing its own state. The result is the delays and the groups.
   */
  function ChannelGroups(us: seq<UnitState>, ds: seq<Delay.DelayState>, ch: nat, tpi: u64)
    : (r: (seq<Delay.DelayState>, seq<i32>))
    requires ch < MAX_CHANNEL && GroupsInRange(us, ds)
    requires (forall k | 0 <= k < |us| :: WellFormed(us[k])) && (forall k | 0 <= k < |ds| :: Delay.WellFormed(ds[k]))
    ensures |r.0| == |ds| && |r.1| == GROUP_NUM
    ensures forall k | 0 <= k < |ds| :: Delay.WellFormed(r.0[k]) && r.0[k].config == ds[k].config
  {
    DelaysSuppleOf(ds, UnitsSuppleOf(NO_GROUPS, us, ch, tpi), ch)
  }

  /** `tone_increment` of every delay. */
  function IncrementAll(ds: seq<Delay.DelayState>): (r: seq<Delay.DelayState>)
    requires forall k | 0 <= k < |ds| :: Delay.WellFormed(ds[k])
    ensures |r| == |ds| && forall k | 0 <= k < |ds| :: Delay.WellFormed(r[k]) && r[k] == Delay.IncrementOf(ds[k])
  {
    seq(|ds|, k requires 0 <= k < |ds| => Delay.IncrementOf(ds[k]))
  }

  /** The delays after both channels are mixed and every delay has stepped. */
  function MixedDelays(us: seq<UnitState>, ds: seq<Delay.DelayState>, tpi: u64): (r: seq<Delay.DelayState>)
    requires GroupsInRange(us, ds)
    requires (forall k | 0 <= k < |us| :: WellFormed(us[k])) && (forall k | 0 <= k < |ds| :: Delay.WellFormed(ds[k]))
    ensures |r| == |ds| && forall k | 0 <= k < |ds| :: Delay.WellFormed(r[k]) && r[k].config == ds[k].config
  {
    var ds0 := ChannelGroups(us, ds, 0, tpi).0;
    IncrementAll(ChannelGroups(us, ds0, 1, tpi).0)
  }

  /** The two output samples: each channel's groups mixed to one sample. */
  function MixedOut(us: seq<UnitState>, ds: seq<Delay.DelayState>, tpi: u64): (r: seq<i16>)
    requires GroupsInRange(us, ds)
    requires (forall k | 0 <= k < |us| :: WellFormed(us[k])) && (forall k | 0 <= k < |ds| :: Delay.WellFormed(ds[k]))
    ensures |r| == MAX_CHANNEL
  {
    var (ds0, g0) := ChannelGroups(us, ds, 0, tpi);
    [OutSample(g0), OutSample(ChannelGroups(us, ds0, 1, tpi).1)]
  }

  // ---- the units' contribution ----

  /** What the units add into channel `ch`: each sounding unit's pan-time sample `off` slots back. */
  function Contribution(us: seq<UnitState>, ch: nat, tpi: u64): int
    requires ch < MAX_CHANNEL && forall k | 0 <= k < |us| :: WellFormed(us[k])
  {
    if |us| == 0 then 0
    else
      var s := us[|us| - 1];
      assert WellFormed(s);
      Contribution(us[..|us| - 1], ch, tpi) + (if s.mute then 0 else s.panTimeBufs[ch][RingIndex(tpi, s.panTimeOffs[ch])])
  }

  /** Setting one slot changes the exact sum by the difference. */
  lemma {:induction false} SumUpdate(g: seq<i32>, i: nat, v: i32)
    requires i < |g|
    ensures Sum(g[i := v]) == Sum(g) - g[i] + v
  {
    var h := g[i := v];
    if i < |g| - 1 {
      SumUpdate(g[..|g| - 1], i, v);
      assert h[..|h| - 1] == g[..|g| - 1][i := v];
    } else {
      assert h[..|h| - 1] == g[..|g| - 1];
    }
  }

  /** The sum of two multiples of 2^32 is one. */
  lemma MultiplesAdd(a: int, b: int)
    requires a % 0x1_0000_0000 == 0 && b % 0x1_0000_0000 == 0
    ensures (a + b) % 0x1_0000_0000 == 0
  {
    assert a == (a / 0x1_0000_0000) * 0x1_0000_0000;
    assert b == (b / 0x1_0000_0000) * 0x1_0000_0000;
    DivModUnique(a + b, 0x1_0000_0000, a / 0x1_0000_0000 + b / 0x1_0000_0000, 0);
  }

  /** Groups that are all silent sum to zero. */
  lemma {:induction false} SumOfZeros(g: seq<i32>)
    requires forall i | 0 <= i < |g| :: g[i] == 0
    ensures Sum(g) == 0
  {
    if |g| > 0 {
      SumOfZeros(g[..|g| - 1]);
    }
  }

  /** Two integers congruent modulo 2^32 wrap to the same `i32`. */
  lemma WrapI32Congruent(x: int, y: int)
    requires (x - y) % 0x1_0000_0000 == 0
    ensures WrapI32(x) == WrapI32(y)
  {
    var q := (x - y) / 0x1_0000_0000;
    assert x == y + q * 0x1_0000_0000;
    DivModUnique(x, 0x1_0000_0000, y / 0x1_0000_0000 + q, y % 0x1_0000_0000);
  }

  /**
   * Up to `i32` wrap-around, the units raise the total of the groups by
   * exactly their contribution, whatever groups they belong to.
   */
  lemma {:induction false} UnitsSuppleTotal(g: seq<i32>, us: seq<UnitState>, ch: nat, tpi: u64)
    requires |g| == GROUP_NUM && ch < MAX_CHANNEL
    requires forall k | 0 <= k < |us| :: WellFormed(us[k]) && (!us[k].mute ==> us[k].group < GROUP_NUM)
    ensures (Sum(UnitsSuppleOf(g, us, ch, tpi)) - (Sum(g) + Contribution(us, ch, tpi))) % 0x1_0000_0000 == 0
  {
    if |us| > 0 {
      var p := us[..|us| - 1];
      UnitsSuppleTotal(g, p, ch, tpi);
      var h := UnitsSuppleOf(g, p, ch, tpi);
      var s := us[|us| - 1];
      if !s.mute {
        var c: int := s.panTimeBufs[ch][RingIndex(tpi, s.panTimeOffs[ch])];
        var v := WrapI32(h[s.group] as int + c);
        assert UnitsSuppleOf(g, us, ch, tpi) == h[s.group := v];
        assert Contribution(us, ch, tpi) == Contribution(p, ch, tpi) + c;
        SumUpdate(h, s.group, v);
        hide *;
        MultiplesAdd(Sum(h) - (Sum(g) + Contribution(p, ch, tpi)), v as int - (h[s.group] as int + c));
      } else {
        assert Contribution(us, ch, tpi) == Contribution(p, ch, tpi);
      }
    }
  }

  /**
   * Without delay effects, a channel's output sample is the units'
   * contribution wrapped to `i32` and clamped to `i16`: exactly that
   * contribution whenever it is a valid `i16`.
   */
  lemma MixWithoutDelays(us: seq<UnitState>, ch: nat, tpi: u64)
    requires ch < MAX_CHANNEL && GroupsInRange(us, [])
    requires forall k | 0 <= k < |us| :: WellFormed(us[k])
    ensures var g := ChannelGroups(us, [], ch, tpi).1;
            && OutSample(g) == Clamp(WrapI32(Contribution(us, ch, tpi)), -0x8000, 0x7FFF)
            && (-0x8000 <= Contribution(us, ch, tpi) <= 0x7FFF ==> OutSample(g) == Contribution(us, ch, tpi))
  {
    var g := ChannelGroups(us, [], ch, tpi).1;
    assert g == UnitsSuppleOf(NO_GROUPS, us, ch, tpi);
    UnitsSuppleTotal(NO_GROUPS, us, ch, tpi);
    SumOfZeros(NO_GROUPS);
    WrappingSumWraps(g);
    WrapI32Congruent(Sum(g), Contribution(us, ch, tpi));
    if -0x8000 <= Contribution(us, ch, tpi) <= 0x7FFF {
      WrapI32Exact(Contribution(us, ch, tpi));
    }
  }

  // ---- one sample ----

  /** The event loop runs only when playback advances; it returns the cursor and the unit states. */
  function EventStep(p: Herd.PlayState, events: seq<Event.Event>, ins: Herd.MooInstructions, fl: FloatParts,
                     dstSps: u16, advance: bool): (r: (nat, seq<UnitState>))
    requires Herd.WellFormedPlay(p) && dstSps > 0
    ensures |r.1| == |p.units| && forall k | 0 <= k < |p.units| :: WellFormed(r.1[k])
  {
    if advance then EventsFrom(p.units, events, p.counts.evtIdx, ins, fl, fl.currentTick(p.counts.smpCount), dstSps)
    else (p.counts.evtIdx, p.units)
  }

  /** The counters after a sample, before the end check. */
  function Stepped(c: Herd.Counters, evtIdx: nat, advance: bool): Herd.Counters
  {
    c.(smpCount := if advance then Wrap32(c.smpCount + 1) else c.smpCount,
       timePanIndex := Wrap64(c.timePanIndex + 1) % PAN_TIME_BUF_LEN,
       evtIdx := evtIdx)
  }

  /**
   * The end check of `next_sample`, on the stepped counters: at or past the
   * end sample, playback stops unless it loops; looping returns to the
   * repeat sample and the first event and tunes every unit again.
   */
  function EndCheck(c: Herd.Counters, us: seq<UnitState>, ds: seq<Delay.DelayState>, ins: Herd.MooInstructions)
    : (Result<bool, Panic>, Herd.PlayState)
    requires forall k | 0 <= k < |us| :: WellFormed(us[k])
  {
    if c.smpCount >= c.smpEnd then
      if !c.loop then (Ok(false), Herd.PlayState(c, us, ds))
      else (Ok(true), Herd.PlayState(c.(smpCount := c.smpRepeat, evtIdx := 0), Herd.TunedAll(us, Herd.Timings(ins.voices)), ds))
    else (Ok(true), Herd.PlayState(c, us, ds))
  }

  /** What one sample yields: the result, the new state and the output samples. */
  datatype Outcome = Outcome(result: Result<bool, Panic>, state: Herd.PlayState, out: seq<i16>)

  /**
   * `next_sample` on values: the result (whether playback goes on, or a
   * panic at a group index past the seven groups), the new state and the
   * two output samples.
   */
  function NextSampleOf(p: Herd.PlayState, events: seq<Event.Event>, ins: Herd.MooInstructions, fl: FloatParts,
                        dstSps: u16, advance: bool): Outcome
    requires Herd.WellFormedPlay(p) && dstSps > 0
  {
    var e := EventStep(p, events, ins, fl, dstSps, advance);
    if !GroupsInRange(e.1, p.delays) then
      Outcome(Err(GroupIndexPanic), p.(counts := p.counts.(evtIdx := e.0), units := e.1), [])
    else
      var tpi := p.counts.timePanIndex;
      var end := EndCheck(Stepped(p.counts, e.0, advance), e.1, MixedDelays(e.1, p.delays, tpi), ins);
      Outcome(end.0, end.1, MixedOut(e.1, p.delays, tpi))
  }

  /**
   * The end check stops playback exactly at or past the end sample without
   * looping; looping moves to the repeat sample and the first event; before
   * the end the counters stay as stepped. The flags, the end and repeat
   * samples and the delays are untouched, and the units keep their shape.
   */
  lemma EndCheckMeaning(c: Herd.Counters, us: seq<UnitState>, ds: seq<Delay.DelayState>, ins: Herd.MooInstructions)
    requires forall k | 0 <= k < |us| :: WellFormed(us[k])
    ensures var (r, q) := EndCheck(c, us, ds, ins);
            && r.Ok?
            && (r == Ok(false) <==> c.smpCount >= c.smpEnd && !c.loop)
            && (c.smpCount >= c.smpEnd && c.loop ==> q.counts == c.(smpCount := c.smpRepeat, evtIdx := 0))
            && (c.smpCount < c.smpEnd || !c.loop ==> q.counts == c && q.units == us)
            && q.delays == ds && |q.units| == |us|
            && forall k | 0 <= k < |us| :: WellFormed(q.units[k])
  {
    forall k | 0 <= k < |us| {
      Herd.TunedUnitIsReset(us[k], Herd.Timings(ins.voices));
    }
  }

  /** Masking the wrapping `usize` successor to six bits is stepping modulo 64. */
  lemma TimePanStep(tpi: u64)
    ensures Wrap64(tpi + 1) % PAN_TIME_BUF_LEN == (tpi + 1) % PAN_TIME_BUF_LEN
  {
    var k := if tpi + 1 < 0x1_0000_0000_0000_0000 then 0 else 1;
    DivModUnique(tpi + 1, 0x1_0000_0000_0000_0000, k, tpi + 1 - k * 0x1_0000_0000_0000_0000);
    var w := Wrap64(tpi + 1);
    var q, m := (tpi + 1) / 64, (tpi + 1) % 64;
    assert w == (q - k * 0x400_0000_0000_0000) * 64 + m;
    DivModUnique(w, 64, q - k * 0x400_0000_0000_0000, m);
  }

  /** The end check applied to the stepped counters, in terms of the counters before the sample. */
  lemma SteppedEndCheck(c0: Herd.Counters, idx: nat, advance: bool, us: seq<UnitState>,
                        ds0: seq<Delay.DelayState>, ds: seq<Delay.DelayState>, ins: Herd.MooInstructions)
    requires |us| <= Herd.MAX_UNITS && forall k | 0 <= k < |us| :: WellFormed(us[k])
    requires |ds| == |ds0| <= Herd.MAX_DELAYS
    requires forall k | 0 <= k < |ds| :: Delay.WellFormed(ds[k]) && ds[k].config == ds0[k].config
    ensures var (r, q) := EndCheck(Stepped(c0, idx, advance), us, ds, ins);
            var count := if advance then Wrap32(c0.smpCount + 1) else c0.smpCount;
            && r.Ok?
            && q.counts.timePanIndex == (c0.timePanIndex + 1) % PAN_TIME_BUF_LEN
            && q.counts.mooEnd == c0.mooEnd && q.counts.loop == c0.loop
            && q.counts.smpEnd == c0.smpEnd && q.counts.smpRepeat == c0.smpRepeat
            && (r == Ok(false) <==> count >= c0.smpEnd && !c0.loop)
            && (count >= c0.smpEnd && c0.loop ==> q.counts.smpCount == c0.smpRepeat && q.counts.evtIdx == 0)
            && (count < c0.smpEnd || !c0.loop ==> q.counts.smpCount == count)
            && |q.delays| == |ds0|
            && (forall k | 0 <= k < |ds0| :: q.delays[k].config == ds0[k].config)
            && Herd.WellFormedPlay(q)
  {
    TimePanStep(c0.timePanIndex);
    EndCheckMeaning(Stepped(c0, idx, advance), us, ds, ins);
  }

  /**
   * What `next_sample` promises about the counters: it panics exactly when
   * a sounding unit or a delay has a group past the seven groups; the
   * pan-time index steps around the 64-slot ring; the sample counter
   * advances only when playback advances; at the end of the song playback
   * either stops (without looping) or returns to the repeat sample and the
   * first event; before the end it goes on. The end flag, the loop flag and
   * the end and repeat samples never change, nor do the delays'
   * configurations.
   */
  lemma NextSampleCounters(p: Herd.PlayState, events: seq<Event.Event>, ins: Herd.MooInstructions, fl: FloatParts,
                           dstSps: u16, advance: bool)
    requires Herd.WellFormedPlay(p) && dstSps > 0
    ensures var n := NextSampleOf(p, events, ins, fl, dstSps, advance);
            var count := if advance then Wrap32(p.counts.smpCount + 1) else p.counts.smpCount;
            && (n.result.Err? <==> !GroupsInRange(EventStep(p, events, ins, fl, dstSps, advance).1, p.delays))
            && (n.result.Err? ==>
                  n.out == [] && n.state.delays == p.delays && n.state.counts.(evtIdx := p.counts.evtIdx) == p.counts)
            && (n.result.Ok? ==>
                  && |n.out| == 2
                  && n.state.counts.timePanIndex == (p.counts.timePanIndex + 1) % PAN_TIME_BUF_LEN
                  && n.state.counts.mooEnd == p.counts.mooEnd && n.state.counts.loop == p.counts.loop
                  && n.state.counts.smpEnd == p.counts.smpEnd && n.state.counts.smpRepeat == p.counts.smpRepeat
                  && (n.result == Ok(false) <==> count >= p.counts.smpEnd && !p.counts.loop)
                  && (count >= p.counts.smpEnd && p.counts.loop ==>
                        n.state.counts.smpCount == p.counts.smpRepeat && n.state.counts.evtIdx == 0)
                  && (count < p.counts.smpEnd || !p.counts.loop ==> n.state.counts.smpCount == count)
                  && |n.state.delays| == |p.delays|
                  && (forall k | 0 <= k < |p.delays| :: n.state.delays[k].config == p.delays[k].config)
                  && Herd.WellFormedPlay(n.state))
  {
    hide EventStep, MixedDelays, MixedOut, EndCheck, Stepped;
    var tpi := p.counts.timePanIndex;
    var e := EventStep(p, events, ins, fl, dstSps, advance);
    if GroupsInRange(e.1, p.delays) {
      var ds := MixedDelays(e.1, p.delays, tpi);
      SteppedEndCheck(p.counts, e.0, advance, e.1, p.delays, ds, ins);
      var end := EndCheck(Stepped(p.counts, e.0, advance), e.1, ds, ins);
      assert NextSampleOf(p, events, ins, fl, dstSps, advance) == Outcome(end.0, end.1, MixedOut(e.1, p.delays, tpi));
      hide *;
    }
  }

  // ---- playback on the herd ----

  /** `do_on_event` on the addressed unit. */
  method DoOnEvent(unit: Unit, voices: seq<seq<Herd.PairView>>, fl: FloatParts, cursor: nat,
                   evt: Event.Event, clock: u32, duration: u32)
    requires unit.Valid()
    modifies unit
    ensures unit.Valid()
    ensures unit.State() == OnEventOf(old(unit.State()), voices, fl, cursor, evt, clock, duration)
  {
    var on := fl.onCount(evt.tick, duration, clock);
    if on <= 0 {
      unit.ToneZeroLives();
      return;
    }
    unit.ToneKeyOn();
    if unit.voiceIdx as nat >= |voices| {
      return;
    }
    ghost var k := unit.State();
    var pairs := voices[unit.voiceIdx];
    var n := if |pairs| < MAX_CHANNEL then |pairs| else MAX_CHANNEL;
    for ch := 0 to n
      invariant unit.State() == k.(tones := unit.tones)
      invariant |unit.tones| == MAX_CHANNEL
      invariant forall c | 0 <= c < MAX_CHANNEL ::
                  unit.tones[c] == if c < ch then
                    OnToneOf(k.tones[c], fl.lifeCount(LifeInputs(cursor, evt, clock, duration, pairs[c].envRelease, k.tones[c].envReleaseClock)),
                             on, pairs[c].envEmpty)
                  else k.tones[c]
    {
      var tone := unit.tones[ch];
      var life := fl.lifeCount(LifeInputs(cursor, evt, clock, duration, pairs[ch].envRelease, tone.envReleaseClock));
      tone := tone.(lifeCount := life);
      if life > 0 {
        var e: u8 := if pairs[ch].envEmpty then 128 else 0;
        tone := tone.(onCount := on, smpPos := 0, envPos := 0, envVolume := e, envStart := e);
      }
      unit.tones := unit.tones[ch := tone];
    }
  }

  /** The `match` of `do_event` on the addressed unit: a `Null` event stops the loop. */
  method UnitEvent(unit: Unit, ins: Herd.MooInstructions, fl: FloatParts, cursor: nat,
                   evt: Event.Event, clock: u32, dstSps: u16) returns (f: Flow)
    requires unit.Valid() && dstSps > 0
    modifies unit
    ensures unit.Valid()
    ensures f == (if evt.payload.Null? then Break else Continue)
    ensures unit.State() == UnitEventOf(old(unit.State()), ins, fl, cursor, evt, clock, dstSps)
  {
    f := Continue;
    match evt.payload
    case On(duration) => DoOnEvent(unit, ins.voices, fl, cursor, evt, clock, duration);
    case Key(key) => unit.ToneKey(key);
    case PanVol(vol) => unit.TonePanVolume(vol);
    case PanTime(pan) => unit.TonePanTime(pan, dstSps);
    case Velocity(v) => unit.velocity := v;
    case Volume(v) => unit.volume := v;
    case Portament(d) => unit.portaDestination := fl.tickToSample(d);
    case SetVoice(n) => unit.ResetVoice(Herd.Timings(ins.voices), n);
    case SetGroup(g) => unit.group := g;
    case Tuning(bits) => unit.tuning := bits;
    case Null => f := Break;
    case _ =>
  }

  /**
   * `do_event`: the event's unit takes the event; an event for a missing
   * unit, or a `Null` event, stops the event loop.
   */
  method DoEvent(herd: Herd.Herd, ins: Herd.MooInstructions, fl: FloatParts, clock: u32, dstSps: u16, evt: Event.Event)
    returns (f: Flow)
    requires herd.Valid() && dstSps > 0
    modifies herd.units
    ensures herd.Valid()
    ensures (f, herd.UnitStates()) == DoEventOf(old(herd.UnitStates()), ins, fl, herd.evtIdx, evt, clock, dstSps)
  {
    if evt.unit as nat >= |herd.units| {
      return Break;
    }
    ghost var us := herd.UnitStates();
    f := UnitEvent(herd.units[evt.unit], ins, fl, herd.evtIdx, evt, clock, dstSps);
    assert herd.UnitStates() == us[evt.unit := UnitEventOf(us[evt.unit], ins, fl, herd.evtIdx, evt, clock, dstSps)];
  }

  /** `do_next_event`: the event at the cursor is done, and the cursor passes it unless it stopped the loop. */
  method DoNextEvent(herd: Herd.Herd, ins: Herd.MooInstructions, events: Event.EveList, fl: FloatParts,
                     clock: u32, dstSps: u16) returns (f: Flow)
    requires herd.Valid() && dstSps > 0 && herd.evtIdx < |events.eves|
    modifies herd`evtIdx, herd.units
    ensures herd.Valid()
    ensures (f, herd.UnitStates()) ==
              DoEventOf(old(herd.UnitStates()), ins, fl, old(herd.evtIdx), events.eves[old(herd.evtIdx)], clock, dstSps)
    ensures herd.evtIdx == if f == Continue then old(herd.evtIdx) + 1 else old(herd.evtIdx)
  {
    var evt := events.eves[herd.evtIdx];
    f := DoEvent(herd, ins, fl, clock, dstSps, evt);
    ghost var us := herd.UnitStates();
    if f == Continue {
      herd.evtIdx := herd.evtIdx + 1;
      assert herd.UnitStates() == us;
    }
  }

  /**
   * The event loop of `next_sample`: events are done while the one at the
   * cursor is due at `clock`, until one stops the loop.
   */
  method RunEvents(herd: Herd.Herd, ins: Herd.MooInstructions, events: Event.EveList, fl: FloatParts,
                   clock: u32, dstSps: u16)
    requires herd.Valid() && dstSps > 0
    modifies herd`evtIdx, herd.units
    ensures herd.Valid() && herd.units == old(herd.units) && herd.Counts() == old(herd.Counts()).(evtIdx := herd.evtIdx)
    ensures (herd.evtIdx, herd.UnitStates()) ==
              EventsFrom(old(herd.UnitStates()), events.eves, old(herd.evtIdx), ins, fl, clock, dstSps)
  {
    while herd.evtIdx < |events.eves| && events.eves[herd.evtIdx].tick <= clock
      invariant herd.Valid() && herd.units == old(herd.units)
      invariant EventsFrom(herd.UnitStates(), events.eves, herd.evtIdx, ins, fl, clock, dstSps) ==
                EventsFrom(old(herd.UnitStates()), events.eves, old(herd.evtIdx), ins, fl, clock, dstSps)
      decreases |events.eves| - herd.evtIdx
    {
      var f := DoNextEvent(herd, ins, events, fl, clock, dstSps);
      if f == Break {
        return;
      }
    }
  }

  /**
   * Whether every group index the mix uses lies within the seven groups;
   * indexing `group_smps` with any other panics.
   */
  method GroupsFit(herd: Herd.Herd) returns (ok: bool)
    requires herd.Valid()
    ensures ok <==> GroupsInRange(herd.UnitStates(), herd.DelayStates())
  {
    ghost var us, ds := herd.UnitStates(), herd.DelayStates();
    for k := 0 to |herd.units|
      invariant forall j | 0 <= j < k :: !us[j].mute ==> us[j].group < GROUP_NUM
    {
      if !herd.units[k].mute && herd.units[k].group >= GROUP_NUM {
        return false;
      }
    }
    for k := 0 to |herd.delays|
      invariant forall j | 0 <= j < k :: ds[j].config.group < GROUP_NUM
    {
      if herd.delays[k].group >= GROUP_NUM {
        return false;
      }
    }
    return true;
  }

  /**
   * The sounding units add into the groups of channel `ch`, in unit order.
   * `us` names the units' states, which this leaves as they are.
   */
  method UnitsSupple(herd: Herd.Herd, groupSmps: array<i32>, ch: nat, ghost us: seq<UnitState>)
    requires herd.UnitsValid() && us == herd.UnitStates() && UnitGroupsFit(us)
    requires groupSmps.Length == GROUP_NUM && ch < MAX_CHANNEL
    modifies groupSmps
    ensures herd.UnitsValid() && herd.UnitStates() == us
    ensures herd.DelaysValid() == old(herd.DelaysValid()) && herd.DelayStates() == old(herd.DelayStates())
    ensures groupSmps[..] == UnitsSuppleOf(old(groupSmps[..]), us, ch, herd.timePanIndex)
  {
    ghost var g0 := groupSmps[..];
    for k := 0 to |herd.units|
      invariant groupSmps[..] == UnitsSuppleOf(g0, us[..k], ch, herd.timePanIndex)
    {
      UnitsSuppleStep(g0, us, k, ch, herd.timePanIndex);
      if !herd.units[k].mute {
        herd.units[k].ToneSupple(groupSmps, ch, herd.timePanIndex);
      }
    }
    assert us[..|herd.units|] == us;
  }

  /** Delay `k` applies to the groups of channel `ch`; the other delays are untouched. */
  method DelaySupple(herd: Herd.Herd, k: nat, groupSmps: array<i32>, ch: nat)
    requires herd.DelaysValid() && k < |herd.delays| && groupSmps.Length == GROUP_NUM && ch < MAX_CHANNEL
    requires herd.delays[k].State().config.group < GROUP_NUM && herd.UnitsValid()
    modifies groupSmps, herd.delays[k]
    ensures herd.DelaysValid() && herd.UnitsValid()
    ensures herd.UnitStates() == old(herd.UnitStates()) && herd.Counts() == old(herd.Counts())
    ensures var (e, h) := Delay.SuppleOf(old(herd.delays[k].State()), ch, old(groupSmps[..]));
            herd.DelayStates() == old(herd.DelayStates())[k := e] && groupSmps[..] == h
  {
    ghost var before := herd.DelayStates();
    herd.delays[k].ToneSupple(ch, groupSmps);
    assert herd.DelayStates() == before[k := herd.delays[k].State()];
  }

  /** Replacing the first state not yet updated extends the updated prefix by one. */
  lemma SpliceStep<T>(es: seq<T>, ds: seq<T>, k: nat, x: T)
    requires |es| == k < |ds|
    ensures (es + ds[k..])[k] == ds[k]
    ensures (es + ds[k..])[k := x] == es + [x] + ds[k + 1..]
  {
  }

  /** The delays' states before the loop: each well formed, each group in range. */
  predicate DelaysReady(ds: seq<Delay.DelayState>)
  {
    forall j | 0 <= j < |ds| :: Delay.WellFormed(ds[j]) && ds[j].config.group < GROUP_NUM
  }

  /**
   * The state of the delay loop after `k` passes: the first `k` delays
   * updated, the groups mixed, the units and the counters as they were.
   */
  ghost predicate DelaysDone(herd: Herd.Herd, groupSmps: array<i32>, ch: nat, ds: seq<Delay.DelayState>,
                             g0: seq<i32>, us: seq<UnitState>, cs: Herd.Counters, es: seq<Delay.DelayState>, k: nat)
    reads herd, herd.units, herd.delays, groupSmps
  {
    && |g0| == GROUP_NUM && ch < MAX_CHANNEL && k <= |ds| && DelaysReady(ds)
    && herd.DelaysValid() && |es| == k && |ds| == |herd.delays| && groupSmps.Length == GROUP_NUM
    && herd.UnitsValid() && herd.UnitStates() == us && herd.Counts() == cs
    && herd.DelayStates() == es + ds[k..]
    && (es, groupSmps[..]) == DelaysSuppleOf(ds[..k], g0, ch)
  }

  /** Before the first pass no delay is done and the groups are as they were. */
  lemma DelaysDoneStart(herd: Herd.Herd, groupSmps: array<i32>, ch: nat, ds: seq<Delay.DelayState>)
    requires herd.DelaysValid() && ds == herd.DelayStates() && DelayGroupsFit(ds) && herd.UnitsValid()
    requires groupSmps.Length == GROUP_NUM && ch < MAX_CHANNEL
    ensures DelaysDone(herd, groupSmps, ch, ds, groupSmps[..], herd.UnitStates(), herd.Counts(), [], 0)
  {
    assert ds[0..] == ds;
    assert DelaysSuppleOf(ds[..0], groupSmps[..], ch) == ([], groupSmps[..]);
  }

  /** After a pass for every delay, the delays' states and the groups are those the specification gives. */
  lemma DelaysDoneAll(herd: Herd.Herd, groupSmps: array<i32>, ch: nat, ds: seq<Delay.DelayState>,
                      g0: seq<i32>, us: seq<UnitState>, cs: Herd.Counters, es: seq<Delay.DelayState>)
    requires DelaysDone(herd, groupSmps, ch, ds, g0, us, cs, es, |ds|)
    ensures herd.DelaysValid() && herd.UnitsValid() && herd.UnitStates() == us && herd.Counts() == cs
    ensures |g0| == GROUP_NUM && ch < MAX_CHANNEL && DelaysReady(ds)
    ensures (herd.DelayStates(), groupSmps[..]) == DelaysSuppleOf(ds, g0, ch)
  {
    assert ds[..|ds|] == ds;
    assert es + ds[|ds|..] == es;
  }

  /** One pass of the delay loop: delay `k` applies, and one more delay is done. */
  method DelaysSuppleNext(herd: Herd.Herd, groupSmps: array<i32>, ch: nat, ghost ds: seq<Delay.DelayState>,
                          ghost g0: seq<i32>, ghost us: seq<UnitState>, ghost cs: Herd.Counters,
                          ghost es: seq<Delay.DelayState>, k: nat)
    returns (ghost es': seq<Delay.DelayState>)
    requires k < |ds| && DelaysDone(herd, groupSmps, ch, ds, g0, us, cs, es, k)
    modifies groupSmps, herd.delays
    ensures DelaysDone(herd, groupSmps, ch, ds, g0, us, cs, es', k + 1)
  {
    DelaysSuppleStep(ds, g0, k, ch);
    SpliceStep(es, ds, k, Delay.SuppleOf(ds[k], ch, groupSmps[..]).0);
    assert herd.delays[k].State() == herd.DelayStates()[k] == ds[k];
    DelaySupple(herd, k, groupSmps, ch);
    es' := es + [herd.delays[k].State()];
  }

  /**
   * The delays apply to the groups of channel `ch`, in order, each changing
   * its own state; `ds` names their states before.
   */
  method DelaysSupple(herd: Herd.Herd, groupSmps: array<i32>, ch: nat, ghost ds: seq<Delay.DelayState>)
    requires herd.DelaysValid() && ds == herd.DelayStates() && DelayGroupsFit(ds)
    requires groupSmps.Length == GROUP_NUM && ch < MAX_CHANNEL && herd.UnitsValid()
    modifies groupSmps, herd.delays
    ensures herd.DelaysValid() && herd.UnitsValid()
    ensures herd.UnitStates() == old(herd.UnitStates()) && herd.Counts() == old(herd.Counts())
    ensures (herd.DelayStates(), groupSmps[..]) == DelaysSuppleOf(ds, old(groupSmps[..]), ch)
  {
    DelaysDoneStart(herd, groupSmps, ch, ds);
    ghost var g0, us, cs := groupSmps[..], herd.UnitStates(), herd.Counts();
    hide *;
    ghost var es: seq<Delay.DelayState> := [];
    for k := 0 to |herd.delays|
      invariant |ds| == |herd.delays|
      invariant DelaysDone(herd, groupSmps, ch, ds, g0, us, cs, es, k)
    {
      es := DelaysSuppleNext(herd, groupSmps, ch, ds, g0, us, cs, es, k);
    }
    DelaysDoneAll(herd, groupSmps, ch, ds, g0, us, cs, es);
  }

  /** `out_samp`: the groups summed in wrapping `i32` arithmetic, clamped to `i16`. */
  method SumClamp(groupSmps: array<i32>) returns (s: i16)
    ensures s == OutSample(groupSmps[..])
  {
    var outSamp: i32 := 0;
    for k := 0 to groupSmps.Length
      invariant outSamp == WrappingSum(groupSmps[..k])
    {
      assert groupSmps[..k + 1][..k] == groupSmps[..k];
      outSamp := WrapI32(outSamp as int + groupSmps[k]);
    }
    assert groupSmps[..groupSmps.Length] == groupSmps[..];
    s := Clamp(outSamp, -0x8000, 0x7FFF);
  }

  /**
   * One channel of `next_sample`: fresh groups, the units, the delays, then
   * the sum. `us` and `ds` name the units' and the delays' states before;
   * the units and the counters are left as they are.
   */
  method MixChannel(herd: Herd.Herd, ch: nat, ghost us: seq<UnitState>, ghost ds: seq<Delay.DelayState>)
    returns (s: i16)
    requires herd.UnitsValid() && herd.DelaysValid() && us == herd.UnitStates() && ds == herd.DelayStates()
    requires (forall k | 0 <= k < |us| :: WellFormed(us[k])) && (forall k | 0 <= k < |ds| :: Delay.WellFormed(ds[k]))
    requires ch < MAX_CHANNEL && GroupsInRange(us, ds)
    modifies herd.delays
    ensures herd.UnitsValid() && herd.DelaysValid() && herd.UnitStates() == us && herd.Counts() == old(herd.Counts())
    ensures var c := ChannelGroups(us, ds, ch, herd.timePanIndex);
            herd.DelayStates() == c.0 && s == OutSample(c.1)
  {
    hide UnitsSuppleOf, DelaysSuppleOf, OutSample;
    var groupSmps := new i32[GROUP_NUM](_ => 0);
    assert groupSmps[..] == NO_GROUPS;
    UnitsSupple(herd, groupSmps, ch, us);
    DelaysSupple(herd, groupSmps, ch, ds);
    s := SumClamp(groupSmps);
  }

  /** `tone_increment` of every delay. */
  method IncrementDelays(herd: Herd.Herd)
    requires herd.DelaysValid() && herd.UnitsValid()
    modifies herd.delays
    ensures herd.DelaysValid() && herd.UnitsValid()
    ensures herd.UnitStates() == old(herd.UnitStates()) && herd.Counts() == old(herd.Counts())
    ensures herd.DelayStates() == IncrementAll(old(herd.DelayStates()))
  {
    ghost var ds := herd.DelayStates();
    for k := 0 to |herd.delays|
      invariant herd.DelaysValid() && herd.UnitsValid()
      invariant herd.UnitStates() == old(herd.UnitStates()) && herd.Counts() == old(herd.Counts())
      invariant forall j | 0 <= j < |ds| :: herd.delays[j].State() == if j < k then Delay.IncrementOf(ds[j]) else ds[j]
    {
      DelayIncrement(herd, k);
    }
  }

  /** `tone_increment` of the delay at `k`; no other delay and no unit changes. */
  method DelayIncrement(herd: Herd.Herd, k: nat)
    requires herd.DelaysValid() && herd.UnitsValid() && k < |herd.delays|
    modifies herd.delays[k]
    ensures herd.DelaysValid() && herd.UnitsValid()
    ensures herd.UnitStates() == old(herd.UnitStates()) && herd.Counts() == old(herd.Counts())
    ensures forall j | 0 <= j < |herd.delays| && j != k :: herd.delays[j].State() == old(herd.delays[j].State())
    ensures herd.delays[k].State() == Delay.IncrementOf(old(herd.delays[k].State()))
  {
    herd.delays[k].ToneIncrement();
  }


  /**
   * The mixing part of `next_sample`: the left and the right output sample,
   * after which every delay takes its `tone_increment`. No unit and no
   * counter changes.
   */
  method MixSample(herd: Herd.Herd, ghost us: seq<UnitState>, ghost ds: seq<Delay.DelayState>) returns (left: i16, right: i16)
    requires herd.Valid() && us == herd.UnitStates() && ds == herd.DelayStates()
    requires (forall k | 0 <= k < |us| :: WellFormed(us[k])) && (forall k | 0 <= k < |ds| :: Delay.WellFormed(ds[k]))
    requires GroupsInRange(us, ds)
    modifies herd.delays
    ensures herd.Valid() && herd.UnitStates() == us && herd.Counts() == old(herd.Counts())
    ensures herd.DelayStates() == MixedDelays(us, ds, herd.timePanIndex)
    ensures [left, right] == MixedOut(us, ds, herd.timePanIndex)
  {
    hide MixedDelays, MixedOut, ChannelGroups, OutSample, UnitsSuppleOf, DelaysSuppleOf, IncrementAll;
    ghost var tpi := herd.timePanIndex;
    left := MixChannel(herd, 0, us, ds);
    ghost var ds0 := herd.DelayStates();
    right := MixChannel(herd, 1, us, ds0);
    ghost var ds1 := herd.DelayStates();
    IncrementDelays(herd);
    MixedByChannels(us, ds, tpi, ds0, ds1, left, right);
  }

  /** Writes one stereo sample into `out` at `at`, leaving the rest of `out` as it is. */
  method WriteOut(out: array<i16>, at: nat, left: i16, right: i16)
    requires at + MAX_CHANNEL <= out.Length
    modifies out
    ensures out[at..at + MAX_CHANNEL] == [left, right]
    ensures out[..at] == old(out[..at]) && out[at + MAX_CHANNEL..] == old(out[at + MAX_CHANNEL..])
  {
    out[at], out[at + 1] := left, right;
  }

  /** `MixedDelays` and `MixedOut` in terms of the two channel passes. */
  lemma MixedByChannels(us: seq<UnitState>, ds: seq<Delay.DelayState>, tpi: u64,
                        ds0: seq<Delay.DelayState>, ds1: seq<Delay.DelayState>, left: i16, right: i16)
    requires (forall k | 0 <= k < |us| :: WellFormed(us[k])) && (forall k | 0 <= k < |ds| :: Delay.WellFormed(ds[k]))
    requires GroupsInRange(us, ds)
    requires var c := ChannelGroups(us, ds, 0, tpi); ds0 == c.0 && left == OutSample(c.1)
    requires var c := ChannelGroups(us, ds0, 1, tpi); ds1 == c.0 && right == OutSample(c.1)
    ensures MixedDelays(us, ds, tpi) == IncrementAll(ds1)
    ensures MixedOut(us, ds, tpi) == [left, right]
  {
  }

  /** The counter steps of `next_sample`: the sample counter when advancing, and the pan-time index. */
  method StepCounters(herd: Herd.Herd, advance: bool)
    requires herd.Valid()
    modifies herd`smpCount, herd`timePanIndex
    ensures herd.Valid() && herd.UnitStates() == old(herd.UnitStates()) && herd.DelayStates() == old(herd.DelayStates())
    ensures herd.Counts() == Stepped(old(herd.Counts()), old(herd.evtIdx), advance)
  {
    if advance {
      herd.smpCount := Wrap32(herd.smpCount as int + 1);
    }
    herd.timePanIndex := Wrap64(herd.timePanIndex as int + 1) % PAN_TIME_BUF_LEN as u64;
  }

  /**
   * The counter steps and the end check of `next_sample`: the sample
   * counter (when advancing) and the pan-time index step, and at the end
   * playback stops or loops back, tuning every unit again.
   */
  method StepAndCheck(herd: Herd.Herd, ins: Herd.MooInstructions, advance: bool) returns (r: Result<bool, Panic>)
    requires herd.Valid()
    modifies herd`smpCount, herd`timePanIndex, herd`evtIdx, herd.units
    ensures herd.Valid() && herd.DelayStates() == old(herd.DelayStates()) && r.Ok?
    ensures var (res, q) := EndCheck(Stepped(old(herd.Counts()), old(herd.evtIdx), advance), old(herd.UnitStates()),
                                     herd.DelayStates(), ins);
            r == res && herd.Counts() == q.counts && herd.UnitStates() == q.units && herd.DelayStates() == q.delays
  {
    hide Herd.TunedAll, Herd.TunedOf, Stepped;
    StepCounters(herd, advance);
    if herd.smpCount >= herd.smpEnd {
      if !herd.loop {
        return Ok(false);
      }
      herd.smpCount := herd.smpRepeat;
      herd.evtIdx := 0;
      herd.TuneCowVoices(ins);
    }
    return Ok(true);
  }


  /** `NextSampleOf` taken apart: the event step, then the panic or the mix and the end check. */
  lemma NextSampleSplit(p: Herd.PlayState, events: seq<Event.Event>, ins: Herd.MooInstructions, fl: FloatParts,
                        dstSps: u16, advance: bool, idx: nat, us: seq<UnitState>)
    requires Herd.WellFormedPlay(p) && dstSps > 0
    requires (idx, us) == EventStep(p, events, ins, fl, dstSps, advance)
    ensures forall k | 0 <= k < |us| :: WellFormed(us[k])
    ensures forall k | 0 <= k < |p.delays| :: Delay.WellFormed(p.delays[k])
    ensures Stepped(p.counts.(evtIdx := idx), idx, advance) == Stepped(p.counts, idx, advance)
    ensures var n := NextSampleOf(p, events, ins, fl, dstSps, advance);
            if !GroupsInRange(us, p.delays) then
              n == Outcome(Err(GroupIndexPanic), p.(counts := p.counts.(evtIdx := idx), units := us), [])
            else
              var tpi := p.counts.timePanIndex;
              var end := EndCheck(Stepped(p.counts, idx, advance), us, MixedDelays(us, p.delays, tpi), ins);
              n == Outcome(end.0, end.1, MixedOut(us, p.delays, tpi))
  {
  }

  /**
   * Everything `next_sample` does after the events: the panic at a group
   * past the seven groups, or the mix into `out`, the counter steps and the
   * end check.
   */
  method MixAndStep(herd: Herd.Herd, ins: Herd.MooInstructions, out: array<i16>, at: nat, advance: bool,
                    ghost us: seq<UnitState>, ghost ds: seq<Delay.DelayState>) returns (r: Result<bool, Panic>)
    requires herd.Valid() && us == herd.UnitStates() && ds == herd.DelayStates()
    requires (forall k | 0 <= k < |us| :: WellFormed(us[k])) && (forall k | 0 <= k < |ds| :: Delay.WellFormed(ds[k]))
    requires at + MAX_CHANNEL <= out.Length
    modifies herd`smpCount, herd`timePanIndex, herd`evtIdx, herd.units, herd.delays, out
    ensures herd.Valid() && (r.Err? <==> !GroupsInRange(us, ds))
    ensures !GroupsInRange(us, ds) ==>
              && r == Err(GroupIndexPanic) && out[..] == old(out[..])
              && herd.Counts() == old(herd.Counts()) && herd.UnitStates() == us && herd.DelayStates() == ds
    ensures GroupsInRange(us, ds) ==>
              var c := old(herd.Counts());
              var (res, q) := EndCheck(Stepped(c, c.evtIdx, advance), us, MixedDelays(us, ds, c.timePanIndex), ins);
              && r == res && herd.Counts() == q.counts && herd.UnitStates() == q.units && herd.DelayStates() == q.delays
              && out[at..at + MAX_CHANNEL] == MixedOut(us, ds, c.timePanIndex)
              && out[..at] == old(out[..at]) && out[at + MAX_CHANNEL..] == old(out[at + MAX_CHANNEL..])
  {
    hide EndCheck, Stepped, MixedDelays, MixedOut, GroupsInRange, ChannelGroups, UnitsSuppleOf, DelaysSuppleOf,
         IncrementAll, OutSample, Herd.TunedAll;
    var ok := GroupsFit(herd);
    if !ok {
      return Err(GroupIndexPanic);
    }
    assert herd.timePanIndex == herd.Counts().timePanIndex;
    var left, right := MixSample(herd, us, ds);
    r := StepAndCheck(herd, ins, advance);
    WriteOut(out, at, left, right);
  }

  /** The event part of `next_sample`: when advancing, every event due at the current tick. */
  method DueEvents(herd: Herd.Herd, ins: Herd.MooInstructions, events: Event.EveList, fl: FloatParts,
                   dstSps: u16, advance: bool, ghost p: Herd.PlayState)
    requires herd.Valid() && p == herd.Play() && dstSps > 0
    modifies herd`evtIdx, herd.units
    ensures herd.Valid() && herd.units == old(herd.units) && herd.Counts() == p.counts.(evtIdx := herd.evtIdx)
    ensures herd.DelayStates() == p.delays
    ensures Herd.WellFormedPlay(p) && (herd.evtIdx, herd.UnitStates()) == EventStep(p, events.eves, ins, fl, dstSps, advance)
  {
    herd.ValidIsWellFormed();
    if advance {
      var clock := fl.currentTick(herd.smpCount);
      RunEvents(herd, ins, events, fl, clock, dstSps);
    }
  }

  /**
   * The pieces of `next_sample` put together: the events' step, then either
   * the group panic or the mix, the counter steps and the end check, make up
   * `NextSampleOf`.
   */
  lemma NextSampleJoin(p: Herd.PlayState, events: seq<Event.Event>, ins: Herd.MooInstructions, fl: FloatParts,
                       dstSps: u16, advance: bool, idx: nat, us: seq<UnitState>,
                       r: Result<bool, Panic>, q: Herd.PlayState, o: seq<i16>)
    requires Herd.WellFormedPlay(p) && dstSps > 0
    requires (idx, us) == EventStep(p, events, ins, fl, dstSps, advance)
    requires !GroupsInRange(us, p.delays) ==>
               r == Err(GroupIndexPanic) && q == p.(counts := p.counts.(evtIdx := idx), units := us)
    requires GroupsInRange(us, p.delays) ==>
               var c := p.counts.(evtIdx := idx);
               var (res, e) := EndCheck(Stepped(c, c.evtIdx, advance), us, MixedDelays(us, p.delays, c.timePanIndex), ins);
               r == res && q == e && o == MixedOut(us, p.delays, c.timePanIndex)
    ensures var n := NextSampleOf(p, events, ins, fl, dstSps, advance);
            r == n.result && q == n.state && (GroupsInRange(us, p.delays) ==> o == n.out)
  {
    NextSampleSplit(p, events, ins, fl, dstSps, advance, idx, us);
  }

  /**
   * `next_sample`: runs the due events when advancing, mixes both channels
   * into `out[at]` and `out[at + 1]`, steps the counters and the delays and
   * applies the end check. The new state, the result and the two samples
   * are those of `NextSampleOf`; on a panic nothing is written to `out`.
   */
  method NextSample(herd: Herd.Herd, ins: Herd.MooInstructions, events: Event.EveList, fl: FloatParts,
                    dstSps: u16, out: array<i16>, at: nat, advance: bool, ghost p: Herd.PlayState)
    returns (r: Result<bool, Panic>)
    requires herd.Valid() && p == herd.Play() && dstSps > 0 && at + MAX_CHANNEL <= out.Length
    modifies herd, herd.units, herd.delays, out
    ensures herd.Valid() && herd.units == old(herd.units) && herd.delays == old(herd.delays)
    ensures var n := NextSampleOf(p, events.eves, ins, fl, dstSps, advance);
            && r == n.result && herd.Play() == n.state
            && (r.Ok? ==> out[at..at + MAX_CHANNEL] == n.out)
    ensures r.Ok? ==> out[..at] == old(out[..at]) && out[at + MAX_CHANNEL..] == old(out[at + MAX_CHANNEL..])
    ensures r.Err? ==> out[..] == old(out[..])
  {
    hide *;
    herd.PlayParts();
    DueEvents(herd, ins, events, fl, dstSps, advance, p);
    ghost var us, ds, idx := herd.UnitStates(), herd.DelayStates(), herd.evtIdx;
    NextSampleSplit(p, events.eves, ins, fl, dstSps, advance, idx, us);
    r := MixAndStep(herd, ins, out, at, advance, us, ds);
    herd.PlayParts();
    NextSampleJoin(p, events.eves, ins, fl, dstSps, advance, idx, us, r, herd.Play(), out[at..at + MAX_CHANNEL]);
  }

  // ---- a buffer ----

  /**
   * `chunks` stereo samples from `p`: playback goes on while `next_sample`
   * says so; when it says the song has ended the end flag is set and the
   * loop stops; a panic stops everything. The result is `Ok(true)` unless
   * a panic occurred, the samples are those of the chunks played (the
   * chunk that ended the song included).
   */
  function MooRun(p: Herd.PlayState, events: seq<Event.Event>, ins: Herd.MooInstructions, fl: FloatParts,
                  dstSps: u16, advance: bool, chunks: nat): Outcome
    requires Herd.WellFormedPlay(p) && dstSps > 0
    decreases chunks
  {
    if chunks == 0 then Outcome(Ok(true), p, [])
    else
      var n := NextSampleOf(p, events, ins, fl, dstSps, advance);
      NextSampleCounters(p, events, ins, fl, dstSps, advance);
      match n.result
      case Err(e) => Outcome(Err(e), n.state, [])
      case Ok(goOn) =>
        if !goOn then Outcome(Ok(true), n.state.(counts := n.state.counts.(mooEnd := true)), n.out)
        else
          var rest := MooRun(n.state, events, ins, fl, dstSps, advance, chunks - 1);
          Outcome(rest.result, rest.state, n.out + rest.out)
  }

  /**
   * `Herd::moo` on values, for a buffer of `len` samples: nothing happens
   * and the result is `false` once the end flag is set; otherwise every
   * whole stereo chunk of the buffer is played.
   */
  function MooOf(p: Herd.PlayState, events: seq<Event.Event>, ins: Herd.MooInstructions, fl: FloatParts,
                 dstSps: u16, advance: bool, len: nat): Outcome
    requires Herd.WellFormedPlay(p) && dstSps > 0
  {
    if p.counts.mooEnd then Outcome(Ok(false), p, [])
    else MooRun(p, events, ins, fl, dstSps, advance, len / MAX_CHANNEL)
  }

  /**
   * What a run of chunks promises: it never reports the end itself (only
   * the end flag says so); it fills at most two samples per chunk, a whole
   * number of chunks; unless it panicked it fills every chunk or sets the
   * end flag; a looping song never sets the end flag, and the loop flag
   * never changes.
   */
  lemma {:induction false} MooRunMeaning(p: Herd.PlayState, events: seq<Event.Event>, ins: Herd.MooInstructions,
                                         fl: FloatParts, dstSps: u16, advance: bool, chunks: nat)
    requires Herd.WellFormedPlay(p) && dstSps > 0
    ensures var m := MooRun(p, events, ins, fl, dstSps, advance, chunks);
            && m.result != Ok(false)
            && |m.out| <= MAX_CHANNEL * chunks && |m.out| % MAX_CHANNEL == 0
            && (m.result.Ok? && !m.state.counts.mooEnd ==> |m.out| == MAX_CHANNEL * chunks)
            && m.state.counts.loop == p.counts.loop
            && (p.counts.loop ==> m.state.counts.mooEnd == p.counts.mooEnd)
    decreases chunks
  {
    hide NextSampleOf, EventStep, MixedDelays, MixedOut, EndCheck, Stepped, EventsFrom, GroupsInRange;
    if chunks > 0 {
      var n := NextSampleOf(p, events, ins, fl, dstSps, advance);
      NextSampleCounters(p, events, ins, fl, dstSps, advance);
      MooRunStep(p, events, ins, fl, dstSps, advance, chunks);
      if n.result == Ok(true) {
        MooRunMeaning(n.state, events, ins, fl, dstSps, advance, chunks - 1);
        var rest := MooRun(n.state, events, ins, fl, dstSps, advance, chunks - 1);
      }
    }
  }

  /**
   * `moo` returns `false` exactly when the end flag was already set, and
   * then changes nothing; it never writes past the last whole chunk of the
   * buffer; a looping song never ends.
   */
  lemma MooMeaning(p: Herd.PlayState, events: seq<Event.Event>, ins: Herd.MooInstructions, fl: FloatParts,
                   dstSps: u16, advance: bool, len: nat)
    requires Herd.WellFormedPlay(p) && dstSps > 0
    ensures var m := MooOf(p, events, ins, fl, dstSps, advance, len);
            && (m.result == Ok(false) <==> p.counts.mooEnd)
            && (p.counts.mooEnd ==> m.state == p && m.out == [])
            && |m.out| <= len - len % MAX_CHANNEL
            && (p.counts.loop && !p.counts.mooEnd ==> !m.state.counts.mooEnd)
  {
    if !p.counts.mooEnd {
      MooRunMeaning(p, events, ins, fl, dstSps, advance, len / MAX_CHANNEL);
    }
  }

  /** One chunk of a run, unfolded. */
  lemma MooRunStep(p: Herd.PlayState, events: seq<Event.Event>, ins: Herd.MooInstructions, fl: FloatParts,
                   dstSps: u16, advance: bool, chunks: nat)
    requires Herd.WellFormedPlay(p) && dstSps > 0
    ensures chunks == 0 ==> MooRun(p, events, ins, fl, dstSps, advance, chunks) == Outcome(Ok(true), p, [])
    ensures chunks > 0 ==>
            var n := NextSampleOf(p, events, ins, fl, dstSps, advance);
            var m := MooRun(p, events, ins, fl, dstSps, advance, chunks);
            && (n.result.Err? ==> m == Outcome(n.result, n.state, []))
            && (n.result == Ok(false) ==> m == Outcome(Ok(true), n.state.(counts := n.state.counts.(mooEnd := true)), n.out))
            && (n.result == Ok(true) ==>
                  && Herd.WellFormedPlay(n.state)
                  && var rest := MooRun(n.state, events, ins, fl, dstSps, advance, chunks - 1);
                     m == Outcome(rest.result, rest.state, n.out + rest.out))
  {
    NextSampleCounters(p, events, ins, fl, dstSps, advance);
  }

  /**
   * Where `Herd::moo` stands after `k` of its `chunks` chunks: the first
   * `2 * k` samples of the buffer and what the remaining chunks produce
   * from the current state make up the whole run, and the rest of the
   * buffer is as it was.
   */
  ghost predicate MooAt(herd: Herd.Herd, ins: Herd.MooInstructions, events: seq<Event.Event>, fl: FloatParts,
                        dstSps: u16, buf: array<i16>, advance: bool, k: nat, chunks: nat,
                        whole: Outcome, b0: seq<i16>)
    reads herd, herd.units, herd.delays, buf
  {
    && herd.Valid() && dstSps > 0 && k <= chunks && MAX_CHANNEL * chunks <= buf.Length && |b0| == buf.Length
    && Herd.WellFormedPlay(herd.Play())
    && (var rest := MooRun(herd.Play(), events, ins, fl, dstSps, advance, chunks - k);
        whole == Outcome(rest.result, rest.state, buf[..MAX_CHANNEL * k] + rest.out))
    && buf[MAX_CHANNEL * k..] == b0[MAX_CHANNEL * k..]
  }

  /** A run that stops after a last chunk leaves the written samples, that chunk and then the old buffer. */
  lemma RunStopped(whole: Outcome, rest: Outcome, written: seq<i16>, chunk: seq<i16>, s: seq<i16>, b0: seq<i16>)
    requires whole == Outcome(rest.result, rest.state, written + rest.out) && rest.out == chunk
    requires |written + chunk| <= |b0| && s == written + chunk + b0[|written + chunk|..]
    ensures |whole.out| <= |s| && s == whole.out + b0[|whole.out|..]
  {
  }

  /** The run after one more chunk still completes `whole` once that chunk's samples join the written ones. */
  lemma ChunkJoin(whole: Outcome, rest: Outcome, chunk: seq<i16>, rest': Outcome, written: seq<i16>, written': seq<i16>)
    requires whole == Outcome(rest.result, rest.state, written + rest.out)
    requires rest == Outcome(rest'.result, rest'.state, chunk + rest'.out)
    requires written' == written + chunk
    ensures whole == Outcome(rest'.result, rest'.state, written' + rest'.out)
  {
    assert written + (chunk + rest'.out) == written + chunk + rest'.out;
  }

  /** `MooAt` from its parts. */
  lemma MooAtIntro(herd: Herd.Herd, ins: Herd.MooInstructions, events: seq<Event.Event>, fl: FloatParts,
                   dstSps: u16, buf: array<i16>, advance: bool, k: nat, chunks: nat, whole: Outcome, b0: seq<i16>)
    requires herd.Valid() && dstSps > 0 && k <= chunks && MAX_CHANNEL * chunks <= buf.Length && |b0| == buf.Length
    requires Herd.WellFormedPlay(herd.Play())
    requires var rest := MooRun(herd.Play(), events, ins, fl, dstSps, advance, chunks - k);
             whole == Outcome(rest.result, rest.state, buf[..MAX_CHANNEL * k] + rest.out)
    requires buf[MAX_CHANNEL * k..] == b0[MAX_CHANNEL * k..]
    ensures MooAt(herd, ins, events, fl, dstSps, buf, advance, k, chunks, whole, b0)
  {
  }

  /** The parts of `MooAt`. */
  lemma MooAtParts(herd: Herd.Herd, ins: Herd.MooInstructions, events: seq<Event.Event>, fl: FloatParts,
                   dstSps: u16, buf: array<i16>, advance: bool, k: nat, chunks: nat, whole: Outcome, b0: seq<i16>)
    requires MooAt(herd, ins, events, fl, dstSps, buf, advance, k, chunks, whole, b0)
    ensures herd.Valid() && dstSps > 0 && k <= chunks && MAX_CHANNEL * chunks <= buf.Length && |b0| == buf.Length
    ensures Herd.WellFormedPlay(herd.Play())
    ensures var rest := MooRun(herd.Play(), events, ins, fl, dstSps, advance, chunks - k);
            whole == Outcome(rest.result, rest.state, buf[..MAX_CHANNEL * k] + rest.out)
    ensures buf[MAX_CHANNEL * k..] == b0[MAX_CHANNEL * k..]
  {
  }

  /** Once every chunk is played, the buffer holds the whole run followed by what was there. */
  lemma MooAtEnd(herd: Herd.Herd, ins: Herd.MooInstructions, events: seq<Event.Event>, fl: FloatParts,
                 dstSps: u16, buf: array<i16>, advance: bool, chunks: nat, whole: Outcome, b0: seq<i16>)
    requires MooAt(herd, ins, events, fl, dstSps, buf, advance, chunks, chunks, whole, b0)
    ensures whole.result == Ok(true) && herd.Play() == whole.state
    ensures |whole.out| <= buf.Length && buf[..] == whole.out + b0[|whole.out|..]
  {
    assert MooRun(herd.Play(), events, ins, fl, dstSps, advance, 0).out == [];
    assert buf[..] == buf[..MAX_CHANNEL * chunks] + buf[MAX_CHANNEL * chunks..];
  }

  /**
   * One pass of `moo`'s loop: plays chunk `k` at `MAX_CHANNEL * k`. When
   * the loop goes on (`next`), the run still to play from the new state
   * completes `whole` after the samples written so far; otherwise the run is
   * over and the herd and the buffer hold its outcome.
   */
  method MooChunk(herd: Herd.Herd, ins: Herd.MooInstructions, events: Event.EveList, fl: FloatParts,
                  dstSps: u16, buf: array<i16>, advance: bool, k: nat, chunks: nat,
                  ghost whole: Outcome, ghost b0: seq<i16>) returns (r: Result<bool, Panic>, next: bool)
    requires k < chunks && MooAt(herd, ins, events.eves, fl, dstSps, buf, advance, k, chunks, whole, b0)
    modifies herd, herd.units, herd.delays, buf
    ensures herd.Valid() && herd.units == old(herd.units) && herd.delays == old(herd.delays)
    ensures next ==> MooAt(herd, ins, events.eves, fl, dstSps, buf, advance, k + 1, chunks, whole, b0)
    ensures !next ==>
              && r == whole.result && herd.Play() == whole.state
              && |whole.out| <= buf.Length && buf[..] == whole.out + b0[|whole.out|..]
  {
    hide NextSampleOf, EventStep, MixedDelays, MixedOut, EndCheck, Stepped, EventsFrom, GroupsInRange, MooRun, Herd.Herd.Valid, Herd.Herd.Play, Herd.WellFormedPlay, MooAt;
    MooAtParts(herd, ins, events.eves, fl, dstSps, buf, advance, k, chunks, whole, b0);
    assert MAX_CHANNEL == 2;
    ghost var p := herd.Play();
    ghost var b := buf[..];
    var at := MAX_CHANNEL * k;
    MooRunStep(p, events.eves, ins, fl, dstSps, advance, chunks - k);
    ghost var n := NextSampleOf(p, events.eves, ins, fl, dstSps, advance);
    r := NextSample(herd, ins, events, fl, dstSps, buf, at, advance, p);
    ghost var rest := MooRun(p, events.eves, ins, fl, dstSps, advance, chunks - k);
    if r.Err? {
      RunStopped(whole, rest, b[..at], [], buf[..], b0);
      return r, false;
    }
    WrittenSlot(buf[..], b, b0, at, n.out);
    if r == Ok(false) {
      EndRun(herd);
      RunStopped(whole, rest, b[..at], n.out, buf[..], b0);
      return Ok(true), false;
    }
    herd.ValidIsWellFormed();
    assert r.Ok? && r.value;
    assert MAX_CHANNEL * (k + 1) == at + MAX_CHANNEL;
    ghost var rest' := MooRun(herd.Play(), events.eves, ins, fl, dstSps, advance, chunks - (k + 1));
    ChunkJoin(whole, rest, n.out, rest', b[..at], buf[..at + MAX_CHANNEL]);
    MooAtIntro(herd, ins, events.eves, fl, dstSps, buf, advance, k + 1, chunks, whole, b0);
    return r, true;
  }

  /**
   * After a chunk written at `at` over a buffer `b` that agreed with `b0`
   * from `at` on, the buffer is `b`'s prefix and the chunk, and still agrees
   * with `b0` after the chunk.
   */
  lemma WrittenSlot(s: seq<i16>, b: seq<i16>, b0: seq<i16>, at: nat, chunk: seq<i16>)
    requires at + |chunk| <= |s| == |b| == |b0|
    requires s[..at] == b[..at] && s[at..at + |chunk|] == chunk && s[at + |chunk|..] == b[at + |chunk|..]
    requires b[at..] == b0[at..]
    ensures s[..at + |chunk|] == b[..at] + chunk
    ensures s[at + |chunk|..] == b0[at + |chunk|..]
    ensures s == b[..at] + chunk + b0[at + |chunk|..]
  {
    assert s[..at + |chunk|] == s[..at] + s[at..at + |chunk|];
    forall j | at + |chunk| <= j < |s|
      ensures s[j] == b0[j]
    {
      assert b[j] == b[at..][j - at] == b0[at..][j - at] == b0[j];
    }
    assert s == s[..at + |chunk|] + s[at + |chunk|..];
  }

  /** The song has ended: the end flag is set and nothing else changes. */
  method EndRun(herd: Herd.Herd)
    requires herd.Valid()
    modifies herd`mooEnd
    ensures herd.Valid() && herd.Play() == old(herd.Play()).(counts := old(herd.Play()).counts.(mooEnd := true))
  {
    herd.PlayParts();
    herd.SetEnd();
    herd.PlayParts();
  }

  /**
   * `Herd::moo`: unless the end flag is set, plays the buffer chunk by
   * chunk of two samples, setting the end flag and stopping when the song
   * ends. The result, the new state and the samples written are those of
   * `MooOf`; the rest of the buffer is untouched.
   */
  method HerdMoo(herd: Herd.Herd, ins: Herd.MooInstructions, events: Event.EveList, fl: FloatParts,
                 dstSps: u16, buf: array<i16>, advance: bool) returns (r: Result<bool, Panic>)
    requires herd.Valid() && dstSps > 0
    modifies herd, herd.units, herd.delays, buf
    ensures herd.Valid() && herd.units == old(herd.units) && herd.delays == old(herd.delays)
    ensures old(herd.Play()).counts.mooEnd ==> r == Ok(false) && herd.Play() == old(herd.Play()) && buf[..] == old(buf[..])
    ensures !old(herd.Play()).counts.mooEnd ==>
              var m := MooRun(old(herd.Play()), events.eves, ins, fl, dstSps, advance, buf.Length / MAX_CHANNEL);
              && r == m.result && herd.Play() == m.state
              && |m.out| <= buf.Length && buf[..] == m.out + old(buf[|m.out|..])
  {
    hide NextSampleOf, EventStep, MixedDelays, MixedOut, EndCheck, Stepped, EventsFrom, GroupsInRange, MooRun, Herd.Herd.Valid, Herd.WellFormedPlay;
    herd.PlayParts();
    if herd.mooEnd {
      return Ok(false);
    }
    ghost var p0 := herd.Play();
    ghost var b0 := buf[..];
    var chunks := buf.Length / MAX_CHANNEL;
    herd.ValidIsWellFormed();
    ghost var whole := MooRun(p0, events.eves, ins, fl, dstSps, advance, chunks);
    assert MAX_CHANNEL == 2 && MAX_CHANNEL * chunks <= buf.Length;
    assert p0 == old(herd.Play()) && !p0.counts.mooEnd && b0 == old(buf[..]);
    assert buf[..MAX_CHANNEL * 0] + whole.out == whole.out;
    assert MooAt(herd, ins, events.eves, fl, dstSps, buf, advance, 0, chunks, whole, b0);
    hide MooAt;
    var k := 0;
    while k < chunks
      invariant herd.Valid() && herd.units == old(herd.units) && herd.delays == old(herd.delays)
      invariant k <= chunks && MooAt(herd, ins, events.eves, fl, dstSps, buf, advance, k, chunks, whole, b0)
    {
      var next;
      r, next := MooChunk(herd, ins, events, fl, dstSps, buf, advance, k, chunks, whole, b0);
      if !next {
        return;
      }
      k := k + 1;
    }
    MooAtEnd(herd, ins, events.eves, fl, dstSps, buf, advance, chunks, whole, b0);
    return Ok(true);
  }
}

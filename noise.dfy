/**
 * Noise voices (`PTNOISE-` data): up to four design units, each with an
 * optional envelope, pan and three optional oscillators, selected by the bits
 * of the unit's flag word.
 *
 * The oscillators' frequency, volume and offset are `f32` values that the
 * file stores as varints of ten times the value. The model keeps those
 * integer tenths; the `f32` division by 10 on reading and the truncating
 * multiplication by 10 on writing are not modelled.
 */
module Noise {
  import opened Base
  import opened Errors
  import opened Io
  import opened Point

  // ---------------------------------------------------------------------
  // Wave types
  // ---------------------------------------------------------------------

  /** `NoiseType`: the wave an oscillator follows (declared with the noise builder). */
  datatype NoiseType =
    | Sine | Saw | Rect | Random | Saw2 | Rect2 | Tri | Random2
    | Rect3 | Rect4 | Rect8 | Rect16 | Saw3 | Saw4 | Saw6 | Saw8

  /** The file code `write_oscillator` stores for a wave type. */
  function WaveCode(t: NoiseType): (c: u32)
    ensures 1 <= c <= 16
  {
    match t
    case Sine => 1 case Saw => 2 case Rect => 3 case Random => 4
    case Saw2 => 5 case Rect2 => 6 case Tri => 7 case Random2 => 8
    case Rect3 => 9 case Rect4 => 10 case Rect8 => 11 case Rect16 => 12
    case Saw3 => 13 case Saw4 => 14 case Saw6 => 15 case Saw8 => 16
  }

  /**
   * The wave type `read_oscillator` gives a code: code 0 panics, codes above
   * 16 are `FmtUnknown`, and each code in 1..=16 names the type whose code
   * it is.
   */
  function WaveOfCode(code: u32): (r: Result<NoiseType, ReadError>)
    ensures r.Ok? <==> 1 <= code <= 16
    ensures r.Ok? ==> WaveCode(r.value) == code
    ensures code == 0 ==> r == Err(ReadError.Panic)
    ensures code > 16 ==> r == Err(FmtUnknown)
  {
    match code
    case 0 => Err(ReadError.Panic)
    case 1 => Ok(Sine) case 2 => Ok(Saw) case 3 => Ok(Rect) case 4 => Ok(Random)
    case 5 => Ok(Saw2) case 6 => Ok(Rect2) case 7 => Ok(Tri) case 8 => Ok(Random2)
    case 9 => Ok(Rect3) case 10 => Ok(Rect4) case 11 => Ok(Rect8) case 12 => Ok(Rect16)
    case 13 => Ok(Saw3) case 14 => Ok(Saw4) case 15 => Ok(Saw6) case 16 => Ok(Saw8)
    case _ => Err(FmtUnknown)
  }

  /** Every wave type's code reads back as that type. */
  lemma WaveCodeRoundTrip(t: NoiseType)
    ensures WaveOfCode(WaveCode(t)) == Ok(t)
  {
  }

  // ---------------------------------------------------------------------
  // Values
  // ---------------------------------------------------------------------

  /** `NoiseDesignOscillator`, with frequency, volume and offset in tenths. */
  datatype Oscillator = Oscillator(kind: NoiseType, invert: bool, freq: u32, volume: u32, offset: u32)

  const DEFAULT_OSCILLATOR: Oscillator := Oscillator(Sine, false, 0, 0, 0)

  /** An envelope of at most `MAX_ENVELOPE_NUM` points (`ArrayVec<EnvPt, 3>`). */
  type Envelope = s: seq<EnvPt> | |s| <= 3

  const MAX_ENVELOPE_NUM: nat := 3

  /** `NoiseDesignUnit`. */
  datatype DesignUnit = DesignUnit(enves: Envelope, pan: i8, main: Oscillator, freq: Oscillator, volu: Oscillator, ioFlags: u32)

  const DEFAULT_UNIT: DesignUnit := DesignUnit([], 0, DEFAULT_OSCILLATOR, DEFAULT_OSCILLATOR, DEFAULT_OSCILLATOR, 0)

  /** At most four design units (`ArrayVec<NoiseDesignUnit, 4>`). */
  type Units = s: seq<DesignUnit> | |s| <= 4

  const MAX_UNIT_NUM: nat := 4

  /** The contents of a `NoiseData`: the sample count at 44.1 kHz and the design units. */
  datatype NoiseDesign = NoiseDesign(smpNum44k: u32, units: Units)

  const LATEST_VER: u32 := 20120418
  const NOISE_TAG: seq<u8> := Bytes("PTNOISE-")

  // ---- flag bits ----
  const FLAG_ENVELOPE: bv32 := 0x04
  const FLAG_PAN: bv32 := 0x08
  const FLAG_OSC_MAIN: bv32 := 0x10
  const FLAG_OSC_FREQ: bv32 := 0x20
  const FLAG_OSC_VOLU: bv32 := 0x40
  /** Every bit the format does not use. */
  const FLAG_UNCOVERED: bv32 := 0xFFFF_FF83

  predicate Flagged(flags: u32, bit: bv32)
  {
    (flags as bv32) & bit != 0
  }

  /**
   * The design units a read can produce: no unknown flag bit, and every
   * field whose bit is clear still holds its default.
   */
  predicate Canonical(u: DesignUnit)
  {
    && !Flagged(u.ioFlags, FLAG_UNCOVERED)
    && (!Flagged(u.ioFlags, FLAG_ENVELOPE) ==> u.enves == [])
    && (!Flagged(u.ioFlags, FLAG_PAN) ==> u.pan == 0)
    && (!Flagged(u.ioFlags, FLAG_OSC_MAIN) ==> u.main == DEFAULT_OSCILLATOR)
    && (!Flagged(u.ioFlags, FLAG_OSC_FREQ) ==> u.freq == DEFAULT_OSCILLATOR)
    && (!Flagged(u.ioFlags, FLAG_OSC_VOLU) ==> u.volu == DEFAULT_OSCILLATOR)
  }

  // ---------------------------------------------------------------------
  // Reading, as functions of the data and the cursor
  // ---------------------------------------------------------------------

  /** `read_oscillator`. */
  function ParseOscillator(data: seq<u8>, cur: nat): (r: Parse<Oscillator>)
    ensures cur <= |data| && r.Ok? ==> cur <= r.value.next <= |data|
  {
    var code :- ParseVarint(data, cur);
    var kind :- WaveOfCode(code.value);
    var inv :- ParseVarint(data, code.next);
    var freq :- ParseVarint(data, inv.next);
    var volume :- ParseVarint(data, freq.next);
    var offset :- ParseVarint(data, volume.next);
    Ok(Parsed(Oscillator(kind, inv.value != 0, freq.value, volume.value, offset.value), offset.next))
  }

  /**
   * The envelope points after `acc`: `n` pairs of varints, where an `x`
   * beyond `u16` or a `y` beyond `u8` panics at its conversion.
   */
  function ParseEnvPts(data: seq<u8>, cur: nat, n: nat, acc: seq<EnvPt>): (r: Parse<seq<EnvPt>>)
    ensures r.Ok? ==> |r.value.value| == |acc| + n && r.value.value[..|acc|] == acc
    decreases n
    ensures cur <= |data| && r.Ok? ==> cur <= r.value.next <= |data|
  {
    if n == 0 then Ok(Parsed(acc, cur))
    else
      var x :- ParseVarint(data, cur);
      if x.value > 0xFFFF then Err(ReadError.Panic)
      else
        var y :- ParseVarint(data, x.next);
        if y.value > 0xFF then Err(ReadError.Panic)
        else
          var r := ParseEnvPts(data, y.next, n - 1, acc + [EnvPt(x.value, y.value)]);
          assert r.Ok? ==> r.value.value[..|acc|] == (acc + [EnvPt(x.value, y.value)])[..|acc|];
          r
  }

  /** The envelope of a unit with these flags: a count of at most 3 and the points, or none. */
  function ParseEnvelopeField(data: seq<u8>, cur: nat, flags: u32): (r: Parse<Envelope>)
    ensures cur <= |data| && r.Ok? ==> cur <= r.value.next <= |data|
  {
    if !Flagged(flags, FLAG_ENVELOPE) then Ok(Parsed([], cur))
    else
      var n :- ParseVarint(data, cur);
      if n.value > MAX_ENVELOPE_NUM then Err(FmtUnknown)
      else
        var pts :- ParseEnvPts(data, n.next, n.value, []);
        Ok(Parsed(pts.value, pts.next))
  }

  function ParsePanField(data: seq<u8>, cur: nat, flags: u32): (r: Parse<i8>)
    ensures cur <= |data| && r.Ok? ==> cur <= r.value.next <= |data|
  {
    if Flagged(flags, FLAG_PAN) then ParseI8(data, cur) else Ok(Parsed(0, cur))
  }

  function ParseOscField(data: seq<u8>, cur: nat, flags: u32, bit: bv32): (r: Parse<Oscillator>)
    ensures cur <= |data| && r.Ok? ==> cur <= r.value.next <= |data|
  {
    if Flagged(flags, bit) then ParseOscillator(data, cur) else Ok(Parsed(DEFAULT_OSCILLATOR, cur))
  }

  /** One design unit of `NoiseData::read`: the flags, then the fields they select, in order. */
  function ParseDesignUnit(data: seq<u8>, cur: nat): (r: Parse<DesignUnit>)
    ensures cur <= |data| && r.Ok? ==> cur <= r.value.next <= |data|
  {
    var f :- ParseVarint(data, cur);
    if Flagged(f.value, FLAG_UNCOVERED) then Err(FmtUnknown)
    else
      var e :- ParseEnvelopeField(data, f.next, f.value);
      var p :- ParsePanField(data, e.next, f.value);
      var m :- ParseOscField(data, p.next, f.value, FLAG_OSC_MAIN);
      var q :- ParseOscField(data, m.next, f.value, FLAG_OSC_FREQ);
      var v :- ParseOscField(data, q.next, f.value, FLAG_OSC_VOLU);
      Ok(Parsed(DesignUnit(e.value, p.value, m.value, q.value, v.value, f.value), v.next))
  }

  /** `n` design units after `acc`. */
  function ParseDesignUnits(data: seq<u8>, cur: nat, n: nat, acc: seq<DesignUnit>): (r: Parse<seq<DesignUnit>>)
    ensures r.Ok? ==> |r.value.value| == |acc| + n
    decreases n
    ensures cur <= |data| && r.Ok? ==> cur <= r.value.next <= |data|
  {
    if n == 0 then Ok(Parsed(acc, cur))
    else
      var u :- ParseDesignUnit(data, cur);
      ParseDesignUnits(data, u.next, n - 1, acc + [u.value])
  }

  /** `NoiseData::read`. */
  function ParseNoise(data: seq<u8>, cur: nat): (r: Parse<NoiseDesign>)
    ensures cur <= |data| && r.Ok? ==> cur <= r.value.next <= |data|
  {
    var tag :- Take(data, cur, 8);
    if tag.value != NOISE_TAG then Err(InvalidTag)
    else
      var ver :- ParseU32(data, tag.next);
      if ver.value > LATEST_VER then Err(FmtNewer)
      else
        var smp :- ParseVarint(data, ver.next);
        var num :- ParseU8(data, smp.next);
        if num.value > MAX_UNIT_NUM then Err(FmtUnknown)
        else
          var units :- ParseDesignUnits(data, num.next, num.value, []);
          Ok(Parsed(NoiseDesign(smp.value, units.value), units.next))
  }

  /** The refusals of `read` in its header: a wrong tag, a version newer than 20120418, more than four units. */
  lemma NoiseRefusals(data: seq<u8>, cur: nat)
    ensures cur + 8 <= |data| && data[cur..cur + 8] != NOISE_TAG ==> ParseNoise(data, cur) == Err(InvalidTag)
    ensures var v := ParseU32(data, cur + 8);
            cur + 8 <= |data| && data[cur..cur + 8] == NOISE_TAG && v.Ok? && v.value.value > LATEST_VER ==>
            ParseNoise(data, cur) == Err(FmtNewer)
    ensures var v := ParseU32(data, cur + 8);
            var smp := if v.Ok? then ParseVarint(data, v.value.next) else Err(Data);
            var num := if smp.Ok? then ParseU8(data, smp.value.next) else Err(Data);
            cur + 8 <= |data| && data[cur..cur + 8] == NOISE_TAG && v.Ok? && v.value.value <= LATEST_VER &&
            num.Ok? && num.value.value > MAX_UNIT_NUM ==>
            ParseNoise(data, cur) == Err(FmtUnknown)
  {
  }

  /** The refusals of `read` in a design unit: an unknown flag bit, more than three envelope points. */
  lemma DesignUnitRefusals(data: seq<u8>, cur: nat)
    ensures var f := ParseVarint(data, cur);
            f.Ok? && Flagged(f.value.value, FLAG_UNCOVERED) ==> ParseDesignUnit(data, cur) == Err(FmtUnknown)
    ensures var f := ParseVarint(data, cur);
            var n := if f.Ok? then ParseVarint(data, f.value.next) else f;
            f.Ok? && !Flagged(f.value.value, FLAG_UNCOVERED) && Flagged(f.value.value, FLAG_ENVELOPE) &&
            n.Ok? && n.value.value > MAX_ENVELOPE_NUM ==>
            ParseDesignUnit(data, cur) == Err(FmtUnknown)
  {
  }

  // ---------------------------------------------------------------------
  // Writing
  // ---------------------------------------------------------------------

  function EncodeOscillator(o: Oscillator): seq<u8>
  {
    IntToVarint(WaveCode(o.kind)) + IntToVarint(if o.invert then 1 else 0)
    + IntToVarint(o.freq) + IntToVarint(o.volume) + IntToVarint(o.offset)
  }

  function EncodeEnvPt(p: EnvPt): seq<u8>
  {
    IntToVarint(p.x) + IntToVarint(p.y)
  }

  function EncodeEnvPts(ps: seq<EnvPt>): seq<u8>
  {
    if ps == [] then [] else EncodeEnvPt(ps[0]) + EncodeEnvPts(ps[1..])
  }

  function EncodeEnvelopeField(u: DesignUnit): seq<u8>
  {
    if Flagged(u.ioFlags, FLAG_ENVELOPE) then IntToVarint(|u.enves|) + EncodeEnvPts(u.enves) else []
  }

  function EncodePanField(u: DesignUnit): seq<u8>
  {
    if Flagged(u.ioFlags, FLAG_PAN) then [AsUnsigned8(u.pan)] else []
  }

  function EncodeOscField(o: Oscillator, flags: u32, bit: bv32): seq<u8>
  {
    if Flagged(flags, bit) then EncodeOscillator(o) else []
  }

  /** One design unit of `NoiseData::write`: the flags, then every field whose bit is set. */
  function EncodeDesignUnit(u: DesignUnit): seq<u8>
  {
    IntToVarint(u.ioFlags) + EncodeEnvelopeField(u) + EncodePanField(u)
    + EncodeOscField(u.main, u.ioFlags, FLAG_OSC_MAIN)
    + EncodeOscField(u.freq, u.ioFlags, FLAG_OSC_FREQ)
    + EncodeOscField(u.volu, u.ioFlags, FLAG_OSC_VOLU)
  }

  function EncodeDesignUnits(us: seq<DesignUnit>): seq<u8>
  {
    if us == [] then [] else EncodeDesignUnit(us[0]) + EncodeDesignUnits(us[1..])
  }

  /** `NoiseData::write`: tag, latest version, sample count, unit count and the units. */
  function EncodeNoise(d: NoiseDesign): seq<u8>
  {
    NOISE_TAG + Le32(LATEST_VER) + IntToVarint(d.smpNum44k) + [|d.units| as u8] + EncodeDesignUnits(d.units)
  }

  lemma EncodeEnvPtsAppend(a: seq<EnvPt>, b: seq<EnvPt>)
    ensures EncodeEnvPts(a + b) == EncodeEnvPts(a) + EncodeEnvPts(b)
  {
    hide IntToVarint, ParseVarint;
    if a == [] {
      assert a + b == b;
    } else {
      assert (a + b)[0] == a[0] && (a + b)[1..] == a[1..] + b;
      EncodeEnvPtsAppend(a[1..], b);
    }
  }

  lemma EncodeDesignUnitsAppend(a: seq<DesignUnit>, b: seq<DesignUnit>)
    ensures EncodeDesignUnits(a + b) == EncodeDesignUnits(a) + EncodeDesignUnits(b)
  {
    hide IntToVarint, ParseVarint;
    if a == [] {
      assert a + b == b;
    } else {
      assert (a + b)[0] == a[0] && (a + b)[1..] == a[1..] + b;
      EncodeDesignUnitsAppend(a[1..], b);
    }
  }

  lemma EncodeDesignUnitsSingle(u: DesignUnit)
    ensures EncodeDesignUnits([u]) == EncodeDesignUnit(u)
  {
    hide EncodeDesignUnit;
    assert [u][1..] == [];
  }

  // ---------------------------------------------------------------------
  // Round trips
  // ---------------------------------------------------------------------

  /** A written oscillator reads back as itself. */
  lemma OscillatorRoundTrip(data: seq<u8>, cur: nat, o: Oscillator)
    requires At(data, cur, EncodeOscillator(o))
    ensures ParseOscillator(data, cur) == Ok(Parsed(o, cur + |EncodeOscillator(o)|))
  {
    hide IntToVarint, ParseVarint;
    var a, b, c := IntToVarint(WaveCode(o.kind)), IntToVarint(if o.invert then 1 else 0), IntToVarint(o.freq);
    var d, e := IntToVarint(o.volume), IntToVarint(o.offset);
    AtSplit(data, cur, a + b + c + d, e);
    AtSplit(data, cur, a + b + c, d);
    AtSplit(data, cur, a + b, c);
    AtSplit(data, cur, a, b);
    ReadVarintAt(data, cur, WaveCode(o.kind));
    ReadVarintAt(data, cur + |a|, if o.invert then 1 else 0);
    ReadVarintAt(data, cur + |a| + |b|, o.freq);
    ReadVarintAt(data, cur + |a| + |b| + |c|, o.volume);
    ReadVarintAt(data, cur + |a| + |b| + |c| + |d|, o.offset);
    WaveCodeRoundTrip(o.kind);
  }

  /** Written envelope points read back after whatever was read before them. */
  lemma {:induction false} EnvPtsRoundTrip(data: seq<u8>, cur: nat, ps: seq<EnvPt>, acc: seq<EnvPt>)
    requires At(data, cur, EncodeEnvPts(ps))
    ensures ParseEnvPts(data, cur, |ps|, acc) == Ok(Parsed(acc + ps, cur + |EncodeEnvPts(ps)|))
    decreases |ps|
  {
    hide IntToVarint, ParseVarint, EncodeEnvPt, At;
    if ps == [] {
      assert acc + ps == acc;
    } else {
      var p := ps[0];
      var rest := EncodeEnvPts(ps[1..]);
      assert EncodeEnvPts(ps) == EncodeEnvPt(p) + rest;
      EnvPtStep(data, cur, p, rest, |ps| - 1, acc);
      EnvPtsRoundTrip(data, cur + |EncodeEnvPt(p)|, ps[1..], acc + [p]);
      assert acc + [p] + ps[1..] == acc + ps;
    }
  }

  /** One point read back: the reader moves past it and goes on with the rest. */
  lemma EnvPtStep(data: seq<u8>, cur: nat, p: EnvPt, rest: seq<u8>, n: nat, acc: seq<EnvPt>)
    requires At(data, cur, EncodeEnvPt(p) + rest)
    ensures At(data, cur + |EncodeEnvPt(p)|, rest)
    ensures ParseEnvPts(data, cur, n + 1, acc) == ParseEnvPts(data, cur + |EncodeEnvPt(p)|, n, acc + [p])
  {
    hide IntToVarint, ParseVarint;
    var a, b := IntToVarint(p.x), IntToVarint(p.y);
    AtSplit(data, cur, a + b, rest);
    AtSplit(data, cur, a, b);
    ReadVarintAt(data, cur, p.x);
    ReadVarintAt(data, cur + |a|, p.y);
  }

  lemma EnvelopeFieldRoundTrip(data: seq<u8>, cur: nat, u: DesignUnit)
    requires !Flagged(u.ioFlags, FLAG_ENVELOPE) ==> u.enves == []
    requires At(data, cur, EncodeEnvelopeField(u))
    ensures ParseEnvelopeField(data, cur, u.ioFlags) == Ok(Parsed(u.enves, cur + |EncodeEnvelopeField(u)|))
  {
    hide IntToVarint, ParseVarint, ParseEnvPts, EncodeEnvPts, At;
    if Flagged(u.ioFlags, FLAG_ENVELOPE) {
      var a := IntToVarint(|u.enves|);
      AtSplit(data, cur, a, EncodeEnvPts(u.enves));
      ReadVarintAt(data, cur, |u.enves|);
      EnvPtsRoundTrip(data, cur + |a|, u.enves, []);
      assert [] + u.enves == u.enves;
    }
  }

  lemma OscFieldRoundTrip(data: seq<u8>, cur: nat, o: Oscillator, flags: u32, bit: bv32)
    requires !Flagged(flags, bit) ==> o == DEFAULT_OSCILLATOR
    requires At(data, cur, EncodeOscField(o, flags, bit))
    ensures ParseOscField(data, cur, flags, bit) == Ok(Parsed(o, cur + |EncodeOscField(o, flags, bit)|))
  {
    hide IntToVarint, ParseVarint;
    if Flagged(flags, bit) {
      OscillatorRoundTrip(data, cur, o);
    }
  }

  /** A canonical design unit reads back as itself. */
  lemma DesignUnitRoundTrip(data: seq<u8>, cur: nat, u: DesignUnit)
    requires Canonical(u)
    requires At(data, cur, EncodeDesignUnit(u))
    ensures ParseDesignUnit(data, cur) == Ok(Parsed(u, cur + |EncodeDesignUnit(u)|))
  {
    hide IntToVarint, ParseVarint, EncodeEnvelopeField, EncodeOscField, ParseEnvelopeField, ParseOscField, ParseI8, Flagged, At;
    var a, b, c := IntToVarint(u.ioFlags), EncodeEnvelopeField(u), EncodePanField(u);
    var d := EncodeOscField(u.main, u.ioFlags, FLAG_OSC_MAIN);
    var e := EncodeOscField(u.freq, u.ioFlags, FLAG_OSC_FREQ);
    var f := EncodeOscField(u.volu, u.ioFlags, FLAG_OSC_VOLU);
    AtSplit(data, cur, a + b + c + d + e, f);
    AtSplit(data, cur, a + b + c + d, e);
    AtSplit(data, cur, a + b + c, d);
    AtSplit(data, cur, a + b, c);
    AtSplit(data, cur, a, b);
    ReadVarintAt(data, cur, u.ioFlags);
    EnvelopeFieldRoundTrip(data, cur + |a|, u);
    if Flagged(u.ioFlags, FLAG_PAN) {
      ReadI8At(data, cur + |a| + |b|, u.pan);
    }
    OscFieldRoundTrip(data, cur + |a| + |b| + |c|, u.main, u.ioFlags, FLAG_OSC_MAIN);
    OscFieldRoundTrip(data, cur + |a| + |b| + |c| + |d|, u.freq, u.ioFlags, FLAG_OSC_FREQ);
    OscFieldRoundTrip(data, cur + |a| + |b| + |c| + |d| + |e|, u.volu, u.ioFlags, FLAG_OSC_VOLU);
  }

  lemma {:induction false} DesignUnitsRoundTrip(data: seq<u8>, cur: nat, us: seq<DesignUnit>, acc: seq<DesignUnit>)
    requires forall i | 0 <= i < |us| :: Canonical(us[i])
    requires At(data, cur, EncodeDesignUnits(us))
    ensures ParseDesignUnits(data, cur, |us|, acc) == Ok(Parsed(acc + us, cur + |EncodeDesignUnits(us)|))
    decreases |us|
  {
    hide IntToVarint, ParseVarint, EncodeDesignUnit, ParseDesignUnit, Canonical, At;
    if us == [] {
      assert acc + us == acc;
    } else {
      AtSplit(data, cur, EncodeDesignUnit(us[0]), EncodeDesignUnits(us[1..]));
      DesignUnitRoundTrip(data, cur, us[0]);
      DesignUnitsRoundTrip(data, cur + |EncodeDesignUnit(us[0])|, us[1..], acc + [us[0]]);
      assert acc + [us[0]] + us[1..] == acc + us;
    }
  }

  /** Noise data whose units are all canonical reads back as itself, whatever surrounds it. */
  lemma NoiseRoundTrip(before: seq<u8>, d: NoiseDesign, after: seq<u8>)
    requires forall i | 0 <= i < |d.units| :: Canonical(d.units[i])
    ensures ParseNoise(before + EncodeNoise(d) + after, |before|)
            == Ok(Parsed(d, |before| + |EncodeNoise(d)|))
  {
    hide IntToVarint, ParseVarint, EncodeDesignUnits, ParseDesignUnits;
    var data := before + EncodeNoise(d) + after;
    var cur := |before|;
    var head, e := NoiseHead(d.smpNum44k, |d.units| as u8), EncodeDesignUnits(d.units);
    assert EncodeNoise(d) == head + e;
    hide EncodeNoise, At, Canonical;
    AtWritten(before, EncodeNoise(d), after);
    AtSplit(data, cur, head, e);
    NoiseHeadRead(data, cur, d.smpNum44k, |d.units| as u8);
    DesignUnitsRoundTrip(data, cur + |head|, d.units, []);
    assert [] + d.units == d.units;
  }

  /** What precedes the design units: tag, version, sample count and unit count. */
  function NoiseHead(smpNum44k: u32, count: u8): seq<u8>
  {
    NOISE_TAG + Le32(LATEST_VER) + IntToVarint(smpNum44k) + [count]
  }

  /** The four header fields of a noise design read back in order. */
  lemma NoiseHeadRead(data: seq<u8>, cur: nat, smpNum44k: u32, count: u8)
    requires At(data, cur, NoiseHead(smpNum44k, count))
    ensures var c := |IntToVarint(smpNum44k)|;
            && |NoiseHead(smpNum44k, count)| == 13 + c
            && Take(data, cur, 8) == Ok(Parsed(NOISE_TAG, cur + 8))
            && ParseU32(data, cur + 8) == Ok(Parsed(LATEST_VER, cur + 12))
            && ParseVarint(data, cur + 12) == Ok(Parsed(smpNum44k, cur + 12 + c))
            && ParseU8(data, cur + 12 + c) == Ok(Parsed(count, cur + 13 + c))
  {
    hide IntToVarint, ParseVarint;
    var a, b, c, n := NOISE_TAG, Le32(LATEST_VER), IntToVarint(smpNum44k), [count];
    assert |a| == 8 && |b| == 4;
    hide Le32, At, Take, ParseU32, ParseU8;
    AtSplit(data, cur, a + b + c, n);
    AtSplit(data, cur, a + b, c);
    AtSplit(data, cur, a, b);
    TakeAt(data, cur, a);
    ReadU32At(data, cur + 8, LATEST_VER);
    ReadVarintAt(data, cur + 12, smpNum44k);
    ReadU8At(data, cur + 12 + |c|, count);
  }

  /** Every design unit a read produces is canonical. */
  lemma ParsedUnitCanonical(data: seq<u8>, cur: nat)
    ensures ParseDesignUnit(data, cur).Ok? ==> Canonical(ParseDesignUnit(data, cur).value.value)
  {
    hide IntToVarint, ParseVarint;
  }

  lemma {:induction false} ParsedUnitsCanonical(data: seq<u8>, cur: nat, n: nat, acc: seq<DesignUnit>)
    requires forall i | 0 <= i < |acc| :: Canonical(acc[i])
    ensures var r := ParseDesignUnits(data, cur, n, acc);
            r.Ok? ==> forall i | 0 <= i < |r.value.value| :: Canonical(r.value.value[i])
    decreases n
  {
    hide IntToVarint, ParseVarint, ParseDesignUnit, Canonical;
    if n > 0 {
      ParsedUnitCanonical(data, cur);
      var u := ParseDesignUnit(data, cur);
      if u.Ok? {
        ParsedUnitsCanonical(data, u.value.next, n - 1, acc + [u.value.value]);
      }
    }
  }

  /**
   * What a read produces is exactly what the round trip covers: at most four
   * units, every one canonical.
   */
  lemma ParsedNoiseCanonical(data: seq<u8>, cur: nat)
    ensures var r := ParseNoise(data, cur);
            r.Ok? ==> forall i | 0 <= i < |r.value.value.units| :: Canonical(r.value.value.units[i])
  {
    hide IntToVarint, ParseVarint;
    var tag := Take(data, cur, 8);
    if tag.Ok? {
      var ver := ParseU32(data, cur + 8);
      if ver.Ok? {
        var smp := ParseVarint(data, cur + 12);
        if smp.Ok? {
          var num := ParseU8(data, smp.value.next);
          if num.Ok? {
            ParsedUnitsCanonical(data, num.value.next, num.value.value, []);
          }
        }
      }
    }
  }

  // ---------------------------------------------------------------------
  // fix
  // ---------------------------------------------------------------------

  const LIMIT_SMP_NUM: nat := 480000
  const LIMIT_ENVE_X: nat := 10000
  const LIMIT_ENVE_Y: nat := 100
  /** `NATIVE_SAMPLE_RATE` hertz, in tenths. */
  const LIMIT_OSC_FREQUENCY: nat := 441000
  /** 200.0, in tenths. */
  const LIMIT_OSC_VOLUME: nat := 2000
  /** 100.0, in tenths. */
  const LIMIT_OSC_OFFSET: nat := 1000

  /** `fix_unit`. */
  function FixOscillator(o: Oscillator): Oscillator
  {
    o.(freq := Min(o.freq, LIMIT_OSC_FREQUENCY), volume := Min(o.volume, LIMIT_OSC_VOLUME),
       offset := Min(o.offset, LIMIT_OSC_OFFSET))
  }

  function FixEnvPt(p: EnvPt): EnvPt
  {
    EnvPt(Min(p.x, LIMIT_ENVE_X), Min(p.y, LIMIT_ENVE_Y))
  }

  /** The fixes `NoiseData::fix` makes to one design unit. */
  function FixUnit(u: DesignUnit): DesignUnit
  {
    u.(enves := seq(|u.enves|, i requires 0 <= i < |u.enves| => FixEnvPt(u.enves[i])),
       pan := Clamp(u.pan, -100, 100),
       main := FixOscillator(u.main), freq := FixOscillator(u.freq), volu := FixOscillator(u.volu))
  }

  function FixDesign(d: NoiseDesign): NoiseDesign
  {
    NoiseDesign(Min(d.smpNum44k, LIMIT_SMP_NUM),
                seq(|d.units|, i requires 0 <= i < |d.units| => FixUnit(d.units[i])))
  }

  predicate OscillatorInLimits(o: Oscillator)
  {
    o.freq <= LIMIT_OSC_FREQUENCY && o.volume <= LIMIT_OSC_VOLUME && o.offset <= LIMIT_OSC_OFFSET
  }

  predicate UnitInLimits(u: DesignUnit)
  {
    && (forall i | 0 <= i < |u.enves| :: u.enves[i].x <= LIMIT_ENVE_X && u.enves[i].y <= LIMIT_ENVE_Y)
    && -100 <= u.pan <= 100
    && OscillatorInLimits(u.main) && OscillatorInLimits(u.freq) && OscillatorInLimits(u.volu)
  }

  /** Every limit `fix` enforces. */
  predicate InLimits(d: NoiseDesign)
  {
    d.smpNum44k <= LIMIT_SMP_NUM && forall i | 0 <= i < |d.units| :: UnitInLimits(d.units[i])
  }

  /**
   * `fix` brings every value within its limit, leaves values already within
   * their limits alone (so fixing twice is fixing once), keeps the number of
   * units and envelope points, and keeps every flag word.
   */
  lemma FixMeaning(d: NoiseDesign)
    ensures InLimits(FixDesign(d))
    ensures InLimits(d) ==> FixDesign(d) == d
    ensures FixDesign(FixDesign(d)) == FixDesign(d)
    ensures |FixDesign(d).units| == |d.units|
    ensures forall i | 0 <= i < |d.units| ::
              FixDesign(d).units[i].ioFlags == d.units[i].ioFlags && |FixDesign(d).units[i].enves| == |d.units[i].enves|
  {
    forall i | 0 <= i < |d.units|
      ensures UnitInLimits(FixUnit(d.units[i]))
      ensures UnitInLimits(d.units[i]) ==> FixUnit(d.units[i]) == d.units[i]
    {
      FixUnitMeaning(d.units[i]);
    }
    if InLimits(d) {
      assert FixDesign(d).units == d.units;
    }
    var f := FixDesign(d);
    forall i | 0 <= i < |f.units|
      ensures FixUnit(f.units[i]) == f.units[i]
    {
      FixUnitMeaning(f.units[i]);
    }
    assert FixDesign(f).units == f.units;
  }

  lemma FixUnitMeaning(u: DesignUnit)
    ensures UnitInLimits(FixUnit(u))
    ensures UnitInLimits(u) ==> FixUnit(u) == u
  {
    if UnitInLimits(u) {
      assert FixUnit(u).enves == u.enves;
    }
  }

  // ---------------------------------------------------------------------
  // The object
  // ---------------------------------------------------------------------

  /** `read_oscillator` on the reader. */
  method ReadOscillator(rd: Reader) returns (r: Result<Oscillator, ReadError>)
    modifies rd`cur
    ensures Outcome(r, rd.cur) == ParseOscillator(rd.data, old(rd.cur))
  {
    hide IntToVarint, ParseVarint;
    var code := rd.NextVarint();
    if code.Err? { return Err(code.error); }
    var kind := WaveOfCode(code.value);
    if kind.Err? { return Err(kind.error); }
    var inv := rd.NextVarint();
    if inv.Err? { return Err(inv.error); }
    var freq := rd.NextVarint();
    if freq.Err? { return Err(freq.error); }
    var volume := rd.NextVarint();
    if volume.Err? { return Err(volume.error); }
    var offset := rd.NextVarint();
    if offset.Err? { return Err(offset.error); }
    r := Ok(Oscillator(kind.value, inv.value != 0, freq.value, volume.value, offset.value));
  }

  /** The envelope loop of `NoiseData::read`. */
  method ReadEnvPts(rd: Reader, n: nat) returns (r: Result<seq<EnvPt>, ReadError>)
    modifies rd`cur
    ensures Outcome(r, rd.cur) == ParseEnvPts(rd.data, old(rd.cur), n, [])
  {
    hide IntToVarint, ParseVarint;
    var pts: seq<EnvPt> := [];
    var i := 0;
    while i < n
      invariant 0 <= i <= n
      invariant ParseEnvPts(rd.data, old(rd.cur), n, []) == ParseEnvPts(rd.data, rd.cur, n - i, pts)
    {
      var x := rd.NextVarint();
      if x.Err? { return Err(x.error); }
      if x.value > 0xFFFF { return Err(ReadError.Panic); }
      var y := rd.NextVarint();
      if y.Err? { return Err(y.error); }
      if y.value > 0xFF { return Err(ReadError.Panic); }
      pts := pts + [EnvPt(x.value, y.value)];
      i := i + 1;
    }
    r := Ok(pts);
  }

  /** One design unit of `NoiseData::read`. */
  method ReadDesignUnit(rd: Reader) returns (r: Result<DesignUnit, ReadError>)
    modifies rd`cur
    ensures Outcome(r, rd.cur) == ParseDesignUnit(rd.data, old(rd.cur))
  {
    hide IntToVarint, ParseVarint;
    var flags := rd.NextVarint();
    if flags.Err? { return Err(flags.error); }
    if Flagged(flags.value, FLAG_UNCOVERED) { return Err(FmtUnknown); }
    var unit := DEFAULT_UNIT.(ioFlags := flags.value);
    ghost var c1 := rd.cur;
    if Flagged(flags.value, FLAG_ENVELOPE) {
      var n := rd.NextVarint();
      if n.Err? { return Err(n.error); }
      if n.value > MAX_ENVELOPE_NUM { return Err(FmtUnknown); }
      var pts := ReadEnvPts(rd, n.value);
      if pts.Err? { return Err(pts.error); }
      unit := unit.(enves := pts.value);
    }
    assert ParseEnvelopeField(rd.data, c1, flags.value) == Ok(Parsed(unit.enves, rd.cur));
    ghost var c2 := rd.cur;
    if Flagged(flags.value, FLAG_PAN) {
      var pan := rd.NextI8();
      if pan.Err? { return Err(pan.error); }
      unit := unit.(pan := pan.value);
    }
    assert ParsePanField(rd.data, c2, flags.value) == Ok(Parsed(unit.pan, rd.cur));
    ghost var c3 := rd.cur;
    if Flagged(flags.value, FLAG_OSC_MAIN) {
      var o := ReadOscillator(rd);
      if o.Err? { return Err(o.error); }
      unit := unit.(main := o.value);
    }
    assert ParseOscField(rd.data, c3, flags.value, FLAG_OSC_MAIN) == Ok(Parsed(unit.main, rd.cur));
    ghost var c4 := rd.cur;
    if Flagged(flags.value, FLAG_OSC_FREQ) {
      var o := ReadOscillator(rd);
      if o.Err? { return Err(o.error); }
      unit := unit.(freq := o.value);
    }
    assert ParseOscField(rd.data, c4, flags.value, FLAG_OSC_FREQ) == Ok(Parsed(unit.freq, rd.cur));
    ghost var c5 := rd.cur;
    if Flagged(flags.value, FLAG_OSC_VOLU) {
      var o := ReadOscillator(rd);
      if o.Err? { return Err(o.error); }
      unit := unit.(volu := o.value);
    }
    assert ParseOscField(rd.data, c5, flags.value, FLAG_OSC_VOLU) == Ok(Parsed(unit.volu, rd.cur));
    r := Ok(unit);
  }

  method WriteOscillator(out: ByteVec, o: Oscillator)
    modifies out
    ensures out.bytes == old(out.bytes) + EncodeOscillator(o)
  {
    hide IntToVarint, ParseVarint;
    WriteVarint(WaveCode(o.kind), out);
    WriteVarint(if o.invert then 1 else 0, out);
    WriteVarint(o.freq, out);
    WriteVarint(o.volume, out);
    WriteVarint(o.offset, out);
  }

  /** The envelope loop of `NoiseData::write`. */
  method WriteEnvPts(out: ByteVec, ps: seq<EnvPt>)
    modifies out
    ensures out.bytes == old(out.bytes) + EncodeEnvPts(ps)
  {
    hide IntToVarint, EncodeEnvPt;
    var i := 0;
    while i < |ps|
      invariant 0 <= i <= |ps|
      invariant out.bytes == old(out.bytes) + EncodeEnvPts(ps[..i])
    {
      EncodeEnvPtsAppend(ps[..i], [ps[i]]);
      assert ps[..i + 1] == ps[..i] + [ps[i]];
      assert EncodeEnvPts([ps[i]]) == EncodeEnvPt(ps[i]);
      WriteEnvPt(out, ps[i]);
      i := i + 1;
    }
    assert ps[..i] == ps;
  }

  method WriteEnvPt(out: ByteVec, p: EnvPt)
    modifies out
    ensures out.bytes == old(out.bytes) + EncodeEnvPt(p)
  {
    WriteVarint(p.x, out);
    WriteVarint(p.y, out);
  }

  method WriteEnvelopeField(out: ByteVec, u: DesignUnit)
    modifies out
    ensures out.bytes == old(out.bytes) + EncodeEnvelopeField(u)
  {
    hide IntToVarint, EncodeEnvPts;
    if Flagged(u.ioFlags, FLAG_ENVELOPE) {
      WriteVarint(|u.enves|, out);
      WriteEnvPts(out, u.enves);
    }
  }

  method WritePanField(out: ByteVec, u: DesignUnit)
    modifies out
    ensures out.bytes == old(out.bytes) + EncodePanField(u)
  {
    if Flagged(u.ioFlags, FLAG_PAN) {
      out.Push(AsUnsigned8(u.pan));
    }
  }

  method WriteOscField(out: ByteVec, o: Oscillator, flags: u32, bit: bv32)
    modifies out
    ensures out.bytes == old(out.bytes) + EncodeOscField(o, flags, bit)
  {
    hide EncodeOscillator;
    if Flagged(flags, bit) {
      WriteOscillator(out, o);
    }
  }

  /** One design unit of `NoiseData::write`: the flags, then each field whose bit is set. */
  method WriteDesignUnit(out: ByteVec, u: DesignUnit)
    modifies out
    ensures out.bytes == old(out.bytes) + EncodeDesignUnit(u)
  {
    hide IntToVarint, EncodeEnvelopeField, EncodePanField, EncodeOscField;
    WriteVarint(u.ioFlags, out);
    WriteEnvelopeField(out, u);
    WritePanField(out, u);
    WriteOscField(out, u.main, u.ioFlags, FLAG_OSC_MAIN);
    WriteOscField(out, u.freq, u.ioFlags, FLAG_OSC_FREQ);
    WriteOscField(out, u.volu, u.ioFlags, FLAG_OSC_VOLU);
  }

  /** `NoiseData`: the sample count and the design units, updated in place by `read` and `fix`. */
  class NoiseData {
    var smpNum44k: u32
    var units: Units

    function State(): NoiseDesign
      reads this
    {
      NoiseDesign(smpNum44k, units)
    }

    /** `NoiseData::new`: no samples, no units. */
    constructor ()
      ensures State() == NoiseDesign(0, [])
    {
      smpNum44k := 0;
      units := [];
    }

    /** `get_unit_num`. */
    function GetUnitNum(): (n: nat)
      reads this
      ensures n == |State().units| && n <= MAX_UNIT_NUM
    {
      |units|
    }

    /** `release`: the units are dropped, the sample count stays. */
    method Release()
      modifies this
      ensures State() == old(State()).(units := [])
    {
      units := [];
    }

    /**
     * `read`: on success the object holds what `ParseNoise` describes and
     * the cursor is past it; on failure the error is the one it describes.
     */
    method Read(rd: Reader) returns (r: Result<(), ReadError>)
      modifies this, rd`cur
      ensures r.Ok? <==> ParseNoise(rd.data, old(rd.cur)).Ok?
      ensures r.Ok? ==> ParseNoise(rd.data, old(rd.cur)) == Ok(Parsed(State(), rd.cur))
      ensures r.Err? ==> ParseNoise(rd.data, old(rd.cur)) == Err(r.error)
    {
      hide IntToVarint, ParseVarint, ParseDesignUnit, Take, ParseU32, ParseU8;
      Release();
      ghost var c0 := rd.cur;
      var tag := rd.Next(8);
      if tag.Err? { return Err(tag.error); }
      if tag.value != NOISE_TAG { return Err(InvalidTag); }
      var ver := rd.NextU32();
      if ver.Err? { return Err(ver.error); }
      if ver.value > LATEST_VER { return Err(FmtNewer); }
      var smp := rd.NextVarint();
      if smp.Err? { return Err(smp.error); }
      smpNum44k := smp.value;
      var num := rd.NextU8();
      if num.Err? { return Err(num.error); }
      if num.value > MAX_UNIT_NUM { return Err(FmtUnknown); }
      r := ReadUnits(rd, num.value);
    }

    /** The loop of `read` over the design units: fills `units` with what `ParseDesignUnits` reads. */
    method ReadUnits(rd: Reader, num: u8) returns (r: Result<(), ReadError>)
      requires num <= MAX_UNIT_NUM
      modifies this`units, rd`cur
      ensures var p := ParseDesignUnits(rd.data, old(rd.cur), num as nat, []);
              && (r.Ok? <==> p.Ok?)
              && (r.Ok? ==> p == Ok(Parsed(units, rd.cur)))
              && (r.Err? ==> p == Err(r.error))
    {
      hide IntToVarint, ParseVarint, ParseDesignUnit;
      ghost var c0 := rd.cur;
      units := seq(num, _ => DEFAULT_UNIT);
      var u := 0;
      while u < num
        invariant 0 <= u <= num == |units|
        invariant ParseDesignUnits(rd.data, c0, num as nat, []) == ParseDesignUnits(rd.data, rd.cur, (num - u) as nat, units[..u])
      {
        var du := ReadDesignUnit(rd);
        if du.Err? { return Err(du.error); }
        assert units[u := du.value][..u + 1] == units[..u] + [du.value];
        units := units[u := du.value];
        u := u + 1;
      }
      assert units[..u] == units;
      r := Ok(());
    }

    /** `write`: appends the encoding of the object's contents. */
    method Write(out: ByteVec)
      modifies out
      ensures out.bytes == old(out.bytes) + EncodeNoise(State())
    {
      hide IntToVarint, ParseVarint, EncodeDesignUnit;
      out.Extend(NOISE_TAG);
      out.Extend(Le32(LATEST_VER));
      WriteVarint(smpNum44k, out);
      out.Push(|units| as u8);
      ghost var b := out.bytes;
      var i := 0;
      while i < |units|
        invariant 0 <= i <= |units|
        invariant out.bytes == b + EncodeDesignUnits(units[..i])
      {
        EncodeDesignUnitsAppend(units[..i], [units[i]]);
        assert units[..i + 1] == units[..i] + [units[i]];
        EncodeDesignUnitsSingle(units[i]);
        WriteDesignUnit(out, units[i]);
        i := i + 1;
      }
      assert units[..i] == units;
    }

    /** `fix`: every value is brought within its limit, unit by unit and point by point. */
    method Fix()
      modifies this
      ensures State() == FixDesign(old(State()))
    {
      if smpNum44k > LIMIT_SMP_NUM {
        smpNum44k := LIMIT_SMP_NUM;
      }
      var i := 0;
      while i < |units|
        invariant 0 <= i <= |units| == |old(units)|
        invariant smpNum44k == Min(old(smpNum44k), LIMIT_SMP_NUM)
        invariant forall k | 0 <= k < i :: units[k] == FixUnit(old(units)[k])
        invariant forall k | i <= k < |units| :: units[k] == old(units)[k]
      {
        var u := units[i];
        var enves := u.enves;
        var j := 0;
        while j < |enves|
          invariant 0 <= j <= |enves| == |u.enves|
          invariant forall k | 0 <= k < j :: enves[k] == FixEnvPt(u.enves[k])
          invariant forall k | j <= k < |enves| :: enves[k] == u.enves[k]
        {
          enves := enves[j := FixEnvPt(enves[j])];
          j := j + 1;
        }
        units := units[i := u.(enves := enves, pan := Clamp(u.pan, -100, 100),
                                main := FixOscillator(u.main), freq := FixOscillator(u.freq),
                                volu := FixOscillator(u.volu))];
        i := i + 1;
      }
    }
  }
}

/**
 * Reading and writing voices: the `.ptvoice` format (`PTVOICE-`) and the
 * four voice chunks of a project file (`matePCM `, `matePTN `, `matePTV `,
 * `mateOGGV`). A read yields the units of the voice; the chunk tag itself
 * is consumed by the project reader before these functions run.
 */
module VoiceIo {
  import opened Base
  import opened Errors
  import opened Io
  import opened Point
  import opened Envelope
  import opened WaveIo
  import Voice
  import Noise
  import Pcm
  import HerdIo

  type VoiceUnit = Voice.VoiceUnit

  const PTV_TAG: seq<u8> := Bytes("PTVOICE-")
  const PTV_VER: u32 := 20060111

  /** `PTV_DATAFLAG_WAVE` and `PTV_DATAFLAG_ENVELOPE`. */
  const PTV_DATAFLAG_WAVE: bv32 := 1
  const PTV_DATAFLAG_ENVELOPE: bv32 := 2

  /** `size_of::<IoPcm>()`, `size_of::<IoPtn>()`, `size_of::<IoPtv>()`, `size_of::<IoOggv>()`. */
  const PCM_HEADER_SIZE: nat := 24
  const PTN_HEADER_SIZE: nat := 16
  const PTV_HEADER_SIZE: nat := 12
  const OGGV_HEADER_SIZE: nat := 12

  /**
   * A unit read from a chunk: what the chunk stores, and for every other
   * field the value of the unit `allocate` creates.
   */
  function ReadUnit(basicKey: i32, flags: u32, tuning: u32, data: Voice.VoiceData): VoiceUnit
  {
    Voice.DEFAULT_VOICE_UNIT.(basicKey := basicKey, flags := flags, tuning := tuning, data := data)
  }

  // ---------------------------------------------------------------------
  // Volume and pan in the PTVOICE format
  // ---------------------------------------------------------------------

  /**
   * Reading a volume or a pan: the varint reinterpreted as `i32`, then
   * narrowed to `i16`; a value that does not fit panics.
   */
  function DecodeLevel(v: u32): (r: Result<i16, ReadError>)
    ensures r.Ok? <==> -0x8000 <= AsSigned32(v) < 0x8000
    ensures r.Ok? ==> r.value == AsSigned32(v)
  {
    var s := AsSigned32(v);
    if -0x8000 <= s < 0x8000 then Ok(s) else Err(ReadError.Panic)
  }

  /** How a writer turns an `i16` level into the varint's `u32`. */
  datatype LevelEncoding =
    | ZeroExtend  // `cast_unsigned().into()`: through `u16`, as the writer does
    | SignExtend  // through `i32`, the inverse of `DecodeLevel`

  function EncodeLevel(enc: LevelEncoding, x: i16): u32
  {
    if enc == ZeroExtend then AsUnsigned16(x) else AsUnsigned32(x)
  }

  /** Sign extension reads back as the level written, for every level. */
  lemma LevelRoundTrip(x: i16)
    ensures DecodeLevel(EncodeLevel(SignExtend, x)) == Ok(x)
  {
  }

  /** Zero extension reads back only the non-negative levels; every negative one panics. */
  lemma ZeroExtendedLevel(x: i16)
    ensures x >= 0 ==> DecodeLevel(EncodeLevel(ZeroExtend, x)) == Ok(x)
    ensures x < 0 ==> DecodeLevel(EncodeLevel(ZeroExtend, x)) == Err(ReadError.Panic)
  {
  }

  // ---------------------------------------------------------------------
  // PTVOICE: reading
  // ---------------------------------------------------------------------

  /** The wave of a unit: read when the data flags say so, otherwise `d` stays. */
  function ParseWaveField(data: seq<u8>, cur: nat, dataFlags: u32, d: Voice.VoiceData): (r: Parse<Voice.VoiceData>)
    ensures cur <= |data| && r.Ok? ==> cur <= r.value.next <= |data|
  {
    if Noise.Flagged(dataFlags, PTV_DATAFLAG_WAVE) then
      var w :- ParseWave(data, cur);
      Ok(Parsed(Voice.WaveVoice(w.value), w.next))
    else Ok(Parsed(d, cur))
  }

  /** The envelope of a unit: read when the data flags say so, otherwise `e` stays. */
  function ParseEnvelopeField(data: seq<u8>, cur: nat, dataFlags: u32, e: EnvelopeSrc): (r: Parse<EnvelopeSrc>)
    ensures cur <= |data| && r.Ok? ==> cur <= r.value.next <= |data|
  {
    if Noise.Flagged(dataFlags, PTV_DATAFLAG_ENVELOPE) then ParseEnvelope(data, cur)
    else Ok(Parsed(e, cur))
  }

  /**
   * One unit of `ptv_read`: basic key, volume, pan, tuning, flags and data
   * flags as varints, then the wave and the envelope the data flags announce.
   */
  function ParsePtvUnit(data: seq<u8>, cur: nat): (r: Parse<VoiceUnit>)
    ensures cur <= |data| && r.Ok? ==> cur <= r.value.next <= |data|
  {
    var key :- ParseVarint(data, cur);
    var vol :- ParseVarint(data, key.next);
    var volume :- DecodeLevel(vol.value);
    var pan :- ParseVarint(data, vol.next);
    var panLevel :- DecodeLevel(pan.value);
    var tuning :- ParseVarint(data, pan.next);
    var flags :- ParseVarint(data, tuning.next);
    var dataFlags :- ParseVarint(data, flags.next);
    var u := Voice.DEFAULT_VOICE_UNIT.(basicKey := AsSigned32(key.value), volume := volume, pan := panLevel,
                                       tuning := tuning.value, flags := flags.value);
    var d :- ParseWaveField(data, dataFlags.next, dataFlags.value, u.data);
    var e :- ParseEnvelopeField(data, d.next, dataFlags.value, u.envelope);
    Ok(Parsed(u.(data := d.value, envelope := e.value), e.next))
  }

  /** `n` more units, appended to `acc`. */
  function ParsePtvUnits(data: seq<u8>, cur: nat, n: nat, acc: seq<VoiceUnit>): (r: Parse<seq<VoiceUnit>>)
    ensures r.Ok? ==> |r.value.value| == |acc| + n
    decreases n
    ensures cur <= |data| && r.Ok? ==> cur <= r.value.next <= |data|
  {
    if n == 0 then Ok(Parsed(acc, cur))
    else
      var u :- ParsePtvUnit(data, cur);
      ParsePtvUnits(data, u.next, n - 1, acc + [u.value])
  }

  /**
   * `ptv_read`: the tag, a version no newer than 20060111, the total size
   * (not checked), three varints of which the last two must be 0, a unit
   * count of 1 or 2, then the units.
   */
  function ParsePtv(data: seq<u8>, cur: nat): (r: Parse<seq<VoiceUnit>>)
    ensures r.Ok? ==> 1 <= |r.value.value| <= 2
    ensures cur <= |data| && r.Ok? ==> cur <= r.value.next <= |data|
  {
    var tag :- Take(data, cur, 8);
    if tag.value != PTV_TAG then Err(InvalidTag)
    else
      var ver :- ParseU32(data, tag.next);
      if ver.value > PTV_VER then Err(FmtNewer)
      else
        var total :- ParseI32(data, ver.next);
        var basic :- ParseVarint(data, total.next);
        var work1 :- ParseVarint(data, basic.next);
        var work2 :- ParseVarint(data, work1.next);
        if work1.value != 0 || work2.value != 0 then Err(FmtUnknown)
        else
          var num :- ParseVarint(data, work2.next);
          if num.value != 1 && num.value != 2 then Err(FmtUnknown)
          else ParsePtvUnits(data, num.next, num.value, [])
  }

  // ---------------------------------------------------------------------
  // PTVOICE: writing
  // ---------------------------------------------------------------------

  /** The data flags `ptv_write` stores: always the wave, and the envelope when it has points. */
  function DataFlags(u: VoiceUnit): (f: u32)
    ensures Noise.Flagged(f, PTV_DATAFLAG_WAVE)
    ensures Noise.Flagged(f, PTV_DATAFLAG_ENVELOPE) <==> u.envelope.points != []
  {
    if u.envelope.points == [] then 1 else 3
  }

  /** The six varints that open a unit. */
  function EncodePtvUnitHead(enc: LevelEncoding, u: VoiceUnit): seq<u8>
  {
    IntToVarint(AsUnsigned32(u.basicKey)) + IntToVarint(EncodeLevel(enc, u.volume))
      + IntToVarint(EncodeLevel(enc, u.pan)) + IntToVarint(u.tuning) + IntToVarint(u.flags)
      + IntToVarint(DataFlags(u))
  }

  /** The envelope part of a unit: present exactly when the envelope has points. */
  function EncodeEnvelopeField(env: EnvelopeSrc): seq<u8>
    requires |env.points| <= 0x1_0000_0000
  {
    if env.points == [] then [] else EncodeEnvelope(env)
  }

  /**
   * One unit of `ptv_write`. Only wave voices can be written: any other
   * data reaches `unreachable!()`; a coordinate point out of range is the
   * wave writer's error.
   */
  function EncodePtvUnitWith(enc: LevelEncoding, u: VoiceUnit): (r: Result<seq<u8>, WriteError>)
    requires |u.envelope.points| <= 0x1_0000_0000
    ensures r.Ok? <==> u.data.WaveVoice? && EncodeWave(u.data.wave).Ok?
    ensures !u.data.WaveVoice? ==> r == Err(WriteError.Panic)
  {
    if !u.data.WaveVoice? then Err(WriteError.Panic)
    else
      var w :- EncodeWave(u.data.wave);
      Ok(EncodePtvUnitHead(enc, u) + w + EncodeEnvelopeField(u.envelope))
  }

  /** The units as the model writes them: levels sign-extended. */
  function EncodePtvUnit(u: VoiceUnit): (r: Result<seq<u8>, WriteError>)
    requires |u.envelope.points| <= 0x1_0000_0000
  {
    EncodePtvUnitWith(SignExtend, u)
  }

  predicate EnvelopesBounded(us: seq<VoiceUnit>)
  {
    forall i | 0 <= i < |us| :: |us[i].envelope.points| <= 0x1_0000_0000
  }

  /** The units one after another; the first unit that cannot be written stops it with its error. */
  function EncodePtvUnits(us: seq<VoiceUnit>): (r: Result<seq<u8>, WriteError>)
    requires EnvelopesBounded(us)
  {
    if us == [] then Ok([])
    else
      var a :- EncodePtvUnit(us[0]);
      var b :- EncodePtvUnits(us[1..]);
      Ok(a + b)
  }

  /** What follows the total-size field: three zero varints, the unit count, the units. */
  function EncodePtvTail(us: seq<VoiceUnit>, body: seq<u8>): seq<u8>
  {
    IntToVarint(0) + IntToVarint(0) + IntToVarint(0) + IntToVarint(Wrap32(|us|)) + body
  }

  /**
   * `ptv_write`: tag, version 20060111, the size of everything after the
   * size field (back-patched, cast to `u32`), then the tail.
   */
  function EncodePtv(us: seq<VoiceUnit>): (r: Result<seq<u8>, WriteError>)
    requires EnvelopesBounded(us)
    ensures r.Ok? <==> EncodePtvUnits(us).Ok?
  {
    var body :- EncodePtvUnits(us);
    var tail := EncodePtvTail(us, body);
    Ok(PTV_TAG + Le32(PTV_VER) + Le32(Wrap32(|tail|)) + tail)
  }

  // ---------------------------------------------------------------------
  // PTVOICE: round trip and the zero-extension finding
  // ---------------------------------------------------------------------

  /**
   * A unit that reads back as itself: a wave voice the wave writer accepts,
   * with fewer than 2^32 wave points, and an envelope that has points or is
   * the empty envelope a read starts from.
   */
  predicate PtvRoundTrips(u: VoiceUnit)
  {
    && u.data.WaveVoice? && EncodeWave(u.data.wave).Ok? && |u.data.wave.points| < 0x1_0000_0000
    && |u.envelope.points| <= 0x1_0000_0000
    && (u.envelope.points == [] ==> u.envelope == Voice.DEFAULT_VOICE_UNIT.envelope)
  }

  /** The six opening varints read back. */
  lemma PtvUnitHeadRoundTrip(data: seq<u8>, cur: nat, u: VoiceUnit)
    requires At(data, cur, EncodePtvUnitHead(SignExtend, u))
    ensures var key := ParseVarint(data, cur);
            key.Ok? && key.value.value == AsUnsigned32(u.basicKey) &&
            var vol := ParseVarint(data, key.value.next);
            vol.Ok? && vol.value.value == AsUnsigned32(u.volume) &&
            var pan := ParseVarint(data, vol.value.next);
            pan.Ok? && pan.value.value == AsUnsigned32(u.pan) &&
            var tuning := ParseVarint(data, pan.value.next);
            tuning.Ok? && tuning.value.value == u.tuning &&
            var flags := ParseVarint(data, tuning.value.next);
            flags.Ok? && flags.value.value == u.flags &&
            var df := ParseVarint(data, flags.value.next);
            df == Ok(Parsed(DataFlags(u), cur + |EncodePtvUnitHead(SignExtend, u)|))
  {
    hide IntToVarint, ParseVarint;
    var k, v, p := IntToVarint(AsUnsigned32(u.basicKey)), IntToVarint(AsUnsigned32(u.volume)), IntToVarint(AsUnsigned32(u.pan));
    var t, f, d := IntToVarint(u.tuning), IntToVarint(u.flags), IntToVarint(DataFlags(u));
    assert EncodePtvUnitHead(SignExtend, u) == (k + v + p) + (t + f + d);
    AtSplit(data, cur, k + v + p, t + f + d);
    ThreeVarintsAt(data, cur, AsUnsigned32(u.basicKey), AsUnsigned32(u.volume), AsUnsigned32(u.pan));
    ThreeVarintsAt(data, cur + |k + v + p|, u.tuning, u.flags, DataFlags(u));
  }

  /** Three varints in a row read back one after the other. */
  lemma ThreeVarintsAt(data: seq<u8>, cur: nat, a: u32, b: u32, c: u32)
    requires At(data, cur, IntToVarint(a) + IntToVarint(b) + IntToVarint(c))
    ensures var n := |IntToVarint(a)|; var m := n + |IntToVarint(b)|;
            && ParseVarint(data, cur) == Ok(Parsed(a, cur + n))
            && ParseVarint(data, cur + n) == Ok(Parsed(b, cur + m))
            && ParseVarint(data, cur + m) == Ok(Parsed(c, cur + m + |IntToVarint(c)|))
  {
    hide IntToVarint, ParseVarint;
    var x, y := IntToVarint(a), IntToVarint(b);
    AtSplit(data, cur, x + y, IntToVarint(c));
    AtSplit(data, cur, x, y);
    ReadVarintAt(data, cur, a);
    ReadVarintAt(data, cur + |x|, b);
    ReadVarintAt(data, cur + |x| + |y|, c);
  }

  /** A unit that round-trips is read back as itself. */
  lemma PtvUnitRoundTrip(data: seq<u8>, cur: nat, u: VoiceUnit)
    requires PtvRoundTrips(u)
    requires At(data, cur, EncodePtvUnit(u).value)
    ensures ParsePtvUnit(data, cur) == Ok(Parsed(u, cur + |EncodePtvUnit(u).value|))
  {
    hide IntToVarint, ParseVarint, ParseWave, ParseEnvelope, EncodeWave, EncodeEnvelope;
    var head, w, e := EncodePtvUnitHead(SignExtend, u), EncodeWave(u.data.wave).value, EncodeEnvelopeField(u.envelope);
    assert EncodePtvUnit(u).value == head + w + e;
    AtSplit(data, cur, head + w, e);
    AtSplit(data, cur, head, w);
    PtvUnitHeadRoundTrip(data, cur, u);
    LevelRoundTrip(u.volume);
    LevelRoundTrip(u.pan);
    WaveRoundTrip(data, cur + |head|, u.data.wave);
    if u.envelope.points != [] {
      EnvelopeRoundTrip(data, cur + |head| + |w|, u.envelope);
    }
  }

  /**
   * The finding: with the levels zero-extended as the writer does, a unit
   * whose volume is negative cannot be read back; the read panics.
   */
  lemma AsWrittenNegativeVolumeUnreadable(data: seq<u8>, cur: nat, u: VoiceUnit)
    requires |u.envelope.points| <= 0x1_0000_0000 && u.data.WaveVoice? && EncodeWave(u.data.wave).Ok?
    requires u.volume < 0
    requires At(data, cur, EncodePtvUnitWith(ZeroExtend, u).value)
    ensures ParsePtvUnit(data, cur) == Err(ReadError.Panic)
  {
    hide IntToVarint, ParseVarint, EncodeWave, EncodeEnvelope;
    var k, v := IntToVarint(AsUnsigned32(u.basicKey)), IntToVarint(EncodeLevel(ZeroExtend, u.volume));
    var rest := EncodePtvUnitWith(ZeroExtend, u).value[|k| + |v|..];
    assert EncodePtvUnitWith(ZeroExtend, u).value == k + v + rest;
    AtSplit(data, cur, k + v, rest);
    AtSplit(data, cur, k, v);
    ReadVarintAt(data, cur, AsUnsigned32(u.basicKey));
    ReadVarintAt(data, cur + |k|, EncodeLevel(ZeroExtend, u.volume));
    ZeroExtendedLevel(u.volume);
  }

  lemma {:induction false} EncodePtvUnitsAppend(a: seq<VoiceUnit>, b: seq<VoiceUnit>)
    requires EnvelopesBounded(a) && EnvelopesBounded(b) && EncodePtvUnits(a).Ok?
    ensures EnvelopesBounded(a + b)
    ensures EncodePtvUnits(a + b) ==
            (match EncodePtvUnits(b)
             case Ok(y) => Ok(EncodePtvUnits(a).value + y)
             case Err(x) => Err(x))
  {
    hide EncodePtvUnit;
    assert EnvelopesBounded(a + b) by {
      forall i | 0 <= i < |a + b| ensures |(a + b)[i].envelope.points| <= 0x1_0000_0000 {
        if i < |a| { assert (a + b)[i] == a[i]; } else { assert (a + b)[i] == b[i - |a|]; }
      }
    }
    if a == [] {
      assert a + b == b;
      match EncodePtvUnits(b) {
        case Ok(y) => assert EncodePtvUnits(a).value + y == y;
        case Err(_) =>
      }
    } else {
      assert (a + b)[0] == a[0] && (a + b)[1..] == a[1..] + b;
      assert EnvelopesBounded(a[1..]) by {
        forall i | 0 <= i < |a[1..]| ensures |a[1..][i].envelope.points| <= 0x1_0000_0000 {
          assert a[1..][i] == a[i + 1];
        }
      }
      var x := EncodePtvUnit(a[0]).value;
      assert EncodePtvUnits(a).value == x + EncodePtvUnits(a[1..]).value;
      EncodePtvUnitsAppend(a[1..], b);
      match EncodePtvUnits(b) {
        case Ok(y) =>
          assert x + EncodePtvUnits(a[1..]).value + y == x + (EncodePtvUnits(a[1..]).value + y);
        case Err(_) =>
      }
    }
  }

  lemma EncodePtvUnitsSingle(u: VoiceUnit)
    requires |u.envelope.points| <= 0x1_0000_0000
    ensures EnvelopesBounded([u])
    ensures EncodePtvUnits([u]) == (match EncodePtvUnit(u) case Ok(a) => Ok(a) case Err(x) => Err(x))
  {
    hide EncodePtvUnit;
    assert [u][1..] == [];
    assert EncodePtvUnits([u][1..]) == Ok([]);
    if EncodePtvUnit(u).Ok? {
      assert EncodePtvUnit(u).value + [] == EncodePtvUnit(u).value;
    }
  }

  lemma {:induction false} PtvUnitsRoundTrip(data: seq<u8>, cur: nat, us: seq<VoiceUnit>, acc: seq<VoiceUnit>)
    requires forall i | 0 <= i < |us| :: PtvRoundTrips(us[i])
    requires EnvelopesBounded(us) && EncodePtvUnits(us).Ok? && At(data, cur, EncodePtvUnits(us).value)
    ensures ParsePtvUnits(data, cur, |us|, acc) == Ok(Parsed(acc + us, cur + |EncodePtvUnits(us).value|))
    decreases |us|
  {
    hide EncodePtvUnit, ParsePtvUnit, PtvRoundTrips, At;
    if us == [] {
      assert acc + us == acc;
    } else {
      var rest := us[1..];
      assert forall i | 0 <= i < |rest| :: rest[i] == us[i + 1];
      var a := EncodePtvUnit(us[0]).value;
      var b := EncodePtvUnits(rest).value;
      assert EncodePtvUnits(us).value == a + b;
      AtSplit(data, cur, a, b);
      PtvUnitRoundTrip(data, cur, us[0]);
      PtvUnitsRoundTrip(data, cur + |a|, us[1..], acc + [us[0]]);
      assert acc + [us[0]] + us[1..] == acc + us;
    }
  }

  /**
   * One or two units that each round-trip make a `.ptvoice` image that
   * reads back as exactly those units.
   */
  lemma PtvRoundTrip(data: seq<u8>, cur: nat, us: seq<VoiceUnit>)
    requires 1 <= |us| <= 2 && forall i | 0 <= i < |us| :: PtvRoundTrips(us[i])
    requires EnvelopesBounded(us) && EncodePtv(us).Ok? && At(data, cur, EncodePtv(us).value)
    ensures ParsePtv(data, cur) == Ok(Parsed(us, cur + |EncodePtv(us).value|))
  {
    hide IntToVarint, ParseVarint, EncodePtvUnits, ParsePtvUnits, EncodePtvTail;
    var body := EncodePtvUnits(us).value;
    var tail := EncodePtvTail(us, body);
    var prefix := PTV_TAG + Le32(PTV_VER) + Le32(Wrap32(|tail|)) + EncodePtvTail(us, []);
    PtvTailSplit(us, body);
    assert EncodePtv(us).value == prefix + body;
    AtSplit(data, cur, prefix, body);
    PtvPrefixRoundTrip(data, cur, |us|, Wrap32(|tail|), us);
    PtvUnitsRoundTrip(data, cur + |prefix|, us, []);
    assert [] + us == us;
  }

  lemma PtvTailSplit(us: seq<VoiceUnit>, body: seq<u8>)
    ensures EncodePtvTail(us, body) == EncodePtvTail(us, []) + body
  {
    hide IntToVarint;
  }

  /** Everything before the units reads back, leaving the unit count. */
  lemma PtvPrefixRoundTrip(data: seq<u8>, cur: nat, n: nat, total: u32, us: seq<VoiceUnit>)
    requires n == |us| && 1 <= n <= 2
    requires At(data, cur, PTV_TAG + Le32(PTV_VER) + Le32(total) + EncodePtvTail(us, []))
    ensures var prefix := PTV_TAG + Le32(PTV_VER) + Le32(total) + EncodePtvTail(us, []);
            ParsePtv(data, cur) == ParsePtvUnits(data, cur + |prefix|, n, [])
  {
    hide IntToVarint, ParseVarint, ParsePtvUnits, Take, ParseU32, ParseI32;
    var head := PTV_TAG + Le32(PTV_VER) + Le32(total);
    AtSplit(data, cur, head, EncodePtvTail(us, []));
    PtvHeaderAt(data, cur, total);
    PtvCountsAt(data, cur + 16, n, us);
  }

  lemma PtvHeaderAt(data: seq<u8>, cur: nat, total: u32)
    requires At(data, cur, PTV_TAG + Le32(PTV_VER) + Le32(total))
    ensures Take(data, cur, 8) == Ok(Parsed(PTV_TAG, cur + 8))
    ensures ParseU32(data, cur + 8) == Ok(Parsed(PTV_VER, cur + 12))
    ensures ParseI32(data, cur + 12).Ok? && ParseI32(data, cur + 12).value.next == cur + 16
  {
    var t, v, s := PTV_TAG, Le32(PTV_VER), Le32(total);
    AtSplit(data, cur, t + v, s);
    AtSplit(data, cur, t, v);
    TakeAt(data, cur, t);
    ReadU32At(data, cur + 8, PTV_VER);
    FromLe32Inverse(s);
    ReadI32At(data, cur + 12, AsSigned32(total));
  }

  lemma PtvCountsAt(data: seq<u8>, cur: nat, n: nat, us: seq<VoiceUnit>)
    requires n == |us| && n <= 2
    requires At(data, cur, EncodePtvTail(us, []))
    ensures var b := ParseVarint(data, cur);
            b.Ok? &&
            var w1 := ParseVarint(data, b.value.next);
            w1.Ok? && w1.value.value == 0 &&
            var w2 := ParseVarint(data, w1.value.next);
            w2.Ok? && w2.value.value == 0 &&
            ParseVarint(data, w2.value.next) == Ok(Parsed(n as u32, cur + |EncodePtvTail(us, [])|))
  {
    hide IntToVarint, ParseVarint;
    var z, c := IntToVarint(0), IntToVarint(n);
    assert Wrap32(n) == n;
    assert EncodePtvTail(us, []) == z + z + z + c;
    AtSplit(data, cur, z + z + z, c);
    AtSplit(data, cur, z + z, z);
    AtSplit(data, cur, z, z);
    ReadVarintAt(data, cur, 0);
    ReadVarintAt(data, cur + |z|, 0);
    ReadVarintAt(data, cur + |z| + |z|, 0);
    ReadVarintAt(data, cur + |z| + |z| + |z|, n);
  }

  /** The refusals of `ptv_read` that concern the header. */
  lemma ParsePtvRefusals(data: seq<u8>, cur: nat)
    ensures cur + 8 <= |data| && data[cur..cur + 8] != PTV_TAG ==> ParsePtv(data, cur) == Err(InvalidTag)
    ensures var v := ParseU32(data, cur + 8);
            (cur + 8 <= |data| && data[cur..cur + 8] == PTV_TAG && v.Ok? && v.value.value > PTV_VER)
              ==> ParsePtv(data, cur) == Err(FmtNewer)
  {
    hide ParseVarint, ParsePtvUnits;
  }

  // ---------------------------------------------------------------------
  // PTVOICE: the reader and writer methods
  // ---------------------------------------------------------------------

  method ReadPtvUnit(rd: Reader) returns (r: Result<VoiceUnit, ReadError>)
    modifies rd`cur
    ensures Outcome(r, rd.cur) == ParsePtvUnit(rd.data, old(rd.cur))
  {
    hide IntToVarint, ParseVarint, ParseWave, ParseEnvelope;
    var key := rd.NextVarint();
    if key.Err? { return Err(key.error); }
    var vol := rd.NextVarint();
    if vol.Err? { return Err(vol.error); }
    var volume := DecodeLevel(vol.value);
    if volume.Err? { return Err(volume.error); }
    var pan := rd.NextVarint();
    if pan.Err? { return Err(pan.error); }
    var panLevel := DecodeLevel(pan.value);
    if panLevel.Err? { return Err(panLevel.error); }
    var tuning := rd.NextVarint();
    if tuning.Err? { return Err(tuning.error); }
    var flags := rd.NextVarint();
    if flags.Err? { return Err(flags.error); }
    var u := Voice.DEFAULT_VOICE_UNIT.(basicKey := AsSigned32(key.value), volume := volume.value,
                                       pan := panLevel.value, tuning := tuning.value, flags := flags.value);
    var dataFlags := rd.NextVarint();
    if dataFlags.Err? { return Err(dataFlags.error); }
    if Noise.Flagged(dataFlags.value, PTV_DATAFLAG_WAVE) {
      var w := ReadWave(rd);
      if w.Err? { return Err(w.error); }
      u := u.(data := Voice.WaveVoice(w.value));
    }
    if Noise.Flagged(dataFlags.value, PTV_DATAFLAG_ENVELOPE) {
      var e := ReadEnvelope(rd);
      if e.Err? { return Err(e.error); }
      u := u.(envelope := e.value);
    }
    r := Ok(u);
  }

  /** `ptv_read` on the reader. */
  method PtvRead(rd: Reader) returns (r: Result<seq<VoiceUnit>, ReadError>)
    modifies rd`cur
    ensures Outcome(r, rd.cur) == ParsePtv(rd.data, old(rd.cur))
  {
    hide IntToVarint, ParseVarint, ParsePtvUnit;
    var tag := rd.Next(8);
    if tag.Err? { return Err(tag.error); }
    if tag.value != PTV_TAG { return Err(InvalidTag); }
    var ver := rd.NextU32();
    if ver.Err? { return Err(ver.error); }
    if ver.value > PTV_VER { return Err(FmtNewer); }
    var total := rd.NextI32();
    if total.Err? { return Err(total.error); }
    var basic := rd.NextVarint();
    if basic.Err? { return Err(basic.error); }
    var work1 := rd.NextVarint();
    if work1.Err? { return Err(work1.error); }
    var work2 := rd.NextVarint();
    if work2.Err? { return Err(work2.error); }
    if work1.value != 0 || work2.value != 0 { return Err(FmtUnknown); }
    var num := rd.NextVarint();
    if num.Err? { return Err(num.error); }
    if num.value != 1 && num.value != 2 { return Err(FmtUnknown); }
    ghost var c0 := rd.cur;
    var units: seq<VoiceUnit> := [];
    for i := 0 to num.value
      invariant |units| == i
      invariant ParsePtvUnits(rd.data, c0, num.value, []) == ParsePtvUnits(rd.data, rd.cur, num.value - i, units)
    {
      var u := ReadPtvUnit(rd);
      if u.Err? { return Err(u.error); }
      units := units + [u.value];
    }
    r := Ok(units);
  }

  /** `from_ptvoice`: a `.ptvoice` image read from its first byte. */
  method FromPtvoice(data: seq<u8>) returns (r: Result<seq<VoiceUnit>, ReadError>)
    ensures r.Ok? <==> ParsePtv(data, 0).Ok?
    ensures r.Ok? ==> r.value == ParsePtv(data, 0).value.value
    ensures r.Err? ==> r.error == ParsePtv(data, 0).error
  {
    var rd := new Reader(data);
    r := PtvRead(rd);
  }

  /** One unit of `ptv_write`; on failure what it had appended stays. */
  method WritePtvUnit(out: ByteVec, u: VoiceUnit) returns (r: Result<(), WriteError>)
    requires |u.envelope.points| <= 0x1_0000_0000
    modifies out
    ensures r.Ok? <==> EncodePtvUnit(u).Ok?
    ensures r.Ok? ==> out.bytes == old(out.bytes) + EncodePtvUnit(u).value
    ensures r.Err? ==> r.error == EncodePtvUnit(u).error
    ensures |old(out.bytes)| <= |out.bytes| && out.bytes[..|old(out.bytes)|] == old(out.bytes)
  {
    hide IntToVarint, ParseVarint, EncodeWave, EncodeEnvelope, EncodePtvUnitHead;
    WritePtvUnitHead(out, u);
    if !u.data.WaveVoice? {
      // `unreachable!()`
      return Err(WriteError.Panic);
    }
    ghost var mid := out.bytes;
    var w := WriteWave(out, u.data.wave);
    assert out.bytes[..|old(out.bytes)|] == mid[..|old(out.bytes)|];
    if w.Err? { return Err(w.error); }
    if u.envelope.points != [] {
      WriteEnvelope(out, u.envelope);
    }
    r := Ok(());
  }

  /** The six varints that open a unit. */
  method WritePtvUnitHead(out: ByteVec, u: VoiceUnit)
    modifies out
    ensures out.bytes == old(out.bytes) + EncodePtvUnitHead(SignExtend, u)
  {
    hide IntToVarint, ParseVarint;
    WriteVarint(AsUnsigned32(u.basicKey), out);
    WriteVarint(EncodeLevel(SignExtend, u.volume), out);
    WriteVarint(EncodeLevel(SignExtend, u.pan), out);
    WriteVarint(u.tuning, out);
    WriteVarint(u.flags, out);
    var dataFlags: u32 := 1;
    if u.envelope.points != [] {
      dataFlags := 3;
    }
    WriteVarint(dataFlags, out);
  }

  /** The unit loop of `ptv_write`: it stops at the first unit that cannot be written. */
  method WritePtvUnits(out: ByteVec, us: seq<VoiceUnit>) returns (r: Result<(), WriteError>)
    requires EnvelopesBounded(us)
    modifies out
    ensures r.Ok? <==> EncodePtvUnits(us).Ok?
    ensures r.Ok? ==> out.bytes == old(out.bytes) + EncodePtvUnits(us).value
    ensures r.Err? ==> r.error == EncodePtvUnits(us).error
    ensures |old(out.bytes)| <= |out.bytes| && out.bytes[..|old(out.bytes)|] == old(out.bytes)
  {
    hide EncodePtvUnit;
    for i := 0 to |us|
      invariant EnvelopesBounded(us[..i]) && EncodePtvUnits(us[..i]).Ok?
      invariant out.bytes == old(out.bytes) + EncodePtvUnits(us[..i]).value
    {
      assert us == us[..i] + us[i..];
      assert us[i..] == [us[i]] + us[i + 1..];
      assert EnvelopesBounded(us[i..]) && EnvelopesBounded(us[i + 1..]) by {
        forall j | 0 <= j < |us[i..]| ensures |us[i..][j].envelope.points| <= 0x1_0000_0000 {
          assert us[i..][j] == us[i + j];
        }
      }
      ghost var before := out.bytes;
      var w := WritePtvUnit(out, us[i]);
      assert out.bytes[..|old(out.bytes)|] == before[..|old(out.bytes)|];
      EncodePtvUnitsSingle(us[i]);
      if w.Err? {
        assert us[i..][0] == us[i];
        assert EncodePtvUnits(us[i..]) == Err(w.error);
        EncodePtvUnitsAppend(us[..i], us[i..]);
        return Err(w.error);
      }
      assert us[..i + 1] == us[..i] + [us[i]];
      EncodePtvUnitsAppend(us[..i], [us[i]]);
    }
    assert us[..|us|] == us;
    r := Ok(());
  }

  /**
   * `ptv_write`: on success it appends the `.ptvoice` image with its size
   * field back-patched; a unit that cannot be written stops it with its
   * error, leaving what it had appended and the size field still 0.
   */
  method PtvWrite(out: ByteVec, us: seq<VoiceUnit>) returns (r: Result<(), WriteError>)
    requires EnvelopesBounded(us)
    modifies out
    ensures r.Ok? <==> EncodePtv(us).Ok?
    ensures r.Ok? ==> out.bytes == old(out.bytes) + EncodePtv(us).value
    ensures r.Err? ==> r.error == EncodePtv(us).error
    ensures |old(out.bytes)| <= |out.bytes| && out.bytes[..|old(out.bytes)|] == old(out.bytes)
  {
    hide IntToVarint, ParseVarint, EncodePtvUnits, Le32, Le16, Wrap32;
    var totalOffset := WritePtvHead(out, us);
    ghost var head := out.bytes;
    var w := WritePtvUnits(out, us);
    assert out.bytes[..|old(out.bytes)|] == head[..|old(out.bytes)|];
    if w.Err? { return Err(w.error); }
    var body := EncodePtvUnits(us).value;
    var amount := Wrap32(|out.bytes| - (totalOffset + 4));
    assert amount == Wrap32(|EncodePtvTail(us, body)|);
    PatchMiddle(old(out.bytes) + PTV_TAG + Le32(PTV_VER), Le32(0), Le32(amount), EncodePtvTail(us, body));
    out.Patch(totalOffset, Le32(amount));
    r := Ok(());
  }

  /** The part of `ptv_write` before the units, with a zero in the size field; returns where that field is. */
  method WritePtvHead(out: ByteVec, us: seq<VoiceUnit>) returns (totalOffset: nat)
    modifies out
    ensures totalOffset == |old(out.bytes)| + 12
    ensures out.bytes == old(out.bytes) + PTV_TAG + Le32(PTV_VER) + Le32(0) + EncodePtvTail(us, [])
  {
    hide IntToVarint, ParseVarint;
    out.Extend(PTV_TAG);
    out.Extend(Le32(PTV_VER));
    totalOffset := |out.bytes|;
    out.Extend(Le32(0));
    WriteVarint(0, out);
    WriteVarint(0, out);
    WriteVarint(0, out);
    WriteVarint(Wrap32(|us|), out);
  }

  /** Overwriting the four bytes after `x` replaces exactly them. */
  lemma PatchMiddle(x: seq<u8>, old4: seq<u8>, new4: seq<u8>, t: seq<u8>)
    requires |old4| == |new4|
    ensures var b := x + old4 + t;
            b[..|x|] + new4 + b[|x| + |new4|..] == x + new4 + t
  {
    var b := x + old4 + t;
    assert b[..|x|] == x;
    assert b[|x| + |new4|..] == t;
  }

  /** `to_ptvoice`: a fresh image, or the error that stopped it. */
  method ToPtvoice(us: seq<VoiceUnit>) returns (r: Result<seq<u8>, WriteError>)
    requires EnvelopesBounded(us)
    ensures r == EncodePtv(us)
  {
    var out := new ByteVec();
    var w := PtvWrite(out, us);
    if w.Err? { return Err(w.error); }
    r := Ok(out.bytes);
  }

  // ---------------------------------------------------------------------
  // matePCM
  // ---------------------------------------------------------------------

  /** The fields of `IoPcm` a read uses (`x3x_unit_no` and the padding are not kept). */
  datatype PcmHeader = PcmHeader(basicKey: u16, flags: u32, ch: u8, bps: u16, sps: u16, tuning: u32, dataSize: u32)

  /** The `repr(C)` layout of `IoPcm`, with `x3x_unit_no` 0 and the padding bytes (9, 14 and 15) zero. */
  function EncodePcmHeader(h: PcmHeader): (b: seq<u8>)
    ensures |b| == PCM_HEADER_SIZE
  {
    Le16(0) + Le16(h.basicKey) + Le32(h.flags) + [h.ch, 0] + Le16(h.bps) + Le16(h.sps) + [0, 0]
      + Le32(h.tuning) + Le32(h.dataSize)
  }

  function DecodePcmHeader(b: seq<u8>): PcmHeader
    requires |b| == PCM_HEADER_SIZE
  {
    PcmHeader(FromLe16(b[2..4]), FromLe32(b[4..8]), b[8], FromLe16(b[10..12]), FromLe16(b[12..14]),
              FromLe32(b[16..20]), FromLe32(b[20..24]))
  }

  lemma PcmHeaderRoundTrip(h: PcmHeader)
    ensures DecodePcmHeader(EncodePcmHeader(h)) == h
  {
    var b := EncodePcmHeader(h);
    assert b[2..4] == Le16(h.basicKey) && b[4..8] == Le32(h.flags) && b[8] == h.ch;
    assert b[10..12] == Le16(h.bps) && b[12..14] == Le16(h.sps);
    assert b[16..20] == Le32(h.tuning) && b[20..24] == Le32(h.dataSize);
    Le16Inverse(h.basicKey);
    Le16Inverse(h.bps);
    Le16Inverse(h.sps);
    Le32Inverse(h.flags);
    Le32Inverse(h.tuning);
    Le32Inverse(h.dataSize);
  }

  /**
   * `read_mate_pcm`: the chunk size (ignored), the header, a sample width
   * of 8 or 16 bits and one or two channels (anything else is
   * `FmtUnknown`), then as many whole frames as `data_size` holds; bytes of
   * a partial frame are not consumed.
   */
  function ParseMatePcm(data: seq<u8>, cur: nat): (r: Parse<seq<VoiceUnit>>)
    ensures r.Ok? ==> |r.value.value| == 1 && r.value.value[0].data.PcmVoice?
    ensures cur <= |data| && r.Ok? ==> cur <= r.value.next <= |data|
  {
    var size :- ParseU32(data, cur);
    var hb :- Take(data, size.next, PCM_HEADER_SIZE);
    var h := DecodePcmHeader(hb.value);
    if h.bps != 8 && h.bps != 16 then Err(FmtUnknown)
    else if h.ch != 1 && h.ch != 2 then Err(FmtUnknown)
    else ParsePcmSamples(data, hb.next, h)
  }

  /** The samples of a `matePCM` chunk whose header has a known width and channel count, and the unit they make. */
  function ParsePcmSamples(data: seq<u8>, cur: nat, h: PcmHeader): (r: Parse<seq<VoiceUnit>>)
    requires (h.bps == 8 || h.bps == 16) && (h.ch == 1 || h.ch == 2)
    ensures r.Ok? ==> |r.value.value| == 1 && r.value.value[0].data.PcmVoice?
    ensures cur <= |data| && r.Ok? ==> cur <= r.value.next <= |data|
  {
    var bps := if h.bps == 8 then B8 else B16;
    var ch := if h.ch == 1 then Mono else Stereo;
    var num: u32 := h.dataSize / (h.bps / 8 * h.ch);
    var smp :- Take(data, cur, Pcm.SampleSize(num, ch, bps));
    var pcm := Pcm.PcmState(ch, h.sps, bps, num, smp.value);
    Ok(Parsed([ReadUnit(h.basicKey, h.flags, h.tuning, Voice.PcmVoice(pcm))], smp.next))
  }

  /** What `write_mate_pcm` writes after the tag: the chunk size, the header, the samples. */
  function MatePcmChunk(u: VoiceUnit, p: Pcm.PcmState): seq<u8>
    requires 0 <= u.basicKey <= 0xFFFF && p.sps <= 0xFFFF && |p.smp| < 0x1_0000_0000
  {
    var h := PcmHeader(u.basicKey, u.flags, ChCount(p.ch), Bits(p.bps), p.sps, u.tuning, |p.smp|);
    Le32(Wrap32(PCM_HEADER_SIZE + |p.smp|)) + EncodePcmHeader(h) + p.smp
  }

  /** Whole frames: the sample bytes divided by the frame size give back the sample count. */
  lemma FrameCount(p: Pcm.PcmState)
    requires |p.smp| == Pcm.SampleSize(p.numSamples, p.ch, p.bps)
    ensures |p.smp| / (Bits(p.bps) / 8 * ChCount(p.ch)) == p.numSamples
    ensures Pcm.SampleSize(p.numSamples, p.ch, p.bps) == p.numSamples * (Bits(p.bps) / 8 * ChCount(p.ch))
  {
    var frame := Bits(p.bps) / 8 * ChCount(p.ch);
    assert p.numSamples * Bits(p.bps) * ChCount(p.ch) == 8 * (p.numSamples * frame);
    DivModUnique(|p.smp|, frame, p.numSamples, 0);
  }

  /**
   * A PCM voice whose sample bytes are whole frames reads back as itself,
   * under the key, flags and tuning of the unit written.
   */
  lemma MatePcmRoundTrip(data: seq<u8>, cur: nat, u: VoiceUnit, p: Pcm.PcmState)
    requires 0 <= u.basicKey <= 0xFFFF && p.sps <= 0xFFFF && |p.smp| < 0x1_0000_0000
    requires |p.smp| == Pcm.SampleSize(p.numSamples, p.ch, p.bps)
    requires At(data, cur, MatePcmChunk(u, p))
    ensures ParseMatePcm(data, cur)
            == Ok(Parsed([ReadUnit(u.basicKey, u.flags, u.tuning, Voice.PcmVoice(p))], cur + |MatePcmChunk(u, p)|))
  {
    var h := PcmHeader(u.basicKey, u.flags, ChCount(p.ch), Bits(p.bps), p.sps, u.tuning, |p.smp|);
    var s, hb := Le32(Wrap32(PCM_HEADER_SIZE + |p.smp|)), EncodePcmHeader(h);
    AtSplit(data, cur, s + hb, p.smp);
    AtSplit(data, cur, s, hb);
    ReadU32At(data, cur, Wrap32(PCM_HEADER_SIZE + |p.smp|));
    TakeAt(data, cur + 4, hb);
    PcmHeaderRoundTrip(h);
    FrameCount(p);
    TakeAt(data, cur + 4 + PCM_HEADER_SIZE, p.smp);
  }

  /** The refusals of `read_mate_pcm`: a sample width other than 8 or 16, a channel count other than 1 or 2. */
  lemma ParseMatePcmRefusals(data: seq<u8>, cur: nat)
    ensures cur + 4 + PCM_HEADER_SIZE <= |data| ==>
            var h := DecodePcmHeader(data[cur + 4..cur + 4 + PCM_HEADER_SIZE]);
            (h.bps != 8 && h.bps != 16) || (h.ch != 1 && h.ch != 2) ==> ParseMatePcm(data, cur) == Err(FmtUnknown)
  {
  }

  method ReadMatePcm(rd: Reader) returns (r: Result<seq<VoiceUnit>, ReadError>)
    modifies rd`cur
    ensures Outcome(r, rd.cur) == ParseMatePcm(rd.data, old(rd.cur))
  {
    hide DecodePcmHeader, Pcm.SampleSize, ParseU32, ReadUnit;
    var size := rd.NextU32();
    if size.Err? { return Err(size.error); }
    var hb := rd.Next(PCM_HEADER_SIZE);
    if hb.Err? { return Err(hb.error); }
    var h := DecodePcmHeader(hb.value);
    if h.bps != 8 && h.bps != 16 {
      return Err(FmtUnknown);
    }
    if h.ch != 1 && h.ch != 2 {
      return Err(FmtUnknown);
    }
    r := ReadPcmSamples(rd, h);
  }

  /** The rest of `read_mate_pcm` once the header is accepted: reads the samples into a buffer of their size. */
  method ReadPcmSamples(rd: Reader, h: PcmHeader) returns (r: Result<seq<VoiceUnit>, ReadError>)
    requires (h.bps == 8 || h.bps == 16) && (h.ch == 1 || h.ch == 2)
    modifies rd`cur
    ensures Outcome(r, rd.cur) == ParsePcmSamples(rd.data, old(rd.cur), h)
  {
    hide Pcm.SampleSize, ReadUnit;
    var bps := if h.bps == 8 then B8 else B16;
    var ch := if h.ch == 1 then Mono else Stereo;
    var num: u32 := h.dataSize / (h.bps / 8 * h.ch);
    var buf := new u8[Pcm.SampleSize(num, ch, bps)];
    var f := rd.FillSlice(buf);
    if f.Err? { return Err(Data); }
    var pcm := Pcm.PcmState(ch, h.sps, bps, num, buf[..]);
    r := Ok([ReadUnit(h.basicKey, h.flags, h.tuning, Voice.PcmVoice(pcm))]);
  }

  /**
   * `write_mate_pcm`. The key, the sample rate and the byte count are
   * narrowed with `unwrap`, which panics when they do not fit: hence the
   * precondition.
   */
  method WriteMatePcm(out: ByteVec, u: VoiceUnit, p: Pcm.PcmState)
    requires 0 <= u.basicKey <= 0xFFFF && p.sps <= 0xFFFF && |p.smp| < 0x1_0000_0000
    modifies out
    ensures out.bytes == old(out.bytes) + HerdIo.ToCode(HerdIo.MatePCM) + MatePcmChunk(u, p)
  {
    hide HerdIo.ToCode, EncodePcmHeader, Le32;
    out.Extend(HerdIo.ToCode(HerdIo.MatePCM));
    // the `as u32` of the byte count is exact under the precondition
    var ioSize := Wrap32(PCM_HEADER_SIZE + |p.smp|);
    out.Extend(Le32(ioSize));
    var h := PcmHeader(u.basicKey, u.flags, ChCount(p.ch), Bits(p.bps), p.sps, u.tuning, |p.smp|);
    out.Extend(EncodePcmHeader(h));
    out.Extend(p.smp);
  }

  // ---------------------------------------------------------------------
  // matePTN
  // ---------------------------------------------------------------------

  /** The fields of `IoPtn` a read uses. */
  datatype PtnHeader = PtnHeader(basicKey: u16, flags: u32, tuning: u32, rrr: i32)

  function EncodePtnHeader(h: PtnHeader): (b: seq<u8>)
    ensures |b| == PTN_HEADER_SIZE
  {
    Le16(0) + Le16(h.basicKey) + Le32(h.flags) + Le32(h.tuning) + Le32(AsUnsigned32(h.rrr))
  }

  function DecodePtnHeader(b: seq<u8>): PtnHeader
    requires |b| == PTN_HEADER_SIZE
  {
    PtnHeader(FromLe16(b[2..4]), FromLe32(b[4..8]), FromLe32(b[8..12]), AsSigned32(FromLe32(b[12..16])))
  }

  lemma PtnHeaderRoundTrip(h: PtnHeader)
    ensures DecodePtnHeader(EncodePtnHeader(h)) == h
  {
    var b := EncodePtnHeader(h);
    assert b[2..4] == Le16(h.basicKey) && b[4..8] == Le32(h.flags);
    assert b[8..12] == Le32(h.tuning) && b[12..16] == Le32(AsUnsigned32(h.rrr));
    Le16Inverse(h.basicKey);
    Le32Inverse(h.flags);
    Le32Inverse(h.tuning);
    Le32Inverse(AsUnsigned32(h.rrr));
  }

  /** `read_mate_ptn`: the chunk size (ignored), the header with `rrr` 0 or 1 (else `FmtUnknown`), the noise data. */
  function ParseMatePtn(data: seq<u8>, cur: nat): (r: Parse<seq<VoiceUnit>>)
    ensures r.Ok? ==> |r.value.value| == 1 && r.value.value[0].data.NoiseVoice?
    ensures cur <= |data| && r.Ok? ==> cur <= r.value.next <= |data|
  {
    var size :- ParseU32(data, cur);
    var hb :- Take(data, size.next, PTN_HEADER_SIZE);
    var h := DecodePtnHeader(hb.value);
    if h.rrr > 1 || h.rrr < 0 then Err(FmtUnknown)
    else
      var d :- Noise.ParseNoise(data, hb.next);
      Ok(Parsed([ReadUnit(h.basicKey, h.flags, h.tuning, Voice.NoiseVoice(d.value))], d.next))
  }

  /** What `write_mate_ptn` writes after the tag: the back-patched size, the header with `rrr` 1, the noise data. */
  function MatePtnChunk(u: VoiceUnit, d: Noise.NoiseDesign): seq<u8>
    requires 0 <= u.basicKey <= 0xFFFF && PTN_HEADER_SIZE + |Noise.EncodeNoise(d)| < 0x1_0000_0000
  {
    Le32(PTN_HEADER_SIZE + |Noise.EncodeNoise(d)|) + EncodePtnHeader(PtnHeader(u.basicKey, u.flags, u.tuning, 1))
      + Noise.EncodeNoise(d)
  }

  /** Noise data whose units are canonical reads back as itself. */
  lemma MatePtnRoundTrip(data: seq<u8>, cur: nat, u: VoiceUnit, d: Noise.NoiseDesign)
    requires 0 <= u.basicKey <= 0xFFFF && PTN_HEADER_SIZE + |Noise.EncodeNoise(d)| < 0x1_0000_0000
    requires forall i | 0 <= i < |d.units| :: Noise.Canonical(d.units[i])
    requires At(data, cur, MatePtnChunk(u, d))
    ensures ParseMatePtn(data, cur)
            == Ok(Parsed([ReadUnit(u.basicKey, u.flags, u.tuning, Voice.NoiseVoice(d))], cur + |MatePtnChunk(u, d)|))
  {
    hide Noise.ParseNoise, Noise.EncodeNoise;
    var h := PtnHeader(u.basicKey, u.flags, u.tuning, 1);
    var s, hb, e := Le32(PTN_HEADER_SIZE + |Noise.EncodeNoise(d)|), EncodePtnHeader(h), Noise.EncodeNoise(d);
    AtSplit(data, cur, s + hb, e);
    AtSplit(data, cur, s, hb);
    ReadU32At(data, cur, PTN_HEADER_SIZE + |e|);
    TakeAt(data, cur + 4, hb);
    PtnHeaderRoundTrip(h);
    var c := cur + 4 + PTN_HEADER_SIZE;
    assert data == data[..c] + e + data[c + |e|..];
    Noise.NoiseRoundTrip(data[..c], d, data[c + |e|..]);
  }

  /** The refusal of `read_mate_ptn`: an `rrr` field other than 0 or 1. */
  lemma ParseMatePtnRefusals(data: seq<u8>, cur: nat)
    ensures cur + 4 + PTN_HEADER_SIZE <= |data| ==>
            var h := DecodePtnHeader(data[cur + 4..cur + 4 + PTN_HEADER_SIZE]);
            (h.rrr > 1 || h.rrr < 0) ==> ParseMatePtn(data, cur) == Err(FmtUnknown)
  {
  }

  method ReadMatePtn(rd: Reader) returns (r: Result<seq<VoiceUnit>, ReadError>)
    modifies rd`cur
    ensures Outcome(r, rd.cur) == ParseMatePtn(rd.data, old(rd.cur))
  {
    hide Noise.ParseNoise;
    var size := rd.NextU32();
    if size.Err? { return Err(size.error); }
    var hb := rd.Next(PTN_HEADER_SIZE);
    if hb.Err? { return Err(hb.error); }
    var h := DecodePtnHeader(hb.value);
    if h.rrr > 1 || h.rrr < 0 { return Err(FmtUnknown); }
    var noise := new Noise.NoiseData();
    var n := noise.Read(rd);
    if n.Err? { return Err(n.error); }
    r := Ok([ReadUnit(h.basicKey, h.flags, h.tuning, Voice.NoiseVoice(noise.State()))]);
  }

  /**
   * `write_mate_ptn`: a 4-byte placeholder for the size, back-patched with
   * the number of bytes written after it. The key and the size are
   * narrowed with `unwrap`: hence the precondition.
   */
  method WriteMatePtn(out: ByteVec, u: VoiceUnit, noise: Noise.NoiseData)
    requires 0 <= u.basicKey <= 0xFFFF && PTN_HEADER_SIZE + |Noise.EncodeNoise(noise.State())| < 0x1_0000_0000
    modifies out
    ensures out.bytes == old(out.bytes) + HerdIo.ToCode(HerdIo.MatePTN) + MatePtnChunk(u, noise.State())
  {
    hide Noise.EncodeNoise;
    out.Extend(HerdIo.ToCode(HerdIo.MatePTN));
    var sizePos := |out.bytes|;
    out.Extend([0, 0, 0, 0]);
    out.Extend(EncodePtnHeader(PtnHeader(u.basicKey, u.flags, u.tuning, 1)));
    noise.Write(out);
    var written := |out.bytes| - (sizePos + 4);
    assert written == PTN_HEADER_SIZE + |Noise.EncodeNoise(noise.State())|;
    ghost var unpatched := out.bytes;
    out.Patch(sizePos, Le32(written));
    assert out.bytes == old(out.bytes) + HerdIo.ToCode(HerdIo.MatePTN) + Le32(written)
                        + EncodePtnHeader(PtnHeader(u.basicKey, u.flags, u.tuning, 1)) + Noise.EncodeNoise(noise.State());
  }

  // ---------------------------------------------------------------------
  // matePTV
  // ---------------------------------------------------------------------

  /** `read_mate_ptv`: the chunk size and the `IoPtv` header (both ignored), then a `.ptvoice` image. */
  function ParseMatePtv(data: seq<u8>, cur: nat): (r: Parse<seq<VoiceUnit>>)
    ensures cur <= |data| && r.Ok? ==> cur <= r.value.next <= |data|
  {
    var size :- ParseU32(data, cur);
    var hb :- Take(data, size.next, PTV_HEADER_SIZE);
    ParsePtv(data, hb.next)
  }

  /**
   * What `write_mate_ptv` writes after the tag: the chunk size (the bytes
   * after it, cast to `u32`), the `IoPtv` header whose `size` is that
   * minus 12 with `u32` wrap-around, and the `.ptvoice` image.
   */
  function MatePtvChunk(us: seq<VoiceUnit>): (r: Result<seq<u8>, WriteError>)
    requires EnvelopesBounded(us)
    ensures r.Ok? <==> EncodePtv(us).Ok?
    ensures r.Err? ==> r.error == EncodePtv(us).error
  {
    var ptv :- EncodePtv(us);
    var written := Wrap32(PTV_HEADER_SIZE + |ptv|);
    Ok(Le32(written) + PtvHeader(Wrap32(written - PTV_HEADER_SIZE)) + ptv)
  }

  /** A matePTV chunk reads back as the `.ptvoice` image it wraps. */
  lemma MatePtvRoundTrip(data: seq<u8>, cur: nat, us: seq<VoiceUnit>)
    requires 1 <= |us| <= 2 && forall i | 0 <= i < |us| :: PtvRoundTrips(us[i])
    requires EnvelopesBounded(us) && MatePtvChunk(us).Ok? && At(data, cur, MatePtvChunk(us).value)
    ensures ParseMatePtv(data, cur) == Ok(Parsed(us, cur + |MatePtvChunk(us).value|))
  {
    hide *;
    MatePtvChunkShape(us);
    var ptv := EncodePtv(us).value;
    var written := Wrap32(PTV_HEADER_SIZE + |ptv|);
    var hb := PtvHeader(Wrap32(written - PTV_HEADER_SIZE));
    MatePtvFraming(data, cur, written, hb, ptv);
    PtvRoundTrip(data, cur + 4 + PTV_HEADER_SIZE, us);
  }

  /** The chunk size and the `IoPtv` header are skipped whatever they hold. */
  lemma MatePtvFraming(data: seq<u8>, cur: nat, size: u32, hb: seq<u8>, rest: seq<u8>)
    requires |hb| == PTV_HEADER_SIZE && At(data, cur, Le32(size) + hb + rest)
    ensures At(data, cur + 4 + PTV_HEADER_SIZE, rest)
    ensures ParseMatePtv(data, cur) == ParsePtv(data, cur + 4 + PTV_HEADER_SIZE)
  {
    hide ParsePtv;
    AtSplit(data, cur, Le32(size) + hb, rest);
    AtSplit(data, cur, Le32(size), hb);
    ReadU32At(data, cur, size);
    TakeAt(data, cur + 4, hb);
  }

  /** The `IoPtv` header `write_mate_ptv` leaves: zeros, and the image size in `size`. */
  function PtvHeader(size: u32): (b: seq<u8>)
    ensures |b| == PTV_HEADER_SIZE
  {
    Le16(0) + Le16(0) + Le32(0) + Le32(size)
  }

  lemma MatePtvChunkOf(us: seq<VoiceUnit>)
    requires EnvelopesBounded(us) && EncodePtv(us).Ok?
    ensures var w := Wrap32(PTV_HEADER_SIZE + |EncodePtv(us).value|);
            MatePtvChunk(us) == Ok(Le32(w) + PtvHeader(Wrap32(w - PTV_HEADER_SIZE)) + EncodePtv(us).value)
    ensures |EncodePtv(us).value| + PTV_HEADER_SIZE < 0x1_0000_0000 ==>
              MatePtvChunk(us) == Ok(Le32(PTV_HEADER_SIZE + |EncodePtv(us).value|) + PtvHeader(|EncodePtv(us).value|) + EncodePtv(us).value)
  {
    hide EncodePtv, Le32, PtvHeader;
    var n := |EncodePtv(us).value|;
    if n + PTV_HEADER_SIZE < 0x1_0000_0000 {
      assert Wrap32(PTV_HEADER_SIZE + n) == PTV_HEADER_SIZE + n;
      assert Wrap32(PTV_HEADER_SIZE + n - PTV_HEADER_SIZE) == n;
    }
  }

  lemma MatePtvChunkShape(us: seq<VoiceUnit>)
    requires EnvelopesBounded(us) && MatePtvChunk(us).Ok?
    ensures EncodePtv(us).Ok?
    ensures var w := Wrap32(PTV_HEADER_SIZE + |EncodePtv(us).value|);
            MatePtvChunk(us).value == Le32(w) + PtvHeader(Wrap32(w - PTV_HEADER_SIZE)) + EncodePtv(us).value
  {
    hide EncodePtv;
  }

  method ReadMatePtv(rd: Reader) returns (r: Result<seq<VoiceUnit>, ReadError>)
    modifies rd`cur
    ensures Outcome(r, rd.cur) == ParseMatePtv(rd.data, old(rd.cur))
  {
    hide ParsePtv;
    var size := rd.NextU32();
    if size.Err? { return Err(size.error); }
    var hb := rd.Next(PTV_HEADER_SIZE);
    if hb.Err? { return Err(hb.error); }
    r := PtvRead(rd);
  }

  /**
   * `write_mate_ptv`: tag, a zero size, a zero `IoPtv` header, the
   * `.ptvoice` image, then the two sizes back-patched.
   */
  method WriteMatePtv(out: ByteVec, us: seq<VoiceUnit>) returns (r: Result<(), WriteError>)
    requires EnvelopesBounded(us)
    modifies out
    ensures EncodePtv(us).Err? ==> r.Err? && r.error == EncodePtv(us).error
    ensures r.Ok? <==> MatePtvChunk(us).Ok?
    ensures r.Ok? ==> out.bytes == old(out.bytes) + HerdIo.ToCode(HerdIo.MatePTV) + MatePtvChunk(us).value
  {
    hide EncodePtv, MatePtvChunk, EnvelopesBounded, HerdIo.ToCode, Le32, PtvHeader, Wrap32;
    out.Extend(HerdIo.ToCode(HerdIo.MatePTV));
    var before := |out.bytes|;
    ghost var b0 := out.bytes;
    out.Extend(Le32(0));
    out.Extend(PtvHeader(0));
    ghost var b1 := out.bytes;
    var w := PtvWrite(out, us);
    if w.Err? {
      return Err(w.error);
    }
    var ptv := EncodePtv(us).value;
    assert out.bytes == b0 + (Le32(0) + PtvHeader(0) + ptv);
    assert out.bytes[..before] == b0 && out.bytes[before..] == Le32(0) + PtvHeader(0) + ptv;
    MatePtvChunkOf(us);
    PatchMatePtvSizes(out, before, ptv);
    var v := Wrap32(PTV_HEADER_SIZE + |ptv|);
    var chunk := Le32(v) + PtvHeader(Wrap32(v - PTV_HEADER_SIZE)) + ptv;
    assert MatePtvChunk(us).value == chunk;
    assert out.bytes == b0 + chunk;
    r := Ok(());
  }

  /**
   * The back-patches of `write_mate_ptv`, given the chunk size field at
   * `before` followed by a zero header and the image: the chunk size, then
   * the header size, which is the chunk size minus 12 with `u32` wrap-around.
   */
  method PatchMatePtvSizes(out: ByteVec, before: nat, ptv: seq<u8>)
    requires before <= |out.bytes| && out.bytes[before..] == Le32(0) + PtvHeader(0) + ptv
    modifies out
    ensures var w := Wrap32(PTV_HEADER_SIZE + |ptv|);
            out.bytes == old(out.bytes)[..before] + Le32(w) + PtvHeader(Wrap32(w - PTV_HEADER_SIZE)) + ptv
  {
    hide Le32, Le16, Wrap32;
    var x := out.bytes[..before];
    assert out.bytes == x + Le32(0) + (PtvHeader(0) + ptv);
    var written := Wrap32(|out.bytes| - (before + 4));
    PatchMiddle(x, Le32(0), Le32(written), PtvHeader(0) + ptv);
    out.Patch(before, Le32(written));
    var inner := Wrap32(written - PTV_HEADER_SIZE);
    var y := x + Le32(written) + Le16(0) + Le16(0) + Le32(0);
    assert out.bytes == y + Le32(0) + ptv;
    PatchMiddle(y, Le32(0), Le32(inner), ptv);
    out.Patch(before + 12, Le32(inner));
  }

  // ---------------------------------------------------------------------
  // mateOGGV
  // ---------------------------------------------------------------------

  /**
   * `read_ogg` without Ogg/Vorbis support: the chunk size, the `IoOggv`
   * header, channel count, sample rate, sample count and data size; a data
   * size of 0 is `InvalidData`, any other is `OggvSupportDisabled`. A read
   * never yields a voice.
   */
  function ParseOgg(data: seq<u8>, cur: nat): (r: Parse<seq<VoiceUnit>>)
    ensures r.Err? && r.error in {Data, InvalidData, OggvSupportDisabled}
    ensures cur + 4 + OGGV_HEADER_SIZE + 16 <= |data| ==>
              r.error == (if FromLe32(data[cur + 28..cur + 32]) == 0 then InvalidData else OggvSupportDisabled)
    ensures cur + 4 + OGGV_HEADER_SIZE + 16 > |data| ==> r.error == Data
    ensures cur <= |data| && r.Ok? ==> cur <= r.value.next <= |data|
  {
    var size :- ParseU32(data, cur);
    var hb :- Take(data, size.next, OGGV_HEADER_SIZE);
    var ch :- ParseI32(data, hb.next);
    var sps2 :- ParseI32(data, ch.next);
    var smpNum :- ParseI32(data, sps2.next);
    var dataSize :- ParseU32(data, smpNum.next);
    if dataSize.value == 0 then Err(InvalidData) else Err(OggvSupportDisabled)
  }

  method ReadOgg(rd: Reader) returns (r: Result<seq<VoiceUnit>, ReadError>)
    modifies rd`cur
    ensures Outcome(r, rd.cur) == ParseOgg(rd.data, old(rd.cur))
  {
    var size := rd.NextU32();
    if size.Err? { return Err(size.error); }
    var hb := rd.Next(OGGV_HEADER_SIZE);
    if hb.Err? { return Err(hb.error); }
    var ch := rd.NextI32();
    if ch.Err? { return Err(ch.error); }
    var sps2 := rd.NextI32();
    if sps2.Err? { return Err(sps2.error); }
    var smpNum := rd.NextI32();
    if smpNum.Err? { return Err(smpNum.error); }
    var dataSize := rd.NextU32();
    if dataSize.Err? { return Err(dataSize.error); }
    if dataSize.value == 0 { return Err(InvalidData); }
    r := Err(OggvSupportDisabled);
  }
}

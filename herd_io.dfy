/**
 * The project file's framing pieces: the eight-byte chunk tags, the version
 * header, the unit count, unit and voice names, and the delay, overdrive and
 * text chunks.
 *
 * Each chunk body has a parsing function of the data and the cursor, which
 * gives the value read and the position after it (`Parse`), and an encoding
 * function giving the bytes the writer appends. Round-trip lemmas connect
 * the two. Reader methods are proved against the parsing functions, and
 * writer methods against the encodings.
 */
module HerdIo {
  import opened Base
  import opened Errors
  import opened Io
  import opened F32
  import opened Delay

  // ---------------------------------------------------------------------
  // Chunk tags
  // ---------------------------------------------------------------------

  /** `Tag`: every chunk kind the reader recognises. */
  datatype Tag =
    | AntiOPER | V1Proj | V1Unit | V1Pcm | V1Event | V1End | V3Unit | V4EvenMast | V4EvenUnit
    | NumUNIT | MasterV5 | EventV5 | MatePCM | MatePTV | MatePTN | MateOGGV | EffeDELA | EffeOVER
    | TextNAME | TextCOMM | AssiUNIT | AssiWOIC | PxtoneND

  const CODE_SIZE: nat := 8

  /** The eight characters of each tag's code. */
  function CodeName(t: Tag): (s: string)
    ensures |s| == CODE_SIZE && Ascii(s)
  {
    match t
    case AntiOPER => "antiOPER"
    case AssiUNIT => "assiUNIT"
    case AssiWOIC => "assiWOIC"
    case EffeDELA => "effeDELA"
    case EffeOVER => "effeOVER"
    case EventV5 => "Event V5"
    case MasterV5 => "MasterV5"
    case MateOGGV => "mateOGGV"
    case MatePCM => "matePCM "
    case MatePTN => "matePTN "
    case MatePTV => "matePTV "
    case NumUNIT => "num UNIT"
    case PxtoneND => "pxtoneND"
    case TextCOMM => "textCOMM"
    case TextNAME => "textNAME"
    case V1End => "END====="
    case V1Event => "EVENT==="
    case V1Pcm => "matePCM="
    case V1Proj => "PROJECT="
    case V1Unit => "UNIT===="
    case V3Unit => "pxtnUNIT"
    case V4EvenMast => "evenMAST"
    case V4EvenUnit => "evenUNIT"
  }

  /** `Tag::to_code`. */
  function ToCode(t: Tag): (c: seq<u8>)
    ensures |c| == CODE_SIZE
  {
    Bytes(CodeName(t))
  }

  /** Bytes 2, 6 and 7 of a code, which already tell all 23 codes apart. */
  function CodeKey(c: seq<u8>): int
    requires |c| == CODE_SIZE
  {
    c[2] as int * 0x1_0000 + c[6] as int * 0x100 + c[7] as int
  }

  lemma CodeKeys(t: Tag)
    ensures CodeKey(ToCode(t)) == match t
      case AntiOPER => 0x74_4552
      case AssiUNIT => 0x73_4954
      case AssiWOIC => 0x73_4943
      case EffeDELA => 0x66_4C41
      case EffeOVER => 0x66_4552
      case EventV5 => 0x65_5635
      case MasterV5 => 0x73_5635
      case MateOGGV => 0x74_4756
      case MatePCM => 0x74_4D20
      case MatePTN => 0x74_4E20
      case MatePTV => 0x74_5620
      case NumUNIT => 0x6D_4954
      case PxtoneND => 0x74_4E44
      case TextCOMM => 0x78_4D4D
      case TextNAME => 0x78_4D45
      case V1End => 0x44_3D3D
      case V1Event => 0x45_3D3D
      case V1Pcm => 0x74_4D3D
      case V1Proj => 0x4F_543D
      case V1Unit => 0x49_3D3D
      case V3Unit => 0x74_4954
      case V4EvenMast => 0x65_5354
      case V4EvenUnit => 0x65_4954
  {
  }

  /** `to_code` is injective: no two tags share a code. */
  lemma ToCodeInjective(a: Tag, b: Tag)
    ensures ToCode(a) == ToCode(b) ==> a == b
  {
    CodeKeys(a);
    CodeKeys(b);
  }

  /** The order in which `from_code` tries the codes. */
  const FROM_CODE_ORDER: seq<Tag> :=
    [AntiOPER, AssiUNIT, AssiWOIC, EffeDELA, EffeOVER, EventV5, MasterV5, MateOGGV, MatePCM, MatePTN,
     MatePTV, NumUNIT, PxtoneND, TextCOMM, TextNAME, V1End, V1Event, V1Pcm, V1Proj, V1Unit, V3Unit,
     V4EvenMast, V4EvenUnit]

  /** The first tag of `tags` whose code is `code`. */
  function FindTag(code: seq<u8>, tags: seq<Tag>): (r: Option<Tag>)
    ensures r.Some? ==> r.value in tags && code == ToCode(r.value)
    ensures r.None? ==> forall t | t in tags :: code != ToCode(t)
  {
    if tags == [] then None
    else if code == ToCode(tags[0]) then Some(tags[0])
    else FindTag(code, tags[1..])
  }

  /** `Tag::from_code`: the tag whose code is the eight bytes read, if any. */
  function FromCode(code: seq<u8>): Option<Tag>
  {
    FindTag(code, FROM_CODE_ORDER)
  }

  /** `from_code(to_code(t)) == Some(t)` for every tag. */
  lemma TagRoundTrip(t: Tag)
    ensures FromCode(ToCode(t)) == Some(t)
  {
    assert t in FROM_CODE_ORDER;
    ToCodeInjective(FromCode(ToCode(t)).value, t);
  }

  /** `from_code` recognises exactly the 23 codes, each as its own tag. */
  lemma FromCodeExact(code: seq<u8>)
    ensures FromCode(code).Some? ==> ToCode(FromCode(code).value) == code
    ensures FromCode(code).None? <==> forall t: Tag :: ToCode(t) != code
  {
    if FromCode(code).None? {
      forall t: Tag ensures ToCode(t) != code {
        TagRoundTrip(t);
      }
    }
  }

  // ---------------------------------------------------------------------
  // Version header
  // ---------------------------------------------------------------------

  /** `FmtVer`. */
  datatype FmtVer = V1 | V2 | V3 | V4 | V5
  /** `FmtKind`: a project (collage) or a tune. */
  datatype FmtKind = Collage | Tune
  /** `FmtInfo`: the version, the kind and two 16-bit fields kept as read. */
  datatype FmtInfo = FmtInfo(ver: FmtVer, kind: FmtKind, exeVer: u16, dummy: u16)

  /** `FmtInfo::default()`: a version 5 collage. */
  function DefaultFmtInfo(): (f: FmtInfo)
    ensures f.ver == V5 && f.kind == Collage && f.exeVer == 0 && f.dummy == 0
  {
    FmtInfo(V5, Collage, 0, 0)
  }

  const VERSION_SIZE: nat := 16

  /** The 16-character version string of a format, absent for a version 1 tune. */
  function VersionName(ver: FmtVer, kind: FmtKind): (s: Option<string>)
    ensures s.Some? ==> |s.value| == VERSION_SIZE && Ascii(s.value)
  {
    match (ver, kind)
    case (V1, Collage) => Some("PTCOLLAGE-050227")
    case (V1, Tune) => None
    case (V2, Collage) => Some("PTCOLLAGE-050608")
    case (V2, Tune) => Some("PTTUNE--20050608")
    case (V3, Collage) => Some("PTCOLLAGE-060115")
    case (V3, Tune) => Some("PTTUNE--20060115")
    case (V4, Collage) => Some("PTCOLLAGE-060930")
    case (V4, Tune) => Some("PTTUNE--20060930")
    case (V5, Collage) => Some("PTCOLLAGE-071119")
    case (V5, Tune) => Some("PTTUNE--20071119")
  }

  function VersionCode(ver: FmtVer, kind: FmtKind): (c: Option<seq<u8>>)
    ensures c.Some? ==> |c.value| == VERSION_SIZE
  {
    match VersionName(ver, kind)
    case None => None
    case Some(s) => Some(Bytes(s))
  }

  /** The order in which `read_version` tries the nine version strings. */
  const VERSIONS: seq<(FmtVer, FmtKind)> :=
    [(V1, Collage), (V2, Collage), (V2, Tune), (V3, Collage), (V3, Tune), (V4, Collage), (V4, Tune),
     (V5, Collage), (V5, Tune)]

  /** Bytes 2 and 15 of a version string, which tell the nine apart. */
  function VersionKey(c: seq<u8>): int
    requires |c| == VERSION_SIZE
  {
    c[2] as int * 0x100 + c[15] as int
  }

  lemma VersionKeys(ver: FmtVer, kind: FmtKind)
    ensures VersionCode(ver, kind).Some? ==> VersionKey(VersionCode(ver, kind).value) == match (ver, kind)
      case (V1, Collage) => 0x4337
      case (V2, Collage) => 0x4338
      case (V2, Tune) => 0x5438
      case (V3, Collage) => 0x4335
      case (V3, Tune) => 0x5435
      case (V4, Collage) => 0x4330
      case (V4, Tune) => 0x5430
      case (V5, Collage) => 0x4339
      case (V5, Tune) => 0x5439
      case _ => 0
  {
  }

  /** No two formats share a version string. */
  lemma VersionCodeInjective(a: (FmtVer, FmtKind), b: (FmtVer, FmtKind))
    requires VersionCode(a.0, a.1).Some? && VersionCode(a.0, a.1) == VersionCode(b.0, b.1)
    ensures a == b
  {
    VersionKeys(a.0, a.1);
    VersionKeys(b.0, b.1);
  }

  /** The first format of `vs` whose version string is `code`. */
  function FindVersion(code: seq<u8>, vs: seq<(FmtVer, FmtKind)>): (r: Option<(FmtVer, FmtKind)>)
    ensures r.Some? ==> r.value in vs && VersionCode(r.value.0, r.value.1) == Some(code)
    ensures r.None? ==> forall v | v in vs :: VersionCode(v.0, v.1) != Some(code)
  {
    if vs == [] then None
    else if VersionCode(vs[0].0, vs[0].1) == Some(code) then Some(vs[0])
    else FindVersion(code, vs[1..])
  }

  /**
   * `read_version` as a function of the data and the cursor: the 16-byte
   * version string (one of the nine, else `FmtUnknown`), then `exe_ver` and
   * `dummy`.
   */
  function ParseVersion(data: seq<u8>, cur: nat): (r: Parse<FmtInfo>)
    ensures cur <= |data| && r.Ok? ==> cur <= r.value.next <= |data|
  {
    var code :- Take(data, cur, VERSION_SIZE);
    match FindVersion(code.value, VERSIONS)
    case None => Err(FmtUnknown)
    case Some(vk) =>
      var exe :- ParseU16(data, code.next);
      var dummy :- ParseU16(data, exe.next);
      Ok(Parsed(FmtInfo(vk.0, vk.1, exe.value, dummy.value), dummy.next))
  }

  /** What `write_version` appends: the version string, `exe_ver` and `dummy`; a version 1 tune is refused. */
  function EncodeVersion(info: FmtInfo): (r: Result<seq<u8>, WriteError>)
    ensures r.Err? <==> info.ver == V1 && info.kind == Tune
    ensures r.Err? ==> r.error == UnsupportedFmt
    ensures r.Ok? ==> |r.value| == VERSION_SIZE + 4
  {
    match VersionCode(info.ver, info.kind)
    case None => Err(UnsupportedFmt)
    case Some(c) => Ok(c + Le16(info.exeVer) + Le16(info.dummy))
  }

  /**
   * `read_version` accepts exactly the nine version strings: a read that
   * succeeds found one of them and spans 20 bytes, and any other 16 bytes
   * are refused with `FmtUnknown`.
   */
  lemma ParseVersionShape(data: seq<u8>, cur: nat)
    ensures var p := ParseVersion(data, cur);
            p.Ok? ==> p.value.next == cur + VERSION_SIZE + 4 <= |data| &&
                      VersionCode(p.value.value.ver, p.value.value.kind) == Some(data[cur..cur + VERSION_SIZE])
    ensures cur + VERSION_SIZE <= |data| &&
            (forall v: FmtVer, k: FmtKind :: VersionCode(v, k) != Some(data[cur..cur + VERSION_SIZE])) ==>
              ParseVersion(data, cur) == Err(FmtUnknown)
  {
  }

  /** Each format's version string is found as that format. */
  lemma FindVersionCode(ver: FmtVer, kind: FmtKind)
    requires VersionCode(ver, kind).Some?
    ensures FindVersion(VersionCode(ver, kind).value, VERSIONS) == Some((ver, kind))
  {
    var found := FindVersion(VersionCode(ver, kind).value, VERSIONS);
    assert (ver, kind) in VERSIONS;
    VersionCodeInjective(found.value, (ver, kind));
  }

  /** Writing a version header and reading it back gives the same information, for every format but a version 1 tune. */
  lemma VersionRoundTrip(before: seq<u8>, info: FmtInfo, after: seq<u8>)
    requires !(info.ver == V1 && info.kind == Tune)
    ensures EncodeVersion(info).Ok?
    ensures ParseVersion(before + EncodeVersion(info).value + after, |before|)
            == Ok(Parsed(info, |before| + VERSION_SIZE + 4))
  {
    var code := VersionCode(info.ver, info.kind).value;
    var e := EncodeVersion(info).value;
    var data := before + e + after;
    var c := |before|;
    FindVersionCode(info.ver, info.kind);
    assert e == code + Le16(info.exeVer) + Le16(info.dummy);
    hide VersionCode, FindVersion, Le16, Take, ParseU16, At;
    AtWritten(before, e, after);
    AtSplit(data, c, code + Le16(info.exeVer), Le16(info.dummy));
    AtSplit(data, c, code, Le16(info.exeVer));
    TakeAt(data, c, code);
    ReadU16At(data, c + 16, info.exeVer);
    ReadU16At(data, c + 18, info.dummy);
  }

  // ---------------------------------------------------------------------
  // Unit count
  // ---------------------------------------------------------------------

  /** `MAX_UNITS`: the format's limit on units. */
  const MAX_UNITS: nat := 50
  const UNIT_NUM_SIZE: u32 := 4

  /**
   * `read_unit_num`: size 4 (else `FmtUnknown`), then the count and a
   * reserved field that must be 0 (else `FmtUnknown`); a count above 50 is
   * `FmtNewer`.
   */
  function ParseUnitNum(data: seq<u8>, cur: nat): (r: Parse<nat>)
    ensures r.Ok? ==> r.value.value <= MAX_UNITS
    ensures cur <= |data| && r.Ok? ==> cur <= r.value.next <= |data|
  {
    var size :- ParseU32(data, cur);
    if size.value != UNIT_NUM_SIZE then Err(FmtUnknown)
    else
      var body :- Take(data, size.next, 4);
      var num, rrr := FromLe16(body.value[0..2]), FromLe16(body.value[2..4]);
      if rrr != 0 then Err(FmtUnknown)
      else if num > MAX_UNITS then Err(FmtNewer)
      else Ok(Parsed(num, body.next))
  }

  /** What `write_unit_num` appends after its tag: size 4, the count clamped to 50, and 0. */
  function EncodeUnitNum(count: u8): (bytes: seq<u8>)
    ensures |bytes| == 8
  {
    Le32(UNIT_NUM_SIZE) + Le16(Min(count, MAX_UNITS)) + Le16(0)
  }

  /** The unit count reads back as written, clamped to 50. */
  lemma UnitNumRoundTrip(before: seq<u8>, count: u8, after: seq<u8>)
    ensures ParseUnitNum(before + EncodeUnitNum(count) + after, |before|)
            == Ok(Parsed(Min(count, MAX_UNITS), |before| + 8))
  {
    var e := EncodeUnitNum(count);
    var data := before + e + after;
    SliceOf(before, e, after, 0, 4);
    SliceOf(before, e, after, 4, 4);
    assert e[0..4] == Le32(UNIT_NUM_SIZE);
    var body := e[4..8];
    assert body[0..2] == Le16(Min(count, MAX_UNITS)) && body[2..4] == Le16(0);
    Le32Inverse(UNIT_NUM_SIZE);
    Le16Inverse(Min(count, MAX_UNITS));
    Le16Inverse(0);
  }

  /** The refusals of `read_unit_num`, for a chunk whose eight bytes are all present. */
  lemma ParseUnitNumRefusals(data: seq<u8>, cur: nat)
    requires cur + 8 <= |data|
    ensures FromLe32(data[cur..cur + 4]) != 4 ==> ParseUnitNum(data, cur) == Err(FmtUnknown)
    ensures FromLe32(data[cur..cur + 4]) == 4 && FromLe16(data[cur + 6..cur + 8]) != 0 ==>
              ParseUnitNum(data, cur) == Err(FmtUnknown)
    ensures FromLe32(data[cur..cur + 4]) == 4 && FromLe16(data[cur + 6..cur + 8]) == 0 &&
            FromLe16(data[cur + 4..cur + 6]) > MAX_UNITS ==>
              ParseUnitNum(data, cur) == Err(FmtNewer)
  {
    var body := data[cur + 4..cur + 8];
    assert body[0..2] == data[cur + 4..cur + 6];
    assert body[2..4] == data[cur + 6..cur + 8];
  }

  // ---------------------------------------------------------------------
  // Names
  // ---------------------------------------------------------------------

  /** `MAX_TUNE_UNIT_NAME` and `MAX_TUNE_VOICE_NAME`: both name fields are 16 bytes. */
  const NAME_SIZE: nat := 16

  /** The index of the first zero byte of `buf` at or after `from`, or `|buf|`. */
  function FirstZero(buf: seq<u8>, from: nat): (n: nat)
    requires from <= |buf|
    ensures from <= n <= |buf|
    ensures forall i | from <= i < n :: buf[i] != 0
    ensures n < |buf| ==> buf[n] == 0
    decreases |buf| - from
  {
    if from == |buf| || buf[from] == 0 then from else FirstZero(buf, from + 1)
  }

  /** `strlen` on a name field: the index of its first zero byte, or 16 when it has none. */
  function Strlen(buf: seq<u8>): (n: nat)
    requires |buf| == NAME_SIZE
    ensures n <= NAME_SIZE
    ensures forall i | 0 <= i < n :: buf[i] != 0
    ensures n < NAME_SIZE ==> buf[n] == 0
  {
    FirstZero(buf, 0)
  }

  /** A name as it is read back: cut at its first zero byte. */
  function CutAtZero(s: seq<u8>): seq<u8>
  {
    s[..FirstZero(s, 0)]
  }

  /** The 16-byte name field `write_units` builds: the name truncated to 16 bytes, padded with zeros. */
  function NameField(name: seq<u8>): (f: seq<u8>)
    ensures |f| == NAME_SIZE
  {
    var n := Min(|name|, NAME_SIZE);
    name[..n] + seq(NAME_SIZE - n, _ => 0)
  }

  /** Reading a name field back gives the name truncated to 16 bytes and cut at its first zero byte. */
  lemma NameFieldRoundTrip(name: seq<u8>)
    ensures var f := NameField(name); f[..Strlen(f)] == CutAtZero(name[..Min(|name|, NAME_SIZE)])
  {
    var f := NameField(name);
    var s := name[..Min(|name|, NAME_SIZE)];
    var k := FirstZero(s, 0);
    var n := Strlen(f);
    assert f[..|s|] == s;
    if k < |s| {
      assert f[k] == 0;
    } else if |s| < NAME_SIZE {
      assert f[|s|] == 0;
    }
    assert n == k;
  }

  /** A name of at most 16 bytes without a zero byte reads back unchanged. */
  lemma PlainNameRoundTrip(name: seq<u8>)
    requires |name| <= NAME_SIZE && forall i | 0 <= i < |name| :: name[i] != 0
    ensures var f := NameField(name); f[..Strlen(f)] == name
  {
    NameFieldRoundTrip(name);
    assert name[..|name|] == name;
  }

  // ---------------------------------------------------------------------
  // Unit names (`assiUNIT`)
  // ---------------------------------------------------------------------

  const IO_UNIT_SIZE: u32 := 20

  /** A unit name chunk: which unit, and its name bytes. */
  datatype UnitName = UnitName(index: u8, name: seq<u8>)

  /**
   * `read_unit` as a function of the data, the cursor and the current
   * number of units: size 20, then the index, a reserved field that must be
   * 0, and the 16-byte name. An index that does not fit a byte or has no
   * unit is `FmtUnknown`, as is a wrong size or reserved field.
   */
  function ParseUnit(data: seq<u8>, cur: nat, unitCount: nat): (r: Parse<UnitName>)
    ensures r.Ok? ==> r.value.value.index < unitCount
    ensures cur <= |data| && r.Ok? ==> cur <= r.value.next <= |data|
  {
    var size :- ParseU32(data, cur);
    if size.value != IO_UNIT_SIZE then Err(FmtUnknown)
    else
      var body :- Take(data, size.next, 20);
      var index, rrr, field := FromLe16(body.value[0..2]), FromLe16(body.value[2..4]), body.value[4..20];
      if rrr != 0 then Err(FmtUnknown)
      else if index >= 0x100 then Err(FmtUnknown)
      else if index >= unitCount then Err(FmtUnknown)
      else Ok(Parsed(UnitName(index, field[..Strlen(field)]), body.next))
  }

  /** What `write_units` appends for one named unit after its tag: size 20, index, 0, name field. */
  function EncodeUnit(index: u16, name: seq<u8>): (bytes: seq<u8>)
    ensures |bytes| == 24
  {
    Le32(IO_UNIT_SIZE) + Le16(index) + Le16(0) + NameField(name)
  }

  /** The name units start with; `write_units` skips units that still have it. */
  const NO_NAME: seq<u8> := Bytes("<no name>")

  /** One entry of `write_units`: nothing for an unnamed unit, else the tag and the chunk. */
  function EncodeUnitEntry(index: u16, name: seq<u8>): seq<u8>
  {
    if name == NO_NAME then [] else ToCode(AssiUNIT) + EncodeUnit(index, name)
  }

  /** What `write_units` appends for a list of (at most 50) unit names, entry by entry. */
  function EncodeUnits(names: seq<seq<u8>>): seq<u8>
    requires |names| <= MAX_UNITS
  {
    if names == [] then []
    else EncodeUnits(names[..|names| - 1]) + EncodeUnitEntry(|names| - 1, names[|names| - 1])
  }

  lemma EncodeUnitsEmpty(names: seq<seq<u8>>)
    ensures EncodeUnits(names[..0]) == []
  {
  }

  /** Writing one more unit appends its entry. */
  lemma EncodeUnitsSnoc(names: seq<seq<u8>>, i: nat)
    requires i < |names| && i < MAX_UNITS
    ensures EncodeUnits(names[..i + 1]) == EncodeUnits(names[..i]) + EncodeUnitEntry(i, names[i])
  {
    assert names[..i + 1][..i] == names[..i];
  }

  /** A unit name chunk reads back as the unit's index and its name, truncated and cut at a zero byte. */
  lemma UnitRoundTrip(before: seq<u8>, index: u8, name: seq<u8>, after: seq<u8>, unitCount: nat)
    requires index < unitCount
    ensures ParseUnit(before + EncodeUnit(index, name) + after, |before|, unitCount)
            == Ok(Parsed(UnitName(index, CutAtZero(name[..Min(|name|, NAME_SIZE)])), |before| + 24))
  {
    var e := EncodeUnit(index, name);
    SliceOf(before, e, after, 0, 4);
    SliceOf(before, e, after, 4, 20);
    assert e[0..4] == Le32(IO_UNIT_SIZE);
    var body := e[4..24];
    assert body[0..2] == Le16(index) && body[2..4] == Le16(0) && body[4..20] == NameField(name);
    Le32Inverse(IO_UNIT_SIZE);
    Le16Inverse(index);
    Le16Inverse(0);
    NameFieldRoundTrip(name);
  }

  // ---------------------------------------------------------------------
  // Voice names (`assiWOIC`)
  // ---------------------------------------------------------------------

  const ASSIST_VOICE_SIZE: u32 := 20

  /** A voice name chunk: which voice, and its name bytes. */
  datatype VoiceName = VoiceName(index: u8, name: seq<u8>)

  /**
   * `read_assist_voice` up to the voice lookup: size 20 (else `FmtUnknown`),
   * then the index (which must fit a byte, else `FmtUnknown`), a reserved
   * field that is only warned about, and the 16-byte name.
   */
  function ParseAssistVoice(data: seq<u8>, cur: nat): (r: Parse<VoiceName>)
    ensures cur <= |data| && r.Ok? ==> cur <= r.value.next <= |data|
  {
    var size :- ParseU32(data, cur);
    if size.value != ASSIST_VOICE_SIZE then Err(FmtUnknown)
    else
      var body :- Take(data, size.next, 20);
      var index, field := FromLe16(body.value[0..2]), body.value[4..20];
      if index >= 0x100 then Err(FmtUnknown)
      else Ok(Parsed(VoiceName(index, field[..Strlen(field)]), body.next))
  }

  /**
   * `write_assist_voice` as written: tag, size 20, index, 0, then the name
   * copied into a 16-byte field with `name[..len].copy_from_slice`, which
   * panics for a name longer than 16 bytes.
   */
  function EncodeAssistVoiceAsWritten(index: u16, name: seq<u8>): (r: Result<seq<u8>, WriteError>)
    ensures r.Err? <==> |name| > NAME_SIZE
  {
    if |name| > NAME_SIZE then Err(WriteError.Panic)
    else Ok(ToCode(AssiWOIC) + Le32(ASSIST_VOICE_SIZE) + Le16(index) + Le16(0) + NameField(name))
  }

  /** A 17-byte voice name makes the writer panic, where the unit writer truncates. */
  lemma AsWrittenLongVoiceNamePanics()
    ensures EncodeAssistVoiceAsWritten(0, Bytes("seventeen-letters")) == Err(WriteError.Panic)
    ensures EncodeUnitEntry(0, Bytes("seventeen-letters")) ==
            ToCode(AssiUNIT) + EncodeUnit(0, Bytes("seventeen-letters")[..16])
  {
    var name := Bytes("seventeen-letters");
    assert NameField(name) == NameField(name[..16]);
    assert name != NO_NAME by {
      assert |name| != |NO_NAME|;
    }
  }

  /** `write_assist_voice` truncating the name as `write_units` does. */
  function EncodeAssistVoice(index: u16, name: seq<u8>): (bytes: seq<u8>)
    ensures |bytes| == 32
    ensures |name| <= NAME_SIZE ==> EncodeAssistVoiceAsWritten(index, name) == Ok(bytes)
  {
    ToCode(AssiWOIC) + Le32(ASSIST_VOICE_SIZE) + Le16(index) + Le16(0) + NameField(name)
  }

  /** A voice name chunk reads back as the voice's index and its name, truncated and cut at a zero byte. */
  lemma AssistVoiceRoundTrip(before: seq<u8>, index: u8, name: seq<u8>, after: seq<u8>)
    ensures ParseAssistVoice(before + EncodeAssistVoice(index, name)[CODE_SIZE..] + after, |before|)
            == Ok(Parsed(VoiceName(index, CutAtZero(name[..Min(|name|, NAME_SIZE)])), |before| + 24))
  {
    var e := EncodeAssistVoice(index, name)[CODE_SIZE..];
    assert e == Le32(ASSIST_VOICE_SIZE) + Le16(index) + Le16(0) + NameField(name);
    SliceOf(before, e, after, 0, 4);
    SliceOf(before, e, after, 4, 20);
    assert e[0..4] == Le32(ASSIST_VOICE_SIZE);
    var body := e[4..24];
    assert body[0..2] == Le16(index) && body[4..20] == NameField(name);
    Le32Inverse(ASSIST_VOICE_SIZE);
    Le16Inverse(index);
    NameFieldRoundTrip(name);
  }

  // ---------------------------------------------------------------------
  // Delay chunk (`effeDELA`)
  // ---------------------------------------------------------------------

  const IO_DELAY_SIZE: u32 := 12

  /** The delay unit of a stored code: 0, 1 and 2 only. */
  function DelayUnitOfCode(code: u16): (r: Option<DelayUnit>)
    ensures r.Some? <==> code <= 2
  {
    match code
    case 0 => Some(Beat)
    case 1 => Some(Meas)
    case 2 => Some(Second)
    case _ => None
  }

  /** The code `write_delay` stores for a unit. */
  function DelayUnitCode(u: DelayUnit): u16
  {
    match u
    case Beat => 0
    case Meas => 1
    case Second => 2
  }

  /** The unit codes and the units correspond one to one. */
  lemma DelayUnitCodes(u: DelayUnit, code: u16)
    ensures DelayUnitOfCode(DelayUnitCode(u)) == Some(u)
    ensures DelayUnitOfCode(code).Some? ==> DelayUnitCode(DelayUnitOfCode(code).value) == code
  {
  }

  /**
   * `read_delay` up to the push: size 12 (else `FmtUnknown`), then the
   * unit code (0 to 2, else `FmtUnknown`), the group (which must fit a
   * byte: `unwrap` panics otherwise), the rate as an `f32` converted with
   * `as u8`, and the frequency's bits.
   */
  function ParseDelay(data: seq<u8>, cur: nat): (r: Parse<DelayConfig>)
    ensures cur <= |data| && r.Ok? ==> cur <= r.value.next <= |data|
  {
    var size :- ParseU32(data, cur);
    if size.value != IO_DELAY_SIZE then Err(FmtUnknown)
    else
      var body :- Take(data, size.next, 12);
      var b := body.value;
      var code, group, rate, freq := FromLe16(b[0..2]), FromLe16(b[2..4]), FromLe32(b[4..8]), FromLe32(b[8..12]);
      match DelayUnitOfCode(code)
      case None => Err(FmtUnknown)
      case Some(unit) =>
        if group >= 0x100 then Err(ReadError.Panic)
        else Ok(Parsed(DelayConfig(unit, group, ToU8(rate), freq), body.next))
  }

  /** What `write_delay` appends after its tag: size 12, unit code, group, rate as `f32`, frequency. */
  function EncodeDelay(d: DelayConfig): (bytes: seq<u8>)
    ensures |bytes| == 16
  {
    Le32(IO_DELAY_SIZE) + Le16(DelayUnitCode(d.unit)) + Le16(d.group) + Le32(FromU8(d.rate)) + Le32(d.freq)
  }

  /** A delay chunk reads back as the same unit, group, rate and frequency. */
  lemma DelayRoundTrip(before: seq<u8>, d: DelayConfig, after: seq<u8>)
    ensures ParseDelay(before + EncodeDelay(d) + after, |before|) == Ok(Parsed(d, |before| + 16))
  {
    var e := EncodeDelay(d);
    SliceOf(before, e, after, 0, 4);
    SliceOf(before, e, after, 4, 12);
    assert e[0..4] == Le32(IO_DELAY_SIZE);
    var p0, p1, p2, p3 := Le16(DelayUnitCode(d.unit)), Le16(d.group), Le32(FromU8(d.rate)), Le32(d.freq);
    var b := e[4..16];
    assert b == p0 + p1 + p2 + p3;
    assert b[0..2] == p0 && b[2..4] == p1;
    assert b[4..8] == p2 && b[8..12] == p3;
    Le32Inverse(IO_DELAY_SIZE);
    Le16Inverse(DelayUnitCode(d.unit));
    Le16Inverse(d.group);
    Le32Inverse(FromU8(d.rate));
    Le32Inverse(d.freq);
    ToU8FromU8(d.rate);
    DelayUnitCodes(d.unit, 0);
  }

  /** The refusals of `read_delay` for a chunk whose 16 bytes are all present. */
  lemma ParseDelayRefusals(data: seq<u8>, cur: nat)
    requires cur + 16 <= |data|
    ensures FromLe32(data[cur..cur + 4]) != 12 ==> ParseDelay(data, cur) == Err(FmtUnknown)
    ensures FromLe32(data[cur..cur + 4]) == 12 && FromLe16(data[cur + 4..cur + 6]) > 2 ==>
              ParseDelay(data, cur) == Err(FmtUnknown)
    ensures ParseDelay(data, cur).Ok? ==> ParseDelay(data, cur).value.next == cur + 16
  {
    var b := data[cur + 4..cur + 16];
    assert b[0..2] == data[cur + 4..cur + 6];
  }

  // ---------------------------------------------------------------------
  // Overdrive chunk (`effeOVER`)
  // ---------------------------------------------------------------------

  /** The fields an overdrive chunk stores: group, cut percentage and amplification (`f32` bits). */
  datatype OverdriveConfig = OverdriveConfig(group: u8, cut: u32, amp: u32)

  const IO_OVERDRIVE_SIZE: u32 := 16
  /** `CUT_VALID_RANGE` is 50.0..=99.9 and `AMP_VALID_RANGE` is 0.1..=8.0, as `f32` bits. */
  const CUT_LO: u32 := 0x4248_0000
  const CUT_HI: u32 := 0x42C7_CCCD
  const AMP_LO: u32 := 0x3DCC_CCCD
  const AMP_HI: u32 := 0x4100_0000

  /**
   * `read_overdrive`: the size is read but not checked, and a short input
   * panics (both reads are `unwrap`ped); a non-zero reserved field, a cut
   * outside 50.0..=99.9 or an amplification outside 0.1..=8.0 is
   * `FmtUnknown`; a group that does not fit a byte panics.
   */
  function ParseOverdrive(data: seq<u8>, cur: nat): (r: Parse<OverdriveConfig>)
    ensures cur <= |data| && r.Ok? ==> cur <= r.value.next <= |data|
  {
    var size := ParseU32(data, cur);
    if size.Err? then Err(ReadError.Panic)
    else
      var body := Take(data, size.value.next, 16);
      if body.Err? then Err(ReadError.Panic)
      else
        var b := body.value.value;
        var xxx, group, cut, amp := FromLe16(b[0..2]), FromLe16(b[2..4]), FromLe32(b[4..8]), FromLe32(b[8..12]);
        if xxx != 0 then Err(FmtUnknown)
        else if !InRange(cut, CUT_LO, CUT_HI) then Err(FmtUnknown)
        else if !InRange(amp, AMP_LO, AMP_HI) then Err(FmtUnknown)
        else if group >= 0x100 then Err(ReadError.Panic)
        else Ok(Parsed(OverdriveConfig(group, cut, amp), body.value.next))
  }

  /** What `write_overdrive` appends after its tag: size 16, 0, group, cut, amplification, 0.0. */
  function EncodeOverdrive(o: OverdriveConfig): (bytes: seq<u8>)
    ensures |bytes| == 20
  {
    Le32(IO_OVERDRIVE_SIZE) + Le16(0) + Le16(o.group) + Le32(o.cut) + Le32(o.amp) + Le32(0)
  }

  /** An overdrive chunk whose cut and amplification are in their valid ranges reads back unchanged. */
  lemma OverdriveRoundTrip(before: seq<u8>, o: OverdriveConfig, after: seq<u8>)
    requires InRange(o.cut, CUT_LO, CUT_HI) && InRange(o.amp, AMP_LO, AMP_HI)
    ensures ParseOverdrive(before + EncodeOverdrive(o) + after, |before|) == Ok(Parsed(o, |before| + 20))
  {
    var e := EncodeOverdrive(o);
    SliceOf(before, e, after, 0, 4);
    SliceOf(before, e, after, 4, 16);
    var b := e[4..20];
    assert b == Le16(0) + Le16(o.group) + Le32(o.cut) + Le32(o.amp) + Le32(0);
    assert b[0..2] == Le16(0) && b[2..4] == Le16(o.group);
    assert b[4..8] == Le32(o.cut) && b[8..12] == Le32(o.amp);
    Le16Inverse(0);
    Le16Inverse(o.group);
    Le32Inverse(o.cut);
    Le32Inverse(o.amp);
  }

  // ---------------------------------------------------------------------
  // Text chunks (`textNAME`, `textCOMM`)
  // ---------------------------------------------------------------------

  /** `read_vec`: a 32-bit length and that many bytes. */
  function ParseText(data: seq<u8>, cur: nat): (r: Parse<seq<u8>>)
    ensures cur <= |data| && r.Ok? ==> cur <= r.value.next <= |data|
  {
    var size :- ParseU32(data, cur);
    Take(data, size.next, size.value)
  }

  /** What `name_w`/`comment_w` append: nothing for an empty text, else the tag, the length and the bytes. */
  function EncodeText(tag: Tag, text: seq<u8>): seq<u8>
  {
    if text == [] then [] else ToCode(tag) + Le32(Wrap32(|text|)) + text
  }

  /** A text of less than 4 GiB reads back unchanged. */
  lemma TextRoundTrip(before: seq<u8>, text: seq<u8>, after: seq<u8>)
    requires |text| < 0x1_0000_0000
    ensures ParseText(before + Le32(|text|) + text + after, |before|) == Ok(Parsed(text, |before| + 4 + |text|))
  {
    var e := Le32(|text|) + text;
    assert before + Le32(|text|) + text + after == before + e + after;
    SliceOf(before, e, after, 0, 4);
    SliceOf(before, e, after, 4, |text|);
    assert e[0..4] == Le32(|text|) && e[4..4 + |text|] == text;
    Le32Inverse(|text|);
  }

  // ---------------------------------------------------------------------
  // Reader and writer methods
  // ---------------------------------------------------------------------

  /** `Reader::next::<Code>` followed by `from_code`, as the read loop does. */
  method ReadTag(rd: Reader) returns (r: Result<Option<Tag>, ReadError>)
    modifies rd`cur
    ensures var p := Take(rd.data, old(rd.cur), CODE_SIZE);
            if p.Ok? then r == Ok(FromCode(p.value.value)) && rd.cur == p.value.next
            else r == Err(p.error) && rd.cur == old(rd.cur)
  {
    var code := rd.Next(CODE_SIZE);
    if code.Err? { return Err(code.error); }
    r := Ok(FromCode(code.value));
  }

  /** `read_version`. */
  method ReadVersion(rd: Reader) returns (r: Result<FmtInfo, ReadError>)
    modifies rd`cur
    ensures Outcome(r, rd.cur) == ParseVersion(rd.data, old(rd.cur))
  {
    var code := rd.Next(VERSION_SIZE);
    if code.Err? { return Err(code.error); }
    var vk := FindVersion(code.value, VERSIONS);
    if vk.None? { return Err(FmtUnknown); }
    var exe := rd.NextU16();
    if exe.Err? { return Err(exe.error); }
    var dummy := rd.NextU16();
    if dummy.Err? { return Err(dummy.error); }
    r := Ok(FmtInfo(vk.value.0, vk.value.1, exe.value, dummy.value));
  }

  /** `write_version`: appends the header, or refuses a version 1 tune and appends nothing. */
  method WriteVersion(out: ByteVec, info: FmtInfo) returns (r: Result<(), WriteError>)
    modifies out
    ensures var e := EncodeVersion(info);
            if e.Ok? then r.Ok? && out.bytes == old(out.bytes) + e.value
            else r == Err(e.error) && out.bytes == old(out.bytes)
  {
    var code := VersionCode(info.ver, info.kind);
    if code.None? { return Err(UnsupportedFmt); }
    out.Extend(code.value);
    out.Extend(Le16(info.exeVer));
    out.Extend(Le16(info.dummy));
    r := Ok(());
  }

  /** `read_unit_num`. */
  method ReadUnitNum(rd: Reader) returns (r: Result<nat, ReadError>)
    modifies rd`cur
    ensures Outcome(r, rd.cur) == ParseUnitNum(rd.data, old(rd.cur))
  {
    var size := rd.NextU32();
    if size.Err? { return Err(size.error); }
    if size.value != UNIT_NUM_SIZE { return Err(FmtUnknown); }
    var body := rd.Next(4);
    if body.Err? { return Err(body.error); }
    var num, rrr := FromLe16(body.value[0..2]), FromLe16(body.value[2..4]);
    if rrr != 0 { return Err(FmtUnknown); }
    if num > MAX_UNITS { return Err(FmtNewer); }
    r := Ok(num);
  }

  /** `write_unit_num`: the tag, then the chunk with the count clamped to 50. */
  method WriteUnitNum(out: ByteVec, count: u8)
    modifies out
    ensures out.bytes == old(out.bytes) + ToCode(NumUNIT) + EncodeUnitNum(count)
  {
    out.Extend(ToCode(NumUNIT));
    out.Extend(Le32(UNIT_NUM_SIZE));
    var n := count;
    if n > MAX_UNITS {
      n := MAX_UNITS;
    }
    out.Extend(Le16(n));
    out.Extend(Le16(0));
  }

  /** `read_unit` up to the name assignment, which the read loop does. */
  method ReadUnit(rd: Reader, unitCount: nat) returns (r: Result<UnitName, ReadError>)
    modifies rd`cur
    ensures Outcome(r, rd.cur) == ParseUnit(rd.data, old(rd.cur), unitCount)
  {
    var size := rd.NextU32();
    if size.Err? { return Err(size.error); }
    if size.value != IO_UNIT_SIZE { return Err(FmtUnknown); }
    var body := rd.Next(20);
    if body.Err? { return Err(body.error); }
    var index, rrr, field := FromLe16(body.value[0..2]), FromLe16(body.value[2..4]), body.value[4..20];
    if rrr != 0 { return Err(FmtUnknown); }
    if index >= 0x100 || index >= unitCount { return Err(FmtUnknown); }
    r := Ok(UnitName(index, field[..Strlen(field)]));
  }

  /** One step of `write_units`: nothing for an unnamed unit, else its tag and chunk. */
  method WriteUnitEntry(out: ByteVec, index: u16, name: seq<u8>)
    modifies out
    ensures out.bytes == old(out.bytes) + EncodeUnitEntry(index, name)
  {
    if name != NO_NAME {
      hide ToCode, NameField, Le16, Le32;
      ghost var b0 := out.bytes;
      out.Extend(ToCode(AssiUNIT));
      out.Extend(Le32(IO_UNIT_SIZE));
      out.Extend(Le16(index));
      out.Extend(Le16(0));
      out.Extend(NameField(name));
      assert out.bytes == b0 + (ToCode(AssiUNIT) + (Le32(IO_UNIT_SIZE) + Le16(index) + Le16(0) + NameField(name)));
    }
  }

  /** `write_units`: one chunk per named unit among the first 50, each with its position as index. */
  method WriteUnits(out: ByteVec, names: seq<seq<u8>>)
    modifies out
    ensures out.bytes == old(out.bytes) + EncodeUnits(names[..Min(|names|, MAX_UNITS)])
  {
    hide EncodeUnits, EncodeUnitEntry;
    EncodeUnitsEmpty(names);
    var n := Min(|names|, MAX_UNITS);
    var i := 0;
    while i < n
      invariant 0 <= i <= n
      invariant out.bytes == old(out.bytes) + EncodeUnits(names[..i])
    {
      EncodeUnitsSnoc(names, i);
      WriteUnitEntry(out, i, names[i]);
      i := i + 1;
    }
  }

  /** `read_assist_voice` up to the voice lookup. */
  method ReadAssistVoice(rd: Reader) returns (r: Result<VoiceName, ReadError>)
    modifies rd`cur
    ensures Outcome(r, rd.cur) == ParseAssistVoice(rd.data, old(rd.cur))
  {
    var size := rd.NextU32();
    if size.Err? { return Err(size.error); }
    if size.value != ASSIST_VOICE_SIZE { return Err(FmtUnknown); }
    var body := rd.Next(20);
    if body.Err? { return Err(body.error); }
    var index, field := FromLe16(body.value[0..2]), body.value[4..20];
    if index >= 0x100 { return Err(FmtUnknown); }
    r := Ok(VoiceName(index, field[..Strlen(field)]));
  }

  /** `write_assist_voice`, truncating a long name instead of panicking. */
  method WriteAssistVoice(out: ByteVec, index: u16, name: seq<u8>)
    modifies out
    ensures out.bytes == old(out.bytes) + EncodeAssistVoice(index, name)
  {
    out.Extend(ToCode(AssiWOIC));
    out.Extend(Le32(ASSIST_VOICE_SIZE));
    out.Extend(Le16(index));
    out.Extend(Le16(0));
    out.Extend(NameField(name));
  }

  /** `read_delay` up to the push. */
  method ReadDelay(rd: Reader) returns (r: Result<DelayConfig, ReadError>)
    modifies rd`cur
    ensures Outcome(r, rd.cur) == ParseDelay(rd.data, old(rd.cur))
  {
    var size := rd.NextU32();
    if size.Err? { return Err(size.error); }
    if size.value != IO_DELAY_SIZE { return Err(FmtUnknown); }
    var body := rd.Next(12);
    if body.Err? { return Err(body.error); }
    var b := body.value;
    var code, group, rate, freq := FromLe16(b[0..2]), FromLe16(b[2..4]), FromLe32(b[4..8]), FromLe32(b[8..12]);
    var unit := DelayUnitOfCode(code);
    if unit.None? { return Err(FmtUnknown); }
    if group >= 0x100 { return Err(ReadError.Panic); }
    r := Ok(DelayConfig(unit.value, group, ToU8(rate), freq));
  }

  /** `write_delay`: the tag, then the chunk. */
  method WriteDelay(out: ByteVec, d: DelayConfig)
    modifies out
    ensures out.bytes == old(out.bytes) + ToCode(EffeDELA) + EncodeDelay(d)
  {
    out.Extend(ToCode(EffeDELA));
    out.Extend(Le32(IO_DELAY_SIZE));
    out.Extend(Le16(DelayUnitCode(d.unit)));
    out.Extend(Le16(d.group));
    out.Extend(Le32(FromU8(d.rate)));
    out.Extend(Le32(d.freq));
  }

  /** `read_overdrive`. */
  method ReadOverdrive(rd: Reader) returns (r: Result<OverdriveConfig, ReadError>)
    modifies rd`cur
    ensures Outcome(r, rd.cur) == ParseOverdrive(rd.data, old(rd.cur))
  {
    var size := rd.NextU32();
    if size.Err? { return Err(ReadError.Panic); }
    var body := rd.Next(16);
    if body.Err? { return Err(ReadError.Panic); }
    var b := body.value;
    var xxx, group, cut, amp := FromLe16(b[0..2]), FromLe16(b[2..4]), FromLe32(b[4..8]), FromLe32(b[8..12]);
    if xxx != 0 || !InRange(cut, CUT_LO, CUT_HI) || !InRange(amp, AMP_LO, AMP_HI) {
      return Err(FmtUnknown);
    }
    if group >= 0x100 { return Err(ReadError.Panic); }
    r := Ok(OverdriveConfig(group, cut, amp));
  }

  /** `write_overdrive`: the tag, then the chunk. */
  method WriteOverdrive(out: ByteVec, o: OverdriveConfig)
    modifies out
    ensures out.bytes == old(out.bytes) + ToCode(EffeOVER) + EncodeOverdrive(o)
  {
    out.Extend(ToCode(EffeOVER));
    out.Extend(Le32(IO_OVERDRIVE_SIZE));
    out.Extend(Le16(0));
    out.Extend(Le16(o.group));
    out.Extend(Le32(o.cut));
    out.Extend(Le32(o.amp));
    out.Extend(Le32(0));
  }

  /** `read_vec`: the length, then a zero-filled buffer of that length filled from the input. */
  method ReadText(rd: Reader) returns (r: Result<seq<u8>, ReadError>)
    modifies rd`cur
    ensures Outcome(r, rd.cur) == ParseText(rd.data, old(rd.cur))
  {
    var size := rd.NextU32();
    if size.Err? { return Err(size.error); }
    var v := new u8[size.value](_ => 0);
    var filled := rd.FillSlice(v);
    if filled.Err? { return Err(Data); }
    r := Ok(v[..]);
  }

  /** `name_w` / `comment_w`: nothing for an empty text, else the tag, the length and the bytes. */
  method WriteText(out: ByteVec, tag: Tag, text: seq<u8>)
    modifies out
    ensures out.bytes == old(out.bytes) + EncodeText(tag, text)
  {
    if text != [] {
      out.Extend(ToCode(tag));
      out.Extend(Le32(Wrap32(|text|)));
      out.Extend(text);
    }
  }
}

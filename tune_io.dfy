/**
 * Reading and writing a whole project file: the version header, then
 * chunk after chunk, each an eight-byte tag and its body, up to the end
 * tag. The chunk bodies are read and written by the functions and methods
 * of `HerdIo`, `Master`, `Event` and `VoiceIo`; this module dispatches on
 * the tags and applies each chunk to the song, the herd and the voices.
 *
 * The state the chunks fill is a `TuneData`. The read loop is specified by
 * `ItemStep` (one chunk) and `RunItems` (the chunks up to the end tag or
 * the first error); the `Project` class holds the same state in fields and
 * its methods are proved against those functions.
 */
module TuneIo {
  import opened Base
  import opened Errors
  import opened Io
  import opened HerdIo
  import opened Delay
  import Master
  import Event
  import VoiceIo
  import Timing
  import F32

  type VoiceUnit = VoiceIo.VoiceUnit

  /** `MAX_DELAYS` and `MAX_OVERDRIVES`: the capacities of the herd's `ArrayVec`s. */
  const MAX_DELAYS: nat := 4
  const MAX_OVERDRIVES: nat := 2

  /** A voice as the project reader builds it: its units and its name bytes. */
  datatype VoiceEntry = VoiceEntry(units: seq<VoiceUnit>, name: seq<u8>)

  /**
   * What reading a project fills in: the song's format, master, events,
   * name and comment; the herd's unit names, delays and overdrives; and the
   * voices of the instructions. Units are represented by their names, the
   * only unit field the file sets.
   */
  datatype TuneData = TuneData(
    fmt: FmtInfo,
    master: Master.MasterState,
    events: Event.EveListState,
    name: seq<u8>,
    comment: seq<u8>,
    units: seq<seq<u8>>,
    delays: seq<DelayConfig>,
    overdrives: seq<OverdriveConfig>,
    voices: seq<VoiceEntry>)

  /** The capacities the herd's `ArrayVec`s enforce. */
  predicate InCapacity(t: TuneData)
  {
    |t.units| <= MAX_UNITS && |t.delays| <= MAX_DELAYS && |t.overdrives| <= MAX_OVERDRIVES
  }

  /** The state a project is read into: a default song, an empty herd and no voices. */
  function EmptyTune(): (t: TuneData)
    ensures InCapacity(t)
  {
    TuneData(DefaultFmtInfo(), Master.DefaultMaster(), Event.EveListState([], 0), [], [], [], [], [], [])
  }

  /** `n` new units, each with the name `Unit::new` gives. */
  function Unnamed(n: nat): (names: seq<seq<u8>>)
    ensures |names| == n
  {
    seq(n, _ => NO_NAME)
  }

  // ---------------------------------------------------------------------
  // One chunk
  // ---------------------------------------------------------------------

  /** The outcome of one pass of the read loop. */
  datatype Step =
    | Continue(tune: TuneData, next: nat)
    | Finish(tune: TuneData, next: nat)
    | Fail(error: ReadError)

  /** A chunk that adds a voice: the units read, under the default name. */
  function VoiceStep(p: Parse<seq<VoiceUnit>>, t: TuneData): Step
  {
    if p.Err? then Fail(p.error)
    else Continue(t.(voices := t.voices + [VoiceEntry(p.value.value, NO_NAME)]), p.value.next)
  }

  /**
   * The body of the read loop once the tag at `c - 8` is known: the chunk
   * is read from `c` and applied to `t`. `antiOPER` is refused, the tags
   * of versions 1, 3 and 4 other than `matePCM=` and `END=====` are
   * `OldUnsupported`, and the two end tags finish the loop. A push past an
   * `ArrayVec`'s capacity and a voice name for a voice that does not exist
   * panic.
   */
  function TagStep(tag: Tag, data: seq<u8>, c: nat, t: TuneData): (s: Step)
    ensures c <= |data| && !s.Fail? ==> c <= s.next <= |data|
  {
    match tag
    case AntiOPER => Fail(AntiOpreation)
    case NumUNIT =>
      var p := ParseUnitNum(data, c);
      if p.Err? then Fail(p.error)
      else if |t.units| + p.value.value > MAX_UNITS then Fail(ReadError.Panic)
      else Continue(t.(units := t.units + Unnamed(p.value.value)), p.value.next)
    case MasterV5 =>
      var p := Master.ParseMasterV5(data, c);
      if p.Err? then Fail(p.error) else Continue(t.(master := p.value.value), p.value.next)
    case EventV5 =>
      var p := Event.ParseEveList(data, c);
      if p.Err? then Fail(p.error) else Continue(t.(events := p.value.value), p.value.next)
    case MatePCM => VoiceStep(VoiceIo.ParseMatePcm(data, c), t)
    case V1Pcm => VoiceStep(VoiceIo.ParseMatePcm(data, c), t)
    case MatePTV => VoiceStep(VoiceIo.ParseMatePtv(data, c), t)
    case MatePTN => VoiceStep(VoiceIo.ParseMatePtn(data, c), t)
    case MateOGGV => VoiceStep(VoiceIo.ParseOgg(data, c), t)
    case EffeDELA =>
      var p := ParseDelay(data, c);
      if p.Err? then Fail(p.error)
      else if |t.delays| >= MAX_DELAYS then Fail(ReadError.Panic)
      else Continue(t.(delays := t.delays + [p.value.value]), p.value.next)
    case EffeOVER =>
      var p := ParseOverdrive(data, c);
      if p.Err? then Fail(p.error)
      else if |t.overdrives| >= MAX_OVERDRIVES then Fail(ReadError.Panic)
      else Continue(t.(overdrives := t.overdrives + [p.value.value]), p.value.next)
    case TextNAME =>
      var p := ParseText(data, c);
      if p.Err? then Fail(p.error) else Continue(t.(name := p.value.value), p.value.next)
    case TextCOMM =>
      var p := ParseText(data, c);
      if p.Err? then Fail(p.error) else Continue(t.(comment := p.value.value), p.value.next)
    case AssiWOIC =>
      var p := ParseAssistVoice(data, c);
      if p.Err? then Fail(p.error)
      else
        var v := p.value.value;
        if v.index >= |t.voices| then Fail(ReadError.Panic)
        else Continue(t.(voices := t.voices[v.index := t.voices[v.index].(name := v.name)]), p.value.next)
    case AssiUNIT =>
      var p := ParseUnit(data, c, |t.units|);
      if p.Err? then Fail(p.error)
      else Continue(t.(units := t.units[p.value.value.index := p.value.value.name]), p.value.next)
    case PxtoneND => Finish(t, c)
    case V1End => Finish(t, c)
    case V4EvenMast => Fail(OldUnsupported)
    case V4EvenUnit => Fail(OldUnsupported)
    case V3Unit => Fail(OldUnsupported)
    case V1Proj => Fail(OldUnsupported)
    case V1Unit => Fail(OldUnsupported)
    case V1Event => Fail(OldUnsupported)
  }

  /**
   * One pass of the read loop at `cur`: the tag (a short input is `Data`,
   * an unknown code `FmtUnknown`), then its chunk. A pass that does not
   * fail moves past the tag and stays inside the data.
   */
  function ItemStep(data: seq<u8>, cur: nat, t: TuneData): (s: Step)
    ensures !s.Fail? ==> cur + CODE_SIZE <= s.next <= |data|
  {
    var code := Take(data, cur, CODE_SIZE);
    if code.Err? then Fail(code.error)
    else match FromCode(code.value.value)
      case None => Fail(FmtUnknown)
      case Some(tag) => TagStep(tag, data, code.value.next, t)
  }

  /** Where the read loop ends: the first error, or no error, the state and the position after the end tag. */
  datatype Run = Run(error: Option<ReadError>, tune: TuneData, next: nat)

  /**
   * `read_tune_items` as a function: chunks are applied one after the
   * other until an end tag or the first error. On an error the state is
   * the one the chunks before it left.
   */
  function RunItems(data: seq<u8>, cur: nat, t: TuneData): (r: Run)
    ensures r.error.None? ==> cur + CODE_SIZE <= r.next <= |data|
    decreases |data| - cur
  {
    match ItemStep(data, cur, t)
    case Fail(e) => Run(Some(e), t, cur)
    case Finish(t', n) => Run(None, t', n)
    case Continue(t', n) => RunItems(data, n, t')
  }

  /**
   * `read`: the version header, then the chunks, read into `start`. An
   * unknown header leaves `start` as it was; after it, the format is set
   * before the first chunk.
   */
  function ReadTune(data: seq<u8>, start: TuneData): Run
  {
    var v := ParseVersion(data, 0);
    if v.Err? then Run(Some(v.error), start, 0)
    else RunItems(data, v.value.next, start.(fmt := v.value.value))
  }

  // ---------------------------------------------------------------------
  // What the read loop accepts and refuses
  // ---------------------------------------------------------------------

  /** A known tag at `cur` is read and its chunk follows at `cur + 8`. */
  lemma ItemStepAt(data: seq<u8>, cur: nat, tag: Tag, t: TuneData)
    requires At(data, cur, ToCode(tag))
    ensures ItemStep(data, cur, t) == TagStep(tag, data, cur + CODE_SIZE, t)
  {
    hide TagStep, ToCode, FromCode;
    TakeAt(data, cur, ToCode(tag));
    TagRoundTrip(tag);
  }

  /**
   * The loop's refusals and its end: a short input is `Data` and an
   * unknown code `FmtUnknown`; `antiOPER` is `AntiOpreation`; a tag only
   * older versions use is `OldUnsupported`; an end tag ends the loop right
   * after it, with the state as it was. An error stops the loop with the
   * state the earlier chunks left.
   */
  lemma RunItemsRefusals(data: seq<u8>, cur: nat, t: TuneData)
    ensures cur + CODE_SIZE > |data| ==> RunItems(data, cur, t) == Run(Some(Data), t, cur)
    ensures cur + CODE_SIZE <= |data| && FromCode(data[cur..cur + CODE_SIZE]).None? ==>
              RunItems(data, cur, t) == Run(Some(FmtUnknown), t, cur)
    ensures At(data, cur, ToCode(AntiOPER)) ==> RunItems(data, cur, t) == Run(Some(AntiOpreation), t, cur)
    ensures forall tag: Tag :: At(data, cur, ToCode(tag)) && IsOldTag(tag) ==>
              RunItems(data, cur, t) == Run(Some(OldUnsupported), t, cur)
    ensures At(data, cur, ToCode(PxtoneND)) || At(data, cur, ToCode(V1End)) ==>
              RunItems(data, cur, t) == Run(None, t, cur + CODE_SIZE)
  {
    hide ToCode, FromCode, ParseUnitNum, Master.ParseMasterV5, Event.ParseEveList, VoiceIo.ParseMatePcm, VoiceIo.ParseMatePtv,
      VoiceIo.ParseMatePtn, VoiceIo.ParseOgg, ParseDelay, ParseOverdrive, ParseText, ParseAssistVoice, ParseUnit;
    forall tag: Tag | At(data, cur, ToCode(tag))
      ensures ItemStep(data, cur, t) == TagStep(tag, data, cur + CODE_SIZE, t)
    {
      ItemStepAt(data, cur, tag, t);
    }
  }

  /** The tags of versions 1, 3 and 4 that this reader refuses. */
  predicate IsOldTag(tag: Tag)
  {
    tag.V4EvenMast? || tag.V4EvenUnit? || tag.V3Unit? || tag.V1Proj? || tag.V1Unit? || tag.V1Event?
  }

  /** Only the two end tags finish a pass, without reading anything after them. */
  lemma TagStepFinish(tag: Tag, data: seq<u8>, c: nat, t: TuneData)
    requires TagStep(tag, data, c, t).Finish?
    ensures (tag == PxtoneND || tag == V1End) && TagStep(tag, data, c, t) == Finish(t, c)
  {
    hide ParseUnitNum, Master.ParseMasterV5, Event.ParseEveList, VoiceIo.ParseMatePcm, VoiceIo.ParseMatePtv,
      VoiceIo.ParseMatePtn, VoiceIo.ParseOgg, ParseDelay, ParseOverdrive, ParseText, ParseAssistVoice, ParseUnit;
  }

  /** Only an end tag finishes a pass, and the pass ends right after it. */
  lemma FinishAtEndTag(data: seq<u8>, cur: nat, t: TuneData)
    requires ItemStep(data, cur, t).Finish?
    ensures var n := ItemStep(data, cur, t).next;
            n == cur + CODE_SIZE && (At(data, cur, ToCode(PxtoneND)) || At(data, cur, ToCode(V1End)))
  {
    hide ToCode, TagStep;
    var code := Take(data, cur, CODE_SIZE).value.value;
    var tag := FromCode(code).value;
    TagStepFinish(tag, data, cur + CODE_SIZE, t);
    FromCodeExact(code);
  }

  /** A read that succeeds stops right after an end tag, `pxtoneND` or `END=====`. */
  lemma {:induction false} RunEndsAtEndTag(data: seq<u8>, cur: nat, t: TuneData)
    requires RunItems(data, cur, t).error.None?
    ensures var n := RunItems(data, cur, t).next;
            At(data, n - CODE_SIZE, ToCode(PxtoneND)) || At(data, n - CODE_SIZE, ToCode(V1End))
    decreases |data| - cur
  {
    hide ItemStep, ToCode;
    match ItemStep(data, cur, t)
    case Finish(t', n) =>
      FinishAtEndTag(data, cur, t);
    case Continue(t', n) =>
      RunEndsAtEndTag(data, n, t');
  }

  /** One pass of the loop never pushes past the herd's capacities. */
  lemma ItemStepKeepsCapacity(data: seq<u8>, cur: nat, t: TuneData)
    requires InCapacity(t)
    ensures !ItemStep(data, cur, t).Fail? ==> InCapacity(ItemStep(data, cur, t).tune)
  {
    hide ToCode, FromCode, ParseUnitNum, Master.ParseMasterV5, Event.ParseEveList, VoiceIo.ParseMatePcm, VoiceIo.ParseMatePtv,
      VoiceIo.ParseMatePtn, VoiceIo.ParseOgg, ParseDelay, ParseOverdrive, ParseText, ParseAssistVoice, ParseUnit;
  }

  /** Neither does the whole read: at most 50 units, 4 delays and 2 overdrives. */
  lemma {:induction false} RunKeepsCapacity(data: seq<u8>, cur: nat, t: TuneData)
    requires InCapacity(t)
    ensures InCapacity(RunItems(data, cur, t).tune)
    decreases |data| - cur
  {
    hide ItemStep;
    ItemStepKeepsCapacity(data, cur, t);
    match ItemStep(data, cur, t)
    case Fail(_) =>
    case Finish(_, _) =>
    case Continue(t', n) =>
      RunKeepsCapacity(data, n, t');
  }

  // ---------------------------------------------------------------------
  // Writing
  // ---------------------------------------------------------------------

  /** One `effeDELA` chunk as `write_tune_items` appends it. */
  function DelayChunk(d: DelayConfig): seq<u8>
  {
    ToCode(EffeDELA) + EncodeDelay(d)
  }

  /** One `effeOVER` chunk as `write_tune_items` appends it. */
  function OverdriveChunk(o: OverdriveConfig): seq<u8>
  {
    ToCode(EffeOVER) + EncodeOverdrive(o)
  }

  /** The delay chunks, in order. */
  function EncodeDelays(ds: seq<DelayConfig>): (bytes: seq<u8>)
    ensures |bytes| == 24 * |ds|
  {
    if ds == [] then [] else EncodeDelays(ds[..|ds| - 1]) + DelayChunk(ds[|ds| - 1])
  }

  /** The overdrive chunks, in order. */
  function EncodeOverdrives(os: seq<OverdriveConfig>): (bytes: seq<u8>)
    ensures |bytes| == 28 * |os|
  {
    if os == [] then [] else EncodeOverdrives(os[..|os| - 1]) + OverdriveChunk(os[|os| - 1])
  }

  /** The song's chunks: the master, the events, and the name and the comment when they are not empty. */
  function SongChunks(t: TuneData): seq<u8>
  {
    ToCode(MasterV5) + Master.EncodeMasterV5(t.master) + ToCode(EventV5) + Event.EncodeEveList(t.events)
    + EncodeText(TextNAME, t.name) + EncodeText(TextCOMM, t.comment)
  }

  /** The herd's effect chunks: every delay, then every overdrive. */
  function EffectChunks(t: TuneData): seq<u8>
  {
    EncodeDelays(t.delays) + EncodeOverdrives(t.overdrives)
  }

  /** The unit chunks: the count, then the names of the named units. */
  function UnitChunks(t: TuneData): seq<u8>
    requires |t.units| <= MAX_UNITS
  {
    ToCode(NumUNIT) + EncodeUnitNum(|t.units|) + EncodeUnits(t.units)
  }

  /**
   * What `write_tune_items` appends: the song's chunks, the effects, the
   * voices (`voiceChunks`: what the voice writers append in order), and
   * the units.
   */
  function EncodeTuneItems(t: TuneData, voiceChunks: seq<u8>): seq<u8>
    requires |t.units| <= MAX_UNITS
  {
    SongChunks(t) + EffectChunks(t) + voiceChunks + UnitChunks(t)
  }

  /** The four bytes `write` appends after the end tag. */
  const TAIL: seq<u8> := [0, 0, 0, 0]

  /**
   * `write`: the version header (a version 1 tune is refused), the items,
   * the end tag and four zero bytes. A voice that cannot be written fails
   * the whole write.
   */
  function EncodeTune(t: TuneData, voiceChunks: Result<seq<u8>, WriteError>): (r: Result<seq<u8>, WriteError>)
    requires |t.units| <= MAX_UNITS
    ensures r.Ok? <==> EncodeVersion(t.fmt).Ok? && voiceChunks.Ok?
  {
    var header :- EncodeVersion(t.fmt);
    var voices :- voiceChunks;
    Ok(header + EncodeTuneItems(t, voices) + ToCode(PxtoneND) + TAIL)
  }

  // ---------------------------------------------------------------------
  // Reading back what was written
  // ---------------------------------------------------------------------

  /** The state a written song reads back as: a measure count of 1, and only the events `write` emits. */
  function Reread(t: TuneData): TuneData
  {
    t.(master := t.master.(measNum := 1), events := Event.EveListState(Event.Written(t.events.eves), t.events.serSize))
  }

  /** A master chunk whose loop points fit in `u32` ticks of a timing without zero divisors. */
  predicate MasterWritable(m: Master.MasterState)
  {
    && Timing.Divisible(m.timing) && Master.ValidLoopPoints(m.loopPoints)
    && Timing.MeasFits(m.loopPoints.repeat, m.timing)
    && (m.loopPoints.last.Some? ==> Timing.MeasFits(m.loopPoints.last.value, m.timing))
  }

  /** An event list sorted by tick whose written events all have an encoding. */
  predicate EventsWritable(l: Event.EveListState)
  {
    && |l.eves| < 0x1_0000_0000 && Event.SortedFrom(l.eves, 0)
    && forall i :: 0 <= i < |l.eves| && !l.eves[i].payload.PtcowDebug? ==> Event.Representable(l.eves[i].payload)
  }

  /** Overdrives whose cut and amplification lie in the ranges the reader accepts. */
  predicate OverdrivesWritable(os: seq<OverdriveConfig>)
  {
    forall i :: 0 <= i < |os| ==> F32.InRange(os[i].cut, CUT_LO, CUT_HI) && F32.InRange(os[i].amp, AMP_LO, AMP_HI)
  }

  /** A name that fits its 16-byte field and has no zero byte to cut it short. */
  predicate PlainName(name: seq<u8>)
  {
    |name| <= NAME_SIZE && forall i :: 0 <= i < |name| ==> name[i] != 0
  }

  predicate PlainNames(names: seq<seq<u8>>)
  {
    forall i :: 0 <= i < |names| ==> PlainName(names[i])
  }

  /** A song without voices whose every part survives the file format. */
  predicate Writable(t: TuneData)
  {
    && !(t.fmt.ver == V1 && t.fmt.kind == FmtKind.Tune)
    && MasterWritable(t.master) && EventsWritable(t.events)
    && |t.name| < 0x1_0000_0000 && |t.comment| < 0x1_0000_0000
    && InCapacity(t) && OverdrivesWritable(t.overdrives) && PlainNames(t.units)
    && t.voices == []
  }

  /** A piece found at `cur` splits the data around it. */
  lemma Reframe(data: seq<u8>, cur: nat, e: seq<u8>)
    requires At(data, cur, e)
    ensures data == data[..cur] + e + data[cur + |e|..]
  {
  }

  /** A pass that continues can be skipped: the rest of the loop starts where it ended. */
  lemma RunContinues(data: seq<u8>, cur: nat, tag: Tag, t: TuneData, t': TuneData, n: nat)
    requires At(data, cur, ToCode(tag)) && TagStep(tag, data, cur + CODE_SIZE, t) == Continue(t', n)
    ensures RunItems(data, cur, t) == RunItems(data, n, t')
  {
    hide TagStep, ToCode;
    ItemStepAt(data, cur, tag, t);
  }

  /** A written master chunk sets the master. */
  lemma MasterChunkRead(data: seq<u8>, cur: nat, t: TuneData, m: Master.MasterState)
    requires At(data, cur, ToCode(MasterV5) + Master.EncodeMasterV5(m)) && MasterWritable(m)
    ensures RunItems(data, cur, t) == RunItems(data, cur + 27, t.(master := m.(measNum := 1)))
  {
    hide ToCode, Master.EncodeMasterV5, RunItems, ParseUnitNum, Master.ParseMasterV5, Event.ParseEveList, VoiceIo.ParseMatePcm, VoiceIo.ParseMatePtv,
      VoiceIo.ParseMatePtn, VoiceIo.ParseOgg, ParseDelay, ParseOverdrive, ParseText, ParseAssistVoice, ParseUnit;
    var e := Master.EncodeMasterV5(m);
    AtSplit(data, cur, ToCode(MasterV5), e);
    Reframe(data, cur + 8, e);
    Master.MasterV5RoundTrip(data[..cur + 8], m, data[cur + 8 + |e|..]);
    RunContinues(data, cur, MasterV5, t, t.(master := m.(measNum := 1)), cur + 27);
  }

  /** A written event chunk sets the events to the ones written. */
  lemma EventsChunkRead(data: seq<u8>, cur: nat, t: TuneData, l: Event.EveListState)
    requires At(data, cur, ToCode(EventV5) + Event.EncodeEveList(l)) && EventsWritable(l)
    ensures RunItems(data, cur, t)
            == RunItems(data, cur + 8 + |Event.EncodeEveList(l)|,
                        t.(events := Event.EveListState(Event.Written(l.eves), l.serSize)))
  {
    hide ToCode, Event.EncodeEveList, RunItems, ParseUnitNum, Master.ParseMasterV5, Event.ParseEveList, VoiceIo.ParseMatePcm, VoiceIo.ParseMatePtv,
      VoiceIo.ParseMatePtn, VoiceIo.ParseOgg, ParseDelay, ParseOverdrive, ParseText, ParseAssistVoice, ParseUnit;
    var e := Event.EncodeEveList(l);
    AtSplit(data, cur, ToCode(EventV5), e);
    Reframe(data, cur + 8, e);
    Event.EveListRoundTrip(data[..cur + 8], l, data[cur + 8 + |e|..]);
    RunContinues(data, cur, EventV5, t, t.(events := Event.EveListState(Event.Written(l.eves), l.serSize)), cur + 8 + |e|);
  }

  /** A written, non-empty text chunk holds its tag and a text that parses back. */
  lemma TextChunkParsed(data: seq<u8>, cur: nat, tag: Tag, text: seq<u8>)
    requires text != [] && |text| < 0x1_0000_0000 && At(data, cur, EncodeText(tag, text))
    ensures At(data, cur, ToCode(tag))
    ensures ParseText(data, cur + 8) == Ok(Parsed(text, cur + |EncodeText(tag, text)|))
  {
    hide ToCode, ParseText;
    var e := Le32(|text|) + text;
    assert Wrap32(|text|) == |text|;
    assert EncodeText(tag, text) == ToCode(tag) + e;
    AtSplit(data, cur, ToCode(tag), e);
    Reframe(data, cur + 8, e);
    assert data == data[..cur + 8] + Le32(|text|) + text + data[cur + 8 + |e|..];
    TextRoundTrip(data[..cur + 8], text, data[cur + 8 + |e|..]);
  }

  /** A written text chunk sets the name or the comment; an empty text writes nothing and sets nothing. */
  lemma TextChunkRead(data: seq<u8>, cur: nat, t: TuneData, tag: Tag, text: seq<u8>)
    requires tag == TextNAME || tag == TextCOMM
    requires At(data, cur, EncodeText(tag, text)) && |text| < 0x1_0000_0000
    ensures RunItems(data, cur, t)
            == RunItems(data, cur + |EncodeText(tag, text)|,
                        if text == [] then t else if tag == TextNAME then t.(name := text) else t.(comment := text))
  {
    hide ToCode, RunItems, ParseUnitNum, Master.ParseMasterV5, Event.ParseEveList, VoiceIo.ParseMatePcm, VoiceIo.ParseMatePtv,
      VoiceIo.ParseMatePtn, VoiceIo.ParseOgg, ParseDelay, ParseOverdrive, ParseText, ParseAssistVoice, ParseUnit;
    if text == [] {
      assert EncodeText(tag, text) == [];
    } else {
      TextChunkParsed(data, cur, tag, text);
      if tag == TextNAME {
        RunContinues(data, cur, TextNAME, t, t.(name := text), cur + |EncodeText(tag, text)|);
      } else {
        RunContinues(data, cur, TextCOMM, t, t.(comment := text), cur + |EncodeText(tag, text)|);
      }
    }
  }

  /** A written delay chunk adds the delay. */
  lemma DelayChunkRead(data: seq<u8>, cur: nat, t: TuneData, d: DelayConfig)
    requires At(data, cur, DelayChunk(d)) && |t.delays| < MAX_DELAYS
    ensures RunItems(data, cur, t) == RunItems(data, cur + 24, t.(delays := t.delays + [d]))
  {
    hide ToCode, EncodeDelay, RunItems, ParseUnitNum, Master.ParseMasterV5, Event.ParseEveList, VoiceIo.ParseMatePcm, VoiceIo.ParseMatePtv,
      VoiceIo.ParseMatePtn, VoiceIo.ParseOgg, ParseDelay, ParseOverdrive, ParseText, ParseAssistVoice, ParseUnit;
    var e := EncodeDelay(d);
    AtSplit(data, cur, ToCode(EffeDELA), e);
    Reframe(data, cur + 8, e);
    DelayRoundTrip(data[..cur + 8], d, data[cur + 8 + |e|..]);
    RunContinues(data, cur, EffeDELA, t, t.(delays := t.delays + [d]), cur + 24);
  }

  /** The delay chunks add the delays, in order. */
  lemma {:induction false} DelayChunksRead(data: seq<u8>, cur: nat, t: TuneData, ds: seq<DelayConfig>)
    requires At(data, cur, EncodeDelays(ds)) && |t.delays| + |ds| <= MAX_DELAYS
    ensures RunItems(data, cur, t) == RunItems(data, cur + 24 * |ds|, t.(delays := t.delays + ds))
  {
    hide RunItems, DelayChunk;
    if ds == [] {
      assert t.delays + ds == t.delays;
    } else {
      var init, last := ds[..|ds| - 1], ds[|ds| - 1];
      AtSplit(data, cur, EncodeDelays(init), DelayChunk(last));
      DelayChunksRead(data, cur, t, init);
      DelayChunkRead(data, cur + 24 * |init|, t.(delays := t.delays + init), last);
      assert t.delays + init + [last] == t.delays + ds;
    }
  }

  /** A written overdrive chunk in the accepted ranges adds the overdrive. */
  lemma OverdriveChunkRead(data: seq<u8>, cur: nat, t: TuneData, o: OverdriveConfig)
    requires At(data, cur, OverdriveChunk(o)) && |t.overdrives| < MAX_OVERDRIVES
    requires F32.InRange(o.cut, CUT_LO, CUT_HI) && F32.InRange(o.amp, AMP_LO, AMP_HI)
    ensures RunItems(data, cur, t) == RunItems(data, cur + 28, t.(overdrives := t.overdrives + [o]))
  {
    hide ToCode, EncodeOverdrive, RunItems, ParseUnitNum, Master.ParseMasterV5, Event.ParseEveList, VoiceIo.ParseMatePcm, VoiceIo.ParseMatePtv,
      VoiceIo.ParseMatePtn, VoiceIo.ParseOgg, ParseDelay, ParseOverdrive, ParseText, ParseAssistVoice, ParseUnit;
    var e := EncodeOverdrive(o);
    AtSplit(data, cur, ToCode(EffeOVER), e);
    Reframe(data, cur + 8, e);
    OverdriveRoundTrip(data[..cur + 8], o, data[cur + 8 + |e|..]);
    RunContinues(data, cur, EffeOVER, t, t.(overdrives := t.overdrives + [o]), cur + 28);
  }

  /** The overdrive chunks add the overdrives, in order. */
  lemma {:induction false} OverdriveChunksRead(data: seq<u8>, cur: nat, t: TuneData, os: seq<OverdriveConfig>)
    requires At(data, cur, EncodeOverdrives(os)) && |t.overdrives| + |os| <= MAX_OVERDRIVES
    requires OverdrivesWritable(os)
    ensures RunItems(data, cur, t) == RunItems(data, cur + 28 * |os|, t.(overdrives := t.overdrives + os))
  {
    hide RunItems, OverdriveChunk;
    if os == [] {
      assert t.overdrives + os == t.overdrives;
    } else {
      var init, last := os[..|os| - 1], os[|os| - 1];
      AtSplit(data, cur, EncodeOverdrives(init), OverdriveChunk(last));
      OverdriveChunksRead(data, cur, t, init);
      OverdriveChunkRead(data, cur + 28 * |init|, t.(overdrives := t.overdrives + init), last);
      assert t.overdrives + init + [last] == t.overdrives + os;
    }
  }

  /** A written unit count adds that many unnamed units. */
  lemma UnitNumChunkRead(data: seq<u8>, cur: nat, t: TuneData, n: nat)
    requires n <= MAX_UNITS && At(data, cur, ToCode(NumUNIT) + EncodeUnitNum(n)) && t.units == []
    ensures RunItems(data, cur, t) == RunItems(data, cur + 16, t.(units := Unnamed(n)))
  {
    hide ToCode, EncodeUnitNum, RunItems, ParseUnitNum, Master.ParseMasterV5, Event.ParseEveList, VoiceIo.ParseMatePcm, VoiceIo.ParseMatePtv,
      VoiceIo.ParseMatePtn, VoiceIo.ParseOgg, ParseDelay, ParseOverdrive, ParseText, ParseAssistVoice, ParseUnit;
    var e := EncodeUnitNum(n);
    AtSplit(data, cur, ToCode(NumUNIT), e);
    Reframe(data, cur + 8, e);
    UnitNumRoundTrip(data[..cur + 8], n, data[cur + 8 + |e|..]);
    assert t.units + Unnamed(n) == Unnamed(n);
    RunContinues(data, cur, NumUNIT, t, t.(units := Unnamed(n)), cur + 16);
  }

  /** A written name chunk for unit `i` names that unit; an unnamed unit writes nothing. */
  lemma UnitEntryRead(data: seq<u8>, cur: nat, t: TuneData, i: nat, name: seq<u8>)
    requires i < |t.units| && i < MAX_UNITS && PlainName(name)
    requires At(data, cur, EncodeUnitEntry(i, name))
    ensures RunItems(data, cur, t)
            == RunItems(data, cur + |EncodeUnitEntry(i, name)|,
                        if name == NO_NAME then t else t.(units := t.units[i := name]))
  {
    hide ToCode, EncodeUnit, RunItems, ParseUnitNum, Master.ParseMasterV5, Event.ParseEveList, VoiceIo.ParseMatePcm, VoiceIo.ParseMatePtv,
      VoiceIo.ParseMatePtn, VoiceIo.ParseOgg, ParseDelay, ParseOverdrive, ParseText, ParseAssistVoice, ParseUnit;
    if name != NO_NAME {
      var e := EncodeUnit(i, name);
      assert EncodeUnitEntry(i, name) == ToCode(AssiUNIT) + e;
      AtSplit(data, cur, ToCode(AssiUNIT), e);
      Reframe(data, cur + 8, e);
      UnitRoundTrip(data[..cur + 8], i, name, data[cur + 8 + |e|..], |t.units|);
      assert CutAtZero(name[..Min(|name|, NAME_SIZE)]) == name by {
        assert name[..Min(|name|, NAME_SIZE)] == name;
        assert FirstZero(name, 0) == |name|;
      }
      RunContinues(data, cur, AssiUNIT, t, t.(units := t.units[i := name]), cur + 32);
    }
  }

  /** The units named after reading the first `i` name chunks: those `i` names, then unnamed ones. */
  function NamedPrefix(names: seq<seq<u8>>, i: nat): (units: seq<seq<u8>>)
    requires i <= |names|
    ensures |units| == |names|
  {
    names[..i] + Unnamed(|names| - i)
  }

  /** The name chunks of the first `i` units name those units, in order. */
  lemma {:induction false} UnitEntriesRead(data: seq<u8>, cur: nat, t: TuneData, names: seq<seq<u8>>, i: nat)
    requires i <= |names| <= MAX_UNITS && PlainNames(names)
    requires t.units == Unnamed(|names|)
    requires At(data, cur, EncodeUnits(names[..i]))
    ensures RunItems(data, cur, t)
            == RunItems(data, cur + |EncodeUnits(names[..i])|, t.(units := NamedPrefix(names, i)))
  {
    hide RunItems, EncodeUnitEntry, EncodeUnits;
    if i == 0 {
      EncodeUnitsEmpty(names);
      assert NamedPrefix(names, 0) == t.units;
    } else {
      var j := i - 1;
      EncodeUnitsSnoc(names, j);
      AtSplit(data, cur, EncodeUnits(names[..j]), EncodeUnitEntry(j, names[j]));
      UnitEntriesRead(data, cur, t, names, j);
      var tj := t.(units := NamedPrefix(names, j));
      UnitEntryRead(data, cur + |EncodeUnits(names[..j])|, tj, j, names[j]);
      assert NamedPrefix(names, j)[j := names[j]] == NamedPrefix(names, i);
      if names[j] == NO_NAME {
        assert NamedPrefix(names, j) == NamedPrefix(names, i);
      }
    }
  }

  /** The master chunk and then the event chunk set the master and the events. */
  lemma MasterEventsRead(data: seq<u8>, cur: nat, t: TuneData, src: TuneData)
    requires At(data, cur, ToCode(MasterV5) + Master.EncodeMasterV5(src.master) + (ToCode(EventV5) + Event.EncodeEveList(src.events)))
    requires MasterWritable(src.master) && EventsWritable(src.events)
    ensures RunItems(data, cur, t)
            == RunItems(data, cur + 35 + |Event.EncodeEveList(src.events)|,
                        t.(master := Reread(src).master, events := Reread(src).events))
  {
    hide RunItems, ToCode, Master.EncodeMasterV5, Event.EncodeEveList, TagStep, ItemStep, FromCode, MasterWritable,
      EventsWritable, ParseUnitNum, Master.ParseMasterV5, Event.ParseEveList, VoiceIo.ParseMatePcm, VoiceIo.ParseMatePtv,
      VoiceIo.ParseMatePtn, VoiceIo.ParseOgg, ParseDelay, ParseOverdrive, ParseText, ParseAssistVoice, ParseUnit;
    var a := ToCode(MasterV5) + Master.EncodeMasterV5(src.master);
    AtSplit(data, cur, a, ToCode(EventV5) + Event.EncodeEveList(src.events));
    MasterChunkRead(data, cur, t, src.master);
    EventsChunkRead(data, cur + 27, t.(master := src.master.(measNum := 1)), src.events);
  }

  /** The song's chunks set the master, the events, the name and the comment. */
  lemma SongChunksRead(data: seq<u8>, cur: nat, t: TuneData, src: TuneData)
    requires At(data, cur, SongChunks(src)) && t.name == [] && t.comment == []
    requires MasterWritable(src.master) && EventsWritable(src.events)
    requires |src.name| < 0x1_0000_0000 && |src.comment| < 0x1_0000_0000
    ensures RunItems(data, cur, t)
            == RunItems(data, cur + |SongChunks(src)|,
                        t.(master := Reread(src).master, events := Reread(src).events, name := src.name, comment := src.comment))
  {
    hide RunItems, ToCode, Master.EncodeMasterV5, Event.EncodeEveList, EncodeText, TagStep, ItemStep, FromCode, MasterWritable,
      EventsWritable, Reread, ParseUnitNum, Master.ParseMasterV5, Event.ParseEveList, VoiceIo.ParseMatePcm, VoiceIo.ParseMatePtv,
      VoiceIo.ParseMatePtn, VoiceIo.ParseOgg, ParseDelay, ParseOverdrive, ParseText, ParseAssistVoice, ParseUnit;
    var ab := ToCode(MasterV5) + Master.EncodeMasterV5(src.master) + (ToCode(EventV5) + Event.EncodeEveList(src.events));
    var c := EncodeText(TextNAME, src.name);
    var d := EncodeText(TextCOMM, src.comment);
    assert SongChunks(src) == ab + c + d;
    AtSplit(data, cur, ab + c, d);
    AtSplit(data, cur, ab, c);
    MasterEventsRead(data, cur, t, src);
    var t2 := t.(master := Reread(src).master, events := Reread(src).events);
    TextChunkRead(data, cur + |ab|, t2, TextNAME, src.name);
    var t3 := t2.(name := src.name);
    TextChunkRead(data, cur + |ab| + |c|, t3, TextCOMM, src.comment);
    assert (if src.name == [] then t2 else t3) == t3;
    assert (if src.comment == [] then t3 else t3.(comment := src.comment)) == t3.(comment := src.comment);
  }

  /** The effect chunks add the delays and then the overdrives. */
  lemma EffectChunksRead(data: seq<u8>, cur: nat, t: TuneData, src: TuneData)
    requires At(data, cur, EffectChunks(src)) && t.delays == [] && t.overdrives == []
    requires |src.delays| <= MAX_DELAYS && |src.overdrives| <= MAX_OVERDRIVES && OverdrivesWritable(src.overdrives)
    ensures RunItems(data, cur, t)
            == RunItems(data, cur + |EffectChunks(src)|, t.(delays := src.delays, overdrives := src.overdrives))
  {
    hide RunItems, EncodeDelays, EncodeOverdrives;
    AtSplit(data, cur, EncodeDelays(src.delays), EncodeOverdrives(src.overdrives));
    DelayChunksRead(data, cur, t, src.delays);
    assert t.delays + src.delays == src.delays;
    OverdriveChunksRead(data, cur + 24 * |src.delays|, t.(delays := src.delays), src.overdrives);
    assert t.overdrives + src.overdrives == src.overdrives;
  }

  /** The unit chunks make the units and name them. */
  lemma UnitChunksRead(data: seq<u8>, cur: nat, t: TuneData, src: TuneData)
    requires |src.units| <= MAX_UNITS && PlainNames(src.units)
    requires At(data, cur, UnitChunks(src)) && t.units == []
    ensures RunItems(data, cur, t) == RunItems(data, cur + |UnitChunks(src)|, t.(units := src.units))
  {
    hide RunItems, ToCode, EncodeUnitNum, EncodeUnits;
    var names := src.units;
    var a := ToCode(NumUNIT) + EncodeUnitNum(|names|);
    assert UnitChunks(src) == a + EncodeUnits(names);
    AtSplit(data, cur, a, EncodeUnits(names));
    UnitNumChunkRead(data, cur, t, |names|);
    assert names[..|names|] == names;
    UnitEntriesRead(data, cur + 16, t.(units := Unnamed(|names|)), names, |names|);
    assert NamedPrefix(names, |names|) == names;
  }

  /** The items of a writable song, followed by the end tag, read back as the song. */
  lemma ItemsReadBack(data: seq<u8>, cur: nat, t: TuneData)
    requires Writable(t)
    requires At(data, cur, SongChunks(t) + EffectChunks(t) + UnitChunks(t) + ToCode(PxtoneND))
    ensures RunItems(data, cur, EmptyTune().(fmt := t.fmt))
            == Run(None, Reread(t), cur + |SongChunks(t) + EffectChunks(t) + UnitChunks(t)| + 8)
  {
    hide RunItems, ToCode, SongChunks, EffectChunks, UnitChunks, TagStep, ItemStep, FromCode, Master.EncodeMasterV5, Event.EncodeEveList, EncodeText, EncodeDelays, EncodeOverdrives, EncodeUnitNum, EncodeUnits, ParseUnitNum, Master.ParseMasterV5, Event.ParseEveList, VoiceIo.ParseMatePcm, VoiceIo.ParseMatePtv,
      VoiceIo.ParseMatePtn, VoiceIo.ParseOgg, ParseDelay, ParseOverdrive, ParseText, ParseAssistVoice, ParseUnit;
    var sc, ec, uc := SongChunks(t), EffectChunks(t), UnitChunks(t);
    AtSplit(data, cur, sc + ec + uc, ToCode(PxtoneND));
    AtSplit(data, cur, sc + ec, uc);
    AtSplit(data, cur, sc, ec);
    var s0 := EmptyTune().(fmt := t.fmt);
    SongChunksRead(data, cur, s0, t);
    var s1 := s0.(master := Reread(t).master, events := Reread(t).events, name := t.name, comment := t.comment);
    EffectChunksRead(data, cur + |sc|, s1, t);
    var s2 := s1.(delays := t.delays, overdrives := t.overdrives);
    UnitChunksRead(data, cur + |sc| + |ec|, s2, t);
    var s3 := s2.(units := t.units);
    RunItemsRefusals(data, cur + |sc| + |ec| + |uc|, s3);
    assert s3 == Reread(t);
  }

  /** A song without voices is written as its header, its items, the end tag and the tail. */
  lemma EncodeTuneLayout(t: TuneData)
    requires !(t.fmt.ver == V1 && t.fmt.kind == FmtKind.Tune) && |t.units| <= MAX_UNITS
    ensures EncodeTune(t, Ok([])).Ok? && EncodeVersion(t.fmt).Ok?
    ensures EncodeTune(t, Ok([])).value
            == EncodeVersion(t.fmt).value + (SongChunks(t) + EffectChunks(t) + UnitChunks(t) + ToCode(PxtoneND)) + TAIL
  {
    hide ToCode, SongChunks, EffectChunks, UnitChunks, EncodeVersion;
    assert EncodeTuneItems(t, []) == SongChunks(t) + EffectChunks(t) + UnitChunks(t);
  }

  lemma Regroup(a: seq<u8>, b: seq<u8>, c: seq<u8>)
    ensures a + b + c == [] + a + (b + c)
  {
  }

  /** The written song starts with its version header. */
  lemma WrittenHeader(t: TuneData)
    requires !(t.fmt.ver == V1 && t.fmt.kind == FmtKind.Tune) && |t.units| <= MAX_UNITS
    ensures EncodeTune(t, Ok([])).Ok?
    ensures ParseVersion(EncodeTune(t, Ok([])).value, 0) == Ok(Parsed(t.fmt, 20))
  {
    EncodeTuneLayout(t);
    hide ToCode, SongChunks, EffectChunks, UnitChunks, EncodeVersion, ParseVersion, EncodeTune, At;
    var body := SongChunks(t) + EffectChunks(t) + UnitChunks(t) + ToCode(PxtoneND);
    Regroup(EncodeVersion(t.fmt).value, body, TAIL);
    VersionRoundTrip([], t.fmt, body + TAIL);
  }

  /** The written song holds its items and the end tag right after the header, and then the tail. */
  lemma WrittenBody(t: TuneData)
    requires !(t.fmt.ver == V1 && t.fmt.kind == FmtKind.Tune) && |t.units| <= MAX_UNITS
    ensures EncodeTune(t, Ok([])).Ok?
    ensures var data := EncodeTune(t, Ok([])).value;
            && At(data, 20, SongChunks(t) + EffectChunks(t) + UnitChunks(t) + ToCode(PxtoneND))
            && |data| == 20 + |SongChunks(t) + EffectChunks(t) + UnitChunks(t)| + 8 + 4
  {
    EncodeTuneLayout(t);
    hide ToCode, SongChunks, EffectChunks, UnitChunks, EncodeVersion, ParseVersion, EncodeTune;
    AtWritten(EncodeVersion(t.fmt).value, SongChunks(t) + EffectChunks(t) + UnitChunks(t) + ToCode(PxtoneND), TAIL);
  }

  /**
   * A song without voices that the format can hold reads back as written:
   * reading what `write` produced into a new project succeeds, ends right
   * after the end tag, and gives the same song up to the measure count
   * (which `write` does not keep) and the events `write` leaves out.
   */
  lemma TuneRoundTrip(t: TuneData)
    requires Writable(t)
    ensures EncodeTune(t, Ok([])).Ok?
    ensures var data := EncodeTune(t, Ok([])).value;
            ReadTune(data, EmptyTune()) == Run(None, Reread(t), |data| - 4)
  {
    WrittenHeader(t);
    WrittenBody(t);
    hide RunItems, ToCode, SongChunks, EffectChunks, UnitChunks, EncodeVersion, ParseVersion, Reread, TagStep, ItemStep,
      FromCode, EncodeTune, At, ParseUnitNum, Master.ParseMasterV5, Event.ParseEveList, VoiceIo.ParseMatePcm, VoiceIo.ParseMatePtv,
      VoiceIo.ParseMatePtn, VoiceIo.ParseOgg, ParseDelay, ParseOverdrive, ParseText, ParseAssistVoice, ParseUnit;
    ItemsReadBack(EncodeTune(t, Ok([])).value, 20, t);
  }

  /** The smallest song, a version header and the end tag, reads back as a new project in that format. */
  lemma EmptySongReadsBack(info: FmtInfo, start: TuneData)
    requires !(info.ver == V1 && info.kind == FmtKind.Tune)
    ensures EncodeVersion(info).Ok?
    ensures var data := EncodeVersion(info).value + ToCode(PxtoneND) + TAIL;
            ReadTune(data, start) == Run(None, start.(fmt := info), 28)
  {
    hide RunItems, ToCode, EncodeVersion, ParseVersion, ParseUnitNum, Master.ParseMasterV5, Event.ParseEveList, VoiceIo.ParseMatePcm, VoiceIo.ParseMatePtv,
      VoiceIo.ParseMatePtn, VoiceIo.ParseOgg, ParseDelay, ParseOverdrive, ParseText, ParseAssistVoice, ParseUnit;
    var v := EncodeVersion(info).value;
    var data := v + ToCode(PxtoneND) + TAIL;
    assert ParseVersion(data, 0) == Ok(Parsed(info, 20)) by {
      VersionRoundTrip([], info, ToCode(PxtoneND) + TAIL);
      assert [] + v + (ToCode(PxtoneND) + TAIL) == data;
    }
    AtWritten(v, ToCode(PxtoneND), TAIL);
    RunItemsRefusals(data, 20, start.(fmt := info));
  }

  // ---------------------------------------------------------------------
  // The reader and the writer
  // ---------------------------------------------------------------------

  /** The song, herd and voice state a project is read into and written from. */
  class Project {
    var fmt: FmtInfo
    var master: Master.MasterState
    var events: Event.EveListState
    var name: seq<u8>
    var comment: seq<u8>
    var units: seq<seq<u8>>
    var delays: seq<DelayConfig>
    var overdrives: seq<OverdriveConfig>
    var voices: seq<VoiceEntry>

    function State(): TuneData
      reads this
    {
      TuneData(fmt, master, events, name, comment, units, delays, overdrives, voices)
    }

    /** A default song, an empty herd and no voices. */
    constructor ()
      ensures State() == EmptyTune()
    {
      fmt, master, events := DefaultFmtInfo(), Master.DefaultMaster(), Event.EveListState([], 0);
      name, comment, units, delays, overdrives, voices := [], [], [], [], [], [];
    }

    /**
     * The `match tag` of the read loop: the chunk is read and applied. On
     * an error nothing is applied; `r` says whether the tag ended the loop.
     */
    method ReadChunk(tag: Tag, rd: Reader) returns (r: Result<bool, ReadError>)
      modifies this, rd`cur
      ensures match TagStep(tag, rd.data, old(rd.cur), old(State()))
              case Fail(e) => r == Err(e) && State() == old(State())
              case Finish(t, n) => r == Ok(true) && State() == t && rd.cur == n
              case Continue(t, n) => r == Ok(false) && State() == t && rd.cur == n
    {
      hide ParseUnitNum, Master.ParseMasterV5, Event.ParseEveList, VoiceIo.ParseMatePcm, VoiceIo.ParseMatePtv,
        VoiceIo.ParseMatePtn, VoiceIo.ParseOgg, ParseDelay, ParseOverdrive, ParseText, ParseAssistVoice, ParseUnit;
      match tag {
        case AntiOPER => return Err(AntiOpreation);
        case MasterV5 => r := ReadSongChunk(tag, rd);
        case EventV5 => r := ReadSongChunk(tag, rd);
        case TextNAME => r := ReadTextChunk(tag, rd);
        case TextCOMM => r := ReadTextChunk(tag, rd);
        case NumUNIT => r := ReadHerdChunk(tag, rd);
        case EffeDELA => r := ReadHerdChunk(tag, rd);
        case EffeOVER => r := ReadHerdChunk(tag, rd);
        case AssiUNIT => r := ReadHerdChunk(tag, rd);
        case MatePCM => r := ReadVoiceChunk(tag, rd);
        case V1Pcm => r := ReadVoiceChunk(tag, rd);
        case MatePTV => r := ReadVoiceChunk(tag, rd);
        case MatePTN => r := ReadVoiceChunk(tag, rd);
        case MateOGGV => r := ReadVoiceChunk(tag, rd);
        case AssiWOIC => r := ReadAssistVoiceChunk(tag, rd);
        case PxtoneND => return Ok(true);
        case V1End => return Ok(true);
        case V4EvenMast => return Err(OldUnsupported);
        case V4EvenUnit => return Err(OldUnsupported);
        case V3Unit => return Err(OldUnsupported);
        case V1Proj => return Err(OldUnsupported);
        case V1Unit => return Err(OldUnsupported);
        case V1Event => return Err(OldUnsupported);
      }
    }

    /** The chunks that set the song's master and events. */
    method ReadSongChunk(tag: Tag, rd: Reader) returns (r: Result<bool, ReadError>)
      requires tag == MasterV5 || tag == EventV5
      modifies this, rd`cur
      ensures match TagStep(tag, rd.data, old(rd.cur), old(State()))
              case Fail(e) => r == Err(e) && State() == old(State())
              case Finish(t, n) => r == Ok(true) && State() == t && rd.cur == n
              case Continue(t, n) => r == Ok(false) && State() == t && rd.cur == n
    {
      hide Master.ParseMasterV5, Event.ParseEveList, ParseText, ParseUnitNum, ParseDelay, ParseOverdrive, ParseUnit,
           ParseAssistVoice, VoiceStep;
      match tag {
        case MasterV5 =>
          var m := new Master.Master();
          var res := m.ReadV5(rd);
          if res.Err? { return Err(res.error); }
          master := m.State();
        case EventV5 =>
          var e := new Event.EveList();
          var res := e.Read(rd);
          if res.Err? { return Err(res.error); }
          events := e.State();
      }
      r := Ok(false);
    }

    /** The chunks that set the song's name and comment. */
    method ReadTextChunk(tag: Tag, rd: Reader) returns (r: Result<bool, ReadError>)
      requires tag == TextNAME || tag == TextCOMM
      modifies this, rd`cur
      ensures match TagStep(tag, rd.data, old(rd.cur), old(State()))
              case Fail(e) => r == Err(e) && State() == old(State())
              case Finish(t, n) => r == Ok(true) && State() == t && rd.cur == n
              case Continue(t, n) => r == Ok(false) && State() == t && rd.cur == n
    {
      hide Master.ParseMasterV5, Event.ParseEveList, ParseText, ParseUnitNum, ParseDelay, ParseOverdrive, ParseUnit,
           ParseAssistVoice, VoiceStep;
      var text := ReadText(rd);
      if text.Err? { return Err(text.error); }
      if tag == TextNAME {
        name := text.value;
      } else {
        comment := text.value;
      }
      r := Ok(false);
    }

    /** The chunks that add units, delays and overdrives to the herd or name a unit. */
    method ReadHerdChunk(tag: Tag, rd: Reader) returns (r: Result<bool, ReadError>)
      requires tag == NumUNIT || tag == EffeDELA || tag == EffeOVER || tag == AssiUNIT
      modifies this, rd`cur
      ensures match TagStep(tag, rd.data, old(rd.cur), old(State()))
              case Fail(e) => r == Err(e) && State() == old(State())
              case Finish(t, n) => r == Ok(true) && State() == t && rd.cur == n
              case Continue(t, n) => r == Ok(false) && State() == t && rd.cur == n
    {
      hide ParseUnitNum, ParseDelay, ParseOverdrive, ParseUnit, Master.ParseMasterV5, Event.ParseEveList, ParseText,
           ParseAssistVoice, VoiceStep;
      match tag {
        case NumUNIT =>
          var num := ReadUnitNum(rd);
          if num.Err? { return Err(num.error); }
          if |units| + num.value > MAX_UNITS { return Err(ReadError.Panic); }
          units := units + Unnamed(num.value);
        case EffeDELA =>
          var d := ReadDelay(rd);
          if d.Err? { return Err(d.error); }
          if |delays| >= MAX_DELAYS { return Err(ReadError.Panic); }
          delays := delays + [d.value];
        case EffeOVER =>
          var o := ReadOverdrive(rd);
          if o.Err? { return Err(o.error); }
          if |overdrives| >= MAX_OVERDRIVES { return Err(ReadError.Panic); }
          overdrives := overdrives + [o.value];
        case AssiUNIT =>
          var un := ReadUnit(rd, |units|);
          if un.Err? { return Err(un.error); }
          units := units[un.value.index := un.value.name];
      }
      r := Ok(false);
    }

    /** The chunks that add a voice (`read_voice`) or name one (`read_assist_voice`). */
    method ReadVoiceChunk(tag: Tag, rd: Reader) returns (r: Result<bool, ReadError>)
      requires tag == MatePCM || tag == V1Pcm || tag == MatePTV || tag == MatePTN || tag == MateOGGV
      modifies this, rd`cur
      ensures match TagStep(tag, rd.data, old(rd.cur), old(State()))
              case Fail(e) => r == Err(e) && State() == old(State())
              case Finish(t, n) => r == Ok(true) && State() == t && rd.cur == n
              case Continue(t, n) => r == Ok(false) && State() == t && rd.cur == n
    {
      hide VoiceIo.ParseMatePcm, VoiceIo.ParseMatePtv, VoiceIo.ParseMatePtn, VoiceIo.ParseOgg, ParseAssistVoice,
           ParseUnitNum, ParseDelay, ParseOverdrive, ParseUnit, Master.ParseMasterV5, Event.ParseEveList, ParseText;
      match tag {
        case MatePCM =>
          var v := VoiceIo.ReadMatePcm(rd);
          r := PushVoice(v);
        case V1Pcm =>
          var v := VoiceIo.ReadMatePcm(rd);
          r := PushVoice(v);
        case MatePTV =>
          var v := VoiceIo.ReadMatePtv(rd);
          r := PushVoice(v);
        case MatePTN =>
          var v := VoiceIo.ReadMatePtn(rd);
          r := PushVoice(v);
        case MateOGGV =>
          var v := VoiceIo.ReadOgg(rd);
          r := PushVoice(v);
      }
    }

    /** `read_assist_voice`: names a voice already read. */
    method ReadAssistVoiceChunk(tag: Tag, rd: Reader) returns (r: Result<bool, ReadError>)
      requires tag == AssiWOIC
      modifies this, rd`cur
      ensures match TagStep(tag, rd.data, old(rd.cur), old(State()))
              case Fail(e) => r == Err(e) && State() == old(State())
              case Finish(t, n) => r == Ok(true) && State() == t && rd.cur == n
              case Continue(t, n) => r == Ok(false) && State() == t && rd.cur == n
    {
      hide VoiceIo.ParseMatePcm, VoiceIo.ParseMatePtv, VoiceIo.ParseMatePtn, VoiceIo.ParseOgg, ParseAssistVoice,
           ParseUnitNum, ParseDelay, ParseOverdrive, ParseUnit, Master.ParseMasterV5, Event.ParseEveList, ParseText;
      var vn := ReadAssistVoice(rd);
      if vn.Err? { return Err(vn.error); }
      if vn.value.index >= |voices| { return Err(ReadError.Panic); }
      voices := voices[vn.value.index := voices[vn.value.index].(name := vn.value.name)];
      r := Ok(false);
    }

    /** `read_voice`'s push: a voice read is added under the default name. */
    method PushVoice(v: Result<seq<VoiceUnit>, ReadError>) returns (r: Result<bool, ReadError>)
      modifies this
      ensures v.Err? ==> r == Err(v.error) && State() == old(State())
      ensures v.Ok? ==> r == Ok(false) && State() == old(State()).(voices := old(voices) + [VoiceEntry(v.value, NO_NAME)])
    {
      if v.Err? { return Err(v.error); }
      voices := voices + [VoiceEntry(v.value, NO_NAME)];
      r := Ok(false);
    }

    /**
     * `read`: a reader over `data` from its start, the version header into
     * the format, then the chunks.
     */
    method Read(data: seq<u8>) returns (r: Result<(), ReadError>)
      modifies this
      ensures var run := ReadTune(data, old(State()));
              State() == run.tune && (r.Ok? <==> run.error.None?) && (r.Err? ==> r.error == run.error.value)
    {
      var rd := new Reader(data);
      var v := ReadVersion(rd);
      if v.Err? { return Err(v.error); }
      fmt := v.value;
      r := ReadTuneItems(rd);
    }

    /** `write_tune_items`. */
    method WriteTuneItems(out: ByteVec, voiceChunks: Result<seq<u8>, WriteError>) returns (r: Result<(), WriteError>)
      requires |units| <= MAX_UNITS
      modifies out
      ensures voiceChunks.Err? ==> r == Err(voiceChunks.error)
      ensures voiceChunks.Ok? ==> r.Ok? && out.bytes == old(out.bytes) + EncodeTuneItems(State(), voiceChunks.value)
    {
      hide SongChunks, EffectChunks, UnitChunks;
      ghost var b0 := out.bytes;
      WriteSongChunks(out);
      WriteEffectChunks(out);
      if voiceChunks.Err? { return Err(voiceChunks.error); }
      out.Extend(voiceChunks.value);
      WriteUnitChunks(out);
      r := Ok(());
    }

    /** The master, the events, the name and the comment. */
    method WriteSongChunks(out: ByteVec)
      modifies out
      ensures out.bytes == old(out.bytes) + SongChunks(State())
    {
      hide Master.EncodeMasterV5, Event.EncodeEveList, EncodeText, ToCode;
      ghost var b0 := out.bytes;
      out.Extend(ToCode(MasterV5));
      var m := new Master.Master();
      m.Set(master);
      m.WriteV5(out);
      out.Extend(ToCode(EventV5));
      var e := new Event.EveList();
      e.eves, e.serSize := events.eves, events.serSize;
      e.Write(out);
      WriteText(out, TextNAME, name);
      WriteText(out, TextCOMM, comment);
    }

    /** Every delay, then every overdrive. */
    method WriteEffectChunks(out: ByteVec)
      modifies out
      ensures out.bytes == old(out.bytes) + EffectChunks(State())
    {
      hide EncodeDelays, EncodeOverdrives;
      WriteDelays(out);
      WriteOverdrives(out);
    }

    /** The loop over the delays. */
    method WriteDelays(out: ByteVec)
      modifies out
      ensures out.bytes == old(out.bytes) + EncodeDelays(delays)
    {
      hide EncodeDelay, ToCode;
      ghost var b0 := out.bytes;
      for i := 0 to |delays|
        invariant out.bytes == b0 + EncodeDelays(delays[..i])
      {
        assert delays[..i + 1][..i] == delays[..i];
        ghost var before := out.bytes;
        WriteDelay(out, delays[i]);
        assert out.bytes == before + DelayChunk(delays[i]);
      }
      assert delays[..|delays|] == delays;
    }

    /** The loop over the overdrives. */
    method WriteOverdrives(out: ByteVec)
      modifies out
      ensures out.bytes == old(out.bytes) + EncodeOverdrives(overdrives)
    {
      hide EncodeOverdrive, ToCode;
      ghost var b0 := out.bytes;
      for i := 0 to |overdrives|
        invariant out.bytes == b0 + EncodeOverdrives(overdrives[..i])
      {
        assert overdrives[..i + 1][..i] == overdrives[..i];
        ghost var before := out.bytes;
        WriteOverdrive(out, overdrives[i]);
        assert out.bytes == before + OverdriveChunk(overdrives[i]);
      }
      assert overdrives[..|overdrives|] == overdrives;
    }

    /** `write_unit_num` and `write_units`. */
    method WriteUnitChunks(out: ByteVec)
      requires |units| <= MAX_UNITS
      modifies out
      ensures out.bytes == old(out.bytes) + UnitChunks(State())
    {
      hide EncodeUnits, EncodeUnitNum, ToCode;
      WriteUnitNum(out, |units|);
      WriteUnits(out, units);
      assert units[..Min(|units|, MAX_UNITS)] == units;
    }

    /** `write`: the whole file, or the first error. */
    method Write(voiceChunks: Result<seq<u8>, WriteError>) returns (r: Result<seq<u8>, WriteError>)
      requires |units| <= MAX_UNITS
      ensures r == EncodeTune(State(), voiceChunks)
    {
      hide EncodeTuneItems, EncodeVersion;
      var out := new ByteVec();
      var v := WriteVersion(out, fmt);
      if v.Err? { return Err(v.error); }
      assert out.bytes == EncodeVersion(fmt).value;
      var items := WriteTuneItems(out, voiceChunks);
      if items.Err? { return Err(items.error); }
      out.Extend(ToCode(PxtoneND));
      out.Extend(TAIL);
      r := Ok(out.bytes);
      assert r.value == EncodeVersion(fmt).value + EncodeTuneItems(State(), voiceChunks.value) + ToCode(PxtoneND) + TAIL;
    }

    /**
     * `read_tune_items`: tags and chunks until an end tag or the first
     * error, as `RunItems` says; on an error the state is what the chunks
     * before it made of it.
     */
    method ReadTuneItems(rd: Reader) returns (r: Result<(), ReadError>)
      modifies this, rd`cur
      ensures var run := RunItems(rd.data, old(rd.cur), old(State()));
              && State() == run.tune
              && (run.error.None? ==> r.Ok? && rd.cur == run.next)
              && (run.error.Some? ==> r == Err(run.error.value))
    {
      ghost var run := RunItems(rd.data, rd.cur, State());
      var end := false;
      while !end
        invariant !end ==> RunItems(rd.data, rd.cur, State()) == run
        invariant end ==> run == Run(None, State(), rd.cur)
        decreases if rd.cur <= |rd.data| then |rd.data| - rd.cur + 1 else 0, !end
      {
        ghost var cur0, t0 := rd.cur, State();
        var tag := ReadTag(rd);
        if tag.Err? { return Err(tag.error); }
        if tag.value.None? { return Err(FmtUnknown); }
        var done := ReadChunk(tag.value.value, rd);
        if done.Err? { return Err(done.error); }
        end := done.value;
      }
      r := Ok(());
    }
  }
}

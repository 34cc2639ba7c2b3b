/**
 * The event list: what a song plays, unit by unit and tick by tick, and its
 * chunk codec, which stores each tick as the delta from the previous one.
 */
module Event {
  import opened Base
  import opened Errors
  import opened Io

  const DEFAULT_VOLUME: u16 := 104
  const DEFAULT_VELOCITY: u16 := 104
  /** The key units start out with. */
  const DEFAULT_KEY: i32 := 24576
  const DEFAULT_BASICKEY: u32 := 17664

  /**
   * `EventPayload`. `Tuning` carries the `f32` as its bit pattern; the unit,
   * voice and group indices are bytes.
   */
  datatype EventPayload =
    | Null
    | On(duration: u32)
    | Key(key: i32)
    | PanVol(panVol: u8)
    | Velocity(velocity: i16)
    | Volume(volume: i16)
    | Portament(duration: u32)
    | BeatClock
    | BeatTempo
    | BeatNum
    | Repeat
    | Last
    | SetVoice(voice: u8)
    | SetGroup(group: u8)
    | Tuning(bits: u32)
    | PanTime(panTime: u8)
    | PtcowDebug(debug: i32)

  /** `Event`: a payload for one unit at one tick. */
  datatype Event = Event(payload: EventPayload, unit: u8, tick: u32)

  /** `EventPayload::discriminant`: the declaration index of the variant. */
  function Discriminant(p: EventPayload): u8
  {
    match p
    case Null => 0
    case On(_) => 1
    case Key(_) => 2
    case PanVol(_) => 3
    case Velocity(_) => 4
    case Volume(_) => 5
    case Portament(_) => 6
    case BeatClock => 7
    case BeatTempo => 8
    case BeatNum => 9
    case Repeat => 10
    case Last => 11
    case SetVoice(_) => 12
    case SetGroup(_) => 13
    case Tuning(_) => 14
    case PanTime(_) => 15
    case PtcowDebug(_) => 16
  }

  /** `event_duration`: the length of a note or a slide; other events have none. */
  function EventDuration(p: EventPayload): Option<u32>
  {
    match p
    case On(d) => Some(d)
    case Portament(d) => Some(d)
    case _ => None
  }

  // ---------------------------------------------------------------------
  // Payload codes
  // ---------------------------------------------------------------------

  /**
   * The payload `read` builds from a kind byte and a varint value. Kinds
   * above 15 are `InvalidData`; a value the payload's type cannot hold makes
   * `try_into().unwrap()` panic. Velocity and volume reinterpret the value as
   * `i32` first.
   */
  function DecodePayload(kind: u8, value: u32): Result<EventPayload, ReadError>
  {
    if kind == 0 then Ok(Null)
    else if kind == 1 then Ok(On(value))
    else if kind == 2 then (if value < 0x8000_0000 then Ok(Key(value)) else Err(ReadError.Panic))
    else if kind == 3 then (if value < 0x100 then Ok(PanVol(value)) else Err(ReadError.Panic))
    else if kind == 4 || kind == 5 then
      var s := AsSigned32(value);
      if -0x8000 <= s < 0x8000 then Ok(if kind == 4 then Velocity(s) else Volume(s))
      else Err(ReadError.Panic)
    else if kind == 6 then Ok(Portament(value))
    else if kind == 7 then Ok(BeatClock)
    else if kind == 8 then Ok(BeatTempo)
    else if kind == 9 then Ok(BeatNum)
    else if kind == 10 then Ok(Repeat)
    else if kind == 11 then Ok(Last)
    else if kind == 12 then (if value < 0x100 then Ok(SetVoice(value)) else Err(ReadError.Panic))
    else if kind == 13 then (if value < 0x100 then Ok(SetGroup(value)) else Err(ReadError.Panic))
    else if kind == 14 then Ok(Tuning(value))
    else if kind == 15 then (if value < 0x100 then Ok(PanTime(value)) else Err(ReadError.Panic))
    else Err(InvalidData)
  }

  /**
   * Decoding: only kinds above 15 are `InvalidData`; a decoded payload is
   * never a debug event and its discriminant is the kind byte.
   */
  lemma DecodePayloadKinds(kind: u8, value: u32)
    ensures DecodePayload(kind, value) == Err(InvalidData) <==> kind > 15
    ensures DecodePayload(kind, value).Ok? ==>
              !DecodePayload(kind, value).value.PtcowDebug? &&
              Discriminant(DecodePayload(kind, value).value) == kind
    ensures kind <= 15 && kind !in {2, 3, 4, 5, 12, 13, 15} ==> DecodePayload(kind, value).Ok?
  {
  }

  /**
   * The kind byte and value `write` emits for a payload, exactly as written:
   * velocity and volume are zero-extended from 16 bits (`cast_unsigned` to
   * `u16`, then `into`). Debug events are never written.
   */
  function EncodePayloadAsWritten(p: EventPayload): (u8, u32)
    requires !p.PtcowDebug?
  {
    match p
    case Velocity(v) => (4, AsUnsigned16(v))
    case Volume(v) => (5, AsUnsigned16(v))
    case _ => EncodePayload(p)
  }

  /**
   * As written, a negative velocity or volume does not survive a write and a
   * read: it is written as a value from 0x8000 to 0xFFFF, which the reader's
   * `i16` conversion rejects with a panic.
   */
  lemma AsWrittenNegativeLevelPanics(p: EventPayload)
    requires p.Velocity? || p.Volume?
    requires if p.Velocity? then p.velocity < 0 else p.volume < 0
    ensures DecodePayload(EncodePayloadAsWritten(p).0, EncodePayloadAsWritten(p).1) == Err(ReadError.Panic)
  {
  }

  /** The concrete case: a velocity of -1 is written as 0xFFFF and cannot be read back. */
  lemma AsWrittenVelocityMinusOne()
    ensures EncodePayloadAsWritten(Velocity(-1)) == (4, 0xFFFF)
    ensures DecodePayload(4, 0xFFFF) == Err(ReadError.Panic)
  {
  }

  /**
   * The kind byte and value `write` emits, with velocity and volume
   * sign-extended to 32 bits, the encoding `read` decodes with
   * `cast_signed`.
   */
  function EncodePayload(p: EventPayload): (u8, u32)
    requires !p.PtcowDebug?
  {
    match p
    case Null => (0, 0)
    case On(d) => (1, d)
    case Key(k) => (2, AsUnsigned32(k))
    case PanVol(v) => (3, v)
    case Velocity(v) => (4, AsUnsigned32(v))
    case Volume(v) => (5, AsUnsigned32(v))
    case Portament(d) => (6, d)
    case BeatClock => (7, 0)
    case BeatTempo => (8, 0)
    case BeatNum => (9, 0)
    case Repeat => (10, 0)
    case Last => (11, 0)
    case SetVoice(n) => (12, n)
    case SetGroup(g) => (13, g)
    case Tuning(t) => (14, t)
    case PanTime(t) => (15, t)
  }

  /** A payload the reader can hold again: its key, when it has one, is not negative. */
  predicate Representable(p: EventPayload)
  {
    !p.PtcowDebug? && (p.Key? ==> p.key >= 0)
  }

  /**
   * Every representable payload survives being written and read back, and
   * its kind byte is its discriminant. The two encodings agree except on
   * negative velocities and volumes.
   */
  lemma PayloadRoundTrip(p: EventPayload)
    requires Representable(p)
    ensures EncodePayload(p).0 == Discriminant(p)
    ensures DecodePayload(EncodePayload(p).0, EncodePayload(p).1) == Ok(p)
    ensures (p.Velocity? ==> p.velocity >= 0) && (p.Volume? ==> p.volume >= 0) ==>
              EncodePayloadAsWritten(p) == EncodePayload(p)
  {
  }

  // ---------------------------------------------------------------------
  // Reading
  // ---------------------------------------------------------------------

  /** The value of an `EveList`: its events and the size field it writes back unchanged. */
  datatype EveListState = EveListState(eves: seq<Event>, serSize: u32)

  /**
   * One event of `read`: delta clock, unit, kind, value; the tick is the
   * previous tick plus the delta (wrapping in a release build).
   */
  function ParseEvent(data: seq<u8>, cur: nat, absolute: u32): (r: Parse<Event>)
    ensures cur <= |data| && r.Ok? ==> cur <= r.value.next <= |data|
  {
    var clock :- ParseVarint(data, cur);
    var unit :- ParseU8(data, clock.next);
    var kind :- ParseU8(data, unit.next);
    var value :- ParseVarint(data, kind.next);
    var payload :- DecodePayload(kind.value, value.value);
    Ok(Parsed(Event(payload, unit.value, Wrap32(absolute + clock.value)), value.next))
  }

  /** `n` events, each tick counted on from the one before. */
  function ParseEvents(data: seq<u8>, cur: nat, n: nat, absolute: u32): (r: Parse<seq<Event>>)
    decreases n
    ensures cur <= |data| && r.Ok? ==> cur <= r.value.next <= |data|
  {
    if n == 0 then Ok(Parsed([], cur))
    else
      var e :- ParseEvent(data, cur, absolute);
      var rest :- ParseEvents(data, e.next, n - 1, e.value.tick);
      Ok(Parsed([e.value] + rest.value, rest.next))
  }

  /** `EveList::read`: the size field, the event count, then the events from tick 0. */
  function ParseEveList(data: seq<u8>, cur: nat): (r: Parse<EveListState>)
    ensures cur <= |data| && r.Ok? ==> cur <= r.value.next <= |data|
  {
    var size :- ParseU32(data, cur);
    var num :- ParseU32(data, size.next);
    var eves :- ParseEvents(data, num.next, num.value, 0);
    Ok(Parsed(EveListState(eves.value, size.value), eves.next))
  }

  /** An event read is never a debug event and takes at least one byte of the data. */
  lemma ParseEventShape(data: seq<u8>, cur: nat, absolute: u32)
    ensures var r := ParseEvent(data, cur, absolute);
      r.Ok? ==> !r.value.value.payload.PtcowDebug? && cur < r.value.next <= |data|
  {
    hide IntToVarint, VarintToInt;
    if cur <= |data| {
      ParseVarintShape(data, cur);
      var clock := ParseVarint(data, cur);
      if clock.Ok? {
        var unit := ParseU8(data, clock.value.next);
        if unit.Ok? {
          var kind := ParseU8(data, unit.value.next);
          if kind.Ok? {
            ParseVarintShape(data, kind.value.next);
            var value := ParseVarint(data, kind.value.next);
            if value.Ok? {
              DecodePayloadKinds(kind.value.value, value.value.value);
            }
          }
        }
      }
    }
  }

  /** A list read holds exactly the announced number of events, none of them a debug event. */
  lemma {:induction false} ParseEventsShape(data: seq<u8>, cur: nat, n: nat, absolute: u32)
    ensures var r := ParseEvents(data, cur, n, absolute);
      r.Ok? ==>
        && |r.value.value| == n
        && (forall i :: 0 <= i < n ==> !r.value.value[i].payload.PtcowDebug?)
        && cur <= r.value.next
        && (n > 0 ==> r.value.next <= |data|)
    decreases n
  {
    hide IntToVarint, ParseVarint, VarintToInt;
    if n > 0 {
      var e := ParseEvent(data, cur, absolute);
      ParseEventShape(data, cur, absolute);
      if e.Ok? {
        ParseEventsShape(data, e.value.next, n - 1, e.value.value.tick);
      }
    }
  }

  // ---------------------------------------------------------------------
  // Writing
  // ---------------------------------------------------------------------

  /** The events `write` emits: all but the debug events, in order. */
  function Written(s: seq<Event>): seq<Event>
  {
    if |s| == 0 then []
    else (if s[0].payload.PtcowDebug? then [] else [s[0]]) + Written(s[1..])
  }

  /** The tick of the last event written, or `absolute` when none was. */
  function LastWritten(s: seq<Event>, absolute: u32): u32
  {
    if |s| == 0 then absolute
    else LastWritten(s[1..], if s[0].payload.PtcowDebug? then absolute else s[0].tick)
  }

  /** One written event: the delta from the previous written tick (wrapping), unit, kind, value. */
  function EncodeEvent(e: Event, absolute: u32): seq<u8>
    requires !e.payload.PtcowDebug?
  {
    IntToVarint(Wrap32(e.tick - absolute)) + [e.unit] + [EncodePayload(e.payload).0]
    + IntToVarint(EncodePayload(e.payload).1)
  }

  function EncodeEvents(s: seq<Event>, absolute: u32): seq<u8>
  {
    if |s| == 0 then []
    else if s[0].payload.PtcowDebug? then EncodeEvents(s[1..], absolute)
    else EncodeEvent(s[0], absolute) + EncodeEvents(s[1..], s[0].tick)
  }

  /** `EveList::write`: the size field, the count of written events (as `u32`), then the events. */
  function EncodeEveList(l: EveListState): seq<u8>
  {
    Le32(l.serSize) + Le32(Wrap32(|Written(l.eves)|)) + EncodeEvents(l.eves, 0)
  }

  /** An empty list writes nothing and leaves the previous tick as it is. */
  lemma EncodeNoEvents(absolute: u32)
    ensures Written([]) == [] && LastWritten([], absolute) == absolute && EncodeEvents([], absolute) == []
  {
  }

  /** Appending one event to the list appends its encoding (none for a debug event). */
  lemma {:induction false} EncodeEventsSnoc(s: seq<Event>, e: Event, absolute: u32)
    ensures Written(s + [e]) == Written(s) + (if e.payload.PtcowDebug? then [] else [e])
    ensures LastWritten(s + [e], absolute) ==
              (if e.payload.PtcowDebug? then LastWritten(s, absolute) else e.tick)
    ensures EncodeEvents(s + [e], absolute) ==
              EncodeEvents(s, absolute) +
              (if e.payload.PtcowDebug? then [] else EncodeEvent(e, LastWritten(s, absolute)))
    decreases |s|
  {
    hide EncodeEvent;
    if |s| == 0 {
      assert [e][1..] == [];
    } else {
      var t := s + [e];
      assert t[0] == s[0] && t[1..] == s[1..] + [e];
      var a' := if s[0].payload.PtcowDebug? then absolute else s[0].tick;
      EncodeEventsSnoc(s[1..], e, a');
      var tail := if e.payload.PtcowDebug? then [] else EncodeEvent(e, LastWritten(s, absolute));
      assert LastWritten(s, absolute) == LastWritten(s[1..], a');
      if s[0].payload.PtcowDebug? {
        assert EncodeEvents(t, absolute) == EncodeEvents(s[1..] + [e], absolute);
        assert EncodeEvents(s, absolute) == EncodeEvents(s[1..], absolute);
      } else {
        var h := EncodeEvent(s[0], absolute);
        assert EncodeEvents(t, absolute) == h + EncodeEvents(s[1..] + [e], a');
        assert EncodeEvents(s, absolute) == h + EncodeEvents(s[1..], a');
        assert h + (EncodeEvents(s[1..], a') + tail) == (h + EncodeEvents(s[1..], a')) + tail;
      }
    }
  }

  /** Ticks never decrease along the list, starting from `absolute`. */
  predicate SortedFrom(s: seq<Event>, absolute: u32)
  {
    (forall i :: 0 <= i < |s| ==> absolute <= s[i].tick) &&
    (forall i, j :: 0 <= i < j < |s| ==> s[i].tick <= s[j].tick)
  }

  /** The four fields of an event, found at `cur`, read back one by one. */
  lemma EventFieldsAt(data: seq<u8>, cur: nat, d: u32, unit: u8, kind: u8, value: u32)
    requires cur + |IntToVarint(d) + [unit] + [kind] + IntToVarint(value)| <= |data|
    requires data[cur..cur + |IntToVarint(d) + [unit] + [kind] + IntToVarint(value)|]
             == IntToVarint(d) + [unit] + [kind] + IntToVarint(value)
    ensures ParseVarint(data, cur) == Ok(Parsed(d, cur + |IntToVarint(d)|))
    ensures ParseU8(data, cur + |IntToVarint(d)|) == Ok(Parsed(unit, cur + |IntToVarint(d)| + 1))
    ensures ParseU8(data, cur + |IntToVarint(d)| + 1) == Ok(Parsed(kind, cur + |IntToVarint(d)| + 2))
    ensures ParseVarint(data, cur + |IntToVarint(d)| + 2)
            == Ok(Parsed(value, cur + |IntToVarint(d)| + 2 + |IntToVarint(value)|))
  {
    hide IntToVarint, ParseVarint, VarintToInt;
    var v1, v2 := IntToVarint(d), IntToVarint(value);
    var e := v1 + [unit] + [kind] + v2;
    SubSlice(data, cur, e, 0, |v1|);
    assert e[0..|v1|] == v1;
    ReadVarintAt(data, cur, d);
    SubSlice(data, cur, e, |v1|, 1);
    assert e[|v1|..|v1| + 1] == [unit];
    SubSlice(data, cur, e, |v1| + 1, 1);
    assert e[|v1| + 1..|v1| + 2] == [kind];
    SubSlice(data, cur, e, |v1| + 2, |v2|);
    assert e[|v1| + 2..|v1| + 2 + |v2|] == v2;
    ReadVarintAt(data, cur + |v1| + 2, value);
  }

  /** A single event written after `absolute` reads back as itself. */
  lemma EventRoundTrip(before: seq<u8>, e: Event, absolute: u32, after: seq<u8>)
    requires Representable(e.payload) && absolute <= e.tick
    ensures ParseEvent(before + EncodeEvent(e, absolute) + after, |before|, absolute)
            == Ok(Parsed(e, |before| + |EncodeEvent(e, absolute)|))
  {
    hide IntToVarint, ParseVarint, VarintToInt;
    var kv := EncodePayload(e.payload);
    var enc := EncodeEvent(e, absolute);
    var data := before + enc + after;
    SliceOf(before, enc, after, 0, |enc|);
    assert enc[0..|enc|] == enc;
    assert enc == IntToVarint(e.tick - absolute) + [e.unit] + [kv.0] + IntToVarint(kv.1);
    EventFieldsAt(data, |before|, e.tick - absolute, e.unit, kv.0, kv.1);
    PayloadRoundTrip(e.payload);
    assert Wrap32(absolute + (e.tick - absolute)) == e.tick;
  }

  /**
   * A tick-sorted list written from `absolute` reads back, event for event,
   * as the events that were written.
   */
  lemma {:induction false} EventsRoundTrip(before: seq<u8>, s: seq<Event>, absolute: u32, after: seq<u8>)
    requires SortedFrom(s, absolute)
    requires forall i :: 0 <= i < |s| && !s[i].payload.PtcowDebug? ==> Representable(s[i].payload)
    ensures ParseEvents(before + EncodeEvents(s, absolute) + after, |before|, |Written(s)|, absolute)
            == Ok(Parsed(Written(s), |before| + |EncodeEvents(s, absolute)|))
    decreases |s|
  {
    hide IntToVarint, ParseVarint, VarintToInt, EncodeEvent, ParseEvent;
    if |s| == 0 {
    } else if s[0].payload.PtcowDebug? {
      assert Written(s) == Written(s[1..]);
      assert EncodeEvents(s, absolute) == EncodeEvents(s[1..], absolute);
      assert SortedFrom(s[1..], absolute) by {
        forall i | 0 <= i < |s| - 1 ensures s[1..][i] == s[i + 1] { }
      }
      EventsRoundTrip(before, s[1..], absolute, after);
    } else {
      var e0 := EncodeEvent(s[0], absolute);
      var rest := EncodeEvents(s[1..], s[0].tick);
      assert before + EncodeEvents(s, absolute) + after == before + e0 + (rest + after);
      EventRoundTrip(before, s[0], absolute, rest + after);
      assert before + EncodeEvents(s, absolute) + after == (before + e0) + rest + after;
      EventsRoundTrip(before + e0, s[1..], s[0].tick, after);
      assert Written(s) == [s[0]] + Written(s[1..]);
    }
  }

  /**
   * Round trip of the whole chunk: a tick-sorted list with non-negative keys
   * reads back as its non-debug events, with the same size field.
   */
  lemma EveListRoundTrip(before: seq<u8>, l: EveListState, after: seq<u8>)
    requires |l.eves| < 0x1_0000_0000 && SortedFrom(l.eves, 0)
    requires forall i :: 0 <= i < |l.eves| && !l.eves[i].payload.PtcowDebug? ==> Representable(l.eves[i].payload)
    ensures ParseEveList(before + EncodeEveList(l) + after, |before|)
            == Ok(Parsed(EveListState(Written(l.eves), l.serSize), |before| + |EncodeEveList(l)|))
  {
    hide IntToVarint, ParseVarint, VarintToInt, EncodeEvents, ParseEvents, Written, EncodeEvent, ParseEvent, ParseU32;
    WrittenLength(l.eves);
    var n := |Written(l.eves)|;
    var body := EncodeEvents(l.eves, 0);
    var pre := before + Le32(l.serSize) + Le32(n);
    EveListLayout(before, l, after);
    hide EncodeEveList, Le32, Wrap32, SortedFrom, Representable;
    EveListHeaderRead(before, l.serSize, n, body + after);
    EventsRoundTrip(pre, l.eves, 0, after);
  }

  /** An event list's encoding is its two header fields and then its events. */
  lemma EveListLayout(before: seq<u8>, l: EveListState, after: seq<u8>)
    requires |l.eves| < 0x1_0000_0000
    ensures |Written(l.eves)| < 0x1_0000_0000
    ensures var n := |Written(l.eves)|;
            var body := EncodeEvents(l.eves, 0);
            && before + EncodeEveList(l) + after == before + Le32(l.serSize) + Le32(n) + body + after
            && |EncodeEveList(l)| == 8 + |body|
            && before + Le32(l.serSize) + Le32(n) + body + after == before + Le32(l.serSize) + Le32(n) + (body + after)
  {
    hide IntToVarint, ParseVarint, VarintToInt, EncodeEvents, ParseEvents, Written, EncodeEvent, ParseEvent, ParseU32, Le32;
    WrittenLength(l.eves);
    assert Wrap32(|Written(l.eves)|) == |Written(l.eves)|;
  }

  /** The size and count fields of an event list read back, four bytes each. */
  lemma EveListHeaderRead(before: seq<u8>, size: u32, n: u32, rest: seq<u8>)
    ensures var data := before + Le32(size) + Le32(n) + rest;
            && ParseU32(data, |before|) == Ok(Parsed(size, |before| + 4))
            && ParseU32(data, |before| + 4) == Ok(Parsed(n, |before| + 8))
  {
    var data := before + Le32(size) + Le32(n) + rest;
    assert data == before + Le32(size) + (Le32(n) + rest);
    ReadWrittenU32(before, size, Le32(n) + rest);
    ReadWrittenU32(before + Le32(size), n, rest);
  }

  lemma {:induction false} WrittenLength(s: seq<Event>)
    ensures |Written(s)| <= |s|
    decreases |s|
  {
    if |s| > 0 {
      WrittenLength(s[1..]);
    }
  }

  // ---------------------------------------------------------------------
  // The end of the song
  // ---------------------------------------------------------------------

  /** The tick an event ends at: its tick plus its duration (wrapping), or its tick. */
  function EndTick(e: Event): u32
  {
    match EventDuration(e.payload)
    case Some(d) => Wrap32(e.tick + d)
    case None => e.tick
  }

  /** `get_max_tick` as a function: the largest end tick, 0 for an empty list. */
  function MaxTick(s: seq<Event>): u32
  {
    if |s| == 0 then 0 else Max(MaxTick(s[..|s| - 1]), EndTick(s[|s| - 1]))
  }

  /** The largest end tick bounds every event's end and is one of them (or 0). */
  lemma {:induction false} MaxTickIsMaximum(s: seq<Event>)
    ensures forall i :: 0 <= i < |s| ==> EndTick(s[i]) <= MaxTick(s)
    ensures MaxTick(s) == 0 || exists i :: 0 <= i < |s| && MaxTick(s) == EndTick(s[i])
    ensures |s| == 0 ==> MaxTick(s) == 0
    decreases |s|
  {
    if |s| > 0 {
      var p := s[..|s| - 1];
      MaxTickIsMaximum(p);
      assert forall i :: 0 <= i < |p| ==> s[i] == p[i];
      if MaxTick(s) != 0 && MaxTick(s) != EndTick(s[|s| - 1]) {
        var i :| 0 <= i < |p| && MaxTick(p) == EndTick(p[i]);
        assert MaxTick(s) == EndTick(s[i]);
      }
    }
  }

  // ---------------------------------------------------------------------
  // Sorting
  // ---------------------------------------------------------------------

  predicate Sorted(s: seq<Event>)
  {
    forall i, j :: 0 <= i < j < |s| ==> s[i].tick <= s[j].tick
  }

  /** Places `x` after the last event of `t` whose tick is at most `x`'s. */
  function InsertByTick(x: Event, t: seq<Event>): seq<Event>
  {
    if |t| == 0 then [x]
    else if t[|t| - 1].tick <= x.tick then t + [x]
    else InsertByTick(x, t[..|t| - 1]) + [t[|t| - 1]]
  }

  /** `sort_by_key(|eve| eve.tick)`, a stable sort, as insertion from the back. */
  function SortByTick(s: seq<Event>): seq<Event>
  {
    if |s| == 0 then [] else InsertByTick(s[|s| - 1], SortByTick(s[..|s| - 1]))
  }

  /** The events with tick `k`, in list order. */
  function WithTick(s: seq<Event>, k: u32): seq<Event>
  {
    if |s| == 0 then []
    else WithTick(s[..|s| - 1], k) + (if s[|s| - 1].tick == k then [s[|s| - 1]] else [])
  }

  /** Inserting adds exactly the one event. */
  lemma {:induction false} InsertByTickPermutes(x: Event, t: seq<Event>)
    ensures multiset(InsertByTick(x, t)) == multiset(t) + multiset{x}
    ensures |InsertByTick(x, t)| == |t| + 1
    decreases |t|
  {
    if |t| > 0 && t[|t| - 1].tick > x.tick {
      var t' := t[..|t| - 1];
      assert t == t' + [t[|t| - 1]];
      InsertByTickPermutes(x, t');
    }
  }

  /** A sorted list followed by an event no earlier than any of it is sorted. */
  lemma SortedSnoc(t: seq<Event>, x: Event)
    requires Sorted(t) && forall i :: 0 <= i < |t| ==> t[i].tick <= x.tick
    ensures Sorted(t + [x])
  {
    var r := t + [x];
    forall i, j | 0 <= i < j < |r| ensures r[i].tick <= r[j].tick {
      if j < |t| { assert r[i] == t[i] && r[j] == t[j]; }
    }
  }

  /** Inserting an event earlier than `last` into what precedes `last` keeps every event at or before it. */
  lemma InsertedBelow(x: Event, t: seq<Event>, last: Event)
    requires Sorted(t + [last]) && x.tick < last.tick
    ensures forall i :: 0 <= i < |InsertByTick(x, t)| ==> InsertByTick(x, t)[i].tick <= last.tick
  {
    var m := InsertByTick(x, t);
    InsertByTickPermutes(x, t);
    forall i | 0 <= i < |m| ensures m[i].tick <= last.tick {
      assert m[i] in multiset(m);
      if m[i] != x {
        assert m[i] in multiset(t);
        var q :| 0 <= q < |t| && t[q] == m[i];
        assert (t + [last])[q] == m[i] && (t + [last])[|t|] == last;
      }
    }
  }

  /** Inserting into a sorted list keeps it sorted. */
  lemma {:induction false} InsertByTickSorted(x: Event, t: seq<Event>)
    requires Sorted(t)
    ensures Sorted(InsertByTick(x, t))
    decreases |t|
  {
    if |t| == 0 {
    } else if t[|t| - 1].tick <= x.tick {
      forall i | 0 <= i < |t| ensures t[i].tick <= x.tick {
        if i < |t| - 1 { assert t[i].tick <= t[|t| - 1].tick; }
      }
      SortedSnoc(t, x);
    } else {
      var last := t[|t| - 1];
      var t' := t[..|t| - 1];
      assert t == t' + [last];
      InsertByTickSorted(x, t');
      InsertedBelow(x, t', last);
      SortedSnoc(InsertByTick(x, t'), last);
    }
  }

  /** Inserting keeps the order among events of equal tick, with the new one last among its tick. */
  lemma {:induction false} InsertByTickWithTick(x: Event, t: seq<Event>, k: u32)
    ensures WithTick(InsertByTick(x, t), k) == WithTick(t, k) + (if x.tick == k then [x] else [])
    decreases |t|
  {
    if |t| == 0 {
      assert [x][..0] == [];
    } else if t[|t| - 1].tick <= x.tick {
      var r := t + [x];
      assert r[..|r| - 1] == t;
    } else {
      var last := t[|t| - 1];
      var t' := t[..|t| - 1];
      InsertByTickWithTick(x, t', k);
      var r := InsertByTick(x, t') + [last];
      assert r[..|r| - 1] == InsertByTick(x, t');
      assert WithTick(t, k) == WithTick(t', k) + (if last.tick == k then [last] else []);
    }
  }

  /**
   * `sort` yields a stable, tick-ordered permutation: the same events, in
   * tick order, with events of equal tick in their original relative order.
   */
  lemma {:induction false} SortByTickIsStableSort(s: seq<Event>)
    ensures Sorted(SortByTick(s))
    ensures multiset(SortByTick(s)) == multiset(s)
    ensures forall k :: WithTick(SortByTick(s), k) == WithTick(s, k)
    decreases |s|
  {
    if |s| > 0 {
      var p := s[..|s| - 1];
      SortByTickIsStableSort(p);
      InsertByTickSorted(s[|s| - 1], SortByTick(p));
      InsertByTickPermutes(s[|s| - 1], SortByTick(p));
      forall k ensures WithTick(SortByTick(s), k) == WithTick(s, k) {
        InsertByTickWithTick(s[|s| - 1], SortByTick(p), k);
      }
      assert s == p + [s[|s| - 1]];
    }
  }

  // ---------------------------------------------------------------------
  // The object
  // ---------------------------------------------------------------------

  /** One event of `read`, through the cursor. */
  method ReadEvent(rd: Reader, absolute: u32) returns (r: Result<Event, ReadError>)
    modifies rd`cur
    ensures Outcome(r, rd.cur) == ParseEvent(rd.data, old(rd.cur), absolute)
  {
    hide IntToVarint, ParseVarint, VarintToInt;
    var clock := rd.NextVarint();
    if clock.Err? { return Err(clock.error); }
    var unit := rd.NextU8();
    if unit.Err? { return Err(unit.error); }
    var kind := rd.NextU8();
    if kind.Err? { return Err(kind.error); }
    var value := rd.NextVarint();
    if value.Err? { return Err(value.error); }
    var payload := DecodePayload(kind.value, value.value);
    if payload.Err? { return Err(payload.error); }
    r := Ok(Event(payload.value, unit.value, Wrap32(absolute + clock.value)));
  }

  /** One event of `write`: the delta from `absolute`, the unit, the kind and the value. */
  method WriteEvent(eve: Event, absolute: u32, out: ByteVec)
    requires !eve.payload.PtcowDebug?
    modifies out
    ensures out.bytes == old(out.bytes) + EncodeEvent(eve, absolute)
  {
    hide IntToVarint, ParseVarint, VarintToInt;
    WriteVarint(Wrap32(eve.tick - absolute), out);
    out.Push(eve.unit);
    var kv := EncodePayload(eve.payload);
    out.Push(kv.0);
    WriteVarint(kv.1, out);
  }

  /** The loop of `write`: the non-debug events as deltas, and how many were written. */
  method WriteEvents(eves: seq<Event>, out: ByteVec) returns (count: u32)
    modifies out
    ensures out.bytes == old(out.bytes) + EncodeEvents(eves, 0)
    ensures count == Wrap32(|Written(eves)|)
  {
    EncodeNoEvents(0);
    hide IntToVarint, ParseVarint, VarintToInt, EncodeEvent, EncodeEvents, Written, LastWritten;
    ghost var head := out.bytes;
    count := 0;
    var absolute: u32 := 0;
    var i := 0;
    while i < |eves|
      invariant 0 <= i <= |eves|
      invariant out.bytes == head + EncodeEvents(eves[..i], 0)
      invariant count == Wrap32(|Written(eves[..i])|)
      invariant absolute == LastWritten(eves[..i], 0)
    {
      count, absolute := WriteNextEvent(eves, i, out, count, absolute, head);
      i := i + 1;
    }
    assert eves[..i] == eves;
  }

  /** One turn of the loop of `write`: event `i` is written unless it is a debug event. */
  method WriteNextEvent(eves: seq<Event>, i: nat, out: ByteVec, count: u32, absolute: u32, ghost head: seq<u8>)
      returns (count': u32, absolute': u32)
    requires i < |eves|
    requires out.bytes == head + EncodeEvents(eves[..i], 0)
    requires count == Wrap32(|Written(eves[..i])|) && absolute == LastWritten(eves[..i], 0)
    modifies out
    ensures out.bytes == head + EncodeEvents(eves[..i + 1], 0)
    ensures count' == Wrap32(|Written(eves[..i + 1])|) && absolute' == LastWritten(eves[..i + 1], 0)
  {
    hide IntToVarint, ParseVarint, VarintToInt, EncodeEvent, EncodeEvents, Written, LastWritten, Wrap32;
    var eve := eves[i];
    EncodeEventsSnoc(eves[..i], eve, 0);
    assert eves[..i + 1] == eves[..i] + [eve];
    count', absolute' := count, absolute;
    if !eve.payload.PtcowDebug? {
      WriteEvent(eve, absolute, out);
      Wrap32Succ(|Written(eves[..i])|);
      count' := Wrap32(count + 1);
      absolute' := eve.tick;
    }
  }

  /** Overwriting the four placeholder bytes after a prefix replaces just them. */
  lemma PatchCount(before: seq<u8>, size: seq<u8>, zero: seq<u8>, body: seq<u8>, count: seq<u8>)
    requires |zero| == |count| == 4
    ensures var w := before + size + zero + body;
      w[..|before + size|] + count + w[|before + size| + 4..] == before + size + count + body
  {
    var w := before + size + zero + body;
    assert w[..|before + size|] == before + size;
    assert w[|before + size| + 4..] == body;
  }

  /** `acc` followed by what `p` read. */
  function Prepend(acc: seq<Event>, p: Parse<seq<Event>>): Parse<seq<Event>>
  {
    if p.Ok? then Ok(Parsed(acc + p.value.value, p.value.next)) else p
  }

  /** `EveList`: the song's events and the size field written back unchanged. */
  class EveList {
    var eves: seq<Event>
    var serSize: u32

    function State(): EveListState
      reads this
    {
      EveListState(eves, serSize)
    }

    /** `EveList::default()`. */
    constructor ()
      ensures eves == [] && serSize == 0
    {
      eves := [];
      serSize := 0;
    }

    /** `get_max_tick`: the running maximum of the end ticks. */
    method GetMaxTick() returns (maxClock: u32)
      ensures maxClock == MaxTick(eves)
      ensures forall i :: 0 <= i < |eves| ==> EndTick(eves[i]) <= maxClock
    {
      maxClock := 0;
      var i := 0;
      while i < |eves|
        invariant 0 <= i <= |eves|
        invariant maxClock == MaxTick(eves[..i])
      {
        var eve := eves[i];
        var clock: u32;
        if EventDuration(eve.payload).Some? {
          clock := Wrap32(eve.tick + EventDuration(eve.payload).value);
        } else {
          clock := eve.tick;
        }
        if clock > maxClock {
          maxClock := clock;
        }
        assert eves[..i + 1][..i] == eves[..i];
        i := i + 1;
      }
      assert eves[..i] == eves;
      MaxTickIsMaximum(eves);
    }

    /** `sort`. */
    method Sort()
      modifies this
      ensures eves == SortByTick(old(eves)) && serSize == old(serSize)
      ensures Sorted(eves) && multiset(eves) == multiset(old(eves))
    {
      SortByTickIsStableSort(eves);
      eves := SortByTick(eves);
    }

    /** `read`: on success the list takes the value read; on error it is unchanged. */
    method Read(rd: Reader) returns (r: Result<(), ReadError>)
      modifies this, rd`cur
      ensures var p := ParseEveList(rd.data, old(rd.cur));
              if p.Ok? then r.Ok? && State() == p.value.value && rd.cur == p.value.next
              else r == Err(p.error) && State() == old(State())
    {
      hide IntToVarint, ParseVarint, VarintToInt, ParseEvent, ParseU32, ParseU8, DecodePayload;
      var size := rd.NextU32();
      if size.Err? { return Err(size.error); }
      var num := rd.NextU32();
      if num.Err? { return Err(num.error); }
      var start := rd.cur;
      var acc: seq<Event> := [];
      var absolute: u32 := 0;
      var k: nat := 0;
      ghost var all := ParseEvents(rd.data, start, num.value, 0);
      if all.Ok? {
        assert [] + all.value.value == all.value.value;
      }
      while k < num.value
        invariant k <= num.value
        invariant eves == old(eves) && serSize == old(serSize)
        invariant ParseEvents(rd.data, start, num.value, 0)
                  == Prepend(acc, ParseEvents(rd.data, rd.cur, num.value - k, absolute))
        decreases num.value - k
      {
        ghost var before := ParseEvents(rd.data, rd.cur, num.value - k, absolute);
        var e := ReadEvent(rd, absolute);
        if e.Err? {
          assert before == Err(e.error);
          return Err(e.error);
        }
        ghost var rest := ParseEvents(rd.data, rd.cur, num.value - k - 1, e.value.tick);
        assert before == Prepend([e.value], rest);
        if rest.Ok? {
          assert acc + ([e.value] + rest.value.value) == (acc + [e.value]) + rest.value.value;
        }
        acc := acc + [e.value];
        absolute := e.value.tick;
        k := k + 1;
      }
      assert acc + [] == acc;
      eves, serSize := acc, size.value;
      r := Ok(());
    }

    /**
     * `write`: appends the size field, a placeholder count, the non-debug
     * events as deltas, then back-patches the count with the number written.
     */
    method Write(out: ByteVec)
      modifies out
      ensures out.bytes == old(out.bytes) + EncodeEveList(State())
    {
      hide EncodeEvents, Written;
      out.Extend(Le32(serSize));
      var countAt := |out.bytes|;
      out.Extend([0, 0, 0, 0]);
      var count := WriteEvents(eves, out);
      PatchCount(old(out.bytes), Le32(serSize), [0, 0, 0, 0], EncodeEvents(eves, 0), Le32(count));
      out.Patch(countAt, Le32(count));
    }
  }
}

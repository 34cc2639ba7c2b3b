# ptcow in Dafny

A model of the core of ptcow, a reader, writer and player of PxTone
Collage projects (`.ptcop`) and tunes (`.pttune`), with proofs about it.
Everything modelled is sequential and deterministic integer logic; the
floating-point parts of the player are parameters or left out.

The modules follow the source files:

- `Base` (machine integers, little-endian bytes, release-build wrap-around)
  and `F32` (the few `f32` conversions the codecs need, on bit patterns);
- `Io`: the cursor `Reader`, the 7-bit varint codec, and `ByteVec`, which
  stands for an output `Vec<u8>` with its appends and back-patches;
- `Errors`: the read and write error variants;
- `Timing` and `Master`: ticks and measures, loop points, `adjust_meas_num`
  and the `MasterV5` chunk;
- `Event`: the event list, its `Event V5` chunk codec with tick deltas, its
  maximum end tick and its stable sort by tick;
- `HerdIo` and `TuneIo`: chunk tags, the version header, the unit count,
  unit names, voice names, delays, overdrives and texts, the
  `read_tune_items` dispatch loop and the tune writer;
- `VoiceIo` and `WaveIo`: the `matePCM `, `matePTN `, `matePTV ` and
  `mateOGGV` voice chunks, the `.ptvoice` image, waves and envelopes;
- `Noise`: the `PTNOISE-` design codec, its wave codes and `fix`;
- `Pcm`: PCM buffers, 8 to 16 bit widening, mono to stereo duplication and
  nearest-lower resampling;
- `Envelope` and `Voice`: envelope preparation (absolute points, integer
  interpolation), voice instances and `allocate`;
- `Unit`, `Delay`, `Herd` and `Moo`: the integer skeleton of playback —
  pan volumes and pan times, key state, the pan-time and delay rings, the
  event cursor, `do_event`, the per-sample mix with its clamp, the loop and
  end handling, and `Herd::moo`;
- `NoiseBuilder`: the byte-swap random generator, the `Chunker` and the
  integer wave tables, and the envelope stepping of `build_unit`;
- `PulseFrequency`: the index arithmetic of `get` and `get2` over a
  3072-entry table;
- `Oggv`: `planar_to_interleaved` and the sample bookkeeping of
  `decode_oggv`.

Reading operations are methods on a `Reader` class that move its cursor.
Each is specified by a pure function of the data and the starting cursor,
which returns a `Parse` (the value and the next cursor, or an error).
Writers append to a `ByteVec`. Each writer is specified by a pure encoding
function, and the round-trip lemmas relate each encoding function to its
parsing function. Objects whose fields the source updates in place
(`Master`, `EveList`, `NoiseData`, `PcmData`, `Unit`, `Delay`, `Herd`,
`Voice`, the random generator and the table chunker) are classes. Most
have a function (`State()`, or `Play()` for the herd) that gives their
value as a datatype; each method states its new state as a function of the
old one, and the invariants are proved about those functions.

Integers are unbounded in Dafny. Every `u32`, `i32` and `i16` operation
that wraps in a release build is written out (`Wrap32`, `WrapI32`,
`WrapI16`); a debug build would panic there instead. Where the source
panics (an `unwrap` on a failed conversion, an index past the end, a
`copy_from_slice` of the wrong length), a function returns the extra error
`Panic`, or, when the operation has no error result, the panic is excluded
by a precondition. `f32` values (tempo, tuning, rates) are carried as their
bit patterns and never computed with.

The voice readers and writers of `src/voice/io.rs` use `slots`,
`VoiceSlot` and `VoiceSlot::from_unit`, which `src/voice.rs` does not
define: there a `Voice` holds a list of units and a list of instances.
The model follows `src/voice.rs`: a voice read from a chunk is its list of
units, one unit per slot that `from_unit` would build, and the writers take
the units that `slots[i].unit` names. Likewise `Herd::moo` tests a flag
`end` that `src/herd.rs` calls `moo_end`, and `moo_prepare` calls
`end_meas()` where `src/master.rs` defines `get_play_meas()`; the model
uses one end flag and `get_play_meas()`. `read_ogg` is modelled without
Ogg/Vorbis support.

## Model

| member | source | states |
|---|---|---|
| Io.Reader.Next | src/io.rs:18-23 | the next `amount` bytes and the cursor moved past them, or `Data` with the cursor unchanged when fewer remain |
| Io.Reader.NextU8 | src/io.rs:18-23 | one byte, as `Take` of one byte |
| Io.Reader.NextU16 | src/io.rs:18-23 | a little-endian `u16` |
| Io.Reader.NextU32 | src/io.rs:18-23 | a little-endian `u32` |
| Io.Reader.NextI32 | src/io.rs:18-23 | a little-endian two's-complement `i32` |
| Io.Reader.FillSlice | src/io.rs:24-35 | fills the array with the next bytes and moves the cursor, or fails leaving both unchanged |
| Io.Reader.NextVarint | src/io.rs:36-49 | the loop reads exactly what `ParseVarint` describes: up to five bytes, stopping after the first with bit 7 clear |
| Io.ParseVarintShape | src/io.rs:36-49 | a varint read consumes 1 to 5 bytes, all but the last with bit 7 set, and its value is `varint_to_int` of them |
| Io.IntToVarintIsVarint | src/io.rs:86-111 | `int_to_varint` emits the 7-bit groups of the number, least significant first, with the continuation bit on all but the last |
| Io.VarintRoundTrip | src/io.rs:113-126 | `varint_to_int(int_to_varint(n)) == n` for every `u32` |
| Io.VarintToIntDefined | src/io.rs:54-84 | `varint_to_int` has a value exactly for buffers of 1 to 5 bytes |
| Io.ReadWrittenVarint | src/io.rs:128-131 | what `write_varint` appends reads back as the same number, and the cursor ends just past it |
| Io.WriteVarint | src/io.rs:128-131 | appends the encoding and leaves what was written before unchanged |
| Io.ReadWrittenU32 | src/io.rs:18-23 | a `u32` written little-endian reads back |
| Timing.DefaultTiming | src/timing.rs:49-57 | 480 ticks per beat, 4 beats per measure, 120 bpm |
| Timing.TickToMeasCovers | src/timing.rs:59-64 | `tick_to_meas(t)` is the least measure count whose ticks reach t |
| Timing.TickToMeasMonotone | src/timing.rs:59-64 | `tick_to_meas` is monotone |
| Timing.TickToMeasZero | src/timing.rs:59-64 | `tick_to_meas` is zero exactly at tick zero |
| Timing.MeasToTickExact | src/timing.rs:66-70 | without wrap-around, `meas_to_tick` is the measure count times the ticks per measure |
| Timing.TickToMeasOfMeasToTick | src/timing.rs:59-70 | measures to ticks and back is the identity when the ticks fit in a `u32` |
| Timing.MeasToTickOfTickToMeas | src/timing.rs:59-70 | rounding a tick up to whole measures never moves it backwards |
| Master.FromTicksMeaning | src/master.rs:26-35 | loop points from ticks: `last` is absent exactly when its tick is 0, repeat is 0 exactly at tick 0, and both are the least measures covering their ticks |
| Master.LastTickMeaning | src/master.rs:47-54 | the last tick is 0 exactly without a last measure, and converting it back gives the play measure |
| Master.AdjustMeasNumInvariant | src/master.rs:56-64 | adjusting the measure count never lowers it, covers the tick, keeps repeat below it (or 0) and last at most it, and is idempotent |
| Master.AdjustMeasNumKeepsFitting | src/master.rs:56-64 | the adjustment keeps measure counts whose ticks fit in a `u32` fitting |
| Master.Master.AdjustMeasNum | src/master.rs:56-64 | the object's new state is `AdjustedMeasNum` of the old one |
| Master.ParseMasterV5Shape | src/master.rs:66-88 | reading fails with `FmtUnknown` unless the size is 15, and a good chunk takes 19 bytes and sets the measure count to 1 |
| Master.MasterV5RoundTrip | src/master.rs:66-101 | writing then reading gives back the timing and the loop points |
| Master.Master.ReadV5 | src/master.rs:66-88 | on success the object holds the value read; on error it is unchanged |
| Master.Master.WriteV5 | src/master.rs:90-101 | appends exactly the chunk encoding of the state |
| Event.DecodePayloadKinds | src/event.rs:55-73 | only kinds above 15 are `InvalidData`, and a decoded payload has the kind as its discriminant and is never a debug event |
| Event.PayloadRoundTrip | src/event.rs:104-125 | every payload with a non-negative key reads back as itself, and its kind byte is its discriminant |
| Event.AsWrittenNegativeLevelPanics | src/event.rs:109-110 | a negative velocity or volume, zero-extended as written, makes the reader's `i16` conversion panic |
| Event.ParseEventsShape | src/event.rs:43-86 | a list read holds exactly the announced number of events, none of them a debug event |
| Event.EncodeEventsSnoc | src/event.rs:95-129 | writing one more event appends its encoding as a delta from the last written tick, and nothing for a debug event |
| Event.EventsRoundTrip | src/event.rs:43-131 | a tick-sorted list written from a tick reads back as its non-debug events |
| Event.EveListRoundTrip | src/event.rs:43-131 | the whole chunk reads back as the non-debug events with the same size field |
| Event.MaxTickIsMaximum | src/event.rs:25-41 | the maximum end tick bounds every event's end tick and is one of them, or 0 |
| Event.EveList.GetMaxTick | src/event.rs:25-41 | the loop computes the maximum end tick |
| Event.SortByTickIsStableSort | src/event.rs:132-135 | sorting yields a tick-ordered permutation that keeps equal-tick events in their order |
| Event.EveList.Sort | src/event.rs:132-135 | the list becomes its stable sort by tick |
| Event.EveList.Read | src/event.rs:43-86 | on success the list holds the events read; on error it is unchanged |
| Event.EveList.Write | src/event.rs:88-131 | appends exactly the chunk encoding, with the count back-patched |
| Master.ParseMasterV5 | src/master.rs:66-88 | a master chunk read stays inside the data |
| Master.EncodeMasterV5 | src/master.rs:90-101 | the chunk `write_v5` appends is 19 bytes |
| Master.MasterV5Fields | src/master.rs:66-101 | the six fixed-width fields of a written chunk read back in order: the size 15, the timing, the repeat tick and the last tick |
| Master.Master.Set | src/herd/io.rs:74-76 | the master is replaced by the value read |
| Master.Master.constructor | src/master.rs:37-46 | the default master |
| Io.Reader.constructor | src/herd/io.rs:538-539 | a reader over the data with its cursor at 0 |
| Io.ByteVec.constructor | src/herd/io.rs:546 | an empty output |
| Base.Le16Inverse | src/io.rs:18-23 | two little-endian bytes read back as the `u16` they encode |
| Base.Le32Inverse | src/io.rs:18-23 | four little-endian bytes read back as the `u32` they encode |
| Base.FromLe32Inverse | src/io.rs:18-23 | every four bytes are the encoding of the `u32` they read as |
| Base.TruncDiv | src/delay.rs:113 | Rust's `/` on integers: Euclidean division on non-negative operands |
| Base.WrapI32 | src/herd/moo.rs:72 | release-build `i32` arithmetic: congruent to the exact result modulo 2^32 |
| Base.WrapI16 | src/noise_builder.rs:485 | release-build `i16` arithmetic: congruent to the exact result modulo 2^16 |
| Base.Clamp | src/herd/moo.rs:75 | `Ord::clamp`: inside the bounds, and the value itself when it already is |
| F32.ToU8FromU8 | src/herd/io.rs:183-184 | a delay rate written as `f32` and read back with `as u8` is the same byte, zero exactly when the byte is (with lines 193-208) |
| Base.Le16 | src/herd/io.rs:201-207 | a little-endian `u16` takes two bytes |
| Base.Le32 | src/herd/io.rs:195 | a little-endian `u32` takes four bytes |
| Base.Bytes | src/herd/io.rs:296-300 | an ASCII literal is one byte per character, each its code |
| Io.Take | src/io.rs:18-23 | a read of `amount` bytes stays inside the data |
| Io.ParseU8 | src/io.rs:18-23 | a byte read stays inside the data |
| Io.ParseI8 | src/io.rs:18-23 | an `i8` read stays inside the data |
| Io.ParseU16 | src/io.rs:18-23 | a `u16` read stays inside the data |
| Io.ParseU32 | src/io.rs:18-23 | a `u32` read stays inside the data |
| Io.ParseI32 | src/io.rs:18-23 | an `i32` read stays inside the data |
| Io.IntToVarint | src/io.rs:86-111 | every `u32` is encoded in 1 to 5 bytes |
| Io.Varint | src/io.rs:86-111 | the reference encoding has as many bytes as the number has 7-bit groups |
| Io.VarintShape | src/io.rs:86-111 | the reference encoding byte by byte for each of the five lengths, with the continuation bit on all but the last |
| Io.VarintDecodes | src/io.rs:54-84 | `varint_to_int` of the reference encoding of any `u32` gives it back |
| Io.ScanVarint | src/io.rs:36-49 | the bytes `next_varint` collects lie inside the data |
| Io.ParseVarint | src/io.rs:36-49 | a varint read stays inside the data |
| Io.ScanVarintShape | src/io.rs:36-49 | the scan collects 1 to 5 bytes in order, all but the last with bit 7 set and the last with it clear unless there are five; it fails only when fewer than five bytes remain, all with bit 7 set |
| Io.ScanVarintOfEncoding | src/io.rs:36-49 | scanning an encoding that sits in the data stops exactly at its end |
| Io.ReadVarintAt | src/io.rs:36-49 | an encoding found at `cur` reads back as its number, the cursor ending just past it (with lines 128-131) |
| Io.TakeAt | src/io.rs:18-23 | bytes found at `cur` are read back as themselves |
| Io.ReadU8At | src/io.rs:18-23 | a byte found at `cur` reads back |
| Io.ReadI8At | src/io.rs:18-23 | an `i8` found at `cur` reads back |
| Io.ReadU16At | src/io.rs:18-23 | a little-endian `u16` found at `cur` reads back |
| Io.ReadU32At | src/io.rs:18-23 | a little-endian `u32` found at `cur` reads back |
| Io.ReadI32At | src/io.rs:18-23 | a little-endian `i32` found at `cur` reads back |
| Io.ReadWrittenU8 | src/io.rs:18-23 | a byte written between two pieces reads back |
| Io.ReadWrittenI8 | src/io.rs:18-23 | an `i8` written between two pieces reads back |
| Io.ReadWrittenU16 | src/io.rs:18-23 | a `u16` written little-endian between two pieces reads back |
| Io.ReadWrittenI32 | src/io.rs:18-23 | an `i32` written little-endian between two pieces reads back |
| Io.Reader.NextI8 | src/io.rs:18-23 | one byte as an `i8`, or `Data` with the cursor unchanged |
| Io.ByteVec.Extend | src/herd/io.rs:136 | `extend_from_slice`: the bytes are appended |
| Io.ByteVec.Push | src/event.rs:103 | `push`: the byte is appended |
| Io.ByteVec.Patch | src/event.rs:130 | a back-patch replaces the bytes at `at` and keeps the length |
| Event.AsWrittenVelocityMinusOne | src/event.rs:58-61 | a velocity of -1 is written as 0xFFFF, which the reader refuses with a panic (with lines 109-110) |
| Event.ParseEvent | src/event.rs:50-80 | one event read stays inside the data |
| Event.ParseEvents | src/event.rs:50-80 | the events read stay inside the data |
| Event.ParseEveList | src/event.rs:43-86 | an event list read stays inside the data |
| Event.ParseEventShape | src/event.rs:50-80 | an event read is never a debug event and takes at least one byte |
| Event.EncodeNoEvents | src/event.rs:95-129 | an empty list writes no event and leaves the previous tick as it is |
| Event.EventFieldsAt | src/event.rs:51-54 | the four fields of an event, found at `cur`, read back one by one |
| Event.EventRoundTrip | src/event.rs:50-80 | one event written as a delta from an earlier tick reads back as itself (with lines 100-127) |
| Event.EveListLayout | src/event.rs:88-131 | the chunk is the size field, the count and the events, in that order |
| Event.EveListHeaderRead | src/event.rs:44-45 | the size and count fields read back, four bytes each |
| Event.WrittenLength | src/event.rs:95-99 | dropping the debug events never lengthens the list |
| Event.InsertByTickPermutes | src/event.rs:133-135 | inserting adds exactly the one event |
| Event.SortedSnoc | src/event.rs:133-135 | a sorted list followed by an event no earlier than any of it is sorted |
| Event.InsertedBelow | src/event.rs:133-135 | inserting an event earlier than `last` keeps every event at or before it |
| Event.InsertByTickSorted | src/event.rs:133-135 | inserting into a sorted list keeps it sorted |
| Event.InsertByTickWithTick | src/event.rs:133-135 | inserting keeps the order among events of equal tick, the new one last among its tick |
| Event.ReadEvent | src/event.rs:50-80 | one event through the cursor, as `ParseEvent` says |
| Event.WriteEvent | src/event.rs:100-127 | appends the delta from `absolute`, the unit, the kind and the value |
| Event.WriteEvents | src/event.rs:94-128 | appends every non-debug event as a delta from the one before, and counts them, wrapping to `u32` |
| Event.WriteNextEvent | src/event.rs:95-128 | one turn of the loop: event `i` is appended and counted unless it is a debug event |
| Event.EveList.constructor | src/event.rs:14-22 | an empty list with size field 0 |
| HerdIo.ToCodeInjective | src/herd/io.rs:294-320 | no two tags share an eight-byte code |
| HerdIo.TagRoundTrip | src/herd/io.rs:266-320 | `from_code(to_code(t))` is `Some(t)` for every tag |
| HerdIo.FromCodeExact | src/herd/io.rs:266-293 | `from_code` recognises exactly the 23 codes, each as its own tag, and refuses every other eight bytes |
| HerdIo.ParseVersionShape | src/herd/io.rs:395-422 | a version read that succeeds found one of the nine version strings and spans 20 bytes; any other string is `FmtUnknown` |
| HerdIo.VersionRoundTrip | src/herd/io.rs:395-422 | a written version header reads back as the same format, `exe_ver` and `dummy`, for every format except a version 1 tune |
| HerdIo.VersionCodeInjective | src/herd/io.rs:385-393 | no two formats share a version string |
| HerdIo.ReadVersion | src/herd/io.rs:395-422 | the method reads what `ParseVersion` describes and moves the cursor to match |
| HerdIo.WriteVersion | src/herd/io.rs:555-572 | appends the version string, `exe_ver` and `dummy`, or refuses a version 1 tune with `UnsupportedFmt` and appends nothing |
| HerdIo.ReadTag | src/herd/io.rs:57-61 | a short input is `Data`; otherwise the code's tag, or none for an unknown code |
| HerdIo.UnitNumRoundTrip | src/herd/io.rs:456-484 | the written unit count reads back, clamped to 50 |
| HerdIo.ParseUnitNumRefusals | src/herd/io.rs:456-470 | a size other than 4 or a non-zero reserved field is `FmtUnknown`, and a count above 50 is `FmtNewer` |
| HerdIo.ReadUnitNum | src/herd/io.rs:456-470 | the method reads what `ParseUnitNum` describes |
| HerdIo.WriteUnitNum | src/herd/io.rs:472-484 | appends the tag, size 4, the count clamped to 50 and a zero |
| HerdIo.Strlen | src/herd/io.rs:380-383 | the position of the first zero byte, or 16: no byte before it is zero |
| HerdIo.NameFieldRoundTrip | src/herd/io.rs:358-383 | a name written into a 16-byte field reads back truncated to 16 bytes and cut at its first zero byte |
| HerdIo.PlainNameRoundTrip | src/herd/io.rs:358-383 | a name of at most 16 bytes without a zero byte reads back unchanged |
| HerdIo.UnitRoundTrip | src/herd/io.rs:331-378 | a unit name chunk reads back as the unit's index and name, truncated and cut at a zero byte, when that unit exists |
| HerdIo.ReadUnit | src/herd/io.rs:331-356 | the method reads what `ParseUnit` describes |
| HerdIo.WriteUnitEntry | src/herd/io.rs:360-377 | an unnamed unit appends nothing; a named one appends its tag and chunk |
| HerdIo.WriteUnits | src/herd/io.rs:358-378 | the loop appends one chunk per named unit among the first 50, in order, with its position as index |
| HerdIo.EncodeUnitsSnoc | src/herd/io.rs:358-378 | writing one more unit appends that unit's entry |
| HerdIo.AsWrittenLongVoiceNamePanics | src/herd/io.rs:517-530 | a 17-byte voice name makes `write_assist_voice` panic |
| HerdIo.AssistVoiceRoundTrip | src/herd/io.rs:494-530 | a voice name chunk reads back as the voice's index and its name, truncated and cut at a zero byte |
| HerdIo.ReadAssistVoice | src/herd/io.rs:494-512 | the method reads what `ParseAssistVoice` describes: size 20, an index that fits a byte, the name |
| HerdIo.WriteAssistVoice | src/herd/io.rs:517-530 | appends the tag and the chunk with the name truncated to 16 bytes |
| HerdIo.DelayUnitCodes | src/herd/io.rs:172-177 | the delay unit codes 0, 1 and 2 and the three units correspond one to one |
| HerdIo.DelayRoundTrip | src/herd/io.rs:167-208 | a delay chunk reads back as the same unit, group, rate and frequency |
| HerdIo.ParseDelayRefusals | src/herd/io.rs:167-191 | a size other than 12 or a unit code above 2 is `FmtUnknown`, and a chunk read spans 16 bytes |
| HerdIo.ReadDelay | src/herd/io.rs:167-191 | the method reads what `ParseDelay` describes |
| HerdIo.WriteDelay | src/herd/io.rs:193-208 | appends the tag, size 12, the unit code, the group, the rate and the frequency |
| HerdIo.OverdriveRoundTrip | src/herd/io.rs:220-255 | an overdrive chunk whose cut and amplification are in their valid ranges reads back unchanged |
| HerdIo.ReadOverdrive | src/herd/io.rs:220-242 | the method reads what `ParseOverdrive` describes: a short input or a group that does not fit a byte panics, a bad reserved field, cut or amplification is `FmtUnknown` |
| HerdIo.WriteOverdrive | src/herd/io.rs:244-255 | appends the tag, size 16, a zero, the group, the cut, the amplification and 0.0 |
| HerdIo.TextRoundTrip | src/herd/io.rs:600-614 | a text of less than 4 GiB reads back unchanged |
| HerdIo.ReadText | src/herd/io.rs:609-614 | the method reads a 32-bit length and then that many bytes, as `ParseText` describes |
| HerdIo.WriteText | src/herd/io.rs:574-607 | an empty text appends nothing; otherwise the tag, the length and the bytes |
| HerdIo.CodeName | src/herd/io.rs:294-320 | each tag's code is eight ASCII characters |
| HerdIo.ToCode | src/herd/io.rs:294-320 | each tag's code as eight bytes |
| HerdIo.CodeKeys | src/herd/io.rs:294-320 | the codes differ in their last three bytes, which are listed per tag |
| HerdIo.FindTag | src/herd/io.rs:266-293 | the tag found has exactly that code, and no tag is found when none has |
| HerdIo.DefaultFmtInfo | src/herd.rs:67-76 | the default format is a version 5 collage with zero `exe_ver` and `dummy` |
| HerdIo.VersionName | src/herd/io.rs:385-393 | each format's version string is 16 ASCII characters, and a version 1 tune has none (with lines 555-572) |
| HerdIo.VersionCode | src/herd/io.rs:385-393 | each format's version string as 16 bytes (with lines 555-572) |
| HerdIo.VersionKeys | src/herd/io.rs:385-393 | the nine version strings differ in their last two bytes, which are listed per format |
| HerdIo.FindVersion | src/herd/io.rs:395-422 | the format found has exactly that version string, and none is found when no format has |
| HerdIo.FindVersionCode | src/herd/io.rs:395-422 | each format's version string is recognised as that format |
| HerdIo.ParseVersion | src/herd/io.rs:395-422 | a version header read stays inside the data |
| HerdIo.EncodeVersion | src/herd/io.rs:555-572 | a version 1 tune is refused as `UnsupportedFmt`, every other format written as 20 bytes |
| HerdIo.ParseUnitNum | src/herd/io.rs:456-470 | a count read is at most 50 and the read stays inside the data |
| HerdIo.EncodeUnitNum | src/herd/io.rs:472-484 | the unit-count chunk after its tag is 8 bytes |
| HerdIo.FirstZero | src/herd/io.rs:380-383 | the first zero byte from `from` on, or the end: every byte before it is non-zero |
| HerdIo.NameField | src/herd/io.rs:358-378 | the name field is 16 bytes |
| HerdIo.ParseUnit | src/herd/io.rs:331-356 | a unit name read names an existing unit and stays inside the data |
| HerdIo.EncodeUnit | src/herd/io.rs:358-378 | one unit's name chunk with its tag is 24 bytes |
| HerdIo.ParseAssistVoice | src/herd/io.rs:494-515 | a voice name read stays inside the data |
| HerdIo.EncodeAssistVoiceAsWritten | src/herd/io.rs:517-530 | fails exactly for a name longer than 16 bytes, where `copy_from_slice` panics |
| HerdIo.EncodeAssistVoice | src/herd/io.rs:517-530 | 32 bytes, the same as written for every name of at most 16 bytes |
| HerdIo.DelayUnitOfCode | src/herd/io.rs:173-178 | the codes 0, 1 and 2, and no other, name a delay unit |
| HerdIo.ParseDelay | src/herd/io.rs:167-191 | a delay read stays inside the data |
| HerdIo.EncodeDelay | src/herd/io.rs:193-208 | the delay chunk after its tag is 16 bytes |
| HerdIo.ParseOverdrive | src/herd/io.rs:220-242 | an overdrive read stays inside the data |
| HerdIo.EncodeOverdrive | src/herd/io.rs:244-255 | the overdrive chunk after its tag is 20 bytes |
| HerdIo.ParseText | src/herd/io.rs:609-614 | a text read stays inside the data |
| TuneIo.EmptyTune | src/herd.rs:264-285 | the state a song is read into holds no more than the herd's capacities |
| TuneIo.Unnamed | src/herd/io.rs:67-72 | one name per unit `read_unit_num` creates |
| TuneIo.TagStep | src/herd/io.rs:63-122 | a chunk that does not fail stays inside the data and never moves back |
| TuneIo.ItemStep | src/herd/io.rs:57-62 | a pass that does not fail moves past the tag and stays inside the data |
| TuneIo.RunItems | src/herd/io.rs:49-126 | a read that does not fail ends past a tag and inside the data |
| TuneIo.ItemStepAt | src/herd/io.rs:57-63 | a known tag at `cur` is read and its chunk follows at `cur + 8` |
| TuneIo.RunItemsRefusals | src/herd/io.rs:57-66 | a short input is `Data`, an unknown code `FmtUnknown`, `antiOPER` is `AntiOpreation`, a tag only older versions use `OldUnsupported`; an end tag ends the loop right after it with the state as it was (with lines 113-123) |
| TuneIo.TagStepFinish | src/herd/io.rs:113-115 | only the two end tags finish a pass, without reading anything after them |
| TuneIo.FinishAtEndTag | src/herd/io.rs:57-115 | a pass that finishes ends right after an end tag |
| TuneIo.RunEndsAtEndTag | src/herd/io.rs:49-126 | a read that succeeds stops right after `pxtoneND` or `END=====` |
| TuneIo.ItemStepKeepsCapacity | src/herd/io.rs:67-112 | one pass never pushes past 50 units, 4 delays or 2 overdrives |
| TuneIo.RunKeepsCapacity | src/herd/io.rs:49-126 | nor does the whole read |
| TuneIo.EncodeDelays | src/herd/io.rs:142-145 | 24 bytes per delay: its tag and its 16-byte chunk |
| TuneIo.EncodeOverdrives | src/herd/io.rs:146-149 | 28 bytes per overdrive: its tag and its 20-byte chunk |
| TuneIo.EncodeTune | src/herd/io.rs:545-553 | the write succeeds exactly when the version is writable and every voice is |
| TuneIo.RunContinues | src/herd/io.rs:57-124 | a pass that continues can be skipped: the rest of the loop starts where it ended |
| TuneIo.MasterChunkRead | src/herd/io.rs:74-76 | a written master chunk sets the master, with measure count 1 (with lines 136-137) |
| TuneIo.EventsChunkRead | src/herd/io.rs:77-79 | a written event chunk sets the events to those written (with lines 138-139) |
| TuneIo.TextChunkParsed | src/herd/io.rs:574-598 | a written non-empty text chunk holds its tag and a text that parses back |
| TuneIo.TextChunkRead | src/herd/io.rs:101-106 | a written text chunk sets the name or the comment; an empty text writes and sets nothing (with lines 140-141) |
| TuneIo.DelayChunkRead | src/herd/io.rs:95-97 | a written delay chunk adds the delay (with lines 142-145) |
| TuneIo.DelayChunksRead | src/herd/io.rs:95-97 | the delay chunks add the delays, in order (with lines 142-145) |
| TuneIo.OverdriveChunkRead | src/herd/io.rs:98-100 | a written overdrive chunk whose values lie in the accepted ranges adds the overdrive (with lines 146-149) |
| TuneIo.OverdriveChunksRead | src/herd/io.rs:98-100 | the overdrive chunks add the overdrives, in order (with lines 146-149) |
| TuneIo.UnitNumChunkRead | src/herd/io.rs:67-72 | a written unit count adds that many unnamed units (with line 153) |
| TuneIo.UnitEntryRead | src/herd/io.rs:110-112 | a written name chunk for unit `i` names that unit; an unnamed unit writes nothing (with line 154) |
| TuneIo.NamedPrefix | src/herd/io.rs:331-378 | one name per unit: the first `i` read, the rest unnamed |
| TuneIo.UnitEntriesRead | src/herd/io.rs:331-378 | the name chunks of the first `i` units name those units, in order |
| TuneIo.MasterEventsRead | src/herd/io.rs:74-79 | the master chunk and then the event chunk set the master and the events as written (with lines 136-139) |
| TuneIo.SongChunksRead | src/herd/io.rs:74-106 | the song's chunks set the master, the events, the name and the comment (with lines 136-141) |
| TuneIo.EffectChunksRead | src/herd/io.rs:95-100 | the effect chunks add the delays and then the overdrives (with lines 142-149) |
| TuneIo.UnitChunksRead | src/herd/io.rs:67-72 | the unit chunks make the units and name them (with lines 110-112, 153-154) |
| TuneIo.ItemsReadBack | src/herd/io.rs:49-156 | the items of a writable song, followed by the end tag, read back as the song |
| TuneIo.EncodeTuneLayout | src/herd/io.rs:545-553 | a song without voices is written as its version header, its items, the end tag and four zero bytes |
| TuneIo.WrittenHeader | src/herd/io.rs:395-422 | the written song starts with its version header, which parses back (with lines 545-572) |
| TuneIo.WrittenBody | src/herd/io.rs:545-553 | the items and the end tag follow the 20-byte header, and then the 4-byte tail |
| TuneIo.TuneRoundTrip | src/herd/io.rs:532-553 | a writable song without voices reads back as written, up to the measure count and the events `write` leaves out, ending right after the end tag |
| TuneIo.EmptySongReadsBack | src/herd/io.rs:532-553 | a version header and the end tag read back as a new song in that format |
| TuneIo.Project.constructor | src/herd.rs:264-285 | a default song, an empty herd and no voices |
| TuneIo.Project.ReadChunk | src/herd/io.rs:63-122 | the chunk for the tag is read and applied as `TagStep` says; on an error nothing is applied; the result says whether the tag ended the loop |
| TuneIo.Project.ReadSongChunk | src/herd/io.rs:74-79 | the master or the event chunk, as `TagStep` says |
| TuneIo.Project.ReadTextChunk | src/herd/io.rs:101-106 | the name or the comment chunk, as `TagStep` says |
| TuneIo.Project.ReadHerdChunk | src/herd/io.rs:67-72 | a unit count, a delay, an overdrive or a unit name, as `TagStep` says (with lines 95-100, 110-112) |
| TuneIo.Project.ReadVoiceChunk | src/herd/io.rs:81-93 | a voice of the tag's kind, as `TagStep` says (with lines 424-433) |
| TuneIo.Project.ReadAssistVoiceChunk | src/herd/io.rs:107-109 | names a voice already read, as `TagStep` says |
| TuneIo.Project.PushVoice | src/herd/io.rs:424-433 | a voice read is added under the default name; an error adds nothing |
| TuneIo.Project.Read | src/herd/io.rs:532-543 | the new state is what `ReadTune` makes of the old one, and the read fails exactly when it reports an error |
| TuneIo.Project.WriteTuneItems | src/herd/io.rs:130-156 | a voice that cannot be written fails the write; otherwise the items are appended |
| TuneIo.Project.WriteSongChunks | src/herd/io.rs:136-141 | the master, the events, the name and the comment are appended |
| TuneIo.Project.WriteEffectChunks | src/herd/io.rs:142-149 | every delay and then every overdrive is appended |
| TuneIo.Project.WriteDelays | src/herd/io.rs:142-145 | every delay is appended, in order |
| TuneIo.Project.WriteOverdrives | src/herd/io.rs:146-149 | every overdrive is appended, in order |
| TuneIo.Project.WriteUnitChunks | src/herd/io.rs:153-154 | the unit count and the unit names are appended |
| TuneIo.Project.Write | src/herd/io.rs:545-553 | the bytes are `EncodeTune` of the song, whose reading back `TuneRoundTrip` states |
| TuneIo.Project.ReadTuneItems | src/herd/io.rs:49-126 | tags and chunks until an end tag or the first error, as `RunItems` says; on an error the state is what the chunks before it made of it |
| VoiceIo.DecodeLevel | src/voice/io.rs:244-245 | a volume or pan read succeeds exactly when the varint, reinterpreted as `i32`, fits an `i16`, and then it is that value; otherwise the `unwrap` panics |
| VoiceIo.LevelRoundTrip | src/voice/io.rs:244-245 | a level sign-extended to 32 bits reads back as itself, for every `i16` |
| VoiceIo.ZeroExtendedLevel | src/voice/io.rs:244-245 | a level zero-extended as `ptv_write` does reads back only when non-negative; every negative level makes the read panic (with lines 288-289) |
| VoiceIo.AsWrittenNegativeVolumeUnreadable | src/voice/io.rs:244 | a unit written with a negative volume, zero-extended as written, cannot be read back: the read panics (with line 288) |
| VoiceIo.DataFlags | src/voice/io.rs:291-294 | the data flags always announce the wave, and announce the envelope exactly when it has points |
| VoiceIo.EncodePtvUnitWith | src/voice/io.rs:286-303 | a unit can be written exactly when its data is a wave that the wave writer accepts; any other data reaches `unreachable!()` |
| VoiceIo.PtvUnitRoundTrip | src/voice/io.rs:240-262 | a unit written with sign-extended levels reads back as itself (with lines 286-303) |
| VoiceIo.PtvUnitsRoundTrip | src/voice/io.rs:240-263 | the units written one after the other read back as the same units, in order (with lines 286-304) |
| VoiceIo.ParsePtv | src/voice/io.rs:219-268 | a `.ptvoice` read yields one or two units |
| VoiceIo.PtvRoundTrip | src/voice/io.rs:219-310 | one or two units that each round-trip make a `.ptvoice` image that reads back as exactly those units, ending at its last byte |
| VoiceIo.ParsePtvRefusals | src/voice/io.rs:220-227 | an image that does not start with `PTVOICE-` is `InvalidTag`, and a version above 20060111 is `FmtNewer` |
| VoiceIo.ParsePtvUnits | src/voice/io.rs:240-263 | a read of `n` units yields exactly `n` more |
| VoiceIo.PtvPrefixRoundTrip | src/voice/io.rs:219-239 | the header, the two zero work fields and the unit count written read back, leaving the units (with lines 270-285) |
| VoiceIo.ReadPtvUnit | src/voice/io.rs:240-262 | the method reads what `ParsePtvUnit` describes |
| VoiceIo.PtvRead | src/voice/io.rs:219-268 | the method reads what `ParsePtv` describes |
| VoiceIo.FromPtvoice | src/voice/io.rs:208-211 | a `.ptvoice` image read from its first byte, as `ParsePtv` at 0 |
| VoiceIo.WritePtvUnit | src/voice/io.rs:286-303 | appends the unit's encoding or stops with its error, never changing what was there before |
| VoiceIo.WritePtvUnitHead | src/voice/io.rs:287-295 | appends the six opening varints of a unit |
| VoiceIo.WritePtvUnits | src/voice/io.rs:286-304 | the loop appends every unit's encoding, or stops at the first unit that cannot be written with its error |
| VoiceIo.PtvWrite | src/voice/io.rs:270-310 | appends the image with its size field back-patched to the number of bytes after it, or fails with the unit's error, never changing what was there before |
| VoiceIo.WritePtvHead | src/voice/io.rs:271-285 | appends the tag, the version, a zero size field, the work fields and the unit count, and returns where the size field is |
| VoiceIo.ToPtvoice | src/voice/io.rs:213-217 | a fresh image is `EncodePtv` of the units, or its error |
| VoiceIo.PcmHeaderRoundTrip | src/voice/io.rs:17-28 | the `IoPcm` header written field by field reads back as itself (with lines 77-106) |
| VoiceIo.ParseMatePcm | src/voice/io.rs:42-75 | a PCM read yields one unit holding PCM data |
| VoiceIo.ParsePcmSamples | src/voice/io.rs:58-74 | once the header is accepted, the read yields one unit holding PCM data |
| VoiceIo.FrameCount | src/voice/io.rs:58-63 | for whole frames, dividing the sample bytes by the frame size gives back the sample count |
| VoiceIo.MatePcmRoundTrip | src/voice/io.rs:42-109 | a PCM voice whose sample bytes are whole frames reads back as itself, under the key, flags and tuning written |
| VoiceIo.ParseMatePcmRefusals | src/voice/io.rs:47-57 | a sample width other than 8 or 16 bits, or a channel count other than 1 or 2, is `FmtUnknown` |
| VoiceIo.ReadMatePcm | src/voice/io.rs:42-75 | the method reads what `ParseMatePcm` describes |
| VoiceIo.ReadPcmSamples | src/voice/io.rs:58-74 | the method reads the samples into a buffer of their size, as `ParsePcmSamples` describes |
| VoiceIo.WriteMatePcm | src/voice/io.rs:77-109 | appends the tag, the size, the header and the samples |
| VoiceIo.PtnHeaderRoundTrip | src/voice/io.rs:29-37 | the `IoPtn` header written reads back as itself (with lines 131-143) |
| VoiceIo.ParseMatePtn | src/voice/io.rs:111-129 | a noise read yields one unit holding noise data |
| VoiceIo.MatePtnRoundTrip | src/voice/io.rs:111-149 | noise data whose units are canonical reads back as itself, under the key, flags and tuning written |
| VoiceIo.ParseMatePtnRefusals | src/voice/io.rs:115-117 | an `rrr` field other than 0 or 1 is `FmtUnknown` |
| VoiceIo.ReadMatePtn | src/voice/io.rs:111-129 | the method reads what `ParseMatePtn` describes |
| VoiceIo.WriteMatePtn | src/voice/io.rs:131-149 | appends the tag, a size back-patched to the number of bytes after it, the header and the noise data |
| VoiceIo.MatePtvRoundTrip | src/voice/io.rs:151-179 | a `matePTV` chunk reads back as the units of the image it wraps |
| VoiceIo.MatePtvFraming | src/voice/io.rs:151-154 | the chunk size and the `IoPtv` header are skipped whatever they hold |
| VoiceIo.MatePtvChunkOf | src/voice/io.rs:156-179 | the chunk size is the bytes after the size field, cast to `u32`; the header size is that minus 12 with `u32` wrap-around, and without wrap-around the sizes are the image length plus 12 and the image length |
| VoiceIo.ReadMatePtv | src/voice/io.rs:151-155 | the method reads what `ParseMatePtv` describes |
| VoiceIo.WriteMatePtv | src/voice/io.rs:156-179 | appends the tag and the chunk with both sizes back-patched, and succeeds exactly when the image can be written, failing otherwise with the image's error |
| VoiceIo.PatchMatePtvSizes | src/voice/io.rs:168-177 | the two back-patches: the chunk size, then the header size, which is the chunk size minus 12 with `u32` wrap-around |
| VoiceIo.ParseOgg | src/voice/io.rs:311-331 | without Ogg/Vorbis support a read never yields a voice: a short input is `Data`, a data size of 0 is `InvalidData`, any other is `OggvSupportDisabled` |
| VoiceIo.ReadOgg | src/voice/io.rs:311-331 | the method reads what `ParseOgg` describes |
| VoiceIo.ParseWaveField | src/voice/io.rs:250-257 | a wave read stays inside the data |
| VoiceIo.ParseEnvelopeField | src/voice/io.rs:258-260 | an envelope read stays inside the data |
| VoiceIo.ParsePtvUnit | src/voice/io.rs:241-262 | a unit read stays inside the data |
| VoiceIo.EncodePtv | src/voice/io.rs:270-310 | an image can be written exactly when all its units can |
| VoiceIo.PtvUnitHeadRoundTrip | src/voice/io.rs:242-249 | the six opening varints of a unit read back as its key, volume, pan, tuning, flags and data flags (with lines 286-294) |
| VoiceIo.ThreeVarintsAt | src/voice/io.rs:229-231 | three varints written in a row read back one after the other (with lines 276-280) |
| VoiceIo.EncodePtvUnitsAppend | src/voice/io.rs:286-304 | the units of two lists are written one list after the other |
| VoiceIo.EncodePtvUnitsSingle | src/voice/io.rs:286-303 | a list of one unit is written as that unit |
| VoiceIo.PtvTailSplit | src/voice/io.rs:276-304 | the unit bytes follow the work fields and the count unchanged |
| VoiceIo.PtvHeaderAt | src/voice/io.rs:220-228 | the tag, the version and the size field written read back (with lines 271-276) |
| VoiceIo.PtvCountsAt | src/voice/io.rs:229-235 | the work fields read back as 0 and the count as the number of units (with lines 276-283) |
| VoiceIo.EncodePcmHeader | src/voice/io.rs:19-28 | the `IoPcm` header always takes its fixed size (with lines 83-106) |
| VoiceIo.EncodePtnHeader | src/voice/io.rs:32-37 | the `IoPtn` header always takes its fixed size (with lines 137-143) |
| VoiceIo.ParseMatePtv | src/voice/io.rs:151-155 | a `matePTV` read stays inside the data |
| VoiceIo.MatePtvChunk | src/voice/io.rs:156-179 | the chunk can be written exactly when its image can, and fails with the image's error otherwise |
| VoiceIo.PtvHeader | src/voice/io.rs:158-163 | the `IoPtv` header always takes its fixed size (with lines 454-459) |
| VoiceIo.MatePtvChunkShape | src/voice/io.rs:156-179 | a written chunk is the size after the size field, the header holding that minus 12 with `u32` wrap-around, then the image |
| WaveIo.ParseCoordPts | src/voice/io.rs:348-353 | a read of `n` coordinate points yields exactly `n` more |
| WaveIo.ParseOvertonePts | src/voice/io.rs:361-369 | a read of `n` overtone points yields exactly `n` more |
| WaveIo.OvertonePtsRefusals | src/voice/io.rs:364-368 | an x beyond `u16`, or a y whose signed value is beyond `i16`, is `OvertonePointOutOfRange` carrying that value |
| WaveIo.EncodeWave | src/voice/io.rs:378-413 | writing fails exactly for a coordinate wave with a point whose x does not fit a byte or whose y does not fit a signed byte, and then with `CoordWavePointOutOfRange` |
| WaveIo.WaveRoundTrip | src/voice/io.rs:343-413 | a wave that can be written reads back as itself |
| WaveIo.CoordWaveRoundTrip | src/voice/io.rs:346-357 | a coordinate wave that fits reads back with the same points and resolution (with lines 379-397) |
| WaveIo.OvertoneWaveRoundTrip | src/voice/io.rs:359-371 | an overtone wave reads back with the same points (with lines 399-410) |
| WaveIo.CoordPtsRoundTrip | src/voice/io.rs:348-353 | coordinate points that fit read back in order (with lines 390-396) |
| WaveIo.OvertonePtsRoundTrip | src/voice/io.rs:363-369 | overtone points read back in order, y sign-extended and back (with lines 406-409) |
| WaveIo.EnvelopeRoundTrip | src/voice/io.rs:415-450 | a non-empty envelope reads back as itself |
| WaveIo.ParseEnvelopeRefusals | src/voice/io.rs:418-425 | a body count other than 0, or a tail count other than 1, is `FmtUnknown` |
| WaveIo.ReadCoordPts | src/voice/io.rs:348-353 | the loop reads what `ParseCoordPts` describes |
| WaveIo.ReadOvertonePts | src/voice/io.rs:361-369 | the loop reads what `ParseOvertonePts` describes |
| WaveIo.ReadWave | src/voice/io.rs:343-376 | the method reads what `ParseWave` describes |
| WaveIo.ReadEnvelope | src/voice/io.rs:415-433 | the method reads what `ParseEnvelope` describes |
| WaveIo.WriteCoordPts | src/voice/io.rs:390-396 | the loop appends every point when all fit, and otherwise reports failure, never changing what was there before |
| WaveIo.WriteOvertonePts | src/voice/io.rs:406-409 | the loop appends every point's two varints |
| WaveIo.WriteWave | src/voice/io.rs:378-413 | appends the encoding, or stops with `CoordWavePointOutOfRange`, never changing what was there before |
| WaveIo.WriteEnvelope | src/voice/io.rs:435-450 | appends seconds per point, head = points - 1, body 0, tail 1 and the points |
| WaveIo.ParseWave | src/voice/io.rs:343-376 | a wave read stays inside the data |
| WaveIo.ParseEnvelope | src/voice/io.rs:415-433 | an envelope read stays inside the data |
| WaveIo.EncodeCoordPtsAppend | src/voice/io.rs:390-396 | the points of two lists are written one list after the other |
| WaveIo.EncodeOvertonePtsAppend | src/voice/io.rs:406-409 | the points of two lists are written one list after the other |
| WaveIo.EncodeCoordPtsSingle | src/voice/io.rs:391-395 | a list of one point is written as that point, or fails when its x does not fit |
| WaveIo.EncodeOvertonePtsSingle | src/voice/io.rs:407-408 | a list of one point is written as its two varints |
| WaveIo.WriteOvertonePt | src/voice/io.rs:407-408 | appends one point: x, then y sign-extended |
| Noise.WaveOfCode | src/voice_data/noise.rs:176-198 | a wave code reads as a type exactly for 1..=16, and then as the type whose code it is; 0 panics and codes above 16 are `FmtUnknown` |
| Noise.WaveCodeRoundTrip | src/voice_data/noise.rs:176-228 | every wave type's code reads back as that type |
| Noise.OscillatorRoundTrip | src/voice_data/noise.rs:176-228 | a written oscillator reads back as itself |
| Noise.ParseEnvPts | src/voice_data/noise.rs:62-67 | a read of `n` envelope points yields exactly `n` more and keeps those read before |
| Noise.ParseDesignUnits | src/voice_data/noise.rs:47-83 | a read of `n` design units yields exactly `n` more |
| Noise.NoiseRefusals | src/voice_data/noise.rs:31-43 | a tag other than `PTNOISE-` is `InvalidTag`, a version above 20120418 `FmtNewer`, more than four units `FmtUnknown` |
| Noise.DesignUnitRefusals | src/voice_data/noise.rs:50-61 | a flag word with a bit of 0xffff_ff83 set, or an envelope of more than three points, is `FmtUnknown` (with line 160) |
| Noise.EnvPtsRoundTrip | src/voice_data/noise.rs:62-67 | written envelope points read back, in order, after those read before (with lines 101-104) |
| Noise.EnvelopeFieldRoundTrip | src/voice_data/noise.rs:57-68 | the envelope is written and read exactly when its flag bit is set (with lines 97-105) |
| Noise.OscFieldRoundTrip | src/voice_data/noise.rs:73-81 | an oscillator is written and read exactly when its flag bit is set (with lines 109-117) |
| Noise.DesignUnitRoundTrip | src/voice_data/noise.rs:47-83 | a design unit a read could produce reads back as itself: the flags, then exactly the flagged fields in order (with lines 96-118) |
| Noise.DesignUnitsRoundTrip | src/voice_data/noise.rs:47-83 | the design units written read back in order (with lines 96-118) |
| Noise.NoiseRoundTrip | src/voice_data/noise.rs:27-119 | noise data whose units a read could produce reads back as itself, whatever surrounds it |
| Noise.ParsedNoiseCanonical | src/voice_data/noise.rs:27-86 | every unit a read produces has no unknown flag bit and defaults in its unflagged fields, so the round trip covers everything a read yields |
| Noise.FixMeaning | src/voice_data/noise.rs:125-140 | after `fix` every value is within its limit, values already within it are unchanged, fixing is idempotent, and the unit and point counts and flag words stay (with lines 162-167) |
| Noise.FixUnitMeaning | src/voice_data/noise.rs:130-138 | one unit's fixes bring it within its limits and leave a unit within them unchanged (with lines 169-173) |
| Noise.ReadOscillator | src/voice_data/noise.rs:176-207 | the method reads what `ParseOscillator` describes |
| Noise.ReadEnvPts | src/voice_data/noise.rs:62-67 | the loop reads what `ParseEnvPts` describes |
| Noise.ReadDesignUnit | src/voice_data/noise.rs:48-82 | the method reads what `ParseDesignUnit` describes |
| Noise.WriteOscillator | src/voice_data/noise.rs:209-228 | appends the wave code, the invert flag and the three values |
| Noise.WriteEnvPts | src/voice_data/noise.rs:101-104 | the loop appends every point |
| Noise.WriteDesignUnit | src/voice_data/noise.rs:95-117 | appends the flags, then each field whose bit is set |
| Noise.NoiseData.GetUnitNum | src/voice_data/noise.rs:142-144 | the number of units, at most four |
| Noise.NoiseData.Release | src/voice_data/noise.rs:121-123 | drops the units and keeps the sample count |
| Noise.NoiseData.Read | src/voice_data/noise.rs:27-86 | on success holds exactly what `ParseNoise` describes, none of the units held before, with the cursor past it; on failure returns its error |
| Noise.NoiseData.ReadUnits | src/voice_data/noise.rs:45-83 | the loop over the design units fills the units with what `ParseDesignUnits` reads |
| Noise.NoiseData.Write | src/voice_data/noise.rs:88-119 | appends the encoding of the object's contents |
| Noise.NoiseData.Fix | src/voice_data/noise.rs:125-140 | the new state is `FixDesign` of the old one |
| Noise.WaveCode | src/voice_data/noise.rs:210-227 | every wave type is stored as a code from 1 to 16 |
| Noise.ParseOscillator | src/voice_data/noise.rs:176-207 | an oscillator read stays inside the data |
| Noise.ParseEnvelopeField | src/voice_data/noise.rs:56-67 | an envelope read stays inside the data |
| Noise.ParsePanField | src/voice_data/noise.rs:68-70 | a pan read stays inside the data |
| Noise.ParseOscField | src/voice_data/noise.rs:72-80 | an oscillator field read stays inside the data |
| Noise.ParseDesignUnit | src/voice_data/noise.rs:48-80 | a design unit read stays inside the data |
| Noise.ParseNoise | src/voice_data/noise.rs:27-86 | a noise design read stays inside the data |
| Noise.NoiseHeadRead | src/voice_data/noise.rs:31-39 | the tag, the version, the sample count and the unit count of a written design read back in order (with lines 88-94) |
| Noise.ParsedUnitCanonical | src/voice_data/noise.rs:48-80 | every unit read has no unknown flag and keeps the default in every field whose flag is clear |
| Noise.ParsedUnitsCanonical | src/voice_data/noise.rs:45-81 | so does every unit of a list read |
| Noise.EncodeEnvPtsAppend | src/voice_data/noise.rs:100-103 | the points of two lists are written one list after the other |
| Noise.EncodeDesignUnitsAppend | src/voice_data/noise.rs:95-117 | the units of two lists are written one list after the other |
| Noise.WriteEnvPt | src/voice_data/noise.rs:101-102 | appends one envelope point |
| Noise.WriteEnvelopeField | src/voice_data/noise.rs:97-104 | appends the envelope when its flag is set, nothing otherwise |
| Noise.WritePanField | src/voice_data/noise.rs:105-107 | appends the pan when its flag is set, nothing otherwise |
| Noise.WriteOscField | src/voice_data/noise.rs:108-116 | appends the oscillator when its flag is set, nothing otherwise |
| Noise.NoiseData.constructor | src/voice_data/noise.rs:146-148 | an empty design with sample count 0 |
| Noise.EncodeDesignUnitsSingle | src/voice_data/noise.rs:95-117 | a list of one unit is written as that unit |
| Pcm.SampleSize | src/voice_data/pcm.rs:22-34 | the buffer size is the sample count times the channel count times the bytes per sample: 1, 2 or 4 bytes per sample |
| Pcm.PcmData.constructor | src/voice_data/pcm.rs:51-53 | new data is mono, 8-bit and holds no samples |
| Pcm.PcmData.Create | src/voice_data/pcm.rs:22-34 | the buffer is resized to `num * bps * ch / 8` bytes of silence: 128 for 8-bit data, 0 for 16-bit data |
| Pcm.StereoChannels | src/voice_data/pcm.rs:54-93 | mono data converted to stereo is twice as long and both its left and right channels are the mono samples |
| Pcm.PcmData.ConvertToStereo | src/voice_data/pcm.rs:54-93 | stereo data is left alone; mono data becomes `StereoOf` of it |
| Pcm.Stereo8Loop | src/voice_data/pcm.rs:66-75 | the 8-bit copying loop doubles every byte |
| Pcm.Stereo16Loop | src/voice_data/pcm.rs:76-87 | the 16-bit copying loop doubles every two-byte sample |
| Pcm.Dup16Frame | src/voice_data/pcm.rs:76-87 | a mono 16-bit sample becomes the same two bytes twice |
| Pcm.WidenSamples | src/voice_data/pcm.rs:104-110 | the k-th widened 16-bit sample is `(b - 128) * 256` of the k-th byte |
| Pcm.Bps16Meaning | src/voice_data/pcm.rs:94-116 | 16-bit data is left alone; 8-bit data becomes 16-bit data twice as long, every sample re-centred and scaled by 256 |
| Pcm.PcmData.ConvertToBps16 | src/voice_data/pcm.rs:94-116 | the new state is `Bps16Of` of the old one |
| Pcm.DivCeil | src/voice_data/pcm.rs:130-141 | the least quotient whose product reaches the dividend |
| Pcm.ConvertedSpsMeaning | src/voice_data/pcm.rs:118-161 | at an unchanged rate the count and bytes come back as they were; otherwise the count is the rescaled body size rounded up, in frames, and the bytes are whole four-byte frames |
| Pcm.ResampledFrames | src/voice_data/pcm.rs:146-156 | each output frame is the source frame `i * sps / new_sps` or silence, the frames taken never go backwards, and once one is past the source every later one is silence |
| Pcm.ResampledTailSilent | src/voice_data/pcm.rs:146-156 | from the first frame past the end of the source, every output byte is zero |
| Pcm.ResampleLoop | src/voice_data/pcm.rs:146-156 | the frame loop, which stops at the first frame past the source, builds `Resampled` |
| Pcm.PcmData.IntoConvertedSps | src/voice_data/pcm.rs:118-161 | the method returns `ConvertedSpsOf` the data |
| Pcm.ToConverted | src/voice_data/pcm.rs:36-41 | the result is the data widened to 16 bits, made stereo and resampled, and the data itself is not modified |
| Pcm.Dup8 | src/voice_data/pcm.rs:66-75 | doubling 8-bit samples doubles the length |
| Pcm.Dup16 | src/voice_data/pcm.rs:76-87 | doubling 16-bit samples doubles the length |
| Pcm.Widen | src/voice_data/pcm.rs:101-112 | widening to 16 bits doubles the length |
| Pcm.Resampled | src/voice_data/pcm.rs:144-159 | the resampled buffer holds four bytes per output frame |
| Pcm.SourceFrameMonotone | src/voice_data/pcm.rs:149 | a later output frame never reads an earlier source frame |
| Pcm.ResampledByte | src/voice_data/pcm.rs:148-156 | each output byte is the matching byte of its source frame, or 0 past the source |
| Pcm.ResampledFrame | src/voice_data/pcm.rs:148-152 | an output frame whose source frame exists is that frame's four bytes |
| Pcm.FrameFits | src/voice_data/pcm.rs:150 | a frame index the source has lies wholly inside its bytes |
| Pcm.CopyFrame | src/voice_data/pcm.rs:151 | writes one four-byte frame and leaves every other byte alone |
| Envelope.FloatQuotient | src/voice.rs:78-79 | the `f64` quotient cast to an integer is the truncated quotient; a zero divisor saturates to the maximum, or gives 0 for 0/0 |
| Envelope.KeptCount | src/voice.rs:76-83 | the number of points kept is at most the number seen, and at least one once a point is seen |
| Envelope.Absolute | src/voice.rs:71-88 | one absolute point per kept point, in order: its running offset and its volume |
| Envelope.AbsoluteAsWritten | src/voice.rs:71-88 | the list as written has one slot per relative point and reports the number of kept points |
| Envelope.AsWrittenWithoutGaps | src/voice.rs:71-88 | when no point after the first is (0, 0), the slots as written are exactly the kept points |
| Envelope.ToAbsolute | src/voice.rs:71-88 | the loop keeps the first point and every later point with a non-zero x or y and counts them, as `to_absolute` does; unlike `to_absolute`, which stores point e in slot e, it packs the kept points into the first slots with their cumulative offsets (the corrected behaviour of the Findings row) |
| Envelope.Pass | src/voice.rs:99-103 | the inner loop passes exactly the points at or before sample i and stops at the count |
| Envelope.StartNotAfter | src/voice.rs:97-103 | the last passed point never lies after the current sample |
| Envelope.ToPreparedEnvelope | src/voice.rs:90-113 | every output byte is the prepared level at its index |
| Envelope.NextLevel | src/voice.rs:98-111 | one sample: the cursor passes the points at or before it and the level follows from the last passed point and the next one |
| Envelope.LevelAfterLast | src/voice.rs:109-111 | once every point is passed, the level is the last point's volume, or 0 without points |
| Envelope.LevelBetween | src/voice.rs:105-108 | while a next point exists, the level lies between the volumes of the last passed point and the next one |
| Envelope.InterpExact | src/voice.rs:105-108 | below 2^31 the interpolation is the start volume plus the truncated fraction of the volume step, with a positive divisor |
| Envelope.TruncFracBetween | src/voice.rs:105-108 | a truncated fraction t/den below 1 of a step lies between 0 and the step |
| Envelope.EnvSize | src/voice.rs:140-147 | the envelope length is at least 1 |
| Envelope.Prepared | src/voice.rs:131-160 | nothing for an empty envelope or one longer than 1 048 576 samples; otherwise a buffer of 1 to 1 048 576 levels and the last point's index |
| Envelope.ToPrepared | src/voice.rs:131-160 | the method computes `Prepared` |
| Envelope.AsWrittenGapDropsLevel | src/voice.rs:71-113 | for points (10,50), (0,0), (10,100), (5,0) at one sample per unit, the list as written holds (10,50) and the empty slot, so sample 15 gets level 0; with the points packed it gets 75 |
| Envelope.AllKeptCount | src/voice.rs:76-83 | when every point is kept, the kept count is the number of points |
| Envelope.PassAll | src/voice.rs:99-103 | when every remaining point lies at or before the sample, the cursor passes them all |
| Envelope.GapOffsets | src/voice.rs:71-88 | for the points (10,50), (0,0), (10,100), (5,0) at one sample per unit, the running offsets of the kept points are 10 and 20 and the (0,0) point is dropped |
| Envelope.GapCursor | src/voice.rs:90-113 | at sample 15 the level between (10,50) and a dropped (0,0) slot is 0, between (10,50) and (20,100) it is 75 |
| Voice.RecalcEnvelopeEffect | src/voice.rs:49-61 | an envelope that cannot be prepared leaves the instance as it was; a preparable one installs 1 to 2^20 levels with the last point's step as release, and touches nothing else |
| Voice.VoiceInstance.constructor | src/voice.rs:30-44 | a new instance holds the default state |
| Voice.VoiceInstance.RecalcEnvelope | src/voice.rs:49-61 | the new state is `RecalcEnvelopeOf` the old one |
| Voice.VoiceInstance.RecalcWaveData | src/voice.rs:63-68 | 400 samples and a 1600-byte buffer, four bytes per sample; the envelope and its release are left alone |
| Voice.Voice.constructor | src/voice.rs:228-236 | a new voice has no units, no instances and the default name |
| Voice.Voice.Allocate | src/voice.rs:273-290 | one default unit and a fresh default instance are pushed, twice when both channels are asked for; what was there stays and equal counts stay equal |
| Voice.Voice.ToneReadyEnvelopes | src/voice.rs:262-266 | each instance paired with a unit is recalculated from the unit at its index; an instance without a unit is left alone |
| Unit.CalcPanTime | src/unit.rs:397-406 | when the capped offset rescaled from 44100 Hz to the output rate fits a byte, the result is that value rounded down; exactly when it does not fit, the result is 0; at 44100 Hz it is the offset capped at 63 |
| Unit.InvCalcPanTime | src/unit.rs:408-415 | zero stays zero; otherwise the offset rescaled back to 44100 Hz and rounded down when that is below 63, and 63 only when the rescaled value reaches 63 |
| Unit.ToLrOffsets | src/unit.rs:451-457 | one side never lags: at or right of the centre 64 the left lags by `pan - 64`, left of it the right lags by `64 - pan` |
| Unit.FromLrOffsets | src/unit.rs:433-448 | the result always lies in 1..=127; no lag or lag on both sides is the centre, a lagging left is right of it, a lagging right left of it |
| Unit.PanTimeRoundTrip | src/unit.rs:408-457 | at 44100 Hz every pan time in 1..=127 comes back from its offsets unchanged |
| Unit.PanTimeZeroComesBackAsOne | src/unit.rs:433-457 | pan time 0, inside `PanTime::RANGE`, comes back as 1 because the offset is capped at 63 |
| Unit.PanTimeKeepsSide | src/unit.rs:408-457 | at any rate the trip through the offsets never moves a pan time across the centre |
| Unit.PanVolumes | src/unit.rs:216-224 | `[128 - v, 64]` from 64 up and `[64, v]` below: exactly one channel is attenuated, by the distance from the centre |
| Unit.ToneInitCentred | src/unit.rs:157-169 | after `tone_init` the pan volumes and pan-time offsets are those of the centre positions |
| Unit.KeyThenKeyOn | src/unit.rs:198-214 | `tone_key(k)` then `tone_key_on()` leaves `key_now == k` with no margin and changes no tone, pan or voice |
| Unit.ChosenVoice | src/unit.rs:317-321 | the requested voice, or voice 0 when the index is past the list |
| Unit.ResetVoiceSilences | src/unit.rs:298-341 | after `reset_voice` no channel sounds, an existing voice is selected at the default key, and the pan and group stay |
| Unit.RingIndexLags | src/unit.rs:236-237 | the pan-time slot read is inside the 64-slot ring and lies `off` samples behind the index, whatever the wrap-around |
| Unit.Unit.constructor | src/unit.rs:305-310 | a new unit holds the default state |
| Unit.Unit.ToneInit | src/unit.rs:157-169 | the controls return to their defaults and the pan to the centre (`ToneInitOf`, whose meaning `ToneInitCentred` states); voice and tones are kept |
| Unit.Unit.ResetControls | src/unit.rs:158-163 | group, velocity, volume, tuning and portamento are reset, the pan settings kept |
| Unit.Unit.CentrePan | src/unit.rs:165-168 | both channels at volume 64 and no pan-time lag; nothing else changes |
| Unit.Unit.ToneKeyOn | src/unit.rs:198-202 | the key jumps, with `i32` wrap-around, to the end of the pending slide, which is cleared; nothing else changes |
| Unit.Unit.ToneZeroLives | src/unit.rs:204-208 | every channel's life count becomes 0 and nothing else changes |
| Unit.Unit.ToneKey | src/unit.rs:210-214 | a slide from the sounding key to the new key is set up from position 0; nothing else changes |
| Unit.Unit.TonePanVolume | src/unit.rs:216-224 | only the pan volumes change, to `PanVolumes(vol)` |
| Unit.Unit.TonePanTime | src/unit.rs:226-228 | only the pan-time offsets change, to `to_lr_offsets` of the pan time |
| Unit.Unit.ToneSupple | src/unit.rs:230-239 | adds, with `i32` wrap-around, the channel's pan-time sample `off` slots behind the index to this unit's group slot only |
| Unit.Unit.SetVoice | src/unit.rs:298-303 | the voice index is stored and the key returns to the default without a slide; nothing else changes |
| Unit.Unit.ResetVoice | src/unit.rs:317-341 | every tone is silenced and retimed from the chosen voice's units (`ResetVoiceOf`, whose meaning `ResetVoiceSilences` states) |
| Delay.CalcBufLen | src/delay.rs:83-104 | a zero frequency is refused as `ZeroFreq`, a length above 16 777 216 as `TooLarge`, and every other length is accepted as it is |
| Delay.MixExact | src/delay.rs:106-115 | for samples and slots inside the ranges the mixer produces, mixing adds exactly `sample * rate / 100`, truncated toward zero, without wrap-around |
| Delay.Advance | src/delay.rs:117-123 | the offset after one increment is inside the buffer, or 0 |
| Delay.AdvanceFromZero | src/delay.rs:117-123 | `n` increments from slot 0 land on slot `n mod len`: the ring visits every slot in turn |
| Delay.SuppleKeepsShape | src/delay.rs:106-115 | `tone_supple` keeps the configuration and the buffer lengths and changes no group slot but this delay's own |
| Delay.IncrementOf | src/delay.rs:117-123 | an increment keeps a well-formed delay well-formed |
| Delay.Delay.constructor | src/herd/io.rs:167-191 | a delay as it is read: the stored settings, offset 0, empty buffers |
| Delay.Delay.Rebuild | src/delay.rs:65-81 | the offset returns to 0; an accepted length replaces both buffers by zero-filled ones of that length, a refused one leaves them as they were; the settings are kept |
| Delay.Delay.ToneSupple | src/delay.rs:106-115 | past the buffer the offset returns to 0 and nothing else changes; otherwise the buffered sample is mixed into this delay's group slot and the slot's new value is written back into the buffer, nothing else changing |
| Delay.Delay.ToneIncrement | src/delay.rs:117-123 | the offset moves to the next slot, wrapping to 0 at the end of the buffer |
| PulseFrequency.AsUsize | src/pulse_frequency.rs:40-41 | a signed key cast to `usize`: unchanged when non-negative, offset by 2^64 when negative |
| PulseFrequency.GetIndex | src/pulse_frequency.rs:40-46 | `get`'s index is always inside the table |
| PulseFrequency.Get2Index | src/pulse_frequency.rs:47-53 | `get2`'s index is always inside the table |
| PulseFrequency.TableShape | src/pulse_frequency.rs:1-5 | the table has 3072 entries and every entry's octave index lies inside the 16-entry octave table (with lines 14-38) |
| PulseFrequency.GetIndexUnwrapped | src/pulse_frequency.rs:40-46 | without wrap-around `get` reads entry `(key + 0x6000) / 16`, or the last one past the table |
| PulseFrequency.GetIndexNegative | src/pulse_frequency.rs:40-46 | a negative key down to -0x6000, cast to `usize`, reads entry `(key + 0x6000) / 16` as if it were signed |
| PulseFrequency.GetIndexBelowRange | src/pulse_frequency.rs:40-46 | a key below -0x6000 wraps and reads the last entry, the highest ratio, rather than the first |
| PulseFrequency.Get2IndexMeaning | src/pulse_frequency.rs:47-53 | `get2` reads entry `key / 16` inside the table and the last entry past it |
| PulseFrequency.Get2IndexMonotone | src/pulse_frequency.rs:47-53 | a larger key never reads an earlier entry through `get2` |
| PulseFrequency.GetIndexMonotone | src/pulse_frequency.rs:40-46 | below the wrap-around a larger key never reads an earlier entry through `get` |
| PulseFrequency.PastTableReadsLast | src/pulse_frequency.rs:40-53 | every index past the table reads the last entry, through either lookup |
| Oggv.SlotOf | src/voice_data/oggv.rs:71-84 | every position of the interleaved output is the slot of exactly one frame and plane |
| Oggv.PlanarToInterleaved | src/voice_data/oggv.rs:71-84 | the output holds the first plane's length in frames, and sample `i` of plane `c` sits at position `i * planes + c` |
| Oggv.AppendFrame | src/voice_data/oggv.rs:77-81 | one outer-loop pass appends frame `i`, plane by plane, keeping every earlier frame in place |
| Oggv.Deinterleave | src/voice_data/oggv.rs:71-84 | reading a plane back yields one sample per whole frame |
| Oggv.DeinterleaveInverse | src/voice_data/oggv.rs:71-84 | reading plane `c` back out of the interleaving gives its first `frames` samples: the interleaving loses nothing |
| Oggv.InterleavingUnique | src/voice_data/oggv.rs:71-84 | the planes determine the interleaving: any two are the same sequence |
| Oggv.SaturatingSub | src/voice_data/oggv.rs:58-63 | the difference, or 0 when `b` exceeds `a` |
| Oggv.SampleBytes | src/voice_data/oggv.rs:65 | two little-endian bytes per `i16` sample |
| Oggv.SampleBytesInverse | src/voice_data/oggv.rs:65 | every sample reads back from its bytes |
| Oggv.DecodeOggv | src/voice_data/oggv.rs:17-69 | no sample rate or no channel count gives `None`; otherwise a 16-bit PCM of that rate and channel layout whose bytes are the decoded samples cut by the delay and then by the padding, and whose sample count is the wrapped byte count halved and divided by the channels |
| Oggv.DecodedPcmMeaning | src/voice_data/oggv.rs:58-67 | the kept samples are the first ones decoded, as many as remain after the delay and padding, each reads back from the bytes, and while the byte count fits in `u32` the sample count is the number of whole frames |
| Herd.NewMooInstructions | src/herd.rs:117-123 | fresh instructions carry the output rate, no voices and one sample per tick |
| Herd.Timings | src/herd.rs:240-245 | the pair timings of every voice, voice by voice and pair by pair |
| Herd.NewInstructionsHaveNoTimings | src/herd.rs:117-123 | fresh instructions offer `reset_voice` no timing at all |
| Herd.Song.constructor | src/herd.rs:80-89 | a song holds the given master and events |
| Herd.Song.RecalculateLength | src/herd.rs:96-101 | the master's measure count is adjusted to the later of the last measure's tick and the events' end; the events are untouched |
| Herd.RecalculatedCoversEvents | src/herd.rs:96-101 | afterwards every event ends within the measure count, so does the last measure's tick, the count has not shrunk and the loop points lie within it |
| Herd.TunedAll | src/herd.rs:240-245 | one tuned unit per unit |
| Herd.TunedUnitIsReset | src/herd.rs:240-245 | a tuned unit is back at its defaults: group 0, default velocity and volume, centred pan, voice 0 at the default key without a slide; every tone voice 0 has a pair for is silent; name, mute and pan-time buffers are kept |
| Herd.Herd.UnitStates | src/herd.rs:152-183 | the state of every unit, in order |
| Herd.Herd.DelayStates | src/herd.rs:152-183 | the state of every delay, in order |
| Herd.Herd.PlayParts | src/herd.rs:152-183 | a herd's state is made of its counters, its units' states and its delays' states |
| Herd.Herd.ValidParts | src/herd.rs:152-183 | a herd is valid exactly when its units and its delays are |
| Herd.Herd.ValidIsWellFormed | src/herd.rs:152-183 | a valid herd's state is well-formed |
| Herd.Herd.constructor | src/herd.rs:152-183 | a default herd: every counter zero, no end, no loop, no units and no delays |
| Herd.Herd.Len | src/herd.rs:190-197 | the number of units, which the `as u8` cast never truncates since there are at most 50 |
| Herd.Herd.IsEmpty | src/herd.rs:199-201 | true exactly when there is no unit |
| Herd.Herd.SeekToSample | src/herd.rs:234-238 | the sample counter moves to `sample` and the event cursor to 0; nothing else changes |
| Herd.Herd.SetEnd | src/herd/moo.rs:323-326 | the end flag is set and nothing else changes |
| Herd.Herd.TuneCowVoices | src/herd.rs:240-245 | every unit, in order, becomes `TunedOf` its old state, which `TunedUnitIsReset` describes |
| Herd.TuneUnit | src/herd.rs:241-244 | one unit: `tone_init`, then `reset_voice` to voice 0 |
| Moo.OnEventOf | src/herd/moo.rs:158-236 | a note with a non-positive on count silences the unit; otherwise the key is struck and each tone paired with an instance of an existing voice starts; the unit stays well-formed |
| Moo.UnitEventOf | src/herd/moo.rs:130-153 | the addressed unit after the event stays well-formed |
| Moo.DoEventOf | src/herd/moo.rs:117-156 | every unit stays well-formed and the unit count is kept |
| Moo.DoEventDispatch | src/herd/moo.rs:117-156 | the loop stops exactly at an event for a missing unit or a `Null` event, which then changes nothing; only the addressed unit changes; timing, loop and debug events change nothing; velocity, volume, group and tuning events set exactly that field |
| Moo.EventsFrom | src/herd/moo.rs:41-48 | the event loop keeps every unit well-formed |
| Moo.EventsFromStops | src/herd/moo.rs:41-48 | the cursor never moves back nor past the last event, passes only due events that do not stop the loop, and stops at the end, at the first event not yet due, or at a due event that stops it, leaving the units as they were when it did not move |
| Moo.BreakingEventHolds | src/herd/moo.rs:41-48 | a due event that stops the loop holds the cursor and changes no unit (with lines 102-115) |
| Moo.SuppleUnitOf | src/unit.rs:230-239 | one unit's contribution keeps the seven groups |
| Moo.UnitsSuppleOf | src/herd/moo.rs:57-61 | the sounding units' contributions keep the seven groups |
| Moo.DelaysSuppleOf | src/herd/moo.rs:65-67 | the delays applied in order keep their count, configuration and shape, and the seven groups |
| Moo.UnitsSuppleStep | src/herd/moo.rs:57-61 | unit `k` adds into the groups the earlier units left, unless it is muted |
| Moo.DelaysSuppleStep | src/herd/moo.rs:65-67 | delay `k` applies to the groups the earlier delays left |
| Moo.WrappingSumWraps | src/herd/moo.rs:69-73 | the wrapping sum of the groups is their exact sum wrapped once to `i32`, and the exact sum when that fits |
| Moo.OutSampleClamps | src/herd/moo.rs:69-75 | the output sample is the exact sum when it is a valid `i16`, and the nearest bound when the sum fits `i32` but not `i16` |
| Moo.ChannelGroups | src/herd/moo.rs:55-68 | one channel keeps the delays' count and configuration and the seven groups |
| Moo.IncrementAll | src/herd/moo.rs:88-90 | every delay takes its own `tone_increment` |
| Moo.MixedDelays | src/herd/moo.rs:55-90 | mixing both channels and stepping keeps every delay's configuration |
| Moo.MixedOut | src/herd/moo.rs:55-76 | one output sample per channel |
| Moo.UnitsSuppleTotal | src/herd/moo.rs:55-73 | up to `i32` wrap-around the units raise the total of the groups by exactly their contribution, whatever groups they belong to |
| Moo.MixWithoutDelays | src/herd/moo.rs:55-76 | without delays a channel's sample is the units' contribution wrapped to `i32` and clamped to `i16`, and that contribution itself when it is a valid `i16` |
| Moo.EventStep | src/herd/moo.rs:41-49 | the event loop, which runs only when advancing, keeps every unit well-formed |
| Moo.EndCheckMeaning | src/herd/moo.rs:91-98 | playback stops exactly at or past the end sample without looping; looping moves to the repeat sample and the first event; before the end the counters stay; the flags, the end and repeat samples and the delays are untouched |
| Moo.TimePanStep | src/herd/moo.rs:80 | masking the successor of the pan-time index to six bits is stepping modulo 64 |
| Moo.SteppedEndCheck | src/herd/moo.rs:77-98 | the end check after the counter steps, stated on the counters before the sample |
| Moo.NextSampleCounters | src/herd/moo.rs:27-100 | of the panics `next_sample` can raise, the model keeps the group index one: it panics exactly when a sounding unit or a delay has a group past the seven; otherwise it yields two samples, steps the pan-time index modulo 64, advances the sample counter only when advancing, stops or loops at the end, and keeps the flags, end and repeat samples and delay configurations |
| Moo.DoOnEvent | src/herd/moo.rs:158-236 | the unit's new state is `OnEventOf` its old one |
| Moo.UnitEvent | src/herd/moo.rs:130-153 | the unit's new state is `UnitEventOf` its old one, and exactly a `Null` event stops the loop |
| Moo.DoEvent | src/herd/moo.rs:117-156 | the flow and the units' states are those of `DoEventOf`, whose meaning `DoEventDispatch` states |
| Moo.DoNextEvent | src/herd/moo.rs:102-115 | the event at the cursor is done, and the cursor passes it exactly when it did not stop the loop |
| Moo.RunEvents | src/herd/moo.rs:41-48 | the cursor and the units' states are those of `EventsFrom`; no other counter changes |
| Moo.GroupsFit | src/herd/moo.rs:57-67 | true exactly when every sounding unit and every delay has a group inside the seven |
| Moo.UnitsSupple | src/herd/moo.rs:57-61 | the groups become `UnitsSuppleOf` the old ones; units and delays are untouched |
| Moo.DelaySupple | src/herd/moo.rs:65-67 | delay `k` applies to the groups; no other delay, unit or counter changes |
| Moo.DelaysSupple | src/herd/moo.rs:65-67 | the delays' states and the groups become `DelaysSuppleOf` the old ones |
| Moo.SumClamp | src/herd/moo.rs:69-75 | the wrapping sum of the groups clamped to `i16` |
| Moo.MixChannel | src/herd/moo.rs:55-76 | one channel's sample and the delays' new states are those of `ChannelGroups`; units and counters are untouched |
| Moo.IncrementDelays | src/herd/moo.rs:88-90 | the delays' states become `IncrementAll` of the old ones; units and counters are untouched |
| Moo.DelayIncrement | src/herd/moo.rs:88-90 | delay `k` takes its `tone_increment`; no other delay and no unit changes |
| Moo.MixSample | src/herd/moo.rs:55-90 | the two samples are `MixedOut` and the delays become `MixedDelays`; no unit and no counter changes |
| Moo.WriteOut | src/herd/moo.rs:75 | one stereo sample is written at `at`, the rest of the buffer left as it is |
| Moo.MixedByChannels | src/herd/moo.rs:55-90 | the two channel passes and the increments make up `MixedDelays` and `MixedOut` |
| Moo.StepCounters | src/herd/moo.rs:77-80 | the sample counter steps when advancing and the pan-time index always; nothing else changes |
| Moo.StepAndCheck | src/herd/moo.rs:77-98 | the counters, the units and the result are those of the end check after the steps; the delays are untouched |
| Moo.NextSampleSplit | src/herd/moo.rs:27-100 | `next_sample` is the event step, then the group panic or the mix and the end check |
| Moo.MixAndStep | src/herd/moo.rs:55-98 | a group past the seven panics and changes nothing else; otherwise the mix is written at `at` and the counters, units and delays are those of the end check |
| Moo.DueEvents | src/herd/moo.rs:41-49 | the cursor and the units' states are those of `EventStep`; the delays and the other counters are untouched |
| Moo.NextSampleJoin | src/herd/moo.rs:27-100 | the event step followed by the panic or by the mix and end check is exactly `NextSampleOf` |
| Moo.NextSample | src/herd/moo.rs:27-100 | the result, the new state and the two samples are those of `NextSampleOf`, whose meaning `NextSampleCounters` states; on a panic nothing is written |
| Moo.MooRunMeaning | src/herd/moo.rs:303-330 | a run never reports the end itself, fills at most two samples per chunk in whole chunks, fills every chunk unless it panicked or set the end flag, and a looping song never sets the end flag |
| Moo.MooMeaning | src/herd/moo.rs:303-330 | `moo` returns false exactly when the end flag was already set, and then changes nothing; it never writes past the last whole chunk; a looping song never ends |
| Moo.MooRunStep | src/herd/moo.rs:314-327 | one chunk of the run: a panic stops it, the song's end sets the end flag and stops it, otherwise the run goes on from the new state |
| Moo.MooChunk | src/herd/moo.rs:314-327 | one pass of the loop: either the run goes on and still completes the whole run, or it is over and the herd and buffer hold its outcome |
| Moo.HerdMoo | src/herd/moo.rs:303-330 | with the end flag set, false and no change; otherwise the result, the new state and the samples written are those of `MooRun` over the buffer's whole chunks, the rest of the buffer untouched |
| Moo.EndRun | src/herd/moo.rs:324 | when a chunk reports the end, the end flag is set and nothing else in the playback state changes |
| NoiseBuilder.Swap16 | src/noise_builder.rs:38-45 | the low 16 bits of the word with their two bytes exchanged |
| NoiseBuilder.Swap16Twice | src/noise_builder.rs:38-45 | swapping twice gives back the low 16 bits |
| NoiseBuilder.RngNext | src/noise_builder.rs:37-49 | the new second word is the old first one, the new first word the byte swap of their sum, and the output that word read as an `i16` |
| NoiseBuilder.RngRun | src/noise_builder.rs:166-170 | after `n` steps the state is still in range and there are `n` outputs |
| NoiseBuilder.RngRunPrefix | src/noise_builder.rs:166-170 | a longer run starts with the outputs of a shorter one |
| NoiseBuilder.RngRunOutput | src/noise_builder.rs:166-170 | the `k`-th output is the first word after `k + 1` steps |
| NoiseBuilder.RngFirstOutputs | src/noise_builder.rs:28-49 | from the seed `[0x4444, 0x8888]` the first two outputs are 0xCCCC and 0x1011, as `i16` |
| NoiseBuilder.Rng.constructor | src/noise_builder.rs:27-35 | the generator starts at the seed words |
| NoiseBuilder.Rng.Next | src/noise_builder.rs:37-49 | the new state and the output are those of `RngNext` |
| NoiseBuilder.FillRandom | src/noise_builder.rs:166-170 | the first 44100 entries (all, if fewer) become successive generator outputs; the rest of the table is left as it was |
| NoiseBuilder.FillRange | src/noise_builder.rs:429-434 | `a[lo..hi]` holds `v` and nothing else changes |
| NoiseBuilder.FillSteps | src/noise_builder.rs:480-524 | each range between consecutive bounds holds its level and nothing outside the bounds changes |
| NoiseBuilder.MakeSteps | src/noise_builder.rs:127-139 | a zeroed table of 882 entries, filled step by step |
| NoiseBuilder.RectKBounds | src/noise_builder.rs:427-452 | the high part ends at `441 / k` and the low part at 441 |
| NoiseBuilder.SawBounds | src/noise_builder.rs:480-586 | Saw6 and Saw8 cut the period at `441 * j / n` |
| NoiseBuilder.SawBoundsAscending | src/noise_builder.rs:480-586 | the cut points ascend |
| NoiseBuilder.SawBoundsValues | src/noise_builder.rs:480-586 | the cut points are `[0, 73, 147, 220, 294, 367, 441]` and `[0, 55, 110, 165, 220, 275, 330, 385, 441]` |
| NoiseBuilder.Saw6LevelsAsWritten | src/noise_builder.rs:480-524 | Saw6's six levels as written, with `wrapping_mul` in `i16` |
| NoiseBuilder.Saw8LevelsAsWritten | src/noise_builder.rs:526-586 | Saw8's eight levels as written, with `wrapping_mul` in `i16` |
| NoiseBuilder.SawAsWrittenIsFlat | src/noise_builder.rs:480-586 | as written the wrapped products vanish: Saw6's second level equals its first and its fifth its sixth, Saw8 repeats its top and bottom level three times, so neither descends step by step |
| NoiseBuilder.Saw6Levels | src/noise_builder.rs:480-524 | Saw6's levels with the products taken without wrap-around |
| NoiseBuilder.Saw8Levels | src/noise_builder.rs:526-586 | Saw8's levels with the products taken without wrap-around |
| NoiseBuilder.SawLevelsDescend | src/noise_builder.rs:458-586 | every stepped saw descends from 32767 to -32767, its levels are symmetric about zero, and Saw8's steps are all 9362 apart |
| NoiseBuilder.Chunker.constructor | src/noise_builder.rs:61-63 | a chunker over the table with its head at 0 |
| NoiseBuilder.Chunker.NextUntil | src/noise_builder.rs:64-68 | the `n` entries from the head; the head then becomes `n` itself, not the end of the chunk; fewer than `n` entries left is the `unwrap` panic, excluded by the precondition |
| NoiseBuilder.Chunker.Rest | src/noise_builder.rs:69-71 | everything from the head to the end |
| NoiseBuilder.FillSaw3 | src/noise_builder.rs:458-464 | the overlapping chunks still give three equal steps of 147 entries, 32767, 0 and -32767, and leave the rest of the table alone |
| NoiseBuilder.FillSaw4 | src/noise_builder.rs:466-478 | with fewer than five chunks of 110 nothing is written; otherwise four levels over four chunks and the bottom level again at entry 440, the rest unchanged |
| NoiseBuilder.Generate | src/noise_builder.rs:84-191 | Random's first 44100 entries are the generator's outputs from the seed and the rest zero; the rectangles and stepped saws hold their levels over one period and zero after it |
| NoiseBuilder.MakeRects | src/noise_builder.rs:157-164 | Rect changes at 220, Rect3 to Rect16 at `441 / k`, each high then low (with lines 427-452) |
| NoiseBuilder.MakeSaws | src/noise_builder.rs:453-456 | the four stepped saw tables, each holding its levels over one period |
| NoiseBuilder.MakeRandom | src/noise_builder.rs:166-170 | the random table: its first 44100 entries from a fresh generator, the rest zero |
| NoiseBuilder.MakeSaw3 | src/noise_builder.rs:458-464 | Saw3 holds three steps of 147 entries |
| NoiseBuilder.MakeSaw4 | src/noise_builder.rs:466-478 | Saw4 holds four steps of 110 entries and the bottom level at entry 440 |
| NoiseBuilder.EnvePoints | src/noise_builder.rs:340-344 | one point per design point, each length `sps * x / 1000` within bounds, and zero exactly when `sps * x < 1000` |
| NoiseBuilder.EnvePointOf | src/noise_builder.rs:342 | a length within bounds, zero exactly when `sps * x < 1000` |
| NoiseBuilder.FirstLive | src/noise_builder.rs:349-356 | the first index from `from` on whose point has a non-zero length, or the count when none has |
| NoiseBuilder.BuilderUnit.constructor | src/noise_builder.rs:678-688 | no points and every counter zero |
| NoiseBuilder.BuilderUnit.Settle | src/noise_builder.rs:349-356 | the index moves to the first live point; each skipped point's magnitude becomes the start, and the margin is the rise to the last point looked at (with lines 414-421) |
| NoiseBuilder.BuilderUnit.Build | src/noise_builder.rs:333-356 | one point per design point, the counters reset, then settled on the first point of non-zero length |
| NoiseBuilder.BuilderUnit.Step | src/noise_builder.rs:405-424 | nothing happens after the last point; otherwise one more sample is counted, and when the point's length is reached the count restarts, its magnitude becomes the start and the unit settles on the next live point |

## Left out

- Floating point: `samples_per_tick`, `tick_to_sample`, `meas_to_sample`, `current_tick` and `calc_sample_num` are not computed; tempo, tuning, delay rates, overdrive settings and `samples_per_tick` are carried as bit patterns.
- The float quantities playback needs (`current_tick` of a sample count, `tick_to_sample` of a portamento, the on count and the life count of `do_on_event`) are functions passed in as `Moo.FloatParts`, so the proofs hold whatever they return.
- `Overdrive` and its `tone_supple` compute in floating point and are not modelled; its chunk codec is.
- The float wave tables of the noise builder (sine, saw, saw2, rect2, triangle), `build_pcm_samp`, `set_ocsillator`, the `Oscillator::increment` offsets and `noise_to_pcm` are not modelled; the integer tables and the envelope stepping of `build_unit` are.
- The values of the `PulseFrequency` table and `divide_octave_rate` are floats; the table is a parameter, and only the index arithmetic of `get` and `get2` is modelled.
- `pulse_oscillator.rs` (`coord`, `overtone`) and the sample values of `update_wave_ptv` are float computations and are not modelled; `recalc_wave_data` is modelled for the buffer it allocates, with every sample 0.
- The per-sample tone work of `next_sample` in `src/unit.rs` is not modelled: `tone_envelope` (lines 175-196, integer), `tone_sample` (lines 343-394, which computes each channel's sample from the voice's waveform at the float position `smp_pos` and stores it at `pan_time_bufs[ch][time_pan_index]`), `tone_increment_key` (its portamento step is `f64`) and `tone_increment_sample` (lines 259-296, whose life and on count decrements and envelope restart are integer, and whose `smp_pos` step is float). So the mix reads the pan-time ring as the units' states hold it, without the slot `tone_sample` writes before each mix; `reset_voice` is modelled for what it resets.
- The `f64` position steps inside `to_prepared` and `to_absolute` are modelled as the truncated integer quotient, which is what the `f64` division gives for 32-bit operands.
- Noise oscillator frequency, volume and offset are kept as the stored integer tenths; the division by 10 on reading and the multiplication by 10 on writing are not modelled.
- Vorbis decoding: `decode_oggv` takes the decoded samples, the sample rate and the channel count as parameters, and `read_ogg` is modelled without the `oggv` feature.
- `write_mate_oggv` (src/voice/io.rs:180-206) is not modelled, because without Ogg/Vorbis support no voice holds Ogg data.
- Shift-JIS: names and comments are opaque byte strings; encoding and decoding are not modelled.
- `bytemuck` casts are modelled as little-endian (de)serialisation, with the `repr(C)` padding bytes written as zero.
- `eprintln!` diagnostics (a non-zero reserved field, an out-of-range resampling index) have no effect in the model beyond what the code does after printing.
- `rebuild_tones`, `read_song`, `serialize_project` and `moo_prepare` are not modelled: they call into the float parts above.
- The dispatch of `write_voice` over voice kinds is not modelled; the tune writer takes the already encoded voice chunks as a parameter.
- The command-line tools and their file, terminal and signal handling are not modelled.
- Debug-build overflow panics: every integer operation is modelled as the release build's wrap-around.
- Noise.NoiseData.Read: on an error the source may leave the units read so far in place; the model states only the successful outcome and that a failed read reports its error.
- Event.SortedFrom: the round trips are proved for tick-sorted lists only; an unsorted list's deltas wrap around and read back as other ticks.
- WaveIo.WriteEnvelope: requires at least one point; with none the body count underflows and `assert_eq!` panics, which its only caller rules out by writing envelopes only when they have points.
- Master.Master.AdjustMeasNum: requires non-zero divisors, because `div_ceil` by zero panics.
- Herd.Song.RecalculateLength: requires non-zero divisors, for the same reason.
- Unit.CalcPanTime: requires a non-zero sample rate, because the division by it panics.
- Unit.Unit.ToneSupple: requires the unit's group to be one of the seven, because indexing past them panics.
- Delay.Delay.ToneSupple: requires the delay's group to be one of the seven, for the same reason.
- Voice.Voice.Allocate: requires room for the units pushed, because pushing past the capacity of two panics.
- Oggv.PlanarToInterleaved: requires at least one plane and every plane at least as long as the first, because `planar[0]` and `ch[i]` panic otherwise.
- VoiceIo.WriteMatePcm: requires a key, a rate and a sample count that fit the header fields, because their conversions are `unwrap`ped.
- Pcm.PcmData.ConvertToBps16: requires the 32-bit byte counts not to wrap; the source computes them in `u32`, and a wrapped count would give a shorter buffer.
- Pcm.PcmData.IntoConvertedSps: requires a non-zero source rate when the rates differ (`div_ceil` by zero panics), a body byte count that does not wrap in `u32`, and rescaled sizes that fit a `u32` (their `unwrap` panics otherwise).
- Pcm.ToConverted: requires the same bounds as the two conversions it calls.
- NoiseBuilder.Chunker.NextUntil: requires the chunk to lie inside the slice, because slicing past the end panics.
- Event.WriteEvent: writes velocity and volume sign-extended to 32 bits, the corrected encoding of the Findings row for src/event.rs:109-110; the source zero-extends them, so `Velocity(-1)` is written as 0xFFFFFFFF instead of 0xFFFF.
- Event.WriteEvents: writes the corrected sign-extended encoding of velocity and volume, as Event.WriteEvent.
- Event.WriteNextEvent: writes the corrected sign-extended encoding of velocity and volume, as Event.WriteEvent.
- Event.EveList.Write: writes the corrected sign-extended encoding of velocity and volume, as Event.WriteEvent.
- TuneIo.Project.WriteSongChunks: the event chunk carries the corrected sign-extended velocity and volume, as Event.WriteEvent.
- TuneIo.Project.WriteTuneItems: the event chunk carries the corrected sign-extended velocity and volume, as Event.WriteEvent.
- TuneIo.Project.Write: the event chunk carries the corrected sign-extended velocity and volume, as Event.WriteEvent.
- VoiceIo.WritePtvUnitHead: writes a unit's volume and pan sign-extended to 32 bits, the corrected encoding of the Findings row for src/voice/io.rs:288-289; the source zero-extends them, so a volume of -1 is written as 0xFFFFFFFF instead of 0xFFFF.
- VoiceIo.WritePtvUnit: writes volume and pan with the corrected sign-extension, as VoiceIo.WritePtvUnitHead.
- VoiceIo.WritePtvUnits: writes volume and pan with the corrected sign-extension, as VoiceIo.WritePtvUnitHead.
- VoiceIo.PtvWrite: writes volume and pan with the corrected sign-extension, as VoiceIo.WritePtvUnitHead.
- VoiceIo.ToPtvoice: writes volume and pan with the corrected sign-extension, as VoiceIo.WritePtvUnitHead.
- VoiceIo.WriteMatePtv: writes volume and pan with the corrected sign-extension, as VoiceIo.WritePtvUnitHead.
- HerdIo.WriteAssistVoice: truncates a name longer than 16 bytes, the corrected behaviour of the Findings row for src/herd/io.rs:517-530, where the source panics in `copy_from_slice` (line 523); `HerdIo.EncodeAssistVoiceAsWritten` models that panic.
- Envelope.ToAbsolute: packs the kept points into the first slots, the corrected behaviour of the Findings row for src/voice.rs:71-113; the source stores point e in slot e and leaves a skipped slot at (0, 0) (lines 78-85), which `Envelope.AbsoluteAsWritten` models.
- Envelope.Prepared: is built on the packed points, so for an envelope with a skipped (0, 0) point after the first it gives other levels than the source (level 75 where the source gives 0, at sample 15 of the Findings example).
- Envelope.ToPrepared: computes `Envelope.Prepared`, with the same difference.
- Voice.VoiceInstance.RecalcEnvelope: installs the levels of `Envelope.Prepared`, with the same difference from `recalc_envelope` (src/voice.rs:49-61).
- Voice.Voice.ToneReadyEnvelopes: recalculates every envelope as Voice.VoiceInstance.RecalcEnvelope does, with the same difference.
- Moo.OnEventOf: does not model the panics of `do_on_event`'s `i32` conversions (src/herd/moo.rs:171-175 and the later `i32::try_from` calls) for a clock, a duration or an event tick of 2^31 or more; the on count and life count that depend on them come from `FloatParts`.
- Moo.DoOnEvent: computes `Moo.OnEventOf`, without those conversion panics.
- Moo.NextSampleCounters: the only panic of `next_sample` it states is the group index one; the conversion panics of `do_on_event` are left out as for Moo.OnEventOf.
- Moo.NextSampleOf: leaves out the per-sample tone work named above (`tone_envelope`, `tone_sample`'s write of the pan-time slot, `tone_increment_sample`'s life and on count decrements), so each unit's contribution to the mix is read from the pan-time ring as it stands.
- Moo.NextSample: computes `Moo.NextSampleOf`, with the same omissions.
- Moo.MooChunk: runs `Moo.NextSample` over one chunk, with the same omissions.
- Moo.HerdMoo: runs `Moo.NextSample` over the buffer, with the same omissions.
- NoiseBuilder.Generate: writes the Saw6 and Saw8 tables with the corrected levels (see Findings), not the flat levels the wrapping products give.

## Findings

| source | as written | input that shows it | evidently intended | confidence | as-written member | corrected member |
|---|---|---|---|---|---|---|
| src/event.rs:109-110 | velocity and volume are written as `cast_unsigned` to `u16`, zero-extended to `u32` | `Velocity(-1)` is written as 0xFFFF, and reading 0xFFFF as an `i16` panics | sign-extension to 32 bits, the inverse of the reader's `cast_signed` | not executed | Event.AsWrittenVelocityMinusOne | Event.PayloadRoundTrip |
| src/voice/io.rs:288-289 | a unit's volume and pan are written as `cast_unsigned` to `u16`, zero-extended to `u32` | a unit with volume -1 is written as 0xFFFF, and `ptv_read` panics converting 65535 to `i16` | sign-extension to 32 bits, the inverse of the reader's `cast_signed` | not executed | VoiceIo.AsWrittenNegativeVolumeUnreadable | VoiceIo.PtvUnitRoundTrip |
| src/noise_builder.rs:480-586 | the Saw6 and Saw8 levels use `SAMPLING_TOP.wrapping_mul(k)`, which wraps in `i16` | `32767.wrapping_mul(2)` is -2, so Saw6's second level is 32767 - (-2 / 5) = 32767, equal to its first | the products taken in a wider type, giving six (eight) levels that descend step by step from 32767 to -32767 | not executed | NoiseBuilder.SawAsWrittenIsFlat | NoiseBuilder.SawLevelsDescend |
| src/herd/io.rs:517-530 | `write_assist_voice` copies the whole encoded name into a 16-byte field | a voice named `seventeen-letters` makes `copy_from_slice` panic, where the unit writer truncates a name of the same length | truncation to 16 bytes, as `write_units` does for unit names | not executed | HerdIo.AsWrittenLongVoiceNamePanics | HerdIo.AssistVoiceRoundTrip |
| src/voice.rs:71-113 | `to_absolute` leaves the slot of a skipped (0, 0) point at (0, 0) but counts only the kept points in `head_num`, and `to_prepared_envelope` reads the first `head_num` slots | points (10,50), (0,0), (10,100), (5,0) at one sample per unit: at sample 15 the prepared level is 0 | the kept points packed together, so that sample 15 lies between (10,50) and (20,100) at level 75 | not executed | Envelope.AsWrittenGapDropsLevel | Envelope.ToAbsolute |

/**
 * PCM voice data: raw little-endian samples with a channel count, a sample
 * rate and a bit depth, and the conversions the player applies before
 * using them (to 16 bits, to stereo, to the output sample rate).
 */
module Pcm {
  import opened Base

  /** The contents of a `PcmData`. */
  datatype PcmState = PcmState(ch: ChNum, sps: u32, bps: Bps, numSamples: u32, smp: seq<u8>)

  /** The byte size of `num` samples: `num * bps * ch / 8`. */
  function SampleSize(num: nat, ch: ChNum, bps: Bps): (size: nat)
    ensures size == num * ChCount(ch) * (Bits(bps) / 8)
    ensures ch == Mono && bps == B8 ==> size == num
    ensures ch == Mono && bps == B16 ==> size == 2 * num
    ensures ch == Stereo && bps == B8 ==> size == 2 * num
    ensures ch == Stereo && bps == B16 ==> size == 4 * num
  {
    var size := num * Bits(bps) * ChCount(ch) / 8;
    assert num * Bits(bps) * ChCount(ch) == (num * ChCount(ch) * (Bits(bps) / 8)) * 8;
    size
  }

  /** The byte value of silence: 128 for unsigned 8-bit samples, 0 for signed 16-bit ones. */
  function Silence(bps: Bps): u8 { if bps == B8 then 128 else 0 }

  // ---------------------------------------------------------------------
  // Stereo
  // ---------------------------------------------------------------------

  /** A mono 8-bit buffer with every sample doubled into a left and a right one. */
  function Dup8(s: seq<u8>): (r: seq<u8>)
    ensures |r| == 2 * |s|
  {
    seq(2 * |s|, i requires 0 <= i < 2 * |s| => s[i / 2])
  }

  /** A mono 16-bit buffer with every two-byte sample doubled into a left and a right one. */
  function Dup16(s: seq<u8>): (r: seq<u8>)
    requires |s| % 2 == 0
    ensures |r| == 2 * |s|
  {
    seq(2 * |s|, i requires 0 <= i < 2 * |s| => DupIndexBound(|s|, i); s[2 * (i / 4) + i % 2])
  }

  lemma DupIndexBound(n: nat, i: nat)
    requires n % 2 == 0 && i < 2 * n
    ensures 2 * (i / 4) + i % 2 < n
  {
    var m := n / 2;
    assert i < 4 * m;
    assert i / 4 < m;
  }

  /** The four bytes a mono 16-bit sample at byte `a` becomes. */
  lemma Dup16Frame(s: seq<u8>, a: nat)
    requires |s| % 2 == 0 && a % 2 == 0 && a + 2 <= |s|
    ensures Dup16(s)[2 * a] == s[a] && Dup16(s)[2 * a + 1] == s[a + 1]
    ensures Dup16(s)[2 * a + 2] == s[a] && Dup16(s)[2 * a + 3] == s[a + 1]
  {
    var h := a / 2;
    assert a == 2 * h;
    DivModUnique(2 * a, 4, h, 0);
    DivModUnique(2 * a + 1, 4, h, 1);
    DivModUnique(2 * a + 2, 4, h, 2);
    DivModUnique(2 * a + 3, 4, h, 3);
  }

  /** Channel `c` (0 left, 1 right) of an interleaved stereo 8-bit buffer. */
  function Channel8(st: seq<u8>, c: nat): (r: seq<u8>)
    requires |st| % 2 == 0 && c < 2
  {
    seq(|st| / 2, j requires 0 <= j < |st| / 2 => st[2 * j + c])
  }

  /** Channel `c` of an interleaved stereo 16-bit buffer, as two-byte samples. */
  function Channel16(st: seq<u8>, c: nat): (r: seq<u8>)
    requires |st| % 4 == 0 && c < 2
  {
    seq(|st| / 2, j requires 0 <= j < |st| / 2 => ChannelIndexBound(|st|, j, c); st[4 * (j / 2) + 2 * c + j % 2])
  }

  lemma ChannelIndexBound(n: nat, j: nat, c: nat)
    requires n % 4 == 0 && j < n / 2 && c < 2
    ensures 4 * (j / 2) + 2 * c + j % 2 < n
  {
    var m := n / 4;
    assert j < 2 * m;
    assert j / 2 < m;
  }

  /** `convert_to_stereo` as a function: a mono buffer becomes stereo with equal channels. */
  function StereoOf(p: PcmState): PcmState
    requires |p.smp| == SampleSize(p.numSamples, p.ch, p.bps)
  {
    if p.ch == Stereo then p
    else if p.bps == B8 then p.(ch := Stereo, smp := Dup8(p.smp))
    else p.(ch := Stereo, smp := Dup16(p.smp))
  }

  /** Converting to stereo gives a stereo buffer whose left and right channels are both the mono input. */
  lemma StereoChannels(p: PcmState)
    requires |p.smp| == SampleSize(p.numSamples, p.ch, p.bps) && p.ch == Mono
    ensures StereoOf(p).ch == Stereo
    ensures |StereoOf(p).smp| == SampleSize(p.numSamples, Stereo, p.bps)
    ensures p.bps == B8 ==> Channel8(StereoOf(p).smp, 0) == p.smp == Channel8(StereoOf(p).smp, 1)
    ensures p.bps == B16 ==> Channel16(StereoOf(p).smp, 0) == p.smp == Channel16(StereoOf(p).smp, 1)
  {
    var s := p.smp;
    if p.bps == B8 {
      var st := Dup8(s);
      forall c | 0 <= c < 2
        ensures Channel8(st, c) == s
      {
        forall j | 0 <= j < |s|
          ensures Channel8(st, c)[j] == s[j]
        {
          assert (2 * j + c) / 2 == j;
        }
      }
    } else {
      var st := Dup16(s);
      forall c | 0 <= c < 2
        ensures Channel16(st, c) == s
      {
        forall j | 0 <= j < |s|
          ensures Channel16(st, c)[j] == s[j]
        {
          var i := 4 * (j / 2) + 2 * c + j % 2;
          DivModUnique(i, 4, j / 2, 2 * c + j % 2);
          DivModUnique(i, 2, 2 * (j / 2) + c, j % 2);
          assert 2 * (i / 4) + i % 2 == j;
        }
      }
    }
  }

  // ---------------------------------------------------------------------
  // 16 bits
  // ---------------------------------------------------------------------

  /** The 16-bit sample value of an unsigned 8-bit one: `(b - 128) * 0x100`. */
  function Widen8(b: u8): i16
  {
    (b as int - 128) * 0x100
  }

  /** An 8-bit buffer with every sample written as its 16-bit little-endian value. */
  function Widen(s: seq<u8>): (r: seq<u8>)
    ensures |r| == 2 * |s|
  {
    seq(2 * |s|, i requires 0 <= i < 2 * |s| => Le16(AsUnsigned16(Widen8(s[i / 2])))[i % 2])
  }

  /** The k-th signed 16-bit little-endian sample of a buffer. */
  function Sample16(buf: seq<u8>, k: nat): i16
    requires 2 * k + 2 <= |buf|
  {
    AsSigned16(FromLe16(buf[2 * k..2 * k + 2]))
  }

  /** `convert_to_bps_16` as a function. */
  function Bps16Of(p: PcmState): PcmState
  {
    if p.bps == B16 then p else p.(bps := B16, smp := Widen(p.smp))
  }

  /**
   * Widening keeps every sample: the k-th 16-bit sample is the k-th 8-bit
   * one re-centred on zero and scaled by 256, so the buffer doubles and
   * the order of levels is kept.
   */
  lemma WidenSamples(s: seq<u8>, k: nat)
    requires k < |s|
    ensures Sample16(Widen(s), k) == (s[k] as int - 128) * 256
  {
    var w := Widen(s);
    var x := AsUnsigned16(Widen8(s[k]));
    assert w[2 * k..2 * k + 2] == Le16(x) by {
      assert w[2 * k] == Le16(x)[0] by { assert (2 * k) / 2 == k && (2 * k) % 2 == 0; }
      assert w[2 * k + 1] == Le16(x)[1] by { assert (2 * k + 1) / 2 == k && (2 * k + 1) % 2 == 1; }
    }
    Le16Inverse(x);
  }

  /**
   * Converting to 16 bits: 16-bit data is left alone; 8-bit data becomes
   * 16-bit data twice as long, holding every sample re-centred and scaled.
   */
  lemma Bps16Meaning(p: PcmState)
    ensures Bps16Of(p).bps == B16
    ensures p.bps == B16 ==> Bps16Of(p) == p
    ensures p.bps == B8 ==>
              && Bps16Of(p) == p.(bps := B16, smp := Bps16Of(p).smp)
              && |Bps16Of(p).smp| == 2 * |p.smp|
              && forall k | 0 <= k < |p.smp| :: Sample16(Bps16Of(p).smp, k) == (p.smp[k] as int - 128) * 256
  {
    if p.bps == B8 {
      forall k | 0 <= k < |p.smp|
        ensures Sample16(Bps16Of(p).smp, k) == (p.smp[k] as int - 128) * 256
      {
        WidenSamples(p.smp, k);
      }
    }
  }

  // ---------------------------------------------------------------------
  // Sample rate
  // ---------------------------------------------------------------------

  /** `u64::div_ceil`. */
  function DivCeil(a: nat, b: nat): (q: nat)
    requires b > 0
    ensures q * b >= a && (q == 0 || (q - 1) * b < a)
  {
    var q := (a + b - 1) / b;
    assert q * b <= a + b - 1 < (q + 1) * b;
    q
  }

  /**
   * What `into_converted_sps` demands: when the rates differ, the source
   * rate is not zero (`div_ceil` by zero panics), the 32-bit byte count of
   * the body does not wrap, and each rescaled size fits a `u32` (`unwrap`).
   */
  predicate SpsConvertible(p: PcmState, newSps: u16)
  {
    p.sps == newSps ||
    (p.sps != 0 && p.numSamples * 32 < 0x1_0000_0000 &&
     DivCeil(4 * newSps, p.sps) < 0x1_0000_0000 &&
     DivCeil(p.numSamples * 4 * newSps, p.sps) < 0x1_0000_0000)
  }

  /** The number of output frames: the wrapped sum of head, body and tail sizes, in whole frames. */
  function ResampleFrameNum(p: PcmState, newSps: u16): nat
    requires p.sps != 0
  {
    var edge := DivCeil(4 * newSps, p.sps);
    var body := DivCeil(p.numSamples * 4 * newSps, p.sps);
    Wrap32(edge + body + edge) / 4
  }

  /** The source frame output frame i is taken from. */
  function SourceFrame(i: nat, sps: nat, newSps: nat): nat
    requires newSps > 0
  {
    i * sps / newSps
  }

  /**
   * n output frames of four bytes: frame i is source frame `i * sps / newSps`
   * when the source has it, and silence otherwise.
   */
  function Resampled(smp: seq<u8>, sps: nat, newSps: nat, n: nat): (r: seq<u8>)
    ensures if newSps == 0 then r == [] else |r| == 4 * n
  {
    if newSps == 0 then []
    else
      seq(4 * n, j requires 0 <= j < 4 * n =>
        var idx := SourceFrame(j / 4, sps, newSps);
        if idx < |smp| / 4 then smp[4 * idx + j % 4] else 0)
  }

  /** `into_converted_sps` as a function: the sample count it reports and the bytes. */
  function ConvertedSpsOf(p: PcmState, newSps: u16): (u32, seq<u8>)
    requires SpsConvertible(p, newSps)
  {
    if p.sps == newSps then (p.numSamples, p.smp)
    else
      var body := DivCeil(p.numSamples * 4 * newSps, p.sps);
      (body / 4, Resampled(p.smp, p.sps, newSps, ResampleFrameNum(p, newSps)))
  }

  /**
   * At the same rate the data comes back as it was. Otherwise the count
   * reported is the rescaled body size, rounded up, in whole frames, and the
   * bytes are whole four-byte frames.
   */
  lemma ConvertedSpsMeaning(p: PcmState, newSps: u16)
    requires SpsConvertible(p, newSps)
    ensures p.sps == newSps ==> ConvertedSpsOf(p, newSps) == (p.numSamples, p.smp)
    ensures p.sps != newSps ==>
              && ConvertedSpsOf(p, newSps).0 == DivCeil(p.numSamples * 4 * newSps, p.sps) / 4
              && |ConvertedSpsOf(p, newSps).1| % 4 == 0
              && (newSps > 0 ==> |ConvertedSpsOf(p, newSps).1| == 4 * ResampleFrameNum(p, newSps))
  {
  }

  lemma SourceFrameMonotone(i: nat, k: nat, sps: nat, newSps: nat)
    requires newSps > 0 && i <= k
    ensures SourceFrame(i, sps, newSps) <= SourceFrame(k, sps, newSps)
  {
    MulMonotone(i, k, sps);
    DivMonotone(i * sps, k * sps, newSps);
  }

  /**
   * The resampled frames are source frames in source order: each output
   * frame is a whole source frame or silence, the frames taken are never
   * earlier than those before them, and once one is past the end of the
   * source all later ones are silence.
   */
  lemma ResampledFrames(smp: seq<u8>, sps: nat, newSps: nat, n: nat, i: nat, k: nat)
    requires newSps > 0 && i < n && k < n && i <= k
    ensures var r := Resampled(smp, sps, newSps, n);
            var a := SourceFrame(i, sps, newSps);
            && (a < |smp| / 4 ==> r[4 * i..4 * i + 4] == smp[4 * a..4 * a + 4])
            && (a >= |smp| / 4 ==> r[4 * i..4 * i + 4] == [0, 0, 0, 0] && r[4 * k..4 * k + 4] == [0, 0, 0, 0])
            && a <= SourceFrame(k, sps, newSps)
  {
    var r := Resampled(smp, sps, newSps, n);
    var a := SourceFrame(i, sps, newSps);
    hide Resampled;
    SourceFrameMonotone(i, k, sps, newSps);
    var ri, rk := r[4 * i..4 * i + 4], r[4 * k..4 * k + 4];
    forall t | 0 <= t < 4
      ensures ri[t] == (if a < |smp| / 4 then smp[4 * a + t] else 0)
    {
      ResampledByte(smp, sps, newSps, n, i, t);
    }
    if a < |smp| / 4 {
      assert ri == smp[4 * a..4 * a + 4];
    } else {
      forall t | 0 <= t < 4
        ensures rk[t] == 0
      {
        ResampledByte(smp, sps, newSps, n, k, t);
      }
      assert ri == [0, 0, 0, 0] && rk == [0, 0, 0, 0];
    }
  }

  /** Byte j of a resampled buffer. */
  lemma ResampledByte(smp: seq<u8>, sps: nat, newSps: nat, n: nat, i: nat, t: nat)
    requires newSps > 0 && i < n && t < 4
    ensures var idx := SourceFrame(i, sps, newSps);
            Resampled(smp, sps, newSps, n)[4 * i + t] == (if idx < |smp| / 4 then smp[4 * idx + t] else 0)
  {
    DivModUnique(4 * i + t, 4, i, t);
  }

  // ---------------------------------------------------------------------
  // The object
  // ---------------------------------------------------------------------

  /** `PcmData`. */
  class PcmData {
    var ch: ChNum
    var sps: u32
    var bps: Bps
    var numSamples: u32
    var smp: seq<u8>

    function State(): PcmState
      reads this
    {
      PcmState(ch, sps, bps, numSamples, smp)
    }

    /** The buffer holds exactly the announced number of samples. */
    predicate Valid()
      reads this
    {
      |smp| == SampleSize(numSamples, ch, bps)
    }

    /** `PcmData::new`: mono, 8-bit, no samples. */
    constructor ()
      ensures State() == PcmState(Mono, 0, B8, 0, []) && Valid()
    {
      ch, sps, bps, numSamples, smp := Mono, 0, B8, 0, [];
    }

    /** `create`: a buffer of the given shape filled with silence. */
    method Create(ch: ChNum, sps: u32, bps: Bps, sampleNum: u32)
      modifies this
      ensures Valid()
      ensures State() == PcmState(ch, sps, bps, sampleNum, seq(SampleSize(sampleNum, ch, bps), _ => Silence(bps)))
    {
      this.ch, this.sps, this.bps, this.numSamples := ch, sps, bps, sampleNum;
      var size := SampleSize(sampleNum, ch, bps);
      smp := seq(size, _ => Silence(bps));
    }

    /** `convert_to_stereo`: a mono buffer is rewritten with each sample doubled. */
    method ConvertToStereo()
      requires Valid()
      modifies this
      ensures Valid() && State() == StereoOf(old(State()))
    {
      if ch == Stereo {
        return;
      }
      var work;
      if bps == B8 {
        work := Stereo8Loop(smp);
      } else {
        work := Stereo16Loop(smp);
      }
      smp := work;
      ch := Stereo;
    }

    /**
     * `convert_to_bps_16`: an 8-bit buffer is rewritten as 16-bit samples.
     * The source computes the sizes in `u32`; the model requires them not to
     * wrap.
     */
    method ConvertToBps16()
      requires Valid() && numSamples * ChCount(ch) * 16 < 0x1_0000_0000
      modifies this
      ensures Valid() && State() == Bps16Of(old(State()))
    {
      if bps == B16 {
        return;
      }
      var sampleSize := SampleSize(numSamples, ch, bps);
      var src := smp;
      var workSize := sampleSize * 2;
      var buf := new u8[workSize](_ => 0);
      var a, b := 0, 0;
      while a < sampleSize
        invariant 0 <= a <= sampleSize && b == 2 * a && State() == old(State())
        invariant forall k | 0 <= k < b :: buf[k] == Widen(src)[k]
      {
        var temp := Widen8(src[a]);
        var le := Le16(AsUnsigned16(temp));
        buf[b] := le[0];
        buf[b + 1] := le[1];
        assert (b + 1) / 2 == a && (b + 1) % 2 == 1;
        b, a := b + 2, a + 1;
      }
      assert buf[..] == Widen(src);
      assert SampleSize(numSamples, ch, B16) == workSize;
      smp := buf[..];
      bps := B16;
    }

    /**
     * `into_converted_sps` on 16-bit stereo data (the source asserts that
     * shape): the frames are picked by rate ratio until one falls past the
     * end of the source, where the loop stops and the rest stays silent.
     * The source fills a `u32` buffer and returns its first bytes; the model
     * fills those bytes directly.
     */
    method IntoConvertedSps(newSps: u16) returns (num: u32, bytes: seq<u8>)
      requires Valid() && ch == Stereo && bps == B16 && SpsConvertible(State(), newSps)
      ensures (num, bytes) == ConvertedSpsOf(State(), newSps)
    {
      hide Resampled, DivCeil;
      if sps == newSps {
        return numSamples, smp;
      }
      var headSize := DivCeil(4 * newSps, sps);
      var bodySize := DivCeil(numSamples * 4 * newSps, sps);
      var tailSize := DivCeil(4 * newSps, sps);
      var workSize := Wrap32(headSize + bodySize + tailSize);
      var sampleNum := workSize / 4;
      assert sampleNum == ResampleFrameNum(State(), newSps);
      if newSps == 0 {
        bytes := [];
      } else {
        bytes := ResampleLoop(smp, sps, newSps, sampleNum);
      }
      num := bodySize / 4;
    }
  }

  /** The copying loop of `convert_to_stereo` for 8-bit samples. */
  method Stereo8Loop(src: seq<u8>) returns (work: seq<u8>)
    ensures work == Dup8(src)
  {
    var sampleSize := |src|;
    var buf := new u8[sampleSize * 2](_ => 0);
    var a, b := 0, 0;
    while a < sampleSize
      invariant 0 <= a <= sampleSize && b == 2 * a
      invariant forall k | 0 <= k < b :: buf[k] == Dup8(src)[k]
    {
      buf[b] := src[a];
      buf[b + 1] := src[a];
      b, a := b + 2, a + 1;
    }
    work := buf[..];
  }

  /** The copying loop of `convert_to_stereo` for 16-bit samples. */
  method Stereo16Loop(src: seq<u8>) returns (work: seq<u8>)
    requires |src| % 2 == 0
    ensures work == Dup16(src)
  {
    ghost var dup := Dup16(src);
    hide Dup16;
    var sampleSize := |src|;
    var buf := new u8[sampleSize * 2](_ => 0);
    var a, b := 0, 0;
    while a < sampleSize
      invariant 0 <= a <= sampleSize && a % 2 == 0 && b == 2 * a
      invariant forall k | 0 <= k < b :: buf[k] == dup[k]
    {
      Dup16Frame(src, a);
      CopyFrame(buf, a / 2, [src[a], src[a + 1], src[a], src[a + 1]]);
      b, a := b + 4, a + 2;
    }
    work := buf[..];
  }

  /**
   * The frame loop of `into_converted_sps`: output frame i copies source
   * frame `i * sps / newSps`; at the first one past the end of the source
   * the loop stops, leaving the rest silent.
   */
  method ResampleLoop(smp: seq<u8>, sps: nat, newSps: nat, sampleNum: nat) returns (bytes: seq<u8>)
    requires newSps > 0
    ensures bytes == Resampled(smp, sps, newSps, sampleNum)
  {
    ghost var r := Resampled(smp, sps, newSps, sampleNum);
    var frames := |smp| / 4;
    var buf := new u8[4 * sampleNum](_ => 0);
    var i := 0;
    while i < sampleNum
      invariant 0 <= i <= sampleNum
      invariant forall j | 0 <= j < 4 * i :: buf[j] == r[j]
      invariant forall j | 4 * i <= j < 4 * sampleNum :: buf[j] == 0
    {
      var idx := SourceFrame(i, sps, newSps);
      if idx >= frames {
        ResampledTailSilent(smp, sps, newSps, sampleNum, i);
        break;
      }
      ResampledFrame(smp, sps, newSps, sampleNum, i);
      CopyFrame(buf, i, smp[4 * idx..4 * idx + 4]);
      i := i + 1;
    }
    bytes := buf[..];
  }

  /** Once frame i of the resampled data is past the source, so is every later one. */
  lemma ResampledTailSilent(smp: seq<u8>, sps: nat, newSps: nat, n: nat, i: nat)
    requires newSps > 0 && SourceFrame(i, sps, newSps) >= |smp| / 4
    ensures forall j | 4 * i <= j < 4 * n :: Resampled(smp, sps, newSps, n)[j] == 0
  {
    forall j | 4 * i <= j < 4 * n
      ensures Resampled(smp, sps, newSps, n)[j] == 0
    {
      SourceFrameMonotone(i, j / 4, sps, newSps);
      ResampledByte(smp, sps, newSps, n, j / 4, j % 4);
    }
  }

  /** Frame i of the resampled data is the four bytes of its source frame. */
  lemma ResampledFrame(smp: seq<u8>, sps: nat, newSps: nat, n: nat, i: nat)
    requires newSps > 0 && i < n && SourceFrame(i, sps, newSps) < |smp| / 4
    ensures 4 * SourceFrame(i, sps, newSps) + 4 <= |smp|
    ensures var idx := SourceFrame(i, sps, newSps);
            Resampled(smp, sps, newSps, n)[4 * i..4 * i + 4] == smp[4 * idx..4 * idx + 4]
  {
    var idx := SourceFrame(i, sps, newSps);
    FrameFits(idx, |smp|);
    var r := Resampled(smp, sps, newSps, n);
    ResampledByte(smp, sps, newSps, n, i, 0);
    ResampledByte(smp, sps, newSps, n, i, 1);
    ResampledByte(smp, sps, newSps, n, i, 2);
    ResampledByte(smp, sps, newSps, n, i, 3);
    assert r[4 * i..4 * i + 4] == [r[4 * i], r[4 * i + 1], r[4 * i + 2], r[4 * i + 3]];
  }

  /** A frame below `m / 4` lies wholly inside `m` bytes. */
  lemma FrameFits(idx: nat, m: nat)
    requires idx < m / 4
    ensures 4 * idx + 4 <= m
  {
    assert m == 4 * (m / 4) + m % 4;
  }

  /** Writes one four-byte frame at frame index i of `buf`. */
  method CopyFrame(buf: array<u8>, i: nat, frame: seq<u8>)
    requires |frame| == 4 && 4 * i + 4 <= buf.Length
    modifies buf
    ensures forall j | 0 <= j < buf.Length ::
              buf[j] == if 4 * i <= j < 4 * i + 4 then frame[j - 4 * i] else old(buf[j])
  {
    buf[4 * i] := frame[0];
    buf[4 * i + 1] := frame[1];
    buf[4 * i + 2] := frame[2];
    buf[4 * i + 3] := frame[3];
  }

  /**
   * `to_converted`: a copy converted to 16 bits, then to stereo, then to the
   * new rate; the data itself is left as it was.
   */
  method ToConverted(pcm: PcmData, newSps: u16) returns (num: u32, bytes: seq<u8>)
    requires pcm.Valid() && pcm.numSamples * 32 < 0x1_0000_0000
    requires SpsConvertible(StereoOf(Bps16Of(pcm.State())), newSps)
    ensures (num, bytes) == ConvertedSpsOf(StereoOf(Bps16Of(pcm.State())), newSps)
  {
    var copy := new PcmData();
    copy.ch, copy.sps, copy.bps, copy.numSamples, copy.smp := pcm.ch, pcm.sps, pcm.bps, pcm.numSamples, pcm.smp;
    copy.ConvertToBps16();
    copy.ConvertToStereo();
    num, bytes := copy.IntoConvertedSps(newSps);
  }
}

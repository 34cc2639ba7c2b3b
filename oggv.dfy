/**
 * The integer parts of Ogg/Vorbis voice decoding: interleaving the
 * decoder's planar output, trimming the decoded samples by the codec's
 * delay and padding, and the resulting PCM fields. The Vorbis decoder and
 * the float-to-`i16` rounding of its output are outside the model; their
 * result is a parameter.
 */
module Oggv {
  import opened Base
  import Pcm

  // ---------------------------------------------------------------------
  // Interleaving
  // ---------------------------------------------------------------------

  /** The position of plane `c`'s sample of frame `i` among `n` interleaved planes. */
  function Slot(n: nat, i: nat, c: nat): nat
  {
    i * n + c
  }

  /** Every slot of frame `i` comes before frame `k` when `i < k`. */
  lemma SlotBelow(n: nat, i: nat, c: nat, k: nat)
    requires i < k && c < n
    ensures Slot(n, i, c) < k * n
  {
    MulMonotone(i + 1, k, n);
  }

  /** Every position below `n * frames` is a slot of some frame and plane. */
  lemma SlotOf(k: nat, n: nat, frames: nat)
    requires n >= 1 && k < n * frames
    ensures k / n < frames && k % n < n && k == Slot(n, k / n, k % n)
  {
    if k / n >= frames {
      MulMonotone(frames, k / n, n);
    }
  }

  /**
   * `out` holds frame after frame, each frame one sample of every plane in
   * plane order; the first plane sets the frame count.
   */
  ghost predicate IsInterleaving<T>(out: seq<T>, planar: seq<seq<T>>)
    requires |planar| >= 1
    requires forall c :: 0 <= c < |planar| ==> |planar[c]| >= |planar[0]|
  {
    && |out| == |planar| * |planar[0]|
    && forall i, c :: 0 <= i < |planar[0]| && 0 <= c < |planar| ==>
         Slot(|planar|, i, c) < |out| && out[Slot(|planar|, i, c)] == planar[c][i]
  }

  /**
   * `planar_to_interleaved`. It panics without a plane (`planar[0]`) or
   * when a plane is shorter than the first (`ch[i]`).
   */
  method PlanarToInterleaved<T>(planar: seq<seq<T>>) returns (out: seq<T>)
    requires |planar| >= 1
    requires forall c :: 0 <= c < |planar| ==> |planar[c]| >= |planar[0]|
    ensures IsInterleaving(out, planar)
  {
    var channels := |planar|;
    var frames := |planar[0]|;
    out := [];
    for i := 0 to frames
      invariant |out| == i * channels
      invariant forall k, c :: 0 <= k < i && 0 <= c < channels ==>
        Slot(channels, k, c) < |out| && out[Slot(channels, k, c)] == planar[c][k]
    {
      out := AppendFrame(planar, i, out);
    }
  }

  /** One pass of the outer loop: frame `i`, plane by plane, appended to `out`. */
  method AppendFrame<T>(planar: seq<seq<T>>, i: nat, prefix: seq<T>) returns (out: seq<T>)
    requires |planar| >= 1 && i < |planar[0]|
    requires forall c :: 0 <= c < |planar| ==> |planar[c]| >= |planar[0]|
    requires |prefix| == i * |planar|
    requires forall k, c :: 0 <= k < i && 0 <= c < |planar| ==>
      Slot(|planar|, k, c) < |prefix| && prefix[Slot(|planar|, k, c)] == planar[c][k]
    ensures |out| == (i + 1) * |planar|
    ensures forall k, c :: 0 <= k < i + 1 && 0 <= c < |planar| ==>
      Slot(|planar|, k, c) < |out| && out[Slot(|planar|, k, c)] == planar[c][k]
  {
    var n := |planar|;
    out := prefix;
    for c := 0 to n
      invariant |out| == i * n + c
      invariant out[..i * n] == prefix
      invariant forall d :: 0 <= d < c ==> out[i * n + d] == planar[d][i]
    {
      out := out + [planar[c][i]];
    }
    forall k, c | 0 <= k < i + 1 && 0 <= c < n
      ensures Slot(n, k, c) < |out| && out[Slot(n, k, c)] == planar[c][k]
    {
      if k < i {
        SlotBelow(n, k, c, i);
        assert out[Slot(n, k, c)] == prefix[Slot(n, k, c)];
      }
    }
  }

  /** Plane `c` read back out of an interleaving of `n` planes. */
  function Deinterleave<T>(out: seq<T>, n: nat, c: nat): (plane: seq<T>)
    requires c < n
    ensures |plane| == |out| / n
  {
    seq(|out| / n, i requires 0 <= i < |out| / n => FrameSample(out, n, c, i))
  }

  function FrameSample<T>(out: seq<T>, n: nat, c: nat, i: nat): T
    requires c < n && i < |out| / n
  {
    SlotBelow(n, i, c, |out| / n);
    out[Slot(n, i, c)]
  }

  /** Reading a plane back out of the interleaving gives its first `frames` samples. */
  lemma DeinterleaveInverse<T>(out: seq<T>, planar: seq<seq<T>>, c: nat)
    requires |planar| >= 1
    requires forall d :: 0 <= d < |planar| ==> |planar[d]| >= |planar[0]|
    requires IsInterleaving(out, planar) && c < |planar|
    ensures Deinterleave(out, |planar|, c) == planar[c][..|planar[0]|]
  {
    var n, frames := |planar|, |planar[0]|;
    assert |out| / n == frames by {
      DivModUnique(n * frames, n, frames, 0);
    }
  }

  /** The interleaving is determined by the planes: two of them are the same sequence. */
  lemma InterleavingUnique<T>(out1: seq<T>, out2: seq<T>, planar: seq<seq<T>>)
    requires |planar| >= 1
    requires forall d :: 0 <= d < |planar| ==> |planar[d]| >= |planar[0]|
    requires IsInterleaving(out1, planar) && IsInterleaving(out2, planar)
    ensures out1 == out2
  {
    var n, frames := |planar|, |planar[0]|;
    forall k | 0 <= k < |out1|
      ensures out1[k] == out2[k]
    {
      SlotOf(k, n, frames);
      var i, c := k / n, k % n;
      assert out1[Slot(n, i, c)] == planar[c][i] == out2[Slot(n, i, c)];
    }
  }

  // ---------------------------------------------------------------------
  // Trimming and the PCM fields
  // ---------------------------------------------------------------------

  /** `usize::saturating_sub`. */
  function SaturatingSub(a: nat, b: nat): (r: nat)
    ensures r <= a && (r == 0 || r + b == a)
    ensures r + b >= a
  {
    if a >= b then a - b else 0
  }

  /** The amount an optional trim removes: nothing when it is absent. */
  function TrimOf(t: Option<u32>): nat
  {
    if t.Some? then t.value else 0
  }

  /** The bytes `pod_collect_to_vec` makes of `i16` samples: each little-endian. */
  function SampleBytes(s: seq<i16>): (b: seq<u8>)
    ensures |b| == 2 * |s|
  {
    seq(2 * |s|, i requires 0 <= i < 2 * |s| => Le16(AsUnsigned16(s[i / 2]))[i % 2])
  }

  /** Every sample reads back from its bytes. */
  lemma SampleBytesInverse(s: seq<i16>, k: nat)
    requires k < |s|
    ensures Pcm.Sample16(SampleBytes(s), k) == s[k]
  {
    var b := SampleBytes(s);
    var x := AsUnsigned16(s[k]);
    assert b[2 * k..2 * k + 2] == Le16(x) by {
      assert b[2 * k] == Le16(x)[0] by { assert (2 * k) / 2 == k && (2 * k) % 2 == 0; }
      assert b[2 * k + 1] == Le16(x)[1] by { assert (2 * k + 1) / 2 == k && (2 * k + 1) % 2 == 1; }
    }
    Le16Inverse(x);
  }

  /**
   * The end of `decode_oggv`, after the packets are decoded. Without a
   * sample rate or a channel count the track yields `None`; a channel
   * count other than 1 or 2 panics. The decoded samples are truncated by
   * the delay and then by the padding, each a saturating subtraction from
   * the current length, so both trims remove samples from the end. The
   * sample count is the byte count, cast to `u32`, halved and divided by
   * the channel count.
   */
  method DecodeOggv(sampleRate: Option<u32>, channels: Option<nat>, decoded: seq<i16>,
                    delay: Option<u32>, padding: Option<u32>) returns (r: Option<Pcm.PcmState>)
    requires channels.Some? ==> channels.value == 1 || channels.value == 2
    ensures sampleRate.None? || channels.None? <==> r.None?
    ensures r.Some? ==>
      var kept := SaturatingSub(SaturatingSub(|decoded|, TrimOf(delay)), TrimOf(padding));
      && r.value.ch == (if channels.value == 1 then Mono else Stereo)
      && r.value.sps == sampleRate.value && r.value.bps == B16
      && r.value.smp == SampleBytes(decoded[..kept])
      && r.value.numSamples == Wrap32(2 * kept) / 2 / channels.value
  {
    if sampleRate.None? || channels.None? {
      return None;
    }
    var ch := if channels.value == 1 then Mono else Stereo;
    var samples := decoded;
    if delay.Some? {
      samples := samples[..SaturatingSub(|samples|, delay.value)];
    }
    if padding.Some? {
      samples := samples[..SaturatingSub(|samples|, padding.value)];
    }
    var smp := SampleBytes(samples);
    var numSamples := Wrap32(|smp|) / 2 / ChCount(ch);
    r := Some(Pcm.PcmState(ch, sampleRate.value, B16, numSamples, smp));
  }

  /**
   * The kept samples are the first ones decoded, as many as remain after
   * taking the delay and the padding off the count, and while the byte
   * count fits in a `u32` the sample count is the number of whole frames.
   */
  lemma DecodedPcmMeaning(decoded: seq<i16>, delay: Option<u32>, padding: Option<u32>, channels: nat, k: nat)
    requires channels == 1 || channels == 2
    requires var kept := SaturatingSub(SaturatingSub(|decoded|, TrimOf(delay)), TrimOf(padding));
      k < kept && 2 * kept < 0x1_0000_0000
    ensures var kept := SaturatingSub(SaturatingSub(|decoded|, TrimOf(delay)), TrimOf(padding));
      && kept + TrimOf(delay) + TrimOf(padding) == |decoded|
      && Pcm.Sample16(SampleBytes(decoded[..kept]), k) == decoded[k]
      && (Wrap32(2 * kept) / 2 / channels) * channels <= kept < (Wrap32(2 * kept) / 2 / channels + 1) * channels
  {
    var kept := SaturatingSub(SaturatingSub(|decoded|, TrimOf(delay)), TrimOf(padding));
    SampleBytesInverse(decoded[..kept], k);
    assert Wrap32(2 * kept) / 2 == kept;
  }
}

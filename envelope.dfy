/**
 * The volume envelope of a voice: an `EnvelopeSrc` of relative points is
 * turned into absolute sample positions, and from those into one volume
 * byte per envelope sample by integer linear interpolation.
 *
 * The source computes each position step as `(x * sps / seconds_per_point)`
 * in `f64` and truncates it. For operands below 2^32 that is exactly the
 * integer quotient: an `f64` quotient of two such integers is never rounded
 * onto the next integer (the gap below an integer quotient is at least 1/b,
 * far more than the rounding error), so `FloatQuotient` states it in
 * integers, including the saturating casts of infinity and NaN when the
 * divisor is zero.
 */
module Envelope {
  import opened Base
  import opened Point

  /** `EnvelopeSrc`: seconds per point and the relative points. */
  datatype EnvelopeSrc = EnvelopeSrc(secondsPerPoint: u32, points: seq<EnvPt>)

  /** An absolute envelope point: a sample position and a volume. */
  datatype AbsPt = AbsPt(x: u32, y: u8)

  /** `ENV_SIZE_SAFETY_LIMIT`: no prepared envelope is longer than 2^20 samples. */
  const ENV_SIZE_SAFETY_LIMIT: nat := 1_048_576

  /** `usize::MAX`, where a cast of +infinity to `usize` saturates. */
  const USIZE_MAX: nat := 0xFFFF_FFFF_FFFF_FFFF

  /**
   * `(f64::from(a) / f64::from(b)) as T` where `T`'s largest value is `max`:
   * the truncated quotient; a zero divisor gives +infinity (saturating to
   * `max`) or, for 0/0, NaN (cast to 0).
   */
  function FloatQuotient(a: nat, b: u32, max: nat): (q: nat)
    requires a < 0x1_0000_0000 && max >= 0xFFFF_FFFF
    ensures b > 0 ==> q * b <= a < (q + 1) * b
    ensures b == 0 ==> q == (if a == 0 then 0 else max)
    ensures b > 0 ==> q <= a
  {
    if b == 0 then (if a == 0 then 0 else max)
    else a / b
  }

  /** The position step of one point: `x * sps / seconds_per_point`, cast to `u32`. */
  function Step(x: u16, sps: u16, spp: u32): u32
  {
    MulBelow(x, sps);
    FloatQuotient(x * sps, spp, 0xFFFF_FFFF)
  }

  lemma MulBelow(x: u16, sps: u16)
    ensures x * sps < 0x1_0000_0000
  {
    MulLe(x, sps, 0xFFFF, 0xFFFF);
  }

  lemma MulLe(a: nat, b: nat, c: nat, d: nat)
    requires a <= c && b <= d
    ensures a * b <= c * d
  {
    assert a * b <= c * b;
    assert c * b <= c * d;
  }

  // ---------------------------------------------------------------------
  // Absolute points (`to_absolute`)
  // ---------------------------------------------------------------------

  /** A point takes part in the envelope if it is the first one or not (0, 0). */
  predicate Kept(pts: seq<EnvPt>, e: nat)
    requires e < |pts|
  {
    e == 0 || pts[e].x != 0 || pts[e].y != 0
  }

  /** The running `u32` offset after the first n points: the wrapped sum of the kept points' steps. */
  function OffsetAfter(env: EnvelopeSrc, sps: u16, n: nat): u32
    requires n <= |env.points|
  {
    if n == 0 then 0
    else if Kept(env.points, n - 1) then
      Wrap32(OffsetAfter(env, sps, n - 1) + Step(env.points[n - 1].x, sps, env.secondsPerPoint))
    else OffsetAfter(env, sps, n - 1)
  }

  /** How many of the first n points are kept. */
  function KeptCount(pts: seq<EnvPt>, n: nat): (c: nat)
    requires n <= |pts|
    ensures c <= n
    ensures n > 0 ==> c >= 1
  {
    if n == 0 then 0
    else KeptCount(pts, n - 1) + (if Kept(pts, n - 1) then 1 else 0)
  }

  /**
   * The absolute points of the first n relative points, in order, one per
   * kept point: its running offset and its volume.
   */
  function Absolute(env: EnvelopeSrc, sps: u16, n: nat): (r: seq<AbsPt>)
    requires n <= |env.points|
    ensures |r| == KeptCount(env.points, n)
  {
    if n == 0 then []
    else if Kept(env.points, n - 1) then
      Absolute(env, sps, n - 1) + [AbsPt(OffsetAfter(env, sps, n), env.points[n - 1].y)]
    else Absolute(env, sps, n - 1)
  }

  /**
   * The point list the source builds: one slot per relative point, a kept
   * point's slot holding its absolute point and a skipped point's slot left
   * at (0, 0); the count of kept points comes with it.
   */
  function AbsoluteAsWritten(env: EnvelopeSrc, sps: u16, head: nat): (r: (seq<AbsPt>, nat))
    requires head <= |env.points|
    ensures |r.0| == head && r.1 == KeptCount(env.points, head)
  {
    (seq(head, e requires 0 <= e < head =>
       if Kept(env.points, e) then AbsPt(OffsetAfter(env, sps, e + 1), env.points[e].y) else AbsPt(0, 0)),
     KeptCount(env.points, head))
  }

  /**
   * `to_absolute`, with each kept point stored at the next free slot
   * (`head_num`) rather than at its own index: the first `headNum` slots
   * hold exactly the kept points in order and the rest stay (0, 0).
   */
  method ToAbsolute(env: EnvelopeSrc, head: nat, sps: u16) returns (points: array<AbsPt>, headNum: nat)
    requires head <= |env.points|
    ensures fresh(points) && points.Length == head
    ensures headNum == KeptCount(env.points, head) <= head
    ensures points[..headNum] == Absolute(env, sps, head)
    ensures forall k | headNum <= k < head :: points[k] == AbsPt(0, 0)
  {
    points := new AbsPt[head](_ => AbsPt(0, 0));
    var offset: u32 := 0;
    headNum := 0;
    for e := 0 to head
      invariant headNum == KeptCount(env.points, e) <= e
      invariant offset == OffsetAfter(env, sps, e)
      invariant points[..headNum] == Absolute(env, sps, e)
      invariant forall k | headNum <= k < head :: points[k] == AbsPt(0, 0)
    {
      if e == 0 || env.points[e].x != 0 || env.points[e].y != 0 {
        offset := Wrap32(offset + Step(env.points[e].x, sps, env.secondsPerPoint));
        points[headNum] := AbsPt(offset, env.points[e].y);
        headNum := headNum + 1;
      }
    }
  }

  /** When no point after the first is (0, 0), the slots the source fills are the kept points in order. */
  lemma {:induction false} AsWrittenWithoutGaps(env: EnvelopeSrc, sps: u16, head: nat)
    requires head <= |env.points|
    requires forall e | 0 <= e < head :: Kept(env.points, e)
    ensures AbsoluteAsWritten(env, sps, head).1 == head
    ensures AbsoluteAsWritten(env, sps, head).0 == Absolute(env, sps, head)
  {
    if head > 0 {
      AsWrittenWithoutGaps(env, sps, head - 1);
      AllKeptCount(env.points, head);
      var w := AbsoluteAsWritten(env, sps, head).0;
      var w' := AbsoluteAsWritten(env, sps, head - 1).0;
      assert w == w' + [w[head - 1]];
    }
  }

  lemma {:induction false} AllKeptCount(pts: seq<EnvPt>, n: nat)
    requires n <= |pts|
    requires forall e | 0 <= e < n :: Kept(pts, e)
    ensures KeptCount(pts, n) == n
  {
    if n > 0 {
      AllKeptCount(pts, n - 1);
    }
  }

  // ---------------------------------------------------------------------
  // Interpolation (`to_prepared_envelope`)
  // ---------------------------------------------------------------------

  /** The cursor after the inner loop for sample i, starting at e: it passes every point at or before i. */
  function Pass(abs: seq<AbsPt>, n: nat, e: nat, i: nat): (r: nat)
    requires n <= |abs| && e <= n
    ensures e <= r <= n
    ensures r < n ==> abs[r].x > i
    ensures forall k | e <= k < r :: abs[k].x <= i
    decreases n - e
  {
    if e < n && i >= abs[e].x then Pass(abs, n, e + 1, i) else e
  }

  /** The cursor before sample i. */
  function CursorBefore(abs: seq<AbsPt>, n: nat, i: nat): (e: nat)
    requires n <= |abs|
    ensures e <= n
  {
    if i == 0 then 0 else Pass(abs, n, CursorBefore(abs, n, i - 1), i - 1)
  }

  /** The last passed point, or (0, 0) before the first one. */
  function StartOf(abs: seq<AbsPt>, e: nat): AbsPt
    requires e <= |abs|
  {
    if e == 0 then AbsPt(0, 0) else abs[e - 1]
  }

  /** The last passed point never lies after the current sample. */
  lemma {:induction false} StartNotAfter(abs: seq<AbsPt>, n: nat, i: nat)
    requires n <= |abs|
    ensures StartOf(abs, CursorBefore(abs, n, i + 1)).x <= i
  {
    var e0 := CursorBefore(abs, n, i);
    var e := CursorBefore(abs, n, i + 1);
    if e == e0 && i > 0 {
      StartNotAfter(abs, n, i - 1);
    }
  }

  /**
   * The interpolated level between `s` and `p` at sample i, in the source's
   * `i32` arithmetic, cast to `u8`. The divisor is non-zero because `p`
   * lies after i and `s` does not.
   */
  function Interp(s: AbsPt, p: AbsPt, i: nat): u8
    requires s.x <= i < p.x && i < ENV_SIZE_SAFETY_LIMIT
  {
    var den := WrapI32(AsSigned32(p.x) - s.x);
    DenNonZero(s.x, p.x);
    var num := (p.y - s.y) * (i - s.x);
    NumBound(p.y - s.y, i - s.x);
    LowByte(s.y + TruncDiv(num, den))
  }

  lemma DenNonZero(sx: nat, px: u32)
    requires sx < px
    ensures WrapI32(AsSigned32(px) - sx) != 0
  {
  }

  lemma NumBound(dy: int, t: nat)
    requires -0x100 < dy < 0x100 && t < ENV_SIZE_SAFETY_LIMIT
    ensures -0x1000_0000 < dy * t < 0x1000_0000
  {
    var a: nat := if dy >= 0 then dy else -dy;
    MulLe(a, t, 0xFF, ENV_SIZE_SAFETY_LIMIT);
    assert a * t < 0x1000_0000;
    if dy < 0 {
      assert dy * t == -(a * t);
    }
  }

  /**
   * The prepared level at envelope sample i: the interpolation from the last
   * passed point toward the next one, or the last passed point's volume once
   * all n points are passed.
   */
  function Level(abs: seq<AbsPt>, n: nat, i: nat): u8
    requires n <= |abs| && i < ENV_SIZE_SAFETY_LIMIT
  {
    var e := CursorBefore(abs, n, i + 1);
    StartNotAfter(abs, n, i);
    if e < n then Interp(StartOf(abs, e), abs[e], i) else StartOf(abs, e).y
  }

  /**
   * `to_prepared_envelope`: every byte of `dst` becomes the prepared level
   * at its index.
   */
  method ToPreparedEnvelope(dst: array<u8>, abs: seq<AbsPt>, headNum: nat)
    requires headNum <= |abs| && dst.Length <= ENV_SIZE_SAFETY_LIMIT
    modifies dst
    ensures forall i | 0 <= i < dst.Length :: dst[i] == Level(abs, headNum, i)
  {
    var e := 0;
    var start := AbsPt(0, 0);
    for i := 0 to dst.Length
      invariant e == CursorBefore(abs, headNum, i) && start == StartOf(abs, e)
      invariant forall k | 0 <= k < i :: dst[k] == Level(abs, headNum, k)
    {
      var level;
      e, start, level := NextLevel(abs, headNum, i, e, start);
      dst[i] := level;
    }
  }

  /**
   * One sample of `to_prepared_envelope`: the cursor passes the points at
   * or before i, and the level follows from the last passed point and the
   * next one.
   */
  method NextLevel(abs: seq<AbsPt>, headNum: nat, i: nat, e0: nat, start0: AbsPt) returns (e: nat, start: AbsPt, level: u8)
    requires headNum <= |abs| && i < ENV_SIZE_SAFETY_LIMIT
    requires e0 == CursorBefore(abs, headNum, i) && start0 == StartOf(abs, e0)
    ensures e == CursorBefore(abs, headNum, i + 1) && start == StartOf(abs, e)
    ensures level == Level(abs, headNum, i)
  {
    e, start := e0, start0;
    while e < headNum && i >= abs[e].x
      invariant e0 <= e <= headNum
      invariant Pass(abs, headNum, e, i) == Pass(abs, headNum, e0, i)
      invariant start == StartOf(abs, e)
      decreases headNum - e
    {
      start := abs[e];
      e := e + 1;
    }
    assert e == CursorBefore(abs, headNum, i + 1);
    StartNotAfter(abs, headNum, i);
    if e < headNum {
      level := Interp(start, abs[e], i);
    } else {
      level := start.y;
    }
  }

  /** Past the last point (every point at or before i), the level is the last point's volume, or 0 without points. */
  lemma LevelAfterLast(abs: seq<AbsPt>, n: nat, i: nat)
    requires n <= |abs| && i < ENV_SIZE_SAFETY_LIMIT
    requires forall k | 0 <= k < n :: abs[k].x <= i
    ensures Level(abs, n, i) == (if n == 0 then 0 else abs[n - 1].y)
  {
    PassAll(abs, n, CursorBefore(abs, n, i), i);
  }

  lemma {:induction false} PassAll(abs: seq<AbsPt>, n: nat, e: nat, i: nat)
    requires n <= |abs| && e <= n
    requires forall k | e <= k < n :: abs[k].x <= i
    ensures Pass(abs, n, e, i) == n
    decreases n - e
  {
    if e < n {
      PassAll(abs, n, e + 1, i);
    }
  }

  /**
   * While a next point exists and positions stay below 2^31 (so the `i32`
   * casts are exact), the level lies between the volumes of the last passed
   * point and the next one.
   */
  lemma LevelBetween(abs: seq<AbsPt>, n: nat, i: nat)
    requires n <= |abs| && i < ENV_SIZE_SAFETY_LIMIT
    requires forall k | 0 <= k < n :: abs[k].x < 0x8000_0000
    ensures var e := CursorBefore(abs, n, i + 1);
            e < n ==> Min(StartOf(abs, e).y, abs[e].y) <= Level(abs, n, i) <= Max(StartOf(abs, e).y, abs[e].y)
  {
    var e := CursorBefore(abs, n, i + 1);
    StartNotAfter(abs, n, i);
    if e < n {
      var s, p := StartOf(abs, e), abs[e];
      InterpBetween(s, p, i);
    }
  }

  lemma InterpBetween(s: AbsPt, p: AbsPt, i: nat)
    requires s.x <= i < p.x < 0x8000_0000 && i < ENV_SIZE_SAFETY_LIMIT
    ensures Min(s.y, p.y) <= Interp(s, p, i) <= Max(s.y, p.y)
  {
    InterpExact(s, p, i);
    var dy, t, den := p.y - s.y, i - s.x, p.x - s.x;
    NumBound(dy, t);
    var q := TruncDiv(dy * t, den);
    TruncFracBetween(dy, t, den);
    assert 0 <= s.y + q < 0x100;
    assert LowByte(s.y + q) == s.y + q;
  }

  /** Below 2^31 the `i32` casts are exact and the level is a plain truncated quotient. */
  lemma InterpExact(s: AbsPt, p: AbsPt, i: nat)
    requires s.x <= i < p.x < 0x8000_0000 && i < ENV_SIZE_SAFETY_LIMIT
    ensures Interp(s, p, i) == LowByte(s.y + TruncDiv((p.y - s.y) * (i - s.x), p.x - s.x))
  {
    assert AsSigned32(p.x) == p.x;
    assert WrapI32(p.x - s.x) == p.x - s.x;
  }

  /** A fraction t/den < 1 of dy, truncated, lies between 0 and dy. */
  lemma TruncFracBetween(dy: int, t: nat, den: nat)
    requires t < den
    ensures Min(0, dy) <= TruncDiv(dy * t, den) <= Max(0, dy)
  {
    if dy >= 0 {
      FracBelow(dy, t, den);
    } else {
      FracBelow(-dy, t, den);
      assert dy * t == -((-dy) * t);
    }
  }

  /** 0 <= a*t/d <= a when 0 <= t < d. */
  lemma FracBelow(a: nat, t: nat, d: nat)
    requires t < d
    ensures 0 <= (a * t) / d <= a
  {
    MulLe(a, t, a, d);
  }

  // ---------------------------------------------------------------------
  // `to_prepared`
  // ---------------------------------------------------------------------

  /** The `u32` sum of the first n points' x. */
  function SizeSum(pts: seq<EnvPt>, n: nat): u32
    requires n <= |pts|
  {
    if n == 0 then 0 else Wrap32(SizeSum(pts, n - 1) + pts[n - 1].x)
  }

  /**
   * The envelope length: the points' total x (all but the last) times the
   * sample rate, in `u32`, divided by the seconds per point and cast to
   * `usize`; 0 becomes 1.
   */
  function EnvSize(env: EnvelopeSrc, sps: u16): (size: nat)
    requires |env.points| > 0
    ensures size >= 1
  {
    var esps := Wrap32(SizeSum(env.points, |env.points| - 1) * sps);
    var raw := FloatQuotient(esps, env.secondsPerPoint, USIZE_MAX);
    if raw == 0 then 1 else raw
  }

  /**
   * What `to_prepared` yields: nothing for an empty envelope or one longer
   * than the safety limit; otherwise the prepared levels over the absolute
   * points of all but the last relative point, and `head`, the last
   * point's index.
   */
  function Prepared(env: EnvelopeSrc, sps: u16): (r: Option<(seq<u8>, nat)>)
    ensures r.None? <==> |env.points| == 0 || EnvSize(env, sps) > ENV_SIZE_SAFETY_LIMIT
    ensures r.Some? ==> 1 <= |r.value.0| <= ENV_SIZE_SAFETY_LIMIT && r.value.1 == |env.points| - 1
  {
    if |env.points| == 0 then None
    else
      var size := EnvSize(env, sps);
      if size > ENV_SIZE_SAFETY_LIMIT then None
      else
        var head := |env.points| - 1;
        var abs := Absolute(env, sps, head);
        Some((seq(size, i requires 0 <= i < size => Level(abs, |abs|, i)), head))
  }

  /** `to_prepared`: the sum loop, the size checks, then the absolute points and their interpolation. */
  method ToPrepared(env: EnvelopeSrc, sps: u16) returns (r: Option<(seq<u8>, nat)>)
    ensures r == Prepared(env, sps)
  {
    if |env.points| == 0 {
      return None;
    }
    var size: u32 := 0;
    var head := |env.points| - 1;
    for e := 0 to head
      invariant size == SizeSum(env.points, e)
    {
      size := Wrap32(size + env.points[e].x);
    }
    var esps := Wrap32(size * sps);
    var envSize := FloatQuotient(esps, env.secondsPerPoint, USIZE_MAX);
    if envSize == 0 {
      envSize := 1;
    }
    if envSize > ENV_SIZE_SAFETY_LIMIT {
      return None;
    }
    var abs, headNum := ToAbsolute(env, head, sps);
    assert envSize == EnvSize(env, sps);
    var packed := abs[..headNum];
    var prepared := new u8[envSize](_ => 0);
    ToPreparedEnvelope(prepared, packed, headNum);
    assert prepared[..] == seq(envSize, i requires 0 <= i < envSize => Level(packed, headNum, i));
    r := Some((prepared[..], head));
  }

  // ---------------------------------------------------------------------
  // What the source's slot indexing changes
  // ---------------------------------------------------------------------

  /** An envelope with a (0, 0) point between two others: at 1 sample per second and 1 second per point, steps are the x values. */
  const GAP_ENVELOPE: EnvelopeSrc := EnvelopeSrc(1, [EnvPt(10, 50), EnvPt(0, 0), EnvPt(10, 100), EnvPt(5, 0)])

  /**
   * With the source's slot indexing, the first `head_num` slots for
   * `GAP_ENVELOPE` are (10, 50) and the empty slot (0, 0), so the level falls
   * to 0 once sample 10 is reached; with the points packed, sample 15 lies
   * halfway from (10, 50) to (20, 100) and has level 75.
   */
  lemma AsWrittenGapDropsLevel()
    ensures AbsoluteAsWritten(GAP_ENVELOPE, 1, 3).0[..2] == [AbsPt(10, 50), AbsPt(0, 0)]
    ensures Absolute(GAP_ENVELOPE, 1, 3) == [AbsPt(10, 50), AbsPt(20, 100)]
    ensures Level([AbsPt(10, 50), AbsPt(0, 0)], 2, 15) == 0
    ensures Level([AbsPt(10, 50), AbsPt(20, 100)], 2, 15) == 75
  {
    hide Level, CursorBefore, Pass, Interp, OffsetAfter, Absolute;
    GapOffsets();
    var w := AbsoluteAsWritten(GAP_ENVELOPE, 1, 3).0;
    assert w[0] == AbsPt(10, 50) && w[1] == AbsPt(0, 0);
    GapCursor([AbsPt(10, 50), AbsPt(0, 0)], [AbsPt(10, 50), AbsPt(20, 100)]);
  }

  lemma GapOffsets()
    ensures OffsetAfter(GAP_ENVELOPE, 1, 1) == 10 && OffsetAfter(GAP_ENVELOPE, 1, 3) == 20
    ensures Kept(GAP_ENVELOPE.points, 0) && !Kept(GAP_ENVELOPE.points, 1) && Kept(GAP_ENVELOPE.points, 2)
    ensures Absolute(GAP_ENVELOPE, 1, 3) == [AbsPt(10, 50), AbsPt(20, 100)]
  {
    var env := GAP_ENVELOPE;
    assert Step(10, 1, 1) == 10;
    assert OffsetAfter(env, 1, 1) == 10;
    assert OffsetAfter(env, 1, 2) == 10;
    assert Absolute(env, 1, 1) == [AbsPt(10, 50)];
    assert Absolute(env, 1, 2) == [AbsPt(10, 50)];
  }

  lemma GapCursor(w: seq<AbsPt>, c: seq<AbsPt>)
    requires w == [AbsPt(10, 50), AbsPt(0, 0)] && c == [AbsPt(10, 50), AbsPt(20, 100)]
    ensures Level(w, 2, 15) == 0
    ensures Level(c, 2, 15) == 75
  {
    LevelAfterLast(w, 2, 15);
    CursorFrom10(c, 15);
    assert CursorBefore(c, 2, 16) == 1;
    assert Interp(AbsPt(10, 50), AbsPt(20, 100), 15) == 75;
  }

  /** Between 10 and 19 the packed points' cursor rests on the second point. */
  lemma {:induction false} CursorFrom10(c: seq<AbsPt>, i: nat)
    requires c == [AbsPt(10, 50), AbsPt(20, 100)] && 10 <= i < 20
    ensures CursorBefore(c, 2, i + 1) == 1
  {
    if i == 10 {
      CursorBelow10(c, 10);
    } else {
      CursorFrom10(c, i - 1);
    }
  }

  lemma {:induction false} CursorBelow10(c: seq<AbsPt>, i: nat)
    requires c == [AbsPt(10, 50), AbsPt(20, 100)] && i <= 10
    ensures CursorBefore(c, 2, i) == 0
  {
    if i > 0 {
      CursorBelow10(c, i - 1);
    }
  }
}

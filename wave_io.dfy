/**
 * The wave and envelope records of a `PTVOICE` unit: a wave is coordinate
 * points (one byte each for x and y) or overtone points (varints); an
 * envelope is seconds per point, a head/body/tail split that must be
 * head/0/1, and head + 1 varint points.
 */
module WaveIo {
  import opened Base
  import opened Errors
  import opened Io
  import opened Point
  import opened Envelope
  import Noise

  /** A coordinate point the format can hold: x in a byte, y in a signed byte. */
  predicate CoordFits(p: OsciPt)
  {
    p.x < 0x100 && -0x80 <= p.y < 0x80
  }

  predicate AllCoordsFit(ps: seq<OsciPt>)
  {
    forall k | 0 <= k < |ps| :: CoordFits(ps[k])
  }

  // ---------------------------------------------------------------------
  // Reading
  // ---------------------------------------------------------------------

  /** `n` coordinate points after `acc`: an unsigned byte x and a signed byte y each. */
  function ParseCoordPts(data: seq<u8>, cur: nat, n: nat, acc: seq<OsciPt>): (r: Parse<seq<OsciPt>>)
    ensures r.Ok? ==> |r.value.value| == |acc| + n
    decreases n
    ensures cur <= |data| && r.Ok? ==> cur <= r.value.next <= |data|
  {
    if n == 0 then Ok(Parsed(acc, cur))
    else
      var x :- ParseU8(data, cur);
      var y :- ParseI8(data, x.next);
      ParseCoordPts(data, y.next, n - 1, acc + [OsciPt(x.value, y.value)])
  }

  /**
   * `n` overtone points after `acc`: varint pairs, where an x beyond `u16`
   * or a y whose signed value is beyond `i16` is `OvertonePointOutOfRange`
   * carrying the offending value.
   */
  function ParseOvertonePts(data: seq<u8>, cur: nat, n: nat, acc: seq<OsciPt>): (r: Parse<seq<OsciPt>>)
    ensures r.Ok? ==> |r.value.value| == |acc| + n
    decreases n
    ensures cur <= |data| && r.Ok? ==> cur <= r.value.next <= |data|
  {
    if n == 0 then Ok(Parsed(acc, cur))
    else
      var x :- ParseVarint(data, cur);
      if x.value > 0xFFFF then Err(OvertonePointOutOfRange(x.value))
      else
        var y :- ParseVarint(data, x.next);
        var s := AsSigned32(y.value);
        if s < -0x8000 || s >= 0x8000 then Err(OvertonePointOutOfRange(y.value))
        else ParseOvertonePts(data, y.next, n - 1, acc + [OsciPt(x.value, s)])
  }

  /** The refusals of the overtone point loop: an x beyond `u16`, or a y whose signed value is beyond `i16`, each carrying the value read. */
  lemma OvertonePtsRefusals(data: seq<u8>, cur: nat, n: nat, acc: seq<OsciPt>)
    requires n > 0
    ensures var x := ParseVarint(data, cur);
            x.Ok? && x.value.value > 0xFFFF ==>
            ParseOvertonePts(data, cur, n, acc) == Err(OvertonePointOutOfRange(x.value.value))
    ensures var x := ParseVarint(data, cur);
            var y := if x.Ok? then ParseVarint(data, x.value.next) else x;
            x.Ok? && x.value.value <= 0xFFFF && y.Ok? &&
            !(-0x8000 <= AsSigned32(y.value.value) < 0x8000) ==>
            ParseOvertonePts(data, cur, n, acc) == Err(OvertonePointOutOfRange(y.value.value))
  {
  }

  /**
   * `read_wave`: kind 0 is a coordinate wave (count, resolution, points;
   * a resolution beyond `u16` panics at its conversion, after the points),
   * kind 1 an overtone wave; any other kind panics.
   */
  function ParseWave(data: seq<u8>, cur: nat): (r: Parse<WaveData>)
    ensures cur <= |data| && r.Ok? ==> cur <= r.value.next <= |data|
  {
    var kind :- ParseVarint(data, cur);
    if kind.value == 0 then
      var num :- ParseVarint(data, kind.next);
      var reso :- ParseVarint(data, num.next);
      var pts :- ParseCoordPts(data, reso.next, num.value, []);
      if reso.value > 0xFFFF then Err(ReadError.Panic)
      else Ok(Parsed(Coord(pts.value, reso.value), pts.next))
    else if kind.value == 1 then
      var num :- ParseVarint(data, kind.next);
      var pts :- ParseOvertonePts(data, num.next, num.value, []);
      Ok(Parsed(Overtone(pts.value), pts.next))
    else Err(ReadError.Panic)
  }

  /**
   * `read_envelope`: seconds per point, head, body and tail, where a body
   * other than 0 or a tail other than 1 is `FmtUnknown`, then head + 1
   * points.
   */
  function ParseEnvelope(data: seq<u8>, cur: nat): (r: Parse<EnvelopeSrc>)
    ensures cur <= |data| && r.Ok? ==> cur <= r.value.next <= |data|
  {
    var spp :- ParseVarint(data, cur);
    var head :- ParseVarint(data, spp.next);
    var body :- ParseVarint(data, head.next);
    if body.value != 0 then Err(FmtUnknown)
    else
      var tail :- ParseVarint(data, body.next);
      if tail.value != 1 then Err(FmtUnknown)
      else
        var pts :- Noise.ParseEnvPts(data, tail.next, head.value as nat + body.value + tail.value, []);
        Ok(Parsed(EnvelopeSrc(spp.value, pts.value), pts.next))
  }

  // ---------------------------------------------------------------------
  // Writing
  // ---------------------------------------------------------------------

  function EncodeCoordPt(p: OsciPt): seq<u8>
    requires CoordFits(p)
  {
    [p.x, AsUnsigned8(p.y)]
  }

  function EncodeCoordPts(ps: seq<OsciPt>): seq<u8>
    requires AllCoordsFit(ps)
  {
    if ps == [] then [] else EncodeCoordPt(ps[0]) + EncodeCoordPts(ps[1..])
  }

  /** An overtone point: x, then y sign-extended to 32 bits. */
  function EncodeOvertonePt(p: OsciPt): seq<u8>
  {
    IntToVarint(p.x) + IntToVarint(AsUnsigned32(p.y))
  }

  function EncodeOvertonePts(ps: seq<OsciPt>): seq<u8>
  {
    if ps == [] then [] else EncodeOvertonePt(ps[0]) + EncodeOvertonePts(ps[1..])
  }

  /**
   * `write_wave`: the kind, the point count (cast to `u32`), for a
   * coordinate wave its resolution, then the points. A coordinate point the
   * format cannot hold is `CoordWavePointOutOfRange`.
   */
  function EncodeWave(w: WaveData): (r: Result<seq<u8>, WriteError>)
    ensures r.Err? <==> w.Coord? && exists k | 0 <= k < |w.points| :: !CoordFits(w.points[k])
    ensures r.Err? ==> r.error == CoordWavePointOutOfRange
  {
    match w
    case Coord(pts, reso) =>
      if AllCoordsFit(pts) then
        Ok(IntToVarint(0) + IntToVarint(Wrap32(|pts|)) + IntToVarint(reso) + EncodeCoordPts(pts))
      else Err(CoordWavePointOutOfRange)
    case Overtone(pts) =>
      Ok(IntToVarint(1) + IntToVarint(Wrap32(|pts|)) + EncodeOvertonePts(pts))
  }

  /**
   * `write_envelope` for a non-empty envelope (the source asserts that the
   * body count it computes is 0, which fails for an empty one): seconds per
   * point, head = count - 1, body 0, tail 1, then the points.
   */
  function EncodeEnvelope(env: EnvelopeSrc): seq<u8>
    requires 1 <= |env.points| <= 0x1_0000_0000
  {
    IntToVarint(env.secondsPerPoint) + IntToVarint(|env.points| - 1) + IntToVarint(0) + IntToVarint(1)
      + Noise.EncodeEnvPts(env.points)
  }

  lemma {:induction false} EncodeCoordPtsAppend(a: seq<OsciPt>, b: seq<OsciPt>)
    requires AllCoordsFit(a) && AllCoordsFit(b)
    ensures AllCoordsFit(a + b)
    ensures EncodeCoordPts(a + b) == EncodeCoordPts(a) + EncodeCoordPts(b)
  {
    hide EncodeCoordPt;
    if a == [] {
      assert a + b == b;
    } else {
      var ab := a + b;
      assert ab[0] == a[0] && ab[1..] == a[1..] + b;
      assert AllCoordsFit(a[1..]);
      EncodeCoordPtsAppend(a[1..], b);
      assert AllCoordsFit(ab);
      calc {
        EncodeCoordPts(ab);
        EncodeCoordPt(a[0]) + EncodeCoordPts(a[1..] + b);
        EncodeCoordPt(a[0]) + (EncodeCoordPts(a[1..]) + EncodeCoordPts(b));
        EncodeCoordPts(a) + EncodeCoordPts(b);
      }
    }
  }

  lemma {:induction false} EncodeOvertonePtsAppend(a: seq<OsciPt>, b: seq<OsciPt>)
    ensures EncodeOvertonePts(a + b) == EncodeOvertonePts(a) + EncodeOvertonePts(b)
  {
    hide EncodeOvertonePt;
    if a == [] {
      assert a + b == b;
    } else {
      assert (a + b)[0] == a[0] && (a + b)[1..] == a[1..] + b;
      EncodeOvertonePtsAppend(a[1..], b);
    }
  }

  // ---------------------------------------------------------------------
  // Round trips
  // ---------------------------------------------------------------------

  lemma {:induction false} CoordPtsRoundTrip(data: seq<u8>, cur: nat, ps: seq<OsciPt>, acc: seq<OsciPt>)
    requires AllCoordsFit(ps) && At(data, cur, EncodeCoordPts(ps))
    ensures ParseCoordPts(data, cur, |ps|, acc) == Ok(Parsed(acc + ps, cur + |EncodeCoordPts(ps)|))
    decreases |ps|
  {
    if ps == [] {
      assert acc + ps == acc;
    } else {
      var p := ps[0];
      AtSplit(data, cur, EncodeCoordPt(p), EncodeCoordPts(ps[1..]));
      AtSplit(data, cur, [p.x], [AsUnsigned8(p.y)]);
      ReadU8At(data, cur, p.x);
      ReadI8At(data, cur + 1, p.y);
      CoordPtsRoundTrip(data, cur + 2, ps[1..], acc + [p]);
      assert acc + [p] + ps[1..] == acc + ps;
    }
  }

  lemma {:induction false} OvertonePtsRoundTrip(data: seq<u8>, cur: nat, ps: seq<OsciPt>, acc: seq<OsciPt>)
    requires At(data, cur, EncodeOvertonePts(ps))
    ensures ParseOvertonePts(data, cur, |ps|, acc) == Ok(Parsed(acc + ps, cur + |EncodeOvertonePts(ps)|))
    decreases |ps|
  {
    hide IntToVarint, ParseVarint, EncodeOvertonePt, At;
    if ps == [] {
      assert acc + ps == acc;
    } else {
      var p := ps[0];
      var rest := EncodeOvertonePts(ps[1..]);
      assert EncodeOvertonePts(ps) == EncodeOvertonePt(p) + rest;
      OvertonePtStep(data, cur, p, rest, |ps| - 1, acc);
      OvertonePtsRoundTrip(data, cur + |EncodeOvertonePt(p)|, ps[1..], acc + [p]);
      assert acc + [p] + ps[1..] == acc + ps;
    }
  }

  /** One overtone point read back: the reader moves past it and goes on with the rest. */
  lemma OvertonePtStep(data: seq<u8>, cur: nat, p: OsciPt, rest: seq<u8>, n: nat, acc: seq<OsciPt>)
    requires At(data, cur, EncodeOvertonePt(p) + rest)
    ensures At(data, cur + |EncodeOvertonePt(p)|, rest)
    ensures ParseOvertonePts(data, cur, n + 1, acc) == ParseOvertonePts(data, cur + |EncodeOvertonePt(p)|, n, acc + [p])
  {
    hide IntToVarint, ParseVarint;
    var a, b := IntToVarint(p.x), IntToVarint(AsUnsigned32(p.y));
    AtSplit(data, cur, a + b, rest);
    AtSplit(data, cur, a, b);
    ReadVarintAt(data, cur, p.x);
    ReadVarintAt(data, cur + |a|, AsUnsigned32(p.y));
    assert AsSigned32(AsUnsigned32(p.y)) == p.y;
  }

  /** A wave that can be written, with fewer than 2^32 points, reads back as itself. */
  lemma WaveRoundTrip(data: seq<u8>, cur: nat, w: WaveData)
    requires EncodeWave(w).Ok? && |w.points| < 0x1_0000_0000
    requires At(data, cur, EncodeWave(w).value)
    ensures ParseWave(data, cur) == Ok(Parsed(w, cur + |EncodeWave(w).value|))
  {
    hide *;
    match w
    case Coord(pts, reso) => CoordWaveRoundTrip(data, cur, pts, reso);
    case Overtone(pts) => OvertoneWaveRoundTrip(data, cur, pts);
  }

  lemma CoordWaveRoundTrip(data: seq<u8>, cur: nat, pts: seq<OsciPt>, reso: u16)
    requires EncodeWave(Coord(pts, reso)).Ok? && |pts| < 0x1_0000_0000
    requires At(data, cur, EncodeWave(Coord(pts, reso)).value)
    ensures ParseWave(data, cur) == Ok(Parsed(Coord(pts, reso), cur + |EncodeWave(Coord(pts, reso)).value|))
  {
    hide IntToVarint, ParseVarint, ParseCoordPts, EncodeCoordPts;
    var n := |pts|;
    assert Wrap32(n) == n;
    var k, c, r, body := IntToVarint(0), IntToVarint(n), IntToVarint(reso), EncodeCoordPts(pts);
    assert EncodeWave(Coord(pts, reso)).value == k + c + r + body;
    AtSplit(data, cur, k + c + r, body);
    AtSplit(data, cur, k + c, r);
    AtSplit(data, cur, k, c);
    ReadVarintAt(data, cur, 0);
    ReadVarintAt(data, cur + |k|, n);
    ReadVarintAt(data, cur + |k| + |c|, reso);
    CoordPtsRoundTrip(data, cur + |k| + |c| + |r|, pts, []);
    assert [] + pts == pts;
  }

  lemma OvertoneWaveRoundTrip(data: seq<u8>, cur: nat, pts: seq<OsciPt>)
    requires |pts| < 0x1_0000_0000
    requires At(data, cur, EncodeWave(Overtone(pts)).value)
    ensures ParseWave(data, cur) == Ok(Parsed(Overtone(pts), cur + |EncodeWave(Overtone(pts)).value|))
  {
    hide IntToVarint, ParseVarint, ParseOvertonePts, EncodeOvertonePts;
    var n := |pts|;
    assert Wrap32(n) == n;
    var k, c, body := IntToVarint(1), IntToVarint(n), EncodeOvertonePts(pts);
    assert EncodeWave(Overtone(pts)).value == k + c + body;
    AtSplit(data, cur, k + c, body);
    AtSplit(data, cur, k, c);
    ReadVarintAt(data, cur, 1);
    ReadVarintAt(data, cur + |k|, n);
    OvertonePtsRoundTrip(data, cur + |k| + |c|, pts, []);
    assert [] + pts == pts;
  }

  /** A non-empty envelope reads back as itself. */
  lemma EnvelopeRoundTrip(data: seq<u8>, cur: nat, env: EnvelopeSrc)
    requires 1 <= |env.points| <= 0x1_0000_0000
    requires At(data, cur, EncodeEnvelope(env))
    ensures ParseEnvelope(data, cur) == Ok(Parsed(env, cur + |EncodeEnvelope(env)|))
  {
    hide IntToVarint, ParseVarint, Noise.ParseEnvPts, Noise.EncodeEnvPts;
    var s, h, b, t := IntToVarint(env.secondsPerPoint), IntToVarint(|env.points| - 1), IntToVarint(0), IntToVarint(1);
    var body := Noise.EncodeEnvPts(env.points);
    AtSplit(data, cur, s + h + b + t, body);
    AtSplit(data, cur, s + h + b, t);
    AtSplit(data, cur, s + h, b);
    AtSplit(data, cur, s, h);
    ReadVarintAt(data, cur, env.secondsPerPoint);
    ReadVarintAt(data, cur + |s|, |env.points| - 1);
    ReadVarintAt(data, cur + |s| + |h|, 0);
    ReadVarintAt(data, cur + |s| + |h| + |b|, 1);
    Noise.EnvPtsRoundTrip(data, cur + |s| + |h| + |b| + |t|, env.points, []);
    assert [] + env.points == env.points;
  }

  /** The refusals of `read_envelope`: a body count other than 0, or a tail count other than 1. */
  lemma ParseEnvelopeRefusals(data: seq<u8>, cur: nat)
    ensures var spp := ParseVarint(data, cur);
            var head := if spp.Ok? then ParseVarint(data, spp.value.next) else spp;
            var body := if head.Ok? then ParseVarint(data, head.value.next) else head;
            body.Ok? && body.value.value != 0 ==> ParseEnvelope(data, cur) == Err(FmtUnknown)
    ensures var spp := ParseVarint(data, cur);
            var head := if spp.Ok? then ParseVarint(data, spp.value.next) else spp;
            var body := if head.Ok? then ParseVarint(data, head.value.next) else head;
            var tail := if body.Ok? then ParseVarint(data, body.value.next) else body;
            body.Ok? && body.value.value == 0 && tail.Ok? && tail.value.value != 1 ==>
              ParseEnvelope(data, cur) == Err(FmtUnknown)
  {
    hide ParseVarint, Noise.ParseEnvPts;
  }

  // ---------------------------------------------------------------------
  // The reader and writer methods
  // ---------------------------------------------------------------------

  method ReadCoordPts(rd: Reader, n: nat) returns (r: Result<seq<OsciPt>, ReadError>)
    modifies rd`cur
    ensures Outcome(r, rd.cur) == ParseCoordPts(rd.data, old(rd.cur), n, [])
  {
    var pts: seq<OsciPt> := [];
    for i := 0 to n
      invariant ParseCoordPts(rd.data, old(rd.cur), n, []) == ParseCoordPts(rd.data, rd.cur, n - i, pts)
    {
      var x := rd.NextU8();
      if x.Err? { return Err(x.error); }
      var y := rd.NextI8();
      if y.Err? { return Err(y.error); }
      pts := pts + [OsciPt(x.value, y.value)];
    }
    r := Ok(pts);
  }

  method ReadOvertonePts(rd: Reader, n: nat) returns (r: Result<seq<OsciPt>, ReadError>)
    modifies rd`cur
    ensures Outcome(r, rd.cur) == ParseOvertonePts(rd.data, old(rd.cur), n, [])
  {
    hide IntToVarint, ParseVarint;
    var pts: seq<OsciPt> := [];
    for i := 0 to n
      invariant ParseOvertonePts(rd.data, old(rd.cur), n, []) == ParseOvertonePts(rd.data, rd.cur, n - i, pts)
    {
      var x := rd.NextVarint();
      if x.Err? { return Err(x.error); }
      if x.value > 0xFFFF { return Err(OvertonePointOutOfRange(x.value)); }
      var y := rd.NextVarint();
      if y.Err? { return Err(y.error); }
      var s := AsSigned32(y.value);
      if s < -0x8000 || s >= 0x8000 { return Err(OvertonePointOutOfRange(y.value)); }
      pts := pts + [OsciPt(x.value, s)];
    }
    r := Ok(pts);
  }

  /** `read_wave` on the reader. */
  method ReadWave(rd: Reader) returns (r: Result<WaveData, ReadError>)
    modifies rd`cur
    ensures Outcome(r, rd.cur) == ParseWave(rd.data, old(rd.cur))
  {
    hide IntToVarint, ParseVarint, ParseCoordPts, ParseOvertonePts;
    var kind := rd.NextVarint();
    if kind.Err? { return Err(kind.error); }
    if kind.value == 0 {
      var num := rd.NextVarint();
      if num.Err? { return Err(num.error); }
      var reso := rd.NextVarint();
      if reso.Err? { return Err(reso.error); }
      var pts := ReadCoordPts(rd, num.value);
      if pts.Err? { return Err(pts.error); }
      if reso.value > 0xFFFF { return Err(ReadError.Panic); }
      r := Ok(Coord(pts.value, reso.value));
    } else if kind.value == 1 {
      var num := rd.NextVarint();
      if num.Err? { return Err(num.error); }
      var pts := ReadOvertonePts(rd, num.value);
      if pts.Err? { return Err(pts.error); }
      r := Ok(Overtone(pts.value));
    } else {
      r := Err(ReadError.Panic);
    }
  }

  /** `read_envelope` on the reader. */
  method ReadEnvelope(rd: Reader) returns (r: Result<EnvelopeSrc, ReadError>)
    modifies rd`cur
    ensures Outcome(r, rd.cur) == ParseEnvelope(rd.data, old(rd.cur))
  {
    hide IntToVarint, ParseVarint, Noise.ParseEnvPts;
    var spp := rd.NextVarint();
    if spp.Err? { return Err(spp.error); }
    var head := rd.NextVarint();
    if head.Err? { return Err(head.error); }
    var body := rd.NextVarint();
    if body.Err? { return Err(body.error); }
    if body.value != 0 { return Err(FmtUnknown); }
    var tail := rd.NextVarint();
    if tail.Err? { return Err(tail.error); }
    if tail.value != 1 { return Err(FmtUnknown); }
    var pts := Noise.ReadEnvPts(rd, head.value as nat + body.value + tail.value);
    if pts.Err? { return Err(pts.error); }
    r := Ok(EnvelopeSrc(spp.value, pts.value));
  }

  /** The point loop of `write_wave` for a coordinate wave: it stops at the first point the format cannot hold. */
  method WriteCoordPts(out: ByteVec, pts: seq<OsciPt>) returns (ok: bool)
    modifies out
    ensures ok <==> AllCoordsFit(pts)
    ensures ok ==> out.bytes == old(out.bytes) + EncodeCoordPts(pts)
    ensures |old(out.bytes)| <= |out.bytes| && out.bytes[..|old(out.bytes)|] == old(out.bytes)
  {
    for i := 0 to |pts|
      invariant AllCoordsFit(pts[..i])
      invariant out.bytes == old(out.bytes) + EncodeCoordPts(pts[..i])
    {
      var p := pts[i];
      if !(p.x < 0x100 && -0x80 <= p.y < 0x80) {
        assert !CoordFits(pts[i]);
        return false;
      }
      out.Push(p.x);
      out.Push(AsUnsigned8(p.y));
      assert pts[..i + 1] == pts[..i] + [p];
      EncodeCoordPtsSingle(p);
      EncodeCoordPtsAppend(pts[..i], [p]);
    }
    assert pts[..|pts|] == pts;
    ok := true;
  }

  lemma EncodeCoordPtsSingle(p: OsciPt)
    requires CoordFits(p)
    ensures AllCoordsFit([p]) && EncodeCoordPts([p]) == [p.x, AsUnsigned8(p.y)]
  {
    assert [p][1..] == [];
  }

  /** The point loop of `write_wave` for an overtone wave. */
  method WriteOvertonePts(out: ByteVec, pts: seq<OsciPt>)
    modifies out
    ensures out.bytes == old(out.bytes) + EncodeOvertonePts(pts)
  {
    hide IntToVarint, ParseVarint, EncodeOvertonePt;
    for i := 0 to |pts|
      invariant out.bytes == old(out.bytes) + EncodeOvertonePts(pts[..i])
    {
      var p := pts[i];
      WriteOvertonePt(out, p);
      assert pts[..i + 1] == pts[..i] + [p];
      EncodeOvertonePtsSingle(p);
      EncodeOvertonePtsAppend(pts[..i], [p]);
    }
    assert pts[..|pts|] == pts;
  }

  method WriteOvertonePt(out: ByteVec, p: OsciPt)
    modifies out
    ensures out.bytes == old(out.bytes) + EncodeOvertonePt(p)
  {
    hide IntToVarint, ParseVarint, VarintToInt;
    WriteVarint(p.x, out);
    WriteVarint(AsUnsigned32(p.y), out);
  }

  lemma EncodeOvertonePtsSingle(p: OsciPt)
    ensures EncodeOvertonePts([p]) == EncodeOvertonePt(p)
  {
    hide EncodeOvertonePt;
    assert [p][1..] == [];
  }

  /**
   * `write_wave`: on success it appends the encoding; a coordinate point
   * the format cannot hold stops it with the error, leaving what it had
   * already appended.
   */
  method WriteWave(out: ByteVec, w: WaveData) returns (r: Result<(), WriteError>)
    modifies out
    ensures r.Ok? <==> EncodeWave(w).Ok?
    ensures r.Ok? ==> out.bytes == old(out.bytes) + EncodeWave(w).value
    ensures r.Err? ==> r.error == EncodeWave(w).error
    ensures |old(out.bytes)| <= |out.bytes| && out.bytes[..|old(out.bytes)|] == old(out.bytes)
  {
    hide IntToVarint, ParseVarint, EncodeCoordPts, EncodeOvertonePts;
    match w
    case Coord(pts, reso) =>
      WriteVarint(0, out);
      WriteVarint(Wrap32(|pts|), out);
      WriteVarint(reso, out);
      ghost var mid := out.bytes;
      var ok := WriteCoordPts(out, pts);
      assert out.bytes[..|old(out.bytes)|] == mid[..|old(out.bytes)|];
      if !ok {
        return Err(CoordWavePointOutOfRange);
      }
      r := Ok(());
    case Overtone(pts) =>
      WriteVarint(1, out);
      WriteVarint(Wrap32(|pts|), out);
      WriteOvertonePts(out, pts);
      r := Ok(());
  }

  /** `write_envelope`. */
  method WriteEnvelope(out: ByteVec, env: EnvelopeSrc)
    requires 1 <= |env.points| <= 0x1_0000_0000
    modifies out
    ensures out.bytes == old(out.bytes) + EncodeEnvelope(env)
  {
    hide IntToVarint, ParseVarint, Noise.EncodeEnvPts;
    WriteVarint(env.secondsPerPoint, out);
    var head := |env.points| - 1;
    WriteVarint(head, out);
    var tail := 1;
    var bodyNum := |env.points| - (head + tail);
    WriteVarint(bodyNum, out);
    WriteVarint(tail, out);
    Noise.WriteEnvPts(out, env.points);
  }
}

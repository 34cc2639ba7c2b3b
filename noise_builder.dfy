/**
 * The integer parts of the noise builder: the pseudo-random word generator,
 * the wave tables that are filled with integer levels (rectangles, stepped
 * saws and the random table) and the stepping of a builder unit through its
 * envelope points.
 */
module NoiseBuilder {
  import opened Base
  import opened Point
  import opened Noise

  // ---------------------------------------------------------------------
  // Constants
  // ---------------------------------------------------------------------

  const SAMPLING_TOP: i16 := 32767
  /** Samples in one period of a wave table: 44100 / 100. */
  const SMP_NUM: nat := 441
  /** Entries of the random table that hold generator output. */
  const SMP_NUM_RAND: nat := 44100
  /** Every table but the random ones is twice a period long. */
  const TABLE_LEN: nat := 2 * SMP_NUM
  const RANDOM_TABLE_LEN: nat := 2 * SMP_NUM_RAND

  /** The length each table is allocated with. */
  function TableLen(t: NoiseType): nat
  {
    match t
    case Random => RANDOM_TABLE_LEN
    case Random2 => 0
    case _ => TABLE_LEN
  }

  // ---------------------------------------------------------------------
  // Random words
  // ---------------------------------------------------------------------

  /** The two words of the generator. */
  datatype RngState = RngState(w0: int, w1: int)

  const RNG_SEED: RngState := RngState(0x4444, 0x8888)

  predicate RngInRange(s: RngState)
  {
    0 <= s.w0 <= 0xFFFF && 0 <= s.w1 <= 0xFFFF
  }

  /**
   * The low 16 bits of a non-negative word with their two bytes exchanged,
   * which is what copying byte 1 into byte 0 and byte 0 into byte 1 of a
   * zeroed `i32` gives.
   */
  function Swap16(w: nat): (r: nat)
    ensures r <= 0xFFFF
    ensures r % 0x100 == (w / 0x100) % 0x100 && r / 0x100 == w % 0x100
  {
    (w / 0x100) % 0x100 + 0x100 * (w % 0x100)
  }

  /** Swapping twice gives back the low 16 bits. */
  lemma Swap16Twice(w: nat)
    ensures Swap16(Swap16(w)) == w % 0x1_0000
  {
    var lo, hi := w % 0x100, (w / 0x100) % 0x100;
    assert Swap16(w) == hi + 0x100 * lo;
    assert Swap16(w) / 0x100 == lo && Swap16(w) % 0x100 == hi;
    assert w % 0x1_0000 == lo + 0x100 * hi by {
      assert w == (w / 0x1_0000) * 0x1_0000 + w % 0x1_0000;
      assert w == (w / 0x100) * 0x100 + lo;
      assert w / 0x100 == (w / 0x1_0000) * 0x100 + hi;
    }
  }

  /**
   * One step of the generator: the new second word is the old first one,
   * the new first word is the byte swap of their sum, and the output is
   * that word read as an `i16`.
   */
  function RngNext(s: RngState): (r: (RngState, i16))
    requires RngInRange(s)
    ensures RngInRange(r.0)
    ensures r.0.w1 == s.w0
    ensures r.0.w0 == Swap16(s.w0 + s.w1)
    ensures AsUnsigned16(r.1) == r.0.w0
  {
    var w2 := Swap16(s.w0 + s.w1);
    (RngState(w2, s.w0), AsSigned16(w2))
  }

  /** The state after `n` steps and the `n` words output on the way, oldest first. */
  function RngRun(s: RngState, n: nat): (r: (RngState, seq<i16>))
    requires RngInRange(s)
    ensures RngInRange(r.0) && |r.1| == n
  {
    if n == 0 then (s, [])
    else
      var (t, outs) := RngRun(s, n - 1);
      var (u, o) := RngNext(t);
      (u, outs + [o])
  }

  /** A longer run starts with the outputs of a shorter one. */
  lemma {:induction false} RngRunPrefix(s: RngState, n: nat, m: nat)
    requires RngInRange(s) && n <= m
    ensures RngRun(s, m).1[..n] == RngRun(s, n).1
    decreases m
  {
    if n < m {
      RngRunPrefix(s, n, m - 1);
      assert RngRun(s, m).1 == RngRun(s, m - 1).1 + [RngNext(RngRun(s, m - 1).0).1];
      assert RngRun(s, m).1[..n] == RngRun(s, m - 1).1[..n];
    }
  }

  /** The `k`-th output is the first word after `k + 1` steps, as an `i16`. */
  lemma RngRunOutput(s: RngState, n: nat, k: nat)
    requires RngInRange(s) && k < n
    ensures RngRun(s, n).1[k] == AsSigned16(RngRun(s, k + 1).0.w0)
  {
    RngRunPrefix(s, k + 1, n);
    assert RngRun(s, n).1[k] == RngRun(s, n).1[..k + 1][k];
  }

  /** The first two words from the seed: 0xCCCC and 0x1011. */
  lemma RngFirstOutputs()
    ensures RngRun(RNG_SEED, 2).1 == [-13108, 4113]
  {
    var s1, s2 := RngState(0xCCCC, 0x4444), RngState(0x1011, 0xCCCC);
    assert Swap16(0xCCCC) == 0xCCCC;
    assert RngNext(RNG_SEED) == (s1, -13108);
    assert Swap16(0x1_1110) == 0x1011;
    assert RngNext(s1) == (s2, 4113);
    assert RngRun(RNG_SEED, 0) == (RNG_SEED, []);
    assert RngRun(RNG_SEED, 1).0 == s1;
    assert RngRun(RNG_SEED, 1).1 == [] + [-13108];
  }

  /** `Rng`: the two words live in a fixed two-element buffer. */
  class Rng {
    const buf: array<i32>

    ghost predicate Valid()
      reads this, buf
    {
      buf.Length == 2 && RngInRange(RngState(buf[0], buf[1]))
    }

    function State(): RngState
      reads this, buf
      requires Valid()
    {
      RngState(buf[0], buf[1])
    }

    /** `Rng::default`: the seed words. */
    constructor ()
      ensures Valid() && fresh(buf)
      ensures State() == RNG_SEED
    {
      var b := new i32[2];
      b[0], b[1] := 0x4444, 0x8888;
      buf := b;
    }

    /** `Rng::next`. */
    method Next() returns (r: i16)
      requires Valid()
      modifies buf
      ensures Valid()
      ensures (State(), r) == RngNext(old(State()))
    {
      var w1 := buf[0] + buf[1];
      var w2 := (w1 / 0x100) % 0x100 + 0x100 * (w1 % 0x100);
      buf[1] := buf[0];
      buf[0] := w2;
      r := AsSigned16(w2);
    }
  }

  /**
   * Filling the random table: its first `SMP_NUM_RAND` entries (or all of
   * them, if it is shorter) become successive generator outputs; the rest
   * is left as it was.
   */
  method FillRandom(a: array<i16>, rng: Rng)
    requires rng.Valid()
    modifies a, rng.buf
    ensures rng.Valid()
    ensures var n := Min(SMP_NUM_RAND, a.Length);
      && (rng.State(), a[..n]) == RngRun(old(rng.State()), n)
      && a[n..] == old(a[n..])
  {
    var n := Min(SMP_NUM_RAND, a.Length);
    ghost var s0 := rng.State();
    var i := 0;
    while i < n
      invariant 0 <= i <= n && rng.Valid()
      invariant (rng.State(), a[..i]) == RngRun(s0, i)
      invariant a[i..] == old(a[i..])
    {
      var w := rng.Next();
      a[i] := w;
      assert a[..i + 1] == a[..i] + [w];
      i := i + 1;
    }
  }

  // ---------------------------------------------------------------------
  // Stepped tables
  // ---------------------------------------------------------------------

  /** Cut points that never go backwards. */
  predicate Ascending(bounds: seq<nat>)
  {
    forall j, k :: 0 <= j <= k < |bounds| ==> bounds[j] <= bounds[k]
  }

  /**
   * `a` holds `levels[j]` on `[bounds[j], bounds[j + 1])` for every `j`,
   * and is zero from the last cut point on.
   */
  ghost predicate IsSteps(a: seq<i16>, bounds: seq<nat>, levels: seq<i16>)
    requires |bounds| == |levels| + 1
  {
    && (forall j, i :: 0 <= j < |levels| && bounds[j] <= i < bounds[j + 1] && i < |a| ==> a[i] == levels[j])
    && (forall i :: bounds[|levels|] <= i < |a| ==> a[i] == 0)
  }

  /** `slice.fill(v)` on `a[lo..hi]`, or a `while s < hi` loop storing `v`. */
  method FillRange(a: array<i16>, lo: nat, hi: nat, v: i16)
    requires lo <= hi <= a.Length
    modifies a
    ensures forall i :: lo <= i < hi ==> a[i] == v
    ensures forall i :: 0 <= i < a.Length && !(lo <= i < hi) ==> a[i] == old(a[i])
  {
    var s := lo;
    while s < hi
      invariant lo <= s <= hi
      invariant forall i :: lo <= i < s ==> a[i] == v
      invariant forall i :: 0 <= i < a.Length && !(lo <= i < s) ==> a[i] == old(a[i])
    {
      a[s] := v;
      s := s + 1;
    }
  }

  /** Successive fills of consecutive ranges, one level each. */
  method FillSteps(a: array<i16>, bounds: seq<nat>, levels: seq<i16>)
    requires |bounds| == |levels| + 1 && Ascending(bounds) && bounds[|levels|] <= a.Length
    modifies a
    ensures forall j, i :: 0 <= j < |levels| && bounds[j] <= i < bounds[j + 1] ==> a[i] == levels[j]
    ensures forall i :: 0 <= i < a.Length && !(bounds[0] <= i < bounds[|levels|]) ==> a[i] == old(a[i])
  {
    var k := 0;
    while k < |levels|
      invariant 0 <= k <= |levels|
      invariant forall j, i :: 0 <= j < k && bounds[j] <= i < bounds[j + 1] ==> a[i] == levels[j]
      invariant forall i :: 0 <= i < a.Length && !(bounds[0] <= i < bounds[k]) ==> a[i] == old(a[i])
    {
      FillRange(a, bounds[k], bounds[k + 1], levels[k]);
      k := k + 1;
    }
  }

  /** A zeroed table of `TABLE_LEN` entries filled step by step. */
  method MakeSteps(bounds: seq<nat>, levels: seq<i16>) returns (s: seq<i16>)
    requires |bounds| == |levels| + 1 && Ascending(bounds) && bounds[0] == 0 && bounds[|levels|] <= TABLE_LEN
    ensures |s| == TABLE_LEN
    ensures IsSteps(s, bounds, levels)
  {
    var a := new i16[TABLE_LEN](_ => 0);
    FillSteps(a, bounds, levels);
    s := a[..];
  }

  /** Rect: a `while` loop up to half a period, then one up to the period. */
  const RECT_BOUNDS: seq<nat> := [0, SMP_NUM / 2, SMP_NUM]
  const RECT_LEVELS: seq<i16> := [SAMPLING_TOP, -SAMPLING_TOP]

  /** Rect3, Rect4, Rect8 and Rect16: the first `SMP_NUM / k` entries high, the rest of the period low. */
  function RectKBounds(k: nat): (b: seq<nat>)
    requires 1 <= k
    ensures |b| == 3 && Ascending(b) && b[0] == 0 && b[2] == SMP_NUM
  {
    [0, SMP_NUM / k, SMP_NUM / k + (SMP_NUM - SMP_NUM / k)]
  }

  /** Saw6 and Saw8 cut the period at `SMP_NUM * j / n`. */
  function SawBounds(n: nat): (b: seq<nat>)
    requires 1 <= n
    ensures |b| == n + 1 && b[0] == 0 && b[n] == SMP_NUM
    ensures forall j :: 0 <= j <= n ==> b[j] == SMP_NUM * j / n
  {
    DivModUnique(SMP_NUM * n, n, SMP_NUM, 0);
    seq(n + 1, j requires 0 <= j <= n => SMP_NUM * j / n)
  }

  lemma SawBoundsAscending(n: nat)
    requires 1 <= n
    ensures Ascending(SawBounds(n))
  {
    forall j, k | 0 <= j <= k <= n
      ensures SMP_NUM * j / n <= SMP_NUM * k / n
    {
      MulMonotone(j, k, SMP_NUM);
      DivMonotone(SMP_NUM * j, SMP_NUM * k, n);
    }
  }

  /** The cut points as numbers: `[0, 73, 147, 220, 294, 367, 441]` and `[0, 55, 110, …, 385, 441]`. */
  lemma SawBoundsValues()
    ensures SawBounds(6) == [0, 73, 147, 220, 294, 367, 441]
    ensures SawBounds(8) == [0, 55, 110, 165, 220, 275, 330, 385, 441]
  {
  }

  /** Saw4: four chunks of `SMP_NUM / 4`, and one more entry at the start of the fifth. */
  const SAW4_BOUNDS: seq<nat> := [0, 110, 220, 330, 440, 441]
  const SAW4_LEVELS: seq<i16> := [SAMPLING_TOP, SAMPLING_TOP / 3, -(SAMPLING_TOP / 3), -SAMPLING_TOP, -SAMPLING_TOP]

  /** Saw3's levels. */
  const SAW3_LEVELS: seq<i16> := [SAMPLING_TOP, 0, -SAMPLING_TOP]

  /** Levels that fall from each step to the next. */
  predicate Descending(levels: seq<i16>)
  {
    forall j :: 0 <= j < |levels| - 1 ==> levels[j] > levels[j + 1]
  }

  /**
   * Saw6's six levels as written: `SAMPLING_TOP.wrapping_mul(2)` is an `i16`
   * product and wraps to -2, which divides to 0.
   */
  function Saw6LevelsAsWritten(): (l: seq<i16>)
    ensures |l| == 6
  {
    var twice := TruncDiv(WrapI16(SAMPLING_TOP * 2), 5);
    [SAMPLING_TOP, SAMPLING_TOP - twice, TruncDiv(SAMPLING_TOP, 5), TruncDiv(-SAMPLING_TOP, 5),
     -SAMPLING_TOP + twice, -SAMPLING_TOP]
  }

  /** Saw8's eight levels as written, with `wrapping_mul(2)` and `wrapping_mul(4)`. */
  function Saw8LevelsAsWritten(): (l: seq<i16>)
    ensures |l| == 8
  {
    var twice := TruncDiv(WrapI16(SAMPLING_TOP * 2), 7);
    var four := TruncDiv(WrapI16(SAMPLING_TOP * 4), 7);
    [SAMPLING_TOP, SAMPLING_TOP - twice, SAMPLING_TOP - four, TruncDiv(SAMPLING_TOP, 7),
     TruncDiv(-SAMPLING_TOP, 7), -SAMPLING_TOP + four, -SAMPLING_TOP + twice, -SAMPLING_TOP]
  }

  /**
   * As written, the wrapped products vanish: the second Saw6 level equals
   * the first and the fifth the sixth, and Saw8 repeats its top and bottom
   * level three times, so neither table descends step by step.
   */
  lemma SawAsWrittenIsFlat()
    ensures Saw6LevelsAsWritten() == [32767, 32767, 6553, -6553, -32767, -32767]
    ensures Saw8LevelsAsWritten() == [32767, 32767, 32767, 4681, -4681, -32767, -32767, -32767]
    ensures !Descending(Saw6LevelsAsWritten()) && !Descending(Saw8LevelsAsWritten())
  {
    assert WrapI16(SAMPLING_TOP * 2) == -2 && WrapI16(SAMPLING_TOP * 4) == -4;
    assert Saw6LevelsAsWritten()[0] == Saw6LevelsAsWritten()[1];
    assert Saw8LevelsAsWritten()[0] == Saw8LevelsAsWritten()[1];
  }

  /** Saw6's levels with the products taken in `i32`, as a six-step descent from top to bottom. */
  function Saw6Levels(): (l: seq<i16>)
    ensures |l| == 6
  {
    var twice := TruncDiv(SAMPLING_TOP * 2, 5);
    [SAMPLING_TOP, SAMPLING_TOP - twice, TruncDiv(SAMPLING_TOP, 5), TruncDiv(-SAMPLING_TOP, 5),
     -SAMPLING_TOP + twice, -SAMPLING_TOP]
  }

  /** Saw8's levels with the products taken in `i32`. */
  function Saw8Levels(): (l: seq<i16>)
    ensures |l| == 8
  {
    var twice := TruncDiv(SAMPLING_TOP * 2, 7);
    var four := TruncDiv(SAMPLING_TOP * 4, 7);
    [SAMPLING_TOP, SAMPLING_TOP - twice, SAMPLING_TOP - four, TruncDiv(SAMPLING_TOP, 7),
     TruncDiv(-SAMPLING_TOP, 7), -SAMPLING_TOP + four, -SAMPLING_TOP + twice, -SAMPLING_TOP]
  }

  /**
   * With unwrapped products every stepped saw descends from `SAMPLING_TOP`
   * to `-SAMPLING_TOP`, its levels are symmetric about zero, and Saw8's
   * steps are all 9362 apart.
   */
  lemma SawLevelsDescend()
    ensures Saw6Levels() == [32767, 19661, 6553, -6553, -19661, -32767]
    ensures Saw8Levels() == [32767, 23405, 14043, 4681, -4681, -14043, -23405, -32767]
    ensures Descending(SAW3_LEVELS) && Descending(Saw6Levels()) && Descending(Saw8Levels())
    ensures Descending(SAW4_LEVELS[..4])
    ensures forall j :: 0 <= j < 6 ==> Saw6Levels()[j] == -Saw6Levels()[5 - j]
    ensures forall j :: 0 <= j < 8 ==> Saw8Levels()[j] == -Saw8Levels()[7 - j]
    ensures forall j :: 0 <= j < 7 ==> Saw8Levels()[j] - Saw8Levels()[j + 1] == 9362
  {
  }

  // ---------------------------------------------------------------------
  // The chunker (Saw3)
  // ---------------------------------------------------------------------

  /**
   * `Chunker`: a table and a head. A chunk is given by its bounds in the
   * table, the range the returned mutable slice covers.
   */
  class Chunker {
    const slice: array<i16>
    var head: nat

    constructor (slice: array<i16>)
      ensures this.slice == slice && head == 0
    {
      this.slice := slice;
      head := 0;
    }

    /**
     * `next_until::<N>`: the `n` entries from the head; the head then
     * becomes `n` itself, not the end of the chunk. The `unwrap` panics
     * unless `n` entries remain.
     */
    method NextUntil(n: nat) returns (lo: nat, hi: nat)
      requires head + n <= slice.Length
      modifies this`head
      ensures lo == old(head) && hi == old(head) + n && hi <= slice.Length
      ensures head == n
    {
      lo, hi := head, head + n;
      head := n;
    }

    /** `rest`: everything from the head on. */
    method Rest() returns (lo: nat, hi: nat)
      requires head <= slice.Length
      ensures lo == head && hi == slice.Length
    {
      lo, hi := head, slice.Length;
    }
  }

  /**
   * `fill_saw3`: the second chunk runs from 147 to 441, not to 294, because
   * the head was set to 147 rather than advanced; the third fill, from the
   * head 294 to the period's end, overwrites its upper part, so the table
   * still holds three equal steps.
   */
  method FillSaw3(a: array<i16>)
    requires SMP_NUM <= a.Length
    modifies a
    ensures forall i :: 0 <= i < SMP_NUM ==> a[i] == SAW3_LEVELS[i / (SMP_NUM / 3)]
    ensures forall i :: SMP_NUM <= i < a.Length ==> a[i] == old(a[i])
  {
    var chunker := new Chunker(a);
    var lo, hi := chunker.NextUntil(SMP_NUM / 3);
    FillRange(a, lo, hi, SAMPLING_TOP);
    lo, hi := chunker.NextUntil(SMP_NUM * 2 / 3);
    assert lo == 147 && hi == 441;
    FillRange(a, lo, hi, 0);
    var rem := SMP_NUM - chunker.head;
    lo, hi := chunker.Rest();
    FillRange(a, lo, lo + rem, -SAMPLING_TOP);
    forall i | 0 <= i < SMP_NUM
      ensures a[i] == SAW3_LEVELS[i / (SMP_NUM / 3)]
    {
      if i < 147 {
        assert i / 147 == 0;
      } else if i < 294 {
        assert i / 147 == 1;
      } else {
        assert i / 147 == 2;
      }
    }
  }

  /**
   * `fill_saw4`: the table cut into chunks of `SMP_NUM / 4`; with fewer
   * than five chunks nothing is written, otherwise the first four get the
   * four levels and the fifth chunk's first entry the bottom level.
   */
  method FillSaw4(a: array<i16>)
    modifies a
    ensures a.Length / (SMP_NUM / 4) < 5 ==> a[..] == old(a[..])
    ensures a.Length / (SMP_NUM / 4) >= 5 ==>
      && (forall j, i :: 0 <= j < 5 && SAW4_BOUNDS[j] <= i < SAW4_BOUNDS[j + 1] ==> a[i] == SAW4_LEVELS[j])
      && (forall i :: 441 <= i < a.Length ==> a[i] == old(a[i]))
  {
    if a.Length / (SMP_NUM / 4) < 5 {
      return;
    }
    FillRange(a, 0, 110, SAMPLING_TOP);
    FillRange(a, 110, 220, SAMPLING_TOP / 3);
    FillRange(a, 220, 330, -(SAMPLING_TOP / 3));
    FillRange(a, 330, 440, -SAMPLING_TOP);
    a[440] := -SAMPLING_TOP;
    forall j, i | 0 <= j < 5 && SAW4_BOUNDS[j] <= i < SAW4_BOUNDS[j + 1]
      ensures a[i] == SAW4_LEVELS[j]
    {
    }
  }

  // ---------------------------------------------------------------------
  // The table set
  // ---------------------------------------------------------------------

  /**
   * `NoiseTable`: sixteen tables, one per wave type. Nothing changes them
   * once they are generated, so they are held as values.
   */
  datatype NoiseTable = NoiseTable(
    sine: seq<i16>, saw: seq<i16>, rect: seq<i16>, random: seq<i16>,
    saw2: seq<i16>, rect2: seq<i16>, tri: seq<i16>, random2: seq<i16>,
    rect3: seq<i16>, rect4: seq<i16>, rect8: seq<i16>, rect16: seq<i16>,
    saw3: seq<i16>, saw4: seq<i16>, saw6: seq<i16>, saw8: seq<i16>)
  {
    /** `inner[t as usize]`. */
    function Table(t: NoiseType): seq<i16>
    {
      match t
      case Sine => sine case Saw => saw case Rect => rect case Random => random
      case Saw2 => saw2 case Rect2 => rect2 case Tri => tri case Random2 => random2
      case Rect3 => rect3 case Rect4 => rect4 case Rect8 => rect8 case Rect16 => rect16
      case Saw3 => saw3 case Saw4 => saw4 case Saw6 => saw6 case Saw8 => saw8
    }

    /** Every table has the length it is allocated with. */
    predicate Valid()
    {
      forall t :: |Table(t)| == TableLen(t)
    }
  }

  /**
   * `NoiseTable::generate` for the tables it fills with integer levels.
   * Every table starts zeroed; Random's first `SMP_NUM_RAND` entries are
   * the generator's outputs from the seed; Random2 is empty; the
   * rectangles and stepped saws hold their levels over one period and
   * zero after it. Saw6 and Saw8 use the unwrapped levels.
   */
  method Generate() returns (nt: NoiseTable)
    ensures nt.Valid()
    ensures nt.random[..SMP_NUM_RAND] == RngRun(RNG_SEED, SMP_NUM_RAND).1
    ensures forall i :: SMP_NUM_RAND <= i < RANDOM_TABLE_LEN ==> nt.Table(Random)[i] == 0
    ensures IsSteps(nt.Table(Rect), RECT_BOUNDS, RECT_LEVELS)
    ensures IsSteps(nt.Table(Rect3), RectKBounds(3), RECT_LEVELS)
    ensures IsSteps(nt.Table(Rect4), RectKBounds(4), RECT_LEVELS)
    ensures IsSteps(nt.Table(Rect8), RectKBounds(8), RECT_LEVELS)
    ensures IsSteps(nt.Table(Rect16), RectKBounds(16), RECT_LEVELS)
    ensures IsSteps(nt.Table(Saw3), [0, 147, 294, 441], SAW3_LEVELS)
    ensures IsSteps(nt.Table(Saw4), SAW4_BOUNDS, SAW4_LEVELS)
    ensures IsSteps(nt.Table(Saw6), SawBounds(6), Saw6Levels())
    ensures IsSteps(nt.Table(Saw8), SawBounds(8), Saw8Levels())
  {
    hide IsSteps, RngRun;
    var zero := seq(TABLE_LEN, _ => 0);
    var random := MakeRandom();
    var rect, rect3, rect4, rect8, rect16 := MakeRects();
    var saw3, saw4, saw6, saw8 := MakeSaws();
    nt := NoiseTable(zero, zero, rect, random, zero, zero, zero, [],
                     rect3, rect4, rect8, rect16, saw3, saw4, saw6, saw8);
  }

  /** The five rectangle tables: Rect, Rect3, Rect4, Rect8 and Rect16. */
  method MakeRects() returns (rect: seq<i16>, rect3: seq<i16>, rect4: seq<i16>, rect8: seq<i16>, rect16: seq<i16>)
    ensures |rect| == |rect3| == |rect4| == |rect8| == |rect16| == TABLE_LEN
    ensures IsSteps(rect, RECT_BOUNDS, RECT_LEVELS)
    ensures IsSteps(rect3, RectKBounds(3), RECT_LEVELS) && IsSteps(rect4, RectKBounds(4), RECT_LEVELS)
    ensures IsSteps(rect8, RectKBounds(8), RECT_LEVELS) && IsSteps(rect16, RectKBounds(16), RECT_LEVELS)
  {
    hide IsSteps;
    rect := MakeSteps(RECT_BOUNDS, RECT_LEVELS);
    rect3 := MakeSteps(RectKBounds(3), RECT_LEVELS);
    rect4 := MakeSteps(RectKBounds(4), RECT_LEVELS);
    rect8 := MakeSteps(RectKBounds(8), RECT_LEVELS);
    rect16 := MakeSteps(RectKBounds(16), RECT_LEVELS);
  }

  /** The four stepped saw tables. */
  method MakeSaws() returns (saw3: seq<i16>, saw4: seq<i16>, saw6: seq<i16>, saw8: seq<i16>)
    ensures |saw3| == |saw4| == |saw6| == |saw8| == TABLE_LEN
    ensures IsSteps(saw3, [0, 147, 294, 441], SAW3_LEVELS) && IsSteps(saw4, SAW4_BOUNDS, SAW4_LEVELS)
    ensures IsSteps(saw6, SawBounds(6), Saw6Levels()) && IsSteps(saw8, SawBounds(8), Saw8Levels())
  {
    hide IsSteps;
    saw3 := MakeSaw3();
    saw4 := MakeSaw4();
    SawBoundsAscending(6);
    saw6 := MakeSteps(SawBounds(6), Saw6Levels());
    SawBoundsAscending(8);
    saw8 := MakeSteps(SawBounds(8), Saw8Levels());
  }

  /** The random table: zeroed, then filled from a fresh generator. */
  method MakeRandom() returns (s: seq<i16>)
    ensures |s| == RANDOM_TABLE_LEN
    ensures s[..SMP_NUM_RAND] == RngRun(RNG_SEED, SMP_NUM_RAND).1
    ensures forall i :: SMP_NUM_RAND <= i < RANDOM_TABLE_LEN ==> s[i] == 0
  {
    var a := new i16[RANDOM_TABLE_LEN](_ => 0);
    var rng := new Rng();
    FillRandom(a, rng);
    assert forall i :: SMP_NUM_RAND <= i < RANDOM_TABLE_LEN ==> a[i] == a[SMP_NUM_RAND..][i - SMP_NUM_RAND];
    s := a[..];
  }

  method MakeSaw3() returns (s: seq<i16>)
    ensures |s| == TABLE_LEN
    ensures IsSteps(s, [0, 147, 294, 441], SAW3_LEVELS)
  {
    var a := new i16[TABLE_LEN](_ => 0);
    FillSaw3(a);
    forall j, i | 0 <= j < 3 && [0, 147, 294, 441][j] <= i < [0, 147, 294, 441][j + 1]
      ensures a[i] == SAW3_LEVELS[j]
    {
      assert i / 147 == j;
    }
    s := a[..];
  }

  method MakeSaw4() returns (s: seq<i16>)
    ensures |s| == TABLE_LEN
    ensures IsSteps(s, SAW4_BOUNDS, SAW4_LEVELS)
  {
    var a := new i16[TABLE_LEN](_ => 0);
    FillSaw4(a);
    s := a[..];
  }

  // ---------------------------------------------------------------------
  // Envelope stepping
  // ---------------------------------------------------------------------

  /** `Pt`: an envelope point's length in samples and its magnitude in hundredths. */
  datatype EnvePoint = EnvePoint(smp: i32, mag: int)

  /** The largest point length a fixed envelope point can have at any `u16` rate. */
  const MAX_ENVE_SMP: nat := 0xFFFF * LIMIT_ENVE_X / 1000

  /** `sps * x / 1000` for each point, magnitudes in hundredths. */
  function EnvePoints(enves: seq<EnvPt>, sps: u16): (r: seq<EnvePoint>)
    requires forall k :: 0 <= k < |enves| ==> enves[k].x <= LIMIT_ENVE_X
    ensures |r| == |enves|
    ensures forall k :: 0 <= k < |r| ==> 0 <= r[k].smp <= MAX_ENVE_SMP
    ensures forall k :: 0 <= k < |r| ==> (r[k].smp == 0 <==> sps * enves[k].x < 1000)
  {
    seq(|enves|, k requires 0 <= k < |enves| => EnvePointOf(enves[k], sps))
  }

  function EnvePointOf(p: EnvPt, sps: u16): (r: EnvePoint)
    requires p.x <= LIMIT_ENVE_X
    ensures 0 <= r.smp <= MAX_ENVE_SMP
    ensures r.smp == 0 <==> sps * p.x < 1000
  {
    MulMonotone(p.x, LIMIT_ENVE_X, sps);
    MulMonotone(sps, 0xFFFF, LIMIT_ENVE_X);
    DivMonotone(sps * p.x, 0xFFFF * LIMIT_ENVE_X, 1000);
    EnvePoint(sps * p.x / 1000, p.y)
  }

  /** The first index from `from` on whose point has a non-zero length, or the count. */
  function FirstLive(enves: seq<EnvePoint>, from: nat): (k: nat)
    requires from <= |enves|
    ensures from <= k <= |enves|
    ensures forall m :: from <= m < k ==> enves[m].smp == 0
    ensures k < |enves| ==> enves[k].smp != 0
    decreases |enves| - from
  {
    if from == |enves| || enves[from].smp != 0 then from else FirstLive(enves, from + 1)
  }

  /**
   * The envelope part of `NoiseBuilderUnit`: the points, the current point,
   * the samples counted into it, and the magnitude it starts from and rises
   * by (in hundredths).
   */
  class BuilderUnit {
    var enves: seq<EnvePoint>
    var enveIndex: nat
    var enveCount: i32
    var magStart: int
    var magMargin: int

    /** The current point is the last one or has a non-zero length. */
    ghost predicate Settled()
      reads this
    {
      enveIndex <= |enves| && (enveIndex < |enves| ==> enves[enveIndex].smp != 0)
    }

    ghost predicate Valid()
      reads this
    {
      && Settled()
      && (forall k :: 0 <= k < |enves| ==> 0 <= enves[k].smp <= MAX_ENVE_SMP)
      && 0 <= enveCount
      && (enveIndex < |enves| ==> enveCount < enves[enveIndex].smp)
    }

    constructor ()
      ensures enves == [] && enveIndex == 0 && enveCount == 0 && magStart == 0 && magMargin == 0
      ensures Valid()
    {
      enves, enveIndex, enveCount, magStart, magMargin := [], 0, 0, 0, 0;
    }

    /**
     * The loop shared by `build_unit` and `build_unit_noise`: skip points of
     * length zero, each becoming the start magnitude, and leave the margin
     * at the rise to the last point looked at.
     */
    method Settle()
      requires enveIndex <= |enves|
      modifies this`enveIndex, this`magStart, this`magMargin
      ensures enveIndex == FirstLive(enves, old(enveIndex))
      ensures enveIndex > old(enveIndex) ==> magStart == enves[enveIndex - 1].mag
      ensures enveIndex == old(enveIndex) ==> magStart == old(magStart)
      ensures enveIndex < |enves| ==> magMargin == enves[enveIndex].mag - magStart
      ensures enveIndex == |enves| && enveIndex > old(enveIndex) ==>
        magMargin == enves[enveIndex - 1].mag
          - (if enveIndex - 1 > old(enveIndex) then enves[enveIndex - 2].mag else old(magStart))
      ensures enveIndex == |enves| == old(enveIndex) ==> magMargin == old(magMargin)
    {
      while enveIndex < |enves|
        invariant old(enveIndex) <= enveIndex <= |enves|
        invariant FirstLive(enves, old(enveIndex)) == FirstLive(enves, enveIndex)
        invariant enveIndex > old(enveIndex) ==> magStart == enves[enveIndex - 1].mag
        invariant enveIndex == old(enveIndex) ==> magStart == old(magStart) && magMargin == old(magMargin)
        invariant enveIndex > old(enveIndex) ==>
          magMargin == enves[enveIndex - 1].mag
            - (if enveIndex - 1 > old(enveIndex) then enves[enveIndex - 2].mag else old(magStart))
        decreases |enves| - enveIndex
      {
        magMargin := enves[enveIndex].mag - magStart;
        if enves[enveIndex].smp != 0 {
          break;
        }
        magStart := enves[enveIndex].mag;
        enveIndex := enveIndex + 1;
      }
    }

    /**
     * The envelope part of `build_unit`: one point per design point, the
     * counters reset, then settled on the first point of non-zero length.
     * The design unit has been through `fix`, so every `x` is at most
     * `LIMIT_ENVE_X` and no length overflows.
     */
    method Build(design: DesignUnit, sps: u16)
      requires UnitInLimits(design)
      modifies this
      ensures Valid()
      ensures enves == EnvePoints(design.enves, sps) && enveCount == 0
      ensures enveIndex == FirstLive(enves, 0)
      ensures magStart == (if enveIndex == 0 then 0 else design.enves[enveIndex - 1].y)
      ensures enveIndex < |enves| ==> magMargin == enves[enveIndex].mag - magStart
    {
      enves := EnvePoints(design.enves, sps);
      enveIndex := 0;
      magStart := 0;
      magMargin := 0;
      enveCount := 0;
      Settle();
      assert enveIndex < |enves| ==> enves[enveIndex].smp > 0;
    }

    /**
     * The envelope part of `build_unit_noise`: nothing happens after the
     * last point; otherwise one more sample is counted, and when the
     * current point's length is reached the count restarts, its magnitude
     * becomes the start and the unit settles on the next live point.
     */
    method Step()
      requires Valid()
      modifies this`enveIndex, this`enveCount, this`magStart, this`magMargin
      ensures Valid()
      ensures old(enveIndex) == |enves| ==>
        enveIndex == old(enveIndex) && enveCount == old(enveCount) && magStart == old(magStart) && magMargin == old(magMargin)
      ensures old(enveIndex) < |enves| && old(enveCount) + 1 < enves[old(enveIndex)].smp ==>
        enveIndex == old(enveIndex) && enveCount == old(enveCount) + 1 && magStart == old(magStart) && magMargin == old(magMargin)
      ensures old(enveIndex) < |enves| && old(enveCount) + 1 >= enves[old(enveIndex)].smp ==>
        && enveCount == 0
        && enveIndex == FirstLive(enves, old(enveIndex) + 1)
        && magStart == enves[enveIndex - 1].mag
        && (enveIndex < |enves| ==> magMargin == enves[enveIndex].mag - magStart)
    {
      if enveIndex < |enves| {
        enveCount := enveCount + 1;
        if enveCount >= enves[enveIndex].smp {
          enveCount := 0;
          magStart := enves[enveIndex].mag;
          magMargin := 0;
          enveIndex := enveIndex + 1;
          Settle();
        }
      }
    }
  }
}

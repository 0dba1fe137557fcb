/**
 Range reads of an indexed metric file (`metric_index_reader`).

 A key's points lie sorted on their axis, in chunks, with levels of buckets beside them.
 The search over chunk bounds and one chunk gives the place the whole axis would
 (`Reader.Locate`), so a range is what a filter gives (`Reader.PointsOf`). A thinned range is
 cut into stretches that hold each of its points once (`Reader.Series`): its first and last
 points alone, ragged edges, and buckets of the level chosen, merged until few enough. With
 four points asked for or more, at most four more are returned, among them the first, the
 last, and the finite extremes, in order.

 Columns are read together as points; the bytes and compression are not modelled. A level
 may also be forced by the caller; where no full bucket of it fits, the code reads a single
 edge that stops short of the range's end (`SingleEdgeStops`).
 */
module MetricReader {
  import opened MetricSeries

  const CHUNK := 65536
  const CACHED := 16

  // ------------------------------------------------------------------------ positions

  /** What the points are sorted on: the step, or the timestamp of a step-less key. */
  function AxisOf(p: Point): int { match p.step case Some(s) => s case None => p.ts }

  predicate Ascending(a: seq<int>) { forall i, j :: 0 <= i < j < |a| ==> a[i] <= a[j] }

  function Axis(ps: Points): seq<int> { seq(|ps|, i requires 0 <= i < |ps| => AxisOf(ps[i])) }

  predicate Under(v: int, bound: int, right: bool) { if right then v <= bound else v < bound }

  /** The place `bisect_left` or `bisect_right` gives. */
  predicate IsPlace(a: seq<int>, bound: int, right: bool, at: nat) {
    && at <= |a|
    && (forall i :: 0 <= i < at ==> Under(a[i], bound, right))
    && (forall i :: at <= i < |a| ==> !Under(a[i], bound, right))
  }

  method Bisect(a: seq<int>, bound: int, right: bool) returns (at: nat)
    requires Ascending(a)
    ensures IsPlace(a, bound, right, at)
  {
    var lo, hi := 0, |a|;
    while lo < hi
      invariant 0 <= lo <= hi <= |a|
      invariant forall i :: 0 <= i < lo ==> Under(a[i], bound, right)
      invariant forall i :: hi <= i < |a| ==> !Under(a[i], bound, right)
    {
      var mid := (lo + hi) / 2;
      if Under(a[mid], bound, right) { lo := mid + 1; } else { hi := mid; }
    }
    at := lo;
  }

  function CeilDiv(a: int, b: nat): int
    requires b > 0
  {
    -((-a) / b)
  }

  lemma Ceiling(a: int, b: nat)
    requires b > 0
    ensures CeilDiv(a, b) * b - b < a <= CeilDiv(a, b) * b
  {
    var q := (-a) / b;
    assert -a == q * b + (-a) % b;
    assert CeilDiv(a, b) * b == -(q * b);
  }

  function Min(a: int, b: int): int { if a < b then a else b }

  function Max(a: int, b: int): int { if a < b then b else a }

  /** The points of chunk `index`. */
  function Chunk(ps: Points, index: nat): (c: Points)
    requires index * CHUNK < |ps|
    ensures 0 < |c| <= CHUNK
  {
    ps[index * CHUNK..Min((index + 1) * CHUNK, |ps|)]
  }

  function Chunks(n: nat): nat { (n + CHUNK - 1) / CHUNK }

  /** Where the footer takes a bound of a chunk from: its first point, or its last. */
  function BoundPlace(n: nat, first: bool, index: nat): (at: nat)
    requires index < Chunks(n)
    ensures at < n
  {
    if first then index * CHUNK else Min((index + 1) * CHUNK, n) - 1
  }

  function Bounds(ps: Points, first: bool): seq<int> {
    seq(Chunks(|ps|), i requires 0 <= i < Chunks(|ps|) => AxisOf(ps[BoundPlace(|ps|, first, i)]))
  }

  lemma BoundIs(ps: Points, first: bool, index: nat)
    requires index < Chunks(|ps|)
    ensures Bounds(ps, first)[index] == Axis(ps)[BoundPlace(|ps|, first, index)]
  {
  }

  lemma BoundsRise(ps: Points, first: bool)
    requires Ascending(Axis(ps))
    ensures Ascending(Bounds(ps, first))
  {
    forall i, j | 0 <= i < j < Chunks(|ps|) ensures Bounds(ps, first)[i] <= Bounds(ps, first)[j] {
      BoundIs(ps, first, i);
      BoundIs(ps, first, j);
      hide Bounds, Axis;
      assert BoundPlace(|ps|, first, i) < BoundPlace(|ps|, first, j);
    }
  }

  lemma UnderFalls(a: seq<int>, bound: int, right: bool, i: nat, j: nat)
    requires Ascending(a) && i <= j < |a|
    ensures Under(a[j], bound, right) ==> Under(a[i], bound, right)
  {
  }

  /** The chunk the search goes on in settles every position outside it. */
  lemma SettledOutside(ps: Points, bound: int, right: bool, index: nat, i: nat)
    requires Ascending(Axis(ps)) && index < Chunks(|ps|) && i < |ps|
    requires IsPlace(Bounds(ps, right), bound, right, if right then index + 1 else index)
    ensures i < index * CHUNK ==> Under(Axis(ps)[i], bound, right)
    ensures i >= (index + 1) * CHUNK ==> !Under(Axis(ps)[i], bound, right)
  {
    hide Bounds, Axis, Under, Ascending;
    var n, a := |ps|, Axis(ps);
    assert |a| == n && |Bounds(ps, right)| == Chunks(n) by { AxisLength(ps, right); }
    if i < index * CHUNK {
      var k := if right then index else index - 1;
      BoundIs(ps, right, k);
      UnderFalls(a, bound, right, i, BoundPlace(n, right, k));
    } else if i >= (index + 1) * CHUNK {
      var k := if right then index + 1 else index;
      BoundIs(ps, right, k);
      UnderFalls(a, bound, right, BoundPlace(n, right, k), i);
    }
  }

  lemma AxisLength(ps: Points, right: bool)
    ensures |Axis(ps)| == |ps| && |Bounds(ps, right)| == Chunks(|ps|)
  {
  }

  lemma PlaceInChunk(ps: Points, bound: int, right: bool, index: nat, at: nat)
    requires Ascending(Axis(ps)) && index < Chunks(|ps|)
    requires IsPlace(Bounds(ps, right), bound, right, if right then index + 1 else index)
    requires IsPlace(Axis(Chunk(ps, index)), bound, right, at)
    ensures IsPlace(Axis(ps), bound, right, index * CHUNK + at)
  {
    hide Bounds, Under, Ascending;
    var a, base := Axis(ps), index * CHUNK;
    forall i | 0 <= i < |ps| ensures Under(a[i], bound, right) <==> i < base + at {
      if base <= i < base + |Chunk(ps, index)| {
        assert a[i] == Axis(Chunk(ps, index))[i - base];
      } else {
        SettledOutside(ps, bound, right, index, i);
      }
    }
  }

  /** No chunk holds it: it is before them all, or after them all. */
  lemma PlaceOutside(ps: Points, bound: int, right: bool)
    requires Ascending(Axis(ps))
    ensures right && IsPlace(Bounds(ps, true), bound, true, 0) ==> IsPlace(Axis(ps), bound, true, 0)
    ensures !right && IsPlace(Bounds(ps, false), bound, false, Chunks(|ps|)) ==> IsPlace(Axis(ps), bound, false, |ps|)
  {
    if |ps| > 0 {
      BoundIs(ps, true, 0);
      BoundIs(ps, false, Chunks(|ps|) - 1);
    }
  }

  /** The points of a range, in order. */
  predicate InRange(p: Point, lo: Option<int>, hi: Option<int>) {
    (lo.Some? ==> lo.value <= AxisOf(p)) && (hi.Some? ==> AxisOf(p) <= hi.value)
  }

  function Within(ps: Points, lo: Option<int>, hi: Option<int>): Points {
    if ps == [] then []
    else Within(ps[..|ps| - 1], lo, hi) + if InRange(ps[|ps| - 1], lo, hi) then [ps[|ps| - 1]] else []
  }

  /** The filter keeps the points whose step, or timestamp without one, is in the range. */
  lemma {:induction false} WithinHolds(ps: Points, lo: Option<int>, hi: Option<int>, p: Point)
    ensures var at := if p.step.Some? then p.step.value else p.ts;
            multiset(Within(ps, lo, hi))[p] == if (lo.Some? && at < lo.value) || (hi.Some? && at > hi.value) then 0
                                               else multiset(ps)[p]
  {
    if ps != [] {
      WithinHolds(ps[..|ps| - 1], lo, hi, p);
      assert ps == ps[..|ps| - 1] + [ps[|ps| - 1]];
    }
  }

  /** Positions `p0` to `p1`; none when `p1` is before `p0`. */
  function Span(ps: Points, p0: nat, p1: int): Points
    requires p0 <= |ps| && p1 < |ps|
  {
    if p0 <= p1 then ps[p0..p1 + 1] else []
  }

  predicate ExactSpan(ps: Points, lo: Option<int>, hi: Option<int>, p0: nat, p1: int) {
    p0 <= |ps| && -1 <= p1 < |ps| && forall i :: 0 <= i < |ps| ==> (p0 <= i <= p1 <==> InRange(ps[i], lo, hi))
  }

  /** A span that holds exactly the positions in range is what a filter gives. */
  lemma {:induction false} SpanIsWithin(ps: Points, lo: Option<int>, hi: Option<int>, p0: nat, p1: int)
    requires ExactSpan(ps, lo, hi, p0, p1)
    ensures Span(ps, p0, p1) == Within(ps, lo, hi)
    decreases |ps|
  {
    if ps != [] {
      var n := |ps| - 1;
      var front := ps[..n];
      var q0, q1 := Min(p0, n), Min(p1, n - 1);
      FrontSpan(ps, p0, p1);
      hide InRange, Span;
      assert ExactSpan(front, lo, hi, q0, q1);
      SpanIsWithin(front, lo, hi, q0, q1);
      assert p0 <= n <= p1 <==> InRange(ps[n], lo, hi);
    }
  }

  lemma FrontSpan(ps: Points, p0: nat, p1: int)
    requires ps != [] && p0 <= |ps| && p1 < |ps|
    ensures var n := |ps| - 1;
            Span(ps, p0, p1) == Span(ps[..n], Min(p0, n), Min(p1, n - 1)) + if p0 <= n <= p1 then [ps[n]] else []
  {
    var n := |ps| - 1;
    if p0 <= n <= p1 {
      assert ps[p0..n + 1] == ps[p0..n] + [ps[n]];
      assert ps[..n][p0..n] == ps[p0..n];
    } else if p0 <= p1 {
      assert ps[..n][p0..p1 + 1] == ps[p0..p1 + 1];
    }
  }

  // ------------------------------------------------------------------- shifted ranges

  lemma {:induction false} BestShifts(ps: Points, a: nat, b: nat, s: nat, e: nat, most: bool)
    requires s <= e && a + e <= b <= |ps|
    ensures Best(ps, a + s, a + e, most) ==
            match Best(ps[a..b], s, e, most) case None => None case Some(i) => Some(a + i)
    decreases e
  {
    if s < e { BestShifts(ps, a, b, s, e - 1, most); }
  }

  lemma {:induction false} TotalsShift(ps: Points, a: nat, b: nat, s: nat, e: nat)
    requires s <= e && a + e <= b <= |ps|
    ensures Count(ps, a + s, a + e) == Count(ps[a..b], s, e) && Sum(ps, a + s, a + e) == Sum(ps[a..b], s, e)
    decreases e
  {
    if s < e { TotalsShift(ps, a, b, s, e - 1); }
  }

  /** A bucket of a slice is the bucket of the same positions of the whole. */
  lemma SummaryShifts(ps: Points, a: nat, b: nat, s: nat, e: nat)
    requires s < e && a + e <= b <= |ps|
    ensures Summary(ps[a..b], s, e) == Summary(ps, a + s, a + e)
  {
    BestShifts(ps, a, b, s, e, false);
    BestShifts(ps, a, b, s, e, true);
    TotalsShift(ps, a, b, s, e);
  }

  // ------------------------------------------------------------------ thinned ranges

  /** First and last full bucket inside a range, its ends left out. */
  function FirstFull(size: nat, p0: nat): int
    requires size > 0
  {
    CeilDiv(p0, size)
  }

  function LastFull(size: nat, p1: int): int
    requires size > 0
  {
    (p1 - 1) / size - 1
  }

  /** The full buckets of a range lie inside it, and in the level. */
  lemma FullInside(size: nat, p0: nat, p1: nat, n: nat)
    requires size > 0 && p0 <= p1 < n && FirstFull(size, p0) <= LastFull(size, p1)
    ensures 0 <= FirstFull(size, p0) && p0 + 1 <= Mark(size, FirstFull(size, p0))
    ensures Mark(size, LastFull(size, p1) + 1) <= p1 && LastFull(size, p1) + 1 <= Buckets(size, n)
    ensures Mark(size, FirstFull(size, p0)) < Mark(size, LastFull(size, p1) + 1)
  {
    Ceiling(p0, size);
    var k := LastFull(size, p1) + 1;
    assert p1 - 1 == k * size + (p1 - 1) % size;
    MarksRise(size, FirstFull(size, p0), k);
    hide FirstFull, LastFull, CeilDiv;
    BucketsFit(size, n);
  }

  /** A bucket is inside a range, its ends left out, just when it is one of those. */
  lemma FullExactly(size: nat, p0: nat, p1: nat, k: nat)
    requires size > 0 && p0 <= p1
    ensures p0 + 1 <= Mark(size, k) && Mark(size, k + 1) <= p1 <==> FirstFull(size, p0) <= k <= LastFull(size, p1)
  {
    hide CeilDiv;
    CeilingAtMost(p0, size, k);
    FloorAtLeast(p1 - 1, size, k + 1);
  }

  lemma CeilingAtMost(a: int, size: nat, k: int)
    requires size > 0
    ensures CeilDiv(a, size) <= k <==> a <= k * size
  {
    Ceiling(a, size);
    hide CeilDiv;
    var c := CeilDiv(a, size);
    if a <= k * size {
      assert c * size - size == (c - 1) * size;
      Cancels(c - 1, k, size);
    } else {
      Cancels(k, c, size);
    }
  }

  lemma FloorAtLeast(a: int, size: nat, k: int)
    requires size > 0
    ensures k <= a / size <==> k * size <= a
  {
    var q := a / size;
    assert a == q * size + a % size;
    if k * size <= a {
      assert q * size + size == (q + 1) * size;
      Cancels(k, q + 1, size);
    } else {
      Cancels(q, k, size);
    }
  }

  /** The cuts of a range: its ends alone, and those of the middle between them. */
  predicate Cut(cuts: Cuts, p0: nat, p1: nat, n: nat) {
    Tiling(cuts, n) && EndsAlone(cuts) && cuts[0] == p0 && Last(cuts) == p1 + 1
  }

  /** What a range is thinned to: the extremes of stretches that hold each position once. */
  predicate ThinnedTo(ps: Points, cuts: Cuts, p0: nat, p1: nat, r: Points) {
    p0 < p1 < |ps| && Cut(cuts, p0, p1, |ps|) && r == EmitAll(Tiles(ps, cuts))
  }

  /** What a range thinned that way is good for. */
  lemma ThinnedSays(ps: Points, cuts: Cuts, p0: nat, p1: nat, r: Points)
    requires ThinnedTo(ps, cuts, p0, p1, r)
    ensures 2 <= |r| <= 2 * (|cuts| - 1) - 2 && r[0] == ps[p0] && r[|r| - 1] == ps[p1]
    ensures Faithful(Span(ps, p0, p1), r)
  {
    hide Faithful, EmitAll, Emit, Summary, Tiles;
    EndsKept(ps, cuts);
    ThinnedIsFaithful(ps, cuts);
  }

  /** Where the single edge of a range without a full bucket ends. */
  function Stop(size: nat, p0: nat, p1: nat): int
    requires size > 0
  {
    Max(1 + (p1 - 1) / size * size, p0 + 1)
  }

  /** A forced level without a full bucket in the range drops the points from that edge to
      the last one: none just when the last stands alone or right after a bucket. */
  lemma SingleEdgeStops(size: nat, p0: nat, p1: nat)
    requires size > 0 && p0 < p1 && LastFull(size, p1) < FirstFull(size, p0)
    ensures p0 < Stop(size, p0, p1) <= p1
    ensures Stop(size, p0, p1) == p1 <==> p1 == p0 + 1 || (p1 - 1) % size == 0
  {
    assert p1 - 1 == (p1 - 1) / size * size + (p1 - 1) % size;
  }

  /** Cuts with one more stretch, if it holds anything. */
  function Extended(cuts: Cuts, e: nat): Cuts
    requires |cuts| > 0
  {
    if Last(cuts) < e then cuts + [e] else cuts
  }

  lemma EdgeAdds(ps: Points, cuts: Cuts, e: nat)
    requires Tiling(cuts, |ps|) && e <= |ps|
    ensures Tiling(Extended(cuts, e), |ps|) && Last(Extended(cuts, e)) == Max(Last(cuts), e)
    ensures cuts <= Extended(cuts, e) && |Extended(cuts, e)| <= |cuts| + 1
    ensures EmitAll(Tiles(ps, Extended(cuts, e))) ==
            EmitAll(Tiles(ps, cuts)) + if Last(cuts) < e then Emit(Summary(ps, Last(cuts), e)) else []
  {
    assert |cuts| > 0;
    hide Emit, Summary, EmitAll, Tiles, Tiling;
    if Last(cuts) < e {
      var b := Summary(ps, Last(cuts), e);
      AddTile(ps, cuts, e);
      EmitJoins(Tiles(ps, cuts), [b]);
      OneEmits(b);
    }
  }

  lemma BucketsAdd(ps: Points, cuts: Cuts, grid: Cuts)
    requires Tiling(cuts, |ps|) && Tiling(grid, |ps|) && Last(cuts) == grid[0]
    ensures Tiling(cuts + grid[1..], |ps|) && Last(cuts + grid[1..]) == Last(grid)
    ensures EmitAll(Tiles(ps, cuts + grid[1..])) == EmitAll(Tiles(ps, cuts)) + EmitAll(Tiles(ps, grid))
  {
    hide Emit, Summary, EmitAll, Tiles;
    JoinTiles(ps, cuts, grid);
    EmitJoins(Tiles(ps, cuts), Tiles(ps, grid));
  }

  /** Emits buckets one after another. */
  method EmitEach(bs: seq<Bucket>) returns (kept: Points)
    ensures kept == EmitAll(bs)
  {
    kept := [];
    for i := 0 to |bs|
      invariant kept == EmitAll(bs[..i])
    {
      assert bs[..i + 1][..i] == bs[..i];
      kept := kept + Emit(bs[i]);
    }
    assert bs[..|bs|] == bs;
  }

  /** `order` names each of `kept` once. */
  ghost predicate Once(order: seq<nat>, kept: set<nat>) {
    && (forall i, j :: 0 <= i < j < |order| ==> order[i] != order[j])
    && (forall k :: k in kept <==> k in order)
  }

  method UsedAgain(order: seq<nat>, ghost kept: set<nat>, k: nat) returns (at: nat)
    requires Once(order, kept) && k in kept
    ensures at < |order| && order[at] == k && Once(order[..at] + order[at + 1..] + [k], kept)
  {
    at :| 0 <= at < |order| && order[at] == k;
    ghost var rest := order[..at] + order[at + 1..];
    assert forall i :: 0 <= i < |rest| ==> rest[i] == order[if i < at then i else i + 1];
    forall x ensures x in kept <==> x in rest + [k] {
      if x in order && x != k {
        var i :| 0 <= i < |order| && order[i] == x;
        assert rest[if i < at then i else i - 1] == x;
      }
    }
  }

  lemma UsedFirst(order: seq<nat>, kept: set<nat>, k: nat)
    requires Once(order, kept) && k !in kept
    ensures Once(order + [k], kept + {k})
  {
  }

  lemma Dropped(order: seq<nat>, kept: set<nat>)
    requires Once(order, kept) && order != []
    ensures order[0] in kept && Once(order[1..], kept - {order[0]})
  {
    assert order == [order[0]] + order[1..];
  }

  class Reader {
    const points: Points
    const levels: seq<Level>
    /** Chunks read before, and which of them was used last. */
    var chunks: map<nat, Points>
    var recent: seq<nat>

    /** What a file of one key holds. */
    ghost predicate File() {
      |points| > 0 && Pyramid(points, levels) && Ascending(Axis(points))
    }

    /** The chunks kept are those of the file, each named once. */
    ghost predicate Valid()
      reads this`chunks, this`recent
    {
      && File()
      && |recent| <= CACHED && Once(recent, chunks.Keys)
      && (forall k :: k in chunks ==> k * CHUNK < |points| && chunks[k] == Chunk(points, k))
    }

    constructor (ps: Points)
      requires |ps| > 0 && Ascending(Axis(ps))
      ensures Valid() && points == ps && recent == []
    {
      points, chunks, recent := ps, map[], [];
      var built := WriteLod(ps);
      levels := built;
      new;
      assert recent == [] && chunks == map[];
    }

    /** `_chunk`: the chunk kept, or read and kept in place of the one unused longest. */
    method ChunkAt(index: nat) returns (c: Points)
      requires Valid() && index * CHUNK < |points|
      modifies this`chunks, this`recent
      ensures Valid() && c == Chunk(points, index)
      ensures recent != [] && recent[|recent| - 1] == index
    {
      hide File, Chunk, Once;
      if index in chunks {
        c := chunks[index];
        var at := UsedAgain(recent, chunks.Keys, index);
        recent := recent[..at] + recent[at + 1..] + [index];
      } else {
        c := Chunk(points, index);
        UsedFirst(recent, chunks.Keys, index);
        chunks, recent := chunks[index := c], recent + [index];
        assert chunks.Keys == old(chunks.Keys) + {index};
        if |recent| > CACHED {
          Dropped(recent, chunks.Keys);
          chunks := chunks - {recent[0]};
          recent := recent[1..];
        }
      }
    }

    /** `_locate`: the place on the whole axis, found in one chunk. */
    method Locate(bound: int, right: bool) returns (at: nat)
      requires Valid()
      modifies this`chunks, this`recent
      ensures Valid() && IsPlace(Axis(points), bound, right, at)
    {
      hide Bounds, IsPlace, Pyramid, Ascending, Chunk, Axis;
      BoundsRise(points, right);
      AxisLength(points, right);
      var found := Bisect(Bounds(points, right), bound, right);
      PlaceBounded(Bounds(points, right), bound, right, found);
      var index: int := found;
      if right { index := index - 1; }
      PlaceOutside(points, bound, right);
      if index < 0 { return 0; }
      if index >= Chunks(|points|) { return |points|; }
      var chunk := ChunkAt(index);
      ChunkAscends(points, index);
      var inside := Bisect(Axis(chunk), bound, right);
      PlaceInChunk(points, bound, right, index, inside);
      at := index * CHUNK + inside;
    }

    /** `_column`, of the three columns at once: positions `start` to `end`. */
    method Columns(start: nat, end: int) returns (cols: Points)
      requires Valid() && end <= |points|
      modifies this`chunks, this`recent
      ensures Valid() && cols == if start < end then points[start..end] else []
    {
      cols := [];
      if end <= start { return; }
      hide Pyramid, Ascending, Axis;
      var index, stop := start / CHUNK, CeilDiv(end, CHUNK);
      while index < stop
        invariant start / CHUNK <= index <= stop
        invariant Valid()
        invariant cols == points[start..Max(start, Min(index * CHUNK, end))]
      {
        var base := index * CHUNK;
        var chunk := ChunkAt(index);
        var part := chunk[Max(start - base, 0)..Min(end - base, |chunk|)];
        ColumnPart(points, start, end, index);
        cols := cols + part;
        index := index + 1;
      }
    }

    /** `_bounds`: the positions a range holds. */
    method RangeOf(lo: Option<int>, hi: Option<int>) returns (p0: nat, p1: int)
      requires Valid()
      modifies this`chunks, this`recent
      ensures Valid() && ExactSpan(points, lo, hi, p0, p1)
    {
      hide Pyramid, Chunk, Once, Ascending;
      p0, p1 := 0, |points| - 1;
      if lo.Some? { p0 := Locate(lo.value, false); }
      if hi.Some? {
        p1 := Locate(hi.value, true);
        p1 := p1 - 1;
      }
      forall i | 0 <= i < |points| ensures p0 <= i <= p1 <==> InRange(points[i], lo, hi) {
        assert Axis(points)[i] == AxisOf(points[i]);
      }
    }

    /** `points`: what a filter of the sorted points gives. */
    method PointsOf(lo: Option<int>, hi: Option<int>) returns (r: Points)
      requires Valid()
      modifies this`chunks, this`recent
      ensures Valid() && r == Within(points, lo, hi)
    {
      hide File, Chunk, Once, Within;
      var p0, p1 := RangeOf(lo, hi);
      SpanIsWithin(points, lo, hi, p0, p1);
      r := Columns(p0, p1 + 1);
    }

    /** `_edge`: the extremes of a stretch read raw. */
    method Edge(start: nat, end: int) returns (r: Points)
      requires Valid() && end <= |points|
      modifies this`chunks, this`recent
      ensures Valid() && r == if start < end then Emit(Summary(points, start, end)) else []
    {
      hide File, Chunk, Once, Summary, Emit;
      var cols := Columns(start, end);
      if |cols| == 0 { return []; }
      var b := Summarize(cols, 0, |cols|);
      SummaryShifts(points, start, end, 0, |cols|);
      r := Emit(b);
    }

    /** `_thin_raw`: the ends alone, the middle in stretches of a power of two; fewer than
        four points asked for leave only the ends. */
    method ThinRaw(p0: nat, p1: nat, maxPoints: nat) returns (kept: Points, ghost cuts: Cuts)
      requires Valid() && 2 <= maxPoints < p1 - p0 + 1 && p1 < |points|
      modifies this`chunks, this`recent
      ensures Valid()
      ensures maxPoints >= 4 ==> ThinnedTo(points, cuts, p0, p1, kept) && |kept| <= maxPoints
      ensures maxPoints >= 4 ==> Halving(cuts, p0, p1, (maxPoints - 2) / 2)
      ensures maxPoints < 4 ==> kept == [points[p0], points[p1]]
    {
      hide File, Chunk, Once, CeilDiv, Faithful, ThinnedTo;
      var cols := Columns(p0, p1 + 1);
      var buckets, size := (maxPoints - 2) / 2, 1;
      ghost var e := 0;
      while buckets > 0 && CeilDiv(|cols| - 2, size) > buckets
        invariant Valid() && size > 0 && size == Power(e)
        invariant forall d: nat :: d < e ==> !FewEnough(|cols| - 2, Power(d), buckets)
        decreases |cols| - size
      {
        WideEnough(|cols| - 2, size, buckets);
        FewIsCeiling(|cols| - 2, size, buckets);
        size, e := size * 2, e + 1;
      }
      kept, cuts := ThinEvenly(points, cols, p0, p1, buckets, size);
      if buckets > 0 {
        ThinnedSays(points, cuts, p0, p1, kept);
        FewIsCeiling(|cols| - 2, size, buckets);
        assert HalvedTo(cuts, p0, p1, buckets, e);
      }
    }

    /** The first point, the edge up to `a`, the buckets, and the edge from `z`. */
    method BeforeLast(p0: nat, p1: nat, a: nat, z: nat, buckets: seq<Bucket>, ghost grid: Cuts)
      returns (kept: Points, ghost cuts: Cuts)
      requires Valid() && p0 <= p1 < |points| && p0 < a <= |points| && p0 < z
      requires if grid == [] then buckets == [] && z > p1
        else Tiling(grid, |points|) && buckets == Tiles(points, grid) && grid[0] == a && Last(grid) == z <= p1
      modifies this`chunks, this`recent
      ensures Valid() && Tiling(cuts, |points|) && kept == EmitAll(Tiles(points, cuts))
      ensures |cuts| >= 2 && cuts[0] == p0 && cuts[1] == p0 + 1 && Last(cuts) == if grid == [] then a else p1
      ensures 1 + |buckets| <= |cuts| - 1 <= 3 + |buckets|
    {
      hide File, Chunk, Once, Emit, EmitAll, Summary, Tiles, Tiling, Extended;
      cuts := [p0, p0 + 1];
      kept := Edge(p0, p0 + 1);
      FirstAlone(points, p0);
      SingleEmits(points, p0);
      var edge := Edge(p0 + 1, a);
      EdgeAdds(points, cuts, a);
      kept, cuts := kept + edge, Extended(cuts, a);
      var middle := EmitEach(buckets);
      if buckets != [] {
        BucketsAdd(points, cuts, grid);
        kept, cuts := kept + middle, cuts + grid[1..];
      }
      edge := Edge(z, p1);
      if z <= p1 { EdgeAdds(points, cuts, p1); }
      kept, cuts := kept + edge, if z <= p1 then Extended(cuts, p1) else cuts;
    }

    /** The same and the last point, unless it is the first. */
    method WithLast(p0: nat, p1: nat, a: nat, z: nat, buckets: seq<Bucket>, ghost grid: Cuts)
      returns (kept: Points, ghost cuts: Cuts)
      requires Valid() && p0 <= p1 < |points| && p0 < a <= |points| && p0 < z
      requires if grid == [] then buckets == [] && z > p1
        else Tiling(grid, |points|) && buckets == Tiles(points, grid) && grid[0] == a && Last(grid) == z <= p1
      modifies this`chunks, this`recent
      ensures Valid() && Tiling(cuts, |points|)
      ensures grid != [] ==> Cut(cuts, p0, p1, |points|) && kept == EmitAll(Tiles(points, cuts)) &&
                             2 + |buckets| <= |cuts| - 1 <= 4 + |buckets|
      ensures grid == [] ==> cuts[0] == p0 && Last(cuts) == a &&
                             kept == EmitAll(Tiles(points, cuts)) + if p0 < p1 then [points[p1]] else []
    {
      hide File, Chunk, Once, Emit, EmitAll, Summary, Tiles;
      kept, cuts := BeforeLast(p0, p1, a, z, buckets, grid);
      if p1 > p0 {
        var last := Edge(p1, p1 + 1);
        SingleEmits(points, p1);
        kept := kept + last;
        if grid != [] {
          LastAlone(points, cuts, p0, p1);
          cuts := cuts + [p1 + 1];
        }
      }
    }

    /** `_thin_lod`: the ends alone, the ragged edges, and the full buckets of a level between
        them, merged until few enough. Without a full bucket, a single edge that may stop
        short of the last point. */
    method ThinLod(l: Level, p0: nat, p1: nat, maxPoints: nat) returns (kept: Points, ghost cuts: Cuts)
      requires Valid() && l in levels && p0 <= p1 < |points| && maxPoints >= 2
      modifies this`chunks, this`recent
      ensures Valid() && l.size > 0
      ensures FirstFull(l.size, p0) <= LastFull(l.size, p1) ==>
              ThinnedTo(points, cuts, p0, p1, kept) && Pieces(l.size, p0, p1, maxPoints, |cuts| - 1)
      ensures FirstFull(l.size, p0) > LastFull(l.size, p1) ==> StopsShort(points, cuts, l.size, p0, p1, kept)
    {
      LevelOf(points, levels, l);
      hide *;
      var a, z, buckets;
      ghost var grid;
      a, z, buckets, grid := FullBuckets(l, p0, p1, maxPoints);
      kept, cuts := WithLast(p0, p1, a, z, buckets, grid);
      Outcome(points, l.size, p0, p1, maxPoints, cuts, kept, grid, |buckets|);
    }

    /** `_pick_level`: the coarsest level with half as many buckets in range as points asked for. */
    method PickLevel(p0: nat, p1: nat, maxPoints: nat) returns (best: Option<Level>)
      requires File() && p0 <= p1 < |points|
      ensures best.Some? ==> best.value in levels && Fine(best.value, p0, p1, maxPoints)
      ensures forall l :: l in levels && Fine(l, p0, p1, maxPoints) ==> best.Some? && l.size <= best.value.size
    {
      hide FirstFull, LastFull, Exact;
      best := None;
      for i := 0 to |levels|
        invariant best.Some? ==> best.value in levels[..i] && Fine(best.value, p0, p1, maxPoints)
        invariant forall l :: l in levels[..i] && Fine(l, p0, p1, maxPoints) ==> best.Some? && l.size <= best.value.size
      {
        assert forall j :: 0 <= j < i ==> levels[j].size < levels[i].size;
        assert levels[..i + 1] == levels[..i] + [levels[i]];
        if Fine(levels[i], p0, p1, maxPoints) { best := Some(levels[i]); }
      }
      assert levels[..|levels|] == levels;
    }

    /** `series`, the level its own choice: the points in range when few enough; otherwise the
        extremes of stretches that hold each of them once, or, of fewer than four points asked
        for and no level, the first and the last. */
    method Series(asked: int, lo: Option<int>, hi: Option<int>) returns (r: Points, ghost cuts: Cuts, ghost p0: nat, ghost p1: int)
      requires Valid()
      modifies this`chunks, this`recent
      ensures Valid() && ExactSpan(points, lo, hi, p0, p1) && Span(points, p0, p1) == Within(points, lo, hi)
      ensures var w, most := Within(points, lo, hi), Max(asked, 2);
              && (|w| <= most ==> r == w)
              && (|w| > most ==> |r| >= 2 && r[0] == w[0] && r[|r| - 1] == w[|w| - 1])
              && (|w| > most && asked >= 4 ==> |r| <= asked + 4 && Faithful(w, r) && ThinnedTo(points, cuts, p0, p1, r))
              && (|w| > most && asked >= 4 ==> |r| >= |cuts| - 1 && 4 * (|cuts| - 3) > asked - 3)
              && (|w| > most && asked < 4 ==> r == [w[0], w[|w| - 1]] || ThinnedTo(points, cuts, p0, p1, r))
    {
      hide Chunk, Once, Pyramid, Ascending, Within, Span, ThinnedTo, Faithful, Fine, FirstFull, LastFull, Pieces;
      var most := if asked < 2 then 2 else asked;
      var from, to := RangeOf(lo, hi);
      p0, p1, cuts := from, to, [];
      SpanIsWithin(points, lo, hi, from, to);
      SpanSize(points, from, to);
      if to - from + 1 <= most {
        r := Columns(from, to + 1);
      } else {
        var level := PickLevel(from, to, most);
        if level.None? {
          r, cuts := ThinRaw(from, to, most);
          if most >= 4 { HalvedIsFine(cuts, from, to, (most - 2) / 2); }
        } else {
          FineIsFull(level.value, from, to, most);
          r, cuts := ThinLod(level.value, from, to, most);
          if most >= 4 { PiecesBound(points, cuts, level.value.size, from, to, most, r); }
        }
        if most >= 4 { PointEach(points, cuts, from, to, r); }
        RangeAnswer(points, from, to, most, cuts, r);
      }
    }

    /** The full buckets of a range, merged, and where the edges about them end and begin. */
    method FullBuckets(l: Level, p0: nat, p1: nat, maxPoints: nat)
      returns (a: nat, z: nat, buckets: seq<Bucket>, ghost grid: Cuts)
      requires File() && Exact(points, l) && p0 <= p1 < |points| && maxPoints >= 2
      ensures l.size > 0 && p0 < a <= |points| && p0 < z
      ensures grid != [] <==> FirstFull(l.size, p0) <= LastFull(l.size, p1)
      ensures grid == [] ==> buckets == [] && z > p1 && a == Stop(l.size, p0, p1)
      ensures grid != [] ==> Tiling(grid, |points|) && buckets == Tiles(points, grid) && grid[0] == a && Last(grid) == z <= p1
      ensures grid != [] ==> p0 < p1 && Merged(l.size, p0, p1, maxPoints, |buckets|)
    {
      hide Emit, EmitAll, Summary, Tiles, FirstFull, LastFull, Mark, Stop, After, Direct, Pyramid, Ascending;
      var k0, k1 := FirstFull(l.size, p0), LastFull(l.size, p1);
      if k1 >= k0 {
        FullInside(l.size, p0, p1, |points|);
        LevelIs(points, l);
        LevelPart(points, l, k0, k1 + 1);
        var limit := (maxPoints - 2) / 2;
        buckets, grid := MergeTo(points, Grid(l.size, k0, k1 + 1), l.buckets[k0..k1 + 1], limit);
        a, z := Mark(l.size, k0), Mark(l.size, k1 + 1);
      } else {
        NoFull(l.size, p0, p1);
        a, z, buckets, grid := Stop(l.size, p0, p1), After(l.size, p0, p1), [], [];
      }
    }
  }

  /** How many buckets a level gives a range: all its full ones, unless merged to a limit,
      which is none when fewer than four points are asked for. */
  predicate Merged(size: nat, p0: nat, p1: nat, maxPoints: nat, buckets: nat)
    requires size > 0 && maxPoints >= 2
  {
    var limit, full := (maxPoints - 2) / 2, LastFull(size, p1) - FirstFull(size, p0) + 1;
    if limit > 0 && full > limit then buckets <= limit < 2 * buckets else buckets == full
  }

  lemma LastAlone(ps: Points, cuts: Cuts, p0: nat, p1: nat)
    requires Tiling(cuts, |ps|) && |cuts| >= 2 && cuts[0] == p0 && cuts[1] == p0 + 1 && Last(cuts) == p1
    requires p0 < p1 < |ps|
    ensures Cut(cuts + [p1 + 1], p0, p1, |ps|)
    ensures EmitAll(Tiles(ps, cuts + [p1 + 1])) == EmitAll(Tiles(ps, cuts)) + [ps[p1]]
  {
    hide Emit, EmitAll, Summary, Tiles;
    EdgeAdds(ps, cuts, p1 + 1);
    SingleEmits(ps, p1);
  }

  /** What the pieces add up to. */
  lemma Outcome(ps: Points, size: nat, p0: nat, p1: nat, maxPoints: nat, cuts: Cuts, kept: Points, grid: Cuts,
                buckets: nat)
    requires size > 0 && p0 <= p1 < |ps| && maxPoints >= 2 && Tiling(cuts, |ps|)
    requires grid != [] <==> FirstFull(size, p0) <= LastFull(size, p1)
    requires grid != [] ==> p0 < p1 && Merged(size, p0, p1, maxPoints, buckets) && 2 + buckets <= |cuts| - 1 <= 4 + buckets
    requires grid != [] ==> Cut(cuts, p0, p1, |ps|) && kept == EmitAll(Tiles(ps, cuts))
    requires grid == [] ==> cuts[0] == p0 && Last(cuts) == Stop(size, p0, p1)
    requires grid == [] ==> kept == EmitAll(Tiles(ps, cuts)) + if p0 < p1 then [ps[p1]] else []
    ensures FirstFull(size, p0) <= LastFull(size, p1) ==>
              ThinnedTo(ps, cuts, p0, p1, kept) && Pieces(size, p0, p1, maxPoints, |cuts| - 1)
    ensures FirstFull(size, p0) > LastFull(size, p1) ==> StopsShort(ps, cuts, size, p0, p1, kept)
  {
    hide Emit, EmitAll, Summary, Tiles, FirstFull, LastFull, Stop;
  }

  /** Where the edge after the buckets would begin when there is no full bucket. */
  function After(size: nat, p0: nat, p1: nat): int
    requires size > 0
  {
    Max(1 + ((p1 - 1) / size + 1) * size, p0 + 1)
  }

  lemma NoFull(size: nat, p0: nat, p1: nat)
    requires size > 0 && p0 <= p1
    ensures p0 < Stop(size, p0, p1) <= Max(p1, p0 + 1) && After(size, p0, p1) > p1
  {
    assert p1 - 1 == (p1 - 1) / size * size + (p1 - 1) % size;
    assert ((p1 - 1) / size + 1) * size == (p1 - 1) / size * size + size;
  }

  /** Has a level half as many buckets in range as points asked for? */
  predicate Fine(l: Level, p0: nat, p1: nat, maxPoints: nat) {
    l.size > 0 && 2 * (LastFull(l.size, p1) - FirstFull(l.size, p0) + 1) >= maxPoints
  }

  /** Bucket `k` is inside the range, its ends left out. */
  predicate IsInside(size: nat, p0: nat, p1: nat, k: nat) { p0 + 1 <= Mark(size, k) && Mark(size, k + 1) <= p1 }

  ghost function Inside(size: nat, p0: nat, p1: nat): set<nat> { set k: nat | k <= p1 && IsInside(size, p0, p1, k) }

  /** A level is fine enough just when twice its buckets inside the range are no fewer than the
      points asked for. */
  lemma FineExactly(l: Level, p0: nat, p1: nat, maxPoints: nat)
    requires l.size > 0 && p0 <= p1 && maxPoints > 0
    ensures Fine(l, p0, p1, maxPoints) <==> 2 * |Inside(l.size, p0, p1)| >= maxPoints
  {
    InsideSize(l.size, p0, p1);
    hide FirstFull, LastFull, Inside;
  }

  lemma InsideSize(size: nat, p0: nat, p1: nat)
    requires size > 0 && p0 <= p1
    ensures |Inside(size, p0, p1)| == Max(LastFull(size, p1) - FirstFull(size, p0) + 1, 0)
  {
    FirstFullIsNat(size, p0);
    var first, last := FirstFull(size, p0), LastFull(size, p1);
    forall k: nat ensures k in Inside(size, p0, p1) <==> first <= k <= last { InsideIs(size, p0, p1, k); }
    hide *;
    if first <= last + 1 {
      SameMembers(Inside(size, p0, p1), Between(first, last + 1));
      BetweenSize(first, last + 1);
    } else {
      SameMembers(Inside(size, p0, p1), {});
    }
    MaxIs(last - first + 1);
  }

  lemma MaxIs(n: int)
    ensures Max(n, 0) == if n >= 0 then n else 0
  {
  }

  lemma SameMembers(a: set<nat>, b: set<nat>)
    requires forall k: nat :: k in a <==> k in b
    ensures a == b
  {
  }

  lemma InsideIs(size: nat, p0: nat, p1: nat, k: nat)
    requires size > 0 && p0 <= p1
    ensures k in Inside(size, p0, p1) <==> FirstFull(size, p0) <= k <= LastFull(size, p1)
  {
    FullExactly(size, p0, p1, k);
    hide FirstFull, LastFull, Mark;
    if IsInside(size, p0, p1, k) { BucketWithin(size, p1, k); }
  }

  lemma FirstFullIsNat(size: nat, p0: nat)
    requires size > 0
    ensures FirstFull(size, p0) >= 0
  {
    Ceiling(p0, size);
    assert FirstFull(size, p0) * size >= 0;
  }

  lemma BucketWithin(size: nat, p1: nat, k: nat)
    requires size > 0 && Mark(size, k + 1) <= p1
    ensures k <= p1
  {
    assert (k + 1) * size >= k + 1;
  }

  function Between(a: nat, b: nat): (s: set<nat>)
    ensures forall k: nat :: k in s <==> a <= k < b
  {
    if a >= b then {} else Between(a, b - 1) + {b - 1}
  }

  lemma {:induction false} BetweenSize(a: nat, b: nat)
    requires a <= b
    ensures |Between(a, b)| == b - a
  {
    if a < b { BetweenSize(a, b - 1); }
  }

  lemma FineIsFull(l: Level, p0: nat, p1: nat, maxPoints: nat)
    requires Fine(l, p0, p1, maxPoints) && maxPoints >= 2
    ensures l.size > 0 && FirstFull(l.size, p0) <= LastFull(l.size, p1)
    ensures 2 * (LastFull(l.size, p1) - FirstFull(l.size, p0) + 1) >= maxPoints
  {
    hide FirstFull, LastFull;
  }

  lemma SpanSize(ps: Points, p0: nat, p1: int)
    requires p0 <= |ps| && p1 < |ps|
    ensures |Span(ps, p0, p1)| == Max(p1 - p0 + 1, 0)
    ensures p0 <= p1 ==> Span(ps, p0, p1)[0] == ps[p0] && Span(ps, p0, p1)[p1 - p0] == ps[p1]
    ensures Span(ps, p0, p1) == if p0 < p1 + 1 then ps[p0..p1 + 1] else []
  {
  }

  /** The bound on what a level answers with. */
  lemma PiecesBound(ps: Points, cuts: Cuts, size: nat, p0: nat, p1: nat, most: nat, r: Points)
    requires ThinnedTo(ps, cuts, p0, p1, r) && size > 0 && most >= 4 && Pieces(size, p0, p1, most, |cuts| - 1)
    requires 2 * (LastFull(size, p1) - FirstFull(size, p0) + 1) >= most
    ensures |r| <= most + 4 && 4 * (|cuts| - 3) > most - 3
  {
    ThinnedSays(ps, cuts, p0, p1, r);
    hide FirstFull, LastFull, ThinnedTo, Faithful;
  }

  /** Every stretch leaves a point. */
  lemma PointEach(ps: Points, cuts: Cuts, p0: nat, p1: nat, r: Points)
    requires ThinnedTo(ps, cuts, p0, p1, r)
    ensures |r| >= |cuts| - 1
  {
    EmitBound(Tiles(ps, cuts));
    hide Tiles, EmitAll;
  }

  /** With fewer than four points asked for, a level's buckets are not merged: its answer has
      at least one point for each, however many that is. */
  lemma FewAskedForMany(ps: Points, cuts: Cuts, size: nat, p0: nat, p1: nat, most: nat, r: Points)
    requires ThinnedTo(ps, cuts, p0, p1, r) && size > 0 && 2 <= most < 4 && Pieces(size, p0, p1, most, |cuts| - 1)
    ensures |r| >= 2 + (LastFull(size, p1) - FirstFull(size, p0) + 1)
  {
    EmitBound(Tiles(ps, cuts));
    hide FirstFull, LastFull, Tiles, EmitAll;
  }

  lemma RangeAnswer(ps: Points, p0: nat, p1: nat, most: nat, cuts: Cuts, r: Points)
    requires p0 < p1 < |ps| && 2 <= most < p1 - p0 + 1
    requires most >= 4 ==> ThinnedTo(ps, cuts, p0, p1, r) && |r| <= most + 4
    requires most < 4 ==> r == [ps[p0], ps[p1]] || ThinnedTo(ps, cuts, p0, p1, r)
    ensures var w := Span(ps, p0, p1);
            && |w| == p1 - p0 + 1 && |r| >= 2 && r[0] == w[0] && r[|r| - 1] == w[|w| - 1]
            && (most >= 4 ==> |r| <= most + 4 && Faithful(w, r))
            && (most < 4 ==> r == [w[0], w[|w| - 1]] || ThinnedTo(ps, cuts, p0, p1, r))
  {
    if ThinnedTo(ps, cuts, p0, p1, r) { ThinnedSays(ps, cuts, p0, p1, r); }
    hide ThinnedTo, Faithful;
    SpanSize(ps, p0, p1);
  }

  lemma LevelOf(ps: Points, levels: seq<Level>, l: Level)
    requires |ps| > 0 && Pyramid(ps, levels) && l in levels
    ensures Exact(ps, l) && l.size > 0
  {
  }

  /** How many stretches a level makes of a range: the ends, the edges and the buckets. */
  predicate Pieces(size: nat, p0: nat, p1: nat, maxPoints: nat, pieces: int)
    requires size > 0 && maxPoints >= 2
  {
    exists buckets: nat :: Merged(size, p0, p1, maxPoints, buckets) && 2 + buckets <= pieces <= 4 + buckets
  }

  /** A range read without a full bucket: the stretch after `Stop` is in no piece. */
  predicate StopsShort(ps: Points, cuts: Cuts, size: nat, p0: nat, p1: nat, kept: Points)
    requires size > 0 && p0 <= p1 < |ps|
  {
    && Tiling(cuts, |ps|) && cuts[0] == p0 && Last(cuts) == Stop(size, p0, p1)
    && kept == EmitAll(Tiles(ps, cuts)) + if p0 < p1 then [ps[p1]] else []
  }

  lemma WideEnough(a: int, size: nat, buckets: nat)
    requires size > 0 && buckets > 0 && CeilDiv(a, size) > buckets
    ensures a > size
  {
    Ceiling(a, size);
    assert (CeilDiv(a, size) - 1) * size >= size;
  }

  function Power(e: nat): nat { if e == 0 then 1 else Power(e - 1) * 2 }

  /** Stretches of `size` that hold `n` positions are no more than `buckets`. */
  predicate FewEnough(n: int, size: nat, buckets: nat) { n <= buckets * size }

  lemma FewIsCeiling(n: int, size: nat, buckets: nat)
    requires size > 0
    ensures CeilDiv(n, size) <= buckets <==> FewEnough(n, size, buckets)
  {
    Ceiling(n, size);
    if CeilDiv(n, size) <= buckets {
      assert CeilDiv(n, size) * size <= buckets * size;
    } else {
      assert (CeilDiv(n, size) - 1) * size >= buckets * size;
    }
  }

  /** Between the ends, stretches of one size, the last perhaps shorter. */
  predicate Evenly(cuts: Cuts, p0: nat, p1: nat, size: nat) {
    && |cuts| >= 3 && p0 < p1 && cuts[0] == p0 && cuts[|cuts| - 1] == p1 + 1
    && (|cuts| - 3) * size >= p1 - p0 - 1
    && forall i :: 1 <= i < |cuts| - 1 ==> cuts[i] == p0 + 1 + Min((i - 1) * size, p1 - p0 - 1)
  }

  /** Their size is the power of two, and the first that makes them few enough. */
  predicate HalvedTo(cuts: Cuts, p0: nat, p1: nat, buckets: nat, e: nat) {
    && Evenly(cuts, p0, p1, Power(e)) && FewEnough(p1 - p0 - 1, Power(e), buckets)
    && forall d: nat :: d < e ==> !FewEnough(p1 - p0 - 1, Power(d), buckets)
  }

  ghost predicate Halving(cuts: Cuts, p0: nat, p1: nat, buckets: nat) { exists e: nat :: HalvedTo(cuts, p0, p1, buckets, e) }

  /** Then they are more than half of those asked for. */
  lemma HalvedIsFine(cuts: Cuts, p0: nat, p1: nat, buckets: nat)
    requires Halving(cuts, p0, p1, buckets) && p1 - p0 - 1 > buckets
    ensures 2 * (|cuts| - 3) > buckets
  {
    var e: nat :| HalvedTo(cuts, p0, p1, buckets, e);
    if e > 0 {
      assert !FewEnough(p1 - p0 - 1, Power(e - 1), buckets);
      var k, half := |cuts| - 3, Power(e - 1);
      assert k * (half * 2) == (2 * k) * half;
      Cancels(buckets, 2 * k, half);
    }
  }

  lemma Cancels(x: int, y: int, size: nat)
    requires x * size < y * size
    ensures x < y
  {
    assert x >= y ==> x * size >= y * size;
  }

  lemma CeilingBound(a: int, size: nat, k: nat)
    requires size > 0 && k > 0 && (k - 1) * size < a
    ensures k <= CeilDiv(a, size)
  {
    Ceiling(a, size);
    Cancels(k - 1, CeilDiv(a, size), size);
  }

  /** The end points and the extremes of stretches of `size` between them; none when there
      are to be no buckets. */
  method ThinEvenly(ghost ps: Points, cols: Points, ghost p0: nat, ghost p1: nat, buckets: nat, size: nat)
    returns (kept: Points, ghost cuts: Cuts)
    requires p0 + 1 < p1 < |ps| && cols == ps[p0..p1 + 1] && size > 0
    requires buckets > 0 ==> CeilDiv(|cols| - 2, size) <= buckets
    ensures buckets == 0 ==> kept == [ps[p0], ps[p1]]
    ensures buckets > 0 ==> ThinnedTo(ps, cuts, p0, p1, kept) && |cuts| - 1 <= buckets + 2
    ensures buckets > 0 ==> Evenly(cuts, p0, p1, size)
  {
    hide Emit, Summary, EmitAll, Tiles, Tiling;
    kept, cuts := [cols[0]], [p0, p0 + 1];
    FirstAlone(ps, p0);
    if buckets > 0 {
      var start := 1;
      ghost var k := 0;
      while start < |cols| - 1
        invariant start == 1 + k * size && |cuts| == 2 + k && (k > 0 ==> (k - 1) * size < |cols| - 2)
        invariant Tiling(cuts, |ps|) && cuts[0] == p0 && cuts[1] == p0 + 1
        invariant Last(cuts) == p0 + Min(start, |cols| - 1)
        invariant forall i :: 1 <= i < |cuts| ==> cuts[i] == p0 + 1 + Min((i - 1) * size, p1 - p0 - 1)
        invariant kept == EmitAll(Tiles(ps, cuts))
      {
        var end := Min(start + size, |cols| - 1);
        var b := Summarize(cols, start, end);
        SummaryShifts(ps, p0, p1 + 1, start, end);
        EdgeAdds(ps, cuts, p0 + end);
        assert (k + 1) * size == k * size + size;
        kept, cuts := kept + Emit(b), cuts + [p0 + end];
        start, k := start + size, k + 1;
      }
      if k > 0 { CeilingBound(|cols| - 2, size, k); }
      EdgeAdds(ps, cuts, p1 + 1);
      SingleEmits(ps, p1);
      cuts := cuts + [p1 + 1];
    }
    kept := kept + [cols[|cols| - 1]];
  }

  /** The first point alone. */
  lemma FirstAlone(ps: Points, p0: nat)
    requires p0 < |ps|
    ensures Tiling([p0, p0 + 1], |ps|) && EmitAll(Tiles(ps, [p0, p0 + 1])) == [ps[p0]]
  {
    var bs := Tiles(ps, [p0, p0 + 1]);
    SingleEmits(ps, p0);
    OneEmits(bs[0]);
    assert bs == [bs[0]];
  }

  lemma PlaceBounded(a: seq<int>, bound: int, right: bool, at: nat)
    requires IsPlace(a, bound, right, at)
    ensures at <= |a|
  {
  }

  lemma ChunkAscends(ps: Points, index: nat)
    requires Ascending(Axis(ps)) && index * CHUNK < |ps|
    ensures Ascending(Axis(Chunk(ps, index)))
  {
    var a, c := Axis(ps), Axis(Chunk(ps, index));
    assert forall i :: 0 <= i < |c| ==> c[i] == a[index * CHUNK + i];
  }

  /** One chunk's part of a column carries on where the chunks before it stopped. */
  lemma ColumnPart(ps: Points, start: nat, end: nat, index: nat)
    requires start < end <= |ps| && start / CHUNK <= index < CeilDiv(end, CHUNK)
    ensures index * CHUNK < |ps|
    ensures var c, base := Chunk(ps, index), index * CHUNK;
            && 0 <= Max(start - base, 0) <= Min(end - base, |c|) <= |c|
            && ps[start..Max(start, Min(base, end))] + c[Max(start - base, 0)..Min(end - base, |c|)] ==
               ps[start..Max(start, Min((index + 1) * CHUNK, end))]
  {
    ChunkSpan(ps, start, end, index);
    var base := index * CHUNK;
    var c := Chunk(ps, index);
    Slices(ps, start, Max(start, base), Min(base + |c|, end), base, base + |c|);
  }

  lemma ChunkSpan(ps: Points, start: nat, end: nat, index: nat)
    requires start < end <= |ps| && start / CHUNK <= index < CeilDiv(end, CHUNK)
    ensures start < (index + 1) * CHUNK && index * CHUNK < end
    ensures Chunk(ps, index) == ps[index * CHUNK..index * CHUNK + |Chunk(ps, index)|]
    ensures |Chunk(ps, index)| == Min(CHUNK, |ps| - index * CHUNK)
  {
    Ceiling(end, CHUNK);
  }

  lemma Slices(ps: Points, start: nat, from: nat, to: nat, base: nat, top: nat)
    requires start <= from <= to <= |ps| && base <= from && to <= top <= |ps|
    ensures ps[start..from] + ps[base..top][from - base..to - base] == ps[start..to]
  {
    var c := ps[base..top];
    assert forall i :: from <= i < to ==> c[i - base] == ps[i];
    assert c[from - base..to - base] == ps[from..to];
  }
}

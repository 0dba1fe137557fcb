/**
 The series an indexed metric file answers with (`metric_lod`, `metric_index_reader`).

 A bucket is the first least and the first greatest finite point of a stretch, how many
 finite ones there are and their sum. Buckets of two stretches merge to the bucket of both
 (`MergedIsSummary`), so every level the file holds is the one its points would give
 (`WriteLod`). The reader searches the axis chunk by chunk (`Reader.Locate`) and answers a
 range with its points, or with the extremes of stretches that hold each of them once
 (`Reader.Series`): its first and last points, its finite extremes, in order, and at most
 four points more than asked for.

 A level forced by the caller may leave points out (`SingleEdgeStops`), and fewer than
 four points asked for leave the buckets unmerged or the extremes out.
 */
module MetricSeries {
  datatype Option<+T> = None | Some(value: T)

  // ------------------------------------------------------------------ points, buckets

  datatype Value = Finite(r: real) | NaN | Infinite(positive: bool)

  /** A point; a key either has steps or has none. */
  datatype Point = Point(value: Value, step: Option<int>, ts: int)

  type Points = seq<Point>

  predicate Finite(p: Point) { p.value.Finite? }

  /** Is `p` lower than `q`, or higher? Both are finite. */
  predicate Beats(p: Point, q: Point, most: bool)
    requires Finite(p) && Finite(q)
  {
    if most then p.value.r > q.value.r else p.value.r < q.value.r
  }

  /** The first of the least finite points of positions `[s, e)`, or of the greatest. */
  function Best(ps: Points, s: nat, e: nat, most: bool): (r: Option<nat>)
    requires s <= e <= |ps|
    ensures r.Some? ==> s <= r.value < e && Finite(ps[r.value])
    decreases e
  {
    if s == e then None
    else
      var r := Best(ps, s, e - 1, most);
      if Finite(ps[e - 1]) && (r.None? || Beats(ps[e - 1], ps[r.value], most)) then Some(e - 1) else r
  }

  function Count(ps: Points, s: nat, e: nat): nat
    requires s <= e <= |ps|
    decreases e
  {
    if s == e then 0 else Count(ps, s, e - 1) + (if Finite(ps[e - 1]) then 1 else 0)
  }

  function Sum(ps: Points, s: nat, e: nat): real
    requires s <= e <= |ps|
    decreases e
  {
    if s == e then 0.0 else Sum(ps, s, e - 1) + (if Finite(ps[e - 1]) then ps[e - 1].value.r else 0.0)
  }

  datatype Bucket = Bucket(low: Point, high: Point, finite: nat, sum: real)

  function Chosen(ps: Points, s: nat, e: nat, most: bool): Point
    requires s < e <= |ps|
  {
    match Best(ps, s, e, most) case None => ps[s] case Some(i) => ps[i]
  }

  /** The bucket of positions `[s, e)`. */
  function Summary(ps: Points, s: nat, e: nat): Bucket
    requires s < e <= |ps|
  {
    Bucket(Chosen(ps, s, e, false), Chosen(ps, s, e, true), Count(ps, s, e), Sum(ps, s, e))
  }

  /** `i` is the first of the best finite positions of `[s, e)`. */
  predicate IsBest(ps: Points, s: nat, e: nat, most: bool, i: nat)
    requires s <= e <= |ps|
  {
    && s <= i < e && Finite(ps[i])
    && (forall j :: s <= j < e && Finite(ps[j]) ==> !Beats(ps[j], ps[i], most))
    && (forall j :: s <= j < i && Finite(ps[j]) ==> Beats(ps[i], ps[j], most))
  }

  lemma {:induction false} BestIs(ps: Points, s: nat, e: nat, most: bool)
    requires s <= e <= |ps|
    ensures Best(ps, s, e, most).None? <==> Count(ps, s, e) == 0
    ensures Best(ps, s, e, most).None? <==> forall j :: s <= j < e ==> !Finite(ps[j])
    ensures forall i: nat :: Best(ps, s, e, most) == Some(i) <==> IsBest(ps, s, e, most, i)
    decreases e
  {
    if s < e {
      BestIs(ps, s, e - 1, most);
      var r := Best(ps, s, e - 1, most);
      assert r.Some? ==> IsBest(ps, s, e - 1, most, r.value);
      var t := Best(ps, s, e, most);
      assert t.Some? ==> IsBest(ps, s, e, most, t.value);
      forall i: nat | IsBest(ps, s, e, most, i) ensures t == Some(i) {
      }
    }
  }

  predicate Sound(b: Bucket) { b.finite > 0 ==> Finite(b.low) && Finite(b.high) }

  /** The bucket of two adjacent stretches, the earlier first. */
  function Merge(a: Bucket, b: Bucket): Bucket
    requires Sound(a) && Sound(b)
  {
    if b.finite == 0 then a
    else if a.finite == 0 then b
    else
      var low := if Beats(b.low, a.low, false) then b else a;
      var high := if Beats(b.high, a.high, true) then b else a;
      Bucket(low.low, high.high, a.finite + b.finite, a.sum + b.sum)
  }

  lemma {:induction false} TotalsAdd(ps: Points, s: nat, m: nat, e: nat)
    requires s <= m <= e <= |ps|
    ensures Count(ps, s, e) == Count(ps, s, m) + Count(ps, m, e)
    ensures Sum(ps, s, e) == Sum(ps, s, m) + Sum(ps, m, e)
    decreases e
  {
    if m < e { TotalsAdd(ps, s, m, e - 1); }
  }

  lemma {:induction false} NoneSumsToNothing(ps: Points, s: nat, e: nat)
    requires s <= e <= |ps| && Count(ps, s, e) == 0
    ensures Sum(ps, s, e) == 0.0
    decreases e
  {
    if s < e { NoneSumsToNothing(ps, s, e - 1); }
  }

  lemma BestJoins(ps: Points, s: nat, m: nat, e: nat, most: bool)
    requires s <= m <= e <= |ps|
    ensures var a, b := Best(ps, s, m, most), Best(ps, m, e, most);
            Best(ps, s, e, most) == if b.None? then a else if a.None? then b
              else if Beats(ps[b.value], ps[a.value], most) then b else a
  {
    BestIs(ps, s, m, most);
    BestIs(ps, m, e, most);
    BestIs(ps, s, e, most);
    var a, b := Best(ps, s, m, most), Best(ps, m, e, most);
    var r := if b.None? then a else if a.None? then b else if Beats(ps[b.value], ps[a.value], most) then b else a;
    if r.Some? {
      assert a.Some? ==> IsBest(ps, s, m, most, a.value);
      assert b.Some? ==> IsBest(ps, m, e, most, b.value);
      assert IsBest(ps, s, e, most, r.value);
    }
  }

  lemma LowAndHigh(ps: Points, s: nat, e: nat)
    requires s <= e <= |ps|
    ensures Best(ps, s, e, false).None? <==> Count(ps, s, e) == 0
    ensures Best(ps, s, e, true).None? <==> Count(ps, s, e) == 0
  {
    BestIs(ps, s, e, false);
    BestIs(ps, s, e, true);
  }

  lemma FiniteHolds(ps: Points, s: nat, e: nat)
    requires s < e <= |ps|
    ensures var b := Summary(ps, s, e);
            if b.finite == 0 then b.low == ps[s] && b.high == ps[s] && b.sum == 0.0 else Finite(b.low) && Finite(b.high)
  {
    LowAndHigh(ps, s, e);
    if Count(ps, s, e) == 0 { NoneSumsToNothing(ps, s, e); }
  }

  /** Merging the buckets of two stretches gives the bucket of both. */
  lemma MergedIsSummary(ps: Points, s: nat, m: nat, e: nat)
    requires s < m < e <= |ps|
    ensures Sound(Summary(ps, s, m)) && Sound(Summary(ps, m, e))
    ensures Merge(Summary(ps, s, m), Summary(ps, m, e)) == Summary(ps, s, e)
  {
    FiniteHolds(ps, s, m);
    FiniteHolds(ps, m, e);
    TotalsAdd(ps, s, m, e);
    LowAndHigh(ps, s, m);
    LowAndHigh(ps, m, e);
    BestJoins(ps, s, m, e, false);
    BestJoins(ps, s, m, e, true);
  }

  /** `summarize`: one pass over the positions. */
  method Summarize(ps: Points, start: nat, end: nat) returns (b: Bucket)
    requires start < end <= |ps|
    ensures b == Summary(ps, start, end)
  {
    var lo: Option<nat>, hi: Option<nat> := None, None;
    var finite, sum := 0, 0.0;
    for i := start to end
      invariant lo == Best(ps, start, i, false) && hi == Best(ps, start, i, true)
      invariant finite == Count(ps, start, i) && sum == Sum(ps, start, i)
    {
      if Finite(ps[i]) {
        finite, sum := finite + 1, sum + ps[i].value.r;
        if lo.None? || ps[i].value.r < ps[lo.value].value.r { lo := Some(i); }
        if hi.None? || ps[i].value.r > ps[hi.value].value.r { hi := Some(i); }
      }
    }
    LowAndHigh(ps, start, end);
    if lo.None? { lo, hi := Some(start), Some(start); }
    b := Bucket(ps[lo.value], ps[hi.value], finite, sum);
  }

  // ---------------------------------------------------------------- stretches, levels

  /** Places that cut positions into stretches, from the first to the last. */
  type Cuts = seq<nat>

  predicate Tiling(cuts: Cuts, n: nat) {
    && |cuts| > 0
    && (forall i, j :: 0 <= i < j < |cuts| ==> cuts[i] < cuts[j])
    && (forall i :: 0 <= i < |cuts| ==> cuts[i] <= n)
  }

  function Last(cuts: Cuts): nat
    requires |cuts| > 0
  {
    cuts[|cuts| - 1]
  }

  /** The bucket of each stretch. */
  function Tiles(ps: Points, cuts: Cuts): (bs: seq<Bucket>)
    requires Tiling(cuts, |ps|)
    ensures |bs| == |cuts| - 1
  {
    seq(|cuts| - 1, i requires 0 <= i < |cuts| - 1 => Summary(ps, cuts[i], cuts[i + 1]))
  }

  lemma TileAt(ps: Points, cuts: Cuts, k: nat)
    requires Tiling(cuts, |ps|) && k + 1 < |cuts|
    ensures cuts[k] < cuts[k + 1] <= |ps| && Tiles(ps, cuts)[k] == Summary(ps, cuts[k], cuts[k + 1])
  {
  }

  lemma AddTile(ps: Points, cuts: Cuts, e: nat)
    requires Tiling(cuts, |ps|) && Last(cuts) < e <= |ps|
    ensures Tiling(cuts + [e], |ps|)
    ensures Tiles(ps, cuts + [e]) == Tiles(ps, cuts) + [Summary(ps, Last(cuts), e)]
  {
    hide Tiles, Summary;
    assert Tiling(cuts + [e], |ps|);
    forall i | 0 <= i < |cuts| ensures Tiles(ps, cuts + [e])[i] == (Tiles(ps, cuts) + [Summary(ps, Last(cuts), e)])[i] {
      TileAt(ps, cuts + [e], i);
      if i + 1 < |cuts| { TileAt(ps, cuts, i); }
    }
  }

  lemma JoinedTiling(a: Cuts, b: Cuts, n: nat)
    requires Tiling(a, n) && Tiling(b, n) && Last(a) == b[0]
    ensures Tiling(a + b[1..], n) && Last(a + b[1..]) == Last(b)
    ensures forall i :: |a| - 1 <= i < |a| + |b| - 1 ==> (a + b[1..])[i] == b[i - (|a| - 1)]
  {
  }

  lemma JoinTiles(ps: Points, a: Cuts, b: Cuts)
    requires Tiling(a, |ps|) && Tiling(b, |ps|) && Last(a) == b[0]
    ensures Tiling(a + b[1..], |ps|) && Last(a + b[1..]) == Last(b)
    ensures Tiles(ps, a + b[1..]) == Tiles(ps, a) + Tiles(ps, b)
  {
    JoinedTiling(a, b, |ps|);
    hide *;
    var c := a + b[1..];
    forall i | 0 <= i < |c| - 1 ensures Tiles(ps, c)[i] == (Tiles(ps, a) + Tiles(ps, b))[i] {
      TileAt(ps, c, i);
      if i < |a| - 1 { TileAt(ps, a, i); } else { TileAt(ps, b, i - (|a| - 1)); }
    }
  }

  lemma TilesSound(ps: Points, cuts: Cuts)
    requires Tiling(cuts, |ps|)
    ensures forall i :: 0 <= i < |cuts| - 1 ==> Sound(Tiles(ps, cuts)[i])
  {
    forall i | 0 <= i < |cuts| - 1 ensures Sound(Tiles(ps, cuts)[i]) { FiniteHolds(ps, cuts[i], cuts[i + 1]); }
  }

  /** Where bucket `k` of a level begins: the second point begins the first. */
  function Mark(size: nat, k: nat): nat { 1 + k * size }

  lemma MarksRise(size: nat, j: nat, k: nat)
    requires size > 0 && j < k
    ensures Mark(size, j) + size <= Mark(size, k)
  {
    assert (j + 1) * size <= k * size;
  }

  /** The cuts of buckets `from` to `to` of a level. */
  function Grid(size: nat, from: nat, to: nat): (g: Cuts)
    requires from <= to
    ensures |g| == to - from + 1
  {
    seq<nat>(to - from + 1, k requires 0 <= k => Mark(size, from + k))
  }

  lemma GridTiles(size: nat, from: nat, to: nat, n: nat)
    requires size > 0 && from <= to && Mark(size, to) <= n
    ensures Tiling(Grid(size, from, to), n)
    ensures Grid(size, from, to)[0] == Mark(size, from) && Last(Grid(size, from, to)) == Mark(size, to)
  {
    var g := Grid(size, from, to);
    forall i, j | 0 <= i < j < |g| ensures g[i] < g[j] { MarksRise(size, from + i, from + j); }
    assert forall i :: 0 <= i < |g| ==> g[i] <= g[|g| - 1];
  }

  /** How many full buckets end before the last of `n` points. */
  function Buckets(size: nat, n: nat): nat
    requires size > 0
  {
    if n < 2 then 0 else (n - 2) / size
  }

  lemma Divided(a: nat, b: nat)
    requires b > 0
    ensures a / b * b <= a < a / b * b + b
  {
    assert a == a / b * b + a % b;
  }

  lemma BucketsFit(size: nat, n: nat)
    requires size > 0
    ensures Buckets(size, n) > 0 ==> Mark(size, Buckets(size, n)) < n
    ensures n > 0 ==> Mark(size, Buckets(size, n)) <= n
    ensures forall k: nat :: Mark(size, k) < n ==> k <= Buckets(size, n)
  {
    if n >= 2 {
      Divided(n - 2, size);
      forall k: nat | Mark(size, k) < n ensures k <= Buckets(size, n) {
        if k > Buckets(size, n) { MarksRise(size, Buckets(size, n), k); }
      }
    } else {
      forall k: nat | Mark(size, k) < n ensures k <= Buckets(size, n) {
        if k > 0 { MarksRise(size, 0, k); }
      }
    }
  }

  /** A level as its points give it. */
  function Direct(ps: Points, size: nat): seq<Bucket>
    requires size > 0 && |ps| > 0
  {
    BucketsFit(size, |ps|);
    GridTiles(size, 0, Buckets(size, |ps|), |ps|);
    Tiles(ps, Grid(size, 0, Buckets(size, |ps|)))
  }

  datatype Level = Level(size: nat, buckets: seq<Bucket>)

  predicate Exact(ps: Points, l: Level)
    requires |ps| > 0
  {
    l.size > 0 && l.buckets == Direct(ps, l.size)
  }

  const LOD_SIZES: seq<nat> := [64, 1024, 16384, 262144]

  lemma SlicedTiles(ps: Points, cuts: Cuts, i: nat, j: nat)
    requires Tiling(cuts, |ps|) && i <= j < |cuts|
    ensures Tiling(cuts[i..j + 1], |ps|)
    ensures Tiles(ps, cuts)[i..j] == Tiles(ps, cuts[i..j + 1])
  {
    hide Tiles, Summary;
    var part := cuts[i..j + 1];
    assert Tiling(part, |ps|);
    forall k | 0 <= k < j - i ensures Tiles(ps, cuts)[i..j][k] == Tiles(ps, part)[k] {
      TileAt(ps, cuts, i + k);
      TileAt(ps, part, k);
    }
  }

  lemma SlicedGrid(size: nat, to: nat, i: nat, j: nat)
    requires i <= j <= to
    ensures Grid(size, 0, to)[i..j + 1] == Grid(size, i, j)
  {
  }

  lemma LevelIs(ps: Points, l: Level)
    requires |ps| > 0 && l.size > 0 && l.buckets == Direct(ps, l.size)
    ensures l.size > 0 && |l.buckets| == Buckets(l.size, |ps|) && Tiling(Grid(l.size, 0, |l.buckets|), |ps|)
    ensures l.buckets == Tiles(ps, Grid(l.size, 0, |l.buckets|))
  {
    hide Mark, Buckets, Summary, Tiling;
    BucketsFit(l.size, |ps|);
    GridTiles(l.size, 0, Buckets(l.size, |ps|), |ps|);
  }

  lemma GridEnds(size: nat, from: nat, to: nat)
    requires from <= to
    ensures Grid(size, from, to)[0] == Mark(size, from) && Last(Grid(size, from, to)) == Mark(size, to)
  {
  }

  /** Some buckets of a level are the tiles of their part of its grid. */
  lemma LevelPart(ps: Points, l: Level, i: nat, j: nat)
    requires |ps| > 0 && Exact(ps, l) && i <= j <= |l.buckets|
    ensures Tiling(Grid(l.size, i, j), |ps|) && l.buckets[i..j] == Tiles(ps, Grid(l.size, i, j))
    ensures Grid(l.size, i, j)[0] == Mark(l.size, i) && Last(Grid(l.size, i, j)) == Mark(l.size, j)
  {
    hide Mark, Buckets, Summary, Tiling, Direct, Tiles, Grid, Last;
    LevelIs(ps, l);
    var n := Buckets(l.size, |ps|);
    SlicedTiles(ps, Grid(l.size, 0, n), i, j);
    SlicedGrid(l.size, n, i, j);
    GridEnds(l.size, i, j);
  }

  lemma NextMark(size: nat, k: nat)
    ensures Mark(size, k) + size == Mark(size, k + 1)
  {
  }

  lemma GridAt(size: nat, to: nat, k: nat)
    requires k <= to
    ensures Grid(size, 0, to)[k] == Mark(size, k)
  {
  }

  lemma DirectAt(ps: Points, size: nat, k: nat)
    requires size > 0 && |ps| > 0 && k < Buckets(size, |ps|) == |Direct(ps, size)|
    ensures Mark(size, k) < Mark(size, k + 1) <= |ps| && Direct(ps, size)[k] == Summary(ps, Mark(size, k), Mark(size, k + 1))
  {
    hide *;
    var g := Grid(size, 0, Buckets(size, |ps|));
    LevelIs(ps, Level(size, Direct(ps, size)));
    GridAt(size, Buckets(size, |ps|), k);
    GridAt(size, Buckets(size, |ps|), k + 1);
    TileAt(ps, g, k);
  }

  lemma MarkFits(ps: Points, size: nat, k: nat)
    requires size > 0 && |ps| > 0 && k < Buckets(size, |ps|)
    ensures Mark(size, k) + size == Mark(size, k + 1) < |ps|
    ensures 0 <= k < |Direct(ps, size)| && Direct(ps, size)[k] == Summary(ps, Mark(size, k), Mark(size, k + 1))
  {
    NextMark(size, k);
    LevelIs(ps, Level(size, Direct(ps, size)));
    if k + 1 < Buckets(size, |ps|) { MarksRise(size, k + 1, Buckets(size, |ps|)); }
    hide *;
    BucketsFit(size, |ps|);
    DirectAt(ps, size, k);
  }

  /** Where the first `j` finer buckets of a bucket end. */
  function At(size: nat, k: nat, finer: nat, j: nat): nat { Mark(size, k) + j * finer }

  lemma Regrouped(size: nat, finer: nat, ratio: nat, k: nat, j: nat)
    requires size == ratio * finer && j <= ratio
    ensures Mark(finer, k * ratio + j) == At(size, k, finer, j)
    ensures j * finer <= size
  {
    assert (k * ratio + j) * finer == k * ratio * finer + j * finer;
    assert k * ratio * finer == k * (ratio * finer);
    assert j * finer <= ratio * finer;
  }

  /** The finer buckets a bucket is merged from: where they lie. */
  lemma FinerMark(ps: Points, size: nat, finer: nat, ratio: nat, k: nat, j: nat)
    requires finer > 0 && ratio > 0 && size == ratio * finer && |ps| > 0
    requires k < Buckets(size, |ps|) && j <= ratio
    ensures Mark(finer, k * ratio + j) == At(size, k, finer, j)
    ensures k * ratio + j <= Buckets(finer, |ps|)
  {
    MarkFits(ps, size, k);
    Regrouped(size, finer, ratio, k, j);
    hide *;
    BucketsFit(finer, |ps|);
  }

  lemma Ratio(size: nat, finer: nat)
    requires finer > 0 && size > 0 && size % finer == 0
    ensures size / finer > 0 && size == size / finer * finer
  {
    Divided(size, finer);
  }

  predicate Nested(ps: Points, size: nat, finer: nat, ratio: nat, k: nat) {
    finer > 0 && ratio > 0 && size == ratio * finer && size > 0 && |ps| > 0 && k < Buckets(size, |ps|)
  }

  /** Finer bucket `k * ratio + j` is the stretch from `At(j)` to `At(j + 1)`. */
  lemma FinerBucket(ps: Points, size: nat, finer: nat, ratio: nat, k: nat, j: nat)
    requires Nested(ps, size, finer, ratio, k) && j < ratio
    ensures At(size, k, finer, j) < At(size, k, finer, j + 1) <= |ps| && 0 <= k * ratio + j < |Direct(ps, finer)|
    ensures Direct(ps, finer)[k * ratio + j] == Summary(ps, At(size, k, finer, j), At(size, k, finer, j + 1))
  {
    hide At, Mark, Buckets, Direct, Summary;
    FinerMark(ps, size, finer, ratio, k, j);
    FinerMark(ps, size, finer, ratio, k, j + 1);
    assert k * ratio + (j + 1) == k * ratio + j + 1;
    MarkFits(ps, finer, k * ratio + j);
  }

  lemma MergeStart(ps: Points, size: nat, finer: nat, ratio: nat, k: nat)
    requires Nested(ps, size, finer, ratio, k)
    ensures 0 <= k * ratio < |Direct(ps, finer)| && Mark(size, k) < At(size, k, finer, 1) <= |ps|
    ensures Direct(ps, finer)[k * ratio] == Summary(ps, Mark(size, k), At(size, k, finer, 1))
  {
    FinerBucket(ps, size, finer, ratio, k, 0);
    assert At(size, k, finer, 0) == Mark(size, k);
  }

  lemma MergeStep(ps: Points, size: nat, finer: nat, ratio: nat, k: nat, j: nat)
    requires Nested(ps, size, finer, ratio, k) && 1 <= j < ratio
    ensures Mark(size, k) < At(size, k, finer, j) < At(size, k, finer, j + 1) <= |ps| && 0 <= k * ratio + j < |Direct(ps, finer)|
    ensures var a, b := Summary(ps, Mark(size, k), At(size, k, finer, j)), Direct(ps, finer)[k * ratio + j];
            Sound(a) && Sound(b) && Merge(a, b) == Summary(ps, Mark(size, k), At(size, k, finer, j + 1))
  {
    FinerBucket(ps, size, finer, ratio, k, j);
    assert Mark(size, k) < At(size, k, finer, j);
    hide *;
    MergedIsSummary(ps, Mark(size, k), At(size, k, finer, j), At(size, k, finer, j + 1));
  }

  lemma MergeEnd(ps: Points, size: nat, finer: nat, ratio: nat, k: nat)
    requires Nested(ps, size, finer, ratio, k)
    ensures At(size, k, finer, ratio) == Mark(size, k + 1) <= |ps| && Mark(size, k) < Mark(size, k + 1)
    ensures 0 <= k < |Direct(ps, size)| && Direct(ps, size)[k] == Summary(ps, Mark(size, k), Mark(size, k + 1))
  {
    MarkFits(ps, size, k);
  }

  /** A bucket merged from its part of the finer level. */
  method MergeGroup(ghost ps: Points, size: nat, finer: Level, k: nat) returns (b: Bucket)
    requires |ps| > 0 && Exact(ps, finer) && size > 0 && size % finer.size == 0 && k < Buckets(size, |ps|)
    ensures b == Direct(ps, size)[k]
  {
    hide Mark, At, Summary, Merge, Direct, Buckets, Tiles;
    var ratio := size / finer.size;
    ghost var f := finer.size;
    Ratio(size, f);
    MergeStart(ps, size, f, ratio, k);
    b := finer.buckets[k * ratio];
    for j := 1 to ratio
      invariant Mark(size, k) < At(size, k, f, j) <= |ps| && b == Summary(ps, Mark(size, k), At(size, k, f, j))
    {
      MergeStep(ps, size, f, ratio, k, j);
      b := Merge(b, finer.buckets[k * ratio + j]);
    }
    MergeEnd(ps, size, f, ratio, k);
  }

  /** `level_buckets`: from the points, or from a finer level when there is one. */
  method LevelBuckets(ps: Points, size: nat, finer: Option<Level>) returns (bs: seq<Bucket>)
    requires |ps| > 0 && size > 0
    requires finer.Some? ==> Exact(ps, finer.value) && size % finer.value.size == 0
    ensures Exact(ps, Level(size, bs))
  {
    hide Direct, Mark, Summary, Tiles, Buckets;
    var count := Buckets(size, |ps|);
    LevelIs(ps, Level(size, Direct(ps, size)));
    bs := [];
    for k := 0 to count
      invariant |bs| == k <= count
      invariant forall i :: 0 <= i < k ==> bs[i] == Direct(ps, size)[i]
    {
      MarkFits(ps, size, k);
      var b;
      if finer.Some? { b := MergeGroup(ps, size, finer.value, k); } else { b := Summarize(ps, Mark(size, k), Mark(size, k + 1)); }
      bs := bs + [b];
    }
  }

  /** The levels of a file: the first sizes, each with at least two buckets. */
  predicate Pyramid(ps: Points, levels: seq<Level>)
    requires |ps| > 0
  {
    && |levels| <= |LOD_SIZES|
    && (forall i :: 0 <= i < |levels| ==> levels[i].size == LOD_SIZES[i] && Exact(ps, levels[i]) && |levels[i].buckets| >= 2)
    && (|levels| < |LOD_SIZES| ==> Buckets(LOD_SIZES[|levels|], |ps|) < 2)
  }

  /** `_write_lod`: every level from the one before it. */
  method WriteLod(ps: Points) returns (levels: seq<Level>)
    requires |ps| > 0
    ensures Pyramid(ps, levels)
  {
    levels := [];
    var finer: Option<Level> := None;
    for i := 0 to |LOD_SIZES|
      invariant |levels| == i
      invariant forall j :: 0 <= j < i ==> levels[j].size == LOD_SIZES[j] && Exact(ps, levels[j]) && |levels[j].buckets| >= 2
      invariant finer == if i == 0 then None else Some(levels[i - 1])
    {
      var buckets := LevelBuckets(ps, LOD_SIZES[i], finer);
      if |buckets| < 2 { break; }
      levels := levels + [Level(LOD_SIZES[i], buckets)];
      finer := Some(levels[i]);
    }
  }

  // ------------------------------------------------------------------ merged buckets

  predicate AllSound(bs: seq<Bucket>) { forall i :: 0 <= i < |bs| ==> Sound(bs[i]) }

  /** Neighbours merged two by two; an odd last one stays. */
  function Paired(bs: seq<Bucket>): seq<Bucket>
    requires AllSound(bs)
  {
    seq(|bs| / 2, i requires 0 <= i < |bs| / 2 => Merge(bs[2 * i], bs[2 * i + 1])) + bs[|bs| / 2 * 2..]
  }

  /** Every second cut, and the last. */
  function Halved(cuts: Cuts): Cuts
    requires |cuts| > 0
  {
    seq<nat>((|cuts| - 1) / 2 + 1, i requires 0 <= i < (|cuts| - 1) / 2 + 1 => cuts[2 * i])
    + if |cuts| % 2 == 0 then [Last(cuts)] else []
  }

  lemma HalvedTiles(cuts: Cuts, n: nat)
    requires Tiling(cuts, n)
    ensures Tiling(Halved(cuts), n) && Halved(cuts)[0] == cuts[0] && Last(Halved(cuts)) == Last(cuts)
    ensures |Halved(cuts)| - 1 == |cuts| / 2
  {
  }

  lemma PairMerges(ps: Points, cuts: Cuts, i: nat)
    requires Tiling(cuts, |ps|) && 2 * i + 2 < |cuts|
    ensures Sound(Tiles(ps, cuts)[2 * i]) && Sound(Tiles(ps, cuts)[2 * i + 1])
    ensures Merge(Tiles(ps, cuts)[2 * i], Tiles(ps, cuts)[2 * i + 1]) == Summary(ps, cuts[2 * i], cuts[2 * i + 2])
  {
    hide Summary, Merge, Sound;
    MergedIsSummary(ps, cuts[2 * i], cuts[2 * i + 1], cuts[2 * i + 2]);
  }

  lemma HalvedTile(ps: Points, cuts: Cuts, i: nat)
    requires Tiling(cuts, |ps|) && Tiling(Halved(cuts), |ps|) && i < |cuts| / 2 == |Halved(cuts)| - 1
    ensures 2 * i + 2 < |cuts| ==> Tiles(ps, Halved(cuts))[i] == Summary(ps, cuts[2 * i], cuts[2 * i + 2])
    ensures 2 * i + 2 == |cuts| ==> Tiles(ps, Halved(cuts))[i] == Tiles(ps, cuts)[2 * i]
  {
    hide Summary, Tiling;
  }

  lemma PairedTile(ps: Points, cuts: Cuts, i: nat)
    requires Tiling(cuts, |ps|) && Tiling(Halved(cuts), |ps|) && i < |cuts| / 2 == |Halved(cuts)| - 1
    requires AllSound(Tiles(ps, cuts))
    ensures i < |Paired(Tiles(ps, cuts))| && Paired(Tiles(ps, cuts))[i] == Tiles(ps, Halved(cuts))[i]
  {
    hide Summary, Tiling, Merge, Sound, Halved, Tiles;
    HalvedTile(ps, cuts, i);
    if 2 * i + 2 < |cuts| { PairMerges(ps, cuts, i); }
  }

  /** Buckets merged two by two are those of the stretches joined two by two. */
  lemma PairedTiles(ps: Points, cuts: Cuts)
    requires Tiling(cuts, |ps|)
    ensures Tiling(Halved(cuts), |ps|) && AllSound(Tiles(ps, cuts))
    ensures Paired(Tiles(ps, cuts)) == Tiles(ps, Halved(cuts))
  {
    hide Summary, Tiling, Merge, Sound, Halved, Tiles;
    HalvedTiles(cuts, |ps|);
    TilesSound(ps, cuts);
    forall i: nat | i < |cuts| / 2 ensures Paired(Tiles(ps, cuts))[i] == Tiles(ps, Halved(cuts))[i] {
      PairedTile(ps, cuts, i);
    }
  }

  /** `_merge_to`: halved until at most `limit` are left; a limit of none leaves them all. */
  method MergeTo(ghost ps: Points, ghost cuts: Cuts, buckets: seq<Bucket>, limit: nat)
    returns (merged: seq<Bucket>, ghost kept: Cuts)
    requires Tiling(cuts, |ps|) && buckets == Tiles(ps, cuts)
    ensures Tiling(kept, |ps|) && merged == Tiles(ps, kept)
    ensures kept[0] == cuts[0] && Last(kept) == Last(cuts)
    ensures limit > 0 ==> |merged| <= limit
    ensures limit == 0 || |buckets| <= limit ==> merged == buckets
    ensures |buckets| > limit > 0 ==> 2 * |merged| > limit
  {
    hide Summary, Merge, Sound, Tiling;
    merged, kept := buckets, cuts;
    while limit > 0 && |merged| > limit
      invariant Tiling(kept, |ps|) && merged == Tiles(ps, kept)
      invariant kept[0] == cuts[0] && Last(kept) == Last(cuts)
      invariant limit == 0 || |buckets| <= limit ==> merged == buckets
      invariant |buckets| > limit > 0 ==> 2 * |merged| > limit
      decreases |merged|
    {
      PairedTiles(ps, kept);
      HalvedTiles(kept, |ps|);
      merged, kept := Paired(merged), Halved(kept);
    }
  }

  // ------------------------------------------------------------------- emitted points

  function StepOf(p: Point): int { match p.step case None => 0 case Some(s) => s }

  /** The order of a series. */
  predicate Before(p: Point, q: Point) {
    StepOf(p) < StepOf(q) || (StepOf(p) == StepOf(q) && p.ts < q.ts)
  }

  predicate SameStamp(p: Point, q: Point) { p.step == q.step && p.ts == q.ts }

  /** `emit`: a bucket's extremes in series order, one if they coincide. */
  function Emit(b: Bucket): (r: Points)
    ensures 1 <= |r| <= 2
  {
    if b.finite == 0 || SameStamp(b.low, b.high) then [b.low]
    else if Before(b.high, b.low) then [b.high, b.low]
    else [b.low, b.high]
  }

  function EmitAll(bs: seq<Bucket>): Points {
    if bs == [] then [] else EmitAll(bs[..|bs| - 1]) + Emit(bs[|bs| - 1])
  }

  lemma {:induction false} EmitJoins(a: seq<Bucket>, b: seq<Bucket>)
    ensures EmitAll(a + b) == EmitAll(a) + EmitAll(b)
  {
    hide Emit;
    if b == [] {
      assert a + b == a;
    } else {
      var front, last := b[..|b| - 1], Emit(b[|b| - 1]);
      EmitJoins(a, front);
      assert (a + b)[..|a + b| - 1] == a + front;
      assert EmitAll(a + b) == EmitAll(a + front) + last;
      assert EmitAll(a) + EmitAll(front) + last == EmitAll(a) + (EmitAll(front) + last);
    }
  }

  lemma {:induction false} EmitBound(bs: seq<Bucket>)
    ensures |bs| <= |EmitAll(bs)| <= 2 * |bs|
  {
    if bs != [] { EmitBound(bs[..|bs| - 1]); }
  }

  lemma SingleEmits(ps: Points, s: nat)
    requires s < |ps|
    ensures Emit(Summary(ps, s, s + 1)) == [ps[s]]
  {
    assert Best(ps, s, s, false) == None && Best(ps, s, s, true) == None;
    assert Best(ps, s, s + 1, false) == Best(ps, s, s + 1, true);
  }

  /** The points of `[a, b)` differ in step or timestamp. */
  predicate Distinct(ps: Points, a: nat, b: nat)
    requires a <= b <= |ps|
  {
    forall i, j :: a <= i < j < b ==> !SameStamp(ps[i], ps[j])
  }

  predicate Rising(ps: Points) { forall i, j :: 0 <= i < j < |ps| ==> Before(ps[i], ps[j]) }

  /** A bucket's points are its stretch's first least and first greatest finite one; the
      greatest is lost just when it shares its stamp with the least. */
  lemma EmitKeeps(ps: Points, s: nat, e: nat)
    requires s < e <= |ps|
    ensures var r, low, high := Emit(Summary(ps, s, e)), Best(ps, s, e, false), Best(ps, s, e, true);
            && (low.None? <==> high.None?)
            && (low.None? ==> r == [ps[s]])
            && (low.Some? ==> (forall q :: q in r ==> q == ps[low.value] || q == ps[high.value]) && ps[low.value] in r &&
                              (ps[high.value] in r <==> ps[high.value] == ps[low.value] || !SameStamp(ps[low.value], ps[high.value])))
  {
    LowAndHigh(ps, s, e);
  }

  // ----------------------------------------------------- what thinned points still say

  /** The least finite value of some points, or the greatest. */
  function Extreme(w: Points, most: bool): Option<real> {
    match Best(w, 0, |w|, most) case None => None case Some(i) => Some(w[i].value.r)
  }

  /** Does a point of `r` reach as far as `p`? */
  predicate Reached(r: Points, p: Point, most: bool)
    requires Finite(p)
  {
    exists q :: q in r && Finite(q) && !Beats(p, q, most)
  }

  predicate Reaches(r: Points, w: Points, most: bool) {
    forall p :: p in w && Finite(p) ==> Reached(r, p, most)
  }

  predicate IsExtreme(w: Points, most: bool, v: real) {
    && (exists q :: q in w && Finite(q) && q.value.r == v)
    && (forall q :: q in w && Finite(q) ==> if most then q.value.r <= v else q.value.r >= v)
  }

  lemma ExtremeIs(w: Points, most: bool)
    ensures Extreme(w, most).None? <==> forall q :: q in w ==> !Finite(q)
    ensures Extreme(w, most).Some? ==> IsExtreme(w, most, Extreme(w, most).value)
  {
    BestIs(w, 0, |w|, most);
    var i := Best(w, 0, |w|, most);
    if i.Some? {
      assert IsBest(w, 0, |w|, most, i.value);
      assert w[i.value] in w;
    }
  }

  lemma Reacher(r: Points, w: Points, p: Point, most: bool) returns (q: Point)
    requires p in w && Finite(p) && Reaches(r, w, most)
    ensures q in r && Finite(q) && !Beats(p, q, most)
  {
    assert Reached(r, p, most);
    q :| q in r && Finite(q) && !Beats(p, q, most);
  }

  /** Points picked from others that reach as far have the same extremes. */
  lemma SameExtreme(w: Points, r: Points, most: bool)
    requires forall q :: q in r ==> q in w
    requires Reaches(r, w, most)
    ensures Extreme(r, most) == Extreme(w, most)
  {
    hide Extreme, Reaches, Reached;
    ExtremeIs(w, most);
    ExtremeIs(r, most);
    if Extreme(w, most).Some? {
      var p :| p in w && Finite(p) && p.value.r == Extreme(w, most).value;
      var q := Reacher(r, w, p, most);
      var x :| x in r && Finite(x) && x.value.r == Extreme(r, most).value;
      assert x in w && q in w;
    }
  }

  predicate From(ps: Points, a: nat, b: nat, q: Point) { exists i :: a <= i < b <= |ps| && ps[i] == q }

  lemma PieceFrom(ps: Points, s: nat, e: nat, q: Point)
    requires s < e <= |ps| && q in Emit(Summary(ps, s, e))
    ensures From(ps, s, e, q)
  {
    hide Emit, Summary, Best;
    EmitKeeps(ps, s, e);
  }

  lemma PieceReaches(ps: Points, s: nat, e: nat, i: nat, most: bool)
    requires s <= i < e <= |ps| && Finite(ps[i]) && Distinct(ps, s, e)
    ensures Reached(Emit(Summary(ps, s, e)), ps[i], most)
  {
    hide Emit, Summary, Best;
    EmitKeeps(ps, s, e);
    BestIs(ps, s, e, most);
    BestIs(ps, s, e, false);
    BestIs(ps, s, e, true);
    var at := Best(ps, s, e, most);
    assert IsBest(ps, s, e, most, at.value);
    assert ps[at.value] in Emit(Summary(ps, s, e));
  }

  lemma PieceRises(ps: Points, s: nat, e: nat)
    requires s < e <= |ps| && (forall i, j :: s <= i < j < e ==> Before(ps[i], ps[j]))
    ensures Rising(Emit(Summary(ps, s, e)))
  {
    EmitKeeps(ps, s, e);
    var low, high := Best(ps, s, e, false), Best(ps, s, e, true);
    if low.Some? && low.value != high.value {
      assert Before(ps[low.value], ps[high.value]) || Before(ps[high.value], ps[low.value]);
    }
  }

  lemma LastPiece(ps: Points, cuts: Cuts)
    requires Tiling(cuts, |ps|) && |cuts| >= 2
    ensures var front := cuts[..|cuts| - 1];
            && Tiling(front, |ps|) && cuts[0] == front[0] <= Last(front) < Last(cuts) <= |ps|
            && EmitAll(Tiles(ps, cuts)) == EmitAll(Tiles(ps, front)) + Emit(Summary(ps, Last(front), Last(cuts)))
  {
    hide Summary, Emit, Tiles;
    var front := cuts[..|cuts| - 1];
    assert cuts == front + [Last(cuts)];
    AddTile(ps, front, Last(cuts));
    assert (Tiles(ps, front) + [Summary(ps, Last(front), Last(cuts))])[..|front| - 1] == Tiles(ps, front);
  }

  lemma {:induction false} AllFrom(ps: Points, cuts: Cuts)
    requires Tiling(cuts, |ps|)
    ensures forall q :: q in EmitAll(Tiles(ps, cuts)) ==> From(ps, cuts[0], Last(cuts), q)
    decreases |cuts|
  {
    hide Summary, Emit, Tiles;
    if |cuts| >= 2 {
      var front := cuts[..|cuts| - 1];
      LastPiece(ps, cuts);
      AllFrom(ps, front);
      forall q | q in Emit(Summary(ps, Last(front), Last(cuts))) ensures From(ps, cuts[0], Last(cuts), q) {
        PieceFrom(ps, Last(front), Last(cuts), q);
      }
    }
  }

  lemma {:induction false} AllReached(ps: Points, cuts: Cuts, i: nat, most: bool)
    requires Tiling(cuts, |ps|) && cuts[0] <= i < Last(cuts) && Finite(ps[i]) && Distinct(ps, cuts[0], Last(cuts))
    ensures Reached(EmitAll(Tiles(ps, cuts)), ps[i], most)
    decreases |cuts|
  {
    assert |cuts| >= 2;
    hide Summary, Emit, Tiles, Tiling;
    var front := cuts[..|cuts| - 1];
    LastPiece(ps, cuts);
    if i < Last(front) { AllReached(ps, front, i, most); } else { PieceReaches(ps, Last(front), Last(cuts), i, most); }
  }

  lemma {:induction false} AllRise(ps: Points, cuts: Cuts)
    requires Tiling(cuts, |ps|) && (forall i, j :: cuts[0] <= i < j < Last(cuts) ==> Before(ps[i], ps[j]))
    ensures Rising(EmitAll(Tiles(ps, cuts)))
    decreases |cuts|
  {
    hide Summary, Emit, Tiles, Before, Tiling;
    if |cuts| >= 2 {
      var front := cuts[..|cuts| - 1];
      LastPiece(ps, cuts);
      AllRise(ps, front);
      AllFrom(ps, front);
      var a, b := EmitAll(Tiles(ps, front)), Emit(Summary(ps, Last(front), Last(cuts)));
      PieceRises(ps, Last(front), Last(cuts));
      forall i, j | 0 <= i < |a| && 0 <= j < |b| ensures Before(a[i], b[j]) {
        assert From(ps, cuts[0], Last(front), a[i]);
        PieceFrom(ps, Last(front), Last(cuts), b[j]);
      }
    }
  }

  /** The first and the last stretch hold one point each. */
  predicate EndsAlone(cuts: Cuts) {
    |cuts| >= 3 && cuts[1] == cuts[0] + 1 && Last(cuts) == cuts[|cuts| - 2] + 1
  }

  lemma OneEmits(b: Bucket)
    ensures EmitAll([b]) == Emit(b)
  {
    assert [b][..0] == [];
  }

  lemma EmitEnds(bs: seq<Bucket>, mid: seq<Bucket>)
    requires |bs| >= 2 && mid == bs[1..|bs| - 1]
    ensures EmitAll(bs) == Emit(bs[0]) + EmitAll(mid) + Emit(bs[|bs| - 1])
  {
    hide Emit, EmitAll;
    assert bs == [bs[0]] + mid + [bs[|bs| - 1]];
    EmitJoins([bs[0]] + mid, [bs[|bs| - 1]]);
    EmitJoins([bs[0]], mid);
    OneEmits(bs[0]);
    OneEmits(bs[|bs| - 1]);
  }

  lemma EndsKept(ps: Points, cuts: Cuts)
    requires Tiling(cuts, |ps|) && EndsAlone(cuts)
    ensures var r := EmitAll(Tiles(ps, cuts));
            2 <= |r| <= 2 * (|cuts| - 1) - 2 && r[0] == ps[cuts[0]] && r[|r| - 1] == ps[Last(cuts) - 1]
  {
    hide Summary, Emit, EmitAll, Tiles;
    var bs := Tiles(ps, cuts);
    var mid := bs[1..|bs| - 1];
    TileAt(ps, cuts, 0);
    TileAt(ps, cuts, |cuts| - 2);
    SingleEmits(ps, cuts[0]);
    SingleEmits(ps, Last(cuts) - 1);
    EmitEnds(bs, mid);
    EmitBound(mid);
  }

  lemma ThinnedWithin(ps: Points, cuts: Cuts)
    requires Tiling(cuts, |ps|) && cuts[0] <= Last(cuts) <= |ps|
    ensures forall q :: q in EmitAll(Tiles(ps, cuts)) ==> q in ps[cuts[0]..Last(cuts)]
  {
    assert |cuts| > 0;
    hide Summary, Emit, Tiles, Tiling, EmitAll;
    AllFrom(ps, cuts);
    var w := ps[cuts[0]..Last(cuts)];
    forall q | From(ps, cuts[0], Last(cuts), q) ensures q in w {
      var i :| cuts[0] <= i < Last(cuts) && ps[i] == q;
      assert w[i - cuts[0]] == q;
    }
  }

  lemma ThinnedReaches(ps: Points, cuts: Cuts, most: bool)
    requires Tiling(cuts, |ps|) && cuts[0] <= Last(cuts) <= |ps|
    requires var w := ps[cuts[0]..Last(cuts)]; Distinct(w, 0, |w|)
    ensures Reaches(EmitAll(Tiles(ps, cuts)), ps[cuts[0]..Last(cuts)], most)
  {
    assert |cuts| > 0;
    hide Summary, Emit, Tiles, Tiling, EmitAll, SameStamp;
    var a, b := cuts[0], Last(cuts);
    var w := ps[a..b];
    forall i, j | a <= i < j < b ensures !SameStamp(ps[i], ps[j]) { assert !SameStamp(w[i - a], w[j - a]); }
    forall p | p in w && Finite(p) ensures Reached(EmitAll(Tiles(ps, cuts)), p, most) {
      var i :| 0 <= i < |w| && w[i] == p;
      AllReached(ps, cuts, a + i, most);
    }
  }

  lemma ThinnedRises(ps: Points, cuts: Cuts)
    requires Tiling(cuts, |ps|) && cuts[0] <= Last(cuts) <= |ps| && Rising(ps[cuts[0]..Last(cuts)])
    ensures Rising(EmitAll(Tiles(ps, cuts)))
  {
    assert |cuts| > 0;
    hide Summary, Emit, Tiles, Tiling, EmitAll, Before;
    var a, b := cuts[0], Last(cuts);
    var w := ps[a..b];
    forall i, j | a <= i < j < b ensures Before(ps[i], ps[j]) { assert Before(w[i - a], w[j - a]); }
    AllRise(ps, cuts);
  }

  /** Thinned to the extremes of stretches that hold each point of `w` once: nothing is made
      up, the finite extremes stay, and points in order stay so. */
  lemma ThinnedIsFaithful(ps: Points, cuts: Cuts)
    requires Tiling(cuts, |ps|)
    ensures cuts[0] <= Last(cuts) <= |ps|
    ensures Faithful(ps[cuts[0]..Last(cuts)], EmitAll(Tiles(ps, cuts)))
  {
    assert cuts[0] <= Last(cuts) <= |ps|;
    hide Summary, Emit, Tiles, Before, Tiling, Extreme, EmitAll, Distinct, Rising, Reaches;
    var r, w := EmitAll(Tiles(ps, cuts)), ps[cuts[0]..Last(cuts)];
    ThinnedWithin(ps, cuts);
    if Distinct(w, 0, |w|) {
      ThinnedReaches(ps, cuts, false);
      ThinnedReaches(ps, cuts, true);
      SameExtreme(w, r, false);
      SameExtreme(w, r, true);
    }
    if Rising(w) { ThinnedRises(ps, cuts); }
  }

  /** `r` says of `w` what it can: only points of it, its finite extremes, its order. */
  predicate Faithful(w: Points, r: Points) {
    && (forall q :: q in r ==> q in w)
    && (Distinct(w, 0, |w|) ==> Extreme(r, false) == Extreme(w, false) && Extreme(r, true) == Extreme(w, true))
    && (Rising(w) ==> Rising(r))
  }
}

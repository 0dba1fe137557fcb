/**
 One writer's metric stream in a record (`index_metrics`, `index_metric_adopt`): folding
 what its objects grew by, folding its sums again, and an indexed metric file (`.vmx`)
 taking the place of segments already folded, for one footer read instead of a refold.

 A writer's stream is a sequence of segments of blocks, of which the record folded a
 first part each. A `.vmx` covers the segments up to its last; it may hold other points than
 they did, for compaction drops what rewinds hide, and a listing's stream (`Lists`) has the
 file's points in their place. `WriterState.Adopted` answers true exactly when the footer
 counts as many points per key as were folded of what it covers; `adoption.dfy` says when
 that is right. `WriterState.FoldListed` folds just the points of the listed stream that
 were not folded yet, and `WriterState.Replay` all that had been, into the record's fold.

 The sizes of stream objects are counted in blocks.
 */
module RecordMetrics {
  import opened Fold
  import opened FoldSums
  import opened RecordFold
  import opened BlockFold

  ghost predicate BlockOk(b: Block) { b != [] && ColsOk(b) }

  ghost predicate BlocksOk(bs: seq<Block>) {
    forall i :: 0 <= i < |bs| ==> BlockOk(bs[i])
  }

  // ------------------------------------------------------------------ counting

  /** The points of `k` the blocks hold. */
  function BlocksPoints(bs: seq<Block>, k: Name): seq<Point> {
    if bs == [] then [] else BlocksPoints(bs[..|bs| - 1], k) + PointsIn(bs[|bs| - 1], k)
  }

  /** The points of `k` the first `n` segments hold. */
  function StreamPoints(segments: seq<seq<Block>>, n: nat, k: Name): seq<Point>
    requires n <= |segments|
  {
    if n == 0 then [] else StreamPoints(segments, n - 1, k) + BlocksPoints(segments[n - 1], k)
  }

  function AllPoints(segments: seq<seq<Block>>, k: Name): seq<Point> { StreamPoints(segments, |segments|, k) }

  function CountIn(b: Block, k: Name): nat { |PointsIn(b, k)| }

  function CountOf(bs: seq<Block>, k: Name): nat { |BlocksPoints(bs, k)| }

  function CountAll(segments: seq<seq<Block>>, n: nat, k: Name): nat
    requires n <= |segments|
  {
    |StreamPoints(segments, n, k)|
  }

  lemma {:induction false} PrefixCounts(bs: seq<Block>, n: nat, k: Name)
    requires n <= |bs|
    ensures CountOf(bs[..n], k) <= CountOf(bs, k)
  {
    if n < |bs| {
      PrefixCounts(bs[..|bs| - 1], n, k);
      assert bs[..|bs| - 1][..n] == bs[..n];
    } else {
      assert bs[..n] == bs;
    }
  }

  lemma {:induction false} KeyIn(b: Block, i: nat)
    requires i < |b|
    ensures forall p :: p in b[i].points ==> p in PointsIn(b, b[i].key)
    ensures |PointsIn(b, b[i].key)| >= |b[i].points|
  {
    if i < |b| - 1 { KeyIn(b[..|b| - 1], i); }
  }

  /** A missing block shows in the count of some key. */
  lemma MissingBlockShows(bs: seq<Block>, n: nat)
    requires BlocksOk(bs) && n < |bs|
    ensures exists k :: CountOf(bs[..n], k) < CountOf(bs, k)
  {
    var b := bs[n];
    assert BlockOk(b);
    var k := b[0].key;
    KeyIn(b, 0);
    PrefixCounts(bs, n + 1, k);
    assert bs[..n + 1][..n] == bs[..n];
    assert CountOf(bs[..n + 1], k) == CountOf(bs[..n], k) + CountIn(b, k);
  }

  // ---------------------------------------------------- what folding asks of points

  /** The rewind does not tie with the point, and hides it only if it is no earlier. */
  predicate Clears(m: Marker, p: Point, writer: int) {
    && !SameKey(m.key, Key(Rank(p.us), writer, 0))
    && (HiddenBy(m, p, writer) && UsOf(m.key.ts).Some? ==> p.us <= UsOf(m.key.ts).value)
  }

  ghost predicate PointsFit(rewinds: set<Marker>, points: seq<Point>, writer: int) {
    OneKind(points) && forall m, p :: m in rewinds && p in points ==> Clears(m, p, writer)
  }

  /** A stream's keys have steps throughout or nowhere, and no rewind ties with a point, or
      hides one by string order that is later. */
  ghost predicate Fits(rewinds: set<Marker>, stream: seq<seq<Block>>, writer: int) {
    forall k :: PointsFit(rewinds, AllPoints(stream, k), writer)
  }

  /** No point of a key is earlier than its first, or has a greater step than its last. */
  ghost predicate Plain(b: Block) {
    forall i :: 0 <= i < |b| ==> b[i].points != [] && Bounded(b[i].points)
  }

  ghost predicate AllPlain(bs: seq<Block>) { forall i :: 0 <= i < |bs| ==> Plain(bs[i]) }

  /** A plain block that is folded point by point, or else has its ends in string order too. */
  ghost predicate Tame(rewinds: set<Marker>, b: Block) { Plain(b) && (MayBe(rewinds, b) || Straight(b)) }

  ghost predicate AllTame(rewinds: set<Marker>, bs: seq<Block>) { forall i :: 0 <= i < |bs| ==> Tame(rewinds, bs[i]) }

  ghost predicate PartsTame(rewinds: set<Marker>, ps: seq<Part>) { forall i :: 0 <= i < |ps| ==> Tame(rewinds, ps[i].block) }

  ghost predicate AllStraight(bs: seq<Block>) { forall i :: 0 <= i < |bs| ==> Straight(bs[i]) }

  /** The rewinds blocks depend on for being tame: none when they are straight. */
  ghost function Needed(straight: bool, rewinds: set<Marker>): (needed: set<Marker>)
    ensures needed <= rewinds
  {
    if straight then {} else rewinds
  }

  lemma MoreTame(rewinds: set<Marker>, more: set<Marker>, b: Block)
    requires Tame(rewinds, b) && rewinds <= more
    ensures Tame(more, b)
  {
    if MayBe(rewinds, b) {
      var i :| 0 <= i < |b| && b[i].points != [] && MayBeRewound(MarksOf(rewinds), HeaderOf(b[i], 0));
      assert MarksOf(rewinds) <= MarksOf(more);
      assert MayBeRewound(MarksOf(more), HeaderOf(b[i], 0));
    }
  }

  lemma MorePartsTame(rewinds: set<Marker>, more: set<Marker>, ps: seq<Part>)
    requires PartsTame(rewinds, ps) && rewinds <= more
    ensures PartsTame(more, ps)
  {
    forall i | 0 <= i < |ps| ensures Tame(more, ps[i].block) {
      assert Tame(rewinds, ps[i].block);
      MoreTame(rewinds, more, ps[i].block);
    }
  }

  /** A rewind hides a later point only within its own, whole, second. */
  lemma OnlyWholeSeconds(m: Marker, p: Point, writer: int)
    requires !SameKey(m.key, Key(Rank(p.us), writer, 0)) && !Clears(m, p, writer)
    ensures UsOf(m.key.ts).Some?
    ensures var us := UsOf(m.key.ts).value; us % SECOND == 0 && p.us / SECOND == us / SECOND && us < p.us
  {
    UsIsRank(m.key.ts);
  }

  lemma ClearIsNoticed(rewinds: set<Marker>, points: seq<Point>, writer: int)
    requires Bounded(points) && forall m, p :: m in rewinds && p in points ==> Clears(m, p, writer)
    ensures Noticed(rewinds, points, writer) && UntiedPoints(rewinds, points, writer)
  {
    forall m, i | m in rewinds && 0 <= i < |points| ensures Clears(m, points[i], writer) {
      assert points[i] in points;
    }
    forall m, i | m in rewinds && 0 <= i < |points| && HiddenBy(m, points[i], writer)
      ensures MayBeRewound({MarkOf(m)}, Header(points, Places(0, |points|)))
    {
      assert Clears(m, points[i], writer) && MarkOf(m) in {MarkOf(m)};
      assert points[0].us <= points[i].us;
    }
  }

  /** A tame block whose points fit folds to what its points do. */
  lemma TameFoldable(rewinds: set<Marker>, b: Block, writer: int)
    requires Tame(rewinds, b)
    requires forall k, m, p :: m in rewinds && p in PointsIn(b, k) ==> Clears(m, p, writer)
    ensures Foldable(rewinds, b, writer)
  {
    hide Clears, Bounded, Straight, Noticed, UntiedPoints, MayBe;
    forall i | 0 <= i < |b| ensures Noticed(rewinds, b[i].points, writer) && UntiedPoints(rewinds, b[i].points, writer) {
      KeyIn(b, i);
      assert Bounded(b[i].points);
      ClearIsNoticed(rewinds, b[i].points, writer);
    }
  }

  lemma FewerFit(rewinds: set<Marker>, points: seq<Point>, all: seq<Point>, writer: int)
    requires PointsFit(rewinds, all, writer) && multiset(points) <= multiset(all)
    ensures PointsFit(rewinds, points, writer)
  {
    hide Clears;
    forall p | p in points ensures p in all { assert p in multiset(points); }
    forall i, j | 0 <= i < |points| && 0 <= j < |points| ensures points[i].step.Some? == points[j].step.Some? {
      SameKind(all, points[i], points[j]);
    }
  }

  /** A block of points all of a stream's is foldable. */
  lemma WithinFoldable(rewinds: set<Marker>, b: Block, stream: seq<seq<Block>>, writer: int)
    requires Tame(rewinds, b) && Fits(rewinds, stream, writer)
    requires forall k :: multiset(PointsIn(b, k)) <= multiset(AllPoints(stream, k))
    ensures Foldable(rewinds, b, writer)
  {
    hide Clears, Tame, PointsIn, AllPoints;
    forall k, m, p | m in rewinds && p in PointsIn(b, k) ensures Clears(m, p, writer) {
      assert PointsFit(rewinds, AllPoints(stream, k), writer);
      FewerFit(rewinds, PointsIn(b, k), AllPoints(stream, k), writer);
    }
    TameFoldable(rewinds, b, writer);
  }

  // ------------------------------------------------------------ points of segments

  lemma {:induction false} BlocksJoined(a: seq<Block>, b: seq<Block>, k: Name)
    ensures BlocksPoints(a + b, k) == BlocksPoints(a, k) + BlocksPoints(b, k)
  {
    if b == [] {
      assert a + b == a;
    } else {
      BlocksJoined(a, b[..|b| - 1], k);
      assert (a + b)[..|a + b| - 1] == a + b[..|b| - 1];
      assert BlocksPoints(a, k) + BlocksPoints(b[..|b| - 1], k) + PointsIn(b[|b| - 1], k)
             == BlocksPoints(a, k) + BlocksPoints(b, k);
    }
  }

  lemma JoinedWithin<T>(a: seq<T>, b: seq<T>)
    ensures multiset(a) <= multiset(a + b) && multiset(b) <= multiset(a + b)
  {
  }

  lemma BothWithin<T>(a: seq<T>, b: seq<T>, c: seq<T>, d: seq<T>)
    requires multiset(a) <= multiset(b) && multiset(c) <= multiset(d)
    ensures multiset(a + c) <= multiset(b + d)
  {
  }

  lemma JoinedMore<T>(a: seq<T>, b: seq<T>, c: seq<T>, d: seq<T>, x: multiset<T>, y: multiset<T>)
    requires multiset(b) == multiset(a) + x && multiset(d) == multiset(c) + y
    ensures multiset(b + d) == multiset(a + c) + (x + y)
  {
  }

  /** One segment's points more. */
  lemma StreamNext(segments: seq<seq<Block>>, n: nat, k: Name)
    requires 0 < n <= |segments|
    ensures StreamPoints(segments, n, k) == StreamPoints(segments, n - 1, k) + BlocksPoints(segments[n - 1], k)
  {
  }

  lemma {:induction false} BlockWithin(bs: seq<Block>, i: nat, k: Name)
    requires i < |bs|
    ensures multiset(PointsIn(bs[i], k)) <= multiset(BlocksPoints(bs, k))
  {
    var init := bs[..|bs| - 1];
    JoinedWithin(BlocksPoints(init, k), PointsIn(bs[|bs| - 1], k));
    if i < |init| { BlockWithin(init, i, k); }
  }

  lemma {:induction false} SegmentWithin(segments: seq<seq<Block>>, n: nat, i: nat, k: Name)
    requires i < n <= |segments|
    ensures multiset(BlocksPoints(segments[i], k)) <= multiset(StreamPoints(segments, n, k))
  {
    hide StreamPoints, BlocksPoints;
    StreamNext(segments, n, k);
    JoinedWithin(StreamPoints(segments, n - 1, k), BlocksPoints(segments[n - 1], k));
    if i < n - 1 { SegmentWithin(segments, n - 1, i, k); }
  }

  lemma {:induction false} FirstWithin(segments: seq<seq<Block>>, m: nat, n: nat, k: Name)
    requires m <= n <= |segments|
    ensures multiset(StreamPoints(segments, m, k)) <= multiset(StreamPoints(segments, n, k))
  {
    hide StreamPoints, BlocksPoints;
    if m < n {
      FirstWithin(segments, m, n - 1, k);
      StreamNext(segments, n, k);
      JoinedWithin(StreamPoints(segments, n - 1, k), BlocksPoints(segments[n - 1], k));
    }
  }

  lemma {:induction false} SameStart(a: seq<seq<Block>>, b: seq<seq<Block>>, n: nat, k: Name)
    requires n <= |a| && n <= |b| && a[..n] == b[..n]
    ensures StreamPoints(a, n, k) == StreamPoints(b, n, k)
  {
    if n > 0 {
      assert a[..n - 1] == a[..n][..n - 1] && b[..n - 1] == b[..n][..n - 1];
      SameStart(a, b, n - 1, k);
      assert a[n - 1] == a[..n][n - 1] && b[n - 1] == b[..n][n - 1];
    }
  }

  lemma {:induction false} EmptyRest(segments: seq<seq<Block>>, m: nat, n: nat, k: Name)
    requires m <= n <= |segments| && forall i :: m <= i < n ==> segments[i] == []
    ensures StreamPoints(segments, n, k) == StreamPoints(segments, m, k)
  {
    if n > m { EmptyRest(segments, m, n - 1, k); }
  }

  /** `segments` with blocks at the end of one. */
  function Extended(segments: seq<seq<Block>>, s: nat, bs: seq<Block>): seq<seq<Block>>
    requires s < |segments|
  {
    segments[s := segments[s] + bs]
  }

  lemma {:induction false} ExtendedPoints(segments: seq<seq<Block>>, s: nat, bs: seq<Block>, n: nat, k: Name)
    requires s < |segments| && n <= |segments|
    ensures multiset(StreamPoints(Extended(segments, s, bs), n, k))
            == multiset(StreamPoints(segments, n, k)) + MoreAt(s < n, bs, k)
  {
    hide StreamPoints, BlocksPoints, Extended;
    var more := Extended(segments, s, bs);
    if n > 0 {
      ExtendedPoints(segments, s, bs, n - 1, k);
      SegmentExtended(segments, s, bs, n - 1, k);
      StreamNext(segments, n, k);
      StreamNext(more, n, k);
      JoinedMore(StreamPoints(segments, n - 1, k), StreamPoints(more, n - 1, k),
                 BlocksPoints(segments[n - 1], k), BlocksPoints(more[n - 1], k),
                 MoreAt(s < n - 1, bs, k), MoreAt(s == n - 1, bs, k));
      assert MoreAt(s < n - 1, bs, k) + MoreAt(s == n - 1, bs, k) == MoreAt(s < n, bs, k);
    } else {
      NoSegments(segments, k);
      NoSegments(more, k);
    }
  }

  lemma NoSegments(segments: seq<seq<Block>>, k: Name)
    ensures StreamPoints(segments, 0, k) == []
  {
  }

  /** The points of the blocks, when they are there. */
  function MoreAt(there: bool, bs: seq<Block>, k: Name): multiset<Point> {
    if there then multiset(BlocksPoints(bs, k)) else multiset{}
  }

  lemma SegmentExtended(segments: seq<seq<Block>>, s: nat, bs: seq<Block>, i: nat, k: Name)
    requires s < |segments| && i < |segments|
    ensures multiset(BlocksPoints(Extended(segments, s, bs)[i], k))
            == multiset(BlocksPoints(segments[i], k)) + MoreAt(s == i, bs, k)
    ensures |Extended(segments, s, bs)| == |segments|
  {
    if s == i { BlocksJoined(segments[s], bs, k); }
  }

  function GotAt(got: seq<seq<Block>>, i: nat): seq<Block> { if i < |got| then got[i] else [] }

  /** `segments` cut or filled up to `n`. */
  function Resized(segments: seq<seq<Block>>, n: nat): (r: seq<seq<Block>>)
    ensures |r| == n && forall i :: 0 <= i < n ==> r[i] == GotAt(segments, i)
  {
    seq(n, i requires 0 <= i => GotAt(segments, i))
  }

  lemma ResizedPoints(segments: seq<seq<Block>>, n: nat, k: Name)
    requires forall i :: n <= i < |segments| ==> segments[i] == []
    ensures AllPoints(Resized(segments, n), k) == AllPoints(segments, k)
  {
    var r := Resized(segments, n);
    var m := if n <= |segments| then n else |segments|;
    assert r[..m] == segments[..m];
    SameStart(r, segments, m, k);
    EmptyRest(r, m, n, k);
    EmptyRest(segments, m, |segments|, k);
  }

  /** What a first part of each segment holds, the stream does. */
  lemma {:induction false} GotWithin(got: seq<seq<Block>>, stream: seq<seq<Block>>, n: nat, k: Name)
    requires n <= |got| && n <= |stream| && forall i :: 0 <= i < n ==> got[i] <= stream[i]
    ensures multiset(StreamPoints(got, n, k)) <= multiset(StreamPoints(stream, n, k))
  {
    hide StreamPoints, BlocksPoints;
    if n > 0 {
      GotWithin(got, stream, n - 1, k);
      var m := |got[n - 1]|;
      assert stream[n - 1] == got[n - 1] + stream[n - 1][m..];
      BlocksJoined(got[n - 1], stream[n - 1][m..], k);
      JoinedWithin(BlocksPoints(got[n - 1], k), BlocksPoints(stream[n - 1][m..], k));
      StreamNext(got, n, k);
      StreamNext(stream, n, k);
      BothWithin(StreamPoints(got, n - 1, k), StreamPoints(stream, n - 1, k),
                 BlocksPoints(got[n - 1], k), BlocksPoints(stream[n - 1], k));
    } else {
      NoSegments(got, k);
      NoSegments(stream, k);
    }
  }

  // -------------------------------------------------------- a writer's state

  const TAIL_SEGMENTS := 8

  /** A writer's stream objects: a segment, or the `.vmx` covering those up to `last`. */
  datatype Object = Segment(seq_: nat) | Indexed(last: nat) {
    function Last(): nat { if Segment? then seq_ else last }

    /** Whether the object holds segment `i`. */
    predicate Holds(i: nat) { if Segment? then i == seq_ else i <= last }

    /** Whether a `.vmx` covering up to `upTo` hides the object. */
    predicate HiddenBy(upTo: nat) { if Segment? then seq_ <= upTo else last < upTo }
  }

  type Counts = map<Name, nat>

  function CountHeld(c: Counts, k: Name): nat { if k in c then c[k] else 0 }

  /** The counts of a run of blocks, per key. */
  ghost predicate CountsOf(c: Counts, bs: seq<Block>) {
    forall k :: CountHeld(c, k) == CountOf(bs, k)
  }

  ghost predicate CountsAll(c: Counts, segments: seq<seq<Block>>, n: nat)
    requires n <= |segments|
  {
    forall k :: CountHeld(c, k) == CountAll(segments, n, k)
  }

  /** How many points of `k` the first `n` segments hold, those of `but` left out. */
  function CountBut(segments: seq<seq<Block>>, n: nat, but: set<nat>, k: Name): nat
    requires n <= |segments|
  {
    if n == 0 then 0
    else CountBut(segments, n - 1, but, k) + if n - 1 in but then 0 else CountOf(segments[n - 1], k)
  }

  lemma {:induction false} OneLess(segments: seq<seq<Block>>, n: nat, but: set<nat>, i: nat, k: Name)
    requires n <= |segments| && i !in but && i < |segments|
    ensures CountBut(segments, n, but, k)
            == CountBut(segments, n, but + {i}, k) + if i < n then CountOf(segments[i], k) else 0
  {
    if n > 0 {
      OneLess(segments, n - 1, but, i, k);
    }
  }

  /** The counts of all segments but some. */
  ghost predicate CountsBut(c: Counts, segments: seq<seq<Block>>, but: set<nat>) {
    forall k :: CountHeld(c, k) == CountBut(segments, |segments|, but, k)
  }

  lemma OneOff(c: Counts, segments: seq<seq<Block>>, but: set<nat>, i: nat, tail: Counts)
    requires CountsBut(c, segments, but) && i !in but && i < |segments| && CountsOf(tail, segments[i])
    ensures forall k :: CountHeld(tail, k) <= CountHeld(c, k)
    ensures CountsBut(Minus(c, tail), segments, but + {i})
  {
    forall k ensures CountHeld(tail, k) <= CountHeld(c, k)
             ensures CountHeld(c, k) - CountHeld(tail, k) == CountBut(segments, |segments|, but + {i}, k)
    {
      OneLess(segments, |segments|, but, i, k);
      assert CountHeld(tail, k) == CountOf(segments[i], k);
      assert CountHeld(c, k) == CountBut(segments, |segments|, but, k);
    }
  }

  lemma NoneOff(c: Counts, segments: seq<seq<Block>>)
    requires CountsAll(c, segments, |segments|)
    ensures CountsBut(c, segments, {})
  {
    forall k ensures CountHeld(c, k) == CountBut(segments, |segments|, {}, k) {
      NoneLess(segments, |segments|, k);
    }
  }

  lemma FirstLeft(c: Counts, segments: seq<seq<Block>>, m: nat, but: set<nat>)
    requires CountsBut(c, segments, but) && m <= |segments| && forall i :: i in but ==> m <= i
    requires forall i :: m <= i < |segments| && i !in but ==> segments[i] == []
    ensures CountsAll(c, segments, m)
  {
    forall k ensures CountHeld(c, k) == CountAll(segments, m, k) {
      OnlyFirst(segments, |segments|, m, but, k);
    }
  }

  lemma {:induction false} NoneLess(segments: seq<seq<Block>>, n: nat, k: Name)
    requires n <= |segments|
    ensures CountBut(segments, n, {}, k) == CountAll(segments, n, k)
  {
    if n > 0 {
      NoneLess(segments, n - 1, k);
    }
  }

  /** Leaving all segments past `m` out that hold something leaves the first `m`. */
  lemma {:induction false} OnlyFirst(segments: seq<seq<Block>>, n: nat, m: nat, but: set<nat>, k: Name)
    requires m <= n <= |segments|
    requires forall i :: i in but ==> m <= i
    requires forall i :: m <= i < n && i !in but ==> segments[i] == []
    ensures CountBut(segments, n, but, k) == CountAll(segments, m, k)
  {
    if n > m {
      OnlyFirst(segments, n - 1, m, but, k);
    } else if n > 0 {
      OnlyFirst(segments, n - 1, n - 1, but, k);
    }
  }

  lemma {:induction false} LeastOf(s: set<nat>) returns (m: nat)
    requires s != {}
    ensures m in s && forall t :: t in s ==> m <= t
  {
    var any :| any in s;
    m := any;
    if t :| t in s && t < any {
      assert t in s - {any};
      m := LeastOf(s - {any});
      assert forall u :: u in s ==> u == any || u in s - {any};
    }
  }

  function KeysOf(b: Block): set<Name> { set i | 0 <= i < |b| :: b[i].key }

  function Plus(c: Counts, b: Block): Counts {
    map k | k in c.Keys + KeysOf(b) :: CountHeld(c, k) + CountIn(b, k)
  }

  function Both(c: Counts, d: Counts): Counts {
    map k | k in c.Keys + d.Keys :: CountHeld(c, k) + CountHeld(d, k)
  }

  ghost predicate Positive(c: Counts) { forall k :: k in c ==> c[k] > 0 }

  lemma OneMore(bs: seq<Block>, b: Block, k: Name)
    ensures CountOf(bs + [b], k) == CountOf(bs, k) + CountIn(b, k)
  {
    assert (bs + [b])[..|bs + [b]| - 1] == bs;
  }

  /** Empty segments count nothing. */
  lemma {:induction false} EmptyEnd(segments: seq<seq<Block>>, m: nat, n: nat, k: Name)
    requires m <= n <= |segments| && forall i :: m <= i < n ==> segments[i] == []
    ensures CountAll(segments, n, k) == CountAll(segments, m, k)
  {
    if n > m {
      EmptyEnd(segments, m, n - 1, k);
    }
  }

  // Invariants of a writer's state.

  /** The segments in the tail after `s`. */
  function Later(tails: map<nat, Counts>, s: nat): set<nat> { set t | t in tails && t > s }

  ghost predicate CoveredIn(objects: map<Object, nat>, s: nat) {
    exists o :: o in objects && o.Indexed? && s <= o.last
  }

  ghost predicate TailRight(tails: map<nat, Counts>, segments: seq<seq<Block>>, s: nat)
    requires s in tails
  {
    s < |segments| && segments[s] != [] && CountsOf(tails[s], segments[s]) && Positive(tails[s])
  }

  /** A folded segment missing from the tail is covered, or too many came after it. */
  ghost predicate NotedOrPast(objects: map<Object, nat>, tails: map<nat, Counts>, s: nat) {
    s in tails || CoveredIn(objects, s) || |Later(tails, s)| >= TAIL_SEGMENTS
  }

  ghost predicate TailsRight(objects: map<Object, nat>, tails: map<nat, Counts>, segments: seq<seq<Block>>) {
    && (forall s :: s in tails ==> TailRight(tails, segments, s))
    && (forall s :: 0 <= s < |segments| && segments[s] != [] ==> NotedOrPast(objects, tails, s))
  }

  ghost predicate HeldIn(objects: map<Object, nat>, i: nat) {
    exists o :: o in objects && o.Holds(i)
  }

  ghost predicate ObjectRight(objects: map<Object, nat>, segments: seq<seq<Block>>, o: Object)
    requires o in objects
  {
    o.Last() < |segments| && (o.Segment? ==> objects[o] == |segments[o.seq_]|)
  }

  ghost predicate ObjectsRight(objects: map<Object, nat>, segments: seq<seq<Block>>) {
    && (forall o :: o in objects ==> ObjectRight(objects, segments, o))
    && (forall i :: 0 <= i < |segments| && segments[i] != [] ==> HeldIn(objects, i))
  }

  /** `all` cut down to its latest segments. */
  ghost predicate Noted(all: map<nat, Counts>, kept: map<nat, Counts>) {
    Cut(all, kept) && |kept| <= TAIL_SEGMENTS
  }

  /** `all` with some of its first segments let go, enough kept. */
  ghost predicate Cut(all: map<nat, Counts>, kept: map<nat, Counts>) {
    && kept.Keys <= all.Keys
    && (forall t :: t in kept ==> kept[t] == all[t])
    && (forall t :: t in all && t !in kept ==> |kept| >= TAIL_SEGMENTS && AllAfter(t, kept.Keys))
  }

  ghost predicate AllAfter(t: nat, s: set<nat>) { forall u :: u in s ==> t < u }

  lemma CutOne(all: map<nat, Counts>, kept: map<nat, Counts>, first: nat)
    requires Cut(all, kept) && |kept| > TAIL_SEGMENTS && first in kept && forall t :: t in kept ==> first <= t
    ensures Cut(all, kept - {first}) && |kept - {first}| == |kept| - 1
  {
    var less := kept - {first};
    assert less.Keys == kept.Keys - {first};
    assert |less| == |less.Keys| && |kept| == |kept.Keys|;
    forall t | t in all && t !in less ensures AllAfter(t, less.Keys) {
      assert t == first || AllAfter(t, kept.Keys);
    }
  }

  lemma Bigger(a: set<nat>, b: set<nat>)
    requires a <= b
    ensures |a| <= |b|
    decreases |a|
  {
    if x :| x in a {
      Bigger(a - {x}, b - {x});
    }
  }

  /** Past enough segments stays past enough when the tail is cut. */
  lemma PastStays(all: map<nat, Counts>, kept: map<nat, Counts>, s: nat)
    requires Noted(all, kept) && |Later(all, s)| >= TAIL_SEGMENTS
    ensures |Later(kept, s)| >= TAIL_SEGMENTS
  {
    if u :| u in Later(all, s) && u !in kept {
      assert Later(kept, s) == kept.Keys;
    } else {
      Bigger(Later(all, s), Later(kept, s));
    }
  }

  function Tail(tails: map<nat, Counts>, s: nat): Counts { if s in tails then tails[s] else map[] }

  /** A segment the tail let go is not in it again, however it grew. */
  lemma LetGoStaysOut(all: map<nat, Counts>, kept: map<nat, Counts>, s: nat)
    requires Noted(all, kept) && |Later(all, s)| >= TAIL_SEGMENTS
    ensures s !in kept
  {
    if s in kept {
      PastStays(all, kept, s);
      Bigger(Later(kept, s) + {s}, kept.Keys);
    }
  }

  /** Noting what a segment grew by keeps the tail right. */
  lemma NotedKeepsTails(objects: map<Object, nat>, tails: map<nat, Counts>, segments: seq<seq<Block>>,
                        s: nat, bs: seq<Block>, added: Counts, after: map<Object, nat>, kept: map<nat, Counts>)
    requires TailsRight(objects, tails, segments) && s < |segments| && !CoveredIn(objects, s)
    requires bs != [] && CountsOf(added, bs) && Positive(added)
    requires forall o :: o in objects ==> o in after
    requires Noted(tails[s := Both(Tail(tails, s), added)], kept)
    ensures TailsRight(after, kept, segments[s := segments[s] + bs])
  {
    var all := tails[s := Both(Tail(tails, s), added)];
    var grown := segments[s := segments[s] + bs];
    forall t | t in kept ensures TailRight(kept, grown, t) {
      if t != s {
        assert TailRight(tails, segments, t);
      } else {
        NotedSegment(objects, tails, segments, s, bs, added, kept);
      }
    }
    forall t | 0 <= t < |grown| && grown[t] != [] ensures NotedOrPast(after, kept, t) {
      if t in all && t !in kept {
        assert Later(kept, t) == kept.Keys;
      } else if t !in all {
        assert NotedOrPast(objects, tails, t);
        if !CoveredIn(objects, t) {
          Bigger(Later(tails, t), Later(all, t));
          PastStays(all, kept, t);
        }
      }
    }
  }

  lemma NothingAdded(bs: seq<Block>, added: Counts)
    requires BlocksOk(bs) && CountsOf(added, bs) && Positive(added)
    ensures bs == [] <==> added == map[]
  {
    if bs != [] {
      MissingBlockShows(bs, 0);
    }
    forall k ensures CountHeld(added, k) == CountOf(bs, k) {
    }
    if k :| k in added {
      assert CountHeld(added, k) > 0;
    }
  }

  lemma MoreObjects(objects: map<Object, nat>, after: map<Object, nat>, tails: map<nat, Counts>,
                    segments: seq<seq<Block>>)
    requires TailsRight(objects, tails, segments) && forall o :: o in objects ==> o in after
    ensures TailsRight(after, tails, segments)
  {
    forall s | 0 <= s < |segments| && segments[s] != [] ensures NotedOrPast(after, tails, s) {
      assert NotedOrPast(objects, tails, s);
    }
  }

  lemma NotedSegment(objects: map<Object, nat>, tails: map<nat, Counts>, segments: seq<seq<Block>>,
                     s: nat, bs: seq<Block>, added: Counts, kept: map<nat, Counts>)
    requires TailsRight(objects, tails, segments) && s < |segments| && !CoveredIn(objects, s)
    requires bs != [] && CountsOf(added, bs) && Positive(added) && s in kept
    requires Noted(tails[s := Both(Tail(tails, s), added)], kept)
    ensures TailRight(kept, segments[s := segments[s] + bs], s)
  {
    var all := tails[s := Both(Tail(tails, s), added)];
    if s in tails {
      assert TailRight(tails, segments, s);
    } else if segments[s] != [] {
      assert NotedOrPast(objects, tails, s);
      assert Later(tails, s) == Later(all, s);
      LetGoStaysOut(all, kept, s);
    }
    forall k ensures CountHeld(kept[s], k) == CountOf(segments[s] + bs, k) {
      BlocksJoined(segments[s], bs, k);
      assert CountHeld(added, k) == CountOf(bs, k);
      assert CountHeld(Tail(tails, s), k) == CountOf(segments[s], k);
    }
  }

  /** A rolled up file: what it covers, its size, and its points as one block. */
  datatype Vmx = Vmx(last: nat, size: nat, content: Block)

  /** The file holds the points of the stream's segments up to its last. */
  ghost predicate RollsUp(vmx: Vmx, stream: seq<seq<Block>>) {
    && vmx.last < |stream| && ColsOk(vmx.content)
    && forall k :: multiset(PointsIn(vmx.content, k)) == multiset(StreamPoints(stream, vmx.last + 1, k))
  }

  /** The points of `k` folded from the first `n` segments. */
  function PointsUpTo(got: seq<seq<Block>>, n: nat, k: Name): seq<Point> { StreamPoints(Resized(got, n), n, k) }

  /** The file has as many points of each key as were folded of the segments it covers. */
  ghost predicate CountsTell(got: seq<seq<Block>>, vmx: Vmx) {
    forall k :: CountIn(vmx.content, k) == |PointsUpTo(got, vmx.last + 1, k)|
  }

  /** It has just those points. */
  ghost predicate HoldsSame(got: seq<seq<Block>>, vmx: Vmx) {
    forall k :: multiset(PointsIn(vmx.content, k)) == multiset(PointsUpTo(got, vmx.last + 1, k))
  }

  /** As many points, but others. */
  ghost predicate Mistaken(got: seq<seq<Block>>, vmx: Vmx) { CountsTell(got, vmx) && !HoldsSame(got, vmx) }

  lemma UpToIs(got: seq<seq<Block>>, n: nat, k: Name)
    requires n <= |got|
    ensures PointsUpTo(got, n, k) == StreamPoints(got, n, k)
  {
    assert Resized(got, n)[..n] == got[..n];
    SameStart(Resized(got, n), got, n, k);
  }

  /** The points per key of a footer. */
  function FooterCounts(content: Block): Counts { map k | k in KeysOf(content) :: CountIn(content, k) }

  lemma FooterRight(b: Block)
    requires ColsOk(b)
    ensures Positive(FooterCounts(b)) && forall k :: CountHeld(FooterCounts(b), k) == CountIn(b, k)
  {
    forall k | k in KeysOf(b) ensures CountIn(b, k) > 0 {
      var i :| 0 <= i < |b| && b[i].key == k;
      KeyIn(b, i);
    }
    forall k ensures CountHeld(FooterCounts(b), k) == CountIn(b, k) {
      if k !in KeysOf(b) { NotIn(b, k); }
    }
  }

  lemma SameSize<T>(a: seq<T>, b: seq<T>)
    requires multiset(a) == multiset(b)
    ensures |a| == |b|
  {
    assert |multiset(a)| == |a| && |multiset(b)| == |b|;
  }

  lemma {:induction false} NotIn(b: Block, k: Name)
    requires forall i :: 0 <= i < |b| ==> b[i].key != k
    ensures PointsIn(b, k) == []
  {
    if b != [] { NotIn(b[..|b| - 1], k); }
  }

  lemma SameWhenCounted(a: Counts, b: Counts)
    requires Positive(a) && Positive(b) && forall k :: CountHeld(a, k) == CountHeld(b, k)
    ensures a == b
  {
    forall k ensures k in a <==> k in b {
      assert CountHeld(a, k) == CountHeld(b, k);
    }
    forall k | k in a ensures a[k] == b[k] {
      assert CountHeld(a, k) == CountHeld(b, k);
    }
  }

  lemma CountedMore(c: Counts, bs: seq<Block>, b: Block)
    requires CountsOf(c, bs) && Positive(c) && BlockOk(b)
    ensures CountsOf(Plus(c, b), bs + [b]) && Positive(Plus(c, b))
  {
    forall k ensures CountHeld(Plus(c, b), k) == CountOf(bs + [b], k) {
      OneMore(bs, b, k);
      assert CountHeld(c, k) == CountOf(bs, k);
      if k !in KeysOf(b) { NotIn(b, k); }
    }
    forall k | k in Plus(c, b) ensures Plus(c, b)[k] > 0 {
      if k in KeysOf(b) {
        var i :| 0 <= i < |b| && b[i].key == k;
        KeyIn(b, i);
      }
    }
  }

  /** Only segment `s` and its object changed. */
  lemma ObjectGrown(objects: map<Object, nat>, segments: seq<seq<Block>>, after: map<Object, nat>,
                    grown: seq<seq<Block>>, s: nat)
    requires ObjectsRight(objects, segments) && s < |segments| && |grown| == |segments|
    requires grown == segments[s := grown[s]] && after == objects[Segment(s) := |grown[s]|]
    ensures ObjectsRight(after, grown)
  {
    forall o | o in after ensures ObjectRight(after, grown, o) {
      if o != Segment(s) {
        assert ObjectRight(objects, segments, o);
      }
    }
    forall i | 0 <= i < |grown| && grown[i] != [] ensures HeldIn(after, i) {
      if i == s {
        assert Segment(s) in after && Segment(s).Holds(i);
      } else {
        assert HeldIn(objects, i);
        var o :| o in objects && o.Holds(i);
        assert o in after;
      }
    }
  }

  predicate InTail(tails: map<nat, Counts>, o: Object) { o.Segment? && o.seq_ in tails }

  /** Segment `i` is in an object a `.vmx` covering up to `last` hides. */
  ghost predicate Superseding(objects: map<Object, nat>, last: nat, i: nat) {
    exists o :: o in objects && o.HiddenBy(last) && o.Holds(i)
  }

  function UpTo(n: nat): (r: set<nat>)
    ensures forall i: nat :: i in r <==> i <= n
  {
    if n == 0 then {0} else UpTo(n - 1) + {n}
  }

  lemma AllSeqs(objects: map<Object, nat>, covered: set<Object>, seqs: set<nat>, last: nat)
    requires covered == set o | o in objects && o.HiddenBy(last)
    requires forall i: nat :: i in seqs <==> exists o :: o in covered && o.Holds(i)
    ensures seqs == UpTo(last) <==> forall i :: 0 <= i <= last ==> Superseding(objects, last, i)
  {
    forall i: nat ensures i in seqs <==> Superseding(objects, last, i) {
      if i in seqs {
        var o :| o in covered && o.Holds(i);
        assert o in objects;
      }
      if Superseding(objects, last, i) {
        var o :| o in objects && o.HiddenBy(last) && o.Holds(i);
        assert o in covered;
      }
    }
  }

  /** What a `.vmx` needs of the state to be compared with it. */
  ghost predicate Adoptable(objects: map<Object, nat>, tails: map<nat, Counts>, last: nat) {
    && (forall i :: 0 <= i <= last ==> Superseding(objects, last, i))
    && (forall o :: o in objects && !o.HiddenBy(last) ==> InTail(tails, o))
  }

  /** The objects with those a `.vmx` supersedes replaced by it. */
  function Replaced(objects: map<Object, nat>, vmx: Vmx): map<Object, nat> {
    (map o | o in objects && !o.HiddenBy(vmx.last) :: objects[o])[Indexed(vmx.last) := vmx.size]
  }

  function NonZero(c: Counts): Counts { map k | k in c && c[k] != 0 :: c[k] }

  /** Counts with some taken off, each key there and large enough. */
  function Minus(c: Counts, d: Counts): (less: Counts)
    requires forall k :: CountHeld(d, k) <= CountHeld(c, k)
    ensures forall k :: CountHeld(less, k) == CountHeld(c, k) - CountHeld(d, k)
  {
    map k | k in c :: CountHeld(c, k) - CountHeld(d, k)
  }

  ghost predicate CountsMatch(b: Block, got: seq<seq<Block>>, n: nat)
    requires n <= |got|
  {
    forall k :: CountIn(b, k) == CountAll(got, n, k)
  }

  lemma CountsUpTo(got: seq<seq<Block>>, vmx: Vmx)
    requires vmx.last < |got|
    ensures CountsTell(got, vmx) <==> CountsMatch(vmx.content, got, vmx.last + 1)
  {
    hide PointsIn, StreamPoints, PointsUpTo;
    var n := vmx.last + 1;
    forall k ensures |PointsUpTo(got, n, k)| == CountAll(got, n, k) {
      UpToIs(got, n, k);
    }
  }

  /** The footer is what is expected exactly when all counts agree. */
  lemma Compared(expected: Counts, b: Block, got: seq<seq<Block>>, n: nat)
    requires n <= |got| && CountsAll(expected, got, n) && ColsOk(b)
    ensures FooterCounts(b) == NonZero(expected) <==> CountsMatch(b, got, n)
  {
    hide KeysOf;
    var footer, found := FooterCounts(b), NonZero(expected);
    FooterRight(b);
    forall k ensures CountHeld(found, k) == CountAll(got, n, k) {
      assert CountHeld(expected, k) == CountAll(got, n, k);
    }
    if CountsMatch(b, got, n) {
      forall k ensures CountHeld(footer, k) == CountHeld(found, k) {
        assert CountIn(b, k) == CountAll(got, n, k);
      }
      SameWhenCounted(footer, found);
    }
    if footer == found {
      forall k ensures CountIn(b, k) == CountAll(got, n, k) {
        assert CountHeld(footer, k) == CountIn(b, k);
      }
    }
  }

  /** A `.vmx` in the place of what it supersedes keeps objects and tail right. */
  lemma Replacing(objects: map<Object, nat>, tails: map<nat, Counts>, segments: seq<seq<Block>>, vmx: Vmx)
    requires ObjectsRight(objects, segments) && TailsRight(objects, tails, segments) && vmx.last < |segments|
    requires Adoptable(objects, tails, vmx.last)
    ensures var left := map s | s in tails && !(Segment(s) in objects && Segment(s).HiddenBy(vmx.last)) :: tails[s];
            ObjectsRight(Replaced(objects, vmx), segments) && TailsRight(Replaced(objects, vmx), left, segments)
  {
    var after := Replaced(objects, vmx);
    var left := map s | s in tails && !(Segment(s) in objects && Segment(s).HiddenBy(vmx.last)) :: tails[s];
    assert Indexed(vmx.last) in after;
    forall o | o in after ensures ObjectRight(after, segments, o) {
      if o != Indexed(vmx.last) {
        assert ObjectRight(objects, segments, o);
      }
    }
    forall i | 0 <= i < |segments| && segments[i] != [] ensures HeldIn(after, i) {
      if i <= vmx.last {
        assert Indexed(vmx.last).Holds(i);
      } else {
        var o :| o in objects && o.Holds(i);
        assert o in after;
      }
    }
    forall s | s in left ensures TailRight(left, segments, s) {
      assert TailRight(tails, segments, s);
    }
    forall s | 0 <= s < |segments| && segments[s] != [] ensures NotedOrPast(after, left, s) {
      assert NotedOrPast(objects, tails, s);
      if s <= vmx.last {
        assert CoveredIn(after, s);
      } else {
        assert forall o :: o in objects && o.Indexed? ==> o.HiddenBy(vmx.last);
        assert Later(left, s) == Later(tails, s);
      }
    }
  }

  /** The first `n` segments, the rest empty. */
  function FirstOf(stream: seq<seq<Block>>, n: nat): seq<seq<Block>> {
    seq(|stream|, i requires 0 <= i < |stream| => if i < n then stream[i] else [])
  }

  lemma FirstsPoints(stream: seq<seq<Block>>, n: nat, k: Name)
    requires n <= |stream|
    ensures AllPoints(FirstOf(stream, n), k) == StreamPoints(stream, n, k)
  {
    var first := FirstOf(stream, n);
    assert first[..n] == stream[..n];
    SameStart(first, stream, n, k);
    EmptyRest(first, n, |stream|, k);
  }

  /** A file without points covers empty segments. */
  lemma EmptyFooter(vmx: Vmx, stream: seq<seq<Block>>)
    requires RollsUp(vmx, stream) && vmx.content == []
    requires forall i :: 0 <= i <= vmx.last ==> BlocksOk(stream[i])
    ensures forall i :: 0 <= i <= vmx.last ==> stream[i] == []
  {
    forall i | 0 <= i <= vmx.last ensures stream[i] == [] {
      if stream[i] != [] {
        MissingBlockShows(stream[i], 0);
        var k :| CountOf(stream[i][..0], k) < CountOf(stream[i], k);
        SegmentWithin(stream, vmx.last + 1, i, k);
        SameSize(PointsIn(vmx.content, k), StreamPoints(stream, vmx.last + 1, k));
        NoLarger(StreamPoints(stream, vmx.last + 1, k), BlocksPoints(stream[i], k));
      }
    }
  }

  lemma NoLarger<T>(a: seq<T>, b: seq<T>)
    requires multiset(b) <= multiset(a)
    ensures |b| <= |a|
  {
    var rest := multiset(a) - multiset(b);
    assert multiset(a) == multiset(b) + rest;
    assert |multiset(a)| == |multiset(b)| + |rest|;
  }

  lemma ResizedStaysRight(objects: map<Object, nat>, tails: map<nat, Counts>, segments: seq<seq<Block>>, n: nat)
    requires ObjectsRight(objects, segments) && forall i :: n <= i < |segments| ==> segments[i] == []
    requires forall o :: o in objects ==> o.Last() < n
    ensures ObjectsRight(objects, Resized(segments, n))
    ensures TailsRight(objects, tails, segments) ==> TailsRight(objects, tails, Resized(segments, n))
  {
    var r := Resized(segments, n);
    forall o | o in objects ensures ObjectRight(objects, r, o) {
      assert ObjectRight(objects, segments, o);
    }
    if TailsRight(objects, tails, segments) {
      forall s | s in tails ensures TailRight(tails, r, s) {
        assert TailRight(tails, segments, s);
      }
    }
  }

  // ------------------------------------------------------------------ a listing

  /** What a listing shows of a writer: its rolled up file, if any, and the segments after. */
  datatype Listed = Listed(writer: int, vmx: Option<Vmx>, later: seq<seq<Block>>)

  /** The first segment listed. */
  function First(vmx: Option<Vmx>): nat { if vmx.Some? then vmx.value.last + 1 else 0 }

  /** The stream has what is listed: the points of the `.vmx`, in whatever blocks, as those of the
      segments it covers, then the segments after it. */
  ghost predicate Lists(l: Listed, stream: seq<seq<Block>>) {
    && |stream| == First(l.vmx) + |l.later| && stream[First(l.vmx)..] == l.later
    && (l.vmx.Some? ==> RollsUp(l.vmx.value, stream) && l.vmx.value.size > 0)
    && forall i :: 0 <= i < |stream| ==> BlocksOk(stream[i])
  }

  ghost predicate Intact(l: Listed) {
    && (l.vmx.Some? ==> ColsOk(l.vmx.value.content) && l.vmx.value.size > 0)
    && forall i :: 0 <= i < |l.later| ==> BlocksOk(l.later[i])
  }

  /** A `.vmx` as one block, of its last segment. */
  function Spread(l: Listed): seq<seq<Block>> {
    if l.vmx.None? then l.later
    else
      var vmx := l.vmx.value;
      Empty(vmx.last) + [if vmx.content == [] then [] else [vmx.content]] + l.later
  }

  function Empty(n: nat): (segments: seq<seq<Block>>)
    ensures |segments| == n && forall i :: 0 <= i < n ==> segments[i] == []
  {
    seq(n, i requires 0 <= i => [])
  }

  /** Whatever a `.vmx` holds, there is a stream that the listing is of. */
  lemma SpreadIsListed(l: Listed)
    requires Intact(l)
    ensures Lists(l, Spread(l))
  {
    if l.vmx.Some? {
      var vmx, stream := l.vmx.value, Spread(l);
      assert stream[First(l.vmx)..] == l.later;
      assert vmx.content != [] ==> BlockOk(vmx.content);
      forall k ensures StreamPoints(stream, vmx.last + 1, k) == PointsIn(vmx.content, k) {
        SpreadPoints(stream, vmx, k);
      }
    }
  }

  lemma SpreadPoints(stream: seq<seq<Block>>, vmx: Vmx, k: Name)
    requires vmx.last < |stream| && stream[vmx.last] == (if vmx.content == [] then [] else [vmx.content])
    requires forall i :: 0 <= i < vmx.last ==> stream[i] == []
    ensures StreamPoints(stream, vmx.last + 1, k) == PointsIn(vmx.content, k)
  {
    EmptyRest(stream, 0, vmx.last, k);
    OneBlock(vmx.content, k);
    StreamNext(stream, vmx.last + 1, k);
  }

  /** Its blocks are tame. */
  ghost predicate Readable(rewinds: set<Marker>, l: Listed) {
    && (l.vmx.Some? ==> Tame(rewinds, l.vmx.value.content))
    && forall i :: 0 <= i < |l.later| ==> AllTame(rewinds, l.later[i])
  }

  ghost predicate ListStraight(l: Listed) {
    (l.vmx.Some? ==> Straight(l.vmx.value.content)) && forall i :: 0 <= i < |l.later| ==> AllStraight(l.later[i])
  }

  /** Whether each folded object is listed, has not shrunk, and no `.vmx` took its place. */
  predicate GrewOnly(objects: map<Object, nat>, l: Listed) {
    forall o :: o in objects ==> match o
      case Indexed(last) => l.vmx.Some? && l.vmx.value.last == last && l.vmx.value.size == objects[o]
      case Segment(s) =>
        && First(l.vmx) <= s < First(l.vmx) + |l.later| && objects[o] <= |l.later[s - First(l.vmx)]|
        && (l.vmx.Some? ==> Indexed(l.vmx.value.last) in objects)
  }

  /** A `.vmx` not folded. */
  predicate NewlyIndexed(objects: map<Object, nat>, l: Listed) {
    l.vmx.Some? && Indexed(l.vmx.value.last) !in objects
  }

  /** The size an object is listed with, if it is. */
  function ListedSize(l: Listed, o: Object): Option<nat> {
    match o
    case Indexed(last) => if l.vmx.Some? && l.vmx.value.last == last then Some(l.vmx.value.size) else None
    case Segment(s) =>
      if First(l.vmx) <= s < First(l.vmx) + |l.later| then Some(|l.later[s - First(l.vmx)]|) else None
  }

  /** Read off listed sizes: objects only grew when each is listed, a segment no smaller, a
      `.vmx` the same, and no segment was folded where a new `.vmx` is listed. */
  lemma GrewOnlyExactly(objects: map<Object, nat>, l: Listed)
    ensures GrewOnly(objects, l) <==>
              && (forall o :: o in objects ==>
                    && ListedSize(l, o).Some?
                    && (if o.Indexed? then ListedSize(l, o).value == objects[o] else ListedSize(l, o).value >= objects[o]))
              && !((exists o :: o in objects && o.Segment?) && l.vmx.Some? && ListedSize(l, Indexed(l.vmx.value.last)).Some?
                   && Indexed(l.vmx.value.last) !in objects)
  {
    if l.vmx.Some? {
      var i := Indexed(l.vmx.value.last);
      assert ListedSize(l, i) == Some(l.vmx.value.size);
    }
  }

  /** What was folded and what is listed are of one append-only stream, as far as sizes tell:
      a segment that did not shrink only grew, and a `.vmx` of the same size is the same one. */
  ghost predicate Follows(objects: map<Object, nat>, got: seq<seq<Block>>, l: Listed, stream: seq<seq<Block>>) {
    && (forall s: nat :: Segment(s) in objects && First(l.vmx) <= s < |stream| && objects[Segment(s)] <= |stream[s]| ==>
          GotAt(got, s) <= stream[s])
    && (l.vmx.Some? && Indexed(l.vmx.value.last) in objects && objects[Indexed(l.vmx.value.last)] == l.vmx.value.size ==>
          forall i :: 0 <= i <= l.vmx.value.last < |stream| ==> GotAt(got, i) == stream[i])
  }

  /** The objects folded are those listed, each in full. */
  ghost predicate AtListing(objects: map<Object, nat>, l: Listed) {
    forall o :: o in objects ==> match o
      case Indexed(last) => l.vmx.Some? && l.vmx.value.last == last && l.vmx.value.size == objects[o]
      case Segment(s) => First(l.vmx) <= s < First(l.vmx) + |l.later|
  }

  /** The listed `.vmx` is among them. */
  predicate Footed(objects: map<Object, nat>, l: Listed) { !NewlyIndexed(objects, l) }


  // ------------------------------------------------------------ what folding brings

  /** `new` folded in one by one. */
  ghost predicate Folds(f: Fold, g: Fold, gained: seq<Shown>) {
    g == AppliedAll(f, Entries(gained)) && g.rewinds == f.rewinds && CellsOk(g)
  }

  /** `new` is the points of a writer that `now` has and `was` had not. */
  ghost predicate Brings(gained: seq<Shown>, writer: int, was: seq<seq<Block>>, now: seq<seq<Block>>) {
    && OnlyStreams(gained, writer)
    && forall k :: multiset(AllPoints(now, k)) == multiset(AllPoints(was, k)) + multiset(PointsOf(gained, writer, k))
  }

  ghost predicate BringsBlock(gained: seq<Shown>, writer: int, b: Block) {
    OnlyStreams(gained, writer) && forall k :: multiset(PointsOf(gained, writer, k)) == multiset(PointsIn(b, k))
  }

  lemma FoldsOn(f: Fold, g: Fold, h: Fold, a: seq<Shown>, b: seq<Shown>)
    requires Folds(f, g, a) && Folds(g, h, b)
    ensures Folds(f, h, a + b)
  {
    EntriesJoined(a, b);
    AppliedOn(f, Entries(a), Entries(b));
  }

  lemma BringsOn(a: seq<Shown>, b: seq<Shown>, writer: int, x: seq<seq<Block>>, y: seq<seq<Block>>, z: seq<seq<Block>>)
    requires Brings(a, writer, x, y) && Brings(b, writer, y, z)
    ensures Brings(a + b, writer, x, z)
  {
    hide AllPoints, PointsOf;
    forall k ensures multiset(AllPoints(z, k)) == multiset(AllPoints(x, k)) + multiset(PointsOf(a + b, writer, k)) {
      PartsJoined(a, b, writer, k);
      assert multiset(AllPoints(y, k)) == multiset(AllPoints(x, k)) + multiset(PointsOf(a, writer, k));
      assert multiset(AllPoints(z, k)) == multiset(AllPoints(y, k)) + multiset(PointsOf(b, writer, k));
    }
  }

  lemma NothingNew(f: Fold, writer: int, got: seq<seq<Block>>)
    requires CellsOk(f)
    ensures Folds(f, f, []) && Brings([], writer, got, got)
  {
    NothingApplied(f);
    forall k ensures PointsOf([], writer, k) == [] {
    }
  }

  lemma OneBlock(b: Block, k: Name)
    ensures BlocksPoints([b], k) == PointsIn(b, k)
  {
    assert [b][..0] == [];
    assert BlocksPoints([b][..0], k) == [];
  }

  lemma BlockBrought(gained: seq<Shown>, writer: int, b: Block, got: seq<seq<Block>>, s: nat)
    requires BringsBlock(gained, writer, b) && s < |got|
    ensures Brings(gained, writer, got, Extended(got, s, [b]))
  {
    hide PointsOf, PointsIn;
    forall k ensures multiset(AllPoints(Extended(got, s, [b]), k)) == multiset(AllPoints(got, k)) + multiset(PointsOf(gained, writer, k)) {
      ExtendedPoints(got, s, [b], |got|, k);
      OneBlock(b, k);
      assert multiset(PointsOf(gained, writer, k)) == multiset(PointsIn(b, k));
    }
  }

  // ------------------------------------------------------------ the blocks summed up

  /** The blocks folded hold the points of what was got. */
  ghost predicate PartsMake(ps: seq<Part>, got: seq<seq<Block>>) {
    forall k :: multiset(PartsPoints(ps, k)) == multiset(AllPoints(got, k))
  }

  lemma PartsNext(ps: seq<Part>, p: Part, k: Name)
    ensures PartsPoints(ps + [p], k) == PartsPoints(ps, k) + PointsIn(p.block, k)
  {
    assert (ps + [p])[..|ps|] == ps;
  }

  lemma PartBrought(ps: seq<Part>, p: Part, got: seq<seq<Block>>, s: nat)
    requires PartsMake(ps, got) && s < |got|
    ensures PartsMake(ps + [p], Extended(got, s, [p.block]))
  {
    hide PartsPoints, PointsIn;
    forall k ensures multiset(PartsPoints(ps + [p], k)) == multiset(AllPoints(Extended(got, s, [p.block]), k)) {
      PartsNext(ps, p, k);
      ExtendedPoints(got, s, [p.block], |got|, k);
      OneBlock(p.block, k);
      assert multiset(PartsPoints(ps, k)) == multiset(AllPoints(got, k));
    }
  }

  ghost predicate NoBlocks(got: seq<seq<Block>>) { forall i :: 0 <= i < |got| ==> got[i] == [] }

  lemma NoPartsYet(got: seq<seq<Block>>)
    requires NoBlocks(got)
    ensures PartsMake([], got)
  {
    forall k ensures AllPoints(got, k) == [] {
      EmptyRest(got, 0, |got|, k);
    }
  }

  /** The points per key the sums hold. */
  function SumCountsOf(sums: SumsMap): Counts { map k | k in sums :: sums[k].n }

  lemma SumsCount(sums: SumsMap, ps: seq<Part>, got: seq<seq<Block>>)
    requires SumsRight(sums, ps) && PartsMake(ps, got)
    ensures CountsAll(SumCountsOf(sums), got, |got|)
  {
    hide Sums, Heads, Whole, PiecesFor;
    forall k ensures CountHeld(SumCountsOf(sums), k) == CountAll(got, |got|, k) {
      assert SumRight(sums, k, PiecesFor(ps, k));
      PiecesHold(ps, k);
      if k in sums { SumCounts(PiecesFor(ps, k)); }
      assert multiset(PartsPoints(ps, k)) == multiset(AllPoints(got, k));
      SameSize(PartsPoints(ps, k), AllPoints(got, k));
    }
  }

  lemma {:induction false} PartWithin(ps: seq<Part>, i: nat, k: Name)
    requires i < |ps|
    ensures multiset(PointsIn(ps[i].block, k)) <= multiset(PartsPoints(ps, k))
  {
    if i < |ps| - 1 { PartWithin(ps[..|ps| - 1], i, k); }
  }

  /** What was folded of a stream that fits may be folded again from its sums. */
  lemma PartsFit(rewinds: set<Marker>, ps: seq<Part>, got: seq<seq<Block>>, stream: seq<seq<Block>>, writer: int)
    requires PartsTame(rewinds, ps) && PartsMake(ps, got) && Fits(rewinds, stream, writer)
    requires forall k :: multiset(AllPoints(got, k)) <= multiset(AllPoints(stream, k))
    ensures PartsFoldable(rewinds, ps, writer) && Kinds(ps)
  {
    hide AllPoints, PartsPoints, PointsIn, Tame, OneKind, Clears;
    forall i | 0 <= i < |ps| ensures Foldable(rewinds, ps[i].block, writer) {
      forall k ensures multiset(PointsIn(ps[i].block, k)) <= multiset(AllPoints(stream, k)) {
        PartWithin(ps, i, k);
        assert multiset(PartsPoints(ps, k)) == multiset(AllPoints(got, k));
      }
      WithinFoldable(rewinds, ps[i].block, stream, writer);
    }
    forall k ensures OneKind(PartsPoints(ps, k)) {
      assert multiset(PartsPoints(ps, k)) == multiset(AllPoints(got, k));
      assert PointsFit(rewinds, AllPoints(stream, k), writer);
      FewerFit(rewinds, PartsPoints(ps, k), AllPoints(stream, k), writer);
    }
  }

  /** The part of a record's metric state about one writer. Ghost: the blocks folded, per
      segment, and as they were folded, with the position each began at. */
  class WriterState {
    const writer: int
    var objects: map<Object, nat>
    var points: nat
    var sums: Option<SumsMap>
    var tails: map<nat, Counts>
    ghost var got: seq<seq<Block>>
    ghost var parts: seq<Part>
    ghost var knew: set<Marker>  // the rewinds for which blocks were folded point by point

    ghost predicate Valid()
      reads this
    {
      && ObjectsRight(objects, got) && Counting(got, objects) && (objects == map[] ==> points == 0)
      && TailsListed(objects, tails)
    }

    /** The fields folding a block changes are right, the tail as of `was`. */
    ghost predicate Counting(was: seq<seq<Block>>, held: map<Object, nat>)
      reads this
    {
      && (sums.Some? ==> SumsRight(sums.value, parts) && TailsRight(held, tails, was))
      && (sums.None? ==> tails == map[])
      && (points == 0 ==> tails == map[] && got == was && NoBlocks(got))
      && PartsMake(parts, got) && PartsTame(knew, parts)
      && (forall i :: 0 <= i < |got| ==> BlocksOk(got[i]))
    }

    constructor (w: int)
      ensures Valid() && writer == w && got == [] && objects == map[] && points == 0 && knew == {}
    {
      writer := w;
      objects, points, sums, tails, got, parts, knew := map[], 0, None, map[], [], [], {};
    }

    /** Counts the points folded from a segment into the tail, which keeps its latest. */
    method NoteTail(s: nat, added: Counts)
      modifies this`tails
      ensures Noted(old(tails)[s := Both(Tail(old(tails), s), added)], tails)
    {
      tails := tails[s := Both(Tail(tails, s), added)];
      ghost var all := tails;
      while |tails| > TAIL_SEGMENTS
        invariant Cut(all, tails)
        decreases |tails|
      {
        ghost var least := LeastOf(tails.Keys);
        var first :| first in tails && forall t :: t in tails ==> first <= t;
        CutOne(all, tails, first);
        tails := tails - {first};
      }
    }

    /** Folds one block, by its header or point by point; its header widens the writer's
        sums, kept from its first point on. */
    method FoldBlock(fold: LogFold, b: Block) returns (ghost gained: seq<Shown>)
      requires CellsOk(fold.State()) && Foldable(fold.rewinds, b, writer) && Plain(b)
      requires sums.Some? ==> SumsRight(sums.value, parts)
      modifies this`sums, this`points, this`parts, this`knew, fold
      ensures Folds(old(fold.State()), fold.State(), gained) && BringsBlock(gained, writer, b)
      ensures knew == old(knew) + Needed(Straight(b), old(fold.rewinds))
      ensures points == old(points) + BlockPoints(b)
      ensures parts == (if old(points) == 0 then [] else old(parts)) + [Part(b, old(points))]
      ensures sums.Some? <==> old(points) == 0 || old(sums).Some?
      ensures sums.Some? ==> SumsRight(sums.value, parts)
    {
      hide BlockFolded, BlockStreams, Foldable, CellsOk, Plain, Straight, AppliedAll, SumRight, Entries, PointsOf, PointsIn;
      var base := points;
      if base == 0 {
        sums, parts := Some(map[]), [];
        NoSumsRight();
      }
      if sums.Some? {
        assert forall i :: 0 <= i < |b| ==> b[i].points != [] by { PlainHasPoints(b); }
        WithBlockRight(sums.value, parts, Part(b, base));
        var wider := AddBlock(sums.value, b, base);
        sums := Some(wider);
      }
      parts := parts + [Part(b, base)];
      gained := BlockStreams(fold.rewinds, b, base, writer);
      BlockFoldsPoints(fold.State(), b, base, writer);
      forall k ensures OnlyStreams(gained, writer) && multiset(PointsOf(gained, writer, k)) == multiset(PointsIn(b, k)) {
        BlockStreamsHold(fold.rewinds, b, base, writer, k);
      }
      assert OnlyStreams(gained, writer) by { BlockStreamsHold(fold.rewinds, b, base, writer, ""); }
      assert forall i :: 0 <= i < |b| ==> b[i].points != [] by { PlainHasPoints(b); }
      FoldInto(fold, b, base, writer);
      points := base + BlockPoints(b);
      knew := knew + Needed(Straight(b), old(fold.rewinds));
    }

    /** Folds a segment's next block. */
    method FoldNext(fold: LogFold, s: nat, b: Block, ghost was: seq<seq<Block>>) returns (ghost gained: seq<Shown>)
      requires s < |got| && BlockOk(b) && Plain(b) && Counting(was, objects)
      requires CellsOk(fold.State()) && Foldable(fold.rewinds, b, writer)
      modifies this`sums, this`points, this`parts, this`knew, this`got, fold
      ensures Counting(was, objects) && got == Extended(old(got), s, [b]) && points > 0
      ensures Folds(old(fold.State()), fold.State(), gained) && Brings(gained, writer, old(got), got)
      ensures old(sums).Some? ==> sums.Some?
      ensures knew == old(knew) + Needed(Straight(b), old(fold.rewinds))
    {
      hide Straight, Folds, Brings, BringsBlock, PartsMake, PartsTame, Plain, SumsRight, Foldable, CellsOk, TailRight,
        NotedOrPast;
      ghost var before := if points == 0 then [] else parts;
      SomePoints(b);
      if points == 0 { NoPartsYet(got); NoPartsTame(knew); }
      PartBrought(before, Part(b, points), got, s);
      FoldableTame(fold.rewinds, b, writer);
      TameMore(knew, fold.rewinds, before, Part(b, points));
      NoTailsRight(objects, was);
      gained := FoldBlock(fold, b);
      BlockBrought(gained, writer, b, got, s);
      got := Extended(got, s, [b]);
    }

    /** Folds the blocks a segment grew by, and counts their points. */
    method FoldBlocks(fold: LogFold, s: nat, blocks: seq<Block>) returns (added: Counts, ghost gained: seq<Shown>)
      requires Valid() && s < |got| && BlocksOk(blocks) && AllPlain(blocks)
      requires CellsOk(fold.State()) && forall i :: 0 <= i < |blocks| ==> Foldable(fold.rewinds, blocks[i], writer)
      modifies this`sums, this`points, this`parts, this`knew, this`got, fold
      ensures got == Extended(old(got), s, blocks)
      ensures CountsOf(added, blocks) && Positive(added)
      ensures Counting(old(got), objects) && (blocks != [] ==> points > 0)
      ensures old(knew) <= knew <= old(knew) + Needed(AllStraight(blocks), old(fold.rewinds))
      ensures Folds(old(fold.State()), fold.State(), gained) && Brings(gained, writer, old(got), got)
      ensures old(sums).Some? ==> sums.Some?
    {
      hide Folds, Brings, PartsMake, PartsTame, Plain, SumsRight, Foldable, CellsOk, TailsRight, ObjectsRight,
        CountsOf, Positive, BlockOk;
      added := map[];
      ghost var was := got;
      ghost var f := fold.State();
      NothingNew(f, writer, got);
      NothingCounted();
      gained := [];
      assert was[s] + blocks[..0] == was[s] && Extended(was, s, blocks[..0]) == was;
      for i := 0 to |blocks|
        invariant got == Extended(was, s, blocks[..i]) && |got| == |was|
        invariant CountsOf(added, blocks[..i]) && Positive(added)
        invariant Counting(was, objects) && (i > 0 ==> points > 0)
        invariant Folds(f, fold.State(), gained) && Brings(gained, writer, was, got)
        invariant CellsOk(fold.State()) && fold.State().rewinds == old(fold.rewinds)
        invariant old(knew) <= knew <= old(knew) + Needed(AllStraight(blocks), old(fold.rewinds))
        invariant old(sums).Some? ==> sums.Some?
      {
        ghost var g, here := fold.State(), got;
        assert BlockOk(blocks[i]) && Foldable(fold.rewinds, blocks[i], writer);
        ghost var more := FoldNext(fold, s, blocks[i], was);
        FoldsKeep(g, fold.State(), more);
        FoldsOn(f, g, fold.State(), gained, more);
        BringsOn(gained, more, writer, was, here, got);
        gained := gained + more;
        assert blocks[..i + 1] == blocks[..i] + [blocks[i]];
        assert was[s] + blocks[..i + 1] == was[s] + blocks[..i] + [blocks[i]];
        CountedMore(added, blocks[..i], blocks[i]);
        added := Plus(added, blocks[i]);
      }
      assert blocks[..|blocks|] == blocks;
    }

    /** Folds what a segment grew by. */
    method FoldSegment(fold: LogFold, s: nat, blocks: seq<Block>) returns (ghost gained: seq<Shown>)
      requires Valid() && s < |got| && BlocksOk(blocks) && AllPlain(blocks) && !CoveredIn(objects, s)
      requires Segment(s) in objects || got[s] == []
      requires CellsOk(fold.State()) && forall i :: 0 <= i < |blocks| ==> Foldable(fold.rewinds, blocks[i], writer)
      modifies this, fold
      ensures Valid() && got == Extended(old(got), s, blocks)
      ensures objects == old(objects)[Segment(s) := |got[s]|]
      ensures old(knew) <= knew <= old(knew) + Needed(AllStraight(blocks), old(fold.rewinds))
      ensures Folds(old(fold.State()), fold.State(), gained) && Brings(gained, writer, old(got), got)
      ensures old(sums).Some? ==> sums.Some?
    {
      hide Folds, Brings, PartsMake, PartsTame, Plain, SumsRight, Foldable, CellsOk, CountsOf, Positive, BlockOk,
        TailsRight, ObjectsRight, Noted, AllPlain;
      var added: Counts;
      added, gained := FoldBlocks(fold, s, blocks);
      SegmentSize(objects, old(got), s);
      objects := objects[Segment(s) := (if Segment(s) in objects then objects[Segment(s)] else 0) + |blocks|];
      assert Segment(s) in objects;
      NothingAdded(blocks, added);
      if sums.Some? && added != map[] {
        NoteTail(s, added);
        NotedListed(old(objects), old(tails), s, Both(Tail(old(tails), s), added), tails, objects);
        NotedKeepsTails(old(objects), old(tails), old(got), s, blocks, added, objects, tails);
      } else if sums.Some? {
        assert old(got)[s] + [] == old(got)[s] && got == old(got);
        MoreObjects(old(objects), objects, tails, got);
      }
      ObjectGrown(old(objects), old(got), objects, got, s);
    }

    /** Whether a `.vmx` counts just the points folded from what it supersedes; if so it takes
        their place. */
    method Adopted(vmx: Vmx) returns (ok: bool)
      requires Valid() && vmx.last < |got| && ColsOk(vmx.content)
      modifies this`objects, this`tails
      ensures Valid()
      ensures ok <==> sums.Some? && Adoptable(old(objects), old(tails), vmx.last) && CountsTell(got, vmx)
      ensures !ok ==> objects == old(objects) && tails == old(tails)
      ensures ok ==> objects == Replaced(old(objects), vmx)
    {
      hide PartsMake, PartsTame, SumsRight, TailsRight, ObjectsRight, CountsAll, KeysOf, CountsTell, CountsMatch;
      var covered := set o | o in objects && o.HiddenBy(vmx.last);
      var after := objects.Keys - covered;
      var seqs := Seqs(covered);
      AllSeqs(objects, covered, seqs, vmx.last);
      if sums.None? || seqs != UpTo(vmx.last) || exists o :: o in after && !InTail(tails, o) {
        return false;
      }
      var expected := Expected(after, vmx.last);
      Compared(expected, vmx.content, got, vmx.last + 1);
      CountsUpTo(got, vmx);
      assert Adoptable(objects, tails, vmx.last);
      if FooterCounts(vmx.content) != NonZero(expected) {
        return false;
      }
      Replace(covered, vmx);
      ok := true;
    }

    /** Puts a `.vmx` in the place of what it supersedes. */
    method Replace(covered: set<Object>, vmx: Vmx)
      requires Valid() && sums.Some? && vmx.last < |got| && Adoptable(objects, tails, vmx.last)
      requires covered == set o | o in objects && o.HiddenBy(vmx.last)
      modifies this`objects, this`tails
      ensures Valid() && objects == Replaced(old(objects), vmx)
    {
      hide PartsMake, PartsTame, SumsRight, TailsRight, ObjectsRight, BlockOk, Adoptable;
      Replacing(objects, tails, got, vmx);
      ghost var left := map s | s in tails && !(Segment(s) in objects && Segment(s).HiddenBy(vmx.last)) :: tails[s];
      tails := map s | s in tails && Segment(s) !in covered :: tails[s];
      assert tails == left;
      objects := Replaced(objects, vmx);
      assert Indexed(vmx.last) in objects;
    }

    /** The counts of the sums, those of the segments after the `.vmx` taken off. */
    method Expected(after: set<Object>, last: nat) returns (expected: Counts)
      requires Valid() && sums.Some? && last < |got|
      requires after == set o | o in objects && !o.HiddenBy(last)
      requires forall o :: o in after ==> InTail(tails, o)
      ensures CountsAll(expected, got, last + 1)
    {
      hide PartsMake, PartsTame, SumsRight, BlocksOk, NoBlocks, TailsListed, CountsBut, CountsAll, CountsOf, Positive;
      SumsCount(sums.value, parts, got);
      expected := SumCountsOf(sums.value);
      var left := after;
      ghost var off: set<nat> := {};
      NoneOff(expected, got);
      while left != {}
        invariant left <= after
        invariant forall s :: s in off <==> Segment(s) in after - left
        invariant CountsBut(expected, got, off)
        decreases left
      {
        var o :| o in left;
        assert InTail(tails, o) && TailRight(tails, got, o.seq_);
        OneOff(expected, got, off, o.seq_, tails[o.seq_]);
        expected := Minus(expected, tails[o.seq_]);
        off := off + {o.seq_};
        left := left - {o};
      }
      forall i | last < i < |got| && got[i] != [] ensures i in off {
        assert HeldIn(objects, i);
        var o :| o in objects && o.Holds(i);
        assert o in after && InTail(tails, o);
      }
      FirstLeft(expected, got, last + 1, off);
    }

    /** The segments the objects hold or cover. */
    static method Seqs(os: set<Object>) returns (seqs: set<nat>)
      ensures forall i: nat :: i in seqs <==> exists o :: o in os && o.Holds(i)
    {
      seqs := {};
      var left := os;
      while left != {}
        invariant left <= os
        invariant forall i: nat :: i in seqs <==> exists o :: o in os - left && o.Holds(i)
        decreases left
      {
        var o :| o in left;
        var held := if o.Segment? then {o.seq_} else UpTo(o.last);
        forall i: nat ensures i in held <==> o.Holds(i) {
        }
        ghost var before := os - left;
        left := left - {o};
        assert os - left == before + {o};
        seqs := seqs + held;
      }
    }

    /** Folds a `.vmx` from its footer, nothing of the writer being folded. */
    method FoldIndexed(fold: LogFold, vmx: Vmx, ghost stream: seq<seq<Block>>) returns (ghost gained: seq<Shown>)
      requires Valid() && objects == map[] && RollsUp(vmx, stream) && |got| == |stream|
      requires forall i :: 0 <= i < |stream| ==> BlocksOk(stream[i])
      requires CellsOk(fold.State()) && Foldable(fold.rewinds, vmx.content, writer) && Plain(vmx.content)
      modifies this, fold
      ensures Valid() && objects == map[Indexed(vmx.last) := vmx.size]
      ensures got == FirstOf(stream, vmx.last + 1)
      ensures knew == old(knew) + Needed(Straight(vmx.content), old(fold.rewinds))
      ensures Folds(old(fold.State()), fold.State(), gained) && Brings(gained, writer, old(got), got)
    {
      hide Folds, Brings, BringsBlock, PartsMake, PartsTame, Plain, Straight, SumsRight, Foldable, CellsOk, BlockOk, RollsUp;
      ghost var was := got;
      RolledUpContent(vmx, stream);
      SomePoints(vmx.content);
      if vmx.content == [] { EmptyFooter(vmx, stream); }
      FoldableTame(fold.rewinds, vmx.content, writer);
      NoPartsTame(knew);
      TameMore(knew, fold.rewinds, [], Part(vmx.content, 0));
      assert [] + [Part(vmx.content, 0)] == [Part(vmx.content, 0)];
      gained := FoldBlock(fold, vmx.content);
      FooterBrought(gained, writer, was, vmx, stream);
      objects := map[Indexed(vmx.last) := vmx.size];
      got := FirstOf(stream, vmx.last + 1);
      OneIndexed(objects, vmx, stream);
      assert Indexed(vmx.last) in objects;
    }

    /** Cuts off, or makes room for, segments without blocks. */
    ghost method Resize(n: nat)
      requires Valid() && forall i :: n <= i < |got| ==> got[i] == []
      requires forall o :: o in objects ==> o.Last() < n
      modifies this`got
      ensures Valid() && got == Resized(old(got), n)
      ensures Brings([], writer, old(got), got) && Brings([], writer, got, old(got))
    {
      hide PartsTame, PartsMake, SumsRight, TailsRight, ObjectsRight, BlockOk, Brings;
      ResizedStaysRight(objects, tails, got, n);
      ResizedBrings(got, n, writer, parts);
      got := Resized(got, n);
    }

    /** Folds the unread part of each segment listed. */
    method FoldUnread(fold: LogFold, l: Listed, ghost stream: seq<seq<Block>>) returns (ghost gained: seq<Shown>)
      requires Valid() && |got| == |stream| && Lists(l, stream) && Readable(fold.rewinds, l)
      requires forall i :: 0 <= i < |stream| ==> got[i] <= stream[i]
      requires forall i :: 0 <= i < First(l.vmx) ==> got[i] == stream[i]
      requires AtListing(objects, l)
      requires forall i :: First(l.vmx) <= i < |got| && got[i] != [] ==> Segment(i) in objects
      requires CellsOk(fold.State()) && Fits(fold.rewinds, stream, writer)
      modifies this, fold
      ensures Valid() && got == stream && AtListing(objects, l) && forall o :: o in old(objects) ==> o in objects
      ensures old(knew) <= knew <= old(knew) + Needed(ListStraight(l), old(fold.rewinds))
      ensures Folds(old(fold.State()), fold.State(), gained) && Brings(gained, writer, old(got), got)
    {
      hide Folds, Brings, PartsMake, PartsTame, Plain, SumsRight, Foldable, CellsOk, TailsRight, BlockOk,
        Fits, RollsUp, Counting;
      ghost var f, was := fold.State(), got;
      NothingNew(f, writer, got);
      gained := [];
      var first := First(l.vmx);
      for s := first to first + |l.later|
        invariant Valid() && |got| == |stream|
        invariant forall i :: 0 <= i < |stream| ==> got[i] <= stream[i]
        invariant forall i :: 0 <= i < s ==> got[i] == stream[i]
        invariant AtListing(objects, l) && forall o :: o in old(objects) ==> o in objects
        invariant forall i :: s <= i < |got| && got[i] != [] ==> Segment(i) in objects
        invariant old(knew) <= knew <= old(knew) + Needed(ListStraight(l), old(fold.rewinds))
        invariant Folds(f, fold.State(), gained) && Brings(gained, writer, was, got)
        invariant CellsOk(fold.State()) && fold.State().rewinds == f.rewinds
      {
        ghost var g, here := fold.State(), got;
        ghost var more := FoldListedSegment(fold, l, s, stream);
        FoldsKeep(g, fold.State(), more);
        FoldsOn(f, g, fold.State(), gained, more);
        BringsOn(gained, more, writer, was, here, got);
        gained := gained + more;
      }
    }

    /** Folds the unread part of one. */
    method FoldListedSegment(fold: LogFold, l: Listed, s: nat, ghost stream: seq<seq<Block>>) returns (ghost gained: seq<Shown>)
      requires Valid() && |got| == |stream| && Lists(l, stream) && Readable(fold.rewinds, l)
      requires First(l.vmx) <= s < |stream| && got[s] <= stream[s] && AtListing(objects, l)
      requires got[s] != [] ==> Segment(s) in objects
      requires CellsOk(fold.State()) && Fits(fold.rewinds, stream, writer)
      modifies this, fold
      ensures Valid() && got == old(got)[s := stream[s]] && AtListing(objects, l)
      ensures old(knew) <= knew <= old(knew) + Needed(ListStraight(l), old(fold.rewinds))
      ensures forall o :: o in old(objects) ==> o in objects
      ensures Folds(old(fold.State()), fold.State(), gained) && Brings(gained, writer, old(got), got)
    {
      hide Folds, Brings, PartsMake, PartsTame, Plain, SumsRight, Foldable, CellsOk, TailsRight, BlockOk,
        Fits, RollsUp, Counting, ObjectsRight;
      var consumed := if Segment(s) in objects then objects[Segment(s)] else 0;
      var listed := l.later[s - First(l.vmx)];
      assert listed == stream[s];
      SegmentSize(objects, got, s);
      assert stream[s] == got[s] + stream[s][consumed..];
      if consumed < |listed| {
        TailFoldable(fold.rewinds, l, stream, s, consumed, writer);
        gained := FoldSegment(fold, s, listed[consumed..]);
      } else {
        NothingNew(fold.State(), writer, got);
        gained := [];
        assert got[s] == stream[s];
      }
    }

    /** Folds a listed `.vmx` when nothing of the writer is folded. */
    method FoldFooter(fold: LogFold, l: Listed, ghost stream: seq<seq<Block>>) returns (ghost gained: seq<Shown>)
      requires Valid() && Lists(l, stream) && Readable(fold.rewinds, l) && |got| == |stream|
      requires GrewOnly(objects, l) && CellsOk(fold.State()) && Fits(fold.rewinds, stream, writer)
      requires forall i :: 0 <= i < |stream| ==> got[i] <= stream[i]
      requires l.vmx.None? || Indexed(l.vmx.value.last) in objects ==> forall i :: 0 <= i < First(l.vmx) ==> got[i] == stream[i]
      requires forall i :: First(l.vmx) <= i < |got| && got[i] != [] ==> Segment(i) in objects
      modifies this, fold
      ensures Valid() && |got| == |stream| && AtListing(objects, l) && Footed(objects, l)
      ensures forall i :: 0 <= i < |stream| ==> got[i] <= stream[i]
      ensures forall i :: 0 <= i < First(l.vmx) ==> got[i] == stream[i]
      ensures forall i :: First(l.vmx) <= i < |got| && got[i] != [] ==> Segment(i) in objects
      ensures old(knew) <= knew <= old(knew) + Needed(ListStraight(l), old(fold.rewinds))
      ensures Folds(old(fold.State()), fold.State(), gained) && Brings(gained, writer, old(got), got)
    {
      hide Folds, Brings, Counting, Plain, Foldable, CellsOk, BlockOk, Fits, RollsUp, ObjectsRight, Readable;
      if l.vmx.Some? && Indexed(l.vmx.value.last) !in objects {
        OnlyIndexed(objects, l);
        FooterFoldable(fold.rewinds, l, stream, writer);
        gained := FoldIndexed(fold, l.vmx.value, stream);
      } else {
        NothingNew(fold.State(), writer, got);
        gained := [];
      }
    }

    /** Folds a listed `.vmx` that is not folded, then what is unread of the segments. */
    method FoldObjects(fold: LogFold, l: Listed, ghost stream: seq<seq<Block>>) returns (ghost gained: seq<Shown>)
      requires Valid() && Lists(l, stream) && Readable(fold.rewinds, l) && |got| == |stream|
      requires GrewOnly(objects, l) && AtListing(objects, l) && CellsOk(fold.State()) && Fits(fold.rewinds, stream, writer)
      requires forall i :: 0 <= i < |stream| ==> got[i] <= stream[i]
      requires l.vmx.None? || Indexed(l.vmx.value.last) in objects ==> forall i :: 0 <= i < First(l.vmx) ==> got[i] == stream[i]
      requires forall i :: First(l.vmx) <= i < |got| && got[i] != [] ==> Segment(i) in objects
      modifies this, fold
      ensures Valid() && got == stream && AtListing(objects, l) && Footed(objects, l)
      ensures old(knew) <= knew <= old(knew) + Needed(ListStraight(l), old(fold.rewinds))
      ensures Folds(old(fold.State()), fold.State(), gained) && Brings(gained, writer, old(got), got)
    {
      hide Folds, Brings, Counting, ObjectsRight, TailsListed, CellsOk, Fits, Readable, Lists, GrewOnly, AtListing, Needed,
        ListStraight;
      ghost var f, here := fold.State(), got;
      gained := FoldFooter(fold, l, stream);
      ghost var g, there := fold.State(), got;
      FoldsKeep(f, g, gained);
      ghost var more := FoldUnread(fold, l, stream);
      FoldsOn(f, g, fold.State(), gained, more);
      BringsOn(gained, more, writer, here, there, got);
      gained := gained + more;
    }

    /** Folds what the listed objects hold past what was folded; a writer down to its `.vmx`
        alone keeps no sums. */
    method FoldListed(fold: LogFold, l: Listed, ghost stream: seq<seq<Block>>) returns (ghost gained: seq<Shown>)
      requires Valid() && Lists(l, stream) && Readable(fold.rewinds, l)
      requires Follows(objects, got, l, stream) && GrewOnly(objects, l)
      requires CellsOk(fold.State()) && Fits(fold.rewinds, stream, writer)
      modifies this, fold
      ensures Valid() && got == stream && AtListing(objects, l) && Footed(objects, l)
      ensures old(knew) <= knew <= old(knew) + Needed(ListStraight(l), old(fold.rewinds))
      ensures Folds(old(fold.State()), fold.State(), gained) && Brings(gained, writer, old(got), got)
    {
      hide Folds, Brings, PartsMake, PartsTame, SumsRight, CellsOk, TailsRight, BlocksOk, NoBlocks, Fits, ObjectsRight, Follows,
        Readable, Lists, GrewOnly, AtListing, Needed, ListStraight;
      ghost var was := got;
      CaughtUp(objects, got, l, stream);
      Resize(|stream|);
      ghost var here := got;
      gained := FoldObjects(fold, l, stream);
      BringsOn([], gained, writer, was, here, got);
      assert [] + gained == gained;
      if l.vmx.Some? && l.later == [] {
        sums, tails := None, map[];
      }
    }

    /** Lets a new `.vmx` take the place of the segments folded; false when it counts other
        points, and the record is to be folded again. */
    method TakeOver(l: Listed, ghost stream: seq<seq<Block>>) returns (ok: bool)
      requires Valid() && Lists(l, stream)
      requires objects != map[] && NewlyIndexed(objects, l)
      modifies this`objects, this`tails, this`got
      ensures Valid() && Brings([], writer, old(got), got)
      ensures ok <==> sums.Some? && Adoptable(old(objects), old(tails), l.vmx.value.last) && CountsTell(old(got), l.vmx.value)
      ensures objects == if ok then Replaced(old(objects), l.vmx.value) else old(objects)
      ensures forall i: nat :: !ok || First(l.vmx) <= i ==> GotAt(got, i) == GotAt(old(got), i)
      ensures ok && HoldsSame(old(got), l.vmx.value) ==> forall i :: 0 <= i < First(l.vmx) ==> GotAt(got, i) == stream[i]
    {
      hide Brings, Counting, RollsUp, Adoptable, Lists, BlockOk, ObjectsRight, Replaced, CountsTell, HoldsSame;
      var vmx := l.vmx.value;
      ghost var was := got;
      ghost var n := if vmx.last < |got| then |got| else vmx.last + 1;
      ObjectsWithin(objects, got, n);
      Covers(l, stream);
      Resize(n);
      SameUpTo(was, got, vmx);
      ok := Adopted(vmx);
      if ok && HoldsSame(got, vmx) {
        ReplacedHolds(old(objects), vmx);
        ghost var here := got;
        ghost var nothing: seq<Shown> := [];
        Settle(vmx, stream);
        BringsOn(nothing, nothing, writer, was, here, got);
        assert nothing + nothing == nothing;
      }
    }

    /** What a `.vmx` covers is what was folded of it. */
    ghost method Settle(vmx: Vmx, stream: seq<seq<Block>>)
      requires Valid() && RollsUp(vmx, stream) && vmx.last < |got| && HoldsSame(got, vmx)
      requires forall i :: 0 <= i < |stream| ==> BlocksOk(stream[i])
      requires Indexed(vmx.last) in objects && forall o :: o in objects && o.Segment? ==> o.seq_ > vmx.last
      modifies this`got
      ensures Valid() && Brings([], writer, old(got), got) && got == Settled(old(got), vmx.last + 1, stream)
    {
      hide Brings, PartsMake, PartsTame, SumsRight, TailsRight, ObjectsRight, BlockOk, HoldsSame, Settled;
      assert vmx.last < |stream|;
      SettledRight(objects, tails, got, vmx, stream);
      SettledBrings(got, vmx, stream, writer, parts);
      if NoBlocks(got) { SettledEmpty(got, vmx, stream); }
      got := Settled(got, vmx.last + 1, stream);
    }

    /** Folds the writer's sums of an earlier state again, when its objects only grew since and
        no rewind known may hide their points. */
    method Replay(fold: LogFold, was: WriterState, l: Listed, ghost stream: seq<seq<Block>>) returns (ghost gained: seq<Shown>)
      requires Valid() && objects == map[] && got == []
      requires was != this && was.writer == writer && was.Valid()
      requires Lists(l, stream) && Follows(was.objects, was.got, l, stream)
      requires CellsOk(fold.State()) && Fits(fold.rewinds, stream, writer) && was.knew <= fold.rewinds
      modifies this, fold
      ensures Valid() && (knew == old(knew) || knew == was.knew) && Follows(objects, got, l, stream) && GrewOnly(objects, l)
      ensures Folds(old(fold.State()), fold.State(), gained) && Brings(gained, writer, [], got)
      ensures objects == map[] || objects == was.objects
    {
      hide Folds, Brings, PartsMake, PartsTame, SumsRight, TailsRight, BlockOk, RollsUp, ObjectsRight, Fits,
        CellsOk, PartsFoldable, Kinds, GrewOnly, Follows, Lists, BlocksOk, NoBlocks, TailsListed, MayBeSums, AppliedAll;
      gained := [];
      NothingGrew(l, stream);
      NothingNew(fold.State(), writer, got);
      if was.sums.None? || MayBeSums(fold.rewinds, was.sums.value) {
        return;
      }
      if !GrewOnly(was.objects, l) || NewlyIndexed(was.objects, l) {
        return;
      }
      GotInStream(was.objects, was.got, l, stream);
      MorePartsTame(was.knew, fold.rewinds, was.parts);
      PartsFit(fold.rewinds, was.parts, was.got, stream, writer);
      gained := ApplySums(fold, was.sums.value, writer, was.parts);
      ThenFolds(old(fold.State()), fold.State(), gained);
      SumsBring(gained, writer, was.parts, was.got);
      objects, points, sums, tails := was.objects, was.points, was.sums, was.tails;
      got, parts, knew := was.got, was.parts, was.knew;
    }
  }

  lemma FoldableTame(rewinds: set<Marker>, b: Block, writer: int)
    requires Plain(b) && Foldable(rewinds, b, writer)
    ensures Tame(rewinds, b)
  {
  }

  lemma PlainHasPoints(b: Block)
    requires Plain(b)
    ensures forall i :: 0 <= i < |b| ==> b[i].points != []
  {
  }

  lemma NoSumsRight()
    ensures SumsRight(map[], [])
  {
    forall k ensures SumRight(map[], k, PiecesFor([], k)) {
    }
  }

  lemma TameMore(knew: set<Marker>, rewinds: set<Marker>, ps: seq<Part>, p: Part)
    requires PartsTame(knew, ps) && Tame(rewinds, p.block)
    ensures PartsTame(knew + Needed(Straight(p.block), rewinds), ps + [p])
  {
    hide Plain, MayBe, Straight;
    var more := knew + Needed(Straight(p.block), rewinds);
    MorePartsTame(knew, more, ps);
    if !Straight(p.block) { MoreTame(rewinds, more, p.block); }
  }

  lemma NoPartsTame(rewinds: set<Marker>)
    ensures PartsTame(rewinds, [])
  {
  }

  /** The tail is of segments folded as such. */
  ghost predicate TailsListed(objects: map<Object, nat>, tails: map<nat, Counts>) {
    forall s :: s in tails ==> Segment(s) in objects
  }

  lemma NotedListed(objects: map<Object, nat>, tails: map<nat, Counts>, s: nat, c: Counts, kept: map<nat, Counts>,
                    after: map<Object, nat>)
    requires TailsListed(objects, tails) && Noted(tails[s := c], kept)
    requires after.Keys == objects.Keys + {Segment(s)}
    ensures TailsListed(after, kept)
  {
  }

  lemma NoTailsRight(objects: map<Object, nat>, got: seq<seq<Block>>)
    ensures NoBlocks(got) ==> TailsRight(objects, map[], got)
  {
  }

  lemma FoldsKeep(f: Fold, g: Fold, gained: seq<Shown>)
    requires Folds(f, g, gained)
    ensures CellsOk(g) && g.rewinds == f.rewinds
  {
  }

  lemma NothingGrew(l: Listed, stream: seq<seq<Block>>)
    ensures Follows(map[], [], l, stream) && GrewOnly(map[], l)
  {
  }

  lemma NothingCounted()
    ensures CountsOf(map[], []) && Positive(map[])
  {
    forall k ensures CountOf([], k) == 0 {
    }
  }

  lemma SegmentSize(objects: map<Object, nat>, got: seq<seq<Block>>, s: nat)
    requires ObjectsRight(objects, got) && s < |got|
    ensures Segment(s) in objects ==> objects[Segment(s)] == |got[s]|
  {
    if Segment(s) in objects { assert ObjectRight(objects, got, Segment(s)); }
  }

  lemma FooterBrought(gained: seq<Shown>, writer: int, was: seq<seq<Block>>, vmx: Vmx, stream: seq<seq<Block>>)
    requires BringsBlock(gained, writer, vmx.content) && NoBlocks(was) && RollsUp(vmx, stream)
    ensures Brings(gained, writer, was, FirstOf(stream, vmx.last + 1))
  {
    hide PointsOf, PointsIn;
    forall k ensures multiset(AllPoints(FirstOf(stream, vmx.last + 1), k)) == multiset(AllPoints(was, k)) + multiset(PointsOf(gained, writer, k)) {
      FirstsPoints(stream, vmx.last + 1, k);
      EmptyRest(was, 0, |was|, k);
      assert multiset(PointsOf(gained, writer, k)) == multiset(PointsIn(vmx.content, k));
      assert multiset(PointsIn(vmx.content, k)) == multiset(StreamPoints(stream, vmx.last + 1, k));
    }
  }

  lemma RolledUpContent(vmx: Vmx, stream: seq<seq<Block>>)
    requires RollsUp(vmx, stream)
    ensures PartsMake([Part(vmx.content, 0)], FirstOf(stream, vmx.last + 1)) && vmx.last < |stream| && ColsOk(vmx.content)
  {
    forall k ensures multiset(PartsPoints([Part(vmx.content, 0)], k)) == multiset(AllPoints(FirstOf(stream, vmx.last + 1), k)) {
      FirstsPoints(stream, vmx.last + 1, k);
      assert [] + [Part(vmx.content, 0)] == [Part(vmx.content, 0)];
      PartsNext([], Part(vmx.content, 0), k);
    }
  }

  lemma OneIndexed(objects: map<Object, nat>, vmx: Vmx, stream: seq<seq<Block>>)
    requires objects == map[Indexed(vmx.last) := vmx.size] && vmx.last < |stream|
    ensures ObjectsRight(objects, FirstOf(stream, vmx.last + 1))
    ensures TailsRight(objects, map[], FirstOf(stream, vmx.last + 1))
  {
    var got := FirstOf(stream, vmx.last + 1);
    assert Indexed(vmx.last) in objects;
    forall i | 0 <= i < |got| && got[i] != [] ensures HeldIn(objects, i) {
      assert Indexed(vmx.last).Holds(i);
    }
    forall s | 0 <= s < |got| && got[s] != [] ensures NotedOrPast(objects, map[], s) {
      assert CoveredIn(objects, s);
    }
  }

  lemma TailFoldable(rewinds: set<Marker>, l: Listed, stream: seq<seq<Block>>, s: nat, from: nat, writer: int)
    requires Lists(l, stream) && Readable(rewinds, l) && Fits(rewinds, stream, writer) && First(l.vmx) <= s < |stream|
    requires from <= |stream[s]|
    ensures var tail := stream[s][from..];
            && BlocksOk(tail) && AllPlain(tail)
            && forall i :: 0 <= i < |tail| ==> Foldable(rewinds, tail[i], writer)
  {
    hide Fits, Foldable, Plain, PointsIn, BlocksPoints;
    var tail := stream[s][from..];
    assert stream[s] == l.later[s - First(l.vmx)] && AllTame(rewinds, stream[s]) && BlocksOk(stream[s]);
    forall i | 0 <= i < |tail| ensures Plain(tail[i]) && Foldable(rewinds, tail[i], writer) {
      assert tail[i] == stream[s][from + i] && Tame(rewinds, tail[i]);
      forall k ensures multiset(PointsIn(tail[i], k)) <= multiset(AllPoints(stream, k)) {
        BlockWithin(stream[s], from + i, k);
        SegmentWithin(stream, |stream|, s, k);
      }
      WithinFoldable(rewinds, tail[i], stream, writer);
    }
  }

  lemma ResizedBrings(got: seq<seq<Block>>, n: nat, writer: int, ps: seq<Part>)
    requires forall i :: n <= i < |got| ==> got[i] == []
    ensures Brings([], writer, got, Resized(got, n)) && Brings([], writer, Resized(got, n), got)
    ensures PartsMake(ps, got) ==> PartsMake(ps, Resized(got, n))
  {
    forall k ensures AllPoints(Resized(got, n), k) == AllPoints(got, k) && PointsOf([], writer, k) == [] { ResizedPoints(got, n, k); }
  }

  /** Objects that only grew: each segment folded is a first part of the listed one, all of
      it where a `.vmx` covers it. */
  lemma CaughtUp(objects: map<Object, nat>, got: seq<seq<Block>>, l: Listed, stream: seq<seq<Block>>)
    requires ObjectsRight(objects, got) && Lists(l, stream) && Follows(objects, got, l, stream) && GrewOnly(objects, l)
    ensures forall i :: |stream| <= i < |got| ==> got[i] == []
    ensures forall o :: o in objects ==> o.Last() < |stream|
    ensures forall i :: 0 <= i < |stream| ==> GotAt(got, i) <= stream[i]
    ensures forall i :: First(l.vmx) <= i < |got| && got[i] != [] ==> Segment(i) in objects
    ensures l.vmx.Some? && Indexed(l.vmx.value.last) in objects ==> forall i :: 0 <= i < First(l.vmx) ==> GotAt(got, i) == stream[i]
    ensures AtListing(objects, l)
  {
    hide RollsUp, BlocksOk;
    forall i: nat | i < |got| && got[i] != []
      ensures i < |stream| && got[i] <= stream[i] && (First(l.vmx) <= i ==> Segment(i) in objects)
    {
      assert HeldIn(objects, i);
      var o :| o in objects && o.Holds(i);
      assert ObjectRight(objects, got, o);
      if o.Segment? { assert l.later[i - First(l.vmx)] == stream[i]; }
    }
  }

  /** So does what was folded hold no point the stream does not. */
  lemma GotInStream(objects: map<Object, nat>, got: seq<seq<Block>>, l: Listed, stream: seq<seq<Block>>)
    requires ObjectsRight(objects, got) && Lists(l, stream) && Follows(objects, got, l, stream) && GrewOnly(objects, l)
    ensures forall k :: multiset(AllPoints(got, k)) <= multiset(AllPoints(stream, k))
  {
    hide ObjectsRight, Lists, Follows, GrewOnly;
    CaughtUp(objects, got, l, stream);
    forall k ensures multiset(AllPoints(got, k)) <= multiset(AllPoints(stream, k)) {
      ResizedPoints(got, |stream|, k);
      GotWithin(Resized(got, |stream|), stream, |stream|, k);
    }
  }

  lemma OnlyIndexed(objects: map<Object, nat>, l: Listed)
    requires GrewOnly(objects, l) && NewlyIndexed(objects, l)
    ensures objects == map[]
  {
    var i := Indexed(l.vmx.value.last);
    assert forall o :: o in objects ==> o == i || i in objects;
  }

  lemma ThenFolds(f: Fold, g: Fold, gained: seq<Shown>)
    requires g == AppliedAll(f, Entries(gained)) && g.rewinds == f.rewinds && CellsOk(g)
    ensures Folds(f, g, gained)
  {
  }

  lemma FooterWithin(vmx: Vmx, stream: seq<seq<Block>>, k: Name)
    requires RollsUp(vmx, stream)
    ensures multiset(PointsIn(vmx.content, k)) <= multiset(AllPoints(stream, k))
  {
    hide PointsIn, StreamPoints;
    assert multiset(PointsIn(vmx.content, k)) == multiset(StreamPoints(stream, vmx.last + 1, k));
    FirstWithin(stream, vmx.last + 1, |stream|, k);
  }

  lemma FooterFoldable(rewinds: set<Marker>, l: Listed, stream: seq<seq<Block>>, writer: int)
    requires Lists(l, stream) && Readable(rewinds, l) && Fits(rewinds, stream, writer) && l.vmx.Some?
    ensures Foldable(rewinds, l.vmx.value.content, writer) && Plain(l.vmx.value.content)
  {
    hide Fits, Foldable, Plain, PointsIn, AllPoints, AllTame, RollsUp, BlocksOk, MayBe, Straight;
    var vmx := l.vmx.value;
    forall k ensures multiset(PointsIn(vmx.content, k)) <= multiset(AllPoints(stream, k)) {
      FooterWithin(vmx, stream, k);
    }
    WithinFoldable(rewinds, vmx.content, stream, writer);
  }

  lemma ObjectsWithin(objects: map<Object, nat>, got: seq<seq<Block>>, n: nat)
    requires ObjectsRight(objects, got) && |got| <= n
    ensures forall o :: o in objects ==> o.Last() < n
  {
    forall o | o in objects ensures o.Last() < n { assert ObjectRight(objects, got, o); }
  }

  lemma ReplacedHolds(objects: map<Object, nat>, vmx: Vmx)
    ensures var now := Replaced(objects, vmx);
            Indexed(vmx.last) in now && forall o :: o in now && o.Segment? ==> o.seq_ > vmx.last
  {
  }

  lemma SameUpTo(was: seq<seq<Block>>, got: seq<seq<Block>>, vmx: Vmx)
    requires forall i: nat :: GotAt(got, i) == GotAt(was, i)
    ensures CountsTell(got, vmx) <==> CountsTell(was, vmx)
    ensures HoldsSame(got, vmx) <==> HoldsSame(was, vmx)
  {
    hide PointsIn, StreamPoints;
    assert Resized(got, vmx.last + 1) == Resized(was, vmx.last + 1);
  }

  /** The first `n` segments as in the stream. */
  function Settled(got: seq<seq<Block>>, n: nat, stream: seq<seq<Block>>): (r: seq<seq<Block>>)
    requires n <= |got| && n <= |stream|
    ensures |r| == |got| && forall i :: 0 <= i < |got| ==> r[i] == if i < n then stream[i] else got[i]
  {
    stream[..n] + got[n..]
  }

  lemma SettledRight(objects: map<Object, nat>, tails: map<nat, Counts>, got: seq<seq<Block>>, vmx: Vmx,
                     stream: seq<seq<Block>>)
    requires ObjectsRight(objects, got) && TailsListed(objects, tails) && vmx.last < |got| && vmx.last < |stream|
    requires Indexed(vmx.last) in objects && forall o :: o in objects && o.Segment? ==> o.seq_ > vmx.last
    ensures ObjectsRight(objects, Settled(got, vmx.last + 1, stream))
    ensures TailsRight(objects, tails, got) ==> TailsRight(objects, tails, Settled(got, vmx.last + 1, stream))
  {
    var now := Settled(got, vmx.last + 1, stream);
    forall o | o in objects ensures ObjectRight(objects, now, o) {
      assert ObjectRight(objects, got, o);
    }
    forall i | 0 <= i < |now| && now[i] != [] ensures HeldIn(objects, i) {
      if i <= vmx.last { assert Indexed(vmx.last).Holds(i); }
    }
    if TailsRight(objects, tails, got) {
      forall s | s in tails ensures TailRight(tails, now, s) {
        assert Segment(s) in objects && TailRight(tails, got, s);
      }
      forall s | 0 <= s < |now| && now[s] != [] ensures NotedOrPast(objects, tails, s) {
        if s <= vmx.last { assert CoveredIn(objects, s); }
      }
    }
  }

  lemma JoinedSame<T>(a: seq<T>, b: seq<T>, c: seq<T>)
    requires multiset(a) == multiset(b)
    ensures multiset(a + c) == multiset(b + c)
  {
  }

  lemma {:induction false} SettledPoints(got: seq<seq<Block>>, now: seq<seq<Block>>, n: nat, m: nat, k: Name)
    requires n <= m <= |got| == |now| && forall i :: n <= i < m ==> now[i] == got[i]
    requires multiset(StreamPoints(now, n, k)) == multiset(StreamPoints(got, n, k))
    ensures multiset(StreamPoints(now, m, k)) == multiset(StreamPoints(got, m, k))
  {
    hide StreamPoints, BlocksPoints;
    if m > n {
      SettledPoints(got, now, n, m - 1, k);
      StreamNext(now, m, k);
      StreamNext(got, m, k);
      JoinedSame(StreamPoints(now, m - 1, k), StreamPoints(got, m - 1, k), BlocksPoints(got[m - 1], k));
    }
  }

  lemma SettledSame(got: seq<seq<Block>>, vmx: Vmx, stream: seq<seq<Block>>, k: Name)
    requires vmx.last < |got| && vmx.last < |stream| && RollsUp(vmx, stream) && HoldsSame(got, vmx)
    ensures multiset(AllPoints(Settled(got, vmx.last + 1, stream), k)) == multiset(AllPoints(got, k))
  {
    hide StreamPoints, PointsIn, PointsUpTo;
    var now := Settled(got, vmx.last + 1, stream);
    assert now[..vmx.last + 1] == stream[..vmx.last + 1];
    SameStart(now, stream, vmx.last + 1, k);
    UpToIs(got, vmx.last + 1, k);
    assert multiset(PointsIn(vmx.content, k)) == multiset(PointsUpTo(got, vmx.last + 1, k));
    SettledPoints(got, now, vmx.last + 1, |got|, k);
  }

  lemma SettledBrings(got: seq<seq<Block>>, vmx: Vmx, stream: seq<seq<Block>>, writer: int, ps: seq<Part>)
    requires vmx.last < |got| && vmx.last < |stream| && RollsUp(vmx, stream) && HoldsSame(got, vmx)
    ensures var now := Settled(got, vmx.last + 1, stream);
            Brings([], writer, got, now) && (PartsMake(ps, got) ==> PartsMake(ps, now))
  {
    hide AllPoints, RollsUp, HoldsSame, Settled;
    forall k ensures multiset(AllPoints(Settled(got, vmx.last + 1, stream), k)) == multiset(AllPoints(got, k))
             ensures PointsOf([], writer, k) == []
    {
      SettledSame(got, vmx, stream, k);
    }
  }

  /** Nothing folded: nothing rolled up either. */
  lemma SettledEmpty(got: seq<seq<Block>>, vmx: Vmx, stream: seq<seq<Block>>)
    requires vmx.last < |got| && RollsUp(vmx, stream) && HoldsSame(got, vmx) && NoBlocks(got)
    requires forall i :: 0 <= i < |stream| ==> BlocksOk(stream[i])
    ensures Settled(got, vmx.last + 1, stream) == got
  {
    hide BlocksPoints;
    forall k ensures PointsIn(vmx.content, k) == [] {
      UpToIs(got, vmx.last + 1, k);
      EmptyRest(got, 0, vmx.last + 1, k);
      assert multiset(PointsIn(vmx.content, k)) == multiset{};
    }
    if vmx.content != [] { KeyIn(vmx.content, 0); }
    EmptyFooter(vmx, stream);
  }

  lemma Covers(l: Listed, stream: seq<seq<Block>>)
    requires Lists(l, stream) && l.vmx.Some?
    ensures RollsUp(l.vmx.value, stream) && l.vmx.value.last < |stream|
    ensures forall i :: 0 <= i < |stream| ==> BlocksOk(stream[i])
  {
  }

  lemma SumsBring(gained: seq<Shown>, writer: int, ps: seq<Part>, got: seq<seq<Block>>)
    requires OnlyStreams(gained, writer) && (forall k :: PointsOf(gained, writer, k) == PartsPoints(ps, k)) && PartsMake(ps, got)
    ensures Brings(gained, writer, [], got)
  {
    forall k ensures multiset(AllPoints(got, k)) == multiset(AllPoints([], k)) + multiset(PointsOf(gained, writer, k)) {
      assert multiset(PartsPoints(ps, k)) == multiset(AllPoints(got, k));
    }
  }
}

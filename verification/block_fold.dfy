/**
 Folding blocks of metric streams into a record (`fold_blocks`, and the accumulated sums of
 `fold_sums`): a block by its header, or point by point when a known rewind may hide some
 of them; a writer's sums all at once.

 `BlockFoldsPoints`: either way a block folds to what its visible points do, provided the
 rewinds it is asked about are noticed and, unless it is folded point by point, the first
 and last point of each key are so in string order (`Foldable`). So a block folded by its
 header and point by point, all keys of it, is the same but for places (`HeaderIsBlock`), and
 so are blocks and the one block they are rolled up to (`RolledUpFoldsAlike`).
 */
module BlockFold {
  import opened Fold
  import opened FoldSums
  import opened RecordFold

  // -------------------------------------------------------------------------- blocks

  /** A key of a block and its points. */
  datatype Col = Col(key: Name, points: seq<Point>)

  type Block = seq<Col>

  /** Every key has points, and is there once. */
  ghost predicate ColsOk(b: Block) {
    && (forall i :: 0 <= i < |b| ==> b[i].points != [])
    && (forall i, j :: 0 <= i < j < |b| ==> b[i].key != b[j].key)
  }

  /** The points of a key. */
  function PointsIn(b: Block, k: Name): seq<Point> {
    if b == [] then []
    else PointsIn(b[..|b| - 1], k) + if b[|b| - 1].key == k then b[|b| - 1].points else []
  }

  /** How many positions a block takes: one per point. */
  function BlockPoints(b: Block): nat {
    if b == [] then 0 else BlockPoints(b[..|b| - 1]) + |b[|b| - 1].points|
  }

  lemma {:induction false} SomePoints(b: Block)
    requires ColsOk(b)
    ensures BlockPoints(b) == 0 <==> b == []
  {
    if b != [] { SomePoints(b[..|b| - 1]); }
  }

  /** A key's part of the block's header. */
  function HeaderOf(c: Col, base: nat): KeyEntry
    requires c.points != []
  {
    Header(c.points, Places(base, |c.points|))
  }

  /** Whether a known rewind may hide points of the block, as its header tells. */
  predicate MayBe(rewinds: set<Marker>, b: Block) {
    exists i :: 0 <= i < |b| && b[i].points != [] && MayBeRewound(MarksOf(rewinds), HeaderOf(b[i], 0))
  }

  /** In string order too each key's first point is first and its last one last. */
  ghost predicate Straight(b: Block) {
    forall i :: 0 <= i < |b| ==> b[i].points != [] && EndsSorted(b[i].points)
  }

  /** What folding the block needs of the points of each key: rewinds are noticed and never
      tie; and unless it is folded point by point its ends are sorted. */
  ghost predicate Foldable(rewinds: set<Marker>, b: Block, writer: int) {
    && (forall i :: 0 <= i < |b| ==>
          && b[i].points != []
          && Noticed(rewinds, b[i].points, writer) && UntiedPoints(rewinds, b[i].points, writer))
    && (MayBe(rewinds, b) || Straight(b))
  }

  // ------------------------------------------------------------------ by the header

  /** `apply_header`: each key by its summary. */
  function HeaderApplied(f: Fold, b: Block, base: nat, writer: int): Fold {
    if b == [] then f
    else
      var g, c := HeaderApplied(f, b[..|b| - 1], base, writer), b[|b| - 1];
      if c.points == [] then g else KeyApplied(g, BaseKey(c.key), HeaderOf(c, base), writer)
  }

  /** The points of a block, key by key. */
  function HeaderStreams(b: Block, base: nat, writer: int): seq<Shown> {
    if b == [] then []
    else
      var c := b[|b| - 1];
      HeaderStreams(b[..|b| - 1], base, writer) + StreamsOf(c.key, writer, c.points, Places(base, |c.points|))
  }

  // ------------------------------------------------------------------ point by point

  datatype Taken = Taken(key: Name, p: Point)

  function OfCol(c: Col): (ts: seq<Taken>)
    ensures |ts| == |c.points|
  {
    seq(|c.points|, i requires 0 <= i < |c.points| => Taken(c.key, c.points[i]))
  }

  function AllTaken(b: Block): seq<Taken> {
    if b == [] then [] else AllTaken(b[..|b| - 1]) + OfCol(b[|b| - 1])
  }

  /** Put after the points no later than it. */
  function InsertByTime(ts: seq<Taken>, t: Taken): seq<Taken> {
    if ts == [] || ts[|ts| - 1].p.us <= t.p.us then ts + [t]
    else InsertByTime(ts[..|ts| - 1], t) + [ts[|ts| - 1]]
  }

  /** The points by time, those of one time in the order they were (`sorted`). */
  function ByTime(ts: seq<Taken>): seq<Taken> {
    if ts == [] then [] else InsertByTime(ByTime(ts[..|ts| - 1]), ts[|ts| - 1])
  }

  function KeyTaken(ts: seq<Taken>, k: Name): seq<Point> {
    if ts == [] then []
    else
      var rest, t := KeyTaken(ts[..|ts| - 1], k), ts[|ts| - 1];
      if t.key == k then rest + [t.p] else rest
  }

  function Placed(ts: seq<Taken>, base: nat, writer: int): (a: seq<Shown>)
    ensures |a| == |ts|
  {
    seq(|ts|, i requires 0 <= i < |ts| => Streams(ts[i].key, writer, ts[i].p, base + i))
  }

  /** The points of a block by time, each at the next place. */
  function PointStreams(b: Block, base: nat, writer: int): seq<Shown> { Placed(ByTime(AllTaken(b)), base, writer) }

  /** `_fold_block`: by the header, or point by point when a rewind may hide some. */
  function BlockFolded(f: Fold, b: Block, base: nat, writer: int): Fold {
    if MayBe(f.rewinds, b) then AppliedAll(f, Entries(PointStreams(b, base, writer)))
    else HeaderApplied(f, b, base, writer)
  }

  /** What was folded of a block. */
  function BlockStreams(rewinds: set<Marker>, b: Block, base: nat, writer: int): seq<Shown> {
    if MayBe(rewinds, b) then PointStreams(b, base, writer) else HeaderStreams(b, base, writer)
  }

  // --------------------------------------------------------------- the points of both

  /** Nothing but points of `writer`. */
  ghost predicate OnlyStreams(a: seq<Shown>, writer: int) {
    forall i :: 0 <= i < |a| ==> a[i].Streams? && a[i].writer == writer
  }

  lemma {:induction false} OnlyStreamsParts(a: seq<Shown>, writer: int, w: int, k: Name)
    requires OnlyStreams(a, writer)
    ensures LogPart(a) == [] && (w != writer ==> PointsOf(a, w, k) == [])
  {
    if a != [] { OnlyStreamsParts(a[..|a| - 1], writer, w, k); }
  }

  lemma {:induction false} StreamsHold(key: Name, writer: int, points: seq<Point>, places: seq<nat>, k: Name)
    requires |points| == |places|
    ensures PointsOf(StreamsOf(key, writer, points, places), writer, k) == if k == key then points else []
  {
    if points != [] {
      var m := |points| - 1;
      StreamsHold(key, writer, points[..m], places[..m], k);
      StreamsLast(key, writer, points, places);
      assert points[..m] + [points[m]] == points;
    }
  }

  lemma {:induction false} HeaderStreamsHold(b: Block, base: nat, writer: int, k: Name)
    ensures OnlyStreams(HeaderStreams(b, base, writer), writer)
    ensures PointsOf(HeaderStreams(b, base, writer), writer, k) == PointsIn(b, k)
  {
    if b != [] {
      var init, c := b[..|b| - 1], b[|b| - 1];
      HeaderStreamsHold(init, base, writer, k);
      StreamsHold(c.key, writer, c.points, Places(base, |c.points|), k);
      PartsJoined(HeaderStreams(init, base, writer), StreamsOf(c.key, writer, c.points, Places(base, |c.points|)), writer, k);
    }
  }

  lemma {:induction false} TakenJoined(a: seq<Taken>, b: seq<Taken>, k: Name)
    ensures KeyTaken(a + b, k) == KeyTaken(a, k) + KeyTaken(b, k)
  {
    if b == [] {
      assert a + b == a;
    } else {
      TakenJoined(a, b[..|b| - 1], k);
      assert (a + b)[..|a + b| - 1] == a + b[..|b| - 1];
    }
  }

  lemma {:induction false} ColTaken(c: Col, k: Name)
    ensures KeyTaken(OfCol(c), k) == if k == c.key then c.points else []
    decreases |c.points|
  {
    if c.points != [] {
      var m := |c.points| - 1;
      var init := Col(c.key, c.points[..m]);
      ColTaken(init, k);
      assert OfCol(c)[..m] == OfCol(init);
      assert c.points[..m] + [c.points[m]] == c.points;
    }
  }

  lemma {:induction false} AllTakenHold(b: Block, k: Name)
    ensures KeyTaken(AllTaken(b), k) == PointsIn(b, k)
  {
    if b != [] {
      AllTakenHold(b[..|b| - 1], k);
      ColTaken(b[|b| - 1], k);
      TakenJoined(AllTaken(b[..|b| - 1]), OfCol(b[|b| - 1]), k);
    }
  }

  lemma {:induction false} InsertKeeps(ts: seq<Taken>, t: Taken, k: Name)
    ensures multiset(KeyTaken(InsertByTime(ts, t), k)) == multiset(KeyTaken(ts, k)) + if t.key == k then multiset{t.p} else multiset{}
  {
    if ts == [] || ts[|ts| - 1].p.us <= t.p.us {
      assert (ts + [t])[..|ts|] == ts;
    } else {
      var init, last := ts[..|ts| - 1], ts[|ts| - 1];
      InsertKeeps(init, t, k);
      var now := InsertByTime(init, t);
      assert (now + [last])[..|now|] == now;
    }
  }

  /** Sorting by time loses no point of a key. */
  lemma {:induction false} ByTimeKeeps(ts: seq<Taken>, k: Name)
    ensures multiset(KeyTaken(ByTime(ts), k)) == multiset(KeyTaken(ts, k))
  {
    if ts != [] {
      ByTimeKeeps(ts[..|ts| - 1], k);
      InsertKeeps(ByTime(ts[..|ts| - 1]), ts[|ts| - 1], k);
    }
  }

  ghost predicate InTime(ts: seq<Taken>) { forall i, j :: 0 <= i < j < |ts| ==> ts[i].p.us <= ts[j].p.us }

  lemma {:induction false} InsertSorts(ts: seq<Taken>, t: Taken)
    requires InTime(ts)
    ensures InTime(InsertByTime(ts, t)) && forall x :: x in InsertByTime(ts, t) <==> x in ts || x == t
  {
    if ts == [] || ts[|ts| - 1].p.us <= t.p.us {
      assert forall x :: x in ts + [t] <==> x in ts || x == t;
      assert InsertByTime(ts, t) == ts + [t];
    } else {
      var init, last := ts[..|ts| - 1], ts[|ts| - 1];
      InsertSorts(init, t);
      var now := InsertByTime(init, t);
      assert InsertByTime(ts, t) == now + [last];
      assert forall x :: x in now + [last] <==> x in now || x == last;
      assert forall x :: x in ts <==> x in init || x == last;
      forall i | 0 <= i < |now| ensures now[i].p.us <= last.p.us { assert now[i] in now; }
    }
  }

  /** Points are folded in order of time. */
  lemma {:induction false} ByTimeSorts(ts: seq<Taken>)
    ensures InTime(ByTime(ts))
  {
    if ts != [] {
      ByTimeSorts(ts[..|ts| - 1]);
      InsertSorts(ByTime(ts[..|ts| - 1]), ts[|ts| - 1]);
    }
  }

  lemma {:induction false} PlacedHold(ts: seq<Taken>, base: nat, writer: int, k: Name)
    ensures OnlyStreams(Placed(ts, base, writer), writer) && PointsOf(Placed(ts, base, writer), writer, k) == KeyTaken(ts, k)
  {
    if ts != [] {
      var m := |ts| - 1;
      PlacedHold(ts[..m], base, writer, k);
      assert Placed(ts, base, writer)[..m] == Placed(ts[..m], base, writer);
    }
  }

  lemma PointStreamsHold(b: Block, base: nat, writer: int, k: Name)
    ensures OnlyStreams(PointStreams(b, base, writer), writer)
    ensures multiset(PointsOf(PointStreams(b, base, writer), writer, k)) == multiset(PointsIn(b, k))
  {
    AllTakenHold(b, k);
    ByTimeKeeps(AllTaken(b), k);
    PlacedHold(ByTime(AllTaken(b)), base, writer, k);
  }

  lemma {:induction false} TakenSize(b: Block)
    ensures |AllTaken(b)| == BlockPoints(b)
  {
    if b != [] { TakenSize(b[..|b| - 1]); }
  }

  lemma {:induction false} ByTimeSize(ts: seq<Taken>)
    ensures |ByTime(ts)| == |ts|
  {
    if ts != [] {
      ByTimeSize(ts[..|ts| - 1]);
      InsertSize(ByTime(ts[..|ts| - 1]), ts[|ts| - 1]);
    }
  }

  lemma {:induction false} InsertSize(ts: seq<Taken>, t: Taken)
    ensures |InsertByTime(ts, t)| == |ts| + 1
  {
    if ts != [] && ts[|ts| - 1].p.us > t.p.us { InsertSize(ts[..|ts| - 1], t); }
  }

  /** Point by point, a block's points take the places from `base` on, one each. */
  lemma PlacesTaken(b: Block, base: nat, writer: int)
    ensures var a := PointStreams(b, base, writer);
            |a| == BlockPoints(b) && forall i :: 0 <= i < |a| ==> a[i].Streams? && a[i].place == base + i
  {
    TakenSize(b);
    ByTimeSize(AllTaken(b));
  }

  /** Either way just the block's points are folded. */
  lemma BlockStreamsHold(rewinds: set<Marker>, b: Block, base: nat, writer: int, k: Name)
    ensures OnlyStreams(BlockStreams(rewinds, b, base, writer), writer)
    ensures multiset(PointsOf(BlockStreams(rewinds, b, base, writer), writer, k)) == multiset(PointsIn(b, k))
  {
    PointStreamsHold(b, base, writer, k);
    HeaderStreamsHold(b, base, writer, k);
  }

  lemma {:induction false} CellsStayOk(f: Fold, xs: seq<Keyed>)
    requires CellsOk(f)
    ensures CellsOk(AppliedAll(f, xs))
  {
    if xs != [] {
      CellsStayOk(f, xs[..|xs| - 1]);
      FoldedKeepsOk(AppliedAll(f, xs[..|xs| - 1]), xs[|xs| - 1].entry.kind, xs[|xs| - 1].key);
    }
  }

  lemma KeyKeepsOk(f: Fold, n: Name, e: KeyEntry, writer: int)
    requires CellsOk(f) && EntryOk(e)
    ensures CellsOk(KeyApplied(f, n, e, writer)) && KeyApplied(f, n, e, writer).rewinds == f.rewinds
  {
    KeyAppliedOk(f, n, e, writer);
  }

  lemma OneColFolds(f: Fold, c: Col, base: nat, writer: int)
    requires CellsOk(f) && c.points != [] && EndsSorted(c.points)
    requires Noticed(f.rewinds, c.points, writer) && UntiedPoints(f.rewinds, c.points, writer)
    requires !MayBeRewound(MarksOf(f.rewinds), HeaderOf(c, 0))
    ensures var g := KeyApplied(f, BaseKey(c.key), HeaderOf(c, base), writer);
            && g == AppliedAll(f, Entries(StreamsOf(c.key, writer, c.points, Places(base, |c.points|))))
            && CellsOk(g) && g.rewinds == f.rewinds
  {
    var places := Places(base, |c.points|);
    HeaderOk(c.points, places);
    KeyKeepsOk(f, BaseKey(c.key), HeaderOf(c, base), writer);
    NoneHidden(f.rewinds, c.key, writer, c.points, places);
    HeaderFoldsPoints(f, c.key, writer, c.points, places);
  }

  lemma {:induction false} HeaderFolds(f: Fold, b: Block, base: nat, writer: int)
    requires CellsOk(f) && Foldable(f.rewinds, b, writer) && !MayBe(f.rewinds, b)
    ensures var g := HeaderApplied(f, b, base, writer);
            g == AppliedAll(f, Entries(HeaderStreams(b, base, writer))) && CellsOk(g) && g.rewinds == f.rewinds
  {
    hide KeyApplied, Noticed, UntiedPoints, EndsSorted, HeaderOf, MayBeRewound, CellsOk, Applied;
    if b != [] {
      var m := |b| - 1;
      var init, c := b[..m], b[m];
      assert forall i :: 0 <= i < m ==> init[i] == b[i];
      HeaderFolds(f, init, base, writer);
      OneColFolds(HeaderApplied(f, init, base, writer), c, base, writer);
      var a, s := HeaderStreams(init, base, writer), StreamsOf(c.key, writer, c.points, Places(base, |c.points|));
      EntriesJoined(a, s);
      AppliedOn(f, Entries(a), Entries(s));
    } else {
      NothingApplied(f);
    }
  }

  /** A block folds to what its points do, at places of its own. */
  lemma BlockFoldsPoints(f: Fold, b: Block, base: nat, writer: int)
    requires CellsOk(f) && Foldable(f.rewinds, b, writer)
    ensures BlockFolded(f, b, base, writer) == AppliedAll(f, Entries(BlockStreams(f.rewinds, b, base, writer)))
    ensures CellsOk(BlockFolded(f, b, base, writer)) && BlockFolded(f, b, base, writer).rewinds == f.rewinds
  {
    if MayBe(f.rewinds, b) {
      PointStreamsHold(b, base, writer, "");
      StreamsTeachNothing(f, PointStreams(b, base, writer), writer);
      CellsStayOk(f, Entries(PointStreams(b, base, writer)));
    } else {
      HeaderFolds(f, b, base, writer);
    }
  }

  /** Points teach a fold no rewind. */
  lemma {:induction false} StreamsTeachNothing(f: Fold, a: seq<Shown>, writer: int)
    requires OnlyStreams(a, writer)
    ensures SameLogFields(AppliedAll(f, Entries(a)), f)
  {
    LogsAlone(f, a);
    OnlyStreamsParts(a, writer, writer, "");
  }

  // ---------------------------------------------------------------- blocks in a row

  /** A block, or a footer taken for one, and the position it was folded at. */
  datatype Part = Part(block: Block, base: nat)

  function PartsFolded(f: Fold, ps: seq<Part>, writer: int): Fold {
    if ps == [] then f
    else BlockFolded(PartsFolded(f, ps[..|ps| - 1], writer), ps[|ps| - 1].block, ps[|ps| - 1].base, writer)
  }

  function PartsStreams(rewinds: set<Marker>, ps: seq<Part>, writer: int): seq<Shown> {
    if ps == [] then []
    else PartsStreams(rewinds, ps[..|ps| - 1], writer) + BlockStreams(rewinds, ps[|ps| - 1].block, ps[|ps| - 1].base, writer)
  }

  /** The points of a key among the blocks. */
  function PartsPoints(ps: seq<Part>, k: Name): seq<Point> {
    if ps == [] then [] else PartsPoints(ps[..|ps| - 1], k) + PointsIn(ps[|ps| - 1].block, k)
  }

  ghost predicate PartsFoldable(rewinds: set<Marker>, ps: seq<Part>, writer: int) {
    forall i :: 0 <= i < |ps| ==> Foldable(rewinds, ps[i].block, writer)
  }

  lemma {:induction false} PartsStreamsHold(rewinds: set<Marker>, ps: seq<Part>, writer: int, k: Name)
    ensures OnlyStreams(PartsStreams(rewinds, ps, writer), writer)
    ensures multiset(PointsOf(PartsStreams(rewinds, ps, writer), writer, k)) == multiset(PartsPoints(ps, k))
  {
    if ps != [] {
      var init, p := ps[..|ps| - 1], ps[|ps| - 1];
      PartsStreamsHold(rewinds, init, writer, k);
      BlockStreamsHold(rewinds, p.block, p.base, writer, k);
      PartsJoined(PartsStreams(rewinds, init, writer), BlockStreams(rewinds, p.block, p.base, writer), writer, k);
    }
  }

  lemma {:induction false} PartsFoldPoints(f: Fold, ps: seq<Part>, writer: int)
    requires CellsOk(f) && PartsFoldable(f.rewinds, ps, writer)
    ensures var g := PartsFolded(f, ps, writer);
            g == AppliedAll(f, Entries(PartsStreams(f.rewinds, ps, writer))) && CellsOk(g) && g.rewinds == f.rewinds
  {
    hide BlockFolded, BlockStreams, Foldable, CellsOk, Applied;
    if ps != [] {
      var init, p := ps[..|ps| - 1], ps[|ps| - 1];
      PartsFoldPoints(f, init, writer);
      BlockFoldsPoints(PartsFolded(f, init, writer), p.block, p.base, writer);
      var a, b := PartsStreams(f.rewinds, init, writer), BlockStreams(f.rewinds, p.block, p.base, writer);
      EntriesJoined(a, b);
      AppliedOn(f, Entries(a), Entries(b));
    } else {
      NothingApplied(f);
    }
  }

  /** Blocks holding the same points per key, cut and placed in whatever ways, fold into the
      same record to the same but for places: the ones folded and what they are rolled up to. */
  lemma RolledUpFoldsAlike(rewinds: set<Marker>, before: seq<Shown>, ps: seq<Part>, qs: seq<Part>, writer: int)
    requires PartsFoldable(rewinds, ps, writer) && PartsFoldable(rewinds, qs, writer)
    requires forall k :: multiset(PartsPoints(ps, k)) == multiset(PartsPoints(qs, k))
    requires DistinctKeys(LogPart(before)) && Markers(LogPart(before)) <= rewinds
    requires Apart(rewinds, before + PartsStreams(rewinds, qs, writer))
    ensures var f := AppliedAll(NewFold(rewinds), Entries(before));
            SameFold(PartsFolded(f, ps, writer), PartsFolded(f, qs, writer))
  {
    var f := AppliedAll(NewFold(rewinds), Entries(before));
    var a, b := PartsStreams(rewinds, ps, writer), PartsStreams(rewinds, qs, writer);
    MarkersAreLogs(before);
    RewindsKnown(rewinds, Entries(before));
    CellsStayOk(NewFold(rewinds), Entries(before));
    PartsFoldPoints(f, ps, writer);
    PartsFoldPoints(f, qs, writer);
    EntriesJoined(before, a);
    EntriesJoined(before, b);
    AppliedOn(NewFold(rewinds), Entries(before), Entries(a));
    AppliedOn(NewFold(rewinds), Entries(before), Entries(b));
    hide *;
    SameWithStreams(before, a, b, writer, rewinds, ps, qs);
    SameShown(rewinds, before + a, before + b);
  }

  lemma SameWithStreams(before: seq<Shown>, a: seq<Shown>, b: seq<Shown>, writer: int,
                        rewinds: set<Marker>, ps: seq<Part>, qs: seq<Part>)
    requires a == PartsStreams(rewinds, ps, writer) && b == PartsStreams(rewinds, qs, writer)
    requires forall k :: multiset(PartsPoints(ps, k)) == multiset(PartsPoints(qs, k))
    ensures SameParts(before + a, before + b) && LogPart(before + b) == LogPart(before)
  {
    hide PartsStreams, LogPart, PointsOf, OnlyStreams;
    forall w, k ensures multiset(PointsOf(before + a, w, k)) == multiset(PointsOf(before + b, w, k))
                ensures LogPart(before + a) == LogPart(before) && LogPart(before + b) == LogPart(before)
    {
      PartsStreamsHold(rewinds, ps, writer, k);
      PartsStreamsHold(rewinds, qs, writer, k);
      OnlyStreamsParts(a, writer, w, k);
      OnlyStreamsParts(b, writer, w, k);
      PartsJoined(before, a, w, k);
      PartsJoined(before, b, w, k);
      assert LogPart(before) + [] == LogPart(before);
      assert multiset(PartsPoints(ps, k)) == multiset(PartsPoints(qs, k));
    }
    assert LogPart(before + b) == LogPart(before) by {
      PartsStreamsHold(rewinds, qs, writer, "");
      OnlyStreamsParts(b, writer, writer, "");
      PartsJoined(before, b, writer, "");
      assert LogPart(before) + [] == LogPart(before);
    }
    assert LogPart(before + a) == LogPart(before) by {
      PartsStreamsHold(rewinds, ps, writer, "");
      OnlyStreamsParts(a, writer, writer, "");
      PartsJoined(before, a, writer, "");
      assert LogPart(before) + [] == LogPart(before);
    }
  }

  /** A block of many keys, folded by its header, is its points folded one by one but for
      their places. */
  lemma HeaderIsBlock(rewinds: set<Marker>, before: seq<Shown>, b: Block, base: nat, writer: int)
    requires Foldable(rewinds, b, writer) && !MayBe(rewinds, b)
    requires DistinctKeys(LogPart(before)) && Markers(LogPart(before)) <= rewinds
    requires Apart(rewinds, before + PointStreams(b, base, writer))
    ensures var f := AppliedAll(NewFold(rewinds), Entries(before));
            SameFold(HeaderApplied(f, b, base, writer), AppliedAll(f, Entries(PointStreams(b, base, writer))))
  {
    var f := AppliedAll(NewFold(rewinds), Entries(before));
    var a, c := HeaderStreams(b, base, writer), PointStreams(b, base, writer);
    MarkersAreLogs(before);
    RewindsKnown(rewinds, Entries(before));
    CellsStayOk(NewFold(rewinds), Entries(before));
    HeaderFolds(f, b, base, writer);
    EntriesJoined(before, a);
    EntriesJoined(before, c);
    AppliedOn(NewFold(rewinds), Entries(before), Entries(a));
    AppliedOn(NewFold(rewinds), Entries(before), Entries(c));
    hide *;
    forall w, k ensures multiset(PointsOf(before + a, w, k)) == multiset(PointsOf(before + c, w, k)) {
      BothStreams(before, b, base, writer, w, k);
    }
    BothStreams(before, b, base, writer, writer, "");
    PartsAre(before + a, before + c);
    SameShown(rewinds, before + a, before + c);
  }

  lemma PartsAre(a: seq<Shown>, b: seq<Shown>)
    requires LogPart(a) == LogPart(b) && forall w, k :: multiset(PointsOf(a, w, k)) == multiset(PointsOf(b, w, k))
    ensures SameParts(a, b)
  {
  }

  lemma BothStreams(before: seq<Shown>, b: Block, base: nat, writer: int, w: int, k: Name)
    ensures var a, c := HeaderStreams(b, base, writer), PointStreams(b, base, writer);
            && multiset(PointsOf(before + a, w, k)) == multiset(PointsOf(before + c, w, k))
            && LogPart(before + a) == LogPart(before) && LogPart(before + c) == LogPart(before)
  {
    var a, c := HeaderStreams(b, base, writer), PointStreams(b, base, writer);
    hide HeaderStreams, PointStreams, LogPart, PointsOf, OnlyStreams;
    HeaderStreamsHold(b, base, writer, k);
    PointStreamsHold(b, base, writer, k);
    OnlyStreamsParts(a, writer, w, k);
    OnlyStreamsParts(c, writer, w, k);
    PartsJoined(before, a, w, k);
    PartsJoined(before, c, w, k);
    assert LogPart(before) + [] == LogPart(before);
  }

  // ----------------------------------------------------------------- a writer's sums

  /** What a writer's points add up to, per stream key. */
  type SumsMap = map<Name, KeyEntry>

  function Widened(sums: SumsMap, k: Name, e: KeyEntry): SumsMap {
    sums[k := if k in sums then Combined(sums[k], SumsEntry(e)) else SumsEntry(e)]
  }

  /** The sums widened by a block's header. */
  function WithBlock(sums: SumsMap, b: Block, base: nat): SumsMap {
    if b == [] then sums
    else
      var s, c := WithBlock(sums, b[..|b| - 1], base), b[|b| - 1];
      if c.points == [] then s else Widened(s, c.key, HeaderOf(c, base))
  }

  function PiecesIn(b: Block, base: nat, k: Name): seq<Piece> {
    if b == [] then []
    else
      var c := b[|b| - 1];
      PiecesIn(b[..|b| - 1], base, k) + if c.key == k then [Piece(c.points, Places(base, |c.points|))] else []
  }

  /** A key's points, block by block. */
  function PiecesFor(ps: seq<Part>, k: Name): seq<Piece> {
    if ps == [] then [] else PiecesFor(ps[..|ps| - 1], k) + PiecesIn(ps[|ps| - 1].block, ps[|ps| - 1].base, k)
  }

  function PiecePoints(ps: seq<Piece>): seq<Point> {
    if ps == [] then [] else PiecePoints(ps[..|ps| - 1]) + ps[|ps| - 1].points
  }

  ghost predicate SumRight(sums: SumsMap, k: Name, pieces: seq<Piece>) {
    && Whole(pieces)
    && (k in sums <==> pieces != [])
    && (k in sums ==> sums[k] == Sums(Heads(pieces)))
  }

  /** The sums are those of the blocks. */
  ghost predicate SumsRight(sums: SumsMap, ps: seq<Part>) {
    forall k :: SumRight(sums, k, PiecesFor(ps, k))
  }

  lemma WidenOne(sums: SumsMap, k: Name, pieces: seq<Piece>, c: Col, base: nat)
    requires SumRight(sums, k, pieces) && c.points != [] && c.key == k
    ensures SumRight(Widened(sums, k, HeaderOf(c, base)), k, pieces + [Piece(c.points, Places(base, |c.points|))])
  {
    var all := pieces + [Piece(c.points, Places(base, |c.points|))];
    assert Heads(all)[..|pieces|] == Heads(pieces) && Heads(all)[|pieces|] == HeaderOf(c, base);
    assert |pieces| == 0 ==> Heads(all) == [HeaderOf(c, base)];
  }

  lemma OtherStays(sums: SumsMap, k: Name, pieces: seq<Piece>, c: Col, base: nat)
    requires SumRight(sums, k, pieces) && c.points != [] && c.key != k
    ensures SumRight(Widened(sums, c.key, HeaderOf(c, base)), k, pieces)
  {
  }

  lemma {:induction false} WidenBlock(sums: SumsMap, b: Block, base: nat, k: Name, pieces: seq<Piece>)
    requires SumRight(sums, k, pieces) && forall i :: 0 <= i < |b| ==> b[i].points != []
    ensures SumRight(WithBlock(sums, b, base), k, pieces + PiecesIn(b, base, k))
  {
    hide SumRight, Widened, HeaderOf;
    if b != [] {
      var init, c := b[..|b| - 1], b[|b| - 1];
      assert forall i :: 0 <= i < |init| ==> init[i] == b[i];
      WidenBlock(sums, init, base, k, pieces);
      var s, held := WithBlock(sums, init, base), pieces + PiecesIn(init, base, k);
      if c.key == k {
        WidenOne(s, k, held, c, base);
        assert pieces + PiecesIn(b, base, k) == held + [Piece(c.points, Places(base, |c.points|))];
      } else {
        OtherStays(s, k, held, c, base);
        assert PiecesIn(b, base, k) == PiecesIn(init, base, k);
      }
      assert WithBlock(sums, b, base) == Widened(s, c.key, HeaderOf(c, base));
    } else {
      assert pieces + [] == pieces;
    }
  }

  /** One more block keeps the sums right. */
  lemma WithBlockRight(sums: SumsMap, ps: seq<Part>, p: Part)
    requires SumsRight(sums, ps) && forall i :: 0 <= i < |p.block| ==> p.block[i].points != []
    ensures SumsRight(WithBlock(sums, p.block, p.base), ps + [p])
  {
    forall k ensures SumRight(WithBlock(sums, p.block, p.base), k, PiecesFor(ps + [p], k)) {
      assert (ps + [p])[..|ps|] == ps;
      assert SumRight(sums, k, PiecesFor(ps, k));
      WidenBlock(sums, p.block, p.base, k, PiecesFor(ps, k));
    }
  }

  lemma {:induction false} PiecePointsJoined(a: seq<Piece>, b: seq<Piece>)
    ensures PiecePoints(a + b) == PiecePoints(a) + PiecePoints(b)
  {
    if b == [] {
      assert a + b == a;
    } else {
      var init, last := b[..|b| - 1], b[|b| - 1];
      PiecePointsJoined(a, init);
      assert (a + b)[..|a + b| - 1] == a + init && (a + b)[|a + b| - 1] == last;
      assert PiecePoints(a) + PiecePoints(init) + last.points == PiecePoints(a) + (PiecePoints(init) + last.points);
    }
  }

  lemma {:induction false} PiecesInHold(b: Block, base: nat, k: Name)
    ensures PiecePoints(PiecesIn(b, base, k)) == PointsIn(b, k)
  {
    if b != [] {
      var init, c := b[..|b| - 1], b[|b| - 1];
      PiecesInHold(init, base, k);
      if c.key == k {
        var p := Piece(c.points, Places(base, |c.points|));
        assert (PiecesIn(init, base, k) + [p])[..|PiecesIn(init, base, k)|] == PiecesIn(init, base, k);
      } else {
        assert PiecesIn(b, base, k) == PiecesIn(init, base, k) && PointsIn(b, k) == PointsIn(init, k);
      }
    }
  }

  /** The pieces of a key are all its points. */
  lemma {:induction false} PiecesHold(ps: seq<Part>, k: Name)
    ensures PiecePoints(PiecesFor(ps, k)) == PartsPoints(ps, k)
  {
    if ps != [] {
      PiecesHold(ps[..|ps| - 1], k);
      PiecesInHold(ps[|ps| - 1].block, ps[|ps| - 1].base, k);
      PiecePointsJoined(PiecesFor(ps[..|ps| - 1], k), PiecesIn(ps[|ps| - 1].block, ps[|ps| - 1].base, k));
    }
  }

  /** A sum counts all its points. */
  lemma {:induction false} SumCounts(pieces: seq<Piece>)
    requires Whole(pieces) && pieces != []
    ensures Sums(Heads(pieces)).n == |PiecePoints(pieces)|
  {
    var m := |pieces| - 1;
    assert Heads(pieces)[..m] == Heads(pieces[..m]);
    if m > 0 { SumCounts(pieces[..m]); }
  }

  /** `add_block`. */
  method AddBlock(sums: SumsMap, b: Block, base: nat) returns (out: SumsMap)
    requires forall i :: 0 <= i < |b| ==> b[i].points != []
    ensures out == WithBlock(sums, b, base)
  {
    out := sums;
    for i := 0 to |b|
      invariant out == WithBlock(sums, b[..i], base)
    {
      assert b[..i + 1][..i] == b[..i];
      out := Widened(out, b[i].key, HeaderOf(b[i], base));
    }
    assert b[..|b|] == b;
  }

  // ------------------------------------------------------------- folding into a record

  /** `_apply_key`. */
  method ApplyKeyTo(fold: LogFold, n: Name, e: KeyEntry, writer: int)
    modifies fold
    ensures fold.State() == KeyApplied(old(fold.State()), n, e, writer)
  {
    fold.cells := fold.cells[n := ApplyKey(CellAt(fold.cells, n), e, writer)];
    var last := Key(Rank(e.last.us), writer, e.at.1);
    if fold.lastMetric.None? || !Before(last, fold.lastMetric.value) { fold.lastMetric := Some(last); }
  }

  method ApplyHeader(fold: LogFold, b: Block, base: nat, writer: int)
    requires forall i :: 0 <= i < |b| ==> b[i].points != []
    modifies fold
    ensures fold.State() == HeaderApplied(old(fold.State()), b, base, writer)
  {
    for i := 0 to |b|
      invariant fold.State() == HeaderApplied(old(fold.State()), b[..i], base, writer)
    {
      assert b[..i + 1][..i] == b[..i];
      ApplyKeyTo(fold, BaseKey(b[i].key), HeaderOf(b[i], base), writer);
    }
    assert b[..|b|] == b;
  }

  method ApplyBlockPoints(fold: LogFold, b: Block, base: nat, writer: int)
    modifies fold
    ensures fold.State() == AppliedAll(old(fold.State()), Entries(PointStreams(b, base, writer)))
  {
    hide Applied, PointEntry, ByTime, AllTaken;
    var ts := ByTime(AllTaken(b));
    ghost var xs := Entries(PointStreams(b, base, writer));
    for offset := 0 to |ts|
      invariant fold.State() == AppliedAll(old(fold.State()), xs[..offset])
    {
      LastApplied(old(fold.State()), xs[..offset], xs[offset]);
      assert xs[..offset + 1] == xs[..offset] + [xs[offset]];
      fold.Apply(PointEntry(ts[offset].key, writer, ts[offset].p, base + offset));
    }
    assert xs[..|ts|] == xs;
  }

  /** By the header, or point by point when a rewind may hide some. */
  method FoldInto(fold: LogFold, b: Block, base: nat, writer: int)
    requires forall i :: 0 <= i < |b| ==> b[i].points != []
    modifies fold
    ensures fold.State() == BlockFolded(old(fold.State()), b, base, writer)
  {
    if MayBe(fold.rewinds, b) {
      ApplyBlockPoints(fold, b, base, writer);
    } else {
      ApplyHeader(fold, b, base, writer);
    }
  }

  // Sums.

  /** Whether a known rewind may hide points the sums hold. */
  predicate MayBeSums(rewinds: set<Marker>, sums: SumsMap) {
    exists k :: k in sums && MayBeRewound(MarksOf(rewinds), sums[k])
  }

  /** A key's points all have steps, or none has. */
  ghost predicate OneKind(points: seq<Point>) {
    forall i, j :: 0 <= i < |points| && 0 <= j < |points| ==> points[i].step.Some? == points[j].step.Some?
  }

  lemma {:induction false} PieceInPoints(pieces: seq<Piece>, i: nat, p: Point)
    requires i < |pieces| && p in pieces[i].points
    ensures p in PiecePoints(pieces)
  {
    if i < |pieces| - 1 { PieceInPoints(pieces[..|pieces| - 1], i, p); }
  }

  lemma HeaderSteps(points: seq<Point>, places: seq<nat>)
    requires points != [] && |points| == |places|
    ensures var e := Header(points, places);
            && e.hasStep == points[0].step.Some?
            && (points[0].step.Some? == points[|points| - 1].step.Some? ==> StepsAgree(e))
  {
  }

  lemma KindsAgree(pieces: seq<Piece>, i: nat)
    requires Whole(pieces) && i < |pieces| && OneKind(PiecePoints(pieces))
    ensures StepsAgree(Heads(pieces)[i]) && Heads(pieces)[i].hasStep == Heads(pieces)[0].hasStep
  {
    var all, p, q := PiecePoints(pieces), pieces[i], pieces[0];
    HeaderSteps(p.points, p.places);
    HeaderSteps(q.points, q.places);
    hide PiecePoints, Header, StepsAgree, OneKind;
    PieceInPoints(pieces, i, p.points[0]);
    PieceInPoints(pieces, i, p.points[|p.points| - 1]);
    PieceInPoints(pieces, 0, q.points[0]);
    SameKind(all, p.points[0], p.points[|p.points| - 1]);
    SameKind(all, p.points[0], q.points[0]);
  }

  lemma SameKind(points: seq<Point>, p: Point, q: Point)
    requires OneKind(points) && p in points && q in points
    ensures p.step.Some? == q.step.Some?
  {
    var a :| 0 <= a < |points| && points[a] == p;
    var b :| 0 <= b < |points| && points[b] == q;
    assert points[a].step.Some? == points[b].step.Some?;
  }

  /** Sums no known rewind may touch have no hidden point. */
  lemma SumsShown(rewinds: set<Marker>, k: Name, writer: int, pieces: seq<Piece>)
    requires pieces != [] && PiecesOk(pieces) && OneKind(PiecePoints(pieces))
    requires forall i :: 0 <= i < |pieces| ==>
      Noticed(rewinds, pieces[i].points, writer) && UntiedPoints(rewinds, pieces[i].points, writer)
    requires !MayBeRewound(MarksOf(rewinds), Sums(Heads(pieces)))
    ensures PiecesShown(rewinds, k, writer, pieces)
  {
    var es := Heads(pieces);
    forall i | 0 <= i < |es| ensures StepsAgree(es[i]) && es[i].hasStep == es[0].hasStep { KindsAgree(pieces, i); }
    forall i | 0 <= i < |pieces| ensures AllShown(rewinds, k, writer, pieces[i].points, pieces[i].places) {
      SumsCoverBlocks(MarksOf(rewinds), es, i);
      NoneHidden(rewinds, k, writer, pieces[i].points, pieces[i].places);
    }
  }

  lemma {:induction false} PiecesInFoldable(rewinds: set<Marker>, b: Block, base: nat, k: Name, writer: int)
    requires Foldable(rewinds, b, writer) && Straight(b)
    ensures PiecesOk(PiecesIn(b, base, k))
    ensures forall p :: p in PiecesIn(b, base, k) ==> Noticed(rewinds, p.points, writer) && UntiedPoints(rewinds, p.points, writer)
  {
    if b != [] {
      var init := b[..|b| - 1];
      assert forall i :: 0 <= i < |init| ==> init[i] == b[i];
      PiecesInFoldable(rewinds, init, base, k, writer);
    }
  }

  lemma {:induction false} PiecesFoldable(rewinds: set<Marker>, ps: seq<Part>, k: Name, writer: int)
    requires PartsFoldable(rewinds, ps, writer) && forall i :: 0 <= i < |ps| ==> Straight(ps[i].block)
    ensures PiecesOk(PiecesFor(ps, k))
    ensures forall p :: p in PiecesFor(ps, k) ==> Noticed(rewinds, p.points, writer) && UntiedPoints(rewinds, p.points, writer)
  {
    if ps != [] {
      var init, last := ps[..|ps| - 1], ps[|ps| - 1];
      PiecesFoldable(rewinds, init, k, writer);
      assert Foldable(rewinds, ps[|ps| - 1].block, writer) && Straight(ps[|ps| - 1].block);
      PiecesInFoldable(rewinds, last.block, last.base, k, writer);
    }
  }

  lemma {:induction false} PieceStreamsHold(key: Name, writer: int, pieces: seq<Piece>, k: Name)
    requires PiecesOk(pieces)
    ensures OnlyStreams(PieceStreams(key, writer, pieces), writer)
    ensures PointsOf(PieceStreams(key, writer, pieces), writer, k) == if k == key then PiecePoints(pieces) else []
  {
    if pieces != [] {
      var init, p := pieces[..|pieces| - 1], pieces[|pieces| - 1];
      PieceStreamsHold(key, writer, init, k);
      StreamsHold(key, writer, p.points, p.places, k);
      PartsJoined(PieceStreams(key, writer, init), StreamsOf(key, writer, p.points, p.places), writer, k);
    }
  }

  ghost predicate Kinds(ps: seq<Part>) { forall k :: OneKind(PartsPoints(ps, k)) }

  /** What the sums of the keys of `done` are folded to. */
  ghost predicate SumsFolded(a: seq<Shown>, ps: seq<Part>, done: set<Name>, writer: int) {
    && OnlyStreams(a, writer)
    && forall k :: PointsOf(a, writer, k) == if k in done then PartsPoints(ps, k) else []
  }

  /** A block's key is among the pieces of its sum. */
  lemma {:induction false} PieceIn(b: Block, base: nat, j: nat) returns (q: nat)
    requires j < |b|
    ensures q < |PiecesIn(b, base, b[j].key)|
    ensures PiecesIn(b, base, b[j].key)[q] == Piece(b[j].points, Places(base, |b[j].points|))
  {
    var m := |b| - 1;
    if j == m {
      q := |PiecesIn(b[..m], base, b[j].key)|;
    } else {
      q := PieceIn(b[..m], base, j);
    }
  }

  lemma {:induction false} PieceOf(ps: seq<Part>, i: nat, j: nat) returns (q: nat)
    requires i < |ps| && j < |ps[i].block|
    ensures var c := ps[i].block[j];
            q < |PiecesFor(ps, c.key)| && PiecesFor(ps, c.key)[q] == Piece(c.points, Places(ps[i].base, |c.points|))
  {
    var m := |ps| - 1;
    if i == m {
      q := PieceIn(ps[m].block, ps[m].base, j);
      q := q + |PiecesFor(ps[..m], ps[i].block[j].key)|;
    } else {
      q := PieceOf(ps[..m], i, j);
    }
  }

  /** A header's bounds are those of its points, whatever their places. */
  lemma BoundsAside(marks: set<Mark>, points: seq<Point>, places: seq<nat>, others: seq<nat>)
    requires points != [] && |points| == |places| == |others|
    ensures MayBeRewound(marks, Header(points, places)) <==> MayBeRewound(marks, Header(points, others))
  {
  }

  /** Sums no known rewind may touch are of blocks none may touch. */
  lemma BlockClear(rewinds: set<Marker>, sums: SumsMap, ps: seq<Part>, i: nat, j: nat)
    requires SumsRight(sums, ps) && Kinds(ps) && i < |ps| && j < |ps[i].block| && ps[i].block[j].points != []
    requires MayBeRewound(MarksOf(rewinds), HeaderOf(ps[i].block[j], 0))
    ensures MayBeSums(rewinds, sums)
  {
    var c := ps[i].block[j];
    var k := c.key;
    var pieces := PiecesFor(ps, k);
    var q := PieceOf(ps, i, j);
    assert SumRight(sums, k, pieces);
    PiecesHold(ps, k);
    assert OneKind(PartsPoints(ps, k));
    var es := Heads(pieces);
    forall n | 0 <= n < |es| ensures StepsAgree(es[n]) && es[n].hasStep == es[0].hasStep { KindsAgree(pieces, n); }
    BoundsAside(MarksOf(rewinds), c.points, Places(0, |c.points|), Places(ps[i].base, |c.points|));
    SumsCoverBlocks(MarksOf(rewinds), es, q);
    assert k in sums && MayBeRewound(MarksOf(rewinds), sums[k]);
  }

  lemma AllClear(rewinds: set<Marker>, sums: SumsMap, ps: seq<Part>, writer: int)
    requires SumsRight(sums, ps) && Kinds(ps) && PartsFoldable(rewinds, ps, writer) && !MayBeSums(rewinds, sums)
    ensures forall i :: 0 <= i < |ps| ==> Straight(ps[i].block)
  {
    forall i | 0 <= i < |ps| ensures Straight(ps[i].block) {
      var b := ps[i].block;
      assert Foldable(rewinds, ps[i].block, writer);
      if MayBe(rewinds, b) {
        var j :| 0 <= j < |b| && b[j].points != [] && MayBeRewound(MarksOf(rewinds), HeaderOf(b[j], 0));
        BlockClear(rewinds, sums, ps, i, j);
      }
    }
  }

  /** One key's sum folds to its points. */
  lemma OneSumFolds(f: Fold, sums: SumsMap, ps: seq<Part>, k: Name, writer: int) returns (a: seq<Shown>)
    requires CellsOk(f) && SumsRight(sums, ps) && PartsFoldable(f.rewinds, ps, writer) && Kinds(ps) && k in sums
    requires !MayBeSums(f.rewinds, sums)
    ensures var g := KeyApplied(f, BaseKey(k), sums[k], writer);
            g == AppliedAll(f, Entries(a)) && CellsOk(g) && g.rewinds == f.rewinds
    ensures OnlyStreams(a, writer) && forall l :: PointsOf(a, writer, l) == if l == k then PartsPoints(ps, k) else []
  {
    var pieces := PiecesFor(ps, k);
    assert SumRight(sums, k, pieces);
    AllClear(f.rewinds, sums, ps, writer);
    PiecesFoldable(f.rewinds, ps, k, writer);
    PiecesHold(ps, k);
    assert OneKind(PartsPoints(ps, k));
    SumsShown(f.rewinds, k, writer, pieces);
    SumsFoldPoints(f, k, writer, pieces);
    KeyKeepsOk(f, BaseKey(k), sums[k], writer);
    a := PieceStreams(k, writer, pieces);
    forall l ensures PointsOf(a, writer, l) == if l == k then PartsPoints(ps, k) else [] {
      PieceStreamsHold(k, writer, pieces, l);
    }
    PieceStreamsHold(k, writer, pieces, k);
  }

  lemma OneMoreSum(a: seq<Shown>, b: seq<Shown>, ps: seq<Part>, done: set<Name>, k: Name, writer: int)
    requires SumsFolded(a, ps, done, writer) && k !in done
    requires OnlyStreams(b, writer) && forall l :: PointsOf(b, writer, l) == if l == k then PartsPoints(ps, k) else []
    ensures SumsFolded(a + b, ps, done + {k}, writer)
  {
    hide PointsOf, PartsPoints;
    forall l ensures PointsOf(a + b, writer, l) == if l in done + {k} then PartsPoints(ps, l) else [] {
      PartsJoined(a, b, writer, l);
    }
  }

  /** `apply_sums`: the sums of a writer's blocks fold to what all their points do. */
  method ApplySums(fold: LogFold, sums: SumsMap, writer: int, ghost ps: seq<Part>) returns (ghost a: seq<Shown>)
    requires CellsOk(fold.State()) && SumsRight(sums, ps) && PartsFoldable(fold.rewinds, ps, writer) && Kinds(ps)
    requires !MayBeSums(fold.rewinds, sums)
    modifies fold
    ensures fold.State() == AppliedAll(old(fold.State()), Entries(a)) && OnlyStreams(a, writer)
    ensures forall k :: PointsOf(a, writer, k) == PartsPoints(ps, k)
    ensures CellsOk(fold.State()) && fold.rewinds == old(fold.rewinds)
  {
    hide KeyApplied, Applied, AppliedAll, Entries, CellsOk, PartsFoldable, Kinds, MayBeSums, OnlyStreams,
      SumsRight, SumsFolded;
    a := [];
    var left := sums.Keys;
    NothingApplied(fold.State());
    NoSums(ps, writer);
    assert sums.Keys - left == {};
    while left != {}
      invariant left <= sums.Keys
      invariant fold.State() == AppliedAll(old(fold.State()), Entries(a)) && SumsFolded(a, ps, sums.Keys - left, writer)
      invariant CellsOk(fold.State()) && fold.State().rewinds == old(fold.rewinds)
      decreases left
    {
      var k :| k in left;
      ghost var b := OneSumFolds(fold.State(), sums, ps, k, writer);
      ApplyKeyTo(fold, BaseKey(k), sums[k], writer);
      EntriesJoined(a, b);
      AppliedOn(old(fold.State()), Entries(a), Entries(b));
      OneMoreSum(a, b, ps, sums.Keys - left, k, writer);
      assert (sums.Keys - left) + {k} == sums.Keys - (left - {k});
      a, left := a + b, left - {k};
    }
    assert sums.Keys - left == sums.Keys;
    AllSums(a, sums, ps, writer);
  }

  lemma NoSums(ps: seq<Part>, writer: int)
    ensures SumsFolded([], ps, {}, writer)
  {
  }

  lemma AllSums(a: seq<Shown>, sums: SumsMap, ps: seq<Part>, writer: int)
    requires SumsRight(sums, ps) && SumsFolded(a, ps, sums.Keys, writer)
    ensures OnlyStreams(a, writer) && forall k :: PointsOf(a, writer, k) == PartsPoints(ps, k)
  {
    forall k ensures PointsOf(a, writer, k) == PartsPoints(ps, k) {
      assert SumRight(sums, k, PiecesFor(ps, k));
      PiecesHold(ps, k);
    }
  }
}

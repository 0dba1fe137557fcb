/**
 Three ways to fold the same metric points: point by point, a block at a time from
 its header's summary, and a writer's blocks all at once from their sums.

 Everything is about one metric name: names fold independently. A point's fold key
 carries its timestamp as an ISO string, and `us_to_iso` leaves the fraction out on
 a whole second, so a whole second sorts after every fraction of it (`Rank`).

 Main results: sums replay to what the headers fold to (`SumsReplayHeaders`); a
 header folds to what its points do exactly when its first and last points are
 first and last in string order too (`HeaderIsPoints`); sums no rewind may touch
 mean blocks none may (`SumsCoverBlocks`), and a block none may touch hides no point
 unless the rewind fell on a whole second (`HiddenMayBeRewound`,
 `WholeSecondHides`).
 */
module FoldSums {
  import opened Fold

  const SECOND := 1_000_000

  /** The place of `us_to_iso(us)` in string order. */
  function Rank(us: int): int {
    2 * SECOND * (us / SECOND) + if us % SECOND == 0 then SECOND else us % SECOND
  }

  /** A point of a metric stream. */
  datatype Point = Point(value: Num, us: int, step: Option<int>)

  /** The finite values of a run of points. */
  datatype Summary = Summary(n: nat, sum: real, low: Option<real>, high: Option<real>)

  const NO_VALUES := Summary(0, 0.0, None, None)

  /** One key of a block header: `s` and `t` its steps' and timestamps' bounds, `at` the
      positions of its first and last points. */
  datatype KeyEntry = KeyEntry(n: nat, first: Point, last: Point, sum: Summary,
                               hasStep: bool, s: Option<(int, int)>, t: (int, int), at: (nat, nat))

  // ---------------------------------------------------------------- summaries

  function Counted(s: Summary, v: Num): Summary {
    if v.NonFinite? then s else Summary(s.n + 1, s.sum + v.r, Lower(s.low, v.r), Higher(s.high, v.r))
  }

  function FiniteSummary(points: seq<Point>): Summary {
    if points == [] then NO_VALUES
    else Counted(FiniteSummary(points[..|points| - 1]), points[|points| - 1].value)
  }

  function LowerOf(a: Option<real>, b: Option<real>): Option<real> {
    if b.None? then a else Lower(a, b.value)
  }

  function HigherOf(a: Option<real>, b: Option<real>): Option<real> {
    if b.None? then a else Higher(a, b.value)
  }

  /** Two summaries as one. */
  function Joined(a: Summary, b: Summary): Summary {
    if b.n == 0 then a
    else if a.n == 0 then b
    else Summary(a.n + b.n, a.sum + b.sum, LowerOf(a.low, b.low), HigherOf(a.high, b.high))
  }

  /** Bounds, count and sum widened by a whole summary. */
  function WidenedBy(seen: Seen, s: Summary): Seen
    requires seen.Many?
  {
    if s.n == 0 then seen
    else Many(LowerOf(seen.low, s.low), HigherOf(seen.high, s.high), seen.n + s.n, seen.sum + s.sum)
  }

  predicate SummaryOk(s: Summary) {
    (s.n == 0 ==> s == NO_VALUES) && (s.n > 0 ==> s.low.Some? && s.high.Some?)
  }

  lemma {:induction false} FiniteSummaryOk(points: seq<Point>)
    ensures SummaryOk(FiniteSummary(points))
  {
    if points != [] {
      FiniteSummaryOk(points[..|points| - 1]);
    }
  }

  lemma WidenedJoined(seen: Seen, a: Summary, b: Summary)
    requires seen.Many? && SummaryOk(a) && SummaryOk(b)
    ensures WidenedBy(WidenedBy(seen, a), b) == WidenedBy(seen, Joined(a, b)) && SummaryOk(Joined(a, b))
  {
  }

  lemma WidenedCounted(seen: Seen, s: Summary, v: Num)
    requires seen.Many? && SummaryOk(s)
    ensures Widened(WidenedBy(seen, s), v) == WidenedBy(seen, Counted(s, v))
  {
  }

  // -------------------------------------------------------------- folding a key

  /** A block of at least two points folded from its first and last points and summary. */
  function BlockValue(c: Cell, e: KeyEntry, first: Key, last: Key): Cell {
    var latest := if c.seen.None? then None else c.latest;
    var seen := match c.seen
      case None => NOTHING_SEEN
      case Some(Once(only)) => Widened(NOTHING_SEEN, only)
      case Some(Many(_, _, _, _)) => c.seen.value;
    var held := if c.seen.Some? && c.seen.value.Once? && c.first.None? && c.latest.Some?
      then Some(Stamped(c.seen.value.only, c.latest.value.key)) else c.first;
    Cell(Latest(latest, e.last.value, last), Some(WidenedBy(seen, e.sum)), Least(held, e.first.value, first))
  }

  /** A header's key (or a writer's sums of it) folded in. */
  function ApplyKey(c: Cell, e: KeyEntry, writer: int): Cell {
    var first := Key(Rank(e.first.us), writer, e.at.0);
    var last := Key(Rank(e.last.us), writer, e.at.1);
    if e.n == 1 then LogValue(c, e.first.value, first) else BlockValue(c, e, first, last)
  }

  // ------------------------------------------------------------ sums and headers

  predicate NotAfter(a: Point, p: nat, b: Point, q: nat) {
    Rank(a.us) < Rank(b.us) || (Rank(a.us) == Rank(b.us) && p <= q)
  }

  function Bounds(a: Option<(int, int)>, b: Option<(int, int)>): Option<(int, int)> {
    if a.None? then b else if b.None? then a else Some(Wider(a.value, b.value))
  }

  function Wider(a: (int, int), b: (int, int)): (int, int) {
    (if a.0 <= b.0 then a.0 else b.0, if a.1 >= b.1 then a.1 else b.1)
  }

  function Sorted(a: (int, int)): (int, int) { if a.0 <= a.1 then a else (a.1, a.0) }

  /** A header's key as sums hold it. */
  function SumsEntry(e: KeyEntry): KeyEntry {
    e.(s := if e.s.Some? then Some(Sorted(e.s.value)) else None, t := Sorted(e.t))
  }

  /** What a writer's points so far and those of one more block add up to. */
  function Combined(held: KeyEntry, e: KeyEntry): KeyEntry {
    var first := if NotAfter(held.first, held.at.0, e.first, e.at.0) then held else e;
    var last := if NotAfter(held.last, held.at.1, e.last, e.at.1) then e else held;
    KeyEntry(held.n + e.n, first.first, last.last, Joined(held.sum, e.sum), held.hasStep,
             Bounds(held.s, e.s), Wider(held.t, e.t), (first.at.0, last.at.1))
  }

  /** A key entry as headers carry it. */
  predicate EntryOk(e: KeyEntry) {
    && e.n > 0 && SummaryOk(e.sum)
    && (e.n == 1 ==> e.first == e.last && e.at.0 == e.at.1 && e.sum == Counted(NO_VALUES, e.first.value))
  }

  function Sums(blocks: seq<KeyEntry>): KeyEntry
    requires blocks != []
  {
    var last := SumsEntry(blocks[|blocks| - 1]);
    if |blocks| == 1 then last else Combined(Sums(blocks[..|blocks| - 1]), last)
  }

  function HeadersFold(c: Cell, blocks: seq<KeyEntry>, writer: int): Cell {
    if blocks == [] then c
    else ApplyKey(HeadersFold(c, blocks[..|blocks| - 1], writer), blocks[|blocks| - 1], writer)
  }

  lemma LatestOfTwo(held: Option<Stamped<Num>>, v: Num, k: Key, w: Num, l: Key)
    ensures Latest(Latest(held, v, k), w, l) == if Before(l, k) then Latest(held, v, k) else Latest(held, w, l)
  {
  }

  lemma LeastOfTwo(held: Option<Stamped<Num>>, v: Num, k: Key, w: Num, l: Key)
    ensures Least(Least(held, v, k), w, l) == if Before(l, k) then Least(held, w, l) else Least(held, v, k)
  {
  }

  /** A value logged alone is a block of one, once something is seen. */
  lemma LoggedIsBlock(c: Cell, e: KeyEntry, k: Key)
    requires CellOk(c) && EntryOk(e) && e.n == 1 && c.seen.Some?
    ensures LogValue(c, e.first.value, k) == BlockValue(c, e, k, k)
  {
    match c.seen.value
    case Once(only) => WidenedCounted(Widened(NOTHING_SEEN, only), NO_VALUES, e.first.value);
    case Many(_, _, _, _) => WidenedCounted(c.seen.value, NO_VALUES, e.first.value);
  }

  lemma TwoBlocks(c: Cell, a: KeyEntry, af: Key, al: Key, b: KeyEntry, bf: Key, bl: Key, both: KeyEntry)
    requires CellOk(c) && EntryOk(a) && EntryOk(b)
    requires both.sum == Joined(a.sum, b.sum)
    requires both.first.value == if Before(bf, af) then b.first.value else a.first.value
    requires both.last.value == if Before(bl, al) then a.last.value else b.last.value
    ensures BlockValue(BlockValue(c, a, af, al), b, bf, bl)
            == BlockValue(c, both, if Before(bf, af) then bf else af, if Before(bl, al) then al else bl)
  {
    var seen := match c.seen
      case None => NOTHING_SEEN
      case Some(Once(only)) => Widened(NOTHING_SEEN, only)
      case Some(Many(_, _, _, _)) => c.seen.value;
    WidenedJoined(seen, a.sum, b.sum);
    var held := if c.seen.Some? && c.seen.value.Once? && c.first.None? && c.latest.Some?
      then Some(Stamped(c.seen.value.only, c.latest.value.key)) else c.first;
    LeastOfTwo(held, a.first.value, af, b.first.value, bf);
    LatestOfTwo(if c.seen.None? then None else c.latest, a.last.value, al, b.last.value, bl);
  }

  lemma ApplyKeepsOk(c: Cell, e: KeyEntry, writer: int)
    requires CellOk(c) && EntryOk(e)
    ensures CellOk(ApplyKey(c, e, writer)) && ApplyKey(c, e, writer).seen.Some?
  {
  }

  /** A key folded into a cell that saw something is a block, whatever its size. */
  lemma SeenTakesBlock(c: Cell, e: KeyEntry, writer: int)
    requires CellOk(c) && EntryOk(e) && c.seen.Some?
    ensures ApplyKey(c, e, writer)
            == BlockValue(c, e, Key(Rank(e.first.us), writer, e.at.0), Key(Rank(e.last.us), writer, e.at.1))
  {
    if e.n == 1 {
      LoggedIsBlock(c, e, Key(Rank(e.first.us), writer, e.at.0));
    }
  }

  /** A first value alone, then a block. */
  lemma OneThenBlock(c: Cell, a: KeyEntry, k: Key, b: KeyEntry, bf: Key, bl: Key, both: KeyEntry)
    requires CellOk(c) && c.seen.None? && EntryOk(a) && a.n == 1 && EntryOk(b)
    requires both.sum == Joined(a.sum, b.sum)
    requires both.first.value == if Before(bf, k) then b.first.value else a.first.value
    requires both.last.value == if Before(bl, k) then a.last.value else b.last.value
    ensures BlockValue(LogValue(c, a.first.value, k), b, bf, bl)
            == BlockValue(c, both, if Before(bf, k) then bf else k, if Before(bl, k) then k else bl)
  {
    WidenedCounted(NOTHING_SEEN, NO_VALUES, a.first.value);
    WidenedJoined(NOTHING_SEEN, a.sum, b.sum);
  }

  lemma CombinedFoldsBoth(c: Cell, a: KeyEntry, b: KeyEntry, writer: int)
    requires CellOk(c) && EntryOk(a) && EntryOk(b)
    ensures ApplyKey(c, Combined(a, b), writer) == ApplyKey(ApplyKey(c, a, writer), b, writer)
    ensures EntryOk(Combined(a, b))
  {
    var af, al := Key(Rank(a.first.us), writer, a.at.0), Key(Rank(a.last.us), writer, a.at.1);
    var bf, bl := Key(Rank(b.first.us), writer, b.at.0), Key(Rank(b.last.us), writer, b.at.1);
    var both := Combined(a, b);
    WidenedJoined(NOTHING_SEEN, a.sum, b.sum);
    ApplyKeepsOk(c, a, writer);
    SeenTakesBlock(ApplyKey(c, a, writer), b, writer);
    if c.seen.None? && a.n == 1 {
      OneThenBlock(c, a, af, b, bf, bl, both);
    } else {
      if c.seen.Some? {
        SeenTakesBlock(c, a, writer);
      }
      TwoBlocks(c, a, af, al, b, bf, bl, both);
    }
  }

  /** Replaying a writer's sums folds to what its block headers fold to, one at a time. */
  lemma {:induction false} SumsReplayHeaders(c: Cell, blocks: seq<KeyEntry>, writer: int)
    requires blocks != [] && CellOk(c) && forall i :: 0 <= i < |blocks| ==> EntryOk(blocks[i])
    ensures ApplyKey(c, Sums(blocks), writer) == HeadersFold(c, blocks, writer)
    ensures EntryOk(Sums(blocks))
  {
    var before, last := blocks[..|blocks| - 1], blocks[|blocks| - 1];
    if before != [] {
      SumsReplayHeaders(c, before, writer);
      CombinedFoldsBoth(c, Sums(before), SumsEntry(last), writer);
    }
  }

  // ---------------------------------------------------------- headers and points

  /** A point alone, at its place among the writer's points. */
  function Alone(p: Point, place: nat): KeyEntry {
    KeyEntry(1, p, p, Counted(NO_VALUES, p.value), p.step.Some?,
             if p.step.Some? then Some((p.step.value, p.step.value)) else None, (p.us, p.us), (place, place))
  }

  /** A block header's key: its points' summary between its first and last points. */
  function Header(points: seq<Point>, places: seq<nat>): KeyEntry
    requires points != [] && |points| == |places|
  {
    var first, last := points[0], points[|points| - 1];
    KeyEntry(|points|, first, last, FiniteSummary(points), first.step.Some?,
             if first.step.Some? && last.step.Some? then Some((first.step.value, last.step.value)) else None,
             (first.us, last.us), (places[0], places[|places| - 1]))
  }

  function PointsFold(c: Cell, points: seq<Point>, places: seq<nat>, writer: int): Cell
    requires |points| == |places|
  {
    if points == [] then c
    else
      var n := |points| - 1;
      LogValue(PointsFold(c, points[..n], places[..n], writer), points[n].value,
               Key(Rank(points[n].us), writer, places[n]))
  }

  function Singles(points: seq<Point>, places: seq<nat>): seq<KeyEntry>
    requires |points| == |places|
  {
    seq(|points|, i requires 0 <= i < |points| => Alone(points[i], places[i]))
  }

  ghost predicate InPlace(places: seq<nat>) {
    forall i, j :: 0 <= i < j < |places| ==> places[i] <= places[j]
  }

  /** A block's first point is first, and its last one last, in string order. */
  ghost predicate EndsSorted(points: seq<Point>)
    requires points != []
  {
    forall i :: 0 <= i < |points| ==>
      Rank(points[0].us) <= Rank(points[i].us) <= Rank(points[|points| - 1].us)
  }

  lemma {:induction false} PointsAreSingles(c: Cell, points: seq<Point>, places: seq<nat>, writer: int)
    requires |points| == |places|
    ensures PointsFold(c, points, places, writer) == HeadersFold(c, Singles(points, places), writer)
  {
    if points != [] {
      var n := |points| - 1;
      PointsAreSingles(c, points[..n], places[..n], writer);
      assert Singles(points, places)[..n] == Singles(points[..n], places[..n]);
    }
  }

  lemma JoinedOne(s: Summary, v: Num)
    requires SummaryOk(s)
    ensures Joined(s, Counted(NO_VALUES, v)) == Counted(s, v)
  {
  }

  /** `e`'s ends are points at their places, first and last in string order, an earlier
      point first among equals and a later one last. */
  ghost predicate HasEnds(e: KeyEntry, points: seq<Point>, places: seq<nat>)
    requires points != [] && |points| == |places|
  {
    && (exists i :: 0 <= i < |points| && points[i] == e.first && places[i] == e.at.0)
    && (exists i :: 0 <= i < |points| && points[i] == e.last && places[i] == e.at.1)
    && (forall i :: 0 <= i < |points| ==> Rank(e.first.us) <= Rank(points[i].us) <= Rank(e.last.us))
    && (Rank(e.first.us) == Rank(points[0].us) ==> e.first == points[0] && e.at.0 == places[0])
    && (Rank(e.last.us) == Rank(points[|points| - 1].us) ==>
          e.last == points[|points| - 1] && e.at.1 == places[|places| - 1])
  }

  lemma EndsStep(held: KeyEntry, points: seq<Point>, places: seq<nat>)
    requires |points| >= 2 && |points| == |places| && InPlace(places)
    requires var n := |points| - 1; HasEnds(held, points[..n], places[..n])
    ensures var n := |points| - 1; HasEnds(Combined(held, SumsEntry(Alone(points[n], places[n]))), points, places)
  {
    var n := |points| - 1;
    var e := Combined(held, SumsEntry(Alone(points[n], places[n])));
    var i :| 0 <= i < n && points[..n][i] == held.first && places[..n][i] == held.at.0;
    var j :| 0 <= j < n && points[..n][j] == held.last && places[..n][j] == held.at.1;
    assert places[j] <= places[n] && places[i] <= places[n];
    var first, last := if e.first == held.first && e.at.0 == held.at.0 then i else n,
                       if e.last == points[n] && e.at.1 == places[n] then n else j;
    assert points[first] == e.first && places[first] == e.at.0;
    assert points[last] == e.last && places[last] == e.at.1;
    assert forall k :: 0 <= k < n ==> points[..n][k] == points[k];
  }

  lemma {:induction false} SinglesTotal(points: seq<Point>, places: seq<nat>)
    requires points != [] && |points| == |places|
    ensures var e := Sums(Singles(points, places)); e.n == |points| && e.sum == FiniteSummary(points)
  {
    var n := |points| - 1;
    var singles := Singles(points, places);
    if n == 0 {
      assert points[..0] == [];
    } else {
      SinglesTotal(points[..n], places[..n]);
      assert singles[..n] == Singles(points[..n], places[..n]);
      FiniteSummaryOk(points[..n]);
      JoinedOne(FiniteSummary(points[..n]), points[n].value);
    }
  }

  lemma OneEnds(e: KeyEntry, points: seq<Point>, places: seq<nat>)
    requires |points| == |places| == 1 && e == SumsEntry(Alone(points[0], places[0]))
    ensures HasEnds(e, points, places)
  {
    assert points[0] == e.first && places[0] == e.at.0 && points[0] == e.last && places[0] == e.at.1;
  }

  lemma {:induction false} SinglesEnds(points: seq<Point>, places: seq<nat>)
    requires points != [] && |points| == |places| && InPlace(places)
    ensures HasEnds(Sums(Singles(points, places)), points, places)
  {
    var n := |points| - 1;
    var singles := Singles(points, places);
    if n == 0 {
      OneEnds(Sums(singles), points, places);
    } else {
      SinglesEnds(points[..n], places[..n]);
      assert singles[..n] == Singles(points[..n], places[..n]);
      assert Sums(singles) == Combined(Sums(singles[..n]), SumsEntry(Alone(points[n], places[n])));
      EndsStep(Sums(singles[..n]), points, places);
    }
  }

  /** What single points add up to, whatever order their timestamps came in. */
  lemma SinglesAddUp(points: seq<Point>, places: seq<nat>)
    requires points != [] && |points| == |places| && InPlace(places)
    ensures var e := Sums(Singles(points, places));
            e.n == |points| && e.sum == FiniteSummary(points) && HasEnds(e, points, places)
  {
    SinglesTotal(points, places);
    SinglesEnds(points, places);
  }

  /** A header folds to what its points do if and only if its first and last points are
      the first and last in string order. */
  lemma HeaderIsPoints(points: seq<Point>, places: seq<nat>, writer: int)
    requires points != [] && |points| == |places| && InPlace(places)
    ensures EndsSorted(points) ==> forall c :: CellOk(c) ==>
              ApplyKey(c, Header(points, places), writer) == PointsFold(c, points, places, writer)
    ensures !EndsSorted(points) ==>
              ApplyKey(NO_CELL, Header(points, places), writer) != PointsFold(NO_CELL, points, places, writer)
  {
    var e, h, singles := Sums(Singles(points, places)), Header(points, places), Singles(points, places);
    SinglesAddUp(points, places);
    forall c | CellOk(c) ensures ApplyKey(c, e, writer) == PointsFold(c, points, places, writer) {
      SumsReplayHeaders(c, singles, writer);
      PointsAreSingles(c, points, places, writer);
    }
    if EndsSorted(points) {
      assert e.first == h.first && e.last == h.last && e.at == h.at;
      assert forall c :: ApplyKey(c, e, writer) == ApplyKey(c, h, writer);
    } else {
      assert Rank(e.first.us) != Rank(h.first.us) || Rank(e.last.us) != Rank(h.last.us);
      assert ApplyKey(NO_CELL, e, writer).first.value.key.ts == Rank(e.first.us);
      assert ApplyKey(NO_CELL, e, writer).latest.value.key.ts == Rank(e.last.us);
    }
  }

  // -------------------------------------------------------------------- rewinds

  /** A rewind as `may_be_rewound` compares it: its step, and its time when it has one. */
  datatype Mark = Mark(step: real, us: Option<int>)

  predicate MayBeRewound(marks: set<Mark>, e: KeyEntry) {
    e.hasStep && e.s.Some?
    && exists m :: m in marks && m.step < e.s.value.1 as real && (m.us.None? || e.t.0 <= m.us.value)
  }

  /** Blocks of a key agree on having steps. */
  predicate StepsAgree(e: KeyEntry) { e.hasStep <==> e.s.Some? }

  /** Both ends of `b`, whichever is less, lie within `a`. */
  predicate Bound(a: (int, int), b: (int, int)) { a.0 <= b.0 <= a.1 && a.0 <= b.1 <= a.1 }

  lemma {:induction false} SumsBound(blocks: seq<KeyEntry>, i: nat)
    requires i < |blocks|
    requires forall j :: 0 <= j < |blocks| ==> StepsAgree(blocks[j]) && blocks[j].hasStep == blocks[0].hasStep
    ensures var e := Sums(blocks);
            && e.hasStep == blocks[0].hasStep && StepsAgree(e)
            && Bound(e.t, blocks[i].t)
            && (e.hasStep ==> blocks[i].s.Some? && Bound(e.s.value, blocks[i].s.value))
  {
    var n := |blocks| - 1;
    if n > 0 {
      SumsBound(blocks[..n], if i < n then i else 0);
    }
  }

  /** If no rewind may hide a point of the sums, none may hide one of any block. */
  lemma SumsCoverBlocks(marks: set<Mark>, blocks: seq<KeyEntry>, i: nat)
    requires i < |blocks|
    requires forall j :: 0 <= j < |blocks| ==> StepsAgree(blocks[j]) && blocks[j].hasStep == blocks[0].hasStep
    ensures MayBeRewound(marks, blocks[i]) ==> MayBeRewound(marks, Sums(blocks))
  {
    SumsBound(blocks, i);
    if MayBeRewound(marks, blocks[i]) {
      var m :| m in marks && m.step < blocks[i].s.value.1 as real && (m.us.None? || blocks[i].t.0 <= m.us.value);
      assert m.step < Sums(blocks).s.value.1 as real;
    }
  }

  /** A rewind to `step` logged at `us` by `writer` hides the point, by string order. */
  predicate Hides(step: real, us: int, writer: int, place: nat, p: Point, key: Key) {
    p.step.Some? && step < p.step.value as real && Before(key, Key(Rank(us), writer, place))
  }

  /** No point is earlier than the first or has a greater step than the last: as in a block in
      order of time with its steps rising, and as in a file in order of steps whose least step
      was logged first. */
  ghost predicate Bounded(points: seq<Point>) {
    forall i :: 0 <= i < |points| ==>
      var p, first, last := points[i], points[0], points[|points| - 1];
      && first.us <= p.us
      && p.step.Some? == first.step.Some? == last.step.Some?
      && (p.step.Some? ==> p.step.value <= last.step.value)
  }

  lemma RankFollowsTime(a: int, b: int)
    requires Rank(a) <= Rank(b) && b % SECOND != 0
    ensures a <= b
  {
  }

  /** A rewind that hides a point of a block may touch the block — unless the rewind fell
      on a whole second — so a block none may touch is folded from its header in full. */
  lemma HiddenMayBeRewound(points: seq<Point>, places: seq<nat>, step: real, us: int, w: int, place: nat,
                           i: nat, key: Key)
    requires points != [] && |points| == |places| && Bounded(points) && i < |points|
    requires key.ts == Rank(points[i].us) && us % SECOND != 0
    requires Hides(step, us, w, place, points[i], key)
    ensures MayBeRewound({Mark(step, Some(us))}, Header(points, places))
  {
    RankFollowsTime(points[i].us, us);
    var m := Mark(step, Some(us));
    assert m in {m} && m.step < Header(points, places).s.value.1 as real;
  }

  /** On a whole second, one goes unnoticed: any rewind then hides a stepped point of the
      second's fractions that its block is folded without looking at. */
  lemma WholeSecondHides(step: real, us: int, w: int, place: nat) returns (p: Point)
    requires us % SECOND == 0
    ensures !MayBeRewound({Mark(step, Some(us))}, Header([p], [0])) && Bounded([p])
    ensures Hides(step, us, w, place, p, Key(Rank(p.us), w, 0))
  {
    p := Point(Finite(0.0), us + 1, Some(step.Floor + 1));
    assert (us + 1) / SECOND == us / SECOND && (us + 1) % SECOND == 1;
  }
}

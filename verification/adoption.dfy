/**
 Compaction with rewinds applied, and a `.vmx` adopted by its counts (`metric_compact`,
 `index_metric_adopt`).

 Compaction drops the points that the rewinds known hide, in time. A `.vmx` is adopted when
 it counts as many points of each key as were folded of the segments it covers. Without
 dropped points that tells that every block was folded (`CountingArgument`). With them it
 tells only that as many were dropped as were not read (`CountsTellWhen`): the file may
 hold other points than were folded, and the unread ones are lost (`UnreadLost`). The fold is
 right unless a point that no rewind hides was unread (`AdoptedFold`).
 */
module Adoption {
  import opened Fold
  import opened FoldSums
  import opened RecordFold
  import opened BlockFold
  import opened RecordMetrics

  type Stream = seq<seq<Block>>

  // --------------------------------------------------------- nothing dropped: counting

  /** Of each of the first `n` segments of the stream, `got` holds a first part. */
  ghost predicate Prefixes(got: Stream, stream: Stream, n: nat) {
    n <= |got| && n <= |stream| && forall i :: 0 <= i < n ==> got[i] <= stream[i]
  }

  lemma {:induction false} GotAtMostAll(got: Stream, stream: Stream, n: nat, k: Name)
    requires Prefixes(got, stream, n)
    ensures CountAll(got, n, k) <= CountAll(stream, n, k)
    ensures CountAll(got, n, k) == CountAll(stream, n, k) ==>
      forall i :: 0 <= i < n ==> CountOf(got[i], k) == CountOf(stream[i], k)
  {
    if n > 0 {
      GotAtMostAll(got, stream, n - 1, k);
      assert got[n - 1] <= stream[n - 1];
      PrefixCounts(stream[n - 1], |got[n - 1]|, k);
      assert stream[n - 1][..|got[n - 1]|] == got[n - 1];
    }
  }

  /** `got` is cut from a stream of intact blocks. */
  ghost predicate CutFrom(got: Stream, stream: Stream, n: nat) {
    Prefixes(got, stream, n) && forall i :: 0 <= i < n ==> BlocksOk(stream[i])
  }

  ghost predicate CountsAgree(got: Stream, stream: Stream, n: nat)
    requires n <= |got| && n <= |stream|
  {
    forall k :: CountAll(got, n, k) == CountAll(stream, n, k)
  }

  lemma {:induction false} SameCounts(a: Stream, b: Stream, n: nat, k: Name)
    requires n <= |a| && n <= |b| && a[..n] == b[..n]
    ensures CountAll(a, n, k) == CountAll(b, n, k)
  {
    if n > 0 {
      assert a[..n - 1] == a[..n][..n - 1] && b[..n - 1] == b[..n][..n - 1];
      SameCounts(a, b, n - 1, k);
      assert a[n - 1] == a[..n][n - 1] && b[n - 1] == b[..n][n - 1];
    }
  }

  /** The counts agree for every key if and only if no block is missing. */
  lemma CountingArgument(got: Stream, stream: Stream, n: nat)
    requires CutFrom(got, stream, n)
    ensures CountsAgree(got, stream, n) <==> got[..n] == stream[..n]
  {
    if CountsAgree(got, stream, n) {
      forall i | 0 <= i < n ensures got[i] == stream[i] {
        CountsNothingMissing(got, stream, n, i);
      }
    }
    if got[..n] == stream[..n] {
      forall k ensures CountAll(got, n, k) == CountAll(stream, n, k) {
        SameCounts(got, stream, n, k);
      }
    }
  }

  lemma CountsNothingMissing(got: Stream, stream: Stream, n: nat, i: nat)
    requires Prefixes(got, stream, n) && i < n && BlocksOk(stream[i])
    requires CountsAgree(got, stream, n)
    ensures got[i] == stream[i]
  {
    forall k ensures CountOf(got[i], k) == CountOf(stream[i], k) {
      GotAtMostAll(got, stream, n, k);
      assert CountAll(got, n, k) == CountAll(stream, n, k);
    }
    assert stream[i][..|got[i]|] == got[i];
    if |got[i]| < |stream[i]| {
      MissingBlockShows(stream[i], |got[i]|);
    }
  }

  // ------------------------------------------------------------ rewinds applied

  /** The time a rewind is compared by; 0 when its timestamp is none. */
  function TimeOf(m: Marker): int { if UsOf(m.key.ts).Some? then UsOf(m.key.ts).value else 0 }

  /** Compaction: the rewind hides the point by its time. */
  predicate DroppedBy(m: Marker, p: Point) {
    p.step.Some? && m.step < p.step.value as real && p.us < TimeOf(m)
  }

  predicate IsDropped(applied: set<Marker>, p: Point) { exists m :: m in applied && DroppedBy(m, p) }

  /** The fold: a rewind hides the point, by the strings of their times. */
  predicate IsHidden(rewinds: set<Marker>, p: Point, writer: int) { exists m :: m in rewinds && HiddenBy(m, p, writer) }

  /** What a rewind drops the fold hides, unless the point fell on the whole second the rewind
      is in. */
  lemma DroppedIsHidden(m: Marker, p: Point, writer: int)
    requires UsOf(m.key.ts).Some? && DroppedBy(m, p)
    ensures var us := UsOf(m.key.ts).value;
            !HiddenBy(m, p, writer) <==> p.us % SECOND == 0 && us / SECOND == p.us / SECOND
  {
    UsIsRank(m.key.ts);
  }

  /** What the fold hides a rewind drops, unless the point has the rewind's time, or is later
      within its whole second. */
  lemma HiddenIsDropped(m: Marker, p: Point, writer: int)
    requires UsOf(m.key.ts).Some? && HiddenBy(m, p, writer)
    ensures var us := UsOf(m.key.ts).value;
            !DroppedBy(m, p) <==> p.us == us || (us % SECOND == 0 && us < p.us && p.us / SECOND == us / SECOND)
  {
    UsIsRank(m.key.ts);
  }

  function Kept(applied: set<Marker>, ps: seq<Point>): seq<Point> {
    if ps == [] then []
    else
      var rest, p := Kept(applied, ps[..|ps| - 1]), ps[|ps| - 1];
      if IsDropped(applied, p) then rest else rest + [p]
  }

  function DroppedOf(applied: set<Marker>, ps: seq<Point>): seq<Point> {
    if ps == [] then []
    else
      var rest, p := DroppedOf(applied, ps[..|ps| - 1]), ps[|ps| - 1];
      if IsDropped(applied, p) then rest + [p] else rest
  }

  lemma OneMoreOf<T>(all: seq<T>, a: seq<T>, b: seq<T>, x: T)
    requires multiset(all) == multiset(a) + multiset(b)
    ensures multiset(all + [x]) == multiset(a + [x]) + multiset(b) == multiset(a) + multiset(b + [x])
  {
  }

  lemma {:induction false} KeptOrDropped(applied: set<Marker>, ps: seq<Point>)
    ensures multiset(ps) == multiset(Kept(applied, ps)) + multiset(DroppedOf(applied, ps))
    ensures applied == {} ==> DroppedOf(applied, ps) == []
  {
    if ps != [] {
      var init, p := ps[..|ps| - 1], ps[|ps| - 1];
      KeptOrDropped(applied, init);
      OneMoreOf(init, Kept(applied, init), DroppedOf(applied, init), p);
      assert ps == init + [p];
    }
  }

  // --------------------------------------------------------------- what was not read

  /** The file is the roll-up of the stream `raw`, of which `got` was folded, less what the
      rewinds applied drop. */
  ghost predicate RolledFrom(got: Stream, raw: Stream, vmx: Vmx, applied: set<Marker>) {
    && CutFrom(Resized(got, vmx.last + 1), raw, vmx.last + 1)
    && forall k :: multiset(PointsIn(vmx.content, k)) == multiset(Kept(applied, StreamPoints(raw, vmx.last + 1, k)))
  }

  /** The blocks of the first `n` segments past those folded. */
  function Unread(got: Stream, raw: Stream, n: nat): seq<Block>
    requires n <= |got| && n <= |raw| && forall i :: 0 <= i < n ==> got[i] <= raw[i]
  {
    if n == 0 then [] else Unread(got, raw, n - 1) + raw[n - 1][|got[n - 1]|..]
  }

  /** Those a `.vmx` covers. */
  function UnreadOf(got: Stream, raw: Stream, vmx: Vmx): seq<Block>
    requires Prefixes(Resized(got, vmx.last + 1), raw, vmx.last + 1)
  {
    Unread(Resized(got, vmx.last + 1), raw, vmx.last + 1)
  }

  lemma UnreadNext(got: Stream, raw: Stream, n: nat, k: Name)
    requires n > 0 && Prefixes(got, raw, n)
    ensures var g, rest := got[n - 1], raw[n - 1][|got[n - 1]|..];
            && BlocksPoints(raw[n - 1], k) == BlocksPoints(g, k) + BlocksPoints(rest, k)
            && BlocksPoints(Unread(got, raw, n), k) == BlocksPoints(Unread(got, raw, n - 1), k) + BlocksPoints(rest, k)
  {
    hide BlocksPoints;
    var g, rest := got[n - 1], raw[n - 1][|got[n - 1]|..];
    assert raw[n - 1] == g + rest;
    BlocksJoined(g, rest, k);
    BlocksJoined(Unread(got, raw, n - 1), rest, k);
  }

  lemma NoneUnread(got: Stream, raw: Stream, k: Name)
    ensures BlocksPoints(Unread(got, raw, 0), k) == []
  {
  }

  lemma {:induction false} UnreadPoints(got: Stream, raw: Stream, n: nat, k: Name)
    requires Prefixes(got, raw, n)
    ensures multiset(StreamPoints(raw, n, k))
            == multiset(StreamPoints(got, n, k)) + multiset(BlocksPoints(Unread(got, raw, n), k))
  {
    hide StreamPoints, BlocksPoints, Unread;
    if n > 0 {
      UnreadPoints(got, raw, n - 1, k);
      UnreadNext(got, raw, n, k);
      StreamNext(raw, n, k);
      StreamNext(got, n, k);
      Shuffled(StreamPoints(got, n - 1, k), BlocksPoints(Unread(got, raw, n - 1), k), BlocksPoints(got[n - 1], k),
               BlocksPoints(raw[n - 1][|got[n - 1]|..], k), StreamPoints(raw, n - 1, k));
    } else {
      NoSegments(raw, k);
      NoSegments(got, k);
      NoneUnread(got, raw, k);
    }
  }

  lemma NoRest<T>(g: seq<T>, r: seq<T>)
    requires g <= r
    ensures r[|g|..] == [] <==> g == r
  {
    assert r == g + r[|g|..];
    if g == r { assert |r[|g|..]| == 0; }
  }

  lemma NoneOfBoth<T>(a: seq<T>, b: seq<T>)
    ensures a + b == [] <==> a == [] && b == []
  {
    assert |a + b| == |a| + |b|;
  }

  lemma {:induction false} NothingUnread(got: Stream, raw: Stream, n: nat)
    requires Prefixes(got, raw, n)
    ensures Unread(got, raw, n) == [] <==> forall i :: 0 <= i < n ==> got[i] == raw[i]
  {
    if n > 0 {
      NothingUnread(got, raw, n - 1);
      NoRest(got[n - 1], raw[n - 1]);
      NoneOfBoth(Unread(got, raw, n - 1), raw[n - 1][|got[n - 1]|..]);
    }
  }

  lemma SameFirst(got: Stream, raw: Stream, n: nat)
    requires n <= |got| && n <= |raw|
    ensures got[..n] == raw[..n] <==> forall i :: 0 <= i < n ==> got[i] == raw[i]
  {
    if got[..n] == raw[..n] {
      forall i | 0 <= i < n ensures got[i] == raw[i] { assert got[..n][i] == raw[..n][i]; }
    }
  }

  lemma Shuffled<T>(a: seq<T>, b: seq<T>, c: seq<T>, d: seq<T>, ab: seq<T>)
    requires multiset(ab) == multiset(a) + multiset(b)
    ensures multiset(ab + (c + d)) == multiset(a + c) + multiset(b + d)
  {
  }

  lemma SizeOfSum<T>(all: seq<T>, a: seq<T>, b: seq<T>)
    requires multiset(all) == multiset(a) + multiset(b)
    ensures |all| == |a| + |b|
  {
    assert |multiset(all)| == |all| && |multiset(a)| == |a| && |multiset(b)| == |b|;
  }

  /** The stream's points of a key, parted by what compaction kept and by what was read. */
  lemma BothParts(got: Stream, raw: Stream, vmx: Vmx, applied: set<Marker>, k: Name)
    requires RolledFrom(got, raw, vmx, applied)
    ensures var all := StreamPoints(raw, vmx.last + 1, k);
            var dropped := DroppedOf(applied, all);
            var read, unread := PointsUpTo(got, vmx.last + 1, k), BlocksPoints(UnreadOf(got, raw, vmx), k);
            && multiset(all) == multiset(PointsIn(vmx.content, k)) + multiset(dropped)
            && multiset(all) == multiset(read) + multiset(unread)
            && |all| == CountIn(vmx.content, k) + |dropped| == |read| + |unread|
  {
    hide StreamPoints, BlocksPoints, PointsIn, DroppedOf, Kept;
    var all := StreamPoints(raw, vmx.last + 1, k);
    KeptOrDropped(applied, all);
    UnreadPoints(Resized(got, vmx.last + 1), raw, vmx.last + 1, k);
    SizeOfSum(all, PointsIn(vmx.content, k), DroppedOf(applied, all));
    SizeOfSum(all, PointsUpTo(got, vmx.last + 1, k), BlocksPoints(UnreadOf(got, raw, vmx), k));
  }

  /** How many points of a key were dropped, and how many were not read. */
  function Drops(raw: Stream, vmx: Vmx, applied: set<Marker>, k: Name): seq<Point>
    requires vmx.last < |raw|
  {
    DroppedOf(applied, StreamPoints(raw, vmx.last + 1, k))
  }

  function Missed(got: Stream, raw: Stream, vmx: Vmx, k: Name): seq<Point>
    requires Prefixes(Resized(got, vmx.last + 1), raw, vmx.last + 1)
  {
    BlocksPoints(UnreadOf(got, raw, vmx), k)
  }

  /** The counts tell just when of each key as many points were dropped as were not read. */
  lemma CountsTellWhen(got: Stream, raw: Stream, vmx: Vmx, applied: set<Marker>)
    requires RolledFrom(got, raw, vmx, applied)
    ensures CountsTell(got, vmx) <==> forall k :: |Drops(raw, vmx, applied, k)| == |Missed(got, raw, vmx, k)|
  {
    hide StreamPoints, BlocksPoints, PointsIn, DroppedOf, BlocksOk, PointsUpTo, UnreadOf, Kept;
    forall k
      ensures CountIn(vmx.content, k) == |PointsUpTo(got, vmx.last + 1, k)|
              <==> |Drops(raw, vmx, applied, k)| == |Missed(got, raw, vmx, k)|
    {
      BothParts(got, raw, vmx, applied, k);
    }
    if CountsTell(got, vmx) {
      forall k ensures |Drops(raw, vmx, applied, k)| == |Missed(got, raw, vmx, k)| {
        assert CountIn(vmx.content, k) == |PointsUpTo(got, vmx.last + 1, k)|;
      }
    }
  }

  /** It holds what was folded just when those dropped are those not read. */
  lemma HoldsSameWhen(got: Stream, raw: Stream, vmx: Vmx, applied: set<Marker>)
    requires RolledFrom(got, raw, vmx, applied)
    ensures HoldsSame(got, vmx)
            <==> forall k :: multiset(Drops(raw, vmx, applied, k)) == multiset(Missed(got, raw, vmx, k))
  {
    hide StreamPoints, BlocksPoints, PointsIn, DroppedOf, BlocksOk, PointsUpTo, UnreadOf, Kept;
    forall k
      ensures multiset(PointsIn(vmx.content, k)) == multiset(PointsUpTo(got, vmx.last + 1, k))
              <==> multiset(Drops(raw, vmx, applied, k)) == multiset(Missed(got, raw, vmx, k))
    {
      BothParts(got, raw, vmx, applied, k);
      Cancelled(multiset(PointsIn(vmx.content, k)), multiset(Drops(raw, vmx, applied, k)),
                multiset(PointsUpTo(got, vmx.last + 1, k)), multiset(Missed(got, raw, vmx, k)));
    }
    if HoldsSame(got, vmx) {
      forall k ensures multiset(Drops(raw, vmx, applied, k)) == multiset(Missed(got, raw, vmx, k)) {
        assert multiset(PointsIn(vmx.content, k)) == multiset(PointsUpTo(got, vmx.last + 1, k));
      }
    }
  }

  lemma Cancelled<T>(a: multiset<T>, b: multiset<T>, c: multiset<T>, d: multiset<T>)
    requires a + b == c + d
    ensures a == c <==> b == d
  {
    if a == c {
      assert b == (a + b) - a && d == (c + d) - c;
    }
    if b == d {
      assert a == (a + b) - b && c == (c + d) - d;
    }
  }

  /** With no rewind applied the counts tell just when nothing is unread. */
  lemma UnappliedTells(got: Stream, raw: Stream, vmx: Vmx)
    requires RolledFrom(got, raw, vmx, {})
    ensures CountsTell(got, vmx) <==> UnreadOf(got, raw, vmx) == []
  {
    hide StreamPoints, PointsIn, PointsUpTo, BlocksOk, Kept, DroppedOf, BlocksPoints;
    var n, part := vmx.last + 1, Resized(got, vmx.last + 1);
    forall k ensures CountAll(part, n, k) == |PointsUpTo(got, n, k)| && CountAll(raw, n, k) == CountIn(vmx.content, k) {
      KeptOrDropped({}, StreamPoints(raw, n, k));
      BothParts(got, raw, vmx, {}, k);
      PointsUpToIs(got, n, k);
    }
    assert CountsTell(got, vmx) ==> CountsAgree(part, raw, n) by {
      if CountsTell(got, vmx) {
        forall k ensures CountAll(part, n, k) == CountAll(raw, n, k) {
          assert CountIn(vmx.content, k) == |PointsUpTo(got, vmx.last + 1, k)|;
        }
      }
    }
    assert CountsAgree(part, raw, n) ==> CountsTell(got, vmx) by {
      if CountsAgree(part, raw, n) {
        forall k ensures CountIn(vmx.content, k) == |PointsUpTo(got, vmx.last + 1, k)| {
          assert CountAll(part, n, k) == CountAll(raw, n, k);
        }
      }
    }
    CountingArgument(part, raw, n);
    SameFirst(part, raw, n);
    NothingUnread(part, raw, n);
  }

  lemma PointsUpToIs(got: Stream, n: nat, k: Name)
    ensures PointsUpTo(got, n, k) == StreamPoints(Resized(got, n), n, k)
  {
  }

  /** With no rewind applied, or nothing unread, counts that tell are not mistaken. */
  lemma NotMistaken(got: Stream, raw: Stream, vmx: Vmx, applied: set<Marker>)
    requires RolledFrom(got, raw, vmx, applied) && (applied == {} || UnreadOf(got, raw, vmx) == [])
    ensures !Mistaken(got, vmx)
  {
    hide StreamPoints, PointsIn, PointsUpTo, BlocksOk, Kept, DroppedOf;
    CountsTellWhen(got, raw, vmx, applied);
    HoldsSameWhen(got, raw, vmx, applied);
    if CountsTell(got, vmx) {
      if applied == {} { UnappliedTells(got, raw, vmx); }
      forall k ensures multiset(Drops(raw, vmx, applied, k)) == multiset(Missed(got, raw, vmx, k)) {
        assert Missed(got, raw, vmx, k) == [];
        assert |Drops(raw, vmx, applied, k)| == |Missed(got, raw, vmx, k)|;
      }
    }
  }

  lemma OneKey(k: Name, ps: seq<Point>, j: Name)
    ensures PointsIn([Col(k, ps)], j) == if j == k then ps else []
  {
    assert [Col(k, ps)][..0] == [];
  }

  /** A segment of one block, then grown by another. */
  lemma GrownPoints(a: Block, b: Block, k: Name)
    ensures StreamPoints([[a]], 1, k) == PointsIn(a, k)
    ensures StreamPoints([[a, b]], 1, k) == PointsIn(a, k) + PointsIn(b, k)
    ensures PointsUpTo([[a]], 1, k) == PointsIn(a, k)
    ensures BlocksPoints([b], k) == PointsIn(b, k)
  {
    OneBlock(a, k);
    OneBlock(b, k);
    BlocksJoined([a], [b], k);
    assert [a] + [b] == [a, b];
    NoSegments([[a]], k);
    NoSegments([[a, b]], k);
    UpToIs([[a]], 1, k);
  }

  lemma GrownUnread(a: Block, b: Block, vmx: Vmx)
    requires vmx.last == 0 && BlockOk(a) && BlockOk(b)
    ensures CutFrom(Resized([[a]], 1), [[a, b]], 1) && UnreadOf([[a]], [[a, b]], vmx) == [b]
  {
    var got, raw := Resized([[a]], 1), [[a, b]];
    assert got == [[a]] && got[0] <= raw[0];
    assert raw[0][|got[0]|..] == [b];
    assert Unread(got, raw, 0) == [] && Unread(got, raw, 1) == [] + [b];
  }

  lemma KeptTwo(applied: set<Marker>, p: Point, q: Point, r: Point)
    requires !IsDropped(applied, p) && IsDropped(applied, q) && !IsDropped(applied, r)
    ensures Kept(applied, [p, q] + [r]) == [p, r]
  {
    var all := [p, q] + [r];
    assert all[..2] == [p, q] && [p, q][..1] == [p] && [p][..0] == [];
    assert Kept(applied, []) == [] && Kept(applied, [p]) == [] + [p] && Kept(applied, [p, q]) == [p];
    assert Kept(applied, all) == [p] + [r];
  }

  /** The counts of one folded block. */
  lemma OneSummed(k: Name, ps: seq<Point>)
    requires ps != []
    ensures SumCountsOf(WithBlock(map[], [Col(k, ps)], 0)) == map[k := |ps|]
  {
    assert [Col(k, ps)][..0] == [];
    assert WithBlock(map[], [], 0) == map[];
  }

  lemma MistakenFile(applied: set<Marker>, k: Name, p: Point, q: Point, r: Point, vmx: Vmx)
    requires !IsDropped(applied, p) && IsDropped(applied, q) && !IsDropped(applied, r) && p != r
    requires vmx.last == 0 && vmx.content == [Col(k, [p, r])]
    ensures var folded, late: Block := [Col(k, [p, q])], [Col(k, [r])];
            && RolledFrom([[folded]], [[folded, late]], vmx, applied) && Mistaken([[folded]], vmx)
            && UnreadOf([[folded]], [[folded, late]], vmx) == [late]
  {
    hide StreamPoints, PointsIn, PointsUpTo, BlocksPoints, Kept, IsDropped, Unread, UnreadOf, BlockOk, CutFrom;
    var folded, late: Block := [Col(k, [p, q])], [Col(k, [r])];
    var got, raw := [[folded]], [[folded, late]];
    KeptTwo(applied, p, q, r);
    BlocksAreOk(k, [p, q]);
    BlocksAreOk(k, [r]);
    GrownUnread(folded, late, vmx);
    forall j
      ensures multiset(PointsIn(vmx.content, j)) == multiset(Kept(applied, StreamPoints(raw, 1, j)))
      ensures CountIn(vmx.content, j) == |PointsUpTo(got, 1, j)|
    {
      GrownPoints(folded, late, j);
      OneKey(k, [p, q], j);
      OneKey(k, [r], j);
      OneKey(k, [p, r], j);
      NoneKept(applied);
    }
    GrownPoints(folded, late, k);
    OneKey(k, [p, q], k);
    OneKey(k, [p, r], k);
    assert multiset([p, r])[r] == 1 && multiset([p, q])[r] == 0;
    assert multiset(PointsIn(vmx.content, k)) != multiset(PointsUpTo(got, vmx.last + 1, k));
  }

  /** Such a file: a rewind hid the second point of a segment folded whole; then the segment
      grew by a point, and was compacted. It is adopted, the new point never read. */
  lemma AdoptedMistaken(k: Name, writer: int, v: Num, size: nat)
    ensures var p, q, r := Point(v, 1, Some(1)), Point(v, SECOND + 1, Some(5)), Point(v, 3 * SECOND + 1, Some(2));
            var m := Marker(1.0, Key(Rank(2 * SECOND + 1), writer, 0));
            var folded, late: Block := [Col(k, [p, q])], [Col(k, [r])];
            var got, raw, vmx := [[folded]], [[folded, late]], Vmx(0, size, [Col(k, [p, r])]);
            && RolledFrom(got, raw, vmx, {m}) && Mistaken(got, vmx) && Adoptable(map[Segment(0) := 1], map[], 0)
            && FooterCounts(vmx.content) == NonZero(SumCountsOf(WithBlock(map[], folded, 0)))
            && UnreadOf(got, raw, vmx) == [late] && !IsHidden({m}, r, writer)
  {
    hide RolledFrom, Mistaken, UnreadOf, WithBlock, SumCountsOf, PointsIn;
    var p, q, r := Point(v, 1, Some(1)), Point(v, SECOND + 1, Some(5)), Point(v, 3 * SECOND + 1, Some(2));
    var m := Marker(1.0, Key(Rank(2 * SECOND + 1), writer, 0));
    UsReadBack(2 * SECOND + 1);
    assert DroppedBy(m, q);
    MistakenFile({m}, k, p, q, r, Vmx(0, size, [Col(k, [p, r])]));
    var objects := map[Segment(0) := 1];
    assert Superseding(objects, 0, 0) by { assert Segment(0) in objects && Segment(0).Holds(0); }
    OneSummed(k, [p, q]);
    OneFooter(k, [p, r]);
  }

  lemma OneFooter(k: Name, ps: seq<Point>)
    requires ps != []
    ensures FooterCounts([Col(k, ps)]) == map[k := |ps|]
  {
    OneKey(k, ps, k);
    assert [Col(k, ps)][0].key == k;
  }

  lemma NoneKept(applied: set<Marker>)
    ensures Kept(applied, [] + []) == []
  {
  }

  lemma BlocksAreOk(k: Name, ps: seq<Point>)
    requires ps != []
    ensures BlockOk([Col(k, ps)])
  {
  }

  // --------------------------------------------------------------- points no rewind hides

  /** The points that no rewind hides. */
  function VisibleOf(rewinds: set<Marker>, ps: seq<Point>, writer: int): seq<Point> {
    if ps == [] then []
    else
      var rest, p := VisibleOf(rewinds, ps[..|ps| - 1], writer), ps[|ps| - 1];
      if IsHidden(rewinds, p, writer) then rest else rest + [p]
  }

  /** The items the fold takes in: log entries, and points that no rewind hides. */
  function SeenOf(rewinds: set<Marker>, a: seq<Shown>): seq<Shown> {
    if a == [] then []
    else
      var rest, s := SeenOf(rewinds, a[..|a| - 1]), a[|a| - 1];
      if s.Streams? && IsHidden(rewinds, s.p, s.writer) then rest else rest + [s]
  }

  ghost predicate AllUntied(rewinds: set<Marker>, a: seq<Shown>) { forall i :: 0 <= i < |a| ==> Untied(rewinds, a[i]) }

  lemma HiddenIsRewound(rewinds: set<Marker>, s: Shown)
    requires s.Streams? && Untied(rewinds, s)
    ensures IsRewound(rewinds, EntryOf(s)) <==> IsHidden(rewinds, s.p, s.writer)
  {
    var x := EntryOf(s);
    forall m | m in rewinds ensures Before(x.key, m.key) <==> Before(Key(Rank(s.p.us), s.writer, 0), m.key) {
      assert !SameKey(m.key, x.key);
    }
  }

  /** Hidden points change nothing. */
  lemma {:induction false} HiddenAside(rewinds: set<Marker>, a: seq<Shown>)
    requires AllUntied(rewinds, a) && Markers(LogPart(a)) <= rewinds
    ensures AppliedAll(NewFold(rewinds), Entries(SeenOf(rewinds, a))) == AppliedAll(NewFold(rewinds), Entries(a))
    ensures LogPart(SeenOf(rewinds, a)) == LogPart(a)
  {
    if a != [] {
      var init, s := a[..|a| - 1], a[|a| - 1];
      MarkersAreLogs(a);
      EntriesLast(a);
      LastStep(rewinds, Entries(a));
      MarkersAreLogs(init);
      HiddenAside(rewinds, init);
      var seen := SeenOf(rewinds, init);
      if s.Streams? { HiddenIsRewound(rewinds, s); }
      assert (seen + [s])[..|seen|] == seen;
      EntriesLast(seen + [s]);
      MarkersAreLogs(seen + [s]);
      LastStep(rewinds, Entries(seen + [s]));
    }
  }

  lemma {:induction false} SeenPoints(rewinds: set<Marker>, a: seq<Shown>, w: int, k: Name)
    ensures PointsOf(SeenOf(rewinds, a), w, k) == VisibleOf(rewinds, PointsOf(a, w, k), w)
  {
    if a != [] {
      var init, s := a[..|a| - 1], a[|a| - 1];
      SeenPoints(rewinds, init, w, k);
      var seen := SeenOf(rewinds, init);
      assert (seen + [s])[..|seen|] == seen;
    }
  }

  /** Two of what is seen are two of all. */
  lemma {:induction false} SeenPlaces(rewinds: set<Marker>, a: seq<Shown>, i: nat, j: nat) returns (x: nat, y: nat)
    requires i < |SeenOf(rewinds, a)| && j < |SeenOf(rewinds, a)|
    ensures x < |a| && y < |a| && a[x] == SeenOf(rewinds, a)[i] && a[y] == SeenOf(rewinds, a)[j]
    ensures x == y <==> i == j
  {
    var init, s := a[..|a| - 1], a[|a| - 1];
    var seen := SeenOf(rewinds, init);
    if i < |seen| && j < |seen| {
      x, y := SeenPlaces(rewinds, init, i, j);
    } else if i < |seen| {
      x, y := SeenPlaces(rewinds, init, i, i);
      y := |a| - 1;
    } else if j < |seen| {
      x, y := SeenPlaces(rewinds, init, j, j);
      x := |a| - 1;
    } else {
      x, y := |a| - 1, |a| - 1;
    }
  }

  lemma SeenApart(rewinds: set<Marker>, a: seq<Shown>)
    requires Apart(rewinds, a)
    ensures Apart(rewinds, SeenOf(rewinds, a))
  {
    var b := SeenOf(rewinds, a);
    forall i, j | 0 <= i < |b| && 0 <= j < |b| ensures RecordFold.Alone(b, i, j) {
      var x, y := SeenPlaces(rewinds, a, i, j);
      assert RecordFold.Alone(a, x, y);
    }
    forall i | 0 <= i < |b| ensures Untied(rewinds, b[i]) {
      var x, y := SeenPlaces(rewinds, a, i, i);
      assert Untied(rewinds, a[x]);
    }
  }

  /** The same log entries, and the same points that no rewind hides. */
  ghost predicate SameSeen(rewinds: set<Marker>, a: seq<Shown>, b: seq<Shown>) {
    && multiset(LogPart(a)) == multiset(LogPart(b))
    && forall w, k ::
         multiset(VisibleOf(rewinds, PointsOf(a, w, k), w)) == multiset(VisibleOf(rewinds, PointsOf(b, w, k), w))
  }

  /** Folds whose visible points are the same are the same but for places. */
  lemma SeenDecides(rewinds: set<Marker>, a: seq<Shown>, b: seq<Shown>)
    requires SameSeen(rewinds, a, b) && AllUntied(rewinds, a) && Apart(rewinds, b)
    requires DistinctKeys(LogPart(b)) && Markers(LogPart(b)) <= rewinds
    ensures SameFold(AppliedAll(NewFold(rewinds), Entries(a)), AppliedAll(NewFold(rewinds), Entries(b)))
  {
    hide AppliedAll, Entries, LogPart, PointsOf, VisibleOf, SeenOf, Apart, Untied, DistinctKeys, Markers, SameFold;
    SameMarkers(LogPart(a), LogPart(b));
    ApartUntied(rewinds, b);
    HiddenAside(rewinds, a);
    HiddenAside(rewinds, b);
    forall w, k ensures multiset(PointsOf(SeenOf(rewinds, a), w, k)) == multiset(PointsOf(SeenOf(rewinds, b), w, k)) {
      SeenPoints(rewinds, a, w, k);
      SeenPoints(rewinds, b, w, k);
      assert multiset(VisibleOf(rewinds, PointsOf(a, w, k), w)) == multiset(VisibleOf(rewinds, PointsOf(b, w, k), w));
    }
    SeenApart(rewinds, b);
    SameShown(rewinds, SeenOf(rewinds, a), SeenOf(rewinds, b));
  }

  lemma ApartUntied(rewinds: set<Marker>, a: seq<Shown>)
    requires Apart(rewinds, a)
    ensures AllUntied(rewinds, a)
  {
  }

  lemma {:induction false} LoggedJoined(rewinds: set<Marker>, xs: seq<Keyed>, ys: seq<Keyed>, n: Name)
    ensures LoggedOf(rewinds, xs + ys, n) == LoggedOf(rewinds, xs, n) + LoggedOf(rewinds, ys, n)
  {
    if ys == [] {
      assert xs + ys == xs;
    } else {
      var init := ys[..|ys| - 1];
      LoggedJoined(rewinds, xs, init, n);
      assert (xs + ys)[..|xs + ys| - 1] == xs + init;
    }
  }

  lemma {:induction false} FinitesJoined(vs: seq<Stamped<Num>>, ws: seq<Stamped<Num>>)
    ensures CountFinite(vs + ws) == CountFinite(vs) + CountFinite(ws)
  {
    if ws == [] {
      assert vs + ws == vs;
    } else {
      FinitesJoined(vs, ws[..|ws| - 1]);
      assert (vs + ws)[..|vs + ws| - 1] == vs + ws[..|ws| - 1];
    }
  }

  /** A point that shows in its metric's count. */
  predicate Telling(rewinds: set<Marker>, s: Shown) {
    s.Streams? && !IsHidden(rewinds, s.p, s.writer) && s.p.value.Finite?
  }

  lemma {:induction false} TellingCounts(rewinds: set<Marker>, a: seq<Shown>, i: nat)
    requires i < |a| && Telling(rewinds, a[i]) && Untied(rewinds, a[i])
    ensures CountFinite(LoggedOf(rewinds, Entries(a), BaseKey(a[i].key))) > 0
  {
    EntriesLast(a);
    if i < |a| - 1 {
      var before := LoggedOf(rewinds, Entries(a[..|a| - 1]), BaseKey(a[i].key));
      TellingCounts(rewinds, a[..|a| - 1], i);
      var all := LoggedOf(rewinds, Entries(a), BaseKey(a[i].key));
      assert all == before || all[..|all| - 1] == before;
    } else {
      HiddenIsRewound(rewinds, a[i]);
    }
  }

  /** A point more that counts leaves another fold. */
  lemma LostTells(rewinds: set<Marker>, a: seq<Shown>, lost: seq<Shown>, i: nat)
    requires i < |lost| && Telling(rewinds, lost[i]) && Untied(rewinds, lost[i])
    requires Markers(LogPart(a + lost)) <= rewinds
    ensures !SameFold(AppliedAll(NewFold(rewinds), Entries(a)), AppliedAll(NewFold(rewinds), Entries(a + lost)))
  {
    hide Untied, SumsUp, IsLeast, IsGreatest, IsHidden;
    var n := BaseKey(lost[i].key);
    var xs, ys := Entries(a), Entries(lost);
    var vs, ws := LoggedOf(rewinds, xs, n), LoggedOf(rewinds, ys, n);
    PartsJoined(a, lost, 0, "");
    EntriesJoined(a, lost);
    MarkersAreLogs(a);
    MarkersAreLogs(a + lost);
    JoinedMarkers(LogPart(a), LogPart(lost));
    MetricSumsUp(rewinds, xs, n);
    MetricSumsUp(rewinds, xs + ys, n);
    LoggedJoined(rewinds, xs, ys, n);
    FinitesJoined(vs, ws);
    TellingCounts(rewinds, lost, i);
    OtherCounts(CellOf(rewinds, xs, n), CellOf(rewinds, xs + ys, n), rewinds, xs, xs + ys, n);
    assert !SameCell(CellOf(rewinds, xs, n), CellOf(rewinds, xs + ys, n));
  }

  lemma JoinedMarkers(xs: seq<Keyed>, ys: seq<Keyed>)
    ensures Markers(xs) <= Markers(xs + ys)
  {
    forall i | 0 <= i < |xs| && IsMarker(xs[i]) ensures MarkerOf(xs[i]) in Markers(xs + ys) {
      assert (xs + ys)[i] == xs[i];
    }
  }

  lemma OtherCounts(c: Cell, d: Cell, rewinds: set<Marker>, xs: seq<Keyed>, ys: seq<Keyed>, n: Name)
    requires CellSumsUp(c, rewinds, xs, n) && CellSumsUp(d, rewinds, ys, n)
    requires |LoggedOf(rewinds, xs, n)| < |LoggedOf(rewinds, ys, n)|
    requires CountFinite(LoggedOf(rewinds, xs, n)) < CountFinite(LoggedOf(rewinds, ys, n))
    ensures c.seen != d.seen
  {
  }

  /** What a fold lost: of points that no rewind hides `b` has those of `lost` besides. */
  ghost predicate Lost(rewinds: set<Marker>, a: seq<Shown>, lost: seq<Shown>, b: seq<Shown>) {
    SameSeen(rewinds, a + lost, b) && AllUntied(rewinds, a + lost) && LogPart(lost) == []
  }

  predicate Hidden(rewinds: set<Marker>, s: Shown) { s.Streams? && IsHidden(rewinds, s.p, s.writer) }

  lemma {:induction false} HiddenUnseen(rewinds: set<Marker>, a: seq<Shown>, lost: seq<Shown>)
    requires forall i :: 0 <= i < |lost| ==> Hidden(rewinds, lost[i])
    ensures SeenOf(rewinds, a + lost) == SeenOf(rewinds, a)
  {
    if lost == [] {
      assert a + lost == a;
    } else {
      var init := lost[..|lost| - 1];
      HiddenUnseen(rewinds, a, init);
      assert (a + lost)[..|a + lost| - 1] == a + init && (a + lost)[|a + lost| - 1] == lost[|lost| - 1];
    }
  }

  lemma SameFoldBack(f: Fold, g: Fold, h: Fold)
    requires SameFold(f, g) && SameFold(h, g)
    ensures SameFold(f, h)
  {
    forall n ensures SameCell(CellAt(f.cells, n), CellAt(h.cells, n)) {
      assert SameCell(CellAt(f.cells, n), CellAt(g.cells, n)) && SameCell(CellAt(h.cells, n), CellAt(g.cells, n));
    }
  }

  /** The folds are the same when all that was lost is hidden, and not when a point that
      counts was. */
  lemma LostDecides(rewinds: set<Marker>, a: seq<Shown>, lost: seq<Shown>, b: seq<Shown>)
    requires Lost(rewinds, a, lost, b) && Apart(rewinds, b)
    requires DistinctKeys(LogPart(b)) && Markers(LogPart(b)) <= rewinds
    ensures var f, g := AppliedAll(NewFold(rewinds), Entries(a)), AppliedAll(NewFold(rewinds), Entries(b));
            && ((forall i :: 0 <= i < |lost| ==> Hidden(rewinds, lost[i])) ==> SameFold(f, g))
            && ((exists i :: 0 <= i < |lost| && Telling(rewinds, lost[i])) ==> !SameFold(f, g))
  {
    hide AppliedAll, Entries, PointsOf, VisibleOf, SeenOf, Apart, Untied, DistinctKeys, Markers, Telling, Hidden,
      SameFold, LogPart;
    var f, h := AppliedAll(NewFold(rewinds), Entries(a)), AppliedAll(NewFold(rewinds), Entries(a + lost));
    var g := AppliedAll(NewFold(rewinds), Entries(b));
    SeenDecides(rewinds, a + lost, b);
    SameMarkers(LogPart(a + lost), LogPart(b));
    if forall i :: 0 <= i < |lost| ==> Hidden(rewinds, lost[i]) {
      HiddenUnseen(rewinds, a, lost);
      UntiedFirst(rewinds, a, lost);
      JoinedMarkers(LogPart(a), LogPart(lost));
      PartsJoined(a, lost, 0, "");
      HiddenAside(rewinds, a);
      HiddenAside(rewinds, a + lost);
    }
    if i :| 0 <= i < |lost| && Telling(rewinds, lost[i]) {
      assert Untied(rewinds, (a + lost)[|a| + i]);
      LostTells(rewinds, a, lost, i);
      if SameFold(f, g) { SameFoldBack(f, g, h); }
    }
  }

  lemma UntiedFirst(rewinds: set<Marker>, a: seq<Shown>, b: seq<Shown>)
    requires AllUntied(rewinds, a + b)
    ensures AllUntied(rewinds, a)
  {
    hide Untied;
    forall i | 0 <= i < |a| ensures Untied(rewinds, a[i]) { assert (a + b)[i] == a[i]; }
  }

  // ------------------------------------------------------------------ the fold adopted

  /** The points of blocks, key by key. */
  function StreamsIn(bs: seq<Block>, writer: int): seq<Shown> {
    if bs == [] then [] else StreamsIn(bs[..|bs| - 1], writer) + HeaderStreams(bs[|bs| - 1], 0, writer)
  }

  lemma {:induction false} StreamsInHold(bs: seq<Block>, writer: int, w: int, k: Name)
    ensures OnlyStreams(StreamsIn(bs, writer), writer) && LogPart(StreamsIn(bs, writer)) == []
    ensures PointsOf(StreamsIn(bs, writer), w, k) == if w == writer then BlocksPoints(bs, k) else []
  {
    if bs != [] {
      hide HeaderStreams, PointsOf, LogPart, PointsIn;
      var init, b := bs[..|bs| - 1], bs[|bs| - 1];
      StreamsInHold(init, writer, w, k);
      HeaderStreamsHold(b, 0, writer, k);
      OnlyStreamsParts(HeaderStreams(b, 0, writer), writer, w, k);
      PartsJoined(StreamsIn(init, writer), HeaderStreams(b, 0, writer), w, k);
    } else {
      OnlyStreamsParts([], writer, w, k);
      assert PointsOf([], w, k) == [];
    }
  }

  lemma {:induction false} PointShown(a: seq<Shown>, i: nat)
    requires i < |a| && a[i].Streams?
    ensures a[i].p in PointsOf(a, a[i].writer, a[i].key)
  {
    if i < |a| - 1 { PointShown(a[..|a| - 1], i); }
  }

  lemma {:induction false} ShownPoint(a: seq<Shown>, w: int, k: Name, p: Point) returns (i: nat)
    requires p in PointsOf(a, w, k)
    ensures i < |a| && a[i].Streams? && a[i].writer == w && a[i].key == k && a[i].p == p
  {
    var s := a[|a| - 1];
    if s.Streams? && s.writer == w && s.key == k && s.p == p {
      i := |a| - 1;
    } else {
      i := ShownPoint(a[..|a| - 1], w, k, p);
    }
  }

  lemma {:induction false} VisibleCount(rewinds: set<Marker>, ps: seq<Point>, writer: int, p: Point)
    ensures multiset(VisibleOf(rewinds, ps, writer))[p] == if IsHidden(rewinds, p, writer) then 0 else multiset(ps)[p]
  {
    if ps != [] {
      VisibleCount(rewinds, ps[..|ps| - 1], writer, p);
      assert ps == ps[..|ps| - 1] + [ps[|ps| - 1]];
    }
  }

  /** Points that hidden ones are taken from or added to have the same visible ones. */
  lemma SameVisible(rewinds: set<Marker>, a: seq<Point>, b: seq<Point>, more: seq<Point>, writer: int)
    requires multiset(a) == multiset(b) + multiset(more) && forall p :: p in more ==> IsHidden(rewinds, p, writer)
    ensures multiset(VisibleOf(rewinds, a, writer)) == multiset(VisibleOf(rewinds, b, writer))
  {
    forall p ensures multiset(VisibleOf(rewinds, a, writer))[p] == multiset(VisibleOf(rewinds, b, writer))[p] {
      VisibleCount(rewinds, a, writer, p);
      VisibleCount(rewinds, b, writer, p);
      if !IsHidden(rewinds, p, writer) { assert p !in multiset(more); }
    }
  }

  /** Every point the rewinds applied drop is one that the fold hides. */
  ghost predicate DropsHidden(rewinds: set<Marker>, applied: set<Marker>, raw: Stream, n: nat, writer: int)
    requires n <= |raw|
  {
    forall k, p :: p in StreamPoints(raw, n, k) && IsDropped(applied, p) ==> IsHidden(rewinds, p, writer)
  }

  lemma {:induction false} DroppedIn(applied: set<Marker>, ps: seq<Point>, p: Point)
    requires p in DroppedOf(applied, ps)
    ensures p in ps && IsDropped(applied, p)
  {
    if p !in DroppedOf(applied, ps[..|ps| - 1]) {
      assert p == ps[|ps| - 1];
    } else {
      DroppedIn(applied, ps[..|ps| - 1], p);
    }
  }

  /** `shown` has, of the writer, what was folded of the segments a `.vmx` covers and all of
      `later`; `listed` has the file's points instead; and they have the same of all else. */
  ghost predicate Swaps(shown: seq<Shown>, listed: seq<Shown>, writer: int, got: Stream, vmx: Vmx, later: seq<Block>) {
    && multiset(LogPart(shown)) == multiset(LogPart(listed))
    && (forall w, k :: w != writer ==> multiset(PointsOf(shown, w, k)) == multiset(PointsOf(listed, w, k)))
    && (forall k :: multiset(PointsOf(shown, writer, k))
          == multiset(PointsUpTo(got, vmx.last + 1, k)) + multiset(BlocksPoints(later, k)))
    && (forall k :: multiset(PointsOf(listed, writer, k))
          == multiset(PointsIn(vmx.content, k)) + multiset(BlocksPoints(later, k)))
  }

  lemma SwapsLose(rewinds: set<Marker>, shown: seq<Shown>, listed: seq<Shown>, writer: int, got: Stream, raw: Stream,
                  vmx: Vmx, applied: set<Marker>, later: seq<Block>, w: int, k: Name)
    requires RolledFrom(got, raw, vmx, applied) && Swaps(shown, listed, writer, got, vmx, later)
    requires DropsHidden(rewinds, applied, raw, vmx.last + 1, writer)
    ensures var lost := StreamsIn(UnreadOf(got, raw, vmx), writer);
            && LogPart(lost) == [] && multiset(LogPart(shown + lost)) == multiset(LogPart(listed))
            && multiset(VisibleOf(rewinds, PointsOf(shown + lost, w, k), w))
               == multiset(VisibleOf(rewinds, PointsOf(listed, w, k), w))
  {
    hide StreamPoints, BlocksPoints, PointsIn, PointsUpTo, PointsOf, LogPart, VisibleOf, DroppedOf, UnreadOf, StreamsIn,
      IsHidden, IsDropped, Kept, BlocksOk;
    var lost := StreamsIn(UnreadOf(got, raw, vmx), writer);
    var dropped := Drops(raw, vmx, applied, k);
    StreamsInHold(UnreadOf(got, raw, vmx), writer, w, k);
    PartsJoined(shown, lost, w, k);
    assert LogPart(shown) + [] == LogPart(shown);
    if w == writer {
      BothParts(got, raw, vmx, applied, k);
      forall p | p in dropped ensures IsHidden(rewinds, p, writer) {
        DroppedIn(applied, StreamPoints(raw, vmx.last + 1, k), p);
      }
      Regrouped(multiset(PointsIn(vmx.content, k)), multiset(dropped), multiset(PointsUpTo(got, vmx.last + 1, k)),
                multiset(Missed(got, raw, vmx, k)), multiset(BlocksPoints(later, k)));
      SameVisible(rewinds, PointsOf(shown + lost, w, k), PointsOf(listed, w, k), dropped, writer);
    } else {
      assert PointsOf(shown, w, k) + [] == PointsOf(shown, w, k);
      assert multiset(PointsOf(shown, w, k)) == multiset(PointsOf(listed, w, k));
      assert multiset(PointsOf(shown, w, k)) == multiset(PointsOf(listed, w, k)) + multiset([]);
      SameVisible(rewinds, PointsOf(shown, w, k), PointsOf(listed, w, k), [], w);
    }
  }

  lemma Regrouped<T>(content: multiset<T>, dropped: multiset<T>, read: multiset<T>, unread: multiset<T>,
                     later: multiset<T>)
    requires content + dropped == read + unread
    ensures read + later + unread == content + later + dropped
  {
    assert read + later + unread == read + unread + later;
  }

  /** A `.vmx` in the place of what was folded of its segments: the fold is the one of the
      listed objects when no rewind leaves a point visible that was not read, and another
      when one of those counts. */
  lemma AdoptedFold(rewinds: set<Marker>, shown: seq<Shown>, listed: seq<Shown>, writer: int, got: Stream, raw: Stream,
                    vmx: Vmx, applied: set<Marker>, later: seq<Block>)
    requires RolledFrom(got, raw, vmx, applied) && Swaps(shown, listed, writer, got, vmx, later)
    requires DropsHidden(rewinds, applied, raw, vmx.last + 1, writer)
    requires AllUntied(rewinds, shown + StreamsIn(UnreadOf(got, raw, vmx), writer)) && Apart(rewinds, listed)
    requires DistinctKeys(LogPart(listed)) && Markers(LogPart(listed)) <= rewinds
    ensures var f, g := AppliedAll(NewFold(rewinds), Entries(shown)), AppliedAll(NewFold(rewinds), Entries(listed));
            && ((forall k, p :: p in Missed(got, raw, vmx, k) ==> IsHidden(rewinds, p, writer)) ==> SameFold(f, g))
            && ((exists k, p :: p in Missed(got, raw, vmx, k) && !IsHidden(rewinds, p, writer) && p.value.Finite?) ==>
                  !SameFold(f, g))
  {
    hide AppliedAll, Entries, LogPart, PointsOf, BlocksPoints, VisibleOf, DistinctKeys, Markers, SameFold, UnreadOf,
      StreamsIn, IsHidden, RolledFrom, Swaps, DropsHidden, Apart, Untied;
    assert Prefixes(Resized(got, vmx.last + 1), raw, vmx.last + 1) by { IsPrefixes(got, raw, vmx, applied); }
    var lost := StreamsIn(UnreadOf(got, raw, vmx), writer);
    forall w, k
      ensures LogPart(lost) == [] && multiset(LogPart(shown + lost)) == multiset(LogPart(listed))
      ensures multiset(VisibleOf(rewinds, PointsOf(shown + lost, w, k), w))
              == multiset(VisibleOf(rewinds, PointsOf(listed, w, k), w))
    {
      SwapsLose(rewinds, shown, listed, writer, got, raw, vmx, applied, later, w, k);
    }
    assert Lost(rewinds, shown, lost, listed) by {
      SwapsLose(rewinds, shown, listed, writer, got, raw, vmx, applied, later, writer, "");
    }
    LostDecides(rewinds, shown, lost, listed);
    if forall k, p :: p in Missed(got, raw, vmx, k) ==> IsHidden(rewinds, p, writer) {
      forall i | 0 <= i < |lost| ensures Hidden(rewinds, lost[i]) {
        StreamsInHold(UnreadOf(got, raw, vmx), writer, writer, "");
        StreamsInHold(UnreadOf(got, raw, vmx), writer, writer, lost[i].key);
        PointShown(lost, i);
        assert lost[i].p in Missed(got, raw, vmx, lost[i].key);
      }
    }
    if k, p :| p in Missed(got, raw, vmx, k) && !IsHidden(rewinds, p, writer) && p.value.Finite? {
      StreamsInHold(UnreadOf(got, raw, vmx), writer, writer, k);
      var i := ShownPoint(lost, writer, k, p);
      assert Telling(rewinds, lost[i]);
    }
  }

  /** All of it read: a compacted file folds as the segments it took the place of. */
  lemma CompactedFoldsAlike(rewinds: set<Marker>, shown: seq<Shown>, listed: seq<Shown>, writer: int, raw: Stream,
                            vmx: Vmx, applied: set<Marker>, later: seq<Block>)
    requires RolledFrom(raw, raw, vmx, applied) && Swaps(shown, listed, writer, raw, vmx, later)
    requires DropsHidden(rewinds, applied, raw, vmx.last + 1, writer)
    requires AllUntied(rewinds, shown) && Apart(rewinds, listed)
    requires DistinctKeys(LogPart(listed)) && Markers(LogPart(listed)) <= rewinds
    ensures SameFold(AppliedAll(NewFold(rewinds), Entries(shown)), AppliedAll(NewFold(rewinds), Entries(listed)))
  {
    hide AppliedAll, Entries, LogPart, PointsOf, DistinctKeys, Markers, SameFold, IsHidden, RolledFrom, Swaps,
      DropsHidden, Apart, Untied;
    IsPrefixes(raw, raw, vmx, applied);
    NothingUnread(Resized(raw, vmx.last + 1), raw, vmx.last + 1);
    assert UnreadOf(raw, raw, vmx) == [] && shown + [] == shown;
    AdoptedFold(rewinds, shown, listed, writer, raw, raw, vmx, applied, later);
  }

  lemma IsPrefixes(got: Stream, raw: Stream, vmx: Vmx, applied: set<Marker>)
    requires RolledFrom(got, raw, vmx, applied)
    ensures Prefixes(Resized(got, vmx.last + 1), raw, vmx.last + 1)
  {
  }
}

/**
 One record kept current with its logs and its metric streams together (`update_logs`).

 The main result is `Record.Update`: whatever happened to the files since the last update —
 logs appended to, compacted or rewritten, metric objects grown, rolled up, rolled up
 further, with or without the points rewinds hide, gone or rewritten, rewinds logged late —
 the record then holds, but for the places of metric values, the fold from scratch of the
 listed logs and, point by point, of the listed metric objects (`FromScratch`). It relies on
 what listings tell: an unmoved signature means unmoved content, an object that did not
 shrink only grew, and a new `.vmx` that counts what was folded holds it (`Continues`; see
 `adoption.dfy` for when it does); on points that do not tie (`Apart`); on rewinds and blocks
 as `AllFit` describes; and on the rewinds blocks were folded under being listed still
 (`Metrics.Knew`).
 */
module RecordUpdate {
  import opened Fold
  import opened FoldSums
  import opened RecordFold
  import opened BlockFold
  import opened RecordMetrics
  import opened MetricState
  import L = RecordLogs

  // ------------------------------------------------------------------- from scratch

  /** The listed objects' blocks: a `.vmx` as one block, then the segments after it. */
  function VisibleBlocks(l: Listed): seq<Block> {
    (if l.vmx.Some? then [l.vmx.value.content] else []) + Flat(l.later)
  }

  function Flat(segments: seq<seq<Block>>): seq<Block> {
    if segments == [] then [] else Flat(segments[..|segments| - 1]) + segments[|segments| - 1]
  }

  /** Blocks point by point, each at the place after the points before it. */
  function BlocksShown(bs: seq<Block>, writer: int): seq<Shown> {
    if bs == [] then []
    else
      var before := BlocksShown(bs[..|bs| - 1], writer);
      before + PointStreams(bs[|bs| - 1], |before|, writer)
  }

  function MetricsShown(ls: Listing): seq<Shown> {
    if ls == [] then []
    else MetricsShown(ls[..|ls| - 1]) + BlocksShown(VisibleBlocks(ls[|ls| - 1]), ls[|ls| - 1].writer)
  }

  /** The entries listed. */
  function LogsListed(files: seq<L.File>): seq<Keyed> { KeyedAll(L.ArrivalsOf(files)) }

  /** All that is listed: the log entries, then the points of each writer. */
  function AllListed(files: seq<L.File>, ls: Listing): seq<Shown> { FromLogs(LogsListed(files)) + MetricsShown(ls) }

  /** The record folded from scratch, its rewinds known. */
  function FromScratch(files: seq<L.File>, ls: Listing): Fold {
    AppliedAll(NewFold(Markers(LogsListed(files))), Entries(AllListed(files, ls)))
  }

  lemma {:induction false} FlatPoints(segments: seq<seq<Block>>, k: Name)
    ensures BlocksPoints(Flat(segments), k) == AllPoints(segments, k)
  {
    if segments != [] {
      var init, last := segments[..|segments| - 1], segments[|segments| - 1];
      FlatPoints(init, k);
      BlocksJoined(Flat(init), last, k);
      assert segments[..|init|] == init[..|init|];
      SameStart(segments, init, |init|, k);
    }
  }

  lemma {:induction false} BlocksShownHold(bs: seq<Block>, writer: int, k: Name)
    ensures OnlyStreams(BlocksShown(bs, writer), writer)
    ensures multiset(PointsOf(BlocksShown(bs, writer), writer, k)) == multiset(BlocksPoints(bs, k))
  {
    if bs == [] {
      assert PointsOf([], writer, k) == [];
    } else {
      var init, b := bs[..|bs| - 1], bs[|bs| - 1];
      var a := BlocksShown(init, writer);
      var c := PointStreams(b, |a|, writer);
      assert BlocksShown(bs, writer) == a + c && BlocksPoints(bs, k) == BlocksPoints(init, k) + PointsIn(b, k);
      hide PointStreams, PointsOf, PointsIn, BlocksShown, BlocksPoints;
      BlocksShownHold(init, writer, k);
      PointStreamsHold(b, |a|, writer, k);
      PartsJoined(a, c, writer, k);
    }
  }

  /** The segments after the first `n`. */
  lemma {:induction false} PointsFrom(stream: seq<seq<Block>>, n: nat, k: Name)
    requires n <= |stream|
    ensures AllPoints(stream, k) == StreamPoints(stream, n, k) + AllPoints(stream[n..], k)
    decreases |stream|
  {
    if n < |stream| {
      hide StreamPoints, BlocksPoints;
      var m := |stream| - 1;
      var init, rest := stream[..m], stream[n..];
      PointsFrom(init, n, k);
      assert init[n..] == rest[..m - n];
      PrefixPoints(stream, m, m, k);
      PrefixPoints(stream, m, n, k);
      PrefixPoints(rest, m - n, m - n, k);
      StreamNext(stream, m + 1, k);
      StreamNext(rest, m - n + 1, k);
      Associates(StreamPoints(stream, n, k), StreamPoints(rest, m - n, k), BlocksPoints(stream[m], k));
    } else {
      NoSegments(stream[n..], k);
    }
  }

  lemma {:induction false} PrefixPoints(stream: seq<seq<Block>>, m: nat, n: nat, k: Name)
    requires n <= m <= |stream|
    ensures StreamPoints(stream[..m], n, k) == StreamPoints(stream, n, k)
  {
    assert stream[..m][..n] == stream[..n];
    SameStart(stream[..m], stream, n, k);
  }

  lemma Associates<T>(a: seq<T>, b: seq<T>, c: seq<T>)
    ensures (a + b) + c == a + (b + c)
  {
  }

  /** The listed objects hold the points of the stream. */
  lemma {:induction false} VisiblePoints(l: Listed, stream: Stream, k: Name)
    requires Lists(l, stream)
    ensures multiset(BlocksPoints(VisibleBlocks(l), k)) == multiset(AllPoints(stream, k))
  {
    var n := First(l.vmx);
    PointsFrom(stream, n, k);
    FlatPoints(l.later, k);
    hide BlocksPoints, StreamPoints, AllPoints, Flat, PointsIn;
    if l.vmx.Some? {
      BlocksJoined([l.vmx.value.content], Flat(l.later), k);
      OneBlock(l.vmx.value.content, k);
      assert multiset(PointsIn(l.vmx.value.content, k)) == multiset(StreamPoints(stream, n, k));
    } else {
      assert [] + Flat(l.later) == Flat(l.later);
      NoSegments(stream, k);
    }
  }

  lemma {:induction false} NoneShown(ls: Listing, w: int, k: Name)
    requires forall i :: 0 <= i < |ls| ==> ls[i].writer != w
    ensures LogPart(MetricsShown(ls)) == [] && PointsOf(MetricsShown(ls), w, k) == []
  {
    if ls != [] {
      hide BlocksShown, PointsOf, LogPart, VisibleBlocks;
      var init, l := ls[..|ls| - 1], ls[|ls| - 1];
      var a, b := MetricsShown(init), BlocksShown(VisibleBlocks(l), l.writer);
      NoneShown(init, w, k);
      BlocksShownHold(VisibleBlocks(l), l.writer, k);
      OnlyStreamsParts(b, l.writer, w, k);
      PartsJoined(a, b, w, k);
      assert LogPart(b) == [] && PointsOf(b, w, k) == [];
    }
  }

  /** The points listed of a writer are its stream's. */
  lemma {:induction false} MetricsShownHold(ls: Listing, i: nat, stream: Stream, k: Name)
    requires Distinct(ls) && i < |ls| && Lists(ls[i], stream)
    ensures LogPart(MetricsShown(ls)) == []
    ensures multiset(PointsOf(MetricsShown(ls), ls[i].writer, k)) == multiset(AllPoints(stream, k))
  {
    hide BlocksShown, PointsOf, LogPart, VisibleBlocks, Lists, AllPoints, BlocksPoints;
    var m, w := |ls| - 1, ls[i].writer;
    var init, l := ls[..m], ls[m];
    var a, b := MetricsShown(init), BlocksShown(VisibleBlocks(l), l.writer);
    BlocksShownHold(VisibleBlocks(l), l.writer, k);
    OnlyStreamsParts(b, l.writer, w, k);
    PartsJoined(a, b, w, k);
    assert MetricsShown(ls) == a + b;
    if i < m {
      assert init[i] == ls[i] && l.writer != w;
      MetricsShownHold(init, i, stream, k);
      assert PointsOf(b, w, k) == [];
    } else {
      NoneShown(init, w, k);
      VisiblePoints(l, stream, k);
      assert PointsOf(a, w, k) == [];
    }
  }

  lemma {:induction false} LogsOfMetrics(ls: Listing)
    ensures LogPart(MetricsShown(ls)) == []
  {
    if ls != [] {
      var init, l := ls[..|ls| - 1], ls[|ls| - 1];
      LogsOfMetrics(init);
      BlocksShownHold(VisibleBlocks(l), l.writer, "");
      OnlyStreamsParts(BlocksShown(VisibleBlocks(l), l.writer), l.writer, 0, "");
      PartsJoined(MetricsShown(init), BlocksShown(VisibleBlocks(l), l.writer), 0, "");
    }
  }

  /** What is listed of a writer. */
  lemma {:induction false} ListedPoints(files: seq<L.File>, ls: Listing, streams: map<int, Stream>, view: View,
                                        w: int, k: Name)
    requires Shows(ls, streams) && Current(view, ls, streams)
    requires forall v :: v in view && v !in streams ==> NoBlocks(view[v].got)
    ensures multiset(PointsOf(AllListed(files, ls), w, k)) == PointsAt(view, w, k)
    ensures LogPart(AllListed(files, ls)) == LogsListed(files)
  {
    hide PointsOf, LogPart, MetricsShown, AtListing, Footed, Lists, LogsListed;
    LogsOfMetrics(ls);
    FromLogsHold(LogsListed(files), w, k);
    PartsJoined(FromLogs(LogsListed(files)), MetricsShown(ls), w, k);
    assert LogsListed(files) + [] == LogsListed(files);
    var shown := PointsOf(MetricsShown(ls), w, k);
    assert [] + shown == shown;
    if w in streams {
      var i :| 0 <= i < |ls| && ls[i].writer == w;
      assert CurrentAt(view, ls[i], streams[w]);
      MetricsShownHold(ls, i, streams[w], k);
    } else {
      NoneShown(ls, w, k);
      EmptyRest(HeldOf(view, w).got, 0, |HeldOf(view, w).got|, k);
      NoSegments(HeldOf(view, w).got, k);
    }
  }

  // -------------------------------------------------------- from listing to listing

  /** As far as names and sizes tell, a writer's stream went on from one listing to the next:
      a segment that did not shrink only grew, a `.vmx` of the same size is the same, and one
      that covers other segments than before does not count what was there while holding
      other points. */
  ghost predicate ContinuesAt(a: Listed, was: Stream, b: Listed, now: Stream) {
    && (forall s: nat :: First(a.vmx) <= s < |was| && First(b.vmx) <= s < |now| && |was[s]| <= |now[s]| ==> was[s] <= now[s])
    && (a.vmx.Some? && b.vmx.Some? && a.vmx.value.last == b.vmx.value.last && a.vmx.value.size == b.vmx.value.size ==>
          forall i :: 0 <= i <= b.vmx.value.last < |now| ==> GotAt(was, i) == now[i])
    && (b.vmx.Some? && (a.vmx.None? || a.vmx.value.last != b.vmx.value.last) ==> !Mistaken(was, b.vmx.value))
  }

  ghost predicate Continues(a: Listing, was: map<int, Stream>, b: Listing, now: map<int, Stream>) {
    forall i, j :: 0 <= i < |a| && 0 <= j < |b| && a[i].writer == b[j].writer && a[i].writer in was && b[j].writer in now ==>
      ContinuesAt(a[i], was[a[i].writer], b[j], now[b[j].writer])
  }

  /** Sizes are those of what is folded, and without objects nothing is. */
  ghost predicate Sized(view: View) {
    forall w :: w in view ==> ObjectsRight(view[w].objects, view[w].got) && (view[w].objects == map[] ==> NoBlocks(view[w].got))
  }

  lemma {:induction false} CourseAt(h: Held, a: Listed, was: Stream, b: Listed, now: Stream)
    requires h.got == was && AtListing(h.objects, a) && Footed(h.objects, a) && ObjectsRight(h.objects, h.got)
    requires ContinuesAt(a, was, b, now) && Lists(a, was)
    ensures OnCourse(h, b, now)
  {
    hide RollsUp, BlocksOk, Mistaken;
    forall s: nat | Segment(s) in h.objects && First(b.vmx) <= s < |now| && h.objects[Segment(s)] <= |now[s]|
      ensures GotAt(h.got, s) <= now[s]
    {
      assert ObjectRight(h.objects, h.got, Segment(s));
    }
  }

  /** What is folded at one listing is on course for the next. */
  lemma {:induction false} CourseOn(view: View, a: Listing, was: map<int, Stream>, b: Listing, now: map<int, Stream>)
    requires Sized(view) && Current(view, a, was) && Shows(a, was) && Continues(a, was, b, now)
    ensures AllOnCourse(view, b, now)
  {
    hide ContinuesAt, AtListing, Footed, ObjectsRight, Lists, Follows, NoBlocks;
    forall j | 0 <= j < |b| && b[j].writer in now ensures OnCourse(HeldOf(view, b[j].writer), b[j], now[b[j].writer]) {
      var w := b[j].writer;
      if w in was {
        var i :| 0 <= i < |a| && a[i].writer == w;
        assert CurrentAt(view, a[i], was[w]);
        CourseAt(view[w], a[i], was[w], b[j], now[w]);
      } else {
        NothingFollows(HeldOf(view, w).got, b[j], now[w]);
      }
    }
  }

  lemma NothingFollows(got: Stream, l: Listed, stream: Stream)
    ensures Follows(map[], got, l, stream)
  {
  }

  lemma NeededEach(a: Listing, b: Listing, rewinds: set<Marker>)
    ensures Needed(ListingStraight(a), rewinds) <= Needed(ListingStraight(a + b), rewinds)
    ensures Needed(ListingStraight(b), rewinds) <= Needed(ListingStraight(a + b), rewinds)
  {
    hide ListStraight;
    if ListingStraight(a + b) {
      forall i | 0 <= i < |a| ensures ListStraight(a[i]) { assert a[i] == (a + b)[i]; }
      forall i | 0 <= i < |b| ensures ListStraight(b[i]) { assert b[i] == (a + b)[|a| + i]; }
    }
  }

  /** Nothing happened: still on course. */
  lemma {:induction false} CourseStays(view: View, ls: Listing, streams: map<int, Stream>)
    requires Current(view, ls, streams)
    ensures AllOnCourse(view, ls, streams)
  {
    forall i | 0 <= i < |ls| && ls[i].writer in streams ensures OnCourse(HeldOf(view, ls[i].writer), ls[i], streams[ls[i].writer]) {
      assert CurrentAt(view, ls[i], streams[ls[i].writer]);
    }
  }

  // ------------------------------------------------------------------ what agrees

  /** The points shown are those the metric state says were. */
  ghost predicate Agree(shown: seq<Shown>, view: View) {
    forall w, k :: multiset(PointsOf(shown, w, k)) == PointsAt(view, w, k)
  }

  lemma {:induction false} AgreeOn(shown: seq<Shown>, gained: seq<Shown>, was: View, now: View)
    requires Agree(shown, was) && Gains(gained, was, now)
    ensures Agree(shown + gained, now) && LogPart(shown + gained) == LogPart(shown)
  {
    hide PointsOf, PointsAt, LogPart;
    PartsJoined(shown, gained, 0, "");
    assert LogPart(shown) + [] == LogPart(shown);
    forall w, k ensures multiset(PointsOf(shown + gained, w, k)) == PointsAt(now, w, k) {
      PartsJoined(shown, gained, w, k);
      assert multiset(PointsOf(shown, w, k)) == PointsAt(was, w, k);
      assert PointsAt(now, w, k) == PointsAt(was, w, k) + multiset(PointsOf(gained, w, k));
    }
  }

  /** Logs alone agree with having folded nothing. */
  lemma {:induction false} LogsAgree(was: seq<Shown>, shown: seq<Shown>, view: View)
    requires L.OnlyLogs(was, shown) && Agree(was, view)
    ensures Agree(shown, view)
  {
    hide PointsAt, PointsOf;
    forall w, k ensures multiset(PointsOf(shown, w, k)) == PointsAt(view, w, k) {
      L.OnlyLogsPoints(was, shown, w, k);
      assert multiset(PointsOf(was, w, k)) == PointsAt(view, w, k);
    }
  }

  lemma {:induction false} NothingAgrees()
    ensures Agree([], map[])
  {
  }

  lemma {:induction false} PointsFolded(known: set<Marker>, shown: seq<Shown>, f: Fold, g: Fold, gained: seq<Shown>)
    requires f == AppliedAll(NewFold(known), Entries(shown)) && Folds(f, g, gained)
    ensures g == AppliedAll(NewFold(known), Entries(shown + gained))
  {
    EntriesJoined(shown, gained);
    AppliedOn(NewFold(known), Entries(shown), Entries(gained));
  }

  /** Everything folded is everything listed: the folds are the same but for places. */
  lemma {:induction false} AgreesWithScratch(known: set<Marker>, shown: seq<Shown>, arrivals: seq<Arrival>, view: View,
                                             files: seq<L.File>, ls: Listing, streams: map<int, Stream>)
    requires LogPart(shown) == KeyedAll(arrivals) && forall w :: LogOf(arrivals, w) == LogOf(L.ArrivalsOf(files), w)
    requires Agree(shown, view) && Sized(view) && Current(view, ls, streams) && Shows(ls, streams)
    requires known == Markers(LogsListed(files)) && Apart(known, AllListed(files, ls))
    ensures SameFold(AppliedAll(NewFold(known), Entries(shown)), FromScratch(files, ls))
  {
    hide PointsOf, LogPart, PointsAt, Apart, AllListed, Lists, Current, Shows, ObjectsRight, Entries,
      AppliedAll, SameFold;
    var all := AllListed(files, ls);
    SameLogsSameKeyed(arrivals, L.ArrivalsOf(files));
    KeyedDistinct(L.ArrivalsOf(files));
    forall w, k ensures multiset(PointsOf(shown, w, k)) == multiset(PointsOf(all, w, k)) && LogPart(all) == LogsListed(files) {
      UnlistedEmpty(view, ls, streams);
      ListedPoints(files, ls, streams, view, w, k);
      assert multiset(PointsOf(shown, w, k)) == PointsAt(view, w, k);
    }
    assert LogPart(all) == LogsListed(files) by { UnlistedEmpty(view, ls, streams); ListedPoints(files, ls, streams, view, 0, ""); }
    SameShown(known, shown, all);
  }

  lemma {:induction false} UnlistedEmpty(view: View, ls: Listing, streams: map<int, Stream>)
    requires Sized(view) && Current(view, ls, streams)
    ensures forall v :: v in view && v !in streams ==> NoBlocks(view[v].got)
  {
  }

  // ------------------------------------------------------------------ the class

  /** A listed metric object's name and signature. */
  datatype MetricSig = MetricSig(writer: int, object_: Object, size: nat, stamp: int)

  /** A record: its logs and fold, its metric state, and the metric signatures it was last
      folded at. */
  class Record {
    const logs: L.Record
    var metrics: Metrics
    var sigs: set<MetricSig>

    /** The fold holds the listed log entries, and the points the metric state says. */
    ghost predicate Folded(files: seq<L.File>)
      reads this, logs, logs.fold, metrics, metrics.States()
    {
      logs.Folded() && logs.Holds(files) && metrics.Valid() && Agree(logs.shown, metrics.Seen())
    }

    /** The record is up to date with the listed files and metric objects. */
    ghost predicate Valid(files: seq<L.File>, ls: Listing, streams: map<int, Stream>)
      reads this, logs, logs.fold, metrics, metrics.States()
    {
      && Folded(files) && !logs.fold.stale && Shows(ls, streams) && Current(metrics.Seen(), ls, streams)
      && metrics.Knew() <= Markers(LogsListed(files))
    }

    constructor ()
      ensures Valid([], [], map[]) && sigs == {} && metrics.Knew() == {}
      ensures fresh(logs) && fresh(logs.fold) && fresh(metrics) && fresh(metrics.States())
    {
      logs := new L.Record();
      metrics := new Metrics();
      sigs := {};
      new;
      NothingAgrees();
    }

    /** What folding metrics into the logs' fold needs of it. */
    lemma FoldReady(files: seq<L.File>)
      requires logs.Folded() && logs.Holds(files)
      ensures CellsOk(logs.fold.State()) && logs.fold.rewinds == Markers(LogsListed(files))
    {
      logs.RewindsAre(files);
      CellsStayOk(NewFold(logs.known), Entries(logs.shown));
    }

    /** Sizes are right. */
    lemma AllSized()
      requires metrics.Valid()
      ensures Sized(metrics.Seen())
    {
      forall w | w in metrics.Seen() ensures ObjectsRight(metrics.Seen()[w].objects, metrics.Seen()[w].got)
                                             && (metrics.Seen()[w].objects == map[] ==> NoBlocks(metrics.Seen()[w].got))
      {
        assert metrics.writers[w].Valid();
      }
    }

    /** Folds the metric objects again, into a fold that has just its logs. */
    method RefoldMetrics(ls: Listing, ghost files: seq<L.File>, ghost streams: map<int, Stream>)
      requires logs.Folded() && logs.Holds(files) && L.OnlyLogs([], logs.shown)
      requires metrics.Valid() && Shows(ls, streams) && AllOnCourse(metrics.Seen(), ls, streams)
      requires AllFit(Markers(LogsListed(files)), ls, streams) && metrics.Knew() <= Markers(LogsListed(files))
      modifies this`metrics, logs`shown, logs.fold
      ensures Folded(files) && Current(metrics.Seen(), ls, streams)
      ensures fresh(metrics) && fresh(metrics.States()) && logs.fold.stale == old(logs.fold.stale)
      ensures metrics.Knew() <= old(metrics.Knew()) + Needed(ListingStraight(ls), Markers(LogsListed(files)))
    {
      hide Shows, AllFit, AllOnCourse, Current, Agree, Gains, Folds, CellsOk, WriterState.Valid, AppliedAll, Entries, LogPart, KeyedAll,
        Markers, LogsListed, LogOf, Needed, ListingStraight, L.Record.Holds;
      FoldReady(files);
      ghost var f, shown, was := logs.fold.State(), logs.shown, metrics.Seen();
      var now := new Metrics();
      assert metrics.Seen() == was && metrics.Valid();
      ghost var gained := now.Refold(logs.fold, metrics, ls, streams);
      metrics := now;
      NothingAgrees();
      LogsAgree([], shown, map[]);
      Joins(logs.known, shown, f, logs.fold.State(), gained, map[], metrics.Seen());
      logs.shown := shown + gained;
    }

    /** Folds what the metric objects grew by; false when the record is to be folded again. */
    method GrowMetrics(ls: Listing, ghost files: seq<L.File>, ghost streams: map<int, Stream>) returns (ok: bool)
      requires Folded(files) && Shows(ls, streams) && AllOnCourse(metrics.Seen(), ls, streams)
      requires AllFit(Markers(LogsListed(files)), ls, streams)
      modifies metrics, metrics.States(), logs`shown, logs.fold
      ensures Folded(files) && fresh(metrics.States() - old(metrics.States()))
      ensures if ok then Current(metrics.Seen(), ls, streams) else AllOnCourse(metrics.Seen(), ls, streams)
      ensures logs.fold.stale == old(logs.fold.stale)
      ensures JustGrew(old(metrics.Seen()), ls) ==> ok
      ensures metrics.Knew() <= old(metrics.Knew()) + Needed(ListingStraight(ls), Markers(LogsListed(files)))
    {
      hide Shows, AllFit, AllOnCourse, Current, Agree, Gains, Folds, CellsOk, WriterState.Valid, JustGrew, AppliedAll, Entries, LogPart,
        KeyedAll, Markers, LogsListed, LogOf;
      FoldReady(files);
      ghost var f, shown, was := logs.fold.State(), logs.shown, metrics.Seen();
      ghost var gained: seq<Shown>;
      ok, gained := metrics.FoldGrowth(logs.fold, ls, streams);
      Joins(logs.known, shown, f, logs.fold.State(), gained, was, metrics.Seen());
      logs.shown := shown + gained;
    }

    /** Folds the record again, logs and metrics, knowing `rewinds`. */
    method RefoldAll(rewinds: set<Marker>, now: seq<L.File>, ls: Listing, ghost streams: map<int, Stream>)
      requires L.Unique(now) && rewinds <= Markers(LogsListed(now))
      requires metrics.Valid() && Shows(ls, streams) && AllOnCourse(metrics.Seen(), ls, streams)
      requires AllFit(Markers(LogsListed(now)), ls, streams) && metrics.Knew() <= Markers(LogsListed(now))
      modifies this`metrics, logs
      ensures metrics.Knew() <= old(metrics.Knew()) + Needed(ListingStraight(ls), Markers(LogsListed(now)))
      ensures Folded(now) && Current(metrics.Seen(), ls, streams)
      ensures fresh(logs.fold) && fresh(metrics) && fresh(metrics.States())
      ensures rewinds == Markers(LogsListed(now)) ==> !logs.fold.stale
    {
      hide Shows, AllFit, AllOnCourse, Current, Agree, WriterState.Valid, AppliedAll, Entries, LogPart,
        KeyedAll, Markers, LogOf;
      ghost var was := metrics.Seen();
      logs.Refold(rewinds, now);
      L.ReadAllRead(now);
      assert metrics.Seen() == was && metrics.Valid();
      logs.RewindsAre(now);
      RefoldMetrics(ls, now, streams);
    }

    /** Reads what the logs grew by, or folds the record again when they did anything else,
        from the metric objects listed then. */
    method UpdateLogs(ghost was: seq<L.File>, now: seq<L.File>, again: Listing, ghost streams: map<int, Stream>)
      returns (changed: bool, refolded: bool)
      requires Folded(was) && !logs.fold.stale && L.Unique(was) && L.Unique(now) && L.Fair(was, now)
      requires Shows(again, streams) && AllOnCourse(metrics.Seen(), again, streams)
      requires AllFit(Markers(LogsListed(now)), again, streams) && metrics.Knew() <= Markers(LogsListed(now))
      modifies this`metrics, logs, logs.fold
      ensures metrics.Knew() <= old(metrics.Knew()) + Needed(ListingStraight(again), Markers(LogsListed(now)))
      ensures Folded(now) && changed == !old(logs.SameSigs(now)) && refolded == !L.LooksAppended(was, now)
      ensures (logs.fold == old(logs.fold) || fresh(logs.fold))
      ensures if refolded then Current(metrics.Seen(), again, streams) && fresh(metrics) && fresh(metrics.States()) else metrics == old(metrics)
      ensures metrics == old(metrics) ==> metrics.Seen() == old(metrics.Seen()) && metrics.States() == old(metrics.States())
      ensures !changed ==> !refolded && logs.fold.State() == old(logs.fold.State())
    {
      hide Shows, AllFit, AllOnCourse, Current, Agree, WriterState.Valid, AppliedAll, Entries, LogPart, KeyedAll, Markers, LogOf,
        L.Fair, L.LooksAppended, LogsListed;
      ghost var seen, shown := metrics.Seen(), logs.shown;
      changed, refolded := logs.BringLogs(was, now);
      assert metrics.Seen() == seen && metrics.Valid();
      if refolded {
        RefoldMetrics(again, now, streams);
      } else {
        LogsAgree(shown, logs.shown, seen);
      }
    }

    /** Folds what the metric objects listed grew by, unless their signatures are those folded;
        folds the record again when that cannot be done. */
    method UpdateMetrics(now: seq<L.File>, listed: set<MetricSig>, ls: Listing, ghost streams: map<int, Stream>)
      returns (changed: bool)
      requires Folded(now) && L.Unique(now) && Shows(ls, streams)
      requires if listed == sigs then Current(metrics.Seen(), ls, streams) else AllOnCourse(metrics.Seen(), ls, streams)
      requires AllFit(Markers(LogsListed(now)), ls, streams) && metrics.Knew() <= Markers(LogsListed(now))
      modifies this, logs, logs.fold, metrics, metrics.States()
      ensures metrics.Knew() <= old(metrics.Knew()) + Needed(ListingStraight(ls), Markers(LogsListed(now)))
      ensures Folded(now) && Current(metrics.Seen(), ls, streams) && sigs == listed
      ensures changed == (listed != old(sigs))
      ensures !changed ==> logs.fold == old(logs.fold) && logs.fold.State() == old(logs.fold.State())
      ensures (logs.fold == old(logs.fold) || fresh(logs.fold))
      ensures metrics == old(metrics) || fresh(metrics)
      ensures fresh(metrics.States() - old(metrics.States()))
    {
      hide Shows, AllFit, AllOnCourse, Current, Agree, WriterState.Valid, AppliedAll, Entries, LogPart,
        KeyedAll, Markers, LogOf, LogsListed;
      changed := listed != sigs;
      if changed {
        sigs := listed;
        var ok := GrowMetrics(ls, now, streams);
        if !ok {
          NoneKnown(now);
          RefoldAll({}, now, ls, streams);
        }
      }
    }

    /** Brings the record up to date with the listed files and metric objects. A refold for the
        logs' sake alone folds the metric objects as listed then (`again`). */
    method Update(ghost was: seq<L.File>, ghost a: Listing, ghost streamsWas: map<int, Stream>,
                  again: Listing, ghost streamsAgain: map<int, Stream>,
                  now: seq<L.File>, listed: set<MetricSig>, ls: Listing, ghost streams: map<int, Stream>)
      returns (changed: bool)
      requires Valid(was, a, streamsWas) && L.Unique(was) && L.Unique(now) && L.Fair(was, now)
      requires Shows(again, streamsAgain) && Continues(a, streamsWas, again, streamsAgain)
      requires Shows(ls, streams) && Continues(again, streamsAgain, ls, streams)
      requires Continues(a, streamsWas, ls, streams)
      requires AllFit(Markers(LogsListed(now)), again, streamsAgain) && AllFit(Markers(LogsListed(now)), ls, streams)
      requires metrics.Knew() <= Markers(LogsListed(now))
      requires listed == sigs ==> ls == again == a && streams == streamsAgain == streamsWas
      modifies this, logs, logs.fold, metrics, metrics.States()
      ensures Valid(now, ls, streams) && sigs == listed
      ensures logs.fold == old(logs.fold) || fresh(logs.fold)
      ensures metrics == old(metrics) || fresh(metrics)
      ensures fresh(metrics.States() - old(metrics.States()))
      ensures metrics.Knew() <= old(metrics.Knew()) + Needed(ListingStraight(again + ls), Markers(LogsListed(now)))
      ensures Apart(Markers(LogsListed(now)), AllListed(now, ls)) ==> SameFold(logs.fold.State(), FromScratch(now, ls))
      ensures changed <==> !old(logs.SameSigs(now)) || listed != old(sigs)
      ensures !changed ==> logs.fold.State() == old(logs.fold.State())
    {
      hide Shows, AllFit, AllOnCourse, Current, Agree, WriterState.Valid, AppliedAll, Entries, LogPart, KeyedAll, Markers, LogOf, LogsListed,
        L.Fair, L.LooksAppended, Continues, Sized, Apart, SameFold, AllListed, FromScratch, L.Record.Holds, ListingStraight,
        Needed, Metrics.Knew, Metrics.Valid, L.Unique, L.Record.Folded, L.Record.SameSigs, Metrics.Seen;
      NeededEach(again, ls, Markers(LogsListed(now)));
      AllSized();
      CourseOn(metrics.Seen(), a, streamsWas, again, streamsAgain);
      CourseOn(metrics.Seen(), a, streamsWas, ls, streams);
      var refolded: bool;
      changed, refolded := UpdateLogs(was, now, again, streamsAgain);
      AllSized();
      if refolded { CourseOn(metrics.Seen(), again, streamsAgain, ls, streams); }
      var grown := UpdateMetrics(now, listed, ls, streams);
      changed := changed || grown;
      RefoldStale(changed, now, ls, streams);
      UpToDate(now, ls, streams);
    }

    /** Folds the record again when a rewind was met after entries it may hide. */
    method RefoldStale(changed: bool, now: seq<L.File>, ls: Listing, ghost streams: map<int, Stream>)
      requires Folded(now) && L.Unique(now) && Shows(ls, streams) && Current(metrics.Seen(), ls, streams)
      requires AllFit(Markers(LogsListed(now)), ls, streams) && metrics.Knew() <= Markers(LogsListed(now))
      requires !changed ==> !logs.fold.stale
      modifies this`metrics, logs
      ensures Valid(now, ls, streams)
      ensures (logs.fold == old(logs.fold) && metrics == old(metrics)) || (fresh(logs.fold) && fresh(metrics) && fresh(metrics.States()))
      ensures metrics.Knew() <= old(metrics.Knew()) + Needed(ListingStraight(ls), Markers(LogsListed(now)))
      ensures logs.fold == old(logs.fold) <==> !(changed && old(logs.fold.stale))
      ensures metrics == old(metrics) ==> metrics.States() == old(metrics.States())
      ensures !changed ==> logs.fold == old(logs.fold) && logs.fold.State() == old(logs.fold.State())
    {
      hide Shows, AllFit, AllOnCourse, Current, Agree, WriterState.Valid, AppliedAll, Entries, LogPart, KeyedAll, Markers, LogOf, LogsListed,
        L.Record.Holds, ListingStraight, Needed, Metrics.Knew, Metrics.Valid, L.Unique;
      if changed && logs.fold.stale {
        CourseStays(metrics.Seen(), ls, streams);
        RewindsListed(now);
        RefoldAll(logs.fold.rewinds, now, ls, streams);
      }
    }

    lemma RewindsListed(now: seq<L.File>)
      requires logs.Folded() && logs.Holds(now)
      ensures logs.fold.rewinds == Markers(LogsListed(now))
    {
      logs.RewindsAre(now);
    }

    lemma NoneKnown(now: seq<L.File>)
      ensures {} <= Markers(LogsListed(now))
    {
    }

    /** An up to date record is, but for places, the fold from scratch of what is listed. */
    lemma UpToDate(now: seq<L.File>, ls: Listing, streams: map<int, Stream>)
      requires Valid(now, ls, streams)
      ensures Apart(Markers(LogsListed(now)), AllListed(now, ls)) ==> SameFold(logs.fold.State(), FromScratch(now, ls))
    {
      logs.RewindsAre(now);
      AllSized();
      if Apart(Markers(LogsListed(now)), AllListed(now, ls)) {
        AgreesWithScratch(logs.known, logs.shown, logs.arrivals, metrics.Seen(), now, ls, streams);
      }
    }
  }

  /** Points folded on top of what was shown. */
  lemma {:induction false} Joins(known: set<Marker>, shown: seq<Shown>, f: Fold, g: Fold, gained: seq<Shown>,
                                 was: View, now: View)
    requires f == AppliedAll(NewFold(known), Entries(shown)) && Folds(f, g, gained) && Gains(gained, was, now)
    requires Agree(shown, was)
    ensures g == AppliedAll(NewFold(known), Entries(shown + gained)) && g.stale == f.stale
    ensures Agree(shown + gained, now) && LogPart(shown + gained) == LogPart(shown)
  {
    PointsFolded(known, shown, f, g, gained);
    AgreeOn(shown, gained, was, now);
    LogsAlone(f, gained);
  }
}

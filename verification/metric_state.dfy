/**
 The metric part of a record's state (`index_metrics`): every writer's stream, brought up to
 date with a listing of the record's metric objects, or folded again from sums and objects.

 `Metrics.FoldGrowth` lets new `.vmx` take over what they roll up, then folds what the listed
 objects grew by, or asks for a refold; `Metrics.Refold` folds all of them, a writer's sums
 where that is enough. Either way what was folded in the end is the listed streams: no point
 is missing, and none was folded twice (`Gains`) — unless a new `.vmx` counts what was folded
 and holds something else (`Mistaken`), which `OnCourse` rules out.
 */
module MetricState {
  import opened Fold
  import opened FoldSums
  import opened RecordFold
  import opened BlockFold
  import opened RecordMetrics

  type Stream = seq<seq<Block>>

  /** The record's metric objects, by writer. */
  type Listing = seq<Listed>

  /** What was folded of a writer. */
  datatype Held = Held(objects: map<Object, nat>, got: Stream)

  type View = map<int, Held>

  const NOTHING := Held(map[], [])

  function HeldOf(view: View, w: int): Held { if w in view then view[w] else NOTHING }

  /** What a listing has of a writer. */
  function ListedOf(ls: Listing, w: int): Listed {
    if ls == [] then Listed(w, None, [])
    else if ls[|ls| - 1].writer == w then ls[|ls| - 1] else ListedOf(ls[..|ls| - 1], w)
  }

  ghost predicate Distinct(ls: Listing) { forall i, j :: 0 <= i < j < |ls| ==> ls[i].writer != ls[j].writer }

  /** The listing is of these streams, one entry a writer. */
  ghost predicate Shows(ls: Listing, streams: map<int, Stream>) {
    && Distinct(ls)
    && (forall i :: 0 <= i < |ls| ==>
          ls[i].writer in streams && Lists(ls[i], streams[ls[i].writer]))
    && (forall w :: w in streams ==> exists i :: 0 <= i < |ls| && ls[i].writer == w)
  }

  /** What folding the listing asks of its blocks, and of points and rewinds. */
  ghost predicate AllFit(rewinds: set<Marker>, ls: Listing, streams: map<int, Stream>) {
    && (forall i :: 0 <= i < |ls| ==> Readable(rewinds, ls[i]))
    && (forall w :: w in streams ==> Fits(rewinds, streams[w], w))
  }

  ghost predicate ListingStraight(ls: Listing) { forall i :: 0 <= i < |ls| ==> ListStraight(ls[i]) }

  /** What is folded of a writer and its listed objects are of one append-only stream, and a
      new `.vmx` does not count as many points while holding others. */
  ghost predicate OnCourse(h: Held, l: Listed, stream: Stream) {
    && Follows(h.objects, h.got, l, stream)
    && (h.objects != map[] && NewlyIndexed(h.objects, l) ==> !Mistaken(h.got, l.vmx.value))
  }

  ghost predicate AllOnCourse(view: View, ls: Listing, streams: map<int, Stream>) {
    forall i :: 0 <= i < |ls| && ls[i].writer in streams ==> OnCourse(HeldOf(view, ls[i].writer), ls[i], streams[ls[i].writer])
  }

  /** The listed streams are what is folded. */
  ghost predicate Current(view: View, ls: Listing, streams: map<int, Stream>) {
    && (forall i :: 0 <= i < |ls| ==> ls[i].writer in streams && CurrentAt(view, ls[i], streams[ls[i].writer]))
    && (forall w :: w in view && w !in streams ==> view[w].objects == map[])
  }

  ghost predicate CurrentAt(view: View, l: Listed, stream: Stream) {
    && l.writer in view && view[l.writer].got == stream
    && AtListing(view[l.writer].objects, l) && Footed(view[l.writer].objects, l)
  }

  /** A writer's points under a stream key. */
  ghost function PointsAt(view: View, w: int, k: Name): multiset<Point> { multiset(AllPoints(HeldOf(view, w).got, k)) }

  /** `gained` is just the points `now` has and `was` had not. */
  ghost predicate Gains(gained: seq<Shown>, was: View, now: View) {
    && LogPart(gained) == []
    && forall w, k :: PointsAt(now, w, k) == PointsAt(was, w, k) + multiset(PointsOf(gained, w, k))
  }

  lemma NoGain(was: View, now: View)
    requires forall w :: HeldOf(now, w).got == HeldOf(was, w).got
    ensures Gains([], was, now)
  {
    forall w, k ensures PointsAt(now, w, k) == PointsAt(was, w, k) && PointsOf([], w, k) == [] {
      assert HeldOf(now, w).got == HeldOf(was, w).got;
    }
  }

  lemma {:induction false} GainsOn(a: seq<Shown>, b: seq<Shown>, x: View, y: View, z: View)
    requires Gains(a, x, y) && Gains(b, y, z)
    ensures Gains(a + b, x, z)
  {
    hide PointsAt, PointsOf, LogPart;
    PartsJoined(a, b, 0, "");
    assert LogPart(a) + LogPart(b) == [];
    forall w, k ensures PointsAt(z, w, k) == PointsAt(x, w, k) + multiset(PointsOf(a + b, w, k)) {
      PartsJoined(a, b, w, k);
      assert PointsAt(y, w, k) == PointsAt(x, w, k) + multiset(PointsOf(a, w, k));
      assert PointsAt(z, w, k) == PointsAt(y, w, k) + multiset(PointsOf(b, w, k));
    }
  }

  /** One writer's points. */
  lemma {:induction false} OneGains(gained: seq<Shown>, writer: int, was: View, now: View)
    requires writer in now && now == was[writer := now[writer]]
    requires Brings(gained, writer, HeldOf(was, writer).got, now[writer].got)
    ensures Gains(gained, was, now)
  {
    hide AllPoints, PointsOf, LogPart;
    OnlyStreamsParts(gained, writer, writer, "");
    forall w, k ensures PointsAt(now, w, k) == PointsAt(was, w, k) + multiset(PointsOf(gained, w, k)) {
      OnlyStreamsParts(gained, writer, w, k);
      if w == writer {
        assert multiset(AllPoints(now[writer].got, k))
               == multiset(AllPoints(HeldOf(was, writer).got, k)) + multiset(PointsOf(gained, writer, k));
      }
    }
  }

  lemma {:induction false} ListedIs(ls: Listing, i: nat)
    requires Distinct(ls) && i < |ls|
    ensures ListedOf(ls, ls[i].writer) == ls[i]
  {
    if i < |ls| - 1 { ListedIs(ls[..|ls| - 1], i); }
  }

  lemma {:induction false} NotListed(ls: Listing, w: int)
    requires forall i :: 0 <= i < |ls| ==> ls[i].writer != w
    ensures ListedOf(ls, w) == Listed(w, None, [])
  {
    if ls != [] { NotListed(ls[..|ls| - 1], w); }
  }

  lemma UnlistedGone(objects: map<Object, nat>, w: int)
    requires GrewOnly(objects, Listed(w, None, []))
    ensures objects == map[]
  {
    forall o ensures o !in objects {
    }
  }

  /** Every writer's objects only grew; an unlisted writer has none. */
  predicate AllGrewOnly(view: View, ls: Listing) {
    forall w :: w in view ==> GrewOnly(view[w].objects, ListedOf(ls, w))
  }

  /** The metric state of one record. */
  class Metrics {
    var writers: map<int, WriterState>

    ghost function States(): set<WriterState>
      reads this
    {
      set w | w in writers :: writers[w]
    }

    ghost predicate Valid()
      reads this, States()
    {
      forall w :: w in writers ==> writers[w].writer == w && writers[w].Valid()
    }

    /** The rewinds for which blocks were folded point by point. */
    ghost function Knew(): set<Marker>
      reads this, States()
    {
      set w, m | w in writers && m in writers[w].knew :: m
    }

    ghost function Seen(): View
      reads this, States()
    {
      map w | w in writers :: Held(writers[w].objects, writers[w].got)
    }

    constructor ()
      ensures Valid() && writers == map[] && Seen() == map[] && Knew() == {}
    {
      writers := map[];
    }

    /** Makes room for a writer not met before. */
    method Meet(w: int)
      requires Valid()
      modifies this
      ensures Valid() && w in writers && fresh(States() - old(States()))
      ensures Seen() == old(Seen())[w := old(HeldOf(Seen(), w))] && Knew() == old(Knew())
    {
      hide WriterState.Valid;
      ghost var was := writers;
      if w !in writers {
        var st := new WriterState(w);
        writers := writers[w := st];
        assert forall v :: v in writers ==> if v in was then writers[v] == was[v] else writers[v].knew == {};
      }
    }

    /** Folds what a writer's listed objects hold past what is folded. */
    method FoldOne(fold: LogFold, l: Listed, ghost stream: Stream) returns (ghost gained: seq<Shown>)
      requires Valid() && Lists(l, stream) && Readable(fold.rewinds, l) && OnCourse(HeldOf(Seen(), l.writer), l, stream)
      requires GrewOnly(HeldOf(Seen(), l.writer).objects, l)
      requires CellsOk(fold.State()) && Fits(fold.rewinds, stream, l.writer)
      modifies this, States(), fold
      ensures Valid() && fresh(States() - old(States()))
      ensures CurrentAt(Seen(), l, stream) && Seen() == old(Seen())[l.writer := Seen()[l.writer]]
      ensures Knew() <= old(Knew()) + Needed(ListStraight(l), old(fold.rewinds))
      ensures Folds(old(fold.State()), fold.State(), gained) && Gains(gained, old(Seen()), Seen())
    {
      hide Folds, Gains, Brings, CellsOk, Fits, Lists, Readable, ListStraight, Follows, Mistaken, GrewOnly, AtListing, Footed,
        WriterState.Valid;
      ghost var was := Seen();
      var w := l.writer;
      Meet(w);
      ghost var met := Seen();
      assert met[w] == Held(writers[w].objects, writers[w].got);
      gained := writers[w].FoldListed(fold, l, stream);
      assert Seen().Keys == met.Keys;
      forall v | v in met && v != w ensures Seen()[v] == met[v] {
        assert writers[v].writer == v;
      }
      assert Seen() == was[w := Seen()[w]];
      OneGains(gained, w, was, Seen());
    }

    /** Folds what the listed objects hold past what is folded. */
    method FoldUnread(fold: LogFold, ls: Listing, ghost streams: map<int, Stream>) returns (ghost gained: seq<Shown>)
      requires Valid() && Shows(ls, streams) && AllOnCourse(Seen(), ls, streams) && AllGrewOnly(Seen(), ls)
      requires CellsOk(fold.State()) && AllFit(fold.rewinds, ls, streams)
      modifies this, States(), fold
      ensures Valid() && fresh(States() - old(States())) && Current(Seen(), ls, streams)
      ensures Knew() <= old(Knew()) + Needed(ListingStraight(ls), old(fold.rewinds))
      ensures Folds(old(fold.State()), fold.State(), gained) && Gains(gained, old(Seen()), Seen())
    {
      hide Folds, Gains, CellsOk, Fits, Lists, Readable, ListStraight, OnCourse, GrewOnly, Progress, CurrentAt, Current,
        Shows, AllOnCourse, AllGrewOnly, AllFit, ListingStraight, Needed, Distinct, WriterState.Valid;
      ghost var was, f := Seen(), fold.State();
      gained := [];
      NothingNew(f, 0, []);
      NoGain(was, was);
      NoProgress(was, ls, streams);
      for i := 0 to |ls|
        invariant Valid() && fresh(States() - old(States()))
        invariant Progress(was, Seen(), ls, streams, i)
        invariant Knew() <= old(Knew()) + Needed(ListingStraight(ls), f.rewinds)
        invariant Folds(f, fold.State(), gained) && Gains(gained, was, Seen())
        invariant CellsOk(fold.State()) && fold.State().rewinds == f.rewinds
      {
        ghost var here, g := Seen(), fold.State();
        StillToFold(was, here, ls, streams, i);
        FitAt(f.rewinds, ls, streams, i);
        NeededAt(ls, i, f.rewinds);
        ghost var more := FoldOne(fold, ls[i], streams[ls[i].writer]);
        ProgressOn(was, here, Seen(), ls, streams, i);
        FoldsKeep(g, fold.State(), more);
        FoldsOn(f, g, fold.State(), gained, more);
        GainsOn(gained, more, was, here, Seen());
        gained := gained + more;
      }
      AllCurrent(was, Seen(), ls, streams);
    }

    /** Lets a writer's new `.vmx` take over what it rolls up, when something is folded. */
    method TakeOne(l: Listed, ghost stream: Stream) returns (ok: bool)
      requires Valid() && Lists(l, stream) && OnCourse(HeldOf(Seen(), l.writer), l, stream)
      modifies States()
      ensures Valid() && OnCourse(HeldOf(Seen(), l.writer), l, stream) && Gains([], old(Seen()), Seen()) && Knew() == old(Knew())
      ensures Seen().Keys == old(Seen()).Keys && forall w :: w in Seen() && w != l.writer ==> Seen()[w] == old(Seen())[w]
      ensures var h := old(HeldOf(Seen(), l.writer));
              h.objects == map[] || !NewlyIndexed(h.objects, l) ==> ok && Seen() == old(Seen())
    {
      hide Gains, Brings, Lists, Follows;
      ghost var was := Seen();
      ok := true;
      NoGain(was, was);
      var w := l.writer;
      if w in writers && writers[w].objects != map[] && NewlyIndexed(writers[w].objects, l) {
        ok := writers[w].TakeOver(l, stream);
        forall v | v in was && v != w ensures Seen()[v] == was[v] {
          assert writers[v].writer == v;
        }
        assert Seen() == was[w := Seen()[w]];
        OneGains([], w, was, Seen());
        TookOver(was[w], Seen()[w], ok, l, stream);
      }
    }

    /** Lets every new `.vmx` take over what it rolls up; false at the first that cannot. */
    method TakeAll(ls: Listing, ghost streams: map<int, Stream>) returns (ok: bool)
      requires Valid() && Shows(ls, streams) && AllOnCourse(Seen(), ls, streams)
      modifies States()
      ensures Valid() && AllOnCourse(Seen(), ls, streams) && Gains([], old(Seen()), Seen()) && Knew() == old(Knew())
      ensures JustGrew(old(Seen()), ls) ==> ok && Seen() == old(Seen())
    {
      hide Gains, Lists, Follows, WriterState.Valid, AllGrewOnly, OnCourse;
      ghost var was := Seen();
      ghost var nothing: seq<Shown> := [];
      NoGain(was, was);
      for i := 0 to |ls|
        invariant Valid() && AllOnCourse(Seen(), ls, streams) && Gains(nothing, was, Seen()) && Knew() == old(Knew())
        invariant JustGrew(was, ls) ==> Seen() == was
      {
        ghost var here := Seen();
        assert OnCourse(HeldOf(here, ls[i].writer), ls[i], streams[ls[i].writer]);
        ok := TakeOne(ls[i], streams[ls[i].writer]);
        OthersOnCourse(here, Seen(), ls, streams, i);
        GainsOn(nothing, nothing, was, here, Seen());
        assert nothing + nothing == nothing;
        if !ok { return; }
      }
      ok := true;
    }

    /** Folds what the record's metric objects grew by; false when it has to be folded again. */
    method FoldGrowth(fold: LogFold, ls: Listing, ghost streams: map<int, Stream>) returns (ok: bool, ghost gained: seq<Shown>)
      requires Valid() && Shows(ls, streams) && AllOnCourse(Seen(), ls, streams)
      requires CellsOk(fold.State()) && AllFit(fold.rewinds, ls, streams)
      modifies this, States(), fold
      ensures Valid() && fresh(States() - old(States()))
      ensures Folds(old(fold.State()), fold.State(), gained) && Gains(gained, old(Seen()), Seen())
      ensures ok ==> Current(Seen(), ls, streams)
      ensures !ok ==> fold.State() == old(fold.State()) && gained == [] && AllOnCourse(Seen(), ls, streams)
      ensures JustGrew(old(Seen()), ls) ==> ok
      ensures Knew() <= old(Knew()) + Needed(ListingStraight(ls), old(fold.rewinds))
    {
      hide Folds, Gains, CellsOk, AllFit, Shows, AllOnCourse, GrewOnly, Current, WriterState.Valid;
      ghost var was, f := Seen(), fold.State();
      gained := [];
      NothingNew(f, 0, []);
      ok := TakeAll(ls, streams);
      if ok {
        ok := forall w :: w in writers ==> GrewOnly(writers[w].objects, ListedOf(ls, w));
        assert ok <==> AllGrewOnly(Seen(), ls);
      }
      if ok {
        ghost var here := Seen();
        gained := FoldUnread(fold, ls, streams);
        GainsOn([], gained, was, here, Seen());
        assert [] + gained == gained;
      }
    }

    /** Starts a writer anew from the sums of an earlier state, where they may be. */
    method Begin(fold: LogFold, l: Listed, ghost stream: Stream) returns (st: WriterState, ghost gained: seq<Shown>)
      requires Valid() && Lists(l, stream) && OnCourse(HeldOf(Seen(), l.writer), l, stream)
      requires CellsOk(fold.State()) && Fits(fold.rewinds, stream, l.writer) && Knew() <= fold.rewinds
      modifies fold
      ensures fresh(st) && st.Valid() && st.writer == l.writer && st.knew <= Knew()
      ensures OnCourse(Held(st.objects, st.got), l, stream) && GrewOnly(st.objects, l)
      ensures Folds(old(fold.State()), fold.State(), gained) && Brings(gained, l.writer, [], st.got)
    {
      hide Folds, Brings, CellsOk, Fits, Lists, Follows, GrewOnly, WriterState.Valid;
      var w := l.writer;
      st := new WriterState(w);
      if w in writers {
        KnewAt(w);
        gained := st.Replay(fold, writers[w], l, stream);
      } else {
        NothingNew(fold.State(), w, []);
        NothingGrew(l, stream);
        gained := [];
      }
      GrewOnCourse(Held(st.objects, st.got), l, stream);
    }

    lemma KnewAt(w: int)
      requires w in writers
      ensures writers[w].knew <= Knew()
    {
    }

    method ReplayOne(fold: LogFold, was: Metrics, l: Listed, ghost stream: Stream) returns (ghost gained: seq<Shown>)
      requires Valid() && was.Valid() && was != this && States() !! was.States()
      requires l.writer !in writers && Lists(l, stream) && OnCourse(HeldOf(was.Seen(), l.writer), l, stream)
      requires CellsOk(fold.State()) && Fits(fold.rewinds, stream, l.writer) && was.Knew() <= fold.rewinds
      modifies this, fold
      ensures Knew() <= old(Knew()) + was.Knew()
      ensures Valid() && fresh(States() - old(States())) && Seen() == old(Seen())[l.writer := HeldOf(Seen(), l.writer)]
      ensures OnCourse(HeldOf(Seen(), l.writer), l, stream) && GrewOnly(HeldOf(Seen(), l.writer).objects, l)
      ensures Folds(old(fold.State()), fold.State(), gained) && Gains(gained, old(Seen()), Seen())
    {
      hide Folds, Gains, Brings, CellsOk, Fits, Lists, OnCourse, GrewOnly, WriterState.Valid;
      ghost var before := Seen();
      var st: WriterState;
      st, gained := was.Begin(fold, l, stream);
      writers := writers[l.writer := st];
      assert Seen() == before[l.writer := Held(st.objects, st.got)];
      OneGains(gained, l.writer, before, Seen());
    }

    /** Folds every metric object into a fresh fold: a writer's sums of an earlier state when its
        objects only grew since, then what is not folded yet. */
    method Refold(fold: LogFold, was: Metrics, ls: Listing, ghost streams: map<int, Stream>) returns (ghost gained: seq<Shown>)
      requires was.Valid() && was != this && writers == map[]
      requires Shows(ls, streams) && AllOnCourse(was.Seen(), ls, streams) && was.Knew() <= fold.rewinds
      requires CellsOk(fold.State()) && AllFit(fold.rewinds, ls, streams)
      modifies this, fold
      ensures Valid() && fresh(States()) && Current(Seen(), ls, streams)
      ensures Knew() <= old(was.Knew()) + Needed(ListingStraight(ls), old(fold.rewinds))
      ensures Folds(old(fold.State()), fold.State(), gained) && Gains(gained, map[], Seen())
    {
      hide Folds, Gains, CellsOk, Fits, Lists, Readable, ListStraight, OnCourse, GrewOnly, Current, Started, Shows, AllOnCourse,
        AllGrewOnly, AllFit, ListingStraight, Needed, Distinct, WriterState.Valid;
      ghost var f := fold.State();
      gained := [];
      NothingNew(f, 0, []);
      NoGain(map[], map[]);
      assert Seen() == map[];
      NothingStarted(ls, streams);
      for i := 0 to |ls|
        invariant Valid() && was.Valid() && fresh(States()) && was.Seen() == old(was.Seen())
        invariant Started(Seen(), ls, streams, i)
        invariant Knew() <= old(was.Knew()) && was.Knew() == old(was.Knew())
        invariant Folds(f, fold.State(), gained) && Gains(gained, map[], Seen())
        invariant CellsOk(fold.State()) && fold.State().rewinds == f.rewinds
      {
        ghost var here, g := Seen(), fold.State();
        NotStarted(here, ls, streams, i);
        FitAt(f.rewinds, ls, streams, i);
        CourseOf(was.Seen(), ls, streams, i);
        ghost var more := ReplayOne(fold, was, ls[i], streams[ls[i].writer]);
        StartedOn(here, Seen(), ls, streams, i);
        FoldsKeep(g, fold.State(), more);
        FoldsOn(f, g, fold.State(), gained, more);
        GainsOn(gained, more, map[], here, Seen());
        gained := gained + more;
      }
      AllStarted(Seen(), ls, streams);
      ghost var here, g := Seen(), fold.State();
      ghost var more := FoldUnread(fold, ls, streams);
      FoldsOn(f, g, fold.State(), gained, more);
      GainsOn(gained, more, map[], here, Seen());
      gained := gained + more;
    }
  }

  /** Every writer's objects only grew and none has a new `.vmx`. */
  ghost predicate JustGrew(view: View, ls: Listing) {
    && AllGrewOnly(view, ls)
    && forall i :: 0 <= i < |ls| ==>
         var h := HeldOf(view, ls[i].writer); h.objects == map[] || !NewlyIndexed(h.objects, ls[i])
  }

  /** Objects that only grew have no new `.vmx`. */
  lemma GrewOnCourse(h: Held, l: Listed, stream: Stream)
    requires Follows(h.objects, h.got, l, stream) && GrewOnly(h.objects, l)
    ensures OnCourse(h, l, stream)
  {
    hide Mistaken;
    if NewlyIndexed(h.objects, l) { OnlyIndexed(h.objects, l); }
  }

  /** Whether or not a new `.vmx` took over. */
  lemma TookOver(was: Held, h: Held, ok: bool, l: Listed, stream: Stream)
    requires Lists(l, stream) && OnCourse(was, l, stream) && was.objects != map[] && NewlyIndexed(was.objects, l)
    requires h.objects == if ok then Replaced(was.objects, l.vmx.value) else was.objects
    requires ok ==> CountsTell(was.got, l.vmx.value)
    requires forall i: nat :: !ok || First(l.vmx) <= i ==> GotAt(h.got, i) == GotAt(was.got, i)
    requires ok && HoldsSame(was.got, l.vmx.value) ==> forall i :: 0 <= i < First(l.vmx) ==> GotAt(h.got, i) == stream[i]
    ensures OnCourse(h, l, stream)
  {
    hide CountsTell, HoldsSame, RollsUp, BlocksOk;
    if !ok { SameUpTo(was.got, h.got, l.vmx.value); }
  }

  // The loops' progress.

  /** The first `n` writers listed are up to date, the others are as they were. */
  ghost predicate Progress(was: View, now: View, ls: Listing, streams: map<int, Stream>, n: nat)
    requires n <= |ls|
  {
    && (forall j :: 0 <= j < n ==> ls[j].writer in streams && CurrentAt(now, ls[j], streams[ls[j].writer]))
    && (forall w :: w in now ==> w in was || exists j :: 0 <= j < n && ls[j].writer == w)
    && (forall w :: (forall j :: 0 <= j < n ==> ls[j].writer != w) ==> HeldOf(now, w) == HeldOf(was, w))
  }

  lemma NoProgress(was: View, ls: Listing, streams: map<int, Stream>)
    ensures Progress(was, was, ls, streams, 0)
  {
  }

  lemma FitAt(rewinds: set<Marker>, ls: Listing, streams: map<int, Stream>, i: nat)
    requires AllFit(rewinds, ls, streams) && i < |ls| && ls[i].writer in streams
    ensures Readable(rewinds, ls[i]) && Fits(rewinds, streams[ls[i].writer], ls[i].writer)
  {
    hide Readable, Fits;
  }

  lemma CourseOf(view: View, ls: Listing, streams: map<int, Stream>, i: nat)
    requires AllOnCourse(view, ls, streams) && i < |ls| && ls[i].writer in streams
    ensures OnCourse(HeldOf(view, ls[i].writer), ls[i], streams[ls[i].writer])
  {
    hide OnCourse;
  }

  lemma NeededAt(ls: Listing, i: nat, rewinds: set<Marker>)
    requires i < |ls|
    ensures Needed(ListStraight(ls[i]), rewinds) <= Needed(ListingStraight(ls), rewinds)
  {
    hide ListStraight;
  }

  lemma StillToFold(was: View, now: View, ls: Listing, streams: map<int, Stream>, n: nat)
    requires n < |ls| && Progress(was, now, ls, streams, n) && Shows(ls, streams)
    requires AllOnCourse(was, ls, streams) && AllGrewOnly(was, ls)
    ensures ls[n].writer in streams && Lists(ls[n], streams[ls[n].writer]) && Distinct(ls)
    ensures OnCourse(HeldOf(now, ls[n].writer), ls[n], streams[ls[n].writer])
    ensures GrewOnly(HeldOf(now, ls[n].writer).objects, ls[n])
  {
    hide Lists, Follows, CurrentAt;
    var w := ls[n].writer;
    assert HeldOf(now, w) == HeldOf(was, w);
    assert OnCourse(HeldOf(was, w), ls[n], streams[w]);
    ListedIs(ls, n);
  }

  lemma ProgressOn(was: View, here: View, now: View, ls: Listing, streams: map<int, Stream>, n: nat)
    requires n < |ls| && Progress(was, here, ls, streams, n) && Distinct(ls) && ls[n].writer in streams
    requires CurrentAt(now, ls[n], streams[ls[n].writer]) && now == here[ls[n].writer := HeldOf(now, ls[n].writer)]
    ensures Progress(was, now, ls, streams, n + 1)
  {
    forall j | 0 <= j < n + 1 ensures ls[j].writer in streams && CurrentAt(now, ls[j], streams[ls[j].writer]) {
      if j < n { assert ls[j].writer != ls[n].writer && CurrentAt(here, ls[j], streams[ls[j].writer]); }
    }
    forall w | forall j :: 0 <= j < n + 1 ==> ls[j].writer != w ensures HeldOf(now, w) == HeldOf(was, w) {
      assert ls[n].writer != w && HeldOf(here, w) == HeldOf(was, w);
    }
  }

  lemma AllCurrent(was: View, now: View, ls: Listing, streams: map<int, Stream>)
    requires Progress(was, now, ls, streams, |ls|) && Shows(ls, streams) && AllGrewOnly(was, ls)
    ensures Current(now, ls, streams)
  {
    hide Lists, CurrentAt;
    forall w | w in now && w !in streams ensures now[w].objects == map[] {
      forall j | 0 <= j < |ls| ensures ls[j].writer != w {
      }
      assert HeldOf(now, w) == HeldOf(was, w);
      NotListed(ls, w);
      UnlistedGone(was[w].objects, w);
    }
  }

  lemma OthersOnCourse(here: View, now: View, ls: Listing, streams: map<int, Stream>, n: nat)
    requires n < |ls| && Distinct(ls) && ls[n].writer in streams && AllOnCourse(here, ls, streams)
    requires OnCourse(HeldOf(now, ls[n].writer), ls[n], streams[ls[n].writer])
    requires now.Keys == here.Keys && forall w :: w in now && w != ls[n].writer ==> now[w] == here[w]
    ensures AllOnCourse(now, ls, streams)
  {
    hide OnCourse;
    forall i | 0 <= i < |ls| && ls[i].writer in streams ensures OnCourse(HeldOf(now, ls[i].writer), ls[i], streams[ls[i].writer]) {
      if i != n {
        assert ls[i].writer != ls[n].writer && HeldOf(now, ls[i].writer) == HeldOf(here, ls[i].writer);
      }
    }
  }

  /** The first `n` writers listed have begun anew. */
  ghost predicate Started(now: View, ls: Listing, streams: map<int, Stream>, n: nat)
    requires n <= |ls|
  {
    && (forall j :: 0 <= j < n ==> ls[j].writer in streams && StartedAt(now, ls[j], streams[ls[j].writer]))
    && (forall w :: w in now ==> exists j :: 0 <= j < n && ls[j].writer == w)
  }

  ghost predicate StartedAt(now: View, l: Listed, stream: Stream) {
    OnCourse(HeldOf(now, l.writer), l, stream) && GrewOnly(HeldOf(now, l.writer).objects, l)
  }

  lemma NothingStarted(ls: Listing, streams: map<int, Stream>)
    ensures Started(map[], ls, streams, 0)
  {
  }

  lemma NotStarted(now: View, ls: Listing, streams: map<int, Stream>, n: nat)
    requires n < |ls| && Started(now, ls, streams, n) && Shows(ls, streams)
    ensures ls[n].writer !in now && ls[n].writer in streams && Lists(ls[n], streams[ls[n].writer]) && Distinct(ls)
  {
    hide Lists, StartedAt;
    forall j | 0 <= j < n ensures ls[j].writer != ls[n].writer {
    }
  }

  lemma StartedOn(here: View, now: View, ls: Listing, streams: map<int, Stream>, n: nat)
    requires n < |ls| && Started(here, ls, streams, n) && Distinct(ls) && ls[n].writer in streams
    requires StartedAt(now, ls[n], streams[ls[n].writer]) && now == here[ls[n].writer := HeldOf(now, ls[n].writer)]
    ensures Started(now, ls, streams, n + 1)
  {
    hide OnCourse, GrewOnly;
    forall j | 0 <= j < n + 1 ensures ls[j].writer in streams && StartedAt(now, ls[j], streams[ls[j].writer]) {
      if j < n { assert ls[j].writer != ls[n].writer && StartedAt(here, ls[j], streams[ls[j].writer]); }
    }
    forall w | w in now ensures exists j :: 0 <= j < n + 1 && ls[j].writer == w {
      assert w == ls[n].writer || w in here;
    }
  }

  lemma AllStarted(now: View, ls: Listing, streams: map<int, Stream>)
    requires Started(now, ls, streams, |ls|) && Shows(ls, streams)
    ensures AllOnCourse(now, ls, streams) && AllGrewOnly(now, ls)
  {
    hide Lists, OnCourse, GrewOnly;
    forall i | 0 <= i < |ls| ensures OnCourse(HeldOf(now, ls[i].writer), ls[i], streams[ls[i].writer]) {
      assert StartedAt(now, ls[i], streams[ls[i].writer]);
    }
    forall w | w in now ensures GrewOnly(now[w].objects, ListedOf(ls, w)) {
      var j :| 0 <= j < |ls| && ls[j].writer == w;
      assert StartedAt(now, ls[j], streams[w]);
      ListedIs(ls, j);
    }
  }
}

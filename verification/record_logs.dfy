/**
 Keeping one record's fold current with its log files (`index_logs`): the bytes that
 were appended are read and folded when that is all that happened, else the record is
 folded again; a fold that learned of a rewind too late is folded again knowing it.

 The main result is `Record.UpdateLogs`: whatever happened between two listings — files
 grown, segments added, logs compacted, files rewritten — the record holds the fold of
 the listed files from scratch. Only where names and signatures look like appends does it
 rely on anything (`Fair`): an unmoved signature means unmoved content, an appended file
 keeps its beginning, and a file followed by a nonempty one of its writer stays as it is
 (`Grew`). Any other listing is read anew (`CompactionIsFair`, `RewriteIsFair`).

 The fold may hold points of metric streams besides (`Record.BringLogs`; see
 `RecordUpdate` for both together).

 Files are listed per writer in segment order; a file's entries stand for its complete
 lines (see `JsonlTail` for how bytes become entries).
 */
module RecordLogs {
  import opened Fold
  import opened RecordFold

  datatype FileName = FileName(writer: int, first: nat, last: nat)

  /** A listed signature; an append moves the size and keeps the identity. */
  datatype Sig = Sig(size: nat, stamp: int, identity: Option<int>)

  datatype File = File(name: FileName, sig: Sig, entries: seq<Logged>)

  datatype LogState = LogState(sig: Sig, consumed: nat)

  predicate Appended(was: Sig, now: Sig) {
    now.size > was.size && now.identity == was.identity
  }

  // ------------------------------------------------------------------ listings

  function Arrivals(writer: int, entries: seq<Logged>): seq<Arrival> {
    if entries == [] then []
    else Arrivals(writer, entries[..|entries| - 1])
         + [Arrival(writer, entries[|entries| - 1].ts, entries[|entries| - 1].entry)]
  }

  /** The listed files' entries, file by file. */
  function ArrivalsOf(files: seq<File>): seq<Arrival> {
    if files == [] then []
    else ArrivalsOf(files[..|files| - 1]) + Arrivals(files[|files| - 1].name.writer, files[|files| - 1].entries)
  }

  /** The record folded from scratch from the listed files. */
  function FromScratch(files: seq<File>): Fold { Scratch(KeyedAll(ArrivalsOf(files))) }

  ghost predicate Unique(files: seq<File>) {
    forall i, j :: 0 <= i < j < |files| ==> files[i].name != files[j].name
  }

  ghost predicate Lists(files: seq<File>, name: FileName) {
    exists i :: 0 <= i < |files| && files[i].name == name
  }

  /** The entries a listing has under a name. */
  ghost function EntriesOf(files: seq<File>, name: FileName): seq<Logged> {
    if Lists(files, name) then
      var i :| 0 <= i < |files| && files[i].name == name;
      files[i].entries
    else []
  }

  lemma EntriesOfListed(files: seq<File>, i: nat)
    requires i < |files| && Unique(files)
    ensures EntriesOf(files, files[i].name) == files[i].entries
  {
  }

  /** The files of `now` as `was` listed them. */
  ghost function OldOf(was: seq<File>, now: seq<File>): seq<File> {
    if now == [] then []
    else
      var f := now[|now| - 1];
      OldOf(was, now[..|now| - 1]) + [f.(entries := EntriesOf(was, f.name))]
  }

  /** What happened to the files between two listings, as far as signatures tell. */
  ghost predicate Grew(was: seq<File>, now: seq<File>) {
    && (forall i, j :: 0 <= i < |was| && 0 <= j < |now| && was[i].name == now[j].name && was[i].sig == now[j].sig ==>
          was[i].entries == now[j].entries)
    && (forall i, j :: 0 <= i < |was| && 0 <= j < |now| && was[i].name == now[j].name
                       && Appended(was[i].sig, now[j].sig) ==>
          was[i].entries <= now[j].entries)
    // A file followed by a nonempty one of its writer stays as it is.
    && (forall i, j :: 0 <= i < j < |now| && now[i].name.writer == now[j].name.writer
                       && EntriesOf(was, now[j].name) != [] ==>
          EntriesOf(was, now[i].name) == now[i].entries)
    // A writer's files keep their order.
    && ((forall i :: 0 <= i < |was| ==> Lists(now, was[i].name)) ==>
          forall w :: LogOf(ArrivalsOf(OldOf(was, now)), w) == LogOf(ArrivalsOf(was), w))
  }

  // -------------------------------------------------------------- appended tails

  /** Whether nothing but appends and new segments moved, each writer's changed files its last. */
  predicate AppendsOnly(logs: map<FileName, LogState>, now: seq<File>) {
    && (forall i :: 0 <= i < |now| && now[i].name in logs ==>
          logs[now[i].name].sig == now[i].sig || Appended(logs[now[i].name].sig, now[i].sig))
    && (forall i, j :: 0 <= i < j < |now| && now[i].name.writer == now[j].name.writer && Changed(logs, now[i]) ==>
          Changed(logs, now[j]))
  }

  predicate Changed(logs: map<FileName, LogState>, f: File) {
    f.name !in logs || logs[f.name].sig != f.sig
  }

  function Consumed(logs: map<FileName, LogState>, f: File): nat {
    if f.name in logs then logs[f.name].consumed else 0
  }

  /** The entries past what was consumed of the changed files. */
  function Tails(logs: map<FileName, LogState>, now: seq<File>): seq<Arrival> {
    if now == [] then []
    else
      var f := now[|now| - 1];
      Tails(logs, now[..|now| - 1]) + Arrivals(f.name.writer, TailOf(logs, f))
  }

  function TailOf(logs: map<FileName, LogState>, f: File): seq<Logged> {
    if Changed(logs, f) && Consumed(logs, f) <= |f.entries| then f.entries[Consumed(logs, f)..] else []
  }

  lemma {:induction false} LogOfJoined(a: seq<Arrival>, b: seq<Arrival>, w: int)
    ensures LogOf(a + b, w) == LogOf(a, w) + LogOf(b, w)
  {
    if b == [] {
      assert a + b == a;
    } else {
      LogOfJoined(a, b[..|b| - 1], w);
      assert (a + b)[..|a + b| - 1] == a + b[..|b| - 1];
    }
  }

  lemma {:induction false} LogOfWriter(writer: int, entries: seq<Logged>, w: int)
    ensures LogOf(Arrivals(writer, entries), w) == if w == writer then Arrivals(writer, entries) else []
  {
    if entries != [] {
      var before := Arrivals(writer, entries[..|entries| - 1]);
      LogOfWriter(writer, entries[..|entries| - 1], w);
      assert Arrivals(writer, entries)[..|before|] == before;
    }
  }

  lemma {:induction false} ArrivalsJoined(writer: int, a: seq<Logged>, b: seq<Logged>)
    ensures Arrivals(writer, a + b) == Arrivals(writer, a) + Arrivals(writer, b)
  {
    if b == [] {
      assert a + b == a;
    } else {
      ArrivalsJoined(writer, a, b[..|b| - 1]);
      assert (a + b)[..|a + b| - 1] == a + b[..|b| - 1];
    }
  }

  /** `logs` says of every listed file what was read of it: all of it. */
  ghost predicate ReadAll(logs: map<FileName, LogState>, files: seq<File>) {
    && (forall name :: name in logs <==> Lists(files, name))
    && (forall i :: 0 <= i < |files| ==> logs[files[i].name] == LogState(files[i].sig, |files[i].entries|))
  }

  /** A file's old entries and its tail are its entries. */
  lemma OldAndTail(was: seq<File>, now: seq<File>, logs: map<FileName, LogState>, j: nat)
    requires ReadAll(logs, was) && Unique(was) && Grew(was, now) && AppendsOnly(logs, now) && j < |now|
    ensures EntriesOf(was, now[j].name) + TailOf(logs, now[j]) == now[j].entries
  {
    var f := now[j];
    if Lists(was, f.name) {
      var i :| 0 <= i < |was| && was[i].name == f.name;
      EntriesOfListed(was, i);
      assert logs[was[i].name] == LogState(was[i].sig, |was[i].entries|);
    }
  }

  lemma {:induction false} NoTails(logs: map<FileName, LogState>, now: seq<File>, w: int)
    requires forall i :: 0 <= i < |now| && now[i].name.writer == w ==> TailOf(logs, now[i]) == []
    ensures LogOf(Tails(logs, now), w) == []
  {
    if now != [] {
      var f := now[|now| - 1];
      NoTails(logs, now[..|now| - 1], w);
      LogOfJoined(Tails(logs, now[..|now| - 1]), Arrivals(f.name.writer, TailOf(logs, f)), w);
      LogOfWriter(f.name.writer, TailOf(logs, f), w);
    }
  }

  /** One file more: what was folded of it, then its tail, go last. */
  lemma TailGoesLast(a: seq<Arrival>, t: seq<Arrival>, now: seq<Arrival>, held: seq<Logged>, tail: seq<Logged>, w: int)
    requires a + t == now && (held != [] ==> t == [])
    ensures (a + Arrivals(w, held)) + (t + Arrivals(w, tail)) == now + Arrivals(w, held + tail)
  {
    ArrivalsJoined(w, held, tail);
    if held == [] {
      assert a + Arrivals(w, held) == a;
    } else {
      assert a == now;
    }
  }

  /** Each file is what was listed of it, then its tail; none has a tail before one that
      was not empty. */
  ghost predicate TailsFit(was: seq<File>, now: seq<File>, logs: map<FileName, LogState>) {
    forall m :: 0 <= m < |now| ==> TailFits(was, now, logs, m)
  }

  ghost predicate TailFits(was: seq<File>, now: seq<File>, logs: map<FileName, LogState>, m: nat)
    requires m < |now|
  {
    && EntriesOf(was, now[m].name) + TailOf(logs, now[m]) == now[m].entries
    && (EntriesOf(was, now[m].name) != [] ==> LogOf(Tails(logs, now[..m]), now[m].name.writer) == [])
  }

  lemma GrewFits(was: seq<File>, now: seq<File>, logs: map<FileName, LogState>)
    requires ReadAll(logs, was) && Unique(was) && Grew(was, now) && AppendsOnly(logs, now)
    ensures TailsFit(was, now, logs)
  {
    forall m | 0 <= m < |now| ensures TailFits(was, now, logs, m) {
      OldAndTail(was, now, logs, m);
      if EntriesOf(was, now[m].name) != [] {
        forall i | 0 <= i < m && now[i].name.writer == now[m].name.writer ensures TailOf(logs, now[i]) == [] {
          OldAndTail(was, now, logs, i);
        }
        NoTails(logs, now[..m], now[m].name.writer);
      }
    }
  }

  function Mine(f: FileName, w: int, entries: seq<Logged>): seq<Arrival> {
    if f.writer == w then Arrivals(w, entries) else []
  }

  lemma OldOfNext(was: seq<File>, now: seq<File>, n: nat, w: int)
    requires n < |now|
    ensures LogOf(ArrivalsOf(OldOf(was, now[..n + 1])), w)
            == LogOf(ArrivalsOf(OldOf(was, now[..n])), w) + Mine(now[n].name, w, EntriesOf(was, now[n].name))
  {
    assert now[..n + 1][..n] == now[..n];
    LogOfLastFile(OldOf(was, now[..n]), now[n].(entries := EntriesOf(was, now[n].name)), w);
  }

  lemma TailsNext(logs: map<FileName, LogState>, now: seq<File>, n: nat, w: int)
    requires n < |now|
    ensures LogOf(Tails(logs, now[..n + 1]), w)
            == LogOf(Tails(logs, now[..n]), w) + Mine(now[n].name, w, TailOf(logs, now[n]))
  {
    assert now[..n + 1][..n] == now[..n];
    LogOfJoined(Tails(logs, now[..n]), Arrivals(now[n].name.writer, TailOf(logs, now[n])), w);
    LogOfWriter(now[n].name.writer, TailOf(logs, now[n]), w);
  }

  lemma NowNext(now: seq<File>, n: nat, w: int)
    requires n < |now|
    ensures LogOf(ArrivalsOf(now[..n + 1]), w)
            == LogOf(ArrivalsOf(now[..n]), w) + Mine(now[n].name, w, now[n].entries)
  {
    assert now[..n + 1] == now[..n] + [now[n]];
    LogOfLastFile(now[..n], now[n], w);
  }

  /** For each writer, what was folded and then the tails are what is listed now. */
  lemma {:induction false} TailsComplete(was: seq<File>, now: seq<File>, logs: map<FileName, LogState>, n: nat, w: int)
    requires TailsFit(was, now, logs) && n <= |now|
    ensures LogOf(ArrivalsOf(OldOf(was, now[..n])), w) + LogOf(Tails(logs, now[..n]), w)
            == LogOf(ArrivalsOf(now[..n]), w)
  {
    if n == 0 {
      assert now[..0] == [] && OldOf(was, []) == [] && Tails(logs, []) == [];
      assert LogOf(ArrivalsOf([]), w) == [];
    } else {
      var m := n - 1;
      TailsComplete(was, now, logs, m, w);
      OldOfNext(was, now, m, w);
      TailsNext(logs, now, m, w);
      NowNext(now, m, w);
      var a, t, b := LogOf(ArrivalsOf(OldOf(was, now[..m])), w), LogOf(Tails(logs, now[..m]), w),
                     LogOf(ArrivalsOf(now[..m]), w);
      var held, tail := EntriesOf(was, now[m].name), TailOf(logs, now[m]);
      assert TailFits(was, now, logs, m);
      if now[m].name.writer == w {
        TailGoesLast(a, t, b, held, tail, w);
      } else {
        assert a + [] == a && t + [] == t && b + [] == b;
      }
    }
  }

  lemma LogOfLastFile(files: seq<File>, f: File, w: int)
    ensures LogOf(ArrivalsOf(files + [f]), w)
            == LogOf(ArrivalsOf(files), w) + if f.name.writer == w then Arrivals(w, f.entries) else []
  {
    assert (files + [f])[..|files|] == files;
    LogOfJoined(ArrivalsOf(files), Arrivals(f.name.writer, f.entries), w);
    LogOfWriter(f.name.writer, f.entries, w);
  }

  // ---------------------------------------------------------------- folding on

  lemma KeyedLast(arrivals: seq<Arrival>, a: Arrival)
    ensures KeyedAll(arrivals + [a])
            == KeyedAll(arrivals) + [Keyed(a.entry, Key(a.ts, a.writer, |LogOf(arrivals, a.writer)|))]
  {
    assert (arrivals + [a])[..|arrivals|] == arrivals;
  }

  lemma {:induction false} LastEntry(writer: int, n: nat, entries: seq<Logged>)
    requires entries != []
    ensures var init, e := entries[..|entries| - 1], entries[|entries| - 1];
            && Arrivals(writer, entries) == Arrivals(writer, init) + [Arrival(writer, e.ts, e.entry)]
            && KeyedFrom(writer, n, entries) == KeyedFrom(writer, n, init) + [Keyed(e.entry, Key(e.ts, writer, n + |init|))]
  {
  }

  lemma {:induction false} LogGrown(arrivals: seq<Arrival>, writer: int, entries: seq<Logged>)
    ensures |LogOf(arrivals + Arrivals(writer, entries), writer)| == |LogOf(arrivals, writer)| + |entries|
  {
    LogOfJoined(arrivals, Arrivals(writer, entries), writer);
    LogOfWriter(writer, entries, writer);
    ArrivalsLength(writer, entries);
  }

  lemma {:induction false} NoEntries(arrivals: seq<Arrival>, writer: int, n: nat)
    ensures arrivals + Arrivals(writer, []) == arrivals && KeyedFrom(writer, n, []) == []
  {
  }

  /** Entries keyed from where their writer's log ends are keyed as arrivals. */
  lemma {:induction false} KeyedOn(arrivals: seq<Arrival>, writer: int, entries: seq<Logged>)
    ensures KeyedAll(arrivals + Arrivals(writer, entries))
            == KeyedAll(arrivals) + KeyedFrom(writer, |LogOf(arrivals, writer)|, entries)
  {
    hide *;
    var n := |LogOf(arrivals, writer)|;
    if entries == [] {
      NoEntries(arrivals, writer, n);
    } else {
      var init, e := entries[..|entries| - 1], entries[|entries| - 1];
      var some, a := arrivals + Arrivals(writer, init), Arrival(writer, e.ts, e.entry);
      KeyedOn(arrivals, writer, init);
      LastEntry(writer, n, entries);
      LogGrown(arrivals, writer, init);
      KeyedLast(some, a);
      assert arrivals + Arrivals(writer, entries) == some + [a];
    }
  }

  lemma {:induction false} ArrivalsLength(writer: int, entries: seq<Logged>)
    ensures |Arrivals(writer, entries)| == |entries|
  {
    if entries != [] {
      ArrivalsLength(writer, entries[..|entries| - 1]);
    }
  }

  /** A fold knowing its own rewinds is the one from scratch, of whatever cut of the logs. */
  lemma KnowingIsScratch(known: set<Marker>, arrivals: seq<Arrival>, files: seq<File>)
    requires forall w :: LogOf(arrivals, w) == LogOf(ArrivalsOf(files), w)
    requires known <= Markers(KeyedAll(arrivals))
    ensures var f := AppliedAll(NewFold(known), KeyedAll(arrivals));
            && (!f.stale ==> f == FromScratch(files))
            && f.rewinds == Markers(KeyedAll(arrivals)) == Markers(KeyedAll(ArrivalsOf(files)))
  {
    var xs, ys := KeyedAll(arrivals), KeyedAll(ArrivalsOf(files));
    SameLogsSameKeyed(arrivals, ArrivalsOf(files));
    KeyedDistinct(ArrivalsOf(files));
    SameMarkers(xs, ys);
    UpdatedIsScratch(known, xs, ys);
    RewindsLearned(known, xs);
    assert known + Markers(xs) == Markers(xs);
  }

  /** For each writer, what was folded and the tails are what is listed now. */
  lemma AppendedIsListed(was: seq<File>, now: seq<File>, logs: map<FileName, LogState>, arrivals: seq<Arrival>, w: int)
    requires ReadAll(logs, was) && Unique(was) && Grew(was, now) && AppendsOnly(logs, now)
    requires logs.Keys <= Names(now)
    requires LogOf(arrivals, w) == LogOf(ArrivalsOf(was), w)
    ensures LogOf(arrivals + Tails(logs, now), w) == LogOf(ArrivalsOf(now), w)
  {
    forall i | 0 <= i < |was| ensures Lists(now, was[i].name) {
      assert was[i].name in logs;
    }
    GrewFits(was, now, logs);
    TailsComplete(was, now, logs, |now|, w);
    assert now[..|now|] == now;
    LogOfJoined(arrivals, Tails(logs, now), w);
  }

  function Names(files: seq<File>): set<FileName> {
    set i | 0 <= i < |files| :: files[i].name
  }

  /** What the record remembers of fully read files. */
  function StateOf(f: File): LogState { LogState(f.sig, |f.entries|) }

  function FileTail(logs: map<FileName, LogState>, f: File): seq<Arrival>
    requires Consumed(logs, f) <= |f.entries|
  {
    if Changed(logs, f) then Arrivals(f.name.writer, f.entries[Consumed(logs, f)..]) else []
  }

  lemma TailsOneMore(before: seq<Arrival>, was: map<FileName, LogState>, now: seq<File>, n: nat)
    requires n < |now| && Consumed(was, now[n]) <= |now[n].entries|
    ensures before + Tails(was, now[..n + 1]) == before + Tails(was, now[..n]) + FileTail(was, now[n])
    ensures LogsAfter(was, now[..n + 1])
            == var l := LogsAfter(was, now[..n]);
               if Changed(was, now[n]) then l[now[n].name := StateOf(now[n])] else l
  {
    assert now[..n + 1][..n] == now[..n];
    assert Arrivals(now[n].name.writer, []) == [];
  }

  lemma NoTailsYet(before: seq<Arrival>, was: map<FileName, LogState>, now: seq<File>)
    ensures before == before + Tails(was, now[..0]) && was == LogsAfter(was, now[..0])
  {
    assert now[..0] == [] && before + [] == before;
  }

  function LogsAfter(was: map<FileName, LogState>, now: seq<File>): map<FileName, LogState> {
    if now == [] then was
    else
      var rest, f := LogsAfter(was, now[..|now| - 1]), now[|now| - 1];
      if Changed(was, f) then rest[f.name := StateOf(f)] else rest
  }

  /** Only the files read are remembered anew. */
  lemma {:induction false} LogsAfterElsewhere(was: map<FileName, LogState>, now: seq<File>, name: FileName)
    requires forall i :: 0 <= i < |now| ==> now[i].name != name
    ensures var l := LogsAfter(was, now);
            (name in l <==> name in was) && (name in was ==> l[name] == was[name])
  {
    if now != [] {
      LogsAfterElsewhere(was, now[..|now| - 1], name);
    }
  }

  lemma {:induction false} LogsAfterAt(was: map<FileName, LogState>, now: seq<File>, i: nat)
    requires i < |now| && Unique(now)
    ensures var l, f := LogsAfter(was, now), now[i];
            f.name in l && l[f.name] == if Changed(was, f) then StateOf(f) else was[f.name]
  {
    var init := now[..|now| - 1];
    if i < |init| {
      LogsAfterAt(was, init, i);
    } else {
      LogsAfterElsewhere(was, init, now[i].name);
    }
  }

  // ------------------------------------------------------------- what must be known

  /** What a record up to date with the listed files remembers of them. */
  function ReadStates(files: seq<File>): map<FileName, LogState> { LogsAfter(map[], files) }

  /** As far as names and signatures tell, files were only appended to or added at the end. */
  predicate LooksAppended(was: seq<File>, now: seq<File>) {
    Names(was) <= Names(now) && AppendsOnly(ReadStates(was), now)
  }

  /** The file is listed as it was before. */
  ghost predicate Unmoved(was: seq<File>, f: File) {
    exists p :: 0 <= p < |was| && was[p].name == f.name && was[p].sig == f.sig
  }

  /** Read off two listings: no file is gone, each that moved is larger and of the same
      identity, and after one that is new or moved no file of its writer is as it was. */
  lemma LooksAppendedExactly(was: seq<File>, now: seq<File>)
    requires Unique(was) && Unique(now)
    ensures LooksAppended(was, now) <==>
              && (forall p :: 0 <= p < |was| ==> Lists(now, was[p].name))
              && (forall p, i :: 0 <= p < |was| && 0 <= i < |now| && was[p].name == now[i].name && was[p].sig != now[i].sig ==>
                    was[p].sig.size < now[i].sig.size && was[p].sig.identity == now[i].sig.identity)
              && (forall i, j :: 0 <= i < j < |now| && now[i].name.writer == now[j].name.writer && !Unmoved(was, now[i]) ==>
                    !Unmoved(was, now[j]))
  {
    forall i | 0 <= i < |now| ensures Changed(ReadStates(was), now[i]) <==> !Unmoved(was, now[i]) {
      MovedIsChanged(was, now[i]);
    }
    forall p | 0 <= p < |was| ensures was[p].name in ReadStates(was) && ReadStates(was)[was[p].name].sig == was[p].sig {
      LogsAfterAt(map[], was, p);
    }
    forall i | 0 <= i < |now| && now[i].name in ReadStates(was) ensures Lists(was, now[i].name) {
      if !Lists(was, now[i].name) { LogsAfterElsewhere(map[], was, now[i].name); }
    }
    assert Names(was) <= Names(now) <==> forall p :: 0 <= p < |was| ==> Lists(now, was[p].name) by {
      if Names(was) <= Names(now) {
        forall p | 0 <= p < |was| ensures Lists(now, was[p].name) { assert was[p].name in Names(now); }
      }
    }
  }

  lemma MovedIsChanged(was: seq<File>, f: File)
    requires Unique(was)
    ensures Changed(ReadStates(was), f) <==> !Unmoved(was, f)
  {
    if p :| 0 <= p < |was| && was[p].name == f.name {
      LogsAfterAt(map[], was, p);
    } else {
      LogsAfterElsewhere(map[], was, f.name);
    }
  }

  /** Nothing is asked of listings that differ in any other way: those are read anew. */
  ghost predicate Fair(was: seq<File>, now: seq<File>) { LooksAppended(was, now) ==> Grew(was, now) }

  /** Logs compacted: a file listed before is not any more. */
  lemma CompactionIsFair(was: seq<File>, now: seq<File>, i: nat)
    requires i < |was| && !Lists(now, was[i].name)
    ensures !LooksAppended(was, now) && Fair(was, now)
  {
    assert was[i].name in Names(was) && was[i].name !in Names(now);
  }

  /** A file rewritten, or grown under a later file that is as it was. */
  lemma RewriteIsFair(was: seq<File>, now: seq<File>, i: nat, j: nat, k: nat)
    requires Unique(was) && i < |was| && j < |now| && was[i].name == now[j].name && was[i].sig != now[j].sig
    requires !Appended(was[i].sig, now[j].sig)
             || (j < k < |now| && now[k].name.writer == now[j].name.writer && now[k] in was)
    ensures !LooksAppended(was, now) && Fair(was, now)
  {
    LogsAfterAt(map[], was, i);
    if Appended(was[i].sig, now[j].sig) {
      var m :| 0 <= m < |was| && was[m] == now[k];
      LogsAfterAt(map[], was, m);
      assert Changed(ReadStates(was), now[j]) && !Changed(ReadStates(was), now[k]);
    }
  }

  lemma RememberedIsRead(logs: map<FileName, LogState>, files: seq<File>)
    requires ReadAll(logs, files) && Unique(files)
    ensures logs == ReadStates(files) && logs.Keys == Names(files)
  {
    ReadAllRead(files);
    var l := ReadStates(files);
    forall n ensures n in logs <==> n in l {
    }
    forall n | n in logs ensures logs[n] == l[n] {
      assert Lists(files, n);
      var i :| 0 <= i < |files| && files[i].name == n;
      assert logs[files[i].name] == LogState(files[i].sig, |files[i].entries|);
    }
    assert logs.Keys == l.Keys;
    forall n ensures n in Names(files) <==> n in logs {
      if n in logs {
        var i :| 0 <= i < |files| && files[i].name == n;
      }
    }
  }

  // ------------------------------------------------------------------ the class

  /** A record: its fold, how many entries of each writer it folded, and what it read of
      each file. Ghost: the log entries folded, in the order they were, and all that was:
      the fold may hold points of metric streams too. */
  class Record {
    var fold: LogFold
    var counts: map<int, nat>
    var logs: map<FileName, LogState>
    ghost var arrivals: seq<Arrival>
    ghost var shown: seq<Shown>
    ghost var known: set<Marker>  // the rewinds the fold started with

    function Count(w: int): nat
      reads this`counts
    {
      if w in counts then counts[w] else 0
    }

    /** The fold holds what was shown it, the arrivals among it, and the counts are theirs. */
    ghost predicate Folded()
      reads this, fold
    {
      && fold.State() == AppliedAll(NewFold(known), Entries(shown))
      && LogPart(shown) == KeyedAll(arrivals)
      && forall w :: Count(w) == |LogOf(arrivals, w)|
    }

    /** The arrivals are the listed files' entries. */
    ghost predicate Holds(files: seq<File>)
      reads this`logs, this`arrivals, this`known
    {
      && ReadAll(logs, files) && known <= Markers(KeyedAll(arrivals))
      && forall w :: LogOf(arrivals, w) == LogOf(ArrivalsOf(files), w)
    }

    /** The record is up to date with the listed files. */
    ghost predicate Valid(files: seq<File>)
      reads this, fold
    {
      Folded() && Holds(files) && !fold.stale
    }

    constructor ()
      ensures Valid([]) && fresh(fold) && shown == []
    {
      fold := new LogFold({});
      counts, logs, arrivals, shown, known := map[], map[], [], [], {};
    }

    /** The rewinds a record's fold learned, and whether it is stale. */
    lemma RewindsAre(files: seq<File>)
      requires Folded() && Holds(files)
      ensures fold.rewinds == Markers(KeyedAll(arrivals)) == Markers(KeyedAll(ArrivalsOf(files)))
      ensures !fold.stale <==> known == fold.rewinds
    {
      RewindsLearned(known, Entries(shown));
      MarkersAreLogs(shown);
      KnowingIsScratch(known, arrivals, files);
      RewindsLearned(known, KeyedAll(arrivals));
      assert fold.State().rewinds == fold.rewinds && fold.State().stale == fold.stale;
    }

    /** An up to date record of logs alone holds the fold from scratch. */
    lemma UpToDate(files: seq<File>)
      requires Valid(files) && PointsFree(shown)
      ensures fold.State() == FromScratch(files)
    {
      LogsOnly(shown);
      KnowingIsScratch(known, arrivals, files);
    }

    /** Folds a writer's next entries. */
    method Take(writer: int, entries: seq<Logged>)
      requires Folded()
      modifies this`counts, this`arrivals, this`shown, fold
      ensures Folded() && arrivals == old(arrivals) + Arrivals(writer, entries) && OnlyLogs(old(shown), shown)
    {
      ghost var xs := KeyedFrom(writer, |LogOf(arrivals, writer)|, entries);
      KeyedOn(arrivals, writer, entries);
      LogsFolded(NewFold(known), shown, xs);
      forall w ensures |LogOf(arrivals + Arrivals(writer, entries), w)|
                       == Count(w) + if w == writer then |entries| else 0 {
        LogOfJoined(arrivals, Arrivals(writer, entries), w);
        LogOfWriter(writer, entries, w);
        ArrivalsLength(writer, entries);
      }
      fold.ApplyEntries(writer, Count(writer), entries);
      counts := counts[writer := Count(writer) + |entries|];
      arrivals, shown := arrivals + Arrivals(writer, entries), shown + FromLogs(xs);
    }

    /** Folds the unread part of a changed file. */
    method ReadTail(f: File)
      requires Folded() && Consumed(logs, f) <= |f.entries|
      modifies this`counts, this`arrivals, this`shown, this`logs, fold
      ensures Folded() && logs == if Changed(old(logs), f) then old(logs)[f.name := StateOf(f)] else old(logs)
      ensures arrivals == old(arrivals) + FileTail(old(logs), f) && OnlyLogs(old(shown), shown)
    {
      NothingShown(shown);
      if Changed(logs, f) {
        Take(f.name.writer, f.entries[Consumed(logs, f)..]);
        logs := logs[f.name := StateOf(f)];
      }
    }

    /** Folds the unread part of every changed file, file by file. */
    method ReadTails(now: seq<File>)
      requires Folded() && Unique(now)
      requires forall i :: 0 <= i < |now| ==> Consumed(logs, now[i]) <= |now[i].entries|
      modifies this`counts, this`arrivals, this`shown, this`logs, fold
      ensures Folded() && arrivals == old(arrivals) + Tails(old(logs), now) && OnlyLogs(old(shown), shown)
      ensures logs == LogsAfter(old(logs), now)
    {
      hide OnlyLogs;
      ghost var was := logs;
      ghost var before := arrivals;
      NoTailsYet(before, was, now);
      NothingShown(shown);
      for n := 0 to |now|
        invariant Folded() && OnlyLogs(old(shown), shown)
        invariant arrivals == before + Tails(was, now[..n])
        invariant logs == LogsAfter(was, now[..n])
      {
        LogsAfterElsewhere(was, now[..n], now[n].name);
        TailsOneMore(before, was, now, n);
        ghost var here := shown;
        ReadTail(now[n]);
        ShownOn(old(shown), here, shown);
      }
      assert now[..|now|] == now;
    }

    /** Folds the logs again from all the files, knowing `rewinds`. */
    method Refold(rewinds: set<Marker>, now: seq<File>)
      requires Unique(now)
      modifies this
      ensures fresh(fold) && Folded() && known == rewinds && OnlyLogs([], shown)
      ensures arrivals == ArrivalsOf(now) && logs == ReadStates(now)
    {
      fold := new LogFold(rewinds);
      counts, logs, arrivals, shown, known := map[], map[], [], [], rewinds;
      ReadTails(now);
      TailsOfNothing(now);
    }

    predicate SameSigs(now: seq<File>)
      reads this`logs
    {
      logs.Keys == Names(now) && forall i :: 0 <= i < |now| ==> !Changed(logs, now[i])
    }

    /** Its signatures are those of a listing just when that lists the same files, unmoved. */
    lemma SameSigsExactly(was: seq<File>, now: seq<File>)
      requires Holds(was) && Folded() && Unique(was)
      ensures SameSigs(now)
              <==> (forall p :: 0 <= p < |was| ==> Lists(now, was[p].name)) && (forall i :: 0 <= i < |now| ==> Unmoved(was, now[i]))
    {
      RememberedIsRead(logs, was);
      forall i | 0 <= i < |now| ensures Changed(logs, now[i]) <==> !Unmoved(was, now[i]) { MovedIsChanged(was, now[i]); }
      if SameSigs(now) {
        forall p | 0 <= p < |was| ensures Lists(now, was[p].name) { assert was[p].name in Names(was) && was[p].name in Names(now); }
      }
      if (forall p :: 0 <= p < |was| ==> Lists(now, was[p].name)) && (forall i :: 0 <= i < |now| ==> Unmoved(was, now[i])) {
        forall name ensures name in logs <==> name in Names(now) {
          if name in Names(now) {
            var i :| 0 <= i < |now| && now[i].name == name;
            assert Unmoved(was, now[i]);
          }
          if name in logs && !Lists(was, name) { LogsAfterElsewhere(map[], was, name); }
        }
      }
    }

    /** Reads what was appended, or folds the logs again when anything else happened. */
    method BringLogs(ghost was: seq<File>, now: seq<File>) returns (changed: bool, refolded: bool)
      requires Valid(was) && Unique(was) && Unique(now) && Fair(was, now)
      modifies this, fold
      ensures Folded() && Holds(now)
      ensures refolded <==> !LooksAppended(was, now)
      ensures refolded ==> fresh(fold) && known == {} && OnlyLogs([], shown)
      ensures !refolded ==> fold == old(fold) && known == old(known) && OnlyLogs(old(shown), shown)
      ensures changed <==> !old(SameSigs(now))
      ensures !changed ==> !refolded && shown == old(shown) && fold.State() == old(fold.State())
    {
      RememberedIsRead(logs, was);
      changed := !SameSigs(now);
      refolded := !(logs.Keys <= Names(now) && AppendsOnly(logs, now));
      if refolded {
        Refold({}, now);
        ReadAllRead(now);
        return;
      }
      ghost var before := arrivals;
      ghost var state := logs;
      forall i | 0 <= i < |now| ensures Consumed(logs, now[i]) <= |now[i].entries| {
        if now[i].name in logs {
          assert Lists(was, now[i].name);
        }
      }
      forall w ensures LogOf(before + Tails(state, now), w) == LogOf(ArrivalsOf(now), w) {
        AppendedIsListed(was, now, state, before, w);
      }
      KeyedGrows(before, Tails(state, now));
      ReadTailsRead(was, now, state);
      if changed {
        ReadTails(now);
      } else {
        NothingToRead(before, state, now);
        NothingShown(shown);
      }
    }

    /** Brings a record of logs alone up to date with the listed files. */
    method UpdateLogs(ghost was: seq<File>, now: seq<File>) returns (changed: bool)
      requires Valid(was) && Unique(was) && Unique(now) && Fair(was, now) && PointsFree(shown)
      modifies this, fold
      ensures Valid(now) && PointsFree(shown) && (fold == old(fold) || fresh(fold))
      ensures fold.State() == FromScratch(now)
      ensures changed <==> !old(SameSigs(now))
      ensures !changed ==> fold.State() == old(fold.State())
    {
      var refolded: bool;
      changed, refolded := BringLogs(was, now);
      RewindsAre(now);
      if fold.stale {
        Refold(fold.rewinds, now);
        ReadAllRead(now);
        LogsOnly(shown);
        KnowingIsScratch(known, arrivals, now);
        RewindsLearned(known, KeyedAll(arrivals));
      }
      UpToDate(now);
    }
  }

  /** `now` is `was` and then log entries. */
  ghost predicate OnlyLogs(was: seq<Shown>, now: seq<Shown>) {
    was <= now && forall i :: |was| <= i < |now| ==> now[i].Logs?
  }

  lemma NothingShown(a: seq<Shown>)
    ensures OnlyLogs(a, a)
  {
  }

  lemma ShownOn(a: seq<Shown>, b: seq<Shown>, c: seq<Shown>)
    requires OnlyLogs(a, b) && OnlyLogs(b, c)
    ensures OnlyLogs(a, c)
  {
  }

  /** Log entries bring no points. */
  lemma {:induction false} OnlyLogsPoints(was: seq<Shown>, now: seq<Shown>, w: int, k: Name)
    requires OnlyLogs(was, now)
    ensures PointsOf(now, w, k) == PointsOf(was, w, k)
    decreases |now|
  {
    if |now| > |was| {
      OnlyLogsPoints(was, now[..|now| - 1], w, k);
    } else {
      assert now == was;
    }
  }

  lemma LogsFolded(f: Fold, a: seq<Shown>, xs: seq<Keyed>)
    ensures AppliedAll(f, Entries(a + FromLogs(xs))) == AppliedAll(AppliedAll(f, Entries(a)), xs)
    ensures LogPart(a + FromLogs(xs)) == LogPart(a) + xs && OnlyLogs(a, a + FromLogs(xs))
  {
    EntriesJoined(a, FromLogs(xs));
    FromLogsHold(xs, 0, "");
    PartsJoined(a, FromLogs(xs), 0, "");
    AppliedOn(f, Entries(a), xs);
  }

  lemma {:induction false} TailsOfNothing(now: seq<File>)
    ensures [] + Tails(map[], now) == ArrivalsOf(now)
  {
    if now != [] {
      TailsOfNothing(now[..|now| - 1]);
      assert now[|now| - 1].entries[0..] == now[|now| - 1].entries;
    }
  }

  lemma KeyedGrows(a: seq<Arrival>, b: seq<Arrival>)
    ensures Markers(KeyedAll(a)) <= Markers(KeyedAll(a + b))
  {
    KeyedPrefix(a, b);
    forall i | 0 <= i < |KeyedAll(a)| ensures KeyedAll(a)[i] in KeyedAll(a + b) {
      assert KeyedAll(a + b)[i] == KeyedAll(a)[i];
    }
    SubMarkers(KeyedAll(a), KeyedAll(a + b));
  }

  lemma {:induction false} KeyedPrefix(a: seq<Arrival>, b: seq<Arrival>)
    ensures KeyedAll(a) <= KeyedAll(a + b)
  {
    if b == [] {
      assert a + b == a;
    } else {
      KeyedPrefix(a, b[..|b| - 1]);
      assert (a + b)[..|a + b| - 1] == a + b[..|b| - 1];
    }
  }

  lemma ReadAllRead(now: seq<File>)
    requires Unique(now)
    ensures ReadAll(LogsAfter(map[], now), now)
  {
    var l := LogsAfter(map[], now);
    forall name ensures name in l <==> Lists(now, name) {
      if Lists(now, name) {
        var i :| 0 <= i < |now| && now[i].name == name;
        LogsAfterAt(map[], now, i);
      } else {
        LogsAfterElsewhere(map[], now, name);
      }
    }
    forall i | 0 <= i < |now| ensures l[now[i].name] == StateOf(now[i]) {
      LogsAfterAt(map[], now, i);
    }
  }

  /** After the tails are read, every listed file is. */
  lemma ReadTailsRead(was: seq<File>, now: seq<File>, logs: map<FileName, LogState>)
    requires ReadAll(logs, was) && Unique(was) && Unique(now) && Grew(was, now) && logs.Keys <= Names(now)
    ensures ReadAll(LogsAfter(logs, now), now)
  {
    var l := LogsAfter(logs, now);
    forall name ensures name in l <==> Lists(now, name) {
      if Lists(now, name) {
        var i :| 0 <= i < |now| && now[i].name == name;
        LogsAfterAt(logs, now, i);
      } else {
        LogsAfterElsewhere(logs, now, name);
      }
    }
    forall i | 0 <= i < |now| ensures l[now[i].name] == StateOf(now[i]) {
      LogsAfterAt(logs, now, i);
      if !Changed(logs, now[i]) {
        assert Lists(was, now[i].name);
        var j :| 0 <= j < |was| && was[j].name == now[i].name;
        assert logs[was[j].name] == LogState(was[j].sig, |was[j].entries|);
      }
    }
  }

  lemma {:induction false} NothingToRead(before: seq<Arrival>, logs: map<FileName, LogState>, now: seq<File>)
    requires forall i :: 0 <= i < |now| ==> !Changed(logs, now[i])
    ensures before + Tails(logs, now) == before && LogsAfter(logs, now) == logs
  {
    if now != [] {
      var init := now[..|now| - 1];
      NothingToRead(before, logs, init);
      assert Tails(logs, init) == [] by {
        assert |before + Tails(logs, init)| == |before| + |Tails(logs, init)|;
      }
      assert Arrivals(now[|now| - 1].name.writer, []) == [];
    }
  }
}
